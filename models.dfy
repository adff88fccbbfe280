/** The rows of the three tables (SQLAlchemy models) and the constraints the
    tables and the routers keep between them.

    Non-null columns are plain fields; nullable columns are `Option`s. The
    JSON list columns hold the shape of `FileInfo` (files) and of
    `ProjectMember` (members). */
module Models {
  import opened Common
  import opened Schemas

  datatype Company = Company(
    id: nat,
    username: string,
    companyName: string,
    password: string,
    companyEmail: string,
    sessionToken: Option<string>,
    companyFilesName: Option<seq<FileInfo>>,
    noOfTeams: int,
    noOfProjects: int)

  datatype Team = Team(
    id: nat,
    teamName: string,
    teamPassword: string,
    teamFilesName: Option<seq<FileInfo>>,
    companyId: nat)

  datatype Project = Project(
    id: nat,
    projectName: string,
    projectPassword: string,
    projectFilesName: Option<seq<FileInfo>>,
    projectDescription: Option<string>,
    noProjectMembers: Option<int>,
    projectMembers: Option<seq<ProjectMember>>,
    techstackOrTool: Option<string>,
    domain: Option<string>,
    companyId: nat)

  /** The foreign keys `team.company_id` and `project.company_id`. */
  function TeamCompany(t: Team): nat { t.companyId }

  function ProjectCompany(p: Project): nat { p.companyId }

  // ------------------------------------------------------- new rows

  /** A company row as inserted: no session token, an empty file list and
      both counters at their column default 0. */
  function NewCompany(id: nat, user: CompanyCreate): (r: Company)
    ensures r.id == id && r.username == user.username && r.companyName == user.companyName &&
            r.password == user.password && r.companyEmail == user.companyEmail
    ensures r.sessionToken == None && r.companyFilesName == Some([]) && r.noOfTeams == 0 && r.noOfProjects == 0
  {
    Company(id, user.username, user.companyName, user.password, user.companyEmail, None, Some([]), 0, 0)
  }

  /** A team row as inserted: an empty file list, owned by `companyId`. */
  function NewTeam(id: nat, req: TeamCreate, companyId: nat): (r: Team)
    ensures r.id == id && r.teamName == req.teamName && r.teamPassword == req.teamPassword
    ensures r.teamFilesName == Some([]) && r.companyId == companyId
  {
    Team(id, req.teamName, req.teamPassword, Some([]), companyId)
  }

  /** A project row as inserted: empty file and member lists, no information. */
  function NewProject(id: nat, req: ProjectCreate, companyId: nat): (r: Project)
    ensures r.id == id && r.projectName == req.projectName && r.projectPassword == req.projectPassword
    ensures r.projectFilesName == Some([]) && r.projectMembers == Some([]) && r.companyId == companyId
    ensures r.projectDescription.None? && r.noProjectMembers.None? && r.techstackOrTool.None? && r.domain.None?
  {
    Project(id, req.projectName, req.projectPassword, Some([]), None, None, Some([]), None, None, companyId)
  }

  // ------------------------------------------------------- constraints

  /** Primary keys, and the unique columns username, company_name and
      company_email, are distinct across all companies. */
  predicate CompaniesUnique(cs: seq<Company>)
  {
    forall i, j :: 0 <= i < |cs| && 0 <= j < |cs| && i != j ==>
      cs[i].id != cs[j].id && cs[i].username != cs[j].username &&
      cs[i].companyName != cs[j].companyName && cs[i].companyEmail != cs[j].companyEmail
  }

  /** Team keys are distinct. `team_name` has no table constraint; that it is
      unique within one company is kept by the registration handler. */
  predicate TeamsUnique(ts: seq<Team>)
  {
    forall i, j :: 0 <= i < |ts| && 0 <= j < |ts| && i != j ==>
      ts[i].id != ts[j].id && (ts[i].companyId == ts[j].companyId ==> ts[i].teamName != ts[j].teamName)
  }

  /** Project keys are distinct and `project_name` is unique over the whole
      table, across companies. */
  predicate ProjectsUnique(ps: seq<Project>)
  {
    forall i, j :: 0 <= i < |ps| && 0 <= j < |ps| && i != j ==>
      ps[i].id != ps[j].id && ps[i].projectName != ps[j].projectName
  }

  predicate HasCompany(cs: seq<Company>, id: nat)
  {
    exists k :: 0 <= k < |cs| && cs[k].id == id
  }

  /** Every team and project references an existing company. */
  predicate OwnersExist(cs: seq<Company>, ts: seq<Team>, ps: seq<Project>)
  {
    (forall i :: 0 <= i < |ts| ==> HasCompany(cs, ts[i].companyId)) &&
    (forall i :: 0 <= i < |ps| ==> HasCompany(cs, ps[i].companyId))
  }

  /** `no_of_teams` and `no_of_projects` count the company's rows. */
  predicate CountersMatch(cs: seq<Company>, ts: seq<Team>, ps: seq<Project>)
  {
    forall i :: 0 <= i < |cs| ==>
      cs[i].noOfTeams == CountOwned(ts, TeamCompany, cs[i].id) &&
      cs[i].noOfProjects == CountOwned(ps, ProjectCompany, cs[i].id)
  }

  predicate TablesValid(cs: seq<Company>, ts: seq<Team>, ps: seq<Project>)
  {
    CompaniesUnique(cs) && TeamsUnique(ts) && ProjectsUnique(ps) &&
    OwnersExist(cs, ts, ps) && CountersMatch(cs, ts, ps)
  }

  // ------------------------------------------------------- projections (orm_mode)

  /** The public view copies key, username, company name, files and both
      counters; it has no field for the secrets. */
  function ToCompanyOut(c: Company): (r: CompanyOut)
    ensures r.id == c.id && r.username == c.username && r.companyName == c.companyName
    ensures r.companyFilesName == c.companyFilesName && r.noOfTeams == c.noOfTeams && r.noOfProjects == c.noOfProjects
  {
    CompanyOut(c.id, c.username, c.companyName, c.companyFilesName, c.noOfTeams, c.noOfProjects)
  }

  function ToTeamOut(t: Team): (r: TeamOut)
    ensures r.id == t.id && r.teamName == t.teamName && r.teamFilesName == t.teamFilesName
  {
    TeamOut(t.id, t.teamName, t.teamFilesName)
  }

  function ToProjectOut(p: Project): (r: ProjectOut)
    ensures r.id == p.id && r.projectName == p.projectName && r.projectFilesName == p.projectFilesName
  {
    ProjectOut(p.id, p.projectName, p.projectFilesName)
  }

  /** The public view does not depend on the password, the email or the
      session token: two rows that differ only there look the same. */
  lemma CompanyOutHidesSecrets(c: Company, password: string, email: string, token: Option<string>)
    ensures ToCompanyOut(c.(password := password, companyEmail := email, sessionToken := token)) == ToCompanyOut(c)
  {
  }

  // ------------------------------------------------------- keeping the constraints

  /** Rewriting company rows without touching keys, unique columns or
      counters keeps the tables valid. */
  predicate SameCompanyKeys(cs: seq<Company>, cs': seq<Company>)
  {
    |cs| == |cs'| &&
    forall i :: 0 <= i < |cs| ==>
      cs'[i].id == cs[i].id && cs'[i].username == cs[i].username &&
      cs'[i].companyName == cs[i].companyName && cs'[i].companyEmail == cs[i].companyEmail &&
      cs'[i].noOfTeams == cs[i].noOfTeams && cs'[i].noOfProjects == cs[i].noOfProjects
  }

  lemma OwnersExistSameIds(cs: seq<Company>, cs': seq<Company>, ts: seq<Team>, ps: seq<Project>)
    requires OwnersExist(cs, ts, ps)
    requires |cs| == |cs'| && forall i :: 0 <= i < |cs| ==> cs'[i].id == cs[i].id
    ensures OwnersExist(cs', ts, ps)
  {
    forall i | 0 <= i < |ts| ensures HasCompany(cs', ts[i].companyId) {
      var k :| 0 <= k < |cs| && cs[k].id == ts[i].companyId;
      assert cs'[k].id == ts[i].companyId;
    }
    forall i | 0 <= i < |ps| ensures HasCompany(cs', ps[i].companyId) {
      var k :| 0 <= k < |cs| && cs[k].id == ps[i].companyId;
      assert cs'[k].id == ps[i].companyId;
    }
  }

  lemma CompanyRowsUpdated(cs: seq<Company>, cs': seq<Company>, ts: seq<Team>, ps: seq<Project>)
    requires TablesValid(cs, ts, ps) && SameCompanyKeys(cs, cs')
    ensures TablesValid(cs', ts, ps)
  {
    OwnersExistSameIds(cs, cs', ts, ps);
  }

  /** Inserting a company whose key and unique columns are all unused, with
      both counters 0, keeps the tables valid. */
  lemma CompanyAdded(cs: seq<Company>, ts: seq<Team>, ps: seq<Project>, c: Company)
    requires TablesValid(cs, ts, ps)
    requires forall i :: 0 <= i < |cs| ==>
      cs[i].id != c.id && cs[i].username != c.username &&
      cs[i].companyName != c.companyName && cs[i].companyEmail != c.companyEmail
    requires c.noOfTeams == 0 && c.noOfProjects == 0
    ensures TablesValid(cs + [c], ts, ps)
  {
    var cs' := cs + [c];
    forall i | 0 <= i < |ts| ensures ts[i].companyId != c.id {
      var k :| 0 <= k < |cs| && cs[k].id == ts[i].companyId;
    }
    forall i | 0 <= i < |ps| ensures ps[i].companyId != c.id {
      var k :| 0 <= k < |cs| && cs[k].id == ps[i].companyId;
    }
    CountOwnedNone(ts, TeamCompany, c.id);
    CountOwnedNone(ps, ProjectCompany, c.id);
    forall i | 0 <= i < |ts| ensures HasCompany(cs', ts[i].companyId) {
      var k :| 0 <= k < |cs| && cs[k].id == ts[i].companyId;
      assert cs'[k] == cs[k];
    }
    forall i | 0 <= i < |ps| ensures HasCompany(cs', ps[i].companyId) {
      var k :| 0 <= k < |cs| && cs[k].id == ps[i].companyId;
      assert cs'[k] == cs[k];
    }
  }

  /** Inserting a team for company `k` with a fresh key and a name unused in
      that company, while counting it in `no_of_teams`, keeps the tables valid. */
  lemma TeamAdded(cs: seq<Company>, ts: seq<Team>, ps: seq<Project>, k: nat, t: Team)
    requires TablesValid(cs, ts, ps)
    requires k < |cs| && t.companyId == cs[k].id
    requires forall j :: 0 <= j < |ts| ==> ts[j].id != t.id
    requires forall j :: 0 <= j < |ts| && ts[j].companyId == t.companyId ==> ts[j].teamName != t.teamName
    ensures TablesValid(cs[k := cs[k].(noOfTeams := cs[k].noOfTeams + 1)], ts + [t], ps)
  {
    var cs' := cs[k := cs[k].(noOfTeams := cs[k].noOfTeams + 1)];
    var ts' := ts + [t];
    forall i | 0 <= i < |cs'|
      ensures cs'[i].noOfTeams == CountOwned(ts', TeamCompany, cs'[i].id)
    {
      CountOwnedAppend(ts, t, TeamCompany, cs[i].id);
    }
    OwnersExistSameIds(cs, cs', ts, ps);
    assert HasCompany(cs', t.companyId) by { assert cs'[k].id == t.companyId; }
    assert OwnersExist(cs', ts', ps) by {
      forall i | 0 <= i < |ts'| ensures HasCompany(cs', ts'[i].companyId) {
        if i < |ts| { assert ts'[i] == ts[i]; }
      }
    }
  }

  /** Inserting a project for company `k` with a fresh key and a name unused
      in the whole table, while counting it, keeps the tables valid. */
  lemma ProjectAdded(cs: seq<Company>, ts: seq<Team>, ps: seq<Project>, k: nat, p: Project)
    requires TablesValid(cs, ts, ps)
    requires k < |cs| && p.companyId == cs[k].id
    requires forall j :: 0 <= j < |ps| ==> ps[j].id != p.id && ps[j].projectName != p.projectName
    ensures TablesValid(cs[k := cs[k].(noOfProjects := cs[k].noOfProjects + 1)], ts, ps + [p])
  {
    var cs' := cs[k := cs[k].(noOfProjects := cs[k].noOfProjects + 1)];
    var ps' := ps + [p];
    forall i | 0 <= i < |cs'|
      ensures cs'[i].noOfProjects == CountOwned(ps', ProjectCompany, cs'[i].id)
    {
      CountOwnedAppend(ps, p, ProjectCompany, cs[i].id);
    }
    OwnersExistSameIds(cs, cs', ts, ps);
    assert HasCompany(cs', p.companyId) by { assert cs'[k].id == p.companyId; }
    assert OwnersExist(cs', ts, ps') by {
      forall i | 0 <= i < |ps'| ensures HasCompany(cs', ps'[i].companyId) {
        if i < |ps| { assert ps'[i] == ps[i]; }
      }
    }
  }

  /** Rewriting team rows without touching key, name or owner. */
  predicate SameTeamKeys(ts: seq<Team>, ts': seq<Team>)
  {
    |ts| == |ts'| &&
    forall i :: 0 <= i < |ts| ==>
      ts'[i].id == ts[i].id && ts'[i].teamName == ts[i].teamName && ts'[i].companyId == ts[i].companyId
  }

  lemma TeamRowsUpdated(cs: seq<Company>, ts: seq<Team>, ts': seq<Team>, ps: seq<Project>)
    requires TablesValid(cs, ts, ps) && SameTeamKeys(ts, ts')
    ensures TablesValid(cs, ts', ps)
  {
    forall i | 0 <= i < |cs| ensures CountOwned(ts', TeamCompany, cs[i].id) == CountOwned(ts, TeamCompany, cs[i].id) {
      CountOwnedSameOwners(ts, ts', TeamCompany, cs[i].id);
    }
  }

  /** Rewriting project rows without touching key, name or owner. */
  predicate SameProjectKeys(ps: seq<Project>, ps': seq<Project>)
  {
    |ps| == |ps'| &&
    forall i :: 0 <= i < |ps| ==>
      ps'[i].id == ps[i].id && ps'[i].projectName == ps[i].projectName && ps'[i].companyId == ps[i].companyId
  }

  lemma ProjectRowsUpdated(cs: seq<Company>, ts: seq<Team>, ps: seq<Project>, ps': seq<Project>)
    requires TablesValid(cs, ts, ps) && SameProjectKeys(ps, ps')
    ensures TablesValid(cs, ts, ps')
  {
    forall i | 0 <= i < |cs| ensures CountOwned(ps', ProjectCompany, cs[i].id) == CountOwned(ps, ProjectCompany, cs[i].id) {
      CountOwnedSameOwners(ps, ps', ProjectCompany, cs[i].id);
    }
  }

  // ------------------------------------------------------- cascade delete

  /** The company table without row `k`. */
  function RemoveAt(cs: seq<Company>, k: nat): (r: seq<Company>)
    requires k < |cs|
    ensures |r| == |cs| - 1
    ensures forall i :: 0 <= i < |r| ==> r[i] == (if i < k then cs[i] else cs[i + 1])
  {
    cs[..k] + cs[k + 1..]
  }

  /** Deleting company `k` with `cascade="all, delete"` removes its teams and
      its projects with it (`RemoveOwned` drops exactly the rows whose owner
      is that company), and what remains still satisfies every constraint:
      no orphan rows, and every other company's counters still count. */
  lemma CascadeDelete(cs: seq<Company>, ts: seq<Team>, ps: seq<Project>, k: nat)
    requires TablesValid(cs, ts, ps) && k < |cs|
    ensures TablesValid(RemoveAt(cs, k), RemoveOwned(ts, TeamCompany, cs[k].id), RemoveOwned(ps, ProjectCompany, cs[k].id))
  {
    var gone := cs[k].id;
    RemovedCompaniesUnique(cs, k);
    RemovedCountersMatch(cs, ts, ps, k);
    RemovedOwnersExist(cs, ts, ps, k);
    RemovedTeamsUnique(ts, gone);
    RemovedProjectsUnique(ps, gone);
  }

  lemma RemovedCompaniesUnique(cs: seq<Company>, k: nat)
    requires CompaniesUnique(cs) && k < |cs|
    ensures CompaniesUnique(RemoveAt(cs, k))
    ensures forall i :: 0 <= i < |cs| - 1 ==> RemoveAt(cs, k)[i].id != cs[k].id
  {
    var r := RemoveAt(cs, k);
    forall a, b | 0 <= a < |r| && 0 <= b < |r| && a != b
      ensures r[a].id != r[b].id && r[a].username != r[b].username &&
              r[a].companyName != r[b].companyName && r[a].companyEmail != r[b].companyEmail
    {
      var a' := if a < k then a else a + 1;
      var b' := if b < k then b else b + 1;
      assert r[a] == cs[a'] && r[b] == cs[b'];
    }
    forall i | 0 <= i < |r| ensures r[i].id != cs[k].id {
      var i' := if i < k then i else i + 1;
      assert r[i] == cs[i'];
    }
  }

  lemma RemovedCountersMatch(cs: seq<Company>, ts: seq<Team>, ps: seq<Project>, k: nat)
    requires CompaniesUnique(cs) && CountersMatch(cs, ts, ps) && k < |cs|
    ensures CountersMatch(RemoveAt(cs, k), RemoveOwned(ts, TeamCompany, cs[k].id), RemoveOwned(ps, ProjectCompany, cs[k].id))
  {
    var gone := cs[k].id;
    var r := RemoveAt(cs, k);
    forall i | 0 <= i < |r|
      ensures r[i].noOfTeams == CountOwned(RemoveOwned(ts, TeamCompany, gone), TeamCompany, r[i].id)
      ensures r[i].noOfProjects == CountOwned(RemoveOwned(ps, ProjectCompany, gone), ProjectCompany, r[i].id)
    {
      var i' := if i < k then i else i + 1;
      assert r[i] == cs[i'] && i' != k;
      CountRemoveOwned(ts, TeamCompany, gone, r[i].id);
      CountRemoveOwned(ps, ProjectCompany, gone, r[i].id);
    }
  }

  lemma RemovedOwnersExist(cs: seq<Company>, ts: seq<Team>, ps: seq<Project>, k: nat)
    requires OwnersExist(cs, ts, ps) && k < |cs|
    ensures OwnersExist(RemoveAt(cs, k), RemoveOwned(ts, TeamCompany, cs[k].id), RemoveOwned(ps, ProjectCompany, cs[k].id))
  {
    var gone := cs[k].id;
    var r := RemoveAt(cs, k);
    var ts' := RemoveOwned(ts, TeamCompany, gone);
    var ps' := RemoveOwned(ps, ProjectCompany, gone);
    forall i | 0 <= i < |ts'| ensures HasCompany(r, ts'[i].companyId) {
      var j :| 0 <= j < |ts| && ts[j] == ts'[i];
      var m :| 0 <= m < |cs| && cs[m].id == ts[j].companyId;
      var m' := if m < k then m else m - 1;
      assert r[m'] == cs[m];
    }
    forall i | 0 <= i < |ps'| ensures HasCompany(r, ps'[i].companyId) {
      var j :| 0 <= j < |ps| && ps[j] == ps'[i];
      var m :| 0 <= m < |cs| && cs[m].id == ps[j].companyId;
      var m' := if m < k then m else m - 1;
      assert r[m'] == cs[m];
    }
  }

  lemma {:induction false} RemovedTeamsUnique(ts: seq<Team>, gone: nat)
    requires TeamsUnique(ts)
    ensures TeamsUnique(RemoveOwned(ts, TeamCompany, gone))
  {
    if |ts| > 0 {
      assert TeamsUnique(ts[1..]);
      RemovedTeamsUnique(ts[1..], gone);
      if ts[0].companyId != gone {
        var rest := RemoveOwned(ts[1..], TeamCompany, gone);
        var r := [ts[0]] + rest;
        forall j | 0 <= j < |rest| ensures rest[j].id != ts[0].id && (rest[j].companyId == ts[0].companyId ==> rest[j].teamName != ts[0].teamName) {
          var m :| 0 <= m < |ts[1..]| && ts[1..][m] == rest[j];
          assert ts[m + 1] == rest[j];
        }
        forall a, b | 0 <= a < |r| && 0 <= b < |r| && a != b
          ensures r[a].id != r[b].id && (r[a].companyId == r[b].companyId ==> r[a].teamName != r[b].teamName)
        {
          if a > 0 && b > 0 { assert r[a] == rest[a - 1] && r[b] == rest[b - 1]; }
          else if a == 0 { assert r[b] == rest[b - 1]; }
          else { assert r[a] == rest[a - 1]; }
        }
      }
    }
  }

  lemma {:induction false} RemovedProjectsUnique(ps: seq<Project>, gone: nat)
    requires ProjectsUnique(ps)
    ensures ProjectsUnique(RemoveOwned(ps, ProjectCompany, gone))
  {
    if |ps| > 0 {
      assert ProjectsUnique(ps[1..]);
      RemovedProjectsUnique(ps[1..], gone);
      if ps[0].companyId != gone {
        var rest := RemoveOwned(ps[1..], ProjectCompany, gone);
        var r := [ps[0]] + rest;
        forall j | 0 <= j < |rest| ensures rest[j].id != ps[0].id && rest[j].projectName != ps[0].projectName {
          var m :| 0 <= m < |ps[1..]| && ps[1..][m] == rest[j];
          assert ps[m + 1] == rest[j];
        }
        forall a, b | 0 <= a < |r| && 0 <= b < |r| && a != b
          ensures r[a].id != r[b].id && r[a].projectName != r[b].projectName
        {
          if a > 0 && b > 0 { assert r[a] == rest[a - 1] && r[b] == rest[b - 1]; }
          else if a == 0 { assert r[b] == rest[b - 1]; }
          else { assert r[a] == rest[a - 1]; }
        }
      }
    }
  }
}
