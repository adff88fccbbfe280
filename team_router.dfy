/** The team endpoints. Every one first authenticates the company through
    its token; a team is then found by name or by id and always under the
    caller's own company, so a team of another company is "not found". */
module TeamRouter {
  import opened Common
  import opened Schemas
  import opened Models
  import opened Database
  import opened VectorStore
  import opened CompanyRouter

  const TeamNameTaken := HttpError(400, "Team name already exists for this company")
  const TeamNotFound := HttpError(404, "Team not found under this company")
  const BadTeamPassword := HttpError(401, "Invalid team password")

  // ------------------------------------------------------------ lookups

  function NamedTeam(name: string, companyId: nat): Team -> bool
  {
    (t: Team) => t.teamName == name && t.companyId == companyId
  }

  function TeamWithId(teamId: int, companyId: nat): Team -> bool
  {
    (t: Team) => t.id as int == teamId && t.companyId == companyId
  }

  /** The query on team name and company id. */
  function FindTeamByName(ts: seq<Team>, name: string, companyId: nat): (r: Option<nat>)
    ensures r.Some? ==> r.value < |ts| && ts[r.value].teamName == name && ts[r.value].companyId == companyId
    ensures r.None? <==> forall j :: 0 <= j < |ts| ==> !(ts[j].teamName == name && ts[j].companyId == companyId)
  {
    FirstIndex(ts, NamedTeam(name, companyId))
  }

  /** The query on team id and company id. */
  function FindTeamById(ts: seq<Team>, teamId: int, companyId: nat): (r: Option<nat>)
    ensures r.Some? ==> r.value < |ts| && ts[r.value].id as int == teamId && ts[r.value].companyId == companyId
    ensures r.None? <==> forall j :: 0 <= j < |ts| ==> !(ts[j].id as int == teamId && ts[j].companyId == companyId)
  {
    FirstIndex(ts, TeamWithId(teamId, companyId))
  }

  // ------------------------------------------------------------ login

  /** The body of `team_login` once the company is known. The result is a
      team of that company with that name and password; failing that, "not
      found" exactly when the company has no team of that name. */
  function CheckTeamLogin(ts: seq<Team>, companyId: nat, name: string, password: string): (r: Result<Team>)
    ensures r.Ok? ==> r.value in ts && r.value.companyId == companyId &&
                      r.value.teamName == name && r.value.teamPassword == password
    ensures r == Err(TeamNotFound) <==>
      forall j :: 0 <= j < |ts| ==> !(ts[j].teamName == name && ts[j].companyId == companyId)
    ensures r.Err? ==> r.error == TeamNotFound || r.error == BadTeamPassword
    ensures TeamsUnique(ts) ==>
      (r.Ok? <==> exists j :: 0 <= j < |ts| && ts[j].teamName == name && ts[j].companyId == companyId &&
                             ts[j].teamPassword == password)
  {
    match FindTeamByName(ts, name, companyId)
    case None => Err(TeamNotFound)
    case Some(i) =>
      assert TeamsUnique(ts) ==> forall j :: 0 <= j < |ts| && ts[j].teamName == name && ts[j].companyId == companyId ==> j == i;
      if ts[i].teamPassword != password then Err(BadTeamPassword) else Ok(ts[i])
  }

  /** `POST /team/team_login`. */
  function TeamLogin(db: Session, xToken: Option<string>, name: string, password: string): (r: Result<TeamOut>)
    reads db
    ensures CurrentUserIndex(db, xToken).Err? ==> r == Err(CurrentUserIndex(db, xToken).error)
    ensures CurrentUserIndex(db, xToken).Ok? ==>
      var c := db.companies[CurrentUserIndex(db, xToken).value];
      match CheckTeamLogin(db.teams, c.id, name, password)
      case Ok(t) => r == Ok(ToTeamOut(t))
      case Err(e) => r == Err(e)
  {
    match CurrentUserIndex(db, xToken)
    case Err(e) => Err(e)
    case Ok(k) =>
      match CheckTeamLogin(db.teams, db.companies[k].id, name, password)
      case Ok(t) => Ok(ToTeamOut(t))
      case Err(e) => Err(e)
  }

  // ------------------------------------------------------------ registration

  /** `POST /team/team_register`: a new team of the caller's company, whose
      team counter goes up by one. */
  method TeamRegister(db: Session, xToken: Option<string>, req: TeamCreate) returns (r: Result<TeamOut>)
    requires db.Valid()
    modifies db
    ensures db.Valid()
    ensures db.nextCompanyId == old(db.nextCompanyId) &&
            db.nextTeamId == old(db.nextTeamId) + (if r.Ok? then 1 else 0) &&
            db.nextProjectId == old(db.nextProjectId)
    ensures db.projects == old(db.projects)
    ensures old(CurrentUserIndex(db, xToken)).Err? ==>
      r == Err(old(CurrentUserIndex(db, xToken)).error) &&
      db.companies == old(db.companies) && db.teams == old(db.teams)
    ensures old(CurrentUserIndex(db, xToken)).Ok? ==>
      var k := old(CurrentUserIndex(db, xToken)).value;
      var c := old(db.companies)[k];
      if FindTeamByName(old(db.teams), req.teamName, c.id).Some? then
        r == Err(TeamNameTaken) && db.companies == old(db.companies) && db.teams == old(db.teams)
      else
        var t := NewTeam(old(db.nextTeamId), req, c.id);
        r == Ok(ToTeamOut(t)) && db.teams == old(db.teams) + [t] &&
        db.companies == old(db.companies)[k := c.(noOfTeams := c.noOfTeams + 1)]
  {
    var current := CurrentUserIndex(db, xToken);
    if current.Err? {
      return Err(current.error);
    }
    var k := current.value;
    var c := db.companies[k];
    if FindTeamByName(db.teams, req.teamName, c.id).Some? {
      return Err(TeamNameTaken);
    }
    r := AddTeam(db, k, req);
  }

  /** The insert of `team_register` once the name is known to be free. */
  method AddTeam(db: Session, k: nat, req: TeamCreate) returns (r: Result<TeamOut>)
    requires db.Valid() && k < |db.companies|
    requires FindTeamByName(db.teams, req.teamName, db.companies[k].id).None?
    modifies db
    ensures db.Valid()
    ensures db.nextCompanyId == old(db.nextCompanyId) &&
            db.nextTeamId == old(db.nextTeamId) + 1 &&
            db.nextProjectId == old(db.nextProjectId)
    ensures db.projects == old(db.projects)
    ensures var c := old(db.companies)[k];
      var t := NewTeam(old(db.nextTeamId), req, c.id);
      r == Ok(ToTeamOut(t)) && db.teams == old(db.teams) + [t] &&
      db.companies == old(db.companies)[k := c.(noOfTeams := c.noOfTeams + 1)]
  {
    var c := db.companies[k];
    var t := NewTeam(db.nextTeamId, req, c.id);
    var cs', ts' := db.companies[k := c.(noOfTeams := c.noOfTeams + 1)], db.teams + [t];
    TeamAdded(db.companies, db.teams, db.projects, k, t);
    assert forall j :: 0 <= j < |cs'| ==> cs'[j].id < db.nextCompanyId;
    assert forall j :: 0 <= j < |ts'| ==> ts'[j].id < db.nextTeamId + 1;
    db.companies, db.teams, db.nextTeamId := cs', ts', db.nextTeamId + 1;
    r := Ok(ToTeamOut(t));
  }

  /** A team registered under a name its company did not yet use can log
      in with the password it was registered with. */
  lemma RegisteredTeamCanLogIn(ts: seq<Team>, id: nat, req: TeamCreate, companyId: nat)
    requires FindTeamByName(ts, req.teamName, companyId).None?
    ensures CheckTeamLogin(ts + [NewTeam(id, req, companyId)], companyId, req.teamName, req.teamPassword)
            == Ok(NewTeam(id, req, companyId))
  {
    var ts' := ts + [NewTeam(id, req, companyId)];
    FirstIndexOfUnique(ts', NamedTeam(req.teamName, companyId), |ts|);
  }

  /** Registering a team name under one company leaves the name free for
      every other company: the duplicate check is per company. */
  lemma TeamNameStaysFreeElsewhere(ts: seq<Team>, id: nat, req: TeamCreate, companyId: nat, other: nat)
    requires other != companyId
    ensures FindTeamByName(ts + [NewTeam(id, req, companyId)], req.teamName, other)
            == FindTeamByName(ts, req.teamName, other)
  {
    var ts' := ts + [NewTeam(id, req, companyId)];
    assert forall j :: 0 <= j < |ts| ==> ts'[j] == ts[j];
  }

  // ------------------------------------------------------------ upload

  function WithTeamFile(t: Team, info: FileInfo): Team
  {
    t.(teamFilesName := Some(OrEmpty(t.teamFilesName) + [info]))
  }

  /** `POST /team/team_upload`. The loader's failure on an empty document is
      not caught here, so it surfaces as a plain 500. */
  method TeamUpload(db: Session, store: Store, xToken: Option<string>, teamId: int, fileName: string,
                    documents: seq<Chunk>, split: seq<Chunk> -> seq<Chunk>,
                    extractedName: string, freshHex: string, freshParentId: string) returns (r: Result<TeamOut>)
    requires db.Valid() && store.Valid()
    modifies db, store
    ensures db.Valid() && store.Valid()
    ensures db.nextCompanyId == old(db.nextCompanyId) &&
            db.nextTeamId == old(db.nextTeamId) &&
            db.nextProjectId == old(db.nextProjectId)
    ensures db.companies == old(db.companies) && db.projects == old(db.projects)
    ensures old(CurrentUserIndex(db, xToken)).Err? ==>
      r == Err(old(CurrentUserIndex(db, xToken)).error) &&
      db.teams == old(db.teams) && store.collections == old(store.collections)
    ensures old(CurrentUserIndex(db, xToken)).Ok? ==>
      var c := old(db.companies)[old(CurrentUserIndex(db, xToken)).value];
      match FindTeamById(old(db.teams), teamId, c.id)
      case None =>
        r == Err(TeamNotFound) && db.teams == old(db.teams) && store.collections == old(store.collections)
      case Some(i) =>
        if documents == [] then
          r == Err(InternalServerError) && db.teams == old(db.teams) && store.collections == old(store.collections)
        else
          var t := old(db.teams)[i];
          var stored := UniqueFilename(freshHex, fileName);
          var scope := ScopeOf(TeamKey(c.id, t.id));
          store.collections == AppendCollection(old(store.collections), CollectionName(scope),
                                                TaggedChunks(split(documents), scope, freshParentId, Some(stored))) &&
          exists info :: IsUploadEntry(info, extractedName, documents, stored, freshParentId) &&
            db.teams == old(db.teams)[i := WithTeamFile(t, info)] &&
            r == Ok(ToTeamOut(WithTeamFile(t, info)))
  {
    var current := CurrentUserIndex(db, xToken);
    if current.Err? {
      return Err(current.error);
    }
    var c := db.companies[current.value];
    var found := FindTeamById(db.teams, teamId, c.id);
    if found.None? {
      return Err(TeamNotFound);
    }
    if documents == [] {
      return Err(InternalServerError);
    }
    r := AttachTeamFile(db, store, c.id, found.value, fileName, documents, split, extractedName, freshHex, freshParentId);
  }

  /** The rest of `team_upload` once the team is found and the document has
      pages: store the tagged chunks, then append one file entry. */
  method AttachTeamFile(db: Session, store: Store, companyId: nat, i: nat, fileName: string,
                        documents: seq<Chunk>, split: seq<Chunk> -> seq<Chunk>,
                        extractedName: string, freshHex: string, freshParentId: string) returns (r: Result<TeamOut>)
    requires db.Valid() && store.Valid() && i < |db.teams| && documents != []
    modifies db, store
    ensures db.Valid() && store.Valid()
    ensures db.nextCompanyId == old(db.nextCompanyId) &&
            db.nextTeamId == old(db.nextTeamId) &&
            db.nextProjectId == old(db.nextProjectId)
    ensures db.companies == old(db.companies) && db.projects == old(db.projects)
    ensures var t := old(db.teams)[i];
      var stored := UniqueFilename(freshHex, fileName);
      var scope := ScopeOf(TeamKey(companyId, t.id));
      store.collections == AppendCollection(old(store.collections), CollectionName(scope),
                                            TaggedChunks(split(documents), scope, freshParentId, Some(stored))) &&
      exists info :: IsUploadEntry(info, extractedName, documents, stored, freshParentId) &&
        db.teams == old(db.teams)[i := WithTeamFile(t, info)] &&
        r == Ok(ToTeamOut(WithTeamFile(t, info)))
  {
    var t := db.teams[i];
    var uniqueFilename := UniqueFilename(freshHex, fileName);
    var source := PickSource(documents);
    var parentId := store.AddDocumentsToTeam(NatToString(companyId), NatToString(t.id), documents, split,
                                             Some(uniqueFilename), freshParentId);
    var info := FileInfo(extractedName, source, uniqueFilename, parentId);
    assert IsUploadEntry(info, extractedName, documents, uniqueFilename, freshParentId);
    var t' := WithTeamFile(t, info);
    TeamRowsUpdated(db.companies, db.teams, db.teams[i := t'], db.projects);
    db.teams := db.teams[i := t'];
    r := Ok(ToTeamOut(t'));
  }

  // ------------------------------------------------------------ chat

  /** `POST /team/team_chat`: the retriever over the team's collection;
      every chunk it can return carries the caller's company id and the
      team's id. */
  method TeamChat(db: Session, store: Store, xToken: Option<string>, message: string, teamId: int)
    returns (r: Result<Retriever>)
    requires store.Valid()
    ensures CurrentUserIndex(db, xToken).Err? ==> r == Err(CurrentUserIndex(db, xToken).error)
    ensures CurrentUserIndex(db, xToken).Ok? ==>
      var c := db.companies[CurrentUserIndex(db, xToken).value];
      match FindTeamById(db.teams, teamId, c.id)
      case None => r == Err(TeamNotFound)
      case Some(i) =>
        var s := TeamScope(NatToString(c.id), NatToString(db.teams[i].id));
        r == Ok(GetTeamRetriever(NatToString(c.id), NatToString(db.teams[i].id), DefaultK, DefaultFetchK)) &&
        teamId >= 0 &&
        forall ch :: ch in store.Candidates(r.value) ==> HasScopeTags(ch, s)
  {
    var current := CurrentUserIndex(db, xToken);
    if current.Err? {
      return Err(current.error);
    }
    var c := db.companies[current.value];
    var found := FindTeamById(db.teams, teamId, c.id);
    if found.None? {
      return Err(TeamNotFound);
    }
    var companyId := NatToString(c.id);
    var teamIdText := NatToString(db.teams[found.value].id);
    r := Ok(GetTeamRetriever(companyId, teamIdText, DefaultK, DefaultFetchK));
    store.CandidatesTagged(TeamScope(companyId, teamIdText), DefaultK, DefaultFetchK);
  }
}
