/** The project endpoints: registration, login, PDF upload, chat, the
    project information form and the inputs of the plan generator. Like
    teams, a project is only ever found under the caller's own company. */
module ProjectRouter {
  import opened Common
  import opened Schemas
  import opened Models
  import opened Database
  import opened VectorStore
  import opened CompanyRouter

  const ProjectNameTaken := HttpError(400, "Project name already exists for this company")
  const ProjectNotFound := HttpError(404, "Project not found under this company")
  const BadProjectPassword := HttpError(401, "Invalid project password")

  /** The shorter message of `project_information`. */
  const ProjectNotFoundPlain := HttpError(404, "Project not found")

  const InfoUpdatedMessage := "Project info updated successfully"

  // ------------------------------------------------------------ lookups

  function NamedProject(name: string, companyId: nat): Project -> bool
  {
    (p: Project) => p.projectName == name && p.companyId == companyId
  }

  function ProjectWithId(projectId: int, companyId: nat): Project -> bool
  {
    (p: Project) => p.id as int == projectId && p.companyId == companyId
  }

  /** The query on project name and company id. */
  function FindProjectByName(ps: seq<Project>, name: string, companyId: nat): (r: Option<nat>)
    ensures r.Some? ==> r.value < |ps| && ps[r.value].projectName == name && ps[r.value].companyId == companyId
    ensures r.None? <==> forall j :: 0 <= j < |ps| ==> !(ps[j].projectName == name && ps[j].companyId == companyId)
  {
    FirstIndex(ps, NamedProject(name, companyId))
  }

  /** The query on project id and company id. */
  function FindProjectById(ps: seq<Project>, projectId: int, companyId: nat): (r: Option<nat>)
    ensures r.Some? ==> r.value < |ps| && ps[r.value].id as int == projectId && ps[r.value].companyId == companyId
    ensures r.None? <==> forall j :: 0 <= j < |ps| ==> !(ps[j].id as int == projectId && ps[j].companyId == companyId)
  {
    FirstIndex(ps, ProjectWithId(projectId, companyId))
  }

  /** Some project of any company already has the name: the column's
      uniqueness constraint would refuse the insert. */
  predicate NameUsedAnywhere(ps: seq<Project>, name: string)
  {
    exists j :: 0 <= j < |ps| && ps[j].projectName == name
  }

  // ------------------------------------------------------------ registration

  /** `POST /project/project_register`. A name the caller's company already
      uses is a 400; a name only another company uses passes that check and
      then violates the column's uniqueness at commit, a plain 500 with
      nothing stored. */
  method RegisterProject(db: Session, xToken: Option<string>, req: ProjectCreate) returns (r: Result<ProjectOut>)
    requires db.Valid()
    modifies db
    ensures db.Valid()
    ensures db.nextCompanyId == old(db.nextCompanyId) &&
            db.nextTeamId == old(db.nextTeamId) &&
            db.nextProjectId == old(db.nextProjectId) + (if r.Ok? then 1 else 0)
    ensures db.teams == old(db.teams)
    ensures old(CurrentUserIndex(db, xToken)).Err? ==>
      r == Err(old(CurrentUserIndex(db, xToken)).error) &&
      db.companies == old(db.companies) && db.projects == old(db.projects)
    ensures old(CurrentUserIndex(db, xToken)).Ok? ==>
      var k := old(CurrentUserIndex(db, xToken)).value;
      var c := old(db.companies)[k];
      if FindProjectByName(old(db.projects), req.projectName, c.id).Some? then
        r == Err(ProjectNameTaken) && db.companies == old(db.companies) && db.projects == old(db.projects)
      else if NameUsedAnywhere(old(db.projects), req.projectName) then
        r == Err(InternalServerError) && db.companies == old(db.companies) && db.projects == old(db.projects)
      else
        var p := NewProject(old(db.nextProjectId), req, c.id);
        r == Ok(ToProjectOut(p)) && db.projects == old(db.projects) + [p] &&
        db.companies == old(db.companies)[k := c.(noOfProjects := c.noOfProjects + 1)]
  {
    var current := CurrentUserIndex(db, xToken);
    if current.Err? {
      return Err(current.error);
    }
    var k := current.value;
    var c := db.companies[k];
    if FindProjectByName(db.projects, req.projectName, c.id).Some? {
      return Err(ProjectNameTaken);
    }
    if NameUsedAnywhere(db.projects, req.projectName) {
      return Err(InternalServerError);
    }
    r := AddProject(db, k, req);
  }

  /** The insert of `project_register` once the name is known to be free. */
  method AddProject(db: Session, k: nat, req: ProjectCreate) returns (r: Result<ProjectOut>)
    requires db.Valid() && k < |db.companies|
    requires !NameUsedAnywhere(db.projects, req.projectName)
    modifies db
    ensures db.Valid()
    ensures db.nextCompanyId == old(db.nextCompanyId) &&
            db.nextTeamId == old(db.nextTeamId) &&
            db.nextProjectId == old(db.nextProjectId) + 1
    ensures db.teams == old(db.teams)
    ensures var c := old(db.companies)[k];
      var p := NewProject(old(db.nextProjectId), req, c.id);
      r == Ok(ToProjectOut(p)) && db.projects == old(db.projects) + [p] &&
      db.companies == old(db.companies)[k := c.(noOfProjects := c.noOfProjects + 1)]
  {
    var c := db.companies[k];
    var p := NewProject(db.nextProjectId, req, c.id);
    var cs', ps' := db.companies[k := c.(noOfProjects := c.noOfProjects + 1)], db.projects + [p];
    ProjectAdded(db.companies, db.teams, db.projects, k, p);
    assert forall j :: 0 <= j < |cs'| ==> cs'[j].id < db.nextCompanyId;
    assert forall j :: 0 <= j < |ps'| ==> ps'[j].id < db.nextProjectId + 1;
    db.companies, db.projects, db.nextProjectId := cs', ps', db.nextProjectId + 1;
    r := Ok(ToProjectOut(p));
  }

  // ------------------------------------------------------------ login

  /** The body of `project_login` once the company is known. */
  function CheckProjectLogin(ps: seq<Project>, companyId: nat, name: string, password: string): (r: Result<Project>)
    ensures r.Ok? ==> r.value in ps && r.value.companyId == companyId &&
                      r.value.projectName == name && r.value.projectPassword == password
    ensures r == Err(ProjectNotFound) <==>
      forall j :: 0 <= j < |ps| ==> !(ps[j].projectName == name && ps[j].companyId == companyId)
    ensures r.Err? ==> r.error == ProjectNotFound || r.error == BadProjectPassword
    ensures ProjectsUnique(ps) ==>
      (r.Ok? <==> exists j :: 0 <= j < |ps| && ps[j].projectName == name && ps[j].companyId == companyId &&
                             ps[j].projectPassword == password)
  {
    match FindProjectByName(ps, name, companyId)
    case None => Err(ProjectNotFound)
    case Some(i) =>
      assert ProjectsUnique(ps) ==> forall j :: 0 <= j < |ps| && ps[j].projectName == name ==> j == i;
      if ps[i].projectPassword != password then Err(BadProjectPassword) else Ok(ps[i])
  }

  /** `POST /project/project_login`. */
  function ProjectLogin(db: Session, xToken: Option<string>, name: string, password: string): (r: Result<ProjectOut>)
    reads db
    ensures CurrentUserIndex(db, xToken).Err? ==> r == Err(CurrentUserIndex(db, xToken).error)
    ensures CurrentUserIndex(db, xToken).Ok? ==>
      var c := db.companies[CurrentUserIndex(db, xToken).value];
      match CheckProjectLogin(db.projects, c.id, name, password)
      case Ok(p) => r == Ok(ToProjectOut(p))
      case Err(e) => r == Err(e)
  {
    match CurrentUserIndex(db, xToken)
    case Err(e) => Err(e)
    case Ok(k) =>
      match CheckProjectLogin(db.projects, db.companies[k].id, name, password)
      case Ok(p) => Ok(ToProjectOut(p))
      case Err(e) => Err(e)
  }

  /** A project registered under a fresh name can log in with the password
      it was registered with. */
  lemma RegisteredProjectCanLogIn(ps: seq<Project>, id: nat, req: ProjectCreate, companyId: nat)
    requires FindProjectByName(ps, req.projectName, companyId).None?
    ensures CheckProjectLogin(ps + [NewProject(id, req, companyId)], companyId, req.projectName, req.projectPassword)
            == Ok(NewProject(id, req, companyId))
  {
    var ps' := ps + [NewProject(id, req, companyId)];
    FirstIndexOfUnique(ps', NamedProject(req.projectName, companyId), |ps|);
  }

  // ------------------------------------------------------------ upload

  function WithProjectFile(p: Project, info: FileInfo): Project
  {
    p.(projectFilesName := Some(OrEmpty(p.projectFilesName) + [info]))
  }

  /** `POST /project/upload_project_pdf`. As for teams, an empty document
      surfaces as a plain 500. */
  method UploadProjectPdf(db: Session, store: Store, xToken: Option<string>, projectId: int, fileName: string,
                          documents: seq<Chunk>, split: seq<Chunk> -> seq<Chunk>,
                          extractedName: string, freshHex: string, freshParentId: string) returns (r: Result<ProjectOut>)
    requires db.Valid() && store.Valid()
    modifies db, store
    ensures db.Valid() && store.Valid()
    ensures db.nextCompanyId == old(db.nextCompanyId) &&
            db.nextTeamId == old(db.nextTeamId) &&
            db.nextProjectId == old(db.nextProjectId)
    ensures db.companies == old(db.companies) && db.teams == old(db.teams)
    ensures old(CurrentUserIndex(db, xToken)).Err? ==>
      r == Err(old(CurrentUserIndex(db, xToken)).error) &&
      db.projects == old(db.projects) && store.collections == old(store.collections)
    ensures old(CurrentUserIndex(db, xToken)).Ok? ==>
      var c := old(db.companies)[old(CurrentUserIndex(db, xToken)).value];
      match FindProjectById(old(db.projects), projectId, c.id)
      case None =>
        r == Err(ProjectNotFound) && db.projects == old(db.projects) && store.collections == old(store.collections)
      case Some(i) =>
        if documents == [] then
          r == Err(InternalServerError) && db.projects == old(db.projects) && store.collections == old(store.collections)
        else
          var p := old(db.projects)[i];
          var stored := UniqueFilename(freshHex, fileName);
          var scope := ScopeOf(ProjectKey(c.id, p.id));
          store.collections == AppendCollection(old(store.collections), CollectionName(scope),
                                                TaggedChunks(split(documents), scope, freshParentId, Some(stored))) &&
          exists info :: IsUploadEntry(info, extractedName, documents, stored, freshParentId) &&
            db.projects == old(db.projects)[i := WithProjectFile(p, info)] &&
            r == Ok(ToProjectOut(WithProjectFile(p, info)))
  {
    var current := CurrentUserIndex(db, xToken);
    if current.Err? {
      return Err(current.error);
    }
    var c := db.companies[current.value];
    var found := FindProjectById(db.projects, projectId, c.id);
    if found.None? {
      return Err(ProjectNotFound);
    }
    if documents == [] {
      return Err(InternalServerError);
    }
    r := AttachProjectFile(db, store, c.id, found.value, fileName, documents, split, extractedName, freshHex, freshParentId);
  }

  /** The rest of `upload_project_docs` once the project is found and the
      document has pages: store the tagged chunks, then append one file
      entry. */
  method AttachProjectFile(db: Session, store: Store, companyId: nat, i: nat, fileName: string,
                           documents: seq<Chunk>, split: seq<Chunk> -> seq<Chunk>,
                           extractedName: string, freshHex: string, freshParentId: string) returns (r: Result<ProjectOut>)
    requires db.Valid() && store.Valid() && i < |db.projects| && documents != []
    modifies db, store
    ensures db.Valid() && store.Valid()
    ensures db.nextCompanyId == old(db.nextCompanyId) &&
            db.nextTeamId == old(db.nextTeamId) &&
            db.nextProjectId == old(db.nextProjectId)
    ensures db.companies == old(db.companies) && db.teams == old(db.teams)
    ensures var p := old(db.projects)[i];
      var stored := UniqueFilename(freshHex, fileName);
      var scope := ScopeOf(ProjectKey(companyId, p.id));
      store.collections == AppendCollection(old(store.collections), CollectionName(scope),
                                            TaggedChunks(split(documents), scope, freshParentId, Some(stored))) &&
      exists info :: IsUploadEntry(info, extractedName, documents, stored, freshParentId) &&
        db.projects == old(db.projects)[i := WithProjectFile(p, info)] &&
        r == Ok(ToProjectOut(WithProjectFile(p, info)))
  {
    var p := db.projects[i];
    var uniqueFilename := UniqueFilename(freshHex, fileName);
    var source := PickSource(documents);
    var parentId := store.AddDocumentsToProject(NatToString(companyId), NatToString(p.id), documents, split,
                                                Some(uniqueFilename), freshParentId);
    var info := FileInfo(extractedName, source, uniqueFilename, parentId);
    assert IsUploadEntry(info, extractedName, documents, uniqueFilename, freshParentId);
    var p' := WithProjectFile(p, info);
    ProjectRowsUpdated(db.companies, db.teams, db.projects, db.projects[i := p']);
    db.projects := db.projects[i := p'];
    r := Ok(ToProjectOut(p'));
  }

  // ------------------------------------------------------------ chat

  /** `POST /project/project_chat`: the retriever over the project's
      collection; every chunk it can return carries the caller's company id
      and the project's id. */
  method ProjectChat(db: Session, store: Store, xToken: Option<string>, chat: ChatRequest, projectId: int)
    returns (r: Result<Retriever>)
    requires store.Valid()
    ensures CurrentUserIndex(db, xToken).Err? ==> r == Err(CurrentUserIndex(db, xToken).error)
    ensures CurrentUserIndex(db, xToken).Ok? ==>
      var c := db.companies[CurrentUserIndex(db, xToken).value];
      match FindProjectById(db.projects, projectId, c.id)
      case None => r == Err(ProjectNotFound)
      case Some(i) =>
        var s := ProjectScope(NatToString(c.id), NatToString(db.projects[i].id));
        r == Ok(GetProjectRetriever(NatToString(c.id), NatToString(db.projects[i].id), DefaultK, DefaultFetchK)) &&
        projectId >= 0 &&
        forall ch :: ch in store.Candidates(r.value) ==> HasScopeTags(ch, s)
  {
    var current := CurrentUserIndex(db, xToken);
    if current.Err? {
      return Err(current.error);
    }
    var c := db.companies[current.value];
    var found := FindProjectById(db.projects, projectId, c.id);
    if found.None? {
      return Err(ProjectNotFound);
    }
    var companyId := NatToString(c.id);
    var projectIdText := NatToString(db.projects[found.value].id);
    r := Ok(GetProjectRetriever(companyId, projectIdText, DefaultK, DefaultFetchK));
    store.CandidatesTagged(ProjectScope(companyId, projectIdText), DefaultK, DefaultFetchK);
  }

  // ------------------------------------------------------------ project information

  /** The body of the `project_information` response. */
  datatype InfoUpdated = InfoUpdated(message: string, project: ProjectInformation)

  /** The five descriptive columns overwritten from the form; an omitted
      member list is stored as an empty list. */
  function WithInformation(p: Project, info: ProjectInformation): (r: Project)
    ensures r.id == p.id && r.projectName == p.projectName && r.projectPassword == p.projectPassword &&
            r.projectFilesName == p.projectFilesName && r.companyId == p.companyId
    ensures r.projectDescription == info.projectDescription && r.noProjectMembers == info.noProjectMembers &&
            r.techstackOrTool == info.techstackOrTool && r.domain == info.domain
    ensures r.projectMembers == Some(if info.projectMembers.Some? then info.projectMembers.value else [])
  {
    p.(projectDescription := info.projectDescription,
       noProjectMembers := info.noProjectMembers,
       projectMembers := Some(OrEmpty(info.projectMembers)),
       techstackOrTool := info.techstackOrTool,
       domain := info.domain)
  }

  /** `POST /project/project_information`. */
  method ProjectInformationUpdate(db: Session, xToken: Option<string>, projectId: int, info: ProjectInformation)
    returns (r: Result<InfoUpdated>)
    requires db.Valid()
    modifies db
    ensures db.Valid()
    ensures db.nextCompanyId == old(db.nextCompanyId) &&
            db.nextTeamId == old(db.nextTeamId) &&
            db.nextProjectId == old(db.nextProjectId)
    ensures db.companies == old(db.companies) && db.teams == old(db.teams)
    ensures old(CurrentUserIndex(db, xToken)).Err? ==>
      r == Err(old(CurrentUserIndex(db, xToken)).error) && db.projects == old(db.projects)
    ensures old(CurrentUserIndex(db, xToken)).Ok? ==>
      var c := old(db.companies)[old(CurrentUserIndex(db, xToken)).value];
      match FindProjectById(old(db.projects), projectId, c.id)
      case None => r == Err(ProjectNotFoundPlain) && db.projects == old(db.projects)
      case Some(i) =>
        r == Ok(InfoUpdated(InfoUpdatedMessage, info)) &&
        db.projects == old(db.projects)[i := WithInformation(old(db.projects)[i], info)]
  {
    var current := CurrentUserIndex(db, xToken);
    if current.Err? {
      return Err(current.error);
    }
    var c := db.companies[current.value];
    var found := FindProjectById(db.projects, projectId, c.id);
    if found.None? {
      return Err(ProjectNotFoundPlain);
    }
    var i := found.value;
    var p' := WithInformation(db.projects[i], info);
    ProjectRowsUpdated(db.companies, db.teams, db.projects, db.projects[i := p']);
    db.projects := db.projects[i := p'];
    r := Ok(InfoUpdated(InfoUpdatedMessage, info));
  }

  // ------------------------------------------------------------ plan

  /** The arguments `build_project_plan` receives, every absent column
      replaced by its empty default. */
  datatype PlanArguments = PlanArguments(
    domain: string,
    projectName: string,
    noProjectMembers: int,
    projectMembers: seq<ProjectMember>,
    techstackTools: string,
    projectDescription: string)

  /** The `/project/plan` response around the generated plan: the project's
      id and name, and what the generator was asked. */
  datatype PlanRequest = PlanRequest(projectId: nat, projectName: string, arguments: PlanArguments)

  function OrElse<T>(o: Option<T>, default: T): (r: T)
    ensures o.Some? ==> r == o.value
    ensures o.None? ==> r == default
  {
    if o.Some? then o.value else default
  }

  function PlanArgumentsOf(p: Project): PlanArguments
  {
    PlanArguments(OrElse(p.domain, ""), p.projectName, OrElse(p.noProjectMembers, 0),
                  OrEmpty(p.projectMembers), OrElse(p.techstackOrTool, ""), OrElse(p.projectDescription, ""))
  }

  /** Python's `x or default` falls back on every falsy value, not only on
      None. Each default the plan uses is its type's falsy value, so the
      fall-back on None alone computes the same arguments. */
  lemma PythonOrAgrees(text: Option<string>, count: Option<int>, members: Option<seq<ProjectMember>>)
    ensures OrElse(text, "") == (if Truthy(text) then text.value else "")
    ensures OrElse(count, 0) == (if count.Some? && count.value != 0 then count.value else 0)
    ensures OrEmpty(members) == (if members.Some? && members.value != [] then members.value else [])
  {
  }

  /** `POST /project/plan`, up to the generator's call. */
  function GenerateProjectPlan(db: Session, xToken: Option<string>, projectId: int): (r: Result<PlanRequest>)
    reads db
    ensures CurrentUserIndex(db, xToken).Err? ==> r == Err(CurrentUserIndex(db, xToken).error)
    ensures CurrentUserIndex(db, xToken).Ok? ==>
      var c := db.companies[CurrentUserIndex(db, xToken).value];
      match FindProjectById(db.projects, projectId, c.id)
      case None => r == Err(ProjectNotFound)
      case Some(i) =>
        r.Ok? && r.value.projectId as int == projectId && r.value.projectName == db.projects[i].projectName &&
        r.value.arguments == PlanArgumentsOf(db.projects[i])
  {
    match CurrentUserIndex(db, xToken)
    case Err(e) => Err(e)
    case Ok(k) =>
      match FindProjectById(db.projects, projectId, db.companies[k].id)
      case None => Err(ProjectNotFound)
      case Some(i) =>
        var p := db.projects[i];
        Ok(PlanRequest(p.id, p.projectName, PlanArgumentsOf(p)))
  }

  /** What the information form stores is what the plan generator is given:
      each submitted field, or its empty default where it was omitted. The
      project's name is never touched by the form. */
  lemma PlanSeesInformation(p: Project, info: ProjectInformation)
    ensures var a := PlanArgumentsOf(WithInformation(p, info));
      a.projectName == p.projectName &&
      (info.domain.Some? ==> a.domain == info.domain.value) && (info.domain.None? ==> a.domain == "") &&
      (info.noProjectMembers.Some? ==> a.noProjectMembers == info.noProjectMembers.value) &&
      (info.noProjectMembers.None? ==> a.noProjectMembers == 0) &&
      (info.projectMembers.Some? ==> a.projectMembers == info.projectMembers.value) &&
      (info.projectMembers.None? ==> a.projectMembers == []) &&
      (info.techstackOrTool.Some? ==> a.techstackTools == info.techstackOrTool.value) &&
      (info.techstackOrTool.None? ==> a.techstackTools == "") &&
      (info.projectDescription.Some? ==> a.projectDescription == info.projectDescription.value) &&
      (info.projectDescription.None? ==> a.projectDescription == "")
  {
  }
}
