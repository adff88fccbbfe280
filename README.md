# Docu-AI-Navigator: tenant registry and scoped vector store

Docu-AI-Navigator is a FastAPI service. Companies register and log in with a
session token. Each company owns teams and projects. Staff upload PDFs at
company, team or project level and chat with an LLM over those documents.
Every upload is split into chunks. The chunks are tagged with the ids of the
scope they belong to and stored in a Chroma collection whose name is derived
from that scope. Every chat reads back through a retriever over the same
collection.

This project models the service's own logic in Dafny:

- **Collection naming and chunk tagging** (`VectorStore`).
  - The three collection-name derivations are modelled.
  - So is the tagging loop, as an in-place loop over an array of chunks.
  - The store is a class holding a map from collection name to chunks.
    - Its invariant is that every chunk stored under a scope's collection carries that scope's ids.
  - Proved:
    - write and read paths agree on the collection name;
    - names are injective for decimal ids, within each kind and across kinds;
    - tagging keeps the chunks and their text;
    - every chunk of one add call gets the same parent id, and that id is returned;
    - an append to one scope leaves every other scope's read unchanged.
- **The tenant registry** (`CompanyRouter`, `TeamRouter`, `ProjectRouter`).
  - These operate on a `Database.Session` class holding the company, team and project tables in insertion order.
  - Every endpoint is a method or, when it only reads, a function.
  - Each endpoint returns either its response or an `HttpError` with the source's status code and message.
  - Each one keeps `Session.Valid()`:
    - keys are unique;
    - usernames, company names and emails are unique;
    - team names are unique per company;
    - project names are unique table-wide;
    - every team and project references an existing company;
    - `no_of_teams` and `no_of_projects` equal the number of the company's rows.
  - Each one states its complete new state.
- **Record shapes** (`Models`, `Schemas`): the rows, the public views, and the request and response records with their defaults.

Fresh values are parameters of the operations that use them:

- the hex string of the stored file name;
- the login token;
- the parent id of an add call.

The upload operations also take as parameters:

- the pages the PDF loader returns (`documents`);
- the text splitter (`split`);
- the name the LLM extracts from the PDF.

`str(id)` of an integer key is `Common.NatToString`. It is proved injective and inverted by `Common.ParseNat`. `query(...).filter(...).first()` is `Common.FirstIndex`: the first matching row in insertion order.

The routers import the vector-store module as `Services.vectorstore`, while the file is named `Services/vectorestore.py`. The model follows the file's contents.

## Model

| member | source | states |
|---|---|---|
| Common.NatToString | Routers/company.py:193 | `str` of a non-negative integer is a non-empty digit string without a leading zero |
| Common.ParseNatToString | Routers/team.py:149-150 | parsing the decimal text of an id gives the id back |
| Common.NatToStringInjective | Routers/team.py:149-150 | two ids have the same decimal text exactly when they are equal |
| Common.FirstIndex | Routers/company.py:43 | `.first()` returns a row satisfying the filter with none before it, and None exactly when no row satisfies it |
| Common.FirstIndexOfUnique | Routers/company.py:43 | when exactly one row satisfies the filter, `.first()` returns that row |
| Common.RemoveOwned | models.py:31-32 | deleting a company's dependants keeps exactly the rows with another owner |
| Common.CountRemoveOwned | models.py:31-32 | after the cascade the deleted owner has no rows and every other owner keeps its count |
| Models.NewCompany | models.py:18-29 | a registered company row has the submitted username, company name, password and email, no session token, an empty file list and both counters at 0 |
| Models.NewTeam | models.py:6-14 | a new team row has the submitted name and password, an empty file list and the creating company as owner |
| Models.NewProject | models.py:34-47 | a new project row has the submitted name and password, empty file and member lists, the creating company as owner, and no description, member count, tech stack or domain |
| Models.ToCompanyOut | schemas.py:31-37 | the public company view copies the key, username, company name, file list and both counters |
| Models.ToTeamOut | schemas.py:58-61 | the public team view copies the key, name and file list |
| Models.ToProjectOut | schemas.py:73-76 | the public project view copies the key, name and file list |
| Models.CompanyOutHidesSecrets | schemas.py:31-37 | the public company view does not depend on the password, email or session token |
| Models.CompanyAdded | models.py:18-29 | a company whose username, name, email and key are all new, inserted with both counters at 0, keeps the tables valid |
| Models.TeamAdded | Routers/team.py:35-45 | a team with a fresh key and a name unused in its company, inserted while that company's counter goes up by one, keeps the tables valid |
| Models.ProjectAdded | Routers/project.py:35-45 | a project with a fresh key and a table-wide fresh name, inserted while its company's counter goes up by one, keeps the tables valid |
| Models.CompanyRowsUpdated | Routers/company.py:137-138 | changing a company's non-key columns (token, files) keeps the tables valid |
| Models.TeamRowsUpdated | Routers/team.py:122-125 | changing a team's non-key columns keeps the tables valid |
| Models.ProjectRowsUpdated | Routers/project.py:187-193 | changing a project's non-key columns keeps the tables valid |
| Models.RemoveAt | models.py:31-32 | deleting one company row keeps every other row in order |
| Models.CascadeDelete | models.py:31-32 | deleting a company together with its teams and projects keeps the tables valid |
| Database.Session.constructor | Routers/company.py:17 | the freshly created empty tables are valid |
| VectorStore.CompanyCollectionName | Services/vectorestore.py:38 | the company collection name is 15 characters longer than the id, and the id sits between the prefix and the suffix |
| VectorStore.TeamCollectionName | Services/vectorestore.py:102 | the team collection name puts the team id right after the prefix and the company id right before the suffix |
| VectorStore.ProjectCollectionName | Services/vectorestore.py:153 | the project collection name puts the project id right after the prefix and the company id right before the suffix |
| VectorStore.CompanyNameInjective | Services/vectorestore.py:38 | two company collection names are equal exactly when the company ids are |
| VectorStore.TeamNameInjective | Services/vectorestore.py:102 | for digit-only team ids, two team collection names are equal exactly when both ids are |
| VectorStore.ProjectNameInjective | Services/vectorestore.py:153 | for digit-only project ids, two project collection names are equal exactly when both ids are |
| VectorStore.KindsNeverCollide | Services/vectorestore.py:38-153 | a company, a team and a project collection never share a name |
| VectorStore.CollectionNameInjective | Services/vectorestore.py:38-170 | for decimal scopes, equal collection names means equal scopes |
| VectorStore.NonDecimalTeamIdsCollide | Services/vectorestore.py:102 | without digit-only ids two different team scopes can share a collection |
| VectorStore.ScopeOf | Routers/team.py:107-112 | the scopes the routers build from integer keys are decimal |
| VectorStore.ScopeKeyIsolation | Routers/team.py:149-153 | the collections of two database scopes coincide exactly when the scopes are the same |
| VectorStore.TagChunk | Services/vectorestore.py:30-35 | a tagged chunk keeps its text, gains the scope ids and the parent id, gets `source` only for a truthy file name, and keeps every other key |
| VectorStore.TaggedChunks | Services/vectorestore.py:30-35 | tagging keeps the number of chunks |
| VectorStore.TaggedChunksAt | Services/vectorestore.py:30-35 | the i-th tagged chunk is the i-th chunk tagged, so nothing is reordered |
| VectorStore.TaggingKeepsChunks | Services/vectorestore.py:94-99 | every chunk of one call keeps its text and gets the scope ids, the same parent id and the file name as source |
| VectorStore.TagChunks | Services/vectorestore.py:145-150 | the loop leaves the array equal to the tagged chunks of its old contents |
| VectorStore.AppendCollection | Services/vectorestore.py:48 | adding documents appends to the named collection and to no other |
| VectorStore.AppendKeepsWellTagged | Services/vectorestore.py:47-48 | appending chunks tagged for a scope to its own collection keeps every collection tagged for its own scope |
| VectorStore.AppendIsolated | Services/vectorestore.py:47-48 | an append to one decimal scope leaves every other decimal scope's read unchanged |
| VectorStore.GetRetrieverForCompany | Services/vectorestore.py:60-77 | the company retriever, whose name is spelled out separately, searches the collection the company add writes, by MMR with the given k and fetch_k |
| VectorStore.GetTeamRetriever | Services/vectorestore.py:121-135 | the team retriever searches the collection the team add writes, by MMR with the given k and fetch_k |
| VectorStore.GetProjectRetriever | Services/vectorestore.py:167-182 | the project retriever searches the collection the project add writes, by MMR with the given k and fetch_k |
| VectorStore.WriteAndReadPathsAgree | Services/vectorestore.py:38-182 | each kind's retriever searches the collection its add function writes, with MMR and the given k and fetch_k |
| VectorStore.Store.CandidatesTagged | Services/vectorestore.py:123 | every chunk a scope's retriever can see carries that scope's ids |
| VectorStore.Store.AddDocuments | Services/vectorestore.py:93-118 | the add call returns the fresh parent id and appends exactly the tagged split chunks to the scope's collection |
| VectorStore.Store.AddDocumentsToCollection | Services/vectorestore.py:18-57 | the company add appends the chunks tagged with company id, parent id and file name to `company_<id>_chunks` |
| VectorStore.Store.AddDocumentsToTeam | Services/vectorestore.py:84-118 | the team add appends the tagged chunks to `team_<team>_<company>_chunks` |
| VectorStore.Store.AddDocumentsToProject | Services/vectorestore.py:139-164 | the project add appends the tagged chunks to `project_<project>_company_<company>_chunks` |
| CompanyRouter.CurrentUserIndex | Routers/company.py:40-46 | an empty or missing header is "X-Token header missing". Otherwise the result is the first company holding the token, and "Invalid Token" exactly when none holds it |
| CompanyRouter.GetCurrentUser | Routers/company.py:40-46 | a resolved company holds the presented token; each failure carries its 401 message |
| CompanyRouter.ReadMe | Routers/company.py:129-131 | `/me` returns the public view of the token's company, and fails with the same error as `get_current_user` when the token does not resolve |
| CompanyRouter.RegisterCompany | Routers/company.py:72-90 | a used username, company name or email is a 400 with nothing stored; otherwise exactly one new company with no token, empty files and zero counters is appended |
| CompanyRouter.CompanyLogin | Routers/company.py:111-125 | login succeeds exactly when some company matches username, company name and password. It stores the fresh token on that row and returns it. If the token is non-empty and no company held it before, it then resolves to that company |
| CompanyRouter.Logout | Routers/company.py:136-139 | the caller's token becomes None and no token resolves to that company afterwards. The old token is then invalid, provided no other company held it |
| CompanyRouter.UniqueFilenameSplits | Routers/company.py:153 | the stored name is the 32-digit hex, "_", then the original name, and is never empty |
| CompanyRouter.PickSource | Routers/company.py:160-161 | the recorded source is the `source` of some page, "unknown" for a page without one |
| CompanyRouter.UploadTracesChunks | Routers/company.py:165-171 | every stored chunk carries the recorded parent id and the stored file name as source |
| CompanyRouter.UploadPdf | Routers/company.py:149-182 | upload adds the tagged chunks to the company's collection and appends one file entry to the company's list (None read as empty). With no pages it is a 500 with the loader's message and nothing changes |
| CompanyRouter.AttachCompanyFile | Routers/company.py:160-179 | the chunks go to the company's own collection tagged with its id, the parent id and the stored name, and exactly one matching entry is appended to its file list |
| CompanyRouter.ChatEndpoint | Routers/company.py:192-194 | chat searches the caller's own collection (k=5, fetch_k=20), and every chunk it can see carries the caller's company id |
| TeamRouter.FindTeamByName | Routers/team.py:57-60 | the name lookup finds a team of that name in the caller's company, or None exactly when there is none |
| TeamRouter.FindTeamById | Routers/team.py:80-83 | the id lookup finds the team only if it belongs to the caller's company |
| TeamRouter.CheckTeamLogin | Routers/team.py:57-69 | team login is a 404 exactly when the company has no team of that name and a 401 on a wrong password. Otherwise it returns that team, which has the given name and password |
| TeamRouter.TeamLogin | Routers/team.py:49-69 | team login authenticates the company first, then checks the team |
| TeamRouter.TeamRegister | Routers/team.py:20-47 | a name used in the caller's company is a 400. Otherwise one team of the caller's company is appended and the caller's `no_of_teams` goes up by exactly one |
| TeamRouter.AddTeam | Routers/team.py:35-45 | the insert appends the new team and increments exactly the owner's team counter |
| TeamRouter.RegisteredTeamCanLogIn | Routers/team.py:57-69 | a team just registered under a free name logs in with its password |
| TeamRouter.TeamNameStaysFreeElsewhere | Routers/team.py:27-33 | registering a name in one company does not make it taken in another |
| TeamRouter.TeamUpload | Routers/team.py:80-128 | a team outside the caller's company is a 404; no pages is a 500; otherwise the chunks go to that team's collection and one file entry is appended |
| TeamRouter.AttachTeamFile | Routers/team.py:99-128 | the chunks go to the collection of (company id, team id), and exactly one matching entry is appended to the team's file list, earlier entries kept |
| TeamRouter.TeamChat | Routers/team.py:140-153 | chat is a 404 unless the team belongs to the caller; its retriever reads the collection the upload writes, whose chunks carry both ids |
| ProjectRouter.FindProjectByName | Routers/project.py:61-64 | the name lookup finds a project of that name in the caller's company, or None exactly when there is none |
| ProjectRouter.FindProjectById | Routers/project.py:85-88 | the id lookup finds the project only if it belongs to the caller's company |
| ProjectRouter.RegisterProject | Routers/project.py:20-47 | a name used in the caller's company is a 400, and a name used only elsewhere is a 500 from the unique column. Otherwise one project is appended and `no_of_projects` goes up by one |
| ProjectRouter.AddProject | Routers/project.py:35-45 | the insert appends the new project and increments exactly the owner's project counter |
| ProjectRouter.CheckProjectLogin | Routers/project.py:61-73 | project login is a 404 exactly when the company has no project of that name and a 401 on a wrong password. Otherwise it returns that project |
| ProjectRouter.ProjectLogin | Routers/project.py:50-73 | project login authenticates the company first, then checks the project |
| ProjectRouter.RegisteredProjectCanLogIn | Routers/project.py:61-73 | a project just registered under a free name logs in with its password |
| ProjectRouter.UploadProjectPdf | Routers/project.py:85-133 | a project outside the caller's company is a 404; no pages is a 500; otherwise the chunks go to that project's collection and one file entry is appended |
| ProjectRouter.AttachProjectFile | Routers/project.py:104-133 | the chunks go to the collection of (company id, project id), and exactly one matching entry is appended to the project's file list, earlier entries kept |
| ProjectRouter.ProjectChat | Routers/project.py:145-163 | chat is a 404 unless the project belongs to the caller; its retriever reads that project's collection, whose chunks carry both ids |
| ProjectRouter.WithInformation | Routers/project.py:187-191 | the form overwrites exactly the five information columns, and omitted members become an empty list; name, password, files and owner are kept |
| ProjectRouter.ProjectInformationUpdate | Routers/project.py:178-196 | a project outside the caller's company is "Project not found"; otherwise only that project's information changes and the submitted form is echoed |
| ProjectRouter.PythonOrAgrees | Routers/project.py:216-223 | with the defaults "", 0 and [], falling back only on a missing column gives the same value as Python's `x or default`, which also falls back on an empty or zero value |
| ProjectRouter.GenerateProjectPlan | Routers/project.py:207-232 | the plan is a 404 unless the project belongs to the caller. It carries the validated project's id and name, and passes the columns to the generator with empty defaults |
| ProjectRouter.PlanSeesInformation | Routers/project.py:216-223 | the generator is given each submitted information field, or "", 0 or [] where it was omitted |

## Left out

- Text splitting (`RecursiveCharacterTextSplitter`, chunk size 400, overlap 100) is an opaque `split` parameter. The constants are recorded but nothing is proved about chunk boundaries.
- Embeddings, Chroma's storage engine and MMR ranking are not modelled. A retriever is modelled as the collection it reads, so "what it can return" means "the chunks stored under its name".
- The LLM calls are parameters or are cut off at the call:
  - the name extraction is the `extractedName` parameter;
  - the conversational chain and its answer are not modelled; the chat operations return the retriever the chain is built on;
  - the plan generator's output is not modelled; `GenerateProjectPlan` returns its inputs;
  - the 500 raised when these calls fail is not modelled.
- The PDF loader is the `documents` parameter; only its "no pages" error is modelled. Saving the upload to disk (`os.makedirs`, `shutil.copyfileobj`) is not modelled.
- `uuid.uuid4()` values are parameters; the model does not assume they are unique.
- Request parsing (JSON or form data, the 400 "Invalid input" response) and success status codes such as 201 are not modelled. Operations take already-validated records.
- Session, commit and refresh mechanics, concurrency between requests, and the missing atomicity between the vector write and the database write are not modelled. Each operation is one atomic step.
- Passwords are plain strings compared for equality, as in the source; there is no hashing to model.
- SQLite may reuse the key of a deleted last row. Keys here come from a counter that never goes back.
- No endpoint deletes a company. The cascade is modelled only as the `Models.CascadeDelete` lemma.
- The home endpoint `GET /company/` returns a constant message and is not modelled.
- Metadata values are modelled as strings. The loader's other metadata (page numbers) is kept unchanged but not typed.
- `CompanyOut`'s `default_factory=list` applies only when the field is absent from the input. Rows are always built with a file list, so the model copies the column as it is.
- VectorStore.Store.AddDocuments: requires a decimal scope. The source accepts any id strings, but every caller passes `str` of an integer key, and `VectorStore.NonDecimalTeamIdsCollide` shows why isolation needs the restriction.
- VectorStore.Store.AddDocumentsToCollection: requires a digit-only company id, for the same reason.
- VectorStore.Store.AddDocumentsToTeam: requires digit-only company and team ids, for the same reason.
- VectorStore.Store.AddDocumentsToProject: requires digit-only company and project ids, for the same reason.
