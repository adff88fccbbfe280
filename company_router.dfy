/** The company endpoints: token authentication (the dependency every other
    endpoint goes through), registration, login and logout, PDF upload into
    the company's own collection, and company-scoped chat.

    Fresh values (`uuid4()` tokens, hex prefixes, parent ids), the documents
    the PDF loader returns, the splitter and the name the language model
    extracts are parameters. */
module CompanyRouter {
  import opened Common
  import opened Schemas
  import opened Models
  import opened Database
  import opened VectorStore

  const MissingToken := HttpError(401, "X-Token header missing")
  const InvalidToken := HttpError(401, "Invalid Token")
  const DuplicateCompany := HttpError(400, "User with given username, company name, or email already exists")
  const BadCredentials := HttpError(401, "Incorrect username, company name, or password")

  /** The message of the loader's `ValueError` on a document with no pages. */
  const NoDocumentsLoaded := "No documents were loaded. Check the file path or PDF content."

  const LoggedOut := "Logged out"

  // ------------------------------------------------------------ authentication

  function HoldsToken(token: string): Company -> bool
  {
    (c: Company) => c.sessionToken == Some(token)
  }

  /** `get_current_user`, as the position of the caller's row: a missing or
      empty header is rejected first; otherwise the first company whose
      session token equals the header, or "Invalid Token". */
  function CurrentUserIndex(db: Session, xToken: Option<string>): (r: Result<nat>)
    reads db
    ensures !Truthy(xToken) ==> r == Err(MissingToken)
    ensures Truthy(xToken) && r.Err? ==> r.error == InvalidToken
    ensures Truthy(xToken) ==>
      (r.Ok? <==> exists i :: 0 <= i < |db.companies| && db.companies[i].sessionToken == xToken)
    ensures r.Ok? ==> r.value < |db.companies| && db.companies[r.value].sessionToken == xToken
    ensures r.Ok? ==> forall j :: 0 <= j < r.value ==> db.companies[j].sessionToken != xToken
  {
    if !Truthy(xToken) then Err(MissingToken)
    else match FirstIndex(db.companies, HoldsToken(xToken.value))
      case None => Err(InvalidToken)
      case Some(i) => Ok(i)
  }

  /** `get_current_user`: the company that holds the token. */
  function GetCurrentUser(db: Session, xToken: Option<string>): (r: Result<Company>)
    reads db
    ensures r.Ok? ==> Truthy(xToken) && r.value in db.companies && r.value.sessionToken == xToken
    ensures r.Err? ==> r.error == if Truthy(xToken) then InvalidToken else MissingToken
  {
    match CurrentUserIndex(db, xToken)
    case Ok(i) => Ok(db.companies[i])
    case Err(e) => Err(e)
  }

  /** `GET /company/me`. */
  function ReadMe(db: Session, xToken: Option<string>): (r: Result<CompanyOut>)
    reads db
    ensures GetCurrentUser(db, xToken).Ok? <==> r.Ok?
    ensures r.Ok? ==> r.value == ToCompanyOut(GetCurrentUser(db, xToken).value)
    ensures r.Err? ==> r.error == GetCurrentUser(db, xToken).error
  {
    match GetCurrentUser(db, xToken)
    case Ok(c) => Ok(ToCompanyOut(c))
    case Err(e) => Err(e)
  }

  // ------------------------------------------------------------ registration

  /** Some existing company already uses the username, the company name or
      the email. */
  predicate CompanyConflict(cs: seq<Company>, user: CompanyCreate)
  {
    exists i :: 0 <= i < |cs| &&
      (cs[i].username == user.username || cs[i].companyName == user.companyName || cs[i].companyEmail == user.companyEmail)
  }

  /** `POST /company/register` on an already validated body. */
  method RegisterCompany(db: Session, user: CompanyCreate) returns (r: Result<CompanyOut>)
    requires db.Valid()
    modifies db
    ensures db.Valid()
    ensures db.nextCompanyId == old(db.nextCompanyId) + (if r.Ok? then 1 else 0) &&
            db.nextTeamId == old(db.nextTeamId) &&
            db.nextProjectId == old(db.nextProjectId)
    ensures db.teams == old(db.teams) && db.projects == old(db.projects)
    ensures CompanyConflict(old(db.companies), user) ==>
      r == Err(DuplicateCompany) && db.companies == old(db.companies)
    ensures !CompanyConflict(old(db.companies), user) ==>
      var c := NewCompany(old(db.nextCompanyId), user);
      db.companies == old(db.companies) + [c] && r == Ok(ToCompanyOut(c))
  {
    if CompanyConflict(db.companies, user) {
      return Err(DuplicateCompany);
    }
    var c := NewCompany(db.nextCompanyId, user);
    CompanyAdded(db.companies, db.teams, db.projects, c);
    db.companies := db.companies + [c];
    db.nextCompanyId := db.nextCompanyId + 1;
    r := Ok(ToCompanyOut(c));
  }

  // ------------------------------------------------------------ login and logout

  function MatchesLogin(form: LoginRequest): Company -> bool
  {
    (c: Company) => c.username == form.username && c.companyName == form.companyName
  }

  /** The row the login query finds: the first with that username and
      company name. */
  function LoginIndex(cs: seq<Company>, form: LoginRequest): Option<nat>
  {
    FirstIndex(cs, MatchesLogin(form))
  }

  /** `POST /company/login`: on a matching username, company name and
      password, store the fresh token as the company's session token. */
  method CompanyLogin(db: Session, form: LoginRequest, freshToken: string) returns (r: Result<TokenResponse>)
    requires db.Valid()
    modifies db
    ensures db.Valid()
    ensures db.nextCompanyId == old(db.nextCompanyId) &&
            db.nextTeamId == old(db.nextTeamId) &&
            db.nextProjectId == old(db.nextProjectId)
    ensures db.teams == old(db.teams) && db.projects == old(db.projects)
    ensures r.Ok? <==>
      exists i :: 0 <= i < |old(db.companies)| &&
        old(db.companies)[i].username == form.username && old(db.companies)[i].companyName == form.companyName &&
        old(db.companies)[i].password == form.password
    ensures r.Err? ==> r.error == BadCredentials && db.companies == old(db.companies)
    ensures r.Ok? ==>
      LoginIndex(old(db.companies), form).Some? &&
      var i := LoginIndex(old(db.companies), form).value;
      r.value == TokenResponse(freshToken, SimpleTokenType) &&
      db.companies == old(db.companies)[i := old(db.companies)[i].(sessionToken := Some(freshToken))]
    ensures (r.Ok? && freshToken != "" &&
             forall j :: 0 <= j < |old(db.companies)| ==> old(db.companies)[j].sessionToken != Some(freshToken)) ==>
      GetCurrentUser(db, Some(freshToken)) == Ok(db.companies[LoginIndex(old(db.companies), form).value])
  {
    var cs := db.companies;
    var found := LoginIndex(db.companies, form);
    if found.None? || db.companies[found.value].password != form.password {
      if found.Some? {
        forall j | 0 <= j < |cs| && cs[j].username == form.username
          ensures j == found.value
        {
        }
      }
      return Err(BadCredentials);
    }
    var i := found.value;
    var c := cs[i].(sessionToken := Some(freshToken));
    CompanyRowsUpdated(cs, cs[i := c], db.teams, db.projects);
    db.companies := cs[i := c];
    r := Ok(TokenResponse(freshToken, SimpleTokenType));
    if freshToken != "" && forall j :: 0 <= j < |cs| ==> cs[j].sessionToken != Some(freshToken) {
      FirstIndexOfUnique(db.companies, HoldsToken(freshToken), i);
    }
  }

  /** `POST /company/logout`: the caller's session token becomes None. */
  method Logout(db: Session, xToken: Option<string>) returns (r: Result<string>)
    requires db.Valid()
    modifies db
    ensures db.Valid()
    ensures db.nextCompanyId == old(db.nextCompanyId) &&
            db.nextTeamId == old(db.nextTeamId) &&
            db.nextProjectId == old(db.nextProjectId)
    ensures db.teams == old(db.teams) && db.projects == old(db.projects)
    ensures old(CurrentUserIndex(db, xToken)).Err? ==>
      r == Err(old(CurrentUserIndex(db, xToken)).error) && db.companies == old(db.companies)
    ensures old(CurrentUserIndex(db, xToken)).Ok? ==>
      var i := old(CurrentUserIndex(db, xToken)).value;
      r == Ok(LoggedOut) &&
      db.companies == old(db.companies)[i := old(db.companies)[i].(sessionToken := None)] &&
      (forall t :: GetCurrentUser(db, Some(t)).Ok? ==> GetCurrentUser(db, Some(t)).value.id != old(db.companies)[i].id) &&
      ((forall j :: 0 <= j < |old(db.companies)| && j != i ==> old(db.companies)[j].sessionToken != xToken) ==>
         GetCurrentUser(db, xToken) == Err(InvalidToken))
  {
    var current := CurrentUserIndex(db, xToken);
    if current.Err? {
      return Err(current.error);
    }
    var cs := db.companies;
    var i := current.value;
    var c := cs[i].(sessionToken := None);
    CompanyRowsUpdated(cs, cs[i := c], db.teams, db.projects);
    db.companies := cs[i := c];
    r := Ok(LoggedOut);
    forall t | GetCurrentUser(db, Some(t)).Ok?
      ensures GetCurrentUser(db, Some(t)).value.id != cs[i].id
    {
      var j := CurrentUserIndex(db, Some(t)).value;
      assert j != i;
    }
  }

  // ------------------------------------------------------------ upload

  /** The loader's `source` of each page, "unknown" where it has none. */
  function DocumentSources(documents: seq<Chunk>): set<string>
  {
    set d | d in documents :: if "source" in d.metadata then d.metadata["source"] else "unknown"
  }

  /** The stored file name: a fresh hex string, "_", the original name. */
  function UniqueFilename(hex: string, filename: string): string
  {
    hex + "_" + filename
  }

  /** `uuid.uuid4().hex`: 32 lower-case hexadecimal digits. */
  predicate IsUuidHex(hex: string)
  {
    |hex| == 32 && forall i :: 0 <= i < |hex| ==> hex[i] in "0123456789abcdef"
  }

  /** The stored name is never empty (so it always overwrites `source`), and
      splits back into the hex prefix and the original name. */
  lemma UniqueFilenameSplits(hex: string, filename: string)
    requires IsUuidHex(hex)
    ensures Truthy(Some(UniqueFilename(hex, filename)))
    ensures var stored := UniqueFilename(hex, filename);
      stored[..32] == hex && stored[32] == '_' && stored[33..] == filename
  {
    var stored := UniqueFilename(hex, filename);
    assert stored[33..] == filename;
  }

  /** The file entry an upload records. */
  predicate IsUploadEntry(info: FileInfo, pdfName: string, documents: seq<Chunk>, storedName: string, parentId: string)
  {
    info.pdfName == pdfName && info.source in DocumentSources(documents) &&
    info.filename == storedName && info.parentId == parentId
  }

  /** `list({...})[0]` on a non-empty set: some element, in no particular order. */
  method PickSource(documents: seq<Chunk>) returns (source: string)
    requires documents != []
    ensures source in DocumentSources(documents)
  {
    var d := documents[0];
    assert (if "source" in d.metadata then d.metadata["source"] else "unknown") in DocumentSources(documents);
    source :| source in DocumentSources(documents);
  }

  function WithCompanyFile(c: Company, info: FileInfo): Company
  {
    c.(companyFilesName := Some(OrEmpty(c.companyFilesName) + [info]))
  }

  /** Every chunk an upload stores is tagged for its scope, carries the
      parent id of the recorded entry and names the stored file as its
      source: the file entry and the chunks trace to each other. */
  lemma UploadTracesChunks(chunks: seq<Chunk>, s: Scope, hex: string, filename: string, parentId: string)
    requires IsUuidHex(hex)
    ensures var stored := UniqueFilename(hex, filename);
      var r := TaggedChunks(chunks, s, parentId, Some(stored));
      forall i :: 0 <= i < |r| ==>
        HasScopeTags(r[i], s) &&
        "parent_id" in r[i].metadata && r[i].metadata["parent_id"] == parentId &&
        "source" in r[i].metadata && r[i].metadata["source"] == stored
  {
    UniqueFilenameSplits(hex, filename);
    TaggingKeepsChunks(chunks, s, parentId, Some(UniqueFilename(hex, filename)));
  }

  /** `POST /company/upload_pdf`. */
  method UploadPdf(db: Session, store: Store, xToken: Option<string>, fileName: string,
                   documents: seq<Chunk>, split: seq<Chunk> -> seq<Chunk>,
                   extractedName: string, freshHex: string, freshParentId: string) returns (r: Result<CompanyOut>)
    requires db.Valid() && store.Valid()
    modifies db, store
    ensures db.Valid() && store.Valid()
    ensures db.nextCompanyId == old(db.nextCompanyId) &&
            db.nextTeamId == old(db.nextTeamId) &&
            db.nextProjectId == old(db.nextProjectId)
    ensures db.teams == old(db.teams) && db.projects == old(db.projects)
    ensures old(CurrentUserIndex(db, xToken)).Err? ==>
      r == Err(old(CurrentUserIndex(db, xToken)).error) &&
      db.companies == old(db.companies) && store.collections == old(store.collections)
    ensures old(CurrentUserIndex(db, xToken)).Ok? && documents == [] ==>
      r == Err(HttpError(500, NoDocumentsLoaded)) &&
      db.companies == old(db.companies) && store.collections == old(store.collections)
    ensures old(CurrentUserIndex(db, xToken)).Ok? && documents != [] ==>
      var i := old(CurrentUserIndex(db, xToken)).value;
      var c := old(db.companies)[i];
      var stored := UniqueFilename(freshHex, fileName);
      var scope := ScopeOf(CompanyKey(c.id));
      store.collections == AppendCollection(old(store.collections), CollectionName(scope),
                                            TaggedChunks(split(documents), scope, freshParentId, Some(stored))) &&
      exists info :: IsUploadEntry(info, extractedName, documents, stored, freshParentId) &&
        db.companies == old(db.companies)[i := WithCompanyFile(c, info)] &&
        r == Ok(ToCompanyOut(WithCompanyFile(c, info)))
  {
    var current := CurrentUserIndex(db, xToken);
    if current.Err? {
      return Err(current.error);
    }
    if documents == [] {
      return Err(HttpError(500, NoDocumentsLoaded));
    }
    r := AttachCompanyFile(db, store, current.value, fileName, documents, split, extractedName, freshHex, freshParentId);
  }

  /** The rest of `upload_pdf` once the document has pages: store the
      tagged chunks, then append one file entry. */
  method AttachCompanyFile(db: Session, store: Store, i: nat, fileName: string,
                           documents: seq<Chunk>, split: seq<Chunk> -> seq<Chunk>,
                           extractedName: string, freshHex: string, freshParentId: string) returns (r: Result<CompanyOut>)
    requires db.Valid() && store.Valid() && i < |db.companies| && documents != []
    modifies db, store
    ensures db.Valid() && store.Valid()
    ensures db.nextCompanyId == old(db.nextCompanyId) &&
            db.nextTeamId == old(db.nextTeamId) &&
            db.nextProjectId == old(db.nextProjectId)
    ensures db.teams == old(db.teams) && db.projects == old(db.projects)
    ensures var c := old(db.companies)[i];
      var stored := UniqueFilename(freshHex, fileName);
      var scope := ScopeOf(CompanyKey(c.id));
      store.collections == AppendCollection(old(store.collections), CollectionName(scope),
                                            TaggedChunks(split(documents), scope, freshParentId, Some(stored))) &&
      exists info :: IsUploadEntry(info, extractedName, documents, stored, freshParentId) &&
        db.companies == old(db.companies)[i := WithCompanyFile(c, info)] &&
        r == Ok(ToCompanyOut(WithCompanyFile(c, info)))
  {
    var c := db.companies[i];
    var uniqueFilename := UniqueFilename(freshHex, fileName);
    var source := PickSource(documents);
    var parentId := store.AddDocumentsToCollection(NatToString(c.id), documents, split, Some(uniqueFilename), freshParentId);
    var info := FileInfo(extractedName, source, uniqueFilename, parentId);
    assert IsUploadEntry(info, extractedName, documents, uniqueFilename, freshParentId);
    var c' := WithCompanyFile(c, info);
    CompanyRowsUpdated(db.companies, db.companies[i := c'], db.teams, db.projects);
    db.companies := db.companies[i := c'];
    r := Ok(ToCompanyOut(c'));
  }

  // ------------------------------------------------------------ chat

  /** `POST /company/chat`: the retriever the answer chain is built on. It
      searches the caller's own collection, so every chunk it can return
      carries the caller's company id. */
  method ChatEndpoint(db: Session, store: Store, xToken: Option<string>, chat: ChatRequest) returns (r: Result<Retriever>)
    requires store.Valid()
    ensures CurrentUserIndex(db, xToken).Err? ==> r == Err(CurrentUserIndex(db, xToken).error)
    ensures CurrentUserIndex(db, xToken).Ok? ==>
      var c := db.companies[CurrentUserIndex(db, xToken).value];
      r == Ok(GetRetrieverForCompany(NatToString(c.id), DefaultK, DefaultFetchK)) &&
      forall ch :: ch in store.Candidates(r.value) ==> HasScopeTags(ch, CompanyScope(NatToString(c.id)))
  {
    var current := CurrentUserIndex(db, xToken);
    if current.Err? {
      return Err(current.error);
    }
    var companyId := NatToString(db.companies[current.value].id);
    r := Ok(GetRetrieverForCompany(companyId, DefaultK, DefaultFetchK));
    store.CandidatesTagged(CompanyScope(companyId), DefaultK, DefaultFetchK);
  }
}
