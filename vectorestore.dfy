/** The scoped vector store: how a scope (a company, a team in a company, a
    project in a company) names its Chroma collection, how an upload's chunks
    are tagged before they are stored, and the store itself, abstracted as a
    map from collection name to the chunks added under that name, in order.

    Splitting, embedding and MMR search are outside the model: the splitter
    is a parameter, and a retriever is the description of the search (its
    collection, its search type, `k` and `fetch_k`) together with the
    chunks it searches. */
module VectorStore {
  import opened Common

  /** A LangChain `Document`: page text and a metadata dict. */
  datatype Chunk = Chunk(pageContent: string, metadata: map<string, string>)

  /** The three isolation boundaries; nested scopes carry their company. */
  datatype Scope =
    | CompanyScope(companyId: string)
    | TeamScope(companyId: string, teamId: string)
    | ProjectScope(companyId: string, projectId: string)

  /** The parameters of the child splitter (its behaviour is not modelled). */
  const ChunkSize := 400
  const ChunkOverlap := 100

  /** The retriever defaults used by every chat endpoint. */
  const DefaultK := 5
  const DefaultFetchK := 20

  // ------------------------------------------------------------ naming

  /** The company's collection; the id can be read back from between the
      fixed prefix and suffix. */
  function CompanyCollectionName(companyId: string): (r: string)
    ensures |r| == |companyId| + 15 && r[8..|r| - 7] == companyId
  {
    "company_" + companyId + "_chunks"
  }

  /** The team's collection: the team id follows the prefix and the
      company id precedes the suffix. */
  function TeamCollectionName(companyId: string, teamId: string): (r: string)
    ensures |r| == |teamId| + |companyId| + 13
    ensures r[5..5 + |teamId|] == teamId && r[|r| - 7 - |companyId|..|r| - 7] == companyId
  {
    "team_" + teamId + "_" + companyId + "_chunks"
  }

  /** The project's collection: the project id follows the prefix and the
      company id precedes the suffix. */
  function ProjectCollectionName(companyId: string, projectId: string): (r: string)
    ensures |r| == |projectId| + |companyId| + 24
    ensures r[8..8 + |projectId|] == projectId && r[|r| - 7 - |companyId|..|r| - 7] == companyId
  {
    "project_" + projectId + "_company_" + companyId + "_chunks"
  }

  function CollectionName(s: Scope): string
  {
    match s
    case CompanyScope(c) => CompanyCollectionName(c)
    case TeamScope(c, t) => TeamCollectionName(c, t)
    case ProjectScope(c, p) => ProjectCollectionName(c, p)
  }

  /** Every id of the scope is a decimal numeral, as `str(int)` produces. */
  predicate DecimalScope(s: Scope)
  {
    AllDigits(s.companyId) &&
    (s.TeamScope? ==> AllDigits(s.teamId)) &&
    (s.ProjectScope? ==> AllDigits(s.projectId))
  }

  /** Removing a common prefix and suffix leaves equal middles. */
  lemma CancelAffixes(p: string, x: string, y: string, q: string)
    requires p + x + q == p + y + q
    ensures x == y
  {
    assert |x| == |y|;
    assert x == (p + x + q)[|p|..|p| + |x|];
    assert y == (p + y + q)[|p|..|p| + |y|];
  }

  /** Removing a common prefix leaves equal rests. */
  lemma DropPrefix(p: string, x: string, y: string)
    requires p + x == p + y
    ensures x == y
  {
    assert x == (p + x)[|p|..];
    assert y == (p + y)[|p|..];
  }

  /** A digit string followed by something that starts with '_' can be split
      in one way only: the first '_' ends the digits. */
  lemma SplitAtUnderscore(a1: string, r1: string, a2: string, r2: string)
    requires AllDigits(a1) && AllDigits(a2)
    requires |r1| > 0 && |r2| > 0 && r1[0] == '_' && r2[0] == '_'
    requires a1 + r1 == a2 + r2
    ensures a1 == a2 && r1 == r2
  {
    assert a1 == (a1 + r1)[..|a1|];
    assert a2 == (a2 + r2)[..|a2|];
    assert r1 == (a1 + r1)[|a1|..];
    assert r2 == (a2 + r2)[|a2|..];
  }

  /** Company names determine the company id (whatever the id looks like). */
  lemma CompanyNameInjective(c1: string, c2: string)
    ensures CompanyCollectionName(c1) == CompanyCollectionName(c2) <==> c1 == c2
  {
    if CompanyCollectionName(c1) == CompanyCollectionName(c2) {
      CancelAffixes("company_", c1, c2, "_chunks");
    }
  }

  /** The string argument behind `TeamNameInjective`, kept free of the
      naming function. */
  lemma TeamSpellingsAgree(c1: string, t1: string, c2: string, t2: string)
    requires AllDigits(t1) && AllDigits(t2)
    requires "team_" + t1 + "_" + c1 + "_chunks" == "team_" + t2 + "_" + c2 + "_chunks"
    ensures c1 == c2 && t1 == t2
  {
    var r1, r2 := "_" + c1 + "_chunks", "_" + c2 + "_chunks";
    assert "team_" + t1 + "_" + c1 + "_chunks" == "team_" + (t1 + r1);
    assert "team_" + t2 + "_" + c2 + "_chunks" == "team_" + (t2 + r2);
    DropPrefix("team_", t1 + r1, t2 + r2);
    SplitAtUnderscore(t1, r1, t2, r2);
    CancelAffixes("_", c1, c2, "_chunks");
  }

  /** Team names determine the pair (company id, team id) once the team id
      is decimal. */
  lemma TeamNameInjective(c1: string, t1: string, c2: string, t2: string)
    requires AllDigits(t1) && AllDigits(t2)
    ensures TeamCollectionName(c1, t1) == TeamCollectionName(c2, t2) <==> c1 == c2 && t1 == t2
  {
    if TeamCollectionName(c1, t1) == TeamCollectionName(c2, t2) {
      TeamSpellingsAgree(c1, t1, c2, t2);
    }
  }

  /** The string argument behind `ProjectNameInjective`. */
  lemma ProjectSpellingsAgree(c1: string, p1: string, c2: string, p2: string)
    requires AllDigits(p1) && AllDigits(p2)
    requires "project_" + p1 + "_company_" + c1 + "_chunks" == "project_" + p2 + "_company_" + c2 + "_chunks"
    ensures c1 == c2 && p1 == p2
  {
    var r1, r2 := "_company_" + c1 + "_chunks", "_company_" + c2 + "_chunks";
    assert "project_" + p1 + "_company_" + c1 + "_chunks" == "project_" + (p1 + r1);
    assert "project_" + p2 + "_company_" + c2 + "_chunks" == "project_" + (p2 + r2);
    DropPrefix("project_", p1 + r1, p2 + r2);
    SplitAtUnderscore(p1, r1, p2, r2);
    CancelAffixes("_company_", c1, c2, "_chunks");
  }

  /** Project names determine the pair (company id, project id) once the
      project id is decimal. */
  lemma ProjectNameInjective(c1: string, p1: string, c2: string, p2: string)
    requires AllDigits(p1) && AllDigits(p2)
    ensures ProjectCollectionName(c1, p1) == ProjectCollectionName(c2, p2) <==> c1 == c2 && p1 == p2
  {
    if ProjectCollectionName(c1, p1) == ProjectCollectionName(c2, p2) {
      ProjectSpellingsAgree(c1, p1, c2, p2);
    }
  }

  /** The three kinds never share a name: the first letters of the prefixes
      "company_", "team_" and "project_" differ. */
  lemma KindsNeverCollide(s1: Scope, s2: Scope)
    requires s1.CompanyScope? != s2.CompanyScope? || s1.TeamScope? != s2.TeamScope?
    ensures CollectionName(s1) != CollectionName(s2)
  {
    assert CollectionName(s1)[0] == (if s1.CompanyScope? then 'c' else if s1.TeamScope? then 't' else 'p');
    assert CollectionName(s2)[0] == (if s2.CompanyScope? then 'c' else if s2.TeamScope? then 't' else 'p');
  }

  /** The naming is injective on decimal scopes: two scopes share a
      collection exactly when they are the same scope. */
  lemma CollectionNameInjective(s1: Scope, s2: Scope)
    requires DecimalScope(s1) && DecimalScope(s2)
    ensures CollectionName(s1) == CollectionName(s2) <==> s1 == s2
  {
    if s1.CompanyScope? != s2.CompanyScope? || s1.TeamScope? != s2.TeamScope? {
      KindsNeverCollide(s1, s2);
    } else {
      match s1
      case CompanyScope(c1) => CompanyNameInjective(c1, s2.companyId);
      case TeamScope(c1, t1) => TeamNameInjective(c1, t1, s2.companyId, s2.teamId);
      case ProjectScope(c1, p1) => ProjectNameInjective(c1, p1, s2.companyId, s2.projectId);
    }
  }

  /** Without decimal team ids the naming is not injective: these two
      different teams would share one collection. */
  lemma NonDecimalTeamIdsCollide()
    ensures TeamScope("3", "1_2") != TeamScope("2_3", "1")
    ensures CollectionName(TeamScope("3", "1_2")) == CollectionName(TeamScope("2_3", "1"))
  {
  }

  // ------------------------------------------------------------ scopes from database keys

  /** A scope as the routers build it, from integer primary keys. */
  datatype ScopeKey =
    | CompanyKey(company: nat)
    | TeamKey(company: nat, team: nat)
    | ProjectKey(company: nat, project: nat)

  /** `str(...)` applied to each key. */
  function ScopeOf(k: ScopeKey): (s: Scope)
    ensures DecimalScope(s)
  {
    match k
    case CompanyKey(c) => CompanyScope(NatToString(c))
    case TeamKey(c, t) => TeamScope(NatToString(c), NatToString(t))
    case ProjectKey(c, p) => ProjectScope(NatToString(c), NatToString(p))
  }

  /** Distinct database scopes get distinct collections, and the same scope
      always gets the same one: the basis of per-tenant isolation. */
  lemma ScopeKeyIsolation(k1: ScopeKey, k2: ScopeKey)
    ensures CollectionName(ScopeOf(k1)) == CollectionName(ScopeOf(k2)) <==> k1 == k2
  {
    CollectionNameInjective(ScopeOf(k1), ScopeOf(k2));
    match k1
    case CompanyKey(c) =>
      if k2.CompanyKey? { NatToStringInjective(c, k2.company); }
    case TeamKey(c, t) =>
      if k2.TeamKey? { NatToStringInjective(c, k2.company); NatToStringInjective(t, k2.team); }
    case ProjectKey(c, p) =>
      if k2.ProjectKey? { NatToStringInjective(c, k2.company); NatToStringInjective(p, k2.project); }
  }

  // ------------------------------------------------------------ tagging

  /** The keys one add call writes into every chunk's metadata. */
  function ScopeTags(s: Scope, parentId: string): map<string, string>
  {
    match s
    case CompanyScope(c) => map["company_id" := c, "parent_id" := parentId]
    case TeamScope(c, t) => map["company_id" := c, "team_id" := t, "parent_id" := parentId]
    case ProjectScope(c, p) => map["company_id" := c, "project_id" := p, "parent_id" := parentId]
  }

  /** The chunk carries the ids of scope `s`. */
  predicate HasScopeTags(ch: Chunk, s: Scope)
  {
    "company_id" in ch.metadata && ch.metadata["company_id"] == s.companyId &&
    (s.TeamScope? ==> "team_id" in ch.metadata && ch.metadata["team_id"] == s.teamId) &&
    (s.ProjectScope? ==> "project_id" in ch.metadata && ch.metadata["project_id"] == s.projectId)
  }

  /** One iteration of the tagging loop applied to one chunk. */
  function TagChunk(ch: Chunk, s: Scope, parentId: string, fileName: Option<string>): (r: Chunk)
    ensures r.pageContent == ch.pageContent
    ensures HasScopeTags(r, s) && "parent_id" in r.metadata && r.metadata["parent_id"] == parentId
    ensures Truthy(fileName) ==> "source" in r.metadata && r.metadata["source"] == fileName.value
    ensures r.metadata.Keys == ch.metadata.Keys + ScopeTags(s, parentId).Keys + (if Truthy(fileName) then {"source"} else {})
    ensures forall key :: key in ch.metadata && key !in ScopeTags(s, parentId) && (key != "source" || !Truthy(fileName)) ==>
      r.metadata[key] == ch.metadata[key]
  {
    var tagged := ch.metadata + ScopeTags(s, parentId);
    Chunk(ch.pageContent, if Truthy(fileName) then tagged["source" := fileName.value] else tagged)
  }

  /** The whole loop, as a function of the split chunks. */
  function TaggedChunks(cs: seq<Chunk>, s: Scope, parentId: string, fileName: Option<string>): (r: seq<Chunk>)
    ensures |r| == |cs|
  {
    if |cs| == 0 then [] else [TagChunk(cs[0], s, parentId, fileName)] + TaggedChunks(cs[1..], s, parentId, fileName)
  }

  lemma {:induction false} TaggedChunksAt(cs: seq<Chunk>, s: Scope, parentId: string, fileName: Option<string>, i: nat)
    requires i < |cs|
    ensures TaggedChunks(cs, s, parentId, fileName)[i] == TagChunk(cs[i], s, parentId, fileName)
  {
    if i > 0 {
      TaggedChunksAt(cs[1..], s, parentId, fileName, i - 1);
    }
  }

  /** Tagging keeps the number, the order and the text of the chunks, gives
      every chunk the scope's ids and one and the same `parent_id`, and sets
      `source` to the file name exactly when the file name is truthy. */
  lemma TaggingKeepsChunks(cs: seq<Chunk>, s: Scope, parentId: string, fileName: Option<string>)
    ensures var r := TaggedChunks(cs, s, parentId, fileName);
      |r| == |cs| &&
      forall i :: 0 <= i < |r| ==>
        r[i].pageContent == cs[i].pageContent && HasScopeTags(r[i], s) &&
        "parent_id" in r[i].metadata && r[i].metadata["parent_id"] == parentId &&
        (Truthy(fileName) ==> "source" in r[i].metadata && r[i].metadata["source"] == fileName.value) &&
        (!Truthy(fileName) && "source" in cs[i].metadata ==>
           "source" in r[i].metadata && r[i].metadata["source"] == cs[i].metadata["source"])
  {
    var r := TaggedChunks(cs, s, parentId, fileName);
    forall i | 0 <= i < |r|
      ensures r[i] == TagChunk(cs[i], s, parentId, fileName)
    {
      TaggedChunksAt(cs, s, parentId, fileName, i);
    }
  }

  /** The `for d in child_docs` loop: tags each chunk in place. */
  method TagChunks(childDocs: array<Chunk>, s: Scope, parentId: string, fileName: Option<string>)
    modifies childDocs
    ensures childDocs[..] == TaggedChunks(old(childDocs[..]), s, parentId, fileName)
  {
    ghost var original := childDocs[..];
    for i := 0 to childDocs.Length
      invariant forall j :: 0 <= j < i ==> childDocs[j] == TagChunk(original[j], s, parentId, fileName)
      invariant forall j :: i <= j < childDocs.Length ==> childDocs[j] == original[j]
    {
      childDocs[i] := TagChunk(childDocs[i], s, parentId, fileName);
    }
    forall j | 0 <= j < childDocs.Length
      ensures childDocs[..][j] == TaggedChunks(original, s, parentId, fileName)[j]
    {
      TaggedChunksAt(original, s, parentId, fileName, j);
    }
  }

  // ------------------------------------------------------------ the store

  /** What a collection holds; a collection never written to is empty. */
  function ReadCollection(m: map<string, seq<Chunk>>, name: string): seq<Chunk>
  {
    if name in m then m[name] else []
  }

  /** `add_documents` on one collection: appends to that collection and to
      no other. */
  function AppendCollection(m: map<string, seq<Chunk>>, name: string, cs: seq<Chunk>): (m': map<string, seq<Chunk>>)
    ensures ReadCollection(m', name) == ReadCollection(m, name) + cs
    ensures forall other :: other != name ==> ReadCollection(m', other) == ReadCollection(m, other)
  {
    m[name := ReadCollection(m, name) + cs]
  }

  /** Every chunk stored under a decimal scope's collection carries that
      scope's ids. */
  ghost predicate WellTagged(m: map<string, seq<Chunk>>)
  {
    forall s, ch :: DecimalScope(s) && ch in ReadCollection(m, CollectionName(s)) ==> HasScopeTags(ch, s)
  }

  /** Adding chunks tagged for a decimal scope under that scope's name keeps
      every collection's chunks tagged for their own scope. */
  lemma AppendKeepsWellTagged(m: map<string, seq<Chunk>>, s: Scope, cs: seq<Chunk>)
    requires WellTagged(m) && DecimalScope(s)
    requires forall i :: 0 <= i < |cs| ==> HasScopeTags(cs[i], s)
    ensures WellTagged(AppendCollection(m, CollectionName(s), cs))
  {
    var m' := AppendCollection(m, CollectionName(s), cs);
    forall s2, ch | DecimalScope(s2) && ch in ReadCollection(m', CollectionName(s2))
      ensures HasScopeTags(ch, s2)
    {
      CollectionNameInjective(s, s2);
      if s2 != s {
        assert ch in ReadCollection(m, CollectionName(s2));
      } else if ch !in ReadCollection(m, CollectionName(s)) {
        var i :| 0 <= i < |ReadCollection(m', CollectionName(s))| && ReadCollection(m', CollectionName(s))[i] == ch;
        assert ch == cs[i - |ReadCollection(m, CollectionName(s))|];
      }
    }
  }

  /** Isolation: adding to one decimal scope changes what no other decimal
      scope reads. */
  lemma AppendIsolated(m: map<string, seq<Chunk>>, a: Scope, b: Scope, cs: seq<Chunk>)
    requires DecimalScope(a) && DecimalScope(b) && a != b
    ensures ReadCollection(AppendCollection(m, CollectionName(a), cs), CollectionName(b)) == ReadCollection(m, CollectionName(b))
  {
    CollectionNameInjective(a, b);
  }

  /** The MMR retriever over one collection (`as_retriever`). */
  datatype Retriever = Retriever(collectionName: string, searchType: string, k: int, fetchK: int)

  /** The read path spells its collection name out again, as the source
      does; the contract ties it to the name the write path uses. */
  function GetRetrieverForCompany(companyId: string, k: int, fetchK: int): (r: Retriever)
    ensures r.collectionName == CompanyCollectionName(companyId)
    ensures r.searchType == "mmr" && r.k == k && r.fetchK == fetchK
  {
    Retriever("company_" + companyId + "_chunks", "mmr", k, fetchK)
  }

  function GetTeamRetriever(companyId: string, teamId: string, k: int, fetchK: int): (r: Retriever)
    ensures r.collectionName == TeamCollectionName(companyId, teamId)
    ensures r.searchType == "mmr" && r.k == k && r.fetchK == fetchK
  {
    Retriever("team_" + teamId + "_" + companyId + "_chunks", "mmr", k, fetchK)
  }

  function GetProjectRetriever(companyId: string, projectId: string, k: int, fetchK: int): (r: Retriever)
    ensures r.collectionName == ProjectCollectionName(companyId, projectId)
    ensures r.searchType == "mmr" && r.k == k && r.fetchK == fetchK
  {
    Retriever("project_" + projectId + "_company_" + companyId + "_chunks", "mmr", k, fetchK)
  }

  /** The retriever of a scope, as the chat endpoints build it. */
  function RetrieverFor(s: Scope, k: int, fetchK: int): Retriever
  {
    match s
    case CompanyScope(c) => GetRetrieverForCompany(c, k, fetchK)
    case TeamScope(c, t) => GetTeamRetriever(c, t, k, fetchK)
    case ProjectScope(c, p) => GetProjectRetriever(c, p, k, fetchK)
  }

  /** Write path and read path name the same collection, for every kind, and
      the retriever searches with MMR under the given bounds. */
  lemma WriteAndReadPathsAgree(s: Scope, k: int, fetchK: int)
    ensures RetrieverFor(s, k, fetchK) == Retriever(CollectionName(s), "mmr", k, fetchK)
  {
  }

  class Store {
    /** The persisted collections, by name. */
    var collections: map<string, seq<Chunk>>

    ghost predicate Valid()
      reads this
    {
      WellTagged(collections)
    }

    constructor ()
      ensures Valid() && collections == map[]
    {
      collections := map[];
    }

    /** The chunks a retriever searches. */
    function Candidates(r: Retriever): seq<Chunk>
      reads this
    {
      ReadCollection(collections, r.collectionName)
    }

    /** Chunks a scope's retriever can see all carry that scope's ids. */
    lemma CandidatesTagged(s: Scope, k: int, fetchK: int)
      requires Valid() && DecimalScope(s)
      ensures forall ch :: ch in Candidates(RetrieverFor(s, k, fetchK)) ==> HasScopeTags(ch, s)
    {
    }

    /** The common body of the three `add_documents_*` functions: split,
        tag every chunk with one fresh parent id, append to the scope's
        collection, return the parent id. */
    method AddDocuments(s: Scope, documents: seq<Chunk>, split: seq<Chunk> -> seq<Chunk>,
                        fileName: Option<string>, freshParentId: string) returns (parentId: string)
      requires Valid() && DecimalScope(s)
      modifies this
      ensures Valid()
      ensures parentId == freshParentId
      ensures collections == AppendCollection(old(collections), CollectionName(s),
                                               TaggedChunks(split(documents), s, parentId, fileName))
    {
      var pieces := split(documents);
      var childDocs := new Chunk[|pieces|](i requires 0 <= i < |pieces| => pieces[i]);
      assert childDocs[..] == pieces;
      parentId := freshParentId;
      TagChunks(childDocs, s, parentId, fileName);
      TaggingKeepsChunks(pieces, s, parentId, fileName);
      AppendKeepsWellTagged(collections, s, childDocs[..]);
      collections := AppendCollection(collections, CollectionName(s), childDocs[..]);
    }

    method AddDocumentsToCollection(companyId: string, documents: seq<Chunk>, split: seq<Chunk> -> seq<Chunk>,
                                    fileName: Option<string>, freshParentId: string) returns (parentId: string)
      requires Valid() && AllDigits(companyId)
      modifies this
      ensures Valid()
      ensures parentId == freshParentId
      ensures collections == AppendCollection(old(collections), CompanyCollectionName(companyId),
                                               TaggedChunks(split(documents), CompanyScope(companyId), parentId, fileName))
    {
      parentId := AddDocuments(CompanyScope(companyId), documents, split, fileName, freshParentId);
    }

    method AddDocumentsToTeam(companyId: string, teamId: string, documents: seq<Chunk>, split: seq<Chunk> -> seq<Chunk>,
                              fileName: Option<string>, freshParentId: string) returns (parentId: string)
      requires Valid() && AllDigits(companyId) && AllDigits(teamId)
      modifies this
      ensures Valid()
      ensures parentId == freshParentId
      ensures collections == AppendCollection(old(collections), TeamCollectionName(companyId, teamId),
                                               TaggedChunks(split(documents), TeamScope(companyId, teamId), parentId, fileName))
    {
      parentId := AddDocuments(TeamScope(companyId, teamId), documents, split, fileName, freshParentId);
    }

    method AddDocumentsToProject(companyId: string, projectId: string, documents: seq<Chunk>, split: seq<Chunk> -> seq<Chunk>,
                                 fileName: Option<string>, freshParentId: string) returns (parentId: string)
      requires Valid() && AllDigits(companyId) && AllDigits(projectId)
      modifies this
      ensures Valid()
      ensures parentId == freshParentId
      ensures collections == AppendCollection(old(collections), ProjectCollectionName(companyId, projectId),
                                               TaggedChunks(split(documents), ProjectScope(companyId, projectId), parentId, fileName))
    {
      parentId := AddDocuments(ProjectScope(companyId, projectId), documents, split, fileName, freshParentId);
    }
  }
}
