/** The retrieval service `RAGSystem` (src/rag/retriever.py): a two-field
    state machine over the vector store and the retriever built on it.
    Chroma, the embedding model and the filesystem are collaborators: a store
    is an opaque handle recording how it was obtained, and what the outside
    world answers (does the persisted directory exist, does opening or
    building the store raise, what does a similarity search return) is
    passed in as a `Backend`. */
module Rag {
  import opened Wrappers
  import opened Text
  import opened DocumentLoader

  /** `settings.vector_store_path`. */
  const VectorStorePath: string := "data/vector_store"
  /** The `k` every retriever is configured with. */
  const TopK: nat := 5
  const NoPdfMessage: string := "没有可用的 PDF 文件"
  const InitFailurePrefix: string := "初始化失败: "
  const UnknownCompany: string := "Unknown"

  /** A Chroma collection: built in memory from chunks (and persisted under
      `path`), or reopened from what is persisted under `path`. Whether a
      build replaces or extends an earlier collection is Chroma's business
      and is not modelled. */
  datatype VectorStore = Built(chunks: seq<Doc>, path: string) | Reopened(path: string)

  /** `vectorstore.as_retriever(search_kwargs={"k": k})`. */
  datatype SearchHandle = SearchHandle(store: VectorStore, k: nat)

  /** What the world outside the service answers during one call. */
  datatype Backend = Backend(
    persisted: bool,                      // os.path.exists(vector_store_path)
    reopenError: Option<string>,          // Chroma(...) raising while reopening
    search: (SearchHandle, string) -> Result<seq<Doc>, string>)  // retriever.invoke(query)

  /** The service's fields, as a value. */
  datatype RagState = RagState(vectorstore: Option<VectorStore>, retriever: Option<SearchHandle>)

  /** The label of a retrieved chunk: its company metadata, or "Unknown". */
  function CompanyLabel(d: Doc): string {
    if CompanyKey in d.metadata then d.metadata[CompanyKey] else UnknownCompany
  }

  /** The block the formatting loop emits for the `n`-th retrieved chunk. */
  function Block(n: nat, d: Doc): string {
    "\n=== 文档 " + NatToString(n) + " [" + CompanyLabel(d) + "] ===\n" + d.pageContent + "\n"
  }

  /** The blocks of `docs`, numbered from `first` on, in the order returned. */
  function Blocks(docs: seq<Doc>, first: nat): (blocks: seq<string>)
    ensures |blocks| == |docs|
  {
    seq(|docs|, i requires 0 <= i < |docs| => Block(first + i, docs[i]))
  }

  /** The context string built from `docs`, numbered from `first` on. */
  function Context(docs: seq<Doc>, first: nat): string {
    Flatten(Blocks(docs, first))
  }

  /** Numbering is positional: the context of `a + b` is that of `a`
      followed by that of `b`, whose numbers continue after `a`'s. */
  lemma ContextAppend(a: seq<Doc>, b: seq<Doc>, first: nat)
    ensures Context(a + b, first) == Context(a, first) + Context(b, first + |a|)
  {
    assert Blocks(a + b, first) == Blocks(a, first) + Blocks(b, first + |a|);
    FlattenAppend(Blocks(a, first), Blocks(b, first + |a|));
  }

  /** Exactly one block per chunk: the context is the blocks before position
      `i`, then chunk `i`'s block numbered `first + i`, then the blocks after. */
  lemma BlockAt(docs: seq<Doc>, i: nat, first: nat)
    requires i < |docs|
    ensures Context(docs, first) ==
      Context(docs[..i], first) + Block(first + i, docs[i]) + Context(docs[i + 1..], first + i + 1)
  {
    var pre, mid, post := docs[..i], [docs[i]], docs[i + 1..];
    assert docs == pre + (mid + post);
    ContextAppend(pre, mid + post, first);
    ContextAppend(mid, post, first + i);
    ContextSingle(docs[i], first + i);
  }

  lemma ContextSingle(d: Doc, n: nat)
    ensures Context([d], n) == Block(n, d)
  {
    assert Blocks([d], n) == [Block(n, d)];
    FlattenSingle(Block(n, d));
  }

  /** The context is empty exactly when nothing was retrieved. */
  lemma ContextEmptyIff(docs: seq<Doc>, first: nat)
    ensures Context(docs, first) == "" <==> docs == []
  {
  }

  /** The formatting loop of `retrieve`: number the chunks from 1 and
      concatenate their blocks. */
  method FormatContext(docs: seq<Doc>) returns (context: string)
    ensures context == Context(docs, 1)
  {
    context := "";
    for i := 0 to |docs|
      invariant context == Context(docs[..i], 1)
    {
      ContextAppend(docs[..i], [docs[i]], 1);
      assert docs[..i + 1] == docs[..i] + [docs[i]];
      ContextSingle(docs[i], 1 + i);
      context := context + Block(i + 1, docs[i]);
    }
    assert docs[..|docs|] == docs;
  }

  /** The answer once a retriever exists: the formatted chunks, or "" when the
      search raises or finds nothing. */
  function Answer(h: SearchHandle, query: string, backend: Backend): (context: string)
    ensures context == "" <==> backend.search(h, query).Failure? || backend.search(h, query).value == []
    ensures backend.search(h, query).Success? ==> context == Context(backend.search(h, query).value, 1)
  {
    match backend.search(h, query)
    case Failure(_) => ""
    case Success(docs) =>
      ContextEmptyIff(docs, 1);
      if docs == [] then "" else Context(docs, 1)
  }

  /** One call of `retrieve`: the new fields and the returned context. */
  function RetrieveStep(s: RagState, query: string, backend: Backend): (r: (RagState, string))
    // a retriever in place is used as it is: no reload
    ensures s.retriever.Some? ==> r.0 == s
    // nothing in memory and nothing persisted: "" and the fields stay unset
    ensures s.retriever.None? && !backend.persisted ==> r == (s, "")
    // a failed reopen is swallowed: "" and nothing changes
    ensures s.retriever.None? && backend.reopenError.Some? ==> r == (s, "")
    // a successful reload installs the reopened store with k = 5
    ensures s.retriever.None? && backend.persisted && backend.reopenError.None? ==>
      r.0 == RagState(Some(Reopened(VectorStorePath)), Some(SearchHandle(Reopened(VectorStorePath), TopK)))
    // a non-empty answer comes from a search on the retriever now in place
    ensures r.1 != "" ==>
      r.0.retriever.Some? && r.1 == Answer(r.0.retriever.value, query, backend)
    ensures r.0.retriever.Some? ==> r.1 == Answer(r.0.retriever.value, query, backend)
  {
    match s.retriever
    case Some(h) => (s, Answer(h, query, backend))
    case None =>
      if !backend.persisted || backend.reopenError.Some? then (s, "")
      else
        var store := Reopened(VectorStorePath);
        var h := SearchHandle(store, TopK);
        (RagState(Some(store), Some(h)), Answer(h, query, backend))
  }

  /** One call of `initialize`, given what the loader returned and whether
      building the store raises. */
  function InitializeStep(s: RagState, docs: seq<Doc>, buildError: Option<string>): (r: (RagState, string))
    // no documents: the fixed message, and an existing retriever survives
    ensures docs == [] ==> r == (s, NoPdfMessage)
    // a failed build is swallowed into a message and changes nothing
    ensures docs != [] && buildError.Some? ==> r == (s, InitFailurePrefix + buildError.value)
    // a successful build sets both fields, k = 5, and reports the chunk count
    ensures docs != [] && buildError.None? ==>
      && r.0.vectorstore == Some(Built(docs, VectorStorePath))
      && r.0.retriever == Some(SearchHandle(Built(docs, VectorStorePath), TopK))
      && Contains(r.1, NatToString(|docs|))
  {
    if docs == [] then (s, NoPdfMessage)
    else match buildError
      case Some(e) => (s, InitFailurePrefix + e)
      case None =>
        var store := Built(docs, VectorStorePath);
        var count := NatToString(|docs|);
        ContainsInfix("已加载 ", count, " 个文档块");
        (RagState(Some(store), Some(SearchHandle(store, TopK))), "已加载 " + count + " 个文档块")
  }

  /** A query together with what the backend answers while serving it. */
  datatype Query = Query(text: string, backend: Backend)

  /** Serving a series of queries in order: the final fields and the answers. */
  function RunQueries(s: RagState, qs: seq<Query>): (RagState, seq<string>)
    decreases |qs|
  {
    if qs == [] then (s, [])
    else
      var (s1, a) := RetrieveStep(s, qs[0].text, qs[0].backend);
      var (s2, rest) := RunQueries(s1, qs[1..]);
      (s2, [a] + rest)
  }

  /** Once a retriever is set, no later query reloads or changes anything. */
  lemma {:induction false} LoadedStateIsStable(s: RagState, qs: seq<Query>)
    requires s.retriever.Some?
    ensures RunQueries(s, qs).0 == s
    ensures |RunQueries(s, qs).1| == |qs|
    decreases |qs|
  {
    if qs != [] {
      LoadedStateIsStable(s, qs[1..]);
    }
  }

  /** The reload happens at most once: whatever the first query installs is
      the state every later query leaves behind. */
  lemma ReloadAtMostOnce(s: RagState, q: Query, qs: seq<Query>)
    requires RetrieveStep(s, q.text, q.backend).0.retriever.Some?
    ensures RunQueries(s, [q] + qs).0 == RetrieveStep(s, q.text, q.backend).0
  {
    assert ([q] + qs)[1..] == qs;
    LoadedStateIsStable(RetrieveStep(s, q.text, q.backend).0, qs);
  }

  /** After a successful build, queries search the freshly built store and
      never consult the persisted directory. */
  lemma QueryAfterBuild(s: RagState, docs: seq<Doc>, query: string, backend: Backend)
    requires docs != []
    ensures RetrieveStep(InitializeStep(s, docs, None).0, query, backend) ==
      (InitializeStep(s, docs, None).0,
       Answer(SearchHandle(Built(docs, VectorStorePath), TopK), query, backend))
  {
  }

  /** The retrieval service with its two fields. */
  class RAGSystem {
    var vectorstore: Option<VectorStore>
    var retriever: Option<SearchHandle>
    /** How many times `retrieve` has been called. */
    ghost var retrievals: nat

    function State(): RagState
      reads this
    {
      RagState(vectorstore, retriever)
    }

    /** A new service has neither a store nor a retriever. */
    constructor ()
      ensures State() == RagState(None, None) && retrievals == 0
    {
      vectorstore := None;
      retriever := None;
      retrievals := 0;
    }

    /** `initialize`: load and split the reports, build the store when there
        is something to index, and report what happened. */
    method Initialize(dir: PdfDirectory, split: seq<Doc> -> seq<Doc>, buildError: Option<string>)
      returns (message: string)
      modifies this
      ensures (State(), message) == InitializeStep(old(State()), LoadedDocuments(dir, split), buildError)
      ensures retrievals == old(retrievals)
    {
      var documents := LoadAllPdfs(dir, split);
      if |documents| > 0 {
        match buildError {
          case Some(e) =>
            message := InitFailurePrefix + e;
          case None =>
            var store := Built(documents, VectorStorePath);
            vectorstore := Some(store);
            retriever := Some(SearchHandle(store, TopK));
            message := "已加载 " + NatToString(|documents|) + " 个文档块";
        }
      } else {
        message := NoPdfMessage;
      }
    }

    /** `retrieve`: reload from the persisted directory if no retriever is
        set, search, and format the chunks; every failure gives "". */
    method Retrieve(query: string, backend: Backend) returns (context: string)
      modifies this
      ensures (State(), context) == RetrieveStep(old(State()), query, backend)
      ensures retrievals == old(retrievals) + 1
    {
      retrievals := retrievals + 1;
      if retriever.None? {
        if !backend.persisted {
          return "";
        }
        if backend.reopenError.Some? {
          return "";
        }
        var store := Reopened(VectorStorePath);
        vectorstore := Some(store);
        retriever := Some(SearchHandle(store, TopK));
      }
      var found := backend.search(retriever.value, query);
      match found {
        case Failure(_) =>
          context := "";
        case Success(docs) =>
          if docs == [] {
            context := "";
          } else {
            context := FormatContext(docs);
          }
      }
    }
  }
}
