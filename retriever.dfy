/** The FAISS-backed retriever (retriever.py). Loading, splitting, embedding and similarity
    search are library code: the splitter is a function from documents to chunks, and the
    similarity oracle a function from the index and a query to the index's chunks ranked
    best first, of which `similarity_search(query, k)` keeps the first `k`. */
module Retriever {
  import opened Base

  /** Below this many loaded documents `initialize` only logs a warning. */
  const MinDocuments: nat := 10

  datatype RetrieveError = NotInitialized | InvalidQuery | SearchFailed

  /** `initialize` either raises FileNotFoundError or finishes, having warned or not about
      a small corpus. */
  datatype LoadOutcome = DirectoryMissing | Loaded(fewDocuments: bool)

  /** `initialized` and `vectorstore` (None, or the indexed chunks). */
  datatype RetrieverState = RetrieverState(initialized: bool, vectorstore: Option<seq<Document>>)

  ghost predicate Consistent(s: RetrieverState)
  {
    s.initialized ==> s.vectorstore.Some?
  }

  /** One step of the title loop: a chunk with empty metadata gets `{"title": f"doc_{i}"}`. */
  function WithDefaultTitle(d: Document, i: nat): Document
  {
    if d.metadata == map[] then d.(metadata := map["title" := DefaultTitle(i)]) else d
  }

  /** The chunks after the whole title loop. */
  function DefaultTitled(chunks: seq<Document>): seq<Document>
  {
    seq(|chunks|, i requires 0 <= i < |chunks| => WithDefaultTitle(chunks[i], i))
  }

  /** After the loop no chunk has empty metadata; a chunk that had metadata is untouched
      (even if it has no title), and one that had none is titled by its chunk index. */
  lemma DefaultTitledChunks(chunks: seq<Document>, i: nat)
    requires i < |chunks|
    ensures |DefaultTitled(chunks)| == |chunks|
    ensures DefaultTitled(chunks)[i].pageContent == chunks[i].pageContent
    ensures DefaultTitled(chunks)[i].metadata != map[]
    ensures chunks[i].metadata != map[] ==> DefaultTitled(chunks)[i] == chunks[i]
    ensures chunks[i].metadata == map[] ==> DefaultTitled(chunks)[i].metadata == map["title" := DefaultTitle(i)]
  {
    if chunks[i].metadata == map[] {
      assert "title" in DefaultTitled(chunks)[i].metadata;
    }
  }

  /** Two chunks that both received a synthetic title received different ones. */
  lemma DefaultTitlesDistinct(chunks: seq<Document>, i: nat, j: nat)
    requires i < j < |chunks|
    requires chunks[i].metadata == map[] && chunks[j].metadata == map[]
    ensures TitleOr(DefaultTitled(chunks)[i], "") != TitleOr(DefaultTitled(chunks)[j], "")
  {
    if DefaultTitle(i) == DefaultTitle(j) {
      DefaultTitleInjective(i, j);
    }
  }

  /** What `retrieve(query, top_k)` returns or raises. The initialization check comes
      before query validation. */
  function Search(s: RetrieverState, query: string, topK: nat,
                  similar: (seq<Document>, string) -> seq<Document>, fault: bool)
    : Result<seq<Document>, RetrieveError>
  {
    if !s.initialized then Err(NotInitialized)
    else if query == "" then Err(InvalidQuery)
    else match s.vectorstore
      case None => Err(SearchFailed)
      case Some(index) =>
        if fault then Err(SearchFailed)
        else
          var ranked := similar(index, query);
          Ok(ranked[..if topK < |ranked| then topK else |ranked|])
  }

  /** A successful search returns at most `top_k` chunks: the best-ranked ones, in rank
      order, all of them when the oracle ranks fewer. */
  lemma SearchReturnsTopK(s: RetrieverState, query: string, topK: nat,
                          similar: (seq<Document>, string) -> seq<Document>, fault: bool)
    requires Search(s, query, topK, similar, fault).Ok?
    ensures s.initialized && query != "" && !fault && s.vectorstore.Some?
    ensures var docs := Search(s, query, topK, similar, fault).value;
            var ranked := similar(s.vectorstore.value, query);
            |docs| <= topK && docs == ranked[..|docs|] && (|docs| < topK ==> docs == ranked)
  {
  }

  /** Before `initialize` (or after `cleanup`) every call raises the not-initialized error,
      whatever the query, even an empty one. */
  lemma SearchNeedsInitialization(s: RetrieverState, query: string, topK: nat,
                                  similar: (seq<Document>, string) -> seq<Document>, fault: bool)
    requires !s.initialized
    ensures Search(s, query, topK, similar, fault) == Err(NotInitialized)
  {
  }

  /** Once initialized, an empty query is rejected before the index is consulted. */
  lemma SearchRejectsEmptyQuery(s: RetrieverState, topK: nat,
                                similar: (seq<Document>, string) -> seq<Document>, fault: bool)
    requires s.initialized
    ensures Search(s, "", topK, similar, fault) == Err(InvalidQuery)
  {
  }

  /** The title loop, run in place over the split chunks. */
  method AssignDefaultTitles(texts: array<Document>)
    modifies texts
    ensures texts[..] == DefaultTitled(old(texts[..]))
  {
    for i := 0 to texts.Length
      invariant forall k :: 0 <= k < i ==> texts[k] == WithDefaultTitle(old(texts[k]), k)
      invariant forall k :: i <= k < texts.Length ==> texts[k] == old(texts[k])
    {
      if texts[i].metadata == map[] {
        texts[i] := texts[i].(metadata := map["title" := DefaultTitle(i)]);
      }
    }
  }

  class VectorRetriever {
    const dataDir: string
    var initialized: bool
    var vectorstore: Option<seq<Document>>
    var embeddings: bool

    ghost predicate Valid()
      reads this
    {
      Consistent(State()) && (initialized ==> embeddings)
    }

    function State(): RetrieverState
      reads this
    {
      RetrieverState(initialized, vectorstore)
    }

    constructor (dataDir: string)
      ensures Valid() && this.dataDir == dataDir
      ensures State() == RetrieverState(false, None) && !embeddings
    {
      this.dataDir := dataDir;
      initialized := false;
      vectorstore := None;
      embeddings := false;
    }

    /** `initialize()`: `dirExists` says whether `data_dir` exists, `documents` is what the
        loader finds there and `split` is the text splitter. A missing directory raises
        before anything changes; a small corpus is only a warning. `initialized` is set
        last. */
    method Initialize(dirExists: bool, documents: seq<Document>,
                      split: seq<Document> -> seq<Document>) returns (r: LoadOutcome)
      requires Valid()
      modifies this
      ensures Valid()
      ensures !dirExists ==> r == DirectoryMissing && State() == old(State()) && embeddings == old(embeddings)
      ensures dirExists ==> r == Loaded(|documents| < MinDocuments)
      ensures dirExists ==> initialized && embeddings && vectorstore == Some(DefaultTitled(split(documents)))
    {
      if !dirExists {
        return DirectoryMissing;
      }
      var fewDocuments := |documents| < MinDocuments;
      var chunks := split(documents);
      var texts := new Document[|chunks|](i requires 0 <= i < |chunks| => chunks[i]);
      assert texts[..] == chunks;
      AssignDefaultTitles(texts);
      embeddings := true;
      vectorstore := Some(texts[..]);
      initialized := true;
      r := Loaded(fewDocuments);
    }

    method Retrieve(query: string, topK: nat,
                    similar: (seq<Document>, string) -> seq<Document>, fault: bool)
      returns (r: Result<seq<Document>, RetrieveError>)
      ensures r == Search(State(), query, topK, similar, fault)
    {
      if !initialized {
        return Err(NotInitialized);
      }
      if query == "" {
        return Err(InvalidQuery);
      }
      if vectorstore.None? || fault {
        return Err(SearchFailed);
      }
      var ranked := similar(vectorstore.value, query);
      var k := if topK < |ranked| then topK else |ranked|;
      r := Ok(ranked[..k]);
    }

    /** Drops the index and the embeddings; `retrieve` fails again afterwards. */
    method Cleanup()
      modifies this
      ensures Valid()
      ensures State() == RetrieverState(false, None) && !embeddings
    {
      vectorstore := None;
      embeddings := false;
      initialized := false;
    }
  }
}
