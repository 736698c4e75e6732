/** The request pipeline (main.py): the application context holding the four components,
    `process_query` with its cache, retrieval, not-found, streaming and blocking branches,
    and the startup and shutdown hooks. `Handle` is the pipeline as a function of the
    components' states; `App.ProcessQuery` runs it step by step against the objects. */
module App {
  import opened Base
  import opened Text
  import opened Cache
  import opened Database
  import opened Retriever
  import opened LlmAgent

  /** `top_k` as `process_query` passes it to `retrieve`. */
  const TopK: nat := 3

  datatype Request = Request(query: string, stream: bool)

  datatype Status = Ok200 | NotFound404 | Internal500

  /** What the caller receives: the JSON `{answer, sources, request_id}`, the streamed
      fragments, or an HTTP error with its detail text. */
  datatype QueryResult =
    | Answered(answer: string, sources: seq<string>, requestId: RequestId)
    | Streaming(fragments: seq<string>)
    | Failed(status: Status, detail: string)

  /** Everything outside the components that one request sees: the clock, backend faults,
      the similarity oracle and the model's behaviour. */
  datatype Env = Env(now: int, cacheGetFault: bool, cacheSetFault: bool,
                     similar: (seq<Document>, string) -> seq<Document>, searchFault: bool,
                     reply: Reply, dbFault: bool)

  /** The components' states and the next serial the request-id supply hands out. */
  datatype Snapshot = Snapshot(cache: CacheState, db: DbState, retriever: RetrieverState,
                               lastPrompt: Option<string>, nextId: nat)

  datatype Step = Step(outcome: QueryResult, after: Snapshot)

  /** Every logged id was handed out before `next`. */
  predicate IssuedBefore(rows: seq<Record>, next: nat)
  {
    forall i :: 0 <= i < |rows| ==> rows[i].requestId.serial < next
  }

  ghost predicate ValidSnapshot(s: Snapshot)
  {
    WellFormed(s.db) && IssuedBefore(s.db.rows, s.nextId) && Consistent(s.retriever)
  }

  /** `[doc.metadata.get("title", f"doc_{i}") for i, doc in enumerate(docs)]`. */
  function SourcesOf(docs: seq<Document>): seq<string>
  {
    seq(|docs|, i requires 0 <= i < |docs| => TitleOr(docs[i], DefaultTitle(i)))
  }

  /** The two writes after a generation: the cache entry under the literal query and the
      log row with the comma-joined sources and the agent's `last_prompt`. */
  function Persist(s: Snapshot, id: RequestId, query: string, answer: string,
                   sources: seq<string>, env: Env): Snapshot
  {
    s.(cache := Store(s.cache, query, Response(answer, sources), env.now, env.cacheSetFault),
       db := Insert(s.db, Record(id, env.now, query, answer, Join(", ", sources), s.lastPrompt), env.dbFault))
  }

  /** `process_query(request)` against the given component states. */
  function Handle(s: Snapshot, render: (string, string) -> string, req: Request, env: Env): Step
  {
    var id := RequestId(s.nextId);
    var s1 := s.(nextId := s.nextId + 1);
    match Lookup(s.cache, req.query, env.now, env.cacheGetFault)
    case Some(hit) => Step(Answered(hit.answer, hit.sources, id), s1)
    case None =>
      match Search(s.retriever, req.query, TopK, env.similar, env.searchFault)
      case Err(_) => Step(Failed(Internal500, "Retrieval failed"), s1)
      case Ok(docs) =>
        if docs == [] then Step(Failed(NotFound404, "No relevant documents found"), s1)
        else Generate(s1, render, req, env, id, docs)
  }

  /** The part of `process_query` after a non-empty retrieval: generation, streamed or
      blocking, and then the writes. */
  function Generate(s: Snapshot, render: (string, string) -> string, req: Request, env: Env,
                    id: RequestId, docs: seq<Document>): Step
  {
    var sources := SourcesOf(docs);
    var s2 := s.(lastPrompt := Some(render(Context(docs), req.query)));
    if req.stream then
      var fragments := Streamed(env.reply);
      Step(Streaming(fragments), Persist(s2, id, req.query, Concat(fragments), sources, env))
    else
      match Invoked(env.reply)
      case Err(_) => Step(Failed(Internal500, "Answer generation failed"), s2)
      case Ok(answer) => Step(Answered(answer, sources, id), Persist(s2, id, req.query, answer, sources, env))
  }

  /** The sources list has one title per retrieved document: the document's own title, or
      `doc_i` from its position in the retrieval result. */
  lemma SourcesAreTitles(docs: seq<Document>, i: nat)
    requires i < |docs|
    ensures |SourcesOf(docs)| == |docs|
    ensures "title" in docs[i].metadata ==> SourcesOf(docs)[i] == docs[i].metadata["title"]
    ensures "title" !in docs[i].metadata ==> SourcesOf(docs)[i] == DefaultTitle(i)
  {
  }

  /** The name under which a document is cited in the context is the same as its entry in
      the sources exactly when it has a title; an untitled document is "unknown" to the
      model and `doc_i` to the caller. */
  lemma ContextNamesMatchSources(docs: seq<Document>, i: nat)
    requires i < |docs|
    ensures ("title" in docs[i].metadata) ==>
              Entries(docs)[i] == "Document " + SourcesOf(docs)[i] + ":\n" + docs[i].pageContent
    ensures ("title" !in docs[i].metadata) ==>
              Entries(docs)[i] == "Document unknown:\n" + docs[i].pageContent && SourcesOf(docs)[i] == DefaultTitle(i)
  {
  }

  /** A fresh request id is minted on every path, before the cache is consulted, and is
      the one returned and the only one logged. */
  lemma MintsFreshId(s: Snapshot, render: (string, string) -> string, req: Request, env: Env)
    ensures Handle(s, render, req, env).after.nextId == s.nextId + 1
    ensures Handle(s, render, req, env).outcome.Answered? ==>
              Handle(s, render, req, env).outcome.requestId == RequestId(s.nextId)
    ensures var rows := Handle(s, render, req, env).after.db.rows;
            rows == s.db.rows || (rows == s.db.rows + [rows[|rows| - 1]] && rows[|rows| - 1].requestId == RequestId(s.nextId))
  {
  }

  /** A cache hit answers with the cached answer and sources and the new request id; the
      retriever and the generator are not consulted (`last_prompt` is untouched) and
      neither the cache nor the log is written. */
  lemma CacheHitShortCircuits(s: Snapshot, render: (string, string) -> string, req: Request, env: Env, hit: Response)
    requires Lookup(s.cache, req.query, env.now, env.cacheGetFault) == Some(hit)
    ensures Handle(s, render, req, env) == Step(Answered(hit.answer, hit.sources, RequestId(s.nextId)), s.(nextId := s.nextId + 1))
  {
  }

  /** A retrieval error is a 500 "Retrieval failed" with no write and no generation;
      in particular an empty query or an uninitialized retriever lands here on a miss. */
  lemma RetrievalFailureIs500(s: Snapshot, render: (string, string) -> string, req: Request, env: Env)
    requires Lookup(s.cache, req.query, env.now, env.cacheGetFault) == None
    requires !s.retriever.initialized || req.query == "" || env.searchFault
    ensures Handle(s, render, req, env) == Step(Failed(Internal500, "Retrieval failed"), s.(nextId := s.nextId + 1))
  {
  }

  /** An empty retrieval result is a 404 with no generation, no cache write and no log row. */
  lemma EmptyRetrievalIs404(s: Snapshot, render: (string, string) -> string, req: Request, env: Env)
    requires Lookup(s.cache, req.query, env.now, env.cacheGetFault) == None
    requires Search(s.retriever, req.query, TopK, env.similar, env.searchFault) == Ok([])
    ensures Handle(s, render, req, env) ==
              Step(Failed(NotFound404, "No relevant documents found"), s.(nextId := s.nextId + 1))
  {
  }

  /** A blocking generation failure is a 500 with no cache write and no log row; only
      `last_prompt` has moved, because it is assigned before the model is invoked. */
  lemma BlockingFailureWritesNothing(s: Snapshot, render: (string, string) -> string, req: Request, env: Env)
    requires Lookup(s.cache, req.query, env.now, env.cacheGetFault) == None
    requires Search(s.retriever, req.query, TopK, env.similar, env.searchFault).Ok?
    requires Search(s.retriever, req.query, TopK, env.similar, env.searchFault).value != []
    requires !req.stream && env.reply.fails
    ensures var docs := Search(s.retriever, req.query, TopK, env.similar, env.searchFault).value;
            Handle(s, render, req, env) ==
              Step(Failed(Internal500, "Answer generation failed"),
                   s.(nextId := s.nextId + 1, lastPrompt := Some(render(Context(docs), req.query))))
  {
  }

  /** A blocking success responds with the model's answer, the sources and the new id;
      with a working cache the answer and sources are cached under the literal query, and
      with a working log exactly one row is appended holding the same answer, the
      comma-joined sources and the rendered prompt. The fresh id never collides. */
  lemma BlockingSuccessPersists(s: Snapshot, render: (string, string) -> string, req: Request, env: Env)
    requires ValidSnapshot(s)
    requires Lookup(s.cache, req.query, env.now, env.cacheGetFault) == None
    requires Search(s.retriever, req.query, TopK, env.similar, env.searchFault).Ok?
    requires Search(s.retriever, req.query, TopK, env.similar, env.searchFault).value != []
    requires !req.stream && !env.reply.fails
    ensures var docs := Search(s.retriever, req.query, TopK, env.similar, env.searchFault).value;
            var answer := Concat(env.reply.fragments);
            var prompt := render(Context(docs), req.query);
            var step := Handle(s, render, req, env);
            && step.outcome == Answered(answer, SourcesOf(docs), RequestId(s.nextId))
            && step.after.lastPrompt == Some(prompt)
            && (s.cache.available && s.cache.ttl > 0 && !env.cacheSetFault ==>
                  Lookup(step.after.cache, req.query, env.now, false) == Some(Response(answer, SourcesOf(docs))))
            && (s.db.connected && s.db.tableExists && !env.dbFault ==>
                  step.after.db.rows == s.db.rows + [Record(RequestId(s.nextId), env.now, req.query, answer,
                                                            Join(", ", SourcesOf(docs)), Some(prompt))])
  {
    FreshIdNotLogged(s);
  }

  /** In streaming mode the caller receives exactly what `stream_answer` yields, and the
      value cached and logged is the concatenation of those fragments in order. A model
      failure is not a no-write path: the stored answer is the partial output followed by
      the sentinel. */
  lemma StreamPersistsWhatWasSent(s: Snapshot, render: (string, string) -> string, req: Request, env: Env)
    requires ValidSnapshot(s)
    requires Lookup(s.cache, req.query, env.now, env.cacheGetFault) == None
    requires Search(s.retriever, req.query, TopK, env.similar, env.searchFault).Ok?
    requires Search(s.retriever, req.query, TopK, env.similar, env.searchFault).value != []
    requires req.stream
    ensures var docs := Search(s.retriever, req.query, TopK, env.similar, env.searchFault).value;
            var step := Handle(s, render, req, env);
            var full := Concat(step.outcome.fragments);
            && step.outcome == Streaming(Streamed(env.reply))
            && (env.reply.fails ==> full == Concat(env.reply.fragments) + Sentinel)
            && (!env.reply.fails ==> Invoked(env.reply) == Ok(full))
            && (s.cache.available && s.cache.ttl > 0 && !env.cacheSetFault ==>
                  Lookup(step.after.cache, req.query, env.now, false) == Some(Response(full, SourcesOf(docs))))
            && (s.db.connected && s.db.tableExists && !env.dbFault ==>
                  step.after.db.rows == s.db.rows + [Record(RequestId(s.nextId), env.now, req.query, full,
                                                            Join(", ", SourcesOf(docs)),
                                                            Some(render(Context(docs), req.query)))])
  {
    StreamAgreesWithInvoke(env.reply);
    FreshIdNotLogged(s);
  }

  /** The serial about to be minted is not in the log. */
  lemma FreshIdNotLogged(s: Snapshot)
    requires IssuedBefore(s.db.rows, s.nextId)
    ensures !Logged(s.db.rows, RequestId(s.nextId))
  {
    forall i | 0 <= i < |s.db.rows| ensures s.db.rows[i].requestId != RequestId(s.nextId) {
      assert s.db.rows[i].requestId.serial < s.nextId;
    }
  }

  /** Every request keeps the log's ids unique and already issued, and the retriever
      consistent. */
  lemma HandlePreservesValid(s: Snapshot, render: (string, string) -> string, req: Request, env: Env)
    requires ValidSnapshot(s)
    ensures ValidSnapshot(Handle(s, render, req, env).after)
  {
    var after := Handle(s, render, req, env).after;
    var rec := Record(RequestId(s.nextId), env.now, req.query, "", "", None);
    InsertPreservesTable(s.db, rec, env.dbFault);
    MintsFreshId(s, render, req, env);
    forall i | 0 <= i < |after.db.rows| ensures after.db.rows[i].requestId.serial < after.nextId {
      if i < |s.db.rows| {
        assert after.db.rows[i] == s.db.rows[i];
      }
    }
    if after.db.rows != s.db.rows {
      FreshIdNotLogged(s);
      var last := after.db.rows[|after.db.rows| - 1];
      InsertAppendsOne(s.db, last);
    }
  }

  /** Asking the same question again before the entry expires is answered from the cache
      with byte-identical answer and sources, without retrieval or generation. */
  lemma RepeatQueryHitsCache(s: Snapshot, render: (string, string) -> string, req: Request, env: Env,
                             req2: Request, env2: Env)
    requires ValidSnapshot(s)
    requires Handle(s, render, req, env).outcome.Answered?
    requires Lookup(s.cache, req.query, env.now, env.cacheGetFault) == None
    requires s.cache.available && s.cache.ttl > 0 && !env.cacheSetFault
    requires req2.query == req.query && !env2.cacheGetFault && env2.now < env.now + s.cache.ttl
    ensures var first := Handle(s, render, req, env);
            var second := Handle(first.after, render, req2, env2);
            && second.outcome == Answered(first.outcome.answer, first.outcome.sources, RequestId(s.nextId + 1))
            && second.after == first.after.(nextId := first.after.nextId + 1)
  {
    var first := Handle(s, render, req, env);
    var docs := Search(s.retriever, req.query, TopK, env.similar, env.searchFault).value;
    var answer := first.outcome.answer;
    assert first.after.cache == Store(s.cache, req.query, Response(answer, SourcesOf(docs)), env.now, false);
    StoreThenLookup(s.cache, req.query, Response(answer, SourcesOf(docs)), env.now, env2.now);
    CacheHitShortCircuits(first.after, render, req2, env2, Response(answer, SourcesOf(docs)));
  }

  /** A streamed answer is cached like a blocking one: a repeat of the question before the
      entry expires is answered, as JSON, with the concatenated fragments. Because a failed
      stream is cached too, that answer is then the partial output and the sentinel. */
  lemma RepeatStreamedQueryHitsCache(s: Snapshot, render: (string, string) -> string, req: Request, env: Env,
                                     req2: Request, env2: Env)
    requires Lookup(s.cache, req.query, env.now, env.cacheGetFault) == None
    requires Search(s.retriever, req.query, TopK, env.similar, env.searchFault).Ok?
    requires Search(s.retriever, req.query, TopK, env.similar, env.searchFault).value != []
    requires req.stream
    requires s.cache.available && s.cache.ttl > 0 && !env.cacheSetFault
    requires req2.query == req.query && !env2.cacheGetFault && env2.now < env.now + s.cache.ttl
    ensures var docs := Search(s.retriever, req.query, TopK, env.similar, env.searchFault).value;
            var first := Handle(s, render, req, env);
            var second := Handle(first.after, render, req2, env2);
            && second.outcome == Answered(Concat(Streamed(env.reply)), SourcesOf(docs), RequestId(s.nextId + 1))
            && second.after == first.after.(nextId := first.after.nextId + 1)
            && (env.reply.fails ==> second.outcome.answer == Concat(env.reply.fragments) + Sentinel)
  {
    var docs := Search(s.retriever, req.query, TopK, env.similar, env.searchFault).value;
    var first := Handle(s, render, req, env);
    var stored := Response(Concat(Streamed(env.reply)), SourcesOf(docs));
    StreamAgreesWithInvoke(env.reply);
    StoreThenLookup(s.cache, req.query, stored, env.now, env2.now);
    CacheHitShortCircuits(first.after, render, req2, env2, stored);
  }

  /** `stream_generator`: passes every fragment on as it arrives while accumulating
      `full_response`. */
  method Drain(stream: seq<string>) returns (sent: seq<string>, fullResponse: string)
    ensures sent == stream && fullResponse == Concat(stream)
  {
    sent, fullResponse := [], "";
    for i := 0 to |stream|
      invariant sent == stream[..i]
      invariant fullResponse == Concat(sent)
    {
      assert (sent + [stream[i]])[..i] == sent;
      fullResponse := fullResponse + stream[i];
      sent := sent + [stream[i]];
    }
  }

  /** The largest logged serial plus one: where the id supply starts on an existing log. */
  function NextSerial(rows: seq<Record>): (n: nat)
    ensures IssuedBefore(rows, n)
    decreases |rows|
  {
    if |rows| == 0 then 0
    else
      var rest := NextSerial(rows[..|rows| - 1]);
      var last := rows[|rows| - 1].requestId.serial;
      if last < rest then rest else last + 1
  }

  datatype StartupError = CorpusMissing | LogStoreFailed(error: DbError)

  /** The module-level singletons of main.py, as one application context. */
  class App {
    const retriever: VectorRetriever
    const agent: LLMAgent
    const cache: ResponseCache
    const db: DatabaseLogger
    var nextId: nat

    ghost predicate Valid()
      reads this, retriever, agent, cache, db
    {
      ValidSnapshot(State()) && retriever.Valid()
    }

    function State(): Snapshot
      reads this, retriever, agent, cache, db
    {
      Snapshot(cache.State(), db.State(), retriever.State(), agent.lastPrompt, nextId)
    }

    /** The components as main.py constructs them: the retriever over `data/`, the agent,
        the cache with the default time-to-live over whatever the Redis server holds, and
        the logger over `query_logs.db` as it exists on disk. */
    constructor (render: (string, string) -> string, redis: map<string, Entry>,
                 tableExists: bool, rows: seq<Record>)
      requires UniqueIds(rows) && (tableExists || rows == [])
      ensures Valid() && fresh(retriever) && fresh(agent) && fresh(cache) && fresh(db)
      ensures agent.render == render
      ensures State() == Snapshot(CacheState(false, DefaultTtl, redis), DbState(false, tableExists, rows),
                                  RetrieverState(false, None), None, NextSerial(rows))
    {
      retriever := new VectorRetriever("data/");
      agent := new LLMAgent(render);
      cache := new ResponseCache(DefaultTtl, redis);
      db := new DatabaseLogger("query_logs.db", tableExists, rows);
      nextId := NextSerial(rows);
    }

    method ProcessQuery(req: Request, env: Env) returns (out: QueryResult)
      requires Valid()
      modifies this, agent, cache, db
      ensures Valid()
      ensures Step(out, State()) == Handle(old(State()), agent.render, req, env)
    {
      ghost var s := State();
      HandlePreservesValid(s, agent.render, req, env);
      var id := RequestId(nextId);
      nextId := nextId + 1;
      var cached := cache.Get(req.query, env.now, env.cacheGetFault);
      if cached.Some? {
        CacheHitShortCircuits(s, agent.render, req, env, cached.value);
        return Answered(cached.value.answer, cached.value.sources, id);
      }
      var found := retriever.Retrieve(req.query, TopK, env.similar, env.searchFault);
      if found.Err? {
        return Failed(Internal500, "Retrieval failed");
      }
      var docs := found.value;
      if docs == [] {
        EmptyRetrievalIs404(s, agent.render, req, env);
        return Failed(NotFound404, "No relevant documents found");
      }
      out := GenerateAndPersist(req, env, id, docs);
    }

    method GenerateAndPersist(req: Request, env: Env, id: RequestId, docs: seq<Document>)
      returns (out: QueryResult)
      requires db.Valid()
      modifies agent, cache, db
      ensures db.Valid()
      ensures Step(out, State()) == Generate(old(State()), agent.render, req, env, id, docs)
    {
      var sources := SourcesOf(docs);
      var answer: string;
      if req.stream {
        var yielded := agent.StreamAnswer(req.query, docs, env.reply);
        var sent, fullResponse := Drain(yielded);
        answer := fullResponse;
        out := Streaming(sent);
      } else {
        var generated := agent.GenerateAnswer(req.query, docs, env.reply);
        if generated.Err? {
          return Failed(Internal500, "Answer generation failed");
        }
        answer := generated.value;
        out := Answered(answer, sources, id);
      }
      cache.Set(req.query, Response(answer, sources), env.now, env.cacheSetFault);
      db.LogQuery(id, req.query, answer, Join(", ", sources), agent.lastPrompt, env.now, env.dbFault);
    }

    /** `startup_event`: retriever, then cache, then logger; the first error propagates and
        the later components are left as they were. The cache never raises. */
    method Startup(dirExists: bool, documents: seq<Document>, split: seq<Document> -> seq<Document>,
                   redisReachable: bool, dbConnectOk: bool, dbCreateOk: bool)
      returns (r: Outcome<StartupError>)
      requires Valid()
      modifies retriever, cache, db
      ensures Valid()
      ensures !dirExists ==> r == Fail(CorpusMissing) && State() == old(State())
      ensures dirExists ==> retriever.initialized && retriever.vectorstore == Some(DefaultTitled(split(documents)))
      ensures dirExists ==> cache.State() == old(cache.State()).(available := redisReachable)
      ensures dirExists && !dbConnectOk ==> r == Fail(LogStoreFailed(ConnectFailed)) && db.State() == old(db.State())
      ensures dirExists && dbConnectOk ==> db.State() == DbState(true, old(db.tableExists) || dbCreateOk, old(db.rows))
      ensures dirExists && dbConnectOk ==> r == (if dbCreateOk then Pass else Fail(LogStoreFailed(CreateTableFailed)))
    {
      var loaded := retriever.Initialize(dirExists, documents, split);
      if loaded == DirectoryMissing {
        return Fail(CorpusMissing);
      }
      cache.Initialize(redisReachable);
      var dbReady := db.Initialize(dbConnectOk, dbCreateOk);
      if dbReady.Fail? {
        return Fail(LogStoreFailed(dbReady.error));
      }
      r := Pass;
    }

    /** `shutdown_event`: the three cleanups in sequence. The cached entries and the logged
        rows outlive the process. */
    method Shutdown()
      requires Valid()
      modifies retriever, cache, db
      ensures Valid()
      ensures State() == old(State()).(retriever := RetrieverState(false, None),
                                       cache := old(cache.State()).(available := false),
                                       db := old(db.State()).(connected := false))
    {
      retriever.Cleanup();
      cache.Cleanup();
      db.Cleanup();
    }
  }
}
