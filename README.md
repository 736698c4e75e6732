# Autonomous AI Insight Engine: the query pipeline, modelled in Dafny

The Insight Engine answers questions from a document corpus. A request first goes to a
Redis response cache. On a miss, a FAISS retriever fetches the top 3 chunks. A language
model then answers from those chunks, either in one call or as a stream of fragments.
Finally the answer is cached and the interaction logged to SQLite. This project models
that pipeline (`process_query` in `main.py`) and the four components it drives, with
one Dafny module per source file:

- `Cache` (cache.py): class `ResponseCache`. The `client` field becomes a flag
  `available`. The Redis server is a map from the literal query to an entry with an
  absolute expiry time.
- `Database` (database.py): class `DatabaseLogger`. The `conn` field becomes a flag. The
  `query_logs` table is a sequence of records, kept with `UNIQUE(request_id)` as an
  invariant.
- `Retriever` (retriever.py): class `VectorRetriever`. It has the `initialized`,
  `vectorstore` and `embeddings` fields, and runs the in-place title loop over an `array`.
- `LlmAgent` (llm_agent.py): class `LLMAgent`. It holds the `last_prompt` field, the pure
  context rendering, the blocking call and the streaming generator.
- `App` (main.py): class `App`, the application context holding the four singletons.
  `ProcessQuery`, `Startup` and `Shutdown` live there. Two helper modules sit beside it:
  `Text` (join, concatenation, `str(n)`) and `Base` (`Option`, `Result`, `Outcome`, LangChain's
  `Document`).

`ResponseCache`, `DatabaseLogger`, `VectorRetriever` and `App` each expose `State()`,
which returns their fields as a datatype value. `LLMAgent` has a single mutable field,
`lastPrompt`, which its methods state directly. On those values the project defines spec
functions:

- `Cache.Lookup` and `Cache.Store`;
- `Database.Insert`;
- `Retriever.Search`;
- `LlmAgent.Invoked` and `LlmAgent.Streamed`;
- `App.Handle`, the whole request pipeline as a function.

Two kinds of state-changing method appear:

- `ResponseCache.Set`, `DatabaseLogger.LogQuery`, `App.ProcessQuery` and
  `App.GenerateAndPersist` ensure that the new `State()` is the matching spec function of
  the old one.
- The `Initialize` and `Cleanup` methods, `App.Startup`, `App.Shutdown`, and the two
  `LLMAgent` methods state their new state directly in their `ensures`.

The properties of the pipeline are lemmas about `App.Handle`.

Outside collaborators enter only as parameters:

- the clock is an integer `now`;
- a backend exception during one call is a boolean `fault`;
- the text splitter is a function from documents to chunks;
- the similarity search is a ranking oracle, of which the first `top_k` results are kept;
- the language model is a `Reply`: the fragments it emits, and whether it then raises;
- the prompt template's `format(context, question)` is a function `render` held by the agent;
- `uuid4()` is a counter handing out `RequestId(serial)` values that never repeat.

Where the design text and the code disagree, the model follows the code:

- Mid-stream generation failure. The design says it produces no cache entry and no log
  row. In the code, `stream_answer` catches the exception and yields the sentinel
  "An error occurred while generating the answer." So `stream_generator` still caches and
  logs the partial output followed by the sentinel (`App.StreamPersistsWhatWasSent`). A
  repeat of the same question within the time-to-live is then answered from the cache
  with that text (`App.RepeatStreamedQueryHitsCache`).
- Query validation. The design treats a query as non-empty. The code consults the cache
  with the query as given. On a miss, an empty query makes `retrieve` raise, and the
  caller gets a 500 "Retrieval failed" (`App.RetrievalFailureIs500`).
- Shutdown. The design asks for failure-isolated cleanups. `shutdown_event` calls the
  three cleanups one after another. In this model none of them can fail (see "## Left
  out").
- Startup. `startup_event` runs the three initializations in order. A missing data
  directory stops startup before the cache and the log store are touched.
- Failed table creation. When `CREATE TABLE` fails after a successful connect, the logger
  keeps the connection. If the table did not exist before, later `log_query` calls fail
  inside their `try` and are swallowed. If it already existed, for instance when the
  CREATE failed on a transient lock, later inserts succeed.
- Streaming versus blocking. The design says the streamed fragments concatenate to
  exactly what the blocking call would return. In the code these are two independent
  model calls. The model states the property for one shared model behaviour
  (`LlmAgent.StreamAgreesWithInvoke`).
- Context names versus sources. An untitled document is named "unknown" in the context
  the model sees, but `doc_i` in the `sources` returned to the caller
  (`App.ContextNamesMatchSources`).

## Model

| member | source | states |
|---|---|---|
| `Cache.ResponseCache.constructor` | cache.py:7-12 | a new cache has no client, the given time-to-live, and sees the server's existing contents |
| `Cache.ResponseCache.Initialize` | cache.py:14-28 | never raises; the client is present exactly when the server answered the ping, and nothing else changes |
| `Cache.ResponseCache.Get` | cache.py:30-42 | returns the stored response only with a client, no backend fault, an unexpired key and a decodable value; otherwise a miss |
| `Cache.ResponseCache.Set` | cache.py:44-53 | without a client, on a fault or with a non-positive time-to-live nothing changes; otherwise only the query's entry is replaced, to expire `ttl` after now |
| `Cache.ResponseCache.Cleanup` | cache.py:55-60 | the client is dropped, the server contents stay; a second call changes nothing |
| `Cache.StoreThenLookup` | cache.py:36-50 | a stored response is read back unchanged until its time-to-live runs out |
| `Cache.StoredEntryExpires` | cache.py:50 | once the time-to-live has passed the stored response is a miss |
| `Cache.StoreOnlyTouchesKey` | cache.py:50 | `set` changes no other key's lookup, adds no other key and keeps the client flag |
| `Cache.DegradedCache` | cache.py:30-47 | without a client every `get` misses and every `set` is a no-op |
| `Cache.FaultsAreSwallowed` | cache.py:35-53 | a backend exception makes `get` a miss and `set` a no-op, never an error |
| `Cache.UndecodableIsMiss` | cache.py:35-42 | an empty stored string or text that does not parse is a miss |
| `Database.InsertPreservesTable` | database.py:19-28 | logging keeps `UNIQUE(request_id)` and "no rows without the table", never rewrites or removes a row, adds at most one and only to an existing table over a connection, and leaves connection and schema alone |
| `Database.InsertAppendsOne` | database.py:43-51 | a connected insert of a new id appends exactly the given record, which is then the only row with that id |
| `Database.RejectedInsertChangesNothing` | database.py:37-53 | a duplicate id, no connection, no table or a database error leave the log unchanged |
| `Database.DatabaseLogger.constructor` | database.py:7-9 | a new logger is unconnected over the table as it exists on disk (rows only if the table exists) |
| `Database.DatabaseLogger.Initialize` | database.py:11-35 | a failed connect raises and changes nothing; a failed CREATE raises but stays connected; existing rows always survive |
| `Database.DatabaseLogger.LogQuery` | database.py:37-53 | never raises; the new log is the insert of the record built from the arguments, with `prompt` optional |
| `Database.DatabaseLogger.Cleanup` | database.py:55-60 | the connection is dropped, the rows stay; a second call changes nothing |
| `Retriever.DefaultTitledChunks` | retriever.py:34-37 | after the title loop no chunk has empty metadata; chunks that had metadata are untouched; the others get `{"title": "doc_i"}` from their chunk index |
| `Retriever.DefaultTitlesDistinct` | retriever.py:35-37 | two chunks given synthetic titles get different titles |
| `Retriever.AssignDefaultTitles` | retriever.py:35-37 | the in-place loop leaves the array equal to the title-defaulted chunks |
| `Retriever.SearchReturnsTopK` | retriever.py:53-55 | a successful retrieval returns at most `top_k` chunks, the best-ranked ones in rank order, all of them when fewer are ranked |
| `Retriever.SearchNeedsInitialization` | retriever.py:47-48 | before initialization every call raises not-initialized, even for an empty query |
| `Retriever.SearchRejectsEmptyQuery` | retriever.py:50-51 | once initialized, an empty query raises the invalid-query error |
| `Retriever.VectorRetriever.constructor` | retriever.py:11-16 | a new retriever is uninitialized with no index and no embeddings |
| `Retriever.VectorRetriever.Initialize` | retriever.py:18-43 | a missing directory raises and changes nothing; otherwise the title-defaulted chunks are indexed, `initialized` is set, and fewer than 10 documents is only a warning |
| `Retriever.VectorRetriever.Retrieve` | retriever.py:45-55 | raises or returns exactly what the retrieval specification gives for the current state |
| `Retriever.VectorRetriever.Cleanup` | retriever.py:57-62 | index and embeddings are dropped and `initialized` is false |
| `LlmAgent.ContextSingle` | llm_agent.py:41 | one document renders as `Document <title or unknown>:\n<content>` |
| `LlmAgent.ContextAppend` | llm_agent.py:41 | the context follows docs order, with one blank line between consecutive documents |
| `LlmAgent.StreamAgreesWithInvoke` | llm_agent.py:43-63 | for one model behaviour, a successful stream concatenates to the blocking answer; a failed one concatenates to the partial output plus the sentinel, where the blocking call raises |
| `LlmAgent.LLMAgent.constructor` | llm_agent.py:11-14 | `last_prompt` starts as None |
| `LlmAgent.LLMAgent.GenerateAnswer` | llm_agent.py:39-50 | `last_prompt` is the rendered prompt even when the model then raises; returns the model output or re-raises |
| `LlmAgent.LLMAgent.StreamAnswer` | llm_agent.py:52-63 | `last_prompt` is set as in the blocking call; yields the model's fragments unchanged and in order, then exactly one sentinel if the model raised, and never raises |
| `App.SourcesAreTitles` | main.py:54 | one source per retrieved document: its title, else `doc_i` from its position in the result |
| `App.ContextNamesMatchSources` | main.py:54 | a titled document is cited in the context under its source name; an untitled one is "unknown" there and `doc_i` in the sources |
| `App.MintsFreshId` | main.py:33-95 | every request takes the next id before the cache check; it is the id returned and the only id a new log row can carry |
| `App.CacheHitShortCircuits` | main.py:37-41 | a hit answers with the cached answer and sources and the new id; no retrieval, generation, cache write or log append |
| `App.RetrievalFailureIs500` | main.py:43-48 | on a miss, an uninitialized retriever, an empty query or a search error gives a 500 "Retrieval failed" and writes nothing |
| `App.EmptyRetrievalIs404` | main.py:50-51 | an empty retrieval gives a 404 with no generation, cache write or log append |
| `App.BlockingFailureWritesNothing` | main.py:75-79 | a blocking generation failure gives a 500 with no cache write or log append; only `last_prompt` moved |
| `App.BlockingSuccessPersists` | main.py:75-95 | a blocking success responds with answer, sources and id; the cache then holds `{answer, sources}` under the literal query, and the log gains one row with the same answer, the comma-joined sources and the prompt |
| `App.StreamPersistsWhatWasSent` | main.py:56-72 | the caller receives what `stream_answer` yields; the value cached and logged is their concatenation in order, and after a model failure it is the partial output plus the sentinel |
| `App.RepeatStreamedQueryHitsCache` | main.py:57-70 | after a streamed answer, the same question within the time-to-live is answered from the cache with the concatenated fragments and no other change; after a failed stream, with the partial output and the sentinel |
| `App.FreshIdNotLogged` | main.py:35 | the id about to be minted is in no existing log row |
| `App.HandlePreservesValid` | main.py:33-95 | every request keeps log ids unique and already issued |
| `App.RepeatQueryHitsCache` | main.py:37-95 | after a successful answer, the same question before expiry returns identical answer and sources from the cache with no other change |
| `App.Drain` | main.py:57-61 | the stream generator passes on every fragment in order, and `full_response` is their concatenation |
| `App.NextSerial` | main.py:35 | the id supply starts above every serial already in the log |
| `App.App.constructor` | main.py:17-21 | the four components as main.py builds them, with the default time-to-live, over the existing Redis and SQLite contents |
| `App.App.ProcessQuery` | main.py:32-95 | the outcome and the new component states are exactly those of the pipeline specification, and the invariants are kept |
| `App.App.GenerateAndPersist` | main.py:53-95 | generation, streamed or blocking, then the cache write and the log append, as the pipeline specification says |
| `App.App.Startup` | main.py:97-107 | retriever, cache, logger in order; a missing corpus stops before the others; a logger failure propagates; the cache never fails startup |
| `App.App.Shutdown` | main.py:109-114 | the three cleanups in sequence: no index, no client, no connection; cached entries and logged rows stay |

## Left out

- HTTP transport: FastAPI routing, `HTTPException`, `StreamingResponse` and the pydantic
  models. Outcomes are the `QueryResult` datatype, with statuses Ok200, NotFound404 and
  Internal500.
- Redis networking and JSON. Encoding and decoding are an identity round trip. A foreign
  value that decodes to something other than an `{answer, sources}` dictionary (for
  instance `{}`, which `process_query` would treat as a miss) is not modelled. A stored
  value is the response, an empty string, or unparseable text.
- SQLite specifics: the SQL text, the AUTOINCREMENT `id` column and `datetime.now()`. The
  timestamp is the request's abstract time `now`.
- Time: one request sees a single instant. The cache entry of a streamed answer is given
  that instant, though in the code it is written when the stream ends.
- Library internals: FAISS similarity search, HuggingFace embeddings, `DirectoryLoader`
  and `CharacterTextSplitter`. These are oracles. Any failure inside them during
  `initialize` is not modelled. The ranking oracle is not constrained to return members of
  the index.
- The language model and the prompt template are oracles. A failure of
  `prompt_template.format` is not modelled.
- What the model receives. The chain at llm_agent.py:32-37 feeds the whole input dictionary
  to both template variables through `RunnablePassthrough`. So the text the model receives
  at llm_agent.py:45 and :58 differs from the `last_prompt` rendered at :44 and :57, which
  is the text logged. The oracle `render` yields only the logged text. The model does not
  capture that the two differ.
- Commit failures. A `commit()` that fails after a successful INSERT (database.py:45-50)
  leaves the row pending in the open transaction. The next commit writes it, or `close`
  rolls it back. In the model a `fault` always means no row is added.
- Failing cleanups. `client.close()` (cache.py:58) and `conn.close()` (database.py:58) are
  taken never to raise. In the code such an exception would abort `shutdown_event`
  before the later cleanups run (main.py:112-114).
- Logging calls. The only one with an observable role, the small-corpus warning, appears
  as the `fewDocuments` flag of `Loaded`.
- Concurrency and laziness:
  - async handlers and concurrent requests are not modelled; requests run one at a time;
  - the race on the shared `last_prompt` across concurrent requests is therefore absent;
  - the lazy start of the streaming generator is not modelled; the whole stream runs
    inside the request;
  - the interleaving of fragment delivery with production is not modelled;
  - a client disconnecting mid-stream is not modelled.
- `retrieve`'s non-string query case cannot arise: queries are typed as strings. `top_k`
  is a natural number, and `process_query` always passes 3.
- `Retriever.VectorRetriever.Initialize`: the `embeddings` and `vectorstore` objects are
  reduced to a flag and the indexed chunk list.
