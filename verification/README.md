# Financial Insight Engine — a verified model of the per-turn RAG pipeline

This project models the turn logic of Financial-Insight-Engine, a question-answering service over
SEC filings. One user turn runs through four steps:

1. Refine: Gemini rewrites the question and extracts a company/category filter.
2. Check the cache: a semantic cache looks up the refined question.
3. Retrieve: a hybrid search (Chroma semantic search plus BM25 keyword search), then a
   cross-encoder reranks the hits.
4. Generate: Phi-3 writes the answer, which is then cached.

The model also covers the HTTP handlers around a turn, the post-processing of conversation
titles, and the earlier version of the pipeline (`nodes.py`, `graph.py`). That version checks the
cache first, on the raw question.

Every model and store is an oracle, i.e. a function-typed field or parameter whose behaviour the
model does not fix. An oracle result of `None` or `Failed` stands for a call that raised.

Where the service changes state in place, the model is a class:
- the LangGraph state dictionary: `State.FinancialAnalysisState`, `Legacy.LegacyState`;
- the cache's entry list: `Cache.CacheService`;
- the loaded models: `Models.ModelService`;
- the graph builder: `Workflow.StateGraph`;
- the checkpoint store of the current service: `Agent.AgentService`, as an in-memory map from
  thread id to the last state.

Each method is proved against functions of the old state. The properties are lemmas about those
functions: de-duplication, the where clause, the stable top-2 selection, the transition tables,
the cache decision and the title words.

Modules:
- `Wrappers`: the `Option` and `Result` types shared by all modules (no source counterpart)
- `Text`: Python's `strip`, `split`, `join` and `replace` (no source counterpart)
- `Workflow`: the part of LangGraph's `StateGraph` builder that both pipelines use (no source
  counterpart in the repository)
- `State`: `state_service.py`; `Retrieval`: `retrieval_service.py`; `Cache`: `cache_service.py`;
  `Models`: `model_service.py`
- `Agent`: `agent_service.py`
- `Routes`: `app/assistant/routes.py`
- `Conversation`: `ConversationController.py`
- `Legacy`: `nodes.py` and `graph.py`

## Model

| member | source | states |
|---|---|---|
| State.ParseTicker | app/assistant/controller/state_service.py:13-16 | a company literal is accepted only as one of the five tickers, and maps back to itself |
| State.TickerLiterals | app/assistant/controller/state_service.py:13-16 | exactly AAPL, MSFT, GOOG, AMZN, META validate, each to its own ticker |
| State.ParseCategory | app/assistant/controller/state_service.py:17-20 | a category literal is accepted only as `risks` or `management_dis` |
| State.CategoryLiterals | app/assistant/controller/state_service.py:17-20 | exactly the two category strings validate, each to its own category |
| State.FinancialAnalysisState.Resume | app/assistant/controller/state_service.py:41-60 | a resumed state holds the checkpoint's messages followed by the new input, other fields kept |
| State.Dump | app/assistant/controller/state_service.py:13-20 | `model_dump()` gives the `company` item, then the `category` item, each set exactly when that field is set |
| State.FinancialAnalysisState.AddMessages | app/assistant/controller/state_service.py:48 | the `add_messages` reducer appends the update to the message list |
| Retrieval.Cleaned | app/assistant/controller/retrieval_service.py:52 | only keys whose value is set survive; every set key does survive |
| Retrieval.BuildWhereClause | app/assistant/controller/retrieval_service.py:48-59 | no clause exactly when the filter is missing or has no set item; otherwise its conditions are the set items in key order |
| Retrieval.WhereClauseShape | app/assistant/controller/retrieval_service.py:48-59 | no set key gives no clause, one gives a single `$eq`, two or more give `$and` in key order |
| Retrieval.WhereClauseMeaning | app/assistant/controller/retrieval_service.py:48-59 | metadata passes the clause exactly when it agrees with every set filter item |
| Retrieval.DeduplicateDocuments | app/assistant/controller/retrieval_service.py:61-69 | the loop keeps exactly the first occurrence of every page content, in input order |
| Retrieval.FirstIffUnseen | app/assistant/controller/retrieval_service.py:66 | a document is a first occurrence exactly when its content was not seen before it |
| Retrieval.DeduplicateContents | app/assistant/controller/retrieval_service.py:61-69 | every input content appears in the output, and no other |
| Retrieval.DeduplicateDistinct | app/assistant/controller/retrieval_service.py:61-69 | no two output documents share a content, and the list never grows |
| Retrieval.DeduplicateDistinctIsIdentity | app/assistant/controller/retrieval_service.py:61-69 | a list with distinct contents is returned unchanged |
| Retrieval.DeduplicateIdempotent | app/assistant/controller/retrieval_service.py:61-69 | de-duplicating twice is de-duplicating once |
| Retrieval.DeduplicatePrefix | app/assistant/controller/retrieval_service.py:37 | the de-duplicated semantic hits are a prefix of the de-duplicated concatenation |
| Retrieval.HybridSearch | app/assistant/controller/retrieval_service.py:32-46 | the filter goes to the semantic branch only (k=3); the result is the first-occurrence de-duplication of the semantic hits followed by the keyword hits, so it has distinct contents, holds both branches' contents and starts with the de-duplicated semantic hits; a raising branch fails the search |
| Cache.CachedResponse | app/assistant/controller/cache_service.py:32-44 | a response comes back iff there is a first result with `1 - distance >= 0.90`, and it is that result's stored response |
| Cache.OnlyNearestCounts | app/assistant/controller/cache_service.py:39 | results after the first never change the decision |
| Cache.HitIsStoredResponse | app/assistant/controller/cache_service.py:39-42 | a hit is a distance of at most 0.10 and returns a response that was stored |
| Cache.CacheService.constructor | app/assistant/controller/cache_service.py:12-16 | the service starts without a store handle, over the given search, write behaviour and entries |
| Cache.CacheService.GetCachedResponse | app/assistant/controller/cache_service.py:32-44 | without a store handle, or when the search raises, the lookup fails; otherwise it searches the current entries with k=1 and applies the decision; a hit is the response of a stored entry; nothing changes |
| Cache.CacheService.AddDocuments | app/assistant/controller/cache_service.py:49 | the entry is appended, unless the store's `add_documents` raises, in which case nothing is stored |
| Cache.CacheService.AddToCache | app/assistant/controller/cache_service.py:46-49 | exactly one (query, response) entry is appended, with no upsert and no de-duplication; without a store handle or when the write raises, it fails and nothing is stored |
| Cache.CacheService.Initialize | app/assistant/controller/cache_service.py:18-30 | the store is connected |
| Cache.CacheService.Cleanup | app/assistant/controller/cache_service.py:51-53 | the store is dropped |
| Models.ResponseTokens | app/assistant/controller/model_service.py:98 | the tokens from the prompt's length on, or none when the output is shorter than the prompt |
| Models.ResponseTokensAfterPrompt | app/assistant/controller/model_service.py:98 | the decoded tokens are exactly those after the prompt's length |
| Models.PostProcess | app/assistant/controller/model_service.py:100 | the output has no surrounding whitespace and is never longer than the decoded text; without a marker it is the stripped text |
| Models.EndMarkerCanReappear | app/assistant/controller/model_service.py:100 | one `replace` pass can leave an `<|end|>` in the output |
| Models.ApologyIsTrimmed | app/assistant/controller/model_service.py:103 | the generation apology has no surrounding whitespace |
| Models.Pairs | app/assistant/controller/model_service.py:131 | one `[query, doc]` pair per document, in document order |
| Models.ModelService.Initialize | app/assistant/controller/model_service.py:36-60 | without CUDA, loading fails with the CUDA error and nothing is loaded; otherwise all three models are set |
| Models.ModelService.Cleanup | app/assistant/controller/model_service.py:139-144 | all models are dropped |
| Models.RunPhi3Inference | app/assistant/controller/model_service.py:78-103 | the answer is the post-processed decoding of the tokens after the prompt; any failure gives the fixed apology; it never has surrounding whitespace |
| Models.AnalyzeQuery | app/assistant/controller/model_service.py:106-123 | a raising call falls back to the verbatim query with an empty filter; otherwise the model's structured output, possibly none |
| Models.RerankDocuments | app/assistant/controller/model_service.py:125-137 | on failure one neutral 0.5 per document; otherwise the scores the cross-encoder gives the pairs |
| Workflow.StateGraph.AddNode | app/assistant/controller/agent_service.py:48-51 | the node is registered, edges untouched |
| Workflow.StateGraph.SetEntryPoint | app/assistant/controller/agent_service.py:53 | the entry point is set, nothing else |
| Workflow.StateGraph.AddEdge | app/assistant/controller/agent_service.py:54 | the node's outgoing edge is a fixed target |
| Workflow.StateGraph.AddConditionalEdges | app/assistant/controller/agent_service.py:55-59 | the node's outgoing edge branches on `cache_hit` |
| Agent.AgentEdges | app/assistant/controller/agent_service.py:53-61 | every one of the four nodes has an outgoing edge, and only `check_cache` branches |
| Agent.AgentTrace | app/assistant/controller/agent_service.py:53-61 | from `query_construct`, a hit ends after `check_cache`, a miss runs retrieve and generate; at most four nodes; generation iff no hit |
| Agent.ConversationContext | app/assistant/controller/agent_service.py:69-75 | a first question gets the fixed first-question context |
| Agent.ContextWindow | app/assistant/controller/agent_service.py:69-75 | the context is the one or two messages before the latest, labelled User/Assistant and newline-joined |
| Agent.ContextIgnoresLatest | app/assistant/controller/agent_service.py:71 | the latest message never enters its own context |
| Agent.FilterWhereClause | app/assistant/controller/agent_service.py:94-96 | the dumped filter yields no clause iff it is empty, else one `$eq` per set field, company first |
| Agent.Zip | app/assistant/controller/agent_service.py:104 | scores and documents are paired index by index, up to the shorter list |
| Agent.SortByScore | app/assistant/controller/agent_service.py:104 | the sort keeps the number of entries |
| Agent.SortByScoreCorrect | app/assistant/controller/agent_service.py:104 | the sort is descending by score, a permutation, and keeps the input order among equal scores |
| Agent.TopScored | app/assistant/controller/agent_service.py:104-105 | the first two entries of the stable descending sort: at most two, drawn from the input, best first, and none left out scores higher than one kept |
| Agent.Sources | app/assistant/controller/agent_service.py:97-106 | no hits give no sources; otherwise the page contents of the top two scored pairs, at most two, all from the retrieved documents |
| Agent.SortTiesKeepsOrder | app/assistant/controller/agent_service.py:104 | when all scores are equal the sort returns its input unchanged |
| Agent.NeutralSources | app/assistant/controller/agent_service.py:97-106 | with the neutral 0.5 fallback scores the sources are the first two hits in search order |
| Agent.GenerationContext | app/assistant/controller/agent_service.py:111 | no sources give the fixed marker; otherwise every source occurs in the context |
| Agent.FinalAnswer | app/assistant/controller/agent_service.py:114-115 | an empty answer becomes the apology; the answer is never empty |
| Agent.BuildWorkflow | app/assistant/controller/agent_service.py:46-61 | a fresh graph with the four nodes, entry `query_construct` and the agent's transition table |
| Agent.AgentService.constructor | app/assistant/controller/agent_service.py:18-23 | no workflow yet; fresh model and cache services, the cache without a store handle |
| Agent.AgentService.InitializeServices | app/assistant/controller/agent_service.py:30-63 | a failed model load leaves no workflow; otherwise the built graph is the four nodes with the agent's transition table |
| Agent.AgentService.QueryConstruct | app/assistant/controller/agent_service.py:66-79 | the latest message and its context go to the analyser, whose result becomes the structured query |
| Agent.AgentService.CheckCache | app/assistant/controller/agent_service.py:81-90 | a non-empty cached response is appended as one AI message and sets the flag, and it is a stored response; a miss clears the flag, messages unchanged; no structured query or a raising cache search fails the node with nothing changed |
| Agent.AgentService.Retrieve | app/assistant/controller/agent_service.py:92-107 | the sources are the top two reranked hits of the hybrid search on the refined query and filter; a raising search fails the turn |
| Agent.AgentService.GenerateAnswer | app/assistant/controller/agent_service.py:109-118 | the answer, apology included, is cached under the refined query and then appended as one AI message; a raising cache write fails the node before the append |
| Agent.AgentService.RefineAndCheck | app/assistant/controller/agent_service.py:53-58 | the first two nodes fail exactly when the analyser raises, returns nothing, or the cache search raises; otherwise the structured query is the analyser's reply for the latest message and the conversation before it, and the turn is a hit exactly when the nearest entry of the search on the refined query over the old entries is near enough and non-empty, in which case that response is appended; a miss or a failure appends nothing |
| Agent.AgentService.RetrieveAndGenerate | app/assistant/controller/agent_service.py:58-61 | the miss branch fails exactly when the hybrid search raises or the cache write of the answer is rejected; otherwise the sources are the reranked top two of the hybrid search under the structured filter, and the appended and cached answer is the generation model's final answer over those sources; a failure appends and caches nothing |
| Agent.AgentService.RunGraph | app/assistant/controller/agent_service.py:53-61 | its outcome is the `Turn` of the state it started from: one run of the compiled graph fails exactly when the analyser, the cache search, the hybrid search or the cache write fails; a completed run appends exactly one AI message: on a hit the stored response of the nearest entry for the refined query, with nothing retrieved or cached; on a miss the final answer over the reranked hybrid-search sources, cached once under the refined query |
| Agent.AgentService.CompletedTurn | app/assistant/controller/agent_service.py:81-118 | a completed turn appends exactly one AI message after the input, and its text is a response the cache then holds; a miss adds exactly one cache entry and keeps at most two sources, a hit adds none |
| Agent.AgentService.ResumeAndRun | app/assistant/controller/agent_service.py:125-130 | the thread's checkpoint resumed with the new human message and run through the graph has the outcome `Turn` of those messages; after a failure the snapshot holds the human message and no answer, and the cache is unchanged |
| Agent.AgentService.ProcessSync | app/assistant/controller/agent_service.py:121-131 | an uninitialised service raises and stores nothing; otherwise the turn runs on the thread's stored messages followed by the human message, and fails exactly when its analyser, cache search, hybrid search or cache write fails; a completed turn appends exactly one AI message, on a hit the nearest entry's stored response with nothing retrieved or cached, on a miss the final answer over the reranked hybrid-search sources, cached once under the refined query; a failed turn caches nothing and leaves the thread stored with the human message and no answer; the other threads keep their checkpoints and the returned state is the stored one; a completed turn's answer is a response the cache holds, and a miss keeps at most two sources |
| Agent.AgentService.GetConversationHistory | app/assistant/controller/agent_service.py:133-150 | an uninitialised service raises; a missing state or a store error gives `[]`; otherwise the stored messages |
| Routes.RoleOf | app/assistant/routes.py:103 | human messages are the user's, every other message the assistant's |
| Routes.ToConversationMessages | app/assistant/routes.py:101-107 | the mapping keeps length, order and content |
| Routes.HistoryRoundTrip | app/assistant/routes.py:101-107 | each API message gives back the stored message it came from |
| Routes.HistoryOfAppend | app/assistant/routes.py:101-107 | mapping a longer history extends the mapped shorter one |
| Routes.GetMessages | app/assistant/routes.py:91-109 | a failing history call fails; an empty history is `[]`; otherwise the role/content mapping of every message |
| Routes.ResponseText | app/assistant/routes.py:70-74 | the last message's content if it is an AI message, else the fixed error |
| Routes.Chat | app/assistant/routes.py:43-74 | the response depends on the turn only; the name changes from "New Conversation" to the generated title exactly when a title is generated and saving it succeeds; otherwise it is kept |
| Routes.ResponseIgnoresNaming | app/assistant/routes.py:56-74 | title generation and renaming never change the response |
| Routes.CompletedTurnResponse | app/assistant/routes.py:70-71 | a turn that ends with the answer responds with that answer |
| Conversation.CleanTitle | app/conversation/controller/ConversationController.py:102 | whitespace, then `"`, then `'` are stripped; the result is never longer and ends in no single quote |
| Conversation.FirstWords | app/conversation/controller/ConversationController.py:109 | the first four words, or all of them when there are fewer |
| Conversation.GenerateConversationName | app/conversation/controller/ConversationController.py:86-113 | no title model or a raising call gives no title; a title exists iff the cleaned reply has a word; it has one to four words, the first words of the cleaned reply |
| Conversation.TitleWords | app/conversation/controller/ConversationController.py:108-109 | the single-space join of the kept words splits back into exactly those words and is not empty |
| Conversation.QuotedBlankTitle | app/conversation/controller/ConversationController.py:104-109 | `' '` is non-empty once cleaned, yet holds no word, so the title is none |
| Legacy.LegacyApology | nodes.py:173 | the fallback answer quotes the question |
| Legacy.LegacyState.constructor | main.py:18-20 | a run starts from the given messages with the other keys unset |
| Legacy.LegacyFilter | nodes.py:61-81 | a parsed reply gives its filter; a missing or failed one the empty filter |
| Legacy.LegacyWhereClause | nodes.py:93-105 | the inline clause is the one `_build_where_clause` builds from the dumped filter |
| Legacy.LegacyWhereClauseAgrees | nodes.py:95-105 | the inline clause equals the later `_build_where_clause` on the same filter, and is none iff the filter is empty |
| Legacy.LegacyEdges | graph.py:35-50 | every one of the four nodes has an outgoing edge, and only `check_cache` branches |
| Legacy.LegacyTrace | graph.py:22-50 | from `check_cache`, a hit ends at once, a miss runs the whole chain; at most four nodes; generation iff no hit |
| Legacy.HitTestsDiffer | nodes.py:24 | a near entry with an empty response is a hit for the earlier pipeline and a miss for the later one |
| Legacy.LegacyPipeline.constructor | graph.py:12-50 | the graph has the four nodes, entry `check_cache` and the earlier transition table |
| Legacy.LegacyPipeline.CheckCache | nodes.py:9-35 | a hit on the raw question appends the stored response as one AI message and sets the flag; a miss changes no message; a raising search fails with nothing changed |
| Legacy.LegacyPipeline.QueryConstruct | nodes.py:38-84 | the state's filter is the parsed one, or the empty filter |
| Legacy.LegacyPipeline.Retrieve | nodes.py:87-126 | the sources are the page contents of the k=3 search on the raw question; a raising search leaves none |
| Legacy.LegacyPipeline.GenerateAnswer | nodes.py:129-177 | a produced answer is appended and cached under the raw question; a raising model appends only the quoting apology; a raising cache write appends the apology after the answer; both failures cache nothing |
| Legacy.LegacyPipeline.RunChain | graph.py:48-50 | the miss chain sets the filter of the structured reply to the raw question and keeps the vector-search sources under that filter; it appends one AI message, or the answer and then the apology when the cache write raises; it caches under the raw question exactly when an answer was produced and stored |
| Legacy.LegacyPipeline.Invoke | graph.py:35-50 | the run fails exactly when the cache search on the raw question over the old entries raises, and then changes nothing; otherwise it is a hit exactly when that search's nearest entry is near enough, and a hit appends only that entry's response and neither refines, retrieves nor caches; a miss sets the structured filter, keeps the vector-search sources under it, appends one or two AI messages (two only when the cache write raised) and caches only a produced and stored answer |

## Left out

- Concurrency is not modelled: the Phi-3 and reranker locks, `asyncio.to_thread` and `gather`. Turns run one at a time.
- Checkpoint persistence of the current service (PostgresSaver, the psycopg deletes) is replaced by an in-memory map from thread id to the last state. Of the checkpoints LangGraph writes after the input and after every completed node, only the latest is kept. Since every node that can raise does so before it changes the state, the latest is the state at the point of failure.
- A failure of the checkpoint store itself while a turn runs is not modelled.
- The earlier variant's SqliteSaver checkpointer (graph.py:53-56), under the fixed thread id of main.py:6-24, carries query_filter, source_documents and cache_hit over from one run to the next; this carry-over is not modelled, and `Legacy.LegacyState` starts each run with those keys unset. It is unobservable: on every path each node writes its key (check_cache its hit flag, query_construct the filter, retrieve the sources) before any node reads it, and main.py shows only the last message.
- Redis TTL expiry is enforced by the store, not by this code.
- Scores and distances are abstract reals compared with the threshold. Reranker scores come back as a list (`tolist`).
- `add_messages` is plain appending; LangGraph's id-based merging is not modelled.
- Model internals are oracles: Gemini, Phi-3, the tokenizer, CrossEncoder, FastEmbed. So are the CUDA cache clearing in `cleanup` and `eval()`.
- Only the CUDA check is modelled as a failure of `initialize`; download and connection failures of the other services are not.
- `cleanup_services` is not modelled; the per-service `cleanup` methods are.
- Ownership checks and the 404s of the chat routes are not modelled. Neither are authentication, the ORM and the CRUD methods of `ConversationController`, which are persistence and crypto plumbing.
- The prompts' wording is not modelled; only what is passed into a prompt is.
- Bootstrap, configuration, static files and the `main.py` input loop are not modelled.
- The current variant does not catch a raising semantic or keyword search, so the model fails the turn there. Returning an empty result set instead would be the other reading; the model follows the code.
- The current variant does not check that the refined query is non-empty; the model does not assume it.
- `state.py` of the earlier variant is not part of this model. Its refinement is taken to keep only the filter, which is all `nodes.py` reads.
- Legacy.LegacyPipeline.Retrieve: it does not promise at most three sources. That holds only if the store honours `k=3`, which is the store's business.
- Models.PostProcess: it does not promise that the output is free of `<|end|>`. A single `replace` pass can re-form the marker (`Models.EndMarkerCanReappear`), so only marker-free input is promised to come back just stripped.
- Agent.AgentService.CheckCache: it requires a built workflow, whose `Agent.AgentService.Valid` invariant includes a connected cache. The failure of a lookup without a store handle is modelled in `Cache.CacheService.GetCachedResponse`.
- Cache.CacheService.AddDocuments: a write that raises is taken to store nothing. A partial write inside Redis is not modelled.
