/**
 * The orchestrator (app/assistant/controller/agent_service.py): the four-node graph
 * refine -> check cache -> (hit: END | miss: retrieve -> generate -> END), the nodes that
 * update the state in place, and the per-thread checkpoint store, kept in memory.
 */
module Agent {
  import opened Wrappers
  import opened Text
  import opened State
  import opened Retrieval
  import opened Cache
  import opened Models
  import opened Workflow

  const FirstQuestionContext: string := "This is the first question from the user."
  const NoDocumentsContext: string := "No relevant documents were found."
  const EmptyAnswerApology: string :=
    "I apologize, but I " + "was unable to generate " + "a response for this query."
  const NotInitialised: string :=
    "AgentService not " + "initialized. Call " + "initialize_services() first."
  const MissingStructuredQuery: string := "'NoneType' object has no attribute 'refined_query'"

  /** How many reranked passages are kept as sources. */
  const TopDocuments: nat := 2

  // ---------------------------------------------------------------------------------------
  // The transition table

  /** The edges `initialize_services` adds. */
  function AgentEdges(): (e: map<Node, Edge>)
    ensures e.Keys == {QueryConstructNode, CheckCacheNode, RetrieveNode, GenerateAnswerNode}
    ensures forall n :: n in e && e[n].OnCacheHit? ==> n == CheckCacheNode
  {
    map[QueryConstructNode := Always(To(CheckCacheNode)),
        CheckCacheNode := OnCacheHit(End, To(RetrieveNode)),
        RetrieveNode := Always(To(GenerateAnswerNode)),
        GenerateAnswerNode := Always(End)]
  }

  /**
   * A run starts at `query_construct`, ends after `check_cache` on a hit, and otherwise goes
   * on through `retrieve` and `generate_answer`; it visits at most four nodes, and
   * `generate_answer` runs exactly when there was no hit.
   */
  lemma AgentTrace(cacheHit: bool)
    ensures Trace(AgentEdges(), QueryConstructNode, cacheHit, 4) ==
      Some(if cacheHit then [QueryConstructNode, CheckCacheNode]
           else [QueryConstructNode, CheckCacheNode, RetrieveNode, GenerateAnswerNode])
    ensures var t := Trace(AgentEdges(), QueryConstructNode, cacheHit, 4).value;
      (GenerateAnswerNode in t <==> !cacheHit) && (RetrieveNode in t <==> !cacheHit)
  {
    var e := AgentEdges();
    assert Step(e, QueryConstructNode, cacheHit) == Some(To(CheckCacheNode));
    assert Step(e, CheckCacheNode, cacheHit) == Some(if cacheHit then End else To(RetrieveNode));
    assert Step(e, RetrieveNode, cacheHit) == Some(To(GenerateAnswerNode));
    assert Step(e, GenerateAnswerNode, cacheHit) == Some(End);
    assert Trace(e, GenerateAnswerNode, cacheHit, 1) == Some([GenerateAnswerNode]);
    assert Trace(e, RetrieveNode, cacheHit, 2) == Some([RetrieveNode] + [GenerateAnswerNode]);
    if cacheHit {
      assert Trace(e, CheckCacheNode, cacheHit, 3) == Some([CheckCacheNode]);
      assert Trace(e, QueryConstructNode, cacheHit, 4) == Some([QueryConstructNode] + [CheckCacheNode]);
      assert [QueryConstructNode] + [CheckCacheNode] == [QueryConstructNode, CheckCacheNode];
    } else {
      assert [RetrieveNode] + [GenerateAnswerNode] == [RetrieveNode, GenerateAnswerNode];
      assert Trace(e, CheckCacheNode, cacheHit, 3) == Some([CheckCacheNode] + [RetrieveNode, GenerateAnswerNode]);
      assert [CheckCacheNode] + [RetrieveNode, GenerateAnswerNode] == [CheckCacheNode, RetrieveNode, GenerateAnswerNode];
      assert [QueryConstructNode] + [CheckCacheNode, RetrieveNode, GenerateAnswerNode] ==
        [QueryConstructNode, CheckCacheNode, RetrieveNode, GenerateAnswerNode];
    }
  }

  // ---------------------------------------------------------------------------------------
  // Query refinement context

  /** One context line: `User: ...` for a human message, `Assistant: ...` for any other. */
  function Label(m: Message): string
  {
    (if m.HumanMessage? then "User" else "Assistant") + ": " + m.content
  }

  function Labels(ms: seq<Message>): (ls: seq<string>)
    ensures |ls| == |ms| && forall i :: 0 <= i < |ms| ==> ls[i] == Label(ms[i])
  {
    if ms == [] then [] else [Label(ms[0])] + Labels(ms[1..])
  }

  /** The refinement context: a fixed sentence for a first question, else `messages[-3:-1]` labelled. */
  function ConversationContext(messages: seq<Message>): (context: string)
    requires |messages| > 0
    ensures |messages| == 1 ==> context == FirstQuestionContext
  {
    var n := |messages|;
    if n == 1 then FirstQuestionContext
    else Join("\n", Labels(messages[(if n >= 3 then n - 3 else 0)..n - 1]))
  }

  /** The context holds the one or two messages before the latest, never the latest itself. */
  lemma ContextWindow(messages: seq<Message>)
    requires |messages| >= 2
    ensures var n := |messages|;
      ConversationContext(messages) ==
        if n == 2 then Label(messages[0])
        else Label(messages[n - 3]) + "\n" + Label(messages[n - 2])
  {
    var n := |messages|;
    var window := messages[(if n >= 3 then n - 3 else 0)..n - 1];
    var ls := Labels(window);
    if n >= 3 {
      assert window[0] == messages[n - 3] && window[1] == messages[n - 2];
      assert ls[1..] == [Label(messages[n - 2])];
      assert Join("\n", ls) == ls[0] + "\n" + Join("\n", ls[1..]);
    } else {
      assert window[0] == messages[0] && |ls| == 1;
    }
  }

  /** The latest message does not influence the context built for it. */
  lemma ContextIgnoresLatest(earlier: seq<Message>, a: Message, b: Message)
    requires |earlier| > 0
    ensures ConversationContext(earlier + [a]) == ConversationContext(earlier + [b])
  {
    var n := |earlier| + 1;
    var lo := if n >= 3 then n - 3 else 0;
    assert (earlier + [a])[lo..n - 1] == earlier[lo..] == (earlier + [b])[lo..n - 1];
  }

  // ---------------------------------------------------------------------------------------
  // Retrieval filter, reranking and generation context

  /** The filter the retrieve node hands to hybrid search, turned into a `where` clause. */
  lemma FilterWhereClause(m: Metadata)
    ensures BuildWhereClause(Some(Dump(m))).None? <==> m == NoFilter
    ensures m.company.Some? && m.category.Some? ==>
      BuildWhereClause(Some(Dump(m))) ==
        Some(And([Eq("company", TickerValue(m.company.value)), Eq("category", CategoryValue(m.category.value))]))
    ensures m.company.Some? && m.category.None? ==>
      BuildWhereClause(Some(Dump(m))) == Some(Single(Eq("company", TickerValue(m.company.value))))
    ensures m.company.None? && m.category.Some? ==>
      BuildWhereClause(Some(Dump(m))) == Some(Single(Eq("category", CategoryValue(m.category.value))))
  {
    CleanedDump(m);
    if m.company.Some? && m.category.Some? {
      assert Cleaned(Dump(m)) ==
        [Eq("company", TickerValue(m.company.value)), Eq("category", CategoryValue(m.category.value))];
    }
  }

  lemma CleanedDump(m: Metadata)
    ensures Cleaned(Dump(m)) ==
      (if m.company.Some? then [Eq("company", TickerValue(m.company.value))] else []) +
      (if m.category.Some? then [Eq("category", CategoryValue(m.category.value))] else [])
  {
    var items := Dump(m);
    assert items[1..][1..] == [];
    assert Cleaned(items[1..][1..]) == [];
    assert Cleaned(items[1..]) == if m.category.Some? then [Eq("category", CategoryValue(m.category.value))] else [];
  }

  type Scored = (real, Document)

  /** Python's `zip(scores, docs)`: pairs up to the shorter of the two. */
  function Zip(scores: seq<real>, docs: seq<Document>): (z: seq<Scored>)
    ensures |z| == if |scores| < |docs| then |scores| else |docs|
    ensures forall i :: 0 <= i < |z| ==> z[i] == (scores[i], docs[i])
  {
    if scores == [] || docs == [] then [] else [(scores[0], docs[0])] + Zip(scores[1..], docs[1..])
  }

  predicate SortedDesc(s: seq<Scored>)
  {
    forall i, j :: 0 <= i < j < |s| ==> s[i].0 >= s[j].0
  }

  /** `[a]` when `a` has score `v`, else nothing. */
  function Pick(a: Scored, v: real): seq<Scored>
  {
    if a.0 == v then [a] else []
  }

  /** The entries of `s` with score `v`, in order. */
  function WithScore(s: seq<Scored>, v: real): seq<Scored>
  {
    if s == [] then [] else Pick(s[0], v) + WithScore(s[1..], v)
  }

  /** Places `x` before every entry of `s` whose score is not higher. */
  function Insert(x: Scored, s: seq<Scored>): (r: seq<Scored>)
    ensures |r| == |s| + 1
  {
    if s == [] || x.0 >= s[0].0 then [x] + s else [s[0]] + Insert(x, s[1..])
  }

  /** `sorted(..., key=score, reverse=True)`. */
  function SortByScore(s: seq<Scored>): (sorted: seq<Scored>)
    ensures |sorted| == |s|
  {
    if s == [] then [] else Insert(s[0], SortByScore(s[1..]))
  }

  lemma WithScoreCons(a: Scored, s: seq<Scored>, v: real)
    ensures WithScore([a] + s, v) == Pick(a, v) + WithScore(s, v)
  {
    assert ([a] + s)[1..] == s;
  }

  lemma {:induction false} InsertPermutes(x: Scored, s: seq<Scored>)
    ensures multiset(Insert(x, s)) == multiset([x] + s)
  {
    if s == [] || x.0 >= s[0].0 {
    } else {
      InsertPermutes(x, s[1..]);
      assert s == [s[0]] + s[1..];
    }
  }

  /** An entry scoring at least as high as all of a sorted list can go in front of it. */
  lemma ConsSorted(a: Scored, r: seq<Scored>)
    requires SortedDesc(r)
    requires forall k :: 0 <= k < |r| ==> r[k].0 <= a.0
    ensures SortedDesc([a] + r)
  {
    var t := [a] + r;
    forall i, j | 0 <= i < j < |t| ensures t[i].0 >= t[j].0 {
      assert t[j] == r[j - 1];
      if i > 0 {
        assert t[i] == r[i - 1];
      }
    }
  }

  /** Every entry of `Insert(x, s)` is `x` or an entry of `s`. */
  lemma InsertDrawsFrom(x: Scored, s: seq<Scored>)
    ensures forall k :: 0 <= k < |Insert(x, s)| ==> Insert(x, s)[k] == x || Insert(x, s)[k] in s
  {
    InsertPermutes(x, s);
    var r := Insert(x, s);
    forall k | 0 <= k < |r| ensures r[k] == x || r[k] in s {
      assert r[k] in multiset(r);
      assert r[k] in multiset([x] + s);
      assert r[k] in [x] + s;
    }
  }

  lemma {:induction false} InsertSorted(x: Scored, s: seq<Scored>)
    requires SortedDesc(s)
    ensures SortedDesc(Insert(x, s))
  {
    if s == [] || x.0 >= s[0].0 {
      assert forall k :: 0 <= k < |s| ==> s[k].0 <= s[0].0;
      ConsSorted(x, s);
    } else {
      var tail := s[1..];
      assert SortedDesc(tail);
      InsertSorted(x, tail);
      InsertDrawsFrom(x, tail);
      var r := Insert(x, tail);
      assert Insert(x, s) == [s[0]] + r;
      assert forall k :: 0 <= k < |r| ==> r[k].0 <= s[0].0;
      ConsSorted(s[0], r);
    }
  }

  /** Two entries with different scores never both have score `v`, so their picks commute. */
  lemma PicksCommute(a: Scored, b: Scored, rest: seq<Scored>, v: real)
    requires a.0 != b.0
    ensures Pick(a, v) + (Pick(b, v) + rest) == Pick(b, v) + (Pick(a, v) + rest)
  {
    if a.0 == v {
      assert Pick(b, v) == [];
    } else {
      assert Pick(a, v) == [];
    }
  }

  lemma {:induction false} InsertKeepsOrder(x: Scored, s: seq<Scored>, v: real)
    ensures WithScore(Insert(x, s), v) == WithScore([x] + s, v)
  {
    if s == [] || x.0 >= s[0].0 {
    } else {
      var r := Insert(x, s[1..]);
      var tail := s[1..];
      assert Insert(x, s) == [s[0]] + r;
      assert s == [s[0]] + tail;
      InsertKeepsOrder(x, tail, v);
      WithScoreCons(s[0], r, v);
      WithScoreCons(x, tail, v);
      WithScoreCons(x, s, v);
      WithScoreCons(s[0], tail, v);
      PicksCommute(s[0], x, WithScore(tail, v), v);
    }
  }

  /**
   * The stable descending sort: scores never increase along the result, it is a permutation
   * of its input, and entries with equal scores keep their input order.
   */
  lemma {:induction false} SortByScoreCorrect(s: seq<Scored>)
    ensures SortedDesc(SortByScore(s))
    ensures multiset(SortByScore(s)) == multiset(s)
    ensures forall v :: WithScore(SortByScore(s), v) == WithScore(s, v)
  {
    if s != [] {
      SortByScoreCorrect(s[1..]);
      var rest := SortByScore(s[1..]);
      InsertSorted(s[0], rest);
      InsertPermutes(s[0], rest);
      assert s == [s[0]] + s[1..];
      forall v ensures WithScore(SortByScore(s), v) == WithScore(s, v) {
        InsertKeepsOrder(s[0], rest, v);
        WithScoreCons(s[0], rest, v);
        WithScoreCons(s[0], s[1..], v);
      }
    }
  }

  /** In a sorted sequence every entry of a prefix scores at least as high as any entry after it. */
  lemma SortedPrefixDominates(ranked: seq<Scored>, m: nat)
    requires SortedDesc(ranked) && m <= |ranked|
    ensures forall x, y :: x in ranked[m..] && y in ranked[..m] ==> y.0 >= x.0
  {
    forall x, y | x in ranked[m..] && y in ranked[..m] ensures y.0 >= x.0 {
      var j :| 0 <= j < |ranked| - m && ranked[m..][j] == x;
      var i :| 0 <= i < m && ranked[..m][i] == y;
      assert ranked[i] == y && ranked[m + j] == x;
    }
  }

  lemma TakeTop(scored: seq<Scored>, ranked: seq<Scored>, m: nat)
    requires SortedDesc(ranked) && multiset(ranked) == multiset(scored) && m <= |ranked|
    ensures SortedDesc(ranked[..m])
    ensures multiset(ranked[..m]) <= multiset(scored)
    ensures forall x, y :: x in multiset(scored) - multiset(ranked[..m]) && y in ranked[..m] ==> y.0 >= x.0
  {
    SortedPrefixDominates(ranked, m);
    assert ranked == ranked[..m] + ranked[m..];
    assert multiset(ranked) == multiset(ranked[..m]) + multiset(ranked[m..]);
    assert multiset(scored) - multiset(ranked[..m]) == multiset(ranked[m..]);
  }

  /**
   * `scored_docs[:2]`: the first two entries of the stable descending sort, so at most two
   * entries, highest score first, drawn from the input, and no entry left out scores higher
   * than one kept.
   */
  function TopScored(scored: seq<Scored>): (top: seq<Scored>)
    ensures |top| == if |scored| < TopDocuments then |scored| else TopDocuments
    ensures top == SortByScore(scored)[..|top|]
    ensures SortedDesc(top)
    ensures multiset(top) <= multiset(scored)
    ensures forall x, y :: x in multiset(scored) - multiset(top) && y in top ==> y.0 >= x.0
  {
    SortByScoreCorrect(scored);
    var ranked := SortByScore(scored);
    assert |ranked| == |scored| by { assert |multiset(ranked)| == |multiset(scored)|; }
    var m := if |ranked| < TopDocuments then |ranked| else TopDocuments;
    TakeTop(scored, ranked, m);
    ranked[..m]
  }

  /** The page contents of scored documents, in order. */
  function ScoredContents(top: seq<Scored>): (cs: seq<string>)
    ensures |cs| == |top| && forall i :: 0 <= i < |top| ==> cs[i] == top[i].1.pageContent
  {
    if top == [] then [] else [top[0].1.pageContent] + ScoredContents(top[1..])
  }

  lemma ZipFromDocs(scores: seq<real>, docs: seq<Document>, top: seq<Scored>)
    requires multiset(top) <= multiset(Zip(scores, docs))
    ensures forall k :: 0 <= k < |top| ==> top[k].1 in docs
  {
    var z := Zip(scores, docs);
    forall k | 0 <= k < |top| ensures top[k].1 in docs {
      assert top[k] in multiset(z);
      var i :| 0 <= i < |z| && z[i] == top[k];
    }
  }

  /** The sources the retrieve node keeps: none without hits, else the page contents of the top two. */
  function Sources(docs: seq<Document>, scores: seq<real>): (sources: seq<string>)
    ensures |sources| <= TopDocuments
    ensures docs == [] ==> sources == []
    ensures docs != [] ==> sources == ScoredContents(TopScored(Zip(scores, docs)))
    ensures forall s :: s in sources ==> s in Contents(docs)
  {
    if docs == [] then []
    else
      var top := TopScored(Zip(scores, docs));
      ZipFromDocs(scores, docs, top);
      ScoredContents(top)
  }

  /** Entries that all score `v` are all kept by `WithScore(_, v)`. */
  lemma {:induction false} WithScoreAll(s: seq<Scored>, v: real)
    requires forall i :: 0 <= i < |s| ==> s[i].0 == v
    ensures WithScore(s, v) == s
  {
    if s != [] {
      WithScoreAll(s[1..], v);
      assert s == [s[0]] + s[1..];
    }
  }

  /** When every entry has the same score, the stable sort leaves the order as it was. */
  lemma SortTiesKeepsOrder(s: seq<Scored>, v: real)
    requires forall i :: 0 <= i < |s| ==> s[i].0 == v
    ensures SortByScore(s) == s
  {
    SortByScoreCorrect(s);
    var sorted := SortByScore(s);
    forall i | 0 <= i < |sorted| ensures sorted[i].0 == v {
      assert sorted[i] in multiset(sorted);
      assert sorted[i] in multiset(s);
      var j :| 0 <= j < |s| && s[j] == sorted[i];
    }
    WithScoreAll(sorted, v);
    WithScoreAll(s, v);
  }

  /**
   * When reranking falls back to the neutral score, every passage ties and the sources are the
   * first two hits in their search order.
   */
  lemma NeutralSources(docs: seq<Document>)
    ensures var m := if |docs| < TopDocuments then |docs| else TopDocuments;
      Sources(docs, NeutralScores(|docs|)) == PageContents(docs)[..m]
  {
    if docs != [] {
      var z := Zip(NeutralScores(|docs|), docs);
      assert forall i :: 0 <= i < |z| ==> z[i] == (NeutralScore, docs[i]);
      SortTiesKeepsOrder(z, NeutralScore);
      TopContents(docs, z);
    }
  }

  /** The contents of the first two pairs of `docs` zipped with scores are the first two contents. */
  lemma TopContents(docs: seq<Document>, z: seq<Scored>)
    requires |z| == |docs| && SortByScore(z) == z
    requires forall i :: 0 <= i < |z| ==> z[i].1 == docs[i]
    ensures var m := if |docs| < TopDocuments then |docs| else TopDocuments;
      ScoredContents(TopScored(z)) == PageContents(docs)[..m]
  {
    var m := if |docs| < TopDocuments then |docs| else TopDocuments;
    var top := TopScored(z);
    assert top == z[..m];
    var cs := ScoredContents(top);
    forall i | 0 <= i < m ensures cs[i] == PageContents(docs)[..m][i] {
      assert top[i] == z[i];
    }
  }

  /** The context handed to the generator: the passages joined by a blank line, or a marker. */
  function GenerationContext(sources: seq<string>): (context: string)
    ensures sources == [] ==> context == NoDocumentsContext
    ensures forall i :: 0 <= i < |sources| ==> Contains(context, sources[i])
  {
    if sources == [] then NoDocumentsContext
    else
      forall i | 0 <= i < |sources| ensures Contains(Join("\n\n", sources), sources[i]) {
        JoinContainsPart("\n\n", sources, i);
      }
      Join("\n\n", sources)
  }

  /** An empty generation is replaced by an apology, so the answer is never empty. */
  function FinalAnswer(generated: string): (answer: string)
    ensures answer != ""
    ensures generated != "" ==> answer == generated
  {
    if generated == "" then EmptyAnswerApology else generated
  }

  /** The checkpoint of `threadId`, or an empty state when none exists. */
  function PriorState(checkpoints: map<string, Checkpoint>, threadId: string): Checkpoint
  {
    if threadId in checkpoints then checkpoints[threadId] else EmptyCheckpoint
  }

  /** `if cached_response:` in `check_cache`: only a non-empty stored response answers the turn. */
  function AgentHit(results: seq<(CacheEntry, real)>): Option<string>
  {
    var cached := CachedResponse(results);
    if cached.Some? && cached.value != "" then cached else None
  }

  /** The sources the retrieve node keeps from the hits `docs`, reranked against the refined query. */
  function SourcesFor(reranker: Option<CrossEncoder>, q: QueryConstruct, docs: seq<Document>): seq<string>
  {
    Sources(docs, RerankDocuments(reranker, q.refinedQuery, PageContents(docs)))
  }

  /** The answer the generate node gives to `question` from `sources`. */
  function AnswerFor(phi3: Option<Phi3>, question: string, sources: seq<string>): string
  {
    FinalAnswer(RunPhi3Inference(phi3, question, GenerationContext(sources), MaxNewTokens))
  }

  // ---------------------------------------------------------------------------------------
  // The service

  /** The graph wiring of `initialize_services`: four nodes, entry `query_construct`, the agent's table. */
  method BuildWorkflow() returns (g: StateGraph)
    ensures fresh(g)
    ensures g.nodes == {QueryConstructNode, CheckCacheNode, RetrieveNode, GenerateAnswerNode}
    ensures g.entry == Some(QueryConstructNode) && g.edges == AgentEdges()
  {
    g := new StateGraph();
    g.AddNode(QueryConstructNode);
    g.AddNode(CheckCacheNode);
    g.AddNode(RetrieveNode);
    g.AddNode(GenerateAnswerNode);
    g.SetEntryPoint(QueryConstructNode);
    g.AddEdge(QueryConstructNode, To(CheckCacheNode));
    g.AddConditionalEdges(CheckCacheNode, End, To(RetrieveNode));
    g.AddEdge(RetrieveNode, To(GenerateAnswerNode));
    g.AddEdge(GenerateAnswerNode, End);
  }

  class AgentService {
    var workflow: StateGraph?
    const modelService: ModelService
    const cacheService: CacheService
    const semanticSearch: SemanticSearch
    const keywordSearch: KeywordSearch
    /** The checkpoint store: the latest state of every thread. */
    var checkpoints: map<string, Checkpoint>

    /** Once the workflow exists it is the agent's table and the cache is connected. */
    ghost predicate Valid()
      reads this`workflow, workflow, cacheService`connected
    {
      workflow != null ==>
        workflow.edges == AgentEdges() && workflow.entry == Some(QueryConstructNode) && cacheService.connected
    }

    /** The hybrid-search hits the retrieve node obtains for a structured query. */
    function HitsFor(q: QueryConstruct): Option<seq<Document>>
    {
      HybridSearch(q.refinedQuery, Some(Dump(q.filter)), semanticSearch, keywordSearch)
    }

    /**
     * The ways a turn on `input` fails over the cache `entries`: the analyser raises or returns
     * nothing, the cache search raises, or, on a miss, hybrid search raises or the store rejects
     * the answer.
     */
    predicate TurnFails(input: seq<Message>, entries: seq<CacheEntry>)
      requires |input| > 0
      reads modelService
    {
      var question := LatestQuery(input);
      var a := AnalyzeQuery(modelService.gemini, question, ConversationContext(input));
      a.Failed? || a.value.None? ||
      (var q := a.value.value;
       var found := cacheService.search(entries, q.refinedQuery, LookupK);
       found.None? ||
       (AgentHit(found.value).None? &&
        (HitsFor(q).None? ||
         cacheService.rejects(entries, CacheEntry(q.refinedQuery, AnswerFor(modelService.phi3, question, SourcesFor(modelService.reranker, q, HitsFor(q).value)))))))
    }

    /**
     * The outcome of one run of the graph on `input`, over the sources `priorSources` and the
     * cache `entries`, ending in the state `last` with the cache at `after`. The run fails
     * exactly for the reasons `TurnFails` lists, and then the messages and the cache are as
     * they were. A completed run stores the analyser's structured query and appends one AI
     * message. On a hit it is the non-empty stored response of the lookup; the sources are
     * kept and nothing is cached. On a miss the sources are those of the hybrid-search hits,
     * and the answer generated from them is appended and cached once under the refined query.
     */
    predicate Turn(input: seq<Message>, priorSources: seq<string>, entries: seq<CacheEntry>,
                   failed: bool, last: Checkpoint, after: seq<CacheEntry>)
      requires |input| > 0
      reads modelService
    {
      && (failed <==> TurnFails(input, entries))
      && (failed ==> last.messages == input && after == entries)
      && (!failed ==>
            && AnalyzeQuery(modelService.gemini, LatestQuery(input), ConversationContext(input)) == Ok(last.structuredQuery)
            && last.structuredQuery.Some?)
      && (!failed ==>
            var q := last.structuredQuery.value;
            var found := cacheService.search(entries, q.refinedQuery, LookupK);
            && found.Some?
            && (last.cacheHit <==> AgentHit(found.value).Some?)
            && (last.cacheHit ==> last.messages == input + [AIMessage(AgentHit(found.value).value)]))
      && (!failed && last.cacheHit ==> after == entries && last.sourceDocuments == priorSources)
      && (!failed && !last.cacheHit ==>
            var q := last.structuredQuery.value;
            var answer := AnswerFor(modelService.phi3, LatestQuery(input), last.sourceDocuments);
            && HitsFor(q).Some?
            && last.sourceDocuments == SourcesFor(modelService.reranker, q, HitsFor(q).value)
            && last.messages == input + [AIMessage(answer)]
            && after == entries + [CacheEntry(q.refinedQuery, answer)])
    }

    /**
     * A completed run appends exactly one AI message, whose text is a response the cache then
     * holds; a miss keeps at most two sources and adds one entry, a hit adds none.
     */
    lemma CompletedTurn(input: seq<Message>, priorSources: seq<string>, entries: seq<CacheEntry>,
                        last: Checkpoint, after: seq<CacheEntry>)
      requires |input| > 0 && Turn(input, priorSources, entries, false, last, after)
      ensures |last.messages| == |input| + 1 && last.messages[..|input|] == input
      ensures last.messages[|input|].AIMessage?
      ensures exists e :: e in after && e.response == LatestQuery(last.messages)
      ensures last.cacheHit ==> after == entries
      ensures !last.cacheHit ==> |last.sourceDocuments| <= TopDocuments && |after| == |entries| + 1
    {
      var q := last.structuredQuery.value;
      var found := cacheService.search(entries, q.refinedQuery, LookupK);
      assert last.messages[..|input|] == input;
      if last.cacheHit {
        HitIsStoredResponse(entries, found.value);
      } else {
        var answer := AnswerFor(modelService.phi3, LatestQuery(input), last.sourceDocuments);
        assert CacheEntry(q.refinedQuery, answer) in after;
      }
    }

    constructor (cacheSearch: CacheSearch, cacheRejects: StoreRejects, cacheEntries: seq<CacheEntry>,
                 semantic: SemanticSearch, keyword: KeywordSearch, stored: map<string, Checkpoint>)
      ensures Valid() && workflow == null && checkpoints == stored
      ensures fresh(modelService) && fresh(cacheService)
      ensures cacheService.entries == cacheEntries && cacheService.search == cacheSearch
      ensures cacheService.rejects == cacheRejects && !cacheService.connected
      ensures semanticSearch == semantic && keywordSearch == keyword
    {
      workflow := null;
      modelService := new ModelService();
      cacheService := new CacheService(cacheSearch, cacheRejects, cacheEntries);
      semanticSearch, keywordSearch := semantic, keyword;
      checkpoints := stored;
    }

    /** `initialize_services`: loads the services, then wires the graph. */
    method InitializeServices(cudaAvailable: bool, phi3: Phi3, reranker: CrossEncoder, gemini: Gemini)
      returns (r: Result<()>)
      requires Valid()
      modifies this, modelService, cacheService`connected
      ensures Valid()
      ensures r.Failed? <==> !cudaAvailable
      ensures r.Failed? ==> workflow == old(workflow)
      ensures r.Ok? ==> fresh(workflow) && workflow.nodes == {QueryConstructNode, CheckCacheNode, RetrieveNode, GenerateAnswerNode}
      ensures r.Ok? ==> modelService.phi3 == Some(phi3) && modelService.reranker == Some(reranker) && modelService.gemini == Some(gemini)
      ensures checkpoints == old(checkpoints)
    {
      cacheService.Initialize();
      r := modelService.Initialize(cudaAvailable, phi3, reranker, gemini);
      if r.Failed? {
        return;
      }
      workflow := BuildWorkflow();
    }

    /** `query_construct`: refines the latest message in the light of the two before it. */
    method QueryConstruct(st: FinancialAnalysisState) returns (r: Result<()>)
      requires |st.messages| > 0
      modifies st`structuredQuery
      ensures var a := AnalyzeQuery(modelService.gemini, LatestQuery(st.messages), ConversationContext(st.messages));
        && (a.Failed? ==> r == Failed(a.error) && st.structuredQuery == old(st.structuredQuery))
        && (a.Ok? ==> r == Ok(()) && st.structuredQuery == a.value)
    {
      var query := LatestQuery(st.messages);
      var conversationContext := ConversationContext(st.messages);
      var structured := AnalyzeQuery(modelService.gemini, query, conversationContext);
      if structured.Failed? {
        return Failed(structured.error);
      }
      st.structuredQuery := structured.value;
      return Ok(());
    }

    /**
     * `check_cache`: a non-empty cached response for the refined query is appended as one AI
     * message and sets the flag; a miss clears the flag and leaves the messages alone. A missing
     * refinement or a raising cache search fails the node before it changes anything.
     */
    method CheckCache(st: FinancialAnalysisState) returns (r: Result<()>)
      requires Valid() && workflow != null
      modifies st`messages, st`cacheHit
      ensures r.Failed? ==> st.messages == old(st.messages) && st.cacheHit == old(st.cacheHit)
      ensures st.structuredQuery.None? ==> r == Failed(MissingStructuredQuery)
      ensures st.structuredQuery.Some? ==>
        var found := cacheService.search(cacheService.entries, st.structuredQuery.value.refinedQuery, LookupK);
        && (r.Failed? <==> found.None?)
        && (found.Some? ==>
              && (st.cacheHit <==> AgentHit(found.value).Some?)
              && st.messages == old(st.messages) + (if st.cacheHit then [AIMessage(AgentHit(found.value).value)] else []))
      ensures r.Ok? && st.cacheHit ==>
        |st.messages| > 0 && exists e :: e in cacheService.entries && e.response == LatestQuery(st.messages)
    {
      if st.structuredQuery.None? {
        return Failed(MissingStructuredQuery);
      }
      var refinedQuery := st.structuredQuery.value.refinedQuery;
      var cachedResponse := cacheService.GetCachedResponse(refinedQuery);
      if cachedResponse.Failed? {
        return Failed(cachedResponse.error);
      }
      if cachedResponse.value.Some? && cachedResponse.value.value != "" {
        st.AddMessages([AIMessage(cachedResponse.value.value)]);
        st.cacheHit := true;
      } else {
        st.cacheHit := false;
      }
      return Ok(());
    }

    /**
     * `retrieve`: hybrid search on the refined query and filter; without hits no sources and
     * no reranking, otherwise the two best-scored passages.
     */
    method Retrieve(st: FinancialAnalysisState) returns (r: Result<()>)
      requires st.structuredQuery.Some?
      modifies st`sourceDocuments
      ensures var q := st.structuredQuery.value;
        var hits := HitsFor(q);
        && (hits.None? ==> r.Failed? && st.sourceDocuments == old(st.sourceDocuments))
        && (hits.Some? ==> r == Ok(()) && st.sourceDocuments == SourcesFor(modelService.reranker, q, hits.value))
    {
      var refinedQuery := st.structuredQuery.value.refinedQuery;
      var metadataFilter := Dump(st.structuredQuery.value.filter);
      var docs := HybridSearch(refinedQuery, Some(metadataFilter), semanticSearch, keywordSearch);
      if docs.None? {
        return Failed("search backend raised");
      }
      if docs.value == [] {
        st.sourceDocuments := [];
      } else {
        var rerankedScores := RerankDocuments(modelService.reranker, refinedQuery, PageContents(docs.value));
        st.sourceDocuments := Sources(docs.value, rerankedScores);
      }
      return Ok(());
    }

    /**
     * `generate_answer`: answers the latest message from the sources, substitutes an apology
     * for an empty answer, caches the answer under the refined query and then appends it. A
     * cache write that raises fails the node before the answer is appended.
     */
    method GenerateAnswer(st: FinancialAnalysisState) returns (r: Result<()>)
      requires Valid() && workflow != null
      requires st.structuredQuery.Some? && |st.messages| > 0
      modifies st`messages, cacheService`entries
      ensures var answer := AnswerFor(modelService.phi3, LatestQuery(old(st.messages)), st.sourceDocuments);
        var entry := CacheEntry(st.structuredQuery.value.refinedQuery, answer);
        && (r.Ok? <==> !cacheService.rejects(old(cacheService.entries), entry))
        && (r.Ok? ==>
              && st.messages == old(st.messages) + [AIMessage(answer)]
              && cacheService.entries == old(cacheService.entries) + [entry])
        && (r.Failed? ==> st.messages == old(st.messages) && cacheService.entries == old(cacheService.entries))
    {
      var refinedQuery := st.structuredQuery.value.refinedQuery;
      var context := GenerationContext(st.sourceDocuments);
      var originalQuery := LatestQuery(st.messages);
      var answer := RunPhi3Inference(modelService.phi3, originalQuery, context, MaxNewTokens);
      if answer == "" {
        answer := EmptyAnswerApology;
      }
      var cached := cacheService.AddToCache(refinedQuery, answer);
      if cached.Failed? {
        return Failed(cached.error);
      }
      st.AddMessages([AIMessage(answer)]);
      return Ok(());
    }

    /**
     * The graph's first two nodes, `query_construct` then `check_cache`: the analyser's result
     * becomes the structured query; a non-empty stored response for its refined query is
     * appended as one AI message; a miss or a failure leaves the messages alone.
     */
    method RefineAndCheck(st: FinancialAnalysisState) returns (r: Result<()>)
      requires Valid() && workflow != null && |st.messages| > 0
      modifies st`structuredQuery, st`messages, st`cacheHit
      ensures var a := AnalyzeQuery(modelService.gemini, LatestQuery(old(st.messages)), ConversationContext(old(st.messages)));
        && (a.Failed? ==> r.Failed? && st.structuredQuery == old(st.structuredQuery))
        && (a.Ok? ==> st.structuredQuery == a.value)
        && (a.Ok? && a.value.None? ==> r == Failed(MissingStructuredQuery))
        && (a.Ok? && a.value.Some? ==>
              var found := cacheService.search(cacheService.entries, a.value.value.refinedQuery, LookupK);
              && (r.Failed? <==> found.None?)
              && (found.Some? ==>
                    && (st.cacheHit <==> AgentHit(found.value).Some?)
                    && (st.cacheHit ==> st.messages == old(st.messages) + [AIMessage(AgentHit(found.value).value)])))
      ensures r.Failed? || !st.cacheHit ==> st.messages == old(st.messages)
      ensures r.Ok? && st.cacheHit ==>
        |st.messages| > 0 && exists e :: e in cacheService.entries && e.response == LatestQuery(st.messages)
    {
      r := QueryConstruct(st);
      if r.Failed? {
        return;
      }
      r := CheckCache(st);
    }

    /**
     * The miss branch of the graph, `retrieve` then `generate_answer`: the sources are those of
     * the hybrid-search hits, and the answer generated from them is cached under the refined
     * query and appended as one AI message. The branch fails exactly when the search raises or
     * the store rejects the answer, and then appends and caches nothing.
     */
    method RetrieveAndGenerate(st: FinancialAnalysisState) returns (r: Result<()>)
      requires Valid() && workflow != null
      requires st.structuredQuery.Some? && |st.messages| > 0
      modifies st`sourceDocuments, st`messages, cacheService`entries
      ensures var q := st.structuredQuery.value;
        var hits := HitsFor(q);
        var question := LatestQuery(old(st.messages));
        && (r.Failed? <==>
              hits.None? ||
              cacheService.rejects(old(cacheService.entries), CacheEntry(q.refinedQuery, AnswerFor(modelService.phi3, question, SourcesFor(modelService.reranker, q, hits.value)))))
        && (hits.Some? ==> st.sourceDocuments == SourcesFor(modelService.reranker, q, hits.value))
        && (r.Ok? ==>
              && st.messages == old(st.messages) + [AIMessage(AnswerFor(modelService.phi3, question, st.sourceDocuments))]
              && cacheService.entries ==
                   old(cacheService.entries) + [CacheEntry(q.refinedQuery, AnswerFor(modelService.phi3, question, st.sourceDocuments))])
      ensures r.Failed? ==> st.messages == old(st.messages) && cacheService.entries == old(cacheService.entries)
      ensures r.Ok? ==> |st.sourceDocuments| <= TopDocuments
    {
      r := Retrieve(st);
      if r.Failed? {
        return;
      }
      assert |st.sourceDocuments| <= TopDocuments;
      r := GenerateAnswer(st);
    }

    /**
     * One run of the compiled graph on a state whose latest message is the question: from
     * `query_construct` through `check_cache`, then `retrieve` and `generate_answer` on a miss.
     * Its outcome is the `Turn` of the state it started from.
     */
    method RunGraph(st: FinancialAnalysisState) returns (r: Result<()>)
      requires Valid() && workflow != null && |st.messages| > 0
      modifies st, cacheService`entries
      ensures Turn(old(st.messages), old(st.sourceDocuments), old(cacheService.entries), r.Failed?, st.Snapshot(), cacheService.entries)
    {
      r := RefineAndCheck(st);
      if r.Failed? {
        return;
      }
      assert cacheService.entries == old(cacheService.entries);
      var next := Step(workflow.edges, CheckCacheNode, st.cacheHit);
      assert next == Some(if st.cacheHit then End else To(RetrieveNode));
      if next == Some(To(RetrieveNode)) {
        r := RetrieveAndGenerate(st);
      }
    }

    /**
     * LangGraph's `invoke` on a thread whose checkpoint is `prior`: the state resumed with the new
     * human message, run through the graph, and the snapshot the checkpointer keeps of it. Every
     * node raises before it changes the state, so the snapshot after a failure is the state at
     * the point of failure, with the human message and no answer. The outcome is the `Turn` of
     * the resumed messages.
     */
    method ResumeAndRun(prior: Checkpoint, query: string) returns (ok: Result<()>, stored: Checkpoint)
      requires Valid() && workflow != null
      modifies cacheService`entries
      ensures Turn(prior.messages + [HumanMessage(query)], prior.sourceDocuments, old(cacheService.entries), ok.Failed?, stored, cacheService.entries)
    {
      var st := new FinancialAnalysisState.Resume(prior, [HumanMessage(query)]);
      assert LatestQuery(st.messages) == query;
      ok := RunGraph(st);
      stored := st.Snapshot();
    }

    /**
     * `process_sync`: resumes the thread with the new human message and runs the graph; the
     * checkpointer stores the state after every completed step, so a completed turn stores the
     * final state and a turn that fails inside a node leaves the new human message stored
     * without an answer. The stored state is the `Turn` of the thread's checkpoint and the new
     * message, and the other threads keep theirs.
     */
    method ProcessSync(query: string, threadId: string) returns (r: Result<Checkpoint>)
      requires Valid()
      modifies this`checkpoints, cacheService`entries
      ensures Valid()
      ensures workflow == null ==> r == Failed(NotInitialised) && checkpoints == old(checkpoints)
      ensures workflow != null ==> threadId in checkpoints && checkpoints == old(checkpoints)[threadId := checkpoints[threadId]]
      ensures workflow != null ==>
        var prior := PriorState(old(checkpoints), threadId);
        Turn(prior.messages + [HumanMessage(query)], prior.sourceDocuments, old(cacheService.entries), r.Failed?, checkpoints[threadId], cacheService.entries)
      ensures r.Ok? ==> r.value == checkpoints[threadId]
      ensures r.Ok? ==> exists e :: e in cacheService.entries && e.response == LatestQuery(r.value.messages)
      ensures r.Ok? && !r.value.cacheHit ==> |r.value.sourceDocuments| <= TopDocuments
    {
      if workflow == null {
        return Failed(NotInitialised);
      }
      var prior := PriorState(checkpoints, threadId);
      var ok, stored := ResumeAndRun(prior, query);
      if ok.Ok? {
        CompletedTurn(prior.messages + [HumanMessage(query)], prior.sourceDocuments, old(cacheService.entries), stored, cacheService.entries);
      }
      checkpoints := checkpoints[threadId := stored];
      if ok.Failed? {
        return Failed(ok.error);
      }
      return Ok(stored);
    }

    /** `get_conversation_history_sync`: the stored messages, `[]` without a state or on a store error. */
    method GetConversationHistory(threadId: string, storeError: bool) returns (r: Result<seq<Message>>)
      ensures workflow == null ==> r == Failed(NotInitialised)
      ensures workflow != null ==> r.Ok?
      ensures workflow != null && (storeError || threadId !in checkpoints) ==> r == Ok([])
      ensures workflow != null && !storeError && threadId in checkpoints ==> r == Ok(checkpoints[threadId].messages)
    {
      if workflow == null {
        return Failed(NotInitialised);
      }
      if storeError || threadId !in checkpoints {
        return Ok([]);
      }
      return Ok(checkpoints[threadId].messages);
    }
  }
}
