/**
 * The earlier pipeline (nodes.py and graph.py): the cache is consulted first, on the user's
 * raw text, before any refinement; retrieval and generation failures are absorbed inside the
 * nodes; only successful answers are cached.
 */
module Legacy {
  import opened Wrappers
  import opened Text
  import opened State
  import opened Retrieval
  import opened Cache
  import opened Models
  import opened Workflow
  import Agent

  /** The number of passages the vector store is asked for. */
  const LegacyK: nat := 3

  const ApologyPrefix: string := "I apologize, but I encountered an error " + "while processing your query: '"
  const ApologySuffix: string := "'. Please try again."

  /** The fallback answer when generation raises; it quotes the question. */
  function LegacyApology(query: string): (text: string)
    ensures Contains(text, query)
  {
    var text := ApologyPrefix + query + ApologySuffix;
    assert text[|ApologyPrefix|..|ApologyPrefix| + |query|] == query;
    assert OccursAt(text, query, |ApologyPrefix|);
    text
  }

  /** The structured-output model of the earlier pipeline: the raw question only. */
  type LegacyStructured = string -> StructuredReply

  /** The answering model: (context, question) to the answer, `None` when the call raises. */
  type LegacyLlm = (string, string) -> Option<string>

  /** The earlier state: the refinement keeps only its filter. */
  class LegacyState {
    var messages: seq<Message>
    var queryFilter: Option<Metadata>
    var sourceDocuments: seq<string>
    var cacheHit: bool

    /** A state for one run: the given messages, the other keys unset. */
    constructor (messages: seq<Message>)
      ensures this.messages == messages && queryFilter.None? && sourceDocuments == [] && !cacheHit
    {
      this.messages := messages;
      queryFilter := None;
      sourceDocuments := [];
      cacheHit := false;
    }
  }

  /** The filter a structured reply leaves: the parsed one, or no constraint at all. */
  function LegacyFilter(reply: StructuredReply): (filter: Metadata)
    ensures reply.Parsed? ==> filter == reply.value.filter
    ensures !reply.Parsed? ==> filter == NoFilter
  {
    if reply.Parsed? then reply.value.filter else NoFilter
  }

  /** The inline `where` clause of `retrieve`: built from the set keys only. */
  function LegacyWhereClause(m: Metadata): (w: Option<Where>)
    ensures w == BuildWhereClause(Some(Dump(m)))
  {
    var cleanedFilter := Cleaned(Dump(m));
    if |cleanedFilter| > 1 then Some(And(cleanedFilter))
    else if |cleanedFilter| == 1 then Some(Single(cleanedFilter[0]))
    else None
  }

  /** The inline clause is the one the later `_build_where_clause` produces for the same filter. */
  lemma LegacyWhereClauseAgrees(m: Metadata)
    ensures LegacyWhereClause(m) == BuildWhereClause(Some(Dump(m)))
    ensures LegacyWhereClause(m).None? <==> m == NoFilter
  {
    Agent.FilterWhereClause(m);
  }

  /** The graph of `create_graph`. */
  function LegacyEdges(): (e: map<Node, Edge>)
    ensures e.Keys == {CheckCacheNode, QueryConstructNode, RetrieveNode, GenerateAnswerNode}
    ensures forall n :: n in e && e[n].OnCacheHit? ==> n == CheckCacheNode
  {
    map[CheckCacheNode := OnCacheHit(End, To(QueryConstructNode)),
        QueryConstructNode := Always(To(RetrieveNode)),
        RetrieveNode := Always(To(GenerateAnswerNode)),
        GenerateAnswerNode := Always(End)]
  }

  /**
   * A run starts at `check_cache`: a hit ends it at once, a miss runs the whole chain; every run
   * stops within four nodes and `generate_answer` runs exactly when there was no hit.
   */
  lemma LegacyTrace(cacheHit: bool)
    ensures Trace(LegacyEdges(), CheckCacheNode, cacheHit, 4) ==
      Some(if cacheHit then [CheckCacheNode]
           else [CheckCacheNode, QueryConstructNode, RetrieveNode, GenerateAnswerNode])
    ensures var t := Trace(LegacyEdges(), CheckCacheNode, cacheHit, 4).value;
      (GenerateAnswerNode in t <==> !cacheHit) && (QueryConstructNode in t <==> !cacheHit)
  {
    var e := LegacyEdges();
    assert Step(e, CheckCacheNode, cacheHit) == Some(if cacheHit then End else To(QueryConstructNode));
    assert Step(e, QueryConstructNode, cacheHit) == Some(To(RetrieveNode));
    assert Step(e, RetrieveNode, cacheHit) == Some(To(GenerateAnswerNode));
    assert Step(e, GenerateAnswerNode, cacheHit) == Some(End);
    if !cacheHit {
      assert Trace(e, GenerateAnswerNode, cacheHit, 1) == Some([GenerateAnswerNode]);
      assert Trace(e, RetrieveNode, cacheHit, 2) == Some([RetrieveNode] + [GenerateAnswerNode]);
      assert [RetrieveNode] + [GenerateAnswerNode] == [RetrieveNode, GenerateAnswerNode];
      assert Trace(e, QueryConstructNode, cacheHit, 3) == Some([QueryConstructNode] + [RetrieveNode, GenerateAnswerNode]);
      assert [QueryConstructNode] + [RetrieveNode, GenerateAnswerNode] == [QueryConstructNode, RetrieveNode, GenerateAnswerNode];
      assert [CheckCacheNode] + [QueryConstructNode, RetrieveNode, GenerateAnswerNode] ==
        [CheckCacheNode, QueryConstructNode, RetrieveNode, GenerateAnswerNode];
    }
  }

  /**
   * The earlier hit test counts any near entry, even one whose stored response is empty; the
   * later one wants a non-empty response too. On a near entry with an empty response the two
   * part ways: the earlier pipeline answers `""` from the cache, the later one runs retrieval.
   */
  lemma HitTestsDiffer(e: CacheEntry, distance: real)
    requires e.response == "" && 1.0 - distance >= CacheHitThreshold
    ensures CachedResponse([(e, distance)]).Some?
    ensures !(CachedResponse([(e, distance)]).Some? && CachedResponse([(e, distance)]).value != "")
  {
  }

  /** The earlier pipeline: the nodes of nodes.py over the stores of config.py, wired by `create_graph`. */
  class LegacyPipeline {
    const cacheStore: CacheService
    const chromaSearch: SemanticSearch
    const structured: LegacyStructured
    const llm: LegacyLlm
    const workflow: StateGraph

    /** `create_graph`, without its SQLite checkpointer. */
    constructor (cacheStore: CacheService, chromaSearch: SemanticSearch, structured: LegacyStructured, llm: LegacyLlm)
      ensures this.cacheStore == cacheStore && this.chromaSearch == chromaSearch
      ensures this.structured == structured && this.llm == llm
      ensures fresh(workflow)
      ensures workflow.nodes == {CheckCacheNode, QueryConstructNode, RetrieveNode, GenerateAnswerNode}
      ensures workflow.entry == Some(CheckCacheNode) && workflow.edges == LegacyEdges()
    {
      this.cacheStore := cacheStore;
      this.chromaSearch := chromaSearch;
      this.structured := structured;
      this.llm := llm;
      var g := new StateGraph();
      g.AddNode(CheckCacheNode);
      g.AddNode(QueryConstructNode);
      g.AddNode(RetrieveNode);
      g.AddNode(GenerateAnswerNode);
      g.SetEntryPoint(CheckCacheNode);
      g.AddConditionalEdges(CheckCacheNode, End, To(QueryConstructNode));
      g.AddEdge(QueryConstructNode, To(RetrieveNode));
      g.AddEdge(RetrieveNode, To(GenerateAnswerNode));
      g.AddEdge(GenerateAnswerNode, End);
      workflow := g;
    }

    /** The sources `retrieve` keeps for the raw question under a filter: none when the search raises. */
    function RetrievedFor(question: string, filter: Metadata): seq<string>
    {
      var found := chromaSearch(question, LegacyWhereClause(filter), LegacyK);
      if found.None? then [] else PageContents(found.value)
    }

    /**
     * `check_cache` on the raw latest message: a near entry is a hit, whatever its response; a
     * raising search is not caught and aborts the run before anything changes.
     */
    method CheckCache(st: LegacyState) returns (r: Result<()>)
      requires |st.messages| > 0
      modifies st`messages, st`cacheHit
      ensures var found := cacheStore.search(cacheStore.entries, LatestQuery(old(st.messages)), LookupK);
        && (r.Failed? <==> found.None?)
        && (found.None? ==> st.messages == old(st.messages) && st.cacheHit == old(st.cacheHit))
        && (found.Some? ==>
              var cached := CachedResponse(found.value);
              && (st.cacheHit <==> cached.Some?)
              && st.messages == old(st.messages) + (if cached.Some? then [AIMessage(cached.value)] else []))
    {
      var query := LatestQuery(st.messages);
      var results := cacheStore.search(cacheStore.entries, query, LookupK);
      if results.None? {
        return Failed("similarity search raised");
      }
      if |results.value| > 0 && 1.0 - results.value[0].1 >= CacheHitThreshold {
        var cachedAnswer := results.value[0].0.response;
        st.cacheHit := true;
        st.messages := st.messages + [AIMessage(cachedAnswer)];
      } else {
        st.cacheHit := false;
      }
      return Ok(());
    }

    /** `query_construct`: a missing or failed structured reply leaves an empty filter. */
    method QueryConstruct(st: LegacyState)
      requires |st.messages| > 0
      modifies st`queryFilter
      ensures st.queryFilter == Some(LegacyFilter(structured(LatestQuery(st.messages))))
    {
      var query := LatestQuery(st.messages);
      var output := structured(query);
      if output.Parsed? {
        st.queryFilter := Some(output.value.filter);
      } else {
        st.queryFilter := Some(NoFilter);
      }
    }

    /** `retrieve`: the raw latest message against the vector store; a failure leaves no sources. */
    method Retrieve(st: LegacyState)
      requires |st.messages| > 0 && st.queryFilter.Some?
      modifies st`sourceDocuments
      ensures var found := chromaSearch(LatestQuery(st.messages), LegacyWhereClause(st.queryFilter.value), LegacyK);
        && (found.None? ==> st.sourceDocuments == [])
        && (found.Some? ==> st.sourceDocuments == PageContents(found.value))
    {
      var queryText := LatestQuery(st.messages);
      var whereClause := LegacyWhereClause(st.queryFilter.value);
      var retrievedDocs := chromaSearch(queryText, whereClause, LegacyK);
      if retrievedDocs.None? {
        st.sourceDocuments := [];
      } else {
        st.sourceDocuments := PageContents(retrievedDocs.value);
      }
    }

    /**
     * `generate_answer`: a produced answer is appended and then cached under the raw question.
     * Both steps sit in one `try`: when the answering model raises, only the apology is
     * appended; when the cache write raises, the apology follows the answer already appended,
     * and nothing is cached.
     */
    method GenerateAnswer(st: LegacyState)
      requires |st.messages| > 0
      modifies st`messages, cacheStore`entries
      ensures var query := LatestQuery(old(st.messages));
        var answer := llm(Agent.GenerationContext(st.sourceDocuments), query);
        && (answer.Some? && !cacheStore.rejects(old(cacheStore.entries), CacheEntry(query, answer.value)) ==>
              && st.messages == old(st.messages) + [AIMessage(answer.value)]
              && cacheStore.entries == old(cacheStore.entries) + [CacheEntry(query, answer.value)])
        && (answer.Some? && cacheStore.rejects(old(cacheStore.entries), CacheEntry(query, answer.value)) ==>
              && st.messages == old(st.messages) + [AIMessage(answer.value), AIMessage(LegacyApology(query))]
              && cacheStore.entries == old(cacheStore.entries))
        && (answer.None? ==>
              && st.messages == old(st.messages) + [AIMessage(LegacyApology(query))]
              && cacheStore.entries == old(cacheStore.entries))
    {
      var originalQuery := LatestQuery(st.messages);
      var context := Agent.GenerationContext(st.sourceDocuments);
      var answerMessage := llm(context, originalQuery);
      var failed := answerMessage.None?;
      if answerMessage.Some? {
        st.messages := st.messages + [AIMessage(answerMessage.value)];
        var stored := cacheStore.AddDocuments(CacheEntry(originalQuery, answerMessage.value));
        failed := !stored;
      }
      if failed {
        st.messages := st.messages + [AIMessage(LegacyApology(originalQuery))];
      }
    }

    /**
     * The miss branch, `query_construct` then `retrieve` then `generate_answer`: the filter of
     * the structured reply, the sources of the vector search under it, and one AI message,
     * or two (the answer, then the apology) when the cache write raises; a cache entry under
     * the raw question exactly when an answer was produced and stored.
     */
    method RunChain(st: LegacyState)
      requires |st.messages| > 0
      modifies st`queryFilter, st`sourceDocuments, st`messages, cacheStore`entries
      ensures
        var n := |old(st.messages)|;
        var query := LatestQuery(old(st.messages));
        var produced := llm(Agent.GenerationContext(st.sourceDocuments), query);
        var rejected := produced.Some? && cacheStore.rejects(old(cacheStore.entries), CacheEntry(query, produced.value));
        && st.queryFilter == Some(LegacyFilter(structured(query)))
        && st.sourceDocuments == RetrievedFor(query, LegacyFilter(structured(query)))
        && |st.messages| == n + (if rejected then 2 else 1)
        && st.messages[..n] == old(st.messages)
        && (forall i :: n <= i < |st.messages| ==> st.messages[i].AIMessage?)
        && (produced.Some? ==> st.messages[n].content == produced.value)
        && (produced.Some? && !rejected ==>
              cacheStore.entries == old(cacheStore.entries) + [CacheEntry(query, produced.value)])
        && (produced.None? || rejected ==>
              LatestQuery(st.messages) == LegacyApology(query)
              && cacheStore.entries == old(cacheStore.entries))
    {
      QueryConstruct(st);
      Retrieve(st);
      GenerateAnswer(st);
      assert st.messages[..|old(st.messages)|] == old(st.messages);
    }

    /**
     * One `invoke` of the compiled graph. The cache search on the raw question decides: when
     * it raises, the run aborts with nothing changed; a near entry is a hit answered with its
     * stored response. Otherwise the run appends one AI message, or two when the cache write raises;
     * a hit neither refines, retrieves, generates nor caches; a miss caches at most one entry,
     * keyed by the raw question, and only when an answer was produced and stored.
     */
    method Invoke(st: LegacyState) returns (r: Result<()>)
      requires |st.messages| > 0
      requires workflow.edges == LegacyEdges()
      modifies st, cacheStore`entries
      ensures r.Failed? <==> cacheStore.search(old(cacheStore.entries), LatestQuery(old(st.messages)), LookupK).None?
      ensures r.Failed? ==> st.messages == old(st.messages) && cacheStore.entries == old(cacheStore.entries)
      ensures r.Ok? ==>
        var found := cacheStore.search(old(cacheStore.entries), LatestQuery(old(st.messages)), LookupK).value;
        && (st.cacheHit <==> CachedResponse(found).Some?)
        && (st.cacheHit ==> st.messages == old(st.messages) + [AIMessage(CachedResponse(found).value)])
      ensures r.Ok? ==>
        && |old(st.messages)| < |st.messages| <= |old(st.messages)| + 2
        && st.messages[..|old(st.messages)|] == old(st.messages)
        && forall i :: |old(st.messages)| <= i < |st.messages| ==> st.messages[i].AIMessage?
      ensures r.Ok? && st.cacheHit ==>
        && |st.messages| == |old(st.messages)| + 1
        && cacheStore.entries == old(cacheStore.entries)
        && st.queryFilter == old(st.queryFilter)
        && st.sourceDocuments == old(st.sourceDocuments)
      ensures r.Ok? && !st.cacheHit ==>
        var query := LatestQuery(old(st.messages));
        var produced := llm(Agent.GenerationContext(st.sourceDocuments), query);
        var rejected := produced.Some? && cacheStore.rejects(old(cacheStore.entries), CacheEntry(query, produced.value));
        && st.queryFilter == Some(LegacyFilter(structured(query)))
        && st.sourceDocuments == RetrievedFor(query, LegacyFilter(structured(query)))
        && (|st.messages| == |old(st.messages)| + 2 <==> rejected)
        && (produced.Some? ==> st.messages[|old(st.messages)|].content == produced.value)
        && (produced.Some? && !rejected ==>
              cacheStore.entries == old(cacheStore.entries) + [CacheEntry(query, produced.value)])
        && (produced.None? || rejected ==>
              LatestQuery(st.messages) == LegacyApology(query)
              && cacheStore.entries == old(cacheStore.entries))
    {
      r := CheckCache(st);
      if r.Failed? {
        return;
      }
      var next := Step(workflow.edges, CheckCacheNode, st.cacheHit);
      assert next == Some(if st.cacheHit then End else To(QueryConstructNode));
      if next == Some(To(QueryConstructNode)) {
        RunChain(st);
      }
    }
  }
}
