/**
 * Hybrid retrieval (app/assistant/controller/retrieval_service.py): the Chroma `where`
 * clause built from a metadata filter, de-duplication by page content, and the merge of
 * the semantic and keyword branches. Both search backends are oracles.
 */
module Retrieval {
  import opened Wrappers

  /** A retrieved passage: its text and the metadata the store keeps beside it. */
  datatype Document = Document(pageContent: string, metadata: map<string, string>)

  /** `{key: {"$eq": value}}`. */
  datatype Condition = Eq(key: string, value: string)

  /** A Chroma `where` clause: one condition, or `{"$and": [...]}` over several. */
  datatype Where = Single(cond: Condition) | And(conds: seq<Condition>)

  /** A metadata filter as a dictionary: (key, value) items in insertion order. */
  type FilterItems = seq<(string, Option<string>)>

  /** The dictionary comprehension that drops every item whose value is `None`. */
  function Cleaned(items: FilterItems): (cs: seq<Condition>)
    ensures |cs| <= |items|
    ensures forall c :: c in cs ==> (c.key, Some(c.value)) in items
    ensures forall i :: 0 <= i < |items| && items[i].1.Some? ==> Eq(items[i].0, items[i].1.value) in cs
  {
    if items == [] then []
    else
      var rest := Cleaned(items[1..]);
      assert forall c :: c in rest ==> (c.key, Some(c.value)) in items[1..];
      if items[0].1.Some? then [Eq(items[0].0, items[0].1.value)] + rest else rest
  }

  /** `_build_where_clause`: no clause for a missing, empty or all-`None` filter. */
  function BuildWhereClause(filter: Option<FilterItems>): (w: Option<Where>)
    ensures w.None? <==> filter.None? || Cleaned(filter.value) == []
    ensures filter.Some? ==> Conditions(w) == Cleaned(filter.value)
  {
    if filter.None? || filter.value == [] then None
    else
      var cs := Cleaned(filter.value);
      if cs == [] then None
      else if |cs| > 1 then Some(And(cs))
      else Some(Single(cs[0]))
  }

  /** The equality constraints a clause imposes; no clause imposes none. */
  function Conditions(w: Option<Where>): seq<Condition>
  {
    match w
    case None => []
    case Some(Single(c)) => [c]
    case Some(And(cs)) => cs
  }

  /** Document metadata `meta` passes the clause `w`. */
  predicate Satisfies(meta: map<string, string>, w: Option<Where>)
  {
    forall c :: c in Conditions(w) ==> c.key in meta && meta[c.key] == c.value
  }

  /**
   * The clause is built from exactly the items whose value is set, in key order: none gives
   * no clause, one gives a single `$eq`, two or more give `$and` over one `$eq` per item.
   */
  lemma WhereClauseShape(filter: Option<FilterItems>)
    ensures var cs := if filter.None? then [] else Cleaned(filter.value);
      && Conditions(BuildWhereClause(filter)) == cs
      && (BuildWhereClause(filter).None? <==> |cs| == 0)
      && (BuildWhereClause(filter).Some? && BuildWhereClause(filter).value.Single? <==> |cs| == 1)
      && (BuildWhereClause(filter).Some? && BuildWhereClause(filter).value.And? <==> |cs| >= 2)
  {
    if filter.Some? && filter.value == [] {
      assert Cleaned(filter.value) == [];
    }
  }

  /** A document passes the clause exactly when its metadata agrees with every set item. */
  lemma WhereClauseMeaning(items: FilterItems, meta: map<string, string>)
    ensures Satisfies(meta, BuildWhereClause(Some(items))) <==>
      forall i :: 0 <= i < |items| && items[i].1.Some? ==>
        items[i].0 in meta && meta[items[i].0] == items[i].1.value
  {
    WhereClauseShape(Some(items));
    var cs := Cleaned(items);
    if Satisfies(meta, BuildWhereClause(Some(items))) {
      forall i | 0 <= i < |items| && items[i].1.Some?
        ensures items[i].0 in meta && meta[items[i].0] == items[i].1.value
      {
        assert Eq(items[i].0, items[i].1.value) in cs;
      }
    }
  }

  /** `[doc.page_content for doc in docs]`. */
  function PageContents(docs: seq<Document>): (cs: seq<string>)
    ensures |cs| == |docs| && forall i :: 0 <= i < |docs| ==> cs[i] == docs[i].pageContent
  {
    if docs == [] then [] else [docs[0].pageContent] + PageContents(docs[1..])
  }

  /** The set of page contents in `docs`. */
  function Contents(docs: seq<Document>): set<string>
  {
    set d | d in docs :: d.pageContent
  }

  /** No earlier document of `docs` has the same page content as `docs[i]`. */
  predicate IsFirst(docs: seq<Document>, i: nat)
    requires i < |docs|
  {
    forall j :: 0 <= j < i ==> docs[j].pageContent != docs[i].pageContent
  }

  /** The first occurrence of every page content, in the original order. */
  function Deduplicate(docs: seq<Document>): seq<Document>
  {
    if docs == [] then []
    else
      var n := |docs| - 1;
      Deduplicate(docs[..n]) + (if IsFirst(docs, n) then [docs[n]] else [])
  }

  /** No two documents of `docs` share a page content. */
  predicate DistinctContents(docs: seq<Document>)
  {
    forall i, j :: 0 <= i < j < |docs| ==> docs[i].pageContent != docs[j].pageContent
  }

  /** `_deduplicate_documents`: one pass that grows the set of seen contents. */
  method DeduplicateDocuments(documents: seq<Document>) returns (uniqueDocs: seq<Document>)
    ensures uniqueDocs == Deduplicate(documents)
  {
    var seenContents: set<string> := {};
    uniqueDocs := [];
    for k := 0 to |documents|
      invariant uniqueDocs == Deduplicate(documents[..k])
      invariant seenContents == Contents(uniqueDocs)
    {
      var doc := documents[k];
      DeduplicateStep(documents, k);
      if doc.pageContent !in seenContents {
        ContentsAppend(uniqueDocs, doc);
        seenContents := seenContents + {doc.pageContent};
        uniqueDocs := uniqueDocs + [doc];
      }
    }
    assert documents[..|documents|] == documents;
  }

  /** One more document: it is kept exactly when its content was not kept before. */
  lemma DeduplicateStep(documents: seq<Document>, k: nat)
    requires k < |documents|
    ensures Deduplicate(documents[..k + 1]) ==
      Deduplicate(documents[..k]) +
        (if documents[k].pageContent !in Contents(Deduplicate(documents[..k])) then [documents[k]] else [])
  {
    var prefix := documents[..k + 1];
    assert prefix[..k] == documents[..k] && prefix[k] == documents[k];
    DeduplicateContents(documents[..k]);
    FirstIffUnseen(prefix);
  }

  lemma ContentsAppend(docs: seq<Document>, d: Document)
    ensures Contents(docs + [d]) == Contents(docs) + {d.pageContent}
  {
    assert forall e :: e in docs + [d] <==> e in docs || e == d;
  }

  /** The last document is a first occurrence exactly when its content is new to the prefix. */
  lemma FirstIffUnseen(docs: seq<Document>)
    requires docs != []
    ensures IsFirst(docs, |docs| - 1) <==> docs[|docs| - 1].pageContent !in Contents(docs[..|docs| - 1])
  {
    var n := |docs| - 1;
    if docs[n].pageContent in Contents(docs[..n]) {
      var d :| d in docs[..n] && d.pageContent == docs[n].pageContent;
      var j :| 0 <= j < n && docs[..n][j] == d;
      assert docs[j].pageContent == docs[n].pageContent;
    }
  }

  /** De-duplication keeps every page content of its input and adds none. */
  lemma {:induction false} DeduplicateContents(docs: seq<Document>)
    ensures Contents(Deduplicate(docs)) == Contents(docs)
  {
    if docs != [] {
      var n := |docs| - 1;
      DeduplicateContents(docs[..n]);
      FirstIffUnseen(docs);
      assert docs == docs[..n] + [docs[n]];
      assert Contents(docs) == Contents(docs[..n]) + {docs[n].pageContent};
      assert Contents(Deduplicate(docs)) == Contents(Deduplicate(docs[..n])) +
        Contents(if IsFirst(docs, n) then [docs[n]] else []);
    }
  }

  /** De-duplication leaves no two documents with equal page content and never lengthens the list. */
  lemma {:induction false} DeduplicateDistinct(docs: seq<Document>)
    ensures DistinctContents(Deduplicate(docs))
    ensures |Deduplicate(docs)| <= |docs|
  {
    if docs != [] {
      var n := |docs| - 1;
      DeduplicateDistinct(docs[..n]);
      DeduplicateContents(docs[..n]);
      FirstIffUnseen(docs);
      var prev := Deduplicate(docs[..n]);
      if IsFirst(docs, n) {
        forall i | 0 <= i < |prev| ensures prev[i].pageContent != docs[n].pageContent {
          assert prev[i].pageContent in Contents(prev);
        }
      }
    }
  }

  /** A list that already has distinct contents is its own de-duplication. */
  lemma {:induction false} DeduplicateDistinctIsIdentity(docs: seq<Document>)
    requires DistinctContents(docs)
    ensures Deduplicate(docs) == docs
  {
    if docs != [] {
      var n := |docs| - 1;
      assert DistinctContents(docs[..n]);
      DeduplicateDistinctIsIdentity(docs[..n]);
      assert IsFirst(docs, n);
      assert docs[..n] + [docs[n]] == docs;
    }
  }

  /** De-duplicating twice gives the same list as de-duplicating once. */
  lemma DeduplicateIdempotent(docs: seq<Document>)
    ensures Deduplicate(Deduplicate(docs)) == Deduplicate(docs)
  {
    DeduplicateDistinct(docs);
    DeduplicateDistinctIsIdentity(Deduplicate(docs));
  }

  /** Appending documents only extends the de-duplication of the front part: order is kept. */
  lemma {:induction false} DeduplicatePrefix(front: seq<Document>, back: seq<Document>)
    ensures Deduplicate(front) <= Deduplicate(front + back)
  {
    if back != [] {
      var all := front + back;
      var n := |all| - 1;
      assert all[..n] == front + back[..|back| - 1];
      DeduplicatePrefix(front, back[..|back| - 1]);
    } else {
      assert front + back == front;
    }
  }

  /** The semantic branch of hybrid search: `(query, where, k)` to the top-`k` hits; `None` when it raises. */
  type SemanticSearch = (string, Option<Where>, nat) -> Option<seq<Document>>

  /** The keyword (BM25) branch: the query alone to its hits; `None` when it raises. */
  type KeywordSearch = string -> Option<seq<Document>>

  /** The number of hits asked of the semantic branch. */
  const SemanticK: nat := 3

  /**
   * `hybrid_search_sync`: the semantic branch, which alone receives the filter, followed by
   * the keyword branch, which receives the query only; then de-duplication. An exception in
   * either branch is not caught here.
   */
  function HybridSearch(query: string, filter: Option<FilterItems>,
                        semantic: SemanticSearch, keyword: KeywordSearch): (r: Option<seq<Document>>)
    ensures r.Some? <==> semantic(query, BuildWhereClause(filter), SemanticK).Some? && keyword(query).Some?
    ensures r.Some? ==>
      var sem := semantic(query, BuildWhereClause(filter), SemanticK).value;
      var kw := keyword(query).value;
      && r.value == Deduplicate(sem + kw)
      && DistinctContents(r.value)
      && Contents(r.value) == Contents(sem) + Contents(kw)
      && Deduplicate(sem) <= r.value
      && |r.value| <= |sem| + |kw|
  {
    var sem := semantic(query, BuildWhereClause(filter), SemanticK);
    if sem.None? then None
    else
      var kw := keyword(query);
      if kw.None? then None
      else
        var merged := sem.value + kw.value;
        DeduplicateDistinct(merged);
        DeduplicateContents(merged);
        DeduplicatePrefix(sem.value, kw.value);
        assert Contents(merged) == Contents(sem.value) + Contents(kw.value);
        Some(Deduplicate(merged))
  }
}
