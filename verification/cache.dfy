/**
 * The semantic response cache (app/assistant/controller/cache_service.py): a vector store of
 * (query, response) entries, searched for the single nearest entry.
 */
module Cache {
  import opened Wrappers

  /** A cache document: the query is the indexed text, the response sits in its metadata. */
  datatype CacheEntry = CacheEntry(query: string, response: string)

  /**
   * The store's similarity search: the entries, the query and `k` to (entry, cosine distance)
   * pairs, nearest first, or `None` when the store raises. The embedding and the distance are
   * the store's own.
   */
  type StoreSearch = (seq<CacheEntry>, string, nat) -> Option<seq<(CacheEntry, real)>>

  /** Search results the store can give: at most `k` of them, each one a stored entry. */
  predicate DrawnFrom(entries: seq<CacheEntry>, k: nat, results: seq<(CacheEntry, real)>)
  {
    |results| <= k && forall i :: 0 <= i < |results| ==> results[i].0 in entries
  }

  /** A search that only ever answers with what is stored. */
  ghost predicate SearchesStore(search: StoreSearch)
  {
    forall entries, query, k :: search(entries, query, k).Some? ==> DrawnFrom(entries, k, search(entries, query, k).value)
  }

  type CacheSearch = search: StoreSearch | SearchesStore(search)
    witness (entries: seq<CacheEntry>, query: string, k: nat) => None

  /** Whether the store's `add_documents` raises when this entry is added to these entries. */
  type StoreRejects = (seq<CacheEntry>, CacheEntry) -> bool

  /** The similarity an entry needs for a hit. */
  const CacheHitThreshold: real := 0.90

  /** The number of neighbours asked of the store. */
  const LookupK: nat := 1

  /** The exception raised by a lookup or a write while the store handle is `None`. */
  const NoStoreSearch: string := "'NoneType' object has no attribute 'similarity_search_with_score'"
  const NoStoreWrite: string := "'NoneType' object has no attribute 'add_documents'"

  /** The hit decision on the search results: only the first result is looked at. */
  function CachedResponse(results: seq<(CacheEntry, real)>): (r: Option<string>)
    ensures r.Some? <==> |results| > 0 && 1.0 - results[0].1 >= CacheHitThreshold
    ensures r.Some? ==> r.value == results[0].0.response
  {
    if |results| == 0 then None
    else if 1.0 - results[0].1 >= CacheHitThreshold then Some(results[0].0.response)
    else None
  }

  /** Results beyond the first never change the decision. */
  lemma OnlyNearestCounts(a: seq<(CacheEntry, real)>, b: seq<(CacheEntry, real)>)
    requires |a| > 0 && |b| > 0 && a[0] == b[0]
    ensures CachedResponse(a) == CachedResponse(b)
  {
  }

  /** A hit means a cosine distance of at most 0.10, and its response is one that was stored. */
  lemma HitIsStoredResponse(entries: seq<CacheEntry>, results: seq<(CacheEntry, real)>)
    requires DrawnFrom(entries, LookupK, results)
    ensures CachedResponse(results).Some? ==>
      results[0].1 <= 0.10 && exists e :: e in entries && e.response == CachedResponse(results).value
  {
    if CachedResponse(results).Some? {
      assert results[0].0 in entries;
    }
  }

  /** The cache service: the entries of its Redis index and whether its store handle is set. */
  class CacheService {
    var entries: seq<CacheEntry>
    var connected: bool
    const search: CacheSearch
    const rejects: StoreRejects

    constructor (search: CacheSearch, rejects: StoreRejects, entries: seq<CacheEntry>)
      ensures this.search == search && this.rejects == rejects && this.entries == entries && !connected
    {
      this.search := search;
      this.rejects := rejects;
      this.entries := entries;
      connected := false;
    }

    /** `initialize`: connects to the store; what is stored survives. */
    method Initialize()
      modifies this`connected
      ensures connected
    {
      connected := true;
    }

    /** `cleanup`: drops the connection. */
    method Cleanup()
      modifies this`connected
      ensures !connected
    {
      connected := false;
    }

    /**
     * `get_cached_response_sync`: a top-1 search and the threshold decision. Without a store
     * handle, or when the search raises, the exception propagates; a hit is a stored response.
     * The store is only read.
     */
    method GetCachedResponse(query: string) returns (r: Result<Option<string>>)
      ensures !connected ==> r == Failed(NoStoreSearch)
      ensures connected ==> (r.Failed? <==> search(entries, query, LookupK).None?)
      ensures connected && r.Ok? ==> r.value == CachedResponse(search(entries, query, LookupK).value)
      ensures r.Ok? && r.value.Some? ==> exists e :: e in entries && e.response == r.value.value
    {
      if !connected {
        return Failed(NoStoreSearch);
      }
      var searchResults := search(entries, query, LookupK);
      if searchResults.None? {
        return Failed("similarity search raised");
      }
      HitIsStoredResponse(entries, searchResults.value);
      if |searchResults.value| == 0 {
        return Ok(None);
      }
      var similarityScore := 1.0 - searchResults.value[0].1;
      if similarityScore >= CacheHitThreshold {
        return Ok(Some(searchResults.value[0].0.response));
      }
      return Ok(None);
    }

    /** The store's `add_documents` of one entry: it is appended, unless the store raises. */
    method AddDocuments(e: CacheEntry) returns (stored: bool)
      modifies this`entries
      ensures stored <==> !rejects(old(entries), e)
      ensures entries == if stored then old(entries) + [e] else old(entries)
    {
      stored := !rejects(entries, e);
      if stored {
        entries := entries + [e];
      }
    }

    /**
     * `add_to_cache_sync`: exactly one new entry, with no upsert and no de-duplication; without
     * a store handle, or when the store raises, nothing is stored and the exception propagates.
     */
    method AddToCache(query: string, response: string) returns (r: Result<()>)
      modifies this`entries
      ensures !connected ==> r == Failed(NoStoreWrite)
      ensures r.Ok? <==> connected && !rejects(old(entries), CacheEntry(query, response))
      ensures entries == if r.Ok? then old(entries) + [CacheEntry(query, response)] else old(entries)
    {
      if !connected {
        return Failed(NoStoreWrite);
      }
      var stored := AddDocuments(CacheEntry(query, response));
      if !stored {
        return Failed("add_documents raised");
      }
      return Ok(());
    }
  }
}
