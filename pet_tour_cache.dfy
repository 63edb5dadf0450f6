/**
 * The process-wide pet-information cache: collecting the pet information of a
 * list of tours (cache hits answered at once, misses fetched in batches of ten
 * and written through), clearing the cache, and reading one entry. The upstream
 * lookup is a function from content id to its outcome.
 */
module PetTourCache {
  import opened Wrappers
  import opened TourTypes
  import Seqs
  import TourApi

  /** At most this many lookups run together. */
  const ConcurrentLimit: nat := 10

  /** What one upstream lookup gives: the record or `null`, or an error thrown. */
  datatype FetchOutcome = Fetched(info: Option<PetTourInfo>) | FetchFailed

  /** What the cache says about an id: never looked up (`undefined`), or looked up with the value stored (possibly `null`). */
  datatype CachedInfo = NeverLooked | LookedUp(info: Option<PetTourInfo>)

  type InfoMap = map<string, Option<PetTourInfo>>

  /**
   * The lookup the cache uses: `getDetailPetTour(contentId, false)`, a
   * client-side request. With it the error branch of the processor is never
   * taken: `getDetailPetTour` does not throw.
   */
  function Upstream(env: TourApi.Env, net: (TourApi.Request, nat) -> TourApi.Exchange<PetTourInfo>): (r: string -> FetchOutcome)
    ensures forall contentId :: r(contentId) == Fetched(TourApi.GetDetailPetTour(contentId, env, false, net).result.value)
  {
    assert forall contentId :: TourApi.GetDetailPetTour(contentId, env, false, net).result.Success? by {
      forall contentId ensures TourApi.GetDetailPetTour(contentId, env, false, net).result.Success? {
        TourApi.PetTourNeverFails(contentId, env, false, net);
      }
    }
    (contentId: string) =>
      match TourApi.GetDetailPetTour(contentId, env, false, net).result
      case Success(info) => Fetched(info)
      case Failure(_) => FetchFailed
  }

  /**
   * `processInBatches`: the items in consecutive slices of `batchSize`, each
   * slice processed completely before the next starts, the results in input
   * order. `batches` records the slices in the order they ran.
   */
  method ProcessInBatches<T, R>(items: seq<T>, batchSize: nat, processor: T -> R)
    returns (results: seq<R>, ghost batches: seq<seq<T>>)
    requires batchSize > 0
    ensures |results| == |items|
    ensures forall k :: 0 <= k < |items| ==> results[k] == processor(items[k])
    ensures batches == Seqs.Chunks(items, batchSize)
  {
    results := [];
    batches := [];
    var i := 0;
    while i < |items|
      invariant 0 <= i
      invariant |results| == Seqs.Min(i, |items|)
      invariant forall k :: 0 <= k < |results| ==> results[k] == processor(items[k])
      invariant batches + Seqs.Chunks(items[Seqs.Min(i, |items|)..], batchSize) == Seqs.Chunks(items, batchSize)
      decreases |items| - i
    {
      var end := Seqs.Min(i + batchSize, |items|);
      var batch := items[i..end];
      ChunkStep(items, i, batchSize);
      var batchResults := Seqs.Map(processor, batch);
      results := results + batchResults;
      batches := batches + [batch];
      i := i + batchSize;
    }
  }

  /** One turn of the batch loop: the chunks from `i` on are the slice at `i` followed by the chunks after it. */
  lemma ChunkStep<T>(items: seq<T>, i: nat, n: nat)
    requires n > 0 && i < |items|
    ensures Seqs.Chunks(items[i..], n)
         == [items[i..Seqs.Min(i + n, |items|)]] + Seqs.Chunks(items[Seqs.Min(i + n, |items|)..], n)
  {
    assert items[i..][..Seqs.Min(n, |items| - i)] == items[i..Seqs.Min(i + n, |items|)];
    assert items[i..][Seqs.Min(n, |items| - i)..] == items[Seqs.Min(i + n, |items|)..];
  }

  function IdOf(item: TourItem): string { item.contentid }

  /** The id a processed lookup reports. */
  function ResultId(result: (string, Option<PetTourInfo>)): string { result.0 }

  /** The content ids of a list of tours. */
  function Ids(items: seq<TourItem>): set<string> {
    set item | item in items :: item.contentid
  }

  function NotCached(cache: InfoMap): TourItem -> bool {
    (item: TourItem) => item.contentid !in cache
  }

  /** `itemsToFetch`: the tours whose id the cache has no entry for, in input order. */
  function ToFetch(tourItems: seq<TourItem>, cache: InfoMap): (r: seq<TourItem>)
    ensures Seqs.IsSubsequence(r, tourItems)
    ensures forall i :: 0 <= i < |r| ==> r[i].contentid !in cache
    ensures forall i :: 0 <= i < |tourItems| && tourItems[i].contentid !in cache ==> tourItems[i] in r
    ensures forall t {:trigger multiset(r)[t]} :: multiset(r)[t] == if t.contentid !in cache then multiset(tourItems)[t] else 0
  {
    Seqs.Filter(NotCached(cache), tourItems)
  }

  /** What is stored for a lookup: its value, or `null` when it threw. */
  function StoredValue(outcome: FetchOutcome): Option<PetTourInfo> {
    match outcome
    case Fetched(info) => info
    case FetchFailed => None
  }

  /** The cache after collecting `tourItems`: old entries kept, every missing requested id added with its lookup's stored value. */
  function AfterCollect(cache: InfoMap, tourItems: seq<TourItem>, fetch: string -> FetchOutcome): (m: InfoMap)
    ensures m.Keys == cache.Keys + Ids(tourItems)
    ensures forall k :: k in cache ==> m[k] == cache[k]
    ensures forall k :: k in m && k !in cache ==> m[k] == StoredValue(fetch(k))
  {
    map k | k in cache.Keys + Ids(tourItems) :: if k in cache then cache[k] else StoredValue(fetch(k))
  }

  /** The entries of `m` under the given keys. */
  function Restrict(m: InfoMap, keys: set<string>): (r: InfoMap)
    ensures r.Keys == m.Keys * keys
    ensures forall k :: k in r ==> r[k] == m[k]
  {
    map k | k in m.Keys * keys :: m[k]
  }

  lemma IdsSnoc(items: seq<TourItem>, i: int)
    requires 0 <= i < |items|
    ensures Ids(items[..i + 1]) == Ids(items[..i]) + {items[i].contentid}
  {
    assert items[..i + 1] == items[..i] + [items[i]];
  }

  /** The pet-information cache; one instance stands for the module-level map. */
  class PetTourCache {
    var entries: InfoMap
    /** Every id looked up upstream so far, in order. */
    ghost var fetched: seq<string>

    constructor ()
      ensures entries == map[] && fetched == []
    {
      entries := map[];
      fetched := [];
    }

    /** `getCachedPetTourInfo`: reads the cache and nothing else. */
    function GetCached(contentId: string): (r: CachedInfo)
      reads this
      ensures r == NeverLooked <==> contentId !in entries
      ensures r.LookedUp? ==> r.info == entries[contentId]
    {
      if contentId in entries then LookedUp(entries[contentId]) else NeverLooked
    }

    /** `clearPetTourCache`. */
    method Clear()
      modifies this
      ensures entries == map[]
      ensures fetched == old(fetched)
      ensures forall contentId :: GetCached(contentId) == NeverLooked
    {
      entries := map[];
    }

    /** The `forEach` over the request: the entries the cache already has for the requested ids. */
    method CachedPart(tourItems: seq<TourItem>) returns (resultMap: InfoMap)
      ensures resultMap == Restrict(entries, Ids(tourItems))
    {
      resultMap := map[];
      var i := 0;
      while i < |tourItems|
        invariant 0 <= i <= |tourItems|
        invariant resultMap == Restrict(entries, Ids(tourItems[..i]))
      {
        IdsSnoc(tourItems, i);
        var cached := GetCached(tourItems[i].contentid);
        if cached != NeverLooked {
          resultMap := resultMap[tourItems[i].contentid := cached.info];
        }
        i := i + 1;
      }
      assert tourItems[..i] == tourItems;
    }

    /** The write-through of every processed lookup, to the cache and to the result, in order. */
    method StoreResults(items: seq<TourItem>, fetchResults: seq<(string, Option<PetTourInfo>)>,
                        fetch: string -> FetchOutcome, resultMap0: InfoMap)
      returns (resultMap: InfoMap)
      requires |fetchResults| == |items|
      requires forall k :: 0 <= k < |items| ==>
        fetchResults[k] == (items[k].contentid, StoredValue(fetch(items[k].contentid)))
      modifies this
      ensures entries == Written(old(entries), Ids(items), fetch)
      ensures resultMap == Written(resultMap0, Ids(items), fetch)
      ensures fetched == old(fetched)
    {
      resultMap := resultMap0;
      var j := 0;
      while j < |fetchResults|
        invariant 0 <= j <= |fetchResults|
        invariant entries == Written(old(entries), Ids(items[..j]), fetch)
        invariant resultMap == Written(resultMap0, Ids(items[..j]), fetch)
        invariant fetched == old(fetched)
      {
        IdsSnoc(items, j);
        WrittenStep(old(entries), Ids(items[..j]), items[j].contentid, fetch);
        WrittenStep(resultMap0, Ids(items[..j]), items[j].contentid, fetch);
        var (contentId, petInfo) := fetchResults[j];
        entries := entries[contentId := petInfo];
        resultMap := resultMap[contentId := petInfo];
        j := j + 1;
      }
      assert items[..j] == items;
    }

    /**
     * `collectPetTourInfo`: the result holds every requested id, with the value
     * the cache now holds; only the ids without an entry are looked up, in
     * batches of `ConcurrentLimit`, and a failed lookup is stored as `null`.
     */
    method Collect(tourItems: seq<TourItem>, fetch: string -> FetchOutcome)
      returns (resultMap: InfoMap, ghost batches: seq<seq<TourItem>>)
      modifies this
      ensures entries == AfterCollect(old(entries), tourItems, fetch)
      ensures resultMap == Restrict(entries, Ids(tourItems))
      ensures fetched == old(fetched) + Seqs.Map(IdOf, ToFetch(tourItems, old(entries)))
      ensures batches == Seqs.Chunks(ToFetch(tourItems, old(entries)), ConcurrentLimit)
      ensures fetched == old(fetched) + Seqs.Map(IdOf, Seqs.Flatten(batches))
    {
      var itemsToFetch := Seqs.Filter(NotCached(entries), tourItems);
      ghost var before := entries;
      resultMap := CachedPart(tourItems);
      resultMap, batches := FetchMissing(itemsToFetch, fetch, resultMap);
      Seqs.FlattenChunks(itemsToFetch, ConcurrentLimit);
      CollectAsWritten(before, tourItems, fetch);
    }

    /**
     * The `if` of `collectPetTourInfo`: when there are tours to fetch, look them
     * up in batches and write every result through; the ids looked up are the
     * ones the processed lookups report.
     */
    method FetchMissing(itemsToFetch: seq<TourItem>, fetch: string -> FetchOutcome, resultMap0: InfoMap)
      returns (resultMap: InfoMap, ghost batches: seq<seq<TourItem>>)
      modifies this
      ensures entries == Written(old(entries), Ids(itemsToFetch), fetch)
      ensures resultMap == Written(resultMap0, Ids(itemsToFetch), fetch)
      ensures fetched == old(fetched) + Seqs.Map(IdOf, itemsToFetch)
      ensures batches == Seqs.Chunks(itemsToFetch, ConcurrentLimit)
    {
      resultMap := resultMap0;
      batches := [];
      if |itemsToFetch| > 0 {
        var fetchResults;
        fetchResults, batches := ProcessInBatches(itemsToFetch, ConcurrentLimit,
          (item: TourItem) => (item.contentid, StoredValue(fetch(item.contentid))));
        resultMap := StoreResults(itemsToFetch, fetchResults, fetch, resultMap);
        fetched := fetched + Seqs.Map(ResultId, fetchResults);
        assert Seqs.Map(ResultId, fetchResults) == Seqs.Map(IdOf, itemsToFetch);
      } else {
        assert Seqs.Map(IdOf, itemsToFetch) == [];
        assert Ids(itemsToFetch) == {};
        assert entries == Written(entries, {}, fetch);
        assert resultMap == Written(resultMap, {}, fetch);
      }
    }
  }

  /** `m` with every id of `ids` set to its lookup's stored value. */
  function Written(m: InfoMap, ids: set<string>, fetch: string -> FetchOutcome): (r: InfoMap)
    ensures r.Keys == m.Keys + ids
    ensures forall k :: k in ids ==> r[k] == StoredValue(fetch(k))
    ensures forall k :: k in m && k !in ids ==> r[k] == m[k]
  {
    map k | k in m.Keys + ids :: if k in ids then StoredValue(fetch(k)) else m[k]
  }

  lemma WrittenStep(m: InfoMap, ids: set<string>, k: string, fetch: string -> FetchOutcome)
    ensures Written(m, ids, fetch)[k := StoredValue(fetch(k))] == Written(m, ids + {k}, fetch)
  {
  }

  /** Writing the lookups of the tours to fetch over the cache (and over its hits) gives the state `AfterCollect` describes. */
  lemma CollectAsWritten(cache: InfoMap, tourItems: seq<TourItem>, fetch: string -> FetchOutcome)
    ensures Written(cache, Ids(ToFetch(tourItems, cache)), fetch) == AfterCollect(cache, tourItems, fetch)
    ensures Written(Restrict(cache, Ids(tourItems)), Ids(ToFetch(tourItems, cache)), fetch)
         == Restrict(AfterCollect(cache, tourItems, fetch), Ids(tourItems))
  {
    CollectCovers(tourItems, cache);
    var toFetch := ToFetch(tourItems, cache);
    forall k | k in Ids(toFetch)
      ensures k !in cache
    {
      var item :| item in toFetch && item.contentid == k;
    }
  }

  /** Every requested id is either cached already or among those to fetch, and those to fetch were all requested. */
  lemma CollectCovers(tourItems: seq<TourItem>, cache: InfoMap)
    ensures cache.Keys + Ids(tourItems) == cache.Keys + Ids(ToFetch(tourItems, cache))
    ensures Ids(ToFetch(tourItems, cache)) <= Ids(tourItems)
  {
    var toFetch := ToFetch(tourItems, cache);
    forall k | k in Ids(tourItems) && k !in cache
      ensures k in Ids(toFetch)
    {
      var item :| item in tourItems && item.contentid == k;
      var i :| 0 <= i < |tourItems| && tourItems[i] == item;
      assert tourItems[i] in toFetch;
    }
    forall k | k in Ids(toFetch)
      ensures k in Ids(tourItems)
    {
      var item :| item in toFetch && item.contentid == k;
      var i :| 0 <= i < |toFetch| && toFetch[i] == item;
      Seqs.FilterMembership(NotCached(cache), tourItems, item);
    }
  }

  /** No id with an entry (even a `null` one) is looked up again. */
  lemma CachedNeverFetched(tourItems: seq<TourItem>, cache: InfoMap, contentId: string)
    requires contentId in cache
    ensures contentId !in Seqs.Map(IdOf, ToFetch(tourItems, cache))
  {
  }

  /** Nothing is looked up exactly when every requested id has an entry; in particular for an empty request. */
  lemma NothingToFetch(tourItems: seq<TourItem>, cache: InfoMap)
    ensures ToFetch(tourItems, cache) == [] <==> Ids(tourItems) <= cache.Keys
    ensures ToFetch([], cache) == []
  {
    if Ids(tourItems) <= cache.Keys {
      Seqs.FilterNone(NotCached(cache), tourItems);
    } else {
      var k :| k in Ids(tourItems) && k !in cache;
      var item :| item in tourItems && item.contentid == k;
      Seqs.FilterMembership(NotCached(cache), tourItems, item);
    }
  }

  /** Collecting the same tours a second time looks nothing up and changes nothing. */
  lemma CollectTwice(cache: InfoMap, tourItems: seq<TourItem>, fetch: string -> FetchOutcome)
    ensures ToFetch(tourItems, AfterCollect(cache, tourItems, fetch)) == []
    ensures AfterCollect(AfterCollect(cache, tourItems, fetch), tourItems, fetch) == AfterCollect(cache, tourItems, fetch)
  {
    NothingToFetch(tourItems, AfterCollect(cache, tourItems, fetch));
  }

  /** Entries for ids not requested keep their value; a requested id's entry is its lookup's value, `null` for a failure. */
  lemma CollectWrites(cache: InfoMap, tourItems: seq<TourItem>, fetch: string -> FetchOutcome, contentId: string)
    ensures contentId !in Ids(tourItems) ==>
      (contentId in AfterCollect(cache, tourItems, fetch) <==> contentId in cache)
    ensures contentId in Ids(tourItems) && contentId !in cache && fetch(contentId) == FetchFailed ==>
      AfterCollect(cache, tourItems, fetch)[contentId] == None
    ensures contentId in Ids(tourItems) && contentId !in cache && fetch(contentId).Fetched? ==>
      AfterCollect(cache, tourItems, fetch)[contentId] == fetch(contentId).info
  {
  }

  /** Two requests for the same id that has no entry both reach the upstream: the check runs before any lookup. */
  lemma RepeatedIdFetchedTwice(item: TourItem, cache: InfoMap)
    requires item.contentid !in cache
    ensures Seqs.Map(IdOf, ToFetch([item, item], cache)) == [item.contentid, item.contentid]
  {
    assert [item, item][1..] == [item];
  }

  /** The batches: consecutive slices of at most ten, `ceil(n / 10)` of them, together exactly the tours to fetch. */
  lemma BatchShape(toFetch: seq<TourItem>)
    ensures Seqs.Flatten(Seqs.Chunks(toFetch, ConcurrentLimit)) == toFetch
    ensures |Seqs.Chunks(toFetch, ConcurrentLimit)| == (|toFetch| + 9) / 10
    ensures forall c :: c in Seqs.Chunks(toFetch, ConcurrentLimit) ==> 0 < |c| <= ConcurrentLimit
  {
    Seqs.FlattenChunks(toFetch, ConcurrentLimit);
    Seqs.ChunkCount(toFetch, ConcurrentLimit);
    Seqs.ChunkSizes(toFetch, ConcurrentLimit);
  }
}
