/**
 * The detection-result cache: a keyed store bounded by `maxSize` entries,
 * with counters of the lookups that found a value and of those that did not.
 * Which entry the underlying LRU store evicts when full is left open.
 */
module Cache {
  import opened Wrappers
  import opened RealArith

  /** `stats`: current size, capacity, both counters and the hit rate. */
  datatype CacheStats = CacheStats(size: nat, maxSize: nat, hits: nat, misses: nat, hitRate: real)

  /** Fraction of lookups that were hits, 0 before any lookup. */
  function HitRate(hits: nat, misses: nat): (r: real)
    ensures 0.0 <= r <= 1.0
    ensures hits + misses == 0 ==> r == 0.0
    ensures hits + misses > 0 ==> r * (hits + misses) as real == hits as real
    ensures r == 1.0 <==> hits > 0 && misses == 0
  {
    var total := hits + misses;
    if total > 0 then
      RatioInUnitRange(hits as real, total as real);
      hits as real / total as real
    else 0.0
  }

  class DetectionCache<V> {
    /** Maximum number of entries. */
    const maxSize: nat
    /** The cached results; a stored value may itself be `None`. */
    var store: map<string, Option<V>>
    var hits: nat
    var misses: nat
    /** Number of `Get` calls since creation or the last `Clear`. */
    ghost var lookups: nat

    /** The store respects its capacity and every lookup was counted exactly once. */
    ghost predicate Valid()
      reads this
    {
      |store| <= maxSize && hits + misses == lookups
    }

    constructor (maxSize: nat := 1000)
      ensures Valid()
      ensures this.maxSize == maxSize
      ensures store == map[] && hits == 0 && misses == 0 && lookups == 0
    {
      this.maxSize := maxSize;
      store := map[];
      hits := 0;
      misses := 0;
      lookups := 0;
    }

    /**
     * `get`: the stored value, or `None` for a missing key. A hit is counted
     * exactly when the result is a value, so a stored `None` counts as a miss.
     */
    method Get(key: string) returns (r: Option<V>)
      requires Valid()
      modifies this
      ensures Valid()
      ensures key in store ==> r == store[key]
      ensures key !in store ==> r == None
      ensures store == old(store) && lookups == old(lookups) + 1
      ensures r.Some? ==> hits == old(hits) + 1 && misses == old(misses)
      ensures r.None? ==> hits == old(hits) && misses == old(misses) + 1
    {
      r := if key in store then store[key] else None;
      if r.Some? {
        hits := hits + 1;
      } else {
        misses := misses + 1;
      }
      lookups := lookups + 1;
    }

    /**
     * `put`: store `value` under `key`. A store of capacity 0 refuses every
     * entry (the underlying cache raises `ValueError`), reported as `false`.
     * A new key in a full store first evicts one other entry; an existing key
     * is overwritten without eviction. The counters are untouched.
     */
    method Put(key: string, value: Option<V>) returns (ok: bool)
      requires Valid()
      modifies this
      ensures Valid()
      ensures ok <==> maxSize > 0
      ensures !ok ==> store == old(store)
      ensures ok ==> key in store && store[key] == value
      ensures ok ==> forall k :: k in store && k != key ==> k in old(store) && store[k] == old(store)[k]
      ensures ok && (key in old(store) || |old(store)| < maxSize) ==> store == old(store)[key := value]
      ensures forall k1, k2 :: k1 in old(store) && k1 !in store && k2 in old(store) && k2 !in store ==> k1 == k2
      ensures hits == old(hits) && misses == old(misses) && lookups == old(lookups)
    {
      if maxSize == 0 {
        return false;
      }
      if key !in store && |store| == maxSize {
        assert store.Keys != {};
        var victim :| victim in store.Keys;
        var before := store;
        store := map k | k in before && k != victim :: before[k];
        assert store.Keys == before.Keys - {victim};
        assert |store| < maxSize;
      }
      store := store[key := value];
      return true;
    }

    /** `clear`: empty the store and reset both counters. */
    method Clear()
      requires Valid()
      modifies this
      ensures Valid()
      ensures store == map[] && hits == 0 && misses == 0 && lookups == 0
    {
      store := map[];
      hits := 0;
      misses := 0;
      lookups := 0;
    }

    /** `size`: the number of entries, never more than `maxSize`. */
    function Size(): (r: nat)
      reads this
      requires Valid()
      ensures r <= maxSize
      ensures r == 0 <==> store == map[]
    {
      |store|
    }

    /** `len(cache)`: the same count as `size`. */
    function Len(): (r: nat)
      reads this
      requires Valid()
      ensures r == Size()
      ensures r <= maxSize
    {
      Size()
    }

    /** `key in cache`: the key has an entry, whatever its value. */
    function Contains(key: string): (r: bool)
      reads this
      ensures r <==> key in store.Keys
      ensures r ==> store != map[]
    {
      key in store
    }

    /** `stats`: the hit rate is the fraction of lookups that were hits, 0 before any lookup. */
    function Stats(): (s: CacheStats)
      reads this
      requires Valid()
      ensures s == CacheStats(|store|, maxSize, hits, misses, HitRate(hits, misses))
      ensures s.size <= s.maxSize == maxSize
      ensures s.hits + s.misses == lookups
      ensures 0.0 <= s.hitRate <= 1.0
      ensures lookups == 0 ==> s.hitRate == 0.0
      ensures lookups > 0 ==> s.hitRate * lookups as real == s.hits as real
    {
      CacheStats(|store|, maxSize, hits, misses, HitRate(hits, misses))
    }
  }

  /**
   * With room for at least one entry, a `Put` immediately followed by a `Get`
   * of the same key returns the value put, counting a hit exactly when it is not `None`.
   */
  method PutThenGet<V>(cache: DetectionCache<V>, key: string, value: Option<V>) returns (r: Option<V>)
    requires cache.Valid() && cache.maxSize > 0
    modifies cache
    ensures cache.Valid()
    ensures r == value
    ensures value.Some? ==> cache.hits == old(cache.hits) + 1 && cache.misses == old(cache.misses)
    ensures value.None? ==> cache.hits == old(cache.hits) && cache.misses == old(cache.misses) + 1
  {
    var ok := cache.Put(key, value);
    r := cache.Get(key);
  }
}
