/**
 * The module-level response cache of src/services/facr/facrApi.ts: a map from cache
 * key to the payload of a response and the time, in milliseconds, it was stored.
 * The map is shared by both interceptors and by `clearCache`, and is updated in place.
 */
module Caching {
  import opened Wrappers

  /** `CacheItem`: a response payload and the `Date.now()` at which it was stored. */
  datatype Entry<T> = Entry(data: T, timestamp: nat)

  /** The freshness test of the request interceptor: the entry's age is below the TTL. */
  predicate IsFresh<T>(e: Entry<T>, now: nat, ttl: int)
  {
    now - e.timestamp < ttl
  }

  /**
   * The TTL boundary: an entry stored at `t0` is fresh at `t0 + age` exactly when
   * `age < ttl`, so at `t0 + ttl - 1` it is still served and from `t0 + ttl` on it is not.
   */
  lemma FreshUntilTtl<T>(e: Entry<T>, age: nat, ttl: int)
    ensures IsFresh(e, e.timestamp + age, ttl) <==> age < ttl
    ensures ttl > 0 ==> IsFresh(e, e.timestamp + ttl - 1, ttl)
    ensures ttl >= 0 ==> !IsFresh(e, e.timestamp + ttl + age, ttl)
  {
  }

  /**
   * A TTL of zero or below turns the cache off for reads: with a clock that does not go
   * backwards, no entry is ever fresh.
   */
  lemma NonPositiveTtlNeverFresh<T>(e: Entry<T>, now: nat, ttl: int)
    requires ttl <= 0 && e.timestamp <= now
    ensures !IsFresh(e, now, ttl)
  {
  }

  /** The cache store, `const cache = new Map<string, CacheItem<any>>()`. */
  class CacheStore<T> {
    var entries: map<string, Entry<T>>

    /** The store starts empty. */
    constructor ()
      ensures entries == map[]
    {
      entries := map[];
    }

    /** `cache.get(key)`: the entry for `key`, or nothing; the store is not changed. */
    method Lookup(key: string) returns (r: Option<Entry<T>>)
      ensures r.Some? <==> key in entries
      ensures r.Some? ==> r.value == entries[key]
    {
      if key in entries {
        r := Some(entries[key]);
      } else {
        r := None;
      }
    }

    /** `cache.set(key, {data, timestamp: now})`: inserts or overwrites one entry, the rest stay. */
    method Store(key: string, data: T, now: nat)
      modifies this
      ensures entries == old(entries)[key := Entry(data, now)]
      ensures forall k :: k in old(entries) && k != key ==> k in entries && entries[k] == old(entries)[k]
      ensures entries.Keys == old(entries).Keys + {key}
    {
      entries := entries[key := Entry(data, now)];
    }

    /** `cache.clear()`: drops every entry. */
    method Clear()
      modifies this
      ensures entries == map[]
      ensures forall k :: k !in entries
    {
      entries := map[];
    }
  }
}
