/**
 * The in-memory cache with time-to-live (src/utils/cache.ts).
 *
 * Entries remember when they were stored; a read with a maximum age drops an
 * entry that is older than that and reports a miss. The clock (`Date.now()`)
 * is an explicit parameter `now`, in milliseconds.
 *
 * The pure functions `Lookup`, `Put` and `Sweep` say what the operations do
 * to the entry map; the class `Cache` updates its map in place and each method
 * is proved to agree with its function. The properties are lemmas about the
 * functions.
 */
module TtlCache {
  import opened Wrappers

  /** Five minutes, the default time-to-live of a new cache. */
  const DEFAULT_TTL: int := 300000

  datatype CacheEntry<T> = CacheEntry(data: T, timestamp: int)

  type Store<T> = map<string, CacheEntry<T>>

  /**
   * `ttl || this.defaultTTL`: an absent or zero `ttl` falls back to the
   * default; any other value, negative ones included, is used as given.
   */
  function MaxAge(ttl: Option<int>, defaultTTL: int): int
  {
    if ttl.Some? && ttl.value != 0 then ttl.value else defaultTTL
  }

  /** An entry is expired once strictly more than `maxAge` has passed since it was stored. */
  predicate Expired<T>(e: CacheEntry<T>, maxAge: int, now: int)
  {
    now - e.timestamp > maxAge
  }

  /** `get`: what it returns and the map it leaves behind. */
  function Lookup<T>(store: Store<T>, key: string, maxAge: int, now: int): (Option<T>, Store<T>)
  {
    if key !in store then (None, store)
    else if Expired(store[key], maxAge, now) then (None, store - {key})
    else (Some(store[key].data), store)
  }

  /** `set`: the entry is (re)stored with the current time. */
  function Put<T>(store: Store<T>, key: string, data: T, now: int): Store<T>
  {
    store[key := CacheEntry(data, now)]
  }

  /** `cleanup`: the entries still within `ttl` at `now`. */
  function Sweep<T>(store: Store<T>, ttl: int, now: int): Store<T>
  {
    map k | k in store && !Expired(store[k], ttl, now) :: store[k]
  }

  class Cache<T> {
    var store: Store<T>
    const defaultTTL: int

    /** `new Cache(defaultTTL?)`: empty, with the given default or five minutes. */
    constructor (ttl: Option<int>)
      ensures store == map[]
      ensures defaultTTL == if ttl.Some? then ttl.value else DEFAULT_TTL
    {
      store := map[];
      defaultTTL := if ttl.Some? then ttl.value else DEFAULT_TTL;
    }

    method Get(key: string, ttl: Option<int>, now: int) returns (r: Option<T>)
      modifies this
      ensures (r, store) == Lookup(old(store), key, MaxAge(ttl, defaultTTL), now)
    {
      if key !in store {
        return None;
      }
      var entry := store[key];
      var maxAge := if ttl.Some? && ttl.value != 0 then ttl.value else defaultTTL;
      var isExpired := now - entry.timestamp > maxAge;
      if isExpired {
        store := store - {key};
        return None;
      }
      return Some(entry.data);
    }

    method Set(key: string, data: T, now: int)
      modifies this
      ensures store == Put(old(store), key, data, now)
    {
      store := store[key := CacheEntry(data, now)];
    }

    /** `delete`: reports whether the key was present, and removes it. */
    method Delete(key: string) returns (existed: bool)
      modifies this
      ensures existed <==> key in old(store)
      ensures store == old(store) - {key}
    {
      existed := key in store;
      store := store - {key};
    }

    method Clear()
      modifies this
      ensures store == map[]
    {
      store := map[];
    }

    /** `size`: the number of entries, expired ones not yet removed included. */
    method Size() returns (n: nat)
      ensures n == |store.Keys|
    {
      n := |store.Keys|;
    }

    /** `cleanup`: visits every entry once and removes those older than the default TTL. */
    method Cleanup(now: int)
      modifies this
      ensures store == Sweep(old(store), defaultTTL, now)
    {
      ghost var start := store;
      var pending := store.Keys;
      while pending != {}
        invariant pending <= start.Keys
        invariant store == map k | k in start && (k in pending || !Expired(start[k], defaultTTL, now)) :: start[k]
        decreases |pending|
      {
        var key :| key in pending;
        if now - store[key].timestamp > defaultTTL {
          store := store - {key};
        }
        pending := pending - {key};
      }
    }
  }

  // ---------------------------------------------------------------- properties of get

  /** A read hits exactly when the key is present and not expired, and then returns the stored data. */
  lemma LookupHitIffFresh<T>(store: Store<T>, key: string, maxAge: int, now: int)
    ensures Lookup(store, key, maxAge, now).0.Some? <==>
      key in store && now - store[key].timestamp <= maxAge
    ensures Lookup(store, key, maxAge, now).0.Some? ==>
      Lookup(store, key, maxAge, now).0.value == store[key].data
  {
  }

  /**
   * A read changes nothing but the key it reads: the key stays exactly when
   * the read hits, and every other entry is left as it was.
   */
  lemma LookupEvictsOnlyKey<T>(store: Store<T>, key: string, maxAge: int, now: int)
    ensures var (r, after) := Lookup(store, key, maxAge, now);
      && (key in after <==> r.Some?)
      && (forall k :: k != key ==> (k in after <==> k in store))
      && (forall k :: k in after ==> after[k] == store[k])
  {
  }

  /** Reading the same key twice at the same time gives the same answer the second time. */
  lemma LookupRepeatable<T>(store: Store<T>, key: string, maxAge: int, now: int)
    ensures var (r, after) := Lookup(store, key, maxAge, now);
      Lookup(after, key, maxAge, now) == (r, after)
  {
  }

  /** A zero or absent `ttl` reads with the default; a negative one misses whenever the clock has not gone back. */
  lemma MaxAgeCases(ttl: Option<int>, defaultTTL: int)
    ensures ttl == None || ttl == Some(0) ==> MaxAge(ttl, defaultTTL) == defaultTTL
    ensures ttl.Some? && ttl.value < 0 ==> MaxAge(ttl, defaultTTL) < 0
    ensures ttl.Some? && ttl.value > 0 ==> MaxAge(ttl, defaultTTL) == ttl.value
  {
  }

  lemma NegativeTtlAlwaysMisses<T>(store: Store<T>, key: string, ttl: int, defaultTTL: int, now: int)
    requires ttl < 0
    requires key in store ==> store[key].timestamp <= now
    ensures Lookup(store, key, MaxAge(Some(ttl), defaultTTL), now).0 == None
  {
  }

  // ---------------------------------------------------------------- properties of set and delete

  /**
   * What was set can be read back, at any later time within the maximum age,
   * and not after it.
   */
  lemma PutThenLookup<T>(store: Store<T>, key: string, data: T, setAt: int, maxAge: int, now: int)
    ensures Lookup(Put(store, key, data, setAt), key, maxAge, now).0 ==
      if now - setAt <= maxAge then Some(data) else None
  {
  }

  /** Setting one key leaves every other entry as it was and grows the cache only for a new key. */
  lemma PutLeavesOthers<T>(store: Store<T>, key: string, data: T, now: int)
    ensures forall k :: k != key ==> (k in Put(store, key, data, now) <==> k in store)
    ensures forall k :: k != key && k in store ==> Put(store, key, data, now)[k] == store[k]
    ensures |Put(store, key, data, now).Keys| == |store.Keys| + (if key in store then 0 else 1)
  {
    var after := Put(store, key, data, now);
    if key in store {
      assert after.Keys == store.Keys;
    } else {
      assert after.Keys == store.Keys + {key};
    }
  }

  /** Deleting shrinks the cache by one exactly when the key was present. */
  lemma DeleteSize<T>(store: Store<T>, key: string)
    ensures |(store - {key}).Keys| == |store.Keys| - (if key in store then 1 else 0)
    ensures key !in store - {key}
  {
    if key in store {
      assert (store - {key}).Keys == store.Keys - {key};
    } else {
      assert (store - {key}).Keys == store.Keys;
    }
  }

  // ---------------------------------------------------------------- properties of cleanup

  /** Cleanup keeps exactly the unexpired entries, unchanged. */
  lemma SweepExact<T>(store: Store<T>, ttl: int, now: int)
    ensures forall k :: k in Sweep(store, ttl, now) <==> k in store && now - store[k].timestamp <= ttl
    ensures forall k :: k in Sweep(store, ttl, now) ==> Sweep(store, ttl, now)[k] == store[k]
    ensures |Sweep(store, ttl, now).Keys| <= |store.Keys|
  {
    assert Sweep(store, ttl, now).Keys <= store.Keys;
    SubsetCardinality(Sweep(store, ttl, now).Keys, store.Keys);
  }

  lemma {:induction false} SubsetCardinality(a: set<string>, b: set<string>)
    requires a <= b
    ensures |a| <= |b|
  {
    assert b == a + (b - a);
  }

  /** Cleaning up twice at the same time is cleaning up once. */
  lemma SweepIdempotent<T>(store: Store<T>, ttl: int, now: int)
    ensures Sweep(Sweep(store, ttl, now), ttl, now) == Sweep(store, ttl, now)
  {
  }

  /**
   * Cleanup is invisible to reads with the default TTL at the same time: it
   * only removes what such a read would have reported as a miss.
   */
  lemma SweepInvisibleToLookup<T>(store: Store<T>, key: string, ttl: int, now: int)
    ensures Lookup(Sweep(store, ttl, now), key, ttl, now).0 == Lookup(store, key, ttl, now).0
  {
  }

  /**
   * A cleanup under a shorter TTL than a later read uses removes entries that
   * read would still have returned.
   */
  lemma SweepShorterTtlEvicts<T>(store: Store<T>, key: string, ttl: int, maxAge: int, now: int)
    requires key in store && ttl < now - store[key].timestamp <= maxAge
    ensures Lookup(store, key, maxAge, now).0 == Some(store[key].data)
    ensures Lookup(Sweep(store, ttl, now), key, maxAge, now).0 == None
  {
  }
}
