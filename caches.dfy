/**
 * A Caffeine cache seen as a plain key-to-value map. Eviction and expiration
 * are the engine's business and are not modelled: the policy is recorded as
 * data only.
 */
module Caches {
  import opened Wrappers
  import opened Policy

  /** The entries of m whose keys are in keys. */
  function Restrict<K, V>(m: map<K, V>, keys: set<K>): (r: map<K, V>)
    ensures r.Keys == m.Keys * keys
    ensures forall k :: k in r ==> r[k] == m[k]
  {
    map k | k in keys && k in m :: m[k]
  }

  /** What `load` yields for each key of keys, keys yielding null left out. */
  function Loaded<K, V>(keys: set<K>, load: K -> Option<V>): (r: map<K, V>)
    ensures r.Keys <= keys
    ensures forall k :: k in keys ==> (k in r <==> load(k).Some?)
    ensures forall k :: k in r ==> Some(r[k]) == load(k)
  {
    map k | k in keys && load(k).Some? :: load(k).value
  }

  /** The entries after a compute-if-absent for an absent key produced `value`:
      a null result is not stored. */
  function Stored<K, V>(entries: map<K, V>, key: K, value: Option<V>): map<K, V>
  {
    if value.Some? then entries[key := value.value] else entries
  }

  /** One cache instance. `loader` is the CacheLoader (or, for an asynchronous
      cache, the AsyncCacheLoader) it was built with; a plain cache has none. */
  class Cache<K(==), V> {
    const policy: CachePolicy<K, V>
    const loader: Option<K -> Option<V>>
    var entries: map<K, V>

    /** Caffeine's build: a new, empty cache. */
    constructor (policy: CachePolicy<K, V>, loader: Option<K -> Option<V>>)
      ensures this.policy == policy && this.loader == loader && entries == map[]
    {
      this.policy := policy;
      this.loader := loader;
      entries := map[];
    }

    /** get(key, mappingFunction): the cached value, or else the mapping's
      value, kept unless it is null. */
    method ComputeIfAbsent(key: K, mapping: K -> Option<V>) returns (value: Option<V>)
      modifies this
      ensures key in old(entries) ==> value == Some(old(entries)[key]) && entries == old(entries)
      ensures key !in old(entries) ==> value == mapping(key) && entries == Stored(old(entries), key, value)
    {
      if key in entries {
        value := Some(entries[key]);
      } else {
        value := mapping(key);
        entries := Stored(entries, key, value);
      }
    }

    /** LoadingCache.get(key): compute-if-absent with the cache's own loader. */
    method Get(key: K) returns (value: Option<V>)
      requires loader.Some?
      modifies this
      ensures key in old(entries) ==> value == Some(old(entries)[key]) && entries == old(entries)
      ensures key !in old(entries) ==> value == loader.value(key) && entries == Stored(old(entries), key, value)
    {
      value := ComputeIfAbsent(key, loader.value);
    }

    /** LoadingCache.getAll(keys): loads the absent keys, then answers with
      the entries of all keys that have one. */
    method GetAll(keys: set<K>) returns (found: map<K, V>)
      requires loader.Some?
      modifies this
      ensures entries == old(entries) + Loaded(keys - old(entries).Keys, loader.value)
      ensures found == Restrict(entries, keys)
    {
      entries := entries + Loaded(keys - entries.Keys, loader.value);
      found := Restrict(entries, keys);
    }

    /** getIfPresent(key): the cached value or null; nothing is loaded. */
    method GetIfPresent(key: K) returns (value: Option<V>)
      ensures value.Some? <==> key in entries
      ensures value.Some? ==> value.value == entries[key]
    {
      value := if key in entries then Some(entries[key]) else None;
    }

    /** getAllPresent(keys): the cached entries of the given keys. */
    method GetAllPresent(keys: set<K>) returns (found: map<K, V>)
      ensures found.Keys == entries.Keys * keys
      ensures forall k :: k in found ==> found[k] == entries[k]
    {
      found := Restrict(entries, keys);
    }

    method Put(key: K, value: V)
      modifies this
      ensures entries == old(entries)[key := value]
    {
      entries := entries[key := value];
    }

    method PutAll(m: map<K, V>)
      modifies this
      ensures entries == old(entries) + m
    {
      entries := entries + m;
    }

    method Invalidate(key: K)
      modifies this
      ensures entries == old(entries) - {key}
    {
      entries := entries - {key};
    }

    method InvalidateKeys(keys: set<K>)
      modifies this
      ensures entries == old(entries) - keys
    {
      entries := entries - keys;
    }

    method InvalidateAll()
      modifies this
      ensures entries == map[]
    {
      entries := map[];
    }
  }
}
