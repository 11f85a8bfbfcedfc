/**
 * The metadata caches of packages/client/src/metadata/cache.ts: a keyed
 * table whose entries expire `ttl` milliseconds after they were written,
 * evicted lazily by the lookup that finds them expired, and a cache that
 * stores nothing. The clock is an explicit `now` argument.
 *
 * The effect of each operation on the table is first defined on values
 * (`Lookup`, `Evicted`, `Stored`); the methods of `MetadataCache` are proved
 * against those functions, and the promises of the cache are lemmas about them.
 */
module Cache {
  import opened Wrappers

  /** The default lifetime of an entry: one hour, in milliseconds. */
  const DefaultTtl: int := 3600000

  /** An entry: the cached value and the instant after which it is stale. */
  datatype Entry<V> = Entry(value: V, expiresAt: int)

  /**
   * What `get` answers at time `now`: the value of a present entry that is
   * not stale. Expiry is strict: an entry is still served at `expiresAt`.
   */
  function Lookup<V>(entries: map<string, Entry<V>>, key: string, now: int): (r: Option<V>)
    ensures key !in entries ==> r == None
    ensures r.Some? <==> key in entries && now <= entries[key].expiresAt
    ensures r.Some? ==> r.value == entries[key].value
  {
    if key in entries && now <= entries[key].expiresAt then Some(entries[key].value) else None
  }

  /** The table after `get` at time `now`: a stale entry under `key` is removed. */
  function Evicted<V>(entries: map<string, Entry<V>>, key: string, now: int): (r: map<string, Entry<V>>)
    ensures Lookup(r, key, now) == Lookup(entries, key, now)
    ensures forall k | k in r :: k in entries && r[k] == entries[k]
    ensures forall k | k in entries && k != key :: k in r
  {
    if key in entries && now > entries[key].expiresAt then entries - {key} else entries
  }

  /** The table after `set` at time `now`: the entry is written with expiry `now + ttl`. */
  function Stored<V>(entries: map<string, Entry<V>>, key: string, value: V, now: int, ttl: int): (r: map<string, Entry<V>>)
    ensures r.Keys == entries.Keys + {key}
    ensures 0 <= ttl ==> Lookup(r, key, now) == Some(value)
  {
    entries[key := Entry(value, now + ttl)]
  }

  /** The table after `set` on a memory cache (`storing`) or on the no-op cache, which keeps nothing. */
  function Remembered<V>(storing: bool, entries: map<string, Entry<V>>, key: string, value: V, now: int, ttl: int)
    : (r: map<string, Entry<V>>)
    ensures !storing ==> r == entries
    ensures storing && 0 <= ttl ==> Lookup(r, key, now) == Some(value)
    ensures forall k | k in entries && k != key :: k in r && r[k] == entries[k]
  {
    if storing then Stored(entries, key, value, now, ttl) else entries
  }

  /** After `set(k, v)` at time `t`, `get(k)` answers `v` at any time up to `t + ttl`. */
  lemma StoredThenFound<V>(entries: map<string, Entry<V>>, key: string, value: V, t: int, ttl: int, now: int)
    requires now <= t + ttl
    ensures Lookup(Stored(entries, key, value, t, ttl), key, now) == Some(value)
    ensures Evicted(Stored(entries, key, value, t, ttl), key, now) == Stored(entries, key, value, t, ttl)
  {
  }

  /** ... and nothing, with the entry removed, at any later time. */
  lemma StoredThenExpired<V>(entries: map<string, Entry<V>>, key: string, value: V, t: int, ttl: int, now: int)
    requires now > t + ttl
    ensures Lookup(Stored(entries, key, value, t, ttl), key, now) == None
    ensures Evicted(Stored(entries, key, value, t, ttl), key, now) == entries - {key}
  {
  }

  /**
   * A lookup that finds its entry stale answers nothing and removes that
   * entry alone; a lookup that answers keeps the table as it is.
   */
  lemma EvictionIsLocal<V>(entries: map<string, Entry<V>>, key: string, now: int)
    ensures Lookup(entries, key, now).Some? ==> Evicted(entries, key, now) == entries
    ensures key in entries && Lookup(entries, key, now).None? ==>
              Evicted(entries, key, now).Keys == entries.Keys - {key}
    ensures forall k | k in entries && k != key :: k in Evicted(entries, key, now) && Evicted(entries, key, now)[k] == entries[k]
  {
  }

  /** A lookup of a stale or absent entry answers the same at any later time, before any new `set`. */
  lemma MissIsFinal<V>(entries: map<string, Entry<V>>, key: string, now: int, later: int)
    requires now <= later
    requires Lookup(entries, key, now) == None
    ensures Lookup(Evicted(entries, key, now), key, later) == None
  {
  }

  /** `set` replaces the value and restarts the lifetime; every other entry is kept. */
  lemma StoreReplaces<V>(entries: map<string, Entry<V>>, key: string, value: V, now: int, ttl: int)
    ensures Stored(entries, key, value, now, ttl).Keys == entries.Keys + {key}
    ensures Stored(entries, key, value, now, ttl)[key] == Entry(value, now + ttl)
    ensures forall k | k in entries && k != key :: Stored(entries, key, value, now, ttl)[k] == entries[k]
  {
  }

  /**
   * A metadata cache: `createMemoryCache(ttl)` when `storing`, else
   * `createNoCache()`, whose table stays empty.
   */
  class MetadataCache<V> {
    const storing: bool
    const ttl: int
    var entries: map<string, Entry<V>>

    ghost predicate Valid()
      reads this
    {
      !storing ==> entries == map[]
    }

    /** createMemoryCache: an empty table with lifetime `ttl`. */
    constructor Memory(ttl: int)
      ensures Valid()
      ensures storing && this.ttl == ttl && entries == map[]
    {
      storing, this.ttl, entries := true, ttl, map[];
    }

    /** createNoCache: a cache that stores nothing. */
    constructor NoStore()
      ensures Valid()
      ensures !storing && entries == map[]
    {
      storing, ttl, entries := false, DefaultTtl, map[];
    }

    /** get: the fresh value under `key`, if any; a stale entry is removed. */
    method Get(key: string, now: int) returns (v: Option<V>)
      requires Valid()
      modifies this`entries
      ensures Valid()
      ensures v == Lookup(old(entries), key, now)
      ensures entries == Evicted(old(entries), key, now)
      ensures !storing ==> v == None
    {
      if !storing {
        return None;
      }
      if key !in entries {
        return None;
      }
      var entry := entries[key];
      if now > entry.expiresAt {
        entries := entries - {key};
        return None;
      }
      return Some(entry.value);
    }

    /** set: writes `value` under `key`, fresh until `now + ttl`; the no-op cache ignores it. */
    method Set(key: string, value: V, now: int)
      requires Valid()
      modifies this`entries
      ensures Valid()
      ensures entries == Remembered(storing, old(entries), key, value, now, ttl)
    {
      if storing {
        entries := entries[key := Entry(value, now + ttl)];
      }
    }

    /** delete: removes the entry under `key` alone. */
    method Delete(key: string)
      requires Valid()
      modifies this`entries
      ensures Valid()
      ensures entries == old(entries) - {key}
    {
      if storing {
        entries := entries - {key};
      }
    }

    /** clear: empties the table. */
    method Clear()
      requires Valid()
      modifies this`entries
      ensures Valid()
      ensures entries == map[]
    {
      if storing {
        entries := map[];
      }
    }
  }
}
