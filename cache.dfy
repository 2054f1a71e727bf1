/** The persistent key-value cache of `frontend/src/utils/cache.ts`: a
    timestamped envelope `{data, timestamp}` stored in `window.localStorage`
    under the key prefix `albins:`, read back with an expiry age. */
module Cache {
  import opened Common

  const CachePrefix: string := "albins:"

  /** `CACHE_KEYS.categories`, the one logical key the application caches. */
  const CategoriesKey: string := "categories"

  /** `Object.values(CACHE_KEYS)`. */
  const CacheKeys: seq<string> := [CategoriesKey]

  /** The storage key under which the logical key `key` is kept. */
  function StorageKey(key: string): (k: string)
    ensures |k| == |CachePrefix| + |key|
    ensures k[..|CachePrefix|] == CachePrefix && k[|CachePrefix|..] == key
  {
    CachePrefix + key
  }

  /** Distinct logical keys never share a storage key. */
  lemma StorageKeyInjective(a: string, b: string)
    requires StorageKey(a) == StorageKey(b)
    ensures a == b
  {
    assert a == StorageKey(a)[|CachePrefix|..];
  }

  /** What `localStorage.getItem` returns for a present key, read through
      `JSON.parse`:
      - `Envelope`: an object whose `timestamp` is a number;
      - `BadEnvelope`: the JSON value `null`, or a value whose `timestamp` is not a number;
      - `Unparseable`: text on which `JSON.parse` throws;
      - `EmptyValue`: the empty string, which the source treats as missing. */
  datatype Entry<T> =
    | Envelope(data: T, timestamp: int)
    | BadEnvelope
    | Unparseable
    | EmptyValue

  /** The result of `getCache(key, maxAgeMs)` at time `now` on `storage`. */
  function Lookup<T>(storage: map<string, Entry<T>>, key: string, maxAgeMs: int, now: int): (r: Option<T>)
    ensures r.Some? <==>
      && StorageKey(key) in storage
      && storage[StorageKey(key)].Envelope?
      && now - storage[StorageKey(key)].timestamp <= maxAgeMs
    ensures r.Some? ==> r.value == storage[StorageKey(key)].data
  {
    var k := StorageKey(key);
    if k !in storage then None
    else match storage[k]
      case EmptyValue => None
      case Unparseable => None
      case BadEnvelope => None
      case Envelope(data, timestamp) => if now - timestamp > maxAgeMs then None else Some(data)
  }

  /** The storage after `getCache(key, maxAgeMs)` at time `now`: a stale
      envelope or a bad envelope is removed; everything else stays. */
  function AfterLookup<T>(storage: map<string, Entry<T>>, key: string, maxAgeMs: int, now: int): (s: map<string, Entry<T>>)
    ensures s == storage || s == storage - {StorageKey(key)}
    ensures s != storage <==>
      && StorageKey(key) in storage
      && (|| storage[StorageKey(key)].BadEnvelope?
          || (storage[StorageKey(key)].Envelope? && now - storage[StorageKey(key)].timestamp > maxAgeMs))
  {
    var k := StorageKey(key);
    if k !in storage then storage
    else match storage[k]
      case EmptyValue => storage
      case Unparseable => storage
      case BadEnvelope => storage - {k}
      case Envelope(_, timestamp) => if now - timestamp > maxAgeMs then storage - {k} else storage
  }

  /** Round trip: data written at `written` is read back at `now` as long as it
      is at most `maxAgeMs` old, and nothing is removed by the read. An entry
      exactly `maxAgeMs` old is still returned. */
  lemma SetThenGet<T>(storage: map<string, Entry<T>>, key: string, data: T, written: int, maxAgeMs: int, now: int)
    requires now - written <= maxAgeMs
    ensures Lookup(storage[StorageKey(key) := Envelope(data, written)], key, maxAgeMs, now) == Some(data)
    ensures AfterLookup(storage[StorageKey(key) := Envelope(data, written)], key, maxAgeMs, now)
            == storage[StorageKey(key) := Envelope(data, written)]
  {
  }

  /** An entry older than `maxAgeMs` is a miss, and the read deletes it. */
  lemma StaleEntryRemoved<T>(storage: map<string, Entry<T>>, key: string, data: T, written: int, maxAgeMs: int, now: int)
    requires StorageKey(key) in storage && storage[StorageKey(key)] == Envelope(data, written)
    requires now - written > maxAgeMs
    ensures Lookup(storage, key, maxAgeMs, now) == None
    ensures AfterLookup(storage, key, maxAgeMs, now) == storage - {StorageKey(key)}
    ensures StorageKey(key) !in AfterLookup(storage, key, maxAgeMs, now)
  {
  }

  /** The storage keys of a list of logical keys. */
  function StorageKeys(keys: seq<string>): (ks: set<string>)
    ensures forall k :: k in keys ==> StorageKey(k) in ks
    ensures forall s :: s in ks ==> exists k :: k in keys && s == StorageKey(k)
  {
    set k | k in keys :: StorageKey(k)
  }

  /** `window.localStorage` as seen by the cache helpers. */
  class LocalCache<T> {
    /** Every key of the origin's storage, including keys of other parts of the
        application (such as the `auth` entry). */
    var storage: map<string, Entry<T>>

    /** `hasStorage()`: whether `window.localStorage` exists at all. */
    const available: bool

    constructor (available: bool, storage: map<string, Entry<T>>)
      ensures this.available == available && this.storage == storage
    {
      this.available := available;
      this.storage := storage;
    }

    /** `setCache(key, data)` at time `now`. `quotaExceeded` says whether
        `setItem` throws; the error is swallowed and the storage stays as it was. */
    method Set(key: string, data: T, now: int, quotaExceeded: bool)
      modifies this
      ensures storage == if available && !quotaExceeded
                         then old(storage)[StorageKey(key) := Envelope(data, now)]
                         else old(storage)
    {
      if !available {
        return;
      }
      if !quotaExceeded {
        storage := storage[StorageKey(key) := Envelope(data, now)];
      }
    }

    /** `getCache(key, maxAgeMs)` at time `now`. */
    method Get(key: string, maxAgeMs: int, now: int) returns (r: Option<T>)
      modifies this
      ensures available ==> r == Lookup(old(storage), key, maxAgeMs, now)
      ensures available ==> storage == AfterLookup(old(storage), key, maxAgeMs, now)
      ensures !available ==> r == None && storage == old(storage)
    {
      if !available {
        return None;
      }
      var k := StorageKey(key);
      if k !in storage || storage[k].EmptyValue? {
        return None;
      }
      match storage[k]
      case Unparseable =>
        // `JSON.parse` throws; the catch block returns null and keeps the entry.
        r := None;
      case BadEnvelope =>
        storage := storage - {k};
        r := None;
      case Envelope(data, timestamp) =>
        if now - timestamp > maxAgeMs {
          storage := storage - {k};
          r := None;
        } else {
          r := Some(data);
        }
    }

    /** `clearCache(keys)`: removes the given logical keys, or every value of
        `CACHE_KEYS` when `keys` is absent, one `removeItem` at a time. */
    method Clear(keys: Option<seq<string>>)
      modifies this
      ensures available ==> storage == old(storage) - StorageKeys(if keys.Some? then keys.value else CacheKeys)
      ensures !available ==> storage == old(storage)
    {
      if !available {
        return;
      }
      var targets := if keys.Some? then keys.value else CacheKeys;
      var i := 0;
      while i < |targets|
        invariant 0 <= i <= |targets|
        invariant storage == old(storage) - StorageKeys(targets[..i])
      {
        assert targets[..i + 1] == targets[..i] + [targets[i]];
        storage := storage - {StorageKey(targets[i])};
        i := i + 1;
      }
      assert targets[..i] == targets;
    }
  }
}
