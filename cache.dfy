/** `GlobalCache`: a keyed store whose entries expire a given number of
    seconds after they were written. The clock is passed in as `now`, in
    milliseconds, wherever the source reads `Date.now()`. */
module QuoteCache {
  import opened Wrappers

  datatype CacheEntry<T> = CacheEntry(data: T, timestamp: int)

  /** `(now - timestamp) / 1000 > ttlSeconds`: strictly older than the TTL. */
  predicate Expired(timestamp: int, ttlSeconds: real, now: int) {
    ((now - timestamp) as real) / 1000.0 > ttlSeconds
  }

  /** An entry exactly `ttlSeconds` old is still fresh. */
  lemma ExpiredIffOlderThanTtl(timestamp: int, ttlSeconds: real, now: int)
    ensures Expired(timestamp, ttlSeconds, now) <==> ((now - timestamp) as real) > ttlSeconds * 1000.0
  {
  }

  /** What `get` returns, and the entries it leaves behind. */
  datatype Lookup<T> = Lookup(value: Option<T>, entries: map<string, CacheEntry<T>>)

  /** `get(key, ttlSeconds)`: a missing key gives nothing and changes
      nothing; an expired entry gives nothing and is deleted; a fresh one
      gives its data. */
  function CacheGet<T>(entries: map<string, CacheEntry<T>>, key: string, ttlSeconds: real, now: int): (r: Lookup<T>)
    ensures r.value.Some? <==> key in entries && !Expired(entries[key].timestamp, ttlSeconds, now)
    ensures r.value.Some? ==> r.value.value == entries[key].data
    ensures key in entries && Expired(entries[key].timestamp, ttlSeconds, now) ==> r.entries == entries - {key}
    ensures key !in entries || !Expired(entries[key].timestamp, ttlSeconds, now) ==> r.entries == entries
  {
    if key !in entries then Lookup(None, entries)
    else if Expired(entries[key].timestamp, ttlSeconds, now) then Lookup(None, entries - {key})
    else Lookup(Some(entries[key].data), entries)
  }

  /** A `get` no later than `ttlSeconds` after `set(key, d)` returns `d` and
      keeps the entry. */
  lemma GetAfterSet<T>(entries: map<string, CacheEntry<T>>, key: string, d: T, setAt: int,
                       ttlSeconds: real, now: int)
    requires ((now - setAt) as real) <= ttlSeconds * 1000.0
    ensures CacheGet(entries[key := CacheEntry(d, setAt)], key, ttlSeconds, now)
            == Lookup(Some(d), entries[key := CacheEntry(d, setAt)])
  {
    ExpiredIffOlderThanTtl(setAt, ttlSeconds, now);
  }

  /** A later `get` of an entry that has expired returns nothing and removes
      only that key. */
  lemma GetAfterExpiry<T>(entries: map<string, CacheEntry<T>>, key: string, d: T, setAt: int,
                          ttlSeconds: real, now: int)
    requires ((now - setAt) as real) > ttlSeconds * 1000.0
    ensures CacheGet(entries[key := CacheEntry(d, setAt)], key, ttlSeconds, now)
            == Lookup(None, entries - {key})
  {
    ExpiredIffOlderThanTtl(setAt, ttlSeconds, now);
    assert entries[key := CacheEntry(d, setAt)] - {key} == entries - {key};
  }

  /** Writing one key does not change what any other key reads. */
  lemma SetLeavesOtherKeys<T>(entries: map<string, CacheEntry<T>>, key: string, e: CacheEntry<T>,
                              other: string, ttlSeconds: real, now: int)
    requires other != key
    ensures CacheGet(entries[key := e], other, ttlSeconds, now).value == CacheGet(entries, other, ttlSeconds, now).value
  {
  }

  /** The cache shared by all quote lookups. */
  class GlobalCache<T> {
    var entries: map<string, CacheEntry<T>>

    constructor ()
      ensures entries == map[]
    {
      entries := map[];
    }

    /** `set`: replaces any entry for `key`, stamped with the current time. */
    method Set(key: string, data: T, now: int)
      modifies this
      ensures entries == old(entries)[key := CacheEntry(data, now)]
    {
      entries := entries[key := CacheEntry(data, now)];
    }

    /** `get`: the value, with an expired entry deleted on the way. */
    method Get(key: string, ttlSeconds: real, now: int) returns (r: Option<T>)
      modifies this
      ensures Lookup(r, entries) == CacheGet(old(entries), key, ttlSeconds, now)
    {
      if key !in entries {
        return None;
      }
      var entry := entries[key];
      if Expired(entry.timestamp, ttlSeconds, now) {
        entries := entries - {key};
        return None;
      }
      return Some(entry.data);
    }

    /** `clear`: after it, every `get` returns nothing. */
    method Clear()
      modifies this
      ensures entries == map[]
      ensures forall key, ttl, now :: CacheGet(entries, key, ttl, now).value.None?
    {
      entries := map[];
    }
  }
}
