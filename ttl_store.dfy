/**
 * The Keyv instance the plugin keeps at module level (index.js:8): an
 * in-memory key-value store whose entries carry an absolute expiry time.
 * Time is an integer clock in milliseconds that only moves when someone
 * waits (`Advance`).
 */
module TtlStore {
  import opened Wrappers

  /** A stored string and the instant after which it no longer reads back. */
  datatype Entry = Entry(value: string, expiresAt: int)

  type Entries = map<string, Entry>

  /** What `get(key)` resolves to at time `now`: an entry is live up to and
      including its expiry instant, and absent afterwards. */
  function Lookup(entries: Entries, now: int, key: string): (r: Option<string>)
    ensures r.Some? <==> key in entries && now <= entries[key].expiresAt
    ensures r.Some? ==> r.value == entries[key].value
  {
    if key in entries && now <= entries[key].expiresAt then Some(entries[key].value) else None
  }

  /** The entries after `set(key, value, ttl)` at time `now` (last write wins). */
  function Put(entries: Entries, now: int, key: string, value: string, ttl: int): (r: Entries)
    ensures r.Keys == entries.Keys + {key}
    ensures r[key] == Entry(value, now + ttl)
  {
    entries[key := Entry(value, now + ttl)]
  }

  /** A write reads back exactly until `ttl` milliseconds have passed. */
  lemma LookupAfterPut(entries: Entries, now: int, key: string, value: string, ttl: int, later: int)
    ensures Lookup(Put(entries, now, key, value, ttl), later, key)
         == (if later <= now + ttl then Some(value) else None)
  {
  }

  /** A write to one key is invisible under every other key. */
  lemma LookupOtherKey(entries: Entries, now: int, key: string, value: string, ttl: int, other: string, later: int)
    requires other != key
    ensures Lookup(Put(entries, now, key, value, ttl), later, other) == Lookup(entries, later, other)
  {
  }

  /** Once absent, a key stays absent as time goes on unless it is written again. */
  lemma AbsentStaysAbsent(entries: Entries, now: int, later: int, key: string)
    requires now <= later
    requires Lookup(entries, now, key) == None
    ensures Lookup(entries, later, key) == None
  {
  }

  class Keyv {
    var entries: Entries
    var now: int

    /** `new Keyv()`: an empty store; `start` is the clock's reading. */
    constructor (start: int)
      ensures entries == map[] && now == start
    {
      entries := map[];
      now := start;
    }

    /** `cache.get(key)`. Keyv drops an expired entry lazily when it is read;
        that deletion is not observable through `get`, so it is not modelled. */
    function Get(key: string): (r: Option<string>)
      reads this
      ensures r.Some? <==> key in entries && now <= entries[key].expiresAt
      ensures r.Some? ==> r.value == entries[key].value
    {
      Lookup(entries, now, key)
    }

    /** `cache.set(key, value, ttl)`. */
    method Set(key: string, value: string, ttl: int)
      modifies this
      ensures entries == Put(old(entries), old(now), key, value, ttl)
      ensures now == old(now)
      ensures Get(key) == (if ttl >= 0 then Some(value) else None)
    {
      entries := entries[key := Entry(value, now + ttl)];
    }

    /** Lets `ms` milliseconds pass (`BPromise.delay(ms)`, or a handler's running time). */
    method Advance(ms: nat)
      modifies this
      ensures now == old(now) + ms
      ensures entries == old(entries)
    {
      now := now + ms;
    }
  }
}
