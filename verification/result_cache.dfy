/**
 * The result cache: `FETCH_CACHE` with `cache_set` and `cache_get`. A key maps
 * to the stored record and the clock reading taken when it was stored; an
 * entry older than the time-to-live is evicted lazily, when it is read.
 *
 * Both functions read `asyncio.get_event_loop().time()`. That call is an
 * explicit `Clock` argument: a reading, or the `RuntimeError` that
 * `get_event_loop()` raises on a thread that has no event loop.
 */
module ResultCache {
  import opened Wrappers
  import opened Profile

  /** `CACHE_TTL_SECONDS = 60 * 5`. */
  const TtlSeconds: real := (60 * 5) as real

  /** `asyncio.get_event_loop().time()`: a reading, or the message of the `RuntimeError` it raises. */
  datatype Clock = At(time: real) | NoEventLoop(message: string)

  datatype Entry = Entry(value: Record, storedAt: real)

  /** The strict test of `cache_get`: an entry exactly `TtlSeconds` old is still fresh. */
  predicate Expired(entry: Entry, now: real) {
    now - entry.storedAt > TtlSeconds
  }

  /**
   * What `cache_get(key)` returns at `now`. A missing key returns before the
   * clock is read; a present key with no readable clock raises.
   */
  function Lookup(entries: map<string, Entry>, key: string, now: Clock): (r: Result<Option<Record>>)
    ensures r.Failure? <==> key in entries && now.NoEventLoop?
    ensures r.Failure? ==> r.error == now.message
    ensures r.Success? && r.value.Some? <==>
              key in entries && now.At? && now.time - entries[key].storedAt <= TtlSeconds
    ensures r.Success? && r.value.Some? ==> r.value.value == entries[key].value
  {
    if key !in entries then Success(None)
    else if now.NoEventLoop? then Failure(now.message)
    else if Expired(entries[key], now.time) then Success(None)
    else Success(Some(entries[key].value))
  }

  /** The cache after `cache_get(key)` at `now`: an expired entry for `key` is deleted, and nothing else changes. */
  function AfterLookup(entries: map<string, Entry>, key: string, now: Clock): (after: map<string, Entry>)
    ensures after.Keys <= entries.Keys && entries.Keys - after.Keys <= {key}
    ensures forall k :: k in after ==> after[k] == entries[k]
    ensures key in entries && key !in after <==> Lookup(entries, key, now) == Success(None) && key in entries
  {
    if key in entries && now.At? && Expired(entries[key], now.time) then entries - {key} else entries
  }

  class FetchCache {
    var entries: map<string, Entry>

    constructor ()
      ensures entries == map[]
    {
      entries := map[];
    }

    /**
     * `cache_set(key, value)` at clock `now`: the whole entry is replaced. The
     * clock is read before the assignment, so when it raises the cache is
     * unchanged.
     */
    method Set(key: string, value: Record, now: Clock) returns (r: Result<()>)
      modifies this
      ensures now.At? ==> r.Success? && entries == old(entries)[key := Entry(value, now.time)]
      ensures now.NoEventLoop? ==> r == Failure(now.message) && entries == old(entries)
    {
      if now.NoEventLoop? {
        return Failure(now.message);
      }
      entries := entries[key := Entry(value, now.time)];
      return Success(());
    }

    /** `cache_get(key)` at clock `now`. */
    method Get(key: string, now: Clock) returns (r: Result<Option<Record>>)
      modifies this
      ensures r == Lookup(old(entries), key, now)
      ensures entries == AfterLookup(old(entries), key, now)
    {
      if key !in entries {
        return Success(None);
      }
      var entry := entries[key];
      if now.NoEventLoop? {
        return Failure(now.message);
      }
      if now.time - entry.storedAt > TtlSeconds {
        entries := entries - {key};
        return Success(None);
      }
      return Success(Some(entry.value));
    }
  }

  /**
   * After `cache_set(key, v)` at `t`, `cache_get(key)` at `t'` returns `v`
   * when `t' - t <= 300`; otherwise it returns `None` and removes `key`.
   */
  lemma GetAfterSet(entries: map<string, Entry>, key: string, v: Record, t: real, t': real)
    ensures var stored := entries[key := Entry(v, t)];
      && (t' - t <= 300.0 ==> Lookup(stored, key, At(t')) == Success(Some(v)) && AfterLookup(stored, key, At(t')) == stored)
      && (t' - t > 300.0 ==> Lookup(stored, key, At(t')) == Success(None) && key !in AfterLookup(stored, key, At(t')))
  {
  }

  /** A read of one key neither changes nor evicts the entry of any other key. */
  lemma LookupKeepsOtherKeys(entries: map<string, Entry>, key: string, now: Clock, other: string)
    requires other != key
    ensures other in AfterLookup(entries, key, now) <==> other in entries
    ensures other in entries ==> AfterLookup(entries, key, now)[other] == entries[other]
  {
  }

  /** A miss returns `None` without reading the clock; a read that raises changes nothing. */
  lemma LookupClockUse(entries: map<string, Entry>, key: string, now: Clock)
    ensures key !in entries ==> Lookup(entries, key, now) == Success(None) && AfterLookup(entries, key, now) == entries
    ensures now.NoEventLoop? ==> AfterLookup(entries, key, now) == entries
  {
  }

  /** A later `cache_set` of the same key replaces the whole entry, record and timestamp together. */
  lemma SetReplacesEntry(entries: map<string, Entry>, key: string, v1: Record, t1: real, v2: Record, t2: real, now: real)
    ensures entries[key := Entry(v1, t1)][key := Entry(v2, t2)] == entries[key := Entry(v2, t2)]
    ensures Lookup(entries[key := Entry(v1, t1)][key := Entry(v2, t2)], key, At(now))
         == if now - t2 > TtlSeconds then Success(None) else Success(Some(v2))
  {
  }
}
