/**
  The render cache as the renderer consumes it from the cache provider: a
  key/value store of canonical URL strings to rendered bytes.  An
  explorable cache also exposes each entry with the time it was last
  written.  The provider's own storage, eviction and scheduling are not
  part of this model: its store is a map, the write time is a parameter,
  and the keys on which its `get` and its `put` raise an `IOException` are
  two fixed sets, so a write can fail on a key that reads fine.
*/
module RenderCache {
  import opened Wrappers
  import opened Http

  datatype Entry = Entry(value: Bytes, lastModified: int)

  /** What a cache holds, as a value. */
  datatype CacheState = CacheState(explorable: bool, entries: map<string, Entry>, failing: set<string>, putFailing: set<string>)

  datatype CacheError = ProviderIOException

  /** `Cache.get`: the stored bytes, nothing, or the provider's exception. */
  function Lookup(st: CacheState, key: string): (r: Result<Option<Bytes>, CacheError>)
  {
    if key in st.failing then Failure(ProviderIOException)
    else if key in st.entries then Success(Some(st.entries[key].value))
    else Success(None)
  }

  /** `ExplorableCache.getEntry`, which declares no exception. */
  function EntryOf(st: CacheState, key: string): Option<Entry>
  {
    if key in st.entries then Some(st.entries[key]) else None
  }

  /** `Cache.put` stamped with the provider's clock. */
  function Store(st: CacheState, key: string, value: Bytes, now: int): Result<CacheState, CacheError>
  {
    if key in st.putFailing then Failure(ProviderIOException)
    else Success(st.(entries := st.entries[key := Entry(value, now)]))
  }

  class Cache {
    const explorable: bool
    const failing: set<string>
    const putFailing: set<string>
    var entries: map<string, Entry>

    constructor (explorable: bool, failing: set<string>, putFailing: set<string>)
      ensures this.explorable == explorable && this.failing == failing && this.putFailing == putFailing
      ensures entries == map[]
    {
      this.explorable := explorable;
      this.failing := failing;
      this.putFailing := putFailing;
      entries := map[];
    }

    function State(): CacheState
      reads this
    {
      CacheState(explorable, entries, failing, putFailing)
    }

    method Get(key: string) returns (r: Result<Option<Bytes>, CacheError>)
      ensures r == Lookup(State(), key)
    {
      if key in failing {
        r := Failure(ProviderIOException);
      } else if key in entries {
        r := Success(Some(entries[key].value));
      } else {
        r := Success(None);
      }
    }

    method GetEntry(key: string) returns (r: Option<Entry>)
      ensures r == EntryOf(State(), key)
    {
      r := if key in entries then Some(entries[key]) else None;
    }

    method Put(key: string, value: Bytes, now: int) returns (r: Result<(), CacheError>)
      modifies this
      ensures Store(old(State()), key, value, now).Success? ==> r.Success? && State() == Store(old(State()), key, value, now).value
      ensures Store(old(State()), key, value, now).Failure? ==> r.Failure? && entries == old(entries)
    {
      if key in putFailing {
        r := Failure(ProviderIOException);
      } else {
        entries := entries[key := Entry(value, now)];
        r := Success(());
      }
    }

    /** `Cache.refresh`: the provider calls back into the renderer for a new
        value and writes it; a failed recalculation or a failing write leaves
        the entry as it was. */
    method Refresh(key: string, recalculated: Result<Bytes, int>, now: int) returns (r: Result<(), CacheError>)
      modifies this
      ensures recalculated.Success? && key !in putFailing ==>
        r.Success? && entries == old(entries)[key := Entry(recalculated.value, now)]
      ensures recalculated.Failure? || key in putFailing ==> r.Failure? && entries == old(entries)
    {
      if key in putFailing || recalculated.Failure? {
        r := Failure(ProviderIOException);
      } else {
        entries := entries[key := Entry(recalculated.value, now)];
        r := Success(());
      }
    }
  }

  /** What is stored can be read back, byte for byte, unless reading that
      key raises; the entry itself is always there. */
  lemma StoreThenLookup(st: CacheState, key: string, value: Bytes, now: int)
    requires Store(st, key, value, now).Success?
    ensures key !in st.failing ==> Lookup(Store(st, key, value, now).value, key) == Success(Some(value))
    ensures key in st.failing ==> Lookup(Store(st, key, value, now).value, key).Failure?
    ensures EntryOf(Store(st, key, value, now).value, key) == Some(Entry(value, now))
  {
  }

  /** Storing one key leaves every other key as it was. */
  lemma StoreOtherKeys(st: CacheState, key: string, other: string, value: Bytes, now: int)
    requires Store(st, key, value, now).Success? && other != key
    ensures Lookup(Store(st, key, value, now).value, other) == Lookup(st, other)
  {
  }
}
