/** The refresh-token cache (`cache.Repository`, backed by freecache): a
    key-to-bytes store with Get, Set and Del. Eviction, expiry and the
    hit/miss counters belong to the library and are not modelled. */
module TokenCache {
  import opened Wrappers
  import opened AppErrors

  /** freecache's bound on key length. */
  const MaxKeyLen: nat := 65535

  /** The errors freecache reports. */
  const ErrLargeKey: GoError := Text("The key is larger than 65535")
  const ErrLargeEntry: GoError := Text("The entry size needs less than 1/1024 of the cache size")
  const ErrEntryNotFound: GoError := Text("Entry not found")

  /** A stored value and the expiry (in seconds, 0 for none) it was set with. */
  datatype Entry = Entry(value: string, expireSeconds: int)

  /** Whether `Set(key, value, _)` is refused: keys over 65535 bytes, or a
      key and value together over the per-entry bound the cache was built
      with. */
  function SetError(maxEntryLen: nat, key: string, value: string): (err: Option<GoError>)
    ensures err.None? <==> |key| <= MaxKeyLen && |key| + |value| <= maxEntryLen
    ensures err.Some? ==> err.value == ErrLargeKey || err.value == ErrLargeEntry
  {
    if |key| > MaxKeyLen then Some(ErrLargeKey)
    else if |key| + |value| > maxEntryLen then Some(ErrLargeEntry)
    else None
  }

  class Cache {
    var entries: map<string, Entry>
    const maxEntryLen: nat

    constructor (maxEntryLen: nat)
      ensures entries == map[] && this.maxEntryLen == maxEntryLen
    {
      entries := map[];
      this.maxEntryLen := maxEntryLen;
    }

    /** `Get(key)`: the stored bytes, or nil and `ErrNotFound`. */
    method Get(key: string) returns (value: string, err: Option<GoError>)
      ensures key in entries <==> err.None?
      ensures key in entries ==> value == entries[key].value
      ensures key !in entries ==> value == "" && err == Some(ErrEntryNotFound)
    {
      if key in entries {
        return entries[key].value, None;
      }
      return "", Some(ErrEntryNotFound);
    }

    /** `Set(key, value, expireIn)`: inserts or overwrites, unless the entry
        is too large, in which case nothing changes. */
    method Set(key: string, value: string, expireIn: int) returns (err: Option<GoError>)
      modifies this
      ensures err == SetError(maxEntryLen, key, value)
      ensures err.None? ==> entries == old(entries)[key := Entry(value, expireIn)]
      ensures err.Some? ==> entries == old(entries)
    {
      err := SetError(maxEntryLen, key, value);
      if err.None? {
        entries := entries[key := Entry(value, expireIn)];
      }
    }

    /** `Del(key)`: removes the key and reports whether it was there. */
    method Del(key: string) returns (affected: bool)
      modifies this
      ensures affected == (key in old(entries))
      ensures entries == old(entries) - {key}
    {
      affected := key in entries;
      entries := entries - {key};
    }
  }
}
