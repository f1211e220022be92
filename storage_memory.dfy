/**
 * The in-memory backend of the storage package (`MemoryStorage`), the
 * process-wide default storage: a dictionary from key to stored text.
 */
module StorageMemory {
  import opened PyRuntime
  import StorageBase

  /** The message `get` raises with on a miss. */
  function NotFoundMessage(key: string): string {
    "Memo for key " + key + " not found in memory cache"
  }

  class MemoryStorage {
    var cache: map<string, string>

    constructor ()
      ensures cache == map[]
    {
      cache := map[];
    }

    /** `exists(key)`: presence in the cache; the cache is not touched. */
    method Exists(key: string) returns (b: bool)
      ensures b <==> key in cache
      ensures forall records :: StorageBase.Mirrors(records, cache) ==> StorageBase.ExistsMeets(records, key, None, b)
    {
      b := key in cache;
    }

    /** `get(key)`: the stored text, or `MissingMemoError` on a miss; the cache is not touched. */
    method Get(key: string) returns (r: Result<string, Exception>)
      ensures r.Success? <==> key in cache
      ensures r.Success? ==> r.value == cache[key]
      ensures r.Failure? ==> r.error == MissingMemoError(NotFoundMessage(key))
      ensures forall records :: StorageBase.Mirrors(records, cache) ==> StorageBase.GetMeets(records, key, None, r)
    {
      if key in cache {
        r := Success(cache[key]);
      } else {
        r := Failure(MissingMemoError(NotFoundMessage(key)));
      }
    }

    /** `set(key, value)`: replaces the entry for `key` and no other. */
    method Set(key: string, value: string)
      modifies this
      ensures cache == old(cache)[key := value]
      ensures forall records, t: Timestamp :: StorageBase.Mirrors(records, old(cache)) ==>
                StorageBase.Mirrors(StorageBase.Stamp(records, key, value, t), cache)
    {
      cache := cache[key := value];
    }
  }
}
