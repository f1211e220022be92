/**
 * The single-module storage layer that the storage package now shadows. Only
 * its `MemoryStorage` is modelled: unlike the package's, its `get` returns
 * `None` on a miss instead of raising.
 */
module StorageLegacy {
  import opened PyRuntime

  class MemoryStorage {
    var cache: map<string, string>

    constructor ()
      ensures cache == map[]
    {
      cache := map[];
    }

    /** `exists(key)`: presence in the cache. */
    method Exists(key: string) returns (b: bool)
      ensures b <==> key in cache
    {
      b := key in cache;
    }

    /** `get(key)`: `cache.get(key)`, never raising. */
    method Get(key: string) returns (r: Option<string>)
      ensures r.Some? <==> key in cache
      ensures r.Some? ==> r.value == cache[key]
    {
      if key in cache {
        r := Some(cache[key]);
      } else {
        r := None;
      }
    }

    /** `set(key, value)`: overwrites the entry for `key` and no other. */
    method Set(key: string, value: string)
      modifies this
      ensures cache == old(cache)[key := value]
    {
      cache := cache[key := value];
    }
  }
}
