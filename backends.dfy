/**
 * The older, unused backend layer: `MemoryBackend`, a dictionary whose `get`
 * indexes it directly and so raises `KeyError` on a miss.
 */
module Backends {
  import opened PyRuntime

  class MemoryBackend {
    var cache: map<string, string>

    constructor ()
      ensures cache == map[]
    {
      cache := map[];
    }

    /** `exists(key)`: presence in the cache. */
    method Exists(key: string) returns (b: bool)
      ensures b <==> key in cache
    {
      b := key in cache;
    }

    /** `get(key)`: `cache[key]`, raising `KeyError(key)` on a miss. */
    method Get(key: string) returns (r: Result<string, Exception>)
      ensures r.Success? <==> key in cache
      ensures r.Success? ==> r.value == cache[key]
      ensures r.Failure? ==> r.error == KeyError(key)
    {
      if key in cache {
        r := Success(cache[key]);
      } else {
        r := Failure(KeyError(key));
      }
    }

    /** `set(key, value)`: alters the entry for `key` and no other. */
    method Set(key: string, value: string)
      modifies this
      ensures cache == old(cache)[key := value]
    {
      cache := cache[key := value];
    }
  }
}
