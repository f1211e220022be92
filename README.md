# stickynote memoization engine, modelled in Dafny

stickynote is a Python library that memoizes function results in a pluggable
store. This project models the library's engine and proves properties of it.

- **Key strategies** (`key_strategies.dfy`). A strategy turns a callable and its
  arguments into a cache key:
  - `SourceCode` hashes the callable's source text;
  - `Inputs` binds the arguments to the signature, applies defaults, and hashes
    their sorted-key JSON, falling back to pickle;
  - a compound strategy hashes its components' keys, concatenated in order.
  Compounds stay flat, both when constructed and under `+`.
- **Storage protocol** (`storage_base.dfy`). This is what every backend must
  answer for `exists`, `get` and `set`, including the optional `created_after`
  time bound, together with the `MissingMemoError` / `ExpiredMemoError`
  hierarchy. Three dictionary-backed stores are classes with a
  `cache: map<string, string>` field:
  - the live `MemoryStorage` (`storage_memory.dfy`), which is the default store;
  - the legacy `MemoryStorage`, whose `get` returns `None` on a miss
    (`storage_legacy.dfy`);
  - the older `MemoryBackend` (`backends.dfy`).
- **Memo block, memoized callable and `memoize`** (`memoize.dfy`).
  - `MemoBlock.load` walks the serializer chain until one serializer
    deserializes the stored text. `MemoBlock.save` writes the output of the
    first serializer that succeeds. When every serializer fails, both raise one
    aggregate `ExceptionGroup`.
  - `MemoizedCallable.__call__` runs these steps in order: compute the key,
    load, and on a hit fire the hit callbacks; on a miss invoke the function and
    save its result.
  - `memoize` works both as `@memoize` and as `@memoize(...)`.

Shared runtime notions are in `pyruntime.dfy`: values, exceptions and their
class hierarchy (`isinstance` via the method resolution order), and callables
with declared parameters. Library calls the engine makes become fields of a
`Libraries` value passed in as a parameter: SHA-256, UTF-8 encoding,
`json.dumps(sort_keys=True)`, `pickle.dumps`, `inspect.getsource`, and the
`compute` of a user-defined strategy. The JSON and pickle encoders,
`getsource` and a user-defined `compute` may fail; SHA-256 and UTF-8 encoding
are total (see "Left out" for what that does not capture).
The serializer protocol is in `serializers.dfy`: a pair of partial conversions,
plus the order of the default chain.

Each step that changes state is a method of a class, proved against a
specification function:
- `MemoBlock.Load` against `LoadSpec`;
- `MemoBlock.Save` against `SaveSpec`;
- `MemoizedCallable.Call` against `CallSpec`;
- the compound key loop `ComputeKey` against `Compute`.
The lemmas about those functions state what the library promises. Ghost fields
record what the source does not expose but the promises are about:
- `tried`: how many serializers were attempted;
- `invocations`: how many times the wrapped function ran;
- `fired`: the log of hit-callback invocations.

Where the tests and the code disagree, the model follows the code. The tests
exercise a newer API than the code contains. That API has a key-taking
`MemoBlock`, `stage`, `before_cache_lookup`, `max_age`, and hit-callback errors
that are logged rather than raised. In the code, a hit callback that raises ends
the call with that exception; `HitOutcome` states this and `HitSkipsInvocation`
carries it to the whole call.

## Model

| member | source | states |
|---|---|---|
| `PyRuntime.NewExceptionGroup` | stickynote/memoize.py:171-175 | the aggregate holds exactly the given errors; an empty list raises `ValueError` instead |
| `StorageBase.ErrorHierarchy` | stickynote/storage/base.py:7-16 | `except MissingMemoError` catches exactly the `MissingMemoError` and `ExpiredMemoError` instances, and `except ExpiredMemoError` only the latter; a statement about the exception classes, not about which records raise which |
| `StorageBase.UnboundedIsPresence` | stickynote/storage/base.py:24-35 | with no time bound, `exists` and `get` of a conforming store answer plain presence and the stored text |
| `StorageBase.GetAgreesWithExists` | stickynote/storage/base.py:52-67 | `get` succeeds exactly when `exists` with the same bound holds; otherwise it raises a `MissingMemoError` (expired included) |
| `StorageBase.ExistsMeets` | stickynote/storage/base.py:24-35 | the protocol's `exists`: the answer is whether a valid record exists; a conforming `true` implies the key is present |
| `StorageBase.GetMeets` | stickynote/storage/base.py:52-67 | the protocol's `get`: the record's text when valid, else a `MissingMemoError` instance; a conforming `get` succeeds iff the record is valid |
| `StorageBase.SetMeets` | stickynote/storage/base.py:86-90 | the protocol's `set`: the key holds the value afterwards, no other key changes, at most one key is added |
| `StorageBase.Stamp` | stickynote/storage/base.py:86-90 | writing a record meets the `set` contract: the key now holds the value, no key appears or disappears except it, others keep their records |
| `StorageBase.SetThenGet` | stickynote/storage/base.py:86-90 | after `set(key, value)`, an unbounded `get(key)` returns `value`, and every other key reads exactly as before |
| `StorageBase.MirrorsDecideUnbounded` | stickynote/storage/base.py:24-35 | a store without timestamps is judged through any timestamped view of its cache with the same texts |
| `StorageMemory.MemoryStorage.constructor` | stickynote/storage/memory.py:11-12 | a new store is empty |
| `StorageMemory.MemoryStorage.Exists` | stickynote/storage/memory.py:14-18 | true iff the key is cached; meets the protocol's unbounded `exists`; the cache is untouched |
| `StorageMemory.MemoryStorage.Get` | stickynote/storage/memory.py:26-33 | the cached text when present, else `MissingMemoError` with the "not found in memory cache" message; meets the protocol's unbounded `get`; the cache is untouched |
| `StorageMemory.MemoryStorage.Set` | stickynote/storage/memory.py:44-48 | replaces only the entry for the key; every timestamped view of the old cache, restamped, views the new one (the protocol's `set`) |
| `StorageLegacy.MemoryStorage.constructor` | stickynote/storage.py:55-56 | a new store is empty |
| `StorageLegacy.MemoryStorage.Exists` | stickynote/storage.py:58-62 | true iff the key is cached |
| `StorageLegacy.MemoryStorage.Get` | stickynote/storage.py:70-74 | the cached text when present, `None` when absent, never raising |
| `StorageLegacy.MemoryStorage.Set` | stickynote/storage.py:82-86 | replaces only the entry for the key |
| `Backends.MemoryBackend.constructor` | stickynote/backends.py:11-12 | a new backend is empty |
| `Backends.MemoryBackend.Exists` | stickynote/backends.py:14-15 | true iff the key is cached |
| `Backends.MemoryBackend.Get` | stickynote/backends.py:17-18 | the cached text when present, else `KeyError(key)` from dictionary indexing |
| `Backends.MemoryBackend.Set` | stickynote/backends.py:20-21 | replaces only the entry for the key |
| `KeyStrategies.Flatten` | stickynote/key_strategies.py:61-70 | splicing well-formed arguments yields only non-compound strategies |
| `KeyStrategies.NewCompound` | stickynote/key_strategies.py:60-70 | the constructor's result never holds a compound |
| `KeyStrategies.Add` | stickynote/key_strategies.py:16-17 | `a + b` for a plain and for a compound `a`: always a compound, well-formed for well-formed operands (components in `AddComponents`) |
| `KeyStrategies.FlattenAppend` | stickynote/key_strategies.py:61-70 | flattening distributes over concatenation of the arguments |
| `KeyStrategies.FlattenAtomic` | stickynote/key_strategies.py:61-70 | non-compound arguments are kept as they are, in argument order |
| `KeyStrategies.NewCompoundFlat` | stickynote/key_strategies.py:60-70 | the components are the arguments' components in order, and none is compound |
| `KeyStrategies.AddComponents` | stickynote/key_strategies.py:78-82 | `a + b` (both `__add__` forms) is a flat compound with the components of `a` followed by those of `b` |
| `KeyStrategies.AddAssociative` | stickynote/key_strategies.py:16-17 | `(a + b) + c == a + (b + c)` for well-formed strategies |
| `KeyStrategies.FourWaySum` | stickynote/key_strategies.py:78-82 | `(s1+s2)+(s3+s4)`, `s1+s2+s3+s4` and `Compound(s1+s2, s3+s4)` all have components `[s1, s2, s3, s4]` |
| `KeyStrategies.DefaultStrategy` | stickynote/key_strategies.py:85 | the default strategy's components are exactly `[SourceCode, Inputs]` |
| `KeyStrategies.BindRest` | stickynote/key_strategies.py:26-29 | the keyword phase of binding: fails only with `TypeError`, and binds one entry per remaining parameter (values in `BindRestMeaning`) |
| `KeyStrategies.Bind` | stickynote/key_strategies.py:23-29 | `sig.bind` plus `apply_defaults`: fails only with `TypeError`; on success no more positionals than parameters and one entry per parameter (values in `BindMeaning`) |
| `KeyStrategies.BindRestMeaning` | stickynote/key_strategies.py:26-29 | the keyword phase succeeds iff every remaining parameter has a keyword or a default, binding each to it in order; otherwise `TypeError` |
| `KeyStrategies.BindMeaning` | stickynote/key_strategies.py:23-29 | binding succeeds iff the call fits the signature, failing with `TypeError` otherwise; every parameter is bound, in order, to its positional argument, its keyword argument or its default |
| `KeyStrategies.SameBinding` | stickynote/key_strategies.py:26-32 | calls that give every parameter the same value yield the same bound arguments, whatever the keyword order |
| `KeyStrategies.KeywordForPositional` | stickynote/key_strategies.py:26-32 | passing the last positional argument by name binds identically |
| `KeyStrategies.KeywordsFromMeaning` | stickynote/key_strategies.py:26 | the keyword map built from `values[k..]` names exactly those parameters, with their values |
| `KeyStrategies.MixedPassing` | stickynote/key_strategies.py:26-32 | positional, mixed and all-keyword passing of the same values bind identically |
| `KeyStrategies.ExplicitDefault` | stickynote/key_strategies.py:29 | passing a parameter's default explicitly, by name or positionally, binds like omitting it |
| `KeyStrategies.DictOf` | stickynote/key_strategies.py:32 | `dict(bound_args.arguments)`: its keys are exactly the bound names, and the last entry's name maps to its value (every other entry in `DictOfValues`) |
| `KeyStrategies.DictOfValues` | stickynote/key_strategies.py:32 | every entry with no later entry of the same name gives that name its value |
| `KeyStrategies.EncodeArguments` | stickynote/key_strategies.py:34-50 | hash of the sorted-key JSON when it encodes; else hash of the pickle; `ValueError("Failed to serialize arguments")` iff both raise |
| `KeyStrategies.InputsKey` | stickynote/key_strategies.py:20-39 | the `Inputs` key depends only on the bound arguments |
| `KeyStrategies.SourceCodeKey` | stickynote/key_strategies.py:53-57 | the `SourceCode` key depends only on the source text, never on the arguments |
| `KeyStrategies.Compute` | stickynote/key_strategies.py:20-76 | each strategy's `compute`: `SourceCode` is the hash of the UTF-8 source text, or `OSError` when it cannot be read; `Inputs` is `EncodeArguments` of the binding (so JSON first, then pickle, else `ValueError`), or `TypeError` when the call does not bind; a custom strategy's own `compute`; a failing compound raises some component's error (its key in `CompoundKey`) |
| `KeyStrategies.Fed` | stickynote/key_strategies.py:74-75 | the bytes fed to the hash; a failure is the error of one of the components (contents in `FedKeys`, `CompoundKeyFailure`) |
| `KeyStrategies.FedKeys` | stickynote/key_strategies.py:74-75 | when every component yields a key, the hash is fed their UTF-8 encodings, in order |
| `KeyStrategies.CompoundKey` | stickynote/key_strategies.py:72-76 | a compound key is the hash of the in-order concatenation of the components' keys |
| `KeyStrategies.CompoundKeyFailure` | stickynote/key_strategies.py:74-75 | a compound raises what its first failing component raises |
| `KeyStrategies.FedFailureSticks` | stickynote/key_strategies.py:74-75 | once a prefix of the components fails, the whole feed fails with that error |
| `KeyStrategies.GroupingsAgree` | stickynote/key_strategies.py:61-82 | `(a + b) + c` and `a + (b + c)` are the very compound `CompoundMemoKeyStrategy(a, b, c)` builds |
| `KeyStrategies.SameComponentsSameKey` | stickynote/key_strategies.py:61-82 | `(a + b) + c`, `a + (b + c)` and `CompoundMemoKeyStrategy(a, b, c)` compute the same key for every callable and arguments |
| `KeyStrategies.ComputeKey` | stickynote/key_strategies.py:72-76 | the loop feeding each component's key to the hash computes `Compute`, stopping at the first raising component |
| `Serializers.DefaultSerializerChain` | stickynote/serializers.py:51-54 | the default chain is the JSON serializer, then the pickle one |
| `Memoize.FirstSuccess` | stickynote/memoize.py:163-169 | the first successful attempt in order, with all earlier ones failing; or every error, in order, one per attempt |
| `Memoize.LoadSpec` | stickynote/memoize.py:157-175 | a miss loads nothing and raises nothing (non-empty chain); a hit is the first deserializer that succeeds; if all `n` fail, one `ExceptionGroup` of exactly those `n` errors in chain order; an empty chain raises `ValueError` |
| `Memoize.SaveSpec` | stickynote/memoize.py:177-192 | saving succeeds iff some serializer succeeds, with the first one's output; otherwise one `ExceptionGroup` of exactly `n` errors in chain order (`ValueError` for an empty chain) |
| `Memoize.MemoBlock.constructor` | stickynote/memoize.py:138-149 | a fresh block has no hit and value `None`; a single serializer becomes a one-element chain, an iterable keeps its order |
| `Memoize.MemoBlock.Load` | stickynote/memoize.py:157-175 | sets `hit`/`value` exactly as `LoadSpec` says, tries no deserializer after the winner, and leaves both unchanged on a miss or failure |
| `Memoize.MemoBlock.Save` | stickynote/memoize.py:177-192 | writes exactly the winning serializer's output under the key, tries none after it; on failure writes nothing and raises the aggregate |
| `Memoize.EventAt` | stickynote/memoize.py:63-70 | the arguments of callback `j`: the hit's key, value, function and arguments, with the clock reading taken for that callback |
| `Memoize.FirstRaising` | stickynote/memoize.py:62-70 | the index of the first callback that raises on its event, every earlier one returning normally |
| `Memoize.Firings` | stickynote/memoize.py:62-70 | the first `n` callbacks fired in registration order, callback `j` with the hit details and the `j`-th clock reading |
| `Memoize.HitOutcome` | stickynote/memoize.py:61-71 | a hit never runs the function or writes the store; the call fails iff some callback raises, and then with the exception of the last callback fired, every earlier one having returned normally; otherwise it returns the loaded value after all callbacks fire in order |
| `Memoize.MissOutcome` | stickynote/memoize.py:72-74 | a miss runs the function once and fires nothing; its exception propagates with the store unchanged; otherwise `SaveSpec` decides: the winning text is stored under the key and the result returned, or the aggregate is raised and the store is unchanged |
| `Memoize.CallSpec` | stickynote/memoize.py:57-74 | one call: callbacks fire only if the function did not run; the store changes only when the function ran and returned, and at most by adding the computed key (the paths in `KeyFailureStops`, `UnreadableRecordStops`, `HitSkipsInvocation`, `MissInvokesAndSaves`) |
| `Memoize.KeyFailureStops` | stickynote/memoize.py:59 | a raising key strategy propagates; the store is not touched, the function does not run, no callback fires |
| `Memoize.HitSkipsInvocation` | stickynote/memoize.py:61-71 | on a hit the function does not run and the store is not written; callbacks fire in order with the same key, value, function and arguments, callback `j` at the `j`-th clock reading; the call fails iff some callback raises, with the first raising callback's exception, every earlier one having returned normally and no later one fired; otherwise the value is returned |
| `Memoize.MissInvokesAndSaves` | stickynote/memoize.py:72-74 | on a miss the function runs once and no callback fires; its exception propagates with the store untouched; its result is stored in the form of the first serializer that accepts it (falling back along the chain) and returned; if every serializer rejects it, the call raises an aggregate of exactly those errors in chain order and the store is untouched |
| `Memoize.UnreadableRecordStops` | stickynote/memoize.py:57-60 | a present record that no deserializer reads fails the call with the aggregate of every deserializer's error in chain order, and an empty chain with `ValueError`; the function does not run, no callback fires, the store is untouched |
| `Memoize.SecondCallHits` | stickynote/memoize.py:57-74 | two calls with the same arguments run the function once and return its result both times, when the first serializer round-trips it |
| `Memoize.MemoizedCallable.constructor` | stickynote/memoize.py:44-55 | keeps the function, store, serializer and strategy; no callbacks yet |
| `Memoize.MemoizedCallable.OnCacheHit` | stickynote/memoize.py:76-80 | appends the callback after those already registered |
| `Memoize.MemoizedCallable.RunHitCallbacks` | stickynote/memoize.py:62-70 | runs the callbacks in order until one raises, logging each firing, as `HitOutcome` states |
| `Memoize.MemoizedCallable.Call` | stickynote/memoize.py:57-74 | result, new cache, invocation count and callback log are exactly those of `CallSpec` on the old state |
| `Memoize.DefaultOptions` | stickynote/memoize.py:103-113 | `memoize`'s defaults: the default store, `[SourceCode, Inputs]`, JSON then pickle, no callback |
| `Memoize.ConfigureAsWritten` | stickynote/memoize.py:130 | `memoize(fn, **options)` as written keeps the function, serializer and strategy and registers no callback |
| `Memoize.Configure` | stickynote/memoize.py:130 | the corrected configuration: as written, plus `on_cache_hit` as the only callback when given |
| `Memoize.HitCallbackIgnored` | stickynote/memoize.py:126-130 | as written, an `on_cache_hit=` callback never fires, even on a hit |
| `Memoize.HitCallbackRegistered` | stickynote/memoize.py:126-130 | once registered, the `on_cache_hit=` callback fires exactly once per hit with its details |
| `Memoize.Decorate` | stickynote/memoize.py:129-130 | a fresh memoized callable with the given function and options, which has not run yet; it uses the corrected `Configure`, so `on_cache_hit` is registered, unlike line 130 as written |
| `Memoize.Memoize` | stickynote/memoize.py:103-130 | without a function, a decorator holding the options; with one, a fresh memoized callable configured by the corrected `Configure` (which registers `on_cache_hit`, unlike line 130 as written) |
| `Memoize.ApplyDecorator` | stickynote/memoize.py:118-128 | applying `memoize(**options)` to a function configures it exactly as `memoize(fn, **options)`, with the corrected `Configure` that registers `on_cache_hit` |

## Left out

- Async twins: `exists_async`, `get_async`, `set_async` and the async protocol
  members. Run sequentially, they do the same as the sync forms.
- File and Redis storage: filesystem and network I/O.
- Concrete serializers (JSON, pickle, base64, cloudpickle): they are modelled
  only as partial conversions, apart from the default chain order.
- The libraries behind SHA-256, UTF-8, `json.dumps`, `pickle.dumps` and
  `inspect.getsource`: these are uninterpreted functions, so no property of
  hashing (such as collisions) is claimed.
- `datetime.now(timezone.utc)`: its readings during one call are a parameter
  (`Clock`, one reading per hit callback); no ordering between readings is
  assumed. Logging is left out.
- `Libraries.utf8` is total, but `str.encode("utf-8")` raises
  `UnicodeEncodeError` on a lone surrogate. This can happen in a source text
  or in a component's key (key_strategies.py:56, 75). The model has no such
  failure.
- `inspect.signature(func)` (key_strategies.py:23) can raise, for some
  built-ins for example. The model takes every callable's parameter list as
  given.
- A failing `inspect.getsource` is always `OSError` in `Compute`. For built-ins
  the real call raises `TypeError`.
- `SerializerArg.Many` is a re-iterable sequence. The source keeps the raw
  argument (memoize.py:53) and runs `tuple(serializer)` again on every call
  (memoize.py:58, 149). A one-shot iterator such as a generator would
  therefore give an empty chain from the second call on, and every later
  `load` would raise `ValueError`. The model does not capture that.
- `__enter__` and `__exit__`: both are no-ops; saving is explicit.
- `Memoize.CallSpec`, `Memoize.MissOutcome`, `Memoize.HitOutcome`,
  `Memoize.MissInvokesAndSaves` and `Memoize.HitSkipsInvocation`: the wrapped
  function, the hit callbacks and custom key strategies are modelled as
  effect-free, so they cannot reach the store. In Python they are user code.
  A memoized function that calls another memoized function (or itself) on the
  same store writes further keys during its own miss, and a callback may write
  to the store. "The store changes at most by the computed key" and "a hit
  writes nothing" hold only for functions and callbacks that do not touch it.
- `Value.Dict` is an unordered map, but a Python `dict` keeps insertion order,
  and `pickle.dumps` writes a dict's items in that order. Under the pickle
  fallback of `Inputs`, `f(obj, {"x": 1, "y": 2})` and `f(obj, {"y": 2, "x": 1})`
  get different keys in Python but the same key in the model (`InputsKey`,
  `SameBinding`). The JSON encoding sorts keys, so it is unaffected.
- Parameters other than positional-or-keyword ones (positional-only,
  keyword-only, `*args`, `**kwargs`) are not modelled in binding. Binding
  errors are a bare `TypeError`, without CPython's messages.
- Storage pluggability: `MemoBlock` and `MemoizedCallable` hold the live
  in-memory store. Other stores are judged against the protocol predicates
  instead.
- Exceptions that do not derive from `Exception` (`KeyboardInterrupt` and the
  like), which `except Exception` does not catch.
- `StorageMemory.MemoryStorage.Exists`: its protocol conformance covers only
  calls without `created_after`, because this store's `exists` and `get` take
  no time bound.
- `StorageMemory.MemoryStorage.Get`: its protocol conformance covers only calls
  without `created_after`, for the same reason.
- `Memoize.MemoBlock.Save`: a `set` that raises is not modelled, because the
  in-memory store's `set` cannot raise.
- `Memoize.SecondCallHits`: it assumes the first serializer round-trips the
  result and no hit callback raises; otherwise the second call may load a
  different value or fail.
- The tests exercise behaviour absent from the code as written: a key-taking
  `MemoBlock`, `stage`, `before_cache_lookup`, `max_age` expiry, and caught
  hit-callback errors. None of it is modelled.

## Findings

| source | as written | input that shows it | evidently intended | confidence | as-written member | corrected member |
|---|---|---|---|---|---|---|
| stickynote/memoize.py:126-130 | `on_cache_hit` is forwarded through `partial` but never passed to `MemoizedCallable`, so it is dropped | `@memoize(on_cache_hit=cb)` on any function, called twice with the same arguments: the second call is a hit and `cb` never runs | the callback is registered as the first hit callback, as the package docstring's hit-counting example uses it | not executed | `Memoize.ConfigureAsWritten`, `Memoize.HitCallbackIgnored` | `Memoize.Configure`, `Memoize.HitCallbackRegistered` (used by `Memoize.Decorate`) |
