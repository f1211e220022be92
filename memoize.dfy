/**
 * The memo block (load a result through the serializer chain, save one
 * back), the memoized callable that ties key, load, hit callbacks,
 * invocation and save together for one call, and the `memoize` decorator.
 */
module Memoize {
  import opened PyRuntime
  import opened Serializers
  import opened KeyStrategies
  import StorageMemory

  /** The `serializer` argument: a single `Serializer` or an iterable of them. */
  datatype SerializerArg = One(serializer: Serializer) | Many(serializers: seq<Serializer>)

  /** The tuple `MemoBlock` keeps: a one-element chain for a single serializer, else the iterable in order. */
  function ChainOf(arg: SerializerArg): seq<Serializer> {
    match arg
    case One(s) => [s]
    case Many(ss) => ss
  }

  const LoadFailedMessage := "All serializers failed to deserialize the result."
  const SaveFailedMessage := "All serializers failed to serialize the result."

  // ---------------------------------------------------------------------------
  // Trying the chain in order.

  /** Where a walk along the chain stopped: the first attempt that succeeded, or all the errors. */
  datatype Search<T> = Found(index: nat, value: T) | Exhausted(errors: seq<Exception>)

  /** The first successful attempt, in order; otherwise every failure, in order. */
  function FirstSuccess<T>(attempts: seq<Result<T, Exception>>): (r: Search<T>)
    ensures r.Found? ==> r.index < |attempts| && attempts[r.index] == Success(r.value)
    ensures r.Found? ==> forall j :: 0 <= j < r.index ==> attempts[j].Failure?
    ensures r.Exhausted? ==> |r.errors| == |attempts| &&
                             forall j :: 0 <= j < |attempts| ==> attempts[j] == Failure(r.errors[j])
  {
    if attempts == [] then Exhausted([])
    else match attempts[0]
      case Success(v) => Found(0, v)
      case Failure(e) =>
        (match FirstSuccess(attempts[1..])
         case Found(i, v) => Found(i + 1, v)
         case Exhausted(es) => Exhausted([e] + es))
  }

  /** One pass of `load`'s try block: `serializer.deserialize(self.storage.get(key))`. */
  function DeserializeStored(s: Serializer, stored: Result<string, Exception>): Result<Value, Exception> {
    match stored
    case Success(text) => s.deserialize(text)
    case Failure(e) => Failure(e)
  }

  function Deserializations(chain: seq<Serializer>, stored: Result<string, Exception>): (r: seq<Result<Value, Exception>>)
    ensures |r| == |chain| && forall i :: 0 <= i < |chain| ==> r[i] == DeserializeStored(chain[i], stored)
  {
    seq(|chain|, i requires 0 <= i < |chain| => DeserializeStored(chain[i], stored))
  }

  function Serializations(chain: seq<Serializer>, v: Value): (r: seq<Result<string, Exception>>)
    ensures |r| == |chain| && forall i :: 0 <= i < |chain| ==> r[i] == chain[i].serialize(v)
  {
    seq(|chain|, i requires 0 <= i < |chain| => chain[i].serialize(v))
  }

  // ---------------------------------------------------------------------------
  // What `load` and `save` do, as functions of the chain and the cache.

  datatype LoadOutcome = Loaded(value: Value, serializerIndex: nat) | NotFound | LoadFailed(error: Exception)

  /** `MemoBlock.load(key)` against a store holding `cache`. */
  function LoadSpec(chain: seq<Serializer>, cache: map<string, string>, key: string): (r: LoadOutcome)
    ensures key !in cache && |chain| > 0 ==> r == NotFound
    ensures |chain| == 0 ==> r.LoadFailed? && r.error.ValueError?
    ensures r.Loaded? ==> key in cache && r.serializerIndex < |chain| && chain[r.serializerIndex].deserialize(cache[key]) == Success(r.value)
    ensures r.Loaded? ==> forall j :: 0 <= j < r.serializerIndex ==> chain[j].deserialize(cache[key]).Failure?
    ensures key in cache && (exists i :: 0 <= i < |chain| && chain[i].deserialize(cache[key]).Success?) ==> r.Loaded?
    ensures key in cache && |chain| > 0 && (forall i :: 0 <= i < |chain| ==> chain[i].deserialize(cache[key]).Failure?) ==>
              r.LoadFailed? && r.error.ExceptionGroup? && |r.error.exceptions| == |chain| &&
              forall i :: 0 <= i < |chain| ==> chain[i].deserialize(cache[key]) == Failure(r.error.exceptions[i])
  {
    if key !in cache then
      if |chain| == 0 then LoadFailed(NewExceptionGroup(LoadFailedMessage, [])) else NotFound
    else
      var attempts := Deserializations(chain, Success(cache[key]));
      match FirstSuccess(attempts)
      case Found(i, v) => Loaded(v, i)
      case Exhausted(errs) => LoadFailed(NewExceptionGroup(LoadFailedMessage, errs))
  }

  datatype SaveOutcome = Saved(text: string, serializerIndex: nat) | SaveFailed(error: Exception)

  /** `MemoBlock.save(key, v)`: which serializer's output is written, or what is raised. */
  function SaveSpec(chain: seq<Serializer>, v: Value): (r: SaveOutcome)
    ensures r.Saved? <==> exists i :: 0 <= i < |chain| && chain[i].serialize(v).Success?
    ensures r.Saved? ==> r.serializerIndex < |chain| && chain[r.serializerIndex].serialize(v) == Success(r.text)
    ensures r.Saved? ==> forall j :: 0 <= j < r.serializerIndex ==> chain[j].serialize(v).Failure?
    ensures r.SaveFailed? && |chain| > 0 ==>
              r.error.ExceptionGroup? && |r.error.exceptions| == |chain| &&
              forall i :: 0 <= i < |chain| ==> chain[i].serialize(v) == Failure(r.error.exceptions[i])
    ensures |chain| == 0 ==> r.SaveFailed? && r.error.ValueError?
  {
    match FirstSuccess(Serializations(chain, v))
    case Found(i, text) => Saved(text, i)
    case Exhausted(errs) => SaveFailed(NewExceptionGroup(SaveFailedMessage, errs))
  }

  // ---------------------------------------------------------------------------
  // The memo block.

  class MemoBlock {
    const storage: StorageMemory.MemoryStorage
    const serializer: seq<Serializer>
    var hit: bool
    var value: Value
    /** How many serializers the last `load` or `save` invoked. */
    ghost var tried: nat

    constructor (storage: StorageMemory.MemoryStorage, serializer: SerializerArg)
      ensures this.storage == storage
      ensures this.serializer == ChainOf(serializer)
      ensures !hit && value == NoneValue && tried == 0
    {
      this.storage := storage;
      this.hit := false;
      this.value := NoneValue;
      this.serializer := ChainOf(serializer);
      this.tried := 0;
    }

    /**
     * `load(key)`: on a present key, the first deserializer that succeeds sets
     * `hit` and `value` and no later one is tried; if all fail, one aggregate
     * error is raised and the block is unchanged. A miss changes nothing.
     */
    method Load(key: string) returns (outcome: Outcome)
      modifies this`hit, this`value, this`tried
      ensures var spec := LoadSpec(serializer, storage.cache, key);
              && (spec.Loaded? ==> hit && value == spec.value && tried == spec.serializerIndex + 1 && outcome == Pass)
              && (spec.NotFound? ==> hit == old(hit) && value == old(value) && tried == 0 && outcome == Pass)
              && (spec.LoadFailed? ==> hit == old(hit) && value == old(value) && tried == |serializer| &&
                                       outcome == Fail(spec.error))
    {
      var errors: seq<Exception> := [];
      tried := 0;
      var present := storage.Exists(key);
      if present {
        ghost var attempts := Deserializations(serializer, Success(storage.cache[key]));
        var i := 0;
        while i < |serializer|
          invariant 0 <= i <= |serializer|
          invariant |errors| == i && tried == i
          invariant forall j :: 0 <= j < i ==> attempts[j] == Failure(errors[j])
          invariant hit == old(hit) && value == old(value)
        {
          var got := storage.Get(key);
          var attempt := DeserializeStored(serializer[i], got);
          tried := tried + 1;
          if attempt.Success? {
            value := attempt.value;
            hit := true;
            break;
          }
          errors := errors + [attempt.error];
          i := i + 1;
        }
      }
      if |errors| == |serializer| {
        outcome := Fail(NewExceptionGroup(LoadFailedMessage, errors));
        return;
      }
      outcome := Pass;
    }

    /**
     * `save(key, v)`: writes exactly the output of the first serializer that
     * succeeds and tries no other; if all fail, raises one aggregate error and
     * writes nothing.
     */
    method Save(key: string, v: Value) returns (outcome: Outcome)
      modifies storage, this`tried
      ensures var spec := SaveSpec(serializer, v);
              && (spec.Saved? ==> storage.cache == old(storage.cache)[key := spec.text] &&
                                  tried == spec.serializerIndex + 1 && outcome == Pass)
              && (spec.SaveFailed? ==> storage.cache == old(storage.cache) && tried == |serializer| &&
                                       outcome == Fail(spec.error))
    {
      var errors: seq<Exception> := [];
      tried := 0;
      ghost var attempts := Serializations(serializer, v);
      var i := 0;
      while i < |serializer|
        invariant 0 <= i <= |serializer|
        invariant |errors| == i && tried == i
        invariant forall j :: 0 <= j < i ==> attempts[j] == Failure(errors[j])
        invariant storage.cache == old(storage.cache)
      {
        var attempt := serializer[i].serialize(v);
        tried := tried + 1;
        if attempt.Success? {
          storage.Set(key, attempt.value);
          break;
        }
        errors := errors + [attempt.error];
        i := i + 1;
      }
      if |errors| == |serializer| {
        outcome := Fail(NewExceptionGroup(SaveFailedMessage, errors));
        return;
      }
      outcome := Pass;
    }
  }

  // ---------------------------------------------------------------------------
  // Hit callbacks.

  /** The arguments every `on_cache_hit` callback receives. */
  datatype HitEvent = HitEvent(key: string, value: Value, fnId: nat, args: seq<Value>,
                               kwargs: map<string, Value>, timestamp: Timestamp)

  /** What a hit passes to every callback alike: all of `HitEvent` but the clock reading. */
  datatype Hit = Hit(key: string, value: Value, fnId: nat, args: seq<Value>, kwargs: map<string, Value>)

  /**
   * `datetime.now(timezone.utc)` during one call: reading `j` is taken just
   * before the `j`-th hit callback runs.
   */
  type Clock = nat -> Timestamp

  /** The event callback `j` receives: the hit's details and the clock's `j`-th reading. */
  function EventAt(h: Hit, clock: Clock, j: nat): (ev: HitEvent)
    ensures ev.key == h.key && ev.value == h.value && ev.fnId == h.fnId
    ensures ev.args == h.args && ev.kwargs == h.kwargs && ev.timestamp == clock(j)
  {
    HitEvent(h.key, h.value, h.fnId, h.args, h.kwargs, clock(j))
  }

  /** A registered callback: an identity and whether it raises on a given hit. */
  datatype Callback = Callback(id: nat, run: HitEvent -> Option<Exception>)

  /** One callback invocation, as logged. */
  datatype Firing = Firing(callback: nat, event: HitEvent)

  /** The index of the first callback from `i` on that raises, or `|cbs|` when none does. */
  function FirstRaising(cbs: seq<Callback>, h: Hit, clock: Clock, i: nat): (k: nat)
    requires i <= |cbs|
    ensures i <= k <= |cbs|
    ensures forall j :: i <= j < k ==> cbs[j].run(EventAt(h, clock, j)).None?
    ensures k < |cbs| ==> cbs[k].run(EventAt(h, clock, k)).Some?
    decreases |cbs| - i
  {
    if i == |cbs| then i
    else if cbs[i].run(EventAt(h, clock, i)).Some? then i
    else FirstRaising(cbs, h, clock, i + 1)
  }

  /** The first `n` callbacks fired, in registration order, each with its own clock reading. */
  function Firings(cbs: seq<Callback>, h: Hit, clock: Clock, n: nat): (f: seq<Firing>)
    requires n <= |cbs|
    ensures |f| == n
    ensures forall j :: 0 <= j < n ==> f[j].callback == cbs[j].id && f[j].event == EventAt(h, clock, j)
  {
    seq(n, j requires 0 <= j < n => Firing(cbs[j].id, EventAt(h, clock, j)))
  }

  // ---------------------------------------------------------------------------
  // One memoized call.

  /** What a memoized callable holds between calls. */
  datatype Wrapper = Wrapper(fn: Callable, serializer: SerializerArg, strategy: Strategy, callbacks: seq<Callback>)

  /**
   * The effect of one call: its return value or exception, the cache after it,
   * whether the wrapped function ran, and which callbacks fired.
   */
  datatype CallOutcome = CallOutcome(result: Result<Value, Exception>, cache: map<string, string>,
                                     invoked: bool, fired: seq<Firing>)

  /** A hit: the callbacks run in order with the loaded value until one raises; the cache is untouched. */
  function HitOutcome(cbs: seq<Callback>, h: Hit, clock: Clock, cache: map<string, string>): (c: CallOutcome)
    ensures !c.invoked && c.cache == cache && |c.fired| <= |cbs|
    ensures c.result.Success? ==> c.result.value == h.value && |c.fired| == |cbs|
    ensures c.result.Failure? ==> 0 < |c.fired| && cbs[|c.fired| - 1].run(EventAt(h, clock, |c.fired| - 1)) == Some(c.result.error)
    ensures c.result.Failure? <==> exists j :: 0 <= j < |cbs| && cbs[j].run(EventAt(h, clock, j)).Some?
    ensures forall j :: 0 <= j < |c.fired| - 1 ==> cbs[j].run(EventAt(h, clock, j)).None?
    ensures c.fired == Firings(cbs, h, clock, |c.fired|)
  {
    var k := FirstRaising(cbs, h, clock, 0);
    if k < |cbs| then CallOutcome(Failure(cbs[k].run(EventAt(h, clock, k)).value), cache, false, Firings(cbs, h, clock, k + 1))
    else CallOutcome(Success(h.value), cache, false, Firings(cbs, h, clock, k))
  }

  /**
   * A miss: the wrapped function runs; its exception propagates, or `save`
   * decides the rest: the winning serializer's text is stored under `key` and
   * the result returned, or the aggregate error is raised and nothing is stored.
   */
  function MissOutcome(chain: seq<Serializer>, fn: Callable, args: seq<Value>, kwargs: map<string, Value>,
                       cache: map<string, string>, key: string): (c: CallOutcome)
    ensures c.invoked && c.fired == []
    ensures fn.body(args, kwargs).Failure? ==> c.result == fn.body(args, kwargs) && c.cache == cache
    ensures fn.body(args, kwargs).Success? && SaveSpec(chain, fn.body(args, kwargs).value).Saved? ==>
              c.result == fn.body(args, kwargs) &&
              c.cache == cache[key := SaveSpec(chain, fn.body(args, kwargs).value).text]
    ensures fn.body(args, kwargs).Success? && SaveSpec(chain, fn.body(args, kwargs).value).SaveFailed? ==>
              c.result == Failure(SaveSpec(chain, fn.body(args, kwargs).value).error) && c.cache == cache
  {
    match fn.body(args, kwargs)
    case Failure(e) => CallOutcome(Failure(e), cache, true, [])
    case Success(r) =>
      match SaveSpec(chain, r)
      case Saved(text, _) => CallOutcome(Success(r), cache[key := text], true, [])
      case SaveFailed(e) => CallOutcome(Failure(e), cache, true, [])
  }

  /** `MemoizedCallable.__call__(*args, **kwargs)` against a store holding `cache`, reading `clock`. */
  function CallSpec(lib: Libraries, w: Wrapper, cache: map<string, string>,
                    args: seq<Value>, kwargs: map<string, Value>, clock: Clock): (c: CallOutcome)
    ensures c.invoked ==> c.fired == []
    ensures c.cache != cache ==> c.invoked && c.result.Success?
    ensures c.cache.Keys <= cache.Keys + (if Compute(lib, w.strategy, w.fn, args, kwargs).Success? then {Compute(lib, w.strategy, w.fn, args, kwargs).value} else {})
  {
    match Compute(lib, w.strategy, w.fn, args, kwargs)
    case Failure(e) => CallOutcome(Failure(e), cache, false, [])
    case Success(key) =>
      match LoadSpec(ChainOf(w.serializer), cache, key)
      case LoadFailed(e) => CallOutcome(Failure(e), cache, false, [])
      case Loaded(v, _) => HitOutcome(w.callbacks, Hit(key, v, w.fn.id, args, kwargs), clock, cache)
      case NotFound => MissOutcome(ChainOf(w.serializer), w.fn, args, kwargs, cache, key)
  }

  /** A key strategy that raises stops the call before the store is touched or the function runs. */
  lemma KeyFailureStops(lib: Libraries, w: Wrapper, cache: map<string, string>,
                        args: seq<Value>, kwargs: map<string, Value>, clock: Clock)
    requires Compute(lib, w.strategy, w.fn, args, kwargs).Failure?
    ensures var c := CallSpec(lib, w, cache, args, kwargs, clock);
            && c.result == Failure(Compute(lib, w.strategy, w.fn, args, kwargs).error)
            && c.cache == cache && !c.invoked && c.fired == []
  {
  }

  /**
   * A hit never runs the wrapped function nor writes the store. Callbacks fire
   * in registration order with the same key, value, function and arguments,
   * each at its own clock reading. The call fails exactly when some callback
   * raises: the exception of the first one that raises propagates uncaught,
   * every earlier one returned normally and no later one fires. Otherwise every
   * callback fires once and the loaded value is returned.
   */
  lemma HitSkipsInvocation(lib: Libraries, w: Wrapper, cache: map<string, string>,
                           args: seq<Value>, kwargs: map<string, Value>, clock: Clock, key: string)
    requires Compute(lib, w.strategy, w.fn, args, kwargs) == Success(key)
    requires LoadSpec(ChainOf(w.serializer), cache, key).Loaded?
    ensures var v := LoadSpec(ChainOf(w.serializer), cache, key).value;
            var c := CallSpec(lib, w, cache, args, kwargs, clock);
            && !c.invoked && c.cache == cache
            && |c.fired| <= |w.callbacks|
            && (forall j :: 0 <= j < |c.fired| ==>
                  c.fired[j] == Firing(w.callbacks[j].id, HitEvent(key, v, w.fn.id, args, kwargs, clock(j))))
            && ((forall j :: 0 <= j < |w.callbacks| ==> w.callbacks[j].run(HitEvent(key, v, w.fn.id, args, kwargs, clock(j))).None?) ==>
                  c.result == Success(v) && |c.fired| == |w.callbacks|)
            && (c.result.Failure? <==>
                  exists j :: 0 <= j < |w.callbacks| && w.callbacks[j].run(HitEvent(key, v, w.fn.id, args, kwargs, clock(j))).Some?)
            && (forall j :: 0 <= j < |c.fired| - 1 ==> w.callbacks[j].run(HitEvent(key, v, w.fn.id, args, kwargs, clock(j))).None?)
            && (c.result.Failure? ==>
                  0 < |c.fired| &&
                  w.callbacks[|c.fired| - 1].run(HitEvent(key, v, w.fn.id, args, kwargs, clock(|c.fired| - 1))) == Some(c.result.error))
  {
    var v := LoadSpec(ChainOf(w.serializer), cache, key).value;
    var h := Hit(key, v, w.fn.id, args, kwargs);
    assert forall j: nat :: EventAt(h, clock, j) == HitEvent(key, v, w.fn.id, args, kwargs, clock(j));
  }

  /**
   * A miss runs the wrapped function once and fires no callback. Its exception
   * propagates with the store untouched. Its result is stored in the form of
   * the first serializer that accepts it, falling back along the chain, and
   * returned; when every serializer rejects it, the call raises one aggregate
   * of all their errors, in chain order, and the store is untouched.
   */
  lemma MissInvokesAndSaves(lib: Libraries, w: Wrapper, cache: map<string, string>,
                            args: seq<Value>, kwargs: map<string, Value>, clock: Clock, key: string)
    requires Compute(lib, w.strategy, w.fn, args, kwargs) == Success(key)
    requires key !in cache && |ChainOf(w.serializer)| > 0
    ensures var c := CallSpec(lib, w, cache, args, kwargs, clock);
            var body := w.fn.body(args, kwargs);
            var chain := ChainOf(w.serializer);
            && c.invoked && c.fired == []
            && (body.Failure? ==> c.result == body && c.cache == cache)
            && (forall i :: 0 <= i < |chain| && body.Success? && chain[i].serialize(body.value).Success? &&
                            (forall j :: 0 <= j < i ==> chain[j].serialize(body.value).Failure?) ==>
                  c.result == body && c.cache == cache[key := chain[i].serialize(body.value).value])
            && (body.Success? && (forall i :: 0 <= i < |chain| ==> chain[i].serialize(body.value).Failure?) ==>
                  c.cache == cache && c.result.Failure? && c.result.error.ExceptionGroup? &&
                  |c.result.error.exceptions| == |chain| &&
                  forall i :: 0 <= i < |chain| ==> chain[i].serialize(body.value) == Failure(c.result.error.exceptions[i]))
  {
    var chain := ChainOf(w.serializer);
    var body := w.fn.body(args, kwargs);
    if body.Success? {
      var spec := SaveSpec(chain, body.value);
      forall i | 0 <= i < |chain| && chain[i].serialize(body.value).Success? &&
                 (forall j :: 0 <= j < i ==> chain[j].serialize(body.value).Failure?)
        ensures spec.Saved? && spec.serializerIndex == i
      {
        assert spec.Saved?;
      }
    }
  }

  /**
   * A present record that no deserializer reads, or an empty chain, fails the
   * call before the function runs: the aggregate of every deserializer's
   * error (or `ValueError`) propagates, no callback fires and the store is
   * untouched. An unreadable record is not treated as a miss.
   */
  lemma UnreadableRecordStops(lib: Libraries, w: Wrapper, cache: map<string, string>,
                              args: seq<Value>, kwargs: map<string, Value>, clock: Clock, key: string)
    requires Compute(lib, w.strategy, w.fn, args, kwargs) == Success(key)
    ensures var c := CallSpec(lib, w, cache, args, kwargs, clock);
            var chain := ChainOf(w.serializer);
            && (|chain| == 0 ==>
                  c.result.Failure? && c.result.error.ValueError? && c.cache == cache && !c.invoked && c.fired == [])
            && (key in cache && |chain| > 0 && (forall i :: 0 <= i < |chain| ==> chain[i].deserialize(cache[key]).Failure?) ==>
                  && c.result.Failure? && c.result.error.ExceptionGroup?
                  && |c.result.error.exceptions| == |chain|
                  && (forall i :: 0 <= i < |chain| ==> chain[i].deserialize(cache[key]) == Failure(c.result.error.exceptions[i]))
                  && c.cache == cache && !c.invoked && c.fired == [])
  {
  }

  /**
   * Memoization itself: calling twice with the same arguments, starting from a
   * store without the key, runs the function once and returns its result both
   * times, provided the first serializer reads back what it writes and no hit
   * callback raises.
   */
  lemma SecondCallHits(lib: Libraries, w: Wrapper, cache: map<string, string>,
                         args: seq<Value>, kwargs: map<string, Value>,
                         clock1: Clock, clock2: Clock, key: string, r: Value)
    requires Compute(lib, w.strategy, w.fn, args, kwargs) == Success(key) && key !in cache
    requires w.fn.body(args, kwargs) == Success(r)
    requires |ChainOf(w.serializer)| > 0
    requires ChainOf(w.serializer)[0].serialize(r).Success? && RoundTrips(ChainOf(w.serializer)[0], r)
    requires forall j :: 0 <= j < |w.callbacks| ==> w.callbacks[j].run(HitEvent(key, r, w.fn.id, args, kwargs, clock2(j))).None?
    ensures var first := CallSpec(lib, w, cache, args, kwargs, clock1);
            var second := CallSpec(lib, w, first.cache, args, kwargs, clock2);
            && first.result == Success(r) && first.invoked
            && second.result == Success(r) && !second.invoked
            && second.cache == first.cache
            && |second.fired| == |w.callbacks|
  {
    var chain := ChainOf(w.serializer);
    var text := chain[0].serialize(r).value;
    MissInvokesAndSaves(lib, w, cache, args, kwargs, clock1, key);
    var first := CallSpec(lib, w, cache, args, kwargs, clock1);
    assert first.cache == cache[key := text];
    var load := LoadSpec(chain, first.cache, key);
    assert chain[0].deserialize(first.cache[key]) == Success(r);
    assert load.Loaded? && load.serializerIndex == 0;
    HitSkipsInvocation(lib, w, first.cache, args, kwargs, clock2, key);
  }

  class MemoizedCallable {
    const fn: Callable
    const storage: StorageMemory.MemoryStorage
    const serializer: SerializerArg
    const keyStrategy: Strategy
    var onCacheHitCallbacks: seq<Callback>
    /** How many times the wrapped function has run. */
    ghost var invocations: nat
    /** Every hit-callback invocation so far, in order. */
    ghost var fired: seq<Firing>

    ghost function Config(): Wrapper
      reads this
    {
      Wrapper(fn, serializer, keyStrategy, onCacheHitCallbacks)
    }

    constructor (fn: Callable, storage: StorageMemory.MemoryStorage, serializer: SerializerArg, keyStrategy: Strategy)
      ensures this.fn == fn && this.storage == storage && this.serializer == serializer && this.keyStrategy == keyStrategy
      ensures onCacheHitCallbacks == [] && invocations == 0 && fired == []
    {
      this.fn := fn;
      this.storage := storage;
      this.serializer := serializer;
      this.keyStrategy := keyStrategy;
      this.onCacheHitCallbacks := [];
      this.invocations := 0;
      this.fired := [];
    }

    /** `on_cache_hit(callback)`: registers one more callback, after the others. */
    method OnCacheHit(callback: Callback)
      modifies this`onCacheHitCallbacks
      ensures onCacheHitCallbacks == old(onCacheHitCallbacks) + [callback]
    {
      onCacheHitCallbacks := onCacheHitCallbacks + [callback];
    }

    /** The `for callback in self._on_cache_hit_callbacks` loop of a hit, reading the clock before each callback. */
    method RunHitCallbacks(h: Hit, clock: Clock) returns (r: Result<Value, Exception>)
      modifies this`fired
      ensures var spec := HitOutcome(onCacheHitCallbacks, h, clock, storage.cache);
              r == spec.result && fired == old(fired) + spec.fired
    {
      var i := 0;
      while i < |onCacheHitCallbacks|
        invariant 0 <= i <= |onCacheHitCallbacks|
        invariant fired == old(fired) + Firings(onCacheHitCallbacks, h, clock, i)
        invariant FirstRaising(onCacheHitCallbacks, h, clock, 0) == FirstRaising(onCacheHitCallbacks, h, clock, i)
      {
        var callback := onCacheHitCallbacks[i];
        var ev := HitEvent(h.key, h.value, h.fnId, h.args, h.kwargs, clock(i));
        fired := fired + [Firing(callback.id, ev)];
        assert Firings(onCacheHitCallbacks, h, clock, i + 1) == Firings(onCacheHitCallbacks, h, clock, i) + [Firing(callback.id, ev)];
        var raised := callback.run(ev);
        if raised.Some? {
          return Failure(raised.value);
        }
        i := i + 1;
      }
      return Success(h.value);
    }

    /** `__call__(*args, **kwargs)`, with the readings of `datetime.now()` given as `clock`. */
    method Call(lib: Libraries, args: seq<Value>, kwargs: map<string, Value>, clock: Clock)
      returns (r: Result<Value, Exception>)
      modifies storage, this`invocations, this`fired
      ensures var spec := CallSpec(lib, old(Config()), old(storage.cache), args, kwargs, clock);
              && r == spec.result
              && storage.cache == spec.cache
              && invocations == old(invocations) + (if spec.invoked then 1 else 0)
              && fired == old(fired) + spec.fired
    {
      var memo := new MemoBlock(storage, serializer);
      var key := ComputeKey(lib, keyStrategy, fn, args, kwargs);
      if key.Failure? {
        return Failure(key.error);
      }
      var loaded := memo.Load(key.value);
      if loaded.Fail? {
        return Failure(loaded.error);
      }
      if memo.hit {
        r := RunHitCallbacks(Hit(key.value, memo.value, fn.id, args, kwargs), clock);
        return;
      }
      var result := fn.body(args, kwargs);
      invocations := invocations + 1;
      if result.Failure? {
        return Failure(result.error);
      }
      var saved := memo.Save(key.value, result.value);
      if saved.Fail? {
        return Failure(saved.error);
      }
      return Success(result.value);
    }
  }

  // ---------------------------------------------------------------------------
  // The `memoize` decorator.

  /** The keyword arguments of `memoize`. */
  datatype MemoizeOptions = MemoizeOptions(storage: StorageMemory.MemoryStorage, keyStrategy: Strategy,
                                           serializer: SerializerArg, onCacheHit: Option<Callback>)

  /** `memoize`'s defaults: the shared default store, sources then inputs, JSON then pickle, no callback. */
  function DefaultOptions(defaultStorage: StorageMemory.MemoryStorage, json: Serializer, pickle: Serializer): (o: MemoizeOptions)
    ensures o.storage == defaultStorage && o.onCacheHit.None?
    ensures o.keyStrategy == Compound([SourceCode, Inputs])
    ensures o.serializer == Many([json, pickle])
  {
    MemoizeOptions(defaultStorage, DefaultStrategy(), Many(DefaultSerializerChain(json, pickle)), None)
  }

  /** `memoize(...)`'s result: the decorator `partial(memoize, **options)`, or the memoized callable. */
  datatype Memoized = Decorator(options: MemoizeOptions) | Wrapped(callable: MemoizedCallable)

  /** The configuration `memoize(fn, **options)` as written builds: `on_cache_hit` is never passed on. */
  function ConfigureAsWritten(fn: Callable, o: MemoizeOptions): (w: Wrapper)
    ensures w.fn == fn && w.serializer == o.serializer && w.strategy == o.keyStrategy
    ensures w.callbacks == []
  {
    Wrapper(fn, o.serializer, o.keyStrategy, [])
  }

  /** The configuration `memoize(fn, **options)` evidently intends: `on_cache_hit` is the first hit callback. */
  function Configure(fn: Callable, o: MemoizeOptions): (w: Wrapper)
    ensures w.fn == fn && w.serializer == o.serializer && w.strategy == o.keyStrategy
    ensures o.onCacheHit.None? ==> w.callbacks == []
    ensures o.onCacheHit.Some? ==> w.callbacks == [o.onCacheHit.value]
    ensures ConfigureAsWritten(fn, o) == w.(callbacks := [])
  {
    Wrapper(fn, o.serializer, o.keyStrategy, if o.onCacheHit.Some? then [o.onCacheHit.value] else [])
  }

  /** With the code as written, a callback given as `on_cache_hit` never fires, not even on a hit. */
  lemma HitCallbackIgnored(lib: Libraries, fn: Callable, o: MemoizeOptions, cache: map<string, string>,
                           args: seq<Value>, kwargs: map<string, Value>, clock: Clock, key: string)
    requires o.onCacheHit.Some?
    requires Compute(lib, o.keyStrategy, fn, args, kwargs) == Success(key)
    requires LoadSpec(ChainOf(o.serializer), cache, key).Loaded?
    ensures CallSpec(lib, ConfigureAsWritten(fn, o), cache, args, kwargs, clock).fired == []
  {
  }

  /** With the correction, a hit fires the `on_cache_hit` callback exactly once, with the hit's details. */
  lemma HitCallbackRegistered(lib: Libraries, fn: Callable, o: MemoizeOptions, cache: map<string, string>,
                              args: seq<Value>, kwargs: map<string, Value>, clock: Clock, key: string)
    requires o.onCacheHit.Some?
    requires Compute(lib, o.keyStrategy, fn, args, kwargs) == Success(key)
    requires LoadSpec(ChainOf(o.serializer), cache, key).Loaded?
    ensures var v := LoadSpec(ChainOf(o.serializer), cache, key).value;
            var ev := HitEvent(key, v, fn.id, args, kwargs, clock(0));
            var cb := o.onCacheHit.value;
            var c := CallSpec(lib, Configure(fn, o), cache, args, kwargs, clock);
            && c.fired == [Firing(cb.id, ev)]
            && c.result == (if cb.run(ev).Some? then Failure(cb.run(ev).value) else Success(v))
  {
    var w := Configure(fn, o);
    var v := LoadSpec(ChainOf(o.serializer), cache, key).value;
    HitSkipsInvocation(lib, w, cache, args, kwargs, clock, key);
    assert |w.callbacks| == 1;
  }

  /** `memoize(fn, **options)` once `fn` is known: a fresh memoized callable over the options' store. */
  method Decorate(fn: Callable, o: MemoizeOptions) returns (c: MemoizedCallable)
    ensures fresh(c)
    ensures c.Config() == Configure(fn, o) && c.storage == o.storage
    ensures c.invocations == 0 && c.fired == []
  {
    c := new MemoizedCallable(fn, o.storage, o.serializer, o.keyStrategy);
    if o.onCacheHit.Some? {
      c.OnCacheHit(o.onCacheHit.value);
    }
  }

  /**
   * `memoize(fn, **options)` and `memoize(**options)`: without a function it
   * returns a decorator that holds the options; with one, the memoized callable.
   */
  method Memoize(fn: Option<Callable>, o: MemoizeOptions) returns (m: Memoized)
    ensures fn.None? ==> m == Decorator(o)
    ensures fn.Some? ==> m.Wrapped? && fresh(m.callable) &&
                         m.callable.Config() == Configure(fn.value, o) && m.callable.storage == o.storage &&
                         m.callable.invocations == 0 && m.callable.fired == []
  {
    if fn.None? {
      return Decorator(o);
    }
    var c := Decorate(fn.value, o);
    return Wrapped(c);
  }

  /** Applying the decorator `memoize(**options)` to `fn` is `memoize(fn, **options)`. */
  method ApplyDecorator(d: Memoized, fn: Callable) returns (m: Memoized)
    requires d.Decorator?
    ensures m.Wrapped? && fresh(m.callable) &&
            m.callable.Config() == Configure(fn, d.options) && m.callable.storage == d.options.storage &&
            m.callable.invocations == 0 && m.callable.fired == []
  {
    m := Memoize(Some(fn), d.options);
  }
}
