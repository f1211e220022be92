/**
 * Key strategies: how a cache key is derived from a callable and its
 * arguments. `SourceCode` hashes the callable's source text, `Inputs` hashes
 * its bound arguments, and a compound strategy hashes the concatenated keys
 * of its components, which are kept flat by construction and by `+`.
 */
module KeyStrategies {
  import opened PyRuntime

  datatype Strategy =
    | SourceCode
    | Inputs
    | Custom(id: nat)                  // a user-defined subclass of MemoKeyStrategy
    | Compound(strategies: seq<Strategy>)

  // ---------------------------------------------------------------------------
  // The flattening constructor and `+`.

  /** What one constructor argument contributes: a compound's own list, or the strategy itself. */
  function Components(s: Strategy): seq<Strategy> {
    if s.Compound? then s.strategies else [s]
  }

  predicate Atomic(s: Strategy) {
    !s.Compound?
  }

  /** Every strategy reachable through the API: a compound never holds a compound. */
  predicate WellFormed(s: Strategy) {
    s.Compound? ==> forall i :: 0 <= i < |s.strategies| ==> Atomic(s.strategies[i])
  }

  /** The comprehension of `CompoundMemoKeyStrategy(*strategies)`: splice each argument's components, in order. */
  function Flatten(args: seq<Strategy>): (r: seq<Strategy>)
    ensures (forall i :: 0 <= i < |args| ==> WellFormed(args[i])) ==>
              forall j :: 0 <= j < |r| ==> Atomic(r[j])
  {
    if args == [] then [] else Components(args[0]) + Flatten(args[1..])
  }

  /** `CompoundMemoKeyStrategy(*args)`. */
  function NewCompound(args: seq<Strategy>): (r: Strategy)
    ensures (forall i :: 0 <= i < |args| ==> WellFormed(args[i])) ==> WellFormed(r)
  {
    Compound(Flatten(args))
  }

  /** `a + b`: `MemoKeyStrategy.__add__` for a plain `a`, `CompoundMemoKeyStrategy.__add__` for a compound one. */
  function Add(a: Strategy, b: Strategy): (r: Strategy)
    ensures r.Compound?
    ensures WellFormed(a) && WellFormed(b) ==> WellFormed(r)
  {
    if a.Compound? then
      if b.Compound? then NewCompound(a.strategies + b.strategies)
      else NewCompound(a.strategies + [b])
    else NewCompound([a, b])
  }

  /** `DEFAULT_STRATEGY = SourceCode() + Inputs()`. */
  function DefaultStrategy(): (s: Strategy)
    ensures s == Compound([SourceCode, Inputs])
  {
    FlattenAtomic([SourceCode, Inputs]);
    Add(SourceCode, Inputs)
  }

  lemma {:induction false} FlattenAppend(a: seq<Strategy>, b: seq<Strategy>)
    ensures Flatten(a + b) == Flatten(a) + Flatten(b)
  {
    if a == [] {
      assert a + b == b;
    } else {
      assert (a + b)[1..] == a[1..] + b;
      FlattenAppend(a[1..], b);
    }
  }

  /** Flattening atomic strategies keeps them, in argument order. */
  lemma {:induction false} FlattenAtomic(args: seq<Strategy>)
    requires forall i :: 0 <= i < |args| ==> Atomic(args[i])
    ensures Flatten(args) == args
  {
    if args != [] {
      FlattenAtomic(args[1..]);
    }
  }

  /** The constructor's result holds no compound, and keeps its arguments' components in order. */
  lemma {:induction false} NewCompoundFlat(args: seq<Strategy>)
    requires forall i :: 0 <= i < |args| ==> WellFormed(args[i])
    ensures WellFormed(NewCompound(args))
    ensures NewCompound(args).strategies == Flatten(args)
    ensures |args| == 2 ==> NewCompound(args).strategies == Components(args[0]) + Components(args[1])
  {
    if |args| == 2 {
      assert args[1..][1..] == [];
      assert Flatten(args[1..]) == Components(args[1]) + Flatten(args[1..][1..]);
    }
  }

  /** `a + b` is a compound whose components are those of `a` followed by those of `b`. */
  lemma AddComponents(a: Strategy, b: Strategy)
    requires WellFormed(a) && WellFormed(b)
    ensures Add(a, b).Compound? && WellFormed(Add(a, b))
    ensures Add(a, b).strategies == Components(a) + Components(b)
  {
    var parts := Components(a) + Components(b);
    assert forall i :: 0 <= i < |parts| ==> Atomic(parts[i]);
    if a.Compound? {
      FlattenAtomic(parts);
    } else {
      NewCompoundFlat([a, b]);
    }
  }

  /** `+` is associative on well-formed strategies. */
  lemma AddAssociative(a: Strategy, b: Strategy, c: Strategy)
    requires WellFormed(a) && WellFormed(b) && WellFormed(c)
    ensures Add(Add(a, b), c) == Add(a, Add(b, c))
  {
    AddComponents(a, b);
    AddComponents(Add(a, b), c);
    AddComponents(b, c);
    AddComponents(a, Add(b, c));
    assert Components(a) + Components(b) + Components(c) == Components(a) + (Components(b) + Components(c));
  }

  /**
   * `(s1 + s2) + (s3 + s4)`, `s1 + s2 + s3 + s4` and `CompoundMemoKeyStrategy(s1 + s2, s3 + s4)`
   * are one and the same strategy, with components `[s1, s2, s3, s4]`.
   */
  lemma FourWaySum(s1: Strategy, s2: Strategy, s3: Strategy, s4: Strategy)
    requires Atomic(s1) && Atomic(s2) && Atomic(s3) && Atomic(s4)
    ensures Add(Add(s1, s2), Add(s3, s4)) == Compound([s1, s2, s3, s4])
    ensures Add(Add(Add(s1, s2), s3), s4) == Compound([s1, s2, s3, s4])
    ensures NewCompound([Add(s1, s2), Add(s3, s4)]) == Compound([s1, s2, s3, s4])
  {
    AddComponents(s1, s2);
    AddComponents(s3, s4);
    AddComponents(Add(s1, s2), Add(s3, s4));
    AddComponents(Add(s1, s2), s3);
    AddComponents(Add(Add(s1, s2), s3), s4);
    NewCompoundFlat([Add(s1, s2), Add(s3, s4)]);
  }

  // ---------------------------------------------------------------------------
  // Binding arguments: `sig.bind(*args, **kwargs)` followed by `apply_defaults()`.

  function Names(params: seq<Param>): set<string> {
    set i | 0 <= i < |params| :: params[i].name
  }

  /** The keyword phase: each parameter past the positional ones takes its keyword or its default. */
  function BindRest(params: seq<Param>, kwargs: map<string, Value>): (r: Result<seq<(string, Value)>, Exception>)
    ensures r.Failure? ==> r.error == TypeError
    ensures r.Success? ==> |r.value| == |params|
  {
    if params == [] then Success([])
    else
      var p := params[0];
      if p.name !in kwargs && p.default.None? then Failure(TypeError)   // missing a required argument
      else match BindRest(params[1..], kwargs)
        case Failure(e) => Failure(e)
        case Success(rest) =>
          Success([(p.name, KeywordOrDefault(p, kwargs))] + rest)
  }

  /**
   * `inspect.signature(fn).bind(*args, **kwargs)` then `apply_defaults()`:
   * the bound arguments in parameter order, or `TypeError`.
   */
  function Bind(params: seq<Param>, args: seq<Value>, kwargs: map<string, Value>): (r: Result<seq<(string, Value)>, Exception>)
    ensures r.Failure? ==> r.error == TypeError
    ensures r.Success? ==> |args| <= |params| && |r.value| == |params|
  {
    if |args| > |params| then Failure(TypeError)                                     // too many positional arguments
    else if exists i :: 0 <= i < |args| && params[i].name in kwargs then Failure(TypeError) // multiple values
    else match BindRest(params[|args|..], kwargs)
      case Failure(e) => Failure(e)
      case Success(rest) =>
        if kwargs.Keys <= Names(params) then
          Success(seq(|args|, i requires 0 <= i < |args| => (params[i].name, args[i])) + rest)
        else Failure(TypeError)                                                     // unexpected keyword argument
  }

  /** The value parameter `p` receives when it is not bound positionally. */
  function KeywordOrDefault(p: Param, kwargs: map<string, Value>): Value
    requires p.name in kwargs || p.default.Some?
  {
    if p.name in kwargs then kwargs[p.name] else p.default.value
  }

  lemma {:induction false} BindRestMeaning(params: seq<Param>, kwargs: map<string, Value>)
    ensures BindRest(params, kwargs).Success? <==>
              forall i :: 0 <= i < |params| ==> params[i].name in kwargs || params[i].default.Some?
    ensures BindRest(params, kwargs).Failure? ==> BindRest(params, kwargs).error == TypeError
    ensures BindRest(params, kwargs).Success? ==>
              var r := BindRest(params, kwargs).value;
              |r| == |params| &&
              forall i :: 0 <= i < |params| ==> r[i] == (params[i].name, KeywordOrDefault(params[i], kwargs))
  {
    if params != [] {
      BindRestMeaning(params[1..], kwargs);
      if !(params[0].name in kwargs || params[0].default.Some?) {
        assert !(forall i :: 0 <= i < |params| ==> params[i].name in kwargs || params[i].default.Some?) by {
          assert !(params[0].name in kwargs || params[0].default.Some?);
        }
      } else {
        assert (forall i :: 0 <= i < |params| ==> params[i].name in kwargs || params[i].default.Some?) <==>
               (forall i :: 0 <= i < |params[1..]| ==> params[1..][i].name in kwargs || params[1..][i].default.Some?) by {
          forall i | 0 < i < |params| ensures params[i] == params[1..][i - 1] { }
        }
      }
    }
  }

  /** Binding succeeds exactly when the call is well-formed for the signature. */
  predicate Bindable(params: seq<Param>, args: seq<Value>, kwargs: map<string, Value>) {
    && |args| <= |params|
    && (forall i :: 0 <= i < |args| ==> params[i].name !in kwargs)
    && (forall i :: |args| <= i < |params| ==> params[i].name in kwargs || params[i].default.Some?)
    && kwargs.Keys <= Names(params)
  }

  /** The value parameter `i` is bound to: positional, else keyword, else its default. */
  function BoundValue(params: seq<Param>, args: seq<Value>, kwargs: map<string, Value>, i: nat): Value
    requires Bindable(params, args, kwargs) && i < |params|
  {
    if i < |args| then args[i] else KeywordOrDefault(params[i], kwargs)
  }

  /**
   * What binding computes: it fails (with `TypeError`) exactly on an ill-formed
   * call, and otherwise maps every declared parameter, in order, to its
   * positional argument, its keyword argument or its default.
   */
  lemma BindMeaning(params: seq<Param>, args: seq<Value>, kwargs: map<string, Value>)
    ensures Bind(params, args, kwargs).Success? <==> Bindable(params, args, kwargs)
    ensures Bind(params, args, kwargs).Failure? ==> Bind(params, args, kwargs).error == TypeError
    ensures Bind(params, args, kwargs).Success? ==>
              var b := Bind(params, args, kwargs).value;
              |b| == |params| &&
              forall i :: 0 <= i < |params| ==> b[i] == (params[i].name, BoundValue(params, args, kwargs, i))
  {
    if |args| <= |params| {
      var tail := params[|args|..];
      BindRestMeaning(tail, kwargs);
      assert (forall i :: 0 <= i < |tail| ==> tail[i].name in kwargs || tail[i].default.Some?) <==>
             (forall i :: |args| <= i < |params| ==> params[i].name in kwargs || params[i].default.Some?) by {
        forall i | |args| <= i < |params| ensures params[i] == tail[i - |args|] { }
      }
    }
  }

  /** Two calls that bind every parameter to the same value bind identically. */
  lemma SameBinding(params: seq<Param>, args1: seq<Value>, kwargs1: map<string, Value>,
                    args2: seq<Value>, kwargs2: map<string, Value>)
    requires Bindable(params, args1, kwargs1) && Bindable(params, args2, kwargs2)
    requires forall i :: 0 <= i < |params| ==> BoundValue(params, args1, kwargs1, i) == BoundValue(params, args2, kwargs2, i)
    ensures Bind(params, args1, kwargs1) == Bind(params, args2, kwargs2)
  {
    BindMeaning(params, args1, kwargs1);
    BindMeaning(params, args2, kwargs2);
    var b1, b2 := Bind(params, args1, kwargs1).value, Bind(params, args2, kwargs2).value;
    assert |b1| == |b2|;
    assert forall i :: 0 <= i < |b1| ==> b1[i] == b2[i];
    assert b1 == b2;
  }

  /** Passing the last positional argument by keyword instead binds the same arguments. */
  lemma KeywordForPositional(params: seq<Param>, args: seq<Value>, kwargs: map<string, Value>)
    requires DistinctNames(params)
    requires 0 < |args| <= |params| && params[|args| - 1].name !in kwargs
    ensures Bind(params, args, kwargs) ==
            Bind(params, args[..|args| - 1], kwargs[params[|args| - 1].name := args[|args| - 1]])
  {
    var n := |args| - 1;
    var args' := args[..n];
    var kwargs' := kwargs[params[n].name := args[n]];
    BindMeaning(params, args, kwargs);
    BindMeaning(params, args', kwargs');
    assert Names(params) == Names(params) + {params[n].name};
    if Bindable(params, args, kwargs) {
      assert Bindable(params, args', kwargs');
      SameBinding(params, args, kwargs, args', kwargs');
    } else {
      assert !Bindable(params, args', kwargs');
    }
  }

  /** The keyword arguments that pass `values[k..]` by the names of their parameters. */
  function KeywordsFrom(params: seq<Param>, values: seq<Value>, k: nat): map<string, Value>
    requires DistinctNames(params) && k <= |values| <= |params|
  {
    map i | k <= i < |values| :: params[i].name := values[i]
  }

  /**
   * Positional, mixed and keyword passing of the same values bind identically:
   * with `k = 0` this is `f(a=1, b=2)`, with `k = 1` it is `f(1, b=2)`, both
   * against `f(1, 2)`.
   */
  lemma KeywordsFromMeaning(params: seq<Param>, values: seq<Value>, k: nat)
    requires DistinctNames(params) && k <= |values| <= |params|
    ensures forall j :: 0 <= j < |params| ==>
              (params[j].name in KeywordsFrom(params, values, k) <==> k <= j < |values|)
    ensures forall j :: k <= j < |values| ==> KeywordsFrom(params, values, k)[params[j].name] == values[j]
    ensures KeywordsFrom(params, values, k).Keys <= Names(params)
  {
    var kw := KeywordsFrom(params, values, k);
    forall j | 0 <= j < |params| && params[j].name in kw ensures k <= j < |values| {
      var i :| k <= i < |values| && params[i].name == params[j].name;
      assert i == j;
    }
  }

  lemma MixedPassing(params: seq<Param>, values: seq<Value>, k: nat)
    requires DistinctNames(params) && k <= |values| <= |params|
    ensures Bind(params, values, map[]) == Bind(params, values[..k], KeywordsFrom(params, values, k))
  {
    var kw := KeywordsFrom(params, values, k);
    var args := values[..k];
    KeywordsFromMeaning(params, values, k);
    BindMeaning(params, values, map[]);
    BindMeaning(params, args, kw);
    if Bindable(params, values, map[]) {
      assert Bindable(params, args, kw);
      forall i | 0 <= i < |params|
        ensures BoundValue(params, values, map[], i) == BoundValue(params, args, kw, i)
      {
      }
      SameBinding(params, values, map[], args, kw);
    } else {
      var i :| |values| <= i < |params| && params[i].default.None?;
      assert params[i].name !in kw;
      assert !Bindable(params, args, kw);
    }
  }

  /** An explicitly passed default binds like the omitted argument, positionally or by keyword. */
  lemma ExplicitDefault(params: seq<Param>, args: seq<Value>, kwargs: map<string, Value>, i: nat)
    requires DistinctNames(params)
    requires |args| <= i < |params| && params[i].default.Some? && params[i].name !in kwargs
    ensures Bind(params, args, kwargs[params[i].name := params[i].default.value]) == Bind(params, args, kwargs)
    ensures i == |args| ==> Bind(params, args + [params[i].default.value], kwargs) == Bind(params, args, kwargs)
  {
    var d := params[i].default.value;
    var kw := kwargs[params[i].name := d];
    BindMeaning(params, args, kwargs);
    BindMeaning(params, args, kw);
    assert params[i].name in Names(params);
    if Bindable(params, args, kwargs) {
      SameBinding(params, args, kwargs, args, kw);
    }
    if i == |args| {
      var args' := args + [d];
      BindMeaning(params, args', kwargs);
      if Bindable(params, args, kwargs) {
        SameBinding(params, args, kwargs, args', kwargs);
      }
    }
  }

  // ---------------------------------------------------------------------------
  // Computing keys.

  /** `dict(bound_args.arguments)`. */
  function DictOf(bound: seq<(string, Value)>): (d: map<string, Value>)
    ensures d.Keys == set i | 0 <= i < |bound| :: bound[i].0
    ensures |bound| > 0 ==> d[bound[|bound| - 1].0] == bound[|bound| - 1].1
  {
    if bound == [] then map[] else DictOf(bound[..|bound| - 1])[bound[|bound| - 1].0 := bound[|bound| - 1].1]
  }

  /** Each name maps to the value of its last entry: a later entry for a name overwrites an earlier one. */
  lemma {:induction false} DictOfValues(bound: seq<(string, Value)>, i: nat)
    requires i < |bound| && forall j :: i < j < |bound| ==> bound[j].0 != bound[i].0
    ensures DictOf(bound)[bound[i].0] == bound[i].1
  {
    var n := |bound| - 1;
    if i < n {
      var prefix := bound[..n];
      assert prefix[i] == bound[i];
      assert forall j :: i < j < |prefix| ==> prefix[j] == bound[j];
      DictOfValues(prefix, i);
    }
  }

  /**
   * The two-step encoding of `Inputs.compute`: sorted-key JSON first, then
   * pickle; `ValueError` when both raise.
   */
  function EncodeArguments(lib: Libraries, bound: seq<(string, Value)>): (r: Result<string, Exception>)
    ensures r.Failure? <==> lib.jsonDumpsSorted(DictOf(bound)).None? && lib.pickleDumps(bound).None?
    ensures r.Failure? ==> r.error == ValueError("Failed to serialize arguments")
    ensures lib.jsonDumpsSorted(DictOf(bound)).Some? ==>
              r == Success(lib.sha256Hex(lib.utf8(lib.jsonDumpsSorted(DictOf(bound)).value)))
    ensures lib.jsonDumpsSorted(DictOf(bound)).None? && lib.pickleDumps(bound).Some? ==>
              r == Success(lib.sha256Hex(lib.pickleDumps(bound).value))
  {
    match lib.jsonDumpsSorted(DictOf(bound))
    case Some(json) => Success(lib.sha256Hex(lib.utf8(json)))
    case None =>
      match lib.pickleDumps(bound)
      case Some(bytes) => Success(lib.sha256Hex(bytes))
      case None => Failure(ValueError("Failed to serialize arguments"))
  }

  /** `strategy.compute(fn, args, kwargs)`: the key, or the exception computing it raised. */
  function Compute(lib: Libraries, s: Strategy, fn: Callable, args: seq<Value>, kwargs: map<string, Value>): (r: Result<string, Exception>)
    ensures s.SourceCode? && lib.getSource(fn.id).Some? ==> r == Success(lib.sha256Hex(lib.utf8(lib.getSource(fn.id).value)))
    ensures s.SourceCode? && lib.getSource(fn.id).None? ==> r == Failure(OSError)
    ensures s.Inputs? && Bind(fn.params, args, kwargs).Success? ==> r == EncodeArguments(lib, Bind(fn.params, args, kwargs).value)
    ensures s.Inputs? && Bind(fn.params, args, kwargs).Failure? ==> r == Failure(TypeError)
    ensures s.Custom? ==> r == lib.customCompute(s.id, fn, args, kwargs)
    ensures s.Compound? && r.Failure? ==>
              exists i :: 0 <= i < |s.strategies| && Compute(lib, s.strategies[i], fn, args, kwargs) == Failure(r.error)
    decreases s
  {
    match s
    case SourceCode =>
      (match lib.getSource(fn.id)
       case Some(src) => Success(lib.sha256Hex(lib.utf8(src)))
       case None => Failure(OSError))
    case Inputs =>
      (match Bind(fn.params, args, kwargs)
       case Success(bound) => EncodeArguments(lib, bound)
       case Failure(e) => Failure(e))
    case Custom(id) => lib.customCompute(id, fn, args, kwargs)
    case Compound(ss) =>
      match Fed(lib, ss, fn, args, kwargs)
      case Success(bytes) => Success(lib.sha256Hex(bytes))
      case Failure(e) => Failure(e)
  }

  /**
   * The bytes the compound's loop feeds to `sha256.update`: each component's
   * key, UTF-8 encoded, in order; the first component that raises stops it.
   */
  function Fed(lib: Libraries, ss: seq<Strategy>, fn: Callable, args: seq<Value>, kwargs: map<string, Value>): (r: Result<seq<byte>, Exception>)
    ensures r.Failure? ==> exists i :: 0 <= i < |ss| && Compute(lib, ss[i], fn, args, kwargs) == Failure(r.error)
    decreases ss
  {
    if ss == [] then Success([])
    else
      match Fed(lib, ss[..|ss| - 1], fn, args, kwargs)
      case Failure(e) => Failure(e)
      case Success(prefix) =>
        (match Compute(lib, ss[|ss| - 1], fn, args, kwargs)
         case Failure(e) => Failure(e)
         case Success(key) => Success(prefix + lib.utf8(key)))
  }

  /** The keys of the components, UTF-8 encoded and concatenated in order. */
  function Concatenated(lib: Libraries, keys: seq<string>): seq<byte> {
    if keys == [] then [] else Concatenated(lib, keys[..|keys| - 1]) + lib.utf8(keys[|keys| - 1])
  }

  lemma {:induction false} FedKeys(lib: Libraries, ss: seq<Strategy>, keys: seq<string>, fn: Callable, args: seq<Value>, kwargs: map<string, Value>)
    requires |keys| == |ss| && forall i :: 0 <= i < |ss| ==> Compute(lib, ss[i], fn, args, kwargs) == Success(keys[i])
    ensures Fed(lib, ss, fn, args, kwargs) == Success(Concatenated(lib, keys))
  {
    if ss != [] {
      var n := |ss| - 1;
      FedKeys(lib, ss[..n], keys[..n], fn, args, kwargs);
    }
  }

  /** A compound key is the hash of the in-order concatenation of its components' keys. */
  lemma CompoundKey(lib: Libraries, ss: seq<Strategy>, keys: seq<string>, fn: Callable, args: seq<Value>, kwargs: map<string, Value>)
    requires |keys| == |ss| && forall i :: 0 <= i < |ss| ==> Compute(lib, ss[i], fn, args, kwargs) == Success(keys[i])
    ensures Compute(lib, Compound(ss), fn, args, kwargs) == Success(lib.sha256Hex(Concatenated(lib, keys)))
  {
    FedKeys(lib, ss, keys, fn, args, kwargs);
  }

  /** A compound key raises what its first failing component raises; later components are not consulted. */
  lemma {:induction false} CompoundKeyFailure(lib: Libraries, ss: seq<Strategy>, i: nat, fn: Callable, args: seq<Value>, kwargs: map<string, Value>)
    requires i < |ss| && Compute(lib, ss[i], fn, args, kwargs).Failure?
    requires forall j :: 0 <= j < i ==> Compute(lib, ss[j], fn, args, kwargs).Success?
    ensures Compute(lib, Compound(ss), fn, args, kwargs) == Compute(lib, ss[i], fn, args, kwargs)
    decreases |ss|
  {
    var n := |ss| - 1;
    if i == n {
      var keys := seq(n, j requires 0 <= j < n => Compute(lib, ss[j], fn, args, kwargs).value);
      FedKeys(lib, ss[..n], keys, fn, args, kwargs);
    } else {
      var prefix := ss[..n];
      assert prefix[i] == ss[i];
      assert forall j :: 0 <= j < i ==> prefix[j] == ss[j];
      CompoundKeyFailure(lib, prefix, i, fn, args, kwargs);
      assert Fed(lib, prefix, fn, args, kwargs).Failure?;
    }
  }

  /** Both groupings of `a + b + c` are the compound the constructor builds from `a, b, c`. */
  lemma GroupingsAgree(a: Strategy, b: Strategy, c: Strategy)
    requires WellFormed(a) && WellFormed(b) && WellFormed(c)
    ensures Add(Add(a, b), c) == NewCompound([a, b, c])
    ensures Add(a, Add(b, c)) == NewCompound([a, b, c])
  {
    var ca, cb, cc := Components(a), Components(b), Components(c);
    var ab := Add(a, b);
    AddComponents(a, b);
    AddComponents(ab, c);
    assert Components(ab) == ca + cb;
    assert Add(ab, c) == Compound((ca + cb) + cc);
    assert Flatten([a, b, c]) == ca + (cb + cc) by {
      assert [a, b, c][1..] == [b, c] && [b, c][1..] == [c] && [c][1..] == [];
      assert Flatten([c]) == cc;
    }
    assert (ca + cb) + cc == ca + (cb + cc);
    AddAssociative(a, b, c);
  }

  /**
   * However a compound is built from the same strategies, its key is the same:
   * both groupings of `+` and the constructor agree, for every callable and
   * arguments.
   */
  lemma SameComponentsSameKey(lib: Libraries, a: Strategy, b: Strategy, c: Strategy,
                              fn: Callable, args: seq<Value>, kwargs: map<string, Value>)
    requires WellFormed(a) && WellFormed(b) && WellFormed(c)
    ensures Compute(lib, Add(Add(a, b), c), fn, args, kwargs) == Compute(lib, NewCompound([a, b, c]), fn, args, kwargs)
    ensures Compute(lib, Add(a, Add(b, c)), fn, args, kwargs) == Compute(lib, NewCompound([a, b, c]), fn, args, kwargs)
  {
    GroupingsAgree(a, b, c);
  }

  /** The `SourceCode` key depends on the source text alone, never on the arguments. */
  lemma SourceCodeKey(lib: Libraries, fn1: Callable, fn2: Callable,
                      args1: seq<Value>, kwargs1: map<string, Value>, args2: seq<Value>, kwargs2: map<string, Value>)
    requires lib.getSource(fn1.id) == lib.getSource(fn2.id)
    ensures Compute(lib, SourceCode, fn1, args1, kwargs1) == Compute(lib, SourceCode, fn2, args2, kwargs2)
  {
  }

  /** The `Inputs` key depends only on the bound arguments. */
  lemma InputsKey(lib: Libraries, fn: Callable, args1: seq<Value>, kwargs1: map<string, Value>,
                  args2: seq<Value>, kwargs2: map<string, Value>)
    requires Bind(fn.params, args1, kwargs1) == Bind(fn.params, args2, kwargs2)
    ensures Compute(lib, Inputs, fn, args1, kwargs1) == Compute(lib, Inputs, fn, args2, kwargs2)
  {
  }

  /**
   * `CompoundMemoKeyStrategy.compute`, and the other strategies' `compute`:
   * the loop feeds each component's key to the running hash.
   */
  method ComputeKey(lib: Libraries, s: Strategy, fn: Callable, args: seq<Value>, kwargs: map<string, Value>)
    returns (r: Result<string, Exception>)
    ensures r == Compute(lib, s, fn, args, kwargs)
    decreases s
  {
    if !s.Compound? {
      return Compute(lib, s, fn, args, kwargs);
    }
    var ss := s.strategies;
    var fed: seq<byte> := [];
    var i := 0;
    while i < |ss|
      invariant 0 <= i <= |ss|
      invariant Fed(lib, ss[..i], fn, args, kwargs) == Success(fed)
    {
      var part := ComputeKey(lib, ss[i], fn, args, kwargs);
      assert ss[..i + 1][..i] == ss[..i];
      if part.Failure? {
        assert Fed(lib, ss[..i + 1], fn, args, kwargs) == Failure(part.error);
        FedFailureSticks(lib, ss, i + 1, fn, args, kwargs);
        return Failure(part.error);
      }
      fed := fed + lib.utf8(part.value);
      i := i + 1;
    }
    assert ss[..i] == ss;
    r := Success(lib.sha256Hex(fed));
  }

  /** Once a prefix's feed fails, every longer prefix fails the same way. */
  lemma {:induction false} FedFailureSticks(lib: Libraries, ss: seq<Strategy>, n: nat, fn: Callable, args: seq<Value>, kwargs: map<string, Value>)
    requires n <= |ss| && Fed(lib, ss[..n], fn, args, kwargs).Failure?
    ensures Fed(lib, ss, fn, args, kwargs) == Fed(lib, ss[..n], fn, args, kwargs)
    decreases |ss| - n
  {
    if n < |ss| {
      assert ss[..n + 1][..n] == ss[..n];
      FedFailureSticks(lib, ss, n + 1, fn, args, kwargs);
    } else {
      assert ss[..n] == ss;
    }
  }
}
