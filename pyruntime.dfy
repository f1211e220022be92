/**
 * The parts of the Python runtime that the memoization engine touches:
 * values, exceptions and their class hierarchy, callables with their
 * declared parameters, and the foreign library calls the key strategies make.
 */
module PyRuntime {

  datatype Option<+T> = None | Some(value: T)

  datatype Result<+T, +E> = Success(value: T) | Failure(error: E)

  /** What a procedure that returns `None` in Python ends with: normally, or by raising. */
  datatype Outcome = Pass | Fail(error: Exception)

  newtype byte = x: int | 0 <= x < 256

  /** A point in time (a `datetime`), as an abstract ordered number. */
  type Timestamp = int

  /** The values that flow through memoized calls. */
  datatype Value =
    | NoneValue
    | Bool(b: bool)
    | Int(i: int)
    | Str(s: string)
    | List(items: seq<Value>)
    | Dict(entries: map<string, Value>)
    | Object(id: nat)   // an instance of a user class, known only by identity

  /** The exceptions the core raises, catches or lets through. */
  datatype Exception =
    | MissingMemoError(message: string)
    | ExpiredMemoError(message: string)
    | KeyError(key: string)
    | TypeError
    | ValueError(message: string)
    | OSError
    | ExceptionGroup(message: string, exceptions: seq<Exception>)
    | Raised(name: string)   // raised by code outside the model: a serializer, a callback, the wrapped function

  /** `ExceptionGroup(message, excs)`: the constructor itself raises `ValueError` on an empty list. */
  function NewExceptionGroup(message: string, excs: seq<Exception>): (e: Exception)
    ensures |excs| > 0 ==> e.ExceptionGroup? && e.exceptions == excs
    ensures |excs| == 0 ==> e.ValueError?
  {
    if |excs| == 0 then ValueError("second argument (exceptions) must be a non-empty sequence")
    else ExceptionGroup(message, excs)
  }

  // ---------------------------------------------------------------------------
  // The exception class hierarchy, as used by `except C:` clauses.

  datatype ExceptionClass =
    | ExceptionBaseClass
    | LookupErrorClass
    | KeyErrorClass
    | TypeErrorClass
    | ValueErrorClass
    | OSErrorClass
    | ExceptionGroupClass
    | MissingMemoErrorClass
    | ExpiredMemoErrorClass
    | RaisedClass(name: string)

  /** The method resolution order `c.__mro__`: `c` followed by its ancestors, up to `Exception`. */
  function Mro(c: ExceptionClass): seq<ExceptionClass> {
    match c
    case ExceptionBaseClass => [ExceptionBaseClass]
    case KeyErrorClass => [KeyErrorClass, LookupErrorClass, ExceptionBaseClass]
    case ExpiredMemoErrorClass => [ExpiredMemoErrorClass, MissingMemoErrorClass, ExceptionBaseClass]
    case _ => [c, ExceptionBaseClass]
  }

  /** `issubclass(c, d)`. */
  predicate IsSubclass(c: ExceptionClass, d: ExceptionClass) {
    d in Mro(c)
  }

  function ClassOf(e: Exception): ExceptionClass {
    match e
    case MissingMemoError(_) => MissingMemoErrorClass
    case ExpiredMemoError(_) => ExpiredMemoErrorClass
    case KeyError(_) => KeyErrorClass
    case TypeError => TypeErrorClass
    case ValueError(_) => ValueErrorClass
    case OSError => OSErrorClass
    case ExceptionGroup(_, _) => ExceptionGroupClass
    case Raised(name) => RaisedClass(name)
  }

  /** `isinstance(e, c)`: whether `except c:` catches `e`. */
  predicate IsInstance(e: Exception, c: ExceptionClass) {
    IsSubclass(ClassOf(e), c)
  }

  // ---------------------------------------------------------------------------
  // Callables.

  /** A declared positional-or-keyword parameter and its default, if any. */
  datatype Param = Param(name: string, default: Option<Value>)

  /** Python forbids two parameters of one function with the same name. */
  predicate DistinctNames(params: seq<Param>) {
    forall i, j :: 0 <= i < j < |params| ==> params[i].name != params[j].name
  }

  /**
   * A wrapped Python function: an identity (what `inspect.getsource` is asked
   * about), its declared parameters (`inspect.signature`) and what calling it
   * with positional and keyword arguments returns or raises.
   */
  datatype Callable = Callable(
    id: nat,
    params: seq<Param>,
    body: (seq<Value>, map<string, Value>) -> Result<Value, Exception>)

  /**
   * Library calls outside the model, as uninterpreted functions. Each that can
   * raise returns `None` (or a failure) when it does.
   */
  datatype Libraries = Libraries(
    sha256Hex: seq<byte> -> string,                        // hashlib.sha256(data).hexdigest()
    utf8: string -> seq<byte>,                             // str.encode("utf-8")
    jsonDumpsSorted: map<string, Value> -> Option<string>, // json.dumps(d, sort_keys=True)
    pickleDumps: seq<(string, Value)> -> Option<seq<byte>>,// pickle.dumps of a dict in insertion order
    getSource: nat -> Option<string>,                      // inspect.getsource(fn)
    customCompute: (nat, Callable, seq<Value>, map<string, Value>) -> Result<string, Exception>)
                                                           // compute of a user-defined strategy subclass
}
