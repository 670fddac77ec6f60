/** Shared vocabulary: optional values, results carrying the Python exception
    that a call raises, and the JSON values that the vault CLI and the
    credential cache exchange. */
module Base {

  /** Python's `Optional[T]`: `None` or a value. */
  datatype Option<+T> = None | Some(value: T)

  /** The exceptions that cross the modelled boundaries. Each carries the
      text that `str(e)` renders, so log lines can quote it. */
  datatype Error =
    | RuntimeError(msg: string)
    | ValueError(msg: string)
    | KeyError(key: string)
    | TypeError(msg: string)
    | AttributeError(msg: string)
    | IndexError
    | OSError(msg: string)          // a child process or file that could not be opened
    | WebDriverTimeout(msg: string) // selenium's TimeoutException
    | WebDriverError(msg: string)   // any other exception raised by the browser driver
  {
    /** The text `str(e)` yields, as quoted by "Job Failed: {e}". */
    function Message(): string {
      match this
      case RuntimeError(m) => m
      case ValueError(m) => m
      case KeyError(k) => "'" + k + "'"
      case TypeError(m) => m
      case AttributeError(m) => m
      case IndexError => "list index out of range"
      case OSError(m) => m
      case WebDriverTimeout(m) => m
      case WebDriverError(m) => m
    }
  }

  /** A call that returns a value or raises. Failure-compatible, so `:-`
      propagates the exception unchanged, as Python's `raise` does. */
  datatype Result<+T> = Ok(value: T) | Err(error: Error) {
    predicate IsFailure() {
      Err?
    }

    function PropagateFailure<U>(): Result<U>
      requires Err?
    {
      Err(error)
    }

    function Extract(): T
      requires Ok?
    {
      value
    }
  }

  /** A decoded JSON document. Numbers are integers; JSON `null` is also how
      Python's `None` is represented when a value is looked up. */
  datatype Json =
    | JNull
    | JBool(b: bool)
    | JNum(n: int)
    | JStr(s: string)
    | JArr(items: seq<Json>)
    | JObj(fields: map<string, Json>)

  /** Python truthiness of a decoded value (`if x:`). */
  predicate Truthy(j: Json) {
    match j
    case JNull => false
    case JBool(b) => b
    case JNum(n) => n != 0
    case JStr(s) => |s| > 0
    case JArr(items) => |items| > 0
    case JObj(fields) => |fields| > 0
  }

  /** Python truthiness of an optional string (`if session_key:`). */
  predicate TruthyText(s: Option<string>) {
    s.Some? && |s.value| > 0
  }

  /** `obj.get(key, default)`: a non-dict has no `get` and raises. */
  function Get(obj: Json, key: string, default: Json): (r: Result<Json>)
    ensures r.Ok? <==> obj.JObj?
    ensures r.Ok? && key in obj.fields ==> r.value == obj.fields[key]
    ensures r.Ok? && key !in obj.fields ==> r.value == default
  {
    match obj
    case JObj(m) => Ok(if key in m then m[key] else default)
    case _ => Err(AttributeError("object has no attribute 'get'"))
  }

  /** `obj[key]`: a missing key raises KeyError, a non-dict TypeError. */
  function Index(obj: Json, key: string): (r: Result<Json>)
    ensures r.Ok? <==> obj.JObj? && key in obj.fields
    ensures r.Ok? ==> r.value == obj.fields[key]
    ensures obj.JObj? && key !in obj.fields ==> r == Err(KeyError(key))
    ensures !obj.JObj? ==> r.Err? && r.error.TypeError?
  {
    match obj
    case JObj(m) => if key in m then Ok(m[key]) else Err(KeyError(key))
    case _ => Err(TypeError("object is not subscriptable by str"))
  }

  /** A sequence read backwards, as Python's `xs[::-1]`. */
  function Reverse<T>(xs: seq<T>): (r: seq<T>)
    ensures |r| == |xs|
    ensures forall i :: 0 <= i < |xs| ==> r[i] == xs[|xs| - 1 - i]
  {
    if xs == [] then [] else Reverse(xs[1..]) + [xs[0]]
  }
}
