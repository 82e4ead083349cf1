/** The Python values a webhook payload turns into once parsed: a loosely
    typed JSON tree, Python's truthiness, `dict.get` (which raises when the
    receiver is not a dict), `str()`, and the exceptions these raise. */
module Json {
  import opened Text

  datatype Option<+T> = None | Some(value: T)
  {
    function GetOr(default: T): T
    {
      match this
      case Some(v) => v
      case None => default
    }
  }

  /** The Python exceptions the pipeline can raise. */
  datatype PyError =
    | AttributeError(attr: string)  // e.g. `None.get(...)`, `5.replace(...)`
    | TypeError                     // `hmac.compare_digest` on non-ASCII text
    | BadRequest                    // the body could not be read as JSON

  /** A Python computation: a value, or the exception it raised. */
  datatype Result<+T> = Ok(value: T) | Raised(error: PyError)
  {
    predicate IsFailure()
    {
      Raised?
    }

    function PropagateFailure<U>(): Result<U>
      requires Raised?
    {
      Raised(error)
    }

    function Extract(): T
      requires Ok?
    {
      value
    }
  }

  /** A parsed JSON document. Numbers are integers. */
  datatype Json =
    | Null
    | Bool(b: bool)
    | Num(n: int)
    | Str(s: string)
    | Arr(items: seq<Json>)
    | Obj(fields: map<string, Json>)

  /** Python's `bool(v)`. */
  predicate Truthy(v: Json)
  {
    match v
    case Null => false
    case Bool(b) => b
    case Num(n) => n != 0
    case Str(s) => s != ""
    case Arr(items) => items != []
    case Obj(fields) => fields != map[]
  }

  /** What an object holds under `key`, or `default` when the key is absent:
      the content of the tree, independent of any Python call. */
  function FieldOr(o: Json, key: string, default: Json): Json
    requires o.Obj?
  {
    if key in o.fields then o.fields[key] else default
  }

  /** Python's `recv.get(key, default)`: only a dict has `get`; on any other
      value (notably `None` for a JSON `null`) the call raises. */
  function Get(recv: Json, key: string, default: Json): (r: Result<Json>)
    ensures r.Ok? <==> recv.Obj?
    ensures r.Ok? ==> r.value == FieldOr(recv, key, default)
    ensures r.Raised? ==> r.error == AttributeError("get")
  {
    if recv.Obj? then Ok(FieldOr(recv, key, default)) else Raised(AttributeError("get"))
  }

  /** Python's `str(v)`. The text Python prints for a list or a dict is
      supplied as `repr`. */
  function PyStr(v: Json, repr: Json -> string): string
  {
    match v
    case Null => "None"
    case Bool(b) => if b then "True" else "False"
    case Num(n) => IntText(n)
    case Str(s) => s
    case Arr(_) => repr(v)
    case Obj(_) => repr(v)
  }

  /** `str` of a number is none of Python's words for `None`, `True` and
      `False`, and distinct numbers print differently. */
  lemma PyStrOfNum(m: int, n: int, repr: Json -> string)
    ensures PyStr(Num(m), repr) !in {"None", "True", "False"}
    ensures m != n ==> PyStr(Num(m), repr) != PyStr(Num(n), repr)
  {
    var t := IntText(m);
    assert t[0] == '-' || IsDigit(t[0]);
    if m != n && IntText(m) == IntText(n) {
      IntTextInjective(m, n);
    }
  }
}
