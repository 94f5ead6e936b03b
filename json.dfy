/** The JSON-shaped Python values the agent passes around (what `json.loads`
    produces), Python's truthiness and `str()` on them, the errors the Python
    runtime raises when a value has the wrong shape, and the outcome of
    `json.loads`, which the model receives as an oracle. */
module Json {
  import opened Wrappers
  import opened Text

  /** A value as `json.loads` returns it. Numbers are integers only. */
  datatype Value =
    | Null
    | Bool(b: bool)
    | Num(n: int)
    | Str(s: string)
    | Arr(items: seq<Value>)
    | Obj(fields: map<string, Value>)

  /** The outcome of `json.loads(text)`: a `JSONDecodeError`, or a value. */
  datatype JsonParse = Invalid | Valid(value: Value)

  /** Exceptions the Python runtime raises on values of the wrong shape. */
  datatype Fault =
    | NotADict(value: Value)       // `.get` or `len` on something that is no dict (AttributeError)
    | NotAList(value: Value)       // a truthy non-list used as the list of records
    | NotSliceable(value: Value)   // `value[:50]` on a number, boolean, None or dict
    | NotAssignable(value: Value)  // `value['id'] = ...` on a parsed value that is no dict (TypeError)
    | NoLen(value: Value)          // `len(value)` on a number, boolean or None (TypeError)

  /** Python's `bool(v)`. */
  predicate Truthy(v: Value) {
    match v
    case Null => false
    case Bool(b) => b
    case Num(n) => n != 0
    case Str(s) => s != ""
    case Arr(items) => items != []
    case Obj(fields) => fields != map[]
  }

  /** `d.get(key, default)` on a dict. */
  function Get(d: map<string, Value>, key: string, default: Value): (r: Value)
    ensures key in d ==> r == d[key]
    ensures key !in d ==> r == default
  {
    if key in d then d[key] else default
  }

  /** `len(v)` is defined for strings, lists and dicts. */
  predicate HasLen(v: Value) {
    v.Str? || v.Arr? || v.Obj?
  }

  /** Python's `str(v)` for scalars; the text of lists and dicts (their Python
      `repr`, which depends on key order) comes from `repr`. */
  function Render(v: Value, repr: Value -> string): string {
    match v
    case Null => "None"
    case Bool(b) => if b then "True" else "False"
    case Num(n) => IntText(n)
    case Str(s) => s
    case Arr(_) => repr(v)
    case Obj(_) => repr(v)
  }
}
