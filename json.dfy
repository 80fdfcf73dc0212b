/** Decoded JSON values, as Python's `json` module produces them, and the few
    Python-level questions the client asks about them. */
module Json {
  import opened Wrappers

  datatype Value =
    | Null
    | Bool(b: bool)
    | Int(i: int)
    | Float(r: real)
    | Str(s: string)
    | Arr(items: seq<Value>)
    | Obj(members: map<string, Value>)

  /** The built-in Python exceptions the client lets escape. */
  datatype PyError = KeyError(key: string) | TypeError | AssertionError | IndexError | ZeroDivisionError

  /** A document, or any other JSON object, as a Python dict. */
  type Fields = map<string, Value>

  /** A call `f(..., **kw)` where `kw` names one of `f`'s own parameters:
      Python raises TypeError ("got multiple values for argument") before
      the body of `f` runs. */
  predicate Clashes(params: set<string>, kw: map<string, Value>) {
    params * kw.Keys != {}
  }

  /** Python truth value of a decoded value (`if x:`). */
  predicate Truthy(v: Value) {
    match v
    case Null => false
    case Bool(b) => b
    case Int(i) => i != 0
    case Float(r) => r != 0.0
    case Str(s) => s != ""
    case Arr(a) => a != []
    case Obj(m) => m != map[]
  }

  /** `isinstance(v, int)`, with its integer value; a Python bool is an int. */
  function AsInt(v: Value): (r: Option<int>)
    ensures r.Some? <==> v.Int? || v.Bool?
    ensures v.Bool? ==> r == Some(if v.b then 1 else 0)
  {
    match v
    case Int(i) => Some(i)
    case Bool(b) => Some(if b then 1 else 0)
    case _ => None
  }

  /** `d.get(key)`: the value, or `None` (JSON null) when the key is absent. */
  function Get(d: Fields, key: string): (r: Value)
    ensures key !in d ==> r == Null
    ensures key in d ==> r == d[key]
  {
    if key in d then d[key] else Null
  }
}
