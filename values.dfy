/** Dynamically typed Python values as they appear in metadata dictionaries and
    decoded JSON, with the few built-in operations the system applies to them. */
module Values {
  import opened Wrappers
  import opened Text

  /** A JSON value or Python scalar: None, bool, int, float, str, list, dict. */
  datatype Value =
    | Null
    | Bool(b: bool)
    | Int(i: int)
    | Float(r: real)
    | Str(s: string)
    | Arr(items: seq<Value>)
    | Obj(fields: map<string, Value>)

  /** A node's or document's metadata dictionary. */
  type Metadata = map<string, Value>

  /** Python truthiness: `if v:`. */
  predicate Truthy(v: Value) {
    match v
    case Null => false
    case Bool(b) => b
    case Int(i) => i != 0
    case Float(r) => r != 0.0
    case Str(s) => s != ""
    case Arr(items) => items != []
    case Obj(fields) => fields != map[]
  }

  /** `hash(v)` succeeds: lists and dicts are unhashable, so they cannot be
      looked up in or added to a Python `set`. */
  predicate Hashable(v: Value) {
    !v.Arr? && !v.Obj?
  }

  /** `type(v).__name__`. */
  function TypeName(v: Value): string {
    match v
    case Null => "NoneType"
    case Bool(_) => "bool"
    case Int(_) => "int"
    case Float(_) => "float"
    case Str(_) => "str"
    case Arr(_) => "list"
    case Obj(_) => "dict"
  }

  /** `d.get(key)`: None when the key is absent. */
  function Get(d: map<string, Value>, key: string): Value {
    if key in d then d[key] else Null
  }

  /** `d.get(key, default)`. */
  function GetOr(d: map<string, Value>, key: string, default: Value): Value {
    if key in d then d[key] else default
  }

  /** The behaviour of library code the model does not reproduce: `json.loads`
      (None when it raises `JSONDecodeError`), `float(s)` and `int(s)` of a
      string (None when they raise `ValueError`) and `str(v)` of a float, list
      or dict. */
  datatype Builtins = Builtins(
    jsonLoads: string -> Option<Value>,
    floatOfStr: string -> Option<real>,
    intOfStr: string -> Option<int>,
    strOf: Value -> string)

  /** `float(v)`: None when Python raises `TypeError` or `ValueError`. */
  function FloatOf(py: Builtins, v: Value): Option<real> {
    match v
    case Null => None
    case Bool(b) => Some(if b then 1.0 else 0.0)
    case Int(i) => Some(i as real)
    case Float(r) => Some(r)
    case Str(s) => py.floatOfStr(s)
    case Arr(_) => None
    case Obj(_) => None
  }

  /** `str(v)`, as an f-string renders a value. */
  function PyStr(py: Builtins, v: Value): string {
    match v
    case Null => "None"
    case Bool(b) => if b then "True" else "False"
    case Int(i) => IntToString(i)
    case Str(s) => s
    case _ => py.strOf(v)
  }
}
