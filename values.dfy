/** Python-side values as a parsed YAML document or a node's metadata holds
    them, with Python's truthiness, `or` and `dict.get`. */
module Values {

  datatype Option<+T> = None | Some(value: T)

  datatype Result<+T, +E> = Ok(value: T) | Err(error: E) {
    predicate IsFailure() { Err? }

    function PropagateFailure<U>(): Result<U, E>
      requires Err?
    {
      Err(error)
    }

    function Extract(): T
      requires Ok?
    {
      value
    }
  }

  /** The values of a parsed YAML document that the configuration uses:
      null, booleans, integers, floats, strings, sequences and mappings
      with string keys. Floats are finite: `.inf`, `-.inf` and `.nan`, on
      which `int()` raises `OverflowError` and `ValueError`, are not
      represented, and neither are dates, timestamps, binary data and sets,
      which `yaml.safe_load` can also produce. */
  datatype Value =
    | Null
    | Bool(b: bool)
    | Int(i: int)
    | Float(r: real)
    | Str(s: string)
    | List(items: seq<Value>)
    | Mapping(m: map<string, Value>)

  /** Python's `bool(v)`. */
  predicate Truthy(v: Value) {
    match v
    case Null => false
    case Bool(b) => b
    case Int(i) => i != 0
    case Float(r) => r != 0.0
    case Str(s) => s != ""
    case List(items) => items != []
    case Mapping(m) => m != map[]
  }

  /** Python's `a or b`. */
  function Or(a: Value, b: Value): Value {
    if Truthy(a) then a else b
  }

  /** `d.get(k, default)` on a dict. */
  function GetOr(d: map<string, Value>, k: string, default: Value): Value {
    if k in d then d[k] else default
  }

  /** `d.get(k)` on a dict: None when the key is missing. */
  function Get(d: map<string, Value>, k: string): Value {
    GetOr(d, k, Null)
  }
}
