/** The part of Python's data model the integration layer relies on: JSON-like values,
    dictionaries keyed by strings, truthiness, `dict.get` with a default, and the
    exceptions an operation can raise instead of returning. */
module Values {

  /** A Python value as it flows through the system: dicts, lists, strings, ints, bools, None. */
  datatype Value =
    | Null
    | Bool(b: bool)
    | Int(i: int)
    | Str(s: string)
    | List(items: seq<Value>)
    | Dict(fields: Fields)

  /** A Python dict with string keys. Insertion order is not kept. */
  type Fields = map<string, Value>

  datatype Option<+T> = None | Some(value: T)

  /** Exceptions that the modelled code can raise. */
  datatype Exception = KeyError | AttributeError | TypeError | OverflowError

  /** Either a value or the exception raised while computing it. */
  datatype Result<+T> = Ok(value: T) | Err(exception: Exception)

  /** Python truthiness: None, False, 0, "" and empty containers are false. */
  predicate Truthy(v: Value) {
    match v
    case Null => false
    case Bool(b) => b
    case Int(i) => i != 0
    case Str(s) => s != ""
    case List(xs) => xs != []
    case Dict(m) => m != map[]
  }

  /** `d.get(key, default)`. */
  function Get(d: Fields, key: string, default: Value): Value {
    if key in d then d[key] else default
  }
}
