/** The JSON values that the state files and the source list hold, and
    Python's truthiness on them. */
module Json {

  /** A decoded JSON value. Numbers are integers here. */
  datatype Value =
    | Null
    | Bool(b: bool)
    | Num(n: int)
    | Str(s: string)
    | Arr(items: seq<Value>)
    | Obj(fields: map<string, Value>)

  /** `bool(v)` for the Python object `json.load` produces for `v`:
      `None`, `False`, `0`, `""`, `[]` and `{}` are false, all else is true. */
  predicate Truthy(v: Value) {
    match v
    case Null => false
    case Bool(b) => b
    case Num(n) => n != 0
    case Str(s) => s != ""
    case Arr(items) => items != []
    case Obj(fields) => fields != map[]
  }
}
