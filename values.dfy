/** Parsed TOML / JSON values, as `tomllib` and `json` hand them to the application. */
module Values {
  import opened Dict

  datatype Value =
    | Str(s: string)
    | Int(i: int)
    | Bool(b: bool)
    | Arr(items: seq<Value>)
    | Table(entries: Dict<string, Value>)

  /** Python truthiness of a value (`if v:`). */
  predicate Truthy(v: Value) {
    match v
    case Str(s) => s != []
    case Int(i) => i != 0
    case Bool(b) => b
    case Arr(xs) => xs != []
    case Table(t) => t != []
  }

  /** The strings held by a list of string values. */
  function AsStrings(xs: seq<Value>): seq<string>
    requires forall i | 0 <= i < |xs| :: xs[i].Str?
  {
    seq(|xs|, i requires 0 <= i < |xs| => xs[i].s)
  }
}
