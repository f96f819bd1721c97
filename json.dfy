/** The slice of `serde_json::Value` the program reads: a value tree, indexing by key
    (`v["key"]`, which yields `Null` for a missing key or a non-object), and the typed
    accessors `as_str`, `as_array` and `as_u64`. Parsing text into a value is not modelled
    here: the snapshot supplies the parse outcome of every file it holds. */
module Json {
  import opened Wrappers

  const U64_LIMIT: int := 0x1_0000_0000_0000_0000

  /** A JSON value. Integers are kept exactly; a number with a fraction or exponent is
      `Fraction`, whose value the program never reads. Object keys are unique. */
  datatype Value =
    | Null
    | Bool(b: bool)
    | Int(i: int)
    | Fraction
    | Str(s: string)
    | Array(items: seq<Value>)
    | Object(fields: map<string, Value>)

  /** `v[key]`: the field's value, or `Null` when `v` is not an object or lacks the key. */
  function Index(v: Value, key: string): Value {
    if v.Object? && key in v.fields then v.fields[key] else Null
  }

  /** `v[k1][k2]...`: indexing along a path of keys. */
  function At(v: Value, path: seq<string>): Value
    decreases |path|
  {
    if path == [] then v else At(Index(v, path[0]), path[1..])
  }

  function AsStr(v: Value): Option<string> {
    if v.Str? then Some(v.s) else None
  }

  function AsArray(v: Value): Option<seq<Value>> {
    if v.Array? then Some(v.items) else None
  }

  /** `as_u64`: only a non-negative integer that fits in 64 bits. */
  function AsU64(v: Value): Option<nat> {
    if v.Int? && 0 <= v.i < U64_LIMIT then Some(v.i) else None
  }

  /** `Vec::get(0)` on an array value. */
  function FirstItem(v: Value): Option<Value> {
    match AsArray(v)
    case Some(items) => if |items| > 0 then Some(items[0]) else None
    case None => None
  }
}
