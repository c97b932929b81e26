/**
 * The dynamically typed JSON value (`ijson::IValue`) that gateway payloads are
 * carried in. Only the structure is modelled; JSON text is not.
 * Numbers are integers (floating-point JSON numbers are not modelled).
 */
module JsonValue {
  import opened Wrappers
  import opened Numeric

  datatype Json =
    | Null
    | Bool(b: bool)
    | Number(n: int)
    | Str(s: string)
    | Array(items: seq<Json>)
    | Object(fields: map<string, Json>)

  /** `IValue::get(key)`: the member under `key` of an object; `None` for a missing key or a non-object. */
  function Get(v: Json, key: string): (r: Option<Json>)
    ensures r.Some? <==> v.Object? && key in v.fields
    ensures r.Some? ==> r.value == v.fields[key]
  {
    if v.Object? && key in v.fields then Some(v.fields[key]) else None
  }

  /** `IValue::as_number()` followed by `to_u64()`: present only for a non-negative integer below 2^64. */
  function AsU64(v: Json): (r: Option<U64>)
    ensures r.Some? <==> v.Number? && 0 <= v.n < TWO_64
    ensures r.Some? ==> Number(r.value) == v
  {
    if v.Number? && 0 <= v.n < TWO_64 then Some(v.n) else None
  }

  /** The JSON form of an `Option<T>` field: `None` is `null`. */
  function OptNumber(o: Option<int>): Json {
    match o
    case Some(n) => Number(n)
    case None => Null
  }
}
