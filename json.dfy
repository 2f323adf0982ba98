/**
 * JSON values as Python's `json` module produces them (integers and floats
 * kept apart), Python truthiness on them, and `dict.get` with a default.
 * A result record and a test-set question are JSON objects.
 */
module Json {
  import opened Wrappers

  datatype Json =
    | JNull
    | JBool(b: bool)
    | JInt(i: int)
    | JReal(r: real)
    | JStr(s: string)
    | JArr(items: seq<Json>)
    | JObj(fields: map<string, Json>)

  /** A JSON object, as a Python `dict` keyed by strings. */
  type Record = map<string, Json>

  /** Python's `bool(v)`. */
  predicate Truthy(v: Json) {
    match v
    case JNull => false
    case JBool(b) => b
    case JInt(i) => i != 0
    case JReal(r) => r != 0.0
    case JStr(s) => s != ""
    case JArr(items) => items != []
    case JObj(fields) => fields != map[]
  }

  /** `d.get(key, default)`. */
  function Get(d: Record, key: string, default: Json): (v: Json)
    ensures key in d ==> v == d[key]
    ensures key !in d ==> v == default
  {
    if key in d then d[key] else default
  }

  /** The numeric value Python arithmetic sees: `bool`, `int` and `float`; None for anything else. */
  function AsNumber(v: Json): (n: Option<real>)
    ensures n.Some? <==> v.JBool? || v.JInt? || v.JReal?
    ensures v.JBool? ==> n == Some(if v.b then 1.0 else 0.0)
    ensures v.JInt? ==> n == Some(v.i as real)
    ensures v.JReal? ==> n == Some(v.r)
    ensures n.Some? ==> (n.value != 0.0 <==> Truthy(v))
  {
    match v
    case JBool(b) => Some(if b then 1.0 else 0.0)
    case JInt(i) => Some(i as real)
    case JReal(r) => Some(r)
    case _ => None
  }
}
