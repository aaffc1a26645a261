/**
 * JSON values as both halves of the system see them: what `JSON.parse` yields
 * in the browser helper and what `json_decode($s, true)` yields in the PHP
 * service. Numbers are integers only (floating point is not modelled).
 */
module Json {

  import opened Wrappers

  datatype Json =
    | JNull
    | JBool(b: bool)
    | JInt(i: int)
    | JStr(s: string)
    | JList(items: seq<Json>)
    | JObject(fields: map<string, Json>)

  /** JavaScript truthiness of a JSON value (`if (v)`). */
  predicate Truthy(v: Json) {
    match v
    case JNull => false
    case JBool(b) => b
    case JInt(i) => i != 0
    case JStr(s) => s != ""
    case JList(_) => true
    case JObject(_) => true
  }

  /**
   * `v.key` in JavaScript for a key that is neither numeric nor "length" and
   * not inherited from Object.prototype: the own property of an object, and
   * `undefined` (None) for every other value. Reading a property of null
   * throws; callers test `v == JNull` first.
   */
  function Member(v: Json, key: string): (r: Option<Json>)
    ensures r.Some? <==> v.JObject? && key in v.fields
  {
    if v.JObject? && key in v.fields then Some(v.fields[key]) else None
  }

  /** `Object.keys(v).length` for a non-null value. */
  function KeyCount(v: Json): nat {
    match v
    case JObject(m) => |m|
    case JList(xs) => |xs|
    case JStr(s) => |s|
    case _ => 0
  }
}
