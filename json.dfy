/**
 * The values `JSON.parse` produces, and the JavaScript tests the tools
 * apply to them (`typeof`, truthiness, property lookup).
 */
module JsonValues {
  import opened Wrappers

  /** Objects keep the last value of a repeated key, as `JSON.parse` does. */
  datatype Json =
    | JNull
    | JBool(b: bool)
    | JNumber(n: real)
    | JString(s: string)
    | JArray(items: seq<Json>)
    | JObject(props: map<string, Json>)

  /** `v && typeof v === 'object'`: a non-null object, arrays included. */
  predicate IsObject(v: Json)
  {
    v.JArray? || v.JObject?
  }

  /** `Boolean(v)`; a missing property is `undefined`, which is falsy. */
  predicate Truthy(v: Option<Json>)
  {
    match v
    case None => false
    case Some(JNull) => false
    case Some(JBool(b)) => b
    case Some(JNumber(n)) => n != 0.0
    case Some(JString(s)) => s != []
    case Some(JArray(_)) => true
    case Some(JObject(_)) => true
  }

  /**
   * `v[key]` for a value that is not `null` (reading a property of `null`
   * throws, and callers treat that case first). Only objects carry the keys
   * the tools ask for; on any other value the lookup is `undefined`.
   */
  function Prop(v: Json, key: string): (r: Option<Json>)
    ensures r.Some? <==> v.JObject? && key in v.props
    ensures r.Some? ==> r.value == v.props[key]
  {
    if v.JObject? && key in v.props then Some(v.props[key]) else None
  }

  /** `typeof v[key] === 'string' ? v[key] : undefined`. */
  function StringProp(v: Json, key: string): (r: Option<string>)
    ensures r.Some? <==> Prop(v, key).Some? && Prop(v, key).value.JString?
    ensures r.Some? ==> Prop(v, key) == Some(JString(r.value))
  {
    match Prop(v, key)
    case Some(JString(s)) => Some(s)
    case _ => None
  }
}
