/** JSON values as JavaScript sees them after `JSON.parse`, and JavaScript truthiness. */
module Json {
  datatype Json =
    | JNull
    | JBool(b: bool)
    | JNumber(n: real)
    | JString(s: string)
    | JArray(items: seq<Json>)
    | JObject(fields: map<string, Json>)

  /** Whether a value counts as true in a JavaScript condition or `||`. */
  predicate Truthy(v: Json) {
    match v
    case JNull => false
    case JBool(b) => b
    case JNumber(n) => n != 0.0
    case JString(s) => s != ""
    case JArray(_) => true
    case JObject(_) => true
  }

  /**
   * `obj[key] || fallback`: the value under `key` when present and truthy, else `fallback`;
   * the result is falsy only when both are, so a truthy default is never lost.
   */
  function FieldOr(obj: map<string, Json>, key: string, fallback: Json): (v: Json)
    ensures key in obj && Truthy(obj[key]) ==> v == obj[key]
    ensures !(key in obj && Truthy(obj[key])) ==> v == fallback
    ensures Truthy(v) <==> (key in obj && Truthy(obj[key])) || Truthy(fallback)
  {
    if key in obj && Truthy(obj[key]) then obj[key] else fallback
  }
}
