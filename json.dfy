/** Decoded JSON values, as the briefing API's response body arrives in Python
    after `response.json()`, and the Python truthiness of such values. */
module Json {

  /** `null`, booleans, numbers (integers and floats alike), strings, arrays
      (Python lists) and objects (Python dicts with string keys). */
  datatype Json =
    | JNull
    | JBool(b: bool)
    | JNumber(n: real)
    | JString(s: string)
    | JArray(items: seq<Json>)
    | JObject(fields: map<string, Json>)

  /** Python's `bool(v)`: `None`, `False`, zero, `""`, `[]` and `{}` are falsy,
      everything else is truthy. */
  predicate Truthy(v: Json)
  {
    match v
    case JNull => false
    case JBool(b) => b
    case JNumber(n) => n != 0.0
    case JString(s) => s != ""
    case JArray(items) => items != []
    case JObject(fields) => fields != map[]
  }

  /** Exactly the six falsy values listed for Python are falsy. */
  lemma FalsyValues(v: Json)
    ensures !Truthy(v) <==> v in {JNull, JBool(false), JNumber(0.0), JString(""), JArray([]), JObject(map[])}
  {
  }
}
