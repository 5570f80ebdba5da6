/** JSON values, JavaScript truthiness on them, and `JSON.parse` as a
    parameter: a partial function that yields `None` where it would throw. */
module Json {
  import opened Wrappers

  datatype Json =
    | JNull
    | JBool(b: bool)
    | JNumber(n: real)
    | JString(s: string)
    | JArray(items: seq<Json>)
    | JObject(fields: map<string, Json>)

  /** `JSON.parse`: `None` is a thrown `SyntaxError`. */
  type Parser = string -> Option<Json>

  /** JavaScript truthiness of a parsed value (`if (value)`). */
  predicate Truthy(j: Json) {
    match j
    case JNull => false
    case JBool(b) => b
    case JNumber(n) => n != 0.0
    case JString(s) => s != ""
    case JArray(_) => true
    case JObject(_) => true
  }
}
