/**
 * The JSON values the registry persists and the HTTP layer receives, with
 * Python's truthiness for the objects `json.load` produces.  JSON integers
 * and floats are both `JNumber`.
 */
module Json {

  datatype JsonValue =
    | JNull
    | JBool(b: bool)
    | JNumber(n: real)
    | JString(s: string)
    | JArray(items: seq<JsonValue>)
    | JObject(fields: map<string, JsonValue>)

  /** `bool(v)` for the Python object that stands for `v`. */
  predicate Truthy(v: JsonValue) {
    match v
    case JNull => false
    case JBool(b) => b
    case JNumber(n) => n != 0.0
    case JString(s) => |s| > 0
    case JArray(xs) => |xs| > 0
    case JObject(m) => |m| > 0
  }
}
