/** The values `json.load` can produce, and Python's truthiness of them.
    JSON parsing itself is not modelled: configurations and HTTP bodies
    enter the model already parsed. */
module Json {

  /** A parsed JSON value. Numbers are kept as reals: Python distinguishes
      `int` from `float`, but the model only asks whether a number is zero. */
  datatype Json =
    | JNull
    | JBool(b: bool)
    | JNumber(n: real)
    | JString(s: string)
    | JArray(items: seq<Json>)
    | JObject(fields: map<string, Json>)

  /** Python's `bool(v)` for a parsed JSON value: `None`, `False`, zero and
      empty containers are falsy, everything else is truthy. */
  predicate Truthy(v: Json)
  {
    match v
    case JNull => false
    case JBool(b) => b
    case JNumber(n) => n != 0.0
    case JString(s) => |s| > 0
    case JArray(items) => |items| > 0
    case JObject(fields) => |fields| > 0
  }

  /** `d.get(key, default)` on a JSON object. */
  function Get(fields: map<string, Json>, key: string, default: Json): Json
  {
    if key in fields then fields[key] else default
  }
}
