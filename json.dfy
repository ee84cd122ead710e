/**
 * The JSON-shaped values that travel between the bot and the chat platform:
 * what `json.loads` produces and what the bot sends back.  Numbers are
 * integers only; floating point values are not part of this model.
 */
module Json {
  import opened Wrappers

  datatype Json =
    | JNull
    | JBool(b: bool)
    | JNum(n: int)
    | JStr(s: string)
    | JArr(items: seq<Json>)
    | JObj(fields: map<string, Json>)

  /** Python truthiness of a decoded JSON value (`if value:`). */
  predicate Truthy(j: Json) {
    match j
    case JNull => false
    case JBool(b) => b
    case JNum(n) => n != 0
    case JStr(s) => s != ""
    case JArr(items) => items != []
    case JObj(fields) => fields != map[]
  }

  /** A JSON string, or JNull standing for Python's None. */
  function OptStr(s: Option<string>): Json {
    match s
    case Some(v) => JStr(v)
    case None => JNull
  }
}
