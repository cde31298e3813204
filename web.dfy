/**
  Decoded JSON and the outcome of one HTTP GET, as the price service and
  the sensors see them.
*/
module Web {
  import opened Wrappers

  /** A decoded JSON value (integers and floats alike as reals); `JNull`
      is also Python's `None`. */
  datatype Json =
    | JNull
    | JBool(b: bool)
    | JNum(n: real)
    | JStr(s: string)
    | JList(items: seq<Json>)
    | JObject(fields: map<string, Json>)

  /** Python's truth value of a decoded JSON value. */
  predicate Truthy(j: Json) {
    match j
    case JNull => false
    case JBool(b) => b
    case JNum(n) => n != 0.0
    case JStr(s) => s != []
    case JList(items) => items != []
    case JObject(fields) => |fields| != 0
  }

  /** What `requests.get` produced: an exception (connection error,
      timeout), or a response with its status code and its body decoded
      as JSON, `None` when the body is not JSON. */
  datatype HttpOutcome = TransportError | Response(status: int, body: Option<Json>)
}
