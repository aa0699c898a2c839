/** The Python values the services pass around. Everything they exchange comes from
    `json.loads` or is built as a dict, so one JSON-shaped datatype stands for all of
    them; `JNull` is Python's `None`, and `JObj` is a dict keyed by strings. */
module JsonValue {

  datatype Option<+T> = None | Some(value: T)

  /** A value, or the message of the exception the computation raised (`str(e)`). */
  datatype Result<+T> = Success(value: T) | Failure(error: string)

  datatype Json =
    | JNull
    | JBool(b: bool)
    | JNum(n: int)
    | JStr(s: string)
    | JArr(items: seq<Json>)
    | JObj(fields: map<string, Json>)

  /** Python truthiness: `None`, `False`, `0`, `""`, `[]` and `{}` are false. */
  predicate Truthy(v: Json) {
    match v
    case JNull => false
    case JBool(b) => b
    case JNum(n) => n != 0
    case JStr(s) => s != ""
    case JArr(items) => items != []
    case JObj(fields) => fields != map[]
  }

  /** `d.get(key)` on a dict: the value, or `None` when the key is absent. */
  function Get(fields: map<string, Json>, key: string): Json {
    if key in fields then fields[key] else JNull
  }

  /** The reply the text-generation endpoint gives to one call: the message content, or
      the exception the call raised (transport error, non-2xx status, a reply without
      choices). */
  type Reply = Result<Json>

  /** The `i`-th reply of a caller-supplied sequence; a call past its end fails. */
  function ReplyAt(replies: seq<Reply>, i: nat): Reply {
    if i < |replies| then replies[i] else Failure("no reply")
  }

  /** Whether a reply is kept as more text: the services use the content only when it
      is a non-empty string; an empty or missing content, a non-string content (which
      makes the concatenation raise) and a raised call all end the request. */
  predicate Accepted(reply: Reply) {
    reply.Success? && reply.value.JStr? && reply.value.s != ""
  }
}
