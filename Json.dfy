/**
 * JSON values as the client sees them after `json.loads`. The JSON grammar itself
 * is not modelled: `json.loads` is an abstract parameter `loads` whose outcome is
 * one of the three things the client distinguishes.
 */
module JsonModel {
  import opened Wrappers

  /** A decoded JSON value. Numbers keep their literal text: the client never does
      arithmetic on them. Objects are dictionaries (on a repeated key the last one wins,
      as in `json.loads`). */
  datatype Json =
    | JNull
    | JBool(b: bool)
    | JNumber(literal: string)
    | JString(s: string)
    | JArray(items: seq<Json>)
    | JObject(fields: map<string, Json>)

  /** What one call of `json.loads(text)` does: return a value, raise
      `json.JSONDecodeError`, or raise any other exception. */
  datatype JsonResult =
    | Parsed(value: Json)
    | DecodeError
    | Raised

  /** The abstract parser handed to the client in place of `json.loads`. */
  type Loads = string -> JsonResult

  /** `{'message': text, 'is_text': True}`: what a `data: ` payload that is not
      valid JSON degrades to. */
  function TextPayload(text: string): Json
  {
    JObject(map["message" := JString(text), "is_text" := JBool(true)])
  }

  /** `d.get(key)` on a dictionary: the stored value, with a missing key and a stored
      JSON `null` both reading as Python's `None`. */
  function Get(fields: map<string, Json>, key: string): Option<Json>
  {
    if key in fields && fields[key] != JNull then Some(fields[key]) else None
  }
}
