/**
  The already-parsed JSON request body the handlers receive. Only the two kinds
  of value the handlers distinguish are modelled: JSON null and strings.
*/
module Json {
  datatype JValue = JNull | JStr(s: string)

  /** A parsed JSON object: the request body. */
  type JsonObject = map<string, JValue>

  /** Python truthiness of a body value: null and the empty string are false. */
  predicate Truthy(v: JValue) {
    v.JStr? && v.s != ""
  }

  /** `event_data.get(key)`: the value under `key`, or null when the key is absent. */
  function Get(body: JsonObject, key: string): JValue {
    if key in body then body[key] else JNull
  }

  /** Python's `str(v)`: a string is itself, null prints as "None". */
  function Str(v: JValue): string {
    match v
    case JNull => "None"
    case JStr(s) => s
  }
}
