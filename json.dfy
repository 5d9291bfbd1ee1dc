/** JSON values as the SDK sees them after `json.loads`, bytes, and Python's
    notion of truthiness, which `dictstrip`, `Field` and the header filters use. */
module Json {

  /** One octet of a Python `bytes` object. */
  type Byte = b: int | 0 <= b < 256

  type Bytes = seq<Byte>

  /** A decoded JSON value. Python's `int` and `float` are both carried by `JNum`. */
  datatype Json =
    | JNull
    | JBool(b: bool)
    | JNum(n: real)
    | JStr(s: string)
    | JArray(items: seq<Json>)
    | JObject(fields: map<string, Json>)

  /** Python's `bool(v)`: None, False, zero, the empty string and empty
      containers are falsy; everything else is truthy. */
  predicate Truthy(v: Json) {
    match v
    case JNull => false
    case JBool(b) => b
    case JNum(n) => n != 0.0
    case JStr(s) => s != ""
    case JArray(items) => items != []
    case JObject(fields) => fields != map[]
  }

  /** A Python `dict` with string keys, as JSON objects decode. */
  type Dict = map<string, Json>
}
