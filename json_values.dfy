/** The values a JSON parser hands back, and Python's truthiness of them. */
module JsonValues {

  /** A decoded JSON value. Numbers are exact rationals: NaN and the infinities
      that Python's parser also accepts are not represented. */
  datatype Json =
    | JNull
    | JBool(b: bool)
    | JNum(n: real)
    | JStr(s: string)
    | JArr(items: seq<Json>)
    | JObj(fields: map<string, Json>)

  /** Python's `not value` for a decoded value: `None`, `False`, zero and the empty
      string, list and dict are falsy. */
  predicate Falsy(j: Json) {
    match j
    case JNull => true
    case JBool(b) => !b
    case JNum(n) => n == 0.0
    case JStr(s) => s == ""
    case JArr(items) => items == []
    case JObj(fields) => fields == map[]
  }
}
