/** A decoded JSON value, as Go's encoding/json produces it when it decodes
    into `interface{}`. Numbers are integers here: the float64 detail of the
    Go decoder is not modelled. */
module Json {

  datatype JsonVal =
    | JNull
    | JBool(b: bool)
    | JNum(n: int)
    | JStr(s: string)
    | JArr(items: seq<JsonVal>)
    | JObj(fields: map<string, JsonVal>)

  /** A JSON object as it is seen through a Go `map[string]interface{}`. */
  type Object = map<string, JsonVal>

  /** `v, ok := m[key].(float64)` succeeds. */
  predicate IsNumberAt(m: Object, key: string) {
    key in m && m[key].JNum?
  }

  /** `v, ok := m[key].(string)` succeeds. */
  predicate IsStringAt(m: Object, key: string) {
    key in m && m[key].JStr?
  }
}
