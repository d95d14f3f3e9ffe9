/** JSON values as Python's `json.loads` returns them (dict, list, str, int, float, bool, None). */
module Json {

  datatype Json =
    | JNull
    | JBool(b: bool)
    | JInt(i: int)
    | JReal(r: real)
    | JStr(s: string)
    | JArray(items: seq<Json>)
    | JObject(fields: map<string, Json>)

  /** `d.get(key, default)` on a dict. */
  function Get(fields: map<string, Json>, key: string, default: Json): Json {
    if key in fields then fields[key] else default
  }

  /** Python's truth value of a JSON value: `None`, `False`, zero and empty containers are false. */
  predicate IsTruthy(j: Json) {
    match j
    case JNull => false
    case JBool(b) => b
    case JInt(i) => i != 0
    case JReal(r) => r != 0.0
    case JStr(s) => s != ""
    case JArray(items) => items != []
    case JObject(fields) => fields != map[]
  }

  /** Lists and dicts cannot be hashed, so they cannot be looked up as dictionary keys. */
  predicate Hashable(j: Json) {
    !j.JArray? && !j.JObject?
  }

  /** The Python type name that appears in `TypeError` and `AttributeError` messages. */
  function TypeName(j: Json): string {
    match j
    case JNull => "NoneType"
    case JBool(_) => "bool"
    case JInt(_) => "int"
    case JReal(_) => "float"
    case JStr(_) => "str"
    case JArray(_) => "list"
    case JObject(_) => "dict"
  }
}
