/**
 * A JSON value (`serde_json::Value`), as far as the request types look inside one: numbers are
 * whole numbers, objects are maps from field name to value.
 */
module Json {
  import opened Wrappers

  datatype Value =
    | JNull
    | JBool(b: bool)
    | JNumber(n: int)
    | JString(str: string)
    | JArray(items: seq<Value>)
    | JObject(fields: map<string, Value>)

  /** `value[key]`: the field of an object, and `null` for a missing field or a non-object. */
  function Index(v: Value, key: string): Value
  {
    match v
    case JObject(fields) => if key in fields then fields[key] else JNull
    case _ => JNull
  }

  /** `value.as_str()`: the text of a string value. */
  function AsStr(v: Value): Option<string>
  {
    match v
    case JString(s) => Some(s)
    case _ => None
  }
}
