/**
 * Schema-free JSON values, as a JSON decoder hands them over. Numbers keep
 * their textual form: nothing in the service computes with them.
 */
module Json {
  datatype Value =
    | JNull
    | JBool(b: bool)
    | JNumber(text: string)
    | JString(str: string)
    | JArray(items: seq<Value>)
    | JObject(fields: map<string, Value>)

  /** The empty object `{}`. */
  const EmptyObject: Value := JObject(map[])
}
