/** The JSON-deserialised response body: what the HTTP layer decodes `raw_body`
    into before a response handler reads it. Python's float is not modelled. */
module JsonData {

  datatype Json =
    | JNull
    | JBool(b: bool)
    | JInt(i: int)
    | JStr(s: string)
    | JArr(items: seq<Json>)
    | JObj(fields: map<string, Json>)

  /** True iff `j` is an object that has `key`, i.e. `j[key]` does not raise in Python. */
  predicate HasKey(j: Json, key: string)
  {
    j.JObj? && key in j.fields
  }
}
