/**
 * Parsed JSON values. Each input line of the dataset is one JSON object,
 * modelled as a map from field names to values; parsing and printing of the
 * text form are not part of this model.
 */
module Json {

  datatype Value =
    | JNull
    | JBool(b: bool)
    | JNumber(n: int)
    | JString(s: string)
    | JArray(items: seq<Value>)
    | JObject(fields: map<string, Value>)

  /** One dataset record: a JSON object with a `text` field and any passthrough fields. */
  type Record = map<string, Value>
}
