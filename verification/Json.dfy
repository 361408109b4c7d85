/** JSON values as `serde_json::Value` holds them, and the record that travels
    through the pipeline. Objects are finite maps: a JSON object has no order of
    its own, so every result below holds for any order in which keys are visited. */
module Json {

  datatype Option<+T> = None | Some(value: T)

  datatype Value =
    | Null
    | Bool(flag: bool)
    | Num(number: int)
    | Str(text: string)
    | Arr(items: seq<Value>)
    | Obj(fields: map<string, Value>)

  /** A parsed record. The content hash is a function of `data`, and the raw XML is never
      published, so neither is carried. */
  datatype DataMessage = DataMessage(id: string, data: Value)
}
