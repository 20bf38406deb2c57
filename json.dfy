/** The decoded JSON values that travel in request and reply envelopes. */
module Json {

  datatype Value =
    | Str(s: string)
    | Bool(b: bool)
    | Num(n: int)
    | Null
    | Arr(items: seq<Value>)
    | Obj(fields: map<string, Value>)

  /** A JSON object as the service sees it: the dictionary `json.loads` returns. */
  type Envelope = map<string, Value>
}
