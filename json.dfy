/**
 * The generic JSON value the schema decoder reads. An object is the list of
 * entries the `visit_map` stream yields, in order; when it is read from JSON
 * text the same key may appear more than once (a serde_json `Value` object
 * holds each key once), and the decoder's working map keeps the last entry.
 */
module Json {

  datatype Value =
    | Null
    | Bool(b: bool)
    | Num(n: int)                       // an integer JSON number
    | Str(s: string)
    | Arr(items: seq<Value>)
    | Obj(entries: seq<(string, Value)>)
}
