/** JSON values: configuration snapshots, defaults, layouts and response bodies. */
module Json {

  /** A JSON value. Numbers are kept exact; object key order is not significant. */
  datatype Value =
    | Null
    | Bool(b: bool)
    | Num(n: real)
    | Str(s: string)
    | Arr(items: seq<Value>)
    | Obj(fields: map<string, Value>)
}
