/** Untyped JavaScript values, as carried by request and response bodies
    (`unknown` in the source). Numbers are modelled as reals. */
module JsValues {

  datatype Value =
    | Undefined
    | Null
    | Bool(b: bool)
    | Num(n: real)
    | Str(s: string)
    | Arr(items: seq<Value>)
    | Obj(fields: map<string, Value>)
}
