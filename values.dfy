/**
 * The JSON-like payloads the builder passes through: conditions, groupings,
 * sort orders, projections, field paths and computed fields are all opaque
 * trees of this shape. An object is a sequence of key/value pairs in the
 * order its keys are enumerated (for the string keys used in stages, the
 * order they were written in).
 */
module Values {

  datatype Value =
    | Undefined
    | Null
    | Bool(b: bool)
    | Num(n: int)
    | Str(s: string)
    | Arr(items: seq<Value>)
    | Obj(props: seq<(string, Value)>)
}
