/** Values of a config.yaml tree; scalars other than strings are opaque. */
module Yaml {
  datatype Value =
    | Null
    | Str(s: string)
    | Scalar(text: string)
    | List(items: seq<Value>)
    | Obj(fields: map<string, Value>)
}
