/** The structured values that JSON text parses to. The parser itself is not modelled: every
    component that decodes JSON takes a parse function as a parameter. */
module JsonValue {
  import Wrappers

  datatype Json =
    | JNull
    | JBool(b: bool)
    | JNumber(repr: string)
    | JString(s: string)
    | JArray(items: seq<Json>)
    | JObject(fields: map<string, Json>)

  /** The empty object `{}`. */
  const EmptyObject: Json := JObject(map[])

  /** An uninterpreted JSON decoder: `None` is a decoding error. */
  type Parser = string -> Wrappers.Option<Json>
}
