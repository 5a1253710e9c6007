/** Tool declarations as the completion service receives them: a name, the declared input
    properties with their JSON types and allowed values, and the required properties. Descriptions
    are not modelled. */
module Schema {
  import opened Wrappers
  import opened Seqs
  import opened JsonValue

  datatype Property = Property(name: string, jsonType: string, enumValues: Option<seq<string>>)

  datatype ToolSchema = ToolSchema(name: string, properties: seq<Property>, required: seq<string>)

  /** A string property, optionally restricted to a list of values. */
  function StringProperty(name: string): Property {
    Property(name, "string", None)
  }

  function PropertyNames(t: ToolSchema): (r: seq<string>)
    ensures |r| == |t.properties| && forall i :: 0 <= i < |r| ==> r[i] == t.properties[i].name
  {
    seq(|t.properties|, i requires 0 <= i < |t.properties| => t.properties[i].name)
  }

  /** Declared properties are distinct, and each required one is declared. */
  predicate WellFormedSchema(t: ToolSchema) {
    && NoDup(PropertyNames(t))
    && NoDup(t.required)
    && forall r :: r in t.required ==> r in PropertyNames(t)
  }

  /** A JSON value of the named JSON-schema type. */
  predicate HasType(j: Json, jsonType: string) {
    match jsonType
    case "string" => j.JString?
    case "object" => j.JObject?
    case "array" => j.JArray?
    case "boolean" => j.JBool?
    case "number" => j.JNumber?
    case _ => true
  }

  /** An input of the declared shape: an object that uses only declared properties, each of its
      declared type, and supplies every required one. */
  predicate ConformsShape(t: ToolSchema, input: Json) {
    && input.JObject?
    && (forall k :: k in input.fields ==> k in PropertyNames(t))
    && (forall r :: r in t.required ==> r in input.fields)
    && (forall i :: 0 <= i < |t.properties| && t.properties[i].name in input.fields ==>
          HasType(input.fields[t.properties[i].name], t.properties[i].jsonType))
  }

  /** A value is allowed for a property when the property lists no values or lists this one. */
  predicate Allowed(p: Property, j: Json) {
    p.enumValues.Some? ==> j.JString? && j.s in p.enumValues.value
  }

  /** A conforming input also respects every restricted property's list of allowed values. */
  predicate Conforms(t: ToolSchema, input: Json) {
    && ConformsShape(t, input)
    && forall i :: 0 <= i < |t.properties| && t.properties[i].name in input.fields ==>
         Allowed(t.properties[i], input.fields[t.properties[i].name])
  }
}
