/**
 * The response-schema language the handler hands to Gemini (an OpenAPI
 * subset: OBJECT, ARRAY, STRING, INTEGER with `properties`, `items`,
 * `required` and `description`), and what it means for a JSON value to
 * conform to a schema.
 */
module Schema {
  import opened Wrappers
  import opened Json

  /** A schema node. Object properties are listed in declaration order; an absent `required` is []. */
  datatype Schema =
    | SString(description: Option<string>)
    | SInteger(description: Option<string>)
    | SArray(items: Schema, description: Option<string>)
    | SObject(properties: seq<(string, Schema)>, required: seq<string>, description: Option<string>)

  /**
   * `v` conforms to `s`: strings are strings, integers are numbers, every
   * array element conforms to `items`, and an object has every `required`
   * key and every listed property it has conforms. Properties the schema
   * does not list are allowed.
   */
  predicate Conforms(v: Json, s: Schema) {
    match s
    case SString(_) => v.JString?
    case SInteger(_) => v.JNum?
    case SArray(items, _) =>
      v.JArray? && forall i :: 0 <= i < |v.items| ==> Conforms(v.items[i], items)
    case SObject(properties, required, _) =>
      && v.JObject?
      && (forall k :: k in required ==> k in v.fields)
      && forall i :: 0 <= i < |properties| && properties[i].0 in v.fields ==>
           Conforms(v.fields[properties[i].0], properties[i].1)
  }

  /** The names of an object schema's properties, in declaration order. */
  function PropertyNames(s: Schema): seq<string> {
    if s.SObject? then seq(|s.properties|, i requires 0 <= i < |s.properties| => s.properties[i].0) else []
  }
}
