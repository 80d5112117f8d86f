/** JSON values as the client sees them after `response.json()`, with the
    JavaScript notions the pipeline applies to them: truthiness and the
    text `JSON.stringify` produces. */
module JsValues {

  /** A parsed JSON value. Numbers are integers here: the pipeline only ever
      compares status codes and tests truthiness. */
  datatype Json =
    | JNull
    | JBool(b: bool)
    | JNumber(n: int)
    | JString(s: string)
    | JArray(items: seq<Json>)
    | JObject(fields: map<string, Json>)

  /** The object literal `{}`. */
  const EmptyObject: Json := JObject(map[])

  /** JavaScript truthiness: `null`, `false`, `0` and `""` are falsy; every
      array and object, even an empty one, is truthy. */
  predicate Truthy(v: Json) {
    match v
    case JNull => false
    case JBool(b) => b
    case JNumber(n) => n != 0
    case JString(s) => s != ""
    case JArray(_) => true
    case JObject(_) => true
  }

  /** `JSON.stringify(value)`: the request body text. Only which value was
      serialised is kept, not the characters. */
  datatype JsonText = Stringified(value: Json)
}
