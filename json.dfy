/**
 * Untyped values as they arrive in a response body or a request (`any` in TypeScript, a
 * JSON field in Django REST framework), with the truthiness rules of the two languages.
 * Numbers are modelled as integers.
 */
module Json {

  datatype Json =
    | JNull
    | JBool(b: bool)
    | JNumber(n: int)
    | JString(s: string)
    | JArray(items: seq<Json>)
    | JObject(fields: seq<(string, Json)>)

  /** Python truthiness: `None`, `False`, `0`, `''`, `[]` and `{}` are falsy. */
  predicate PyTruthy(v: Json) {
    match v
    case JNull => false
    case JBool(b) => b
    case JNumber(n) => n != 0
    case JString(s) => s != ""
    case JArray(items) => items != []
    case JObject(fields) => fields != []
  }

  /** JavaScript truthiness: `null`, `false`, `0` and `''` are falsy; every array and object is truthy. */
  predicate JsTruthy(v: Json) {
    match v
    case JNull => false
    case JBool(b) => b
    case JNumber(n) => n != 0
    case JString(s) => s != ""
    case JArray(_) => true
    case JObject(_) => true
  }

  /** The two languages disagree only on empty collections. */
  lemma TruthinessDiffersOnlyOnEmptyCollections(v: Json)
    ensures PyTruthy(v) != JsTruthy(v) <==> v == JArray([]) || v == JObject([])
  {
  }
}
