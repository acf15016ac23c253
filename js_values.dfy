/** JSON-like values as they arrive in request bodies and token payloads. */
module JsValues {
  datatype JsValue =
    | JNull
    | JBool(b: bool)
    | JNumber(n: int)
    | JString(s: string)
    | JArray(items: seq<JsValue>)
    | JObject(fields: map<string, JsValue>)

  /** JavaScript truthiness: `null`, `false`, `0` and `""` are falsy, every
      other value (including any array or object) is truthy. */
  predicate Truthy(v: JsValue)
    ensures v.JArray? || v.JObject? ==> Truthy(v)
    ensures v.JString? ==> (Truthy(v) <==> v.s != [])
    ensures v.JNumber? ==> (Truthy(v) <==> v.n != 0)
    ensures v == JNull || v == JBool(false) ==> !Truthy(v)
  {
    match v
    case JNull => false
    case JBool(b) => b
    case JNumber(n) => n != 0
    case JString(s) => s != ""
    case _ => true
  }
}
