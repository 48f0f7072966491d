/** The JavaScript values the component can hold as the analysis result: whatever
    `response.json()` produced from the service's reply. */
module JsValues {

  /** A parsed JSON document. A Number holds the value of the double JSON.parse
      produced (it is only ever tested for truthiness here); object keys are unique, as JSON.parse keeps the last. */
  datatype Json =
    | Null
    | Bool(b: bool)
    | Number(n: real)
    | Str(s: string)
    | Array(items: seq<Json>)
    | Object(fields: map<string, Json>)

  /** JavaScript truthiness (ToBoolean) of a parsed JSON value. JSON has no NaN,
      and -0 parses to the real 0. */
  predicate Truthy(j: Json) {
    match j
    case Null => false
    case Bool(b) => b
    case Number(n) => n != 0.0
    case Str(s) => s != ""
    case Array(_) => true
    case Object(_) => true
  }

  /** Truthiness of the property read `j.is_fake` on a value that is not null.
      Only a JSON object can carry that property, as an own field (no prototype
      of a parsed value defines it); on any other value the read yields
      undefined, which is falsy. */
  predicate IsFakeTruthy(j: Json)
    requires Truthy(j)
  {
    j.Object? && "is_fake" in j.fields && Truthy(j.fields["is_fake"])
  }

  /** The body the page expects: an object with `is_fake` and `confidence`. */
  function Verdict(isFake: bool, confidence: real): (j: Json)
    ensures Truthy(j)
    ensures IsFakeTruthy(j) <==> isFake
  {
    Object(map["is_fake" := Bool(isFake), "confidence" := Number(confidence)])
  }
}
