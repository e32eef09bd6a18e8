/** The JSON value a candidate's HTTP body parses to (`response.json()`),
    and the parts of JavaScript's semantics the response-body text
    extractor uses on it: truthiness and property reads. */
module Json {
  import opened Common

  datatype Json =
    | JNull
    | JBool(b: bool)
    | JNumber(n: real)
    | JString(s: string)
    | JArray(items: seq<Json>)
    | JObject(fields: map<string, Json>)

  /** JavaScript truthiness of a value; `None` is `undefined`. Arrays and
      objects are truthy even when empty; JSON has no `NaN`. */
  predicate Truthy(v: Option<Json>)
  {
    match v
    case None => false
    case Some(JNull) => false
    case Some(JBool(b)) => b
    case Some(JNumber(n)) => n != 0.0
    case Some(JString(s)) => s != ""
    case Some(JArray(_)) => true
    case Some(JObject(_)) => true
  }

  /** `v[key]` for a value that is not `null`, for the keys the extractor
      reads (`generated_text` and `text`): among parsed JSON values only an
      object can hold such a key, so every other read is `undefined`. */
  function Prop(v: Json, key: string): (r: Option<Json>)
    requires !v.JNull?
    ensures r.Some? <==> v.JObject? && key in v.fields
    ensures r.Some? ==> r.value == v.fields[key]
  {
    if v.JObject? && key in v.fields then Some(v.fields[key]) else None
  }

  /** `v[0]`: the first element of an array, `undefined` for an empty one. */
  function First(items: seq<Json>): (r: Option<Json>)
    ensures r.Some? <==> |items| > 0
    ensures r.Some? ==> r.value == items[0]
  {
    if |items| > 0 then Some(items[0]) else None
  }
}
