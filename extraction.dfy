/** `extraerTexto(data)` (api/chat.js:196-210): the text a candidate
    model's parsed JSON body carries, found by trying a fixed list of
    shapes in order. `JSON.stringify` is the parameter `stringify`. */
module Extraction {
  import opened Common
  import opened Json

  /** `extraerTexto(data)`; `None` is its `null`, which it returns when
      reading a property of `null` throws. A result that is not `None` is a
      string or a truthy field value. */
  function Extract(data: Json, stringify: Json -> string): (r: Option<Json>)
    ensures r.None? <==> data.JNull?
    ensures r.Some? ==> r.value.JString? || Truthy(r)
  {
    if data.JArray? && Truthy(First(data.items)) && Truthy(Prop(data.items[0], "generated_text")) then
      Prop(data.items[0], "generated_text")
    else if data.JArray? && First(data.items).Some? && data.items[0].JString? then
      Some(data.items[0])
    else if data.JNull? then
      None
    else if Truthy(Prop(data, "generated_text")) then
      Prop(data, "generated_text")
    else if Truthy(Prop(data, "text")) then
      Prop(data, "text")
    else if data.JString? then
      Some(data)
    else
      Some(JString(stringify(data)))
  }

  /** `o` is an object whose field `key` holds a truthy value. */
  predicate HasTruthy(o: Json, key: string)
  {
    o.JObject? && key in o.fields && Truthy(Some(o.fields[key]))
  }

  /** The order of precedence, case by case on the shape of the body:
      1. an array whose first element has a truthy `generated_text` gives
         that field (an empty string there is skipped);
      2. an array whose first element is a string gives that string, even
         an empty one;
      3. any other array is stringified;
      4. an object gives its truthy `generated_text`, else
      5. its truthy `text`, else
      6. it is stringified;
      7. a string is its own text;
      8. a boolean or a number is stringified, and `null` gives `None`. */
  lemma ExtractPrecedence(data: Json, stringify: Json -> string)
    ensures data.JArray? && |data.items| > 0 && HasTruthy(data.items[0], "generated_text") ==>
              Extract(data, stringify) == Some(data.items[0].fields["generated_text"])
    ensures data.JArray? && |data.items| > 0 && data.items[0].JString? ==>
              Extract(data, stringify) == Some(data.items[0])
    ensures data.JArray? && (|data.items| == 0 || (!data.items[0].JString? && !HasTruthy(data.items[0], "generated_text"))) ==>
              Extract(data, stringify) == Some(JString(stringify(data)))
    ensures HasTruthy(data, "generated_text") ==>
              Extract(data, stringify) == Some(data.fields["generated_text"])
    ensures data.JObject? && !HasTruthy(data, "generated_text") && HasTruthy(data, "text") ==>
              Extract(data, stringify) == Some(data.fields["text"])
    ensures data.JObject? && !HasTruthy(data, "generated_text") && !HasTruthy(data, "text") ==>
              Extract(data, stringify) == Some(JString(stringify(data)))
    ensures data.JString? ==> Extract(data, stringify) == Some(data)
    ensures data.JBool? || data.JNumber? ==> Extract(data, stringify) == Some(JString(stringify(data)))
  {
  }
}
