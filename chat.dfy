/** The serverless handler `handler(req, res)` of api/chat.js: a gate on
    the method, the body fields and the token (api/chat.js:11-50); one
    ordered pass over three candidate models that stops at the first
    acceptable answer (api/chat.js:59-125); the local answer when none is
    acceptable (api/chat.js:134-140); and the labelled response
    (api/chat.js:147-172).

    The network is the function `network` from an inference request to
    what came of it, and the handler also returns the requests it sent, in
    order. The wording of the local answer is the parameter `w`
    (`ChatWording.SourceWording` in api/chat.js). */
module Chat {
  import opened Common
  import opened Text
  import opened Json
  import opened Extraction
  import opened Prompts
  import opened LocalAdvice

  /** The candidate models, in the order they are tried. */
  const Candidates: seq<string> := ["Qwen/Qwen2.5-7B-Instruct", "mistralai/Mistral-7B-Instruct-v0.2", "google/flan-t5-xxl"]

  /** The model reported with the local answer. */
  const LocalModel: string := "base_local_mejorada"

  /** The model `modeloUsado || 'mixed_sources'` reports when none is set. */
  const UnknownModel: string := "mixed_sources"

  /** The generation parameters of every inference request. */
  const MaxNewTokens: int := 300
  const Temperature: real := 0.7
  const TopP: real := 0.9

  /** The answer a text must beat, in UTF-16 code units, to be accepted. */
  const MinLength: nat := 20

  /** What the error path answers for when the body is missing. */
  const DefaultFood: string := "alimento"
  const DefaultOption: string := "recipe"

  /** The error messages of the gate. */
  const NotAllowed: string := "Método no permitido"
  const MissingFields: string := "Faltan campos obligatorios"
  const NoTokenError: string := "Token de HuggingFace no configurado"

  /** The values of the response's `source` field. */
  const NoTokenSource: string := "no_token"
  const LocalSource: string := "local_fallback"
  const AiSource: string := "ai_service"
  const ErrorSource: string := "error_fallback"

  /** The JSON body of one inference request: the model, the prompt and
      the generation parameters. */
  datatype Request = Request(model: string, inputs: string, maxNewTokens: int, temperature: real, topP: real)

  /** What one inference request came to: `fetch` or `response.json()`
      threw (a network error, the 30-second abort, a body that is not
      JSON), or the server answered with a status and a parsed body. */
  datatype Outcome = Thrown | Replied(status: int, body: Json)

  /** `response.ok`. */
  predicate Ok(status: int)
  {
    200 <= status <= 299
  }

  /** The fields of the request body. A missing `food` or `option` is ""
      and a missing `isSpoiled` is false: each is only ever checked for
      truthiness, where they behave alike. */
  datatype Fields = Fields(food: string, option: string, isSpoiled: bool)

  /** What the handler takes from the JavaScript runtime: `toUpperCase`,
      `JSON.stringify`, and the message of the error thrown when the body
      to destructure is missing. */
  datatype Runtime = Runtime(upper: string -> string, stringify: Json -> string, bodyError: string)

  /** The JSON payload the handler sends; a field it leaves out is `None`. */
  datatype Payload = Payload(success: bool, response: Option<string>, source: Option<string>,
                             model: Option<string>, error: Option<string>)

  /** `res.status(status)` followed by `.end()` (no payload) or by
      `.json(payload)`. */
  datatype Response = Response(status: int, payload: Option<Payload>)

  /** The response and the inference requests sent on the way, in order. */
  datatype Exchange = Exchange(response: Response, sent: seq<Request>)

  /** The inference request for one candidate. */
  function Attempt(model: string, prompt: string): Request
  {
    Request(model, prompt, MaxNewTokens, Temperature, TopP)
  }

  /** The requests of a full pass over the candidates, in order. */
  function Requests(prompt: string): (rs: seq<Request>)
    ensures |rs| == |Candidates|
    ensures forall i | 0 <= i < |rs| :: rs[i] == Attempt(Candidates[i], prompt)
  {
    seq(|Candidates|, i requires 0 <= i < |Candidates| => Attempt(Candidates[i], prompt))
  }

  /** What each of the requests came to. */
  function Outcomes(network: Request -> Outcome, rs: seq<Request>): (os: seq<Outcome>)
    ensures |os| == |rs|
    ensures forall i | 0 <= i < |rs| :: os[i] == network(rs[i])
  {
    seq(|rs|, i requires 0 <= i < |rs| => network(rs[i]))
  }

  /** The text the handler takes from an outcome, if it takes one: the
      status is ok and the extracted value is a string longer than
      `MinLength` code units. */
  function AcceptedText(o: Outcome, stringify: Json -> string): (r: Option<string>)
    ensures r.Some? ==> o.Replied? && Ok(o.status) && Extract(o.body, stringify) == Some(JString(r.value))
    ensures r.Some? ==> Utf16Length(r.value) > MinLength
  {
    if o.Replied? && Ok(o.status) then
      match Extract(o.body, stringify)
      case Some(JString(s)) => if Utf16Length(s) > MinLength then Some(s) else None
      case _ => None
    else
      None
  }

  /** The position of the first outcome the handler accepts, or `|os|`
      when it accepts none. */
  function FirstAccepted(os: seq<Outcome>, stringify: Json -> string): (k: nat)
    ensures k <= |os|
    ensures k < |os| ==> AcceptedText(os[k], stringify).Some?
    ensures forall j | 0 <= j < k :: AcceptedText(os[j], stringify).None?
    decreases |os|
  {
    if os == [] then 0
    else if AcceptedText(os[0], stringify).Some? then 0
    else
      var k := 1 + FirstAccepted(os[1..], stringify);
      assert forall j | 1 <= j < k :: os[j] == os[1..][j - 1];
      k
  }

  /** The handler takes a text from an outcome exactly when the status is
      ok and the extractor yields a string longer than `MinLength`. */
  lemma AcceptedTextCases(o: Outcome, stringify: Json -> string)
    ensures AcceptedText(o, stringify).Some? <==>
              o.Replied? && Ok(o.status) && Extract(o.body, stringify).Some? && Extract(o.body, stringify).value.JString?
              && Utf16Length(Extract(o.body, stringify).value.s) > MinLength
  {
  }

  /** The first accepted outcome is the one before which none is accepted. */
  lemma FirstAcceptedAt(os: seq<Outcome>, stringify: Json -> string, i: nat)
    requires i <= |os|
    requires i < |os| ==> AcceptedText(os[i], stringify).Some?
    requires forall j | 0 <= j < i :: AcceptedText(os[j], stringify).None?
    ensures FirstAccepted(os, stringify) == i
  {
  }

  /** `{success: false, error}`. */
  function Refusal(error: string): Payload
  {
    Payload(false, None, None, None, Some(error))
  }

  /** The payload sent when the token is not configured. */
  const NoTokenPayload: Payload := Payload(false, Some(""), Some(NoTokenSource), None, Some(NoTokenError))

  /** `text.includes('🍽️') ? 'local_fallback' : 'ai_service'`: a text is
      labelled 'local_fallback' exactly when it shows the plate, and
      'ai_service' exactly when it does not. */
  function SourceLabel(text: string): (l: string)
    ensures l == LocalSource <==> Contains(text, Plate)
    ensures l == AiSource <==> !Contains(text, Plate)
  {
    if Contains(text, Plate) then LocalSource else AiSource
  }

  /** The payload of an answer, from a model or local. */
  function Served(text: string, model: string): Payload
  {
    Payload(true, Some(text), Some(SourceLabel(text)), Some(if model != "" then model else UnknownModel), None)
  }

  /** The payload of the error path. */
  function Recovery(text: string, error: string): Payload
  {
    Payload(true, Some(text), Some(ErrorSource), None, Some(error))
  }

  /** The handler passes its gate: a POST whose body has a truthy `food`
      and `option`, with the token configured. */
  predicate Proceeds(verb: string, body: Option<Fields>, hasToken: bool)
  {
    verb == "POST" && body.Some? && body.value.food != "" && body.value.option != "" && hasToken
  }

  /** `handler(req, res)` for the method `verb`, the body `body` (`None`
      when missing), whether the token is configured, and the network. The
      status is 405 exactly for a method other than OPTIONS and POST, 400
      exactly for a POST body with a falsy `food` or `option`, and 200
      otherwise; at most one request per candidate is sent, so no model is
      asked twice. */
  function Handle(w: Wording, verb: string, body: Option<Fields>, hasToken: bool,
                  network: Request -> Outcome, rt: Runtime): (e: Exchange)
    ensures e.response.status == 405 <==> verb != "OPTIONS" && verb != "POST"
    ensures e.response.status == 400 <==> verb == "POST" && body.Some? && (body.value.food == "" || body.value.option == "")
    ensures e.response.status != 405 && e.response.status != 400 ==> e.response.status == 200
    ensures |e.sent| <= |Candidates|
    ensures forall i, j | 0 <= i < j < |e.sent| :: e.sent[i].model != e.sent[j].model
  {
    if verb == "OPTIONS" then Exchange(Response(200, None), [])
    else if verb != "POST" then Exchange(Response(405, Some(Refusal(NotAllowed))), [])
    else if body.None? then
      Exchange(Response(200, Some(Recovery(Answer(w, DefaultFood, DefaultOption, false, rt.upper), rt.bodyError))), [])
    else
      var f := body.value;
      if f.food == "" || f.option == "" then Exchange(Response(400, Some(Refusal(MissingFields))), [])
      else if !hasToken then Exchange(Response(200, Some(NoTokenPayload)), [])
      else
        var rs := Requests(Prompt(f.food, f.option, f.isSpoiled));
        var os := Outcomes(network, rs);
        var k := FirstAccepted(os, rt.stringify);
        CandidatesDistinct();
        if k < |rs| then
          Exchange(Response(200, Some(Served(AcceptedText(os[k], rt.stringify).value, Candidates[k]))), rs[..k + 1])
        else
          Exchange(Response(200, Some(Served(Answer(w, f.food, f.option, f.isSpoiled, rt.upper), LocalModel))), rs)
  }

  /** The handler as api/chat.js writes it: early returns, then a loop over
      the candidates that keeps the answer and the model in two variables
      and breaks at the first acceptable answer, then the local answer if
      there is none. */
  method HandleRequest(w: Wording, verb: string, body: Option<Fields>, hasToken: bool,
                       network: Request -> Outcome, rt: Runtime)
    returns (response: Response, sent: seq<Request>)
    ensures Exchange(response, sent) == Handle(w, verb, body, hasToken, network, rt)
  {
    sent := [];
    if verb == "OPTIONS" {
      return Response(200, None), sent;
    }
    if verb != "POST" {
      return Response(405, Some(Refusal(NotAllowed))), sent;
    }
    if body.None? {
      // Destructuring the missing body throws; the catch answers with defaults.
      var text := Answer(w, DefaultFood, DefaultOption, false, rt.upper);
      return Response(200, Some(Recovery(text, rt.bodyError))), sent;
    }
    var food, option, isSpoiled := body.value.food, body.value.option, body.value.isSpoiled;
    if food == "" || option == "" {
      return Response(400, Some(Refusal(MissingFields))), sent;
    }
    if !hasToken {
      return Response(200, Some(NoTokenPayload)), sent;
    }

    var answer, modelUsed;
    answer, modelUsed, sent := TryCandidates(food, option, isSpoiled, network, rt.stringify);
    if answer.None? {
      answer := Some(Answer(w, food, option, isSpoiled, rt.upper));
      modelUsed := Some(LocalModel);
    }
    response := Response(200, Some(Served(answer.value, modelUsed.value)));
  }

  /** The loop over the candidates: each is sent the prompt in turn until
      one answers with an acceptable text, which is kept with the
      candidate's name. It sends the requests of a full pass up to and
      including the first accepted one. */
  method TryCandidates(food: string, option: string, isSpoiled: bool,
                       network: Request -> Outcome, stringify: Json -> string)
    returns (answer: Option<string>, modelUsed: Option<string>, sent: seq<Request>)
    ensures var rs := Requests(Prompt(food, option, isSpoiled));
            var os := Outcomes(network, rs);
            var k := FirstAccepted(os, stringify);
            && sent == rs[..if k < |rs| then k + 1 else |rs|]
            && (k < |rs| ==> answer == AcceptedText(os[k], stringify) && modelUsed == Some(Candidates[k]))
            && (k == |rs| ==> answer.None? && modelUsed.None?)
  {
    answer, modelUsed, sent := None, None, [];
    ghost var rs := Requests(Prompt(food, option, isSpoiled));
    ghost var os := Outcomes(network, rs);
    var i := 0;
    while i < |Candidates|
      invariant 0 <= i <= |Candidates|
      invariant sent == rs[..i]
      invariant answer.None? && modelUsed.None?
      invariant forall j | 0 <= j < i :: AcceptedText(os[j], stringify).None?
    {
      var prompt := Prompt(food, option, isSpoiled);
      var request := Attempt(Candidates[i], prompt);
      sent := sent + [request];
      var outcome := network(request);
      assert outcome == os[i];
      AcceptedTextCases(outcome, stringify);
      if outcome.Replied? && Ok(outcome.status) {
        var text := Extract(outcome.body, stringify);
        if text.Some? && text.value.JString? && Utf16Length(text.value.s) > MinLength {
          answer := Some(text.value.s);
          modelUsed := Some(Candidates[i]);
          FirstAcceptedAt(os, stringify, i);
          break;
        }
      }
      i := i + 1;
    }
    if answer.None? {
      FirstAcceptedAt(os, stringify, |os|);
    }
  }

  // Properties of the handler.

  /** The gate: an OPTIONS preflight gets 200 with no payload; any other
      method but POST gets 405; a POST with a falsy `food` or `option` gets
      400 whether or not the token is configured; without the token the
      answer is 200 with `success: false`, an empty response and the
      source 'no_token'. None of them sends a request. */
  lemma Gate(w: Wording, verb: string, body: Option<Fields>, hasToken: bool, network: Request -> Outcome, rt: Runtime)
    ensures var e := Handle(w, verb, body, hasToken, network, rt);
      && (verb == "OPTIONS" ==> e == Exchange(Response(200, None), []))
      && (verb != "OPTIONS" && verb != "POST" ==> e == Exchange(Response(405, Some(Refusal(NotAllowed))), []))
      && (verb == "POST" && body.Some? && (body.value.food == "" || body.value.option == "") ==>
            e == Exchange(Response(400, Some(Refusal(MissingFields))), []))
      && (verb == "POST" && body.Some? && body.value.food != "" && body.value.option != "" && !hasToken ==>
            e == Exchange(Response(200, Some(Payload(false, Some(""), Some(NoTokenSource), None, Some(NoTokenError)))), []))
  {
  }

  /** A request is sent exactly when the handler passes its gate. */
  lemma SendsOnlyPastGate(w: Wording, verb: string, body: Option<Fields>, hasToken: bool, network: Request -> Outcome, rt: Runtime)
    ensures Handle(w, verb, body, hasToken, network, rt).sent != [] <==> Proceeds(verb, body, hasToken)
  {
  }

  /** The candidates are three different models, none of them named
      'mixed_sources' (their names differ in length). */
  lemma CandidatesDistinct()
    ensures forall i, j | 0 <= i < j < |Candidates| :: Candidates[i] != Candidates[j]
    ensures forall i | 0 <= i < |Candidates| :: Candidates[i] != UnknownModel
  {
    assert |Candidates[0]| == 24 && |Candidates[1]| == 34 && |Candidates[2]| == 18 && |UnknownModel| == 13;
  }

  /** One ordered pass: the requests sent are the first ones of a full pass
      over the candidates in order, each carrying the prompt for the body's
      fields and the fixed generation parameters, so no model is asked
      twice; every request but the last was not accepted, and the pass
      stops short of the last candidate only at an accepted one. */
  lemma OrderedSinglePass(w: Wording, verb: string, body: Option<Fields>, hasToken: bool, network: Request -> Outcome, rt: Runtime)
    requires Proceeds(verb, body, hasToken)
    ensures var sent := Handle(w, verb, body, hasToken, network, rt).sent;
            var f := body.value;
      && 1 <= |sent| <= |Candidates|
      && sent == Requests(Prompt(f.food, f.option, f.isSpoiled))[..|sent|]
      && (forall i | 0 <= i < |sent| :: sent[i].model == Candidates[i] && sent[i].inputs == Prompt(f.food, f.option, f.isSpoiled)
                                        && sent[i].maxNewTokens == 300 && sent[i].temperature == 0.7 && sent[i].topP == 0.9)
      && (forall i, j | 0 <= i < j < |sent| :: sent[i].model != sent[j].model)
      && (forall i | 0 <= i < |sent| - 1 :: AcceptedText(network(sent[i]), rt.stringify).None?)
      && (|sent| < |Candidates| ==> AcceptedText(network(sent[|sent| - 1]), rt.stringify).Some?)
  {
    var f := body.value;
    var rs := Requests(Prompt(f.food, f.option, f.isSpoiled));
    var os := Outcomes(network, rs);
    var k := FirstAccepted(os, rt.stringify);
    var sent := Handle(w, verb, body, hasToken, network, rt).sent;
    assert sent == rs[..if k < |rs| then k + 1 else |rs|];
    CandidatesDistinct();
    forall i | 0 <= i < |sent|
      ensures network(sent[i]) == os[i]
    {
    }
  }

  /** The first accepted candidate wins: its text is the response, with a
      UTF-16 length above 20 and the label its plate decides, its name is
      the model, and no later candidate is asked. */
  lemma FirstAcceptedWins(w: Wording, verb: string, body: Option<Fields>, hasToken: bool, network: Request -> Outcome, rt: Runtime, k: nat)
    requires Proceeds(verb, body, hasToken)
    requires var rs := Requests(Prompt(body.value.food, body.value.option, body.value.isSpoiled));
      && k < |rs|
      && AcceptedText(network(rs[k]), rt.stringify).Some?
      && forall j | 0 <= j < k :: AcceptedText(network(rs[j]), rt.stringify).None?
    ensures var rs := Requests(Prompt(body.value.food, body.value.option, body.value.isSpoiled));
            var text := AcceptedText(network(rs[k]), rt.stringify).value;
            var e := Handle(w, verb, body, hasToken, network, rt);
      && e.sent == rs[..k + 1]
      && e.response == Response(200, Some(Payload(true, Some(text), Some(SourceLabel(text)), Some(Candidates[k]), None)))
      && Utf16Length(text) > 20
  {
    var f := body.value;
    var rs := Requests(Prompt(f.food, f.option, f.isSpoiled));
    var os := Outcomes(network, rs);
    FirstAcceptedAt(os, rt.stringify, k);
    assert Candidates[k] != "";
  }

  /** Fallback on exhaustion: when no candidate is accepted, all three are
      asked, the response is the local answer for the body's fields and
      the model is 'base_local_mejorada'. */
  lemma FallbackOnExhaustion(w: Wording, verb: string, body: Option<Fields>, hasToken: bool, network: Request -> Outcome, rt: Runtime)
    requires Proceeds(verb, body, hasToken)
    requires var rs := Requests(Prompt(body.value.food, body.value.option, body.value.isSpoiled));
      forall j | 0 <= j < |rs| :: AcceptedText(network(rs[j]), rt.stringify).None?
    ensures var f := body.value;
            var rs := Requests(Prompt(f.food, f.option, f.isSpoiled));
            var text := Answer(w, f.food, f.option, f.isSpoiled, rt.upper);
            var e := Handle(w, verb, body, hasToken, network, rt);
      && e.sent == rs
      && e.response == Response(200, Some(Payload(true, Some(text), Some(SourceLabel(text)), Some(LocalModel), None)))
  {
    var f := body.value;
    var rs := Requests(Prompt(f.food, f.option, f.isSpoiled));
    var os := Outcomes(network, rs);
    FirstAcceptedAt(os, rt.stringify, |os|);
  }

  /** Every answer past the gate succeeds, with the label 'local_fallback'
      exactly when the text shows the plate and 'ai_service' otherwise,
      and a model that is a candidate or the local one, never
      'mixed_sources'. */
  lemma ServedAnswer(w: Wording, verb: string, body: Option<Fields>, hasToken: bool, network: Request -> Outcome, rt: Runtime)
    requires Proceeds(verb, body, hasToken)
    ensures var r := Handle(w, verb, body, hasToken, network, rt).response;
      && r.status == 200 && r.payload.Some? && r.payload.value.success
      && r.payload.value.response.Some? && r.payload.value.source.Some? && r.payload.value.model.Some?
      && (r.payload.value.source.value == LocalSource <==> Contains(r.payload.value.response.value, Plate))
      && (r.payload.value.source.value == AiSource <==> !Contains(r.payload.value.response.value, Plate))
      && (r.payload.value.model.value in Candidates || r.payload.value.model.value == LocalModel)
      && r.payload.value.model.value != UnknownModel
  {
    var f := body.value;
    var rs := Requests(Prompt(f.food, f.option, f.isSpoiled));
    var k := FirstAccepted(Outcomes(network, rs), rt.stringify);
    if k < |rs| {
      assert Candidates[k] in Candidates;
      CandidatesDistinct();
    }
  }

  /** For a wording of the shape of api/chat.js, every answer past the
      gate has a non-empty text. */
  lemma ServedNonEmpty(w: Wording, verb: string, body: Option<Fields>, hasToken: bool, network: Request -> Outcome, rt: Runtime)
    requires Proceeds(verb, body, hasToken) && Shaped(w)
    ensures var r := Handle(w, verb, body, hasToken, network, rt).response;
      r.payload.Some? && r.payload.value.response.Some? && r.payload.value.response.value != ""
  {
    var f := body.value;
    var rs := Requests(Prompt(f.food, f.option, f.isSpoiled));
    var k := FirstAccepted(Outcomes(network, rs), rt.stringify);
  }

  /** The error path: a POST whose body is missing is answered 200 with
      `success: true`, the source 'error_fallback' and the local answer for
      'alimento', 'recipe' and not spoiled, which for a wording of the shape
      of api/chat.js is the generic recipe: it opens with the recipe header
      and 'ALIMENTO' upper-cased, names 'alimento' and shows the plate. */
  lemma ErrorPath(w: Wording, body: Option<Fields>, hasToken: bool, network: Request -> Outcome, rt: Runtime)
    requires body.None?
    ensures var text := Answer(w, DefaultFood, DefaultOption, false, rt.upper);
      Handle(w, "POST", body, hasToken, network, rt)
        == Exchange(Response(200, Some(Payload(true, Some(text), Some(ErrorSource), None, Some(rt.bodyError)))), [])
    ensures Shaped(w) ==>
      var text := Answer(w, DefaultFood, DefaultOption, false, rt.upper);
      && StartsWith(text, RecipeLabel + rt.upper(DefaultFood))
      && Contains(text, DefaultFood)
      && Contains(text, Plate)
  {
    if Shaped(w) {
      assert |DefaultFood| == 8;
      assert DefaultFood !in TableKeys;
      GenericRecipeNamesFood(w, DefaultFood, rt.upper);
      PlateInRecipeTemplates(w, DefaultFood, false, rt.upper);
    }
  }

  /** How the local answer is labelled when every candidate failed: the
      spoiled and the generic recipe show the plate and are labelled
      'local_fallback'; with plate-free wording, a table text, and the
      conservation answers for a food whose upper-cased name has no plate,
      are labelled 'ai_service' although no model wrote them. */
  lemma FallbackLabels(w: Wording, verb: string, body: Option<Fields>, hasToken: bool, network: Request -> Outcome, rt: Runtime)
    requires Proceeds(verb, body, hasToken) && Shaped(w)
    requires var rs := Requests(Prompt(body.value.food, body.value.option, body.value.isSpoiled));
      forall j | 0 <= j < |rs| :: AcceptedText(network(rs[j]), rt.stringify).None?
    ensures var f := body.value;
            var p := Handle(w, verb, body, hasToken, network, rt).response.payload;
      && p.Some? && p.value.source.Some?
      && (f.option == "recipe" && (f.isSpoiled || f.food !in TableKeys) ==> p.value.source.value == LocalSource)
      && (PlateFree(w) && f.option == "recipe" && !f.isSpoiled && f.food in TableKeys ==> p.value.source.value == AiSource)
      && (PlateFree(w) && f.option != "recipe" && PlateChar !in rt.upper(f.food) ==> p.value.source.value == AiSource)
  {
    var f := body.value;
    FallbackOnExhaustion(w, verb, body, hasToken, network, rt);
    if f.option == "recipe" && (f.isSpoiled || f.food !in TableKeys) {
      PlateInRecipeTemplates(w, f.food, f.isSpoiled, rt.upper);
    } else if PlateFree(w) && (f.option == "recipe" || PlateChar !in rt.upper(f.food)) {
      NoPlateElsewhere(w, f.food, f.option, f.isSpoiled, rt.upper);
    }
  }

  /** The option 'recipes' is not 'conservation', so the models are asked
      for a recipe; but it is not 'recipe' either, so the local answer is
      conservation advice: a spoiled alert, a `consejos` text, or the
      generic conservation advice. */
  lemma RecipesMismatch(w: Wording, food: string, isSpoiled: bool, upper: string -> string)
    ensures Prompt(food, "recipes", isSpoiled) == Prompt(food, "recipe", isSpoiled)
    ensures Answer(w, food, "recipes", isSpoiled, upper) == Answer(w, food, "conservation", isSpoiled, upper)
    ensures Shaped(w) && (isSpoiled || food !in TableKeys) ==>
              StartsWith(Answer(w, food, "recipes", isSpoiled, upper), (if isSpoiled then AlertLabel else StorageLabel) + upper(food))
    ensures Shaped(w) && !isSpoiled && food in TableKeys ==>
              Answer(w, food, "recipes", isSpoiled, upper) == Concat(w.storage[food])
  {
  }
}
