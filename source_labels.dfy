/** The labels the handler of api/chat.js puts on its own local answers
    (api/chat.js:134-150), with the wording of api/chat.js itself: the
    facts `Chat.FallbackLabels` takes as hypotheses hold of
    `ChatWording.SourceWording()`. */
module SourceLabels {
  import opened Common
  import opened Prompts
  import opened LocalAdvice
  import opened ChatWording
  import opened WordingPlateFree
  import opened Chat

  /** When every candidate failed, the spoiled recipe and the generic
      recipe are labelled 'local_fallback', while a table text and the
      conservation answers (for a food whose upper-cased name has no plate)
      are labelled 'ai_service', although no model wrote any of them. */
  lemma SourceFallbackLabels(verb: string, body: Option<Fields>, hasToken: bool, network: Request -> Outcome, rt: Runtime)
    requires Proceeds(verb, body, hasToken)
    requires var rs := Requests(Prompt(body.value.food, body.value.option, body.value.isSpoiled));
      forall j | 0 <= j < |rs| :: AcceptedText(network(rs[j]), rt.stringify).None?
    ensures var f := body.value;
            var p := Handle(SourceWording(), verb, body, hasToken, network, rt).response.payload;
      && p.Some? && p.value.source.Some?
      && (f.option == "recipe" && (f.isSpoiled || f.food !in TableKeys) ==> p.value.source.value == LocalSource)
      && (f.option == "recipe" && !f.isSpoiled && f.food in TableKeys ==> p.value.source.value == AiSource)
      && (f.option != "recipe" && PlateChar !in rt.upper(f.food) ==> p.value.source.value == AiSource)
  {
    SourceShaped();
    SourcePlateFree();
    FallbackLabels(SourceWording(), verb, body, hasToken, network, rt);
  }
}
