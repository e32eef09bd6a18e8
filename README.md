# Save & Taste chat endpoint, modelled in Dafny

This project models `api/chat.js`, the serverless endpoint of the Save &
Taste food assistant. Given a food, an option (`'recipe'`,
`'conservation'`, …) and whether the food is spoiled, the endpoint answers
with advice. The model covers all of it:

- **The gate.** It answers an OPTIONS preflight, refuses every other
  method except POST, refuses a body without `food` or `option`, and
  answers `no_token` when the HuggingFace token is not configured.
- **The candidate pass.** One prompt (`construirPrompt`) goes to three
  candidate models in a fixed order. The pass stops at the first
  candidate whose reply is ok and whose extracted text (`extraerTexto`)
  is longer than 20 UTF-16 code units.
- **The local answer.** When every candidate fails, the endpoint uses
  `generarRespuestaLocal`: two tables of texts keyed by food name, and
  four template literals.
- **The response.** It is labelled `'local_fallback'` when the text
  contains '🍽️' and `'ai_service'` otherwise. The error path answers
  with the local text for 'alimento'.

How the pieces are modelled:

- The network is a function `network: Request -> Outcome` from an
  inference request to what came of it. That outcome is an exception or
  timeout (`Thrown`), or a status with a parsed JSON body.
- The handler is stated twice. `Chat.Handle` is a pure function that also
  returns the requests sent, in order. `Chat.HandleRequest` is the
  imperative form: the `for … break` loop over the candidates, with its
  two variables. `HandleRequest` is proved equal to `Handle`.
- The local answer is `LocalAdvice.Answer`. Its wording (tables and
  templates) is a parameter `w`. The lemmas about it hold for every
  wording with the shape `Shaped(w)`. The wording of `api/chat.js` is
  `ChatWording.SourceWording()`, copied character for character.
  `ChatWording.SourceShaped` proves it has that shape, and
  `WordingPlateFree.SourcePlateFree` proves the plate is absent from its
  tables and conservation templates.
- Dafny strings are sequences of Unicode scalar values. JavaScript's
  `length` counts UTF-16 code units, so it is modelled by
  `Text.Utf16Length`, where every character outside the Basic
  Multilingual Plane counts twice (most emoji, such as 🍽, 🍌 and 🟢;
  ✅, ✨, ⚠ and ⏱ count once).
- `toUpperCase`, `JSON.stringify`, and the message of the error thrown
  for a missing body are parameters (`Chat.Runtime`).

## Model

| member | source | states |
|---|---|---|
| Chat.Handle | api/chat.js:11-172 | `handler(req, res)` as a function of the method, the body, the token and the network, giving the response and the requests sent. The status is 405 exactly for a method other than OPTIONS and POST, 400 exactly for a POST body with a falsy `food` or `option`, and 200 otherwise. At most one request per candidate is sent: no model is asked twice. |
| Chat.HandleRequest | api/chat.js:11-172 | The handler, written as in the source (early returns, then the candidate loop, then the fallback), returns the same response and sends the same requests as `Handle`. |
| Chat.TryCandidates | api/chat.js:59-125 | The `for … of` loop with `break`. It sends the candidates' requests in order, up to and including the first accepted one. It keeps that candidate's text and name, or neither when none is accepted. |
| Chat.Gate | api/chat.js:11-50 | OPTIONS gives 200 with no payload; any other method except POST gives 405 'Método no permitido'; a falsy `food` or `option` gives 400 'Faltan campos obligatorios'; without the token, 200 with `success: false`, `response: ""`, source 'no_token' and the error text. No request is sent in any of these cases. |
| Chat.SendsOnlyPastGate | api/chat.js:16-73 | A model is asked something exactly when the method is POST, `food` and `option` are truthy and the token is configured. |
| Chat.CandidatesDistinct | api/chat.js:67-71 | The three candidate ids are pairwise different, and none is 'mixed_sources'. |
| Chat.OrderedSinglePass | api/chat.js:67-116 | Past the gate, 1 to 3 requests are sent. They are a prefix of the full pass in order: Qwen, then Mistral, then flan-t5. Each carries the prompt for the body's fields, `max_new_tokens` 300, temperature 0.7 and `top_p` 0.9. No model is asked twice. Every request before the last was not accepted, and the pass ends early only at an accepted one. |
| Chat.FirstAccepted | api/chat.js:73-116 | The index where the loop stops is at most the number of outcomes. Every outcome before it is rejected, and the outcome at it, if any, is accepted. |
| Chat.AcceptedText | api/chat.js:105-111 | A text is taken only from an ok status (200-299) whose extracted value is a string longer than 20 UTF-16 code units. |
| Chat.AcceptedTextCases | api/chat.js:105-111 | Both directions of the acceptance test: a text is taken if and only if the status is ok, the extractor gives a string, and that string is longer than 20. |
| Chat.FirstAcceptedWins | api/chat.js:105-116 | When candidate k is the first accepted, exactly the first k+1 requests are sent. The response is 200 with `success: true`, that text, the label its plate decides, and model = candidate k. |
| Chat.FallbackOnExhaustion | api/chat.js:134-140 | When no candidate is accepted, all three are asked. The response is the local answer for the body's food, option and spoiled flag, with model 'base_local_mejorada'. |
| Chat.SourceLabel | api/chat.js:150 | The label of an answer is 'local_fallback' exactly when its text contains '🍽️', and 'ai_service' exactly when it does not. |
| Chat.ServedAnswer | api/chat.js:147-151 | Past the gate the answer is 200 with `success: true`. Its source is 'local_fallback' if and only if the text contains '🍽️', and 'ai_service' if and only if it does not. Its model is a candidate or 'base_local_mejorada', never 'mixed_sources'. |
| Chat.ServedNonEmpty | api/chat.js:134-149 | For a wording of the source's shape, every answer past the gate has a non-empty text. |
| Chat.ErrorPath | api/chat.js:161-172 | A POST without a body goes to the catch. It is answered 200 with `success: true`, source 'error_fallback', the error message, and the local answer for 'alimento' / 'recipe' / not spoiled. With the source's shape, that answer opens with '🍽️ **RECETA EXPRESS CON ' and the upper-cased food, names 'alimento' and contains '🍽️'. |
| Chat.FallbackLabels | api/chat.js:134-150 | Every candidate failed. Then the spoiled recipe and the generic recipe are labelled 'local_fallback'. With plate-free wording, a table text and the conservation answers (when the upper-cased food has no plate) are labelled 'ai_service'. |
| Chat.RecipesMismatch | api/chat.js:181 | For the option 'recipes', the models get the recipe prompt but the local answer is the conservation one. That answer is the spoiled alert, the `consejos` text, or the generic conservation advice, with their headers. |
| SourceLabels.SourceFallbackLabels | api/chat.js:134-150 | The labels of `FallbackLabels` hold for the source's own wording, with no hypothesis about it. |
| Prompts.Prompt | api/chat.js:180-194 | `construirPrompt`: one of four `[INST] … [/INST]` instructions, chosen by whether the option is exactly 'conservation' and by the spoiled flag. Every prompt starts with '[INST] ', ends with ' [/INST]' and contains the food verbatim. |
| Prompts.PromptBranches | api/chat.js:180-194 | For a given food, two prompts are equal if and only if both options are 'conservation' or neither is, and the spoiled flags agree. Any option other than 'conservation' gets the recipe prompts. |
| Prompts.BranchesDiffer | api/chat.js:181-192 | A conservation prompt never equals a recipe prompt for the same food. |
| Prompts.SpoiledPromptSaysBadState | api/chat.js:182-189 | Both spoiled prompts contain 'mal estado'. |
| Extraction.Extract | api/chat.js:196-210 | The extractor returns `null` exactly when the body is `null` (the read throws and is caught). Any other result is a string or a truthy value. |
| Extraction.ExtractPrecedence | api/chat.js:196-210 | The order of precedence, case by case on the shape of the body. (1) An array's first element with a truthy `generated_text` gives that field; an empty one is skipped. (2) An array whose first element is a string gives that string, even an empty one. (3) Any other array is stringified. (4) An object gives its truthy `generated_text`, else (5) its truthy `text`, else it is stringified. (6) A string is its own text. (7) A boolean or number is stringified. |
| Json.Prop | api/chat.js:199-203 | A read of `generated_text` or `text` (the only keys the extractor reads) is defined only on an object that has the key, and then gives that field. |
| Text.Utf16Length | api/chat.js:111 | JavaScript's `length` lies between the number of characters and twice that. It equals the number of characters exactly when no character is outside the Basic Multilingual Plane. |
| LocalAdvice.RecipeBranchOnlyForRecipe | api/chat.js:337 | Every option other than exactly 'recipe' gets the same answer as 'conservation'. |
| LocalAdvice.Answer | api/chat.js:212-423 | `generarRespuestaLocal`. A fresh food named exactly 'platano' or 'manzana' gets the table text, from `recetas` for 'recipe' and from `consejos` otherwise. A spoiled food, or a fresh food that is not a table key, gets its branch's template, which opens with the branch's header ('🚫 **NO USES ', '🍽️ **RECETA EXPRESS CON ', '⚠️ **ALERTA: ', '✅ **CONSERVACIÓN DE ') followed by the upper-cased food. So the answer is never empty. |
| LocalAdvice.GenericRecipeNamesFood | api/chat.js:362-376 | The generic recipe contains the food verbatim. |
| LocalAdvice.SpoiledIgnoresTables | api/chat.js:337-399 | A spoiled food's answer is the same whatever the tables hold. Outside the recipe branch it depends on the food only through its upper-cased form. |
| LocalAdvice.PlateInRecipeTemplates | api/chat.js:338-362 | The spoiled recipe (through its emergency line) and the generic recipe both contain '🍽️'. |
| LocalAdvice.NoPlateElsewhere | api/chat.js:214-421 | With plate-free wording, a table text does not contain '🍽️'. Neither do the two conservation templates, for a food whose upper-cased form lacks it. |
| LocalAdvice.FillHasPiece | api/chat.js:338-376 | Whatever a template piece evaluates to, `${food}` included, occurs in the filled template. |
| LocalAdvice.FillIgnoresFood | api/chat.js:379-421 | A template without `${food}` gives the same text for two foods with the same upper-cased form. |
| ChatWording.SourceShaped | api/chat.js:214-421 | The source's wording has the shape the lemmas rely on. Both tables are keyed by exactly 'platano' and 'manzana', and every text in them is non-empty. Each template opens with its header and the upper-cased food. The spoiled recipe holds the emergency line. The generic recipe names the food, and neither conservation template does. |
| ChatWording.RecipeTableKeys | api/chat.js:214-277 | `recetas` has exactly the keys 'platano' and 'manzana'. |
| ChatWording.StorageTableKeys | api/chat.js:279-335 | `consejos` has exactly the keys 'platano' and 'manzana'. |
| WordingPlateFree.SourcePlateFree | api/chat.js:214-421 | No text in `recetas` or `consejos` contains the plate's first character. Neither does any fixed piece of the two conservation templates. |

## Left out

- The network, `fetch`, request headers and body serialisation, and `response.json()`/`response.text()` are replaced by the `network` function. A request is identified by its model, prompt and generation parameters, so the function loses nothing: the three requests of a pass are pairwise different.
- The 30-second `AbortController` timeout is not modelled. A timeout is one more `Thrown` outcome, like any exception from `fetch` or from parsing the body.
- The CORS headers, `console.log`/`console.error`, and the `debug` object with its timestamps and lengths are not part of the response record.
- `process.env.HF_TOKEN` is the boolean `hasToken`.
- `toUpperCase`, `JSON.stringify` and the text of an error message are uninterpreted parameters. The model does not fix how upper-casing or stringifying works.
- Extraction: an extracted value that is not a string is treated as not accepted. In JavaScript, a truthy non-string `generated_text` with a `length` above 20 would be accepted. An array of more than 20 elements would then be labelled (arrays have `includes`) and sent as `response`. An object with a numeric `length` above 20 would instead make `.includes` throw and reach the catch.
- Body fields are strings and a boolean. A missing `food` or `option` is "" and a missing `isSpoiled` is false, which behave alike under the truthiness tests. Non-string truthy fields, where `toUpperCase` throws and the catch rethrows, are not modelled.
- A missing `req.body` is modelled (`body = None`): the destructuring throws inside the `try` and the catch answers with the local text for 'alimento'. It is the only way the modelled inputs reach the catch. In the source the catch is also reached with the body present: by the object case above, or by a prototype-chain `food` such as 'constructor' on the fallback path, where `recetas[food]` or `consejos[food]` is a function. The catch then answers with the body's own `food`, `option` and `isSpoiled`, not 'alimento'. These paths are not modelled.
- Table lookups find only the exact keys 'platano' and 'manzana'. Prototype-chain hits such as `food = 'constructor'` are not modelled.
- The unused inner `catch (routerError)` and the unused `errorText` have no effect and are not modelled.
- Strings with lone surrogates have no Dafny counterpart. For all other strings, `Text.Utf16Length` is JavaScript's `length`.
- `Chat.FallbackLabels` and `LocalAdvice.NoPlateElsewhere` assume that `toUpperCase` of the food does not produce the plate character. The model cannot decide this, because upper-casing is abstract.
