/** The deterministic local answer `generarRespuestaLocal(food, option,
    isSpoiled)` (api/chat.js:212-423), served when no candidate model gave
    an acceptable text. It branches on `option === 'recipe'` and on
    `isSpoiled`; a fresh food is first looked up by its exact name in a
    table (`recetas` or `consejos`), and every other food gets a template
    literal that names it.

    The branching is stated once, in `Answer`, over any `Wording` (the two
    tables and the four templates); the module `ChatWording` holds the
    wording of api/chat.js and proves it `Shaped`, the facts about it that
    the lemmas here rely on. */
module LocalAdvice {
  import opened Text

  /** The plate emoji '🍽️' whose presence makes the handler label a
      response 'local_fallback'; `PlateChar` is its first character. */
  const Plate: string := "🍽️"
  const PlateChar: char := '🍽'

  /** One piece of a JavaScript template literal: fixed characters,
      `${food}` or `${food.toUpperCase()}`. */
  datatype Piece = Chars(text: string) | Food | FoodUpper

  /** The string one piece evaluates to. */
  function Eval(p: Piece, food: string, foodUpper: string): string
  {
    match p
    case Chars(s) => s
    case Food => food
    case FoodUpper => foodUpper
  }

  /** The string a template literal evaluates to. */
  function Fill(t: seq<Piece>, food: string, foodUpper: string): string
  {
    if t == [] then "" else Eval(t[0], food, foodUpper) + Fill(t[1..], food, foodUpper)
  }

  /** Template pieces that are all fixed text, one per string of `ls`. */
  function FixedText(ls: seq<string>): (t: seq<Piece>)
    ensures |t| == |ls|
    ensures forall i | 0 <= i < |ls| :: t[i] == Chars(ls[i])
  {
    seq(|ls|, i requires 0 <= i < |ls| => Chars(ls[i]))
  }

  /** The wording of `generarRespuestaLocal`: the tables `recetas` and
      `consejos`, keyed by exact food name, each text given as its lines
      (the text is their concatenation), and the templates for a spoiled
      food (recipe or not) and for a fresh food missing from the tables. */
  datatype Wording = Wording(
    recipes: map<string, seq<string>>,
    storage: map<string, seq<string>>,
    spoiledRecipe: seq<Piece>,
    genericRecipe: seq<Piece>,
    spoiledStorage: seq<Piece>,
    genericStorage: seq<Piece>)

  /** `table[key] || otherwise`: a missing or empty table entry is falsy. */
  function Lookup(table: map<string, seq<string>>, key: string, otherwise: string): string
  {
    if key in table && Concat(table[key]) != "" then Concat(table[key]) else otherwise
  }

  /** `generarRespuestaLocal(food, option, isSpoiled)` with wording `w`;
      `upper` is `String.prototype.toUpperCase`. A fresh food named exactly
      as a table key gets that table's text, a recipe or conservation
      advice according to the branch; a spoiled food, and a fresh one that
      is not a table key, gets the template of its branch, which opens with
      the branch's header and the upper-cased food; so the answer is never
      empty. */
  function Answer(w: Wording, food: string, option: string, isSpoiled: bool, upper: string -> string): (r: string)
    ensures TablesOk(w) && !isSpoiled && food in TableKeys ==>
              r == Concat(if option == "recipe" then w.recipes[food] else w.storage[food])
    ensures Shaped(w) && (isSpoiled || food !in TableKeys) ==>
              StartsWith(r, Heading(option, isSpoiled) + upper(food))
    ensures Shaped(w) ==> r != ""
  {
    if option == "recipe" then
      if isSpoiled then
        FillHeaded(w.spoiledRecipe, NoUseLabel, food, upper(food));
        Fill(w.spoiledRecipe, food, upper(food))
      else
        FillHeaded(w.genericRecipe, RecipeLabel, food, upper(food));
        Lookup(w.recipes, food, Fill(w.genericRecipe, food, upper(food)))
    else
      if isSpoiled then
        FillHeaded(w.spoiledStorage, AlertLabel, food, upper(food));
        Fill(w.spoiledStorage, food, upper(food))
      else
        FillHeaded(w.genericStorage, StorageLabel, food, upper(food));
        Lookup(w.storage, food, Fill(w.genericStorage, food, upper(food)))
  }

  /** The exact food names both tables of api/chat.js are keyed by. */
  const TableKeys: set<string> := {"platano", "manzana"}

  /** The opening of each template, before `${food.toUpperCase()}`. */
  const NoUseLabel: string := "🚫 **NO USES "
  const RecipeLabel: string := Plate + " **RECETA EXPRESS CON "
  const AlertLabel: string := "⚠️ **ALERTA: "
  const StorageLabel: string := "✅ **CONSERVACIÓN DE "

  /** The line that opens the emergency salad of the spoiled-recipe answer. */
  const EmergencyLine: string := Plate + " **Receta de emergencia:**\n"

  /** The header a template answer opens with, by branch. */
  function Heading(option: string, isSpoiled: bool): string
  {
    if option == "recipe" then (if isSpoiled then NoUseLabel else RecipeLabel)
    else (if isSpoiled then AlertLabel else StorageLabel)
  }

  /** Both tables are keyed by exactly `TableKeys` and every text in them
      has a non-empty first line. */
  predicate TablesOk(w: Wording)
  {
    && w.recipes.Keys == TableKeys
    && w.storage.Keys == TableKeys
    && (forall k | k in w.recipes :: |w.recipes[k]| > 0 && |w.recipes[k][0]| > 0)
    && (forall k | k in w.storage :: |w.storage[k]| > 0 && |w.storage[k][0]| > 0)
  }

  /** A template that opens with `heading` followed by the upper-cased food. */
  predicate Headed(t: seq<Piece>, heading: string)
  {
    |t| >= 2 && t[0] == Chars(heading) && t[1] == FoodUpper
  }

  /** Every template opens with the header of its branch; the spoiled
      recipe holds the emergency line; the generic recipe names the food and
      neither storage template does (they name it upper-cased only). */
  predicate TemplatesOk(w: Wording)
  {
    && Headed(w.spoiledRecipe, NoUseLabel)
    && Headed(w.genericRecipe, RecipeLabel)
    && Headed(w.spoiledStorage, AlertLabel)
    && Headed(w.genericStorage, StorageLabel)
    && Chars(EmergencyLine) in w.spoiledRecipe
    && Food in w.genericRecipe
    && Food !in w.spoiledStorage
    && Food !in w.genericStorage
  }

  predicate Shaped(w: Wording)
  {
    TablesOk(w) && TemplatesOk(w)
  }

  /** The plate character appears in no line of a table text and in no
      fixed piece of either storage template. */
  predicate PlateFree(w: Wording)
  {
    && (forall k, i | k in w.recipes && 0 <= i < |w.recipes[k]| :: PlateChar !in w.recipes[k][i])
    && (forall k, i | k in w.storage && 0 <= i < |w.storage[k]| :: PlateChar !in w.storage[k][i])
    && (forall i | 0 <= i < |w.spoiledStorage| && w.spoiledStorage[i].Chars? :: PlateChar !in w.spoiledStorage[i].text)
    && (forall i | 0 <= i < |w.genericStorage| && w.genericStorage[i].Chars? :: PlateChar !in w.genericStorage[i].text)
  }

  // Template literals.

  /** Evaluating a template is evaluating its two halves. */
  lemma {:induction false} FillAppend(t: seq<Piece>, u: seq<Piece>, food: string, foodUpper: string)
    ensures Fill(t + u, food, foodUpper) == Fill(t, food, foodUpper) + Fill(u, food, foodUpper)
    decreases |t|
  {
    if t == [] {
      assert t + u == u;
    } else {
      assert (t + u)[1..] == t[1..] + u;
      FillAppend(t[1..], u, food, foodUpper);
    }
  }

  /** What every piece evaluates to occurs in the evaluated template. */
  lemma FillHasPiece(t: seq<Piece>, i: int, food: string, foodUpper: string)
    requires 0 <= i < |t|
    ensures Contains(Fill(t, food, foodUpper), Eval(t[i], food, foodUpper))
  {
    var before, after := t[..i], t[i + 1..];
    assert t == before + [t[i]] + after;
    FillAppend(before + [t[i]], after, food, foodUpper);
    FillAppend(before, [t[i]], food, foodUpper);
    assert Fill([t[i]], food, foodUpper) == Eval(t[i], food, foodUpper);
    ContainsInfix(Fill(before, food, foodUpper), Eval(t[i], food, foodUpper), Fill(after, food, foodUpper));
  }

  /** A headed template evaluates to its heading, the upper-cased food and
      the rest. */
  lemma FillHeaded(t: seq<Piece>, heading: string, food: string, foodUpper: string)
    ensures Headed(t, heading) ==> Fill(t, food, foodUpper) == heading + foodUpper + Fill(t[2..], food, foodUpper)
  {
    if Headed(t, heading) {
      assert t[1..][1..] == t[2..];
    }
  }

  /** A character that no piece evaluates to a string holding is absent
      from the evaluated template. */
  lemma {:induction false} FillAvoids(t: seq<Piece>, c: char, food: string, foodUpper: string)
    requires forall p | p in t :: c !in Eval(p, food, foodUpper)
    ensures c !in Fill(t, food, foodUpper)
    decreases |t|
  {
    if t != [] {
      assert t[0] in t;
      assert forall p | p in t[1..] :: p in t;
      FillAvoids(t[1..], c, food, foodUpper);
    }
  }

  /** A template without `${food}` depends on the food only through its
      upper-cased form. */
  lemma {:induction false} FillIgnoresFood(t: seq<Piece>, food: string, other: string, foodUpper: string)
    requires Food !in t
    ensures Fill(t, food, foodUpper) == Fill(t, other, foodUpper)
    decreases |t|
  {
    if t != [] {
      assert t[0] != Food;
      assert forall p | p in t[1..] :: p in t;
      FillIgnoresFood(t[1..], food, other, foodUpper);
    }
  }

  // The answer.

  /** Only `option == "recipe"` selects the recipe branch: every other
      option, `"recipes"` included, gets the conservation answer. */
  lemma RecipeBranchOnlyForRecipe(w: Wording, food: string, option: string, isSpoiled: bool, upper: string -> string)
    requires option != "recipe"
    ensures Answer(w, food, option, isSpoiled, upper) == Answer(w, food, "conservation", isSpoiled, upper)
  {
  }

  /** The generic recipe names the food verbatim. */
  lemma GenericRecipeNamesFood(w: Wording, food: string, upper: string -> string)
    requires Shaped(w) && food !in TableKeys
    ensures Contains(Answer(w, food, "recipe", false, upper), food)
  {
    var t := w.genericRecipe;
    var i :| 0 <= i < |t| && t[i] == Food;
    FillHasPiece(t, i, food, upper(food));
  }

  /** A spoiled food's answer ignores the tables, and outside the recipe
      branch it depends on the food only through `upper(food)`. */
  lemma SpoiledIgnoresTables(w: Wording, recipes: map<string, seq<string>>, storage: map<string, seq<string>>,
                             food: string, other: string, option: string, upper: string -> string)
    requires Shaped(w)
    ensures Answer(w, food, option, true, upper) == Answer(w.(recipes := recipes, storage := storage), food, option, true, upper)
    ensures option != "recipe" && upper(food) == upper(other) ==>
              Answer(w, food, option, true, upper) == Answer(w, other, option, true, upper)
  {
    if option != "recipe" && upper(food) == upper(other) {
      FillIgnoresFood(w.spoiledStorage, food, other, upper(food));
    }
  }

  /** Both recipe templates, the spoiled one and the generic one, show the
      plate. */
  lemma PlateInRecipeTemplates(w: Wording, food: string, isSpoiled: bool, upper: string -> string)
    requires Shaped(w) && (isSpoiled || food !in TableKeys)
    ensures Contains(Answer(w, food, "recipe", isSpoiled, upper), Plate)
  {
    var r := Answer(w, food, "recipe", isSpoiled, upper);
    if isSpoiled {
      var t := w.spoiledRecipe;
      var i :| 0 <= i < |t| && t[i] == Chars(EmergencyLine);
      FillHasPiece(t, i, food, upper(food));
      ContainsPrefix(Plate, " **Receta de emergencia:**\n");
      ContainsTrans(r, EmergencyLine, Plate);
    } else {
      FillHeaded(w.genericRecipe, RecipeLabel, food, upper(food));
      assert r == Plate + (" **RECETA EXPRESS CON " + upper(food) + Fill(w.genericRecipe[2..], food, upper(food)));
      ContainsPrefix(Plate, " **RECETA EXPRESS CON " + upper(food) + Fill(w.genericRecipe[2..], food, upper(food)));
    }
  }

  /** With plate-free wording, the table texts and both storage templates
      (for a food whose upper-cased form has no plate) do not show it. */
  lemma NoPlateElsewhere(w: Wording, food: string, option: string, isSpoiled: bool, upper: string -> string)
    requires Shaped(w) && PlateFree(w)
    requires option == "recipe" ==> !isSpoiled && food in TableKeys
    requires option != "recipe" ==> PlateChar !in upper(food)
    ensures !Contains(Answer(w, food, option, isSpoiled, upper), Plate)
  {
    var r := Answer(w, food, option, isSpoiled, upper);
    if !isSpoiled && food in TableKeys {
      var lines := if option == "recipe" then w.recipes[food] else w.storage[food];
      ConcatAvoids(lines, PlateChar);
    } else {
      var t := if isSpoiled then w.spoiledStorage else w.genericStorage;
      forall p | p in t
        ensures PlateChar !in Eval(p, food, upper(food))
      {
        var i :| 0 <= i < |t| && t[i] == p;
        assert p != Food;
      }
      FillAvoids(t, PlateChar, food, upper(food));
    }
    NoFirstCharNoContains(r, Plate);
  }
}
