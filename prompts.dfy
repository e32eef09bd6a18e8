/** The prompt `construirPrompt(food, option, isSpoiled)` sends to every
    candidate model (api/chat.js:180-194): one of four instructions in the
    `[INST] … [/INST]` format, chosen by whether `option` is exactly
    'conservation' and by `isSpoiled`, with the food spliced in verbatim. */
module Prompts {
  import opened Text

  /** The markers every prompt is wrapped in. */
  const Open: string := "[INST] "
  const Close: string := " [/INST]"

  /** The words the two spoiled variants use for the food's state. */
  const BadState: string := "mal estado"

  /** The text before and after the food in each of the four prompts, the
      first naming the role the model is asked to play: food-safety expert,
      conservation specialist, chef asked about safety, creative chef. */
  const Role: string := "Eres un "
  const Expert: string := "experto"
  const Keeper: string := "especialista"
  const WaryChef: string := "chef y experto"
  const Chef: string := "chef creativo"
  const ExpertLead: string := Role + Expert + " en seguridad alimentaria. Mi "
  const ExpertTail: string := " está en " + BadState + ". ¿Qué debo hacer? Da consejos prácticos en español."
  const KeeperLead: string := Role + Keeper + " en conservación. ¿Cómo conservo "
  const KeeperTail: string := " fresco por más tiempo? Responde en español."
  const WaryChefLead: string := Role + WaryChef + " en seguridad. Tengo "
  const WaryChefTail: string := " en " + BadState + ". ¿Es seguro cocinar? Responde en español."
  const ChefLead: string := Role + Chef + ". Dame una receta deliciosa usando "
  const ChefTail: string := ". Responde en español."

  /** `construirPrompt(food, option, isSpoiled)`: every prompt starts with
      `[INST] `, ends with ` [/INST]` and holds the food verbatim. */
  function Prompt(food: string, option: string, isSpoiled: bool): (p: string)
    ensures StartsWith(p, Open)
    ensures EndsWith(p, Close)
    ensures Contains(p, food)
  {
    if option == "conservation" then
      if isSpoiled then Wrapped(ExpertLead, food, ExpertTail); Open + ExpertLead + food + ExpertTail + Close
      else Wrapped(KeeperLead, food, KeeperTail); Open + KeeperLead + food + KeeperTail + Close
    else
      if isSpoiled then Wrapped(WaryChefLead, food, WaryChefTail); Open + WaryChefLead + food + WaryChefTail + Close
      else Wrapped(ChefLead, food, ChefTail); Open + ChefLead + food + ChefTail + Close
  }

  /** A string built as `Open + a + t + b + Close` is wrapped in the markers
      and holds `t`. */
  lemma Wrapped(a: string, t: string, b: string)
    ensures StartsWith(Open + a + t + b + Close, Open)
    ensures EndsWith(Open + a + t + b + Close, Close)
    ensures Contains(Open + a + t + b + Close, t)
    ensures Contains(Open + a + t + b + Close, b)
  {
    var s := Open + a + t + b + Close;
    assert s == (Open + a) + t + (b + Close);
    ContainsInfix(Open + a, t, b + Close);
    assert s == (Open + a + t) + b + Close;
    ContainsInfix(Open + a + t, b, Close);
    assert s[..|Open|] == Open;
    assert s[|s| - |Close|..] == Close;
  }

  /** The character at offset `j` of the role a prompt names. */
  lemma RoleChar(job: string, rest: string, t: string, b: string, j: int)
    requires 0 <= j < |job|
    ensures (Open + (Role + job + rest) + t + b + Close)[|Open| + |Role| + j] == job[j]
  {
    var s := Open + (Role + job + rest) + t + b + Close;
    assert s == (Open + Role + job) + (rest + t + b + Close);
  }

  /** The spoiled variants say the food is "mal estado". */
  lemma SpoiledPromptSaysBadState(food: string, option: string)
    ensures Contains(Prompt(food, option, true), BadState)
  {
    var r := Prompt(food, option, true);
    if option == "conservation" {
      Wrapped(ExpertLead, food, ExpertTail);
      ContainsInfix(" está en ", BadState, ". ¿Qué debo hacer? Da consejos prácticos en español.");
      ContainsTrans(r, ExpertTail, BadState);
    } else {
      Wrapped(WaryChefLead, food, WaryChefTail);
      ContainsInfix(" en ", BadState, ". ¿Es seguro cocinar? Responde en español.");
      ContainsTrans(r, WaryChefTail, BadState);
    }
  }

  /** For a given food the four prompts are pairwise different: two prompts
      agree exactly when both or neither option is 'conservation' and the
      spoiled flags agree. Every other option, 'recipe' or not, gets the
      recipe prompts. */
  lemma PromptBranches(food: string, option: string, other: string, isSpoiled: bool, otherSpoiled: bool)
    ensures Prompt(food, option, isSpoiled) == Prompt(food, other, otherSpoiled)
            <==> (option == "conservation") == (other == "conservation") && isSpoiled == otherSpoiled
  {
    if (option == "conservation") != (other == "conservation") {
      if option == "conservation" {
        BranchesDiffer(food, isSpoiled, otherSpoiled);
      } else {
        BranchesDiffer(food, otherSpoiled, isSpoiled);
      }
    } else if isSpoiled != otherSpoiled {
      var r, s := Prompt(food, option, true), Prompt(food, option, false);
      var k := |Open| + |Role|;
      if option == "conservation" {
        // "experto" against "especialista"
        RoleChar(Expert, " en seguridad alimentaria. Mi ", food, ExpertTail, 1);
        RoleChar(Keeper, " en conservación. ¿Cómo conservo ", food, KeeperTail, 1);
        assert r[k + 1] == 'x' && s[k + 1] == 's';
      } else {
        // "chef y" against "chef c"
        RoleChar(WaryChef, " en seguridad. Tengo ", food, WaryChefTail, 5);
        RoleChar(Chef, ". Dame una receta deliciosa usando ", food, ChefTail, 5);
        assert r[k + 5] == 'y' && s[k + 5] == 'c';
      }
    }
  }

  /** A conservation prompt is never a recipe prompt: the role named starts
      with 'e' in one and with 'c' in the other. */
  lemma BranchesDiffer(food: string, isSpoiled: bool, otherSpoiled: bool)
    ensures Prompt(food, "conservation", isSpoiled) != Prompt(food, "recipe", otherSpoiled)
  {
    var r, s := Prompt(food, "conservation", isSpoiled), Prompt(food, "recipe", otherSpoiled);
    var k := |Open| + |Role|;
    if isSpoiled {
      RoleChar(Expert, " en seguridad alimentaria. Mi ", food, ExpertTail, 0);
    } else {
      RoleChar(Keeper, " en conservación. ¿Cómo conservo ", food, KeeperTail, 0);
    }
    if otherSpoiled {
      RoleChar(WaryChef, " en seguridad. Tengo ", food, WaryChefTail, 0);
    } else {
      RoleChar(Chef, ". Dame una receta deliciosa usando ", food, ChefTail, 0);
    }
    assert r[k] == 'e' && s[k] == 'c';
  }
}
