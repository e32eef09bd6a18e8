/** The wording `generarRespuestaLocal` uses in api/chat.js, character for
    character: the tables `recetas` (api/chat.js:214-277) and `consejos`
    (api/chat.js:279-335), each text paragraph by paragraph and one source
    line per row, a long line written as several literals; the two recipe
    templates (api/chat.js:339-376) piece by piece; and the two conservation
    templates (api/chat.js:379-421), whose only `${…}` is the upper-cased
    food after the header, as that header, the food and a fixed body. */
module ChatWording {
  import opened LocalAdvice

  /** `recetas.platano`, paragraph by paragraph. */
  const PlatanoRecipe: seq<string> := PlatanoRecipe0 + PlatanoRecipe1 + PlatanoRecipe2 + PlatanoRecipe3 + PlatanoRecipe4 + PlatanoRecipe5 + PlatanoRecipe6 + PlatanoRecipe7
  const PlatanoRecipe0: seq<string> := [
    "🍌 **Plátano - Receta Express**\n\n"
  ]
  const PlatanoRecipe1: seq<string> := [
    "⏱️ **10 minutos** | 🟢 **Fácil** ", "| 🌱 **Saludable**\n\n"
  ]
  const PlatanoRecipe2: seq<string> := [
    "🥞 **Panqueques de plátano:**\n",
    "• 2 plátanos maduros aplastados\n",
    "• 2 huevos (o 4 cdas harina de ", "garbanzo para vegano)\n",
    "• 1 cdta canela\n",
    "• 1 pizca sal\n\n"
  ]
  const PlatanoRecipe3: seq<string> := [
    "🔥 **Preparación:**\n",
    "1. Mezcla todo hasta obtener ", "masa homogénea\n",
    "2. Calienta sartén ", "antiadherente\n",
    "3. Vierte cucharadas de masa\n",
    "4. Cocina 2-3 minutos por lado\n\n"
  ]
  const PlatanoRecipe4: seq<string> := [
    "🍯 **Para servir:**\n",
    "• Miel, sirope de arce o ", "mermelada\n",
    "• Frutos secos triturados\n",
    "• Yogur griego\n\n"
  ]
  const PlatanoRecipe5: seq<string> := [
    "💡 **Consejo:** Usa plátanos ", "bien maduros para más dulzor ", "natural.\n\n"
  ]
  const PlatanoRecipe6: seq<string> := [
    "🥤 **Batido rápido:**\n",
    "• 1 plátano congelado\n",
    "• 200ml leche de almendras\n",
    "• 1 cdta cacao en polvo\n",
    "• Hielo al gusto\n",
    "• Licuar y servir frío\n\n"
  ]
  const PlatanoRecipe7: seq<string> := [
    "✨ **Variante salada:** Añade a ", "la masa 50g de avena y sirve ", "con aguacate."
  ]

  /** `recetas.manzana`, paragraph by paragraph. */
  const ManzanaRecipe: seq<string> := ManzanaRecipe0 + ManzanaRecipe1 + ManzanaRecipe2 + ManzanaRecipe3 + ManzanaRecipe4 + ManzanaRecipe5 + ManzanaRecipe6
  const ManzanaRecipe0: seq<string> := [
    "🍎 **Manzana - Receta Express**\n\n"
  ]
  const ManzanaRecipe1: seq<string> := [
    "⏱️ **15 minutos** | 🟢 **Fácil** ", "| 🌱 **Refrescante**\n\n"
  ]
  const ManzanaRecipe2: seq<string> := [
    "🥗 **Ensalada crujiente:**\n",
    "• 2 manzanas en cubos (piel ", "incluida)\n",
    "• 1 zanahoria rallada\n",
    "• 50g de nueces picadas\n",
    "• 50g de pasas (opcional)\n",
    "• Hojas de espinaca\n\n"
  ]
  const ManzanaRecipe3: seq<string> := [
    "🍋 **Aliño cítrico:**\n",
    "• Zumo de 1 limón\n",
    "• 2 cdas aceite de oliva\n",
    "• 1 cdta miel\n",
    "• Sal y pimienta al gusto\n\n"
  ]
  const ManzanaRecipe4: seq<string> := [
    "🔥 **Manzanas asadas:**\n",
    "1. Corta manzanas en gajos\n",
    "2. Coloca en bandeja para horno\n",
    "3. Espolvorea canela y nuez ", "moscada\n",
    "4. Hornea a 180°C por 15 ", "minutos\n\n"
  ]
  const ManzanaRecipe5: seq<string> := [
    "🍵 **Compota express:**\n",
    "• 3 manzanas peladas y cortadas\n",
    "• 1/2 vaso de agua\n",
    "• Canela al gusto\n",
    "• Cocina 10 minutos y tritura\n\n"
  ]
  const ManzanaRecipe6: seq<string> := [
    "💡 **Consejo:** Rocía con limón ", "para evitar oxidación."
  ]

  /** `consejos.platano`, paragraph by paragraph. */
  const PlatanoStorage: seq<string> := PlatanoStorage0 + PlatanoStorage1 + PlatanoStorage2 + PlatanoStorage3 + PlatanoStorage4 + PlatanoStorage5
  const PlatanoStorage0: seq<string> := [
    "✅ **CONSERVACIÓN DE PLÁTANOS**\n\n"
  ]
  const PlatanoStorage1: seq<string> := [
    "🌡️ **Temperatura ideal:** ", "13-15°C\n",
    "📦 **Cómo almacenar:**\n",
    "• **NO** guardes en nevera (se ", "oscurecen)\n",
    "• **SÍ** cuelga en gancho o ", "soporte\n",
    "• **Evita** bolsas plásticas ", "herméticas\n\n"
  ]
  const PlatanoStorage2: seq<string> := [
    "⏱️ **Duración aproximada:**\n",
    "• Verde: 3-5 días en madurar\n",
    "• Maduro: 1-2 días a ", "temperatura ambiente\n",
    "• Muy maduro: usar ", "inmediatamente o congelar\n\n"
  ]
  const PlatanoStorage3: seq<string> := [
    "🚫 **Errores comunes:**\n",
    "1. Refrigerar plátanos verdes\n",
    "2. Amontonar sin ventilación\n",
    "3. Guardar cerca de manzanas ", "(liberan etileno)\n\n"
  ]
  const PlatanoStorage4: seq<string> := [
    "💡 **Trucos:**\n",
    "• Separa del racimo para ", "madurar más lento\n",
    "• Congela plátanos maduros para ", "batidos\n",
    "• La cáscara oscura NO ", "significa mal estado\n\n"
  ]
  const PlatanoStorage5: seq<string> := [
    "🔄 **Si maduran muy rápido:**\n",
    "1. Pela y congela para ", "smoothies\n",
    "2. Haz pan de plátano\n",
    "3. Prepáralos asados con canela"
  ]

  /** `consejos.manzana`, paragraph by paragraph. */
  const ManzanaStorage: seq<string> := ManzanaStorage0 + ManzanaStorage1 + ManzanaStorage2 + ManzanaStorage3 + ManzanaStorage4 + ManzanaStorage5
  const ManzanaStorage0: seq<string> := [
    "✅ **CONSERVACIÓN DE MANZANAS**\n\n"
  ]
  const ManzanaStorage1: seq<string> := [
    "🌡️ **Temperatura ideal:** 0-4°C ", "(nevera)\n",
    "📦 **Cómo almacenar:**\n",
    "• En nevera, en cajón de frutas\n",
    "• Separadas de otras frutas ", "(producen etileno)\n",
    "• En bolsa de papel con ", "pequeños agujeros\n\n"
  ]
  const ManzanaStorage2: seq<string> := [
    "⏱️ **Duración:**\n",
    "• Entera en nevera: 4-6 semanas\n",
    "• Cortada: 2-3 días (con limón)\n",
    "• Cocida: 3-4 días refrigerada\n\n"
  ]
  const ManzanaStorage3: seq<string> := [
    "🚫 **Qué evitar:**\n",
    "1. Temperatura ambiente ", "prolongada\n",
    "2. Humedad excesiva\n",
    "3. Contacto con frutas dañadas\n\n"
  ]
  const ManzanaStorage4: seq<string> := [
    "💡 **Trucos de conservación:**\n",
    "• Sumerge rodajas en agua con ", "limón\n",
    "• Almacena por separado según ", "variedad\n",
    "• Revisa semanalmente y retira ", "las dañadas\n\n"
  ]
  const ManzanaStorage5: seq<string> := [
    "🍎 **Por variedad:**\n",
    "• **Granny Smith:** Más ", "duradera (6-8 semanas)\n",
    "• **Golden:** Moderada (4-5 ", "semanas)  \n",
    "• **Red Delicious:** Menos ", "duradera (3-4 semanas)"
  ]


  /** `recetas`. */
  function RecipeTable(): map<string, seq<string>>
  {
    map["platano" := PlatanoRecipe, "manzana" := ManzanaRecipe]
  }

  /** `consejos`. */
  function StorageTable(): map<string, seq<string>>
  {
    map["platano" := PlatanoStorage, "manzana" := ManzanaStorage]
  }

  /** The answer to a recipe request for a spoiled food. */
  const SpoiledRecipeTemplate: seq<Piece> := [
    Chars(NoUseLabel), FoodUpper, Chars(" EN MAL ESTADO**\n\n"),
    Chars("⚠️ **Riesgos para la salud:**\n"),
    Chars("• **Micotoxinas** que resisten "), Chars("la cocción\n"),
    Chars("• **Bacterias patógenas** como "), Chars("E. coli o Salmonella\n"),
    Chars("• **Reacciones alérgicas** por "), Chars("esporas de moho\n\n"),
    Chars("💡 **Alternativas seguras:**\n"),
    Chars("1. **Desecha** si hay moho "), Chars("visible\n"),
    Chars("2. **Usa** "), Food, Chars(" fresco de reemplazo\n"),
    Chars("3. **Prueba** con vegetales "), Chars("similares disponibles\n"),
    Chars("4. **Opta** por versiones "), Chars("congeladas\n\n"),
    Chars(EmergencyLine),
    Chars("Puedes preparar una ensalada "), Chars("rápida con:\n"),
    Chars("• Lechuga fresca\n"),
    Chars("• Tomate\n"),
    Chars("• Pepino\n"),
    Chars("• Zanahoria rallada\n"),
    Chars("• Aliño simple de limón y "), Chars("aceite\n\n"),
    Chars("La seguridad alimentaria es "), Chars("primero. \"Cuando hay duda, "), Chars("mejor desechar.\"")
  ]

  /** The recipe for a fresh food missing from `recetas`. */
  const GenericRecipeTemplate: seq<Piece> := [
    Chars(RecipeLabel), FoodUpper, Chars("**\n\n"),
    Chars("⏱️ **15 minutos** | 🟢 **Fácil** "), Chars("| 🌱 **Saludable**\n\n"),
    Chars("🥗 **Ensalada básica:**\n"),
    Chars("• Corta "), Food, Chars(" en cubos o rodajas\n"),
    Chars("• Combina con verduras frescas\n"),
    Chars("• Aliña con aceite de oliva y "), Chars("limón\n\n"),
    Chars("🔥 **Versión salteada:**\n"),
    Chars("1. Saltea "), Food, Chars(" con ajo y cebolla\n"),
    Chars("2. Añade especias al gusto\n"),
    Chars("3. Sirve con arroz o quinoa\n\n"),
    Chars("💡 **Consejo:** La frescura es "), Chars("clave para el sabor.")
  ]

  /** The answer to any other request for a spoiled food. */
  const SpoiledStorageTemplate: seq<Piece> := [Chars(AlertLabel), FoodUpper] + FixedText(SpoiledStorageBody)

  /** What follows the food in `SpoiledStorageTemplate`, paragraph by paragraph. */
  const SpoiledStorageBody: seq<string> := SpoiledStorageBody0 + SpoiledStorageBody1 + SpoiledStorageBody2 + SpoiledStorageBody3 + SpoiledStorageBody4
  const SpoiledStorageBody0: seq<string> := [
    " EN MAL ESTADO**\n\n"
  ]
  const SpoiledStorageBody1: seq<string> := [
    "🔴 **NO CONSUMAS si observas:**\n",
    "• Moho (puntos verdes, blancos, ", "negros)\n",
    "• Olor agrio o fermentado\n",
    "• Textura viscosa o babosa\n",
    "• Decoloración severa\n\n"
  ]
  const SpoiledStorageBody2: seq<string> := [
    "🟡 **Acciones inmediatas:**\n",
    "1. **Aísla** para evitar ", "contaminación cruzada\n",
    "2. **Limpia** el área con agua ", "y jabón\n",
    "3. **Desecha** en bolsa sellada\n",
    "4. **Revisa** alimentos ", "cercanos\n\n"
  ]
  const SpoiledStorageBody3: seq<string> := [
    "✅ **Prevención futura:**\n",
    "• Almacena en condiciones ", "adecuadas\n",
    "• Usa primero los más maduros\n",
    "• Revisa regularmente\n",
    "• No laves hasta el momento de ", "usar\n\n"
  ]
  const SpoiledStorageBody4: seq<string> := [
    "💡 **Regla de oro:** \"Cuando hay ", "duda, mejor desechar.\""
  ]



  /** The conservation advice for a fresh food missing from `consejos`. */
  const GenericStorageTemplate: seq<Piece> := [Chars(StorageLabel), FoodUpper] + FixedText(GenericStorageBody)

  /** What follows the food in `GenericStorageTemplate`, paragraph by paragraph. */
  const GenericStorageBody: seq<string> := GenericStorageBody0 + GenericStorageBody1 + GenericStorageBody2 + GenericStorageBody3 + GenericStorageBody4
  const GenericStorageBody0: seq<string> := [
    "**\n\n"
  ]
  const GenericStorageBody1: seq<string> := [
    "🌡️ **Condiciones ideales:**\n",
    "• Temperatura: 4-8°C ", "(refrigerador)\n",
    "• Humedad: 85-95%\n",
    "• Ventilación: Buena ", "circulación de aire\n\n"
  ]
  const GenericStorageBody2: seq<string> := [
    "📦 **Embalaje recomendado:**\n",
    "• Bolsa de papel perforada\n",
    "• Recipiente ventilado\n",
    "• Evita plástico hermético\n\n"
  ]
  const GenericStorageBody3: seq<string> := [
    "⏱️ **Duración estimada:**\n",
    "• Fresco: 5-7 días\n",
    "• Cortado: 2-3 días\n",
    "• Congelado: 2-3 meses\n\n"
  ]
  const GenericStorageBody4: seq<string> := [
    "🚫 **Errores comunes:**\n",
    "1. Lavar antes de guardar\n",
    "2. Almacenar con productores de ", "etileno\n",
    "3. Cambios bruscos de ", "temperatura"
  ]



  /** The wording of api/chat.js. */
  function SourceWording(): Wording
  {
    Wording(RecipeTable(), StorageTable(),
            SpoiledRecipeTemplate, GenericRecipeTemplate,
            SpoiledStorageTemplate, GenericStorageTemplate)
  }

  /** `recetas` is keyed by "platano" and "manzana". */
  lemma RecipeTableKeys()
    ensures RecipeTable().Keys == TableKeys
  {
  }

  /** Every text in `recetas` opens with a non-empty line. */
  lemma RecipeTableNonEmpty()
    ensures forall k | k in RecipeTable() :: |RecipeTable()[k]| > 0 && |RecipeTable()[k][0]| > 0
  {
  }

  /** `consejos` is keyed by "platano" and "manzana". */
  lemma StorageTableKeys()
    ensures StorageTable().Keys == TableKeys
  {
  }

  /** Every text in `consejos` opens with a non-empty line. */
  lemma StorageTableNonEmpty()
    ensures forall k | k in StorageTable() :: |StorageTable()[k]| > 0 && |StorageTable()[k][0]| > 0
  {
  }

  /** The spoiled-recipe answer opens with its header and holds the
      emergency line. */
  lemma SpoiledRecipeShaped()
    ensures Headed(SpoiledRecipeTemplate, NoUseLabel)
    ensures Chars(EmergencyLine) in SpoiledRecipeTemplate
  {
  }

  /** The generic recipe opens with its header and names the food. */
  lemma GenericRecipeShaped()
    ensures Headed(GenericRecipeTemplate, RecipeLabel)
    ensures Food in GenericRecipeTemplate
  {
  }

  /** The spoiled alert opens with its header and names the food only
      upper-cased. */
  lemma SpoiledStorageShaped()
    ensures Headed(SpoiledStorageTemplate, AlertLabel)
    ensures Food !in SpoiledStorageTemplate
  {
  }

  /** The generic conservation advice opens with its header and names the
      food only upper-cased. */
  lemma GenericStorageShaped()
    ensures Headed(GenericStorageTemplate, StorageLabel)
    ensures Food !in GenericStorageTemplate
  {
  }

  /** The wording of api/chat.js has the shape the lemmas about the local
      answer rely on. */
  lemma SourceShaped()
    ensures Shaped(SourceWording())
  {
    RecipeTableKeys();
    RecipeTableNonEmpty();
    StorageTableKeys();
    StorageTableNonEmpty();
    SpoiledRecipeShaped();
    GenericRecipeShaped();
    SpoiledStorageShaped();
    GenericStorageShaped();
  }
}
