/** The plate '🍽️' that makes the handler label an answer
    'local_fallback' appears in neither table of api/chat.js
    (api/chat.js:214-335) nor in the fixed text of either conservation
    template (api/chat.js:379-421): `PlateFree(SourceWording())`. The
    lemmas on numbered paragraphs check one paragraph each for the plate's
    first character; the others put them together. */
module WordingPlateFree {
  import opened LocalAdvice
  import opened ChatWording

  lemma PlatanoRecipe0PlateFree()
    ensures forall i | 0 <= i < |PlatanoRecipe0| :: PlateChar !in PlatanoRecipe0[i]
  {
  }

  lemma PlatanoRecipe1PlateFree()
    ensures forall i | 0 <= i < |PlatanoRecipe1| :: PlateChar !in PlatanoRecipe1[i]
  {
  }

  lemma PlatanoRecipe2PlateFree()
    ensures forall i | 0 <= i < |PlatanoRecipe2| :: PlateChar !in PlatanoRecipe2[i]
  {
  }

  lemma PlatanoRecipe3PlateFree()
    ensures forall i | 0 <= i < |PlatanoRecipe3| :: PlateChar !in PlatanoRecipe3[i]
  {
  }

  lemma PlatanoRecipe4PlateFree()
    ensures forall i | 0 <= i < |PlatanoRecipe4| :: PlateChar !in PlatanoRecipe4[i]
  {
  }

  lemma PlatanoRecipe5PlateFree()
    ensures forall i | 0 <= i < |PlatanoRecipe5| :: PlateChar !in PlatanoRecipe5[i]
  {
  }

  lemma PlatanoRecipe6PlateFree()
    ensures forall i | 0 <= i < |PlatanoRecipe6| :: PlateChar !in PlatanoRecipe6[i]
  {
  }

  lemma PlatanoRecipe7PlateFree()
    ensures forall i | 0 <= i < |PlatanoRecipe7| :: PlateChar !in PlatanoRecipe7[i]
  {
  }

  /** No line of `PlatanoRecipe` shows the plate. */
  lemma PlatanoRecipePlateFree()
    ensures forall i | 0 <= i < |PlatanoRecipe| :: PlateChar !in PlatanoRecipe[i]
  {
    PlatanoRecipe0PlateFree();
    PlatanoRecipe1PlateFree();
    PlatanoRecipe2PlateFree();
    PlatanoRecipe3PlateFree();
    PlatanoRecipe4PlateFree();
    PlatanoRecipe5PlateFree();
    PlatanoRecipe6PlateFree();
    PlatanoRecipe7PlateFree();
  }

  lemma ManzanaRecipe0PlateFree()
    ensures forall i | 0 <= i < |ManzanaRecipe0| :: PlateChar !in ManzanaRecipe0[i]
  {
  }

  lemma ManzanaRecipe1PlateFree()
    ensures forall i | 0 <= i < |ManzanaRecipe1| :: PlateChar !in ManzanaRecipe1[i]
  {
  }

  lemma ManzanaRecipe2PlateFree()
    ensures forall i | 0 <= i < |ManzanaRecipe2| :: PlateChar !in ManzanaRecipe2[i]
  {
  }

  lemma ManzanaRecipe3PlateFree()
    ensures forall i | 0 <= i < |ManzanaRecipe3| :: PlateChar !in ManzanaRecipe3[i]
  {
  }

  lemma ManzanaRecipe4PlateFree()
    ensures forall i | 0 <= i < |ManzanaRecipe4| :: PlateChar !in ManzanaRecipe4[i]
  {
  }

  lemma ManzanaRecipe5PlateFree()
    ensures forall i | 0 <= i < |ManzanaRecipe5| :: PlateChar !in ManzanaRecipe5[i]
  {
  }

  lemma ManzanaRecipe6PlateFree()
    ensures forall i | 0 <= i < |ManzanaRecipe6| :: PlateChar !in ManzanaRecipe6[i]
  {
  }

  /** No line of `ManzanaRecipe` shows the plate. */
  lemma ManzanaRecipePlateFree()
    ensures forall i | 0 <= i < |ManzanaRecipe| :: PlateChar !in ManzanaRecipe[i]
  {
    ManzanaRecipe0PlateFree();
    ManzanaRecipe1PlateFree();
    ManzanaRecipe2PlateFree();
    ManzanaRecipe3PlateFree();
    ManzanaRecipe4PlateFree();
    ManzanaRecipe5PlateFree();
    ManzanaRecipe6PlateFree();
  }

  lemma PlatanoStorage0PlateFree()
    ensures forall i | 0 <= i < |PlatanoStorage0| :: PlateChar !in PlatanoStorage0[i]
  {
  }

  lemma PlatanoStorage1PlateFree()
    ensures forall i | 0 <= i < |PlatanoStorage1| :: PlateChar !in PlatanoStorage1[i]
  {
  }

  lemma PlatanoStorage2PlateFree()
    ensures forall i | 0 <= i < |PlatanoStorage2| :: PlateChar !in PlatanoStorage2[i]
  {
  }

  lemma PlatanoStorage3PlateFree()
    ensures forall i | 0 <= i < |PlatanoStorage3| :: PlateChar !in PlatanoStorage3[i]
  {
  }

  lemma PlatanoStorage4PlateFree()
    ensures forall i | 0 <= i < |PlatanoStorage4| :: PlateChar !in PlatanoStorage4[i]
  {
  }

  lemma PlatanoStorage5PlateFree()
    ensures forall i | 0 <= i < |PlatanoStorage5| :: PlateChar !in PlatanoStorage5[i]
  {
  }

  /** No line of `PlatanoStorage` shows the plate. */
  lemma PlatanoStoragePlateFree()
    ensures forall i | 0 <= i < |PlatanoStorage| :: PlateChar !in PlatanoStorage[i]
  {
    PlatanoStorage0PlateFree();
    PlatanoStorage1PlateFree();
    PlatanoStorage2PlateFree();
    PlatanoStorage3PlateFree();
    PlatanoStorage4PlateFree();
    PlatanoStorage5PlateFree();
  }

  lemma ManzanaStorage0PlateFree()
    ensures forall i | 0 <= i < |ManzanaStorage0| :: PlateChar !in ManzanaStorage0[i]
  {
  }

  lemma ManzanaStorage1PlateFree()
    ensures forall i | 0 <= i < |ManzanaStorage1| :: PlateChar !in ManzanaStorage1[i]
  {
  }

  lemma ManzanaStorage2PlateFree()
    ensures forall i | 0 <= i < |ManzanaStorage2| :: PlateChar !in ManzanaStorage2[i]
  {
  }

  lemma ManzanaStorage3PlateFree()
    ensures forall i | 0 <= i < |ManzanaStorage3| :: PlateChar !in ManzanaStorage3[i]
  {
  }

  lemma ManzanaStorage4PlateFree()
    ensures forall i | 0 <= i < |ManzanaStorage4| :: PlateChar !in ManzanaStorage4[i]
  {
  }

  lemma ManzanaStorage5PlateFree()
    ensures forall i | 0 <= i < |ManzanaStorage5| :: PlateChar !in ManzanaStorage5[i]
  {
  }

  /** No line of `ManzanaStorage` shows the plate. */
  lemma ManzanaStoragePlateFree()
    ensures forall i | 0 <= i < |ManzanaStorage| :: PlateChar !in ManzanaStorage[i]
  {
    ManzanaStorage0PlateFree();
    ManzanaStorage1PlateFree();
    ManzanaStorage2PlateFree();
    ManzanaStorage3PlateFree();
    ManzanaStorage4PlateFree();
    ManzanaStorage5PlateFree();
  }

  lemma SpoiledStorageBody0PlateFree()
    ensures forall i | 0 <= i < |SpoiledStorageBody0| :: PlateChar !in SpoiledStorageBody0[i]
  {
  }

  lemma SpoiledStorageBody1PlateFree()
    ensures forall i | 0 <= i < |SpoiledStorageBody1| :: PlateChar !in SpoiledStorageBody1[i]
  {
  }

  lemma SpoiledStorageBody2PlateFree()
    ensures forall i | 0 <= i < |SpoiledStorageBody2| :: PlateChar !in SpoiledStorageBody2[i]
  {
  }

  lemma SpoiledStorageBody3PlateFree()
    ensures forall i | 0 <= i < |SpoiledStorageBody3| :: PlateChar !in SpoiledStorageBody3[i]
  {
  }

  lemma SpoiledStorageBody4PlateFree()
    ensures forall i | 0 <= i < |SpoiledStorageBody4| :: PlateChar !in SpoiledStorageBody4[i]
  {
  }

  /** No line of `SpoiledStorageBody` shows the plate. */
  lemma SpoiledStorageBodyPlateFree()
    ensures forall i | 0 <= i < |SpoiledStorageBody| :: PlateChar !in SpoiledStorageBody[i]
  {
    SpoiledStorageBody0PlateFree();
    SpoiledStorageBody1PlateFree();
    SpoiledStorageBody2PlateFree();
    SpoiledStorageBody3PlateFree();
    SpoiledStorageBody4PlateFree();
  }

  lemma GenericStorageBody0PlateFree()
    ensures forall i | 0 <= i < |GenericStorageBody0| :: PlateChar !in GenericStorageBody0[i]
  {
  }

  lemma GenericStorageBody1PlateFree()
    ensures forall i | 0 <= i < |GenericStorageBody1| :: PlateChar !in GenericStorageBody1[i]
  {
  }

  lemma GenericStorageBody2PlateFree()
    ensures forall i | 0 <= i < |GenericStorageBody2| :: PlateChar !in GenericStorageBody2[i]
  {
  }

  lemma GenericStorageBody3PlateFree()
    ensures forall i | 0 <= i < |GenericStorageBody3| :: PlateChar !in GenericStorageBody3[i]
  {
  }

  lemma GenericStorageBody4PlateFree()
    ensures forall i | 0 <= i < |GenericStorageBody4| :: PlateChar !in GenericStorageBody4[i]
  {
  }

  /** No line of `GenericStorageBody` shows the plate. */
  lemma GenericStorageBodyPlateFree()
    ensures forall i | 0 <= i < |GenericStorageBody| :: PlateChar !in GenericStorageBody[i]
  {
    GenericStorageBody0PlateFree();
    GenericStorageBody1PlateFree();
    GenericStorageBody2PlateFree();
    GenericStorageBody3PlateFree();
    GenericStorageBody4PlateFree();
  }

  /** No line of a text in `recetas` shows the plate. */
  lemma RecipeTablePlateFree()
    ensures forall k, i | k in RecipeTable() && 0 <= i < |RecipeTable()[k]| :: PlateChar !in RecipeTable()[k][i]
  {
    PlatanoRecipePlateFree();
    ManzanaRecipePlateFree();
  }

  /** No line of a text in `consejos` shows the plate. */
  lemma StorageTablePlateFree()
    ensures forall k, i | k in StorageTable() && 0 <= i < |StorageTable()[k]| :: PlateChar !in StorageTable()[k][i]
  {
    PlatanoStoragePlateFree();
    ManzanaStoragePlateFree();
  }

  /** No fixed piece of the spoiled alert shows the plate. */
  lemma SpoiledStoragePlateFree()
    ensures forall i | 0 <= i < |SpoiledStorageTemplate| && SpoiledStorageTemplate[i].Chars? ::
              PlateChar !in SpoiledStorageTemplate[i].text
  {
    SpoiledStorageBodyPlateFree();
    assert PlateChar !in AlertLabel;
  }

  /** No fixed piece of the generic conservation advice shows the plate. */
  lemma GenericStoragePlateFree()
    ensures forall i | 0 <= i < |GenericStorageTemplate| && GenericStorageTemplate[i].Chars? ::
              PlateChar !in GenericStorageTemplate[i].text
  {
    GenericStorageBodyPlateFree();
    assert PlateChar !in StorageLabel;
  }

  /** The wording of api/chat.js is plate-free. */
  lemma SourcePlateFree()
    ensures PlateFree(SourceWording())
  {
    RecipeTablePlateFree();
    StorageTablePlateFree();
    SpoiledStoragePlateFree();
    GenericStoragePlateFree();
  }
}
