/**
 * The create pipeline across client and server: a form the client accepts,
 * mapped to the wire body, checked by the server, and stored with its derived
 * cook time. The two rule sets differ: the client checks raw lengths only,
 * has no upper bounds and lets durations and temperatures be negative.
 */
module Pipeline {
  import opened Optional
  import opened Text
  import opened Contract
  import opened Schema
  import opened Dto
  import opened Mapper
  import opened Entity

  /** What the server checks beyond the client, stated on the form value. */
  predicate ServerBoundsAfterTrim(f: RecipeForm) {
    && BoundedText(Trim(f.title), 150)
    && BoundedText(Trim(f.description), 2000)
    && (forall k :: 0 <= k < |f.ingredients| ==> BoundedText(Trim(f.ingredients[k].name), 150))
    && (forall k :: 0 <= k < |f.steps| ==> StepBoundsAfterTrim(f.steps[k]))
  }

  predicate StepBoundsAfterTrim(s: FormStep) {
    && BoundedText(Trim(s.instruction), 2000)
    && (s.duration.Some? ==> s.duration.value >= 0.0)
    && (s.temperature.Some? ==> s.temperature.value >= 0.0)
    && (s.note.Some? ==> |Trim(s.note.value)| <= 500)
  }

  lemma MappedStepValid(s: FormStep, index: nat)
    requires StepValid(s)
    ensures StepDtoValid(MapStep(s, index)) <==> StepBoundsAfterTrim(s)
  {
    StepFieldsMapped(s, index);
  }

  lemma MappedIngredientsValid(f: RecipeForm)
    requires forall k :: 0 <= k < |f.ingredients| ==> IngredientValid(f.ingredients[k])
    ensures var c := MapIngredients(f.ingredients);
      (forall k :: 0 <= k < |c| ==> IngredientDtoValid(c[k]))
      <==> (forall k :: 0 <= k < |f.ingredients| ==> BoundedText(Trim(f.ingredients[k].name), 150))
  {
    IngredientsMapped(f);
  }

  lemma MappedStepsValid(f: RecipeForm)
    requires forall k :: 0 <= k < |f.steps| ==> StepValid(f.steps[k])
    ensures var c := MapSteps(f.steps);
      (forall k :: 0 <= k < |c| ==> StepDtoValid(c[k]))
      <==> (forall k :: 0 <= k < |f.steps| ==> StepBoundsAfterTrim(f.steps[k]))
  {
    var c := MapSteps(f.steps);
    forall k | 0 <= k < |f.steps|
      ensures StepDtoValid(c[k]) <==> StepBoundsAfterTrim(f.steps[k])
    {
      MappedStepValid(f.steps[k], k);
    }
  }

  /**
   * For a form the client accepts, the server accepts the mapped body exactly
   * when the trimmed texts are non-empty and within the server's bounds,
   * durations and temperatures are not negative, and trimmed notes fit 500.
   */
  lemma ClientToServer(f: RecipeForm, isUrl: string -> bool)
    requires FormValid(f)
    ensures DtoValid(ToCreateRecipePayload(f), isUrl) <==> ServerBoundsAfterTrim(f)
  {
    var c := ToCreateRecipePayload(f);
    MappedIngredientsValid(f);
    MappedStepsValid(f);
    OptionalFieldsMapped(f);
    assert |c.ingredients| == |f.ingredients| && |c.steps| == |f.steps|;
    assert c.title == Trim(f.title) && c.description == Trim(f.description);
  }

  /** A blank title passes the client but is rejected by the server once trimmed. */
  lemma BlankTitleRejectedByServer(f: RecipeForm, isUrl: string -> bool)
    requires AllWhitespace(f.title)
    ensures !DtoValid(ToCreateRecipePayload(f), isUrl)
  {
    TrimEmptyIff(f.title);
  }

  /** A negative duration passes the client but is rejected by the server. */
  lemma NegativeDurationRejectedByServer(f: RecipeForm, k: nat, isUrl: string -> bool)
    requires k < |f.steps| && f.steps[k].duration.Some? && f.steps[k].duration.value < 0.0
    ensures !DtoValid(ToCreateRecipePayload(f), isUrl)
  {
    var c := ToCreateRecipePayload(f);
    StepsMapped(f);
    assert c.steps[k].duration == f.steps[k].duration;
    assert !StepDtoValid(c.steps[k]);
  }

  /**
   * The stored document of a mapped form: `cookTime` is the sum of the form's
   * raw durations (its steps are never empty), the enum checks pass, and
   * servings and prepTime are the form's when non-zero and the defaults
   * otherwise.
   */
  lemma StoredFromForm(f: RecipeForm, isUrl: string -> bool)
    requires FormValid(f) && ServerBoundsAfterTrim(f)
    ensures var r := Created(ToCreateRecipePayload(f));
      && r.cookTime >= 0.0
      && (forall j :: 0 <= j < |r.steps| ==> r.steps[j].duration == f.steps[j].duration)
      && r.cookTime == SumDurations(r.steps)
      && EnumsValid(r)
      && r.servings == f.servings.value
      && r.prepTime == f.prepTime.value
  {
    var c := ToCreateRecipePayload(f);
    ClientToServer(f, isUrl);
    forall j | 0 <= j < |c.steps| ensures DurationOrZero(c.steps[j]) >= 0.0 {
      assert StepDtoValid(c.steps[j]);
    }
    CreatedSpec(c);
  }

  /** A recipe with only its required fields, as a form value. */
  const MinimalForm: RecipeForm := RecipeForm(
    "Tarte aux pommes", "Une tarte classique", None, None, None, None,
    [FormIngredient("ing-1", "Pommes", 4.0, "pi\U{00E8}ces")],
    [FormStep("step-1", 0.0, "\U{00C9}plucher les pommes", None, None, None, None, None)])

  /** Its body: already-trimmed texts copied, one step numbered 1, no optional field. */
  lemma MinimalFormMapped()
    ensures ToCreateRecipePayload(MinimalForm) == RecipePayload(
      "Tarte aux pommes", "Une tarte classique",
      [Ingredient("Pommes", 4.0, "pi\U{00E8}ces", {})],
      [Step(1.0, "\U{00C9}plucher les pommes", None, None, None, None, None, {})],
      None, None, None, None, None, {})
  {
    var f := MinimalForm;
    assert IsTrimmed(f.title) && IsTrimmed(f.description);
    assert IsTrimmed(f.ingredients[0].name) && IsTrimmed(f.steps[0].instruction);
    TrimOfTrimmed(f.title);
    TrimOfTrimmed(f.description);
    TrimOfTrimmed(f.ingredients[0].name);
    TrimOfTrimmed(f.steps[0].instruction);
    assert MapIngredients(f.ingredients) == [MapIngredient(f.ingredients[0])];
    assert MapSteps(f.steps) == [MapStep(f.steps[0], 0)];
  }

  /**
   * The end-to-end create of that recipe: the server accepts the body, and
   * the stored document has cook time 0, prep time 0 and the default 4
   * servings. The client form would first ask for category, servings, prep
   * time and difficulty.
   */
  lemma MinimalRecipeEndToEnd(isUrl: string -> bool)
    ensures !FormValid(MinimalForm)
    ensures DtoValid(ToCreateRecipePayload(MinimalForm), isUrl)
    ensures var r := Created(ToCreateRecipePayload(MinimalForm));
      r.cookTime == 0.0 && r.servings == DefaultServings && r.prepTime == DefaultPrepTime
  {
    MinimalFormMapped();
    var c := ToCreateRecipePayload(MinimalForm);
    assert c.steps[..0] == [];
  }
}
