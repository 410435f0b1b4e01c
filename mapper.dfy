/**
 * `toCreateRecipePayload`: the form value becomes the wire body. Strings are
 * trimmed, client ids dropped, steps renumbered 1..N by position, and an
 * optional key is emitted only under the test the source applies to it
 * (`!= undefined` for step timing, truthiness elsewhere).
 */
module Mapper {
  import opened Optional
  import opened Text
  import opened Contract
  import opened Schema

  /** JavaScript truthiness of an optional number (NaN is not modelled) */
  predicate TruthyNumber(x: Option<real>) {
    x.Some? && x.value != 0.0
  }

  /** JavaScript truthiness of an optional string */
  predicate TruthyString(x: Option<string>) {
    x.Some? && x.value != ""
  }

  /** `cond && { key: value }` spread into an object literal */
  function KeepIf<T>(cond: bool, x: Option<T>): Option<T>
    requires cond ==> x.Some?
  {
    if cond then x else None
  }

  function MapIngredient(i: FormIngredient): Ingredient {
    Ingredient(Trim(i.name), i.quantity, i.unit, {})
  }

  function TrimmedNote(note: Option<string>): Option<string> {
    if note.Some? && Trim(note.value) != "" then Some(Trim(note.value)) else None
  }

  function MapStep(s: FormStep, index: nat): Step {
    Step(
      (index + 1) as real,
      Trim(s.instruction),
      s.duration,
      KeepIf(TruthyString(s.durationUnit) && s.duration.Some?, s.durationUnit),
      s.temperature,
      KeepIf(TruthyString(s.temperatureUnit) && s.temperature.Some?, s.temperatureUnit),
      TrimmedNote(s.note),
      {})
  }

  /** `ingredients.map(...)` */
  function MapIngredients(ingredients: seq<FormIngredient>): seq<Ingredient> {
    seq(|ingredients|, k requires 0 <= k < |ingredients| => MapIngredient(ingredients[k]))
  }

  /** `steps.map((s, index) => ...)` */
  function MapSteps(steps: seq<FormStep>): seq<Step> {
    seq(|steps|, k requires 0 <= k < |steps| => MapStep(steps[k], k))
  }

  function ToCreateRecipePayload(f: RecipeForm): RecipePayload {
    RecipePayload(
      Trim(f.title),
      Trim(f.description),
      MapIngredients(f.ingredients),
      MapSteps(f.steps),
      None,
      KeepIf(TruthyNumber(f.prepTime), f.prepTime),
      KeepIf(TruthyNumber(f.servings), f.servings),
      KeepIf(TruthyString(f.difficulty), f.difficulty),
      KeepIf(TruthyString(f.category), f.category),
      {})
  }

  /** Title and description are the trimmed inputs and carry no surrounding whitespace. */
  lemma TitleAndDescriptionTrimmed(f: RecipeForm)
    ensures ToCreateRecipePayload(f).title == Trim(f.title)
    ensures ToCreateRecipePayload(f).description == Trim(f.description)
    ensures IsTrimmed(ToCreateRecipePayload(f).title) && IsTrimmed(ToCreateRecipePayload(f).description)
    ensures Trim(ToCreateRecipePayload(f).title) == ToCreateRecipePayload(f).title
  {
    TrimSpec(f.title);
    TrimSpec(f.description);
    TrimIdempotent(f.title);
  }

  /**
   * Ingredients keep their number and order; each is its trimmed name,
   * quantity and unit, and carries no other property (the row id is dropped).
   */
  lemma IngredientsMapped(f: RecipeForm)
    ensures |ToCreateRecipePayload(f).ingredients| == |f.ingredients|
    ensures forall k :: 0 <= k < |f.ingredients| ==>
      var out := ToCreateRecipePayload(f).ingredients[k];
      out.name == Trim(f.ingredients[k].name) && IsTrimmed(out.name)
      && out.quantity == f.ingredients[k].quantity && out.unit == f.ingredients[k].unit
      && out.extraKeys == {}
  {
    var out := ToCreateRecipePayload(f).ingredients;
    assert out == MapIngredients(f.ingredients);
    forall k | 0 <= k < |f.ingredients|
      ensures out[k] == MapIngredient(f.ingredients[k]) && IsTrimmed(Trim(f.ingredients[k].name))
    {
      TrimSpec(f.ingredients[k].name);
    }
  }

  /**
   * Steps keep their number; step k is given order k + 1 whatever the input
   * orders were, so the orders are 1..N, pairwise distinct and at least 1.
   */
  lemma StepsRenumbered(f: RecipeForm)
    ensures |ToCreateRecipePayload(f).steps| == |f.steps|
    ensures forall k :: 0 <= k < |f.steps| ==> ToCreateRecipePayload(f).steps[k].order == (k + 1) as real
    ensures forall j, k :: 0 <= j < k < |f.steps| ==>
      1.0 <= ToCreateRecipePayload(f).steps[j].order < ToCreateRecipePayload(f).steps[k].order
  {
    var out := ToCreateRecipePayload(f).steps;
    assert out == MapSteps(f.steps);
    forall k | 0 <= k < |f.steps| ensures out[k].order == (k + 1) as real {
      assert out[k] == MapStep(f.steps[k], k);
    }
  }

  /** Renumbering ignores the input orders entirely: duplicates such as 99/99 become 1/2. */
  lemma RenumberingIgnoresInputOrders(f: RecipeForm, g: RecipeForm)
    requires |f.steps| == |g.steps|
    requires forall k :: 0 <= k < |f.steps| ==> f.steps[k].(order := 0.0) == g.steps[k].(order := 0.0)
    ensures ToCreateRecipePayload(f).steps == ToCreateRecipePayload(g).steps
  {
    var a := ToCreateRecipePayload(f).steps;
    var b := ToCreateRecipePayload(g).steps;
    StepsMapped(f);
    StepsMapped(g);
    forall k | 0 <= k < |a| ensures a[k] == b[k] {
      var x, y := f.steps[k], g.steps[k];
      assert x.(order := 0.0).instruction == y.(order := 0.0).instruction;
      assert x.(order := 0.0).note == y.(order := 0.0).note;
    }
  }

  /**
   * What the mapper sends for the row `s` at position `index`: order
   * `index + 1`; the trimmed instruction; the duration exactly as given
   * (defined includes 0); its unit exactly when it is set and the duration
   * is defined; the same pairing for temperature; the note exactly when its
   * trimmed text is non-empty, and then that trimmed text; and no other
   * property (the row id is dropped).
   */
  predicate StepSentFor(out: Step, s: FormStep, index: nat) {
    && out.order == (index + 1) as real
    && out.instruction == Trim(s.instruction) && IsTrimmed(out.instruction)
    && out.duration == s.duration
    && (out.durationUnit.Some? <==> TruthyString(s.durationUnit) && s.duration.Some?)
    && (out.durationUnit.Some? ==> out.durationUnit == s.durationUnit)
    && out.temperature == s.temperature
    && (out.temperatureUnit.Some? <==> TruthyString(s.temperatureUnit) && s.temperature.Some?)
    && (out.temperatureUnit.Some? ==> out.temperatureUnit == s.temperatureUnit)
    && (out.note.Some? <==> s.note.Some? && Trim(s.note.value) != "")
    && (out.note.Some? ==> out.note.value == Trim(s.note.value) && IsTrimmed(out.note.value))
    && out.extraKeys == {}
  }

  lemma StepFieldsMapped(s: FormStep, index: nat)
    ensures StepSentFor(MapStep(s, index), s, index)
  {
    TrimSpec(s.instruction);
    if s.note.Some? {
      TrimSpec(s.note.value);
    }
  }

  /** The body has one step per row, and each is what the mapper sends for its row at its position. */
  lemma StepsMapped(f: RecipeForm)
    ensures |ToCreateRecipePayload(f).steps| == |f.steps|
    ensures forall k :: 0 <= k < |f.steps| ==> StepSentFor(ToCreateRecipePayload(f).steps[k], f.steps[k], k)
  {
    var out := ToCreateRecipePayload(f).steps;
    assert out == MapSteps(f.steps);
    forall k | 0 <= k < |f.steps| ensures StepSentFor(out[k], f.steps[k], k) {
      assert out[k] == MapStep(f.steps[k], k);
      StepFieldsMapped(f.steps[k], k);
    }
  }

  /** A zero duration is a defined duration: it and its unit are both kept. */
  lemma ZeroDurationKept(s: FormStep, index: nat)
    requires s.duration == Some(0.0) && s.durationUnit == Some("min")
    ensures MapStep(s, index).duration == Some(0.0) && MapStep(s, index).durationUnit == Some("min")
  {
  }

  /**
   * Top-level optional fields: servings and prepTime only when non-zero,
   * difficulty and category only when non-empty; no image URL and no
   * undeclared key is ever produced.
   */
  lemma OptionalFieldsMapped(f: RecipeForm)
    ensures var out := ToCreateRecipePayload(f);
      && (out.servings.Some? <==> TruthyNumber(f.servings)) && (out.servings.Some? ==> out.servings == f.servings)
      && (out.prepTime.Some? <==> TruthyNumber(f.prepTime)) && (out.prepTime.Some? ==> out.prepTime == f.prepTime)
      && (out.difficulty.Some? <==> TruthyString(f.difficulty)) && (out.difficulty.Some? ==> out.difficulty == f.difficulty)
      && (out.category.Some? <==> TruthyString(f.category)) && (out.category.Some? ==> out.category == f.category)
      && out.imageUrl.None? && out.extraKeys == {}
  {
  }

  /** A prepTime or servings of 0 is dropped (falsy), not sent as 0. */
  lemma ZeroPrepTimeOmitted(f: RecipeForm)
    requires f.prepTime == Some(0.0) && f.servings == Some(0.0)
    ensures ToCreateRecipePayload(f).prepTime.None? && ToCreateRecipePayload(f).servings.None?
  {
  }

  /** The surrounding spaces of the mapper's own test values are removed. */
  lemma TrimExamples()
    ensures Trim("  " + "Tarte aux pommes" + "  ") == "Tarte aux pommes"
    ensures Trim("  " + "Pommes" + "  ") == "Pommes"
  {
    assert IsTrimmed("Tarte aux pommes") && IsTrimmed("Pommes");
    TrimPadded("Tarte aux pommes");
    TrimPadded("Pommes");
  }

  /** Two spaces on each side of a trimmed text are removed by `trim`. */
  lemma TrimPadded(t: string)
    requires IsTrimmed(t) && t != ""
    ensures Trim("  " + t + "  ") == t
  {
    var s := "  " + t + "  ";
    var u := t + "  ";
    assert s[1..][1..] == u;
    assert TrimStart(s) == TrimStart(s[1..]) == TrimStart(u) == u;
    assert u[..|u| - 1] == t + " " && (t + " ")[..|t|] == t;
    assert TrimEnd(u) == TrimEnd(t + " ") == TrimEnd(t) == t;
  }

  /** Two steps that both hold order 99 are sent as orders 1 and 2. */
  lemma DuplicateOrdersRenumbered(a: FormStep, b: FormStep)
    requires a.order == 99.0 && b.order == 99.0
    ensures var out := MapSteps([a, b]); out[0].order == 1.0 && out[1].order == 2.0
  {
  }
}
