/**
 * The server-side rules of `CreateRecipeDto`, `StepDto` and `IngredientDto`
 * as the global validation pipe applies them: `@IsOptional` skips an absent
 * field, `@IsNotEmpty` rejects only the empty string, `@MaxLength` bounds the
 * raw length, and every property the DTO does not declare is rejected
 * (`forbidNonWhitelisted`), at the top level and, through `@ValidateNested`,
 * inside every ingredient and step. `isUrl` stands for class-validator's `@IsUrl`.
 */
module Dto {
  import opened Optional
  import opened Contract

  predicate BoundedText(s: string, max: nat) {
    s != "" && |s| <= max
  }

  /** `StepDto`: each step is checked on its own. */
  predicate StepDtoValid(s: Step) {
    && s.order >= 1.0
    && BoundedText(s.instruction, 2000)
    && (s.duration.Some? ==> s.duration.value >= 0.0)
    && (s.durationUnit.Some? ==> s.durationUnit.value in DurationUnits)
    && (s.temperature.Some? ==> s.temperature.value >= 0.0)
    && (s.temperatureUnit.Some? ==> s.temperatureUnit.value in TemperatureUnits)
    && (s.note.Some? ==> |s.note.value| <= 500)
    && s.extraKeys == {}
  }

  /** `IngredientDto`: the unit is any non-empty string. */
  predicate IngredientDtoValid(i: Ingredient) {
    && BoundedText(i.name, 150)
    && i.quantity >= 0.0
    && i.unit != ""
    && i.extraKeys == {}
  }

  /** `CreateRecipeDto` */
  predicate DtoValid(c: RecipePayload, isUrl: string -> bool) {
    && BoundedText(c.title, 150)
    && BoundedText(c.description, 2000)
    && |c.ingredients| >= 1
    && (forall k :: 0 <= k < |c.ingredients| ==> IngredientDtoValid(c.ingredients[k]))
    && |c.steps| >= 1
    && (forall k :: 0 <= k < |c.steps| ==> StepDtoValid(c.steps[k]))
    && (c.imageUrl.Some? ==> isUrl(c.imageUrl.value))
    && (c.prepTime.Some? ==> c.prepTime.value >= 0.0)
    && (c.servings.Some? ==> 1.0 <= c.servings.value <= 100.0)
    && (c.difficulty.Some? ==> c.difficulty.value in Difficulties)
    && (c.category.Some? ==> c.category.value in Categories)
    && c.extraKeys == {}
  }

  /**
   * Steps are checked one by one: duplicate or non-contiguous orders pass, and
   * so does a unit without a duration.
   */
  lemma StepRulesArePerStep(c: RecipePayload, isUrl: string -> bool, s: Step)
    requires DtoValid(c, isUrl)
    requires StepDtoValid(s) && s.duration.None?
    ensures DtoValid(c.(steps := [s.(order := 7.0), s.(order := 7.0, durationUnit := Some("sec"))]), isUrl)
  {
  }

  /** A property the DTO does not declare, such as `cookTime`, is rejected. */
  lemma UndeclaredKeyRejected(c: RecipePayload, isUrl: string -> bool)
    ensures !DtoValid(c.(extraKeys := c.extraKeys + {"cookTime"}), isUrl)
  {
  }

  /**
   * An undeclared property inside a nested object, such as the client row
   * `id` on an ingredient or a step, is rejected too.
   */
  lemma NestedUndeclaredKeyRejected(c: RecipePayload, isUrl: string -> bool, k: nat)
    ensures k < |c.ingredients| ==>
      !DtoValid(c.(ingredients := c.ingredients[k := c.ingredients[k].(extraKeys := {"id"})]), isUrl)
    ensures k < |c.steps| ==>
      !DtoValid(c.(steps := c.steps[k := c.steps[k].(extraKeys := {"id"})]), isUrl)
  {
    if k < |c.ingredients| {
      var d := c.(ingredients := c.ingredients[k := c.ingredients[k].(extraKeys := {"id"})]);
      assert !IngredientDtoValid(d.ingredients[k]);
    }
    if k < |c.steps| {
      var d := c.(steps := c.steps[k := c.steps[k].(extraKeys := {"id"})]);
      assert !StepDtoValid(d.steps[k]);
    }
  }

  /** Optional fields may be left out, and a present one must respect its bound. */
  lemma OptionalFieldBounds(c: RecipePayload, isUrl: string -> bool)
    requires DtoValid(c, isUrl)
    ensures DtoValid(c.(prepTime := None, servings := None, difficulty := None, category := None, imageUrl := None), isUrl)
    ensures !DtoValid(c.(servings := Some(0.0)), isUrl) && !DtoValid(c.(servings := Some(101.0)), isUrl)
    ensures !DtoValid(c.(prepTime := Some(-1.0)), isUrl)
    ensures !DtoValid(c.(category := Some("invalid_category")), isUrl)
    ensures !DtoValid(c.(difficulty := Some("impossible")), isUrl)
  {
  }

  /** Length bounds: a 151-character title is rejected, a blank one is accepted. */
  lemma TitleBounds(c: RecipePayload, isUrl: string -> bool)
    requires DtoValid(c, isUrl)
    ensures !DtoValid(c.(title := seq(151, _ => 'a')), isUrl)
    ensures DtoValid(c.(title := seq(150, _ => 'a')), isUrl)
    ensures DtoValid(c.(title := " "), isUrl)
    ensures !DtoValid(c.(title := ""), isUrl)
  {
  }
}
