/**
 * The client-side form representation (`RecipeFormData`) and the zod rules of
 * `recipeFormSchema`, one conjunct per rule. zod's `min(1)` on a string is a
 * check on the raw length: nothing is trimmed here.
 */
module Schema {
  import opened Optional
  import opened Contract

  /** An ingredient row of the form; `id` is a client-only key. */
  datatype FormIngredient = FormIngredient(id: string, name: string, quantity: real, unit: string)

  /** A step row of the form; `order` is whatever the row holds. */
  datatype FormStep = FormStep(
    id: string,
    order: real,
    instruction: string,
    duration: Option<real>,
    durationUnit: Option<string>,
    temperature: Option<real>,
    temperatureUnit: Option<string>,
    note: Option<string>)

  /**
   * The form value. The four fields the mapper tests for truthiness are
   * optional here; the schema requires them.
   */
  datatype RecipeForm = RecipeForm(
    title: string,
    description: string,
    category: Option<string>,
    servings: Option<real>,
    prepTime: Option<real>,
    difficulty: Option<string>,
    ingredients: seq<FormIngredient>,
    steps: seq<FormStep>)

  /** `ingredientSchema` */
  predicate IngredientValid(i: FormIngredient) {
    && |i.name| >= 1
    && i.quantity >= 0.0
    && |i.unit| >= 1
  }

  /** `stepSchema`: order, duration and temperature are unconstrained numbers. */
  predicate StepValid(s: FormStep) {
    && |s.instruction| >= 1
    && (s.durationUnit.Some? ==> s.durationUnit.value in DurationUnits)
    && (s.temperatureUnit.Some? ==> s.temperatureUnit.value in TemperatureUnits)
  }

  /** `recipeFormSchema` */
  predicate FormValid(f: RecipeForm) {
    && |f.title| >= 1
    && |f.description| >= 1
    && f.category.Some? && f.category.value in Categories
    && f.servings.Some? && 1.0 <= f.servings.value <= 100.0
    && f.prepTime.Some? && f.prepTime.value >= 0.0
    && f.difficulty.Some? && f.difficulty.value in Difficulties
    && |f.ingredients| >= 1
    && (forall k :: 0 <= k < |f.ingredients| ==> IngredientValid(f.ingredients[k]))
    && |f.steps| >= 1
    && (forall k :: 0 <= k < |f.steps| ==> StepValid(f.steps[k]))
  }

  /** The complete recipe the schema's own tests accept. */
  function SampleForm(): (f: RecipeForm)
    ensures FormValid(f)
  {
    RecipeForm(
      "Tarte aux pommes", "Une tarte classique",
      Some("dessert"), Some(4.0), Some(30.0), Some("easy"),
      [FormIngredient("ing-1", "Pommes", 4.0, "pi\U{00E8}ces")],
      [FormStep("step-1", 1.0, "\U{00C9}plucher les pommes", None, None, None, None, None)])
  }

  /** Servings are accepted exactly in [1, 100]: 0 and 101 are rejected, 100 accepted. */
  lemma ServingsBounds(f: RecipeForm, n: real)
    requires FormValid(f)
    ensures FormValid(f.(servings := Some(n))) <==> 1.0 <= n <= 100.0
    ensures !FormValid(f.(servings := Some(0.0))) && !FormValid(f.(servings := Some(101.0)))
    ensures FormValid(f.(servings := Some(100.0)))
  {
  }

  /** Title and description are checked on raw length: empty is rejected, blank is accepted. */
  lemma TitleAndDescriptionRawLength(f: RecipeForm)
    requires FormValid(f)
    ensures !FormValid(f.(title := "")) && !FormValid(f.(description := ""))
    ensures FormValid(f.(title := " ")) && FormValid(f.(description := "\t"))
  {
  }

  /** Category and difficulty are required and must be known codes. */
  lemma CategoryAndDifficultyRequired(f: RecipeForm)
    requires FormValid(f)
    ensures !FormValid(f.(category := None)) && !FormValid(f.(category := Some("invalid_category")))
    ensures !FormValid(f.(difficulty := None)) && !FormValid(f.(difficulty := Some("impossible")))
    ensures !FormValid(f.(servings := None)) && !FormValid(f.(prepTime := None))
  {
  }

  /** At least one ingredient and one step are required. */
  lemma ListsNonEmpty(f: RecipeForm)
    requires FormValid(f)
    ensures !FormValid(f.(ingredients := [])) && !FormValid(f.(steps := []))
  {
  }

  /** The client accepts negative step durations and temperatures. */
  lemma NegativeTimingAccepted(f: RecipeForm, s: FormStep)
    requires FormValid(f) && StepValid(s)
    ensures FormValid(f.(steps := [s.(duration := Some(-5.0), temperature := Some(-1.0))]))
  {
  }
}
