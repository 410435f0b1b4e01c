/**
 * The wire shapes shared by the client and the server: the body of
 * `POST /recipes` (`CreateRecipeContract` on the client, `CreateRecipeDto`
 * on the server) and the nested ingredient and step objects, which the
 * persisted document embeds with the same fields.
 *
 * JSON numbers are modelled as `real`; enumerated codes travel as strings
 * and the validators check membership.
 */
module Contract {
  import opened Optional

  /**
   * An ingredient as sent and stored. `extraKeys`, here and in `Step`, names
   * the properties of the nested JSON object that `IngredientDto` (`StepDto`)
   * does not declare, such as a client row `id`.
   */
  datatype Ingredient = Ingredient(name: string, quantity: real, unit: string, extraKeys: set<string>)

  /** A step as sent and stored. */
  datatype Step = Step(
    order: real,
    instruction: string,
    duration: Option<real>,
    durationUnit: Option<string>,
    temperature: Option<real>,
    temperatureUnit: Option<string>,
    note: Option<string>,
    extraKeys: set<string>)

  /**
   * A create request body. `extraKeys` holds the names of any properties of
   * the JSON object that the DTO does not declare (a client-sent `cookTime`,
   * for instance); the client mapper never produces any.
   */
  datatype RecipePayload = RecipePayload(
    title: string,
    description: string,
    ingredients: seq<Ingredient>,
    steps: seq<Step>,
    imageUrl: Option<string>,
    prepTime: Option<real>,
    servings: Option<real>,
    difficulty: Option<string>,
    category: Option<string>,
    extraKeys: set<string>)

  /** The eight category codes both validators accept. */
  const Categories: set<string> :=
    {"appetizer", "starter", "main_course", "side_dish", "dessert", "snack", "beverage", "sauce"}

  const Difficulties: set<string> := {"easy", "medium", "hard"}

  const DurationUnits: set<string> := {"min", "sec"}

  const TemperatureUnits: set<string> := {"C", "F"}
}
