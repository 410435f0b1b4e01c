# Recipe book: create pipeline, storage and client error handling

A Dafny model of the core of a recipe-book web application, which has a
React/TypeScript client and a NestJS/Mongoose server. The model covers:

- **Client form rules** (`Schema`). The zod schema of the recipe form: title,
  description, category, servings, prep time, difficulty, and the ingredient
  and step rows.
- **Form-to-wire mapping** (`Mapper`). `toCreateRecipePayload` trims texts,
  drops row ids and renumbers steps 1..n. It keeps a step's duration and
  temperature whenever they are defined, 0 included. It keeps a unit only
  when it is set and its value is defined, a note only when its trimmed text
  is non-empty, and each top-level optional field only when it is truthy.
- **Server body rules** (`Dto`). The class-validator rules of
  `CreateRecipeDto`, `StepDto` and `IngredientDto` under a whitelisting,
  non-whitelisted-rejecting validation pipe. An undeclared property is
  rejected at the top level and inside every ingredient and step.
- **Stored document** (`Entity`). Schema defaults, enum constraints and the
  pre-save hook that sets `cookTime` to the sum of the step durations.
  The hook is modelled as an in-place update of a `RecipeDocument` object.
- **Service** (`Service`). `RecipesService` over an injected recipe model
  whose documents are a mutable map. The ObjectId check comes before any
  store access. Missing documents give NotFound, and update and delete go
  through the store's find-and-modify calls.
- **Environment validation** (`EnvValidation`). The zod schema for
  `MONGO_URI`, `PORT` and `FRONTEND_URL`, with the formatted failure message.
- **Client fetch wrapper** (`ApiClient`). `apiFetch`, `ApiError`,
  `NetworkError` and the per-status default messages.
- **Display labels** (`Labels`). Category, unit and difficulty labels, with
  their fallbacks.
- **Row factories** (`FreshIds`, `StepFactory`, `IngredientFactory`). Blank
  step and ingredient rows with fresh ids.
- **Pipeline** (`Pipeline`). The create pipeline end to end: which
  client-accepted forms the server then accepts, and what it stores.

Modelling choices:

- JSON numbers are `real`; the port is an `int`.
- Enum values are strings checked against the shipped sets.
- Two predicates the application takes from libraries are parameters: URL
  validity (`isUrl`) and ObjectId well-formedness (`isValidId`).
- The identifier generator is the `IdSource` object. Its invariant is that
  every id it hands out is new.

Behaviours of the code the model keeps:

- The client and server rule sets are not the same. The client checks raw
  lengths only. It sets no upper bounds on title, description or instruction
  lengths. It accepts negative durations and temperatures. The server
  applies upper bounds to the trimmed texts the mapper sends, rejects negative
  numbers, and accepts a body
  without category, servings, prep time or difficulty.
  `Pipeline.ClientToServer` states exactly when a client-accepted form passes
  the server.
- A step whose duration is 0 keeps its duration unit. `duration: 0` is
  defined, so the mapper keeps the unit.
- Updating a recipe does not recompute `cookTime`. The pre-save hook runs
  on `save`, not on `findByIdAndUpdate`.
- `apiFetch` returns `response.json()` without awaiting it. An ok response
  with an unparsable body therefore rejects with the parse error itself
  (`BodyRejected`), not with a `NetworkError`.
- An error response whose body is JSON `null` makes `body.message` throw a
  TypeError. That error is caught and becomes the default `NetworkError`.

## Model

| member | source | states |
|---|---|---|
| Text.TrimStartSpec | frontend/src/features/recipes/mapper.ts:6-7 | the result is a suffix of the input, everything dropped is whitespace, and the result does not start with whitespace |
| Text.TrimEndSpec | frontend/src/features/recipes/mapper.ts:6-7 | the result is a prefix of the input, everything dropped is whitespace, and the result does not end with whitespace |
| Text.TrimSpec | frontend/src/features/recipes/mapper.ts:6-7 | `trim` returns a slice of its input that neither starts nor ends with whitespace, with only whitespace cut on either side |
| Text.TrimOfTrimmed | frontend/src/features/recipes/mapper.ts:6-7 | trimming a string without outer whitespace leaves it unchanged |
| Text.TrimIdempotent | frontend/src/features/recipes/mapper.ts:6-7 | trimming twice equals trimming once |
| Text.TrimEmptyIff | frontend/src/features/recipes/mapper.ts:6-7 | `trim` gives the empty string exactly when the input is all whitespace |
| Text.TrimShortens | frontend/src/features/recipes/mapper.ts:6-7 | trimming never lengthens a string |
| Schema.SampleForm | frontend/src/features/recipes/schema.test.ts:17-32 | the complete sample recipe used by the client satisfies the form schema |
| Schema.ServingsBounds | frontend/src/features/recipes/schema.ts:34-37 | servings is accepted exactly in [1, 100]; 0 and 101 are rejected and 100 is accepted |
| Schema.TitleAndDescriptionRawLength | frontend/src/features/recipes/schema.ts:22-23 | an empty title or description is rejected; a blank one is accepted, because only the raw length is checked |
| Schema.CategoryAndDifficultyRequired | frontend/src/features/recipes/schema.ts:24-39 | category, difficulty, servings and prep time are required; an unknown category or difficulty code is rejected |
| Schema.ListsNonEmpty | frontend/src/features/recipes/schema.ts:40-43 | a form with no ingredient or no step is rejected |
| Schema.NegativeTimingAccepted | frontend/src/features/recipes/schema.ts:10-19 | the client step schema accepts a negative duration and a negative temperature |
| Dto.StepRulesArePerStep | backend/src/recipes/dto/create-recipe.dto.ts:17-49 | steps are checked one by one: duplicate orders are accepted, and so is a duration unit without a duration |
| Dto.UndeclaredKeyRejected | backend/src/main.ts:12-16 | a body carrying a property the DTO does not declare (such as `cookTime`) is rejected |
| Dto.NestedUndeclaredKeyRejected | backend/src/recipes/dto/create-recipe.dto.ts:77-87 | an ingredient or a step that carries an undeclared property, such as a client row `id`, makes the whole body invalid |
| Dto.OptionalFieldBounds | backend/src/recipes/dto/create-recipe.dto.ts:88-127 | the optional fields may all be absent; a present servings outside [1, 100], a negative prep time or an unknown category or difficulty is rejected |
| Dto.TitleBounds | backend/src/recipes/dto/create-recipe.dto.ts:67-71 | a title of 150 characters is accepted, one of 151 is rejected, a blank title is accepted and an empty one is rejected |
| Mapper.TitleAndDescriptionTrimmed | frontend/src/features/recipes/mapper.ts:6-7 | the body's title and description are the trimmed form texts and have no outer whitespace |
| Mapper.IngredientsMapped | frontend/src/features/recipes/mapper.ts:9-13 | one ingredient per row, in order; the name is trimmed, quantity and unit are copied, and nothing else is sent, so the row id is dropped |
| Mapper.StepsRenumbered | frontend/src/features/recipes/mapper.ts:15-17 | one step per row; step k gets order k+1, so orders are strictly increasing |
| Mapper.RenumberingIgnoresInputOrders | frontend/src/features/recipes/mapper.ts:15-17 | the order values typed into the form never influence the body's steps |
| Mapper.StepFieldsMapped | frontend/src/features/recipes/mapper.ts:15-26 | a mapped step has order index+1 and a trimmed instruction; duration and temperature are copied; each unit is kept exactly when it is set and its value is defined; the note is kept, trimmed, only when its trimmed text is non-empty; the row id is not sent |
| Mapper.StepsMapped | frontend/src/features/recipes/mapper.ts:15-26 | the body has one step per row, and the step at position k satisfies all of the per-step facts above for row k with order k+1 |
| Mapper.ZeroDurationKept | frontend/src/features/recipes/mapper.ts:19-21 | a duration of 0 and its unit are kept |
| Mapper.OptionalFieldsMapped | frontend/src/features/recipes/mapper.ts:28-31 | category, servings, prep time and difficulty are sent exactly when they are truthy, and with the form's value |
| Mapper.ZeroPrepTimeOmitted | frontend/src/features/recipes/mapper.ts:28-31 | prep time 0 and servings 0 are treated as falsy and left out of the body |
| Mapper.TrimPadded | frontend/src/features/recipes/mapper.ts:6-7 | padding a non-empty string that has no outer whitespace with two spaces on each side trims back to it |
| Mapper.TrimExamples | frontend/src/features/recipes/mapper.test.ts:23-38 | the client's padded title and ingredient-name examples trim to the expected texts |
| Mapper.DuplicateOrdersRenumbered | frontend/src/features/recipes/mapper.test.ts:40-45 | two rows that both carry order 99 are sent as orders 1 and 2 |
| Entity.FromDto | backend/src/recipes/entities/recipe.entity.ts:42-85 | a new document copies every given field; absent prep time and servings take the defaults 0 and 4, and cook time starts at 0 |
| Entity.SumDurations | backend/src/recipes/entities/recipe.entity.ts:91-93 | the sum of the step durations, with a missing duration counted as 0, is non-negative when every duration is |
| Entity.SumDurationsAppend | backend/src/recipes/entities/recipe.entity.ts:91-93 | the duration sum of two concatenated step lists is the sum of their sums |
| Entity.SumDurationsIgnoresUnits | backend/src/recipes/entities/recipe.entity.ts:91-93 | the duration sum depends only on the durations and not on their units or the other step fields |
| Entity.CookTimeExamples | backend/src/recipes/entities/recipe.entity.ts:89-95 | durations 10, 15 and an absent one sum to 25, so a missing duration counts as 0; 10 min and 30 sec sum to 40, because units are ignored |
| Entity.DerivedCookTimeSpec | backend/src/recipes/entities/recipe.entity.ts:89-95 | the hook sets cook time to the duration sum when there are steps, ignores any previous value, leaves a step-less recipe unchanged and touches no other field |
| Entity.DerivedCookTimeIdempotent | backend/src/recipes/entities/recipe.entity.ts:89-95 | saving twice gives the same document as saving once |
| Entity.CreatedSpec | backend/src/recipes/recipes.service.ts:24-26 | a created document's cook time is the duration sum, or 0 without steps, and is non-negative when every duration is; absent servings and prep time take the defaults; the enum constraints hold exactly when the body's codes are known |
| Entity.RecipeDocument.constructor | backend/src/recipes/entities/recipe.entity.ts:42-85 | a new document holds exactly the given recipe |
| Entity.RecipeDocument.PreSave | backend/src/recipes/entities/recipe.entity.ts:89-95 | the pre-save hook changes only `cookTime`, to the value the derivation gives |
| Service.ApplyPatchSpec | backend/src/recipes/recipes.service.ts:43-45 | an update overwrites exactly the fields the patch carries and keeps the rest, cook time included; an empty patch changes nothing, and applying a patch twice equals applying it once |
| Service.UpdateKeepsStaleCookTime | backend/src/recipes/recipes.service.ts:43-45 | after steps are replaced by an update, the stored cook time no longer equals their duration sum |
| Service.RecipeModel.constructor | backend/src/recipes/recipes.service.ts:12-16 | the injected model starts with no documents and no calls |
| Service.RecipeModel.Create | backend/src/recipes/recipes.service.ts:25 | `recipeModel.create(dto)` saves, and so stores the created document, with its derived cook time, under a fresh id |
| Service.RecipeModel.Find | backend/src/recipes/recipes.service.ts:29 | `find()` returns every stored document and changes nothing |
| Service.RecipeModel.FindById | backend/src/recipes/recipes.service.ts:34 | `findById` returns the document stored under the id, or nothing |
| Service.RecipeModel.FindByIdAndUpdate | backend/src/recipes/recipes.service.ts:43-45 | with `new: true`, the patched document is stored and returned; an absent id changes nothing |
| Service.RecipeModel.FindByIdAndDelete | backend/src/recipes/recipes.service.ts:54 | the stored document is removed and returned; an absent id changes nothing |
| Service.RecipesService.constructor | backend/src/recipes/recipes.service.ts:12-16 | the service keeps the injected model and establishes its invariant that every stored key is a well-formed id |
| Service.RecipesService.ValidateObjectId | backend/src/recipes/recipes.service.ts:18-22 | an id passes exactly when it is well-formed; otherwise the result is BadRequest with "Invalid recipe ID format" |
| Service.RecipesService.Create | backend/src/recipes/recipes.service.ts:24-26 | the created document is returned and stored under the new id, and nothing else in the store changes |
| Service.RecipesService.FindAll | backend/src/recipes/recipes.service.ts:28-30 | all stored documents are returned, every returned key is a well-formed id, and the store is unchanged |
| Service.RecipesService.FindOne | backend/src/recipes/recipes.service.ts:32-39 | a malformed id gives BadRequest without touching the store; a well-formed id gives the stored document, or NotFound with "Recipe not found" |
| Service.RecipesService.Update | backend/src/recipes/recipes.service.ts:41-50 | a malformed id gives BadRequest and changes nothing; a stored id gives the patched document, which replaces the old one; an absent id gives NotFound and stores nothing |
| Service.RecipesService.Remove | backend/src/recipes/recipes.service.ts:52-59 | a malformed id gives BadRequest and changes nothing; a stored id gives the deleted document, which is removed; an absent id gives NotFound |
| EnvValidation.DecimalDigits | backend/src/config/env.validation.ts:5-9 | the decimal writing of a natural number is a non-empty digit string |
| EnvValidation.DecimalRoundTrip | backend/src/config/env.validation.ts:5-9 | reading back the decimal writing of a number gives that number |
| EnvValidation.ValidateSpec | backend/src/config/env.validation.ts:3-26 | validation succeeds exactly when MONGO_URI is non-empty, PORT (default "3000") reads as an integer in [1, 65535] and a present FRONTEND_URL is a URL; the configuration then carries those values; a failure message starts with "Environment validation failed:" and contains the "path: message" line of every issue |
| EnvValidation.FailureListsIssues | backend/src/config/env.validation.ts:17-22 | a failure message contains the line of every issue the schema reports |
| EnvValidation.PortRoundTrip | backend/src/config/env.validation.ts:5-9 | every in-range port written in decimal is accepted and read back as itself |
| EnvValidation.FormatIssuesListsAll | backend/src/config/env.validation.ts:18-22 | the failure message contains one "path: message" line for every issue |
| EnvValidation.ValidateAcceptsExamples | backend/src/config/env.validation.spec.ts:4-26 | a complete configuration is accepted as given, and a missing PORT defaults to 3000 |
| EnvValidation.ValidateRejectsMissingSettings | backend/src/config/env.validation.spec.ts:28-36 | a missing or empty MONGO_URI and a FRONTEND_URL that is not a URL are rejected |
| EnvValidation.ValidateRejectsBadPorts | backend/src/config/env.validation.spec.ts:38-48 | a non-numeric PORT and one above 65535 are rejected |
| Labels.FindLabel | frontend/src/features/recipes/constants/labels.ts:10-17 | `find` returns nothing exactly when no entry has the value, and otherwise the label of the first entry that has it |
| Labels.LookupSpec | frontend/src/features/recipes/constants/labels.ts:10-17 | a known category code gives the label of the first matching entry; an unknown unit is shown as itself |
| Labels.CategoryFallbacks | frontend/src/features/recipes/constants/labels.ts:10-13 | no category or an empty one gives no label; an unknown code is shown as itself |
| Labels.ShippedUnitLabels | frontend/src/constants/ingredientUnits.ts:1-13 | the unit table gives "g" for g and "pièce(s)" for pcs |
| Labels.ShippedUnitFallback | frontend/src/constants/ingredientUnits.ts:1-13 | a unit missing from the unit table ("pièces") is shown as itself |
| Labels.DifficultyLabelValues | frontend/src/features/recipes/constants/labels.ts:4-8 | exactly easy, medium and hard are labelled, as Facile, Moyen and Difficile |
| ApiClient.NewApiError | frontend/src/lib/api-client.ts:1-11 | an ApiError is named "ApiError" and carries the given message, status and details |
| ApiClient.NewNetworkError | frontend/src/lib/api-client.ts:13-20 | a NetworkError is named "NetworkError" and carries the given message |
| ApiClient.DefaultMessageSpec | frontend/src/lib/api-client.ts:24-37 | statuses 400, 404, 409 and 500 have their own texts, and every other status gets the generic text |
| ApiClient.ListMessageSpec | frontend/src/lib/api-client.ts:56-62 | a list message yields an ApiError whose message is the first item and whose details are the whole list |
| ApiClient.TextMessageSpec | frontend/src/lib/api-client.ts:56-62 | a non-empty string message yields an ApiError with that text and no details |
| ApiClient.DefaultMessageUsed | frontend/src/lib/api-client.ts:53-62 | an unparsable error body, one without a message or one with an empty message yields the status's default text |
| ApiClient.FailureClassification | frontend/src/lib/api-client.ts:53-73 | the result is an ApiError, with the response status, exactly when the server answered non-ok with a non-null body; a timeout gives the timeout text, and every other failure gives the default network text |
| ApiClient.SuccessSpec | frontend/src/lib/api-client.ts:53-65 | only an ok response with a parsable body resolves, and it resolves with that body; an ok unparsable body rejects outside the catch block |
| ApiClient.ApiFetchExamples | frontend/src/lib/api-client.test.ts:38-133 | the client's success, string-message, list-message, empty-body, network and timeout cases |
| FreshIds.IdSource.constructor | frontend/src/features/recipes/factories/step.factory.ts:5 | a new identifier source has issued no id and satisfies its invariant |
| FreshIds.IdSource.Next | frontend/src/features/recipes/factories/step.factory.ts:5 | every id handed out differs from every id handed out before |
| StepFactory.CreateStep | frontend/src/features/recipes/factories/step.factory.ts:3-14 | the new row has a fresh id, the given order (default 1), an empty instruction and no optional field |
| StepFactory.BlankStepSpec | frontend/src/features/recipes/factories/step.factory.ts:3-14 | a blank step fails the step rule until its instruction is non-empty |
| StepFactory.CreateTwoSteps | frontend/src/features/recipes/factories/step.factory.test.ts:5-28 | two rows created one after the other have different ids and the default order 1 |
| IngredientFactory.CreateIngredient | frontend/src/features/recipes/factories/ingredient.factory.ts:3-8 | the new row has a fresh id, an empty name, quantity 1 and unit "g" |
| IngredientFactory.BlankIngredientSpec | frontend/src/features/recipes/factories/ingredient.factory.ts:3-8 | a blank ingredient fails the ingredient rule until its name is non-empty |
| IngredientFactory.CreateTwoIngredients | frontend/src/features/recipes/factories/ingredient.factory.test.ts:14-19 | two rows created one after the other have different ids |
| Pipeline.MappedStepValid | frontend/src/features/recipes/mapper.ts:15-26 | a client-valid step, once mapped, passes the server's step rules exactly when its trimmed texts fit and its duration and temperature are not negative |
| Pipeline.MappedIngredientsValid | frontend/src/features/recipes/mapper.ts:9-13 | client-valid ingredient rows, once mapped, pass the server's rules exactly when each trimmed name fits in 150 characters |
| Pipeline.MappedStepsValid | frontend/src/features/recipes/mapper.ts:15-26 | client-valid step rows, once mapped, pass the server's rules exactly when each passes the trimmed bounds |
| Pipeline.ClientToServer | frontend/src/features/recipes/mapper.ts:4-33 | a form the client accepts produces a body the server accepts exactly when the trimmed texts fit the server's bounds and no duration or temperature is negative |
| Pipeline.BlankTitleRejectedByServer | backend/src/recipes/dto/create-recipe.dto.ts:67-71 | a title of only whitespace, which the client accepts when it is non-empty, is sent trimmed to the empty string and rejected by the server |
| Pipeline.NegativeDurationRejectedByServer | backend/src/recipes/dto/create-recipe.dto.ts:27-31 | a form with a step of negative duration, which the client accepts, produces a body the server rejects |
| Pipeline.StoredFromForm | backend/src/recipes/entities/recipe.entity.ts:89-95 | a form that passes both sides is stored with cook time equal to the sum of its own durations (so non-negative), valid enum codes, and its own servings and prep time |
| Pipeline.MinimalFormMapped | frontend/src/features/recipes/mapper.ts:4-33 | a form with only the required texts and one row each maps to a body with step order 1 and no optional field |
| Pipeline.MinimalRecipeEndToEnd | backend/src/recipes/entities/recipe.entity.ts:59-66 | the client rejects that form for its missing fields, but the server accepts its body and stores cook time 0, prep time 0 and 4 servings |

## Left out

- Network I/O, the `fetch` call, `AbortController` and the 10-second timer: an exchange's outcome (a response, an abort or a failure) is an input to `ApiFetch`.
- Asynchrony and promises: each async function is modelled by how it settles.
- IEEE floating point, NaN and infinities in JSON numbers: numbers are exact reals. `Number()` in the env check is modelled for decimal digit strings (with `""` read as 0); any other text reads as NaN.
- String lengths are counted in Unicode scalar values. zod's `.min(1)` counts UTF-16 code units, but only the empty string fails it either way.
- Dto.BoundedText: `@MaxLength` uses validator.js `isLength`. That counts a surrogate pair as one character, as the model does, but it does not count U+FE0E or U+FE0F at all. The model counts them, so it rejects a 150-character title followed by U+FE0F, which the server accepts.
- Runtime type checks (`@IsString`, `@IsNumber`, `@IsArray`, zod's type checks, `Array.isArray`): the model is typed, so values of the wrong JSON type cannot be expressed. The same goes for the `@Type`/`transform` conversions.
- URL syntax (`@IsUrl`, zod's `.url()`) and ObjectId syntax (`isValidObjectId`): these are parameters `isUrl` and `isValidId`.
- Labels.IngredientUnits: `getUnitLabel` reads the table in `frontend/src/features/recipes/constants/ingredientUnits.ts`, which is not part of this model. The model uses the table in `frontend/src/constants/ingredientUnits.ts` in its place.
- The category table the labels are looked up in is not part of this model; it is a parameter of `Labels.GetCategoryLabel`.
- The update DTO is not part of this model. `Service.RecipePatch` stands for it, with every recipe field optional.
- Mongoose's own `required` validators on the stored document, `timestamps`, `_id` generation and document serialization: the server's DTO check runs first and rejects what they would. The new id is a parameter of `Create`.
- Service.RecipesService.Create: assumes the new id is well-formed and not yet stored, as a database-generated ObjectId is.
- Service.RecipeModel.Find: `find()` returns a list in the database's order. The model returns the documents as a map from id, so that order is not captured.
- Concurrency between requests: each service call is one atomic step on the store.
- React components, hooks, routing and the detail page's step sorting: these are UI, not part of the core.
- The `crypto.randomUUID` value format: `FreshIds.IdSource` models only that each id is new.
- Text.Trim: whitespace is the ECMAScript WhiteSpace and LineTerminator set written out, not read from the Unicode database.
- EnvValidation.Validate: the issue texts are zod's default English messages.
