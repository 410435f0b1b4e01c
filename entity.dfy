/**
 * The persisted recipe document (`Recipe` with its embedded `Step` and
 * `Ingredient` sub-documents, which have the wire fields), the defaults the
 * schema applies on creation, and the pre-save hook that derives `cookTime`.
 */
module Entity {
  import opened Optional
  import opened Contract

  /** A stored recipe; the three defaulted numbers are always present. */
  datatype Recipe = Recipe(
    title: string,
    description: string,
    ingredients: seq<Ingredient>,
    steps: seq<Step>,
    imageUrl: Option<string>,
    prepTime: real,
    cookTime: real,
    servings: real,
    difficulty: Option<string>,
    category: Option<string>)

  const DefaultPrepTime: real := 0.0
  const DefaultCookTime: real := 0.0
  const DefaultServings: real := 4.0

  /**
   * The document built from a create body: declared fields copied, absent
   * `prepTime`/`servings` defaulted, `cookTime` defaulted (the body has none).
   */
  function FromDto(c: RecipePayload): (r: Recipe)
    ensures r.title == c.title && r.description == c.description
    ensures r.ingredients == c.ingredients && r.steps == c.steps
    ensures r.imageUrl == c.imageUrl && r.difficulty == c.difficulty && r.category == c.category
    ensures r.prepTime == (if c.prepTime.Some? then c.prepTime.value else DefaultPrepTime)
    ensures r.servings == (if c.servings.Some? then c.servings.value else DefaultServings)
    ensures r.cookTime == DefaultCookTime
  {
    Recipe(c.title, c.description, c.ingredients, c.steps, c.imageUrl,
           c.prepTime.GetOr(DefaultPrepTime), DefaultCookTime, c.servings.GetOr(DefaultServings),
           c.difficulty, c.category)
  }

  /** The enum constraints the document schema checks on save. */
  predicate EnumsValid(r: Recipe) {
    && (r.difficulty.Some? ==> r.difficulty.value in Difficulties)
    && (r.category.Some? ==> r.category.value in Categories)
  }

  /** `step.duration ?? 0` */
  function DurationOrZero(s: Step): real {
    s.duration.GetOr(0.0)
  }

  /**
   * `steps.reduce((total, step) => total + (step.duration ?? 0), 0)`: the raw
   * durations are added whatever their unit; when none is negative the total
   * is not negative either.
   */
  function SumDurations(steps: seq<Step>): (total: real)
    ensures (forall k :: 0 <= k < |steps| ==> DurationOrZero(steps[k]) >= 0.0) ==> total >= 0.0
  {
    if steps == [] then 0.0
    else SumDurations(steps[..|steps| - 1]) + DurationOrZero(steps[|steps| - 1])
  }

  /** What the pre-save hook leaves in the document. */
  function WithDerivedCookTime(r: Recipe): Recipe {
    if |r.steps| > 0 then r.(cookTime := SumDurations(r.steps)) else r
  }

  /** The create path: build the document, then run the pre-save hook. */
  function Created(c: RecipePayload): Recipe {
    WithDerivedCookTime(FromDto(c))
  }

  /** The total is additive over concatenation of step lists. */
  lemma {:induction false} SumDurationsAppend(a: seq<Step>, b: seq<Step>)
    ensures SumDurations(a + b) == SumDurations(a) + SumDurations(b)
  {
    if b == [] {
      assert a + b == a;
    } else {
      assert (a + b)[..|a + b| - 1] == a + b[..|b| - 1];
      SumDurationsAppend(a, b[..|b| - 1]);
    }
  }

  /** Units play no part: two step lists with the same durations have the same total. */
  lemma {:induction false} SumDurationsIgnoresUnits(a: seq<Step>, b: seq<Step>)
    requires |a| == |b|
    requires forall k :: 0 <= k < |a| ==> a[k].duration == b[k].duration
    ensures SumDurations(a) == SumDurations(b)
  {
    if a != [] {
      SumDurationsIgnoresUnits(a[..|a| - 1], b[..|b| - 1]);
    }
  }

  /** Durations [10, 15, undefined] give 25; a "sec" duration counts as its raw value. */
  lemma CookTimeExamples(order: real, text: string)
    ensures SumDurations([
      Step(order, text, Some(10.0), Some("min"), None, None, None, {}),
      Step(order, text, Some(15.0), None, None, None, None, {}),
      Step(order, text, None, None, None, None, None, {})]) == 25.0
    ensures SumDurations([
      Step(order, text, Some(10.0), Some("min"), None, None, None, {}),
      Step(order, text, Some(30.0), Some("sec"), None, None, None, {})]) == 40.0
  {
    var a := Step(order, text, Some(10.0), Some("min"), None, None, None, {});
    var b := Step(order, text, Some(15.0), None, None, None, None, {});
    var c := Step(order, text, None, None, None, None, None, {});
    var d := Step(order, text, Some(30.0), Some("sec"), None, None, None, {});
    assert [a, b, c][..2] == [a, b] && [a, b][..1] == [a] && [a][..0] == [];
    assert SumDurations([a]) == 10.0;
    assert SumDurations([a, b]) == 25.0;
    assert [a, d][..1] == [a];
  }

  /**
   * The hook: with steps, `cookTime` becomes the sum of durations whatever it
   * was before; without steps, nothing changes. No other field is touched.
   */
  lemma DerivedCookTimeSpec(r: Recipe, previous: real)
    ensures |r.steps| > 0 ==> WithDerivedCookTime(r).cookTime == SumDurations(r.steps)
    ensures |r.steps| > 0 ==> WithDerivedCookTime(r.(cookTime := previous)) == WithDerivedCookTime(r)
    ensures |r.steps| == 0 ==> WithDerivedCookTime(r) == r
    ensures WithDerivedCookTime(r).(cookTime := r.cookTime) == r
  {
  }

  /** Running the hook twice is the same as running it once. */
  lemma DerivedCookTimeIdempotent(r: Recipe)
    ensures WithDerivedCookTime(WithDerivedCookTime(r)) == WithDerivedCookTime(r)
  {
  }

  /**
   * A created document: defaults applied, `cookTime` the total of the step
   * durations (0 when there are no steps), non-negative when every duration is.
   */
  lemma CreatedSpec(c: RecipePayload)
    ensures Created(c).cookTime == (if |c.steps| > 0 then SumDurations(c.steps) else DefaultCookTime)
    ensures (forall k :: 0 <= k < |c.steps| ==> DurationOrZero(c.steps[k]) >= 0.0) ==> Created(c).cookTime >= 0.0
    ensures c.servings.None? ==> Created(c).servings == DefaultServings
    ensures c.prepTime.None? ==> Created(c).prepTime == DefaultPrepTime
    ensures EnumsValid(Created(c)) <==>
      (c.difficulty.Some? ==> c.difficulty.value in Difficulties) && (c.category.Some? ==> c.category.value in Categories)
  {
  }

  /**
   * A document object during `save`: the fields of `Recipe`, updated in
   * place by the pre-save hook.
   */
  class RecipeDocument {
    var title: string
    var description: string
    var ingredients: seq<Ingredient>
    var steps: seq<Step>
    var imageUrl: Option<string>
    var prepTime: real
    var cookTime: real
    var servings: real
    var difficulty: Option<string>
    var category: Option<string>

    function Value(): Recipe
      reads this
    {
      Recipe(title, description, ingredients, steps, imageUrl, prepTime, cookTime, servings, difficulty, category)
    }

    constructor (r: Recipe)
      ensures Value() == r
    {
      title, description, ingredients, steps := r.title, r.description, r.ingredients, r.steps;
      imageUrl, prepTime, cookTime, servings := r.imageUrl, r.prepTime, r.cookTime, r.servings;
      difficulty, category := r.difficulty, r.category;
    }

    /** The pre-save hook: assigns `cookTime` from the steps when there are any. */
    method PreSave()
      modifies this`cookTime
      ensures Value() == WithDerivedCookTime(old(Value()))
    {
      if |steps| > 0 {
        cookTime := SumDurations(steps);
      }
    }
  }
}
