/**
 * `RecipesService` over an in-memory recipe store. The store (`RecipeModel`,
 * the injected Mongoose model) keeps a ghost log of the driver calls made on
 * it, so that "rejected before any store access" can be stated as "the log
 * did not grow". `isValidId` stands for Mongoose's `isValidObjectId`.
 */
module Service {
  import opened Optional
  import opened Contract
  import opened Entity

  type Id = string

  /** A service outcome: the value, or the exception the service throws. */
  datatype Response<T> = Ok(value: T) | BadRequest(message: string) | NotFound(message: string)

  const InvalidIdMessage: string := "Invalid recipe ID format"
  const NotFoundMessage: string := "Recipe not found"

  /**
   * A partial update body: every present field replaces the stored one.
   * There is no `cookTime`: the client never sends one.
   */
  datatype RecipePatch = RecipePatch(
    title: Option<string>,
    description: Option<string>,
    ingredients: Option<seq<Ingredient>>,
    steps: Option<seq<Step>>,
    imageUrl: Option<string>,
    prepTime: Option<real>,
    servings: Option<real>,
    difficulty: Option<string>,
    category: Option<string>)

  function Override<T>(current: T, patch: Option<T>): T {
    patch.GetOr(current)
  }

  function OverrideOptional<T>(current: Option<T>, patch: Option<T>): Option<T> {
    if patch.Some? then patch else current
  }

  /**
   * The document `findByIdAndUpdate` leaves behind: a `$set` of the present
   * fields. Save middleware does not run, so `cookTime` is not recomputed.
   */
  function ApplyPatch(r: Recipe, p: RecipePatch): Recipe {
    Recipe(
      Override(r.title, p.title),
      Override(r.description, p.description),
      Override(r.ingredients, p.ingredients),
      Override(r.steps, p.steps),
      OverrideOptional(r.imageUrl, p.imageUrl),
      Override(r.prepTime, p.prepTime),
      r.cookTime,
      Override(r.servings, p.servings),
      OverrideOptional(r.difficulty, p.difficulty),
      OverrideOptional(r.category, p.category))
  }

  const EmptyPatch: RecipePatch := RecipePatch(None, None, None, None, None, None, None, None, None)

  /**
   * Present fields override, absent ones are kept, and `cookTime` stays what
   * it was even when the steps change.
   */
  lemma ApplyPatchSpec(r: Recipe, p: RecipePatch)
    ensures var u := ApplyPatch(r, p);
      && u.title == (if p.title.Some? then p.title.value else r.title)
      && u.description == (if p.description.Some? then p.description.value else r.description)
      && u.ingredients == (if p.ingredients.Some? then p.ingredients.value else r.ingredients)
      && u.steps == (if p.steps.Some? then p.steps.value else r.steps)
      && u.prepTime == (if p.prepTime.Some? then p.prepTime.value else r.prepTime)
      && u.servings == (if p.servings.Some? then p.servings.value else r.servings)
      && u.imageUrl == (if p.imageUrl.Some? then p.imageUrl else r.imageUrl)
      && u.difficulty == (if p.difficulty.Some? then p.difficulty else r.difficulty)
      && u.category == (if p.category.Some? then p.category else r.category)
      && u.cookTime == r.cookTime
    ensures ApplyPatch(r, EmptyPatch) == r
    ensures ApplyPatch(ApplyPatch(r, p), p) == ApplyPatch(r, p)
  {
  }

  /** Changing the steps by update leaves a stale `cookTime`. */
  lemma UpdateKeepsStaleCookTime(r: Recipe, s: Step)
    requires r.steps != [] && r.cookTime == SumDurations(r.steps)
    requires s.duration == Some(SumDurations(r.steps) + 1.0)
    ensures ApplyPatch(r, EmptyPatch.(steps := Some([s]))).cookTime != SumDurations([s])
  {
    assert [s][..0] == [];
  }

  /** A driver call on the store. */
  datatype StoreCall = CreateCall | FindCall | FindByIdCall(id: Id)
                     | FindByIdAndUpdateCall(id: Id) | FindByIdAndDeleteCall(id: Id)

  /** The store: documents by id. */
  class RecipeModel {
    var docs: map<Id, Recipe>
    ghost var calls: seq<StoreCall>

    constructor ()
      ensures docs == map[] && calls == []
    {
      docs := map[];
      calls := [];
    }

    /** `create`: builds the document, runs the pre-save hook and inserts it under a fresh id. */
    method Create(id: Id, c: RecipePayload) returns (r: Recipe)
      requires id !in docs
      modifies this
      ensures r == Created(c)
      ensures docs == old(docs)[id := r] && calls == old(calls) + [CreateCall]
    {
      var doc := new RecipeDocument(FromDto(c));
      doc.PreSave();
      r := doc.Value();
      docs := docs[id := r];
      calls := calls + [CreateCall];
    }

    /** `find()` with no filter. */
    method Find() returns (all: map<Id, Recipe>)
      modifies this`calls
      ensures all == docs && calls == old(calls) + [FindCall]
    {
      all := docs;
      calls := calls + [FindCall];
    }

    method FindById(id: Id) returns (r: Option<Recipe>)
      modifies this`calls
      ensures r == (if id in docs then Some(docs[id]) else None)
      ensures calls == old(calls) + [FindByIdCall(id)]
    {
      r := if id in docs then Some(docs[id]) else None;
      calls := calls + [FindByIdCall(id)];
    }

    /** `findByIdAndUpdate(id, patch, { new: true })`: the post-update document, if any. */
    method FindByIdAndUpdate(id: Id, p: RecipePatch) returns (r: Option<Recipe>)
      modifies this
      ensures id in old(docs) ==> r == Some(ApplyPatch(old(docs)[id], p)) && docs == old(docs)[id := r.value]
      ensures id !in old(docs) ==> r.None? && docs == old(docs)
      ensures calls == old(calls) + [FindByIdAndUpdateCall(id)]
    {
      if id in docs {
        var u := ApplyPatch(docs[id], p);
        docs := docs[id := u];
        r := Some(u);
      } else {
        r := None;
      }
      calls := calls + [FindByIdAndUpdateCall(id)];
    }

    /** `findByIdAndDelete(id)`: the removed document, if any. */
    method FindByIdAndDelete(id: Id) returns (r: Option<Recipe>)
      modifies this
      ensures id in old(docs) ==> r == Some(old(docs)[id]) && docs == old(docs) - {id}
      ensures id !in old(docs) ==> r.None? && docs == old(docs)
      ensures calls == old(calls) + [FindByIdAndDeleteCall(id)]
    {
      if id in docs {
        r := Some(docs[id]);
        docs := docs - {id};
      } else {
        r := None;
      }
      calls := calls + [FindByIdAndDeleteCall(id)];
    }
  }

  class RecipesService {
    const model: RecipeModel
    const isValidId: Id -> bool

    /** Every stored document is keyed by a well-formed id. */
    ghost predicate Valid()
      reads model
    {
      forall id :: id in model.docs ==> isValidId(id)
    }

    constructor (model: RecipeModel, isValidId: Id -> bool)
      requires forall id :: id in model.docs ==> isValidId(id)
      ensures this.model == model && this.isValidId == isValidId && Valid()
    {
      this.model := model;
      this.isValidId := isValidId;
    }

    /** `validateObjectId`: passes a well-formed id, throws BadRequest otherwise. */
    function ValidateObjectId(id: Id): (r: Response<()>)
      ensures r.Ok? <==> isValidId(id)
      ensures !r.Ok? ==> r == BadRequest(InvalidIdMessage)
    {
      if isValidId(id) then Ok(()) else BadRequest(InvalidIdMessage)
    }

    /** `create`: stores the document built from the body under the generated id. */
    method Create(id: Id, c: RecipePayload) returns (r: Response<Recipe>)
      requires Valid() && isValidId(id) && id !in model.docs
      modifies model
      ensures Valid()
      ensures r == Ok(Created(c)) && model.docs == old(model.docs)[id := Created(c)]
      ensures model.calls == old(model.calls) + [CreateCall]
    {
      var doc := model.Create(id, c);
      r := Ok(doc);
    }

    /** `findAll`: every stored document, unfiltered. */
    method FindAll() returns (r: Response<map<Id, Recipe>>)
      requires Valid()
      modifies model`calls
      ensures Valid()
      ensures r == Ok(model.docs) && model.docs == old(model.docs)
      ensures r.Ok? && forall id :: id in r.value ==> isValidId(id)
      ensures model.calls == old(model.calls) + [FindCall]
    {
      var all := model.Find();
      r := Ok(all);
    }

    method FindOne(id: Id) returns (r: Response<Recipe>)
      modifies model`calls
      ensures model.docs == old(model.docs)
      ensures !isValidId(id) ==> r == BadRequest(InvalidIdMessage) && model.calls == old(model.calls)
      ensures isValidId(id) ==> model.calls == old(model.calls) + [FindByIdCall(id)]
      ensures isValidId(id) && id in model.docs ==> r == Ok(model.docs[id])
      ensures isValidId(id) && id !in model.docs ==> r == NotFound(NotFoundMessage)
    {
      var check := ValidateObjectId(id);
      if !check.Ok? {
        return BadRequest(check.message);
      }
      var found := model.FindById(id);
      if found.None? {
        return NotFound(NotFoundMessage);
      }
      r := Ok(found.value);
    }

    /**
     * `update`: on a stored id, the patched document replaces it and is
     * returned; otherwise nothing is stored or created.
     */
    method Update(id: Id, p: RecipePatch) returns (r: Response<Recipe>)
      requires Valid()
      modifies model
      ensures Valid()
      ensures !isValidId(id) ==> r == BadRequest(InvalidIdMessage)
      ensures !isValidId(id) ==> model.docs == old(model.docs) && model.calls == old(model.calls)
      ensures isValidId(id) ==> model.calls == old(model.calls) + [FindByIdAndUpdateCall(id)]
      ensures isValidId(id) && id in old(model.docs) ==>
        r == Ok(ApplyPatch(old(model.docs)[id], p)) && model.docs == old(model.docs)[id := r.value]
      ensures isValidId(id) && id !in old(model.docs) ==>
        r == NotFound(NotFoundMessage) && model.docs == old(model.docs)
    {
      var check := ValidateObjectId(id);
      if !check.Ok? {
        return BadRequest(check.message);
      }
      var updated := model.FindByIdAndUpdate(id, p);
      if updated.None? {
        return NotFound(NotFoundMessage);
      }
      r := Ok(updated.value);
    }

    /** `remove`: on a stored id, deletes exactly that document and returns it. */
    method Remove(id: Id) returns (r: Response<Recipe>)
      requires Valid()
      modifies model
      ensures Valid()
      ensures !isValidId(id) ==> r == BadRequest(InvalidIdMessage)
      ensures !isValidId(id) ==> model.docs == old(model.docs) && model.calls == old(model.calls)
      ensures isValidId(id) ==> model.calls == old(model.calls) + [FindByIdAndDeleteCall(id)]
      ensures isValidId(id) && id in old(model.docs) ==>
        r == Ok(old(model.docs)[id]) && model.docs == old(model.docs) - {id}
      ensures isValidId(id) && id !in old(model.docs) ==>
        r == NotFound(NotFoundMessage) && model.docs == old(model.docs)
    {
      var check := ValidateObjectId(id);
      if !check.Ok? {
        return BadRequest(check.message);
      }
      var removed := model.FindByIdAndDelete(id);
      if removed.None? {
        return NotFound(NotFoundMessage);
      }
      r := Ok(removed.value);
    }
  }

  /**
   * The service's own scenario: a malformed id is rejected before the store
   * is consulted, a well-formed absent id is NotFound, and updating it
   * creates nothing.
   */
  method ServiceScenario(c: RecipePayload, p: RecipePatch)
  {
    var isValidId := (id: Id) => |id| == 24;
    var model := new RecipeModel();
    var service := new RecipesService(model, isValidId);
    var valid := "507f1f77bcf86cd799439011";
    var other := "507f1f77bcf86cd799439012";
    var bad := service.FindOne("not-a-valid-id");
    assert bad == BadRequest(InvalidIdMessage) && model.calls == [];
    var created := service.Create(valid, c);
    var found := service.FindOne(valid);
    assert found == Ok(Created(c));
    var missing := service.Update(other, p);
    assert missing.NotFound? && other !in model.docs;
    var removed := service.Remove(valid);
    assert removed == Ok(Created(c)) && model.docs == map[];
  }
}
