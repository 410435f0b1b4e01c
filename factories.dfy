/**
 * `crypto.randomUUID` as an abstract source of fresh identifiers: every id
 * it hands out differs from every id handed out before.
 */
module FreshIds {

  class IdSource {
    ghost var issued: set<string>
    var count: nat

    /** Every id issued so far is shorter than the next one. */
    ghost predicate Valid()
      reads this
    {
      forall s :: s in issued ==> |s| < count
    }

    constructor ()
      ensures Valid() && issued == {}
    {
      issued := {};
      count := 0;
    }

    method Next() returns (id: string)
      requires Valid()
      modifies this
      ensures Valid() && id !in old(issued) && issued == old(issued) + {id}
    {
      id := seq(count, _ => 'x');
      issued := issued + {id};
      count := count + 1;
    }
  }
}

/** `createStep(order = 1)`: a blank step row. */
module StepFactory {
  import opened Optional
  import opened Schema
  import opened FreshIds

  /** The row `createStep` builds around a given id. */
  function BlankStep(id: string, order: real): FormStep {
    FormStep(id, order, "", None, None, None, None, None)
  }

  method CreateStep(ids: IdSource, order: real := 1.0) returns (s: FormStep)
    requires ids.Valid()
    modifies ids
    ensures ids.Valid()
    ensures s.id !in old(ids.issued) && ids.issued == old(ids.issued) + {s.id}
    ensures s == BlankStep(s.id, order)
  {
    var id := ids.Next();
    s := BlankStep(id, order);
  }

  /**
   * A blank step has the given order, an empty instruction and no optional
   * field; it fails the step rule until its instruction is filled in.
   */
  lemma BlankStepSpec(id: string, order: real, text: string)
    ensures var s := BlankStep(id, order);
      && s.order == order && s.instruction == ""
      && s.duration.None? && s.durationUnit.None? && s.temperature.None? && s.temperatureUnit.None? && s.note.None?
      && !StepValid(s)
      && (StepValid(s.(instruction := text)) <==> text != "")
  {
  }

  /** Two steps created one after the other get different ids; the default order is 1. */
  method CreateTwoSteps(ids: IdSource) returns (a: FormStep, b: FormStep)
    requires ids.Valid()
    modifies ids
    ensures a.id != b.id && a.order == 1.0 && b.order == 1.0
  {
    a := CreateStep(ids);
    b := CreateStep(ids);
  }
}

/** `createIngredient()`: a blank ingredient row. */
module IngredientFactory {
  import opened Schema
  import opened FreshIds

  /** The row `createIngredient` builds around a given id. */
  function BlankIngredient(id: string): FormIngredient {
    FormIngredient(id, "", 1.0, "g")
  }

  method CreateIngredient(ids: IdSource) returns (i: FormIngredient)
    requires ids.Valid()
    modifies ids
    ensures ids.Valid()
    ensures i.id !in old(ids.issued) && ids.issued == old(ids.issued) + {i.id}
    ensures i == BlankIngredient(i.id)
  {
    var id := ids.Next();
    i := BlankIngredient(id);
  }

  /**
   * A blank ingredient has quantity 1, unit "g" and no name: it meets the
   * quantity and unit rules and fails the name rule until a name is entered.
   */
  lemma BlankIngredientSpec(id: string, name: string)
    ensures var i := BlankIngredient(id);
      && i.quantity == 1.0 && i.unit == "g" && i.name == ""
      && i.quantity >= 0.0 && |i.unit| >= 1
      && !IngredientValid(i)
      && (IngredientValid(i.(name := name)) <==> name != "")
  {
  }

  /** Two ingredients created one after the other get different ids. */
  method CreateTwoIngredients(ids: IdSource) returns (a: FormIngredient, b: FormIngredient)
    requires ids.Valid()
    modifies ids
    ensures a.id != b.id
  {
    a := CreateIngredient(ids);
    b := CreateIngredient(ids);
  }
}
