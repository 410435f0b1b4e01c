/**
 * Display labels for stored codes: first-match lookups over `(value, label)`
 * tables that fall back to the raw code, and the difficulty record. The
 * category table is a parameter; the unit table is the one in
 * `frontend/src/constants/ingredientUnits.ts`.
 */
module Labels {
  import opened Optional

  type Table = seq<(string, string)>

  /** `table.find(e => e.value === value)?.label` */
  function FindLabel(table: Table, value: string): (r: Option<string>)
    ensures r.None? <==> forall k :: 0 <= k < |table| ==> table[k].0 != value
    ensures r.Some? ==>
      exists k :: 0 <= k < |table| && table[k] == (value, r.value) && forall j :: 0 <= j < k ==> table[j].0 != value
  {
    if table == [] then None
    else if table[0].0 == value then Some(table[0].1)
    else
      var r := FindLabel(table[1..], value);
      assert forall k :: 1 <= k < |table| ==> table[k] == table[1..][k - 1];
      r
  }

  /** `getCategoryLabel(value)`: null for undefined or "", else the label or the raw code. */
  function GetCategoryLabel(categories: Table, value: Option<string>): Option<string> {
    if value.None? || value.value == "" then None
    else Some(FindLabel(categories, value.value).GetOr(value.value))
  }

  /** `getUnitLabel(value)`: the label or the raw code. */
  function GetUnitLabel(units: Table, value: string): string {
    FindLabel(units, value).GetOr(value)
  }

  const IngredientUnits: Table := [
    ("g", "g"), ("kg", "kg"), ("ml", "ml"), ("cl", "cl"), ("l", "l"),
    ("pcs", "pi\U{00E8}ce(s)"), ("tbsp", "cuill\U{00E8}re \U{00E0} soupe"),
    ("tsp", "cuill\U{00E8}re \U{00E0} caf\U{00E9}"), ("pinch", "pinc\U{00E9}e"),
    ("slice", "tranche(s)"), ("clove", "gousse(s)")]

  const DifficultyLabels: map<string, string> := map["easy" := "Facile", "medium" := "Moyen", "hard" := "Difficile"]

  /**
   * A code with an entry gets the label of its first entry; a code without
   * one comes back unchanged. Neither lookup can fail.
   */
  lemma LookupSpec(categories: Table, units: Table, value: string, k: nat)
    requires k < |categories| && categories[k].0 == value && value != ""
    requires forall j :: 0 <= j < k ==> categories[j].0 != value
    ensures GetCategoryLabel(categories, Some(value)) == Some(categories[k].1)
    ensures (forall j :: 0 <= j < |units| ==> units[j].0 != value) ==> GetUnitLabel(units, value) == value
  {
    var r := FindLabel(categories, value);
    var i :| 0 <= i < |categories| && categories[i] == (value, r.value) && forall j :: 0 <= j < i ==> categories[j].0 != value;
    assert i == k;
  }

  /** Undefined and empty categories have no label; unknown codes are shown raw. */
  lemma CategoryFallbacks(categories: Table, value: string)
    requires value != "" && forall j :: 0 <= j < |categories| ==> categories[j].0 != value
    ensures GetCategoryLabel(categories, None) == None
    ensures GetCategoryLabel(categories, Some("")) == None
    ensures GetCategoryLabel(categories, Some(value)) == Some(value)
  {
  }

  /** The unit table: a known unit gets its label. */
  lemma ShippedUnitLabels()
    ensures GetUnitLabel(IngredientUnits, "g") == "g"
    ensures GetUnitLabel(IngredientUnits, "pcs") == "pi\U{00E8}ce(s)"
  {
    var units := IngredientUnits;
    assert units[1..][1..][1..][1..][1..] == units[5..];
    assert FindLabel(units[5..], "pcs") == Some("pi\U{00E8}ce(s)");
  }

  /** The unit table: a code it does not list is shown raw. */
  lemma ShippedUnitFallback()
    ensures GetUnitLabel(IngredientUnits, "pi\U{00E8}ces") == "pi\U{00E8}ces"
  {
    var units, v := IngredientUnits, "pi\U{00E8}ces";
    forall j | 0 <= j < |units| ensures units[j].0 != v {
      UnitCodesShort(j);
    }
  }

  /** Every unit code in the unit table has at most five characters. */
  lemma UnitCodesShort(j: nat)
    requires j < |IngredientUnits|
    ensures |IngredientUnits[j].0| <= 5
  {
  }

  /** `DIFFICULTY_LABELS` */
  lemma DifficultyLabelValues()
    ensures DifficultyLabels.Keys == {"easy", "medium", "hard"}
    ensures DifficultyLabels["easy"] == "Facile" && DifficultyLabels["medium"] == "Moyen"
      && DifficultyLabels["hard"] == "Difficile"
  {
  }
}
