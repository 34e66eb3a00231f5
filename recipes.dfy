/** The static recipe table and its per-machine filter (src/data/Recipes.ts). */
module Recipes {

  /** Chemical id -> amount, in the order a `for...in` loop visits the keys of the source's
      object literal. */
  type Amounts = seq<(string, int)>

  /** One recipe: which machine type runs it, what it consumes and produces, and how long it takes. */
  datatype RecipeData = RecipeData(
    id: string,
    machineType: string,
    inputs: Amounts,
    outputs: Amounts,
    processingTimeSeconds: int)

  const MIX_A_TO_B: RecipeData := RecipeData("Mix A to B", "Mixer", [("Raw Chemical A", 1)], [("Product B", 1)], 5)
  const HEAT_B_TO_C: RecipeData := RecipeData("Heat B to C", "Heater", [("Product B", 1)], [("Product C", 1)], 8)

  /** Every recipe of the game, in declaration order. */
  const RECIPE_DATA: seq<RecipeData> := [MIX_A_TO_B, HEAT_B_TO_C]

  /** No chemical id occurs twice (an object literal cannot repeat a key). */
  predicate DistinctKeys(a: Amounts)
  {
    forall i, j :: 0 <= i < j < |a| ==> a[i].0 != a[j].0
  }

  /** Every amount is a positive integer. */
  predicate PositiveAmounts(a: Amounts)
  {
    forall i :: 0 <= i < |a| ==> a[i].1 > 0
  }

  predicate WellFormedAmounts(a: Amounts)
  {
    DistinctKeys(a) && PositiveAmounts(a)
  }

  /** A recipe whose amounts are positive, whose keys are distinct and whose duration is positive. */
  predicate WellFormed(r: RecipeData)
  {
    WellFormedAmounts(r.inputs) && WellFormedAmounts(r.outputs) && r.processingTimeSeconds > 0
  }

  /** `r` is `s` with some elements left out, the rest in their original order. */
  ghost predicate IsSubsequence(r: seq<RecipeData>, s: seq<RecipeData>)
    decreases |s|
  {
    r == [] || (s != [] && ((r[0] == s[0] && IsSubsequence(r[1..], s[1..])) || IsSubsequence(r, s[1..])))
  }

  /** The recipes of `recipes` that a machine of type `machineType` runs, in their original order. */
  function FilterByMachine(recipes: seq<RecipeData>, machineType: string): (r: seq<RecipeData>)
    ensures IsSubsequence(r, recipes)
    ensures forall x :: multiset(r)[x] == if x.machineType == machineType then multiset(recipes)[x] else 0
    ensures |r| > 0 ==> exists i :: 0 <= i < |recipes| && recipes[i] == r[0] &&
                                    forall j :: 0 <= j < i ==> recipes[j].machineType != machineType
    decreases |recipes|
  {
    if recipes == [] then []
    else
      assert recipes == [recipes[0]] + recipes[1..];
      var rest := FilterByMachine(recipes[1..], machineType);
      if recipes[0].machineType == machineType then [recipes[0]] + rest
      else
        assert |rest| > 0 ==> rest[0] in multiset(rest);
        rest
  }

  /** The recipes a machine of the given type can run, in table order. */
  function GetRecipesForMachine(machineType: string): (r: seq<RecipeData>)
    ensures IsSubsequence(r, RECIPE_DATA)
    ensures forall x :: x in r <==> x in RECIPE_DATA && x.machineType == machineType
  {
    FilterByMachine(RECIPE_DATA, machineType)
  }

  /** The first recipe of a machine type is the earliest match in the table. */
  lemma FirstRecipeIsEarliest(machineType: string)
    requires GetRecipesForMachine(machineType) != []
    ensures exists i :: 0 <= i < |RECIPE_DATA| && RECIPE_DATA[i] == GetRecipesForMachine(machineType)[0] &&
                        forall j :: 0 <= j < i ==> RECIPE_DATA[j].machineType != machineType
  {
  }

  /** The table's contents per machine type: a Mixer runs only 'Mix A to B', a Heater only
      'Heat B to C', any other type nothing. */
  lemma RecipesPerMachine(machineType: string)
    ensures GetRecipesForMachine("Mixer") == [MIX_A_TO_B]
    ensures GetRecipesForMachine("Heater") == [HEAT_B_TO_C]
    ensures machineType != "Mixer" && machineType != "Heater" ==> GetRecipesForMachine(machineType) == []
  {
    assert RECIPE_DATA[1..] == [HEAT_B_TO_C];
    assert RECIPE_DATA[1..][1..] == [];
    assert MIX_A_TO_B.machineType != "Heater";
    assert FilterByMachine(RECIPE_DATA[1..], "Heater") == [HEAT_B_TO_C];
  }

  /** Every catalogued recipe has positive amounts, distinct keys and a positive duration. */
  lemma CatalogueWellFormed(r: RecipeData)
    requires r in RECIPE_DATA
    ensures WellFormed(r)
  {
  }
}
