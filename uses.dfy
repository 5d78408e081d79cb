/** `renderUses`: what the uses column of one method step shows. */
module Uses {
  import opened Wrappers
  import opened RecipeData
  import opened Scaling

  /** One listed use: the catalog name, the scaled amount and the catalog units. */
  datatype UsageLine = UsageLine(name: string, amount: real, units: string)

  /** The three forms of the column: the list of uses, the bold label of an
      invoked sub-recipe, or the "no uses" dash. */
  datatype UsesCell = Usages(lines: seq<UsageLine>) | SubRecipeLabel(caption: string) | NoUses

  /** `recipeId.replace(/_/g, ' ')`: every underscore becomes a space and
      every other character stays where it is. */
  function SpacedLabel(s: string): (r: string)
    ensures |r| == |s|
    ensures forall i :: 0 <= i < |s| ==> r[i] == (if s[i] == '_' then ' ' else s[i])
    ensures '_' !in r
  {
    if |s| == 0 then ""
    else [if s[0] == '_' then ' ' else s[0]] + SpacedLabel(s[1..])
  }

  /** An id without underscores is its own label. */
  lemma SpacedLabelWithoutUnderscore(s: string)
    requires '_' !in s
    ensures SpacedLabel(s) == s
  {
  }

  /** One use, resolved against the owning recipe's totals and scaled. */
  function UseLine(u: Use, ing: Ingredient, totals: map<string, real>, factor: real): UsageLine
  {
    UsageLine(ing.name, Scale(BaseAmount(u, totals), factor), ing.units)
  }

  /** `step.uses.map(...)`: the first use whose ingredient is not in the
      catalog aborts the rendering. */
  function UsageLines(uses: seq<Use>, catalog: map<string, Ingredient>, totals: map<string, real>, factor: real)
    : (r: Result<seq<UsageLine>, Error>)
    ensures r.Ok? ==> |r.value| == |uses|
    ensures r.Err? ==> r.error.IngredientNotFound? && r.error.ingredientId !in catalog
  {
    if |uses| == 0 then Ok([])
    else if uses[0].ingredientId !in catalog then Err(IngredientNotFound(uses[0].ingredientId))
    else match UsageLines(uses[1..], catalog, totals, factor)
      case Err(e) => Err(e)
      case Ok(rest) => Ok([UseLine(uses[0], catalog[uses[0].ingredientId], totals, factor)] + rest)
  }

  /** `renderUses`: the listed uses, else the label of the invoked
      sub-recipe, else the dash. */
  function RenderUses(step: Step, catalog: map<string, Ingredient>, totals: map<string, real>, factor: real)
    : (r: Result<UsesCell, Error>)
    ensures r.Err? ==> |step.uses| > 0 && r.error.IngredientNotFound? && r.error.ingredientId !in catalog
    ensures r.Ok? && |step.uses| > 0 ==> r.value.Usages? && |r.value.lines| == |step.uses|
  {
    if |step.uses| > 0 then
      match UsageLines(step.uses, catalog, totals, factor)
      case Err(e) => Err(e)
      case Ok(lines) => Ok(Usages(lines))
    else if step.usesSubRecipe.Some? then Ok(SubRecipeLabel(SpacedLabel(step.usesSubRecipe.value)))
    else Ok(NoUses)
  }

  /** The list succeeds exactly when every use names a catalog ingredient,
      and then holds one line per use, in order. */
  lemma {:induction false} UsageLinesSpec(uses: seq<Use>, catalog: map<string, Ingredient>, totals: map<string, real>, factor: real)
    ensures UsageLines(uses, catalog, totals, factor).Ok?
        <==> forall i :: 0 <= i < |uses| ==> uses[i].ingredientId in catalog
    ensures UsageLines(uses, catalog, totals, factor).Ok? ==>
      var lines := UsageLines(uses, catalog, totals, factor).value;
      && |lines| == |uses|
      && forall i :: 0 <= i < |uses| ==>
           lines[i] == UseLine(uses[i], catalog[uses[i].ingredientId], totals, factor)
  {
    if |uses| > 0 {
      UsageLinesSpec(uses[1..], catalog, totals, factor);
      assert forall i :: 1 <= i < |uses| ==> uses[i] == uses[1..][i - 1];
    }
  }

  /** A failure names the first use whose ingredient the catalog lacks. */
  lemma {:induction false} UsageLinesFirstError(uses: seq<Use>, catalog: map<string, Ingredient>, totals: map<string, real>, factor: real, k: nat)
    requires k < |uses| && uses[k].ingredientId !in catalog
    requires forall j :: 0 <= j < k ==> uses[j].ingredientId in catalog
    ensures UsageLines(uses, catalog, totals, factor) == Err(IngredientNotFound(uses[k].ingredientId))
  {
    if k > 0 {
      UsageLinesFirstError(uses[1..], catalog, totals, factor, k - 1);
    }
  }

  /** The `i`-th line of a step's uses column shows the catalog name and
      units of the `i`-th use and its base amount against the owning
      recipe's totals, scaled (the cases of the base amount are in
      `Scaling.ScaledUseAmount`). */
  lemma UseAmount(step: Step, catalog: map<string, Ingredient>, totals: map<string, real>, factor: real, i: nat)
    requires i < |step.uses|
    requires RenderUses(step, catalog, totals, factor).Ok?
    ensures RenderUses(step, catalog, totals, factor).value.Usages?
    ensures var cell := RenderUses(step, catalog, totals, factor).value;
      var u := step.uses[i];
      && |cell.lines| == |step.uses|
      && u.ingredientId in catalog
      && cell.lines[i].name == catalog[u.ingredientId].name
      && cell.lines[i].units == catalog[u.ingredientId].units
      && cell.lines[i].amount == Scale(BaseAmount(u, totals), factor)
  {
    UsageLinesSpec(step.uses, catalog, totals, factor);
  }

  /** The priority of the column: a non-empty `uses` list, else the
      sub-recipe label (the id with its underscores spaced), else the dash. */
  lemma UsesPriority(step: Step, catalog: map<string, Ingredient>, totals: map<string, real>, factor: real)
    ensures |step.uses| > 0 ==>
      match RenderUses(step, catalog, totals, factor)
      case Ok(cell) => cell.Usages?
      case Err(e) => e.IngredientNotFound?
    ensures |step.uses| == 0 ==> RenderUses(step, catalog, totals, factor).Ok?
    ensures |step.uses| == 0 && step.usesSubRecipe.Some? ==>
      var cell := RenderUses(step, catalog, totals, factor).value;
      && cell.SubRecipeLabel?
      && cell.caption == SpacedLabel(step.usesSubRecipe.value)
      && |cell.caption| == |step.usesSubRecipe.value|
      && '_' !in cell.caption
    ensures |step.uses| == 0 && step.usesSubRecipe.None? ==> RenderUses(step, catalog, totals, factor) == Ok(NoUses)
  {
  }
}
