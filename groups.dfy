/** `renderIngredientGroup`: the ingredient list of one recipe, as data. */
module Groups {
  import opened Wrappers
  import opened RecipeData
  import opened Scaling

  /** One ingredient row: the id it is tagged with, the catalog name, the
      note when there is one, the scaled total and the catalog units. */
  datatype IngredientItem = IngredientItem(ingredientId: string, name: string, note: Option<string>, amount: real, units: string)

  /** A group headed by the recipe name. */
  datatype IngredientGroup = IngredientGroup(title: string, items: seq<IngredientItem>)

  /** The note is shown only when it is present and not the empty string. */
  function ShownNote(note: Option<string>): Option<string>
  {
    if note.Some? && note.value != "" then note else None
  }

  function GroupItem(line: IngredientLine, ing: Ingredient, factor: real): IngredientItem
  {
    IngredientItem(line.ingredientId, ing.name, ShownNote(line.ingNote), Scale(line.totalQty, factor), ing.units)
  }

  /** `recipe.ingredients.map(...)`: the first line whose ingredient is not
      in the catalog aborts the rendering. */
  function GroupItems(lines: seq<IngredientLine>, catalog: map<string, Ingredient>, factor: real)
    : (r: Result<seq<IngredientItem>, Error>)
    ensures r.Ok? ==> |r.value| == |lines|
    ensures r.Err? ==> r.error.IngredientNotFound? && r.error.ingredientId !in catalog
  {
    if |lines| == 0 then Ok([])
    else if lines[0].ingredientId !in catalog then Err(IngredientNotFound(lines[0].ingredientId))
    else match GroupItems(lines[1..], catalog, factor)
      case Err(e) => Err(e)
      case Ok(rest) => Ok([GroupItem(lines[0], catalog[lines[0].ingredientId], factor)] + rest)
  }

  /** `renderIngredientGroup`: a group headed by the recipe's name, one
      row per ingredient line. */
  function RenderIngredientGroup(recipe: Recipe, catalog: map<string, Ingredient>, factor: real)
    : (r: Result<IngredientGroup, Error>)
    ensures r.Ok? ==> r.value.title == recipe.name && |r.value.items| == |recipe.ingredients|
    ensures r.Err? ==> r.error.IngredientNotFound? && r.error.ingredientId !in catalog
  {
    match GroupItems(recipe.ingredients, catalog, factor)
    case Err(e) => Err(e)
    case Ok(items) => Ok(IngredientGroup(recipe.name, items))
  }

  /** `subRecipes.map(sr => renderIngredientGroup(sr, ...))`. */
  function SubRecipeGroups(subRecipes: seq<Recipe>, catalog: map<string, Ingredient>, factor: real)
    : (r: Result<seq<IngredientGroup>, Error>)
    ensures r.Ok? ==> |r.value| == |subRecipes| && forall k :: 0 <= k < |subRecipes| ==> r.value[k].title == subRecipes[k].name
    ensures r.Err? ==> r.error.IngredientNotFound? && r.error.ingredientId !in catalog
  {
    if |subRecipes| == 0 then Ok([])
    else match RenderIngredientGroup(subRecipes[0], catalog, factor)
      case Err(e) => Err(e)
      case Ok(g) => match SubRecipeGroups(subRecipes[1..], catalog, factor)
        case Err(e) => Err(e)
        case Ok(rest) => Ok([g] + rest)
  }

  /** The ingredient column: the main recipe's group, then the sub-recipes' groups. */
  function RenderGroups(recipe: Recipe, subRecipes: seq<Recipe>, catalog: map<string, Ingredient>, factor: real)
    : (r: Result<seq<IngredientGroup>, Error>)
    ensures r.Ok? ==> |r.value| == 1 + |subRecipes| && r.value[0].title == recipe.name
    ensures r.Err? ==> r.error.IngredientNotFound? && r.error.ingredientId !in catalog
  {
    match RenderIngredientGroup(recipe, catalog, factor)
    case Err(e) => Err(e)
    case Ok(g) => match SubRecipeGroups(subRecipes, catalog, factor)
      case Err(e) => Err(e)
      case Ok(rest) => Ok([g] + rest)
  }

  /** A group succeeds exactly when every line names a catalog ingredient;
      it then lists one row per line, in order, with the line's total scaled. */
  lemma {:induction false} GroupItemsSpec(lines: seq<IngredientLine>, catalog: map<string, Ingredient>, factor: real)
    ensures GroupItems(lines, catalog, factor).Ok?
        <==> forall i :: 0 <= i < |lines| ==> lines[i].ingredientId in catalog
    ensures GroupItems(lines, catalog, factor).Ok? ==>
      var items := GroupItems(lines, catalog, factor).value;
      && |items| == |lines|
      && forall i :: 0 <= i < |lines| ==>
           && items[i].ingredientId == lines[i].ingredientId
           && items[i].name == catalog[lines[i].ingredientId].name
           && items[i].units == catalog[lines[i].ingredientId].units
           && items[i].amount == Scale(lines[i].totalQty, factor)
           && items[i].note == ShownNote(lines[i].ingNote)
  {
    if |lines| > 0 {
      GroupItemsSpec(lines[1..], catalog, factor);
      assert forall i :: 1 <= i < |lines| ==> lines[i] == lines[1..][i - 1];
    }
  }

  /** A failure names the first line whose ingredient the catalog lacks. */
  lemma {:induction false} GroupItemsFirstError(lines: seq<IngredientLine>, catalog: map<string, Ingredient>, factor: real, k: nat)
    requires k < |lines| && lines[k].ingredientId !in catalog
    requires forall j :: 0 <= j < k ==> lines[j].ingredientId in catalog
    ensures GroupItems(lines, catalog, factor) == Err(IngredientNotFound(lines[k].ingredientId))
  {
    if k > 0 {
      GroupItemsFirstError(lines[1..], catalog, factor, k - 1);
    }
  }

  lemma {:induction false} SubRecipeGroupsSpec(subRecipes: seq<Recipe>, catalog: map<string, Ingredient>, factor: real)
    ensures SubRecipeGroups(subRecipes, catalog, factor).Ok?
        <==> forall k :: 0 <= k < |subRecipes| ==> RenderIngredientGroup(subRecipes[k], catalog, factor).Ok?
    ensures SubRecipeGroups(subRecipes, catalog, factor).Ok? ==>
      var gs := SubRecipeGroups(subRecipes, catalog, factor).value;
      && |gs| == |subRecipes|
      && forall k :: 0 <= k < |subRecipes| ==> gs[k] == RenderIngredientGroup(subRecipes[k], catalog, factor).value
  {
    if |subRecipes| > 0 {
      SubRecipeGroupsSpec(subRecipes[1..], catalog, factor);
      assert forall k :: 1 <= k < |subRecipes| ==> subRecipes[k] == subRecipes[1..][k - 1];
    }
  }

  /** One group per recipe, the main recipe first and then each sub-recipe
      in the order given, each headed by its recipe's name. */
  lemma GroupsInOrder(recipe: Recipe, subRecipes: seq<Recipe>, catalog: map<string, Ingredient>, factor: real)
    ensures RenderGroups(recipe, subRecipes, catalog, factor).Ok?
        <==> (&& RenderIngredientGroup(recipe, catalog, factor).Ok?
              && forall k :: 0 <= k < |subRecipes| ==> RenderIngredientGroup(subRecipes[k], catalog, factor).Ok?)
    ensures RenderGroups(recipe, subRecipes, catalog, factor).Ok? ==>
      var gs := RenderGroups(recipe, subRecipes, catalog, factor).value;
      && |gs| == 1 + |subRecipes|
      && gs[0] == RenderIngredientGroup(recipe, catalog, factor).value
      && gs[0].title == recipe.name
      && forall k :: 0 <= k < |subRecipes| ==>
           && gs[k + 1] == RenderIngredientGroup(subRecipes[k], catalog, factor).value
           && gs[k + 1].title == subRecipes[k].name
  {
    SubRecipeGroupsSpec(subRecipes, catalog, factor);
    if RenderGroups(recipe, subRecipes, catalog, factor).Ok? {
      GroupsListed(recipe, subRecipes, catalog, factor);
    }
  }

  lemma GroupsListed(recipe: Recipe, subRecipes: seq<Recipe>, catalog: map<string, Ingredient>, factor: real)
    requires RenderGroups(recipe, subRecipes, catalog, factor).Ok?
    ensures var gs := RenderGroups(recipe, subRecipes, catalog, factor).value;
      && |gs| == 1 + |subRecipes|
      && RenderIngredientGroup(recipe, catalog, factor).Ok?
      && gs[0] == RenderIngredientGroup(recipe, catalog, factor).value
      && gs[0].title == recipe.name
      && forall k :: 0 <= k < |subRecipes| ==>
           && RenderIngredientGroup(subRecipes[k], catalog, factor).Ok?
           && gs[k + 1] == RenderIngredientGroup(subRecipes[k], catalog, factor).value
           && gs[k + 1].title == subRecipes[k].name
  {
    SubRecipeGroupsSpec(subRecipes, catalog, factor);
    var gs := RenderGroups(recipe, subRecipes, catalog, factor).value;
    var rest := SubRecipeGroups(subRecipes, catalog, factor).value;
    assert gs == [RenderIngredientGroup(recipe, catalog, factor).value] + rest;
    forall k | 0 <= k < |subRecipes|
      ensures gs[k + 1] == RenderIngredientGroup(subRecipes[k], catalog, factor).value
    {
      assert gs[k + 1] == rest[k];
    }
  }
}
