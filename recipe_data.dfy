/** The records the recipe page reads from its JSON documents, the maps it
    builds from them with `Object.fromEntries`, and the first-match lookup
    it does with `Array.prototype.find`. */
module RecipeData {
  import opened Wrappers

  /** A catalog entry of ingredients.json. */
  datatype Ingredient = Ingredient(id: string, name: string, units: string)

  /** An entry of recipe-index.json: `file` locates the full recipe document. */
  datatype IndexEntry = IndexEntry(id: string, name: string, file: string)

  /** One line of a recipe's ingredient list; `totalQty` is for the unscaled batch. */
  datatype IngredientLine = IngredientLine(ingredientId: string, totalQty: real, ingNote: Option<string>)

  /** One entry of a step's `uses`: a fraction of the total when `qty <= 1`,
      an absolute amount otherwise. */
  datatype Use = Use(ingredientId: string, qty: real)

  /** A method step. A missing `uses` array is the empty sequence;
      `usesSubRecipe` holds the `recipeId` of the invoked recipe. */
  datatype Step = Step(text: string, uses: seq<Use>, usesSubRecipe: Option<string>)

  /** A recipe document. A missing `subRecipes` array is the empty sequence;
      each element is the `recipeId` of a declared sub-recipe. */
  datatype Recipe = Recipe(
    id: string,
    name: string,
    ingredients: seq<IngredientLine>,
    steps: seq<Step>,
    subRecipes: seq<string>)

  /** The page's failures: an index lookup that finds nothing (reading
      `.file` of undefined), a fetch whose document cannot be read, and a
      catalog lookup that finds nothing (reading `.name` of undefined). */
  datatype Error =
    | RecipeNotFound(recipeId: string)
    | FetchFailed(file: string)
    | IngredientNotFound(ingredientId: string)

  /** `Object.fromEntries`: the keys are exactly the entries' keys; a later
      entry overwrites an earlier one with the same key. */
  function FromEntries<K(!new), V>(entries: seq<(K, V)>): (m: map<K, V>)
    ensures forall k :: k in m <==> exists i :: 0 <= i < |entries| && entries[i].0 == k
  {
    if |entries| == 0 then map[]
    else
      var last := entries[|entries| - 1];
      FromEntries(entries[..|entries| - 1])[last.0 := last.1]
  }

  lemma {:induction false} FromEntriesLastWins<K(!new), V>(entries: seq<(K, V)>, i: nat)
    requires i < |entries|
    requires forall j :: i < j < |entries| ==> entries[j].0 != entries[i].0
    ensures entries[i].0 in FromEntries(entries)
    ensures FromEntries(entries)[entries[i].0] == entries[i].1
  {
    if i < |entries| - 1 {
      FromEntriesLastWins(entries[..|entries| - 1], i);
    }
  }

  /** The totals map of a recipe: ingredient id to `totalQty`. An id has a
      total exactly when some ingredient line of the recipe names it. */
  function Totals(lines: seq<IngredientLine>): (r: map<string, real>)
    ensures forall i :: 0 <= i < |lines| ==> lines[i].ingredientId in r
    ensures forall id :: id in r ==> exists i :: 0 <= i < |lines| && lines[i].ingredientId == id
  {
    var entries := seq(|lines|, i requires 0 <= i < |lines| => (lines[i].ingredientId, lines[i].totalQty));
    assert forall i :: 0 <= i < |lines| ==> entries[i].0 == lines[i].ingredientId;
    FromEntries(entries)
  }

  /** The ingredient map: catalog id to catalog entry. An id is in the map
      exactly when some catalog entry has it. */
  function CatalogOf(ingredients: seq<Ingredient>): (r: map<string, Ingredient>)
    ensures forall i :: 0 <= i < |ingredients| ==> ingredients[i].id in r
    ensures forall id :: id in r ==> exists i :: 0 <= i < |ingredients| && ingredients[i].id == id
  {
    var entries := seq(|ingredients|, i requires 0 <= i < |ingredients| => (ingredients[i].id, ingredients[i]));
    assert forall i :: 0 <= i < |ingredients| ==> entries[i].0 == ingredients[i].id;
    FromEntries(entries)
  }

  /** An id has a total exactly when some ingredient line names it, and the
      total is the `totalQty` of the last such line. */
  lemma TotalsAt(lines: seq<IngredientLine>, i: nat)
    requires i < |lines|
    requires forall j :: i < j < |lines| ==> lines[j].ingredientId != lines[i].ingredientId
    ensures lines[i].ingredientId in Totals(lines)
    ensures Totals(lines)[lines[i].ingredientId] == lines[i].totalQty
  {
    var entries := seq(|lines|, k requires 0 <= k < |lines| => (lines[k].ingredientId, lines[k].totalQty));
    FromEntriesLastWins(entries, i);
  }

  lemma CatalogAt(ingredients: seq<Ingredient>, i: nat)
    requires i < |ingredients|
    requires forall j :: i < j < |ingredients| ==> ingredients[j].id != ingredients[i].id
    ensures ingredients[i].id in CatalogOf(ingredients)
    ensures CatalogOf(ingredients)[ingredients[i].id] == ingredients[i]
  {
    var entries := seq(|ingredients|, k requires 0 <= k < |ingredients| => (ingredients[k].id, ingredients[k]));
    FromEntriesLastWins(entries, i);
  }

  /** `xs.find(x => key(x) === id)`, as the index of the element found:
      the first element whose key is `id`, or none when no element has it. */
  function FindFirst<T>(xs: seq<T>, key: T -> string, id: string): (r: Option<nat>)
    ensures r.Some? ==> r.value < |xs| && key(xs[r.value]) == id
    ensures r.Some? ==> forall j :: 0 <= j < r.value ==> key(xs[j]) != id
    ensures r.None? <==> forall j :: 0 <= j < |xs| ==> key(xs[j]) != id
  {
    if |xs| == 0 then None
    else if key(xs[0]) == id then Some(0)
    else match FindFirst(xs[1..], key, id)
      case None => None
      case Some(k) => Some(k + 1)
  }

  function RecipeId(r: Recipe): string { r.id }
}
