/** The recipe page: resolving the recipe and its sub-recipes through the
    index, the page's state that the loader and the scale buttons update,
    and `renderRecipe`'s view of that state. */
module Page {
  import opened Wrappers
  import opened RecipeData
  import opened Groups
  import opened Composer

  /** What `renderRecipe` puts on the page: the title, the ingredient
      groups and the method list. */
  datatype PageView = PageView(title: string, groups: seq<IngredientGroup>, steps: seq<RenderedStep>)

  /** `renderRecipe`: the ingredient groups are built before the method, so
      a failure there is the one reported. */
  function RenderRecipe(recipe: Recipe, subRecipes: seq<Recipe>, catalog: map<string, Ingredient>,
                        totals: map<string, real>, factor: real): (r: Result<PageView, Error>)
    ensures r.Ok? <==>
      RenderGroups(recipe, subRecipes, catalog, factor).Ok? &&
      RenderSteps(recipe.steps, catalog, subRecipes, totals, factor, false).Ok?
    ensures RenderGroups(recipe, subRecipes, catalog, factor).Err? ==>
      r == Err(RenderGroups(recipe, subRecipes, catalog, factor).error)
    ensures r.Ok? ==>
      && r.value.title == recipe.name
      && |r.value.groups| == 1 + |subRecipes|
      && r.value.groups[0].title == recipe.name
      && (forall k :: 0 <= k < |subRecipes| ==> r.value.groups[k + 1].title == subRecipes[k].name)
      && |TopLevel(r.value.steps)| == |recipe.steps|
  {
    GroupsInOrder(recipe, subRecipes, catalog, factor);
    match RenderGroups(recipe, subRecipes, catalog, factor)
    case Err(e) => Err(e)
    case Ok(groups) =>
      match RenderSteps(recipe.steps, catalog, subRecipes, totals, factor, false)
      case Err(e) => Err(e)
      case Ok(steps) =>
        OneTopLevelItemPerStep(recipe.steps, catalog, subRecipes, totals, factor);
        Ok(PageView(recipe.name, groups, steps))
  }

  /** `index.find(r => r.id === id).file`, when there is such an entry. */
  function EntryFile(index: seq<IndexEntry>, id: string): (r: Option<string>)
    ensures r.None? <==> forall j :: 0 <= j < |index| ==> index[j].id != id
  {
    if |index| == 0 then None
    else if index[0].id == id then Some(index[0].file)
    else EntryFile(index[1..], id)
  }

  /** The file found is that of the first index entry with the id. */
  lemma {:induction false} EntryFileIsFirstMatch(index: seq<IndexEntry>, id: string, k: nat)
    requires k < |index| && index[k].id == id
    requires forall j :: 0 <= j < k ==> index[j].id != id
    ensures EntryFile(index, id) == Some(index[k].file)
  {
    if k > 0 {
      assert index[0].id != id;
      EntryFileIsFirstMatch(index[1..], id, k - 1);
    }
  }

  /** A file found is that of an index entry with the id before which no
      entry has it. */
  lemma {:induction false} EntryFileFirstIndex(index: seq<IndexEntry>, id: string)
    requires EntryFile(index, id).Some?
    ensures exists k ::
      && 0 <= k < |index| && index[k].id == id && index[k].file == EntryFile(index, id).value
      && forall j :: 0 <= j < k ==> index[j].id != id
  {
    if index[0].id != id {
      EntryFileFirstIndex(index[1..], id);
      var k :| 0 <= k < |index[1..]| && index[1..][k].id == id && index[1..][k].file == EntryFile(index[1..], id).value
        && forall j :: 0 <= j < k ==> index[1..][j].id != id;
      assert index[k + 1] == index[1..][k];
      assert forall j :: 1 <= j < k + 1 ==> index[j] == index[1..][j - 1];
    }
  }

  /** Loading one recipe by id: fails when the index has no entry for it
      or when its file cannot be fetched. `files` stands for `fetch`. */
  function LookupRecipe(id: string, index: seq<IndexEntry>, files: map<string, Recipe>): (r: Result<Recipe, Error>)
  {
    match EntryFile(index, id)
    case None => Err(RecipeNotFound(id))
    case Some(f) => if f in files then Ok(files[f]) else Err(FetchFailed(f))
  }

  /** A lookup loads the file of the first index entry with the id; it
      fails with `RecipeNotFound` exactly when there is no such entry, and
      with `FetchFailed` for that file when the file cannot be fetched. */
  lemma LookupRecipeOutcome(id: string, index: seq<IndexEntry>, files: map<string, Recipe>, k: nat)
    requires k < |index| && index[k].id == id
    requires forall j :: 0 <= j < k ==> index[j].id != id
    ensures LookupRecipe(id, index, files).Ok? <==> index[k].file in files
    ensures index[k].file in files ==> LookupRecipe(id, index, files) == Ok(files[index[k].file])
    ensures index[k].file !in files ==> LookupRecipe(id, index, files) == Err(FetchFailed(index[k].file))
  {
    EntryFileIsFirstMatch(index, id, k);
  }

  /** Without an index entry for the id, the lookup fails with `RecipeNotFound`. */
  lemma LookupRecipeNotFound(id: string, index: seq<IndexEntry>, files: map<string, Recipe>)
    ensures LookupRecipe(id, index, files) == Err(RecipeNotFound(id))
        <==> forall j :: 0 <= j < |index| ==> index[j].id != id
  {
  }

  /** The sequential loading of the declared sub-recipes, in declaration
      order; the first one that cannot be loaded aborts the loading. */
  function LoadSubRecipes(ids: seq<string>, index: seq<IndexEntry>, files: map<string, Recipe>)
    : (r: Result<seq<Recipe>, Error>)
    ensures r.Ok? ==> |r.value| == |ids|
    ensures r.Ok? && |ids| > 0 ==> LookupRecipe(ids[|ids| - 1], index, files) == Ok(r.value[|ids| - 1])
  {
    if |ids| == 0 then Ok([])
    else match LoadSubRecipes(ids[..|ids| - 1], index, files)
      case Err(e) => Err(e)
      case Ok(loaded) => match LookupRecipe(ids[|ids| - 1], index, files)
        case Err(e) => Err(e)
        case Ok(r) => Ok(loaded + [r])
  }

  /** A recipe and the sub-recipes it declares. */
  datatype Resolved = Resolved(main: Recipe, subRecipes: seq<Recipe>)

  /** Resolving a recipe id: the recipe, then the sub-recipes it declares. */
  function Resolve(recipeId: string, index: seq<IndexEntry>, files: map<string, Recipe>): (r: Result<Resolved, Error>)
    ensures r.Ok? ==> LookupRecipe(recipeId, index, files) == Ok(r.value.main)
    ensures r.Ok? ==> |r.value.subRecipes| == |r.value.main.subRecipes|
    ensures LookupRecipe(recipeId, index, files).Err? ==> r == Err(LookupRecipe(recipeId, index, files).error)
  {
    match LookupRecipe(recipeId, index, files)
    case Err(e) => Err(e)
    case Ok(main) => match LoadSubRecipes(main.subRecipes, index, files)
      case Err(e) => Err(e)
      case Ok(subs) => Ok(Resolved(main, subs))
  }

  /** Loading succeeds exactly when each declared id loads, and then gives
      one recipe per declared id, in declaration order. */
  lemma LoadSubRecipesSpec(ids: seq<string>, index: seq<IndexEntry>, files: map<string, Recipe>)
    ensures LoadSubRecipes(ids, index, files).Ok?
        <==> forall k :: 0 <= k < |ids| ==> LookupRecipe(ids[k], index, files).Ok?
    ensures LoadSubRecipes(ids, index, files).Ok? ==>
      var subs := LoadSubRecipes(ids, index, files).value;
      && |subs| == |ids|
      && forall k :: 0 <= k < |ids| ==> LookupRecipe(ids[k], index, files) == Ok(subs[k])
  {
    if LoadSubRecipes(ids, index, files).Ok? {
      LoadedAreLookedUp(ids, index, files);
    }
    if forall k :: 0 <= k < |ids| ==> LookupRecipe(ids[k], index, files).Ok? {
      AllLookedUpLoad(ids, index, files);
    }
  }

  /** Each sub-recipe a successful loading gives is the lookup of its id. */
  lemma {:induction false} LoadedAreLookedUp(ids: seq<string>, index: seq<IndexEntry>, files: map<string, Recipe>)
    requires LoadSubRecipes(ids, index, files).Ok?
    ensures forall k :: 0 <= k < |ids| ==> LookupRecipe(ids[k], index, files) == Ok(LoadSubRecipes(ids, index, files).value[k])
  {
    if |ids| > 0 {
      var init := ids[..|ids| - 1];
      LoadedAreLookedUp(init, index, files);
      var loaded := LoadSubRecipes(init, index, files).value;
      var subs := LoadSubRecipes(ids, index, files).value;
      assert subs == loaded + [subs[|ids| - 1]];
      forall k | 0 <= k < |init|
        ensures LookupRecipe(ids[k], index, files) == Ok(subs[k])
      {
        assert init[k] == ids[k] && subs[k] == loaded[k];
      }
    }
  }

  /** Loading succeeds when each declared id loads. */
  lemma {:induction false} AllLookedUpLoad(ids: seq<string>, index: seq<IndexEntry>, files: map<string, Recipe>)
    requires forall k :: 0 <= k < |ids| ==> LookupRecipe(ids[k], index, files).Ok?
    ensures LoadSubRecipes(ids, index, files).Ok?
  {
    if |ids| > 0 {
      var init := ids[..|ids| - 1];
      assert forall k :: 0 <= k < |init| ==> init[k] == ids[k];
      AllLookedUpLoad(init, index, files);
      assert LookupRecipe(ids[|ids| - 1], index, files).Ok?;
    }
  }

  /** A failure is the failure of the first declared id that does not load. */
  lemma {:induction false} LoadSubRecipesFirstError(ids: seq<string>, index: seq<IndexEntry>, files: map<string, Recipe>, k: nat)
    requires k < |ids| && LookupRecipe(ids[k], index, files).Err?
    requires forall j :: 0 <= j < k ==> LookupRecipe(ids[j], index, files).Ok?
    ensures LoadSubRecipes(ids, index, files) == Err(LookupRecipe(ids[k], index, files).error)
  {
    var init := ids[..|ids| - 1];
    assert forall j :: 0 <= j < |init| ==> init[j] == ids[j];
    if k == |ids| - 1 {
      LoadSubRecipesSpec(init, index, files);
    } else {
      LoadSubRecipesFirstError(init, index, files, k);
    }
  }

  /** The resolved sub-recipes are exactly those the main recipe declares,
      one per declaration and in its order; nothing a sub-recipe declares
      is loaded. */
  lemma ResolveOneLevel(recipeId: string, index: seq<IndexEntry>, files: map<string, Recipe>)
    ensures Resolve(recipeId, index, files).Ok? <==>
      && LookupRecipe(recipeId, index, files).Ok?
      && forall k :: 0 <= k < |LookupRecipe(recipeId, index, files).value.subRecipes| ==>
           LookupRecipe(LookupRecipe(recipeId, index, files).value.subRecipes[k], index, files).Ok?
    ensures Resolve(recipeId, index, files).Ok? ==>
      var r := Resolve(recipeId, index, files).value;
      && LookupRecipe(recipeId, index, files) == Ok(r.main)
      && |r.subRecipes| == |r.main.subRecipes|
      && forall k :: 0 <= k < |r.main.subRecipes| ==> LookupRecipe(r.main.subRecipes[k], index, files) == Ok(r.subRecipes[k])
  {
    if LookupRecipe(recipeId, index, files).Ok? {
      LoadSubRecipesSpec(LookupRecipe(recipeId, index, files).value.subRecipes, index, files);
    }
  }

  /** A recipe id the index does not have fails resolution, before anything is fetched. */
  lemma UnknownRecipeNotFound(recipeId: string, index: seq<IndexEntry>, files: map<string, Recipe>)
    requires forall j :: 0 <= j < |index| ==> index[j].id != recipeId
    ensures Resolve(recipeId, index, files) == Err(RecipeNotFound(recipeId))
  {
  }

  /** What the loop over the declared sub-recipes leaves: `subs`, the
      longest prefix of the declared ids that load, each the lookup of its
      id, and `log`, the files fetched, which are the index files of the
      declared ids in order: one per loaded sub-recipe, and one more when
      the id it stopped at has an index entry whose file cannot be fetched. */
  ghost predicate DeclaredLoaded(ids: seq<string>, index: seq<IndexEntry>, files: map<string, Recipe>,
                                 subs: seq<Recipe>, log: seq<string>)
  {
    && |subs| <= |ids|
    && (forall k :: 0 <= k < |subs| ==> LookupRecipe(ids[k], index, files) == Ok(subs[k]))
    && (|subs| < |ids| ==> LookupRecipe(ids[|subs|], index, files).Err?)
    && |log| <= |ids|
    && (forall k :: 0 <= k < |log| ==> EntryFile(index, ids[k]) == Some(log[k]))
    && (|subs| == |ids| ==> |log| == |ids|)
    && (|subs| < |ids| ==>
          |log| == |subs| + (if LookupRecipe(ids[|subs|], index, files).error.FetchFailed? then 1 else 0))
  }

  /** The loop's outcome is the sequential loading's: all the declared
      sub-recipes when none fails, else the failure of the id it stopped at. */
  lemma DeclaredLoadedOutcome(ids: seq<string>, index: seq<IndexEntry>, files: map<string, Recipe>,
                              subs: seq<Recipe>, log: seq<string>)
    requires DeclaredLoaded(ids, index, files, subs, log)
    ensures |subs| == |ids| ==> LoadSubRecipes(ids, index, files) == Ok(subs)
    ensures |subs| < |ids| ==> LoadSubRecipes(ids, index, files) == Err(LookupRecipe(ids[|subs|], index, files).error)
  {
    if |subs| < |ids| {
      LoadSubRecipesFirstError(ids, index, files, |subs|);
    } else {
      LoadSubRecipesSpec(ids, index, files);
      assert LoadSubRecipes(ids, index, files).value == subs;
    }
  }

  /** The module-level state of the page script. `fetched` records the
      files the loader asked `fetch` for, in order; `ready` records that
      the loader got as far as wiring the scale buttons. */
  class RecipePage {
    var scale: real
    var recipe: Option<Recipe>
    var subRecipes: seq<Recipe>
    var catalog: map<string, Ingredient>
    var baseTotals: map<string, real>
    ghost var fetched: seq<string>
    ghost var ready: bool

    constructor ()
      ensures scale == 1.0 && recipe == None && subRecipes == []
      ensures catalog == map[] && baseTotals == map[] && fetched == [] && !ready
    {
      scale := 1.0;
      recipe := None;
      subRecipes := [];
      catalog := map[];
      baseTotals := map[];
      fetched := [];
      ready := false;
    }

    /** `loadRecipePage`, given the index and catalog documents and `fetch`
        as a map from file to recipe document. The catalog map is built
        first; a failed lookup or fetch stops the loader with what it had
        assigned so far, and a successful one wires the scale buttons and
        renders the page. */
    method Load(recipeId: string, index: seq<IndexEntry>, ingredients: seq<Ingredient>, files: map<string, Recipe>)
      returns (res: Result<PageView, Error>)
      modifies this
      ensures scale == old(scale)
      ensures catalog == CatalogOf(ingredients)
      ensures Resolve(recipeId, index, files).Ok? ==>
        var r := Resolve(recipeId, index, files).value;
        && recipe == Some(r.main)
        && subRecipes == r.subRecipes
        && baseTotals == Totals(r.main.ingredients)
        && ready
        && res == RenderRecipe(r.main, r.subRecipes, catalog, baseTotals, scale)
        && |fetched| == 1 + |r.main.subRecipes|
      ensures Resolve(recipeId, index, files).Err? ==>
        && res == Err(Resolve(recipeId, index, files).error)
        && baseTotals == old(baseTotals)
        && ready == old(ready)
      ensures LookupRecipe(recipeId, index, files).Err? ==>
        recipe == old(recipe) && subRecipes == old(subRecipes)
      ensures EntryFile(index, recipeId).None? ==> fetched == []
      ensures EntryFile(index, recipeId).Some? ==> |fetched| >= 1 && fetched[0] == EntryFile(index, recipeId).value
      ensures LookupRecipe(recipeId, index, files).Err? && EntryFile(index, recipeId).Some? ==> |fetched| == 1
      ensures LookupRecipe(recipeId, index, files).Ok? ==>
        var main := LookupRecipe(recipeId, index, files).value;
        var ids := main.subRecipes;
        && recipe == Some(main)
        && |fetched| >= 1
        && DeclaredLoaded(ids, index, files, subRecipes, fetched[1..])
    {
      catalog := CatalogOf(ingredients);
      fetched := [];
      var found := LoadMain(recipeId, index, files);
      if found.Err? {
        return Err(found.error);
      }
      var main := found.value;
      var ids := main.subRecipes;
      ghost var before := fetched;
      var failure := LoadDeclared(ids, index, files);
      assert |before| == 1 && fetched[0] == before[0];
      assert fetched[|before|..] == fetched[1..];
      DeclaredLoadedOutcome(ids, index, files, subRecipes, fetched[1..]);
      if failure.Some? {
        assert Resolve(recipeId, index, files) == Err(failure.value);
        return Err(failure.value);
      }
      assert Resolve(recipeId, index, files) == Ok(Resolved(main, subRecipes));
      baseTotals := Totals(main.ingredients);
      ready := true;
      res := RenderRecipe(main, subRecipes, catalog, baseTotals, scale);
    }

    /** The first lookup of `loadRecipePage`: the index entry of the page's
        recipe id, then the fetch of its file, which becomes the current
        recipe. A lookup that finds no entry fetches nothing. */
    method LoadMain(recipeId: string, index: seq<IndexEntry>, files: map<string, Recipe>)
      returns (main: Result<Recipe, Error>)
      modifies this`recipe, this`fetched
      ensures main == LookupRecipe(recipeId, index, files)
      ensures main.Ok? ==> recipe == Some(main.value)
      ensures main.Err? ==> recipe == old(recipe)
      ensures EntryFile(index, recipeId).None? ==> fetched == old(fetched)
      ensures EntryFile(index, recipeId).Some? ==> fetched == old(fetched) + [EntryFile(index, recipeId).value]
    {
      var entry := EntryFile(index, recipeId);
      if entry.None? {
        return Err(RecipeNotFound(recipeId));
      }
      var file := entry.value;
      fetched := fetched + [file];
      if file !in files {
        return Err(FetchFailed(file));
      }
      recipe := Some(files[file]);
      return Ok(files[file]);
    }

    /** The `for...of` loop of `loadRecipePage`: each declared sub-recipe is
        looked up in the index, fetched and pushed onto `subRecipes`, one at
        a time; the first that cannot be loaded stops the loop. A lookup
        that finds an entry fetches its file, one that finds none fetches
        nothing. */
    method LoadDeclared(ids: seq<string>, index: seq<IndexEntry>, files: map<string, Recipe>)
      returns (failure: Option<Error>)
      modifies this`subRecipes, this`fetched
      ensures failure.None? <==> |subRecipes| == |ids|
      ensures failure.Some? ==> |subRecipes| < |ids| && LookupRecipe(ids[|subRecipes|], index, files) == Err(failure.value)
      ensures |old(fetched)| <= |fetched| && fetched[..|old(fetched)|] == old(fetched)
      ensures DeclaredLoaded(ids, index, files, subRecipes, fetched[|old(fetched)|..])
    {
      ghost var log: seq<string> := [];
      var loaded: seq<Recipe> := [];
      var i := 0;
      while i < |ids|
        invariant 0 <= i <= |ids|
        invariant |loaded| == i && |log| == i
        invariant forall k :: 0 <= k < i ==> LookupRecipe(ids[k], index, files) == Ok(loaded[k])
        invariant forall k :: 0 <= k < i ==> EntryFile(index, ids[k]) == Some(log[k])
      {
        var subEntry := EntryFile(index, ids[i]);
        if subEntry.None? {
          failure := Some(RecipeNotFound(ids[i]));
          break;
        }
        var subFile := subEntry.value;
        log := log + [subFile];
        if subFile !in files {
          failure := Some(FetchFailed(subFile));
          break;
        }
        loaded := loaded + [files[subFile]];
        i := i + 1;
      }
      if i == |ids| {
        failure := None;
      }
      subRecipes := loaded;
      fetched := fetched + log;
      assert fetched[|old(fetched)|..] == log;
    }

    /** A scale button, which the loader wires only once the recipe and all
        its sub-recipes are loaded: the factor becomes the current scale and
        the loaded recipe is rendered again, not resolved again. */
    method SetScale(factor: real) returns (view: Result<PageView, Error>)
      requires ready && recipe.Some?
      modifies this`scale
      ensures scale == factor
      ensures view == RenderRecipe(recipe.value, subRecipes, catalog, baseTotals, factor)
    {
      scale := factor;
      view := RenderRecipe(recipe.value, subRecipes, catalog, baseTotals, scale);
    }
  }
}
