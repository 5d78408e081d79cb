/** `renderSteps`: the method list, with the steps of an invoked sub-recipe
    inlined right after the step that invokes it. */
module Composer {
  import opened Wrappers
  import opened RecipeData
  import opened Uses

  /** One list item of the method: the `sub-step` class flag, the uses
      column and the step text. */
  datatype RenderedStep = RenderedStep(isSub: bool, uses: UsesCell, text: string)

  /** The loaded sub-recipe a step invokes: the first one whose id is the
      step's `usesSubRecipe` id, if any. */
  function Invoked(step: Step, subRecipes: seq<Recipe>): (r: Option<Recipe>)
    ensures r.None? <==>
      step.usesSubRecipe.None? || forall j :: 0 <= j < |subRecipes| ==> subRecipes[j].id != step.usesSubRecipe.value
    ensures r.Some? ==> step.usesSubRecipe.Some? && r.value in subRecipes && r.value.id == step.usesSubRecipe.value
  {
    if step.usesSubRecipe.None? then None
    else match FindFirst(subRecipes, RecipeId, step.usesSubRecipe.value)
      case None => None
      case Some(k) => Some(subRecipes[k])
  }

  /** The sub-recipe invoked is the first loaded one with the step's id. */
  lemma InvokedIsFirstMatch(step: Step, subRecipes: seq<Recipe>, k: nat)
    requires step.usesSubRecipe.Some?
    requires k < |subRecipes| && subRecipes[k].id == step.usesSubRecipe.value
    requires forall j :: 0 <= j < k ==> subRecipes[j].id != step.usesSubRecipe.value
    ensures Invoked(step, subRecipes) == Some(subRecipes[k])
  {
    assert RecipeId(subRecipes[k]) == step.usesSubRecipe.value;
  }

  /** A sub-recipe invoked sits at a position before which no loaded
      sub-recipe has the step's id. */
  lemma InvokedFirstIndex(step: Step, subRecipes: seq<Recipe>)
    requires Invoked(step, subRecipes).Some?
    ensures exists k ::
      && 0 <= k < |subRecipes| && subRecipes[k] == Invoked(step, subRecipes).value
      && forall j :: 0 <= j < k ==> subRecipes[j].id != step.usesSubRecipe.value
  {
    var k := FindFirst(subRecipes, RecipeId, step.usesSubRecipe.value).value;
    assert subRecipes[k] == Invoked(step, subRecipes).value;
    assert forall j :: 0 <= j < k ==> RecipeId(subRecipes[j]) != step.usesSubRecipe.value;
  }

  /** The items of one step: its own item, then the inlined steps of the
      sub-recipe it invokes, composed against that sub-recipe's own totals,
      with no sub-recipes and the sub-step flag set. */
  function RenderStep(step: Step, catalog: map<string, Ingredient>, subRecipes: seq<Recipe>,
                      totals: map<string, real>, factor: real, isSub: bool): (r: Result<seq<RenderedStep>, Error>)
    ensures r.Ok? ==> |r.value| >= 1 && r.value[0].isSub == isSub && r.value[0].text == step.text
    ensures r.Err? ==> r.error.IngredientNotFound? && r.error.ingredientId !in catalog
    decreases |subRecipes|, 0, 0
  {
    match RenderUses(step, catalog, totals, factor)
    case Err(e) => Err(e)
    case Ok(cell) =>
      var item := RenderedStep(isSub, cell, step.text);
      match Invoked(step, subRecipes)
      case None => Ok([item])
      case Some(sub) =>
        match RenderSteps(sub.steps, catalog, [], Totals(sub.ingredients), factor, true)
        case Err(e) => Err(e)
        case Ok(inlined) => Ok([item] + inlined)
  }

  /** `steps.map(...).join('')`: the blocks of the steps, in order; the
      first failing step aborts the rendering. */
  function RenderSteps(steps: seq<Step>, catalog: map<string, Ingredient>, subRecipes: seq<Recipe>,
                       totals: map<string, real>, factor: real, isSub: bool): (r: Result<seq<RenderedStep>, Error>)
    ensures r.Ok? ==> |r.value| >= |steps|
    ensures r.Err? ==> r.error.IngredientNotFound? && r.error.ingredientId !in catalog
    decreases |subRecipes|, |steps|, 1
  {
    if |steps| == 0 then Ok([])
    else match RenderStep(steps[0], catalog, subRecipes, totals, factor, isSub)
      case Err(e) => Err(e)
      case Ok(block) =>
        match RenderSteps(steps[1..], catalog, subRecipes, totals, factor, isSub)
        case Err(e) => Err(e)
        case Ok(rest) => Ok(block + rest)
  }

  /** Two renderings one after the other: the first failure wins. */
  function Then(a: Result<seq<RenderedStep>, Error>, b: Result<seq<RenderedStep>, Error>): Result<seq<RenderedStep>, Error>
  {
    match a
    case Err(e) => Err(e)
    case Ok(x) => match b
      case Err(e) => Err(e)
      case Ok(y) => Ok(x + y)
  }

  /** The items that are not flagged as sub-steps. */
  function TopLevel(items: seq<RenderedStep>): (r: seq<RenderedStep>)
    ensures forall i :: 0 <= i < |r| ==> !r[i].isSub
  {
    if |items| == 0 then []
    else (if items[0].isSub then [] else [items[0]]) + TopLevel(items[1..])
  }

  lemma {:induction false} TopLevelAppend(a: seq<RenderedStep>, b: seq<RenderedStep>)
    ensures TopLevel(a + b) == TopLevel(a) + TopLevel(b)
  {
    if |a| == 0 {
      assert a + b == b;
    } else {
      assert (a + b)[0] == a[0];
      assert (a + b)[1..] == a[1..] + b;
      TopLevelAppend(a[1..], b);
    }
  }

  /** Composing a concatenation of step lists is composing each list and
      concatenating the results, the first list's failure taking precedence. */
  lemma {:induction false} RenderStepsAppend(a: seq<Step>, b: seq<Step>, catalog: map<string, Ingredient>,
                                             subRecipes: seq<Recipe>, totals: map<string, real>, factor: real, isSub: bool)
    ensures RenderSteps(a + b, catalog, subRecipes, totals, factor, isSub)
         == Then(RenderSteps(a, catalog, subRecipes, totals, factor, isSub),
                 RenderSteps(b, catalog, subRecipes, totals, factor, isSub))
  {
    if |a| == 0 {
      assert a + b == b;
      match RenderSteps(b, catalog, subRecipes, totals, factor, isSub)
      case Err(e) =>
      case Ok(y) => assert [] + y == y;
    } else {
      assert (a + b)[0] == a[0];
      assert (a + b)[1..] == a[1..] + b;
      RenderStepsAppend(a[1..], b, catalog, subRecipes, totals, factor, isSub);
      match RenderStep(a[0], catalog, subRecipes, totals, factor, isSub)
      case Err(e) =>
      case Ok(block) =>
        match RenderSteps(a[1..], catalog, subRecipes, totals, factor, isSub)
        case Err(e) =>
        case Ok(x) =>
          match RenderSteps(b, catalog, subRecipes, totals, factor, isSub)
          case Err(e) =>
          case Ok(y) => assert block + (x + y) == (block + x) + y;
    }
  }

  /** With no sub-recipes to inline, every step gives exactly one item,
      flagged as the call says, whose uses column is the step's own. This is
      how inlined steps are composed: they never inline further, and a
      `usesSubRecipe` among them only yields a label. */
  lemma {:induction false} FlatWithoutSubRecipes(steps: seq<Step>, catalog: map<string, Ingredient>,
                                                 totals: map<string, real>, factor: real, isSub: bool)
    requires RenderSteps(steps, catalog, [], totals, factor, isSub).Ok?
    ensures var out := RenderSteps(steps, catalog, [], totals, factor, isSub).value;
      && |out| == |steps|
      && forall i :: 0 <= i < |steps| ==>
           && RenderUses(steps[i], catalog, totals, factor).Ok?
           && out[i] == RenderedStep(isSub, RenderUses(steps[i], catalog, totals, factor).value, steps[i].text)
  {
    if |steps| > 0 {
      FlatWithoutSubRecipes(steps[1..], catalog, totals, factor, isSub);
      assert forall i :: 1 <= i < |steps| ==> steps[i] == steps[1..][i - 1];
    }
  }

  /** With no sub-recipes to inline, a step list renders exactly when the
      uses column of each of its steps does. */
  lemma {:induction false} FlatRendersIff(steps: seq<Step>, catalog: map<string, Ingredient>,
                                          totals: map<string, real>, factor: real, isSub: bool)
    ensures RenderSteps(steps, catalog, [], totals, factor, isSub).Ok?
        <==> forall i :: 0 <= i < |steps| ==> RenderUses(steps[i], catalog, totals, factor).Ok?
  {
    if |steps| > 0 {
      FlatRendersIff(steps[1..], catalog, totals, factor, isSub);
      assert forall i :: 1 <= i < |steps| ==> steps[i] == steps[1..][i - 1];
    }
  }

  /** The block of one step starts with the step's own item, flagged as the
      call says; every further item is a sub-step. A step that invokes no
      loaded sub-recipe, whatever its `usesSubRecipe` says, gets its item
      alone and fails only when its own uses fail. A step that invokes one
      is followed by one item per step of that sub-recipe, in order, each
      resolved against the sub-recipe's own totals. */
  lemma RenderStepBlock(step: Step, catalog: map<string, Ingredient>, subRecipes: seq<Recipe>,
                        totals: map<string, real>, factor: real, isSub: bool)
    ensures Invoked(step, subRecipes).None? ==>
      RenderStep(step, catalog, subRecipes, totals, factor, isSub).Ok? == RenderUses(step, catalog, totals, factor).Ok?
    ensures Invoked(step, subRecipes).Some? ==>
      var sub := Invoked(step, subRecipes).value;
      (RenderStep(step, catalog, subRecipes, totals, factor, isSub).Ok? <==>
        && RenderUses(step, catalog, totals, factor).Ok?
        && forall i :: 0 <= i < |sub.steps| ==> RenderUses(sub.steps[i], catalog, Totals(sub.ingredients), factor).Ok?)
    ensures RenderStep(step, catalog, subRecipes, totals, factor, isSub).Ok? ==>
      var block := RenderStep(step, catalog, subRecipes, totals, factor, isSub).value;
      && RenderUses(step, catalog, totals, factor).Ok?
      && |block| >= 1
      && block[0] == RenderedStep(isSub, RenderUses(step, catalog, totals, factor).value, step.text)
      && (forall j :: 1 <= j < |block| ==> block[j].isSub)
      && (Invoked(step, subRecipes).None? ==> |block| == 1)
      && (Invoked(step, subRecipes).Some? ==>
            var sub := Invoked(step, subRecipes).value;
            var subTotals := Totals(sub.ingredients);
            && |block| == 1 + |sub.steps|
            && forall i :: 0 <= i < |sub.steps| ==>
                 && RenderUses(sub.steps[i], catalog, subTotals, factor).Ok?
                 && block[1 + i] == RenderedStep(true, RenderUses(sub.steps[i], catalog, subTotals, factor).value, sub.steps[i].text))
  {
    match Invoked(step, subRecipes)
    case None =>
    case Some(sub) =>
      FlatRendersIff(sub.steps, catalog, Totals(sub.ingredients), factor, true);
      if RenderSteps(sub.steps, catalog, [], Totals(sub.ingredients), factor, true).Ok? {
        FlatWithoutSubRecipes(sub.steps, catalog, Totals(sub.ingredients), factor, true);
      }
  }

  /** Exactly one top-level item per input step, in input order: the
      step's own text and uses column. */
  lemma {:induction false} OneTopLevelItemPerStep(steps: seq<Step>, catalog: map<string, Ingredient>,
                                                  subRecipes: seq<Recipe>, totals: map<string, real>, factor: real)
    requires RenderSteps(steps, catalog, subRecipes, totals, factor, false).Ok?
    ensures var top := TopLevel(RenderSteps(steps, catalog, subRecipes, totals, factor, false).value);
      && |top| == |steps|
      && forall i :: 0 <= i < |steps| ==>
           && RenderUses(steps[i], catalog, totals, factor).Ok?
           && top[i] == RenderedStep(false, RenderUses(steps[i], catalog, totals, factor).value, steps[i].text)
  {
    if |steps| > 0 {
      var block := RenderStep(steps[0], catalog, subRecipes, totals, factor, false).value;
      var rest := RenderSteps(steps[1..], catalog, subRecipes, totals, factor, false).value;
      RenderStepBlock(steps[0], catalog, subRecipes, totals, factor, false);
      OneTopLevelItemPerStep(steps[1..], catalog, subRecipes, totals, factor);
      TopLevelAppend(block, rest);
      TopLevelOfSubSteps(block[1..]);
      assert block == [block[0]] + block[1..];
      TopLevelAppend([block[0]], block[1..]);
      assert forall i :: 1 <= i < |steps| ==> steps[i] == steps[1..][i - 1];
    }
  }

  lemma {:induction false} TopLevelOfSubSteps(items: seq<RenderedStep>)
    requires forall j :: 0 <= j < |items| ==> items[j].isSub
    ensures TopLevel(items) == []
  {
    if |items| > 0 {
      TopLevelOfSubSteps(items[1..]);
    }
  }

  /** Where the inlined steps go: when the `k`-th step invokes a loaded
      sub-recipe, the rendered list is the rendering of the steps before it,
      then that step's own item, then the sub-recipe's steps rendered flat
      as sub-steps against its own totals (one item each, as
      `FlatWithoutSubRecipes` states), then the rendering of the steps after
      it, whose first item is the top-level item of step `k + 1`
      (`FirstItem`). */
  lemma InlinedRightAfterInvokingStep(steps: seq<Step>, catalog: map<string, Ingredient>,
                                      subRecipes: seq<Recipe>, totals: map<string, real>, factor: real, k: nat)
    requires k < |steps|
    requires RenderSteps(steps, catalog, subRecipes, totals, factor, false).Ok?
    requires Invoked(steps[k], subRecipes).Some?
    ensures RenderSteps(steps[..k], catalog, subRecipes, totals, factor, false).Ok?
    ensures RenderSteps(steps[k + 1..], catalog, subRecipes, totals, factor, false).Ok?
    ensures RenderUses(steps[k], catalog, totals, factor).Ok?
    ensures var sub := Invoked(steps[k], subRecipes).value;
      RenderSteps(sub.steps, catalog, [], Totals(sub.ingredients), factor, true).Ok?
    ensures var sub := Invoked(steps[k], subRecipes).value;
      RenderSteps(steps, catalog, subRecipes, totals, factor, false).value
      == RenderSteps(steps[..k], catalog, subRecipes, totals, factor, false).value
       + ([RenderedStep(false, RenderUses(steps[k], catalog, totals, factor).value, steps[k].text)]
          + RenderSteps(sub.steps, catalog, [], Totals(sub.ingredients), factor, true).value
          + RenderSteps(steps[k + 1..], catalog, subRecipes, totals, factor, false).value)
  {
    RenderedAround(steps, catalog, subRecipes, totals, factor, false, k);
    InvokingBlock(steps[k], catalog, subRecipes, totals, factor, false);
  }

  /** The block of a step that invokes a loaded sub-recipe: the step's own
      item, then the flat rendering of the sub-recipe's steps. */
  lemma InvokingBlock(step: Step, catalog: map<string, Ingredient>, subRecipes: seq<Recipe>,
                      totals: map<string, real>, factor: real, isSub: bool)
    requires RenderStep(step, catalog, subRecipes, totals, factor, isSub).Ok?
    requires Invoked(step, subRecipes).Some?
    ensures RenderUses(step, catalog, totals, factor).Ok?
    ensures var sub := Invoked(step, subRecipes).value;
      && RenderSteps(sub.steps, catalog, [], Totals(sub.ingredients), factor, true).Ok?
      && RenderStep(step, catalog, subRecipes, totals, factor, isSub).value
         == [RenderedStep(isSub, RenderUses(step, catalog, totals, factor).value, step.text)]
          + RenderSteps(sub.steps, catalog, [], Totals(sub.ingredients), factor, true).value
  {
  }

  /** The first item of a rendered list is the first step's own. */
  lemma FirstItem(steps: seq<Step>, catalog: map<string, Ingredient>, subRecipes: seq<Recipe>,
                  totals: map<string, real>, factor: real, isSub: bool)
    requires |steps| > 0
    requires RenderSteps(steps, catalog, subRecipes, totals, factor, isSub).Ok?
    ensures RenderUses(steps[0], catalog, totals, factor).Ok?
    ensures RenderSteps(steps, catalog, subRecipes, totals, factor, isSub).value[0]
         == RenderedStep(isSub, RenderUses(steps[0], catalog, totals, factor).value, steps[0].text)
  {
  }

  /** A rendered list is the rendering of the steps before `k`, then the
      block of step `k`, then the rendering of the steps after it. */
  lemma RenderedAround(steps: seq<Step>, catalog: map<string, Ingredient>, subRecipes: seq<Recipe>,
                       totals: map<string, real>, factor: real, isSub: bool, k: nat)
    requires k < |steps|
    requires RenderSteps(steps, catalog, subRecipes, totals, factor, isSub).Ok?
    ensures RenderSteps(steps[..k], catalog, subRecipes, totals, factor, isSub).Ok?
    ensures RenderStep(steps[k], catalog, subRecipes, totals, factor, isSub).Ok?
    ensures RenderSteps(steps[k + 1..], catalog, subRecipes, totals, factor, isSub).Ok?
    ensures RenderSteps(steps, catalog, subRecipes, totals, factor, isSub).value
         == RenderSteps(steps[..k], catalog, subRecipes, totals, factor, isSub).value
          + (RenderStep(steps[k], catalog, subRecipes, totals, factor, isSub).value
             + RenderSteps(steps[k + 1..], catalog, subRecipes, totals, factor, isSub).value)
  {
    assert steps[..k] + steps[k..] == steps;
    RenderStepsAppend(steps[..k], steps[k..], catalog, subRecipes, totals, factor, isSub);
    assert steps[k..][0] == steps[k] && steps[k..][1..] == steps[k + 1..];
    assert RenderSteps(steps[k..], catalog, subRecipes, totals, factor, isSub)
        == Then(RenderStep(steps[k], catalog, subRecipes, totals, factor, isSub),
                RenderSteps(steps[k + 1..], catalog, subRecipes, totals, factor, isSub));
  }

  /** Changing the scale only changes amounts: whether the method renders,
      how many items it has, their order, texts and sub-step flags, and the
      form of each uses column are the same under every factor. */
  lemma {:induction false} RescaleKeepsLayout(steps: seq<Step>, catalog: map<string, Ingredient>, subRecipes: seq<Recipe>,
                                              totals: map<string, real>, factor: real, other: real, isSub: bool)
    ensures RenderSteps(steps, catalog, subRecipes, totals, factor, isSub).Ok?
        == RenderSteps(steps, catalog, subRecipes, totals, other, isSub).Ok?
    ensures RenderSteps(steps, catalog, subRecipes, totals, factor, isSub).Ok? ==>
      SameLayout(RenderSteps(steps, catalog, subRecipes, totals, factor, isSub).value,
                 RenderSteps(steps, catalog, subRecipes, totals, other, isSub).value)
    decreases |subRecipes|, |steps|, 1
  {
    if |steps| > 0 {
      RescaleKeepsStepLayout(steps[0], catalog, subRecipes, totals, factor, other, isSub);
      RescaleKeepsLayout(steps[1..], catalog, subRecipes, totals, factor, other, isSub);
      var a := RenderStep(steps[0], catalog, subRecipes, totals, factor, isSub);
      var b := RenderStep(steps[0], catalog, subRecipes, totals, other, isSub);
      var c := RenderSteps(steps[1..], catalog, subRecipes, totals, factor, isSub);
      var d := RenderSteps(steps[1..], catalog, subRecipes, totals, other, isSub);
      if a.Ok? && c.Ok? {
        SameLayoutAppend(a.value, c.value, b.value, d.value);
      }
    }
  }

  lemma {:induction false} RescaleKeepsStepLayout(step: Step, catalog: map<string, Ingredient>, subRecipes: seq<Recipe>,
                                                  totals: map<string, real>, factor: real, other: real, isSub: bool)
    ensures RenderStep(step, catalog, subRecipes, totals, factor, isSub).Ok?
        == RenderStep(step, catalog, subRecipes, totals, other, isSub).Ok?
    ensures RenderStep(step, catalog, subRecipes, totals, factor, isSub).Ok? ==>
      SameLayout(RenderStep(step, catalog, subRecipes, totals, factor, isSub).value,
                 RenderStep(step, catalog, subRecipes, totals, other, isSub).value)
    decreases |subRecipes|, 0, 0
  {
    RescaleKeepsUsesForm(step, catalog, totals, factor, other);
    var cf := RenderUses(step, catalog, totals, factor);
    var co := RenderUses(step, catalog, totals, other);
    if cf.Ok? {
      var hf := RenderedStep(isSub, cf.value, step.text);
      var ho := RenderedStep(isSub, co.value, step.text);
      match Invoked(step, subRecipes)
      case None =>
      case Some(sub) =>
        RescaleKeepsLayout(sub.steps, catalog, [], Totals(sub.ingredients), factor, other, true);
        var f := RenderSteps(sub.steps, catalog, [], Totals(sub.ingredients), factor, true);
        var o := RenderSteps(sub.steps, catalog, [], Totals(sub.ingredients), other, true);
        if f.Ok? {
          SameLayoutAppend([hf], f.value, [ho], o.value);
        }
    }
  }

  /** Item by item, the same flags, texts and uses-column forms. */
  ghost predicate SameLayout(xs: seq<RenderedStep>, ys: seq<RenderedStep>)
  {
    && |xs| == |ys|
    && forall i :: 0 <= i < |xs| ==>
         && xs[i].isSub == ys[i].isSub
         && xs[i].text == ys[i].text
         && SameForm(xs[i].uses, ys[i].uses)
  }

  /** The same form of uses column: the same number of listed uses with the
      same names and units, or the same label, or both the dash. */
  ghost predicate SameForm(a: UsesCell, b: UsesCell)
  {
    match a
    case Usages(la) =>
      b.Usages? && |la| == |b.lines| &&
      forall i :: 0 <= i < |la| ==> la[i].name == b.lines[i].name && la[i].units == b.lines[i].units
    case SubRecipeLabel(c) => b == a
    case NoUses => b == a
  }

  lemma SameLayoutAppend(x1: seq<RenderedStep>, x2: seq<RenderedStep>, y1: seq<RenderedStep>, y2: seq<RenderedStep>)
    requires SameLayout(x1, y1) && SameLayout(x2, y2)
    ensures SameLayout(x1 + x2, y1 + y2)
  {
  }

  lemma RescaleKeepsUsesForm(step: Step, catalog: map<string, Ingredient>, totals: map<string, real>, factor: real, other: real)
    ensures RenderUses(step, catalog, totals, factor).Ok? == RenderUses(step, catalog, totals, other).Ok?
    ensures RenderUses(step, catalog, totals, factor).Ok? ==>
      SameForm(RenderUses(step, catalog, totals, factor).value, RenderUses(step, catalog, totals, other).value)
  {
    UsageLinesSpec(step.uses, catalog, totals, factor);
    UsageLinesSpec(step.uses, catalog, totals, other);
  }
}
