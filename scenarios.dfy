/** Worked examples of the page's behaviour on small concrete recipes. */
module Scenarios {
  import opened Wrappers
  import opened RecipeData
  import opened Uses
  import opened Composer
  import opened Page

  const Flour := Ingredient("flour", "Flour", "g")
  const Salt := Ingredient("salt", "Salt", "g")

  /** Half of a 200 g flour total, at double scale, shows 200. */
  lemma FractionOfTotalScaled()
    ensures RenderSteps([Step("Mix", [Use("flour", 0.5)], None)], map["flour" := Flour],
                        [], Totals([IngredientLine("flour", 200.0, None)]), 2.0, false)
         == Ok([RenderedStep(false, Usages([UsageLine("Flour", 200.0, "g")]), "Mix")])
  {
    var step := Step("Mix", [Use("flour", 0.5)], None);
    var totals := Totals([IngredientLine("flour", 200.0, None)]);
    TotalsAt([IngredientLine("flour", 200.0, None)], 0);
    assert totals["flour"] == 200.0;
    assert Scaling.BaseAmount(Use("flour", 0.5), totals) == 100.0;
    assert Scaling.Scale(100.0, 2.0) == 200.0;
    var line := UsageLine("Flour", 200.0, "g");
    assert UseLine(Use("flour", 0.5), Flour, totals, 2.0) == line;
    assert step.uses[1..] == [];
    assert UsageLines(step.uses[1..], map["flour" := Flour], totals, 2.0) == Ok([]);
    assert "flour" in map["flour" := Flour] && map["flour" := Flour]["flour"] == Flour;
    assert [line] + [] == [line];
    assert UsageLines(step.uses, map["flour" := Flour], totals, 2.0) == Ok([line]);
    assert RenderUses(step, map["flour" := Flour], totals, 2.0) == Ok(Usages([line]));
    assert RenderStep(step, map["flour" := Flour], [], totals, 2.0, false)
        == Ok([RenderedStep(false, Usages([line]), "Mix")]);
    assert [step][1..] == [];
    assert RenderSteps([step][1..], map["flour" := Flour], [], totals, 2.0, false) == Ok([]);
    assert [RenderedStep(false, Usages([line]), "Mix")] + [] == [RenderedStep(false, Usages([line]), "Mix")];
  }

  /** An absolute use of 5 at scale 1 shows 5, whatever the totals hold. */
  lemma AbsoluteIgnoresTotals(totals: map<string, real>)
    ensures RenderSteps([Step("Season", [Use("salt", 5.0)], None)], map["salt" := Salt], [], totals, 1.0, false)
         == Ok([RenderedStep(false, Usages([UsageLine("Salt", 5.0, "g")]), "Season")])
  {
    var step := Step("Season", [Use("salt", 5.0)], None);
    assert Scaling.BaseAmount(Use("salt", 5.0), totals) == 5.0;
    assert Scaling.Scale(5.0, 1.0) == 5.0;
    var line := UsageLine("Salt", 5.0, "g");
    assert UseLine(Use("salt", 5.0), Salt, totals, 1.0) == line;
    assert step.uses[1..] == [];
    assert UsageLines(step.uses[1..], map["salt" := Salt], totals, 1.0) == Ok([]);
    assert "salt" in map["salt" := Salt] && map["salt" := Salt]["salt"] == Salt;
    assert [line] + [] == [line];
    assert UsageLines(step.uses, map["salt" := Salt], totals, 1.0) == Ok([line]);
    assert RenderUses(step, map["salt" := Salt], totals, 1.0) == Ok(Usages([line]));
    assert RenderStep(step, map["salt" := Salt], [], totals, 1.0, false)
        == Ok([RenderedStep(false, Usages([line]), "Season")]);
    assert [step][1..] == [];
    assert RenderSteps([step][1..], map["salt" := Salt], [], totals, 1.0, false) == Ok([]);
    assert [RenderedStep(false, Usages([line]), "Season")] + [] == [RenderedStep(false, Usages([line]), "Season")];
  }

  /** A step invoking a sub-recipe that was not loaded shows the id as its
      label and inlines nothing. */
  lemma UnloadedSubRecipeIsLabelOnly()
    ensures RenderSteps([Step("Line the tin", [], Some("pie"))], map[], [], map[], 1.0, false)
         == Ok([RenderedStep(false, SubRecipeLabel("pie"), "Line the tin")])
  {
    var step := Step("Line the tin", [], Some("pie"));
    var item := RenderedStep(false, SubRecipeLabel("pie"), "Line the tin");
    SpacedLabelWithoutUnderscore("pie");
    assert RenderStep(step, map[], [], map[], 1.0, false) == Ok([item]);
    assert RenderSteps([step][1..], map[], [], map[], 1.0, false) == Ok([]);
    assert [item] + [] == [item];
  }

  /** A recipe id the index lacks fails with the not-found error. */
  lemma MissingIndexEntry()
    ensures Resolve("cake", [IndexEntry("bread", "Bread", "data/bread.json")], map[]) == Err(RecipeNotFound("cake"))
  {
  }
}
