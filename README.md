# Recipe page composition and scaling, in Dafny

This project models the logic of the recipe page script `recipe.js` of the
"what's for dinner" site: how a recipe and the sub-recipes it declares are
resolved through the recipe index, how each recipe's ingredient lines become
a totals map, how a method step's uses are resolved against those totals
and scaled, how the method list is composed with the steps of an invoked
sub-recipe inlined after the invoking step, and how the ingredient groups
are listed. The page's output is modelled as data (`PageView`,
`RenderedStep`, `IngredientGroup`) rather than HTML.

Modules, one per part of the script:

- `Wrappers`: `Option` and `Result`.
- `RecipeData`: the JSON records, `FromEntries` (`Object.fromEntries`), the
  totals and catalog maps, `FindFirst` (`Array.prototype.find`), and the
  page's errors.
- `Scaling`: `scaleQty` (`Round2`, `Scale`) and the base amount of a use.
- `Uses`: `renderUses`.
- `Composer`: `renderSteps`.
- `Groups`: `renderIngredientGroup` and the list of groups.
- `Page`: `renderRecipe`, the resolution of a recipe and its sub-recipes,
  and the class `RecipePage` holding the script's module-level state
  (`currentScale`, `currentRecipe`, `currentSubRecipes`,
  `currentIngredientMap`, `baseRecipeTotals`) with the loader and the
  scale-button handler as methods.
- `Scenarios`: worked examples on small concrete recipes.

The three exceptions below, which the script can raise while loading or
rendering, are `Result` failures: reading `.file` of a missing index entry
(`RecipeNotFound`), a fetch whose document cannot be read (`FetchFailed`),
and reading `.name` of a missing catalog entry (`IngredientNotFound`). When
several could occur, the one the script reaches first is the one returned.

In these details the model follows the script's actual behaviour:

- The label of an invoked sub-recipe only has its underscores replaced by
  spaces; it is not capitalised.
- Nesting is a `sub-step` flag (`isSub`), not a depth number. The inlined
  steps are composed with no sub-recipes, so nesting stops at one level.
- `Object.fromEntries` lets a later line with the same ingredient id
  overwrite an earlier one; the totals and catalog maps keep the last entry.
- A note that is the empty string is not shown, as it is falsy.

## Model

| member | source | states |
|---|---|---|
| RecipeData.FromEntries | recipe.js:36-38 | the map's keys are exactly the keys of the entries |
| RecipeData.FromEntriesLastWins | recipe.js:20-22 | an entry not followed by another with the same key gives that key's value |
| RecipeData.TotalsAt | recipe.js:36-38 | a recipe's total for an ingredient is the `totalQty` of the last line naming it |
| RecipeData.Totals | recipe.js:36-38 | an id has a total exactly when some ingredient line of the recipe names it |
| RecipeData.CatalogOf | recipe.js:20-22 | an id is in the ingredient map exactly when some catalog entry has it |
| RecipeData.CatalogAt | recipe.js:20-22 | the ingredient map sends a catalog id to the last catalog entry with that id |
| RecipeData.FindFirst | recipe.js:157 | the result is the first element whose id matches, and none exactly when no element matches |
| Scaling.Round2 | recipe.js:54 | rounding to two decimals moves a number by at most half a hundredth and keeps its sign |
| Scaling.Round2OfHundredths | recipe.js:54 | a number in whole hundredths is unchanged by the rounding |
| Scaling.Round2Idempotent | recipe.js:54 | rounding a rounded number changes nothing |
| Scaling.Scale | recipe.js:53-55 | the scaled amount is within half a hundredth of `value * factor` |
| Scaling.BaseAmount | recipe.js:183-191 | the base amount of a use is `total * qty` for a use of at most 1 with a total, `qty` for one without a total (the total defaults to 1), and `qty` for a use above 1 |
| Scaling.ScaleByOne | recipe.js:53-55 | at scale 1 an amount in whole hundredths is shown as it is |
| Scaling.ScaledUseAmount | recipe.js:183-193 | the shown amount is the scaled `total * qty` for a use of at most 1, the scaled `qty` when the total is missing, and the scaled `qty` for a use above 1 |
| Scaling.AbsoluteUse | recipe.js:186-191 | a use above 1 has base amount `qty` under any two totals maps |
| Uses.SpacedLabel | recipe.js:202 | the label has the id's length, every underscore becomes a space, other characters stay, and no underscore remains |
| Uses.SpacedLabelWithoutUnderscore | recipe.js:202 | an id without underscores is its own label |
| Uses.UsageLinesSpec | recipe.js:181-196 | the uses list renders exactly when every use names a catalog ingredient, with one line per use in order |
| Uses.UsageLinesFirstError | recipe.js:182-195 | the failure names the first use whose ingredient the catalog lacks |
| Uses.UsageLines | recipe.js:181-196 | a rendered uses list has one line per use; its only failure is a missing catalog ingredient, naming an id the catalog lacks |
| Uses.RenderUses | recipe.js:177-206 | only a non-empty uses list can fail, with a missing catalog ingredient; a rendered non-empty list has one line per use |
| Uses.UseAmount | recipe.js:181-195 | the i-th line shows the i-th use's catalog name and units and its base amount against the owning totals, scaled |
| Uses.UsesPriority | recipe.js:177-206 | a non-empty uses list wins, else the sub-recipe label (the id with its underscores turned into spaces), else the dash; only the list can fail |
| Composer.Invoked | recipe.js:156-158 | a step invokes a sub-recipe exactly when it names one and some loaded sub-recipe has that id, and the one invoked has it |
| Composer.InvokedIsFirstMatch | recipe.js:157 | the sub-recipe invoked is the first loaded one with the step's id |
| Composer.InvokedFirstIndex | recipe.js:157 | a sub-recipe invoked is a loaded one at a position before which no loaded sub-recipe has the step's id |
| Composer.RenderStep | recipe.js:144-171 | a step's block starts with an item carrying the step's text and the given flag; its only failure is a missing catalog ingredient |
| Composer.RenderSteps | recipe.js:143-173 | a rendered step list has at least one item per step; its only failure is a missing catalog ingredient |
| Composer.FlatRendersIff | recipe.js:165 | with no sub-recipes, a step list renders exactly when every step's uses column does |
| Composer.RenderStepsAppend | recipe.js:144-172 | composing concatenated step lists concatenates the compositions, the earlier failure first |
| Composer.RenderStepBlock | recipe.js:144-170 | a step's block is its own item then only sub-steps; an unmatched sub-recipe adds nothing and no failure; a matched one renders exactly when the step's uses and every sub-recipe step's uses do, and adds one item per sub-recipe step, in order, against the sub-recipe's own totals |
| Composer.FlatWithoutSubRecipes | recipe.js:165 | with no sub-recipes each step gives exactly one item with the given flag and its own uses column, so inlined steps never inline further |
| Composer.OneTopLevelItemPerStep | recipe.js:144-172 | the items not flagged as sub-steps are exactly one per input step, in input order |
| Composer.InlinedRightAfterInvokingStep | recipe.js:156-168 | when step k invokes a loaded sub-recipe, the rendered method is the rendering of the steps before k, then step k's own item, then the sub-recipe's steps rendered flat as sub-steps against its own totals, then the rendering of the steps after k |
| Composer.InvokingBlock | recipe.js:144-168 | the block of a step invoking a loaded sub-recipe is the step's own item followed by the sub-recipe's steps rendered flat as sub-steps against its own totals |
| Composer.RenderedAround | recipe.js:143-173 | a rendered list is the rendering of the steps before k, then step k's block, then the rendering of the steps after k |
| Composer.FirstItem | recipe.js:144-154 | the first item of a rendered list is the first step's own item, with the given flag and its uses column |
| Composer.RescaleKeepsLayout | recipe.js:62-73 | under any two scale factors the method renders or fails alike, with the same items, flags, texts and uses-column forms |
| Composer.RescaleKeepsStepLayout | recipe.js:144-170 | the same for the block of one step |
| Composer.RescaleKeepsUsesForm | recipe.js:177-206 | the uses column renders or fails alike under any two factors, with the same form, names and units |
| Groups.GroupItems | recipe.js:119-136 | a rendered group has one row per ingredient line; its only failure is a missing catalog ingredient, naming an id the catalog lacks |
| Groups.RenderIngredientGroup | recipe.js:115-139 | a rendered group is headed by the recipe's name and has one row per ingredient line; its only failure is a missing catalog ingredient |
| Groups.SubRecipeGroups | recipe.js:87 | the sub-recipe groups are one per sub-recipe, each headed by its name; the only failure is a missing catalog ingredient |
| Groups.RenderGroups | recipe.js:85-88 | the groups are one more than the sub-recipes, the first headed by the main recipe's name; the only failure is a missing catalog ingredient |
| Groups.GroupItemsSpec | recipe.js:119-136 | a group renders exactly when every line names a catalog ingredient, with one row per line in order, carrying the catalog name and units, the shown note and the scaled total |
| Groups.GroupItemsFirstError | recipe.js:120-130 | the failure names the first line whose ingredient the catalog lacks |
| Groups.SubRecipeGroupsSpec | recipe.js:87 | the sub-recipe groups render exactly when each does, one per sub-recipe, in order |
| Groups.GroupsInOrder | recipe.js:85-88 | the groups render exactly when the main recipe's and every sub-recipe's do, and are then the main recipe's then each sub-recipe's in order, each titled with its recipe's name |
| Groups.GroupsListed | recipe.js:85-88 | a rendered list of groups is the main recipe's group, then each sub-recipe's, in order and titled with its name |
| Page.RenderRecipe | recipe.js:80-111 | the page renders exactly when its groups and its method do, an ingredient-group failure is the one reported, and a rendered page has the recipe's title, one group more than sub-recipes, and one top-level item per step |
| Page.EntryFile | recipe.js:24-25 | there is no file exactly when no index entry has the id |
| Page.EntryFileIsFirstMatch | recipe.js:24 | the file found is that of the first index entry with the id |
| Page.EntryFileFirstIndex | recipe.js:24 | a file found is that of an index entry with the id before which no entry has it |
| Page.LookupRecipeOutcome | recipe.js:24-25 | with an index entry for the id, the lookup loads the first such entry's file, or fails with that file's fetch failure when it cannot be fetched |
| Page.LookupRecipeNotFound | recipe.js:24-25 | the lookup fails with the not-found error exactly when no index entry has the id |
| Page.LoadSubRecipes | recipe.js:27-33 | a loading that succeeds gives one recipe per declared id, the last being the last id's lookup |
| Page.Resolve | recipe.js:24-34 | a resolution that succeeds holds the looked-up recipe and one sub-recipe per declaration; a failed main lookup is the resolution's failure |
| Page.LoadedAreLookedUp | recipe.js:28-33 | each sub-recipe a successful loading gives is the lookup of the declared id at its position |
| Page.AllLookedUpLoad | recipe.js:28-33 | loading succeeds when every declared id loads |
| Page.LoadSubRecipesSpec | recipe.js:28-33 | loading succeeds exactly when each declared id loads, giving one recipe per declared id, in order |
| Page.LoadSubRecipesFirstError | recipe.js:29-33 | the failure is that of the first declared id that does not load |
| Page.ResolveOneLevel | recipe.js:24-34 | resolution succeeds exactly when the recipe and each sub-recipe it declares load, and yields those sub-recipes one per declaration, in order, and nothing deeper |
| Page.UnknownRecipeNotFound | recipe.js:24-25 | an id the index lacks fails resolution with the not-found error |
| Page.DeclaredLoadedOutcome | recipe.js:27-33 | what the loop over the declared sub-recipes leaves is the sequential loading's outcome: all of them when it ran to the end, else the failure of the id it stopped at |
| Page.RecipePage.constructor | recipe.js:6-10 | the initial state: scale 1, no recipe, no sub-recipes, empty maps |
| Page.RecipePage.Load | recipe.js:14-49 | the catalog map is built; on success the state holds the resolved recipe, its sub-recipes and its totals and the result is the rendered page; on failure the result is the resolution's failure and the state is what the loader had assigned; the files fetched are the recipe's, then the index files of the declared sub-recipes in order, exactly as many as the lookups that found an index entry; only a success wires the scale buttons |
| Page.RecipePage.LoadMain | recipe.js:24-25 | the result is the lookup of the page's recipe id; a success makes it the current recipe and a failure leaves the current recipe as it was; the entry's file is fetched when there is an entry, and nothing is fetched otherwise |
| Page.RecipePage.LoadDeclared | recipe.js:27-33 | the loop leaves the longest prefix of declared sub-recipes that load, stops at the first that does not, and fetches one file per lookup that found an entry: all of them on success, one per loaded sub-recipe after a missing entry, and one more after a failed fetch |
| Page.RecipePage.SetScale | recipe.js:62-73 | callable only once the loader has wired the buttons; the factor becomes the scale, nothing else changes, and the view is the loaded recipe rendered at that factor |
| Scenarios.FractionOfTotalScaled | recipe.js:186-193 | half of a 200 total at scale 2 is shown as 200 |
| Scenarios.AbsoluteIgnoresTotals | recipe.js:189-193 | a use of 5 at scale 1 is shown as 5 under any totals map |
| Scenarios.UnloadedSubRecipeIsLabelOnly | recipe.js:156-158 | a step invoking a sub-recipe that was not loaded gets its label and no inlined steps |
| Scenarios.MissingIndexEntry | recipe.js:24-25 | a recipe id absent from the index fails with the not-found error |

## Left out

- `LoadDeclared` collects the loaded sub-recipes in a local sequence and assigns `currentSubRecipes` once, when the loop stops, where the script pushes each one as it arrives; nothing that reads `currentSubRecipes` runs in between, since the scale buttons are wired only after the loop.
- Fetching and JSON parsing (`fetch`, `Promise.all`, `r.json()`): the index and catalog documents are parameters of `Load`, and fetching a file is a lookup in a map from file to recipe; a file that is not in the map is a fetch failure.
- A rejected fetch of the index or the catalog document (`Promise.all`, recipe.js:15-18): those documents are given, so that failure is not modelled.
- The TypeErrors raised by other JSON shapes, such as a sub-recipe without `steps` or a recipe without `ingredients`: the records always carry those fields.
- The page's id comes from the URL query string; here it is a parameter. A missing `id` parameter (JavaScript `null`) is not modelled separately.
- The DOM: `innerHTML` templating, HTML markup and escaping, the `checked` toggling on ingredient rows, and the wiring of the scale buttons' listeners. `setupScaleControls`'s handler is modelled only as `SetScale`.
- Partial DOM writes: the title is written before the ingredient groups, and the groups and info block before the method, so a failure in the method leaves those on the page; the model returns a failure for the whole view.
- `Round2`: the rounding is `toFixed(2)`'s rule applied to exact reals; the binary floating-point value of `value * currentScale`, and of every quantity, is not modelled.
- `parseFloat` of a button's `data-scale` attribute: the factor is a real parameter.
- `renderNotes` and the info block (oven setting, prep and cook time, servings): presentation only.
- `main.js`, the card list of another page: presentation only.
- JSON shapes outside the records used here: a `uses` or `subRecipes` value that is missing is the empty sequence; non-array or non-numeric values, a missing `totalQty` (which the script would also treat as a missing total) and ids that collide with JavaScript object prototype keys are not modelled.
