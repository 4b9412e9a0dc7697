# Meal planner ingredient engine, modelled in Dafny

This project models the logic core of a React meal-planning app, stated and
proved in Dafny. The core is:

- the ingredient-name normaliser that matches recipe lines against the pantry
  inventory, and the weaker "lower-case and trim" key the forms write;
- the application state, the inventory and the recipe library, with the
  handlers that toggle stock, quick-add an item, save, update and delete
  records, and search recipes;
- the recipe editor: its line editor, library suggestions, stock depletion
  and auto-buy arithmetic, usage bar, steps and save;
- the grocery list: which items are listed, grouping by store, buy
  quantities and the quick-add box;
- the ingredient form (its defaults and its save) and the detail view's
  stock toggle;
- the nutrition dashboard's per-day sums, weekly totals and macro chart.

Quantities are exact `real` numbers and strings are sequences of characters.
JavaScript's `x || d` on an optional number or string is written out as
`Types.OrNum` and `Types.OrStr`: the value when present and not zero or
empty, the default otherwise. Random ids, `Date.now()` and today's date are
parameters of the operations that use them.

Files, one module each:

| file | module | models |
|---|---|---|
| `wrappers.dfy` | `Wrappers` | `Option` and `Result` |
| `text.dfy` | `Text` | ASCII `toLowerCase`, `trim`, `includes`, `endsWith` |
| `seqs.dfy` | `Seqs` | `filter`, `findIndex`, replace-or-append by key, `slice` |
| `types.dfy` | `Types` | the records and enumerations of `types.ts` |
| `normalizer.dfy` | `Normalizer` | `normalizeIngredientName` and the weak key |
| `normalizer_examples.dfy` | `NormalizerExamples` | the normaliser on sample names |
| `kitchen.dfy` | `Kitchen` | the state and handlers of `App.tsx` (class `Kitchen`) |
| `recipe_form.dfy` | `RecipeForm` | the recipe editor (class `Editor`) |
| `depletion.dfy` | `Depletion` | the per-line stock arithmetic and usage bar |
| `grocery.dfy` | `Grocery` | the grocery list |
| `ingredient_form.dfy` | `IngredientForm` | the ingredient form |
| `ingredient_detail.dfy` | `IngredientDetail` | the detail view's stock toggle |
| `nutrition.dfy` | `NutritionDashboard` | the nutrition dashboard |

## Model

| member | source | states |
|---|---|---|
| Types.OrNum | components/GroceryList.tsx:60-61 | `x \|\| d` on an optional number is the value when present and non-zero, the default otherwise, and is never zero when the default is not |
| Types.OrStr | components/GroceryList.tsx:18 | `s \|\| d` on an optional string is the string when present and non-empty, the default otherwise, and is never empty when the default is not |
| Types.CategoriesComplete | components/IngredientForm.tsx:12 | the form offers every category, seven of them, each once |
| Types.LocationsComplete | components/IngredientForm.tsx:13 | the form offers every storage location, four of them, each once |
| Types.CategoryNameInjective | types.ts:2 | distinct categories are stored as distinct strings |
| Text.LowerChar | App.tsx:32 | a capital becomes the small letter 32 code points above it, any other character is kept, no capital results, and whitespace stays whitespace |
| Text.ToLower | App.tsx:32 | lower-casing keeps the length (its definition maps every character through `LowerChar`; the lemmas below state what that gives) |
| Text.Trim | App.tsx:33 | definition: leading, then trailing whitespace dropped; `TrimShape` and `TrimIdempotent` state its properties |
| Text.Contains | App.tsx:88 | definition of `includes`: the query is a prefix of the string or of one of its tails; `ContainsEmpty` states the empty query |
| Text.EndsWith | App.tsx:39 | definition of `endsWith` and of an anchored `/suf$/`: the suffix is no longer than the string and equals its tail of that length |
| Text.ToLowerNoUpper | App.tsx:32 | a lower-cased string contains no capital letter |
| Text.ToLowerKeeps | App.tsx:32 | a string without capitals is its own lower case |
| Text.ToLowerAppend | App.tsx:32 | lower-casing distributes over concatenation |
| Text.TrimShape | App.tsx:33 | the trimmed string is a contiguous block of the input that is empty or starts and ends with a non-space |
| Text.TrimIdempotent | App.tsx:33 | trimming twice is trimming once |
| Text.ToLowerTrim | App.tsx:32-33 | lower-casing and trimming commute |
| Text.ContainsEmpty | App.tsx:88 | the empty query is contained in every key |
| Normalizer.Normalize | App.tsx:29-40 | definition of `normalizeIngredientName`: the empty key for an empty name, else lower-case, trim, strip `.,()`, collapse whitespace, the three suffix rewrites and the final-`s` rule, in the source's order; the `Normalizer` lemmas below and `NormalizerExamples` state its properties |
| Normalizer.SimpleKey | components/RecipeForm.tsx:61 | definition of the forms' key: lower-case, then trim; `NormalizeRefinesSimpleKey` relates it to the full key |
| Normalizer.RemovePunct | App.tsx:34 | the `/[.,()]/g` pass never lengthens the string; `RemovePunctChars` states what it keeps |
| Normalizer.CollapseSpaces | App.tsx:35 | definition of the `/\s+/g` to one space pass: each maximal whitespace run becomes one space; `CollapseSpacesFacts` states its properties |
| Normalizer.ReplaceSuffix | App.tsx:36-38 | definition of an anchored suffix rewrite: the suffix replaced when the string ends with it, else unchanged; `NormalizeIsClean` and `WordKey` use it |
| Normalizer.DropFinalS | App.tsx:39 | definition of the final-`s` rule: a final `s` is dropped unless the string ends in `ss` or `us`; `DropFinalSFinal` states its property |
| Normalizer.Cleaned | App.tsx:34-35 | definition: punctuation removal then whitespace collapsing on the lower-cased, trimmed name; `CleanedIsClean` states its properties |
| Normalizer.Singular | App.tsx:36-39 | definition: the three plural rewrites in the source's order, then the final-`s` rule; `NormalizeFinalS` and `WordKey` state its properties |
| Normalizer.RemovePunctChars | App.tsx:34 | the punctuation pass keeps only characters of its input, none of them `.`, `,`, `(` or `)` |
| Normalizer.CollapseSpacesFacts | App.tsx:35 | the whitespace pass keeps only characters of its input, never puts two whitespace characters side by side and never lengthens the string |
| Normalizer.CleanedIsClean | App.tsx:32-35 | after lower-casing, trimming, punctuation removal and collapsing, the name has no capital, no punctuation, no double whitespace and is no longer than before |
| Normalizer.NormalizeIsClean | App.tsx:29-40 | every key has no capital, no `.,()`, no two adjacent whitespace characters, and is no longer than the name |
| Normalizer.DropFinalSFinal | App.tsx:39 | after the final-`s` rule, a string ending in `s` ends in `ss` or `us` |
| Normalizer.NormalizeFinalS | App.tsx:36-39 | a key ending in `s` ends in `ss` or `us` |
| Normalizer.NormalizeRefinesSimpleKey | App.tsx:29-40 | names with the same lower-cased trimmed form have the same key |
| Normalizer.NormalizeOfTrimmed | App.tsx:33 | trimming a name first does not change its key |
| Normalizer.WordKey | App.tsx:36-39 | for a one-word name of letters, the key is the plural rules applied to the lower-cased word |
| NormalizerExamples.TomatoesExample | App.tsx:36 | "Tomatoes" becomes "tomato" |
| NormalizerExamples.PotatoesExample | App.tsx:37 | "Potatoes" becomes "potato" |
| NormalizerExamples.BerriesExample | App.tsx:38 | "Berries" becomes "berry" |
| NormalizerExamples.EggsExample | App.tsx:39 | "Eggs" becomes "egg" |
| NormalizerExamples.GlassExample | App.tsx:39 | "Glass" keeps its final `s` |
| NormalizerExamples.HummusExample | App.tsx:39 | "Hummus" keeps its final `s` |
| NormalizerExamples.PunctuationExample | App.tsx:29-40 | "  Avocado. " becomes "avocado" |
| NormalizerExamples.NotIdempotent | App.tsx:29-40 | "a ." becomes "a ", which becomes "a": the normaliser is not idempotent |
| Seqs.Filter | App.tsx:64 | `filter` keeps only elements of the input satisfying the predicate, keeps all of them, and never lengthens the list |
| Seqs.FilterAppend | App.tsx:88 | filtering a concatenation filters each part in turn, so the input order is kept |
| Seqs.FilterAll | App.tsx:88 | a filter every element passes is the identity |
| Seqs.FirstIndex | App.tsx:292 | `findIndex` gives -1 or a position holding the key with no earlier one |
| Seqs.FindIndex | App.tsx:292 | the scan returns exactly `FirstIndex` |
| Seqs.Upsert | App.tsx:291-299 | definition of the save handlers' branch: replace the first element with the record's id, or append when there is none; `UpsertShape`, `UpsertIdempotent` and `UpsertKeepsUnique` state its properties |
| Seqs.UpsertShape | App.tsx:291-299 | replace-or-append grows the list only for a new id, then finds the record first under its id and leaves every other position alone |
| Seqs.UpsertIdempotent | App.tsx:291-299 | saving the same record twice is saving it once |
| Seqs.UpsertKeepsUnique | App.tsx:322-330 | replace-or-append keeps ids unique |
| Seqs.RemoveAt | components/RecipeForm.tsx:88 | removing position `i` shortens a list by one and shifts the later elements down; an out-of-range index changes nothing |
| Seqs.Take | components/RecipeForm.tsx:185 | `slice(0, n)` is the prefix of exactly `n` elements of a longer list, and the whole list when it has at most `n` |
| Kitchen.MissingItemsCount | App.tsx:64 | the missing-item count is at most the inventory size and is zero exactly when everything is in stock |
| Kitchen.MissingCountCons | App.tsx:64 | the missing-item count counts the records one by one: the first adds one exactly when it is out of stock |
| Kitchen.ToggleById | App.tsx:66-70 | definition of the toggle handler's `map`: records with the id flip `inStock` and take the clock reading; `ToggleShape`, `ToggleTwice` and `ToggleMissingCount` state its properties |
| Kitchen.ReplaceById | App.tsx:310 | definition of the update handler's `map`: records with the id become the updated record; `ReplaceByIdShape` states its properties |
| Kitchen.SearchRecipes | App.tsx:87-89 | definition of `filteredRecipes`: the recipes whose key contains the lower-cased, untrimmed query; `SearchEmptyQuery` and `SearchShape` state its properties |
| Kitchen.QuickItem | App.tsx:72-85 | a quick-added item has the given name, id and time, the full normalised key, is out of stock with quantity 0 in Pantry and `pcs`, and has no optional field |
| Kitchen.Kitchen.constructor | App.tsx:54-55 | the state starts with the given inventory and recipes |
| Kitchen.Kitchen.ToggleStock | App.tsx:66-70 | the inventory becomes the toggled inventory |
| Kitchen.Kitchen.QuickAddItem | App.tsx:84 | the new item is appended |
| Kitchen.Kitchen.SaveRecipe | App.tsx:291-299 | the `findIndex` scan and branch produce replace-or-append by id |
| Kitchen.Kitchen.SaveIngredient | App.tsx:322-330 | the same replace-or-append on the inventory |
| Kitchen.Kitchen.DeleteRecipe | App.tsx:279 | the recipes become those with another id |
| Kitchen.Kitchen.UpdateIngredient | App.tsx:310 | every record with the updated id is replaced |
| Kitchen.ToggleShape | App.tsx:66-70 | toggling flips `inStock` and stamps the time on the records with the id and changes nothing else |
| Kitchen.ToggleTwice | App.tsx:66-70 | toggling twice restores every record except its time stamp |
| Kitchen.ToggleMissingCount | App.tsx:64-70 | with unique ids, toggling a present record moves the missing count by one in the right direction; an unknown id leaves it alone |
| Kitchen.QuickAddMissingCount | App.tsx:64-85 | quick-add raises the missing count by one |
| Kitchen.ReplaceByIdShape | App.tsx:310 | update-by-id replaces exactly the records with the id and, with unique present ids, equals replace-or-append |
| Kitchen.DeleteLeavesNoId | App.tsx:279 | after deletion no recipe has the id, and every recipe with another id remains |
| Kitchen.DeleteShape | App.tsx:279 | with unique ids, deleting a present id removes exactly one recipe and deleting an absent id removes none |
| Kitchen.SearchEmptyQuery | App.tsx:87-89 | an empty search shows the whole library |
| Kitchen.SearchShape | App.tsx:87-89 | the search keeps exactly the matching recipes, in library order |
| RecipeForm.MatchedUnit | components/RecipeForm.tsx:69 | a suggested record's unit is kept when offered, else `piece`; the result is always offered |
| RecipeForm.Rekeyed | components/RecipeForm.tsx:109-112 | saved lines keep everything but their key, which becomes the weak key of their name |
| RecipeForm.UnitOptionsShape | components/RecipeForm.tsx:13-28 | the constant `UnitOptions` lists fourteen distinct units with `piece`, the fallback, first |
| RecipeForm.DefaultLine | components/RecipeForm.tsx:42-54 | definition of the new line's literal; `DefaultLineShape` and `Depletion.DefaultLineDepletion` state its properties |
| RecipeForm.ApplyEdit | components/RecipeForm.tsx:56-65 | definition of `handleUpdateIngredient` on one line: the field takes the value, and a name edit also writes the weak key; `EditKeepsKey` and `EditIdempotent` state its properties |
| RecipeForm.FillFromEntity | components/RecipeForm.tsx:67-85 | definition of `handleSelectSuggestion` on one line; `FillShape` and `Depletion.FilledLineServes` state its properties |
| RecipeForm.Suggestions | components/RecipeForm.tsx:182-186 | definition of `searchResults`; `SuggestionsShape` and `SuggestionsBlankName` state its properties |
| RecipeForm.BuildRecipe | components/RecipeForm.tsx:97-116 | definition of `handleSave`'s result; `SaveErrors`, `SaveShape`, `SaveRoundTrip` and `Editor.Save` state its properties |
| RecipeForm.Editor.constructor | components/RecipeForm.tsx:31-36 | the editor opens on the recipe's fields or the defaults (Dinner, 30 minutes, Medium), with a zero cooking time reopening as 30 |
| RecipeForm.Editor.AddIngredient | components/RecipeForm.tsx:42-54 | a default line is put first and the others move down |
| RecipeForm.Editor.UpdateIngredient | components/RecipeForm.tsx:56-65 | one line takes the edit and every other line is unchanged |
| RecipeForm.Editor.SelectSuggestion | components/RecipeForm.tsx:67-85 | one line is filled from the record and the search closes |
| RecipeForm.Editor.DeleteIngredient | components/RecipeForm.tsx:232 | the line at the index is removed |
| RecipeForm.Editor.Focus | components/RecipeForm.tsx:203 | focus opens the search on that line |
| RecipeForm.Editor.Blur | components/RecipeForm.tsx:204 | blur closes the search |
| RecipeForm.Editor.AddStep | components/RecipeForm.tsx:87 | an empty step is appended |
| RecipeForm.Editor.EditStep | components/RecipeForm.tsx:435-438 | one step takes the new text |
| RecipeForm.Editor.DeleteStep | components/RecipeForm.tsx:88 | the step at the index is removed |
| RecipeForm.Editor.Save | components/RecipeForm.tsx:97-116 | the loop over the lines computes exactly the specified save result |
| RecipeForm.EditKeepsKey | components/RecipeForm.tsx:56-65 | a name edit rewrites the key as the weak key, other edits leave name and key alone, so consistent lines stay consistent |
| RecipeForm.EditIdempotent | components/RecipeForm.tsx:56-65 | applying an edit twice is applying it once, and no edit touches the library link |
| RecipeForm.FillShape | components/RecipeForm.tsx:67-85 | a filled line takes the record's name, key, category, id, stock flag and quantity; its unit is the record's when offered, else `piece`; its serving size is the record's when non-zero, else 1; its store the record's, else empty; its amount is kept; and it is consistent when the record is |
| RecipeForm.DefaultLineShape | components/RecipeForm.tsx:42-54 | the new line is consistent, unnamed and unlinked, asks for one `piece` in Pantry, and is out of stock with 0 available, one serving per unit and an empty store |
| RecipeForm.SuggestionsShape | components/RecipeForm.tsx:182-186 | none unless the line has focus and a name; otherwise exactly the first five matches in library order (all of them when there are five or fewer), each a library record whose key contains the query |
| RecipeForm.SuggestionsBlankName | components/RecipeForm.tsx:182-186 | a whitespace-only name opens the search with an empty query, which offers the first five records |
| RecipeForm.SaveErrors | components/RecipeForm.tsx:98-99 | save is refused exactly when the name is empty or there are no lines, the name check first |
| RecipeForm.SaveShape | components/RecipeForm.tsx:101-115 | a saved recipe carries the form's fields, weak keys for itself and every line, and the edited recipe's id and nutrition or `newId` and zeros |
| RecipeForm.SaveRoundTrip | components/RecipeForm.tsx:31-116 | opening a recipe and saving it unchanged gives it back with re-derived keys and an empty description |
| Depletion.Ceil | components/RecipeForm.tsx:192 | `Math.ceil` gives the least integer not below its argument |
| Depletion.Abs | components/RecipeForm.tsx:192 | `Math.abs` is non-negative and is the number or its negation |
| Depletion.ServingSize | components/RecipeForm.tsx:188 | the serving size `servesPerUnit \|\| 1` is never zero |
| Depletion.TotalServes | components/RecipeForm.tsx:188 | definition: the quantity on hand (0 when missing or zero) times the serving size; `FilledLineServes` states it for a filled line |
| Depletion.Need | components/RecipeForm.tsx:189 | definition: `amount \|\| 0`, which on exact numbers is the amount itself |
| Depletion.Remaining | components/RecipeForm.tsx:190 | definition: servings on hand minus the need |
| Depletion.IsEnough | components/RecipeForm.tsx:191 | definition: in stock and nothing short; `FilledLineServes` and `ShortfallExample` state it on cases |
| Depletion.AutoBuyCount | components/RecipeForm.tsx:192 | definition: the ceiling of the shortfall over the serving size, or 1 when that is 0; `AutoBuyCovers` and `AutoBuyNegativeServing` state its properties |
| Depletion.AutoBuyCovers | components/RecipeForm.tsx:192 | with a positive serving size, the auto-buy count is the least number of units covering the shortfall, and exactly 1 when nothing is short |
| Depletion.AutoBuyNegativeServing | components/RecipeForm.tsx:192 | a negative serving size gives a negative auto-buy count whenever the shortfall is at least one serving |
| Depletion.ShortfallExample | components/RecipeForm.tsx:188-192 | needing 3 with one serving on hand leaves -2, not enough, buy 2 |
| Depletion.DefaultLineDepletion | components/RecipeForm.tsx:188-192 | a fresh line is one serving short and buys one unit |
| Depletion.FilledLineServes | components/RecipeForm.tsx:188-191 | a line filled from a record has the record's quantity times its serving size on hand, and is enough exactly when the record is in stock and that covers the amount |
| Depletion.Capacity | components/RecipeForm.tsx:321-340 | the bar's scale is at least 1, the servings on hand and the need, and is one of them |
| Depletion.Tracker | components/RecipeForm.tsx:321-340 | the bar has five segments |
| Depletion.SegmentAt | components/RecipeForm.tsx:321-340 | definition of one segment's colour: green when the servings on hand pass its start and the remainder reaches its end, striped red when only the start is passed, grey otherwise; the `Tracker` lemmas state its properties |
| Depletion.TrackerOrdered | components/RecipeForm.tsx:321-340 | green segments come before the others and grey ones after |
| Depletion.TrackerBounds | components/RecipeForm.tsx:321-340 | anything on hand lights the first segment, nothing on hand greys the bar, and a green first segment means the servings cover the need |
| Depletion.TrackerNeedShows | components/RecipeForm.tsx:321-340 | while anything is needed the last segment is not green |
| Grocery.StoreLabel | components/GroceryList.tsx:18 | the group label is never empty, and is `General` when the store is missing or empty |
| Grocery.IsCandidate | components/GroceryList.tsx:14 | definition of a listed record: out of stock, or a positive amount still to buy; `PartialIffListedInStock` relates it to the partial rows |
| Grocery.MissingItems | components/GroceryList.tsx:14 | definition of `missingItems` as a filter, whose contract keeps exactly the listed records in inventory order |
| Grocery.ItemsIn | components/GroceryList.tsx:17-22 | definition of one group: the items with that label, in list order; `BuildStoreGroups` and `GroupsPartition` state its properties |
| Grocery.StoreOrder | components/GroceryList.tsx:17-22 | definition of the group order: labels in the order the scan first meets them; `StoreOrderFacts` states its properties |
| Grocery.BuildStoreGroups | components/GroceryList.tsx:17-22 | the intended grouping (see Findings): the scan yields the stores in first-seen order and, for each, exactly its items in list order |
| Grocery.BuildStoreGroupsAsWritten | components/GroceryList.tsx:17-22 | the reduce on a plain object fails exactly when some listed item's label is an inherited `Object.prototype` member name, and otherwise gives the same grouping as `BuildStoreGroups` |
| Grocery.PrototypeStoreCounterexample | components/GroceryList.tsx:19-20 | an item filed under "constructor" has a prototype member name as its label, so the reduce as written fails on it, while the intended grouping gives it a group of its own |
| Grocery.GroupsStep | components/GroceryList.tsx:19-20 | one scan step adds the item to its store's group, creating the group and extending the order on first sight |
| Grocery.StoreOrderFacts | components/GroceryList.tsx:48 | the store order has no repeats, contains every item's store, and no group is empty |
| Grocery.GroupsPartition | components/GroceryList.tsx:17-22 | the group sizes add up to the number of listed items, and every item of a group has that group's store |
| Grocery.BuyQty | components/GroceryList.tsx:61 | the buy quantity is the amount needed when non-zero, else the quantity on hand when non-zero, else 1, and is never zero |
| Grocery.IsPartial | components/GroceryList.tsx:60 | definition: in stock with a positive needed quantity (0 when missing); `PartialIffListedInStock` states it |
| Grocery.PartialIffListedInStock | components/GroceryList.tsx:60 | a row is partial exactly when it is listed and in stock |
| Grocery.SampleOrder | components/GroceryList.tsx:14-22 | in the example all three items are listed, store A first and General second |
| Grocery.SampleGroups | components/GroceryList.tsx:17-22 | in the example group A holds the first two items and General the third |
| Grocery.SampleRows | components/GroceryList.tsx:60-61 | in the example the rows buy 2, 1 and 1 and only the in-stock one is partial |
| Grocery.QuickAdd | components/GroceryList.tsx:24-29 | definition of `handleQuickAdd`: the trimmed text is submitted and the box cleared when it is not blank, else nothing; `QuickAddShape` states its properties |
| Grocery.QuickAddShape | components/GroceryList.tsx:24-29 | a name is submitted exactly when it is not blank, trimmed and non-empty, with the box cleared and the same key as the typed text; otherwise the box is kept |
| IngredientForm.InitialForm | components/IngredientForm.tsx:16-26 | the form opens with the record's category and stock flag or Pantry and in stock, and never with a zero quantity or an empty unit |
| IngredientForm.NewFormDefaults | components/IngredientForm.tsx:16-26 | a new record opens in stock, one `pcs`, Pantry category and location, bought today, other fields empty |
| IngredientForm.ZeroQuantityReopensAsOne | components/IngredientForm.tsx:17 | a record with quantity 0 reopens with quantity 1 |
| IngredientForm.SaveIngredient | components/IngredientForm.tsx:28-46 | definition of `handleSave`'s result; `SaveRefusedIffNoName`, `SaveShape`, `SavedKeyRefinesNormalize` and the two round trips state its properties |
| IngredientForm.SaveRefusedIffNoName | components/IngredientForm.tsx:29 | save is refused exactly when the name is empty |
| IngredientForm.SaveShape | components/IngredientForm.tsx:30-45 | a saved record keeps the edited id or takes the new one, is keyed by the weak key, has a non-empty store (General for none), dates exactly when in stock, the new time, and no needed quantity or serving size |
| IngredientForm.SavedKeyRefinesNormalize | components/IngredientForm.tsx:33 | records saved with equal weak keys have equal full keys |
| IngredientForm.SaveReopenRoundTrip | components/IngredientForm.tsx:16-45 | saving and reopening gives the form back when no field hit a falsy default |
| IngredientForm.ReopenSaveRoundTrip | components/IngredientForm.tsx:16-45 | reopening a saved in-stock record and saving it again changes only its time stamp |
| IngredientDetail.ToggleStock | components/IngredientDetail.tsx:14-20 | definition of `toggleStock`'s record; `ToggleStockShape`, `ToggleStockTwice` and `DetailAgreesWithListToggle` state its properties |
| IngredientDetail.ToggleStockShape | components/IngredientDetail.tsx:14-20 | the flag flips, a record coming into stock is dated today, one running out loses its date, and all else, `updatedAt` included, is copied |
| IngredientDetail.ToggleStockTwice | components/IngredientDetail.tsx:14-20 | toggling twice restores the record except its purchase date |
| IngredientDetail.DetailAgreesWithListToggle | components/IngredientDetail.tsx:14-20 | through update-by-id, the detail toggle flips the same records as the list toggle but keeps the time stamp, which the list toggle renews |
| NutritionDashboard.MealNutrition | components/NutritionDashboard.tsx:13-16 | an empty meal slot counts as zero |
| NutritionDashboard.DayRow | components/NutritionDashboard.tsx:12-16 | a day's row is labelled with at most the first three characters of its name and sums each value over breakfast, lunch and dinner |
| NutritionDashboard.ChartData | components/NutritionDashboard.tsx:11-17 | one row per day, in plan order |
| NutritionDashboard.ChartDataAppend | components/NutritionDashboard.tsx:11 | the chart of two plan parts is their charts in turn |
| NutritionDashboard.AddRow | components/NutritionDashboard.tsx:19-23 | definition of the reducer step: each macro total plus the row's value; `PlanTotalsStep` and `TotalsAppend` state the fold's properties |
| NutritionDashboard.Totals | components/NutritionDashboard.tsx:19-23 | definition of `totalNutrition`: the fold from zero over the rows; `TotalsAppend`, `PlanTotalsStep` and `TotalsBoundDays` state its properties |
| NutritionDashboard.TotalsAppend | components/NutritionDashboard.tsx:19-23 | the totals of a concatenation are the sums of the parts' totals |
| NutritionDashboard.PlanTotalsStep | components/NutritionDashboard.tsx:19-23 | an empty plan totals zero, and each further day adds its row |
| NutritionDashboard.SnackIgnored | components/NutritionDashboard.tsx:13-16 | the snack slot never changes the chart |
| NutritionDashboard.TotalsBoundDays | components/NutritionDashboard.tsx:19-23 | with no negative rows, every total is non-negative and at least each row's value |
| NutritionDashboard.PlanTotalsBoundDays | components/NutritionDashboard.tsx:11-23 | with no negative nutrition planned, each weekly total is at least any day's value |
| NutritionDashboard.MacroData | components/NutritionDashboard.tsx:25-29 | three slices, Protein, Carbs and Fat in that order, carrying the totals |
| NutritionDashboard.MacroDataAppend | components/NutritionDashboard.tsx:11-29 | each macro slice of a plan made of two parts is the sum of that slice in the parts' charts |
| NutritionDashboard.MacroDataBoundDays | components/NutritionDashboard.tsx:11-29 | with no negative nutrition planned, each slice is non-negative and at least that macro's value on any day |

## Left out

- `services/geminiService.ts` is not part of this model. It makes network calls and parses model output.
- `components/RecipeDetail.tsx` and `components/SlotPicker.tsx` are not part of this model: image fetching and selection UI. `RecipeCoverage` is modelled as a datatype only. No code shown computes it, so no coverage algorithm is modelled.
- JSX, CSS, `alert`, `window.print`, the 250 ms blur delay (the blur is modelled as immediate) and the `handleExtract` stub (`components/RecipeForm.tsx:90-95`).
- `Math.random` ids, `Date.now()` and `toISOString` dates are parameters, not generated.
- Numbers are exact reals. This leaves out `toFixed`, floating-point rounding and the `NaN` a failed `parseFloat` gives, and hence the `|| 0` guards that catch `NaN`.
- `components/IngredientForm.tsx:89` stores the typed quantity as a string. The model keeps it a number.
- Lower-casing and whitespace are ASCII only: no Unicode case mapping and no non-ASCII members of the `\s` class.
- `Object.entries` lists integer-like keys first in numeric order. The model uses plain first-seen order.
- The seed data (`App.tsx:42-49`) is not modelled. Its second item is keyed from "Sourdough" while named "Sourdough Bread".
- App view state and modal wiring (`selectedRecipe`, `showRecipeForm`, ...), including the edit button clearing the selected recipe before the form opens (`App.tsx:278`).
- Text.ToLower: its own contract gives only the length; the other facts are the lemmas beside it.
- Normalize: the code is not idempotent: "a ." gives "a ", which gives "a", because trimming comes before punctuation removal. The model follows the code, claims no idempotence, and `NormalizerExamples.NotIdempotent` proves the counterexample.
- Depletion: the stock arithmetic reads each line's stored stock snapshot, as the code does, not a live lookup in the inventory.
- NormalizerExamples: only one-word and punctuation samples are evaluated. A multi-word sample is left out because evaluating it on literals is too costly for the prover.
- Grocery.BuildStoreGroups: models the intended grouping, which gives every label its own group. The crash of the code as written on a store named after an `Object.prototype` member is modelled by `Grocery.BuildStoreGroupsAsWritten` (see Findings).

## Findings

| source | as written | input that shows it | evidently intended | confidence | as-written member | corrected member |
|---|---|---|---|---|---|---|
| components/GroceryList.tsx:17-22 | the reduce starts from `{}` and tests `!acc[store]`; for a store named after an `Object.prototype` member the inherited value is truthy, so no group is created and `acc[store].push` throws, and the grocery list fails to render | one listed item whose store is "constructor" (equally "toString", "valueOf", "hasOwnProperty", "__proto__", ...) | every store label gets a group of its own | high; not executed | Grocery.BuildStoreGroupsAsWritten, Grocery.PrototypeStoreCounterexample | Grocery.BuildStoreGroups |
