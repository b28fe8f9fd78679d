# Meal planner core, modelled in Dafny

This project models the meal-selection engine of a Flask web application that
plans a day of food for a user. `ai.py` holds the data records (`Nutrition`,
`Recipe`), the calorie arithmetic (`estimate_bmr`, `daily_calorie_target`), the
`MenuPlanner` that picks a breakfast, lunch, snack and dinner, the shopping-list
builder, and the form handler that turns free-text notes into forbidden terms.

The model has one module per concern:

- `Seqs`: three facts about sequences that the other modules share.
- `Text`: lower-casing, whitespace stripping, substring search, join and
  split. These are the string operations of Python the planner relies on.
- `Recipes`: the `Nutrition` value, with its addition, and the `Recipe` class. A
  recipe's rating and vote count are mutable fields. `Matches`,
  `ContainsForbidden` and `AddRating` are methods. Each is proved against a
  specification function (`TagScore`, `ForbiddenIn`, `RatingAfter`).
- `Calories`: the profile with its optional keys, the Mifflin-St Jeor equation,
  the 1200 kcal floor, and the activity and goal tables.
- `Scoring`: the four meal slots, their calorie shares, and `score_recipe`.
- `Selection`: how one slot is filled, as functions:
  - the candidate pool with its two fallbacks;
  - the scored list and its descending sort;
  - the pick among the best five, and the last-resort pick.
- `Runs`: the slot-by-slot run of `choose_meals`, with the properties of whole
  plans.
- `Planner`: the `MenuPlanner` class. `ChooseMeals` and `GeneratePlan` are
  loops proved equal to the `Run` specification, and `GeneratePlan` proves the
  nutrition total.
- `Shopping`: `build_shopping_list` as a nested loop over a `map`, proved
  equal to a per-label sum of quantities.
- `Notes`: the splitting of the form's `notes` field into forbidden terms.

`random.uniform(0, 5)` and `random.choice` are not modelled as randomness. The
caller passes a `Draws` value instead. `diversity(k, i)` is the draw for
candidate `i` of slot `k`. `pick(k, n) % n` is the index `random.choice` takes
from a list of length `n` in slot `k`. Every property proved about a plan holds
for all draws. Floating-point numbers are modelled as mathematical reals.

Five behaviours of `ai.py` are easy to misread. The model follows the code in
each.

- The 1200 kcal floor applies to the metabolic rate, not to the daily target.
  The target can be as low as 1104 kcal (`Calories.TargetBelowFloor`).
- The plan for the default profile, with the `maintain-weight` goal (or any
  unknown goal), is at 2633 kcal. Its metabolic rate is 1698.75 kcal
  (`Calories.DefaultTarget`).
- Forbidden terms are matched as plain substrings. The term "яйце" therefore
  does not exclude the label "яйця (2 шт)" (`Recipes.ForbiddenIsLiteral`).
- A plan is guaranteed free of repeated recipes only while no last-resort pick
  happens. Recipes picked as a last resort are not recorded as used, so they
  can be picked again (`Runs.FallbackRepeats`).
- A last-resort pick can be a recipe with a forbidden term. That pick filters
  the catalogue by used ids only (`Runs.FallbackIgnoresForbidden`).

## Model

| member | source | states |
|---|---|---|
| Recipes.Nutrition.Add | ai.py:29-35 | Definition: the sum of two nutrition vectors, component by component. |
| Recipes.AddCommutative | ai.py:29-35 | Adding two nutrition vectors gives the same result in either order. |
| Recipes.AddAssociative | ai.py:29-35 | Adding nutrition vectors is associative. |
| Recipes.ZeroIsIdentity | ai.py:29-35 | `Nutrition(0, 0, 0, 0)` is the identity of the addition, on both sides. |
| Recipes.Recipe.constructor | ai.py:41-51 | A recipe holds exactly the id, name, tags, ingredients, nutrition, steps, image, rating and votes it was built with. |
| Recipes.Recipe.Matches | ai.py:53-67 | The loop returns `TagScore`: 3 points per lower-cased tag inside the lower-cased mood, 4 points per tag inside the goal, plus the `light`/`lose` bonus and the `hearty`/`gain`-or-`muscle` bonus. |
| Recipes.TagHits | ai.py:58-62 | The per-tag points of the loop: 3 for each tag inside the mood and 4 for each inside the goal, at most 7 per tag. |
| Recipes.CountIn | ai.py:58-62 | How many of the tags, counted with repeats, occur in a text: never more than the number of tags. |
| Recipes.TagHitsCounts | ai.py:58-62 | The per-tag points equal 3 times the number of tags inside the mood plus 4 times the number inside the goal. |
| Recipes.TagScore | ai.py:53-67 | The tag score is at most 7 points per tag plus 4. |
| Recipes.GoalBonus | ai.py:63-66 | The two goal bonuses add up to at most 4. |
| Recipes.TagScoreIgnoresCase | ai.py:55-57 | Lower-casing the mood and the goal beforehand does not change the score. |
| Recipes.ForbiddenIn | ai.py:71-79 | Definition: some term that is not blank occurs, lower-cased, in the lower-cased ingredient labels joined by single spaces. |
| Recipes.Recipe.ContainsForbidden | ai.py:69-79 | The answer is true exactly when some non-blank term, lower-cased, occurs in the lower-cased ingredient labels joined by spaces. An empty list answers false. |
| Recipes.Labels | ai.py:73 | The labels are the ingredient names, in table order and one per entry. |
| Recipes.ForbiddenBlankTerms | ai.py:71-76 | A list of blank terms (or no terms) forbids nothing. |
| Recipes.ForbiddenAcrossLabels | ai.py:73-78 | A term can match across the space between two labels (`b c` in `ab cd`) while occurring in neither label. |
| Recipes.ForbiddenIsLiteral | ai.py:77 | The search is a literal substring test: `яйце` does not match `яйця (2 шт)` but does match `яйце (1 шт)`. |
| Recipes.EggsNotForbidden | ai.py:77 | `яйця (2 шт)` holds no forbidden `яйце`. |
| Recipes.EggForbidden | ai.py:77 | `яйце (1 шт)` holds the forbidden `яйце`. |
| Recipes.NormalizeTerms | ai.py:784 | Normalizing never lengthens the term list. |
| Recipes.NormalizedTerms | ai.py:784 | A term is in the normalized list if and only if it is the stripped, lower-cased form of a non-blank input term. |
| Recipes.NormalizedTermsClean | ai.py:784 | Every normalized term is non-blank, stripped and lower-case. |
| Recipes.NormalizedForbidden | ai.py:784 | The normalized terms forbid a recipe exactly when the stripped, lower-cased form of some non-blank raw term occurs in its lower-cased, space-joined labels. |
| Recipes.NormalizeWidens | ai.py:784 | A recipe forbidden by the raw terms stays forbidden after normalization. |
| Recipes.ForbiddenLabelHit | ai.py:73-78 | A non-blank term found, lower-cased, inside one lower-cased label forbids the recipe. |
| Recipes.RatingAfter | ai.py:83-86 | Definition: the rating after one more vote, `(rating * votes + value) / (votes + 1)`. |
| Recipes.Replay | ai.py:81-88 | Definition: the rating and vote count after a series of votes, applied in order. |
| Recipes.Recipe.AddRating | ai.py:81-88 | One vote adds 1 to the vote count and makes the rating `(rating * votes + value) / (votes + 1)`. |
| Recipes.ReplayTotal | ai.py:81-88 | After a series of votes, the count has grown by their number, and `rating * votes` has grown by their sum. |
| Recipes.ReplayMean | ai.py:81-88 | Starting from no votes, the rating after a non-empty series of votes is their arithmetic mean. |
| Recipes.ReplayOrderFree | ai.py:81-88 | From no votes, the final rating and count do not depend on the order of the votes. |
| Recipes.SumRemove | ai.py:81-88 | Taking one vote out of a list takes its value out of the sum. |
| Seqs.PermutationTail | ai.py:81-88 | Removing the first element of a list, and an equal element of a permutation of it, leaves two permutations of each other. |
| Recipes.SumPermutation | ai.py:81-88 | Permuting the votes does not change their sum. |
| Recipes.ThreeVotes | ai.py:81-88 | The votes 4, 5 and 3, in any order, give a rating of 4.0 over 3 votes. |
| Calories.Option.GetOr | ai.py:738-741 | Definition: `profile.get(key, default)`, the value the key holds or the default when the key is missing. |
| Calories.MaleCoded | ai.py:742 | Definition: `str(sex).lower().startswith('m')` on a string. |
| Calories.MifflinStJeor | ai.py:742-745 | Definition: `10 * weight + 6.25 * height - 5 * age`, plus 5 for a sex string starting with `m` in any case and minus 161 otherwise. |
| Calories.RawBmr | ai.py:738-745 | Definition: the equation on a profile, each missing key taken from `DEFAULT_PROFILE`. |
| Calories.EstimateBmr | ai.py:737-746 | The estimate is the larger of 1200 and the equation: it is at least both, and equal to one of them. |
| Calories.SexCoding | ai.py:742-745 | A sex string starting with `m` in any case adds exactly 166 kcal over any other string. `Male`, `man` and `m` are male-coded; `female`, `other` and the empty string are not. |
| Calories.ActivityMultiplier | ai.py:691-704 | The activity multiplier, with 1.55 for an unknown key, lies in [1.15, 1.9]. |
| Calories.GoalModifier | ai.py:706-719 | The goal modifier, with 1.0 for an unknown goal, lies in [0.8, 1.25]. |
| Calories.Truncate | ai.py:754 | `int()` truncates toward zero. |
| Calories.DailyCalorieTarget | ai.py:748-755 | The daily target is never below 1104 kcal. |
| Calories.UnknownActivityDefault | ai.py:750-751 | A missing or unknown activity counts as `moderate`, for any goal. |
| Calories.UnknownGoalDefault | ai.py:753-754 | An unknown goal counts as `maintain-weight`, for any profile. |
| Calories.DefaultTarget | ai.py:683-755 | The default profile has a metabolic rate of 1698.75 kcal and a `maintain-weight` target of 2633 kcal. A profile with no keys gets the same target. |
| Calories.TargetBelowFloor | ai.py:737-755 | A 40 kg, 150 cm, 80-year-old woman with `poor-sleep` activity and the `cutting` goal gets a target of 1104 kcal, below the 1200 floor. |
| Scoring.SlotShare | ai.py:783-786 | Definition: the slot's share of the day's calories, 0.25 for a name outside the table. |
| Scoring.SlotTarget | ai.py:786 | Definition: the slot's calorie aim, the daily target times the slot's share. |
| Scoring.RankValue | ai.py:797 | Definition: a candidate's score less 1 point per 50 kcal between its calories and the slot's aim. |
| Scoring.SlotRank | ai.py:780 | A slot name's position in the slot order names that slot, and each of the four slots has a position below 4. |
| Scoring.SharesAddUp | ai.py:783 | The four slot shares add up to the whole daily target. |
| Scoring.NutritionFit | ai.py:768-773 | Lose goals: for non-negative calories the nutrition term is in [0, 50], and it is 0 exactly from 500 kcal up. Gain goals: it is twice the protein plus calories / 50. Any other goal: it is at most 20, with 20 exactly at 500 kcal. |
| Scoring.ScoreRecipe | ai.py:765-777 | For a diversity draw in [0, 5], the score lies between the nutrition term plus 1.2 times the rating and that value plus 1.5 times the largest possible tag score plus 5. |
| Selection.Passes | ai.py:787-806 | Definition: the tests the comprehensions filter by: the slot name among the lower-cased tags, no forbidden term, and an id not yet used. |
| Selection.Filter | ai.py:787-792 | A filtered list is no longer than its input, and every kept recipe passes the test. |
| Selection.FilterMember | ai.py:787-792 | A recipe is in the filtered list if and only if it is in the input and passes the test. |
| Selection.Pool | ai.py:787-789 | Definition: the recipes with a lower-cased tag equal to the slot name, or every recipe if none has one. |
| Selection.Candidates | ai.py:787-792 | Definition: the pool less the recipes with a forbidden term; if none remains, every recipe without a forbidden term. |
| Selection.PoolMember | ai.py:787-789 | The tagged pool, or all recipes when none is tagged, holds only catalogue recipes. |
| Selection.CandidateMember | ai.py:787-792 | Every candidate is a catalogue recipe with no forbidden term. |
| Selection.CandidatesSound | ai.py:787-792 | Every candidate is a catalogue recipe with no forbidden term (all candidates at once). |
| Selection.CandidatesEmptyIff | ai.py:787-792 | The candidate list is empty if and only if every catalogue recipe holds a forbidden term. |
| Selection.CandidatesKeepTag | ai.py:787-792 | If some permitted recipe carries the slot's tag, every candidate carries that tag. |
| Selection.Scored | ai.py:793-798 | The scored list has at most one entry per candidate, and none of its recipes is already used. |
| Selection.ScoredEntries | ai.py:793-798 | The recipes of the scored list are exactly the unused candidates, in candidate order. |
| Selection.Ranked | ai.py:786-798 | Definition: the unsorted scored list of slot `k` under the used ids. |
| Selection.InsertDesc | ai.py:799 | Definition: one entry inserted after every entry ranked at least as high. |
| Selection.SortDesc | ai.py:799 | Definition: the scored list sorted highest rank first, by inserting each entry in turn. |
| Selection.InsertDescSorted | ai.py:799 | Inserting into a descending list adds exactly that entry and keeps the list descending. |
| Selection.InsertDescPermutes | ai.py:799 | Inserting adds exactly the new entry. |
| Selection.InsertDescKeepsOrder | ai.py:799 | Inserting into a descending list keeps it descending. |
| Selection.SortDescSorted | ai.py:799 | The sort returns a descending permutation of the scored list. |
| Selection.CountAbovePermutation | ai.py:799 | Permuting a list does not change how many of its entries score above a value. |
| Selection.CountAboveRemove | ai.py:799 | Taking one entry out of a list takes that entry's share out of the count above a value. |
| Selection.CountAboveSorted | ai.py:799-801 | In a descending list, fewer than `j` entries score strictly above entry `j`. |
| Selection.TopPick | ai.py:799-802 | An entry among the first five of the sorted list comes from the scored list, and fewer than five scored entries beat it. |
| Selection.SlotPick | ai.py:800-808 | Definition: a non-empty sorted list gives its entry at `pick(k, n) % n` among its first `n = min(5, length)` entries. Otherwise the unused recipes give a last-resort pick, the same way. Otherwise there is no pick. |
| Selection.Advance | ai.py:803-808 | Definition: a ranked pick appends the meal and records its id. A last-resort pick appends the meal without recording its id. No pick changes nothing. |
| Selection.Step | ai.py:785-808 | Definition: slot `k`'s pick under the ids used so far, applied to the state. |
| Selection.Run | ai.py:779-809 | Definition: the state after the first `n` slots, from no meals and no used ids. |
| Selection.BestPickSound | ai.py:800-804 | A ranked pick is a catalogue recipe that is unused and permitted, and is a ranked entry that fewer than five ranked entries strictly outscore. |
| Selection.RankedRecipes | ai.py:787-798 | Every ranked entry is an unused, permitted catalogue recipe. |
| Selection.SlotSkippedIff | ai.py:800-808 | A slot stays empty if and only if nothing is ranked and every catalogue recipe is already used. |
| Selection.FallbackPickSound | ai.py:805-808 | A last-resort pick happens only when the ranked list is empty, and it takes an unused catalogue recipe. |
| Runs.ExtendKeeps | ai.py:800-808 | Adding a picked meal keeps the plan invariant. The invariant says: at most one meal per slot filled so far; every meal is a catalogue recipe; slots appear in slot order. Until a last-resort pick, every meal's id is in `used_ids`, and the meals are permitted and pairwise distinct. |
| Runs.StepKeeps | ai.py:786-808 | Filling one slot keeps the plan invariant. |
| Runs.RunInvariant | ai.py:785-809 | Every prefix of the run satisfies the plan invariant. |
| Runs.NoRepeatsWithoutFallback | ai.py:779-809 | A plan with no last-resort pick repeats no recipe and holds no forbidden term. |
| Runs.FallbackRepeats | ai.py:805-808 | With recipe `a` tagged for breakfast and lunch and `b` for dinner, the plan is lunch `b`, then snack `b` again. |
| Runs.RunExtends | ai.py:785-808 | Filling a later slot never changes the meals already chosen. |
| Runs.OneSlot | ai.py:785-804 | In the two-recipe example, breakfast takes `a` and records its id. |
| Runs.TwoSlots | ai.py:785-808 | In the two-recipe example, lunch falls back to `b` without recording it. |
| Runs.ThreeSlots | ai.py:785-808 | In the two-recipe example, the first three meals are breakfast `a`, lunch `b` and snack `b`. |
| Runs.RunAdvance | ai.py:785-808 | The state after `k + 1` slots is the state after `k` slots, advanced by slot `k`'s pick. |
| Runs.RunStep | ai.py:785 | The run over `k + 1` slots is one more step after the run over `k` slots. |
| Runs.StepBest | ai.py:800-804 | A ranked pick is appended to the meals and its id is recorded as used. |
| Runs.StepFallback | ai.py:805-808 | A last-resort pick is appended to the meals, but its id is not recorded. |
| Runs.StepNone | ai.py:805-808 | A slot with no pick leaves the state unchanged. |
| Runs.StepExtends | ai.py:800-808 | A step only appends to the meals. |
| Runs.LunchCandidates | ai.py:787-792 | In the example catalogue, `a` is the only lunch candidate. |
| Runs.FilterOne | ai.py:787-792 | Filtering a one-element list keeps the element exactly when it passes. |
| Runs.RankedOnlyUsed | ai.py:793-798 | A slot whose only candidate is already used ranks nothing. |
| Runs.FallbackIgnoresForbidden | ai.py:805-808 | A catalogue holding one recipe with a forbidden term still yields that recipe as the last-resort pick, in any slot. |
| Runs.OnlyFallback | ai.py:805-808 | A slot that ranks nothing and has exactly one unused recipe falls back to it, whatever the draw. |
| Runs.FilterPair | ai.py:787-792 | Filtering a two-element list keeps exactly the elements that pass, in order. |
| Runs.ExampleFacts | ai.py:787-790 | Which example recipes carry which slot tags, and that nothing is forbidden by an empty term list. |
| Runs.BreakfastTakesA | ai.py:787-804 | In the example, breakfast ranks only `a` and takes it. |
| Runs.OnlyRanked | ai.py:800-804 | A ranked list of one entry is always picked, whatever the draw. |
| Runs.LunchFallsBack | ai.py:787-808 | In the example, lunch narrows to the used `a`, ranks nothing and falls back to the unused `b`. |
| Runs.SnackRepeatsB | ai.py:787-804 | In the example, the snack slot has no tagged recipe, ranks the whole catalogue and takes `b`, which is still unused. |
| Runs.PlanIsTotal | ai.py:779-809 | A plan has at most four meals, and no two of them are for the same slot. |
| Planner.MealNutrition | ai.py:815-816 | The nutrition list has one entry per meal: that meal's nutrition. |
| Planner.MealNutritionPrefix | ai.py:815-816 | One more meal appends its nutrition to the list. |
| Planner.Total | ai.py:814-816 | Definition: `Nutrition(0, 0, 0, 0)` plus each nutrition in turn. |
| Planner.TotalComponentwise | ai.py:813-816 | The total's calories, protein, carbohydrates and fats are each the sum of that component over the meals. |
| Planner.RequestFor | ai.py:784 | Definition: the mood, goal and target of the call, with the forbidden terms normalized as at the top of `choose_meals`. |
| Planner.MenuPlanner.constructor | ai.py:760-763 | A planner holds the recipe list it was given. |
| Planner.MenuPlanner.ChooseMeals | ai.py:779-809 | The slot loop returns the meals of the `Run` specification, for the normalized terms and the given draws. |
| Planner.MenuPlanner.PickSlot | ai.py:786-808 | One pass of the slot loop returns that slot's `SlotPick`. |
| Planner.ScoreCandidates | ai.py:793-798 | The scoring loop returns the `Scored` list. |
| Planner.MenuPlanner.GeneratePlan | ai.py:811-829 | The plan carries the daily target, the meals chosen for that target, the sum of their nutrition, and the profile, goal and mood it was asked for. |
| Shopping.AllIngredients | ai.py:833-834 | Definition: the (label, quantity) entries of every meal's ingredient table, meal by meal in slot order. |
| Shopping.QtySum | ai.py:836 | Definition: the total quantity listed for one label. |
| Shopping.Tally | ai.py:832-836 | Definition: the dictionary after `items[ingr] = items.get(ingr, 0) + qty` for each entry in turn. |
| Shopping.LabelSet | ai.py:839 | Definition: the labels that occur among the entries, which are the keys of the returned dictionary. |
| Shopping.TallyMeaning | ai.py:834-836 | Accumulating `items.get(ingr, 0) + qty` gives a key for exactly the labels that occur, each holding the sum of that label's quantities. |
| Shopping.QtyAbsent | ai.py:834-836 | A label that does not occur totals zero. |
| Shopping.QtySplit | ai.py:834-836 | Label totals add up over concatenated lists. |
| Shopping.TallySnoc | ai.py:836 | One more entry adds its quantity to its label's total, or starts that total. |
| Shopping.AllIngredientsPrefix | ai.py:833-834 | One more meal appends its ingredient table. |
| Shopping.AllIngredientsSplit | ai.py:833-834 | Splitting the meals splits the ingredient entries the same way. |
| Shopping.ShoppingSplit | ai.py:831-839 | The quantity of a label for a day is the sum of the quantities for its parts. |
| Shopping.BuildShoppingList | ai.py:831-839 | The list has a key for every ingredient label of the plan's meals and no other, each holding the label's total quantity over the meals. |
| Shopping.RepeatedMealDoubles | ai.py:831-839 | A recipe chosen for two slots is counted twice: the avocado toast chosen twice needs 2 eggs and 1 whole avocado. |
| Notes.Pieces | ai.py:1604-1607 | Definition: the text split on `,`, each part split on `;`, each of those split on `/`, in order. |
| Notes.Tokens | ai.py:1602-1608 | Definition: no terms for an empty text, otherwise the stripped, lower-cased pieces that are not blank. |
| Notes.ForbiddenTerms | ai.py:1601-1608 | The tokeniser returns `Tokens(notes)`: non-blank, stripped, lower-case terms, none holding `,`, `;` or `/`. |
| Notes.EmptyNotesGuard | ai.py:1603 | The `if notes:` guard changes nothing: the empty text yields one blank piece, which is dropped. |
| Notes.EmptyPieces | ai.py:1604-1607 | The empty text splits into exactly one empty piece. |
| Notes.NormalizeBlank | ai.py:1608 | One empty piece yields no term. |
| Notes.TokensClean | ai.py:1604-1608 | Every term is non-blank, stripped, lower-case and free of the three separators. |
| Notes.TokenSeparatorFree | ai.py:1608 | A normalized piece holds no `,`, `;` or `/`. |
| Notes.PieceSeparatorFree | ai.py:1604-1607 | No piece holds a `,`, `;` or `/`. |
| Notes.StripLowerKeeps | ai.py:1608 | Stripping and lower-casing never bring in a punctuation character that was absent. |
| Notes.TokensIff | ai.py:1604-1608 | A term is produced if and only if some non-blank piece strips and lower-cases to it. |
| Notes.MilkAndNuts | ai.py:1601-1608 | `Milk; nuts/` yields the terms `milk` and `nuts`. |
| Text.LowerChar | ai.py:55-57 | Definition: the lower case of one character, over ASCII, the Cyrillic capitals А-Я and Ѐ-Џ, and Ґ. |
| Text.IsSpace | ai.py:75 | Definition: `c.isspace()`, Python's whitespace set. |
| Text.Lower | ai.py:55-57 | Definition: `str.lower()` one character at a time, over ASCII, the Cyrillic capitals А-Я and Ѐ-Џ, and Ґ. |
| Text.Strip | ai.py:75 | Definition: `str.strip()`: the text without its leading and trailing characters from Python's whitespace set. |
| Text.Contains | ai.py:77 | Definition: Python's `p in s` for strings: `p` is a prefix of some suffix of `s`. |
| Text.Join | ai.py:73 | Definition: `sep.join(xs)`. |
| Text.Split | ai.py:1605-1607 | Definition: `s.split(c)` for a one-character separator: the pieces between separators, keeping empty ones. |
| Text.SplitEach | ai.py:1605-1607 | Definition: every part split in turn, the pieces concatenated in order. |
| Text.LowerAll | ai.py:57 | Lower-casing a list lower-cases each element in place. |
| Text.LowerIdempotent | ai.py:55-57 | Lower-casing twice is lower-casing once. |
| Text.StripIdempotent | ai.py:784 | Stripping twice is stripping once. |
| Text.StripLower | ai.py:784 | Stripping and lower-casing commute. |
| Text.TrimEndLower | ai.py:784 | Cutting trailing white space and lower-casing commute. |
| Text.StripEmptyIff | ai.py:784 | A string strips to empty if and only if it is all whitespace. |
| Text.ContainsIff | ai.py:59-61 | `p in s` holds if and only if `p` occurs at some position of `s`. |
| Text.ContainsLower | ai.py:77 | A substring stays a substring after both are lower-cased. |
| Text.JoinContainsPiece | ai.py:73 | Every label occurs in the space-joined labels. |
| Text.SplitJoin | ai.py:1604-1606 | Joining the split pieces back with the separator restores the text. |
| Text.SplitSeparatorFree | ai.py:1604-1606 | No piece of a split holds the separator. |
| Text.SplitEachPrefix | ai.py:1604-1606 | Splitting one more part appends that part's pieces. |
| Text.SplitEachConcat | ai.py:1604-1606 | Splitting the pieces of a concatenation is concatenating their splits. |

## Left out

- The Flask routes, HTML templates, CSV and JSON files, sessions, ratings storage and `explain_plan_uk` are I/O or presentation, not the planning core.
- `load_sample_recipes` and the `RECIPES` catalogue are not modelled. A `MenuPlanner` is built from an explicit recipe list, so the `None` default of `__init__` is not modelled.
- The `date` field of the plan is not modelled: it is read from the clock. The plan's `meals` are a sequence of (slot, recipe) pairs in slot order, not a dictionary of snapshot fields.
- Ingredient tables are sequences of (label, quantity) pairs, where Python uses dictionaries. A repeated label in one table would be summed, which a Python dictionary cannot hold.
- Floating-point numbers are modelled as mathematical reals, so rounding and NaN are not captured. `Calories.Truncate` models `int()` on a real.
- `Text.Lower` folds ASCII and the Cyrillic capitals `А`-`Я`, `Ѐ`-`Џ` and `Ґ` only. Every other character is its own lower case, where Python's `str.lower` follows the full Unicode tables.
- Recipes.Recipe.AddRating: the `except Exception: pass` path is not modelled. A real-valued vote cannot fail to convert, and the vote count is never zero after the increment.
- Shopping.BuildShoppingList: the `except` path, which counts a quantity that cannot be converted to a float as 1, is not modelled. Quantities are reals in the model.
- Selection.SortDescSorted: the sort is proved descending and a permutation, but not stable. `list.sort` keeps equal scores in their input order. `SortDesc` inserts one entry at a time, and the model does not claim it matches Python's order among ties.
- Selection.BestPickSound: which of the best five is picked depends on `random.choice`. The model supplies it as `Draws.pick`, so only properties that hold for every draw are stated.
- Scoring.ScoreRecipe: the diversity bonus `random.uniform(0, 5)` is supplied as `Draws.diversity`. The bounds hold for draws in [0, 5].
- `PickSlot` and `ScoreCandidates` are the body of the slot loop of `choose_meals` split into methods. They are not separate functions in the source.
- The forbidden-term tokeniser sits inside the form handler at ai.py:1601-1608. It is modelled alone as `Notes.ForbiddenTerms`. The rest of the handler, such as reading the profile fields, is I/O.
- Calories.EstimateBmr: `str(sex)` accepts any value, such as a number, where the model's `Profile.sex` is an optional string. Non-string values are not covered.
- Recipes.Recipe.AddRating: the read-modify-write of concurrent requests is not modelled. The model has one caller at a time.
- Shopping.BuildShoppingList: the result is a `map`, so the dictionary's key order is lost. In Python that order is the order in which each label first occurs.
- `MOOD_STYLES` is not used by the planning core and is not modelled.
