# RAFit backend core in Dafny

RAFit is a calorie-tracking app. Its backend (`backend/server.py`) does four things:

- It computes a user's daily calorie goal from their profile. The chain is the Harris-Benedict basal metabolic rate (BMR), then an activity multiplier that gives the total daily energy expenditure (TDEE), then a deficit or surplus set by the weight goal.
- It turns the JSON a language model sent back for a food photo into one response with defaults filled in. A list of foods is first merged into a single food.
- It keeps a collection of meals: save a meal, adjust a meal's portion (its nutrients are rescaled and rounded to tenths), delete a meal.
- It reads the collection back in two ways: the meals and totals of one user on one day, and a history that groups meals by date.

The model has six modules:

- `Wrappers` holds the `Option` and `Result` types and the `HttpError` value of a failed request.
- `CalorieGoal` holds the calorie chain, as pure functions with lemmas.
- `FoodAnalysis` holds the merge of a food list and the analysis response, as pure functions. `MergeList` is the source's step-by-step overwrite of the first item, proved equal to the specification `Merged`.
- `Meals` holds the stored record, `round(x, 1)` and the portion rescaling.
- `MealStore.MealCollection` is a class over `meals: seq<Meal>`. Its methods `SaveMeal`, `AdjustPortion` and `DeleteMeal` update that field and state the whole new state. Lemmas beside the class relate each update to the collection's counts and day totals.
- `Aggregation` holds the per-day query and the history. `MealHistory` is the source's grouping loop over a dictionary plus its insertion order, proved equal to the specification `Groups`. The properties of the history are proved about `Groups`.

Modelling choices:

- Python floats are exact reals.
- `str.lower()` lower-cases the ASCII letters, as `CalorieGoal.Lower`. This is exact for the comparisons the source makes, since no other character lower-cases into one of the letters of those keys.
- MongoDB's `find_one`, `update_one` and `delete_one` act on the first stored meal with the id, in the collection's natural order (`MealStore.FindMeal`).
- The current time and the generated meal id are parameters.
- The analysis input is the value `json.loads` produced (`FoodAnalysis.Parsed`).

One consequence of the code, stated as `FoodAnalysis.MergedMissingPortionIsZero`: when the language model returns several foods and none of them has `portion_size`, the merged portion is the sum of the 0 defaults, so 0 g. A single such food gets the response default of 100 g. It is not clearly an error, so it is recorded as a property.

## Model

| member | source | states |
|---|---|---|
| CalorieGoal.Lower | backend/server.py:74 | lower-casing keeps the length and maps every character through the ASCII lower-case map |
| CalorieGoal.LowerIdempotent | backend/server.py:74 | lower-casing twice is the same as lower-casing once |
| CalorieGoal.Bmr | backend/server.py:72-78 | definition of `calculate_bmr`; its properties are in `BmrFormulaChoice`, `BmrIgnoresCase`, `BmrExamples` and `BmrMonotone` |
| CalorieGoal.BmrFormulaChoice | backend/server.py:72-78 | the male formula is used exactly when the gender lower-cases to "masculino"; every other string gets the female formula |
| CalorieGoal.BmrIgnoresCase | backend/server.py:74 | a gender and its lower-cased form give the same BMR |
| CalorieGoal.LowerMasculino | backend/server.py:74 | "Masculino" lower-cases to the key of the male formula |
| CalorieGoal.BmrExamples | backend/server.py:72-78 | "Masculino" selects the male formula; "feminino" and the English "male" select the female one |
| CalorieGoal.BmrMonotone | backend/server.py:75-77 | for either formula, BMR does not decrease with weight or height and does not increase with age |
| CalorieGoal.TableMultiplier | backend/server.py:82-89 | a known level gets its table entry, an unknown one 1.2; every multiplier lies in 1.2..1.9 |
| CalorieGoal.Multiplier | backend/server.py:82-89 | definition of the multiplier lookup on the lower-cased level; its properties are in `TableMultiplier` and `MultiplierIgnoresCase` |
| CalorieGoal.Tdee | backend/server.py:80-89 | definition of `calculate_tdee`; its properties are in `TdeeLookup` and `TdeeBounds` |
| CalorieGoal.TdeeLookup | backend/server.py:80-89 | each of the five levels, in any case, scales the BMR by its multiplier; any other level by 1.2 |
| CalorieGoal.TdeeBounds | backend/server.py:82-89 | for a non-negative BMR, TDEE lies between 1.2 and 1.9 times the BMR |
| CalorieGoal.MultiplierIgnoresCase | backend/server.py:89 | a level and its lower-cased form select the same multiplier |
| CalorieGoal.DailyCalorieGoal | backend/server.py:91-98 | the goal is TDEE-500, TDEE+300 or TDEE; it is below TDEE iff the goal weight is below the current weight, above it iff above, equal iff equal |
| CalorieGoal.MaintenanceGoalIsTdee | backend/server.py:196-198 | a profile whose goal weight equals its weight gets BMR times the activity multiplier |
| FoodAnalysis.Total | backend/server.py:170-174 | definition of the sum of one key over the items, 0 for a missing key; its properties are in `TotalAppend` and `TotalOfZeros` |
| FoodAnalysis.TotalOfZeros | backend/server.py:170 | items that all lack a key sum that key to 0 |
| FoodAnalysis.TotalAppend | backend/server.py:170-174 | the sum of a key over two lists joined is the sum of the two sums |
| FoodAnalysis.Names | backend/server.py:167 | one name per item, in order, with "" for an item without `food_name` |
| FoodAnalysis.NamesAppend | backend/server.py:167 | the names of two joined lists are the joined names |
| FoodAnalysis.Join | backend/server.py:168 | definition of `' + '.join`; its property is in `JoinAppend` |
| FoodAnalysis.JoinAppend | backend/server.py:168 | joining two non-empty name lists puts exactly one " + " between their joins |
| FoodAnalysis.Merged | backend/server.py:161-176 | an empty list fails with "Nenhum alimento identificado na resposta"; one item is passed through; several give the first item with the names joined and all five numeric keys set to their sums (0 for a missing key), keeping the first item's confidence |
| FoodAnalysis.MergeList | backend/server.py:161-180 | the step-by-step overwrite of the first item yields exactly `Merged` |
| FoodAnalysis.MergeAssociative | backend/server.py:161-176 | merging the merges of two non-empty lists equals merging their concatenation |
| FoodAnalysis.WithDefaults | backend/server.py:247-256 | each response key is the analysed value when present, else its default ("Alimento não identificado", 100, 0, "média"); the meal id is the one generated |
| FoodAnalysis.DefaultsRoundTrip | backend/server.py:247-256 | a complete analysis survives default filling unchanged, and filling a response read back as an object gives the same response |
| FoodAnalysis.AnalyzeFood | backend/server.py:231-264 | unknown user gives 404 "Usuário não encontrado"; empty list gives 500 with the analysis error prefix; a non-object answer gives 500 with the processing prefix and the AttributeError text; otherwise the default-filled object or merged list |
| FoodAnalysis.MergedMissingPortionIsZero | backend/server.py:170-250 | several items that all lack `portion_size` give a response portion of 0, not 100 |
| Meals.Stamped | backend/server.py:270-271 | definition of the stored document: the entry's fields plus `created_at`; used by `MealCollection.SaveMeal` |
| Meals.Round1 | backend/server.py:294-297 | the rounded value is a whole number of tenths within half a tenth of the input |
| Meals.Round1Unique | backend/server.py:294-297 | the rounding is the only whole number of tenths that near the input |
| Meals.Round1OfTenths | backend/server.py:294-297 | a value already in tenths is unchanged by rounding |
| Meals.Rescale | backend/server.py:287-298 | the new portion is the requested one; each nutrient is in tenths and within 0.05 of old value times new portion over old portion |
| Meals.Apply | backend/server.py:300-303 | the stored meal takes the five updated values and keeps every other field |
| Meals.RescaleToSamePortion | backend/server.py:287-303 | re-applying a meal's own portion leaves a meal given in tenths unchanged |
| Meals.RescaleExample | backend/server.py:287-298 | 200 kcal, 10/20/5 g at 100 g become 300 kcal, 15/30/7.5 g at 150 g |
| MealStore.FindMeal | backend/server.py:283-285 | None exactly when no stored meal has the id; otherwise the index of the first meal with it |
| MealStore.MealCollection.constructor | backend/server.py:35 | a new collection holds no meals |
| MealStore.MealCollection.SaveMeal | backend/server.py:266-277 | the entry, stamped with its creation time, is appended; the reply carries the success message and the meal's id |
| MealStore.MealCollection.AdjustPortion | backend/server.py:279-309 | unknown id gives 404 and no change; a zero stored portion gives 500 "float division by zero" and no change; otherwise the first meal with the id gets the rescaled values, which are returned, and no other meal changes |
| MealStore.MealCollection.DeleteMeal | backend/server.py:377-388 | unknown id gives 404 and no change; otherwise the first meal with the id is removed and the success message returned |
| MealStore.RemoveAtMultiset | backend/server.py:381 | removing a position takes exactly one copy of that meal out of the collection |
| MealStore.RemoveAtCounts | backend/server.py:381 | removing a position lowers the count of its id by one and no other id's count |
| MealStore.DeleteRemovesExactlyOne | backend/server.py:381-384 | a successful delete removes one meal with the id and leaves the counts of all other ids unchanged |
| MealStore.SaveUpdatesDayTotals | backend/server.py:266-338 | after a save, a day's totals and count grow by the saved meal exactly when it belongs to that user and day |
| MealStore.DeleteUpdatesDayTotals | backend/server.py:311-384 | after a delete, a day's totals and count plus the removed meal's share equal the ones before |
| MealStore.RemoveAtSums | backend/server.py:325-330 | the conditional sums and counts after removing a position plus that meal's share equal the ones before |
| MealStore.AdjustUpdatesDayTotals | backend/server.py:279-338 | after an adjust, a day's totals swap the meal's old share for its new one; the day's meal count is unchanged |
| MealStore.AdjustUpdatesSums | backend/server.py:300-330 | replacing a meal by its adjusted version swaps its share of every conditional sum and keeps every count |
| MealStore.FindMealIgnoresOtherFields | backend/server.py:283-301 | collections with the same ids at the same positions give the same lookup |
| MealStore.AdjustKeepsLookups | backend/server.py:283-301 | after an adjust, every id is found at the same position as before |
| Aggregation.Select | backend/server.py:315-318 | the selection holds exactly the meals of the input that match the query |
| Aggregation.SelectAppend | backend/server.py:315-318 | selecting over two joined lists joins the two selections |
| Aggregation.SelectMultiplicity | backend/server.py:315-318 | a matching meal keeps all its copies, a non-matching one none |
| Aggregation.Sum | backend/server.py:326-329 | definition of the four totals over a list of meals; its properties are in `SumOfSelect` and `HistoryTotals` |
| Aggregation.SumOfSelect | backend/server.py:326-329 | the totals of the selected meals equal the sum over all stored meals of each one's contribution when it matches |
| Aggregation.CountOfSelect | backend/server.py:330 | the number of selected meals equals the number of stored meals that match |
| Aggregation.MealsByDate | backend/server.py:311-338 | the day view's meals are the stored selection of that user and date in stored order, so exactly the user's meals on that date; the totals and count are the sums and count over the matching stored meals; no meal means zero totals |
| Aggregation.FirstOccurrences | backend/server.py:357-365 | the distinct dates hold the same values as the input, without repetition |
| Aggregation.FirstOccurrencesOrdered | backend/server.py:357-373 | the distinct dates come in the order of their first occurrence |
| Aggregation.GroupOf | backend/server.py:357-371 | definition of one date's group: the meals of that date in input order and their totals; its properties are in `GroupOfSnoc` and `HistoryGroupMeals` |
| Aggregation.Groups | backend/server.py:352-373 | one group per distinct date of the input, in first-occurrence order, so as many groups as distinct dates |
| Aggregation.GroupOfSnoc | backend/server.py:367-371 | one more meal extends its own date's group (meals and totals) and leaves every other group alone |
| Aggregation.FirstOccurrencesSnoc | backend/server.py:357-358 | one more meal adds its date at the end of the key order exactly when the date is new |
| Aggregation.GroupingStep | backend/server.py:353-371 | one pass of the loop keeps the dictionary equal to the groups of the meals seen so far and its key order equal to their distinct dates |
| Aggregation.GroupedHistory | backend/server.py:373 | reading the dictionary's values in key order gives the specified groups |
| Aggregation.MealHistory | backend/server.py:347-373 | the grouping loop returns exactly one group per distinct date, in first-occurrence order, each with its meals and totals |
| Aggregation.HistoryTotals | backend/server.py:361-371 | each group's totals are the sums over its meals |
| Aggregation.HistoryOrder | backend/server.py:352-373 | groups come in the order in which their dates first occur in the input |
| Aggregation.HistoryDatesDistinct | backend/server.py:357-358 | no two groups share a date |
| Aggregation.HistoryGroupMeals | backend/server.py:367 | a group holds exactly the input meals of its date, in input order |
| Aggregation.HistoryCovers | backend/server.py:353-358 | every input meal's date has a group |
| Aggregation.HistoryPartition | backend/server.py:353-371 | a meal occurs in its date's group as often as in the input, and in no other group |

## Left out

- The FastAPI application, CORS, the health endpoint and the uvicorn entry point: web plumbing with no logic.
- MongoDB I/O: the collection is an in-memory sequence, and `_id` removal is not modelled since the model has no `_id`.
- A store call that fails and gives a 500 with the exception text is not modelled: it depends on the database.
- The history query's `sort("date", -1)` and `limit(days * 10)`: `MealHistory` takes the query's result as input. MongoDB does not fix the order among meals with equal dates.
- The language-model call in `analyze_food_with_ai`: the key check, the session, the message, the Markdown-fence stripping and `json.loads`. The model's input is the parsed value.
- JSON values of unexpected types: list items that are not objects, or numeric keys holding text. Items are typed objects.
- The in-place mutation of the first list item during the merge: the model returns a new value.
- `create_or_update_profile`'s upsert and its `round(x, 0)` of the goal, BMR and TDEE. The chain before rounding is `MaintenanceGoalIsTdee`.
- `get_profile`: a plain lookup with a 404.
- `uuid.uuid4()` and `datetime.now()` are parameters; logging with `print` is not modelled.
- The client-side application: none of its code is part of this model.
- Meals.Round1: rounds exact ties up, where Python's `round` works on the binary value. At a tie that Python rounds down, its result breaks the contract's strict upper bound `x < r + 0.05`. An example is `round(1.25, 1)`, which gives 1.2.
- Float semantics: overflow, NaN and binary rounding of the products are not modelled, since the model uses reals.
- CalorieGoal.Lower: lower-cases only ASCII letters. Python's `str.lower()` follows Unicode.
- Line 176 of `backend/server.py` puts backslash-escaped quotes outside a string literal, which Python rejects as a syntax error. As written, the file cannot be imported. `FoodAnalysis.Merged` and `FoodAnalysis.AnalyzeFood` model the evidently intended `raise ValueError("Nenhum alimento identificado na resposta")`.
