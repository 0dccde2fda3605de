# Paneer recipe scaling, modelled in Dafny

The repository predicts ingredient quantities of Indian paneer dishes for a
serving size that has no stored recipe. Each recipe stores ingredient tables
for 1 to 4 servings. Two scripts work on these tables:

- `simple_test.py` has three scaling strategies: linear interpolation or
  extrapolation clamped at zero, proportional scaling by an average ratio,
  and simple ratio scaling by `target / s1`. It also has the error metrics MAE
  and MAPE, and an evaluation driver. The driver predicts serving sizes 2 and
  4 from sizes 1 and 3 in 20 identical trials, collects each strategy's
  metrics, and picks the strategy with the lowest mean MAE.
- `recipe_scaler.py` has its own two-recipe table, the same linear
  scaling, an average absolute error (`calculate_error`), and a test. The test
  averages the error over every recipe and target and grades that average.

The model has six modules:

- `Tables` holds the ingredient table and the recipe book, plus shared helpers
  (lookup, clamp, sums, means):
  - An ingredient table is `Quantities(order, grams)`. A Python dict
    remembers insertion order, and every loop walks it in that order, so the
    key order is kept beside the map. `Valid()` says the order lists the map's
    keys exactly once.
  - A recipe book is `Book(names, recipes)`.
  - A failed `RECIPES[...]` lookup is a `Result` error (`MissingRecipe`,
    `MissingServing`), not a precondition. A division by an empty list's
    length is the error `DivisionByZero`.
- `Strategies` holds the three strategies:
  - Each is a specification function (`LinearPrediction`,
    `ProportionalPrediction`, `SimpleRatioPrediction`), plus a method with the
    source's loop, proved equal to that function.
  - `PredictionOf` and `Predict` do the lookups each strategy does.
- `Metrics` holds `calculate_metrics`: the method with its loop, the function
  it is proved against (`MetricsOf`), and the properties of MAE and MAPE.
- `Evaluation` holds `run_evaluation`:
  - the nested loops as methods, over a result map from strategy to sample
    lists;
  - the sample lists they build, as functions;
  - the choice of the best method.
- `RecipeScaler` holds `recipe_scaler.py`: its recipe book, `linear_scaling`,
  `calculate_error`, `test_scaling_method` and the verdict. It also states the
  scenarios its main block runs.
- `SimpleTest` holds `simple_test.py`'s four-recipe book and the scenarios on
  it.

Every quantity is an exact `real`. Serving sizes in the tables are `int`. A
target size is a `real`, because the main block of `recipe_scaler.py` uses
1.5.

## Model

| member | source | states |
|---|---|---|
| Tables.Quantities.Insert | simple_test.py:48 | `d[k] = v`: the map gets the value; a new key goes to the end of the key order, while a present key keeps its place; a valid table stays valid |
| Tables.SharedKeys | simple_test.py:41-42 | the ingredients a loop over the s1 keys visits under `if k in other` are exactly the keys of both tables, and there are at most as many of them as s1 keys |
| Tables.PickShape | simple_test.py:40-48 | a dict filled by such a loop is valid, holds exactly the visited keys that have a value, in visiting order, each with its value |
| Tables.Pick | simple_test.py:40-48 | the dict that a loop `d = {}; for k in keys: if k in values: d[k] = values[k]` builds, inserting in visiting order (what it holds is stated by `PickShape`) |
| Tables.Servings | simple_test.py:37-38 | `RECIPES[recipe][s]` succeeds iff the recipe and the size exist and gives that table; otherwise it raises for the missing recipe first, then for the missing size |
| Tables.Clamp | simple_test.py:48 | `max(0, x)` is at least 0 and at least x, and is one of them |
| Tables.CoveredSnoc | recipe_scaler.py:76-81 | a recipe has every size of a list iff it has every size but the last, and the last |
| Tables.Sum | simple_test.py:66 | Python's `sum(xs)`, adding from the left |
| Tables.Mean | simple_test.py:66 | `sum(xs) / len(xs)` for a non-empty list |
| Tables.MeanOrZero | simple_test.py:115-116 | `sum(xs) / len(xs) if xs else 0` |
| Strategies.LineAt | simple_test.py:45 | the interpolation line `q1 + (q2 - q1) * (target - s1) / (s2 - s1)` for s1 != s2 |
| Strategies.PerServing | simple_test.py:67-73 | the guard `x / s1 if s1 > 0 else 1` of `serving_ratio` and `target_ratio` (and of the ratio at line 89) |
| Strategies.Factor | simple_test.py:61 | one scaling factor `q2 / q1` for a positive q1 |
| Strategies.Quotient | simple_test.py:68 | `avg_factor / serving_ratio` for a non-zero serving ratio |
| Strategies.Scaled | simple_test.py:78 | `q * base_scaling_rate * target_ratio` |
| Strategies.Interpolate | simple_test.py:44-48 | each interpolated quantity is at least zero |
| Strategies.LinearPrediction | simple_test.py:34-49 | the linear result is a valid table with exactly the ingredients of both tables, in s1's order, each one interpolated |
| Strategies.LinearScaling | simple_test.py:40-49 | the loop of `linear_scaling` builds exactly `LinearPrediction`, and every value is at least zero |
| Strategies.InterpolateAnchors | simple_test.py:44-48 | with non-negative quantities, target s1 gives q1 (also when s1 == s2), target s2 gives q2, and a target between the anchors gives a value between q1 and q2 |
| Strategies.LineBetween | simple_test.py:45 | between the anchors the interpolation line stays between q1 and q2 |
| Strategies.LinearAtFirst | simple_test.py:44-48 | with non-negative s1 quantities, predicting size s1 gives back the s1 quantities of all shared ingredients |
| Strategies.LinearAtSecond | simple_test.py:44-48 | for s1 != s2 and non-negative s2 quantities, predicting size s2 gives back the s2 quantities of all shared ingredients |
| Strategies.LinearBetween | simple_test.py:44-48 | with non-negative tables, a target between the anchors puts every shared ingredient between its two known quantities |
| Strategies.LinearDegenerate | simple_test.py:44-47 | when s1 == s2, every shared ingredient keeps its (clamped) s1 quantity whatever the target |
| Strategies.ScalingFactors | simple_test.py:58-62 | the first loop of `proportional_scaling` builds exactly the `Factors` list |
| Strategies.Factors | simple_test.py:58-62 | the `scaling_factors` list: q2/q1 for each s1 ingredient, in order, that s2 has and whose s1 quantity is positive |
| Strategies.BaseRate | simple_test.py:64-70 | `base_scaling_rate`: the mean factor over the serving ratio, 1 when there is no factor or the serving ratio is not positive |
| Strategies.Qualifying | simple_test.py:59-60 | the ingredients that give a factor are exactly the s1 ingredients that s2 has, with a positive s1 quantity |
| Strategies.FactorsQualifying | simple_test.py:58-62 | there is one factor per qualifying ingredient, in visiting order, each equal to q2/q1 for it |
| Strategies.ProportionalPrediction | simple_test.py:51-81 | the proportional result is a valid table with exactly the shared ingredients, in s1's order, each `max(0, q1 * base rate * target ratio)` |
| Strategies.ProportionalScaling | simple_test.py:51-81 | the two loops and the rate computation build exactly `ProportionalPrediction`, and every value is at least zero |
| Strategies.ProportionalWithoutFactors | simple_test.py:65-79 | when no shared ingredient has a positive s1 quantity there is no factor, the base rate is 1, and each prediction is `max(0, q1 * target ratio)` |
| Strategies.ProportionalExact | simple_test.py:65-79 | on data where s2 quantities are the s1 quantities times s2/s1 (s1, s2 > 0), the base rate is 1 and each prediction is `max(0, q1 * target/s1)` |
| Strategies.ProportionalKeysAsLinear | simple_test.py:76-79 | proportional scaling returns the same ingredients in the same order as linear scaling |
| Strategies.SimpleRatioPrediction | simple_test.py:83-95 | the simple-ratio result is a valid table with every s1 ingredient, in s1's order, each `q * (target/s1 if s1 > 0 else 1)`; it uses no s2 table |
| Strategies.SimpleRatioScaling | simple_test.py:89-95 | the loop of `simple_ratio_scaling` builds exactly `SimpleRatioPrediction` |
| Strategies.SimpleRatioNonNegative | simple_test.py:93 | with non-negative quantities and a non-negative target, no value is negative |
| Strategies.SimpleRatioNegative | simple_test.py:93 | with a negative target and s1 > 0, every positive quantity becomes negative, because nothing clamps it |
| Strategies.SimpleRatioIdentity | simple_test.py:89 | with s1 <= 0 the ratio is 1 and the s1 table comes back unchanged |
| Strategies.PredictionOf | simple_test.py:143-145 | `method_func(recipe, known_servings, target)`: the s1 table is looked up first, then the s2 table (not by simple ratio), then the strategy's prediction |
| Strategies.PredictionOfTables | simple_test.py:143-145 | a strategy called on tables the book holds gives its prediction on exactly those tables |
| Strategies.PredictionNonNegative | simple_test.py:34-95 | on a book without negative quantities a target of at least zero gives no negative prediction, by any strategy |
| Strategies.PredictionOfOk | simple_test.py:143-145 | a strategy call fails exactly when a table it reads is missing (simple ratio reads only the s1 table), with that lookup's error; a successful one is a valid table |
| Strategies.Predict | simple_test.py:143-145 | calling the strategy method gives `PredictionOf` |
| Metrics.AbsError | simple_test.py:109 | an absolute error is at least zero |
| Metrics.PctError | simple_test.py:113 | a percentage error is at least zero |
| Metrics.AbsErrors | simple_test.py:100-109 | the `mae_values` list: one absolute error per key of the predicted table, in order, that the actual table has |
| Metrics.PctErrors | simple_test.py:101-113 | the `mape_values` list: one percentage error per such key whose actual quantity is positive |
| Metrics.MetricsOf | simple_test.py:98-118 | the result of `calculate_metrics`: the mean of each list, or 0 for an empty one |
| Metrics.CalculateMetrics | simple_test.py:98-118 | the loop of `calculate_metrics` gives exactly `MetricsOf`, and both metrics are at least zero |
| Metrics.AbsErrorsOverShared | simple_test.py:103-109 | `mae_values` has one entry per ingredient of both tables, in visiting order, each that ingredient's absolute error |
| Metrics.PositiveKeys | simple_test.py:103-112 | the keys MAPE is taken over are exactly the shared ingredients with a positive actual quantity |
| Metrics.PctErrorsOverPositive | simple_test.py:103-113 | `mape_values` has one entry per such ingredient, in visiting order, each its percentage error |
| Metrics.MetricsNonNegative | simple_test.py:115-116 | MAE and MAPE are at least zero |
| Metrics.MetricsOfAgreeing | simple_test.py:103-116 | a prediction equal to the actual table on every shared ingredient has MAE 0 and MAPE 0 |
| Metrics.MetricsOfDisjoint | simple_test.py:115-116 | with no shared ingredient both lists are empty and both metrics are 0 |
| Metrics.MapeScaleInvariant | simple_test.py:112-116 | multiplying every quantity of both tables by the same c > 0 leaves MAPE unchanged |
| Evaluation.Append | simple_test.py:148-149 | a recorded sample adds the MAE to the MAE list and the MAPE to the MAPE list |
| Evaluation.AddCell | simple_test.py:140-151 | one strategy's turn for one recipe and target: after a successful actual lookup, one more sample if the prediction succeeds, none if it raises |
| Evaluation.AddTargets | simple_test.py:140-151 | the samples after the targets of one recipe |
| Evaluation.AddRecipes | simple_test.py:135-151 | the samples after the recipes of one trial |
| Evaluation.AddTrials | simple_test.py:134-151 | the samples after n identical trials |
| Evaluation.AddCellCounts | simple_test.py:140-151 | one strategy's turn adds the same number of MAE and MAPE entries, at most one, and exactly one when the recipe has sizes 1, 3 and the target |
| Evaluation.AddTargetsCounts | simple_test.py:140-151 | the targets of one recipe add as many MAE as MAPE entries, one per target when the recipe has every size needed |
| Evaluation.AddRecipesCounts | simple_test.py:135-151 | a trial adds as many MAE as MAPE entries, one per recipe and target when every recipe has every size needed |
| Evaluation.AddTrialsCounts | simple_test.py:134-151 | n trials give n times one entry per recipe and target, in lockstep |
| Evaluation.SampleCounts | simple_test.py:134-151 | over the 20 trials every strategy's MAE and MAPE lists have equal length, 20 × 2 × (number of recipes) when every recipe has every size needed |
| Evaluation.MissingIn | simple_test.py:140-141 | the first failing actual-table lookup over the targets of one recipe, if any |
| Evaluation.MissingAmong | simple_test.py:135-141 | the first failing actual-table lookup of a trial, recipe by recipe, if any |
| Evaluation.MissingInCovered | simple_test.py:140-141 | the actual lookups for one recipe all succeed iff the recipe has every target size |
| Evaluation.MissingAmongCovered | simple_test.py:135-141 | the actual lookups of a trial all succeed iff every recipe has every target size |
| Evaluation.RecordStrategy | simple_test.py:143-151 | one strategy's turn appends the metrics of a successful prediction and skips a failing one, as `AddCell` says |
| Evaluation.RecordCell | simple_test.py:143-151 | the loop over the strategies applies `AddCell` to every strategy's samples |
| Evaluation.RecordTargets | simple_test.py:140-151 | the loop over the targets finishes iff every actual table exists, reports the first missing one otherwise, and gives `AddTargets` |
| Evaluation.RecordRound | simple_test.py:135-151 | the loop over the recipes finishes iff no actual table is missing, reports the first missing one otherwise, and gives `AddRecipes` |
| Evaluation.RunEvaluation | simple_test.py:120-175 | `run_evaluation` finishes iff no actual lookup fails; its lists are 20 trials of samples, and its best method is `BestOf` of them |
| Evaluation.Key | simple_test.py:171 | the ranking key is infinite (None) exactly when the MAE list is empty |
| Evaluation.BestIndex | simple_test.py:170-171 | the position `min` picks among the keys: it stays in range and moves only to a strictly smaller key |
| Evaluation.BestIndexIsFirstMinimum | simple_test.py:170-171 | `min` picks a position whose key nothing is below, every earlier key is strictly greater, and it is finite whenever some key is |
| Evaluation.Keys | simple_test.py:170-171 | the keys are taken in the order of the `methods` dict |
| Evaluation.BestOf | simple_test.py:170-171 | `best_method`: the strategy at that position, in the order of the `methods` dict |
| Evaluation.BestOfIsFirstMinimum | simple_test.py:170-171 | the best method has the least mean MAE (an empty list counts as +∞); every method declared before it has a strictly greater one (ties go to the earliest); it has samples whenever one method has |
| RecipeScaler.RecipesValid | recipe_scaler.py:7-20 | the recipe book is well formed |
| RecipeScaler.LinearScaling | recipe_scaler.py:22-46 | `linear_scaling` fails exactly on a missing recipe or size; otherwise it gives a valid, non-negative table of exactly the shared ingredients, equal to the shared linear prediction |
| RecipeScaler.CalculateError | recipe_scaler.py:48-59 | the running total and count give exactly the MAE of `calculate_metrics`, which is at least zero |
| RecipeScaler.VerdictFor | recipe_scaler.py:102-107 | the grade is Excellent iff the average is below 5, Good iff it is in [5, 10), and Needs improvement iff it is 10 or more |
| RecipeScaler.ErrorFor | recipe_scaler.py:78-84 | one `total_errors` entry: the prediction's lookups, then the actual lookup, then the MAE |
| RecipeScaler.ErrorsFor | recipe_scaler.py:76-85 | `total_errors` after the targets of one recipe, or the first KeyError |
| RecipeScaler.ErrorsAmong | recipe_scaler.py:66-85 | `total_errors` after the recipes, or the first KeyError |
| RecipeScaler.ReportOf | recipe_scaler.py:98-107 | the errors, their average and its grade, or ZeroDivisionError when there is no error |
| RecipeScaler.ErrorForOk | recipe_scaler.py:78-85 | one error entry exists iff the recipe has sizes 1, 3 and the target; it is then at least zero |
| RecipeScaler.ErrorsForOk | recipe_scaler.py:76-85 | the targets of one recipe go through iff the recipe has sizes 1, 3 and every target; each target then appends one non-negative error and keeps the earlier ones |
| RecipeScaler.ErrorsAmongOk | recipe_scaler.py:69-85 | the recipes go through iff each has sizes 1, 3 and every target; `total_errors` then holds 2 × (number of recipes) non-negative errors |
| RecipeScaler.ReportOfOutcome | recipe_scaler.py:66-107 | the test finishes iff the book has a recipe and every recipe has sizes 1 to 4; a book without recipes divides by zero; the average is then at least zero, and the grade is the average's grade |
| RecipeScaler.TestRecipe | recipe_scaler.py:76-85 | the loop over the targets of one recipe gives exactly `ErrorsFor` |
| RecipeScaler.TestScalingMethod | recipe_scaler.py:61-107 | `test_scaling_method` computes exactly `ReportOf` |
| RecipeScaler.ErrorsForKeeps | recipe_scaler.py:76-85 | once a target raises, the loop's outcome is that error |
| RecipeScaler.MaeOfFour | simple_test.py:103-115 | over four shared ingredients the MAE is the mean of their four errors |
| RecipeScaler.PalakForSix | recipe_scaler.py:128 | `linear_scaling("palak_paneer", [2, 4], 6)` on the book succeeds, with Onion 195 g and Paneer 600 g |
| RecipeScaler.ShahiForOneAndAHalf | recipe_scaler.py:131 | `linear_scaling("shahi_paneer", [1, 3], 1.5)` on the book succeeds, with Tomato 137.5 g and Paneer 187.5 g |
| RecipeScaler.PalakAtTwoError | recipe_scaler.py:76-84 | palak_paneer predicted for 2 from sizes 1 and 3 has error 3.535 g against the stored table |
| RecipeScaler.PalakAtFourError | recipe_scaler.py:76-84 | palak_paneer predicted for 4 has error 4.3975 g |
| RecipeScaler.ShahiAtTwoError | recipe_scaler.py:76-84 | shahi_paneer predicted for 2 has error 6.31125 g |
| RecipeScaler.ShahiAtFourError | recipe_scaler.py:76-84 | shahi_paneer predicted for 4 has error 6.31125 g |
| RecipeScaler.ReportOfRecipes | recipe_scaler.py:61-107 | on its own book `test_scaling_method` collects the errors 3.535, 4.3975, 6.31125 and 6.31125 g; their average is 5.13875 g, graded Good |
| SimpleTest.RecipesValid | simple_test.py:6-31 | the four-recipe book is well formed |
| SimpleTest.RecipesNonNegative | simple_test.py:6-31 | no stored quantity of the book is negative |
| SimpleTest.PredictionsNonNegative | simple_test.py:34-95 | on this book no strategy predicts a negative quantity, for any recipe, known sizes and target of at least zero |
| SimpleTest.RecipesCovered | simple_test.py:6-31 | every recipe has sizes 1, 3 and the targets 2 and 4 |
| SimpleTest.LinearPalakAtTwo | simple_test.py:34-49 | `linear_scaling("palak_paneer", [1, 3], 2)` on the book succeeds, with Onion 97.5 g and Paneer 200 g |
| SimpleTest.SimpleRatioShahiAtOneAndAHalf | simple_test.py:83-95 | `simple_ratio_scaling("shahi_paneer", [1, 3], 1.5)` on the book succeeds, with Paneer 225 g |
| SimpleTest.EvaluationSamples | simple_test.py:134-151 | on this book no lookup of `run_evaluation` fails, and every strategy collects 160 MAE and 160 MAPE samples |

## Left out

- Output: all `print` output, f-string formatting and banners are left out. This includes the averages printed per method in `run_evaluation` (simple_test.py:157-167) and the winner it prints. The model keeps the lists and the best method it returns and picks.
- `demonstrate_scaling` (simple_test.py:177-204) only prints the three strategies' results. Those results are the modelled strategies applied to the book.
- Display truncation: showing only the first 5 or first 3 ingredients (simple_test.py:201, recipe_scaler.py:91) affects only what is shown.
- `scale_for_any_serving` (recipe_scaler.py:109-120) prints and returns `linear_scaling`, which is `RecipeScaler.LinearScaling`.
- The `__main__` blocks are left out. The two examples the `recipe_scaler.py` block runs are `PalakForSix` and `ShahiForOneAndAHalf`.
- Floating point: IEEE-754 rounding is not modelled. Every quantity is an exact real, so the stated results (such as 3.535) are the exact values the formulas give.
- Infinity: `float('inf')` in the best-method key is `None`, which counts as greater than every finite key.
- Exceptions other than a missing key: the `except Exception` branch (simple_test.py:150-151) is modelled as skipping the sample. A strategy can fail in the model only on a missing table.
  - Python `max` and `/` cannot fail on these numbers because the guards exclude division by zero.
  - The actual-table lookup (simple_test.py:141) is outside the `try`, so it stops the whole evaluation with its error.
- The unused `json` and `random` imports (simple_test.py:2-3, recipe_scaler.py:3-4) are left out. The 20 trials are identical, because nothing random is drawn.
- Dict contents: `Quantities.Valid()` (distinct key order, same keys as the map) appears as a `requires` on the table-level strategies and metrics. It is the shape every Python dict has, not a demand of the source. Dict iteration order is modelled as that key order.
- Serving sizes as keys: the tables are keyed by `int` serving sizes, as in both `RECIPES`. Looking a table up by a fractional serving size is not modelled (the source never does it). A target of 1.5 is used only inside the formulas.
