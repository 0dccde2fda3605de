/** recipe_scaler.py: its own recipe book, the linear scaling looked up in a
    book, the average absolute error of a prediction, and the test that
    predicts sizes 2 and 4 of every recipe from sizes 1 and 3 and grades the
    mean error. */
module RecipeScaler {
  import opened Tables
  import opened Strategies
  import opened Metrics

  const KNOWN: seq<int> := [1, 3]
  const TARGETS: seq<int> := [2, 4]

  // ---------------------------------------------------------------------
  // The recipe book
  // ---------------------------------------------------------------------

  const PALAK_PANEER: seq<string> := ["Onion", "Garlic", "Green chilli", "Paneer"]
  const SHAHI_PANEER: seq<string> := ["Green chilli", "Ginger garlic paste", "Tomato", "Paneer"]

  const PALAK_1: Quantities := Quantities(PALAK_PANEER, map["Onion" := 85.0, "Garlic" := 10.0, "Green chilli" := 0.90, "Paneer" := 100.0])
  const PALAK_2: Quantities := Quantities(PALAK_PANEER, map["Onion" := 85.0, "Garlic" := 16.63, "Green chilli" := 1.75, "Paneer" := 200.0])
  const PALAK_3: Quantities := Quantities(PALAK_PANEER, map["Onion" := 110.0, "Garlic" := 20.0, "Green chilli" := 2.58, "Paneer" := 300.0])
  const PALAK_4: Quantities := Quantities(PALAK_PANEER, map["Onion" := 140.0, "Garlic" := 25.0, "Green chilli" := 3.51, "Paneer" := 400.0])
  const PALAK: map<int, Quantities> := map[1 := PALAK_1, 2 := PALAK_2, 3 := PALAK_3, 4 := PALAK_4]

  const SHAHI_1: Quantities := Quantities(SHAHI_PANEER, map["Green chilli" := 0.41, "Ginger garlic paste" := 10.0, "Tomato" := 110.0, "Paneer" := 150.0])
  const SHAHI_2: Quantities := Quantities(SHAHI_PANEER, map["Green chilli" := 0.90, "Ginger garlic paste" := 15.0, "Tomato" := 165.0, "Paneer" := 200.0])
  const SHAHI_3: Quantities := Quantities(SHAHI_PANEER, map["Green chilli" := 0.90, "Ginger garlic paste" := 20.0, "Tomato" := 220.0, "Paneer" := 300.0])
  const SHAHI_4: Quantities := Quantities(SHAHI_PANEER, map["Green chilli" := 0.90, "Ginger garlic paste" := 25.0, "Tomato" := 275.0, "Paneer" := 400.0])
  const SHAHI: map<int, Quantities> := map[1 := SHAHI_1, 2 := SHAHI_2, 3 := SHAHI_3, 4 := SHAHI_4]

  /** `RECIPES`. */
  const RECIPES: Book := Book(["palak_paneer", "shahi_paneer"], map["palak_paneer" := PALAK, "shahi_paneer" := SHAHI])

  /** Every table of the recipe is well formed. */
  lemma PalakValid()
    ensures forall s :: s in PALAK ==> PALAK[s].Valid()
  {
    forall s | s in PALAK ensures PALAK[s].Valid() {
      if s == 1 {
        assert PALAK[s] == PALAK_1;
      } else if s == 2 {
        assert PALAK[s] == PALAK_2;
      } else if s == 3 {
        assert PALAK[s] == PALAK_3;
      } else {
        assert PALAK[s] == PALAK_4;
      }
    }
  }

  /** Every table of the recipe is well formed. */
  lemma ShahiValid()
    ensures forall s :: s in SHAHI ==> SHAHI[s].Valid()
  {
    forall s | s in SHAHI ensures SHAHI[s].Valid() {
      if s == 1 {
        assert SHAHI[s] == SHAHI_1;
      } else if s == 2 {
        assert SHAHI[s] == SHAHI_2;
      } else if s == 3 {
        assert SHAHI[s] == SHAHI_3;
      } else {
        assert SHAHI[s] == SHAHI_4;
      }
    }
  }

  lemma RecipesValid()
    ensures RECIPES.Valid()
  {
    PalakValid();
    ShahiValid();
  }

  // ---------------------------------------------------------------------
  // linear_scaling and calculate_error
  // ---------------------------------------------------------------------

  /** `linear_scaling(recipe, [s1, s2], target)`: the same loop as simple_test.py's,
      after looking up both tables (KeyError on a missing one). */
  method LinearScaling(book: Book, recipe: string, s1: int, s2: int, target: real) returns (r: Result<Quantities>)
    requires book.Valid()
    ensures r == PredictionOf(Linear, book, recipe, s1, s2, target)
    ensures r.Ok? <==> recipe in book.recipes && s1 in book.recipes[recipe] && s2 in book.recipes[recipe]
    ensures r.Ok? ==> r.value.Valid() && NonNegative(r.value)
    ensures r.Ok? ==> forall k :: k in r.value.grams <==> k in book.recipes[recipe][s1].grams && k in book.recipes[recipe][s2].grams
  {
    var ingredientsS1 :- Servings(book, recipe, s1);
    var ingredientsS2 :- Servings(book, recipe, s2);
    var scaled := Strategies.LinearScaling(ingredientsS1, ingredientsS2, s1, s2, target);
    return Ok(scaled);
  }

  /** `calculate_error(predicted, actual)`: the running total and count of the
      absolute errors over the shared ingredients, then their quotient. */
  method CalculateError(predicted: Quantities, actual: Quantities) returns (e: real)
    requires predicted.Valid()
    ensures e == MetricsOf(predicted, actual).mae
    ensures e >= 0.0
  {
    var totalError := 0.0;
    var count := 0;
    var i := 0;
    while i < |predicted.order|
      invariant 0 <= i <= |predicted.order|
      invariant totalError == Sum(AbsErrors(predicted.order[..i], predicted.grams, actual.grams))
      invariant count == |AbsErrors(predicted.order[..i], predicted.grams, actual.grams)|
    {
      var ingredient := predicted.order[i];
      assert ingredient in predicted.order;
      ErrorsStep(predicted.order, i, predicted.grams, actual.grams);
      if ingredient in actual.grams {
        var error := AbsError(predicted.grams[ingredient], actual.grams[ingredient]);
        SumAppend(AbsErrors(predicted.order[..i], predicted.grams, actual.grams), error);
        totalError := totalError + error;
        count := count + 1;
      }
      i := i + 1;
    }
    assert predicted.order[..i] == predicted.order;
    e := if count > 0 then totalError / count as real else 0.0;
    MetricsNonNegative(predicted, actual);
  }

  // ---------------------------------------------------------------------
  // test_scaling_method
  // ---------------------------------------------------------------------

  datatype Verdict = Excellent | Good | NeedsImprovement

  /** The grade of the overall average error. */
  function VerdictFor(average: real): (v: Verdict)
    ensures v == Excellent <==> average < 5.0
    ensures v == Good <==> 5.0 <= average < 10.0
    ensures v == NeedsImprovement <==> 10.0 <= average
  {
    if average < 5.0 then Excellent
    else if average < 10.0 then Good
    else NeedsImprovement
  }

  /** The `total_errors` entry for one recipe and target, or the KeyError the
      prediction or the actual lookup raises (in that order). */
  function ErrorFor(book: Book, recipe: string, target: int): Result<real>
    requires book.Valid()
  {
    var predicted :- PredictionOf(Linear, book, recipe, KNOWN[0], KNOWN[1], target as real);
    var actual :- Servings(book, recipe, target);
    Ok(MetricsOf(predicted, actual).mae)
  }

  /** `total_errors` after the targets of one recipe have been appended to `prior`. */
  function ErrorsFor(prior: seq<real>, book: Book, recipe: string, targets: seq<int>): Result<seq<real>>
    requires book.Valid()
  {
    if |targets| == 0 then Ok(prior)
    else
      match ErrorsFor(prior, book, recipe, targets[..|targets| - 1])
      case Err(e) => Err(e)
      case Ok(errors) =>
        match ErrorFor(book, recipe, targets[|targets| - 1])
        case Err(e) => Err(e)
        case Ok(error) => Ok(errors + [error])
  }

  /** `total_errors` after the recipes `names`. */
  function ErrorsAmong(book: Book, names: seq<string>): Result<seq<real>>
    requires book.Valid()
  {
    if |names| == 0 then Ok([])
    else
      match ErrorsAmong(book, names[..|names| - 1])
      case Err(e) => Err(e)
      case Ok(errors) => ErrorsFor(errors, book, names[|names| - 1], TARGETS)
  }

  /** The overall result: every error, their average and its grade. */
  datatype Report = Report(errors: seq<real>, average: real, verdict: Verdict)

  /** What `test_scaling_method` computes, with ZeroDivisionError for a book
      without recipes. */
  function ReportOf(book: Book): Result<Report>
    requires book.Valid()
  {
    match ErrorsAmong(book, book.names)
    case Err(e) => Err(e)
    case Ok(errors) =>
      if |errors| == 0 then Err(DivisionByZero)
      else Ok(Report(errors, Mean(errors), VerdictFor(Mean(errors))))
  }

  lemma ErrorsForStep(prior: seq<real>, book: Book, recipe: string, targets: seq<int>, t: nat)
    requires book.Valid() && t < |targets|
    ensures ErrorsFor(prior, book, recipe, targets[..t]).Ok? ==>
      ErrorsFor(prior, book, recipe, targets[..t + 1]) ==
        var found := ErrorFor(book, recipe, targets[t]);
        if found.Err? then Err(found.error) else Ok(ErrorsFor(prior, book, recipe, targets[..t]).value + [found.value])
  {
    assert targets[..t + 1][..t] == targets[..t];
  }

  lemma ErrorsAmongStep(book: Book, names: seq<string>, i: nat)
    requires book.Valid() && i < |names|
    ensures ErrorsAmong(book, names[..i]).Ok? ==>
      ErrorsAmong(book, names[..i + 1]) == ErrorsFor(ErrorsAmong(book, names[..i]).value, book, names[i], TARGETS)
  {
    assert names[..i + 1][..i] == names[..i];
  }

  /** An error, once raised, is the outcome of every longer run. */
  lemma {:induction false} ErrorsForKeeps(prior: seq<real>, book: Book, recipe: string, targets: seq<int>, t: nat)
    requires book.Valid() && t <= |targets|
    requires ErrorsFor(prior, book, recipe, targets[..t]).Err?
    ensures ErrorsFor(prior, book, recipe, targets) == ErrorsFor(prior, book, recipe, targets[..t])
    decreases |targets| - t
  {
    if t == |targets| {
      assert targets[..t] == targets;
    } else {
      var init := targets[..|targets| - 1];
      assert init[..t] == targets[..t];
      ErrorsForKeeps(prior, book, recipe, init, t);
    }
  }

  lemma {:induction false} ErrorsAmongKeeps(book: Book, names: seq<string>, i: nat)
    requires book.Valid() && i <= |names|
    requires ErrorsAmong(book, names[..i]).Err?
    ensures ErrorsAmong(book, names) == ErrorsAmong(book, names[..i])
    decreases |names| - i
  {
    if i == |names| {
      assert names[..i] == names;
    } else {
      var init := names[..|names| - 1];
      assert init[..i] == names[..i];
      ErrorsAmongKeeps(book, init, i);
    }
  }

  /** The loop over the targets of one recipe. */
  method TestRecipe(book: Book, recipe: string, totalErrors: seq<real>) returns (outcome: Result<seq<real>>)
    requires book.Valid()
    ensures outcome == ErrorsFor(totalErrors, book, recipe, TARGETS)
  {
    var errors := totalErrors;
    var t := 0;
    while t < |TARGETS|
      invariant 0 <= t <= |TARGETS|
      invariant ErrorsFor(totalErrors, book, recipe, TARGETS[..t]) == Ok(errors)
    {
      var target := TARGETS[t];
      ErrorsForStep(totalErrors, book, recipe, TARGETS, t);
      var predicted := LinearScaling(book, recipe, KNOWN[0], KNOWN[1], target as real);
      if predicted.Err? {
        ErrorsForKeeps(totalErrors, book, recipe, TARGETS, t + 1);
        return Err(predicted.error);
      }
      var actual := Servings(book, recipe, target);
      if actual.Err? {
        ErrorsForKeeps(totalErrors, book, recipe, TARGETS, t + 1);
        return Err(actual.error);
      }
      var error := CalculateError(predicted.value, actual.value);
      errors := errors + [error];
      t := t + 1;
    }
    assert TARGETS[..t] == TARGETS;
    return Ok(errors);
  }

  method TestScalingMethod(book: Book) returns (outcome: Result<Report>)
    requires book.Valid()
    ensures outcome == ReportOf(book)
  {
    var totalErrors: seq<real> := [];
    var i := 0;
    while i < |book.names|
      invariant 0 <= i <= |book.names|
      invariant ErrorsAmong(book, book.names[..i]) == Ok(totalErrors)
    {
      var recipeName := book.names[i];
      ErrorsAmongStep(book, book.names, i);
      var step := TestRecipe(book, recipeName, totalErrors);
      if step.Err? {
        ErrorsAmongKeeps(book, book.names, i + 1);
        return Err(step.error);
      }
      totalErrors := step.value;
      i := i + 1;
    }
    assert book.names[..i] == book.names;
    if |totalErrors| == 0 {
      return Err(DivisionByZero);
    }
    var avgError := Sum(totalErrors) / |totalErrors| as real;
    return Ok(Report(totalErrors, avgError, VerdictFor(avgError)));
  }

  // ---------------------------------------------------------------------
  // What test_scaling_method computes
  // ---------------------------------------------------------------------

  lemma ErrorForOk(book: Book, recipe: string, target: int)
    requires book.Valid()
    ensures ErrorFor(book, recipe, target).Ok? <==> Covered(book, recipe, KNOWN) && target in book.recipes[recipe]
    ensures ErrorFor(book, recipe, target).Ok? ==> ErrorFor(book, recipe, target).value >= 0.0
    ensures ErrorFor(book, recipe, target).Err? ==> ErrorFor(book, recipe, target).error != DivisionByZero
  {
    PredictionOfOk(Linear, book, recipe, KNOWN[0], KNOWN[1], target as real);
    var predicted := PredictionOf(Linear, book, recipe, KNOWN[0], KNOWN[1], target as real);
    var actual := Servings(book, recipe, target);
    if predicted.Ok? && actual.Ok? {
      MetricsNonNegative(predicted.value, actual.value);
    }
  }

  /** The targets of one recipe go through iff the recipe has the known sizes
      and every target; each then adds one non-negative error. */
  lemma {:induction false} ErrorsForOk(prior: seq<real>, book: Book, recipe: string, targets: seq<int>)
    requires book.Valid()
    ensures ErrorsFor(prior, book, recipe, targets).Ok? <==>
      |targets| == 0 || (Covered(book, recipe, KNOWN) && Covered(book, recipe, targets))
    ensures ErrorsFor(prior, book, recipe, targets).Ok? ==>
      var errors := ErrorsFor(prior, book, recipe, targets).value;
      |errors| == |prior| + |targets| && errors[..|prior|] == prior &&
      forall i :: |prior| <= i < |errors| ==> errors[i] >= 0.0
    ensures ErrorsFor(prior, book, recipe, targets).Err? ==> ErrorsFor(prior, book, recipe, targets).error != DivisionByZero
  {
    if |targets| > 0 {
      var init, last := targets[..|targets| - 1], targets[|targets| - 1];
      ErrorsForOk(prior, book, recipe, init);
      ErrorForOk(book, recipe, last);
      var before := ErrorsFor(prior, book, recipe, init);
      var found := ErrorFor(book, recipe, last);
      if before.Ok? && found.Ok? {
        if recipe in book.recipes {
          CoveredSnoc(book, recipe, targets);
        }
        var errors := before.value + [found.value];
        assert ErrorsFor(prior, book, recipe, targets) == Ok(errors);
        assert errors[..|prior|] == before.value[..|prior|];
      } else if recipe in book.recipes {
        CoveredSnoc(book, recipe, targets);
      }
    }
  }

  /** The recipes go through iff each has the known sizes and the targets; the
      list then holds one non-negative error per recipe and target. */
  lemma {:induction false} ErrorsAmongOk(book: Book, names: seq<string>)
    requires book.Valid()
    ensures ErrorsAmong(book, names).Ok? <==> AllCovered(book, names, KNOWN) && AllCovered(book, names, TARGETS)
    ensures ErrorsAmong(book, names).Ok? ==>
      var errors := ErrorsAmong(book, names).value;
      |errors| == |TARGETS| * |names| && forall i :: 0 <= i < |errors| ==> errors[i] >= 0.0
    ensures ErrorsAmong(book, names).Err? ==> ErrorsAmong(book, names).error != DivisionByZero
  {
    if |names| > 0 {
      var init, last := names[..|names| - 1], names[|names| - 1];
      ErrorsAmongOk(book, init);
      AllCoveredSnoc(book, names, KNOWN);
      AllCoveredSnoc(book, names, TARGETS);
      var before := ErrorsAmong(book, init);
      if before.Ok? {
        ErrorsForOk(before.value, book, last, TARGETS);
        var after := ErrorsFor(before.value, book, last, TARGETS);
        if after.Ok? {
          assert forall i :: 0 <= i < |before.value| ==> after.value[i] == before.value[i];
          assert |after.value| == |TARGETS| * (|names| - 1) + |TARGETS|;
        }
      }
    }
  }

  /** `test_scaling_method` finishes iff the book has a recipe and every recipe
      has sizes 1 to 4; it then averages one error per recipe and target, and
      the average is not negative. A book without recipes divides by zero. */
  lemma ReportOfOutcome(book: Book)
    requires book.Valid()
    ensures ReportOf(book).Ok? <==>
      |book.names| > 0 && AllCovered(book, book.names, KNOWN) && AllCovered(book, book.names, TARGETS)
    ensures ReportOf(book) == Err(DivisionByZero) <==> |book.names| == 0
    ensures ReportOf(book).Ok? ==>
      var report := ReportOf(book).value;
      |report.errors| == |TARGETS| * |book.names| && report.average >= 0.0 &&
      report.verdict == VerdictFor(report.average)
  {
    ErrorsAmongOk(book, book.names);
    var errors := ErrorsAmong(book, book.names);
    if errors.Ok? {
      MeanOrZeroNonNegative(errors.value);
    }
  }

  // ---------------------------------------------------------------------
  // Scenarios on RECIPES
  // ---------------------------------------------------------------------

  lemma RecipeLookups()
    ensures RECIPES.names[0] in RECIPES.recipes && RECIPES.recipes[RECIPES.names[0]] == PALAK
    ensures RECIPES.names[1] in RECIPES.recipes && RECIPES.recipes[RECIPES.names[1]] == SHAHI
  {
  }

  lemma PalakSizes()
    ensures 1 in PALAK && 2 in PALAK && 3 in PALAK && 4 in PALAK
  {
  }

  lemma ShahiSizes()
    ensures 1 in SHAHI && 2 in SHAHI && 3 in SHAHI && 4 in SHAHI
  {
  }

  /** The docstring's example, which the main block runs:
      `linear_scaling("palak_paneer", [2, 4], 6)` gives Onion 195 g and
      Paneer 600 g. */
  lemma PalakForSix()
    ensures RECIPES.Valid()
    ensures PredictionOf(Linear, RECIPES, "palak_paneer", 2, 4, 6.0).Ok?
    ensures var p := PredictionOf(Linear, RECIPES, "palak_paneer", 2, 4, 6.0).value;
      "Onion" in p.grams && p.grams["Onion"] == 195.0 && "Paneer" in p.grams && p.grams["Paneer"] == 600.0
  {
    RecipesValid();
    PalakLookups();
    PredictionOfTables(Linear, RECIPES, "palak_paneer", 2, 4, 6.0, PALAK_2, PALAK_4);
    PalakForSixTables();
  }

  lemma PalakLookups()
    ensures "palak_paneer" in RECIPES.recipes && RECIPES.recipes["palak_paneer"] == PALAK
    ensures 2 in PALAK && PALAK[2] == PALAK_2 && 4 in PALAK && PALAK[4] == PALAK_4
  {
  }

  lemma PalakForSixTables()
    ensures PALAK_2.Valid()
    ensures var p := LinearPrediction(PALAK_2, PALAK_4, 2, 4, 6.0);
      "Onion" in p.grams && p.grams["Onion"] == 195.0 && "Paneer" in p.grams && p.grams["Paneer"] == 600.0
  {
    PalakValid();
    assert 2 in PALAK && PALAK[2] == PALAK_2;
    PalakForSixArithmetic();
    LinearPredictionAt(PALAK_2, PALAK_4, 2, 4, 6.0, "Onion", 195.0);
    LinearPredictionAt(PALAK_2, PALAK_4, 2, 4, 6.0, "Paneer", 600.0);
  }

  lemma PalakForSixArithmetic()
    ensures Interpolate(85.0, 140.0, 2, 4, 6.0) == 195.0
    ensures Interpolate(200.0, 400.0, 2, 4, 6.0) == 600.0
  {
  }

  /** The main block's second example:
      `linear_scaling("shahi_paneer", [1, 3], 1.5)` gives Tomato 137.5 g and
      Paneer 187.5 g. */
  lemma ShahiForOneAndAHalf()
    ensures RECIPES.Valid()
    ensures PredictionOf(Linear, RECIPES, "shahi_paneer", 1, 3, 1.5).Ok?
    ensures var p := PredictionOf(Linear, RECIPES, "shahi_paneer", 1, 3, 1.5).value;
      "Tomato" in p.grams && p.grams["Tomato"] == 137.5 && "Paneer" in p.grams && p.grams["Paneer"] == 187.5
  {
    RecipesValid();
    ShahiLookups();
    PredictionOfTables(Linear, RECIPES, "shahi_paneer", 1, 3, 1.5, SHAHI_1, SHAHI_3);
    ShahiForOneAndAHalfTables();
  }

  lemma ShahiLookups()
    ensures "shahi_paneer" in RECIPES.recipes && RECIPES.recipes["shahi_paneer"] == SHAHI
    ensures 1 in SHAHI && SHAHI[1] == SHAHI_1 && 3 in SHAHI && SHAHI[3] == SHAHI_3
  {
  }

  lemma ShahiForOneAndAHalfTables()
    ensures SHAHI_1.Valid()
    ensures var p := LinearPrediction(SHAHI_1, SHAHI_3, 1, 3, 1.5);
      "Tomato" in p.grams && p.grams["Tomato"] == 137.5 && "Paneer" in p.grams && p.grams["Paneer"] == 187.5
  {
    ShahiValid();
    assert 1 in SHAHI && SHAHI[1] == SHAHI_1;
    ShahiForOneAndAHalfArithmetic();
    LinearPredictionAt(SHAHI_1, SHAHI_3, 1, 3, 1.5, "Tomato", 137.5);
    LinearPredictionAt(SHAHI_1, SHAHI_3, 1, 3, 1.5, "Paneer", 187.5);
  }

  lemma ShahiForOneAndAHalfArithmetic()
    ensures Interpolate(110.0, 220.0, 1, 3, 1.5) == 137.5
    ensures Interpolate(150.0, 300.0, 1, 3, 1.5) == 187.5
  {
  }

  // ---------------------------------------------------------------------
  // test_scaling_method on RECIPES, case by case
  // ---------------------------------------------------------------------

  /** The absolute errors over four keys that both tables have. */
  lemma AbsErrorsOfFour(keys: seq<string>, p: map<string, real>, a: map<string, real>)
    requires |keys| == 4 && forall k :: k in keys ==> k in p && k in a
    ensures AbsErrors(keys, p, a) ==
      [AbsError(p[keys[0]], a[keys[0]]), AbsError(p[keys[1]], a[keys[1]]),
       AbsError(p[keys[2]], a[keys[2]]), AbsError(p[keys[3]], a[keys[3]])]
  {
    assert keys[..0] == [];
    ErrorsStep(keys, 0, p, a);
    ErrorsStep(keys, 1, p, a);
    ErrorsStep(keys, 2, p, a);
    ErrorsStep(keys, 3, p, a);
    assert keys[..4] == keys;
  }

  /** The average of four numbers. */
  lemma MeanOfFour(a: real, b: real, c: real, d: real)
    ensures MeanOrZero([a, b, c, d]) == (a + b + c + d) / 4.0
  {
    SumAppend([], a);
    SumAppend([a], b);
    SumAppend([a, b], c);
    SumAppend([a, b, c], d);
    assert [] + [a] == [a] && [a] + [b] == [a, b] && [a, b] + [c] == [a, b, c];
    assert [a, b, c] + [d] == [a, b, c, d];
  }

  /** The MAE of a prediction over four ingredients, from the four errors. */
  lemma MaeOfFour(p: Quantities, actual: Quantities, a: string, b: string, c: string, d: string,
                  ea: real, eb: real, ec: real, ed: real)
    requires p.order == [a, b, c, d]
    requires a in p.grams && a in actual.grams && AbsError(p.grams[a], actual.grams[a]) == ea
    requires b in p.grams && b in actual.grams && AbsError(p.grams[b], actual.grams[b]) == eb
    requires c in p.grams && c in actual.grams && AbsError(p.grams[c], actual.grams[c]) == ec
    requires d in p.grams && d in actual.grams && AbsError(p.grams[d], actual.grams[d]) == ed
    ensures MetricsOf(p, actual).mae == (ea + eb + ec + ed) / 4.0
  {
    AbsErrorsOfFour([a, b, c, d], p.grams, actual.grams);
    MeanOfFour(ea, eb, ec, ed);
  }

  /** The MAE of linear_scaling from sizes 1 and 3 over a four-ingredient
      table, from its four predicted values and their errors. */
  lemma LinearMaeOfFour(t1: Quantities, t3: Quantities, actual: Quantities, target: real,
                        a: string, b: string, c: string, d: string,
                        va: real, vb: real, vc: real, vd: real,
                        ea: real, eb: real, ec: real, ed: real)
    requires t1.Valid() && t1.order == [a, b, c, d]
    requires a in t3.grams && a in actual.grams && Interpolate(t1.grams[a], t3.grams[a], 1, 3, target) == va
    requires b in t3.grams && b in actual.grams && Interpolate(t1.grams[b], t3.grams[b], 1, 3, target) == vb
    requires c in t3.grams && c in actual.grams && Interpolate(t1.grams[c], t3.grams[c], 1, 3, target) == vc
    requires d in t3.grams && d in actual.grams && Interpolate(t1.grams[d], t3.grams[d], 1, 3, target) == vd
    requires AbsError(va, actual.grams[a]) == ea && AbsError(vb, actual.grams[b]) == eb
    requires AbsError(vc, actual.grams[c]) == ec && AbsError(vd, actual.grams[d]) == ed
    ensures MetricsOf(LinearPrediction(t1, t3, 1, 3, target), actual).mae == (ea + eb + ec + ed) / 4.0
  {
    SharedKeysAll(t1.order, t3.grams);
    LinearPredictionAt(t1, t3, 1, 3, target, a, va);
    LinearPredictionAt(t1, t3, 1, 3, target, b, vb);
    LinearPredictionAt(t1, t3, 1, 3, target, c, vc);
    LinearPredictionAt(t1, t3, 1, 3, target, d, vd);
    MaeOfFour(LinearPrediction(t1, t3, 1, 3, target), actual, a, b, c, d, ea, eb, ec, ed);
  }

  lemma PalakAtTwoArithmetic()
    ensures Interpolate(85.0, 110.0, 1, 3, 2.0) == 97.5 && AbsError(97.5, 85.0) == 12.5
    ensures Interpolate(10.0, 20.0, 1, 3, 2.0) == 15.0 && AbsError(15.0, 16.63) == 1.63
    ensures Interpolate(0.9, 2.58, 1, 3, 2.0) == 1.74 && AbsError(1.74, 1.75) == 0.01
    ensures Interpolate(100.0, 300.0, 1, 3, 2.0) == 200.0 && AbsError(200.0, 200.0) == 0.0
    ensures (12.5 + 1.63 + 0.01 + 0.0) / 4.0 == 3.535
  {
  }

  /** linear_scaling from sizes 1 and 3 to 2, and its error against size 2. */
  lemma PalakAtTwoError()
    ensures PALAK_1.Valid() && MetricsOf(LinearPrediction(PALAK_1, PALAK_3, 1, 3, 2.0), PALAK_2).mae == 3.535
  {
    PalakValid();
    assert 1 in PALAK && PALAK[1] == PALAK_1;
    PalakAtTwoArithmetic();
    LinearMaeOfFour(PALAK_1, PALAK_3, PALAK_2, 2.0,
      "Onion", "Garlic", "Green chilli", "Paneer",
      97.5, 15.0, 1.74, 200.0,
      12.5, 1.63, 0.01, 0.0);
  }

  lemma PalakAtFourArithmetic()
    ensures Interpolate(85.0, 110.0, 1, 3, 4.0) == 122.5 && AbsError(122.5, 140.0) == 17.5
    ensures Interpolate(10.0, 20.0, 1, 3, 4.0) == 25.0 && AbsError(25.0, 25.0) == 0.0
    ensures Interpolate(0.9, 2.58, 1, 3, 4.0) == 3.42 && AbsError(3.42, 3.51) == 0.09
    ensures Interpolate(100.0, 300.0, 1, 3, 4.0) == 400.0 && AbsError(400.0, 400.0) == 0.0
    ensures (17.5 + 0.0 + 0.09 + 0.0) / 4.0 == 4.3975
  {
  }

  /** linear_scaling from sizes 1 and 3 to 4, and its error against size 4. */
  lemma PalakAtFourError()
    ensures PALAK_1.Valid() && MetricsOf(LinearPrediction(PALAK_1, PALAK_3, 1, 3, 4.0), PALAK_4).mae == 4.3975
  {
    PalakValid();
    assert 1 in PALAK && PALAK[1] == PALAK_1;
    PalakAtFourArithmetic();
    LinearMaeOfFour(PALAK_1, PALAK_3, PALAK_4, 4.0,
      "Onion", "Garlic", "Green chilli", "Paneer",
      122.5, 25.0, 3.42, 400.0,
      17.5, 0.0, 0.09, 0.0);
  }

  lemma ShahiAtTwoArithmetic()
    ensures Interpolate(0.41, 0.9, 1, 3, 2.0) == 0.655 && AbsError(0.655, 0.9) == 0.245
    ensures Interpolate(10.0, 20.0, 1, 3, 2.0) == 15.0 && AbsError(15.0, 15.0) == 0.0
    ensures Interpolate(110.0, 220.0, 1, 3, 2.0) == 165.0 && AbsError(165.0, 165.0) == 0.0
    ensures Interpolate(150.0, 300.0, 1, 3, 2.0) == 225.0 && AbsError(225.0, 200.0) == 25.0
    ensures (0.245 + 0.0 + 0.0 + 25.0) / 4.0 == 6.31125
  {
  }

  /** linear_scaling from sizes 1 and 3 to 2, and its error against size 2. */
  lemma ShahiAtTwoError()
    ensures SHAHI_1.Valid() && MetricsOf(LinearPrediction(SHAHI_1, SHAHI_3, 1, 3, 2.0), SHAHI_2).mae == 6.31125
  {
    ShahiValid();
    assert 1 in SHAHI && SHAHI[1] == SHAHI_1;
    ShahiAtTwoArithmetic();
    LinearMaeOfFour(SHAHI_1, SHAHI_3, SHAHI_2, 2.0,
      "Green chilli", "Ginger garlic paste", "Tomato", "Paneer",
      0.655, 15.0, 165.0, 225.0,
      0.245, 0.0, 0.0, 25.0);
  }

  lemma ShahiAtFourArithmetic()
    ensures Interpolate(0.41, 0.9, 1, 3, 4.0) == 1.145 && AbsError(1.145, 0.9) == 0.245
    ensures Interpolate(10.0, 20.0, 1, 3, 4.0) == 25.0 && AbsError(25.0, 25.0) == 0.0
    ensures Interpolate(110.0, 220.0, 1, 3, 4.0) == 275.0 && AbsError(275.0, 275.0) == 0.0
    ensures Interpolate(150.0, 300.0, 1, 3, 4.0) == 375.0 && AbsError(375.0, 400.0) == 25.0
    ensures (0.245 + 0.0 + 0.0 + 25.0) / 4.0 == 6.31125
  {
  }

  /** linear_scaling from sizes 1 and 3 to 4, and its error against size 4. */
  lemma ShahiAtFourError()
    ensures SHAHI_1.Valid() && MetricsOf(LinearPrediction(SHAHI_1, SHAHI_3, 1, 3, 4.0), SHAHI_4).mae == 6.31125
  {
    ShahiValid();
    assert 1 in SHAHI && SHAHI[1] == SHAHI_1;
    ShahiAtFourArithmetic();
    LinearMaeOfFour(SHAHI_1, SHAHI_3, SHAHI_4, 4.0,
      "Green chilli", "Ginger garlic paste", "Tomato", "Paneer",
      1.145, 25.0, 275.0, 375.0,
      0.245, 0.0, 0.0, 25.0);
  }

  /** One entry of `total_errors`, from the three tables it reads. */
  lemma ErrorForTables(book: Book, recipe: string, target: int, t1: Quantities, t3: Quantities, actual: Quantities)
    requires book.Valid() && recipe in book.recipes
    requires 1 in book.recipes[recipe] && 3 in book.recipes[recipe] && target in book.recipes[recipe]
    requires book.recipes[recipe][1] == t1 && book.recipes[recipe][3] == t3 && book.recipes[recipe][target] == actual
    ensures t1.Valid()
    ensures ErrorFor(book, recipe, target) == Ok(MetricsOf(LinearPrediction(t1, t3, 1, 3, target as real), actual).mae)
  {
  }

  /** The two entries of one recipe, targets 2 then 4. */
  lemma ErrorsForTargets(prior: seq<real>, book: Book, recipe: string, e2: real, e4: real)
    requires book.Valid()
    requires ErrorFor(book, recipe, 2) == Ok(e2) && ErrorFor(book, recipe, 4) == Ok(e4)
    ensures ErrorsFor(prior, book, recipe, TARGETS) == Ok(prior + [e2, e4])
  {
    assert TARGETS[..0] == [] && TARGETS[..2] == TARGETS;
    ErrorsForStep(prior, book, recipe, TARGETS, 0);
    ErrorsForStep(prior, book, recipe, TARGETS, 1);
    assert prior + [e2] + [e4] == prior + [e2, e4];
  }

  /** `total_errors` of a book of two recipes. */
  lemma ErrorsAmongTwo(book: Book, errors0: seq<real>, errors1: seq<real>)
    requires book.Valid() && |book.names| == 2
    requires ErrorsFor([], book, book.names[0], TARGETS) == Ok(errors0)
    requires ErrorsFor(errors0, book, book.names[1], TARGETS) == Ok(errors1)
    ensures ErrorsAmong(book, book.names) == Ok(errors1)
  {
    var names := book.names;
    assert names[..0] == [] && names[..2] == names;
    ErrorsAmongStep(book, names, 0);
    ErrorsAmongStep(book, names, 1);
  }

  lemma PalakAtTwoBook()
    ensures RECIPES.Valid() && ErrorFor(RECIPES, RECIPES.names[0], 2) == Ok(3.535)
  {
    RecipesValid();
    RecipeLookups();
    PalakSizes();
    ErrorForTables(RECIPES, RECIPES.names[0], 2, PALAK_1, PALAK_3, PALAK_2);
    PalakAtTwoError();
  }

  lemma PalakAtFourBook()
    ensures RECIPES.Valid() && ErrorFor(RECIPES, RECIPES.names[0], 4) == Ok(4.3975)
  {
    RecipesValid();
    RecipeLookups();
    PalakSizes();
    ErrorForTables(RECIPES, RECIPES.names[0], 4, PALAK_1, PALAK_3, PALAK_4);
    PalakAtFourError();
  }

  lemma ShahiAtTwoBook()
    ensures RECIPES.Valid() && ErrorFor(RECIPES, RECIPES.names[1], 2) == Ok(6.31125)
  {
    RecipesValid();
    RecipeLookups();
    ShahiSizes();
    ErrorForTables(RECIPES, RECIPES.names[1], 2, SHAHI_1, SHAHI_3, SHAHI_2);
    ShahiAtTwoError();
  }

  lemma ShahiAtFourBook()
    ensures RECIPES.Valid() && ErrorFor(RECIPES, RECIPES.names[1], 4) == Ok(6.31125)
  {
    RecipesValid();
    RecipeLookups();
    ShahiSizes();
    ErrorForTables(RECIPES, RECIPES.names[1], 4, SHAHI_1, SHAHI_3, SHAHI_4);
    ShahiAtFourError();
  }

  lemma PalakErrors()
    ensures RECIPES.Valid() && ErrorsFor([], RECIPES, RECIPES.names[0], TARGETS) == Ok([3.535, 4.3975])
  {
    PalakAtTwoBook();
    PalakAtFourBook();
    ErrorsForTargets([], RECIPES, RECIPES.names[0], 3.535, 4.3975);
    assert [] + [3.535, 4.3975] == [3.535, 4.3975];
  }

  lemma ShahiErrors()
    ensures RECIPES.Valid()
    ensures ErrorsFor([3.535, 4.3975], RECIPES, RECIPES.names[1], TARGETS) == Ok([3.535, 4.3975, 6.31125, 6.31125])
  {
    ShahiAtTwoBook();
    ShahiAtFourBook();
    ErrorsForTargets([3.535, 4.3975], RECIPES, RECIPES.names[1], 6.31125, 6.31125);
    assert [3.535, 4.3975] + [6.31125, 6.31125] == [3.535, 4.3975, 6.31125, 6.31125];
  }

  /** `test_scaling_method` on RECIPES: the errors 3.535, 4.3975, 6.31125 and
      6.31125 g, their average 5.13875 g, graded Good. */
  lemma ReportOfRecipes()
    ensures RECIPES.Valid()
    ensures ReportOf(RECIPES) == Ok(Report([3.535, 4.3975, 6.31125, 6.31125], 5.13875, Good))
  {
    PalakErrors();
    ShahiErrors();
    ErrorsAmongTwo(RECIPES, [3.535, 4.3975], [3.535, 4.3975, 6.31125, 6.31125]);
    MeanOfFour(3.535, 4.3975, 6.31125, 6.31125);
  }
}
