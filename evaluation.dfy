/** The evaluation driver of simple_test.py (`run_evaluation`): over 20
    trials, every recipe is predicted for the target serving sizes 2 and 4
    from the known sizes 1 and 3 by each strategy, each prediction's metrics
    are collected per strategy, and the strategy with the lowest mean MAE is
    chosen. */
module Evaluation {
  import opened Tables
  import opened Strategies
  import opened Metrics

  const TRIALS: nat := 20
  const KNOWN: seq<int> := [1, 3]
  const TARGETS: seq<int> := [2, 4]
  /** The `methods` dict, in its insertion order. */
  const STRATEGIES: seq<Strategy> := [Linear, Proportional, SimpleRatio]

  datatype Option<T> = None | Some(value: T)

  /** `results[method]`: the "MAE" and "MAPE" lists of one strategy. */
  datatype Samples = Samples(mae: seq<real>, mape: seq<real>)

  const NO_SAMPLES: Samples := Samples([], [])

  /** `results[m]["MAE"].append(...)` followed by `results[m]["MAPE"].append(...)`. */
  function Append(s: Samples, x: Metrics): (r: Samples)
    ensures r.mae == s.mae + [x.mae] && r.mape == s.mape + [x.mape]
  {
    Samples(s.mae + [x.mae], s.mape + [x.mape])
  }

  // ---------------------------------------------------------------------
  // What the loops collect
  // ---------------------------------------------------------------------

  /** The samples of strategy m after its turn for one recipe and target: one
      more entry when its prediction succeeds, none when it raises (the
      `except` branch only logs). The actual table is looked up before. */
  function AddCell(s: Samples, book: Book, recipe: string, target: int, m: Strategy): Samples
    requires book.Valid()
  {
    match Servings(book, recipe, target)
    case Err(_) => s
    case Ok(actual) =>
      match PredictionOf(m, book, recipe, KNOWN[0], KNOWN[1], target as real)
      case Err(_) => s
      case Ok(p) => Append(s, MetricsOf(p, actual))
  }

  /** ... after the targets of one recipe. */
  function AddTargets(s: Samples, book: Book, recipe: string, targets: seq<int>, m: Strategy): Samples
    requires book.Valid()
  {
    if |targets| == 0 then s
    else AddCell(AddTargets(s, book, recipe, targets[..|targets| - 1], m), book, recipe, targets[|targets| - 1], m)
  }

  /** ... after the recipes of one trial. */
  function AddRecipes(s: Samples, book: Book, names: seq<string>, m: Strategy): Samples
    requires book.Valid()
  {
    if |names| == 0 then s
    else AddTargets(AddRecipes(s, book, names[..|names| - 1], m), book, names[|names| - 1], TARGETS, m)
  }

  /** ... after n trials (each trial is the same). */
  function AddTrials(s: Samples, book: Book, n: nat, m: Strategy): Samples
    requires book.Valid()
  {
    if n == 0 then s else AddRecipes(AddTrials(s, book, n - 1, m), book, book.names, m)
  }

  lemma AddTargetsStep(s: Samples, book: Book, recipe: string, targets: seq<int>, t: nat, m: Strategy)
    requires book.Valid() && t < |targets|
    ensures AddTargets(s, book, recipe, targets[..t + 1], m)
         == AddCell(AddTargets(s, book, recipe, targets[..t], m), book, recipe, targets[t], m)
  {
    assert targets[..t + 1][..t] == targets[..t];
  }

  lemma AddRecipesStep(s: Samples, book: Book, names: seq<string>, i: nat, m: Strategy)
    requires book.Valid() && i < |names|
    ensures AddRecipes(s, book, names[..i + 1], m)
         == AddTargets(AddRecipes(s, book, names[..i], m), book, names[i], TARGETS, m)
  {
    assert names[..i + 1][..i] == names[..i];
  }

  // ---------------------------------------------------------------------
  // How many samples the loops collect
  // ---------------------------------------------------------------------

  /** Each cell adds the same number of MAE and MAPE entries, at most one, and
      exactly one when the recipe has the known sizes and the target. */
  lemma AddCellCounts(s: Samples, book: Book, recipe: string, target: int, m: Strategy)
    requires book.Valid()
    ensures |AddCell(s, book, recipe, target, m).mae| - |s.mae| == |AddCell(s, book, recipe, target, m).mape| - |s.mape|
    ensures |s.mae| <= |AddCell(s, book, recipe, target, m).mae| <= |s.mae| + 1
    ensures Covered(book, recipe, KNOWN) && target in book.recipes[recipe] ==>
      |AddCell(s, book, recipe, target, m).mae| == |s.mae| + 1
  {
    if Covered(book, recipe, KNOWN) {
      assert KNOWN[0] in book.recipes[recipe] && KNOWN[1] in book.recipes[recipe];
    }
  }

  lemma {:induction false} AddTargetsCounts(s: Samples, book: Book, recipe: string, targets: seq<int>, m: Strategy)
    requires book.Valid()
    ensures |AddTargets(s, book, recipe, targets, m).mae| - |s.mae| == |AddTargets(s, book, recipe, targets, m).mape| - |s.mape|
    ensures |s.mae| <= |AddTargets(s, book, recipe, targets, m).mae|
    ensures Covered(book, recipe, KNOWN) && Covered(book, recipe, targets) ==>
      |AddTargets(s, book, recipe, targets, m).mae| == |s.mae| + |targets|
  {
    if |targets| > 0 {
      var init := targets[..|targets| - 1];
      AddTargetsCounts(s, book, recipe, init, m);
      AddCellCounts(AddTargets(s, book, recipe, init, m), book, recipe, targets[|targets| - 1], m);
      assert Covered(book, recipe, targets) ==> Covered(book, recipe, init) by {
        assert forall i :: 0 <= i < |init| ==> init[i] == targets[i];
      }
    }
  }

  lemma {:induction false} AddRecipesCounts(s: Samples, book: Book, names: seq<string>, m: Strategy)
    requires book.Valid()
    ensures |AddRecipes(s, book, names, m).mae| - |s.mae| == |AddRecipes(s, book, names, m).mape| - |s.mape|
    ensures |s.mae| <= |AddRecipes(s, book, names, m).mae|
    ensures AllCovered(book, names, KNOWN) && AllCovered(book, names, TARGETS) ==>
      |AddRecipes(s, book, names, m).mae| == |s.mae| + |TARGETS| * |names|
  {
    if |names| > 0 {
      var init, last := names[..|names| - 1], names[|names| - 1];
      AddRecipesCounts(s, book, init, m);
      AddTargetsCounts(AddRecipes(s, book, init, m), book, last, TARGETS, m);
      assert forall i :: 0 <= i < |init| ==> init[i] == names[i];
      if AllCovered(book, names, KNOWN) && AllCovered(book, names, TARGETS) {
        assert Covered(book, last, KNOWN) && Covered(book, last, TARGETS);
      }
    }
  }

  lemma MulStep(n: nat, k: int)
    requires n > 0
    ensures n * k == (n - 1) * k + k
  {
  }

  lemma {:induction false} AddTrialsCounts(s: Samples, book: Book, n: nat, m: Strategy)
    requires book.Valid()
    ensures |AddTrials(s, book, n, m).mae| - |s.mae| == |AddTrials(s, book, n, m).mape| - |s.mape|
    ensures AllCovered(book, book.names, KNOWN) && AllCovered(book, book.names, TARGETS) ==>
      |AddTrials(s, book, n, m).mae| == |s.mae| + n * (|TARGETS| * |book.names|)
  {
    if n > 0 {
      var prev := AddTrials(s, book, n - 1, m);
      AddTrialsCounts(s, book, n - 1, m);
      AddRecipesCounts(prev, book, book.names, m);
      MulStep(n, |TARGETS| * |book.names|);
    }
  }

  /** The MAE and MAPE lists of every strategy have the same length and, when
      every recipe has the known and the target sizes, each holds one entry per
      trial, recipe and target. */
  lemma SampleCounts(book: Book)
    requires book.Valid()
    ensures forall m :: |AddTrials(NO_SAMPLES, book, TRIALS, m).mae| == |AddTrials(NO_SAMPLES, book, TRIALS, m).mape|
    ensures AllCovered(book, book.names, KNOWN) && AllCovered(book, book.names, TARGETS) ==>
      forall m :: |AddTrials(NO_SAMPLES, book, TRIALS, m).mae| == TRIALS * (|TARGETS| * |book.names|)
  {
    forall m {
      AddTrialsCounts(NO_SAMPLES, book, TRIALS, m);
    }
  }

  /** The first failing `RECIPES[recipe][target]` lookup over `targets`, if any. */
  function MissingIn(book: Book, recipe: string, targets: seq<int>): Option<Error>
  {
    if |targets| == 0 then None
    else
      var prior := MissingIn(book, recipe, targets[..|targets| - 1]);
      if prior.Some? then prior
      else
        match Servings(book, recipe, targets[|targets| - 1])
        case Err(e) => Some(e)
        case Ok(_) => None
  }

  /** The first failing actual-table lookup of a trial, recipe by recipe. */
  function MissingAmong(book: Book, names: seq<string>, targets: seq<int>): Option<Error>
  {
    if |names| == 0 then None
    else
      var prior := MissingAmong(book, names[..|names| - 1], targets);
      if prior.Some? then prior else MissingIn(book, names[|names| - 1], targets)
  }

  lemma {:induction false} MissingInCovered(book: Book, recipe: string, targets: seq<int>)
    ensures MissingIn(book, recipe, targets).None? <==> Covered(book, recipe, targets) || |targets| == 0
  {
    if |targets| > 0 {
      var init := targets[..|targets| - 1];
      MissingInCovered(book, recipe, init);
      if |init| == 0 {
        assert targets == [targets[0]];
      }
    }
  }

  /** A trial goes through iff every recipe has every target serving size. */
  lemma {:induction false} MissingAmongCovered(book: Book, names: seq<string>, targets: seq<int>)
    requires |targets| > 0
    ensures MissingAmong(book, names, targets).None? <==> AllCovered(book, names, targets)
  {
    if |names| > 0 {
      var init := names[..|names| - 1];
      MissingAmongCovered(book, init, targets);
      MissingInCovered(book, names[|names| - 1], targets);
      assert forall i :: 0 <= i < |init| ==> init[i] == names[i];
    }
  }

  // ---------------------------------------------------------------------
  // The loops of run_evaluation
  // ---------------------------------------------------------------------

  predicate HasAll(results: map<Strategy, Samples>)
  {
    forall m :: m in results
  }

  function Position(m: Strategy): (i: nat)
    ensures i < |STRATEGIES| && STRATEGIES[i] == m
  {
    match m
    case Linear => 0
    case Proportional => 1
    case SimpleRatio => 2
  }

  /** The cell in terms of the lookup and the prediction the loop has made. */
  lemma CellOf(book: Book, recipe: string, target: int, actual: Quantities, m: Strategy, predicted: Result<Quantities>)
    requires book.Valid()
    requires Servings(book, recipe, target) == Ok(actual)
    requires predicted == PredictionOf(m, book, recipe, KNOWN[0], KNOWN[1], target as real)
    ensures forall s :: AddCell(s, book, recipe, target, m) == if predicted.Ok? then Append(s, MetricsOf(predicted.value, actual)) else s
  {
  }

  /** One iteration of the innermost loop: strategy m predicts `recipe` for
      `target` and, when that succeeds, appends the metrics against `actual`. */
  method RecordStrategy(book: Book, recipe: string, target: int, actual: Quantities, m: Strategy, s: Samples)
    returns (s': Samples)
    requires book.Valid()
    requires Servings(book, recipe, target) == Ok(actual)
    ensures s' == AddCell(s, book, recipe, target, m)
  {
    var predicted := Predict(m, book, recipe, KNOWN[0], KNOWN[1], target as real);
    CellOf(book, recipe, target, actual, m, predicted);
    s' := s;
    if predicted.Ok? {
      var metrics := CalculateMetrics(predicted.value, actual);
      s' := Append(s', metrics);
    }
  }

  /** The innermost loop: every strategy predicts `recipe` for `target` and,
      when that succeeds, appends the metrics against `actual`. */
  method RecordCell(book: Book, recipe: string, target: int, actual: Quantities, results: map<Strategy, Samples>)
    returns (r: map<Strategy, Samples>)
    requires book.Valid() && HasAll(results)
    requires Servings(book, recipe, target) == Ok(actual)
    ensures HasAll(r)
    ensures forall m :: r[m] == AddCell(results[m], book, recipe, target, m)
  {
    r := results;
    var j := 0;
    while j < |STRATEGIES|
      invariant 0 <= j <= |STRATEGIES|
      invariant HasAll(r)
      invariant forall m :: r[m] == if Position(m) < j then AddCell(results[m], book, recipe, target, m) else results[m]
    {
      var m := STRATEGIES[j];
      var s := RecordStrategy(book, recipe, target, actual, m, r[m]);
      r := r[m := s];
      j := j + 1;
    }
  }

  /** The loop over the targets of one recipe; it stops at the first missing
      actual table. */
  method RecordTargets(book: Book, recipe: string, results: map<Strategy, Samples>)
    returns (outcome: Result<map<Strategy, Samples>>)
    requires book.Valid() && HasAll(results)
    ensures outcome.Ok? <==> MissingIn(book, recipe, TARGETS).None?
    ensures outcome.Err? ==> Some(outcome.error) == MissingIn(book, recipe, TARGETS)
    ensures outcome.Ok? ==> HasAll(outcome.value)
    ensures outcome.Ok? ==> forall m :: outcome.value[m] == AddTargets(results[m], book, recipe, TARGETS, m)
  {
    var r := results;
    var t := 0;
    while t < |TARGETS|
      invariant 0 <= t <= |TARGETS|
      invariant MissingIn(book, recipe, TARGETS[..t]).None?
      invariant HasAll(r)
      invariant forall m :: r[m] == AddTargets(results[m], book, recipe, TARGETS[..t], m)
    {
      var target := TARGETS[t];
      assert TARGETS[..t + 1][..t] == TARGETS[..t];
      var found := Servings(book, recipe, target);
      if found.Err? {
        assert t == 0 || TARGETS[..t + 1] == TARGETS;
        return Err(found.error);
      }
      var r' := RecordCell(book, recipe, target, found.value, r);
      forall m ensures r'[m] == AddTargets(results[m], book, recipe, TARGETS[..t + 1], m) {
        AddTargetsStep(results[m], book, recipe, TARGETS, t, m);
      }
      r := r';
      t := t + 1;
    }
    assert TARGETS[..t] == TARGETS;
    return Ok(r);
  }

  /** Once a prefix of the recipes has a missing lookup, the whole trial
      reports that one. */
  lemma {:induction false} MissingAmongKeeps(book: Book, names: seq<string>, i: nat, targets: seq<int>)
    requires i <= |names|
    requires MissingAmong(book, names[..i], targets).Some?
    ensures MissingAmong(book, names, targets) == MissingAmong(book, names[..i], targets)
    decreases |names| - i
  {
    if i == |names| {
      assert names[..i] == names;
    } else {
      var init := names[..|names| - 1];
      assert init[..i] == names[..i];
      MissingAmongKeeps(book, init, i, targets);
    }
  }

  /** The loop over the recipes of one trial; it stops at the first missing
      actual table. */
  method RecordRound(book: Book, results: map<Strategy, Samples>)
    returns (outcome: Result<map<Strategy, Samples>>)
    requires book.Valid() && HasAll(results)
    ensures outcome.Ok? <==> MissingAmong(book, book.names, TARGETS).None?
    ensures outcome.Err? ==> Some(outcome.error) == MissingAmong(book, book.names, TARGETS)
    ensures outcome.Ok? ==> HasAll(outcome.value)
    ensures outcome.Ok? ==> forall m :: outcome.value[m] == AddRecipes(results[m], book, book.names, m)
  {
    var r := results;
    var i := 0;
    while i < |book.names|
      invariant 0 <= i <= |book.names|
      invariant MissingAmong(book, book.names[..i], TARGETS).None?
      invariant HasAll(r)
      invariant forall m :: r[m] == AddRecipes(results[m], book, book.names[..i], m)
    {
      var recipe := book.names[i];
      assert book.names[..i + 1][..i] == book.names[..i];
      var step := RecordTargets(book, recipe, r);
      if step.Err? {
        MissingAmongKeeps(book, book.names, i + 1, TARGETS);
        return Err(step.error);
      }
      var r' := step.value;
      forall m ensures r'[m] == AddRecipes(results[m], book, book.names[..i + 1], m) {
        AddRecipesStep(results[m], book, book.names, i, m);
      }
      r := r';
      i := i + 1;
    }
    assert book.names[..i] == book.names;
    return Ok(r);
  }

  // ---------------------------------------------------------------------
  // The best method
  // ---------------------------------------------------------------------

  /** The key of `min(methods.keys(), key=...)`: the mean MAE, or None for
      `float('inf')` when the list is empty. */
  function Key(s: Samples): (k: Option<real>)
    ensures k.None? <==> |s.mae| == 0
  {
    if |s.mae| > 0 then Some(Mean(s.mae)) else None
  }

  /** `a < b` where None is +infinity (so None is below nothing). */
  predicate Below(a: Option<real>, b: Option<real>)
  {
    a.Some? && (b.None? || a.value < b.value)
  }

  /** The index `min` picks: the first position with the least key. */
  function BestIndex(keys: seq<Option<real>>): (i: nat)
    requires |keys| > 0
    ensures i < |keys|
  {
    if |keys| == 1 then 0
    else
      var b := BestIndex(keys[..|keys| - 1]);
      if Below(keys[|keys| - 1], keys[b]) then |keys| - 1 else b
  }

  /** No key is below the chosen one, every earlier key is strictly above it,
      and it is finite whenever some key is. */
  lemma {:induction false} BestIndexIsFirstMinimum(keys: seq<Option<real>>)
    requires |keys| > 0
    ensures forall j :: 0 <= j < |keys| ==> !Below(keys[j], keys[BestIndex(keys)])
    ensures forall j :: 0 <= j < BestIndex(keys) ==> Below(keys[BestIndex(keys)], keys[j])
    ensures forall j :: 0 <= j < |keys| && keys[j].Some? ==> keys[BestIndex(keys)].Some?
  {
    if |keys| > 1 {
      var init := keys[..|keys| - 1];
      BestIndexIsFirstMinimum(init);
      assert forall j :: 0 <= j < |init| ==> init[j] == keys[j];
    }
  }

  /** The keys of the strategies, in the order of the `methods` dict. */
  function Keys(results: map<Strategy, Samples>): (ks: seq<Option<real>>)
    requires HasAll(results)
    ensures |ks| == |STRATEGIES|
    ensures forall j :: 0 <= j < |ks| ==> ks[j] == Key(results[STRATEGIES[j]])
  {
    [Key(results[Linear]), Key(results[Proportional]), Key(results[SimpleRatio])]
  }

  /** `best_method`. */
  function BestOf(results: map<Strategy, Samples>): Strategy
    requires HasAll(results)
  {
    STRATEGIES[BestIndex(Keys(results))]
  }

  /** The best method has the least mean MAE (an empty list counting as
      +infinity), every method declared before it has a strictly larger one,
      and it has samples whenever some method has. */
  lemma BestOfIsFirstMinimum(results: map<Strategy, Samples>)
    requires HasAll(results)
    ensures forall m :: !Below(Key(results[m]), Key(results[BestOf(results)]))
    ensures forall m :: Position(m) < Position(BestOf(results)) ==> Below(Key(results[BestOf(results)]), Key(results[m]))
    ensures forall m :: |results[m].mae| > 0 ==> |results[BestOf(results)].mae| > 0
  {
    var ks := Keys(results);
    BestIndexIsFirstMinimum(ks);
    var b := BestIndex(ks);
    assert Position(BestOf(results)) == b;
    forall m ensures !Below(Key(results[m]), Key(results[BestOf(results)])) {
      assert ks[Position(m)] == Key(results[m]);
    }
    forall m | Position(m) < b ensures Below(Key(results[BestOf(results)]), Key(results[m])) {
      assert ks[Position(m)] == Key(results[m]);
    }
    forall m | |results[m].mae| > 0 ensures |results[BestOf(results)].mae| > 0 {
      assert ks[Position(m)] == Key(results[m]);
    }
  }

  // ---------------------------------------------------------------------
  // run_evaluation
  // ---------------------------------------------------------------------

  /** What `run_evaluation` computes: the per-method lists and the best method. */
  datatype Evaluation = Evaluation(results: map<Strategy, Samples>, best: Strategy)

  method RunEvaluation(book: Book) returns (outcome: Result<Evaluation>)
    requires book.Valid()
    ensures outcome.Ok? <==> MissingAmong(book, book.names, TARGETS).None?
    ensures outcome.Err? ==> Some(outcome.error) == MissingAmong(book, book.names, TARGETS)
    ensures outcome.Ok? ==> HasAll(outcome.value.results)
    ensures outcome.Ok? ==> forall m :: outcome.value.results[m] == AddTrials(NO_SAMPLES, book, TRIALS, m)
    ensures outcome.Ok? ==> HasAll(outcome.value.results) && outcome.value.best == BestOf(outcome.value.results)
  {
    var results := map m | m in STRATEGIES :: NO_SAMPLES;
    forall m ensures m in results && results[m] == AddTrials(NO_SAMPLES, book, 0, m) {
      assert STRATEGIES[Position(m)] == m;
    }
    var trial := 0;
    while trial < TRIALS
      invariant 0 <= trial <= TRIALS
      invariant trial > 0 ==> MissingAmong(book, book.names, TARGETS).None?
      invariant HasAll(results)
      invariant forall m :: results[m] == AddTrials(NO_SAMPLES, book, trial, m)
    {
      var round := RecordRound(book, results);
      if round.Err? {
        return Err(round.error);
      }
      var r' := round.value;
      results := r';
      trial := trial + 1;
    }
    var best := BestOf(results);
    return Ok(Evaluation(results, best));
  }
}
