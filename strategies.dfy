/** The three scaling strategies of simple_test.py (the linear one is also
    recipe_scaler.py's): each turns the ingredient tables of two known serving
    sizes into a predicted table for a target serving size. */
module Strategies {
  import opened Tables

  datatype Strategy = Linear | Proportional | SimpleRatio

  // The arithmetic of the strategies, one named step each. Keeping products
  // and quotients behind these names keeps them out of the loop proofs.

  /** The interpolation line through (s1, q1) and (s2, q2), evaluated at target. */
  function LineAt(q1: real, q2: real, s1: int, s2: int, target: real): real
    requires s1 != s2
  {
    q1 + (q2 - q1) * (target - s1 as real) / (s2 - s1) as real
  }

  /** `x / s1 if s1 > 0 else 1`: the guard shared by `serving_ratio`,
      `target_ratio` and the simple ratio. */
  function PerServing(x: real, s1: int): real
  {
    if s1 > 0 then x / s1 as real else 1.0
  }

  /** `q2 / q1`, one entry of `scaling_factors`. */
  function Factor(q1: real, q2: real): real
    requires q1 > 0.0
  {
    q2 / q1
  }

  /** `avg_factor / serving_ratio`. */
  function Quotient(x: real, y: real): real
    requires y != 0.0
  {
    x / y
  }

  /** `q * rate * ratio`. */
  function Scaled(q: real, rate: real, ratio: real): real
  {
    q * rate * ratio
  }

  // ---------------------------------------------------------------------
  // Linear interpolation / extrapolation
  // ---------------------------------------------------------------------

  /** The prediction for one ingredient with quantity q1 at s1 and q2 at s2:
      the line through both points, or q1 when s1 == s2, clamped at zero. */
  function Interpolate(q1: real, q2: real, s1: int, s2: int, target: real): (q: real)
    ensures q >= 0.0
  {
    Clamp(if s2 != s1 then LineAt(q1, q2, s1, s2, target) else q1)
  }

  /** What `linear_scaling` returns for the tables t1 (at s1) and t2 (at s2):
      exactly the ingredients of both tables, in t1's order, each interpolated. */
  function LinearPrediction(t1: Quantities, t2: Quantities, s1: int, s2: int, target: real): (p: Quantities)
    requires t1.Valid()
    ensures p.Valid()
    ensures p.order == SharedKeys(t1.order, t2.grams)
    ensures p.grams == map k | k in t1.grams && k in t2.grams :: Interpolate(t1.grams[k], t2.grams[k], s1, s2, target)
  {
    var values := map k | k in t1.grams && k in t2.grams :: Interpolate(t1.grams[k], t2.grams[k], s1, s2, target);
    PickAll(t1.order, values);
    SharedKeysAgree(t1.order, values, t2.grams);
    Pick(t1.order, values)
  }

  method LinearScaling(t1: Quantities, t2: Quantities, s1: int, s2: int, target: real) returns (r: Quantities)
    requires t1.Valid()
    ensures r == LinearPrediction(t1, t2, s1, s2, target)
    ensures NonNegative(r)
  {
    ghost var values := map k | k in t1.grams && k in t2.grams :: Interpolate(t1.grams[k], t2.grams[k], s1, s2, target);
    r := EMPTY;
    var i := 0;
    while i < |t1.order|
      invariant 0 <= i <= |t1.order|
      invariant r == Pick(t1.order[..i], values)
    {
      var ingredient := t1.order[i];
      assert ingredient in t1.order;
      PickStep(t1.order, i, values);
      if ingredient in t2.grams {
        var q1, q2 := t1.grams[ingredient], t2.grams[ingredient];
        var scaled: real;
        if s2 != s1 {
          scaled := LineAt(q1, q2, s1, s2, target);
        } else {
          scaled := q1;
        }
        assert values[ingredient] == Clamp(scaled);
        r := r.Insert(ingredient, Clamp(scaled));
      }
      i := i + 1;
    }
    assert t1.order[..i] == t1.order;
  }

  /** At the first anchor the line gives back q1. */
  lemma LineAtFirst(q1: real, q2: real, s1: int, s2: int)
    requires s1 != s2
    ensures LineAt(q1, q2, s1, s2, s1 as real) == q1
  {
  }

  /** At the second anchor the line gives back q2. */
  lemma LineAtSecond(q1: real, q2: real, s1: int, s2: int)
    requires s1 != s2
    ensures LineAt(q1, q2, s1, s2, s2 as real) == q2
  {
    assert (s2 as real - s1 as real) / (s2 - s1) as real == 1.0;
  }

  /** Between the anchors the line stays between q1 and q2. */
  lemma LineBetween(q1: real, q2: real, s1: int, s2: int, target: real)
    requires s1 != s2
    requires s1 as real <= target <= s2 as real || s2 as real <= target <= s1 as real
    ensures Min(q1, q2) <= LineAt(q1, q2, s1, s2, target) <= Max(q1, q2)
  {
    var t := (target - s1 as real) / (s2 - s1) as real;
    assert 0.0 <= t <= 1.0;
    assert LineAt(q1, q2, s1, s2, target) == q1 + (q2 - q1) * t;
    var d := q2 - q1;
    if q1 <= q2 {
      MulNonNegative(d, t);
      MulNonNegative(d, 1.0 - t);
    } else {
      MulNonNegative(-d, t);
      MulNonNegative(-d, 1.0 - t);
    }
  }

  /** With non-negative quantities, interpolating at s1 gives q1 (also when
      s1 == s2), at s2 gives q2, and between the anchors a value between them. */
  lemma InterpolateAnchors(q1: real, q2: real, s1: int, s2: int)
    requires q1 >= 0.0 && q2 >= 0.0
    ensures Interpolate(q1, q2, s1, s2, s1 as real) == q1
    ensures Interpolate(q1, q2, s1, s2, s2 as real) == q2 || s1 == s2
    ensures forall target :: s1 != s2 && (s1 as real <= target <= s2 as real || s2 as real <= target <= s1 as real) ==>
      Min(q1, q2) <= Interpolate(q1, q2, s1, s2, target) <= Max(q1, q2)
  {
    if s1 != s2 {
      LineAtFirst(q1, q2, s1, s2);
      LineAtSecond(q1, q2, s1, s2);
      forall target | s1 as real <= target <= s2 as real || s2 as real <= target <= s1 as real
        ensures Min(q1, q2) <= Interpolate(q1, q2, s1, s2, target) <= Max(q1, q2)
      {
        LineBetween(q1, q2, s1, s2, target);
      }
    }
  }

  /** The table-level anchor property of `linear_scaling`, first anchor: with
      non-negative s1 quantities, predicting s1 gives back the s1 quantities of
      the shared ingredients. */
  lemma LinearAtFirst(t1: Quantities, t2: Quantities, s1: int, s2: int)
    requires t1.Valid() && NonNegative(t1)
    ensures LinearPrediction(t1, t2, s1, s2, s1 as real).grams == map k | k in t1.grams && k in t2.grams :: t1.grams[k]
  {
    var p := LinearPrediction(t1, t2, s1, s2, s1 as real);
    forall k | k in p.grams ensures p.grams[k] == t1.grams[k] {
      if s1 != s2 {
        LineAtFirst(t1.grams[k], t2.grams[k], s1, s2);
      }
    }
  }

  /** Second anchor: for s1 != s2 and non-negative s2 quantities, predicting s2
      gives back the s2 quantities of the shared ingredients. */
  lemma LinearAtSecond(t1: Quantities, t2: Quantities, s1: int, s2: int)
    requires t1.Valid() && NonNegative(t2)
    requires s1 != s2
    ensures LinearPrediction(t1, t2, s1, s2, s2 as real).grams == map k | k in t1.grams && k in t2.grams :: t2.grams[k]
  {
    var p := LinearPrediction(t1, t2, s1, s2, s2 as real);
    forall k | k in p.grams ensures p.grams[k] == t2.grams[k] {
      LineAtSecond(t1.grams[k], t2.grams[k], s1, s2);
    }
  }

  /** With non-negative tables, a target between the anchors gives every shared
      ingredient a quantity between its two known quantities. */
  lemma LinearBetween(t1: Quantities, t2: Quantities, s1: int, s2: int, target: real)
    requires t1.Valid() && NonNegative(t1) && NonNegative(t2)
    requires s1 != s2
    requires s1 as real <= target <= s2 as real || s2 as real <= target <= s1 as real
    ensures forall k :: k in LinearPrediction(t1, t2, s1, s2, target).grams ==>
      Min(t1.grams[k], t2.grams[k]) <= LinearPrediction(t1, t2, s1, s2, target).grams[k] <= Max(t1.grams[k], t2.grams[k])
  {
    forall k | k in t1.grams && k in t2.grams {
      InterpolateAnchors(t1.grams[k], t2.grams[k], s1, s2);
    }
  }

  /** When both known serving sizes are equal, every shared ingredient keeps
      its s1 quantity (clamped), whatever the target. */
  lemma LinearDegenerate(t1: Quantities, t2: Quantities, s: int, target: real)
    requires t1.Valid()
    ensures LinearPrediction(t1, t2, s, s, target).grams == map k | k in t1.grams && k in t2.grams :: Clamp(t1.grams[k])
  {
  }

  // ---------------------------------------------------------------------
  // Proportional scaling
  // ---------------------------------------------------------------------

  /** The `scaling_factors` list: q2/q1 for every ingredient of `keys` (in
      order) that is also in g2 and has a positive quantity in g1. (The keys
      come from g1, so the test `k in g1` only makes the function total.) */
  function Factors(keys: seq<string>, g1: map<string, real>, g2: map<string, real>): seq<real>
  {
    if |keys| == 0 then []
    else
      var k := keys[|keys| - 1];
      var rest := Factors(keys[..|keys| - 1], g1, g2);
      if k in g1 && k in g2 && g1[k] > 0.0 then rest + [Factor(g1[k], g2[k])] else rest
  }

  /** One more iteration of the loop that Factors describes. */
  lemma FactorsStep(keys: seq<string>, i: nat, g1: map<string, real>, g2: map<string, real>)
    requires i < |keys|
    ensures Factors(keys[..i + 1], g1, g2) ==
      var k := keys[i];
      if k in g1 && k in g2 && g1[k] > 0.0 then Factors(keys[..i], g1, g2) + [Factor(g1[k], g2[k])]
      else Factors(keys[..i], g1, g2)
  {
    assert keys[..i + 1][..i] == keys[..i];
  }

  /** `base_scaling_rate`: the mean factor divided by the serving ratio, 1 when
      there is no factor or the serving ratio is not positive. */
  function BaseRate(factors: seq<real>, s1: int, s2: int): real
  {
    if |factors| > 0 then
      var avgFactor := Mean(factors);
      var servingRatio := PerServing(s2 as real, s1);
      if servingRatio > 0.0 then Quotient(avgFactor, servingRatio) else 1.0
    else 1.0
  }

  /** What `proportional_scaling` returns for the tables t1 (at s1) and t2 (at
      s2): the ingredients of both tables, in t1's order, each its s1 quantity
      times the base rate and the target ratio, clamped at zero. */
  function ProportionalPrediction(t1: Quantities, t2: Quantities, s1: int, s2: int, target: real): (p: Quantities)
    requires t1.Valid()
    ensures p.Valid()
    ensures p.order == SharedKeys(t1.order, t2.grams)
    ensures p.grams == map k | k in t1.grams && k in t2.grams ::
      Clamp(Scaled(t1.grams[k], BaseRate(Factors(t1.order, t1.grams, t2.grams), s1, s2), PerServing(target, s1)))
  {
    var rate := BaseRate(Factors(t1.order, t1.grams, t2.grams), s1, s2);
    var values := map k | k in t1.grams && k in t2.grams :: Clamp(Scaled(t1.grams[k], rate, PerServing(target, s1)));
    PickAll(t1.order, values);
    SharedKeysAgree(t1.order, values, t2.grams);
    Pick(t1.order, values)
  }

  /** The first loop of `proportional_scaling`: the `scaling_factors` list. */
  method ScalingFactors(t1: Quantities, t2: Quantities) returns (factors: seq<real>)
    requires t1.Valid()
    ensures factors == Factors(t1.order, t1.grams, t2.grams)
  {
    factors := [];
    var i := 0;
    while i < |t1.order|
      invariant 0 <= i <= |t1.order|
      invariant factors == Factors(t1.order[..i], t1.grams, t2.grams)
    {
      var ingredient := t1.order[i];
      assert ingredient in t1.order;
      FactorsStep(t1.order, i, t1.grams, t2.grams);
      if ingredient in t2.grams && t1.grams[ingredient] > 0.0 {
        factors := factors + [Factor(t1.grams[ingredient], t2.grams[ingredient])];
      }
      i := i + 1;
    }
    assert t1.order[..i] == t1.order;
  }

  method ProportionalScaling(t1: Quantities, t2: Quantities, s1: int, s2: int, target: real) returns (r: Quantities)
    requires t1.Valid()
    ensures r == ProportionalPrediction(t1, t2, s1, s2, target)
    ensures NonNegative(r)
  {
    var factors := ScalingFactors(t1, t2);
    var baseRate: real;
    if |factors| > 0 {
      var avgFactor := Mean(factors);
      var servingRatio := PerServing(s2 as real, s1);
      baseRate := if servingRatio > 0.0 then Quotient(avgFactor, servingRatio) else 1.0;
    } else {
      baseRate := 1.0;
    }
    assert baseRate == BaseRate(factors, s1, s2);
    var targetRatio := PerServing(target, s1);

    ghost var values := map k | k in t1.grams && k in t2.grams :: Clamp(Scaled(t1.grams[k], baseRate, targetRatio));
    r := EMPTY;
    var i := 0;
    while i < |t1.order|
      invariant 0 <= i <= |t1.order|
      invariant r == Pick(t1.order[..i], values)
    {
      var ingredient := t1.order[i];
      assert ingredient in t1.order;
      PickStep(t1.order, i, values);
      if ingredient in t2.grams {
        var scaled := Scaled(t1.grams[ingredient], baseRate, targetRatio);
        assert values[ingredient] == Clamp(scaled);
        r := r.Insert(ingredient, Clamp(scaled));
      }
      i := i + 1;
    }
    assert t1.order[..i] == t1.order;
  }

  /** The ingredients that contribute a factor: those of `keys` that g2 also
      has and whose g1 quantity is positive, in order. */
  function Qualifying(keys: seq<string>, g1: map<string, real>, g2: map<string, real>): (r: seq<string>)
    ensures forall k :: k in r <==> k in keys && k in g1 && k in g2 && g1[k] > 0.0
  {
    if |keys| == 0 then []
    else
      var k := keys[|keys| - 1];
      var rest := Qualifying(keys[..|keys| - 1], g1, g2);
      assert keys == keys[..|keys| - 1] + [k];
      if k in g1 && k in g2 && g1[k] > 0.0 then rest + [k] else rest
  }

  /** The factors are one per qualifying ingredient, in visiting order, each
      that ingredient's q2/q1. */
  lemma {:induction false} FactorsQualifying(keys: seq<string>, g1: map<string, real>, g2: map<string, real>)
    ensures |Factors(keys, g1, g2)| == |Qualifying(keys, g1, g2)|
    ensures forall i :: 0 <= i < |Qualifying(keys, g1, g2)| ==>
      var k := Qualifying(keys, g1, g2)[i];
      Factors(keys, g1, g2)[i] == Factor(g1[k], g2[k])
  {
    if |keys| > 0 {
      FactorsQualifying(keys[..|keys| - 1], g1, g2);
    }
  }

  lemma {:induction false} QualifyingNone(keys: seq<string>, g1: map<string, real>, g2: map<string, real>)
    requires forall k :: k in g1 && k in g2 ==> g1[k] <= 0.0
    ensures Qualifying(keys, g1, g2) == []
  {
    if |keys| > 0 {
      QualifyingNone(keys[..|keys| - 1], g1, g2);
    }
  }

  /** If no shared ingredient has a positive s1 quantity there is no factor,
      the base rate is 1, and each prediction is q1 times the target ratio. */
  lemma ProportionalWithoutFactors(t1: Quantities, t2: Quantities, s1: int, s2: int, target: real)
    requires t1.Valid()
    requires forall k :: k in t1.grams && k in t2.grams ==> t1.grams[k] <= 0.0
    ensures Factors(t1.order, t1.grams, t2.grams) == []
    ensures ProportionalPrediction(t1, t2, s1, s2, target).grams ==
      map k | k in t1.grams && k in t2.grams :: Clamp(Scaled(t1.grams[k], 1.0, PerServing(target, s1)))
  {
    FactorsQualifying(t1.order, t1.grams, t2.grams);
    QualifyingNone(t1.order, t1.grams, t2.grams);
  }

  /** `ingredients_s2[k] / ingredients_s1[k]` of proportional data is the serving ratio. */
  lemma FactorOfProportional(q1: real, c: real)
    requires q1 > 0.0
    ensures Factor(q1, q1 * c) == c
  {
  }

  /** When every factor is the serving ratio itself, the base rate is 1. */
  lemma BaseRateOfConstant(factors: seq<real>, s1: int, s2: int)
    requires PerServing(s2 as real, s1) > 0.0
    requires forall i :: 0 <= i < |factors| ==> factors[i] == PerServing(s2 as real, s1)
    ensures BaseRate(factors, s1, s2) == 1.0
  {
    if |factors| > 0 {
      MeanOfConstant(factors, PerServing(s2 as real, s1));
    }
  }

  /** On proportional data (every shared s2 quantity is the s1 quantity times
      s2/s1, with s1 and s2 positive) the base rate is 1, so each prediction is
      q1 times target/s1: proportional scaling is exact there. */
  lemma ProportionalExact(t1: Quantities, t2: Quantities, s1: int, s2: int, target: real)
    requires t1.Valid()
    requires s1 > 0 && s2 > 0
    requires forall k :: k in t1.grams && k in t2.grams ==> t2.grams[k] == t1.grams[k] * PerServing(s2 as real, s1)
    ensures BaseRate(Factors(t1.order, t1.grams, t2.grams), s1, s2) == 1.0
    ensures ProportionalPrediction(t1, t2, s1, s2, target).grams ==
      map k | k in t1.grams && k in t2.grams :: Clamp(Scaled(t1.grams[k], 1.0, PerServing(target, s1)))
  {
    var c := PerServing(s2 as real, s1);
    var factors := Factors(t1.order, t1.grams, t2.grams);
    FactorsQualifying(t1.order, t1.grams, t2.grams);
    var q := Qualifying(t1.order, t1.grams, t2.grams);
    forall i | 0 <= i < |factors| ensures factors[i] == c {
      assert q[i] in q;
      FactorOfProportional(t1.grams[q[i]], c);
    }
    BaseRateOfConstant(factors, s1, s2);
  }

  /** Both table-building strategies keep the same ingredients, in the same order. */
  lemma ProportionalKeysAsLinear(t1: Quantities, t2: Quantities, s1: int, s2: int, target: real)
    requires t1.Valid()
    ensures ProportionalPrediction(t1, t2, s1, s2, target).order == LinearPrediction(t1, t2, s1, s2, target).order
    ensures ProportionalPrediction(t1, t2, s1, s2, target).grams.Keys == LinearPrediction(t1, t2, s1, s2, target).grams.Keys
  {
  }

  // ---------------------------------------------------------------------
  // Simple ratio scaling
  // ---------------------------------------------------------------------

  /** What `simple_ratio_scaling` returns: every ingredient of the s1 table,
      in its order, times the target ratio, not clamped. It has no use for
      the s2 table. */
  function SimpleRatioPrediction(t1: Quantities, s1: int, target: real): (p: Quantities)
    requires t1.Valid()
    ensures p.Valid()
    ensures p.order == t1.order
    ensures p.grams == map k | k in t1.grams :: Scaled(t1.grams[k], 1.0, PerServing(target, s1))
  {
    var values := map k | k in t1.grams :: Scaled(t1.grams[k], 1.0, PerServing(target, s1));
    PickAll(t1.order, values);
    SharedKeysAll(t1.order, values);
    Pick(t1.order, values)
  }

  method SimpleRatioScaling(t1: Quantities, s1: int, target: real) returns (r: Quantities)
    requires t1.Valid()
    ensures r == SimpleRatioPrediction(t1, s1, target)
  {
    var ratio := PerServing(target, s1);
    ghost var values := map k | k in t1.grams :: Scaled(t1.grams[k], 1.0, ratio);
    r := EMPTY;
    var i := 0;
    while i < |t1.order|
      invariant 0 <= i <= |t1.order|
      invariant r == Pick(t1.order[..i], values)
    {
      var ingredient := t1.order[i];
      assert ingredient in t1.order;
      PickStep(t1.order, i, values);
      r := r.Insert(ingredient, Scaled(t1.grams[ingredient], 1.0, ratio));
      i := i + 1;
    }
    assert t1.order[..i] == t1.order;
  }

  /** Without clamping, the sign of every prediction follows the sign of the
      target: non-negative for a non-negative target and non-negative
      quantities. */
  lemma SimpleRatioNonNegative(t1: Quantities, s1: int, target: real)
    requires t1.Valid() && NonNegative(t1)
    requires target >= 0.0
    ensures NonNegative(SimpleRatioPrediction(t1, s1, target))
  {
    var ratio := PerServing(target, s1);
    assert ratio >= 0.0;
    forall k | k in t1.grams ensures Scaled(t1.grams[k], 1.0, ratio) >= 0.0 {
      MulNonNegative(t1.grams[k], ratio);
    }
  }

  /** ... and negative for a negative target, a positive s1 and a positive quantity. */
  lemma SimpleRatioNegative(t1: Quantities, s1: int, target: real)
    requires t1.Valid()
    requires target < 0.0 && s1 > 0
    ensures forall k :: k in t1.grams && t1.grams[k] > 0.0 ==> SimpleRatioPrediction(t1, s1, target).grams[k] < 0.0
  {
    var ratio := PerServing(target, s1);
    assert ratio < 0.0;
    forall k | k in t1.grams && t1.grams[k] > 0.0 ensures Scaled(t1.grams[k], 1.0, ratio) < 0.0 {
      MulNonNegative(t1.grams[k], -ratio);
      assert t1.grams[k] * -ratio != 0.0;
    }
  }

  /** With a non-positive s1 the ratio is 1 and the s1 table comes back unchanged. */
  lemma SimpleRatioIdentity(t1: Quantities, s1: int, target: real)
    requires t1.Valid()
    requires s1 <= 0
    ensures SimpleRatioPrediction(t1, s1, target) == t1
  {
  }

  // ---------------------------------------------------------------------
  // Looking the tables up in the recipe book
  // ---------------------------------------------------------------------

  /** `method_func(recipe, [s1, s2], target)`: the s1 table is looked up
      first, then the s2 table, except by simple-ratio scaling, which never
      reads it. */
  function PredictionOf(m: Strategy, book: Book, recipe: string, s1: int, s2: int, target: real): Result<Quantities>
    requires book.Valid()
  {
    var t1 :- Servings(book, recipe, s1);
    if m == SimpleRatio then Ok(SimpleRatioPrediction(t1, s1, target))
    else
      var t2 :- Servings(book, recipe, s2);
      if m == Linear then Ok(LinearPrediction(t1, t2, s1, s2, target))
      else Ok(ProportionalPrediction(t1, t2, s1, s2, target))
  }

  /** The linear prediction of one shared ingredient, given its value. */
  lemma LinearPredictionAt(t1: Quantities, t2: Quantities, s1: int, s2: int, target: real, k: string, v: real)
    requires t1.Valid() && k in t1.grams && k in t2.grams
    requires Interpolate(t1.grams[k], t2.grams[k], s1, s2, target) == v
    ensures k in LinearPrediction(t1, t2, s1, s2, target).grams
    ensures LinearPrediction(t1, t2, s1, s2, target).grams[k] == v
  {
  }

  /** The simple-ratio prediction of one ingredient, given its value. */
  lemma SimpleRatioPredictionAt(t1: Quantities, s1: int, target: real, k: string, v: real)
    requires t1.Valid() && k in t1.grams
    requires Scaled(t1.grams[k], 1.0, PerServing(target, s1)) == v
    ensures k in SimpleRatioPrediction(t1, s1, target).grams
    ensures SimpleRatioPrediction(t1, s1, target).grams[k] == v
  {
  }

  /** A prediction fails exactly when a table it reads is missing: simple-ratio
      scaling reads only the s1 table. A successful one is a valid table. */
  lemma PredictionOfOk(m: Strategy, book: Book, recipe: string, s1: int, s2: int, target: real)
    requires book.Valid()
    ensures PredictionOf(m, book, recipe, s1, s2, target).Ok? <==>
      recipe in book.recipes && s1 in book.recipes[recipe] && (m != SimpleRatio ==> s2 in book.recipes[recipe])
    ensures PredictionOf(m, book, recipe, s1, s2, target).Ok? ==> PredictionOf(m, book, recipe, s1, s2, target).value.Valid()
    ensures PredictionOf(m, book, recipe, s1, s2, target).Err? ==>
      PredictionOf(m, book, recipe, s1, s2, target).error ==
        if recipe !in book.recipes then MissingRecipe(recipe)
        else if s1 !in book.recipes[recipe] then MissingServing(recipe, s1)
        else MissingServing(recipe, s2)
  {
  }

  /** A strategy called on tables the book has computes its prediction on them. */
  lemma PredictionOfTables(m: Strategy, book: Book, recipe: string, s1: int, s2: int, target: real,
                           t1: Quantities, t2: Quantities)
    requires book.Valid() && recipe in book.recipes
    requires s1 in book.recipes[recipe] && book.recipes[recipe][s1] == t1
    requires m != SimpleRatio ==> s2 in book.recipes[recipe] && book.recipes[recipe][s2] == t2
    ensures t1.Valid()
    ensures PredictionOf(m, book, recipe, s1, s2, target) ==
      Ok(if m == Linear then LinearPrediction(t1, t2, s1, s2, target)
         else if m == Proportional then ProportionalPrediction(t1, t2, s1, s2, target)
         else SimpleRatioPrediction(t1, s1, target))
  {
  }

  /** On a book without negative quantities every strategy predicts no negative
      quantity for a target of at least zero: linear and proportional scaling
      clamp, and simple-ratio scaling multiplies by a non-negative ratio. */
  lemma PredictionNonNegative(m: Strategy, book: Book, recipe: string, s1: int, s2: int, target: real)
    requires book.Valid() && BookNonNegative(book)
    requires target >= 0.0
    ensures PredictionOf(m, book, recipe, s1, s2, target).Ok? ==> NonNegative(PredictionOf(m, book, recipe, s1, s2, target).value)
  {
    if m == SimpleRatio && recipe in book.recipes && s1 in book.recipes[recipe] {
      SimpleRatioNonNegative(book.recipes[recipe][s1], s1, target);
    }
  }

  method Predict(m: Strategy, book: Book, recipe: string, s1: int, s2: int, target: real)
    returns (r: Result<Quantities>)
    requires book.Valid()
    ensures r == PredictionOf(m, book, recipe, s1, s2, target)
  {
    var found1 := Servings(book, recipe, s1);
    if found1.Err? {
      return Err(found1.error);
    }
    var t1 := found1.value;
    if m == SimpleRatio {
      var p := SimpleRatioScaling(t1, s1, target);
      return Ok(p);
    }
    var found2 := Servings(book, recipe, s2);
    if found2.Err? {
      return Err(found2.error);
    }
    var t2 := found2.value;
    var p;
    if m == Linear {
      p := LinearScaling(t1, t2, s1, s2, target);
    } else {
      p := ProportionalScaling(t1, t2, s1, s2, target);
    }
    return Ok(p);
  }
}
