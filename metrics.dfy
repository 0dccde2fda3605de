/** The error metrics of simple_test.py's `calculate_metrics`: mean absolute
    error and mean absolute percentage error of a predicted table against an
    actual one, over the ingredients both share. */
module Metrics {
  import opened Tables

  datatype Metrics = Metrics(mae: real, mape: real)

  /** `abs(pred_val - actual_val)`. */
  function AbsError(p: real, a: real): (e: real)
    ensures e >= 0.0
  {
    Abs(p - a)
  }

  /** `abs(pred_val - actual_val) / actual_val * 100`. */
  function PctError(p: real, a: real): (e: real)
    requires a > 0.0
    ensures e >= 0.0
  {
    Percent(AbsError(p, a), a)
  }

  function Percent(e: real, a: real): (r: real)
    requires e >= 0.0 && a > 0.0
    ensures r >= 0.0
  {
    e / a * 100.0
  }

  /** The `mae_values` list: one absolute error per key of `keys` (in order)
      that both tables have. */
  function AbsErrors(keys: seq<string>, p: map<string, real>, a: map<string, real>): seq<real>
  {
    if |keys| == 0 then []
    else
      var k := keys[|keys| - 1];
      var rest := AbsErrors(keys[..|keys| - 1], p, a);
      if k in p && k in a then rest + [AbsError(p[k], a[k])] else rest
  }

  /** The `mape_values` list: one percentage error per key of `keys` (in
      order) that both tables have and whose actual quantity is positive. */
  function PctErrors(keys: seq<string>, p: map<string, real>, a: map<string, real>): seq<real>
  {
    if |keys| == 0 then []
    else
      var k := keys[|keys| - 1];
      var rest := PctErrors(keys[..|keys| - 1], p, a);
      if k in p && k in a && a[k] > 0.0 then rest + [PctError(p[k], a[k])] else rest
  }

  /** What `calculate_metrics(predicted, actual)` returns. */
  function MetricsOf(predicted: Quantities, actual: Quantities): Metrics
  {
    Metrics(MeanOrZero(AbsErrors(predicted.order, predicted.grams, actual.grams)),
            MeanOrZero(PctErrors(predicted.order, predicted.grams, actual.grams)))
  }

  /** One more iteration of the loop of `calculate_metrics`. */
  lemma ErrorsStep(keys: seq<string>, i: nat, p: map<string, real>, a: map<string, real>)
    requires i < |keys|
    ensures AbsErrors(keys[..i + 1], p, a) ==
      var k := keys[i];
      if k in p && k in a then AbsErrors(keys[..i], p, a) + [AbsError(p[k], a[k])] else AbsErrors(keys[..i], p, a)
    ensures PctErrors(keys[..i + 1], p, a) ==
      var k := keys[i];
      if k in p && k in a && a[k] > 0.0 then PctErrors(keys[..i], p, a) + [PctError(p[k], a[k])]
      else PctErrors(keys[..i], p, a)
  {
    assert keys[..i + 1][..i] == keys[..i];
  }

  method CalculateMetrics(predicted: Quantities, actual: Quantities) returns (m: Metrics)
    requires predicted.Valid()
    ensures m == MetricsOf(predicted, actual)
    ensures m.mae >= 0.0 && m.mape >= 0.0
  {
    var maeValues: seq<real> := [];
    var mapeValues: seq<real> := [];
    var i := 0;
    while i < |predicted.order|
      invariant 0 <= i <= |predicted.order|
      invariant maeValues == AbsErrors(predicted.order[..i], predicted.grams, actual.grams)
      invariant mapeValues == PctErrors(predicted.order[..i], predicted.grams, actual.grams)
    {
      var ingredient := predicted.order[i];
      assert ingredient in predicted.order;
      ErrorsStep(predicted.order, i, predicted.grams, actual.grams);
      if ingredient in actual.grams {
        var predVal, actualVal := predicted.grams[ingredient], actual.grams[ingredient];
        maeValues := maeValues + [AbsError(predVal, actualVal)];
        if actualVal > 0.0 {
          mapeValues := mapeValues + [PctError(predVal, actualVal)];
        }
      }
      i := i + 1;
    }
    assert predicted.order[..i] == predicted.order;
    var mae := if |maeValues| > 0 then Mean(maeValues) else 0.0;
    var mape := if |mapeValues| > 0 then Mean(mapeValues) else 0.0;
    m := Metrics(mae, mape);
    MetricsNonNegative(predicted, actual);
  }

  // ---------------------------------------------------------------------
  // Which keys the error lists are over
  // ---------------------------------------------------------------------

  /** The keys of `keys` whose actual quantity is positive and that the
      predicted table also has: the keys `mape_values` is over. */
  function PositiveKeys(keys: seq<string>, p: map<string, real>, a: map<string, real>): (r: seq<string>)
    ensures forall k :: k in r <==> k in keys && k in p && k in a && a[k] > 0.0
  {
    if |keys| == 0 then []
    else
      var k := keys[|keys| - 1];
      var rest := PositiveKeys(keys[..|keys| - 1], p, a);
      assert keys == keys[..|keys| - 1] + [k];
      if k in p && k in a && a[k] > 0.0 then rest + [k] else rest
  }

  /** Over the keys of the predicted table, `mae_values` has one entry per
      shared ingredient, in visiting order, each that ingredient's absolute
      error. */
  lemma {:induction false} AbsErrorsOverShared(keys: seq<string>, p: map<string, real>, a: map<string, real>)
    requires forall k :: k in keys ==> k in p
    ensures |AbsErrors(keys, p, a)| == |SharedKeys(keys, a)|
    ensures forall i :: 0 <= i < |SharedKeys(keys, a)| ==>
      var k := SharedKeys(keys, a)[i];
      k in p && AbsErrors(keys, p, a)[i] == AbsError(p[k], a[k])
  {
    if |keys| > 0 {
      var init := keys[..|keys| - 1];
      assert forall k :: k in init ==> k in keys;
      AbsErrorsOverShared(init, p, a);
    }
  }

  /** `mape_values` has one entry per shared ingredient with a positive actual
      quantity, in visiting order, each that ingredient's percentage error. */
  lemma {:induction false} PctErrorsOverPositive(keys: seq<string>, p: map<string, real>, a: map<string, real>)
    ensures |PctErrors(keys, p, a)| == |PositiveKeys(keys, p, a)|
    ensures forall i :: 0 <= i < |PositiveKeys(keys, p, a)| ==>
      var k := PositiveKeys(keys, p, a)[i];
      PctErrors(keys, p, a)[i] == PctError(p[k], a[k])
  {
    if |keys| > 0 {
      PctErrorsOverPositive(keys[..|keys| - 1], p, a);
    }
  }

  // ---------------------------------------------------------------------
  // Properties of the metrics
  // ---------------------------------------------------------------------

  lemma {:induction false} ErrorsNonNegative(keys: seq<string>, p: map<string, real>, a: map<string, real>)
    ensures forall i :: 0 <= i < |AbsErrors(keys, p, a)| ==> AbsErrors(keys, p, a)[i] >= 0.0
    ensures forall i :: 0 <= i < |PctErrors(keys, p, a)| ==> PctErrors(keys, p, a)[i] >= 0.0
  {
    if |keys| > 0 {
      ErrorsNonNegative(keys[..|keys| - 1], p, a);
    }
  }

  /** Both metrics are at least zero. */
  lemma MetricsNonNegative(predicted: Quantities, actual: Quantities)
    ensures MetricsOf(predicted, actual).mae >= 0.0
    ensures MetricsOf(predicted, actual).mape >= 0.0
  {
    ErrorsNonNegative(predicted.order, predicted.grams, actual.grams);
    MeanOrZeroNonNegative(AbsErrors(predicted.order, predicted.grams, actual.grams));
    MeanOrZeroNonNegative(PctErrors(predicted.order, predicted.grams, actual.grams));
  }

  lemma {:induction false} ErrorsOfAgreeing(keys: seq<string>, p: map<string, real>, a: map<string, real>)
    requires forall k :: k in p && k in a ==> p[k] == a[k]
    ensures forall i :: 0 <= i < |AbsErrors(keys, p, a)| ==> AbsErrors(keys, p, a)[i] == 0.0
    ensures forall i :: 0 <= i < |PctErrors(keys, p, a)| ==> PctErrors(keys, p, a)[i] == 0.0
  {
    if |keys| > 0 {
      ErrorsOfAgreeing(keys[..|keys| - 1], p, a);
    }
  }

  /** A prediction that matches the actual table on every shared ingredient
      has both metrics zero. */
  lemma MetricsOfAgreeing(predicted: Quantities, actual: Quantities)
    requires forall k :: k in predicted.grams && k in actual.grams ==> predicted.grams[k] == actual.grams[k]
    ensures MetricsOf(predicted, actual) == Metrics(0.0, 0.0)
  {
    ErrorsOfAgreeing(predicted.order, predicted.grams, actual.grams);
    SumOfZeros(AbsErrors(predicted.order, predicted.grams, actual.grams));
    SumOfZeros(PctErrors(predicted.order, predicted.grams, actual.grams));
  }

  lemma {:induction false} ErrorsOfDisjoint(keys: seq<string>, p: map<string, real>, a: map<string, real>)
    requires forall k :: k in p ==> k !in a
    ensures AbsErrors(keys, p, a) == [] && PctErrors(keys, p, a) == []
  {
    if |keys| > 0 {
      ErrorsOfDisjoint(keys[..|keys| - 1], p, a);
    }
  }

  /** With no shared ingredient both lists are empty and both metrics are 0. */
  lemma MetricsOfDisjoint(predicted: Quantities, actual: Quantities)
    requires forall k :: k in predicted.grams ==> k !in actual.grams
    ensures MetricsOf(predicted, actual) == Metrics(0.0, 0.0)
  {
    ErrorsOfDisjoint(predicted.order, predicted.grams, actual.grams);
  }

  /** Every quantity times c. */
  function ScaleGrams(g: map<string, real>, c: real): (s: map<string, real>)
    ensures s.Keys == g.Keys
    ensures forall k :: k in g ==> s[k] == g[k] * c
  {
    map k | k in g :: g[k] * c
  }

  function Scale(t: Quantities, c: real): (s: Quantities)
    ensures s.order == t.order && s.grams == ScaleGrams(t.grams, c)
    ensures t.Valid() ==> s.Valid()
  {
    Quantities(t.order, ScaleGrams(t.grams, c))
  }

  lemma PctErrorScaled(p: real, a: real, c: real)
    requires a > 0.0 && c > 0.0
    ensures a * c > 0.0
    ensures PctError(p * c, a * c) == PctError(p, a)
  {
    MulNonNegative(a, c);
    assert a * c != 0.0;
    var e := Abs(p - a);
    assert p * c - a * c == (p - a) * c;
    assert AbsError(p * c, a * c) == e * c by {
      if p - a < 0.0 {
        MulNonNegative(a - p, c);
      } else {
        MulNonNegative(p - a, c);
      }
    }
    Cancel(e, a, c);
    assert Percent(e * c, a * c) == Percent(e, a);
  }

  lemma Cancel(x: real, a: real, c: real)
    requires a != 0.0 && c != 0.0
    ensures x * c / (a * c) == x / a
  {
    var y := x / a;
    assert y * a == x;
    assert y * (a * c) == (y * a) * c;
  }

  /** Scaling both tables by c > 0 keeps which actual quantities are positive
      and each percentage error. */
  lemma PctScaledAt(p: map<string, real>, a: map<string, real>, c: real, k: string)
    requires c > 0.0 && k in p && k in a
    ensures ScaleGrams(a, c)[k] > 0.0 <==> a[k] > 0.0
    ensures a[k] > 0.0 ==> PctError(ScaleGrams(p, c)[k], ScaleGrams(a, c)[k]) == PctError(p[k], a[k])
  {
    if a[k] > 0.0 {
      PctErrorScaled(p[k], a[k], c);
    } else {
      MulNonNegative(-a[k], c);
    }
  }

  lemma {:induction false} PctErrorsScaled(keys: seq<string>, p: map<string, real>, a: map<string, real>, c: real)
    requires c > 0.0
    ensures PctErrors(keys, ScaleGrams(p, c), ScaleGrams(a, c)) == PctErrors(keys, p, a)
  {
    if |keys| > 0 {
      PctErrorsScaled(keys[..|keys| - 1], p, a, c);
      var k := keys[|keys| - 1];
      if k in p && k in a {
        PctScaledAt(p, a, c, k);
      }
    }
  }

  /** MAPE does not change when both tables are scaled by the same c > 0. */
  lemma MapeScaleInvariant(predicted: Quantities, actual: Quantities, c: real)
    requires c > 0.0
    ensures MetricsOf(Scale(predicted, c), Scale(actual, c)).mape == MetricsOf(predicted, actual).mape
  {
    PctErrorsScaled(predicted.order, predicted.grams, actual.grams, c);
  }
}
