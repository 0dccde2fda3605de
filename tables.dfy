/** Ingredient tables, the recipe book and the arithmetic helpers shared by the
    scaling strategies and the error metrics. */
module Tables {

  /** The errors a lookup or an average can raise (Python's KeyError and
      ZeroDivisionError). */
  datatype Error =
    | MissingRecipe(recipe: string)
    | MissingServing(recipe: string, serving: int)
    | DivisionByZero

  datatype Result<T> = Ok(value: T) | Err(error: Error)
  {
    predicate IsFailure() { Err? }

    function PropagateFailure<U>(): Result<U>
      requires Err?
    {
      Err(error)
    }

    function Extract(): T
      requires Ok?
    {
      value
    }
  }

  ghost predicate Distinct(s: seq<string>)
  {
    forall i, j :: 0 <= i < j < |s| ==> s[i] != s[j]
  }

  /** One serving size's ingredient table (ingredient name to grams). A Python
      dict remembers insertion order and every loop of the program walks it in
      that order, so the order is kept beside the map. */
  datatype Quantities = Quantities(order: seq<string>, grams: map<string, real>)
  {
    ghost predicate Valid()
    {
      Distinct(order) && forall k :: k in grams <==> k in order
    }

    /** `d[k] = v`: a new key goes to the end, a present key keeps its place. */
    function Insert(k: string, v: real): (d: Quantities)
      ensures d.grams == grams[k := v]
      ensures k in grams ==> d.order == order
      ensures k !in grams ==> d.order == order + [k]
      ensures Valid() ==> d.Valid()
    {
      if k in grams then Quantities(order, grams[k := v])
      else Quantities(order + [k], grams[k := v])
    }
  }

  /** Every quantity of the table is at least zero. */
  predicate NonNegative(t: Quantities)
  {
    forall k :: k in t.grams ==> t.grams[k] >= 0.0
  }

  const EMPTY: Quantities := Quantities([], map[])

  /** The keys of `keys` that are also keys of `other`, in the order of `keys`:
      the ingredients a loop `for k in keys: if k in other: ...` visits. */
  function SharedKeys(keys: seq<string>, other: map<string, real>): (r: seq<string>)
    ensures forall k :: k in r <==> k in keys && k in other
    ensures |r| <= |keys|
  {
    if |keys| == 0 then []
    else
      var init, last := keys[..|keys| - 1], keys[|keys| - 1];
      assert keys == init + [last];
      var rest := SharedKeys(init, other);
      if last in other then rest + [last] else rest
  }

  /** If every key of `keys` that matters is in both maps or in neither, the
      shared keys agree. */
  lemma {:induction false} SharedKeysAgree(keys: seq<string>, a: map<string, real>, b: map<string, real>)
    requires forall k :: k in keys ==> (k in a <==> k in b)
    ensures SharedKeys(keys, a) == SharedKeys(keys, b)
  {
    if |keys| > 0 {
      var init := keys[..|keys| - 1];
      assert forall k :: k in init ==> k in keys;
      SharedKeysAgree(init, a, b);
    }
  }

  /** When every key of `keys` is in `other`, the shared keys are all of them. */
  lemma {:induction false} SharedKeysAll(keys: seq<string>, other: map<string, real>)
    requires forall k :: k in keys ==> k in other
    ensures SharedKeys(keys, other) == keys
  {
    if |keys| > 0 {
      var init := keys[..|keys| - 1];
      assert forall k :: k in init ==> k in keys;
      SharedKeysAll(init, other);
      assert keys == init + [keys[|keys| - 1]];
    }
  }

  /** The table that the loop `d = {}; for k in keys: if k in values: d[k] = values[k]`
      builds. */
  function Pick(keys: seq<string>, values: map<string, real>): Quantities
  {
    if |keys| == 0 then EMPTY
    else
      var d := Pick(keys[..|keys| - 1], values);
      var k := keys[|keys| - 1];
      if k in values then d.Insert(k, values[k]) else d
  }

  /** One more iteration of the loop that Pick describes. */
  lemma PickStep(keys: seq<string>, i: nat, values: map<string, real>)
    requires i < |keys|
    ensures Pick(keys[..i + 1], values) ==
      if keys[i] in values then Pick(keys[..i], values).Insert(keys[i], values[keys[i]])
      else Pick(keys[..i], values)
  {
    assert keys[..i + 1][..i] == keys[..i];
  }

  /** Over distinct keys, Pick keeps the keys that have a value, in order, each
      with its value, and gives a valid table. */
  lemma {:induction false} PickShape(keys: seq<string>, values: map<string, real>)
    requires Distinct(keys)
    ensures Pick(keys, values).order == SharedKeys(keys, values)
    ensures forall k :: k in Pick(keys, values).grams <==> k in keys && k in values
    ensures forall k :: k in Pick(keys, values).grams ==> Pick(keys, values).grams[k] == values[k]
    ensures Pick(keys, values).Valid()
  {
    if |keys| > 0 {
      var init, last := keys[..|keys| - 1], keys[|keys| - 1];
      assert keys == init + [last];
      assert Distinct(init) by {
        forall i, j | 0 <= i < j < |init| ensures init[i] != init[j] {
          assert init[i] == keys[i] && init[j] == keys[j];
        }
      }
      assert last !in init by {
        forall i | 0 <= i < |init| ensures init[i] != last {
          assert init[i] == keys[i];
        }
      }
      PickShape(init, values);
    }
  }

  /** When every key with a value is among `keys`, Pick's map is `values` itself. */
  lemma PickAll(keys: seq<string>, values: map<string, real>)
    requires Distinct(keys)
    requires forall k :: k in values ==> k in keys
    ensures Pick(keys, values).grams == values
    ensures Pick(keys, values).order == SharedKeys(keys, values)
    ensures Pick(keys, values).Valid()
  {
    PickShape(keys, values);
  }

  /** The recipe book: recipe name to serving size to ingredient table, with
      the recipe names in their insertion order. */
  datatype Book = Book(names: seq<string>, recipes: map<string, map<int, Quantities>>)
  {
    ghost predicate Valid()
    {
      && Distinct(names)
      && (forall r :: r in recipes <==> r in names)
      && (forall r, s :: r in recipes && s in recipes[r] ==> recipes[r][s].Valid())
    }
  }

  /** `RECIPES[recipe][serving]`, raising KeyError on a missing recipe first
      and on a missing serving size second. */
  function Servings(book: Book, recipe: string, serving: int): (r: Result<Quantities>)
    ensures r.Ok? <==> recipe in book.recipes && serving in book.recipes[recipe]
    ensures r.Ok? ==> r.value == book.recipes[recipe][serving]
    ensures r.Err? ==> r.error == if recipe in book.recipes then MissingServing(recipe, serving)
                                else MissingRecipe(recipe)
  {
    if recipe !in book.recipes then Err(MissingRecipe(recipe))
    else if serving !in book.recipes[recipe] then Err(MissingServing(recipe, serving))
    else Ok(book.recipes[recipe][serving])
  }

  /** Every stored quantity of the book is at least zero. */
  predicate BookNonNegative(book: Book)
  {
    forall r, s :: r in book.recipes && s in book.recipes[r] ==> NonNegative(book.recipes[r][s])
  }

  /** True when the recipe exists and has every one of the serving sizes. */
  predicate Covered(book: Book, recipe: string, servings: seq<int>)
  {
    recipe in book.recipes && forall i :: 0 <= i < |servings| ==> servings[i] in book.recipes[recipe]
  }

  /** A recipe covers a list of sizes iff it covers all but the last and the last. */
  lemma CoveredSnoc(book: Book, recipe: string, servings: seq<int>)
    requires |servings| > 0
    ensures Covered(book, recipe, servings) <==>
      Covered(book, recipe, servings[..|servings| - 1]) && servings[|servings| - 1] in book.recipes[recipe]
  {
    var init := servings[..|servings| - 1];
    assert forall i :: 0 <= i < |init| ==> init[i] == servings[i];
  }

  predicate AllCovered(book: Book, names: seq<string>, servings: seq<int>)
  {
    forall i :: 0 <= i < |names| ==> Covered(book, names[i], servings)
  }

  /** A book covers a list of recipes iff it covers all but the last and the last. */
  lemma AllCoveredSnoc(book: Book, names: seq<string>, servings: seq<int>)
    requires |names| > 0
    ensures AllCovered(book, names, servings) <==>
      AllCovered(book, names[..|names| - 1], servings) && Covered(book, names[|names| - 1], servings)
  {
    var init := names[..|names| - 1];
    assert forall i :: 0 <= i < |init| ==> init[i] == names[i];
  }

  /** `max(0, x)`. */
  function Clamp(x: real): (r: real)
    ensures r >= 0.0 && r >= x
    ensures r == x || r == 0.0
  {
    if x > 0.0 then x else 0.0
  }

  function Min(a: real, b: real): (r: real)
    ensures r <= a && r <= b && (r == a || r == b)
  {
    if a <= b then a else b
  }

  function Max(a: real, b: real): (r: real)
    ensures r >= a && r >= b && (r == a || r == b)
  {
    if a <= b then b else a
  }

  lemma MulNonNegative(a: real, b: real)
    requires a >= 0.0 && b >= 0.0
    ensures a * b >= 0.0
  {
  }

  function Abs(x: real): (r: real)
    ensures r >= 0.0
    ensures r == x || r == -x
  {
    if x < 0.0 then -x else x
  }

  /** Python's `sum(xs)`, adding from the left. */
  function Sum(xs: seq<real>): real
  {
    if |xs| == 0 then 0.0 else Sum(xs[..|xs| - 1]) + xs[|xs| - 1]
  }

  lemma SumAppend(xs: seq<real>, x: real)
    ensures Sum(xs + [x]) == Sum(xs) + x
  {
    assert (xs + [x])[..|xs|] == xs;
  }

  /** `sum(xs) / len(xs)`. */
  function Mean(xs: seq<real>): real
    requires |xs| > 0
  {
    Sum(xs) / |xs| as real
  }

  /** `sum(xs) / len(xs) if xs else 0`. */
  function MeanOrZero(xs: seq<real>): real
  {
    if |xs| == 0 then 0.0 else Mean(xs)
  }

  lemma {:induction false} SumNonNegative(xs: seq<real>)
    requires forall i :: 0 <= i < |xs| ==> xs[i] >= 0.0
    ensures Sum(xs) >= 0.0
  {
    if |xs| > 0 {
      SumNonNegative(xs[..|xs| - 1]);
    }
  }

  lemma {:induction false} SumOfZeros(xs: seq<real>)
    requires forall i :: 0 <= i < |xs| ==> xs[i] == 0.0
    ensures Sum(xs) == 0.0
  {
    if |xs| > 0 {
      SumOfZeros(xs[..|xs| - 1]);
    }
  }

  lemma {:induction false} SumOfConstant(xs: seq<real>, c: real)
    requires forall i :: 0 <= i < |xs| ==> xs[i] == c
    ensures Sum(xs) == |xs| as real * c
  {
    if |xs| > 0 {
      SumOfConstant(xs[..|xs| - 1], c);
    }
  }

  lemma MeanOrZeroNonNegative(xs: seq<real>)
    requires forall i :: 0 <= i < |xs| ==> xs[i] >= 0.0
    ensures MeanOrZero(xs) >= 0.0
  {
    SumNonNegative(xs);
  }

  lemma MeanOfConstant(xs: seq<real>, c: real)
    requires |xs| > 0
    requires forall i :: 0 <= i < |xs| ==> xs[i] == c
    ensures MeanOrZero(xs) == c
  {
    SumOfConstant(xs, c);
  }
}
