/** simple_test.py's recipe book and the scenarios its driver and its
    demonstration run on it. */
module SimpleTest {
  import opened Tables
  import opened Strategies
  import opened Metrics
  import opened Evaluation

  // ---------------------------------------------------------------------
  // The recipe book
  // ---------------------------------------------------------------------

  const PALAK_PANEER: seq<string> := ["Onion", "Garlic", "Green_chilli", "Tomato", "Spinach", "Paneer"]
  const SHAHI_PANEER: seq<string> := ["Green_chilli", "Ginger_garlic", "Tomato", "Cashews", "Paneer", "Cream"]
  const MATAR_PANEER: seq<string> := ["Ginger", "Green_chilli", "Green_peas", "Tomato", "Paneer"]
  const PANEER_MASALA: seq<string> := ["Green_chilli", "Onion", "Ginger_garlic", "Tomato", "Paneer"]

  const PALAK_1: Quantities := Quantities(PALAK_PANEER, map["Onion" := 85.0, "Garlic" := 10.0, "Green_chilli" := 0.90, "Tomato" := 80.0, "Spinach" := 125.0, "Paneer" := 100.0])
  const PALAK_2: Quantities := Quantities(PALAK_PANEER, map["Onion" := 85.0, "Garlic" := 16.63, "Green_chilli" := 1.75, "Tomato" := 110.0, "Spinach" := 175.0, "Paneer" := 200.0])
  const PALAK_3: Quantities := Quantities(PALAK_PANEER, map["Onion" := 110.0, "Garlic" := 20.0, "Green_chilli" := 2.58, "Tomato" := 165.0, "Spinach" := 275.0, "Paneer" := 300.0])
  const PALAK_4: Quantities := Quantities(PALAK_PANEER, map["Onion" := 140.0, "Garlic" := 25.0, "Green_chilli" := 3.51, "Tomato" := 220.0, "Spinach" := 375.0, "Paneer" := 400.0])
  const PALAK: map<int, Quantities> := map[1 := PALAK_1, 2 := PALAK_2, 3 := PALAK_3, 4 := PALAK_4]

  const SHAHI_1: Quantities := Quantities(SHAHI_PANEER, map["Green_chilli" := 0.41, "Ginger_garlic" := 10.0, "Tomato" := 110.0, "Cashews" := 5.0, "Paneer" := 150.0, "Cream" := 20.0])
  const SHAHI_2: Quantities := Quantities(SHAHI_PANEER, map["Green_chilli" := 0.90, "Ginger_garlic" := 15.0, "Tomato" := 165.0, "Cashews" := 10.0, "Paneer" := 200.0, "Cream" := 30.0])
  const SHAHI_3: Quantities := Quantities(SHAHI_PANEER, map["Green_chilli" := 0.90, "Ginger_garlic" := 20.0, "Tomato" := 220.0, "Cashews" := 15.0, "Paneer" := 300.0, "Cream" := 40.0])
  const SHAHI_4: Quantities := Quantities(SHAHI_PANEER, map["Green_chilli" := 0.90, "Ginger_garlic" := 25.0, "Tomato" := 275.0, "Cashews" := 25.0, "Paneer" := 400.0, "Cream" := 50.0])
  const SHAHI: map<int, Quantities> := map[1 := SHAHI_1, 2 := SHAHI_2, 3 := SHAHI_3, 4 := SHAHI_4]

  const MATAR_1: Quantities := Quantities(MATAR_PANEER, map["Ginger" := 3.13, "Green_chilli" := 0.46, "Green_peas" := 50.0, "Tomato" := 110.0, "Paneer" := 75.0])
  const MATAR_2: Quantities := Quantities(MATAR_PANEER, map["Ginger" := 6.25, "Green_chilli" := 0.93, "Green_peas" := 80.0, "Tomato" := 165.0, "Paneer" := 150.0])
  const MATAR_3: Quantities := Quantities(MATAR_PANEER, map["Ginger" := 9.38, "Green_chilli" := 0.90, "Green_peas" := 120.0, "Tomato" := 245.0, "Paneer" := 200.0])
  const MATAR_4: Quantities := Quantities(MATAR_PANEER, map["Ginger" := 12.50, "Green_chilli" := 0.90, "Green_peas" := 150.0, "Tomato" := 330.0, "Paneer" := 300.0])
  const MATAR: map<int, Quantities> := map[1 := MATAR_1, 2 := MATAR_2, 3 := MATAR_3, 4 := MATAR_4]

  const MASALA_1: Quantities := Quantities(PANEER_MASALA, map["Green_chilli" := 0.41, "Onion" := 110.0, "Ginger_garlic" := 10.0, "Tomato" := 80.0, "Paneer" := 150.0])
  const MASALA_2: Quantities := Quantities(PANEER_MASALA, map["Green_chilli" := 0.41, "Onion" := 140.0, "Ginger_garlic" := 15.0, "Tomato" := 110.0, "Paneer" := 200.0])
  const MASALA_3: Quantities := Quantities(PANEER_MASALA, map["Green_chilli" := 0.90, "Onion" := 170.0, "Ginger_garlic" := 20.0, "Tomato" := 135.0, "Paneer" := 300.0])
  const MASALA_4: Quantities := Quantities(PANEER_MASALA, map["Green_chilli" := 0.82, "Onion" := 195.0, "Ginger_garlic" := 25.0, "Tomato" := 165.0, "Paneer" := 400.0])
  const MASALA: map<int, Quantities> := map[1 := MASALA_1, 2 := MASALA_2, 3 := MASALA_3, 4 := MASALA_4]

  /** `RECIPES`. */
  const RECIPES: Book := Book(["palak_paneer", "shahi_paneer", "matar_paneer", "paneer_masala"],
    map["palak_paneer" := PALAK, "shahi_paneer" := SHAHI, "matar_paneer" := MATAR, "paneer_masala" := MASALA])

  /** Every table of the recipe is well formed. */
  lemma PalakValid()
    ensures forall s :: s in PALAK ==> PALAK[s].Valid()
  {
    forall s | s in PALAK ensures PALAK[s].Valid() {
      if s == 1 {
        assert PALAK[s] == PALAK_1;
      } else if s == 2 {
        assert PALAK[s] == PALAK_2;
      } else if s == 3 {
        assert PALAK[s] == PALAK_3;
      } else {
        assert PALAK[s] == PALAK_4;
      }
    }
  }

  /** No quantity of the recipe is negative. */
  lemma PalakNonNegative()
    ensures forall s :: s in PALAK ==> NonNegative(PALAK[s])
  {
    forall s | s in PALAK ensures NonNegative(PALAK[s]) {
      if s == 1 {
        assert PALAK[s] == PALAK_1;
      } else if s == 2 {
        assert PALAK[s] == PALAK_2;
      } else if s == 3 {
        assert PALAK[s] == PALAK_3;
      } else {
        assert PALAK[s] == PALAK_4;
      }
    }
  }

  /** Every table of the recipe is well formed. */
  lemma ShahiValid()
    ensures forall s :: s in SHAHI ==> SHAHI[s].Valid()
  {
    forall s | s in SHAHI ensures SHAHI[s].Valid() {
      if s == 1 {
        assert SHAHI[s] == SHAHI_1;
      } else if s == 2 {
        assert SHAHI[s] == SHAHI_2;
      } else if s == 3 {
        assert SHAHI[s] == SHAHI_3;
      } else {
        assert SHAHI[s] == SHAHI_4;
      }
    }
  }

  /** No quantity of the recipe is negative. */
  lemma ShahiNonNegative()
    ensures forall s :: s in SHAHI ==> NonNegative(SHAHI[s])
  {
    forall s | s in SHAHI ensures NonNegative(SHAHI[s]) {
      if s == 1 {
        assert SHAHI[s] == SHAHI_1;
      } else if s == 2 {
        assert SHAHI[s] == SHAHI_2;
      } else if s == 3 {
        assert SHAHI[s] == SHAHI_3;
      } else {
        assert SHAHI[s] == SHAHI_4;
      }
    }
  }

  /** Every table of the recipe is well formed. */
  lemma MatarValid()
    ensures forall s :: s in MATAR ==> MATAR[s].Valid()
  {
    forall s | s in MATAR ensures MATAR[s].Valid() {
      if s == 1 {
        assert MATAR[s] == MATAR_1;
      } else if s == 2 {
        assert MATAR[s] == MATAR_2;
      } else if s == 3 {
        assert MATAR[s] == MATAR_3;
      } else {
        assert MATAR[s] == MATAR_4;
      }
    }
  }

  /** No quantity of the recipe is negative. */
  lemma MatarNonNegative()
    ensures forall s :: s in MATAR ==> NonNegative(MATAR[s])
  {
    forall s | s in MATAR ensures NonNegative(MATAR[s]) {
      if s == 1 {
        assert MATAR[s] == MATAR_1;
      } else if s == 2 {
        assert MATAR[s] == MATAR_2;
      } else if s == 3 {
        assert MATAR[s] == MATAR_3;
      } else {
        assert MATAR[s] == MATAR_4;
      }
    }
  }

  /** Every table of the recipe is well formed. */
  lemma MasalaValid()
    ensures forall s :: s in MASALA ==> MASALA[s].Valid()
  {
    forall s | s in MASALA ensures MASALA[s].Valid() {
      if s == 1 {
        assert MASALA[s] == MASALA_1;
      } else if s == 2 {
        assert MASALA[s] == MASALA_2;
      } else if s == 3 {
        assert MASALA[s] == MASALA_3;
      } else {
        assert MASALA[s] == MASALA_4;
      }
    }
  }

  /** No quantity of the recipe is negative. */
  lemma MasalaNonNegative()
    ensures forall s :: s in MASALA ==> NonNegative(MASALA[s])
  {
    forall s | s in MASALA ensures NonNegative(MASALA[s]) {
      if s == 1 {
        assert MASALA[s] == MASALA_1;
      } else if s == 2 {
        assert MASALA[s] == MASALA_2;
      } else if s == 3 {
        assert MASALA[s] == MASALA_3;
      } else {
        assert MASALA[s] == MASALA_4;
      }
    }
  }

  lemma NamesValid()
    ensures Distinct(RECIPES.names)
    ensures forall r :: r in RECIPES.recipes <==> r in RECIPES.names
  {
    assert Distinct(RECIPES.names);
  }

  lemma TablesValid()
    ensures forall r, s :: r in RECIPES.recipes && s in RECIPES.recipes[r] ==> RECIPES.recipes[r][s].Valid()
  {
    forall r | r in RECIPES.recipes
      ensures forall s :: s in RECIPES.recipes[r] ==> RECIPES.recipes[r][s].Valid()
    {
      if r == "palak_paneer" {
        PalakValid();
      } else if r == "shahi_paneer" {
        ShahiValid();
      } else if r == "matar_paneer" {
        MatarValid();
      } else {
        MasalaValid();
      }
    }
  }

  lemma RecipesValid()
    ensures RECIPES.Valid()
  {
    NamesValid();
    TablesValid();
  }

  /** No stored quantity of the book is negative. */
  lemma RecipesNonNegative()
    ensures BookNonNegative(RECIPES)
  {
    forall r | r in RECIPES.recipes
      ensures forall s :: s in RECIPES.recipes[r] ==> NonNegative(RECIPES.recipes[r][s])
    {
      if r == "palak_paneer" {
        assert RECIPES.recipes[r] == PALAK;
        PalakNonNegative();
      } else if r == "shahi_paneer" {
        assert RECIPES.recipes[r] == SHAHI;
        ShahiNonNegative();
      } else if r == "matar_paneer" {
        assert RECIPES.recipes[r] == MATAR;
        MatarNonNegative();
      } else {
        assert RECIPES.recipes[r] == MASALA;
        MasalaNonNegative();
      }
    }
  }

  lemma RecipeLookups()
    ensures RECIPES.names[0] in RECIPES.recipes && RECIPES.recipes[RECIPES.names[0]] == PALAK
    ensures RECIPES.names[1] in RECIPES.recipes && RECIPES.recipes[RECIPES.names[1]] == SHAHI
    ensures RECIPES.names[2] in RECIPES.recipes && RECIPES.recipes[RECIPES.names[2]] == MATAR
    ensures RECIPES.names[3] in RECIPES.recipes && RECIPES.recipes[RECIPES.names[3]] == MASALA
  {
  }

  lemma PalakSizes()
    ensures 1 in PALAK && 2 in PALAK && 3 in PALAK && 4 in PALAK
  {
  }

  lemma ShahiSizes()
    ensures 1 in SHAHI && 2 in SHAHI && 3 in SHAHI && 4 in SHAHI
  {
  }

  lemma MatarSizes()
    ensures 1 in MATAR && 2 in MATAR && 3 in MATAR && 4 in MATAR
  {
  }

  lemma MasalaSizes()
    ensures 1 in MASALA && 2 in MASALA && 3 in MASALA && 4 in MASALA
  {
  }

  /** Every recipe has the known sizes 1 and 3 and the targets 2 and 4. */
  lemma RecipesCovered()
    ensures AllCovered(RECIPES, RECIPES.names, KNOWN) && AllCovered(RECIPES, RECIPES.names, TARGETS)
  {
    RecipeLookups();
    PalakSizes();
    ShahiSizes();
    MatarSizes();
    MasalaSizes();
    forall i | 0 <= i < |RECIPES.names|
      ensures Covered(RECIPES, RECIPES.names[i], KNOWN) && Covered(RECIPES, RECIPES.names[i], TARGETS)
    {
      assert i == 0 || i == 1 || i == 2 || i == 3;
    }
  }

  // ---------------------------------------------------------------------
  // Scenarios
  // ---------------------------------------------------------------------

  /** `linear_scaling("palak_paneer", [1, 3], 2)` on this book: Onion 97.5 g
      and Paneer 200 g. */
  lemma LinearPalakAtTwo()
    ensures RECIPES.Valid()
    ensures PredictionOf(Linear, RECIPES, "palak_paneer", 1, 3, 2.0).Ok?
    ensures var p := PredictionOf(Linear, RECIPES, "palak_paneer", 1, 3, 2.0).value;
      "Onion" in p.grams && p.grams["Onion"] == 97.5 && "Paneer" in p.grams && p.grams["Paneer"] == 200.0
  {
    RecipesValid();
    PalakLookups();
    PredictionOfTables(Linear, RECIPES, "palak_paneer", 1, 3, 2.0, PALAK_1, PALAK_3);
    LinearPalakAtTwoTables();
  }

  lemma PalakLookups()
    ensures "palak_paneer" in RECIPES.recipes && RECIPES.recipes["palak_paneer"] == PALAK
    ensures 1 in PALAK && PALAK[1] == PALAK_1 && 3 in PALAK && PALAK[3] == PALAK_3
  {
  }

  lemma LinearPalakAtTwoTables()
    ensures PALAK_1.Valid()
    ensures var p := LinearPrediction(PALAK_1, PALAK_3, 1, 3, 2.0);
      "Onion" in p.grams && p.grams["Onion"] == 97.5 && "Paneer" in p.grams && p.grams["Paneer"] == 200.0
  {
    PalakValid();
    assert 1 in PALAK && PALAK[1] == PALAK_1;
    LinearPalakAtTwoArithmetic();
    LinearPredictionAt(PALAK_1, PALAK_3, 1, 3, 2.0, "Onion", 97.5);
    LinearPredictionAt(PALAK_1, PALAK_3, 1, 3, 2.0, "Paneer", 200.0);
  }

  lemma LinearPalakAtTwoArithmetic()
    ensures Interpolate(85.0, 110.0, 1, 3, 2.0) == 97.5
    ensures Interpolate(100.0, 300.0, 1, 3, 2.0) == 200.0
  {
  }

  /** `simple_ratio_scaling("shahi_paneer", [1, 3], 1.5)` on this book:
      Paneer 225 g. */
  lemma SimpleRatioShahiAtOneAndAHalf()
    ensures RECIPES.Valid()
    ensures PredictionOf(SimpleRatio, RECIPES, "shahi_paneer", 1, 3, 1.5).Ok?
    ensures var p := PredictionOf(SimpleRatio, RECIPES, "shahi_paneer", 1, 3, 1.5).value;
      "Paneer" in p.grams && p.grams["Paneer"] == 225.0
  {
    RecipesValid();
    ShahiLookups();
    PredictionOfTables(SimpleRatio, RECIPES, "shahi_paneer", 1, 3, 1.5, SHAHI_1, SHAHI_3);
    SimpleRatioShahiTables();
  }

  lemma ShahiLookups()
    ensures "shahi_paneer" in RECIPES.recipes && RECIPES.recipes["shahi_paneer"] == SHAHI
    ensures 1 in SHAHI && SHAHI[1] == SHAHI_1
  {
  }

  lemma SimpleRatioShahiTables()
    ensures SHAHI_1.Valid()
    ensures var p := SimpleRatioPrediction(SHAHI_1, 1, 1.5);
      "Paneer" in p.grams && p.grams["Paneer"] == 225.0
  {
    ShahiValid();
    assert 1 in SHAHI && SHAHI[1] == SHAHI_1;
    SimpleRatioShahiArithmetic();
    SimpleRatioPredictionAt(SHAHI_1, 1, 1.5, "Paneer", 225.0);
  }

  lemma SimpleRatioShahiArithmetic()
    ensures Scaled(150.0, 1.0, PerServing(1.5, 1)) == 225.0
  {
  }

  /** On this book no strategy predicts a negative quantity for any recipe,
      any pair of known sizes and any target of at least zero. */
  lemma PredictionsNonNegative()
    ensures RECIPES.Valid()
    ensures forall m, recipe, s1, s2, target :: target >= 0.0 && PredictionOf(m, RECIPES, recipe, s1, s2, target).Ok? ==>
      NonNegative(PredictionOf(m, RECIPES, recipe, s1, s2, target).value)
  {
    RecipesValid();
    RecipesNonNegative();
    forall m, recipe, s1, s2, target | target >= 0.0
      ensures PredictionOf(m, RECIPES, recipe, s1, s2, target).Ok? ==>
        NonNegative(PredictionOf(m, RECIPES, recipe, s1, s2, target).value)
    {
      PredictionNonNegative(m, RECIPES, recipe, s1, s2, target);
    }
  }

  /** On this book `run_evaluation` finishes, and every strategy collects
      20 * 4 * 2 = 160 MAE and 160 MAPE samples. */
  lemma EvaluationSamples()
    ensures RECIPES.Valid()
    ensures MissingAmong(RECIPES, RECIPES.names, TARGETS).None?
    ensures forall m :: |AddTrials(NO_SAMPLES, RECIPES, TRIALS, m).mae| == 160
    ensures forall m :: |AddTrials(NO_SAMPLES, RECIPES, TRIALS, m).mape| == 160
  {
    RecipesValid();
    RecipesCovered();
    MissingAmongCovered(RECIPES, RECIPES.names, TARGETS);
    SampleCounts(RECIPES);
  }
}
