/** Weight resolution: one of five fixed nine-element presets or the nine
    custom slider values, divided by their total. The order of the nine
    weights is income, bachelor's %, unemployment, uninsured %, rent,
    broadband %, high-school graduation %, upward mobility, Gini index. */
module Weights {
  import opened Wrappers
  import opened Seqs

  const NumWeights: nat := 9

  const Even: seq<real> := [1.0/9.0, 1.0/9.0, 1.0/9.0, 1.0/9.0, 1.0/9.0, 1.0/9.0, 1.0/9.0, 1.0/9.0, 1.0/9.0]
  const IncomeHeavy: seq<real> := [0.4, 0.1, 0.1, 0.1, 0.1, 0.05, 0.05, 0.05, 0.05]
  const EducationHeavy: seq<real> := [0.1, 0.4, 0.1, 0.1, 0.1, 0.05, 0.05, 0.05, 0.05]
  const EquityFocused: seq<real> := [0.05, 0.05, 0.3, 0.05, 0.1, 0.05, 0.2, 0.1, 0.1]
  const StabilityFocused: seq<real> := [0.05, 0.05, 0.05, 0.05, 0.2, 0.05, 0.1, 0.3, 0.15]

  predicate IsPresetName(preset: string)
  {
    preset in {"Even", "Income-heavy", "Education-heavy", "Equity-focused", "Stability-focused"}
  }

  /** Every value lies in the slider range [0, 1]. */
  predicate InUnitRange(w: seq<real>)
  {
    forall i :: 0 <= i < |w| ==> 0.0 <= w[i] <= 1.0
  }

  /** The if/elif chain on the selected preset name; any other name (the
      "Custom" entry) takes the nine slider values. */
  function Select(preset: string, sliders: seq<real>): (w: seq<real>)
    requires |sliders| == NumWeights
    ensures |w| == NumWeights
    ensures !IsPresetName(preset) ==> w == sliders
    ensures IsPresetName(preset) ==> w in {Even, IncomeHeavy, EducationHeavy, EquityFocused, StabilityFocused}
  {
    if preset == "Even" then Even
    else if preset == "Income-heavy" then IncomeHeavy
    else if preset == "Education-heavy" then EducationHeavy
    else if preset == "Equity-focused" then EquityFocused
    else if preset == "Stability-focused" then StabilityFocused
    else sliders
  }

  lemma SumFrom(w: seq<real>, k: nat)
    requires k < |w|
    ensures Sum(w[k..]) == w[k] + Sum(w[k + 1..])
  {
    assert w[k..][1..] == w[k + 1..];
  }

  /** The sum of a nine-element vector, written out. */
  lemma SumNine(w: seq<real>)
    requires |w| == NumWeights
    ensures Sum(w) == w[0] + w[1] + w[2] + w[3] + w[4] + w[5] + w[6] + w[7] + w[8]
  {
    assert w[0..] == w;
    assert w[9..] == [];
    SumFrom(w, 0); SumFrom(w, 1); SumFrom(w, 2); SumFrom(w, 3); SumFrom(w, 4);
    SumFrom(w, 5); SumFrom(w, 6); SumFrom(w, 7); SumFrom(w, 8);
  }

  /** Nine weights, each in [0, 1], summing to exactly 1. */
  predicate UnitWeights(w: seq<real>)
  {
    |w| == NumWeights && InUnitRange(w) && Sum(w) == 1.0
  }

  /** Every preset has nine entries, each in [0, 1], whose exact sum is 1. */
  lemma PresetsSumToOne(preset: string, sliders: seq<real>)
    requires |sliders| == NumWeights && IsPresetName(preset)
    ensures UnitWeights(Select(preset, sliders))
  {
    EvenIsUnit();
    IncomeHeavyIsUnit();
    EducationHeavyIsUnit();
    EquityFocusedIsUnit();
    StabilityFocusedIsUnit();
  }

  lemma EvenIsUnit()
    ensures UnitWeights(Even)
  {
    SumNine(Even);
  }

  lemma IncomeHeavyIsUnit()
    ensures UnitWeights(IncomeHeavy)
  {
    SumNine(IncomeHeavy);
  }

  lemma EducationHeavyIsUnit()
    ensures UnitWeights(EducationHeavy)
  {
    SumNine(EducationHeavy);
  }

  lemma EquityFocusedIsUnit()
    ensures UnitWeights(EquityFocused)
  {
    SumNine(EquityFocused);
  }

  lemma StabilityFocusedIsUnit()
    ensures UnitWeights(StabilityFocused)
  {
    SumNine(StabilityFocused);
  }

  /** `[wi/total_w for wi in w]` with `total_w = sum(w)`. The division
      raises when the total is zero and there is something to divide; that
      failure is None. Otherwise every weight is its input divided by the
      common total, so the ratios between weights are kept. */
  function Normalise(w: seq<real>): (r: Option<seq<real>>)
    ensures r.None? <==> (w != [] && Sum(w) == 0.0)
    ensures r.Some? ==> |r.value| == |w|
    ensures r.Some? ==> forall i :: 0 <= i < |w| ==> r.value[i] * Sum(w) == w[i]
  {
    var total := Sum(w);
    if w != [] && total == 0.0 then None
    else Some(seq(|w|, i requires 0 <= i < |w| => w[i] / total))
  }

  /** Dividing every value by their nonzero total gives values summing to 1. */
  lemma {:induction false} UnitSum(w: seq<real>, r: seq<real>, t: real)
    requires t == Sum(w) && t != 0.0
    requires |r| == |w|
    requires forall i :: 0 <= i < |w| ==> r[i] * t == w[i]
    ensures Sum(r) == 1.0
  {
    ScaledSum(w, r, t);
    var x := Sum(r);
    assert x * t == Sum(w);
    assert x * t == t;
    CancelFactor(x, t);
  }

  /** Normalised weights sum to 1. */
  lemma {:induction false} NormaliseSumsToOne(w: seq<real>)
    requires Sum(w) != 0.0
    ensures Normalise(w).Some? && Sum(Normalise(w).value) == 1.0
  {
    var t := Sum(w);
    var r := Normalise(w).value;
    UnitSum(w, r, t);
  }

  /** Normalisation keeps the ratio between any two weights. */
  lemma {:induction false} NormaliseKeepsRatios(w: seq<real>, i: nat, j: nat)
    requires Sum(w) != 0.0
    requires i < |w| && j < |w|
    ensures Normalise(w).Some?
    ensures Normalise(w).value[i] * w[j] == Normalise(w).value[j] * w[i]
  {
    RatioKept(Normalise(w).value, w, Sum(w), i, j);
  }

  /** Values that are all `t` times their counterparts keep their ratios. */
  lemma RatioKept(r: seq<real>, w: seq<real>, t: real, i: nat, j: nat)
    requires ScaledBy(r, w, t) && i < |w| && j < |w|
    ensures r[i] * w[j] == r[j] * w[i]
  {
    CrossMultiply(r[i], r[j], w[i], w[j], t);
  }

  lemma CrossMultiply(a: real, b: real, x: real, y: real, t: real)
    requires a * t == x && b * t == y
    ensures a * y == b * x
  {
    calc {
      a * y;
      == a * (b * t);
      == b * (a * t);
      == b * x;
    }
  }

  /** With non-negative inputs and a positive total each normalised weight is
      in [0, 1]. */
  lemma {:induction false} NormaliseInUnitRange(w: seq<real>)
    requires forall i :: 0 <= i < |w| ==> w[i] >= 0.0
    requires Sum(w) > 0.0
    ensures Normalise(w).Some? && InUnitRange(Normalise(w).value)
  {
    var t := Sum(w);
    var r := Normalise(w).value;
    forall i | 0 <= i < |w| ensures 0.0 <= r[i] <= 1.0 {
      ElementAtMostSum(w, i);
      assert r[i] * t == w[i];
      FractionInUnitRange(r[i], w[i], t);
    }
  }

  lemma FractionInUnitRange(x: real, y: real, t: real)
    requires t > 0.0 && x * t == y && 0.0 <= y <= t
    ensures 0.0 <= x <= 1.0
  {
  }

  /** With non-negative entries no entry exceeds the sum. */
  lemma {:induction false} ElementAtMostSum(w: seq<real>, i: nat)
    requires forall k :: 0 <= k < |w| ==> w[k] >= 0.0
    requires i < |w|
    ensures w[i] <= Sum(w)
  {
    SumNonNegative(w[1..]);
    if i > 0 {
      ElementAtMostSum(w[1..], i - 1);
    }
  }

  /** A vector that already sums to 1 is left unchanged by normalisation, so
      the presets are used exactly as written. */
  lemma {:induction false} NormaliseFixesUnitSum(w: seq<real>)
    requires Sum(w) == 1.0
    ensures Normalise(w) == Some(w)
  {
    assert w != [];
    assert Normalise(w).value == w;
  }

  /** The weights in force: the selected vector, normalised. */
  function Resolve(preset: string, sliders: seq<real>): (r: Option<seq<real>>)
    requires |sliders| == NumWeights
    ensures r.Some? ==> |r.value| == NumWeights
  {
    Normalise(Select(preset, sliders))
  }

  /** Resolution fails exactly when the custom sliders are all zero; a
      preset resolves to itself; a successful resolution always yields nine
      weights in [0, 1] that sum to 1. */
  lemma {:induction false} ResolveSpec(preset: string, sliders: seq<real>)
    requires |sliders| == NumWeights && InUnitRange(sliders)
    ensures Resolve(preset, sliders).None? <==>
      (!IsPresetName(preset) && forall i :: 0 <= i < NumWeights ==> sliders[i] == 0.0)
    ensures IsPresetName(preset) ==> Resolve(preset, sliders) == Some(Select(preset, sliders))
    ensures Resolve(preset, sliders).Some? ==> UnitWeights(Resolve(preset, sliders).value)
  {
    var w := Select(preset, sliders);
    if IsPresetName(preset) {
      PresetsSumToOne(preset, sliders);
      NormaliseFixesUnitSum(w);
    } else {
      SumNonNegative(w);
      if Sum(w) != 0.0 {
        NormaliseSumsToOne(w);
        NormaliseInUnitRange(w);
      }
    }
  }
}
