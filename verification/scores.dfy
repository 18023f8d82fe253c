/** Standardisation and the composite index: each indicator column becomes
    `(x - mean) / std`, negated for the four indicators where a higher value
    means less opportunity, and `UOI_custom` is the weighted sum of the nine
    standardised columns. The standard deviation is pandas' default sample
    deviation (denominator n - 1); it is taken as a parameter whose square is
    the sample variance. */
module Scores {
  import opened Seqs

  /** The nine indicators, in the order of the weight vector. */
  const Indicators: seq<string> := [
    "Median_Household_Income", "Bachelors_Degree_Pct",
    "Unemployment_Rate", "No_Health_Insurance_Pct",
    "Median_Gross_Rent", "Broadband_Pct",
    "High_School_Grad_Pct", "Upward_Mobility", "Gini_Index"
  ]

  /** Indicators where a higher raw value means lower opportunity. */
  const Negated: set<string> := {"Unemployment_Rate", "No_Health_Insurance_Pct", "Median_Gross_Rent", "Gini_Index"}

  /** The first z-score loop of the original dashboard and its negated columns. */
  const FirstSix: seq<string> := [
    "Median_Household_Income", "Bachelors_Degree_Pct", "Unemployment_Rate",
    "No_Health_Insurance_Pct", "Median_Gross_Rent", "Broadband_Pct"
  ]
  const NegatedOfFirstSix: set<string> := {"Unemployment_Rate", "No_Health_Insurance_Pct", "Median_Gross_Rent"}

  /** The second z-score loop of the original dashboard and its negated column. */
  const LastThree: seq<string> := ["High_School_Grad_Pct", "Upward_Mobility", "Gini_Index"]
  const NegatedOfLastThree: set<string> := {"Gini_Index"}

  /** The two loops of one dashboard visit the same nine indicators, in the
      same order, with the same polarity as the single loop of the other. */
  lemma SplitLoopsAgree()
    ensures FirstSix + LastThree == Indicators
    ensures NegatedOfFirstSix + NegatedOfLastThree == Negated
    ensures forall c :: c in FirstSix ==> (c in NegatedOfFirstSix <==> c in Negated)
    ensures forall c :: c in LastThree ==> (c in NegatedOfLastThree <==> c in Negated)
    ensures forall c :: c in FirstSix ==> c !in LastThree
  {
  }

  /** Squared deviation of every value from the mean. */
  function DeviationSquares(xs: seq<real>): (r: seq<real>)
    requires |xs| > 0
    ensures |r| == |xs|
  {
    var m := Mean(xs);
    seq(|xs|, i requires 0 <= i < |xs| => (xs[i] - m) * (xs[i] - m))
  }

  /** Sum of squared deviations from the mean divided by n - 1. */
  function SampleVariance(xs: seq<real>): real
    requires |xs| >= 2
  {
    Sum(DeviationSquares(xs)) / ((|xs| - 1) as real)
  }

  /** `std` is the sample standard deviation of `xs`: positive, its square
      the sample variance. */
  predicate IsSampleStd(xs: seq<real>, std: real)
    requires |xs| >= 2
  {
    std > 0.0 && std * std == SampleVariance(xs)
  }

  /** One standardised value, negated for a "bad when high" indicator. */
  function ZScore(x: real, mean: real, std: real, negate: bool): real
    requires std != 0.0
  {
    if negate then -((x - mean) / std) else (x - mean) / std
  }

  /** The standardised column: every value against the column's own mean
      and standard deviation. */
  function ZScores(xs: seq<real>, std: real, negate: bool): (z: seq<real>)
    requires |xs| > 0 && std != 0.0
    ensures |z| == |xs|
    ensures ScaledBy(z, SignedDeviations(xs, negate), std)
  {
    var m := Mean(xs);
    var z := seq(|xs|, i requires 0 <= i < |xs| => ZScore(xs[i], m, std, negate));
    assert forall i :: 0 <= i < |xs| ==> z[i] * std == SignedDeviations(xs, negate)[i] by {
      forall i | 0 <= i < |xs| ensures z[i] * std == SignedDeviations(xs, negate)[i] {
        DivTimes(xs[i] - m, std);
      }
    }
    z
  }

  /** Each value's deviation from the mean, negated for a negated indicator. */
  function SignedDeviations(xs: seq<real>, negate: bool): (d: seq<real>)
    requires |xs| > 0
    ensures |d| == |xs|
  {
    var m := Mean(xs);
    seq(|xs|, i requires 0 <= i < |xs| => if negate then -(xs[i] - m) else xs[i] - m)
  }

  lemma DivTimes(a: real, s: real)
    requires s != 0.0
    ensures (a / s) * s == a && -(a / s) * s == -a
  {
  }

  /** The mean times the count is the total. */
  lemma MeanTimesCount(xs: seq<real>)
    requires |xs| > 0
    ensures Mean(xs) * (|xs| as real) == Sum(xs)
  {
  }

  /** Deviations from the mean sum to zero, whatever their common sign. */
  lemma {:induction false} SignedDeviationsSumZero(xs: seq<real>, negate: bool)
    requires |xs| > 0
    ensures Sum(SignedDeviations(xs, negate)) == 0.0
  {
    var d := SignedDeviations(xs, negate);
    var m := Mean(xs);
    var a := if negate then -1.0 else 1.0;
    forall i | 0 <= i < |xs| ensures d[i] == a * xs[i] + -a * m {
    }
    SumAffine(xs, d, a, -a * m);
    MeanTimesCount(xs);
    assert Sum(d) == a * Sum(xs) + -a * m * (|xs| as real);
  }

  /** If `z * t` is `e` elementwise, `e` sums to zero and `t` is not zero,
      then `z` sums to zero. */
  lemma {:induction false} SumZeroScaled(z: seq<real>, e: seq<real>, t: real)
    requires ScaledBy(z, e, t) && t != 0.0
    requires Sum(e) == 0.0
    ensures Sum(z) == 0.0
  {
    ScaledSum(e, z, t);
    var x := Sum(z);
    assert x * t == 0.0;
    ZeroFactor(x, t);
  }

  /** The standardised values of a column sum to zero, so their mean is 0. */
  lemma {:induction false} ZScoresSumZero(xs: seq<real>, std: real, negate: bool)
    requires |xs| > 0 && std != 0.0
    ensures Sum(ZScores(xs, std, negate)) == 0.0
    ensures Mean(ZScores(xs, std, negate)) == 0.0
  {
    SignedDeviationsSumZero(xs, negate);
    SumZeroScaled(ZScores(xs, std, negate), SignedDeviations(xs, negate), std);
  }

  lemma ZeroFactor(x: real, t: real)
    requires t != 0.0 && x * t == 0.0
    ensures x == 0.0
  {
    assert x == (x * t) / t;
  }

  lemma DivMonotone(a: real, b: real, s: real)
    requires s > 0.0
    ensures a / s <= b / s <==> a <= b
    ensures a / s < b / s <==> a < b
  {
    assert a == (a / s) * s && b == (b / s) * s;
    if a / s <= b / s { assert (a / s) * s <= (b / s) * s; }
    if a / s < b / s { assert (a / s) * s < (b / s) * s; }
  }

  /** Standardising keeps the order of the raw values of a positive
      indicator and reverses it for a negated one. */
  lemma ZScoresOrder(xs: seq<real>, std: real, negate: bool, i: nat, j: nat)
    requires |xs| > 0 && std > 0.0
    requires i < |xs| && j < |xs|
    ensures var z := ZScores(xs, std, negate);
      (!negate ==> (z[i] <= z[j] <==> xs[i] <= xs[j]) && (z[i] < z[j] <==> xs[i] < xs[j]))
      && (negate ==> (z[i] <= z[j] <==> xs[j] <= xs[i]) && (z[i] < z[j] <==> xs[j] < xs[i]))
  {
    var m := Mean(xs);
    DivMonotone(xs[i] - m, xs[j] - m, std);
  }

  /** With `std * std` equal to the sample variance, the standardised column
      has sample variance 1 (its squares sum to n - 1). */
  lemma {:induction false} ZScoresUnitVariance(xs: seq<real>, std: real, negate: bool)
    requires |xs| >= 2 && std > 0.0
    requires std * std == SampleVariance(xs)
    ensures SampleVariance(ZScores(xs, std, negate)) == 1.0
  {
    var z := ZScores(xs, std, negate);
    var n := (|xs| - 1) as real;
    var p := Sum(DeviationSquares(z));
    var q := Sum(Squares(z));
    var r := Sum(Squares(SignedDeviations(xs, negate)));
    var t := Sum(DeviationSquares(xs));
    assert std * std == t / n;
    ZScoresSumZero(xs, std, negate);
    CenteredSquares(z);
    assert p == q;
    SquaresOfSigned(xs, negate);
    assert r == t;
    ZScoresSquaresScaled(xs, std, negate);
    assert q * (std * std) == r;
    UnitRatio(p, q, r, t, std, n);
    assert SampleVariance(z) == p / n;
  }

  /** The squares of the standardised column, scaled by `std * std`, sum to
      the squares of the signed deviations. */
  lemma {:induction false} ZScoresSquaresScaled(xs: seq<real>, std: real, negate: bool)
    requires |xs| > 0 && std != 0.0
    ensures Sum(Squares(ZScores(xs, std, negate))) * (std * std) == Sum(Squares(SignedDeviations(xs, negate)))
  {
    SquaresScaled(ZScores(xs, std, negate), SignedDeviations(xs, negate), std);
  }

  /** Squared deviations of a column whose mean is zero are its squares. */
  lemma CenteredSquares(z: seq<real>)
    requires |z| > 0 && Mean(z) == 0.0
    ensures Sum(DeviationSquares(z)) == Sum(Squares(z))
  {
    assert DeviationSquares(z) == Squares(z);
  }

  /** Negating the deviations leaves their squares unchanged. */
  lemma SquaresOfSigned(xs: seq<real>, negate: bool)
    requires |xs| > 0
    ensures Sum(Squares(SignedDeviations(xs, negate))) == Sum(DeviationSquares(xs))
  {
    var d := SignedDeviations(xs, negate);
    var m := Mean(xs);
    forall i | 0 <= i < |xs| ensures Squares(d)[i] == DeviationSquares(xs)[i] {
      NegSquare(xs[i] - m);
      assert d[i] * d[i] == (xs[i] - m) * (xs[i] - m);
    }
    assert Squares(d) == DeviationSquares(xs);
  }

  lemma NegSquare(a: real)
    ensures -a * -a == a * a
  {
  }

  function Squares(s: seq<real>): (r: seq<real>)
    ensures |r| == |s|
  {
    seq(|s|, i requires 0 <= i < |s| => s[i] * s[i])
  }

  /** If `z * t` is `e` elementwise then the sum of the squares of `z` times
      `t * t` is the sum of the squares of `e`. */
  lemma {:induction false} SquaresScaled(z: seq<real>, e: seq<real>, t: real)
    requires ScaledBy(z, e, t)
    ensures Sum(Squares(z)) * (t * t) == Sum(Squares(e))
  {
    var zs := Squares(z);
    var es := Squares(e);
    forall i | 0 <= i < |z| ensures zs[i] * (t * t) == es[i] {
      SquareScaled(z[i], e[i], t);
    }
    ScaledSum(es, zs, t * t);
  }

  lemma SquareScaled(zi: real, ei: real, t: real)
    requires zi * t == ei
    ensures (zi * zi) * (t * t) == ei * ei
  {
    calc {
      (zi * zi) * (t * t);
      == (zi * t) * (zi * t);
      == ei * ei;
    }
  }

  /** The last step of the unit-variance argument, on plain numbers: with
      `p == q`, `q * std² == r`, `r == t` and `std² == t / n`, `p / n` is 1. */
  lemma UnitRatio(p: real, q: real, r: real, t: real, std: real, n: real)
    requires n > 0.0 && std != 0.0
    requires p == q && q * (std * std) == r && r == t && std * std == t / n
    ensures p / n == 1.0
  {
    assert t == (std * std) * n;
    assert ((p - n) * std) * std == 0.0;
    ZeroFactor((p - n) * std, std);
    ZeroFactor(p - n, std);
  }

  lemma DotFrom(z: seq<real>, w: seq<real>, k: nat)
    requires |z| == |w| && k < |z|
    ensures Dot(z[k..], w[k..]) == z[k] * w[k] + Dot(z[k + 1..], w[k + 1..])
  {
    assert z[k..][1..] == z[k + 1..];
    assert w[k..][1..] == w[k + 1..];
  }

  /** `UOI_custom` for one row, written as the source writes it: the nine
      standardised values, each times its weight, added up in indicator
      order. It is the weighted sum `Dot(z, w)`. */
  function Uoi(z: seq<real>, w: seq<real>): (u: real)
    requires |z| == 9 && |w| == 9
    ensures u == Dot(z, w)
  {
    assert z[0..] == z && w[0..] == w;
    assert z[9..] == [] && w[9..] == [];
    DotFrom(z, w, 0); DotFrom(z, w, 1); DotFrom(z, w, 2); DotFrom(z, w, 3); DotFrom(z, w, 4);
    DotFrom(z, w, 5); DotFrom(z, w, 6); DotFrom(z, w, 7); DotFrom(z, w, 8);
    z[0] * w[0] + z[1] * w[1] + z[2] * w[2] + z[3] * w[3] + z[4] * w[4]
    + z[5] * w[5] + z[6] * w[6] + z[7] * w[7] + z[8] * w[8]
  }

  /** When all nine standardised values equal `c` and the weights sum to 1,
      the composite is `c`. */
  lemma {:induction false} UoiOfConstant(z: seq<real>, w: seq<real>, c: real)
    requires |z| == 9 && |w| == 9
    requires forall i :: 0 <= i < 9 ==> z[i] == c
    requires Sum(w) == 1.0
    ensures Uoi(z, w) == c
  {
    DotConstant(z, w, c);
  }

  /** For a fixed row the composite is linear in each standardised value:
      raising value `k` by `d` raises the composite by its weight times `d`. */
  lemma {:induction false} UoiLinearInValue(z: seq<real>, w: seq<real>, k: nat, d: real)
    requires |z| == 9 && |w| == 9 && k < 9
    ensures Uoi(z[k := z[k] + d], w) == Uoi(z, w) + w[k] * d
    ensures w[k] > 0.0 && d > 0.0 ==> Uoi(z[k := z[k] + d], w) > Uoi(z, w)
  {
    DotUpdateValue(z, w, k, d);
    if w[k] > 0.0 && d > 0.0 {
      assert w[k] * d > 0.0;
    }
  }

  /** For a fixed row the composite is linear in each weight: raising weight
      `k` by `d` changes the composite by the standardised value times `d`,
      so it rises when that value is positive. */
  lemma {:induction false} UoiLinearInWeight(z: seq<real>, w: seq<real>, k: nat, d: real)
    requires |z| == 9 && |w| == 9 && k < 9
    ensures Uoi(z, w[k := w[k] + d]) == Uoi(z, w) + z[k] * d
    ensures z[k] > 0.0 && d > 0.0 ==> Uoi(z, w[k := w[k] + d]) > Uoi(z, w)
  {
    DotUpdateWeight(z, w, k, d);
    if z[k] > 0.0 && d > 0.0 {
      assert z[k] * d > 0.0;
    }
  }
}
