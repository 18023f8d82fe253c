/** The Some/None wrapper used for a lookup that may find nothing
    and for a computation that may fail. */
module Wrappers {
  datatype Option<T> = None | Some(value: T)
}

/** Sums, means, weighted sums and order-preserving filters over sequences:
    the arithmetic that pandas performs column-wise (`sum`, `mean`, a masked
    selection) stated over exact reals. */
module Seqs {

  /** Sum of the elements, left to right. */
  function Sum(s: seq<real>): real
  {
    if s == [] then 0.0 else s[0] + Sum(s[1..])
  }

  lemma {:induction false} SumAppend(a: seq<real>, b: seq<real>)
    ensures Sum(a + b) == Sum(a) + Sum(b)
  {
    if a == [] {
      assert a + b == b;
    } else {
      assert (a + b)[1..] == a[1..] + b;
      SumAppend(a[1..], b);
    }
  }

  /** Summing an affine image: if every `ys[i]` is `a * xs[i] + b`, the sum of
      `ys` is `a` times the sum of `xs` plus `|xs|` copies of `b`. */
  lemma {:induction false} SumAffine(xs: seq<real>, ys: seq<real>, a: real, b: real)
    requires |xs| == |ys|
    requires forall i :: 0 <= i < |xs| ==> ys[i] == a * xs[i] + b
    ensures Sum(ys) == a * Sum(xs) + b * (|xs| as real)
  {
    if xs != [] {
      var n := (|xs| - 1) as real;
      SumAffine(xs[1..], ys[1..], a, b);
      calc {
        Sum(ys);
        == ys[0] + Sum(ys[1..]);
        == (a * xs[0] + b) + (a * Sum(xs[1..]) + b * n);
        == a * (xs[0] + Sum(xs[1..])) + b * (n + 1.0);
      }
    }
  }

  /** `r` times `t` is `w`, element by element. */
  predicate ScaledBy(r: seq<real>, w: seq<real>, t: real)
  {
    |r| == |w| && forall i :: 0 <= i < |r| ==> r[i] * t == w[i]
  }

  /** If every `r[i]` times `t` is `w[i]`, the sum of `r` times `t` is the
      sum of `w`. */
  lemma {:induction false} ScaledSum(w: seq<real>, r: seq<real>, t: real)
    requires ScaledBy(r, w, t)
    ensures Sum(r) * t == Sum(w)
  {
    if w != [] {
      ScaledSum(w[1..], r[1..], t);
      assert Sum(r) * t == r[0] * t + Sum(r[1..]) * t;
    }
  }

  lemma CancelFactor(x: real, t: real)
    requires t != 0.0 && x * t == t
    ensures x == 1.0
  {
    assert x == (x * t) / t;
  }

  /** A sum of non-negative values is non-negative, and it is zero exactly
      when every value is zero. */
  lemma {:induction false} SumNonNegative(s: seq<real>)
    requires forall i :: 0 <= i < |s| ==> s[i] >= 0.0
    ensures Sum(s) >= 0.0
    ensures Sum(s) == 0.0 <==> forall i :: 0 <= i < |s| ==> s[i] == 0.0
  {
    if s != [] {
      SumNonNegative(s[1..]);
      if Sum(s) == 0.0 {
        forall i | 0 <= i < |s| ensures s[i] == 0.0 {
          if i > 0 { assert s[i] == s[1..][i - 1]; }
        }
      }
    }
  }

  /** Lower and upper bounds on every element bound the sum. */
  lemma {:induction false} SumBounds(s: seq<real>, lo: real, hi: real)
    requires forall i :: 0 <= i < |s| ==> lo <= s[i] <= hi
    ensures lo * (|s| as real) <= Sum(s) <= hi * (|s| as real)
  {
    if s != [] {
      SumBounds(s[1..], lo, hi);
    }
  }

  /** Arithmetic mean of a nonempty sequence (pandas `Series.mean`). */
  function Mean(s: seq<real>): real
    requires |s| > 0
  {
    Sum(s) / (|s| as real)
  }

  /** The mean lies between any lower and upper bound of the elements. */
  lemma MeanBounds(s: seq<real>, lo: real, hi: real)
    requires |s| > 0
    requires forall i :: 0 <= i < |s| ==> lo <= s[i] <= hi
    ensures lo <= Mean(s) <= hi
  {
    SumBounds(s, lo, hi);
    var n := |s| as real;
    assert Mean(s) * n == Sum(s);
  }

  /** Weighted sum of `z` with weights `w`. */
  function Dot(z: seq<real>, w: seq<real>): real
    requires |z| == |w|
  {
    if z == [] then 0.0 else z[0] * w[0] + Dot(z[1..], w[1..])
  }

  /** When every value equals `c`, the weighted sum is `c` times the total
      weight. */
  lemma {:induction false} DotConstant(z: seq<real>, w: seq<real>, c: real)
    requires |z| == |w|
    requires forall i :: 0 <= i < |z| ==> z[i] == c
    ensures Dot(z, w) == c * Sum(w)
  {
    if z != [] {
      DotConstant(z[1..], w[1..], c);
    }
  }

  /** Changing one value by `d` changes the weighted sum by its weight times `d`. */
  lemma {:induction false} DotUpdateValue(z: seq<real>, w: seq<real>, k: nat, d: real)
    requires |z| == |w| && k < |z|
    ensures Dot(z[k := z[k] + d], w) == Dot(z, w) + w[k] * d
  {
    if k == 0 {
      assert z[k := z[k] + d][1..] == z[1..];
    } else {
      assert z[k := z[k] + d][1..] == z[1..][k - 1 := z[k] + d];
      DotUpdateValue(z[1..], w[1..], k - 1, d);
    }
  }

  /** Changing one weight by `d` changes the weighted sum by its value times `d`. */
  lemma {:induction false} DotUpdateWeight(z: seq<real>, w: seq<real>, k: nat, d: real)
    requires |z| == |w| && k < |z|
    ensures Dot(z, w[k := w[k] + d]) == Dot(z, w) + z[k] * d
  {
    if k == 0 {
      assert w[k := w[k] + d][1..] == w[1..];
    } else {
      assert w[k := w[k] + d][1..] == w[1..][k - 1 := w[k] + d];
      DotUpdateWeight(z[1..], w[1..], k - 1, d);
    }
  }

  /** The weighted sum is additive in the values: weighting `a + b`
      elementwise is weighting `a` plus weighting `b`. */
  lemma {:induction false} DotAdd(a: seq<real>, b: seq<real>, c: seq<real>, w: seq<real>)
    requires |a| == |w| && |b| == |w| && |c| == |w|
    requires forall i :: 0 <= i < |w| ==> c[i] == a[i] + b[i]
    ensures Dot(c, w) == Dot(a, w) + Dot(b, w)
  {
    if w != [] {
      DotAdd(a[1..], b[1..], c[1..], w[1..]);
    }
  }

  /** The elements of `s` that satisfy `p`, in their original order. */
  function Filter<T(!new)>(s: seq<T>, p: T -> bool): (r: seq<T>)
    ensures |r| <= |s|
    ensures forall x :: x in r <==> x in s && p(x)
  {
    if s == [] then []
    else (if p(s[0]) then [s[0]] else []) + Filter(s[1..], p)
  }

  /** Filtering commutes with concatenation, so the kept elements keep their
      relative order. */
  lemma {:induction false} FilterAppend<T(!new)>(a: seq<T>, b: seq<T>, p: T -> bool)
    ensures Filter(a + b, p) == Filter(a, p) + Filter(b, p)
  {
    if a == [] {
      assert a + b == b;
    } else {
      assert (a + b)[1..] == a[1..] + b;
      FilterAppend(a[1..], b, p);
    }
  }

  /** Nothing is dropped when every element satisfies `p`. */
  lemma {:induction false} FilterAll<T(!new)>(s: seq<T>, p: T -> bool)
    requires forall i :: 0 <= i < |s| ==> p(s[i])
    ensures Filter(s, p) == s
  {
    if s != [] {
      FilterAll(s[1..], p);
    }
  }

  /** Number of elements that satisfy `p`. */
  function Count<T>(s: seq<T>, p: T -> bool): nat
  {
    if s == [] then 0 else (if p(s[0]) then 1 else 0) + Count(s[1..], p)
  }

  /** The filter keeps exactly as many elements as satisfy `p`; the others
      are the ones removed. */
  lemma {:induction false} FilterLength<T(!new)>(s: seq<T>, p: T -> bool)
    ensures |Filter(s, p)| == Count(s, p)
  {
    if s != [] {
      FilterLength(s[1..], p);
    }
  }
}
