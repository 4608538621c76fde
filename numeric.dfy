/**
 * Arithmetic shared by the analyzers: Python's `min`/`max` on two numbers, clamping, `abs`,
 * `int()` (truncation toward zero), `sum`, the arithmetic mean and the population and sample
 * variance.  Floating point is modelled by `real`; `round(...)` at output sites is not modelled.
 */
module Numeric {
  import opened Wrappers

  function Min(a: real, b: real): (r: real)
    ensures r <= a && r <= b
    ensures r == a || r == b
  {
    if a <= b then a else b
  }

  function Max(a: real, b: real): (r: real)
    ensures r >= a && r >= b
    ensures r == a || r == b
  {
    if a >= b then a else b
  }

  /** `max(lo, min(hi, x))`. */
  function Clamp(x: real, lo: real, hi: real): (r: real)
    requires lo <= hi
    ensures lo <= r <= hi
    ensures lo <= x <= hi ==> r == x
    ensures x < lo ==> r == lo
    ensures x > hi ==> r == hi
  {
    Max(lo, Min(hi, x))
  }

  /** `max(lo, min(x, hi))` on integers. */
  function ClampInt(x: int, lo: int, hi: int): (r: int)
    requires lo <= hi
    ensures lo <= r <= hi
    ensures lo <= x <= hi ==> r == x
    ensures x < lo ==> r == lo
    ensures x > hi ==> r == hi
  {
    if x < lo then lo else if x > hi then hi else x
  }

  function Abs(x: real): (r: real)
    ensures r >= 0.0
    ensures r == x || r == -x
  {
    if x >= 0.0 then x else -x
  }

  /** Python's `int(x)` on a float: the integer part, rounding toward zero. */
  function Trunc(x: real): (n: int)
    ensures x >= 0.0 ==> 0 <= n && n as real <= x < n as real + 1.0
    ensures x < 0.0 ==> n <= 0 && n as real - 1.0 < x <= n as real
  {
    if x >= 0.0 then x.Floor else -((-x).Floor)
  }

  lemma TruncMonotone(x: real, y: real)
    requires x <= y
    ensures Trunc(x) <= Trunc(y)
  {
  }

  lemma MulNonNegative(x: real, y: real)
    requires 0.0 <= x && 0.0 <= y
    ensures 0.0 <= x * y
  {
  }

  lemma MulPositive(x: real, y: real)
    requires 0.0 < x && 0.0 < y
    ensures 0.0 < x * y
  {
  }

  lemma SignOfProduct(x: real, y: real)
    requires 0.0 < y && 0.0 < x * y
    ensures 0.0 < x
  {
    if x <= 0.0 {
      MulNonNegative(-x, y);
    }
  }

  /** Python's `sum(...)`, accumulated from the left. */
  function Sum(s: seq<real>): real
  {
    if s == [] then 0.0 else Sum(s[..|s| - 1]) + s[|s| - 1]
  }

  function Mean(s: seq<real>): real
    requires s != []
  {
    Sum(s) / |s| as real
  }

  /** A sequence of integers as floats, as Python does when it divides their sum. */
  function Reals(s: seq<int>): (r: seq<real>)
    ensures |r| == |s|
    ensures forall i :: 0 <= i < |s| ==> r[i] == s[i] as real
  {
    if s == [] then [] else Reals(s[..|s| - 1]) + [s[|s| - 1] as real]
  }

  function IntSum(s: seq<int>): int
  {
    if s == [] then 0 else IntSum(s[..|s| - 1]) + s[|s| - 1]
  }

  /** `sum(values) / len(values)` over integers, which Python divides as floats. */
  function IntMean(s: seq<int>): real
    requires s != []
  {
    IntSum(s) as real / |s| as real
  }

  /** `sum(values) / len(values) if values else None`. */
  function OptionalMean(values: seq<int>): (m: Option<real>)
    ensures m.None? <==> values == []
  {
    if values == [] then None else Some(IntMean(values))
  }

  lemma IntMeanIsMean(s: seq<int>)
    requires s != []
    ensures IntMean(s) == Mean(Reals(s))
  {
    SumReals(s);
  }

  /** The mean of integers lies between any bounds of the values. */
  lemma IntMeanBounds(s: seq<int>, lo: real, hi: real)
    requires s != []
    requires forall i :: 0 <= i < |s| ==> lo <= s[i] as real <= hi
    ensures lo <= IntMean(s) <= hi
  {
    IntMeanIsMean(s);
    MeanBounds(Reals(s), lo, hi);
  }

  /** `sum(x * d for first k pairs)`. */
  function WeightedSum(xs: seq<real>, ds: seq<real>, k: nat): real
    requires k <= |xs| && k <= |ds|
  {
    if k == 0 then 0.0 else WeightedSum(xs, ds, k - 1) + xs[k - 1] * ds[k - 1]
  }

  /** The sum of the first `k` values. */
  function PrefixSum(ds: seq<real>, k: nat): real
    requires k <= |ds|
  {
    if k == 0 then 0.0 else PrefixSum(ds, k - 1) + ds[k - 1]
  }

  lemma StepAtLeast(lo: real, l: real, m: real, x: real, d: real)
    requires lo * m <= l && lo <= x && 0.0 <= d
    ensures lo * (m + d) <= l + x * d
  {
    assert lo * d <= x * d;
  }

  lemma StepAtMost(hi: real, l: real, m: real, x: real, d: real)
    requires l <= hi * m && x <= hi && 0.0 <= d
    ensures l + x * d <= hi * (m + d)
  {
    assert x * d <= hi * d;
  }

  /** With non-negative weights, the weighted sum is at least the smallest value times the total weight. */
  lemma {:induction false} WeightedSumAtLeast(xs: seq<real>, ds: seq<real>, k: nat, lo: real)
    requires k <= |xs| && k <= |ds|
    requires forall i :: 0 <= i < |xs| ==> lo <= xs[i]
    requires forall i :: 0 <= i < k ==> 0.0 <= ds[i]
    ensures lo * PrefixSum(ds, k) <= WeightedSum(xs, ds, k)
  {
    if k > 0 {
      WeightedSumAtLeast(xs, ds, k - 1, lo);
      StepAtLeast(lo, WeightedSum(xs, ds, k - 1), PrefixSum(ds, k - 1), xs[k - 1], ds[k - 1]);
    }
  }

  /** With non-negative weights, the weighted sum is at most the largest value times the total weight. */
  lemma {:induction false} WeightedSumAtMost(xs: seq<real>, ds: seq<real>, k: nat, hi: real)
    requires k <= |xs| && k <= |ds|
    requires forall i :: 0 <= i < |xs| ==> xs[i] <= hi
    requires forall i :: 0 <= i < k ==> 0.0 <= ds[i]
    ensures WeightedSum(xs, ds, k) <= hi * PrefixSum(ds, k)
  {
    if k > 0 {
      WeightedSumAtMost(xs, ds, k - 1, hi);
      StepAtMost(hi, WeightedSum(xs, ds, k - 1), PrefixSum(ds, k - 1), xs[k - 1], ds[k - 1]);
    }
  }

  lemma SumAppend(s: seq<real>, x: real)
    ensures Sum(s + [x]) == Sum(s) + x
  {
    assert (s + [x])[..|s|] == s;
  }

  lemma IntSumAppend(s: seq<int>, x: int)
    ensures IntSum(s + [x]) == IntSum(s) + x
  {
    assert (s + [x])[..|s|] == s;
  }

  lemma {:induction false} SumConcat(a: seq<real>, b: seq<real>)
    ensures Sum(a + b) == Sum(a) + Sum(b)
    decreases |b|
  {
    if b == [] {
      assert a + b == a;
    } else {
      var b' := b[..|b| - 1];
      assert a + b == (a + b') + [b[|b| - 1]];
      SumAppend(a + b', b[|b| - 1]);
      SumConcat(a, b');
      assert b == b' + [b[|b| - 1]];
      SumAppend(b', b[|b| - 1]);
    }
  }

  lemma {:induction false} IntSumConcat(a: seq<int>, b: seq<int>)
    ensures IntSum(a + b) == IntSum(a) + IntSum(b)
    decreases |b|
  {
    if b == [] {
      assert a + b == a;
    } else {
      var b' := b[..|b| - 1];
      assert a + b == (a + b') + [b[|b| - 1]];
      IntSumAppend(a + b', b[|b| - 1]);
      IntSumConcat(a, b');
      assert b == b' + [b[|b| - 1]];
      IntSumAppend(b', b[|b| - 1]);
    }
  }

  lemma {:induction false} IntSumLower(s: seq<int>, lo: int)
    requires forall i :: 0 <= i < |s| ==> lo <= s[i]
    ensures |s| * lo <= IntSum(s)
  {
    if s != [] {
      IntSumLower(s[..|s| - 1], lo);
      assert (|s| - 1) * lo + lo == |s| * lo;
    }
  }

  lemma {:induction false} IntSumUpper(s: seq<int>, hi: int)
    requires forall i :: 0 <= i < |s| ==> s[i] <= hi
    ensures IntSum(s) <= |s| * hi
  {
    if s != [] {
      IntSumUpper(s[..|s| - 1], hi);
      assert (|s| - 1) * hi + hi == |s| * hi;
    }
  }

  /** The sum depends only on the values, not on their order. */
  lemma {:induction false} IntSumPermutation(a: seq<int>, b: seq<int>)
    requires multiset(a) == multiset(b)
    ensures IntSum(a) == IntSum(b)
    decreases |a|
  {
    if a != [] {
      var x := a[|a| - 1];
      var a' := a[..|a| - 1];
      assert a == a' + [x];
      assert x in multiset(b);
      var j :| 0 <= j < |b| && b[j] == x;
      var b' := b[..j] + b[j + 1..];
      assert b == b[..j] + [x] + b[j + 1..];
      assert multiset(b') == multiset(b) - multiset{x};
      assert multiset(a') == multiset(a) - multiset{x};
      IntSumPermutation(a', b');
      IntSumConcat(b[..j] + [x], b[j + 1..]);
      IntSumConcat(b[..j], [x]);
      IntSumConcat(b[..j], b[j + 1..]);
      IntSumAppend(a', x);
    }
  }

  /** Summing integers and converting agree. */
  lemma {:induction false} SumReals(s: seq<int>)
    ensures Sum(Reals(s)) == IntSum(s) as real
  {
    if s != [] {
      SumReals(s[..|s| - 1]);
      assert Reals(s)[..|s| - 1] == Reals(s[..|s| - 1]);
    }
  }

  lemma {:induction false} SumBounds(s: seq<real>, lo: real, hi: real)
    requires forall i :: 0 <= i < |s| ==> lo <= s[i] <= hi
    ensures |s| as real * lo <= Sum(s) <= |s| as real * hi
  {
    if s != [] {
      SumBounds(s[..|s| - 1], lo, hi);
    }
  }

  lemma {:induction false} SumNonNegative(s: seq<real>)
    requires forall i :: 0 <= i < |s| ==> 0.0 <= s[i]
    ensures 0.0 <= Sum(s)
  {
    if s != [] {
      SumNonNegative(s[..|s| - 1]);
    }
  }

  lemma {:induction false} SumConstant(s: seq<real>, c: real)
    requires forall i :: 0 <= i < |s| ==> s[i] == c
    ensures Sum(s) == |s| as real * c
  {
    if s != [] {
      SumConstant(s[..|s| - 1], c);
    }
  }

  /** The mean lies between any lower and upper bound of the values. */
  lemma MeanBounds(s: seq<real>, lo: real, hi: real)
    requires s != []
    requires forall i :: 0 <= i < |s| ==> lo <= s[i] <= hi
    ensures lo <= Mean(s) <= hi
  {
    SumBounds(s, lo, hi);
    var n := |s| as real;
    assert Sum(s) / n >= lo by {
      assert n * lo <= Sum(s);
    }
    assert Sum(s) / n <= hi by {
      assert Sum(s) <= n * hi;
    }
  }

  lemma MeanConstant(s: seq<real>, c: real)
    requires s != []
    requires forall i :: 0 <= i < |s| ==> s[i] == c
    ensures Mean(s) == c
  {
    SumConstant(s, c);
  }

  /** Python's `min(...)` over a non-empty sequence. */
  function SeqMin(s: seq<real>): (m: real)
    requires s != []
    ensures forall i :: 0 <= i < |s| ==> m <= s[i]
    ensures exists i :: 0 <= i < |s| && m == s[i]
  {
    if |s| == 1 then s[0]
    else
      var m' := SeqMin(s[..|s| - 1]);
      assert forall i :: 0 <= i < |s| - 1 ==> s[..|s| - 1][i] == s[i];
      Min(m', s[|s| - 1])
  }

  /** Python's `max(...)` over a non-empty sequence. */
  function SeqMax(s: seq<real>): (m: real)
    requires s != []
    ensures forall i :: 0 <= i < |s| ==> s[i] <= m
    ensures exists i :: 0 <= i < |s| && m == s[i]
  {
    if |s| == 1 then s[0]
    else
      var m' := SeqMax(s[..|s| - 1]);
      assert forall i :: 0 <= i < |s| - 1 ==> s[..|s| - 1][i] == s[i];
      Max(m', s[|s| - 1])
  }

  /** The sum of squared deviations from the mean. */
  function SquaredDeviations(s: seq<real>, mean: real): real
  {
    if s == [] then 0.0
    else SquaredDeviations(s[..|s| - 1], mean) + (s[|s| - 1] - mean) * (s[|s| - 1] - mean)
  }

  /** Population variance: the squared deviations divided by `n`. */
  function Variance(s: seq<real>): real
    requires s != []
  {
    SquaredDeviations(s, Mean(s)) / |s| as real
  }

  /** Sample variance, as `statistics.stdev` uses: divided by `n - 1`. */
  function SampleVariance(s: seq<real>): real
    requires |s| >= 2
  {
    SquaredDeviations(s, Mean(s)) / (|s| - 1) as real
  }

  predicate AllEqual(s: seq<real>)
  {
    forall i, j :: 0 <= i < |s| && 0 <= j < |s| ==> s[i] == s[j]
  }

  lemma SquareCases(d: real)
    ensures d == 0.0 || d * d > 0.0
  {
    if d < 0.0 {
      var e := -d;
      assert e * e > 0.0;
      assert d * d == e * e;
    }
  }

  lemma {:induction false} SquaredDeviationsNonNegative(s: seq<real>, m: real)
    ensures 0.0 <= SquaredDeviations(s, m)
  {
    if s != [] {
      SquaredDeviationsNonNegative(s[..|s| - 1], m);
      SquareCases(s[|s| - 1] - m);
    }
  }

  lemma {:induction false} SquaredDeviationsOfConstant(s: seq<real>, m: real)
    requires forall i :: 0 <= i < |s| ==> s[i] == m
    ensures SquaredDeviations(s, m) == 0.0
  {
    if s != [] {
      SquaredDeviationsOfConstant(s[..|s| - 1], m);
      var d := s[|s| - 1] - m;
      assert d == 0.0;
      assert d * d == 0.0;
    }
  }

  lemma VarianceNonNegative(s: seq<real>)
    requires s != []
    ensures 0.0 <= Variance(s)
    ensures |s| >= 2 ==> 0.0 <= SampleVariance(s)
  {
    SquaredDeviationsNonNegative(s, Mean(s));
  }

  /** Equal values have no spread, in either variance. */
  lemma AllEqualVarianceZero(s: seq<real>)
    requires s != [] && AllEqual(s)
    ensures Variance(s) == 0.0
    ensures |s| >= 2 ==> SampleVariance(s) == 0.0
  {
    MeanConstant(s, s[0]);
    SquaredDeviationsOfConstant(s, s[0]);
  }

  /**
   * The square root the source takes with `** 0.5` and inside `statistics.stdev` is a
   * floating-point library call; the model receives it as a parameter of which it knows
   * only that it returns the non-negative root, which is zero exactly at zero.
   */
  ghost predicate IsSqrt(sqrt: real -> real)
  {
    forall x {:trigger sqrt(x)} :: 0.0 <= x ==>
      0.0 <= sqrt(x) && sqrt(x) * sqrt(x) == x && (sqrt(x) == 0.0 <==> x == 0.0)
  }


  lemma SumSingleton(x: real)
    ensures Sum([x]) == x
  {
    assert [x][..0] == [];
  }

  lemma IntSumSingleton(x: int)
    ensures IntSum([x]) == x
  {
    assert [x][..0] == [];
  }


  /** A share of a positive whole: `0 <= x <= y` gives `0 <= x / y <= 1`. */
  lemma RatioBounds(x: real, y: real)
    requires 0.0 <= x <= y && 0.0 < y
    ensures 0.0 <= x / y <= 1.0
  {
    var q := x / y;
    assert q * y == x;
    if q < 0.0 {
      MulPositive(-q, y);
    }
    if q > 1.0 {
      MulPositive(q - 1.0, y);
    }
  }
}
