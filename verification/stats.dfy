/**
 * The order statistics and moments numpy computes for the outlier
 * detectors: `np.mean`, `np.std` (population, ddof = 0, kept squared so
 * that no square root is needed), `np.percentile` with its default linear
 * interpolation, and `np.median`.
 */
module Stats {
  import opened Sorting

  function RealLe(a: real, b: real): bool { a <= b }

  lemma {:induction false} RealLeIsTotalPreorder()
    ensures TotalPreorder(RealLe)
  {
  }

  ghost predicate Ascending(s: seq<real>) {
    forall i, j :: 0 <= i < j < |s| ==> s[i] <= s[j]
  }

  /** The values in ascending order, as numpy sorts them before interpolating. */
  function SortReals(s: seq<real>): (r: seq<real>)
    ensures multiset(r) == multiset(s) && |r| == |s|
    ensures Ascending(r)
  {
    RealLeIsTotalPreorder();
    var r := Sort(RealLe, s);
    assert SortedBy(RealLe, r);
    r
  }

  function Sum(s: seq<real>): real {
    if s == [] then 0.0 else s[0] + Sum(s[1..])
  }

  function SumSquares(s: seq<real>): real {
    if s == [] then 0.0 else s[0] * s[0] + SumSquares(s[1..])
  }

  /** `np.mean`. */
  function Mean(s: seq<real>): real
    requires |s| > 0
  {
    Sum(s) / |s| as real
  }

  /** The deviations `x - m` of every value from `m`. */
  function Deviations(s: seq<real>, m: real): (d: seq<real>)
    ensures |d| == |s|
  {
    seq(|s|, k requires 0 <= k < |s| => s[k] - m)
  }

  /** `np.std(s) ** 2`: the population variance. */
  function Variance(s: seq<real>): real
    requires |s| > 0
  {
    SumSquares(Deviations(s, Mean(s))) / |s| as real
  }

  /**
   * `np.percentile(sorted, p)` with linear interpolation: the value at the
   * real position `p/100 * (n - 1)`, interpolated between its neighbours.
   */
  function Percentile(sorted: seq<real>, p: int): real
    requires |sorted| > 0 && 0 <= p <= 100
  {
    var n := |sorted|;
    var lo := PercentileIndex(n, p);
    var frac := (p * (n - 1) % 100) as real / 100.0;
    if lo + 1 < n then sorted[lo] + frac * (sorted[lo + 1] - sorted[lo]) else sorted[lo]
  }

  /** The whole part of `p/100 * (n - 1)`. */
  function PercentileIndex(n: int, p: int): (lo: int)
    requires n > 0 && 0 <= p <= 100
    ensures 0 <= lo < n
    ensures lo + 1 == n ==> p * (n - 1) % 100 == 0
  {
    ScaleMonotone(0, p, n - 1);
    ScaleMonotone(p, 100, n - 1);
    DivBounds(p * (n - 1), n - 1);
    p * (n - 1) / 100
  }

  /** At most `k` whole hundreds fit in `a <= 100 k`, and exactly `k` only with nothing left over. */
  lemma {:induction false} DivBounds(a: int, k: int)
    requires 0 <= a <= 100 * k
    ensures 0 <= a / 100 <= k
    ensures a / 100 == k ==> a % 100 == 0
  {
    assert a == 100 * (a / 100) + a % 100;
  }

  /** `np.median`: the middle value, or the mean of the two middle values. */
  function Median(s: seq<real>): real
    requires |s| > 0
  {
    var t := SortReals(s);
    var n := |t|;
    if n % 2 == 1 then t[n / 2] else (t[n / 2 - 1] + t[n / 2]) / 2.0
  }

  /** `np.median(|x - median|)`: the median absolute deviation. */
  function MedianAbsoluteDeviation(s: seq<real>): real
    requires |s| > 0
  {
    var m := Median(s);
    Median(seq(|s|, k requires 0 <= k < |s| => Abs(s[k] - m)))
  }

  function Abs(x: real): real { if x < 0.0 then -x else x }

  // ---------------------------------------------------------------------
  // Properties of the statistics.
  // ---------------------------------------------------------------------

  /** An interpolated percentile lies between its two neighbouring order statistics. */
  lemma {:induction false} PercentileBetweenNeighbours(sorted: seq<real>, p: int)
    requires |sorted| > 0 && 0 <= p <= 100 && Ascending(sorted)
    ensures var lo := PercentileIndex(|sorted|, p);
            sorted[lo] <= Percentile(sorted, p)
            && (lo + 1 < |sorted| ==> Percentile(sorted, p) <= sorted[lo + 1])
            && (lo + 1 == |sorted| ==> Percentile(sorted, p) == sorted[lo])
  {
    var n := |sorted|;
    var lo := PercentileIndex(n, p);
    var frac := (p * (n - 1) % 100) as real / 100.0;
    assert 0.0 <= frac < 1.0;
    if lo + 1 < n {
      var gap := sorted[lo + 1] - sorted[lo];
      assert gap >= 0.0;
      assert 0.0 <= frac * gap <= gap;
      assert Percentile(sorted, p) == sorted[lo] + frac * gap;
    }
  }

  /** Percentiles lie within the range of the data. */
  lemma {:induction false} PercentileWithinRange(sorted: seq<real>, p: int)
    requires |sorted| > 0 && 0 <= p <= 100 && Ascending(sorted)
    ensures sorted[0] <= Percentile(sorted, p) <= sorted[|sorted| - 1]
  {
    PercentileBetweenNeighbours(sorted, p);
  }

  /** A higher percentile is never smaller: in particular Q1 <= Q3. */
  lemma {:induction false} PercentileMonotone(sorted: seq<real>, p: int, q: int)
    requires |sorted| > 0 && 0 <= p <= q <= 100 && Ascending(sorted)
    ensures Percentile(sorted, p) <= Percentile(sorted, q)
  {
    var n := |sorted|;
    PercentileBetweenNeighbours(sorted, p);
    PercentileBetweenNeighbours(sorted, q);
    var lp := PercentileIndex(n, p);
    var lq := PercentileIndex(n, q);
    PercentileIndexMonotone(n, p, q);
    if lp == lq && lp + 1 < n {
      var fp := (p * (n - 1) % 100) as real / 100.0;
      var fq := (q * (n - 1) % 100) as real / 100.0;
      assert fp <= fq;
      var gap := sorted[lp + 1] - sorted[lp];
      assert gap >= 0.0;
      assert fp * gap <= fq * gap;
    }
  }

  lemma {:induction false} PercentileIndexMonotone(n: int, p: int, q: int)
    requires n > 0 && 0 <= p <= q <= 100
    ensures PercentileIndex(n, p) <= PercentileIndex(n, q)
    ensures PercentileIndex(n, p) == PercentileIndex(n, q)
            ==> p * (n - 1) % 100 <= q * (n - 1) % 100
  {
    ScaleMonotone(p, q, n - 1);
    DivModMonotone(p * (n - 1), q * (n - 1));
  }

  lemma {:induction false} ScaleMonotone(p: int, q: int, k: int)
    requires p <= q && k >= 0
    ensures p * k <= q * k
  {
    assert q * k - p * k == (q - p) * k;
  }

  /** Whole hundreds and the remainder both grow with a non-negative number. */
  lemma {:induction false} DivModMonotone(a: int, b: int)
    requires 0 <= a <= b
    ensures a / 100 <= b / 100
    ensures a / 100 == b / 100 ==> a % 100 <= b % 100
  {
    assert a == 100 * (a / 100) + a % 100;
    assert b == 100 * (b / 100) + b % 100;
  }

  lemma {:induction false} SquareNonnegative(x: real)
    ensures x * x >= 0.0
  {
    if x < 0.0 {
      assert x * x == (-x) * (-x);
    }
  }

  // ---------------------------------------------------------------------
  // Constant series.
  // ---------------------------------------------------------------------

  ghost predicate Constant(s: seq<real>, c: real) {
    forall k :: 0 <= k < |s| ==> s[k] == c
  }

  lemma {:induction false} SumConstant(s: seq<real>, c: real)
    requires Constant(s, c)
    ensures Sum(s) == |s| as real * c
  {
    if s != [] {
      SumConstant(s[1..], c);
    }
  }

  lemma {:induction false} SumSquaresZero(s: seq<real>)
    requires Constant(s, 0.0)
    ensures SumSquares(s) == 0.0
  {
    if s != [] {
      SumSquaresZero(s[1..]);
    }
  }

  /** A constant series has mean `c` and variance 0. */
  lemma {:induction false} ConstantMoments(s: seq<real>, c: real)
    requires |s| > 0 && Constant(s, c)
    ensures Mean(s) == c && Variance(s) == 0.0
  {
    SumConstant(s, c);
    SumSquaresZero(Deviations(s, c));
  }

  lemma {:induction false} SortConstant(s: seq<real>, c: real)
    requires Constant(s, c)
    ensures Constant(SortReals(s), c)
  {
    var t := SortReals(s);
    forall k | 0 <= k < |t| ensures t[k] == c {
      assert t[k] in multiset(t);
      assert t[k] in multiset(s);
    }
  }

  /** Every percentile and the median of a constant series is `c`. */
  lemma {:induction false} ConstantOrderStatistics(s: seq<real>, c: real, p: int)
    requires |s| > 0 && Constant(s, c) && 0 <= p <= 100
    ensures Percentile(SortReals(s), p) == c && Median(s) == c
  {
    SortConstant(s, c);
  }

  /** A constant series has median absolute deviation 0. */
  lemma {:induction false} ConstantMad(s: seq<real>, c: real)
    requires |s| > 0 && Constant(s, c)
    ensures MedianAbsoluteDeviation(s) == 0.0
  {
    ConstantOrderStatistics(s, c, 50);
    var d := seq(|s|, k requires 0 <= k < |s| => Abs(s[k] - Median(s)));
    assert Constant(d, 0.0);
    ConstantOrderStatistics(d, 0.0, 50);
  }

  // ---------------------------------------------------------------------
  // Samuelson's inequality: no value lies further than sqrt(n - 1)
  // population standard deviations from the mean.
  // ---------------------------------------------------------------------

  lemma {:induction false} SumConcat(a: seq<real>, b: seq<real>)
    ensures Sum(a + b) == Sum(a) + Sum(b)
    ensures SumSquares(a + b) == SumSquares(a) + SumSquares(b)
  {
    if a == [] {
      assert a + b == b;
    } else {
      assert (a + b)[1..] == a[1..] + b;
      SumConcat(a[1..], b);
    }
  }

  /** Cauchy-Schwarz for sums: `(Σ t)^2 <= |t| * Σ t^2`. */
  lemma {:induction false} SquaredSumBound(t: seq<real>)
    ensures Sum(t) * Sum(t) <= |t| as real * SumSquares(t)
  {
    if t != [] {
      var a := t[0];
      var u := t[1..];
      SquaredSumBound(u);
      var S := Sum(u);
      var Q := SumSquares(u);
      var k := |u| as real;
      assert S * S <= k * Q;
      if |u| == 0 {
        assert S == 0.0 && Q == 0.0;
      } else {
        assert k * (Q + k * a * a - 2.0 * a * S) >= (S - k * a) * (S - k * a) by {
          assert k * Q >= S * S;
        }
        SquareNonnegative(S - k * a);
        assert Q + k * a * a - 2.0 * a * S >= 0.0;
      }
      assert (S + a) * (S + a) == S * S + 2.0 * a * S + a * a;
      assert (k + 1.0) * (Q + a * a) == k * Q + Q + k * a * a + a * a;
    }
  }

  lemma {:induction false} SumDeviations(s: seq<real>, m: real)
    ensures Sum(Deviations(s, m)) == Sum(s) - |s| as real * m
  {
    if s != [] {
      assert Deviations(s, m)[1..] == Deviations(s[1..], m);
      SumDeviations(s[1..], m);
    }
  }

  /** Sums over a sequence with one position removed. */
  lemma {:induction false} RemoveOneSums(d: seq<real>, i: int)
    requires 0 <= i < |d|
    ensures Sum(d[..i] + d[i + 1..]) == Sum(d) - d[i]
    ensures SumSquares(d[..i] + d[i + 1..]) == SumSquares(d) - d[i] * d[i]
  {
    var a, x, b := d[..i], [d[i]], d[i + 1..];
    assert d == a + (x + b);
    SumConcat(a, x + b);
    SumConcat(x, b);
    SumConcat(a, b);
    SumSingleton(d[i]);
    assert Sum(d) == Sum(a) + d[i] + Sum(b);
    assert SumSquares(d) == SumSquares(a) + d[i] * d[i] + SumSquares(b);
  }

  lemma {:induction false} SumSingleton(v: real)
    ensures Sum([v]) == v && SumSquares([v]) == v * v
  {
    assert [v][1..] == [];
  }

  /** `n * (x_i - mean)^2 <= (n - 1) * Σ (x_j - mean)^2`. */
  lemma {:induction false} SamuelsonBound(s: seq<real>, i: int)
    requires 0 <= i < |s|
    ensures var d := Deviations(s, Mean(s));
            |s| as real * d[i] * d[i] <= (|s| - 1) as real * SumSquares(d)
  {
    DeviationsFromMeanSumToZero(s);
    SamuelsonZeroSum(Deviations(s, Mean(s)), i);
  }

  /** Samuelson's inequality in terms of the variance: `(x_i - mean)^2 <= (n - 1) var`. */
  lemma {:induction false} SamuelsonVariance(s: seq<real>, i: int)
    requires 0 <= i < |s|
    ensures (s[i] - Mean(s)) * (s[i] - Mean(s)) <= (|s| - 1) as real * Variance(s)
  {
    var d := Deviations(s, Mean(s));
    var n, m := |s| as real, (|s| - 1) as real;
    var S := SumSquares(d);
    assert Variance(s) == S / n;
    assert d[i] == s[i] - Mean(s);
    SamuelsonBound(s, i);
    DivideByCount(n, m, d[i], S, Variance(s));
  }

  lemma {:induction false} DivideByCount(n: real, m: real, x: real, S: real, V: real)
    requires n > 0.0 && V == S / n && n * x * x <= m * S
    ensures x * x <= m * V
  {
    assert S == n * V;
    assert n * (x * x) <= n * (m * V);
  }

  /** For numbers summing to zero, `n * d_i^2 <= (n - 1) * Σ d_j^2`. */
  lemma {:induction false} SamuelsonZeroSum(d: seq<real>, i: int)
    requires 0 <= i < |d| && Sum(d) == 0.0
    ensures |d| as real * d[i] * d[i] <= (|d| - 1) as real * SumSquares(d)
  {
    var rest := d[..i] + d[i + 1..];
    RemoveOneSums(d, i);
    SquaredSumBound(rest);
    assert |rest| == |d| - 1;
    SamuelsonStep(d[i], SumSquares(d), |d| as real, (|d| - 1) as real, |rest| as real, Sum(rest), SumSquares(rest));
  }

  /** Deviations from the mean sum to zero. */
  lemma {:induction false} DeviationsFromMeanSumToZero(s: seq<real>)
    requires |s| > 0
    ensures Sum(Deviations(s, Mean(s))) == 0.0
  {
    SumDeviations(s, Mean(s));
    var n := |s| as real;
    assert n * (Sum(s) / n) == Sum(s);
  }

  /**
   * With the other deviations summing to `S = -x` and their squares to
   * `Q = total - x^2`, Cauchy-Schwarz `S^2 <= (n-1) Q` bounds `x^2`.
   */
  lemma {:induction false} SamuelsonStep(x: real, total: real, n: real, m: real, k: real, S: real, Q: real)
    requires m >= 0.0 && n == m + 1.0 && k == m
    requires S == -x && Q == total - x * x
    requires S * S <= k * Q
    ensures n * x * x <= m * total
  {
    assert S * S == x * x;
    assert m * total == m * Q + m * x * x;
    assert n * x * x == x * x + m * x * x;
  }

  /** The median is the 50th percentile. */
  lemma {:induction false} MedianIsPercentile50(s: seq<real>)
    requires |s| > 0
    ensures Median(s) == Percentile(SortReals(s), 50)
  {
    var n := |s|;
    var t := SortReals(s);
    var q := (n - 1) / 2;
    var frac := (50 * (n - 1) % 100) as real / 100.0;
    HalfwayPosition(n);
    assert PercentileIndex(n, 50) == q;
    assert frac == (if n % 2 == 1 then 0.0 else 0.5);
    PercentileAt(t, 50, q, frac);
    if n % 2 == 1 {
      assert q == n / 2;
    } else {
      assert q == n / 2 - 1;
    }
  }

  /** Position `50/100 * (n - 1)`: whole part `(n - 1) / 2`, a half left over exactly when `n` is even. */
  lemma {:induction false} HalfwayPosition(n: int)
    requires n > 0
    ensures 50 * (n - 1) / 100 == (n - 1) / 2
    ensures 50 * (n - 1) % 100 == (if n % 2 == 1 then 0 else 50)
  {
    var q, r := (n - 1) / 2, (n - 1) % 2;
    assert 50 * (n - 1) == 100 * q + 50 * r;
    DivModUnique(50 * (n - 1), q, 50 * r);
  }

  /** The percentile named by its index and interpolation fraction. */
  lemma {:induction false} PercentileAt(sorted: seq<real>, p: int, lo: int, frac: real)
    requires |sorted| > 0 && 0 <= p <= 100
    requires lo == PercentileIndex(|sorted|, p) && frac == (p * (|sorted| - 1) % 100) as real / 100.0
    ensures lo + 1 < |sorted| ==> Percentile(sorted, p) == sorted[lo] + frac * (sorted[lo + 1] - sorted[lo])
    ensures lo + 1 == |sorted| ==> Percentile(sorted, p) == sorted[lo]
  {
  }

  /** Division by 100 is determined by quotient and remainder. */
  lemma {:induction false} DivModUnique(a: int, q: int, r: int)
    requires a == 100 * q + r && 0 <= r < 100
    ensures a / 100 == q && a % 100 == r
  {
  }

  lemma {:induction false} SumSquaresNonnegative(s: seq<real>)
    ensures SumSquares(s) >= 0.0
  {
    if s != [] {
      SumSquaresNonnegative(s[1..]);
      SquareNonnegative(s[0]);
    }
  }

  /** The population variance is never negative. */
  lemma {:induction false} VarianceNonnegative(s: seq<real>)
    requires |s| > 0
    ensures Variance(s) >= 0.0
  {
    SumSquaresNonnegative(Deviations(s, Mean(s)));
  }

  // ---------------------------------------------------------------------
  // Sorting an already ascending series.
  // ---------------------------------------------------------------------

  /** Two ascending arrangements of the same values are the same sequence. */
  lemma {:induction false} AscendingPermutationUnique(a: seq<real>, b: seq<real>)
    requires Ascending(a) && Ascending(b) && multiset(a) == multiset(b)
    ensures a == b
  {
    if a != [] {
      assert |b| == |multiset(b)| == |a|;
      assert a[0] in multiset(b);
      var j :| 0 <= j < |b| && b[j] == a[0];
      assert b[0] in multiset(a);
      var k :| 0 <= k < |a| && a[k] == b[0];
      assert a[0] == b[0];
      assert a == [a[0]] + a[1..];
      assert b == [b[0]] + b[1..];
      assert multiset(a[1..]) == multiset(a) - multiset{a[0]} by {
        assert multiset(a) == multiset([a[0]]) + multiset(a[1..]);
      }
      assert multiset(b[1..]) == multiset(b) - multiset{b[0]} by {
        assert multiset(b) == multiset([b[0]]) + multiset(b[1..]);
      }
      AscendingPermutationUnique(a[1..], b[1..]);
    }
  }

  /** Sorting leaves an ascending series as it is. */
  lemma {:induction false} SortAscending(s: seq<real>)
    requires Ascending(s)
    ensures SortReals(s) == s
  {
    AscendingPermutationUnique(SortReals(s), s);
  }

  /** Bounds on every value bound the sum. */
  lemma {:induction false} SumWithin(s: seq<real>, lo: real, hi: real)
    requires forall k :: 0 <= k < |s| ==> lo <= s[k] <= hi
    ensures |s| as real * lo <= Sum(s) <= |s| as real * hi
  {
    if s != [] {
      SumWithin(s[1..], lo, hi);
    }
  }

  /** The mean lies between any bounds on the values. */
  lemma {:induction false} MeanWithin(s: seq<real>, lo: real, hi: real)
    requires |s| > 0 && forall k :: 0 <= k < |s| ==> lo <= s[k] <= hi
    ensures lo <= Mean(s) <= hi
  {
    SumWithin(s, lo, hi);
    var n := |s| as real;
    assert Sum(s) / n >= (n * lo) / n;
    assert Sum(s) / n <= (n * hi) / n;
  }
}
