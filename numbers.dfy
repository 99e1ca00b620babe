/** Integer arithmetic behind the percentages and averages the pages show. */
module Numbers {

  /** `r` is a/b rounded to the nearest integer, halves up: r - 1/2 <= a/b < r + 1/2,
      multiplied through by 2b. */
  predicate RoundsTo(a: int, b: int, r: int)
  {
    2 * b * r <= 2 * a + b < 2 * b * r + 2 * b
  }

  /** JavaScript `Math.round(a / b)` for a positive divisor, computed exactly:
      the integer nearest to a/b, halves rounded up. */
  function RoundDiv(a: int, b: int): (r: int)
    requires b > 0
    ensures RoundsTo(a, b, r)
  {
    (2 * a + b) / (2 * b)
  }

  /** At most one integer is a/b rounded, so `RoundsTo` pins the result. */
  lemma RoundDivUnique(a: int, b: int, r: int)
    requires b > 0 && RoundsTo(a, b, r)
    ensures r == RoundDiv(a, b)
  {
    var q := RoundDiv(a, b);
    assert 2 * b * r < 2 * b * (q + 1);
    MulLessCancel(2 * b, r, q + 1);
    assert 2 * b * q < 2 * b * (r + 1);
    MulLessCancel(2 * b, q, r + 1);
  }

  /** The rounding is exact when b divides a. */
  lemma RoundDivExact(q: int, b: int)
    requires b > 0
    ensures RoundDiv(q * b, b) == q
  {
    DivUnique(2 * (q * b) + b, 2 * b, q, b);
  }

  /** Euclidean division has a unique quotient. */
  lemma DivUnique(x: int, d: int, q: int, m: int)
    requires d > 0 && x == d * q + m && 0 <= m < d
    ensures x / d == q
  {
    var q', m' := x / d, x % d;
    assert x == d * q' + m' && 0 <= m' < d;
    assert d * (q - q') == m' - m;
    UnitProduct(d, q - q', m' - m);
  }

  /** A multiple of d strictly between -d and d is 0. */
  lemma UnitProduct(d: int, k: int, p: int)
    requires d > 0 && d * k == p && -d < p < d
    ensures k == 0
  {
    if k >= 1 {
      MulMonotone(d, 1, k);
    } else if k <= -1 {
      MulMonotone(d, k, -1);
    }
  }

  lemma MulMonotone(k: nat, x: int, y: int)
    requires x <= y
    ensures k * x <= k * y
  {
    assert k * y - k * x == k * (y - x);
  }

  /** Rounding preserves bounds: if lo <= a/b <= hi then lo <= RoundDiv(a, b) <= hi. */
  lemma RoundDivBetween(a: int, b: int, lo: int, hi: int)
    requires b > 0
    requires b * lo <= a <= b * hi
    ensures lo <= RoundDiv(a, b) <= hi
  {
    var r := RoundDiv(a, b);
    // 2b*lo <= 2a + b < 2b*(r + 1), so lo < r + 1
    assert 2 * b * lo < 2 * b * (r + 1);
    MulLessCancel(2 * b, lo, r + 1);
    // 2b*r <= 2a + b <= 2b*hi + b < 2b*(hi + 1), so r < hi + 1
    assert 2 * b * r < 2 * b * (hi + 1);
    MulLessCancel(2 * b, r, hi + 1);
  }

  lemma MulLessCancel(k: int, x: int, y: int)
    requires k > 0 && k * x < k * y
    ensures x < y
  {
    if x >= y {
      MulMonotone(k, y, x);
    }
  }

  /** Rounding is monotone in the numerator. */
  lemma RoundDivMonotone(a: int, a': int, b: int)
    requires b > 0 && a <= a'
    ensures RoundDiv(a, b) <= RoundDiv(a', b)
  {
    var r, r' := RoundDiv(a, b), RoundDiv(a', b);
    assert 2 * b * r < 2 * b * (r' + 1);
    MulLessCancel(2 * b, r, r' + 1);
  }

  /** The sum of a sequence of integers, as `reduce((sum, x) => sum + x, 0)`. */
  function Sum(xs: seq<int>): int
  {
    if xs == [] then 0 else xs[0] + Sum(xs[1..])
  }

  lemma {:induction false} SumAppend(xs: seq<int>, ys: seq<int>)
    ensures Sum(xs + ys) == Sum(xs) + Sum(ys)
  {
    if xs != [] {
      assert (xs + ys)[0] == xs[0];
      assert (xs + ys)[1..] == xs[1..] + ys;
      SumAppend(xs[1..], ys);
    } else {
      assert xs + ys == ys;
    }
  }

  predicate Within(xs: seq<int>, lo: int, hi: int)
  {
    forall i :: 0 <= i < |xs| ==> lo <= xs[i] <= hi
  }

  /** If every element lies in [lo, hi], the sum lies in [n*lo, n*hi]. */
  lemma {:induction false} SumBounds(xs: seq<int>, lo: int, hi: int)
    requires Within(xs, lo, hi)
    ensures |xs| * lo <= Sum(xs) <= |xs| * hi
  {
    if xs != [] {
      assert Within(xs[1..], lo, hi) by {
        forall i | 0 <= i < |xs[1..]| ensures lo <= xs[1..][i] <= hi {
          assert xs[1..][i] == xs[i + 1];
        }
      }
      SumBounds(xs[1..], lo, hi);
      assert |xs| * lo == lo + |xs[1..]| * lo;
      assert |xs| * hi == hi + |xs[1..]| * hi;
    }
  }

  /** The rounded mean of a list of integers, 0 for the empty list (the
      pages test the length before dividing). */
  function RoundedMean(xs: seq<int>): (r: int)
    ensures |xs| > 0 ==> RoundsTo(Sum(xs), |xs|, r)
    ensures xs == [] ==> r == 0
  {
    if |xs| > 0 then RoundDiv(Sum(xs), |xs|) else 0
  }

  /** The rounded mean lies between any lower and upper bound of the
      elements; in particular between their minimum and maximum. */
  lemma RoundedMeanBetween(xs: seq<int>, lo: int, hi: int)
    requires |xs| > 0
    requires Within(xs, lo, hi)
    ensures lo <= RoundedMean(xs) <= hi
  {
    SumBounds(xs, lo, hi);
    RoundDivBetween(Sum(xs), |xs|, lo, hi);
  }

  /** The mean of a list of equal values is that value. */
  lemma RoundedMeanConstant(xs: seq<int>, v: int)
    requires |xs| > 0
    requires Within(xs, v, v)
    ensures RoundedMean(xs) == v
  {
    RoundedMeanBetween(xs, v, v);
  }
}
