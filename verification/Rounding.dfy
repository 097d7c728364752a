/** The number helpers of `src/lib/utils.ts` and the engines: clamping, JavaScript's rounding
    (half up), averages and percentages, in exact arithmetic. */
module Rounding {

  function Clamp(value: int, low: int, high: int): int {
    var raised := if value > low then value else low;
    if raised < high then raised else high
  }

  /** `Math.round`: the integer nearest to x, with ties going up. */
  function Round(x: real): (r: int)
    ensures x - 0.5 < r as real <= x + 0.5
  {
    (x + 0.5).Floor
  }

  lemma RoundMonotone(x: real, y: real)
    requires x <= y
    ensures Round(x) <= Round(y)
  {
  }

  function Sum(values: seq<int>): int {
    if values == [] then 0 else values[0] + Sum(values[1..])
  }

  /** `Math.round(average(values))`. */
  function RoundedAverage(values: seq<int>): int {
    if values == [] then 0 else Round(Sum(values) as real / |values| as real)
  }

  /** `pct`: a share in percent, where nothing out of nothing is full coverage. */
  function Percent(part: nat, total: nat): int {
    if total == 0 then 100 else Round(part as real / total as real * 100.0)
  }

  lemma PercentBounds(part: nat, total: nat)
    requires part <= total
    ensures 0 <= Percent(part, total) <= 100
  {
    if total != 0 {
      var share := part as real / total as real;
      assert share * total as real == part as real;
      assert 0.0 <= share <= 1.0;
    }
  }

  lemma PercentMonotone(part: nat, more: nat, total: nat)
    requires part <= more
    ensures Percent(part, total) <= Percent(more, total)
  {
    if total != 0 {
      assert part as real / total as real <= more as real / total as real;
      RoundMonotone(part as real / total as real * 100.0, more as real / total as real * 100.0);
    }
  }

  lemma {:induction false} SumBounds(values: seq<int>, low: int, high: int)
    requires forall i :: 0 <= i < |values| ==> low <= values[i] <= high
    ensures low * |values| <= Sum(values) <= high * |values|
  {
    if values != [] {
      SumBounds(values[1..], low, high);
      assert low * |values| == low + low * |values[1..]|;
      assert high * |values| == high + high * |values[1..]|;
    }
  }

  lemma ScaleStrictly(x: real, y: real, n: real)
    requires x < y && n > 0.0
    ensures x * n < y * n
  {
  }

  lemma QuotientAtLeast(low: real, total: real, n: real)
    requires n > 0.0 && low * n <= total
    ensures low <= total / n
  {
    var q := total / n;
    assert q * n == total;
    if q < low {
      ScaleStrictly(q, low, n);
      assert false;
    }
  }

  lemma QuotientAtMost(total: real, n: real, high: real)
    requires n > 0.0 && total <= high * n
    ensures total / n <= high
  {
    QuotientAtLeast(-high, -total, n);
    assert -total / n == -(total / n);
  }

  /** A rounded average of integers lies between any integer bounds of its terms. */
  lemma RoundedAverageBounds(values: seq<int>, low: int, high: int)
    requires values != []
    requires forall i :: 0 <= i < |values| ==> low <= values[i] <= high
    ensures low <= RoundedAverage(values) <= high
  {
    SumBounds(values, low, high);
    RoundedQuotientBounds(low, Sum(values), |values|, high);
  }

  lemma RoundedQuotientBounds(low: int, total: int, n: nat, high: int)
    requires n > 0 && low * n <= total <= high * n
    ensures low <= Round(total as real / n as real) <= high
  {
    ScaleToReal(low, n);
    ScaleToReal(high, n);
    QuotientAtLeast(low as real, total as real, n as real);
    QuotientAtMost(total as real, n as real, high as real);
  }

  lemma {:induction false} ScaleToReal(k: int, n: nat)
    ensures k as real * n as real == (k * n) as real
  {
    if n != 0 {
      ScaleToReal(k, n - 1);
      assert k * n == k * (n - 1) + k;
      assert k as real * n as real == k as real * (n - 1) as real + k as real;
    }
  }

  lemma {:induction false} SumMonotone(lower: seq<int>, upper: seq<int>)
    requires |lower| == |upper|
    requires forall i :: 0 <= i < |lower| ==> lower[i] <= upper[i]
    ensures Sum(lower) <= Sum(upper)
  {
    if lower != [] {
      SumMonotone(lower[1..], upper[1..]);
    }
  }

  lemma RoundedAverageMonotone(lower: seq<int>, upper: seq<int>)
    requires |lower| == |upper|
    requires forall i :: 0 <= i < |lower| ==> lower[i] <= upper[i]
    ensures RoundedAverage(lower) <= RoundedAverage(upper)
  {
    if lower != [] {
      SumMonotone(lower, upper);
      var n := |lower| as real;
      assert Sum(lower) as real / n <= Sum(upper) as real / n;
      RoundMonotone(Sum(lower) as real / n, Sum(upper) as real / n);
    }
  }

  // ---- The same two in whole numbers ----

  /** The share is the integer nearest to a hundred times part over total, ties going up. */
  predicate IsShare(share: int, part: nat, total: nat) {
    if total == 0 then share == 100 else (2 * share - 1) * total <= 200 * part < (2 * share + 1) * total
  }

  /** The score is the integer nearest to sum over n, ties going up. */
  predicate IsMean(score: int, sum: int, n: nat) {
    (2 * score - 1) * n <= 2 * sum < (2 * score + 1) * n
  }

  lemma RoundHalf(x: real, r: int)
    ensures Round(x) == r <==> (2 * r - 1) as real <= 2.0 * x && !((2 * r + 1) as real <= 2.0 * x)
  {
  }

  /** Clearing the denominator of a bound on a doubled quotient. */
  lemma CrossMultiplied(bound: int, total: int, n: nat)
    requires n > 0
    ensures bound as real <= 2.0 * (total as real / n as real) <==> bound * n <= 2 * total
  {
    var q := total as real / n as real;
    assert q * n as real == total as real;
    Scaled(bound as real, 2.0 * q, n as real);
    ScaleToReal(bound, n);
    assert 2.0 * q * n as real == 2.0 * total as real == (2 * total) as real;
  }

  lemma RoundedExactly(total: int, n: nat, r: int)
    requires n > 0
    ensures Round(total as real / n as real) == r <==> (2 * r - 1) * n <= 2 * total < (2 * r + 1) * n
  {
    RoundHalf(total as real / n as real, r);
    CrossMultiplied(2 * r - 1, total, n);
    CrossMultiplied(2 * r + 1, total, n);
  }

  lemma Scaled(x: real, y: real, n: real)
    requires n > 0.0
    ensures x <= y <==> x * n <= y * n
  {
    if y < x {
      ScaleStrictly(y, x, n);
    }
  }

  lemma PercentExactly(part: nat, total: nat, share: int)
    ensures Percent(part, total) == share <==> IsShare(share, part, total)
  {
    if total != 0 {
      RoundedExactly(100 * part, total, share);
      assert part as real / total as real * 100.0 == (100 * part) as real / total as real;
    }
  }

  lemma AverageExactly(values: seq<int>, score: int)
    requires values != []
    ensures RoundedAverage(values) == score <==> IsMean(score, Sum(values), |values|)
  {
    RoundedExactly(Sum(values), |values|, score);
  }
}
