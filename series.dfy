/**
 * Sums, means and extrema of real-valued series, shared by the indicator
 * and multifractal modules (numpy.mean / pandas rolling means compute these
 * with floating-point arithmetic; here they are exact).
 */
module Series {

  /** Sum of a series, accumulated left to right. */
  function Sum(s: seq<real>): real {
    if |s| == 0 then 0.0 else Sum(s[..|s| - 1]) + s[|s| - 1]
  }

  lemma SumSnoc(s: seq<real>, x: real)
    ensures Sum(s + [x]) == Sum(s) + x
  {
    assert (s + [x])[..|s|] == s;
  }

  /** Arithmetic mean of a non-empty series. */
  function Mean(s: seq<real>): real
    requires |s| > 0
  {
    Sum(s) / (|s| as real)
  }

  function SeqMin(s: seq<real>): (m: real)
    requires |s| > 0
    ensures m in s
    ensures forall x :: x in s ==> m <= x
  {
    if |s| == 1 then s[0]
    else
      var m := SeqMin(s[..|s| - 1]);
      assert forall x :: x in s ==> x in s[..|s| - 1] || x == s[|s| - 1];
      if s[|s| - 1] < m then s[|s| - 1] else m
  }

  function SeqMax(s: seq<real>): (m: real)
    requires |s| > 0
    ensures m in s
    ensures forall x :: x in s ==> x <= m
  {
    if |s| == 1 then s[0]
    else
      var m := SeqMax(s[..|s| - 1]);
      assert forall x :: x in s ==> x in s[..|s| - 1] || x == s[|s| - 1];
      if s[|s| - 1] > m then s[|s| - 1] else m
  }

  /** A sum lies between |s| times any lower bound and |s| times any upper bound. */
  lemma {:induction false} SumBetween(s: seq<real>, lo: real, hi: real)
    requires forall x :: x in s ==> lo <= x <= hi
    ensures (|s| as real) * lo <= Sum(s) <= (|s| as real) * hi
  {
    if |s| > 0 {
      var init := s[..|s| - 1];
      assert forall x :: x in init ==> x in s;
      SumBetween(init, lo, hi);
      assert s[|s| - 1] in s;
      var k := |init| as real;
      assert (|s| as real) * lo == k * lo + lo;
      assert (|s| as real) * hi == k * hi + hi;
    }
  }

  /** A mean lies between any lower and any upper bound of its window. */
  lemma MeanBetween(s: seq<real>, lo: real, hi: real)
    requires |s| > 0
    requires forall x :: x in s ==> lo <= x <= hi
    ensures lo <= Mean(s) <= hi
  {
    SumBetween(s, lo, hi);
    DivBounds(Sum(s), |s| as real, lo, hi);
  }

  /** Every mean lies between the minimum and the maximum of its window. */
  lemma MeanWithinExtrema(s: seq<real>)
    requires |s| > 0
    ensures SeqMin(s) <= Mean(s) <= SeqMax(s)
  {
    MeanBetween(s, SeqMin(s), SeqMax(s));
  }

  lemma DivBounds(total: real, n: real, lo: real, hi: real)
    requires n > 0.0
    requires n * lo <= total <= n * hi
    ensures lo <= total / n <= hi
  {
    assert total / n * n == total;
    MulOrder(lo, total / n, n);
    MulOrder(total / n, hi, n);
  }

  lemma MulOrder(a: real, b: real, n: real)
    requires n > 0.0
    requires n * a <= n * b
    ensures a <= b
  {
    assert n * b - n * a == n * (b - a);
  }

  /** The mean of non-negative values is non-negative. */
  lemma MeanNonNegative(s: seq<real>)
    requires |s| > 0
    requires forall x :: x in s ==> x >= 0.0
    ensures Mean(s) >= 0.0
  {
    MeanBetween(s, 0.0, SeqMax(s));
  }
}
