/**
 * The partition-function stage of the USD/NOK multifractal script
 * (mmar/parse_usd_nok.py): the divisors used as time increments, the two
 * log-return series, the non-overlapping index pairs of each increment and
 * the q x dt table of summed powers.
 *
 * `^q` and the natural logarithm are floating-point library calls in the
 * script; here they are function parameters, and the only property assumed
 * of the power is that it is non-negative on non-negative bases.
 */
module Multifractal {
  import opened Wrappers
  import opened Series

  // ---------------------------------------------------------------------
  // get_factors
  // ---------------------------------------------------------------------

  /** The divisors of n that lie in [1, k], in ascending order. */
  function DivisorsUpTo(n: int, k: int): seq<int>
    decreases k
  {
    if k < 1 then []
    else if n % k == 0 then DivisorsUpTo(n, k - 1) + [k]
    else DivisorsUpTo(n, k - 1)
  }

  /** Reference definition of `get_factors(n)`: every i in 1..n with n % i == 0. */
  function Divisors(n: int): seq<int> {
    DivisorsUpTo(n, n)
  }

  ghost predicate StrictlyAscending(s: seq<int>) {
    forall a, b :: 0 <= a < b < |s| ==> s[a] < s[b]
  }

  lemma {:induction false} DivisorsUpToProperties(n: int, k: int)
    ensures forall x :: x in DivisorsUpTo(n, k) <==> 1 <= x <= k && n % x == 0
    ensures StrictlyAscending(DivisorsUpTo(n, k))
    ensures forall x :: x in DivisorsUpTo(n, k) ==> x <= k
    decreases k
  {
    if k >= 1 {
      DivisorsUpToProperties(n, k - 1);
      var prev := DivisorsUpTo(n, k - 1);
      if n % k == 0 {
        var d := prev + [k];
        forall a, b | 0 <= a < b < |d| ensures d[a] < d[b] {
          if b == |d| - 1 {
            assert d[a] in prev;
          }
        }
      }
    }
  }

  /** The divisor list is exactly the divisors of n, strictly ascending. */
  lemma DivisorsAreExactlyTheFactors(n: int)
    ensures forall x :: x in Divisors(n) <==> 1 <= x <= n && n % x == 0
    ensures StrictlyAscending(Divisors(n))
  {
    DivisorsUpToProperties(n, n);
  }

  /**
   * For n >= 1 the divisor list starts with 1 and ends with n.  The plot of
   * the script normalises every row by the dt = 1 column, which therefore
   * always exists and is the first column.
   */
  lemma DivisorsStartWithOneEndWithN(n: int)
    requires n >= 1
    ensures |Divisors(n)| >= 1
    ensures Divisors(n)[0] == 1
    ensures Divisors(n)[|Divisors(n)| - 1] == n
  {
    DivisorsAreExactlyTheFactors(n);
    var d := Divisors(n);
    assert 1 in d;
    var k :| 0 <= k < |d| && d[k] == 1;
    assert d[0] in d;
    assert d[0] <= d[k];
    assert n in d;
    var m :| 0 <= m < |d| && d[m] == n;
    assert d[|d| - 1] in d;
    assert d[m] <= d[|d| - 1];
  }

  /** `get_factors`: the loop over 1..n appending every divisor. */
  method GetFactors(n: int) returns (factors: seq<int>)
    ensures factors == Divisors(n)
    ensures forall x :: x in factors <==> 1 <= x <= n && n % x == 0
    ensures StrictlyAscending(factors)
  {
    factors := [];
    var i := 1;
    while i <= n
      invariant 1 <= i <= if n >= 1 then n + 1 else 1
      invariant factors == DivisorsUpTo(n, i - 1)
    {
      if n % i == 0 {
        factors := factors + [i];
      }
      i := i + 1;
    }
    DivisorsAreExactlyTheFactors(n);
  }

  /**
   * The column that the plot divides by: the position of the dtLabel 1 among
   * the increments, if present.
   */
  function IndexOfIncrement(deltas: seq<int>, dtLabel: int): (r: Option<nat>)
    ensures r.Some? ==> r.value < |deltas| && deltas[r.value] == dtLabel
    ensures r.Some? ==> forall j :: 0 <= j < r.value ==> deltas[j] != dtLabel
    ensures r.None? ==> dtLabel !in deltas
  {
    if |deltas| == 0 then None
    else if deltas[0] == dtLabel then Some(0)
    else match IndexOfIncrement(deltas[1..], dtLabel)
      case None => None
      case Some(j) => Some(j + 1)
  }

  /** The dt = 1 column used for normalisation is the first column of get_factors(n). */
  lemma NormalisationColumnExists(n: int)
    requires n >= 1
    ensures IndexOfIncrement(Divisors(n), 1) == Some(0)
  {
    DivisorsStartWithOneEndWithN(n);
  }

  // ---------------------------------------------------------------------
  // log-return series
  // ---------------------------------------------------------------------

  /** `log(P[i]) - log(P[0])` for every row. */
  function RelativeLogReturns(prices: seq<real>, log: real -> real): (r: seq<real>)
    ensures |r| == |prices|
    ensures |prices| > 0 ==> r[0] == 0.0
    ensures forall i :: 0 <= i < |r| ==> r[i] == log(prices[i]) - log(prices[0])
  {
    seq(|prices|, i requires 0 <= i < |prices| => log(prices[i]) - log(prices[0]))
  }

  /**
   * `log(P) - log(P.shift(1))` with the first (NaN) row dropped: the entry at
   * position i belongs to row i + 1.
   */
  function AdjacentLogReturns(prices: seq<real>, log: real -> real): (r: seq<real>)
    ensures |prices| > 0 ==> |r| == |prices| - 1
    ensures |prices| == 0 ==> r == []
    ensures forall i :: 0 <= i < |r| ==> r[i] == log(prices[i + 1]) - log(prices[i])
  {
    if |prices| == 0 then []
    else seq(|prices| - 1, i requires 0 <= i < |prices| - 1 => log(prices[i + 1]) - log(prices[i]))
  }

  /** Adjacent returns telescope to the relative return of the last row. */
  lemma {:induction false} AdjacentSumIsRelative(prices: seq<real>, log: real -> real, k: nat)
    requires k < |prices|
    ensures Sum(AdjacentLogReturns(prices, log)[..k]) == RelativeLogReturns(prices, log)[k]
  {
    var d := AdjacentLogReturns(prices, log);
    if k > 0 {
      AdjacentSumIsRelative(prices, log, k - 1);
      SumSnoc(d[..k - 1], d[k - 1]);
      assert d[..k] == d[..k - 1] + [d[k - 1]];
    }
  }


  // ---------------------------------------------------------------------
  // index pairs of one increment
  // ---------------------------------------------------------------------

  /** `idx1 = arange(int(T / dt)) * dt`, `idx2 = idx1 + dt`, before the filter. */
  function CandidatePairs(t: nat, dt: int): (r: seq<(int, int)>)
    requires dt >= 1
    ensures |r| == t / dt
  {
    seq(t / dt, i requires 0 <= i < t / dt => (i * dt, i * dt + dt))
  }

  /** `valid = idx2 < T`: keep the candidate pairs whose right index is inside the series. */
  function KeepInside(ps: seq<(int, int)>, t: nat): (r: seq<(int, int)>)
  {
    if |ps| == 0 then []
    else if ps[|ps| - 1].1 < t then KeepInside(ps[..|ps| - 1], t) + [ps[|ps| - 1]]
    else KeepInside(ps[..|ps| - 1], t)
  }

  /** The filter keeps exactly the pairs whose right index is inside the series. */
  lemma {:induction false} KeepInsideFilters(ps: seq<(int, int)>, t: nat)
    ensures forall p :: p in KeepInside(ps, t) <==> p in ps && p.1 < t
  {
    if |ps| > 0 {
      var init := ps[..|ps| - 1];
      KeepInsideFilters(init, t);
      assert ps == init + [ps[|ps| - 1]];
    }
  }

  /** The pairs the script uses for increment dt on a series of length T. */
  function ValidPairs(t: nat, dt: int): seq<(int, int)>
    requires dt >= 1
  {
    KeepInside(CandidatePairs(t, dt), t)
  }

  /** Number of pairs whose right index stays below T. */
  function PairCount(t: nat, dt: int): nat
    requires dt >= 1
  {
    if t == 0 then 0 else (t - 1) / dt
  }

  /**
   * Filtering a prefix of a sequence whose kept elements are exactly its
   * first p elements gives back a prefix.
   */
  lemma {:induction false} KeepInsideOfPrefixClosed(ps: seq<(int, int)>, t: nat, p: nat, m: nat)
    requires p <= |ps| && m <= |ps|
    requires forall i :: 0 <= i < |ps| ==> (ps[i].1 < t <==> i < p)
    ensures KeepInside(ps[..m], t) == ps[..if m <= p then m else p]
  {
    if m > 0 {
      KeepInsideOfPrefixClosed(ps, t, p, m - 1);
      var q := ps[..m];
      assert q[..|q| - 1] == ps[..m - 1];
      assert q[|q| - 1] == ps[m - 1];
      if m <= p {
        assert KeepInside(q, t) == ps[..m - 1] + [ps[m - 1]];
        assert ps[..m] == ps[..m - 1] + [ps[m - 1]];
      } else {
        assert KeepInside(q, t) == KeepInside(ps[..m - 1], t);
      }
    }
  }

  /** A candidate pair is kept exactly when its position is below PairCount. */
  lemma CandidateKeptIff(t: nat, dt: int, i: nat)
    requires dt >= 1
    ensures i * dt + dt < t <==> i < PairCount(t, dt)
  {
    var pc := PairCount(t, dt);
    if t == 0 {
      assert i * dt >= 0;
    } else {
      assert t - 1 == dt * pc + (t - 1) % dt;
      if i < pc {
        assert i + 1 <= pc;
        assert (i + 1) * dt <= pc * dt by { MulMonotone(i + 1, pc, dt); }
        assert i * dt + dt == (i + 1) * dt;
      } else {
        assert pc + 1 <= i + 1;
        assert (pc + 1) * dt <= (i + 1) * dt by { MulMonotone(pc + 1, i + 1, dt); }
        assert (pc + 1) * dt == pc * dt + dt;
        assert i * dt + dt == (i + 1) * dt;
      }
    }
  }

  lemma MulSucc(a: int, d: int)
    ensures a * d + d == (a + 1) * d
  {
  }

  lemma ExactQuotient(a: nat, d: int)
    requires d >= 1 && a % d == 0
    ensures (a / d) * d == a
  {
  }

  lemma MulMonotone(a: nat, b: nat, d: nat)
    requires a <= b
    ensures a * d <= b * d
  {
  }

  lemma PairCountAtMostCandidates(t: nat, dt: int)
    requires dt >= 1
    ensures PairCount(t, dt) <= t / dt
  {
    if t > 0 {
      var pc := PairCount(t, dt);
      assert t - 1 == dt * pc + (t - 1) % dt;
      assert t == dt * (t / dt) + t % dt;
      if pc > t / dt {
        assert t / dt + 1 <= pc;
        MulMonotone(t / dt + 1, pc, dt);
      }
    }
  }

  /**
   * The pairs used for dt are exactly (i*dt, i*dt + dt) for i below the
   * number of pairs whose right index is inside the series.
   */
  lemma ValidPairsAreBlocks(t: nat, dt: int)
    requires dt >= 1
    ensures |ValidPairs(t, dt)| == PairCount(t, dt)
    ensures forall i :: 0 <= i < |ValidPairs(t, dt)| ==> ValidPairs(t, dt)[i] == (i * dt, i * dt + dt)
  {
    var c := CandidatePairs(t, dt);
    var pc := PairCount(t, dt);
    PairCountAtMostCandidates(t, dt);
    forall i | 0 <= i < |c| ensures c[i].1 < t <==> i < pc {
      CandidateKeptIff(t, dt, i);
    }
    KeepInsideOfPrefixClosed(c, t, pc, |c|);
    assert c[..|c|] == c;
    var v := ValidPairs(t, dt);
    assert v == c[..pc];
    forall i | 0 <= i < |v| ensures v[i] == (i * dt, i * dt + dt) {
      CandidateAt(t, dt, i);
    }
  }

  lemma CandidateAt(t: nat, dt: int, i: nat)
    requires dt >= 1 && i < t / dt
    ensures CandidatePairs(t, dt)[i] == (i * dt, i * dt + dt)
  {
  }

  /**
   * Every index the pairs use lies in [0, T), each pair spans dt, and two
   * different pairs share at most an endpoint (they never overlap).
   */
  lemma ValidPairsInRangeAndDisjoint(t: nat, dt: int)
    requires dt >= 1
    ensures forall p :: p in ValidPairs(t, dt) ==> 0 <= p.0 < p.1 < t && p.1 - p.0 == dt
    ensures forall a, b :: 0 <= a < b < |ValidPairs(t, dt)| ==>
              ValidPairs(t, dt)[a].1 <= ValidPairs(t, dt)[b].0
  {
    ValidPairsAreBlocks(t, dt);
    var v := ValidPairs(t, dt);
    forall p | p in v ensures 0 <= p.0 < p.1 < t && p.1 - p.0 == dt {
      var i :| 0 <= i < |v| && v[i] == p;
      assert p == (i * dt, i * dt + dt);
      MulMonotone(0, i, dt);
      CandidateKeptIff(t, dt, i);
    }
    forall a, b | 0 <= a < b < |v| ensures v[a].1 <= v[b].0 {
      assert v[a].1 == a * dt + dt && v[b].0 == b * dt;
      MulSucc(a, dt);
      MulMonotone(a + 1, b, dt);
    }
  }

  /**
   * When dt divides T - 1 the pairs tile [0, T - 1] exactly: there are
   * (T - 1) / dt of them, the first starts at 0, consecutive pairs share
   * their endpoint and the last ends at T - 1.
   */
  lemma PairsTileWhenDividing(t: nat, dt: int)
    requires dt >= 1 && t >= 1 && (t - 1) % dt == 0
    ensures |ValidPairs(t, dt)| == (t - 1) / dt
    ensures |ValidPairs(t, dt)| > 0 ==> ValidPairs(t, dt)[0].0 == 0
    ensures forall i :: 0 <= i < |ValidPairs(t, dt)| - 1 ==>
              ValidPairs(t, dt)[i].1 == ValidPairs(t, dt)[i + 1].0
    ensures |ValidPairs(t, dt)| > 0 ==> ValidPairs(t, dt)[|ValidPairs(t, dt)| - 1].1 == t - 1
  {
    ValidPairsAreBlocks(t, dt);
    var v := ValidPairs(t, dt);
    var n := (t - 1) / dt;
    if n > 0 {
      assert v[n - 1] == ((n - 1) * dt, (n - 1) * dt + dt);
      MulSucc(n - 1, dt);
      ExactQuotient(t - 1, dt);
    }
    forall i | 0 <= i < |v| - 1 ensures v[i].1 == v[i + 1].0 {
      MulSucc(i, dt);
    }
  }

  /** The series length of the script (7561 rows) and its increments (divisors of 7560). */
  const SeriesLength: nat := 7561

  lemma ScriptIncrementsTileTheSeries(dt: int)
    requires dt in Divisors(SeriesLength - 1)
    ensures dt >= 1 && 7560 / dt >= 1
    ensures |ValidPairs(SeriesLength, dt)| == 7560 / dt
    ensures ValidPairs(SeriesLength, dt)[|ValidPairs(SeriesLength, dt)| - 1].1 == SeriesLength - 1
  {
    DivisorsAreExactlyTheFactors(SeriesLength - 1);
    PairsTileWhenDividing(SeriesLength, dt);
    assert 7560 / dt >= 1 by {
      assert dt <= 7560;
    }
  }

  // ---------------------------------------------------------------------
  // calc_partition_function
  // ---------------------------------------------------------------------

  ghost predicate NonNegativeOnNonNegative(pow: (real, real) -> real) {
    forall x, q :: x >= 0.0 ==> pow(x, q) >= 0.0
  }

  function Abs(x: real): real { if x < 0.0 then -x else x }

  ghost predicate PairsInside(pairs: seq<(int, int)>, n: nat) {
    forall p :: p in pairs ==> 0 <= p.0 < n && 0 <= p.1 < n
  }

  /** `np.sum(abs(XT[idx2] - XT[idx1]) ** q)` over the given pairs. */
  function SumPowers(x: seq<real>, pairs: seq<(int, int)>, q: real, pow: (real, real) -> real): real
    requires PairsInside(pairs, |x|)
  {
    if |pairs| == 0 then 0.0
    else
      var p := pairs[|pairs| - 1];
      SumPowers(x, pairs[..|pairs| - 1], q, pow) + pow(Abs(x[p.1] - x[p.0]), q)
  }

  /** A sum of |diff|^q terms is never negative. */
  lemma {:induction false} SumPowersNonNegative(x: seq<real>, pairs: seq<(int, int)>, q: real, pow: (real, real) -> real)
    requires PairsInside(pairs, |x|)
    requires NonNegativeOnNonNegative(pow)
    ensures SumPowers(x, pairs, q, pow) >= 0.0
  {
    if |pairs| > 0 {
      var p := pairs[|pairs| - 1];
      SumPowersNonNegative(x, pairs[..|pairs| - 1], q, pow);
      assert pow(Abs(x[p.1] - x[p.0]), q) >= 0.0;
    }
  }

  lemma PairsOfSeriesInside(x: seq<real>, dt: int)
    requires dt >= 1
    ensures PairsInside(ValidPairs(|x|, dt), |x|)
  {
    ValidPairsInRangeAndDisjoint(|x|, dt);
  }

  /** One cell of the table: S_q(dt). */
  function PartitionCell(x: seq<real>, dt: int, q: real, pow: (real, real) -> real): real
    requires dt >= 1
  {
    PairsOfSeriesInside(x, dt);
    SumPowers(x, ValidPairs(|x|, dt), q, pow)
  }

  /** Every entry of the partition table is non-negative. */
  lemma PartitionCellNonNegative(x: seq<real>, dt: int, q: real, pow: (real, real) -> real)
    requires dt >= 1
    requires NonNegativeOnNonNegative(pow)
    ensures PartitionCell(x, dt, q, pow) >= 0.0
  {
    PairsOfSeriesInside(x, dt);
    SumPowersNonNegative(x, ValidPairs(|x|, dt), q, pow);
  }

  /** With an increment at least as long as the series no pair is left, so the cell is 0. */
  lemma LongIncrementGivesZero(x: seq<real>, dt: int, q: real, pow: (real, real) -> real)
    requires dt >= 1 && dt >= |x|
    ensures PartitionCell(x, dt, q, pow) == 0.0
  {
    ValidPairsAreBlocks(|x|, dt);
    if |x| > 0 {
      assert (|x| - 1) / dt == 0;
    }
  }

  /**
   * `calc_partition_function`: result_matrix[k, j] holds S_{q_k}(dt_j); rows
   * follow q_list and columns follow delta_t_list.  The matrix is filled
   * column by column, as in the script.
   */
  method CalcPartitionFunction(x: seq<real>, deltas: seq<int>, qs: seq<real>, pow: (real, real) -> real)
    returns (table: array2<real>)
    requires forall j :: 0 <= j < |deltas| ==> deltas[j] >= 1
    ensures fresh(table)
    ensures table.Length0 == |qs| && table.Length1 == |deltas|
    ensures forall k, j :: 0 <= k < |qs| && 0 <= j < |deltas| ==>
              table[k, j] == PartitionCell(x, deltas[j], qs[k], pow)
  {
    table := new real[|qs|, |deltas|]((k, j) => 0.0);
    var j := 0;
    while j < |deltas|
      invariant 0 <= j <= |deltas|
      invariant forall k, c :: 0 <= k < |qs| && 0 <= c < j ==>
                  table[k, c] == PartitionCell(x, deltas[c], qs[k], pow)
    {
      var dt := deltas[j];
      var k := 0;
      while k < |qs|
        invariant 0 <= k <= |qs|
        invariant forall r, c :: 0 <= r < |qs| && 0 <= c < j ==>
                    table[r, c] == PartitionCell(x, deltas[c], qs[r], pow)
        invariant forall r :: 0 <= r < k ==> table[r, j] == PartitionCell(x, dt, qs[r], pow)
      {
        table[k, j] := PartitionCell(x, dt, qs[k], pow);
        k := k + 1;
      }
      j := j + 1;
    }
  }
}
