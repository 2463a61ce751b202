/**
 * Bollinger bands of server/boll.py: the 2015 price history of one stock is
 * put in date order, and every 20-row window yields the mean and the bands
 * two population standard deviations above and below it, paired with the
 * price that follows the window.
 */
module Bollinger {
  import opened Wrappers
  import opened Series

  // ---------------------------------------------------------------------
  // dates and the three-way comparator
  // ---------------------------------------------------------------------

  datatype Date = Date(year: int, month: int, day: int)

  predicate IsDigit(c: char) { '0' <= c <= '9' }

  function DigitValue(c: char): int requires IsDigit(c) { c as int - '0' as int }

  /** The number written by a run of decimal digits. */
  function DigitsValue(s: string): (n: int)
    requires forall i :: 0 <= i < |s| ==> IsDigit(s[i])
    ensures n >= 0
  {
    if |s| == 0 then 0 else DigitsValue(s[..|s| - 1]) * 10 + DigitValue(s[|s| - 1])
  }

  function IsLeapYear(y: int): bool { (y % 4 == 0 && y % 100 != 0) || y % 400 == 0 }

  function DaysInMonth(y: int, m: int): int
    requires 1 <= m <= 12
  {
    if m == 2 then (if IsLeapYear(y) then 29 else 28)
    else if m == 4 || m == 6 || m == 9 || m == 11 then 30
    else 31
  }

  predicate ValidDate(d: Date) {
    1 <= d.year && 1 <= d.month <= 12 && 1 <= d.day <= DaysInMonth(d.year, d.month)
  }

  /** datetime.strptime(s, '%Y-%m-%d') on zero-padded keys; None stands for its ValueError. */
  function ParseDay(s: string): (r: Option<Date>)
    ensures r.Some? ==> ValidDate(r.value)
  {
    if |s| == 10 && s[4] == '-' && s[7] == '-' &&
       (forall i :: 0 <= i < 10 && i != 4 && i != 7 ==> IsDigit(s[i]))
    then
      var d := Date(DigitsValue(s[..4]), DigitsValue(s[5..7]), DigitsValue(s[8..]));
      if ValidDate(d) then Some(d) else None
    else None
  }

  /** Strictly earlier, in calendar order. */
  predicate Before(a: Date, b: Date) {
    a.year < b.year || (a.year == b.year && (a.month < b.month || (a.month == b.month && a.day < b.day)))
  }

  /** data_cmp: 1, -1 or 0 as the first key's day is later, earlier or the same; None for a key strptime rejects. */
  function DataCmp(key1: string, key2: string): (r: Option<int>)
    ensures r.None? <==> ParseDay(key1).None? || ParseDay(key2).None?
    ensures r.Some? ==> r.value in {-1, 0, 1}
    ensures r == Some(1) <==> ParseDay(key1).Some? && ParseDay(key2).Some? && Before(ParseDay(key2).value, ParseDay(key1).value)
    ensures r == Some(-1) <==> ParseDay(key1).Some? && ParseDay(key2).Some? && Before(ParseDay(key1).value, ParseDay(key2).value)
    ensures r == Some(0) <==> ParseDay(key1).Some? && ParseDay(key2).Some? && ParseDay(key1).value == ParseDay(key2).value
  {
    var d1, d2 := ParseDay(key1), ParseDay(key2);
    if d1.None? || d2.None? then None
    else if Before(d2.value, d1.value) then Some(1)
    else if Before(d1.value, d2.value) then Some(-1)
    else Some(0)
  }

  /** The comparator is antisymmetric, and equal to zero on a key and itself. */
  lemma DataCmpAntisymmetric(key1: string, key2: string)
    ensures DataCmp(key1, key2).Some? ==> DataCmp(key2, key1) == Some(-DataCmp(key1, key2).value)
    ensures ParseDay(key1).Some? ==> DataCmp(key1, key1) == Some(0)
  {
  }

  /** The comparator is transitive, so it orders the parseable keys. */
  lemma DataCmpTransitive(key1: string, key2: string, key3: string)
    requires DataCmp(key1, key2) == Some(-1) && DataCmp(key2, key3) == Some(-1)
    ensures DataCmp(key1, key3) == Some(-1)
  {
  }

  lemma Year2015()
    ensures DigitsValue("2015") == 2015
  {
    assert "2015"[..3] == "201" && "201"[..2] == "20" && "20"[..1] == "2" && "2"[..0] == "";
  }

  /** A zero-padded key parses to its day. */
  lemma ParseDayExample()
    ensures ParseDay("2015-03-09") == Some(Date(2015, 3, 9))
  {
    Year2015();
    assert "03"[..1] == "0" && "09"[..1] == "0";
    assert "2015-03-09"[..4] == "2015";
    assert "2015-03-09"[5..7] == "03";
    assert "2015-03-09"[8..] == "09";
    assert DigitsValue("03") == 3 && DigitsValue("09") == 9;
    assert ValidDate(Date(2015, 3, 9));
  }

  /** A day the month does not have is rejected. */
  lemma ParseDayRejectsMissingDay()
    ensures ParseDay("2015-02-29").None?
  {
    Year2015();
    assert "02"[..1] == "0" && "29"[..1] == "2";
    assert "2015-02-29"[..4] == "2015";
    assert "2015-02-29"[5..7] == "02";
    assert "2015-02-29"[8..] == "29";
  }

  /** Keys compare by calendar day. */
  lemma DataCmpExample()
    ensures DataCmp("2015-03-09", "2015-11-02") == Some(-1)
  {
    ParseDayExample();
    Year2015();
    assert "11"[..1] == "1" && "02"[..1] == "0";
    assert "2015-11-02"[..4] == "2015";
    assert "2015-11-02"[5..7] == "11";
    assert "2015-11-02"[8..] == "02";
  }

  // ---------------------------------------------------------------------
  // get_stock_data
  // ---------------------------------------------------------------------

  /** Boll.BOLL_N, the window width. */
  const BollN: nat := 20

  /** One entry of the history document: a date key and the price stored under it. */
  type Entry = (string, real)

  predicate HasPrefix(s: string, prefix: string) { |prefix| <= |s| && s[..|prefix|] == prefix }

  /** The entries whose key starts with '2015', in the dictionary's iteration order. */
  function Keep2015(entries: seq<Entry>): (kept: seq<Entry>)
    ensures forall e :: e in kept <==> e in entries && HasPrefix(e.0, "2015")
    ensures |kept| <= |entries|
  {
    if |entries| == 0 then []
    else
      var rest := Keep2015(entries[..|entries| - 1]);
      var e := entries[|entries| - 1];
      assert forall x :: x in entries <==> x in entries[..|entries| - 1] || x == e;
      if HasPrefix(e.0, "2015") then rest + [e] else rest
  }

  /** The document's 'code' field is never taken for a price. */
  lemma CodeEntryDropped(entries: seq<Entry>, price: real)
    ensures ("code", price) !in Keep2015(entries)
  {
    assert "code"[..4][0] == 'c';
  }

  ghost predicate AllParse(entries: seq<Entry>) {
    forall i :: 0 <= i < |entries| ==> ParseDay(entries[i].0).Some?
  }

  /** An entry with its key read as a date: what data_cmp compares. */
  type DatedPrice = (Date, real)

  /** The kept entries with their keys parsed. */
  function Dated(entries: seq<Entry>): (d: seq<DatedPrice>)
    requires AllParse(entries)
    ensures |d| == |entries|
    ensures forall i :: 0 <= i < |entries| ==> d[i] == (ParseDay(entries[i].0).value, entries[i].1)
  {
    seq(|entries|, i requires 0 <= i < |entries| => (ParseDay(entries[i].0).value, entries[i].1))
  }

  /** Non-decreasing by date. */
  ghost predicate DateOrdered(d: seq<DatedPrice>) {
    forall i, j :: 0 <= i < j < |d| ==> !Before(d[j].0, d[i].0)
  }

  /** Insert e before the first entry whose date is later (after any equal ones: a stable insertion). */
  function InsertByDate(e: DatedPrice, sorted: seq<DatedPrice>): (r: seq<DatedPrice>)
    ensures multiset(r) == multiset(sorted) + multiset{e}
    ensures |r| == |sorted| + 1
  {
    if |sorted| == 0 then [e]
    else if Before(e.0, sorted[0].0) then
      [e] + sorted
    else
      assert sorted == [sorted[0]] + sorted[1..];
      [sorted[0]] + InsertByDate(e, sorted[1..])
  }

  /** Not-before is a total preorder on dates. */
  lemma NotBeforeTransitive(a: Date, b: Date, c: Date)
    requires !Before(b, a) && !Before(c, b)
    ensures !Before(c, a)
  {
  }

  /** Inserting an entry not before the head into the tail gives entries none of which is before the head. */
  lemma InsertNotBeforeHead(e: DatedPrice, sorted: seq<DatedPrice>, tail: seq<DatedPrice>)
    requires DateOrdered(sorted) && |sorted| > 0 && !Before(e.0, sorted[0].0)
    requires tail == InsertByDate(e, sorted[1..])
    ensures forall k :: 0 <= k < |tail| ==> !Before(tail[k].0, sorted[0].0)
  {
    forall k | 0 <= k < |tail| ensures !Before(tail[k].0, sorted[0].0) {
      assert tail[k] in multiset(tail);
      assert tail[k] in multiset(sorted[1..]) || tail[k] == e;
      if tail[k] != e {
        var m :| 0 <= m < |sorted[1..]| && sorted[1..][m] == tail[k];
        assert sorted[m + 1] == tail[k];
      }
    }
  }

  lemma {:induction false} InsertKeepsOrder(e: DatedPrice, sorted: seq<DatedPrice>)
    requires DateOrdered(sorted)
    ensures DateOrdered(InsertByDate(e, sorted))
  {
    if |sorted| > 0 && !Before(e.0, sorted[0].0) {
      var tail := InsertByDate(e, sorted[1..]);
      InsertKeepsOrder(e, sorted[1..]);
      var r := [sorted[0]] + tail;
      InsertNotBeforeHead(e, sorted, tail);
      forall i, j | 0 <= i < j < |r| ensures !Before(r[j].0, r[i].0) {
        if i == 0 {
          assert r[0] == sorted[0] && r[j] == tail[j - 1];
        } else {
          assert r[i] == tail[i - 1] && r[j] == tail[j - 1];
        }
      }
    } else if |sorted| > 0 {
      var r := [e] + sorted;
      forall i, j | 0 <= i < j < |r| ensures !Before(r[j].0, r[i].0) {
        if i == 0 {
          assert r[j] == sorted[j - 1];
          NotBeforeTransitive(e.0, sorted[0].0, sorted[j - 1].0);
        } else {
          assert r[i] == sorted[i - 1] && r[j] == sorted[j - 1];
        }
      }
    }
  }

  /** list.sort(data_cmp): a sorted permutation of the dated entries. */
  function SortByDate(d: seq<DatedPrice>): (r: seq<DatedPrice>)
    ensures DateOrdered(r)
    ensures multiset(r) == multiset(d)
    ensures |r| == |d|
  {
    if |d| == 0 then []
    else
      assert d == d[..|d| - 1] + [d[|d| - 1]];
      var init := SortByDate(d[..|d| - 1]);
      InsertKeepsOrder(d[|d| - 1], init);
      InsertByDate(d[|d| - 1], init)
  }

  /** What get_stock_data hands back. */
  datatype HistoryResult =
    | DateError              // a key strptime rejects reached data_cmp (ValueError)
    | TooShort               // None: fewer than 2 * BOLL_N entries
    | PriceList(prices: seq<real>)

  /** A sort compares every element once there are two or more, so a bad key then raises. */
  predicate SortRaises(kept: seq<Entry>) {
    |kept| >= 2 && exists i :: 0 <= i < |kept| && ParseDay(kept[i].0).None?
  }

  function Values(d: seq<DatedPrice>): (vs: seq<real>)
    ensures |vs| == |d|
    ensures forall i :: 0 <= i < |d| ==> vs[i] == d[i].1
  {
    seq(|d|, i requires 0 <= i < |d| => d[i].1)
  }

  /**
   * Boll.get_stock_data: the 2015 entries sorted by date; None when fewer
   * than 40 remain; otherwise their prices in date order.
   */
  method GetStockData(history: seq<Entry>) returns (r: HistoryResult)
    ensures var kept := Keep2015(history);
            (r.DateError? <==> SortRaises(kept)) &&
            (r.TooShort? <==> !SortRaises(kept) && |kept| < 2 * BollN) &&
            (r.PriceList? ==> AllParse(kept) && |kept| >= 2 * BollN && r.prices == Values(SortByDate(Dated(kept))))
  {
    var data := Keep2015(history);
    if |data| >= 2 && exists i :: 0 <= i < |data| && ParseDay(data[i].0).None? {
      return DateError;
    }
    if |data| < 2 * BollN {
      return TooShort;
    }
    var sorted := SortByDate(Dated(data));
    var result: seq<real> := [];
    for i := 0 to |sorted|
      invariant result == Values(sorted[..i])
    {
      result := result + [sorted[i].1];
    }
    assert sorted[..|sorted|] == sorted;
    return PriceList(result);
  }

  // ---------------------------------------------------------------------
  // boll
  // ---------------------------------------------------------------------

  /** numpy.var: the population variance (mean of squared deviations). */
  function Variance(w: seq<real>): real
    requires |w| > 0
  {
    var m := Mean(w);
    Mean(seq(|w|, i requires 0 <= i < |w| => (w[i] - m) * (w[i] - m)))
  }

  lemma VarianceNonNegative(w: seq<real>)
    requires |w| > 0
    ensures Variance(w) >= 0.0
  {
    var m := Mean(w);
    var sq := seq(|w|, i requires 0 <= i < |w| => (w[i] - m) * (w[i] - m));
    forall x | x in sq ensures x >= 0.0 {
      var i :| 0 <= i < |sq| && sq[i] == x;
      SquareNonNegative(w[i] - m);
    }
    MeanNonNegative(sq);
  }

  lemma SquareNonNegative(x: real)
    ensures x * x >= 0.0
  {
    if x < 0.0 {
      assert x * x == (-x) * (-x);
    }
  }

  ghost predicate SqrtNonNegative(sqrt: real -> real) {
    forall x :: x >= 0.0 ==> sqrt(x) >= 0.0
  }

  ghost predicate Monotone(round: real -> real) {
    forall x, y :: x <= y ==> round(x) <= round(y)
  }

  /** Window i: the BOLL_N prices starting at i. */
  function Window(prices: seq<real>, i: nat): seq<real>
    requires i + BollN <= |prices|
  {
    prices[i..i + BollN]
  }

  /** numpy.std of window i, with the square root given as a parameter. */
  function StdDev(prices: seq<real>, i: nat, sqrt: real -> real): real
    requires i + BollN <= |prices|
  {
    sqrt(Variance(Window(prices, i)))
  }

  function UpperBand(prices: seq<real>, i: nat, sqrt: real -> real): real
    requires i + BollN <= |prices|
  {
    Mean(Window(prices, i)) + 2.0 * StdDev(prices, i, sqrt)
  }

  function LowerBand(prices: seq<real>, i: nat, sqrt: real -> real): real
    requires i + BollN <= |prices|
  {
    Mean(Window(prices, i)) - 2.0 * StdDev(prices, i, sqrt)
  }

  /**
   * Before rounding the bands sit symmetrically around the mean, lower band
   * below and upper band above; the mean lies within its window's extremes.
   */
  lemma BandsAroundMean(prices: seq<real>, i: nat, sqrt: real -> real)
    requires i + BollN <= |prices|
    requires SqrtNonNegative(sqrt)
    ensures UpperBand(prices, i, sqrt) - Mean(Window(prices, i)) == Mean(Window(prices, i)) - LowerBand(prices, i, sqrt)
    ensures LowerBand(prices, i, sqrt) <= Mean(Window(prices, i)) <= UpperBand(prices, i, sqrt)
    ensures SeqMin(Window(prices, i)) <= Mean(Window(prices, i)) <= SeqMax(Window(prices, i))
  {
    VarianceNonNegative(Window(prices, i));
    MeanWithinExtrema(Window(prices, i));
  }

  /**
   * Boll.boll: one row per window that has a following price; the four
   * lists hold that price and the mean and bands rounded to three places
   * (round3 stands for float('%0.3f' % x)).
   */
  method Boll(prices: seq<real>, sqrt: real -> real, round3: real -> real)
    returns (pl: seq<real>, mb: seq<real>, up: seq<real>, dn: seq<real>)
    ensures var n := if |prices| >= BollN then |prices| - BollN else 0;
            |pl| == n && |mb| == n && |up| == n && |dn| == n
    ensures forall i :: 0 <= i < |pl| ==>
              i + BollN < |prices| &&
              pl[i] == prices[i + BollN] &&
              mb[i] == round3(Mean(Window(prices, i))) &&
              up[i] == round3(UpperBand(prices, i, sqrt)) &&
              dn[i] == round3(LowerBand(prices, i, sqrt))
  {
    pl, mb, up, dn := [], [], [], [];
    var count := if |prices| >= BollN then |prices| - BollN else 0;
    for i := 0 to count
      invariant |pl| == i && |mb| == i && |up| == i && |dn| == i
      invariant forall k :: 0 <= k < i ==>
                  pl[k] == prices[k + BollN] &&
                  mb[k] == round3(Mean(Window(prices, k))) &&
                  up[k] == round3(UpperBand(prices, k, sqrt)) &&
                  dn[k] == round3(LowerBand(prices, k, sqrt))
    {
      var data := prices[i..i + BollN];
      var mean := Mean(data);
      var std := sqrt(Variance(data));
      pl := pl + [prices[i + BollN]];
      mb := mb + [round3(mean)];
      up := up + [round3(mean + 2.0 * std)];
      dn := dn + [round3(mean - 2.0 * std)];
    }
  }

  /** With a monotone rounding the published bands keep their order around the mean. */
  lemma RoundedBandsOrdered(prices: seq<real>, i: nat, sqrt: real -> real, round3: real -> real)
    requires i + BollN <= |prices|
    requires SqrtNonNegative(sqrt) && Monotone(round3)
    ensures round3(LowerBand(prices, i, sqrt)) <= round3(Mean(Window(prices, i)))
    ensures round3(Mean(Window(prices, i))) <= round3(UpperBand(prices, i, sqrt))
  {
    BandsAroundMean(prices, i, sqrt);
  }
}
