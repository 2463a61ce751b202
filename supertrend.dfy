/**
 * The SuperTrend indicator of indicator/tech_analysis.py and its web variant
 * indicator/tech_analysis_web.py.
 *
 * Both compute a true range, average it (a rolling mean that is undefined
 * until a full window is available, or, in the first variant's
 * change_atr=False mode, a mean over the rows seen so far), place a lower
 * band below and an upper band above the bar midpoint, and then walk the
 * rows once, ratcheting the bands and flipping the trend between +1 and -1.
 */
module SuperTrend {
  import opened Wrappers
  import opened Series

  // ---------------------------------------------------------------------
  // float64 values of the pandas columns
  // ---------------------------------------------------------------------

  /**
   * A float64 cell: NaN (pandas' missing value) or a finite value.
   * Every comparison involving NaN is false.
   */
  datatype Num = NaN | Fin(v: real)

  predicate Lt(a: Num, b: Num) { a.Fin? && b.Fin? && a.v < b.v }
  predicate Le(a: Num, b: Num) { a.Fin? && b.Fin? && a.v <= b.v }

  /** Python's builtin max(a, b): the first argument unless the second is greater. */
  function PyMax(a: Num, b: Num): (r: Num)
    ensures r == a || r == b
    ensures Lt(a, b) ==> r == b
    ensures a.Fin? && b.Fin? ==> r.v >= a.v && r.v >= b.v
    ensures a.NaN? ==> r.NaN?
  {
    if Lt(a, b) then b else a
  }

  /** Python's builtin min(a, b): the first argument unless the second is smaller. */
  function PyMin(a: Num, b: Num): (r: Num)
    ensures r == a || r == b
    ensures Lt(b, a) ==> r == b
    ensures a.Fin? && b.Fin? ==> r.v <= a.v && r.v <= b.v
    ensures a.NaN? ==> r.NaN?
  {
    if Lt(b, a) then b else a
  }

  function Abs(x: real): real { if x < 0.0 then -x else x }

  function Max3(a: real, b: real, c: real): (m: real)
    ensures m >= a && m >= b && m >= c
    ensures m == a || m == b || m == c
  {
    if a >= b && a >= c then a else if b >= c then b else c
  }

  // ---------------------------------------------------------------------
  // true range and its averages
  // ---------------------------------------------------------------------

  /**
   * True range: the largest of high - low, |high - previous close| and
   * |low - previous close|. The first row has no previous close; pandas'
   * row maximum skips the two NaN terms, leaving high - low.
   */
  function TrueRange(high: seq<real>, low: seq<real>, close: seq<real>): (tr: seq<real>)
    requires |high| == |low| == |close|
    ensures |tr| == |close|
    ensures |tr| > 0 ==> tr[0] == high[0] - low[0]
    ensures forall i :: 0 <= i < |tr| ==> tr[i] >= high[i] - low[i]
    ensures forall i :: 1 <= i < |tr| ==>
              tr[i] >= Abs(high[i] - close[i - 1]) && tr[i] >= Abs(low[i] - close[i - 1])
    ensures forall i :: 1 <= i < |tr| ==>
              tr[i] in {high[i] - low[i], Abs(high[i] - close[i - 1]), Abs(low[i] - close[i - 1])}
  {
    seq(|close|, i requires 0 <= i < |close| =>
      if i == 0 then high[0] - low[0]
      else Max3(high[i] - low[i], Abs(high[i] - close[i - 1]), Abs(low[i] - close[i - 1])))
  }

  /** From the second row on, the true range is never negative. */
  lemma TrueRangeNonNegative(high: seq<real>, low: seq<real>, close: seq<real>)
    requires |high| == |low| == |close|
    ensures forall i :: 1 <= i < |close| ==> TrueRange(high, low, close)[i] >= 0.0
  {
  }

  /** rolling(window=period, min_periods=period).mean(): NaN until a full window exists. */
  function Atr(tr: seq<real>, period: nat): (atr: seq<Num>)
    requires period >= 1
    ensures |atr| == |tr|
    ensures forall i :: 0 <= i < |tr| ==> (atr[i].Fin? <==> i + 1 >= period)
    ensures forall i :: 0 <= i < |tr| && i + 1 >= period ==>
              atr[i] == Fin(Mean(tr[i + 1 - period..i + 1]))
  {
    seq(|tr|, i requires 0 <= i < |tr| =>
      if i + 1 >= period then Fin(Mean(tr[i + 1 - period..i + 1])) else NaN)
  }

  /** rolling(window=period, min_periods=1).mean(): the mean of the last period rows seen so far. */
  function Sma(tr: seq<real>, period: nat): (sma: seq<Num>)
    requires period >= 1
    ensures |sma| == |tr|
    ensures forall i :: 0 <= i < |tr| ==> sma[i].Fin?
    ensures forall i :: 0 <= i < |tr| ==>
              sma[i] == Fin(Mean(tr[if i + 1 >= period then i + 1 - period else 0..i + 1]))
  {
    seq(|tr|, i requires 0 <= i < |tr| =>
      Fin(Mean(tr[if i + 1 >= period then i + 1 - period else 0..i + 1])))
  }

  /** Once a full window is available the two averages agree. */
  lemma AtrAgreesWithSmaAfterWarmUp(tr: seq<real>, period: nat, i: nat)
    requires period >= 1
    requires period - 1 <= i < |tr|
    ensures Atr(tr, period)[i] == Sma(tr, period)[i]
  {
  }

  /** Each defined average lies within the extremes of its window. */
  lemma AtrWithinWindow(tr: seq<real>, period: nat, i: nat)
    requires period >= 1
    requires period - 1 <= i < |tr|
    ensures SeqMin(tr[i + 1 - period..i + 1]) <= Atr(tr, period)[i].v
    ensures Atr(tr, period)[i].v <= SeqMax(tr[i + 1 - period..i + 1])
  {
    MeanWithinExtrema(tr[i + 1 - period..i + 1]);
  }

  /** The averaged range the bands use: rolling ATR, or the SMA of the true range. */
  function AverageRange(high: seq<real>, low: seq<real>, close: seq<real>, period: nat, changeAtr: bool): (atr: seq<Num>)
    requires |high| == |low| == |close|
    requires period >= 1
    ensures |atr| == |close|
  {
    var tr := TrueRange(high, low, close);
    if changeAtr then Atr(tr, period) else Sma(tr, period)
  }

  /** src - multiplier * atr (lower band) or src + multiplier * atr (upper band); NaN propagates. */
  function Band(high: seq<real>, low: seq<real>, atr: seq<Num>, multiplier: real, sign: real): (b: seq<Num>)
    requires |high| == |low| == |atr|
    ensures |b| == |atr|
    ensures forall i :: 0 <= i < |b| ==> (b[i].Fin? <==> atr[i].Fin?)
    ensures forall i :: 0 <= i < |b| && atr[i].Fin? ==>
              b[i].v == (high[i] + low[i]) / 2.0 + sign * multiplier * atr[i].v
  {
    seq(|atr|, i requires 0 <= i < |atr| =>
      if atr[i].Fin? then Fin((high[i] + low[i]) / 2.0 + sign * multiplier * atr[i].v) else NaN)
  }

  /** With a non-negative average and multiplier the lower band never lies above the upper band. */
  lemma BandsOrdered(high: seq<real>, low: seq<real>, atr: seq<Num>, multiplier: real, i: nat)
    requires |high| == |low| == |atr|
    requires i < |atr| && atr[i].Fin? && atr[i].v >= 0.0 && multiplier >= 0.0
    ensures Band(high, low, atr, multiplier, -1.0)[i].v <= Band(high, low, atr, multiplier, 1.0)[i].v
  {
    assert multiplier * atr[i].v >= 0.0;
  }

  // ---------------------------------------------------------------------
  // the band and trend walk
  // ---------------------------------------------------------------------

  /** Lower band at row i: reset to the raw band if the previous close fell to or below it, else ratchet up. */
  function UpStep(upI: Num, upAdjPrev: Num, closePrev: real): Num {
    if Le(Fin(closePrev), upAdjPrev) then upI else PyMax(upI, upAdjPrev)
  }

  /** Upper band at row i: reset if the previous close rose to or above it, else ratchet down. */
  function DnStep(dnI: Num, dnAdjPrev: Num, closePrev: real): Num {
    if Le(dnAdjPrev, Fin(closePrev)) then dnI else PyMin(dnI, dnAdjPrev)
  }

  /** A downtrend turns up when the close breaks the previous upper band, an uptrend down below the previous lower band. */
  function TrendStep(trendPrev: int, closeI: real, upAdjPrev: Num, dnAdjPrev: Num): int {
    if trendPrev == -1 && Lt(dnAdjPrev, Fin(closeI)) then 1
    else if trendPrev == 1 && Lt(Fin(closeI), upAdjPrev) then -1
    else trendPrev
  }

  /** The relation between the raw bands, the closes and the three series the walk produces. */
  ghost predicate IsRun(up: seq<Num>, dn: seq<Num>, close: seq<real>,
                        upAdj: seq<Num>, dnAdj: seq<Num>, trend: seq<int>)
  {
    |up| == |dn| == |close| == |upAdj| == |dnAdj| == |trend| &&
    (|close| > 0 ==> upAdj[0] == up[0] && dnAdj[0] == dn[0] && trend[0] == 1) &&
    forall i :: 1 <= i < |close| ==>
      upAdj[i] == UpStep(up[i], upAdj[i - 1], close[i - 1]) &&
      dnAdj[i] == DnStep(dn[i], dnAdj[i - 1], close[i - 1]) &&
      trend[i] == TrendStep(trend[i - 1], close[i], upAdj[i - 1], dnAdj[i - 1])
  }

  /** The loop shared by both variants: trend starts as all ones and the adjusted bands as copies. */
  method WalkBands(up: seq<Num>, dn: seq<Num>, close: seq<real>)
    returns (upAdj: seq<Num>, dnAdj: seq<Num>, trend: seq<int>)
    requires |up| == |dn| == |close|
    ensures IsRun(up, dn, close, upAdj, dnAdj, trend)
  {
    var n := |close|;
    trend := seq(n, _ => 1);
    upAdj := up;
    dnAdj := dn;
    if n == 0 {
      return;
    }
    for i := 1 to n
      invariant |upAdj| == |dnAdj| == |trend| == n
      invariant n > 0 ==> upAdj[0] == up[0] && dnAdj[0] == dn[0] && trend[0] == 1
      invariant forall j :: 1 <= j < i ==>
                  upAdj[j] == UpStep(up[j], upAdj[j - 1], close[j - 1]) &&
                  dnAdj[j] == DnStep(dn[j], dnAdj[j - 1], close[j - 1]) &&
                  trend[j] == TrendStep(trend[j - 1], close[j], upAdj[j - 1], dnAdj[j - 1])
      invariant forall j :: i <= j < n ==> upAdj[j] == up[j] && dnAdj[j] == dn[j] && trend[j] == 1
    {
      upAdj := upAdj[i := UpStep(up[i], upAdj[i - 1], close[i - 1])];
      dnAdj := dnAdj[i := DnStep(dn[i], dnAdj[i - 1], close[i - 1])];
      trend := trend[i := TrendStep(trend[i - 1], close[i], upAdj[i - 1], dnAdj[i - 1])];
    }
  }

  /** The trend column only ever holds +1 and -1. */
  lemma {:induction false} RunTrendIsSign(up: seq<Num>, dn: seq<Num>, close: seq<real>,
                                          upAdj: seq<Num>, dnAdj: seq<Num>, trend: seq<int>, k: nat)
    requires IsRun(up, dn, close, upAdj, dnAdj, trend)
    requires k < |trend|
    ensures trend[k] == 1 || trend[k] == -1
  {
    if k > 0 {
      RunTrendIsSign(up, dn, close, upAdj, dnAdj, trend, k - 1);
    }
  }

  /**
   * The trend changes between rows i-1 and i exactly when it turns up on a
   * close above the previous upper band or turns down on a close below the
   * previous lower band.
   */
  lemma RunFlips(up: seq<Num>, dn: seq<Num>, close: seq<real>,
                 upAdj: seq<Num>, dnAdj: seq<Num>, trend: seq<int>, i: nat)
    requires IsRun(up, dn, close, upAdj, dnAdj, trend)
    requires 1 <= i < |trend|
    ensures trend[i] == 1 && trend[i - 1] == -1 <==> trend[i - 1] == -1 && Lt(dnAdj[i - 1], Fin(close[i]))
    ensures trend[i] == -1 && trend[i - 1] == 1 <==> trend[i - 1] == 1 && Lt(Fin(close[i]), upAdj[i - 1])
    ensures trend[i] != trend[i - 1] <==>
              (trend[i - 1] == -1 && Lt(dnAdj[i - 1], Fin(close[i]))) ||
              (trend[i - 1] == 1 && Lt(Fin(close[i]), upAdj[i - 1]))
  {
    RunTrendIsSign(up, dn, close, upAdj, dnAdj, trend, i - 1);
  }

  /**
   * The adjusted lower band is defined exactly where the raw band is and
   * never lies below it; while the previous close stays above it, it only
   * rises. The upper band mirrors this.
   */
  lemma RunBands(up: seq<Num>, dn: seq<Num>, close: seq<real>,
                 upAdj: seq<Num>, dnAdj: seq<Num>, trend: seq<int>, i: nat)
    requires IsRun(up, dn, close, upAdj, dnAdj, trend)
    requires i < |trend|
    ensures upAdj[i].Fin? <==> up[i].Fin?
    ensures up[i].Fin? ==> upAdj[i].v >= up[i].v
    ensures dnAdj[i].Fin? <==> dn[i].Fin?
    ensures dn[i].Fin? ==> dnAdj[i].v <= dn[i].v
    ensures i >= 1 && up[i].Fin? && Lt(upAdj[i - 1], Fin(close[i - 1])) ==> upAdj[i].v >= upAdj[i - 1].v
    ensures i >= 1 && dn[i].Fin? && Lt(Fin(close[i - 1]), dnAdj[i - 1]) ==> dnAdj[i].v <= dnAdj[i - 1].v
  {
    if i >= 1 {
      assert upAdj[i] == UpStep(up[i], upAdj[i - 1], close[i - 1]);
      assert dnAdj[i] == DnStep(dn[i], dnAdj[i - 1], close[i - 1]);
    }
  }

  /**
   * While the average is still undefined (the first period - 1 rows of the
   * rolling ATR) neither band is defined, so the trend stays up.
   */
  lemma {:induction false} WarmUpStaysUp(up: seq<Num>, dn: seq<Num>, close: seq<real>,
                                         upAdj: seq<Num>, dnAdj: seq<Num>, trend: seq<int>, w: nat, k: nat)
    requires IsRun(up, dn, close, upAdj, dnAdj, trend)
    requires w <= |trend|
    requires forall j :: 0 <= j < w ==> up[j].NaN? && dn[j].NaN?
    requires k < w
    ensures upAdj[k].NaN? && dnAdj[k].NaN? && trend[k] == 1
  {
    RunBands(up, dn, close, upAdj, dnAdj, trend, k);
    if k > 0 {
      WarmUpStaysUp(up, dn, close, upAdj, dnAdj, trend, w, k - 1);
    }
  }

  // ---------------------------------------------------------------------
  // signals
  // ---------------------------------------------------------------------

  /** (trend == 1) & (trend.shift(1) == -1): the shifted first row is NaN, so row 0 is never a signal. */
  function BuySignal(trend: seq<int>): (b: seq<bool>)
    ensures |b| == |trend|
  {
    seq(|trend|, i requires 0 <= i < |trend| => i > 0 && trend[i] == 1 && trend[i - 1] == -1)
  }

  /** (trend == -1) & (trend.shift(1) == 1). */
  function SellSignal(trend: seq<int>): (s: seq<bool>)
    ensures |s| == |trend|
  {
    seq(|trend|, i requires 0 <= i < |trend| => i > 0 && trend[i] == -1 && trend[i - 1] == 1)
  }

  /**
   * A buy signal marks exactly the rows where a downtrend is broken by a
   * close above the previous upper band, a sell signal exactly the rows
   * where an uptrend is broken below the lower band; no row carries both,
   * and every change of trend carries one of them.
   */
  lemma SignalsMarkFlips(up: seq<Num>, dn: seq<Num>, close: seq<real>,
                         upAdj: seq<Num>, dnAdj: seq<Num>, trend: seq<int>, i: nat)
    requires IsRun(up, dn, close, upAdj, dnAdj, trend)
    requires i < |trend|
    ensures BuySignal(trend)[i] <==> i > 0 && trend[i - 1] == -1 && Lt(dnAdj[i - 1], Fin(close[i]))
    ensures SellSignal(trend)[i] <==> i > 0 && trend[i - 1] == 1 && Lt(Fin(close[i]), upAdj[i - 1])
    ensures !(BuySignal(trend)[i] && SellSignal(trend)[i])
    ensures i > 0 && trend[i] != trend[i - 1] ==> BuySignal(trend)[i] || SellSignal(trend)[i]
  {
    if i > 0 {
      RunFlips(up, dn, close, upAdj, dnAdj, trend, i);
      RunTrendIsSign(up, dn, close, upAdj, dnAdj, trend, i);
    }
  }

  // ---------------------------------------------------------------------
  // data frames
  // ---------------------------------------------------------------------

  /** A column of a pandas DataFrame, by the kind of values it holds. */
  datatype Column =
    | Prices(prices: seq<real>)    // a float column without missing values
    | Floats(floats: seq<Num>)     // a float column that may hold NaN (None in the web output)
    | Ints(ints: seq<int>)
    | Flags(flags: seq<bool>)
    | Labels(labels: seq<string>)  // e.g. the time column

  function ColumnLength(c: Column): nat {
    match c
    case Prices(s) => |s|
    case Floats(s) => |s|
    case Ints(s) => |s|
    case Flags(s) => |s|
    case Labels(s) => |s|
  }

  /** A DataFrame: a row count and named columns of that many rows (default integer index). */
  datatype Frame = Frame(rows: nat, columns: map<string, Column>)

  ghost predicate Rectangular(f: Frame) {
    forall k :: k in f.columns ==> ColumnLength(f.columns[k]) == f.rows
  }

  /** df[name] as a price series, or None where the column is missing or not numeric. */
  function PriceColumn(f: Frame, name: string): (r: Option<seq<real>>)
    ensures r.Some? <==> name in f.columns && f.columns[name].Prices?
    ensures r.Some? ==> r.value == f.columns[name].prices
  {
    if name in f.columns && f.columns[name].Prices? then Some(f.columns[name].prices) else None
  }

  const OutputColumns: set<string> :=
    {"supertrend_up", "supertrend_dn", "supertrend_trend", "supertrend_buy", "supertrend_sell"}

  function TrendAsFloat(trend: seq<int>): (t: seq<Num>)
    ensures |t| == |trend|
    ensures forall i :: 0 <= i < |t| ==> t[i] == Fin(trend[i] as real)
  {
    seq(|trend|, i requires 0 <= i < |trend| => Fin(trend[i] as real))
  }

  /**
   * TechAnalysis.supertrend: a copy of the data with the five supertrend
   * columns added (or replaced). None stands for the KeyError raised when
   * high, low or close is missing.
   */
  method Supertrend(data: Frame, period: nat, multiplier: real, changeAtr: bool) returns (r: Option<Frame>)
    requires Rectangular(data)
    requires period >= 1
    ensures r.None? <==> PriceColumn(data, "high").None? || PriceColumn(data, "low").None? ||
                         PriceColumn(data, "close").None?
    ensures r.Some? ==> Rectangular(r.value) && r.value.rows == data.rows
    ensures r.Some? ==> r.value.columns.Keys == data.columns.Keys + OutputColumns
    ensures r.Some? ==> forall k :: k in data.columns && k !in OutputColumns ==> r.value.columns[k] == data.columns[k]
    ensures r.Some? ==>
              var high, low, close := data.columns["high"].prices, data.columns["low"].prices, data.columns["close"].prices;
              var atr := AverageRange(high, low, close, period, changeAtr);
              var up, dn := Band(high, low, atr, multiplier, -1.0), Band(high, low, atr, multiplier, 1.0);
              var c := r.value.columns;
              c["supertrend_up"].Floats? && c["supertrend_dn"].Floats? && c["supertrend_trend"].Floats? &&
              c["supertrend_buy"].Flags? && c["supertrend_sell"].Flags? &&
              exists trend: seq<int> ::
                IsRun(up, dn, close, c["supertrend_up"].floats, c["supertrend_dn"].floats, trend) &&
                c["supertrend_trend"].floats == TrendAsFloat(trend) &&
                c["supertrend_buy"].flags == BuySignal(trend) &&
                c["supertrend_sell"].flags == SellSignal(trend)
  {
    var h, l, cl := PriceColumn(data, "high"), PriceColumn(data, "low"), PriceColumn(data, "close");
    if h.None? || l.None? || cl.None? {
      return None;
    }
    var high, low, close := h.value, l.value, cl.value;
    var atr := AverageRange(high, low, close, period, changeAtr);
    var up, dn := Band(high, low, atr, multiplier, -1.0), Band(high, low, atr, multiplier, 1.0);
    var upAdj, dnAdj, trend := WalkBands(up, dn, close);
    var cols := WithSupertrendColumns(data.columns, upAdj, dnAdj, trend);
    assert IsRun(up, dn, close, cols["supertrend_up"].floats, cols["supertrend_dn"].floats, trend);
    r := Some(Frame(data.rows, cols));
  }

  /** The columns of the frame with the five supertrend columns set. */
  function WithSupertrendColumns(columns: map<string, Column>, upAdj: seq<Num>, dnAdj: seq<Num>, trend: seq<int>)
    : (r: map<string, Column>)
    ensures r.Keys == columns.Keys + OutputColumns
    ensures forall k :: k in columns && k !in OutputColumns ==> r[k] == columns[k]
    ensures r["supertrend_up"] == Floats(upAdj) && r["supertrend_dn"] == Floats(dnAdj)
    ensures r["supertrend_trend"] == Floats(TrendAsFloat(trend))
    ensures r["supertrend_buy"] == Flags(BuySignal(trend)) && r["supertrend_sell"] == Flags(SellSignal(trend))
  {
    columns["supertrend_up" := Floats(upAdj)]["supertrend_dn" := Floats(dnAdj)]
           ["supertrend_trend" := Floats(TrendAsFloat(trend))]
           ["supertrend_buy" := Flags(BuySignal(trend))]["supertrend_sell" := Flags(SellSignal(trend))]
  }

  /** The web output's supertrend line: the lower band in an uptrend, the upper band in a downtrend (NaN shown as None). */
  function SupertrendLine(upAdj: seq<Num>, dnAdj: seq<Num>, trend: seq<int>): (st: seq<Num>)
    requires |upAdj| == |dnAdj| == |trend|
    ensures |st| == |trend|
  {
    seq(|trend|, i requires 0 <= i < |trend| => if trend[i] == 1 then upAdj[i] else dnAdj[i])
  }

  function Indicator(b: seq<bool>): (r: seq<int>)
    ensures |r| == |b|
    ensures forall i :: 0 <= i < |b| ==> (r[i] == 1 <==> b[i]) && (r[i] == 0 <==> !b[i])
  {
    seq(|b|, i requires 0 <= i < |b| => if b[i] then 1 else 0)
  }

  const WebColumns: set<string> := {"time", "supertrend", "trend", "buy", "sell"}

  /**
   * tech_analysis_web's TechAnalysis.supertrend: a new frame holding only
   * the time column, the supertrend line, the trend and the buy/sell flags
   * as integers. None stands for the KeyError of a missing column.
   */
  method WebSupertrend(df: Frame, period: nat, multiplier: real) returns (r: Option<Frame>)
    requires Rectangular(df)
    requires period >= 1
    ensures r.None? <==> PriceColumn(df, "high").None? || PriceColumn(df, "low").None? ||
                         PriceColumn(df, "close").None? || "time" !in df.columns
    ensures r.Some? ==> Rectangular(r.value) && r.value.rows == df.rows && r.value.columns.Keys == WebColumns
    ensures r.Some? ==> r.value.columns["time"] == df.columns["time"]
    ensures r.Some? ==>
              var high, low, close := df.columns["high"].prices, df.columns["low"].prices, df.columns["close"].prices;
              var atr := Atr(TrueRange(high, low, close), period);
              var up, dn := Band(high, low, atr, multiplier, -1.0), Band(high, low, atr, multiplier, 1.0);
              var c := r.value.columns;
              c["supertrend"].Floats? && c["trend"].Ints? && c["buy"].Ints? && c["sell"].Ints? &&
              exists upAdj: seq<Num>, dnAdj: seq<Num> ::
                IsRun(up, dn, close, upAdj, dnAdj, c["trend"].ints) &&
                c["supertrend"].floats == SupertrendLine(upAdj, dnAdj, c["trend"].ints) &&
                c["buy"].ints == Indicator(BuySignal(c["trend"].ints)) &&
                c["sell"].ints == Indicator(SellSignal(c["trend"].ints))
  {
    var h, l, cl := PriceColumn(df, "high"), PriceColumn(df, "low"), PriceColumn(df, "close");
    if h.None? || l.None? || cl.None? || "time" !in df.columns {
      return None;
    }
    var high, low, close := h.value, l.value, cl.value;
    var atr := Atr(TrueRange(high, low, close), period);
    var up, dn := Band(high, low, atr, multiplier, -1.0), Band(high, low, atr, multiplier, 1.0);
    var upAdj, dnAdj, trend := WalkBands(up, dn, close);
    var cols := map["time" := df.columns["time"],
                    "supertrend" := Floats(SupertrendLine(upAdj, dnAdj, trend)),
                    "trend" := Ints(trend),
                    "buy" := Ints(Indicator(BuySignal(trend))),
                    "sell" := Ints(Indicator(SellSignal(trend)))];
    r := Some(Frame(df.rows, cols));
  }

  /**
   * In the web output the line follows the band of the current trend: it is
   * the lower band in an uptrend, the upper band in a downtrend, undefined
   * for the first period - 1 rows, and defined from there on.
   */
  lemma WebLineFollowsTrend(high: seq<real>, low: seq<real>, close: seq<real>, period: nat, multiplier: real,
                            upAdj: seq<Num>, dnAdj: seq<Num>, trend: seq<int>, i: nat)
    requires |high| == |low| == |close|
    requires period >= 1
    requires IsRun(Band(high, low, Atr(TrueRange(high, low, close), period), multiplier, -1.0),
                   Band(high, low, Atr(TrueRange(high, low, close), period), multiplier, 1.0),
                   close, upAdj, dnAdj, trend)
    requires i < |trend|
    ensures trend[i] == 1 ==> SupertrendLine(upAdj, dnAdj, trend)[i] == upAdj[i]
    ensures trend[i] == -1 ==> SupertrendLine(upAdj, dnAdj, trend)[i] == dnAdj[i]
    ensures SupertrendLine(upAdj, dnAdj, trend)[i].NaN? <==> i + 1 < period
  {
    var atr := Atr(TrueRange(high, low, close), period);
    var up, dn := Band(high, low, atr, multiplier, -1.0), Band(high, low, atr, multiplier, 1.0);
    RunTrendIsSign(up, dn, close, upAdj, dnAdj, trend, i);
    RunBands(up, dn, close, upAdj, dnAdj, trend, i);
  }
}
