/**
 * The per-stock bookkeeping of MainChart (static/lightweight-charts.js
 * and static/lightweight-charts-v2.js) as values: the stock records,
 * visibility, price normalization, the "should we normalize" decision and
 * the time range spanned by the visible stocks.
 *
 * Array slots that hold null or are holes are None: both are falsy and
 * every test in the code treats them alike. A visibility slot is None when
 * it reads as undefined, which counts as visible.
 */
module StockSet {
  import opened Wrappers
  import opened JsValues
  import ChartData

  datatype StockInfo = StockInfo(code: string, name: string, colorScheme: nat, data: seq<Item>, isMain: bool)

  /** There are three colour schemes; colorSchemes[index] || colorSchemes[0]. */
  function ColorSchemeFor(index: nat): (scheme: nat)
    ensures scheme < 3
    ensures index < 3 ==> scheme == index
    ensures index >= 3 ==> scheme == 0
  {
    if index < 3 then index else 0
  }

  /** extractStockName: the code behind the word for "stock". */
  function StockName(code: string): (name: string)
    ensures |name| == |code| + 2 && name[..2] == "股票" && name[2..] == code
  {
    "股票" + code
  }

  /** The record storeStockInfo writes into slot index. */
  function NewStockInfo(code: string, index: nat, ohlc: seq<Item>): (info: StockInfo)
    ensures info.code == code && info.data == ohlc && (info.isMain <==> index == 0)
    ensures info.colorScheme == ColorSchemeFor(index) && info.name == StockName(info.code)
  {
    StockInfo(code, StockName(code), ColorSchemeFor(index), ohlc, index == 0)
  }

  /** stockVisibility[i] !== false */
  predicate Visible(visibility: seq<Option<bool>>, i: nat) {
    !(i < |visibility| && visibility[i] == Some(false))
  }

  /** stockInfo && stockInfo.data && stockInfo.data.length > 0 */
  predicate HasData(info: Option<StockInfo>) {
    info.Some? && |info.value.data| > 0
  }

  predicate VisibleWithData(infos: seq<Option<StockInfo>>, visibility: seq<Option<bool>>, i: nat) {
    i < |infos| && Visible(visibility, i) && HasData(infos[i])
  }

  /** s with fill appended until it has at least n slots. */
  function PadTo<T>(s: seq<T>, n: nat, fill: T): (r: seq<T>)
    ensures |r| == if |s| < n then n else |s|
    ensures r[..|s|] == s
    ensures forall k :: |s| <= k < |r| ==> r[k] == fill
  {
    if |s| < n then s + seq(n - |s|, _ => fill) else s
  }

  // ---------------------------------------------------------------------
  // normalization
  // ---------------------------------------------------------------------

  function Close(item: Item): Number {
    ToNumber(Get(item, "close"))
  }

  /** The ratio enableNormalization computes for one stock: 1 without data, else base price over its first close. */
  function RatioFor(basePrice: Number, info: Option<StockInfo>): Number {
    if !HasData(info) then Finite(1.0) else Div(basePrice, Close(info.value.data[0]))
  }

  /** stockInfos.map(...) */
  function Ratios(infos: seq<Option<StockInfo>>, basePrice: Number): (ratios: seq<Number>)
    ensures |ratios| == |infos|
    ensures forall k :: 0 <= k < |infos| ==> ratios[k] == RatioFor(basePrice, infos[k])
  {
    seq(|infos|, k requires 0 <= k < |infos| => RatioFor(basePrice, infos[k]))
  }

  /** normalizationRatios[index] || 1: a missing, zero or NaN ratio counts as 1. */
  function EffectiveRatio(ratios: seq<Number>, index: nat): (r: Number)
    ensures NumberTruthy(r)
    ensures index < |ratios| && NumberTruthy(ratios[index]) ==> r == ratios[index]
  {
    if index < |ratios| && NumberTruthy(ratios[index]) then ratios[index] else Finite(1.0)
  }

  /** { ...item, open: item.open * ratio, high: ..., low: ..., close: ... } */
  function ScaleCandle(item: Item, ratio: Number): Item {
    item["open" := Num(Mul(ToNumber(Get(item, "open")), ratio))]
        ["high" := Num(Mul(ToNumber(Get(item, "high")), ratio))]
        ["low" := Num(Mul(ToNumber(Get(item, "low")), ratio))]
        ["close" := Num(Mul(ToNumber(Get(item, "close")), ratio))]
  }

  /** originalData.map(item => ({ ...item, open: item.open * ratio, ... })) */
  function ScaleCandles(data: seq<Item>, ratio: Number): (r: seq<Item>)
    ensures |r| == |data|
  {
    if |data| == 0 then [] else ScaleCandles(data[..|data| - 1], ratio) + [ScaleCandle(data[|data| - 1], ratio)]
  }

  /** Every candle is scaled, none added, dropped or moved. */
  lemma {:induction false} ScaleCandlesAt(data: seq<Item>, ratio: Number)
    ensures forall k :: 0 <= k < |data| ==> ScaleCandles(data, ratio)[k] == ScaleCandle(data[k], ratio)
  {
    if |data| > 0 {
      ScaleCandlesAt(data[..|data| - 1], ratio);
    }
  }

  const PriceFields: set<string> := {"open", "high", "low", "close"}

  /**
   * A normalized candle multiplies the four prices by the ratio and keeps
   * every other field, time included; the price fields exist afterwards even
   * if they were missing (as NaN).
   */
  lemma ScaledCandleFields(item: Item, ratio: Number)
    ensures var s := ScaleCandle(item, ratio);
            s.Keys == item.Keys + PriceFields &&
            (forall f :: f in PriceFields ==> s[f] == Num(Mul(ToNumber(Get(item, f)), ratio))) &&
            (forall f :: f in item && f !in PriceFields ==> s[f] == item[f])
  {
    PricesUpdated(item, Num(Mul(ToNumber(Get(item, "open")), ratio)), Num(Mul(ToNumber(Get(item, "high")), ratio)),
                  Num(Mul(ToNumber(Get(item, "low")), ratio)), Num(Mul(ToNumber(Get(item, "close")), ratio)));
    var s := ScaleCandle(item, ratio);
    forall f | f in PriceFields
      ensures s[f] == Num(Mul(ToNumber(Get(item, f)), ratio))
    {
      assert f == "open" || f == "high" || f == "low" || f == "close";
    }
  }

  /** Writing the four price fields adds them to the keys and leaves every other field alone. */
  lemma PricesUpdated(item: Item, o: JsValue, h: JsValue, l: JsValue, c: JsValue)
    ensures var s := item["open" := o]["high" := h]["low" := l]["close" := c];
            s.Keys == item.Keys + PriceFields &&
            s["open"] == o && s["high"] == h && s["low"] == l && s["close"] == c &&
            (forall f :: f in item && f !in PriceFields ==> s[f] == item[f])
  {
  }

  /** A ratio of 1 (what a missing or zero ratio becomes) leaves candles with numeric prices as they are. */
  lemma ScaleByOne(item: Item)
    requires forall f :: f in PriceFields ==> f in item && item[f].Num?
    ensures ScaleCandle(item, Finite(1.0)) == item
  {
    forall f | f in PriceFields
      ensures Num(Mul(ToNumber(item[f]), Finite(1.0))) == item[f]
    {
      MulOne(item[f].n);
    }
    assert "open" in PriceFields && "high" in PriceFields && "low" in PriceFields && "close" in PriceFields;
    var s := ScaleCandle(item, Finite(1.0));
    assert s.Keys == item.Keys;
    assert forall f :: f in item ==> s[f] == item[f];
  }

  /**
   * Normalization aligns the starting points: a stock whose first close is a
   * finite non-zero number is scaled so that its first close becomes the
   * base stock's first close.
   */
  lemma NormalizedFirstClose(basePrice: real, info: StockInfo)
    requires |info.data| > 0 && Close(info.data[0]).Finite? && Close(info.data[0]).v != 0.0
    ensures Close(ScaleCandles(info.data, RatioFor(Finite(basePrice), Some(info)))[0]) == Finite(basePrice)
  {
    var item := info.data[0];
    var c := Close(item).v;
    var ratio := RatioFor(Finite(basePrice), Some(info));
    assert ratio == Div(Finite(basePrice), Finite(c));
    ScaleCandlesAt(info.data, ratio);
    assert ScaleCandles(info.data, ratio)[0] == ScaleCandle(item, ratio);
    assert Get(ScaleCandle(item, ratio), "close") == Num(Mul(Finite(c), ratio));
    DivThenMul(basePrice, c);
  }

  /** The base stock's own ratio is 1 whenever its first close is a finite non-zero number. */
  lemma BaseRatioIsOne(info: StockInfo)
    requires |info.data| > 0 && Close(info.data[0]).Finite? && Close(info.data[0]).v != 0.0
    ensures RatioFor(Close(info.data[0]), Some(info)) == Finite(1.0)
  {
    var c := Close(info.data[0]);
    assert HasData(Some(info));
    DivThenMul(c.v, c.v);
  }

  /** A price indicator: its type contains 'supertrend' or is 'ma5' or 'ma10'; others (Squeeze momentum) are not normalized. */
  predicate IsPriceIndicator(kind: Option<string>) {
    kind.Some? && kind.value != "" &&
    (Contains(kind.value, "supertrend") || kind.value == "ma5" || kind.value == "ma10")
  }

  /** s.includes(part) */
  predicate Contains(s: string, part: string) {
    |part| <= |s| && (s[..|part|] == part || Contains(s[1..], part))
  }

  /**
   * An indicator line of one stock: its type, the original data kept for
   * normalization, whether it carries a series object (without one, setData
   * is called on the record itself, throws, and the error is caught), and
   * the data the series currently shows.
   */
  datatype Indicator = Indicator(kind: Option<string>, originalData: Option<seq<Item>>, hasSeries: bool, shown: seq<Item>)

  /** { ...item, value: item.value * ratio } */
  function ScaleValue(item: Item, ratio: Number): Item {
    item["value" := Num(Mul(ToNumber(Get(item, "value")), ratio))]
  }

  /** originalData.map(item => ({ ...item, value: item.value * ratio })) */
  function ScaleValues(data: seq<Item>, ratio: Number): (r: seq<Item>)
    ensures |r| == |data|
  {
    if |data| == 0 then [] else ScaleValues(data[..|data| - 1], ratio) + [ScaleValue(data[|data| - 1], ratio)]
  }

  lemma {:induction false} ScaleValuesAt(data: seq<Item>, ratio: Number)
    ensures forall k :: 0 <= k < |data| ==> ScaleValues(data, ratio)[k] == ScaleValue(data[k], ratio)
  {
    if |data| > 0 {
      ScaleValuesAt(data[..|data| - 1], ratio);
    }
  }

  /** What applyIndicatorNormalization does to one indicator. */
  function NormalizeIndicator(ind: Indicator, ratio: Number): (r: Indicator)
    ensures r.kind == ind.kind && r.originalData == ind.originalData && r.hasSeries == ind.hasSeries
    ensures ind.hasSeries && ind.originalData.Some? && IsPriceIndicator(ind.kind) ==>
              r.shown == ScaleValues(ind.originalData.value, ratio)
    ensures !(ind.hasSeries && ind.originalData.Some? && IsPriceIndicator(ind.kind)) ==> r == ind
  {
    if ind.hasSeries && ind.originalData.Some? && IsPriceIndicator(ind.kind) then
      ind.(shown := ScaleValues(ind.originalData.value, ratio))
    else ind
  }

  /** What restoreOriginalIndicators does to one indicator. */
  function RestoreIndicator(ind: Indicator): (r: Indicator)
    ensures r.kind == ind.kind && r.originalData == ind.originalData && r.hasSeries == ind.hasSeries
    ensures ind.hasSeries && ind.originalData.Some? && IsPriceIndicator(ind.kind) ==> r.shown == ind.originalData.value
    ensures !(ind.hasSeries && ind.originalData.Some? && IsPriceIndicator(ind.kind)) ==> r == ind
  {
    if ind.hasSeries && ind.originalData.Some? && IsPriceIndicator(ind.kind) then
      ind.(shown := ind.originalData.value)
    else ind
  }

  /** Restoring after normalizing any ratio gives the same lines as restoring at once. */
  lemma RestoreUndoesNormalize(ind: Indicator, ratio: Number)
    ensures RestoreIndicator(NormalizeIndicator(ind, ratio)) == RestoreIndicator(ind)
  {
  }

  lemma IndicatorKinds()
    ensures IsPriceIndicator(Some("supertrend_line")) && IsPriceIndicator(Some("ma5"))
    ensures !IsPriceIndicator(Some("squeeze")) && !IsPriceIndicator(None)
  {
    assert "supertrend_line"[..10] == "supertrend";
    assert "squeeze" != "ma5" && "squeeze" != "ma10";
  }

  // ---------------------------------------------------------------------
  // shouldEnableNormalization
  // ---------------------------------------------------------------------

  /** The last close of a stock with data. */
  function LastClose(info: StockInfo): Number
    requires |info.data| > 0
  {
    Close(info.data[|info.data| - 1])
  }

  /** Math.abs(price - mainPrice) / mainPrice > 0.3 */
  predicate FarApart(price: Number, mainPrice: Number) {
    Less(Finite(0.3), Div(Abs(Sub(price, mainPrice)), mainPrice))
  }

  /** The reference stock: the first visible stock with data. */
  ghost predicate IsReference(infos: seq<Option<StockInfo>>, visibility: seq<Option<bool>>, m: nat) {
    VisibleWithData(infos, visibility, m) && forall j :: 0 <= j < m ==> !VisibleWithData(infos, visibility, j)
  }

  /**
   * Normalization is worthwhile when there are at least two stocks and some
   * other visible stock with data ends more than 30% away from the
   * reference stock's last close.
   */
  ghost predicate NormalizationNeeded(infos: seq<Option<StockInfo>>, visibility: seq<Option<bool>>) {
    |infos| > 1 &&
    exists m: nat :: IsReference(infos, visibility, m) &&
      exists i: nat :: i < |infos| && i != m && VisibleWithData(infos, visibility, i) &&
        FarApart(LastClose(infos[i].value), LastClose(infos[m].value))
  }

  /** There is at most one reference stock. */
  lemma ReferenceUnique(infos: seq<Option<StockInfo>>, visibility: seq<Option<bool>>, m: nat, m': nat)
    requires IsReference(infos, visibility, m) && IsReference(infos, visibility, m')
    ensures m == m'
  {
  }

  /** No normalization for a single stock, nor when no stock is visible with data. */
  lemma NormalizationNotNeeded(infos: seq<Option<StockInfo>>, visibility: seq<Option<bool>>)
    ensures |infos| <= 1 ==> !NormalizationNeeded(infos, visibility)
    ensures (forall i: nat :: i < |infos| ==> !VisibleWithData(infos, visibility, i)) ==> !NormalizationNeeded(infos, visibility)
  {
  }

  /** Equal last closes never call for normalization. */
  lemma EqualClosesNotNeeded(infos: seq<Option<StockInfo>>, visibility: seq<Option<bool>>, price: real)
    requires price > 0.0
    requires forall i: nat :: VisibleWithData(infos, visibility, i) ==> LastClose(infos[i].value) == Finite(price)
    ensures !NormalizationNeeded(infos, visibility)
  {
    forall m: nat, i: nat | IsReference(infos, visibility, m) && i < |infos| && i != m && VisibleWithData(infos, visibility, i)
      ensures !FarApart(LastClose(infos[i].value), LastClose(infos[m].value))
    {
      assert Div(Abs(Sub(Finite(price), Finite(price))), Finite(price)) == Finite(0.0);
    }
  }

  /** Two visible stocks ending at 10 and 14 are 40% apart: normalize. */
  lemma NormalizationExampleFar(a: seq<Item>, b: seq<Item>)
    requires |a| > 0 && Close(a[|a| - 1]) == Finite(10.0)
    requires |b| > 0 && Close(b[|b| - 1]) == Finite(14.0)
    ensures NormalizationNeeded([Some(StockInfo("A", "A", 0, a, true)), Some(StockInfo("B", "B", 1, b, false))], [])
  {
    var infos := [Some(StockInfo("A", "A", 0, a, true)), Some(StockInfo("B", "B", 1, b, false))];
    assert IsReference(infos, [], 0);
    assert LastClose(infos[1].value) == Finite(14.0) && LastClose(infos[0].value) == Finite(10.0);
    assert FarApart(Finite(14.0), Finite(10.0));
    assert VisibleWithData(infos, [], 1);
  }

  /** Two visible stocks ending at 10 and 12 are 20% apart: do not normalize. */
  lemma NormalizationExampleNear(a: seq<Item>, c: seq<Item>)
    requires |a| > 0 && Close(a[|a| - 1]) == Finite(10.0)
    requires |c| > 0 && Close(c[|c| - 1]) == Finite(12.0)
    ensures !NormalizationNeeded([Some(StockInfo("A", "A", 0, a, true)), Some(StockInfo("C", "C", 1, c, false))], [])
  {
    var infos := [Some(StockInfo("A", "A", 0, a, true)), Some(StockInfo("C", "C", 1, c, false))];
    assert IsReference(infos, [], 0);
    assert !FarApart(Finite(12.0), Finite(10.0));
    forall m: nat, i: nat | IsReference(infos, [], m) && i < |infos| && i != m
      ensures !FarApart(LastClose(infos[i].value), LastClose(infos[m].value))
    {
      ReferenceUnique(infos, [], m, 0);
      assert i == 1;
    }
  }

  // ---------------------------------------------------------------------
  // the time range of the visible stocks
  // ---------------------------------------------------------------------

  /** stockInfo.data.map(item => convertTimeToNumber(item.time)).filter(t => !isNaN(t)) */
  function StockTimes(data: seq<Item>, parseDate: string -> Number): (ts: seq<Number>)
    ensures forall t :: t in ts ==> t != NaN
    ensures |ts| <= |data|
  {
    if |data| == 0 then []
    else
      var rest := StockTimes(data[..|data| - 1], parseDate);
      var t := ChartData.ConvertTimeToNumber(Get(data[|data| - 1], "time"), parseDate);
      if t == NaN then rest else rest + [t]
  }

  /** Math.min(...ts), which is Infinity for no arguments. */
  function MinOf(ts: seq<Number>): Number {
    if |ts| == 0 then Infinity(true) else Min(MinOf(ts[..|ts| - 1]), ts[|ts| - 1])
  }

  /** Math.max(...ts), which is -Infinity for no arguments. */
  function MaxOf(ts: seq<Number>): Number {
    if |ts| == 0 then Infinity(false) else Max(MaxOf(ts[..|ts| - 1]), ts[|ts| - 1])
  }

  /**
   * The minTime and maxTime adjustTimeRangeToVisibleStocks reaches: starting
   * from Infinity and -Infinity, each visible stock with at least one
   * parseable time folds in its own minimum and maximum.
   */
  function VisibleExtrema(infos: seq<Option<StockInfo>>, visibility: seq<Option<bool>>,
                          parseDate: string -> Number): (Number, Number)
  {
    if |infos| == 0 then (Infinity(true), Infinity(false))
    else
      var k := |infos| - 1;
      var (lo, hi) := VisibleExtrema(infos[..k], visibility, parseDate);
      if Visible(visibility, k) && HasData(infos[k]) then
        var ts := StockTimes(infos[k].value.data, parseDate);
        if |ts| > 0 then (Min(lo, MinOf(ts)), Max(hi, MaxOf(ts))) else (lo, hi)
      else (lo, hi)
  }

  /**
   * The range adjustTimeRangeToVisibleStocks sets from the extrema: min −
   * f·span to max + f·span, f being the margin factor; None (nothing set)
   * when the minimum is still Infinity or the maximum still -Infinity.
   */
  function AdjustedRange(lo: Number, hi: Number, marginFactor: real): Option<(Number, Number)> {
    if lo == Infinity(true) || hi == Infinity(false) then None
    else
      var margin := Mul(Sub(hi, lo), Finite(marginFactor));
      Some((Sub(lo, margin), Add(hi, margin)))
  }

  /** The lightweight-charts.js margin (0%) and the lightweight-charts-v2.js margin (2%). */
  const MarginV1: real := 0.0
  const MarginV2: real := 0.02

  /** Over finite times the folds give the true minimum and maximum. */
  lemma {:induction false} FiniteExtrema(ts: seq<Number>)
    requires |ts| > 0 && forall t :: t in ts ==> t.Finite?
    ensures MinOf(ts).Finite? && MaxOf(ts).Finite?
    ensures MinOf(ts) in ts && MaxOf(ts) in ts
    ensures forall t :: t in ts ==> MinOf(ts).v <= t.v <= MaxOf(ts).v
  {
    var init := ts[..|ts| - 1];
    assert forall t :: t in ts <==> t in init || t == ts[|ts| - 1];
    if |init| > 0 {
      FiniteExtrema(init);
    }
  }

  /** No stored time converts to an infinity. */
  predicate FiniteTimes(data: seq<Item>, parseDate: string -> Number) {
    forall i :: 0 <= i < |data| ==> !ChartData.ConvertTimeToNumber(Get(data[i], "time"), parseDate).Infinity?
  }

  lemma {:induction false} StockTimesFinite(data: seq<Item>, parseDate: string -> Number)
    requires FiniteTimes(data, parseDate)
    ensures forall t :: t in StockTimes(data, parseDate) ==> t.Finite?
  {
    if |data| > 0 {
      StockTimesFinite(data[..|data| - 1], parseDate);
    }
  }

  /** Some visible stock with data has a parseable time. */
  ghost predicate HasVisibleTime(infos: seq<Option<StockInfo>>, visibility: seq<Option<bool>>, parseDate: string -> Number) {
    exists k: nat :: VisibleWithData(infos, visibility, k) && |StockTimes(infos[k].value.data, parseDate)| > 0
  }

  ghost predicate AllFiniteTimes(infos: seq<Option<StockInfo>>, parseDate: string -> Number) {
    forall k :: 0 <= k < |infos| && infos[k].Some? ==> FiniteTimes(infos[k].value.data, parseDate)
  }

  /** Every parseable time of data is finite and lies in [lo, hi]. */
  ghost predicate TimesWithin(lo: Number, hi: Number, data: seq<Item>, parseDate: string -> Number) {
    lo.Finite? && hi.Finite? &&
    forall t :: t in StockTimes(data, parseDate) ==> t.Finite? && lo.v <= t.v <= hi.v
  }

  /** Every visible stock's times lie in [lo, hi]. */
  ghost predicate VisibleWithin(lo: Number, hi: Number, infos: seq<Option<StockInfo>>, visibility: seq<Option<bool>>,
                                parseDate: string -> Number) {
    lo.Finite? && hi.Finite? &&
    forall k: nat :: VisibleWithData(infos, visibility, k) ==> TimesWithin(lo, hi, infos[k].value.data, parseDate)
  }

  lemma TimesWithinWiden(lo: Number, hi: Number, lo': Number, hi': Number, data: seq<Item>, parseDate: string -> Number)
    requires TimesWithin(lo, hi, data, parseDate)
    requires lo'.Finite? && hi'.Finite? && lo'.v <= lo.v && hi.v <= hi'.v
    ensures TimesWithin(lo', hi', data, parseDate)
  {
  }

  /** A stock's own minimum and maximum bound its times. */
  lemma OwnTimesWithin(data: seq<Item>, parseDate: string -> Number)
    requires FiniteTimes(data, parseDate) && |StockTimes(data, parseDate)| > 0
    ensures TimesWithin(MinOf(StockTimes(data, parseDate)), MaxOf(StockTimes(data, parseDate)), data, parseDate)
  {
    StockTimesFinite(data, parseDate);
    FiniteExtrema(StockTimes(data, parseDate));
  }

  /** Min and Max of a finite number with Infinity or with another finite number. */
  lemma MinMaxFinite(a: Number, b: real)
    requires a.Finite? || a == Infinity(true)
    ensures Min(a, Finite(b)).Finite? && Min(a, Finite(b)).v <= b
    ensures a.Finite? ==> Min(a, Finite(b)).v <= a.v
    ensures a == Infinity(true) ==> Min(a, Finite(b)) == Finite(b)
  {
  }

  lemma MaxFinite(a: Number, b: real)
    requires a.Finite? || a == Infinity(false)
    ensures Max(a, Finite(b)).Finite? && Max(a, Finite(b)).v >= b
    ensures a.Finite? ==> Max(a, Finite(b)).v >= a.v
    ensures a == Infinity(false) ==> Max(a, Finite(b)) == Finite(b)
  {
  }

  /** What the prefix of the stock list knows carries over to the whole list. */
  lemma PrefixVisible(infos: seq<Option<StockInfo>>, visibility: seq<Option<bool>>, parseDate: string -> Number)
    requires |infos| > 0
    ensures var init := infos[..|infos| - 1];
            (forall j: nat :: j < |init| ==> init[j] == infos[j]) &&
            (forall j: nat :: VisibleWithData(init, visibility, j) ==> VisibleWithData(infos, visibility, j)) &&
            (AllFiniteTimes(infos, parseDate) ==> AllFiniteTimes(init, parseDate)) &&
            (HasVisibleTime(init, visibility, parseDate) ==> HasVisibleTime(infos, visibility, parseDate))
  {
    var init := infos[..|infos| - 1];
    if HasVisibleTime(init, visibility, parseDate) {
      var j: nat :| VisibleWithData(init, visibility, j) && |StockTimes(init[j].value.data, parseDate)| > 0;
      assert init[j] == infos[j];
    }
  }

  /** The invariant of the fold: infinite before any visible time, bounding every visible stock after. */
  ghost predicate ExtremaInvariant(lohi: (Number, Number), infos: seq<Option<StockInfo>>, visibility: seq<Option<bool>>,
                                   parseDate: string -> Number) {
    (!HasVisibleTime(infos, visibility, parseDate) ==> lohi == (Infinity(true), Infinity(false))) &&
    (HasVisibleTime(infos, visibility, parseDate) ==> VisibleWithin(lohi.0, lohi.1, infos, visibility, parseDate))
  }

  /** The last stock contributes its own times. */
  lemma ExtremaStepContributes(infos: seq<Option<StockInfo>>, visibility: seq<Option<bool>>, parseDate: string -> Number)
    requires |infos| > 0 && AllFiniteTimes(infos, parseDate)
    requires var k := |infos| - 1;
             VisibleWithData(infos, visibility, k) && |StockTimes(infos[k].value.data, parseDate)| > 0
    requires ExtremaInvariant(VisibleExtrema(infos[..|infos| - 1], visibility, parseDate), infos[..|infos| - 1], visibility, parseDate)
    ensures ExtremaInvariant(VisibleExtrema(infos, visibility, parseDate), infos, visibility, parseDate)
  {
    var k := |infos| - 1;
    var init := infos[..k];
    PrefixVisible(infos, visibility, parseDate);
    var (lo, hi) := VisibleExtrema(init, visibility, parseDate);
    var data := infos[k].value.data;
    var ts := StockTimes(data, parseDate);
    OwnTimesWithin(data, parseDate);
    var mn, mx := MinOf(ts), MaxOf(ts);
    MinMaxFinite(lo, mn.v);
    MaxFinite(hi, mx.v);
    var lo', hi' := Min(lo, mn), Max(hi, mx);
    assert VisibleExtrema(infos, visibility, parseDate) == (lo', hi');
    assert HasVisibleTime(infos, visibility, parseDate);
    TimesWithinWiden(mn, mx, lo', hi', data, parseDate);
    forall j: nat | VisibleWithData(infos, visibility, j)
      ensures TimesWithin(lo', hi', infos[j].value.data, parseDate)
    {
      if j < k {
        assert init[j] == infos[j];
        assert VisibleWithData(init, visibility, j);
        if |StockTimes(infos[j].value.data, parseDate)| > 0 {
          assert HasVisibleTime(init, visibility, parseDate);
          TimesWithinWiden(lo, hi, lo', hi', infos[j].value.data, parseDate);
        }
      }
    }
  }

  /** The last stock is hidden, has no data or no parseable time: nothing changes. */
  lemma ExtremaStepSkips(infos: seq<Option<StockInfo>>, visibility: seq<Option<bool>>, parseDate: string -> Number)
    requires |infos| > 0
    requires var k := |infos| - 1;
             !(VisibleWithData(infos, visibility, k) && |StockTimes(infos[k].value.data, parseDate)| > 0)
    requires ExtremaInvariant(VisibleExtrema(infos[..|infos| - 1], visibility, parseDate), infos[..|infos| - 1], visibility, parseDate)
    ensures ExtremaInvariant(VisibleExtrema(infos, visibility, parseDate), infos, visibility, parseDate)
  {
    var init := infos[..|infos| - 1];
    PrefixVisible(infos, visibility, parseDate);
    SkippedStockAddsNoTime(infos, visibility, parseDate);
    var lohi := VisibleExtrema(init, visibility, parseDate);
    assert VisibleExtrema(infos, visibility, parseDate) == lohi;
    if HasVisibleTime(infos, visibility, parseDate) {
      SkippedStockWithin(infos, visibility, parseDate, lohi);
    }
  }

  lemma SkippedStockAddsNoTime(infos: seq<Option<StockInfo>>, visibility: seq<Option<bool>>, parseDate: string -> Number)
    requires |infos| > 0
    requires var k := |infos| - 1;
             !(VisibleWithData(infos, visibility, k) && |StockTimes(infos[k].value.data, parseDate)| > 0)
    ensures HasVisibleTime(infos, visibility, parseDate) ==> HasVisibleTime(infos[..|infos| - 1], visibility, parseDate)
  {
    var k := |infos| - 1;
    var init := infos[..k];
    if HasVisibleTime(infos, visibility, parseDate) {
      var j: nat :| VisibleWithData(infos, visibility, j) && |StockTimes(infos[j].value.data, parseDate)| > 0;
      assert j < k && init[j] == infos[j];
      assert VisibleWithData(init, visibility, j);
    }
  }

  lemma SkippedStockWithin(infos: seq<Option<StockInfo>>, visibility: seq<Option<bool>>, parseDate: string -> Number,
                           lohi: (Number, Number))
    requires |infos| > 0
    requires var k := |infos| - 1;
             !(VisibleWithData(infos, visibility, k) && |StockTimes(infos[k].value.data, parseDate)| > 0)
    requires VisibleWithin(lohi.0, lohi.1, infos[..|infos| - 1], visibility, parseDate)
    ensures VisibleWithin(lohi.0, lohi.1, infos, visibility, parseDate)
  {
    var k := |infos| - 1;
    var init := infos[..k];
    forall j: nat | VisibleWithData(infos, visibility, j)
      ensures TimesWithin(lohi.0, lohi.1, infos[j].value.data, parseDate)
    {
      if j < k {
        assert init[j] == infos[j];
        assert VisibleWithData(init, visibility, j);
      }
    }
  }

  /**
   * With finite times the extrema are infinite exactly when no visible
   * stock has a time, and otherwise bound every visible stock's times.
   */
  lemma {:induction false} VisibleExtremaBounds(infos: seq<Option<StockInfo>>, visibility: seq<Option<bool>>,
                                                parseDate: string -> Number)
    requires AllFiniteTimes(infos, parseDate)
    ensures ExtremaInvariant(VisibleExtrema(infos, visibility, parseDate), infos, visibility, parseDate)
  {
    if |infos| > 0 {
      var k := |infos| - 1;
      PrefixVisible(infos, visibility, parseDate);
      VisibleExtremaBounds(infos[..k], visibility, parseDate);
      if VisibleWithData(infos, visibility, k) && |StockTimes(infos[k].value.data, parseDate)| > 0 {
        ExtremaStepContributes(infos, visibility, parseDate);
      } else {
        ExtremaStepSkips(infos, visibility, parseDate);
      }
    }
  }

  lemma FiniteProduct(x: real, y: real)
    ensures Mul(Finite(x), Finite(y)) == Finite(x * y)
  {
  }

  /** The margin on each side: span times the margin factor. */
  function Margin(lo: real, hi: real, f: real): (m: real)
    requires lo <= hi && f >= 0.0
    ensures m >= 0.0
  {
    (hi - lo) * f
  }

  /** The range set from finite extrema lo <= hi. */
  lemma AdjustedFromFinite(lo: real, hi: real, marginFactor: real)
    requires lo <= hi && marginFactor >= 0.0
    ensures AdjustedRange(Finite(lo), Finite(hi), marginFactor) ==
              Some((Finite(lo - Margin(lo, hi, marginFactor)), Finite(hi + Margin(lo, hi, marginFactor))))
  {
    var m := Margin(lo, hi, marginFactor);
    calc {
      Mul(Sub(Finite(hi), Finite(lo)), Finite(marginFactor));
      { FiniteArithmetic(hi, lo); }
      Mul(Finite(hi - lo), Finite(marginFactor));
      { FiniteProduct(hi - lo, marginFactor); }
      Finite((hi - lo) * marginFactor);
      Finite(m);
    }
    assert Sub(Finite(lo), Finite(m)) == Finite(lo - m);
  }

  /**
   * adjustTimeRangeToVisibleStocks leaves the range alone when no visible
   * stock has a parseable time, and otherwise sets a range that contains
   * every time of every visible stock, widened by the margin on both sides.
   */
  lemma AdjustedRangeCoversVisibleTimes(infos: seq<Option<StockInfo>>, visibility: seq<Option<bool>>,
                                        parseDate: string -> Number, marginFactor: real)
    requires AllFiniteTimes(infos, parseDate) && marginFactor >= 0.0
    ensures var (lo, hi) := VisibleExtrema(infos, visibility, parseDate);
            var r := AdjustedRange(lo, hi, marginFactor);
            (r.None? <==> !HasVisibleTime(infos, visibility, parseDate)) &&
            (r.Some? ==> VisibleWithin(r.value.0, r.value.1, infos, visibility, parseDate))
  {
    VisibleExtremaBounds(infos, visibility, parseDate);
    var (lo, hi) := VisibleExtrema(infos, visibility, parseDate);
    if HasVisibleTime(infos, visibility, parseDate) {
      var k: nat :| VisibleWithData(infos, visibility, k) && |StockTimes(infos[k].value.data, parseDate)| > 0;
      var t := StockTimes(infos[k].value.data, parseDate)[0];
      assert t in StockTimes(infos[k].value.data, parseDate);
      assert lo.v <= t.v <= hi.v;
      AdjustedFromFinite(lo.v, hi.v, marginFactor);
      var m := Margin(lo.v, hi.v, marginFactor);
      var lo', hi' := Finite(lo.v - m), Finite(hi.v + m);
      forall j: nat | VisibleWithData(infos, visibility, j)
        ensures TimesWithin(lo', hi', infos[j].value.data, parseDate)
      {
        TimesWithinWiden(lo, hi, lo', hi', infos[j].value.data, parseDate);
      }
    }
  }

  /** With the v1 margin of 0% the range is exactly the extrema. */
  lemma V1RangeIsExactSpan(lo: real, hi: real)
    requires lo <= hi
    ensures AdjustedRange(Finite(lo), Finite(hi), MarginV1) == Some((Finite(lo), Finite(hi)))
  {
    AdjustedFromFinite(lo, hi, MarginV1);
  }

  // ---------------------------------------------------------------------
  // storing and showing stocks
  // ---------------------------------------------------------------------

  /** The array after a write to slot index, first padded with fill up to index. */
  function StoredSlot<T>(s: seq<T>, index: nat, fill: T, value: T): (r: seq<T>)
    ensures |r| == if index < |s| then |s| else index + 1
    ensures r[index] == value
    ensures forall k :: 0 <= k < |s| && k != index ==> r[k] == s[k]
    ensures forall k :: |s| <= k < |r| && k != index ==> r[k] == fill
  {
    PadTo(s, index + 1, fill)[index := value]
  }

  /**
   * Padding visibility with true (lightweight-charts.js) and leaving holes
   * (lightweight-charts-v2.js, where a hole reads as undefined) make the
   * same stocks visible.
   */
  lemma StoreVisibilityAgrees(visibility: seq<Option<bool>>, index: nat)
    ensures forall i: nat :: Visible(StoredSlot(visibility, index, Some(true), Some(true)), i) ==
                             Visible(StoredSlot(visibility, index, None, Some(true)), i)
  {
  }

  /** One more push of the padding loop. */
  lemma PadStep<T>(s: seq<T>, n: nat, fill: T)
    requires |s| <= n
    ensures PadTo(s, n, fill) + [fill] == PadTo(s, n + 1, fill)
  {
    assert PadTo(s, n + 1, fill) == s + seq(n + 1 - |s|, _ => fill);
  }

  /** stockVisibility[index] = stockVisibility[index] !== false ? false : true */
  function Toggled(visibility: seq<Option<bool>>, index: nat): (r: seq<Option<bool>>)
    requires index < |visibility|
    ensures |r| == |visibility|
    ensures forall k :: 0 <= k < |visibility| && k != index ==> r[k] == visibility[k]
  {
    visibility[index := if visibility[index] != Some(false) then Some(false) else Some(true)]
  }

  /** Toggling flips the visibility of that one stock and of no other; twice gives the same visibility back. */
  lemma ToggleFlipsOne(visibility: seq<Option<bool>>, index: nat)
    requires index < |visibility|
    ensures forall i: nat :: Visible(Toggled(visibility, index), i) == if i == index then !Visible(visibility, i) else Visible(visibility, i)
    ensures forall i: nat :: Visible(Toggled(Toggled(visibility, index), index), i) == Visible(visibility, i)
    ensures Toggled(visibility, index)[index].Some?
  {
    var once := Toggled(visibility, index);
    assert forall i: nat :: Visible(once, i) == if i == index then !Visible(visibility, i) else Visible(visibility, i);
  }

  // ---------------------------------------------------------------------
  // normalization of the shown series
  // ---------------------------------------------------------------------

  function NormalizeAll(inds: seq<Indicator>, ratio: Number): (r: seq<Indicator>)
    ensures |r| == |inds| && forall j :: 0 <= j < |inds| ==> r[j] == NormalizeIndicator(inds[j], ratio)
  {
    seq(|inds|, j requires 0 <= j < |inds| => NormalizeIndicator(inds[j], ratio))
  }

  function RestoreAll(inds: seq<Indicator>): (r: seq<Indicator>)
    ensures |r| == |inds| && forall j :: 0 <= j < |inds| ==> r[j] == RestoreIndicator(inds[j])
  {
    seq(|inds|, j requires 0 <= j < |inds| => RestoreIndicator(inds[j]))
  }

  /** Stock k takes part in normalization when it has a record and its original data. */
  predicate Normalizable(infos: seq<Option<StockInfo>>, original: seq<Option<seq<Item>>>, k: nat) {
    k < |infos| && infos[k].Some? && k < |original| && original[k].Some?
  }

  /** Stock k's original candles scaled by its effective ratio. */
  function NormalizedSeries(original: seq<Option<seq<Item>>>, ratios: seq<Number>, k: nat): seq<Item> {
    if k < |original| && original[k].Some? then ScaleCandles(original[k].value, EffectiveRatio(ratios, k)) else []
  }

  /** Stock k's original candles. */
  function OriginalSeries(original: seq<Option<seq<Item>>>, k: nat): seq<Item> {
    if k < |original| && original[k].Some? then original[k].value else []
  }

  /**
   * The loops of applyNormalization and disableNormalization visit the
   * stocks 0 .. n-1 in turn and replace the entry of each touched stock
   * that has one: m after those n steps.
   */
  function UpdatedBelow<V>(m: map<nat, V>, touched: nat -> bool, f: nat -> V, n: nat): map<nat, V> {
    if n == 0 then m
    else
      var prev := UpdatedBelow(m, touched, f, n - 1);
      if n - 1 in m && touched(n - 1) then prev[n - 1 := f(n - 1)] else prev
  }

  /** After n steps every touched entry below n holds its new value and every other entry its old one. */
  lemma {:induction false} UpdatedBelowAt<V>(m: map<nat, V>, touched: nat -> bool, f: nat -> V, n: nat)
    ensures var r := UpdatedBelow(m, touched, f, n);
            r.Keys == m.Keys && forall k :: k in r ==> r[k] == if k < n && touched(k) then f(k) else m[k]
  {
    if n > 0 {
      UpdatedBelowAt(m, touched, f, n - 1);
      var prev := UpdatedBelow(m, touched, f, n - 1);
      var r := UpdatedBelow(m, touched, f, n);
      forall k | k in r
        ensures r[k] == if k < n && touched(k) then f(k) else m[k]
      {
        if k != n - 1 {
          assert r[k] == prev[k];
        }
      }
    }
  }

  // The per-stock conditions and new values of those loops, as function values.

  function NormalizableAt(infos: seq<Option<StockInfo>>, original: seq<Option<seq<Item>>>): nat -> bool {
    (k: nat) => Normalizable(infos, original, k)
  }

  function HasRecordAt(infos: seq<Option<StockInfo>>): nat -> bool {
    (k: nat) => k < |infos| && infos[k].Some?
  }

  function ScaledSeriesOf(original: seq<Option<seq<Item>>>, ratios: seq<Number>): nat -> seq<Item> {
    (k: nat) => NormalizedSeries(original, ratios, k)
  }

  function OriginalSeriesOf(original: seq<Option<seq<Item>>>): nat -> seq<Item> {
    (k: nat) => OriginalSeries(original, k)
  }

  function NormalizedLinesOf(lines: map<nat, seq<Indicator>>, ratios: seq<Number>): nat -> seq<Indicator> {
    (k: nat) => if k in lines then NormalizeAll(lines[k], EffectiveRatio(ratios, k)) else []
  }

  function RestoredLinesOf(lines: map<nat, seq<Indicator>>): nat -> seq<Indicator> {
    (k: nat) => if k in lines then RestoreAll(lines[k]) else []
  }

  /** The data the candle series show once stocks 0 .. n-1 are normalized. */
  function NormalizedCandles(shown: map<nat, seq<Item>>, infos: seq<Option<StockInfo>>, original: seq<Option<seq<Item>>>,
                             ratios: seq<Number>, n: nat): map<nat, seq<Item>>
  {
    UpdatedBelow(shown, NormalizableAt(infos, original), ScaledSeriesOf(original, ratios), n)
  }

  /** The indicator lines once stocks 0 .. n-1 are normalized. */
  function NormalizedIndicators(lines: map<nat, seq<Indicator>>, infos: seq<Option<StockInfo>>, ratios: seq<Number>, n: nat): map<nat, seq<Indicator>>
  {
    UpdatedBelow(lines, HasRecordAt(infos), NormalizedLinesOf(lines, ratios), n)
  }

  /** The candle data once stocks 0 .. n-1 are restored. */
  function RestoredCandles(shown: map<nat, seq<Item>>, infos: seq<Option<StockInfo>>, original: seq<Option<seq<Item>>>, n: nat): map<nat, seq<Item>>
  {
    UpdatedBelow(shown, NormalizableAt(infos, original), OriginalSeriesOf(original), n)
  }

  /** The indicator lines once stocks 0 .. n-1 are restored. */
  function RestoredIndicators(lines: map<nat, seq<Indicator>>, infos: seq<Option<StockInfo>>, original: seq<Option<seq<Item>>>, n: nat): map<nat, seq<Indicator>>
  {
    UpdatedBelow(lines, NormalizableAt(infos, original), RestoredLinesOf(lines), n)
  }

  /** Every stock with a record has its original data. */
  predicate OriginalsKept(infos: seq<Option<StockInfo>>, original: seq<Option<seq<Item>>>) {
    forall k :: 0 <= k < |infos| && infos[k].Some? ==> k < |original| && original[k] == Some(infos[k].value.data)
  }

  /**
   * Disabling after enabling leaves the series exactly as disabling alone
   * would: every normalizable stock's candles and price indicators show
   * their original data again, whatever the ratios were.
   */
  lemma DisableUndoesEnable(shown: map<nat, seq<Item>>, lines: map<nat, seq<Indicator>>, infos: seq<Option<StockInfo>>,
                            original: seq<Option<seq<Item>>>, ratios: seq<Number>)
    requires OriginalsKept(infos, original)
    ensures var n := |infos|;
            RestoredCandles(NormalizedCandles(shown, infos, original, ratios, n), infos, original, n) ==
              RestoredCandles(shown, infos, original, n)
    ensures var n := |infos|;
            RestoredIndicators(NormalizedIndicators(lines, infos, ratios, n), infos, original, n) ==
              RestoredIndicators(lines, infos, original, n)
  {
    var n := |infos|;
    var touched := NormalizableAt(infos, original);
    var normalized := NormalizedCandles(shown, infos, original, ratios, n);
    UpdatedBelowAt(shown, touched, ScaledSeriesOf(original, ratios), n);
    UpdatedBelowAt(normalized, touched, OriginalSeriesOf(original), n);
    UpdatedBelowAt(shown, touched, OriginalSeriesOf(original), n);
    var a := RestoredCandles(normalized, infos, original, n);
    var b := RestoredCandles(shown, infos, original, n);
    assert a.Keys == b.Keys;
    forall k | k in a
      ensures a[k] == b[k]
    {
    }
    IndicatorsRestored(lines, infos, original, ratios);
  }

  lemma IndicatorsRestored(lines: map<nat, seq<Indicator>>, infos: seq<Option<StockInfo>>,
                           original: seq<Option<seq<Item>>>, ratios: seq<Number>)
    requires OriginalsKept(infos, original)
    ensures var n := |infos|;
            RestoredIndicators(NormalizedIndicators(lines, infos, ratios, n), infos, original, n) ==
              RestoredIndicators(lines, infos, original, n)
  {
    var n := |infos|;
    var normalized := NormalizedIndicators(lines, infos, ratios, n);
    UpdatedBelowAt(lines, HasRecordAt(infos), NormalizedLinesOf(lines, ratios), n);
    UpdatedBelowAt(normalized, NormalizableAt(infos, original), RestoredLinesOf(normalized), n);
    UpdatedBelowAt(lines, NormalizableAt(infos, original), RestoredLinesOf(lines), n);
    var a := RestoredIndicators(normalized, infos, original, n);
    var b := RestoredIndicators(lines, infos, original, n);
    forall k | k in a
      ensures a[k] == b[k]
    {
      if k < n && Normalizable(infos, original, k) {
        LinesRestored(lines[k], EffectiveRatio(ratios, k));
      }
    }
  }

  /** Restoring a stock's normalized indicator lines gives what restoring the originals gives. */
  lemma LinesRestored(inds: seq<Indicator>, ratio: Number)
    ensures RestoreAll(NormalizeAll(inds, ratio)) == RestoreAll(inds)
  {
    forall j | 0 <= j < |inds|
      ensures RestoreAll(NormalizeAll(inds, ratio))[j] == RestoreAll(inds)[j]
    {
      RestoreUndoesNormalize(inds[j], ratio);
    }
  }

  /**
   * Enabling normalization puts every stock on the base stock's scale: a
   * shown candle series of a stock whose first close is a finite non-zero
   * number starts at the base stock's first close, and keeps one candle per
   * stored candle.
   */
  lemma EnableAlignsFirstCloses(shown: map<nat, seq<Item>>, infos: seq<Option<StockInfo>>, original: seq<Option<seq<Item>>>,
                                k: nat)
    requires OriginalsKept(infos, original)
    requires |infos| > 0 && HasData(infos[0]) && k in shown && k < |infos| && HasData(infos[k])
    requires var base := Close(infos[0].value.data[0]);
             base.Finite? && base.v != 0.0
    requires var c := Close(infos[k].value.data[0]);
             c.Finite? && c.v != 0.0
    ensures var base := Close(infos[0].value.data[0]);
            var after := NormalizedCandles(shown, infos, original, Ratios(infos, base), |infos|);
            k in after && |after[k]| == |infos[k].value.data| && Close(after[k][0]) == base
  {
    var base := Close(infos[0].value.data[0]);
    var info := infos[k].value;
    var ratios := Ratios(infos, base);
    UpdatedBelowAt(shown, NormalizableAt(infos, original), ScaledSeriesOf(original, ratios), |infos|);
    var c := Close(info.data[0]).v;
    assert ratios[k] == Div(base, Finite(c));
    assert base.v / c != 0.0;
    assert EffectiveRatio(ratios, k) == ratios[k];
    NormalizedFirstClose(base.v, info);
  }
}
