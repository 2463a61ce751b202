/**
 * The state MainChart keeps about the stocks it shows (static/lightweight-charts.js,
 * static/lightweight-charts-v2.js): the three per-stock arrays, the
 * normalization flag and ratios, what each candle and indicator series
 * currently shows, the timer list, the zoom flag, the last visible range it
 * set and the BaseChart state record.
 *
 * The chart library is not modelled: a candle series is an entry of
 * candleData (the data last passed to its setData), an indicator series an
 * entry of stockIndicatorSeries, and setVisibleRange stores its argument in
 * visibleRange. Timer ids come from the caller, since setTimeout is outside
 * the model.
 */
module MainChartModel {
  import opened Wrappers
  import opened JsValues
  import ChartData
  import opened StockSet

  // ---------------------------------------------------------------------
  // what enabling and disabling do to the series
  // ---------------------------------------------------------------------

  /**
   * The ratios the chart keeps and what the candle and indicator series show
   * after enableNormalization: with a base stock (slot 0) that has data,
   * every stock's ratio is computed from the first closes and every stock
   * is normalized; otherwise nothing changes.
   */
  function EnableResult(infos: seq<Option<StockInfo>>, original: seq<Option<seq<Item>>>, ratios: seq<Number>,
                        candles: map<nat, seq<Item>>, lines: map<nat, seq<Indicator>>)
    : (seq<Number>, map<nat, seq<Item>>, map<nat, seq<Indicator>>)
  {
    if |infos| > 0 && HasData(infos[0]) then
      var r := Ratios(infos, Close(infos[0].value.data[0]));
      (r, NormalizedCandles(candles, infos, original, r, |infos|), NormalizedIndicators(lines, infos, r, |infos|))
    else (ratios, candles, lines)
  }

  /** The same after disableNormalization: originals shown again, no ratios. */
  function DisableResult(infos: seq<Option<StockInfo>>, original: seq<Option<seq<Item>>>,
                         candles: map<nat, seq<Item>>, lines: map<nat, seq<Indicator>>)
    : (seq<Number>, map<nat, seq<Item>>, map<nat, seq<Indicator>>)
  {
    ([], RestoredCandles(candles, infos, original, |infos|), RestoredIndicators(lines, infos, original, |infos|))
  }

  /**
   * Toggling normalization on and then off leaves the series as switching it
   * off at once would, and the ratios empty.
   */
  lemma ToggleTwiceRestores(infos: seq<Option<StockInfo>>, original: seq<Option<seq<Item>>>, ratios: seq<Number>,
                            candles: map<nat, seq<Item>>, lines: map<nat, seq<Indicator>>)
    requires OriginalsKept(infos, original)
    ensures var enabled := EnableResult(infos, original, ratios, candles, lines);
            DisableResult(infos, original, enabled.1, enabled.2) == DisableResult(infos, original, candles, lines)
  {
    if |infos| > 0 && HasData(infos[0]) {
      DisableUndoesEnable(candles, lines, infos, original, Ratios(infos, Close(infos[0].value.data[0])));
    }
  }

  /** One step of applyNormalization's loop, for stock i. */
  lemma NormalizeStep(shown: map<nat, seq<Item>>, lines: map<nat, seq<Indicator>>, infos: seq<Option<StockInfo>>,
                      original: seq<Option<seq<Item>>>, ratios: seq<Number>, i: nat)
    requires i < |infos| && OriginalsKept(infos, original)
    ensures var prev := NormalizedCandles(shown, infos, original, ratios, i);
            (i in prev <==> i in shown) &&
            NormalizedCandles(shown, infos, original, ratios, i + 1) ==
            if i in prev && infos[i].Some? then prev[i := ScaleCandles(original[i].value, EffectiveRatio(ratios, i))] else prev
    ensures var prev := NormalizedIndicators(lines, infos, ratios, i);
            (i in prev <==> i in lines) && (i in prev ==> prev[i] == lines[i]) &&
            NormalizedIndicators(lines, infos, ratios, i + 1) ==
            if i in prev && infos[i].Some? then prev[i := NormalizeAll(prev[i], EffectiveRatio(ratios, i))] else prev
  {
    UpdatedBelowAt(shown, NormalizableAt(infos, original), ScaledSeriesOf(original, ratios), i);
    UpdatedBelowAt(lines, HasRecordAt(infos), NormalizedLinesOf(lines, ratios), i);
  }

  /** One step of disableNormalization's loop, for stock i. */
  lemma RestoreStep(shown: map<nat, seq<Item>>, lines: map<nat, seq<Indicator>>, infos: seq<Option<StockInfo>>,
                    original: seq<Option<seq<Item>>>, i: nat)
    requires i < |infos| && |original| == |infos|
    ensures var prev := RestoredCandles(shown, infos, original, i);
            (i in prev <==> i in shown) &&
            RestoredCandles(shown, infos, original, i + 1) ==
            if i in prev && infos[i].Some? && original[i].Some? then prev[i := original[i].value] else prev
    ensures var prev := RestoredIndicators(lines, infos, original, i);
            (i in prev <==> i in lines) && (i in prev ==> prev[i] == lines[i]) &&
            RestoredIndicators(lines, infos, original, i + 1) ==
            if i in prev && infos[i].Some? && original[i].Some? then prev[i := RestoreAll(prev[i])] else prev
  {
    UpdatedBelowAt(shown, NormalizableAt(infos, original), OriginalSeriesOf(original), i);
    UpdatedBelowAt(lines, NormalizableAt(infos, original), RestoredLinesOf(lines), i);
  }

  // ---------------------------------------------------------------------
  // the timer list
  // ---------------------------------------------------------------------

  /** Array.prototype.indexOf: the first index holding x, or -1. */
  function IndexOf(s: seq<int>, x: int): (i: int)
    ensures -1 <= i < |s|
    ensures i == -1 <==> x !in s
    ensures 0 <= i ==> s[i] == x && x !in s[..i]
  {
    if |s| == 0 then -1
    else if s[0] == x then 0
    else
      var j := IndexOf(s[1..], x);
      assert s[1..][..if j < 0 then 0 else j] == s[1..if j < 0 then 1 else j + 1];
      if j == -1 then -1 else j + 1
  }

  /** s without its first occurrence of x. */
  function RemoveFirst(s: seq<int>, x: int): seq<int> {
    if |s| == 0 then []
    else if s[0] == x then s[1..]
    else [s[0]] + RemoveFirst(s[1..], x)
  }

  /** Clearing a timer removes exactly one occurrence of its id when it is listed, and nothing else. */
  lemma {:induction false} RemoveFirstMultiset(s: seq<int>, x: int)
    ensures multiset(RemoveFirst(s, x)) + (if x in s then multiset{x} else multiset{}) == multiset(s)
  {
    if |s| > 0 {
      var t := s[1..];
      assert s == [s[0]] + t;
      assert multiset(s) == multiset{s[0]} + multiset(t);
      if s[0] != x {
        RemoveFirstMultiset(t, x);
        assert x in s <==> x in t;
        assert multiset(RemoveFirst(s, x)) == multiset{s[0]} + multiset(RemoveFirst(t, x));
      }
    }
  }

  /** The list shrinks by one exactly when the id is listed. */
  lemma {:induction false} RemoveFirstLength(s: seq<int>, x: int)
    ensures |RemoveFirst(s, x)| == if x in s then |s| - 1 else |s|
  {
    if |s| > 0 && s[0] != x {
      RemoveFirstLength(s[1..], x);
      assert x in s <==> x in s[1..];
    }
  }

  /** Clearing an id that is not listed changes nothing. */
  lemma {:induction false} RemoveFirstAbsent(s: seq<int>, x: int)
    requires x !in s
    ensures RemoveFirst(s, x) == s
  {
    if |s| > 0 {
      RemoveFirstAbsent(s[1..], x);
      assert s == [s[0]] + s[1..];
    }
  }

  /** Splicing out the element at indexOf is removing the first occurrence. */
  lemma {:induction false} SpliceAtIndexOf(s: seq<int>, x: int)
    requires x in s
    ensures var i := IndexOf(s, x);
            s[..i] + s[i + 1..] == RemoveFirst(s, x)
  {
    if s[0] != x {
      var t := s[1..];
      SpliceAtIndexOf(t, x);
      var j := IndexOf(t, x);
      assert IndexOf(s, x) == j + 1;
      assert s[..j + 1] == [s[0]] + t[..j];
      assert s[j + 2..] == t[j + 1..];
      assert RemoveFirst(s, x) == [s[0]] + (t[..j] + t[j + 1..]);
    }
  }

  // ---------------------------------------------------------------------
  // BaseChart state
  // ---------------------------------------------------------------------

  /** The state a BaseChart starts with. */
  const InitialState: Item := map["isLoading" := Bool(false), "isDataLoaded" := Bool(false), "isAligned" := Bool(false),
                                  "hasError" := Bool(false), "errorMessage" := Null]

  /** { ...state, ...newState }: every key of either, the new value winning. */
  lemma MergedState(state: Item, newState: Item)
    ensures (state + newState).Keys == state.Keys + newState.Keys
    ensures forall k :: k in newState ==> (state + newState)[k] == newState[k]
    ensures forall k :: k in state && k !in newState ==> (state + newState)[k] == state[k]
  {
  }

  /** A wheel event while the chart has no visible range, or one whose ends do not parse, zooms nothing. */
  lemma ZoomWithoutRange(deltaY: Number, parseDate: string -> Number, from: string, to: string)
    requires parseDate(from) == NaN
    ensures ChartData.ZoomedRange(true, None, deltaY, parseDate).None?
    ensures ChartData.ZoomedRange(true, Some(map["from" := Text(from), "to" := Text(to)]), deltaY, parseDate).None?
  {
    var range: Item := map["from" := Text(from), "to" := Text(to)];
    assert Get(range, "from") == Text(from);
  }

  class MainChart {
    var hasChart: bool
    var stockInfos: seq<Option<StockInfo>>
    var stockVisibility: seq<Option<bool>>
    var originalStockData: seq<Option<seq<Item>>>
    var normalizationRatios: seq<Number>
    var normalizationEnabled: bool
    /** The data shown by the candle series of each stock that has one. */
    var candleData: map<nat, seq<Item>>
    /** The indicator lines of each stock that has some. */
    var stockIndicatorSeries: map<nat, seq<Indicator>>
    var timers: seq<int>
    var userIsZooming: bool
    /** The range last passed to setVisibleRange. */
    var visibleRange: Option<(Number, Number)>
    var state: Item

    /** The three per-stock arrays have one slot per stock, and every stored stock keeps its original data. */
    ghost predicate Aligned()
      reads this`stockInfos, this`stockVisibility, this`originalStockData
    {
      |stockVisibility| == |stockInfos| && |originalStockData| == |stockInfos| &&
      OriginalsKept(stockInfos, originalStockData)
    }

    ghost predicate Valid()
      reads this`stockInfos, this`stockVisibility, this`originalStockData, this`normalizationEnabled, this`normalizationRatios
    {
      Aligned() && (!normalizationEnabled ==> normalizationRatios == [])
    }

    constructor(hasChart: bool)
      ensures Valid()
      ensures this.hasChart == hasChart && stockInfos == [] && stockVisibility == [] && originalStockData == []
      ensures normalizationRatios == [] && !normalizationEnabled && candleData == map[] && stockIndicatorSeries == map[]
      ensures timers == [] && !userIsZooming && visibleRange == None && state == InitialState
    {
      this.hasChart := hasChart;
      stockInfos := [];
      stockVisibility := [];
      originalStockData := [];
      normalizationRatios := [];
      normalizationEnabled := false;
      candleData := map[];
      stockIndicatorSeries := map[];
      timers := [];
      userIsZooming := false;
      visibleRange := None;
      state := InitialState;
    }

    // -------------------------------------------------------------------
    // storing stocks and their visibility
    // -------------------------------------------------------------------

    /**
     * storeStockInfo in lightweight-charts.js: pad the three arrays with
     * null, true and null up to index, then store the stock, a copy of its
     * data, and make it visible.
     */
    method StoreStockInfo(code: string, index: nat, ohlc: seq<Item>)
      requires Valid()
      modifies this`stockInfos, this`stockVisibility, this`originalStockData
      ensures Valid()
      ensures stockInfos == StoredSlot(old(stockInfos), index, None, Some(NewStockInfo(code, index, ohlc)))
      ensures stockVisibility == StoredSlot(old(stockVisibility), index, Some(true), Some(true))
      ensures originalStockData == StoredSlot(old(originalStockData), index, None, Some(ohlc))
    {
      while |stockInfos| <= index
        modifies this`stockInfos
        invariant |old(stockInfos)| <= |stockInfos| <= if |old(stockInfos)| <= index then index + 1 else |old(stockInfos)|
        invariant stockInfos == PadTo(old(stockInfos), |stockInfos|, None)
        decreases index + 1 - |stockInfos|
      {
        PadStep(old(stockInfos), |stockInfos|, None);
        stockInfos := stockInfos + [None];
      }
      while |stockVisibility| <= index
        modifies this`stockVisibility
        invariant |old(stockVisibility)| <= |stockVisibility| <= if |old(stockVisibility)| <= index then index + 1 else |old(stockVisibility)|
        invariant stockVisibility == PadTo(old(stockVisibility), |stockVisibility|, Some(true))
        decreases index + 1 - |stockVisibility|
      {
        PadStep(old(stockVisibility), |stockVisibility|, Some(true));
        stockVisibility := stockVisibility + [Some(true)];
      }
      while |originalStockData| <= index
        modifies this`originalStockData
        invariant |old(originalStockData)| <= |originalStockData| <= if |old(originalStockData)| <= index then index + 1 else |old(originalStockData)|
        invariant originalStockData == PadTo(old(originalStockData), |originalStockData|, None)
        decreases index + 1 - |originalStockData|
      {
        PadStep(old(originalStockData), |originalStockData|, None);
        originalStockData := originalStockData + [None];
      }
      originalStockData := originalStockData[index := Some(ohlc)];
      stockInfos := stockInfos[index := Some(NewStockInfo(code, index, ohlc))];
      stockVisibility := stockVisibility[index := Some(true)];
    }

    /**
     * storeStockInfo in lightweight-charts-v2.js: the slots are written
     * directly, so the arrays grow with holes (read as undefined) instead of
     * padding values.
     */
    method StoreStockInfoV2(code: string, index: nat, ohlc: seq<Item>)
      requires Valid()
      modifies this`stockInfos, this`stockVisibility, this`originalStockData
      ensures Valid()
      ensures stockInfos == StoredSlot(old(stockInfos), index, None, Some(NewStockInfo(code, index, ohlc)))
      ensures stockVisibility == StoredSlot(old(stockVisibility), index, None, Some(true))
      ensures originalStockData == StoredSlot(old(originalStockData), index, None, Some(ohlc))
    {
      originalStockData := StoredSlot(originalStockData, index, None, Some(ohlc));
      stockInfos := StoredSlot(stockInfos, index, None, Some(NewStockInfo(code, index, ohlc)));
      stockVisibility := StoredSlot(stockVisibility, index, None, Some(true));
    }

    /** toggleStockVisibility: no-op outside [0, number of stocks); otherwise flip that one stock. */
    method ToggleStockVisibility(index: int)
      requires Valid()
      modifies this`stockVisibility
      ensures Valid()
      ensures 0 <= index < |stockInfos| ==> stockVisibility == Toggled(old(stockVisibility), index)
      ensures !(0 <= index < |stockInfos|) ==> stockVisibility == old(stockVisibility)
    {
      if index < 0 || index >= |stockInfos| {
        return;
      }
      stockVisibility := Toggled(stockVisibility, index);
    }

    // -------------------------------------------------------------------
    // normalization
    // -------------------------------------------------------------------

    /** enableNormalization: ratios from the first closes relative to stock 0, then applyNormalization. */
    method EnableNormalization()
      requires Aligned()
      modifies this`normalizationRatios, this`candleData, this`stockIndicatorSeries
      ensures (normalizationRatios, candleData, stockIndicatorSeries) ==
              EnableResult(stockInfos, originalStockData, old(normalizationRatios), old(candleData), old(stockIndicatorSeries))
    {
      if |stockInfos| == 0 {
        return;
      }
      var baseStock := stockInfos[0];
      if !HasData(baseStock) {
        return;
      }
      var basePrice := Close(baseStock.value.data[0]);
      normalizationRatios := Ratios(stockInfos, basePrice);
      ApplyNormalization();
    }

    /** applyNormalization: every stock with a record shows its original data scaled by its ratio (missing or zero ratio: 1). */
    method ApplyNormalization()
      requires Aligned()
      modifies this`candleData, this`stockIndicatorSeries
      ensures candleData == NormalizedCandles(old(candleData), stockInfos, originalStockData, normalizationRatios, |stockInfos|)
      ensures stockIndicatorSeries == NormalizedIndicators(old(stockIndicatorSeries), stockInfos, normalizationRatios, |stockInfos|)
    {
      for index := 0 to |stockInfos|
        invariant candleData == NormalizedCandles(old(candleData), stockInfos, originalStockData, normalizationRatios, index)
        invariant stockIndicatorSeries == NormalizedIndicators(old(stockIndicatorSeries), stockInfos, normalizationRatios, index)
      {
        NormalizeStep(old(candleData), old(stockIndicatorSeries), stockInfos, originalStockData, normalizationRatios, index);
        if stockInfos[index].None? {
          continue;
        }
        var ratio := EffectiveRatio(normalizationRatios, index);
        var normalizedData := ScaleCandles(originalStockData[index].value, ratio);
        if index in candleData {
          candleData := candleData[index := normalizedData];
        }
        ApplyIndicatorNormalization(index, ratio);
      }
    }

    /** applyIndicatorNormalization: every price indicator of the stock shows its original data scaled by ratio. */
    method ApplyIndicatorNormalization(stockIndex: nat, ratio: Number)
      modifies this`stockIndicatorSeries
      ensures stockIndicatorSeries ==
              if stockIndex in old(stockIndicatorSeries) then
                old(stockIndicatorSeries)[stockIndex := NormalizeAll(old(stockIndicatorSeries)[stockIndex], ratio)]
              else old(stockIndicatorSeries)
    {
      if stockIndex !in stockIndicatorSeries {
        return;
      }
      var lines := stockIndicatorSeries[stockIndex];
      var updated := [];
      for j := 0 to |lines|
        invariant |updated| == j
        invariant forall m :: 0 <= m < j ==> updated[m] == NormalizeIndicator(lines[m], ratio)
      {
        updated := updated + [NormalizeIndicator(lines[j], ratio)];
      }
      assert updated == NormalizeAll(lines, ratio);
      stockIndicatorSeries := stockIndicatorSeries[stockIndex := updated];
    }

    /** disableNormalization: every stock with its original data shows it again; the ratios are emptied. */
    method DisableNormalization()
      requires Aligned()
      modifies this`normalizationRatios, this`candleData, this`stockIndicatorSeries
      ensures (normalizationRatios, candleData, stockIndicatorSeries) ==
              DisableResult(stockInfos, originalStockData, old(candleData), old(stockIndicatorSeries))
    {
      for index := 0 to |stockInfos|
        invariant candleData == RestoredCandles(old(candleData), stockInfos, originalStockData, index)
        invariant stockIndicatorSeries == RestoredIndicators(old(stockIndicatorSeries), stockInfos, originalStockData, index)
      {
        RestoreStep(old(candleData), old(stockIndicatorSeries), stockInfos, originalStockData, index);
        if stockInfos[index].None? || originalStockData[index].None? {
          continue;
        }
        if index in candleData {
          candleData := candleData[index := originalStockData[index].value];
        }
        RestoreOriginalIndicators(index);
      }
      normalizationRatios := [];
    }

    /** restoreOriginalIndicators: every price indicator of the stock shows its original data. */
    method RestoreOriginalIndicators(stockIndex: nat)
      modifies this`stockIndicatorSeries
      ensures stockIndicatorSeries ==
              if stockIndex in old(stockIndicatorSeries) then
                old(stockIndicatorSeries)[stockIndex := RestoreAll(old(stockIndicatorSeries)[stockIndex])]
              else old(stockIndicatorSeries)
    {
      if stockIndex !in stockIndicatorSeries {
        return;
      }
      var lines := stockIndicatorSeries[stockIndex];
      var updated := [];
      for j := 0 to |lines|
        invariant |updated| == j
        invariant forall m :: 0 <= m < j ==> updated[m] == RestoreIndicator(lines[m])
      {
        updated := updated + [RestoreIndicator(lines[j])];
      }
      assert updated == RestoreAll(lines);
      stockIndicatorSeries := stockIndicatorSeries[stockIndex := updated];
    }

    /**
     * shouldEnableNormalization: take the first visible stock with data as
     * reference and look for another visible stock with data whose last
     * close is more than 30% away from the reference's.
     */
    method ShouldEnableNormalization() returns (should: bool)
      ensures should == NormalizationNeeded(stockInfos, stockVisibility)
    {
      if |stockInfos| <= 1 {
        NormalizationNotNeeded(stockInfos, stockVisibility);
        return false;
      }
      var mainIndex := -1;
      var i := 0;
      while i < |stockInfos|
        invariant 0 <= i <= |stockInfos|
        invariant forall j: nat :: j < i ==> !VisibleWithData(stockInfos, stockVisibility, j)
      {
        if VisibleWithData(stockInfos, stockVisibility, i) {
          mainIndex := i;
          break;
        }
        i := i + 1;
      }
      if mainIndex < 0 {
        NormalizationNotNeeded(stockInfos, stockVisibility);
        return false;
      }
      var m: nat := mainIndex;
      assert IsReference(stockInfos, stockVisibility, m);
      var mainPrice := LastClose(stockInfos[m].value);
      var visibleStockCount := 0;
      for k := 0 to |stockInfos|
        invariant forall j: nat :: j < k && j != m && VisibleWithData(stockInfos, stockVisibility, j) ==>
                    !FarApart(LastClose(stockInfos[j].value), mainPrice)
      {
        if k == m || !Visible(stockVisibility, k) {
          continue;
        }
        var stock := stockInfos[k];
        if !HasData(stock) {
          continue;
        }
        visibleStockCount := visibleStockCount + 1;
        if FarApart(LastClose(stock.value), mainPrice) {
          assert VisibleWithData(stockInfos, stockVisibility, k);
          return true;
        }
      }
      forall m': nat, j: nat | IsReference(stockInfos, stockVisibility, m') && j < |stockInfos| && j != m' &&
                               VisibleWithData(stockInfos, stockVisibility, j)
        ensures !FarApart(LastClose(stockInfos[j].value), LastClose(stockInfos[m'].value))
      {
        ReferenceUnique(stockInfos, stockVisibility, m', m);
      }
      return false;
    }

    /**
     * smartToggleNormalization (and toggleNormalization, which returns it)
     * in lightweight-charts.js: when normalization is not needed it is
     * switched off and false returned; otherwise the flag flips, the series
     * follow, and true is returned.
     */
    method SmartToggleNormalization() returns (toggled: bool)
      requires Valid()
      modifies this`normalizationEnabled, this`normalizationRatios, this`candleData, this`stockIndicatorSeries
      ensures Valid()
      ensures toggled == NormalizationNeeded(stockInfos, stockVisibility)
      ensures normalizationEnabled == (toggled && !old(normalizationEnabled))
      ensures (normalizationRatios, candleData, stockIndicatorSeries) ==
              if normalizationEnabled then
                EnableResult(stockInfos, originalStockData, old(normalizationRatios), old(candleData), old(stockIndicatorSeries))
              else if toggled || old(normalizationEnabled) then
                DisableResult(stockInfos, originalStockData, old(candleData), old(stockIndicatorSeries))
              else (old(normalizationRatios), old(candleData), old(stockIndicatorSeries))
    {
      var shouldNormalize := ShouldEnableNormalization();
      if !shouldNormalize {
        if normalizationEnabled {
          normalizationEnabled := false;
          DisableNormalization();
        }
        return false;
      }
      normalizationEnabled := !normalizationEnabled;
      if normalizationEnabled {
        EnableNormalization();
      } else {
        DisableNormalization();
      }
      return true;
    }

    /**
     * manualToggleNormalization in lightweight-charts.js, and
     * toggleNormalization in lightweight-charts-v2.js: flip the flag
     * unconditionally, enabling (ratios computed) or disabling (ratios
     * emptied).
     */
    method ManualToggleNormalization()
      requires Valid()
      modifies this`normalizationEnabled, this`normalizationRatios, this`candleData, this`stockIndicatorSeries
      ensures Valid()
      ensures normalizationEnabled == !old(normalizationEnabled)
      ensures (normalizationRatios, candleData, stockIndicatorSeries) ==
              if normalizationEnabled then
                EnableResult(stockInfos, originalStockData, old(normalizationRatios), old(candleData), old(stockIndicatorSeries))
              else DisableResult(stockInfos, originalStockData, old(candleData), old(stockIndicatorSeries))
    {
      normalizationEnabled := !normalizationEnabled;
      if normalizationEnabled {
        EnableNormalization();
      } else {
        DisableNormalization();
      }
    }

    // -------------------------------------------------------------------
    // time range of the visible stocks
    // -------------------------------------------------------------------

    /**
     * adjustTimeRangeToVisibleStocks: fold the minimum and maximum parseable
     * time of each visible stock with data, then set the range widened by
     * marginFactor of its span on each side (0 in lightweight-charts.js,
     * 0.02 in lightweight-charts-v2.js); set nothing without such a time.
     */
    method AdjustTimeRangeToVisibleStocks(parseDate: string -> Number, marginFactor: real)
      modifies this`visibleRange
      ensures var (lo, hi) := VisibleExtrema(stockInfos, stockVisibility, parseDate);
              var r := AdjustedRange(lo, hi, marginFactor);
              visibleRange == if hasChart && r.Some? then r else old(visibleRange)
    {
      if !hasChart {
        return;
      }
      var minTime := Infinity(true);
      var maxTime := Infinity(false);
      var hasVisibleData := false;
      for index := 0 to |stockInfos|
        invariant (minTime, maxTime) == VisibleExtrema(stockInfos[..index], stockVisibility, parseDate)
        invariant !hasVisibleData ==> minTime == Infinity(true) && maxTime == Infinity(false)
      {
        assert stockInfos[..index + 1][..index] == stockInfos[..index];
        if Visible(stockVisibility, index) && HasData(stockInfos[index]) {
          hasVisibleData := true;
          var times := StockTimes(stockInfos[index].value.data, parseDate);
          if |times| > 0 {
            var stockMinTime := MinOf(times);
            var stockMaxTime := MaxOf(times);
            minTime := Min(minTime, stockMinTime);
            maxTime := Max(maxTime, stockMaxTime);
          }
        }
      }
      assert stockInfos[..|stockInfos|] == stockInfos;
      if !hasVisibleData || minTime == Infinity(true) || maxTime == Infinity(false) {
        return;
      }
      var timeRange := Sub(maxTime, minTime);
      var margin := Mul(timeRange, Finite(marginFactor));
      visibleRange := Some((Sub(minTime, margin), Add(maxTime, margin)));
    }

    // -------------------------------------------------------------------
    // zoom, timers and state
    // -------------------------------------------------------------------

    /** The time-range listener re-optimizes the price range only once data is loaded and no zoom is in progress. */
    predicate PriceRangeOptimizationAllowed()
      reads this`state, this`userIsZooming
    {
      Truthy(Get(state, "isDataLoaded")) && !userIsZooming
    }

    /**
     * handleManualZoom in lightweight-charts.js: mark the zoom, scale the
     * current range about its centre, set it, and schedule the timer that
     * clears the mark. The mark is set before the range is checked, so a
     * wheel event without a usable range leaves it set with no timer to
     * clear it.
     */
    method HandleManualZoom(current: Option<Item>, deltaY: Number, parseDate: string -> Number, timerId: int)
      modifies this`userIsZooming, this`visibleRange, this`timers
      ensures var zoomed := ChartData.ZoomedRange(hasChart, current, deltaY, parseDate);
              userIsZooming == (hasChart || old(userIsZooming)) &&
              visibleRange == (if zoomed.Some? then zoomed else old(visibleRange)) &&
              timers == if zoomed.Some? then old(timers) + [timerId] else old(timers)
    {
      if !hasChart {
        return;
      }
      userIsZooming := true;
      var newRange := ChartData.ZoomedRange(true, current, deltaY, parseDate);
      if newRange.None? {
        return;
      }
      visibleRange := newRange;
      var _ := CreateTimer(timerId);
    }

    /** handleManualZoom in lightweight-charts-v2.js: the same, but the clearing timer is not tracked. */
    method HandleManualZoomV2(current: Option<Item>, deltaY: Number, parseDate: string -> Number)
      modifies this`userIsZooming, this`visibleRange
      ensures var zoomed := ChartData.ZoomedRange(hasChart, current, deltaY, parseDate);
              userIsZooming == (hasChart || old(userIsZooming)) &&
              visibleRange == if zoomed.Some? then zoomed else old(visibleRange)
    {
      if !hasChart {
        return;
      }
      userIsZooming := true;
      var newRange := ChartData.ZoomedRange(true, current, deltaY, parseDate);
      if newRange.None? {
        return;
      }
      visibleRange := newRange;
    }

    /**
     * handleManualZoom as evidently intended: the zoom is marked only when a
     * zoom is applied and its clearing timer scheduled, so a wheel event
     * without a usable range leaves the mark as it was.
     */
    method HandleManualZoomGuarded(current: Option<Item>, deltaY: Number, parseDate: string -> Number, timerId: int)
      modifies this`userIsZooming, this`visibleRange, this`timers
      ensures var zoomed := ChartData.ZoomedRange(hasChart, current, deltaY, parseDate);
              userIsZooming == (zoomed.Some? || old(userIsZooming)) &&
              visibleRange == (if zoomed.Some? then zoomed else old(visibleRange)) &&
              timers == if zoomed.Some? then old(timers) + [timerId] else old(timers)
    {
      if !hasChart {
        return;
      }
      var newRange := ChartData.ZoomedRange(true, current, deltaY, parseDate);
      if newRange.None? {
        return;
      }
      userIsZooming := true;
      visibleRange := newRange;
      var _ := CreateTimer(timerId);
    }

    /** The timer scheduled by handleManualZoom fires. */
    method ZoomTimerFired()
      modifies this`userIsZooming
      ensures !userIsZooming
    {
      userIsZooming := false;
    }

    /** createTimer: the new timer's id is tracked and returned. */
    method CreateTimer(timerId: int) returns (id: int)
      modifies this`timers
      ensures id == timerId && timers == old(timers) + [timerId]
    {
      timers := timers + [timerId];
      id := timerId;
    }

    /** clearTimer: the first occurrence of the id leaves the list. */
    method ClearTimer(timerId: int)
      modifies this`timers
      ensures timers == RemoveFirst(old(timers), timerId)
    {
      var index := IndexOf(timers, timerId);
      if index > -1 {
        SpliceAtIndexOf(timers, timerId);
        timers := timers[..index] + timers[index + 1..];
      } else {
        RemoveFirstAbsent(timers, timerId);
      }
    }

    /** clearAllTimers: the list is emptied. */
    method ClearAllTimers()
      modifies this`timers
      ensures timers == []
    {
      timers := [];
    }

    /** setState: merge the new fields into the state; the stateChange payload is old and new state. */
    method SetState(newState: Item) returns (oldState: Item, mergedState: Item)
      modifies this`state
      ensures oldState == old(state) && state == old(state) + newState && mergedState == state
    {
      oldState := state;
      state := state + newState;
      mergedState := state;
    }
  }
}
