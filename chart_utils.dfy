/**
 * The pure data rules of the chart front end (static/lightweight-charts.js,
 * with the same ChartUtils in static/lightweight-charts-v2.js): time
 * conversion and range checks, the data-item filters, and the small range
 * arithmetic of the main chart.
 */
module ChartData {
  import opened Wrappers
  import opened JsValues

  // ---------------------------------------------------------------------
  // order-preserving filters
  // ---------------------------------------------------------------------

  /** Array.prototype.filter over an array whose entries may be non-objects (None). */
  function KeepItems(data: seq<Option<Item>>, keep: Item -> bool): (r: seq<Item>)
    ensures |r| <= |data|
    ensures forall x :: x in r <==> Some(x) in data && keep(x)
  {
    if |data| == 0 then []
    else
      var rest := KeepItems(data[..|data| - 1], keep);
      var last := data[|data| - 1];
      assert forall e :: e in data <==> e in data[..|data| - 1] || e == last;
      if last.Some? && keep(last.value) then rest + [last.value] else rest
  }

  /** Filtering distributes over concatenation, so it keeps the input order. */
  lemma {:induction false} KeepItemsAppend(a: seq<Option<Item>>, b: seq<Option<Item>>, keep: Item -> bool)
    ensures KeepItems(a + b, keep) == KeepItems(a, keep) + KeepItems(b, keep)
    decreases |b|
  {
    if |b| > 0 {
      var b' := b[..|b| - 1];
      assert (a + b)[..|a + b| - 1] == a + b';
      KeepItemsAppend(a, b', keep);
    } else {
      assert a + b == a;
    }
  }

  // ---------------------------------------------------------------------
  // times and ranges
  // ---------------------------------------------------------------------

  /**
   * ChartUtils.convertTimeToNumber. parseDate stands for
   * new Date(s).getTime() / 1000 (NaN when the string is not a date).
   * Date instances are not distinguished from other objects.
   */
  function ConvertTimeToNumber(time: JsValue, parseDate: string -> Number): (r: Number)
    ensures time.Num? ==> r == time.n
    ensures time.Text? ==> r == parseDate(time.s)
    ensures !time.Num? && !time.Text? ==> r == NaN
  {
    match time
    case Num(n) => n
    case Text(s) => parseDate(s)
    case _ => NaN
  }

  /** The distance calculateTimeDiff computes from the four converted ends. */
  function EndsDistance(from1: Number, to1: Number, from2: Number, to2: Number): Number {
    if from1 == NaN || to1 == NaN || from2 == NaN || to2 == NaN then Infinity(true)
    else Add(Abs(Sub(from1, from2)), Abs(Sub(to1, to2)))
  }

  /** ChartUtils.calculateTimeDiff: Infinity when any end is not a time, else the summed distance of the ends. */
  function CalculateTimeDiff(range1: Item, range2: Item, parseDate: string -> Number): (d: Number)
    ensures d == EndsDistance(ConvertTimeToNumber(Get(range1, "from"), parseDate), ConvertTimeToNumber(Get(range1, "to"), parseDate),
                              ConvertTimeToNumber(Get(range2, "from"), parseDate), ConvertTimeToNumber(Get(range2, "to"), parseDate))
  {
    var from1 := ConvertTimeToNumber(Get(range1, "from"), parseDate);
    var to1 := ConvertTimeToNumber(Get(range1, "to"), parseDate);
    var from2 := ConvertTimeToNumber(Get(range2, "from"), parseDate);
    var to2 := ConvertTimeToNumber(Get(range2, "to"), parseDate);
    EndsDistance(from1, to1, from2, to2)
  }

  /** The distance is symmetric in the two ranges. */
  lemma EndsDistanceSymmetric(from1: Number, to1: Number, from2: Number, to2: Number)
    ensures EndsDistance(from1, to1, from2, to2) == EndsDistance(from2, to2, from1, to1)
  {
    AbsSubSymmetric(from1, from2);
    AbsSubSymmetric(to1, to2);
  }

  lemma AbsSubSymmetric(a: Number, b: Number)
    ensures Abs(Sub(a, b)) == Abs(Sub(b, a))
  {
  }

  /**
   * The distance is never negative, is Infinity when an end is not a time,
   * and for finite ends is zero exactly when the ranges coincide.
   */
  lemma EndsDistanceMeaning(from1: Number, to1: Number, from2: Number, to2: Number)
    ensures !Less(EndsDistance(from1, to1, from2, to2), Finite(0.0))
    ensures from1 == NaN || to1 == NaN || from2 == NaN || to2 == NaN ==> EndsDistance(from1, to1, from2, to2) == Infinity(true)
    ensures from1.Finite? && to1.Finite? && from2.Finite? && to2.Finite? ==>
              (EndsDistance(from1, to1, from2, to2) == Finite(0.0) <==> from1 == from2 && to1 == to2)
  {
  }

  /** Hence calculateTimeDiff is symmetric. */
  lemma TimeDiffSymmetric(range1: Item, range2: Item, parseDate: string -> Number)
    ensures CalculateTimeDiff(range1, range2, parseDate) == CalculateTimeDiff(range2, range1, parseDate)
  {
    EndsDistanceSymmetric(ConvertTimeToNumber(Get(range1, "from"), parseDate), ConvertTimeToNumber(Get(range1, "to"), parseDate),
                          ConvertTimeToNumber(Get(range2, "from"), parseDate), ConvertTimeToNumber(Get(range2, "to"), parseDate));
  }

  /** ChartUtils.isValidTimeRange: an object whose ends convert to numbers with from strictly before to. */
  function IsValidTimeRange(range: Option<Item>, parseDate: string -> Number): (valid: bool)
    ensures valid ==> range.Some?
    ensures valid ==> Less(ConvertTimeToNumber(Get(range.value, "from"), parseDate),
                           ConvertTimeToNumber(Get(range.value, "to"), parseDate))
  {
    match range
    case None => false
    case Some(r) =>
      var from := ConvertTimeToNumber(Get(r, "from"), parseDate);
      var to := ConvertTimeToNumber(Get(r, "to"), parseDate);
      from != NaN && to != NaN && Less(from, to)
  }

  /** Validity is exactly "from converts to an earlier number than to": Less already excludes NaN. */
  lemma ValidTimeRangeIff(range: Item, parseDate: string -> Number)
    ensures IsValidTimeRange(Some(range), parseDate) <==>
              Less(ConvertTimeToNumber(Get(range, "from"), parseDate), ConvertTimeToNumber(Get(range, "to"), parseDate))
  {
  }

  /**
   * BaseChart.getTimeRange (lightweight-charts.js): the chart's visible
   * range unless there is no chart, the range is missing, an end is NaN or
   * negative, or from lies after to. The NaN and sign checks coerce the ends
   * to numbers; the order check compares two string ends as strings.
   */
  function GetTimeRange(hasChart: bool, range: Option<Item>): (r: Option<Item>)
    ensures r.Some? ==> hasChart && r == range
    ensures r.Some? <==>
              hasChart && range.Some? &&
              var from, to := ToNumber(Get(range.value, "from")), ToNumber(Get(range.value, "to"));
              LessEq(Finite(0.0), from) && LessEq(Finite(0.0), to) &&
              JsLessEq(Get(range.value, "from"), Get(range.value, "to"))
  {
    if !hasChart || range.None? then None
    else
      var from, to := ToNumber(Get(range.value, "from")), ToNumber(Get(range.value, "to"));
      if from == NaN || to == NaN then None
      else if Less(from, Finite(0.0)) || Less(to, Finite(0.0)) then None
      else if JsLess(Get(range.value, "to"), Get(range.value, "from")) then None
      else range
  }

  /** Number("5") == 5, Number("7") == 7 and Number("10") == 10. */
  lemma DigitStrings()
    ensures ToNumber(Text("5")) == Finite(5.0) && ToNumber(Text("7")) == Finite(7.0) && ToNumber(Text("10")) == Finite(10.0)
  {
    assert NatToDecimal(5) == "5";
    NumberOfDigitText("5", 5);
    assert NatToDecimal(7) == "7";
    NumberOfDigitText("7", 7);
    assert NatToDecimal(10) == "10";
    NumberOfDigitText("10", 10);
  }

  /**
   * String ends are ordered as strings: "5" and "10" are both non-negative
   * numbers, yet "5" > "10", so that range is refused, while "5" to "7" is kept.
   */
  lemma GetTimeRangeStringEnds()
    ensures ToNumber(Text("5")) == Finite(5.0) && ToNumber(Text("10")) == Finite(10.0)
    ensures GetTimeRange(true, Some(map["from" := Text("5"), "to" := Text("10")])).None?
    ensures var kept := map["from" := Text("5"), "to" := Text("7")];
            GetTimeRange(true, Some(kept)) == Some(kept)
  {
    DigitStrings();
    StringOrderRefused();
    StringOrderKept();
  }

  lemma StringOrderRefused()
    ensures GetTimeRange(true, Some(map["from" := Text("5"), "to" := Text("10")])).None?
  {
    var refused := map["from" := Text("5"), "to" := Text("10")];
    assert Get(refused, "from") == Text("5");
    assert Get(refused, "to") == Text("10");
    assert StringLess("10", "5");
  }

  lemma StringOrderKept()
    ensures var kept := map["from" := Text("5"), "to" := Text("7")];
            GetTimeRange(true, Some(kept)) == Some(kept)
  {
    DigitStrings();
    var kept := map["from" := Text("5"), "to" := Text("7")];
    assert Get(kept, "from") == Text("5");
    assert Get(kept, "to") == Text("7");
    assert !StringLess("7", "5");
  }

  /** BaseChart.getTimeRange (lightweight-charts-v2.js): the visible range exactly when isValidTimeRange holds. */
  function GetTimeRangeV2(hasChart: bool, range: Option<Item>, parseDate: string -> Number): (r: Option<Item>)
    ensures r.Some? <==> hasChart && IsValidTimeRange(range, parseDate)
    ensures r.Some? ==> r == range
  {
    if hasChart && IsValidTimeRange(range, parseDate) then range else None
  }

  /**
   * The two versions disagree: the first accepts an empty range and rejects
   * negative times, the second does the opposite; both accept an ordinary
   * range of non-negative numeric times.
   */
  lemma GetTimeRangeVersions(parseDate: string -> Number)
    ensures var empty := map["from" := Num(Finite(5.0)), "to" := Num(Finite(5.0))];
            GetTimeRange(true, Some(empty)).Some? && GetTimeRangeV2(true, Some(empty), parseDate).None?
    ensures var negative := map["from" := Num(Finite(-5.0)), "to" := Num(Finite(5.0))];
            GetTimeRange(true, Some(negative)).None? && GetTimeRangeV2(true, Some(negative), parseDate).Some?
  {
    var empty := map["from" := Num(Finite(5.0)), "to" := Num(Finite(5.0))];
    assert Get(empty, "from") == Num(Finite(5.0)) && Get(empty, "to") == Num(Finite(5.0));
    var negative := map["from" := Num(Finite(-5.0)), "to" := Num(Finite(5.0))];
    assert Get(negative, "from") == Num(Finite(-5.0)) && Get(negative, "to") == Num(Finite(5.0));
  }

  /** On finite, non-negative, strictly ordered numeric ends the two versions agree. */
  lemma GetTimeRangeVersionsAgree(range: Item, parseDate: string -> Number)
    requires IsFiniteNumber(Get(range, "from")) && IsFiniteNumber(Get(range, "to"))
    requires 0.0 <= Get(range, "from").n.v < Get(range, "to").n.v
    ensures GetTimeRange(true, Some(range)) == GetTimeRangeV2(true, Some(range), parseDate) == Some(range)
  {
  }

  // ---------------------------------------------------------------------
  // data-item filters
  // ---------------------------------------------------------------------

  const Prices: seq<string> := ["open", "high", "low", "close"]

  /** The item test of ChartUtils.filterValidData. */
  predicate ValidDataItem(item: Item) {
    var hasTime := Get(item, "time") != Undefined && Get(item, "time") != Null;
    var hasOhlc := Get(item, "open") != Undefined && Get(item, "high") != Undefined &&
                   Get(item, "low") != Undefined && Get(item, "close") != Undefined;
    if !hasTime then false
    else if hasOhlc then
      forall p :: p in Prices ==> Get(item, p).Num? && Get(item, p).n != NaN && Less(Finite(0.0), Get(item, p).n)
    else if Get(item, "value") != Undefined then
      Get(item, "value").Num? && Get(item, "value").n != NaN
    else true
  }

  /** ChartUtils.filterValidData: [] for a non-array (None), else the valid items in order. */
  function FilterValidData(data: Option<seq<Option<Item>>>): (r: seq<Item>)
    ensures data.None? ==> r == []
    ensures data.Some? ==> r == KeepItems(data.value, ValidDataItem)
  {
    if data.None? then [] else KeepItems(data.value, ValidDataItem)
  }

  /**
   * What filterValidData keeps: items with a time that are either complete
   * candles with four positive numeric prices (Infinity included), or carry
   * a non-NaN numeric value, or carry neither OHLC nor value.
   */
  lemma ValidDataItemCases(item: Item)
    requires ValidDataItem(item)
    ensures Get(item, "time") != Undefined && Get(item, "time") != Null
    ensures Get(item, "open") != Undefined && Get(item, "high") != Undefined &&
            Get(item, "low") != Undefined && Get(item, "close") != Undefined ==>
              forall p :: p in Prices ==> Get(item, p).Num? && Less(Finite(0.0), Get(item, p).n)
  {
  }

  lemma ValidDataExamples()
    ensures ValidDataItem(map["time" := Num(Finite(1.0)), "value" := Num(Finite(-3.0))])
    ensures !ValidDataItem(map["time" := Num(Finite(1.0)), "open" := Num(Finite(1.0)), "high" := Num(Finite(2.0)),
                               "low" := Num(Finite(0.0)), "close" := Num(Finite(1.0))])
    ensures !ValidDataItem(map["value" := Num(Finite(1.0))])
  {
    var candle := map["time" := Num(Finite(1.0)), "open" := Num(Finite(1.0)), "high" := Num(Finite(2.0)),
                      "low" := Num(Finite(0.0)), "close" := Num(Finite(1.0))];
    assert Get(candle, "low") == Num(Finite(0.0));
    assert "low" in Prices;
  }

  /** The item test of MainChart.filterValidOHLCData. */
  predicate ValidOhlc(item: Item) {
    var o, h, l, c := Get(item, "open"), Get(item, "high"), Get(item, "low"), Get(item, "close");
    Truthy(Get(item, "time")) &&
    IsFiniteNumber(o) && IsFiniteNumber(h) && IsFiniteNumber(l) && IsFiniteNumber(c) &&
    !Less(h.n, l.n) && !Less(h.n, Max(o.n, c.n)) && !Less(Min(o.n, c.n), l.n)
  }

  /** MainChart.filterValidOHLCData. */
  function FilterValidOhlcData(data: seq<Option<Item>>): (r: seq<Item>)
    ensures r == KeepItems(data, ValidOhlc)
  {
    KeepItems(data, ValidOhlc)
  }

  /** A kept candle is consistent: low is at most open and close, which are at most high. */
  lemma ValidOhlcIsConsistent(item: Item)
    ensures ValidOhlc(item) <==>
              Truthy(Get(item, "time")) &&
              IsFiniteNumber(Get(item, "open")) && IsFiniteNumber(Get(item, "high")) &&
              IsFiniteNumber(Get(item, "low")) && IsFiniteNumber(Get(item, "close")) &&
              var o, h, l, c := Get(item, "open").n.v, Get(item, "high").n.v, Get(item, "low").n.v, Get(item, "close").n.v;
              l <= o <= h && l <= c <= h
  {
  }

  // ---------------------------------------------------------------------
  // volume bars
  // ---------------------------------------------------------------------

  datatype BarColor = UpColor | DownColor | Transparent

  datatype VolumeBar = VolumeBar(time: JsValue, value: JsValue, color: BarColor)

  /** The bar processVolumeData pushes for one item, if its time is truthy. */
  function VolumeBarOf(entry: Option<Item>): (r: Option<VolumeBar>)
    ensures r.Some? <==> entry.Some? && Truthy(Get(entry.value, "time"))
    ensures r.Some? ==>
              var item, bar, v := entry.value, r.value, Get(entry.value, "volume");
              bar.time == Get(item, "time") &&
              (v != Null && GlobalIsFinite(v) ==> bar.value == v) &&
              (v == Null || !GlobalIsFinite(v) ==> bar.value == Num(Finite(0.0))) &&
              (bar.color == Transparent <==> bar.value == Num(Finite(0.0))) &&
              (bar.color != Transparent ==> (bar.color == UpColor <==> JsLessEq(Get(item, "open"), Get(item, "close"))))
  {
    if entry.None? || !Truthy(Get(entry.value, "time")) then None
    else
      var item := entry.value;
      var v := Get(item, "volume");
      var vol := if v != Undefined && v != Null && GlobalIsFinite(v) then v else Num(Finite(0.0));
      var color := if JsLessEq(Get(item, "open"), Get(item, "close")) then UpColor else DownColor;
      Some(VolumeBar(Get(item, "time"), vol, if vol == Num(Finite(0.0)) then Transparent else color))
  }

  /**
   * A volume held as a numeric string passes isFinite and is kept as it is;
   * string prices compare as strings, so a close of "10" under an open of
   * "9" gives a down bar.
   */
  lemma VolumeBarOfStrings()
    ensures var item := map["time" := Num(Finite(1.0)), "volume" := Text("5"), "open" := Text("9"), "close" := Text("10")];
            VolumeBarOf(Some(item)) == Some(VolumeBar(Num(Finite(1.0)), Text("5"), DownColor))
  {
    var item := map["time" := Num(Finite(1.0)), "volume" := Text("5"), "open" := Text("9"), "close" := Text("10")];
    assert Get(item, "time") == Num(Finite(1.0));
    assert Get(item, "volume") == Text("5");
    assert Get(item, "open") == Text("9") && Get(item, "close") == Text("10");
    StringVolumeBar(item);
  }

  /** The same for any item with those four fields. */
  lemma StringVolumeBar(item: Item)
    requires Get(item, "time") == Num(Finite(1.0)) && Get(item, "volume") == Text("5")
    requires Get(item, "open") == Text("9") && Get(item, "close") == Text("10")
    ensures VolumeBarOf(Some(item)) == Some(VolumeBar(Num(Finite(1.0)), Text("5"), DownColor))
  {
    assert NatToDecimal(5) == "5";
    NumberOfDigitText("5", 5);
    assert StringLess("10", "9");
  }

  /** The bars of a prefix of the data, in order. */
  function VolumeBars(data: seq<Option<Item>>): seq<VolumeBar> {
    if |data| == 0 then []
    else
      var rest := VolumeBars(data[..|data| - 1]);
      match VolumeBarOf(data[|data| - 1])
      case None => rest
      case Some(b) => rest + [b]
  }

  /** ChartUtils.processVolumeData: one bar per item with a truthy time, in order. */
  method ProcessVolumeData(ohlcData: seq<Option<Item>>) returns (volumeData: seq<VolumeBar>)
    ensures volumeData == VolumeBars(ohlcData)
  {
    volumeData := [];
    for i := 0 to |ohlcData|
      invariant volumeData == VolumeBars(ohlcData[..i])
    {
      assert ohlcData[..i + 1][..i] == ohlcData[..i];
      var bar := VolumeBarOf(ohlcData[i]);
      if bar.Some? {
        volumeData := volumeData + [bar.value];
      }
    }
    assert ohlcData[..|ohlcData|] == ohlcData;
  }

  /**
   * There is one bar per timed item; a bar's volume is the item's finite
   * volume or 0, and a bar is transparent exactly when its volume is 0.
   */
  lemma {:induction false} VolumeBarsProperties(data: seq<Option<Item>>)
    ensures |VolumeBars(data)| == |KeepItems(data, item => Truthy(Get(item, "time")))|
    ensures forall b :: b in VolumeBars(data) ==>
              Truthy(b.time) && GlobalIsFinite(b.value) && (b.color == Transparent <==> b.value == Num(Finite(0.0)))
  {
    if |data| > 0 {
      VolumeBarsProperties(data[..|data| - 1]);
    }
  }

  // ---------------------------------------------------------------------
  // range arithmetic
  // ---------------------------------------------------------------------

  /**
   * BaseChart.manuallyFixLogicalRange: the logical range it sets (None when
   * there is no chart) starts at 0 and is as wide as the old one, but at
   * least 50 bars.
   */
  function ManuallyFixLogicalRange(hasChart: bool, problematic: Item): (r: Option<(Number, Number)>)
    ensures r.Some? <==> hasChart
  {
    if !hasChart then None
    else
      var width := Sub(ToNumber(Get(problematic, "to")), ToNumber(Get(problematic, "from")));
      Some((Finite(0.0), Max(width, Finite(50.0))))
  }

  lemma ManuallyFixedRangeWidth(problematic: Item)
    requires IsFiniteNumber(Get(problematic, "from")) && IsFiniteNumber(Get(problematic, "to"))
    ensures var width := Get(problematic, "to").n.v - Get(problematic, "from").n.v;
            var r := ManuallyFixLogicalRange(true, problematic).value;
            r.0 == Finite(0.0) && r.1.Finite? && r.1.v >= 50.0 && r.1.v >= width &&
            (r.1.v == width || r.1.v == 50.0)
  {
  }

  /**
   * The safe range of fixNegativeLogicalRangeImmediate: from 0 to
   * max(width + from, 50), which for finite ends is max(to, 50): the right
   * edge is kept and the left edge moves to 0.
   */
  function SafeLogicalRange(problematic: Item): (r: (Number, Number))
    ensures r.0 == Finite(0.0)
    ensures r.1 == NaN || r.1 == Infinity(true) || (r.1.Finite? && r.1.v >= 50.0)
  {
    var from, to := ToNumber(Get(problematic, "from")), ToNumber(Get(problematic, "to"));
    MaxAtLeast(Add(Sub(to, from), from), 50.0);
    (Finite(0.0), Max(Add(Sub(to, from), from), Finite(50.0)))
  }

  lemma SafeRangeKeepsRightEdge(problematic: Item)
    requires IsFiniteNumber(Get(problematic, "from")) && IsFiniteNumber(Get(problematic, "to"))
    ensures var to := Get(problematic, "to").n.v;
            SafeLogicalRange(problematic) == (Finite(0.0), Finite(if to < 50.0 then 50.0 else to))
  {
  }

  /** The zoom factor of handleManualZoom: 1.2 when scrolling down (deltaY > 0), else 0.8. */
  function ZoomFactor(deltaY: Number): (f: real)
    ensures f == 1.2 || f == 0.8
    ensures f > 1.0 <==> Less(Finite(0.0), deltaY)
  {
    if Less(Finite(0.0), deltaY) then 1.2 else 0.8
  }

  /**
   * The two ends of the visible range as handleManualZoom reads them: when
   * from is a string both go through convertTimeToNumber, otherwise both
   * are taken as numbers.
   */
  function ZoomEnds(current: Item, parseDate: string -> Number): (Number, Number) {
    var rawFrom, rawTo := Get(current, "from"), Get(current, "to");
    if rawFrom.Text? then (ConvertTimeToNumber(rawFrom, parseDate), ConvertTimeToNumber(rawTo, parseDate))
    else (ToNumber(rawFrom), ToNumber(rawTo))
  }

  /**
   * The range handleManualZoom sets: None when there is no chart, no range,
   * or an end that is NaN.
   */
  function ZoomedRange(hasChart: bool, current: Option<Item>, deltaY: Number,
                       parseDate: string -> Number): (r: Option<(Number, Number)>)
    ensures r.Some? <==> hasChart && current.Some? &&
                         ZoomEnds(current.value, parseDate).0 != NaN && ZoomEnds(current.value, parseDate).1 != NaN
  {
    if !hasChart || current.None? then None
    else
      var (fromTime, toTime) := ZoomEnds(current.value, parseDate);
      if fromTime == NaN || toTime == NaN then None
      else
        var duration := Sub(toTime, fromTime);
        var center := Div(Add(fromTime, toTime), Finite(2.0));
        var newDuration := Mul(duration, Finite(ZoomFactor(deltaY)));
        Some((Sub(center, Div(newDuration, Finite(2.0))), Add(center, Div(newDuration, Finite(2.0)))))
  }

  /** Zooming keeps the centre and scales the width by the factor: wider on scroll down, narrower on scroll up. */
  lemma ZoomKeepsCentre(current: Item, deltaY: Number, parseDate: string -> Number)
    requires IsFiniteNumber(Get(current, "from")) && IsFiniteNumber(Get(current, "to"))
    ensures var from, to := Get(current, "from").n.v, Get(current, "to").n.v;
            var r := ZoomedRange(true, Some(current), deltaY, parseDate).value;
            r.0.Finite? && r.1.Finite? &&
            (r.0.v + r.1.v) / 2.0 == (from + to) / 2.0 &&
            r.1.v - r.0.v == (to - from) * ZoomFactor(deltaY)
  {
  }
}
