/**
 * How the main chart turns indicator rows from the backend into line and
 * histogram data (static/lightweight-charts.js): the segmented SuperTrend
 * lines with their buy and sell markers, the older two-line SuperTrend
 * form, and the Squeeze momentum histogram.
 */
module IndicatorSeries {
  import opened Wrappers
  import opened JsValues

  datatype Point = Point(time: JsValue, value: JsValue)

  /** Segments joined end to end. */
  function Flatten(segments: seq<seq<Point>>): seq<Point> {
    if |segments| == 0 then [] else Flatten(segments[..|segments| - 1]) + segments[|segments| - 1]
  }

  /** `item && item.time`: a row that is an object with a truthy time. */
  predicate Timed(entry: Option<Item>) {
    entry.Some? && Truthy(Get(entry.value, "time"))
  }

  /** `item.trend || item.supertrend_direction`. */
  function Direction(item: Item): JsValue {
    Or(Get(item, "trend"), Get(item, "supertrend_direction"))
  }

  // ---------------------------------------------------------------------
  // processSupertrendDataAdvanced
  // ---------------------------------------------------------------------

  /** The point a timed row contributes: None when its supertrend value is not finite or not positive. */
  function AdvancedPoint(entry: Option<Item>): (p: Option<Point>)
    ensures p.Some? ==> Timed(entry) && p.value.time == Get(entry.value, "time") && p.value.value == Get(entry.value, "supertrend")
  {
    if !Timed(entry) then None
    else
      var value := Get(entry.value, "supertrend");
      if !GlobalIsFinite(value) || LessEq(ToNumber(value), Finite(0.0)) then None
      else Some(Point(Get(entry.value, "time"), value))
  }

  /** The loop state of processSupertrendDataAdvanced. */
  datatype Walk = Walk(upSegments: seq<seq<Point>>, downSegments: seq<seq<Point>>,
                       buySignals: seq<Point>, sellSignals: seq<Point>,
                       currentUp: seq<Point>, currentDown: seq<Point>, lastDirection: JsValue)

  const Start: Walk := Walk([], [], [], [], [], [], Null)

  /** One iteration of the forEach callback. */
  function AdvancedStep(w: Walk, entry: Option<Item>): Walk {
    match AdvancedPoint(entry)
    case None => w
    case Some(p) =>
      var item := entry.value;
      var direction := Direction(item);
      var buys := if IsNumber(Get(item, "buy"), 1.0) then w.buySignals + [p] else w.buySignals;
      var sells := if IsNumber(Get(item, "sell"), 1.0) then w.sellSignals + [p] else w.sellSignals;
      if IsNumber(direction, 1.0) then
        var closeDown := IsNumber(w.lastDirection, -1.0) && |w.currentDown| > 0;
        Walk(w.upSegments, if closeDown then w.downSegments + [w.currentDown] else w.downSegments,
             buys, sells, w.currentUp + [p], if closeDown then [] else w.currentDown, direction)
      else if IsNumber(direction, -1.0) then
        var closeUp := IsNumber(w.lastDirection, 1.0) && |w.currentUp| > 0;
        Walk(if closeUp then w.upSegments + [w.currentUp] else w.upSegments, w.downSegments,
             buys, sells, if closeUp then [] else w.currentUp, w.currentDown + [p], direction)
      else
        Walk(w.upSegments, w.downSegments, buys, sells, w.currentUp, w.currentDown, direction)
  }

  /** The loop state after the given rows. */
  function Walked(data: seq<Option<Item>>): Walk {
    if |data| == 0 then Start else AdvancedStep(Walked(data[..|data| - 1]), data[|data| - 1])
  }

  datatype SupertrendLines = SupertrendLines(uptrendSegments: seq<seq<Point>>, downtrendSegments: seq<seq<Point>>,
                                             buySignals: seq<Point>, sellSignals: seq<Point>)

  /** After the loop the open segments are closed if they are non-empty. */
  function Finish(w: Walk): SupertrendLines {
    SupertrendLines(if |w.currentUp| > 0 then w.upSegments + [w.currentUp] else w.upSegments,
                    if |w.currentDown| > 0 then w.downSegments + [w.currentDown] else w.downSegments,
                    w.buySignals, w.sellSignals)
  }

  /** MainChart.processSupertrendDataAdvanced. */
  method ProcessSupertrendDataAdvanced(data: seq<Option<Item>>) returns (r: SupertrendLines)
    ensures r == Finish(Walked(data))
  {
    var uptrendSegments: seq<seq<Point>> := [];
    var downtrendSegments: seq<seq<Point>> := [];
    var buySignals: seq<Point> := [];
    var sellSignals: seq<Point> := [];
    var currentUptrendSegment: seq<Point> := [];
    var currentDowntrendSegment: seq<Point> := [];
    var lastDirection := Null;
    for i := 0 to |data|
      invariant Walk(uptrendSegments, downtrendSegments, buySignals, sellSignals,
                     currentUptrendSegment, currentDowntrendSegment, lastDirection) == Walked(data[..i])
    {
      assert data[..i + 1][..i] == data[..i];
      var point := AdvancedPoint(data[i]);
      if point.Some? {
        var item := data[i].value;
        var direction := Direction(item);
        if IsNumber(Get(item, "buy"), 1.0) {
          buySignals := buySignals + [point.value];
        }
        if IsNumber(Get(item, "sell"), 1.0) {
          sellSignals := sellSignals + [point.value];
        }
        if IsNumber(direction, 1.0) {
          if IsNumber(lastDirection, -1.0) && |currentDowntrendSegment| > 0 {
            downtrendSegments := downtrendSegments + [currentDowntrendSegment];
            currentDowntrendSegment := [];
          }
          currentUptrendSegment := currentUptrendSegment + [point.value];
        } else if IsNumber(direction, -1.0) {
          if IsNumber(lastDirection, 1.0) && |currentUptrendSegment| > 0 {
            uptrendSegments := uptrendSegments + [currentUptrendSegment];
            currentUptrendSegment := [];
          }
          currentDowntrendSegment := currentDowntrendSegment + [point.value];
        }
        lastDirection := direction;
      }
    }
    assert data[..|data|] == data;
    if |currentUptrendSegment| > 0 {
      uptrendSegments := uptrendSegments + [currentUptrendSegment];
    }
    if |currentDowntrendSegment| > 0 {
      downtrendSegments := downtrendSegments + [currentDowntrendSegment];
    }
    r := SupertrendLines(uptrendSegments, downtrendSegments, buySignals, sellSignals);
  }

  /** The kept points whose direction is exactly dir, in row order: the reference for the segments. */
  function PointsWithDirection(data: seq<Option<Item>>, dir: real): seq<Point> {
    if |data| == 0 then []
    else
      var rest := PointsWithDirection(data[..|data| - 1], dir);
      var entry := data[|data| - 1];
      if AdvancedPoint(entry).Some? && IsNumber(Direction(entry.value), dir) then rest + [AdvancedPoint(entry).value]
      else rest
  }

  /** The kept points whose field is exactly 1, in row order: the reference for the markers. */
  function PointsFlagged(data: seq<Option<Item>>, field: string): seq<Point> {
    if |data| == 0 then []
    else
      var rest := PointsFlagged(data[..|data| - 1], field);
      var entry := data[|data| - 1];
      if AdvancedPoint(entry).Some? && IsNumber(Get(entry.value, field), 1.0) then rest + [AdvancedPoint(entry).value]
      else rest
  }

  ghost predicate AllNonEmpty(segments: seq<seq<Point>>) {
    forall k :: 0 <= k < |segments| ==> |segments[k]| > 0
  }

  /** What the loop keeps after the rows data: closed plus open segments hold exactly the points of each direction, and no closed segment is empty. */
  ghost predicate WalkInvariant(w: Walk, data: seq<Option<Item>>) {
    Flatten(w.upSegments) + w.currentUp == PointsWithDirection(data, 1.0) &&
    Flatten(w.downSegments) + w.currentDown == PointsWithDirection(data, -1.0) &&
    AllNonEmpty(w.upSegments) && AllNonEmpty(w.downSegments) &&
    w.buySignals == PointsFlagged(data, "buy") && w.sellSignals == PointsFlagged(data, "sell")
  }

  /** Closing a segment moves it from the open end to the closed list without changing the joined points. */
  lemma CloseSegment(closed: seq<seq<Point>>, open: seq<Point>)
    ensures Flatten(closed + [open]) + [] == Flatten(closed) + open
  {
    assert (closed + [open])[..|closed|] == closed;
  }

  /** A row with a point and direction 1. */
  lemma StepUp(w: Walk, data: seq<Option<Item>>, entry: Option<Item>)
    requires WalkInvariant(w, data)
    requires AdvancedPoint(entry).Some? && IsNumber(Direction(entry.value), 1.0)
    ensures WalkInvariant(AdvancedStep(w, entry), data + [entry])
  {
    var p := AdvancedPoint(entry).value;
    assert (data + [entry])[..|data|] == data;
    assert Flatten(w.upSegments) + (w.currentUp + [p]) == (Flatten(w.upSegments) + w.currentUp) + [p];
    CloseSegment(w.downSegments, w.currentDown);
  }

  /** A row with a point and direction -1. */
  lemma StepDown(w: Walk, data: seq<Option<Item>>, entry: Option<Item>)
    requires WalkInvariant(w, data)
    requires AdvancedPoint(entry).Some? && IsNumber(Direction(entry.value), -1.0)
    ensures WalkInvariant(AdvancedStep(w, entry), data + [entry])
  {
    var p := AdvancedPoint(entry).value;
    assert (data + [entry])[..|data|] == data;
    assert Flatten(w.downSegments) + (w.currentDown + [p]) == (Flatten(w.downSegments) + w.currentDown) + [p];
    CloseSegment(w.upSegments, w.currentUp);
  }

  /** A row that is skipped or has a direction other than 1 and -1. */
  lemma StepOther(w: Walk, data: seq<Option<Item>>, entry: Option<Item>)
    requires WalkInvariant(w, data)
    requires AdvancedPoint(entry).None? || (!IsNumber(Direction(entry.value), 1.0) && !IsNumber(Direction(entry.value), -1.0))
    ensures WalkInvariant(AdvancedStep(w, entry), data + [entry])
  {
    assert (data + [entry])[..|data|] == data;
  }

  lemma {:induction false} WalkedInvariant(data: seq<Option<Item>>)
    ensures WalkInvariant(Walked(data), data)
  {
    if |data| > 0 {
      var prefix := data[..|data| - 1];
      var entry := data[|data| - 1];
      assert prefix + [entry] == data;
      WalkedInvariant(prefix);
      if AdvancedPoint(entry).None? {
        StepOther(Walked(prefix), prefix, entry);
      } else if IsNumber(Direction(entry.value), 1.0) {
        StepUp(Walked(prefix), prefix, entry);
      } else if IsNumber(Direction(entry.value), -1.0) {
        StepDown(Walked(prefix), prefix, entry);
      } else {
        StepOther(Walked(prefix), prefix, entry);
      }
    } else {
      assert Flatten([]) + [] == [];
    }
  }

  /**
   * The segmented lines lose and invent nothing: the uptrend segments joined
   * are exactly the valid points with direction 1 in order (the downtrend
   * segments likewise with -1), no segment is empty, and the markers are the
   * valid points flagged buy === 1 or sell === 1.
   */
  lemma SupertrendLinesProperties(data: seq<Option<Item>>)
    ensures var r := Finish(Walked(data));
            Flatten(r.uptrendSegments) == PointsWithDirection(data, 1.0) &&
            Flatten(r.downtrendSegments) == PointsWithDirection(data, -1.0) &&
            AllNonEmpty(r.uptrendSegments) && AllNonEmpty(r.downtrendSegments) &&
            r.buySignals == PointsFlagged(data, "buy") && r.sellSignals == PointsFlagged(data, "sell")
  {
    WalkedInvariant(data);
    var w := Walked(data);
    if |w.currentUp| > 0 {
      assert (w.upSegments + [w.currentUp])[..|w.upSegments|] == w.upSegments;
    } else {
      assert Flatten(w.upSegments) + w.currentUp == Flatten(w.upSegments);
    }
    if |w.currentDown| > 0 {
      assert (w.downSegments + [w.currentDown])[..|w.downSegments|] == w.downSegments;
    } else {
      assert Flatten(w.downSegments) + w.currentDown == Flatten(w.downSegments);
    }
  }

  function TrendRow(time: real, direction: real): Option<Item> {
    Some(map["time" := Num(Finite(time)), "trend" := Num(Finite(direction)), "supertrend" := Num(Finite(10.0))])
  }

  /**
   * A segment is closed only when the direction changes directly between 1
   * and -1: a row in between whose trend is 0 (falsy, so its direction
   * falls through to the missing supertrend_direction) leaves the uptrend
   * segment open, so the uptrend points on both sides of the downtrend end up in one
   * segment (and one line is drawn across the downtrend).
   */
  lemma NeutralRowKeepsSegmentOpen()
    ensures |Finish(Walked([TrendRow(1.0, 1.0), TrendRow(3.0, -1.0), TrendRow(4.0, 1.0)])).uptrendSegments| == 2
    ensures |Finish(Walked([TrendRow(1.0, 1.0), TrendRow(2.0, 0.0), TrendRow(3.0, -1.0), TrendRow(4.0, 1.0)])).uptrendSegments| == 1
  {
    var a, b, c, d := TrendRow(1.0, 1.0), TrendRow(2.0, 0.0), TrendRow(3.0, -1.0), TrendRow(4.0, 1.0);
    WalkedSnoc([], a);
    assert [] + [a] == [a];
    WalkedSnoc([a], c);
    assert [a] + [c] == [a, c];
    WalkedSnoc([a, c], d);
    assert [a, c] + [d] == [a, c, d];
    WalkedSnoc([a], b);
    assert [a] + [b] == [a, b];
    WalkedSnoc([a, b], c);
    assert [a, b] + [c] == [a, b, c];
    WalkedSnoc([a, b, c], d);
    assert [a, b, c] + [d] == [a, b, c, d];
    DirectChange(a, c, d);
    ThroughNeutral(a, b, c, d);
  }

  lemma WalkedSnoc(data: seq<Option<Item>>, entry: Option<Item>)
    ensures Walked(data + [entry]) == AdvancedStep(Walked(data), entry)
  {
    assert (data + [entry])[..|data|] == data;
  }

  lemma DirectChange(a: Option<Item>, c: Option<Item>, d: Option<Item>)
    requires a == TrendRow(1.0, 1.0) && c == TrendRow(3.0, -1.0) && d == TrendRow(4.0, 1.0)
    ensures |Finish(AdvancedStep(AdvancedStep(AdvancedStep(Start, a), c), d)).uptrendSegments| == 2
  {
    assert Direction(a.value) == Num(Finite(1.0)) && AdvancedPoint(a).Some?;
    assert Direction(c.value) == Num(Finite(-1.0)) && AdvancedPoint(c).Some?;
    assert Direction(d.value) == Num(Finite(1.0)) && AdvancedPoint(d).Some?;
    var w1 := AdvancedStep(Start, a);
    assert |w1.currentUp| == 1 && w1.upSegments == [] && w1.lastDirection == Num(Finite(1.0));
    var w2 := AdvancedStep(w1, c);
    assert |w2.upSegments| == 1 && w2.currentUp == [];
  }

  lemma ThroughNeutral(a: Option<Item>, b: Option<Item>, c: Option<Item>, d: Option<Item>)
    requires a == TrendRow(1.0, 1.0) && b == TrendRow(2.0, 0.0) && c == TrendRow(3.0, -1.0) && d == TrendRow(4.0, 1.0)
    ensures |Finish(AdvancedStep(AdvancedStep(AdvancedStep(AdvancedStep(Start, a), b), c), d)).uptrendSegments| == 1
  {
    assert Direction(a.value) == Num(Finite(1.0)) && AdvancedPoint(a).Some?;
    assert Get(b.value, "trend") == Num(Finite(0.0)) && Direction(b.value) == Undefined && AdvancedPoint(b).Some?;
    assert Direction(c.value) == Num(Finite(-1.0)) && AdvancedPoint(c).Some?;
    assert Direction(d.value) == Num(Finite(1.0)) && AdvancedPoint(d).Some?;
    var w1 := AdvancedStep(Start, a);
    assert |w1.currentUp| == 1 && w1.upSegments == [];
    var w2 := AdvancedStep(w1, b);
    assert w2.upSegments == [] && |w2.currentUp| == 1 && w2.lastDirection == Undefined;
    var w3 := AdvancedStep(w2, c);
    assert w3.upSegments == [] && |w3.currentUp| == 1;
  }

  // ---------------------------------------------------------------------
  // processSupertrendData (the older two-line form)
  // ---------------------------------------------------------------------

  /** The (uptrend, downtrend) points a row contributes; None for a row without a truthy time. */
  function PlainEntry(entry: Option<Item>): (r: Option<(Point, Point)>)
    ensures r.Some? <==> Timed(entry)
    ensures r.Some? ==> r.value.0.time == r.value.1.time == Get(entry.value, "time")
  {
    if !Timed(entry) then None
    else
      var item := entry.value;
      var direction := Direction(item);
      var value := Get(item, "supertrend");
      var valid := value != Null && GlobalIsFinite(value) && Less(Finite(0.0), ToNumber(value));
      var time := Get(item, "time");
      if IsNumber(direction, 1.0) && valid then Some((Point(time, value), Point(time, Null)))
      else if IsNumber(direction, -1.0) && valid then Some((Point(time, Null), Point(time, value)))
      else Some((Point(time, Null), Point(time, Null)))
  }

  function PlainLines(data: seq<Option<Item>>): (seq<Point>, seq<Point>) {
    if |data| == 0 then ([], [])
    else
      var rest := PlainLines(data[..|data| - 1]);
      match PlainEntry(data[|data| - 1])
      case None => rest
      case Some(pair) => (rest.0 + [pair.0], rest.1 + [pair.1])
  }

  /** MainChart.processSupertrendData. */
  method ProcessSupertrendData(data: seq<Option<Item>>) returns (uptrend: seq<Point>, downtrend: seq<Point>)
    ensures (uptrend, downtrend) == PlainLines(data)
  {
    uptrend, downtrend := [], [];
    for i := 0 to |data|
      invariant (uptrend, downtrend) == PlainLines(data[..i])
    {
      assert data[..i + 1][..i] == data[..i];
      var pair := PlainEntry(data[i]);
      if pair.Some? {
        uptrend := uptrend + [pair.value.0];
        downtrend := downtrend + [pair.value.1];
      }
    }
    assert data[..|data|] == data;
  }

  /** The points with a non-null value, in order. */
  function Drawn(points: seq<Point>): seq<Point> {
    if |points| == 0 then []
    else
      var rest := Drawn(points[..|points| - 1]);
      if points[|points| - 1].value != Null then rest + [points[|points| - 1]] else rest
  }

  /**
   * The two lines have one point per timed row at the same times, never
   * both drawn at once, and the drawn points are exactly those the
   * segmented form puts into its segments.
   */
  lemma {:induction false} PlainLinesAgreeWithSegments(data: seq<Option<Item>>)
    ensures var (up, down) := PlainLines(data);
            |up| == |down| &&
            (forall k :: 0 <= k < |up| ==> up[k].time == down[k].time && (up[k].value == Null || down[k].value == Null)) &&
            Drawn(up) == PointsWithDirection(data, 1.0) &&
            Drawn(down) == PointsWithDirection(data, -1.0)
  {
    if |data| > 0 {
      var prefix := data[..|data| - 1];
      PlainLinesAgreeWithSegments(prefix);
      var (up, down) := PlainLines(prefix);
      var entry := data[|data| - 1];
      match PlainEntry(entry)
      case None =>
      case Some(pair) =>
        assert (up + [pair.0])[..|up|] == up;
        assert (down + [pair.1])[..|down|] == down;
    }
  }

  // ---------------------------------------------------------------------
  // processSqueezeData
  // ---------------------------------------------------------------------

  datatype SqueezeColor = BrightGreen | DarkGreen | BrightRed | DarkRed | Gray

  datatype MomentumBar = MomentumBar(time: JsValue, value: JsValue, color: SqueezeColor)

  /** The colour of a momentum bar: green above zero, red below, bright when momentum_increasing is truthy. */
  function MomentumColor(momentum: JsValue, increasing: JsValue): SqueezeColor {
    if Less(Finite(0.0), ToNumber(momentum)) then (if Truthy(increasing) then BrightGreen else DarkGreen)
    else if Less(ToNumber(momentum), Finite(0.0)) then (if Truthy(increasing) then BrightRed else DarkRed)
    else Gray
  }

  /** The bar a row contributes: only for a timed row whose momentum is present and finite. */
  function SqueezeBar(entry: Option<Item>): Option<MomentumBar> {
    if !Timed(entry) then None
    else
      var m := Get(entry.value, "momentum");
      if m != Null && m != Undefined && GlobalIsFinite(m) then
        Some(MomentumBar(Get(entry.value, "time"), m, MomentumColor(m, Get(entry.value, "momentum_increasing"))))
      else None
  }

  function SqueezeLines(data: seq<Option<Item>>): (seq<MomentumBar>, seq<Point>) {
    if |data| == 0 then ([], [])
    else
      var rest := SqueezeLines(data[..|data| - 1]);
      var entry := data[|data| - 1];
      var bars := match SqueezeBar(entry) case None => rest.0 case Some(b) => rest.0 + [b];
      (bars, if Timed(entry) then rest.1 + [Point(Get(entry.value, "time"), Num(Finite(0.0)))] else rest.1)
  }

  /** MainChart.processSqueezeData. */
  method ProcessSqueezeData(squeezeData: seq<Option<Item>>) returns (momentumData: seq<MomentumBar>, zeroLineData: seq<Point>)
    ensures (momentumData, zeroLineData) == SqueezeLines(squeezeData)
  {
    momentumData, zeroLineData := [], [];
    for i := 0 to |squeezeData|
      invariant (momentumData, zeroLineData) == SqueezeLines(squeezeData[..i])
    {
      assert squeezeData[..i + 1][..i] == squeezeData[..i];
      var entry := squeezeData[i];
      if Timed(entry) {
        var bar := SqueezeBar(entry);
        if bar.Some? {
          momentumData := momentumData + [bar.value];
        }
        zeroLineData := zeroLineData + [Point(Get(entry.value, "time"), Num(Finite(0.0)))];
      }
    }
    assert squeezeData[..|squeezeData|] == squeezeData;
  }

  /**
   * Every momentum bar has a finite momentum, coloured green exactly when
   * it is positive and red exactly when it is negative; the zero line has
   * value 0 throughout and at least as many points as there are bars.
   */
  lemma {:induction false} SqueezeLinesProperties(data: seq<Option<Item>>)
    ensures var (bars, zero) := SqueezeLines(data);
            |bars| <= |zero| &&
            (forall p :: p in zero ==> p.value == Num(Finite(0.0)) && Truthy(p.time)) &&
            (forall b :: b in bars ==>
               Truthy(b.time) && ToNumber(b.value).Finite? &&
               ((b.color == BrightGreen || b.color == DarkGreen) <==> ToNumber(b.value).v > 0.0) &&
               ((b.color == BrightRed || b.color == DarkRed) <==> ToNumber(b.value).v < 0.0))
  {
    if |data| > 0 {
      SqueezeLinesProperties(data[..|data| - 1]);
    }
  }
}
