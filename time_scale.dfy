/**
 * SharedTimeScale (static/lightweight-charts.js): the manager that keeps
 * the sub-charts' time axes in step with the main chart. Charts are
 * registered in a Map in insertion order, one of them usually primary; a
 * re-entrancy flag stops a sync from starting while one is running.
 *
 * The charting library's time-scale calls are recorded as actions instead
 * of performed; whether a registered instance currently has a chart is a
 * parameter, since the instance may have been destroyed meanwhile.
 */
module TimeScaleSync {
  import opened Wrappers
  import opened JsValues

  datatype Registration = Registration(id: string, instance: nat, isPrimary: bool)

  /** A call on a chart's time scale. */
  datatype SyncAction =
    | SetVisibleRange(chart: string, range: Item)
    | SetVisibleLogicalRange(chart: string, range: Item)
    | ApplyOptions(chart: string, barSpacing: Option<JsValue>, rightOffset: Option<JsValue>)

  ghost predicate DistinctIds(charts: seq<Registration>) {
    forall i, j :: 0 <= i < j < |charts| ==> charts[i].id != charts[j].id
  }

  /** The position of the registration with the given id, if any. */
  function IndexOfId(charts: seq<Registration>, id: string): (k: Option<nat>)
    ensures k.Some? ==> k.value < |charts| && charts[k.value].id == id
    ensures k.None? ==> forall i :: 0 <= i < |charts| ==> charts[i].id != id
  {
    if |charts| == 0 then None
    else if charts[0].id == id then Some(0)
    else
      match IndexOfId(charts[1..], id)
      case None => None
      case Some(k) => Some(k + 1)
  }

  /** Map.set: a known id is updated in its place, a new one goes last. */
  function SetRegistration(charts: seq<Registration>, reg: Registration): (r: seq<Registration>)
    ensures DistinctIds(charts) ==> DistinctIds(r)
    ensures exists k :: 0 <= k < |r| && r[k] == reg
    ensures forall i :: 0 <= i < |charts| && charts[i].id != reg.id ==> charts[i] in r
  {
    match IndexOfId(charts, reg.id)
    case Some(k) =>
      var r := charts[k := reg];
      assert r[k] == reg;
      assert forall i :: 0 <= i < |charts| && i != k ==> r[i] == charts[i];
      r
    case None => assert (charts + [reg])[|charts|] == reg; charts + [reg]
  }

  /** Map.delete. */
  function RemoveRegistration(charts: seq<Registration>, id: string): (r: seq<Registration>)
    ensures DistinctIds(charts) ==> DistinctIds(r)
    ensures forall x :: x in r <==> x in charts && x.id != id
  {
    if |charts| == 0 then []
    else
      var rest := RemoveRegistration(charts[1..], id);
      assert forall x :: x in charts <==> x == charts[0] || x in charts[1..];
      if charts[0].id == id then rest else [charts[0]] + rest
  }

  /** getPrimaryChart: the instance of the first primary registration in insertion order. */
  function PrimaryChart(charts: seq<Registration>): (p: Option<nat>)
    ensures p.Some? <==> exists k :: 0 <= k < |charts| && charts[k].isPrimary
    ensures p.Some? ==> exists k :: 0 <= k < |charts| && charts[k].isPrimary && charts[k].instance == p.value &&
                                    forall i :: 0 <= i < k ==> !charts[i].isPrimary
  {
    if |charts| == 0 then None
    else if charts[0].isPrimary then Some(charts[0].instance)
    else
      var rest := PrimaryChart(charts[1..]);
      assert forall k :: 0 < k < |charts| ==> charts[k] == charts[1..][k - 1];
      if rest.Some? then
        var k :| 0 <= k < |charts[1..]| && charts[1..][k].isPrimary && charts[1..][k].instance == rest.value &&
                 forall i :: 0 <= i < k ==> !charts[1..][i].isPrimary;
        assert charts[k + 1].isPrimary && forall i :: 0 <= i < k + 1 ==> !charts[i].isPrimary;
        rest
      else rest
  }

  /** The calls syncAllCharts makes on one registered chart. */
  function ActionsFor(reg: Registration, hasChart: nat -> bool, domain: Option<Item>, logical: Option<Item>,
                      barSpacing: JsValue, rightOffset: JsValue): seq<SyncAction>
  {
    if reg.isPrimary || !hasChart(reg.instance) then []
    else RangeCalls(reg.id, domain, logical) + OptionsCalls(reg.id, barSpacing, rightOffset)
  }

  /** setVisibleRange with the domain and setVisibleLogicalRange with the logical range, each when set. */
  function RangeCalls(id: string, domain: Option<Item>, logical: Option<Item>): seq<SyncAction> {
    (if domain.Some? then [SetVisibleRange(id, domain.value)] else []) +
    (if logical.Some? then [SetVisibleLogicalRange(id, logical.value)] else [])
  }

  /** applyOptions with the non-null bar spacing and right offset, when either is non-null. */
  function OptionsCalls(id: string, barSpacing: JsValue, rightOffset: JsValue): seq<SyncAction> {
    if barSpacing != Null || rightOffset != Null then
      [ApplyOptions(id, if barSpacing != Null then Some(barSpacing) else None,
                    if rightOffset != Null then Some(rightOffset) else None)]
    else []
  }

  /** The calls for one chart go to that chart, and only when it is a non-primary chart that has a chart. */
  lemma ActionsForTarget(reg: Registration, hasChart: nat -> bool, domain: Option<Item>, logical: Option<Item>,
                         barSpacing: JsValue, rightOffset: JsValue)
    ensures forall a :: a in ActionsFor(reg, hasChart, domain, logical, barSpacing, rightOffset) ==>
              Target(a) == reg.id && !reg.isPrimary && hasChart(reg.instance)
  {
  }

  /** The calls of a whole sync, chart by chart in insertion order. */
  function SyncActions(charts: seq<Registration>, hasChart: nat -> bool, domain: Option<Item>, logical: Option<Item>,
                       barSpacing: JsValue, rightOffset: JsValue): seq<SyncAction>
  {
    if |charts| == 0 then []
    else SyncActions(charts[..|charts| - 1], hasChart, domain, logical, barSpacing, rightOffset) +
         ActionsFor(charts[|charts| - 1], hasChart, domain, logical, barSpacing, rightOffset)
  }

  function Target(a: SyncAction): string {
    a.chart
  }

  /** Every call of a sync goes to a registered non-primary chart that has a chart. */
  lemma {:induction false} SyncOnlyTouchesSecondaries(charts: seq<Registration>, hasChart: nat -> bool, domain: Option<Item>,
                                                      logical: Option<Item>, barSpacing: JsValue, rightOffset: JsValue)
    ensures forall a :: a in SyncActions(charts, hasChart, domain, logical, barSpacing, rightOffset) ==>
              exists k :: 0 <= k < |charts| && charts[k].id == Target(a) && !charts[k].isPrimary && hasChart(charts[k].instance)
  {
    if |charts| > 0 {
      var init := charts[..|charts| - 1];
      SyncOnlyTouchesSecondaries(init, hasChart, domain, logical, barSpacing, rightOffset);
      ActionsForTarget(charts[|charts| - 1], hasChart, domain, logical, barSpacing, rightOffset);
      assert forall k :: 0 <= k < |init| ==> init[k] == charts[k];
    }
  }

  /**
   * Every registered non-primary chart with a chart is brought to the
   * current domain and logical range when those are set.
   */
  lemma {:induction false} SyncReachesEverySecondary(charts: seq<Registration>, hasChart: nat -> bool, domain: Option<Item>,
                                                     logical: Option<Item>, barSpacing: JsValue, rightOffset: JsValue, k: nat)
    requires k < |charts| && !charts[k].isPrimary && hasChart(charts[k].instance)
    ensures domain.Some? ==> SetVisibleRange(charts[k].id, domain.value) in SyncActions(charts, hasChart, domain, logical, barSpacing, rightOffset)
    ensures logical.Some? ==> SetVisibleLogicalRange(charts[k].id, logical.value) in SyncActions(charts, hasChart, domain, logical, barSpacing, rightOffset)
  {
    var init := charts[..|charts| - 1];
    if k < |charts| - 1 {
      assert init[k] == charts[k];
      SyncReachesEverySecondary(init, hasChart, domain, logical, barSpacing, rightOffset, k);
    } else {
      var own := ActionsFor(charts[k], hasChart, domain, logical, barSpacing, rightOffset);
      if domain.Some? {
        assert own[0] == SetVisibleRange(charts[k].id, domain.value);
      }
      if logical.Some? {
        assert SetVisibleLogicalRange(charts[k].id, logical.value) in own;
      }
    }
  }

  /** With only primary charts (or none with a chart) a sync makes no calls. */
  lemma {:induction false} SyncWithoutSecondaries(charts: seq<Registration>, hasChart: nat -> bool, domain: Option<Item>,
                                                  logical: Option<Item>, barSpacing: JsValue, rightOffset: JsValue)
    requires forall k :: 0 <= k < |charts| ==> charts[k].isPrimary || !hasChart(charts[k].instance)
    ensures SyncActions(charts, hasChart, domain, logical, barSpacing, rightOffset) == []
  {
    if |charts| > 0 {
      var init := charts[..|charts| - 1];
      assert forall k :: 0 <= k < |init| ==> init[k] == charts[k];
      SyncWithoutSecondaries(init, hasChart, domain, logical, barSpacing, rightOffset);
    }
  }

  class SharedTimeScale {
    var currentDomain: Option<Item>
    var currentLogicalRange: Option<Item>
    var currentBarSpacing: JsValue
    var currentRightOffset: JsValue
    var charts: seq<Registration>
    var isUpdating: bool
    /** The time-scale calls made so far, in order. */
    var applied: seq<SyncAction>
    /** The instances whose chart got the two range-change listeners, in order. */
    var subscribed: seq<nat>

    ghost predicate Valid()
      reads this
    {
      DistinctIds(charts)
    }

    constructor()
      ensures Valid() && !isUpdating && charts == [] && applied == [] && subscribed == []
      ensures currentDomain == None && currentLogicalRange == None
      ensures currentBarSpacing == Null && currentRightOffset == Num(Finite(12.0))
    {
      currentDomain, currentLogicalRange := None, None;
      currentBarSpacing, currentRightOffset := Null, Num(Finite(12.0));
      charts, isUpdating, applied, subscribed := [], false, [], [];
    }

    /** registerChart: a primary instance that already has a chart gets the listeners. */
    method RegisterChart(chartId: string, instance: nat, isPrimary: bool, hasChart: bool)
      requires Valid()
      modifies this
      ensures Valid() && charts == SetRegistration(old(charts), Registration(chartId, instance, isPrimary))
      ensures subscribed == old(subscribed) + (if isPrimary && hasChart then [instance] else [])
      ensures applied == old(applied) && isUpdating == old(isUpdating)
      ensures currentDomain == old(currentDomain) && currentLogicalRange == old(currentLogicalRange)
      ensures currentBarSpacing == old(currentBarSpacing) && currentRightOffset == old(currentRightOffset)
    {
      charts := SetRegistration(charts, Registration(chartId, instance, isPrimary));
      if isPrimary && hasChart {
        subscribed := subscribed + [instance];
      }
    }

    /**
     * syncAllCharts: nothing while a sync is running; otherwise the calls
     * for every chart in order, after which the flag is clear again.
     */
    method SyncAllCharts(hasChart: nat -> bool)
      modifies this`isUpdating, this`applied
      ensures old(isUpdating) ==> applied == old(applied) && isUpdating
      ensures !old(isUpdating) ==>
                applied == old(applied) + SyncActions(charts, hasChart, currentDomain, currentLogicalRange,
                                                      currentBarSpacing, currentRightOffset) &&
                !isUpdating
      ensures charts == old(charts) && subscribed == old(subscribed)
      ensures currentDomain == old(currentDomain) && currentLogicalRange == old(currentLogicalRange)
      ensures currentBarSpacing == old(currentBarSpacing) && currentRightOffset == old(currentRightOffset)
    {
      if isUpdating {
        return;
      }
      isUpdating := true;
      var calls: seq<SyncAction> := [];
      for k := 0 to |charts|
        invariant calls == SyncActions(charts[..k], hasChart, currentDomain, currentLogicalRange,
                                       currentBarSpacing, currentRightOffset)
      {
        assert charts[..k + 1][..k] == charts[..k];
        var reg := charts[k];
        var forChart: seq<SyncAction> := [];
        if !reg.isPrimary && hasChart(reg.instance) {
          if currentDomain.Some? {
            forChart := forChart + [SetVisibleRange(reg.id, currentDomain.value)];
          }
          if currentLogicalRange.Some? {
            forChart := forChart + [SetVisibleLogicalRange(reg.id, currentLogicalRange.value)];
          }
          assert forChart == RangeCalls(reg.id, currentDomain, currentLogicalRange);
          var spacing := if currentBarSpacing != Null then Some(currentBarSpacing) else None;
          var offset := if currentRightOffset != Null then Some(currentRightOffset) else None;
          ghost var ranges := forChart;
          if spacing.Some? || offset.Some? {
            forChart := forChart + [ApplyOptions(reg.id, spacing, offset)];
          }
          assert forChart == ranges + OptionsCalls(reg.id, currentBarSpacing, currentRightOffset);
        }
        assert forChart == ActionsFor(reg, hasChart, currentDomain, currentLogicalRange,
                                      currentBarSpacing, currentRightOffset);
        calls := calls + forChart;
      }
      assert charts[..|charts|] == charts;
      applied := applied + calls;
      isUpdating := false;
    }

    /** updateDomain: store the new domain, then sync. */
    method UpdateDomain(newDomain: Option<Item>, hasChart: nat -> bool)
      modifies this`currentDomain, this`isUpdating, this`applied
      ensures currentDomain == newDomain && currentLogicalRange == old(currentLogicalRange)
      ensures currentBarSpacing == old(currentBarSpacing) && currentRightOffset == old(currentRightOffset)
      ensures isUpdating == old(isUpdating) && (old(isUpdating) ==> applied == old(applied))
      ensures !old(isUpdating) ==>
                applied == old(applied) + SyncActions(charts, hasChart, newDomain, currentLogicalRange,
                                                      currentBarSpacing, currentRightOffset) && !isUpdating
      ensures charts == old(charts) && subscribed == old(subscribed)
    {
      currentDomain := newDomain;
      SyncAllCharts(hasChart);
    }

    /** updateLogicalRange: store the new logical range, then sync. */
    method UpdateLogicalRange(newLogicalRange: Option<Item>, hasChart: nat -> bool)
      modifies this`currentLogicalRange, this`isUpdating, this`applied
      ensures currentLogicalRange == newLogicalRange && currentDomain == old(currentDomain)
      ensures currentBarSpacing == old(currentBarSpacing) && currentRightOffset == old(currentRightOffset)
      ensures isUpdating == old(isUpdating) && (old(isUpdating) ==> applied == old(applied))
      ensures !old(isUpdating) ==>
                applied == old(applied) + SyncActions(charts, hasChart, currentDomain, newLogicalRange,
                                                      currentBarSpacing, currentRightOffset) && !isUpdating
      ensures charts == old(charts) && subscribed == old(subscribed)
    {
      currentLogicalRange := newLogicalRange;
      SyncAllCharts(hasChart);
    }

    /** The primary chart's visible-time-range listener: ignored during a sync or for a null range. */
    method OnPrimaryTimeRangeChange(timeRange: Option<Item>, hasChart: nat -> bool)
      modifies this`currentDomain, this`isUpdating, this`applied
      ensures currentLogicalRange == old(currentLogicalRange)
      ensures currentBarSpacing == old(currentBarSpacing) && currentRightOffset == old(currentRightOffset)
      ensures isUpdating == old(isUpdating)
      ensures old(isUpdating) || timeRange.None? ==> currentDomain == old(currentDomain) && applied == old(applied)
      ensures !old(isUpdating) && timeRange.Some? ==>
                currentDomain == timeRange &&
                applied == old(applied) + SyncActions(charts, hasChart, timeRange, currentLogicalRange,
                                                      currentBarSpacing, currentRightOffset)
      ensures charts == old(charts) && subscribed == old(subscribed)
    {
      if !isUpdating && timeRange.Some? {
        UpdateDomain(timeRange, hasChart);
      }
    }

    /** The primary chart's visible-logical-range listener. */
    method OnPrimaryLogicalRangeChange(logicalRange: Option<Item>, hasChart: nat -> bool)
      modifies this`currentLogicalRange, this`isUpdating, this`applied
      ensures currentDomain == old(currentDomain)
      ensures currentBarSpacing == old(currentBarSpacing) && currentRightOffset == old(currentRightOffset)
      ensures isUpdating == old(isUpdating)
      ensures old(isUpdating) || logicalRange.None? ==> currentLogicalRange == old(currentLogicalRange) && applied == old(applied)
      ensures !old(isUpdating) && logicalRange.Some? ==>
                currentLogicalRange == logicalRange &&
                applied == old(applied) + SyncActions(charts, hasChart, currentDomain, logicalRange,
                                                      currentBarSpacing, currentRightOffset)
      ensures charts == old(charts) && subscribed == old(subscribed)
    {
      if !isUpdating && logicalRange.Some? {
        UpdateLogicalRange(logicalRange, hasChart);
      }
    }

    method UnregisterChart(chartId: string)
      requires Valid()
      modifies this
      ensures Valid() && charts == RemoveRegistration(old(charts), chartId)
      ensures applied == old(applied) && subscribed == old(subscribed) && isUpdating == old(isUpdating)
      ensures currentDomain == old(currentDomain) && currentLogicalRange == old(currentLogicalRange)
      ensures currentBarSpacing == old(currentBarSpacing) && currentRightOffset == old(currentRightOffset)
    {
      charts := RemoveRegistration(charts, chartId);
    }

    method GetPrimaryChart() returns (primary: Option<nat>)
      ensures primary == PrimaryChart(charts)
    {
      primary := None;
      var k := 0;
      while k < |charts|
        invariant 0 <= k <= |charts|
        invariant PrimaryChart(charts) == PrimaryChart(charts[k..])
      {
        if charts[k].isPrimary {
          return Some(charts[k].instance);
        }
        assert charts[k..][1..] == charts[k + 1..];
        k := k + 1;
      }
    }

    /**
     * forceSync: when there is a primary chart with a chart, the four
     * settings are copied from its time scale (read gives them, in the
     * order domain, logical range, barSpacing, rightOffset); then a sync.
     */
    method ForceSync(hasChart: nat -> bool, read: nat -> (Option<Item>, Option<Item>, JsValue, JsValue))
      modifies this`currentDomain, this`currentLogicalRange, this`currentBarSpacing, this`currentRightOffset, this`isUpdating, this`applied
      ensures var p := PrimaryChart(old(charts));
              p.Some? && hasChart(p.value) ==>
                (currentDomain, currentLogicalRange, currentBarSpacing, currentRightOffset) == read(p.value)
      ensures var p := PrimaryChart(old(charts));
              !(p.Some? && hasChart(p.value)) ==>
                currentDomain == old(currentDomain) && currentLogicalRange == old(currentLogicalRange) &&
                currentBarSpacing == old(currentBarSpacing) && currentRightOffset == old(currentRightOffset)
      ensures !old(isUpdating) ==>
                applied == old(applied) + SyncActions(charts, hasChart, currentDomain, currentLogicalRange,
                                                      currentBarSpacing, currentRightOffset) && !isUpdating
      ensures isUpdating == old(isUpdating) && (old(isUpdating) ==> applied == old(applied))
      ensures charts == old(charts) && subscribed == old(subscribed)
    {
      var primary := GetPrimaryChart();
      if primary.Some? && hasChart(primary.value) {
        var view := read(primary.value);
        currentDomain, currentLogicalRange, currentBarSpacing, currentRightOffset := view.0, view.1, view.2, view.3;
      }
      SyncAllCharts(hasChart);
    }
  }

  /**
   * One primary and its sub-charts: the main chart registers as primary,
   * the volume and squeeze charts as secondaries; getPrimaryChart returns
   * the main chart and no sync call goes to it.
   */
  lemma MainWithSubCharts(main: nat, volume: nat, squeeze: nat, hasChart: nat -> bool,
                          domain: Option<Item>, logical: Option<Item>, barSpacing: JsValue, rightOffset: JsValue)
    ensures var charts := [Registration("main", main, true), Registration("volume", volume, false),
                           Registration("squeeze", squeeze, false)];
            PrimaryChart(charts) == Some(main) &&
            forall a :: a in SyncActions(charts, hasChart, domain, logical, barSpacing, rightOffset) ==> Target(a) != "main"
  {
    var charts := [Registration("main", main, true), Registration("volume", volume, false),
                   Registration("squeeze", squeeze, false)];
    SyncOnlyTouchesSecondaries(charts, hasChart, domain, logical, barSpacing, rightOffset);
    assert "main"[0] == 'm' && "volume"[0] == 'v' && "squeeze"[0] == 's';
  }
}
