/**
 * ChartRegistry (static/lightweight-charts.js and, identically,
 * static/lightweight-charts-v2.js): a process-wide map from chart ids to
 * charts, kept in insertion order as a JavaScript Map is, plus a reference
 * to the main chart. Charts are identified by a number.
 */
module Registry {
  import opened Wrappers

  /** The registry's contents: ids in insertion order, the id-to-chart map, and the main chart (null is None). */
  datatype Entries = Entries(order: seq<string>, charts: map<string, nat>, main: Option<nat>)

  ghost predicate WellFormed(r: Entries) {
    Distinct(r.order) &&
    (forall id :: id in r.charts <==> id in r.order)
  }

  const Empty: Entries := Entries([], map[], None)

  ghost predicate Distinct(order: seq<string>) {
    forall i, j :: 0 <= i < j < |order| ==> order[i] != order[j]
  }

  /** The ids other than id, in order. */
  function Without(order: seq<string>, id: string): (r: seq<string>)
    ensures forall x :: x in r <==> x in order && x != id
  {
    if |order| == 0 then []
    else
      var rest := Without(order[..|order| - 1], id);
      var last := order[|order| - 1];
      assert forall x :: x in order <==> x in order[..|order| - 1] || x == last;
      if last == id then rest else rest + [last]
  }

  lemma {:induction false} WithoutKeepsDistinct(order: seq<string>, id: string)
    ensures Distinct(order) ==> Distinct(Without(order, id))
  {
    if |order| > 0 && Distinct(order) {
      var init := order[..|order| - 1];
      assert Distinct(init);
      WithoutKeepsDistinct(init, id);
      LastIsNew(order);
    }
  }

  /** In a list without repeats the last id does not occur before. */
  lemma LastIsNew(order: seq<string>)
    requires |order| > 0 && Distinct(order)
    ensures order[|order| - 1] !in order[..|order| - 1]
  {
    assert forall k :: 0 <= k < |order| - 1 ==> order[..|order| - 1][k] == order[k];
  }

  /** How often id occurs in order. */
  function Occurrences(order: seq<string>, id: string): nat {
    if |order| == 0 then 0
    else Occurrences(order[..|order| - 1], id) + (if order[|order| - 1] == id then 1 else 0)
  }

  lemma {:induction false} OccurrencesOfMember(order: seq<string>, id: string)
    requires Distinct(order)
    ensures Occurrences(order, id) == (if id in order then 1 else 0)
  {
    if |order| > 0 {
      var init := order[..|order| - 1];
      OccurrencesOfMember(init, id);
      assert forall x :: x in order <==> x in init || x == order[|order| - 1];
      LastIsNew(order);
    }
  }

  /** register(id, chart, isMain): Map.set (a known id keeps its place), and the main-chart field when isMain. */
  function Registered(r: Entries, id: string, chart: nat, isMain: bool): (r': Entries)
    ensures WellFormed(r) ==> WellFormed(r')
    ensures r'.charts == r.charts[id := chart]
    ensures r'.main == (if isMain then Some(chart) else r.main)
    ensures r'.order == (if id in r.order then r.order else r.order + [id])
  {
    Entries(if id in r.order then r.order else r.order + [id], r.charts[id := chart], if isMain then Some(chart) else r.main)
  }

  /** unregister(id): deletes the id, and clears the main-chart field when the chart under id is the main chart. */
  function Unregistered(r: Entries, id: string): (r': Entries)
    ensures WellFormed(r) ==> WellFormed(r')
  {
    var cleared := id in r.charts && r.main == Some(r.charts[id]);
    WithoutKeepsDistinct(r.order, id);
    Entries(Without(r.order, id), r.charts - {id}, if cleared then None else r.main)
  }

  /** getAllCharts(): the registered charts in insertion order. */
  function AllCharts(r: Entries): (cs: seq<nat>)
    requires WellFormed(r)
    ensures |cs| == |r.order|
    ensures forall k :: 0 <= k < |cs| ==> cs[k] == r.charts[r.order[k]]
  {
    seq(|r.order|, k requires 0 <= k < |r.order| => r.charts[r.order[k]])
  }

  /** getChart(id): undefined (None) for an unknown id. */
  function ChartUnder(r: Entries, id: string): (c: Option<nat>)
    ensures c.Some? <==> id in r.charts
    ensures c.Some? ==> c.value == r.charts[id]
  {
    if id in r.charts then Some(r.charts[id]) else None
  }

  // ---------------------------------------------------------------------
  // the static class
  // ---------------------------------------------------------------------

  class ChartRegistry {
    var order: seq<string>
    var charts: map<string, nat>
    var mainChart: Option<nat>

    function Contents(): Entries
      reads this
    {
      Entries(order, charts, mainChart)
    }

    ghost predicate Valid()
      reads this
    {
      WellFormed(Contents())
    }

    /** The static initialisers: an empty Map and no main chart. */
    constructor()
      ensures Valid() && Contents() == Empty
    {
      order, charts, mainChart := [], map[], None;
    }

    method Register(id: string, chart: nat, isMain: bool)
      requires Valid()
      modifies this
      ensures Valid() && Contents() == Registered(old(Contents()), id, chart, isMain)
    {
      if id !in order {
        order := order + [id];
      }
      charts := charts[id := chart];
      if isMain {
        mainChart := Some(chart);
      }
    }

    method Unregister(id: string)
      requires Valid()
      modifies this
      ensures Valid() && Contents() == Unregistered(old(Contents()), id)
    {
      var chart := if id in charts then Some(charts[id]) else None;
      if chart.Some? && chart == mainChart {
        mainChart := None;
      }
      WithoutKeepsDistinct(order, id);
      order := Without(order, id);
      charts := charts - {id};
    }

    method GetMainChart() returns (chart: Option<nat>)
      ensures chart == Contents().main
    {
      chart := mainChart;
    }

    method GetAllCharts() returns (all: seq<nat>)
      requires Valid()
      ensures all == AllCharts(Contents())
    {
      all := [];
      for k := 0 to |order|
        invariant all == AllCharts(Contents())[..k]
      {
        all := all + [charts[order[k]]];
      }
    }

    method GetChart(id: string) returns (chart: Option<nat>)
      ensures chart == ChartUnder(Contents(), id)
    {
      chart := if id in charts then Some(charts[id]) else None;
    }

    method Clear()
      modifies this
      ensures Valid() && Contents() == Empty
    {
      order, charts, mainChart := [], map[], None;
    }

    method GetChartCount() returns (count: nat)
      requires Valid()
      ensures count == |Contents().charts| == |Contents().order|
    {
      count := |charts|;
      MapSizeIsOrderLength(Contents());
    }
  }

  /** A well-formed registry has as many map entries as ids in its order. */
  lemma {:induction false} MapSizeIsOrderLength(r: Entries)
    requires WellFormed(r)
    ensures |r.charts| == |r.order|
    decreases |r.order|
  {
    if |r.order| > 0 {
      var id := r.order[|r.order| - 1];
      var init := r.order[..|r.order| - 1];
      var smaller := Entries(init, r.charts - {id}, r.main);
      assert forall x :: x in r.order <==> x in init || x == id;
      LastIsNew(r.order);
      MapSizeIsOrderLength(smaller);
    }
  }

  // ---------------------------------------------------------------------
  // properties
  // ---------------------------------------------------------------------

  /** After register(id, chart) the chart is found under id, and the count grows only for a new id. */
  lemma RegisterThenGet(r: Entries, id: string, chart: nat, isMain: bool)
    requires WellFormed(r)
    ensures var r' := Registered(r, id, chart, isMain);
            ChartUnder(r', id) == Some(chart) &&
            |r'.order| == |r.order| + (if id in r.charts then 0 else 1) &&
            (forall other :: other != id ==> ChartUnder(r', other) == ChartUnder(r, other))
  {
  }

  /** Unregistering the main chart clears the main-chart field; the id is gone and the other entries stay. */
  lemma UnregisterMainClearsMain(r: Entries, id: string)
    requires WellFormed(r) && id in r.charts && r.main == Some(r.charts[id])
    ensures var r' := Unregistered(r, id);
            r'.main == None && ChartUnder(r', id) == None &&
            (forall other :: other != id ==> ChartUnder(r', other) == ChartUnder(r, other))
  {
  }

  /**
   * Unregistering a chart that is not the main chart keeps the main-chart field.
   * The comparison is by chart, not by id: the main chart registered
   * under a second id loses the main-chart field when either id is unregistered.
   */
  lemma UnregisterOtherKeepsMain(r: Entries, id: string)
    requires WellFormed(r) && (id !in r.charts || r.main != Some(r.charts[id]))
    ensures Unregistered(r, id).main == r.main
  {
  }

  /**
   * The v1 construction of a MainChart (lightweight-charts.js): only the
   * BaseChart constructor registers, without isMain, so on a fresh registry
   * getMainChart() stays null and the legend's toggleStock and
   * toggleNormalization callbacks find no chart to act on.
   */
  function ConstructMainChartV1(r: Entries, id: string, chart: nat): Entries {
    Registered(r, id, chart, false)
  }

  lemma V1MainChartIsNeverMain(id: string, chart: nat)
    ensures var r := ConstructMainChartV1(Empty, id, chart);
            ChartUnder(r, id) == Some(chart) && r.main == None
  {
  }

  /**
   * The v2 construction (lightweight-charts-v2.js): the BaseChart
   * constructor registers the chart, and the MainChart constructor
   * registers it again under the same id with isMain.
   */
  function ConstructMainChartV2(r: Entries, id: string, chart: nat): Entries {
    Registered(Registered(r, id, chart, false), id, chart, true)
  }

  /** v2 leaves exactly one entry under the id, and getMainChart() returns the chart. */
  lemma V2MainChartIsMain(r: Entries, id: string, chart: nat)
    requires WellFormed(r)
    ensures var r' := ConstructMainChartV2(r, id, chart);
            WellFormed(r') && ChartUnder(r', id) == Some(chart) && r'.main == Some(chart) &&
            Occurrences(r'.order, id) == 1
  {
    var r' := ConstructMainChartV2(r, id, chart);
    OccurrencesOfMember(r'.order, id);
  }
}
