/**
 * The stateful part of src/js/main.js: the two series slots `window.mainData` and
 * `window.comparisonData`, how fetch completions and the "none" selection change them,
 * and the data table. Each fetch completion is one atomic event whose payload is the
 * observation list `data[1]`, absent when the response had none or the transport failed.
 */
module Dashboard {
  import opened Wrappers
  import opened Series
  import opened ChartView

  /** The two slots; `None` is `null`/`undefined`. */
  datatype Store = Store(main: Option<Series>, comparison: Option<Series>)

  datatype Event =
    | MainFetched(payload: Option<seq<Observation>>, countryCode: string)        // fetchData's `.then`
    | ComparisonFetched(payload: Option<seq<Observation>>, countryCode: string)  // fetchComparisonData's `.then`
    | ComparisonCleared                                                          // updateChart with "none"

  /**
   * The new slots after one event. A missing payload is logged and changes nothing;
   * an empty list throws inside the normaliser, the throw is caught, and nothing
   * changes either; otherwise the event's own slot is replaced wholesale.
   */
  function Step(s: Store, e: Event): (t: Store)
    ensures e.MainFetched? ==> t.comparison == s.comparison
    ensures e.ComparisonFetched? || e.ComparisonCleared? ==> t.main == s.main
    ensures e.ComparisonCleared? ==> t.comparison == None
    ensures (e.MainFetched? || e.ComparisonFetched?) && (e.payload.None? || e.payload.value == []) ==> t == s
    ensures e.MainFetched? && e.payload.Some? && e.payload.value != [] ==>
              t.main == Some(Normalize(e.payload.value, e.countryCode).value)
    ensures e.ComparisonFetched? && e.payload.Some? && e.payload.value != [] ==>
              t.comparison == Some(Normalize(e.payload.value, e.countryCode).value)
  {
    match e
    case ComparisonCleared => s.(comparison := None)
    case MainFetched(payload, code) =>
      if payload.None? then s
      else (match Normalize(payload.value, code)
            case Success(series) => s.(main := Some(series))
            case Failure(_) => s)
    case ComparisonFetched(payload, code) =>
      if payload.None? then s
      else (match Normalize(payload.value, code)
            case Success(series) => s.(comparison := Some(series))
            case Failure(_) => s)
  }

  /** Whether the event redraws the chart. */
  predicate Redraws(e: Event) {
    e.ComparisonCleared? || (e.payload.Some? && e.payload.value != [])
  }

  /** The slots after a sequence of events, in completion order. */
  function Run(s: Store, events: seq<Event>): Store
    decreases |events|
  {
    if events == [] then s else Run(Step(s, events[0]), events[1..])
  }

  function MainEvents(events: seq<Event>): (r: seq<Event>)
    ensures forall i :: 0 <= i < |r| ==> r[i].MainFetched?
  {
    if events == [] then []
    else (if events[0].MainFetched? then [events[0]] else []) + MainEvents(events[1..])
  }

  function ComparisonEvents(events: seq<Event>): (r: seq<Event>)
    ensures forall i :: 0 <= i < |r| ==> !r[i].MainFetched?
  {
    if events == [] then []
    else (if events[0].MainFetched? then [] else [events[0]]) + ComparisonEvents(events[1..])
  }

  lemma {:induction false} RunOnlyMainEvents(s1: Store, s2: Store, events: seq<Event>)
    requires s1.main == s2.main
    requires forall i :: 0 <= i < |events| ==> events[i].MainFetched?
    ensures Run(s1, events).main == Run(s2, events).main
    decreases |events|
  {
    if events != [] {
      RunOnlyMainEvents(Step(s1, events[0]), Step(s2, events[0]), events[1..]);
    }
  }

  lemma {:induction false} RunOnlyComparisonEvents(s1: Store, s2: Store, events: seq<Event>)
    requires s1.comparison == s2.comparison
    requires forall i :: 0 <= i < |events| ==> !events[i].MainFetched?
    ensures Run(s1, events).comparison == Run(s2, events).comparison
    decreases |events|
  {
    if events != [] {
      RunOnlyComparisonEvents(Step(s1, events[0]), Step(s2, events[0]), events[1..]);
    }
  }

  /**
   * Slot independence over any completion order: the main slot depends only on the
   * main fetch completions, whatever comparison events are interleaved with them.
   */
  lemma {:induction false} MainSlotIndependent(s: Store, events: seq<Event>)
    ensures Run(s, events).main == Run(s, MainEvents(events)).main
    decreases |events|
  {
    if events != [] {
      var e, rest := events[0], events[1..];
      MainSlotIndependent(Step(s, e), rest);
      if e.MainFetched? {
        assert MainEvents(events) == [e] + MainEvents(rest);
        assert ([e] + MainEvents(rest))[1..] == MainEvents(rest);
      } else {
        assert MainEvents(events) == MainEvents(rest);
        RunOnlyMainEvents(Step(s, e), s, MainEvents(rest));
      }
    }
  }

  /** Likewise the comparison slot depends only on comparison completions and clears. */
  lemma {:induction false} ComparisonSlotIndependent(s: Store, events: seq<Event>)
    ensures Run(s, events).comparison == Run(s, ComparisonEvents(events)).comparison
    decreases |events|
  {
    if events != [] {
      var e, rest := events[0], events[1..];
      ComparisonSlotIndependent(Step(s, e), rest);
      if e.MainFetched? {
        assert ComparisonEvents(events) == ComparisonEvents(rest);
        RunOnlyComparisonEvents(Step(s, e), s, ComparisonEvents(rest));
      } else {
        assert ComparisonEvents(events) == [e] + ComparisonEvents(rest);
        assert ([e] + ComparisonEvents(rest))[1..] == ComparisonEvents(rest);
      }
    }
  }

  /** The `<tbody>` of the data table, as the rows it holds. */
  class Table {
    var rows: seq<Row>

    constructor ()
      ensures rows == []
    {
      rows := [];
    }

    /** `updateDataTable(data)`: clear the body, then append one row per item. */
    method Update(data: seq<Observation>)
      modifies this
      ensures |rows| == |data|
      ensures forall i :: 0 <= i < |data| ==> rows[i] == RowFor(data[i])
    {
      rows := [];
      var i := 0;
      while i < |data|
        invariant 0 <= i <= |data|
        invariant |rows| == i
        invariant forall k :: 0 <= k < i ==> rows[k] == RowFor(data[k])
      {
        rows := rows + [RowFor(data[i])];
        i := i + 1;
      }
    }
  }

  /** The page: both slots, the chart handle and the table. */
  class Page {
    var main: Option<Series>
    var comparison: Option<Series>
    const display: ChartDisplay
    const table: Table

    ghost function Slots(): Store
      reads this
    {
      Store(main, comparison)
    }

    ghost predicate Valid()
      reads this, display, display.charts
    {
      display.Valid()
    }

    /** The page as loaded: both slots empty, no chart, an empty table. */
    constructor ()
      ensures Valid() && main == None && comparison == None
      ensures fresh(display) && display.handle == null && display.charts == {}
      ensures fresh(table) && table.rows == []
    {
      main := None;
      comparison := None;
      display := new ChartDisplay();
      table := new Table();
    }

    /** `updateChartDisplay()` reading the current slots. */
    method Redraw()
      requires Valid()
      modifies display, display.handle
      ensures Valid()
      ensures fresh(display.handle) && display.handle.config == ConfigFor(main, comparison)
      ensures display.charts == old(display.charts) + {display.handle}
      ensures old(display.handle) != null ==> !old(display.handle).live
      ensures forall c :: c in display.charts ==> (c.live <==> c == display.handle)
      ensures display.destroyed == old(display.destroyed) + (if old(display.handle) != null then 1 else 0)
    {
      display.Update(main, comparison);
    }

    /**
     * `processData(data, countryCode)`: store the main series, redraw, fill the table.
     * `ok` is false when `data[0]` throws, in which case nothing has changed.
     */
    method ProcessData(data: seq<Observation>, countryCode: string) returns (ok: bool)
      requires Valid()
      modifies this, display, display.handle, table
      ensures Valid() && comparison == old(comparison)
      ensures ok <==> data != []
      ensures ok ==>
                && main == Some(Normalize(data, countryCode).value)
                && fresh(display.handle) && display.handle.config == ConfigFor(main, comparison)
                && display.charts == old(display.charts) + {display.handle}
                && (old(display.handle) != null ==> !old(display.handle).live)
                && table.rows == seq(|Filtered(data)|, i requires 0 <= i < |Filtered(data)| => RowFor(Filtered(data)[i]))
      ensures !ok ==> main == old(main) && unchanged(display) && table.rows == old(table.rows)
    {
      var r := Normalize(data, countryCode);
      if r.Failure? {
        return false;
      }
      main := Some(r.value);
      Redraw();
      table.Update(Filtered(data));
      ok := true;
    }

    /** The success handler of `fetchData`. */
    method OnMainFetched(payload: Option<seq<Observation>>, countryCode: string)
      requires Valid()
      modifies this, display, display.handle, table
      ensures Valid()
      ensures Slots() == Step(old(Slots()), MainFetched(payload, countryCode))
      ensures Redraws(MainFetched(payload, countryCode)) ==>
                && fresh(display.handle) && display.handle.config == ConfigFor(main, comparison)
                && display.charts == old(display.charts) + {display.handle}
                && (old(display.handle) != null ==> !old(display.handle).live)
                && table.rows == seq(|Filtered(payload.value)|, i requires 0 <= i < |Filtered(payload.value)| =>
                                       RowFor(Filtered(payload.value)[i]))
      ensures !Redraws(MainFetched(payload, countryCode)) ==> unchanged(display) && table.rows == old(table.rows)
    {
      if payload.Some? {
        var _ := ProcessData(payload.value, countryCode);
      }
    }

    /** The success handler of `fetchComparisonData`. */
    method OnComparisonFetched(payload: Option<seq<Observation>>, countryCode: string)
      requires Valid()
      modifies this, display, display.handle
      ensures Valid()
      ensures Slots() == Step(old(Slots()), ComparisonFetched(payload, countryCode))
      ensures Redraws(ComparisonFetched(payload, countryCode)) ==>
                && fresh(display.handle) && display.handle.config == ConfigFor(main, comparison)
                && display.charts == old(display.charts) + {display.handle}
                && (old(display.handle) != null ==> !old(display.handle).live)
      ensures !Redraws(ComparisonFetched(payload, countryCode)) ==> unchanged(display)
    {
      if payload.Some? {
        var r := Normalize(payload.value, countryCode);
        if r.Success? {
          comparison := Some(r.value);
          Redraw();
        }
      }
    }

    /**
     * `updateChart()`: starts the main fetch and, unless "none" is selected, the
     * comparison fetch; with "none" it clears the comparison slot and redraws at once.
     */
    method UpdateChart(controls: Controls, currentYear: int) returns (requests: seq<FetchRequest>)
      requires Valid()
      modifies this, display, display.handle
      ensures Valid() && main == old(main)
      ensures var plan := PlanFetches(controls, currentYear);
              requests == [plan.0] + (if plan.1.Some? then [plan.1.value] else [])
      ensures controls.compare == NoComparison ==>
                && Slots() == Step(old(Slots()), ComparisonCleared)
                && fresh(display.handle) && display.handle.config == ConfigFor(main, None)
                && display.charts == old(display.charts) + {display.handle}
                && (old(display.handle) != null ==> !old(display.handle).live)
      ensures controls.compare != NoComparison ==> comparison == old(comparison) && unchanged(display)
    {
      var plan := PlanFetches(controls, currentYear);
      requests := [plan.0];
      if controls.compare != NoComparison {
        requests := requests + [plan.1.value];
      } else {
        comparison := None;
        Redraw();
      }
    }
  }
}
