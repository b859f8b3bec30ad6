/**
 * src/js/chart.js: the chart configuration `updateChartDisplay` builds from the two
 * series slots, and the module-level `economicChart` handle that is destroyed before a
 * new chart is created.
 */
module ChartView {
  import opened Wrappers
  import opened Series

  /** One entry of `datasets`, with the styling fields the source sets. */
  datatype Dataset = Dataset(seriesLabel: string, data: seq<real>, borderColor: string,
                             backgroundColor: string, borderWidth: int, fill: bool)

  /** The `data` part of the configuration and the title text. */
  datatype ChartConfig = ChartConfig(labels: seq<int>, datasets: seq<Dataset>, title: string)

  const MainBorder: string := "#046a38"
  const MainBackground: string := "rgba(4, 106, 56, 0.1)"
  const ComparisonBorder: string := "#da291c"
  const ComparisonBackground: string := "rgba(218, 41, 28, 0.1)"
  const FallbackTitle: string := "Economic Indicator"

  function MainDataset(s: Series): Dataset {
    Dataset(s.country, s.values, MainBorder, MainBackground, 2, true)
  }

  function ComparisonDataset(s: Series): Dataset {
    Dataset(s.country, s.values, ComparisonBorder, ComparisonBackground, 2, true)
  }

  /**
   * The configuration for the slots `window.mainData` and `window.comparisonData`:
   * the main dataset first, then the comparison dataset, each only when its slot is
   * filled; x labels and title come from the main slot alone.
   */
  function ConfigFor(main: Option<Series>, comparison: Option<Series>): (c: ChartConfig)
    ensures |c.datasets| == (if main.Some? then 1 else 0) + (if comparison.Some? then 1 else 0)
    ensures main.Some? ==>
              && c.datasets[0].seriesLabel == main.value.country
              && c.datasets[0].data == main.value.values
              && c.datasets[0].borderColor == MainBorder
    ensures comparison.Some? ==> var d := c.datasets[|c.datasets| - 1];
              && d.seriesLabel == comparison.value.country
              && d.data == comparison.value.values
              && d.borderColor == ComparisonBorder
    ensures c.labels == if main.Some? then main.value.years else []
    ensures c.title == if main.Some? then main.value.indicator else FallbackTitle
  {
    var first := if main.Some? then [MainDataset(main.value)] else [];
    var second := if comparison.Some? then [ComparisonDataset(comparison.value)] else [];
    ChartConfig(if main.Some? then main.value.years else [], first + second,
                if main.Some? then main.value.indicator else FallbackTitle)
  }

  /** Axis labels and title never depend on the comparison slot. */
  lemma AxisAndTitleIgnoreComparison(main: Option<Series>, c1: Option<Series>, c2: Option<Series>)
    ensures ConfigFor(main, c1).labels == ConfigFor(main, c2).labels
    ensures ConfigFor(main, c1).title == ConfigFor(main, c2).title
  {
  }

  /** After the comparison slot is cleared, only the main series is drawn. */
  lemma ClearedComparisonDrawsMainOnly(main: Series)
    ensures ConfigFor(Some(main), None).datasets == [MainDataset(main)]
  {
  }

  /** A chart instance: its configuration and whether it is still live. */
  class Chart {
    const config: ChartConfig
    var live: bool

    /** `new Chart(ctx, config)`. */
    constructor (config: ChartConfig)
      ensures this.config == config && live
    {
      this.config := config;
      live := true;
    }

    /** `chart.destroy()`. */
    method Destroy()
      modifies this
      ensures !live
    {
      live := false;
    }
  }

  /**
   * The module-level `economicChart` variable. `charts` is every chart created through
   * it and `destroyed` counts the `destroy()` calls made; both are ghost bookkeeping.
   */
  class ChartDisplay {
    var handle: Chart?
    ghost var charts: set<Chart>
    ghost var destroyed: nat

    /** At most one live chart: the one `handle` refers to. */
    ghost predicate Valid()
      reads this, charts
    {
      && (handle != null ==> handle in charts && handle.live)
      && forall c :: c in charts && c != handle ==> !c.live
    }

    /** `let economicChart = null;` */
    constructor ()
      ensures Valid() && handle == null && charts == {} && destroyed == 0
    {
      handle := null;
      charts := {};
      destroyed := 0;
    }

    /** `updateChartDisplay()` for the given slots. */
    method Update(main: Option<Series>, comparison: Option<Series>)
      requires Valid()
      modifies this, handle
      ensures Valid()
      ensures handle != null && fresh(handle) && handle.config == ConfigFor(main, comparison)
      ensures charts == old(charts) + {handle}
      ensures forall c :: c in charts ==> (c.live <==> c == handle)
      ensures old(handle) != null ==> !old(handle).live
      ensures destroyed == old(destroyed) + (if old(handle) != null then 1 else 0)
    {
      if handle != null {
        handle.Destroy();
        destroyed := destroyed + 1;
      }
      var chart := new Chart(ConfigFor(main, comparison));
      handle := chart;
      charts := charts + {chart};
    }
  }

  /**
   * Redrawing twice with unchanged slots shows the same configuration, and the second
   * call destroys exactly the chart the first one created.
   */
  method RedrawTwice(display: ChartDisplay, main: Option<Series>, comparison: Option<Series>)
    requires display.Valid()
    modifies display, display.handle
    ensures display.Valid() && display.handle != null && display.handle.config == ConfigFor(main, comparison)
    ensures exists first: Chart :: first in display.charts && first !in old(display.charts)
              && first != display.handle && !first.live && first.config == display.handle.config
              && display.charts == old(display.charts) + {first, display.handle}
    ensures forall c :: c in display.charts ==> (c.live <==> c == display.handle)
    ensures display.destroyed == old(display.destroyed) + (if old(display.handle) != null then 1 else 0) + 1
  {
    display.Update(main, comparison);
    var first := display.handle;
    display.Update(main, comparison);
    assert first in display.charts && first !in old(display.charts) && first != display.handle;
  }
}
