/**
 * The page-level state of content/ec2-spot-pricing/local.js: the loaded dataset,
 * the filter controls, the global `seriesData` and what the chart was last given,
 * with the getSeriesData, updateChart and reset entry points.
 */
module SpotPage {
  import opened Wrappers
  import opened SpotFilter
  import opened SpotSeries

  class PricingPage {
    /** The `data` loaded from stats.json; never changed afterwards. */
    const data: seq<Row>
    /** The browser's regular-expression engine. */
    const engine: PatternEngine
    /** The tooltip formatter (string concatenation and toFixed, not modelled). */
    const formatLabel: Row -> string

    /** The current values of the filter controls. */
    var filters: Filters
    /** The global `seriesData`. */
    var seriesData: SeriesData
    /** What `setData` last gave the chart's series. */
    var chartPrice: seq<Point>
    /** What `setCategories` last gave the chart's x axis. */
    var chartCategories: seq<string>

    /** `seriesData` is `series` and the chart was last given its points and categories. */
    ghost predicate Shows(series: SeriesData)
      reads this
    {
      seriesData == series && chartPrice == series.price && chartCategories == series.categories
    }

    /**
     * The `$.getJSON` callback: the data is stored, an empty chart is created and
     * the filters are reset, which draws the first chart.
     */
    constructor Load(json: seq<Row>, engine: PatternEngine, formatLabel: Row -> string, controls: Filters)
      ensures data == json && this.engine == engine && this.formatLabel == formatLabel
      ensures filters == Defaults()
      ensures var s := Series(json, Defaults(), engine, formatLabel);
        && (s.Success? ==> Shows(s.value))
        && (s.Failure? ==> seriesData == EmptySeries && chartPrice == [] && chartCategories == [])
    {
      data := json;
      this.engine := engine;
      this.formatLabel := formatLabel;
      filters := controls;
      seriesData := EmptySeries;
      chartPrice := [];
      chartCategories := [];
      new;
      var _ := Reset();
    }

    /**
     * getSeriesData: `seriesData` is emptied first, so when the pattern is
     * malformed it stays empty and the exception is reported; otherwise it is
     * the freshly computed series.
     */
    method GetSeriesData() returns (outcome: Outcome<PatternError>)
      modifies this`seriesData
      ensures var s := Series(data, filters, engine, formatLabel);
        && (s.Success? ==> outcome == Pass && seriesData == s.value)
        && (s.Failure? ==> outcome == Fail(s.error) && seriesData == EmptySeries)
    {
      seriesData := EmptySeries;
      var r := ComputeSeries(data, filters, engine, formatLabel);
      if r.Failure? {
        return Fail(r.error);
      }
      seriesData := r.value;
      return Pass;
    }

    /**
     * updateChart: the chart is given the new series only when getSeriesData
     * completed; after an exception it keeps what it showed before.
     */
    method UpdateChart() returns (outcome: Outcome<PatternError>)
      modifies this`seriesData, this`chartPrice, this`chartCategories
      ensures var s := Series(data, filters, engine, formatLabel);
        && (s.Success? ==> outcome == Pass && Shows(s.value))
        && (s.Failure? ==> outcome == Fail(s.error) && seriesData == EmptySeries)
        && (s.Failure? ==> chartPrice == old(chartPrice) && chartCategories == old(chartCategories))
    {
      outcome := GetSeriesData();
      if outcome.Fail? {
        return;
      }
      chartPrice := seriesData.price;
      chartCategories := seriesData.categories;
    }

    /** A keyup or change event on a filter control: the control takes a new value and the chart is redrawn. */
    method FilterChanged(controls: Filters) returns (outcome: Outcome<PatternError>)
      modifies this`filters, this`seriesData, this`chartPrice, this`chartCategories
      ensures filters == controls
      ensures var s := Series(data, controls, engine, formatLabel);
        && (s.Success? ==> outcome == Pass && Shows(s.value))
        && (s.Failure? ==> outcome == Fail(s.error) && seriesData == EmptySeries)
        && (s.Failure? ==> chartPrice == old(chartPrice) && chartCategories == old(chartCategories))
    {
      filters := controls;
      outcome := UpdateChart();
    }

    /**
     * reset: every control takes its default value and the chart is redrawn.
     * What is drawn depends only on the dataset, never on the filters before.
     */
    method Reset() returns (outcome: Outcome<PatternError>)
      modifies this`filters, this`seriesData, this`chartPrice, this`chartCategories
      ensures filters == Defaults()
      ensures EmptyPatternMatchesAll(engine) ==> outcome == Pass
      ensures var s := Series(data, Defaults(), engine, formatLabel);
        && (s.Success? ==> outcome == Pass && Shows(s.value))
        && (s.Failure? ==> outcome == Fail(s.error) && seriesData == EmptySeries)
        && (s.Failure? ==> chartPrice == old(chartPrice) && chartCategories == old(chartCategories))
    {
      filters := Defaults();
      outcome := UpdateChart();
    }
  }
}
