/**
 * The chart picker of src/components/ChartPicker.js: joining the measurement
 * rows of one metric onto copies of the selected runs, appending the new
 * chart, and the metric list toggle.
 */
module ChartPickerComponent {
  import opened Util
  import opened Runs
  import opened ChartGrouping
  import opened ChartComponent

  /** One row of the measurement response for a metric: `{name, timestamp, value, step}`. */
  datatype Row = Row(name: string, timestamp: int, value: real, step: int)

  /** The points of the rows that name `name`, in response order. */
  function Matching(rows: seq<Row>, name: string): seq<Point> {
    if rows == [] then []
    else
      var last := rows[|rows| - 1];
      Matching(rows[..|rows| - 1], name)
        + (if last.name == name then [Point(last.timestamp, last.value, last.step)] else [])
  }

  /** The names the rows carry, in response order. */
  function RowNames(rows: seq<Row>): (names: seq<string>)
    ensures |names| == |rows|
    ensures forall i :: 0 <= i < |rows| ==> names[i] == rows[i].name
  {
    if rows == [] then [] else RowNames(rows[..|rows| - 1]) + [rows[|rows| - 1].name]
  }

  /**
   * A run after the join: unchanged when no row names it, otherwise its
   * earlier points (none when `data` was undefined) followed by the points
   * of the rows that name it.
   */
  function Joined(run: Run, rows: seq<Row>): (joined: Run)
    ensures joined.(data := run.data) == run
    ensures run.data.Some? ==> joined.data.Some? && run.data.value <= joined.data.value
  {
    var matching := Matching(rows, run.name);
    if matching == [] then run
    else run.(data := Some((if run.data.Some? then run.data.value else []) + matching))
  }

  function JoinedAll(selected: seq<Run>, rows: seq<Row>): (runs: seq<Run>)
    ensures |runs| == |selected|
  {
    seq(|selected|, j requires 0 <= j < |selected| => Joined(selected[j], rows))
  }

  /** The effect of one more row on a run: a point appended when the names agree. */
  lemma JoinedStep(run: Run, rows: seq<Row>, row: Row)
    ensures var before := Joined(run, rows);
      Joined(run, rows + [row]) ==
        if row.name == run.name then
          before.(data := Some((if before.data.Some? then before.data.value else [])
                               + [Point(row.timestamp, row.value, row.step)]))
        else before
  {
    assert (rows + [row])[..|rows|] == rows;
    var m := Matching(rows, run.name);
    var earlier: seq<Point> := if run.data.Some? then run.data.value else [];
    var before := Joined(run, rows);
    if row.name == run.name {
      var p := Point(row.timestamp, row.value, row.step);
      assert Matching(rows + [row], run.name) == m + [p];
      var after := Joined(run, rows + [row]);
      assert after == run.(data := Some(earlier + (m + [p])));
      if m == [] {
        assert before == run;
        assert earlier + (m + [p]) == earlier + [p];
      } else {
        assert before.data == Some(earlier + m);
        assert earlier + (m + [p]) == (earlier + m) + [p];
      }
    } else {
      assert Matching(rows + [row], run.name) == m;
    }
  }

  /**
   * `fetchChart`'s join: on a structured clone of the selected runs, for
   * each row and each run of the same name, create the `data` list if it is
   * undefined and push the row's point.
   */
  method JoinRows(selected: seq<Run>, rows: seq<Row>) returns (chartRuns: seq<Run>)
    ensures chartRuns == JoinedAll(selected, rows)
  {
    var runs := new Run[|selected|](j requires 0 <= j < |selected| => selected[j]);
    var i := 0;
    while i < |rows|
      invariant 0 <= i <= |rows|
      invariant forall k :: 0 <= k < runs.Length ==> runs[k] == Joined(selected[k], rows[..i])
    {
      var row := rows[i];
      TakeSnoc(rows, i);
      var j := 0;
      while j < runs.Length
        invariant 0 <= j <= runs.Length
        invariant forall k :: 0 <= k < j ==> runs[k] == Joined(selected[k], rows[..i + 1])
        invariant forall k :: j <= k < runs.Length ==> runs[k] == Joined(selected[k], rows[..i])
      {
        JoinedStep(selected[j], rows[..i], row);
        var run := runs[j];
        if run.name == row.name {
          if run.data.None? {
            run := run.(data := Some([]));
          }
          run := run.(data := Some(run.data.value + [Point(row.timestamp, row.value, row.step)]));
          runs[j] := run;
        }
        j := j + 1;
      }
      i := i + 1;
    }
    assert rows[..i] == rows;
    chartRuns := runs[..];
  }

  /** Points keep the order of the response. */
  lemma {:induction false} MatchingConcat(a: seq<Row>, b: seq<Row>, name: string)
    ensures Matching(a + b, name) == Matching(a, name) + Matching(b, name)
  {
    if b == [] {
      assert a + b == a;
    } else {
      MatchingConcat(a, b[..|b| - 1], name);
      assert (a + b)[..|a + b| - 1] == a + b[..|b| - 1];
    }
  }

  /**
   * Joining a response in two parts, one after the other, gives the same
   * run as joining it at once: only the order of the rows matters.
   */
  lemma JoinedConcat(run: Run, a: seq<Row>, b: seq<Row>)
    ensures Joined(Joined(run, a), b) == Joined(run, a + b)
  {
    MatchingConcat(a, b, run.name);
    var ma, mb := Matching(a, run.name), Matching(b, run.name);
    var earlier: seq<Point> := if run.data.Some? then run.data.value else [];
    if ma != [] && mb != [] {
      assert earlier + ma + mb == earlier + (ma + mb);
    } else if ma == [] {
      assert ma + mb == mb;
    } else {
      assert ma + mb == ma;
    }
  }

  /** A run receives one point per row that names it. */
  lemma {:induction false} MatchingCount(rows: seq<Row>, name: string)
    ensures |Matching(rows, name)| == multiset(RowNames(rows))[name]
  {
    if rows != [] {
      var init := rows[..|rows| - 1];
      MatchingCount(init, name);
    }
  }

  /**
   * The join changes nothing but `data`; a run that had no data ends up
   * with data exactly when some row names it, and then with one point per
   * such row, so never with an empty list.
   */
  lemma JoinedRunProperties(run: Run, rows: seq<Row>)
    ensures Joined(run, rows).(data := run.data) == run
    ensures run.data.None? ==>
      (Joined(run, rows).data.Some? <==> run.name in RowNames(rows))
    ensures run.data.None? && Joined(run, rows).data.Some? ==>
      |Joined(run, rows).data.value| == multiset(RowNames(rows))[run.name] >= 1
  {
    MatchingCount(rows, run.name);
  }

  /**
   * Runs selected without data always chart: after the join every run with
   * data has at least one point, so no series is empty whatever the
   * settings.
   */
  lemma JoinedRunsChart(selected: seq<Run>, rows: seq<Row>, smoothing: int,
                        shownRuns: seq<string>, hiddenSeries: seq<string>)
    requires forall r :: r in selected ==> r.data.None?
    ensures Generated(JoinedAll(selected, rows), smoothing, shownRuns, hiddenSeries).Some?
  {
    var runs := JoinedAll(selected, rows);
    forall r | r in runs && r.data.Some? ensures |r.data.value| > 0 {
      var j :| 0 <= j < |runs| && runs[j] == r;
      assert selected[j] in selected;
      JoinedRunProperties(selected[j], rows);
    }
    GeneratedWhenPointsPresent(runs, smoothing, shownRuns, hiddenSeries);
  }

  /** The picker's state: the metrics on offer, whether their list is open, and the charts shown. */
  class ChartPicker {
    var availableMetrics: seq<string>
    var showMetrics: bool
    var charts: seq<ChartData>

    constructor()
      ensures availableMetrics == [] && !showMetrics && charts == []
    {
      availableMetrics := [];
      showMetrics := false;
      charts := [];
    }

    /** `fetchMetrics` once the response `metrics` has arrived. */
    method ReceiveMetrics(metrics: seq<string>)
      modifies this
      ensures availableMetrics == metrics
      ensures showMetrics == old(showMetrics) && charts == old(charts)
    {
      availableMetrics := metrics;
    }

    /** `toggleMetrics`: open or close the metric list. */
    method ToggleMetrics()
      modifies this
      ensures showMetrics == !old(showMetrics)
      ensures availableMetrics == old(availableMetrics) && charts == old(charts)
    {
      showMetrics := !showMetrics;
    }

    /**
     * `fetchChart` once the rows for `metric` have arrived: append a chart
     * over the joined copies of the selected runs and close the metric list.
     * The selected runs themselves are not changed.
     */
    method FetchChart(metric: string, selectedRuns: seq<Run>, rows: seq<Row>, chartId: string)
      modifies this
      ensures charts == old(charts) + [ChartData(chartId, JoinedAll(selectedRuns, rows), metric, None)]
      ensures !showMetrics && availableMetrics == old(availableMetrics)
    {
      var chartRuns := JoinRows(selectedRuns, rows);
      charts := charts + [ChartData(chartId, chartRuns, metric, None)];
      showMetrics := false;
    }
  }
}
