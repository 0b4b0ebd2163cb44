/**
 * The records the chart is built from. A run comes from the selection made
 * elsewhere in the application; its `data` is undefined until measurements
 * for the chart's metric have been joined onto it.
 */
module Runs {
  import opened Util

  /** One measurement of a run: `{timestamp, value, step}`. Timestamps are epoch milliseconds. */
  datatype Point = Point(timestamp: int, value: real, step: int)

  /**
   * A run record. `letter` is nullable; `data` is `None` while the run has
   * no measurements (the JavaScript field is undefined).
   */
  datatype Run = Run(
    name: string,
    workload: string,
    letter: Option<string>,
    experimentName: string,
    model: string,
    source: string,
    params: string,
    data: Option<seq<Point>>)

  /** One chart point `[x, y]` as handed to the charting library. */
  datatype XY = XY(x: int, y: real)

  /** The run's metadata as kept for tooltips: a copy with `data` deleted. */
  function Stripped(run: Run): (m: Run)
    ensures m.data == None
    ensures m.(data := run.data) == run
  {
    run.(data := None)
  }

  /** The run's measurements as `[timestamp, value]` chart points, in stored order. */
  function Points(run: Run): (pts: seq<XY>)
    requires run.data.Some?
    ensures |pts| == |run.data.value|
  {
    seq(|run.data.value|, i requires 0 <= i < |run.data.value| =>
      XY(run.data.value[i].timestamp, run.data.value[i].value))
  }
}
