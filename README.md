# gpu-viz charts, modelled in Dafny

This project models the chart logic of the gpu-viz front end.

The chart picker (`src/components/ChartPicker.js`) joins the measurement rows of one metric onto copies of the selected runs. It then appends a new chart over them.

The chart component (`src/components/Chart.js`) turns a chart's runs into series for the charting library, in five steps:

- Every run with data gets a series key. The key is derived from its workload, its letter and its name, unless its workload is grouped.
- Runs that share a key are merged into one series, in order of first appearance.
- Each series is sorted by timestamp, rebased to elapsed time, named and hidden as requested. With a positive smoothing it is also smoothed with a rounded exponential moving average.
- The chart is titled after its experiment(s).
- The new series and settings are published.

Around this sit the controls that regenerate the chart: the smoothing slider, the per-workload run toggles and legend clicks. There is also the monochrome switch, the elapsed-time labels and the tooltip text.

Modules:

- `Util` (util.dfy): the JavaScript library behaviour the code relies on. This covers insertion-ordered `Set`s (`Dedup`, `SetAdd`), `indexOf`, `substring` with its clamping, and the decimal text of integers.
- `Runs` (runs.dfy): run records, measurement points and chart points.
- `ChartGrouping` (grouping.dfy): the series key and the grouping loop of `generateSeries`. The loop is imperative (`GroupRuns`, `AddRun`). It is proved against a specification that is defined by recursion over the runs (`Grouped`, `ActiveKeys`, `MergedPoints`, `MergedRuns`, `ActiveExperiments`).
- `ChartPoints` (points.dfy): the stable sort by timestamp, rebasing, `toFixed(4)` rounding and `calcEMA`.
- `ChartComponent` (chart.dfy): the rest of the pipeline. `Generated` is the specification of one `generateSeries` call. The `Chart` class holds the component state, and its methods stand for the component's handlers.
- `ChartFormat` (format.dfy): `milliToMinsSecs` and `formatTooltip`.
- `ChartPickerComponent` (picker.dfy): the `ChartPicker` class and the `fetchChart` join.

Three behaviours of the code are easy to misread. The model follows the code as written:

- A workload without a dash counts as ungrouped when it is literally `null`. In that case, and when the letter is null, the "prefix" is the empty string: `substring(0, -1)` clamps to `""`. So the key is `" (" + first five characters of the name + ")"`.
- A series with no points makes `series.data[0][0]` throw. `generateSeries` then never reaches its `setState`, so the model returns failure and leaves the state unchanged.
- The monochrome switch counts `(length - 1) / 2` of the library's series. This is honoured exactly when that length is at most 11.

## Model

| member | source | states |
|---|---|---|
| Util.DedupMembership | src/components/Chart.js:240-246 | An element is in the insertion-ordered set exactly when it was added at least once. |
| Util.DedupNoDup | src/components/Chart.js:206-215 | A `Set` spread into an array lists no element twice. |
| Util.DedupSnoc | src/components/Chart.js:246 | Adding elements one by one with `Set.add` gives the distinct list of the added elements. |
| Util.DedupCount | src/components/Chart.js:338-342 | `Set.size` equals the number of distinct elements added. |
| Util.DedupFirstAppearance | src/components/Chart.js:267-286 | Distinct elements come out in order of first appearance. |
| Util.SetAdd | src/components/Chart.js:211-214 | `Set.add` leaves a set that already has the element unchanged. Otherwise it appends the element at the end. |
| Util.IndexOf | src/components/Chart.js:250 | `indexOf` is -1 exactly when the element is absent. Otherwise it is the position of its first occurrence. |
| Util.Substring | src/components/Chart.js:250-253 | `substring` within bounds is the slice. With both bounds at most 0 it is empty. It is never longer than its string. |
| Util.ParseNatToString | src/components/Chart.js:614 | The decimal text of a number reads back as that number. |
| Util.Pad2Value | src/components/Chart.js:614 | The two-digit, zero-padded text of a number below 100 reads back as that number. |
| Runs.Stripped | src/components/Chart.js:278-281 | The metadata copy has no data and otherwise equals the run. |
| Runs.Points | src/components/Chart.js:283-285 | A run contributes one `[timestamp, value]` point per measurement. |
| ChartGrouping.SeriesKey | src/components/Chart.js:249-263 | A grouped run keys on its workload. An ungrouped run with a letter keys on a text beginning with the workload, a space and the letter. |
| ChartGrouping.ShortName | src/components/Chart.js:253 | `name.substring(0, 5)` is the whole name when it is at most 5 long, and otherwise its first five characters. |
| ChartGrouping.SplitWorkload | src/components/Chart.js:250-252 | For a workload `p-s` with no dash in `p`, the prefix is `p` and the suffix is `s`. |
| ChartGrouping.NoDashWorkload | src/components/Chart.js:250-252 | Without a dash, the suffix is the whole workload and the prefix is empty. |
| ChartGrouping.KeyOfSplitWorkload | src/components/Chart.js:249-263 | A run of workload `p-s` keys on the workload unless `s` is "null" or the workload is expanded. Otherwise it keys on `p (name5)` when the letter is null, `workload letter` when the letter is longer than one character, and `workload letter (name5)` when it is one character. |
| ChartGrouping.KeyOfUndashedWorkload | src/components/Chart.js:249-263 | A workload without a dash keys on itself unless it is "null" or expanded. The null-letter key then has an empty prefix. |
| ChartGrouping.GroupRuns | src/components/Chart.js:240-299 | The `forEach` loop yields the grouped series of all runs and the distinct experiment names of the runs with data. Both are free of duplicates. |
| ChartGrouping.AddRun | src/components/Chart.js:242-298 | One loop step turns the grouping of the runs so far into the grouping with one more run. |
| ChartGrouping.GroupStep | src/components/Chart.js:267-297 | A run without data changes nothing. A run with data starts a new series at the end when no series has its key. Otherwise it appends its points and metadata to the series found by `findIndex`. |
| ChartGrouping.GroupStepNewKey | src/components/Chart.js:268-286 | A new key appends a series with the run's points and its data-less metadata, and keeps the earlier series. |
| ChartGrouping.GroupStepKnownKey | src/components/Chart.js:288-297 | A known key extends only the series with that key, by the run's points and metadata. |
| ChartGrouping.GroupStepWithoutData | src/components/Chart.js:243 | A run whose data is undefined leaves the series unchanged. |
| ChartGrouping.ExperimentsStep | src/components/Chart.js:243-246 | Only runs with data add their experiment name to the title set. |
| ChartGrouping.GroupedIdsUnique | src/components/Chart.js:267-286 | There is one series per distinct key of the runs with data, and no key appears twice. |
| ChartGrouping.GroupedRunsNonEmpty | src/components/Chart.js:278-296 | Every series lists at least one run's metadata, and none of it carries data. |
| ChartGrouping.GroupedPointsNonEmpty | src/components/Chart.js:283-291 | When every run with data has at least one point, every series has at least one point. |
| ChartGrouping.RunsWithoutDataIgnored | src/components/Chart.js:243 | Dropping all runs without data changes neither the series nor the experiment names. |
| ChartGrouping.SingleRun | src/components/Chart.js:268-286 | A single run with data makes one series under its key, with its points and metadata. |
| ChartGrouping.SameKeyMerges | src/components/Chart.js:288-297 | Two runs with data and the same key make one series holding both runs' points and metadata, in order. |
| ChartGrouping.SameWorkloadMerges | src/components/Chart.js:249-297 | Two runs of the same grouped workload make a single series named after the workload. |
| ChartPoints.SortByXSorted | src/components/Chart.js:302-304 | The sort orders points by timestamp and is a permutation. |
| ChartPoints.SortByXStable | src/components/Chart.js:302-304 | The sort is stable: points with equal timestamps keep their relative order. |
| ChartPoints.SortByXValues | src/components/Chart.js:302-304 | Sorting keeps the multiset of values. |
| ChartPoints.SortPoints | src/components/Chart.js:302-304 | The sort pass yields the points ordered by timestamp. The result is a permutation, and it is stable. |
| ChartPoints.RebasedSorted | src/components/Chart.js:307-311 | Rebasing sorted points subtracts the earliest time. The result starts at 0, stays sorted and non-negative, and keeps the values. |
| ChartPoints.RebasePoints | src/components/Chart.js:307-311 | Each rebased time plus the earliest time is the original time, and each value is unchanged. |
| ChartPoints.Round4Close | src/components/Chart.js:636 | `toFixed(4) * 1` moves a value by at most half a unit in the fourth decimal. |
| ChartPoints.Round4Monotone | src/components/Chart.js:636 | Rounding to four decimals preserves order. |
| ChartPoints.EmaValuesRecurrence | src/components/Chart.js:634-637 | Each smoothed value is the rounded blend of the current value and the previous smoothed value, weighted by `smoothing / 100`. |
| ChartPoints.EmaCharacterization | src/components/Chart.js:621-647 | The smoothed series keeps every timestamp and the first value, and follows the recurrence from the second point on. |
| ChartPoints.SmoothValues | src/components/Chart.js:631-637 | The smoothing loop computes the recurrence over all values. |
| ChartPoints.CalcEMA | src/components/Chart.js:621-647 | `calcEMA` returns the smoothed values zipped with the original timestamps. |
| ChartPoints.EmaConstant | src/components/Chart.js:634-637 | Smoothing a constant four-decimal series leaves it unchanged. |
| ChartPoints.EmaWithinBounds | src/components/Chart.js:634-637 | With smoothing between 0 and 100, smoothed values stay within any four-decimal bounds of the input values. |
| ChartComponent.ChartTitle | src/components/Chart.js:336-343 | For exactly one experiment the title is that experiment. Otherwise it begins with "Multiple Experiments (". |
| ChartComponent.Generated | src/components/Chart.js:232-343 | A generated view has one series per group of runs. |
| ChartComponent.Toggled | src/components/Chart.js:384-425 | Switching on makes the item present and grows the list by one exactly when it was absent. Switching off shrinks it by one exactly when the item was present. |
| ChartComponent.TitleOfRuns | src/components/Chart.js:336-343 | The title is the experiment's name when all runs with data share one. Otherwise it is "Multiple Experiments (n)" for the n distinct experiments. |
| ChartComponent.GeneratedWhenPointsPresent | src/components/Chart.js:307-308 | Generation fails exactly when some series has no points. It never fails when every run with data has points. |
| ChartComponent.GeneratedSeriesIdentity | src/components/Chart.js:314-326 | Series are named after the distinct keys, with no name twice. Each carries data-less metadata of at least one run, and is visible exactly when its name is not hidden. |
| ChartComponent.GeneratedSeriesTimeline | src/components/Chart.js:302-311 | Each series has as many points as its runs supplied. The points are in time order, start at elapsed time 0 and are never negative. |
| ChartComponent.GeneratedSeriesValues | src/components/Chart.js:302-334 | Without smoothing, a series shows exactly its runs' values, rearranged. With smoothing up to 100, every value stays within any four-decimal bounds of the supplied values. |
| ChartComponent.HiddenOnlyAffectsVisibility | src/components/Chart.js:319-326 | Changing the hidden list changes only the series' `visible` flags. |
| ChartComponent.ToggledEffect | src/components/Chart.js:384-425 | Toggling on makes the item present. Toggling off a duplicate-free list makes it absent. Other items keep their presence and order, and a duplicate-free list stays duplicate-free. |
| ChartComponent.ToggledRoundTrip | src/components/Chart.js:384-399 | Switching an absent item on and then off restores a duplicate-free list. |
| ChartComponent.ToggledOffThenOn | src/components/Chart.js:384-425 | Switching a present item off and then on, in a duplicate-free list, moves it to the end and keeps the other items in order. |
| ChartComponent.ToggledOffDuplicate | src/components/Chart.js:416-420 | Switching off an item listed several times removes one copy only, so it stays listed. |
| ChartComponent.NonUniqueWorkloadsCharacterization | src/components/Chart.js:176-178 | A workload is offered for run toggles exactly when at least two runs share it, and it is offered once. |
| ChartComponent.IsVisible | src/components/Chart.js:319-325 | A series is visible exactly when its name is not in the hidden list. |
| ChartComponent.SortEach | src/components/Chart.js:302-304 | Every series' points are sorted, and nothing else changes. |
| ChartComponent.RebaseEach | src/components/Chart.js:307-327 | Succeeds exactly when every series has points. Then each series is rebased, named and given its visibility. |
| ChartComponent.SmoothEach | src/components/Chart.js:329-334 | Every series' points are replaced by their smoothed version. |
| ChartComponent.FinishAll | src/components/Chart.js:302-334 | The passes after grouping produce the specified finished series, or fail exactly when a series is empty. |
| ChartComponent.GenerateView | src/components/Chart.js:232-343 | The computation of `generateSeries` equals its specification `Generated`. |
| ChartComponent.Chart.constructor | src/components/Chart.js:159-168 | The initial state is loading, with nothing shown, all lists empty, no smoothing, and both switches off. |
| ChartComponent.Chart.GenerateSeries | src/components/Chart.js:232-376 | On success, the chart shows the generated title and series, its id, runs and metric, and the new settings, with loading finished; other fields are kept. On failure, nothing changes. |
| ChartComponent.Chart.Show | src/components/Chart.js:348-374 | The final `setState` publishes the view and settings and leaves the other fields alone. |
| ChartComponent.Chart.Mount | src/components/Chart.js:173-189 | The offered workloads are those shared by several runs. The chart is generated with the saved context, or with no smoothing and empty lists. |
| ChartComponent.Chart.ApplySmoothness | src/components/Chart.js:378-382 | The same smoothing changes nothing. A new one regenerates with the other settings kept. |
| ChartComponent.Chart.ToggleShownRuns | src/components/Chart.js:384-399 | Regenerates with the workload added to, or removed from, the expanded list. |
| ChartComponent.Chart.ToggleSeriesVisibility | src/components/Chart.js:401-425 | A click on a visible series hides it, and a click on a hidden one shows it again, by regenerating with the toggled hidden list. |
| ChartComponent.Chart.HandleMonochromeModeSwitch | src/components/Chart.js:469-491 | The user is alerted exactly when there are more than five series (library length above 11). The mode becomes the request unless alerted, and is forced off when alerted. |
| ChartComponent.LegendClickFlipsOneSeries | src/components/Chart.js:401-425 | After a legend click, only the clicked series flips its visibility. The title and all other series stay as they were. |
| ChartComponent.LegendClickOnDuplicateHidden | src/components/Chart.js:401-425 | When a saved hidden list names a series twice or more, a click on that hidden series leaves it hidden. |
| ChartFormat.ClockFields | src/components/Chart.js:610-620 | The clock text is `HH:MM:SS`, with hours below 24 and minutes and seconds below 60. Read back, it gives the time of day up to the dropped milliseconds. |
| ChartFormat.MilliToMinsSecs | src/components/Chart.js:610-620 | The label always ends in the eight-character clock text. Below a whole day (and before the epoch) it is the clock text alone. |
| ChartFormat.MilliToMinsSecsDays | src/components/Chart.js:610-620 | From one day on, the label is `<days>d ` followed by the clock text, and the days read back as the whole days elapsed. |
| ChartFormat.FormatTooltip | src/components/Chart.js:198-230 | The tooltip shows the series name, the value and the elapsed-time label. When the detailed tooltip is on, it also shows the insertion-ordered distinct metadata of the series' runs. |
| ChartFormat.ColumnStep | src/components/Chart.js:210-215 | Adding one run's metadata to a field's `Set` appends the value exactly when it is new. |
| ChartFormat.ColumnListed | src/components/Chart.js:206-215 | The distinct values of any metadata field are exactly the values the runs carry, each listed once. |
| ChartFormat.DetailBlocksProperties | src/components/Chart.js:206-226 | Each metadata block lists every value of its field exactly once. The letters block appears exactly when the series merges several runs. |
| ChartPickerComponent.Joined | src/components/ChartPicker.js:35-45 | The join changes only a run's `data`, and keeps its earlier points as a prefix. |
| ChartPickerComponent.JoinedConcat | src/components/ChartPicker.js:34-47 | Joining the rows in two parts, one after the other, gives the same run as joining them at once. |
| ChartPickerComponent.JoinRows | src/components/ChartPicker.js:32-47 | The nested `forEach` join yields, for every selected run, its points followed by the points of the rows naming it. |
| ChartPickerComponent.MatchingCount | src/components/ChartPicker.js:34-46 | A run receives one point per row that names it. |
| ChartPickerComponent.JoinedRunProperties | src/components/ChartPicker.js:36-44 | The join changes only `data`. A run without data gets data exactly when some row names it, with one point per such row. |
| ChartPickerComponent.JoinedRunsChart | src/components/ChartPicker.js:32-47 | When no selected run had data, the joined runs always generate a chart. |
| ChartPickerComponent.ChartPicker.constructor | src/components/ChartPicker.js:8-15 | No metrics, the list closed, no charts. |
| ChartPickerComponent.ChartPicker.ReceiveMetrics | src/components/ChartPicker.js:18-22 | The metrics on offer become the response, and nothing else changes. |
| ChartPickerComponent.ChartPicker.ToggleMetrics | src/components/ChartPicker.js:25-28 | The metric list opens or closes, and nothing else changes. |
| ChartPickerComponent.ChartPicker.FetchChart | src/components/ChartPicker.js:31-60 | One chart over the joined copies of the selected runs is appended, and the metric list is closed. |

## Left out

- Rendering: the React tree, the Highcharts options, and the callbacks that only configure the library (axes, navigator, boost, export, extremes) are not modelled. This also covers `handleBoostSwitch`, `handleDetailedTooltipSwitch` and `setExtremes`.
- Network and asynchrony: `HTTP.fetchMetrics` and `HTTP.fetchChart` become parameters (the metric list, the rows), and `await` is not modelled. `src/api` is not part of this model.
- `Date.now().toString()`: the new chart's id is a parameter of `ChartPicker.FetchChart`.
- `structuredClone` and the in-place mutations (`push`, `sort`, the rebase loop, `splice`): these are modelled on values, so aliasing between the clone and the props is not captured. The clone is what makes the value semantics faithful.
- `ChartPoints.SortPoints`: the sort is an insertion sort on a sequence, not `Array.prototype.sort` in place. Only stability and ordering, as the language requires of `sort`, are stated.
- `ChartPoints.Round4`: this is exact rounding of a real number, halves away from zero. IEEE-754 doubles and the binary rounding of `toFixed` are not modelled, and neither is floating-point arithmetic in the blend.
- `ChartFormat.MilliToMinsSecs`: limited to instants whose ISO text has a four-digit year. Beyond that, `toISOString` uses six-digit years or throws a RangeError, and the slice changes.
- `ChartPoints.CalcEMA`: requires a non-empty series. `generateSeries` only calls it after an empty series has already thrown, so that precondition is never violated.
- `ChartComponent.Chart.ApplySmoothness`: the slider delivers its value as a string, so the first `!==` comparison with the numeric state is always true. The model takes the smoothing as an integer. A regeneration with unchanged settings leaves the same state either way.
- `ChartComponent.Chart.HandleMonochromeModeSwitch`: the library's series count (`chart.series.length`) is a parameter. The `alert` becomes the returned flag.
- `componentDidUpdate` / `pullChartExtras` (passing the settings up for download) and the download and upload of saved settings are not modelled.
- `ChartGrouping.SeriesKey` and `ChartGrouping.ShortName`: strings are sequences of Unicode characters, while JavaScript's `.length` and `substring(0, 5)` count UTF-16 code units. A letter that is a single character outside the Basic Multilingual Plane has length 2 in JavaScript and keys as `workload letter`, but the model gives it the `(name5)` suffix. A run name with such a character among its first five code units gets a different prefix.
- `ChartComponent.LegendClickFlipsOneSeries`: stated for a hidden list without duplicates. A saved context may list a name twice; a click then removes one copy only and the series stays hidden, as `ChartComponent.LegendClickOnDuplicateHidden` states.
- A `letter` that is `undefined` rather than `null` would throw on `.length`. Letters are modelled as either null or a string.
- The HTML markup of the tooltip and `console.log` are not modelled. The tooltip is a record of its parts.
