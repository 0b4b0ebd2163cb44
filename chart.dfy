/**
 * The chart component of src/components/Chart.js: turning a chart's runs
 * into titled, sorted, rebased and optionally smoothed series, and the
 * controls that regenerate them (smoothing, per-workload run toggles,
 * legend clicks) or switch the monochrome palette.
 */
module ChartComponent {
  import opened Util
  import opened Runs
  import opened ChartGrouping
  import opened ChartPoints

  /** A finished series as handed to the charting library: `{name, data, custom: {runs}, visible}`. */
  datatype Series = Series(name: string, data: seq<XY>, runs: seq<Run>, visible: bool)

  /** What one `generateSeries` call puts on screen besides the y-axis title. */
  datatype View = View(title: string, series: seq<Series>)

  /** The saved display settings a chart can be created with. */
  datatype Context = Context(smoothing: int, shownRuns: seq<string>, hiddenSeries: seq<string>)

  /** The `chartData` prop: `{id, data, metric}` and an optional `context`. */
  datatype ChartData = ChartData(id: string, data: seq<Run>, metric: string, context: Option<Context>)

  /** The settings a chart starts with: its saved context, or no smoothing and empty lists. */
  function Settings(chart: ChartData): (ctx: Context)
    ensures chart.context.Some? ==> ctx == chart.context.value
    ensures chart.context.None? ==> ctx.smoothing == 0 && ctx.shownRuns == [] && ctx.hiddenSeries == []
  {
    if chart.context.Some? then chart.context.value else Context(0, [], [])
  }

  function Names(series: seq<Series>): (names: seq<string>)
    ensures |names| == |series|
  {
    seq(|series|, i requires 0 <= i < |series| => series[i].name)
  }

  // ---------------------------------------------------------------------
  // Title
  // ---------------------------------------------------------------------

  /** The title: the only experiment's name, or a count of the experiments. */
  function ChartTitle(experiments: seq<string>): (title: string)
    ensures |experiments| == 1 ==> title in experiments
    ensures |experiments| != 1 ==> "Multiple Experiments (" <= title
  {
    if |experiments| == 1 then experiments[0]
    else "Multiple Experiments (" + NatToString(|experiments|) + ")"
  }

  /**
   * The title names the experiment when every run with data belongs to the
   * same one, and otherwise counts the distinct experiments (zero when no
   * run has data).
   */
  lemma TitleOfRuns(runs: seq<Run>)
    ensures var names := set e | e in ActiveExperiments(runs);
      |names| == 1 ==> {ChartTitle(Dedup(ActiveExperiments(runs)))} == names
    ensures var names := set e | e in ActiveExperiments(runs);
      |names| != 1 ==>
        ChartTitle(Dedup(ActiveExperiments(runs))) == "Multiple Experiments (" + NatToString(|names|) + ")"
  {
    var active := ActiveExperiments(runs);
    var d := Dedup(active);
    DedupCount(active);
    if |d| == 1 {
      DedupMembership(active, d[0]);
      forall e | e in active ensures e == d[0] {
        DedupMembership(active, e);
      }
    }
  }

  // ---------------------------------------------------------------------
  // The series pipeline as a specification
  // ---------------------------------------------------------------------

  /** One group after sorting, rebasing, naming, hiding and optional smoothing. */
  function Finished(d: Draft, smoothing: int, hiddenSeries: seq<string>): Series
    requires |d.data| > 0
  {
    SortByXSorted(d.data);
    var rebased := Rebased(SortByX(d.data));
    Series(d.id, if smoothing > 0 then Ema(rebased, smoothing) else rebased, d.runs, d.id !in hiddenSeries)
  }

  /**
   * The outcome of `generateSeries`: `None` when a group has no points, where
   * reading `series.data[0][0]` throws before the state is updated.
   */
  function Generated(runs: seq<Run>, smoothing: int, shownRuns: seq<string>, hiddenSeries: seq<string>): (view: Option<View>)
    ensures view.Some? ==> |view.value.series| == |Grouped(runs, shownRuns)|
  {
    var drafts := Grouped(runs, shownRuns);
    if exists d :: d in drafts && |d.data| == 0 then None
    else Some(View(ChartTitle(Dedup(ActiveExperiments(runs))),
                   seq(|drafts|, i requires 0 <= i < |drafts| => Finished(drafts[i], smoothing, hiddenSeries))))
  }

  /** The chart is produced exactly when no group is empty; in particular when no run has an empty `data` list. */
  lemma GeneratedWhenPointsPresent(runs: seq<Run>, smoothing: int, shownRuns: seq<string>, hiddenSeries: seq<string>)
    ensures Generated(runs, smoothing, shownRuns, hiddenSeries).None? <==>
      exists d :: d in Grouped(runs, shownRuns) && |d.data| == 0
    ensures (forall r :: r in runs && r.data.Some? ==> |r.data.value| > 0) ==>
      Generated(runs, smoothing, shownRuns, hiddenSeries).Some?
  {
    if forall r :: r in runs && r.data.Some? ==> |r.data.value| > 0 {
      GroupedPointsNonEmpty(runs, shownRuns);
    }
  }

  /**
   * Series are named after their keys, one per distinct key and no name
   * twice; each keeps the metadata of at least one run, with no points, and
   * is visible exactly when its name is not hidden.
   */
  lemma GeneratedSeriesIdentity(runs: seq<Run>, smoothing: int, shownRuns: seq<string>, hiddenSeries: seq<string>)
    requires Generated(runs, smoothing, shownRuns, hiddenSeries).Some?
    ensures var series := Generated(runs, smoothing, shownRuns, hiddenSeries).value.series;
      NoDup(Names(series)) && forall k :: k in Names(series) <==> k in ActiveKeys(runs, shownRuns)
    ensures var series := Generated(runs, smoothing, shownRuns, hiddenSeries).value.series;
      forall i :: 0 <= i < |series| ==>
        |series[i].runs| >= 1 && (forall m :: m in series[i].runs ==> m.data.None?)
        && (series[i].visible <==> series[i].name !in hiddenSeries)
  {
    var drafts := Grouped(runs, shownRuns);
    var series := Generated(runs, smoothing, shownRuns, hiddenSeries).value.series;
    assert Names(series) == Ids(drafts);
    GroupedIdsUnique(runs, shownRuns);
    GroupedRunsNonEmpty(runs, shownRuns);
    forall i | 0 <= i < |series|
      ensures |series[i].runs| >= 1 && (forall m :: m in series[i].runs ==> m.data.None?)
    {
      assert drafts[i] in drafts;
    }
  }

  /**
   * A finished series has as many points as its group, in time order,
   * starting at elapsed time 0 and never negative.
   */
  lemma FinishedTimeline(d: Draft, smoothing: int, hiddenSeries: seq<string>)
    requires |d.data| > 0
    ensures var s := Finished(d, smoothing, hiddenSeries);
      |s.data| == |d.data| && SortedByX(s.data) && s.data[0].x == 0
      && forall j :: 0 <= j < |s.data| ==> s.data[j].x >= 0
  {
    SortByXSorted(d.data);
    var rebased := Rebased(SortByX(d.data));
    RebasedSorted(SortByX(d.data));
    if smoothing > 0 {
      var s := Finished(d, smoothing, hiddenSeries);
      EmaCharacterization(rebased, smoothing);
      assert forall a, b :: 0 <= a < b < |rebased| ==> s.data[a].x == rebased[a].x <= rebased[b].x == s.data[b].x;
    }
  }

  /**
   * Without smoothing a finished series shows exactly its group's values,
   * rearranged; with smoothing up to 100 every value stays within any
   * four-decimal bounds of the group's values.
   */
  lemma FinishedValues(d: Draft, smoothing: int, hiddenSeries: seq<string>, lo: real, hi: real)
    requires |d.data| > 0
    ensures smoothing <= 0 ==> multiset(Ys(Finished(d, smoothing, hiddenSeries).data)) == multiset(Ys(d.data))
    ensures (smoothing <= 100 && Round4(lo) == lo && Round4(hi) == hi
             && forall q :: q in d.data ==> lo <= q.y <= hi) ==>
      forall j :: 0 <= j < |Finished(d, smoothing, hiddenSeries).data| ==> lo <= Finished(d, smoothing, hiddenSeries).data[j].y <= hi
  {
    var sorted := SortByX(d.data);
    SortByXSorted(d.data);
    SortByXValues(d.data);
    var rebased := Rebased(sorted);
    assert Ys(rebased) == Ys(sorted);
    if smoothing <= 100 && Round4(lo) == lo && Round4(hi) == hi && forall q :: q in d.data ==> lo <= q.y <= hi {
      forall k | 0 <= k < |sorted| ensures lo <= rebased[k].y <= hi && Ys(rebased)[k] == rebased[k].y {
        assert sorted[k] in multiset(d.data);
        assert sorted[k] in d.data;
      }
      if smoothing > 0 {
        var w := SmoothingWeight(smoothing);
        assert 0.0 <= w <= 1.0;
        EmaWithinBounds(Ys(rebased), w, lo, hi);
        var f := Finished(d, smoothing, hiddenSeries).data;
        assert f == Ema(rebased, smoothing);
        assert forall j :: 0 <= j < |f| ==> f[j].y == EmaValues(Ys(rebased), w)[j];
      } else {
        assert Finished(d, smoothing, hiddenSeries).data == rebased;
      }
    }
  }

  /**
   * Each series holds as many points as its group collected, in time order,
   * starting at elapsed time 0 and never negative.
   */
  lemma GeneratedSeriesTimeline(runs: seq<Run>, smoothing: int, shownRuns: seq<string>, hiddenSeries: seq<string>)
    requires Generated(runs, smoothing, shownRuns, hiddenSeries).Some?
    ensures var series := Generated(runs, smoothing, shownRuns, hiddenSeries).value.series;
      forall i :: 0 <= i < |series| ==>
        |series[i].data| == |MergedPoints(runs, shownRuns, series[i].name)|
        && SortedByX(series[i].data) && series[i].data[0].x == 0
        && forall j :: 0 <= j < |series[i].data| ==> series[i].data[j].x >= 0
  {
    var drafts := Grouped(runs, shownRuns);
    forall i | 0 <= i < |drafts|
      ensures |drafts[i].data| > 0
      ensures var s := Finished(drafts[i], smoothing, hiddenSeries);
        |s.data| == |drafts[i].data| && SortedByX(s.data) && s.data[0].x == 0
        && forall j :: 0 <= j < |s.data| ==> s.data[j].x >= 0
    {
      assert drafts[i] in drafts;
      FinishedTimeline(drafts[i], smoothing, hiddenSeries);
    }
  }

  /**
   * Without smoothing a series shows exactly the values its runs supplied,
   * rearranged; with smoothing up to 100 every value stays within any
   * four-decimal bounds of the supplied values.
   */
  lemma GeneratedSeriesValues(runs: seq<Run>, smoothing: int, shownRuns: seq<string>, hiddenSeries: seq<string>,
                              lo: real, hi: real)
    requires Generated(runs, smoothing, shownRuns, hiddenSeries).Some?
    ensures var series := Generated(runs, smoothing, shownRuns, hiddenSeries).value.series;
      smoothing <= 0 ==> forall i :: 0 <= i < |series| ==>
        multiset(Ys(series[i].data)) == multiset(Ys(MergedPoints(runs, shownRuns, series[i].name)))
    ensures var series := Generated(runs, smoothing, shownRuns, hiddenSeries).value.series;
      (smoothing <= 100 && Round4(lo) == lo && Round4(hi) == hi
       && forall r :: r in runs && r.data.Some? ==> forall p :: p in r.data.value ==> lo <= p.value <= hi)
      ==> forall i, j :: 0 <= i < |series| && 0 <= j < |series[i].data| ==> lo <= series[i].data[j].y <= hi
  {
    var drafts := Grouped(runs, shownRuns);
    var bounded := forall r :: r in runs && r.data.Some? ==> forall p :: p in r.data.value ==> lo <= p.value <= hi;
    forall i | 0 <= i < |drafts|
      ensures |drafts[i].data| > 0
      ensures smoothing <= 0 ==>
        multiset(Ys(Finished(drafts[i], smoothing, hiddenSeries).data)) == multiset(Ys(drafts[i].data))
      ensures smoothing <= 100 && Round4(lo) == lo && Round4(hi) == hi && bounded ==>
        forall j :: 0 <= j < |Finished(drafts[i], smoothing, hiddenSeries).data| ==>
          lo <= Finished(drafts[i], smoothing, hiddenSeries).data[j].y <= hi
    {
      assert drafts[i] in drafts;
      if bounded {
        MergedPointsBounded(runs, shownRuns, drafts[i].id, lo, hi);
      }
      FinishedValues(drafts[i], smoothing, hiddenSeries, lo, hi);
    }
  }

  /** Every point a group collects carries a value its runs supplied. */
  lemma {:induction false} MergedPointsBounded(runs: seq<Run>, shownRuns: seq<string>, key: string, lo: real, hi: real)
    requires forall r :: r in runs && r.data.Some? ==> forall p :: p in r.data.value ==> lo <= p.value <= hi
    ensures forall q :: q in MergedPoints(runs, shownRuns, key) ==> lo <= q.y <= hi
  {
    if runs != [] {
      var init := runs[..|runs| - 1];
      assert forall r :: r in init ==> r in runs;
      MergedPointsBounded(init, shownRuns, key, lo, hi);
      var run := runs[|runs| - 1];
      if run.data.Some? {
        assert run in runs;
        assert forall k :: 0 <= k < |run.data.value| ==> run.data.value[k] in run.data.value;
      }
    }
  }

  /** Changing which series are hidden changes nothing but their visibility. */
  lemma HiddenOnlyAffectsVisibility(runs: seq<Run>, smoothing: int, shownRuns: seq<string>,
                                    hidden1: seq<string>, hidden2: seq<string>)
    ensures Generated(runs, smoothing, shownRuns, hidden1).Some? == Generated(runs, smoothing, shownRuns, hidden2).Some?
    ensures Generated(runs, smoothing, shownRuns, hidden1).Some? ==>
      var v1 := Generated(runs, smoothing, shownRuns, hidden1).value;
      var v2 := Generated(runs, smoothing, shownRuns, hidden2).value;
      v1.title == v2.title && |v1.series| == |v2.series|
      && forall i :: 0 <= i < |v1.series| ==> v1.series[i].(visible := v2.series[i].visible) == v2.series[i]
  {
  }

  // ---------------------------------------------------------------------
  // List toggles
  // ---------------------------------------------------------------------

  /**
   * A copied list with `item` switched on (pushed when missing) or off
   * (its first occurrence spliced out), as `toggleShownRuns` and
   * `toggleSeriesVisibility` do.
   */
  function Toggled(list: seq<string>, item: string, on: bool): (r: seq<string>)
    ensures on ==> item in r && |r| == |list| + (if item in list then 0 else 1)
    ensures !on ==> |r| == |list| - (if item in list then 1 else 0)
  {
    var k := IndexOf(list, item);
    if on then (if k == -1 then list + [item] else list)
    else if k > -1 then list[..k] + list[k + 1..]
    else list
  }

  /** The list without any occurrence of `item`. */
  function Without(list: seq<string>, item: string): seq<string> {
    if list == [] then []
    else (if list[0] == item then [] else [list[0]]) + Without(list[1..], item)
  }

  lemma {:induction false} WithoutConcat(a: seq<string>, b: seq<string>, item: string)
    ensures Without(a + b, item) == Without(a, item) + Without(b, item)
  {
    if a != [] {
      WithoutConcat(a[1..], b, item);
      assert (a + b)[1..] == a[1..] + b;
    } else {
      assert a + b == b;
    }
  }

  lemma {:induction false} WithoutAbsent(list: seq<string>, item: string)
    requires item !in list
    ensures Without(list, item) == list
  {
    if list != [] {
      WithoutAbsent(list[1..], item);
    }
  }

  /** Splicing out one element of a list without duplicates removes exactly that element. */
  lemma SpliceOut(list: seq<string>, k: nat)
    requires k < |list|
    ensures forall x :: x != list[k] ==> (x in list[..k] + list[k + 1..] <==> x in list)
    ensures NoDup(list) ==> NoDup(list[..k] + list[k + 1..]) && list[k] !in list[..k] + list[k + 1..]
  {
    var r := list[..k] + list[k + 1..];
    assert list == list[..k] + [list[k]] + list[k + 1..];
    if NoDup(list) {
      assert list[k] !in list[k + 1..] by {
        forall j | k + 1 <= j < |list| ensures list[j] != list[k] {
        }
      }
      forall a, b | 0 <= a < b < |r| ensures r[a] != r[b] {
        var a' := if a < k then a else a + 1;
        var b' := if b < k then b else b + 1;
        assert r[a] == list[a'] && r[b] == list[b'];
      }
    }
  }

  /** Splicing out an occurrence of `item` leaves the other items in order. */
  lemma SpliceOutWithout(list: seq<string>, k: nat, item: string)
    requires k < |list| && list[k] == item
    ensures Without(list[..k] + list[k + 1..], item) == Without(list, item)
  {
    assert list == list[..k] + [item] + list[k + 1..];
    WithoutConcat(list[..k] + [item], list[k + 1..], item);
    WithoutConcat(list[..k], [item], item);
    WithoutConcat(list[..k], list[k + 1..], item);
  }

  /** Switching off removes the first occurrence and leaves every other item where it was. */
  lemma ToggledOffEffect(list: seq<string>, item: string)
    ensures NoDup(list) ==> item !in Toggled(list, item, false)
    ensures forall x :: x != item ==> (x in Toggled(list, item, false) <==> x in list)
    ensures Without(Toggled(list, item, false), item) == Without(list, item)
    ensures NoDup(list) ==> NoDup(Toggled(list, item, false))
  {
    var k := IndexOf(list, item);
    if k > -1 {
      SpliceOut(list, k);
      SpliceOutWithout(list, k, item);
    }
  }

  /**
   * Switching on makes `item` present, switching off a list without
   * duplicates makes it absent; everything else keeps its presence and its
   * order, and a list without duplicates keeps having none.
   */
  lemma ToggledEffect(list: seq<string>, item: string, on: bool)
    ensures on ==> item in Toggled(list, item, on)
    ensures !on && NoDup(list) ==> item !in Toggled(list, item, on)
    ensures forall x :: x != item ==> (x in Toggled(list, item, on) <==> x in list)
    ensures Without(Toggled(list, item, on), item) == Without(list, item)
    ensures NoDup(list) ==> NoDup(Toggled(list, item, on))
  {
    if !on {
      ToggledOffEffect(list, item);
    } else if IndexOf(list, item) == -1 {
      WithoutConcat(list, [item], item);
    }
  }

  /** Switching an absent item on and then off restores a list without duplicates. */
  lemma ToggledRoundTrip(list: seq<string>, item: string)
    requires NoDup(list) && item !in list
    ensures Toggled(Toggled(list, item, true), item, false) == list
  {
    var added := list + [item];
    assert Toggled(list, item, true) == added;
    assert added[..|list|] == list;
    assert item !in added[..|list|];
    assert IndexOf(added, item) == |list|;
  }

  /**
   * Switching a present item off and on again in a list without duplicates
   * moves it to the end: `splice` takes it out, `push` puts it back last.
   */
  lemma ToggledOffThenOn(list: seq<string>, item: string)
    requires NoDup(list) && item in list
    ensures Toggled(Toggled(list, item, false), item, true) == Without(list, item) + [item]
  {
    var off := Toggled(list, item, false);
    ToggledOffEffect(list, item);
    WithoutAbsent(off, item);
    assert IndexOf(off, item) == -1;
  }

  /** Switching off an item listed several times removes only one copy, so it stays listed. */
  lemma ToggledOffDuplicate(list: seq<string>, item: string)
    requires multiset(list)[item] >= 2
    ensures multiset(Toggled(list, item, false))[item] == multiset(list)[item] - 1
    ensures item in Toggled(list, item, false)
  {
    assert item in multiset(list);
    var k := IndexOf(list, item);
    assert list == list[..k] + [item] + list[k + 1..];
    var off := list[..k] + list[k + 1..];
    assert multiset(list) == multiset(list[..k]) + multiset{item} + multiset(list[k + 1..]);
    assert multiset(off) == multiset(list[..k]) + multiset(list[k + 1..]);
    assert item in multiset(off);
  }

  // ---------------------------------------------------------------------
  // Workloads offered for run toggles
  // ---------------------------------------------------------------------

  /** The workloads that occur again later in the list: the `filter` with `includes(item, i + 1)`. */
  function RepeatedLater(workloads: seq<string>): seq<string> {
    if workloads == [] then []
    else (if workloads[0] in workloads[1..] then [workloads[0]] else []) + RepeatedLater(workloads[1..])
  }

  /** The distinct workloads shared by more than one run. */
  function NonUniqueWorkloads(workloads: seq<string>): seq<string> {
    Dedup(RepeatedLater(workloads))
  }

  lemma {:induction false} RepeatedLaterCount(workloads: seq<string>, w: string)
    ensures w in RepeatedLater(workloads) <==> multiset(workloads)[w] >= 2
  {
    if workloads != [] {
      RepeatedLaterCount(workloads[1..], w);
      assert workloads == [workloads[0]] + workloads[1..];
      assert multiset(workloads) == multiset{workloads[0]} + multiset(workloads[1..]);
    }
  }

  /** A workload is offered exactly when at least two runs share it, and only once. */
  lemma NonUniqueWorkloadsCharacterization(workloads: seq<string>)
    ensures forall w :: w in NonUniqueWorkloads(workloads) <==> multiset(workloads)[w] >= 2
    ensures NoDup(NonUniqueWorkloads(workloads))
  {
    forall w | true ensures w in NonUniqueWorkloads(workloads) <==> multiset(workloads)[w] >= 2 {
      DedupMembership(RepeatedLater(workloads), w);
      RepeatedLaterCount(workloads, w);
    }
    DedupNoDup(RepeatedLater(workloads));
  }

  function Workloads(runs: seq<Run>): (ws: seq<string>)
    ensures |ws| == |runs|
  {
    seq(|runs|, i requires 0 <= i < |runs| => runs[i].workload)
  }

  // ---------------------------------------------------------------------
  // Imperative steps of generateSeries
  // ---------------------------------------------------------------------

  /** `series.visible = true` and the `forEach` over the hidden names that may clear it. */
  method IsVisible(name: string, hiddenSeries: seq<string>) returns (visible: bool)
    ensures visible <==> name !in hiddenSeries
  {
    visible := true;
    for j := 0 to |hiddenSeries|
      invariant visible <==> name !in hiddenSeries[..j]
    {
      if hiddenSeries[j] == name {
        visible := false;
      }
      TakeSnoc(hiddenSeries, j);
    }
    assert hiddenSeries[..|hiddenSeries|] == hiddenSeries;
  }

  /** `series.data.sort((a, b) => a[0] - b[0])` for every series. */
  method SortEach(drafts: seq<Draft>) returns (sorted: seq<Draft>)
    ensures |sorted| == |drafts|
    ensures forall k :: 0 <= k < |drafts| ==>
      sorted[k] == drafts[k].(data := SortByX(drafts[k].data)) && |sorted[k].data| == |drafts[k].data|
  {
    sorted := [];
    var i := 0;
    while i < |drafts|
      invariant 0 <= i <= |drafts| && |sorted| == i
      invariant forall k :: 0 <= k < i ==>
        sorted[k] == drafts[k].(data := SortByX(drafts[k].data)) && |sorted[k].data| == |drafts[k].data|
    {
      var pts := SortPoints(drafts[i].data);
      sorted := sorted + [drafts[i].(data := pts)];
      i := i + 1;
    }
  }

  /**
   * The second pass: rebase each series to elapsed time, name it after its
   * key and apply the hidden list. Fails at the first series without points,
   * where `series.data[0][0]` throws.
   */
  method RebaseEach(sorted: seq<Draft>, hiddenSeries: seq<string>) returns (ok: bool, finished: seq<Series>)
    ensures ok <==> forall k :: 0 <= k < |sorted| ==> |sorted[k].data| > 0
    ensures ok ==> |finished| == |sorted|
    ensures ok ==> forall k :: 0 <= k < |sorted| ==>
      |sorted[k].data| > 0 && finished[k] == Series(sorted[k].id, Rebased(sorted[k].data), sorted[k].runs, sorted[k].id !in hiddenSeries)
  {
    finished := [];
    var i := 0;
    while i < |sorted|
      invariant 0 <= i <= |sorted| && |finished| == i
      invariant forall k :: 0 <= k < i ==>
        |sorted[k].data| > 0 && finished[k] == Series(sorted[k].id, Rebased(sorted[k].data), sorted[k].runs, sorted[k].id !in hiddenSeries)
    {
      var s := sorted[i];
      if |s.data| == 0 {
        return false, finished;
      }
      var rebased := RebasePoints(s.data);
      var visible := IsVisible(s.id, hiddenSeries);
      finished := finished + [Series(s.id, rebased, s.runs, visible)];
      i := i + 1;
    }
    ok := true;
  }

  /** `series.data = calcEMA(series.data, newSmoothing)` for every series. */
  method SmoothEach(finished: seq<Series>, smoothing: int) returns (smoothed: seq<Series>)
    requires forall k :: 0 <= k < |finished| ==> |finished[k].data| > 0
    ensures |smoothed| == |finished|
    ensures forall k :: 0 <= k < |finished| ==> smoothed[k] == finished[k].(data := Ema(finished[k].data, smoothing))
  {
    smoothed := [];
    var i := 0;
    while i < |finished|
      invariant 0 <= i <= |finished| && |smoothed| == i
      invariant forall k :: 0 <= k < i ==> smoothed[k] == finished[k].(data := Ema(finished[k].data, smoothing))
    {
      var ema := CalcEMA(finished[i].data, smoothing);
      smoothed := smoothed + [finished[i].(data := ema)];
      i := i + 1;
    }
  }

  /**
   * The three passes of `generateSeries` after grouping, which together
   * compute the specified series, or fail on a group without points.
   */
  method FinishAll(drafts: seq<Draft>, smoothing: int, hiddenSeries: seq<string>)
    returns (ok: bool, series: seq<Series>)
    ensures ok <==> !exists d :: d in drafts && |d.data| == 0
    ensures ok ==> |series| == |drafts|
    ensures ok ==> forall k :: 0 <= k < |drafts| ==>
      |drafts[k].data| > 0 && series[k] == Finished(drafts[k], smoothing, hiddenSeries)
  {
    var sorted := SortEach(drafts);
    ok, series := RebaseEach(sorted, hiddenSeries);
    if !ok {
      var k :| 0 <= k < |sorted| && |sorted[k].data| == 0;
      assert drafts[k] in drafts;
      return;
    }
    if smoothing > 0 {
      series := SmoothEach(series, smoothing);
    }
    forall d | d in drafts ensures |d.data| > 0 {
      var k :| 0 <= k < |drafts| && drafts[k] == d;
      assert |sorted[k].data| > 0;
    }
  }

  /**
   * The computation of `generateSeries` before its state update: group the
   * runs, then sort, rebase and smooth every group; `None` where indexing
   * the first point of an empty group throws.
   */
  method GenerateView(runs: seq<Run>, smoothing: int, shownRuns: seq<string>, hiddenSeries: seq<string>)
    returns (view: Option<View>)
    ensures view == Generated(runs, smoothing, shownRuns, hiddenSeries)
  {
    var allSeries, experiments := GroupRuns(runs, shownRuns);
    var ok, finished := FinishAll(allSeries, smoothing, hiddenSeries);
    if !ok {
      return None;
    }
    view := Some(View(ChartTitle(experiments), finished));
    assert finished == seq(|allSeries|, i requires 0 <= i < |allSeries| =>
      Finished(allSeries[i], smoothing, hiddenSeries));
  }

  /** The chart component's state: what it shows and the settings it was generated with. */
  class Chart {
    const chartData: ChartData

    var id: Option<string>
    var data: seq<Run>
    var title: string
    var yTitle: string
    var series: seq<Series>
    var workloads: seq<string>
    var shownRuns: seq<string>
    var hiddenSeries: seq<string>
    var smoothing: int
    var loading: bool
    var showDetailedTooltip: bool
    var monochromeMode: bool

    /** The initial state: loading, nothing shown, the y axis titled "Value". */
    constructor(chartData: ChartData)
      ensures this.chartData == chartData
      ensures id == None && data == [] && title == "" && yTitle == "Value" && series == []
      ensures workloads == [] && shownRuns == [] && hiddenSeries == [] && smoothing == 0
      ensures loading && !showDetailedTooltip && !monochromeMode
    {
      this.chartData := chartData;
      id := None;
      data := [];
      title := "";
      yTitle := "Value";
      series := [];
      workloads := [];
      shownRuns := [];
      hiddenSeries := [];
      smoothing := 0;
      loading := true;
      showDetailedTooltip := false;
      monochromeMode := false;
    }

    /**
     * The state `generateSeries` leaves after a successful run: the chart's
     * id, runs, title, metric and series, the settings it was given, and
     * loading finished.
     */
    predicate Shows(chart: ChartData, smoothing_: int, shownRuns_: seq<string>, hiddenSeries_: seq<string>, v: View)
      reads this
    {
      id == Some(chart.id) && data == chart.data && title == v.title && yTitle == chart.metric
      && series == v.series && shownRuns == shownRuns_ && hiddenSeries == hiddenSeries_
      && smoothing == smoothing_ && !loading
    }

    /**
     * `generateSeries`: group, sort, rebase, name, hide and smooth, then
     * publish the series with the title and settings. When a group has no
     * points the call throws before publishing and the state is unchanged.
     */
    method GenerateSeries(newChartData: ChartData, newSmoothing: int, newShownRuns: seq<string>,
                          newHiddenSeries: seq<string>) returns (ok: bool)
      modifies this
      ensures ok == Generated(newChartData.data, newSmoothing, newShownRuns, newHiddenSeries).Some?
      ensures ok ==> Shows(newChartData, newSmoothing, newShownRuns, newHiddenSeries,
                           Generated(newChartData.data, newSmoothing, newShownRuns, newHiddenSeries).value)
      ensures ok ==> workloads == old(workloads) && showDetailedTooltip == old(showDetailedTooltip)
                     && monochromeMode == old(monochromeMode)
      ensures !ok ==> unchanged(this)
    {
      var view := GenerateView(newChartData.data, newSmoothing, newShownRuns, newHiddenSeries);
      if view.None? {
        // `series.data[0][0]` threw: the state update below is never reached
        return false;
      }
      ok := true;
      Show(newChartData, newSmoothing, newShownRuns, newHiddenSeries, view.value);
    }

    /** The `setState` that ends a successful `generateSeries`. */
    method Show(chart: ChartData, smoothing_: int, shownRuns_: seq<string>, hiddenSeries_: seq<string>, v: View)
      modifies this
      ensures Shows(chart, smoothing_, shownRuns_, hiddenSeries_, v)
      ensures workloads == old(workloads) && showDetailedTooltip == old(showDetailedTooltip)
              && monochromeMode == old(monochromeMode)
    {
      id := Some(chart.id);
      data := chart.data;
      title := v.title;
      yTitle := chart.metric;
      series := v.series;
      shownRuns := shownRuns_;
      hiddenSeries := hiddenSeries_;
      smoothing := smoothing_;
      loading := false;
    }

    /**
     * `componentDidMount`: offer toggles for the workloads shared by several
     * runs, then generate with the saved context or with no smoothing and
     * empty lists.
     */
    method Mount() returns (ok: bool)
      modifies this
      ensures workloads == NonUniqueWorkloads(Workloads(chartData.data))
      ensures var ctx := Settings(chartData);
        ok == Generated(chartData.data, ctx.smoothing, ctx.shownRuns, ctx.hiddenSeries).Some?
      ensures var ctx := Settings(chartData);
        ok ==> Shows(chartData, ctx.smoothing, ctx.shownRuns, ctx.hiddenSeries,
                     Generated(chartData.data, ctx.smoothing, ctx.shownRuns, ctx.hiddenSeries).value)
      ensures showDetailedTooltip == old(showDetailedTooltip) && monochromeMode == old(monochromeMode)
      ensures !ok ==> id == old(id) && data == old(data) && title == old(title) && yTitle == old(yTitle)
                      && series == old(series) && shownRuns == old(shownRuns) && hiddenSeries == old(hiddenSeries)
                      && smoothing == old(smoothing) && loading == old(loading)
    {
      workloads := NonUniqueWorkloads(Workloads(chartData.data));
      if chartData.context.Some? {
        var ctx := chartData.context.value;
        ok := GenerateSeries(chartData, ctx.smoothing, ctx.shownRuns, ctx.hiddenSeries);
      } else {
        ok := GenerateSeries(chartData, 0, [], []);
      }
    }

    /** `applySmoothness`: regenerate only when the smoothing changes. */
    method ApplySmoothness(newSmoothing: int) returns (ok: bool)
      modifies this
      ensures newSmoothing == old(smoothing) ==> ok && unchanged(this)
      ensures newSmoothing != old(smoothing) ==>
        ok == Generated(chartData.data, newSmoothing, old(shownRuns), old(hiddenSeries)).Some?
      ensures newSmoothing != old(smoothing) && ok ==>
        Shows(chartData, newSmoothing, old(shownRuns), old(hiddenSeries),
              Generated(chartData.data, newSmoothing, old(shownRuns), old(hiddenSeries)).value)
      ensures workloads == old(workloads) && showDetailedTooltip == old(showDetailedTooltip)
              && monochromeMode == old(monochromeMode)
      ensures !ok ==> unchanged(this)
    {
      ok := true;
      if newSmoothing != smoothing {
        ok := GenerateSeries(chartData, newSmoothing, shownRuns, hiddenSeries);
      }
    }

    /** `toggleShownRuns`: show (or regroup) the runs of one workload separately. */
    method ToggleShownRuns(workloadId: string, checked: bool) returns (ok: bool)
      modifies this
      ensures ok == Generated(chartData.data, old(smoothing), Toggled(old(shownRuns), workloadId, checked), old(hiddenSeries)).Some?
      ensures ok ==>
        Shows(chartData, old(smoothing), Toggled(old(shownRuns), workloadId, checked), old(hiddenSeries),
              Generated(chartData.data, old(smoothing), Toggled(old(shownRuns), workloadId, checked), old(hiddenSeries)).value)
      ensures workloads == old(workloads) && showDetailedTooltip == old(showDetailedTooltip)
              && monochromeMode == old(monochromeMode)
      ensures !ok ==> unchanged(this)
    {
      var newShownRuns := Toggled(shownRuns, workloadId, checked);
      ok := GenerateSeries(chartData, smoothing, newShownRuns, hiddenSeries);
    }

    /**
     * `toggleSeriesVisibility`: a legend click on a visible series hides it,
     * on a hidden one shows it again.
     */
    method ToggleSeriesVisibility(seriesName: string, currentlyVisible: bool) returns (ok: bool)
      modifies this
      ensures ok == Generated(chartData.data, old(smoothing), old(shownRuns), Toggled(old(hiddenSeries), seriesName, currentlyVisible)).Some?
      ensures ok ==>
        Shows(chartData, old(smoothing), old(shownRuns), Toggled(old(hiddenSeries), seriesName, currentlyVisible),
              Generated(chartData.data, old(smoothing), old(shownRuns), Toggled(old(hiddenSeries), seriesName, currentlyVisible)).value)
      ensures workloads == old(workloads) && showDetailedTooltip == old(showDetailedTooltip)
              && monochromeMode == old(monochromeMode)
      ensures !ok ==> unchanged(this)
    {
      var newHiddenSeries := Toggled(hiddenSeries, seriesName, currentlyVisible);
      ok := GenerateSeries(chartData, smoothing, shownRuns, newHiddenSeries);
    }

    /**
     * `handleMonochromeModeSwitch`: the request is honoured while the chart
     * has at most five series (`(length - 1) / 2` of the library's series,
     * which include the navigator's); otherwise the mode is forced off and
     * the user is alerted.
     */
    method HandleMonochromeModeSwitch(checked: bool, chartSeriesLength: nat) returns (alerted: bool)
      modifies this
      ensures alerted <==> chartSeriesLength > 11
      ensures monochromeMode == (checked && !alerted)
      ensures id == old(id) && data == old(data) && title == old(title) && yTitle == old(yTitle)
      ensures series == old(series) && workloads == old(workloads)
      ensures shownRuns == old(shownRuns) && hiddenSeries == old(hiddenSeries) && smoothing == old(smoothing)
      ensures loading == old(loading) && showDetailedTooltip == old(showDetailedTooltip)
    {
      var seriesCount := (chartSeriesLength as real - 1.0) / 2.0;
      if seriesCount <= 5.0 {
        monochromeMode := checked;
        alerted := false;
      } else {
        monochromeMode := false;
        alerted := true;
      }
    }
  }

  /**
   * After a legend click the clicked series flips its visibility and every
   * other series, and everything else on the chart, stays as it was.
   */
  lemma LegendClickFlipsOneSeries(runs: seq<Run>, smoothing: int, shownRuns: seq<string>,
                                  hiddenSeries: seq<string>, name: string, currentlyVisible: bool)
    requires NoDup(hiddenSeries)
    requires Generated(runs, smoothing, shownRuns, hiddenSeries).Some?
    ensures var after := Generated(runs, smoothing, shownRuns, Toggled(hiddenSeries, name, currentlyVisible));
      after.Some?
      && after.value.title == Generated(runs, smoothing, shownRuns, hiddenSeries).value.title
      && |after.value.series| == |Generated(runs, smoothing, shownRuns, hiddenSeries).value.series|
    ensures var before := Generated(runs, smoothing, shownRuns, hiddenSeries).value.series;
      var after := Generated(runs, smoothing, shownRuns, Toggled(hiddenSeries, name, currentlyVisible)).value.series;
      forall i :: 0 <= i < |before| ==>
        after[i].(visible := before[i].visible) == before[i]
        && (before[i].name == name ==> after[i].visible == !currentlyVisible)
        && (before[i].name != name ==> after[i].visible == before[i].visible)
  {
    var toggled := Toggled(hiddenSeries, name, currentlyVisible);
    HiddenOnlyAffectsVisibility(runs, smoothing, shownRuns, hiddenSeries, toggled);
    ToggledEffect(hiddenSeries, name, currentlyVisible);
    GeneratedSeriesIdentity(runs, smoothing, shownRuns, hiddenSeries);
    GeneratedSeriesIdentity(runs, smoothing, shownRuns, toggled);
  }

  /**
   * A hidden list saved with duplicates: a click on a hidden series removes
   * one copy of its name, so when the name was listed twice or more the
   * series stays hidden.
   */
  lemma LegendClickOnDuplicateHidden(runs: seq<Run>, smoothing: int, shownRuns: seq<string>,
                                     hiddenSeries: seq<string>, name: string)
    requires multiset(hiddenSeries)[name] >= 2
    requires Generated(runs, smoothing, shownRuns, hiddenSeries).Some?
    ensures var after := Generated(runs, smoothing, shownRuns, Toggled(hiddenSeries, name, false));
      after.Some? && forall i :: 0 <= i < |after.value.series| && after.value.series[i].name == name ==>
        !after.value.series[i].visible
  {
    var toggled := Toggled(hiddenSeries, name, false);
    HiddenOnlyAffectsVisibility(runs, smoothing, shownRuns, hiddenSeries, toggled);
    ToggledOffDuplicate(hiddenSeries, name);
    GeneratedSeriesIdentity(runs, smoothing, shownRuns, toggled);
  }
}
