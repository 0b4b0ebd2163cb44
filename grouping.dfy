/**
 * The first half of `generateSeries` in src/components/Chart.js: deriving a
 * series key for every run that has data and merging the runs that share a
 * key into one series, in order of first appearance.
 */
module ChartGrouping {
  import opened Util
  import opened Runs

  /** A series before sorting and rebasing: `{id, data, custom: {runs}}`. */
  datatype Draft = Draft(id: string, data: seq<XY>, runs: seq<Run>)

  // ---------------------------------------------------------------------
  // Series key
  // ---------------------------------------------------------------------

  /** `workload.substring(workload.indexOf("-") + 1)`: the text after the first dash, or all of it. */
  function WorkloadSuffix(workload: string): string {
    Substring(workload, IndexOf(workload, '-') + 1, |workload|)
  }

  /** `workload.substring(0, workload.indexOf("-"))`: the text before the first dash, or "" without one. */
  function WorkloadPrefix(workload: string): string {
    Substring(workload, 0, IndexOf(workload, '-'))
  }

  /** `name.substring(0, 5)`. */
  function ShortName(name: string): (r: string)
    ensures r == if |name| <= 5 then name else name[..5]
  {
    Substring(name, 0, 5)
  }

  /** A run is shown on its own when its workload is ungrouped ("...-null") or expanded by the user. */
  predicate Ungrouped(workload: string, shownRuns: seq<string>) {
    WorkloadSuffix(workload) == "null" || IndexOf(shownRuns, workload) > -1
  }

  /** The key of the series a run is merged into. */
  function SeriesKey(run: Run, shownRuns: seq<string>): (key: string)
    ensures !Ungrouped(run.workload, shownRuns) ==> key == run.workload
    ensures Ungrouped(run.workload, shownRuns) && run.letter.Some? ==>
      run.workload + " " + run.letter.value <= key
  {
    var workload := run.workload;
    if Ungrouped(workload, shownRuns) then
      match run.letter
      case None => WorkloadPrefix(workload) + " (" + ShortName(run.name) + ")"
      case Some(letter) =>
        if |letter| > 1 then workload + " " + letter
        else workload + " " + letter + " (" + ShortName(run.name) + ")"
    else workload
  }

  /** A workload `p-s` with no dash in `p` splits into prefix `p` and suffix `s`. */
  lemma SplitWorkload(p: string, s: string)
    requires '-' !in p
    ensures WorkloadPrefix(p + "-" + s) == p
    ensures WorkloadSuffix(p + "-" + s) == s
  {
    var w := p + "-" + s;
    assert w[..|p|] == p;
    assert w[|p|] == '-';
    assert IndexOf(w, '-') == |p|;
    assert w[|p| + 1..] == s;
  }

  /** Without a dash the suffix is the whole workload and the prefix is empty. */
  lemma NoDashWorkload(w: string)
    requires '-' !in w
    ensures WorkloadPrefix(w) == ""
    ensures WorkloadSuffix(w) == w
  {
    assert w[0..|w|] == w;
  }

  /**
   * The key of a run whose workload is `p-s`: the workload itself unless
   * `s` is "null" or the workload is expanded; otherwise a name built from
   * the prefix or the whole workload, the letter, and the first five
   * characters of the run name.
   */
  lemma KeyOfSplitWorkload(run: Run, shownRuns: seq<string>, p: string, s: string)
    requires '-' !in p && run.workload == p + "-" + s
    ensures SeriesKey(run, shownRuns) ==
      if s != "null" && run.workload !in shownRuns then run.workload
      else match run.letter
        case None => p + " (" + ShortName(run.name) + ")"
        case Some(l) =>
          if |l| > 1 then run.workload + " " + l
          else run.workload + " " + l + " (" + ShortName(run.name) + ")"
  {
    SplitWorkload(p, s);
  }

  /** A workload without a dash is grouped unless it is literally "null" or expanded; a null letter then gives an empty prefix. */
  lemma KeyOfUndashedWorkload(run: Run, shownRuns: seq<string>)
    requires '-' !in run.workload
    ensures SeriesKey(run, shownRuns) ==
      if run.workload != "null" && run.workload !in shownRuns then run.workload
      else match run.letter
        case None => " (" + ShortName(run.name) + ")"
        case Some(l) =>
          if |l| > 1 then run.workload + " " + l
          else run.workload + " " + l + " (" + ShortName(run.name) + ")"
  {
    NoDashWorkload(run.workload);
  }

  // ---------------------------------------------------------------------
  // Grouping specification
  // ---------------------------------------------------------------------

  /** A run takes part in the series with key `key`: it has data and that key. */
  predicate Contributes(run: Run, shownRuns: seq<string>, key: string) {
    run.data.Some? && SeriesKey(run, shownRuns) == key
  }

  /** What one run adds to the keys, points, metadata and experiment names collected. */
  function KeyOf(run: Run, shownRuns: seq<string>): seq<string> {
    if run.data.Some? then [SeriesKey(run, shownRuns)] else []
  }

  function PointsOf(run: Run, shownRuns: seq<string>, key: string): seq<XY> {
    if Contributes(run, shownRuns, key) then Points(run) else []
  }

  function MetadataOf(run: Run, shownRuns: seq<string>, key: string): seq<Run> {
    if Contributes(run, shownRuns, key) then [Stripped(run)] else []
  }

  function ExperimentOf(run: Run): seq<string> {
    if run.data.Some? then [run.experimentName] else []
  }

  /** The keys of the runs that have data, in input order (with repeats). */
  function ActiveKeys(runs: seq<Run>, shownRuns: seq<string>): seq<string> {
    if runs == [] then []
    else ActiveKeys(runs[..|runs| - 1], shownRuns) + KeyOf(runs[|runs| - 1], shownRuns)
  }

  /** The points of all runs with data and key `key`, concatenated in input order. */
  function MergedPoints(runs: seq<Run>, shownRuns: seq<string>, key: string): seq<XY> {
    if runs == [] then []
    else MergedPoints(runs[..|runs| - 1], shownRuns, key) + PointsOf(runs[|runs| - 1], shownRuns, key)
  }

  /** The metadata of all runs with data and key `key`, in input order. */
  function MergedRuns(runs: seq<Run>, shownRuns: seq<string>, key: string): seq<Run> {
    if runs == [] then []
    else MergedRuns(runs[..|runs| - 1], shownRuns, key) + MetadataOf(runs[|runs| - 1], shownRuns, key)
  }

  /** The experiment names of the runs with data, in input order (with repeats). */
  function ActiveExperiments(runs: seq<Run>): seq<string> {
    if runs == [] then []
    else ActiveExperiments(runs[..|runs| - 1]) + ExperimentOf(runs[|runs| - 1])
  }

  /** One series per distinct key, in order of first appearance, holding its runs' points and metadata. */
  function Grouped(runs: seq<Run>, shownRuns: seq<string>): seq<Draft> {
    var keys := Dedup(ActiveKeys(runs, shownRuns));
    seq(|keys|, i requires 0 <= i < |keys| =>
      Draft(keys[i], MergedPoints(runs, shownRuns, keys[i]), MergedRuns(runs, shownRuns, keys[i])))
  }

  function Ids(drafts: seq<Draft>): (ids: seq<string>)
    ensures |ids| == |drafts|
    ensures forall i :: 0 <= i < |drafts| ==> ids[i] == drafts[i].id
  {
    seq(|drafts|, i requires 0 <= i < |drafts| => drafts[i].id)
  }

  lemma KeysSnoc(runs: seq<Run>, run: Run, shownRuns: seq<string>)
    ensures ActiveKeys(runs + [run], shownRuns) == ActiveKeys(runs, shownRuns) + KeyOf(run, shownRuns)
  {
    assert (runs + [run])[..|runs|] == runs;
  }

  lemma PointsSnoc(runs: seq<Run>, run: Run, shownRuns: seq<string>, key: string)
    ensures MergedPoints(runs + [run], shownRuns, key) == MergedPoints(runs, shownRuns, key) + PointsOf(run, shownRuns, key)
  {
    assert (runs + [run])[..|runs|] == runs;
  }

  lemma MetadataSnoc(runs: seq<Run>, run: Run, shownRuns: seq<string>, key: string)
    ensures MergedRuns(runs + [run], shownRuns, key) == MergedRuns(runs, shownRuns, key) + MetadataOf(run, shownRuns, key)
  {
    assert (runs + [run])[..|runs|] == runs;
  }

  lemma ExperimentsSnoc(runs: seq<Run>, run: Run)
    ensures ActiveExperiments(runs + [run]) == ActiveExperiments(runs) + ExperimentOf(run)
  {
    assert (runs + [run])[..|runs|] == runs;
  }

  // ---------------------------------------------------------------------
  // The loop of generateSeries
  // ---------------------------------------------------------------------

  /**
   * The `data.forEach` loop: each run is handed to `AddRun`; the series and
   * the experiment names then hold the grouping of all the runs.
   */
  method GroupRuns(runs: seq<Run>, shownRuns: seq<string>)
    returns (allSeries: seq<Draft>, experiments: seq<string>)
    ensures allSeries == Grouped(runs, shownRuns)
    ensures experiments == Dedup(ActiveExperiments(runs))
    ensures NoDup(Ids(allSeries)) && NoDup(experiments)
  {
    allSeries, experiments := [], [];
    var i := 0;
    while i < |runs|
      invariant 0 <= i <= |runs|
      invariant allSeries == Grouped(runs[..i], shownRuns)
      invariant experiments == Dedup(ActiveExperiments(runs[..i]))
    {
      allSeries, experiments := AddRun(allSeries, experiments, runs[i], shownRuns, runs[..i]);
      TakeSnoc(runs, i);
      i := i + 1;
    }
    assert runs[..i] == runs;
    GroupedIdsUnique(runs, shownRuns);
    DedupNoDup(ActiveExperiments(runs));
  }

  /**
   * The loop body for one run: skip it when it has no data; otherwise
   * record its experiment name, find the series with its key (`findIndex`)
   * and either start a new series or append its points and metadata to the
   * found one. `done` stands for the runs handled before.
   */
  method AddRun(allSeries: seq<Draft>, experiments: seq<string>, run: Run, shownRuns: seq<string>,
                ghost done: seq<Run>)
    returns (newSeries: seq<Draft>, newExperiments: seq<string>)
    requires allSeries == Grouped(done, shownRuns)
    requires experiments == Dedup(ActiveExperiments(done))
    ensures newSeries == Grouped(done + [run], shownRuns)
    ensures newExperiments == Dedup(ActiveExperiments(done + [run]))
  {
    GroupStep(done, run, shownRuns);
    ExperimentsStep(done, run);
    newSeries, newExperiments := allSeries, experiments;
    if run.data.Some? {
      newExperiments := SetAdd(experiments, run.experimentName);
      var key := SeriesKey(run, shownRuns);
      var seriesIndex := IndexOf(Ids(allSeries), key);
      if seriesIndex == -1 {
        newSeries := allSeries + [Draft(key, Points(run), [Stripped(run)])];
      } else {
        var series := allSeries[seriesIndex];
        newSeries := allSeries[seriesIndex :=
          series.(data := series.data + Points(run), runs := series.runs + [Stripped(run)])];
      }
    }
  }

  lemma ExperimentsStep(runs: seq<Run>, run: Run)
    ensures Dedup(ActiveExperiments(runs + [run])) ==
      if run.data.None? then Dedup(ActiveExperiments(runs))
      else SetAdd(Dedup(ActiveExperiments(runs)), run.experimentName)
  {
    ExperimentsSnoc(runs, run);
    if run.data.Some? {
      DedupSnoc(ActiveExperiments(runs), run.experimentName);
    } else {
      assert ActiveExperiments(runs) + [] == ActiveExperiments(runs);
    }
  }

  /** A key that no run with data has collects neither points nor runs. */
  lemma {:induction false} AbsentKey(runs: seq<Run>, shownRuns: seq<string>, key: string)
    requires key !in ActiveKeys(runs, shownRuns)
    ensures MergedPoints(runs, shownRuns, key) == []
    ensures MergedRuns(runs, shownRuns, key) == []
  {
    if runs != [] {
      AbsentKey(runs[..|runs| - 1], shownRuns, key);
    }
  }

  /** Two run lists with the same keys, points and metadata per key give the same series. */
  lemma GroupedExt(r1: seq<Run>, r2: seq<Run>, shownRuns: seq<string>)
    requires ActiveKeys(r1, shownRuns) == ActiveKeys(r2, shownRuns)
    requires forall key :: MergedPoints(r1, shownRuns, key) == MergedPoints(r2, shownRuns, key)
    requires forall key :: MergedRuns(r1, shownRuns, key) == MergedRuns(r2, shownRuns, key)
    ensures Grouped(r1, shownRuns) == Grouped(r2, shownRuns)
  {
  }

  /** How one more run changes the grouped series: what the loop body does. */
  lemma GroupStep(runs: seq<Run>, run: Run, shownRuns: seq<string>)
    ensures run.data.None? ==> Grouped(runs + [run], shownRuns) == Grouped(runs, shownRuns)
    ensures run.data.Some? ==>
      var old_ := Grouped(runs, shownRuns);
      var key := SeriesKey(run, shownRuns);
      var k := IndexOf(Ids(old_), key);
      Grouped(runs + [run], shownRuns) ==
        if k == -1 then old_ + [Draft(key, Points(run), [Stripped(run)])]
        else old_[k := old_[k].(data := old_[k].data + Points(run), runs := old_[k].runs + [Stripped(run)])]
  {
    if run.data.None? {
      GroupStepWithoutData(runs, run, shownRuns);
    } else {
      var old_ := Grouped(runs, shownRuns);
      var key := SeriesKey(run, shownRuns);
      var keys := ActiveKeys(runs, shownRuns);
      assert Ids(old_) == Dedup(keys);
      var k := IndexOf(Ids(old_), key);
      DedupMembership(keys, key);
      if k == -1 {
        GroupStepNewKey(runs, run, shownRuns);
      } else {
        GroupStepKnownKey(runs, run, shownRuns, k);
      }
    }
  }

  lemma GroupStepWithoutData(runs: seq<Run>, run: Run, shownRuns: seq<string>)
    requires run.data.None?
    ensures Grouped(runs + [run], shownRuns) == Grouped(runs, shownRuns)
  {
    var rs := runs + [run];
    KeysSnoc(runs, run, shownRuns);
    assert ActiveKeys(rs, shownRuns) == ActiveKeys(runs, shownRuns) + [];
    forall key | true
      ensures MergedPoints(rs, shownRuns, key) == MergedPoints(runs, shownRuns, key)
      ensures MergedRuns(rs, shownRuns, key) == MergedRuns(runs, shownRuns, key)
    {
      PointsSnoc(runs, run, shownRuns, key);
      MetadataSnoc(runs, run, shownRuns, key);
      assert MergedPoints(runs, shownRuns, key) + [] == MergedPoints(runs, shownRuns, key);
      assert MergedRuns(runs, shownRuns, key) + [] == MergedRuns(runs, shownRuns, key);
    }
    GroupedExt(rs, runs, shownRuns);
  }

  /** The other keys keep their points and metadata when a run with key `key` is added. */
  lemma OtherKeysUnchanged(runs: seq<Run>, run: Run, shownRuns: seq<string>, other: string)
    requires run.data.Some? && other != SeriesKey(run, shownRuns)
    ensures MergedPoints(runs + [run], shownRuns, other) == MergedPoints(runs, shownRuns, other)
    ensures MergedRuns(runs + [run], shownRuns, other) == MergedRuns(runs, shownRuns, other)
  {
    PointsSnoc(runs, run, shownRuns, other);
    MetadataSnoc(runs, run, shownRuns, other);
    assert MergedPoints(runs, shownRuns, other) + [] == MergedPoints(runs, shownRuns, other);
    assert MergedRuns(runs, shownRuns, other) + [] == MergedRuns(runs, shownRuns, other);
  }

  /** A new key goes to the end of the key order. */
  lemma NewKeyLast(runs: seq<Run>, run: Run, shownRuns: seq<string>)
    requires run.data.Some? && SeriesKey(run, shownRuns) !in ActiveKeys(runs, shownRuns)
    ensures Dedup(ActiveKeys(runs + [run], shownRuns)) ==
      Dedup(ActiveKeys(runs, shownRuns)) + [SeriesKey(run, shownRuns)]
  {
    var keys := ActiveKeys(runs, shownRuns);
    KeysSnoc(runs, run, shownRuns);
    DedupSnoc(keys, SeriesKey(run, shownRuns));
    DedupMembership(keys, SeriesKey(run, shownRuns));
  }

  /** A new key collects exactly the points and metadata of the run that brings it. */
  lemma NewKeyContents(runs: seq<Run>, run: Run, shownRuns: seq<string>)
    requires run.data.Some? && SeriesKey(run, shownRuns) !in ActiveKeys(runs, shownRuns)
    ensures MergedPoints(runs + [run], shownRuns, SeriesKey(run, shownRuns)) == Points(run)
    ensures MergedRuns(runs + [run], shownRuns, SeriesKey(run, shownRuns)) == [Stripped(run)]
  {
    var key := SeriesKey(run, shownRuns);
    AbsentKey(runs, shownRuns, key);
    PointsSnoc(runs, run, shownRuns, key);
    MetadataSnoc(runs, run, shownRuns, key);
    assert [] + Points(run) == Points(run);
    assert [] + [Stripped(run)] == [Stripped(run)];
  }

  /** The series that existed before keep their place and contents when a new key arrives. */
  lemma NewKeyKeepsOthers(runs: seq<Run>, run: Run, shownRuns: seq<string>, i: nat)
    requires run.data.Some? && SeriesKey(run, shownRuns) !in ActiveKeys(runs, shownRuns)
    requires i < |Dedup(ActiveKeys(runs, shownRuns))|
    ensures i < |Grouped(runs + [run], shownRuns)|
    ensures Grouped(runs + [run], shownRuns)[i] == Grouped(runs, shownRuns)[i]
  {
    var oldKeys := Dedup(ActiveKeys(runs, shownRuns));
    NewKeyLast(runs, run, shownRuns);
    DedupMembership(ActiveKeys(runs, shownRuns), oldKeys[i]);
    OtherKeysUnchanged(runs, run, shownRuns, oldKeys[i]);
  }

  lemma GroupStepNewKey(runs: seq<Run>, run: Run, shownRuns: seq<string>)
    requires run.data.Some? && SeriesKey(run, shownRuns) !in ActiveKeys(runs, shownRuns)
    ensures Grouped(runs + [run], shownRuns) ==
      Grouped(runs, shownRuns) + [Draft(SeriesKey(run, shownRuns), Points(run), [Stripped(run)])]
  {
    var n := |Dedup(ActiveKeys(runs, shownRuns))|;
    var old_ := Grouped(runs, shownRuns);
    var g := Grouped(runs + [run], shownRuns);
    var expected := old_ + [Draft(SeriesKey(run, shownRuns), Points(run), [Stripped(run)])];
    NewKeyLast(runs, run, shownRuns);
    NewKeyContents(runs, run, shownRuns);
    assert |g| == |expected| == n + 1;
    forall i | 0 <= i < n ensures g[i] == expected[i] {
      NewKeyKeepsOthers(runs, run, shownRuns, i);
    }
    assert g[n] == expected[n];
  }

  lemma GroupStepKnownKey(runs: seq<Run>, run: Run, shownRuns: seq<string>, k: nat)
    requires run.data.Some?
    requires k < |Dedup(ActiveKeys(runs, shownRuns))| && Dedup(ActiveKeys(runs, shownRuns))[k] == SeriesKey(run, shownRuns)
    ensures var old_ := Grouped(runs, shownRuns);
      Grouped(runs + [run], shownRuns) ==
        old_[k := old_[k].(data := old_[k].data + Points(run), runs := old_[k].runs + [Stripped(run)])]
  {
    var rs := runs + [run];
    var key := SeriesKey(run, shownRuns);
    var keys := ActiveKeys(runs, shownRuns);
    KeysSnoc(runs, run, shownRuns);
    DedupSnoc(keys, key);
    DedupNoDup(keys);
    PointsSnoc(runs, run, shownRuns, key);
    MetadataSnoc(runs, run, shownRuns, key);
    var old_ := Grouped(runs, shownRuns);
    var g := Grouped(rs, shownRuns);
    var expected := old_[k := old_[k].(data := old_[k].data + Points(run), runs := old_[k].runs + [Stripped(run)])];
    assert Dedup(ActiveKeys(rs, shownRuns)) == Dedup(keys);
    assert |g| == |expected|;
    forall i | 0 <= i < |g| ensures g[i] == expected[i] {
      if i != k {
        assert Dedup(keys)[i] != key;
        OtherKeysUnchanged(runs, run, shownRuns, Dedup(keys)[i]);
      }
    }
  }

  // ---------------------------------------------------------------------
  // Properties of the grouping
  // ---------------------------------------------------------------------

  /** Series keys are unique: each distinct key yields exactly one series. */
  lemma GroupedIdsUnique(runs: seq<Run>, shownRuns: seq<string>)
    ensures NoDup(Ids(Grouped(runs, shownRuns)))
    ensures forall k :: k in Ids(Grouped(runs, shownRuns)) <==> k in ActiveKeys(runs, shownRuns)
  {
    DedupNoDup(ActiveKeys(runs, shownRuns));
    assert Ids(Grouped(runs, shownRuns)) == Dedup(ActiveKeys(runs, shownRuns));
    forall k | true
      ensures k in Ids(Grouped(runs, shownRuns)) <==> k in ActiveKeys(runs, shownRuns)
    {
      DedupMembership(ActiveKeys(runs, shownRuns), k);
    }
  }

  /** A key some run with data has collects at least one run's metadata. */
  lemma {:induction false} PresentKey(runs: seq<Run>, shownRuns: seq<string>, key: string)
    requires key in ActiveKeys(runs, shownRuns)
    ensures |MergedRuns(runs, shownRuns, key)| >= 1
  {
    var last := runs[|runs| - 1];
    if !Contributes(last, shownRuns, key) {
      PresentKey(runs[..|runs| - 1], shownRuns, key);
    }
  }

  /** Every merged run record has its data removed. */
  lemma {:induction false} MergedRunsStripped(runs: seq<Run>, shownRuns: seq<string>, key: string)
    ensures forall m :: m in MergedRuns(runs, shownRuns, key) ==> m.data.None?
  {
    if runs != [] {
      MergedRunsStripped(runs[..|runs| - 1], shownRuns, key);
    }
  }

  /** Every series lists at least one contributing run, and none of them carries data. */
  lemma GroupedRunsNonEmpty(runs: seq<Run>, shownRuns: seq<string>)
    ensures forall d :: d in Grouped(runs, shownRuns) ==>
      |d.runs| >= 1 && forall m :: m in d.runs ==> m.data.None?
  {
    var g := Grouped(runs, shownRuns);
    forall d | d in g
      ensures |d.runs| >= 1 && forall m :: m in d.runs ==> m.data.None?
    {
      var i :| 0 <= i < |g| && g[i] == d;
      DedupMembership(ActiveKeys(runs, shownRuns), d.id);
      PresentKey(runs, shownRuns, d.id);
      MergedRunsStripped(runs, shownRuns, d.id);
    }
  }

  /** When every run with data has at least one point, so does every merged series. */
  lemma {:induction false} PresentKeyPoints(runs: seq<Run>, shownRuns: seq<string>, key: string)
    requires key in ActiveKeys(runs, shownRuns)
    requires forall r :: r in runs && r.data.Some? ==> |r.data.value| > 0
    ensures |MergedPoints(runs, shownRuns, key)| >= 1
  {
    var last := runs[|runs| - 1];
    if !Contributes(last, shownRuns, key) {
      PresentKeyPoints(runs[..|runs| - 1], shownRuns, key);
    }
  }

  lemma GroupedPointsNonEmpty(runs: seq<Run>, shownRuns: seq<string>)
    requires forall r :: r in runs && r.data.Some? ==> |r.data.value| > 0
    ensures forall d :: d in Grouped(runs, shownRuns) ==> |d.data| >= 1
  {
    var g := Grouped(runs, shownRuns);
    forall d | d in g
      ensures |d.data| >= 1
    {
      var i :| 0 <= i < |g| && g[i] == d;
      DedupMembership(ActiveKeys(runs, shownRuns), d.id);
      PresentKeyPoints(runs, shownRuns, d.id);
    }
  }

  /** The runs that have data, in input order. */
  function WithData(runs: seq<Run>): (kept: seq<Run>)
    ensures forall r :: r in kept <==> r in runs && r.data.Some?
  {
    if runs == [] then []
    else
      var last := runs[|runs| - 1];
      WithData(runs[..|runs| - 1]) + (if last.data.Some? then [last] else [])
  }

  lemma {:induction false} KeysWithData(runs: seq<Run>, shownRuns: seq<string>)
    ensures ActiveKeys(WithData(runs), shownRuns) == ActiveKeys(runs, shownRuns)
  {
    if runs != [] {
      var init, last := runs[..|runs| - 1], runs[|runs| - 1];
      KeysWithData(init, shownRuns);
      if last.data.Some? {
        KeysSnoc(WithData(init), last, shownRuns);
      } else {
        assert WithData(runs) == WithData(init);
      }
    }
  }

  lemma {:induction false} PointsWithData(runs: seq<Run>, shownRuns: seq<string>, key: string)
    ensures MergedPoints(WithData(runs), shownRuns, key) == MergedPoints(runs, shownRuns, key)
  {
    if runs != [] {
      var init, last := runs[..|runs| - 1], runs[|runs| - 1];
      PointsWithData(init, shownRuns, key);
      if last.data.Some? {
        PointsSnoc(WithData(init), last, shownRuns, key);
      } else {
        assert WithData(runs) == WithData(init);
      }
    }
  }

  lemma {:induction false} MetadataWithData(runs: seq<Run>, shownRuns: seq<string>, key: string)
    ensures MergedRuns(WithData(runs), shownRuns, key) == MergedRuns(runs, shownRuns, key)
  {
    if runs != [] {
      var init, last := runs[..|runs| - 1], runs[|runs| - 1];
      MetadataWithData(init, shownRuns, key);
      if last.data.Some? {
        MetadataSnoc(WithData(init), last, shownRuns, key);
      } else {
        assert WithData(runs) == WithData(init);
      }
    }
  }

  lemma {:induction false} ExperimentsWithData(runs: seq<Run>)
    ensures ActiveExperiments(WithData(runs)) == ActiveExperiments(runs)
  {
    if runs != [] {
      var init, last := runs[..|runs| - 1], runs[|runs| - 1];
      ExperimentsWithData(init);
      if last.data.Some? {
        ExperimentsSnoc(WithData(init), last);
      } else {
        assert WithData(runs) == WithData(init);
      }
    }
  }

  /**
   * Runs whose data is undefined are skipped: dropping them all changes no
   * series, no point, no metadata and no experiment name.
   */
  lemma RunsWithoutDataIgnored(runs: seq<Run>, shownRuns: seq<string>)
    ensures Grouped(WithData(runs), shownRuns) == Grouped(runs, shownRuns)
    ensures ActiveExperiments(WithData(runs)) == ActiveExperiments(runs)
  {
    KeysWithData(runs, shownRuns);
    forall key | true
      ensures MergedPoints(WithData(runs), shownRuns, key) == MergedPoints(runs, shownRuns, key)
      ensures MergedRuns(WithData(runs), shownRuns, key) == MergedRuns(runs, shownRuns, key)
    {
      PointsWithData(runs, shownRuns, key);
      MetadataWithData(runs, shownRuns, key);
    }
    GroupedExt(WithData(runs), runs, shownRuns);
    ExperimentsWithData(runs);
  }

  /** A single run with data makes a single series. */
  lemma SingleRun(r: Run, shownRuns: seq<string>)
    requires r.data.Some?
    ensures Dedup(ActiveKeys([r], shownRuns)) == [SeriesKey(r, shownRuns)]
    ensures Grouped([r], shownRuns) == [Draft(SeriesKey(r, shownRuns), Points(r), [Stripped(r)])]
  {
    var key := SeriesKey(r, shownRuns);
    assert [] + [r] == [r];
    assert ActiveKeys([], shownRuns) == [];
    KeysSnoc([], r, shownRuns);
    assert Dedup([key]) == [key] by {
      assert [key][..0] == [];
    }
    GroupStepNewKey([], r, shownRuns);
    assert Grouped([], shownRuns) == [];
  }

  /** Two runs with data and the same key make one series holding both, in order. */
  lemma SameKeyMerges(r1: Run, r2: Run, shownRuns: seq<string>)
    requires r1.data.Some? && r2.data.Some? && SeriesKey(r1, shownRuns) == SeriesKey(r2, shownRuns)
    ensures Grouped([r1] + [r2], shownRuns) ==
      [Draft(SeriesKey(r1, shownRuns), Points(r1) + Points(r2), [Stripped(r1)] + [Stripped(r2)])]
  {
    SingleRun(r1, shownRuns);
    GroupStepKnownKey([r1], r2, shownRuns, 0);
  }

  /** Two runs with data from the same grouped workload merge into one series holding both. */
  lemma SameWorkloadMerges(r1: Run, r2: Run, shownRuns: seq<string>)
    requires r1.data.Some? && r2.data.Some?
    requires r1.workload == r2.workload && !Ungrouped(r1.workload, shownRuns)
    ensures Grouped([r1, r2], shownRuns) ==
      [Draft(r1.workload, Points(r1) + Points(r2), [Stripped(r1), Stripped(r2)])]
  {
    assert SeriesKey(r1, shownRuns) == r1.workload == SeriesKey(r2, shownRuns);
    SameKeyMerges(r1, r2, shownRuns);
    assert [r1] + [r2] == [r1, r2];
    assert [Stripped(r1)] + [Stripped(r2)] == [Stripped(r1), Stripped(r2)];
  }
}
