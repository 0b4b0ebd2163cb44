/**
 * Text produced for the chart in src/components/Chart.js: the elapsed-time
 * text of `milliToMinsSecs` and the run metadata listed by
 * `formatTooltip`.
 */
module ChartFormat {
  import opened Util
  import opened Runs

  const SecondMs := 1000
  const MinuteMs := 60000
  const HourMs := 3600000
  const DayMs := 86400000

  /**
   * The instants whose ISO-8601 text has a four-digit year (0000-01-01 to
   * 9999-12-31); outside them `toISOString` switches to six-digit years.
   */
  const MinIsoMs := -62167219200000
  const MaxIsoMs := 253402300799999

  /** `Math.trunc(a / b)` for a positive divisor. */
  function TruncDiv(a: int, b: int): (q: int)
    requires b > 0
    ensures a >= 0 ==> q == a / b
    ensures a < 0 ==> q <= 0
  {
    if a >= 0 then a / b else -((-a) / b)
  }

  /**
   * `new Date(ms).toISOString().slice(11, 19)`: the time of day, `HH:MM:SS`,
   * of the instant `ms` milliseconds after the epoch.
   */
  function Clock(ms: int): string {
    var t := ms % DayMs;
    Pad2(t / HourMs) + ":" + Pad2(t % HourMs / MinuteMs) + ":" + Pad2(t % MinuteMs / SecondMs)
  }

  /** `milliToMinsSecs`: the elapsed-time text used on the x axis and in tooltips. */
  function MilliToMinsSecs(ms: int): (text: string)
    requires MinIsoMs <= ms <= MaxIsoMs
    ensures |text| >= 8 && text[|text| - 8..] == Clock(ms)
    ensures ms < DayMs ==> text == Clock(ms)
  {
    var numOfDays := TruncDiv(ms, DayMs);
    if numOfDays > 0 then NatToString(numOfDays) + "d " + Clock(ms) else Clock(ms)
  }

  predicate AllDigits(s: string) {
    forall i :: 0 <= i < |s| ==> IsDigit(s[i])
  }

  /** Whole hours and the rest of a time of day. */
  lemma SplitHours(t: int)
    requires 0 <= t < DayMs
    ensures t / HourMs < 24 && t == t / HourMs * HourMs + t % HourMs
  {
  }

  /** Adding whole minutes does not change the time past the minute. */
  lemma ShiftMinutes(x: int, k: int)
    ensures (x + k * MinuteMs) % MinuteMs == x % MinuteMs
  {
  }

  /** Whole minutes and the rest of the time past the hour. */
  lemma SplitMinutes(t: int)
    requires 0 <= t
    ensures t % HourMs / MinuteMs < 60 && t % HourMs == t % HourMs / MinuteMs * MinuteMs + t % MinuteMs
  {
    var u := t % HourMs;
    assert u == t + (-(t / HourMs) * 60) * MinuteMs;
    ShiftMinutes(t, -(t / HourMs) * 60);
    assert u == u / MinuteMs * MinuteMs + u % MinuteMs;
  }

  /** Adding whole seconds does not change the milliseconds past the second. */
  lemma ShiftSeconds(x: int, k: int)
    ensures (x + k * SecondMs) % SecondMs == x % SecondMs
  {
  }

  /** Whole seconds and the milliseconds of the time past the minute. */
  lemma SplitSeconds(ms: int)
    ensures ms % DayMs % MinuteMs / SecondMs < 60
    ensures ms % DayMs % MinuteMs == ms % DayMs % MinuteMs / SecondMs * SecondMs + ms % SecondMs
  {
    var t := ms % DayMs;
    var u := t % MinuteMs;
    assert t == ms + (-(ms / DayMs) * 86400) * SecondMs;
    ShiftSeconds(ms, -(ms / DayMs) * 86400);
    assert u == t + (-(t / MinuteMs) * 60) * SecondMs;
    ShiftSeconds(t, -(t / MinuteMs) * 60);
    assert u == u / SecondMs * SecondMs + u % SecondMs;
  }

  lemma Pad2Digits(n: nat)
    requires n < 100
    ensures AllDigits(Pad2(n))
  {
    var r := Pad2(n);
    forall i | 0 <= i < |r| ensures IsDigit(r[i]) {
    }
  }

  /** The three fields of the clock text are two-digit renderings of hours, minutes and seconds. */
  lemma ClockText(ms: int)
    ensures var t := ms % DayMs;
      t / HourMs < 24 && t % HourMs / MinuteMs < 60 && t % MinuteMs / SecondMs < 60
      && |Clock(ms)| == 8 && Clock(ms)[2] == ':' && Clock(ms)[5] == ':'
      && Clock(ms)[0..2] == Pad2(t / HourMs) && Clock(ms)[3..5] == Pad2(t % HourMs / MinuteMs)
      && Clock(ms)[6..8] == Pad2(t % MinuteMs / SecondMs)
  {
    var t := ms % DayMs;
    SplitHours(t);
    SplitMinutes(t);
    SplitSeconds(ms);
    var c := Clock(ms);
    assert c == Pad2(t / HourMs) + ":" + Pad2(t % HourMs / MinuteMs) + ":" + Pad2(t % MinuteMs / SecondMs);
  }

  /**
   * The clock text is eight characters `HH:MM:SS` whose fields read back as
   * hours below 24, minutes and seconds below 60, and together give the
   * milliseconds into the day up to the dropped milliseconds.
   */
  lemma ClockFields(ms: int)
    ensures |Clock(ms)| == 8 && Clock(ms)[2] == ':' && Clock(ms)[5] == ':'
    ensures AllDigits(Clock(ms)[0..2]) && AllDigits(Clock(ms)[3..5]) && AllDigits(Clock(ms)[6..8])
    ensures ParseNat(Clock(ms)[0..2]) < 24
    ensures ParseNat(Clock(ms)[3..5]) < 60
    ensures ParseNat(Clock(ms)[6..8]) < 60
    ensures ParseNat(Clock(ms)[0..2]) * HourMs + ParseNat(Clock(ms)[3..5]) * MinuteMs
            + ParseNat(Clock(ms)[6..8]) * SecondMs + ms % SecondMs == ms % DayMs
  {
    var t := ms % DayMs;
    var h, m, s := t / HourMs, t % HourMs / MinuteMs, t % MinuteMs / SecondMs;
    ClockText(ms);
    Pad2Value(h);
    Pad2Value(m);
    Pad2Value(s);
    Pad2Digits(h);
    Pad2Digits(m);
    Pad2Digits(s);
    SplitHours(t);
    SplitMinutes(t);
    SplitSeconds(ms);
  }

  /**
   * From one whole day on, the text is `"<days>d "` followed by the clock
   * text, and the days read back as the whole days elapsed.
   */
  lemma MilliToMinsSecsDays(ms: int)
    requires DayMs <= ms <= MaxIsoMs
    ensures var text := MilliToMinsSecs(ms);
      var n := |text| - 8;
      n >= 3 && text[n..] == Clock(ms) && text[n - 2..n] == "d "
      && AllDigits(text[..n - 2]) && ParseNat(text[..n - 2]) == ms / DayMs
  {
    var days := NatToString(ms / DayMs);
    var clock := Clock(ms);
    assert |clock| == 8;
    var text := days + "d " + clock;
    assert MilliToMinsSecs(ms) == text;
    var n := |text| - 8;
    assert n == |days| + 2;
    assert text[..n - 2] == days;
    assert text[n - 2..n] == "d ";
    assert text[n..] == clock;
    ParseNatToString(ms / DayMs);
  }

  // ---------------------------------------------------------------------
  // Tooltip
  // ---------------------------------------------------------------------

  /** A labelled list of lines, e.g. "Model(s):" followed by one model per line. */
  datatype Block = Block(text: string, lines: seq<string>)

  /** The hover text of one point; the HTML markup around the parts is not modelled. */
  datatype Tooltip = Tooltip(
    seriesName: string, yTitle: string, y: real, xTitle: string, xLabel: string, details: seq<Block>)

  /** The metadata fields gathered into the tooltip's sets. */
  function LetterOf(run: Run): Option<string> { run.letter }
  function ModelOf(run: Run): string { run.model }
  function SourceOf(run: Run): string { run.source }
  function ParamsOf(run: Run): string { run.params }

  /** One metadata field of every run, in run order: what `runs.forEach(r => set.add(r.field))` visits. */
  function Column<T>(runs: seq<Run>, field: Run -> T): (r: seq<T>)
    ensures |r| == |runs|
    ensures forall i :: 0 <= i < |runs| ==> r[i] == field(runs[i])
  {
    seq(|runs|, i requires 0 <= i < |runs| => field(runs[i]))
  }

  /** `Array.prototype.join` prints a null letter as an empty line. */
  function LetterText(letter: Option<string>): string {
    match letter
    case None => ""
    case Some(l) => l
  }

  function LetterTexts(letters: seq<Option<string>>): (r: seq<string>)
    ensures |r| == |letters|
  {
    seq(|letters|, i requires 0 <= i < |letters| => LetterText(letters[i]))
  }

  /** The detailed part: distinct models, sources and params, then the distinct letters when the series merges several runs. */
  function DetailBlocks(runs: seq<Run>): seq<Block> {
    [Block("Model(s)", Dedup(Column(runs, ModelOf))),
     Block("Source(s)", Dedup(Column(runs, SourceOf))),
     Block("Param(s)", Dedup(Column(runs, ParamsOf)))]
    + (if |runs| > 1 then [Block("Run(s)", LetterTexts(Dedup(Column(runs, LetterOf))))] else [])
  }

  /**
   * `formatTooltip`: the series name, the value and the elapsed-time text,
   * followed, when the detailed tooltip is switched on, by the metadata of
   * the series' runs gathered into insertion-ordered sets.
   */
  method FormatTooltip(seriesName: string, yTitle: string, y: real, xTitle: string, x: int,
                       runs: seq<Run>, toShow: bool) returns (tooltip: Tooltip)
    requires MinIsoMs <= x <= MaxIsoMs
    ensures tooltip.seriesName == seriesName && tooltip.y == y && tooltip.yTitle == yTitle
    ensures tooltip.xTitle == xTitle && tooltip.xLabel == MilliToMinsSecs(x)
    ensures tooltip.details == if toShow then DetailBlocks(runs) else []
  {
    tooltip := Tooltip(seriesName, yTitle, y, xTitle, MilliToMinsSecs(x), []);
    if toShow {
      var letters: seq<Option<string>> := [];
      var models: seq<string> := [];
      var sources: seq<string> := [];
      var params: seq<string> := [];
      var i := 0;
      while i < |runs|
        invariant 0 <= i <= |runs|
        invariant letters == Dedup(Column(runs[..i], LetterOf))
        invariant models == Dedup(Column(runs[..i], ModelOf))
        invariant sources == Dedup(Column(runs[..i], SourceOf))
        invariant params == Dedup(Column(runs[..i], ParamsOf))
      {
        var run := runs[i];
        TakeSnoc(runs, i);
        ColumnStep(runs[..i], run, LetterOf);
        ColumnStep(runs[..i], run, ModelOf);
        ColumnStep(runs[..i], run, SourceOf);
        ColumnStep(runs[..i], run, ParamsOf);
        letters := SetAdd(letters, run.letter);
        models := SetAdd(models, run.model);
        sources := SetAdd(sources, run.source);
        params := SetAdd(params, run.params);
        i := i + 1;
      }
      assert runs[..i] == runs;
      var lettersBlock: seq<Block> := [];
      if |runs| > 1 {
        lettersBlock := [Block("Run(s)", LetterTexts(letters))];
      }
      tooltip := tooltip.(details :=
        [Block("Model(s)", models), Block("Source(s)", sources), Block("Param(s)", params)] + lettersBlock);
    }
  }

  /** One more run adds its field value to the insertion-ordered set of that field. */
  lemma ColumnStep<T>(runs: seq<Run>, run: Run, field: Run -> T)
    ensures Dedup(Column(runs + [run], field)) == SetAdd(Dedup(Column(runs, field)), field(run))
  {
    assert Column(runs + [run], field) == Column(runs, field) + [field(run)];
    DedupSnoc(Column(runs, field), field(run));
  }

  /** The distinct values of a field are exactly the values the runs carry, each once. */
  lemma ColumnListed<T>(runs: seq<Run>, field: Run -> T)
    ensures NoDup(Dedup(Column(runs, field)))
    ensures forall v :: v in Dedup(Column(runs, field)) <==> exists r :: r in runs && field(r) == v
  {
    var column := Column(runs, field);
    DedupNoDup(column);
    forall v | true ensures v in Dedup(column) <==> exists r :: r in runs && field(r) == v {
      DedupMembership(column, v);
      if v in column {
        var i :| 0 <= i < |runs| && column[i] == v;
        assert runs[i] in runs;
      }
      if exists r :: r in runs && field(r) == v {
        var r :| r in runs && field(r) == v;
        var j :| 0 <= j < |runs| && runs[j] == r;
        assert column[j] == v;
      }
    }
  }

  /** The letter lines are exactly the letter texts of the runs. */
  lemma LettersListed(runs: seq<Run>)
    ensures forall l :: l in LetterTexts(Dedup(Column(runs, LetterOf))) <==>
      exists r :: r in runs && LetterText(r.letter) == l
  {
    var letters := Dedup(Column(runs, LetterOf));
    forall l | true ensures l in LetterTexts(letters) <==> exists r :: r in runs && LetterText(r.letter) == l {
      if l in LetterTexts(letters) {
        var i :| 0 <= i < |letters| && LetterTexts(letters)[i] == l;
        DedupMembership(Column(runs, LetterOf), letters[i]);
        var j :| 0 <= j < |runs| && Column(runs, LetterOf)[j] == letters[i];
        assert runs[j] in runs;
      }
      if exists r :: r in runs && LetterText(r.letter) == l {
        var r :| r in runs && LetterText(r.letter) == l;
        var j :| 0 <= j < |runs| && runs[j] == r;
        assert Column(runs, LetterOf)[j] == r.letter;
        DedupMembership(Column(runs, LetterOf), r.letter);
        var i :| 0 <= i < |letters| && letters[i] == r.letter;
        assert LetterTexts(letters)[i] == l;
      }
    }
  }

  /**
   * Each metadata block lists every value of its field exactly once, and
   * the letters block appears exactly when the series merges several runs.
   */
  lemma DetailBlocksProperties(runs: seq<Run>)
    ensures |DetailBlocks(runs)| == if |runs| > 1 then 4 else 3
    ensures NoDup(DetailBlocks(runs)[0].lines) && NoDup(DetailBlocks(runs)[1].lines)
            && NoDup(DetailBlocks(runs)[2].lines)
    ensures forall m :: m in DetailBlocks(runs)[0].lines <==> exists r :: r in runs && r.model == m
    ensures forall s :: s in DetailBlocks(runs)[1].lines <==> exists r :: r in runs && r.source == s
    ensures forall p :: p in DetailBlocks(runs)[2].lines <==> exists r :: r in runs && r.params == p
    ensures |runs| > 1 ==> forall l :: l in DetailBlocks(runs)[3].lines <==>
      exists r :: r in runs && LetterText(r.letter) == l
  {
    ColumnListed(runs, ModelOf);
    ColumnListed(runs, SourceOf);
    ColumnListed(runs, ParamsOf);
    LettersListed(runs);
  }
}
