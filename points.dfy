/**
 * The per-series point transformations of `generateSeries` in
 * src/components/Chart.js: sorting by timestamp, rebasing to elapsed time,
 * and the exponential moving average of `calcEMA`.
 */
module ChartPoints {
  import opened Runs

  // ---------------------------------------------------------------------
  // Sorting: `series.data.sort((a, b) => a[0] - b[0])`
  // ---------------------------------------------------------------------

  predicate SortedByX(s: seq<XY>) {
    forall i, j :: 0 <= i < j < |s| ==> s[i].x <= s[j].x
  }

  /** The points of `s` whose x equals `t`, in order. */
  function AtX(s: seq<XY>, t: int): seq<XY> {
    if s == [] then []
    else (if s[0].x == t then [s[0]] else []) + AtX(s[1..], t)
  }

  /** Puts `p` after every point of a sorted `s` whose x is at most `p.x`. */
  function InsertByX(s: seq<XY>, p: XY): seq<XY> {
    if s == [] then [p]
    else if p.x < s[0].x then [p] + s
    else [s[0]] + InsertByX(s[1..], p)
  }

  /**
   * The stable sort by x that the JavaScript engine performs (ECMAScript
   * requires `Array.prototype.sort` to be stable), as insertion sort.
   */
  function SortByX(s: seq<XY>): seq<XY> {
    if s == [] then []
    else InsertByX(SortByX(s[..|s| - 1]), s[|s| - 1])
  }

  lemma {:induction false} InsertLowerBound(s: seq<XY>, p: XY, bound: int)
    requires forall k :: 0 <= k < |s| ==> s[k].x >= bound
    requires p.x >= bound
    ensures forall k :: 0 <= k < |InsertByX(s, p)| ==> InsertByX(s, p)[k].x >= bound
  {
    if s != [] && p.x >= s[0].x {
      InsertLowerBound(s[1..], p, bound);
    }
  }

  lemma {:induction false} InsertSorted(s: seq<XY>, p: XY)
    requires SortedByX(s)
    ensures SortedByX(InsertByX(s, p))
  {
    if s != [] && p.x >= s[0].x {
      InsertSorted(s[1..], p);
      InsertLowerBound(s[1..], p, s[0].x);
    }
  }

  lemma {:induction false} InsertMultiset(s: seq<XY>, p: XY)
    ensures multiset(InsertByX(s, p)) == multiset(s) + multiset{p}
    ensures |InsertByX(s, p)| == |s| + 1
  {
    if s != [] && p.x >= s[0].x {
      InsertMultiset(s[1..], p);
      assert s == [s[0]] + s[1..];
    }
  }

  lemma {:induction false} AtXConcat(a: seq<XY>, b: seq<XY>, t: int)
    ensures AtX(a + b, t) == AtX(a, t) + AtX(b, t)
  {
    if a != [] {
      AtXConcat(a[1..], b, t);
      assert (a + b)[1..] == a[1..] + b;
    } else {
      assert a + b == b;
    }
  }

  lemma {:induction false} AtXAbove(s: seq<XY>, t: int)
    requires forall k :: 0 <= k < |s| ==> s[k].x > t
    ensures AtX(s, t) == []
  {
    if s != [] {
      AtXAbove(s[1..], t);
    }
  }

  lemma AtXSingle(p: XY, t: int)
    ensures AtX([p], t) == if p.x == t then [p] else []
  {
    assert [p][1..] == [];
  }

  lemma {:induction false} InsertAtX(s: seq<XY>, p: XY, t: int)
    requires SortedByX(s)
    ensures AtX(InsertByX(s, p), t) == AtX(s, t) + (if p.x == t then [p] else [])
  {
    if s == [] {
    } else if p.x < s[0].x {
      AtXConcat([p], s, t);
      AtXSingle(p, t);
      if p.x == t {
        AtXAbove(s, t);
      }
    } else {
      InsertAtX(s[1..], p, t);
      AtXConcat([s[0]], InsertByX(s[1..], p), t);
      AtXConcat([s[0]], s[1..], t);
      assert [s[0]] + s[1..] == s;
    }
  }

  /** The sort orders the points by x and keeps every point: a permutation. */
  lemma {:induction false} SortByXSorted(s: seq<XY>)
    ensures SortedByX(SortByX(s))
    ensures multiset(SortByX(s)) == multiset(s)
    ensures |SortByX(s)| == |s|
  {
    if s != [] {
      var init := s[..|s| - 1];
      SortByXSorted(init);
      InsertSorted(SortByX(init), s[|s| - 1]);
      InsertMultiset(SortByX(init), s[|s| - 1]);
      assert s == init + [s[|s| - 1]];
    }
  }

  /** The sort is stable: points with equal x keep their input order. */
  lemma {:induction false} SortByXStable(s: seq<XY>, t: int)
    ensures AtX(SortByX(s), t) == AtX(s, t)
  {
    if s != [] {
      var init := s[..|s| - 1];
      var p := s[|s| - 1];
      SortByXStable(init, t);
      SortByXSorted(init);
      InsertAtX(SortByX(init), p, t);
      assert s == init + [p];
      AtXConcat(init, [p], t);
      AtXSingle(p, t);
    }
  }

  /** Where the insertion loop stops, inserting there is `InsertByX`. */
  lemma {:induction false} InsertAt(s: seq<XY>, p: XY, j: nat)
    requires j <= |s|
    requires forall k :: 0 <= k < j ==> s[k].x <= p.x
    requires j == |s| || s[j].x > p.x
    ensures InsertByX(s, p) == s[..j] + [p] + s[j..]
  {
    if j == 0 {
      assert s[..0] + [p] + s[0..] == [p] + s;
    } else {
      InsertAt(s[1..], p, j - 1);
      assert s[..j] == [s[0]] + s[1..][..j - 1];
      assert s[j..] == s[1..][j - 1..];
    }
  }

  /**
   * Sorts a series' points by timestamp, inserting each point after the
   * already-sorted points whose timestamp is not larger.
   */
  method SortPoints(pts: seq<XY>) returns (r: seq<XY>)
    ensures r == SortByX(pts)
    ensures SortedByX(r) && multiset(r) == multiset(pts)
    ensures forall t :: AtX(r, t) == AtX(pts, t)
  {
    r := [];
    var i := 0;
    while i < |pts|
      invariant 0 <= i <= |pts|
      invariant r == SortByX(pts[..i])
    {
      var p := pts[i];
      var j := 0;
      while j < |r| && r[j].x <= p.x
        invariant 0 <= j <= |r|
        invariant forall k :: 0 <= k < j ==> r[k].x <= p.x
      {
        j := j + 1;
      }
      InsertAt(r, p, j);
      r := r[..j] + [p] + r[j..];
      assert pts[..i + 1][..i] == pts[..i];
      assert SortByX(pts[..i + 1]) == InsertByX(SortByX(pts[..i]), p);
      i := i + 1;
    }
    assert pts[..i] == pts;
    SortByXSorted(pts);
    SortByXStableAll(pts);
  }

  lemma SortByXStableAll(s: seq<XY>)
    ensures forall t :: AtX(SortByX(s), t) == AtX(s, t)
  {
    forall t | true ensures AtX(SortByX(s), t) == AtX(s, t) {
      SortByXStable(s, t);
    }
  }

  /** Sorting moves points but keeps the multiset of values. */
  lemma {:induction false} InsertValues(s: seq<XY>, p: XY)
    ensures multiset(Ys(InsertByX(s, p))) == multiset(Ys(s)) + multiset{p.y}
  {
    if s != [] {
      assert Ys(s) == [s[0].y] + Ys(s[1..]);
      if p.x >= s[0].x {
        InsertValues(s[1..], p);
        assert Ys(InsertByX(s, p)) == [s[0].y] + Ys(InsertByX(s[1..], p));
      } else {
        assert Ys(InsertByX(s, p)) == [p.y] + Ys(s);
      }
    }
  }

  lemma {:induction false} SortByXValues(s: seq<XY>)
    ensures multiset(Ys(SortByX(s))) == multiset(Ys(s))
  {
    if s != [] {
      var init := s[..|s| - 1];
      SortByXValues(init);
      InsertValues(SortByX(init), s[|s| - 1]);
      assert Ys(s) == Ys(init) + [s[|s| - 1].y];
    }
  }

  // ---------------------------------------------------------------------
  // Rebasing: subtract the first (earliest) timestamp from every point
  // ---------------------------------------------------------------------

  function Rebased(s: seq<XY>): (r: seq<XY>)
    requires |s| > 0
    ensures |r| == |s|
  {
    seq(|s|, i requires 0 <= i < |s| => XY(s[i].x - s[0].x, s[i].y))
  }

  /** On sorted points, rebasing keeps the order, starts at 0 and never goes negative. */
  lemma RebasedSorted(s: seq<XY>)
    requires |s| > 0 && SortedByX(s)
    ensures SortedByX(Rebased(s))
    ensures Rebased(s)[0].x == 0
    ensures forall i :: 0 <= i < |s| ==> Rebased(s)[i].x >= 0 && Rebased(s)[i].y == s[i].y
  {
  }

  /**
   * `earliestTime = series.data[0][0]` followed by the `forEach` that
   * overwrites each point's timestamp with its distance from it.
   */
  method RebasePoints(s: seq<XY>) returns (r: seq<XY>)
    requires |s| > 0
    ensures r == Rebased(s)
    ensures forall i :: 0 <= i < |s| ==> r[i].y == s[i].y && r[i].x + s[0].x == s[i].x
    ensures SortedByX(s) ==> SortedByX(r) && r[0].x == 0 && forall i :: 0 <= i < |r| ==> r[i].x >= 0
  {
    var earliestTime := s[0].x;
    r := s;
    var i := 0;
    while i < |r|
      invariant 0 <= i <= |r| == |s|
      invariant forall k :: 0 <= k < i ==> r[k] == XY(s[k].x - earliestTime, s[k].y)
      invariant forall k :: i <= k < |r| ==> r[k] == s[k]
    {
      r := r[i := XY(r[i].x - earliestTime, r[i].y)];
      i := i + 1;
    }
  }

  // ---------------------------------------------------------------------
  // Smoothing: calcEMA
  // ---------------------------------------------------------------------

  /**
   * `x.toFixed(4) * 1`: rounding to four decimals, halves away from zero.
   * The binary floating-point representation is not modelled.
   */
  function Round4(v: real): real {
    if v >= 0.0 then ((v * 10000.0 + 0.5).Floor as real) / 10000.0
    else -((((-v) * 10000.0 + 0.5).Floor as real) / 10000.0)
  }

  /** The rounding moves a value by at most half of the last decimal. */
  lemma Round4Close(v: real)
    ensures -0.00005 <= Round4(v) - v <= 0.00005
  {
    var a := if v >= 0.0 then v else -v;
    var f := (a * 10000.0 + 0.5).Floor;
    assert f as real <= a * 10000.0 + 0.5 < f as real + 1.0;
    assert -0.00005 < (f as real) / 10000.0 - a <= 0.00005;
  }

  lemma Round4NonNegMonotone(a: real, b: real)
    requires 0.0 <= a <= b
    ensures 0.0 <= Round4(a) <= Round4(b)
  {
    var fa := (a * 10000.0 + 0.5).Floor;
    var fb := (b * 10000.0 + 0.5).Floor;
    assert fa as real <= a * 10000.0 + 0.5 < fa as real + 1.0;
    assert fb as real <= b * 10000.0 + 0.5 < fb as real + 1.0;
    assert fa <= fb;
    assert fa >= 0;
  }

  /** The rounding never reverses the order of two values. */
  lemma Round4Monotone(a: real, b: real)
    requires a <= b
    ensures Round4(a) <= Round4(b)
  {
    if 0.0 <= a {
      Round4NonNegMonotone(a, b);
    } else if b < 0.0 {
      Round4NonNegMonotone(-b, -a);
    } else {
      Round4NonNegMonotone(0.0, -a);
      Round4NonNegMonotone(0.0, b);
    }
  }

  /** The new value weighted by 1 - w plus the previous output weighted by w. */
  function Blend(y: real, prev: real, w: real): real {
    y * (1.0 - w) + prev * w
  }

  /** One filter step: the blend rounded to four decimals (`toFixed(4) * 1`). */
  function EmaStep(y: real, prev: real, w: real): real {
    Round4(Blend(y, prev, w))
  }

  /** The smoothed values: the first input unchanged, then one filter step per input. */
  function EmaValues(ys: seq<real>, w: real): (r: seq<real>)
    requires |ys| > 0
    ensures |r| == |ys| && r[0] == ys[0]
  {
    if |ys| == 1 then [ys[0]]
    else
      var prev := EmaValues(ys[..|ys| - 1], w);
      prev + [EmaStep(ys[|ys| - 1], prev[|ys| - 2], w)]
  }

  /** Smoothing one more input appends one filter step. */
  lemma EmaValuesSnoc(ys: seq<real>, w: real, i: nat)
    requires 1 <= i < |ys|
    ensures EmaValues(ys[..i + 1], w) ==
      EmaValues(ys[..i], w) + [EmaStep(ys[i], EmaValues(ys[..i], w)[i - 1], w)]
  {
    assert ys[..i + 1][..i] == ys[..i];
  }

  /** Every output after the first is the filter step of its input and the previous output. */
  lemma {:induction false} EmaValuesRecurrence(ys: seq<real>, w: real, i: nat)
    requires 1 <= i < |ys|
    ensures EmaValues(ys, w)[i] == EmaStep(ys[i], EmaValues(ys, w)[i - 1], w)
  {
    var n := |ys| - 1;
    if i < n {
      EmaValuesRecurrence(ys[..n], w, i);
      assert EmaValues(ys, w)[..n] == EmaValues(ys[..n], w);
    }
  }

  function Ys(s: seq<XY>): (ys: seq<real>)
    ensures |ys| == |s|
  {
    seq(|s|, i requires 0 <= i < |s| => s[i].y)
  }

  function SmoothingWeight(smoothing: int): real {
    smoothing as real / 100.0
  }

  /** The smoothed series: same timestamps, smoothed values. */
  function Ema(s: seq<XY>, smoothing: int): (r: seq<XY>)
    requires |s| > 0
    ensures |r| == |s|
  {
    var ema := EmaValues(Ys(s), SmoothingWeight(smoothing));
    seq(|s|, i requires 0 <= i < |s| => XY(s[i].x, ema[i]))
  }

  /** The smoothed series keeps every timestamp and the first value, and follows the filter recurrence. */
  lemma EmaCharacterization(s: seq<XY>, smoothing: int)
    requires |s| > 0
    ensures forall i :: 0 <= i < |s| ==> Ema(s, smoothing)[i].x == s[i].x
    ensures Ema(s, smoothing)[0].y == s[0].y
    ensures forall i :: 1 <= i < |s| ==>
      Ema(s, smoothing)[i].y == EmaStep(s[i].y, Ema(s, smoothing)[i - 1].y, SmoothingWeight(smoothing))
  {
    var w := SmoothingWeight(smoothing);
    var ys := Ys(s);
    var r := Ema(s, smoothing);
    forall i | 1 <= i < |s|
      ensures r[i].y == EmaStep(s[i].y, r[i - 1].y, w)
    {
      EmaValuesRecurrence(ys, w, i);
      assert ys[i] == s[i].y;
      assert r[i].y == EmaStep(ys[i], EmaValues(ys, w)[i - 1], w);
      assert r[i - 1].y == EmaValues(ys, w)[i - 1];
    }
  }

  /**
   * `calcEMA`: split the points into timestamps and values, smooth the
   * values with weight `smoothing / 100`, and zip them back together.
   */
  method CalcEMA(series: seq<XY>, smoothingWeight: int) returns (emaSeries: seq<XY>)
    requires |series| > 0
    ensures emaSeries == Ema(series, smoothingWeight)
  {
    var smoothness := smoothingWeight as real / 100.0;
    var time := seq(|series|, k requires 0 <= k < |series| => series[k].x);
    var data := Ys(series);
    var emaData := SmoothValues(data, smoothness);
    emaSeries := [];
    var i := 0;
    while i < |emaData|
      invariant 0 <= i <= |emaData| == |series|
      invariant |emaSeries| == i
      invariant forall k :: 0 <= k < i ==> emaSeries[k] == XY(time[k], emaData[k])
    {
      emaSeries := emaSeries + [XY(time[i], emaData[i])];
      i := i + 1;
    }
  }

  /** The smoothing loop of `calcEMA`: the first value as it is, then one filter step per value. */
  method SmoothValues(data: seq<real>, smoothness: real) returns (emaData: seq<real>)
    requires |data| > 0
    ensures emaData == EmaValues(data, smoothness)
  {
    emaData := [data[0]];
    var i := 1;
    while i < |data|
      invariant 1 <= i <= |data|
      invariant emaData == EmaValues(data[..i], smoothness)
    {
      var emaResult := Blend(data[i], emaData[i - 1], smoothness);
      EmaValuesSnoc(data, smoothness, i);
      emaData := emaData + [Round4(emaResult)];
      i := i + 1;
    }
    assert data[..i] == data;
  }


  lemma EmaStepFixedPoint(c: real, w: real)
    requires Round4(c) == c
    ensures EmaStep(c, c, w) == c
  {
    assert c * (1.0 - w) + c * w == c;
  }

  /**
   * A constant series whose value already has at most four decimals is left
   * unchanged by smoothing, whatever the weight.
   */
  lemma {:induction false} EmaConstant(ys: seq<real>, w: real, c: real)
    requires |ys| > 0 && Round4(c) == c
    requires forall i :: 0 <= i < |ys| ==> ys[i] == c
    ensures forall i :: 0 <= i < |ys| ==> EmaValues(ys, w)[i] == c
  {
    if |ys| > 1 {
      var n := |ys| - 1;
      EmaConstant(ys[..n], w, c);
      var prev := EmaValues(ys[..n], w);
      assert EmaValues(ys, w) == prev + [EmaStep(ys[n], prev[n - 1], w)];
      assert prev[n - 1] == c && ys[n] == c;
      var last := EmaStep(ys[n], prev[n - 1], w);
      EmaStepFixedPoint(c, w);
      assert last == c;
      forall i | 0 <= i < |ys| ensures EmaValues(ys, w)[i] == c {
        if i < n {
          assert EmaValues(ys, w)[i] == prev[i];
        } else {
          assert EmaValues(ys, w)[i] == last;
        }
      }
    }
  }

  lemma MulNonNeg(a: real, b: real)
    requires a >= 0.0 && b >= 0.0
    ensures a * b >= 0.0
  {
  }

  /** A weighted mean of two values at least `lo` is at least `lo`. */
  lemma MeanAbove(y: real, prev: real, w: real, lo: real)
    requires 0.0 <= w <= 1.0 && lo <= y && lo <= prev
    ensures lo <= Blend(y, prev, w)
  {
    assert Blend(y, prev, w) - lo == (y - lo) * (1.0 - w) + (prev - lo) * w;
    MulNonNeg(y - lo, 1.0 - w);
    MulNonNeg(prev - lo, w);
  }

  /** A weighted mean of two values at most `hi` is at most `hi`. */
  lemma MeanBelow(y: real, prev: real, w: real, hi: real)
    requires 0.0 <= w <= 1.0 && y <= hi && prev <= hi
    ensures Blend(y, prev, w) <= hi
  {
    assert hi - Blend(y, prev, w) == (hi - y) * (1.0 - w) + (hi - prev) * w;
    MulNonNeg(hi - y, 1.0 - w);
    MulNonNeg(hi - prev, w);
  }

  lemma EmaStepWithinBounds(y: real, prev: real, w: real, lo: real, hi: real)
    requires 0.0 <= w <= 1.0
    requires Round4(lo) == lo && Round4(hi) == hi
    requires lo <= y <= hi && lo <= prev <= hi
    ensures lo <= EmaStep(y, prev, w) <= hi
  {
    var v := Blend(y, prev, w);
    MeanAbove(y, prev, w, lo);
    MeanBelow(y, prev, w, hi);
    Round4Monotone(lo, v);
    Round4Monotone(v, hi);
  }

  /**
   * With a weight between 0 and 100, the smoothed values stay within any
   * four-decimal bounds of the input values.
   */
  lemma {:induction false} EmaWithinBounds(ys: seq<real>, w: real, lo: real, hi: real)
    requires |ys| > 0 && 0.0 <= w <= 1.0
    requires Round4(lo) == lo && Round4(hi) == hi
    requires forall i :: 0 <= i < |ys| ==> lo <= ys[i] <= hi
    ensures forall i :: 0 <= i < |ys| ==> lo <= EmaValues(ys, w)[i] <= hi
  {
    if |ys| > 1 {
      var n := |ys| - 1;
      EmaWithinBounds(ys[..n], w, lo, hi);
      var prevs := EmaValues(ys[..n], w);
      assert EmaValues(ys, w) == prevs + [EmaStep(ys[n], prevs[n - 1], w)];
      EmaStepWithinBounds(ys[n], prevs[n - 1], w, lo, hi);
      forall i | 0 <= i < |ys| ensures lo <= EmaValues(ys, w)[i] <= hi {
        if i < n {
          assert EmaValues(ys, w)[i] == prevs[i];
        }
      }
    }
  }
}
