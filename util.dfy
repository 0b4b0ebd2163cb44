/**
 * Small sequence and string helpers that stand for the JavaScript library
 * behaviour the chart code relies on: insertion-ordered `Set`s, `indexOf`,
 * `substring`, and the decimal rendering of integers.
 */
module Util {

  datatype Option<+T> = None | Some(value: T)

  /** No element occurs twice. */
  predicate NoDup<T(==)>(s: seq<T>) {
    forall i, j :: 0 <= i < j < |s| ==> s[i] != s[j]
  }

  /**
   * The distinct elements of `s` in order of first appearance: what
   * `[...new Set(s)]` yields in JavaScript.
   */
  function Dedup<T(==)>(s: seq<T>): (r: seq<T>)
    ensures |r| <= |s|
  {
    if s == [] then []
    else
      var d := Dedup(s[..|s| - 1]);
      assert s == s[..|s| - 1] + [s[|s| - 1]];
      if s[|s| - 1] in d then d else d + [s[|s| - 1]]
  }

  lemma {:induction false} DedupMembership<T>(s: seq<T>, x: T)
    ensures x in Dedup(s) <==> x in s
  {
    if s != [] {
      DedupMembership(s[..|s| - 1], x);
      assert s == s[..|s| - 1] + [s[|s| - 1]];
    }
  }

  lemma {:induction false} DedupNoDup<T>(s: seq<T>)
    ensures NoDup(Dedup(s))
  {
    if s != [] {
      DedupNoDup(s[..|s| - 1]);
    }
  }

  /** The distinct list is as long as the set of elements: `Set.prototype.size`. */
  lemma {:induction false} DedupCount<T>(s: seq<T>)
    ensures |Dedup(s)| == |set x | x in s|
  {
    if s != [] {
      var init := s[..|s| - 1];
      DedupCount(init);
      DedupMembership(init, s[|s| - 1]);
      assert s == init + [s[|s| - 1]];
      assert (set x | x in s) == (set x | x in init) + {s[|s| - 1]};
    }
  }

  /** `Set.prototype.add` on an insertion-ordered set held as a sequence. */
  function SetAdd<T(==)>(set_: seq<T>, x: T): (r: seq<T>)
    ensures x in r
    ensures x in set_ ==> r == set_
    ensures x !in set_ ==> |r| == |set_| + 1 && r[..|set_|] == set_ && r[|set_|] == x
  {
    if x in set_ then set_ else set_ + [x]
  }

  /** Adding elements one by one to an empty insertion-ordered set yields their distinct list. */
  lemma DedupSnoc<T>(s: seq<T>, x: T)
    ensures Dedup(s + [x]) == SetAdd(Dedup(s), x)
  {
    assert (s + [x])[..|s + [x]| - 1] == s;
  }

  /** A prefix one longer is the prefix plus the next element. */
  lemma TakeSnoc<T>(s: seq<T>, i: nat)
    requires i < |s|
    ensures s[..i + 1] == s[..i] + [s[i]]
  {
  }

  /** Position of the first occurrence of `x` in `s`. */
  function FirstIndex<T(==)>(s: seq<T>, x: T): (k: nat)
    requires x in s
    ensures k < |s| && s[k] == x && x !in s[..k]
  {
    if s[0] == x then 0 else 1 + FirstIndex(s[1..], x)
  }

  /** Two prefixes agree on the first occurrence of anything they both contain. */
  lemma {:induction false} FirstIndexPrefix<T>(s: seq<T>, n: nat, x: T)
    requires n <= |s| && x in s[..n]
    ensures FirstIndex(s[..n], x) == FirstIndex(s, x)
  {
    if s[0] != x {
      assert s[1..][..n - 1] == s[..n][1..];
      FirstIndexPrefix(s[1..], n - 1, x);
    }
  }

  /**
   * The distinct elements come out in order of first appearance: of two
   * listed elements, the one listed earlier occurs earlier in `s`.
   */
  lemma {:induction false} DedupFirstAppearance<T>(s: seq<T>, i: nat, j: nat)
    requires i < j < |Dedup(s)|
    ensures Dedup(s)[i] in s && Dedup(s)[j] in s
    ensures FirstIndex(s, Dedup(s)[i]) < FirstIndex(s, Dedup(s)[j])
  {
    DedupMembership(s, Dedup(s)[i]);
    DedupMembership(s, Dedup(s)[j]);
    var n := |s| - 1;
    var p := s[..n];
    assert s == p + [s[n]];
    var d := Dedup(p);
    DedupMembership(p, d[i]);
    if j < |d| {
      DedupFirstAppearance(p, i, j);
      FirstIndexPrefix(s, n, d[i]);
      FirstIndexPrefix(s, n, d[j]);
    } else {
      // Dedup(s)[j] is the new last element s[n], absent from p
      assert Dedup(s)[j] == s[n] && s[n] !in d;
      DedupMembership(p, s[n]);
      FirstIndexPrefix(s, n, d[i]);
      assert FirstIndex(s, s[n]) == n by {
        assert forall m :: 0 <= m < n ==> s[m] == p[m];
      }
    }
  }

  /** JavaScript `Array.prototype.indexOf` / `String.prototype.indexOf` for one element. */
  function IndexOf<T(==)>(s: seq<T>, x: T): (k: int)
    ensures -1 <= k < |s|
    ensures k == -1 <==> x !in s
    ensures k >= 0 ==> s[k] == x && x !in s[..k]
  {
    if x in s then FirstIndex(s, x) else -1
  }

  /**
   * JavaScript `String.prototype.substring(start, end)`: both bounds are
   * clamped to [0, |s|] and swapped when the start exceeds the end.
   */
  function Substring(s: string, start: int, end: int): (r: string)
    ensures |r| <= |s|
    ensures 0 <= start <= end <= |s| ==> r == s[start..end]
    ensures end <= 0 && start <= 0 ==> r == ""
  {
    var a := Clamp(start, |s|);
    var b := Clamp(end, |s|);
    if a <= b then s[a..b] else s[b..a]
  }

  function Clamp(x: int, n: nat): (r: nat)
    ensures r <= n
    ensures 0 <= x <= n ==> r == x
  {
    if x < 0 then 0 else if x > n then n else x
  }

  predicate IsDigit(c: char) {
    '0' <= c <= '9'
  }

  function DigitChar(d: nat): (c: char)
    requires d < 10
    ensures IsDigit(c)
  {
    ('0' as int + d) as char
  }

  function DigitValue(c: char): (d: nat)
    requires IsDigit(c)
    ensures d < 10
    ensures DigitChar(d) == c
    ensures forall e :: 0 <= e < 10 && DigitChar(e) == c ==> e == d
  {
    (c as int - '0' as int)
  }

  /** The decimal text of a natural number, as JavaScript's string conversion of an integer. */
  function NatToString(n: nat): (r: string)
    ensures |r| >= 1
    ensures forall i :: 0 <= i < |r| ==> IsDigit(r[i])
    ensures n < 10 <==> |r| == 1
  {
    if n < 10 then [DigitChar(n)] else NatToString(n / 10) + [DigitChar(n % 10)]
  }

  /** Reads a run of decimal digits back as a number. */
  function ParseNat(s: string): (n: nat)
    requires forall i :: 0 <= i < |s| ==> IsDigit(s[i])
  {
    if s == [] then 0 else ParseNat(s[..|s| - 1]) * 10 + DigitValue(s[|s| - 1])
  }

  lemma {:induction false} ParseNatToString(n: nat)
    ensures ParseNat(NatToString(n)) == n
  {
    var r := NatToString(n);
    if n >= 10 {
      ParseNatToString(n / 10);
      assert r[..|r| - 1] == NatToString(n / 10);
      assert DigitValue(r[|r| - 1]) == n % 10;
    } else {
      assert r[..0] == [];
      assert DigitValue(r[0]) == n;
    }
  }

  /** Two-digit, zero-padded decimal text of a number below 100. */
  function Pad2(n: nat): (r: string)
    requires n < 100
    ensures |r| == 2 && IsDigit(r[0]) && IsDigit(r[1])
  {
    if n < 10 then "0" + NatToString(n) else NatToString(n)
  }

  lemma Pad2Value(n: nat)
    requires n < 100
    ensures ParseNat(Pad2(n)) == n
  {
    var r := Pad2(n);
    assert r[..1][..0] == [];
    assert r[..|r| - 1] == r[..1];
    if n < 10 {
      assert r[0] == '0' && r[1] == DigitChar(n);
      assert DigitValue(r[0]) == 0;
      assert ParseNat(r[..1]) == 0;
      assert DigitValue(r[1]) == n;
    } else {
      assert NatToString(n / 10) == [DigitChar(n / 10)];
      assert r[0] == DigitChar(n / 10) && r[1] == DigitChar(n % 10);
    }
  }
}
