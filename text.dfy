/**
 * The pieces of Python's `str` behaviour the core relies on: `isspace`,
 * `strip`, the `in` substring test, `split(sep)` and `split(sep, 1)`.
 */
module Text {
  import opened Common

  /** Python's `str.isspace` for one character: the code points Python treats as whitespace. */
  predicate IsSpace(c: char)
  {
    var k := c as int;
    (9 <= k <= 13) || (28 <= k <= 32) || k == 0x85 || k == 0xA0 || k == 0x1680
    || (0x2000 <= k <= 0x200A) || k == 0x2028 || k == 0x2029 || k == 0x202F
    || k == 0x205F || k == 0x3000
  }

  /** `s.lstrip()`: drops the leading whitespace. */
  function TrimStart(s: string): (r: string)
    ensures |r| <= |s| && r == s[|s| - |r|..]
    ensures forall i :: 0 <= i < |s| - |r| ==> IsSpace(s[i])
    ensures r == [] || !IsSpace(r[0])
    decreases |s|
  {
    if |s| > 0 && IsSpace(s[0]) then TrimStart(s[1..]) else s
  }

  /** `s.rstrip()`: drops the trailing whitespace. */
  function TrimEnd(s: string): (r: string)
    ensures |r| <= |s| && r == s[..|r|]
    ensures forall i :: |r| <= i < |s| ==> IsSpace(s[i])
    ensures r == [] || !IsSpace(r[|r| - 1])
    decreases |s|
  {
    if |s| > 0 && IsSpace(s[|s| - 1]) then TrimEnd(s[..|s| - 1]) else s
  }

  /** `s.strip()`: the result is the infix of `s` left after removing whitespace at both ends. */
  function Strip(s: string): (r: string)
    ensures |r| <= |s|
    ensures r == [] || (!IsSpace(r[0]) && !IsSpace(r[|r| - 1]))
    ensures exists lo :: StrippedAt(s, r, lo)
  {
    var t := TrimStart(s);
    var r := TrimEnd(t);
    StrippedAtTrims(s, t, r);
    r
  }

  /** Trimming both ends leaves an infix with only whitespace around it. */
  lemma StrippedAtTrims(s: string, t: string, r: string)
    requires |t| <= |s| && t == s[|s| - |t|..] && forall i :: 0 <= i < |s| - |t| ==> IsSpace(s[i])
    requires |r| <= |t| && r == t[..|r|] && forall i :: |r| <= i < |t| ==> IsSpace(t[i])
    ensures StrippedAt(s, r, |s| - |t|)
  {
    var lo := |s| - |t|;
    assert r == s[lo..lo + |r|];
    forall i | lo + |r| <= i < |s|
      ensures IsSpace(s[i])
    {
      assert s[i] == t[i - lo];
    }
  }

  /** `r` sits at offset `lo` of `s` and everything of `s` around it is whitespace. */
  ghost predicate StrippedAt(s: string, r: string, lo: int)
  {
    && 0 <= lo && lo + |r| <= |s|
    && r == s[lo..lo + |r|]
    && (forall i :: 0 <= i < lo ==> IsSpace(s[i]))
    && (forall i :: lo + |r| <= i < |s| ==> IsSpace(s[i]))
  }

  /** A text that already starts and ends with non-space characters is its own strip. */
  lemma StripKeepsTrimmed(s: string)
    requires s == [] || (!IsSpace(s[0]) && !IsSpace(s[|s| - 1]))
    ensures Strip(s) == s
  {
    assert TrimStart(s) == s;
    assert TrimEnd(s) == s;
  }

  /** Stripping twice is stripping once. */
  lemma StripIdempotent(s: string)
    ensures Strip(Strip(s)) == Strip(s)
  {
    StripKeepsTrimmed(Strip(s));
  }

  /** `t` occurs in `s` starting at offset `k`. */
  predicate OccursAt(s: string, t: string, k: int)
  {
    0 <= k && k + |t| <= |s| && s[k..k + |t|] == t
  }

  /** Python's `t in s`. */
  predicate Contains(s: string, t: string)
  {
    exists k | 0 <= k <= |s| - |t| :: OccursAt(s, t, k)
  }

  /** An occurrence inside the infix `s[lo..hi]` is an occurrence in `s`, shifted by `lo`. */
  lemma OccursInInfix(s: string, lo: int, hi: int, t: string, k: int)
    requires 0 <= lo <= hi <= |s| && 0 <= k && k + |t| <= hi - lo
    ensures OccursAt(s[lo..hi], t, k) <==> OccursAt(s, t, lo + k)
  {
    var a, b := s[lo..hi][k..k + |t|], s[lo + k..lo + k + |t|];
    assert |a| == |b|;
    forall i | 0 <= i < |a|
      ensures a[i] == b[i]
    {
      assert a[i] == s[lo + k + i];
    }
    assert a == b;
  }

  /** A word found in the stripped text is found in the whole text. */
  lemma ContainsInInfix(s: string, r: string, lo: int, t: string)
    requires StrippedAt(s, r, lo)
    requires Contains(r, t)
    ensures Contains(s, t)
  {
    var k :| 0 <= k <= |r| - |t| && OccursAt(r, t, k);
    OccursInInfix(s, lo, lo + |r|, t, k);
  }

  /** A word with non-space ends found in the whole text lies inside the stripped part. */
  lemma ContainsInStripped(s: string, r: string, lo: int, t: string)
    requires StrippedAt(s, r, lo)
    requires |t| > 0 && !IsSpace(t[0]) && !IsSpace(t[|t| - 1])
    requires Contains(s, t)
    ensures Contains(r, t)
  {
    var k :| 0 <= k <= |s| - |t| && OccursAt(s, t, k);
    assert s[k] == t[0] && s[k + |t| - 1] == t[|t| - 1];
    assert lo <= k;
    assert k + |t| <= lo + |r|;
    OccursInInfix(s, lo, lo + |r|, t, k - lo);
  }

  /**
   * Stripping `s` never changes whether a word that starts and ends with
   * a non-space character occurs in it.
   */
  lemma ContainsStrip(s: string, t: string)
    requires |t| > 0 && !IsSpace(t[0]) && !IsSpace(t[|t| - 1])
    ensures Contains(Strip(s), t) <==> Contains(s, t)
  {
    var r := Strip(s);
    var lo :| StrippedAt(s, r, lo);
    if Contains(r, t) {
      ContainsInInfix(s, r, lo, t);
    }
    if Contains(s, t) {
      ContainsInStripped(s, r, lo, t);
    }
  }

  /** Python's `s.split(sep)` for a one-character separator: never an empty list. */
  function Split(s: string, sep: char): (r: seq<string>)
    ensures |r| >= 1
    decreases |s|
  {
    if |s| == 0 then [""]
    else
      var rest := Split(s[1..], sep);
      if s[0] == sep then [""] + rest
      else [[s[0]] + rest[0]] + rest[1..]
  }

  /** Python's `sep.join(parts)`. */
  function Join(parts: seq<string>, sep: char): string
    decreases |parts|
  {
    if |parts| == 0 then ""
    else if |parts| == 1 then parts[0]
    else parts[0] + [sep] + Join(parts[1..], sep)
  }

  lemma {:induction false} SplitNoSep(a: string, sep: char)
    requires sep !in a
    ensures Split(a, sep) == [a]
    decreases |a|
  {
    if |a| > 0 {
      SplitNoSep(a[1..], sep);
      assert [a[0]] + a[1..] == a;
    }
  }

  lemma {:induction false} SplitAfterSep(a: string, sep: char, b: string)
    requires sep !in a
    ensures Split(a + [sep] + b, sep) == [a] + Split(b, sep)
    decreases |a|
  {
    var s := a + [sep] + b;
    if |a| == 0 {
      assert s[1..] == b;
    } else {
      assert s[1..] == a[1..] + [sep] + b;
      SplitAfterSep(a[1..], sep, b);
      assert [a[0]] + a[1..] == a;
    }
  }

  /** Splitting a joined list of separator-free parts gives the parts back. */
  lemma {:induction false} SplitJoin(parts: seq<string>, sep: char)
    requires |parts| >= 1
    requires forall i :: 0 <= i < |parts| ==> sep !in parts[i]
    ensures Split(Join(parts, sep), sep) == parts
    decreases |parts|
  {
    if |parts| == 1 {
      SplitNoSep(parts[0], sep);
    } else {
      SplitJoin(parts[1..], sep);
      SplitAfterSep(parts[0], sep, Join(parts[1..], sep));
      assert [parts[0]] + parts[1..] == parts;
    }
  }

  /** The position of the first `c` in `s`, Python's `s.find(c)` with -1 as None. */
  function IndexOf(s: string, c: char): (r: Option<nat>)
    ensures r.None? <==> c !in s
    ensures r.Some? ==> r.value < |s| && s[r.value] == c && c !in s[..r.value]
    decreases |s|
  {
    if |s| == 0 then None
    else if s[0] == c then Some(0)
    else match IndexOf(s[1..], c)
      case None => None
      case Some(k) =>
        assert s[..k + 1] == [s[0]] + s[1..][..k];
        Some(k + 1)
  }

  /**
   * Python's `s.split(c, 1)` unpacked into two names: the text before the
   * first `c` and everything after it, or None where Python raises because
   * the list has one element only.
   */
  function SplitOnce(s: string, c: char): (r: Option<(string, string)>)
    ensures r.None? <==> c !in s
    ensures r.Some? ==> s == r.value.0 + [c] + r.value.1 && c !in r.value.0
  {
    match IndexOf(s, c)
    case None => None
    case Some(k) =>
      assert s == s[..k] + [c] + s[k + 1..];
      Some((s[..k], s[k + 1..]))
  }

  /** No `c` occurs before the position IndexOf reports. */
  lemma {:induction false} IndexOfIsFirst(s: string, c: char, j: nat)
    requires j < |s| && s[j] == c
    ensures IndexOf(s, c).Some? && IndexOf(s, c).value <= j
    decreases |s|
  {
    if s[0] != c {
      assert s[1..][j - 1] == c;
      IndexOfIsFirst(s[1..], c, j - 1);
    }
  }

  /** When the head contains no separator, SplitOnce recovers exactly the head and the tail. */
  lemma SplitOnceRoundTrip(a: string, c: char, b: string)
    requires c !in a
    ensures SplitOnce(a + [c] + b, c) == Some((a, b))
  {
    var s := a + [c] + b;
    IndexOfIsFirst(s, c, |a|);
    var k := IndexOf(s, c).value;
    assert forall i :: 0 <= i < |a| ==> s[i] == a[i] && s[i] != c;
    assert k == |a|;
    assert s[..k] == a;
    assert s[k + 1..] == b;
  }
}
