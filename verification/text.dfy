/**
 * String primitives with Python's meaning: `str.lower`, `str.isspace`,
 * `str.strip`, `str.find`, `in`, `str.startswith`, `sep.join` and `str(n)`.
 * Letters are folded ASCII-only; whitespace is Python's full `isspace` set.
 */
module Text {

  function LowerChar(c: char): char {
    if 'A' <= c <= 'Z' then (c as int + 32) as char else c
  }

  /** `s.lower()` */
  function Lower(s: string): (r: string)
    ensures |r| == |s|
    ensures forall i :: 0 <= i < |s| ==> r[i] == LowerChar(s[i])
  {
    seq(|s|, i requires 0 <= i < |s| => LowerChar(s[i]))
  }

  /** The characters for which Python's `str.isspace()` (and the regex class `\s`) holds. */
  predicate IsSpace(c: char) {
    c == ' ' || c == '\t' || c == '\n' || c == '\r' || c == '\U{0B}' || c == '\U{0C}'
    || ('\U{1C}' <= c <= '\U{1F}') || c == '\U{85}' || c == '\U{A0}' || c == '\U{1680}'
    || ('\U{2000}' <= c <= '\U{200A}') || c == '\U{2028}' || c == '\U{2029}'
    || c == '\U{202F}' || c == '\U{205F}' || c == '\U{3000}'
  }

  /** The regex class `\d`, ASCII digits only. */
  predicate IsDigit(c: char) {
    '0' <= c <= '9'
  }

  /** The regex class `\w`, ASCII letters, digits and underscore. */
  predicate IsWordChar(c: char) {
    IsDigit(c) || ('a' <= c <= 'z') || ('A' <= c <= 'Z') || c == '_'
  }

  lemma LowerKeepsWordChars(c: char)
    ensures IsWordChar(LowerChar(c)) == IsWordChar(c)
  {
  }

  /** Index of the first character of `s[from..]` that is not whitespace (|s| if none). */
  function SkipSpace(s: string, from: nat): (k: nat)
    requires from <= |s|
    ensures from <= k <= |s|
    ensures k < |s| ==> !IsSpace(s[k])
    ensures forall i :: from <= i < k ==> IsSpace(s[i])
    decreases |s| - from
  {
    if from < |s| && IsSpace(s[from]) then SkipSpace(s, from + 1) else from
  }

  /** Length of `s` once trailing whitespace is dropped. */
  function TrimmedEnd(s: string, lo: nat, hi: nat): (k: nat)
    requires lo <= hi <= |s|
    ensures lo <= k <= hi
    ensures k > lo ==> !IsSpace(s[k - 1])
    ensures forall i :: k <= i < hi ==> IsSpace(s[i])
    decreases hi
  {
    if hi > lo && IsSpace(s[hi - 1]) then TrimmedEnd(s, lo, hi - 1) else hi
  }

  /** `s.strip()`: the slice between the leading and the trailing whitespace. */
  function Strip(s: string): (r: string)
    ensures |r| <= |s|
    ensures r == [] || (!IsSpace(r[0]) && !IsSpace(r[|r| - 1]))
  {
    var lo := SkipSpace(s, 0);
    s[lo..TrimmedEnd(s, lo, |s|)]
  }

  /** `Strip(s)` is the contiguous slice `s[lo..hi]` with only whitespace around it. */
  lemma StripIsSlice(s: string) returns (lo: nat, hi: nat)
    ensures lo <= hi <= |s| && Strip(s) == s[lo..hi]
    ensures forall i :: 0 <= i < lo ==> IsSpace(s[i])
    ensures forall i :: hi <= i < |s| ==> IsSpace(s[i])
  {
    lo := SkipSpace(s, 0);
    hi := TrimmedEnd(s, lo, |s|);
  }

  lemma SliceOfSlice(s: string, i: nat, j: nat, a: nat, b: nat)
    requires i <= j <= |s| && a <= b <= j - i
    ensures s[i..j][a..b] == s[i + a..i + b]
  {
    assert forall k :: 0 <= k < b - a ==> s[i..j][a..b][k] == s[i + a + k];
  }

  /** Stripping a slice of `s` gives a slice of `s` inside it. */
  lemma StripOfSlice(s: string, i: nat, j: nat) returns (lo: nat, hi: nat)
    requires i <= j <= |s|
    ensures i <= lo <= hi <= j && Strip(s[i..j]) == s[lo..hi]
  {
    var a, b := StripIsSlice(s[i..j]);
    SliceOfSlice(s, i, j, a, b);
    lo, hi := i + a, i + b;
  }

  predicate AllSpace(s: string) {
    forall i :: 0 <= i < |s| ==> IsSpace(s[i])
  }

  /** `SkipSpace` stops at the first non-space character. */
  lemma SkipSpaceStopsAt(s: string, k: nat)
    requires k <= |s| && (k < |s| ==> !IsSpace(s[k]))
    requires forall i :: 0 <= i < k ==> IsSpace(s[i])
    ensures SkipSpace(s, 0) == k
  {
  }

  /** `TrimmedEnd` stops after the last non-space character. */
  lemma TrimmedEndStopsAt(s: string, lo: nat, e: nat)
    requires lo < e <= |s| && !IsSpace(s[e - 1])
    requires forall i :: e <= i < |s| ==> IsSpace(s[i])
    ensures TrimmedEnd(s, lo, |s|) == e
  {
  }

  /** Whatever whitespace surrounds a core that starts and ends with non-space, `strip` returns the core. */
  lemma StripUnique(w1: string, r: string, w2: string)
    requires AllSpace(w1) && AllSpace(w2)
    requires r == [] || (!IsSpace(r[0]) && !IsSpace(r[|r| - 1]))
    ensures Strip(w1 + r + w2) == r
  {
    var s := w1 + r + w2;
    var e := |w1| + |r|;
    assert forall i :: 0 <= i < |w1| ==> s[i] == w1[i];
    assert forall i :: e <= i < |s| ==> s[i] == w2[i - e];
    if r == [] {
      SkipSpaceStopsAt(s, |s|);
    } else {
      assert s[|w1|] == r[0] && s[e - 1] == r[|r| - 1];
      SkipSpaceStopsAt(s, |w1|);
      TrimmedEndStopsAt(s, |w1|, e);
      assert s[|w1|..e] == r;
    }
  }

  lemma AllSpaceConcat(a: string, b: string)
    requires AllSpace(a) && AllSpace(b)
    ensures AllSpace(a + b)
  {
    forall i | 0 <= i < |a + b| ensures IsSpace((a + b)[i]) {
      if i >= |a| { assert (a + b)[i] == b[i - |a|]; }
    }
  }

  lemma Regroup(a: string, b: string, c: string, d: string, e: string)
    ensures a + (b + c + d) + e == (a + b) + c + (d + e)
  {
  }

  /** Whitespace added around a string does not change its `strip`. */
  lemma StripPadded(w1: string, s: string, w2: string)
    requires AllSpace(w1) && AllSpace(w2)
    ensures Strip(w1 + s + w2) == Strip(s)
  {
    var lo, hi := StripIsSlice(s);
    var u1, r, u2 := s[..lo], s[lo..hi], s[hi..];
    assert AllSpace(w1 + u1) by {
      assert AllSpace(u1);
      AllSpaceConcat(w1, u1);
    }
    assert AllSpace(u2 + w2) by {
      assert AllSpace(u2) by {
        assert forall i :: 0 <= i < |u2| ==> u2[i] == s[hi + i];
      }
      AllSpaceConcat(u2, w2);
    }
    assert w1 + s + w2 == (w1 + u1) + r + (u2 + w2) by {
      assert s == u1 + r + u2;
      Regroup(w1, u1, r, u2, w2);
    }
    StripUnique(w1 + u1, r, u2 + w2);
  }

  /** Lowering works character by character and leaves whitespace alone. */
  lemma LowerPadded(w1: string, s: string, w2: string)
    requires AllSpace(w1) && AllSpace(w2)
    ensures Lower(w1 + s + w2) == w1 + Lower(s) + w2
  {
    var t := w1 + s + w2;
    assert forall i :: 0 <= i < |w1| ==> t[i] == w1[i] && !('A' <= w1[i] <= 'Z');
    assert forall i :: |w1| + |s| <= i < |t| ==> t[i] == w2[i - |w1| - |s|] && !('A' <= w2[i - |w1| - |s|] <= 'Z');
  }

  /** Lowering twice is lowering once. */
  lemma LowerIdempotent(s: string)
    ensures Lower(Lower(s)) == Lower(s)
  {
  }

  predicate StartsWith(s: string, prefix: string) {
    |prefix| <= |s| && s[..|prefix|] == prefix
  }

  /** `pat` occurs in `s` at index `k`. */
  predicate OccursAt(s: string, pat: string, k: nat) {
    k + |pat| <= |s| && s[k..k + |pat|] == pat
  }

  /** A character absent from `s[g..e]` is absent from its `strip`. */
  lemma CharNotInStrippedSlice(s: string, g: nat, e: nat, c: char)
    requires g <= e <= |s|
    requires forall i :: g <= i < e ==> s[i] != c
    ensures c !in Strip(s[g..e])
  {
    var lo, hi := StripOfSlice(s, g, e);
    assert forall i :: 0 <= i < hi - lo ==> s[lo..hi][i] == s[lo + i];
  }

  /** An occurrence inside a slice is an occurrence in the whole string. */
  lemma OccursInSlice(s: string, lo: nat, hi: nat, pat: string, j: nat)
    requires lo <= hi <= |s| && OccursAt(s[lo..hi], pat, j)
    ensures OccursAt(s, pat, lo + j) && lo + j + |pat| <= hi
  {
    SliceOfSlice(s, lo, hi, j, j + |pat|);
  }

  /** A non-empty pattern that starts nowhere in `s[g..q]` is not in its `strip` either. */
  lemma NotInStrippedSlice(s: string, g: nat, q: nat, pat: string)
    requires g <= q <= |s| && |pat| > 0
    requires forall p :: g <= p < q ==> !OccursAt(s, pat, p)
    ensures !Contains(Strip(s[g..q]), pat)
  {
    var lo, hi := StripOfSlice(s, g, q);
    var j := Find(Strip(s[g..q]), pat);
    if j != -1 {
      OccursInSlice(s, lo, hi, pat, j);
      assert false;
    }
  }

  /** `s.find(pat, from)`, as an index or -1. */
  function FindFrom(s: string, pat: string, from: nat): (r: int)
    requires from <= |s|
    ensures r == -1 || (from <= r && OccursAt(s, pat, r))
    ensures r == -1 ==> forall k :: from <= k <= |s| ==> !OccursAt(s, pat, k)
    ensures r != -1 ==> forall k :: from <= k < r ==> !OccursAt(s, pat, k)
    decreases |s| - from
  {
    if from + |pat| > |s| then -1
    else if s[from..from + |pat|] == pat then from
    else FindFrom(s, pat, from + 1)
  }

  /** `s.find(pat)` */
  function Find(s: string, pat: string): (r: int)
    ensures r == -1 <==> forall k :: 0 <= k <= |s| ==> !OccursAt(s, pat, k)
    ensures r != -1 ==> 0 <= r && OccursAt(s, pat, r) && forall k :: 0 <= k < r ==> !OccursAt(s, pat, k)
  {
    FindFrom(s, pat, 0)
  }

  /** `pat in s` */
  predicate Contains(s: string, pat: string) {
    Find(s, pat) != -1
  }

  /** `sep.join(parts)` */
  function Join(parts: seq<string>, sep: string): string {
    if |parts| == 0 then ""
    else if |parts| == 1 then parts[0]
    else parts[0] + sep + Join(parts[1..], sep)
  }

  function DigitChar(d: nat): (c: char)
    requires d < 10
    ensures IsDigit(c)
  {
    ('0' as int + d) as char
  }

  /** `str(n)` for a natural number: decimal digits, no leading zero. */
  function NatToString(n: nat): (r: string)
    ensures |r| > 0 && forall i :: 0 <= i < |r| ==> IsDigit(r[i])
    decreases n
  {
    if n < 10 then [DigitChar(n)] else NatToString(n / 10) + [DigitChar(n % 10)]
  }

  /** Different numbers have different decimal spellings. */
  lemma {:induction false} NatToStringInjective(a: nat, b: nat)
    requires NatToString(a) == NatToString(b)
    ensures a == b
    decreases a
  {
    var sa, sb := NatToString(a), NatToString(b);
    assert sa[|sa| - 1] == DigitChar(a % 10) && sb[|sb| - 1] == DigitChar(b % 10);
    if a >= 10 && b >= 10 {
      assert sa[..|sa| - 1] == NatToString(a / 10);
      assert sb[..|sb| - 1] == NatToString(b / 10);
      NatToStringInjective(a / 10, b / 10);
    }
  }

  /** `str(i)` for an integer. */
  function IntToString(i: int): string {
    if i < 0 then "-" + NatToString(-i) else NatToString(i)
  }
}
