/**
 * The three reference patterns of the citation verifier, scanned the way
 * `re.finditer(pattern, citations, re.IGNORECASE)` scans them:
 *
 *   section: (?:section|sec\.?|§)\s*(\d+(?:\.\d+)*)
 *   page:    (?:p\.|pp\.|page)\s*(\d+(?:\s*[–-]\s*\d+)?)
 *   figure:  (?:fig\.|figure|table|tbl\.)\s*(\d+(?:\.\d+)*)
 *
 * At any position at most one keyword alternative can lead to a match
 * (after `section` or `sec.` fails, the shorter `sec` is followed by a letter
 * or a dot and fails too), and the value groups are greedy with nothing after
 * them, so matching at a position is deterministic.
 */
module CitationPatterns {
  import opened Wrappers
  import opened Text

  datatype PatternClass = SectionPattern | PagePattern | FigurePattern

  /** A match: `group(0)` is `s[start..end]` and `group(1)` is `s[valueStart..end]`. */
  datatype Match = Match(start: nat, valueStart: nat, end: nat)

  predicate IsDash(c: char) {
    c == '-' || c == '\U{2013}'
  }

  /** The lower-case literal `kw` stands at `p`, ignoring ASCII case. */
  predicate KeywordAt(s: string, p: nat, kw: string) {
    p + |kw| <= |s| && Lower(s[p..p + |kw|]) == kw
  }

  /**
   * The keyword alternatives of each pattern, in the order the regex tries
   * them; `sec\.?` is greedy, so `sec.` is tried before `sec`.
   */
  function Keywords(cls: PatternClass): (kws: seq<string>)
    ensures forall i :: 0 <= i < |kws| ==> |kws[i]| > 0
  {
    match cls
    case SectionPattern => ["section", "sec.", "sec", "§"]
    case PagePattern => ["p.", "pp.", "page"]
    case FigurePattern => ["fig.", "figure", "table", "tbl."]
  }

  /** Index of the first of the alternatives `kws[i..]` that stands at `p`. */
  function FirstKeyword(kws: seq<string>, s: string, p: nat, i: nat): (r: Option<nat>)
    requires i <= |kws|
    ensures r.Some? ==> i <= r.value < |kws| && KeywordAt(s, p, kws[r.value])
    ensures r.Some? ==> forall j :: i <= j < r.value ==> !KeywordAt(s, p, kws[j])
    ensures r.None? ==> forall j :: i <= j < |kws| ==> !KeywordAt(s, p, kws[j])
    decreases |kws| - i
  {
    if i == |kws| then None
    else if KeywordAt(s, p, kws[i]) then Some(i)
    else FirstKeyword(kws, s, p, i + 1)
  }

  /**
   * Where the keyword part of the pattern ends when it matches at `p`: after
   * the first alternative, in the regex's order, that stands there.
   */
  function KeywordEnd(cls: PatternClass, s: string, p: nat): (r: Option<nat>)
    ensures r.None? <==> forall kw :: kw in Keywords(cls) ==> !KeywordAt(s, p, kw)
    ensures r.Some? ==> exists i :: 0 <= i < |Keywords(cls)| && KeywordAt(s, p, Keywords(cls)[i])
                          && r.value == p + |Keywords(cls)[i]|
                          && forall j :: 0 <= j < i ==> !KeywordAt(s, p, Keywords(cls)[j])
    ensures r.Some? ==> p < r.value <= |s|
  {
    var kws := Keywords(cls);
    match FirstKeyword(kws, s, p, 0)
    case None => None
    case Some(i) => Some(p + |kws[i]|)
  }

  /** End of the maximal run of digits starting at `from`. */
  function DigitsEnd(s: string, from: nat): (k: nat)
    requires from <= |s|
    ensures from <= k <= |s|
    ensures k < |s| ==> !IsDigit(s[k])
    ensures forall i :: from <= i < k ==> IsDigit(s[i])
    decreases |s| - from
  {
    if from < |s| && IsDigit(s[from]) then DigitsEnd(s, from + 1) else from
  }

  predicate AllDigits(s: string, lo: nat, hi: nat)
    requires lo <= hi <= |s|
  {
    forall i :: lo <= i < hi ==> IsDigit(s[i])
  }

  predicate AllSpaces(s: string, lo: nat, hi: nat)
    requires lo <= hi <= |s|
  {
    forall i :: lo <= i < hi ==> IsSpace(s[i])
  }

  /** A run of digits ending before a non-digit is the one `DigitsEnd` finds. */
  lemma DigitsEndStopsAt(s: string, from: nat, e: nat)
    requires from <= e <= |s| && AllDigits(s, from, e) && (e < |s| ==> !IsDigit(s[e]))
    ensures DigitsEnd(s, from) == e
    decreases e - from
  {
    if from < e {
      DigitsEndStopsAt(s, from + 1, e);
    }
  }

  /** Whitespace ending before a non-space character is what `SkipSpace` skips. */
  lemma SkipSpaceStopsBefore(s: string, from: nat, e: nat)
    requires from <= e <= |s| && AllSpaces(s, from, e) && (e < |s| ==> !IsSpace(s[e]))
    ensures SkipSpace(s, from) == e
    decreases e - from
  {
    if from < e {
      SkipSpaceStopsBefore(s, from + 1, e);
    }
  }

  /** `s[lo..hi]` has the shape `\d+(?:\.\d+)*`. */
  predicate DottedSpan(s: string, lo: nat, hi: nat)
    requires lo <= hi <= |s|
  {
    lo < hi && IsDigit(s[lo]) && IsDigit(s[hi - 1])
    && forall i :: lo <= i < hi ==> IsDigit(s[i]) || (s[i] == '.' && i + 1 < hi && IsDigit(s[i + 1]))
  }

  /** Extends a dotted number ending at `e` greedily by `.digits` groups. */
  function DottedEnd(s: string, lo: nat, e: nat): (r: nat)
    requires lo <= e <= |s| && DottedSpan(s, lo, e)
    ensures e <= r <= |s| && DottedSpan(s, lo, r)
    ensures r < |s| ==> !IsDigit(s[r])
    ensures !(r + 1 < |s| && s[r] == '.' && IsDigit(s[r + 1]))
    decreases |s| - e
  {
    if e < |s| && IsDigit(s[e]) then
      DottedExtend(s, lo, e, e + 1);
      DottedEnd(s, lo, e + 1)
    else if e + 1 < |s| && s[e] == '.' && IsDigit(s[e + 1]) then
      DottedExtend(s, lo, e, e + 2);
      DottedEnd(s, lo, e + 2)
    else e
  }

  /** A dotted number stays one when a digit, or a dot and a digit, follows it. */
  lemma DottedExtend(s: string, lo: nat, e: nat, e2: nat)
    requires lo <= e < e2 <= |s| && DottedSpan(s, lo, e)
    requires (e2 == e + 1 && IsDigit(s[e])) || (e2 == e + 2 && s[e] == '.' && IsDigit(s[e + 1]))
    ensures DottedSpan(s, lo, e2)
  {
    forall i | lo <= i < e2
      ensures IsDigit(s[i]) || (s[i] == '.' && i + 1 < e2 && IsDigit(s[i + 1]))
    {
      if i < e {
        DottedAtIndex(s, lo, e, i);
      }
    }
  }

  lemma DottedAtIndex(s: string, lo: nat, hi: nat, i: nat)
    requires lo <= i < hi <= |s| && DottedSpan(s, lo, hi)
    ensures IsDigit(s[i]) || (s[i] == '.' && i + 1 < hi && IsDigit(s[i + 1]))
  {
  }

  /**
   * `s[lo..hi]` is `digits spaces dash spaces digits`, the dash at `m`, the
   * first number ending at `a` and the second starting at `b`.
   */
  predicate PageRangeAt(s: string, lo: nat, a: nat, m: nat, b: nat, hi: nat)
    requires lo < a <= m < b < hi <= |s|
  {
    AllDigits(s, lo, a) && AllSpaces(s, a, m) && IsDash(s[m]) && AllSpaces(s, m + 1, b) && AllDigits(s, b, hi)
  }

  /** `s[lo..hi]` has the shape `\d+(?:\s*[–-]\s*\d+)?`: a number, or two numbers joined by a dash. */
  predicate PageSpan(s: string, lo: nat, hi: nat)
    requires lo <= hi <= |s|
  {
    (lo < hi && AllDigits(s, lo, hi))
    || exists a, m, b :: lo < a <= m < b < hi && PageRangeAt(s, lo, a, m, b, hi)
  }

  /** `\s*[–-]\s*\d` matches at `e`: the optional page group can start there. */
  predicate DashedNumberAt(s: string, e: nat)
    requires e <= |s|
  {
    exists m, b :: e <= m < b < |s| && AllSpaces(s, e, m) && IsDash(s[m]) && AllSpaces(s, m + 1, b) && IsDigit(s[b])
  }

  /**
   * End of `\d+(?:\s*[–-]\s*\d+)?` starting at the digit `s[d]`: no digit
   * follows the value, and a single number is taken only when no dashed
   * number follows it.
   */
  function PageValueEnd(s: string, d: nat): (r: nat)
    requires d < |s| && IsDigit(s[d])
    ensures d < r <= |s| && PageSpan(s, d, r)
    ensures r < |s| ==> !IsDigit(s[r])
    ensures AllDigits(s, d, r) ==> !DashedNumberAt(s, r)
  {
    var e1 := DigitsEnd(s, d);
    var w := SkipSpace(s, e1);
    if w < |s| && IsDash(s[w]) then
      var w2 := SkipSpace(s, w + 1);
      if w2 < |s| && IsDigit(s[w2]) then
        var r := DigitsEnd(s, w2);
        assert PageRangeAt(s, d, e1, w, w2, r);
        assert !AllDigits(s, d, r) by { assert !IsDigit(s[w]); }
        r
      else
        NoDashedNumber(s, e1);
        e1
    else
      NoDashedNumber(s, e1);
      e1
  }

  /** When `\s*[–-]\s*\d` fails where `SkipSpace` stops, no dashed number follows at all. */
  lemma NoDashedNumber(s: string, e: nat)
    requires e <= |s|
    requires var w := SkipSpace(s, e);
      !(w < |s| && IsDash(s[w]) && SkipSpace(s, w + 1) < |s| && IsDigit(s[SkipSpace(s, w + 1)]))
    ensures !DashedNumberAt(s, e)
  {
    if DashedNumberAt(s, e) {
      DashedNumberIsSkippedTo(s, e);
    }
  }

  /** A dashed number after `e` is where `SkipSpace` leads, on both sides of the dash. */
  lemma DashedNumberIsSkippedTo(s: string, e: nat)
    requires e <= |s| && DashedNumberAt(s, e)
    ensures var w := SkipSpace(s, e);
      w < |s| && IsDash(s[w]) && SkipSpace(s, w + 1) < |s| && IsDigit(s[SkipSpace(s, w + 1)])
  {
    var m, b :| e <= m < b < |s| && AllSpaces(s, e, m) && IsDash(s[m]) && AllSpaces(s, m + 1, b) && IsDigit(s[b]);
    SpacesBeforeMark(s, e, m);
    SpacesBeforeMark(s, m + 1, b);
    var w := SkipSpace(s, e);
    assert w == m && IsDash(s[w]);
    assert SkipSpace(s, w + 1) == b;
  }

  /** Whitespace ending at a dash or a digit is what `SkipSpace` skips. */
  lemma SpacesBeforeMark(s: string, from: nat, e: nat)
    requires from <= e < |s| && AllSpaces(s, from, e) && (IsDash(s[e]) || IsDigit(s[e]))
    ensures SkipSpace(s, from) == e
  {
    assert !IsSpace(s[e]);
    SkipSpaceStopsBefore(s, from, e);
  }

  /**
   * The page group has one match ending at a non-digit and not continued by
   * a dashed number: any such span is the one `PageValueEnd` finds.
   */
  lemma {:induction false} PageValueEndIsUnique(s: string, d: nat, hi: nat)
    requires d < hi <= |s| && IsDigit(s[d]) && PageSpan(s, d, hi)
    requires hi < |s| ==> !IsDigit(s[hi])
    requires AllDigits(s, d, hi) ==> !DashedNumberAt(s, hi)
    ensures PageValueEnd(s, d) == hi
  {
    if AllDigits(s, d, hi) {
      SingleNumberIsPageValue(s, d, hi);
    } else {
      var a, m, b :| d < a <= m < b < hi && PageRangeAt(s, d, a, m, b, hi);
      PageRangeIsPageValue(s, d, a, m, b, hi);
    }
  }

  lemma SingleNumberIsPageValue(s: string, d: nat, hi: nat)
    requires d < hi <= |s| && AllDigits(s, d, hi)
    requires hi < |s| ==> !IsDigit(s[hi])
    requires !DashedNumberAt(s, hi)
    ensures PageValueEnd(s, d) == hi
  {
    DigitsEndStopsAt(s, d, hi);
    var w := SkipSpace(s, hi);
    if w < |s| && IsDash(s[w]) && SkipSpace(s, w + 1) < |s| && IsDigit(s[SkipSpace(s, w + 1)]) {
      SkippedToDashedNumber(s, hi);
    }
  }

  lemma PageRangeIsPageValue(s: string, d: nat, a: nat, m: nat, b: nat, hi: nat)
    requires d < a <= m < b < hi <= |s| && PageRangeAt(s, d, a, m, b, hi)
    requires hi < |s| ==> !IsDigit(s[hi])
    ensures PageValueEnd(s, d) == hi
  {
    DigitsEndStopsAt(s, d, a);
    assert DigitsEnd(s, d) == a;
    SpacesBeforeMark(s, a, m);
    assert SkipSpace(s, a) == m;
    SpacesBeforeMark(s, m + 1, b);
    assert SkipSpace(s, m + 1) == b;
    DigitsEndStopsAt(s, b, hi);
    assert DigitsEnd(s, b) == hi;
  }

  /** Where `SkipSpace` finds a dash and then a digit, a dashed number follows. */
  lemma SkippedToDashedNumber(s: string, e: nat)
    requires e <= |s|
    requires var w := SkipSpace(s, e);
      w < |s| && IsDash(s[w]) && SkipSpace(s, w + 1) < |s| && IsDigit(s[SkipSpace(s, w + 1)])
    ensures DashedNumberAt(s, e)
  {
    var w := SkipSpace(s, e);
    var b := SkipSpace(s, w + 1);
    assert AllSpaces(s, e, w) && AllSpaces(s, w + 1, b);
  }

  /** `s[lo..hi]` has the shape of the value group of `cls`. */
  predicate ValueSpan(cls: PatternClass, s: string, lo: nat, hi: nat)
    requires lo <= hi <= |s|
  {
    if cls == PagePattern then PageSpan(s, lo, hi) else DottedSpan(s, lo, hi)
  }

  /** The greedy value group ending at `hi` could not take one more character or group. */
  predicate MaximalValue(cls: PatternClass, s: string, lo: nat, hi: nat)
    requires lo <= hi <= |s|
  {
    (hi < |s| ==> !IsDigit(s[hi]))
    && (cls == PagePattern ==> (AllDigits(s, lo, hi) ==> !DashedNumberAt(s, hi)))
    && (cls != PagePattern ==> !(hi + 1 < |s| && s[hi] == '.' && IsDigit(s[hi + 1])))
  }

  /** End of the value group of `cls` starting at the digit `s[d]`. */
  function ValueEnd(cls: PatternClass, s: string, d: nat): (r: nat)
    requires d < |s| && IsDigit(s[d])
    ensures d < r <= |s|
    ensures ValueSpan(cls, s, d, r) && MaximalValue(cls, s, d, r)
  {
    if cls == PagePattern then PageValueEnd(s, d) else DottedEnd(s, d, d + 1)
  }

  /** Keyword `kw` stands at `p` and, after optional whitespace, a digit follows it. */
  predicate LeadsToValue(s: string, p: nat, kw: string) {
    KeywordAt(s, p, kw) && SkipSpace(s, p + |kw|) < |s| && IsDigit(s[SkipSpace(s, p + |kw|)])
  }

  /** Keyword letters are neither whitespace nor digits in the text either. */
  lemma KeywordChar(s: string, p: nat, kw: string, i: nat)
    requires KeywordAt(s, p, kw) && i < |kw|
    ensures LowerChar(s[p + i]) == kw[i]
  {
    assert Lower(s[p..p + |kw|])[i] == LowerChar(s[p + i]);
  }

  /**
   * Backtracking into a later keyword alternative never finds a value: when
   * two alternatives stand at `p`, the later one (`sec` inside `section` or
   * `sec.`) is followed by a letter or a dot.
   */
  lemma LaterAlternativeFails(cls: PatternClass, s: string, p: nat, j: nat, i: nat)
    requires 0 <= j < i < |Keywords(cls)|
    requires KeywordAt(s, p, Keywords(cls)[j]) && KeywordAt(s, p, Keywords(cls)[i])
    ensures !LeadsToValue(s, p, Keywords(cls)[i])
  {
    var kws := Keywords(cls);
    if kws[j][0] != kws[i][0] {
      assert false;
    } else if kws[j][1] != kws[i][1] {
      KeywordChar(s, p, kws[j], 1);
      KeywordChar(s, p, kws[i], 1);
      assert false;
    } else if |kws[i]| > 3 && kws[j][3] != kws[i][3] {
      KeywordChar(s, p, kws[j], 3);
      KeywordChar(s, p, kws[i], 3);
      assert false;
    } else {
      var k := p + |kws[i]|;
      KeywordChar(s, p, kws[j], |kws[i]|);
      assert s[k] != '.' ==> s[k] == 't' || s[k] == 'T';
      assert SkipSpace(s, k) == k;
    }
  }

  /**
   * Whichever alternative stands first at `p` decides the match: any
   * alternative that leads to a value ends where the first one does.
   */
  lemma MatchAtAlternatives(cls: PatternClass, s: string, p: nat)
    ensures forall kw :: kw in Keywords(cls) && LeadsToValue(s, p, kw) ==>
              KeywordEnd(cls, s, p) == Some(p + |kw|)
    ensures (exists kw :: kw in Keywords(cls) && LeadsToValue(s, p, kw)) <==>
              KeywordEnd(cls, s, p).Some? && SkipSpace(s, KeywordEnd(cls, s, p).value) < |s|
              && IsDigit(s[SkipSpace(s, KeywordEnd(cls, s, p).value)])
  {
    KeywordEndIsFirst(cls, s, p);
    KeywordsShadowFree(cls, s, p);
    FirstKeywordDecides(Keywords(cls), s, p, KeywordEnd(cls, s, p));
  }

  lemma KeywordEndIsFirst(cls: PatternClass, s: string, p: nat)
    ensures var first := FirstKeyword(Keywords(cls), s, p, 0);
      KeywordEnd(cls, s, p) == if first.None? then None else Some(p + |Keywords(cls)[first.value]|)
  {
  }

  lemma KeywordsShadowFree(cls: PatternClass, s: string, p: nat)
    ensures LaterAlternativesFail(Keywords(cls), s, p)
  {
    var kws := Keywords(cls);
    forall j, i | 0 <= j < i < |kws| && KeywordAt(s, p, kws[j]) && KeywordAt(s, p, kws[i])
      ensures !LeadsToValue(s, p, kws[i])
    {
      LaterAlternativeFails(cls, s, p, j, i);
    }
  }

  /** No alternative after one that stands at `p` leads to a value. */
  predicate LaterAlternativesFail(kws: seq<string>, s: string, p: nat) {
    forall j, i :: 0 <= j < i < |kws| && KeywordAt(s, p, kws[j]) && KeywordAt(s, p, kws[i]) ==> !LeadsToValue(s, p, kws[i])
  }

  /**
   * When later alternatives never lead to a value, the first alternative
   * that stands at `p` decides: `ke` is where it ends.
   */
  lemma FirstKeywordDecides(kws: seq<string>, s: string, p: nat, ke: Option<nat>)
    requires LaterAlternativesFail(kws, s, p)
    requires var first := FirstKeyword(kws, s, p, 0);
      ke == if first.None? then None else Some(p + |kws[first.value]|)
    ensures forall kw :: kw in kws && LeadsToValue(s, p, kw) ==> ke == Some(p + |kw|)
    ensures (exists kw :: kw in kws && LeadsToValue(s, p, kw)) <==>
              ke.Some? && SkipSpace(s, ke.value) < |s| && IsDigit(s[SkipSpace(s, ke.value)])
  {
    var first := FirstKeyword(kws, s, p, 0);
    forall kw | kw in kws && LeadsToValue(s, p, kw)
      ensures ke == Some(p + |kw|)
    {
      var i :| 0 <= i < |kws| && kws[i] == kw;
      LeadingAlternativeIsFirst(kws, s, p, i);
    }
    if first.Some? {
      var kw := kws[first.value];
      if SkipSpace(s, p + |kw|) < |s| && IsDigit(s[SkipSpace(s, p + |kw|)]) {
        assert kw in kws && LeadsToValue(s, p, kw);
      }
    }
  }

  /** An alternative that leads to a value is the first one standing at `p`. */
  lemma LeadingAlternativeIsFirst(kws: seq<string>, s: string, p: nat, i: nat)
    requires LaterAlternativesFail(kws, s, p)
    requires i < |kws| && LeadsToValue(s, p, kws[i])
    ensures FirstKeyword(kws, s, p, 0) == Some(i)
  {
    var first := FirstKeyword(kws, s, p, 0);
    assert first.Some?;
  }

  /** The match of `cls` that starts exactly at `p`, if any. */
  function MatchAt(cls: PatternClass, s: string, p: nat): (r: Option<Match>)
    ensures r.Some? ==> r.value.start == p < r.value.valueStart < r.value.end <= |s|
    ensures r.Some? <==> exists kw :: kw in Keywords(cls) && LeadsToValue(s, p, kw)
    ensures forall kw :: kw in Keywords(cls) && LeadsToValue(s, p, kw) ==>
              r.Some? && r.value.valueStart == SkipSpace(s, p + |kw|)
    ensures r.Some? ==> ValueSpan(cls, s, r.value.valueStart, r.value.end)
                        && MaximalValue(cls, s, r.value.valueStart, r.value.end)
  {
    MatchAtAlternatives(cls, s, p);
    match KeywordEnd(cls, s, p)
    case None => None
    case Some(k) =>
      var d := SkipSpace(s, k);
      if d < |s| && IsDigit(s[d]) then Some(Match(p, d, ValueEnd(cls, s, d))) else None
  }
  /** A per-position matcher over a text of length `n`: a match found at `p` starts at `p`. */
  ghost predicate WellFormedMatcher(matchAt: nat -> Option<Match>, n: nat) {
    forall p: nat :: matchAt(p).Some? ==> matchAt(p).value.start == p < matchAt(p).value.valueStart < matchAt(p).value.end <= n
  }

  /**
   * `re.finditer` from position `from`: try each position left to right and,
   * after a match, resume at its end.
   */
  function Scan(matchAt: nat -> Option<Match>, n: nat, from: nat): (r: seq<Match>)
    requires from <= n && WellFormedMatcher(matchAt, n)
    ensures forall i :: 0 <= i < |r| ==> from <= r[i].start && matchAt(r[i].start) == Some(r[i])
    ensures forall i :: 0 <= i < |r| ==> r[i].start < r[i].valueStart < r[i].end <= n
    ensures forall i :: 0 <= i < |r| - 1 ==> r[i].end <= r[i + 1].start
    decreases n - from
  {
    if from >= n then []
    else
      match matchAt(from)
      case Some(m) => [m] + Scan(matchAt, n, m.end)
      case None => Scan(matchAt, n, from + 1)
  }

  /** Position `p` lies inside one of the matches `ms`. */
  predicate Covered(ms: seq<Match>, p: nat) {
    exists i :: 0 <= i < |ms| && ms[i].start <= p < ms[i].end
  }

  /**
   * Together with the contract of Scan this pins down `finditer`: no
   * position outside the reported matches starts a match, so the scan
   * misses nothing and reports matches in textual order.
   */
  lemma {:induction false} UncoveredPositionsDoNotMatch(matchAt: nat -> Option<Match>, n: nat, from: nat, p: nat)
    requires from <= p < n && WellFormedMatcher(matchAt, n)
    requires !Covered(Scan(matchAt, n, from), p)
    ensures matchAt(p) == None
    decreases n - from
  {
    var r := Scan(matchAt, n, from);
    var first := matchAt(from);
    if first.Some? {
      var m := first.value;
      var tail := Scan(matchAt, n, m.end);
      assert r == [m] + tail;
      UncoveredInTail(m, tail, p);
      UncoveredPositionsDoNotMatch(matchAt, n, m.end, p);
    } else if p > from {
      assert r == Scan(matchAt, n, from + 1);
      UncoveredPositionsDoNotMatch(matchAt, n, from + 1, p);
    }
  }

  /** A position outside `[m] + tail` lies outside `m` and outside `tail`. */
  lemma UncoveredInTail(m: Match, tail: seq<Match>, p: nat)
    requires !Covered([m] + tail, p)
    ensures !(m.start <= p < m.end) && !Covered(tail, p)
  {
    var r := [m] + tail;
    assert r[0] == m;
    forall i | 0 <= i < |tail|
      ensures !(tail[i].start <= p < tail[i].end)
    {
      assert r[i + 1] == tail[i];
    }
  }

  /** The matcher of one pattern class on `s`. */
  function Matcher(cls: PatternClass, s: string): (m: nat -> Option<Match>)
    ensures WellFormedMatcher(m, |s|)
    ensures forall p: nat :: m(p) == MatchAt(cls, s, p)
  {
    (p: nat) => MatchAt(cls, s, p)
  }

  /** `re.finditer(pattern, s, re.IGNORECASE)` for one pattern class. */
  function FindAll(cls: PatternClass, s: string): (r: seq<Match>)
    ensures forall i :: 0 <= i < |r| ==> MatchAt(cls, s, r[i].start) == Some(r[i])
    ensures forall i :: 0 <= i < |r| ==> r[i].start < r[i].valueStart < r[i].end <= |s|
    ensures forall i :: 0 <= i < |r| - 1 ==> r[i].end <= r[i + 1].start
  {
    Scan(Matcher(cls, s), |s|, 0)
  }

  /** `finditer` misses no match: every position outside the reported matches fails to match. */
  lemma FindAllIsComplete(cls: PatternClass, s: string, p: nat)
    requires p < |s| && !Covered(FindAll(cls, s), p)
    ensures MatchAt(cls, s, p) == None
  {
    UncoveredPositionsDoNotMatch(Matcher(cls, s), |s|, 0, p);
  }
}
