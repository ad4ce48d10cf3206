/**
 * `HallucinationDetector.verify_citations`: extract section, page and
 * figure/table references from the citation string, look each value up in the
 * paper text and in the retrieved chunks, and score the share of references
 * found nowhere.
 */
module CitationVerifier {
  import opened Wrappers
  import opened Text
  import opened State
  import opened CitationPatterns
  import opened Ratios

  datatype Confidence = LowConfidence | MediumConfidence | HighConfidence

  datatype RiskStatus = LowRisk | MediumRisk | HighRisk

  /** A match as text: `group(0)` and `group(1)`. */
  datatype RawReference = RawReference(matched: string, value: string)

  /** One entry of `verified_citations`. */
  datatype VerifiedReference = VerifiedReference(reference: string, found: bool, confidence: Confidence, refType: string)

  /** The `hallucination_check` result; `citationsVerified` is the metadata count. */
  datatype CitationCheck = CitationCheck(
    score: real,
    verifiedCitations: seq<VerifiedReference>,
    citationPresent: bool,
    status: RiskStatus,
    citationsVerified: nat)

  /** Citation strings that count as "no citation" once lower-cased. */
  const Placeholders: seq<string> :=
    ["not provided", "none", "no citations", "no relevant sections", "not explicitly stated in paper"]

  /** Lower bound forced on the score of an answer given without citations. */
  const MissingCitationScore: real := 0.7

  /** A reference value as the patterns produce it: a dotted number or a page range. */
  predicate ReferenceValue(v: string) {
    DottedSpan(v, 0, |v|) || PageSpan(v, 0, |v|)
  }

  function AsText(s: string, ms: seq<Match>): (r: seq<RawReference>)
    requires forall i :: 0 <= i < |ms| ==> ms[i].start < ms[i].valueStart < ms[i].end <= |s|
    ensures |r| == |ms|
    ensures forall i :: 0 <= i < |ms| ==>
      r[i] == RawReference(s[ms[i].start..ms[i].end], s[ms[i].valueStart..ms[i].end])
  {
    seq(|ms|, i requires 0 <= i < |ms| => RawReference(s[ms[i].start..ms[i].end], s[ms[i].valueStart..ms[i].end]))
  }

  /** The value group ends the matched text, after the keyword: a proper suffix of it. */
  predicate ValueEndsMatch(r: RawReference) {
    |r.value| < |r.matched| && r.matched[|r.matched| - |r.value|..] == r.value
  }

  lemma AsTextValuesEndMatches(s: string, ms: seq<Match>)
    requires forall i :: 0 <= i < |ms| ==> ms[i].start < ms[i].valueStart < ms[i].end <= |s|
    ensures forall r :: r in AsText(s, ms) ==> ValueEndsMatch(r)
  {
    var rs := AsText(s, ms);
    forall k | 0 <= k < |rs| ensures ValueEndsMatch(rs[k]) {
      var m := ms[k];
      SliceOfSlice(s, m.start, m.end, m.valueStart - m.start, m.end - m.start);
    }
  }

  /** All section matches, then all page matches, then all figure/table matches. */
  function ExtractReferences(citations: string): (refs: seq<RawReference>)
    ensures |refs| == |FindAll(SectionPattern, citations)| + |FindAll(PagePattern, citations)|
                      + |FindAll(FigurePattern, citations)|
  {
    AsText(citations, FindAll(SectionPattern, citations))
    + AsText(citations, FindAll(PagePattern, citations))
    + AsText(citations, FindAll(FigurePattern, citations))
  }

  lemma DottedSliceShape(s: string, lo: nat, hi: nat)
    requires lo <= hi <= |s| && DottedSpan(s, lo, hi)
    ensures DottedSpan(s[lo..hi], 0, hi - lo)
  {
    var v := s[lo..hi];
    forall i | 0 <= i < |v|
      ensures IsDigit(v[i]) || (v[i] == '.' && i + 1 < |v| && IsDigit(v[i + 1]))
    {
      assert v[i] == s[lo + i];
      assert i + 1 < |v| ==> v[i + 1] == s[lo + i + 1];
    }
  }

  lemma PageSliceShape(s: string, lo: nat, hi: nat)
    requires lo <= hi <= |s| && PageSpan(s, lo, hi)
    ensures PageSpan(s[lo..hi], 0, hi - lo)
  {
    var v := s[lo..hi];
    assert forall i :: 0 <= i < |v| ==> v[i] == s[lo + i];
    if !(lo < hi && AllDigits(s, lo, hi)) {
      var a, m, b :| lo < a <= m < b < hi && PageRangeAt(s, lo, a, m, b, hi);
      assert PageRangeAt(v, 0, a - lo, m - lo, b - lo, hi - lo);
    }
  }

  lemma ClassValuesAreNumeric(cls: PatternClass, s: string)
    ensures forall r :: r in AsText(s, FindAll(cls, s)) ==> ReferenceValue(r.value) && ValueEndsMatch(r)
  {
    var ms := FindAll(cls, s);
    var rs := AsText(s, ms);
    AsTextValuesEndMatches(s, ms);
    forall k | 0 <= k < |rs| ensures ReferenceValue(rs[k].value) {
      MatchValueIsNumeric(cls, s, ms[k]);
    }
  }

  lemma MatchValueIsNumeric(cls: PatternClass, s: string, m: Match)
    requires MatchAt(cls, s, m.start) == Some(m)
    ensures m.valueStart <= m.end <= |s| && ReferenceValue(s[m.valueStart..m.end])
  {
    ValueSliceIsNumeric(cls, s, m.valueStart, m.end);
  }

  lemma ValueSliceIsNumeric(cls: PatternClass, s: string, lo: nat, hi: nat)
    requires lo <= hi <= |s| && ValueSpan(cls, s, lo, hi)
    ensures ReferenceValue(s[lo..hi])
  {
    if cls == PagePattern {
      PageSliceShape(s, lo, hi);
    } else {
      DottedSliceShape(s, lo, hi);
    }
  }

  /**
   * Every extracted value is a digit/dot string or, for pages, a number or
   * two numbers joined by a dash, and it ends the text it was matched in.
   */
  lemma ReferenceValuesAreNumeric(citations: string)
    ensures forall r :: r in ExtractReferences(citations) ==> ReferenceValue(r.value) && ValueEndsMatch(r)
  {
    ClassValuesAreNumeric(SectionPattern, citations);
    ClassValuesAreNumeric(PagePattern, citations);
    ClassValuesAreNumeric(FigurePattern, citations);
  }

  /** `matched.split('.')[0].lower()`: the matched text up to its first dot, lower-cased. */
  function RefType(matched: string): (t: string)
    ensures |t| <= |matched|
    ensures '.' !in t
    ensures Find(matched, ".") == -1 ==> t == Lower(matched)
    ensures Find(matched, ".") != -1 ==> t == Lower(matched[..Find(matched, ".")])
  {
    var dot := Find(matched, ".");
    var head := if dot == -1 then matched else matched[..dot];
    assert '.' !in head by {
      if '.' in head {
        var k :| 0 <= k < |head| && head[k] == '.';
        assert OccursAt(matched, ".", k);
      }
    }
    Lower(head)
  }

  /** The regex `\b` at position `i` of `t`. */
  predicate WordBoundary(t: string, i: nat)
    requires i <= |t|
  {
    (i > 0 && IsWordChar(t[i - 1])) != (i < |t| && IsWordChar(t[i]))
  }

  predicate WholeWordAt(t: string, v: string, i: nat) {
    OccursAt(t, v, i) && WordBoundary(t, i) && WordBoundary(t, i + |v|)
  }

  /** `re.search(\b v \b, t)` from position `from` on. */
  function SearchWholeWordFrom(t: string, v: string, from: nat): (b: bool)
    requires from <= |t|
    ensures b <==> exists i :: from <= i <= |t| && WholeWordAt(t, v, i)
    decreases |t| - from
  {
    if from + |v| > |t| then false
    else WholeWordAt(t, v, from) || (from < |t| && SearchWholeWordFrom(t, v, from + 1))
  }

  /** `re.search(rf'\b{re.escape(v)}\b', text, re.IGNORECASE)` */
  predicate FoundInSource(text: string, v: string) {
    v != "" && SearchWholeWordFrom(Lower(text), Lower(v), 0)
  }

  /** `v.lower() in chunk["content"].lower()` for some retrieved chunk. */
  predicate FoundInChunks(chunks: seq<Chunk>, v: string) {
    v != "" && exists k :: 0 <= k < |chunks| && Contains(Lower(chunks[k].content), Lower(v))
  }

  /** The verification record of one reference. */
  function CheckReference(raw: RawReference, text: string, chunks: seq<Chunk>): (r: VerifiedReference)
    ensures r.refType == RefType(raw.matched) && r.reference == r.refType + " " + raw.value
    ensures r.confidence == HighConfidence <==> FoundInChunks(chunks, raw.value)
    ensures r.confidence == MediumConfidence <==> !FoundInChunks(chunks, raw.value) && FoundInSource(text, raw.value)
    ensures r.found <==> r.confidence != LowConfidence
  {
    var t := RefType(raw.matched);
    var confidence :=
      if FoundInChunks(chunks, raw.value) then HighConfidence
      else if FoundInSource(text, raw.value) then MediumConfidence
      else LowConfidence;
    VerifiedReference(t + " " + raw.value, confidence != LowConfidence, confidence, t)
  }

  function UnfoundCount(vs: seq<VerifiedReference>): (n: nat)
    ensures n <= |vs|
    ensures n == 0 <==> forall i :: 0 <= i < |vs| ==> vs[i].found
    ensures n == |vs| <==> forall i :: 0 <= i < |vs| ==> !vs[i].found
  {
    if vs == [] then 0
    else (if vs[0].found then 0 else 1) + UnfoundCount(vs[1..])
  }

  /** The share of references found nowhere, 0 when there are none. */
  function ReferenceScore(vs: seq<VerifiedReference>): (s: real)
    ensures s == Share(UnfoundCount(vs), |vs|)
  {
    Share(UnfoundCount(vs), |vs|)
  }

  /** `bool(citations and citations.lower() not in [...])` */
  predicate CitationPresent(citations: string) {
    citations != "" && Lower(citations) !in Placeholders
  }

  /**
   * The score after the absence penalty: an answer without a usable citation
   * string is raised to at least 0.7; otherwise the score is kept.
   */
  function PenalizedScore(base: real, citations: string, answer: string): (r: real)
    ensures r >= base
    ensures !CitationPresent(citations) && answer != "" ==>
              r >= MissingCitationScore && (r == base || r == MissingCitationScore)
    ensures CitationPresent(citations) || answer == "" ==> r == base
  {
    if !CitationPresent(citations) && answer != "" then Max(base, MissingCitationScore) else base
  }

  function StatusOf(score: real): (st: RiskStatus)
    ensures st == HighRisk <==> score > 0.5
    ensures st == MediumRisk <==> 0.2 < score <= 0.5
    ensures st == LowRisk <==> score <= 0.2
  {
    if score > 0.5 then HighRisk else if score > 0.2 then MediumRisk else LowRisk
  }

  /** One verification record per reference, in order. */
  function CheckAll(refs: seq<RawReference>, text: string, chunks: seq<Chunk>): (vs: seq<VerifiedReference>)
    ensures |vs| == |refs|
    ensures forall i :: 0 <= i < |refs| ==> vs[i] == CheckReference(refs[i], text, chunks)
  {
    seq(|refs|, i requires 0 <= i < |refs| => CheckReference(refs[i], text, chunks))
  }

  /** The result for already verified references. */
  function Assemble(verified: seq<VerifiedReference>, citations: string, answer: string): CitationCheck {
    var score := PenalizedScore(ReferenceScore(verified), citations, answer);
    CitationCheck(score, verified, CitationPresent(citations), StatusOf(score), |verified|)
  }

  /** What `verify_citations` returns, as a function of its inputs. */
  function CitationCheckOf(citations: string, text: string, chunks: seq<Chunk>, answer: string): (r: CitationCheck)
    ensures r.status == StatusOf(r.score) && r.citationPresent == CitationPresent(citations)
    ensures |r.verifiedCitations| == |ExtractReferences(citations)|
    ensures forall i :: 0 <= i < |r.verifiedCitations| ==> r.verifiedCitations[i].refType == RefType(ExtractReferences(citations)[i].matched)
  {
    Assemble(CheckAll(ExtractReferences(citations), text, chunks), citations, answer)
  }

  /**
   * One pass of the loop of `verify_citations`: a whole-word search of the
   * paper text, then a scan of the chunks that stops at the first hit.
   */
  method VerifyReference(raw: RawReference, text: string, chunks: seq<Chunk>) returns (v: VerifiedReference)
    ensures v == CheckReference(raw, text, chunks)
  {
    var value := raw.value;
    var needle := Lower(value);
    var refType := RefType(raw.matched);
    var inSource := value != "" && SearchWholeWordFrom(Lower(text), needle, 0);
    var inChunk := false;
    var j := 0;
    while j < |chunks| && !inChunk
      invariant 0 <= j <= |chunks|
      invariant inChunk ==> value != "" && 0 < j && Contains(Lower(chunks[j - 1].content), needle)
      invariant !inChunk ==> forall k :: 0 <= k < j ==> !(value != "" && Contains(Lower(chunks[k].content), needle))
    {
      inChunk := value != "" && Contains(Lower(chunks[j].content), needle);
      j := j + 1;
    }
    assert inChunk == FoundInChunks(chunks, value);
    assert inSource == FoundInSource(text, value);
    var confidence := if inChunk then HighConfidence else if inSource then MediumConfidence else LowConfidence;
    v := VerifiedReference(refType + " " + value, inChunk || inSource, confidence, refType);
  }

  /** The per-reference loop of `verify_citations`. */
  method VerifyReferences(refs: seq<RawReference>, text: string, chunks: seq<Chunk>)
    returns (results: seq<VerifiedReference>)
    ensures results == CheckAll(refs, text, chunks)
  {
    results := [];
    var i := 0;
    while i < |refs|
      invariant 0 <= i <= |refs|
      invariant |results| == i
      invariant results == CheckAll(refs[..i], text, chunks)
    {
      var v := VerifyReference(refs[i], text, chunks);
      assert refs[..i + 1] == refs[..i] + [refs[i]];
      CheckAllAppend(refs[..i], refs[i], text, chunks);
      results := results + [v];
      i := i + 1;
    }
    assert refs[..i] == refs;
  }

  lemma CheckAllAppend(refs: seq<RawReference>, last: RawReference, text: string, chunks: seq<Chunk>)
    ensures CheckAll(refs + [last], text, chunks) == CheckAll(refs, text, chunks) + [CheckReference(last, text, chunks)]
  {
    assert forall k :: 0 <= k < |refs| ==> (refs + [last])[k] == refs[k];
  }

  /** `verify_citations`: extraction, the per-reference loop, then the score, penalty and status. */
  method VerifyCitations(citations: string, text: string, chunks: seq<Chunk>, answer: string)
    returns (r: CitationCheck)
    ensures r == CitationCheckOf(citations, text, chunks, answer)
  {
    var refs := ExtractReferences(citations);
    var results := VerifyReferences(refs, text, chunks);
    var score := ReferenceScore(results);
    if !CitationPresent(citations) && answer != "" {
      score := Max(score, MissingCitationScore);
    }
    r := CitationCheck(score, results, CitationPresent(citations), StatusOf(score), |results|);
  }

  /** The score lies in [0,1] and one record is kept per extracted reference. */
  lemma CitationScoreBounds(citations: string, text: string, chunks: seq<Chunk>, answer: string)
    ensures var r := CitationCheckOf(citations, text, chunks, answer);
      0.0 <= r.score <= 1.0
      && r.citationsVerified == |r.verifiedCitations| == |ExtractReferences(citations)|
  {
  }

  /** An answer given without a usable citation string scores at least 0.7. */
  lemma MissingCitationsPenalty(citations: string, text: string, chunks: seq<Chunk>, answer: string)
    requires citations == "" || Lower(citations) in Placeholders
    requires answer != ""
    ensures CitationCheckOf(citations, text, chunks, answer).score >= 0.7
    ensures CitationCheckOf(citations, text, chunks, answer).status == HighRisk
  {
  }

  /**
   * With a citation present (or no answer) the score is exactly the unfound
   * share: unfound/total, or 0 when no reference was extracted.
   */
  lemma PresentCitationsScoreIsUnfoundShare(verified: seq<VerifiedReference>, citations: string, answer: string)
    requires CitationPresent(citations) || answer == ""
    ensures var r := Assemble(verified, citations, answer);
      r.score == Share(UnfoundCount(verified), |verified|)
      && (r.score == 0.0 <==> forall i :: 0 <= i < |verified| ==> verified[i].found)
      && (r.score == 1.0 <==> |verified| > 0 && forall i :: 0 <= i < |verified| ==> !verified[i].found)
  {
  }
}
