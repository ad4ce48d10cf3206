/**
 * `HallucinationDetector.comprehensive_check`: run the three checks, take a
 * weighted sum of their scores and map it to a risk tier.
 */
module RiskAggregator {
  import opened Wrappers
  import opened State
  import opened Ratios
  import opened Config
  import opened CitationVerifier
  import opened ClaimVerifier
  import opened Consistency

  datatype OverallRisk = Low | Medium | High | Critical

  /** `component_scores` */
  datatype ComponentScores = ComponentScores(citationVerification: real, llmVerification: real, consistencyCheck: real)

  /** The `comprehensive_hallucination_check` dictionary. */
  datatype Verdict = Verdict(
    overallScore: real,
    overallRisk: OverallRisk,
    componentScores: ComponentScores,
    citationDetails: CitationCheck,
    llmDetails: LlmVerification,
    consistencyDetails: ConsistencyCheck)

  /** The claim score assumed when the NLI check produced none. */
  const MissingLlmScore: real := 0.5

  /** `llm_check.get("llm_verification", {}).get("hallucination_score", 0.5)` */
  function LlmComponent(l: LlmVerification): (r: real)
    ensures !l.LlmVerified? ==> r == MissingLlmScore
    ensures (0.0 <= r <= 1.0) <==> (!l.LlmVerified? || 0.0 <= l.score <= 1.0)
  {
    if l.LlmVerified? then l.score else MissingLlmScore
  }

  /** `1 - average_similarity` */
  function ConsistencyComponent(c: ConsistencyCheck): (r: real)
    ensures (0.0 <= r <= 1.0) <==> (0.0 <= AverageSimilarity(c) <= 1.0)
    ensures !c.Measured? ==> r == 1.0
    ensures r == 0.0 <==> c.Measured? && c.averageSimilarity == 1.0
  {
    1.0 - AverageSimilarity(c)
  }

  function WeightedScore(w: Weights, citation: real, llm: real, consistency: real): real {
    citation * w.citation + llm * w.llm + consistency * w.consistency
  }

  function RiskOf(score: real): (r: OverallRisk)
    ensures r == Critical <==> score > 0.7
    ensures r == High <==> 0.5 < score <= 0.7
    ensures r == Medium <==> 0.3 < score <= 0.5
    ensures r == Low <==> score <= 0.3
  {
    if score > 0.7 then Critical
    else if score > 0.5 then High
    else if score > 0.3 then Medium
    else Low
  }

  function Rank(r: OverallRisk): nat {
    match r
    case Low => 0
    case Medium => 1
    case High => 2
    case Critical => 3
  }

  /** A higher score never gives a lower tier. */
  lemma RiskIsMonotone(a: real, b: real)
    requires a <= b
    ensures Rank(RiskOf(a)) <= Rank(RiskOf(b))
  {
  }

  /** The verdict for three finished checks. */
  function Aggregate(w: Weights, citation: CitationCheck, llm: LlmVerification, consistency: ConsistencyCheck): (v: Verdict)
    ensures v.componentScores == ComponentScores(citation.score, LlmComponent(llm), ConsistencyComponent(consistency))
    ensures v.overallScore == WeightedScore(w, v.componentScores.citationVerification,
                                            v.componentScores.llmVerification, v.componentScores.consistencyCheck)
    ensures v.overallRisk == RiskOf(v.overallScore)
    ensures v.citationDetails == citation && v.llmDetails == llm && v.consistencyDetails == consistency
  {
    var c := citation.score;
    var l := LlmComponent(llm);
    var s := ConsistencyComponent(consistency);
    var score := WeightedScore(w, c, l, s);
    Verdict(score, RiskOf(score), ComponentScores(c, l, s), citation, llm, consistency)
  }

  /** `comprehensive_check`: the three checks in order, then the aggregate. */
  method ComprehensiveCheck(w: Weights, citations: string, text: string, chunks: seq<Chunk>, answer: string,
                            claims: Result<seq<string>, string>, nli: (string, string) -> Result<NliAnswer, string>,
                            regen: Regeneration, ratio: (string, string) -> Ratio)
    returns (v: Verdict)
    ensures v == Aggregate(w, CitationCheckOf(citations, text, chunks, answer),
                           ClaimCheckOf(answer, chunks, claims, nli),
                           ConsistencyOf(answer, chunks, regen, ratio))
  {
    var citationCheck := VerifyCitations(citations, text, chunks, answer);
    var llmCheck := VerifyClaimsWithNli(answer, chunks, claims, nli);
    var consistencyCheck := CrossCheckAnswer(answer, chunks, regen, ratio);
    v := Aggregate(w, citationCheck, llmCheck, consistencyCheck);
  }

  predicate Convex(w: Weights) {
    w.citation >= 0.0 && w.llm >= 0.0 && w.consistency >= 0.0 && w.citation + w.llm + w.consistency == 1.0
  }

  lemma ScaledStaysBelow(x: real, w: real) returns (p: real)
    requires 0.0 <= x <= 1.0 && w >= 0.0
    ensures p == x * w
    ensures 0.0 <= p <= w
  {
    assert (1.0 - x) * w == w - x * w;
    assert (1.0 - x) * w >= 0.0;
    assert 0.0 <= x * w <= w;
    p := x * w;
  }

  lemma ConvexCombination(x: real, y: real, z: real, a: real, b: real, d: real)
    requires 0.0 <= x <= 1.0 && 0.0 <= y <= 1.0 && 0.0 <= z <= 1.0
    requires a >= 0.0 && b >= 0.0 && d >= 0.0 && a + b + d == 1.0
    ensures 0.0 <= x * a + y * b + z * d <= 1.0
  {
    var p := ScaledStaysBelow(x, a);
    var q := ScaledStaysBelow(y, b);
    var r := ScaledStaysBelow(z, d);
    assert p + q + r <= 1.0;
  }

  /** With non-negative weights summing to 1, components in [0,1] give a score in [0,1]. */
  lemma ConvexScoreInUnitInterval(w: Weights, c: real, l: real, s: real)
    requires Convex(w)
    requires 0.0 <= c <= 1.0 && 0.0 <= l <= 1.0 && 0.0 <= s <= 1.0
    ensures 0.0 <= WeightedScore(w, c, l, s) <= 1.0
  {
    ConvexCombination(c, l, s, w.citation, w.llm, w.consistency);
  }

  /** The three components always lie in [0,1]. */
  lemma ComponentsInUnitInterval(citations: string, text: string, chunks: seq<Chunk>, answer: string,
                                 claims: Result<seq<string>, string>, nli: (string, string) -> Result<NliAnswer, string>,
                                 regen: Regeneration, ratio: (string, string) -> Ratio)
    ensures var v := Aggregate(DefaultWeights, CitationCheckOf(citations, text, chunks, answer),
                               ClaimCheckOf(answer, chunks, claims, nli),
                               ConsistencyOf(answer, chunks, regen, ratio));
      0.0 <= v.componentScores.citationVerification <= 1.0
      && 0.0 <= v.componentScores.llmVerification <= 1.0
      && 0.0 <= v.componentScores.consistencyCheck <= 1.0
  {
    CitationScoreBounds(citations, text, chunks, answer);
    ClaimScoreCases(answer, chunks, claims, nli);
    ConsistencyShape(answer, chunks, regen, ratio);
  }

  /** With the default weights the overall score lies in [0,1]. */
  lemma DefaultScoreInUnitInterval(citations: string, text: string, chunks: seq<Chunk>, answer: string,
                                   claims: Result<seq<string>, string>, nli: (string, string) -> Result<NliAnswer, string>,
                                   regen: Regeneration, ratio: (string, string) -> Ratio)
    ensures var v := Aggregate(DefaultWeights, CitationCheckOf(citations, text, chunks, answer),
                               ClaimCheckOf(answer, chunks, claims, nli),
                               ConsistencyOf(answer, chunks, regen, ratio));
      0.0 <= v.overallScore <= 1.0
  {
    ComponentsInUnitInterval(citations, text, chunks, answer, claims, nli, regen, ratio);
    var v := Aggregate(DefaultWeights, CitationCheckOf(citations, text, chunks, answer),
                       ClaimCheckOf(answer, chunks, claims, nli),
                       ConsistencyOf(answer, chunks, regen, ratio));
    ConvexScoreInUnitInterval(DefaultWeights, v.componentScores.citationVerification,
                              v.componentScores.llmVerification, v.componentScores.consistencyCheck);
  }

  /**
   * Without an answer the claim and consistency checks are skipped, so they
   * contribute 0.4 * 0.5 + 0.2 * 1.0: the score is 0.4 plus the weighted
   * citation share, and the tier is never LOW. With no reference extracted
   * the score is exactly 0.4, which is MEDIUM.
   */
  lemma MissingAnswerIsAtLeastMedium(citations: string, text: string, chunks: seq<Chunk>,
                                     claims: Result<seq<string>, string>, nli: (string, string) -> Result<NliAnswer, string>,
                                     regen: Regeneration, ratio: (string, string) -> Ratio)
    ensures var v := Aggregate(DefaultWeights, CitationCheckOf(citations, text, chunks, ""),
                               ClaimCheckOf("", chunks, claims, nli),
                               ConsistencyOf("", chunks, regen, ratio));
      v.overallScore == 0.4 * v.componentScores.citationVerification + 0.4
      && v.componentScores.llmVerification == 0.5
      && v.componentScores.consistencyCheck == 1.0
      && v.overallRisk != Low
      && (ExtractReferences(citations) == [] ==> v.overallScore == 0.4 && v.overallRisk == Medium)
  {
    CitationScoreBounds(citations, text, chunks, "");
    var c := CitationCheckOf(citations, text, chunks, "");
    var l := ClaimCheckOf("", chunks, claims, nli);
    var k := ConsistencyOf("", chunks, regen, ratio);
    var v := Aggregate(DefaultWeights, c, l, k);
    assert v.componentScores == ComponentScores(c.score, 0.5, 1.0);
    assert v.overallScore == c.score * 0.4 + 0.5 * 0.4 + 1.0 * 0.2;
  }

  /** The default weights are convex. */
  lemma DefaultWeightsAreConvex()
    ensures Convex(DefaultWeights)
  {
  }
}
