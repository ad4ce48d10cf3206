/**
 * `PaperService`: the response dictionary handed back to the API. After a
 * full pipeline run the result dictionary is normalised in place; when the
 * pipeline raises, a fixed fallback dictionary is returned instead.
 */
module PaperService {
  import opened State

  const CheckKey: string := "comprehensive_hallucination_check"
  const ScoreKey: string := "hallucination_score"
  const RiskKey: string := "hallucination_risk"
  const RelevancyKey: string := "answer_relevancy_score"
  const MetadataKey: string := "metadata"
  const AvgRelevanceKey: string := "avg_relevance_score"
  const UnknownRisk: string := "UNKNOWN"

  /** Whether the dictionary holds a metadata dictionary with an average relevance score. */
  predicate HasAvgRelevance(m: map<string, Value>) {
    MetadataKey in m && m[MetadataKey].Dict? && AvgRelevanceKey in m[MetadataKey].entries
  }

  /**
   * The dictionary after `_normalize_response`: the combined check is
   * removed and its overall score and risk (0 and `UNKNOWN` when absent)
   * become the top-level hallucination fields; the average relevance in
   * the metadata, when there is one, becomes the answer relevancy score.
   * No other key is added, removed or changed.
   */
  function Normalized(m: map<string, Value>): (n: map<string, Value>)
    ensures CheckKey !in n
    ensures CheckKey in m ==>
              ScoreKey in n && RiskKey in n
              && n[ScoreKey] == Get(m[CheckKey], "overall_score", Int(0))
              && n[RiskKey] == Get(m[CheckKey], "overall_risk", Str(UnknownRisk))
    ensures CheckKey !in m ==> (ScoreKey in n <==> ScoreKey in m) && (RiskKey in n <==> RiskKey in m)
    ensures CheckKey !in m && ScoreKey in m ==> n[ScoreKey] == m[ScoreKey]
    ensures CheckKey !in m && RiskKey in m ==> n[RiskKey] == m[RiskKey]
    ensures HasAvgRelevance(m) ==> RelevancyKey in n && n[RelevancyKey] == m[MetadataKey].entries[AvgRelevanceKey]
    ensures !HasAvgRelevance(m) ==> (RelevancyKey in n <==> RelevancyKey in m)
    ensures !HasAvgRelevance(m) && RelevancyKey in m ==> n[RelevancyKey] == m[RelevancyKey]
    ensures forall k :: k in m && k !in {CheckKey, ScoreKey, RiskKey, RelevancyKey} ==> k in n && n[k] == m[k]
    ensures forall k :: k in n ==> k in m || k in {ScoreKey, RiskKey, RelevancyKey}
  {
    var afterCheck :=
      if CheckKey in m then
        var check := m[CheckKey];
        (m - {CheckKey})[ScoreKey := Get(check, "overall_score", Int(0))]
                        [RiskKey := Get(check, "overall_risk", Str(UnknownRisk))]
      else m;
    if HasAvgRelevance(afterCheck) then
      afterCheck[RelevancyKey := afterCheck[MetadataKey].entries[AvgRelevanceKey]]
    else afterCheck
  }

  /** Normalising a normalised response changes nothing. */
  lemma NormalizeIsIdempotent(m: map<string, Value>)
    ensures Normalized(Normalized(m)) == Normalized(m)
  {
    var n := Normalized(m);
    assert HasAvgRelevance(n) <==> HasAvgRelevance(m);
    assert Normalized(n).Keys == n.Keys;
  }

  /** The response dictionary that `_normalize_response` mutates and returns. */
  class Response {
    var entries: map<string, Value>

    constructor (entries: map<string, Value>)
      ensures this.entries == entries
    {
      this.entries := entries;
    }

    /** `_normalize_response`: pops and sets keys of this same dictionary. */
    method Normalize()
      modifies this
      ensures entries == Normalized(old(entries))
    {
      if CheckKey in entries {
        var check := entries[CheckKey];
        entries := entries - {CheckKey};
        entries := entries[ScoreKey := Get(check, "overall_score", Int(0))];
        entries := entries[RiskKey := Get(check, "overall_risk", Str(UnknownRisk))];
      }
      if MetadataKey in entries && entries[MetadataKey].Dict? && AvgRelevanceKey in entries[MetadataKey].entries {
        entries := entries[RelevancyKey := entries[MetadataKey].entries[AvgRelevanceKey]];
      }
    }
  }

  /**
   * The dictionary `analyze_paper` returns when the pipeline raises: the
   * error text, the request, and fixed placeholders for the answer, its
   * citations and its hallucination assessment, marked not cached.
   */
  function ErrorFallback(error: string, arxivId: string, question: string, jobId: string): (r: map<string, Value>)
    ensures r.Keys == {"error", "arxiv_id", "question", "answer", "citations", ScoreKey, RiskKey, "cached", "job_id"}
    ensures r["error"] == Str(error) && r["arxiv_id"] == Str(arxivId) && r["question"] == Str(question)
    ensures r["job_id"] == Str(jobId) && r["cached"] == Bool(false)
    ensures r["answer"] == Str("No answer generated") && r["citations"] == Str("No citations mentioned")
    ensures r[ScoreKey] == Int(0) && r[RiskKey] == Str(UnknownRisk)
  {
    map["error" := Str(error), "arxiv_id" := Str(arxivId), "question" := Str(question),
        "answer" := Str("No answer generated"), "citations" := Str("No citations mentioned"),
        ScoreKey := Int(0), RiskKey := Str(UnknownRisk), "cached" := Bool(false), "job_id" := Str(jobId)]
  }

  /**
   * The fallback reports the same hallucination score and risk as a
   * normalised response whose combined check carried neither, and it is
   * already normalised.
   */
  lemma FallbackAgreesWithNormalizedDefaults(error: string, arxivId: string, question: string, jobId: string)
    ensures var f := ErrorFallback(error, arxivId, question, jobId);
            var n := Normalized(map[CheckKey := Dict(map[])]);
            f[ScoreKey] == n[ScoreKey] && f[RiskKey] == n[RiskKey]
    ensures Normalized(ErrorFallback(error, arxivId, question, jobId)) == ErrorFallback(error, arxivId, question, jobId)
  {
    var f := ErrorFallback(error, arxivId, question, jobId);
    assert !HasAvgRelevance(f);
    assert Normalized(f).Keys == f.Keys;
  }
}
