/**
 * `HallucinationDetector.verify_claims_with_nli`: split the answer into claims
 * and ask, claim by claim, whether the retrieved context supports it. Both
 * language-model calls are parameters: `claims` is what the extraction chain
 * returned (or the message of the exception it raised) and `nli` gives the
 * verdict for a claim against the context, or the exception it raised.
 */
module ClaimVerifier {
  import opened Wrappers
  import opened Text
  import opened State
  import opened Ratios

  /** The parsed JSON of one NLI call (`verdict` and `explanation`). */
  datatype NliAnswer = NliAnswer(verdict: string, explanation: string)

  /** One entry of `verifications`. */
  datatype ClaimVerification = ClaimVerification(claim: string, verdict: string, explanation: string)

  /** The `llm_verification` dictionary in its three shapes. */
  datatype LlmVerification =
    | LlmSkipped(reason: string)
    | LlmFailed(reason: string)
    | LlmVerified(verifications: seq<ClaimVerification>, supportedClaims: nat, totalClaims: nat, score: real)

  const SupportedVerdict: string := "SUPPORTED"
  const SkipReason: string := "Missing answer or context"
  /** The score reported when no claim was extracted. */
  const NoClaimsScore: real := 0.5

  /** The chunk contents joined by newlines. */
  function NliContext(chunks: seq<Chunk>): string {
    Join(seq(|chunks|, i requires 0 <= i < |chunks| => chunks[i].content), "\n")
  }

  function Record(claim: string, a: NliAnswer): ClaimVerification {
    ClaimVerification(claim, a.verdict, a.explanation)
  }

  /**
   * The claim loop: a verification per claim in order, or the error of the
   * first NLI call that raised (the loop stops there).
   */
  function VerifyAll(claims: seq<string>, context: string, nli: (string, string) -> Result<NliAnswer, string>)
    : (r: Result<seq<ClaimVerification>, string>)
    ensures r.Ok? <==> forall k :: 0 <= k < |claims| ==> nli(claims[k], context).Ok?
    ensures r.Ok? ==> |r.value| == |claims|
    ensures r.Ok? ==>
              forall k :: 0 <= k < |claims| ==> r.value[k] == Record(claims[k], nli(claims[k], context).value)
  {
    if claims == [] then Ok([])
    else
      match nli(claims[0], context)
      case Err(e) => Err(e)
      case Ok(a) =>
        assert forall k :: 1 <= k < |claims| ==> claims[k] == claims[1..][k - 1];
        Prepend([Record(claims[0], a)], VerifyAll(claims[1..], context, nli))
  }

  /** Verifications already made, in front of the outcome of the rest of the loop. */
  function Prepend(done: seq<ClaimVerification>, rest: Result<seq<ClaimVerification>, string>)
    : (r: Result<seq<ClaimVerification>, string>)
    ensures r.Ok? <==> rest.Ok?
    ensures r.Ok? ==> |r.value| == |done| + |rest.value| && r.value[..|done|] == done && r.value[|done|..] == rest.value
    ensures r.Err? ==> r.error == rest.error
  {
    match rest
    case Err(e) => Err(e)
    case Ok(vs) => Ok(done + vs)
  }

  /**
   * When the loop fails, the error is that of the first claim whose NLI
   * call raised, and every claim before it was verified.
   */
  lemma {:induction false} VerifyAllStopsAtFirstFailure(claims: seq<string>, context: string,
                                                        nli: (string, string) -> Result<NliAnswer, string>)
    requires VerifyAll(claims, context, nli).Err?
    ensures exists j :: 0 <= j < |claims| && nli(claims[j], context).Err?
                        && VerifyAll(claims, context, nli).error == nli(claims[j], context).error
                        && forall k :: 0 <= k < j ==> nli(claims[k], context).Ok?
  {
    if nli(claims[0], context).Err? {
      assert nli(claims[0], context).Err?;
    } else {
      VerifyAllStopsAtFirstFailure(claims[1..], context, nli);
      var j :| 0 <= j < |claims[1..]| && nli(claims[1..][j], context).Err?
               && VerifyAll(claims[1..], context, nli).error == nli(claims[1..][j], context).error
               && forall k :: 0 <= k < j ==> nli(claims[1..][k], context).Ok?;
      assert forall k :: 1 <= k <= j + 1 ==> claims[k] == claims[1..][k - 1];
      assert nli(claims[j + 1], context).Err?;
    }
  }

  lemma VerifyAllStep(claims: seq<string>, i: nat, context: string, nli: (string, string) -> Result<NliAnswer, string>)
    requires i < |claims|
    ensures VerifyAll(claims[i..], context, nli)
              == match nli(claims[i], context)
                 case Err(e) => Err(e)
                 case Ok(a) => Prepend([Record(claims[i], a)], VerifyAll(claims[i + 1..], context, nli))
  {
    assert claims[i..][0] == claims[i];
    assert claims[i..][1..] == claims[i + 1..];
  }

  lemma PrependTwice(done: seq<ClaimVerification>, v: ClaimVerification, rest: Result<seq<ClaimVerification>, string>)
    ensures Prepend(done, Prepend([v], rest)) == Prepend(done + [v], rest)
  {
    if rest.Ok? {
      assert done + ([v] + rest.value) == (done + [v]) + rest.value;
    }
  }

  function SupportedCount(vs: seq<ClaimVerification>): (n: nat)
    ensures n <= |vs|
    ensures n == |vs| <==> forall i :: 0 <= i < |vs| ==> vs[i].verdict == SupportedVerdict
    ensures n == 0 <==> forall i :: 0 <= i < |vs| ==> vs[i].verdict != SupportedVerdict
  {
    if vs == [] then 0
    else SupportedCount(vs[..|vs| - 1]) + (if vs[|vs| - 1].verdict == SupportedVerdict then 1 else 0)
  }

  /** `1 - supported / total`, or 0.5 without claims. */
  function LlmScore(vs: seq<ClaimVerification>): (s: real)
    ensures 0.0 <= s <= 1.0
    ensures vs == [] ==> s == NoClaimsScore
    ensures vs != [] ==> (s == 0.0 <==> forall i :: 0 <= i < |vs| ==> vs[i].verdict == SupportedVerdict)
    ensures vs != [] ==> (s == 1.0 <==> forall i :: 0 <= i < |vs| ==> vs[i].verdict != SupportedVerdict)
  {
    if vs == [] then NoClaimsScore else 1.0 - Share(SupportedCount(vs), |vs|)
  }

  /** What `verify_claims_with_nli` puts under `llm_verification`. */
  function ClaimCheckOf(answer: string, chunks: seq<Chunk>, claims: Result<seq<string>, string>,
                        nli: (string, string) -> Result<NliAnswer, string>): (r: LlmVerification)
    ensures r.LlmSkipped? <==> answer == "" || chunks == []
    ensures r.LlmVerified? ==> claims.Ok? && |r.verifications| == |claims.value|
  {
    if answer == "" || chunks == [] then LlmSkipped(SkipReason)
    else
      match claims
      case Err(e) => LlmFailed(e)
      case Ok(cs) =>
        match VerifyAll(cs, NliContext(chunks), nli)
        case Err(e) => LlmFailed(e)
        case Ok(vs) => LlmVerified(vs, SupportedCount(vs), |vs|, LlmScore(vs))
  }

  /** `verify_claims_with_nli`, with its loop over the extracted claims. */
  method VerifyClaimsWithNli(answer: string, chunks: seq<Chunk>, claims: Result<seq<string>, string>,
                             nli: (string, string) -> Result<NliAnswer, string>)
    returns (r: LlmVerification)
    ensures r == ClaimCheckOf(answer, chunks, claims, nli)
  {
    if answer == "" || chunks == [] {
      return LlmSkipped(SkipReason);
    }
    var context := NliContext(chunks);
    if claims.Err? {
      return LlmFailed(claims.error);
    }
    var cs := claims.value;
    var verifications: seq<ClaimVerification> := [];
    var i := 0;
    while i < |cs|
      invariant 0 <= i <= |cs|
      invariant VerifyAll(cs, context, nli) == Prepend(verifications, VerifyAll(cs[i..], context, nli))
    {
      var answerOrError := nli(cs[i], context);
      VerifyAllStep(cs, i, context, nli);
      if answerOrError.Err? {
        return LlmFailed(answerOrError.error);
      }
      var v := Record(cs[i], answerOrError.value);
      PrependTwice(verifications, v, VerifyAll(cs[i + 1..], context, nli));
      verifications := verifications + [v];
      i := i + 1;
    }
    assert cs[i..] == [];
    assert verifications + [] == verifications;
    var supported := SupportedCount(verifications);
    r := LlmVerified(verifications, supported, |verifications|, LlmScore(verifications));
  }

  /** Skipped and failed checks carry no score; a verified one has a score in [0,1]. */
  lemma ClaimScoreCases(answer: string, chunks: seq<Chunk>, claims: Result<seq<string>, string>,
                        nli: (string, string) -> Result<NliAnswer, string>)
    ensures var r := ClaimCheckOf(answer, chunks, claims, nli);
      (answer == "" || chunks == [] <==> r.LlmSkipped?)
      && (r.LlmFailed? ==> claims.Err? || exists c :: c in claims.value && nli(c, NliContext(chunks)).Err?)
      && (r.LlmVerified? ==> 0.0 <= r.score <= 1.0 && r.totalClaims == |claims.value|
                             && r.supportedClaims <= r.totalClaims)
  {
    var r := ClaimCheckOf(answer, chunks, claims, nli);
    if r.LlmFailed? && claims.Ok? {
      VerifyAllStopsAtFirstFailure(claims.value, NliContext(chunks), nli);
      var j :| 0 <= j < |claims.value| && nli(claims.value[j], NliContext(chunks)).Err?;
      assert claims.value[j] in claims.value;
    }
  }
}
