/**
 * `HallucinationDetector.cross_check_answer`: regenerate the answer twice,
 * keep the answers longer than ten characters, average the pairwise
 * similarity ratios and band the average. Regeneration and
 * `SequenceMatcher.ratio` are parameters.
 */
module Consistency {
  import opened Text
  import opened State
  import opened Ratios

  /** A similarity ratio, as `SequenceMatcher.ratio` returns. */
  type Ratio = r: real | 0.0 <= r <= 1.0 witness 0.0

  /** The two regenerated answers, or the message of the exception raised while producing them. */
  datatype Regeneration = Regenerated(variation1: string, variation2: string) | RegenerationFailed(error: string)

  datatype ConsistencyStatus = HighlyConsistent | ModeratelyConsistent | LowConsistency | Inconsistent

  /** The `consistency_check` dictionary in its four shapes. */
  datatype ConsistencyCheck =
    | ConsistencySkipped(reason: string)
    | ConsistencyError(error: string)
    | InsufficientData(validAnswers: nat)
    | Measured(averageSimilarity: real, status: ConsistencyStatus, variationCount: nat,
               pairwiseSimilarities: seq<real>, originalAnswerLength: nat,
               variation1Length: nat, variation2Length: nat)

  const SkipReason: string := "Missing answer or context"
  /** Answers of at most this many characters are not compared. */
  const MinAnswerLength: nat := 10

  predicate IsValidAnswer(a: string) {
    a != "" && |a| > MinAnswerLength
  }

  /** `[a for a in answers if a and len(a) > 10]` */
  function ValidAnswers(answers: seq<string>): (r: seq<string>)
    ensures |r| <= |answers|
    ensures forall i :: 0 <= i < |r| ==> IsValidAnswer(r[i])
    ensures forall a :: a in answers && IsValidAnswer(a) ==> a in r
    ensures forall a :: a in r ==> a in answers
  {
    if answers == [] then []
    else (if IsValidAnswer(answers[0]) then [answers[0]] else []) + ValidAnswers(answers[1..])
  }

  /** The filter drops only invalid answers: each valid answer is kept as often as it occurs. */
  lemma {:induction false} ValidAnswersKeepsMultiplicity(answers: seq<string>)
    ensures multiset(ValidAnswers(answers)) <= multiset(answers)
    ensures forall a :: IsValidAnswer(a) ==> multiset(ValidAnswers(answers))[a] == multiset(answers)[a]
  {
    if answers != [] {
      ValidAnswersKeepsMultiplicity(answers[1..]);
      assert answers == [answers[0]] + answers[1..];
    }
  }

  /** The filter keeps the order of its input: filtering a concatenation concatenates the filtered parts. */
  lemma {:induction false} ValidAnswersKeepsOrder(xs: seq<string>, ys: seq<string>)
    ensures ValidAnswers(xs + ys) == ValidAnswers(xs) + ValidAnswers(ys)
    decreases |xs|
  {
    if xs == [] {
      assert xs + ys == ys;
    } else {
      var head := if IsValidAnswer(xs[0]) then [xs[0]] else [];
      assert (xs + ys)[0] == xs[0] && (xs + ys)[1..] == xs[1..] + ys;
      ValidAnswersKeepsOrder(xs[1..], ys);
      assert ValidAnswers(xs + ys) == head + (ValidAnswers(xs[1..]) + ValidAnswers(ys));
    }
  }

  /** The ratios of answer `i` against every later answer, in order. */
  function Row(v: seq<string>, i: nat, ratio: (string, string) -> Ratio): (r: seq<real>)
    requires i < |v|
    ensures |r| == |v| - i - 1
    ensures forall j :: i < j < |v| ==> r[j - i - 1] == ratio(Lower(v[i]), Lower(v[j]))
  {
    seq(|v| - i - 1, k requires 0 <= k < |v| - i - 1 => ratio(Lower(v[i]), Lower(v[i + 1 + k])) as real)
  }

  /** The ratios of all pairs `i < j` with `i < n`, row by row. */
  function Pairs(v: seq<string>, n: nat, ratio: (string, string) -> Ratio): (r: seq<real>)
    requires n <= |v|
    ensures InUnitInterval(r)
  {
    if n == 0 then [] else Pairs(v, n - 1, ratio) + Row(v, n - 1, ratio)
  }

  /** There are `n(n-1)/2` pairs among `n` answers. */
  lemma {:induction false} PairCount(v: seq<string>, n: nat, ratio: (string, string) -> Ratio)
    requires n <= |v|
    ensures 2 * |Pairs(v, n, ratio)| == n * (2 * |v| - n - 1)
  {
    if n > 0 {
      PairCount(v, n - 1, ratio);
      var m := 2 * |v| - n;
      assert |Pairs(v, n, ratio)| == |Pairs(v, n - 1, ratio)| + (|v| - n);
      assert (n - 1) * m == n * m - m;
      assert n * (m - 1) == n * m - n;
    }
  }

  function Band(avg: real): (st: ConsistencyStatus)
    ensures st == HighlyConsistent <==> avg > 0.8
    ensures st == ModeratelyConsistent <==> 0.6 < avg <= 0.8
    ensures st == LowConsistency <==> 0.4 < avg <= 0.6
    ensures st == Inconsistent <==> avg <= 0.4
  {
    if avg > 0.8 then HighlyConsistent
    else if avg > 0.6 then ModeratelyConsistent
    else if avg > 0.4 then LowConsistency
    else Inconsistent
  }

  /** What `cross_check_answer` puts under `consistency_check`. */
  function ConsistencyOf(answer: string, chunks: seq<Chunk>, regen: Regeneration,
                         ratio: (string, string) -> Ratio): (r: ConsistencyCheck)
    ensures r.ConsistencySkipped? <==> answer == "" || chunks == []
    ensures r.ConsistencyError? <==> answer != "" && chunks != [] && regen.RegenerationFailed?
  {
    if answer == "" || chunks == [] then ConsistencySkipped(SkipReason)
    else
      match regen
      case RegenerationFailed(e) => ConsistencyError(e)
      case Regenerated(a1, a2) =>
        var valid := ValidAnswers([answer, a1, a2]);
        if |valid| < 2 then InsufficientData(|valid|)
        else
          var sims := Pairs(valid, |valid|, ratio);
          var avg := Mean(sims);
          Measured(avg, Band(avg), |valid|, sims, |answer|, |a1|, |a2|)
  }

  /** `average_similarity`; the three unmeasured shapes all report 0. */
  function AverageSimilarity(c: ConsistencyCheck): real {
    if c.Measured? then c.averageSimilarity else 0.0
  }

  /** One more ratio extends the filled part of row `i` by the next pair. */
  lemma RowStep(v: seq<string>, i: nat, j: nat, ratio: (string, string) -> Ratio, prefix: seq<real>)
    requires i < j < |v|
    ensures prefix + Row(v, i, ratio)[..j - i - 1] + [ratio(Lower(v[i]), Lower(v[j])) as real]
            == prefix + Row(v, i, ratio)[..j - i]
  {
    var row := Row(v, i, ratio);
    assert row[..j - i] == row[..j - i - 1] + [row[j - i - 1]];
  }

  /** The nested loop that fills `similarities`. */
  method PairwiseSimilarities(v: seq<string>, ratio: (string, string) -> Ratio) returns (sims: seq<real>)
    ensures sims == Pairs(v, |v|, ratio)
  {
    sims := [];
    var i := 0;
    while i < |v|
      invariant 0 <= i <= |v|
      invariant sims == Pairs(v, i, ratio)
    {
      var j := i + 1;
      ghost var before := sims;
      while j < |v|
        invariant i + 1 <= j <= |v|
        invariant sims == before + Row(v, i, ratio)[..j - i - 1]
      {
        RowStep(v, i, j, ratio, before);
        sims := sims + [ratio(Lower(v[i]), Lower(v[j])) as real];
        j := j + 1;
      }
      assert Row(v, i, ratio)[..|v| - i - 1] == Row(v, i, ratio);
      i := i + 1;
    }
  }

  /** `cross_check_answer` */
  method CrossCheckAnswer(answer: string, chunks: seq<Chunk>, regen: Regeneration,
                          ratio: (string, string) -> Ratio)
    returns (r: ConsistencyCheck)
    ensures r == ConsistencyOf(answer, chunks, regen, ratio)
  {
    if answer == "" || chunks == [] {
      return ConsistencySkipped(SkipReason);
    }
    if regen.RegenerationFailed? {
      return ConsistencyError(regen.error);
    }
    var valid := ValidAnswers([answer, regen.variation1, regen.variation2]);
    if |valid| < 2 {
      return InsufficientData(|valid|);
    }
    var sims := PairwiseSimilarities(valid, ratio);
    var avg := Mean(sims);
    r := Measured(avg, Band(avg), |valid|, sims, |answer|, |regen.variation1|, |regen.variation2|);
  }

  /**
   * The average lies in [0,1]; skipped, failed and insufficient checks
   * report 0; a measured check compares two or three answers over all pairs.
   */
  lemma ConsistencyShape(answer: string, chunks: seq<Chunk>, regen: Regeneration, ratio: (string, string) -> Ratio)
    ensures var c := ConsistencyOf(answer, chunks, regen, ratio);
      0.0 <= AverageSimilarity(c) <= 1.0
      && (!c.Measured? ==> AverageSimilarity(c) == 0.0)
      && (c.Measured? ==> 2 <= c.variationCount <= 3
                          && 2 * |c.pairwiseSimilarities| == c.variationCount * (c.variationCount - 1))
  {
    var c := ConsistencyOf(answer, chunks, regen, ratio);
    if c.Measured? {
      var valid := ValidAnswers([answer, regen.variation1, regen.variation2]);
      PairCount(valid, |valid|, ratio);
    }
  }
}
