/**
 * `QAAgent`: retrieve the chunks for a question and average their scores;
 * build the prompt context from the chunks, and split the model's reply into
 * an answer and a citation string. Retrieval and the language model are
 * parameters.
 */
module QAAgent {
  import opened Wrappers
  import opened Text
  import opened State
  import opened Ratios

  const NoAnswer: string := "Could not find relevant information in the paper."
  const NoSections: string := "No relevant sections found"
  const NoChunksError: string := "No relevant chunks retrieved"
  const MissingCitations: string := "Not provided"
  const AnswerMarker: string := "Answer:"
  const CitationsMarker: string := "Citations:"

  /** The outcome of `retrieve_context`. */
  datatype RetrieveResult =
    | Retrieved(retrievedChunks: seq<Chunk>, chunksRetrieved: nat, avgRelevanceScore: real, retrievalMethod: string)
    | RetrieveError(state: map<string, Value>)

  /** The outcome of `generate_answer`. */
  datatype GenerateResult =
    | NoChunks(answer: string, citations: string, answerGenerated: bool, error: string)
    | Generated(answer: string, citations: string, retrievedChunks: seq<Chunk>,
                chunksUsed: seq<Option<int>>, chunkRelevanceScores: seq<real>)
    | GenerateError(state: map<string, Value>)

  function Scores(chunks: seq<Chunk>): (r: seq<real>)
    ensures |r| == |chunks| && forall i :: 0 <= i < |chunks| ==> r[i] == chunks[i].relevanceScore
  {
    seq(|chunks|, i requires 0 <= i < |chunks| => chunks[i].relevanceScore)
  }

  /**
   * `retrieve_context`: `retrieval` is what the vector store returned, or the
   * message of an exception raised around it.
   */
  function RetrieveContext(retrieval: Result<seq<Chunk>, string>): (r: RetrieveResult)
    ensures retrieval.Ok? <==> r.Retrieved?
    ensures r.Retrieved? ==> r.retrievedChunks == retrieval.value && r.chunksRetrieved == |retrieval.value|
    ensures r.Retrieved? && retrieval.value == [] ==> r.avgRelevanceScore == 0.0
    ensures r.Retrieved? && retrieval.value != [] ==>
              r.avgRelevanceScore * (|retrieval.value| as real) == Sum(Scores(retrieval.value))
    ensures r.Retrieved? && InUnitInterval(Scores(retrieval.value)) ==> 0.0 <= r.avgRelevanceScore <= 1.0
    ensures r.RetrieveError? ==> "error" in r.state && r.state["error"] == Str("Retrieve failed: " + retrieval.error)
  {
    match retrieval
    case Ok(chunks) => Retrieved(chunks, |chunks|, Mean(Scores(chunks)), "vector_similarity")
    case Err(e) => RetrieveError(CreateErrorState("Retrieve failed: " + e, "retrieve", map["retrieved_chunks" := List([])]))
  }

  /** How `f"{chunk_idx}"` renders the chunk index, `"unknown"` when the key is missing. */
  function IndexLabel(f: IndexField): (shown: string)
    ensures f.IndexValue? && f.index >= 0 ==> shown != "" && forall i :: 0 <= i < |shown| ==> IsDigit(shown[i])
    ensures f.IndexValue? && f.index < 0 ==> shown != "" && shown[0] == '-'
  {
    match f
    case NoIndexKey => "unknown"
    case NullIndex => "None"
    case IndexValue(i) => IntToString(i)
  }

  /** `f"[Chunk {chunk_idx}]: {content}"` */
  function ContextPart(c: Chunk): string {
    "[Chunk " + IndexLabel(c.chunkIndex) + "]: " + c.content
  }

  function ContextParts(chunks: seq<Chunk>): (parts: seq<string>)
    ensures |parts| == |chunks| && forall i :: 0 <= i < |chunks| ==> parts[i] == ContextPart(chunks[i])
  {
    seq(|chunks|, i requires 0 <= i < |chunks| => ContextPart(chunks[i]))
  }

  /** The loop that builds `context_parts`, then the join. */
  method BuildContext(chunks: seq<Chunk>) returns (context: string)
    ensures context == Join(ContextParts(chunks), "\n\n")
  {
    var parts: seq<string> := [];
    var i := 0;
    while i < |chunks|
      invariant 0 <= i <= |chunks|
      invariant parts == ContextParts(chunks[..i])
    {
      parts := parts + [ContextPart(chunks[i])];
      i := i + 1;
    }
    assert chunks[..i] == chunks;
    context := Join(parts, "\n\n");
  }

  lemma {:induction false} JoinHasEveryPart(parts: seq<string>, sep: string, k: nat) returns (at: nat)
    requires k < |parts|
    ensures OccursAt(Join(parts, sep), parts[k], at)
    decreases |parts|
  {
    if |parts| == 1 || k == 0 {
      at := 0;
      var j := Join(parts, sep);
      assert j[..|parts[0]|] == parts[0];
    } else {
      var rest := Join(parts[1..], sep);
      var inner := JoinHasEveryPart(parts[1..], sep, k - 1);
      var prefix := parts[0] + sep;
      at := |prefix| + inner;
      assert Join(parts, sep) == prefix + rest;
      assert (prefix + rest)[at..at + |parts[k]|] == rest[inner..inner + |parts[k]|];
    }
  }

  /** Every chunk's part, and hence its content, appears in the context. */
  lemma ContextMentionsEveryChunk(chunks: seq<Chunk>, k: nat)
    requires k < |chunks|
    ensures Contains(Join(ContextParts(chunks), "\n\n"), ContextPart(chunks[k]))
  {
    var at := JoinHasEveryPart(ContextParts(chunks), "\n\n", k);
  }

  /** The end of the run of newlines starting at `q`. */
  function NewlineRunEnd(s: string, q: nat): (r: nat)
    requires q <= |s|
    ensures q <= r <= |s|
    ensures forall i :: q <= i < r ==> s[i] == '\n'
    ensures r < |s| ==> s[r] != '\n'
    decreases |s| - q
  {
    if q < |s| && s[q] == '\n' then NewlineRunEnd(s, q + 1) else q
  }

  /** The lookahead `(?=\n*Citations:|$)` holds at `q` (`$` also matches before a final newline). */
  predicate AnswerStopsAt(s: string, q: nat)
    requires q <= |s|
  {
    OccursAt(s, CitationsMarker, NewlineRunEnd(s, q)) || q == |s| || (q + 1 == |s| && s[q] == '\n')
  }

  /** Where the lazy `(.*?)` group ends: the least position from `from` on where the lookahead holds. */
  function AnswerEnd(s: string, from: nat): (q: nat)
    requires from <= |s|
    ensures from <= q <= |s| && AnswerStopsAt(s, q)
    ensures forall p :: from <= p < q ==> !AnswerStopsAt(s, p)
    decreases |s| - from
  {
    if AnswerStopsAt(s, from) then from else AnswerEnd(s, from + 1)
  }

  /** The end of the line from `from` on: `.` does not match a newline. */
  function LineEnd(s: string, from: nat): (e: nat)
    requires from <= |s|
    ensures from <= e <= |s|
    ensures forall i :: from <= i < e ==> s[i] != '\n'
    ensures e < |s| ==> s[e] == '\n'
    decreases |s| - from
  {
    if from == |s| || s[from] == '\n' then from else LineEnd(s, from + 1)
  }

  /**
   * `re.search(r"Answer:\s*(.*?)(?=\n*Citations:|$)", response, re.DOTALL)`,
   * group 1 stripped; the whole reply when there is no `Answer:`.
   */
  function ExtractAnswer(response: string): (answer: string)
    ensures |answer| <= |response|
  {
    var a := Find(response, AnswerMarker);
    if a == -1 then response
    else
      var g := SkipSpace(response, a + |AnswerMarker|);
      Strip(response[g..AnswerEnd(response, g)])
  }

  /** `re.search(r"Citations:\s*(.*)", response)`, group 1 stripped; `"Not provided"` without a match. */
  function ExtractCitations(response: string): (citations: string)
    ensures Contains(response, CitationsMarker) ==> |citations| < |response|
  {
    var c := Find(response, CitationsMarker);
    if c == -1 then MissingCitations
    else
      var g := SkipSpace(response, c + |CitationsMarker|);
      Strip(response[g..LineEnd(response, g)])
  }

  /** Without an `Answer:` marker the whole reply is the answer, unstripped. */
  lemma AnswerWithoutMarker(response: string)
    requires !Contains(response, AnswerMarker)
    ensures ExtractAnswer(response) == response
  {
  }

  /** The lazy group stops before any `Citations:` it could reach. */
  lemma NoCitationsBeforeAnswerEnd(s: string, from: nat, p: nat)
    requires from <= |s| && from <= p < AnswerEnd(s, from)
    ensures !OccursAt(s, CitationsMarker, p)
  {
    if OccursAt(s, CitationsMarker, p) {
      assert s[p] == s[p..p + |CitationsMarker|][0];
      assert NewlineRunEnd(s, p) == p;
      assert AnswerStopsAt(s, p);
    }
  }

  /** An extracted answer never contains `Citations:` and is stripped. */
  lemma AnswerStopsBeforeCitations(response: string)
    requires Contains(response, AnswerMarker)
    ensures !Contains(ExtractAnswer(response), CitationsMarker)
    ensures var r := ExtractAnswer(response); r == [] || (!IsSpace(r[0]) && !IsSpace(r[|r| - 1]))
  {
    var a := Find(response, AnswerMarker);
    var g := SkipSpace(response, a + |AnswerMarker|);
    var q := AnswerEnd(response, g);
    assert ExtractAnswer(response) == Strip(response[g..q]);
    forall p | g <= p < q
      ensures !OccursAt(response, CitationsMarker, p)
    {
      NoCitationsBeforeAnswerEnd(response, g, p);
    }
    NotInStrippedSlice(response, g, q, CitationsMarker);
  }

  /** Extracted citations are stripped and lie within one line of the reply. */
  lemma CitationsShape(response: string)
    ensures !Contains(response, CitationsMarker) ==> ExtractCitations(response) == MissingCitations
    ensures Contains(response, CitationsMarker) ==>
              var r := ExtractCitations(response);
              '\n' !in r && (r == [] || (!IsSpace(r[0]) && !IsSpace(r[|r| - 1])))
  {
    if Contains(response, CitationsMarker) {
      var c := Find(response, CitationsMarker);
      var g := SkipSpace(response, c + |CitationsMarker|);
      var e := LineEnd(response, g);
      assert ExtractCitations(response) == Strip(response[g..e]);
      CharNotInStrippedSlice(response, g, e, '\n');
    }
  }

  function Indices(chunks: seq<Chunk>): (r: seq<Option<int>>)
    ensures |r| == |chunks|
    ensures forall i :: 0 <= i < |chunks| ==>
              r[i] == if chunks[i].chunkIndex.IndexValue? then Some(chunks[i].chunkIndex.index) else None
  {
    seq(|chunks|, i requires 0 <= i < |chunks| =>
      if chunks[i].chunkIndex.IndexValue? then Some(chunks[i].chunkIndex.index) else None)
  }

  function GenerateFailure(message: string, chunks: seq<Chunk>): GenerateResult {
    GenerateError(CreateErrorState("Generate failed: " + message, "generate",
      map["answer" := Str(""), "citations" := Str(""), "retrieved_chunks" := ChunkValues(chunks)]))
  }

  /**
   * `generate_answer` as a function of its inputs: `question` is `None` when
   * the state has none (the `KeyError` path) and `respond` is the language
   * model's reply for a question and a context.
   */
  function GenerateOf(question: Option<string>, chunks: seq<Chunk>,
                      respond: (string, string) -> Result<string, string>): (r: GenerateResult)
    ensures r.NoChunks? <==> chunks == []
    ensures r.Generated? <==> chunks != [] && question.Some?
                              && respond(question.value, Join(ContextParts(chunks), "\n\n")).Ok?
  {
    if chunks == [] then NoChunks(NoAnswer, NoSections, false, NoChunksError)
    else
      var context := Join(ContextParts(chunks), "\n\n");
      match question
      case None => GenerateFailure("'question'", chunks)
      case Some(q) =>
        match respond(q, context)
        case Err(e) => GenerateFailure(e, chunks)
        case Ok(response) =>
          Generated(ExtractAnswer(response), ExtractCitations(response), chunks, Indices(chunks), Scores(chunks))
  }

  /** `generate_answer` */
  method GenerateAnswer(question: Option<string>, chunks: seq<Chunk>,
                        respond: (string, string) -> Result<string, string>)
    returns (r: GenerateResult)
    ensures r == GenerateOf(question, chunks, respond)
  {
    if chunks == [] {
      return NoChunks(NoAnswer, NoSections, false, NoChunksError);
    }
    var context := BuildContext(chunks);
    if question.None? {
      return GenerateFailure("'question'", chunks);
    }
    var response := respond(question.value, context);
    if response.Err? {
      return GenerateFailure(response.error, chunks);
    }
    r := Generated(ExtractAnswer(response.value), ExtractCitations(response.value), chunks,
                   Indices(chunks), Scores(chunks));
  }

  /**
   * Without chunks the fallback answer is fixed; its citation string is not one
   * of the placeholders the citation check recognises. With chunks, a
   * successful answer passes the chunks through and reports one index and one
   * score per chunk, in order.
   */
  lemma GenerateShape(question: Option<string>, chunks: seq<Chunk>, respond: (string, string) -> Result<string, string>)
    ensures chunks == [] ==> GenerateOf(question, chunks, respond)
                             == NoChunks(NoAnswer, "No relevant sections found", false, NoChunksError)
    ensures var r := GenerateOf(question, chunks, respond);
      r.Generated? ==> r.retrievedChunks == chunks && |r.chunksUsed| == |chunks| && |r.chunkRelevanceScores| == |chunks|
    ensures var r := GenerateOf(question, chunks, respond);
      r.GenerateError? ==> r.state["metadata"].entries["error_stage"] == Str("generate")
  {
  }
}
