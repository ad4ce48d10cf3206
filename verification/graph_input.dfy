/**
 * `GraphInput`: the validated input of the research workflow. The arXiv
 * identifier must match `^(\d{4}\.\d{4,5}|[a-z\-]+/\d{7})$` under `re.match`.
 */
module GraphInput {
  import opened Wrappers
  import opened Text

  datatype GraphInput = GraphInput(arxivId: string, question: Option<string>, metadata: map<string, string>)

  predicate AllDigits(s: string) {
    forall i :: 0 <= i < |s| ==> IsDigit(s[i])
  }

  /** `[a-z\-]` */
  predicate ArchiveChar(c: char) {
    'a' <= c <= 'z' || c == '-'
  }

  /** `\d{4}\.\d{4,5}`: the new-style identifier, e.g. `1706.03762`. */
  predicate NewStyleId(s: string) {
    (|s| == 9 || |s| == 10) && AllDigits(s[..4]) && s[4] == '.' && AllDigits(s[5..])
  }

  /** `[a-z\-]+/\d{7}`: the old-style identifier, e.g. `hep-th/9901001`. */
  predicate OldStyleId(s: string) {
    |s| >= 9 && (forall i :: 0 <= i < |s| - 8 ==> ArchiveChar(s[i])) && s[|s| - 8] == '/' && AllDigits(s[|s| - 7..])
  }

  predicate IdBody(s: string) {
    NewStyleId(s) || OldStyleId(s)
  }

  /** The whole pattern: the body, then `$`, which also matches before one final newline. */
  predicate MatchesIdPattern(v: string) {
    IdBody(v) || (|v| > 0 && v[|v| - 1] == '\n' && IdBody(v[..|v| - 1]))
  }

  function InvalidIdMessage(v: string): string {
    "Invalid arXiv ID format: " + v + ". Expected format: YYMM.NNNNN (e.g., 1706.03762)"
  }

  /** `validate_arxiv_id`: the identifier unchanged, or the `ValueError` message. */
  function ValidateArxivId(v: string): (r: Result<string, string>)
    ensures r.Ok? <==> MatchesIdPattern(v)
    ensures r.Ok? ==> r.value == v
    ensures r.Err? ==> r.error == InvalidIdMessage(v)
  {
    if MatchesIdPattern(v) then Ok(v) else Err(InvalidIdMessage(v))
  }

  /** Building the input: `question` defaults to `None`, `metadata` to an empty map. */
  function MakeGraphInput(arxivId: string, question: Option<string>, metadata: Option<map<string, string>>)
    : (r: Result<GraphInput, string>)
    ensures r.Ok? <==> MatchesIdPattern(arxivId)
    ensures r.Ok? ==> r.value.arxivId == arxivId && r.value.question == question
    ensures r.Ok? && metadata.None? ==> r.value.metadata == map[]
    ensures r.Ok? && metadata.Some? ==> r.value.metadata == metadata.value
  {
    match ValidateArxivId(arxivId)
    case Err(e) => Err(e)
    case Ok(id) => Ok(GraphInput(id, question, metadata.GetOr(map[])))
  }

  /** Accepted identifiers use only digits, `.`, `/`, lower-case letters and `-`, plus at most one final newline. */
  lemma AcceptedIdAlphabet(v: string)
    requires MatchesIdPattern(v)
    ensures forall i :: 0 <= i < |v| - 1 ==> IsDigit(v[i]) || v[i] == '.' || v[i] == '/' || ArchiveChar(v[i])
    ensures 9 <= |v| && (v[|v| - 1] == '\n' || IsDigit(v[|v| - 1]))
  {
    var b := if IdBody(v) then v else v[..|v| - 1];
    assert IdBody(b);
    forall i | 0 <= i < |b| ensures IsDigit(b[i]) || b[i] == '.' || b[i] == '/' || ArchiveChar(b[i]) {
      if NewStyleId(b) {
        if i < 4 { assert b[..4][i] == b[i]; }
        else if i > 4 { assert b[5..][i - 5] == b[i]; }
      } else if i > |b| - 8 {
        assert b[|b| - 7..][i - (|b| - 7)] == b[i];
      }
    }
    assert IsDigit(b[|b| - 1]) by {
      if NewStyleId(b) { assert b[5..][|b| - 6] == b[|b| - 1]; }
      else { assert b[|b| - 7..][6] == b[|b| - 1]; }
    }
    if !IdBody(v) {
      assert forall i :: 0 <= i < |b| ==> b[i] == v[i];
    }
  }

  /** The examples of the message and comment are accepted, with four or five digits; a short or upper-case one is not. */
  lemma SampleIds()
    ensures ValidateArxivId("1706.03762").Ok?
    ensures ValidateArxivId("hep-th/9901001").Ok?
    ensures ValidateArxivId("1706.03762\n").Ok?
    ensures ValidateArxivId("1706.0376").Ok?
    ensures ValidateArxivId("1706.037").Err?
    ensures ValidateArxivId("HEP-TH/9901001").Err?
  {
    assert NewStyleId("1706.03762");
    assert OldStyleId("hep-th/9901001");
    assert "1706.03762\n"[..10] == "1706.03762";
    assert !ArchiveChar("HEP-TH/9901001"[0]);
    assert !IdBody("HEP-TH/9901001"[..13]) by {
      assert !ArchiveChar("HEP-TH/9901001"[..13][0]);
      assert "HEP-TH/9901001"[..13][4] != '.';
    }
    assert NewStyleId("1706.0376");
  }
}
