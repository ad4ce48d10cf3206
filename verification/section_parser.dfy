/**
 * `ParserAgent.parse_sections`: the language model names the phrase each of
 * five sections starts with (seeing only the first `SECTION_PARSER_LIMIT`
 * characters); each section is then cut from the full raw text, from its own
 * start to the nearest later start of another section, and stripped.
 */
module SectionParser {
  import opened Wrappers
  import opened Text
  import opened State

  const SectionNames: seq<string> := ["abstract", "introduction", "methodology", "results", "conclusion"]

  /** The oracle's answer: `{name}_start` keys mapped to start phrases. */
  type Phrases = map<string, string>

  /** The `sections` dictionary, or the error state returned by the exception handler. */
  datatype ParseResult = Sections(sections: map<string, string>) | ParseError(state: map<string, Value>)

  /** `response.get(f"{name}_start")`, with a missing key read as the empty (falsy) phrase. */
  function Phrase(phrases: Phrases, name: string): string {
    var key := name + "_start";
    if key in phrases then phrases[key] else ""
  }

  /** Where section `name` starts in `raw`, or -1 when its phrase is empty or absent. */
  function StartOf(raw: string, phrases: Phrases, name: string): (i: int)
    ensures -1 <= i <= |raw|
    ensures i != -1 ==> Phrase(phrases, name) != "" && OccursAt(raw, Phrase(phrases, name), i)
    ensures i != -1 ==> forall k :: 0 <= k < i ==> !OccursAt(raw, Phrase(phrases, name), k)
    ensures i == -1 <==> Phrase(phrases, name) == "" || forall k :: 0 <= k <= |raw| ==> !OccursAt(raw, Phrase(phrases, name), k)
  {
    var phrase := Phrase(phrases, name);
    if phrase == "" then -1 else Find(raw, phrase)
  }

  /**
   * `min(next_indices)` or `len(raw_text)`: the least start of a section
   * other than `name` among `others` that lies strictly after `idx`.
   */
  function NextStart(raw: string, phrases: Phrases, name: string, idx: nat, others: seq<string>): (e: nat)
    requires idx < |raw|
    ensures idx < e <= |raw|
    ensures forall k :: 0 <= k < |others| && others[k] != name && StartOf(raw, phrases, others[k]) > idx ==>
              e <= StartOf(raw, phrases, others[k])
    ensures e == |raw| || exists k :: 0 <= k < |others| && others[k] != name && StartOf(raw, phrases, others[k]) == e
  {
    if others == [] then |raw|
    else
      var rest := NextStart(raw, phrases, name, idx, others[1..]);
      assert forall k :: 1 <= k < |others| ==> others[k] == others[1..][k - 1];
      var s := StartOf(raw, phrases, others[0]);
      if others[0] != name && s > idx && s < rest then s else rest
  }

  /** The text of section `name`: empty when it has no start, else the stripped slice up to the next start. */
  function SectionText(raw: string, phrases: Phrases, name: string): (text: string)
    ensures |text| <= |raw|
    ensures text == [] || (!IsSpace(text[0]) && !IsSpace(text[|text| - 1]))
  {
    var idx := StartOf(raw, phrases, name);
    if idx == -1 then ""
    else Strip(raw[idx..NextStart(raw, phrases, name, idx, SectionNames)])
  }

  /** What `parse_sections` returns when no exception is raised. */
  function SectionsOf(raw: string, phrases: Phrases): (m: map<string, string>)
    ensures m.Keys == set n | n in SectionNames
    ensures forall n :: n in SectionNames ==> m[n] == SectionText(raw, phrases, n)
  {
    map n | n in SectionNames :: SectionText(raw, phrases, n)
  }

  /** The input the oracle sees: `raw_text[:limit]`. */
  function TextStart(raw: string, limit: nat): (t: string)
    ensures |t| == if |raw| < limit then |raw| else limit
    ensures t == raw[..|t|]
  {
    if |raw| <= limit then raw else raw[..limit]
  }

  function ParseFailure(message: string): ParseResult {
    ParseError(CreateErrorState("Parse failed: " + message, "parse", map["sections" := Dict(map[])]))
  }

  /**
   * `parse_sections` as a function of its inputs: `rawText` is `None` when
   * the state has no `raw_text` (the `KeyError` path), `identify` is the
   * section-identification oracle.
   */
  function ParseOf(rawText: Option<string>, identify: string -> Result<Phrases, string>, limit: nat): (r: ParseResult)
    ensures r.Sections? <==> rawText.Some? && identify(TextStart(rawText.value, limit)).Ok?
  {
    match rawText
    case None => ParseFailure("'raw_text'")
    case Some(raw) =>
      match identify(TextStart(raw, limit))
      case Err(e) => ParseFailure(e)
      case Ok(phrases) => Sections(SectionsOf(raw, phrases))
  }

  /** The body of the loop for one section name: find its start, then cut up to the next start. */
  method ExtractSection(raw: string, phrases: Phrases, name: string) returns (text: string)
    ensures text == SectionText(raw, phrases, name)
  {
    var startPhrase := Phrase(phrases, name);
    if startPhrase == "" {
      return "";
    }
    var idx := Find(raw, startPhrase);
    if idx == -1 {
      return "";
    }
    var endIdx := NextStart(raw, phrases, name, idx, SectionNames);
    text := Strip(raw[idx..endIdx]);
  }

  /** The loop of `parse_sections` over the five section names. */
  method ExtractSections(raw: string, phrases: Phrases) returns (extracted: map<string, string>)
    ensures extracted == SectionsOf(raw, phrases)
  {
    extracted := map[];
    var i := 0;
    while i < |SectionNames|
      invariant 0 <= i <= |SectionNames|
      invariant forall n :: n in extracted <==> n in SectionNames[..i]
      invariant forall n :: n in extracted ==> extracted[n] == SectionText(raw, phrases, n)
    {
      var name := SectionNames[i];
      var text := ExtractSection(raw, phrases, name);
      extracted := extracted[name := text];
      assert SectionNames[..i + 1] == SectionNames[..i] + [name];
      i := i + 1;
    }
    assert SectionNames[..i] == SectionNames;
  }

  /** `parse_sections` */
  method ParseSections(rawText: Option<string>, identify: string -> Result<Phrases, string>, limit: nat)
    returns (r: ParseResult)
    ensures r == ParseOf(rawText, identify, limit)
  {
    if rawText.None? {
      return ParseFailure("'raw_text'");
    }
    var raw := rawText.value;
    var response := identify(TextStart(raw, limit));
    if response.Err? {
      return ParseFailure(response.error);
    }
    var extracted := ExtractSections(raw, response.value);
    r := Sections(extracted);
  }

  /** The result always has exactly the five section keys. */
  lemma ParsedKeys(rawText: Option<string>, identify: string -> Result<Phrases, string>, limit: nat)
    requires ParseOf(rawText, identify, limit).Sections?
    ensures ParseOf(rawText, identify, limit).sections.Keys
            == {"abstract", "introduction", "methodology", "results", "conclusion"}
  {
  }

  /**
   * A section with a start is a slice of the raw text that begins at or after
   * the first occurrence of its phrase and ends at or before every later
   * start of another section.
   */
  lemma SectionStaysInItsSpan(raw: string, phrases: Phrases, name: string) returns (lo: nat, hi: nat)
    requires StartOf(raw, phrases, name) != -1
    ensures var idx := StartOf(raw, phrases, name);
      idx <= lo <= hi <= |raw| && SectionText(raw, phrases, name) == raw[lo..hi]
      && forall k :: 0 <= k < |SectionNames| && SectionNames[k] != name && StartOf(raw, phrases, SectionNames[k]) > idx ==>
           hi <= StartOf(raw, phrases, SectionNames[k])
  {
    var idx: nat := StartOf(raw, phrases, name);
    var e := NextStart(raw, phrases, name, idx, SectionNames);
    lo, hi := StripOfSlice(raw, idx, e);
  }

  /** A section is empty when its phrase is missing or empty or does not occur in the raw text. */
  lemma MissingSectionIsEmpty(raw: string, phrases: Phrases, name: string)
    requires Phrase(phrases, name) == "" || !Contains(raw, Phrase(phrases, name))
    ensures SectionText(raw, phrases, name) == ""
  {
  }
}
