/**
 * The dictionary-shaped workflow state (`PaperState`) and the helper that
 * builds an error state. JSON-like values stand for the untyped entries.
 */
module State {
  import opened Wrappers

  /** A JSON-compatible value, as stored in the state dictionaries. */
  datatype Value =
    | Null
    | Bool(b: bool)
    | Int(i: int)
    | Num(r: real)
    | Str(s: string)
    | List(items: seq<Value>)
    | Dict(entries: map<string, Value>)

  /** `d.get(key, default)` on a value that is a dictionary; any other value has no keys. */
  function Get(d: Value, key: string, default: Value): (r: Value)
    ensures d.Dict? && key in d.entries ==> r == d.entries[key]
    ensures !(d.Dict? && key in d.entries) ==> r == default
  {
    if d.Dict? && key in d.entries then d.entries[key] else default
  }

  /**
   * The `chunk_index` entry of a chunk's metadata: no such key, the key
   * holding `None`, or an integer.
   */
  datatype IndexField = NoIndexKey | NullIndex | IndexValue(index: int)

  /** One retrieved chunk: its text, the metadata the vector store attached, and its score. */
  datatype Chunk = Chunk(
    content: string,
    arxivId: Option<string>,
    chunkIndex: IndexField,
    source: Option<string>,
    vectorId: string,
    relevanceScore: real)

  /** A chunk as the dictionary the workflow state holds. */
  function ChunkValue(c: Chunk): Value {
    var index := match c.chunkIndex
      case NoIndexKey => map[]
      case NullIndex => map["chunk_index" := Null]
      case IndexValue(i) => map["chunk_index" := Int(i)];
    var arxivId := if c.arxivId.Some? then Str(c.arxivId.value) else Null;
    var source := if c.source.Some? then Str(c.source.value) else Null;
    Dict(map[
      "content" := Str(c.content),
      "metadata" := Dict(index + map["arxiv_id" := arxivId, "source" := source, "vector_id" := Str(c.vectorId)]),
      "relevance_score" := Num(c.relevanceScore)])
  }

  function ChunkValues(cs: seq<Chunk>): (v: Value)
    ensures v.List? && |v.items| == |cs|
  {
    List(seq(|cs|, i requires 0 <= i < |cs| => ChunkValue(cs[i])))
  }

  /**
   * `create_error_state(error_msg, stage, **kwargs)`: a dictionary with the two
   * keys `error` and `metadata`; the keyword arguments land inside `metadata`
   * after `status` and `error_stage`, so on a clash they win.
   */
  function CreateErrorState(errorMsg: string, stage: string, extra: map<string, Value>): (r: map<string, Value>)
    ensures r.Keys == {"error", "metadata"}
    ensures r["error"] == Str(errorMsg)
    ensures r["metadata"].Dict?
    ensures r["metadata"].entries.Keys == {"status", "error_stage"} + extra.Keys
    ensures forall k :: k in extra ==> r["metadata"].entries[k] == extra[k]
    ensures "status" !in extra ==> r["metadata"].entries["status"] == Str("failed")
    ensures "error_stage" !in extra ==> r["metadata"].entries["error_stage"] == Str(stage)
  {
    map["error" := Str(errorMsg),
        "metadata" := Dict(map["status" := Str("failed"), "error_stage" := Str(stage)] + extra)]
  }
}
