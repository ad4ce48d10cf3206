/**
 * `VectorStore`: turning a paper's chunks into vector records, upserting
 * them in batches into the paper's namespace, and mapping query matches
 * back to chunks. The embedding model and the index are not modelled:
 * the embeddings (or the error computing them) are an input, and the
 * index's `upsert` and `query` are given as a function and a value.
 */
module VectorStore {
  import opened Wrappers
  import opened Text
  import opened State

  const MaxStoredText: nat := 10000
  const BatchSize: nat := 100
  const FailurePrefix: string := "Failed to create vector store: "

  datatype RecordMetadata = RecordMetadata(
    arxivId: string,
    chunkIndex: nat,
    text: string,
    source: string,
    fullTextLength: nat)

  datatype VectorRecord = VectorRecord(id: string, values: seq<real>, metadata: RecordMetadata)

  /** One `upsert` call: the batch and the namespace it is written to. */
  datatype Call = Call(batch: seq<VectorRecord>, namespace: string)

  /** The chunk text kept in the metadata: at most the first 10000 characters. */
  function Truncated(chunk: string): (t: string)
    ensures |t| == (if |chunk| > MaxStoredText then MaxStoredText else |chunk|)
    ensures t == chunk[..|t|]
  {
    if |chunk| > MaxStoredText then chunk[..MaxStoredText] else chunk
  }

  function VectorId(arxivId: string, i: nat): string {
    arxivId + "_" + NatToString(i)
  }

  function Source(arxivId: string): string {
    "paper_" + arxivId
  }

  function RecordOf(arxivId: string, i: nat, chunk: string, embedding: seq<real>): (r: VectorRecord)
    ensures r.id == VectorId(arxivId, i) && r.values == embedding
    ensures r.metadata.arxivId == arxivId && r.metadata.chunkIndex == i && r.metadata.source == Source(arxivId)
    ensures r.metadata.text == Truncated(chunk) && r.metadata.fullTextLength == |chunk|
  {
    VectorRecord(VectorId(arxivId, i), embedding, RecordMetadata(arxivId, i, Truncated(chunk), Source(arxivId), |chunk|))
  }

  function MinLength(a: nat, b: nat): nat {
    if a < b then a else b
  }

  /** The records of `create_vector_store`: one per chunk that has an embedding, in order. */
  function Records(chunks: seq<string>, embeddings: seq<seq<real>>, arxivId: string): (rs: seq<VectorRecord>)
    ensures |rs| == MinLength(|chunks|, |embeddings|)
    ensures forall i :: 0 <= i < |rs| ==> rs[i] == RecordOf(arxivId, i, chunks[i], embeddings[i])
  {
    seq(MinLength(|chunks|, |embeddings|),
        i requires 0 <= i < MinLength(|chunks|, |embeddings|) => RecordOf(arxivId, i, chunks[i], embeddings[i]))
  }

  /** No two records of one paper share an id, so one upsert never overwrites another from the same paper. */
  lemma RecordIdsAreDistinct(chunks: seq<string>, embeddings: seq<seq<real>>, arxivId: string, i: nat, j: nat)
    requires i < j < |Records(chunks, embeddings, arxivId)|
    ensures Records(chunks, embeddings, arxivId)[i].id != Records(chunks, embeddings, arxivId)[j].id
  {
    var a, b := VectorId(arxivId, i), VectorId(arxivId, j);
    if a == b {
      var n := |arxivId| + 1;
      assert a[n..] == NatToString(i);
      assert b[n..] == NatToString(j);
      NatToStringInjective(i, j);
    }
  }

  /** The consecutive slices of at most 100 records that `create_vector_store` upserts. */
  function Batches(rs: seq<VectorRecord>): (bs: seq<seq<VectorRecord>>)
    ensures forall k :: 0 <= k < |bs| ==> 0 < |bs[k]| <= BatchSize
    decreases |rs|
  {
    if rs == [] then []
    else if |rs| <= BatchSize then [rs]
    else [rs[..BatchSize]] + Batches(rs[BatchSize..])
  }

  function Flatten(bs: seq<seq<VectorRecord>>): seq<VectorRecord> {
    if bs == [] then [] else bs[0] + Flatten(bs[1..])
  }

  /** Batching loses, duplicates and reorders nothing, and every batch but the last is full. */
  lemma {:induction false} BatchesPartitionRecords(rs: seq<VectorRecord>)
    ensures Flatten(Batches(rs)) == rs
    ensures forall k :: 0 <= k < |Batches(rs)| - 1 ==> |Batches(rs)[k]| == BatchSize
    ensures |Batches(rs)| == (|rs| + BatchSize - 1) / BatchSize
    decreases |rs|
  {
    if |rs| > BatchSize {
      var rest := Batches(rs[BatchSize..]);
      BatchesPartitionRecords(rs[BatchSize..]);
      assert Batches(rs) == [rs[..BatchSize]] + rest;
      assert Batches(rs)[1..] == rest;
      assert rs[..BatchSize] + rs[BatchSize..] == rs;
    }
  }

  /** The batch that starts at `i` and the batches after it. */
  lemma BatchesFrom(rs: seq<VectorRecord>, i: nat, end: nat)
    requires i < |rs| && end == (if i + BatchSize < |rs| then i + BatchSize else |rs|)
    ensures Batches(rs[i..]) == [rs[i..end]] + Batches(rs[end..])
  {
    var s := rs[i..];
    if |s| > BatchSize {
      assert s[..BatchSize] == rs[i..end];
      assert s[BatchSize..] == rs[end..];
    } else {
      assert s == rs[i..end] && s != [];
      assert rs[end..] == [];
    }
  }

  /** What the run of upserts did: the calls made, and the error that stopped it, if any. */
  datatype UpsertRun = UpsertRun(calls: seq<Call>, error: Option<string>)

  /** Upserting batches in order into one namespace, stopping at the first failure. */
  function RunUpserts(bs: seq<seq<VectorRecord>>, namespace: string, upsert: (seq<VectorRecord>, string) -> Option<string>)
    : UpsertRun
    decreases |bs|
  {
    if bs == [] then UpsertRun([], None)
    else
      var e := upsert(bs[0], namespace);
      if e.Some? then UpsertRun([Call(bs[0], namespace)], e)
      else
        var rest := RunUpserts(bs[1..], namespace, upsert);
        UpsertRun([Call(bs[0], namespace)] + rest.calls, rest.error)
  }

  /**
   * The run calls `upsert` on the batches in order, all in the given
   * namespace, until one fails: every call before the last succeeded, a
   * failure is the last call's error, and a run without failure called
   * every batch successfully.
   */
  lemma {:induction false} RunUpsertsShape(bs: seq<seq<VectorRecord>>, namespace: string,
                                           upsert: (seq<VectorRecord>, string) -> Option<string>)
    ensures var r := RunUpserts(bs, namespace, upsert);
            |r.calls| <= |bs|
            && (forall k :: 0 <= k < |r.calls| ==> r.calls[k] == Call(bs[k], namespace))
            && (forall k :: 0 <= k < |r.calls| - 1 ==> upsert(bs[k], namespace).None?)
            && (r.error.Some? ==> |r.calls| > 0 && r.error == upsert(bs[|r.calls| - 1], namespace))
            && (r.error.None? ==> |r.calls| == |bs| && forall k :: 0 <= k < |bs| ==> upsert(bs[k], namespace).None?)
    decreases |bs|
  {
    if bs != [] && upsert(bs[0], namespace).None? {
      RunUpsertsShape(bs[1..], namespace, upsert);
      var rest := RunUpserts(bs[1..], namespace, upsert);
      assert forall k :: 1 <= k < |bs| ==> bs[1..][k - 1] == bs[k];
      assert forall k :: 1 <= k <= |rest.calls| ==> ([Call(bs[0], namespace)] + rest.calls)[k] == rest.calls[k - 1];
    }
  }

  lemma RunUpsertsStep(b: seq<VectorRecord>, bs: seq<seq<VectorRecord>>, namespace: string,
                       upsert: (seq<VectorRecord>, string) -> Option<string>)
    ensures var rest := RunUpserts(bs, namespace, upsert);
            RunUpserts([b] + bs, namespace, upsert)
              == if upsert(b, namespace).Some? then UpsertRun([Call(b, namespace)], upsert(b, namespace))
                 else UpsertRun([Call(b, namespace)] + rest.calls, rest.error)
  {
    assert ([b] + bs)[1..] == bs;
  }

  /**
   * `create_vector_store`: the number of records upserted, or the
   * `RuntimeError` message when computing the embeddings or an upsert fails.
   */
  function StoreOutcome(chunks: seq<string>, arxivId: string, embeddings: Result<seq<seq<real>>, string>,
                        upsert: (seq<VectorRecord>, string) -> Option<string>)
    : (r: Result<nat, string>)
    ensures embeddings.Err? ==> r == Err(FailurePrefix + embeddings.error)
    ensures r.Ok? ==> embeddings.Ok? && r.value == MinLength(|chunks|, |embeddings.value|)
  {
    match embeddings
    case Err(e) => Err(FailurePrefix + e)
    case Ok(es) =>
      var run := RunUpserts(Batches(Records(chunks, es, arxivId)), arxivId, upsert);
      if run.error.Some? then Err(FailurePrefix + run.error.value) else Ok(|Records(chunks, es, arxivId)|)
  }

  /**
   * Every upsert failure becomes the `RuntimeError`: with embeddings, the
   * store succeeds iff every batch's upsert succeeds, and a failed store
   * reports the error of the first batch whose upsert failed.
   */
  lemma UpsertFailureIsReported(chunks: seq<string>, arxivId: string, es: seq<seq<real>>,
                                upsert: (seq<VectorRecord>, string) -> Option<string>)
    ensures var bs := Batches(Records(chunks, es, arxivId));
            StoreOutcome(chunks, arxivId, Ok(es), upsert).Ok? ==> forall k :: 0 <= k < |bs| ==> upsert(bs[k], arxivId).None?
    ensures var bs := Batches(Records(chunks, es, arxivId));
            (forall k :: 0 <= k < |bs| ==> upsert(bs[k], arxivId).None?) ==> StoreOutcome(chunks, arxivId, Ok(es), upsert).Ok?
    ensures var bs := Batches(Records(chunks, es, arxivId));
            var r := StoreOutcome(chunks, arxivId, Ok(es), upsert);
            r.Err? ==>
              exists k :: 0 <= k < |bs| && upsert(bs[k], arxivId).Some?
                          && r.error == FailurePrefix + upsert(bs[k], arxivId).value
                          && forall j :: 0 <= j < k ==> upsert(bs[j], arxivId).None?
  {
    var bs := Batches(Records(chunks, es, arxivId));
    var run := RunUpserts(bs, arxivId, upsert);
    RunUpsertsShape(bs, arxivId, upsert);
    if run.error.Some? {
      var k := |run.calls| - 1;
      assert 0 <= k < |bs| && upsert(bs[k], arxivId).Some?;
      assert upsert(Batches(Records(chunks, es, arxivId))[k], arxivId).Some?;
      assert StoreOutcome(chunks, arxivId, Ok(es), upsert) == Err(FailurePrefix + run.error.value);
      assert upsert(bs[k], arxivId).Some? && StoreOutcome(chunks, arxivId, Ok(es), upsert).error == FailurePrefix + upsert(bs[k], arxivId).value;
    } else {
      assert StoreOutcome(chunks, arxivId, Ok(es), upsert) == Ok(|Records(chunks, es, arxivId)|);
    }
  }

  /** The upsert calls `create_vector_store` makes. */
  function StoreCalls(chunks: seq<string>, arxivId: string, embeddings: Result<seq<seq<real>>, string>,
                      upsert: (seq<VectorRecord>, string) -> Option<string>)
    : (calls: seq<Call>)
    ensures embeddings.Err? ==> calls == []
    ensures forall k :: 0 <= k < |calls| ==> calls[k].namespace == arxivId && 0 < |calls[k].batch| <= BatchSize
  {
    match embeddings
    case Err(_) => []
    case Ok(es) =>
      var bs := Batches(Records(chunks, es, arxivId));
      RunUpsertsShape(bs, arxivId, upsert);
      RunUpserts(bs, arxivId, upsert).calls
  }

  /** When every upsert succeeds, the calls carry exactly the records, in order, and the count is theirs. */
  lemma SuccessfulStoreWritesEveryRecord(chunks: seq<string>, arxivId: string, es: seq<seq<real>>,
                                         upsert: (seq<VectorRecord>, string) -> Option<string>)
    requires StoreOutcome(chunks, arxivId, Ok(es), upsert).Ok?
    ensures var calls := StoreCalls(chunks, arxivId, Ok(es), upsert);
            Flatten(seq(|calls|, k requires 0 <= k < |calls| => calls[k].batch)) == Records(chunks, es, arxivId)
            && StoreOutcome(chunks, arxivId, Ok(es), upsert).value == |Records(chunks, es, arxivId)|
  {
    var rs := Records(chunks, es, arxivId);
    var calls := StoreCalls(chunks, arxivId, Ok(es), upsert);
    var bs := Batches(rs);
    RunUpsertsShape(bs, arxivId, upsert);
    assert seq(|calls|, k requires 0 <= k < |calls| => calls[k].batch) == bs;
    BatchesPartitionRecords(rs);
  }

  /** The record-building loop of `create_vector_store`. */
  method BuildRecords(chunks: seq<string>, es: seq<seq<real>>, arxivId: string) returns (vectors: seq<VectorRecord>)
    ensures vectors == Records(chunks, es, arxivId)
  {
    var n := MinLength(|chunks|, |es|);
    vectors := [];
    for i := 0 to n
      invariant vectors == Records(chunks, es, arxivId)[..i]
    {
      var truncated := if |chunks[i]| > MaxStoredText then chunks[i][..MaxStoredText] else chunks[i];
      var record := VectorRecord(arxivId + "_" + NatToString(i), es[i],
                                 RecordMetadata(arxivId, i, truncated, "paper_" + arxivId, |chunks[i]|));
      vectors := vectors + [record];
    }
  }

  /** The batch loop of `create_vector_store`: it counts what it upserts and stops at the first failure. */
  method UpsertBatches(vectors: seq<VectorRecord>, namespace: string, upsert: (seq<VectorRecord>, string) -> Option<string>)
    returns (failure: Option<string>, total: nat, calls: seq<Call>)
    ensures UpsertRun(calls, failure) == RunUpserts(Batches(vectors), namespace, upsert)
    ensures failure.None? ==> total == |vectors|
  {
    calls := [];
    total := 0;
    var i := 0;
    while i < |vectors|
      invariant 0 <= i <= |vectors| && total == i
      invariant var rest := RunUpserts(Batches(vectors[i..]), namespace, upsert);
                RunUpserts(Batches(vectors), namespace, upsert) == UpsertRun(calls + rest.calls, rest.error)
      decreases |vectors| - i
    {
      var end := if i + BatchSize < |vectors| then i + BatchSize else |vectors|;
      var batch := vectors[i..end];
      BatchesFrom(vectors, i, end);
      RunUpsertsStep(batch, Batches(vectors[end..]), namespace, upsert);
      failure := upsert(batch, namespace);
      calls := calls + [Call(batch, namespace)];
      if failure.Some? {
        return;
      }
      total := total + |batch|;
      i := end;
    }
    assert vectors[i..] == [];
    failure := None;
  }

  /**
   * `create_vector_store`: the count of upserted records and the upsert
   * calls made, or the failure message.
   */
  method CreateVectorStore(chunks: seq<string>, arxivId: string, embeddings: Result<seq<seq<real>>, string>,
                           upsert: (seq<VectorRecord>, string) -> Option<string>)
    returns (r: Result<nat, string>, calls: seq<Call>)
    ensures r == StoreOutcome(chunks, arxivId, embeddings, upsert)
    ensures calls == StoreCalls(chunks, arxivId, embeddings, upsert)
  {
    if embeddings.Err? {
      return Err(FailurePrefix + embeddings.error), [];
    }
    var vectors := BuildRecords(chunks, embeddings.value, arxivId);
    var failure, total;
    failure, total, calls := UpsertBatches(vectors, arxivId, upsert);
    if failure.Some? {
      r := Err(FailurePrefix + failure.value);
    } else {
      r := Ok(total);
    }
  }

  /** A match `query` returns: its id, its score and the metadata stored with it. */
  datatype QueryMatch = QueryMatch(id: string, score: real, text: Option<string>, arxivId: Option<string>,
                                   chunkIndex: Option<int>, source: Option<string>)

  /** The chunk `get_relevant_chunks` makes of one match; a missing text becomes the empty string. */
  function ChunkOf(m: QueryMatch): (c: Chunk)
    ensures c.content == m.text.GetOr("") && c.vectorId == m.id && c.relevanceScore == m.score
    ensures c.arxivId == m.arxivId && c.source == m.source
    ensures c.chunkIndex == if m.chunkIndex.Some? then IndexValue(m.chunkIndex.value) else NullIndex
  {
    Chunk(m.text.GetOr(""), m.arxivId, if m.chunkIndex.Some? then IndexValue(m.chunkIndex.value) else NullIndex,
          m.source, m.id, m.score)
  }

  /** The match the index returns for a stored record. */
  function MatchOf(r: VectorRecord, score: real): QueryMatch {
    QueryMatch(r.id, score, Some(r.metadata.text), Some(r.metadata.arxivId), Some(r.metadata.chunkIndex),
               Some(r.metadata.source))
  }

  /**
   * A chunk stored by `create_vector_store` comes back from retrieval with
   * its truncated text, its position, its paper and its vector id.
   */
  lemma StoredChunkRoundTrip(chunks: seq<string>, es: seq<seq<real>>, arxivId: string, i: nat, score: real)
    requires i < |Records(chunks, es, arxivId)|
    ensures var c := ChunkOf(MatchOf(Records(chunks, es, arxivId)[i], score));
            c.content == Truncated(chunks[i]) && c.chunkIndex == IndexValue(i) && c.arxivId == Some(arxivId)
            && c.source == Some("paper_" + arxivId) && c.vectorId == VectorId(arxivId, i)
            && (|chunks[i]| <= MaxStoredText ==> c.content == chunks[i])
  {
  }

  /**
   * `get_relevant_chunks`: one chunk per match, in the index's order, or
   * no chunks at all when the query fails.
   */
  method GetRelevantChunks(query: Result<seq<QueryMatch>, string>) returns (chunks: seq<Chunk>)
    ensures query.Err? ==> chunks == []
    ensures query.Ok? ==> |chunks| == |query.value| && forall i :: 0 <= i < |chunks| ==> chunks[i] == ChunkOf(query.value[i])
  {
    chunks := [];
    if query.Err? {
      return;
    }
    var matches := query.value;
    for i := 0 to |matches|
      invariant |chunks| == i
      invariant forall j :: 0 <= j < i ==> chunks[j] == ChunkOf(matches[j])
    {
      var m := matches[i];
      chunks := chunks + [Chunk(m.text.GetOr(""), m.arxivId,
                                if m.chunkIndex.Some? then IndexValue(m.chunkIndex.value) else NullIndex,
                                m.source, m.id, m.score)];
    }
  }
}
