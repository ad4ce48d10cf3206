/**
 * `CacheLoaderAgent`: decides whether the paper in the workflow state is
 * cached and current, and loads a cached paper back into the state. The
 * database lookup is an input: the stored paper, none, or the text of the
 * exception the lookup raised. The fetched paper text is an input likewise.
 */
module CacheLoader {
  import opened Wrappers
  import opened State
  import opened Jobs
  import opened Crud
  import opened Workflow

  const MissingDateError: string := "Missing last_modified_date in state"
  const NotInCacheError: string := "Paper not found in cache"
  const LoadErrorPrefix: string := "Failed to load cached paper: "
  const TextErrorPrefix: string := "Failed to get paper text: "
  const Stage: string := "cache_loader"

  /**
   * The state update `check_and_load` returns: the two routing flags, and
   * the merged metadata when the update carries one.
   */
  datatype CacheFlags = CacheFlags(paperCached: bool, paperCurrent: bool, metadata: Option<map<string, Value>>)

  /** A string in the state is truthy when it is present and non-empty. */
  predicate Truthy(s: Option<string>) {
    s.Some? && s.value != ""
  }

  function WithCheckError(metadata: map<string, Value>, error: string): (m: map<string, Value>)
    ensures m.Keys == metadata.Keys + {"cache_check_error"}
    ensures m["cache_check_error"] == Str(error)
    ensures forall k :: k in metadata && k != "cache_check_error" ==> m[k] == metadata[k]
  {
    metadata["cache_check_error" := Str(error)]
  }

  /**
   * `check_and_load`, branch by branch: an upstream error, a missing
   * modification date, a failed lookup and a missing paper give both flags
   * false; a stored paper is cached, and current when its modification date
   * is not older than the one in the state.
   */
  function CheckAndLoad(stateError: Option<string>, lastModifiedDate: Option<Timestamp>,
                        metadata: map<string, Value>, lookup: Result<Option<ResearchPaper>, string>)
    : (f: CacheFlags)
    ensures f.paperCurrent ==> f.paperCached
    ensures f.paperCached <==> !Truthy(stateError) && lastModifiedDate.Some? && lookup.Ok? && lookup.value.Some?
    ensures f.paperCached ==>
              (f.paperCurrent <==> lookup.value.value.lastModifiedDate >= lastModifiedDate.value) && f.metadata.None?
    ensures Truthy(stateError) ==> f.metadata == Some(WithCheckError(metadata, stateError.value))
    ensures !Truthy(stateError) && lastModifiedDate.None? ==> f.metadata == Some(WithCheckError(metadata, MissingDateError))
    ensures !Truthy(stateError) && lastModifiedDate.Some? && lookup.Err? ==>
              f.metadata == Some(WithCheckError(metadata, lookup.error))
    ensures !Truthy(stateError) && lastModifiedDate.Some? && lookup == Ok(None) ==> f.metadata.None?
  {
    if Truthy(stateError) then
      CacheFlags(false, false, Some(WithCheckError(metadata, stateError.value)))
    else if lastModifiedDate.None? then
      CacheFlags(false, false, Some(WithCheckError(metadata, MissingDateError)))
    else
      match lookup
      case Err(e) => CacheFlags(false, false, Some(WithCheckError(metadata, e)))
      case Ok(None) => CacheFlags(false, false, None)
      case Ok(Some(paper)) => CacheFlags(true, paper.lastModifiedDate >= lastModifiedDate.value, None)
  }

  /**
   * The route `check_cache` takes after `check_and_load` is the cached path
   * exactly when a stored paper is at least as new as the state's date; in
   * particular a state without a modification date always goes through the
   * full processing path.
   */
  lemma CacheRouteFollowsFreshness(stateError: Option<string>, lastModifiedDate: Option<Timestamp>,
                                   metadata: map<string, Value>, lookup: Result<Option<ResearchPaper>, string>)
    ensures var f := CheckAndLoad(stateError, lastModifiedDate, metadata, lookup);
            RouteOf(Some(f.paperCached), Some(f.paperCurrent)) == UseCache
            <==> !Truthy(stateError) && lastModifiedDate.Some? && lookup.Ok? && lookup.value.Some?
                 && lookup.value.value.lastModifiedDate >= lastModifiedDate.value
    ensures lastModifiedDate.None? ==>
              var f := CheckAndLoad(stateError, lastModifiedDate, metadata, lookup);
              RouteOf(Some(f.paperCached), Some(f.paperCurrent)) == ProcessNew
  {
  }

  /** What `load_cached_paper` puts into the state. */
  datatype LoadOutcome =
    | Loaded(title: string, authors: seq<string>, abstractText: string, summary: Option<Value>,
             metadata: map<string, Value>, rawText: string)
    | LoadFailed(update: map<string, Value>)

  /** The metadata a successful load adds to the state's metadata. */
  function LoadedMetadata(metadata: map<string, Value>, paper: ResearchPaper): (m: map<string, Value>)
    ensures m.Keys == metadata.Keys + {"paper_loaded_from_cache", "cache_updated_at", "chunk_count"}
    ensures m["paper_loaded_from_cache"] == Bool(true)
    ensures m["cache_updated_at"] == Int(paper.cacheUpdatedAt)
    ensures m["chunk_count"] == if paper.chunkCount.Some? then Int(paper.chunkCount.value) else Null
    ensures forall k :: k in metadata && k !in {"paper_loaded_from_cache", "cache_updated_at", "chunk_count"} ==>
              m[k] == metadata[k]
  {
    metadata["paper_loaded_from_cache" := Bool(true)]
            ["cache_updated_at" := Int(paper.cacheUpdatedAt)]
            ["chunk_count" := if paper.chunkCount.Some? then Int(paper.chunkCount.value) else Null]
  }

  /**
   * `load_cached_paper`: a missing paper gives an error state for stage
   * `cache_loader`; a failed lookup gives the error and `cache_load_error`
   * in the metadata; a failure to get the text gives an error state; and a
   * successful load copies the stored fields, with a missing abstract
   * becoming the empty string.
   */
  function LoadCachedPaper(metadata: map<string, Value>, lookup: Result<Option<ResearchPaper>, string>,
                           text: Result<string, string>)
    : (o: LoadOutcome)
    ensures lookup == Ok(None) ==> o == LoadFailed(CreateErrorState(NotInCacheError, Stage, map[]))
    ensures lookup.Err? ==>
              o.LoadFailed? && o.update.Keys == {"error", "metadata"}
              && o.update["error"] == Str(LoadErrorPrefix + lookup.error)
              && o.update["metadata"] == Dict(metadata["cache_load_error" := Str(lookup.error)])
    ensures lookup.Ok? && lookup.value.Some? && text.Err? ==>
              o == LoadFailed(CreateErrorState(TextErrorPrefix + text.error, Stage, map[]))
    ensures o.Loaded? <==> lookup.Ok? && lookup.value.Some? && text.Ok?
    ensures o.Loaded? ==>
              var paper := lookup.value.value;
              o.title == paper.title && o.authors == paper.authors && o.summary == paper.summaryJson
              && o.rawText == text.value && o.metadata == LoadedMetadata(metadata, paper)
              && (o.abstractText == if paper.abstractText.Some? then paper.abstractText.value else "")
  {
    match lookup
    case Err(e) =>
      LoadFailed(map["error" := Str(LoadErrorPrefix + e), "metadata" := Dict(metadata["cache_load_error" := Str(e)])])
    case Ok(None) => LoadFailed(CreateErrorState(NotInCacheError, Stage, map[]))
    case Ok(Some(paper)) =>
      match text
      case Err(e) => LoadFailed(CreateErrorState(TextErrorPrefix + e, Stage, map[]))
      case Ok(rawText) =>
        var abstractText := if paper.abstractText.Some? then paper.abstractText.value else "";
        Loaded(paper.title, paper.authors, abstractText, paper.summaryJson, LoadedMetadata(metadata, paper), rawText)
  }

  /** Every failed load reports an error message, and the stage is `cache_loader` unless the lookup itself raised. */
  lemma LoadFailuresCarryAnError(metadata: map<string, Value>, lookup: Result<Option<ResearchPaper>, string>,
                                 text: Result<string, string>)
    ensures var o := LoadCachedPaper(metadata, lookup, text);
            o.LoadFailed? ==> "error" in o.update && o.update["error"].Str? && |o.update["error"].s| > 0
    ensures var o := LoadCachedPaper(metadata, lookup, text);
            o.LoadFailed? && lookup.Ok? ==>
              o.update["metadata"].Dict? && o.update["metadata"].entries["error_stage"] == Str(Stage)
  {
    var o := LoadCachedPaper(metadata, lookup, text);
    if o.LoadFailed? {
      if lookup.Err? {
        assert |o.update["error"].s| >= |LoadErrorPrefix|;
      } else if lookup.value.None? {
        assert |o.update["error"].s| == |NotInCacheError|;
      } else {
        assert |o.update["error"].s| >= |TextErrorPrefix|;
      }
    }
  }
}
