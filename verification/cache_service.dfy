/**
 * `CacheService`: the two cache tiers in front of the workflow. The
 * answer cache is checked and filled through the CRUD operations; the
 * paper cache is judged fresh or stale against a modification date. A
 * database operation that raises is modelled by a `fault` flag: the
 * service then reports a miss or a failed store and nothing changes.
 */
module CacheService {
  import opened Wrappers
  import opened State
  import opened Jobs
  import opened Crud

  /** The default vector-store status of `store_paper_result`. */
  const StoredVectorStoreStatus: string := "completed"

  /** The dictionary `check_paper_cache` returns for a stored paper. */
  datatype PaperCacheHit = PaperCacheHit(
    arxivId: string,
    title: string,
    authors: seq<string>,
    abstractText: Option<string>,
    summaryJson: Option<Value>,
    chunkCount: Option<int>,
    vectorStoreStatus: string,
    cached: bool,
    isCurrent: bool)

  /**
   * `check_paper_cache` on the outcome of the lookup: nothing for a
   * missing paper or a lookup that raised; otherwise the stored fields,
   * marked cached, and current exactly when the stored modification date
   * is not older than the given one.
   */
  function CheckPaperCache(lookup: Result<Option<ResearchPaper>, string>, currentModifiedDate: Timestamp)
    : (r: Option<PaperCacheHit>)
    ensures r.Some? <==> lookup.Ok? && lookup.value.Some?
    ensures r.Some? ==>
              var p := lookup.value.value;
              r.value.cached
              && (r.value.isCurrent <==> p.lastModifiedDate >= currentModifiedDate)
              && r.value.arxivId == p.arxivId && r.value.title == p.title && r.value.authors == p.authors
              && r.value.abstractText == p.abstractText && r.value.summaryJson == p.summaryJson
              && r.value.chunkCount == p.chunkCount && r.value.vectorStoreStatus == p.vectorStoreStatus
  {
    match lookup
    case Err(_) => None
    case Ok(None) => None
    case Ok(Some(p)) =>
      Some(PaperCacheHit(p.arxivId, p.title, p.authors, p.abstractText, p.summaryJson, p.chunkCount,
                         p.vectorStoreStatus, true, p.lastModifiedDate >= currentModifiedDate))
  }

  /**
   * A paper current for some modification date is current for every
   * earlier one, and a stored paper is always current for its own date.
   */
  lemma FreshnessIsMonotone(p: ResearchPaper, d1: Timestamp, d2: Timestamp)
    requires d1 <= d2
    ensures CheckPaperCache(Ok(Some(p)), d2).value.isCurrent ==> CheckPaperCache(Ok(Some(p)), d1).value.isCurrent
    ensures CheckPaperCache(Ok(Some(p)), p.lastModifiedDate).value.isCurrent
  {
  }

  /** The lookup outcome for `arxivId` in the paper table. */
  function PaperLookup(db: Database, arxivId: string): (r: Result<Option<ResearchPaper>, string>)
    reads db
    ensures r.Ok? && (r.value.Some? <==> arxivId in db.papers)
    ensures r.Ok? && r.value.Some? ==> r.value.value == db.papers[arxivId]
  {
    if arxivId in db.papers then Ok(Some(db.papers[arxivId])) else Ok(None)
  }

  /**
   * `check_qa_cache`: the cached answer on a hit (its access count bumped
   * by `get_cached_qa`), nothing on a miss, and nothing, with nothing
   * changed, when the database raises.
   */
  method CheckQACache(db: Database, arxivId: string, question: string, now: Timestamp, fault: bool)
    returns (r: Option<CachedAnswer>)
    requires db.Valid()
    modifies db
    ensures db.Valid()
    ensures db.papers == old(db.papers) && db.jobs == old(db.jobs)
    ensures fault ==> r.None? && db.qaCache == old(db.qaCache)
    ensures !fault ==>
              var key := QAKey(arxivId, QuestionHash(question));
              (r.Some? <==> key in old(db.qaCache))
              && (r.Some? ==> r.value.cached && r.value == CachedView(old(db.qaCache)[key])
                              && db.qaCache == old(db.qaCache)[key := Touched(old(db.qaCache)[key], now)])
              && (r.None? ==> db.qaCache == old(db.qaCache))
  {
    if fault {
      return None;
    }
    r := db.GetCachedQA(arxivId, question, now);
  }

  /**
   * `store_qa_result`: true exactly when `cache_qa_result` completes, which
   * happens only for a question not yet cached for the paper; the stored
   * answer is then what a later `check_qa_cache` returns.
   */
  method StoreQAResult(db: Database, arxivId: string, question: string, answer: string, citations: string,
                       hallucinationScore: real, hallucinationRisk: string, faithfulnessScore: Option<real>,
                       answerRelevancyScore: Option<real>, metadata: Option<Value>, now: Timestamp, fault: bool)
    returns (stored: bool)
    requires db.Valid()
    modifies db
    ensures db.Valid()
    ensures db.papers == old(db.papers) && db.jobs == old(db.jobs)
    ensures stored <==> !fault && QAKey(arxivId, QuestionHash(question)) !in old(db.qaCache)
    ensures fault ==> db.qaCache == old(db.qaCache)
    ensures !fault && QAKey(arxivId, QuestionHash(question)) in old(db.qaCache) ==>
              var key := QAKey(arxivId, QuestionHash(question));
              db.qaCache == old(db.qaCache)[key := Touched(old(db.qaCache)[key], now)]
    ensures stored ==>
              var key := QAKey(arxivId, QuestionHash(question));
              key in db.qaCache && db.qaCache == old(db.qaCache)[key := db.qaCache[key]]
              && CachedView(db.qaCache[key]).answer == answer
              && CachedView(db.qaCache[key]).citations == Some(citations)
              && CachedView(db.qaCache[key]).hallucinationScore == Some(hallucinationScore)
              && CachedView(db.qaCache[key]).hallucinationRisk == Some(hallucinationRisk)
              && db.qaCache[key].accessCount == 1
              && db.qaCache[key] == QACacheEntry(arxivId, QuestionHash(question), question, answer, Some(citations),
                                                 Some(hallucinationScore), Some(hallucinationRisk), faithfulnessScore,
                                                 answerRelevancyScore, metadata, now, now, 1)
  {
    if fault {
      return false;
    }
    var r := db.CacheQAResult(arxivId, question, answer, Some(citations), Some(hallucinationScore),
                              Some(hallucinationRisk), faithfulnessScore, answerRelevancyScore, metadata, now);
    stored := r.Ok?;
  }

  /**
   * `store_paper_result`: true unless the database raises; the stored
   * paper then carries the given fields, and checking it against the
   * modification date it was stored with finds it current.
   */
  method StorePaperResult(db: Database, arxivId: string, title: string, authors: seq<string>,
                          lastModifiedDate: Timestamp, publishedDate: Option<Timestamp>,
                          abstractText: Option<string>, summaryJson: Option<Value>, chunkCount: Option<int>,
                          now: Timestamp, fault: bool, vectorStoreStatus: string := StoredVectorStoreStatus)
    returns (stored: bool)
    requires db.Valid()
    modifies db
    ensures db.Valid()
    ensures db.qaCache == old(db.qaCache) && db.jobs == old(db.jobs)
    ensures stored <==> !fault
    ensures fault ==> db.papers == old(db.papers)
    ensures stored ==>
              arxivId in db.papers && db.papers == old(db.papers)[arxivId := db.papers[arxivId]]
              && var hit := CheckPaperCache(PaperLookup(db, arxivId), lastModifiedDate);
              hit.Some? && hit.value.isCurrent && hit.value.title == title && hit.value.authors == authors
              && hit.value.vectorStoreStatus == vectorStoreStatus && hit.value.chunkCount == chunkCount
    ensures stored ==>
              db.papers[arxivId]
              == ResearchPaper(arxivId, title, authors, publishedDate, lastModifiedDate, abstractText, summaryJson,
                               chunkCount, vectorStoreStatus,
                               if arxivId in old(db.papers) then old(db.papers)[arxivId].cachedAt else now, now)
  {
    if fault {
      return false;
    }
    var p := db.CreateOrUpdatePaper(arxivId, title, authors, lastModifiedDate, publishedDate, abstractText,
                                    summaryJson, chunkCount, now, vectorStoreStatus);
    stored := true;
  }
}
