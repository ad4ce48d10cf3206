/**
 * The database operations of the service: the research-paper upsert, the
 * question-and-answer cache with its access counting, and the job-status
 * table. The three tables are maps held by one `Database` object that the
 * operations update in place; the current time is a parameter.
 */
module Crud {
  import opened Wrappers
  import opened Text
  import opened State
  import opened Jobs

  datatype ResearchPaper = ResearchPaper(
    arxivId: string,
    title: string,
    authors: seq<string>,
    publishedDate: Option<Timestamp>,
    lastModifiedDate: Timestamp,
    abstractText: Option<string>,
    summaryJson: Option<Value>,
    chunkCount: Option<int>,
    vectorStoreStatus: string,
    cachedAt: Timestamp,
    cacheUpdatedAt: Timestamp)

  /** The key of a cached answer: the paper and the hash of the normalised question. */
  datatype QAKey = QAKey(arxivId: string, questionHash: string)

  datatype QACacheEntry = QACacheEntry(
    arxivId: string,
    questionHash: string,
    question: string,
    answer: string,
    citations: Option<string>,
    hallucinationScore: Option<real>,
    hallucinationRisk: Option<string>,
    faithfulnessScore: Option<real>,
    answerRelevancyScore: Option<real>,
    responseMetadata: Option<Value>,
    createdAt: Timestamp,
    lastAccessedAt: Timestamp,
    accessCount: int)

  /** The dictionary `get_cached_qa` returns on a hit. */
  datatype CachedAnswer = CachedAnswer(
    arxivId: string,
    question: string,
    answer: string,
    citations: Option<string>,
    hallucinationScore: Option<real>,
    hallucinationRisk: Option<string>,
    answerRelevancyScore: Option<real>,
    cacheTimestamp: Timestamp,
    cached: bool)

  const DefaultVectorStoreStatus: string := "pending"
  /** Assigning attributes onto the dictionary returned by `get_cached_qa` raises this. */
  const DictAttributeError: string := "'dict' object has no attribute 'answer'"
  const DuplicateJobError: string := "duplicate key value violates unique constraint"

  /**
   * `generate_question_hash`: the hash of `question.lower().strip()`. The
   * digest itself is not modelled: the key is the normalised question, so
   * two questions share a key exactly when they normalise alike.
   */
  function QuestionHash(question: string): (h: string)
    ensures |h| <= |question|
    ensures h == [] || (!IsSpace(h[0]) && !IsSpace(h[|h| - 1]))
  {
    Strip(Lower(question))
  }

  /** Questions that differ only in letter case or surrounding whitespace get the same key. */
  lemma QuestionHashIgnoresCaseAndPadding(question: string, w1: string, w2: string)
    requires AllSpace(w1) && AllSpace(w2)
    ensures QuestionHash(w1 + question + w2) == QuestionHash(question)
    ensures QuestionHash(Lower(question)) == QuestionHash(question)
  {
    LowerPadded(w1, question, w2);
    StripPadded(w1, Lower(question), w2);
    LowerIdempotent(question);
  }

  function CachedView(e: QACacheEntry): (v: CachedAnswer)
    ensures v.cached
  {
    CachedAnswer(e.arxivId, e.question, e.answer, e.citations, e.hallucinationScore,
                 e.hallucinationRisk, e.answerRelevancyScore, e.createdAt, true)
  }

  function Touched(e: QACacheEntry, now: Timestamp): (t: QACacheEntry)
    ensures t.accessCount == e.accessCount + 1 && t.lastAccessedAt == now
  {
    e.(lastAccessedAt := now, accessCount := e.accessCount + 1)
  }

  /** Cached answers sit under their own key, and each has been accessed at least once. */
  predicate ValidCache(cache: map<QAKey, QACacheEntry>) {
    forall k :: k in cache ==>
      cache[k].arxivId == k.arxivId && cache[k].questionHash == k.questionHash
      && QuestionHash(cache[k].question) == k.questionHash && cache[k].accessCount >= 1
  }

  lemma TouchKeepsCacheValid(cache: map<QAKey, QACacheEntry>, key: QAKey, now: Timestamp)
    requires ValidCache(cache) && key in cache
    ensures ValidCache(cache[key := Touched(cache[key], now)])
  {
  }

  /** The jobs `cleanup_jobs` selects: finished (completed or failed) and created before the cutoff. */
  function ExpiredJobs(jobs: map<string, JobStatus>, cutoff: Timestamp): (ids: set<string>)
    ensures ids <= jobs.Keys
  {
    set id | id in jobs && IsTerminal(jobs[id]) && jobs[id].createdAt < cutoff
  }

  /** A job that is pending, running, or created at or after the cutoff is never selected. */
  lemma CleanupSparesLiveAndRecentJobs(jobs: map<string, JobStatus>, cutoff: Timestamp, id: string)
    requires id in jobs
    ensures id in ExpiredJobs(jobs, cutoff) <==> jobs[id].status in {Completed, Failed} && jobs[id].createdAt < cutoff
    ensures IsPending(jobs[id]) || IsRunning(jobs[id]) || jobs[id].createdAt >= cutoff ==> id !in ExpiredJobs(jobs, cutoff)
  {
    StatusPredicatesExclusive(jobs[id]);
  }

  class Database {
    var papers: map<string, ResearchPaper>
    var qaCache: map<QAKey, QACacheEntry>
    var jobs: map<string, JobStatus>

    /** Rows are stored under their own keys, and every cached answer has been accessed at least once. */
    predicate Valid()
      reads this
    {
      (forall id :: id in papers ==> papers[id].arxivId == id)
      && ValidCache(qaCache)
      && (forall id :: id in jobs ==> jobs[id].jobId == id)
    }

    constructor ()
      ensures Valid()
      ensures papers == map[] && qaCache == map[] && jobs == map[]
    {
      papers := map[];
      qaCache := map[];
      jobs := map[];
    }

    /**
     * `create_or_update_paper`: an existing paper has every field
     * overwritten and `cache_updated_at` refreshed, keeping `cached_at`; a
     * new paper is created with both cache timestamps set to now.
     */
    method CreateOrUpdatePaper(arxivId: string, title: string, authors: seq<string>, lastModifiedDate: Timestamp,
                               publishedDate: Option<Timestamp>, abstractText: Option<string>,
                               summaryJson: Option<Value>, chunkCount: Option<int>, now: Timestamp,
                               vectorStoreStatus: string := DefaultVectorStoreStatus)
      returns (p: ResearchPaper)
      requires Valid()
      modifies this
      ensures Valid()
      ensures papers == old(papers)[arxivId := p]
      ensures qaCache == old(qaCache) && jobs == old(jobs)
      ensures p == ResearchPaper(arxivId, title, authors, publishedDate, lastModifiedDate, abstractText,
                                 summaryJson, chunkCount, vectorStoreStatus,
                                 if arxivId in old(papers) then old(papers)[arxivId].cachedAt else now, now)
    {
      if arxivId in papers {
        var existing := papers[arxivId];
        existing := existing.(title := title, authors := authors, lastModifiedDate := lastModifiedDate,
                              publishedDate := publishedDate, abstractText := abstractText,
                              summaryJson := summaryJson, chunkCount := chunkCount,
                              vectorStoreStatus := vectorStoreStatus);
        existing := existing.(cacheUpdatedAt := now);
        papers := papers[arxivId := existing];
        p := existing;
      } else {
        p := ResearchPaper(arxivId, title, authors, publishedDate, lastModifiedDate, abstractText,
                           summaryJson, chunkCount, vectorStoreStatus, now, now);
        papers := papers[arxivId := p];
      }
    }

    /**
     * `get_cached_qa`: on a hit the entry's access count goes up by exactly
     * one and its last access becomes now, and the answer comes back marked
     * as cached; a miss returns nothing and changes nothing.
     */
    method GetCachedQA(arxivId: string, question: string, now: Timestamp) returns (r: Option<CachedAnswer>)
      requires Valid()
      modifies this
      ensures Valid()
      ensures papers == old(papers) && jobs == old(jobs)
      ensures QAKey(arxivId, QuestionHash(question)) !in old(qaCache) ==> r.None? && qaCache == old(qaCache)
      ensures QAKey(arxivId, QuestionHash(question)) in old(qaCache) ==>
                var key := QAKey(arxivId, QuestionHash(question));
                qaCache == old(qaCache)[key := Touched(old(qaCache)[key], now)]
                && r == Some(CachedView(old(qaCache)[key]))
    {
      var key := QAKey(arxivId, QuestionHash(question));
      if key in qaCache {
        var entry := qaCache[key];
        r := Some(CachedView(entry));
        TouchKeepsCacheValid(qaCache, key, now);
        qaCache := qaCache[key := Touched(entry, now)];
      } else {
        r := None;
      }
    }

    /**
     * `cache_qa_result`. A new question is stored with access count 1. For a
     * question already cached, the lookup through `get_cached_qa` has bumped
     * the access count, and the following attribute assignment onto the
     * returned dictionary fails: the stored answer is not replaced.
     */
    method CacheQAResult(arxivId: string, question: string, answer: string, citations: Option<string>,
                         hallucinationScore: Option<real>, hallucinationRisk: Option<string>,
                         faithfulnessScore: Option<real>, answerRelevancyScore: Option<real>,
                         responseMetadata: Option<Value>, now: Timestamp)
      returns (r: Result<QACacheEntry, string>)
      requires Valid()
      modifies this
      ensures Valid()
      ensures papers == old(papers) && jobs == old(jobs)
      ensures QAKey(arxivId, QuestionHash(question)) in old(qaCache) ==>
                var key := QAKey(arxivId, QuestionHash(question));
                r == Err(DictAttributeError) && qaCache == old(qaCache)[key := Touched(old(qaCache)[key], now)]
      ensures QAKey(arxivId, QuestionHash(question)) !in old(qaCache) ==>
                r.Ok? && qaCache == old(qaCache)[QAKey(arxivId, QuestionHash(question)) := r.value]
                && r.value == QACacheEntry(arxivId, QuestionHash(question), question, answer, citations,
                                           hallucinationScore, hallucinationRisk, faithfulnessScore,
                                           answerRelevancyScore, responseMetadata, now, now, 1)
    {
      var existing := GetCachedQA(arxivId, question, now);
      if existing.Some? {
        r := Err(DictAttributeError);
      } else {
        var entry := QACacheEntry(arxivId, QuestionHash(question), question, answer, citations,
                                  hallucinationScore, hallucinationRisk, faithfulnessScore,
                                  answerRelevancyScore, responseMetadata, now, now, 1);
        qaCache := qaCache[QAKey(arxivId, entry.questionHash) := entry];
        r := Ok(entry);
      }
    }

    /** `create_job`: a new pending-by-default job with progress 0; a second job under the same id is refused. */
    method CreateJob(jobId: string, arxivId: Option<string>, taskName: Option<string>, status: string, now: Timestamp)
      returns (r: Result<JobStatus, string>)
      requires Valid()
      modifies this
      ensures Valid()
      ensures papers == old(papers) && qaCache == old(qaCache)
      ensures jobId in old(jobs) ==> r == Err(DuplicateJobError) && jobs == old(jobs)
      ensures jobId !in old(jobs) ==> r == Ok(NewJob(jobId, arxivId, taskName, status, now))
                                      && jobs == old(jobs)[jobId := r.value]
    {
      if jobId in jobs {
        r := Err(DuplicateJobError);
      } else {
        var job := NewJob(jobId, arxivId, taskName, status, now);
        jobs := jobs[jobId := job];
        r := Ok(job);
      }
    }

    /**
     * `update_job_status`: an unknown job gives nothing and changes
     * nothing; otherwise the job becomes `UpdatedJob` of its old record.
     */
    method UpdateJobStatus(jobId: string, status: string, result: Option<Value>, error: Option<string>,
                           progress: Option<int>, now: Timestamp)
      returns (r: Option<JobStatus>)
      requires Valid()
      modifies this
      ensures Valid()
      ensures papers == old(papers) && qaCache == old(qaCache)
      ensures jobId !in old(jobs) ==> r.None? && jobs == old(jobs)
      ensures jobId in old(jobs) ==>
                r == Some(UpdatedJob(old(jobs)[jobId], status, result, error, progress, now))
                && jobs == old(jobs)[jobId := r.value]
    {
      if jobId !in jobs {
        return None;
      }
      var job := jobs[jobId];
      job := job.(status := status, updatedAt := now);
      if result.Some? {
        job := job.(result := result);
      }
      if error.Some? {
        job := job.(error := error);
      }
      if progress.Some? {
        job := job.(progress := progress);
      }
      if status == Processing && job.startedAt.None? {
        job := job.(startedAt := Some(now));
      }
      if (status == Completed || status == Failed) && job.completedAt.None? {
        job := job.(completedAt := Some(now));
      }
      jobs := jobs[jobId := job];
      r := Some(job);
    }

    /**
     * `cleanup_jobs`: selects the finished jobs created before the cutoff
     * and returns how many there are. Its `session.delete` calls are never
     * awaited, so the loop over the selection deletes nothing and the model
     * leaves it out: no job is removed, which the missing `modifies` clause
     * states.
     */
    method CleanupJobs(cutoff: Timestamp) returns (count: nat)
      ensures count == |ExpiredJobs(jobs, cutoff)|
    {
      var selected := ExpiredJobs(jobs, cutoff);
      count := |selected|;
    }
  }
}
