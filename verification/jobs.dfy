/**
 * The `job_status` record: one asynchronous analysis job, its status string
 * and its timestamps. Timestamps are integers supplied by the caller.
 */
module Jobs {
  import opened Wrappers
  import opened State

  type Timestamp = int

  const Pending: string := "pending"
  const Processing: string := "processing"
  const Completed: string := "completed"
  const Failed: string := "failed"

  datatype JobStatus = JobStatus(
    jobId: string,
    arxivId: Option<string>,
    taskName: Option<string>,
    status: string,
    result: Option<Value>,
    error: Option<string>,
    progress: Option<int>,
    createdAt: Timestamp,
    updatedAt: Timestamp,
    startedAt: Option<Timestamp>,
    completedAt: Option<Timestamp>)

  /** A new job: no result or error, progress 0, created and updated now, not started or completed. */
  function NewJob(jobId: string, arxivId: Option<string>, taskName: Option<string>, status: string, now: Timestamp)
    : (j: JobStatus)
    ensures j.jobId == jobId && j.status == status && j.progress == Some(0)
    ensures j.result.None? && j.error.None? && j.startedAt.None? && j.completedAt.None?
    ensures j.createdAt == now && j.updatedAt == now
  {
    JobStatus(jobId, arxivId, taskName, status, None, None, Some(0), now, now, None, None)
  }

  /** `is_terminal` */
  predicate IsTerminal(j: JobStatus) {
    j.status == Completed || j.status == Failed
  }

  /** `is_running` */
  predicate IsRunning(j: JobStatus) {
    j.status == Processing
  }

  /** `is_pending` */
  predicate IsPending(j: JobStatus) {
    j.status == Pending
  }

  /** The three predicates exclude each other, and a job created with the default status is pending. */
  lemma StatusPredicatesExclusive(j: JobStatus)
    ensures !(IsTerminal(j) && IsRunning(j)) && !(IsTerminal(j) && IsPending(j)) && !(IsRunning(j) && IsPending(j))
    ensures IsPending(NewJob(j.jobId, j.arxivId, j.taskName, Pending, j.createdAt))
  {
  }

  /**
   * The record after `update_job_status(status, result, error, progress)`
   * at time `now`: absent arguments leave their fields alone; `started_at`
   * and `completed_at` are only ever filled in, never overwritten.
   */
  function UpdatedJob(j: JobStatus, status: string, result: Option<Value>, error: Option<string>,
                      progress: Option<int>, now: Timestamp): (u: JobStatus)
    ensures u.jobId == j.jobId && u.arxivId == j.arxivId && u.taskName == j.taskName && u.createdAt == j.createdAt
    ensures u.status == status && u.updatedAt == now
    ensures u.result == (if result.Some? then result else j.result)
    ensures u.error == (if error.Some? then error else j.error)
    ensures u.progress == (if progress.Some? then progress else j.progress)
    ensures j.startedAt.Some? ==> u.startedAt == j.startedAt
    ensures j.startedAt.None? ==> u.startedAt == (if status == Processing then Some(now) else None)
    ensures j.completedAt.Some? ==> u.completedAt == j.completedAt
    ensures j.completedAt.None? ==> u.completedAt == (if status == Completed || status == Failed then Some(now) else None)
  {
    var started := if status == Processing && j.startedAt.None? then Some(now) else j.startedAt;
    var completed := if (status == Completed || status == Failed) && j.completedAt.None? then Some(now) else j.completedAt;
    j.(status := status,
       updatedAt := now,
       result := if result.Some? then result else j.result,
       error := if error.Some? then error else j.error,
       progress := if progress.Some? then progress else j.progress,
       startedAt := started,
       completedAt := completed)
  }

  /** One call of `update_job_status`, with its time. */
  datatype Update = Update(status: string, result: Option<Value>, error: Option<string>, progress: Option<int>, at: Timestamp)

  function ApplyUpdates(j: JobStatus, us: seq<Update>): JobStatus
    decreases |us|
  {
    if us == [] then j
    else
      var u := us[0];
      ApplyUpdates(UpdatedJob(j, u.status, u.result, u.error, u.progress, u.at), us[1..])
  }

  /**
   * Over any run of updates, `started_at` is the time of the first
   * `processing` update (if the job had not started), and once set it and
   * `completed_at` keep their values.
   */
  lemma {:induction false} TimestampsAreWrittenOnce(j: JobStatus, us: seq<Update>)
    decreases |us|
    ensures j.startedAt.Some? ==> ApplyUpdates(j, us).startedAt == j.startedAt
    ensures j.completedAt.Some? ==> ApplyUpdates(j, us).completedAt == j.completedAt
    ensures (j.startedAt.None? && forall i :: 0 <= i < |us| ==> us[i].status != Processing) ==>
              ApplyUpdates(j, us).startedAt.None?
    ensures j.startedAt.None? && |us| > 0 && us[0].status == Processing ==> ApplyUpdates(j, us).startedAt == Some(us[0].at)
  {
    if us != [] {
      var u := us[0];
      var next := UpdatedJob(j, u.status, u.result, u.error, u.progress, u.at);
      TimestampsAreWrittenOnce(next, us[1..]);
      assert forall i :: 0 <= i < |us| - 1 ==> us[1..][i] == us[i + 1];
    }
  }
}
