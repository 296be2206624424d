/** Jobs and their life cycle (crates/infra/src/jobs/types.rs). */
module Jobs {
  import opened Core

  type JobId = nat

  datatype JobStatus = Pending | Running | Completed | Failed(attempt: U32) | DeadLettered(attempts: U32) | Cancelled {
    predicate IsTerminal() {
      Completed? || DeadLettered? || Cancelled?
    }
  }

  datatype AttemptRecord = AttemptRecord(attempt: U32, startedAt: Time, finishedAt: Time, success: bool)

  /** A job is a value: the store and the executors clone it in and out. */
  datatype Job = Job(
    id: JobId, tenant: TenantId, status: JobStatus, maxAttempts: U32, attempt: U32, createdAt: Time,
    scheduledAt: Option<Time>, history: seq<AttemptRecord>)
  {
    predicate ShouldRetry() {
      attempt < maxAttempts
    }

    predicate IsReady(now: Time) {
      scheduledAt.Some? ==> now >= scheduledAt.value
    }

    function MarkRunning(): Job {
      this.(status := Running, attempt := WrapAdd32(attempt, 1))
    }

    function MarkCompleted(started: Time, now: Time): Job {
      this.(status := Completed, history := history + [AttemptRecord(attempt, started, now, true)])
    }

    /** `backoff` is the delay of the retry policy for this attempt. */
    function MarkFailed(started: Time, now: Time, backoff: Time): Job {
      var recorded := this.(history := history + [AttemptRecord(attempt, started, now, false)]);
      if ShouldRetry()
      then recorded.(scheduledAt := Some(now + backoff), status := Failed(attempt))
      else recorded.(status := DeadLettered(attempt))
    }
  }

  /** A job as `Job::new` makes it, whatever retry policy and schedule the caller then chose. */
  predicate IsNew(job: Job) {
    job.status == Pending && job.attempt == 0 && job.history == []
  }

  datatype JobResult = Success | Failure | RetryNow | RetryAfter(delay: Time)

  /** The job after one execution; `None` stands for a job kind without a handler. */
  function Executed(job: Job, result: Option<JobResult>, started: Time, now: Time, backoff: Time): Job {
    match result
    case None => job.MarkFailed(now, now, backoff)
    case Some(Success) => job.MarkCompleted(started, now)
    case Some(Failure) => job.MarkFailed(started, now, backoff)
    case Some(RetryNow) => job.MarkFailed(started, now, backoff).(scheduledAt := None)
    case Some(RetryAfter(delay)) => job.MarkFailed(started, now, backoff).(scheduledAt := Some(now + delay))
  }

  /** How often a job may run in all: a policy without retries still allows one execution. */
  function Allowance(job: Job): nat {
    if job.maxAttempts == 0 then 1 else job.maxAttempts
  }

  /** How often a job may still be claimed. */
  function Budget(job: Job): int {
    if job.status.IsTerminal() then 0 else Allowance(job) - job.attempt
  }

  predicate HistoryNumbered(job: Job) {
    && (forall i | 0 <= i < |job.history| :: job.history[i].attempt == i + 1)
    && (forall i | 0 <= i < |job.history| && job.history[i].success :: i == |job.history| - 1 && job.status == Completed)
  }

  /** What status, attempt counter and history say about each other in every reachable job. */
  predicate Coherent(job: Job) {
    var n := |job.history|;
    && HistoryNumbered(job)
    && match job.status
       case Pending => job.attempt == n == 0
       case Running => job.attempt == n + 1 <= Allowance(job)
       case Completed => job.attempt == n && 1 <= n <= Allowance(job) && job.history[n - 1].success
       case Failed(a) => a == job.attempt == n && 1 <= n < job.maxAttempts
       case DeadLettered(a) => a == job.attempt == n == Allowance(job)
       case Cancelled => false
  }

  /** A claim spends one unit of the budget, and the attempt counter does not wrap. */
  lemma ClaimSpends(job: Job)
    requires Coherent(job) && (job.status.Pending? || job.status.Failed?)
    ensures Coherent(job.MarkRunning())
    ensures job.MarkRunning().attempt == job.attempt + 1
    ensures Budget(job.MarkRunning()) == Budget(job) - 1 >= 0
  {
  }

  /** What an execution does to a coherent running job. */
  ghost predicate Settles(job: Job, after: Job, success: bool) {
    && Coherent(after) && !after.status.Running? && !after.status.Pending?
    && after.attempt == job.attempt
    && |after.history| == |job.history| + 1 && after.history[..|job.history|] == job.history
    && (after.status.Completed? <==> success)
    && (!success ==> Budget(after) == Budget(job))
    && 0 <= Budget(after) <= Budget(job)
    && (after.status.DeadLettered? <==> !success && Budget(job) == 0)
  }

  lemma CompletionSettles(job: Job, started: Time, now: Time)
    requires Coherent(job) && job.status.Running?
    ensures Settles(job, job.MarkCompleted(started, now), true)
  {
  }

  lemma FailureSettles(job: Job, started: Time, now: Time, backoff: Time)
    requires Coherent(job) && job.status.Running?
    ensures Settles(job, job.MarkFailed(started, now, backoff), false)
  {
  }

  lemma ScheduleIsFree(job: Job, after: Job, success: bool, at: Option<Time>)
    requires Settles(job, after, success)
    ensures Settles(job, after.(scheduledAt := at), success)
  {
  }

  /** An execution keeps the job coherent, never raises the budget, and gives it up only on success. */
  lemma ExecutionSettles(job: Job, result: Option<JobResult>, started: Time, now: Time, backoff: Time)
    requires Coherent(job) && job.status.Running?
    ensures Settles(job, Executed(job, result, started, now, backoff), result == Some(Success))
  {
    hide Settles, Coherent;
    CompletionSettles(job, started, now);
    FailureSettles(job, started, now, backoff);
    FailureSettles(job, now, now, backoff);
    ScheduleIsFree(job, job.MarkFailed(started, now, backoff), false, None);
    if result.Some? && result.value.RetryAfter? {
      ScheduleIsFree(job, job.MarkFailed(started, now, backoff), false, Some(now + result.value.delay));
    }
  }

  /** The record of an execution: its number, its times, and whether it succeeded. Nothing else of the job's identity changes. */
  lemma ExecutionRecords(job: Job, result: Option<JobResult>, started: Time, now: Time, backoff: Time)
    ensures var after := Executed(job, result, started, now, backoff);
            && after.history == job.history + [AttemptRecord(job.attempt, if result.None? then now else started, now, result == Some(Success))]
            && after.id == job.id && after.tenant == job.tenant && after.createdAt == job.createdAt && after.maxAttempts == job.maxAttempts
  {
  }

  /** When a retried job may run again: at once, after the delay it asked for, or after the backoff. */
  function DueAt(result: Option<JobResult>, now: Time, backoff: Time): Time {
    match result
    case Some(RetryNow) => 0
    case Some(RetryAfter(delay)) => now + delay
    case _ => now + backoff
  }

  /** An executed job waits for a retry exactly when it did not succeed and attempts remain, and is ready from its due time on. */
  lemma RetriedWhenDue(job: Job, result: Option<JobResult>, started: Time, now: Time, backoff: Time, t: Time)
    requires Coherent(job) && job.status.Running?
    ensures var after := Executed(job, result, started, now, backoff);
            && (after.status.Failed? <==> result != Some(Success) && Budget(job) > 0)
            && (after.status.Failed? ==> (after.IsReady(t) <==> t >= DueAt(result, now, backoff)))
  {
  }

  lemma BudgetBounds(job: Job)
    requires Coherent(job)
    ensures 0 <= Budget(job) <= Allowance(job)
  {
  }
}
