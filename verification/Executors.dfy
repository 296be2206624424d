/**
 Several executors on one job store (crates/infra/src/jobs/executor.rs).

 Each store access is one step: a poll, the write-back of an executed job, and the separate move
 of an exhausted job to the dead letters. Clients enqueue, retry and delete in between.
 */
module Executors {
  import opened Core
  import opened Jobs
  import opened JobStore
  import opened Sums

  type ExecutorId = nat

  datatype Phase = Idle | Executing(job: Job) | Exhausted(job: Job)

  datatype Pool = Pool(store: Store, executors: map<ExecutorId, Phase>)

  datatype Step =
    | Enqueue(job: Job)
    | Poll(executor: ExecutorId, filter: Option<TenantId>, now: Time, pick: Option<JobId>)
    | Finish(executor: ExecutorId, result: Option<JobResult>, started: Time, now: Time, backoff: Time)
    | Bury(executor: ExecutorId, now: Time)
    | Retry(tenant: TenantId, id: JobId)
    | Delete(tenant: TenantId, id: JobId)

  function PhaseOf(p: Pool, x: ExecutorId): Phase {
    if x in p.executors then p.executors[x] else Idle
  }

  /**
   A client enqueues a new job under an id that is not waiting among the dead letters; a poll
   picks one of the oldest ready jobs, or nothing when there is none.
   */
  predicate Enabled(p: Pool, step: Step) {
    match step
    case Enqueue(job) => IsNew(job) && job.id !in p.store.dead
    case Poll(x, filter, now, pick) =>
      && PhaseOf(p, x).Idle?
      && (if pick.None? then NothingReady(p.store.jobs, filter, now) else IsNext(p.store.jobs, filter, now, pick.value))
    case Finish(x, _, _, _, _) => PhaseOf(p, x).Executing?
    case Bury(x, _) => PhaseOf(p, x).Exhausted?
    case Retry(_, _) => true
    case Delete(_, _) => true
  }

  /** Where an execution leaves its executor: only a final `Failure` goes on to the dead letters. */
  function PhaseAfter(done: Job, result: Option<JobResult>): Phase {
    if result == Some(Failure) && done.status.DeadLettered? then Exhausted(done) else Idle
  }

  function Next(p: Pool, step: Step): Pool
    requires Enabled(p, step)
  {
    match step
    case Enqueue(job) => p.(store := Enqueued(p.store, job))
    case Poll(x, _, _, None) => p
    case Poll(x, _, _, Some(id)) =>
      var store := Claimed(p.store, id);
      Pool(store, p.executors[x := Executing(store.jobs[id])])
    case Finish(x, result, started, now, backoff) =>
      var job := p.executors[x].job;
      var done := Executed(job, result, started, now, backoff);
      // A refused update ends the execution on the spot.
      if job.id in p.store.jobs then Pool(Updated(p.store, done), p.executors[x := PhaseAfter(done, result)])
      else p.(executors := p.executors[x := Idle])
    case Bury(x, now) => Pool(Buried(p.store, p.executors[x].job, now), p.executors[x := Idle])
    case Retry(tenant, id) => p.(store := Retried(p.store, tenant, id))
    case Delete(tenant, id) => p.(store := Deleted(p.store, tenant, id))
  }

  /** The steps can be taken one after the other. */
  predicate Legal(p: Pool, steps: seq<Step>)
    decreases |steps|
  {
    steps != [] ==> Enabled(p, steps[0]) && Legal(Next(p, steps[0]), steps[1..])
  }

  function After(p: Pool, steps: seq<Step>): Pool
    requires Legal(p, steps)
    decreases |steps|
  {
    if steps == [] then p else After(Next(p, steps[0]), steps[1..])
  }

  function Start(): Pool {
    Pool(Store(map[], map[]), map[])
  }

  // ---------------------------------------------------------------------------
  // The invariant
  // ---------------------------------------------------------------------------

  /** Every job is coherent and lies in exactly one of the two maps, under its own id. */
  ghost predicate StoreSound(s: Store) {
    && (forall id | id in s.jobs :: s.jobs[id].id == id && Coherent(s.jobs[id]))
    && (forall id | id in s.dead :: s.dead[id].job.id == id && Coherent(s.dead[id].job) && s.dead[id].job.status.DeadLettered?)
    && s.jobs.Keys !! s.dead.Keys
  }

  predicate Holds(p: Pool, x: ExecutorId, id: JobId) {
    !PhaseOf(p, x).Idle? && PhaseOf(p, x).job.id == id
  }

  /** The store's copy of a held job is its holder's copy. */
  ghost predicate HoldersCurrent(p: Pool) {
    forall x | !PhaseOf(p, x).Idle? ::
      var job := PhaseOf(p, x).job;
      && job.id in p.store.jobs
      && p.store.jobs[job.id] == job
      && (PhaseOf(p, x).Executing? ==> job.status.Running?)
      && (PhaseOf(p, x).Exhausted? ==> job.status.DeadLettered?)
  }

  ghost predicate Exclusive(p: Pool) {
    forall x, y, id | Holds(p, x, id) && Holds(p, y, id) :: x == y
  }

  /** No running job is forgotten. */
  ghost predicate NoOrphans(p: Pool) {
    forall id | id in p.store.jobs && p.store.jobs[id].status.Running? :: exists x :: Holds(p, x, id)
  }

  ghost predicate Sound(p: Pool) {
    StoreSound(p.store) && HoldersCurrent(p) && Exclusive(p) && NoOrphans(p)
  }

  lemma StepKeepsStore(p: Pool, step: Step)
    requires Sound(p) && Enabled(p, step)
    ensures StoreSound(Next(p, step).store)
  {
    hide Coherent, Executed, IsNext, NothingReady;
    match step
    case Enqueue(job) => NewIsCoherent(job);
    case Poll(_, filter, now, pick) =>
      if pick.Some? {
        NextIsCandidate(p.store.jobs, filter, now, pick.value);
        ClaimSpends(p.store.jobs[pick.value]);
      }
    case Finish(x, result, started, now, backoff) =>
      assert PhaseOf(p, x) == p.executors[x];
      ExecutionSettles(p.executors[x].job, result, started, now, backoff);
      ExecutionKeepsName(p.executors[x].job, result, started, now, backoff);
    case Bury(x, now) =>
      assert PhaseOf(p, x) == p.executors[x];
      BurialChangesNothing(p.executors[x].job);
    case Retry(tenant, id) =>
      if id in p.store.dead {
        NewIsCoherent(Revived(p.store.dead[id].job));
      }
    case Delete(_, _) =>
  }

  lemma NewIsCoherent(job: Job)
    requires IsNew(job)
    ensures Coherent(job)
  {
  }

  lemma NextIsCandidate(jobs: map<JobId, Job>, filter: Option<TenantId>, now: Time, id: JobId)
    requires IsNext(jobs, filter, now, id)
    ensures id in jobs && (jobs[id].status.Pending? || jobs[id].status.Failed?)
  {
  }

  lemma ExecutionKeepsName(job: Job, result: Option<JobResult>, started: Time, now: Time, backoff: Time)
    ensures var done := Executed(job, result, started, now, backoff);
            done.id == job.id && done.createdAt == job.createdAt && done.tenant == job.tenant
  {
  }

  lemma BurialChangesNothing(job: Job)
    requires Coherent(job) && job.status.DeadLettered?
    ensures job.(status := DeadLettered(job.attempt)) == job
  {
  }

  /** The job a step leaves an executor with, and the jobs it leaves alone. */
  lemma StepKeepsHolders(p: Pool, step: Step)
    requires Sound(p) && Enabled(p, step)
    ensures HoldersCurrent(Next(p, step)) && Exclusive(Next(p, step)) && NoOrphans(Next(p, step))
  {
    hide Coherent, Executed, IsNext, NothingReady;
    match step
    case Enqueue(job) => EnqueueKeepsHolders(p, job);
    case Poll(x, filter, now, pick) =>
      if pick.Some? {
        NextIsCandidate(p.store.jobs, filter, now, pick.value);
        PollKeepsHolders(p, step);
      }
    case Finish(x, result, started, now, backoff) => FinishKeepsHolders(p, step);
    case Bury(x, now) => BuryKeepsHolders(p, x, now);
    case Retry(tenant, id) => RetryKeepsHolders(p, tenant, id);
    case Delete(_, _) => DeleteKeepsHolders(p, step);
  }

  lemma RunningStaysHeld(p: Pool, p': Pool)
    requires NoOrphans(p)
    requires forall id | id in p'.store.jobs && p'.store.jobs[id].status.Running? ::
               || (exists x :: Holds(p', x, id))
               || (id in p.store.jobs && p.store.jobs[id].status.Running? && forall x | Holds(p, x, id) :: Holds(p', x, id))
    ensures NoOrphans(p')
  {
    forall id | id in p'.store.jobs && p'.store.jobs[id].status.Running?
      ensures exists x :: Holds(p', x, id)
    {
      if id in p.store.jobs && p.store.jobs[id].status.Running? {
        var x :| Holds(p, x, id);
        assert Holds(p, x, id) ==> Holds(p', x, id) || exists y :: Holds(p', y, id);
      }
    }
  }

  lemma EnqueueKeepsHolders(p: Pool, job: Job)
    requires Sound(p) && Enabled(p, Enqueue(job))
    ensures var p' := Next(p, Enqueue(job)); HoldersCurrent(p') && Exclusive(p') && NoOrphans(p')
  {
    hide Coherent;
    var p' := Next(p, Enqueue(job));
    assert forall x :: PhaseOf(p', x) == PhaseOf(p, x);
    assert forall x, id :: Holds(p', x, id) <==> Holds(p, x, id);
    RunningStaysHeld(p, p');
  }

  lemma DeleteKeepsHolders(p: Pool, step: Step)
    requires Sound(p) && step.Delete?
    ensures var p' := Next(p, step); HoldersCurrent(p') && Exclusive(p') && NoOrphans(p')
  {
    hide Coherent;
    var p' := Next(p, step);
    assert forall x :: PhaseOf(p', x) == PhaseOf(p, x);
    assert forall x, id :: Holds(p', x, id) <==> Holds(p, x, id);
    RunningStaysHeld(p, p');
  }

  lemma RetryKeepsHolders(p: Pool, tenant: TenantId, id: JobId)
    requires Sound(p)
    ensures var p' := Next(p, Retry(tenant, id)); HoldersCurrent(p') && Exclusive(p') && NoOrphans(p')
  {
    hide Coherent;
    var p' := Next(p, Retry(tenant, id));
    assert forall x :: PhaseOf(p', x) == PhaseOf(p, x);
    assert forall x, k :: Holds(p', x, k) <==> Holds(p, x, k);
    RunningStaysHeld(p, p');
  }

  lemma PollKeepsHolders(p: Pool, step: Step)
    requires Sound(p) && step.Poll? && Enabled(p, step) && step.pick.Some?
    requires var id := step.pick.value; p.store.jobs[id].status.Pending? || p.store.jobs[id].status.Failed?
    ensures var p' := Next(p, step); HoldersCurrent(p') && Exclusive(p') && NoOrphans(p')
  {
    hide Coherent, IsNext;
    var id, x, p' := step.pick.value, step.executor, Next(p, step);
    assert IsNext(p.store.jobs, step.filter, step.now, id);
    NextIsCandidate(p.store.jobs, step.filter, step.now, id);
    assert forall y :: !Holds(p, y, id);
    assert forall y | y != x :: PhaseOf(p', y) == PhaseOf(p, y);
    assert p'.store.jobs[id].id == id;
    assert forall y, k :: Holds(p', y, k) <==> if y == x then k == id else Holds(p, y, k);
    assert Holds(p', x, id) && PhaseOf(p, x).Idle?;
    RunningStaysHeld(p, p');
  }

  lemma FinishKeepsHolders(p: Pool, step: Step)
    requires Sound(p) && step.Finish? && Enabled(p, step)
    ensures var p' := Next(p, step); HoldersCurrent(p') && Exclusive(p') && NoOrphans(p')
  {
    hide Coherent, Executed;
    var x, p' := step.executor, Next(p, step);
    assert PhaseOf(p, x) == p.executors[x];
    var job := p.executors[x].job;
    ExecutionSettles(job, step.result, step.started, step.now, step.backoff);
    ExecutionKeepsName(job, step.result, step.started, step.now, step.backoff);
    assert Holds(p, x, job.id);
    assert forall y | y != x :: PhaseOf(p', y) == PhaseOf(p, y) && !Holds(p, y, job.id);
    assert forall y, k | y != x :: Holds(p', y, k) <==> Holds(p, y, k);
    assert forall k | Holds(p', x, k) :: k == job.id;
    RunningStaysHeld(p, p');
  }

  lemma BuryKeepsHolders(p: Pool, x: ExecutorId, now: Time)
    requires Sound(p) && Enabled(p, Bury(x, now))
    ensures var p' := Next(p, Bury(x, now)); HoldersCurrent(p') && Exclusive(p') && NoOrphans(p')
  {
    hide Coherent;
    var p' := Next(p, Bury(x, now));
    assert PhaseOf(p, x) == p.executors[x];
    var job := p.executors[x].job;
    assert Holds(p, x, job.id);
    assert forall y | y != x :: PhaseOf(p', y) == PhaseOf(p, y) && !Holds(p, y, job.id);
    assert forall y, k | y != x :: Holds(p', y, k) <==> Holds(p, y, k);
    assert forall k :: !Holds(p', x, k);
    RunningStaysHeld(p, p');
  }

  lemma StepKeepsSound(p: Pool, step: Step)
    requires Sound(p) && Enabled(p, step)
    ensures Sound(Next(p, step))
  {
    hide StoreSound, HoldersCurrent, Exclusive, NoOrphans, Next, Enabled;
    StepKeepsStore(p, step);
    StepKeepsHolders(p, step);
  }

  /**
   In every run no job is held twice or forgotten while running, a holder's copy is the stored one,
   and every job lies in exactly one map with a coherent history.
   */
  lemma {:induction false} RunKeepsSound(p: Pool, steps: seq<Step>)
    requires Sound(p) && Legal(p, steps)
    ensures Sound(After(p, steps))
    decreases |steps|
  {
    hide Sound, Enabled, Next;
    if steps != [] {
      StepKeepsSound(p, steps[0]);
      RunKeepsSound(Next(p, steps[0]), steps[1..]);
    }
  }

  lemma EveryRunIsSound(steps: seq<Step>)
    requires Legal(Start(), steps)
    ensures Sound(After(Start(), steps))
  {
    RunKeepsSound(Start(), steps);
  }

  /** No step touches a job that another executor holds: a write-back never overwrites foreign work. */
  lemma OthersUntouched(p: Pool, step: Step, x: ExecutorId)
    requires Sound(p) && Enabled(p, step) && !PhaseOf(p, x).Idle?
    requires step.Finish? || step.Bury? || step.Poll? ==> step.executor != x
    ensures var job := PhaseOf(p, x).job;
            && PhaseOf(Next(p, step), x) == PhaseOf(p, x)
            && job.id in Next(p, step).store.jobs
            && Next(p, step).store.jobs[job.id] == job
  {
    hide Sound, Enabled, Next;
    StepKeepsSound(p, step);
    PhasesOfOthers(p, step, x);
    HolderIsCurrent(Next(p, step), x);
  }

  lemma PhasesOfOthers(p: Pool, step: Step, x: ExecutorId)
    requires Enabled(p, step)
    requires step.Finish? || step.Bury? || step.Poll? ==> step.executor != x
    ensures PhaseOf(Next(p, step), x) == PhaseOf(p, x)
  {
    hide IsNext, NothingReady, Executed;
  }

  lemma HolderIsCurrent(p: Pool, x: ExecutorId)
    requires Sound(p) && !PhaseOf(p, x).Idle?
    ensures PhaseOf(p, x).job.id in p.store.jobs && p.store.jobs[PhaseOf(p, x).job.id] == PhaseOf(p, x).job
  {
  }

  // ---------------------------------------------------------------------------
  // Budgets
  // ---------------------------------------------------------------------------

  function Weigh(): (JobId, Job) -> int {
    (id: JobId, job: Job) => Budget(job)
  }

  /** How many claims the live jobs still allow. */
  ghost function TotalBudget(p: Pool): int {
    MapSum(p.store.jobs, Weigh())
  }

  function IsClaim(step: Step): nat {
    if step.Poll? && step.pick.Some? then 1 else 0
  }

  function Claims(steps: seq<Step>): nat {
    if steps == [] then 0 else IsClaim(steps[0]) + Claims(steps[1..])
  }

  /** The claims an enqueue or a dead-letter retry newly allows. */
  function Grant(p: Pool, step: Step): nat {
    match step
    case Enqueue(job) => if job.id in p.store.jobs then 0 else Allowance(job)
    case Retry(tenant, id) => if DeadLetterFault(p.store, tenant, id).None? then Allowance(p.store.dead[id].job) else 0
    case _ => 0
  }

  function Granted(p: Pool, steps: seq<Step>): nat
    requires Legal(p, steps)
    decreases |steps|
  {
    if steps == [] then 0 else Grant(p, steps[0]) + Granted(Next(p, steps[0]), steps[1..])
  }

  /** What a successful execution leaves unused. */
  function Unused(p: Pool, step: Step): int
    requires Enabled(p, step)
  {
    if step.Finish? && step.result == Some(Success) then Budget(p.executors[step.executor].job) else 0
  }

  function Forfeited(p: Pool, steps: seq<Step>): int
    requires Legal(p, steps)
    decreases |steps|
  {
    if steps == [] then 0 else Unused(p, steps[0]) + Forfeited(Next(p, steps[0]), steps[1..])
  }

  /** Only the jobs that a step writes or removes change. */
  lemma StepOnJobs(p: Pool, step: Step)
    requires Sound(p) && Enabled(p, step)
    ensures var jobs, jobs' := p.store.jobs, Next(p, step).store.jobs;
            match step
            case Enqueue(job) => jobs' == if job.id in jobs then jobs else jobs[job.id := job]
            case Poll(_, _, _, pick) => jobs' == if pick.None? then jobs else jobs[pick.value := jobs[pick.value].MarkRunning()]
            case Finish(x, result, started, now, backoff) =>
              var job := PhaseOf(p, x).job;
              job.id in jobs && jobs[job.id] == job && jobs' == jobs[job.id := Executed(job, result, started, now, backoff)]
            case Bury(x, _) => PhaseOf(p, x).job.id in jobs && jobs' == jobs - {PhaseOf(p, x).job.id}
            case Retry(tenant, id) =>
              jobs' == if DeadLetterFault(p.store, tenant, id).None? then jobs[id := Revived(p.store.dead[id].job)] else jobs
            case Delete(_, _) => jobs' == jobs
  {
    hide Coherent, Executed, IsNext, NothingReady, NoOrphans, Exclusive;
    if step.Finish? {
      var job := PhaseOf(p, step.executor).job;
      ExecutionKeepsName(job, step.result, step.started, step.now, step.backoff);
    }
  }

  /** Every claim is paid for: by the budgets at the start or by a later enqueue or retry. */
  lemma StepBalances(p: Pool, step: Step)
    requires Sound(p) && Enabled(p, step)
    ensures TotalBudget(Next(p, step)) + IsClaim(step) + Unused(p, step) == TotalBudget(p) + Grant(p, step)
    ensures Unused(p, step) >= 0
  {
    hide Next, Coherent, IsNext, NothingReady, NoOrphans, Exclusive, Executed;
    var jobs: map<JobId, Job> := p.store.jobs;
    StepOnJobs(p, step);
    match step
    case Enqueue(job) =>
      MapSumPut(jobs, job.id, job, Weigh());
    case Poll(_, filter, now, pick) =>
      if pick.Some? {
        NextIsCandidate(jobs, filter, now, pick.value);
        ClaimSpends(jobs[pick.value]);
        MapSumPut(jobs, pick.value, jobs[pick.value].MarkRunning(), Weigh());
      }
    case Finish(x, result, started, now, backoff) =>
      var job := PhaseOf(p, x).job;
      ExecutionSettles(job, result, started, now, backoff);
      MapSumPut(jobs, job.id, Executed(job, result, started, now, backoff), Weigh());
      BudgetBounds(job);
    case Bury(x, _) =>
      MapSumSplit(jobs, PhaseOf(p, x).job.id, Weigh());
    case Retry(tenant, id) =>
      if DeadLetterFault(p.store, tenant, id).None? {
        MapSumPut(jobs, id, Revived(p.store.dead[id].job), Weigh());
      }
    case Delete(_, _) =>
  }

  lemma {:induction false} ClaimsBalance(p: Pool, steps: seq<Step>)
    requires Sound(p) && Legal(p, steps)
    ensures TotalBudget(After(p, steps)) + Claims(steps) + Forfeited(p, steps) == TotalBudget(p) + Granted(p, steps)
    ensures Forfeited(p, steps) >= 0
    decreases |steps|
  {
    hide Sound, Enabled, Next, Unused, Grant, TotalBudget;
    if steps != [] {
      StepKeepsSound(p, steps[0]);
      StepBalances(p, steps[0]);
      ClaimsBalance(Next(p, steps[0]), steps[1..]);
    }
  }

  lemma BudgetIsNonNegative(p: Pool)
    requires Sound(p)
    ensures TotalBudget(p) >= 0
  {
    forall id | id in p.store.jobs
      ensures Weigh()(id, p.store.jobs[id]) >= 0
    {
      BudgetBounds(p.store.jobs[id]);
    }
    MapSumBounds(p.store.jobs, Weigh());
  }

  predicate Closed(steps: seq<Step>) {
    forall i | 0 <= i < |steps| :: !steps[i].Enqueue? && !steps[i].Retry?
  }

  lemma {:induction false} ClosedGrantsNothing(p: Pool, steps: seq<Step>)
    requires Legal(p, steps) && Closed(steps)
    ensures Granted(p, steps) == 0
    decreases |steps|
  {
    hide Next, Enabled;
    if steps != [] {
      ClosedGrantsNothing(Next(p, steps[0]), steps[1..]);
    }
  }

  /** Without enqueues and retries any run makes at most as many claims as the budgets allow. */
  lemma ClaimsAreBounded(p: Pool, steps: seq<Step>)
    requires Sound(p) && Legal(p, steps) && Closed(steps)
    ensures Claims(steps) <= TotalBudget(p)
  {
    ClaimsBalance(p, steps);
    ClosedGrantsNothing(p, steps);
    RunKeepsSound(p, steps);
    BudgetIsNonNegative(After(p, steps));
  }

  // ---------------------------------------------------------------------------
  // One job's claims
  // ---------------------------------------------------------------------------

  predicate Known(s: Store, id: JobId) {
    id in s.jobs || id in s.dead
  }

  function JobOf(s: Store, id: JobId): Job
    requires Known(s, id)
  {
    if id in s.jobs then s.jobs[id] else s.dead[id].job
  }

  function ClaimsOf(steps: seq<Step>, id: JobId): nat {
    if steps == [] then 0
    else (if steps[0].Poll? && steps[0].pick == Some(id) then 1 else 0) + ClaimsOf(steps[1..], id)
  }

  predicate LeavesAlone(steps: seq<Step>, id: JobId) {
    forall i | 0 <= i < |steps| :: (steps[i].Retry? || steps[i].Delete?) ==> steps[i].id != id
  }

  lemma StepCountsClaim(p: Pool, step: Step, id: JobId)
    requires Sound(p) && Enabled(p, step) && Known(p.store, id)
    requires (step.Retry? || step.Delete?) ==> step.id != id
    ensures var s' := Next(p, step).store;
            && Known(s', id)
            && JobOf(s', id).attempt == JobOf(p.store, id).attempt + (if step.Poll? && step.pick == Some(id) then 1 else 0)
            && JobOf(s', id).maxAttempts == JobOf(p.store, id).maxAttempts
  {
    hide Coherent, NothingReady, IsNext, Executed, NoOrphans, Exclusive;
    StepOnJobs(p, step);
    match step
    case Poll(_, filter, now, pick) =>
      if pick.Some? {
        NextIsCandidate(p.store.jobs, filter, now, pick.value);
        ClaimSpends(p.store.jobs[pick.value]);
      }
    case Finish(x, result, started, now, backoff) =>
      ExecutionSettles(PhaseOf(p, x).job, result, started, now, backoff);
      ExecutionKeepsPolicy(PhaseOf(p, x).job, result, started, now, backoff);
    case _ =>
  }

  lemma ExecutionKeepsPolicy(job: Job, result: Option<JobResult>, started: Time, now: Time, backoff: Time)
    ensures Executed(job, result, started, now, backoff).maxAttempts == job.maxAttempts
  {
  }

  /** The attempt counter counts the claims, so a job that ends dead-lettered ran exactly as often as allowed. */
  lemma {:induction false} AttemptsCountClaims(p: Pool, steps: seq<Step>, id: JobId)
    requires Sound(p) && Legal(p, steps) && Known(p.store, id) && LeavesAlone(steps, id)
    ensures var s' := After(p, steps).store;
            && Known(s', id)
            && JobOf(s', id).attempt == JobOf(p.store, id).attempt + ClaimsOf(steps, id)
            && JobOf(s', id).maxAttempts == JobOf(p.store, id).maxAttempts
    decreases |steps|
  {
    hide Sound, Enabled, Next, Known, JobOf;
    if steps != [] {
      StepKeepsSound(p, steps[0]);
      StepCountsClaim(p, steps[0], id);
      AttemptsCountClaims(Next(p, steps[0]), steps[1..], id);
    }
  }

  /** A job enqueued and failing every time is executed exactly `max(1, max_attempts)` times, all recorded as failures. */
  lemma FailingJobRunsOut(p: Pool, job: Job, steps: seq<Step>)
    requires Sound(p) && Enabled(p, Enqueue(job)) && job.id !in p.store.jobs
    requires Legal(Next(p, Enqueue(job)), steps) && LeavesAlone(steps, job.id)
    ensures var s' := After(Next(p, Enqueue(job)), steps).store;
            && Known(s', job.id)
            && ClaimsOf(steps, job.id) <= Allowance(job)
            && var final := JobOf(s', job.id);
               final.status.IsTerminal() && !final.status.Completed? ==>
                 && final.status.DeadLettered?
                 && ClaimsOf(steps, job.id) == Allowance(job) == |final.history|
                 && forall i | 0 <= i < |final.history| :: !final.history[i].success && final.history[i].attempt == i + 1
  {
    hide Sound, Legal, After;
    var begun := Next(p, Enqueue(job));
    StepKeepsSound(p, Enqueue(job));
    AttemptsCountClaims(begun, steps, job.id);
    RunKeepsSound(begun, steps);
    KnownIsCoherent(After(begun, steps), job.id);
  }

  lemma KnownIsCoherent(p: Pool, id: JobId)
    requires Sound(p) && Known(p.store, id)
    ensures Coherent(JobOf(p.store, id))
    ensures JobOf(p.store, id).attempt <= Allowance(JobOf(p.store, id))
  {
  }

  // ---------------------------------------------------------------------------
  // First come, first served
  // ---------------------------------------------------------------------------

  function OlderThan(job: Job): (JobId, Job) -> int {
    (id: JobId, other: Job) => if id != job.id && other.createdAt <= job.createdAt then Budget(other) else 0
  }

  /** The claims that may be served before `job`. */
  ghost function OlderBudget(p: Pool, job: Job): int {
    MapSum(p.store.jobs, OlderThan(job))
  }

  /** The job is stored as given and ready from `since` on. */
  predicate Waiting(p: Pool, job: Job, since: Time) {
    && job.id in p.store.jobs && p.store.jobs[job.id] == job
    && (job.status.Pending? || job.status.Failed?)
    && (job.scheduledAt.None? || job.scheduledAt.value <= since)
  }

  /** The poll could serve the job: it is not restricted to another tenant. */
  predicate Serves(step: Step, job: Job) {
    step.Poll? && (step.filter.Some? ==> step.filter.value == job.tenant)
  }

  function ServingPolls(steps: seq<Step>, job: Job): nat {
    if steps == [] then 0 else (if Serves(steps[0], job) then 1 else 0) + ServingPolls(steps[1..], job)
  }

  predicate OvertakenIn(steps: seq<Step>, job: Job, since: Time) {
    && (forall i | 0 <= i < |steps| && Serves(steps[i], job) :: steps[i].now >= since)
    && (forall i | 0 <= i < |steps| && steps[i].Poll? :: steps[i].pick != Some(job.id))
  }

  /** The claims granted, while the job waits, to jobs created no later than it. */
  function OlderGrant(p: Pool, step: Step, job: Job): nat {
    match step
    case Enqueue(other) => if other.createdAt <= job.createdAt then Grant(p, step) else 0
    case Retry(tenant, id) => if id in p.store.dead && p.store.dead[id].job.createdAt <= job.createdAt then Grant(p, step) else 0
    case _ => 0
  }

  function OlderGranted(p: Pool, steps: seq<Step>, job: Job): nat
    requires Legal(p, steps)
    decreases |steps|
  {
    if steps == [] then 0 else OlderGrant(p, steps[0], job) + OlderGranted(Next(p, steps[0]), steps[1..], job)
  }

  /** Nobody holds a waiting job, so only a claim can change it. */
  lemma WaitingStays(p: Pool, step: Step, job: Job, since: Time)
    requires Sound(p) && Enabled(p, step) && Waiting(p, job, since)
    requires step.Poll? ==> step.pick != Some(job.id)
    ensures Waiting(Next(p, step), job, since)
  {
    hide Coherent, NothingReady, IsNext, Executed, NoOrphans, Exclusive, Next;
    StepOnJobs(p, step);
    if step.Bury? {
      assert PhaseOf(p, step.executor).job.status.DeadLettered?;
    }
  }

  /** A poll that could serve the job and does not spends the budget of an older one. */
  lemma PollSpendsOlder(p: Pool, step: Step, job: Job, since: Time)
    requires Sound(p) && Enabled(p, step) && Waiting(p, job, since)
    requires step.Poll? && step.pick != Some(job.id)
    requires Serves(step, job) ==> step.now >= since
    ensures OlderBudget(Next(p, step), job) + (if Serves(step, job) then 1 else 0) <= OlderBudget(p, job)
  {
    hide Coherent, NoOrphans, Exclusive, Next;
    var jobs: map<JobId, Job> := p.store.jobs;
    StepOnJobs(p, step);
    if Serves(step, job) {
      assert Candidate(jobs[job.id], step.filter, step.now);
    }
    if step.pick.Some? {
      var id := step.pick.value;
      ClaimSpends(jobs[id]);
      MapSumPut(jobs, id, jobs[id].MarkRunning(), OlderThan(job));
    }
  }

  lemma EnqueueServes(p: Pool, other: Job, job: Job)
    requires Sound(p) && Enabled(p, Enqueue(other)) && job.id in p.store.jobs
    ensures OlderBudget(Next(p, Enqueue(other)), job) <= OlderBudget(p, job) + OlderGrant(p, Enqueue(other), job)
  {
    hide Coherent, MapSum, HoldersCurrent, NoOrphans, Exclusive, Next;
    StepOnJobs(p, Enqueue(other));
    if other.id !in p.store.jobs {
      MapSumPut(p.store.jobs, other.id, other, OlderThan(job));
      assert Budget(other) == Allowance(other) == Grant(p, Enqueue(other));
    }
  }

  lemma FinishServes(p: Pool, step: Step, job: Job)
    requires Sound(p) && Enabled(p, step) && step.Finish?
    ensures OlderBudget(Next(p, step), job) <= OlderBudget(p, job)
  {
    hide Coherent, MapSum, NoOrphans, Exclusive, Next, Executed;
    var held := PhaseOf(p, step.executor).job;
    var done := Executed(held, step.result, step.started, step.now, step.backoff);
    StepOnJobs(p, step);
    ExecutionSettles(held, step.result, step.started, step.now, step.backoff);
    ExecutionKeepsName(held, step.result, step.started, step.now, step.backoff);
    MapSumPut(p.store.jobs, held.id, done, OlderThan(job));
  }

  lemma BuryServes(p: Pool, step: Step, job: Job)
    requires Sound(p) && Enabled(p, step) && step.Bury?
    ensures OlderBudget(Next(p, step), job) == OlderBudget(p, job)
  {
    hide Coherent, MapSum, NoOrphans, Exclusive, Next;
    var jobs, id := p.store.jobs, PhaseOf(p, step.executor).job.id;
    StepOnJobs(p, step);
    assert jobs[id].status.DeadLettered? && Budget(jobs[id]) == 0;
    MapSumSplit(jobs, id, OlderThan(job));
  }

  lemma RetryServes(p: Pool, tenant: TenantId, id: JobId, job: Job)
    requires Sound(p)
    ensures OlderBudget(Next(p, Retry(tenant, id)), job) <= OlderBudget(p, job) + OlderGrant(p, Retry(tenant, id), job)
  {
    hide Coherent, MapSum, HoldersCurrent, NoOrphans, Exclusive, Next;
    StepOnJobs(p, Retry(tenant, id));
    if DeadLetterFault(p.store, tenant, id).None? {
      var revived := Revived(p.store.dead[id].job);
      MapSumPut(p.store.jobs, id, revived, OlderThan(job));
      assert Budget(revived) == Allowance(revived) == Grant(p, Retry(tenant, id));
    }
  }

  lemma StepServes(p: Pool, step: Step, job: Job, since: Time)
    requires Sound(p) && Enabled(p, step) && Waiting(p, job, since)
    requires step.Poll? ==> step.pick != Some(job.id)
    requires Serves(step, job) ==> step.now >= since
    ensures OlderBudget(Next(p, step), job) + (if Serves(step, job) then 1 else 0) <= OlderBudget(p, job) + OlderGrant(p, step, job)
  {
    hide Sound, OlderBudget;
    match step
    case Enqueue(other) => EnqueueServes(p, other, job);
    case Poll(_, _, _, _) => PollSpendsOlder(p, step, job, since);
    case Finish(_, _, _, _, _) => FinishServes(p, step, job);
    case Bury(_, _) => BuryServes(p, step, job);
    case Retry(tenant, id) => RetryServes(p, tenant, id, job);
    case Delete(_, _) =>
      StepOnJobs(p, step);
      SameJobsSameBudget(p, Next(p, step), job);
  }

  lemma SameJobsSameBudget(p: Pool, p': Pool, job: Job)
    requires p'.store.jobs == p.store.jobs
    ensures OlderBudget(p', job) == OlderBudget(p, job)
  {
  }

  /** As long as a ready job is passed over, every poll that could serve it is paid for by an older job. */
  lemma {:induction false} PassedOverIsPaid(p: Pool, steps: seq<Step>, job: Job, since: Time)
    requires Sound(p) && Legal(p, steps) && Waiting(p, job, since) && OvertakenIn(steps, job, since)
    ensures OlderBudget(After(p, steps), job) + ServingPolls(steps, job) <= OlderBudget(p, job) + OlderGranted(p, steps, job)
    decreases |steps|
  {
    hide Sound, Enabled, Next, OlderGrant, OlderBudget, Waiting, Serves;
    if steps != [] {
      StepKeepsSound(p, steps[0]);
      WaitingStays(p, steps[0], job, since);
      StepServes(p, steps[0], job, since);
      PassedOverIsPaid(Next(p, steps[0]), steps[1..], job, since);
    }
  }

  lemma OlderBudgetIsNonNegative(p: Pool, job: Job)
    requires Sound(p)
    ensures OlderBudget(p, job) >= 0
  {
    forall id | id in p.store.jobs
      ensures OlderThan(job)(id, p.store.jobs[id]) >= 0
    {
      BudgetBounds(p.store.jobs[id]);
    }
    MapSumBounds(p.store.jobs, OlderThan(job));
  }

  /**
   A ready job is claimed before the polls that could serve it outnumber the remaining attempts of
   the jobs created no later: those present when it began to wait and those arriving since. Any
   number of executors may poll, and older jobs may keep asking for an immediate retry.
   */
  lemma NeverStarved(p: Pool, steps: seq<Step>, job: Job, since: Time)
    requires Sound(p) && Legal(p, steps) && Waiting(p, job, since)
    requires forall i | 0 <= i < |steps| && Serves(steps[i], job) :: steps[i].now >= since
    requires ServingPolls(steps, job) > OlderBudget(p, job) + OlderGranted(p, steps, job)
    ensures exists i | 0 <= i < |steps| :: steps[i].Poll? && steps[i].pick == Some(job.id)
  {
    if OvertakenIn(steps, job, since) {
      PassedOverIsPaid(p, steps, job, since);
      RunKeepsSound(p, steps);
      OlderBudgetIsNonNegative(After(p, steps), job);
    }
  }

  /**
   A job that failed with attempts left is claimed again: once it is due, before the polls that could
   serve it outnumber the remaining attempts of the jobs created no later.
   */
  lemma RetryIsClaimed(p: Pool, finish: Step, steps: seq<Step>)
    requires Sound(p) && Enabled(p, finish) && finish.Finish? && finish.result != Some(Success)
    requires Budget(PhaseOf(p, finish.executor).job) > 0
    requires Legal(Next(p, finish), steps)
    requires var id := PhaseOf(p, finish.executor).job.id;
             && id in Next(p, finish).store.jobs
             && var job := Next(p, finish).store.jobs[id];
                && (forall i | 0 <= i < |steps| && Serves(steps[i], job) :: steps[i].now >= DueAt(finish.result, finish.now, finish.backoff))
                && ServingPolls(steps, job) > OlderBudget(Next(p, finish), job) + OlderGranted(Next(p, finish), steps, job)
    ensures exists i | 0 <= i < |steps| :: steps[i].Poll? && steps[i].pick == Some(PhaseOf(p, finish.executor).job.id)
  {
    hide Coherent, Executed, Legal, OlderBudget, OlderGranted, ServingPolls, Serves, NoOrphans, Exclusive;
    var held := PhaseOf(p, finish.executor).job;
    var done := Executed(held, finish.result, finish.started, finish.now, finish.backoff);
    var due := DueAt(finish.result, finish.now, finish.backoff);
    StepOnJobs(p, finish);
    StepKeepsSound(p, finish);
    ExecutionKeepsName(held, finish.result, finish.started, finish.now, finish.backoff);
    RetriedWhenDue(held, finish.result, finish.started, finish.now, finish.backoff, due);
    assert Waiting(Next(p, finish), done, due);
    NeverStarved(Next(p, finish), steps, done, due);
  }

  /** A retried dead letter waits as a new job, ready at once and with its full allowance. */
  lemma RetryRevives(p: Pool, tenant: TenantId, id: JobId)
    requires Sound(p) && DeadLetterFault(p.store, tenant, id).None?
    ensures var jobs := Next(p, Retry(tenant, id)).store.jobs;
            && id in jobs && Waiting(Next(p, Retry(tenant, id)), jobs[id], 0)
            && Budget(jobs[id]) == Allowance(p.store.dead[id].job) && jobs[id].history == []
            && id !in Next(p, Retry(tenant, id)).store.dead
  {
    hide Coherent, HoldersCurrent, NoOrphans, Exclusive;
    RevivedIsNew(p.store.dead[id].job, 0);
  }

  /** Only a final `Failure` sends a job on to the dead letters; every other execution leaves its executor idle. */
  lemma OnlyFailureIsBuried(p: Pool, step: Step)
    requires Sound(p) && Enabled(p, step) && step.Finish?
    ensures var job := PhaseOf(p, step.executor).job;
            && (PhaseOf(Next(p, step), step.executor).Exhausted? <==> step.result == Some(Failure) && Budget(job) == 0)
            && (!PhaseOf(Next(p, step), step.executor).Exhausted? ==> PhaseOf(Next(p, step), step.executor).Idle?)
            && job.id in Next(p, step).store.jobs
            && (Next(p, step).store.jobs[job.id].status.DeadLettered? <==> step.result != Some(Success) && Budget(job) == 0)
  {
    hide Coherent, Executed, NoOrphans, Exclusive;
    var job := PhaseOf(p, step.executor).job;
    ExecutionSettles(job, step.result, step.started, step.now, step.backoff);
    ExecutionKeepsName(job, step.result, step.started, step.now, step.backoff);
  }

  // ---------------------------------------------------------------------------
  // Statistics over runs
  // ---------------------------------------------------------------------------

  /** By how much a step changes a tenant's number of jobs. */
  function Arrival(p: Pool, step: Step, tenant: TenantId): int {
    match step
    case Enqueue(job) => if job.id !in p.store.jobs && job.tenant == tenant then 1 else 0
    case Delete(owner, id) => if DeadLetterFault(p.store, owner, id).None? && owner == tenant then -1 else 0
    case _ => 0
  }

  function Arrivals(p: Pool, steps: seq<Step>, tenant: TenantId): int
    requires Legal(p, steps)
    decreases |steps|
  {
    if steps == [] then 0 else Arrival(p, steps[0], tenant) + Arrivals(Next(p, steps[0]), steps[1..], tenant)
  }

  lemma StepOnDead(p: Pool, step: Step)
    requires Sound(p) && Enabled(p, step)
    ensures var dead, dead' := p.store.dead, Next(p, step).store.dead;
            match step
            case Bury(x, now) => PhaseOf(p, x).job.id !in dead && dead' == dead[PhaseOf(p, x).job.id := DeadLetter(PhaseOf(p, x).job, now)]
            case Retry(tenant, id) => dead' == if DeadLetterFault(p.store, tenant, id).None? then dead - {id} else dead
            case Delete(tenant, id) => dead' == if DeadLetterFault(p.store, tenant, id).None? then dead - {id} else dead
            case _ => dead' == dead
  {
    hide Coherent, Executed, IsNext, NothingReady, NoOrphans, Exclusive;
    if step.Bury? {
      BurialChangesNothing(PhaseOf(p, step.executor).job);
    }
  }

  lemma StepOnPopulation(p: Pool, step: Step, tenant: TenantId)
    requires Sound(p) && Enabled(p, step)
    ensures Population(Next(p, step).store, tenant) == Population(p.store, tenant) + Arrival(p, step, tenant)
  {
    hide Coherent, NothingReady, IsNext, Executed, NoOrphans, Exclusive, Next;
    var jobs: map<JobId, Job> := p.store.jobs;
    var dead: map<JobId, DeadLetter> := p.store.dead;
    var w, u := OwnedBy(tenant), BuriedBy(tenant);
    StepOnJobs(p, step);
    StepOnDead(p, step);
    match step
    case Enqueue(job) => MapSumPut(jobs, job.id, job, w);
    case Poll(_, filter, now, pick) =>
      if pick.Some? {
        NextIsCandidate(jobs, filter, now, pick.value);
        MapSumPut(jobs, pick.value, jobs[pick.value].MarkRunning(), w);
      }
    case Finish(x, result, started, now, backoff) =>
      var held := PhaseOf(p, x).job;
      ExecutionKeepsName(held, result, started, now, backoff);
      MapSumPut(jobs, held.id, Executed(held, result, started, now, backoff), w);
    case Bury(x, now) =>
      var held := PhaseOf(p, x).job;
      MapSumSplit(jobs, held.id, w);
      MapSumPut(dead, held.id, DeadLetter(held, now), u);
    case Retry(owner, id) =>
      if DeadLetterFault(p.store, owner, id).None? {
        MapSumPut(jobs, id, Revived(dead[id].job), w);
        MapSumSplit(dead, id, u);
      }
    case Delete(owner, id) =>
      if DeadLetterFault(p.store, owner, id).None? {
        MapSumSplit(dead, id, u);
      }
  }

  /** In every run a tenant's counters add up to the jobs it enqueued less the dead letters it deleted. */
  lemma {:induction false} StatsCountArrivals(p: Pool, steps: seq<Step>, tenant: TenantId)
    requires Sound(p) && Legal(p, steps)
    ensures StatsOf(After(p, steps).store, tenant).Total() == StatsOf(p.store, tenant).Total() + Arrivals(p, steps, tenant)
    decreases |steps|
  {
    hide Sound, Enabled, Next, Arrival, StatsOf, Population;
    if steps != [] {
      var p' := Next(p, steps[0]);
      StepKeepsSound(p, steps[0]);
      StepOnPopulation(p, steps[0], tenant);
      StatsAddUp(p.store, tenant);
      StatsAddUp(p'.store, tenant);
      StatsCountArrivals(p', steps[1..], tenant);
    }
  }

  // ---------------------------------------------------------------------------
  // The executor
  // ---------------------------------------------------------------------------

  datatype ExecutorStats = ExecutorStats(processed: nat, succeeded: nat, failed: nat, deadLettered: nat)

  function Completion(): (JobId, Job) -> int {
    (id: JobId, job: Job) => if job.status.Completed? then 1 else 0
  }

  function Exhaustion(): (JobId, Job) -> int {
    (id: JobId, job: Job) => if job.status.DeadLettered? then 1 else 0
  }

  function Burial(): (JobId, DeadLetter) -> int {
    (id: JobId, entry: DeadLetter) => 1
  }

  /** How many jobs the store shows as completed. */
  ghost function CompletedJobs(s: Store): int {
    MapSum(s.jobs, Completion())
  }

  /** How many jobs the store shows as exhausted, in either map. */
  ghost function ExhaustedJobs(s: Store): int {
    MapSum(s.jobs, Exhaustion()) + MapSum(s.dead, Burial())
  }

  /** The store after an executor has claimed a job and executed it. */
  function AfterRound(s: Store, id: JobId, done: Job, buried: bool, at: Time): Store
    requires id in s.jobs
  {
    var updated := Updated(Claimed(s, id), done);
    if buried then Buried(updated, done, at) else updated
  }

  lemma RoundMoves(s: Store, id: JobId, done: Job, buried: bool, at: Time)
    requires id in s.jobs && done.id == id && id !in s.dead && (s.jobs[id].status.Pending? || s.jobs[id].status.Failed?)
    requires buried ==> done.status.DeadLettered?
    ensures CompletedJobs(AfterRound(s, id, done, buried, at)) == CompletedJobs(s) + if done.status.Completed? then 1 else 0
    ensures ExhaustedJobs(AfterRound(s, id, done, buried, at)) == ExhaustedJobs(s) + if done.status.DeadLettered? then 1 else 0
  {
    hide MapSum;
    var jobs := s.jobs[id := done];
    assert Updated(Claimed(s, id), done).jobs == jobs;
    MapSumPut(s.jobs, id, done, Completion());
    MapSumPut(s.jobs, id, done, Exhaustion());
    if buried {
      MapSumSplit(jobs, id, Completion());
      MapSumSplit(jobs, id, Exhaustion());
      MapSumPut(s.dead, id, DeadLetter(done.(status := DeadLettered(done.attempt)), at), Burial());
    }
  }

  /** One execution without interference: update, then the dead letters if `Failure` was the last word. */
  method ExecuteJob(store: InMemoryJobStore, claimed: Job, result: Option<JobResult>, started: Time, now: Time, backoff: Time, buriedAt: Time)
    returns (ok: bool, job: Job)
    modifies store
    ensures job == Executed(claimed, result, started, now, backoff)
    ensures ok <==> result == Some(Success) && claimed.id in old(store.jobs)
    ensures claimed.id !in old(store.jobs) ==> store.View() == old(store.View())
    ensures claimed.id in old(store.jobs) ==>
              var updated := Updated(old(store.View()), job);
              store.View() == if PhaseAfter(job, result).Exhausted? then Buried(updated, job, buriedAt) else updated
  {
    job := claimed;
    match result {
      case None =>
        job := job.MarkFailed(now, now, backoff);
        var _ := store.Update(job);
        return false, job;
      case Some(Success) =>
        job := job.MarkCompleted(started, now);
        var updated := store.Update(job);
        return updated.Ok?, job;
      case Some(Failure) =>
        job := job.MarkFailed(started, now, backoff);
        var updated := store.Update(job);
        if updated.Ok? && job.status.DeadLettered? {
          store.DeadLetterJob(job, buriedAt);
        }
        return false, job;
      case Some(RetryNow) =>
        job := job.MarkFailed(started, now, backoff);
        job := job.(scheduledAt := None);
        var _ := store.Update(job);
        return false, job;
      case Some(RetryAfter(delay)) =>
        job := job.MarkFailed(started, now, backoff);
        job := job.(scheduledAt := Some(now + delay));
        var _ := store.Update(job);
        return false, job;
    }
  }

  /** What the clock and the handler answer during one round of the loop. */
  datatype Round = Round(polledAt: Time, result: Option<JobResult>, started: Time, now: Time, backoff: Time, buriedAt: Time)

  lemma {:induction false} AfterSnoc(p: Pool, steps: seq<Step>, step: Step)
    requires Legal(p, steps) && Enabled(After(p, steps), step)
    ensures Legal(p, steps + [step])
    ensures After(p, steps + [step]) == Next(After(p, steps), step)
    ensures Claims(steps + [step]) == Claims(steps) + IsClaim(step)
    decreases |steps|
  {
    hide Enabled, Next;
    if steps == [] {
      assert [step][1..] == [];
    } else {
      AfterSnoc(Next(p, steps[0]), steps[1..], step);
      assert (steps + [step])[1..] == steps[1..] + [step];
    }
  }

  /** A poll that claims, followed by the write-back of the executed job. */
  lemma ClaimThenFinish(p: Pool, x: ExecutorId, filter: Option<TenantId>, round: Round, id: JobId)
    requires Sound(p) && PhaseOf(p, x).Idle? && IsNext(p.store.jobs, filter, round.polledAt, id)
    ensures var job := p.store.jobs[id].MarkRunning();
            var done := Executed(job, round.result, round.started, round.now, round.backoff);
            var steps := [Poll(x, filter, round.polledAt, Some(id)), Finish(x, round.result, round.started, round.now, round.backoff)];
            && done.id == job.id == id
            && Legal(p, steps)
            && After(p, steps) == Pool(Updated(Claimed(p.store, id), done), p.executors[x := PhaseAfter(done, round.result)])
            && Claims(steps) == 1
  {
    hide Coherent, Executed, IsNext, NothingReady, NoOrphans, Exclusive, Legal, After, Claims;
    NextIsCandidate(p.store.jobs, filter, round.polledAt, id);
    var poll := Poll(x, filter, round.polledAt, Some(id));
    var finish := Finish(x, round.result, round.started, round.now, round.backoff);
    var job := p.store.jobs[id].MarkRunning();
    ExecutionKeepsName(job, round.result, round.started, round.now, round.backoff);
    NoStepsYet(p);
    AfterSnoc(p, [], poll);
    assert [] + [poll] == [poll];
    AfterSnoc(p, [poll], finish);
    assert [poll] + [finish] == [poll, finish];
  }

  /** The executor's steps in a round in which it claimed a job. */
  ghost function RoundSteps(x: ExecutorId, filter: Option<TenantId>, round: Round, job: Job): seq<Step> {
    [Poll(x, filter, round.polledAt, Some(job.id)), Finish(x, round.result, round.started, round.now, round.backoff)] +
    if PhaseAfter(Executed(job, round.result, round.started, round.now, round.backoff), round.result).Exhausted?
    then [Bury(x, round.buriedAt)] else []
  }

  lemma RoundIsLegal(p: Pool, x: ExecutorId, filter: Option<TenantId>, round: Round, id: JobId)
    requires Sound(p) && PhaseOf(p, x).Idle? && IsNext(p.store.jobs, filter, round.polledAt, id)
    ensures var job := p.store.jobs[id].MarkRunning();
            var done := Executed(job, round.result, round.started, round.now, round.backoff);
            var updated := Updated(Claimed(p.store, id), done);
            var steps := RoundSteps(x, filter, round, job);
            && job.id == id
            && Legal(p, steps)
            && After(p, steps) == Pool(if PhaseAfter(done, round.result).Exhausted? then Buried(updated, done, round.buriedAt) else updated,
                                       p.executors[x := Idle])
            && Claims(steps) == 1
  {
    hide Sound, Executed, IsNext, Updated, Legal, After, Claims;
    NextIsCandidate(p.store.jobs, filter, round.polledAt, id);
    var job := p.store.jobs[id].MarkRunning();
    var done := Executed(job, round.result, round.started, round.now, round.backoff);
    ClaimThenFinish(p, x, filter, round, id);
    var steps := [Poll(x, filter, round.polledAt, Some(id)), Finish(x, round.result, round.started, round.now, round.backoff)];
    var settled := After(p, steps);
    if PhaseAfter(done, round.result).Exhausted? {
      AfterSnoc(p, steps, Bury(x, round.buriedAt));
      assert settled.executors[x := Idle] == p.executors[x := Idle];
      assert RoundSteps(x, filter, round, job) == steps + [Bury(x, round.buriedAt)];
    } else {
      assert RoundSteps(x, filter, round, job) == steps;
    }
  }

  lemma {:induction false} AfterConcat(p: Pool, first: seq<Step>, second: seq<Step>)
    requires Legal(p, first) && Legal(After(p, first), second)
    ensures Legal(p, first + second)
    ensures After(p, first + second) == After(After(p, first), second)
    ensures Claims(first + second) == Claims(first) + Claims(second)
    decreases |first|
  {
    hide Enabled, Next;
    if first == [] {
      assert first + second == second;
    } else {
      AfterConcat(Next(p, first[0]), first[1..], second);
      assert (first + second)[1..] == first[1..] + second;
    }
  }

  /**
   The executor loop until shutdown, undisturbed: it takes exactly steps of the protocol, so every
   property of runs holds of it; it never processes more jobs than the budgets allow.
   */
  method ExecutorLoop(store: InMemoryJobStore, filter: Option<TenantId>, rounds: seq<Round>)
    returns (stats: ExecutorStats, ghost steps: seq<Step>)
    requires Sound(Pool(store.View(), map[]))
    modifies store
    ensures var p := Pool(old(store.View()), map[]);
            && Legal(p, steps)
            && After(p, steps).store == store.View()
            && stats.processed == Claims(steps) <= TotalBudget(p)
    ensures stats.processed == stats.succeeded + stats.failed
    ensures stats.succeeded == CompletedJobs(store.View()) - CompletedJobs(old(store.View()))
    ensures stats.deadLettered == ExhaustedJobs(store.View()) - ExhaustedJobs(old(store.View()))
  {
    hide Sound, Executed, Enabled, Next, Legal, After, Claims, CompletedJobs, ExhaustedJobs;
    ghost var p := Pool(store.View(), map[]);
    stats := ExecutorStats(0, 0, 0, 0);
    steps := [];
    NoStepsYet(p);
    for i := 0 to |rounds|
      invariant Legal(p, steps)
      invariant Sound(After(p, steps))
      invariant After(p, steps).store == store.View()
      invariant PhaseOf(After(p, steps), 0).Idle?
      invariant Closed(steps)
      invariant stats.processed == Claims(steps) == stats.succeeded + stats.failed
      invariant stats.succeeded == CompletedJobs(store.View()) - CompletedJobs(p.store)
      invariant stats.deadLettered == ExhaustedJobs(store.View()) - ExhaustedJobs(p.store)
    {
      ghost var current := After(p, steps);
      var round := rounds[i];
      IdsAreKeys(current);
      var claimed := store.ClaimNext(filter, round.polledAt);
      if claimed.Some? {
        var ok, job := ExecuteJob(store, claimed.value, round.result, round.started, round.now, round.backoff, round.buriedAt);
        RoundIsLegal(current, 0, filter, round, claimed.value.id);
        RoundCounts(current, filter, round, claimed.value.id);
        ghost var taken := RoundSteps(0, filter, round, claimed.value);
        RunKeepsSound(current, taken);
        AfterConcat(p, steps, taken);
        steps := steps + taken;
        stats := stats.(processed := stats.processed + 1);
        if ok {
          stats := stats.(succeeded := stats.succeeded + 1);
        } else if job.status.IsTerminal() {
          stats := stats.(failed := stats.failed + 1);
          if job.status.DeadLettered? {
            stats := stats.(deadLettered := stats.deadLettered + 1);
          }
        } else {
          stats := stats.(failed := stats.failed + 1);
        }
      }
    }
    ClaimsAreBounded(p, steps);
  }

  /** A round changes the store's completed and exhausted jobs by the outcome of its one execution. */
  lemma RoundCounts(p: Pool, filter: Option<TenantId>, round: Round, id: JobId)
    requires Sound(p) && IsNext(p.store.jobs, filter, round.polledAt, id)
    ensures var job := p.store.jobs[id].MarkRunning();
            var done := Executed(job, round.result, round.started, round.now, round.backoff);
            var after := AfterRound(p.store, id, done, PhaseAfter(done, round.result).Exhausted?, round.buriedAt);
            && CompletedJobs(after) == CompletedJobs(p.store) + (if round.result == Some(Success) then 1 else 0)
            && ExhaustedJobs(after) == ExhaustedJobs(p.store) + (if done.status.DeadLettered? then 1 else 0)
            && (done.status.DeadLettered? ==> round.result != Some(Success))
  {
    hide Coherent, Executed, HoldersCurrent, NoOrphans, Exclusive, CompletedJobs, ExhaustedJobs;
    var job := p.store.jobs[id].MarkRunning();
    ClaimSpends(p.store.jobs[id]);
    ExecutionSettles(job, round.result, round.started, round.now, round.backoff);
    ExecutionKeepsName(job, round.result, round.started, round.now, round.backoff);
    var done := Executed(job, round.result, round.started, round.now, round.backoff);
    RoundMoves(p.store, id, done, PhaseAfter(done, round.result).Exhausted?, round.buriedAt);
  }

  lemma NoStepsYet(p: Pool)
    ensures Legal(p, []) && After(p, []) == p && Claims([]) == 0
  {
  }

  lemma IdsAreKeys(p: Pool)
    requires Sound(p)
    ensures forall id | id in p.store.jobs :: p.store.jobs[id].id == id
  {
  }
}
