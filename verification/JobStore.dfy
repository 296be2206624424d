/** The in-memory job store (crates/infra/src/jobs/store.rs). */
module JobStore {
  import opened Core
  import opened Jobs
  import opened Sums
  import opened Sorting

  datatype DeadLetter = DeadLetter(job: Job, at: Time)

  datatype JobStoreError = JobNotFound | ForeignTenant | AlreadyExists

  datatype Store = Store(jobs: map<JobId, Job>, dead: map<JobId, DeadLetter>)

  // ---------------------------------------------------------------------------
  // The operations on values
  // ---------------------------------------------------------------------------

  function Enqueued(s: Store, job: Job): Store {
    if job.id in s.jobs then s else s.(jobs := s.jobs[job.id := job])
  }

  function Updated(s: Store, job: Job): Store {
    if job.id in s.jobs then s.(jobs := s.jobs[job.id := job]) else s
  }

  predicate Candidate(job: Job, filter: Option<TenantId>, now: Time) {
    && (job.status.Pending? || job.status.Failed?)
    && job.IsReady(now)
    && (filter.Some? ==> job.tenant == filter.value)
  }

  /** `id` may be the first after sorting the candidates by creation: none is older. */
  predicate IsNext(jobs: map<JobId, Job>, filter: Option<TenantId>, now: Time, id: JobId) {
    && id in jobs
    && Candidate(jobs[id], filter, now)
    && forall k | k in jobs && Candidate(jobs[k], filter, now) :: jobs[id].createdAt <= jobs[k].createdAt
  }

  predicate NothingReady(jobs: map<JobId, Job>, filter: Option<TenantId>, now: Time) {
    forall k | k in jobs :: !Candidate(jobs[k], filter, now)
  }

  function Claimed(s: Store, id: JobId): Store
    requires id in s.jobs
  {
    s.(jobs := s.jobs[id := s.jobs[id].MarkRunning()])
  }

  function Buried(s: Store, job: Job, now: Time): Store {
    Store(s.jobs - {job.id}, s.dead[job.id := DeadLetter(job.(status := DeadLettered(job.attempt)), now)])
  }

  function Revived(job: Job): Job {
    job.(status := Pending, attempt := 0, scheduledAt := None, history := [])
  }

  /** A revived job is new, ready at once, and keeps its place by age. */
  lemma RevivedIsNew(job: Job, now: Time)
    ensures IsNew(Revived(job)) && Revived(job).IsReady(now)
    ensures Revived(job).id == job.id && Revived(job).tenant == job.tenant
    ensures Revived(job).createdAt == job.createdAt && Revived(job).maxAttempts == job.maxAttempts
  {
  }

  function Retried(s: Store, tenant: TenantId, id: JobId): Store {
    if id in s.dead && s.dead[id].job.tenant == tenant
    then var job := Revived(s.dead[id].job); Store(s.jobs[job.id := job], s.dead - {id})
    else s
  }

  function Deleted(s: Store, tenant: TenantId, id: JobId): Store {
    if id in s.dead && s.dead[id].job.tenant == tenant then s.(dead := s.dead - {id}) else s
  }

  /** The refusal both dead-letter operations share. */
  function DeadLetterFault(s: Store, tenant: TenantId, id: JobId): Option<JobStoreError> {
    if id !in s.dead then Some(JobNotFound)
    else if s.dead[id].job.tenant != tenant then Some(ForeignTenant)
    else None
  }

  // ---------------------------------------------------------------------------
  // Statistics
  // ---------------------------------------------------------------------------

  datatype JobStats = JobStats(pending: int, running: int, completed: int, failed: int, deadLettered: int, cancelled: int) {
    function Total(): int {
      pending + running + completed + failed + deadLettered + cancelled
    }

    function Count(status: JobStatus): JobStats {
      match status
      case Pending => this.(pending := pending + 1)
      case Running => this.(running := running + 1)
      case Completed => this.(completed := completed + 1)
      case Failed(_) => this.(failed := failed + 1)
      case DeadLettered(_) => this.(deadLettered := deadLettered + 1)
      case Cancelled => this.(cancelled := cancelled + 1)
    }
  }

  function OwnedBy(tenant: TenantId): (JobId, Job) -> int {
    (id: JobId, job: Job) => if job.tenant == tenant then 1 else 0
  }

  function BuriedBy(tenant: TenantId): (JobId, DeadLetter) -> int {
    (id: JobId, entry: DeadLetter) => if entry.job.tenant == tenant then 1 else 0
  }

  datatype Column = PendingColumn | RunningColumn | CompletedColumn | FailedColumn | DeadLetteredColumn | CancelledColumn

  function ColumnOf(status: JobStatus): Column {
    match status
    case Pending => PendingColumn
    case Running => RunningColumn
    case Completed => CompletedColumn
    case Failed(_) => FailedColumn
    case DeadLettered(_) => DeadLetteredColumn
    case Cancelled => CancelledColumn
  }

  function InColumn(tenant: TenantId, column: Column): (JobId, Job) -> int {
    (id: JobId, job: Job) => if job.tenant == tenant && ColumnOf(job.status) == column then 1 else 0
  }

  /** The number of a tenant's jobs, live and dead-lettered. */
  ghost function Population(s: Store, tenant: TenantId): int {
    MapSum(s.jobs, OwnedBy(tenant)) + MapSum(s.dead, BuriedBy(tenant))
  }

  /** The counters, each defined on its own. */
  ghost function StatsOf(s: Store, tenant: TenantId): JobStats {
    JobStats(
      MapSum(s.jobs, InColumn(tenant, PendingColumn)),
      MapSum(s.jobs, InColumn(tenant, RunningColumn)),
      MapSum(s.jobs, InColumn(tenant, CompletedColumn)),
      MapSum(s.jobs, InColumn(tenant, FailedColumn)),
      MapSum(s.jobs, InColumn(tenant, DeadLetteredColumn)) + MapSum(s.dead, BuriedBy(tenant)),
      MapSum(s.jobs, InColumn(tenant, CancelledColumn)))
  }

  lemma CountAdds(jobs: map<JobId, Job>, dead: map<JobId, DeadLetter>, id: JobId, job: Job, tenant: TenantId)
    requires id !in jobs
    ensures StatsOf(Store(jobs[id := job], dead), tenant) ==
            if job.tenant == tenant then StatsOf(Store(jobs, dead), tenant).Count(job.status) else StatsOf(Store(jobs, dead), tenant)
  {
    MapSumPut(jobs, id, job, InColumn(tenant, PendingColumn));
    MapSumPut(jobs, id, job, InColumn(tenant, RunningColumn));
    MapSumPut(jobs, id, job, InColumn(tenant, CompletedColumn));
    MapSumPut(jobs, id, job, InColumn(tenant, FailedColumn));
    MapSumPut(jobs, id, job, InColumn(tenant, DeadLetteredColumn));
    MapSumPut(jobs, id, job, InColumn(tenant, CancelledColumn));
  }

  lemma BuriedAdds(jobs: map<JobId, Job>, dead: map<JobId, DeadLetter>, id: JobId, entry: DeadLetter, tenant: TenantId)
    requires id !in dead
    ensures var stats := StatsOf(Store(jobs, dead), tenant);
            StatsOf(Store(jobs, dead[id := entry]), tenant) ==
              stats.(deadLettered := stats.deadLettered + if entry.job.tenant == tenant then 1 else 0)
  {
    MapSumPut(dead, id, entry, BuriedBy(tenant));
  }

  lemma StartOfStats(tenant: TenantId)
    ensures StatsOf(Store(map[], map[]), tenant) == JobStats(0, 0, 0, 0, 0, 0)
  {
  }

  /** The six counters add up to the number of the tenant's jobs. */
  lemma {:induction false} StatsAddUp(s: Store, tenant: TenantId)
    ensures StatsOf(s, tenant).Total() == Population(s, tenant)
    decreases s.jobs.Keys
  {
    hide StatsOf;
    if s.jobs == map[] {
      BuriedOnly(s, tenant);
    } else {
      var id :| id in s.jobs;
      var rest := s.jobs - {id};
      StatsAddUp(Store(rest, s.dead), tenant);
      assert rest[id := s.jobs[id]] == s.jobs;
      CountAdds(rest, s.dead, id, s.jobs[id], tenant);
      MapSumPut(rest, id, s.jobs[id], OwnedBy(tenant));
      assert Store(s.jobs, s.dead) == s;
    }
  }

  lemma BuriedOnly(s: Store, tenant: TenantId)
    requires s.jobs == map[]
    ensures StatsOf(s, tenant) == JobStats(0, 0, 0, 0, MapSum(s.dead, BuriedBy(tenant)), 0)
    ensures MapSum(s.jobs, OwnedBy(tenant)) == 0
  {
  }

  // ---------------------------------------------------------------------------
  // The store
  // ---------------------------------------------------------------------------

  predicate ByCreation(a: Job, b: Job) {
    a.createdAt <= b.createdAt
  }

  /** The first candidate by creation is a next one; there is none when nothing is ready. */
  lemma FirstIsNext(jobs: map<JobId, Job>, candidates: seq<Job>, filter: Option<TenantId>, now: Time)
    requires forall id | id in jobs :: jobs[id].id == id
    requires forall job :: job in candidates <==> exists k | k in jobs :: jobs[k] == job && Candidate(job, filter, now)
    ensures var sorted := SortBy(candidates, ByCreation);
            && (sorted == [] <==> NothingReady(jobs, filter, now))
            && (sorted != [] ==> IsNext(jobs, filter, now, sorted[0].id))
  {
    hide SortBy, Candidate;
    var sorted := SortBy(candidates, ByCreation);
    SortBySorts(candidates, ByCreation);
    SortBySameMembers(candidates, ByCreation);
    forall k | k in jobs && Candidate(jobs[k], filter, now)
      ensures sorted != [] && sorted[0].createdAt <= jobs[k].createdAt
    {
      assert jobs[k] in candidates && jobs[k] in sorted;
      var i :| 0 <= i < |sorted| && sorted[i] == jobs[k];
      assert i == 0 || ByCreation(sorted[0], sorted[i]);
    }
    if sorted != [] {
      assert sorted[0] in sorted && sorted[0] in candidates;
    }
  }

  class InMemoryJobStore {
    var jobs: map<JobId, Job>
    var deadLetters: map<JobId, DeadLetter>

    function View(): Store
      reads this
    {
      Store(jobs, deadLetters)
    }

    constructor ()
      ensures View() == Store(map[], map[])
    {
      jobs := map[];
      deadLetters := map[];
    }

    method Enqueue(job: Job) returns (r: Result<JobId, JobStoreError>)
      modifies this
      ensures r == if job.id in old(jobs) then Err(AlreadyExists) else Ok(job.id)
      ensures View() == Enqueued(old(View()), job)
    {
      if job.id in jobs {
        return Err(AlreadyExists);
      }
      jobs := jobs[job.id := job];
      return Ok(job.id);
    }

    method Update(job: Job) returns (r: Result<(), JobStoreError>)
      modifies this
      ensures r == if job.id in old(jobs) then Ok(()) else Err(JobNotFound)
      ensures View() == Updated(old(View()), job)
    {
      if job.id !in jobs {
        return Err(JobNotFound);
      }
      jobs := jobs[job.id := job];
      return Ok(());
    }

    /** Claims one of the oldest ready jobs, whatever order the hash map lists them in. */
    method ClaimNext(filter: Option<TenantId>, now: Time) returns (r: Option<Job>)
      requires forall id | id in jobs :: jobs[id].id == id
      modifies this
      ensures r.None? <==> NothingReady(old(jobs), filter, now)
      ensures r.None? <==>
                !exists k | k in old(jobs) ::
                  && (old(jobs)[k].status.Pending? || old(jobs)[k].status.Failed?)
                  && (old(jobs)[k].scheduledAt.None? || old(jobs)[k].scheduledAt.value <= now)
                  && (filter.None? || filter.value == old(jobs)[k].tenant)
      ensures r.Some? ==>
                && r.value.id in old(jobs)
                && var job := old(jobs)[r.value.id];
                   && (job.status.Pending? || job.status.Failed?)
                   && (job.scheduledAt.None? || job.scheduledAt.value <= now)
                   && (filter.None? || filter.value == job.tenant)
                   && r.value == job.(status := Running, attempt := r.value.attempt)
      ensures r.None? ==> View() == old(View())
      ensures r.Some? ==>
                && IsNext(old(jobs), filter, now, r.value.id)
                && View() == Claimed(old(View()), r.value.id)
                && r.value == jobs[r.value.id]
    {
      hide SortBy;
      var candidates := Candidates(filter, now);
      var sorted := SortBy(candidates, ByCreation);
      FirstIsNext(jobs, candidates, filter, now);
      if sorted == [] {
        return None;
      }
      var id := sorted[0].id;
      jobs := jobs[id := jobs[id].MarkRunning()];
      return Some(jobs[id]);
    }

    method Candidates(filter: Option<TenantId>, now: Time) returns (candidates: seq<Job>)
      ensures forall job :: job in candidates <==> exists k | k in jobs :: jobs[k] == job && Candidate(job, filter, now)
    {
      candidates := [];
      var rest := jobs.Keys;
      while rest != {}
        invariant rest <= jobs.Keys
        invariant forall job :: job in candidates <==> exists k | k in jobs.Keys - rest :: jobs[k] == job && Candidate(job, filter, now)
        decreases rest
      {
        var k :| k in rest;
        ghost var before := rest;
        rest := rest - {k};
        assert jobs.Keys - rest == jobs.Keys - before + {k};
        if Candidate(jobs[k], filter, now) {
          candidates := candidates + [jobs[k]];
        }
      }
    }

    method DeadLetterJob(job: Job, now: Time)
      modifies this
      ensures View() == Buried(old(View()), job, now)
    {
      var buried := job.(status := DeadLettered(job.attempt));
      jobs := jobs - {job.id};
      deadLetters := deadLetters[job.id := DeadLetter(buried, now)];
    }

    method RetryDeadLetter(tenant: TenantId, id: JobId) returns (r: Result<Job, JobStoreError>)
      modifies this
      ensures View() == Retried(old(View()), tenant, id)
      ensures match DeadLetterFault(old(View()), tenant, id)
              case Some(fault) => r == Err(fault)
              case None => r == Ok(Revived(old(deadLetters)[id].job))
    {
      if id !in deadLetters {
        return Err(JobNotFound);
      }
      var entry := deadLetters[id];
      deadLetters := deadLetters - {id};
      if entry.job.tenant != tenant {
        deadLetters := deadLetters[id := entry];
        assert deadLetters == old(deadLetters);
        return Err(ForeignTenant);
      }
      var job := entry.job.(status := Pending);
      job := job.(attempt := 0);
      job := job.(scheduledAt := None);
      job := job.(history := []);
      jobs := jobs[job.id := job];
      return Ok(job);
    }

    method DeleteDeadLetter(tenant: TenantId, id: JobId) returns (r: Result<(), JobStoreError>)
      modifies this
      ensures View() == Deleted(old(View()), tenant, id)
      ensures match DeadLetterFault(old(View()), tenant, id)
              case Some(fault) => r == Err(fault)
              case None => r == Ok(())
    {
      if id !in deadLetters {
        return Err(JobNotFound);
      }
      if deadLetters[id].job.tenant != tenant {
        return Err(ForeignTenant);
      }
      deadLetters := deadLetters - {id};
      return Ok(());
    }

    /** One pass over each map, in whatever order; the counters come out as defined. */
    method Stats(tenant: TenantId) returns (stats: JobStats)
      ensures stats == StatsOf(View(), tenant)
      ensures stats.Total() == Population(View(), tenant)
    {
      hide StatsOf, Population;
      stats := JobStats(0, 0, 0, 0, 0, 0);
      StartOfStats(tenant);
      ghost var seen: map<JobId, Job> := map[];
      var rest := jobs.Keys;
      while rest != {}
        invariant rest <= jobs.Keys
        invariant seen == jobs - rest
        invariant stats == StatsOf(Store(seen, map[]), tenant)
        decreases rest
      {
        var id :| id in rest;
        rest := rest - {id};
        CountAdds(seen, map[], id, jobs[id], tenant);
        seen := seen[id := jobs[id]];
        assert seen == jobs - rest;
        if jobs[id].tenant != tenant {
          continue;
        }
        stats := stats.Count(jobs[id].status);
      }
      assert seen == jobs;
      ghost var entries: map<JobId, DeadLetter> := map[];
      rest := deadLetters.Keys;
      while rest != {}
        invariant rest <= deadLetters.Keys
        invariant entries == deadLetters - rest
        invariant stats == StatsOf(Store(jobs, entries), tenant)
        decreases rest
      {
        var id :| id in rest;
        rest := rest - {id};
        BuriedAdds(jobs, entries, id, deadLetters[id], tenant);
        entries := entries[id := deadLetters[id]];
        assert entries == deadLetters - rest;
        if deadLetters[id].job.tenant == tenant {
          stats := stats.(deadLettered := stats.deadLettered + 1);
        }
      }
      assert entries == deadLetters;
      StatsAddUp(View(), tenant);
    }
  }
}
