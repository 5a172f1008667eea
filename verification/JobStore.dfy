/** The in-memory job table, the service in front of it and the HTTP upsert, updating rows in place. */
module JobStore {
  import opened Models
  import opened JobRules
  import Rules = JobTableRules
  import opened DueScan
  import opened Ordering
  import RunStore
  import RunRules

  class JobTable {
    var jobs: map<Id, Job>
    var jobsByName: map<string, Id>
    var revisions: map<Id, seq<Rules.Revision>>

    ghost function View(): Rules.Table
      reads this
    {
      Rules.Table(jobs, jobsByName, revisions)
    }

    constructor ()
      ensures Rules.TableOk(View()) && jobs == map[]
    {
      jobs, jobsByName, revisions := map[], map[], map[];
    }

    method WriteJob(job: Job) returns (outcome: Rules.Outcome)
      modifies this`jobs, this`jobsByName
      ensures (View(), outcome) == Rules.WriteJob(old(View()), job)
      ensures Rules.IndexOk(old(View())) ==> Rules.IndexOk(View())
    {
      ghost var before := View();
      if job.jobName in jobsByName && jobsByName[job.jobName] != job.jobId {
        return Rules.Refused(Rules.NameTaken(jobsByName[job.jobName]));
      }
      if job.jobId in jobs && jobs[job.jobId].jobName != job.jobName {
        jobsByName := jobsByName - {jobs[job.jobId].jobName};
      }
      jobsByName := jobsByName[job.jobName := job.jobId];
      jobs := jobs[job.jobId := job];
      outcome := Rules.Done;
      if Rules.IndexOk(before) {
        Rules.WriteKeepsIndex(before, job);
      }
    }

    method RemoveJob(jobId: Id) returns (removed: bool)
      modifies this
      ensures removed <==> jobId in old(jobs)
      ensures View() == Rules.RemoveJob(old(View()), jobId)
      ensures Rules.TableOk(old(View())) ==> Rules.TableOk(View())
    {
      ghost var before := View();
      if jobId !in jobs { return false; }
      var job := jobs[jobId];
      jobs := jobs - {jobId};
      jobsByName := jobsByName - {job.jobName};
      revisions := revisions - {jobId};
      removed := true;
      if Rules.TableOk(before) {
        Rules.RemoveKeepsHistory(before, jobId);
      }
    }

    /** Applies an update that cannot fail to a stored row. */
    method MutateJob(jobId: Id, op: JobOp) returns (found: bool)
      modifies this`jobs
      ensures found <==> jobId in old(jobs)
      ensures View() == Rules.MutateJob(old(View()), jobId, op)
      ensures Rules.TableOk(old(View())) ==> Rules.TableOk(View())
    {
      ghost var before := View();
      found := jobId in jobs;
      if found {
        jobs := jobs[jobId := ApplyOp(jobs[jobId], op)];
      }
      if Rules.TableOk(before) {
        Rules.MutateKeepsHistory(before, jobId, op);
      }
    }

    method GetJobByName(name: string) returns (job: Option<Job>)
      ensures job == Rules.LookupByName(View(), name)
    {
      if name !in jobsByName { return None; }
      var id := jobsByName[name];
      job := if id in jobs then Some(jobs[id]) else None;
    }

    method AppendRevision(jobId: Id, revision: Rules.Revision)
      modifies this`revisions
      ensures View() == Rules.AppendRevision(old(View()), jobId, revision)
    {
      revisions := revisions[jobId := (if jobId in revisions then revisions[jobId] else []) + [revision]];
    }

    /** Two coordinators asking at the same instant cannot both be told yes. */
    method ClaimJobForTick(jobId: Id, claimId: string, now: Time, ttlSecs: int) returns (claimed: bool)
      modifies this`jobs
      ensures claimed <==> jobId in old(jobs) && TickClaimable(old(jobs)[jobId], now)
      ensures View() == Rules.MutateJob(old(View()), jobId, ClaimTick(claimId, now, ttlSecs))
      ensures claimed && ttlSecs >= 0 ==> !TickClaimable(jobs[jobId], now)
      ensures claimed ==> forall t :: TickClaimable(jobs[jobId], t) <==> now + ttlSecs * 1_000_000_000 < t
    {
      if jobId !in jobs { return false; }
      var job := jobs[jobId];
      if !job.enabled { return false; }
      if job.claimLeaseUntil.Some? && job.claimLeaseUntil.value >= now { return false; }
      jobs := jobs[jobId := job.(claimLeaseId := Some(claimId), claimLeaseUntil := Some(now + Seconds(ttlSecs)),
                                 updatedAt := now)];
      claimed := true;
    }

    method TryClaimRunOnce(jobId: Id, claimant: Id, now: Time, ttlSecs: int) returns (claimed: bool)
      modifies this`jobs
      ensures claimed <==> jobId in old(jobs) && RunOnceClaimable(old(jobs)[jobId], claimant, now)
      ensures View() == Rules.MutateJob(old(View()), jobId, ClaimRunOnce(claimant, now, ttlSecs))
      ensures claimed ==> HoldsClaim(jobs[jobId], claimant, now, now + ttlSecs * 1_000_000_000)
      ensures claimed ==> forall other, t :: RunOnceClaimable(jobs[jobId], other, t) <==>
                other == claimant || now + ttlSecs * 1_000_000_000 <= t
    {
      if jobId !in jobs { return false; }
      var job := jobs[jobId];
      if job.runOnceCompletedAt.Some? { return false; }
      if && job.runOnceClaimedAt.Some?
         && job.runOnceClaimExpiresAt.Some? && job.runOnceClaimExpiresAt.value > now
         && job.runOnceClaimedBy != Some(claimant) {
        return false;
      }
      jobs := jobs[jobId := job.(runOnceClaimedAt := Some(now), runOnceClaimedBy := Some(claimant),
                                 runOnceClaimExpiresAt := Some(now + Seconds(ttlSecs)), updatedAt := now)];
      claimed := true;
    }

    /** The earliest due jobs of the owned partitions, at most `limit`, none passed over. */
    method FindDueJobIds(owned: seq<int>, dueUntil: Time, now: Time, limit: nat) returns (ids: seq<Id>)
      ensures EarliestOf(DueKeys(jobs, dueUntil, Parts(owned), now), ids, limit)
    {
      var parts := Parts(owned);
      ghost var keys := DueKeys(jobs, dueUntil, parts, now);
      if owned == [] || limit == 0 {
        assert owned == [] ==> keys == map[];
        return [];
      }
      var due: seq<Item> := [];
      var rest := jobs.Keys;
      while rest != {}
        invariant rest <= jobs.Keys
        invariant multiset(due) == multiset(Collected(keys, jobs.Keys - rest))
      {
        var id :| id in rest;
        ghost var seen := jobs.Keys - rest;
        rest := rest - {id};
        assert jobs.Keys - rest == seen + {id};
        CollectOne(keys, seen, id);
        if Due(jobs[id], dueUntil, parts, now) {
          due := due + [Item(jobs[id].nextRunAt.value, id)];
        }
      }
      CollectedAll(keys, jobs.Keys - rest);
      TakeEarliestIsEarliest(due, keys, limit);
      ids := TakeEarliest(due, limit);
    }

    /** The earliest fire of any job in the owned partitions that has one. */
    method MinNextRunAt(owned: seq<int>) returns (next: Option<Time>)
      ensures IsEarliestWatched(jobs, Parts(owned), next)
    {
      var parts := Parts(owned);
      next := None;
      if owned == [] { return; }
      var rest := jobs.Keys;
      while rest != {}
        invariant rest <= jobs.Keys
        invariant next.None? ==> forall id :: id in jobs.Keys - rest ==> !Watched(jobs[id], parts)
        invariant next.Some? ==>
                    && (exists id :: id in jobs && Watched(jobs[id], parts) && jobs[id].nextRunAt == next)
                    && (forall id :: id in jobs.Keys - rest && Watched(jobs[id], parts) ==>
                          next.value <= jobs[id].nextRunAt.value)
      {
        var id :| id in rest;
        rest := rest - {id};
        if Watched(jobs[id], parts) && (next.None? || jobs[id].nextRunAt.value < next.value) {
          next := jobs[id].nextRunAt;
        }
      }
    }
  }

  /** Job CRUD for hosts and the HTTP API. */
  class CoordinatorService {
    const store: JobTable
    const runs: RunStore.RunTable

    constructor (store: JobTable, runs: RunStore.RunTable)
      ensures this.store == store && this.runs == runs
    {
      this.store, this.runs := store, runs;
    }

    /** Creates a run of a stored job at once, whatever its schedule. The run snapshots the job, and workers of the
        job's pool can claim it from now on. */
    method RunNow(jobId: Id, params: Option<string>, actor: Option<string>, runId: Id, now: Time)
      returns (created: bool)
      modifies runs
      ensures created <==> jobId in store.jobs
      ensures !created ==> runs.runs == old(runs.runs)
      ensures created ==>
                && runId in runs.runs && runs.runs == old(runs.runs)[runId := runs.runs[runId]]
                && var run, job := runs.runs[runId], store.jobs[jobId];
                   && run.runId == runId && run.jobId == Some(job.jobId) && run.scriptName == job.scriptName
                   && run.paramsJson == (if params.Some? then params.value else job.paramsJson)
                   && run.actorJson == (if actor.Some? then actor.value else job.actorJson)
                   && run.attempt == 1 && run.scheduledFor == now
                   && forall pool, t :: t >= now ==> (RunRules.Claimable(run, pool, t) <==> pool == ExecutionPool(job))
    {
      if jobId !in store.jobs { return false; }
      var job := store.jobs[jobId];
      var run := NewRun(runId, job.jobId, job.scriptName, now);
      run := run.(actorJson := if actor.Some? then actor.value else job.actorJson,
                  paramsJson := if params.Some? then params.value else job.paramsJson,
                  poolId := Some(ExecutionPool(job)));
      runs.CreateRun(run);
      created := true;
    }

    method UpsertJob(request: Job, hash: int, cron: Rules.CronOutcome, now: Time) returns (outcome: Rules.Outcome)
      modifies store
      ensures (store.View(), outcome) == Rules.ServiceUpsert(old(store.View()), request, hash, cron, now)
    {
      var job := request;
      if job.partitionHash.None? {
        job := job.(partitionHash := Some(hash));
      }
      if job.scheduleKind == Cron && job.cronExpr.Some? {
        if cron.CronInvalid? { return Rules.Refused(Rules.BadCron); }
        job := job.(nextRunAt := cron.next);
      }
      job := job.(updatedAt := now);
      assert job == Rules.WithSchedule(request, hash, cron, now);
      if job.jobId in store.jobs {
        var existing := store.jobs[job.jobId];
        if existing.scriptName != job.scriptName { return Rules.Refused(Rules.ScriptMismatch); }
        if existing.currentRevision != job.currentRevision {
          store.AppendRevision(job.jobId, Rules.Revision(job.currentRevision, job));
        }
      } else {
        var holder := store.GetJobByName(job.jobName);
        if holder.Some? { return Rules.Refused(Rules.NameTaken(holder.value.jobId)); }
        store.AppendRevision(job.jobId, Rules.Revision(1, job));
      }
      outcome := store.WriteJob(job);
    }

    /** Copies a request's fields over a job, one after the other. */
    method ApplyRequest(base: Job, req: Rules.Request, ctx: Rules.Context)
      returns (filled: Option<Job>, error: Rules.Error)
      requires ctx.scriptKnown
      ensures filled.Some? <==>
                && (req.actorJson.Some? ==> ctx.actorAllowed)
                && (req.pool.Some? ==> Rules.NormalizePool(req.pool.value).Some?)
      ensures filled.Some? ==> filled.value == Rules.Overlay(base, req, Rules.HttpPool(req))
      ensures filled.None? ==> error == Rules.HttpError(req, ctx)
    {
      error := Rules.BadActor;
      var job := base.(enabled := req.enabled, scheduleKind := req.scheduleKind, cronExpr := req.cronExpr,
                       timezone := req.timezone, paramsJson := req.paramsJson, concurrency := req.concurrency,
                       timeoutMs := req.timeoutMs);
      if req.actorJson.Some? {
        if !ctx.actorAllowed { return None, Rules.BadActor; }
        job := job.(actorJson := req.actorJson.value);
      }
      if req.retryPolicy.Some? {
        job := job.(retryPolicy := req.retryPolicy.value);
      }
      if req.misfirePolicy.Some? {
        job := job.(misfirePolicy := req.misfirePolicy.value);
      }
      if req.pool.Some? {
        var pool := Rules.NormalizePool(req.pool.value);
        if pool.None? { return None, Rules.BadPool; }
        job := job.(pool := pool.value);
      }
      filled := Some(job);
    }

    /** Builds the job a request asks for, from the stored job of that name or a new one. */
    method FillFromRequest(req: Rules.Request, ctx: Rules.Context) returns (filled: Option<Job>, error: Rules.Error)
      requires ctx.scriptKnown
      ensures filled.Some? <==> Rules.HttpAdmits(req, ctx)
      ensures filled.Some? ==> filled.value == Rules.Requested(store.View(), req, ctx, Rules.HttpPool(req))
      ensures filled.None? ==> error == Rules.HttpError(req, ctx)
    {
      var found := store.GetJobByName(req.jobName);
      var job := Rules.NewJob(ctx, req);
      if found.Some? {
        job := found.value.(scriptName := req.scriptName,
                            currentRevision := Rules.Bumped(found.value.currentRevision));
      }
      filled, error := ApplyRequest(job, req, ctx);
      if filled.None? { return; }
      job := Rules.Clamp(filled.value);
      if job.scheduleKind == Cron && job.cronExpr.Some? {
        if ctx.cron.CronInvalid? { return None, Rules.BadCron; }
        job := job.(nextRunAt := ctx.cron.next);
      }
      filled := Some(job);
    }

    /** The HTTP upsert. It keeps the name index and a gap-free history; a refused one changes nothing, an accepted
        one of a known name records the next revision. */
    method UpsertFromRequest(req: Rules.Request, ctx: Rules.Context) returns (outcome: Rules.Outcome)
      modifies store
      ensures (store.View(), outcome) == Rules.HttpUpsert(old(store.View()), req, ctx)
      ensures Rules.TableOk(old(store.View())) && ctx.newId !in old(store.jobs) ==>
                && Rules.TableOk(store.View())
                && (outcome.Refused? ==> store.View() == old(store.View()))
                && (outcome.Done? ==>
                      forall job :: Rules.Known(old(store.View()), req.jobName, job) ==>
                        Rules.IsRevised(old(store.View()), store.View(), job))
    {
      ghost var before := store.View();
      if Rules.TableOk(before) && ctx.newId !in before.jobs {
        Rules.HttpUpsertKeepsHistory(before, req, ctx);
        if Rules.HttpUpsert(before, req, ctx).1.Done? {
          forall job | Rules.Known(before, req.jobName, job)
            ensures Rules.IsRevised(before, Rules.HttpUpsert(before, req, ctx).0, job)
          {
            Rules.KnownUpsertIsRecorded(before, req, ctx, job);
          }
        }
      }
      if !ctx.scriptKnown { return Rules.Refused(Rules.UnknownScript); }
      var job, error := FillFromRequest(req, ctx);
      if job.None? { return Rules.Refused(error); }
      outcome := UpsertJob(job.value, ctx.hash, ctx.cron, ctx.now);
    }
  }
}
