/** One turn of a worker slot: claim a run, execute it under a renewed lease, write the outcome, retry a failure. */
module WorkerRules {
  import opened Models
  import opened RunRules
  import opened JobRules
  import opened ReadyQueue
  import opened CompositeRules

  /** How the script ended. */
  datatype Ran = Succeeded | Crashed | TimedOut

  /** What a turn gets from outside: clock readings, the script's end, and the retry's id and due time. */
  datatype Turn = Turn(now: Time, ttlSecs: int, startedAt: Time, renewals: seq<Time>, ran: Ran, finishedAt: Time,
                       retryId: Id, retryAt: Time)

  function Ending(ran: Ran): RunStatus {
    match ran
    case Succeeded => Success
    case Crashed => Failed
    case TimedOut => Timeout
  }

  /** The row a turn leaves. It is built from the copy taken at the claim, so renewals leave no trace in it. */
  function Outcome(before: Run, jobs: map<Id, Job>, worker: Id, turn: Turn): Run {
    var copy := ClaimedRow(before, worker, turn.now, turn.ttlSecs);
    if JobOf(jobs, before).None? then Finished(copy, Failed, turn.startedAt)
    else Finished(Started(copy, turn.startedAt), Ending(turn.ran), turn.finishedAt)
  }

  predicate Retries(before: Run, jobs: map<Id, Job>, ran: Ran) {
    && JobOf(jobs, before).Some? && ran != Succeeded
    && ShouldRetry(JobOf(jobs, before).value.retryPolicy, before.attempt)
  }

  /** Everything a turn that served `id` did to the rows. */
  predicate Served(rows: Rows, rows': Rows, id: Id, jobs: map<Id, Job>, pool: string, worker: Id, turn: Turn) {
    && id in rows && Claimable(rows[id], pool, turn.now)
    && rows'.Keys == rows.Keys + (if Retries(rows[id], jobs, turn.ran) then {turn.retryId} else {})
    && rows'[id] == Outcome(rows[id], jobs, worker, turn)
    && (Retries(rows[id], jobs, turn.ran) ==>
          rows'[turn.retryId] == NextAttempt(rows[id], turn.retryId, turn.retryAt))
    && forall other :: other in rows && other != id ==>
         rows'[other] == rows[other] || TakenBy(rows, rows', other, pool, worker, turn.now, turn.ttlSecs)
  }

  /** The rows after the claimed run's last write, and its retry's creation. */
  predicate Ended(claimed: Rows, rows': Rows, run: Run, ended: Run, retries: bool, turn: Turn) {
    rows' == if retries then claimed[run.runId := ended][turn.retryId := NextAttempt(ended, turn.retryId, turn.retryAt)]
             else claimed[run.runId := ended]
  }

  lemma EndedIsServed(rows: Rows, scores: Scores, claimed: Rows, scores': Scores, rows': Rows, id: Id,
                      jobs: map<Id, Job>, pool: string, worker: Id, turn: Turn)
    requires Keyed(rows) && turn.retryId !in rows
    requires Conserved(rows, scores, claimed, scores', pool, worker, turn.now, turn.ttlSecs)
    requires TakenBy(rows, claimed, id, pool, worker, turn.now, turn.ttlSecs)
    requires Ended(claimed, rows', claimed[id], Outcome(rows[id], jobs, worker, turn),
                   Retries(rows[id], jobs, turn.ran), turn)
    ensures Served(rows, rows', id, jobs, pool, worker, turn)
  {
    forall other | other in rows && other != id
      ensures rows'[other] == rows[other] || TakenBy(rows, rows', other, pool, worker, turn.now, turn.ttlSecs)
    {
      assert rows'[other] == claimed[other];
    }
  }

  /** A write to a run that is not queued before or after leaves the queue in step. */
  lemma HeldWriteKeepsSync(rows: Rows, scores: Scores, rows': Rows, id: Id)
    requires InSync(rows, scores) && id in rows' && rows'[id].status != Queued
    requires forall other :: other in rows' && other != id ==> other in rows && rows'[other] == rows[other]
    ensures InSync(rows', scores)
  {
    forall other | other in rows' && rows'[other].status == Queued ensures Waiting(rows', scores, other) {
      assert Waiting(rows, scores, other);
    }
  }

  /** The rows after a claim of `id` and nothing else. */
  lemma ClaimedKeyed(rows: Rows, scores: Scores, rows': Rows, scores': Scores, pool: string, worker: Id, now: Time,
                     ttlSecs: int)
    requires Keyed(rows) && Conserved(rows, scores, rows', scores', pool, worker, now, ttlSecs)
    ensures Keyed(rows')
  {}

  /** A run whose job is gone fails at once. Any other succeeds, fails or times out as its script did, and is tried
      again exactly if the script did not succeed and the policy allows one more attempt. */
  lemma ServedRunIsFinished(rows: Rows, rows': Rows, id: Id, jobs: map<Id, Job>, pool: string, worker: Id, turn: Turn)
    requires Served(rows, rows', id, jobs, pool, worker, turn) && turn.retryId !in rows
    ensures var known := rows[id].jobId.Some? && rows[id].jobId.value in jobs;
            && Snap(rows'[id]) == Snap(rows[id])
            && (rows'[id].status == Success <==> known && turn.ran == Succeeded)
            && (rows'[id].status == Timeout <==> known && turn.ran == TimedOut)
            && (rows'[id].status == Failed <==> !known || turn.ran == Crashed)
            && rows'[id].startedAt == (if known then Some(turn.startedAt) else rows[id].startedAt)
            && rows'[id].finishedAt == Some(if known then turn.finishedAt else turn.startedAt)
            && rows'.Keys - {turn.retryId} == rows.Keys
            && (turn.retryId in rows' <==>
                  known && turn.ran != Succeeded
                  && 1 <= rows[id].attempt <= jobs[rows[id].jobId.value].retryPolicy.maxAttempts)
  {
    if Retries(rows[id], jobs, turn.ran) {
      assert turn.retryId in rows'.Keys;
    }
  }

  /** The retry is queued one attempt later with the same job, script, actor, parameters and pool, and from its due
      time on the pool that failed can claim it. */
  lemma RetryIsClaimable(rows: Rows, rows': Rows, id: Id, jobs: map<Id, Job>, pool: string, worker: Id, turn: Turn)
    requires Served(rows, rows', id, jobs, pool, worker, turn) && turn.retryId !in rows && turn.retryId in rows'
    ensures var next := rows'[turn.retryId];
            && next.runId == turn.retryId && next.status == Queued && next.attempt == rows[id].attempt + 1
            && Snap(next) == Snap(rows[id]).(attempt := next.attempt, scheduledFor := turn.retryAt)
            && forall t :: Claimable(next, pool, t) <==> t >= turn.retryAt
  {
    PoolTestIsQueueKey(rows[id].poolId, pool);
    assert turn.retryId in rows'.Keys;
  }

  /** One turn of a streak: the rows before and after it, the run it served and what came from outside. */
  datatype Failure = Failure(rows: Rows, after: Rows, id: Id, pool: string, worker: Id, turn: Turn)

  /** The script did not succeed. */
  predicate IsFailure(f: Failure, jobs: map<Id, Job>) {
    && Served(f.rows, f.after, f.id, jobs, f.pool, f.worker, f.turn)
    && f.turn.ran != Succeeded && f.turn.retryId !in f.rows
  }

  /** Failing turns, each on the retry that the one before it left; in between anything may happen to other rows. */
  predicate Streak(fs: seq<Failure>, jobs: map<Id, Job>) {
    && (forall i :: 0 <= i < |fs| ==> IsFailure(fs[i], jobs))
    && (forall i :: 0 < i < |fs| ==> Retakes(fs[i - 1], fs[i]))
  }

  predicate Retakes(f: Failure, g: Failure) {
    && g.id == f.turn.retryId && g.id in f.after && g.id in g.rows
    && g.rows[g.id] == f.after[g.id]
  }

  lemma {:induction false} StreakCounts(fs: seq<Failure>, jobs: map<Id, Job>, k: nat)
    requires Streak(fs, jobs) && k < |fs|
    ensures fs[k].id in fs[k].rows && fs[0].id in fs[0].rows
    ensures Snap(fs[k].rows[fs[k].id]) == Snap(fs[0].rows[fs[0].id]).(
              attempt := fs[0].rows[fs[0].id].attempt + k, scheduledFor := fs[k].rows[fs[k].id].scheduledFor)
    decreases k
  {
    assert IsFailure(fs[k], jobs) && IsFailure(fs[0], jobs);
    if k > 0 {
      var f := fs[k - 1];
      StreakCounts(fs, jobs, k - 1);
      assert IsFailure(f, jobs) && Retakes(f, fs[k]);
      RetryIsClaimable(f.rows, f.after, f.id, jobs, f.pool, f.worker, f.turn);
    }
  }

  /** From a job's first attempt on, the last of n failing turns leaves a retry if and only if n is at most
      `maxAttempts`: a job whose every attempt fails gets exactly `maxAttempts + 1` runs. */
  lemma FailingJobGetsEveryAttempt(fs: seq<Failure>, jobs: map<Id, Job>)
    requires Streak(fs, jobs) && fs != []
    requires var first := fs[0].rows[fs[0].id];
             first.attempt == 1 && first.jobId.Some? && first.jobId.value in jobs
    ensures var last, job := fs[|fs| - 1], jobs[fs[0].rows[fs[0].id].jobId.value];
            last.turn.retryId in last.after <==> |fs| <= job.retryPolicy.maxAttempts
  {
    var last := fs[|fs| - 1];
    StreakCounts(fs, jobs, |fs| - 1);
    assert Snap(last.rows[last.id]).jobId == fs[0].rows[fs[0].id].jobId;
    assert IsFailure(last, jobs);
    ServedRunIsFinished(last.rows, last.after, last.id, jobs, last.pool, last.worker, last.turn);
  }
}

module WorkerSlot {
  import opened Models
  import opened RunRules
  import opened JobRules
  import opened CompositeRules
  import opened CompositeStore
  import opened WorkerRules

  class Worker {
    const store: PostgresRedisStore
    const jobs: map<Id, Job>
    const pool: string
    const workerId: Id
    const batch: nat

    constructor (store: PostgresRedisStore, jobs: map<Id, Job>, pool: string, workerId: Id, batch: nat)
      ensures this.store == store && this.jobs == jobs
      ensures this.pool == pool && this.workerId == workerId && this.batch == batch
    {
      this.store, this.jobs, this.pool, this.workerId, this.batch := store, jobs, pool, workerId, batch;
    }

    /** Renews until a renewal is refused or the script has ended. */
    method KeepLease(runId: Id, renewals: seq<Time>, ttlSecs: int)
      requires Keyed(store.sql.runs) && runId in store.sql.runs
      modifies store.sql
      ensures Keyed(store.sql.runs) && store.sql.runs.Keys == old(store.sql.runs).Keys
      ensures forall id :: id in old(store.sql.runs) && id != runId ==> store.sql.runs[id] == old(store.sql.runs)[id]
      ensures store.sql.runs[runId]
              == old(store.sql.runs)[runId].(claimLeaseUntil := store.sql.runs[runId].claimLeaseUntil)
    {
      var i := 0;
      while i < |renewals|
        invariant Keyed(store.sql.runs) && store.sql.runs.Keys == old(store.sql.runs).Keys
        invariant forall id :: id in old(store.sql.runs) && id != runId ==>
                    store.sql.runs[id] == old(store.sql.runs)[id]
        invariant store.sql.runs[runId]
                  == old(store.sql.runs)[runId].(claimLeaseUntil := store.sql.runs[runId].claimLeaseUntil)
      {
        var ok := store.sql.RenewRunLease(runId, workerId, renewals[i], ttlSecs);
        if !ok { return; }
        i := i + 1;
      }
    }

    /** Stores the failed run, then the next attempt when the policy allows one. When the run's row is gone, neither. */
    method FinalizeFailedRun(run: Run, job: Job, turn: Turn)
      requires turn.retryId !in store.sql.runs && run.runId != turn.retryId && turn.ran != Succeeded
      modifies store.sql, store.redis
      ensures run.runId in old(store.sql.runs) ==>
                Ended(old(store.sql.runs), store.sql.runs, run, Finished(run, Ending(turn.ran), turn.finishedAt),
                      ShouldRetry(job.retryPolicy, run.attempt), turn)
      ensures run.runId !in old(store.sql.runs) ==>
                store.sql.runs == old(store.sql.runs) && store.redis.scores == old(store.redis.scores)
      ensures InSync(old(store.sql.runs), old(store.redis.scores)) ==> InSync(store.sql.runs, store.redis.scores)
    {
      var failed := Finished(run, if turn.ran == TimedOut then Timeout else Failed, turn.finishedAt);
      ghost var rows, scores := store.sql.runs, store.redis.scores;
      var found := store.sql.UpdateRun(failed);
      if !found { return; }
      if InSync(rows, scores) {
        HeldWriteKeepsSync(rows, scores, store.sql.runs, run.runId);
      }
      if !ShouldRetry(job.retryPolicy, failed.attempt) { return; }
      store.CreateRun(NextAttempt(failed, turn.retryId, turn.retryAt));
    }

    /** One turn. It either takes nothing and changes no row, or serves one claimable run to its end and at most
        claims others of its batch; either way every queued run still waits in its own pool's set. */
    method ServeOne(turn: Turn) returns (served: Option<Id>)
      requires Keyed(store.sql.runs) && turn.retryId !in store.sql.runs
      requires InSync(store.sql.runs, store.redis.scores)
      modifies store.sql, store.redis
      ensures InSync(store.sql.runs, store.redis.scores)
      ensures served.None? ==> store.sql.runs == old(store.sql.runs)
      ensures served.Some? ==> Served(old(store.sql.runs), store.sql.runs, served.value, jobs, pool, workerId, turn)
    {
      ghost var rows, scores := store.sql.runs, store.redis.scores;
      var claimed := store.ClaimNextQueued(pool, workerId, turn.now, turn.ttlSecs, batch);
      ConservedKeepsSync(rows, scores, store.sql.runs, store.redis.scores, pool, workerId, turn.now, turn.ttlSecs);
      ClaimedKeyed(rows, scores, store.sql.runs, store.redis.scores, pool, workerId, turn.now, turn.ttlSecs);
      if claimed.None? { return None; }
      ghost var rows1, scores1 := store.sql.runs, store.redis.scores;
      served := Some(claimed.value.runId);
      Serve(claimed.value, rows[claimed.value.runId], turn);
      EndedIsServed(rows, scores, rows1, scores1, store.sql.runs, served.value, jobs, pool, workerId, turn);
    }

    /** The turn from the claim on. */
    method Serve(run: Run, ghost before: Run, turn: Turn)
      requires Keyed(store.sql.runs) && turn.retryId !in store.sql.runs
      requires InSync(store.sql.runs, store.redis.scores)
      requires run.runId in store.sql.runs && store.sql.runs[run.runId] == run
      requires run == ClaimedRow(before, workerId, turn.now, turn.ttlSecs)
      modifies store.sql, store.redis
      ensures InSync(store.sql.runs, store.redis.scores)
      ensures Ended(old(store.sql.runs), store.sql.runs, run, Outcome(before, jobs, workerId, turn),
                    Retries(before, jobs, turn.ran), turn)
    {
      if run.jobId.None? || run.jobId.value !in jobs {
        ghost var rows, scores := store.sql.runs, store.redis.scores;
        var _ := store.sql.UpdateRun(Finished(run, Failed, turn.startedAt));
        HeldWriteKeepsSync(rows, scores, store.sql.runs, run.runId);
        return;
      }
      Execute(run, jobs[run.jobId.value], turn);
    }

    /** Executes a run whose job is known. */
    method Execute(claimed: Run, job: Job, turn: Turn)
      requires Keyed(store.sql.runs) && turn.retryId !in store.sql.runs
      requires InSync(store.sql.runs, store.redis.scores)
      requires claimed.runId in store.sql.runs && store.sql.runs[claimed.runId] == claimed && claimed.status == Claimed
      modifies store.sql, store.redis
      ensures InSync(store.sql.runs, store.redis.scores)
      ensures var ended := Finished(Started(claimed, turn.startedAt), Ending(turn.ran), turn.finishedAt);
              Ended(old(store.sql.runs), store.sql.runs, claimed, ended,
                    turn.ran != Succeeded && ShouldRetry(job.retryPolicy, claimed.attempt), turn)
    {
      ghost var rows, scores := store.sql.runs, store.redis.scores;
      var run := Started(claimed, turn.startedAt);
      var _ := store.sql.UpdateRun(run);
      KeepLease(run.runId, turn.renewals, turn.ttlSecs);
      HeldWriteKeepsSync(rows, scores, store.sql.runs, run.runId);
      if turn.ran == Succeeded {
        run := Finished(run, Success, turn.finishedAt);
        ghost var rows1 := store.sql.runs;
        var _ := store.sql.UpdateRun(run);
        HeldWriteKeepsSync(rows1, scores, store.sql.runs, run.runId);
      } else {
        FinalizeFailedRun(run, job, turn);
      }
    }
  }
}
