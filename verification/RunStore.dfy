/** What one store call does to the run rows, as functions of the rows. */
module RunRules {
  import opened Models

  type Rows = map<Id, Run>

  predicate LeaseLive(run: Run, now: Time) {
    run.claimLeaseUntil.Some? && run.claimLeaseUntil.value > now
  }

  /** A worker of `pool` may take this run at `now`. */
  predicate Claimable(run: Run, pool: string, now: Time) {
    && run.status == Queued
    && run.scheduledFor <= now
    && !LeaseLive(run, now)
    && PoolMatches(run.poolId, pool)
  }

  function ClaimedRow(run: Run, worker: Id, now: Time, ttlSecs: int): Run {
    run.(status := Claimed, claimedBy := Some(worker), claimLeaseUntil := Some(now + Seconds(ttlSecs)))
  }

  /** The lease of a held run has run out. */
  predicate Expired(run: Run, now: Time) {
    run.status.Held() && run.claimLeaseUntil.Some? && run.claimLeaseUntil.value <= now
  }

  function ResetRow(run: Run): Run {
    run.(status := Queued, claimedBy := None, claimLeaseUntil := None, startedAt := None)
  }

  predicate Renewable(run: Run, worker: Id) {
    run.claimedBy == Some(worker) && run.status.Held()
  }

  function ClaimById(rows: Rows, id: Id, pool: string, worker: Id, now: Time, ttlSecs: int): (Rows, Option<Run>) {
    if id in rows && Claimable(rows[id], pool, now) then
      var run := ClaimedRow(rows[id], worker, now, ttlSecs);
      (rows[id := run], Some(run))
    else
      (rows, None)
  }

  function Renew(rows: Rows, id: Id, worker: Id, now: Time, ttlSecs: int): Rows {
    if id in rows && Renewable(rows[id], worker) then
      rows[id := rows[id].(claimLeaseUntil := Some(now + Seconds(ttlSecs)))]
    else
      rows
  }

  function ReclaimExpired(rows: Rows, now: Time): Rows {
    map id | id in rows :: if Expired(rows[id], now) then ResetRow(rows[id]) else rows[id]
  }

  function ExpiredIds(rows: Rows, now: Time): set<Id> {
    set id | id in rows && Expired(rows[id], now)
  }

  /** Every row is stored under its own id. */
  predicate Keyed(rows: Rows) {
    forall id :: id in rows ==> rows[id].runId == id
  }

  /** A claimed run is its worker's alone: nobody else can renew or claim it, and it comes up for reclaim exactly
      when the time the worker asked for has passed, counted from the claim or from its last renewal. */
  lemma LeaseLastsItsTime(rows: Rows, id: Id, pool: string, worker: Id, now: Time, ttlSecs: int, again: Time, t: Time)
    requires id in rows && Claimable(rows[id], pool, now)
    ensures var claimed := ClaimById(rows, id, pool, worker, now, ttlSecs).0;
            var renewed := Renew(claimed, id, worker, again, ttlSecs);
            && (id in ExpiredIds(claimed, t) <==> now + ttlSecs * 1_000_000_000 <= t)
            && (id in ExpiredIds(renewed, t) <==> again + ttlSecs * 1_000_000_000 <= t)
            && (forall other :: Renewable(claimed[id], other) <==> other == worker)
            && (forall other :: other != worker ==> Renew(claimed, id, other, again, ttlSecs) == claimed)
            && (forall p, u :: !Claimable(claimed[id], p, u) && !Claimable(renewed[id], p, u))
  {}

  /** A reclaim takes back all that a claim and a start wrote: the run is as it was in the queue. */
  lemma ReclaimUndoesClaim(rows: Rows, id: Id, pool: string, worker: Id, now: Time, ttlSecs: int, startedAt: Time,
                           t: Time)
    requires id in rows && Claimable(rows[id], pool, now) && t >= now + Seconds(ttlSecs)
    requires rows[id].claimedBy.None? && rows[id].claimLeaseUntil.None? && rows[id].startedAt.None?
    ensures var claimed := ClaimById(rows, id, pool, worker, now, ttlSecs).0;
            && ReclaimExpired(claimed, t)[id] == rows[id]
            && ReclaimExpired(claimed[id := Started(claimed[id], startedAt)], t)[id] == rows[id]
  {}

  /** A renewal succeeds for the owner of a held run whether its lease has run out or not, and revives it: a run
      that was up for reclaim no longer is. */
  lemma RenewRevivesLapsedLease(rows: Rows, id: Id, worker: Id, now: Time, ttlSecs: int)
    requires id in rows && Renewable(rows[id], worker) && ttlSecs > 0
    ensures id in ExpiredIds(rows, now) <==> rows[id].claimLeaseUntil.Some? && rows[id].claimLeaseUntil.value <= now
    ensures id !in ExpiredIds(Renew(rows, id, worker, now, ttlSecs), now)
  {}

  /** Such a run exists. */
  lemma LapsedLeaseIsRenewed() returns (rows: Rows)
    ensures "x" in ExpiredIds(rows, 20) && Renewable(rows["x"], "w")
    ensures "x" !in ExpiredIds(Renew(rows, "x", "w", 20, 60), 20)
  {
    rows := map["x" := ClaimedRow(NewRun("x", "job", "script", 0), "w", 0, 0)];
    RenewRevivesLapsedLease(rows, "x", "w", 20, 60);
  }

  /** A reclaimed run is one its own pool can claim again as soon as it is due, and no lapsed run is left held. */
  lemma ReclaimFreesEveryLapsedRun(rows: Rows, now: Time, later: Time)
    requires now <= later
    ensures forall id :: id in rows ==> !Expired(ReclaimExpired(rows, now)[id], now)
    ensures forall id :: id in ExpiredIds(rows, now) ==>
              (Claimable(ReclaimExpired(rows, now)[id], RunPoolKey(rows[id].poolId), later)
               <==> rows[id].scheduledFor <= later)
    ensures ExpiredIds(ReclaimExpired(rows, now), now) == {}
  {
    forall id | id in rows { PoolTestIsQueueKey(rows[id].poolId, RunPoolKey(rows[id].poolId)); }
  }
}

/** The in-memory run table: the executable meaning of the SQL statements on runs. */
module RunStore {
  import opened Models
  import opened RunRules
  import opened Ordering

  /** The runs of a job, latest due time first. */
  function JobRunKeys(runs: Rows, jobId: Id): map<Id, int> {
    map id | id in runs && runs[id].jobId == Some(jobId) :: -runs[id].scheduledFor
  }

  predicate AreRows(runs: Rows, ids: seq<Id>, rows: seq<Run>) {
    |rows| == |ids| && forall i :: 0 <= i < |rows| ==> ids[i] in runs && rows[i] == runs[ids[i]]
  }

  /** The rows of the job's newest runs, at most the limit, none passed over. */
  ghost predicate AreNewest(runs: Rows, jobId: Id, limit: nat, rows: seq<Run>) {
    exists ids :: EarliestOf(JobRunKeys(runs, jobId), ids, limit) && AreRows(runs, ids, rows)
  }

  function RowsOf(runs: Rows, ids: seq<Id>): (rows: seq<Run>)
    requires forall i :: 0 <= i < |ids| ==> ids[i] in runs
    ensures AreRows(runs, ids, rows)
  {
    if ids == [] then [] else [runs[ids[0]]] + RowsOf(runs, ids[1..])
  }

  class RunTable {
    var runs: map<Id, Run>

    constructor ()
      ensures runs == map[]
    {
      runs := map[];
    }

    method CreateRun(run: Run)
      modifies this
      ensures runs == old(runs)[run.runId := run]
    {
      runs := runs[run.runId := run];
    }

    /** Replaces a whole row. Nothing compares the writer with the row's owner. */
    method UpdateRun(run: Run) returns (found: bool)
      modifies this
      ensures found <==> run.runId in old(runs)
      ensures runs == if found then old(runs)[run.runId := run] else old(runs)
    {
      found := run.runId in runs;
      if found {
        runs := runs[run.runId := run];
      }
    }

    method GetRun(runId: Id) returns (run: Option<Run>)
      ensures run == if runId in runs then Some(runs[runId]) else None
    {
      run := if runId in runs then Some(runs[runId]) else None;
    }

    /** A job's newest runs, at most `limit`. */
    method ListRunsForJob(jobId: Id, limit: nat) returns (rows: seq<Run>, ghost ids: seq<Id>)
      ensures EarliestOf(JobRunKeys(runs, jobId), ids, limit)
      ensures AreRows(runs, ids, rows) && AreNewest(runs, jobId, limit, rows)
    {
      ghost var keys := JobRunKeys(runs, jobId);
      var items: seq<Item> := [];
      var rest := runs.Keys;
      while rest != {}
        invariant rest <= runs.Keys
        invariant multiset(items) == multiset(Collected(keys, runs.Keys - rest))
      {
        var id :| id in rest;
        ghost var seen := runs.Keys - rest;
        rest := rest - {id};
        assert runs.Keys - rest == seen + {id};
        CollectOne(keys, seen, id);
        if runs[id].jobId == Some(jobId) {
          items := items + [Item(-runs[id].scheduledFor, id)];
        }
      }
      CollectedAll(keys, runs.Keys - rest);
      TakeEarliestIsEarliest(items, keys, limit);
      var newest := TakeEarliest(items, limit);
      ids := newest;
      rows := RowsOf(runs, newest);
    }

    /** Takes the earliest run the pool may claim; fails only when there is none. */
    method ClaimNextQueued(pool: string, worker: Id, now: Time, ttlSecs: int) returns (claimed: Option<Run>)
      requires Keyed(runs)
      modifies this
      ensures Keyed(runs)
      ensures claimed.None? <==> forall id :: id in old(runs) ==> !Claimable(old(runs)[id], pool, now)
      ensures claimed.None? ==> runs == old(runs)
      ensures claimed.Some? ==>
                && (runs, claimed) == ClaimById(old(runs), claimed.value.runId, pool, worker, now, ttlSecs)
                && forall id :: id in old(runs) && Claimable(old(runs)[id], pool, now) ==>
                     claimed.value.scheduledFor <= old(runs)[id].scheduledFor
    {
      var candidate: Option<Run> := None;
      var rest := runs.Keys;
      while rest != {}
        invariant rest <= runs.Keys
        invariant candidate.None? ==>
                    forall id :: id in runs.Keys - rest ==> !Claimable(runs[id], pool, now)
        invariant candidate.Some? ==>
                    && candidate.value.runId in runs && candidate.value == runs[candidate.value.runId]
                    && Claimable(candidate.value, pool, now)
                    && forall id :: id in runs.Keys - rest && Claimable(runs[id], pool, now) ==>
                         candidate.value.scheduledFor <= runs[id].scheduledFor
      {
        var id :| id in rest;
        rest := rest - {id};
        var run := runs[id];
        if Claimable(run, pool, now) && (candidate.None? || run.scheduledFor < candidate.value.scheduledFor) {
          candidate := Some(run);
        }
      }
      if candidate.None? {
        return None;
      }
      var run := ClaimedRow(candidate.value, worker, now, ttlSecs);
      runs := runs[run.runId := run];
      claimed := Some(run);
    }

    method ClaimRunById(runId: Id, pool: string, worker: Id, now: Time, ttlSecs: int) returns (claimed: Option<Run>)
      modifies this
      ensures (runs, claimed) == ClaimById(old(runs), runId, pool, worker, now, ttlSecs)
    {
      if runId !in runs { return None; }
      var run := runs[runId];
      if run.status != Queued { return None; }
      if run.scheduledFor > now { return None; }
      if LeaseLive(run, now) { return None; }
      if !PoolMatches(run.poolId, pool) { return None; }
      run := ClaimedRow(run, worker, now, ttlSecs);
      runs := runs[runId := run];
      claimed := Some(run);
    }

    /** Extends a lease its worker still owns, even one that has already run out. */
    method RenewRunLease(runId: Id, worker: Id, now: Time, ttlSecs: int) returns (renewed: bool)
      modifies this
      ensures renewed <==> runId in old(runs) && Renewable(old(runs)[runId], worker)
      ensures runs == Renew(old(runs), runId, worker, now, ttlSecs)
    {
      if runId !in runs { return false; }
      var run := runs[runId];
      if run.claimedBy != Some(worker) { return false; }
      if !run.status.Held() { return false; }
      runs := runs[runId := run.(claimLeaseUntil := Some(now + Seconds(ttlSecs)))];
      renewed := true;
    }

    /** Puts every held run whose lease has run out back in the queue and names exactly those, once each. */
    method ReclaimExpiredRunLeases(now: Time) returns (reclaimed: seq<Id>)
      modifies this
      ensures runs == ReclaimExpired(old(runs), now)
      ensures forall id :: id in reclaimed <==> id in ExpiredIds(old(runs), now)
      ensures forall i, j :: 0 <= i < j < |reclaimed| ==> reclaimed[i] != reclaimed[j]
    {
      ghost var before := runs;
      reclaimed := [];
      var rest := runs.Keys;
      while rest != {}
        invariant rest <= runs.Keys == before.Keys
        invariant forall id :: id in rest ==> runs[id] == before[id]
        invariant forall id :: id in before.Keys - rest ==> runs[id] == ReclaimExpired(before, now)[id]
        invariant forall id :: id in reclaimed <==> id in before.Keys - rest && Expired(before[id], now)
        invariant forall i, j :: 0 <= i < j < |reclaimed| ==> reclaimed[i] != reclaimed[j]
      {
        var id :| id in rest;
        rest := rest - {id};
        if Expired(runs[id], now) {
          assert id !in reclaimed;
          runs := runs[id := ResetRow(runs[id])];
          reclaimed := reclaimed + [id];
        }
      }
    }
  }
}
