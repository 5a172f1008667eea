/** What an upsert that writes an old row back can do to a run-once job. */
module RowWrites {
  import opened Models
  import opened Collections
  import opened JobRules
  import opened TickProtocol
  import opened TickSafety
  import opened TickRuns

  // ---- one whole run-once attempt ---------------------------------------------------------------

  /** The row once a run-once job has fired and is completed. */
  function Completed(job: Job, c: Id, now: Time): Job {
    var claimed := ApplyOp(Held(job, now), ClaimRunOnce(c, now, 1));
    ApplyOp(ApplyOp(claimed, CompleteRunOnce(now, now)), PersistPostTick(None, now))
  }

  function OnceDone(s: State, c: Id, runId: Id): State
    requires s.job.Some?
  {
    var p := Counted(s.clock, s.clock + Seconds(1), Held(s.job.value, s.clock));
    s.(job := Some(Completed(s.job.value, c, s.clock)), runs := s.runs[runId := TickRun(p, runId)],
       fired := s.fired + [ScheduledFor(p.job, s.clock)], coords := s.coords[c := Out])
  }

  /** A run-once job that a coordinator which has read the clock can fire now. */
  predicate CanFireOnce(s: State, c: Id) {
    && s.job.Some? && s.job.value.scheduleKind == RunOnce && TickClaimable(s.job.value, s.clock)
    && RunOnceClaimable(s.job.value, c, s.clock) && Enqueues(s.job.value, s.clock)
    && |ActiveIds(s.runs)| < s.job.value.concurrency
  }

  lemma FireOnceNow(s: State, c: Id, runId: Id, s': State)
    requires Timely(s) && At(s, c) == Started(s.clock) && CanFireOnce(s, c) && runId !in s.runs
    requires Reached(Careful(true), OnceDone(s, c, runId), s')
    ensures Reached(Careful(true), s, s')
  {
    OnceFromClaim(s, c, runId, s');
    var s3 := AtCount(s, c);
    var row, until := Held(s.job.value, s.clock), s.clock + Seconds(1);
    assert OnceAttempted(s3, c, 1) == AtClaim(s, c) by {
      assert s3.coords[c := OnceClaimed(s.clock, until, row)] == AtClaim(s, c).coords;
    }
    MoverIsTimely(s, c, s3.coords[c]);
    StepFirst(Careful(true), s3, ClaimOnce(c, 1), s');
    CountNow(Careful(true), s, c, s');
  }

  function AtClaim(s: State, c: Id): State
    requires s.job.Some?
  {
    var row := Held(s.job.value, s.clock);
    s.(job := Some(ApplyOp(row, ClaimRunOnce(c, s.clock, 1))),
       coords := s.coords[c := OnceClaimed(s.clock, s.clock + Seconds(1), row)])
  }

  function AtMark(s: State, c: Id, runId: Id): State
    requires s.job.Some?
  {
    var row := Held(s.job.value, s.clock);
    var p := OnceClaimed(s.clock, s.clock + Seconds(1), row);
    AtClaim(s, c).(runs := s.runs[runId := TickRun(p, runId)], fired := s.fired + [ScheduledFor(row, s.clock)],
                   coords := s.coords[c := Fired(p.now, p.until, row)])
  }

  /** From the won claim to the end of the attempt. */
  lemma OnceFromClaim(s: State, c: Id, runId: Id, s': State)
    requires Timely(s) && CanFireOnce(s, c) && runId !in s.runs
    requires Reached(Careful(true), OnceDone(s, c, runId), s')
    ensures Reached(Careful(true), AtClaim(s, c), s')
  {
    var s4 := AtClaim(s, c);
    MoverIsTimely(s, c, s4.coords[c]);
    OnceFromMark(s, c, runId, s');
    assert RunCreated(s4, c, runId) == AtMark(s, c, runId) by {
      assert s4.coords[c := AtMark(s, c, runId).coords[c]] == AtMark(s, c, runId).coords;
    }
    StepFirst(Careful(true), s4, Fire(c, runId), s');
  }

  lemma OnceFromMark(s: State, c: Id, runId: Id, s': State)
    requires Timely(s) && CanFireOnce(s, c) && Reached(Careful(true), OnceDone(s, c, runId), s')
    ensures Reached(Careful(true), AtMark(s, c, runId), s')
  {
    var row, until := Held(s.job.value, s.clock), s.clock + Seconds(1);
    var s5 := AtMark(s, c, runId);
    var s6 := s5.(job := Some(ApplyOp(s5.job.value, CompleteRunOnce(s.clock, s.clock))),
                  coords := s.coords[c := Advancing(s.clock, until, row)]);
    MoverIsTimely(s, c, s5.coords[c]);
    MoverIsTimely(s, c, s6.coords[c]);
    assert s5.coords[c := s6.coords[c]] == s6.coords && s6.coords[c := Out] == s.coords[c := Out];
    PersistNone(s6, c, s');
    StepFirst(Careful(true), s5, MarkFired(c), s');
  }

  lemma PersistNone(s: State, c: Id, s': State)
    requires Timely(s) && At(s, c).Advancing? && At(s, c).job.scheduleKind == RunOnce && s.job.Some?
    requires Reached(Careful(true), s.(job := Some(ApplyOp(s.job.value, PersistPostTick(None, s.clock))),
                                       coords := s.coords[c := Out]), s')
    ensures Reached(Careful(true), s, s')
  {
    StepFirst(Careful(true), s, Persist(c, None), s');
  }

  // ---- the exact condition ----------------------------------------------------------------------

  /** But for its completion, the row could fire now: the row of a job before its attempt. */
  predicate OtherwiseFree(row: Job, clock: Time) {
    && row.scheduleKind == RunOnce && row.enabled && row.claimLeaseUntil.None? && row.runOnceClaimedAt.None?
    && row.nextRunAt.Some? && row.nextRunAt.value <= clock && Enqueues(row, clock)
  }

  /** The job has fired and is completed, and nobody is inside. An upsert may write such a row back exactly when the
      row is completed too: then no careful continuation fires the job again, and otherwise one does. */
  lemma OnceWriteIsSafeIff(s: State, editor: Id, row: Job, c: Id, runId: Id)
    requires OnceInv(s) && Done(s) && |s.fired| == 1 && Timely(s) && Empty(s.coords)
    requires Enabled(s, WriteRow(editor, row)) && OtherwiseFree(row, s.clock)
    requires |ActiveIds(s.runs)| < row.concurrency && c !in s.coords && runId !in s.runs
    ensures (forall s' :: Reached(Careful(true), Apply(s, WriteRow(editor, row)), s') ==> |s'.fired| <= 1)
            <==> row.runOnceCompletedAt.Some?
  {
    var s1 := Apply(s, WriteRow(editor, row));
    assert s1 == s.(job := Some(row));
    if row.runOnceCompletedAt.Some? {
      assert OnceInv(s1);
      forall s' | Reached(Careful(true), s1, s') ensures |s'.fired| <= 1 {
        var steps :| Feasible(s1, steps) && Lawful(Careful(true), s1, steps) && After(s1, steps) == s';
        RunKeepsOnce(s1, steps);
      }
    } else {
      var s' := FiresAgain(s1, c, runId);
      assert |s'.fired| == 2;
    }
  }

  lemma FiresAgain(s: State, c: Id, runId: Id) returns (s': State)
    requires Timely(s) && s.job.Some? && OtherwiseFree(s.job.value, s.clock) && s.job.value.runOnceCompletedAt.None?
    requires |ActiveIds(s.runs)| < s.job.value.concurrency && At(s, c).Out? && runId !in s.runs
    ensures Reached(Careful(true), s, s') && |s'.fired| == |s.fired| + 1
  {
    var s1 := Become(s, c, Started(s.clock));
    MoverIsTimely(s, c, Started(s.clock));
    s' := OnceDone(s1, c, runId);
    assert s'.coords == s.coords[c := Out];
    MoverIsTimely(s, c, Out);
    Nowhere(Careful(true), s');
    FireOnceNow(s1, c, runId, s');
    ScanNow(Careful(true), s, c, 0, s');
  }

  /** A whole attempt, after which the run ends. */
  lemma FiresAndEnds(s: State, c: Id, runId: Id) returns (s': State)
    requires Timely(s) && s.job.Some? && OtherwiseFree(s.job.value, s.clock) && s.job.value.runOnceCompletedAt.None?
    requires |ActiveIds(s.runs)| < s.job.value.concurrency && At(s, c).Out? && runId !in s.runs
    ensures Reached(Careful(true), s, s') && |s'.fired| == |s.fired| + 1
    ensures Timely(s') && s'.clock == s.clock && s'.coords == s.coords[c := Out] && s'.copies == s.copies
    ensures s'.job.Some? && s'.job.value.runOnceCompletedAt.Some?
    ensures ActiveIds(s'.runs) == ActiveIds(s.runs) && s'.runs.Keys == s.runs.Keys + {runId}
  {
    var s1 := Become(s, c, Started(s.clock));
    MoverIsTimely(s, c, Started(s.clock));
    var s2 := OnceDone(s1, c, runId);
    assert s2.coords == s.coords[c := Out];
    MoverIsTimely(s, c, Out);
    s' := TickRuns.Ended(s2, runId);
    EndedLeavesRoom(s.runs, runId, s2.runs[runId]);
    assert s'.runs == s.runs[runId := s2.runs[runId]][runId := s'.runs[runId]];
    Nowhere(Careful(true), s');
    EndRun(Careful(true), s2, runId, s');
    FireOnceNow(s1, c, runId, s');
    ScanNow(Careful(true), s, c, 0, s');
  }

  /** Such an upsert happens: it reads the row of a run-once job, the job fires and its run ends, and the upsert writes
      the row back. Then the job fires a second time. */
  lemma StaleWriteFiresTwice(job: Job, now: Time) returns (s: State, mid: State, s': State)
    requires OtherwiseFree(job, now) && job.runOnceCompletedAt.None? && job.concurrency > 0
    ensures Init(s) && s.job == Some(job) && Reached(Careful(true), s, mid) && |mid.fired| == 1
    ensures Enabled(mid, WriteRow("e", job)) && !Current(mid, WriteRow("e", job))
    ensures Reached(Careful(true), Apply(mid, WriteRow("e", job)), s') && |s'.fired| == 2
  {
    s := State(now, Some(job), map[], map[], [], map[]);
    var s1 := s.(copies := map["e" := job]);
    assert ActiveIds(s.runs) == {};
    mid := FiresAndEnds(s1, "c", "x");
    assert Apply(s, ReadRow("e")) == s1;
    StepFirst(Careful(true), s, ReadRow("e"), mid);
    var written := mid.(job := Some(job));
    assert Apply(mid, WriteRow("e", job)) == written;
    s' := FiresAgain(written, "c", "y");
  }
}
