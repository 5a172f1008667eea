/** The coordinator's tick as one process runs it. */
module TickRules {
  import opened Models
  import opened JobRules
  import opened TickProtocol

  /** What one attempt to enqueue a job gets from outside: the clock when it starts and later, generated ids, the
      lease length, the cron library's next fire after `now`, and whether the store refuses the new run. */
  datatype Attempt = Attempt(
    now: Time, later: Time, claimId: string, runId: Id, ttlSecs: int, cronNext: Option<Time>, createFails: bool)

  datatype Verdict = NotClaimed | AtLimit | Skip | OnceTaken | CreateFailure | Enqueue

  function Judge(job: Job, active: nat, instance: Id, a: Attempt): Verdict {
    if !TickClaimable(job, a.now) then NotClaimed
    else if active >= job.concurrency then AtLimit
    else if !Enqueues(job, a.now) then Skip
    else if job.scheduleKind == RunOnce && !RunOnceClaimable(job, instance, a.now) then OnceTaken
    else if a.createFails then CreateFailure
    else Enqueue
  }

  /** Which late fires the misfire gate lets through: all of them without a window; with one of w seconds those less
      than a second late, and if the policy says so those less than w + 1 seconds late. */
  predicate GateIsOpen(job: Job, now: Time) {
    var late := if job.nextRunAt.Some? then now - job.nextRunAt.value else 0;
    || job.misfirePolicy.maxMisfireWindowSecs == 0
    || late < 1_000_000_000
    || (job.misfirePolicy.runImmediately && late < (job.misfirePolicy.maxMisfireWindowSecs + 1) * 1_000_000_000)
  }

  lemma GateOpensIff(job: Job, now: Time)
    ensures Enqueues(job, now) <==> GateIsOpen(job, now)
  {}

  /** The run-once claim is free, has run out or is the instance's own. */
  predicate OnceIsFree(job: Job, instance: Id, now: Time) {
    && job.runOnceCompletedAt.None?
    && (|| job.runOnceClaimedAt.None? || job.runOnceClaimExpiresAt.None? || job.runOnceClaimExpiresAt.value <= now
        || job.runOnceClaimedBy == Some(instance))
  }

  /** The lease is free, fewer than `concurrency` runs were counted. */
  predicate HasRoom(job: Job, active: nat, now: Time) {
    job.enabled && (job.claimLeaseUntil.None? || job.claimLeaseUntil.value < now) && active < job.concurrency
  }

  /** Exactly when an attempt enqueues, and exactly when it skips the fire. */
  lemma VerdictsAre(job: Job, active: nat, instance: Id, a: Attempt)
    ensures Judge(job, active, instance, a).Enqueue? <==>
              && HasRoom(job, active, a.now) && GateIsOpen(job, a.now)
              && (job.scheduleKind == RunOnce ==> OnceIsFree(job, instance, a.now)) && !a.createFails
    ensures Judge(job, active, instance, a).Skip? <==> HasRoom(job, active, a.now) && !GateIsOpen(job, a.now)
  {
    GateOpensIff(job, a.now);
  }

  function NextFor(job: Job, a: Attempt): Option<Time> {
    if job.scheduleKind == Cron then a.cronNext else None
  }

  /** The row an attempt leaves behind. Every attempt that got the tick lease has given it back, together with any
      run-once claim it took; the next fire moves and a run-once job is completed only by a skip or an enqueue. */
  function Settled(job: Job, verdict: Verdict, a: Attempt): Job {
    if verdict.NotClaimed? then job else
    var row := job.(claimLeaseId := None, claimLeaseUntil := None, updatedAt := a.later);
    var moved := if verdict.Skip? || verdict.Enqueue? then row.(nextRunAt := NextFor(job, a)) else row;
    if job.scheduleKind != RunOnce || verdict.AtLimit? || verdict.OnceTaken? then moved else
    var unclaimed := moved.(runOnceClaimedAt := None, runOnceClaimedBy := None, runOnceClaimExpiresAt := None);
    if verdict.CreateFailure? then unclaimed
    else unclaimed.(runOnceCompletedAt := Some(if verdict.Skip? then a.now else a.later))
  }

  /** One attempt after another, with what each counted. */
  function Attempted(job: Job, tries: seq<(Attempt, nat)>, instance: Id): Job
    decreases |tries|
  {
    if tries == [] then job else
      var (a, active) := tries[0];
      Attempted(Settled(job, Judge(job, active, instance, a), a), tries[1..], instance)
  }

  /** An attempt that enqueues or skips moves a cron job on to the schedule's next fire, any other leaves the fire
      where it is; and once the lease is given back, nothing but its time keeps the job from being due again. */
  lemma CronMovesOn(job: Job, active: nat, instance: Id, a: Attempt)
    requires job.scheduleKind == Cron && a.cronNext.Some?
    ensures var verdict := Judge(job, active, instance, a);
            var row := Settled(job, verdict, a);
            && row.nextRunAt == (if verdict.Enqueue? || verdict.Skip? then a.cronNext else job.nextRunAt)
            && row.scheduleKind == Cron && row.enabled == job.enabled && row.partitionHash == job.partitionHash
            && (!verdict.NotClaimed? ==>
                  forall until, owned, t :: Due(row, until, owned, t) <==>
                    && row.nextRunAt.Some? && row.nextRunAt.value <= until
                    && job.partitionHash.Some? && job.partitionHash.value in owned)
  {}

  /** A run-once job that was enqueued or skipped is never due again. */
  lemma OnceIsNeverDueAgain(job: Job, active: nat, instance: Id, a: Attempt)
    requires job.scheduleKind == RunOnce
    ensures var verdict := Judge(job, active, instance, a);
            verdict.Enqueue? || verdict.Skip? ==>
              forall until, owned, t :: !Due(Settled(job, verdict, a), until, owned, t)
  {}

  /** A cron job whose schedule does not end keeps a next fire through any number of attempts. */
  lemma {:induction false} CronNeverStops(job: Job, tries: seq<(Attempt, nat)>, instance: Id)
    requires job.scheduleKind == Cron && job.nextRunAt.Some?
    requires forall i :: 0 <= i < |tries| ==> tries[i].0.cronNext.Some?
    ensures var row := Attempted(job, tries, instance);
            row.nextRunAt.Some? && row.scheduleKind == Cron && row.enabled == job.enabled
    decreases |tries|
  {
    if tries != [] {
      var (a, active) := tries[0];
      CronMovesOn(job, active, instance, a);
      CronNeverStops(Settled(job, Judge(job, active, instance, a), a), tries[1..], instance);
    }
  }

  function EnqueuedRun(job: Job, a: Attempt): Run {
    NewRun(a.runId, job.jobId, job.scriptName, ScheduledFor(job, a.now)).(
      actorJson := job.actorJson, paramsJson := job.paramsJson, poolId := Some(ExecutionPool(job)))
  }

  function RunsAfter(runs: map<Id, Run>, job: Job, verdict: Verdict, a: Attempt): map<Id, Run> {
    if verdict.Enqueue? then runs[a.runId := EnqueuedRun(job, a)] else runs
  }

  // ---- a lone attempt is a run of the protocol --------------------------------------------------

  /** The protocol state in which `c` is about to start on the job. */
  predicate Starts(s: State, c: Id, a: Attempt, listed: set<Id>) {
    && s.job.Some? && At(s, c) == Started(a.now) && s.clock == a.now <= a.later && a.ttlSecs >= 0
    && Listing(s.runs, listed) && a.runId !in s.runs
    && (a.cronNext.Some? ==> a.cronNext.value > a.now)
  }

  function Ended(s: State, c: Id, verdict: Verdict, a: Attempt): State
    requires s.job.Some?
  {
    State(if verdict.NotClaimed? then s.clock else a.later, Some(Settled(s.job.value, verdict, a)),
          RunsAfter(s.runs, s.job.value, verdict, a), s.coords[c := Out],
          if verdict.Enqueue? then s.fired + [ScheduledFor(s.job.value, a.now)] else s.fired,
          s.copies)
  }

  /** The row while the lease is held. */
  function Leased(job: Job, a: Attempt): Job {
    job.(claimLeaseId := Some(a.claimId), claimLeaseUntil := Some(a.now + Seconds(a.ttlSecs)), updatedAt := a.now)
  }

  function Until(a: Attempt): Time {
    a.now + Seconds(a.ttlSecs)
  }

  function Mid(s: State, c: Id, clock: Time, job: Job, p: Coord): State {
    s.(clock := clock, job := Some(job), coords := s.coords[c := p])
  }

  lemma LeadsToCounted(s: State, c: Id, a: Attempt, listed: set<Id>, s': State)
    requires Starts(s, c, a, listed) && TickClaimable(s.job.value, a.now)
    requires var row := Leased(s.job.value, a);
             Reached(Anyhow, CountRuns(Mid(s, c, a.later, row, Loaded(a.now, Until(a), row)), c, listed), s')
    ensures Reached(Anyhow, s, s')
  {
    var row := Leased(s.job.value, a);
    var s1 := Mid(s, c, a.now, row, Entered(a.now, Until(a)));
    var s2 := Mid(s, c, a.now, row, Loaded(a.now, Until(a), row));
    var s3 := Mid(s, c, a.later, row, Loaded(a.now, Until(a), row));
    assert Apply(s, Enter(c, a.claimId, a.ttlSecs)) == s1;
    assert Apply(s1, Load(c)) == s2 by { assert s1.coords[c := Loaded(a.now, Until(a), row)] == s2.coords; }
    assert Apply(s2, Advance(a.later)) == s3;
    StepFirst(Anyhow, s3, Count(c, listed), s');
    StepFirst(Anyhow, s2, Advance(a.later), s');
    StepFirst(Anyhow, s1, Load(c), s');
    StepFirst(Anyhow, s, Enter(c, a.claimId, a.ttlSecs), s');
  }

  /** From any coordinator waiting to leave. */
  lemma LeadsOut(s: State, c: Id, s': State)
    requires At(s, c).Leaving? && s' == Become(Call(s, ReleaseTick(s.clock)), c, Out)
    ensures Reached(Anyhow, s, s')
  {
    Nowhere(Anyhow, s');
    StepFirst(Anyhow, s, Leave(c), s');
  }

  lemma BlockedIsARun(s: State, c: Id, a: Attempt, listed: set<Id>)
    requires Starts(s, c, a, listed)
    requires Judge(s.job.value, |ListedActive(s.runs, listed)|, c, a).AtLimit?
    ensures Reached(Anyhow, s, Ended(s, c, AtLimit, a))
  {
    var row := Leased(s.job.value, a);
    var s4 := Mid(s, c, a.later, row, Leaving(Until(a)));
    assert CountRuns(Mid(s, c, a.later, row, Loaded(a.now, Until(a), row)), c, listed) == s4;
    LeadsOut(s4, c, Ended(s, c, AtLimit, a));
    LeadsToCounted(s, c, a, listed, Ended(s, c, AtLimit, a));
  }

  /** The coordinator holds the lease, there is room, and the decision is next. */
  function Deciding(s: State, c: Id, a: Attempt): State
    requires s.job.Some?
  {
    var row := Leased(s.job.value, a);
    Mid(s, c, a.later, row, Counted(a.now, Until(a), row))
  }

  lemma LeadsToDecision(s: State, c: Id, a: Attempt, listed: set<Id>, s': State)
    requires Starts(s, c, a, listed) && TickClaimable(s.job.value, a.now)
    requires |ListedActive(s.runs, listed)| < s.job.value.concurrency
    requires Reached(Anyhow, Deciding(s, c, a), s')
    ensures Reached(Anyhow, s, s')
  {
    var row := Leased(s.job.value, a);
    assert CountRuns(Mid(s, c, a.later, row, Loaded(a.now, Until(a), row)), c, listed) == Deciding(s, c, a);
    LeadsToCounted(s, c, a, listed, s');
  }

  /** From the first of a skip's last two calls. */
  lemma SkipEnds(s: State, c: Id, next: Option<Time>, s': State)
    requires At(s, c).SkipAdvancing? && s.job.Some? && NextFire(At(s, c).job, At(s, c).now, next)
    requires s' == Become(Call(s, PersistPostTick(next, s.clock)), c, Out)
    ensures Reached(Anyhow, s, s')
  {
    var s1 := Become(Call(s, PersistPostTick(next, s.clock)), c, SkipReleasing);
    assert Apply(s, PersistSkip(c, next)) == s1;
    assert Apply(s1, ReleaseSkip(c)) == s' by { assert s1.coords[c := Out] == s'.coords; }
    Nowhere(Anyhow, s');
    StepFirst(Anyhow, s1, ReleaseSkip(c), s');
    StepFirst(Anyhow, s, PersistSkip(c, next), s');
  }

  lemma SkippedRow(job: Job, a: Attempt)
    ensures SkipCalls(Leased(job, a), Leased(job, a), a) == Settled(job, Skip, a)
  {}

  /** The row after a skip's calls, for the row `job` that was loaded. */
  function SkipCalls(row: Job, job: Job, a: Attempt): Job {
    var marked := if job.scheduleKind == RunOnce then ApplyOp(row, CompleteRunOnce(a.now, a.later)) else row;
    ApplyOp(marked, PersistPostTick(NextFor(job, a), a.later))
  }

  lemma SkipReleasesTwice(row: Job, job: Job, a: Attempt)
    ensures ApplyOp(SkipCalls(row, job, a), ReleaseTick(a.later)) == SkipCalls(row, job, a)
  {}

  lemma MarkThenSkip(s: State, c: Id, s': State)
    requires At(s, c).Skipping? && s.job.Some?
    requires var p := At(s, c);
             Reached(Anyhow, s.(job := Some(ApplyOp(s.job.value, CompleteRunOnce(p.now, s.clock))),
                                coords := s.coords[c := SkipAdvancing(p.now, p.until, p.job)]), s')
    ensures Reached(Anyhow, s, s')
  {
    StepFirst(Anyhow, s, MarkSkipped(c), s');
  }

  lemma MarkedSkipEnds(s: State, c: Id, a: Attempt)
    requires s.job.Some? && s.job.value.scheduleKind == RunOnce
    ensures var row := Leased(s.job.value, a);
            var marked := ApplyOp(row, CompleteRunOnce(a.now, a.later));
            Reached(Anyhow, Mid(s, c, a.later, marked, SkipAdvancing(a.now, Until(a), row)), Ended(s, c, Skip, a))
  {
    var row := Leased(s.job.value, a);
    var s6 := Mid(s, c, a.later, ApplyOp(row, CompleteRunOnce(a.now, a.later)), SkipAdvancing(a.now, Until(a), row));
    SkippedRow(s.job.value, a);
    assert s6.coords[c := Out] == Ended(s, c, Skip, a).coords;
    SkipEnds(s6, c, None, Ended(s, c, Skip, a));
  }

  lemma SkipOnceIsARun(s: State, c: Id, a: Attempt)
    requires s.job.Some? && !Enqueues(s.job.value, a.now) && s.job.value.scheduleKind == RunOnce
    ensures Reached(Anyhow, SkipDecided(Deciding(s, c, a), c), Ended(s, c, Skip, a))
  {
    var row := Leased(s.job.value, a);
    var s5 := Mid(s, c, a.later, row, Skipping(a.now, Until(a), row));
    assert SkipDecided(Deciding(s, c, a), c) == s5;
    MarkedSkipEnds(s, c, a);
    assert s5.coords[c := SkipAdvancing(a.now, Until(a), row)] == s.coords[c := SkipAdvancing(a.now, Until(a), row)];
    MarkThenSkip(s5, c, Ended(s, c, Skip, a));
  }

  lemma SkipIsARun(s: State, c: Id, a: Attempt)
    requires s.job.Some? && !Enqueues(s.job.value, a.now) && (a.cronNext.Some? ==> a.cronNext.value > a.now)
    ensures Reached(Anyhow, Deciding(s, c, a), Ended(s, c, Skip, a))
  {
    var row := Leased(s.job.value, a);
    var s4 := Deciding(s, c, a);
    var end := Ended(s, c, Skip, a);
    if row.scheduleKind == RunOnce {
      SkipOnceIsARun(s, c, a);
    } else {
      SkippedRow(s.job.value, a);
      assert SkipDecided(s4, c) == Mid(s, c, a.later, row, SkipAdvancing(a.now, Until(a), row));
      SkipEnds(SkipDecided(s4, c), c, NextFor(row, a), end);
    }
    StepFirst(Anyhow, s4, DecideSkip(c), end);
  }

  /** The row while a run-once job's two claims are held. */
  function BothClaimed(job: Job, c: Id, a: Attempt): Job {
    ApplyOp(Leased(job, a), ClaimRunOnce(c, a.now, a.ttlSecs))
  }

  /** The state from which the run is created. */
  function Firing(s: State, c: Id, a: Attempt): State
    requires s.job.Some?
  {
    var row := Leased(s.job.value, a);
    if row.scheduleKind == RunOnce
    then Mid(s, c, a.later, BothClaimed(s.job.value, c, a), OnceClaimed(a.now, Until(a), row))
    else Deciding(s, c, a)
  }

  lemma OnceTakenIsARun(s: State, c: Id, a: Attempt)
    requires s.job.Some? && Enqueues(s.job.value, a.now)
    requires s.job.value.scheduleKind == RunOnce && !RunOnceClaimable(s.job.value, c, a.now)
    ensures Reached(Anyhow, Deciding(s, c, a), Ended(s, c, OnceTaken, a))
  {
    var s4 := Deciding(s, c, a);
    var s5 := Mid(s, c, a.later, Leased(s.job.value, a), Leaving(Until(a)));
    assert OnceAttempted(s4, c, a.ttlSecs) == s5;
    LeadsOut(s5, c, Ended(s, c, OnceTaken, a));
    StepFirst(Anyhow, s4, ClaimOnce(c, a.ttlSecs), Ended(s, c, OnceTaken, a));
  }

  lemma LeadsToFiring(s: State, c: Id, a: Attempt, s': State)
    requires s.job.Some? && Enqueues(s.job.value, a.now)
    requires s.job.value.scheduleKind == RunOnce ==> RunOnceClaimable(s.job.value, c, a.now)
    requires Reached(Anyhow, Firing(s, c, a), s')
    ensures Reached(Anyhow, Deciding(s, c, a), s')
  {
    if s.job.value.scheduleKind == RunOnce {
      var s4 := Deciding(s, c, a);
      assert OnceAttempted(s4, c, a.ttlSecs) == Firing(s, c, a);
      StepFirst(Anyhow, s4, ClaimOnce(c, a.ttlSecs), s');
    }
  }

  lemma ReleasedAfterFailure(job: Job, c: Id, a: Attempt)
    requires job.scheduleKind == RunOnce && RunOnceClaimable(job, c, a.now)
    ensures ApplyOp(ApplyOp(BothClaimed(job, c, a), ReleaseRunOnce(c, a.later)), ReleaseTick(a.later))
            == Settled(job, CreateFailure, a)
  {}

  lemma FailureOnceIsARun(s: State, c: Id, a: Attempt)
    requires s.job.Some? && s.job.value.scheduleKind == RunOnce && RunOnceClaimable(s.job.value, c, a.now)
    ensures Reached(Anyhow, CreateFailed(Firing(s, c, a), c), Ended(s, c, CreateFailure, a))
  {
    var end := Ended(s, c, CreateFailure, a);
    var s6 := Mid(s, c, a.later, BothClaimed(s.job.value, c, a), Undoing(Until(a)));
    var row := ApplyOp(BothClaimed(s.job.value, c, a), ReleaseRunOnce(c, a.later));
    var s7 := Mid(s, c, a.later, row, Leaving(Until(a)));
    assert CreateFailed(Firing(s, c, a), c) == s6;
    assert Apply(s6, UndoOnce(c)) == s7 by { assert s6.coords[c := Leaving(Until(a))] == s7.coords; }
    ReleasedAfterFailure(s.job.value, c, a);
    assert s7.coords[c := Out] == end.coords;
    LeadsOut(s7, c, end);
    StepFirst(Anyhow, s6, UndoOnce(c), end);
  }

  lemma CreateFailureIsARun(s: State, c: Id, a: Attempt)
    requires s.job.Some? && Enqueues(s.job.value, a.now)
    requires s.job.value.scheduleKind == RunOnce ==> RunOnceClaimable(s.job.value, c, a.now)
    ensures Reached(Anyhow, Firing(s, c, a), Ended(s, c, CreateFailure, a))
  {
    var end := Ended(s, c, CreateFailure, a);
    if s.job.value.scheduleKind == RunOnce {
      FailureOnceIsARun(s, c, a);
    } else {
      var s6 := Mid(s, c, a.later, Leased(s.job.value, a), Leaving(Until(a)));
      assert CreateFailed(Firing(s, c, a), c) == s6;
      assert s6.coords[c := Out] == end.coords;
      LeadsOut(s6, c, end);
    }
    StepFirst(Anyhow, Firing(s, c, a), FireFails(c), end);
  }

  lemma EnqueuedRow(job: Job, c: Id, a: Attempt)
    requires job.scheduleKind == RunOnce ==> RunOnceClaimable(job, c, a.now)
    ensures var marked := if job.scheduleKind == RunOnce
                          then ApplyOp(BothClaimed(job, c, a), CompleteRunOnce(a.later, a.later)) else Leased(job, a);
            ApplyOp(marked, PersistPostTick(NextFor(job, a), a.later)) == Settled(job, Enqueue, a)
  {}

  /** The state with the run stored. */
  function Stored(s: State, c: Id, a: Attempt, job: Job, p: Coord): State
    requires s.job.Some?
  {
    Mid(s, c, a.later, job, p).(runs := RunsAfter(s.runs, s.job.value, Enqueue, a),
                                fired := s.fired + [ScheduledFor(s.job.value, a.now)])
  }

  lemma PersistEnds(s: State, c: Id, a: Attempt, job: Job)
    requires s.job.Some? && (a.cronNext.Some? ==> a.cronNext.value > a.now)
    requires ApplyOp(job, PersistPostTick(NextFor(s.job.value, a), a.later)) == Settled(s.job.value, Enqueue, a)
    ensures var stored := Stored(s, c, a, job, Advancing(a.now, Until(a), Leased(s.job.value, a)));
            Reached(Anyhow, stored, Ended(s, c, Enqueue, a))
  {
    var end := Ended(s, c, Enqueue, a);
    var s7 := Stored(s, c, a, job, Advancing(a.now, Until(a), Leased(s.job.value, a)));
    assert s7.coords[c := Out] == end.coords;
    var step := Persist(c, NextFor(s.job.value, a));
    assert Apply(s7, step) == end;
    Nowhere(Anyhow, end);
    StepFirst(Anyhow, s7, step, end);
  }

  lemma FiredRun(s: State, c: Id, a: Attempt)
    requires s.job.Some?
    ensures TickRun(At(Firing(s, c, a), c), a.runId) == EnqueuedRun(s.job.value, a)
  {}

  lemma EnqueueOnceIsARun(s: State, c: Id, a: Attempt)
    requires s.job.Some? && s.job.value.scheduleKind == RunOnce && RunOnceClaimable(s.job.value, c, a.now)
    requires a.cronNext.Some? ==> a.cronNext.value > a.now
    ensures Reached(Anyhow, RunCreated(Firing(s, c, a), c, a.runId), Ended(s, c, Enqueue, a))
  {
    var row := Leased(s.job.value, a);
    var end := Ended(s, c, Enqueue, a);
    var s6 := Stored(s, c, a, BothClaimed(s.job.value, c, a), Fired(a.now, Until(a), row));
    var marked := ApplyOp(BothClaimed(s.job.value, c, a), CompleteRunOnce(a.later, a.later));
    var s7 := Stored(s, c, a, marked, Advancing(a.now, Until(a), row));
    FiredRun(s, c, a);
    assert RunCreated(Firing(s, c, a), c, a.runId) == s6 by {
      assert Firing(s, c, a).coords[c := Fired(a.now, Until(a), row)] == s6.coords;
    }
    assert Apply(s6, MarkFired(c)) == s7 by { assert s6.coords[c := s7.coords[c]] == s7.coords; }
    EnqueuedRow(s.job.value, c, a);
    PersistEnds(s, c, a, marked);
    StepFirst(Anyhow, s6, MarkFired(c), end);
  }

  lemma EnqueueOtherIsARun(s: State, c: Id, a: Attempt)
    requires s.job.Some? && s.job.value.scheduleKind != RunOnce
    requires a.cronNext.Some? ==> a.cronNext.value > a.now
    ensures Reached(Anyhow, RunCreated(Firing(s, c, a), c, a.runId), Ended(s, c, Enqueue, a))
  {
    var row := Leased(s.job.value, a);
    var s7 := Stored(s, c, a, row, Advancing(a.now, Until(a), row));
    FiredRun(s, c, a);
    assert RunCreated(Firing(s, c, a), c, a.runId) == s7 by {
      assert Firing(s, c, a).coords[c := Advancing(a.now, Until(a), row)] == s7.coords;
    }
    EnqueuedRow(s.job.value, c, a);
    PersistEnds(s, c, a, row);
  }

  lemma EnqueueIsARun(s: State, c: Id, a: Attempt)
    requires s.job.Some? && Enqueues(s.job.value, a.now) && a.runId !in s.runs
    requires s.job.value.scheduleKind == RunOnce ==> RunOnceClaimable(s.job.value, c, a.now)
    requires a.cronNext.Some? ==> a.cronNext.value > a.now
    ensures Reached(Anyhow, Firing(s, c, a), Ended(s, c, Enqueue, a))
  {
    if s.job.value.scheduleKind == RunOnce {
      EnqueueOnceIsARun(s, c, a);
    } else {
      EnqueueOtherIsARun(s, c, a);
    }
    StepFirst(Anyhow, Firing(s, c, a), Fire(c, a.runId), Ended(s, c, Enqueue, a));
  }

  lemma ClaimedIsARun(s: State, c: Id, a: Attempt, listed: set<Id>)
    requires Starts(s, c, a, listed)
    requires !Judge(s.job.value, |ListedActive(s.runs, listed)|, c, a).NotClaimed?
    ensures Reached(Anyhow, s, Ended(s, c, Judge(s.job.value, |ListedActive(s.runs, listed)|, c, a), a))
  {
    var verdict := Judge(s.job.value, |ListedActive(s.runs, listed)|, c, a);
    if verdict.AtLimit? {
      BlockedIsARun(s, c, a, listed);
    } else {
      var end := Ended(s, c, verdict, a);
      if verdict.Skip? {
        SkipIsARun(s, c, a);
      } else if verdict.OnceTaken? {
        OnceTakenIsARun(s, c, a);
      } else if verdict.CreateFailure? {
        CreateFailureIsARun(s, c, a);
        LeadsToFiring(s, c, a, end);
      } else {
        EnqueueIsARun(s, c, a);
        LeadsToFiring(s, c, a, end);
      }
      LeadsToDecision(s, c, a, listed, end);
    }
  }

  /** What one uninterrupted attempt does is a run of the protocol, so everything proved of all runs holds of it. */
  lemma AttemptIsARun(s: State, c: Id, a: Attempt, listed: set<Id>)
    requires Starts(s, c, a, listed)
    ensures Reached(Anyhow, s, Ended(s, c, Judge(s.job.value, |ListedActive(s.runs, listed)|, c, a), a))
  {
    if Judge(s.job.value, |ListedActive(s.runs, listed)|, c, a).NotClaimed? {
      var end := Ended(s, c, NotClaimed, a);
      assert Apply(s, Enter(c, a.claimId, a.ttlSecs)) == end;
      Nowhere(Anyhow, end);
      StepFirst(Anyhow, s, Enter(c, a.claimId, a.ttlSecs), end);
    } else {
      ClaimedIsARun(s, c, a, listed);
    }
  }
}

/** The tick as the coordinator process executes it on the stores. */
module TickLoop {
  import opened Models
  import opened Collections
  import opened JobRules
  import opened JobTableRules
  import opened Ordering
  import opened DueScan
  import opened TickProtocol
  import opened TickRules
  import opened RunStore
  import opened JobStore

  function JobRuns(runs: map<Id, Run>, jobId: Id): map<Id, Run> {
    map id | id in runs && runs[id].jobId == Some(jobId) :: runs[id]
  }

  function ListedIds(ids: seq<Id>): set<Id> {
    set i | 0 <= i < |ids| :: ids[i]
  }

  lemma ListIsListing(runs: map<Id, Run>, jobId: Id, ids: seq<Id>)
    requires EarliestOf(JobRunKeys(runs, jobId), ids, LIST_LIMIT)
    ensures Listing(JobRuns(runs, jobId), ListedIds(ids))
  {
    var mine := JobRuns(runs, jobId);
    var keys := JobRunKeys(runs, jobId);
    assert keys.Keys == mine.Keys;
    assert |keys| == |keys.Keys| == |mine.Keys|;
    ListedCount(ids);
    forall shown, hidden | shown in ListedIds(ids) && hidden in mine.Keys - ListedIds(ids)
      ensures mine[hidden].scheduledFor <= mine[shown].scheduledFor
    {
      var i :| 0 <= i < |ids| && ids[i] == shown;
      assert hidden !in ids;
      assert keys[ids[i]] <= keys[hidden];
    }
  }

  lemma ListedAreMine(runs: map<Id, Run>, jobId: Id, ids: seq<Id>)
    requires EarliestOf(JobRunKeys(runs, jobId), ids, LIST_LIMIT)
    ensures Distinct(ids) && forall k :: 0 <= k < |ids| ==> ids[k] in JobRuns(runs, jobId)
  {
    assert forall k :: 0 <= k < |ids| ==> ids[k] in JobRunKeys(runs, jobId);
  }

  lemma ListedAtMostActive(mine: map<Id, Run>, listed: set<Id>)
    requires Listing(mine, listed)
    ensures |ListedActive(mine, listed)| <= |ActiveIds(mine)|
    ensures |mine.Keys| <= LIST_LIMIT ==> ListedActive(mine, listed) == ActiveIds(mine)
  {
    SubsetSize(ListedActive(mine, listed), ActiveIds(mine));
    SubsetSize(listed, mine.Keys);
  }

  function ActiveRows(rows: seq<Run>): nat {
    if rows == [] then 0
    else ActiveRows(rows[..|rows| - 1]) + (if rows[|rows| - 1].status.Active() then 1 else 0)
  }

  lemma {:induction false} ActiveRowsAreListedActive(mine: map<Id, Run>, ids: seq<Id>, rows: seq<Run>)
    requires Distinct(ids) && AreRows(mine, ids, rows)
    ensures ActiveRows(rows) == |ListedActive(mine, ListedIds(ids))|
  {
    if ids == [] {
      assert ListedActive(mine, ListedIds(ids)) == {};
    } else {
      var k := |ids| - 1;
      ActiveRowsAreListedActive(mine, ids[..k], rows[..k]);
      assert ListedIds(ids) == ListedIds(ids[..k]) + {ids[k]} && ids[k] !in ListedIds(ids[..k]);
      ListOneMore(mine, ListedIds(ids[..k]), ids[k]);
    }
  }

  lemma ListOneMore(mine: map<Id, Run>, listed: set<Id>, id: Id)
    requires id in mine && id !in listed
    ensures |ListedActive(mine, listed + {id})|
            == |ListedActive(mine, listed)| + (if mine[id].status.Active() then 1 else 0)
  {
    assert ListedActive(mine, listed + {id})
           == ListedActive(mine, listed) + if mine[id].status.Active() then {id} else {};
  }

  datatype TickResult = TickResult(enqueued: nat, dueCount: nat)

  const DRAIN_LOOKAHEAD_MS: int := 50
  const SOON_MS: int := 250
  const NO_PARTITIONS_WAIT_MS: int := 500

  class Coordinator {
    const store: JobTable
    const runs: RunTable
    const instanceId: Id
    var draining: bool

    constructor (store: JobTable, runs: RunTable, instanceId: Id)
      ensures this.store == store && this.runs == runs && this.instanceId == instanceId && !draining
    {
      this.store, this.runs, this.instanceId, this.draining := store, runs, instanceId, false;
    }

    /** Counts over the newest runs of the job only. */
    method CountActiveRuns(jobId: Id) returns (count: nat, ghost listed: set<Id>)
      ensures Listing(JobRuns(runs.runs, jobId), listed)
      ensures count == |ListedActive(JobRuns(runs.runs, jobId), listed)|
      ensures count <= |ActiveIds(JobRuns(runs.runs, jobId))|
      ensures |JobRuns(runs.runs, jobId).Keys| <= LIST_LIMIT ==> count == |ActiveIds(JobRuns(runs.runs, jobId))|
    {
      var rows, ids := runs.ListRunsForJob(jobId, LIST_LIMIT);
      ListIsListing(runs.runs, jobId, ids);
      ListedAreMine(runs.runs, jobId, ids);
      ActiveRowsAreListedActive(JobRuns(runs.runs, jobId), ids, rows);
      listed := ListedIds(ids);
      ListedAtMostActive(JobRuns(runs.runs, jobId), listed);
      count := CountActive(rows);
    }

    method CountActive(rows: seq<Run>) returns (count: nat)
      ensures count == ActiveRows(rows)
    {
      count := 0;
      var i := 0;
      while i < |rows|
        invariant 0 <= i <= |rows|
        invariant count == ActiveRows(rows[..i])
      {
        assert rows[..i + 1][..i] == rows[..i];
        if rows[i].status.Active() {
          count := count + 1;
        }
        i := i + 1;
      }
      assert rows[..i] == rows;
    }

    method SkipDueJob(jobId: Id, job: Job, a: Attempt)
      requires jobId in store.jobs
      modifies store`jobs
      ensures store.jobs == old(store.jobs)[jobId := SkipCalls(old(store.jobs)[jobId], job, a)]
    {
      SkipReleasesTwice(store.jobs[jobId], job, a);
      if job.scheduleKind == RunOnce {
        var _ := store.MutateJob(jobId, CompleteRunOnce(a.now, a.later));
      }
      var _ := store.MutateJob(jobId, PersistPostTick(NextFor(job, a), a.later));
      var _ := store.MutateJob(jobId, ReleaseTick(a.later));
    }

    /** Tries to turn a due job into a run. The row it leaves and the run it creates follow from what it read; a
        job that is gone is left alone. */
    method EnqueueDueJob(jobId: Id, a: Attempt) returns (enqueued: bool, ghost listed: set<Id>)
      modifies store`jobs, runs
      ensures jobId !in old(store.jobs) ==> !enqueued && store.jobs == old(store.jobs) && runs.runs == old(runs.runs)
      ensures jobId in old(store.jobs) ==>
                var job := old(store.jobs)[jobId];
                var verdict := Judge(job, |ListedActive(JobRuns(old(runs.runs), jobId), listed)|, instanceId, a);
                && (!verdict.NotClaimed? ==> Listing(JobRuns(old(runs.runs), jobId), listed))
                && enqueued == verdict.Enqueue?
                && (enqueued ==> GateIsOpen(job, a.now)) && (verdict.Skip? ==> !GateIsOpen(job, a.now))
                && store.jobs == old(store.jobs)[jobId := Settled(job, verdict, a)]
                && runs.runs == RunsAfter(old(runs.runs), job, verdict, a)
    {
      listed := {};
      if jobId in store.jobs {
        GateOpensIff(store.jobs[jobId], a.now);
      }
      var claimed := store.ClaimJobForTick(jobId, a.claimId, a.now, a.ttlSecs);
      if !claimed { return false, listed; }
      enqueued, listed := EnqueueClaimedJob(jobId, store.jobs[jobId], a, old(store.jobs)[jobId]);
    }

    /** The attempt once the tick lease is won. */
    method EnqueueClaimedJob(jobId: Id, job: Job, a: Attempt, ghost before: Job)
      returns (enqueued: bool, ghost listed: set<Id>)
      requires jobId in store.jobs && store.jobs[jobId] == job == Leased(before, a) && TickClaimable(before, a.now)
      modifies store`jobs, runs
      ensures Listing(JobRuns(old(runs.runs), jobId), listed)
      ensures var verdict := Judge(before, |ListedActive(JobRuns(old(runs.runs), jobId), listed)|, instanceId, a);
              && enqueued == verdict.Enqueue?
              && store.jobs == old(store.jobs)[jobId := Settled(before, verdict, a)]
              && runs.runs == RunsAfter(old(runs.runs), before, verdict, a)
    {
      var activeCount;
      activeCount, listed := CountActiveRuns(jobId);
      if activeCount >= job.concurrency {
        var _ := store.MutateJob(jobId, ReleaseTick(a.later));
        return false, listed;
      }
      if !ShouldEnqueueForMisfire(ScheduledFor(job, a.now), a.now, job.misfirePolicy) {
        SkippedRow(before, a);
        SkipDueJob(jobId, job, a);
        return false, listed;
      }
      enqueued := FireClaimedJob(jobId, job, a, before);
    }

    /** The rest of the attempt, inside the section. */
    method FireClaimedJob(jobId: Id, job: Job, a: Attempt, ghost before: Job) returns (enqueued: bool)
      requires jobId in store.jobs && store.jobs[jobId] == job == Leased(before, a)
      modifies store`jobs, runs
      ensures var verdict := if job.scheduleKind == RunOnce && !RunOnceClaimable(before, instanceId, a.now)
                             then OnceTaken
                             else if a.createFails then CreateFailure else Enqueue;
              && enqueued == verdict.Enqueue?
              && store.jobs == old(store.jobs)[jobId := Settled(before, verdict, a)]
              && runs.runs == RunsAfter(old(runs.runs), before, verdict, a)
    {
      if job.scheduleKind == RunOnce {
        var claimed := store.TryClaimRunOnce(jobId, instanceId, a.now, a.ttlSecs);
        if !claimed {
          var _ := store.MutateJob(jobId, ReleaseTick(a.later));
          return false;
        }
      }
      enqueued := CreateTickRun(jobId, job, a, before);
    }

    /** Creates the run and lets the job move on, or undoes the claims. */
    method CreateTickRun(jobId: Id, job: Job, a: Attempt, ghost before: Job) returns (enqueued: bool)
      requires job == Leased(before, a) && jobId in store.jobs
      requires store.jobs[jobId] == if job.scheduleKind == RunOnce then BothClaimed(before, instanceId, a) else job
      requires job.scheduleKind == RunOnce ==> RunOnceClaimable(before, instanceId, a.now)
      modifies store`jobs, runs
      ensures var verdict := if a.createFails then CreateFailure else Enqueue;
              && enqueued == verdict.Enqueue?
              && store.jobs == old(store.jobs)[jobId := Settled(before, verdict, a)]
              && runs.runs == RunsAfter(old(runs.runs), before, verdict, a)
    {
      if a.createFails {
        if job.scheduleKind == RunOnce {
          ReleasedAfterFailure(before, instanceId, a);
          var _ := store.MutateJob(jobId, ReleaseRunOnce(instanceId, a.later));
        }
        var _ := store.MutateJob(jobId, ReleaseTick(a.later));
        return false;
      }
      var run := NewRun(a.runId, job.jobId, job.scriptName, ScheduledFor(job, a.now));
      run := run.(actorJson := job.actorJson, paramsJson := job.paramsJson, poolId := Some(ExecutionPool(job)));
      runs.CreateRun(run);
      EnqueuedRow(before, instanceId, a);
      if job.scheduleKind == RunOnce {
        var _ := store.MutateJob(jobId, CompleteRunOnce(a.later, a.later));
      }
      var _ := store.MutateJob(jobId, PersistPostTick(NextFor(job, a), a.later));
      enqueued := true;
    }

    /** Attempts the due jobs one after the other. */
    method AttemptAll(due: seq<Id>, attempts: seq<Attempt>) returns (enqueued: nat, ghost verdicts: seq<Verdict>)
      requires |due| <= |attempts| && Distinct(due) && forall k :: 0 <= k < |due| ==> due[k] in store.jobs
      modifies store`jobs, runs
      ensures TickDone(old(store.jobs), store.jobs, old(runs.runs), runs.runs, due, verdicts, attempts)
      ensures enqueued == EnqueueCount(verdicts)
    {
      enqueued, verdicts := 0, [];
      ghost var jobsBefore, runsBefore := store.jobs, runs.runs;
      var k := 0;
      while k < |due|
        invariant 0 <= k <= |due|
        invariant TickDone(jobsBefore, store.jobs, runsBefore, runs.runs, due[..k], verdicts, attempts)
        invariant enqueued == EnqueueCount(verdicts)
      {
        ghost var jobs0, runs0 := store.jobs, runs.runs;
        var ok, listed := EnqueueDueJob(due[k], attempts[k]);
        ghost var active := |ListedActive(JobRuns(runs0, due[k]), listed)|;
        ghost var verdict := Judge(jobs0[due[k]], active, instanceId, attempts[k]);
        OneMoreRow(jobsBefore, jobs0, due, k, verdicts, attempts, verdict);
        OneMoreRun(jobsBefore, runsBefore, due, k, verdicts, attempts, verdict);
        verdicts := verdicts + [verdict];
        if ok {
          enqueued := enqueued + 1;
        }
        k := k + 1;
      }
      assert due[..k] == due;
    }

    /** The first half of a tick: which jobs are due, whether to drain, how long to sleep afterwards. */
    method Plan(owned: seq<int>, now: Time, scanned: Time, tickMs: nat, batchLimit: nat)
      returns (due: seq<Id>, wait: Time)
      modifies this`draining
      ensures IsPlan(store.jobs, owned, now, scanned, tickMs, batchLimit, old(draining), draining, due, wait)
    {
      if owned == [] {
        return [], NO_PARTITIONS_WAIT_MS * NANOS_PER_MILLI;
      }
      due := store.FindDueJobIds(owned, now + Lookahead(draining), scanned, batchLimit);
      var minNext := store.MinNextRunAt(owned);
      if due == [] {
        draining := false;
        wait := IdleWait(now, minNext, tickMs);
        assert SleepsFor(now, minNext, tickMs, wait);
        return;
      }
      SoonIsMinimum(store.jobs, Parts(owned), now, minNext);
      draining := |due| >= batchLimit / 2 || (minNext.Some? && minNext.value <= now + SOON_MS * NANOS_PER_MILLI);
      wait := if draining then 0 else tickMs * NANOS_PER_MILLI;
    }

    /** One tick. What the verdicts say is exactly what happened, to every job row and to the runs. */
    method RunOneTick(owned: seq<int>, now: Time, scanned: Time, tickMs: nat, batchLimit: nat, attempts: seq<Attempt>)
      returns (result: TickResult, wait: Time, ghost ids: seq<Id>, ghost verdicts: seq<Verdict>)
      requires |attempts| >= batchLimit
      modifies this`draining, store`jobs, runs
      ensures IsPlan(old(store.jobs), owned, now, scanned, tickMs, batchLimit, old(draining), draining, ids, wait)
      ensures result == TickResult(EnqueueCount(verdicts), |ids|)
      ensures TickDone(old(store.jobs), store.jobs, old(runs.runs), runs.runs, ids, verdicts, attempts)
    {
      var due;
      due, wait := Plan(owned, now, scanned, tickMs, batchLimit);
      ids := due;
      DueAreRows(store.jobs, owned, now, scanned, tickMs, batchLimit, old(draining), draining, due, wait);
      var enqueued;
      enqueued, verdicts := AttemptAll(due, attempts);
      result := TickResult(enqueued, |due|);
    }
  }

  /** The plan of a tick over these rows: with no partitions nothing and half a second of sleep; otherwise the
      earliest due jobs, none passed over, and with none due the idle sleep. */
  ghost predicate IsPlan(jobs: Jobs, owned: seq<int>, now: Time, scanned: Time, tickMs: nat, limit: nat,
                         wasDraining: bool, draining: bool, due: seq<Id>, wait: Time)
  {
    if owned == [] then due == [] && draining == wasDraining && wait == NO_PARTITIONS_WAIT_MS * NANOS_PER_MILLI
    else
      && EarliestOf(DueKeys(jobs, now + Lookahead(wasDraining), Parts(owned), scanned), due, limit)
      && if due == [] then !draining && IdleTick(jobs, Parts(owned), now, tickMs, wait)
         else && (draining <==> |due| >= limit / 2 || FireSoon(jobs, Parts(owned), now))
              && wait == if draining then 0 else tickMs * NANOS_PER_MILLI
  }

  lemma DueAreRows(jobs: Jobs, owned: seq<int>, now: Time, scanned: Time, tickMs: nat, limit: nat,
                   wasDraining: bool, draining: bool, due: seq<Id>, wait: Time)
    requires IsPlan(jobs, owned, now, scanned, tickMs, limit, wasDraining, draining, due, wait)
    ensures |due| <= limit && Distinct(due) && forall k :: 0 <= k < |due| ==> due[k] in jobs
  {}

  /** The sleep after an empty scan. */
  predicate SleepsFor(now: Time, next: Option<Time>, tickMs: nat, wait: Time) {
    wait == IdleWait(now, next, tickMs)
  }

  ghost predicate IdleTick(jobs: Jobs, owned: set<int>, now: Time, tickMs: nat, wait: Time) {
    exists next :: IsEarliestWatched(jobs, owned, next) && SleepsFor(now, next, tickMs, wait)
  }

  /** A tick that found nothing sleeps at most a second, or one tick interval when no fire is known, and every free
      job fires no earlier than it wakes. */
  lemma IdlePlanWakesInTime(jobs: Jobs, owned: seq<int>, now: Time, scanned: Time, tickMs: nat, limit: nat,
                            wasDraining: bool, draining: bool, wait: Time)
    requires owned != [] && limit > 0
    requires IsPlan(jobs, owned, now, scanned, tickMs, limit, wasDraining, draining, [], wait)
    ensures 0 <= wait && (wait <= MAX_IDLE_SLEEP || wait == tickMs * NANOS_PER_MILLI)
    ensures forall id :: id in jobs && Free(jobs[id], Parts(owned), scanned) ==>
              wait <= MAX_IDLE_SLEEP && now + wait <= jobs[id].nextRunAt.value
  {
    var next :| IsEarliestWatched(jobs, Parts(owned), next) && SleepsFor(now, next, tickMs, wait);
    IdleSleepWakesInTime(jobs, Parts(owned), Lookahead(wasDraining), now, scanned, limit, next, tickMs);
  }

  /** A tick lists only free jobs whose fire has come or, while draining, comes within 50 ms; and it leaves such a
      job out only for a full batch of others that fire no later. */
  lemma PlanListsDueJobs(jobs: Jobs, owned: seq<int>, now: Time, scanned: Time, tickMs: nat, limit: nat,
                         wasDraining: bool, draining: bool, due: seq<Id>, wait: Time, id: Id)
    requires IsPlan(jobs, owned, now, scanned, tickMs, limit, wasDraining, draining, due, wait) && owned != []
    requires id in jobs
    ensures var until := if wasDraining then now + 50_000_000 else now;
            var ready := Free(jobs[id], Parts(owned), scanned) && jobs[id].nextRunAt.value <= until;
            && (id in due ==> ready)
            && (ready && id !in due ==>
                  |due| == limit && forall k :: 0 <= k < limit ==>
                    due[k] in jobs && jobs[due[k]].nextRunAt.Some?
                    && jobs[due[k]].nextRunAt.value <= jobs[id].nextRunAt.value)
  {
    var until := now + Lookahead(wasDraining);
    if id in due {
      assert id in DueKeys(jobs, until, Parts(owned), scanned);
    } else if Free(jobs[id], Parts(owned), scanned) && jobs[id].nextRunAt.value <= until {
      ScanMissesNone(jobs, Parts(owned), until, scanned, limit, due, id);
    }
  }

  function Lookahead(draining: bool): Time {
    if draining then DRAIN_LOOKAHEAD_MS * NANOS_PER_MILLI else 0
  }

  /** Some watched job fires within the next quarter second. */
  predicate FireSoon(jobs: Jobs, owned: set<int>, now: Time) {
    exists id :: id in jobs && Watched(jobs[id], owned) && jobs[id].nextRunAt.value <= now + SOON_MS * NANOS_PER_MILLI
  }

  lemma SoonIsMinimum(jobs: Jobs, owned: set<int>, now: Time, next: Option<Time>)
    requires IsEarliestWatched(jobs, owned, next)
    ensures next.Some? && next.value <= now + SOON_MS * NANOS_PER_MILLI <==> FireSoon(jobs, owned, now)
  {}

  predicate NewRunIds(attempts: seq<Attempt>, runs: map<Id, Run>) {
    && (forall k :: 0 <= k < |attempts| ==> attempts[k].runId !in runs)
    && (forall j, k :: 0 <= j < k < |attempts| ==> attempts[j].runId != attempts[k].runId)
  }

  function EnqueueCount(verdicts: seq<Verdict>): nat {
    if verdicts == [] then 0
    else EnqueueCount(verdicts[..|verdicts| - 1]) + (if verdicts[|verdicts| - 1].Enqueue? then 1 else 0)
  }

  /** Each listed row is the settled one; other rows are as they were. */
  predicate RowsSettled(jobs: Jobs, jobs': Jobs, ids: seq<Id>, verdicts: seq<Verdict>, attempts: seq<Attempt>) {
    && |verdicts| == |ids| <= |attempts| && jobs'.Keys == jobs.Keys
    && (forall k :: 0 <= k < |ids| ==>
          ids[k] in jobs && jobs'[ids[k]] == Settled(jobs[ids[k]], verdicts[k], attempts[k]))
    && (forall id :: id in jobs && id !in ids ==> jobs'[id] == jobs[id])
  }

  /** The attempts on the jobs `ids` have ended as `verdicts` say, in the rows and in the runs. */
  predicate TickDone(jobs: Jobs, jobs': Jobs, runs: map<Id, Run>, runs': map<Id, Run>,
                     ids: seq<Id>, verdicts: seq<Verdict>, attempts: seq<Attempt>)
  {
    RowsSettled(jobs, jobs', ids, verdicts, attempts) && runs' == RunsCreated(jobs, runs, ids, verdicts, attempts)
  }

  function RunsCreated(jobs: Jobs, runs: map<Id, Run>, ids: seq<Id>, verdicts: seq<Verdict>, attempts: seq<Attempt>)
    : map<Id, Run>
    requires |verdicts| == |ids| <= |attempts| && forall k :: 0 <= k < |ids| ==> ids[k] in jobs
  {
    if ids == [] then runs else
    var k := |ids| - 1;
    RunsAfter(RunsCreated(jobs, runs, ids[..k], verdicts[..k], attempts), jobs[ids[k]], verdicts[k], attempts[k])
  }

  lemma OneMoreRow(jobs: Jobs, jobs0: Jobs, due: seq<Id>, k: nat,
                   verdicts: seq<Verdict>, attempts: seq<Attempt>, verdict: Verdict)
    requires k < |due| <= |attempts| && due[k] in jobs && Distinct(due)
    requires RowsSettled(jobs, jobs0, due[..k], verdicts, attempts)
    ensures jobs0[due[k]] == jobs[due[k]]
    ensures RowsSettled(jobs, jobs0[due[k] := Settled(jobs[due[k]], verdict, attempts[k])],
                        due[..k + 1], verdicts + [verdict], attempts)
  {
    var row := Settled(jobs[due[k]], verdict, attempts[k]);
    assert due[k] !in due[..k];
    var ids := due[..k + 1];
    var jobs1 := jobs0[due[k] := row];
    forall i | 0 <= i < |ids|
      ensures ids[i] in jobs && jobs1[ids[i]] == Settled(jobs[ids[i]], (verdicts + [verdict])[i], attempts[i])
    {
      if i < k {
        assert due[..k][i] == ids[i];
      }
    }
    forall id | id in jobs && id !in ids ensures jobs1[id] == jobs[id] {
      assert ids[k] == due[k] && forall x :: x in due[..k] ==> x in ids;
    }
  }

  lemma OneMoreRun(jobs: Jobs, runs: map<Id, Run>, due: seq<Id>, k: nat,
                   verdicts: seq<Verdict>, attempts: seq<Attempt>, verdict: Verdict)
    requires k < |due| <= |attempts| && |verdicts| == k && forall i :: 0 <= i < |due| ==> due[i] in jobs
    ensures RunsCreated(jobs, runs, due[..k + 1], verdicts + [verdict], attempts)
            == RunsAfter(RunsCreated(jobs, runs, due[..k], verdicts, attempts), jobs[due[k]], verdict, attempts[k])
    ensures EnqueueCount(verdicts + [verdict]) == EnqueueCount(verdicts) + (if verdict.Enqueue? then 1 else 0)
  {
    assert due[..k + 1][..k] == due[..k];
    assert (verdicts + [verdict])[..k] == verdicts;
  }

  /** A tick creates exactly as many runs as it reports, and rewrites none. */
  lemma {:induction false} TickCountsItsRuns(jobs: Jobs, runs: map<Id, Run>, ids: seq<Id>, verdicts: seq<Verdict>,
                                             attempts: seq<Attempt>)
    requires |verdicts| == |ids| <= |attempts| && forall k :: 0 <= k < |ids| ==> ids[k] in jobs
    requires NewRunIds(attempts, runs)
    ensures var runs' := RunsCreated(jobs, runs, ids, verdicts, attempts);
            && |runs'.Keys| == |runs.Keys| + EnqueueCount(verdicts)
            && (forall id :: id in runs ==> id in runs' && runs'[id] == runs[id])
            && (forall k :: |ids| <= k < |attempts| ==> attempts[k].runId !in runs')
  {
    if ids != [] {
      var k := |ids| - 1;
      TickCountsItsRuns(jobs, runs, ids[..k], verdicts[..k], attempts);
      var before := RunsCreated(jobs, runs, ids[..k], verdicts[..k], attempts);
      var after := RunsCreated(jobs, runs, ids, verdicts, attempts);
      if verdicts[k].Enqueue? {
        assert after.Keys == before.Keys + {attempts[k].runId};
      }
    }
  }
}
