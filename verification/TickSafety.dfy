/** What the tick section protects: the concurrency limit and run-once jobs. */
module TickSafety {
  import opened Models
  import opened Collections
  import opened JobRules
  import opened RunRules
  import opened TickProtocol

  // ---- the concurrency limit --------------------------------------------------------------------

  /** Counting over the newest runs is exact just when no active run is hidden behind the list limit. */
  lemma CountIsExactIff(runs: map<Id, Run>, listed: set<Id>)
    requires Listing(runs, listed)
    ensures |ListedActive(runs, listed)| == |ActiveIds(runs)| <==> ActiveIds(runs) <= listed
    ensures |runs.Keys| <= LIST_LIMIT ==> ActiveIds(runs) <= listed
  {
    assert ListedActive(runs, listed) <= ActiveIds(runs);
    SubsetSize(ListedActive(runs, listed), ActiveIds(runs));
    SubsetSize(listed, runs.Keys);
    assert ActiveIds(runs) <= listed ==> ListedActive(runs, listed) == ActiveIds(runs);
  }

  /** The runs that have not succeeded, failed, timed out or been canceled. */
  function Unfinished(runs: map<Id, Run>): set<Id> {
    set id | id in runs && !runs[id].status.Terminal()
  }

  /** A run is active from its creation to its end. */
  lemma ActiveUntilFinished(runs: map<Id, Run>)
    ensures ActiveIds(runs) == Unfinished(runs)
  {}

  /** The coordinator has counted and may still create a run. */
  predicate AboutToFire(p: Coord) {
    p.Counted? || p.OnceClaimed?
  }

  /** `limit` is the job's concurrency wherever it is read, and whoever counted has room for one more. */
  predicate BoundInv(s: State, limit: int) {
    && (s.job.Some? ==> s.job.value.concurrency == limit)
    && (forall c :: c in s.coords && Carries(s.coords[c]) ==> s.coords[c].job.concurrency == limit)
    && (forall c :: c in s.coords && AboutToFire(s.coords[c]) ==> |ActiveIds(s.runs)| < limit)
  }

  /** The hypotheses of the bound: the list is complete, only ticks create runs, and no upsert edits the limit. */
  predicate OnlyTicks(s: State, step: Step) {
    && !step.RunNow? && (step.Count? ==> |s.runs.Keys| <= LIST_LIMIT)
    && (step.WriteRow? ==> s.job.Some? && step.row.concurrency == s.job.value.concurrency)
  }

  lemma FireStaysWithinLimit(s: State, step: Step, limit: int)
    requires SectionInv(s) && BoundInv(s, limit) && Enabled(s, step) && step.Fire?
    ensures |ActiveIds(Apply(s, step).runs)| <= limit
    ensures BoundInv(Apply(s, step), limit)
  {
    var s' := Apply(s, step);
    assert ActiveIds(s'.runs) == ActiveIds(s.runs) + {step.runId};
    assert step.c in s.coords && Inside(s.coords[step.c]);
  }

  lemma StepKeepsBound(s: State, step: Step, limit: int)
    requires SectionInv(s) && BoundInv(s, limit) && Enabled(s, step) && OnlyTicks(s, step)
    ensures BoundInv(Apply(s, step), limit)
  {
    var s' := Apply(s, step);
    match step
    case Fire(_, _) => FireStaysWithinLimit(s, step, limit);
    case Count(_, listed) => CountIsExactIff(s.runs, listed);
    case RunChanges(_) =>
      assert ActiveIds(s'.runs) <= ActiveIds(s.runs);
      SubsetSize(ActiveIds(s'.runs), ActiveIds(s.runs));
    case _ => OtherStepKeepsBound(s, step, limit);
  }

  lemma OtherStepKeepsBound(s: State, step: Step, limit: int)
    requires BoundInv(s, limit) && Enabled(s, step) && OnlyTicks(s, step)
    requires !step.Fire? && !step.Count? && !step.RunChanges? && !step.RunNow?
    ensures BoundInv(Apply(s, step), limit)
  {
    var s' := Apply(s, step);
    if IsCoordStep(step) {
      CarryShape(s, step);
      CountShape(s, step);
      RowShape(s, step);
      BoundFromShape(s, s', step.c, At(s', step.c), limit);
    }
  }

  lemma BoundFromShape(s: State, s': State, c: Id, p': Coord, limit: int)
    requires BoundInv(s, limit) && s'.coords == s.coords[c := p'] && s'.runs == s.runs
    requires Carries(p') ==> (Carries(At(s, c)) && p'.job == At(s, c).job) || (s.job.Some? && p'.job == s.job.value)
    requires AboutToFire(p') ==> AboutToFire(At(s, c))
    requires s'.job.Some? ==> s.job.Some? && s'.job.value.concurrency == s.job.value.concurrency
    ensures BoundInv(s', limit)
  {}

  /** A coordinator's step moves only itself and carries only rows it read. */
  lemma CarryShape(s: State, step: Step)
    requires Enabled(s, step) && IsCoordStep(step)
    ensures var s' := Apply(s, step);
            var p, p' := At(s, step.c), At(s', step.c);
            && s'.coords == s.coords[step.c := p']
            && (Carries(p') ==> (Carries(p) && p'.job == p.job) || (s.job.Some? && p'.job == s.job.value))
  {}

  /** Only a count puts a coordinator in front of the enqueue. */
  lemma CountShape(s: State, step: Step)
    requires Enabled(s, step) && IsCoordStep(step) && !step.Count?
    ensures AboutToFire(At(Apply(s, step), step.c)) ==> AboutToFire(At(s, step.c))
  {}

  /** Only a fire adds a run, and no step changes what the row says about the job itself. */
  lemma RowShape(s: State, step: Step)
    requires Enabled(s, step) && IsCoordStep(step)
    ensures !step.Fire? ==> Apply(s, step).runs == s.runs
    ensures Apply(s, step).job.Some? ==>
              && s.job.Some? && Apply(s, step).job.value.concurrency == s.job.value.concurrency
              && Apply(s, step).job.value.scheduleKind == s.job.value.scheduleKind
              && Apply(s, step).job.value.misfirePolicy == s.job.value.misfirePolicy
  {}

  ghost predicate TicksOnly(s: State, steps: seq<Step>)
    requires Feasible(s, steps)
    decreases |steps|
  {
    steps == [] || (OnlyTicks(s, steps[0]) && TicksOnly(Apply(s, steps[0]), steps[1..]))
  }

  /** In every disciplined run in which only ticks create runs, each tick enqueue leaves at most `concurrency`
      runs that have not ended. */
  lemma {:induction false} TicksRespectConcurrency(s: State, steps: seq<Step>, last: Step, limit: int)
    requires SectionInv(s) && BoundInv(s, limit)
    requires Feasible(s, steps) && Lawful(Orderly, s, steps) && TicksOnly(s, steps)
    requires Enabled(After(s, steps), last) && last.Fire?
    ensures |Unfinished(Apply(After(s, steps), last).runs)| <= limit
    decreases |steps|
  {
    if steps == [] {
      FireStaysWithinLimit(s, last, limit);
      ActiveUntilFinished(Apply(s, last).runs);
    } else {
      StepKeepsSection(s, steps[0]);
      StepKeepsBound(s, steps[0], limit);
      TicksRespectConcurrency(Apply(s, steps[0]), steps[1..], last, limit);
    }
  }

  // ---- run-once jobs ----------------------------------------------------------------------------

  /** Nothing can win the run-once claim any more. */
  predicate Done(s: State) {
    s.job.None? || s.job.value.runOnceCompletedAt.Some?
  }

  predicate IsRunOnce(s: State) {
    && (s.job.Some? ==> s.job.value.scheduleKind == RunOnce)
    && (forall c :: c in s.coords && Carries(s.coords[c]) ==> s.coords[c].job.scheduleKind == RunOnce)
  }

  predicate AtMostOneWinner(s: State) {
    && |s.fired| <= 1
    && (forall c :: c in s.coords && s.coords[c].OnceClaimed? ==> s.fired == [])
    && (forall c, d ::
          c in s.coords && d in s.coords && s.coords[c].OnceClaimed? && s.coords[d].OnceClaimed? ==> c == d)
  }

  /** Before completion the section is exclusive without further hypothesis, because a skip completes the job
      before it gives the lease back; and a run that exists belongs to whoever is about to complete the job. */
  ghost predicate Pending(s: State) {
    && Exclusive(s.job, s.coords) && !SomeSkipReleasing(s.coords)
    && (forall c :: c in s.coords ==> !s.coords[c].SkipAdvancing? && !s.coords[c].Advancing?)
    && (s.fired != [] ==> exists c :: c in s.coords && s.coords[c].Fired?)
  }

  ghost predicate OnceInv(s: State) {
    IsRunOnce(s) && AtMostOneWinner(s) && ClocksOk(s) && (Done(s) || Pending(s))
  }

  lemma PendingIsSection(s: State)
    requires Pending(s) && ClocksOk(s)
    ensures SectionInv(s)
  {}

  lemma DoneStays(s: State, step: Step)
    requires Done(s) && Enabled(s, step) && Current(s, step)
    ensures Done(Apply(s, step))
  {}

  lemma KindStays(s: State, step: Step)
    requires IsRunOnce(s) && ClocksOk(s) && Enabled(s, step) && Obeys(Careful(false), s, step)
    ensures IsRunOnce(Apply(s, step)) && ClocksOk(Apply(s, step))
  {
    if !IsCoordStep(step) {
      OutsideKeepsKind(s, step);
    } else {
      CarryShape(s, step);
      RowShape(s, step);
      StartShape(s, step);
      KindFromMove(s, Apply(s, step), step.c, At(Apply(s, step), step.c));
    }
  }

  lemma OutsideKeepsKind(s: State, step: Step)
    requires IsRunOnce(s) && ClocksOk(s) && Enabled(s, step) && Obeys(Careful(false), s, step) && !IsCoordStep(step)
    ensures IsRunOnce(Apply(s, step)) && ClocksOk(Apply(s, step))
  {
    var s' := Apply(s, step);
    assert s'.coords == s.coords && s.clock <= s'.clock;
    assert s'.job.Some? ==> s'.job.value.scheduleKind == RunOnce;
  }

  lemma KindFromMove(s: State, s': State, c: Id, p': Coord)
    requires IsRunOnce(s) && ClocksOk(s) && s'.coords == s.coords[c := p'] && s'.clock == s.clock
    requires s'.job.Some? ==> s.job.Some? && s'.job.value.scheduleKind == s.job.value.scheduleKind
    requires Carries(p') ==> (Carries(At(s, c)) && p'.job == At(s, c).job) || (s.job.Some? && p'.job == s.job.value)
    requires p'.Started? ==> p'.now == s.clock
    ensures IsRunOnce(s') && ClocksOk(s')
  {}

  lemma StartShape(s: State, step: Step)
    requires Enabled(s, step) && IsCoordStep(step)
    ensures At(Apply(s, step), step.c).Started? ==> At(Apply(s, step), step.c).now == s.clock
    ensures Apply(s, step).clock == s.clock
  {}

  /** Only a won run-once claim and the enqueue after it change who may fire. */
  lemma WinnerShape(s: State, step: Step)
    requires IsRunOnce(s) && Enabled(s, step) && IsCoordStep(step)
    ensures var s' := Apply(s, step);
            var p, p' := At(s, step.c), At(s', step.c);
            && s'.coords == s.coords[step.c := p']
            && (p'.OnceClaimed? ==> step.ClaimOnce? && p.Counted? && !Done(s) && s'.fired == s.fired)
            && (s'.fired != s.fired ==> step.Fire? && p.OnceClaimed? && p'.Fired? && |s'.fired| == |s.fired| + 1)
  {}

  /** Whoever has fired completes the job before it goes on, and so does whoever skips. */
  lemma CompletionShape(s: State, step: Step)
    requires IsRunOnce(s) && Enabled(s, step) && IsCoordStep(step)
    ensures var s' := Apply(s, step);
            var p, p' := At(s, step.c), At(s', step.c);
            && (p'.SkipReleasing? ==> p.SkipAdvancing?)
            && (p'.SkipAdvancing? || p'.Advancing? ==> Done(s'))
            && (p.Fired? ==> Done(s'))
  {}

  lemma WinnerStays(s: State, step: Step)
    requires OnceInv(s) && Enabled(s, step)
    ensures AtMostOneWinner(Apply(s, step))
  {
    if IsCoordStep(step) {
      WinnerShape(s, step);
      WinnerFromMove(s, Apply(s, step), step.c, At(Apply(s, step), step.c));
    } else {
      OutsideKeepsCoords(s, step);
    }
  }

  lemma WinnerFromMove(s: State, s': State, c: Id, p': Coord)
    requires OnceInv(s) && s'.coords == s.coords[c := p']
    requires p'.OnceClaimed? ==> At(s, c).Counted? && !Done(s) && s'.fired == s.fired
    requires s'.fired != s.fired ==> At(s, c).OnceClaimed? && p'.Fired? && |s'.fired| == |s.fired| + 1
    ensures AtMostOneWinner(s')
  {
    if p'.OnceClaimed? {
      assert c in s.coords && Inside(s.coords[c]);
      forall d | d in s.coords && (s.coords[d].Fired? || s.coords[d].OnceClaimed?) ensures d == c {
        assert Inside(s.coords[d]);
      }
    }
  }

  lemma PendingStays(s: State, step: Step)
    requires OnceInv(s) && Timely(s) && Enabled(s, step) && Current(s, step) && !Done(Apply(s, step))
    ensures Pending(Apply(s, step))
  {
    if Done(s) {
      DoneStays(s, step);
    } else {
      PendingIsSection(s);
      CurrentShields(s, step);
      StepKeepsSection(s, step);
      var s' := Apply(s, step);
      if IsCoordStep(step) {
        WinnerShape(s, step);
        CompletionShape(s, step);
        PendingFromShape(s, s', step.c, At(s', step.c));
      } else {
        OutsideKeepsCoords(s, step);
      }
    }
  }

  /** A row written back with its lease unchanged covers whoever the row covered. */
  lemma CurrentShields(s: State, step: Step)
    requires Exclusive(s.job, s.coords) && Current(s, step)
    ensures Shields(s, step)
  {}

  lemma OutsideKeepsCoords(s: State, step: Step)
    requires Enabled(s, step) && !IsCoordStep(step)
    ensures Apply(s, step).coords == s.coords && Apply(s, step).fired == s.fired
  {}

  lemma PendingFromShape(s: State, s': State, c: Id, p': Coord)
    requires Pending(s) && Exclusive(s'.job, s'.coords) && s'.coords == s.coords[c := p'] && !Done(s')
    requires !p'.SkipAdvancing? && !p'.Advancing?
    requires p'.SkipReleasing? ==> At(s, c).SkipAdvancing?
    requires At(s, c).Fired? ==> Done(s')
    requires s'.fired != s.fired ==> p'.Fired?
    ensures Pending(s')
  {
    if s'.fired != [] {
      if s'.fired == s.fired {
        var d :| d in s.coords && s.coords[d].Fired?;
        assert d in s'.coords && s'.coords[d].Fired?;
      } else {
        assert c in s'.coords && s'.coords[c].Fired?;
      }
    }
  }

  lemma StepKeepsOnce(s: State, step: Step)
    requires OnceInv(s) && Timely(s) && Enabled(s, step) && Obeys(Careful(true), s, step)
    ensures OnceInv(Apply(s, step))
  {
    KindStays(s, step);
    WinnerStays(s, step);
    if !Done(Apply(s, step)) {
      PendingStays(s, step);
    }
  }

  lemma {:induction false} RunKeepsOnce(s: State, steps: seq<Step>)
    requires OnceInv(s) && Feasible(s, steps) && Lawful(Careful(true), s, steps)
    ensures OnceInv(After(s, steps))
    decreases |steps|
  {
    if steps != [] {
      StepKeepsOnce(s, steps[0]);
      RunKeepsOnce(Apply(s, steps[0]), steps[1..]);
    }
  }

  /** However many coordinators act on however stale due lists, a run-once job gets at most one tick run, as
      long as each gives its tick lease back in time and upserts write the row back with its columns current. */
  lemma RunOnceFiresAtMostOnce(s: State, steps: seq<Step>)
    requires Init(s) && s.job.Some? && s.job.value.scheduleKind == RunOnce
    requires Feasible(s, steps) && Lawful(Careful(true), s, steps)
    ensures |After(s, steps).fired| <= 1
  {
    RunKeepsOnce(s, steps);
  }

  /** Nobody has won and nobody can win. */
  predicate NeverFires(s: State) {
    IsRunOnce(s) && Done(s) && s.fired == [] && forall c :: c in s.coords ==> !s.coords[c].OnceClaimed?
  }

  lemma {:induction false} NeverFiresStays(s: State, steps: seq<Step>)
    requires NeverFires(s) && ClocksOk(s) && Feasible(s, steps) && Lawful(Careful(false), s, steps)
    ensures After(s, steps).fired == []
    decreases |steps|
  {
    if steps != [] {
      var s' := Apply(s, steps[0]);
      DoneStays(s, steps[0]);
      KindStays(s, steps[0]);
      if IsCoordStep(steps[0]) {
        WinnerShape(s, steps[0]);
      }
      NeverFiresStays(s', steps[1..]);
    }
  }

  /** A run-once job whose misfire is skipped never gets a tick run, whatever happens afterwards, if only upserts
      write the row back with its columns current. */
  lemma SkippedRunOnceNeverFires(s: State, c: Id, steps: seq<Step>)
    requires OnceInv(s) && !Done(s) && At(s, c).Skipping?
    requires Feasible(Apply(s, MarkSkipped(c)), steps) && Lawful(Careful(false), Apply(s, MarkSkipped(c)), steps)
    ensures After(Apply(s, MarkSkipped(c)), steps).fired == []
  {
    var s' := Apply(s, MarkSkipped(c));
    assert c in s.coords && Inside(s.coords[c]);
    forall d | d in s.coords && (s.coords[d].Fired? || s.coords[d].OnceClaimed?) ensures d == c {
      assert Inside(s.coords[d]);
    }
    KindStays(s, MarkSkipped(c));
    NeverFiresStays(s', steps);
  }

  // ---- what a tick creates ----------------------------------------------------------------------

  /** A tick's run snapshots the row that was loaded: from its due time on, exactly the job's pool can claim it. */
  lemma TickRunIsClaimable(s: State, c: Id, runId: Id)
    requires Enabled(s, Fire(c, runId))
    ensures var run, job := Apply(s, Fire(c, runId)).runs[runId], At(s, c).job;
            && run.runId == runId && run.jobId == Some(job.jobId) && run.scriptName == job.scriptName
            && run.actorJson == job.actorJson && run.paramsJson == job.paramsJson && run.attempt == 1
            && run.scheduledFor == (if job.nextRunAt.Some? then job.nextRunAt.value else At(s, c).now)
            && forall pool, t :: Claimable(run, pool, t) <==> pool == ExecutionPool(job) && run.scheduledFor <= t
  {
    var run, job := Apply(s, Fire(c, runId)).runs[runId], At(s, c).job;
    forall pool, t ensures Claimable(run, pool, t) <==> pool == ExecutionPool(job) && run.scheduledFor <= t {
      PoolTestIsQueueKey(run.poolId, pool);
    }
  }

  // ---- the run-once claim -----------------------------------------------------------------------

  predicate HoldsOnce(p: Coord) {
    p.OnceClaimed? || p.Fired? || p.Undoing?
  }

  /** A run-once claim on the row belongs to a coordinator that is still inside and will clear it. */
  predicate HolderInv(s: State) {
    && (forall c :: c in s.coords && s.coords[c].OnceClaimed? ==> s.coords[c].job.scheduleKind == RunOnce)
    && (s.job.Some? && s.job.value.runOnceClaimedBy.Some? ==> HoldsOnce(At(s, s.job.value.runOnceClaimedBy.value)))
  }

  /** A step takes the claim only for its own coordinator, and gives up holding it only by clearing it. */
  lemma HolderShape(s: State, step: Step)
    requires HolderInv(s) && Enabled(s, step) && IsCoordStep(step)
    ensures var s' := Apply(s, step);
            var p, p' := At(s, step.c), At(s', step.c);
            && s'.coords == s.coords[step.c := p']
            && (p'.OnceClaimed? ==> p'.job.scheduleKind == RunOnce)
            && (s'.job.Some? && s'.job.value.runOnceClaimedBy == Some(step.c) ==> HoldsOnce(p'))
            && (s'.job.Some? && s'.job.value.runOnceClaimedBy.Some?
                && s'.job.value.runOnceClaimedBy != Some(step.c) ==>
                  s.job.Some? && s'.job.value.runOnceClaimedBy == s.job.value.runOnceClaimedBy)
  {
    assert s.job.Some? && s.job.value.runOnceClaimedBy == Some(step.c) ==> HoldsOnce(At(s, step.c));
  }

  lemma StepKeepsHolder(s: State, step: Step)
    requires HolderInv(s) && Enabled(s, step) && Current(s, step)
    ensures HolderInv(Apply(s, step))
  {
    if IsCoordStep(step) {
      HolderShape(s, step);
      HolderFromMove(s, Apply(s, step), step.c, At(Apply(s, step), step.c));
    } else {
      OutsideKeepsHolder(s, step);
    }
  }

  lemma OutsideKeepsHolder(s: State, step: Step)
    requires HolderInv(s) && Enabled(s, step) && Current(s, step) && !IsCoordStep(step)
    ensures HolderInv(Apply(s, step))
  {}

  lemma HolderFromMove(s: State, s': State, c: Id, p': Coord)
    requires HolderInv(s) && s'.coords == s.coords[c := p'] && (p'.OnceClaimed? ==> p'.job.scheduleKind == RunOnce)
    requires s'.job.Some? && s'.job.value.runOnceClaimedBy == Some(c) ==> HoldsOnce(p')
    requires s'.job.Some? && s'.job.value.runOnceClaimedBy.Some? && s'.job.value.runOnceClaimedBy != Some(c) ==>
               s.job.Some? && s'.job.value.runOnceClaimedBy == s.job.value.runOnceClaimedBy
    ensures HolderInv(s')
  {}

  /** In every run, timely or not, a coordinator that is outside the section holds no run-once claim: whichever way
      it left, it cleared the claim it took. */
  lemma {:induction false} OutsideHoldsNoClaim(s: State, steps: seq<Step>, c: Id)
    requires HolderInv(s) && Feasible(s, steps) && WritesCurrent(s, steps) && !Inside(At(After(s, steps), c))
    ensures After(s, steps).job.Some? ==> After(s, steps).job.value.runOnceClaimedBy != Some(c)
    decreases |steps|
  {
    if steps != [] {
      StepKeepsHolder(s, steps[0]);
      OutsideHoldsNoClaim(Apply(s, steps[0]), steps[1..], c);
    }
  }
}
