/** When a cron fire can repeat: the exact condition on a fire about to be enqueued, and how early fires come about. */
module CronLimits {
  import opened Models
  import opened JobRules
  import opened TickProtocol
  import opened TickSafety
  import opened TickRuns
  import opened CronSafety

  lemma {:induction false} RegularIsPunctual(fires: iset<Time>, ahead: Time, s: State, steps: seq<Step>)
    requires Feasible(s, steps) && Lawful(Regular(fires, ahead, true), s, steps)
    ensures Lawful(Orderly, s, steps) && Punctual(s, steps)
    decreases |steps|
  {
    if steps != [] {
      RegularIsPunctual(fires, ahead, Apply(s, steps[0]), steps[1..]);
    }
  }

  /** A schedule that has some fire after `now` has a first one. */
  lemma {:induction false} FirstFire(fires: iset<Time>, now: Time, some: Time) returns (next: Time)
    requires some in fires && some > now
    ensures IsNextFire(fires, now, next) && next <= some
    decreases some - now
  {
    if earlier :| earlier in fires && now < earlier < some {
      next := FirstFire(fires, now, earlier);
    } else {
      next := some;
    }
  }

  // ---- one whole tick ---------------------------------------------------------------------------

  /** Nobody is inside, and the row is free with room for a run. */
  predicate Ready(s: State) {
    && Timely(s) && NoGap(s) && Empty(s.coords)
    && s.job.Some? && s.job.value.enabled && s.job.value.claimLeaseUntil.None? && s.job.value.scheduleKind == Cron
    && |ActiveIds(s.runs)| < s.job.value.concurrency
  }

  /** `c` has ticked, and the run it created has ended. */
  function Ticked(s: State, c: Id, runId: Id, next: Time): State
    requires s.job.Some?
  {
    TickRuns.Ended(Persisted(AtFire(s, c, runId), c, next), runId)
  }

  lemma TickedIsReady(s: State, c: Id, runId: Id, next: Time)
    requires Ready(s) && runId !in s.runs && s.job.value.nextRunAt.Some?
    ensures var s' := Ticked(s, c, runId, next);
            && Ready(s') && s'.clock == s.clock && s'.job.value.nextRunAt == Some(next)
            && s'.coords == s.coords[c := Out] && s'.runs.Keys == s.runs.Keys + {runId}
            && s'.fired == s.fired + [s.job.value.nextRunAt.value]
  {
    var s' := Ticked(s, c, runId, next);
    assert s'.coords == s.coords[c := Out];
    MoverKeepsGap(s.coords, c, Out);
    MoverIsTimely(s, c, Out);
    EndedLeavesRoom(s.runs, runId, AtFire(s, c, runId).runs[runId]);
    assert s'.runs == s.runs[runId := AtFire(s, c, runId).runs[runId]][runId := s'.runs[runId]];
  }

  /** From the clock reading to the end of the run. */
  lemma TickNow(rule: Rule, s: State, c: Id, runId: Id, next: Time, s': State)
    requires Ready(s) && At(s, c) == Started(s.clock) && runId !in s.runs
    requires s.job.value.nextRunAt.Some? && Enqueues(s.job.value, s.clock)
    requires rule.Regular? && IsNextFire(rule.fires, s.clock, next)
    requires rule.punctual ==> s.job.value.nextRunAt.value <= s.clock
    requires Reached(rule, Ticked(s, c, runId, next), s')
    ensures Reached(rule, s, s')
  {
    var s1 := AtFire(s, c, runId);
    var s2 := Persisted(s1, c, next);
    MoverIsTimely(s, c, s1.coords[c]);
    MoverIsTimely(s, c, Out);
    assert s2.coords == s.coords[c := Out];
    EndRun(rule, s2, runId, s');
    PersistNow(rule, s1, c, next, s');
    FireNow(rule, s, c, runId, s');
  }

  /** A tick at `to`, when the pending fire has come and the gate lets it through. */
  lemma TickAt(rule: Rule, s: State, c: Id, runId: Id, to: Time) returns (s': State)
    requires Ready(s) && At(s, c).Out? && runId !in s.runs && rule.Regular? && rule.ahead >= 0
    requires s.job.value.nextRunAt.Some? && s.clock <= to && s.job.value.nextRunAt.value <= to
    requires Enqueues(s.job.value, to)
    ensures Reached(rule, s, s') && s'.fired == s.fired + [s.job.value.nextRunAt.value]
  {
    var s1 := s.(clock := to);
    var s2 := Become(s1, c, Started(to));
    s' := AtFire(s2, c, runId);
    MoverKeepsGap(s1.coords, c, Started(to));
    MoverIsTimely(s1, c, Started(to));
    MoverIsTimely(s2, c, s'.coords[c]);
    Nowhere(rule, s');
    FireNow(rule, s2, c, runId, s');
    ScanNow(rule, s1, c, 0, s');
    PassTo(rule, s, to, s');
  }

  // ---- an early fire ----------------------------------------------------------------------------

  /** `c` is about to create the run of the pending fire. */
  predicate AboutTo(s: State, c: Id, runId: Id) {
    && TickersInv(s, NoFire) && Timely(s) && At(s, c).Counted? && runId !in s.runs
    && Enqueues(At(s, c).job, At(s, c).now) && At(s, c).job.nextRunAt.Some?
    && (s.job.Some? ==> |ActiveIds(s.runs)| < s.job.value.concurrency)
  }

  function Due(s: State, c: Id): Time
    requires At(s, c).Counted? && At(s, c).job.nextRunAt.Some?
  {
    At(s, c).job.nextRunAt.value
  }

  /** The state once the fire is written, the run has ended and the job is enabled. */
  function Settled(s: State, c: Id, runId: Id, next: Time): State
    requires AboutTo(s, c, runId) && s.job.Some?
  {
    var s2 := TickRuns.Ended(Persisted(RunCreated(s, c, runId), c, next), runId);
    s2.(job := Some(ApplyOp(s2.job.value, Resume(s.clock))))
  }

  lemma SettledRuns(s: State, c: Id, runId: Id, next: Time)
    requires AboutTo(s, c, runId) && s.job.Some?
    ensures var e := Settled(s, c, runId, next);
            ActiveIds(e.runs) == ActiveIds(s.runs) && e.runs.Keys == s.runs.Keys + {runId}
            && e.fired == s.fired + [Due(s, c)]
  {
    EndedLeavesRoom(s.runs, runId, RunCreated(s, c, runId).runs[runId]);
    var e := Settled(s, c, runId, next);
    assert e.runs == s.runs[runId := RunCreated(s, c, runId).runs[runId]][runId := e.runs[runId]];
  }

  lemma SettledIsReady(s: State, c: Id, runId: Id, next: Time)
    requires AboutTo(s, c, runId) && s.job.Some?
    ensures var e := Settled(s, c, runId, next);
            && Ready(e) && At(e, c).Out? && e.clock == s.clock && e.job.value.nextRunAt == Some(next)
            && e.job.value.misfirePolicy == s.job.value.misfirePolicy
            && e.runs.Keys == s.runs.Keys + {runId} && e.fired == s.fired + [Due(s, c)]
  {
    assert c in s.coords && Inside(s.coords[c]) && CopyAhead(s.coords[c], s.fired, NoFire);
    var e := Settled(s, c, runId, next);
    assert e.coords == s.coords[c := Out];
    MoverKeepsGap(s.coords, c, Out);
    MoverIsTimely(s, c, Out);
    SettledRuns(s, c, runId, next);
  }

  lemma ReachSettled(rule: Rule, s: State, c: Id, runId: Id, next: Time, s': State)
    requires AboutTo(s, c, runId) && s.job.Some? && rule.Regular? && IsNextFire(rule.fires, At(s, c).now, next)
    requires Reached(rule, Settled(s, c, runId, next), s')
    ensures Reached(rule, RunCreated(s, c, runId), s')
  {
    var s1 := RunCreated(s, c, runId);
    assert c in s.coords && Inside(s.coords[c]) && CopyAhead(s.coords[c], s.fired, NoFire);
    var s2 := Persisted(s1, c, next);
    var s3 := TickRuns.Ended(s2, runId);
    assert s2.coords == s.coords[c := Out];
    MoverIsTimely(s, c, Out);
    MoverIsTimely(s, c, s1.coords[c]);
    assert Apply(s3, SetEnabled(true)) == Settled(s, c, runId, next);
    StepFirst(rule, s3, SetEnabled(true), s');
    EndRun(rule, s2, runId, s');
    PersistNow(rule, s1, c, next, s');
  }

  /** `c` has skipped the pending fire, and the row is free again. */
  function SkippedOver(s: State, c: Id, next: Time): State
    requires s.job.Some?
  {
    var s2 := InGap(s, c, Some(next));
    s2.(job := Some(ApplyOp(s2.job.value, ReleaseTick(s.clock))), coords := s.coords[c := Out])
  }

  lemma SkippedOverIsReady(s: State, c: Id, next: Time)
    requires Ready(s)
    ensures var e := SkippedOver(s, c, next);
            && Ready(e) && At(e, c).Out? && e.clock == s.clock && e.job.value.nextRunAt == Some(next)
            && e.runs == s.runs && e.fired == s.fired
  {
    MoverKeepsGap(s.coords, c, Out);
    MoverIsTimely(s, c, Out);
  }

  lemma ReleaseGap(rule: Rule, s: State, c: Id, s': State)
    requires Timely(s) && At(s, c).SkipReleasing? && s.job.Some?
    requires var row := ApplyOp(s.job.value, ReleaseTick(s.clock));
             Reached(rule, s.(job := Some(row), coords := s.coords[c := Out]), s')
    ensures Reached(rule, s, s')
  {
    StepFirst(rule, s, ReleaseSkip(c), s');
  }

  lemma ReachSkippedOver(rule: Rule, s: State, c: Id, next: Time, s': State)
    requires Ready(s) && At(s, c).Out? && rule.Regular? && rule.ahead >= 0
    requires s.job.value.nextRunAt.Some? && s.job.value.nextRunAt.value <= s.clock && !Enqueues(s.job.value, s.clock)
    requires IsNextFire(rule.fires, s.clock, next) && Reached(rule, SkippedOver(s, c, next), s')
    ensures Reached(rule, s, s')
  {
    var s1 := Become(s, c, Started(s.clock));
    MoverKeepsGap(s.coords, c, Started(s.clock));
    MoverIsTimely(s, c, Started(s.clock));
    SkipAndRelease(rule, s1, c, next, s') by { assert s1.coords[c := Out] == s.coords[c := Out]; }
    ScanNow(rule, s, c, 0, s');
  }

  lemma SkipAndRelease(rule: Rule, s: State, c: Id, next: Time, s': State)
    requires Ready(s) && At(s, c) == Started(s.clock) && rule.Regular? && !Enqueues(s.job.value, s.clock)
    requires IsNextFire(rule.fires, s.clock, next) && Reached(rule, SkippedOver(s, c, next), s')
    ensures Reached(rule, s, s')
  {
    var s2 := InGap(s, c, Some(next));
    MoverIsTimely(s, c, SkipReleasing);
    assert s2.coords[c := Out] == s.coords[c := Out];
    ReleaseGap(rule, s2, c, s');
    SkipNow(rule, s, c, Some(next), s');
  }

  /** The gate is shut for the pending fire: a tick skips it, and the next one fires. */
  lemma SkipThenTick(rule: Rule, s: State, c: Id, runId: Id, next: Time) returns (s': State)
    requires Ready(s) && At(s, c).Out? && runId !in s.runs && rule.Regular? && rule.ahead >= 0
    requires s.job.value.nextRunAt.Some? && s.job.value.nextRunAt.value <= s.clock && !Enqueues(s.job.value, s.clock)
    requires IsNextFire(rule.fires, s.clock, next)
    ensures Reached(rule, s, s') && s'.fired == s.fired + [next]
  {
    SkippedOverIsReady(s, c, next);
    s' := TickAt(rule, SkippedOver(s, c, next), c, runId, next);
    ReachSkippedOver(rule, s, c, next, s');
  }

  /** The fire came due while the attempt was under way, and the schedule's next fire, which will be written back, is
      so late already that the misfire gate refuses it. */
  ghost predicate Overtaken(fires: iset<Time>, s: State, c: Id)
    requires At(s, c).Counted? && At(s, c).job.nextRunAt.Some? && s.job.Some?
  {
    && Due(s, c) <= s.clock
    && forall next :: IsNextFire(fires, At(s, c).now, next) ==>
         !ShouldEnqueueForMisfire(next, s.clock, s.job.value.misfirePolicy)
  }

  /** After an early fire that was not overtaken, a punctual tick fires an instant that is no later. */
  lemma EarlyFireRepeats(fires: iset<Time>, ahead: Time, s: State, c: Id, runId: Id, another: Id)
    returns (s': State, repeated: Time)
    requires AboutTo(s, c, runId) && another !in s.runs && another != runId && ahead >= 0
    requires s.job.Some? && Due(s, c) in fires && Due(s, c) > At(s, c).now && !Overtaken(fires, s, c)
    ensures Reached(Regular(fires, ahead, true), RunCreated(s, c, runId), s')
    ensures s'.fired == s.fired + [Due(s, c), repeated] && repeated <= Due(s, c)
  {
    var rule := Regular(fires, ahead, true);
    var next := FirstFire(fires, At(s, c).now, Due(s, c));
    var e := Settled(s, c, runId, next);
    SettledIsReady(s, c, runId, next);
    var to := if next < s.clock then s.clock else next;
    if Enqueues(e.job.value, to) {
      s' := TickAt(rule, e, c, another, to);
      repeated := next;
    } else {
      OvertakenOnly(fires, s, c, next);
      repeated := FirstFire(fires, s.clock, Due(s, c));
      s' := SkipThenTick(rule, e, c, another, repeated);
    }
    ReachSettled(rule, s, c, runId, next, s');
    assert s.fired + [Due(s, c)] + [repeated] == s.fired + [Due(s, c), repeated];
  }

  /** With the gate shut for `next`, not overtaken means that the fire still lies ahead. */
  lemma OvertakenOnly(fires: iset<Time>, s: State, c: Id, next: Time)
    requires At(s, c).Counted? && At(s, c).job.nextRunAt.Some? && s.job.Some? && !Overtaken(fires, s, c)
    requires IsNextFire(fires, At(s, c).now, next)
    requires !ShouldEnqueueForMisfire(next, s.clock, s.job.value.misfirePolicy)
    ensures Due(s, c) > s.clock
  {
    forall other | IsNextFire(fires, At(s, c).now, other) ensures other == next {}
  }

  // ---- a deleted row ----------------------------------------------------------------------------

  predicate NothingLoaded(s: State) {
    s.job.None? && forall c :: c in s.coords ==>
      !s.coords[c].Loaded? && !s.coords[c].Counted? && !s.coords[c].OnceClaimed?
  }

  lemma NothingLoadedStays(s: State, step: Step)
    requires NothingLoaded(s) && Enabled(s, step) && !step.WriteRow?
    ensures NothingLoaded(Apply(s, step)) && Apply(s, step).fired == s.fired
  {}

  lemma {:induction false} DeletedRowNeverFires(s: State, steps: seq<Step>)
    requires NothingLoaded(s) && Feasible(s, steps) && Punctual(s, steps)
    ensures After(s, steps).fired == s.fired
    decreases |steps|
  {
    if steps != [] {
      NothingLoadedStays(s, steps[0]);
      DeletedRowNeverFires(Apply(s, steps[0]), steps[1..]);
    }
  }

  // ---- an overtaken fire ------------------------------------------------------------------------

  /** `c` has fired early and has not written the next fire yet; everybody else reads the clock from `since` on. */
  predicate BeforeWrite(s: State, c: Id, now: Time, fired: seq<Time>, policy: MisfirePolicy, since: Time) {
    && SectionInv(s) && since <= s.clock && s.fired == fired
    && At(s, c).Advancing? && At(s, c).now == now && At(s, c).job.scheduleKind == Cron
    && (s.job.Some? ==> s.job.value.scheduleKind == Cron && s.job.value.misfirePolicy == policy)
    && forall d :: d in s.coords && d != c ==>
         !Inside(s.coords[d]) && (s.coords[d].Started? ==> since <= s.coords[d].now)
  }

  /** Somebody else's step changes none of that: nobody else can be inside. */
  lemma OthersWait(s: State, step: Step, c: Id, now: Time, fired: seq<Time>, policy: MisfirePolicy, since: Time)
    requires BeforeWrite(s, c, now, fired, policy, since) && Timely(s) && Enabled(s, step)
    requires EntersAlone(s, step) && !step.WriteRow? && !(IsCoordStep(step) && step.c == c)
    ensures BeforeWrite(Apply(s, step), c, now, fired, policy, since)
  {
    StepKeepsSection(s, step);
    assert Inside(At(s, c));
    if IsCoordStep(step) {
      OtherMoves(s, step);
      RowShape(s, step);
    } else {
      OutsideMoves(s, step);
    }
  }

  lemma OtherMoves(s: State, step: Step)
    requires Enabled(s, step) && IsCoordStep(step) && !Inside(At(s, step.c))
    ensures var s' := Apply(s, step);
            && s'.coords == s.coords[step.c := At(s', step.c)] && s'.fired == s.fired && s'.clock == s.clock
            && (At(s', step.c).Started? ==> At(s', step.c).now == s.clock)
  {}

  lemma OutsideMoves(s: State, step: Step)
    requires Enabled(s, step) && !IsCoordStep(step) && !step.WriteRow?
    ensures var s' := Apply(s, step);
            && s'.coords == s.coords && s'.fired == s.fired && s.clock <= s'.clock
            && (s'.job.Some? ==> && s.job.Some? && s'.job.value.scheduleKind == s.job.value.scheduleKind
                                 && s'.job.value.misfirePolicy == s.job.value.misfirePolicy)
  {}

  /** `c` writes the refused fire back, and from then on every fire is ahead or refused. */
  lemma WriteIsRefused(s: State, step: Step, c: Id, now: Time, fired: seq<Time>, policy: MisfirePolicy, since: Time,
                       fires: iset<Time>, next: Time)
    requires BeforeWrite(s, c, now, fired, policy, since) && Timely(s) && Enabled(s, step)
    requires EntersAlone(s, step) && IsCoordStep(step) && step.c == c
    requires step.Persist? ==> FollowsSchedule(fires, now, step.next)
    requires IsNextFire(fires, now, next) && !ShouldEnqueueForMisfire(next, since, policy)
    requires Increasing(fired) && AllAtMost(fired, since)
    ensures TickersInv(Apply(s, step), OverdueFire(next, since))
  {
    StepKeepsSection(s, step);
    assert step.Persist? && step.next == Some(next);
    var s' := Apply(s, step);
    assert s'.coords == s.coords[c := Out];
  }

  lemma {:induction false} OvertakenStaysSafe(s: State, steps: seq<Step>, c: Id, now: Time, fired: seq<Time>,
                                              policy: MisfirePolicy, since: Time, fires: iset<Time>, ahead: Time,
                                              next: Time)
    requires BeforeWrite(s, c, now, fired, policy, since) && Feasible(s, steps)
    requires Lawful(Regular(fires, ahead, true), s, steps)
    requires IsNextFire(fires, now, next) && !ShouldEnqueueForMisfire(next, since, policy)
    requires Increasing(fired) && AllAtMost(fired, since)
    ensures Increasing(After(s, steps).fired)
    decreases |steps|
  {
    if steps != [] {
      var step, s' := steps[0], Apply(s, steps[0]);
      if IsCoordStep(step) && step.c == c {
        WriteIsRefused(s, step, c, now, fired, policy, since, fires, next);
        RegularIsPunctual(fires, ahead, s', steps[1..]);
        PunctualFiresIncrease(s', steps[1..], OverdueFire(next, since));
      } else {
        OthersWait(s, step, c, now, fired, policy, since);
        OvertakenStaysSafe(s', steps[1..], c, now, fired, policy, since, fires, ahead, next);
      }
    }
  }

  // ---- the exact condition ----------------------------------------------------------------------

  /** Nobody else goes by a clock reading from before now. */
  predicate ReadsAreFresh(s: State, c: Id) {
    forall d :: d in s.coords && d != c && s.coords[d].Started? ==> s.clock <= s.coords[d].now
  }

  ghost predicate Safe(fires: iset<Time>, ahead: Time, s: State) {
    forall s' :: Reached(Regular(fires, ahead, true), s, s') ==> Increasing(s'.fired)
  }

  lemma FiredIsIncreasing(s: State, c: Id, runId: Id)
    requires AboutTo(s, c, runId)
    ensures Increasing(RunCreated(s, c, runId).fired)
    ensures forall x :: x in RunCreated(s, c, runId).fired ==> x <= Due(s, c)
  {
    assert c in s.coords && CopyAhead(s.coords[c], s.fired, NoFire);
    var due := Due(s, c);
    assert forall x :: x in s.fired + [due] <==> x in s.fired || x == due;
    forall i, j | 0 <= i < j < |s.fired + [due]| ensures (s.fired + [due])[i] < (s.fired + [due])[j] {
      assert (s.fired + [due])[i] == s.fired[i];
      assert s.fired[i] in s.fired;
    }
  }

  lemma OnTimeIsSafe(fires: iset<Time>, ahead: Time, s: State, c: Id, runId: Id)
    requires AboutTo(s, c, runId) && Due(s, c) <= At(s, c).now
    ensures Safe(fires, ahead, RunCreated(s, c, runId))
  {
    var s1 := RunCreated(s, c, runId);
    assert Apply(s, Fire(c, runId)) == s1;
    StepKeepsTickers(s, Fire(c, runId), NoFire);
    forall s' | Reached(Regular(fires, ahead, true), s1, s') ensures Increasing(s'.fired) {
      var steps :| Feasible(s1, steps) && Lawful(Regular(fires, ahead, true), s1, steps) && After(s1, steps) == s';
      RegularIsPunctual(fires, ahead, s1, steps);
      PunctualFiresIncrease(s1, steps, NoFire);
    }
  }

  lemma DeletedIsSafe(fires: iset<Time>, ahead: Time, s: State, c: Id, runId: Id)
    requires AboutTo(s, c, runId) && s.job.None?
    ensures Safe(fires, ahead, RunCreated(s, c, runId))
  {
    var s1 := RunCreated(s, c, runId);
    FiredIsIncreasing(s, c, runId);
    assert c in s.coords && Inside(s.coords[c]) && CopyAhead(s.coords[c], s.fired, NoFire);
    assert NothingLoaded(s1);
    forall s' | Reached(Regular(fires, ahead, true), s1, s') ensures Increasing(s'.fired) {
      var steps :| Feasible(s1, steps) && Lawful(Regular(fires, ahead, true), s1, steps) && After(s1, steps) == s';
      RegularIsPunctual(fires, ahead, s1, steps);
      DeletedRowNeverFires(s1, steps);
    }
  }

  lemma OvertakenIsSafe(fires: iset<Time>, ahead: Time, s: State, c: Id, runId: Id)
    requires AboutTo(s, c, runId) && s.job.Some? && Due(s, c) in fires && Due(s, c) > At(s, c).now
    requires Overtaken(fires, s, c) && ReadsAreFresh(s, c)
    ensures Safe(fires, ahead, RunCreated(s, c, runId))
  {
    var s1 := RunCreated(s, c, runId);
    var next := FirstFire(fires, At(s, c).now, Due(s, c));
    FiredIsIncreasing(s, c, runId);
    assert c in s.coords && Inside(s.coords[c]) && CopyAhead(s.coords[c], s.fired, NoFire);
    assert Apply(s, Fire(c, runId)) == s1;
    StepKeepsSection(s, Fire(c, runId));
    assert BeforeWrite(s1, c, At(s, c).now, s1.fired, s.job.value.misfirePolicy, s.clock);
    forall s' | Reached(Regular(fires, ahead, true), s1, s') ensures Increasing(s'.fired) {
      var steps :| Feasible(s1, steps) && Lawful(Regular(fires, ahead, true), s1, steps) && After(s1, steps) == s';
      OvertakenStaysSafe(s1, steps, c, At(s, c).now, s1.fired, s.job.value.misfirePolicy, s.clock, fires, ahead, next);
    }
  }

  /** A fire about to be enqueued is safe exactly when its time has come, or the row is gone, or it was overtaken. Then
      no timely continuation in which every later fire is punctual repeats or reorders an instant; otherwise one does,
      even without looking ahead. */
  lemma FireIsSafeIff(fires: iset<Time>, ahead: Time, s: State, c: Id, runId: Id, another: Id)
    requires AboutTo(s, c, runId) && another !in s.runs && another != runId && ahead >= 0 && Due(s, c) in fires
    requires s.job.Some? && Due(s, c) > At(s, c).now && Overtaken(fires, s, c) ==> ReadsAreFresh(s, c)
    ensures Safe(fires, ahead, RunCreated(s, c, runId))
            <==> Due(s, c) <= At(s, c).now || s.job.None? || Overtaken(fires, s, c)
  {
    if Due(s, c) <= At(s, c).now {
      OnTimeIsSafe(fires, ahead, s, c, runId);
    } else if s.job.None? {
      DeletedIsSafe(fires, ahead, s, c, runId);
    } else if Overtaken(fires, s, c) {
      OvertakenIsSafe(fires, ahead, s, c, runId);
    } else {
      var s', repeated := EarlyFireRepeats(fires, ahead, s, c, runId, another);
      var n := |s.fired|;
      assert s'.fired[n] == Due(s, c) && s'.fired[n + 1] == repeated;
    }
  }

  // ---- where early fires come from --------------------------------------------------------------

  /** A job with its first fire at `due`, on empty stores. */
  predicate CronJob(job: Job, due: Time) {
    && job.enabled && job.scheduleKind == Cron && job.claimLeaseUntil.None? && job.concurrency > 0
    && job.nextRunAt == Some(due)
  }

  function Begun(job: Job, clock: Time): State {
    State(clock, Some(job), map[], map[], [], map[])
  }

  /** Looking ahead: one coordinator that ticks twice before `due` enqueues it twice, whatever the job's concurrency. */
  lemma LookaheadFiresTwice(fires: iset<Time>, job: Job, now: Time, due: Time, ahead: Time)
    returns (s: State, s': State)
    requires CronJob(job, due) && IsNextFire(fires, now, due) && due <= now + ahead
    ensures Init(s) && s.job == Some(job) && Reached(Regular(fires, ahead, false), s, s') && s'.fired == [due, due]
  {
    var rule := Regular(fires, ahead, false);
    s := Begun(job, now);
    assert ActiveIds(s.runs) == {};
    var s1 := Become(s, "c", Started(now));
    var s2 := Ticked(s1, "c", "x", due);
    TickedIsReady(s1, "c", "x", due);
    var s3 := Become(s2, "c", Started(now));
    MoverKeepsGap(s2.coords, "c", Started(now));
    MoverIsTimely(s2, "c", Started(now));
    s' := Ticked(s3, "c", "y", due);
    TickedIsReady(s3, "c", "y", due);
    Nowhere(rule, s');
    TickNow(rule, s3, "c", "y", due, s');
    ScanNow(rule, s2, "c", ahead, s');
    TickNow(rule, s1, "c", "x", due, s');
    ScanNow(rule, s, "c", ahead, s');
  }

  /** Without looking ahead: a second ticker with a stale due list enqueues the next fire before its time, and when that
      time comes the instant fires again. */
  lemma StaleListFiresTwice(fires: iset<Time>, job: Job, now: Time, next: Time) returns (s: State, s': State)
    requires CronJob(job, now) && IsNextFire(fires, now, next)
    ensures Init(s) && s.job == Some(job) && Reached(Regular(fires, 0, false), s, s') && s'.fired == [now, next, next]
  {
    var rule := Regular(fires, 0, false);
    s := Begun(job, now);
    assert ActiveIds(s.runs) == {};
    var s1 := Become(s, "c", Started(now));
    var s2 := Become(s1, "d", Started(now));
    assert s2.coords == map["c" := Started(now), "d" := Started(now)];
    var s3 := Ticked(s2, "c", "x", next);
    TickedIsReady(s2, "c", "x", next);
    assert At(s3, "d") == Started(now);
    s' := StaleTickerFires(fires, s3, "c", "d", next, "y", "z");
    TickNow(rule, s2, "c", "x", next, s');
    ScanNow(rule, s1, "d", 0, s');
    ScanNow(rule, s, "c", 0, s');
  }

  /** `d` has read the clock, and the row's fire lies ahead: it fires now and once more when its time comes. */
  lemma StaleTickerFires(fires: iset<Time>, s: State, c: Id, d: Id, next: Time, y: Id, z: Id) returns (s': State)
    requires Ready(s) && c != d && At(s, c).Out? && At(s, d) == Started(s.clock)
    requires s.job.value.nextRunAt == Some(next) && IsNextFire(fires, s.clock, next)
    requires y !in s.runs && z !in s.runs && y != z
    ensures Reached(Regular(fires, 0, false), s, s') && s'.fired == s.fired + [next, next]
  {
    var rule := Regular(fires, 0, false);
    var s2 := Ticked(s, d, y, next);
    TickedIsReady(s, d, y, next);
    s' := TickAt(rule, s2, c, z, next);
    assert s.fired + [next] + [next] == s.fired + [next, next];
    TickNow(rule, s, d, y, next, s');
  }
}
