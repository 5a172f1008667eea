/** Stretches of runs of the tick protocol, put together from the last step back to the first. */
module TickRuns {
  import opened Models
  import opened Collections
  import opened JobRules
  import opened TickProtocol
  import opened TickSafety

  // ---- one mover --------------------------------------------------------------------------------

  predicate NoGap(s: State) {
    !SomeSkipReleasing(s.coords)
  }

  lemma MoverKeepsGap(coords: Coords, c: Id, p: Coord)
    requires !SomeSkipReleasing(coords) && !p.SkipReleasing?
    ensures !SomeSkipReleasing(coords[c := p])
  {}

  lemma MoverIsTimely(s: State, c: Id, p: Coord)
    requires Timely(s) && (Inside(p) ==> s.clock <= p.until)
    ensures Timely(s.(coords := s.coords[c := p]))
  {}

  /** Entering is allowed: in the strict kinds of runs, not between a skip's two releases. */
  predicate MayEnter(rule: Rule, s: State) {
    rule.Orderly? || rule.Regular? ==> NoGap(s)
  }

  // ---- from the due list to the clock reading ---------------------------------------------------

  lemma ScanNow(rule: Rule, s: State, c: Id, lookahead: Time, s': State)
    requires Timely(s) && At(s, c).Out? && s.job.Some? && s.job.value.nextRunAt.Some?
    requires 0 <= lookahead && s.job.value.nextRunAt.value <= s.clock + lookahead
    requires rule.Regular? ==> lookahead <= rule.ahead
    requires Reached(rule, Become(s, c, Started(s.clock)), s')
    ensures Reached(rule, s, s')
  {
    var s1 := Become(s, c, Listed(s.clock + lookahead));
    assert Apply(s, Scan(c, lookahead)) == s1;
    assert Apply(s1, Begin(c)) == Become(s, c, Started(s.clock)) by {
      assert s1.coords[c := Started(s.clock)] == s.coords[c := Started(s.clock)];
    }
    MoverIsTimely(s, c, Listed(s.clock + lookahead));
    StepFirst(rule, s1, Begin(c), s');
    StepFirst(rule, s, Scan(c, lookahead), s');
  }

  lemma PassTo(rule: Rule, s: State, to: Time, s': State)
    requires Timely(s) && s.clock <= to && Reached(rule, s.(clock := to), s')
    ensures Reached(rule, s, s')
  {
    assert Apply(s, Advance(to)) == s.(clock := to);
    StepFirst(rule, s, Advance(to), s');
  }

  // ---- from the clock reading to the decision ---------------------------------------------------

  function Held(job: Job, now: Time): Job {
    ApplyOp(job, ClaimTick("c", now, 1))
  }

  function AtEntry(s: State, c: Id): State
    requires s.job.Some?
  {
    s.(job := Some(Held(s.job.value, s.clock)), coords := s.coords[c := Entered(s.clock, s.clock + Seconds(1))])
  }

  function AtCount(s: State, c: Id): State
    requires s.job.Some?
  {
    var row := Held(s.job.value, s.clock);
    s.(job := Some(row), coords := s.coords[c := Counted(s.clock, s.clock + Seconds(1), row)])
  }

  lemma EnterNow(rule: Rule, s: State, c: Id, s': State)
    requires Timely(s) && MayEnter(rule, s) && At(s, c) == Started(s.clock)
    requires s.job.Some? && TickClaimable(s.job.value, s.clock)
    requires Reached(rule, AtEntry(s, c), s')
    ensures Reached(rule, s, s')
  {
    assert Apply(s, Enter(c, "c", 1)) == AtEntry(s, c);
    StepFirst(rule, s, Enter(c, "c", 1), s');
  }

  /** The newest runs, at most the limit. */
  lemma {:induction false} ListingExists(runs: map<Id, Run>, k: nat) returns (listed: set<Id>)
    requires k <= |runs.Keys|
    ensures listed <= runs.Keys && |listed| == k
    ensures forall shown, hidden :: shown in listed && hidden in runs.Keys - listed ==>
              runs[hidden].scheduledFor <= runs[shown].scheduledFor
    decreases k
  {
    listed := {};
    if k > 0 {
      var before := ListingExists(runs, k - 1);
      SubsetSize(before, runs.Keys);
      var newest := NewestOf(runs, runs.Keys - before);
      listed := before + {newest};
    }
  }

  lemma {:induction false} NewestOf(runs: map<Id, Run>, among: set<Id>) returns (newest: Id)
    requires among != {} && among <= runs.Keys
    ensures newest in among && forall id :: id in among ==> runs[id].scheduledFor <= runs[newest].scheduledFor
    decreases |among|
  {
    newest :| newest in among;
    if among != {newest} {
      var other := NewestOf(runs, among - {newest});
      if runs[newest].scheduledFor < runs[other].scheduledFor {
        newest := other;
      }
    }
  }

  lemma CountSome(s: State, c: Id) returns (listed: set<Id>)
    requires At(s, c).Loaded? && |ActiveIds(s.runs)| < At(s, c).job.concurrency
    ensures Listing(s.runs, listed)
    ensures CountRuns(s, c, listed) == Become(s, c, Counted(At(s, c).now, At(s, c).until, At(s, c).job))
  {
    listed := ListingExists(s.runs, if |s.runs.Keys| <= LIST_LIMIT then |s.runs.Keys| else LIST_LIMIT);
    SubsetSize(ListedActive(s.runs, listed), ActiveIds(s.runs));
  }

  /** From the entry to the decision. */
  lemma CountFromEntry(rule: Rule, s: State, c: Id, s': State)
    requires Timely(s) && s.job.Some? && |ActiveIds(s.runs)| < s.job.value.concurrency
    requires Reached(rule, AtCount(s, c), s')
    ensures Reached(rule, AtEntry(s, c), s')
  {
    var row, until := Held(s.job.value, s.clock), s.clock + Seconds(1);
    var s1 := AtEntry(s, c);
    var s2 := s.(job := Some(row), coords := s.coords[c := Loaded(s.clock, until, row)]);
    MoverIsTimely(s, c, s1.coords[c]);
    MoverIsTimely(s, c, s2.coords[c]);
    assert s2.coords[c := Counted(s.clock, until, row)] == s.coords[c := Counted(s.clock, until, row)];
    CountLoaded(rule, s2, c, s');
    assert LoadJob(s1, c) == s2 by { assert s1.coords[c := s2.coords[c]] == s2.coords; }
    StepFirst(rule, s1, Load(c), s');
  }

  lemma CountLoaded(rule: Rule, s: State, c: Id, s': State)
    requires Timely(s) && At(s, c).Loaded? && |ActiveIds(s.runs)| < At(s, c).job.concurrency
    requires Reached(rule, Become(s, c, Counted(At(s, c).now, At(s, c).until, At(s, c).job)), s')
    ensures Reached(rule, s, s')
  {
    var listed := CountSome(s, c);
    StepFirst(rule, s, Count(c, listed), s');
  }

  lemma CountNow(rule: Rule, s: State, c: Id, s': State)
    requires Timely(s) && MayEnter(rule, s) && At(s, c) == Started(s.clock)
    requires s.job.Some? && TickClaimable(s.job.value, s.clock) && |ActiveIds(s.runs)| < s.job.value.concurrency
    requires Reached(rule, AtCount(s, c), s')
    ensures Reached(rule, s, s')
  {
    CountFromEntry(rule, s, c, s');
    EnterNow(rule, s, c, s');
  }

  // ---- from the decision to the end -------------------------------------------------------------

  /** The run is created, and the next fire is about to be written. */
  function AtFire(s: State, c: Id, runId: Id): State
    requires s.job.Some?
  {
    var row := Held(s.job.value, s.clock);
    var p := Counted(s.clock, s.clock + Seconds(1), row);
    s.(job := Some(row), runs := s.runs[runId := TickRun(p, runId)],
       fired := s.fired + [ScheduledFor(row, s.clock)], coords := s.coords[c := Advancing(p.now, p.until, row)])
  }

  /** A cron job's row from the clock reading to the created run. */
  lemma FireNow(rule: Rule, s: State, c: Id, runId: Id, s': State)
    requires Timely(s) && MayEnter(rule, s) && At(s, c) == Started(s.clock) && runId !in s.runs
    requires s.job.Some? && TickClaimable(s.job.value, s.clock) && |ActiveIds(s.runs)| < s.job.value.concurrency
    requires s.job.value.scheduleKind == Cron && s.job.value.nextRunAt.Some? && Enqueues(s.job.value, s.clock)
    requires rule.Regular? && rule.punctual ==> s.job.value.nextRunAt.value <= s.clock
    requires Reached(rule, AtFire(s, c, runId), s')
    ensures Reached(rule, s, s')
  {
    var s3 := AtCount(s, c);
    assert Apply(s3, Fire(c, runId)) == AtFire(s, c, runId) by {
      assert s3.coords[c := AtFire(s, c, runId).coords[c]] == AtFire(s, c, runId).coords;
    }
    MoverIsTimely(s, c, s3.coords[c]);
    StepFirst(rule, s3, Fire(c, runId), s');
    CountNow(rule, s, c, s');
  }

  function Persisted(s: State, c: Id, next: Time): State
    requires s.job.Some?
  {
    s.(job := Some(ApplyOp(s.job.value, PersistPostTick(Some(next), s.clock))), coords := s.coords[c := Out])
  }

  /** From the created run to the next fire written back. */
  lemma PersistNow(rule: Rule, s: State, c: Id, next: Time, s': State)
    requires Timely(s) && At(s, c).Advancing? && At(s, c).job.scheduleKind == Cron && s.job.Some?
    requires next > At(s, c).now && (rule.Regular? ==> IsNextFire(rule.fires, At(s, c).now, next))
    requires Reached(rule, Persisted(s, c, next), s')
    ensures Reached(rule, s, s')
  {
    StepFirst(rule, s, Persist(c, Some(next)), s');
  }

  /** A run ends well. */
  function Ended(s: State, runId: Id): State
    requires runId in s.runs
  {
    s.(runs := s.runs[runId := s.runs[runId].(status := Success)])
  }

  lemma EndRun(rule: Rule, s: State, runId: Id, s': State)
    requires Timely(s) && runId in s.runs && s.runs[runId].runId == runId && Reached(rule, Ended(s, runId), s')
    ensures Reached(rule, s, s')
  {
    StepFirst(rule, s, RunChanges(s.runs[runId].(status := Success)), s');
  }

  /** Once the run that a tick created has ended, as many runs are active as before. */
  lemma EndedLeavesRoom(runs: map<Id, Run>, runId: Id, run: Run)
    requires runId !in runs
    ensures ActiveIds(runs[runId := run][runId := run.(status := Success)]) == ActiveIds(runs)
  {}

  // ---- a misfire skip ---------------------------------------------------------------------------

  /** The row after a skip, for the row read at `now`. */
  function SkippedRow(job: Job, now: Time, next: Option<Time>): Job {
    var row := Held(job, now);
    ApplyOp(if job.scheduleKind == RunOnce then ApplyOp(row, CompleteRunOnce(now, now)) else row,
            PersistPostTick(next, now))
  }

  /** Between the two releases of a skip. */
  function InGap(s: State, c: Id, next: Option<Time>): State
    requires s.job.Some?
  {
    s.(job := Some(SkippedRow(s.job.value, s.clock, next)), coords := s.coords[c := SkipReleasing])
  }

  lemma SkipNow(rule: Rule, s: State, c: Id, next: Option<Time>, s': State)
    requires Timely(s) && MayEnter(rule, s) && At(s, c) == Started(s.clock)
    requires s.job.Some? && TickClaimable(s.job.value, s.clock) && |ActiveIds(s.runs)| < s.job.value.concurrency
    requires !Enqueues(s.job.value, s.clock) && NextFire(s.job.value, s.clock, next)
    requires rule.Regular? ==> FollowsSchedule(rule.fires, s.clock, next)
    requires Reached(rule, InGap(s, c, next), s')
    ensures Reached(rule, s, s')
  {
    SkipFromCount(rule, s, c, next, s');
    CountNow(rule, s, c, s');
  }

  /** From the decision to the gap. */
  lemma SkipFromCount(rule: Rule, s: State, c: Id, next: Option<Time>, s': State)
    requires Timely(s) && s.job.Some? && !Enqueues(s.job.value, s.clock) && NextFire(s.job.value, s.clock, next)
    requires rule.Regular? ==> FollowsSchedule(rule.fires, s.clock, next)
    requires Reached(rule, InGap(s, c, next), s')
    ensures Reached(rule, AtCount(s, c), s')
  {
    var row, until := Held(s.job.value, s.clock), s.clock + Seconds(1);
    var marked := if row.scheduleKind == RunOnce then ApplyOp(row, CompleteRunOnce(s.clock, s.clock)) else row;
    var s5 := s.(job := Some(marked), coords := s.coords[c := SkipAdvancing(s.clock, until, row)]);
    MoverIsTimely(s, c, s5.coords[c]);
    assert s5.coords[c := SkipReleasing] == s.coords[c := SkipReleasing];
    PersistSkipNow(rule, s5, c, next, s');
    SkipMarked(rule, s, c, s');
  }

  lemma PersistSkipNow(rule: Rule, s: State, c: Id, next: Option<Time>, s': State)
    requires Timely(s) && At(s, c).SkipAdvancing? && s.job.Some? && NextFire(At(s, c).job, At(s, c).now, next)
    requires rule.Regular? ==> FollowsSchedule(rule.fires, At(s, c).now, next)
    requires Reached(rule, s.(job := Some(ApplyOp(s.job.value, PersistPostTick(next, s.clock))),
                              coords := s.coords[c := SkipReleasing]), s')
    ensures Reached(rule, s, s')
  {
    StepFirst(rule, s, PersistSkip(c, next), s');
  }

  /** From the decision to skip to the write of the next fire. */
  lemma SkipMarked(rule: Rule, s: State, c: Id, s': State)
    requires Timely(s) && s.job.Some? && !Enqueues(s.job.value, s.clock)
    requires var row := Held(s.job.value, s.clock);
             var marked := if row.scheduleKind == RunOnce then ApplyOp(row, CompleteRunOnce(s.clock, s.clock)) else row;
             Reached(rule, s.(job := Some(marked),
                              coords := s.coords[c := SkipAdvancing(s.clock, s.clock + Seconds(1), row)]), s')
    ensures Reached(rule, AtCount(s, c), s')
  {
    var row, until := Held(s.job.value, s.clock), s.clock + Seconds(1);
    var s3 := AtCount(s, c);
    MoverIsTimely(s, c, s3.coords[c]);
    if row.scheduleKind == RunOnce {
      var s4 := s.(job := Some(row), coords := s.coords[c := Skipping(s.clock, until, row)]);
      MoverIsTimely(s, c, s4.coords[c]);
      assert SkipDecided(s3, c) == s4 by { assert s3.coords[c := s4.coords[c]] == s4.coords; }
      assert s4.coords[c := SkipAdvancing(s.clock, until, row)] == s.coords[c := SkipAdvancing(s.clock, until, row)];
      StepFirst(rule, s4, MarkSkipped(c), s');
    } else {
      assert s3.coords[c := SkipAdvancing(s.clock, until, row)] == s.coords[c := SkipAdvancing(s.clock, until, row)];
    }
    StepFirst(rule, s3, DecideSkip(c), s');
  }
}
