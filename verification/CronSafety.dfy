/** Cron fires: a lone ticker never fires the same instant twice, and when looking ahead would. */
module CronSafety {
  import opened Models
  import opened Collections
  import opened JobRules
  import opened TickProtocol
  import opened TickSafety

  predicate Increasing(times: seq<Time>) {
    forall i, j :: 0 <= i < j < |times| ==> times[i] < times[j]
  }

  predicate AllBelow(times: seq<Time>, t: Time) {
    forall x :: x in times ==> x < t
  }

  predicate AllAtMost(times: seq<Time>, t: Time) {
    forall x :: x in times ==> x <= t
  }

  /** A pending fire later than every earlier one and not later than `limit`. */
  predicate Pending(next: Option<Time>, fired: seq<Time>, limit: Time) {
    next.Some? && AllBelow(fired, next.value) && next.value <= limit
  }

  /** Where the lone ticker stands, the row it saw is the row there is, and its fire is due. */
  predicate TickerOk(s: State, p: Coord) {
    match p
    case Out => true
    case Listed(dueUntil) => dueUntil <= s.clock && (s.job.Some? ==> Pending(s.job.value.nextRunAt, s.fired, dueUntil))
    case Started(now) => now <= s.clock && (s.job.Some? ==> Pending(s.job.value.nextRunAt, s.fired, now))
    case Entered(now, _) => now <= s.clock && (s.job.Some? ==> Pending(s.job.value.nextRunAt, s.fired, now))
    case Loaded(now, _, job) => now <= s.clock && job.scheduleKind == Cron && Pending(job.nextRunAt, s.fired, now)
    case Counted(now, _, job) => now <= s.clock && job.scheduleKind == Cron && Pending(job.nextRunAt, s.fired, now)
    case SkipAdvancing(now, _, job) =>
      now <= s.clock && job.scheduleKind == Cron && Pending(job.nextRunAt, s.fired, now)
    case Advancing(now, _, job) => now <= s.clock && job.scheduleKind == Cron && AllAtMost(s.fired, now)
    case SkipReleasing => true
    case Leaving(_) => true
    case _ => false
  }

  predicate CronInv(s: State, c: Id) {
    && s.coords.Keys <= {c}
    && (s.job.Some? ==> s.job.value.scheduleKind == Cron)
    && Increasing(s.fired)
    && TickerOk(s, At(s, c))
    && (s.job.Some? && !At(s, c).Advancing? && s.job.value.nextRunAt.Some? ==>
          AllBelow(s.fired, s.job.value.nextRunAt.value))
  }

  /** One ticker, looking no further than now, and no upserts. */
  predicate Alone(step: Step, c: Id) {
    (IsCoordStep(step) ==> step.c == c) && (step.Scan? ==> step.lookahead == 0) && !step.WriteRow?
  }

  lemma FireKeepsCron(s: State, c: Id, runId: Id)
    requires CronInv(s, c) && MayFire(At(s, c)) && runId !in s.runs
    ensures CronInv(RunCreated(s, c, runId), c)
  {
    var p := At(s, c);
    var due := ScheduledFor(p.job, p.now);
    assert forall x :: x in s.fired + [due] <==> x in s.fired || x == due;
    forall i, j | 0 <= i < j < |s.fired + [due]| ensures (s.fired + [due])[i] < (s.fired + [due])[j] {
      assert (s.fired + [due])[i] == s.fired[i];
      assert s.fired[i] in s.fired;
    }
  }

  lemma StepKeepsCron(s: State, step: Step, c: Id)
    requires CronInv(s, c) && Enabled(s, step) && Alone(step, c)
    ensures CronInv(Apply(s, step), c)
  {
    if step.Fire? {
      FireKeepsCron(s, c, step.runId);
    } else {
      var s' := Apply(s, step);
      assert s'.fired == s.fired;
      QuietStepKeepsCron(s, step, c);
    }
  }

  lemma QuietStepKeepsCron(s: State, step: Step, c: Id)
    requires CronInv(s, c) && Enabled(s, step) && Alone(step, c) && !step.Fire?
    ensures CronInv(Apply(s, step), c)
  {
    if !IsCoordStep(step) {
      OutsideStepKeepsCron(s, step, c);
    } else if step.Scan? || step.Begin? || step.Enter? || step.Load? || step.Count? {
      EarlyStepKeepsCron(s, step, c);
    } else {
      LateStepKeepsCron(s, step, c);
    }
  }

  lemma OutsideStepKeepsCron(s: State, step: Step, c: Id)
    requires CronInv(s, c) && Enabled(s, step) && !IsCoordStep(step) && !step.WriteRow?
    ensures CronInv(Apply(s, step), c)
  {}

  lemma EarlyStepKeepsCron(s: State, step: Step, c: Id)
    requires CronInv(s, c) && Enabled(s, step) && Alone(step, c)
    requires step.Scan? || step.Begin? || step.Enter? || step.Load? || step.Count?
    ensures CronInv(Apply(s, step), c)
  {}

  lemma LateStepKeepsCron(s: State, step: Step, c: Id)
    requires CronInv(s, c) && Enabled(s, step) && Alone(step, c) && IsCoordStep(step)
    requires !(step.Scan? || step.Begin? || step.Enter? || step.Load? || step.Count? || step.Fire?)
    ensures CronInv(Apply(s, step), c)
  {}

  lemma {:induction false} RunKeepsCron(s: State, steps: seq<Step>, c: Id)
    requires CronInv(s, c) && Feasible(s, steps) && forall i :: 0 <= i < |steps| ==> Alone(steps[i], c)
    ensures CronInv(After(s, steps), c)
    decreases |steps|
  {
    if steps != [] {
      StepKeepsCron(s, steps[0], c);
      RunKeepsCron(Apply(s, steps[0]), steps[1..], c);
    }
  }

  /** Over every history of one ticker that does not look ahead, a cron job's fires strictly increase, across
      enqueues, failed enqueues, misfire skips and ticks blocked by the concurrency limit. */
  lemma {:induction false} CronFiresStrictlyIncrease(s: State, steps: seq<Step>, c: Id)
    requires Init(s) && s.job.Some? && s.job.value.scheduleKind == Cron
    requires Feasible(s, steps) && forall i :: 0 <= i < |steps| ==> Alone(steps[i], c)
    ensures Increasing(After(s, steps).fired)
  {
    RunKeepsCron(s, steps, c);
  }

  // ---- looking ahead ----------------------------------------------------------------------------

  /** After enqueueing the fire `due` at `now`, the recomputed next fire is a later one exactly when `due` had
      come; enqueued ahead of its time with no fire before it, `due` itself is next again. */
  lemma NextFireAdvancesIff(fires: iset<Time>, now: Time, due: Time, next: Time)
    requires due in fires && IsNextFire(fires, now, next)
    ensures next > due <==> due <= now
    ensures now < due && (forall f :: f in fires && f > now ==> due <= f) ==> next == due
  {}

  // ---- any number of tickers --------------------------------------------------------------------

  /** A fire that the misfire gate refuses from some time on; there may be none. */
  datatype Overdue = NoFire | OverdueFire(fire: Time, since: Time)

  predicate Refused(job: Job, overdue: Overdue) {
    && overdue.OverdueFire? && job.nextRunAt == Some(overdue.fire)
    && !ShouldEnqueueForMisfire(overdue.fire, overdue.since, job.misfirePolicy)
  }

  /** What the gate refuses, it refuses for good. */
  lemma GateStaysShut(fire: Time, since: Time, now: Time, policy: MisfirePolicy)
    requires since <= now && !ShouldEnqueueForMisfire(fire, since, policy)
    ensures !ShouldEnqueueForMisfire(fire, now, policy)
  {}

  predicate ReadsSince(now: Time, overdue: Overdue) {
    overdue.OverdueFire? ==> overdue.since <= now
  }

  /** The row's fire is later than every earlier one, or it is refused and nothing has fired since. */
  predicate NextAhead(job: Job, fired: seq<Time>, overdue: Overdue) {
    job.nextRunAt.Some? ==>
      AllBelow(fired, job.nextRunAt.value) || (Refused(job, overdue) && AllAtMost(fired, overdue.since))
  }

  /** A carried row is ahead of everything fired; whoever has fired or skipped has read the clock since. */
  predicate CopyAhead(p: Coord, fired: seq<Time>, overdue: Overdue) {
    match p
    case Started(now) => ReadsSince(now, overdue)
    case Entered(now, _) => ReadsSince(now, overdue)
    case Loaded(now, _, job) => job.scheduleKind == Cron && ReadsSince(now, overdue) && NextAhead(job, fired, overdue)
    case Counted(now, _, job) => job.scheduleKind == Cron && ReadsSince(now, overdue) && NextAhead(job, fired, overdue)
    case SkipAdvancing(now, _, job) => job.scheduleKind == Cron && AllAtMost(fired, now)
    case Advancing(now, _, job) => job.scheduleKind == Cron && AllAtMost(fired, now)
    case OnceClaimed(_, _, _) => false
    case Fired(_, _, _) => false
    case Skipping(_, _, _) => false
    case _ => true
  }

  predicate NobodyAdvancing(coords: Coords) {
    forall c :: c in coords ==> !coords[c].Advancing?
  }

  predicate TickersInv(s: State, overdue: Overdue) {
    && SectionInv(s) && ReadsSince(s.clock, overdue)
    && Increasing(s.fired)
    && (forall c :: c in s.coords ==> CopyAhead(s.coords[c], s.fired, overdue))
    && (s.job.Some? ==> s.job.value.scheduleKind == Cron)
    && (s.job.Some? && NobodyAdvancing(s.coords) ==> NextAhead(s.job.value, s.fired, overdue))
  }

  lemma FireKeepsTickers(s: State, c: Id, runId: Id, overdue: Overdue)
    requires TickersInv(s, overdue) && MayFire(At(s, c)) && OnTime(s, Fire(c, runId))
    ensures CopyAhead(At(RunCreated(s, c, runId), c), RunCreated(s, c, runId).fired, overdue)
    ensures Increasing(RunCreated(s, c, runId).fired)
    ensures forall d :: d in s.coords && d != c ==> CopyAhead(s.coords[d], RunCreated(s, c, runId).fired, overdue)
    ensures At(RunCreated(s, c, runId), c).Advancing?
  {
    var p := At(s, c);
    var due := ScheduledFor(p.job, p.now);
    assert c in s.coords && CopyAhead(p, s.fired, overdue) && Inside(p);
    if Refused(p.job, overdue) {
      GateStaysShut(overdue.fire, overdue.since, p.now, p.job.misfirePolicy);
    }
    assert forall x :: x in s.fired + [due] <==> x in s.fired || x == due;
    forall i, j | 0 <= i < j < |s.fired + [due]| ensures (s.fired + [due])[i] < (s.fired + [due])[j] {
      assert (s.fired + [due])[i] == s.fired[i];
      assert s.fired[i] in s.fired;
    }
  }

  /** A coordinator step that fires nothing keeps its copy and the row ahead. */
  lemma QuietCopy(s: State, step: Step, overdue: Overdue)
    requires TickersInv(s, overdue) && Enabled(s, step) && IsCoordStep(step) && !step.Fire?
    ensures var s' := Apply(s, step);
            && s'.fired == s.fired && s'.coords == s.coords[step.c := At(s', step.c)]
            && CopyAhead(At(s', step.c), s.fired, overdue) && !At(s', step.c).Advancing?
  {
    var p := At(s, step.c);
    assert CopyAhead(p, s.fired, overdue);
    if step.Load? {
      assert step.c in s.coords && Inside(s.coords[step.c]);
      assert NobodyAdvancing(s.coords);
    } else if step.DecideSkip? {
      assert p.job.nextRunAt.Some? && p.job.nextRunAt.value <= p.now;
    }
  }

  /** The row's next fire changes only when the one inside writes a later one. */
  lemma QuietRow(s: State, step: Step, overdue: Overdue)
    requires TickersInv(s, overdue) && Enabled(s, step) && !step.Fire? && !step.WriteRow?
    ensures var s' := Apply(s, step);
            s'.job.Some? ==>
              && s.job.Some? && s'.job.value.scheduleKind == Cron
              && if step.Persist? || step.PersistSkip? then NextAhead(s'.job.value, s.fired, NoFire)
                 else s'.job.value.nextRunAt == s.job.value.nextRunAt
                      && s'.job.value.misfirePolicy == s.job.value.misfirePolicy
  {
    if step.Persist? || step.PersistSkip? {
      assert CopyAhead(At(s, step.c), s.fired, overdue);
    }
  }

  lemma StepKeepsTickers(s: State, step: Step, overdue: Overdue)
    requires TickersInv(s, overdue) && Timely(s) && Enabled(s, step)
    requires EntersAlone(s, step) && OnTime(s, step) && !step.WriteRow?
    ensures TickersInv(Apply(s, step), overdue)
  {
    StepKeepsSection(s, step);
    if step.Fire? {
      FireKeepsTickers(s, step.c, step.runId, overdue);
    } else if IsCoordStep(step) {
      QuietRow(s, step, overdue);
      QuietCopy(s, step, overdue);
      AdvancerIsTheMover(s, step, overdue);
      TickersFromMove(s, Apply(s, step), step.c, At(Apply(s, step), step.c), overdue);
    } else {
      OutsideKeepsTickers(s, step, overdue);
    }
  }

  lemma OutsideKeepsTickers(s: State, step: Step, overdue: Overdue)
    requires TickersInv(s, overdue) && Enabled(s, step) && !IsCoordStep(step) && !step.WriteRow?
    requires SectionInv(Apply(s, step))
    ensures TickersInv(Apply(s, step), overdue)
  {
    QuietRow(s, step, overdue);
    assert Apply(s, step).coords == s.coords && Apply(s, step).fired == s.fired;
  }

  lemma TickersFromMove(s: State, s': State, c: Id, p': Coord, overdue: Overdue)
    requires TickersInv(s, overdue) && SectionInv(s') && s'.clock == s.clock
    requires s'.fired == s.fired && s'.coords == s.coords[c := p']
    requires CopyAhead(p', s.fired, overdue)
    requires s'.job.Some? ==> s'.job.value.scheduleKind == Cron
    requires s'.job.Some? && NobodyAdvancing(s'.coords) ==>
               NextAhead(s'.job.value, s.fired, NoFire)
               || (&& NobodyAdvancing(s.coords) && s.job.Some? && s'.job.value.nextRunAt == s.job.value.nextRunAt
                   && s'.job.value.misfirePolicy == s.job.value.misfirePolicy)
    ensures TickersInv(s', overdue)
  {}

  /** When a coordinator's step ends with nobody about to write a next fire, nobody else was before it. */
  lemma AdvancerIsTheMover(s: State, step: Step, overdue: Overdue)
    requires TickersInv(s, overdue) && Enabled(s, step) && IsCoordStep(step) && !step.Fire?
    requires Apply(s, step).coords == s.coords[step.c := At(Apply(s, step), step.c)]
    ensures NobodyAdvancing(Apply(s, step).coords) && !step.Persist? ==> NobodyAdvancing(s.coords)
    ensures Apply(s, step).clock == s.clock
  {
    var s' := Apply(s, step);
    if NobodyAdvancing(s'.coords) && !step.Persist? {
      assert !At(s, step.c).Advancing?;
      forall d | d in s.coords ensures !s.coords[d].Advancing? {
        assert d != step.c ==> s'.coords[d] == s.coords[d];
      }
    }
  }

  /** Every fire has come due, and no upsert writes the row. */
  ghost predicate Punctual(s: State, steps: seq<Step>)
    requires Feasible(s, steps)
    decreases |steps|
  {
    steps == [] || (OnTime(s, steps[0]) && !steps[0].WriteRow? && Punctual(Apply(s, steps[0]), steps[1..]))
  }

  /** For any number of tickers, looking ahead or not and acting on due lists however stale: if leases are given back
      in time and every fire has come due, the due times of a cron job's runs strictly increase. The row may start with
      a fire that is not ahead, if the misfire gate refuses it. */
  lemma {:induction false} PunctualFiresIncrease(s: State, steps: seq<Step>, overdue: Overdue)
    requires TickersInv(s, overdue) && Feasible(s, steps) && Lawful(Orderly, s, steps) && Punctual(s, steps)
    ensures TickersInv(After(s, steps), overdue) && Increasing(After(s, steps).fired)
    decreases |steps|
  {
    if steps != [] {
      StepKeepsTickers(s, steps[0], overdue);
      PunctualFiresIncrease(Apply(s, steps[0]), steps[1..], overdue);
    }
  }
}
