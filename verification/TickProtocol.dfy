/** Coordinators racing through `enqueue_due_job` for one job. Every step is one store call of one coordinator
    (or the local decision after it); due lists may be stale, and the job may be paused, deleted or upserted
    meanwhile. An upsert reads the row and writes the whole row back. */
module TickProtocol {
  import opened Models
  import opened JobRules

  const LIST_LIMIT: nat := 10_000

  /** Where a coordinator stands. `now` is read once per job, `until` is the end of its tick lease, `job` the
      row it loaded. */
  datatype Coord =
    | Out
    | Listed(dueUntil: Time)
    | Started(now: Time)
    | Entered(now: Time, until: Time)
    | Loaded(now: Time, until: Time, job: Job)
    | Counted(now: Time, until: Time, job: Job)
    | OnceClaimed(now: Time, until: Time, job: Job)
    | Fired(now: Time, until: Time, job: Job)
    | Advancing(now: Time, until: Time, job: Job)
    | Undoing(until: Time)
    | Skipping(now: Time, until: Time, job: Job)
    | SkipAdvancing(now: Time, until: Time, job: Job)
    | SkipReleasing
    | Leaving(until: Time)

  /** `fired` lists the due times of the runs the ticks have created, oldest first; `copies` holds the rows that
      upserts have read and may write back. */
  datatype State = State(clock: Time, job: Option<Job>, runs: map<Id, Run>, coords: map<Id, Coord>, fired: seq<Time>,
                         copies: map<Id, Job>)

  datatype Step =
    | Advance(to: Time)
    | Scan(c: Id, lookahead: Time)
    | Begin(c: Id)
    | Enter(c: Id, claimId: string, ttlSecs: int)
    | Load(c: Id)
    | Count(c: Id, listed: set<Id>)
    | DecideSkip(c: Id)
    | ClaimOnce(c: Id, ttlSecs: int)
    | Fire(c: Id, runId: Id)
    | FireFails(c: Id)
    | MarkFired(c: Id)
    | Persist(c: Id, next: Option<Time>)
    | UndoOnce(c: Id)
    | MarkSkipped(c: Id)
    | PersistSkip(c: Id, next: Option<Time>)
    | ReleaseSkip(c: Id)
    | Leave(c: Id)
    | SetEnabled(enabled: bool)
    | Delete
    | RunChanges(run: Run)
    | RunNow(run: Run)
    | ReadRow(editor: Id)
    | WriteRow(editor: Id, row: Job)

  function At(s: State, c: Id): Coord {
    if c in s.coords then s.coords[c] else Out
  }

  /** Between a successful tick claim and the call that gives the lease back. */
  predicate Inside(p: Coord) {
    p.Entered? || p.Loaded? || p.Counted? || p.OnceClaimed? || p.Fired? || p.Advancing? || p.Undoing?
    || p.Skipping? || p.SkipAdvancing? || p.Leaving?
  }

  /** The coordinator carries the row it loaded. */
  predicate Carries(p: Coord) {
    p.Loaded? || p.Counted? || p.OnceClaimed? || p.Fired? || p.Advancing? || p.Skipping? || p.SkipAdvancing?
  }

  function ScheduledFor(job: Job, now: Time): Time {
    if job.nextRunAt.Some? then job.nextRunAt.value else now
  }

  predicate Enqueues(job: Job, now: Time) {
    ShouldEnqueueForMisfire(ScheduledFor(job, now), now, job.misfirePolicy)
  }

  function ActiveIds(runs: map<Id, Run>): set<Id> {
    set id | id in runs && runs[id].status.Active()
  }

  /** The newest runs, at most the list limit; all of them when there are no more. */
  predicate Listing(runs: map<Id, Run>, listed: set<Id>) {
    && listed <= runs.Keys
    && |listed| == (if |runs.Keys| <= LIST_LIMIT then |runs.Keys| else LIST_LIMIT)
    && forall shown, hidden :: shown in listed && hidden in runs.Keys - listed ==>
         runs[hidden].scheduledFor <= runs[shown].scheduledFor
  }

  function ListedActive(runs: map<Id, Run>, listed: set<Id>): set<Id> {
    set id | id in listed && id in runs && runs[id].status.Active()
  }

  /** What the tick writes as the next fire: a cron job's strictly later one, or none. */
  predicate NextFire(job: Job, now: Time, next: Option<Time>) {
    if job.scheduleKind == Cron then next.Some? ==> next.value > now else next.None?
  }

  predicate MayFire(p: Coord) {
    || (p.Counted? && Enqueues(p.job, p.now) && p.job.scheduleKind != RunOnce)
    || p.OnceClaimed?
  }

  ghost predicate Enabled(s: State, step: Step) {
    match step
    case Advance(to) => s.clock <= to
    case Scan(c, lookahead) =>
      At(s, c).Out? && lookahead >= 0 && s.job.Some? && s.job.value.nextRunAt.Some?
      && s.job.value.nextRunAt.value <= s.clock + lookahead
    case Begin(c) => At(s, c).Listed?
    case Enter(c, _, ttlSecs) => At(s, c).Started? && ttlSecs >= 0
    case Load(c) => At(s, c).Entered?
    case Count(c, listed) => At(s, c).Loaded? && Listing(s.runs, listed)
    case DecideSkip(c) => At(s, c).Counted? && !Enqueues(At(s, c).job, At(s, c).now)
    case ClaimOnce(c, _) =>
      At(s, c).Counted? && Enqueues(At(s, c).job, At(s, c).now) && At(s, c).job.scheduleKind == RunOnce
    case Fire(c, runId) => MayFire(At(s, c)) && runId !in s.runs
    case FireFails(c) => MayFire(At(s, c))
    case MarkFired(c) => At(s, c).Fired?
    case Persist(c, next) => At(s, c).Advancing? && NextFire(At(s, c).job, At(s, c).now, next)
    case UndoOnce(c) => At(s, c).Undoing?
    case MarkSkipped(c) => At(s, c).Skipping?
    case PersistSkip(c, next) => At(s, c).SkipAdvancing? && NextFire(At(s, c).job, At(s, c).now, next)
    case ReleaseSkip(c) => At(s, c).SkipReleasing?
    case Leave(c) => At(s, c).Leaving?
    case SetEnabled(_) => true
    case Delete => true
    case RunChanges(run) =>
      run.runId in s.runs && (run.status.Active() ==> s.runs[run.runId].status.Active())
    case RunNow(run) => run.runId !in s.runs
    case ReadRow(_) => s.job.Some?
    case WriteRow(editor, row) => editor in s.copies && Edits(s.copies[editor], row)
  }

  /** The columns that no request sets, and that an upsert writes back as it read them. */
  predicate SameColumns(before: Job, after: Job) {
    && after.claimLeaseId == before.claimLeaseId && after.claimLeaseUntil == before.claimLeaseUntil
    && after.runOnceClaimedAt == before.runOnceClaimedAt && after.runOnceClaimedBy == before.runOnceClaimedBy
    && after.runOnceCompletedAt == before.runOnceCompletedAt
    && after.runOnceClaimExpiresAt == before.runOnceClaimExpiresAt
  }

  predicate Edits(before: Job, after: Job) {
    after.jobId == before.jobId && after.jobName == before.jobName && SameColumns(before, after)
  }

  function Become(s: State, c: Id, p: Coord): State {
    s.(coords := s.coords[c := p])
  }

  /** A store call on the job row; on a missing row it does nothing. */
  function Call(s: State, op: JobOp): State {
    if s.job.Some? then s.(job := Some(ApplyOp(s.job.value, op))) else s
  }

  function EnterSection(s: State, c: Id, claimId: string, ttlSecs: int): State
    requires At(s, c).Started?
  {
    var now := At(s, c).now;
    if s.job.Some? && TickClaimable(s.job.value, now) then
      Become(Call(s, ClaimTick(claimId, now, ttlSecs)), c, Entered(now, now + Seconds(ttlSecs)))
    else
      Become(s, c, Out)
  }

  function LoadJob(s: State, c: Id): State
    requires At(s, c).Entered?
  {
    var p := At(s, c);
    Become(s, c, if s.job.Some? then Loaded(p.now, p.until, s.job.value) else Leaving(p.until))
  }

  function CountRuns(s: State, c: Id, listed: set<Id>): State
    requires At(s, c).Loaded?
  {
    var p := At(s, c);
    Become(s, c, if |ListedActive(s.runs, listed)| >= p.job.concurrency then Leaving(p.until)
                 else Counted(p.now, p.until, p.job))
  }

  function SkipDecided(s: State, c: Id): State
    requires At(s, c).Counted?
  {
    var p := At(s, c);
    Become(s, c, if p.job.scheduleKind == RunOnce then Skipping(p.now, p.until, p.job)
                 else SkipAdvancing(p.now, p.until, p.job))
  }

  function OnceAttempted(s: State, c: Id, ttlSecs: int): State
    requires At(s, c).Counted?
  {
    var p := At(s, c);
    if s.job.Some? && RunOnceClaimable(s.job.value, c, p.now) then
      Become(Call(s, ClaimRunOnce(c, p.now, ttlSecs)), c, OnceClaimed(p.now, p.until, p.job))
    else
      Become(s, c, Leaving(p.until))
  }

  function TickRun(p: Coord, runId: Id): Run
    requires p.Counted? || p.OnceClaimed?
  {
    NewRun(runId, p.job.jobId, p.job.scriptName, ScheduledFor(p.job, p.now)).(
      actorJson := p.job.actorJson, paramsJson := p.job.paramsJson, poolId := Some(ExecutionPool(p.job)))
  }

  function RunCreated(s: State, c: Id, runId: Id): State
    requires At(s, c).Counted? || At(s, c).OnceClaimed?
  {
    var p := At(s, c);
    Become(s.(runs := s.runs[runId := TickRun(p, runId)], fired := s.fired + [ScheduledFor(p.job, p.now)]), c,
           if p.job.scheduleKind == RunOnce then Fired(p.now, p.until, p.job) else Advancing(p.now, p.until, p.job))
  }

  function CreateFailed(s: State, c: Id): State
    requires At(s, c).Counted? || At(s, c).OnceClaimed?
  {
    var p := At(s, c);
    Become(s, c, if p.job.scheduleKind == RunOnce then Undoing(p.until) else Leaving(p.until))
  }

  ghost function Apply(s: State, step: Step): State
    requires Enabled(s, step)
  {
    match step
    case Advance(to) => s.(clock := to)
    case Scan(c, lookahead) => Become(s, c, Listed(s.clock + lookahead))
    case Begin(c) => Become(s, c, Started(s.clock))
    case Enter(c, claimId, ttlSecs) => EnterSection(s, c, claimId, ttlSecs)
    case Load(c) => LoadJob(s, c)
    case Count(c, listed) => CountRuns(s, c, listed)
    case DecideSkip(c) => SkipDecided(s, c)
    case ClaimOnce(c, ttlSecs) => OnceAttempted(s, c, ttlSecs)
    case Fire(c, runId) => RunCreated(s, c, runId)
    case FireFails(c) => CreateFailed(s, c)
    case MarkFired(c) =>
      var p := At(s, c);
      Become(Call(s, CompleteRunOnce(s.clock, s.clock)), c, Advancing(p.now, p.until, p.job))
    case Persist(c, next) => Become(Call(s, PersistPostTick(next, s.clock)), c, Out)
    case UndoOnce(c) => Become(Call(s, ReleaseRunOnce(c, s.clock)), c, Leaving(At(s, c).until))
    case MarkSkipped(c) =>
      var p := At(s, c);
      Become(Call(s, CompleteRunOnce(p.now, s.clock)), c, SkipAdvancing(p.now, p.until, p.job))
    case PersistSkip(c, next) => Become(Call(s, PersistPostTick(next, s.clock)), c, SkipReleasing)
    case ReleaseSkip(c) => Become(Call(s, ReleaseTick(s.clock)), c, Out)
    case Leave(c) => Become(Call(s, ReleaseTick(s.clock)), c, Out)
    case SetEnabled(enabled) => Call(s, if enabled then Resume(s.clock) else Pause(s.clock))
    case Delete => s.(job := None)
    case RunChanges(run) => s.(runs := s.runs[run.runId := run])
    case RunNow(run) => s.(runs := s.runs[run.runId := run])
    case ReadRow(editor) => s.(copies := s.copies[editor := s.job.value])
    case WriteRow(_, row) => s.(job := Some(row))
  }

  ghost predicate Feasible(s: State, steps: seq<Step>)
    decreases |steps|
  {
    steps == [] || (Enabled(s, steps[0]) && Feasible(Apply(s, steps[0]), steps[1..]))
  }

  ghost function After(s: State, steps: seq<Step>): State
    requires Feasible(s, steps)
    decreases |steps|
  {
    if steps == [] then s else After(Apply(s, steps[0]), steps[1..])
  }

  /** Every coordinator gives its lease back no later than it ends. */
  predicate Timely(s: State) {
    forall c :: c in s.coords && Inside(s.coords[c]) ==> s.clock <= s.coords[c].until
  }

  /** Clock readings lie in the past. */
  predicate ClocksOk(s: State) {
    forall c :: c in s.coords && s.coords[c].Started? ==> s.coords[c].now <= s.clock
  }

  predicate Init(s: State) {
    s.coords == map[] && s.fired == [] && s.copies == map[]
  }

  // ---- kinds of runs ----------------------------------------------------------------------------

  /** `next` is the first fire of the schedule after `now`. */
  ghost predicate IsNextFire(fires: iset<Time>, now: Time, next: Time) {
    next in fires && next > now && forall f :: f in fires && f > now ==> next <= f
  }

  /** The next fire written back is the schedule's first one after the clock reading of the attempt. */
  ghost predicate FollowsSchedule(fires: iset<Time>, now: Time, next: Option<Time>) {
    match next
    case Some(t) => IsNextFire(fires, now, t)
    case None => forall f :: f in fires ==> f <= now
  }

  /** A fire is enqueued only when its time has come. */
  predicate OnTime(s: State, step: Step) {
    step.Fire? ==>
      Carries(At(s, step.c)) && At(s, step.c).job.nextRunAt.Some?
      && At(s, step.c).job.nextRunAt.value <= At(s, step.c).now
  }

  /** What a run may be asked for. All kinds are timely but the first and, if so said, a careful one.
      Steady: rows are written back with a lease that covers the one inside and with the misfire policy unchanged.
      Orderly: so they are, and nobody enters while a skip is between its two releases.
      Careful: rows are written back with their columns and schedule kind unchanged.
      Regular: no upserts, nobody enters between a skip's releases, look-ahead at most `ahead`, next fires from the
      schedule and, if `punctual`, no fire before its time. */
  datatype Rule =
    | Anyhow
    | InTime
    | Steady
    | Orderly
    | Careful(timely: bool)
    | Regular(fires: iset<Time>, ahead: Time, punctual: bool)

  predicate TimelyAs(rule: Rule, s: State) {
    rule.Anyhow? || (rule.Careful? && !rule.timely) || Timely(s)
  }

  ghost predicate Obeys(rule: Rule, s: State, step: Step) {
    match rule
    case Anyhow => true
    case InTime => true
    case Steady =>
      Shields(s, step)
      && (step.WriteRow? ==> s.job.Some? && step.row.misfirePolicy == s.job.value.misfirePolicy)
    case Orderly => EntersAlone(s, step) && Shields(s, step)
    case Careful(_) =>
      Current(s, step) && (step.WriteRow? ==> s.job.Some? && step.row.scheduleKind == s.job.value.scheduleKind)
    case Regular(fires, ahead, punctual) =>
      && EntersAlone(s, step) && !step.WriteRow?
      && (step.Scan? ==> step.lookahead <= ahead)
      && (step.Persist? && At(s, step.c).Advancing? ==> FollowsSchedule(fires, At(s, step.c).now, step.next))
      && (step.PersistSkip? && At(s, step.c).SkipAdvancing? ==> FollowsSchedule(fires, At(s, step.c).now, step.next))
      && (punctual ==> OnTime(s, step))
  }

  ghost predicate Lawful(rule: Rule, s: State, steps: seq<Step>)
    requires Feasible(s, steps)
    decreases |steps|
  {
    && TimelyAs(rule, s)
    && (steps == [] || (Obeys(rule, s, steps[0]) && Lawful(rule, Apply(s, steps[0]), steps[1..])))
  }

  /** A run of that kind leads there. */
  ghost predicate Reached(rule: Rule, s: State, s': State) {
    exists steps :: Feasible(s, steps) && Lawful(rule, s, steps) && After(s, steps) == s'
  }

  lemma Nowhere(rule: Rule, s: State)
    requires TimelyAs(rule, s)
    ensures Reached(rule, s, s)
  {
    assert Feasible(s, []) && Lawful(rule, s, []) && After(s, []) == s;
  }

  /** Runs are put together from the last step back to the first. */
  lemma StepFirst(rule: Rule, s: State, step: Step, s': State)
    requires Enabled(s, step) && TimelyAs(rule, s) && Obeys(rule, s, step)
    requires Reached(rule, Apply(s, step), s')
    ensures Reached(rule, s, s')
  {
    var s1 := Apply(s, step);
    var steps :| Feasible(s1, steps) && Lawful(rule, s1, steps) && After(s1, steps) == s';
    var all := [step] + steps;
    assert all[0] == step && all[1..] == steps;
    assert Feasible(s, all) && Lawful(rule, s, all) && After(s, all) == s';
  }

  // ---- mutual exclusion -------------------------------------------------------------------------

  type Coords = map<Id, Coord>

  /** The row's lease keeps everybody else out as long as `until` lasts. */
  predicate Covers(job: Job, until: Time) {
    job.claimLeaseUntil.Some? && job.claimLeaseUntil.value >= until
  }

  /** At most one coordinator is inside, and while the row exists its lease covers that coordinator's. */
  predicate Exclusive(job: Option<Job>, coords: Coords) {
    && (forall c, d :: c in coords && d in coords && Inside(coords[c]) && Inside(coords[d]) ==> c == d)
    && (forall c :: c in coords && Inside(coords[c]) && job.Some? ==> Covers(job.value, coords[c].until))
  }

  predicate Empty(coords: Coords) {
    forall c :: c in coords ==> !Inside(coords[c])
  }

  predicate SomeSkipReleasing(coords: Coords) {
    exists c :: c in coords && coords[c].SkipReleasing?
  }

  /** A misfire skip gives the lease back twice; the hypothesis is that nobody enters between the two. */
  predicate EntersAlone(s: State, step: Step) {
    step.Enter? ==> !SomeSkipReleasing(s.coords)
  }

  /** A row that is written back still covers the one inside. */
  predicate Shields(s: State, step: Step) {
    step.WriteRow? ==> forall c :: c in s.coords && Inside(s.coords[c]) ==> Covers(step.row, s.coords[c].until)
  }

  /** A row is written back over the row it was read from, and nothing happened to its columns meanwhile. */
  predicate Current(s: State, step: Step) {
    step.WriteRow? ==> s.job.Some? && SameColumns(s.job.value, step.row)
  }

  predicate SectionInv(s: State) {
    && Exclusive(s.job, s.coords)
    && (SomeSkipReleasing(s.coords) ==> Empty(s.coords))
    && ClocksOk(s)
  }

  predicate SameLease(job: Option<Job>, job': Option<Job>) {
    job'.Some? ==> && job.Some? && job'.value.claimLeaseUntil == job.value.claimLeaseUntil
                   && job'.value.claimLeaseId == job.value.claimLeaseId
  }

  /** The mover stays inside under its lease, or stays outside; the lease does not change. */
  lemma StayKeepsSection(s: State, s': State, c: Id, p': Coord)
    requires SectionInv(s) && s'.coords == s.coords[c := p'] && s'.clock == s.clock && SameLease(s.job, s'.job)
    requires Inside(At(s, c)) <==> Inside(p')
    requires Inside(p') ==> p'.until == At(s, c).until
    requires !p'.SkipReleasing? && (p'.Started? ==> p'.now <= s.clock)
    ensures SectionInv(s')
  {
    if SomeSkipReleasing(s'.coords) {
      var d :| d in s'.coords && s'.coords[d].SkipReleasing?;
      assert d in s.coords && s.coords[d].SkipReleasing?;
    }
  }

  /** The mover leaves, or was only waiting to give the lease back a second time: nobody is inside now. */
  lemma ExitKeepsSection(s: State, s': State, c: Id, p': Coord)
    requires SectionInv(s) && s'.coords == s.coords[c := p'] && s'.clock == s.clock
    requires Inside(At(s, c)) || At(s, c).SkipReleasing?
    requires p'.Out? || p'.SkipReleasing?
    ensures SectionInv(s') && Empty(s'.coords)
  {
    forall d | d in s'.coords ensures !Inside(s'.coords[d]) {
      if d != c && At(s, c).SkipReleasing? {
        assert c in s.coords && SomeSkipReleasing(s.coords);
      }
    }
  }

  lemma EnterKeepsSection(s: State, c: Id, claimId: string, ttlSecs: int)
    requires SectionInv(s) && Timely(s) && At(s, c).Started? && !SomeSkipReleasing(s.coords)
    ensures SectionInv(EnterSection(s, c, claimId, ttlSecs))
  {
    var s' := EnterSection(s, c, claimId, ttlSecs);
    assert SomeSkipReleasing(s'.coords) ==> SomeSkipReleasing(s.coords);
    if s.job.Some? && TickClaimable(s.job.value, At(s, c).now) {
      assert Empty(s.coords);
    }
  }

  lemma StepKeepsSection(s: State, step: Step)
    requires SectionInv(s) && Timely(s) && Enabled(s, step) && EntersAlone(s, step) && Shields(s, step)
    ensures SectionInv(Apply(s, step))
  {
    var s' := Apply(s, step);
    match step
    case Enter(c, claimId, ttlSecs) => EnterKeepsSection(s, c, claimId, ttlSecs);
    case Persist(c, _) => ExitKeepsSection(s, s', c, Out);
    case PersistSkip(c, _) => ExitKeepsSection(s, s', c, SkipReleasing);
    case ReleaseSkip(c) => ExitKeepsSection(s, s', c, Out);
    case Leave(c) => ExitKeepsSection(s, s', c, Out);
    case _ => QuietStepKeepsSection(s, step);
  }

  predicate IsQuiet(step: Step) {
    !step.Enter? && !step.Persist? && !step.PersistSkip? && !step.ReleaseSkip? && !step.Leave?
  }

  predicate IsCoordStep(step: Step) {
    && !step.Advance? && !step.SetEnabled? && !step.Delete? && !step.RunChanges? && !step.RunNow?
    && !step.ReadRow? && !step.WriteRow?
  }

  /** A quiet step moves one coordinator without changing the lease or its side of the section. */
  lemma QuietShape(s: State, step: Step)
    requires Enabled(s, step) && IsQuiet(step) && IsCoordStep(step)
    ensures var s' := Apply(s, step);
            var p, p' := At(s, step.c), At(s', step.c);
            && s'.coords == s.coords[step.c := p'] && s'.clock == s.clock && SameLease(s.job, s'.job)
            && (Inside(p) <==> Inside(p'))
            && (Inside(p') ==> p'.until == p.until)
            && !p'.SkipReleasing? && (p'.Started? ==> p'.now == s.clock)
  {}

  lemma QuietStepKeepsSection(s: State, step: Step)
    requires SectionInv(s) && Enabled(s, step) && IsQuiet(step) && Shields(s, step)
    ensures SectionInv(Apply(s, step))
  {
    if IsCoordStep(step) {
      QuietShape(s, step);
      StayKeepsSection(s, Apply(s, step), step.c, At(Apply(s, step), step.c));
    }
  }

  lemma {:induction false} RunKeepsSection(s: State, steps: seq<Step>)
    requires SectionInv(s) && Feasible(s, steps) && Lawful(Orderly, s, steps)
    ensures SectionInv(After(s, steps))
    decreases |steps|
  {
    if steps != [] {
      StepKeepsSection(s, steps[0]);
      RunKeepsSection(Apply(s, steps[0]), steps[1..]);
    }
  }

  /** For any number of coordinators, at most one is ever inside. */
  lemma TickSectionIsExclusive(s: State, steps: seq<Step>, c: Id, d: Id)
    requires Init(s) && Feasible(s, steps) && Lawful(Orderly, s, steps)
    requires Inside(At(After(s, steps), c)) && Inside(At(After(s, steps), d))
    ensures c == d
  {
    RunKeepsSection(s, steps);
  }

  /** Each of the four ways out clears the tick lease. */
  lemma ExitClearsLeases(s: State, step: Step)
    requires Enabled(s, step) && (step.Persist? || step.PersistSkip? || step.ReleaseSkip? || step.Leave?)
    ensures Apply(s, step).job.Some? ==>
              Apply(s, step).job.value.claimLeaseId.None? && Apply(s, step).job.value.claimLeaseUntil.None?
    ensures !Inside(At(Apply(s, step), step.c))
  {}

  // ---- the tick lease ---------------------------------------------------------------------------

  /** While the row has a tick lease, somebody is inside to give it back. */
  predicate LeaseHasHolder(s: State) {
    s.job.Some? && (s.job.value.claimLeaseId.Some? || s.job.value.claimLeaseUntil.Some?) ==> !Empty(s.coords)
  }

  lemma StepKeepsHolderOfLease(s: State, step: Step)
    requires LeaseHasHolder(s) && Enabled(s, step) && Current(s, step)
    ensures LeaseHasHolder(Apply(s, step))
  {
    if step.Enter? {
      EnterKeepsHolderOfLease(s, step.c, step.claimId, step.ttlSecs);
    } else if step.Persist? || step.PersistSkip? || step.ReleaseSkip? || step.Leave? {
      ExitClearsLeases(s, step);
    } else if IsCoordStep(step) {
      QuietShape(s, step);
      MoveKeepsHolderOfLease(s, Apply(s, step), step.c, At(Apply(s, step), step.c));
    } else {
      OutsideKeepsHolderOfLease(s, step);
    }
  }

  lemma OutsideKeepsHolderOfLease(s: State, step: Step)
    requires LeaseHasHolder(s) && Enabled(s, step) && Current(s, step) && !IsCoordStep(step)
    ensures LeaseHasHolder(Apply(s, step))
  {}

  lemma MoveKeepsHolderOfLease(s: State, s': State, c: Id, p': Coord)
    requires LeaseHasHolder(s) && s'.coords == s.coords[c := p'] && SameLease(s.job, s'.job)
    requires Inside(At(s, c)) <==> Inside(p')
    ensures LeaseHasHolder(s')
  {
    if d :| d in s.coords && Inside(s.coords[d]) {
      assert Inside(s'.coords[d]);
    }
  }

  lemma EnterKeepsHolderOfLease(s: State, c: Id, claimId: string, ttlSecs: int)
    requires LeaseHasHolder(s) && At(s, c).Started?
    ensures LeaseHasHolder(EnterSection(s, c, claimId, ttlSecs))
  {
    var s' := EnterSection(s, c, claimId, ttlSecs);
    assert c in s'.coords;
    if !Inside(s'.coords[c]) {
      if d :| d in s.coords && Inside(s.coords[d]) {
        assert d != c && Inside(s'.coords[d]);
      }
    }
  }

  /** Rows are written back only while nothing has happened to their columns. */
  ghost predicate WritesCurrent(s: State, steps: seq<Step>)
    requires Feasible(s, steps)
    decreases |steps|
  {
    steps == [] || (Current(s, steps[0]) && WritesCurrent(Apply(s, steps[0]), steps[1..]))
  }

  /** In every run, timely or not, a row that came without a tick lease has one only while somebody is inside:
      whoever leaves takes it away. An upsert that writes an old lease back is the exception. */
  lemma {:induction false} LeaseIsNeverLeftBehind(s: State, steps: seq<Step>)
    requires LeaseHasHolder(s) && Feasible(s, steps) && WritesCurrent(s, steps)
    ensures LeaseHasHolder(After(s, steps))
    decreases |steps|
  {
    if steps != [] {
      StepKeepsHolderOfLease(s, steps[0]);
      LeaseIsNeverLeftBehind(Apply(s, steps[0]), steps[1..]);
    }
  }
}
