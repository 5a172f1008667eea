/** Who may hold a run: lease exclusivity, terminal rows and recovery over whole runs of the claim protocol. */
module LeaseSafety {
  import opened Models
  import opened Collections
  import opened RunRules
  import opened CompositeRules
  import opened ClaimProtocol

  /** The actor was last told that it holds run `id` until `until`. */
  predicate Has(actor: Actor, id: Id, until: Time) {
    match actor
    case Claiming(req, _, _, _, won) => id in WonIds(won) && until == req.now + Seconds(req.ttlSecs)
    case Reconciling(req, _, _, _, won) => id in WonIds(won) && until == req.now + Seconds(req.ttlSecs)
    case PuttingBack(req, _, _, _, won, _) => id in WonIds(won) && until == req.now + Seconds(req.ttlSecs)
    case Holding(run, u) => id == run.runId && until == u
    case Executing(run, u) => id == run.runId && until == u
    case _ => false
  }

  predicate RowHeldBy(rows: Rows, a: Id, id: Id, until: Time) {
    && id in rows && rows[id].status.Held()
    && rows[id].claimedBy == Some(a) && rows[id].claimLeaseUntil == Some(until)
  }

  /** A lease that has not run out is the one the row records. */
  ghost predicate LeasesOf(clock: Time, rows: Rows, a: Id, actor: Actor) {
    && (actor.Holding? ==> actor.run.claimLeaseUntil == Some(actor.until))
    && forall id, until :: Has(actor, id, until) && clock < until ==> RowHeldBy(rows, a, id, until)
  }

  ghost predicate AllLeases(clock: Time, rows: Rows, actors: map<Id, Actor>) {
    forall a :: a in actors ==> LeasesOf(clock, rows, a, actors[a])
  }

  ghost predicate LeaseInv(s: State) {
    AllLeases(s.clock, s.rows, s.actors)
  }

  predicate LeasedToAnother(row: Run, a: Id, clock: Time) {
    row.status.Held() && row.claimedBy != Some(a) && row.claimLeaseUntil.Some? && clock < row.claimLeaseUntil.value
  }

  /** Another actor holds the run that `a` is about to write, under a live lease. */
  ghost predicate Contended(s: State, a: Id)
    requires At(s, a).Holding? || At(s, a).Executing?
  {
    exists b, until :: b in s.actors && b != a && Has(s.actors[b], At(s, a).run.runId, until) && s.clock < until
  }

  /** No worker writes a row that another one holds. */
  ghost predicate Uncontended(s: State, step: Step) {
    step.WriteRunning? || step.WriteTerminal? ==>
      (At(s, step.a).Holding? || At(s, step.a).Executing? ==> !Contended(s, step.a))
  }

  /** A worker does not write a row after the lease it was told of has run out. */
  predicate Timely(s: State, step: Step) {
    match step
    case WriteRunning(a) => At(s, a).Holding? ==> s.clock < At(s, a).until
    case WriteTerminal(a, _, _) => At(s, a).Holding? || At(s, a).Executing? ==> s.clock < At(s, a).until
    case _ => true
  }

  /** Runs that another actor holds live are unchanged, and the mover's leases are right. */
  lemma MoveBesideLeases(s: State, a: Id, rows': Rows, actor': Actor)
    requires LeaseInv(s) && LeasesOf(s.clock, rows', a, actor')
    requires forall b, id, until ::
               (b in s.actors && b != a && Has(s.actors[b], id, until) && s.clock < until && id in s.rows) ==>
                 id in rows' && rows'[id] == s.rows[id]
    ensures AllLeases(s.clock, rows', s.actors[a := actor'])
  {
    var actors' := s.actors[a := actor'];
    forall b | b in actors' ensures LeasesOf(s.clock, rows', b, actors'[b]) {
      if b != a {
        assert LeasesOf(s.clock, s.rows, b, s.actors[b]);
        forall id, until | Has(s.actors[b], id, until) && s.clock < until
          ensures RowHeldBy(rows', b, id, until)
        {
          assert RowHeldBy(s.rows, b, id, until);
        }
      }
    }
  }

  /** Rows under a live lease of another actor are unchanged, and the mover's leases are right. */
  lemma MoveKeepsLeases(s: State, a: Id, rows': Rows, actor': Actor)
    requires LeaseInv(s) && LeasesOf(s.clock, rows', a, actor')
    requires forall id :: id in s.rows && LeasedToAnother(s.rows[id], a, s.clock) ==>
               id in rows' && rows'[id] == s.rows[id]
    ensures AllLeases(s.clock, rows', s.actors[a := actor'])
  {
    forall b, id, until | b in s.actors && b != a && Has(s.actors[b], id, until) && s.clock < until && id in s.rows
      ensures id in rows' && rows'[id] == s.rows[id]
    {
      assert LeasesOf(s.clock, s.rows, b, s.actors[b]);
      assert RowHeldBy(s.rows, b, id, until);
    }
    MoveBesideLeases(s, a, rows', actor');
  }

  /** The actor's leases do not grow and no row changes. */
  lemma LocalMoveKeepsLeases(s: State, a: Id, actor': Actor)
    requires LeaseInv(s)
    requires actor'.Holding? ==> actor'.run.claimLeaseUntil == Some(actor'.until)
    requires forall id, until :: Has(actor', id, until) ==> Has(At(s, a), id, until)
    ensures AllLeases(s.clock, s.rows, s.actors[a := actor'])
  {
    assert LeasesOf(s.clock, s.rows, a, At(s, a));
    MoveKeepsLeases(s, a, s.rows, actor');
  }

  lemma ClaimNextKeepsLeases(s: State, a: Id)
    requires Inv(s) && LeaseInv(s) && At(s, a).Claiming? && At(s, a).next < |At(s, a).ids|
    ensures LeaseInv(ClaimOneId(s, a))
  {
    ActorAtOk(s, a);
    var s' := ClaimOneId(s, a);
    var c, actor' := At(s, a), At(s', a);
    var id := c.ids[c.next];
    assert id in c.ids && RowOk(id, s.rows[id]);
    assert LeasesOf(s.clock, s.rows, a, c);
    var claimed := ClaimById(s.rows, id, c.req.pool, a, c.req.now, c.req.ttlSecs).1;
    if claimed.Some? {
      forall o | o in WonIds(actor'.won) ensures o in WonIds(c.won) || o == id {
        var r :| r in actor'.won && r.runId == o;
        assert r in c.won || r == claimed.value;
      }
    }
    forall o, until | Has(actor', o, until) && s.clock < until ensures RowHeldBy(s'.rows, a, o, until) {
      assert Has(c, o, until) || (o == id && claimed.Some?);
    }
    MoveKeepsLeases(s, a, s'.rows, actor');
  }

  lemma ClaimAllKeepsLeases(s: State, a: Id, won: seq<Run>)
    requires Inv(s) && LeaseInv(s) && CanClaimAll(s, a, won)
    ensures LeaseInv(ClaimedAll(s, a, won))
  {
    var s' := ClaimedAll(s, a, won);
    var actor' := At(s', a);
    forall o, until | Has(actor', o, until) && s.clock < until ensures RowHeldBy(s'.rows, a, o, until) {
      assert o in WonIds(won);
    }
    MoveKeepsLeases(s, a, s'.rows, actor');
  }

  lemma AfterReconcileKeepsLeases(s: State, a: Id)
    requires Inv(s) && LeaseInv(s) && At(s, a).Reconciling?
    ensures LeaseInv(AfterReconcile(s, a))
  {
    ActorAtOk(s, a);
    var c := At(s, a);
    if c.won != [] {
      assert c.won[0] in c.won && WonOk(s.rows, a, c.req, c.ids, c.won[0]);
      assert c.won[0].runId in WonIds(c.won);
    }
    LocalMoveKeepsLeases(s, a, At(AfterReconcile(s, a), a));
  }

  /** A timely writer still owns the row it writes. */
  lemma TimelyWriterOwnsRow(s: State, a: Id)
    requires Inv(s) && LeaseInv(s) && (At(s, a).Holding? || At(s, a).Executing?) && s.clock < At(s, a).until
    ensures RowHeldBy(s.rows, a, At(s, a).run.runId, At(s, a).until)
  {
    assert LeasesOf(s.clock, s.rows, a, At(s, a));
    assert Has(At(s, a), At(s, a).run.runId, At(s, a).until);
  }

  /** A worker's running write keeps every live lease the one its row records exactly when no other actor holds the
      run live, late or not. */
  lemma RunningWriteKeepsLeasesIff(s: State, a: Id)
    requires Inv(s) && LeaseInv(s) && At(s, a).Holding?
    ensures LeaseInv(RunningWritten(s, a)) <==> !Contended(s, a)
  {
    ActorAtOk(s, a);
    var s' := RunningWritten(s, a);
    var id := At(s, a).run.runId;
    assert LeasesOf(s.clock, s.rows, a, At(s, a));
    if !Contended(s, a) {
      MoveBesideLeases(s, a, s'.rows, At(s', a));
    } else {
      ContendedWriteBreaks(s, s', a);
    }
  }

  /** The same for the last write of a run. */
  lemma TerminalWriteKeepsLeasesIff(s: State, a: Id, status: RunStatus, retry: bool)
    requires Inv(s) && LeaseInv(s) && (At(s, a).Holding? || At(s, a).Executing?) && status.Terminal()
    ensures LeaseInv(TerminalWritten(s, a, status, retry)) <==> !Contended(s, a)
  {
    ActorAtOk(s, a);
    var s' := TerminalWritten(s, a, status, retry);
    if !Contended(s, a) {
      MoveBesideLeases(s, a, s'.rows, At(s', a));
    } else {
      ContendedWriteBreaks(s, s', a);
    }
  }

  /** Whoever held the run is not its owner any more. */
  lemma ContendedWriteBreaks(s: State, s': State, a: Id)
    requires (At(s, a).Holding? || At(s, a).Executing?) && Contended(s, a)
    requires s'.clock == s.clock && At(s, a).run.runId in s'.rows && s'.rows[At(s, a).run.runId].claimedBy == Some(a)
    requires forall b :: b in s.actors && b != a ==> b in s'.actors && s'.actors[b] == s.actors[b]
    ensures !LeaseInv(s')
  {
    var id := At(s, a).run.runId;
    var b, until :| b in s.actors && b != a && Has(s.actors[b], id, until) && s.clock < until;
    assert !RowHeldBy(s'.rows, b, id, until);
    assert !LeasesOf(s'.clock, s'.rows, b, s'.actors[b]);
  }

  /** A worker inside its own lease contends with nobody. */
  lemma TimelyIsUncontended(s: State, step: Step)
    requires Inv(s) && LeaseInv(s) && Enabled(s, step) && Timely(s, step)
    ensures Uncontended(s, step)
  {
    if step.WriteRunning? || step.WriteTerminal? {
      var id := At(s, step.a).run.runId;
      forall b, until | b in s.actors && Has(s.actors[b], id, until) && s.clock < until ensures b == step.a {
        OneHolder(s, step.a, b, id, At(s, step.a).until, until);
      }
    }
  }

  lemma OneHolder(s: State, a: Id, b: Id, id: Id, untilA: Time, untilB: Time)
    requires LeaseInv(s) && Has(At(s, a), id, untilA) && s.clock < untilA
    requires Has(At(s, b), id, untilB) && s.clock < untilB
    ensures a == b
  {
    assert LeasesOf(s.clock, s.rows, a, At(s, a)) && LeasesOf(s.clock, s.rows, b, At(s, b));
    assert RowHeldBy(s.rows, a, id, untilA) && RowHeldBy(s.rows, b, id, untilB);
  }

  lemma RenewKeepsLeases(s: State, a: Id, now: Time, ttlSecs: int)
    requires Inv(s) && LeaseInv(s) && At(s, a).Executing?
    ensures LeaseInv(Renewed(s, a, now, ttlSecs))
  {
    ActorAtOk(s, a);
    var c := At(s, a);
    if Renewable(s.rows[c.run.runId], a) {
      var s' := Renewed(s, a, now, ttlSecs);
      MoveKeepsLeases(s, a, s'.rows, At(s', a));
    }
  }

  lemma ResetKeepsLeases(s: State, a: Id, now: Time, ids: seq<Id>)
    requires Inv(s) && LeaseInv(s) && At(s, a).Idle? && now <= s.clock
    ensures LeaseInv(Reset(s, a, now, ids))
  {
    MoveKeepsLeases(s, a, ReclaimExpired(s.rows, now), Requeuing(ids));
  }

  lemma CreateKeepsLeases(s: State, a: Id, run: Run)
    requires Inv(s) && LeaseInv(s) && Fresh(s.rows, run)
    ensures LeaseInv(Created(s, a, run))
  {
    var s' := Created(s, a, run);
    MoveKeepsLeases(s, a, s'.rows, At(s', a));
  }

  lemma ClaimStepKeepsLeases(s: State, step: Step)
    requires Inv(s) && LeaseInv(s) && Enabled(s, step) && IsClaimStep(step)
    ensures LeaseInv(Apply(s, step))
  {
    match step
    case BeginClaim(a, pool, ttlSecs, batch) =>
      LocalMoveKeepsLeases(s, a, Popping(Request(pool, s.clock, ttlSecs, batch), 0));
    case Pop(a, ids) => LocalMoveKeepsLeases(s, a, At(Popped(s, a, ids), a));
    case GiveUp(a) => LocalMoveKeepsLeases(s, a, Idle);
    case ClaimNext(a) => ClaimNextKeepsLeases(s, a);
    case ClaimAll(a, won) => ClaimAllKeepsLeases(s, a, won);
    case DoneClaiming(a) => LocalMoveKeepsLeases(s, a, At(StartReconcile(s, a), a));
    case Check(a) => LocalMoveKeepsLeases(s, a, At(CheckOneId(s, a), a));
    case ZAdd(a) => LocalMoveKeepsLeases(s, a, At(AddedBack(s, a), a));
    case DoneReconciling(a) => AfterReconcileKeepsLeases(s, a);
  }

  lemma StepKeepsLeases(s: State, step: Step)
    requires Inv(s) && LeaseInv(s) && Enabled(s, step) && Uncontended(s, step)
    ensures LeaseInv(Apply(s, step))
  {
    if IsClaimStep(step) {
      ClaimStepKeepsLeases(s, step);
      return;
    }
    match step
    case Advance(to) =>
      forall a | a in s.actors ensures LeasesOf(to, s.rows, a, s.actors[a]) {
        assert LeasesOf(s.clock, s.rows, a, s.actors[a]);
      }
    case Create(a, run) => CreateKeepsLeases(s, a, run);
    case EnqueueCreated(a) => LocalMoveKeepsLeases(s, a, Idle);
    case WriteRunning(a) => RunningWriteKeepsLeasesIff(s, a);
    case RenewLease(a, now, ttlSecs) => RenewKeepsLeases(s, a, now, ttlSecs);
    case WriteTerminal(a, status, retry) => TerminalWriteKeepsLeasesIff(s, a, status, retry);
    case CreateRetry(a, runId, scheduledFor) =>
      CreateKeepsLeases(s, a, NextAttempt(At(s, a).run, runId, scheduledFor));
    case BeginReclaim(a, now, ids) => ResetKeepsLeases(s, a, now, ids);
    case ReadReclaimed(a) => LocalMoveKeepsLeases(s, a, At(ReclaimedRead(s, a), a));
    case EnqueueReclaimed(a) => LocalMoveKeepsLeases(s, a, Requeuing(At(s, a).ids));
    case DoneReclaiming(a) => LocalMoveKeepsLeases(s, a, Idle);
  }

  /** The step is a reclaim that takes the run back at or after its stored lease end. */
  predicate TakesBack(s: State, step: Step, id: Id) {
    step.BeginReclaim? && id in ExpiredIds(s.rows, step.now)
  }

  predicate WritesRun(s: State, step: Step, id: Id) {
    && (step.WriteRunning? || step.WriteTerminal?)
    && (At(s, step.a).Holding? || At(s, step.a).Executing?)
    && At(s, step.a).run.runId == id
  }

  /** All that a step can do to one run's row. */
  predicate RowMove(s: State, step: Step, id: Id, row': Run)
    requires id in s.rows
  {
    || row' == s.rows[id]
    || (s.rows[id].status == Queued && row'.status == Claimed)
    || (s.rows[id].status.Held() && row'.status == s.rows[id].status)
    || (WritesRun(s, step, id) && row'.status != Queued)
    || TakesBack(s, step, id)
  }

  lemma ClaimStepRowMove(s: State, step: Step, id: Id)
    requires Enabled(s, step) && IsClaimStep(step) && id in s.rows
    ensures id in Apply(s, step).rows && RowMove(s, step, id, Apply(s, step).rows[id])
  {}

  lemma StepRowMove(s: State, step: Step, id: Id)
    requires Inv(s) && Enabled(s, step) && id in s.rows
    ensures id in Apply(s, step).rows && RowMove(s, step, id, Apply(s, step).rows[id])
  {
    if IsClaimStep(step) {
      ClaimStepRowMove(s, step, id);
    } else if step.WriteRunning? || step.WriteTerminal? || step.RenewLease? {
      ActorAtOk(s, step.a);
    }
  }

  /** Only a write that comes after the writer's own lease can touch a run that has ended. */
  lemma OnlyLateWritesTouchEndedRuns(s: State, step: Step, id: Id)
    requires Inv(s) && LeaseInv(s) && Enabled(s, step)
    requires id in s.rows && s.rows[id].status.Terminal()
    ensures id in Apply(s, step).rows
    ensures Apply(s, step).rows[id] == s.rows[id] || (WritesRun(s, step, id) && At(s, step.a).until <= s.clock)
  {
    StepRowMove(s, step, id);
    EndedRowMove(s, step, id, Apply(s, step).rows[id]);
  }

  lemma EndedRowMove(s: State, step: Step, id: Id, row': Run)
    requires Inv(s) && LeaseInv(s) && id in s.rows && s.rows[id].status.Terminal() && RowMove(s, step, id, row')
    ensures row' == s.rows[id] || (WritesRun(s, step, id) && At(s, step.a).until <= s.clock)
  {
    if WritesRun(s, step, id) && s.clock < At(s, step.a).until {
      TimelyWriterOwnsRow(s, step.a);
    }
  }

  /** A finished run stays as it was finished. */
  lemma TerminalRowUnchanged(s: State, step: Step, id: Id)
    requires Inv(s) && LeaseInv(s) && Enabled(s, step) && Timely(s, step)
    requires id in s.rows && s.rows[id].status.Terminal()
    ensures id in Apply(s, step).rows && Apply(s, step).rows[id] == s.rows[id]
  {
    OnlyLateWritesTouchEndedRuns(s, step, id);
  }

  // ---- whole runs -------------------------------------------------------------------------------

  ghost predicate TimelyRun(s: State, steps: seq<Step>)
    requires Feasible(s, steps)
    decreases |steps|
  {
    steps == [] || (Timely(s, steps[0]) && TimelyRun(Apply(s, steps[0]), steps[1..]))
  }

  ghost predicate UncontendedRun(s: State, steps: seq<Step>)
    requires Feasible(s, steps)
    decreases |steps|
  {
    steps == [] || (Uncontended(s, steps[0]) && UncontendedRun(Apply(s, steps[0]), steps[1..]))
  }

  lemma {:induction false} UncontendedRunKeepsLeases(s: State, steps: seq<Step>)
    requires Inv(s) && LeaseInv(s) && Feasible(s, steps) && UncontendedRun(s, steps)
    ensures Inv(After(s, steps)) && LeaseInv(After(s, steps))
    decreases |steps|
  {
    if steps != [] {
      StepKeepsInv(s, steps[0]);
      StepKeepsLeases(s, steps[0]);
      UncontendedRunKeepsLeases(Apply(s, steps[0]), steps[1..]);
    }
  }

  lemma {:induction false} TimelyRunKeepsLeases(s: State, steps: seq<Step>)
    requires Inv(s) && LeaseInv(s) && Feasible(s, steps) && TimelyRun(s, steps)
    ensures UncontendedRun(s, steps) && Inv(After(s, steps)) && LeaseInv(After(s, steps))
    ensures forall id :: id in s.rows && s.rows[id].status.Terminal() ==>
              id in After(s, steps).rows && After(s, steps).rows[id] == s.rows[id]
    decreases |steps|
  {
    if steps != [] {
      TimelyIsUncontended(s, steps[0]);
      StepKeepsInv(s, steps[0]);
      StepKeepsLeases(s, steps[0]);
      var s' := Apply(s, steps[0]);
      forall id | id in s.rows && s.rows[id].status.Terminal() ensures id in s'.rows && s'.rows[id] == s.rows[id] {
        TerminalRowUnchanged(s, steps[0], id);
      }
      TimelyRunKeepsLeases(s', steps[1..]);
    }
  }

  ghost predicate HoldsLive(s: State, a: Id, id: Id) {
    exists until :: Has(At(s, a), id, until) && s.clock < until
  }

  /** Some run leads there in which workers write only under a live lease. */
  ghost predicate Reached(s: State, s': State) {
    exists steps :: Feasible(s, steps) && TimelyRun(s, steps) && After(s, steps) == s'
  }

  lemma Nowhere(s: State)
    ensures Reached(s, s)
  {
    assert Feasible(s, []) && TimelyRun(s, []) && After(s, []) == s;
  }

  /** Runs are put together from the last step back to the first. */
  lemma StepFirst(s: State, step: Step, s': State)
    requires Enabled(s, step) && Timely(s, step) && Reached(Apply(s, step), s')
    ensures Reached(s, s')
  {
    var s1 := Apply(s, step);
    var steps :| Feasible(s1, steps) && TimelyRun(s1, steps) && After(s1, steps) == s';
    var all := [step] + steps;
    assert all[0] == step && all[1..] == steps;
    assert Feasible(s, all) && TimelyRun(s, all) && After(s, all) == s';
  }

  ghost predicate TakenBackDuring(s: State, steps: seq<Step>, id: Id)
    requires Feasible(s, steps)
    decreases |steps|
  {
    steps != [] && (TakesBack(s, steps[0], id) || TakenBackDuring(Apply(s, steps[0]), steps[1..], id))
  }

  /** Between two claims of a run there is a reclaim of it, with no hypothesis on how late workers write:
      a run that is not queued now and is queued later was taken back in between. */
  lemma {:induction false} ClaimedAgainOnlyAfterReclaim(s: State, steps: seq<Step>, id: Id)
    requires Inv(s) && Feasible(s, steps)
    requires id in s.rows && s.rows[id].status != Queued
    requires id in After(s, steps).rows && After(s, steps).rows[id].status == Queued
    ensures TakenBackDuring(s, steps, id)
    decreases |steps|
  {
    if steps != [] {
      StepKeepsInv(s, steps[0]);
      if Apply(s, steps[0]).rows[id].status == Queued {
        StepRowMove(s, steps[0], id);
      } else {
        ClaimedAgainOnlyAfterReclaim(Apply(s, steps[0]), steps[1..], id);
      }
    }
  }

  /** A run left claimed, returned or not, is queued again by the next reclaim after its lease end, and that
      reclaimer then owes its queue entry. */
  lemma LapsedRunIsRequeued(s: State, a: Id, now: Time, ids: seq<Id>, id: Id)
    requires Inv(s) && Enabled(s, BeginReclaim(a, now, ids))
    requires id in s.rows && s.rows[id].status.Held()
    ensures s.rows[id].claimedBy.Some? && s.rows[id].claimLeaseUntil.Some?
    ensures var s' := Apply(s, BeginReclaim(a, now, ids));
            if s.rows[id].claimLeaseUntil.value <= now
            then s'.rows[id].status == Queued && Owes(At(s', a), s'.rows[id])
            else s'.rows[id] == s.rows[id]
  {
    assert RowOk(id, s.rows[id]);
    if Expired(s.rows[id], now) {
      assert id in SetOf(ids);
    }
  }

  /** The claimer's run is still queued and owed or waiting, or it is claimed under the new lease. */
  predicate Settled(s: State, s': State, a: Id, id: Id)
    requires id in s.rows
  {
    var c := At(s, a);
    && id in s'.rows && (c.Claiming? || c.Reconciling? || c.PuttingBack?)
    && if s'.rows[id].status == Queued
       then s'.rows[id] == s.rows[id] && (Owes(At(s', a), s'.rows[id]) || Waiting(s'.rows, s'.scores, id))
       else s'.rows[id] == ClaimedRow(s.rows[id], a, c.req.now, c.req.ttlSecs)
            && At(s', a).Claiming? && id in WonIds(At(s', a).won)
  }

  predicate OwedQueued(s: State, a: Id, id: Id) {
    id in s.rows && s.rows[id].status == Queued && Owes(At(s, a), s.rows[id])
  }

  lemma ClaimNextSettles(s: State, a: Id, id: Id)
    requires Inv(s) && At(s, a).Claiming? && At(s, a).next < |At(s, a).ids| && OwedQueued(s, a, id)
    ensures Settled(s, ClaimOneId(s, a), a, id)
  {
    var s' := ClaimOneId(s, a);
    assert RowOk(id, s.rows[id]);
    if s'.rows[id].status == Queued {
      ClaimNextAccounts(s, a, id);
    } else {
      assert s'.rows[id] in At(s', a).won;
    }
  }

  lemma ClaimAllSettles(s: State, a: Id, won: seq<Run>, id: Id)
    requires Inv(s) && CanClaimAll(s, a, won) && OwedQueued(s, a, id)
    ensures Settled(s, ClaimedAll(s, a, won), a, id)
  {
    var c := At(s, a);
    assert RowOk(id, s.rows[id]) && c.ids[0..] == c.ids;
    if Claimable(s.rows[id], c.req.pool, c.req.now) {
      assert id in WonIds(won);
    } else {
      ClaimAllAccounts(s, a, won, id);
    }
  }

  lemma CheckSettles(s: State, a: Id, id: Id)
    requires Inv(s) && At(s, a).Reconciling? && At(s, a).next < |At(s, a).ids| && OwedQueued(s, a, id)
    ensures Settled(s, CheckOneId(s, a), a, id)
  {
    ActorAtOk(s, a);
    var c := At(s, a);
    assert RowOk(id, s.rows[id]);
    assert c.ids[c.next..] == [c.ids[c.next]] + c.ids[c.next + 1..];
    WonNeedsNoPutBack(s.rows, a, c.req, c.ids, c.won, id);
  }

  lemma ZAddSettles(s: State, a: Id, id: Id)
    requires Inv(s) && At(s, a).PuttingBack? && OwedQueued(s, a, id)
    ensures Settled(s, AddedBack(s, a), a, id)
  {
    ActorAtOk(s, a);
    var c := At(s, a);
    assert RowOk(id, s.rows[id]);
    PutBackComplementsClaim(c.run, c.req.pool, c.req.now);
  }

  lemma DoneClaimingSettles(s: State, a: Id, id: Id)
    requires Inv(s) && At(s, a).Claiming? && At(s, a).next >= |At(s, a).ids| && OwedQueued(s, a, id)
    ensures Settled(s, StartReconcile(s, a), a, id)
  {
    ActorAtOk(s, a);
    var c := At(s, a);
    assert c.ids[..c.next] == c.ids && c.ids[0..] == c.ids && c.ids[c.next..] == [];
  }

  /** What becomes of a popped run, step by step: while it is queued the claimer still owes it, until it is
      claimed by this claimer under the new lease or waits in its own pool's set again; never both. */
  lemma PoppedRunSettles(s: State, step: Step, id: Id)
    requires Inv(s) && Enabled(s, step) && IsClaimStep(step) && OwedQueued(s, step.a, id)
    ensures Settled(s, Apply(s, step), step.a, id)
  {
    ActorAtOk(s, step.a);
    match step
    case ClaimNext(a) => ClaimNextSettles(s, a, id);
    case ClaimAll(a, won) => ClaimAllSettles(s, a, won, id);
    case DoneClaiming(a) => DoneClaimingSettles(s, a, id);
    case Check(a) => CheckSettles(s, a, id);
    case ZAdd(a) => ZAddSettles(s, a, id);
    case _ =>
  }
}
