/** What becomes of a popped batch by the end of its claimer's turn, whatever everybody else does meanwhile. */
module ClaimTurns {
  import opened Models
  import opened Collections
  import opened RunRules
  import opened ReadyQueue
  import opened CompositeRules
  import opened ClaimProtocol
  import opened LeaseSafety

  /** Between the pop of `ids` and the end of their reconciliation. */
  predicate InTurn(actor: Actor, req: Request, ids: seq<Id>) {
    match actor
    case Claiming(r, _, popped, _, _) => r == req && popped == ids
    case Reconciling(r, _, popped, _, _) => r == req && popped == ids
    case PuttingBack(r, _, popped, _, _, _) => r == req && popped == ids
    case _ => false
  }

  function Won(actor: Actor): seq<Run> {
    match actor
    case Claiming(_, _, _, _, won) => won
    case Reconciling(_, _, _, _, won) => won
    case PuttingBack(_, _, _, _, won, _) => won
    case _ => []
  }

  predicate By(step: Step, a: Id) {
    !step.Advance? && step.a == a
  }

  /** The whole batch is reconciled: the step that ends the turn is the claimer's next. */
  predicate TurnDone(s: State, a: Id) {
    At(s, a).Reconciling? && At(s, a).next >= |At(s, a).ids|
  }

  /** The claimer does not get beyond this turn. */
  predicate SameTurn(a: Id, steps: seq<Step>) {
    DoneReconciling(a) !in steps
  }

  lemma OthersStay(s: State, step: Step, a: Id)
    requires Enabled(s, step) && !By(step, a)
    ensures At(Apply(s, step), a) == At(s, a)
  {}

  lemma OwnStep(s: State, step: Step, a: Id, req: Request, ids: seq<Id>)
    requires Enabled(s, step) && By(step, a) && step != DoneReconciling(a) && InTurn(At(s, a), req, ids)
    ensures step.ClaimNext? || step.ClaimAll? || step.DoneClaiming? || step.Check? || step.ZAdd?
    ensures InTurn(At(Apply(s, step), a), req, ids)
    ensures WonIds(Won(At(s, a))) <= WonIds(Won(At(Apply(s, step), a)))
  {}

  lemma {:induction false} TurnStays(s: State, steps: seq<Step>, a: Id, req: Request, ids: seq<Id>)
    requires Feasible(s, steps) && SameTurn(a, steps) && InTurn(At(s, a), req, ids)
    ensures InTurn(At(After(s, steps), a), req, ids)
    decreases |steps|
  {
    if steps != [] {
      assert steps[0] in steps && SameTurn(a, steps[1..]);
      if By(steps[0], a) {
        OwnStep(s, steps[0], a, req, ids);
      } else {
        OthersStay(s, steps[0], a);
      }
      TurnStays(Apply(s, steps[0]), steps[1..], a, req, ids);
    }
  }

  /** The row is this claimer's, under the lease of this turn. */
  predicate HeldByClaimer(s: State, a: Id, req: Request, id: Id) {
    RowHeldBy(s.rows, a, id, req.now + Seconds(req.ttlSecs))
  }

  /** The run is queued and not this claimer's business. */
  ghost predicate QueuedElsewhere(s: State, a: Id, id: Id) {
    && id in s.rows && s.rows[id].status == Queued
    && (Waiting(s.rows, s.scores, id) || exists b :: b in s.actors && b != a && Owes(s.actors[b], s.rows[id]))
  }

  /** The run is neither queued nor this claimer's. */
  predicate NotOwed(s: State, a: Id, req: Request, id: Id) {
    id in s.rows && s.rows[id].status != Queued && !HeldByClaimer(s, a, req, id)
  }

  ghost predicate ExactlyOne(p: bool, q: bool, r: bool) {
    (p || q || r) && !(p && q) && !(q && r) && !(p && r)
  }

  lemma PoppedTurn(s: State, a: Id, ids: seq<Id>)
    requires CanPop(s, a, ids) && ids != []
    ensures Enabled(s, Pop(a, ids)) && Apply(s, Pop(a, ids)) == Popped(s, a, ids)
    ensures InTurn(At(Popped(s, a, ids), a), At(s, a).req, ids) && Popped(s, a, ids).rows == s.rows
  {}

  /** A claimer that has reconciled its whole batch owes nothing. */
  lemma DoneOwesNothing(e: State, a: Id, id: Id)
    requires Inv(e) && TurnDone(e, a) && id in e.rows && e.rows[id].status == Queued
    ensures QueuedElsewhere(e, a, id)
  {
    ActorAtOk(e, a);
    var c := At(e, a);
    assert c.ids[c.next..] == [];
    assert Waiting(e.rows, e.scores, id) || Owed(e, id);
    if !Waiting(e.rows, e.scores, id) {
      var b :| b in e.actors && Owes(e.actors[b], e.rows[id]);
      assert b != a;
    }
  }

  /** Conservation over a whole turn and every interleaving: when a claimer has popped `ids` and reconciled them, each
      of them is exactly one of: held by the claimer under the lease of this turn; queued, and waiting in its own
      pool's set or owed by somebody else; neither queued nor the claimer's. Nothing popped is lost. */
  lemma BatchIsSettled(s: State, a: Id, ids: seq<Id>, steps: seq<Step>, id: Id)
    requires Inv(s) && CanPop(s, a, ids) && id in ids
    requires Feasible(Popped(s, a, ids), steps) && SameTurn(a, steps)
    requires TurnDone(After(Popped(s, a, ids), steps), a)
    ensures var e, req := After(Popped(s, a, ids), steps), At(s, a).req;
            && InTurn(At(e, a), req, ids)
            && ExactlyOne(HeldByClaimer(e, a, req, id), QueuedElsewhere(e, a, id), NotOwed(e, a, req, id))
  {
    var s1 := Popped(s, a, ids);
    var e := After(s1, steps);
    PoppedTurn(s, a, ids);
    StepKeepsInv(s, Pop(a, ids));
    RunKeepsInv(s1, steps);
    TurnStays(s1, steps, a, At(s, a).req, ids);
    ActorAtOk(e, a);
    assert id in e.rows;
    if e.rows[id].status == Queued {
      DoneOwesNothing(e, a, id);
    }
  }

  /** What the claimer was told it won is held by it, for as long as the new lease lasts. */
  lemma WonIsHeld(s: State, a: Id, ids: seq<Id>, steps: seq<Step>, id: Id)
    requires Inv(s) && LeaseInv(s) && CanPop(s, a, ids) && ids != []
    requires Feasible(Popped(s, a, ids), steps) && SameTurn(a, steps)
    requires UncontendedRun(Popped(s, a, ids), steps)
    ensures var e, req := After(Popped(s, a, ids), steps), At(s, a).req;
            id in WonIds(Won(At(e, a))) && e.clock < req.now + Seconds(req.ttlSecs) ==> HeldByClaimer(e, a, req, id)
  {
    var s1 := Popped(s, a, ids);
    var e, req := After(s1, steps), At(s, a).req;
    PoppedTurn(s, a, ids);
    StepKeepsInv(s, Pop(a, ids));
    StepKeepsLeases(s, Pop(a, ids));
    UncontendedRunKeepsLeases(s1, steps);
    TurnStays(s1, steps, a, req, ids);
    if id in WonIds(Won(At(e, a))) && e.clock < req.now + Seconds(req.ttlSecs) {
      assert LeasesOf(e.clock, e.rows, a, At(e, a)) && Has(At(e, a), id, req.now + Seconds(req.ttlSecs));
    }
  }

  // ---- a run that nobody else touches -----------------------------------------------------------

  /** No step of another actor changes the row. */
  ghost predicate Untouched(s: State, steps: seq<Step>, a: Id, id: Id)
    requires Feasible(s, steps)
    decreases |steps|
  {
    steps == []
    || (&& (By(steps[0], a) || id !in s.rows
            || (id in Apply(s, steps[0]).rows && Apply(s, steps[0]).rows[id] == s.rows[id]))
        && Untouched(Apply(s, steps[0]), steps[1..], a, id))
  }

  /** As it was when popped, or taken by the claimer, which knows that it is. */
  predicate StayedOrWon(s: State, a: Id, req: Request, id: Id, row: Run) {
    && id in s.rows
    && (|| s.rows[id] == row
        || (s.rows[id] == ClaimedRow(row, a, req.now, req.ttlSecs) && id in WonIds(Won(At(s, a)))))
  }

  lemma OwnStepStayedOrWon(s: State, step: Step, a: Id, req: Request, ids: seq<Id>, id: Id, row: Run)
    requires Inv(s) && Enabled(s, step) && By(step, a) && step != DoneReconciling(a) && InTurn(At(s, a), req, ids)
    requires StayedOrWon(s, a, req, id, row) && row.status == Queued
    ensures StayedOrWon(Apply(s, step), a, req, id, row)
  {
    OwnStep(s, step, a, req, ids);
    var s' := Apply(s, step);
    assert RowOk(id, s.rows[id]);
    match step
    case ClaimNext(_) =>
      if s'.rows[id] != s.rows[id] {
        assert s'.rows[id] in Won(At(s', a));
      }
    case ClaimAll(_, won) =>
      if s'.rows[id] != s.rows[id] {
        assert id in WonIds(won);
      }
    case _ =>
  }

  lemma {:induction false} UntouchedStayedOrWon(s: State, steps: seq<Step>, a: Id, req: Request, ids: seq<Id>, id: Id,
                                                row: Run)
    requires Inv(s) && Feasible(s, steps) && SameTurn(a, steps) && InTurn(At(s, a), req, ids)
    requires Untouched(s, steps, a, id) && row.status == Queued && StayedOrWon(s, a, req, id, row)
    ensures StayedOrWon(After(s, steps), a, req, id, row)
    decreases |steps|
  {
    if steps != [] {
      assert steps[0] in steps && SameTurn(a, steps[1..]);
      StepKeepsInv(s, steps[0]);
      if By(steps[0], a) {
        OwnStepStayedOrWon(s, steps[0], a, req, ids, id, row);
        OwnStep(s, steps[0], a, req, ids);
      } else {
        OthersStay(s, steps[0], a);
      }
      UntouchedStayedOrWon(Apply(s, steps[0]), steps[1..], a, req, ids, id, row);
    }
  }

  /** So by the end of the turn a queued run that nobody else touched is either taken under the new lease and known
      to be won, or unchanged and waiting or owed by somebody else; never both. */
  lemma {:induction false} UntouchedRunIsWonOrWaits(s: State, a: Id, ids: seq<Id>, steps: seq<Step>, id: Id)
    requires Inv(s) && CanPop(s, a, ids) && id in ids && id in s.rows && s.rows[id].status == Queued
    requires Feasible(Popped(s, a, ids), steps) && SameTurn(a, steps)
    requires Untouched(Popped(s, a, ids), steps, a, id)
    requires TurnDone(After(Popped(s, a, ids), steps), a)
    ensures WonOrWaiting(After(Popped(s, a, ids), steps), a, At(s, a).req, id, s.rows[id])
  {
    var s1 := Popped(s, a, ids);
    PoppedTurn(s, a, ids);
    StepKeepsInv(s, Pop(a, ids));
    RunKeepsInv(s1, steps);
    UntouchedStayedOrWon(s1, steps, a, At(s, a).req, ids, id, s.rows[id]);
    WonOrWaits(After(s1, steps), a, At(s, a).req, id, s.rows[id]);
  }

  /** Won by the claimer under the new lease, or queued as before and not the claimer's business. */
  ghost predicate WonOrWaiting(e: State, a: Id, req: Request, id: Id, row: Run) {
    && id in e.rows
    && if e.rows[id] == row then QueuedElsewhere(e, a, id)
       else e.rows[id] == ClaimedRow(row, a, req.now, req.ttlSecs) && id in WonIds(Won(At(e, a)))
  }

  lemma WonOrWaits(e: State, a: Id, req: Request, id: Id, row: Run)
    requires Inv(e) && TurnDone(e, a) && row.status == Queued && StayedOrWon(e, a, req, id, row)
    ensures WonOrWaiting(e, a, req, id, row)
  {
    if e.rows[id] == row {
      DoneOwesNothing(e, a, id);
    }
  }

  // ---- runs that were won and not returned ------------------------------------------------------

  /** Claimed by `a`, which does not know of it. */
  ghost predicate Forgotten(s: State, a: Id, id: Id, row: Run) {
    && id in s.rows && s.rows[id] == row && row.status == Claimed && row.claimedBy == Some(a)
    && forall until :: !Has(At(s, a), id, until)
  }

  /** The batch's other wins, once the first is returned. */
  lemma UnreturnedIsForgotten(s: State, a: Id, id: Id)
    requires Inv(s) && Enabled(s, DoneReconciling(a)) && At(s, a).won != [] && id != At(s, a).won[0].runId
    requires id in s.rows && s.rows[id].status == Claimed && s.rows[id].claimedBy == Some(a)
    ensures Forgotten(Apply(s, DoneReconciling(a)), a, id, s.rows[id])
  {}

  lemma ForgottenStep(s: State, step: Step, a: Id, id: Id, row: Run)
    requires Inv(s) && LeaseInv(s) && Enabled(s, step) && Timely(s, step) && Forgotten(s, a, id, row)
    ensures TakesBack(s, step, id) || Forgotten(Apply(s, step), a, id, row)
  {
    if !TakesBack(s, step, id) {
      ForgottenRowStays(s, step, a, id, row);
      ForgottenStaysUnknown(s, step, a, id, row);
    }
  }

  lemma ForgottenRowStays(s: State, step: Step, a: Id, id: Id, row: Run)
    requires Inv(s) && LeaseInv(s) && Enabled(s, step) && Timely(s, step) && Forgotten(s, a, id, row)
    requires !TakesBack(s, step, id)
    ensures id in Apply(s, step).rows && Apply(s, step).rows[id] == row
  {
    if step.WriteRunning? || step.WriteTerminal? || step.RenewLease? {
      ActorAtOk(s, step.a);
      ForgottenIsNotWritten(s, step, a, id, row);
    } else {
      ForgottenIsNotClaimed(s, step, a, id, row);
    }
  }

  /** Nobody writes the row: a timely writer would own it, and its owner does not know of it. */
  lemma ForgottenIsNotWritten(s: State, step: Step, a: Id, id: Id, row: Run)
    requires Inv(s) && LeaseInv(s) && Enabled(s, step) && Timely(s, step) && Forgotten(s, a, id, row)
    requires step.WriteRunning? || step.WriteTerminal? || step.RenewLease?
    ensures id in Apply(s, step).rows && Apply(s, step).rows[id] == row
  {
    var c := At(s, step.a);
    assert Has(c, c.run.runId, c.until);
    if !step.RenewLease? {
      TimelyWriterOwnsRow(s, step.a);
    }
    ActorAtOk(s, step.a);
  }

  lemma ForgottenIsNotClaimed(s: State, step: Step, a: Id, id: Id, row: Run)
    requires Enabled(s, step) && Forgotten(s, a, id, row) && !TakesBack(s, step, id)
    requires !step.WriteRunning? && !step.WriteTerminal? && !step.RenewLease?
    ensures id in Apply(s, step).rows && Apply(s, step).rows[id] == row
  {}

  lemma ForgottenStaysUnknown(s: State, step: Step, a: Id, id: Id, row: Run)
    requires Inv(s) && Enabled(s, step) && Forgotten(s, a, id, row)
    ensures forall until :: !Has(At(Apply(s, step), a), id, until)
  {
    var s' := Apply(s, step);
    if By(step, a) {
      ActorAtOk(s, a);
      forall until ensures !Has(At(s', a), id, until) {
        if Has(At(s', a), id, until) {
          NewHolding(s, step, a, id, until);
        }
      }
    } else {
      OthersStay(s, step, a);
    }
  }

  lemma ClaimNextHolds(s: State, a: Id, id: Id, until: Time)
    requires Inv(s) && At(s, a).Claiming? && At(s, a).next < |At(s, a).ids| && Has(At(ClaimOneId(s, a), a), id, until)
    ensures (exists u :: Has(At(s, a), id, u)) || (id in s.rows && s.rows[id].status == Queued)
  {
    ActorAtOk(s, a);
    var c := At(s, a);
    var r :| r in At(ClaimOneId(s, a), a).won && r.runId == id;
    if r in c.won {
      assert Has(c, id, c.req.now + Seconds(c.req.ttlSecs));
    } else {
      assert c.ids[c.next] in c.ids && RowOk(c.ids[c.next], s.rows[c.ids[c.next]]);
    }
  }

  lemma ClaimAllHolds(s: State, a: Id, won: seq<Run>, id: Id, until: Time)
    requires CanClaimAll(s, a, won) && Has(At(ClaimedAll(s, a, won), a), id, until)
    ensures id in s.rows && s.rows[id].status == Queued
  {
    assert id in ClaimableIds(s.rows, SetOf(At(s, a).ids), At(s, a).req.pool, At(s, a).req.now);
  }

  lemma ReturnHolds(s: State, a: Id, id: Id, until: Time)
    requires At(s, a).Reconciling? && Has(At(AfterReconcile(s, a), a), id, until)
    ensures exists u :: Has(At(s, a), id, u)
  {
    var c := At(s, a);
    assert c.won[0] in c.won;
    assert Has(c, id, c.req.now + Seconds(c.req.ttlSecs));
  }

  /** Every other step of its own leaves an actor with runs it held before, if perhaps until another time. */
  lemma OtherStepHolds(s: State, step: Step, a: Id, id: Id, until: Time)
    requires Enabled(s, step) && By(step, a) && Has(At(Apply(s, step), a), id, until)
    requires !step.ClaimNext? && !step.ClaimAll? && !step.DoneReconciling?
    ensures exists u :: Has(At(s, a), id, u)
  {
    var c := At(s, a);
    assert Has(c, id, if c.Holding? || c.Executing? then c.until else until);
  }

  /** An actor comes to hold a run only by claiming it while it is queued. */
  lemma NewHolding(s: State, step: Step, a: Id, id: Id, until: Time)
    requires Inv(s) && Enabled(s, step) && By(step, a) && Has(At(Apply(s, step), a), id, until)
    ensures (exists u :: Has(At(s, a), id, u)) || (id in s.rows && s.rows[id].status == Queued)
  {
    match step
    case ClaimNext(_) => ClaimNextHolds(s, a, id, until);
    case ClaimAll(_, won) => ClaimAllHolds(s, a, won, id, until);
    case DoneReconciling(_) => ReturnHolds(s, a, id, until);
    case _ => OtherStepHolds(s, step, a, id, until);
  }

  /** A run that was won and not returned keeps its row, lease end included, until a reclaim at or after that end takes
      it back; and the first reclaim that comes so late does (LapsedRunIsRequeued). */
  lemma {:induction false} ForgottenRunWaitsForReclaim(s: State, steps: seq<Step>, a: Id, id: Id, row: Run)
    requires Inv(s) && LeaseInv(s) && Feasible(s, steps) && TimelyRun(s, steps) && Forgotten(s, a, id, row)
    ensures TakenBackDuring(s, steps, id)
            || (id in After(s, steps).rows && After(s, steps).rows[id] == row)
    decreases |steps|
  {
    if steps != [] {
      ForgottenStep(s, steps[0], a, id, row);
      if !TakesBack(s, steps[0], id) {
        TimelyIsUncontended(s, steps[0]);
        StepKeepsInv(s, steps[0]);
        StepKeepsLeases(s, steps[0]);
        ForgottenRunWaitsForReclaim(Apply(s, steps[0]), steps[1..], a, id, row);
      }
    }
  }

  /** Put together: after any timely continuation, a reclaim at or after the lease end finds such a run taken back
      already, or queues it and owes its entry. */
  lemma UnreturnedRunIsRecovered(s: State, a: Id, id: Id, steps: seq<Step>, r: Id, now: Time, expired: seq<Id>)
    requires Inv(s) && LeaseInv(s) && Enabled(s, DoneReconciling(a))
    requires At(s, a).won != [] && id != At(s, a).won[0].runId
    requires id in s.rows && s.rows[id].status == Claimed && s.rows[id].claimedBy == Some(a)
    requires Feasible(Apply(s, DoneReconciling(a)), steps) && TimelyRun(Apply(s, DoneReconciling(a)), steps)
    requires Enabled(After(Apply(s, DoneReconciling(a)), steps), BeginReclaim(r, now, expired))
    requires s.rows[id].claimLeaseUntil.Some? && s.rows[id].claimLeaseUntil.value <= now
    ensures var s1 := Apply(s, DoneReconciling(a));
            var e := Apply(After(s1, steps), BeginReclaim(r, now, expired));
            || TakenBackDuring(s1, steps, id)
            || (id in e.rows && e.rows[id].status == Queued && Owes(At(e, r), e.rows[id]))
  {
    var s1 := Apply(s, DoneReconciling(a));
    UnreturnedIsForgotten(s, a, id);
    StepKeepsInv(s, DoneReconciling(a));
    StepKeepsLeases(s, DoneReconciling(a));
    ForgottenRunWaitsForReclaim(s1, steps, a, id, s.rows[id]);
    RunKeepsInv(s1, steps);
    if !TakenBackDuring(s1, steps, id) {
      LapsedRunIsRequeued(After(s1, steps), r, now, expired, id);
    }
  }
}
