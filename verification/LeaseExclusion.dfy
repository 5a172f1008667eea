/** Two workers never hold one run: what this takes, and exactly which write breaks it. */
module LeaseExclusion {
  import opened Models
  import opened Collections
  import opened RunRules
  import opened ReadyQueue
  import opened CompositeRules
  import opened ClaimProtocol
  import opened LeaseSafety

  // ---- the invariant ----------------------------------------------------------------------------

  predicate Live(clock: Time, actor: Actor, id: Id, until: Time) {
    Has(actor, id, until) && clock < until
  }

  /** A live lease is the one the row records, or the run has ended. */
  predicate Backed(rows: Rows, a: Id, id: Id, until: Time) {
    RowHeldBy(rows, a, id, until) || (id in rows && rows[id].status.Terminal())
  }

  ghost predicate LeasesBacked(clock: Time, rows: Rows, a: Id, actor: Actor) {
    && (actor.Holding? ==> actor.run.claimLeaseUntil == Some(actor.until))
    && forall id, until :: Live(clock, actor, id, until) ==> Backed(rows, a, id, until)
  }

  /** Nobody but `a` holds the run live. */
  ghost predicate OthersFree(clock: Time, actors: map<Id, Actor>, a: Id, id: Id) {
    forall b, until :: b in actors && b != a ==> !Live(clock, actors[b], id, until)
  }

  ghost predicate Separate(clock: Time, actors: map<Id, Actor>) {
    forall a, id, until :: a in actors && Live(clock, actors[a], id, until) ==> OthersFree(clock, actors, a, id)
  }

  ghost predicate AllBacked(clock: Time, rows: Rows, actors: map<Id, Actor>) {
    forall a :: a in actors ==> LeasesBacked(clock, rows, a, actors[a])
  }

  ghost predicate ExclusionInv(s: State) {
    AllBacked(s.clock, s.rows, s.actors) && Separate(s.clock, s.actors)
  }

  /** The hypothesis: nobody starts a run that another one holds. The last write of a run may come as it likes. */
  ghost predicate StartsAlone(s: State, step: Step) {
    step.WriteRunning? ==> (At(s, step.a).Holding? ==> !Contended(s, step.a))
  }

  // ---- preservation -----------------------------------------------------------------------------

  /** A move that leaves the others' live leases backed, and gives the mover only runs that nobody else holds. */
  lemma MoveKeepsExclusion(s: State, a: Id, rows': Rows, actor': Actor)
    requires ExclusionInv(s) && LeasesBacked(s.clock, rows', a, actor')
    requires forall b, id, until :: b in s.actors && b != a && Live(s.clock, s.actors[b], id, until) ==>
               Backed(rows', b, id, until)
    requires forall id, until :: Live(s.clock, actor', id, until) ==> OthersFree(s.clock, s.actors, a, id)
    ensures AllBacked(s.clock, rows', s.actors[a := actor']) && Separate(s.clock, s.actors[a := actor'])
  {
    var actors' := s.actors[a := actor'];
    forall b | b in actors' ensures LeasesBacked(s.clock, rows', b, actors'[b]) {
      if b != a {
        assert LeasesBacked(s.clock, s.rows, b, s.actors[b]);
      }
    }
    forall b, id, until | b in actors' && Live(s.clock, actors'[b], id, until)
      ensures OthersFree(s.clock, actors', b, id)
    {
      if b != a {
        assert OthersFree(s.clock, s.actors, b, id);
        forall u ensures !Live(s.clock, actor', id, u) {
          assert Live(s.clock, actor', id, u) ==> OthersFree(s.clock, s.actors, a, id);
        }
      }
    }
  }

  /** What the mover held live before, nobody else holds. */
  lemma MineIsSeparate(s: State, a: Id, id: Id, until: Time)
    requires ExclusionInv(s) && Live(s.clock, At(s, a), id, until)
    ensures OthersFree(s.clock, s.actors, a, id) && Backed(s.rows, a, id, until)
  {
    assert a in s.actors && LeasesBacked(s.clock, s.rows, a, s.actors[a]);
  }

  /** No row changes, and the mover holds no more than before. */
  lemma LocalKeepsExclusion(s: State, a: Id, actor': Actor)
    requires ExclusionInv(s)
    requires actor'.Holding? ==> actor'.run.claimLeaseUntil == Some(actor'.until)
    requires forall id, until :: Has(actor', id, until) ==> Has(At(s, a), id, until)
    ensures AllBacked(s.clock, s.rows, s.actors[a := actor']) && Separate(s.clock, s.actors[a := actor'])
  {
    forall id, until | Live(s.clock, actor', id, until)
      ensures OthersFree(s.clock, s.actors, a, id) && Backed(s.rows, a, id, until)
    {
      MineIsSeparate(s, a, id, until);
    }
    OthersStayBacked(s, a, s.rows);
    MoveKeepsExclusion(s, a, s.rows, actor');
  }

  /** Rows that are neither queued nor lapsed stay as they were, so live leases stay backed. */
  lemma OthersStayBacked(s: State, a: Id, rows': Rows)
    requires ExclusionInv(s)
    requires forall id :: id in s.rows && s.rows[id].status != Queued && !Expired(s.rows[id], s.clock) ==>
               id in rows' && rows'[id] == s.rows[id]
    ensures forall b, id, until :: b in s.actors && b != a && Live(s.clock, s.actors[b], id, until) ==>
              Backed(rows', b, id, until)
  {
    forall b, id, until | b in s.actors && b != a && Live(s.clock, s.actors[b], id, until)
      ensures Backed(rows', b, id, until)
    {
      assert LeasesBacked(s.clock, s.rows, b, s.actors[b]) && Backed(s.rows, b, id, until);
    }
  }

  /** A queued run is held by nobody. */
  lemma QueuedIsFree(s: State, a: Id, id: Id)
    requires ExclusionInv(s) && id in s.rows && s.rows[id].status == Queued
    ensures OthersFree(s.clock, s.actors, a, id)
  {
    forall b, until | b in s.actors && b != a ensures !Live(s.clock, s.actors[b], id, until) {
      assert LeasesBacked(s.clock, s.rows, b, s.actors[b]);
      assert !Backed(s.rows, b, id, until);
    }
  }

  /** A held run of `a` is held live by nobody else. */
  lemma OwnedIsFree(s: State, a: Id, id: Id)
    requires ExclusionInv(s) && id in s.rows && s.rows[id].status.Held() && s.rows[id].claimedBy == Some(a)
    ensures OthersFree(s.clock, s.actors, a, id)
  {
    forall b, until | b in s.actors && b != a ensures !Live(s.clock, s.actors[b], id, until) {
      assert LeasesBacked(s.clock, s.rows, b, s.actors[b]);
      assert !Backed(s.rows, b, id, until);
    }
  }

  lemma ClaimNextKeepsExclusion(s: State, a: Id)
    requires Inv(s) && ExclusionInv(s) && At(s, a).Claiming? && At(s, a).next < |At(s, a).ids|
    ensures ExclusionInv(ClaimOneId(s, a))
  {
    ActorAtOk(s, a);
    var s' := ClaimOneId(s, a);
    var c, actor' := At(s, a), At(s', a);
    var id := c.ids[c.next];
    assert id in c.ids && RowOk(id, s.rows[id]);
    var claimed := ClaimById(s.rows, id, c.req.pool, a, c.req.now, c.req.ttlSecs).1;
    forall o, until | Live(s.clock, actor', o, until)
      ensures OthersFree(s.clock, s.actors, a, o) && Backed(s'.rows, a, o, until)
    {
      var r :| r in actor'.won && r.runId == o;
      if r in c.won {
        assert Has(c, o, until);
        MineIsSeparate(s, a, o, until);
      } else {
        assert claimed.Some? && r == claimed.value && o == id;
        QueuedIsFree(s, a, id);
      }
    }
    OthersStayBacked(s, a, s'.rows);
    MoveKeepsExclusion(s, a, s'.rows, actor');
  }

  lemma ClaimAllKeepsExclusion(s: State, a: Id, won: seq<Run>)
    requires Inv(s) && ExclusionInv(s) && CanClaimAll(s, a, won)
    ensures ExclusionInv(ClaimedAll(s, a, won))
  {
    var s' := ClaimedAll(s, a, won);
    var actor' := At(s', a);
    forall o, until | Live(s.clock, actor', o, until)
      ensures OthersFree(s.clock, s.actors, a, o) && Backed(s'.rows, a, o, until)
    {
      assert o in WonIds(won);
      QueuedIsFree(s, a, o);
    }
    OthersStayBacked(s, a, s'.rows);
    MoveKeepsExclusion(s, a, s'.rows, actor');
  }

  lemma ReturnKeepsExclusion(s: State, a: Id)
    requires Inv(s) && ExclusionInv(s) && At(s, a).Reconciling?
    ensures ExclusionInv(AfterReconcile(s, a))
  {
    ActorAtOk(s, a);
    var c := At(s, a);
    if c.won != [] {
      assert c.won[0] in c.won && WonOk(s.rows, a, c.req, c.ids, c.won[0]);
      assert c.won[0].runId in WonIds(c.won);
    }
    LocalKeepsExclusion(s, a, At(AfterReconcile(s, a), a));
  }

  lemma StartKeepsExclusion(s: State, a: Id)
    requires Inv(s) && ExclusionInv(s) && At(s, a).Holding? && !Contended(s, a)
    ensures ExclusionInv(RunningWritten(s, a))
  {
    ActorAtOk(s, a);
    var s' := RunningWritten(s, a);
    var id := At(s, a).run.runId;
    assert a in s.actors && LeasesBacked(s.clock, s.rows, a, s.actors[a]);
    assert OthersFree(s.clock, s.actors, a, id);
    forall b, o, until | b in s.actors && b != a && Live(s.clock, s.actors[b], o, until)
      ensures Backed(s'.rows, b, o, until)
    {
      assert o != id && LeasesBacked(s.clock, s.rows, b, s.actors[b]) && Backed(s.rows, b, o, until);
    }
    MoveKeepsExclusion(s, a, s'.rows, At(s', a));
  }

  /** The last write of a run ends it, so every lease on it stays backed. */
  lemma EndKeepsExclusion(s: State, a: Id, status: RunStatus, retry: bool)
    requires Inv(s) && ExclusionInv(s) && (At(s, a).Holding? || At(s, a).Executing?) && status.Terminal()
    ensures ExclusionInv(TerminalWritten(s, a, status, retry))
  {
    ActorAtOk(s, a);
    var s' := TerminalWritten(s, a, status, retry);
    forall b, o, until | b in s.actors && b != a && Live(s.clock, s.actors[b], o, until)
      ensures Backed(s'.rows, b, o, until)
    {
      assert LeasesBacked(s.clock, s.rows, b, s.actors[b]) && Backed(s.rows, b, o, until);
    }
    MoveKeepsExclusion(s, a, s'.rows, At(s', a));
  }

  lemma RenewKeepsExclusion(s: State, a: Id, now: Time, ttlSecs: int)
    requires Inv(s) && ExclusionInv(s) && At(s, a).Executing?
    ensures ExclusionInv(Renewed(s, a, now, ttlSecs))
  {
    ActorAtOk(s, a);
    var id := At(s, a).run.runId;
    if Renewable(s.rows[id], a) {
      var s' := Renewed(s, a, now, ttlSecs);
      OwnedIsFree(s, a, id);
      forall b, o, until | b in s.actors && b != a && Live(s.clock, s.actors[b], o, until)
        ensures Backed(s'.rows, b, o, until)
      {
        assert o != id && LeasesBacked(s.clock, s.rows, b, s.actors[b]) && Backed(s.rows, b, o, until);
      }
      MoveKeepsExclusion(s, a, s'.rows, At(s', a));
    }
  }

  lemma ReclaimKeepsExclusion(s: State, a: Id, now: Time, ids: seq<Id>)
    requires ExclusionInv(s) && At(s, a).Idle? && now <= s.clock
    ensures ExclusionInv(Reset(s, a, now, ids))
  {
    OthersStayBacked(s, a, ReclaimExpired(s.rows, now));
    MoveKeepsExclusion(s, a, ReclaimExpired(s.rows, now), Requeuing(ids));
  }

  lemma CreateKeepsExclusion(s: State, a: Id, run: Run)
    requires ExclusionInv(s) && ClaimProtocol.Fresh(s.rows, run)
    ensures ExclusionInv(Created(s, a, run))
  {
    OthersStayBacked(s, a, Created(s, a, run).rows);
    MoveKeepsExclusion(s, a, Created(s, a, run).rows, At(Created(s, a, run), a));
  }

  lemma AdvanceKeepsExclusion(s: State, to: Time)
    requires ExclusionInv(s) && s.clock <= to
    ensures ExclusionInv(s.(clock := to))
  {
    forall a | a in s.actors ensures LeasesBacked(to, s.rows, a, s.actors[a]) {
      assert LeasesBacked(s.clock, s.rows, a, s.actors[a]);
      forall id, until | Live(to, s.actors[a], id, until) ensures Backed(s.rows, a, id, until) {
        assert Live(s.clock, s.actors[a], id, until);
      }
    }
    forall a, id, until | a in s.actors && Live(to, s.actors[a], id, until) ensures OthersFree(to, s.actors, a, id) {
      assert Live(s.clock, s.actors[a], id, until) && OthersFree(s.clock, s.actors, a, id);
      forall b, u | b in s.actors && b != a ensures !Live(to, s.actors[b], id, u) {
        assert !Live(s.clock, s.actors[b], id, u);
      }
    }
  }

  lemma ClaimStepKeepsExclusion(s: State, step: Step)
    requires Inv(s) && ExclusionInv(s) && Enabled(s, step) && IsClaimStep(step)
    ensures ExclusionInv(Apply(s, step))
  {
    match step
    case BeginClaim(a, pool, ttlSecs, batch) =>
      LocalKeepsExclusion(s, a, Popping(Request(pool, s.clock, ttlSecs, batch), 0));
    case Pop(a, ids) => LocalKeepsExclusion(s, a, At(Popped(s, a, ids), a));
    case GiveUp(a) => LocalKeepsExclusion(s, a, Idle);
    case ClaimNext(a) => ClaimNextKeepsExclusion(s, a);
    case ClaimAll(a, won) => ClaimAllKeepsExclusion(s, a, won);
    case DoneClaiming(a) => LocalKeepsExclusion(s, a, At(StartReconcile(s, a), a));
    case Check(a) => LocalKeepsExclusion(s, a, At(CheckOneId(s, a), a));
    case ZAdd(a) => LocalKeepsExclusion(s, a, At(AddedBack(s, a), a));
    case DoneReconciling(a) => ReturnKeepsExclusion(s, a);
  }

  lemma StepKeepsExclusion(s: State, step: Step)
    requires Inv(s) && ExclusionInv(s) && Enabled(s, step) && StartsAlone(s, step)
    ensures ExclusionInv(Apply(s, step))
  {
    if IsClaimStep(step) {
      ClaimStepKeepsExclusion(s, step);
      return;
    }
    match step
    case Advance(to) => AdvanceKeepsExclusion(s, to);
    case Create(a, run) => CreateKeepsExclusion(s, a, run);
    case EnqueueCreated(a) => LocalKeepsExclusion(s, a, Idle);
    case WriteRunning(a) => StartKeepsExclusion(s, a);
    case RenewLease(a, now, ttlSecs) => RenewKeepsExclusion(s, a, now, ttlSecs);
    case WriteTerminal(a, status, retry) => EndKeepsExclusion(s, a, status, retry);
    case CreateRetry(a, runId, scheduledFor) =>
      CreateKeepsExclusion(s, a, NextAttempt(At(s, a).run, runId, scheduledFor));
    case BeginReclaim(a, now, ids) => ReclaimKeepsExclusion(s, a, now, ids);
    case ReadReclaimed(a) => LocalKeepsExclusion(s, a, At(ReclaimedRead(s, a), a));
    case EnqueueReclaimed(a) => LocalKeepsExclusion(s, a, Requeuing(At(s, a).ids));
    case DoneReclaiming(a) => LocalKeepsExclusion(s, a, Idle);
  }

  // ---- whole runs -------------------------------------------------------------------------------

  ghost predicate StartsAloneRun(s: State, steps: seq<Step>)
    requires Feasible(s, steps)
    decreases |steps|
  {
    steps == [] || (StartsAlone(s, steps[0]) && StartsAloneRun(Apply(s, steps[0]), steps[1..]))
  }

  lemma {:induction false} RunKeepsExclusion(s: State, steps: seq<Step>)
    requires Inv(s) && ExclusionInv(s) && Feasible(s, steps) && StartsAloneRun(s, steps)
    ensures Inv(After(s, steps)) && ExclusionInv(After(s, steps))
    decreases |steps|
  {
    if steps != [] {
      StepKeepsInv(s, steps[0]);
      StepKeepsExclusion(s, steps[0]);
      RunKeepsExclusion(Apply(s, steps[0]), steps[1..]);
    }
  }

  ghost predicate Exclusive(s: State) {
    forall a, b, id :: HoldsLive(s, a, id) && HoldsLive(s, b, id) ==> a == b
  }

  lemma InvIsExclusive(s: State)
    requires ExclusionInv(s)
    ensures Exclusive(s)
  {
    forall a, b, id | HoldsLive(s, a, id) && HoldsLive(s, b, id) ensures a == b {
      var ua :| Has(At(s, a), id, ua) && s.clock < ua;
      var ub :| Has(At(s, b), id, ub) && s.clock < ub;
      assert a in s.actors && b in s.actors && Live(s.clock, s.actors[a], id, ua);
      assert OthersFree(s.clock, s.actors, a, id) && Live(s.clock, s.actors[b], id, ub);
    }
  }

  /** In every run in which nobody starts a run that another one holds, no two actors ever hold the same run under live
      leases, however late workers finish. */
  lemma LeasesAreExclusive(s: State, steps: seq<Step>)
    requires Init(s) && Feasible(s, steps) && StartsAloneRun(s, steps)
    ensures Exclusive(After(s, steps))
  {
    RunKeepsExclusion(s, steps);
    InvIsExclusive(After(s, steps));
  }

  lemma TimelyStartsAlone(s: State, step: Step)
    requires ExclusionInv(s) && Enabled(s, step) && Timely(s, step)
    ensures StartsAlone(s, step)
  {
    if step.WriteRunning? {
      var c := At(s, step.a);
      assert step.a in s.actors && Live(s.clock, c, c.run.runId, c.until);
      MineIsSeparate(s, step.a, c.run.runId, c.until);
      forall b, until | b in s.actors && b != step.a
        ensures !(Has(s.actors[b], c.run.runId, until) && s.clock < until)
      {
        assert !Live(s.clock, s.actors[b], c.run.runId, until);
      }
    }
  }

  lemma {:induction false} TimelyRunStartsAlone(s: State, steps: seq<Step>)
    requires Inv(s) && ExclusionInv(s) && Feasible(s, steps) && TimelyRun(s, steps)
    ensures StartsAloneRun(s, steps)
    decreases |steps|
  {
    if steps != [] {
      TimelyStartsAlone(s, steps[0]);
      StepKeepsInv(s, steps[0]);
      StepKeepsExclusion(s, steps[0]);
      TimelyRunStartsAlone(Apply(s, steps[0]), steps[1..]);
    }
  }

  // ---- held runs have come due ------------------------------------------------------------------

  /** Requests were made in the past, and for runs that had come due. */
  predicate PastActor(clock: Time, actor: Actor) {
    match actor
    case Popping(req, _) => req.now <= clock
    case Claiming(req, _, _, _, _) => req.now <= clock
    case Reconciling(req, _, _, _, _) => req.now <= clock
    case PuttingBack(req, _, _, _, _, _) => req.now <= clock
    case Holding(run, _) => run.scheduledFor <= clock
    case Executing(run, _) => run.scheduledFor <= clock
    case _ => true
  }

  predicate PastInv(s: State) {
    forall a :: a in s.actors ==> PastActor(s.clock, s.actors[a])
  }

  lemma StepKeepsPast(s: State, step: Step)
    requires Inv(s) && PastInv(s) && Enabled(s, step)
    ensures PastInv(Apply(s, step))
  {
    if !step.Advance? {
      OneMoves(s, step);
      assert PastActor(s.clock, At(s, step.a));
      if step.DoneReconciling? && At(s, step.a).won != [] {
        ActorAtOk(s, step.a);
        assert At(s, step.a).won[0] in At(s, step.a).won;
      }
      MoverIsPast(s, step);
    }
  }

  lemma OneMoves(s: State, step: Step)
    requires Enabled(s, step) && !step.Advance?
    ensures Apply(s, step).clock == s.clock
    ensures Apply(s, step).actors == s.actors[step.a := At(Apply(s, step), step.a)] || Apply(s, step) == s
  {}

  lemma MoverIsPast(s: State, step: Step)
    requires Enabled(s, step) && !step.Advance? && PastActor(s.clock, At(s, step.a))
    requires step.DoneReconciling? && At(s, step.a).won != [] ==>
               At(s, step.a).won[0].scheduledFor <= At(s, step.a).req.now
    ensures PastActor(s.clock, At(Apply(s, step), step.a))
  {}

  lemma {:induction false} RunKeepsPast(s: State, steps: seq<Step>)
    requires Inv(s) && PastInv(s) && Feasible(s, steps)
    ensures PastInv(After(s, steps))
    decreases |steps|
  {
    if steps != [] {
      StepKeepsInv(s, steps[0]);
      StepKeepsPast(s, steps[0]);
      RunKeepsPast(Apply(s, steps[0]), steps[1..]);
    }
  }

  // ---- a contended start ------------------------------------------------------------------------

  lemma {:induction false} Longest(ids: set<Id>) returns (n: nat)
    ensures forall id :: id in ids ==> |id| <= n
    decreases |ids|
  {
    n := 0;
    if ids != {} {
      var id :| id in ids;
      var m := Longest(ids - {id});
      n := if |id| <= m then m else |id|;
    }
  }

  /** There is always another id. */
  lemma FreshId(ids: set<Id>) returns (x: Id)
    ensures x !in ids
  {
    var n := Longest(ids);
    x := seq(n + 1, i => 'x');
  }

  /** A set as a list without repetitions that starts with `first`. */
  lemma {:induction false} Listed(ids: set<Id>, first: Id) returns (list: seq<Id>)
    requires first in ids
    ensures Distinct(list) && SetOf(list) == ids && list != [] && list[0] == first
    decreases |ids|
  {
    list := [first];
    var rest := ids - {first};
    if rest == {} {
      assert SetOf(list) == {first} == ids;
    } else {
      var second :| second in rest;
      var tail := Listed(rest, second);
      list := [first] + tail;
      assert forall id :: id in list <==> id == first || id in SetOf(tail);
      assert first !in SetOf(tail);
    }
  }

  /** What stays fixed while new actors come to a waiting run: its row, the clock, and everybody who was there. */
  predicate SameForAll(s: State, s': State) {
    && s'.rows == s.rows && s'.clock == s.clock
    && forall b :: b in s.actors ==> b in s'.actors && s'.actors[b] == s.actors[b]
  }

  /** The request of a new claimer. */
  function NewRequest(s: State, pool: string): Request {
    Request(pool, s.clock, 1, 1)
  }

  /** A new claimer pops the first due member of a pool. */
  function FirstPopped(s: State, pool: string, w: Id, first: Id): State {
    s.(scores := Without(s.scores, pool, [first]),
       actors := s.actors[w := Claiming(NewRequest(s, pool), 0, [first], 0, [])])
  }

  lemma PopFirst(s: State, pool: string, w: Id, first: Id, s': State)
    requires IsFirst(s.scores, pool, Millis(s.clock), first) && w !in s.actors
    requires Reached(FirstPopped(s, pool, w, first), s')
    ensures Reached(s, s')
  {
    var req := NewRequest(s, pool);
    var s1 := Become(s, w, Popping(req, 0));
    assert Without(s.scores, pool, []) == s.scores && [first][..0] == [];
    assert IsDueRange(s1.scores, pool, Millis(req.now), 1, [first]);
    assert Popped(s1, w, [first]) == FirstPopped(s, pool, w, first) by {
      assert s1.actors[w := Claiming(req, 0, [first], 0, [])] == s.actors[w := Claiming(req, 0, [first], 0, [])];
    }
    StepFirst(s1, Pop(w, [first]), s');
    StepFirst(s, BeginClaim(w, pool, 1, 1), s');
  }

  /** New claimers come one after another, each popping one member, until one of them has popped the due run. */
  lemma {:induction false} PoppedAtLast(s: State, pool: string, id: Id) returns (s': State, w: Id)
    requires Due(s.scores, pool, Millis(s.clock), id)
    ensures Reached(s, s') && SameForAll(s, s') && w !in s.actors
    ensures At(s', w) == Claiming(NewRequest(s, pool), 0, [id], 0, [])
    decreases |DueIds(s.scores, pool, Millis(s.clock))|
  {
    var max := Millis(s.clock);
    DueIdsAreDue(s.scores, pool, max, id);
    var first := First(s.scores, pool, max).value;
    var v := FreshId(s.actors.Keys);
    var s1 := FirstPopped(s, pool, v, first);
    if first == id {
      s', w := s1, v;
      Nowhere(s');
    } else {
      FewerDue(s.scores, pool, max, first, id);
      s', w := PoppedAtLast(s1, pool, id);
    }
    PopFirst(s, pool, v, first, s');
  }

  lemma FewerDue(scores: Scores, pool: string, max: int, first: Id, id: Id)
    requires IsFirst(scores, pool, max, first) && Due(scores, pool, max, id) && first != id
    ensures Due(Without(scores, pool, [first]), pool, max, id)
    ensures |DueIds(Without(scores, pool, [first]), pool, max)| < |DueIds(scores, pool, max)|
  {
    var rest := Without(scores, pool, [first]);
    DueIdsAreDue(scores, pool, max, first);
    forall o | o in DueIds(rest, pool, max) ensures o in DueIds(scores, pool, max) && o != first {
      DueIdsAreDue(rest, pool, max, o);
      DueIdsAreDue(scores, pool, max, o);
    }
    StrictSubsetIsSmaller(DueIds(rest, pool, max), DueIds(scores, pool, max), first);
  }

  /** A queued run that waits in its own pool's set is claimed by somebody new. */
  lemma WaitingIsClaimed(s: State, id: Id) returns (s': State, w: Id)
    requires id in s.rows && s.rows[id].runId == id && s.rows[id].status == Queued && s.rows[id].claimLeaseUntil.None?
    requires s.rows[id].scheduledFor <= s.clock && Waiting(s.rows, s.scores, id)
    ensures Reached(s, s') && w !in s.actors && HoldsLive(s', w, id) && s'.clock == s.clock
    ensures forall b :: b in s.actors ==> b in s'.actors && s'.actors[b] == s.actors[b]
  {
    var pool := RunPoolKey(s.rows[id].poolId);
    MillisMonotone(s.rows[id].scheduledFor, s.clock);
    var s1;
    s1, w := PoppedAtLast(s, pool, id);
    PoolTestIsQueueKey(s.rows[id].poolId, pool);
    s' := ClaimOneId(s1, w);
    assert s'.rows[id] in At(s', w).won;
    assert Has(At(s', w), id, s.clock + Seconds(1));
    Nowhere(s');
    StepFirst(s1, ClaimNext(w), s');
    ReachedOn(s, s1, s');
  }

  lemma ReachedOn(s: State, m: State, s': State)
    requires Reached(s, m) && Reached(m, s')
    ensures Reached(s, s')
  {
    var steps :| Feasible(s, steps) && TimelyRun(s, steps) && After(s, steps) == m;
    ReachedFurther(s, steps, s');
  }

  lemma {:induction false} ReachedFurther(s: State, steps: seq<Step>, s': State)
    requires Feasible(s, steps) && TimelyRun(s, steps) && Reached(After(s, steps), s')
    ensures Reached(s, s')
    decreases |steps|
  {
    if steps != [] {
      ReachedFurther(Apply(s, steps[0]), steps[1..], s');
      StepFirst(s, steps[0], s');
    }
  }

  /** Somebody new reclaims a lapsed run and puts it in its pool's set. */
  lemma LapsedIsQueued(s: State, id: Id) returns (s': State)
    requires id in s.rows && s.rows[id].runId == id && Expired(s.rows[id], s.clock)
    ensures Reached(s, s') && s'.clock == s.clock && id in s'.rows && s'.rows[id] == ResetRow(s.rows[id])
    ensures Waiting(s'.rows, s'.scores, id)
    ensures forall b :: b in s.actors ==> b in s'.actors && s'.actors[b] == s.actors[b]
  {
    var r := FreshId(s.actors.Keys);
    var ids := Listed(ExpiredIds(s.rows, s.clock), id);
    var s1 := Reset(s, r, s.clock, ids);
    var s2 := ReclaimedRead(s1, r);
    assert At(s2, r) == RequeuingOne(s1.rows[id], ids[1..]);
    s' := Enqueued(s2, r, s1.rows[id], Requeuing(ids[1..]));
    Nowhere(s');
    StepFirst(s2, EnqueueReclaimed(r), s');
    StepFirst(s1, ReadReclaimed(r), s');
    StepFirst(s, BeginReclaim(r, s.clock, ids), s');
  }

  /** After a contended start the run is reclaimed at once, under the lease the late worker wrote back, and claimed by
      a third while the second still holds it. */
  lemma ContendedStartIsJoined(s: State, a: Id) returns (s': State)
    requires Inv(s) && ExclusionInv(s) && PastInv(s) && Enabled(s, WriteRunning(a)) && Contended(s, a)
    ensures Reached(RunningWritten(s, a), s') && !Exclusive(s')
  {
    ActorAtOk(s, a);
    var id := At(s, a).run.runId;
    var b, until :| b in s.actors && b != a && Has(s.actors[b], id, until) && s.clock < until;
    LateStarter(s, a, b, id, until);
    var s1 := RunningWritten(s, a);
    assert PastActor(s.clock, s.actors[a]);
    var s2 := LapsedIsQueued(s1, id);
    var w;
    s', w := WaitingIsClaimed(s2, id);
    ReachedOn(s1, s2, s');
    assert b in s1.actors && s1.actors[b] == s.actors[b];
    assert Has(At(s', b), id, until) && HoldsLive(s', b, id) && HoldsLive(s', w, id) && w != b;
  }

  /** Whoever starts a run that another one holds live has lost it. */
  lemma LateStarter(s: State, a: Id, b: Id, id: Id, until: Time)
    requires Inv(s) && ExclusionInv(s) && At(s, a).Holding? && At(s, a).run.runId == id
    requires b in s.actors && b != a && Has(s.actors[b], id, until) && s.clock < until
    ensures At(s, a).until <= s.clock && At(s, a).run.claimLeaseUntil == Some(At(s, a).until)
    ensures var row := RunningWritten(s, a).rows[id]; row.runId == id && Expired(row, s.clock)
  {
    ActorAtOk(s, a);
    assert a in s.actors && LeasesBacked(s.clock, s.rows, a, s.actors[a]);
    assert Live(s.clock, s.actors[b], id, until) && OthersFree(s.clock, s.actors, b, id);
    assert !Live(s.clock, s.actors[a], id, At(s, a).until);
  }

  /** A worker's running write is safe exactly when nobody else holds the run live: then no timely continuation gives
      two actors the same run, and otherwise one does. */
  lemma StartIsSafeIff(s: State, a: Id)
    requires Inv(s) && ExclusionInv(s) && PastInv(s) && Enabled(s, WriteRunning(a))
    ensures (forall s' :: Reached(RunningWritten(s, a), s') ==> Exclusive(s')) <==> !Contended(s, a)
  {
    if Contended(s, a) {
      var s' := ContendedStartIsJoined(s, a);
    } else {
      var s1 := RunningWritten(s, a);
      WriteRunningKeepsInv(s, a);
      StartKeepsExclusion(s, a);
      forall s' | Reached(s1, s') ensures Exclusive(s') {
        var steps :| Feasible(s1, steps) && TimelyRun(s1, steps) && After(s1, steps) == s';
        TimelyRunStartsAlone(s1, steps);
        RunKeepsExclusion(s1, steps);
        InvIsExclusive(s');
      }
    }
  }

  /** The last write of a run, on the other hand, is always safe. */
  lemma EndIsSafe(s: State, a: Id, status: RunStatus, retry: bool)
    requires Inv(s) && ExclusionInv(s) && Enabled(s, WriteTerminal(a, status, retry))
    ensures forall s' :: Reached(TerminalWritten(s, a, status, retry), s') ==> Exclusive(s')
  {
    var s1 := TerminalWritten(s, a, status, retry);
    WriteTerminalKeepsInv(s, a, status, retry);
    EndKeepsExclusion(s, a, status, retry);
    forall s' | Reached(s1, s') ensures Exclusive(s') {
      var steps :| Feasible(s1, steps) && TimelyRun(s1, steps) && After(s1, steps) == s';
      TimelyRunStartsAlone(s1, steps);
      RunKeepsExclusion(s1, steps);
      InvIsExclusive(s');
    }
  }

  /** The hypotheses of both hold in every state of every run in which nobody has started a run that another held. */
  lemma ReachableStates(s: State, steps: seq<Step>)
    requires Init(s) && Feasible(s, steps) && StartsAloneRun(s, steps)
    ensures var e := After(s, steps); Inv(e) && ExclusionInv(e) && PastInv(e)
  {
    RunKeepsExclusion(s, steps);
    RunKeepsPast(s, steps);
  }
}
