/** Creators, claimers, workers and reclaimers racing on the SQL rows and the ready queue. Every step is one
    store call (or the local move after it) of one actor; any actor may move next. */
module ClaimProtocol {
  import opened Models
  import opened Collections
  import opened RunRules
  import opened ReadyQueue
  import opened CompositeRules

  /** The arguments of one `claim_next_queued` call; `now` is read once, before the loop. */
  datatype Request = Request(pool: string, now: Time, ttlSecs: int, batch: nat)

  /** Where an actor stands. `until` is the lease end its last successful claim or renewal gave it. */
  datatype Actor =
    | Idle
    | Creating(run: Run)
    | Popping(req: Request, attempt: nat)
    | Claiming(req: Request, attempt: nat, ids: seq<Id>, next: nat, won: seq<Run>)
    | Reconciling(req: Request, attempt: nat, ids: seq<Id>, next: nat, won: seq<Run>)
    | PuttingBack(req: Request, attempt: nat, ids: seq<Id>, next: nat, won: seq<Run>, run: Run)
    | Holding(run: Run, until: Time)
    | Executing(run: Run, until: Time)
    | Retrying(run: Run)
    | Requeuing(ids: seq<Id>)
    | RequeuingOne(run: Run, ids: seq<Id>)

  /** An actor's id is also its worker id. `retryOf` records which run each retry was created for. */
  datatype State = State(clock: Time, rows: Rows, scores: Scores, actors: map<Id, Actor>, retryOf: map<Id, Id>)

  datatype Step =
    | Advance(to: Time)
    | Create(a: Id, run: Run)
    | EnqueueCreated(a: Id)
    | BeginClaim(a: Id, pool: string, ttlSecs: int, batch: nat)
    | Pop(a: Id, ids: seq<Id>)
    | GiveUp(a: Id)
    | ClaimNext(a: Id)
    | ClaimAll(a: Id, won: seq<Run>)
    | DoneClaiming(a: Id)
    | Check(a: Id)
    | ZAdd(a: Id)
    | DoneReconciling(a: Id)
    | WriteRunning(a: Id)
    | RenewLease(a: Id, now: Time, ttlSecs: int)
    | WriteTerminal(a: Id, status: RunStatus, retry: bool)
    | CreateRetry(a: Id, runId: Id, scheduledFor: Time)
    | BeginReclaim(a: Id, now: Time, ids: seq<Id>)
    | ReadReclaimed(a: Id)
    | EnqueueReclaimed(a: Id)
    | DoneReclaiming(a: Id)

  function At(s: State, a: Id): Actor {
    if a in s.actors then s.actors[a] else Idle
  }

  function WonIds(won: seq<Run>): set<Id> {
    set r | r in won :: r.runId
  }

  /** A new row as its creators build it: queued rows are unheld, held rows never start here. */
  predicate Fresh(rows: Rows, run: Run) {
    && run.runId !in rows
    && !run.status.Held()
    && (run.status == Queued ==> run.claimedBy.None? && run.claimLeaseUntil.None?)
  }

  ghost predicate CanPop(s: State, a: Id, ids: seq<Id>) {
    var c := At(s, a);
    && c.Popping? && c.attempt < MAX_ATTEMPTS
    && IsDueRange(s.scores, c.req.pool, Millis(c.req.now), c.req.batch, ids)
  }

  /** The single statement over all ids reports each row it took, in any order. */
  predicate CanClaimAll(s: State, a: Id, won: seq<Run>) {
    var c := At(s, a);
    && c.Claiming? && c.next == 0 && c.won == []
    && WonIds(won) == ClaimableIds(s.rows, SetOf(c.ids), c.req.pool, c.req.now)
    && forall r :: r in won ==>
         r.runId in s.rows && r == ClaimedRow(s.rows[r.runId], a, c.req.now, c.req.ttlSecs)
  }

  ghost predicate Enabled(s: State, step: Step) {
    match step
    case Advance(to) => s.clock <= to
    case Create(a, run) => At(s, a).Idle? && Fresh(s.rows, run)
    case EnqueueCreated(a) => At(s, a).Creating?
    case BeginClaim(a, _, ttlSecs, batch) => At(s, a).Idle? && batch > 0
    case Pop(a, ids) => CanPop(s, a, ids)
    case GiveUp(a) => At(s, a).Popping? && At(s, a).attempt >= MAX_ATTEMPTS
    case ClaimNext(a) => At(s, a).Claiming? && At(s, a).next < |At(s, a).ids|
    case ClaimAll(a, won) => CanClaimAll(s, a, won)
    case DoneClaiming(a) => At(s, a).Claiming? && At(s, a).next >= |At(s, a).ids|
    case Check(a) => At(s, a).Reconciling? && At(s, a).next < |At(s, a).ids|
    case ZAdd(a) => At(s, a).PuttingBack?
    case DoneReconciling(a) => At(s, a).Reconciling? && At(s, a).next >= |At(s, a).ids|
    case WriteRunning(a) => At(s, a).Holding? && At(s, a).run.jobId.Some?
    case RenewLease(a, now, _) => At(s, a).Executing? && now <= s.clock
    case WriteTerminal(a, status, retry) =>
      status.Terminal() && (At(s, a).Executing? || (At(s, a).Holding? && !retry))
    case CreateRetry(a, runId, _) => At(s, a).Retrying? && runId !in s.rows
    case BeginReclaim(a, now, ids) =>
      At(s, a).Idle? && now <= s.clock && SetOf(ids) == ExpiredIds(s.rows, now) && Distinct(ids)
    case ReadReclaimed(a) => At(s, a).Requeuing? && At(s, a).ids != []
    case EnqueueReclaimed(a) => At(s, a).RequeuingOne?
    case DoneReclaiming(a) => At(s, a).Requeuing? && At(s, a).ids == []
  }

  function Become(s: State, a: Id, actor: Actor): State {
    s.(actors := s.actors[a := actor])
  }

  /** A ZADD of `run` into its own pool's set. */
  function Enqueued(s: State, a: Id, run: Run, actor: Actor): State {
    Become(s.(scores := Added(s.scores, RunPoolKey(run.poolId), run.runId, run.scheduledFor)), a, actor)
  }

  function Popped(s: State, a: Id, ids: seq<Id>): State
    requires At(s, a).Popping?
  {
    var c := At(s, a);
    Become(s.(scores := Without(s.scores, c.req.pool, ids)), a,
           if ids == [] then Idle else Claiming(c.req, c.attempt, ids, 0, []))
  }

  function ClaimedAll(s: State, a: Id, won: seq<Run>): State
    requires At(s, a).Claiming?
  {
    var c := At(s, a);
    Become(s.(rows := ClaimSet(s.rows, SetOf(c.ids), c.req.pool, a, c.req.now, c.req.ttlSecs)), a,
           Claiming(c.req, c.attempt, c.ids, |c.ids|, won))
  }

  function StartReconcile(s: State, a: Id): State
    requires At(s, a).Claiming?
  {
    var c := At(s, a);
    Become(s, a, Reconciling(c.req, c.attempt, c.ids, 0, c.won))
  }

  /** What the claim statement for one popped id does. */
  function ClaimOneId(s: State, a: Id): State
    requires At(s, a).Claiming? && At(s, a).next < |At(s, a).ids|
  {
    var c := At(s, a);
    var (rows, claimed) := ClaimById(s.rows, c.ids[c.next], c.req.pool, a, c.req.now, c.req.ttlSecs);
    Become(s.(rows := rows), a,
           Claiming(c.req, c.attempt, c.ids, c.next + 1,
                    if claimed.Some? then c.won + [claimed.value] else c.won))
  }

  /** Reading a popped, unclaimed row and deciding whether it goes back. */
  function CheckOneId(s: State, a: Id): State
    requires At(s, a).Reconciling? && At(s, a).next < |At(s, a).ids|
  {
    var c := At(s, a);
    var id := c.ids[c.next];
    if id !in WonIds(c.won) && id in s.rows && RequeueTarget(s.rows[id], c.req.pool, c.req.now).Some? then
      Become(s, a, PuttingBack(c.req, c.attempt, c.ids, c.next, c.won, s.rows[id]))
    else
      Become(s, a, Reconciling(c.req, c.attempt, c.ids, c.next + 1, c.won))
  }

  function AddedBack(s: State, a: Id): State
    requires At(s, a).PuttingBack?
  {
    var c := At(s, a);
    var target := RequeueTarget(c.run, c.req.pool, c.req.now);
    Become(if target.Some? then s.(scores := Added(s.scores, target.value, c.run.runId, c.run.scheduledFor)) else s,
           a, Reconciling(c.req, c.attempt, c.ids, c.next + 1, c.won))
  }

  function Created(s: State, a: Id, run: Run): State {
    Become(s.(rows := s.rows[run.runId := run]), a, if run.status == Queued then Creating(run) else Idle)
  }

  function RetryCreated(s: State, a: Id, runId: Id, scheduledFor: Time): State
    requires At(s, a).Retrying?
  {
    Created(s, a, NextAttempt(At(s, a).run, runId, scheduledFor)).(retryOf := s.retryOf[runId := At(s, a).run.runId])
  }

  function AfterReconcile(s: State, a: Id): State
    requires At(s, a).Reconciling?
  {
    var c := At(s, a);
    if c.won != [] then
      Become(s, a, Holding(c.won[0], c.req.now + Seconds(c.req.ttlSecs)))
    else
      Become(s, a, Popping(c.req, c.attempt + 1))
  }

  function Renewed(s: State, a: Id, now: Time, ttlSecs: int): State
    requires At(s, a).Executing?
  {
    var c := At(s, a);
    if c.run.runId in s.rows && Renewable(s.rows[c.run.runId], a) then
      Become(s.(rows := Renew(s.rows, c.run.runId, a, now, ttlSecs)), a,
             Executing(c.run, now + Seconds(ttlSecs)))
    else
      s
  }

  /** An unfenced whole-row write of the worker's own copy. */
  function Written(s: State, run: Run): State {
    if run.runId in s.rows then s.(rows := s.rows[run.runId := run]) else s
  }

  function RunningWritten(s: State, a: Id): State
    requires At(s, a).Holding?
  {
    var run := Started(At(s, a).run, s.clock);
    Become(Written(s, run), a, Executing(run, At(s, a).until))
  }

  function TerminalWritten(s: State, a: Id, status: RunStatus, retry: bool): State
    requires At(s, a).Holding? || At(s, a).Executing?
  {
    var run := Finished(At(s, a).run, status, s.clock);
    Become(Written(s, run), a, if retry then Retrying(run) else Idle)
  }

  function Reset(s: State, a: Id, now: Time, ids: seq<Id>): State {
    Become(s.(rows := ReclaimExpired(s.rows, now)), a, Requeuing(ids))
  }

  function ReclaimedRead(s: State, a: Id): State
    requires At(s, a).Requeuing? && At(s, a).ids != []
  {
    var ids := At(s, a).ids;
    Become(s, a, if ids[0] in s.rows then RequeuingOne(s.rows[ids[0]], ids[1..]) else Requeuing(ids[1..]))
  }

  ghost function Apply(s: State, step: Step): State
    requires Enabled(s, step)
  {
    match step
    case Advance(to) => s.(clock := to)
    case Create(a, run) => Created(s, a, run)
    case EnqueueCreated(a) => Enqueued(s, a, At(s, a).run, Idle)
    case BeginClaim(a, pool, ttlSecs, batch) => Become(s, a, Popping(Request(pool, s.clock, ttlSecs, batch), 0))
    case Pop(a, ids) => Popped(s, a, ids)
    case GiveUp(a) => Become(s, a, Idle)
    case ClaimNext(a) => ClaimOneId(s, a)
    case ClaimAll(a, won) => ClaimedAll(s, a, won)
    case DoneClaiming(a) => StartReconcile(s, a)
    case Check(a) => CheckOneId(s, a)
    case ZAdd(a) => AddedBack(s, a)
    case DoneReconciling(a) => AfterReconcile(s, a)
    case WriteRunning(a) => RunningWritten(s, a)
    case RenewLease(a, now, ttlSecs) => Renewed(s, a, now, ttlSecs)
    case WriteTerminal(a, status, retry) => TerminalWritten(s, a, status, retry)
    case CreateRetry(a, runId, scheduledFor) => RetryCreated(s, a, runId, scheduledFor)
    case BeginReclaim(a, now, ids) => Reset(s, a, now, ids)
    case ReadReclaimed(a) => ReclaimedRead(s, a)
    case EnqueueReclaimed(a) => Enqueued(s, a, At(s, a).run, Requeuing(At(s, a).ids))
    case DoneReclaiming(a) => Become(s, a, Idle)
  }

  // ---- the invariant ----------------------------------------------------------------------------

  /** The actor still has to claim this run or put it (back) in its queue. */
  predicate Owes(actor: Actor, row: Run) {
    match actor
    case Creating(run) => row.runId == run.runId
    case Claiming(req, _, ids, next, _) =>
      next <= |ids|
      && (row.runId in ids[next..]
          || (row.runId in ids[..next] && RequeueTarget(row, req.pool, req.now).Some?))
    case Reconciling(req, _, ids, next, _) =>
      next <= |ids| && row.runId in ids[next..] && RequeueTarget(row, req.pool, req.now).Some?
    case PuttingBack(req, _, ids, next, _, run) =>
      row.runId == run.runId
      || (next < |ids| && row.runId in ids[next + 1..] && RequeueTarget(row, req.pool, req.now).Some?)
    case Requeuing(ids) => row.runId in ids
    case RequeuingOne(run, ids) => row.runId == run.runId || row.runId in ids
    case _ => false
  }

  ghost predicate Owed(s: State, id: Id)
    requires id in s.rows
  {
    exists a :: a in s.actors && Owes(s.actors[a], s.rows[id])
  }

  /** A queued run is unheld; a held run has an owner and a lease end. */
  predicate RowOk(id: Id, row: Run) {
    && row.runId == id
    && (row.status == Queued ==> row.claimedBy.None? && row.claimLeaseUntil.None?)
    && (row.status.Held() ==> row.claimedBy.Some? && row.claimLeaseUntil.Some?)
  }

  /** Every member of a set is a known run, in its own pool's set, under its due millisecond. */
  predicate EntryOk(rows: Rows, e: Entry, score: int) {
    && e.runId in rows
    && e.pool == RunPoolKey(rows[e.runId].poolId)
    && score == Millis(rows[e.runId].scheduledFor)
  }

  /** A copy of a row that an actor carries agrees with the store on everything fixed at creation. */
  predicate CopyOk(rows: Rows, run: Run) {
    run.runId in rows && Snap(run) == Snap(rows[run.runId])
  }

  predicate WonOk(rows: Rows, a: Id, req: Request, ids: seq<Id>, run: Run) {
    && CopyOk(rows, run) && run.runId in ids
    && run.status == Claimed && run.claimedBy == Some(a)
    && run.claimLeaseUntil == Some(req.now + Seconds(req.ttlSecs))
    && run.scheduledFor <= req.now && RunPoolKey(run.poolId) == req.pool
  }

  predicate LoopOk(rows: Rows, a: Id, req: Request, ids: seq<Id>, next: nat, won: seq<Run>) {
    && next <= |ids|
    && (forall id :: id in ids ==> id in rows)
    && (forall r :: r in won ==> WonOk(rows, a, req, ids, r))
  }

  predicate ActorOk(rows: Rows, a: Id, actor: Actor) {
    match actor
    case Idle => true
    case Creating(run) => CopyOk(rows, run)
    case Popping(_, _) => true
    case Claiming(req, _, ids, next, won) => LoopOk(rows, a, req, ids, next, won)
    case Reconciling(req, _, ids, next, won) => LoopOk(rows, a, req, ids, next, won)
    case PuttingBack(req, _, ids, next, won, run) =>
      && LoopOk(rows, a, req, ids, next, won) && next < |ids|
      && CopyOk(rows, run) && run.runId == ids[next]
      && RequeueTarget(run, req.pool, req.now).Some?
    case Holding(run, _) => CopyOk(rows, run) && run.claimedBy == Some(a) && run.claimLeaseUntil.Some?
    case Executing(run, _) => CopyOk(rows, run) && run.claimedBy == Some(a) && run.claimLeaseUntil.Some?
    case Retrying(run) => CopyOk(rows, run)
    case Requeuing(ids) => forall id :: id in ids ==> id in rows
    case RequeuingOne(run, ids) => CopyOk(rows, run) && forall id :: id in ids ==> id in rows
  }

  /** Every run that SQL calls queued waits in its own pool's set, or some actor still owes it. */
  ghost predicate NoRunLost(s: State) {
    forall id :: id in s.rows && s.rows[id].status == Queued ==> Waiting(s.rows, s.scores, id) || Owed(s, id)
  }

  predicate RowsOk(rows: Rows) {
    forall id :: id in rows ==> RowOk(id, rows[id])
  }

  predicate EntriesOk(rows: Rows, scores: Scores) {
    forall e :: e in scores ==> EntryOk(rows, e, scores[e])
  }

  predicate ActorsOk(s: State) {
    forall a :: a in s.actors ==> ActorOk(s.rows, a, s.actors[a])
  }

  ghost predicate Inv(s: State) {
    RowsOk(s.rows) && EntriesOk(s.rows, s.scores) && ActorsOk(s) && NoRunLost(s)
  }

  predicate Init(s: State) {
    s.rows == map[] && s.scores == map[] && s.actors == map[] && s.retryOf == map[]
  }

  /** Rows are never removed, and what a run fixes at creation never changes. */
  predicate Extends(rows: Rows, rows': Rows) {
    forall id :: id in rows ==> id in rows' && Snap(rows'[id]) == Snap(rows[id])
  }

  // ---- preservation -----------------------------------------------------------------------------

  lemma CopiesSurvive(rows: Rows, rows': Rows, a: Id, actor: Actor)
    requires ActorOk(rows, a, actor) && Extends(rows, rows')
    ensures ActorOk(rows', a, actor)
  {}

  lemma EntriesSurvive(rows: Rows, rows': Rows, scores: Scores)
    requires EntriesOk(rows, scores) && Extends(rows, rows')
    ensures EntriesOk(rows', scores)
  {}

  lemma AddedEntryOk(rows: Rows, scores: Scores, run: Run)
    requires RowsOk(rows) && EntriesOk(rows, scores) && CopyOk(rows, run)
    ensures EntriesOk(rows, Added(scores, RunPoolKey(run.poolId), run.runId, run.scheduledFor))
    ensures rows[run.runId].status == Queued ==>
              Waiting(rows, Added(scores, RunPoolKey(run.poolId), run.runId, run.scheduledFor), run.runId)
    ensures forall id :: Waiting(rows, scores, id) ==>
              Waiting(rows, Added(scores, RunPoolKey(run.poolId), run.runId, run.scheduledFor), id)
  {}

  /** The run waits, or the mover owes it, or the move did not concern it. */
  predicate Accounted(s: State, a: Id, rows': Rows, scores': Scores, actor': Actor, id: Id)
    requires id in rows'
  {
    || Waiting(rows', scores', id)
    || Owes(actor', rows'[id])
    || (id in s.rows && s.rows[id] == rows'[id] && !Waiting(s.rows, s.scores, id) && !Owes(At(s, a), s.rows[id]))
  }

  predicate AllAccounted(s: State, a: Id, rows': Rows, scores': Scores, actor': Actor) {
    forall id :: id in rows' && rows'[id].status == Queued ==> Accounted(s, a, rows', scores', actor', id)
  }

  function Moved(s: State, a: Id, rows': Rows, scores': Scores, actor': Actor): State {
    State(s.clock, rows', scores', s.actors[a := actor'], s.retryOf)
  }

  lemma ActorAtOk(s: State, a: Id)
    requires Inv(s)
    ensures ActorOk(s.rows, a, At(s, a))
  {}

  /** One actor moved: the invariant holds again if the rows were only extended, the sets are sound, the
      actor's new state is sound, and every queued run is still accounted for. */
  lemma MoveKeepsInv(s: State, a: Id, rows': Rows, scores': Scores, actor': Actor)
    requires Inv(s)
    requires Extends(s.rows, rows') && RowsOk(rows') && EntriesOk(rows', scores')
    requires ActorOk(rows', a, actor')
    requires AllAccounted(s, a, rows', scores', actor')
    ensures Inv(Moved(s, a, rows', scores', actor'))
  {
    var s' := Moved(s, a, rows', scores', actor');
    forall b | b in s'.actors ensures ActorOk(s'.rows, b, s'.actors[b]) {
      if b != a {
        CopiesSurvive(s.rows, s'.rows, b, s.actors[b]);
      }
    }
    forall id | id in s'.rows && s'.rows[id].status == Queued
      ensures Waiting(s'.rows, s'.scores, id) || Owed(s', id)
    {
      assert Accounted(s, a, rows', scores', actor', id);
      if Owes(actor', rows'[id]) {
        assert a in s'.actors && s'.actors[a] == actor';
      } else if !Waiting(rows', scores', id) {
        var b :| b in s.actors && Owes(s.actors[b], s.rows[id]);
        assert b in s'.actors && s'.actors[b] == s.actors[b];
      }
    }
  }

  lemma CreateKeepsInv(s: State, a: Id, run: Run)
    requires Inv(s) && Fresh(s.rows, run) && (At(s, a).Idle? || At(s, a).Retrying?)
    ensures Inv(Created(s, a, run)) && Extends(s.rows, Created(s, a, run).rows)
  {
    var rows' := s.rows[run.runId := run];
    EntriesSurvive(s.rows, rows', s.scores);
    var actor' := if run.status == Queued then Creating(run) else Idle;
    forall id | id in rows' && rows'[id].status == Queued ensures Accounted(s, a, rows', s.scores, actor', id) {}
    MoveKeepsInv(s, a, rows', s.scores, actor');
  }

  /** A ZADD of a copied run leaves every other run where it was and settles what the actor owed for it. */
  lemma AddKeepsInv(s: State, a: Id, run: Run, actor': Actor)
    requires Inv(s) && CopyOk(s.rows, run) && ActorOk(s.rows, a, actor')
    requires forall id :: id in s.rows && id != run.runId && Owes(At(s, a), s.rows[id]) ==> Owes(actor', s.rows[id])
    ensures Inv(Moved(s, a, s.rows, Added(s.scores, RunPoolKey(run.poolId), run.runId, run.scheduledFor), actor'))
  {
    var scores' := Added(s.scores, RunPoolKey(run.poolId), run.runId, run.scheduledFor);
    AddedEntryOk(s.rows, s.scores, run);
    forall id | id in s.rows && s.rows[id].status == Queued ensures Accounted(s, a, s.rows, scores', actor', id) {}
    MoveKeepsInv(s, a, s.rows, scores', actor');
  }

  /** A move that touches neither store and keeps every obligation on queued runs. */
  lemma LocalMoveKeepsInv(s: State, a: Id, actor': Actor)
    requires Inv(s) && ActorOk(s.rows, a, actor')
    requires forall id :: id in s.rows && s.rows[id].status == Queued && Owes(At(s, a), s.rows[id]) ==>
               Owes(actor', s.rows[id])
    ensures Inv(Become(s, a, actor'))
  {
    forall id | id in s.rows && s.rows[id].status == Queued ensures Accounted(s, a, s.rows, s.scores, actor', id) {}
    MoveKeepsInv(s, a, s.rows, s.scores, actor');
    assert Become(s, a, actor') == Moved(s, a, s.rows, s.scores, actor');
  }

  lemma PopKeepsInv(s: State, a: Id, ids: seq<Id>)
    requires Inv(s) && CanPop(s, a, ids)
    ensures Inv(Popped(s, a, ids))
  {
    var c := At(s, a);
    var scores' := Without(s.scores, c.req.pool, ids);
    var actor' := if ids == [] then Idle else Claiming(c.req, c.attempt, ids, 0, []);
    DueRangeIsDistinctAndDue(s.scores, c.req.pool, Millis(c.req.now), c.req.batch, ids);
    forall id | id in ids ensures id in s.rows {
      assert EntryOk(s.rows, Entry(c.req.pool, id), s.scores[Entry(c.req.pool, id)]);
    }
    forall id | id in s.rows && s.rows[id].status == Queued
      ensures Accounted(s, a, s.rows, scores', actor', id)
    {
      if id in ids {
        assert RowOk(id, s.rows[id]) && id in ids[0..];
      }
    }
    MoveKeepsInv(s, a, s.rows, scores', actor');
  }

  lemma ClaimNextKeepsInv(s: State, a: Id)
    requires Inv(s) && At(s, a).Claiming? && At(s, a).next < |At(s, a).ids|
    ensures Inv(ClaimOneId(s, a)) && Extends(s.rows, ClaimOneId(s, a).rows)
  {
    ActorAtOk(s, a);
    var s' := ClaimOneId(s, a);
    var c, actor' := At(s, a), At(s', a);
    var id := c.ids[c.next];
    assert id in c.ids && RowOk(id, s.rows[id]);
    PoolTestIsQueueKey(s.rows[id].poolId, c.req.pool);
    CopiesSurvive(s.rows, s'.rows, a, c);
    EntriesSurvive(s.rows, s'.rows, s.scores);
    forall o | o in s'.rows && s'.rows[o].status == Queued
      ensures Accounted(s, a, s'.rows, s.scores, actor', o)
    {
      ClaimNextAccounts(s, a, o);
    }
    MoveKeepsInv(s, a, s'.rows, s.scores, actor');
  }

  lemma ClaimNextAccounts(s: State, a: Id, o: Id)
    requires Inv(s) && At(s, a).Claiming? && At(s, a).next < |At(s, a).ids|
    requires o in ClaimOneId(s, a).rows && ClaimOneId(s, a).rows[o].status == Queued
    ensures Accounted(s, a, ClaimOneId(s, a).rows, s.scores, At(ClaimOneId(s, a), a), o)
  {
    var c := At(s, a);
    assert o in s.rows && RowOk(o, s.rows[o]) && ClaimOneId(s, a).rows[o] == s.rows[o];
    PutBackComplementsClaim(s.rows[o], c.req.pool, c.req.now);
    assert c.ids[..c.next + 1] == c.ids[..c.next] + [c.ids[c.next]];
    assert c.ids[c.next..] == [c.ids[c.next]] + c.ids[c.next + 1..];
  }

  lemma ClaimAllKeepsInv(s: State, a: Id, won: seq<Run>)
    requires Inv(s) && CanClaimAll(s, a, won)
    ensures Inv(ClaimedAll(s, a, won)) && Extends(s.rows, ClaimedAll(s, a, won).rows)
  {
    var c := At(s, a);
    var rows' := ClaimSet(s.rows, SetOf(c.ids), c.req.pool, a, c.req.now, c.req.ttlSecs);
    var actor' := Claiming(c.req, c.attempt, c.ids, |c.ids|, won);
    ActorAtOk(s, a);
    ClaimSetRows(s.rows, SetOf(c.ids), c.req, a);
    CopiesSurvive(s.rows, rows', a, c);
    EntriesSurvive(s.rows, rows', s.scores);
    forall r | r in won ensures WonOk(rows', a, c.req, c.ids, r) {
      assert r.runId in WonIds(won);
      PoolTestIsQueueKey(s.rows[r.runId].poolId, c.req.pool);
    }
    forall id | id in rows' && rows'[id].status == Queued
      ensures Accounted(s, a, rows', s.scores, actor', id)
    {
      ClaimAllAccounts(s, a, won, id);
    }
    MoveKeepsInv(s, a, rows', s.scores, actor');
  }

  lemma ClaimSetRows(rows: Rows, ids: set<Id>, req: Request, a: Id)
    requires RowsOk(rows)
    ensures var rows' := ClaimSet(rows, ids, req.pool, a, req.now, req.ttlSecs);
            RowsOk(rows') && Extends(rows, rows')
  {
    var rows' := ClaimSet(rows, ids, req.pool, a, req.now, req.ttlSecs);
    forall id | id in rows' ensures RowOk(id, rows'[id]) { assert RowOk(id, rows[id]); }
  }

  lemma ClaimAllAccounts(s: State, a: Id, won: seq<Run>, id: Id)
    requires Inv(s) && CanClaimAll(s, a, won)
    requires id in ClaimedAll(s, a, won).rows && ClaimedAll(s, a, won).rows[id].status == Queued
    ensures Accounted(s, a, ClaimedAll(s, a, won).rows, s.scores, At(ClaimedAll(s, a, won), a), id)
  {
    var c := At(s, a);
    PutBackComplementsClaim(s.rows[id], c.req.pool, c.req.now);
    assert RowOk(id, s.rows[id]) && c.ids[..|c.ids|] == c.ids && c.ids[0..] == c.ids;
  }

  lemma DoneClaimingKeepsInv(s: State, a: Id)
    requires Inv(s) && At(s, a).Claiming? && At(s, a).next >= |At(s, a).ids|
    ensures Inv(StartReconcile(s, a))
  {
    var c := At(s, a);
    ActorAtOk(s, a);
    assert c.ids[..c.next] == c.ids && c.ids[0..] == c.ids && c.ids[c.next..] == [];
    LocalMoveKeepsInv(s, a, Reconciling(c.req, c.attempt, c.ids, 0, c.won));
  }

  /** A run this claim won and has lost again since is not this claimer's to put back. */
  lemma WonNeedsNoPutBack(rows: Rows, a: Id, req: Request, ids: seq<Id>, won: seq<Run>, id: Id)
    requires RowsOk(rows) && id in rows
    requires forall r :: r in won ==> WonOk(rows, a, req, ids, r)
    ensures id in WonIds(won) ==> RequeueTarget(rows[id], req.pool, req.now).None?
  {
    if id in WonIds(won) {
      var r :| r in won && r.runId == id;
      assert WonOk(rows, a, req, ids, r);
    }
  }

  lemma CheckKeepsInv(s: State, a: Id)
    requires Inv(s) && At(s, a).Reconciling? && At(s, a).next < |At(s, a).ids|
    ensures Inv(CheckOneId(s, a))
  {
    var c := At(s, a);
    ActorAtOk(s, a);
    var id := c.ids[c.next];
    assert id in c.ids && RowOk(id, s.rows[id]);
    if id in WonIds(c.won) {
      WonNeedsNoPutBack(s.rows, a, c.req, c.ids, c.won, id);
    }
    assert c.ids[c.next..] == [id] + c.ids[c.next + 1..];
    LocalMoveKeepsInv(s, a, At(CheckOneId(s, a), a));
  }

  lemma ZAddKeepsInv(s: State, a: Id)
    requires Inv(s) && At(s, a).PuttingBack?
    ensures Inv(AddedBack(s, a))
  {
    var c := At(s, a);
    ActorAtOk(s, a);
    PutBackComplementsClaim(c.run, c.req.pool, c.req.now);
    forall id | id in s.rows ensures RowOk(id, s.rows[id]) {}
    AddKeepsInv(s, a, c.run, Reconciling(c.req, c.attempt, c.ids, c.next + 1, c.won));
  }

  lemma DoneReconcilingKeepsInv(s: State, a: Id)
    requires Inv(s) && At(s, a).Reconciling? && At(s, a).next >= |At(s, a).ids|
    ensures Inv(AfterReconcile(s, a))
  {
    var c := At(s, a);
    ActorAtOk(s, a);
    assert c.ids[c.next..] == [];
    if c.won != [] {
      assert c.won[0] in c.won;
    }
    LocalMoveKeepsInv(s, a, At(AfterReconcile(s, a), a));
  }

  lemma RowReplaced(rows: Rows, run: Run)
    requires RowsOk(rows) && CopyOk(rows, run) && RowOk(run.runId, run)
    ensures RowsOk(rows[run.runId := run]) && Extends(rows, rows[run.runId := run])
  {}

  /** A row of a run nobody queued is replaced by one that agrees with it and is not queued. */
  lemma WriteKeepsInv(s: State, a: Id, run: Run, actor': Actor)
    requires Inv(s) && (At(s, a).Holding? || At(s, a).Executing?)
    requires CopyOk(s.rows, run) && run.status != Queued && run.claimedBy.Some? && run.claimLeaseUntil.Some?
    requires ActorOk(s.rows, a, actor')
    ensures Inv(Become(Written(s, run), a, actor')) && Extends(s.rows, Written(s, run).rows)
  {
    var rows' := s.rows[run.runId := run];
    RowReplaced(s.rows, run);
    EntriesSurvive(s.rows, rows', s.scores);
    CopiesSurvive(s.rows, rows', a, actor');
    forall id | id in rows' && rows'[id].status == Queued ensures Accounted(s, a, rows', s.scores, actor', id) {}
    MoveKeepsInv(s, a, rows', s.scores, actor');
  }

  lemma RenewKeepsInv(s: State, a: Id, now: Time, ttlSecs: int)
    requires Inv(s) && At(s, a).Executing?
    ensures Inv(Renewed(s, a, now, ttlSecs)) && Extends(s.rows, Renewed(s, a, now, ttlSecs).rows)
  {
    var c := At(s, a);
    ActorAtOk(s, a);
    if Renewable(s.rows[c.run.runId], a) {
      var run := s.rows[c.run.runId].(claimLeaseUntil := Some(now + Seconds(ttlSecs)));
      assert RowOk(c.run.runId, s.rows[c.run.runId]);
      WriteKeepsInv(s, a, run, Executing(c.run, now + Seconds(ttlSecs)));
    }
  }

  lemma ReclaimKeepsInv(s: State, a: Id, now: Time, ids: seq<Id>)
    requires Inv(s) && At(s, a).Idle? && SetOf(ids) == ExpiredIds(s.rows, now)
    ensures Inv(Reset(s, a, now, ids)) && Extends(s.rows, Reset(s, a, now, ids).rows)
  {
    var rows' := ReclaimExpired(s.rows, now);
    EntriesSurvive(s.rows, rows', s.scores);
    forall id | id in ids ensures id in rows' { assert id in SetOf(ids); }
    forall id | id in rows' && rows'[id].status == Queued
      ensures Accounted(s, a, rows', s.scores, Requeuing(ids), id)
    {
      assert RowOk(id, s.rows[id]);
      if id in ExpiredIds(s.rows, now) { assert id in SetOf(ids); }
    }
    assert RowsOk(rows') by {
      forall id | id in rows' ensures RowOk(id, rows'[id]) { assert RowOk(id, s.rows[id]); }
    }
    MoveKeepsInv(s, a, rows', s.scores, Requeuing(ids));
  }

  lemma ReadReclaimedKeepsInv(s: State, a: Id)
    requires Inv(s) && At(s, a).Requeuing? && At(s, a).ids != []
    ensures Inv(ReclaimedRead(s, a))
  {
    var ids := At(s, a).ids;
    ActorAtOk(s, a);
    assert ids[0] in ids && RowOk(ids[0], s.rows[ids[0]]);
    assert ids == [ids[0]] + ids[1..];
    LocalMoveKeepsInv(s, a, RequeuingOne(s.rows[ids[0]], ids[1..]));
  }

  lemma EnqueueKeepsInv(s: State, a: Id)
    requires Inv(s)
    ensures At(s, a).Creating? ==> Inv(Enqueued(s, a, At(s, a).run, Idle))
    ensures At(s, a).RequeuingOne? ==> Inv(Enqueued(s, a, At(s, a).run, Requeuing(At(s, a).ids)))
  {
    var c := At(s, a);
    ActorAtOk(s, a);
    forall id | id in s.rows ensures RowOk(id, s.rows[id]) {}
    if c.Creating? {
      AddKeepsInv(s, a, c.run, Idle);
    } else if c.RequeuingOne? {
      AddKeepsInv(s, a, c.run, Requeuing(c.ids));
    }
  }

  lemma AdvanceKeepsInv(s: State, to: Time)
    requires Inv(s)
    ensures Inv(s.(clock := to))
  {
    var s' := s.(clock := to);
    forall id | id in s'.rows && s'.rows[id].status == Queued
      ensures Waiting(s'.rows, s'.scores, id) || Owed(s', id)
    {
      assert Waiting(s.rows, s.scores, id) || Owed(s, id);
    }
  }

  lemma WriteRunningKeepsInv(s: State, a: Id)
    requires Inv(s) && At(s, a).Holding?
    ensures Inv(RunningWritten(s, a)) && Extends(s.rows, RunningWritten(s, a).rows)
  {
    ActorAtOk(s, a);
    var run := Started(At(s, a).run, s.clock);
    WriteKeepsInv(s, a, run, Executing(run, At(s, a).until));
  }

  lemma WriteTerminalKeepsInv(s: State, a: Id, status: RunStatus, retry: bool)
    requires Inv(s) && (At(s, a).Holding? || At(s, a).Executing?) && status.Terminal()
    ensures Inv(TerminalWritten(s, a, status, retry)) && Extends(s.rows, TerminalWritten(s, a, status, retry).rows)
  {
    ActorAtOk(s, a);
    var run := Finished(At(s, a).run, status, s.clock);
    WriteKeepsInv(s, a, run, if retry then Retrying(run) else Idle);
  }

  predicate IsClaimStep(step: Step) {
    step.BeginClaim? || step.Pop? || step.GiveUp? || step.ClaimNext? || step.ClaimAll? || step.DoneClaiming?
    || step.Check? || step.ZAdd? || step.DoneReconciling?
  }

  lemma ClaimStepKeepsInv(s: State, step: Step)
    requires Inv(s) && Enabled(s, step) && IsClaimStep(step)
    ensures Inv(Apply(s, step)) && Extends(s.rows, Apply(s, step).rows)
  {
    match step
    case BeginClaim(a, pool, ttlSecs, batch) =>
      LocalMoveKeepsInv(s, a, Popping(Request(pool, s.clock, ttlSecs, batch), 0));
    case Pop(a, ids) => PopKeepsInv(s, a, ids);
    case GiveUp(a) => LocalMoveKeepsInv(s, a, Idle);
    case ClaimNext(a) => ClaimNextKeepsInv(s, a);
    case ClaimAll(a, won) => ClaimAllKeepsInv(s, a, won);
    case DoneClaiming(a) => DoneClaimingKeepsInv(s, a);
    case Check(a) => CheckKeepsInv(s, a);
    case ZAdd(a) => ZAddKeepsInv(s, a);
    case DoneReconciling(a) => DoneReconcilingKeepsInv(s, a);
  }

  lemma InvIgnoresRetries(s: State, s': State)
    requires Inv(s) && s' == s.(retryOf := s'.retryOf)
    ensures Inv(s')
  {
    forall id | id in s'.rows && s'.rows[id].status == Queued
      ensures Waiting(s'.rows, s'.scores, id) || Owed(s', id)
    {
      assert Waiting(s.rows, s.scores, id) || Owed(s, id);
    }
  }

  /** Every step keeps the invariant and never touches what a run fixed at creation. */
  lemma StepKeepsInv(s: State, step: Step)
    requires Inv(s) && Enabled(s, step)
    ensures Inv(Apply(s, step)) && Extends(s.rows, Apply(s, step).rows)
  {
    if IsClaimStep(step) {
      ClaimStepKeepsInv(s, step);
      return;
    }
    match step
    case Advance(to) => AdvanceKeepsInv(s, to);
    case Create(a, run) => CreateKeepsInv(s, a, run);
    case EnqueueCreated(a) => EnqueueKeepsInv(s, a);
    case WriteRunning(a) => WriteRunningKeepsInv(s, a);
    case RenewLease(a, now, ttlSecs) => RenewKeepsInv(s, a, now, ttlSecs);
    case WriteTerminal(a, status, retry) => WriteTerminalKeepsInv(s, a, status, retry);
    case CreateRetry(a, runId, scheduledFor) =>
      CreateKeepsInv(s, a, NextAttempt(At(s, a).run, runId, scheduledFor));
      InvIgnoresRetries(Created(s, a, NextAttempt(At(s, a).run, runId, scheduledFor)), Apply(s, step));
    case BeginReclaim(a, now, ids) => ReclaimKeepsInv(s, a, now, ids);
    case ReadReclaimed(a) => ReadReclaimedKeepsInv(s, a);
    case EnqueueReclaimed(a) => EnqueueKeepsInv(s, a);
    case DoneReclaiming(a) => LocalMoveKeepsInv(s, a, Idle);
  }

  // ---- whole runs -------------------------------------------------------------------------------

  ghost predicate Feasible(s: State, steps: seq<Step>)
    decreases |steps|
  {
    steps == [] || (Enabled(s, steps[0]) && Feasible(Apply(s, steps[0]), steps[1..]))
  }

  ghost function After(s: State, steps: seq<Step>): State
    requires Feasible(s, steps)
    decreases |steps|
  {
    if steps == [] then s else After(Apply(s, steps[0]), steps[1..])
  }

  lemma {:induction false} RunKeepsInv(s: State, steps: seq<Step>)
    requires Inv(s) && Feasible(s, steps)
    ensures Inv(After(s, steps)) && Extends(s.rows, After(s, steps).rows)
    decreases |steps|
  {
    if steps != [] {
      StepKeepsInv(s, steps[0]);
      RunKeepsInv(Apply(s, steps[0]), steps[1..]);
    }
  }

  /** In every interleaving from empty stores, no queued run is ever lost. */
  lemma NoRunIsEverLost(s: State, steps: seq<Step>)
    requires Init(s) && Feasible(s, steps)
    ensures NoRunLost(After(s, steps))
  {
    RunKeepsInv(s, steps);
  }

  /** The copy of a run that a worker executes or writes back. */
  predicate WorksOn(actor: Actor, run: Run) {
    match actor
    case Holding(copy, _) => copy == run
    case Executing(copy, _) => copy == run
    case Retrying(copy) => copy == run
    case _ => false
  }

  /** Through every interleaving a run keeps its job, script, actor, parameters, pool, attempt and due time, and
      every copy a worker holds agrees with the store on them. */
  lemma SnapshotsNeverChange(s: State, steps: seq<Step>, id: Id)
    requires Inv(s) && Feasible(s, steps) && id in s.rows
    ensures id in After(s, steps).rows && Snap(After(s, steps).rows[id]) == Snap(s.rows[id])
    ensures forall a, run :: WorksOn(At(After(s, steps), a), run) && run.runId == id ==> Snap(run) == Snap(s.rows[id])
  {
    RunKeepsInv(s, steps);
    var e := After(s, steps);
    forall a, run | WorksOn(At(e, a), run) && run.runId == id ensures Snap(run) == Snap(s.rows[id]) {
      ActorAtOk(e, a);
    }
  }

  /** However late workers write, a claimed or running row always has an owner and a lease end, so a reclaim after
      that end always frees it. */
  lemma HeldRowsAreLeased(s: State, steps: seq<Step>, id: Id, now: Time)
    requires Init(s) && Feasible(s, steps)
    requires id in After(s, steps).rows && After(s, steps).rows[id].status.Held()
    ensures var row := After(s, steps).rows[id];
            && row.claimedBy.Some? && row.claimLeaseUntil.Some?
            && (row.claimLeaseUntil.value <= now <==> ReclaimExpired(After(s, steps).rows, now)[id].status == Queued)
  {
    RunKeepsInv(s, steps);
    assert RowOk(id, After(s, steps).rows[id]);
  }

  // ---- retries ----------------------------------------------------------------------------------

  /** A retry is the next attempt of its run, with everything that run fixed but the due time. */
  predicate ContinuesRun(rows: Rows, next: Id, prior: Id) {
    && next in rows && prior in rows
    && rows[next].attempt == rows[prior].attempt + 1
    && Snap(rows[next]) == Snap(rows[prior]).(attempt := rows[next].attempt, scheduledFor := rows[next].scheduledFor)
  }

  /** A worker executes, and so retries, only runs of a job. */
  predicate OfJob(actor: Actor) {
    (actor.Executing? || actor.Retrying?) ==> actor.run.jobId.Some?
  }

  predicate RetriesOk(s: State) {
    && (forall id :: id in s.retryOf ==> ContinuesRun(s.rows, id, s.retryOf[id]))
    && (forall a :: a in s.actors ==> OfJob(s.actors[a]))
  }

  /** Only one actor moves, a retry appears only for the run it retries, and it starts to execute only with a job. */
  lemma RetryShape(s: State, step: Step)
    requires Enabled(s, step)
    ensures var s' := Apply(s, step);
            (step.CreateRetry? || s'.retryOf == s.retryOf)
            && (step.Advance? ==> s'.actors == s.actors)
            && (!step.Advance? ==> s'.actors == s.actors[step.a := At(s', step.a)]
                                   && (OfJob(At(s, step.a)) ==> OfJob(At(s', step.a))))
  {}

  lemma StepKeepsRetries(s: State, step: Step)
    requires Inv(s) && RetriesOk(s) && Enabled(s, step)
    ensures RetriesOk(Apply(s, step))
  {
    var s' := Apply(s, step);
    StepKeepsInv(s, step);
    RetryShape(s, step);
    ContinuationsSurvive(s.rows, s'.rows, s.retryOf);
    if step.CreateRetry? {
      assert OfJob(s.actors[step.a]);
      NewRetryContinues(s, step.a, step.runId, step.scheduledFor);
    }
  }

  lemma ContinuationsSurvive(rows: Rows, rows': Rows, retryOf: map<Id, Id>)
    requires Extends(rows, rows') && forall id :: id in retryOf ==> ContinuesRun(rows, id, retryOf[id])
    ensures forall id :: id in retryOf ==> ContinuesRun(rows', id, retryOf[id])
  {
    forall id | id in retryOf ensures ContinuesRun(rows', id, retryOf[id]) {
      assert ContinuesRun(rows, id, retryOf[id]);
    }
  }

  lemma NewRetryContinues(s: State, a: Id, runId: Id, scheduledFor: Time)
    requires Inv(s) && At(s, a).Retrying? && At(s, a).run.jobId.Some? && runId !in s.rows
    ensures var s' := RetryCreated(s, a, runId, scheduledFor);
            s'.retryOf == s.retryOf[runId := At(s, a).run.runId] && ContinuesRun(s'.rows, runId, At(s, a).run.runId)
  {
    ActorAtOk(s, a);
  }

  lemma {:induction false} RunKeepsRetries(s: State, steps: seq<Step>)
    requires Inv(s) && RetriesOk(s) && Feasible(s, steps)
    ensures RetriesOk(After(s, steps))
    decreases |steps|
  {
    if steps != [] {
      StepKeepsInv(s, steps[0]);
      StepKeepsRetries(s, steps[0]);
      RunKeepsRetries(Apply(s, steps[0]), steps[1..]);
    }
  }

  /** Consecutive attempts: each run after the first is a retry of the one before it. */
  predicate Chain(s: State, path: seq<Id>) {
    && path != [] && path[0] in s.rows
    && forall i :: 0 < i < |path| ==> path[i] in s.retryOf && s.retryOf[path[i]] == path[i - 1]
  }

  /** Along every chain of retries that workers create, in every interleaving, attempts count up by one and job,
      script, actor, parameters, pool and placement are those of the first run. */
  lemma {:induction false} RetriesCarrySnapshot(s: State, steps: seq<Step>, path: seq<Id>, k: nat)
    requires Init(s) && Feasible(s, steps) && Chain(After(s, steps), path) && k < |path|
    ensures var rows := After(s, steps).rows;
            && path[k] in rows && rows[path[k]].attempt == rows[path[0]].attempt + k
            && Snap(rows[path[k]]) == Snap(rows[path[0]]).(attempt := rows[path[k]].attempt,
                                                          scheduledFor := rows[path[k]].scheduledFor)
    decreases k
  {
    RunKeepsRetries(s, steps);
    if k > 0 {
      RetriesCarrySnapshot(s, steps, path, k - 1);
      assert ContinuesRun(After(s, steps).rows, path[k], path[k - 1]);
    }
  }
}
