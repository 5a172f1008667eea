/** Leader election: one lease row, and a local flag per instance that follows it. */
module LeaderRules {
  import opened Models
  import opened SqlGuards

  datatype LeaderRow = LeaderRow(instanceId: Id, until: Time)

  predicate Acquirable(row: Option<LeaderRow>, me: Id, now: Time) {
    !(row.Some? && row.value.until > now && row.value.instanceId != me)
  }

  predicate Leads(row: Option<LeaderRow>, me: Id, now: Time) {
    row.Some? && row.value.until > now && row.value.instanceId == me
  }

  function Acquired(row: Option<LeaderRow>, me: Id, now: Time, ttl: Time): Option<LeaderRow> {
    if Acquirable(row, me, now) then Some(LeaderRow(me, now + ttl)) else row
  }

  /** Renewing is silent when another instance holds the row. */
  function RenewedRow(row: Option<LeaderRow>, me: Id, now: Time, ttl: Time): Option<LeaderRow> {
    if row.Some? && row.value.instanceId == me then Some(LeaderRow(me, now + ttl)) else row
  }

  /** The conflict clause of the SQL upsert; without a row the insert goes through. */
  function WhereLeader(row: LeaderRow, me: Id, now: Time): Truth {
    Or(Lift(row.until <= now), Lift(row.instanceId == me))
  }

  lemma LeaderGuardsAgree(row: Option<LeaderRow>, me: Id, now: Time)
    ensures Acquirable(row, me, now) <==> row.None? || Passes(WhereLeader(row.value, me, now))
  {}
}

/** Any number of electors stepping against one row, split at every store call and every local write. */
module LeaderProtocol {
  import opened Models
  import opened LeaderRules

  datatype Pc = Resting | Renewing | Losing | Lost | Won | Assigned

  /** `lastOk` is when the instance last acquired or renewed the row with success. */
  datatype Instance = Instance(flag: bool, owned: set<nat>, pc: Pc, lastOk: Time)

  datatype State = State(clock: Time, row: Option<LeaderRow>, instances: map<Id, Instance>)

  datatype Config = Config(ttl: Time, partitions: set<nat>)

  datatype Step =
    | Advance(to: Time)
    | Acquire(i: Id)
    | Assign(i: Id)
    | SetFlag(i: Id)
    | RenewCall(i: Id)
    | Confirm(i: Id)
    | ReleaseAll(i: Id)
    | ClearFlag(i: Id)

  function At(s: State, i: Id): Instance {
    if i in s.instances then s.instances[i] else Instance(false, {}, Resting, 0)
  }

  predicate Enabled(s: State, step: Step) {
    match step
    case Advance(to) => s.clock <= to
    case Acquire(i) => At(s, i).pc == Resting && !At(s, i).flag
    case Assign(i) => At(s, i).pc == Won
    case SetFlag(i) => At(s, i).pc == Assigned
    case RenewCall(i) => At(s, i).pc == Resting && At(s, i).flag
    case Confirm(i) => At(s, i).pc == Renewing
    case ReleaseAll(i) => At(s, i).pc == Losing
    case ClearFlag(i) => At(s, i).pc == Lost
  }

  function Become(s: State, i: Id, x: Instance): State {
    s.(instances := s.instances[i := x])
  }

  function Apply(cfg: Config, s: State, step: Step): State
    requires Enabled(s, step)
  {
    match step
    case Advance(to) => s.(clock := to)
    case Acquire(i) =>
      if Acquirable(s.row, i, s.clock) then
        Become(s.(row := Acquired(s.row, i, s.clock, cfg.ttl)), i, At(s, i).(pc := Won, lastOk := s.clock))
      else
        s
    case Assign(i) => Become(s, i, At(s, i).(owned := cfg.partitions, pc := Assigned))
    case SetFlag(i) => Become(s, i, At(s, i).(flag := true, pc := Resting))
    case RenewCall(i) =>
      var mine := s.row.Some? && s.row.value.instanceId == i;
      Become(s.(row := RenewedRow(s.row, i, s.clock, cfg.ttl)), i,
             At(s, i).(pc := Renewing, lastOk := if mine then s.clock else At(s, i).lastOk))
    case Confirm(i) => Become(s, i, At(s, i).(pc := if Leads(s.row, i, s.clock) then Resting else Losing))
    case ReleaseAll(i) => Become(s, i, At(s, i).(owned := {}, pc := Lost))
    case ClearFlag(i) => Become(s, i, At(s, i).(flag := false, pc := Resting))
  }

  predicate Believes(x: Instance) {
    x.flag || x.pc == Won || x.pc == Assigned
  }

  /** A lease that has not run a full TTL since the last success is the one in the row. */
  predicate InstanceOk(cfg: Config, s: State, i: Id, x: Instance) {
    && (Believes(x) && s.clock < x.lastOk + cfg.ttl ==> s.row == Some(LeaderRow(i, x.lastOk + cfg.ttl)))
    && (x.pc == Resting ==> x.owned == if x.flag then cfg.partitions else {})
    && (x.pc == Renewing || x.pc == Losing ==> x.flag && x.owned == cfg.partitions)
    && (x.pc == Lost ==> x.flag && x.owned == {})
    && (x.pc == Won ==> !x.flag && x.owned == {})
    && (x.pc == Assigned ==> !x.flag && x.owned == cfg.partitions)
  }

  predicate Inv(cfg: Config, s: State) {
    forall i :: i in s.instances ==> InstanceOk(cfg, s, i, s.instances[i])
  }

  lemma StepKeepsInv(cfg: Config, s: State, step: Step)
    requires Inv(cfg, s) && Enabled(s, step)
    ensures Inv(cfg, Apply(cfg, s, step))
  {
    var s' := Apply(cfg, s, step);
    forall i | i in s'.instances ensures InstanceOk(cfg, s', i, s'.instances[i]) {
      if i in s.instances {
        assert InstanceOk(cfg, s, i, s.instances[i]);
      }
    }
  }

  predicate Feasible(cfg: Config, s: State, steps: seq<Step>)
    decreases |steps|
  {
    steps == [] || (Enabled(s, steps[0]) && Feasible(cfg, Apply(cfg, s, steps[0]), steps[1..]))
  }

  function After(cfg: Config, s: State, steps: seq<Step>): State
    requires Feasible(cfg, s, steps)
    decreases |steps|
  {
    if steps == [] then s else After(cfg, Apply(cfg, s, steps[0]), steps[1..])
  }

  lemma {:induction false} RunKeepsInv(cfg: Config, s: State, steps: seq<Step>)
    requires Inv(cfg, s) && Feasible(cfg, s, steps)
    ensures Inv(cfg, After(cfg, s, steps))
    decreases |steps|
  {
    if steps != [] {
      StepKeepsInv(cfg, s, steps[0]);
      RunKeepsInv(cfg, Apply(cfg, s, steps[0]), steps[1..]);
    }
  }

  /** Two instances can both be flagged only if one of them has gone a full TTL without success; and between
      steps, a flagged instance owns every partition and an unflagged one none. */
  lemma LeaderSafety(cfg: Config, s: State, steps: seq<Step>, i: Id, j: Id)
    requires s.instances == map[] && Feasible(cfg, s, steps)
    ensures var e := After(cfg, s, steps);
            && (i != j && At(e, i).flag && At(e, j).flag ==>
                  At(e, i).lastOk + cfg.ttl <= e.clock || At(e, j).lastOk + cfg.ttl <= e.clock)
            && (At(e, i).pc == Resting ==> At(e, i).owned == if At(e, i).flag then cfg.partitions else {})
  {
    RunKeepsInv(cfg, s, steps);
    var e := After(cfg, s, steps);
    assert i in e.instances ==> InstanceOk(cfg, e, i, e.instances[i]);
    assert j in e.instances ==> InstanceOk(cfg, e, j, e.instances[j]);
  }

  /** After a renewal an instance stays leader exactly if the row is its own and has not run out; otherwise it goes
      on to give up its partitions, and whoever gives them up owns none of them. */
  lemma ConfirmedIff(cfg: Config, s: State, i: Id)
    requires Inv(cfg, s) && Enabled(s, Confirm(i))
    ensures var s' := Apply(cfg, s, Confirm(i));
            && (At(s', i).pc == Resting && At(s', i).flag
                <==> s.row.Some? && s.row.value.instanceId == i && s.clock < s.row.value.until)
            && (At(s', i).pc != Resting ==>
                  Enabled(s', ReleaseAll(i)) && At(Apply(cfg, s', ReleaseAll(i)), i).owned == {})
  {}

  /** Another instance holds the row. */
  predicate Deposed(s: State, i: Id) {
    s.row.Some? && s.row.value.instanceId != i
  }

  predicate By(step: Step, i: Id) {
    !step.Advance? && step.i == i
  }

  lemma {:induction false} DeposedUntilOwnAcquire(cfg: Config, s: State, steps: seq<Step>, i: Id)
    requires Deposed(s, i) && Feasible(cfg, s, steps) && forall k :: 0 <= k < |steps| ==> !By(steps[k], i)
    ensures Deposed(After(cfg, s, steps), i) && At(After(cfg, s, steps), i) == At(s, i)
    decreases |steps|
  {
    if steps != [] {
      assert !By(steps[0], i);
      DeposedUntilOwnAcquire(cfg, Apply(cfg, s, steps[0]), steps[1..], i);
    }
  }

  /** An instance deposed when it next renews finds out in that same step, whatever the others do in between:
      it gives up its partitions and then its flag. */
  lemma DeposedStepsDown(cfg: Config, s: State, steps: seq<Step>, i: Id)
    requires Inv(cfg, s) && Deposed(s, i) && Enabled(s, RenewCall(i))
    requires Feasible(cfg, Apply(cfg, s, RenewCall(i)), steps)
    requires forall k :: 0 <= k < |steps| ==> !By(steps[k], i)
    ensures var m := After(cfg, Apply(cfg, s, RenewCall(i)), steps);
            && Enabled(m, Confirm(i))
            && var c := Apply(cfg, m, Confirm(i));
               Enabled(c, ReleaseAll(i))
               && var r := Apply(cfg, c, ReleaseAll(i));
                  Enabled(r, ClearFlag(i)) && !At(Apply(cfg, r, ClearFlag(i)), i).flag
                  && At(Apply(cfg, r, ClearFlag(i)), i).owned == {}
  {
    var s1 := Apply(cfg, s, RenewCall(i));
    DeposedUntilOwnAcquire(cfg, s1, steps, i);
  }
}

module LeaderElection {
  import opened Models
  import opened LeaderRules
  import opened PartitionAssigner

  class LeaderStore {
    var row: Option<LeaderRow>

    constructor ()
      ensures row == None
    {
      row := None;
    }

    method TryAcquireLeader(me: Id, now: Time, ttl: Time) returns (won: bool)
      modifies this
      ensures won <==> old(row).None? || old(row).value.until <= now || old(row).value.instanceId == me
      ensures won <==> Acquirable(old(row), me, now)
      ensures row == if won then Some(LeaderRow(me, now + ttl)) else old(row)
    {
      if row.Some? && row.value.until > now && row.value.instanceId != me { return false; }
      row := Some(LeaderRow(me, now + ttl));
      won := true;
    }

    method RenewLeaderLease(me: Id, now: Time, ttl: Time)
      modifies this
      ensures row == RenewedRow(old(row), me, now, ttl)
    {
      if row.None? { return; }
      if row.value.instanceId != me { return; }
      row := Some(LeaderRow(me, now + ttl));
    }

    method AmILeader(me: Id, now: Time) returns (leads: bool)
      ensures leads <==> Leads(row, me, now)
      ensures leads <==> row.Some? && row.value.instanceId == me && now < row.value.until
    {
      if row.None? { return false; }
      leads := row.value.until > now && row.value.instanceId == me;
    }
  }

  class LeaderElector {
    const store: LeaderStore
    const instanceId: Id
    const ttl: Time
    var isLeader: bool

    constructor (store: LeaderStore, instanceId: Id, ttl: Time)
      ensures this.store == store && this.instanceId == instanceId && this.ttl == ttl && !isLeader
    {
      this.store := store;
      this.instanceId := instanceId;
      this.ttl := ttl;
      isLeader := false;
    }

    /** One election attempt; `now` is read for the first store call and `later` for the confirmation. Flag,
        row and owned partitions end up agreeing. */
    method StepOnce(assigner: Assigner, now: Time, later: Time)
      requires ttl > 0 && now <= later
      modifies this, store, assigner
      ensures var mine := old(store.row).Some? && old(store.row).value.instanceId == instanceId;
              var free := old(store.row).None? || old(store.row).value.until <= now;
              && (isLeader <==> if old(isLeader) then mine && later < now + ttl else mine || free)
              && store.row == if mine || (free && !old(isLeader)) then Some(LeaderRow(instanceId, now + ttl))
                              else old(store.row)
      ensures isLeader ==> store.row.Some? && store.row.value.instanceId == instanceId
      ensures old(isLeader) && old(store.row).Some? && old(store.row).value.instanceId != instanceId ==> !isLeader
      ensures old(isLeader) && !isLeader ==> assigner.owned == []
      ensures !old(isLeader) && isLeader ==> assigner.owned == seq(assigner.numPartitions, k => k)
      ensures old(isLeader) == isLeader ==> assigner.owned == old(assigner.owned)
    {
      if isLeader {
        store.RenewLeaderLease(instanceId, now, ttl);
        var still := store.AmILeader(instanceId, later);
        if !still {
          assigner.ReleaseAll();
          isLeader := false;
        }
      } else {
        var won := store.TryAcquireLeader(instanceId, now, ttl);
        if won {
          assigner.AssignAllEmbedded();
          isLeader := true;
        }
      }
    }
  }
}
