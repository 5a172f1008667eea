/** Partition leases: one coordinator's refresh, and what a round of refreshes covers. */
module PartitionRules {
  import opened Models
  import opened Collections

  /** The empty owner marks a row that nobody has taken yet. */
  datatype Lease = Lease(owner: Id, until: Time)

  type Table = map<nat, Lease>

  const UNIX_EPOCH: Time := 0

  function CeilDiv(a: nat, b: nat): nat
    requires b > 0
  {
    (a + b - 1) / b
  }

  predicate Live(row: Lease, now: Time) {
    row.until > now
  }

  predicate Stealable(row: Lease, me: Id, now: Time) {
    !(Live(row, now) && row.owner != me)
  }

  function LiveOwners(rows: Table, now: Time): set<Id> {
    set p | p in rows && Live(rows[p], now) && rows[p].owner != "" :: rows[p].owner
  }

  function Mine(rows: Table, me: Id, now: Time): set<nat> {
    set p | p in rows && rows[p].owner == me && Live(rows[p], now)
  }

  /** Fair share of `n` partitions among the owners seen alive, at least one. */
  function Target(rows: Table, n: nat, now: Time): nat {
    var live := |LiveOwners(rows, now)|;
    CeilDiv(n, if live == 0 then 1 else live)
  }

  /** The partition ids of a table of `n`. */
  function UpTo(n: nat): (ids: set<nat>)
    ensures forall p: nat :: p in ids <==> p < n
    ensures |ids| == n
  {
    if n == 0 then {} else UpTo(n - 1) + {n - 1}
  }

  /** Every partition below `n` has a row; a new one belongs to nobody and has run out. */
  function WithAllRows(rows: Table, n: nat): (all: Table)
    ensures forall p: nat :: p in all <==> p in rows || p < n
    ensures forall p :: p in all ==> all[p] == if p in rows then rows[p] else Lease("", UNIX_EPOCH)
  {
    if n == 0 then rows else
      var some := WithAllRows(rows, n - 1);
      if n - 1 in some then some else some[n - 1 := Lease("", UNIX_EPOCH)]
  }

  predicate StrictlySorted(s: seq<nat>) {
    forall i, j :: 0 <= i < j < |s| ==> s[i] < s[j]
  }

  function SetOf(s: seq<nat>): set<nat> {
    set p | p in s
  }

  lemma SortedCons(x: nat, s: seq<nat>)
    requires StrictlySorted(s) && (s == [] || x < s[0])
    ensures StrictlySorted([x] + s) && SetOf([x] + s) == {x} + SetOf(s)
  {}

  function Insert(s: seq<nat>, x: nat): (r: seq<nat>)
    requires StrictlySorted(s) && x !in s
    ensures StrictlySorted(r) && SetOf(r) == SetOf(s) + {x} && |r| == |s| + 1
    ensures r[0] == x || (s != [] && r[0] == s[0])
  {
    if s == [] then [x]
    else if x < s[0] then
      SortedCons(x, s);
      [x] + s
    else
      assert s == [s[0]] + s[1..] && s[0] != x;
      SortedCons(s[0], s[1..]);
      SortedCons(s[0], Insert(s[1..], x));
      [s[0]] + Insert(s[1..], x)
  }

  /** The ascending order of distinct numbers. */
  function Sort(s: seq<nat>): (r: seq<nat>)
    requires Distinct(s)
    ensures StrictlySorted(r) && SetOf(r) == SetOf(s) && |r| == |s|
  {
    if s == [] then [] else
      assert s == [s[0]] + s[1..] && s[0] !in s[1..];
      assert s[0] !in SetOf(s[1..]);
      var rest := Sort(s[1..]);
      assert s[0] !in SetOf(rest);
      Insert(rest, s[0])
  }

  lemma SortedSize(s: seq<nat>)
    requires Distinct(s)
    ensures |SetOf(s)| == |s|
  {
    if s != [] {
      SortedSize(s[1..]);
      assert s == [s[0]] + s[1..];
      assert SetOf(s) == SetOf(s[1..]) + {s[0]};
    }
  }

  /** The rows after `me` took or renewed exactly those in `owned`. */
  predicate Leased(rows: Table, after: Table, me: Id, owned: set<nat>, until: Time) {
    && after.Keys == rows.Keys
    && forall p :: p in rows ==> after[p] == if p in owned then Lease(me, until) else rows[p]
  }

  /** What was taken beyond `kept` was free and below `n`, and nothing free before it was passed over. */
  predicate TakenInOrder(rows: Table, me: Id, n: nat, now: Time, kept: set<nat>, owned: set<nat>) {
    && (forall p :: p in owned && p !in kept ==> p < n && p in rows && Stealable(rows[p], me, now))
    && (forall p, q: nat :: p in owned && p !in kept && q < p && q in rows && q !in owned ==>
          !Stealable(rows[q], me, now))
  }

  /** What one refresh does: renew the rows that are its own, take free partitions below `n` in ascending order,
      leave every other row as it is; own exactly what the table says; and stop only at the fair share or when
      nothing is left to take. */
  predicate Refreshes(before: Table, me: Id, n: nat, now: Time, ttl: Time, after: Table, owned: seq<nat>) {
    var rows := WithAllRows(before, n);
    && Leased(rows, after, me, SetOf(owned), now + ttl)
    && TakenInOrder(rows, me, n, now, Mine(rows, me, now), SetOf(owned))
    && StrictlySorted(owned) && SetOf(owned) == Mine(after, me, now)
    && Mine(rows, me, now) <= SetOf(owned)
    && (|owned| >= Target(rows, n, now) || forall p: nat :: p < n ==> Live(after[p], now))
    && (|owned| == |Mine(rows, me, now)| || |owned| <= Target(rows, n, now))
  }

  lemma CeilDivBounds(n: nat, k: nat)
    requires k > 0
    ensures CeilDiv(n, k) * k >= n
    ensures (CeilDiv(n, k) - 1) * k < n || n == 0 == CeilDiv(n, k)
  {
    var m := n + k - 1;
    assert m == (m / k) * k + m % k;
  }

  lemma LessByFactor(a: int, b: int, k: nat)
    requires a * k < b * k
    ensures a < b
  {}

  /** The names on leases that have not run out. */
  predicate AreAlive(alive: set<Id>, rows: Table, now: Time) {
    && (forall p :: p in rows && rows[p].until > now && rows[p].owner != "" ==> rows[p].owner in alive)
    && (forall c :: c in alive ==> c != "" && exists p :: p in rows && rows[p].until > now && rows[p].owner == c)
  }

  /** A refresh keeps the rows that were its own, gives every row it owns a lease from now on, and leaves the
      others alone. */
  lemma RefreshLeasesOwn(before: Table, me: Id, n: nat, now: Time, ttl: Time, after: Table, owned: seq<nat>)
    requires Refreshes(before, me, n, now, ttl, after, owned) && now >= UNIX_EPOCH
    ensures forall p :: p in before && before[p].owner == me && before[p].until > now ==> p in owned
    ensures forall p :: p in owned ==> p in after && after[p] == Lease(me, now + ttl)
    ensures forall p :: p in before && p !in owned ==> p in after && after[p] == before[p]
  {
    var rows := WithAllRows(before, n);
    forall p | p in before && before[p].owner == me && before[p].until > now ensures p in owned {
      assert rows[p] == before[p] && p in Mine(rows, me, now) && p in SetOf(owned);
    }
    forall p | p in owned ensures p in after && after[p] == Lease(me, now + ttl) { assert p in SetOf(owned); }
    forall p | p in before && p !in owned ensures p in after && after[p] == before[p] { assert p !in SetOf(owned); }
  }

  /** The fair share in full, among the k owners found alive (one, if nobody was): a coordinator that takes
      anything ends with no more than an equal part of the n partitions, rounded up; and it ends with that much,
      unless nothing is left free. */
  lemma RefreshIsFair(before: Table, me: Id, n: nat, now: Time, ttl: Time, after: Table, owned: seq<nat>,
                      alive: set<Id>, held: set<nat>)
    requires Refreshes(before, me, n, now, ttl, after, owned) && now >= UNIX_EPOCH && AreAlive(alive, before, now)
    requires forall p :: p in held <==> p in before && before[p].owner == me && before[p].until > now
    ensures var k := if alive == {} then 1 else |alive|;
            && (SetOf(owned) == held || (|owned| - 1) * k < n)
            && (|owned| * k >= n || forall p: nat :: p < n ==> p in after && after[p].until > now)
  {
    var rows := WithAllRows(before, n);
    AliveAreLiveOwners(before, rows, n, now, alive);
    HeldIsMine(before, rows, me, n, now, held);
    ShareBounds(n, alive, rows, now, |owned|);
    StopsAtTarget(before, me, n, now, ttl, after, owned, held, Target(rows, n, now));
  }

  /** A pass takes nothing at its target or beyond it, and stops short of it only when nothing is free. */
  lemma StopsAtTarget(before: Table, me: Id, n: nat, now: Time, ttl: Time, after: Table, owned: seq<nat>,
                      held: set<nat>, target: nat)
    requires Refreshes(before, me, n, now, ttl, after, owned)
    requires target == Target(WithAllRows(before, n), n, now) && held == Mine(WithAllRows(before, n), me, now)
    ensures SetOf(owned) == held || |owned| <= target
    ensures |owned| >= target || forall p: nat :: p < n ==> p in after && after[p].until > now
  {
    SortedSize(owned);
    SubsetSize(held, SetOf(owned));
  }

  lemma HeldIsMine(before: Table, rows: Table, me: Id, n: nat, now: Time, held: set<nat>)
    requires rows == WithAllRows(before, n) && now >= UNIX_EPOCH
    requires forall p :: p in held <==> p in before && before[p].owner == me && before[p].until > now
    ensures Mine(rows, me, now) == held
  {}

  lemma ShareBounds(n: nat, alive: set<Id>, rows: Table, now: Time, taken: nat)
    requires LiveOwners(rows, now) == alive
    ensures var k := if alive == {} then 1 else |alive|;
            && (taken <= Target(rows, n, now) ==> (taken - 1) * k < n)
            && (taken >= Target(rows, n, now) ==> taken * k >= n)
  {
    var k := if alive == {} then 1 else |alive|;
    CeilDivBounds(n, k);
    Shared(taken, CeilDiv(n, k), k);
  }

  lemma AliveAreLiveOwners(before: Table, rows: Table, n: nat, now: Time, alive: set<Id>)
    requires rows == WithAllRows(before, n) && now >= UNIX_EPOCH && AreAlive(alive, before, now)
    ensures LiveOwners(rows, now) == alive
  {
    forall c | c in alive ensures c in LiveOwners(rows, now) {
      var p :| p in before && before[p].until > now && before[p].owner == c;
      assert rows[p] == before[p];
    }
  }

  lemma Shared(a: int, share: int, k: nat)
    ensures a <= share ==> (a - 1) * k <= (share - 1) * k
    ensures a >= share ==> a * k >= share * k
  {}
}

module PartitionAssigner {
  import opened Models
  import opened Collections
  import opened PartitionRules

  class PartitionStore {
    var rows: Table

    constructor ()
      ensures rows == map[]
    {
      rows := map[];
    }

    method Upsert(pid: nat, lease: Lease)
      modifies this
      ensures rows == old(rows)[pid := lease]
    {
      rows := rows[pid := lease];
    }
  }

  class Assigner {
    const store: PartitionStore
    const instanceId: Id
    const numPartitions: nat
    const ttl: Time
    var owned: seq<nat>

    constructor (store: PartitionStore, instanceId: Id, numPartitions: nat, ttl: Time)
      ensures this.store == store && this.instanceId == instanceId && this.ttl == ttl
      ensures this.numPartitions == if numPartitions < 1 then 1 else numPartitions
      ensures owned == []
    {
      this.store := store;
      this.instanceId := instanceId;
      this.numPartitions := if numPartitions < 1 then 1 else numPartitions;
      this.ttl := ttl;
      owned := [];
    }

    method EnsureRows()
      modifies store
      ensures store.rows == WithAllRows(old(store.rows), numPartitions)
    {
      for pid := 0 to numPartitions
        invariant store.rows == WithAllRows(old(store.rows), pid)
      {
        if pid !in store.rows {
          store.Upsert(pid, Lease("", UNIX_EPOCH));
        }
      }
    }

    method TryStealPartition(pid: nat, now: Time) returns (stolen: bool)
      modifies store
      ensures stolen <==> pid in old(store.rows) && Stealable(old(store.rows)[pid], instanceId, now)
      ensures store.rows == if stolen then old(store.rows)[pid := Lease(instanceId, now + ttl)] else old(store.rows)
    {
      if pid !in store.rows { return false; }
      var row := store.rows[pid];
      if row.until > now && row.owner != instanceId { return false; }
      store.Upsert(pid, Lease(instanceId, now + ttl));
      stolen := true;
    }

    method RenewOwned(pid: nat, now: Time)
      modifies store
      ensures store.rows == if pid in old(store.rows) && old(store.rows)[pid].owner == instanceId
                            then old(store.rows)[pid := Lease(instanceId, now + ttl)] else old(store.rows)
    {
      if pid !in store.rows { return; }
      if store.rows[pid].owner != instanceId { return; }
      store.Upsert(pid, Lease(instanceId, now + ttl));
    }

    method ListMine(now: Time) returns (mine: seq<nat>)
      ensures Distinct(mine) && SetOf(mine) == Mine(store.rows, instanceId, now)
    {
      mine := [];
      var rest := Mine(store.rows, instanceId, now);
      ghost var all := rest;
      while rest != {}
        invariant rest <= all && SetOf(mine) == all - rest && Distinct(mine)
      {
        var pid :| pid in rest;
        assert pid !in SetOf(mine);
        assert SetOf(mine + [pid]) == SetOf(mine) + {pid};
        mine := mine + [pid];
        rest := rest - {pid};
      }
    }

    method RenewAll(mine: seq<nat>, now: Time)
      requires ttl > 0 && SetOf(mine) == Mine(store.rows, instanceId, now)
      modifies store
      ensures Leased(old(store.rows), store.rows, instanceId, SetOf(mine), now + ttl)
      ensures Mine(store.rows, instanceId, now) == SetOf(mine)
    {
      ghost var before := store.rows;
      for i := 0 to |mine|
        invariant Leased(before, store.rows, instanceId, SetOf(mine[..i]), now + ttl)
      {
        assert mine[i] in SetOf(mine);
        assert SetOf(mine[..i + 1]) == SetOf(mine[..i]) + {mine[i]};
        RenewOwned(mine[i], now);
      }
      assert mine[..|mine|] == mine;
    }

    method StealUpTo(target: nat, start: seq<nat>, now: Time) returns (mine: seq<nat>)
      requires ttl > 0 && StrictlySorted(start) && SetOf(start) == Mine(store.rows, instanceId, now)
      requires forall p: nat :: p < numPartitions ==> p in store.rows
      requires |start| < target
      modifies store
      ensures Leased(old(store.rows), store.rows, instanceId, SetOf(mine) - SetOf(start), now + ttl)
      ensures TakenInOrder(old(store.rows), instanceId, numPartitions, now, SetOf(start), SetOf(mine))
      ensures StrictlySorted(mine) && SetOf(mine) == Mine(store.rows, instanceId, now)
      ensures SetOf(start) <= SetOf(mine) && |mine| <= target
      ensures |mine| >= target || forall p: nat :: p < numPartitions ==> Live(store.rows[p], now)
    {
      ghost var before := store.rows;
      ghost var kept: set<nat>, held: set<nat> := SetOf(start), SetOf(start);
      mine := start;
      var pid := 0;
      while pid < numPartitions
        invariant pid <= numPartitions
        invariant IsStolen(before, store.rows, instanceId, kept, held, pid, now, now + ttl)
        invariant StrictlySorted(mine) && SetOf(mine) == held && |mine| <= target
      {
        if |mine| >= target { break; }
        if pid in mine {
          assert pid in SetOf(mine);
        } else {
          assert pid !in SetOf(mine);
          ghost var rows := store.rows;
          var stolen := TryStealPartition(pid, now);
          if stolen {
            StealOne(before, rows, store.rows, instanceId, kept, held, pid, now, now + ttl);
            held := held + {pid};
            mine := Insert(mine, pid);
          }
        }
        pid := pid + 1;
      }
      TakenSoFar(before, store.rows, instanceId, numPartitions, kept, held, pid, now, now + ttl);
    }

    /** One rebalancing pass against a single reading of the clock. */
    method RefreshLeases(now: Time)
      requires ttl > 0 && now >= UNIX_EPOCH
      modifies store, this
      ensures Refreshes(old(store.rows), instanceId, numPartitions, now, ttl, store.rows, owned)
    {
      EnsureRows();
      ghost var rows := store.rows;
      var target := Target(store.rows, numPartitions, now);
      var listed := ListMine(now);
      RenewAll(listed, now);
      ghost var renewed := store.rows;
      var mine := Sort(listed);
      SortedSize(listed);
      if |mine| < target {
        mine := StealUpTo(target, mine, now);
      }
      owned := mine;
      SortedSize(owned);
      PassComposes(rows, renewed, store.rows, instanceId, numPartitions, now, now + ttl, SetOf(listed), SetOf(owned));
    }

    method AssignAllEmbedded()
      modifies this
      ensures owned == seq(numPartitions, i => i)
    {
      owned := seq(numPartitions, i => i);
    }

    method ReleaseAll()
      modifies this
      ensures owned == []
    {
      owned := [];
    }
  }

  /** Beyond `kept`, exactly the free partitions below `pid` have been taken. */
  predicate IsStolen(before: Table, rows: Table, me: Id, kept: set<nat>, held: set<nat>, pid: nat, now: Time,
                     until: Time)
  {
    && kept <= held && Leased(before, rows, me, held - kept, until) && held == Mine(rows, me, now)
    && (forall p :: p in held && p !in kept ==> p < pid && p in before && Stealable(before[p], me, now))
    && (forall p: nat :: p < pid && p in before ==> p in held || !Stealable(before[p], me, now))
  }

  lemma StealOne(before: Table, rows: Table, after: Table, me: Id, kept: set<nat>, held: set<nat>, pid: nat, now: Time,
                 until: Time)
    requires IsStolen(before, rows, me, kept, held, pid, now, until) && until > now
    requires pid in rows && pid !in held && Stealable(rows[pid], me, now) && after == rows[pid := Lease(me, until)]
    ensures IsStolen(before, after, me, kept, held + {pid}, pid + 1, now, until)
  {}

  lemma TakenSoFar(before: Table, rows: Table, me: Id, n: nat, kept: set<nat>, held: set<nat>, pid: nat, now: Time,
                   until: Time)
    requires IsStolen(before, rows, me, kept, held, pid, now, until) && pid <= n
    ensures TakenInOrder(before, me, n, now, kept, held)
    ensures pid == n && (forall p: nat :: p < n ==> p in before) && until > now ==>
              forall p: nat :: p < n ==> Live(rows[p], now)
  {}

  /** Renewing one's own rows and then taking others is one leasing of both. */
  lemma PassComposes(rows: Table, renewed: Table, after: Table, me: Id, n: nat, now: Time, until: Time,
                     kept: set<nat>, owned: set<nat>)
    requires kept == Mine(rows, me, now) <= owned && until > now
    requires Leased(rows, renewed, me, kept, until) && Leased(renewed, after, me, owned - kept, until)
    requires TakenInOrder(renewed, me, n, now, kept, owned)
    ensures Leased(rows, after, me, owned, until) && TakenInOrder(rows, me, n, now, kept, owned)
  {}
}

/** Coordinators that refresh one after another cover every partition. */
module PartitionRound {
  import opened Models
  import opened Collections
  import opened PartitionRules

  /** The coordinators of a round, its first and last instant, its partitions and its lease time. A lease given
      out in the round outlasts it. */
  datatype Window = Window(who: set<Id>, start: Time, end: Time, n: nat, ttl: Time) {
    predicate Ok() {
      && who != {} && "" !in who
      && UNIX_EPOCH <= start <= end && start + ttl > end
    }
  }

  /** Held by a coordinator of the round to its end. */
  predicate Solid(w: Window, row: Lease) {
    row.until > w.end && row.owner in w.who
  }

  /** Each row is free from the round's start or held to its end by one of its coordinators: these are the only live
      owners, and no lease lapses in the round. */
  predicate Settled(w: Window, rows: Table) {
    forall p :: p in rows ==> rows[p].until <= w.start || Solid(w, rows[p])
  }

  /** Rows for the round's partitions only. */
  predicate NoStrays(w: Window, rows: Table) {
    forall p :: p in rows ==> p < w.n
  }

  function Held(w: Window, rows: Table, c: Id): set<nat> {
    set p | p in rows && Solid(w, rows[p]) && rows[p].owner == c
  }

  predicate Covered(w: Window, rows: Table) {
    forall p: nat :: p < w.n ==> p in rows && Solid(w, rows[p])
  }

  /** Nobody loses a partition from one table to the other. */
  predicate Grows(w: Window, rows: Table, rows': Table) {
    && Settled(w, rows') && (NoStrays(w, rows) ==> NoStrays(w, rows'))
    && forall p :: p in rows && Solid(w, rows[p]) ==>
         p in rows' && Solid(w, rows'[p]) && rows'[p].owner == rows[p].owner
  }

  lemma GrowsHeld(w: Window, rows: Table, rows': Table, c: Id)
    requires Grows(w, rows, rows')
    ensures Held(w, rows, c) <= Held(w, rows', c)
    ensures Covered(w, rows) ==> Covered(w, rows')
  {}

  /** One refresh by a coordinator of the round. */
  predicate RefreshIn(w: Window, rows: Table, me: Id, now: Time, rows': Table, owned: seq<nat>) {
    me in w.who && w.start <= now <= w.end && Refreshes(rows, me, w.n, now, w.ttl, rows', owned)
  }

  lemma MissingRowsSettled(w: Window, rows: Table)
    requires w.Ok() && Settled(w, rows)
    ensures Grows(w, rows, WithAllRows(rows, w.n))
  {}

  lemma RefreshGrows(w: Window, rows: Table, me: Id, now: Time, rows': Table, owned: seq<nat>)
    requires w.Ok() && Settled(w, rows) && RefreshIn(w, rows, me, now, rows', owned)
    ensures Grows(w, rows, rows')
  {
    MissingRowsSettled(w, rows);
    var all := WithAllRows(rows, w.n);
    forall p | p in all
      ensures p in rows' && (Solid(w, all[p]) ==> Solid(w, rows'[p]) && rows'[p].owner == all[p].owner)
              && (rows'[p].until <= w.start || Solid(w, rows'[p]))
    {}
  }

  /** Inside the round a row is live exactly when it is held to the end. */
  lemma LiveIsSolid(w: Window, rows: Table, now: Time, p: nat)
    requires w.Ok() && Settled(w, rows) && w.start <= now <= w.end && p in rows
    ensures Live(rows[p], now) <==> Solid(w, rows[p])
  {}

  lemma RefreshOwns(w: Window, rows: Table, me: Id, now: Time, rows': Table, owned: seq<nat>)
    requires w.Ok() && Settled(w, rows) && RefreshIn(w, rows, me, now, rows', owned)
    ensures SetOf(owned) == Held(w, rows', me)
  {
    RefreshGrows(w, rows, me, now, rows', owned);
    forall p | p in rows' ensures Live(rows'[p], now) <==> Solid(w, rows'[p]) { LiveIsSolid(w, rows', now, p); }
    assert Mine(rows', me, now) == Held(w, rows', me);
  }

  lemma LiveEverywhereIsCovered(w: Window, rows: Table, me: Id, now: Time, rows': Table, owned: seq<nat>)
    requires w.Ok() && Settled(w, rows) && RefreshIn(w, rows, me, now, rows', owned)
    requires forall p: nat :: p < w.n ==> Live(rows'[p], now)
    ensures Covered(w, rows')
  {
    RefreshGrows(w, rows, me, now, rows', owned);
    forall p: nat | p < w.n ensures p in rows' && Solid(w, rows'[p]) {
      assert p in WithAllRows(rows, w.n);
      LiveIsSolid(w, rows', now, p);
    }
  }

  /** More owners, smaller shares. */
  lemma FairShareAtLeast(n: nat, live: nat, k: nat)
    requires 1 <= live <= k
    ensures CeilDiv(n, live) >= CeilDiv(n, k)
  {
    var q, c := CeilDiv(n, live), CeilDiv(n, k);
    CeilDivBounds(n, live);
    CeilDivBounds(n, k);
    assert q * k >= q * live;
    if n > 0 {
      LessByFactor(c - 1, q, k);
    }
  }

  /** A refresh ends with its fair share of the round's partitions or with everything covered. */
  lemma RefreshTakesShare(w: Window, rows: Table, me: Id, now: Time, rows': Table, owned: seq<nat>)
    requires w.Ok() && Settled(w, rows) && RefreshIn(w, rows, me, now, rows', owned)
    ensures |Held(w, rows', me)| >= CeilDiv(w.n, |w.who|) || Covered(w, rows')
  {
    RefreshOwns(w, rows, me, now, rows', owned);
    LiveOwnersInRound(w, rows, now);
    SubsetSize({me}, w.who);
    var live := |LiveOwners(WithAllRows(rows, w.n), now)|;
    FairShareAtLeast(w.n, if live == 0 then 1 else live, |w.who|);
    SortedSize(owned);
    if |owned| < Target(WithAllRows(rows, w.n), w.n, now) {
      LiveEverywhereIsCovered(w, rows, me, now, rows', owned);
    }
  }

  lemma LiveOwnersInRound(w: Window, rows: Table, now: Time)
    requires w.Ok() && Settled(w, rows) && w.start <= now <= w.end
    ensures |LiveOwners(WithAllRows(rows, w.n), now)| <= |w.who|
  {
    var all := WithAllRows(rows, w.n);
    MissingRowsSettled(w, rows);
    forall c | c in LiveOwners(all, now) ensures c in w.who {
      var p :| p in all && Live(all[p], now) && all[p].owner == c;
      LiveIsSolid(w, all, now, p);
    }
    SubsetSize(LiveOwners(all, now), w.who);
  }

  /** Coordinator `who[i]` refreshes `tables[i]` into `tables[i + 1]` at `times[i]` and caches `owned[i]`. */
  datatype Round = Round(who: seq<Id>, times: seq<Time>, tables: seq<Table>, owned: seq<seq<nat>>)

  predicate RefreshAt(w: Window, r: Round, i: nat)
    requires i < |r.who| == |r.times| == |r.owned| == |r.tables| - 1
  {
    RefreshIn(w, r.tables[i], r.who[i], r.times[i], r.tables[i + 1], r.owned[i])
  }

  function Members(s: seq<Id>): set<Id> {
    set c | c in s
  }

  /** Each coordinator of the window refreshes once, starting from a settled table. */
  predicate IsRound(w: Window, r: Round) {
    && w.Ok() && w.who == Members(r.who)
    && |r.who| == |r.times| == |r.owned| == |r.tables| - 1
    && (forall i, j :: 0 <= i < j < |r.who| ==> r.who[i] != r.who[j])
    && Settled(w, r.tables[0])
    && forall i: nat :: i < |r.who| ==> RefreshAt(w, r, i)
  }

  lemma {:induction false} HoldingsGrow(w: Window, r: Round, i: nat, j: nat)
    requires IsRound(w, r) && i <= j <= |r.who| && Settled(w, r.tables[i])
    ensures Grows(w, r.tables[i], r.tables[j])
    decreases j
  {
    if i < j {
      HoldingsGrow(w, r, i, j - 1);
      assert RefreshAt(w, r, j - 1);
      RefreshGrows(w, r.tables[j - 1], r.who[j - 1], r.times[j - 1], r.tables[j], r.owned[j - 1]);
    }
  }

  function HeldByAny(w: Window, rows: Table, who: set<Id>): set<nat> {
    set p | p in rows && Solid(w, rows[p]) && rows[p].owner in who
  }

  /** Pigeonhole, one coordinator at a time: shares add up because nobody shares a partition. */
  lemma {:induction false} SharesAddUp(w: Window, rows: Table, who: set<Id>, share: nat)
    requires forall c :: c in who ==> |Held(w, rows, c)| >= share
    ensures |HeldByAny(w, rows, who)| >= |who| * share
    decreases |who|
  {
    if who != {} {
      var c :| c in who;
      var rest := who - {c};
      SharesAddUp(w, rows, rest, share);
      assert HeldByAny(w, rows, who) == HeldByAny(w, rows, rest) + Held(w, rows, c);
      assert HeldByAny(w, rows, rest) !! Held(w, rows, c);
      AddOneShare(|rest|, share);
    }
  }

  lemma AddOneShare(k: nat, share: nat)
    ensures (k + 1) * share == k * share + share
  {}

  lemma FullSubsetIsAll(a: set<nat>, n: nat)
    requires a <= UpTo(n) && |a| >= n
    ensures a == UpTo(n)
  {
    var rest := UpTo(n) - a;
    assert UpTo(n) == a + rest;
    assert |rest| == 0;
  }

  /** What coordinator `i` ended its refresh with is still its own at the end of the round. */
  lemma OwnedStaysMine(w: Window, r: Round, i: nat)
    requires IsRound(w, r) && i < |r.who|
    ensures var rows := r.tables[|r.who|];
            && Settled(w, rows)
            && SetOf(r.owned[i]) <= Held(w, rows, r.who[i])
            && (Covered(w, rows) || |Held(w, rows, r.who[i])| >= CeilDiv(w.n, |w.who|))
  {
    HoldingsGrow(w, r, 0, i);
    assert RefreshAt(w, r, i);
    RefreshGrows(w, r.tables[i], r.who[i], r.times[i], r.tables[i + 1], r.owned[i]);
    RefreshOwns(w, r.tables[i], r.who[i], r.times[i], r.tables[i + 1], r.owned[i]);
    RefreshTakesShare(w, r.tables[i], r.who[i], r.times[i], r.tables[i + 1], r.owned[i]);
    HoldingsGrow(w, r, i + 1, |r.who|);
    GrowsHeld(w, r.tables[i + 1], r.tables[|r.who|], r.who[i]);
    SubsetSize(Held(w, r.tables[i + 1], r.who[i]), Held(w, r.tables[|r.who|], r.who[i]));
  }

  /** Once every coordinator of a round has refreshed, every partition has a live owner among them, if there are no
      rows beyond the partition count. */
  lemma RoundCoversEverything(w: Window, r: Round)
    requires IsRound(w, r) && NoStrays(w, r.tables[0])
    ensures Covered(w, r.tables[|r.who|])
  {
    var rows := r.tables[|r.who|];
    var share := CeilDiv(w.n, |w.who|);
    if !Covered(w, rows) {
      forall c | c in w.who ensures |Held(w, rows, c)| >= share {
        var i :| 0 <= i < |r.who| && r.who[i] == c;
        OwnedStaysMine(w, r, i);
      }
      SharesAddUp(w, rows, w.who, share);
      CeilDivBounds(w.n, |w.who|);
      HoldingsGrow(w, r, 0, |r.who|);
      assert HeldByAny(w, rows, w.who) <= UpTo(w.n);
      FullSubsetIsAll(HeldByAny(w, rows, w.who), w.n);
      forall p: nat | p < w.n ensures p in rows && Solid(w, rows[p]) { assert p in UpTo(w.n); }
    }
  }

  /** What each coordinator cached is ascending, still its own at the end of the round, and no one else's. */
  lemma RoundOwnersAreDisjoint(w: Window, r: Round, i: nat, j: nat)
    requires IsRound(w, r) && i < |r.who| && j < |r.who|
    ensures StrictlySorted(r.owned[i])
    ensures SetOf(r.owned[i]) <= Held(w, r.tables[|r.who|], r.who[i])
    ensures i != j ==> SetOf(r.owned[i]) !! SetOf(r.owned[j])
  {
    OwnedStaysMine(w, r, i);
    OwnedStaysMine(w, r, j);
    assert RefreshAt(w, r, i);
    assert i != j ==> r.who[i] != r.who[j];
  }

  // ---- rows beyond the partition count ----------------------------------------------------------

  /** The partitions that nobody in the round holds. */
  function Uncovered(w: Window, rows: Table): set<nat> {
    set p | p in UpTo(w.n) && !(p in rows && Solid(w, rows[p]))
  }

  /** How many partitions a coordinator wants when its turn comes: its share, less all the rows it holds, also those
      beyond the count. */
  function Demand(w: Window, rows: Table, me: Id, now: Time): nat {
    var all := WithAllRows(rows, w.n);
    if |Mine(all, me, now)| < Target(all, w.n, now) then Target(all, w.n, now) - |Mine(all, me, now)| else 0
  }

  function Less(a: nat, b: nat): nat {
    if a < b then 0 else a - b
  }

  lemma CoveredMeansNoneLeft(w: Window, rows: Table)
    ensures Covered(w, rows) <==> |Uncovered(w, rows)| == 0
  {
    if Covered(w, rows) {
      assert Uncovered(w, rows) == {};
    } else {
      var p: nat :| p < w.n && !(p in rows && Solid(w, rows[p]));
      assert p in UpTo(w.n) && p in Uncovered(w, rows);
    }
  }

  /** When a refresh stops: at its share or when nothing is left, having taken anything only up to its share. */
  lemma RefreshStops(w: Window, rows: Table, me: Id, now: Time, rows': Table, owned: seq<nat>)
    requires w.Ok() && Settled(w, rows) && RefreshIn(w, rows, me, now, rows', owned)
    ensures var all := WithAllRows(rows, w.n);
            var kept, held := Mine(all, me, now), Mine(rows', me, now);
            && kept <= held
            && (|held| >= Target(all, w.n, now) || Covered(w, rows'))
            && (|held| == |kept| || |held| <= Target(all, w.n, now))
  {
    SortedSize(owned);
    if |owned| < Target(WithAllRows(rows, w.n), w.n, now) {
      LiveEverywhereIsCovered(w, rows, me, now, rows', owned);
    }
  }

  /** As many partitions as were taken are covered now and were not before. */
  lemma RefreshSizes(w: Window, rows: Table, me: Id, now: Time, rows': Table, owned: seq<nat>) returns (taken: nat)
    requires w.Ok() && Settled(w, rows) && RefreshIn(w, rows, me, now, rows', owned)
    ensures |Mine(rows', me, now)| == |Mine(WithAllRows(rows, w.n), me, now)| + taken
    ensures |Uncovered(w, rows)| == |Uncovered(w, rows')| + taken
  {
    RefreshStops(w, rows, me, now, rows', owned);
    RefreshTakesUncovered(w, rows, me, now, rows', owned);
    taken := PartSizes(Mine(WithAllRows(rows, w.n), me, now), Mine(rows', me, now), Uncovered(w, rows),
                       Uncovered(w, rows'));
  }

  lemma PartSizes(kept: set<nat>, held: set<nat>, all: set<nat>, left: set<nat>) returns (taken: nat)
    requires kept <= held && held - kept <= all && left == all - (held - kept)
    ensures |held| == |kept| + taken && |all| == |left| + taken
  {
    assert held == kept + (held - kept) && all == left + (held - kept);
    taken := |held - kept|;
  }

  /** A refresh takes from the uncovered partitions what the coordinator wants, and all of them if it wants more. */
  lemma RefreshMeetsDemand(w: Window, rows: Table, me: Id, now: Time, rows': Table, owned: seq<nat>)
    requires w.Ok() && Settled(w, rows) && RefreshIn(w, rows, me, now, rows', owned)
    ensures |Uncovered(w, rows')| == Less(|Uncovered(w, rows)|, Demand(w, rows, me, now))
  {
    var taken := RefreshSizes(w, rows, me, now, rows', owned);
    RefreshStops(w, rows, me, now, rows', owned);
    CoveredMeansNoneLeft(w, rows');
  }

  /** What a refresh takes was uncovered, and is all that it covers. */
  lemma RefreshTakesUncovered(w: Window, rows: Table, me: Id, now: Time, rows': Table, owned: seq<nat>)
    requires w.Ok() && Settled(w, rows) && RefreshIn(w, rows, me, now, rows', owned)
    ensures var taken := Mine(rows', me, now) - Mine(WithAllRows(rows, w.n), me, now);
            taken <= Uncovered(w, rows) && Uncovered(w, rows') == Uncovered(w, rows) - taken
  {
    var all := WithAllRows(rows, w.n);
    MissingRowsSettled(w, rows);
    RefreshGrows(w, rows, me, now, rows', owned);
    var taken := Mine(rows', me, now) - Mine(all, me, now);
    forall p | p in all
      ensures Live(all[p], now) <==> Solid(w, all[p])
      ensures Live(rows'[p], now) <==> Solid(w, rows'[p])
    {
      LiveIsSolid(w, all, now, p);
      LiveIsSolid(w, rows', now, p);
    }
    forall p | p in taken ensures p in Uncovered(w, rows) {
      assert p in SetOf(owned) && p < w.n && p in UpTo(w.n) && Stealable(all[p], me, now);
    }
    forall p ensures p in Uncovered(w, rows') <==> p in Uncovered(w, rows) && p !in taken {
      if p in Uncovered(w, rows) && p !in taken {
        assert p in all && p !in SetOf(owned);
      }
    }
  }

  /** What each coordinator of the round wants in its turn. */
  predicate AreDemands(w: Window, r: Round, wants: seq<nat>) {
    && |wants| == |r.who| == |r.times| == |r.tables| - 1
    && forall i :: 0 <= i < |wants| ==> wants[i] == Demand(w, r.tables[i], r.who[i], r.times[i])
  }

  /** How many partitions nobody holds after each refresh. */
  predicate AreLeft(w: Window, r: Round, left: seq<nat>) {
    |left| == |r.tables| && forall i :: 0 <= i < |left| ==> left[i] == |Uncovered(w, r.tables[i])|
  }

  function Sum(wants: seq<nat>): nat {
    if wants == [] then 0 else Sum(wants[..|wants| - 1]) + wants[|wants| - 1]
  }

  /** Wants met one after another are their sum met at once. */
  lemma {:induction false} WantsAddUp(left: seq<nat>, wants: seq<nat>)
    requires |left| == |wants| + 1 && forall i :: 0 <= i < |wants| ==> left[i + 1] == Less(left[i], wants[i])
    ensures left[|wants|] == Less(left[0], Sum(wants))
    decreases |wants|
  {
    if wants != [] {
      var k := |wants| - 1;
      WantsAddUp(left[..k + 1], wants[..k]);
    }
  }

  lemma RoundStep(w: Window, r: Round, i: nat)
    requires IsRound(w, r) && i < |r.who|
    ensures w.Ok() && Settled(w, r.tables[i])
    ensures RefreshIn(w, r.tables[i], r.who[i], r.times[i], r.tables[i + 1], r.owned[i])
  {
    HoldingsGrow(w, r, 0, i);
    assert RefreshAt(w, r, i);
  }

  lemma WantIsMet(w: Window, r: Round, i: nat, left: seq<nat>, wants: seq<nat>)
    requires IsRound(w, r) && i < |r.who| && AreLeft(w, r, left) && AreDemands(w, r, wants)
    ensures left[i + 1] == Less(left[i], wants[i])
  {
    RoundStep(w, r, i);
    RefreshMeetsDemand(w, r.tables[i], r.who[i], r.times[i], r.tables[i + 1], r.owned[i]);
  }

  /** Whatever rows there are beyond the count, and whoever holds them: a round covers every partition exactly when its
      coordinators want, each in its turn, at least as many as nobody held at its start. */
  lemma RoundCoversIff(w: Window, r: Round, wants: seq<nat>)
    requires IsRound(w, r) && AreDemands(w, r, wants)
    ensures Covered(w, r.tables[|r.who|]) <==> Sum(wants) >= |Uncovered(w, r.tables[0])|
  {
    var left := seq(|r.tables|, i requires 0 <= i < |r.tables| => |Uncovered(w, r.tables[i])|);
    forall i | 0 <= i < |wants| ensures left[i + 1] == Less(left[i], wants[i]) {
      WantIsMet(w, r, i, left, wants);
    }
    WantsAddUp(left, wants);
    CoveredMeansNoneLeft(w, r.tables[|r.who|]);
  }

  /** A coordinator that already has its share, counting any row it holds, takes no free partition. */
  lemma FullShareTakesNothing(before: Table, me: Id, n: nat, now: Time, ttl: Time, after: Table, owned: seq<nat>)
    requires Refreshes(before, me, n, now, ttl, after, owned)
    requires |Mine(WithAllRows(before, n), me, now)| >= Target(WithAllRows(before, n), n, now)
    ensures SetOf(owned) == Mine(WithAllRows(before, n), me, now)
    ensures forall p :: p in after && !Live(WithAllRows(before, n)[p], now) ==> !Live(after[p], now)
  {
    var rows := WithAllRows(before, n);
    SortedSize(owned);
    var extra := SetOf(owned) - Mine(rows, me, now);
    assert SetOf(owned) == Mine(rows, me, now) + extra;
    assert |extra| == 0;
    forall p | p in after && !Live(rows[p], now) ensures !Live(after[p], now) {
      assert p !in Mine(rows, me, now);
      assert p !in Mine(after, me, now);
    }
  }

  /** Every live row is this coordinator's. */
  predicate Lone(rows: Table, me: Id, now: Time) {
    forall p :: p in rows && Live(rows[p], now) ==> rows[p].owner == me
  }

  lemma LoneTarget(rows: Table, me: Id, n: nat, now: Time)
    requires Lone(rows, me, now)
    ensures Target(rows, n, now) == n
  {
    assert LiveOwners(rows, now) <= {me};
    SubsetSize(LiveOwners(rows, now), {me});
  }

  predicate HoldsBeyond(rows: Table, me: Id, n: nat, now: Time) {
    exists p :: p in Mine(rows, me, now) && p >= n
  }

  /** What a lone coordinator's refresh comes to: its share is `n`. */
  lemma LoneRefresh(before: Table, me: Id, n: nat, now: Time, ttl: Time, after: Table, owned: seq<nat>)
    requires Refreshes(before, me, n, now, ttl, after, owned) && now >= UNIX_EPOCH && Lone(before, me, now)
    ensures var mine, mine' := Mine(before, me, now), Mine(after, me, now);
            && mine <= mine' && (forall p :: p in mine' ==> p in mine || p < n)
            && (|mine'| >= n || UpTo(n) <= mine')
            && (mine' == mine || |mine'| <= n)
    ensures forall p: nat :: p < n ==> p in after && (Live(after[p], now) <==> p in Mine(after, me, now))
  {
    var rows := WithAllRows(before, n);
    assert Mine(rows, me, now) == Mine(before, me, now);
    LoneTarget(rows, me, n, now);
    SortedSize(owned);
    SubsetSize(Mine(before, me, now), Mine(after, me, now));
  }

  /** Covering everything beside a row beyond the count takes more than the share, so nothing was taken at all. */
  lemma CoveredDespiteStray(before: Table, me: Id, n: nat, now: Time, ttl: Time, after: Table, owned: seq<nat>)
    requires Refreshes(before, me, n, now, ttl, after, owned) && now >= UNIX_EPOCH && Lone(before, me, now)
    requires HoldsBeyond(before, me, n, now) && UpTo(n) <= Mine(after, me, now)
    ensures UpTo(n) <= Mine(before, me, now)
  {
    LoneRefresh(before, me, n, now, ttl, after, owned);
    var stray :| stray in Mine(before, me, now) && stray >= n;
    SubsetSize(UpTo(n) + {stray}, Mine(after, me, now));
  }

  lemma CoversWithoutStray(before: Table, me: Id, n: nat, now: Time, ttl: Time, after: Table, owned: seq<nat>)
    requires Refreshes(before, me, n, now, ttl, after, owned) && now >= UNIX_EPOCH && Lone(before, me, now)
    requires !HoldsBeyond(before, me, n, now)
    ensures UpTo(n) <= Mine(after, me, now)
  {
    LoneRefresh(before, me, n, now, ttl, after, owned);
    SubsetSize(Mine(after, me, now), UpTo(n));
  }

  /** The hypothesis on rows is needed: a lone coordinator covers every partition with one refresh exactly when it
      holds no live row beyond the partition count, or held every partition before. */
  lemma LoneRefreshCoversIff(before: Table, me: Id, n: nat, now: Time, ttl: Time, after: Table, owned: seq<nat>)
    requires Refreshes(before, me, n, now, ttl, after, owned) && now >= UNIX_EPOCH && Lone(before, me, now)
    ensures (forall p: nat :: p < n ==> Live(after[p], now))
            <==> !HoldsBeyond(before, me, n, now) || UpTo(n) <= Mine(before, me, now)
  {
    LoneRefresh(before, me, n, now, ttl, after, owned);
    assert (forall p: nat :: p < n ==> Live(after[p], now)) <==> UpTo(n) <= Mine(after, me, now);
    if !HoldsBeyond(before, me, n, now) {
      CoversWithoutStray(before, me, n, now, ttl, after, owned);
    } else if UpTo(n) <= Mine(after, me, now) {
      CoveredDespiteStray(before, me, n, now, ttl, after, owned);
    }
  }

  /** Such a row exists: left over from a larger table, it makes up the whole share. */
  lemma StrayRowHidesPartition(now: Time, ttl: Time, after: Table, owned: seq<nat>)
    requires now >= UNIX_EPOCH && ttl > 0
    requires Refreshes(map[0 := Lease("", UNIX_EPOCH), 5 := Lease("c", now + 1)], "c", 1, now, ttl, after, owned)
    ensures !Live(after[0], now)
  {
    var before: Table := map[0 := Lease("", UNIX_EPOCH), 5 := Lease("c", now + 1)];
    assert 5 in Mine(before, "c", now) && 0 in UpTo(1) && 0 !in Mine(before, "c", now);
    LoneRefreshCoversIff(before, "c", 1, now, ttl, after, owned);
  }
}
