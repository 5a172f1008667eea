/** The Redis sorted sets that order claims: one set per pool, members scored by due millisecond. */
module ReadyQueue {
  import opened Models

  datatype Entry = Entry(pool: string, runId: Id)

  /** All pools' sorted sets together: the score of each member. */
  type Scores = map<Entry, int>

  /** Lexicographic order of members, which Redis uses between equal scores. */
  predicate LexBelow(a: string, b: string) {
    if b == "" then false
    else if a == "" then true
    else if a[0] != b[0] then a[0] < b[0]
    else LexBelow(a[1..], b[1..])
  }

  lemma LexTotal(a: string, b: string)
    ensures LexBelow(a, b) || LexBelow(b, a) || a == b
    ensures !(LexBelow(a, b) && LexBelow(b, a))
    ensures !LexBelow(a, a)
  {
    if a != "" && b != "" && a[0] == b[0] {
      LexTotal(a[1..], b[1..]);
      assert a == [a[0]] + a[1..] && b == [b[0]] + b[1..];
    }
    if a != "" {
      LexTotal(a[1..], a[1..]);
    }
  }

  /** The two agree before `k`; there `a` has ended or has the smaller character. */
  predicate BelowAt(a: string, b: string, k: nat) {
    k <= |a| && k < |b| && a[..k] == b[..k] && (k == |a| || a[k] < b[k])
  }

  /** The order is the one by first difference, a proper prefix coming first. */
  lemma {:induction false} LexBelowIff(a: string, b: string)
    ensures LexBelow(a, b) <==> exists k: nat :: BelowAt(a, b, k)
    decreases |a|
  {
    if a == "" || b == "" || a[0] != b[0] {
      assert b != "" && (a == "" || a[0] < b[0]) ==> BelowAt(a, b, 0);
    } else {
      LexBelowIff(a[1..], b[1..]);
      if k: nat :| BelowAt(a[1..], b[1..], k) {
        assert a[..k + 1] == [a[0]] + a[1..][..k] && b[..k + 1] == [b[0]] + b[1..][..k];
        assert BelowAt(a, b, k + 1);
      }
      if k: nat :| BelowAt(a, b, k) {
        assert k > 0 && a[1..][..k - 1] == a[..k][1..] && b[1..][..k - 1] == b[..k][1..];
        assert BelowAt(a[1..], b[1..], k - 1);
      }
    }
  }

  lemma LexTransitive(a: string, b: string, c: string)
    requires LexBelow(a, b) && LexBelow(b, c)
    ensures LexBelow(a, c)
  {
    if a != "" && a[0] == b[0] == c[0] {
      LexTransitive(a[1..], b[1..], c[1..]);
    }
  }

  predicate Due(scores: Scores, pool: string, max: int, id: Id) {
    Entry(pool, id) in scores && scores[Entry(pool, id)] <= max
  }

  function DueIds(scores: Scores, pool: string, max: int): set<Id> {
    set e | e in scores && e.pool == pool && scores[e] <= max :: e.runId
  }

  lemma DueIdsAreDue(scores: Scores, pool: string, max: int, id: Id)
    ensures id in DueIds(scores, pool, max) <==> Due(scores, pool, max, id)
  {
    if Due(scores, pool, max, id) {
      assert Entry(pool, id).runId == id;
    }
  }

  /** Member `a` of the pool's set comes before member `b`. */
  predicate Before(scores: Scores, pool: string, a: Id, b: Id)
    requires Entry(pool, a) in scores && Entry(pool, b) in scores
  {
    var sa, sb := scores[Entry(pool, a)], scores[Entry(pool, b)];
    sa < sb || (sa == sb && LexBelow(a, b))
  }

  ghost predicate IsFirst(scores: Scores, pool: string, max: int, id: Id) {
    Due(scores, pool, max, id) && forall o :: Due(scores, pool, max, o) && o != id ==> Before(scores, pool, id, o)
  }

  lemma FirstIsUnique(scores: Scores, pool: string, max: int, a: Id, b: Id)
    requires IsFirst(scores, pool, max, a) && IsFirst(scores, pool, max, b)
    ensures a == b
  {
    LexTotal(a, b);
  }

  function Without(scores: Scores, pool: string, ids: seq<Id>): Scores {
    map e | e in scores && !(e.pool == pool && e.runId in ids) :: scores[e]
  }

  function Added(scores: Scores, pool: string, id: Id, scheduledFor: Time): Scores {
    scores[Entry(pool, id) := Millis(scheduledFor)]
  }

  /** `ids` are the first due members of the pool, in order, as many as there are up to `count`:
      each is the first due member once those before it are gone. */
  ghost predicate IsDueRange(scores: Scores, pool: string, max: int, count: nat, ids: seq<Id>) {
    && |ids| <= count
    && (forall i :: 0 <= i < |ids| ==> IsFirst(Without(scores, pool, ids[..i]), pool, max, ids[i]))
    && (|ids| < count ==> DueIds(Without(scores, pool, ids), pool, max) == {})
  }

  lemma DueRangeIsDistinctAndDue(scores: Scores, pool: string, max: int, count: nat, ids: seq<Id>)
    requires IsDueRange(scores, pool, max, count, ids)
    ensures forall i, j :: 0 <= i < j < |ids| ==> ids[i] != ids[j]
    ensures forall id :: id in ids ==> Due(scores, pool, max, id)
  {
    forall i, j | 0 <= i < j < |ids| ensures ids[i] != ids[j] {
      assert IsFirst(Without(scores, pool, ids[..j]), pool, max, ids[j]);
      assert ids[i] in ids[..j];
    }
    forall id | id in ids ensures Due(scores, pool, max, id) {
      var i :| 0 <= i < |ids| && ids[i] == id;
      assert IsFirst(Without(scores, pool, ids[..i]), pool, max, ids[i]);
    }
  }

  class RedisQueue {
    var scores: Scores

    constructor ()
      ensures scores == map[]
    {
      scores := map[];
    }

    method EnqueueRun(pool: string, runId: Id, scheduledFor: Time)
      modifies this
      ensures scores == Added(old(scores), pool, runId, scheduledFor)
    {
      scores := scores[Entry(pool, runId) := Millis(scheduledFor)];
    }

    /** One member after another: find the first due one, then remove it. */
    method ClaimNextRunIds(pool: string, count: nat, now: Time) returns (ids: seq<Id>)
      modifies this
      ensures IsDueRange(old(scores), pool, Millis(now), count, ids)
      ensures scores == Without(old(scores), pool, ids)
    {
      ids := [];
      var max := Millis(now);
      assert scores == Without(old(scores), pool, ids);
      while |ids| < count
        invariant |ids| <= count
        invariant scores == Without(old(scores), pool, ids)
        invariant forall i :: 0 <= i < |ids| ==> IsFirst(Without(old(scores), pool, ids[..i]), pool, max, ids[i])
      {
        var first := FindFirst(pool, max);
        if first.None? {
          return;
        }
        scores := Without(scores, pool, [first.value]);
        ids := ids + [first.value];
        assert forall i :: 0 <= i < |ids| ==>
                 ids[..i] == if i < |ids| - 1 then ids[..|ids| - 1][..i] else ids[..|ids| - 1];
      }
    }

    method FindFirst(pool: string, max: int) returns (first: Option<Id>)
      ensures first.None? ==> DueIds(scores, pool, max) == {}
      ensures first.Some? ==> IsFirst(scores, pool, max, first.value)
    {
      first := None;
      var all := DueIds(scores, pool, max);
      var rest := all;
      while rest != {}
        invariant rest <= all
        invariant first.None? ==> rest == all
        invariant first.Some? ==>
                    && Due(scores, pool, max, first.value)
                    && forall o :: o in all - rest && Due(scores, pool, max, o) && o != first.value ==>
                         Before(scores, pool, first.value, o)
      {
        var id :| id in rest;
        DueIdsAreDue(scores, pool, max, id);
        if first.None? || Before(scores, pool, id, first.value) {
          if first.Some? {
            StepsDown(scores, pool, max, first.value, id, all - rest);
          }
          first := Some(id);
        } else {
          LexTotal(first.value, id);
        }
        rest := rest - {id};
      }
      forall o | Due(scores, pool, max, o) ensures o in all { DueIdsAreDue(scores, pool, max, o); }
    }

    method RemoveRun(pool: string, runId: Id)
      modifies this
      ensures scores == Without(old(scores), pool, [runId])
    {
      scores := Without(scores, pool, [runId]);
    }
  }

  lemma StepsDown(scores: Scores, pool: string, max: int, was: Id, id: Id, seen: set<Id>)
    requires Due(scores, pool, max, was) && Due(scores, pool, max, id)
    requires Before(scores, pool, id, was)
    requires forall o :: o in seen && Due(scores, pool, max, o) && o != was ==> Before(scores, pool, was, o)
    ensures forall o :: o in seen && Due(scores, pool, max, o) && o != id ==> Before(scores, pool, id, o)
  {
    forall o | o in seen && Due(scores, pool, max, o) && o != id
      ensures Before(scores, pool, id, o)
    {
      if o != was && LexBelow(id, was) && LexBelow(was, o) {
        LexTransitive(id, was, o);
      }
    }
  }
}
