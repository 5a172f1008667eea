/** When the batch claim loop finds a run: an exact account of how far down the pool's line it gets. */
module BatchRules {
  import opened Models
  import opened Collections
  import opened RunRules
  import opened ReadyQueue
  import opened CompositeRules

  // ---- the pool's line --------------------------------------------------------------------------

  /** All due members of the pool, first to last. */
  ghost predicate IsLine(scores: Scores, pool: string, max: int, line: seq<Id>) {
    && (forall id :: id in line <==> Due(scores, pool, max, id))
    && Ordered(scores, pool, line)
  }

  predicate Ordered(scores: Scores, pool: string, ids: seq<Id>) {
    forall i, j :: 0 <= i < j < |ids| ==> InFront(scores, pool, ids[i], ids[j])
  }

  predicate InFront(scores: Scores, pool: string, a: Id, b: Id) {
    Entry(pool, a) in scores && Entry(pool, b) in scores && a != b && Before(scores, pool, a, b)
  }

  lemma WithoutTwice(scores: Scores, pool: string, a: seq<Id>, b: seq<Id>)
    ensures Without(Without(scores, pool, a), pool, b) == Without(scores, pool, a + b)
  {}

  lemma LineWithoutFirst(scores: Scores, pool: string, max: int, line: seq<Id>)
    requires IsLine(scores, pool, max, line) && line != []
    ensures IsFirst(scores, pool, max, line[0])
    ensures IsLine(Without(scores, pool, [line[0]]), pool, max, line[1..])
  {
    var rest := Without(scores, pool, [line[0]]);
    forall o | Due(scores, pool, max, o) && o != line[0] ensures Before(scores, pool, line[0], o) {
      var k :| 0 <= k < |line| && line[k] == o;
      assert InFront(scores, pool, line[0], line[k]);
    }
    forall id ensures id in line[1..] <==> Due(rest, pool, max, id) {
      assert line == [line[0]] + line[1..];
      assert id in line <==> id == line[0] || id in line[1..];
      if id in line[1..] {
        var k :| 0 <= k < |line[1..]| && line[1..][k] == id;
        assert InFront(scores, pool, line[0], line[k + 1]);
      }
    }
    forall i, j | 0 <= i < j < |line[1..]| ensures InFront(rest, pool, line[1..][i], line[1..][j]) {
      assert InFront(scores, pool, line[i + 1], line[j + 1]);
      assert InFront(scores, pool, line[0], line[i + 1]) && InFront(scores, pool, line[0], line[j + 1]);
    }
  }

  lemma LineIsEmptyIff(scores: Scores, pool: string, max: int, line: seq<Id>)
    requires IsLine(scores, pool, max, line)
    ensures line == [] <==> DueIds(scores, pool, max) == {}
  {
    if line != [] {
      assert line[0] in line;
      DueIdsAreDue(scores, pool, max, line[0]);
    } else {
      forall id ensures id !in DueIds(scores, pool, max) { DueIdsAreDue(scores, pool, max, id); }
    }
  }

  lemma FirstWithLine(scores: Scores, pool: string, max: int, first: Id, rest: seq<Id>)
    requires IsFirst(scores, pool, max, first) && IsLine(Without(scores, pool, [first]), pool, max, rest)
    ensures IsLine(scores, pool, max, [first] + rest)
  {
    var line := [first] + rest;
    forall i, j | 0 <= i < j < |line| ensures InFront(scores, pool, line[i], line[j]) {
      assert line[j] == rest[j - 1] && rest[j - 1] in rest;
      if i > 0 {
        assert InFront(Without(scores, pool, [first]), pool, rest[i - 1], rest[j - 1]);
      }
    }
    forall id ensures id in line <==> Due(scores, pool, max, id) {
      assert id in line <==> id == first || id in rest;
    }
  }

  lemma {:induction false} LineExists(scores: Scores, pool: string, max: int) returns (line: seq<Id>)
    ensures IsLine(scores, pool, max, line)
    decreases |DueIds(scores, pool, max)|
  {
    var first := First(scores, pool, max);
    if first.None? {
      line := [];
      forall id ensures id in line <==> Due(scores, pool, max, id) { DueIdsAreDue(scores, pool, max, id); }
    } else {
      var without := Without(scores, pool, [first.value]);
      DueIdsAreDue(scores, pool, max, first.value);
      forall id | id in DueIds(without, pool, max) ensures id in DueIds(scores, pool, max) && id != first.value {
        DueIdsAreDue(without, pool, max, id);
        DueIdsAreDue(scores, pool, max, id);
      }
      StrictSubsetIsSmaller(DueIds(without, pool, max), DueIds(scores, pool, max), first.value);
      var rest := LineExists(without, pool, max);
      FirstWithLine(scores, pool, max, first.value, rest);
      line := [first.value] + rest;
    }
  }

  function Head(line: seq<Id>, count: nat): seq<Id> {
    if |line| <= count then line else line[..count]
  }

  /** A pop takes the head of the line. */
  lemma {:induction false} PoppedIsHead(scores: Scores, pool: string, max: int, count: nat, ids: seq<Id>, line: seq<Id>)
    requires IsLine(scores, pool, max, line)
    requires IsDueRange(scores, pool, max, count, ids)
    ensures ids == Head(line, count)
    decreases |ids|
  {
    assert Without(scores, pool, []) == scores;
    if ids == [] {
      LineIsEmptyIff(scores, pool, max, line);
    } else {
      assert ids[..0] == [] && IsFirst(Without(scores, pool, ids[..0]), pool, max, ids[0]);
      assert ids[0] in line;
      LineWithoutFirst(scores, pool, max, line);
      FirstIsUnique(scores, pool, max, ids[0], line[0]);
      RestIsDueRange(scores, pool, max, count, ids);
      PoppedIsHead(Without(scores, pool, [ids[0]]), pool, max, count - 1, ids[1..], line[1..]);
      assert ids == [ids[0]] + ids[1..] && line == [line[0]] + line[1..];
    }
  }

  lemma RestIsDueRange(scores: Scores, pool: string, max: int, count: nat, ids: seq<Id>)
    requires IsDueRange(scores, pool, max, count, ids) && ids != []
    ensures count > 0 && IsDueRange(Without(scores, pool, [ids[0]]), pool, max, count - 1, ids[1..])
  {
    var rest := Without(scores, pool, [ids[0]]);
    forall i | 0 <= i < |ids[1..]| ensures IsFirst(Without(rest, pool, ids[1..][..i]), pool, max, ids[1..][i]) {
      WithoutTwice(scores, pool, [ids[0]], ids[1..][..i]);
      assert [ids[0]] + ids[1..][..i] == ids[..i + 1];
      assert IsFirst(Without(scores, pool, ids[..i + 1]), pool, max, ids[i + 1]);
    }
    WithoutTwice(scores, pool, [ids[0]], ids[1..]);
    assert [ids[0]] + ids[1..] == ids;
  }

  // ---- one losing turn --------------------------------------------------------------------------

  /** The members that a losing turn puts straight back into the same set. */
  function Blockers(rows: Rows, pool: string, now: Time, ids: seq<Id>): seq<Id> {
    if ids == [] then []
    else if Blocks(rows, pool, now, ids[0]) then [ids[0]] + Blockers(rows, pool, now, ids[1..])
    else Blockers(rows, pool, now, ids[1..])
  }

  lemma {:induction false} BlockersAre(rows: Rows, pool: string, now: Time, ids: seq<Id>, id: Id)
    ensures id in Blockers(rows, pool, now, ids) <==> id in ids && Blocks(rows, pool, now, id)
    decreases |ids|
  {
    if ids != [] {
      BlockersAre(rows, pool, now, ids[1..], id);
      assert id in ids <==> id == ids[0] || id in ids[1..];
    }
  }

  lemma {:induction false} BlockersConcat(rows: Rows, pool: string, now: Time, a: seq<Id>, b: seq<Id>)
    ensures Blockers(rows, pool, now, a + b) == Blockers(rows, pool, now, a) + Blockers(rows, pool, now, b)
    decreases |a|
  {
    if a == [] {
      assert a + b == b;
    } else {
      BlockersConcat(rows, pool, now, a[1..], b);
      assert (a + b)[0] == a[0] && (a + b)[1..] == a[1..] + b;
      assert [a[0]] + (Blockers(rows, pool, now, a[1..]) + Blockers(rows, pool, now, b))
             == ([a[0]] + Blockers(rows, pool, now, a[1..])) + Blockers(rows, pool, now, b);
    }
  }

  lemma {:induction false} AllBlock(rows: Rows, pool: string, now: Time, ids: seq<Id>)
    requires forall id :: id in ids ==> Blocks(rows, pool, now, id)
    ensures Blockers(rows, pool, now, ids) == ids
    decreases |ids|
  {
    if ids != [] {
      AllBlock(rows, pool, now, ids[1..]);
      assert ids == [ids[0]] + ids[1..];
    }
  }

  /** The queue after a turn that claimed none of `ids`. */
  function AfterLoss(rows: Rows, scores: Scores, pool: string, now: Time, ids: seq<Id>): Scores {
    PutBackSet(rows, Without(scores, pool, ids), SetOf(ids), pool, now)
  }

  /** For a member of the pool's own set: it is there afterwards if it was not popped or blocks, under its score. */
  lemma LossKeepsEntry(rows: Rows, scores: Scores, pool: string, now: Time, ids: seq<Id>, id: Id)
    requires InSync(rows, scores)
    requires forall o :: o in ids ==> Entry(pool, o) in scores
    ensures Entry(pool, id) in AfterLoss(rows, scores, pool, now, ids)
            <==> Entry(pool, id) in scores && (id !in ids || Blocks(rows, pool, now, id))
    ensures Entry(pool, id) in AfterLoss(rows, scores, pool, now, ids) ==>
              AfterLoss(rows, scores, pool, now, ids)[Entry(pool, id)] == scores[Entry(pool, id)]
  {
    var e := Entry(pool, id);
    var targets := Targets(rows, SetOf(ids), pool, now);
    assert e in targets <==> id in ids && Blocks(rows, pool, now, id);
    if id in ids && Blocks(rows, pool, now, id) {
      PutBackComplementsClaim(rows[id], pool, now);
      assert Waiting(rows, scores, id);
    }
  }

  lemma LossKeepsSync(rows: Rows, scores: Scores, pool: string, worker: Id, now: Time, ttlSecs: int, ids: seq<Id>)
    requires InSync(rows, scores) && ClaimableIds(rows, SetOf(ids), pool, now) == {}
    ensures InSync(rows, AfterLoss(rows, scores, pool, now, ids))
  {
    assert forall id :: id in SetOf(ids) && id in rows ==> id !in ClaimableIds(rows, SetOf(ids), pool, now);
    assert ClaimSet(rows, SetOf(ids), pool, worker, now, ttlSecs) == rows;
    var scores' := AfterLoss(rows, scores, pool, now, ids);
    TurnConserves(rows, scores, ids, pool, worker, now, ttlSecs, rows, scores', SetOf(ids));
    ConservedKeepsSync(rows, scores, rows, scores', pool, worker, now, ttlSecs);
  }

  /** A losing turn moves the head's blockers up and drops the rest of the head. */
  lemma LossShortensLine(rows: Rows, scores: Scores, pool: string, now: Time, line: seq<Id>, k: nat)
    requires InSync(rows, scores) && IsLine(scores, pool, Millis(now), line) && k <= |line|
    ensures IsLine(AfterLoss(rows, scores, pool, now, line[..k]), pool, Millis(now),
                   Blockers(rows, pool, now, line[..k]) + line[k..])
  {
    var ids := line[..k];
    var kept := Blockers(rows, pool, now, ids);
    var line' := kept + line[k..];
    var scores' := AfterLoss(rows, scores, pool, now, ids);
    forall o | o in ids ensures Entry(pool, o) in scores { assert o in line; }
    forall id ensures id in line' <==> Due(scores', pool, Millis(now), id) {
      LossKeepsEntry(rows, scores, pool, now, ids, id);
      BlockersAre(rows, pool, now, ids, id);
      HeadOrTail(scores, pool, line, k, id);
    }
    OrderedParts(scores, pool, line, k, kept, rows, now);
    forall i, j | 0 <= i < j < |line'| ensures InFront(scores', pool, line'[i], line'[j]) {
      assert line'[i] in line' && line'[j] in line';
      LossKeepsEntry(rows, scores, pool, now, ids, line'[i]);
      LossKeepsEntry(rows, scores, pool, now, ids, line'[j]);
    }
  }

  lemma HeadOrTail(scores: Scores, pool: string, line: seq<Id>, k: nat, id: Id)
    requires k <= |line| && Ordered(scores, pool, line)
    ensures id in line <==> id in line[..k] || id in line[k..]
    ensures !(id in line[..k] && id in line[k..])
  {
    assert line == line[..k] + line[k..];
    if id in line[..k] {
      var i :| 0 <= i < k && line[i] == id;
      forall j | 0 <= j < |line[k..]| ensures line[k..][j] != id {
        assert InFront(scores, pool, line[i], line[k + j]);
      }
    }
  }

  lemma FirstBeforeBlockers(scores: Scores, pool: string, rows: Rows, now: Time, ids: seq<Id>)
    requires ids != [] && Ordered(scores, pool, ids)
    ensures forall id :: id in Blockers(rows, pool, now, ids[1..]) ==> InFront(scores, pool, ids[0], id)
  {
    forall id | id in Blockers(rows, pool, now, ids[1..]) ensures InFront(scores, pool, ids[0], id) {
      BlockersAre(rows, pool, now, ids[1..], id);
      var m :| 0 <= m < |ids[1..]| && ids[1..][m] == id;
      assert InFront(scores, pool, ids[0], ids[m + 1]);
    }
  }

  lemma OrderedCons(scores: Scores, pool: string, first: Id, rest: seq<Id>)
    requires Ordered(scores, pool, rest) && forall id :: id in rest ==> InFront(scores, pool, first, id)
    ensures Ordered(scores, pool, [first] + rest)
  {
    var ids := [first] + rest;
    forall i, j | 0 <= i < j < |ids| ensures InFront(scores, pool, ids[i], ids[j]) {
      assert ids[j] == rest[j - 1] && rest[j - 1] in rest;
      if i > 0 {
        assert ids[i] == rest[i - 1];
      }
    }
  }

  lemma {:induction false} BlockersInOrder(scores: Scores, pool: string, rows: Rows, now: Time, ids: seq<Id>)
    requires Ordered(scores, pool, ids)
    ensures Ordered(scores, pool, Blockers(rows, pool, now, ids))
    decreases |ids|
  {
    if ids != [] {
      BlockersInOrder(scores, pool, rows, now, ids[1..]);
      if Blocks(rows, pool, now, ids[0]) {
        FirstBeforeBlockers(scores, pool, rows, now, ids);
        OrderedCons(scores, pool, ids[0], Blockers(rows, pool, now, ids[1..]));
      }
    }
  }

  lemma OrderedParts(scores: Scores, pool: string, line: seq<Id>, k: nat, kept: seq<Id>, rows: Rows, now: Time)
    requires k <= |line| && Ordered(scores, pool, line)
    requires kept == Blockers(rows, pool, now, line[..k])
    ensures var line' := kept + line[k..];
            Ordered(scores, pool, line')
  {
    BlockersInOrder(scores, pool, rows, now, line[..k]);
    var line' := kept + line[k..];
    forall i, j | 0 <= i < j < |line'| ensures InFront(scores, pool, line'[i], line'[j]) {
      if i < |kept| <= j {
        BlockersAre(rows, pool, now, line[..k], kept[i]);
        assert kept[i] in kept;
        var m :| 0 <= m < k && line[m] == kept[i];
        assert InFront(scores, pool, line[m], line[k + (j - |kept|)]);
      } else if |kept| <= i {
        assert InFront(scores, pool, line[k + (i - |kept|)], line[k + (j - |kept|)]);
      }
    }
  }

  // ---- the loop ---------------------------------------------------------------------------------

  ghost function Front(scores: Scores, pool: string, max: int, count: nat): seq<Id> {
    Head(TheLine(scores, pool, max), count)
  }

  lemma FrontIsHead(scores: Scores, pool: string, max: int, count: nat, line: seq<Id>)
    requires IsLine(scores, pool, max, line)
    ensures Front(scores, pool, max, count) == Head(line, count)
  {
    LineIsUnique(scores, pool, max, line, TheLine(scores, pool, max));
  }

  lemma FrontIsPopped(scores: Scores, pool: string, max: int, count: nat, ids: seq<Id>)
    requires IsDueRange(scores, pool, max, count, ids)
    ensures ids == Front(scores, pool, max, count)
  {
    PoppedIsHead(scores, pool, max, count, ids, TheLine(scores, pool, max));
  }

  ghost function TheLine(scores: Scores, pool: string, max: int): seq<Id> {
    LineIsThere(scores, pool, max);
    var line :| IsLine(scores, pool, max, line);
    line
  }

  lemma LineIsThere(scores: Scores, pool: string, max: int)
    ensures exists line :: IsLine(scores, pool, max, line)
  {
    var line := LineExists(scores, pool, max);
  }

  lemma {:induction false} LineIsUnique(scores: Scores, pool: string, max: int, a: seq<Id>, b: seq<Id>)
    requires IsLine(scores, pool, max, a) && IsLine(scores, pool, max, b)
    ensures a == b
    decreases |a|
  {
    LineIsEmptyIff(scores, pool, max, a);
    LineIsEmptyIff(scores, pool, max, b);
    if a != [] {
      LineWithoutFirst(scores, pool, max, a);
      LineWithoutFirst(scores, pool, max, b);
      FirstIsUnique(scores, pool, max, a[0], b[0]);
      LineIsUnique(Without(scores, pool, [a[0]]), pool, max, a[1..], b[1..]);
      assert a == [a[0]] + a[1..] && b == [b[0]] + b[1..];
    }
  }

  /** The batch loop returns a run: pop a batch; return when one of it is claimable, or put back and go on. */
  ghost predicate BatchWins(rows: Rows, scores: Scores, pool: string, now: Time, batch: nat, attempts: nat)
    decreases attempts
  {
    attempts > 0
    && var ids := Front(scores, pool, Millis(now), batch);
       ids != []
       && (ClaimableIds(rows, SetOf(ids), pool, now) != {}
           || BatchWins(rows, AfterLoss(rows, scores, pool, now, ids), pool, now, batch, attempts - 1))
  }

  /** How far down the line the next turn gets, after the first `c` members have been popped: the blockers among
      them come up again and take their places in the batch. */
  function NextReach(rows: Rows, line: seq<Id>, pool: string, now: Time, batch: nat, c: nat): (r: nat)
    requires c <= |line|
    ensures c <= r <= |line|
  {
    var again := |Blockers(rows, pool, now, line[..c])|;
    if again >= batch then c
    else if c + batch - again <= |line| then c + batch - again
    else |line|
  }

  /** How far down the line the loop gets in `attempts` turns. */
  function Reach(rows: Rows, line: seq<Id>, pool: string, now: Time, batch: nat, c: nat, attempts: nat): (r: nat)
    requires c <= |line|
    ensures c <= r <= |line|
    decreases attempts
  {
    if attempts == 0 then c
    else Reach(rows, line, pool, now, batch, NextReach(rows, line, pool, now, batch, c), attempts - 1)
  }

  predicate ClaimableBetween(rows: Rows, line: seq<Id>, pool: string, now: Time, lo: nat, hi: nat) {
    exists i :: lo <= i < hi <= |line| && line[i] in rows && Claimable(rows[line[i]], pool, now)
  }

  /** The line once its first `c` members have been popped in vain. */
  function Left(rows: Rows, line: seq<Id>, pool: string, now: Time, c: nat): seq<Id>
    requires c <= |line|
  {
    Blockers(rows, pool, now, line[..c]) + line[c..]
  }

  /** The head of what is left: blockers that have come up before, then members seen for the first time. */
  lemma HeadOfLeft(rows: Rows, line: seq<Id>, pool: string, now: Time, batch: nat, c: nat)
    requires c <= |line|
    ensures var kept, c' := Blockers(rows, pool, now, line[..c]), NextReach(rows, line, pool, now, batch, c);
            Head(Left(rows, line, pool, now, c), batch) == Head(kept, batch) + line[c..c']
  {
    var kept, c' := Blockers(rows, pool, now, line[..c]), NextReach(rows, line, pool, now, batch, c);
    var left := kept + line[c..];
    if |kept| >= batch {
      assert line[c..c'] == [];
      assert Head(left, batch) == Head(kept, batch) == kept[..batch];
    } else if c + batch - |kept| <= |line| {
      assert left[..batch] == kept + line[c..c'];
    } else {
      assert line[c..] == line[c..c'];
    }
  }

  lemma {:induction false} BlockersBlock(rows: Rows, pool: string, now: Time, ids: seq<Id>)
    ensures forall id :: id in Blockers(rows, pool, now, ids) ==> Blocks(rows, pool, now, id)
  {
    forall id | id in Blockers(rows, pool, now, ids) ensures Blocks(rows, pool, now, id) {
      BlockersAre(rows, pool, now, ids, id);
    }
  }

  /** What a losing turn makes of what is left. */
  lemma LossOfLeft(rows: Rows, line: seq<Id>, pool: string, now: Time, batch: nat, c: nat)
    requires c <= |line|
    ensures var left := Left(rows, line, pool, now, c);
            var k := |Head(left, batch)|;
            && k <= |left| && left[..k] == Head(left, batch)
            && Blockers(rows, pool, now, left[..k]) + left[k..]
               == Left(rows, line, pool, now, NextReach(rows, line, pool, now, batch, c))
  {
    var kept, c' := Blockers(rows, pool, now, line[..c]), NextReach(rows, line, pool, now, batch, c);
    var left := kept + line[c..];
    HeadOfLeft(rows, line, pool, now, batch, c);
    BlockersBlock(rows, pool, now, line[..c]);
    if |kept| >= batch {
      assert line[c..c'] == [] && Head(left, batch) == kept[..batch] == left[..batch];
      AllBlock(rows, pool, now, kept[..batch]);
      assert kept[..batch] + left[batch..] == left;
    } else {
      PartsOfLeft(kept, line, c, c');
      BlockersOfTwo(rows, pool, now, kept, line, c, c');
    }
  }

  lemma PartsOfLeft(kept: seq<Id>, line: seq<Id>, c: nat, c': nat)
    requires c <= c' <= |line|
    ensures var left, k := kept + line[c..], |kept + line[c..c']|;
            k <= |left| && left[..k] == kept + line[c..c'] && left[k..] == line[c'..]
  {}

  lemma BlockersOfTwo(rows: Rows, pool: string, now: Time, kept: seq<Id>, line: seq<Id>, c: nat, c': nat)
    requires c <= c' <= |line| && kept == Blockers(rows, pool, now, line[..c])
    ensures Blockers(rows, pool, now, kept + line[c..c']) == Blockers(rows, pool, now, line[..c'])
  {
    BlockersBlock(rows, pool, now, line[..c]);
    BlockersConcat(rows, pool, now, kept, line[c..c']);
    AllBlock(rows, pool, now, kept);
    assert line[..c] + line[c..c'] == line[..c'];
    BlockersConcat(rows, pool, now, line[..c], line[c..c']);
  }

  lemma HeadIsClaimable(rows: Rows, line: seq<Id>, pool: string, now: Time, batch: nat, c: nat)
    requires c <= |line|
    ensures var ids := Head(Left(rows, line, pool, now, c), batch);
            ClaimableIds(rows, SetOf(ids), pool, now) != {}
            <==> ClaimableBetween(rows, line, pool, now, c, NextReach(rows, line, pool, now, batch, c))
  {
    var kept, c' := Blockers(rows, pool, now, line[..c]), NextReach(rows, line, pool, now, batch, c);
    var ids := Head(Left(rows, line, pool, now, c), batch);
    HeadOfLeft(rows, line, pool, now, batch, c);
    forall id | id in Head(kept, batch) && id in rows ensures !Claimable(rows[id], pool, now) {
      assert id in kept;
      BlockersAre(rows, pool, now, line[..c], id);
      PutBackComplementsClaim(rows[id], pool, now);
    }
    if id :| id in ClaimableIds(rows, SetOf(ids), pool, now) {
      assert id in line[c..c'];
      var m :| 0 <= m < |line[c..c']| && line[c..c'][m] == id;
      assert line[c + m] == id;
    }
    if ClaimableBetween(rows, line, pool, now, c, c') {
      var i :| c <= i < c' && line[i] in rows && Claimable(rows[line[i]], pool, now);
      assert line[i] == line[c..c'][i - c] && line[i] in ids;
      assert line[i] in ClaimableIds(rows, SetOf(ids), pool, now);
    }
  }

  /** From any point of a losing streak: the loop wins exactly if it gets to a claimable run. */
  lemma {:induction false} BatchWinsFrom(rows: Rows, scores: Scores, pool: string, worker: Id, now: Time, ttlSecs: int,
                                         batch: nat, line: seq<Id>, c: nat, attempts: nat)
    requires InSync(rows, scores) && c <= |line| && batch > 0
    requires IsLine(scores, pool, Millis(now), Left(rows, line, pool, now, c))
    ensures BatchWins(rows, scores, pool, now, batch, attempts)
            <==> ClaimableBetween(rows, line, pool, now, c, Reach(rows, line, pool, now, batch, c, attempts))
    decreases attempts
  {
    if attempts > 0 {
      var left, c' := Left(rows, line, pool, now, c), NextReach(rows, line, pool, now, batch, c);
      var ids := Front(scores, pool, Millis(now), batch);
      FrontIsHead(scores, pool, Millis(now), batch, left);
      LossOfLeft(rows, line, pool, now, batch, c);
      HeadIsClaimable(rows, line, pool, now, batch, c);
      if ids == [] {
        assert left == [] && c == |line|;
      } else if ClaimableIds(rows, SetOf(ids), pool, now) == {} {
        LossKeepsSync(rows, scores, pool, worker, now, ttlSecs, ids);
        LossShortensLine(rows, scores, pool, now, left, |ids|);
        BatchWinsFrom(rows, AfterLoss(rows, scores, pool, now, ids), pool, worker, now, ttlSecs, batch, line, c',
                      attempts - 1);
      }
    }
  }

  /** Exactly when the batch loop returns a run: among the members of the line that it gets to, some run is
      claimable. */
  lemma {:induction false} BatchWinsIff(rows: Rows, scores: Scores, pool: string, worker: Id, now: Time, ttlSecs: int,
                                        batch: nat, line: seq<Id>, attempts: nat)
    requires InSync(rows, scores) && batch > 0 && IsLine(scores, pool, Millis(now), line)
    ensures BatchWins(rows, scores, pool, now, batch, attempts)
            <==> ClaimableBetween(rows, line, pool, now, 0, Reach(rows, line, pool, now, batch, 0, attempts))
  {
    assert line[..0] == [] && [] + line[0..] == line;
    BatchWinsFrom(rows, scores, pool, worker, now, ttlSecs, batch, line, 0, attempts);
  }

  /** Without blockers each turn gets a whole batch further. */
  lemma {:induction false} ReachUnblocked(rows: Rows, line: seq<Id>, pool: string, now: Time, batch: nat, c: nat,
                                          attempts: nat)
    requires c <= |line| && forall id :: id in line ==> !Blocks(rows, pool, now, id)
    ensures Reach(rows, line, pool, now, batch, c, attempts)
            == if c + attempts * batch <= |line| then c + attempts * batch else |line|
    decreases attempts
  {
    if attempts > 0 {
      NoBlockers(rows, pool, now, line[..c]);
      var c' := NextReach(rows, line, pool, now, batch, c);
      ReachUnblocked(rows, line, pool, now, batch, c', attempts - 1);
      OneBatchMore(batch, attempts);
    }
  }

  lemma OneBatchMore(batch: nat, attempts: nat)
    requires attempts > 0
    ensures attempts * batch == batch + (attempts - 1) * batch && (attempts - 1) * batch >= 0
  {}

  lemma {:induction false} NoBlockers(rows: Rows, pool: string, now: Time, ids: seq<Id>)
    requires forall id :: id in ids ==> !Blocks(rows, pool, now, id)
    ensures Blockers(rows, pool, now, ids) == []
    decreases |ids|
  {
    if ids != [] {
      assert ids[0] in ids;
      NoBlockers(rows, pool, now, ids[1..]);
    }
  }

  /** A batch's worth of blockers stops the loop for good. */
  lemma {:induction false} ReachStuck(rows: Rows, line: seq<Id>, pool: string, now: Time, batch: nat, c: nat,
                                      attempts: nat)
    requires c <= |line| && |Blockers(rows, pool, now, line[..c])| >= batch
    ensures Reach(rows, line, pool, now, batch, c, attempts) == c
    decreases attempts
  {
    if attempts > 0 {
      ReachStuck(rows, line, pool, now, batch, c, attempts - 1);
    }
  }
}
