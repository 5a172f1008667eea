/** Collect, sort by a key, keep the first few: how the stores answer their ordered queries. */
module Ordering {
  import opened Models
  import opened Collections

  datatype Item = Item(key: int, id: Id)

  predicate Sorted(items: seq<Item>) {
    forall i, j :: 0 <= i < j < |items| ==> items[i].key <= items[j].key
  }

  lemma SortedCons(item: Item, items: seq<Item>)
    requires Sorted(items) && (items == [] || item.key <= items[0].key)
    ensures Sorted([item] + items)
  {}

  function Insert(item: Item, items: seq<Item>): (r: seq<Item>)
    requires Sorted(items)
    ensures Sorted(r) && multiset(r) == multiset(items) + multiset{item}
    ensures r != [] && (r[0] == item || (items != [] && r[0] == items[0]))
  {
    if items == [] then [item]
    else if item.key < items[0].key then
      SortedCons(item, items);
      [item] + items
    else
      assert items == [items[0]] + items[1..];
      SortedCons(items[0], Insert(item, items[1..]));
      [items[0]] + Insert(item, items[1..])
  }

  function SortByKey(items: seq<Item>): (r: seq<Item>)
    ensures Sorted(r) && multiset(r) == multiset(items)
  {
    if items == [] then []
    else
      assert items == [items[0]] + items[1..];
      Insert(items[0], SortByKey(items[1..]))
  }

  /** The answer to an ordered query over `keys`: as many as the limit allows, in order, none passed over. */
  predicate EarliestOf(keys: map<Id, int>, chosen: seq<Id>, limit: nat) {
    && |chosen| == (if |keys| <= limit then |keys| else limit)
    && (forall i :: 0 <= i < |chosen| ==> chosen[i] in keys)
    && Distinct(chosen)
    && (forall i, j :: 0 <= i < j < |chosen| ==> keys[chosen[i]] <= keys[chosen[j]])
    && (forall i, other :: 0 <= i < |chosen| && other in keys && other !in chosen ==> keys[chosen[i]] <= keys[other])
  }

  function ItemsOf(keys: map<Id, int>): set<Item> {
    set id | id in keys :: Item(keys[id], id)
  }

  function Ids(items: seq<Item>): (r: seq<Id>)
    ensures |r| == |items| && forall i :: 0 <= i < |r| ==> r[i] == items[i].id
  {
    if items == [] then [] else [items[0].id] + Ids(items[1..])
  }

  function TakeEarliest(items: seq<Item>, limit: nat): seq<Id> {
    var sorted := SortByKey(items);
    Ids(if |sorted| <= limit then sorted else sorted[..limit])
  }

  lemma {:induction false} ItemCount(keys: map<Id, int>)
    ensures |ItemsOf(keys)| == |keys|
    decreases |keys|
  {
    if keys != map[] {
      var id :| id in keys;
      var rest := keys - {id};
      assert rest.Keys == keys.Keys - {id};
      ItemCount(rest);
      forall other | other in rest ensures Item(keys[other], other) in ItemsOf(rest) {
        assert rest[other] == keys[other];
      }
      assert ItemsOf(keys) == ItemsOf(rest) + {Item(keys[id], id)};
    } else {
      assert ItemsOf(keys) == {};
    }
  }

  lemma EachOnce(items: seq<Item>, all: set<Item>, i: nat, j: nat)
    requires multiset(items) == multiset(all) && i < j < |items|
    ensures items[i] != items[j]
  {
    assert items == items[..i + 1] + items[i + 1..];
    assert items[i] in items[..i + 1] && items[j] in items[i + 1..];
    assert multiset(items) == multiset(items[..i + 1]) + multiset(items[i + 1..]);
    assert multiset(items[..i + 1])[items[i]] >= 1 && multiset(items[i + 1..])[items[j]] >= 1;
    assert multiset(items)[items[i]] == 1;
  }

  lemma SortedItems(sorted: seq<Item>, keys: map<Id, int>)
    requires multiset(sorted) == multiset(ItemsOf(keys))
    ensures |sorted| == |keys|
    ensures forall i :: 0 <= i < |sorted| ==> sorted[i].id in keys && sorted[i].key == keys[sorted[i].id]
    ensures forall i, j :: 0 <= i < j < |sorted| ==> sorted[i].id != sorted[j].id
  {
    ItemCount(keys);
    assert |sorted| == |multiset(sorted)|;
    forall i | 0 <= i < |sorted| ensures sorted[i].id in keys && sorted[i].key == keys[sorted[i].id] {
      assert sorted[i] in multiset(sorted) && sorted[i] in ItemsOf(keys);
    }
    forall i, j | 0 <= i < j < |sorted| ensures sorted[i].id != sorted[j].id {
      EachOnce(sorted, ItemsOf(keys), i, j);
    }
  }

  lemma Position(sorted: seq<Item>, keys: map<Id, int>, id: Id) returns (k: nat)
    requires multiset(sorted) == multiset(ItemsOf(keys)) && id in keys
    ensures k < |sorted| && sorted[k] == Item(keys[id], id)
  {
    assert Item(keys[id], id) in multiset(sorted);
    k :| 0 <= k < |sorted| && sorted[k] == Item(keys[id], id);
  }

  /** Whatever order the rows were collected in, the answer is a right one. */
  lemma TakeEarliestIsEarliest(items: seq<Item>, keys: map<Id, int>, limit: nat)
    requires multiset(items) == multiset(ItemsOf(keys))
    ensures EarliestOf(keys, TakeEarliest(items, limit), limit)
  {
    var sorted := SortByKey(items);
    SortedItems(sorted, keys);
    PrefixIsEarliest(sorted, keys, if |sorted| <= limit then |sorted| else limit);
  }

  lemma PrefixIsEarliest(sorted: seq<Item>, keys: map<Id, int>, n: nat)
    requires Sorted(sorted) && multiset(sorted) == multiset(ItemsOf(keys)) && n <= |sorted|
    ensures |sorted| == |keys| && EarliestOf(keys, Ids(sorted[..n]), n)
    ensures sorted[..|sorted|] == sorted
  {
    SortedItems(sorted, keys);
    var chosen := Ids(sorted[..n]);
    forall i, j | 0 <= i < j < |chosen| ensures chosen[i] != chosen[j] {
      assert chosen[i] == sorted[i].id && chosen[j] == sorted[j].id;
    }
    forall i, other | 0 <= i < |chosen| && other in keys && other !in chosen
      ensures keys[chosen[i]] <= keys[other]
    {
      var k := Position(sorted, keys, other);
      assert chosen[i] == sorted[i].id;
    }
  }

  /** The items of the keys already visited. */
  ghost function Collected(keys: map<Id, int>, seen: set<Id>): set<Item> {
    set id | id in seen && id in keys :: Item(keys[id], id)
  }

  lemma CollectOne(keys: map<Id, int>, seen: set<Id>, id: Id)
    requires id !in seen
    ensures var before, after := Collected(keys, seen), Collected(keys, seen + {id});
            if id in keys then multiset(after) == multiset(before) + multiset{Item(keys[id], id)} else after == before
  {
    var before, after := Collected(keys, seen), Collected(keys, seen + {id});
    if id in keys {
      assert Item(keys[id], id) !in before;
      assert after == before + {Item(keys[id], id)};
    }
  }

  lemma CollectedAll(keys: map<Id, int>, seen: set<Id>)
    requires keys.Keys <= seen
    ensures Collected(keys, seen) == ItemsOf(keys)
  {}
}
