/** The least-recently-used cache the policy compiler relies on: a table plus a recency list.
    Capacity 0 means "no limit"; a negative capacity keeps nothing. */
module Lru {
  import opened Wrappers

  /** `order` lists the keys of `entries`, most recently used first. */
  datatype Table<V> = Table(entries: map<string, V>, order: seq<string>)

  function Empty<V>(): Table<V> { Table(map[], []) }

  ghost predicate NoDuplicates(s: seq<string>) {
    forall i, j :: 0 <= i < j < |s| ==> s[i] != s[j]
  }

  ghost predicate WellFormed<V>(t: Table<V>, capacity: int) {
    && NoDuplicates(t.order)
    && (forall k :: k in t.order <==> k in t.entries)
    && (capacity > 0 ==> |t.order| <= capacity)
    && (capacity < 0 ==> t.order == [])
  }

  /** The list with the first occurrence of k taken out. */
  function Without(s: seq<string>, k: string): (r: seq<string>)
    ensures k !in s ==> r == s
    ensures k in s ==> |r| == |s| - 1
    ensures forall x :: x != k ==> (x in r <==> x in s)
  {
    if s == [] then [] else if s[0] == k then s[1..] else [s[0]] + Without(s[1..], k)
  }

  lemma {:induction false} WithoutKeepsDistinct(s: seq<string>, k: string)
    requires NoDuplicates(s)
    ensures NoDuplicates(Without(s, k)) && k !in Without(s, k)
  {
    if s != [] && s[0] != k {
      WithoutKeepsDistinct(s[1..], k);
      assert s[0] !in s[1..];
    }
  }

  function Touched<V>(t: Table<V>, k: string): Table<V> {
    if k in t.entries then t.(order := [k] + Without(t.order, k)) else t
  }

  /** k put in front, whether or not it was known. */
  function Fronted<V>(t: Table<V>, k: string, v: V): Table<V> {
    Table(t.entries[k := v], [k] + Without(t.order, k))
  }

  function Trimmed<V>(t: Table<V>): Table<V>
    requires t.order != []
  {
    var last := |t.order| - 1;
    Table(t.entries - {t.order[last]}, t.order[..last])
  }

  /** The table after an insertion: k is in front, and the oldest key goes if there is one too many. */
  function Added<V>(t: Table<V>, k: string, v: V, capacity: int): Table<V> {
    var t' := Fronted(t, k, v);
    if k !in t.entries && capacity != 0 && |t'.order| > capacity then Trimmed(t') else t'
  }

  function Removed<V>(t: Table<V>, k: string): Table<V> {
    Table(t.entries - {k}, Without(t.order, k))
  }

  lemma TouchedWellFormed<V>(t: Table<V>, k: string, capacity: int)
    requires WellFormed(t, capacity)
    ensures WellFormed(Touched(t, k), capacity)
  {
    WithoutKeepsDistinct(t.order, k);
  }

  lemma RemovedWellFormed<V>(t: Table<V>, k: string, capacity: int)
    requires WellFormed(t, capacity)
    ensures WellFormed(Removed(t, k), capacity)
  {
    WithoutKeepsDistinct(t.order, k);
  }

  ghost predicate Consistent<V>(t: Table<V>) {
    NoDuplicates(t.order) && forall k :: k in t.order <==> k in t.entries
  }

  lemma FrontedConsistent<V>(t: Table<V>, k: string, v: V)
    requires Consistent(t)
    ensures Consistent(Fronted(t, k, v))
  {
    WithoutKeepsDistinct(t.order, k);
  }

  lemma TrimmedConsistent<V>(t: Table<V>)
    requires Consistent(t) && t.order != []
    ensures Consistent(Trimmed(t))
  {
    var last := |t.order| - 1;
    assert t.order == t.order[..last] + [t.order[last]];
  }

  /** Insertion keeps the invariant, whatever the capacity. */
  lemma AddedWellFormed<V>(t: Table<V>, k: string, v: V, capacity: int)
    requires WellFormed(t, capacity)
    ensures WellFormed(Added(t, k, v, capacity), capacity)
  {
    var t' := Fronted(t, k, v);
    assert Consistent(t') by { FrontedConsistent(t, k, v); }
    assert k in t.order ==> |t'.order| == |t.order|;
    assert k !in t.order ==> |t'.order| == |t.order| + 1;
    if k !in t.entries && capacity != 0 && |t'.order| > capacity {
      assert Consistent(Trimmed(t')) by { TrimmedConsistent(t'); }
    }
  }

  /** Insertion binds k to v and loses at most one other key: the least recently used one. */
  lemma AddedEvictsOnlyTheOldest<V>(t: Table<V>, k: string, v: V, capacity: int, x: string)
    requires WellFormed(t, capacity) && x != k
    ensures x in Added(t, k, v, capacity).entries ==>
              x in t.entries && Added(t, k, v, capacity).entries[x] == t.entries[x]
    ensures x in t.entries && x !in Added(t, k, v, capacity).entries ==>
              x == t.order[|t.order| - 1] && |t.order| == capacity
  {
    var t' := Fronted(t, k, v);
    if k !in t.entries && capacity != 0 && |t'.order| > capacity {
      assert t'.order == [k] + t.order;
    }
  }

  /** Unless nothing is kept at all: after an insertion k is bound to v and the most recently used key, and the
      others follow in their old order. */
  lemma AddedIsInFront<V>(t: Table<V>, k: string, v: V, capacity: int)
    requires WellFormed(t, capacity) && capacity >= 0
    ensures var t' := Added(t, k, v, capacity);
            && k in t'.entries && t'.entries[k] == v
            && t'.order != [] && t'.order[0] == k && t'.order[1..] <= Without(t.order, k)
  {
  }

  /** Looking a known key up moves it to the front and changes nothing else. */
  lemma TouchedIsInFront<V>(t: Table<V>, k: string, capacity: int)
    requires WellFormed(t, capacity)
    ensures Touched(t, k).entries == t.entries
    ensures k in t.entries ==> Touched(t, k).order != [] && Touched(t, k).order[0] == k
    ensures k in t.entries ==> Touched(t, k).order[1..] == Without(t.order, k)
    ensures k !in t.entries ==> Touched(t, k) == t
  {
  }

  /** What Without leaves stands in its old order around the place of k. */
  lemma {:induction false} WithoutKeepsOrder(s: seq<string>, k: string) returns (i: nat)
    requires NoDuplicates(s) && k in s
    ensures i < |s| && s[i] == k && Without(s, k) == s[..i] + s[i + 1..]
  {
    if s[0] == k {
      return 0;
    }
    assert NoDuplicates(s[1..]);
    i := WithoutKeepsOrder(s[1..], k);
    assert s == [s[0]] + s[1..];
    return i + 1;
  }

  class Cache<V> {
    const capacity: int
    var entries: map<string, V>
    var order: seq<string>

    ghost function Contents(): Table<V>
      reads this
    {
      Table(entries, order)
    }

    ghost predicate Valid()
      reads this
    {
      WellFormed(Contents(), capacity)
    }

    constructor (capacity: int)
      ensures Valid() && this.capacity == capacity && Contents() == Empty()
    {
      this.capacity, entries, order := capacity, map[], [];
    }

    method Get(k: string) returns (hit: Option<V>)
      requires Valid()
      modifies this
      ensures Valid() && Contents() == Touched(old(Contents()), k)
      ensures hit == if k in old(entries) then Some(old(entries)[k]) else None
    {
      TouchedWellFormed(Contents(), k, capacity);
      if k in entries {
        order := [k] + Without(order, k);
        return Some(entries[k]);
      }
      return None;
    }

    method Add(k: string, v: V)
      requires Valid()
      modifies this
      ensures Valid() && Contents() == Added(old(Contents()), k, v, capacity)
    {
      assert WellFormed(Added(Contents(), k, v, capacity), capacity) by { AddedWellFormed(Contents(), k, v, capacity); }
      var known := k in entries;
      if known { order := Without(order, k); }
      order := [k] + order;
      entries := entries[k := v];
      assert Contents() == Fronted(old(Contents()), k, v);
      if !known && capacity != 0 && |order| > capacity {
        var oldest := order[|order| - 1];
        order := order[..|order| - 1];
        entries := entries - {oldest};
      }
    }

    method Remove(k: string)
      requires Valid()
      modifies this
      ensures Valid() && Contents() == Removed(old(Contents()), k)
    {
      RemovedWellFormed(Contents(), k, capacity);
      if k in entries {
        order := Without(order, k);
        entries := entries - {k};
      } else {
        assert entries - {k} == entries;
      }
    }

    method Clear()
      modifies this
      ensures Valid() && Contents() == Empty()
    {
      entries, order := map[], [];
    }
  }
}
