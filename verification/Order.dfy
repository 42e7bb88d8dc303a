/** Ascending enumerations of id sets (the iteration order of the session's index) and the stable sort
    by key that eviction uses. */
module Order {

  predicate Ascending(s: seq<nat>) {
    forall i, j :: 0 <= i < j < |s| ==> s[i] < s[j]
  }

  predicate Distinct(s: seq<nat>) {
    forall i, j :: 0 <= i < j < |s| ==> s[i] != s[j]
  }

  function Elems(s: seq<nat>): set<nat> {
    set x | x in s
  }

  lemma ElemsConcat(a: seq<nat>, b: seq<nat>)
    ensures Elems(a + b) == Elems(a) + Elems(b)
  {
  }

  ghost function SomeLeast(s: set<nat>): (m: nat)
    requires s != {}
    ensures m in s && forall x :: x in s ==> m <= x
  {
    var m :| m in s;
    var rest := s - {m};
    assert forall x :: x in s ==> x == m || x in rest;
    if rest == {} then m
    else
      var k := SomeLeast(rest);
      if k < m then k else m
  }

  function Least(s: set<nat>): (m: nat)
    requires s != {}
    ensures m in s && forall x :: x in s ==> m <= x
  {
    ghost var k := SomeLeast(s);
    var m :| m in s && forall x :: x in s ==> m <= x;
    m
  }

  lemma ConsAscending(m: nat, rest: seq<nat>)
    requires Ascending(rest) && forall x :: x in Elems(rest) ==> m < x
    ensures Ascending([m] + rest) && Elems([m] + rest) == {m} + Elems(rest)
  {
    ElemsConcat([m], rest);
    assert forall i :: 0 <= i < |rest| ==> rest[i] in Elems(rest);
  }

  /** The elements in ascending order, each once. */
  function SortedIds(s: set<nat>): (r: seq<nat>)
    ensures Ascending(r) && Elems(r) == s && |r| == |s|
  {
    if s == {} then []
    else
      var m := Least(s);
      var rest := SortedIds(s - {m});
      assert s == {m} + (s - {m});
      hide Ascending, Elems;
      ConsAscending(m, rest);
      [m] + rest
  }

  /** There is one ascending list of a set. */
  lemma {:induction false} AscendingUnique(a: seq<nat>, b: seq<nat>)
    requires Ascending(a) && Ascending(b) && Elems(a) == Elems(b)
    ensures a == b
  {
    DistinctSize(a);
    DistinctSize(b);
    if a != [] {
      assert a[0] in Elems(b);
      assert b != [] && b[0] in Elems(a);
      assert a[0] == b[0];
      forall x
        ensures x in Elems(a[1..]) <==> x in Elems(b[1..])
      {
        assert x in a[1..] <==> x in a && x != a[0];
        assert x in b[1..] <==> x in b && x != b[0];
        assert x in Elems(a) <==> x in Elems(b);
      }
      AscendingUnique(a[1..], b[1..]);
      assert a == [a[0]] + a[1..] && b == [b[0]] + b[1..];
    }
  }

  lemma {:induction false} DistinctSize(s: seq<nat>)
    requires Distinct(s)
    ensures |Elems(s)| == |s|
  {
    if s != [] {
      DistinctSize(s[1..]);
      assert Elems(s) == {s[0]} + Elems(s[1..]);
      assert s[0] !in s[1..];
    }
  }

  lemma PrefixDistinct(s: seq<nat>, n: nat)
    requires Distinct(s) && n <= |s|
    ensures Distinct(s[..n]) && Elems(s[..n]) <= Elems(s)
  {
  }

  /** `s` without repeats, in first-seen order. */
  function Unique(s: seq<nat>): (r: seq<nat>)
    ensures Distinct(r) && Elems(r) == Elems(s)
  {
    if s == [] then []
    else
      var front, last := s[..|s| - 1], s[|s| - 1];
      var r := Unique(front);
      assert Elems(s) == Elems(front) + {last};
      assert forall x :: x in r <==> x in Elems(r);
      if last in front then r else r + [last]
  }

  /** Eviction order: smaller key first, ties to the older (smaller) id. */
  predicate Before(keys: map<nat, real>, a: nat, b: nat)
    requires a in keys && b in keys
  {
    keys[a] < keys[b] || (keys[a] == keys[b] && a < b)
  }

  predicate Keyed(keys: map<nat, real>, s: seq<nat>) {
    forall i :: 0 <= i < |s| ==> s[i] in keys
  }

  predicate InOrder(keys: map<nat, real>, s: seq<nat>)
    requires Keyed(keys, s)
  {
    forall i, j :: 0 <= i < j < |s| ==> Before(keys, s[i], s[j])
  }

  /** Stable insertion of an element that stands before all of `s`: it goes in front of its equals. */
  function Insert(keys: map<nat, real>, x: nat, s: seq<nat>): (r: seq<nat>)
    requires x in keys && Keyed(keys, s)
    ensures Keyed(keys, r) && Elems(r) == {x} + Elems(s) && |r| == |s| + 1
  {
    if s == [] || keys[x] <= keys[s[0]] then
      ElemsConcat([x], s);
      [x] + s
    else
      assert s == [s[0]] + s[1..];
      ElemsConcat([s[0]], s[1..]);
      ElemsConcat([s[0]], Insert(keys, x, s[1..]));
      [s[0]] + Insert(keys, x, s[1..])
  }

  /** A stable sort of `s` by key: it compares keys only. */
  function StableSort(keys: map<nat, real>, s: seq<nat>): (r: seq<nat>)
    requires Keyed(keys, s)
    ensures Keyed(keys, r) && Elems(r) == Elems(s) && |r| == |s|
  {
    if s == [] then []
    else
      assert s == [s[0]] + s[1..];
      ElemsConcat([s[0]], s[1..]);
      Insert(keys, s[0], StableSort(keys, s[1..]))
  }

  lemma InsertMembers(keys: map<nat, real>, x: nat, s: seq<nat>)
    requires x in keys && Keyed(keys, s)
    ensures forall y :: y in Insert(keys, x, s) ==> y == x || y in s
  {
    var r := Insert(keys, x, s);
    forall y | y in r
      ensures y == x || y in s
    {
      assert y in Elems(r);
    }
  }

  lemma ConsKeepsOrder(keys: map<nat, real>, h: nat, r: seq<nat>)
    requires h in keys && Keyed(keys, r) && InOrder(keys, r)
    requires forall y :: y in r ==> Before(keys, h, y)
    ensures InOrder(keys, [h] + r)
  {
  }

  lemma {:induction false} InsertKeepsOrder(keys: map<nat, real>, x: nat, s: seq<nat>)
    requires x in keys && Keyed(keys, s) && InOrder(keys, s)
    requires forall y :: y in s ==> x < y
    ensures InOrder(keys, Insert(keys, x, s))
  {
    if s == [] {
    } else if keys[x] <= keys[s[0]] {
      ConsKeepsOrder(keys, x, s);
    } else {
      assert forall y :: y in s[1..] ==> y in s;
      InsertKeepsOrder(keys, x, s[1..]);
      InsertMembers(keys, x, s[1..]);
      forall y | y in s[1..]
        ensures Before(keys, s[0], y)
      {
        var k :| 1 <= k < |s| && s[k] == y;
      }
      ConsKeepsOrder(keys, s[0], Insert(keys, x, s[1..]));
    }
  }

  /** On an ascending list the stable sort orders by (key, id). */
  lemma {:induction false} StableSortOrders(keys: map<nat, real>, s: seq<nat>)
    requires Keyed(keys, s) && Ascending(s)
    ensures InOrder(keys, StableSort(keys, s))
  {
    if s != [] {
      StableSortOrders(keys, s[1..]);
      var rest := StableSort(keys, s[1..]);
      forall y | y in rest
        ensures s[0] < y
      {
        assert y in Elems(rest);
      }
      InsertKeepsOrder(keys, s[0], rest);
    }
  }

  lemma InOrderDistinct(keys: map<nat, real>, s: seq<nat>)
    requires Keyed(keys, s) && InOrder(keys, s)
    ensures Distinct(s)
  {
    forall i, j | 0 <= i < j < |s|
      ensures s[i] != s[j]
    {
      assert Before(keys, s[i], s[j]);
    }
  }

  /** A prefix of an ordered list comes before everything it leaves out. */
  lemma PrefixFirst(keys: map<nat, real>, order: seq<nat>, n: nat)
    requires Keyed(keys, order) && InOrder(keys, order) && n <= |order|
    ensures Keyed(keys, order[..n]) && InOrder(keys, order[..n])
    ensures forall i, j :: i in order[..n] && j in Elems(order) - Elems(order[..n]) ==> Before(keys, i, j)
  {
    forall i, j | i in order[..n] && j in Elems(order) - Elems(order[..n])
      ensures Before(keys, i, j)
    {
      var a :| 0 <= a < n && order[a] == i;
      var b :| 0 <= b < |order| && order[b] == j;
      assert j !in order[..n];
      assert b >= n;
    }
  }
}
