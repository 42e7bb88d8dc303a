/** Queries and snapshots read the stores; what they answer is what the index says. */
module Answers {
  import opened Rdf
  import opened Items
  import opened Entries
  import opened Order
  import opened Layout
  import opened Machine
  import opened Agreement

  // ---- one scope ------------------------------------------------------------------------------

  datatype Pair = Pair(id: ItemId, triple: Quad)

  /** Every slot that the query binds is the triple's; an unbound slot is free. */
  predicate Fitting(t: Quad, p: TriplePattern) {
    && (p.subj.Some? ==> t.subj == p.subj.value)
    && (p.pred.Some? ==> t.pred == p.pred.value)
    && (p.obj.Some? ==> t.obj == p.obj.value)
  }

  /** Live items of `s` paired with their triples that match. */
  ghost function MatchingPairs(items: map<ItemId, Entry>, s: Scope, p: TriplePattern): set<Pair> {
    set i, t | i in InScope(items, s) && t in TriplesOf(items[i].item) && Fitting(t, p) :: Pair(i, t)
  }

  /** The live items of `s` with a triple that matches. */
  ghost function MatchingItems(items: map<ItemId, Entry>, s: Scope, p: TriplePattern): set<ItemId> {
    set i | i in InScope(items, s) && exists t :: t in TriplesOf(items[i].item) && Fitting(t, p)
  }

  function Stored(pair: Pair): Quad {
    InGraph(pair.triple, pair.id)
  }

  lemma HitOfStored(items: map<ItemId, Entry>, s: Scope, i: ItemId, t: Quad)
    ensures HitOf(items, s, InGraph(t, i)) == if AtHome(items, s, i) then Some(i) else None
  {
    GraphNameBijection(ItemGraph(i), i);
  }

  lemma HitOfMeta(items: map<ItemId, Entry>, s: Scope, i: ItemId, item: Item)
    ensures HitOf(items, s, MetaQuad(i, item)) == None
  {
    MetaGraphIsNoItem();
  }

  /** A scanned quad counts iff it is a matching triple of a live item at home in the scope, even when
      stale copies of other items lie in the same store. */
  lemma MatchedIffPaired(y: Sys, L: Ledger, H: Holds, s: Scope, p: TriplePattern, q: Quad)
    requires Sound(y, L, H)
    ensures q in Matched(y, s, p) <==> exists pair :: pair in MatchingPairs(y.items, s, p) && Stored(pair) == q
  {
    hide LedgerOk, ItemGraph;
    if q in Matched(y, s, p) {
      assert q in Image(L, H.Get(s));
      var i :| i in H.Get(s) && q in Encode(i, L[i]);
      HitOfMeta(y.items, s, i, L[i]);
      assert q != MetaQuad(i, L[i]);
      var t :| t in TriplesOf(L[i]) && q == InGraph(t, i);
      HitOfStored(y.items, s, i, t);
      assert Pair(i, t) in MatchingPairs(y.items, s, p) && Stored(Pair(i, t)) == q;
    }
    if pair :| pair in MatchingPairs(y.items, s, p) && Stored(pair) == q {
      var i, t := pair.id, pair.triple;
      HitOfStored(y.items, s, i, t);
      assert i in H.Get(s) && L[i] == y.items[i].item;
      assert q in Encode(i, L[i]);
      assert q in Image(L, H.Get(s));
    }
  }

  lemma {:induction false} StoredCount(pairs: set<Pair>)
    requires forall a :: a in pairs ==> a.triple.graph == Default
    ensures |set a | a in pairs :: Stored(a)| == |pairs|
  {
    if pairs != {} {
      var a :| a in pairs;
      var rest := pairs - {a};
      StoredCount(rest);
      var image := set b | b in rest :: Stored(b);
      forall b | b in rest
        ensures Stored(b) != Stored(a)
      {
        StoredInjective(a, b);
      }
      assert (set b | b in pairs :: Stored(b)) == image + {Stored(a)};
      assert Stored(a) !in image;
    }
  }

  lemma StoredInjective(a: Pair, b: Pair)
    requires a.triple.graph == Default && b.triple.graph == Default
    ensures Stored(a) == Stored(b) ==> a == b
  {
    GraphNameBijection(ItemGraph(a.id), a.id);
    GraphNameBijection(ItemGraph(b.id), b.id);
  }

  lemma ScopeCount(y: Sys, L: Ledger, H: Holds, s: Scope, p: TriplePattern)
    requires Sound(y, L, H)
    ensures |Matched(y, s, p)| == |MatchingPairs(y.items, s, p)|
  {
    var pairs := MatchingPairs(y.items, s, p);
    forall q
      ensures q in Matched(y, s, p) <==> q in (set a | a in pairs :: Stored(a))
    {
      MatchedIffPaired(y, L, H, s, p, q);
    }
    assert Matched(y, s, p) == set a | a in pairs :: Stored(a);
    forall a | a in pairs
      ensures a.triple.graph == Default
    {
      assert WellFormed(L[a.id]);
    }
    StoredCount(pairs);
  }

  lemma ScopeHits(y: Sys, L: Ledger, H: Holds, s: Scope, p: TriplePattern)
    requires Sound(y, L, H)
    ensures FoundIds(y, s, p) == MatchingItems(y.items, s, p)
  {
    forall i | i in FoundIds(y, s, p)
      ensures i in MatchingItems(y.items, s, p)
    {
      var q :| q in Matched(y, s, p) && HitOf(y.items, s, q).value == i;
      MatchedIffPaired(y, L, H, s, p, q);
      var pair :| pair in MatchingPairs(y.items, s, p) && Stored(pair) == q;
      HitOfStored(y.items, s, pair.id, pair.triple);
    }
    forall i | i in MatchingItems(y.items, s, p)
      ensures i in FoundIds(y, s, p)
    {
      var t :| t in TriplesOf(y.items[i].item) && Fitting(t, p);
      assert Pair(i, t) in MatchingPairs(y.items, s, p);
      var q := Stored(Pair(i, t));
      MatchedIffPaired(y, L, H, s, p, q);
      HitOfStored(y.items, s, i, t);
      assert q in Matched(y, s, p);
    }
  }

  // ---- all consulted scopes -------------------------------------------------------------------

  /** What a query should return, from the index alone: scope by scope, oldest item first. */
  ghost function IndexHits(items: map<ItemId, Entry>, scopes: seq<Scope>, p: TriplePattern): seq<Hit> {
    if scopes == [] then []
    else HitList(SortedIds(MatchingItems(items, scopes[0], p)), scopes[0]) + IndexHits(items, scopes[1..], p)
  }

  ghost function IndexMatches(items: map<ItemId, Entry>, scopes: seq<Scope>, p: TriplePattern): nat {
    if scopes == [] then 0
    else |MatchingPairs(items, scopes[0], p)| + IndexMatches(items, scopes[1..], p)
  }

  lemma {:induction false} ScanIsIndex(y: Sys, L: Ledger, H: Holds, scopes: seq<Scope>, p: TriplePattern)
    requires Sound(y, L, H)
    ensures var r := ScanScopes(y, scopes, p);
            r.ok ==> r.hits == IndexHits(y.items, scopes, p) && r.matched == IndexMatches(y.items, scopes, p)
    decreases |scopes|
  {
    if scopes != [] {
      var d := Attempt(y);
      if d.ok {
        ScanIsIndex(d.sys, L, H, scopes[1..], p);
        ScopeHits(y, L, H, scopes[0], p);
        ScopeCount(y, L, H, scopes[0], p);
      }
    }
  }

  lemma HitListIs(ids: seq<ItemId>, s: Scope)
    ensures forall h: Hit :: h in HitList(ids, s) <==> h.scope == s && h.id in Elems(ids)
  {
    forall h: Hit | h.scope == s && h.id in Elems(ids)
      ensures h in HitList(ids, s)
    {
      var k :| 0 <= k < |ids| && ids[k] == h.id;
      assert HitList(ids, s)[k] == h;
    }
  }

  /** The hits are exactly the live items of the listed scopes with a matching triple. */
  lemma {:induction false} HitsAre(items: map<ItemId, Entry>, scopes: seq<Scope>, p: TriplePattern)
    ensures forall h :: h in IndexHits(items, scopes, p)
                        <==> h.scope in scopes && h.id in MatchingItems(items, h.scope, p)
  {
    hide MatchingItems;
    if scopes != [] {
      HitsAre(items, scopes[1..], p);
      HitListIs(SortedIds(MatchingItems(items, scopes[0], p)), scopes[0]);
      assert scopes == [scopes[0]] + scopes[1..];
    }
  }

  lemma HitsIndexed(items: map<ItemId, Entry>, scopes: seq<Scope>, p: TriplePattern, limit: Option<nat>)
    ensures Indexed(items, Cut(IndexHits(items, scopes, p), limit))
  {
    HitsAre(items, scopes, p);
    var hits := IndexHits(items, scopes, p);
    forall k | 0 <= k < |hits|
      ensures hits[k].id in items
    {
      assert hits[k] in hits;
    }
  }

  /** The answer in terms of the scan. */
  lemma AnswerOfScan(cfg: Settings, y: Sys, sel: Selection, p: TriplePattern, limit: Option<nat>)
    requires DoQuery(cfg, y, sel, p, limit).result.Ok?
    ensures var v, r := DoQuery(cfg, y, sel, p, limit).result.value, ScanScopes(y, Consulted(sel), p);
            && r.ok && v.Found? && Indexed(y.items, Cut(r.hits, limit))
            && v.answer.items == Results(y.items, Cut(r.hits, limit))
            && v.answer.quadsMatched == r.matched
            && v.answer.scopesConsulted == |Consulted(sel)|
  {
  }

  /** A query's answer is a function of the index: the storage scan neither misses nor invents, even when
      stale copies lie in the stores. */
  lemma QueryAnswersIndex(cfg: Settings, y: Sys, L: Ledger, H: Holds, sel: Selection, p: TriplePattern,
                          limit: Option<nat>)
    requires Sound(y, L, H) && DoQuery(cfg, y, sel, p, limit).result.Ok?
    ensures var v, scopes := DoQuery(cfg, y, sel, p, limit).result.value, Consulted(sel);
            var hits := Cut(IndexHits(y.items, scopes, p), limit);
            && v.Found? && Indexed(y.items, hits)
            && v.answer.items == Results(y.items, hits)
            && v.answer.quadsMatched == IndexMatches(y.items, scopes, p)
            && v.answer.scopesConsulted == |scopes|
  {
    HitsIndexed(y.items, Consulted(sel), p, limit);
    AnswerOfScan(cfg, y, sel, p, limit);
    ScanIsIndex(y, L, H, Consulted(sel), p);
  }

  // ---- the order of the answer ----------------------------------------------------------------

  predicate DistinctScopes(s: seq<Scope>) {
    forall i, j :: 0 <= i < j < |s| ==> s[i] != s[j]
  }

  /** The first position of a scope in a list that has it. */
  function Position(s: seq<Scope>, x: Scope): (k: nat)
    requires x in s
    ensures k < |s| && s[k] == x && x !in s[..k]
  {
    if s[0] == x then 0 else Position(s[1..], x) + 1
  }

  lemma {:induction false} UniqueScopesIs(listed: seq<Scope>)
    ensures DistinctScopes(UniqueScopes(listed))
    ensures forall s :: s in UniqueScopes(listed) <==> s in listed
    ensures forall i, j :: 0 <= i < j < |UniqueScopes(listed)| ==>
              var u := UniqueScopes(listed);
              u[i] in listed && u[j] in listed && Position(listed, u[i]) < Position(listed, u[j])
  {
    if listed != [] {
      var front, last := listed[..|listed| - 1], listed[|listed| - 1];
      UniqueScopesIs(front);
      var u := UniqueScopes(listed);
      assert listed == front + [last];
      forall s | s in front
        ensures Position(listed, s) == Position(front, s)
      {
        PositionPrefix(front, [last], s);
      }
      if last !in front { assert Position(listed, last) == |front|; }
    }
  }

  lemma {:induction false} PositionPrefix(a: seq<Scope>, b: seq<Scope>, x: Scope)
    requires x in a
    ensures Position(a + b, x) == Position(a, x)
  {
    if a[0] != x {
      assert (a + b)[1..] == a[1..] + b;
      PositionPrefix(a[1..], b, x);
    }
  }

  /** Selection order first, then ascending id. */
  ghost predicate Precedes(scopes: seq<Scope>, a: Hit, b: Hit)
    requires a.scope in scopes && b.scope in scopes
  {
    Position(scopes, a.scope) < Position(scopes, b.scope) || (a.scope == b.scope && a.id < b.id)
  }

  ghost predicate InSelectionOrder(scopes: seq<Scope>, hits: seq<Hit>) {
    && (forall k :: 0 <= k < |hits| ==> hits[k].scope in scopes)
    && forall i, j :: 0 <= i < j < |hits| ==> Precedes(scopes, hits[i], hits[j])
  }

  /** Each hit comes once, in selection order and then oldest first. */
  lemma {:induction false} HitsInOrder(items: map<ItemId, Entry>, scopes: seq<Scope>, p: TriplePattern)
    requires DistinctScopes(scopes)
    ensures InSelectionOrder(scopes, IndexHits(items, scopes, p))
  {
    if scopes != [] {
      HitsInOrder(items, scopes[1..], p);
      HitsJoin(scopes, SortedIds(MatchingItems(items, scopes[0], p)), IndexHits(items, scopes[1..], p));
    }
  }

  lemma HitsJoin(scopes: seq<Scope>, ids: seq<ItemId>, others: seq<Hit>)
    requires scopes != [] && DistinctScopes(scopes) && Ascending(ids) && InSelectionOrder(scopes[1..], others)
    ensures InSelectionOrder(scopes, HitList(ids, scopes[0]) + others)
  {
    var mine := HitList(ids, scopes[0]);
    var hits := mine + others;
    forall i, j | 0 <= i < j < |hits|
      ensures hits[i].scope in scopes && hits[j].scope in scopes && Precedes(scopes, hits[i], hits[j])
    {
      PrecedesCases(scopes, mine, others, i, j);
    }
    forall k | 0 <= k < |hits|
      ensures hits[k].scope in scopes
    {
      if k >= |mine| { assert hits[k] == others[k - |mine|]; }
    }
  }

  lemma PrecedesCases(scopes: seq<Scope>, mine: seq<Hit>, others: seq<Hit>, i: nat, j: nat)
    requires scopes != [] && DistinctScopes(scopes) && i < j < |mine + others|
    requires forall k :: 0 <= k < |mine| ==> mine[k].scope == scopes[0]
    requires forall k, m :: 0 <= k < m < |mine| ==> mine[k].id < mine[m].id
    requires forall k :: 0 <= k < |others| ==> others[k].scope in scopes[1..]
    requires forall k, m :: 0 <= k < m < |others| ==> Precedes(scopes[1..], others[k], others[m])
    ensures var hits := mine + others;
            hits[i].scope in scopes && hits[j].scope in scopes && Precedes(scopes, hits[i], hits[j])
  {
    var hits, rest := mine + others, scopes[1..];
    if i < |mine| {
      assert Position(scopes, hits[i].scope) == 0;
      if j >= |mine| { assert hits[j] == others[j - |mine|]; }
    } else {
      var a, b := others[i - |mine|], others[j - |mine|];
      assert hits[i] == a && hits[j] == b;
      assert Precedes(rest, a, b);
      assert Position(scopes, a.scope) == Position(rest, a.scope) + 1;
      assert Position(scopes, b.scope) == Position(rest, b.scope) + 1;
    }
  }

  // ---- snapshots ------------------------------------------------------------------------------

  ghost function QuadTotal(L: Ledger, ids: seq<ItemId>): nat
    requires forall i :: i in ids ==> i in L
  {
    if ids == [] then 0 else |TriplesOf(L[ids[0]])| + 1 + QuadTotal(L, ids[1..])
  }

  lemma EncodeCount(id: ItemId, item: Item)
    requires WellFormed(item)
    ensures |Encode(id, item)| == |TriplesOf(item)| + 1
  {
    var pairs := set t | t in TriplesOf(item) :: Pair(id, t);
    PairsCount(id, TriplesOf(item));
    StoredCount(pairs);
    var image := set t | t in TriplesOf(item) :: InGraph(t, id);
    forall q | q in image
      ensures q in (set a | a in pairs :: Stored(a))
    {
      var t :| t in TriplesOf(item) && q == InGraph(t, id);
      assert Stored(Pair(id, t)) == q;
    }
    assert image == set a | a in pairs :: Stored(a);
    OneRecordPerItem(id, item);
    MetaGraphIsNoItem();
    GraphNameBijection(ItemGraph(id), id);
    assert MetaQuad(id, item) !in image;
  }

  lemma {:induction false} PairsCount(id: ItemId, ts: set<Quad>)
    ensures |set t | t in ts :: Pair(id, t)| == |ts|
  {
    if ts != {} {
      var t :| t in ts;
      PairsCount(id, ts - {t});
      assert (set u | u in ts :: Pair(id, u)) == (set u | u in ts - {t} :: Pair(id, u)) + {Pair(id, t)};
    }
  }

  lemma ItemsApart(L: Ledger, ids: set<ItemId>, i: ItemId)
    requires ids <= L.Keys && i in L && i !in ids
    ensures Image(L, ids) !! Encode(i, L[i])
  {
    forall q | q in Encode(i, L[i])
      ensures q !in Image(L, ids)
    {
      EncodeOwned(i, L[i], q);
      forall j | j in ids
        ensures q !in Encode(j, L[j])
      {
        if q in Encode(j, L[j]) { EncodeOwned(j, L[j], q); }
      }
    }
  }

  lemma {:induction false} ImageCount(L: Ledger, ids: seq<ItemId>)
    requires Distinct(ids) && forall i :: i in ids ==> i in L && WellFormed(L[i])
    ensures Elems(ids) <= L.Keys && |Image(L, Elems(ids))| == QuadTotal(L, ids)
  {
    hide Encode, TriplesOf, WellFormed;
    if ids == [] {
      assert Image(L, Elems(ids)) == {};
    } else {
      var i, rest := ids[0], ids[1..];
      ImageCount(L, rest);
      assert ids == [i] + rest;
      assert Elems(ids) == Elems(rest) + {i};
      ImageAdd(L, Elems(rest), i);
      EncodeCount(i, L[i]);
      ItemsApart(L, Elems(rest), i);
    }
  }

  /** Over a snapshot's items, the distinct triples plus one. */
  function StoredTotal(items: seq<StoredItem>): nat {
    if items == [] then 0 else |TriplesOf(items[0].item)| + 1 + StoredTotal(items[1..])
  }

  lemma {:induction false} CopiesTotal(items: map<ItemId, Entry>, L: Ledger, ids: seq<ItemId>)
    requires forall i :: i in ids ==> i in items && i in L && L[i] == items[i].item
    ensures StoredTotal(Copies(items, ids)) == QuadTotal(L, ids)
  {
    hide TriplesOf;
    if ids != [] {
      CopiesTotal(items, L, ids[1..]);
      assert Copies(items, ids)[1..] == Copies(items, ids[1..]);
    }
  }

  /** The ids a store holds although their items live elsewhere or nowhere. */
  ghost function StaleIds(items: map<ItemId, Entry>, H: Holds, s: Scope): set<ItemId> {
    H.Get(s) - InScope(items, s)
  }

  lemma SortedMembers(ids: set<ItemId>)
    ensures Distinct(SortedIds(ids)) && forall i :: i in SortedIds(ids) <==> i in ids
  {
    var v := SortedIds(ids);
    assert forall i :: i in v <==> i in Elems(v);
  }

  lemma ImageSplit(L: Ledger, a: set<ItemId>, b: set<ItemId>)
    requires a !! b && a + b <= L.Keys && forall i :: i in a + b ==> WellFormed(L[i])
    ensures (forall i :: i in SortedIds(a) ==> i in L) && (forall i :: i in SortedIds(b) ==> i in L)
    ensures |Image(L, a + b)| == QuadTotal(L, SortedIds(a)) + QuadTotal(L, SortedIds(b))
  {
    hide Image, QuadTotal, WellFormed, Distinct;
    SortedMembers(a);
    SortedMembers(b);
    ImageCount(L, SortedIds(a));
    ImageCount(L, SortedIds(b));
    ImagesApart(L, a, b);
    ImageJoin(L, a, a + b);
    assert (a + b) - a == b;
  }

  lemma ImagesApart(L: Ledger, a: set<ItemId>, b: set<ItemId>)
    requires a <= L.Keys && b <= L.Keys && a !! b
    ensures Image(L, a) !! Image(L, b)
  {
    forall q | q in Image(L, b)
      ensures q !in Image(L, a)
    {
      var i :| i in b && q in Encode(i, L[i]);
      ItemsApart(L, a, i);
    }
  }

  lemma ImageJoin(L: Ledger, a: set<ItemId>, b: set<ItemId>)
    requires a <= b <= L.Keys
    ensures Image(L, b) == Image(L, a) + Image(L, b - a)
  {
    assert forall i :: i in b ==> i in a || i in b - a;
  }

  /** A tier's quad count is, over its items, the distinct triples plus one, and the same again over the
      stale copies its store holds. */
  lemma SnapshotCounts(y: Sys, L: Ledger, H: Holds, s: Scope)
    requires Sound(y, L, H)
    ensures StaleIds(y.items, H, s) <= L.Keys
    ensures forall i :: i in SortedIds(StaleIds(y.items, H, s)) ==> i in L
    ensures SnapshotOf(y, s).quadCount
            == StoredTotal(SnapshotOf(y, s).items) + QuadTotal(L, SortedIds(StaleIds(y.items, H, s)))
    ensures Stale(y.items, H) == {} ==> SnapshotOf(y, s).quadCount == StoredTotal(SnapshotOf(y, s).items)
  {
    hide Stale, Sound, InScope, StaleIds, QuadTotal, StoredTotal, Copies;
    StoreCount(y, L, H, s);
    HomeTotal(y, L, H, s);
    if Stale(y.items, H) == {} {
      NoneStaleHere(y.items, H, s);
      NoQuadTotal(L);
    }
  }

  /** A store's size, by the items at home in it and the stale copies. */
  lemma StoreCount(y: Sys, L: Ledger, H: Holds, s: Scope)
    requires Sound(y, L, H)
    ensures StaleIds(y.items, H, s) <= L.Keys
    ensures forall i :: i in SortedIds(StaleIds(y.items, H, s)) ==> i in L
    ensures forall i :: i in SortedIds(InScope(y.items, s)) ==> i in L
    ensures |y.stores.Get(s)|
            == QuadTotal(L, SortedIds(InScope(y.items, s))) + QuadTotal(L, SortedIds(StaleIds(y.items, H, s)))
  {
    hide Image, WellFormed, QuadTotal, Stale, Sound, InScope;
    var home, stale := InScope(y.items, s), StaleIds(y.items, H, s);
    HeldHere(y, L, H, s);
    assert H.Get(s) == home + stale;
    ImageSplit(L, home, stale);
  }

  lemma HomeTotal(y: Sys, L: Ledger, H: Holds, s: Scope)
    requires Sound(y, L, H)
    ensures forall i :: i in SortedIds(InScope(y.items, s)) ==> i in L
    ensures StoredTotal(SnapshotOf(y, s).items) == QuadTotal(L, SortedIds(InScope(y.items, s)))
  {
    hide WellFormed, QuadTotal, Stale, Sound, StoredTotal, Copies;
    SortedMembers(InScope(y.items, s));
    HeldHere(y, L, H, s);
    CopiesTotal(y.items, L, SortedIds(InScope(y.items, s)));
  }

  lemma HeldHere(y: Sys, L: Ledger, H: Holds, s: Scope)
    requires Sound(y, L, H)
    ensures InScope(y.items, s) <= H.Get(s) <= L.Keys && y.stores.Get(s) == Image(L, H.Get(s))
    ensures forall i :: i in InScope(y.items, s) ==> i in y.items && L[i] == y.items[i].item
    ensures forall i :: i in H.Get(s) ==> WellFormed(L[i])
  {
  }

  lemma NoQuadTotal(L: Ledger)
    ensures QuadTotal(L, SortedIds({})) == 0
  {
  }

  lemma NoneStaleHere(items: map<ItemId, Entry>, H: Holds, s: Scope)
    requires Stale(items, H) == {}
    ensures StaleIds(items, H, s) == {}
  {
    assert forall i :: i in StaleIds(items, H, s) ==> Copy(s, i) in Stale(items, H);
  }
}
