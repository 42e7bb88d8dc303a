/** What queries and snapshots reply, in terms of the index alone: which items, in what order, how many of
    them a limit keeps, and the exact counters. */
module Replies {
  import opened Rdf
  import opened Items
  import opened Entries
  import opened Order
  import opened Machine
  import opened Agreement
  import opened Answers
  import opened Accesses

  // ---- the consulted scopes -------------------------------------------------------------------

  /** The scopes a selection stands for: one, all from the most durable down, or those listed, each once, in
      order of first mention. */
  ghost predicate Selects(sel: Selection, scopes: seq<Scope>) {
    match sel
    case Single(s) => scopes == [s]
    case All => scopes == [Enduring, Major, Minor]
    case Listed(listed) =>
      && DistinctScopes(scopes)
      && (forall s :: s in scopes <==> s in listed)
      && forall i, j :: 0 <= i < j < |scopes| ==> Position(listed, scopes[i]) < Position(listed, scopes[j])
  }

  lemma OneScope(s: Scope)
    ensures UniqueScopes([s]) == [s]
  {
    assert [s][..0] == [];
    assert UniqueScopes([]) == [];
  }

  lemma ThreeScopes()
    ensures UniqueScopes(ALL_SCOPES) == [Enduring, Major, Minor]
  {
    hide Position;
    OneScope(Enduring);
    assert [Enduring, Major][..1] == [Enduring];
    assert UniqueScopes([Enduring, Major]) == [Enduring, Major];
    assert ALL_SCOPES[..2] == [Enduring, Major];
  }

  lemma ConsultedSelects(sel: Selection)
    ensures Selects(sel, Consulted(sel)) && DistinctScopes(Consulted(sel))
  {
    hide UniqueScopes, DistinctScopes, Position;
    ConsultedDistinct(sel);
    match sel
    case Single(s) => OneScope(s);
    case All => ThreeScopes();
    case Listed(listed) => UniqueScopesIs(listed);
  }

  // ---- the items ------------------------------------------------------------------------------

  predicate ItemFits(item: Item, p: TriplePattern) {
    exists t :: t in TriplesOf(item) && Fitting(t, p)
  }

  /** The live items of the scopes with a fitting triple. */
  ghost function AllFitting(items: map<ItemId, Entry>, scopes: seq<Scope>, p: TriplePattern): set<ItemId> {
    set i | i in items && items[i].scope in scopes && ItemFits(items[i].item, p)
  }

  /** Those items paired with each of their fitting triples. */
  ghost function AllPairs(items: map<ItemId, Entry>, scopes: seq<Scope>, p: TriplePattern): set<Pair> {
    set i, t | i in items && items[i].scope in scopes && t in TriplesOf(items[i].item) && Fitting(t, p) :: Pair(i, t)
  }

  /** Item `i` of scope `s` is listed before item `j` of scope `u`. */
  ghost predicate ListedBefore(scopes: seq<Scope>, s: Scope, i: ItemId, u: Scope, j: ItemId)
    requires s in scopes && u in scopes
  {
    Position(scopes, s) < Position(scopes, u) || (s == u && i < j)
  }

  /** Exactly the fitting items, each once with its content and scope, in selection order and then oldest
      first; a limit keeps the first of them. */
  ghost predicate RightItems(items: map<ItemId, Entry>, scopes: seq<Scope>, p: TriplePattern, limit: Option<nat>,
                             out: seq<Ranked>) {
    var all := AllFitting(items, scopes, p);
    && (forall k :: 0 <= k < |out| ==>
          && out[k].id in all
          && out[k].item == items[out[k].id].item && out[k].scope == items[out[k].id].scope)
    && (forall j, k :: 0 <= j < k < |out| ==>
          ListedBefore(scopes, out[j].scope, out[j].id, out[k].scope, out[k].id))
    && |out| == (if limit.Some? && limit.value < |all| then limit.value else |all|)
    && forall k, i :: 0 <= k < |out| && i in all && (forall m :: 0 <= m < |out| ==> out[m].id != i) ==>
         ListedBefore(scopes, out[k].scope, out[k].id, items[i].scope, i)
  }

  lemma HitsFitting(items: map<ItemId, Entry>, scopes: seq<Scope>, p: TriplePattern, h: Hit)
    ensures h in IndexHits(items, scopes, p)
            <==> h.id in AllFitting(items, scopes, p) && items[h.id].scope == h.scope
  {
    hide IndexHits;
    HitsAre(items, scopes, p);
  }

  lemma HitsCount(items: map<ItemId, Entry>, sel: Selection, p: TriplePattern)
    ensures |IndexHits(items, Consulted(sel), p)| == |AllFitting(items, Consulted(sel), p)|
  {
    hide IndexHits, Consulted, AllFitting;
    var scopes := Consulted(sel);
    var hits, all := IndexHits(items, scopes, p), AllFitting(items, scopes, p);
    HitsDistinct(items, sel, p, None);
    var ids := seq(|hits|, k requires 0 <= k < |hits| => hits[k].id);
    DistinctSize(ids);
    forall i
      ensures i in Elems(ids) <==> i in all
    {
      FittingIsHit(items, scopes, p, i);
      if i in ids {
        var k :| 0 <= k < |ids| && ids[k] == i;
        assert hits[k] in hits;
      }
      if i in all {
        var k :| 0 <= k < |hits| && hits[k].id == i;
        assert ids[k] == i;
      }
    }
    assert Elems(ids) == all;
  }

  lemma FittingIsHit(items: map<ItemId, Entry>, scopes: seq<Scope>, p: TriplePattern, i: ItemId)
    ensures i in AllFitting(items, scopes, p)
            <==> exists k :: 0 <= k < |IndexHits(items, scopes, p)| && IndexHits(items, scopes, p)[k].id == i
  {
    hide IndexHits;
    var hits := IndexHits(items, scopes, p);
    forall k | 0 <= k < |hits|
      ensures hits[k].id in AllFitting(items, scopes, p)
    {
      assert hits[k] in hits;
      HitsFitting(items, scopes, p, hits[k]);
    }
    if i in AllFitting(items, scopes, p) {
      HitsFitting(items, scopes, p, Hit(i, items[i].scope));
    }
  }

  /** What a prefix of an ordered list leaves out comes after all of it. */
  lemma PrefixFirst(scopes: seq<Scope>, hits: seq<Hit>, n: nat, k: nat, i: ItemId) returns (m: nat)
    requires InSelectionOrder(scopes, hits) && k < n <= |hits|
    requires (exists m :: 0 <= m < |hits| && hits[m].id == i) && forall m :: 0 <= m < n ==> hits[m].id != i
    ensures n <= m < |hits| && hits[m].id == i
    ensures ListedBefore(scopes, hits[k].scope, hits[k].id, hits[m].scope, i)
  {
    hide Position;
    m :| 0 <= m < |hits| && hits[m].id == i;
    assert Precedes(scopes, hits[k], hits[m]);
  }

  /** A prefix of an ordered list of exactly the fitting items. */
  lemma PrefixRight(items: map<ItemId, Entry>, scopes: seq<Scope>, p: TriplePattern, limit: Option<nat>,
                    hits: seq<Hit>, out: seq<Ranked>)
    requires InSelectionOrder(scopes, hits) && |out| <= |hits| == |AllFitting(items, scopes, p)|
    requires |out| == if limit.Some? && limit.value < |hits| then limit.value else |hits|
    requires forall k :: 0 <= k < |hits| ==>
               hits[k].id in AllFitting(items, scopes, p) && items[hits[k].id].scope == hits[k].scope
    requires forall i :: i in AllFitting(items, scopes, p) ==> exists k :: 0 <= k < |hits| && hits[k].id == i
    requires forall k :: 0 <= k < |out| ==> out[k] == Ranked(hits[k].id, items[hits[k].id].item, hits[k].scope)
    ensures RightItems(items, scopes, p, limit, out)
  {
    hide ItemFits, Position, ListedBefore;
    var all := AllFitting(items, scopes, p);
    forall j, k | 0 <= j < k < |out|
      ensures ListedBefore(scopes, out[j].scope, out[j].id, out[k].scope, out[k].id)
    {
      Ordered(scopes, hits, j, k);
    }
    forall k, i | 0 <= k < |out| && i in all && (forall m :: 0 <= m < |out| ==> out[m].id != i)
      ensures ListedBefore(scopes, out[k].scope, out[k].id, items[i].scope, i)
    {
      assert forall m :: 0 <= m < |out| ==> out[m].id == hits[m].id;
      var m := PrefixFirst(scopes, hits, |out|, k, i);
    }
  }

  lemma Ordered(scopes: seq<Scope>, hits: seq<Hit>, j: nat, k: nat)
    requires InSelectionOrder(scopes, hits) && j < k < |hits|
    ensures ListedBefore(scopes, hits[j].scope, hits[j].id, hits[k].scope, hits[k].id)
  {
    hide Position;
    assert Precedes(scopes, hits[j], hits[k]);
  }

  lemma ResultsRight(items: map<ItemId, Entry>, sel: Selection, p: TriplePattern, limit: Option<nat>)
    ensures var scopes := Consulted(sel);
            var hits := Cut(IndexHits(items, scopes, p), limit);
            Indexed(items, hits) && RightItems(items, scopes, p, limit, Results(items, hits))
  {
    hide IndexHits, Consulted, ItemFits, Position, InSelectionOrder, RightItems;
    var scopes := Consulted(sel);
    var hits := IndexHits(items, scopes, p);
    HitsIndexed(items, scopes, p, limit);
    HitsCount(items, sel, p);
    ConsultedDistinct(sel);
    HitsInOrder(items, scopes, p);
    forall k | 0 <= k < |hits|
      ensures hits[k].id in AllFitting(items, scopes, p) && items[hits[k].id].scope == hits[k].scope
    {
      assert hits[k] in hits;
      HitsFitting(items, scopes, p, hits[k]);
    }
    forall i | i in AllFitting(items, scopes, p)
      ensures exists k :: 0 <= k < |hits| && hits[k].id == i
    {
      FittingIsHit(items, scopes, p, i);
    }
    PrefixRight(items, scopes, p, limit, hits, Results(items, Cut(hits, limit)));
  }

  // ---- the counters ---------------------------------------------------------------------------

  lemma {:induction false} PairsTotal(items: map<ItemId, Entry>, scopes: seq<Scope>, p: TriplePattern)
    requires DistinctScopes(scopes)
    ensures IndexMatches(items, scopes, p) == |AllPairs(items, scopes, p)|
  {
    hide Fitting;
    if scopes == [] {
      assert AllPairs(items, scopes, p) == {};
    } else {
      var rest := scopes[1..];
      PairsTotal(items, rest, p);
      assert scopes == [scopes[0]] + rest && scopes[0] !in rest;
      assert AllPairs(items, scopes, p) == MatchingPairs(items, scopes[0], p) + AllPairs(items, rest, p);
      assert MatchingPairs(items, scopes[0], p) !! AllPairs(items, rest, p);
    }
  }

  /** A query's whole answer, whatever stale copies lie in the stores: the right items for its selection,
      pattern and limit, the number of scopes, and the number of fitting pairs of item and triple. */
  lemma QueryReplies(cfg: Settings, y: Sys, L: Ledger, H: Holds, sel: Selection, p: TriplePattern,
                     limit: Option<nat>)
    returns (scopes: seq<Scope>)
    requires Sound(y, L, H) && Apply(cfg, y, Query(sel, p, limit)).result.Ok?
    ensures var v := Apply(cfg, y, Query(sel, p, limit)).result.value;
            && Selects(sel, scopes) && v.Found?
            && RightItems(y.items, scopes, p, limit, v.answer.items)
            && v.answer.scopesConsulted == |scopes|
            && v.answer.quadsMatched == |AllPairs(y.items, scopes, p)|
  {
    hide DoQuery, IndexHits, IndexMatches, Consulted, RightItems, AllPairs, Sound, Results;
    scopes := Consulted(sel);
    ConsultedSelects(sel);
    QueryAnswersIndex(cfg, y, L, H, sel, p, limit);
    ResultsRight(y.items, sel, p, limit);
    PairsTotal(y.items, scopes, p);
  }

  // ---- snapshots ------------------------------------------------------------------------------

  /** Exactly the items of the scope, with their content, oldest first. */
  ghost predicate RightCopy(items: map<ItemId, Entry>, s: Scope, out: seq<StoredItem>) {
    && (forall k :: 0 <= k < |out| ==>
          out[k].id in items && items[out[k].id].scope == s && out[k].item == items[out[k].id].item)
    && (forall j, k :: 0 <= j < k < |out| ==> out[j].id < out[k].id)
    && (forall i :: i in items && items[i].scope == s ==> exists k :: 0 <= k < |out| && out[k].id == i)
  }

  lemma CopiesRight(items: map<ItemId, Entry>, s: Scope, ids: seq<ItemId>)
    requires Ascending(ids) && forall i :: i in ids <==> i in items && items[i].scope == s
    ensures RightCopy(items, s, Copies(items, ids))
  {
    var out := Copies(items, ids);
    forall k | 0 <= k < |out|
      ensures out[k].id in items && items[out[k].id].scope == s && out[k].item == items[out[k].id].item
    {
      assert ids[k] in ids;
    }
    forall i | i in items && items[i].scope == s
      ensures exists k :: 0 <= k < |out| && out[k].id == i
    {
      var k :| 0 <= k < |ids| && ids[k] == i;
      assert out[k].id == i;
    }
  }

  /** A snapshot is a right copy of its scope and counts its store. */
  lemma SnapshotReplies(y: Sys, s: Scope)
    ensures var x := SnapshotOf(y, s);
            x.scope == s && RightCopy(y.items, s, x.items) && x.quadCount == |y.stores.Get(s)|
  {
    hide Elems, RightCopy, Copies, Ascending;
    SortedMembers(InScope(y.items, s));
    CopiesRight(y.items, s, SortedIds(InScope(y.items, s)));
  }
}
