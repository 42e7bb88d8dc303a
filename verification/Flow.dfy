/** What moves and evictions do to the index: nothing is lost or counted twice, nothing but a listed
    promotion ever rises, and access histories survive. */
module Flow {
  import opened Items
  import opened Entries
  import opened Order
  import opened Machine

  /** An item that arrived by promotion is not in the coldest tier, one that arrived by demotion is not
      in the warmest. */
  ghost predicate Arrivals(items: map<ItemId, Entry>) {
    forall i :: i in items ==>
      && (items[i].arrival.Promoted? ==> items[i].scope != Minor)
      && (items[i].arrival.Demoted? ==> items[i].scope != Enduring)
  }

  /** The same item with the same access history; a demotion forgets the promotion window. */
  predicate SameHistory(e: Entry, e': Entry) {
    && e'.(scope := e.scope, arrival := e.arrival, recent := e.recent, visits := e.visits) == e
    && ((e'.recent == e.recent && e'.visits == e.visits) || (e'.recent == [] && e'.visits == []))
  }

  /** What a stretch of moves and drops does to the rest of the state. */
  ghost predicate Flows(y: Sys, y': Sys) {
    && y'.nextId == y.nextId
    && y'.stats.added == y.stats.added && y'.stats.queries == y.stats.queries
    && y.env.clock <= y'.env.clock
    && y'.items.Keys <= y.items.Keys
    && (forall i :: i in y'.items ==> SameHistory(y.items[i], y'.items[i]))
    && |y'.items| + y'.stats.evicted == |y.items| + y.stats.evicted
    && (Arrivals(y.items) ==> Arrivals(y'.items))
  }

  lemma FlowsTrans(a: Sys, b: Sys, c: Sys)
    requires Flows(a, b) && Flows(b, c)
    ensures Flows(a, c)
  {
    forall i | i in c.items
      ensures SameHistory(a.items[i], c.items[i])
    {
      assert SameHistory(b.items[i], c.items[i]);
      assert SameHistory(a.items[i], b.items[i]);
    }
  }

  function PromotedLive(items: map<ItemId, Entry>): set<ItemId> {
    set i | i in items && items[i].arrival.Promoted?
  }

  /** Demotions made plus demotions still owed to promoted items. */
  function Burden(y: Sys): nat {
    y.stats.demoted + |PromotedLive(y.items)|
  }

  /** Eviction from `s` downwards: no item rises, tiers above `s` are untouched, and under one-step
      demotion the burden does not grow. */
  ghost predicate Cools(cfg: Settings, y: Sys, y': Sys, s: Scope) {
    && Flows(y, y')
    && y'.stats.promoted == y.stats.promoted
    && (forall i :: i in y'.items ==> y'.items[i].scope.Rank() <= y.items[i].scope.Rank())
    && (forall i :: i in y.items && y.items[i].scope.Rank() > s.Rank() ==> i in y'.items && y'.items[i] == y.items[i])
    && (cfg.target.OneStepThenDrop? ==> Burden(y') <= Burden(y))
  }

  lemma CoolsTrans(cfg: Settings, a: Sys, b: Sys, c: Sys, s: Scope, u: Scope)
    requires Cools(cfg, a, b, s) && Cools(cfg, b, c, u) && u.Rank() <= s.Rank()
    ensures Cools(cfg, a, c, s)
  {
    FlowsTrans(a, b, c);
  }

  lemma CoolsRefl(cfg: Settings, y: Sys, s: Scope)
    ensures Cools(cfg, y, y, s)
  {
  }

  // ---- one victim -----------------------------------------------------------------------------

  lemma RelocateHistory(e: Entry, to: Scope, arrival: Arrival)
    ensures SameHistory(e, Relocate(e, to, arrival))
  {
  }

  /** The demotion of an item of `s` to a colder tier, booked. */
  lemma DemoteOneCools(cfg: Settings, y: Sys, y': Sys, s: Scope, id: ItemId, to: Scope)
    requires id in y.items && y.items[id].scope == s && to.Rank() < s.Rank()
    requires cfg.target.OneStepThenDrop? ==> y.items[id].arrival.Promoted?
    requires y'.items == y.items[id := Relocate(y.items[id], to, Demoted)]
    requires y'.nextId == y.nextId && y'.env.clock == y.env.clock
    requires y'.stats == y.stats.(demoted := y.stats.demoted + 1)
    ensures Cools(cfg, y, y', s)
  {
    hide Flows, PromotedLive, SameHistory, Arrivals;
    OneRelocatedFlows(y, y', id, to);
    DemotionOwesLess(y.items, id, to);
    assert y'.items[id].scope == to;
    assert forall i :: i in y.items && i != id ==> y'.items[i] == y.items[i];
  }

  /** A demoted promotion is no longer owed. */
  lemma DemotionOwesLess(items: map<ItemId, Entry>, id: ItemId, to: Scope)
    requires id in items
    ensures var items' := items[id := Relocate(items[id], to, Demoted)];
            |PromotedLive(items')| + (if items[id].arrival.Promoted? then 1 else 0) == |PromotedLive(items)|
  {
    var items' := items[id := Relocate(items[id], to, Demoted)];
    assert PromotedLive(items') == PromotedLive(items) - {id};
  }

  lemma OneRelocatedFlows(y: Sys, y': Sys, id: ItemId, to: Scope)
    requires id in y.items && to != Enduring
    requires y'.items == y.items[id := Relocate(y.items[id], to, Demoted)]
    requires y'.nextId == y.nextId && y'.env.clock == y.env.clock
    requires y'.stats == y.stats.(demoted := y.stats.demoted + 1)
    ensures Flows(y, y')
  {
    RelocateHistory(y.items[id], to, Demoted);
    assert y'.items.Keys == y.items.Keys;
  }

  lemma DropOneCools(cfg: Settings, y: Sys, y': Sys, s: Scope, id: ItemId)
    requires id in y.items && y.items[id].scope == s
    requires y'.items == y.items - {id}
    requires y'.nextId == y.nextId && y'.env.clock == y.env.clock
    requires y'.stats == y.stats.(evicted := y.stats.evicted + 1)
    ensures Cools(cfg, y, y', s)
  {
    assert y'.items.Keys == y.items.Keys - {id};
    assert PromotedLive(y'.items) == PromotedLive(y.items) - {id};
  }

  lemma StillCools(cfg: Settings, y: Sys, y': Sys, s: Scope)
    requires y'.items == y.items && y'.nextId == y.nextId && y'.stats == y.stats && y.env.clock <= y'.env.clock
    ensures Cools(cfg, y, y', s)
  {
  }

  /** The index and the books after one victim. */
  lemma EvictOneOutcomes(cfg: Settings, y: Sys, s: Scope, id: ItemId)
    requires id in y.items && y.items[id].scope == s
    ensures var d, target := EvictOne(cfg, y, s, id), TargetOf(cfg.target, s, y.items[id].arrival);
            && d.sys.nextId == y.nextId && d.sys.env.clock == y.env.clock
            && (!d.ok ==> d.sys.items == y.items && d.sys.stats == y.stats)
            && (d.ok && target.Some? ==>
                  && d.sys.items == y.items[id := Relocate(y.items[id], target.value, Demoted)]
                  && d.sys.stats == y.stats.(demoted := y.stats.demoted + 1))
            && (d.ok && target.None? ==>
                  && d.sys.items == y.items - {id}
                  && d.sys.stats == y.stats.(evicted := y.stats.evicted + 1))
  {
  }

  lemma EvictOneCools(cfg: Settings, y: Sys, s: Scope, id: ItemId)
    requires id in y.items && y.items[id].scope == s
    ensures Cools(cfg, y, EvictOne(cfg, y, s, id).sys, s)
  {
    EvictOneOutcomes(cfg, y, s, id);
    var d, target := EvictOne(cfg, y, s, id), TargetOf(cfg.target, s, y.items[id].arrival);
    if !d.ok {
      StillCools(cfg, y, d.sys, s);
    } else if target.Some? {
      DemoteOneCools(cfg, y, d.sys, s, id, target.value);
    } else {
      DropOneCools(cfg, y, d.sys, s, id);
    }
  }

  /** A successful eviction takes exactly this item out of the tier and books it once. */
  lemma EvictOneLeaves(cfg: Settings, y: Sys, s: Scope, id: ItemId)
    requires id in y.items && y.items[id].scope == s
    ensures var d := EvictOne(cfg, y, s, id);
            d.ok ==>
              && InScope(d.sys.items, s) == InScope(y.items, s) - {id}
              && d.sys.stats.demoted + d.sys.stats.evicted == y.stats.demoted + y.stats.evicted + 1
              && forall j :: j in y.items && j != id ==> j in d.sys.items && d.sys.items[j] == y.items[j]
  {
    EvictOneOutcomes(cfg, y, s, id);
  }

  // ---- victims, tiers, cascades ---------------------------------------------------------------

  lemma {:induction false} EvictVictimsCool(cfg: Settings, y: Sys, s: Scope, ids: seq<ItemId>)
    requires Distinct(ids) && AllIn(y.items, ids, s)
    ensures Cools(cfg, y, EvictVictims(cfg, y, s, ids).sys, s)
    decreases |ids|
  {
    if ids == [] {
      CoolsRefl(cfg, y, s);
    } else {
      var d, rest := EvictOne(cfg, y, s, ids[0]), ids[1..];
      EvictOneCools(cfg, y, s, ids[0]);
      if d.ok {
        EvictOneLeaves(cfg, y, s, ids[0]);
        EvictVictimsCool(cfg, d.sys, s, rest);
        CoolsTrans(cfg, y, d.sys, EvictVictims(cfg, d.sys, s, rest).sys, s, s);
      }
    }
  }

  /** Each victim leaves the tier and is booked exactly once, as demoted or as evicted. */
  lemma {:induction false} EvictVictimsLeave(cfg: Settings, y: Sys, s: Scope, ids: seq<ItemId>)
    requires Distinct(ids) && AllIn(y.items, ids, s)
    ensures var d := EvictVictims(cfg, y, s, ids);
            d.ok ==> && InScope(d.sys.items, s) == InScope(y.items, s) - Elems(ids)
                     && d.sys.stats.demoted + d.sys.stats.evicted == y.stats.demoted + y.stats.evicted + |ids|
    decreases |ids|
  {
    if ids != [] {
      var d, rest := EvictOne(cfg, y, s, ids[0]), ids[1..];
      if d.ok {
        EvictOneLeaves(cfg, y, s, ids[0]);
        EvictVictimsLeave(cfg, d.sys, s, rest);
        HeadTail(ids);
      }
    }
  }

  lemma HeadTail(ids: seq<ItemId>)
    requires ids != []
    ensures Elems(ids) == {ids[0]} + Elems(ids[1..])
  {
    assert ids == [ids[0]] + ids[1..];
  }

  lemma VictimsIn(cfg: Settings, items: map<ItemId, Entry>, s: Scope, count: nat, now: nat)
    ensures AllIn(items, Victims(cfg, items, s, count, now), s)
  {
    var v := Victims(cfg, items, s, count, now);
    assert forall i :: i in v ==> i in Elems(v);
  }

  lemma EvictByPolicyCools(cfg: Settings, y: Sys, s: Scope, count: nat)
    ensures Cools(cfg, y, EvictByPolicy(cfg, y, s, count).sys, s)
  {
    var y1 := ReadClock(y);
    var v := Victims(cfg, y1.items, s, count, y1.env.clock);
    VictimsIn(cfg, y1.items, s, count, y1.env.clock);
    StillCools(cfg, y, y1, s);
    EvictVictimsCool(cfg, y1, s, v);
    CoolsTrans(cfg, y, y1, EvictVictims(cfg, y1, s, v).sys, s, s);
  }

  /** Policy eviction shrinks the tier by exactly the number of victims. */
  lemma EvictByPolicyLeaves(cfg: Settings, y: Sys, s: Scope, count: nat)
    ensures var d, n := EvictByPolicy(cfg, y, s, count), AtMost(count, |InScope(y.items, s)|);
            d.ok ==> && |InScope(d.sys.items, s)| == |InScope(y.items, s)| - n
                     && d.sys.stats.demoted + d.sys.stats.evicted == y.stats.demoted + y.stats.evicted + n
  {
    var y1 := ReadClock(y);
    var v := Victims(cfg, y1.items, s, count, y1.env.clock);
    VictimsIn(cfg, y1.items, s, count, y1.env.clock);
    EvictVictimsLeave(cfg, y1, s, v);
    DistinctSize(v);
    LessSize(InScope(y.items, s), Elems(v));
  }

  lemma LessSize(a: set<ItemId>, b: set<ItemId>)
    requires b <= a
    ensures |a - b| == |a| - |b|
  {
    assert a == (a - b) + b;
  }

  predicate WithinBound(cfg: Settings, items: map<ItemId, Entry>, s: Scope) {
    cfg.bounds.Get(s).Some? ==> |InScope(items, s)| <= cfg.bounds.Get(s).value
  }

  /** A tier is trimmed by policy eviction, or left alone when it fits. */
  lemma TrimCases(cfg: Settings, y: Sys, s: Scope)
    ensures TrimTier(cfg, y, s)
            == if WithinBound(cfg, y.items, s) then Done(y, true)
               else EvictByPolicy(cfg, y, s, |InScope(y.items, s)| - cfg.bounds.Get(s).value)
  {
    hide EvictByPolicy, InScope;
  }

  lemma TrimCools(cfg: Settings, y: Sys, s: Scope)
    ensures Cools(cfg, y, TrimTier(cfg, y, s).sys, s)
  {
    hide EvictByPolicy, Cools;
    TrimCases(cfg, y, s);
    var d := TrimTier(cfg, y, s);
    if WithinBound(cfg, y.items, s) {
      StillCools(cfg, y, d.sys, s);
    } else {
      EvictByPolicyCools(cfg, y, s, |InScope(y.items, s)| - cfg.bounds.Get(s).value);
    }
  }

  lemma TrimFits(cfg: Settings, y: Sys, s: Scope)
    ensures TrimTier(cfg, y, s).ok ==> WithinBound(cfg, TrimTier(cfg, y, s).sys.items, s)
  {
    hide EvictByPolicy, InScope;
    TrimCases(cfg, y, s);
    if !WithinBound(cfg, y.items, s) {
      EvictByPolicyLeaves(cfg, y, s, |InScope(y.items, s)| - cfg.bounds.Get(s).value);
    }
  }

  /** A tier above the one being cooled keeps its members. */
  lemma AboveKept(cfg: Settings, y: Sys, y': Sys, s: Scope, u: Scope)
    requires Cools(cfg, y, y', s) && u.Rank() > s.Rank()
    ensures InScope(y'.items, u) == InScope(y.items, u)
  {
    forall i
      ensures i in InScope(y'.items, u) <==> i in InScope(y.items, u)
    {
      if i in InScope(y'.items, u) {
        assert y.items[i].scope.Rank() >= u.Rank();
      }
    }
  }

  /** The cascade never raises an item and never touches a warmer tier. */
  lemma EnforceCools(cfg: Settings, y: Sys, s: Scope)
    ensures Cools(cfg, y, EnforceBounds(cfg, y, s).sys, s)
    decreases s.Rank()
  {
    TrimCools(cfg, y, s);
    var d := TrimTier(cfg, y, s);
    if d.ok && s.Colder().Some? {
      var c := s.Colder().value;
      EnforceCools(cfg, d.sys, c);
      CoolsTrans(cfg, y, d.sys, EnforceBounds(cfg, d.sys, c).sys, s, c);
    }
  }

  /** After the cascade this tier and every colder one are within bounds. */
  lemma EnforceFits(cfg: Settings, y: Sys, s: Scope, u: Scope)
    requires u.Rank() <= s.Rank()
    ensures EnforceBounds(cfg, y, s).ok ==> WithinBound(cfg, EnforceBounds(cfg, y, s).sys.items, u)
    decreases s.Rank()
  {
    TrimFits(cfg, y, s);
    var d := TrimTier(cfg, y, s);
    if d.ok && s.Colder().Some? {
      var c := s.Colder().value;
      if u == s {
        EnforceKeepsAbove(cfg, d.sys, c, s);
      } else {
        EnforceFits(cfg, d.sys, c, u);
      }
    }
  }

  /** Tiers above the cascade keep exactly their items, so `evict` reports its tier's whole loss. */
  lemma EnforceKeepsAbove(cfg: Settings, y: Sys, s: Scope, u: Scope)
    requires u.Rank() > s.Rank()
    ensures InScope(EnforceBounds(cfg, y, s).sys.items, u) == InScope(y.items, u)
  {
    EnforceCools(cfg, y, s);
    AboveKept(cfg, y, EnforceBounds(cfg, y, s).sys, s, u);
  }

  // ---- list moves -----------------------------------------------------------------------------

  /** The index with the given items relocated. */
  function Relocated(items: map<ItemId, Entry>, ids: set<ItemId>, to: Scope, arrival: Arrival): map<ItemId, Entry> {
    map i | i in items :: if i in ids then Relocate(items[i], to, arrival) else items[i]
  }

  lemma MoveOneMoves(y: Sys, id: ItemId, to: Scope, arrival: Arrival)
    requires id in y.items
    ensures var d := MoveItem(y, id, to, arrival);
            && d.sys.items == (if d.ok then y.items[id := Relocate(y.items[id], to, arrival)] else y.items)
            && d.sys.stats == y.stats && d.sys.nextId == y.nextId && d.sys.env.clock == y.env.clock
  {
  }

  lemma {:induction false} MoveAllBooks(y: Sys, ids: seq<ItemId>, to: Scope, arrival: Arrival)
    requires forall i :: i in ids ==> i in y.items
    ensures var y' := MoveAll(y, ids, to, arrival).sys;
            y'.stats == y.stats && y'.nextId == y.nextId && y'.env.clock == y.env.clock
    decreases |ids|
  {
    if ids != [] {
      var d := MoveItem(y, ids[0], to, arrival);
      MoveOneMoves(y, ids[0], to, arrival);
      if d.ok { MoveAllBooks(d.sys, ids[1..], to, arrival); }
    }
  }

  /** A list move relocates a prefix of its list, all of it when nothing fails. */
  lemma {:induction false} MoveAllMoves(y: Sys, ids: seq<ItemId>, to: Scope, arrival: Arrival) returns (k: nat)
    requires Distinct(ids) && forall i :: i in ids ==> i in y.items
    ensures k <= |ids| && (MoveAll(y, ids, to, arrival).ok ==> k == |ids|)
    ensures MoveAll(y, ids, to, arrival).sys.items == Relocated(y.items, Elems(ids[..k]), to, arrival)
    decreases |ids|
  {
    hide MoveItem, Relocate, Relocated;
    k := 0;
    if ids == [] {
      RelocateNone(y.items, to, arrival);
    } else {
      var d, rest := MoveItem(y, ids[0], to, arrival), ids[1..];
      MoveOneMoves(y, ids[0], to, arrival);
      if d.ok {
        var m := MoveAllMoves(d.sys, rest, to, arrival);
        k := m + 1;
        assert ids[..k][1..] == rest[..m];
        HeadTail(ids[..k]);
        RelocateMore(y.items, ids[0], Elems(rest[..m]), to, arrival);
      } else {
        RelocateNone(y.items, to, arrival);
      }
    }
  }

  lemma RelocateNone(items: map<ItemId, Entry>, to: Scope, arrival: Arrival)
    ensures Relocated(items, {}, to, arrival) == items && Elems([]) == {}
  {
  }

  lemma RelocateMore(items: map<ItemId, Entry>, i: ItemId, ids: set<ItemId>, to: Scope, arrival: Arrival)
    requires i in items && i !in ids
    ensures Relocated(items[i := Relocate(items[i], to, arrival)], ids, to, arrival)
            == Relocated(items, {i} + ids, to, arrival)
  {
  }

  lemma RelocatedFlows(y: Sys, y': Sys, ids: set<ItemId>, to: Scope, arrival: Arrival)
    requires y'.items == Relocated(y.items, ids, to, arrival)
    requires y'.stats.(promoted := y.stats.promoted, demoted := y.stats.demoted) == y.stats
    requires y'.nextId == y.nextId && y.env.clock <= y'.env.clock
    requires (arrival.Promoted? ==> to != Minor) && (arrival.Demoted? ==> to != Enduring)
    ensures Flows(y, y')
  {
    assert y'.items.Keys == y.items.Keys;
  }

  /** A list move keeps every history and every item. */
  lemma MoveAllFlows(y: Sys, ids: seq<ItemId>, to: Scope, arrival: Arrival)
    requires Distinct(ids) && forall i :: i in ids ==> i in y.items
    requires (arrival.Promoted? ==> to != Minor) && (arrival.Demoted? ==> to != Enduring)
    ensures Flows(y, MoveAll(y, ids, to, arrival).sys)
  {
    var k := MoveAllMoves(y, ids, to, arrival);
    MoveAllBooks(y, ids, to, arrival);
    RelocatedFlows(y, MoveAll(y, ids, to, arrival).sys, Elems(ids[..k]), to, arrival);
  }

  // ---- dropping a list ------------------------------------------------------------------------

  lemma DropOneDrops(y: Sys, id: ItemId)
    requires id in y.items
    ensures var d := DropItem(y, id);
            && d.sys.items == (if d.ok then y.items - {id} else y.items)
            && d.sys.stats == (if d.ok then y.stats.(evicted := y.stats.evicted + 1) else y.stats)
            && d.sys.nextId == y.nextId && d.sys.env.clock == y.env.clock
  {
  }

  lemma {:induction false} DropAllCools(cfg: Settings, y: Sys, s: Scope, ids: seq<ItemId>)
    requires Distinct(ids) && AllIn(y.items, ids, s)
    ensures Cools(cfg, y, DropAll(y, ids).sys, s)
    decreases |ids|
  {
    if ids == [] {
      CoolsRefl(cfg, y, s);
    } else {
      var d, rest := DropItem(y, ids[0]), ids[1..];
      DropOneDrops(y, ids[0]);
      if d.ok {
        DropOneCools(cfg, y, d.sys, s, ids[0]);
        DropAllCools(cfg, d.sys, s, rest);
        CoolsTrans(cfg, y, d.sys, DropAll(d.sys, rest).sys, s, s);
      } else {
        StillCools(cfg, y, d.sys, s);
      }
    }
  }

  /** Dropping a list takes exactly those items out of the index. */
  lemma {:induction false} DropAllDrops(y: Sys, ids: seq<ItemId>)
    requires Distinct(ids) && forall i :: i in ids ==> i in y.items
    ensures var d := DropAll(y, ids); d.ok ==> d.sys.items == y.items - Elems(ids)
    decreases |ids|
  {
    if ids != [] {
      var d := DropItem(y, ids[0]);
      DropOneDrops(y, ids[0]);
      if d.ok {
        DropAllDrops(d.sys, ids[1..]);
        HeadTail(ids);
      }
    }
  }
}
