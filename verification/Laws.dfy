/** Laws that every operation obeys: faithful access summaries, conservation of items, bounds, and the
    cap that one-step demotion puts on thrashing. */
module Laws {
  import opened Rdf
  import opened Items
  import opened Entries
  import Order
  import Layout
  import opened Machine
  import Steps
  import opened Flow

  /** Arrivals make sense and every summary stands for its full history. */
  ghost predicate Healthy(cfg: Settings, y: Sys) {
    Arrivals(y.items) && forall i :: i in y.items ==> Faithful(cfg, y.items[i], y.env.clock)
  }

  lemma SameHistoryFaithful(cfg: Settings, e: Entry, e': Entry, clock: nat, later: nat)
    requires Faithful(cfg, e, clock) && SameHistory(e, e') && clock <= later
    ensures Faithful(cfg, e', later)
  {
    FaithfulLater(cfg, e, clock, later);
    assert e'.touches == e.touches && e'.accesses == e.accesses && e'.lastTouch == e.lastTouch;
    assert e'.weight == e.weight && e'.weightAt == e.weightAt;
  }

  lemma FlowsHealthy(cfg: Settings, y: Sys, y': Sys)
    requires Healthy(cfg, y) && Flows(y, y')
    ensures Healthy(cfg, y')
  {
    hide Faithful, SameHistory, Arrivals;
    forall i | i in y'.items
      ensures Faithful(cfg, y'.items[i], y'.env.clock)
    {
      SameHistoryFaithful(cfg, y.items[i], y'.items[i], y.env.clock, y'.env.clock);
    }
  }

  // ---- how each operation flows ---------------------------------------------------------------

  lemma EnforceFlows(cfg: Settings, a: Sys, b: Sys, s: Scope)
    requires Flows(a, b)
    ensures Flows(a, EnforceBounds(cfg, b, s).sys)
  {
    EnforceCools(cfg, b, s);
    FlowsTrans(a, b, EnforceBounds(cfg, b, s).sys);
  }

  lemma MoveAllThenEnforce(cfg: Settings, y: Sys, ids: seq<ItemId>, to: Scope, arrival: Arrival, y1: Sys)
    requires Order.Distinct(ids) && forall i :: i in ids ==> i in y.items
    requires (arrival.Promoted? ==> to != Minor) && (arrival.Demoted? ==> to != Enduring)
    requires var y0 := MoveAll(y, ids, to, arrival).sys;
             y1 == CountPromoted(y0, |ids|) || y1 == CountDemoted(y0, |ids|)
    ensures Flows(y, MoveAll(y, ids, to, arrival).sys)
    ensures Flows(y, EnforceBounds(cfg, y1, to).sys)
  {
    MoveAllFlows(y, ids, to, arrival);
    assert Flows(y, y1);
    EnforceFlows(cfg, y, y1, to);
  }

  lemma PromoteFlows(cfg: Settings, y: Sys, ids: seq<ItemId>, from: Scope, to: Scope)
    ensures Flows(y, DoPromote(cfg, y, ids, from, to).sys)
  {
    var u := Order.Unique(ids);
    if to.Rank() > from.Rank() && CheckEach(y.items, u, from).None? {
      CheckedInScope(y.items, u, from);
      MoveAllThenEnforce(cfg, y, u, to, Promoted, CountPromoted(MoveAll(y, u, to, Promoted).sys, |u|));
    }
  }

  lemma DemoteFlows(cfg: Settings, y: Sys, s: Scope, ids: seq<ItemId>, to: Scope)
    ensures Flows(y, DoDemote(cfg, y, s, ids, to).sys)
  {
    var u := Order.Unique(ids);
    if to.Rank() < s.Rank() && CheckEach(y.items, u, s).None? {
      CheckedInScope(y.items, u, s);
      MoveAllThenEnforce(cfg, y, u, to, Demoted, CountDemoted(MoveAll(y, u, to, Demoted).sys, |u|));
    }
  }

  lemma EvictPolicyCools(cfg: Settings, y: Sys, s: Scope, count: nat)
    ensures Cools(cfg, y, DoEvictPolicy(cfg, y, s, count).sys, s)
  {
    var d := EvictByPolicy(cfg, y, s, count);
    EvictByPolicyCools(cfg, y, s, count);
    if d.ok && s.Colder().Some? {
      var c := s.Colder().value;
      EnforceCools(cfg, d.sys, c);
      CoolsTrans(cfg, y, d.sys, EnforceBounds(cfg, d.sys, c).sys, s, c);
    }
  }

  lemma EvictItemsCools(cfg: Settings, y: Sys, s: Scope, ids: seq<ItemId>)
    ensures Cools(cfg, y, DoEvictItems(y, s, ids).sys, s)
  {
    var u := Order.Unique(ids);
    if CheckEach(y.items, u, s).None? {
      CheckedInScope(y.items, u, s);
      DropAllCools(cfg, y, s, u);
    } else {
      CoolsRefl(cfg, y, s);
    }
  }

  lemma EvictFlows(cfg: Settings, y: Sys, s: Scope, c: Criteria)
    ensures Flows(y, DoEvict(cfg, y, s, c).sys)
  {
    match c
    case EvictItems(ids) => EvictItemsCools(cfg, y, s, ids);
    case EvictDemote(ids, to) => DemoteFlows(cfg, y, s, ids, to);
    case EvictPolicy(count) => EvictPolicyCools(cfg, y, s, count);
  }

  lemma RaiseFlows(y: Sys, up: seq<ItemId>, mid: seq<ItemId>)
    requires AllIn(y.items, up, Major) && AllIn(y.items, mid, Minor) && Order.Distinct(up) && Order.Distinct(mid)
    ensures Flows(y, Raise(y, up, mid).sys)
  {
    MoveAllFlows(y, up, Enduring, Promoted);
    var d := MoveAll(y, up, Enduring, Promoted);
    if d.ok {
      MoveAllFlows(d.sys, mid, Major, Promoted);
      FlowsTrans(y, d.sys, MoveAll(d.sys, mid, Major, Promoted).sys);
    }
  }

  lemma RaiseAndTrimFlows(cfg: Settings, y: Sys, up: seq<ItemId>, mid: seq<ItemId>)
    requires AllIn(y.items, up, Major) && AllIn(y.items, mid, Minor) && Order.Distinct(up) && Order.Distinct(mid)
    ensures Flows(y, RaiseAndTrim(cfg, y, up, mid).sys)
  {
    RaiseFlows(y, up, mid);
    var d := Raise(y, up, mid);
    if d.ok {
      var y1 := CountPromoted(d.sys, |up| + |mid|);
      assert Flows(y, y1);
      EnforceFlows(cfg, y, y1, Enduring);
      EnforceFlows(cfg, y, y1, Major);
    }
  }

  // ---- health ---------------------------------------------------------------------------------

  lemma RegisterFaithful(cfg: Settings, y: Sys, s: Scope, batch: seq<Item>, i: ItemId)
    requires Healthy(cfg, y) && i in Register(y, s, batch).items
    ensures var y' := Register(y, s, batch); Faithful(cfg, y'.items[i], y'.env.clock)
  {
    var y' := Register(y, s, batch);
    if i in FreshEntries(y.nextId, batch, s, y'.env.clock) {
      FreshFaithful(cfg, Member(y.nextId, batch, i), s, y'.env.clock);
    } else {
      FaithfulLater(cfg, y.items[i], y.env.clock, y'.env.clock);
    }
  }

  lemma RegisterArrivals(y: Sys, s: Scope, batch: seq<Item>)
    requires Arrivals(y.items)
    ensures Arrivals(Register(y, s, batch).items)
  {
  }

  lemma RegisterHealthy(cfg: Settings, y: Sys, s: Scope, batch: seq<Item>)
    requires Healthy(cfg, y)
    ensures Healthy(cfg, Register(y, s, batch))
  {
    var y' := Register(y, s, batch);
    RegisterArrivals(y, s, batch);
    forall i | i in y'.items
      ensures Faithful(cfg, y'.items[i], y'.env.clock)
    {
      RegisterFaithful(cfg, y, s, batch, i);
    }
  }

  lemma {:induction false} TouchAllFaithful(cfg: Settings, items: map<ItemId, Entry>, hits: seq<Hit>, now: nat)
    requires Indexed(items, hits) && forall i :: i in items ==> Faithful(cfg, items[i], now)
    ensures forall i :: i in items ==> Faithful(cfg, TouchAll(cfg, items, hits, now)[i], now)
    decreases |hits|
  {
    if hits != [] {
      var id := hits[0].id;
      TouchFaithful(cfg, items[id], now, now);
      TouchAllFaithful(cfg, items[id := Touch(cfg, items[id], now)], hits[1..], now);
    }
  }

  lemma ServedHealthy(cfg: Settings, y: Sys, hits: seq<Hit>)
    requires Healthy(cfg, y) && Indexed(y.items, hits)
    ensures Healthy(cfg, Served(cfg, y, hits))
  {
    TouchAllFaithful(cfg, y.items, hits, y.env.clock);
    Steps.TouchAllPlaces(cfg, y.items, hits, y.env.clock);
  }

  lemma TickHealthy(cfg: Settings, y: Sys, y': Sys)
    requires Healthy(cfg, y) && y.env.clock <= y'.env.clock
    requires forall i :: i in y'.items ==> i in y.items && y'.items[i] == y.items[i]
    ensures Healthy(cfg, y')
  {
    forall i | i in y'.items
      ensures Faithful(cfg, y'.items[i], y'.env.clock)
    {
      FaithfulLater(cfg, y.items[i], y.env.clock, y'.env.clock);
    }
  }

  lemma AddHealthy(cfg: Settings, y: Sys, s: Scope, batch: seq<Item>)
    requires Healthy(cfg, y)
    ensures Healthy(cfg, DoAddBatch(cfg, y, s, batch).sys)
  {
    var d := Write(y, s, y.stores.Get(s) + EncodeAll(y.nextId, batch));
    TickHealthy(cfg, y, d.sys);
    if FirstError(y.items, batch).None? && d.ok {
      var y1 := Register(d.sys, s, batch);
      RegisterHealthy(cfg, d.sys, s, batch);
      EnforceCools(cfg, y1, s);
      FlowsHealthy(cfg, y1, EnforceBounds(cfg, y1, s).sys);
    }
  }

  lemma QueryHealthy(cfg: Settings, y: Sys, sel: Selection, p: TriplePattern, limit: Option<nat>)
    requires Healthy(cfg, y)
    ensures Healthy(cfg, DoQuery(cfg, y, sel, p, limit).sys)
  {
    var r := ScanScopes(y, Consulted(sel), p);
    Steps.ScanUnmoved(y, Consulted(sel), p);
    TickHealthy(cfg, y, r.sys);
    if r.ok {
      var y1, hits := ReadClock(r.sys), Cut(r.hits, limit);
      TickHealthy(cfg, r.sys, y1);
      assert Indexed(y1.items, hits);
      ServedHealthy(cfg, y1, hits);
      var y2 := Served(cfg, y1, hits);
      if cfg.promotion.afterEachQuery {
        var up, mid := DueEnduring(cfg, y2.items), DueMajor(cfg, y2.items, y1.env.clock);
        RaiseAndTrimFlows(cfg, y2, up, mid);
        FlowsHealthy(cfg, y2, RaiseAndTrim(cfg, y2, up, mid).sys);
      }
    }
  }

  lemma RemoveHealthy(cfg: Settings, y: Sys, s: Scope, id: ItemId)
    requires Healthy(cfg, y)
    ensures Healthy(cfg, DoRemove(y, s, id).sys)
  {
    hide Faithful, Arrivals, Layout.DeleteItem;
    var r := DoRemove(y, s, id);
    assert r.sys.items == y.items || r.sys.items == y.items - {id};
    TickHealthy(cfg, y, r.sys);
  }

  /** In every run, whatever fails: promoted items are never in minor, demoted ones never in enduring;
      every pruned queue and every decayed weight stands for its full history. */
  lemma ApplyHealthy(cfg: Settings, y: Sys, op: Op)
    requires Healthy(cfg, y)
    ensures Healthy(cfg, Apply(cfg, y, op).sys)
  {
    match op
    case AddBatch(s, batch) => AddHealthy(cfg, y, s, batch);
    case Remove(s, id) => RemoveHealthy(cfg, y, s, id);
    case Query(sel, p, limit) => QueryHealthy(cfg, y, sel, p, limit);
    case Promote(ids, from, to) =>
      PromoteFlows(cfg, y, ids, from, to);
      FlowsHealthy(cfg, y, DoPromote(cfg, y, ids, from, to).sys);
    case Evict(s, c) =>
      EvictFlows(cfg, y, s, c);
      FlowsHealthy(cfg, y, DoEvict(cfg, y, s, c).sys);
  }

  // ---- conservation ---------------------------------------------------------------------------

  function RemovedBy(op: Op, result: Result<Value>): nat {
    if op.Remove? && result == Ok(Flag(true)) then 1 else 0
  }

  /** Items that ever left or are still here. */
  function Accounted(y: Sys): int {
    |y.items| + y.stats.evicted - y.stats.added
  }

  lemma RegisterConserves(y: Sys, s: Scope, batch: seq<Item>)
    requires forall i :: i in y.items ==> i < y.nextId
    ensures Accounted(Register(y, s, batch)) == Accounted(y)
  {
    var y' := Register(y, s, batch);
    var extra := FreshEntries(y.nextId, batch, s, y'.env.clock);
    assert y'.items.Keys == y.items.Keys + extra.Keys;
    assert y.items.Keys !! extra.Keys;
    assert extra.Keys == Steps.IssuedIds(y.nextId, |batch|);
    IssuedCount(y.nextId, |batch|);
  }

  lemma {:induction false} IssuedCount(first: ItemId, n: nat)
    ensures |Steps.IssuedIds(first, n)| == n
  {
    if n == 0 {
      assert Steps.IssuedIds(first, 0) == {};
    } else {
      IssuedCount(first, n - 1);
      var last: ItemId := first + n - 1;
      assert Issued(first, n, last);
      assert forall i: ItemId :: Issued(first, n, i) <==> Issued(first, n - 1, i) || i == last;
      assert Steps.IssuedIds(first, n) == Steps.IssuedIds(first, n - 1) + {last};
    }
  }

  /** Whatever fails, live items + evicted + removed changes only by what was added. */
  lemma ApplyConserves(cfg: Settings, y: Sys, op: Op)
    requires forall i :: i in y.items ==> i < y.nextId
    ensures var r := Apply(cfg, y, op);
            Accounted(r.sys) + RemovedBy(op, r.result) == Accounted(y)
  {
    match op
    case AddBatch(s, batch) => AddConserves(cfg, y, s, batch);
    case Remove(s, id) => RemoveConserves(y, s, id);
    case Query(sel, p, limit) => QueryConserves(cfg, y, sel, p, limit);
    case Promote(ids, from, to) => PromoteFlows(cfg, y, ids, from, to);
    case Evict(s, c) => EvictFlows(cfg, y, s, c);
  }

  lemma AddConserves(cfg: Settings, y: Sys, s: Scope, batch: seq<Item>)
    requires forall i :: i in y.items ==> i < y.nextId
    ensures Accounted(DoAddBatch(cfg, y, s, batch).sys) == Accounted(y)
  {
    var d := Write(y, s, y.stores.Get(s) + EncodeAll(y.nextId, batch));
    if FirstError(y.items, batch).None? && d.ok {
      RegisterConserves(d.sys, s, batch);
      EnforceCools(cfg, Register(d.sys, s, batch), s);
    }
  }

  lemma RemoveConserves(y: Sys, s: Scope, id: ItemId)
    ensures var r := DoRemove(y, s, id);
            Accounted(r.sys) + RemovedBy(Remove(s, id), r.result) == Accounted(y)
  {
    var r := DoRemove(y, s, id);
    if r.result == Ok(Flag(true)) {
      assert r.sys.items.Keys == y.items.Keys - {id};
    }
  }

  lemma QueryConserves(cfg: Settings, y: Sys, sel: Selection, p: TriplePattern, limit: Option<nat>)
    ensures Accounted(DoQuery(cfg, y, sel, p, limit).sys) == Accounted(y)
  {
    var r := ScanScopes(y, Consulted(sel), p);
    Steps.ScanUnmoved(y, Consulted(sel), p);
    if r.ok {
      var y1, hits := ReadClock(r.sys), Cut(r.hits, limit);
      assert Indexed(y1.items, hits);
      var y2 := Served(cfg, y1, hits);
      assert |y2.items| == |y2.items.Keys| == |y.items.Keys|;
      if cfg.promotion.afterEachQuery {
        RaiseAndTrimFlows(cfg, y2, DueEnduring(cfg, y2.items), DueMajor(cfg, y2.items, y1.env.clock));
      }
    }
  }
}
