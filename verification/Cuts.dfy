/** Why a failing storage step is a crash point: an operation runs its storage steps in order, stops at
    the first one that fails, and reports the storage error exactly then. */
module Cuts {
  import opened Rdf
  import opened Items
  import opened Entries
  import Order
  import Layout
  import opened Machine
  import opened Steps
  import Flow

  /** From script `f` to script `g`: the steps taken are a prefix of the script; all of them succeeded,
      except the last one if and only if the stretch failed. */
  ghost predicate Spent(f: seq<bool>, g: seq<bool>, ok: bool) {
    && |g| <= |f| && g == f[|f| - |g|..]
    && (forall j :: 0 <= j < |f| - |g| - 1 ==> !f[j])
    && (ok ==> |g| == |f| || !f[|f| - |g| - 1])
    && (!ok ==> |g| < |f| && f[|f| - |g| - 1])
  }

  ghost predicate Stops(y: Sys, d: Done) {
    Spent(y.env.faults, d.sys.env.faults, d.ok)
  }

  lemma SpentChain(f: seq<bool>, g: seq<bool>, h: seq<bool>, ok: bool)
    requires Spent(f, g, true) && Spent(g, h, ok)
    ensures Spent(f, h, ok)
  {
    var n := |f| - |g|;
    assert forall j :: 0 <= j < |g| ==> g[j] == f[n + j];
    assert h == f[|f| - |h|..];
    forall j | 0 <= j < |f| - |h| - 1
      ensures !f[j]
    {
      if j >= n { assert f[j] == g[j - n]; }
    }
  }

  lemma StopsChain(y: Sys, d1: Done, d2: Done)
    requires Stops(y, d1) && d1.ok && Stops(d1.sys, d2)
    ensures Stops(y, d2)
  {
    hide Spent;
    SpentChain(y.env.faults, d1.sys.env.faults, d2.sys.env.faults, d2.ok);
  }

  /** Only the script matters. */
  lemma StopsSame(y: Sys, d: Done, y': Sys, d': Done)
    requires Stops(y, d) && y'.env.faults == y.env.faults && d'.sys.env.faults == d.sys.env.faults && d'.ok == d.ok
    ensures Stops(y', d')
  {
    hide Spent;
  }

  lemma SpentNone(f: seq<bool>)
    ensures Spent(f, f, true)
  {
    assert f[0..] == f;
  }

  lemma SpentOne(f: seq<bool>)
    requires f != []
    ensures Spent(f, f[1..], !f[0])
  {
  }

  lemma StopsNow(y: Sys, y': Sys)
    requires y'.env.faults == y.env.faults
    ensures Stops(y, Done(y', true))
  {
    hide Spent;
    SpentNone(y.env.faults);
  }

  lemma StepStops(y: Sys, after: Tiers<set<Quad>>)
    ensures Stops(y, Step(y, after))
  {
    hide Spent;
    SpentNone(y.env.faults);
    if y.env.faults != [] { SpentOne(y.env.faults); }
  }

  lemma AttemptStops(y: Sys)
    ensures Stops(y, Attempt(y))
  {
    StepStops(y, y.stores);
  }

  lemma WriteStops(y: Sys, s: Scope, quads: set<Quad>)
    ensures Stops(y, Write(y, s, quads))
  {
    StepStops(y, y.stores.Put(s, quads));
  }

  lemma {:induction false} RefusalsAreNotStorage(items: map<ItemId, Entry>, batch: seq<Item>)
    ensures FirstError(items, batch) != Some(Storage)
  {
    if batch != [] { RefusalsAreNotStorage(items, batch[1..]); }
  }

  lemma MoveStops(y: Sys, id: ItemId, to: Scope, arrival: Arrival)
    requires id in y.items
    ensures Stops(y, MoveItem(y, id, to, arrival))
  {
    hide Stops, Layout.Encode, Layout.DeleteItem, Relocate, Write;
    var e := y.items[id];
    var quads := y.stores.Get(to) + Layout.Encode(id, e.item);
    var d1 := Write(y, to, quads);
    WriteStops(y, to, quads);
    if d1.ok {
      var rest := Layout.DeleteItem(d1.sys.stores.Get(e.scope), id);
      var d2 := Write(d1.sys, e.scope, rest);
      WriteStops(d1.sys, e.scope, rest);
      StopsChain(y, d1, d2);
      StopsSame(y, d2, y, MoveItem(y, id, to, arrival));
    }
  }

  lemma {:induction false} MoveAllStops(y: Sys, ids: seq<ItemId>, to: Scope, arrival: Arrival)
    requires forall i :: i in ids ==> i in y.items
    ensures Stops(y, MoveAll(y, ids, to, arrival))
    decreases |ids|
  {
    hide Stops, MoveItem;
    if ids == [] {
      StopsNow(y, y);
    } else {
      var d := MoveItem(y, ids[0], to, arrival);
      MoveStops(y, ids[0], to, arrival);
      if d.ok {
        MoveAllStops(d.sys, ids[1..], to, arrival);
        StopsChain(y, d, MoveAll(d.sys, ids[1..], to, arrival));
      }
    }
  }

  lemma DropStops(y: Sys, id: ItemId)
    requires id in y.items
    ensures Stops(y, DropItem(y, id))
  {
    hide Stops, Layout.DeleteItem, Write;
    var s := y.items[id].scope;
    var rest := Layout.DeleteItem(y.stores.Get(s), id);
    WriteStops(y, s, rest);
    StopsSame(y, Write(y, s, rest), y, DropItem(y, id));
  }

  lemma {:induction false} DropAllStops(y: Sys, ids: seq<ItemId>)
    requires Order.Distinct(ids) && forall i :: i in ids ==> i in y.items
    ensures Stops(y, DropAll(y, ids))
    decreases |ids|
  {
    hide Stops, DropItem;
    if ids == [] {
      StopsNow(y, y);
    } else {
      var d := DropItem(y, ids[0]);
      DropStops(y, ids[0]);
      if d.ok {
        DropAllStops(d.sys, ids[1..]);
        StopsChain(y, d, DropAll(d.sys, ids[1..]));
      }
    }
  }

  lemma EvictOneStops(cfg: Settings, y: Sys, s: Scope, id: ItemId)
    requires id in y.items
    ensures Stops(y, EvictOne(cfg, y, s, id))
  {
    hide Stops, MoveItem, DropItem;
    var target := TargetOf(cfg.target, s, y.items[id].arrival);
    if target.Some? {
      MoveStops(y, id, target.value, Demoted);
      StopsSame(y, MoveItem(y, id, target.value, Demoted), y, EvictOne(cfg, y, s, id));
    } else {
      DropStops(y, id);
    }
  }

  lemma {:induction false} EvictVictimsStops(cfg: Settings, y: Sys, s: Scope, ids: seq<ItemId>)
    requires Order.Distinct(ids) && forall i :: i in ids ==> i in y.items
    ensures Stops(y, EvictVictims(cfg, y, s, ids))
    decreases |ids|
  {
    hide Stops, EvictOne;
    if ids == [] {
      StopsNow(y, y);
    } else {
      var d := EvictOne(cfg, y, s, ids[0]);
      EvictOneStops(cfg, y, s, ids[0]);
      if d.ok {
        EvictVictimsStops(cfg, d.sys, s, ids[1..]);
        StopsChain(y, d, EvictVictims(cfg, d.sys, s, ids[1..]));
      }
    }
  }

  lemma EvictByPolicyStops(cfg: Settings, y: Sys, s: Scope, count: nat)
    ensures Stops(y, EvictByPolicy(cfg, y, s, count))
  {
    hide Stops, EvictVictims, Victims;
    var y1 := ReadClock(y);
    var v := Victims(cfg, y1.items, s, count, y1.env.clock);
    assert forall i :: i in v ==> i in Order.Elems(v);
    EvictVictimsStops(cfg, y1, s, v);
    StopsSame(y1, EvictVictims(cfg, y1, s, v), y, EvictVictims(cfg, y1, s, v));
  }

  lemma TrimStops(cfg: Settings, y: Sys, s: Scope)
    ensures Stops(y, TrimTier(cfg, y, s))
  {
    hide Stops, EvictByPolicy;
    Flow.TrimCases(cfg, y, s);
    if Flow.WithinBound(cfg, y.items, s) {
      StopsNow(y, y);
    } else {
      EvictByPolicyStops(cfg, y, s, |InScope(y.items, s)| - cfg.bounds.Get(s).value);
    }
  }

  lemma EnforceStops(cfg: Settings, y: Sys, s: Scope)
    ensures Stops(y, EnforceBounds(cfg, y, s))
    decreases s.Rank()
  {
    hide Stops, TrimTier;
    var d := TrimTier(cfg, y, s);
    TrimStops(cfg, y, s);
    if d.ok && s.Colder().Some? {
      EnforceStops(cfg, d.sys, s.Colder().value);
      StopsChain(y, d, EnforceBounds(cfg, d.sys, s.Colder().value));
    }
  }

  /** A stretch that succeeded, then the cascade on a state with the same script. */
  lemma ThenEnforceStops(cfg: Settings, y: Sys, d: Done, y1: Sys, s: Scope)
    requires Stops(y, d) && d.ok && y1.env == d.sys.env
    ensures Stops(y, EnforceBounds(cfg, y1, s))
  {
    hide Stops, EnforceBounds;
    EnforceStops(cfg, y1, s);
    StopsSame(y1, EnforceBounds(cfg, y1, s), d.sys, EnforceBounds(cfg, y1, s));
    StopsChain(y, d, EnforceBounds(cfg, y1, s));
  }

  lemma AddStops(cfg: Settings, y: Sys, s: Scope, batch: seq<Item>)
    ensures Stops(y, Unfailed(DoAddBatch(cfg, y, s, batch)))
  {
    hide Stops, EnforceBounds, EncodeAll, Write;
    var quads := y.stores.Get(s) + EncodeAll(y.nextId, batch);
    var d := Write(y, s, quads);
    WriteStops(y, s, quads);
    RefusalsAreNotStorage(y.items, batch);
    if FirstError(y.items, batch).Some? {
      StopsNow(y, y);
    } else if d.ok {
      var y1 := Register(d.sys, s, batch);
      StopsNow(d.sys, y1);
      StopsChain(y, d, Done(y1, true));
      ThenEnforceStops(cfg, y, Done(y1, true), y1, s);
    }
  }

  lemma RemoveStops(y: Sys, s: Scope, id: ItemId)
    ensures Stops(y, Unfailed(DoRemove(y, s, id)))
  {
    hide Stops, Layout.DeleteItem, Write;
    var rest := Layout.DeleteItem(y.stores.Get(s), id);
    WriteStops(y, s, rest);
    if id in y.items && y.items[id].scope == s {
      StopsSame(y, Write(y, s, rest), y, Unfailed(DoRemove(y, s, id)));
    } else {
      StopsNow(y, y);
    }
  }

  lemma PromoteStops(cfg: Settings, y: Sys, ids: seq<ItemId>, from: Scope, to: Scope)
    ensures Stops(y, Unfailed(DoPromote(cfg, y, ids, from, to)))
  {
    hide Stops, EnforceBounds, MoveAll;
    var u := Order.Unique(ids);
    StopsNow(y, y);
    ChecksAreNotStorage(y.items, u, from);
    if to.Rank() > from.Rank() && CheckEach(y.items, u, from).None? {
      CheckedInScope(y.items, u, from);
      var d := MoveAll(y, u, to, Promoted);
      MoveAllStops(y, u, to, Promoted);
      if d.ok { ThenEnforceStops(cfg, y, d, CountPromoted(d.sys, |u|), to); }
    }
  }

  lemma EvictStops(cfg: Settings, y: Sys, s: Scope, c: Criteria)
    ensures Stops(y, Unfailed(DoEvict(cfg, y, s, c)))
  {
    match c
    case EvictItems(ids) => EvictItemsStops(y, s, ids);
    case EvictDemote(ids, to) => DemoteStops(cfg, y, s, ids, to);
    case EvictPolicy(count) => EvictPolicyStops(cfg, y, s, count);
  }

  lemma EvictItemsStops(y: Sys, s: Scope, ids: seq<ItemId>)
    ensures Stops(y, Unfailed(DoEvictItems(y, s, ids)))
  {
    hide Stops, DropAll;
    var u := Order.Unique(ids);
    StopsNow(y, y);
    ChecksAreNotStorage(y.items, u, s);
    if CheckEach(y.items, u, s).None? {
      CheckedInScope(y.items, u, s);
      DropAllStops(y, u);
    }
  }

  lemma DemoteStops(cfg: Settings, y: Sys, s: Scope, ids: seq<ItemId>, to: Scope)
    ensures Stops(y, Unfailed(DoDemote(cfg, y, s, ids, to)))
  {
    hide Stops, EnforceBounds, MoveAll;
    var u := Order.Unique(ids);
    StopsNow(y, y);
    ChecksAreNotStorage(y.items, u, s);
    if to.Rank() < s.Rank() && CheckEach(y.items, u, s).None? {
      CheckedInScope(y.items, u, s);
      var d := MoveAll(y, u, to, Demoted);
      MoveAllStops(y, u, to, Demoted);
      if d.ok { ThenEnforceStops(cfg, y, d, CountDemoted(d.sys, |u|), to); }
    }
  }

  lemma EvictPolicyStops(cfg: Settings, y: Sys, s: Scope, count: nat)
    ensures Stops(y, Unfailed(DoEvictPolicy(cfg, y, s, count)))
  {
    hide Stops, EnforceBounds, EvictByPolicy;
    var d := EvictByPolicy(cfg, y, s, count);
    EvictByPolicyStops(cfg, y, s, count);
    if d.ok && s.Colder().Some? { ThenEnforceStops(cfg, y, d, d.sys, s.Colder().value); }
  }

  lemma {:induction false} ScanStops(y: Sys, scopes: seq<Scope>, p: TriplePattern)
    ensures var r := ScanScopes(y, scopes, p); Stops(y, Done(r.sys, r.ok))
    decreases |scopes|
  {
    hide Stops, Attempt, FoundIds, Matched;
    StopsNow(y, y);
    if scopes != [] {
      var d := Attempt(y);
      AttemptStops(y);
      if d.ok {
        ScanStops(d.sys, scopes[1..], p);
        var r := ScanScopes(d.sys, scopes[1..], p);
        StopsChain(y, d, Done(r.sys, r.ok));
      }
    }
  }

  lemma RaiseStops(y: Sys, up: seq<ItemId>, mid: seq<ItemId>)
    requires AllIn(y.items, up, Major) && AllIn(y.items, mid, Minor)
    ensures Stops(y, Raise(y, up, mid))
  {
    hide Stops, MoveAll;
    var d := MoveAll(y, up, Enduring, Promoted);
    MoveAllStops(y, up, Enduring, Promoted);
    if d.ok {
      MoveAllStops(d.sys, mid, Major, Promoted);
      StopsChain(y, d, MoveAll(d.sys, mid, Major, Promoted));
    }
  }

  lemma RaiseAndTrimStops(cfg: Settings, y: Sys, up: seq<ItemId>, mid: seq<ItemId>)
    requires AllIn(y.items, up, Major) && AllIn(y.items, mid, Minor)
    ensures Stops(y, RaiseAndTrim(cfg, y, up, mid))
  {
    hide Stops, Raise, EnforceBounds;
    var d := Raise(y, up, mid);
    RaiseStops(y, up, mid);
    if d.ok {
      var y1 := CountPromoted(d.sys, |up| + |mid|);
      ThenEnforceStops(cfg, y, d, y1, Enduring);
      ThenEnforceStops(cfg, y, d, y1, Major);
      StopsSame(y, d, y, Done(y1, true));
    }
  }

  lemma QueryStops(cfg: Settings, y: Sys, sel: Selection, p: TriplePattern, limit: Option<nat>)
    ensures Stops(y, Unfailed(DoQuery(cfg, y, sel, p, limit)))
  {
    hide Stops, ScanScopes, RaiseAndTrim, TouchAll, Results;
    var r := ScanScopes(y, Consulted(sel), p);
    ScanStops(y, Consulted(sel), p);
    if r.ok {
      var y1, hits := ReadClock(r.sys), Cut(r.hits, limit);
      assert Indexed(y1.items, hits);
      var y2 := Served(cfg, y1, hits);
      StopsSame(y, Done(r.sys, r.ok), y, Done(y2, true));
      if cfg.promotion.afterEachQuery {
        var up, mid := DueEnduring(cfg, y2.items), DueMajor(cfg, y2.items, y1.env.clock);
        RaiseAndTrimStops(cfg, y2, up, mid);
        StopsChain(y, Done(y2, true), RaiseAndTrim(cfg, y2, up, mid));
      }
    } else {
      StopsSame(y, Done(r.sys, r.ok), y, Unfailed(DoQuery(cfg, y, sel, p, limit)));
    }
  }

  /** Every operation stops at its first failing storage step and reports the storage error iff there was
      one. */
  lemma ApplyStops(cfg: Settings, y: Sys, op: Op)
    ensures Stops(y, Unfailed(Apply(cfg, y, op)))
  {
    hide Stops, DoAddBatch, DoRemove, DoQuery, DoPromote, DoEvict;
    match op
    case AddBatch(s, batch) => AddStops(cfg, y, s, batch);
    case Remove(s, id) => RemoveStops(y, s, id);
    case Query(sel, p, limit) => QueryStops(cfg, y, sel, p, limit);
    case Promote(ids, from, to) => PromoteStops(cfg, y, ids, from, to);
    case Evict(s, c) => EvictStops(cfg, y, s, c);
  }
}
