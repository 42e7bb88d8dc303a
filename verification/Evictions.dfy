/** What eviction by policy and the bound cascade do to the index, in terms of histories, settings and tier
    sizes alone: who goes first, what becomes of each victim, how many there are, and what is booked. */
module Evictions {
  import opened Rdf
  import opened Items
  import opened Entries
  import opened Order
  import opened Machine
  import opened Flow
  import opened Laws
  import Policies

  // ---- who goes first -------------------------------------------------------------------------

  function LastOf(ts: seq<nat>): nat
    requires ts != []
  {
    ts[|ts| - 1]
  }

  /** Item `i` goes before item `j`: the one touched longer ago, the one touched less often, or the one whose
      touches are worth less by now; and the older one if that is the same. */
  ghost predicate Sooner(policy: EvictionPolicy, e: Entry, i: ItemId, f: Entry, j: ItemId, now: nat)
    requires e.touches != [] && f.touches != []
  {
    match policy
    case Lru => LastOf(e.touches) < LastOf(f.touches) || (LastOf(e.touches) == LastOf(f.touches) && i < j)
    case Lfu => |e.touches| < |f.touches| || (|e.touches| == |f.touches| && i < j)
    case RecencyWeighted(decay) =>
      var v, w := DecaySum(decay, e.touches, now), DecaySum(decay, f.touches, now);
      v < w || (v == w && i < j)
  }

  ghost predicate Touched(items: map<ItemId, Entry>) {
    forall i :: i in items ==> items[i].touches != []
  }

  /** Every victim goes before every item of the tier that is left behind. */
  ghost predicate FirstOut(cfg: Settings, items: map<ItemId, Entry>, s: Scope, victims: set<ItemId>, now: nat)
    requires Touched(items)
  {
    forall i, j :: i in victims && i in items && j in items && items[j].scope == s && j !in victims ==>
      Sooner(cfg.policy, items[i], i, items[j], j, now)
  }

  lemma BeforeIsSooner(cfg: Settings, y: Sys, s: Scope, i: ItemId, j: ItemId, now: nat)
    requires Healthy(cfg, y) && y.env.clock <= now && i in InScope(y.items, s) && j in InScope(y.items, s)
    requires Before(Keys(cfg.policy, y.items, s, now), i, j)
    ensures y.items[i].touches != [] && y.items[j].touches != []
    ensures Sooner(cfg.policy, y.items[i], i, y.items[j], j, now)
  {
    hide WeightAt, DecaySum;
    var e, f := y.items[i], y.items[j];
    assert Faithful(cfg, e, y.env.clock) && Faithful(cfg, f, y.env.clock);
    if cfg.policy.RecencyWeighted? {
      WeightIsHistorySum(cfg, e, y.env.clock, now);
      WeightIsHistorySum(cfg, f, y.env.clock, now);
    }
  }

  lemma HealthyTouched(cfg: Settings, y: Sys)
    requires Healthy(cfg, y)
    ensures Touched(y.items)
  {
    forall i | i in y.items
      ensures y.items[i].touches != []
    {
      assert Faithful(cfg, y.items[i], y.env.clock);
    }
  }

  /** The victims of any policy are the first out by their full histories. */
  lemma VictimsFirstOut(cfg: Settings, y: Sys, s: Scope, count: nat, now: nat)
    requires Healthy(cfg, y) && y.env.clock <= now
    ensures Touched(y.items) && FirstOut(cfg, y.items, s, Elems(Victims(cfg, y.items, s, count, now)), now)
  {
    hide Healthy, Sooner, Before, KeyOf;
    HealthyTouched(cfg, y);
    Policies.VictimsAreFirst(cfg, y.items, s, count, now);
    var v, keys := Victims(cfg, y.items, s, count, now), Keys(cfg.policy, y.items, s, now);
    forall i, j | i in Elems(v) && i in y.items && j in y.items && y.items[j].scope == s && j !in Elems(v)
      ensures Sooner(cfg.policy, y.items[i], i, y.items[j], j, now)
    {
      assert j in InScope(y.items, s) - Elems(v);
      assert Before(keys, i, j);
      BeforeIsSooner(cfg, y, s, i, j, now);
    }
  }

  // ---- what becomes of a victim ---------------------------------------------------------------

  /** One tier colder, marked as demoted, its promotion window forgotten, otherwise as it was. */
  predicate SteppedDown(e: Entry, e': Entry) {
    && e'.scope.Rank() + 1 == e.scope.Rank()
    && e' == e.(scope := e'.scope, arrival := Demoted, recent := [], visits := [])
  }

  /** The fate of victim `i` by the demotion target.  Dropping removes it; one tier colder keeps it unless it
      is in the coldest; one step and then out keeps it iff it had arrived by promotion. */
  predicate Disposed(target: DemotionTarget, items: map<ItemId, Entry>, items': map<ItemId, Entry>, i: ItemId)
    requires i in items
  {
    && (target.Drop? ==> i !in items')
    && (target.NextColder? ==> (i in items' <==> items[i].scope != Minor))
    && (target.OneStepThenDrop? ==> (i in items' <==> items[i].arrival.Promoted?))
    && (i in items' ==> SteppedDown(items[i], items'[i]))
  }

  /** How many of the victims are demoted; the others are evicted. */
  function DemotedAmong(target: DemotionTarget, items: map<ItemId, Entry>, s: Scope, victims: set<ItemId>): nat {
    match target
    case Drop => 0
    case NextColder => if s == Minor then 0 else |victims|
    case OneStepThenDrop => |PromotedOf(items, victims)|
  }

  /** Those that had arrived by promotion. */
  function PromotedOf(items: map<ItemId, Entry>, ids: set<ItemId>): set<ItemId> {
    set i | i in ids && i in items && items[i].arrival.Promoted?
  }

  /** Exactly these items of the tier meet their fate, no other entry changes, and the books are exact. */
  ghost predicate Evicts(cfg: Settings, y: Sys, y': Sys, s: Scope, victims: set<ItemId>) {
    && victims <= InScope(y.items, s) && y'.items.Keys <= y.items.Keys
    && (forall i :: i in victims ==> Disposed(cfg.target, y.items, y'.items, i))
    && (forall i :: i in y.items && i !in victims ==> i in y'.items && y'.items[i] == y.items[i])
    && y'.nextId == y.nextId
    && var n := DemotedAmong(cfg.target, y.items, s, victims);
       n <= |victims|
       && y'.stats == y.stats.(demoted := y.stats.demoted + n, evicted := y.stats.evicted + |victims| - n)
  }

  lemma EvictsNone(cfg: Settings, y: Sys, y': Sys, s: Scope)
    requires y'.items == y.items && y'.nextId == y.nextId && y'.stats == y.stats
    ensures Evicts(cfg, y, y', s, {})
  {
    assert PromotedOf(y.items, {}) == {};
  }

  lemma OneEvicted(cfg: Settings, y: Sys, s: Scope, i: ItemId)
    requires Arrivals(y.items) && i in y.items && y.items[i].scope == s && EvictOne(cfg, y, s, i).ok
    ensures Evicts(cfg, y, EvictOne(cfg, y, s, i).sys, s, {i})
    ensures Arrivals(EvictOne(cfg, y, s, i).sys.items)
  {
    hide EvictOne, Evicts, SteppedDown;
    var y', e := EvictOne(cfg, y, s, i).sys, y.items[i];
    EvictOneOutcomes(cfg, y, s, i);
    EvictOneCools(cfg, y, s, i);
    var target := TargetOf(cfg.target, s, e.arrival);
    if target.Some? {
      OneSteppedDown(cfg, y, y', s, i);
    } else {
      OneDropped(cfg, y, y', s, i);
    }
  }

  lemma OneSteppedDown(cfg: Settings, y: Sys, y': Sys, s: Scope, i: ItemId)
    requires Arrivals(y.items) && i in y.items && y.items[i].scope == s && s.Colder().Some?
    requires cfg.target.NextColder? || (cfg.target.OneStepThenDrop? && y.items[i].arrival.Promoted?)
    requires y'.items == y.items[i := Relocate(y.items[i], s.Colder().value, Demoted)] && y'.nextId == y.nextId
    requires y'.stats == y.stats.(demoted := y.stats.demoted + 1)
    ensures Evicts(cfg, y, y', s, {i})
  {
    hide Arrivals;
    OnePromoted(y.items, i);
    assert SteppedDown(y.items[i], y'.items[i]);
  }

  lemma OneDropped(cfg: Settings, y: Sys, y': Sys, s: Scope, i: ItemId)
    requires i in y.items && y.items[i].scope == s
    requires cfg.target.NextColder? ==> s == Minor
    requires cfg.target.OneStepThenDrop? ==> !y.items[i].arrival.Promoted?
    requires y'.items == y.items - {i} && y'.nextId == y.nextId
    requires y'.stats == y.stats.(evicted := y.stats.evicted + 1)
    ensures Evicts(cfg, y, y', s, {i})
  {
    hide SteppedDown;
    OnePromoted(y.items, i);
  }

  lemma OnePromoted(items: map<ItemId, Entry>, i: ItemId)
    requires i in items
    ensures PromotedOf(items, {i}) == if items[i].arrival.Promoted? then {i} else {}
  {
  }

  lemma DemotedMore(target: DemotionTarget, items: map<ItemId, Entry>, items': map<ItemId, Entry>, s: Scope,
                    i: ItemId, rest: set<ItemId>)
    requires i in items && i !in rest && forall j :: j in rest ==> j in items && j in items' && items'[j] == items[j]
    ensures DemotedAmong(target, items, s, {i} + rest)
            == DemotedAmong(target, items, s, {i}) + DemotedAmong(target, items', s, rest)
  {
    assert PromotedOf(items, {i} + rest) == PromotedOf(items, {i}) + PromotedOf(items', rest);
    assert PromotedOf(items, {i}) !! PromotedOf(items', rest);
    assert |{i} + rest| == 1 + |rest|;
  }

  lemma EvictsMore(cfg: Settings, a: Sys, b: Sys, c: Sys, s: Scope, i: ItemId, rest: set<ItemId>)
    requires Evicts(cfg, a, b, s, {i}) && Evicts(cfg, b, c, s, rest) && i !in rest && rest <= InScope(a.items, s)
    ensures Evicts(cfg, a, c, s, {i} + rest)
  {
    hide DemotedAmong, Disposed;
    forall j | j in {i} + rest
      ensures Disposed(cfg.target, a.items, c.items, j)
    {
      if j == i {
        StaysOut(cfg, a, b, c, s, i, rest);
      } else {
        assert Disposed(cfg.target, b.items, c.items, j);
        SameFate(cfg.target, a.items, b.items, c.items, j);
      }
    }
    DemotedMore(cfg.target, a.items, b.items, s, i, rest);
    assert |{i} + rest| == 1 + |rest|;
  }

  lemma SameFate(target: DemotionTarget, a: map<ItemId, Entry>, b: map<ItemId, Entry>, c: map<ItemId, Entry>, i: ItemId)
    requires i in a && i in b && b[i] == a[i] && Disposed(target, b, c, i)
    ensures Disposed(target, a, c, i)
  {
  }

  /** A victim is not touched again by the evictions that follow it in its tier. */
  lemma StaysOut(cfg: Settings, a: Sys, b: Sys, c: Sys, s: Scope, i: ItemId, rest: set<ItemId>)
    requires Evicts(cfg, a, b, s, {i}) && Evicts(cfg, b, c, s, rest) && i !in rest
    ensures Disposed(cfg.target, a.items, c.items, i)
  {
    assert Disposed(cfg.target, a.items, b.items, i);
    if i in b.items {
      assert c.items[i] == b.items[i];
    }
  }

  /** Evicting a list of victims disposes of each by the demotion target and books it exactly. */
  lemma {:induction false} VictimsDisposed(cfg: Settings, y: Sys, s: Scope, ids: seq<ItemId>)
    requires Distinct(ids) && AllIn(y.items, ids, s) && Arrivals(y.items) && EvictVictims(cfg, y, s, ids).ok
    ensures Evicts(cfg, y, EvictVictims(cfg, y, s, ids).sys, s, Elems(ids))
    decreases |ids|
  {
    hide EvictOne, Arrivals, Evicts;
    if ids == [] {
      EvictsNone(cfg, y, y, s);
      assert Elems(ids) == {};
    } else {
      var d, rest := EvictOne(cfg, y, s, ids[0]), ids[1..];
      OneEvicted(cfg, y, s, ids[0]);
      EvictOneLeaves(cfg, y, s, ids[0]);
      HeadTail(ids);
      assert ids[0] !in rest;
      VictimsDisposed(cfg, d.sys, s, rest);
      EvictsMore(cfg, y, d.sys, EvictVictims(cfg, d.sys, s, rest).sys, s, ids[0], Elems(rest));
    }
  }

  // ---- policy eviction, tiers, cascades -------------------------------------------------------

  /** The `count` first items of the tier, or all of them, are evicted; the order is that of the moment
      `y'` has reached. */
  ghost predicate PolicyEvicts(cfg: Settings, y: Sys, y': Sys, s: Scope, count: nat, victims: set<ItemId>) {
    && Touched(y.items) && y.env.clock <= y'.env.clock
    && |victims| == (if count <= |InScope(y.items, s)| then count else |InScope(y.items, s)|)
    && FirstOut(cfg, y.items, s, victims, y'.env.clock)
    && Evicts(cfg, y, y', s, victims)
  }

  lemma EvictByPolicyEvicts(cfg: Settings, y: Sys, s: Scope, count: nat) returns (victims: set<ItemId>)
    requires Healthy(cfg, y) && EvictByPolicy(cfg, y, s, count).ok
    ensures PolicyEvicts(cfg, y, EvictByPolicy(cfg, y, s, count).sys, s, count, victims)
    ensures Healthy(cfg, EvictByPolicy(cfg, y, s, count).sys)
  {
    hide EvictVictims, Victims, Evicts, FirstOut, Faithful, Flows, Arrivals;
    var y1 := ReadClock(y);
    var v := Victims(cfg, y1.items, s, count, y1.env.clock);
    victims := Elems(v);
    DistinctSize(v);
    VictimsIn(cfg, y1.items, s, count, y1.env.clock);
    VictimsFirstOut(cfg, y, s, count, y1.env.clock);
    VictimsDisposed(cfg, y1, s, v);
    EvictVictimsClock(cfg, y1, s, v);
    SameIndexEvicts(cfg, y1, y, EvictVictims(cfg, y1, s, v).sys, s, victims);
    EvictByPolicyCools(cfg, y, s, count);
    FlowsHealthy(cfg, y, EvictByPolicy(cfg, y, s, count).sys);
  }

  lemma SameIndexEvicts(cfg: Settings, a: Sys, b: Sys, c: Sys, s: Scope, victims: set<ItemId>)
    requires Evicts(cfg, a, c, s, victims) && b.items == a.items && b.nextId == a.nextId && b.stats == a.stats
    ensures Evicts(cfg, b, c, s, victims)
  {
  }

  lemma {:induction false} EvictVictimsClock(cfg: Settings, y: Sys, s: Scope, ids: seq<ItemId>)
    requires Distinct(ids) && AllIn(y.items, ids, s)
    ensures EvictVictims(cfg, y, s, ids).sys.env.clock == y.env.clock
    decreases |ids|
  {
    hide EvictOne;
    if ids != [] {
      EvictOneOutcomes(cfg, y, s, ids[0]);
      EvictOneLeaves(cfg, y, s, ids[0]);
      var d := EvictOne(cfg, y, s, ids[0]);
      if d.ok { EvictVictimsClock(cfg, d.sys, s, ids[1..]); }
    }
  }

  /** How many items a tier has over its bound. */
  function Excess(cfg: Settings, items: map<ItemId, Entry>, s: Scope): nat {
    var n := |set i | i in items && items[i].scope == s|;
    match cfg.bounds.Get(s)
    case None => 0
    case Some(bound) => if n > bound then n - bound else 0
  }

  /** Trimming a tier evicts exactly its excess. */
  ghost predicate Trims(cfg: Settings, y: Sys, y': Sys, s: Scope) {
    exists victims :: PolicyEvicts(cfg, y, y', s, Excess(cfg, y.items, s), victims)
  }

  lemma TrimTierTrims(cfg: Settings, y: Sys, s: Scope)
    requires Healthy(cfg, y) && TrimTier(cfg, y, s).ok
    ensures Trims(cfg, y, TrimTier(cfg, y, s).sys, s) && Healthy(cfg, TrimTier(cfg, y, s).sys)
  {
    hide EvictByPolicy, PolicyEvicts, Healthy, TrimTier;
    TrimCases(cfg, y, s);
    ExcessIs(cfg, y.items, s);
    if WithinBound(cfg, y.items, s) {
      NothingEvicted(cfg, y, s);
      assert PolicyEvicts(cfg, y, y, s, Excess(cfg, y.items, s), {});
    } else {
      var victims := EvictByPolicyEvicts(cfg, y, s, Excess(cfg, y.items, s));
    }
  }

  lemma ExcessIs(cfg: Settings, items: map<ItemId, Entry>, s: Scope)
    ensures WithinBound(cfg, items, s) ==> Excess(cfg, items, s) == 0
    ensures !WithinBound(cfg, items, s) ==> Excess(cfg, items, s) == |InScope(items, s)| - cfg.bounds.Get(s).value
  {
    assert InScope(items, s) == set i | i in items && items[i].scope == s;
  }

  lemma NothingEvicted(cfg: Settings, y: Sys, s: Scope)
    requires Healthy(cfg, y)
    ensures PolicyEvicts(cfg, y, y, s, 0, {})
  {
    HealthyTouched(cfg, y);
    EvictsNone(cfg, y, y, s);
  }

  function TierOf(rank: nat): Scope {
    if rank == 0 then Minor else if rank == 1 then Major else Enduring
  }

  /** `ys` are the states of a cascade: tier `s` is trimmed, then each colder one in turn. */
  ghost predicate Cascade(cfg: Settings, ys: seq<Sys>, s: Scope) {
    && |ys| == s.Rank() + 2
    && forall k :: 0 <= k <= s.Rank() ==> Trims(cfg, ys[k], ys[k + 1], TierOf(s.Rank() - k))
  }

  /** A successful cascade evicts, tier by tier downwards, exactly what each tier then has over its bound. */
  lemma EnforceCascades(cfg: Settings, y: Sys, s: Scope) returns (ys: seq<Sys>)
    requires Healthy(cfg, y) && EnforceBounds(cfg, y, s).ok
    ensures Cascade(cfg, ys, s) && ys[0] == y && ys[|ys| - 1] == EnforceBounds(cfg, y, s).sys
    decreases s.Rank()
  {
    hide TrimTier, Trims, Healthy;
    TrimTierTrims(cfg, y, s);
    var d := TrimTier(cfg, y, s);
    if s == Minor {
      ys := [y, d.sys];
    } else {
      var c := s.Colder().value;
      var rest := EnforceCascades(cfg, d.sys, c);
      ys := [y] + rest;
      forall k | 0 <= k <= s.Rank()
        ensures Trims(cfg, ys[k], ys[k + 1], TierOf(s.Rank() - k))
      {
        if k > 0 { assert Trims(cfg, rest[k - 1], rest[k], TierOf(c.Rank() - (k - 1))); }
      }
    }
  }

  /** What a cascade spares is as it was; what it does not is gone or colder and marked as demoted. */
  predicate Spared(a: map<ItemId, Entry>, b: map<ItemId, Entry>, i: ItemId)
    requires i in b
  {
    i in a && (b[i] == a[i] || (b[i].arrival.Demoted? && b[i].scope.Rank() < a[i].scope.Rank()))
  }

  lemma TrimSpares(cfg: Settings, y: Sys, y': Sys, s: Scope, i: ItemId)
    requires Trims(cfg, y, y', s) && i in y'.items
    ensures Spared(y.items, y'.items, i)
  {
    hide FirstOut, DemotedAmong;
    var victims :| PolicyEvicts(cfg, y, y', s, Excess(cfg, y.items, s), victims);
    if i in victims { assert Disposed(cfg.target, y.items, y'.items, i); }
  }

  lemma {:induction false} CascadeSpares(cfg: Settings, ys: seq<Sys>, s: Scope, k: nat, i: ItemId)
    requires Cascade(cfg, ys, s) && k < |ys| && i in ys[k].items
    ensures Spared(ys[0].items, ys[k].items, i)
    decreases k
  {
    hide Trims;
    if k > 0 {
      assert Trims(cfg, ys[k - 1], ys[k], TierOf(s.Rank() - (k - 1)));
      TrimSpares(cfg, ys[k - 1], ys[k], TierOf(s.Rank() - (k - 1)), i);
      CascadeSpares(cfg, ys, s, k - 1, i);
    }
  }
}
