/** What bounds, policies and auto-promotion promise of whole operations. */
module Policies {
  import opened Rdf
  import opened Items
  import opened Entries
  import opened Order
  import Layout
  import opened Machine
  import Agreement
  import Steps
  import opened Flow
  import Laws

  // ---- victims --------------------------------------------------------------------------------

  /** The victims are min(count, tier size) distinct items of the tier in ascending (key, id) order, and
      every item left behind comes after every victim. */
  lemma VictimsAreFirst(cfg: Settings, items: map<ItemId, Entry>, s: Scope, count: nat, now: nat)
    ensures var v, keys := Victims(cfg, items, s, count, now), Keys(cfg.policy, items, s, now);
            && |v| == AtMost(count, |InScope(items, s)|) && Distinct(v) && Elems(v) <= InScope(items, s)
            && Keyed(keys, v) && InOrder(keys, v)
            && forall i, j :: i in v && j in InScope(items, s) - Elems(v) ==> Before(keys, i, j)
  {
    OrderedDistinct(cfg, items, s, now);
    var order := EvictionOrder(cfg, items, s, now);
    PrefixFirst(Keys(cfg.policy, items, s, now), order, AtMost(count, |order|));
  }

  lemma {:induction false} StableSortSame(keys: map<nat, real>, keys': map<nat, real>, s: seq<nat>)
    requires Keyed(keys, s) && Keyed(keys', s)
    requires forall a, b :: a in s && b in s ==> (keys[a] <= keys[b] <==> keys'[a] <= keys'[b])
    ensures StableSort(keys, s) == StableSort(keys', s)
  {
    if s != [] {
      StableSortSame(keys, keys', s[1..]);
      var r := StableSort(keys, s[1..]);
      assert forall a :: a in r ==> a in Elems(r);
      InsertSame(keys, keys', s[0], r);
    }
  }

  lemma {:induction false} InsertSame(keys: map<nat, real>, keys': map<nat, real>, x: nat, s: seq<nat>)
    requires x in keys && x in keys' && Keyed(keys, s) && Keyed(keys', s)
    requires forall b :: b in s ==> (keys[x] <= keys[b] <==> keys'[x] <= keys'[b])
    ensures Insert(keys, x, s) == Insert(keys', x, s)
  {
    if s != [] && keys[x] > keys[s[0]] {
      InsertSame(keys, keys', x, s[1..]);
    }
  }

  lemma KeyOrderTimeless(cfg: Settings, e: Entry, f: Entry, clock: nat, now: nat, later: nat)
    requires ValidSettings(cfg) && Faithful(cfg, e, clock) && Faithful(cfg, f, clock) && clock <= now <= later
    ensures KeyOf(cfg.policy, e, now) <= KeyOf(cfg.policy, f, now)
            <==> KeyOf(cfg.policy, e, later) <= KeyOf(cfg.policy, f, later)
  {
    if cfg.policy.RecencyWeighted? {
      RankingIsStable(e, f, cfg.policy.decay, now, later);
    }
  }

  lemma OrderTimeless(cfg: Settings, y: Sys, s: Scope, now: nat, later: nat)
    requires ValidSettings(cfg) && Laws.Healthy(cfg, y) && y.env.clock <= now <= later
    ensures EvictionOrder(cfg, y.items, s, now) == EvictionOrder(cfg, y.items, s, later)
  {
    hide KeyOf, Faithful, StableSort;
    var k, k' := Keys(cfg.policy, y.items, s, now), Keys(cfg.policy, y.items, s, later);
    var ids := SortedIds(InScope(y.items, s));
    assert forall i :: i in ids ==> i in Elems(ids);
    forall a, b | a in ids && b in ids
      ensures k[a] <= k[b] <==> k'[a] <= k'[b]
    {
      KeyOrderTimeless(cfg, y.items[a], y.items[b], y.env.clock, now, later);
    }
    StableSortSame(k, k', ids);
  }

  /** The choice of victims does not depend on when, after the last touch, the clock is read. */
  lemma VictimsTimeless(cfg: Settings, y: Sys, s: Scope, count: nat, now: nat, later: nat)
    requires ValidSettings(cfg) && Laws.Healthy(cfg, y) && y.env.clock <= now <= later
    ensures Victims(cfg, y.items, s, count, now) == Victims(cfg, y.items, s, count, later)
  {
    OrderTimeless(cfg, y, s, now, later);
  }

  // ---- bounds ---------------------------------------------------------------------------------

  ghost predicate WithinBounds(cfg: Settings, items: map<ItemId, Entry>) {
    forall s: Scope :: WithinBound(cfg, items, s)
  }

  lemma StillFits(cfg: Settings, items: map<ItemId, Entry>, items': map<ItemId, Entry>, s: Scope)
    requires WithinBound(cfg, items, s) && InScope(items', s) <= InScope(items, s)
    ensures WithinBound(cfg, items', s)
  {
    Agreement.SubsetSize(InScope(items', s), InScope(items, s));
  }

  lemma RelocatedScopes(items: map<ItemId, Entry>, ids: seq<ItemId>, from: Scope, to: Scope, arrival: Arrival, u: Scope)
    requires AllIn(items, ids, from) && u != to
    ensures InScope(Relocated(items, Elems(ids), to, arrival), u) <= InScope(items, u)
  {
  }

  /** After moving a checked list and enforcing from the target down, everything fits. */
  lemma MoveFits(cfg: Settings, y: Sys, ids: seq<ItemId>, from: Scope, to: Scope, arrival: Arrival, y1: Sys, u: Scope)
    requires WithinBounds(cfg, y.items) && Distinct(ids) && AllIn(y.items, ids, from)
    requires MoveAll(y, ids, to, arrival).ok && y1.items == MoveAll(y, ids, to, arrival).sys.items
    requires EnforceBounds(cfg, y1, to).ok
    ensures WithinBound(cfg, EnforceBounds(cfg, y1, to).sys.items, u)
  {
    if u.Rank() <= to.Rank() {
      EnforceFits(cfg, y1, to, u);
    } else {
      EnforceKeepsAbove(cfg, y1, to, u);
      var k := MoveAllMoves(y, ids, to, arrival);
      assert ids[..k] == ids;
      RelocatedScopes(y.items, ids, from, to, arrival, u);
      StillFits(cfg, y.items, EnforceBounds(cfg, y1, to).sys.items, u);
    }
  }

  lemma PromoteFits(cfg: Settings, y: Sys, ids: seq<ItemId>, from: Scope, to: Scope, u: Scope)
    requires WithinBounds(cfg, y.items) && DoPromote(cfg, y, ids, from, to).result != Err(Storage)
    ensures WithinBound(cfg, DoPromote(cfg, y, ids, from, to).sys.items, u)
  {
    var v := Unique(ids);
    if to.Rank() > from.Rank() && CheckEach(y.items, v, from).None? {
      CheckedInScope(y.items, v, from);
      MoveFits(cfg, y, v, from, to, Promoted, CountPromoted(MoveAll(y, v, to, Promoted).sys, |v|), u);
    }
  }

  lemma DemoteFits(cfg: Settings, y: Sys, s: Scope, ids: seq<ItemId>, to: Scope, u: Scope)
    requires WithinBounds(cfg, y.items) && DoDemote(cfg, y, s, ids, to).result != Err(Storage)
    ensures WithinBound(cfg, DoDemote(cfg, y, s, ids, to).sys.items, u)
  {
    var v := Unique(ids);
    if to.Rank() < s.Rank() && CheckEach(y.items, v, s).None? {
      CheckedInScope(y.items, v, s);
      MoveFits(cfg, y, v, s, to, Demoted, CountDemoted(MoveAll(y, v, to, Demoted).sys, |v|), u);
    }
  }

  lemma EvictByPolicyFits(cfg: Settings, y: Sys, s: Scope, count: nat, u: Scope)
    requires WithinBounds(cfg, y.items) && u.Rank() >= s.Rank() && EvictByPolicy(cfg, y, s, count).ok
    ensures WithinBound(cfg, EvictByPolicy(cfg, y, s, count).sys.items, u)
  {
    if u == s {
      EvictByPolicyLeaves(cfg, y, s, count);
    } else {
      EvictByPolicyCools(cfg, y, s, count);
      AboveKept(cfg, y, EvictByPolicy(cfg, y, s, count).sys, s, u);
    }
    assert WithinBound(cfg, y.items, u);
  }

  lemma EvictPolicyFits(cfg: Settings, y: Sys, s: Scope, count: nat, u: Scope)
    requires WithinBounds(cfg, y.items) && DoEvictPolicy(cfg, y, s, count).result != Err(Storage)
    ensures WithinBound(cfg, DoEvictPolicy(cfg, y, s, count).sys.items, u)
  {
    var d, c := EvictByPolicy(cfg, y, s, count), s.Colder();
    if u.Rank() >= s.Rank() {
      EvictByPolicyFits(cfg, y, s, count, u);
      if c.Some? { EnforceKeepsAbove(cfg, d.sys, c.value, u); }
    } else {
      EnforceFits(cfg, d.sys, c.value, u);
    }
  }

  lemma EvictItemsFits(cfg: Settings, y: Sys, s: Scope, ids: seq<ItemId>, u: Scope)
    requires WithinBounds(cfg, y.items) && DoEvictItems(y, s, ids).result != Err(Storage)
    ensures WithinBound(cfg, DoEvictItems(y, s, ids).sys.items, u)
  {
    var v := Unique(ids);
    if CheckEach(y.items, v, s).None? {
      CheckedInScope(y.items, v, s);
      DropAllDrops(y, v);
      StillFits(cfg, y.items, DropAll(y, v).sys.items, u);
    }
  }

  lemma AddFits(cfg: Settings, y: Sys, s: Scope, batch: seq<Item>, u: Scope)
    requires WithinBounds(cfg, y.items) && DoAddBatch(cfg, y, s, batch).result != Err(Storage)
    ensures WithinBound(cfg, DoAddBatch(cfg, y, s, batch).sys.items, u)
  {
    if FirstError(y.items, batch).None? {
      var d := Write(y, s, y.stores.Get(s) + EncodeAll(y.nextId, batch));
      var y1 := Register(d.sys, s, batch);
      if u.Rank() <= s.Rank() {
        EnforceFits(cfg, y1, s, u);
      } else {
        EnforceKeepsAbove(cfg, y1, s, u);
        StillFits(cfg, y.items, EnforceBounds(cfg, y1, s).sys.items, u);
      }
    }
  }

  lemma RaiseAndTrimFits(cfg: Settings, y: Sys, up: seq<ItemId>, mid: seq<ItemId>, u: Scope)
    requires WithinBounds(cfg, y.items) && Distinct(up) && Distinct(mid)
    requires AllIn(y.items, up, Major) && AllIn(y.items, mid, Minor)
    requires RaiseAndTrim(cfg, y, up, mid).ok
    ensures WithinBound(cfg, RaiseAndTrim(cfg, y, up, mid).sys.items, u)
  {
    var d := Raise(y, up, mid);
    var y1 := CountPromoted(d.sys, |up| + |mid|);
    if up != [] {
      EnforceFits(cfg, y1, Enduring, u);
    } else if mid != [] {
      assert d == MoveAll(y, mid, Major, Promoted);
      MoveFits(cfg, y, mid, Minor, Major, Promoted, y1, u);
    }
  }

  lemma QueryFits(cfg: Settings, y: Sys, sel: Selection, p: TriplePattern, limit: Option<nat>, u: Scope)
    requires WithinBounds(cfg, y.items) && DoQuery(cfg, y, sel, p, limit).result != Err(Storage)
    ensures WithinBound(cfg, DoQuery(cfg, y, sel, p, limit).sys.items, u)
  {
    var r := ScanScopes(y, Consulted(sel), p);
    var y1, hits := ReadClock(r.sys), Cut(r.hits, limit);
    assert Indexed(y1.items, hits);
    var y2 := Served(cfg, y1, hits);
    Steps.TouchAllPlaces(cfg, y1.items, hits, y1.env.clock);
    forall s: Scope
      ensures WithinBound(cfg, y2.items, s)
    {
      StillFits(cfg, y.items, y2.items, s);
    }
    if cfg.promotion.afterEachQuery {
      RaiseAndTrimFits(cfg, y2, DueEnduring(cfg, y2.items), DueMajor(cfg, y2.items, y1.env.clock), u);
    }
  }

  /** A state within its bounds stays within them through every operation that does not report a
      storage failure. */
  lemma ApplyFits(cfg: Settings, y: Sys, op: Op)
    requires WithinBounds(cfg, y.items) && Apply(cfg, y, op).result != Err(Storage)
    ensures WithinBounds(cfg, Apply(cfg, y, op).sys.items)
  {
    forall u: Scope
      ensures WithinBound(cfg, Apply(cfg, y, op).sys.items, u)
    {
      match op
      case AddBatch(s, batch) => AddFits(cfg, y, s, batch, u);
      case Remove(s, id) => StillFits(cfg, y.items, DoRemove(y, s, id).sys.items, u);
      case Query(sel, p, limit) => QueryFits(cfg, y, sel, p, limit, u);
      case Promote(ids, from, to) => PromoteFits(cfg, y, ids, from, to, u);
      case Evict(s, EvictItems(ids)) => EvictItemsFits(cfg, y, s, ids, u);
      case Evict(s, EvictDemote(ids, to)) => DemoteFits(cfg, y, s, ids, to, u);
      case Evict(s, EvictPolicy(count)) => EvictPolicyFits(cfg, y, s, count, u);
    }
  }

  /** The warmest tier that a successful operation has put something into and trimmed.  A query has raised
      something to enduring iff some major item was due. */
  function Landing(cfg: Settings, y: Sys, op: Op, v: Value): Option<Scope> {
    match op
    case AddBatch(s, _) => Some(s)
    case Promote(_, from, to) => if to == from then None else Some(to)
    case Evict(_, EvictDemote(_, to)) => Some(to)
    case Evict(s, EvictPolicy(_)) => s.Colder()
    case Query(_, _, _) =>
      if ReportedPromotions(op, v) == 0 then None
      else if ToEnduring(cfg, y.items) != {} then Some(Enduring)
      else Some(Major)
    case _ => None
  }

  lemma CitersSame(cfg: Settings, items: map<ItemId, Entry>, items': map<ItemId, Entry>)
    requires Steps.SamePlaces(items, items')
    ensures ToEnduring(cfg, items') == ToEnduring(cfg, items)
  {
    forall c
      ensures CitedBy(items', c) == CitedBy(items, c)
    {
    }
  }

  lemma RaiseAndTrimLands(cfg: Settings, y: Sys, up: seq<ItemId>, mid: seq<ItemId>, u: Scope)
    requires AllIn(y.items, up, Major) && AllIn(y.items, mid, Minor) && RaiseAndTrim(cfg, y, up, mid).ok
    requires |up| + |mid| > 0 && (up == [] ==> u.Rank() <= Major.Rank())
    ensures WithinBound(cfg, RaiseAndTrim(cfg, y, up, mid).sys.items, u)
  {
    hide Raise, EnforceBounds, WithinBound;
    var y1 := CountPromoted(Raise(y, up, mid).sys, |up| + |mid|);
    EnforceFits(cfg, y1, if up != [] then Enduring else Major, u);
  }

  lemma QueryLands(cfg: Settings, y: Sys, sel: Selection, p: TriplePattern, limit: Option<nat>, u: Scope)
    requires DoQuery(cfg, y, sel, p, limit).result.Ok?
    requires var landing := Landing(cfg, y, Query(sel, p, limit), DoQuery(cfg, y, sel, p, limit).result.value);
             landing.Some? && u.Rank() <= landing.value.Rank()
    ensures WithinBound(cfg, DoQuery(cfg, y, sel, p, limit).sys.items, u)
  {
    hide RaiseAndTrim, TouchAll, Results, WithinBound, Consulted, ScanScopes, ToMajor, ToEnduring, Steps.SamePlaces;
    var r := ScanScopes(y, Consulted(sel), p);
    var y1, hits := ReadClock(r.sys), Cut(r.hits, limit);
    assert Indexed(y1.items, hits);
    var y2 := Served(cfg, y1, hits);
    Steps.TouchAllPlaces(cfg, y1.items, hits, y1.env.clock);
    CitersSame(cfg, y.items, y2.items);
    RaiseAndTrimLands(cfg, y2, DueEnduring(cfg, y2.items), DueMajor(cfg, y2.items, y1.env.clock), u);
  }

  lemma PromoteLands(cfg: Settings, y: Sys, ids: seq<ItemId>, from: Scope, to: Scope, u: Scope)
    requires DoPromote(cfg, y, ids, from, to).result.Ok? && to != from && u.Rank() <= to.Rank()
    ensures WithinBound(cfg, DoPromote(cfg, y, ids, from, to).sys.items, u)
  {
    hide MoveAll, EnforceBounds, WithinBound;
    var v := Unique(ids);
    CheckedInScope(y.items, v, from);
    EnforceFits(cfg, CountPromoted(MoveAll(y, v, to, Promoted).sys, |v|), to, u);
  }

  lemma DemoteLands(cfg: Settings, y: Sys, s: Scope, ids: seq<ItemId>, to: Scope, u: Scope)
    requires DoDemote(cfg, y, s, ids, to).result.Ok? && u.Rank() <= to.Rank()
    ensures WithinBound(cfg, DoDemote(cfg, y, s, ids, to).sys.items, u)
  {
    hide MoveAll, EnforceBounds, WithinBound;
    var v := Unique(ids);
    CheckedInScope(y.items, v, s);
    EnforceFits(cfg, CountDemoted(MoveAll(y, v, to, Demoted).sys, |v|), to, u);
  }

  lemma AddLands(cfg: Settings, y: Sys, s: Scope, batch: seq<Item>, u: Scope)
    requires DoAddBatch(cfg, y, s, batch).result.Ok? && u.Rank() <= s.Rank()
    ensures WithinBound(cfg, DoAddBatch(cfg, y, s, batch).sys.items, u)
  {
    hide EnforceBounds, WithinBound, EncodeAll, FreshEntries;
    var d := Write(y, s, y.stores.Get(s) + EncodeAll(y.nextId, batch));
    EnforceFits(cfg, Register(d.sys, s, batch), s, u);
  }

  lemma EvictPolicyLands(cfg: Settings, y: Sys, s: Scope, count: nat, u: Scope)
    requires DoEvictPolicy(cfg, y, s, count).result.Ok? && u.Rank() < s.Rank()
    ensures WithinBound(cfg, DoEvictPolicy(cfg, y, s, count).sys.items, u)
  {
    hide EvictByPolicy, EnforceBounds, WithinBound;
    EnforceFits(cfg, EvictByPolicy(cfg, y, s, count).sys, s.Colder().value, u);
  }

  /** From any state, within its bounds or not (opening does not enforce them and a failed cascade can leave
      a tier over), a successful operation leaves the tier it lands in and every colder one within bounds. */
  lemma LandingFits(cfg: Settings, y: Sys, op: Op, u: Scope)
    requires Apply(cfg, y, op).result.Ok?
    requires var landing := Landing(cfg, y, op, Apply(cfg, y, op).result.value);
             landing.Some? && u.Rank() <= landing.value.Rank()
    ensures WithinBound(cfg, Apply(cfg, y, op).sys.items, u)
  {
    hide DoAddBatch, DoRemove, DoQuery, DoPromote, DoEvictItems, DoDemote, DoEvictPolicy, WithinBound;
    match op
    case AddBatch(s, batch) => AddLands(cfg, y, s, batch, u);
    case Query(sel, p, limit) => QueryLands(cfg, y, sel, p, limit, u);
    case Promote(ids, from, to) => PromoteLands(cfg, y, ids, from, to, u);
    case Evict(s, EvictDemote(ids, to)) => DemoteLands(cfg, y, s, ids, to, u);
    case Evict(s, EvictPolicy(count)) => EvictPolicyLands(cfg, y, s, count, u);
    case _ => assert false;
  }

  // ---- what evict reports ---------------------------------------------------------------------

  /** The reply is the number of items the tier lost. */
  predicate ReportsLoss(y: Sys, r: Reply, s: Scope) {
    && r.result.Ok? && r.result.value.Count?
    && r.result.value.count + |InScope(r.sys.items, s)| == |InScope(y.items, s)|
  }

  lemma LossIs(y: Sys, r: Reply, s: Scope, v: seq<ItemId>)
    requires Distinct(v) && AllIn(y.items, v, s) && InScope(r.sys.items, s) == InScope(y.items, s) - Elems(v)
    requires r.result == Ok(Count(|v|))
    ensures ReportsLoss(y, r, s)
  {
    DistinctSize(v);
    LessSize(InScope(y.items, s), Elems(v));
  }

  lemma RelocatedAway(items: map<ItemId, Entry>, v: seq<ItemId>, s: Scope, to: Scope, arrival: Arrival)
    requires s != to
    ensures InScope(Relocated(items, Elems(v), to, arrival), s) == InScope(items, s) - Elems(v)
  {
  }

  lemma DemoteReport(cfg: Settings, y: Sys, s: Scope, ids: seq<ItemId>, to: Scope)
    requires DoDemote(cfg, y, s, ids, to).result.Ok?
    ensures ReportsLoss(y, DoDemote(cfg, y, s, ids, to), s)
  {
    var v := Unique(ids);
    CheckedInScope(y.items, v, s);
    var k := MoveAllMoves(y, v, to, Demoted);
    assert v[..k] == v;
    RelocatedAway(y.items, v, s, to, Demoted);
    EnforceKeepsAbove(cfg, CountDemoted(MoveAll(y, v, to, Demoted).sys, |v|), to, s);
    LossIs(y, DoDemote(cfg, y, s, ids, to), s, v);
  }

  lemma EvictItemsReport(y: Sys, s: Scope, ids: seq<ItemId>)
    requires DoEvictItems(y, s, ids).result.Ok?
    ensures ReportsLoss(y, DoEvictItems(y, s, ids), s)
  {
    var v := Unique(ids);
    CheckedInScope(y.items, v, s);
    DropAllDrops(y, v);
    LossIs(y, DoEvictItems(y, s, ids), s, v);
  }

  lemma EvictPolicyReport(cfg: Settings, y: Sys, s: Scope, count: nat)
    requires DoEvictPolicy(cfg, y, s, count).result.Ok?
    ensures ReportsLoss(y, DoEvictPolicy(cfg, y, s, count), s)
  {
    EvictByPolicyLeaves(cfg, y, s, count);
    if s.Colder().Some? {
      EnforceKeepsAbove(cfg, EvictByPolicy(cfg, y, s, count).sys, s.Colder().value, s);
    }
  }

  /** `evict` returns exactly how much its tier shrank, whatever the cascade below it did. */
  lemma EvictReport(cfg: Settings, y: Sys, s: Scope, c: Criteria)
    requires DoEvict(cfg, y, s, c).result.Ok?
    ensures ReportsLoss(y, DoEvict(cfg, y, s, c), s)
  {
    match c
    case EvictItems(ids) => EvictItemsReport(y, s, ids);
    case EvictDemote(ids, to) => DemoteReport(cfg, y, s, ids, to);
    case EvictPolicy(count) => EvictPolicyReport(cfg, y, s, count);
  }

  // ---- thrashing ------------------------------------------------------------------------------

  /** Demotions the caller asked for by name. */
  function AskedDemotions(op: Op, result: Result<Value>): nat {
    if op.Evict? && op.criteria.EvictDemote? && result.Ok? && result.value.Count? then result.value.count else 0
  }

  function NetBurden(y: Sys): int {
    Burden(y) - y.stats.promoted
  }

  lemma RelocatedPromoted(items: map<ItemId, Entry>, ids: seq<ItemId>, to: Scope, arrival: Arrival)
    ensures |PromotedLive(Relocated(items, Elems(ids), to, arrival))|
            <= |PromotedLive(items)| + if arrival.Promoted? then |ids| else 0
  {
    var a, b := PromotedLive(Relocated(items, Elems(ids), to, arrival)), PromotedLive(items);
    if arrival.Promoted? {
      Agreement.SubsetSize(a, b + Elems(ids));
      ElemsSize(ids);
      UnionSize(b, Elems(ids));
    } else {
      Agreement.SubsetSize(a, b);
    }
  }

  lemma {:induction false} ElemsSize(ids: seq<ItemId>)
    ensures |Elems(ids)| <= |ids|
  {
    if ids != [] {
      ElemsSize(ids[1..]);
      HeadTail(ids);
    }
  }

  lemma UnionSize(a: set<ItemId>, b: set<ItemId>)
    ensures |a + b| <= |a| + |b|
  {
    assert a + b == a + (b - a);
    Agreement.SubsetSize(b - a, b);
  }

  /** A successful list move, booked. */
  lemma MoveBurden(cfg: Settings, y: Sys, ids: seq<ItemId>, to: Scope, arrival: Arrival)
    requires Distinct(ids) && (forall i :: i in ids ==> i in y.items) && MoveAll(y, ids, to, arrival).ok
    ensures var y' := MoveAll(y, ids, to, arrival).sys;
            NetBurden(y') <= NetBurden(y) + if arrival.Promoted? then |ids| else 0
  {
    var k := MoveAllMoves(y, ids, to, arrival);
    assert ids[..k] == ids;
    MoveAllBooks(y, ids, to, arrival);
    RelocatedPromoted(y.items, ids, to, arrival);
  }

  lemma EnforceBurden(cfg: Settings, y: Sys, s: Scope)
    requires cfg.target.OneStepThenDrop?
    ensures NetBurden(EnforceBounds(cfg, y, s).sys) <= NetBurden(y)
  {
    EnforceCools(cfg, y, s);
  }

  lemma RaiseAndTrimBurden(cfg: Settings, y: Sys, up: seq<ItemId>, mid: seq<ItemId>)
    requires cfg.target.OneStepThenDrop? && Distinct(up) && Distinct(mid)
    requires AllIn(y.items, up, Major) && AllIn(y.items, mid, Minor)
    requires RaiseAndTrim(cfg, y, up, mid).ok
    ensures NetBurden(RaiseAndTrim(cfg, y, up, mid).sys) <= NetBurden(y)
  {
    MoveBurden(cfg, y, up, Enduring, Promoted);
    var d := MoveAll(y, up, Enduring, Promoted);
    MoveBurden(cfg, d.sys, mid, Major, Promoted);
    var y1 := CountPromoted(Raise(y, up, mid).sys, |up| + |mid|);
    assert NetBurden(y1) <= NetBurden(y);
    EnforceBurden(cfg, y1, Enduring);
    EnforceBurden(cfg, y1, Major);
  }

  lemma QueryBurden(cfg: Settings, y: Sys, sel: Selection, p: TriplePattern, limit: Option<nat>)
    requires cfg.target.OneStepThenDrop? && DoQuery(cfg, y, sel, p, limit).result != Err(Storage)
    ensures NetBurden(DoQuery(cfg, y, sel, p, limit).sys) <= NetBurden(y)
  {
    var r := ScanScopes(y, Consulted(sel), p);
    Steps.ScanUnmoved(y, Consulted(sel), p);
    var y1, hits := ReadClock(r.sys), Cut(r.hits, limit);
    assert Indexed(y1.items, hits);
    var y2 := Served(cfg, y1, hits);
    Steps.TouchAllPlaces(cfg, y1.items, hits, y1.env.clock);
    assert PromotedLive(y2.items) == PromotedLive(y.items);
    if cfg.promotion.afterEachQuery {
      RaiseAndTrimBurden(cfg, y2, DueEnduring(cfg, y2.items), DueMajor(cfg, y2.items, y1.env.clock));
    }
  }

  lemma PromoteBurden(cfg: Settings, y: Sys, ids: seq<ItemId>, from: Scope, to: Scope)
    requires cfg.target.OneStepThenDrop? && DoPromote(cfg, y, ids, from, to).result != Err(Storage)
    ensures NetBurden(DoPromote(cfg, y, ids, from, to).sys) <= NetBurden(y)
  {
    var v := Unique(ids);
    if to.Rank() > from.Rank() && CheckEach(y.items, v, from).None? {
      CheckedInScope(y.items, v, from);
      MoveBurden(cfg, y, v, to, Promoted);
      EnforceBurden(cfg, CountPromoted(MoveAll(y, v, to, Promoted).sys, |v|), to);
    }
  }

  lemma DemoteBurden(cfg: Settings, y: Sys, s: Scope, ids: seq<ItemId>, to: Scope)
    requires cfg.target.OneStepThenDrop? && DoDemote(cfg, y, s, ids, to).result != Err(Storage)
    ensures var r := DoDemote(cfg, y, s, ids, to);
            NetBurden(r.sys) <= NetBurden(y) + if r.result.Ok? then |Unique(ids)| else 0
    ensures var r := DoDemote(cfg, y, s, ids, to); r.result.Ok? ==> r.result == Ok(Count(|Unique(ids)|))
  {
    var v := Unique(ids);
    if to.Rank() < s.Rank() && CheckEach(y.items, v, s).None? {
      CheckedInScope(y.items, v, s);
      MoveBurden(cfg, y, v, to, Demoted);
      EnforceBurden(cfg, CountDemoted(MoveAll(y, v, to, Demoted).sys, |v|), to);
    }
  }

  lemma AddBurden(cfg: Settings, y: Sys, s: Scope, batch: seq<Item>)
    requires cfg.target.OneStepThenDrop? && DoAddBatch(cfg, y, s, batch).result != Err(Storage)
    ensures NetBurden(DoAddBatch(cfg, y, s, batch).sys) <= NetBurden(y)
  {
    if FirstError(y.items, batch).None? {
      var d := Write(y, s, y.stores.Get(s) + EncodeAll(y.nextId, batch));
      var y1 := Register(d.sys, s, batch);
      Agreement.SubsetSize(PromotedLive(y1.items), PromotedLive(y.items));
      EnforceBurden(cfg, y1, s);
    }
  }

  /** One-step demotion cannot thrash: demotions made by policy plus the demotions still owed to promoted
      items grow no faster than promotions. */
  lemma ApplyBurden(cfg: Settings, y: Sys, op: Op)
    requires cfg.target.OneStepThenDrop? && Apply(cfg, y, op).result != Err(Storage)
    ensures var r := Apply(cfg, y, op);
            NetBurden(r.sys) <= NetBurden(y) + AskedDemotions(op, r.result)
  {
    match op
    case AddBatch(s, batch) => AddBurden(cfg, y, s, batch);
    case Remove(s, id) => Agreement.SubsetSize(PromotedLive(DoRemove(y, s, id).sys.items), PromotedLive(y.items));
    case Query(sel, p, limit) => QueryBurden(cfg, y, sel, p, limit);
    case Promote(ids, from, to) => PromoteBurden(cfg, y, ids, from, to);
    case Evict(s, EvictItems(ids)) => Laws.EvictItemsCools(cfg, y, s, ids);
    case Evict(s, EvictDemote(ids, to)) => DemoteBurden(cfg, y, s, ids, to);
    case Evict(s, EvictPolicy(count)) => Laws.EvictPolicyCools(cfg, y, s, count);
  }

  /** A promoted victim is never dropped outright under one-step demotion. */
  lemma PromotedVictimsStepDown(cfg: Settings, y: Sys, s: Scope, id: ItemId)
    requires cfg.target.OneStepThenDrop? && Laws.Healthy(cfg, y)
    requires id in y.items && y.items[id].scope == s && y.items[id].arrival.Promoted?
    requires EvictOne(cfg, y, s, id).ok
    ensures var y' := EvictOne(cfg, y, s, id).sys;
            id in y'.items && Some(y'.items[id].scope) == s.Colder() && y'.items[id].arrival.Demoted?
  {
    EvictOneOutcomes(cfg, y, s, id);
  }

  // ---- auto-promotion -------------------------------------------------------------------------

  /** Where auto-promotion sends an item, judged on the state before anything moves: a major item cited by
      more than the threshold of other live items, a minor item accessed more than the threshold within
      the window since it was added or last demoted. */
  ghost function PromotionOf(cfg: Settings, items: map<ItemId, Entry>, i: ItemId, now: nat): Scope
    requires i in items
  {
    if items[i].scope == Major && |CitedBy(items, i)| > cfg.promotion.majorToEnduringReferences then Enduring
    else if items[i].scope == Minor
            && InWindow(items[i].visits, now, cfg.promotion.minorWindow) > cfg.promotion.minorToMajorAccesses then Major
    else items[i].scope
  }

  lemma RaiseItems(y: Sys, up: seq<ItemId>, mid: seq<ItemId>)
    requires AllIn(y.items, up, Major) && AllIn(y.items, mid, Minor) && Distinct(up) && Distinct(mid)
    requires Raise(y, up, mid).ok
    ensures Raise(y, up, mid).sys.items
            == Relocated(Relocated(y.items, Elems(up), Enduring, Promoted), Elems(mid), Major, Promoted)
  {
    var d := MoveAll(y, up, Enduring, Promoted);
    var k := MoveAllMoves(y, up, Enduring, Promoted);
    assert up[..k] == up;
    var m := MoveAllMoves(d.sys, mid, Major, Promoted);
    assert mid[..m] == mid;
  }

  lemma RaiseItemAt(y: Sys, up: seq<ItemId>, mid: seq<ItemId>, i: ItemId)
    requires AllIn(y.items, up, Major) && AllIn(y.items, mid, Minor) && Distinct(up) && Distinct(mid)
    requires Raise(y, up, mid).ok && i in y.items
    ensures var y' := Raise(y, up, mid).sys;
            && i in y'.items
            && y'.items[i] == if i in up then Relocate(y.items[i], Enduring, Promoted)
                              else if i in mid then Relocate(y.items[i], Major, Promoted)
                              else y.items[i]
  {
    RaiseItems(y, up, mid);
    assert i in up ==> i !in mid;
  }

  lemma DueAre(cfg: Settings, y: Sys, now: nat, i: ItemId)
    requires Laws.Healthy(cfg, y) && y.env.clock <= now && i in y.items
    ensures i in DueEnduring(cfg, y.items)
            <==> y.items[i].scope == Major && |CitedBy(y.items, i)| > cfg.promotion.majorToEnduringReferences
    ensures i in DueMajor(cfg, y.items, now)
            <==> && y.items[i].scope == Minor
                 && InWindow(y.items[i].visits, now, cfg.promotion.minorWindow) > cfg.promotion.minorToMajorAccesses
  {
    PrunedQueueIsExact(cfg, y.items[i], y.env.clock, now);
    var up, mid := ToEnduring(cfg, y.items), ToMajor(cfg, y.items, now);
    assert i in SortedIds(up) <==> i in Elems(SortedIds(up));
    assert i in SortedIds(mid) <==> i in Elems(SortedIds(mid));
  }

  lemma PromotionIs(cfg: Settings, y: Sys, now: nat, i: ItemId)
    requires Laws.Healthy(cfg, y) && y.env.clock <= now && i in y.items
    ensures PromotionOf(cfg, y.items, i, now)
            == if i in DueEnduring(cfg, y.items) then Enduring
               else if i in DueMajor(cfg, y.items, now) then Major
               else y.items[i].scope
  {
    DueAre(cfg, y, now, i);
  }

  lemma RaiseSends(y: Sys, up: seq<ItemId>, mid: seq<ItemId>, i: ItemId, to: Scope)
    requires AllIn(y.items, up, Major) && AllIn(y.items, mid, Minor) && Distinct(up) && Distinct(mid)
    requires Raise(y, up, mid).ok && i in y.items
    requires to == if i in up then Enduring else if i in mid then Major else y.items[i].scope
    ensures Sent(y, Raise(y, up, mid).sys, i, to)
  {
    RaiseItemAt(y, up, mid, i);
  }

  /** The item is in `to`; if that is a new place it arrived by promotion, otherwise nothing changed. */
  predicate Sent(y: Sys, y': Sys, i: ItemId, to: Scope)
    requires i in y.items
  {
    && i in y'.items && y'.items[i].scope == to
    && (to != y.items[i].scope ==> y'.items[i].arrival.Promoted?)
    && (to == y.items[i].scope ==> y'.items[i] == y.items[i])
  }

  /** The moves of auto-promotion send exactly the right items to exactly the right tier. */
  lemma AutoPromoteExact(cfg: Settings, y: Sys, now: nat, i: ItemId)
    requires Laws.Healthy(cfg, y) && y.env.clock <= now && i in y.items
    requires Raise(y, DueEnduring(cfg, y.items), DueMajor(cfg, y.items, now)).ok
    ensures Sent(y, Raise(y, DueEnduring(cfg, y.items), DueMajor(cfg, y.items, now)).sys, i,
                 PromotionOf(cfg, y.items, i, now))
  {
    PromotionIs(cfg, y, now, i);
    RaiseSends(y, DueEnduring(cfg, y.items), DueMajor(cfg, y.items, now), i, PromotionOf(cfg, y.items, i, now));
  }

  lemma RaiseOneTier(y: Sys, up: seq<ItemId>, mid: seq<ItemId>, i: ItemId)
    requires AllIn(y.items, up, Major) && AllIn(y.items, mid, Minor) && Distinct(up) && Distinct(mid)
    requires i in Raise(y, up, mid).sys.items
    ensures i in y.items && Raise(y, up, mid).sys.items[i].scope.Rank() <= y.items[i].scope.Rank() + 1
  {
    var d := MoveAll(y, up, Enduring, Promoted);
    var k := MoveAllMoves(y, up, Enduring, Promoted);
    assert forall j :: j in Elems(up[..k]) ==> j in up;
    if d.ok {
      var m := MoveAllMoves(d.sys, mid, Major, Promoted);
      assert forall j :: j in Elems(mid[..m]) ==> j in mid;
    }
  }

  lemma RaiseAndTrimOneTier(cfg: Settings, y: Sys, up: seq<ItemId>, mid: seq<ItemId>, i: ItemId)
    requires AllIn(y.items, up, Major) && AllIn(y.items, mid, Minor) && Distinct(up) && Distinct(mid)
    requires i in RaiseAndTrim(cfg, y, up, mid).sys.items
    ensures i in y.items && RaiseAndTrim(cfg, y, up, mid).sys.items[i].scope.Rank() <= y.items[i].scope.Rank() + 1
  {
    var d := Raise(y, up, mid);
    if d.ok {
      var y1 := CountPromoted(d.sys, |up| + |mid|);
      EnforceCools(cfg, y1, Enduring);
      EnforceCools(cfg, y1, Major);
    }
    RaiseOneTier(y, up, mid, i);
  }

  /** After any query, its auto-promotion and the cascade it triggers, whatever fails, no surviving item
      is more than one tier above where it was. */
  lemma QueryRaisesOneTier(cfg: Settings, y: Sys, sel: Selection, p: TriplePattern, limit: Option<nat>, i: ItemId)
    requires i in DoQuery(cfg, y, sel, p, limit).sys.items
    ensures i in y.items
    ensures DoQuery(cfg, y, sel, p, limit).sys.items[i].scope.Rank() <= y.items[i].scope.Rank() + 1
  {
    var r := ScanScopes(y, Consulted(sel), p);
    if r.ok {
      var y1, hits := ReadClock(r.sys), Cut(r.hits, limit);
      assert Indexed(y1.items, hits);
      var y2 := Served(cfg, y1, hits);
      Steps.TouchAllPlaces(cfg, y1.items, hits, y1.env.clock);
      if cfg.promotion.afterEachQuery {
        RaiseAndTrimOneTier(cfg, y2, DueEnduring(cfg, y2.items), DueMajor(cfg, y2.items, y1.env.clock), i);
      }
    }
  }

  // ---- the books ------------------------------------------------------------------------------

  /** A refused operation changes nothing at all. */
  lemma RefusedChangesNothing(cfg: Settings, y: Sys, op: Op)
    requires Apply(cfg, y, op).result.Err? && Apply(cfg, y, op).result != Err(Storage)
    ensures Apply(cfg, y, op).sys == y
  {
  }

  /** Promotions an operation reports. */
  function ReportedPromotions(op: Op, v: Value): nat {
    if op.Promote? && v.Count? then v.count else if v.Found? then v.answer.autoPromoted else 0
  }

  lemma RaiseBooks(cfg: Settings, y: Sys, up: seq<ItemId>, mid: seq<ItemId>)
    requires AllIn(y.items, up, Major) && AllIn(y.items, mid, Minor) && RaiseAndTrim(cfg, y, up, mid).ok
    ensures RaiseAndTrim(cfg, y, up, mid).sys.stats.promoted == y.stats.promoted + |up| + |mid|
  {
    MoveAllBooks(y, up, Enduring, Promoted);
    MoveAllBooks(MoveAll(y, up, Enduring, Promoted).sys, mid, Major, Promoted);
    var y1 := CountPromoted(Raise(y, up, mid).sys, |up| + |mid|);
    EnforceCools(cfg, y1, Enduring);
    EnforceCools(cfg, y1, Major);
  }

  lemma QueryBooks(cfg: Settings, y: Sys, sel: Selection, p: TriplePattern, limit: Option<nat>)
    requires DoQuery(cfg, y, sel, p, limit).result.Ok?
    ensures var r := DoQuery(cfg, y, sel, p, limit);
            && r.result.value.Found? && r.sys.stats.queries == y.stats.queries + 1
            && r.sys.stats.promoted == y.stats.promoted + r.result.value.answer.autoPromoted
  {
    var r := ScanScopes(y, Consulted(sel), p);
    Steps.ScanUnmoved(y, Consulted(sel), p);
    var y1, hits := ReadClock(r.sys), Cut(r.hits, limit);
    assert Indexed(y1.items, hits);
    var y2 := Served(cfg, y1, hits);
    if cfg.promotion.afterEachQuery {
      var up, mid := DueEnduring(cfg, y2.items), DueMajor(cfg, y2.items, y1.env.clock);
      RaiseBooks(cfg, y2, up, mid);
      Laws.RaiseAndTrimFlows(cfg, y2, up, mid);
    }
  }

  lemma PromoteBooks(cfg: Settings, y: Sys, ids: seq<ItemId>, from: Scope, to: Scope)
    requires DoPromote(cfg, y, ids, from, to).result.Ok?
    ensures var r := DoPromote(cfg, y, ids, from, to);
            r.result.value.Count? && r.sys.stats.promoted == y.stats.promoted + r.result.value.count
  {
    var v := Unique(ids);
    if to != from {
      CheckedInScope(y.items, v, from);
      MoveAllBooks(y, v, to, Promoted);
      EnforceCools(cfg, CountPromoted(MoveAll(y, v, to, Promoted).sys, |v|), to);
    }
  }

  lemma AddBooks(cfg: Settings, y: Sys, s: Scope, batch: seq<Item>)
    requires DoAddBatch(cfg, y, s, batch).result.Ok?
    ensures var r := DoAddBatch(cfg, y, s, batch);
            && r.result == Ok(Ids(NewIds(y.nextId, |batch|)))
            && r.sys.stats.added == y.stats.added + |batch| && r.sys.stats.promoted == y.stats.promoted
  {
    var d := Write(y, s, y.stores.Get(s) + EncodeAll(y.nextId, batch));
    EnforceCools(cfg, Register(d.sys, s, batch), s);
  }

  lemma DemoteBooks(cfg: Settings, y: Sys, s: Scope, ids: seq<ItemId>, to: Scope)
    ensures DoDemote(cfg, y, s, ids, to).sys.stats.promoted == y.stats.promoted
  {
    var v := Unique(ids);
    if to.Rank() < s.Rank() && CheckEach(y.items, v, s).None? {
      CheckedInScope(y.items, v, s);
      MoveAllBooks(y, v, to, Demoted);
      EnforceCools(cfg, CountDemoted(MoveAll(y, v, to, Demoted).sys, |v|), to);
    }
  }

  /** Promotions are booked exactly as the operations report them, and by no other operation. */
  lemma PromotionsBooked(cfg: Settings, y: Sys, op: Op)
    requires Apply(cfg, y, op).result.Ok?
    ensures var r := Apply(cfg, y, op);
            r.sys.stats.promoted == y.stats.promoted + ReportedPromotions(op, r.result.value)
  {
    match op
    case AddBatch(s, batch) => AddBooks(cfg, y, s, batch);
    case Remove(s, id) =>
    case Query(sel, p, limit) => QueryBooks(cfg, y, sel, p, limit);
    case Promote(ids, from, to) => PromoteBooks(cfg, y, ids, from, to);
    case Evict(s, EvictItems(ids)) => Laws.EvictItemsCools(cfg, y, s, ids);
    case Evict(s, EvictDemote(ids, to)) => DemoteBooks(cfg, y, s, ids, to);
    case Evict(s, EvictPolicy(count)) => Laws.EvictPolicyCools(cfg, y, s, count);
  }

  // ---- promotions that a failure leaves out of the books --------------------------------------

  /** How many storage steps succeed before the first that fails. */
  function Successes(faults: seq<bool>): nat {
    if faults == [] || faults[0] then 0 else 1 + Successes(faults[1..])
  }

  predicate FaultFree(faults: seq<bool>, n: nat) {
    forall j :: 0 <= j < n && j < |faults| ==> !faults[j]
  }

  function Remaining(faults: seq<bool>, n: nat): seq<bool> {
    if n >= |faults| then [] else faults[n..]
  }

  /** The live items that are in a warmer tier than before. */
  function Risen(y: Sys, y': Sys): set<ItemId> {
    set i | i in y.items && i in y'.items && y'.items[i].scope.Rank() > y.items[i].scope.Rank()
  }

  lemma MoveReaches(y: Sys, id: ItemId, to: Scope, arrival: Arrival)
    requires id in y.items
    ensures var d, f := MoveItem(y, id, to, arrival), y.env.faults;
            && (d.ok <==> FaultFree(f, 2))
            && (d.ok ==> d.sys.env.faults == Remaining(f, 2))
            && (!d.ok ==> Successes(f) < 2)
  {
    hide Layout.Encode, Layout.DeleteItem, Relocate;
  }

  /** A script seen after `a` steps that succeed. */
  lemma {:induction false} FaultSplit(f: seq<bool>, a: nat, n: nat)
    requires FaultFree(f, a)
    ensures FaultFree(f, a + n) <==> FaultFree(Remaining(f, a), n)
    ensures Remaining(f, a + n) == Remaining(Remaining(f, a), n)
    ensures !FaultFree(f, a + n) ==> Successes(f) == Successes(Remaining(f, a)) + a
    decreases a
  {
    var g := Remaining(f, a);
    assert forall j :: 0 <= j < |g| ==> g[j] == f[j + a];
    if a > 0 && f != [] {
      var h := f[1..];
      assert forall j :: 0 <= j < |h| ==> h[j] == f[j + 1];
      FaultSplit(h, a - 1, n);
      assert Remaining(h, a - 1) == g;
      assert !f[0];
    }
  }

  /** Moves of a list run until the script fails: two steps each. */
  lemma {:induction false} MoveAllReaches(y: Sys, ids: seq<ItemId>, to: Scope, arrival: Arrival)
    requires Distinct(ids) && forall i :: i in ids ==> i in y.items
    ensures var d, f := MoveAll(y, ids, to, arrival), y.env.faults;
            && (d.ok <==> FaultFree(f, 2 * |ids|))
            && (d.ok ==> d.sys.env.faults == Remaining(f, 2 * |ids|))
            && (!d.ok ==> Successes(f) / 2 < |ids|)
            && (!d.ok ==> d.sys.items == Relocated(y.items, Elems(ids[..Successes(f) / 2]), to, arrival))
    decreases |ids|
  {
    hide MoveItem, Relocate, Relocated, FaultFree, Remaining, Successes;
    var f := y.env.faults;
    NoSteps(f);
    if ids != [] {
      var d, rest := MoveItem(y, ids[0], to, arrival), ids[1..];
      MoveOneMoves(y, ids[0], to, arrival);
      MoveReaches(y, ids[0], to, arrival);
      if d.ok {
        MoveAllReaches(d.sys, rest, to, arrival);
        FaultSplit(f, 2, 2 * |rest|);
        if !FaultFree(f, 2 * |ids|) {
          var m := Successes(d.sys.env.faults) / 2;
          assert ids[..m + 1][1..] == rest[..m];
          HeadTail(ids[..m + 1]);
          RelocateMore(y.items, ids[0], Elems(rest[..m]), to, arrival);
        }
      } else {
        FewerFaults(f, 2, 2 * |ids|);
        RelocateNone(y.items, to, arrival);
        assert ids[..0] == [];
      }
    }
  }

  lemma NoSteps(f: seq<bool>)
    ensures FaultFree(f, 0) && Remaining(f, 0) == f
  {
  }

  lemma FewerFaults(f: seq<bool>, m: nat, n: nat)
    requires m <= n
    ensures FaultFree(f, n) ==> FaultFree(f, m)
  {
  }

  lemma RisenAre(y: Sys, y': Sys, ids: seq<ItemId>, from: Scope, to: Scope)
    requires Distinct(ids) && AllIn(y.items, ids, from) && to.Rank() > from.Rank()
    requires y'.items == Relocated(y.items, Elems(ids), to, Promoted)
    ensures Risen(y, y') == Elems(ids) && |Risen(y, y')| == |ids|
  {
    hide Distinct;
    DistinctSize(ids);
  }

  /** A promotion that reports a storage failure is booked whole if its moves were done and only the cascade
      failed.  Otherwise it is not booked at all, although the items whose two commits succeeded, one for
      every two steps before the failure, have risen. */
  lemma PromoteShortfall(cfg: Settings, y: Sys, ids: seq<ItemId>, from: Scope, to: Scope)
    requires DoPromote(cfg, y, ids, from, to).result == Err(Storage)
    ensures var r, u, n := DoPromote(cfg, y, ids, from, to), Unique(ids), Successes(y.env.faults) / 2;
            && (FaultFree(y.env.faults, 2 * |u|) ==> r.sys.stats.promoted == y.stats.promoted + |u|)
            && (!FaultFree(y.env.faults, 2 * |u|) ==>
                  && n < |u| && r.sys.stats.promoted == y.stats.promoted
                  && Risen(y, r.sys) == Elems(u[..n]) && |Risen(y, r.sys)| == n)
  {
    hide MoveAll, EnforceBounds, Relocated, Successes, FaultFree, Risen, Cools;
    var u, n := Unique(ids), Successes(y.env.faults) / 2;
    Steps.ChecksAreNotStorage(y.items, u, from);
    CheckedInScope(y.items, u, from);
    MoveAllReaches(y, u, to, Promoted);
    MoveAllBooks(y, u, to, Promoted);
    var d := MoveAll(y, u, to, Promoted);
    if d.ok {
      CascadeKeepsPromoted(cfg, CountPromoted(d.sys, |u|), to);
    } else {
      PrefixDistinct(u, n);
      assert AllIn(y.items, u[..n], from);
      RisenAre(y, d.sys, u[..n], from, to);
    }
  }

  lemma CascadeKeepsPromoted(cfg: Settings, y: Sys, s: Scope)
    ensures EnforceBounds(cfg, y, s).sys.stats.promoted == y.stats.promoted
  {
    EnforceCools(cfg, y, s);
  }

  /** Two promoted items, the third storage step failing: the first has risen and nothing is booked. */
  lemma UnbookedPromotion(cfg: Settings, y: Sys, a: ItemId, b: ItemId)
    requires a != b && Agreement.AtHome(y.items, Minor, a) && Agreement.AtHome(y.items, Minor, b)
    requires y.env.faults == [false, false, true]
    ensures var r := DoPromote(cfg, y, [a, b], Minor, Major);
            && r.result == Err(Storage) && r.sys.stats.promoted == y.stats.promoted
            && Risen(y, r.sys) == {a}
  {
    hide MoveAll, Risen, EnforceBounds, Relocated;
    var u := Unique([a, b]);
    assert u == [a, b] by { UniquePair(a, b); }
    CheckedInScope(y.items, u, Minor);
    assert Successes(y.env.faults) == 2 by { assert Successes([true]) == 0; assert Successes([false, true]) == 1; }
    assert !FaultFree(y.env.faults, 4);
    MoveAllReaches(y, u, Major, Promoted);
    PromoteShortfall(cfg, y, [a, b], Minor, Major);
    assert Elems(u[..1]) == {a};
  }

  lemma UniquePair(a: ItemId, b: ItemId)
    requires a != b
    ensures Unique([a, b]) == [a, b]
  {
    assert [a, b][..1] == [a];
    assert [a][..0] == [];
    assert Unique([a]) == [a];
  }

  /** The same for auto-promotion: booked whole once all moves are done, whatever the cascade does, and
      otherwise not at all, although one item has risen for every two steps before the failure. */
  lemma RaiseShortfall(cfg: Settings, y: Sys, up: seq<ItemId>, mid: seq<ItemId>)
    requires AllIn(y.items, up, Major) && AllIn(y.items, mid, Minor) && Distinct(up) && Distinct(mid)
    ensures var d, f := RaiseAndTrim(cfg, y, up, mid), y.env.faults;
            && (FaultFree(f, 2 * (|up| + |mid|)) ==> d.sys.stats.promoted == y.stats.promoted + |up| + |mid|)
            && (!FaultFree(f, 2 * (|up| + |mid|)) ==>
                  && !d.ok && d.sys.stats.promoted == y.stats.promoted
                  && |Risen(y, d.sys)| == Successes(f) / 2 < |up| + |mid|)
  {
    hide MoveAll, EnforceBounds, Relocated, Successes, FaultFree, Remaining, Risen, Distinct;
    var f, a, b := y.env.faults, 2 * |up|, 2 * |mid|;
    var d1 := MoveAll(y, up, Enduring, Promoted);
    MoveAllReaches(y, up, Enduring, Promoted);
    MoveAllBooks(y, up, Enduring, Promoted);
    if !d1.ok {
      FewerFaults(f, a, a + b);
      PrefixDistinct(up, Successes(f) / 2);
      RisenAre(y, d1.sys, up[..Successes(f) / 2], Major, Enduring);
    } else {
      var d2 := MoveAll(d1.sys, mid, Major, Promoted);
      FaultSplit(f, a, b);
      MoveAllReaches(d1.sys, mid, Major, Promoted);
      MoveAllBooks(d1.sys, mid, Major, Promoted);
      if d2.ok {
        var y1 := CountPromoted(d2.sys, |up| + |mid|);
        CascadeKeepsPromoted(cfg, y1, Enduring);
        CascadeKeepsPromoted(cfg, y1, Major);
      } else {
        var m := Successes(d1.sys.env.faults) / 2;
        PrefixDistinct(mid, m);
        var n := MoveAllMoves(y, up, Enduring, Promoted);
        assert up[..n] == up;
        RisenTwice(y, d2.sys, up, mid[..m]);
      }
    }
  }

  lemma RisenTwice(y: Sys, y': Sys, up: seq<ItemId>, mid: seq<ItemId>)
    requires AllIn(y.items, up, Major) && AllIn(y.items, mid, Minor) && Distinct(up) && Distinct(mid)
    requires y'.items == Relocated(Relocated(y.items, Elems(up), Enduring, Promoted), Elems(mid), Major, Promoted)
    ensures |Risen(y, y')| == |up| + |mid|
  {
    hide Distinct;
    DistinctSize(up);
    DistinctSize(mid);
    assert Elems(up) !! Elems(mid);
    assert Risen(y, y') == Elems(up) + Elems(mid);
  }

  /** So for a query that reports a storage failure: nothing if the scans failed, otherwise as above. */
  lemma QueryShortfall(cfg: Settings, y: Sys, sel: Selection, p: TriplePattern, limit: Option<nat>)
    requires DoQuery(cfg, y, sel, p, limit).result == Err(Storage)
    ensures var r, scan := DoQuery(cfg, y, sel, p, limit), ScanScopes(y, Consulted(sel), p);
            && (!scan.ok ==> r.sys.stats.promoted == y.stats.promoted && Risen(y, r.sys) == {})
            && (scan.ok ==>
                  var y1, f := ReadClock(scan.sys), scan.sys.env.faults;
                  var y2 := Served(cfg, y1, Cut(scan.hits, limit));
                  var planned := |DueEnduring(cfg, y2.items)| + |DueMajor(cfg, y2.items, y1.env.clock)|;
                  && (FaultFree(f, 2 * planned) ==> r.sys.stats.promoted == y.stats.promoted + planned)
                  && (!FaultFree(f, 2 * planned) ==>
                        && r.sys.stats.promoted == y.stats.promoted
                        && |Risen(y, r.sys)| == Successes(f) / 2 < planned))
  {
    hide RaiseAndTrim, TouchAll, Results, DueEnduring, DueMajor, Consulted, FaultFree, Successes, ScanScopes, Risen,
      Steps.SamePlaces;
    NoneRisen(y, ScanScopes(y, Consulted(sel), p).sys);
    var scan := ScanScopes(y, Consulted(sel), p);
    Steps.ScanUnmoved(y, Consulted(sel), p);
    if scan.ok {
      var y1, hits := ReadClock(scan.sys), Cut(scan.hits, limit);
      assert Indexed(y1.items, hits);
      Steps.TouchAllPlaces(cfg, y1.items, hits, y1.env.clock);
      var y2 := Served(cfg, y1, hits);
      var up, mid := DueEnduring(cfg, y2.items), DueMajor(cfg, y2.items, y1.env.clock);
      RaiseShortfall(cfg, y2, up, mid);
      SamePlacesRisen(y, y2, RaiseAndTrim(cfg, y2, up, mid).sys);
    }
  }

  lemma SamePlacesRisen(y: Sys, y1: Sys, y': Sys)
    requires Steps.SamePlaces(y.items, y1.items)
    ensures Risen(y, y') == Risen(y1, y')
  {
  }

  lemma NoneRisen(y: Sys, y': Sys)
    requires y'.items == y.items
    ensures Risen(y, y') == {}
  {
  }

  /** The live items that are in a colder tier than before. */
  function Sunk(y: Sys, y': Sys): set<ItemId> {
    set i | i in y.items && i in y'.items && y'.items[i].scope.Rank() < y.items[i].scope.Rank()
  }

  lemma SunkAre(y: Sys, y': Sys, ids: seq<ItemId>, from: Scope, to: Scope)
    requires Distinct(ids) && AllIn(y.items, ids, from) && to.Rank() < from.Rank()
    requires y'.items == Relocated(y.items, Elems(ids), to, Demoted)
    ensures Sunk(y, y') == Elems(ids) && |Sunk(y, y')| == |ids|
  {
    hide Distinct;
    DistinctSize(ids);
  }

  lemma {:induction false} EvictVictimsBook(cfg: Settings, y: Sys, s: Scope, ids: seq<ItemId>)
    requires Distinct(ids) && AllIn(y.items, ids, s)
    ensures EvictVictims(cfg, y, s, ids).sys.stats.demoted >= y.stats.demoted
    decreases |ids|
  {
    hide EvictOne;
    if ids != [] {
      EvictOneOutcomes(cfg, y, s, ids[0]);
      var d := EvictOne(cfg, y, s, ids[0]);
      if d.ok {
        assert AllIn(d.sys.items, ids[1..], s);
        EvictVictimsBook(cfg, d.sys, s, ids[1..]);
      }
    }
  }

  lemma EvictByPolicyBooks(cfg: Settings, y: Sys, s: Scope, count: nat)
    ensures EvictByPolicy(cfg, y, s, count).sys.stats.demoted >= y.stats.demoted
  {
    hide EvictVictims, Victims;
    var y1 := ReadClock(y);
    var v := Victims(cfg, y1.items, s, count, y1.env.clock);
    assert forall i :: i in v ==> i in Elems(v);
    EvictVictimsBook(cfg, y1, s, v);
  }

  lemma EnforceBooks(cfg: Settings, y: Sys, s: Scope)
    ensures EnforceBounds(cfg, y, s).sys.stats.demoted >= y.stats.demoted
    decreases s.Rank()
  {
    hide EvictByPolicy, TrimTier, InScope;
    TrimCases(cfg, y, s);
    var d := TrimTier(cfg, y, s);
    if !WithinBound(cfg, y.items, s) {
      EvictByPolicyBooks(cfg, y, s, |InScope(y.items, s)| - cfg.bounds.Get(s).value);
    }
    if d.ok && s.Colder().Some? { EnforceBooks(cfg, d.sys, s.Colder().value); }
  }

  /** A demotion by name that reports a storage failure is booked whole if its moves were done and only the
      cascade, which books its own demotions on top, failed.  Otherwise it is not booked at all, although
      one item has sunk for every two steps before the failure. */
  lemma DemoteShortfall(cfg: Settings, y: Sys, s: Scope, ids: seq<ItemId>, to: Scope)
    requires DoDemote(cfg, y, s, ids, to).result == Err(Storage)
    ensures var r, u, n := DoDemote(cfg, y, s, ids, to), Unique(ids), Successes(y.env.faults) / 2;
            && (FaultFree(y.env.faults, 2 * |u|) ==> r.sys.stats.demoted >= y.stats.demoted + |u|)
            && (!FaultFree(y.env.faults, 2 * |u|) ==>
                  && n < |u| && r.sys.stats.demoted == y.stats.demoted
                  && Sunk(y, r.sys) == Elems(u[..n]) && |Sunk(y, r.sys)| == n)
  {
    hide MoveAll, EnforceBounds, Relocated, Successes, FaultFree, Sunk;
    var u, n := Unique(ids), Successes(y.env.faults) / 2;
    Steps.ChecksAreNotStorage(y.items, u, s);
    CheckedInScope(y.items, u, s);
    MoveAllReaches(y, u, to, Demoted);
    MoveAllBooks(y, u, to, Demoted);
    var d := MoveAll(y, u, to, Demoted);
    if d.ok {
      EnforceBooks(cfg, CountDemoted(d.sys, |u|), to);
    } else {
      PrefixDistinct(u, n);
      assert AllIn(y.items, u[..n], s);
      SunkAre(y, d.sys, u[..n], s, to);
    }
  }

  /** What a successful promotion did before its cascade: exactly the listed items are in the target. */
  lemma PromoteMoves(cfg: Settings, y: Sys, ids: seq<ItemId>, from: Scope, to: Scope, i: ItemId)
    requires to.Rank() > from.Rank() && AllIn(y.items, Unique(ids), from) && i in y.items
    requires MoveAll(y, Unique(ids), to, Promoted).ok
    ensures var y' := MoveAll(y, Unique(ids), to, Promoted).sys;
            && i in y'.items
            && (i in ids ==> y'.items[i] == y.items[i].(scope := to, arrival := Promoted))
            && (i !in ids ==> y'.items[i] == y.items[i])
  {
    var v := Unique(ids);
    var k := MoveAllMoves(y, v, to, Promoted);
    assert v[..k] == v;
    assert i in Elems(v) <==> i in Elems(ids);
  }
}
