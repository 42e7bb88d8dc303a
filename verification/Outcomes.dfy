/** What every operation does to the index and the books and what it replies, whenever storage does not fail:
    the state before its cascade is given entry by entry, and the cascade from its tier follows. */
module Outcomes {
  import opened Rdf
  import opened Items
  import opened Entries
  import opened Order
  import opened Machine
  import opened Agreement
  import Answers
  import Steps
  import opened Flow
  import Laws
  import Policies
  import Accesses
  import Recovery
  import Cuts
  import opened Evictions

  /** From `y1` the bounds are enforced from tier `s` downwards, which ends in `y'`. */
  ghost predicate ThenCascades(cfg: Settings, y1: Sys, ys: seq<Sys>, s: Scope, y': Sys) {
    Cascade(cfg, ys, s) && ys[0] == y1 && ys[|ys| - 1] == y'
  }

  // ---- refusals -------------------------------------------------------------------------------

  /** The error of the first listed id that is not a live item of the scope. */
  ghost predicate FirstMisplaced(items: map<ItemId, Entry>, ids: seq<ItemId>, s: Scope, error: SessionError) {
    exists k :: 0 <= k < |ids|
      && (forall j :: 0 <= j < k ==> AtHome(items, s, ids[j]))
      && !AtHome(items, s, ids[k])
      && error == if ids[k] in items then ScopeMismatch(ids[k], s, items[ids[k]].scope) else UnknownItem(ids[k])
  }

  lemma {:induction false} CheckEachLast(items: map<ItemId, Entry>, ids: seq<ItemId>, last: ItemId, s: Scope)
    ensures CheckEach(items, ids + [last], s)
            == if CheckEach(items, ids, s).Some? then CheckEach(items, ids, s) else CheckEach(items, [last], s)
  {
    if ids != [] {
      assert (ids + [last])[1..] == ids[1..] + [last];
      CheckEachLast(items, ids[1..], last, s);
    }
  }

  /** Repeats do not change the check. */
  lemma {:induction false} CheckUnique(items: map<ItemId, Entry>, ids: seq<ItemId>, s: Scope)
    ensures CheckEach(items, Unique(ids), s) == CheckEach(items, ids, s)
  {
    if ids != [] {
      var front, last := ids[..|ids| - 1], ids[|ids| - 1];
      assert ids == front + [last];
      CheckUnique(items, front, s);
      CheckEachLast(items, front, last, s);
      CheckEachLast(items, Unique(front), last, s);
      CheckedInScope(items, front, s);
      CheckedInScope(items, [last], s);
      assert Unique(ids) == if last in front then Unique(front) else Unique(front) + [last];
    }
  }

  lemma {:induction false} CheckTells(items: map<ItemId, Entry>, ids: seq<ItemId>, s: Scope)
    ensures var c := CheckEach(items, ids, s);
            && (c.None? <==> forall i :: i in ids ==> AtHome(items, s, i))
            && (c.Some? ==> FirstMisplaced(items, ids, s, c.value))
    decreases |ids|
  {
    CheckedInScope(items, ids, s);
    if ids != [] && CheckEach(items, ids, s).Some? {
      if AtHome(items, s, ids[0]) {
        CheckTells(items, ids[1..], s);
        var c := CheckEach(items, ids, s).value;
        var k :| 0 <= k < |ids[1..]|
          && (forall j :: 0 <= j < k ==> AtHome(items, s, ids[1..][j]))
          && !AtHome(items, s, ids[1..][k])
          && c == if ids[1..][k] in items then ScopeMismatch(ids[1..][k], s, items[ids[1..][k]].scope)
                  else UnknownItem(ids[1..][k]);
        assert ids[1..][k] == ids[k + 1];
        forall j | 0 <= j < k + 1
          ensures AtHome(items, s, ids[j])
        {
          if j > 0 { assert ids[1..][j - 1] == ids[j]; }
        }
      } else {
        assert !AtHome(items, s, ids[0]);
      }
    }
  }

  /** An item may be added: it names its source, is well formed and cites live items. */
  predicate Acceptable(items: map<ItemId, Entry>, item: Item) {
    && (exists k :: 0 <= k < |item.provenance.source| && !IsWhitespace(item.provenance.source[k]))
    && (forall t :: t in TriplesOf(item) ==> t.graph == Default)
    && (item.embedding.Some? ==> forall k :: 0 <= k < |item.embedding.value| ==> item.embedding.value[k].Finite?)
    && forall c :: c in item.provenance.derivedFrom ==> c in items
  }

  /** Why an item may not be added: a blank source, then a malformed item, then the first dead citation. */
  ghost predicate Reason(items: map<ItemId, Entry>, item: Item, error: SessionError) {
    var blank := forall k :: 0 <= k < |item.provenance.source| ==> IsWhitespace(item.provenance.source[k]);
    var named := (exists t :: t in TriplesOf(item) && t.graph != Default);
    var infinite := item.embedding.Some?
                    && exists k :: 0 <= k < |item.embedding.value| && !item.embedding.value[k].Finite?;
    && (blank <==> error == MissingProvenance)
    && (!blank && (named || infinite) <==> error == InvalidItem)
    && (!blank && !named && !infinite ==> FirstDead(items, item.provenance.derivedFrom, error))
  }

  ghost predicate FirstDead(items: map<ItemId, Entry>, cited: seq<ItemId>, error: SessionError) {
    exists k :: 0 <= k < |cited| && (forall j :: 0 <= j < k ==> cited[j] in items)
                && cited[k] !in items && error == UnknownItem(cited[k])
  }

  lemma {:induction false} UnknownIsFirst(items: map<ItemId, Entry>, cited: seq<ItemId>)
    ensures var c := FirstUnknown(items, cited);
            && (c.None? <==> forall i :: i in cited ==> i in items)
            && (c.Some? ==> FirstDead(items, cited, UnknownItem(c.value)))
    decreases |cited|
  {
    if cited != [] {
      Steps.NoUnknown(items, cited);
      UnknownIsFirst(items, cited[1..]);
      var c := FirstUnknown(items, cited);
      if c.Some? {
        if cited[0] in items {
          var rest := cited[1..];
          var k :| 0 <= k < |rest| && (forall j :: 0 <= j < k ==> rest[j] in items)
                   && rest[k] !in items && UnknownItem(c.value) == UnknownItem(rest[k]);
          assert cited[k + 1] == rest[k];
          assert forall j :: 1 <= j < k + 1 ==> cited[j] == rest[j - 1];
        } else {
          assert cited[0] !in items;
        }
      }
    }
  }

  lemma ValidateTells(items: map<ItemId, Entry>, item: Item)
    ensures var c := Validate(items, item);
            (c.None? <==> Acceptable(items, item)) && (c.Some? ==> Reason(items, item, c.value))
  {
    UnknownIsFirst(items, item.provenance.derivedFrom);
  }

  /** The reason of the first item of the batch that may not be added. */
  ghost predicate FirstRefused(items: map<ItemId, Entry>, batch: seq<Item>, error: SessionError) {
    exists k :: 0 <= k < |batch| && (forall j :: 0 <= j < k ==> Acceptable(items, batch[j]))
                && !Acceptable(items, batch[k]) && Reason(items, batch[k], error)
  }

  lemma {:induction false} BatchTells(items: map<ItemId, Entry>, batch: seq<Item>)
    ensures var c := FirstError(items, batch);
            && (c.None? <==> forall k :: 0 <= k < |batch| ==> Acceptable(items, batch[k]))
            && (c.Some? ==> FirstRefused(items, batch, c.value))
    decreases |batch|
  {
    hide Acceptable, Reason, Validate;
    if batch != [] {
      ValidateTells(items, batch[0]);
      var rest := batch[1..];
      BatchTells(items, rest);
      var c := FirstError(items, batch);
      assert forall j :: 1 <= j < |batch| ==> batch[j] == rest[j - 1];
      if c.Some? && Acceptable(items, batch[0]) {
        var k :| 0 <= k < |rest| && (forall j :: 0 <= j < k ==> Acceptable(items, rest[j]))
                 && !Acceptable(items, rest[k]) && Reason(items, rest[k], c.value);
        assert batch[k + 1] == rest[k];
      } else if c.None? {
        assert forall j :: 0 <= j < |rest| ==> Acceptable(items, rest[j]);
      }
    }
  }

  /** When an operation is refused, and with which error; a refusal changes nothing. */
  ghost predicate RefusedWith(y: Sys, op: Op, error: SessionError) {
    match op
    case AddBatch(_, batch) => FirstRefused(y.items, batch, error)
    case Promote(ids, from, to) =>
      if to.Rank() < from.Rank() then error == DurabilityViolation(from, to)
      else FirstMisplaced(y.items, ids, from, error)
    case Evict(s, EvictItems(ids)) => FirstMisplaced(y.items, ids, s, error)
    case Evict(s, EvictDemote(ids, to)) =>
      if to.Rank() >= s.Rank() then error == DurabilityViolation(s, to)
      else FirstMisplaced(y.items, ids, s, error)
    case _ => false
  }

  /** The operation has nothing to refuse. */
  ghost predicate Admissible(y: Sys, op: Op) {
    match op
    case AddBatch(_, batch) => forall k :: 0 <= k < |batch| ==> Acceptable(y.items, batch[k])
    case Promote(ids, from, to) => to.Rank() >= from.Rank() && forall i :: i in ids ==> AtHome(y.items, from, i)
    case Evict(s, EvictItems(ids)) => forall i :: i in ids ==> AtHome(y.items, s, i)
    case Evict(s, EvictDemote(ids, to)) => to.Rank() < s.Rank() && forall i :: i in ids ==> AtHome(y.items, s, i)
    case _ => true
  }

  lemma RefusedIff(cfg: Settings, y: Sys, op: Op)
    ensures var r := Apply(cfg, y, op);
            && (Admissible(y, op) <==> r.result.Ok? || r.result == Err(Storage))
            && (!Admissible(y, op) ==> r.result.Err? && RefusedWith(y, op, r.result.error) && r.sys == y)
  {
    hide Acceptable, FirstRefused, FirstMisplaced, EnforceBounds, MoveAll, DropAll, EvictByPolicy, RaiseAndTrim,
      TouchAll, FirstError, CheckEach, ScanScopes, Results, EncodeAll, FreshEntries;
    match op
    case AddBatch(s, batch) =>
      BatchTells(y.items, batch);
      Cuts.RefusalsAreNotStorage(y.items, batch);
    case Promote(ids, from, to) => ListTells(y.items, ids, from);
    case Evict(s, EvictItems(ids)) => ListTells(y.items, ids, s);
    case Evict(s, EvictDemote(ids, to)) => ListTells(y.items, ids, s);
    case _ =>
  }

  lemma ListTells(items: map<ItemId, Entry>, ids: seq<ItemId>, s: Scope)
    ensures var c := CheckEach(items, Unique(ids), s);
            && c != Some(Storage)
            && (c.None? <==> forall i :: i in ids ==> AtHome(items, s, i))
            && (c.Some? ==> FirstMisplaced(items, ids, s, c.value))
  {
    CheckUnique(items, ids, s);
    CheckTells(items, ids, s);
    Steps.ChecksAreNotStorage(items, Unique(ids), s);
  }

  // ---- adding and removing --------------------------------------------------------------------

  /** The entries of a batch just added at `now`, and every other entry as it was. */
  ghost predicate AddedExactly(y: Sys, items: map<ItemId, Entry>, s: Scope, batch: seq<Item>, now: nat) {
    && (forall i :: i in items <==> i in y.items || y.nextId <= i < y.nextId + |batch|)
    && (forall i :: i in y.items ==> items[i] == y.items[i])
    && forall k :: 0 <= k < |batch| ==>
         items[y.nextId + k] == Entry(batch[k], s, Added, 0, now, [], 1.0, now, [now], [])
  }

  lemma RegisteredExactly(y: Sys, s: Scope, batch: seq<Item>)
    requires forall i :: i in y.items ==> i < y.nextId
    ensures AddedExactly(y, Register(y, s, batch).items, s, batch, Accesses.AccessTime(y))
  {
    var items, now := Register(y, s, batch).items, Accesses.AccessTime(y);
    forall k | 0 <= k < |batch|
      ensures items[y.nextId + k] == Entry(batch[k], s, Added, 0, now, [], 1.0, now, [now], [])
    {
      assert Issued(y.nextId, |batch|, y.nextId + k);
    }
    forall i: ItemId
      ensures i in items <==> i in y.items || y.nextId <= i < y.nextId + |batch|
    {
      assert i in FreshEntries(y.nextId, batch, s, now) <==> Issued(y.nextId, |batch|, i);
    }
  }

  /** A successful add replies the ids in the order of the batch, adds exactly the batch, and then enforces
      the bounds from its tier. */
  lemma AddDoes(cfg: Settings, y: Sys, s: Scope, batch: seq<Item>) returns (y1: Sys, ys: seq<Sys>)
    requires Laws.Healthy(cfg, y) && forall i :: i in y.items ==> i < y.nextId
    requires Apply(cfg, y, AddBatch(s, batch)).result.Ok?
    ensures var r := Apply(cfg, y, AddBatch(s, batch));
            && RightIds(y, batch, r.result.value)
            && AddedExactly(y, y1.items, s, batch, y1.env.clock) && y1.env.clock == Accesses.AccessTime(y)
            && y1.nextId == y.nextId + |batch| && y1.stats == y.stats.(added := y.stats.added + |batch|)
            && ThenCascades(cfg, y1, ys, s, r.sys)
  {
    hide EnforceBounds, EncodeAll, FirstError, FreshEntries, Laws.Healthy, Cascade, AddedExactly;
    var after := y.stores.Put(s, y.stores.Get(s) + EncodeAll(y.nextId, batch));
    var y0 := Step(y, after).sys;
    SameHealthy(cfg, y, y0);
    y1 := Register(y0, s, batch);
    RegisteredExactly(y0, s, batch);
    AddedSame(y, y0, y1.items, s, batch, y1.env.clock);
    Laws.RegisterHealthy(cfg, y0, s, batch);
    ys := EnforceCascades(cfg, y1, s);
  }

  /** The k-th id is for the k-th item. */
  ghost predicate RightIds(y: Sys, batch: seq<Item>, v: Value) {
    v.Ids? && |v.ids| == |batch| && forall k :: 0 <= k < |batch| ==> v.ids[k] == y.nextId + k
  }

  lemma SameHealthy(cfg: Settings, y: Sys, y': Sys)
    requires Laws.Healthy(cfg, y) && y'.items == y.items && y'.env.clock == y.env.clock
    ensures Laws.Healthy(cfg, y')
  {
  }

  lemma AddedSame(y: Sys, y0: Sys, items: map<ItemId, Entry>, s: Scope, batch: seq<Item>, now: nat)
    requires AddedExactly(y0, items, s, batch, now) && y0.items == y.items && y0.nextId == y.nextId
    ensures AddedExactly(y, items, s, batch, now)
  {
  }

  /** Whatever the cascade does, the k-th id replied is `nextId + k`, and if it is live it carries the k-th
      item of the batch. */
  lemma AddReplies(cfg: Settings, y: Sys, s: Scope, batch: seq<Item>, k: nat)
    requires (forall i :: i in y.items ==> i < y.nextId) && k < |batch|
    requires Apply(cfg, y, AddBatch(s, batch)).result.Ok?
    ensures var r := Apply(cfg, y, AddBatch(s, batch));
            && RightIds(y, batch, r.result.value)
            && (y.nextId + k in r.sys.items ==> r.sys.items[y.nextId + k].item == batch[k])
  {
    hide DoAddBatch, EnforceBounds, FirstError;
    StoredReplies(cfg, y, s, batch);
    Recovery.StoredBatchCut(cfg, y, s, batch);
    assert Issued(y.nextId, |batch|, y.nextId + k);
  }

  lemma StoredReplies(cfg: Settings, y: Sys, s: Scope, batch: seq<Item>)
    requires DoAddBatch(cfg, y, s, batch).result.Ok?
    ensures Recovery.BatchStored(y, batch) && RightIds(y, batch, DoAddBatch(cfg, y, s, batch).result.value)
  {
    hide EnforceBounds, EncodeAll, FirstError, Register;
  }

  /** A remove replies whether the item was live in the scope, and takes out exactly that item if so. */
  lemma RemoveDoes(cfg: Settings, y: Sys, s: Scope, id: ItemId)
    ensures var r, there := Apply(cfg, y, Remove(s, id)), id in y.items && y.items[id].scope == s;
            && (!there ==> r == Reply(y, Ok(Flag(false))))
            && (there ==> (r.result == Ok(Flag(true)) && r.sys.items == y.items - {id})
                          || (r.result == Err(Storage) && r.sys.items == y.items && r.sys.stores == y.stores))
            && r.sys.stats == y.stats && r.sys.nextId == y.nextId
  {
  }

  // ---- moving by name -------------------------------------------------------------------------

  ghost predicate RaisedExactly(items: map<ItemId, Entry>, items': map<ItemId, Entry>, ids: set<ItemId>, to: Scope) {
    && items'.Keys == items.Keys
    && forall i :: i in items ==>
         items'[i] == if i in ids then items[i].(scope := to, arrival := Promoted) else items[i]
  }

  ghost predicate LoweredExactly(items: map<ItemId, Entry>, items': map<ItemId, Entry>, ids: set<ItemId>, to: Scope) {
    && items'.Keys == items.Keys
    && forall i :: i in items ==>
         items'[i] == if i in ids then items[i].(scope := to, arrival := Demoted, recent := [], visits := [])
                      else items[i]
  }

  lemma CheckedList(y: Sys, ids: seq<ItemId>, s: Scope)
    requires CheckEach(y.items, Unique(ids), s).None?
    ensures AllIn(y.items, Unique(ids), s) && |Unique(ids)| == |Elems(ids)|
  {
    CheckedInScope(y.items, Unique(ids), s);
    DistinctSize(Unique(ids));
  }

  lemma MovedList(cfg: Settings, y: Sys, ids: seq<ItemId>, to: Scope, arrival: Arrival) returns (y0: Sys)
    requires Laws.Healthy(cfg, y) && Distinct(ids) && (forall i :: i in ids ==> i in y.items)
    requires (arrival.Promoted? ==> to != Minor) && (arrival.Demoted? ==> to != Enduring)
    requires MoveAll(y, ids, to, arrival).ok
    ensures y0 == MoveAll(y, ids, to, arrival).sys && Laws.Healthy(cfg, y0)
    ensures y0.items == Relocated(y.items, Elems(ids), to, arrival)
    ensures y0.stats == y.stats && y0.nextId == y.nextId && y0.env.clock == y.env.clock
  {
    hide MoveAll, Relocated, Laws.Healthy, Flows;
    y0 := MoveAll(y, ids, to, arrival).sys;
    var k := MoveAllMoves(y, ids, to, arrival);
    assert ids[..k] == ids;
    MoveAllBooks(y, ids, to, arrival);
    MoveAllFlows(y, ids, to, arrival);
    Laws.FlowsHealthy(cfg, y, y0);
  }

  /** A successful promote raises exactly the listed items and replies how many, then enforces the bounds from
      the target; a promote to the same tier does nothing. */
  lemma PromoteDoes(cfg: Settings, y: Sys, ids: seq<ItemId>, from: Scope, to: Scope) returns (y1: Sys, ys: seq<Sys>)
    requires Laws.Healthy(cfg, y) && Apply(cfg, y, Promote(ids, from, to)).result.Ok?
    ensures var r, n := Apply(cfg, y, Promote(ids, from, to)), |Elems(ids)|;
            && (to == from ==> r == Reply(y, Ok(Count(0))))
            && (to != from ==>
                  && r.result == Ok(Count(n))
                  && RaisedExactly(y.items, y1.items, Elems(ids), to) && y1.nextId == y.nextId
                  && y1.stats == y.stats.(promoted := y.stats.promoted + n)
                  && ThenCascades(cfg, y1, ys, to, r.sys))
  {
    hide EnforceBounds, MoveAll, Laws.Healthy, Cascade, CheckEach;
    var u := Unique(ids);
    y1, ys := y, [];
    if to != from {
      CheckedList(y, ids, from);
      CheckedInScope(y.items, u, from);
      var y0 := MovedList(cfg, y, u, to, Promoted);
      y1 := CountPromoted(y0, |u|);
      SameHealthy(cfg, y0, y1);
      ys := EnforceCascades(cfg, y1, to);
    }
  }

  /** A successful demotion by name lowers exactly the listed items, forgets their promotion windows and
      replies how many, then enforces the bounds from the target. */
  lemma DemoteDoes(cfg: Settings, y: Sys, s: Scope, ids: seq<ItemId>, to: Scope) returns (y1: Sys, ys: seq<Sys>)
    requires Laws.Healthy(cfg, y) && Apply(cfg, y, Evict(s, EvictDemote(ids, to))).result.Ok?
    ensures var r, n := Apply(cfg, y, Evict(s, EvictDemote(ids, to))), |Elems(ids)|;
            && r.result == Ok(Count(n))
            && LoweredExactly(y.items, y1.items, Elems(ids), to) && y1.nextId == y.nextId
            && y1.stats == y.stats.(demoted := y.stats.demoted + n)
            && ThenCascades(cfg, y1, ys, to, r.sys)
  {
    hide EnforceBounds, MoveAll, Laws.Healthy, Cascade, CheckEach;
    var u := Unique(ids);
    CheckedList(y, ids, s);
    CheckedInScope(y.items, u, s);
    var y0 := MovedList(cfg, y, u, to, Demoted);
    y1 := CountDemoted(y0, |u|);
    SameHealthy(cfg, y0, y1);
    ys := EnforceCascades(cfg, y1, to);
  }

  // ---- evicting -------------------------------------------------------------------------------

  lemma {:induction false} DropAllDoes(y: Sys, ids: seq<ItemId>)
    requires Distinct(ids) && (forall i :: i in ids ==> i in y.items) && DropAll(y, ids).ok
    ensures var y' := DropAll(y, ids).sys;
            && y'.items == y.items - Elems(ids) && y'.nextId == y.nextId
            && y'.stats == y.stats.(evicted := y.stats.evicted + |ids|)
    decreases |ids|
  {
    hide DropItem;
    if ids != [] {
      DropOneDrops(y, ids[0]);
      DropAllDoes(DropItem(y, ids[0]).sys, ids[1..]);
      HeadTail(ids);
    }
  }

  /** Eviction by name drops exactly the listed items and replies how many. */
  lemma EvictItemsDoes(cfg: Settings, y: Sys, s: Scope, ids: seq<ItemId>)
    requires Apply(cfg, y, Evict(s, EvictItems(ids))).result.Ok?
    ensures var r, n := Apply(cfg, y, Evict(s, EvictItems(ids))), |Elems(ids)|;
            && r.result == Ok(Count(n)) && r.sys.items == y.items - Elems(ids) && r.sys.nextId == y.nextId
            && r.sys.stats == y.stats.(evicted := y.stats.evicted + n)
  {
    hide DropAll, CheckEach;
    CheckedList(y, ids, s);
    CheckedInScope(y.items, Unique(ids), s);
    DropAllDoes(y, Unique(ids));
  }

  /** Eviction by policy disposes of the first `count` items of the tier by their histories, or all of them,
      replies how many, and then enforces the bounds of the colder tiers. */
  lemma EvictPolicyDoes(cfg: Settings, y: Sys, s: Scope, count: nat)
    returns (victims: set<ItemId>, y1: Sys, ys: seq<Sys>)
    requires Laws.Healthy(cfg, y) && Apply(cfg, y, Evict(s, EvictPolicy(count))).result.Ok?
    ensures var r := Apply(cfg, y, Evict(s, EvictPolicy(count)));
            && r.result == Ok(Count(|victims|)) && PolicyEvicts(cfg, y, y1, s, count, victims)
            && (s == Minor ==> r.sys == y1)
            && (s != Minor ==> ThenCascades(cfg, y1, ys, TierOf(s.Rank() - 1), r.sys))
  {
    hide EvictByPolicy, EnforceBounds, Laws.Healthy, Cascade, FirstOut, Evicts;
    y1, ys := EvictByPolicy(cfg, y, s, count).sys, [];
    victims := EvictByPolicyEvicts(cfg, y, s, count);
    if s != Minor {
      ys := EnforceCascades(cfg, y1, s.Colder().value);
    }
  }

  // ---- querying -------------------------------------------------------------------------------

  /** Major items cited by more than the threshold of other live items. */
  ghost function DueUp(cfg: Settings, items: map<ItemId, Entry>): set<ItemId> {
    set i | i in items && items[i].scope == Major && |Citers(items, i)| > cfg.promotion.majorToEnduringReferences
  }

  ghost function Citers(items: map<ItemId, Entry>, i: ItemId): set<ItemId> {
    set j | j in items && j != i && exists k :: 0 <= k < |items[j].item.provenance.derivedFrom|
                                                && items[j].item.provenance.derivedFrom[k] == i
  }

  /** Minor items accessed more than the threshold within the window since they were added or demoted. */
  ghost function DueMid(cfg: Settings, items: map<ItemId, Entry>, now: nat): set<ItemId> {
    set i | i in items && items[i].scope == Minor
            && |RecentVisits(items[i], now, cfg.promotion.minorWindow)| > cfg.promotion.minorToMajorAccesses
  }

  ghost function RecentVisits(e: Entry, now: nat, window: nat): set<nat> {
    set k | 0 <= k < |e.visits| && now <= e.visits[k] + window
  }

  lemma DueIsDue(cfg: Settings, y: Sys, now: nat)
    requires Laws.Healthy(cfg, y) && y.env.clock <= now
    ensures Elems(DueEnduring(cfg, y.items)) == DueUp(cfg, y.items)
    ensures Elems(DueMajor(cfg, y.items, now)) == DueMid(cfg, y.items, now)
  {
    hide InWindow, Faithful, Arrivals;
    forall i | i in y.items
      ensures CitedBy(y.items, i) == Citers(y.items, i)
      ensures InWindow(y.items[i].recent, now, cfg.promotion.minorWindow)
              == |RecentVisits(y.items[i], now, cfg.promotion.minorWindow)|
    {
      PrunedQueueIsExact(cfg, y.items[i], y.env.clock, now);
      WindowCount(y.items[i].visits, now, cfg.promotion.minorWindow);
    }
  }

  /** The items of `up` are in enduring and those of `mid` in major, marked as promoted; no other changed. */
  ghost predicate PromotedExactly(items: map<ItemId, Entry>, items': map<ItemId, Entry>, up: set<ItemId>,
                                  mid: set<ItemId>) {
    && items'.Keys == items.Keys
    && forall i :: i in items ==>
         items'[i] == if i in up then items[i].(scope := Enduring, arrival := Promoted)
                      else if i in mid then items[i].(scope := Major, arrival := Promoted)
                      else items[i]
  }

  lemma RaiseDoes(cfg: Settings, y: Sys, up: seq<ItemId>, mid: seq<ItemId>)
    requires Laws.Healthy(cfg, y) && Distinct(up) && Distinct(mid)
    requires AllIn(y.items, up, Major) && AllIn(y.items, mid, Minor) && Raise(y, up, mid).ok
    ensures var y' := Raise(y, up, mid).sys;
            && PromotedExactly(y.items, y'.items, Elems(up), Elems(mid)) && Laws.Healthy(cfg, y')
            && y'.stats == y.stats && y'.nextId == y.nextId && y'.env.clock == y.env.clock
  {
    hide MoveAll, Laws.Healthy, Distinct;
    var y0 := MovedList(cfg, y, up, Enduring, Promoted);
    assert forall i :: i in mid ==> i in y0.items;
    var y' := MovedList(cfg, y0, mid, Major, Promoted);
    assert Elems(up) !! Elems(mid);
  }

  /** The index after a query has served its hits: one access each and nothing else. */
  ghost predicate AccessedExactly(y: Sys, items: map<ItemId, Entry>, op: Op) {
    && items.Keys == y.items.Keys
    && forall i :: i in items ==>
         var hit, now := Accesses.ServedTo(y, op, i), Accesses.AccessTime(y);
         && Accesses.Accessed(y.items[i], items[i], hit, now)
         && items[i].visits == y.items[i].visits + (if hit then [now] else [])
         && items[i].scope == y.items[i].scope && items[i].arrival == y.items[i].arrival
  }

  lemma ServedExactly(cfg: Settings, y: Sys, L: Ledger, H: Holds, sel: Selection, p: TriplePattern,
                      limit: Option<nat>)
    requires Sound(y, L, H) && ScanScopes(y, Consulted(sel), p).ok
    ensures AccessedExactly(y, Steps.ServedItems(cfg, y, sel, p, limit), Query(sel, p, limit))
  {
    hide Sound, Touch, TouchAll, Answers.IndexHits, Consulted, ScanScopes, Accesses.IsHit;
    Answers.HitsIndexed(y.items, Consulted(sel), p, limit);
    Accesses.HitsDistinct(y.items, sel, p, limit);
    var hits, now := Accesses.AnswerHits(y, sel, p, limit), Accesses.AccessTime(y);
    forall i | i in y.items
      ensures var e := TouchAll(cfg, y.items, hits, now)[i];
              var hit := Accesses.IsHit(hits, i);
              && Accesses.Accessed(y.items[i], e, hit, now)
              && e.visits == y.items[i].visits + (if hit then [now] else [])
              && e.scope == y.items[i].scope && e.arrival == y.items[i].arrival
    {
      Accesses.TouchAllExact(cfg, y.items, hits, now, i);
      TouchedEntry(cfg, y.items[i], now, Accesses.IsHit(hits, i));
    }
  }

  lemma TouchedEntry(cfg: Settings, e: Entry, now: nat, hit: bool)
    ensures var e' := if hit then Touch(cfg, e, now) else e;
            && Accesses.Accessed(e, e', hit, now) && e'.visits == e.visits + (if hit then [now] else [])
            && e'.scope == e.scope && e'.arrival == e.arrival
  {
  }

  /** The states of a successful query: `y1` after the accesses, `y2` after the promotions, then a cascade. */
  ghost predicate QuerySteps(cfg: Settings, y: Sys, op: Op, y1: Sys, y2: Sys, ys: seq<Sys>, r: Reply) {
    var up, mid := DueUp(cfg, y1.items), DueMid(cfg, y1.items, y1.env.clock);
    && r.result.Ok? && r.result.value.Found? && y1.env.clock == Accesses.AccessTime(y)
    && AccessedExactly(y, y1.items, op) && y1.nextId == y.nextId
    && y1.stats == y.stats.(queries := y.stats.queries + 1)
    && (!cfg.promotion.afterEachQuery ==> r.sys == y1 && r.result.value.answer.autoPromoted == 0)
    && (cfg.promotion.afterEachQuery ==>
          && r.result.value.answer.autoPromoted == |up| + |mid|
          && PromotedExactly(y1.items, y2.items, up, mid) && y2.nextId == y1.nextId
          && y2.stats == y1.stats.(promoted := y1.stats.promoted + |up| + |mid|)
          && (up == {} && mid == {} ==> r.sys == y2)
          && (up != {} ==> ThenCascades(cfg, y2, ys, Enduring, r.sys))
          && (up == {} && mid != {} ==> ThenCascades(cfg, y2, ys, Major, r.sys)))
  }

  lemma RaiseAndTrimDoes(cfg: Settings, y: Sys, up: seq<ItemId>, mid: seq<ItemId>) returns (y2: Sys, ys: seq<Sys>)
    requires Laws.Healthy(cfg, y) && Distinct(up) && Distinct(mid)
    requires AllIn(y.items, up, Major) && AllIn(y.items, mid, Minor) && RaiseAndTrim(cfg, y, up, mid).ok
    ensures var r := RaiseAndTrim(cfg, y, up, mid);
            && PromotedExactly(y.items, y2.items, Elems(up), Elems(mid)) && y2.nextId == y.nextId
            && y2.stats == y.stats.(promoted := y.stats.promoted + |up| + |mid|)
            && (up == [] && mid == [] ==> r.sys == y2)
            && (up != [] ==> ThenCascades(cfg, y2, ys, Enduring, r.sys))
            && (up == [] && mid != [] ==> ThenCascades(cfg, y2, ys, Major, r.sys))
  {
    hide Raise, EnforceBounds, Laws.Healthy, Cascade, Distinct, PromotedExactly;
    RaiseDoes(cfg, y, up, mid);
    var y0 := Raise(y, up, mid).sys;
    y2, ys := CountPromoted(y0, |up| + |mid|), [];
    SameHealthy(cfg, y0, y2);
    if up != [] {
      ys := EnforceCascades(cfg, y2, Enduring);
    } else if mid != [] {
      ys := EnforceCascades(cfg, y2, Major);
    }
  }

  /** A successful query accesses its hits; on the cadence it then promotes exactly the items that the two
      rules single out on the index as it stands, judged by full histories, reports how many, and enforces
      the bounds from the warmest tier it reached. */
  lemma QueryDoes(cfg: Settings, y: Sys, L: Ledger, H: Holds, sel: Selection, p: TriplePattern, limit: Option<nat>)
    returns (y1: Sys, y2: Sys, ys: seq<Sys>)
    requires Sound(y, L, H) && Laws.Healthy(cfg, y) && Apply(cfg, y, Query(sel, p, limit)).result.Ok?
    ensures QuerySteps(cfg, y, Query(sel, p, limit), y1, y2, ys, Apply(cfg, y, Query(sel, p, limit)))
  {
    hide Sound, Laws.Healthy, ScanScopes, TouchAll, Results, RaiseAndTrim, Consulted, DueEnduring, DueMajor, DueUp,
      DueMid, AccessedExactly, PromotedExactly, ThenCascades, Steps.ServedItems, Distinct, ToEnduring, ToMajor;
    var scan := ScanScopes(y, Consulted(sel), p);
    Steps.ScanUnmoved(y, Consulted(sel), p);
    Steps.ScanClock(y, Consulted(sel), p);
    Steps.ServedIs(cfg, y, L, H, sel, p, limit);
    ServedExactly(cfg, y, L, H, sel, p, limit);
    var x, hits := ReadClock(scan.sys), Cut(scan.hits, limit);
    TickedHealthy(cfg, y, x);
    Laws.ServedHealthy(cfg, x, hits);
    y1 := Served(cfg, x, hits);
    y2, ys := y1, [];
    if cfg.promotion.afterEachQuery {
      var up, mid := DueEnduring(cfg, y1.items), DueMajor(cfg, y1.items, x.env.clock);
      DueIsDue(cfg, y1, x.env.clock);
      DistinctSize(up);
      DistinctSize(mid);
      y2, ys := RaiseAndTrimDoes(cfg, y1, up, mid);
      NoneIff(up);
      NoneIff(mid);
    }
  }

  lemma NoneIff(ids: seq<ItemId>)
    ensures ids == [] <==> Elems(ids) == {}
  {
    if ids != [] { assert ids[0] in Elems(ids); }
  }

  lemma TickedHealthy(cfg: Settings, y: Sys, y': Sys)
    requires Laws.Healthy(cfg, y) && y'.items == y.items && y'.env.clock >= y.env.clock
    ensures Laws.Healthy(cfg, y')
  {
    hide Faithful, Arrivals;
    Laws.TickHealthy(cfg, y, y');
  }

  /** A due item that the cascade spares is where its rule sends it, marked as promoted, and any other item
      is where it was. */
  lemma SparedAreSent(cfg: Settings, y: Sys, op: Op, y1: Sys, y2: Sys, ys: seq<Sys>, r: Reply, i: ItemId)
    requires QuerySteps(cfg, y, op, y1, y2, ys, r) && cfg.promotion.afterEachQuery && i in r.sys.items
    ensures i in y1.items
    ensures var e, e' := y1.items[i], r.sys.items[i];
            var to := if i in DueUp(cfg, y1.items) then Enduring
                      else if i in DueMid(cfg, y1.items, y1.env.clock) then Major
                      else e.scope;
            || (e'.scope == to && (to == e.scope ==> e' == e) && (to != e.scope ==> e'.arrival.Promoted?))
            || (e'.scope.Rank() < to.Rank() && e'.arrival.Demoted?)
  {
    hide Trims, AccessedExactly, Accesses.AccessTime;
    var up, mid := DueUp(cfg, y1.items), DueMid(cfg, y1.items, y1.env.clock);
    if up != {} {
      CascadeSpares(cfg, ys, Enduring, 3, i);
    } else if mid != {} {
      CascadeSpares(cfg, ys, Major, 2, i);
    }
  }
}
