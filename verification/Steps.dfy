/** Every operation keeps the agreement of index and stores. */
module Steps {
  import opened Rdf
  import opened Items
  import opened Entries
  import Order
  import Layout
  import opened Machine
  import opened Agreement
  import Answers

  ghost predicate Extends(L: Ledger, L': Ledger) {
    forall i :: i in L ==> i in L' && L'[i] == L[i]
  }

  /** A reply counts as a storage success unless it is the storage error. */
  function Unfailed(r: Reply): Done {
    Done(r.sys, r.result != Err(Storage))
  }

  // ---- promotions under way -------------------------------------------------------------------

  predicate Sends(dest: Promotions, ids: seq<ItemId>, to: Scope) {
    forall i :: i in ids ==> i in dest && dest[i] == to
  }

  /** Where the auto-promotion rules send each due item. */
  function DueTargets(cfg: Settings, items: map<ItemId, Entry>, now: nat): Promotions {
    map i | i in ToEnduring(cfg, items) + ToMajor(cfg, items, now) ::
      if i in ToEnduring(cfg, items) then Enduring else Major
  }

  /** The index once a query has touched its hits. */
  ghost function ServedItems(cfg: Settings, y: Sys, sel: Selection, p: TriplePattern, limit: Option<nat>)
    : map<ItemId, Entry>
  {
    Answers.HitsIndexed(y.items, Consulted(sel), p, limit);
    TouchAll(cfg, y.items, Cut(Answers.IndexHits(y.items, Consulted(sel), p), limit), ReadClock(y).env.clock)
  }

  /** The promotions an operation sets out to make: the listed items of a promote, the due items of a
      query; no other operation raises anything. */
  ghost function PromotionsOf(cfg: Settings, y: Sys, op: Op): Promotions {
    match op
    case Promote(ids, from, to) => if to.Rank() > from.Rank() then map i | i in ids :: to else map[]
    case Query(sel, p, limit) =>
      if cfg.promotion.afterEachQuery
      then DueTargets(cfg, ServedItems(cfg, y, sel, p, limit), ReadClock(y).env.clock)
      else map[]
    case _ => map[]
  }

  // ---- adding ---------------------------------------------------------------------------------

  lemma {:induction false} NoUnknown(items: map<ItemId, Entry>, ids: seq<ItemId>)
    ensures FirstUnknown(items, ids).None? <==> forall c :: c in ids ==> c in items
  {
    if ids != [] {
      NoUnknown(items, ids[1..]);
      assert ids == [ids[0]] + ids[1..];
    }
  }

  /** A batch passes validation iff every item is well formed and cites live items only. */
  lemma {:induction false} NoError(items: map<ItemId, Entry>, batch: seq<Item>)
    ensures FirstError(items, batch).None?
            <==> forall k :: 0 <= k < |batch| ==>
                   WellFormed(batch[k]) && forall c :: c in batch[k].provenance.derivedFrom ==> c in items
  {
    if batch != [] {
      NoError(items, batch[1..]);
      NoUnknown(items, batch[0].provenance.derivedFrom);
      assert batch == [batch[0]] + batch[1..];
    }
  }

  ghost function IssuedIds(first: ItemId, n: nat): set<ItemId> {
    set i: ItemId | first <= i < first + n && Issued(first, n, i)
  }

  ghost function BatchLedger(first: ItemId, batch: seq<Item>): Ledger {
    map i: ItemId | first <= i < first + |batch| && Issued(first, |batch|, i) :: Member(first, batch, i)
  }

  lemma BatchImage(L: Ledger, ids: set<ItemId>, first: ItemId, batch: seq<Item>)
    requires ids <= L.Keys && forall i :: i in L ==> i < first
    ensures Image(L + BatchLedger(first, batch), ids + IssuedIds(first, |batch|))
            == Image(L, ids) + EncodeAll(first, batch)
  {
    var L', ids' := L + BatchLedger(first, batch), ids + IssuedIds(first, |batch|);
    forall q
      ensures q in Image(L', ids') <==> q in Image(L, ids) + EncodeAll(first, batch)
    {
      if q in Image(L', ids') {
        var i :| i in ids' && q in Layout.Encode(i, L'[i]);
        assert i in ids || Issued(first, |batch|, i);
      }
      if q in Image(L, ids) {
        var i :| i in ids && q in Layout.Encode(i, L[i]);
        assert i in ids' && L'[i] == L[i];
      }
      if q in EncodeAll(first, batch) {
        var i: ItemId :| first <= i < first + |batch| && Issued(first, |batch|, i)
                         && q in Layout.Encode(i, Member(first, batch, i));
        assert i in BatchLedger(first, batch) && i in IssuedIds(first, |batch|);
        assert L'[i] == Member(first, batch, i);
      }
    }
  }

  ghost function HoldBatch(H: Holds, s: Scope, first: ItemId, n: nat): (H': Holds)
    ensures forall u: Scope :: H'.Get(u) == if u == s then H.Get(u) + IssuedIds(first, n) else H.Get(u)
  {
    H.Put(s, H.Get(s) + IssuedIds(first, n))
  }

  lemma BatchLaid(stores: Tiers<set<Quad>>, L: Ledger, H: Holds, s: Scope, first: ItemId, batch: seq<Item>)
    requires Laid(stores, L, H) && forall i :: i in L ==> i < first
    ensures Laid(stores.Put(s, stores.Get(s) + EncodeAll(first, batch)), L + BatchLedger(first, batch),
                 HoldBatch(H, s, first, |batch|))
  {
    var L', H' := L + BatchLedger(first, batch), HoldBatch(H, s, first, |batch|);
    var stores' := stores.Put(s, stores.Get(s) + EncodeAll(first, batch));
    PutGet(stores, s, stores.Get(s) + EncodeAll(first, batch));
    BatchImage(L, H.Get(s), first, batch);
    forall u: Scope
      ensures H'.Get(u) <= L'.Keys && stores'.Get(u) == Image(L', H'.Get(u))
    {
      if u != s { ImageSame(L, L', H.Get(u)); }
    }
  }

  lemma BatchHomed(items: map<ItemId, Entry>, L: Ledger, H: Holds, s: Scope, first: ItemId, batch: seq<Item>, now: nat)
    requires Homed(items, L, H) && forall i :: i in L ==> i < first
    ensures var items' := items + FreshEntries(first, batch, s, now);
            && Homed(items', L + BatchLedger(first, batch), HoldBatch(H, s, first, |batch|))
            && Stale(items', HoldBatch(H, s, first, |batch|)) <= Stale(items, H)
  {
  }

  lemma BatchLedgerOk(items: map<ItemId, Entry>, L: Ledger, first: ItemId, batch: seq<Item>)
    requires LedgerOk(L, first) && (forall i :: i in items ==> i in L) && FirstError(items, batch).None?
    ensures LedgerOk(L + BatchLedger(first, batch), first + |batch|)
  {
    NoError(items, batch);
    var L' := L + BatchLedger(first, batch);
    forall i | i in L'
      ensures i < first + |batch| && WellFormed(L'[i]) && forall c :: c in L'[i].provenance.derivedFrom ==> c < i
    {
      if i in BatchLedger(first, batch) {
        assert L'[i] == batch[i - first];
      }
    }
  }

  lemma RegisterKept(y: Sys, L: Ledger, H: Holds, s: Scope, batch: seq<Item>, dest: Promotions)
    requires Sound(y, L, H) && FirstError(y.items, batch).None?
    ensures var d := Write(y, s, y.stores.Get(s) + EncodeAll(y.nextId, batch));
            d.ok ==> Kept(y, H, Done(Register(d.sys, s, batch), true), HoldBatch(H, s, y.nextId, |batch|),
                          L + BatchLedger(y.nextId, batch), dest)
  {
    var d := Write(y, s, y.stores.Get(s) + EncodeAll(y.nextId, batch));
    if d.ok {
      var first := y.nextId;
      var y1 := Register(d.sys, s, batch);
      BatchLaid(y.stores, L, H, s, first, batch);
      BatchHomed(y.items, L, H, s, first, batch, y1.env.clock);
      BatchLedgerOk(y.items, L, first, batch);
      KeptIntro(y, H, Done(y1, true), HoldBatch(H, s, first, |batch|), L + BatchLedger(first, batch), dest);
    }
  }

  lemma Unmoved(y: Sys, L: Ledger, H: Holds, d: Done, dest: Promotions)
    requires Sound(y, L, H) && d.sys.stores == y.stores && d.sys.items == y.items && d.sys.nextId == y.nextId
    ensures Kept(y, H, d, H, L, dest)
  {
    KeptIntro(y, H, d, H, L, dest);
  }

  lemma AddKept(cfg: Settings, y: Sys, L: Ledger, H: Holds, s: Scope, batch: seq<Item>, dest: Promotions)
    returns (L': Ledger, H': Holds)
    requires Sound(y, L, H)
    ensures Kept(y, H, Unfailed(DoAddBatch(cfg, y, s, batch)), H', L', dest) && Extends(L, L')
  {
    hide Laid, Homed, Stale, EnforceBounds, Layout.Encode, EncodeAll;
    L', H' := L, H;
    var d := Write(y, s, y.stores.Get(s) + EncodeAll(y.nextId, batch));
    if FirstError(y.items, batch).Some? || !d.ok {
      Unmoved(y, L, H, Unfailed(DoAddBatch(cfg, y, s, batch)), dest);
    } else {
      RegisterKept(y, L, H, s, batch, dest);
      L' := L + BatchLedger(y.nextId, batch);
      var y1, H1 := Register(d.sys, s, batch), HoldBatch(H, s, y.nextId, |batch|);
      H' := EnforceKept(cfg, y1, L', H1, s, dest);
      KeptChain(y, H, Done(y1, true), H1, EnforceBounds(cfg, y1, s), H', L', dest);
    }
  }

  // ---- the other operations -------------------------------------------------------------------

  lemma {:induction false} ChecksAreNotStorage(items: map<ItemId, Entry>, ids: seq<ItemId>, s: Scope)
    ensures CheckEach(items, ids, s) != Some(Storage)
  {
    if ids != [] { ChecksAreNotStorage(items, ids[1..], s); }
  }

  lemma RemoveKept(y: Sys, L: Ledger, H: Holds, s: Scope, id: ItemId, dest: Promotions) returns (H': Holds)
    requires Sound(y, L, H)
    ensures Kept(y, H, Unfailed(DoRemove(y, s, id)), H', L, dest)
  {
    var r := DoRemove(y, s, id);
    if r.result == Ok(Flag(true)) {
      H' := HoldNot(H, s, id);
      LaidDelete(y.stores, L, H, s, id);
      DropStale(y.items, L, H, id);
      KeptIntro(y, H, Unfailed(r), H', L, dest);
    } else {
      H' := H;
      Unmoved(y, L, H, Unfailed(r), dest);
    }
  }

  /** Booking a count does not disturb what the moves kept; then the bounds are enforced. */
  lemma ThenEnforce(cfg: Settings, y: Sys, L: Ledger, H: Holds, d: Done, H1: Holds, y1: Sys, s: Scope, dest: Promotions)
    returns (H': Holds)
    requires Kept(y, H, d, H1, L, dest) && d.ok
    requires y1.stores == d.sys.stores && y1.items == d.sys.items && y1.nextId == d.sys.nextId
    ensures Kept(y, H, EnforceBounds(cfg, y1, s), H', L, dest)
  {
    hide Laid, Homed, LedgerOk, Stale, EnforceBounds;
    H' := EnforceKept(cfg, y1, L, H1, s, dest);
    KeptChain(y, H, Done(y1, true), H1, EnforceBounds(cfg, y1, s), H', L, dest);
  }

  lemma PromoteKept(cfg: Settings, y: Sys, L: Ledger, H: Holds, ids: seq<ItemId>, from: Scope, to: Scope,
                    dest: Promotions)
    returns (H': Holds)
    requires Sound(y, L, H)
    requires to.Rank() > from.Rank() ==> forall i :: i in ids ==> i in dest && dest[i] == to
    ensures Kept(y, H, Unfailed(DoPromote(cfg, y, ids, from, to)), H', L, dest)
  {
    hide Laid, Homed, LedgerOk, Stale, Kept, EnforceBounds, MoveAll;
    var r, u := DoPromote(cfg, y, ids, from, to), Order.Unique(ids);
    if to.Rank() < from.Rank() || CheckEach(y.items, u, from).Some? || to == from {
      H' := H;
      Unmoved(y, L, H, Unfailed(r), dest);
    } else {
      CheckedInScope(y.items, u, from);
      assert forall i :: i in u ==> i in Order.Elems(u);
      var d := MoveAll(y, u, to, Promoted);
      H' := MoveAllKept(y, L, H, u, to, Promoted, dest);
      if d.ok {
        H' := ThenEnforce(cfg, y, L, H, d, H', CountPromoted(d.sys, |u|), to, dest);
      }
    }
  }

  lemma EvictItemsKept(y: Sys, L: Ledger, H: Holds, s: Scope, ids: seq<ItemId>, dest: Promotions) returns (H': Holds)
    requires Sound(y, L, H)
    ensures Kept(y, H, Unfailed(DoEvictItems(y, s, ids)), H', L, dest)
  {
    var u := Order.Unique(ids);
    if CheckEach(y.items, u, s).Some? {
      H' := H;
      Unmoved(y, L, H, Unfailed(DoEvictItems(y, s, ids)), dest);
    } else {
      CheckedInScope(y.items, u, s);
      H' := DropAllKept(y, L, H, u, dest);
    }
  }

  lemma DemoteKept(cfg: Settings, y: Sys, L: Ledger, H: Holds, s: Scope, ids: seq<ItemId>, to: Scope, dest: Promotions)
    returns (H': Holds)
    requires Sound(y, L, H)
    ensures Kept(y, H, Unfailed(DoDemote(cfg, y, s, ids, to)), H', L, dest)
  {
    hide Laid, Homed, LedgerOk, Stale, Kept, EnforceBounds, MoveAll;
    var r, u := DoDemote(cfg, y, s, ids, to), Order.Unique(ids);
    if to.Rank() >= s.Rank() || CheckEach(y.items, u, s).Some? {
      H' := H;
      Unmoved(y, L, H, Unfailed(r), dest);
    } else {
      CheckedInScope(y.items, u, s);
      var d := MoveAll(y, u, to, Demoted);
      H' := MoveAllKept(y, L, H, u, to, Demoted, dest);
      if d.ok {
        H' := ThenEnforce(cfg, y, L, H, d, H', CountDemoted(d.sys, |u|), to, dest);
      }
    }
  }

  lemma EvictPolicyKept(cfg: Settings, y: Sys, L: Ledger, H: Holds, s: Scope, count: nat, dest: Promotions)
    returns (H': Holds)
    requires Sound(y, L, H)
    ensures Kept(y, H, Unfailed(DoEvictPolicy(cfg, y, s, count)), H', L, dest)
  {
    var d := EvictByPolicy(cfg, y, s, count);
    H' := EvictByPolicyKept(cfg, y, L, H, s, count, dest);
    if d.ok && s.Colder().Some? {
      H' := ThenEnforce(cfg, y, L, H, d, H', d.sys, s.Colder().value, dest);
    }
  }

  // ---- queries --------------------------------------------------------------------------------

  lemma {:induction false} ScanUnmoved(y: Sys, scopes: seq<Scope>, p: TriplePattern)
    ensures var r := ScanScopes(y, scopes, p);
            r.sys.stores == y.stores && r.sys.nextId == y.nextId && r.sys.stats == y.stats
            && r.sys.env.clock == y.env.clock
    decreases |scopes|
  {
    if scopes != [] {
      var d := Attempt(y);
      if d.ok { ScanUnmoved(d.sys, scopes[1..], p); }
    }
  }

  /** Touching changes access statistics only. */
  ghost predicate SamePlaces(items: map<ItemId, Entry>, items': map<ItemId, Entry>) {
    && items'.Keys == items.Keys
    && forall i :: i in items ==>
         items'[i].item == items[i].item && items'[i].scope == items[i].scope && items'[i].arrival == items[i].arrival
  }

  lemma {:induction false} TouchAllPlaces(cfg: Settings, items: map<ItemId, Entry>, hits: seq<Hit>, now: nat)
    requires Indexed(items, hits)
    ensures SamePlaces(items, TouchAll(cfg, items, hits, now))
    decreases |hits|
  {
    if hits != [] {
      var id := hits[0].id;
      TouchAllPlaces(cfg, items[id := Touch(cfg, items[id], now)], hits[1..], now);
    }
  }

  lemma SamePlacesKept(y: Sys, L: Ledger, H: Holds, y1: Sys, dest: Promotions)
    requires Sound(y, L, H) && y1.stores == y.stores && y1.nextId == y.nextId && SamePlaces(y.items, y1.items)
    ensures Kept(y, H, Done(y1, true), H, L, dest)
  {
    assert Stale(y1.items, H) == Stale(y.items, H);
    KeptIntro(y, H, Done(y1, true), H, L, dest);
  }

  lemma RaiseKept(y: Sys, L: Ledger, H: Holds, up: seq<ItemId>, mid: seq<ItemId>, dest: Promotions)
    returns (H': Holds)
    requires Sound(y, L, H) && Order.Distinct(up) && Order.Distinct(mid)
    requires AllIn(y.items, up, Major) && AllIn(y.items, mid, Minor)
    requires Sends(dest, up, Enduring) && Sends(dest, mid, Major)
    ensures Kept(y, H, Raise(y, up, mid), H', L, dest)
  {
    hide Laid, Homed, LedgerOk, Stale, Relocate;
    var d := MoveAll(y, up, Enduring, Promoted);
    H' := MoveAllKept(y, L, H, up, Enduring, Promoted, dest);
    if d.ok {
      var H1 := H';
      MoveAllFrame(y, up, Enduring, Promoted);
      H' := MoveAllKept(d.sys, L, H1, mid, Major, Promoted, dest);
      KeptChain(y, H, d, H1, MoveAll(d.sys, mid, Major, Promoted), H', L, dest);
    }
  }

  /** A list move touches the listed items only. */
  lemma {:induction false} MoveAllFrame(y: Sys, ids: seq<ItemId>, to: Scope, arrival: Arrival)
    requires forall i :: i in ids ==> i in y.items
    ensures forall i :: i in y.items && i !in ids ==> MoveAll(y, ids, to, arrival).sys.items[i] == y.items[i]
    decreases |ids|
  {
    if ids != [] {
      var d := MoveItem(y, ids[0], to, arrival);
      assert d.sys.items == y.items || d.sys.items == y.items[ids[0] := Relocate(y.items[ids[0]], to, arrival)];
      if d.ok { MoveAllFrame(d.sys, ids[1..], to, arrival); }
    }
  }

  lemma RaiseAndTrimKept(cfg: Settings, y: Sys, L: Ledger, H: Holds, up: seq<ItemId>, mid: seq<ItemId>,
                         dest: Promotions)
    returns (H': Holds)
    requires Sound(y, L, H) && Order.Distinct(up) && Order.Distinct(mid)
    requires AllIn(y.items, up, Major) && AllIn(y.items, mid, Minor)
    requires Sends(dest, up, Enduring) && Sends(dest, mid, Major)
    ensures Kept(y, H, RaiseAndTrim(cfg, y, up, mid), H', L, dest)
  {
    hide Kept, Sound, Raise, EnforceBounds, Sends;
    var d := Raise(y, up, mid);
    H' := RaiseKept(y, L, H, up, mid, dest);
    if d.ok {
      var y1 := CountPromoted(d.sys, |up| + |mid|);
      if up != [] {
        H' := ThenEnforce(cfg, y, L, H, d, H', y1, Enduring, dest);
      } else if mid != [] {
        H' := ThenEnforce(cfg, y, L, H, d, H', y1, Major, dest);
      }
    }
  }

  lemma DueSends(cfg: Settings, items: map<ItemId, Entry>, now: nat)
    ensures Sends(DueTargets(cfg, items, now), DueEnduring(cfg, items), Enduring)
    ensures Sends(DueTargets(cfg, items, now), DueMajor(cfg, items, now), Major)
  {
    var up, mid := DueEnduring(cfg, items), DueMajor(cfg, items, now);
    assert forall i :: i in up ==> i in Order.Elems(up);
    assert forall i :: i in mid ==> i in Order.Elems(mid);
  }

  lemma AutoPromoteKept(cfg: Settings, y: Sys, L: Ledger, H: Holds, now: nat) returns (H': Holds)
    requires Sound(y, L, H)
    ensures Kept(y, H, AutoPromote(cfg, y, now), H', L, DueTargets(cfg, y.items, now))
  {
    hide Kept, Sound, RaiseAndTrim, Sends, DueTargets;
    DueSends(cfg, y.items, now);
    H' := RaiseAndTrimKept(cfg, y, L, H, DueEnduring(cfg, y.items), DueMajor(cfg, y.items, now),
                           DueTargets(cfg, y.items, now));
  }

  lemma {:induction false} ScanClock(y: Sys, scopes: seq<Scope>, p: TriplePattern)
    ensures var r := ScanScopes(y, scopes, p);
            r.sys.env.clock == y.env.clock && r.sys.env.delays == y.env.delays
    decreases |scopes|
  {
    if scopes != [] {
      var d := Attempt(y);
      if d.ok { ScanClock(d.sys, scopes[1..], p); }
    }
  }

  /** The state a query serves its hits in, and the index it leaves. */
  lemma ServedIs(cfg: Settings, y: Sys, L: Ledger, H: Holds, sel: Selection, p: TriplePattern, limit: Option<nat>)
    requires Sound(y, L, H) && ScanScopes(y, Consulted(sel), p).ok
    ensures var r := ScanScopes(y, Consulted(sel), p);
            var y1, hits := ReadClock(r.sys), Cut(r.hits, limit);
            && Indexed(y1.items, hits)
            && Served(cfg, y1, hits).items == ServedItems(cfg, y, sel, p, limit)
            && y1.env.clock == ReadClock(y).env.clock
  {
    hide TouchAll, Sound, Answers.IndexHits, ScanScopes, Touch;
    Answers.HitsIndexed(y.items, Consulted(sel), p, limit);
    Answers.ScanIsIndex(y, L, H, Consulted(sel), p);
    ScanClock(y, Consulted(sel), p);
  }

  lemma QueryKept(cfg: Settings, y: Sys, L: Ledger, H: Holds, sel: Selection, p: TriplePattern, limit: Option<nat>)
    returns (H': Holds)
    requires Sound(y, L, H)
    ensures Kept(y, H, Unfailed(DoQuery(cfg, y, sel, p, limit)), H', L, PromotionsOf(cfg, y, Query(sel, p, limit)))
  {
    hide TouchAll, Sound, Kept, DueTargets, ServedItems;
    var r, dest := ScanScopes(y, Consulted(sel), p), PromotionsOf(cfg, y, Query(sel, p, limit));
    ScanUnmoved(y, Consulted(sel), p);
    if !r.ok {
      H' := H;
      Unmoved(y, L, H, Unfailed(DoQuery(cfg, y, sel, p, limit)), dest);
    } else {
      var y1, hits := ReadClock(r.sys), Cut(r.hits, limit);
      assert Indexed(y1.items, hits);
      TouchAllPlaces(cfg, y1.items, hits, y1.env.clock);
      var y2 := Served(cfg, y1, hits);
      ServedIs(cfg, y, L, H, sel, p, limit);
      SamePlacesKept(y, L, H, y2, dest);
      H' := H;
      if cfg.promotion.afterEachQuery {
        KeptSound(y, H, Done(y2, true), H, L, dest);
        H' := AutoPromoteKept(cfg, y2, L, H, y1.env.clock);
        KeptChain(y, H, Done(y2, true), H, AutoPromote(cfg, y2, y1.env.clock), H', L, dest);
      }
    }
  }

  /** Every operation, under any storage faults, keeps index and stores sound.  If it does not report a
      storage failure it leaves no new stale copy; if it does, it leaves at most one: a copy of a live
      item that is colder than the item's home, or the target copy of a promotion under way. */
  lemma ApplyKept(cfg: Settings, y: Sys, L: Ledger, H: Holds, op: Op) returns (L': Ledger, H': Holds)
    requires Sound(y, L, H)
    ensures Kept(y, H, Unfailed(Apply(cfg, y, op)), H', L', PromotionsOf(cfg, y, op)) && Extends(L, L')
  {
    hide Kept, Sound, DoAddBatch, DoRemove, DoQuery, DoPromote, DoEvictItems, DoDemote, DoEvictPolicy;
    var dest := PromotionsOf(cfg, y, op);
    L' := L;
    match op
    case AddBatch(s, batch) => L', H' := AddKept(cfg, y, L, H, s, batch, dest);
    case Remove(s, id) => H' := RemoveKept(y, L, H, s, id, dest);
    case Query(sel, p, limit) => H' := QueryKept(cfg, y, L, H, sel, p, limit);
    case Promote(ids, from, to) => H' := PromoteKept(cfg, y, L, H, ids, from, to, dest);
    case Evict(s, EvictItems(ids)) => H' := EvictItemsKept(y, L, H, s, ids, dest);
    case Evict(s, EvictDemote(ids, to)) => H' := DemoteKept(cfg, y, L, H, s, ids, to, dest);
    case Evict(s, EvictPolicy(count)) => H' := EvictPolicyKept(cfg, y, L, H, s, count, dest);
  }
}
