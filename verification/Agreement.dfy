/** The index and the stores agree.  A ledger records the content of every id that any store holds, and
    `Holds` says which ids each store holds; a copy outside an item's home is stale.  Operations never
    leave a stale copy unless a storage step fails, and then at most one. */
module Agreement {
  import opened Rdf
  import opened Items
  import opened Entries
  import Order
  import opened Layout
  import opened Machine

  type Ledger = map<ItemId, Item>

  type Holds = Tiers<set<ItemId>>

  /** The quads of the listed items and nothing else. */
  ghost function Image(L: Ledger, ids: set<ItemId>): set<Quad>
    requires ids <= L.Keys
  {
    set i, q | i in ids && q in Encode(i, L[i]) :: q
  }

  lemma ImageAdd(L: Ledger, ids: set<ItemId>, i: ItemId)
    requires ids <= L.Keys && i in L
    ensures Image(L, ids + {i}) == Image(L, ids) + Encode(i, L[i])
  {
  }

  /** Deleting one item leaves the quads of every other item untouched. */
  lemma ImageDelete(L: Ledger, ids: set<ItemId>, i: ItemId)
    requires ids <= L.Keys
    ensures DeleteItem(Image(L, ids), i) == Image(L, ids - {i})
  {
    hide Encode, OwnerOf, DeleteItem;
    DeleteRemovesOwned(Image(L, ids), i);
    forall j, q | j in ids && q in Encode(j, L[j])
      ensures OwnerOf(q) == Some(j)
    {
      EncodeOwned(j, L[j], q);
    }
  }

  lemma ImageSame(L: Ledger, L': Ledger, ids: set<ItemId>)
    requires ids <= L.Keys && forall i :: i in ids ==> i in L' && L'[i] == L[i]
    ensures Image(L, ids) == Image(L', ids)
  {
  }

  /** Every recorded item passed validation and cites only smaller ids; every id has been issued. */
  ghost predicate LedgerOk(L: Ledger, nextId: nat) {
    forall i :: i in L ==>
      i < nextId && WellFormed(L[i]) && forall c :: c in L[i].provenance.derivedFrom ==> c < i
  }

  ghost predicate Laid(stores: Tiers<set<Quad>>, L: Ledger, H: Holds) {
    forall s: Scope :: H.Get(s) <= L.Keys && stores.Get(s) == Image(L, H.Get(s))
  }

  /** Every live item is in the ledger, and in the store of its scope. */
  ghost predicate Homed(items: map<ItemId, Entry>, L: Ledger, H: Holds) {
    forall i :: i in items ==> i in L && L[i] == items[i].item && i in H.Get(items[i].scope)
  }

  ghost predicate Sound(y: Sys, L: Ledger, H: Holds) {
    Laid(y.stores, L, H) && Homed(y.items, L, H) && LedgerOk(L, y.nextId)
  }

  datatype Copy = Copy(scope: Scope, id: ItemId)

  predicate AtHome(items: map<ItemId, Entry>, s: Scope, i: ItemId) {
    i in items && items[i].scope == s
  }

  /** The copies that no live item accounts for. */
  ghost function Stale(items: map<ItemId, Entry>, H: Holds): set<Copy> {
    set s: Scope, i | i in H.Get(s) && !AtHome(items, s, i) :: Copy(s, i)
  }

  /** Promotions under way: where each promoted item is going. */
  type Promotions = map<ItemId, Scope>

  /** A stale copy that an interrupted move may leave: of a live item, and either colder than the item's
      home or the target of a promotion under way. */
  ghost predicate LeftBehind(items: map<ItemId, Entry>, dest: Promotions, c: Copy) {
    && c.id in items
    && (c.scope.Rank() < items[c.id].scope.Rank() || (c.id in dest && dest[c.id] == c.scope))
  }

  /** What a stretch of storage steps keeps: at most one new stale copy, left behind by a move, and only
      if a step failed. */
  ghost predicate Kept(y: Sys, H: Holds, d: Done, H': Holds, L: Ledger, dest: Promotions) {
    var extra := Stale(d.sys.items, H') - Stale(y.items, H);
    && Sound(d.sys, L, H')
    && (d.ok ==> extra == {})
    && |extra| <= 1
    && forall c :: c in extra ==> LeftBehind(d.sys.items, dest, c)
  }

  lemma KeptChain(y: Sys, H: Holds, d1: Done, H1: Holds, d2: Done, H2: Holds, L: Ledger, dest: Promotions)
    requires Kept(y, H, d1, H1, L, dest) && d1.ok && Kept(d1.sys, H1, d2, H2, L, dest)
    ensures Kept(y, H, d2, H2, L, dest)
  {
    hide Sound, Stale, LeftBehind;
    var s0, s1, s2 := Stale(y.items, H), Stale(d1.sys.items, H1), Stale(d2.sys.items, H2);
    assert s1 - s0 == {};
    assert forall c :: c in s1 ==> c in s1 - s0 || c in s0;
    assert s2 - s0 <= s2 - s1;
    SubsetSize(s2 - s0, s2 - s1);
  }

  lemma KeptSound(y: Sys, H: Holds, d: Done, H': Holds, L: Ledger, dest: Promotions)
    requires Kept(y, H, d, H', L, dest)
    ensures Sound(d.sys, L, H')
  {
  }

  lemma SubsetSize<T>(a: set<T>, b: set<T>)
    requires a <= b
    ensures |a| <= |b|
  {
    assert b == a + (b - a);
  }

  lemma PutGet<T>(t: Tiers<T>, s: Scope, x: T)
    ensures forall u: Scope :: t.Put(s, x).Get(u) == if u == s then x else t.Get(u)
  {
  }

  ghost function HoldAlso(H: Holds, s: Scope, i: ItemId): (H': Holds)
    ensures forall u: Scope :: H'.Get(u) == if u == s then H.Get(u) + {i} else H.Get(u)
  {
    H.Put(s, H.Get(s) + {i})
  }

  ghost function HoldNot(H: Holds, s: Scope, i: ItemId): (H': Holds)
    ensures forall u: Scope :: H'.Get(u) == if u == s then H.Get(u) - {i} else H.Get(u)
  {
    H.Put(s, H.Get(s) - {i})
  }

  ghost function StoreAlso(stores: Tiers<set<Quad>>, s: Scope, i: ItemId, item: Item): Tiers<set<Quad>> {
    stores.Put(s, stores.Get(s) + Encode(i, item))
  }

  ghost function StoreNot(stores: Tiers<set<Quad>>, s: Scope, i: ItemId): Tiers<set<Quad>> {
    stores.Put(s, DeleteItem(stores.Get(s), i))
  }

  /** Writing an item's quads into a store makes the store hold it. */
  lemma LaidAdd(stores: Tiers<set<Quad>>, L: Ledger, H: Holds, s: Scope, i: ItemId)
    requires Laid(stores, L, H) && i in L
    ensures Laid(StoreAlso(stores, s, i, L[i]), L, HoldAlso(H, s, i))
  {
    ImageAdd(L, H.Get(s), i);
    PutGet(stores, s, stores.Get(s) + Encode(i, L[i]));
  }

  lemma LaidDelete(stores: Tiers<set<Quad>>, L: Ledger, H: Holds, s: Scope, i: ItemId)
    requires Laid(stores, L, H)
    ensures Laid(StoreNot(stores, s, i), L, HoldNot(H, s, i))
  {
    ImageDelete(L, H.Get(s), i);
    PutGet(stores, s, DeleteItem(stores.Get(s), i));
  }

  lemma HalfMoveStale(items: map<ItemId, Entry>, H: Holds, id: ItemId, to: Scope)
    ensures Stale(items, HoldAlso(H, to, id)) - Stale(items, H) <= {Copy(to, id)}
  {
  }

  lemma FullMoveStale(items: map<ItemId, Entry>, H: Holds, id: ItemId, e: Entry)
    requires id in items && items[id].scope != e.scope
    ensures Stale(items[id := e], HoldNot(HoldAlso(H, e.scope, id), items[id].scope, id)) <= Stale(items, H)
  {
  }

  lemma FullMoveHomed(items: map<ItemId, Entry>, L: Ledger, H: Holds, id: ItemId, e: Entry)
    requires Homed(items, L, H) && id in items && items[id].scope != e.scope && e.item == items[id].item
    ensures Homed(items[id := e], L, HoldNot(HoldAlso(H, e.scope, id), items[id].scope, id))
  {
  }

  lemma KeptIntro(y: Sys, H: Holds, d: Done, H': Holds, L: Ledger, dest: Promotions)
    requires Sound(d.sys, L, H') && Stale(d.sys.items, H') <= Stale(y.items, H)
    ensures Kept(y, H, d, H', L, dest)
  {
    assert Stale(d.sys.items, H') - Stale(y.items, H) == {};
  }

  lemma KeptLapse(y: Sys, H: Holds, d: Done, H': Holds, L: Ledger, c: Copy, dest: Promotions)
    requires Sound(d.sys, L, H') && Stale(d.sys.items, H') - Stale(y.items, H) <= {c}
    requires !d.ok && LeftBehind(d.sys.items, dest, c)
    ensures Kept(y, H, d, H', L, dest)
  {
    SubsetSize(Stale(d.sys.items, H') - Stale(y.items, H), {c});
  }

  lemma HalfMoveKept(y: Sys, L: Ledger, H: Holds, id: ItemId, to: Scope, d: Done, dest: Promotions)
    requires Sound(y, L, H) && LeftBehind(y.items, dest, Copy(to, id))
    requires !d.ok && d.sys.nextId == y.nextId && d.sys.items == y.items
    requires d.sys.stores == StoreAlso(y.stores, to, id, y.items[id].item)
    ensures Kept(y, H, d, HoldAlso(H, to, id), L, dest)
  {
    hide Laid, LedgerOk, Stale, Kept, StoreAlso, Encode, Image;
    LaidAdd(y.stores, L, H, to, id);
    HalfMoveStale(y.items, H, id, to);
    assert Homed(y.items, L, HoldAlso(H, to, id));
    KeptLapse(y, H, d, HoldAlso(H, to, id), L, Copy(to, id), dest);
  }

  lemma FullMoveKept(y: Sys, L: Ledger, H: Holds, id: ItemId, e: Entry, d: Done, dest: Promotions)
    requires Sound(y, L, H) && id in y.items && y.items[id].scope != e.scope && e.item == y.items[id].item
    requires d.ok && d.sys.nextId == y.nextId && d.sys.items == y.items[id := e]
    requires d.sys.stores == StoreNot(StoreAlso(y.stores, e.scope, id, e.item), y.items[id].scope, id)
    ensures Kept(y, H, d, HoldNot(HoldAlso(H, e.scope, id), y.items[id].scope, id), L, dest)
  {
    var H1, from := HoldAlso(H, e.scope, id), y.items[id].scope;
    LaidAdd(y.stores, L, H, e.scope, id);
    LaidDelete(StoreAlso(y.stores, e.scope, id, e.item), L, H1, from, id);
    FullMoveStale(y.items, H, id, e);
    FullMoveHomed(y.items, L, H, id, e);
    KeptIntro(y, H, d, HoldNot(H1, from, id), L, dest);
  }

  /** The three ways a move can end. */
  lemma MoveOutcomes(y: Sys, id: ItemId, to: Scope, arrival: Arrival)
    requires id in y.items && y.items[id].scope != to
    ensures var d, e := MoveItem(y, id, to, arrival), y.items[id];
            && d.sys.nextId == y.nextId
            && (d.ok ==> && d.sys.items == y.items[id := Relocate(e, to, arrival)]
                         && d.sys.stores == StoreNot(StoreAlso(y.stores, to, id, e.item), e.scope, id))
            && (!d.ok ==> && d.sys.items == y.items
                          && (|| d.sys.stores == y.stores
                              || d.sys.stores == StoreAlso(y.stores, to, id, e.item)))
  {
  }

  /** A move is two commits.  If the second fails, the item stays where it was and the target holds one
      stale copy of it; otherwise no copy is left behind. */
  lemma MoveKept(y: Sys, L: Ledger, H: Holds, id: ItemId, to: Scope, arrival: Arrival, dest: Promotions)
    returns (H': Holds)
    requires Sound(y, L, H) && id in y.items && y.items[id].scope != to && LeftBehind(y.items, dest, Copy(to, id))
    ensures Kept(y, H, MoveItem(y, id, to, arrival), H', L, dest)
    ensures var d, from := MoveItem(y, id, to, arrival), y.items[id].scope;
            && (d.ok ==> H' == HoldNot(HoldAlso(H, to, id), from, id))
            && (!d.ok ==> H' == if d.sys.stores == y.stores then H else HoldAlso(H, to, id))
    ensures Stale(MoveItem(y, id, to, arrival).sys.items, H') - Stale(y.items, H) <= {Copy(to, id)}
  {
    hide MoveItem, Encode, DeleteItem, Laid, Homed, LedgerOk, Stale;
    MoveOutcomes(y, id, to, arrival);
    var d, from := MoveItem(y, id, to, arrival), y.items[id].scope;
    if d.ok {
      H' := HoldNot(HoldAlso(H, to, id), from, id);
      FullMoveKept(y, L, H, id, Relocate(y.items[id], to, arrival), d, dest);
    } else if d.sys.stores == y.stores {
      H' := H;
      KeptIntro(y, H, d, H, L, dest);
    } else {
      H' := HoldAlso(H, to, id);
      HalfMoveKept(y, L, H, id, to, d, dest);
      HalfMoveStale(y.items, H, id, to);
    }
  }

  lemma DropStale(items: map<ItemId, Entry>, L: Ledger, H: Holds, id: ItemId)
    requires Homed(items, L, H) && id in items
    ensures Stale(items - {id}, HoldNot(H, items[id].scope, id)) <= Stale(items, H)
    ensures Homed(items - {id}, L, HoldNot(H, items[id].scope, id))
  {
  }

  lemma DropOutcomes(y: Sys, id: ItemId)
    requires id in y.items
    ensures var d := DropItem(y, id);
            && d.sys.nextId == y.nextId
            && (d.ok ==> d.sys.items == y.items - {id} && d.sys.stores == StoreNot(y.stores, y.items[id].scope, id))
            && (!d.ok ==> d.sys.items == y.items && d.sys.stores == y.stores)
  {
  }

  lemma DropKept(y: Sys, L: Ledger, H: Holds, id: ItemId, dest: Promotions) returns (H': Holds)
    requires Sound(y, L, H) && id in y.items
    ensures Kept(y, H, DropItem(y, id), H', L, dest)
  {
    DropOutcomes(y, id);
    var d, s := DropItem(y, id), y.items[id].scope;
    if !d.ok {
      H' := H;
    } else {
      H' := HoldNot(H, s, id);
      LaidDelete(y.stores, L, H, s, id);
      DropStale(y.items, L, H, id);
    }
    KeptIntro(y, H, d, H', L, dest);
  }

  lemma KeptNothing(y: Sys, L: Ledger, H: Holds, dest: Promotions)
    requires Sound(y, L, H)
    ensures Kept(y, H, Done(y, true), H, L, dest)
  {
    assert Stale(y.items, H) - Stale(y.items, H) == {};
  }

  /** The other items of a list are where they were once the first has moved. */
  lemma MoveFrame(y: Sys, ids: seq<ItemId>, to: Scope, arrival: Arrival)
    requires ids != [] && Order.Distinct(ids) && forall i :: i in ids ==> i in y.items
    ensures forall i :: i in ids[1..] ==> MoveItem(y, ids[0], to, arrival).sys.items[i] == y.items[i]
  {
    var d := MoveItem(y, ids[0], to, arrival);
    assert d.sys.items == y.items || d.sys.items == y.items[ids[0] := Relocate(y.items[ids[0]], to, arrival)];
  }

  lemma MoveAllKept(y: Sys, L: Ledger, H: Holds, ids: seq<ItemId>, to: Scope, arrival: Arrival, dest: Promotions)
    returns (H': Holds)
    requires Sound(y, L, H) && Order.Distinct(ids)
    requires forall i :: i in ids ==> i in y.items && y.items[i].scope != to && LeftBehind(y.items, dest, Copy(to, i))
    ensures Kept(y, H, MoveAll(y, ids, to, arrival), H', L, dest)
    decreases |ids|
  {
    hide Laid, Homed, LedgerOk, Stale, Relocate;
    if ids == [] {
      H' := H;
      KeptNothing(y, L, H, dest);
    } else {
      var d1 := MoveItem(y, ids[0], to, arrival);
      var H1 := MoveKept(y, L, H, ids[0], to, arrival, dest);
      H' := H1;
      if d1.ok {
        var rest := ids[1..];
        MoveFrame(y, ids, to, arrival);
        H' := MoveAllKept(d1.sys, L, H1, rest, to, arrival, dest);
        KeptChain(y, H, d1, H1, MoveAll(d1.sys, rest, to, arrival), H', L, dest);
      }
    }
  }

  lemma DropAllKept(y: Sys, L: Ledger, H: Holds, ids: seq<ItemId>, dest: Promotions) returns (H': Holds)
    requires Sound(y, L, H) && Order.Distinct(ids) && forall i :: i in ids ==> i in y.items
    ensures Kept(y, H, DropAll(y, ids), H', L, dest)
    decreases |ids|
  {
    hide Laid, Homed, LedgerOk, Stale;
    if ids == [] {
      H' := H;
      KeptNothing(y, L, H, dest);
    } else {
      var d1 := DropItem(y, ids[0]);
      var H1 := DropKept(y, L, H, ids[0], dest);
      H' := H1;
      if d1.ok {
        H' := DropAllKept(d1.sys, L, H1, ids[1..], dest);
        KeptChain(y, H, d1, H1, DropAll(d1.sys, ids[1..]), H', L, dest);
      }
    }
  }

  lemma EvictOneKept(cfg: Settings, y: Sys, L: Ledger, H: Holds, s: Scope, id: ItemId, dest: Promotions)
    returns (H': Holds)
    requires Sound(y, L, H) && AtHome(y.items, s, id)
    ensures Kept(y, H, EvictOne(cfg, y, s, id), H', L, dest)
  {
    var target := TargetOf(cfg.target, s, y.items[id].arrival);
    if target.Some? {
      H' := MoveKept(y, L, H, id, target.value, Demoted, dest);
    } else {
      H' := DropKept(y, L, H, id, dest);
    }
  }

  /** Evicting one item does not touch the entries of the others. */
  lemma EvictOneFrame(cfg: Settings, y: Sys, s: Scope, id: ItemId, j: ItemId)
    requires id in y.items && j in y.items && j != id
    ensures var d := EvictOne(cfg, y, s, id); j in d.sys.items && d.sys.items[j] == y.items[j]
  {
  }

  lemma EvictVictimsKept(cfg: Settings, y: Sys, L: Ledger, H: Holds, s: Scope, ids: seq<ItemId>, dest: Promotions)
    returns (H': Holds)
    requires Sound(y, L, H) && Order.Distinct(ids) && forall i :: i in ids ==> i in y.items && y.items[i].scope == s
    ensures Kept(y, H, EvictVictims(cfg, y, s, ids), H', L, dest)
    decreases |ids|
  {
    hide Laid, Homed, LedgerOk, Stale;
    if ids == [] {
      H' := H;
      KeptNothing(y, L, H, dest);
    } else {
      var d1 := EvictOne(cfg, y, s, ids[0]);
      var H1 := EvictOneKept(cfg, y, L, H, s, ids[0], dest);
      H' := H1;
      if d1.ok {
        var rest := ids[1..];
        forall i | i in rest
          ensures AtHome(d1.sys.items, s, i)
        {
          EvictOneFrame(cfg, y, s, ids[0], i);
        }
        H' := EvictVictimsKept(cfg, d1.sys, L, H1, s, rest, dest);
        KeptChain(y, H, d1, H1, EvictVictims(cfg, d1.sys, s, rest), H', L, dest);
      }
    }
  }

  lemma EvictByPolicyKept(cfg: Settings, y: Sys, L: Ledger, H: Holds, s: Scope, count: nat, dest: Promotions)
    returns (H': Holds)
    requires Sound(y, L, H)
    ensures Kept(y, H, EvictByPolicy(cfg, y, s, count), H', L, dest)
  {
    hide Laid, Homed, LedgerOk, Stale;
    var y1 := ReadClock(y);
    var v := Victims(cfg, y1.items, s, count, y1.env.clock);
    assert forall i :: i in v ==> i in Order.Elems(v);
    H' := EvictVictimsKept(cfg, y1, L, H, s, v, dest);
  }

  lemma EnforceKept(cfg: Settings, y: Sys, L: Ledger, H: Holds, s: Scope, dest: Promotions) returns (H': Holds)
    requires Sound(y, L, H)
    ensures Kept(y, H, EnforceBounds(cfg, y, s), H', L, dest)
    decreases s.Rank()
  {
    hide Kept, Sound, EvictByPolicy;
    var d := TrimTier(cfg, y, s);
    var n, bound := |InScope(y.items, s)|, cfg.bounds.Get(s);
    if bound.Some? && n > bound.value {
      H' := EvictByPolicyKept(cfg, y, L, H, s, n - bound.value, dest);
    } else {
      H' := H;
      KeptNothing(y, L, H, dest);
    }
    if d.ok && s.Colder().Some? {
      var H1 := H';
      KeptSound(y, H, d, H1, L, dest);
      H' := EnforceKept(cfg, d.sys, L, H1, s.Colder().value, dest);
      KeptChain(y, H, d, H1, EnforceBounds(cfg, d.sys, s.Colder().value), H', L, dest);
    }
  }
}
