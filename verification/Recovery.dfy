/** Opening a session over stores: loading, the choice between copies, and what a crash leaves. */
module Recovery {
  import opened Rdf
  import opened Items
  import opened Entries
  import Order
  import opened Layout
  import opened Machine
  import opened Agreement
  import Steps
  import Flow
  import Laws

  datatype Loaded = Loaded(id: ItemId, item: Item)

  /** One metadata quad: the item it stands for, or corruption. */
  function ReadRecord(store: set<Quad>, q: Quad): Result<Loaded> {
    if q.subj.BlankSubject? || !q.obj.LiteralTerm? then Err(Corrupt)
    else match ParseItemGraph(q.subj.node)
      case None => Err(Corrupt)
      case Some(id) =>
        match Decode(q.obj.literal.value, Scan(store, GraphPattern(id)))
        case Err(e) => Err(e)
        case Ok(item) => Ok(Loaded(id, item))
  }

  /** A record can be read iff its subject is the graph name of some item, its object is a literal and that
      literal decodes; it then stands for that item. */
  lemma ReadRecordTells(store: set<Quad>, q: Quad)
    ensures var r := ReadRecord(store, q);
            && (r.Ok? ==> q.subj == NamedSubject(ItemGraph(r.value.id)) && q.obj.LiteralTerm?
                          && Decode(q.obj.literal.value, Scan(store, GraphPattern(r.value.id))) == Ok(r.value.item))
            && (r.Err? ==> r == Err(Corrupt)
                           && forall i: ItemId :: q.subj == NamedSubject(ItemGraph(i)) && q.obj.LiteralTerm? ==>
                                Decode(q.obj.literal.value, Scan(store, GraphPattern(i))).Err?)
  {
    if q.subj.NamedSubject? {
      forall i: ItemId
        ensures ParseItemGraph(q.subj.node) == Some(i) <==> q.subj.node == ItemGraph(i)
      {
        GraphNameBijection(q.subj.node, i);
      }
    }
  }

  /** Every record of the store can be read, and `found` has one reading per id. */
  ghost predicate Loads(store: set<Quad>, found: map<ItemId, Item>) {
    && (forall q :: q in Scan(store, ALL_RECORDS) ==>
          ReadRecord(store, q).Ok? && ReadRecord(store, q).value.id in found)
    && (forall i :: i in found ==>
          exists q :: q in Scan(store, ALL_RECORDS) && ReadRecord(store, q) == Ok(Loaded(i, found[i])))
  }

  lemma RecordsOfImage(L: Ledger, ids: set<ItemId>, q: Quad)
    requires ids <= L.Keys
    ensures q in Scan(Image(L, ids), ALL_RECORDS) <==> exists i :: i in ids && q == MetaQuad(i, L[i])
  {
    if q in Scan(Image(L, ids), ALL_RECORDS) {
      var i :| i in ids && q in Encode(i, L[i]);
      OneRecordPerItem(i, L[i]);
      assert q in (set x | x in Encode(i, L[i]) && x.graph == Named(META_GRAPH));
    }
    if i :| i in ids && q == MetaQuad(i, L[i]) {
      assert q in Encode(i, L[i]);
    }
  }

  lemma GraphOfImage(L: Ledger, ids: set<ItemId>, i: ItemId)
    requires ids <= L.Keys && i in ids
    ensures Scan(Image(L, ids), GraphPattern(i)) == Scan(Encode(i, L[i]), GraphPattern(i))
  {
    forall q | q in Scan(Image(L, ids), GraphPattern(i))
      ensures q in Encode(i, L[i])
    {
      var j :| j in ids && q in Encode(j, L[j]);
      EncodeOwned(j, L[j], q);
      MetaGraphIsNoItem();
      GraphNameBijection(ItemGraph(i), i);
    }
  }

  lemma ReadsBack(L: Ledger, ids: set<ItemId>, i: ItemId)
    requires ids <= L.Keys && i in ids && WellFormed(L[i])
    ensures ReadRecord(Image(L, ids), MetaQuad(i, L[i])) == Ok(Loaded(i, L[i]))
  {
    GraphOfImage(L, ids, i);
    DecodeEncode(i, L[i]);
    GraphNameBijection(ItemGraph(i), i);
  }

  ghost function Restrict(L: Ledger, ids: set<ItemId>): Ledger {
    map i | i in ids && i in L :: L[i]
  }

  /** Every record in a laid-out store is the record of an item it holds, and reads back as that item. */
  lemma RecordReads(L: Ledger, ids: set<ItemId>, q: Quad)
    requires ids <= L.Keys && (forall i :: i in ids ==> WellFormed(L[i])) && q in Scan(Image(L, ids), ALL_RECORDS)
    ensures var r := ReadRecord(Image(L, ids), q);
            r.Ok? && r.value.id in ids && r.value.item == L[r.value.id]
  {
    RecordsOfImage(L, ids, q);
    var i :| i in ids && q == MetaQuad(i, L[i]);
    ReadsBack(L, ids, i);
  }

  lemma HeldReads(L: Ledger, ids: set<ItemId>, i: ItemId)
    requires ids <= L.Keys && i in ids && WellFormed(L[i])
    ensures MetaQuad(i, L[i]) in Scan(Image(L, ids), ALL_RECORDS)
    ensures ReadRecord(Image(L, ids), MetaQuad(i, L[i])) == Ok(Loaded(i, L[i]))
  {
    RecordsOfImage(L, ids, MetaQuad(i, L[i]));
    ReadsBack(L, ids, i);
  }

  lemma FoundIsHeld(L: Ledger, ids: set<ItemId>, store: set<Quad>, found: map<ItemId, Item>, i: ItemId)
    requires ids <= L.Keys && forall i :: i in ids ==> WellFormed(L[i])
    requires store == Image(L, ids) && Loads(store, found) && i in found
    ensures i in ids && found[i] == L[i]
  {
    var q :| q in Scan(store, ALL_RECORDS) && ReadRecord(store, q) == Ok(Loaded(i, found[i]));
    RecordReads(L, ids, q);
  }

  lemma HeldIsFound(L: Ledger, ids: set<ItemId>, store: set<Quad>, found: map<ItemId, Item>, i: ItemId)
    requires ids <= L.Keys && i in ids && WellFormed(L[i])
    requires store == Image(L, ids) && Loads(store, found)
    ensures i in found
  {
    HeldReads(L, ids, i);
    assert ReadRecord(store, MetaQuad(i, L[i])).value.id in found;
  }

  lemma RestrictIs(L: Ledger, ids: set<ItemId>, found: map<ItemId, Item>)
    requires ids <= L.Keys
    requires forall i :: i in found ==> i in ids && found[i] == L[i]
    requires forall i :: i in ids ==> i in found
    ensures found == Restrict(L, ids)
  {
  }

  /** Loading a laid-out store gives exactly the items it holds, with their content. */
  lemma LoadsImage(L: Ledger, ids: set<ItemId>, store: set<Quad>, found: map<ItemId, Item>)
    requires ids <= L.Keys && forall i :: i in ids ==> WellFormed(L[i])
    requires store == Image(L, ids) && Loads(store, found)
    ensures found == Restrict(L, ids)
  {
    hide Loads, Image, WellFormed;
    forall i
      ensures i in found ==> i in ids && found[i] == L[i]
      ensures i in ids ==> i in found
    {
      if i in found { FoundIsHeld(L, ids, store, found, i); }
      if i in ids { HeldIsFound(L, ids, store, found, i); }
    }
    RestrictIs(L, ids, found);
  }

  /** A laid-out store is never corrupt: it loads. */
  lemma ImageLoads(L: Ledger, ids: set<ItemId>, store: set<Quad>)
    requires ids <= L.Keys && forall i :: i in ids ==> WellFormed(L[i])
    requires store == Image(L, ids)
    ensures Loads(store, Restrict(L, ids))
  {
    forall q | q in Scan(store, ALL_RECORDS)
      ensures ReadRecord(store, q).Ok? && ReadRecord(store, q).value.id in Restrict(L, ids)
    {
      RecordReads(L, ids, q);
    }
    forall i | i in Restrict(L, ids)
      ensures exists q :: q in Scan(store, ALL_RECORDS) && ReadRecord(store, q) == Ok(Loaded(i, Restrict(L, ids)[i]))
    {
      HeldReads(L, ids, i);
    }
  }

  // ---- opening --------------------------------------------------------------------------------

  /** The most durable store that has the id. */
  function Winner<T>(found: Tiers<map<ItemId, T>>, i: ItemId): Option<Scope> {
    if i in found.enduring then Some(Enduring)
    else if i in found.major then Some(Major)
    else if i in found.minor then Some(Minor)
    else None
  }

  function AllIds<T>(found: Tiers<map<ItemId, T>>): set<ItemId> {
    found.enduring.Keys + found.major.Keys + found.minor.Keys
  }

  /** One fresh entry per id, at its winner. */
  function Merge(found: Tiers<map<ItemId, Item>>, now: nat): map<ItemId, Entry> {
    map i | i in AllIds(found) ::
      var s := Winner(found, i).value;
      Fresh(found.Get(s)[i], s, now)
  }

  function NextAfter(ids: set<ItemId>): nat {
    var v := Order.SortedIds(ids);
    if v == [] then 0 else v[|v| - 1] + 1
  }

  /** The session that opening builds from what the loads found. */
  function Assemble(stores: Tiers<set<Quad>>, found: Tiers<map<ItemId, Item>>, env: Env): Sys {
    Sys(stores, Merge(found, env.clock), NextAfter(AllIds(found)), NO_STATS, env)
  }

  ghost predicate Opens(stores: Tiers<set<Quad>>, found: Tiers<map<ItemId, Item>>, y: Sys) {
    && (forall s: Scope :: Loads(stores.Get(s), found.Get(s)))
    && y == Assemble(stores, found, y.env)
  }

  /** The most durable holder of an id. */
  ghost function Home(H: Holds, i: ItemId): Scope {
    if i in H.enduring then Enduring else if i in H.major then Major else Minor
  }

  ghost function Held(H: Holds): set<ItemId> {
    H.enduring + H.major + H.minor
  }

  lemma FoundIs(stores: Tiers<set<Quad>>, L: Ledger, H: Holds, n: nat, found: Tiers<map<ItemId, Item>>, s: Scope)
    requires Laid(stores, L, H) && LedgerOk(L, n) && Loads(stores.Get(s), found.Get(s))
    ensures found.Get(s) == Restrict(L, H.Get(s))
  {
    LoadsImage(L, H.Get(s), stores.Get(s), found.Get(s));
  }

  lemma MergeFinds(L: Ledger, H: Holds, found: Tiers<map<ItemId, Item>>, now: nat)
    requires forall s: Scope :: H.Get(s) <= L.Keys
    requires forall s: Scope :: found.Get(s) == Restrict(L, H.Get(s))
    ensures AllIds(found) == Held(H) <= L.Keys && Merge(found, now).Keys == Held(H)
    ensures forall i :: i in Held(H) ==> Merge(found, now)[i] == Fresh(L[i], Home(H, i), now)
  {
    assert found.Get(Enduring).Keys == H.Get(Enduring);
    assert found.Get(Major).Keys == H.Get(Major);
    assert found.Get(Minor).Keys == H.Get(Minor);
  }

  /** Opening laid-out stores: every held item exactly once, at its most durable copy, with its content
      and fresh statistics. */
  lemma OpenFinds(stores: Tiers<set<Quad>>, L: Ledger, H: Holds, n: nat, found: Tiers<map<ItemId, Item>>, y: Sys)
    requires Laid(stores, L, H) && LedgerOk(L, n) && Opens(stores, found, y)
    ensures y.items.Keys == Held(H) == AllIds(found) <= L.Keys
    ensures forall i :: i in Held(H) ==> y.items[i] == Fresh(L[i], Home(H, i), y.env.clock)
  {
    forall s: Scope
      ensures found.Get(s) == Restrict(L, H.Get(s))
    {
      FoundIs(stores, L, H, n, found, s);
    }
    MergeFinds(L, H, found, y.env.clock);
  }

  lemma NextIsAbove(ids: set<ItemId>)
    ensures forall i :: i in ids ==> i < NextAfter(ids)
    ensures NextAfter(ids) > 0 ==> NextAfter(ids) - 1 in ids
  {
    var v := Order.SortedIds(ids);
    forall i | i in ids
      ensures i < NextAfter(ids)
    {
      assert i in Order.Elems(v);
      var k :| 0 <= k < |v| && v[k] == i;
    }
    if v != [] { assert v[|v| - 1] in Order.Elems(v); }
  }

  lemma RestrictLaid(stores: Tiers<set<Quad>>, L: Ledger, H: Holds)
    requires Laid(stores, L, H)
    ensures Laid(stores, Restrict(L, Held(H)), H)
  {
    forall s: Scope
      ensures H.Get(s) <= Restrict(L, Held(H)).Keys
      ensures stores.Get(s) == Image(Restrict(L, Held(H)), H.Get(s))
    {
      assert H.Get(s) <= Held(H);
      ImageSame(L, Restrict(L, Held(H)), H.Get(s));
    }
  }

  lemma OpenHomed(items: map<ItemId, Entry>, L: Ledger, H: Holds, now: nat)
    requires items.Keys == Held(H) <= L.Keys
    requires forall i :: i in Held(H) ==> items[i] == Fresh(L[i], Home(H, i), now)
    ensures Homed(items, Restrict(L, Held(H)), H)
  {
  }

  lemma OpenLedger(L: Ledger, ids: set<ItemId>, n: nat)
    requires LedgerOk(L, n)
    ensures LedgerOk(Restrict(L, ids), NextAfter(ids))
  {
    NextIsAbove(ids);
  }

  /** Opening laid-out stores gives a sound session, whatever stale copies they hold. */
  lemma OpenSound(stores: Tiers<set<Quad>>, L: Ledger, H: Holds, n: nat, found: Tiers<map<ItemId, Item>>, y: Sys)
    requires Laid(stores, L, H) && LedgerOk(L, n) && Opens(stores, found, y)
    ensures Sound(y, Restrict(L, Held(H)), H)
  {
    OpenFinds(stores, L, H, n, found, y);
    RestrictLaid(stores, L, H);
    OpenHomed(y.items, L, H, y.env.clock);
    OpenLedger(L, Held(H), n);
  }

  lemma StoreLoads(stores: Tiers<set<Quad>>, L: Ledger, H: Holds, n: nat, s: Scope)
    requires Laid(stores, L, H) && LedgerOk(L, n)
    ensures Loads(stores.Get(s), Restrict(L, H.Get(s)))
  {
    hide Loads, Image, WellFormed;
    ImageLoads(L, H.Get(s), stores.Get(s));
  }

  /** Laid-out stores are never corrupt: opening them succeeds. */
  lemma OpenSucceeds(stores: Tiers<set<Quad>>, L: Ledger, H: Holds, n: nat, env: Env)
    returns (found: Tiers<map<ItemId, Item>>)
    requires Laid(stores, L, H) && LedgerOk(L, n)
    ensures Opens(stores, found, Assemble(stores, found, env))
  {
    hide Loads, Laid, LedgerOk, Restrict, Merge, NextAfter, AllIds;
    found := Tiers(Restrict(L, H.enduring), Restrict(L, H.major), Restrict(L, H.minor));
    forall s: Scope
      ensures Loads(stores.Get(s), found.Get(s))
    {
      assert found.Get(s) == Restrict(L, H.Get(s));
      StoreLoads(stores, L, H, n, s);
    }
  }

  lemma OpenHealthy(cfg: Settings, stores: Tiers<set<Quad>>, found: Tiers<map<ItemId, Item>>, y: Sys)
    requires Opens(stores, found, y)
    ensures Laws.Healthy(cfg, y)
  {
    MergeHealthy(cfg, found, y);
  }

  lemma MergeHealthy(cfg: Settings, found: Tiers<map<ItemId, Item>>, y: Sys)
    requires y.items == Merge(found, y.env.clock)
    ensures Laws.Healthy(cfg, y)
  {
    forall i | i in y.items
      ensures Faithful(cfg, y.items[i], y.env.clock) && y.items[i].arrival == Added
    {
      MergeFaithful(cfg, found, y.env.clock, i);
    }
  }

  lemma MergeFaithful(cfg: Settings, found: Tiers<map<ItemId, Item>>, now: nat, i: ItemId)
    requires i in AllIds(found)
    ensures Faithful(cfg, Merge(found, now)[i], now) && Merge(found, now)[i].arrival == Added
  {
    var s := Winner(found, i).value;
    FreshFaithful(cfg, found.Get(s)[i], s, now);
  }

  // ---- round trip and crashes -----------------------------------------------------------------

  lemma NoStaleHolds(items: map<ItemId, Entry>, L: Ledger, H: Holds)
    requires Homed(items, L, H) && Stale(items, H) == {}
    ensures forall s: Scope :: H.Get(s) == InScope(items, s)
    ensures Held(H) == items.Keys && forall i :: i in items ==> Home(H, i) == items[i].scope
  {
    forall s: Scope, i | i in H.Get(s)
      ensures AtHome(items, s, i)
    {
      assert Copy(s, i) !in Stale(items, H);
    }
    forall s: Scope
      ensures H.Get(s) == InScope(items, s)
    {
    }
    assert H.enduring == H.Get(Enduring) && H.major == H.Get(Major) && H.minor == H.Get(Minor);
  }

  /** Reopening after a run without storage failures rebuilds the same ids, scopes and content. */
  lemma ReopenRoundTrip(y: Sys, L: Ledger, H: Holds, found: Tiers<map<ItemId, Item>>, z: Sys)
    requires Sound(y, L, H) && Stale(y.items, H) == {} && Opens(y.stores, found, z)
    ensures z.items.Keys == y.items.Keys && z.stats == NO_STATS
    ensures forall i :: i in y.items ==> z.items[i] == Fresh(y.items[i].item, y.items[i].scope, z.env.clock)
  {
    NoStaleHolds(y.items, L, H);
    OpenFinds(y.stores, L, H, y.nextId, found, z);
  }

  lemma EmptyImage(L: Ledger)
    ensures Image(L, {}) == {}
  {
  }

  lemma EnduringLaid(stores: Tiers<set<Quad>>, L: Ledger, H: Holds)
    requires Laid(stores, L, H)
    ensures Laid(Tiers(stores.enduring, {}, {}), L, Tiers(H.enduring, {}, {}))
  {
    EmptyImage(L);
    assert stores.Get(Enduring) == Image(L, H.Get(Enduring));
  }

  /** With new, empty major and minor stores exactly the enduring items come back. */
  lemma EnduringSurvive(y: Sys, L: Ledger, H: Holds, found: Tiers<map<ItemId, Item>>, z: Sys)
    requires Sound(y, L, H) && Stale(y.items, H) == {} && Opens(Tiers(y.stores.enduring, {}, {}), found, z)
    ensures z.items.Keys == InScope(y.items, Enduring)
    ensures forall i :: i in z.items ==> z.items[i] == Fresh(y.items[i].item, Enduring, z.env.clock)
  {
    EnduringLaid(y.stores, L, H);
    var H' := Tiers(H.enduring, {}, {});
    OpenFinds(Tiers(y.stores.enduring, {}, {}), L, H', y.nextId, found, z);
    EnduringMatch(y.items, L, H, z.items, z.env.clock);
  }

  lemma EnduringMatch(items: map<ItemId, Entry>, L: Ledger, H: Holds, items': map<ItemId, Entry>, now: nat)
    requires Homed(items, L, H) && Stale(items, H) == {}
    requires items'.Keys == Held(Tiers(H.enduring, {}, {})) <= L.Keys
    requires forall i :: i in items' ==> items'[i] == Fresh(L[i], Home(Tiers(H.enduring, {}, {}), i), now)
    ensures items'.Keys == InScope(items, Enduring)
    ensures forall i :: i in items' ==> items'[i] == Fresh(items[i].item, Enduring, now)
  {
    NoStaleHolds(items, L, H);
    assert H.enduring == H.Get(Enduring) == InScope(items, Enduring);
  }

  /** The items that reopening puts elsewhere than the index had them. */
  ghost function Displaced(y: Sys, z: Sys): set<ItemId> {
    set i | i in y.items && i in z.items && z.items[i].scope != y.items[i].scope
  }

  lemma DisplacedAre(y: Sys, L: Ledger, H: Holds, z: Sys)
    requires Homed(y.items, L, H) && z.items.Keys == y.items.Keys
    requires forall i :: i in z.items ==> z.items[i].scope == Home(H, i)
    ensures forall i :: i in Displaced(y, z) ==>
              Copy(z.items[i].scope, i) in Stale(y.items, H) && z.items[i].scope.Rank() > y.items[i].scope.Rank()
    ensures |Displaced(y, z)| <= |Stale(y.items, H)|
  {
    forall i | i in Displaced(y, z)
      ensures Copy(z.items[i].scope, i) in Stale(y.items, H) && z.items[i].scope.Rank() > y.items[i].scope.Rank()
    {
      HomeIsWarmest(H, i, y.items[i].scope);
    }
    var stale := Stale(y.items, H);
    var ids := set c | c in stale :: c.id;
    IdsOfCopies(stale);
    forall i | i in Displaced(y, z)
      ensures i in ids
    {
      assert Copy(z.items[i].scope, i) in stale;
    }
    SubsetSize(Displaced(y, z), ids);
  }

  /** When every stale copy is of a live item, reopening finds the live items, each once and with
      unchanged content; an item found elsewhere has a stale copy there, somewhere more durable. */
  lemma LapsesRecover(y: Sys, L: Ledger, H: Holds, found: Tiers<map<ItemId, Item>>, z: Sys)
    requires Sound(y, L, H) && Opens(y.stores, found, z)
    requires forall c :: c in Stale(y.items, H) ==> c.id in y.items
    ensures z.items.Keys == y.items.Keys
    ensures forall i :: i in y.items ==> i in L && z.items[i].item == y.items[i].item == L[i]
    ensures forall i :: i in Displaced(y, z) ==>
              Copy(z.items[i].scope, i) in Stale(y.items, H) && z.items[i].scope.Rank() > y.items[i].scope.Rank()
    ensures |Displaced(y, z)| <= |Stale(y.items, H)|
  {
    OpenFinds(y.stores, L, H, y.nextId, found, z);
    HeldIsLive(y.items, L, H);
    FreshFacts(z.items, L, H, z.env.clock);
    DisplacedAre(y, L, H, z);
  }

  lemma FreshFacts(items: map<ItemId, Entry>, L: Ledger, H: Holds, now: nat)
    requires items.Keys == Held(H) <= L.Keys
    requires forall i :: i in Held(H) ==> items[i] == Fresh(L[i], Home(H, i), now)
    ensures forall i :: i in items ==> items[i].scope == Home(H, i) && items[i].item == L[i]
  {
  }

  lemma HeldIsLive(items: map<ItemId, Entry>, L: Ledger, H: Holds)
    requires Homed(items, L, H) && forall c :: c in Stale(items, H) ==> c.id in items
    ensures Held(H) == items.Keys
  {
    forall s: Scope, i | i in H.Get(s)
      ensures i in items
    {
      if !AtHome(items, s, i) { assert Copy(s, i) in Stale(items, H); }
    }
    assert H.enduring == H.Get(Enduring) && H.major == H.Get(Major) && H.minor == H.Get(Minor);
  }

  lemma HomeIsWarmest(H: Holds, i: ItemId, s: Scope)
    requires i in H.Get(s)
    ensures i in H.Get(Home(H, i)) && Home(H, i).Rank() >= s.Rank()
    ensures Home(H, i).Rank() == s.Rank() ==> Home(H, i) == s
  {
  }

  lemma {:induction false} IdsOfCopies(copies: set<Copy>)
    ensures |set c | c in copies :: c.id| <= |copies|
  {
    if copies != {} {
      var c :| c in copies;
      IdsOfCopies(copies - {c});
      var rest := set d | d in copies - {c} :: d.id;
      assert (set d | d in copies :: d.id) == rest + {c.id};
    }
  }

  /** The store of `s` holds the item's record. */
  predicate HasRecord(stores: Tiers<set<Quad>>, s: Scope, i: ItemId, item: Item) {
    MetaQuad(i, item) in stores.Get(s)
  }

  predicate InTwoStores(stores: Tiers<set<Quad>>, i: ItemId, item: Item) {
    exists s: Scope, u: Scope :: s != u && HasRecord(stores, s, i, item) && HasRecord(stores, u, i, item)
  }

  predicate Doubled(stores: Tiers<set<Quad>>, z: Sys, i: ItemId) {
    i in z.items && InTwoStores(stores, i, z.items[i].item)
  }

  /** The entry is in the warmest of the stores that hold its record. */
  predicate AtWarmest(stores: Tiers<set<Quad>>, i: ItemId, e: Entry) {
    && HasRecord(stores, e.scope, i, e.item)
    && forall u: Scope :: HasRecord(stores, u, i, e.item) ==> u.Rank() <= e.scope.Rank()
  }

  lemma RecordHeld(stores: Tiers<set<Quad>>, L: Ledger, H: Holds, s: Scope, i: ItemId)
    requires Laid(stores, L, H) && i in L
    ensures HasRecord(stores, s, i, L[i]) <==> i in H.Get(s)
  {
    var q, store := MetaQuad(i, L[i]), stores.Get(s);
    assert store == Image(L, H.Get(s));
    assert q in Encode(i, L[i]);
    if q in store {
      var j :| j in H.Get(s) && q in Encode(j, L[j]);
      EncodeOwned(i, L[i], q);
      EncodeOwned(j, L[j], q);
    }
  }

  /** What reopening finds after an operation was cut: exactly the items live at the cut, each with its
      content and in the warmest store that holds its record.  At most one item is in two stores, and
      none is if no step failed.  An item found elsewhere than the index had it is in the target of a
      promotion that was under way. */
  ghost predicate Recovers(y: Sys, r: Reply, z: Sys, dest: Promotions) {
    && z.items.Keys == r.sys.items.Keys
    && (forall i :: i in z.items ==> z.items[i].item == r.sys.items[i].item)
    && (forall i :: i in z.items && i in y.items ==> z.items[i].item == y.items[i].item)
    && (forall i :: i in z.items ==> AtWarmest(r.sys.stores, i, z.items[i]))
    && (forall i, j :: Doubled(r.sys.stores, z, i) && Doubled(r.sys.stores, z, j) ==> i == j)
    && (forall i :: Doubled(r.sys.stores, z, i) ==> r.result == Err(Storage))
    && (forall i :: i in Displaced(r.sys, z) ==>
          && Doubled(r.sys.stores, z, i)
          && i in dest && z.items[i].scope == dest[i] && dest[i].Rank() > r.sys.items[i].scope.Rank())
  }

  /** What opening finds, read off the stores. */
  lemma FoundWarmest(stores: Tiers<set<Quad>>, L: Ledger, H: Holds, i: ItemId, e: Entry)
    requires Laid(stores, L, H) && i in L && i in Held(H) && e.scope == Home(H, i) && e.item == L[i]
    ensures AtWarmest(stores, i, e)
  {
    hide Laid, MetaQuad, HasRecord;
    forall u: Scope
      ensures HasRecord(stores, u, i, e.item) <==> i in H.Get(u)
      ensures i in H.Get(u) ==> i in H.Get(e.scope) && u.Rank() <= e.scope.Rank()
    {
      RecordHeld(stores, L, H, u, i);
      if i in H.Get(u) { HomeIsWarmest(H, i, u); }
    }
    assert i in H.Get(Enduring) || i in H.Get(Major) || i in H.Get(Minor);
  }

  /** An item in two stores has a stale copy. */
  lemma TwoStoresStale(y: Sys, L: Ledger, H: Holds, i: ItemId) returns (c: Copy)
    requires Sound(y, L, H) && i in L && InTwoStores(y.stores, i, L[i])
    ensures c in Stale(y.items, H) && c.id == i
  {
    hide Laid, Homed, LedgerOk, HasRecord;
    var s: Scope, u: Scope :| s != u && HasRecord(y.stores, s, i, L[i]) && HasRecord(y.stores, u, i, L[i]);
    RecordHeld(y.stores, L, H, s, i);
    RecordHeld(y.stores, L, H, u, i);
    c := Copy(if AtHome(y.items, s, i) then u else s, i);
  }

  lemma StaleTwoStores(y: Sys, L: Ledger, H: Holds, c: Copy)
    requires Sound(y, L, H) && c in Stale(y.items, H) && c.id in y.items
    ensures c.id in L && InTwoStores(y.stores, c.id, L[c.id])
  {
    var i, home := c.id, y.items[c.id].scope;
    RecordHeld(y.stores, L, H, c.scope, i);
    RecordHeld(y.stores, L, H, home, i);
    assert c.scope != home && HasRecord(y.stores, home, i, L[i]);
  }

  lemma OneOf<T>(s: set<T>, a: T, b: T)
    requires |s| <= 1 && a in s && b in s
    ensures a == b
  {
    SubsetSize({a, b}, s);
  }

  lemma TwoStoresOnce(y: Sys, L: Ledger, H: Holds, z: Sys, i: ItemId, j: ItemId)
    requires Sound(y, L, H) && |Stale(y.items, H)| <= 1
    requires forall k :: k in z.items ==> k in L && z.items[k].item == L[k]
    requires Doubled(y.stores, z, i) && Doubled(y.stores, z, j)
    ensures i == j && Stale(y.items, H) != {}
  {
    hide Sound, Stale, InTwoStores;
    var c := TwoStoresStale(y, L, H, i);
    var d := TwoStoresStale(y, L, H, j);
    OneOf(Stale(y.items, H), c, d);
  }

  /** Stale copies that moves left behind, at most one of them, are recovered from. */
  lemma LeftoversRecover(y: Sys, r: Reply, L: Ledger, H: Holds, dest: Promotions,
                         found: Tiers<map<ItemId, Item>>, z: Sys)
    requires Sound(r.sys, L, H) && Opens(r.sys.stores, found, z)
    requires var stale := Stale(r.sys.items, H);
             && (forall c :: c in stale ==> LeftBehind(r.sys.items, dest, c))
             && |stale| <= 1 && (r.result != Err(Storage) ==> stale == {})
    requires forall i :: i in y.items && i in L ==> L[i] == y.items[i].item
    ensures Recovers(y, r, z, dest)
  {
    hide Laid, Homed, LedgerOk, Stale, Opens, AtWarmest, InTwoStores, LeftBehind, Displaced, Doubled, Fresh;
    forall c | c in Stale(r.sys.items, H)
      ensures c.id in r.sys.items
    {
      LeftIsLive(r.sys.items, dest, c);
    }
    LapsesRecover(r.sys, L, H, found, z);
    WarmestFound(r.sys, L, H, found, z);
    forall i, j | Doubled(r.sys.stores, z, i) && Doubled(r.sys.stores, z, j)
      ensures i == j && r.result == Err(Storage)
    {
      TwoStoresOnce(r.sys, L, H, z, i, j);
    }
    forall i | i in Displaced(r.sys, z)
      ensures Doubled(r.sys.stores, z, i) && i in dest && z.items[i].scope == dest[i]
      ensures dest[i].Rank() > r.sys.items[i].scope.Rank()
    {
      DisplacedDoubled(r.sys, L, H, dest, z, i);
    }
  }

  lemma WarmestFound(y: Sys, L: Ledger, H: Holds, found: Tiers<map<ItemId, Item>>, z: Sys)
    requires Sound(y, L, H) && Opens(y.stores, found, z)
    ensures forall i :: i in z.items ==> AtWarmest(y.stores, i, z.items[i])
  {
    hide Laid, Homed, LedgerOk, Opens, AtWarmest;
    OpenFinds(y.stores, L, H, y.nextId, found, z);
    FreshFacts(z.items, L, H, z.env.clock);
    forall i | i in z.items
      ensures AtWarmest(y.stores, i, z.items[i])
    {
      FoundWarmest(y.stores, L, H, i, z.items[i]);
    }
  }

  lemma DisplacedDoubled(y: Sys, L: Ledger, H: Holds, dest: Promotions, z: Sys, i: ItemId)
    requires Sound(y, L, H) && i in Displaced(y, z) && i in L && z.items[i].item == L[i]
    requires forall c :: c in Stale(y.items, H) ==> LeftBehind(y.items, dest, c)
    requires Copy(z.items[i].scope, i) in Stale(y.items, H) && z.items[i].scope.Rank() > y.items[i].scope.Rank()
    ensures Doubled(y.stores, z, i) && i in dest && z.items[i].scope == dest[i]
  {
    hide Sound, Stale, InTwoStores, LeftBehind;
    StaleTwoStores(y, L, H, Copy(z.items[i].scope, i));
    DestOf(y.items, dest, Copy(z.items[i].scope, i));
  }

  lemma LeftIsLive(items: map<ItemId, Entry>, dest: Promotions, c: Copy)
    requires LeftBehind(items, dest, c)
    ensures c.id in items
  {
  }

  /** A copy left behind that is no colder than its item's home is the target of a promotion. */
  lemma DestOf(items: map<ItemId, Entry>, dest: Promotions, c: Copy)
    requires LeftBehind(items, dest, c) && c.scope.Rank() >= items[c.id].scope.Rank()
    ensures c.id in dest && dest[c.id] == c.scope
  {
  }

  /** Crash safety.  Start without stale copies and cut any operation at any storage step (the script says
      where; the cut is the failure of that step).  Reopening finds exactly the items that were live at the
      cut, once each, with unchanged content, in the warmest store that holds them.  A cut add, remove or
      evict displaces nothing; a cut promote at most one of its items, found in the target; a cut query at
      most one due item, found in the tier the rule sends it to. */
  lemma CrashSafe(cfg: Settings, y: Sys, L: Ledger, H: Holds, op: Op, found: Tiers<map<ItemId, Item>>, z: Sys)
    requires Sound(y, L, H) && Stale(y.items, H) == {}
    requires Opens(Apply(cfg, y, op).sys.stores, found, z)
    ensures Recovers(y, Apply(cfg, y, op), z, Steps.PromotionsOf(cfg, y, op))
    ensures |Displaced(Apply(cfg, y, op).sys, z)| <= 1
    ensures op.AddBatch? || op.Remove? || op.Evict? ==> Displaced(Apply(cfg, y, op).sys, z) == {}
  {
    hide Apply, Laid, Homed, LedgerOk, Stale, Opens, LeftBehind, InTwoStores, AtWarmest;
    var r, dest := Apply(cfg, y, op), Steps.PromotionsOf(cfg, y, op);
    var L', H' := Steps.ApplyKept(cfg, y, L, H, op);
    assert Stale(r.sys.items, H') - Stale(y.items, H) == Stale(r.sys.items, H');
    HomedContent(y.items, L, H);
    LeftoversRecover(y, r, L', H', dest, found, z);
    if i :| i in Displaced(r.sys, z) {
      assert Displaced(r.sys, z) <= {i};
      SubsetSize(Displaced(r.sys, z), {i});
    }
  }

  lemma HomedContent(items: map<ItemId, Entry>, L: Ledger, H: Holds)
    requires Homed(items, L, H)
    ensures forall i :: i in items ==> i in L && L[i] == items[i].item
  {
  }

  /** The batch passed validation and its one write succeeded. */
  predicate BatchStored(y: Sys, batch: seq<Item>) {
    FirstError(y.items, batch).None? && Attempt(y).ok
  }

  lemma Registered(y: Sys, s: Scope, batch: seq<Item>)
    requires forall i :: i in y.items ==> i < y.nextId
    ensures var y1 := Register(y, s, batch);
            && y1.items.Keys == y.items.Keys + Steps.IssuedIds(y.nextId, |batch|) && y1.stats.evicted == y.stats.evicted
            && (forall i :: i in y.items ==> y1.items[i] == y.items[i])
            && forall i :: i in y1.items && Issued(y.nextId, |batch|, i) ==>
                 y1.items[i].item == Member(y.nextId, batch, i) && y1.items[i].scope == s
  {
  }

  lemma LiveBelow(y: Sys, L: Ledger, H: Holds)
    requires Sound(y, L, H)
    ensures forall i :: i in y.items ==> i < y.nextId
  {
  }

  lemma FlowsLoses(y: Sys, y': Sys)
    requires Flow.Flows(y, y')
    ensures |y.items.Keys - y'.items.Keys| == y'.stats.evicted - y.stats.evicted
  {
    Flow.LessSize(y.items.Keys, y'.items.Keys);
  }

  /** What a stored batch leaves in the index, whatever the cascade then does. */
  ghost predicate BatchThere(y: Sys, s: Scope, batch: seq<Item>, items: map<ItemId, Entry>, evicted: nat) {
    var all := y.items.Keys + Steps.IssuedIds(y.nextId, |batch|);
    && items.Keys <= all && |all - items.Keys| == evicted
    && (forall i :: i in items && Issued(y.nextId, |batch|, i) ==>
          items[i].item == Member(y.nextId, batch, i) && items[i].scope.Rank() <= s.Rank())
    && (forall i :: i in items && i in y.items ==>
          items[i].item == y.items[i].item && items[i].scope.Rank() <= y.items[i].scope.Rank())
  }

  lemma CoolsFacts(cfg: Settings, y: Sys, y': Sys, s: Scope)
    requires Flow.Cools(cfg, y, y', s)
    ensures y'.items.Keys <= y.items.Keys
    ensures |y.items.Keys - y'.items.Keys| == y'.stats.evicted - y.stats.evicted
    ensures forall i :: i in y'.items ==>
              y'.items[i].item == y.items[i].item && y'.items[i].scope.Rank() <= y.items[i].scope.Rank()
  {
    hide Flow.Arrivals, Flow.Burden;
    FlowsLoses(y, y');
  }

  /** Evicting from the tier of a batch that was just registered leaves it there but for the evicted. */
  lemma TrimmedBatch(cfg: Settings, y: Sys, s: Scope, batch: seq<Item>, y': Sys)
    requires (forall i :: i in y.items ==> i < y.nextId) && Flow.Cools(cfg, Register(y, s, batch), y', s)
    ensures y'.stats.evicted >= y.stats.evicted
    ensures BatchThere(y, s, batch, y'.items, y'.stats.evicted - y.stats.evicted)
  {
    hide Flow.Cools, Issued, Steps.IssuedIds, Register, Member;
    Registered(y, s, batch);
    CoolsFacts(cfg, Register(y, s, batch), y', s);
  }

  /** A stored batch is registered on the index as it was, and then the cascade runs. */
  lemma StoredThenTrimmed(cfg: Settings, y: Sys, s: Scope, batch: seq<Item>) returns (y0: Sys)
    requires BatchStored(y, batch)
    ensures y0.items == y.items && y0.nextId == y.nextId && y0.stats == y.stats
    ensures Flow.Cools(cfg, Register(y0, s, batch), DoAddBatch(cfg, y, s, batch).sys, s)
  {
    hide EnforceBounds, EncodeAll, Register, FirstError, Flow.Cools;
    y0 := Write(y, s, y.stores.Get(s) + EncodeAll(y.nextId, batch)).sys;
    Flow.EnforceCools(cfg, Register(y0, s, batch), s);
  }

  lemma StoredBatchCut(cfg: Settings, y: Sys, s: Scope, batch: seq<Item>)
    requires BatchStored(y, batch) && forall i :: i in y.items ==> i < y.nextId
    ensures var cut := DoAddBatch(cfg, y, s, batch).sys;
            cut.stats.evicted >= y.stats.evicted
            && BatchThere(y, s, batch, cut.items, cut.stats.evicted - y.stats.evicted)
  {
    hide DoAddBatch, EnforceBounds, Flow.Cools, Register, BatchThere, BatchStored;
    var cut := DoAddBatch(cfg, y, s, batch).sys;
    var y0 := StoredThenTrimmed(cfg, y, s, batch);
    TrimmedBatch(cfg, y0, s, batch, cut);
    SameBatch(y0, y, s, batch, cut);
  }

  lemma SameBatch(y: Sys, y0: Sys, s: Scope, batch: seq<Item>, cut: Sys)
    requires y.items == y0.items && y.nextId == y0.nextId && y.stats == y0.stats
    requires cut.stats.evicted >= y.stats.evicted
    requires BatchThere(y, s, batch, cut.items, cut.stats.evicted - y.stats.evicted)
    ensures BatchThere(y0, s, batch, cut.items, cut.stats.evicted - y0.stats.evicted)
  {
  }

  /** Found as the cut left it. */
  lemma BatchFound(y: Sys, s: Scope, batch: seq<Item>, cut: Sys, z: Sys, evicted: nat)
    requires BatchThere(y, s, batch, cut.items, evicted)
    requires z.items.Keys == cut.items.Keys && Displaced(cut, z) == {}
    requires forall i :: i in z.items ==> z.items[i].item == cut.items[i].item
    ensures BatchThere(y, s, batch, z.items, evicted)
  {
    assert forall i :: i in z.items ==> i !in Displaced(cut, z);
  }

  /** A batch is all there or absent, whatever fails.  If it was refused or its write failed, reopening finds
      the old items as they were and no issued id.  Otherwise reopening finds every old and every issued id
      with its own content, no warmer than it was put, except as many as the cascade booked as evicted. */
  lemma BatchAtomic(cfg: Settings, y: Sys, L: Ledger, H: Holds, s: Scope, batch: seq<Item>,
                    found: Tiers<map<ItemId, Item>>, z: Sys)
    requires Sound(y, L, H) && Stale(y.items, H) == {}
    requires Opens(DoAddBatch(cfg, y, s, batch).sys.stores, found, z)
    ensures !BatchStored(y, batch) ==>
              && z.items.Keys == y.items.Keys && (forall i :: i in z.items ==> !Issued(y.nextId, |batch|, i))
              && forall i :: i in z.items ==> z.items[i] == Fresh(y.items[i].item, y.items[i].scope, z.env.clock)
    ensures BatchStored(y, batch) ==>
              var cut := DoAddBatch(cfg, y, s, batch).sys;
              cut.stats.evicted >= y.stats.evicted
              && BatchThere(y, s, batch, z.items, cut.stats.evicted - y.stats.evicted)
  {
    hide DoAddBatch, Sound, Stale, Opens, BatchThere, AtWarmest, Doubled, Displaced, Fresh, BatchStored;
    LiveBelow(y, L, H);
    if BatchStored(y, batch) {
      StoredBatchCut(cfg, y, s, batch);
      CrashSafe(cfg, y, L, H, AddBatch(s, batch), found, z);
      var cut := DoAddBatch(cfg, y, s, batch).sys;
      BatchFound(y, s, batch, cut, z, cut.stats.evicted - y.stats.evicted);
    } else {
      RefusedBatch(cfg, y, s, batch);
      ReopenRoundTrip(y, L, H, found, z);
    }
  }

  lemma RefusedBatch(cfg: Settings, y: Sys, s: Scope, batch: seq<Item>)
    requires !BatchStored(y, batch)
    ensures DoAddBatch(cfg, y, s, batch).sys.stores == y.stores
  {
  }

  // ---- removal and stale copies ---------------------------------------------------------------

  /** A removed item comes back at the next opening exactly when another store holds its record too. */
  lemma RemovedComesBackIff(y: Sys, L: Ledger, H: Holds, s: Scope, id: ItemId, found: Tiers<map<ItemId, Item>>, z: Sys)
    requires Sound(y, L, H) && DoRemove(y, s, id).result == Ok(Flag(true))
    requires Opens(DoRemove(y, s, id).sys.stores, found, z)
    ensures id in z.items <==> exists u: Scope :: u != s && HasRecord(y.stores, u, id, y.items[id].item)
  {
    hide Laid, Homed, LedgerOk, Opens, DeleteItem, Home, HasRecord;
    HomedAt(y.items, L, H, id);
    forall u: Scope
      ensures HasRecord(y.stores, u, id, y.items[id].item) <==> id in H.Get(u)
    {
      RecordHeld(y.stores, L, H, u, id);
    }
    var r, H' := DoRemove(y, s, id), HoldNot(H, s, id);
    LaidDelete(y.stores, L, H, s, id);
    assert r.sys.stores == StoreNot(y.stores, s, id);
    OpenFinds(r.sys.stores, L, H', y.nextId, found, z);
    assert id in Held(H') <==> id in H'.Get(Enduring) || id in H'.Get(Major) || id in H'.Get(Minor);
  }

  /** In particular, without stale copies a removed item stays removed. */
  lemma RemovedStaysRemoved(y: Sys, L: Ledger, H: Holds, s: Scope, id: ItemId, found: Tiers<map<ItemId, Item>>, z: Sys)
    requires Sound(y, L, H) && Stale(y.items, H) == {} && DoRemove(y, s, id).result == Ok(Flag(true))
    requires Opens(DoRemove(y, s, id).sys.stores, found, z)
    ensures id !in z.items
  {
    hide Laid, LedgerOk, Opens, DeleteItem;
    RemovedComesBackIff(y, L, H, s, id, found, z);
    NoStaleHolds(y.items, L, H);
    HomedAt(y.items, L, H, id);
    forall u: Scope | u != s
      ensures !HasRecord(y.stores, u, id, y.items[id].item)
    {
      RecordHeld(y.stores, L, H, u, id);
    }
  }

  /** It fails after a half-done move: cut a promotion between its two commits, remove the item from where
      the index still has it, and opening finds the copy in the target. */
  lemma HalfMovedComesBack(cfg: Settings, y: Sys, L: Ledger, H: Holds, id: ItemId,
                           found: Tiers<map<ItemId, Item>>, z: Sys)
    requires Sound(y, L, H) && id in y.items && y.items[id].scope == Minor && y.env.faults == [false, true]
    ensures var cut := DoPromote(cfg, y, [id], Minor, Major);
            && cut.result == Err(Storage)
            && DoRemove(cut.sys, Minor, id).result == Ok(Flag(true))
            && (Opens(DoRemove(cut.sys, Minor, id).sys.stores, found, z) ==> id in z.items)
  {
    hide Laid, Homed, LedgerOk, Opens, DeleteItem, Encode;
    var u := Order.Unique([id]);
    assert Order.Elems(u) == {id} by { assert Order.Elems([id]) == {id}; }
    assert u == [id] by { Order.DistinctSize(u); assert u[0] in Order.Elems(u); }
    CheckedInScope(y.items, u, Minor);
    var cut := DoPromote(cfg, y, [id], Minor, Major);
    var d := MoveItem(y, id, Major, Promoted);
    assert !d.ok && d.sys.stores == StoreAlso(y.stores, Major, id, y.items[id].item) && d.sys.items == y.items;
    assert cut.sys == d.sys;
    assert L[id] == y.items[id].item by { HomedAt(y.items, L, H, id); }
    LaidAdd(y.stores, L, H, Major, id);
    HomedMore(y.items, L, H, Major, id);
    var r := DoRemove(cut.sys, Minor, id);
    if Opens(r.sys.stores, found, z) {
      RecordHeld(cut.sys.stores, L, HoldAlso(H, Major, id), Major, id);
      RemovedComesBackIff(cut.sys, L, HoldAlso(H, Major, id), Minor, id, found, z);
    }
  }

  lemma HomedAt(items: map<ItemId, Entry>, L: Ledger, H: Holds, id: ItemId)
    requires Homed(items, L, H) && id in items
    ensures id in L && L[id] == items[id].item
  {
  }

  lemma HomedMore(items: map<ItemId, Entry>, L: Ledger, H: Holds, s: Scope, id: ItemId)
    requires Homed(items, L, H)
    ensures Homed(items, L, HoldAlso(H, s, id))
  {
  }
}
