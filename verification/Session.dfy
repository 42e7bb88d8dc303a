/** The session object: its fields are updated in place, operation by operation, and every method is
    proved to do exactly the step of the state machine that the laws are about. */
module Sessions {
  import opened Rdf
  import opened Items
  import opened Entries
  import opened Order
  import opened Layout
  import opened Machine
  import opened Recovery

  // ---- loops that only read -------------------------------------------------------------------

  /** The scopes a selection lists, each once, in the order given. */
  method ConsultedScopes(sel: Selection) returns (out: seq<Scope>)
    ensures out == Consulted(sel)
  {
    var listed := match sel
      case Single(s) => [s]
      case All => ALL_SCOPES
      case Listed(scopes) => scopes;
    out := [];
    for k := 0 to |listed|
      invariant out == UniqueScopes(listed[..k])
    {
      assert listed[..k + 1][..k] == listed[..k];
      if listed[k] !in out {
        out := out + [listed[k]];
      }
    }
    assert listed[..|listed|] == listed;
  }

  function CitersAmong(items: map<ItemId, Entry>, ids: set<ItemId>, c: ItemId): set<ItemId> {
    set i | i in ids && i in items && i != c && c in items[i].item.provenance.derivedFrom
  }

  function CountOf(references: map<ItemId, nat>, c: ItemId): nat {
    if c in references then references[c] else 0
  }

  /** Count one more citation of each listed id. */
  method AddCitations(references: map<ItemId, nat>, cited: set<ItemId>) returns (r: map<ItemId, nat>)
    ensures forall c :: CountOf(r, c) == CountOf(references, c) + if c in cited then 1 else 0
  {
    r := references;
    var todo := cited;
    while todo != {}
      invariant todo <= cited
      invariant forall c :: CountOf(r, c) == CountOf(references, c) + if c in cited - todo then 1 else 0
    {
      var c :| c in todo;
      r := r[c := CountOf(r, c) + 1];
      todo := todo - {c};
    }
  }

  /** `references` counts the citers among the listed items. */
  ghost predicate Counted(items: map<ItemId, Entry>, ids: seq<ItemId>, references: map<ItemId, nat>) {
    forall c :: CountOf(references, c) == |CitersAmong(items, Elems(ids), c)|
  }

  function Cites(e: Entry): set<ItemId> {
    set c | c in e.item.provenance.derivedFrom
  }

  /** How many distinct other live items cite each id. */
  method CountReferences(items: map<ItemId, Entry>) returns (references: map<ItemId, nat>)
    ensures forall c :: CountOf(references, c) == |CitedBy(items, c)|
  {
    hide Counted, CountOf, CitedBy, Cites, CitersAmong, Elems, Ascending;
    references := map[];
    var ids := SortedIds(items.Keys);
    NoneCounted(items);
    for k := 0 to |ids|
      invariant Counted(items, ids[..k], references)
    {
      var id := ids[k];
      SortedKey(items, k);
      ghost var before := references;
      references := AddCitations(references, Cites(items[id]) - {id});
      assert ids[..k + 1] == ids[..k] + [id];
      NotEarlier(ids, k);
      OneMoreCounted(items, ids[..k], id, before, references);
    }
    assert ids[..|ids|] == ids;
    AllCounted(items, ids, references);
  }

  lemma NotEarlier(ids: seq<ItemId>, k: nat)
    requires Ascending(ids) && k < |ids|
    ensures ids[k] !in ids[..k]
  {
  }

  lemma NoneCounted(items: map<ItemId, Entry>)
    ensures Counted(items, [], map[])
  {
    assert forall c :: CitersAmong(items, Elems([]), c) == {};
  }

  lemma OneMoreCounted(items: map<ItemId, Entry>, ids: seq<ItemId>, id: ItemId, before: map<ItemId, nat>,
                       after: map<ItemId, nat>)
    requires Counted(items, ids, before) && id in items && id !in ids
    requires forall c :: CountOf(after, c) == CountOf(before, c) + if c in Cites(items[id]) - {id} then 1 else 0
    ensures Counted(items, ids + [id], after)
  {
    hide CitersAmong, CountOf;
    forall c
      ensures CountOf(after, c) == |CitersAmong(items, Elems(ids + [id]), c)|
    {
      OneMoreCiter(items, ids, id, c);
    }
  }

  lemma AllCounted(items: map<ItemId, Entry>, ids: seq<ItemId>, references: map<ItemId, nat>)
    requires Counted(items, ids, references) && Elems(ids) == items.Keys
    ensures forall c :: CountOf(references, c) == |CitedBy(items, c)|
  {
    assert forall c :: CitersAmong(items, Elems(ids), c) == CitedBy(items, c);
  }

  lemma OneMoreCiter(items: map<ItemId, Entry>, ids: seq<ItemId>, id: ItemId, c: ItemId)
    requires id in items && id !in ids
    ensures |CitersAmong(items, Elems(ids + [id]), c)|
            == |CitersAmong(items, Elems(ids), c)|
               + if c != id && c in items[id].item.provenance.derivedFrom then 1 else 0
  {
    var a, b := CitersAmong(items, Elems(ids), c), CitersAmong(items, Elems(ids + [id]), c);
    ElemsConcat(ids, [id]);
    if c != id && c in items[id].item.provenance.derivedFrom {
      assert b == a + {id};
    } else {
      assert b == a;
    }
  }

  /** An ascending list of exactly the wanted members of a prefix of the ids. */
  ghost predicate Picks(ids: seq<ItemId>, wanted: set<ItemId>, picked: seq<ItemId>) {
    Ascending(picked) && Elems(picked) == Elems(ids) * wanted
  }

  lemma PickMore(ids: seq<ItemId>, k: nat, wanted: set<ItemId>, picked: seq<ItemId>)
    requires Ascending(ids) && k < |ids| && Picks(ids[..k], wanted, picked)
    ensures Picks(ids[..k + 1], wanted, if ids[k] in wanted then picked + [ids[k]] else picked)
  {
    assert ids[..k + 1] == ids[..k] + [ids[k]];
    ElemsConcat(ids[..k], [ids[k]]);
    ElemsConcat(picked, [ids[k]]);
    assert Elems([ids[k]]) == {ids[k]};
    forall j | 0 <= j < |picked|
      ensures picked[j] < ids[k]
    {
      assert picked[j] in Elems(picked);
      assert picked[j] in ids[..k];
    }
  }

  lemma PickedAll(ids: seq<ItemId>, wanted: set<ItemId>, picked: seq<ItemId>)
    requires Picks(ids, wanted, picked) && wanted <= Elems(ids)
    ensures picked == SortedIds(wanted)
  {
    assert Elems(ids) * wanted == wanted;
    AscendingUnique(picked, SortedIds(wanted));
  }

  lemma PickNone(wanted: set<ItemId>)
    ensures Picks([], wanted, [])
  {
  }

  lemma SortedKey(items: map<ItemId, Entry>, k: nat)
    requires k < |SortedIds(items.Keys)|
    ensures SortedIds(items.Keys)[k] in items
  {
    assert SortedIds(items.Keys)[k] in Elems(SortedIds(items.Keys));
  }

  lemma DueIff(cfg: Settings, items: map<ItemId, Entry>, now: nat, i: ItemId)
    requires i in items
    ensures i in ToEnduring(cfg, items)
            <==> items[i].scope == Major && |CitedBy(items, i)| > cfg.promotion.majorToEnduringReferences
    ensures i in ToMajor(cfg, items, now)
            <==> && items[i].scope == Minor
                 && InWindow(items[i].recent, now, cfg.promotion.minorWindow) > cfg.promotion.minorToMajorAccesses
  {
  }

  lemma DueAreKeys(cfg: Settings, items: map<ItemId, Entry>, now: nat)
    ensures ToEnduring(cfg, items) <= items.Keys && ToMajor(cfg, items, now) <= items.Keys
  {
  }

  /** The items due by either auto-promotion rule, each list oldest first. */
  method DueItems(cfg: Settings, items: map<ItemId, Entry>, now: nat) returns (up: seq<ItemId>, mid: seq<ItemId>)
    ensures up == DueEnduring(cfg, items) && mid == DueMajor(cfg, items, now)
  {
    hide Picks, InWindow, CountOf, CitedBy, ToEnduring, ToMajor, Elems, Ascending;
    var references := CountReferences(items);
    var ids := SortedIds(items.Keys);
    ghost var wantUp, wantMid := ToEnduring(cfg, items), ToMajor(cfg, items, now);
    up, mid := [], [];
    PickNone(wantUp);
    PickNone(wantMid);
    for k := 0 to |ids|
      invariant Picks(ids[..k], wantUp, up) && Picks(ids[..k], wantMid, mid)
    {
      var id := ids[k];
      SortedKey(items, k);
      DueIff(cfg, items, now, id);
      PickMore(ids, k, wantUp, up);
      PickMore(ids, k, wantMid, mid);
      var e := items[id];
      match e.scope
      case Major =>
        if CountOf(references, id) > cfg.promotion.majorToEnduringReferences {
          up := up + [id];
        }
      case Minor =>
        if InWindow(e.recent, now, cfg.promotion.minorWindow) > cfg.promotion.minorToMajorAccesses {
          mid := mid + [id];
        }
      case Enduring =>
    }
    assert ids[..|ids|] == ids;
    DueAreKeys(cfg, items, now);
    PickedAll(ids, wantUp, up);
    PickedAll(ids, wantMid, mid);
  }

  /** A copy of the items of one scope, oldest first. */
  method CopyScope(items: map<ItemId, Entry>, s: Scope) returns (copies: seq<StoredItem>)
    ensures forall i :: i in SortedIds(InScope(items, s)) ==> i in items
    ensures copies == Copies(items, SortedIds(InScope(items, s)))
  {
    hide Picks, Elems, Ascending, InScope;
    var ids := SortedIds(items.Keys);
    ghost var wanted, picked: seq<ItemId> := InScope(items, s), [];
    copies := [];
    PickNone(wanted);
    for k := 0 to |ids|
      invariant Picks(ids[..k], wanted, picked) && forall i :: i in picked ==> i in items
      invariant copies == Copies(items, picked)
    {
      var id := ids[k];
      SortedKey(items, k);
      InScopeIff(items, s, id);
      PickMore(ids, k, wanted, picked);
      if items[id].scope == s {
        picked := picked + [id];
        copies := copies + [StoredItem(id, items[id].item)];
      }
    }
    assert ids[..|ids|] == ids;
    assert wanted <= items.Keys by { InScopeKeys(items, s); }
    PickedAll(ids, wanted, picked);
  }

  lemma InScopeIff(items: map<ItemId, Entry>, s: Scope, i: ItemId)
    requires i in items
    ensures i in InScope(items, s) <==> items[i].scope == s
  {
  }

  lemma InScopeKeys(items: map<ItemId, Entry>, s: Scope)
    ensures InScope(items, s) <= items.Keys
  {
  }

  /** Drop what has left the window from the front of the queue. */
  method PruneQueue(recent: seq<nat>, now: nat, window: nat) returns (r: seq<nat>)
    ensures r == Prune(recent, now, window)
  {
    r := recent;
    while r != [] && Since(now, r[0]) > window
      invariant Prune(r, now, window) == Prune(recent, now, window)
      decreases |r|
    {
      r := r[1..];
    }
  }

  /** Ids without repeats, then the first one that is not a live item of the scope. */
  method CheckInScope(items: map<ItemId, Entry>, ids: seq<ItemId>, s: Scope) returns (r: Result<seq<ItemId>>)
    ensures match CheckEach(items, Unique(ids), s)
            case None => r == Ok(Unique(ids))
            case Some(e) => r == Err(e)
  {
    var unique: seq<ItemId> := [];
    for k := 0 to |ids|
      invariant unique == Unique(ids[..k])
    {
      assert ids[..k + 1][..k] == ids[..k];
      assert ids[k] in Elems(unique) <==> ids[k] in Elems(ids[..k]);
      if ids[k] !in unique {
        unique := unique + [ids[k]];
      }
    }
    assert ids[..|ids|] == ids;
    for k := 0 to |unique|
      invariant CheckEach(items, unique[k..], s) == CheckEach(items, unique, s)
    {
      var id := unique[k];
      assert unique[k..][1..] == unique[k + 1..];
      if id !in items {
        return Err(UnknownItem(id));
      }
      if items[id].scope != s {
        return Err(ScopeMismatch(id, s, items[id].scope));
      }
    }
    return Ok(unique);
  }

  /** Read every record of a store. */
  method Load(store: set<Quad>) returns (r: Result<map<ItemId, Item>>)
    ensures r.Ok? ==> Loads(store, r.value)
    ensures r.Err? ==> r.error == Corrupt && exists q :: q in Scan(store, ALL_RECORDS) && ReadRecord(store, q).Err?
  {
    var records := Scan(store, ALL_RECORDS);
    var todo := records;
    var found: map<ItemId, Item> := map[];
    while todo != {}
      invariant todo <= records
      invariant forall q :: q in records - todo ==> ReadRecord(store, q).Ok? && ReadRecord(store, q).value.id in found
      invariant forall i :: i in found ==>
                  exists q :: q in records && ReadRecord(store, q) == Ok(Loaded(i, found[i]))
    {
      var q :| q in todo;
      var one := ReadRecord(store, q);
      if one.Err? {
        ReadErrors(store, q);
        return Err(one.error);
      }
      if one.value.id !in found {
        found := found[one.value.id := one.value.item];
      }
      todo := todo - {q};
    }
    return Ok(found);
  }

  lemma ReadErrors(store: set<Quad>, q: Quad)
    ensures ReadRecord(store, q).Err? ==> ReadRecord(store, q) == Err(Corrupt)
  {
  }

  /** The first item of a batch that fails validation. */
  method ValidateAll(items: map<ItemId, Entry>, batch: seq<Item>) returns (e: Option<SessionError>)
    ensures e == FirstError(items, batch)
  {
    for k := 0 to |batch|
      invariant FirstError(items, batch[k..]) == FirstError(items, batch)
    {
      assert batch[k..][0] == batch[k] && batch[k..][1..] == batch[k + 1..];
      e := Validate(items, batch[k]);
      if e.Some? { return; }
    }
    e := None;
  }

  lemma EncodeMore(first: ItemId, batch: seq<Item>, k: nat)
    requires k < |batch|
    ensures EncodeAll(first, batch[..k + 1]) == EncodeAll(first, batch[..k]) + Encode(first + k, batch[k])
  {
    hide Encode;
    var a, b := batch[..k], batch[..k + 1];
    forall q
      ensures q in EncodeAll(first, b) <==> q in EncodeAll(first, a) || q in Encode(first + k, batch[k])
    {
      if q in EncodeAll(first, b) {
        var i: ItemId :| first <= i < first + |b| && Issued(first, |b|, i) && q in Encode(i, Member(first, b, i));
        if i < first + k {
          assert Issued(first, |a|, i) && Member(first, a, i) == Member(first, b, i);
        }
      }
      if q in EncodeAll(first, a) {
        var i: ItemId :| first <= i < first + |a| && Issued(first, |a|, i) && q in Encode(i, Member(first, a, i));
        assert Issued(first, |b|, i) && Member(first, a, i) == Member(first, b, i);
      }
      if q in Encode(first + k, batch[k]) {
        assert Issued(first, |b|, first + k) && Member(first, b, first + k) == batch[k];
      }
    }
  }

  /** Every quad of a batch on top of what the store holds. */
  method InsertBatch(store: set<Quad>, first: ItemId, batch: seq<Item>) returns (working: set<Quad>)
    ensures working == store + EncodeAll(first, batch)
  {
    hide EncodeAll, Encode;
    working := store;
    EncodeNone(first);
    for k := 0 to |batch|
      invariant working == store + EncodeAll(first, batch[..k])
    {
      EncodeMore(first, batch, k);
      working := working + Encode(first + k, batch[k]);
    }
    assert batch[..|batch|] == batch;
  }

  lemma EncodeNone(first: ItemId)
    ensures EncodeAll(first, []) == {}
  {
  }

  lemma FreshMore(first: ItemId, batch: seq<Item>, k: nat, s: Scope, now: nat)
    requires k < |batch|
    ensures FreshEntries(first, batch[..k + 1], s, now)
            == FreshEntries(first, batch[..k], s, now)[first + k := Fresh(batch[k], s, now)]
  {
    var a, b := FreshEntries(first, batch[..k], s, now), FreshEntries(first, batch[..k + 1], s, now);
    forall i: ItemId
      ensures i in b <==> i in a || i == first + k
      ensures i in a && i != first + k ==> b[i] == a[i]
    {
      assert i in b <==> Issued(first, k + 1, i);
      assert i in a <==> Issued(first, k, i);
    }
  }

  /** The index with a batch of fresh entries. */
  method IndexBatch(items: map<ItemId, Entry>, first: ItemId, batch: seq<Item>, s: Scope, now: nat)
    returns (r: map<ItemId, Entry>)
    ensures r == items + FreshEntries(first, batch, s, now)
  {
    hide FreshEntries, Fresh;
    r := items;
    FreshNone(first, s, now);
    for k := 0 to |batch|
      invariant r == items + FreshEntries(first, batch[..k], s, now)
    {
      FreshMore(first, batch, k, s, now);
      r := r[first + k := Fresh(batch[k], s, now)];
    }
    assert batch[..|batch|] == batch;
  }

  lemma FreshNone(first: ItemId, s: Scope, now: nat)
    ensures FreshEntries(first, [], s, now) == map[]
  {
  }

  /** One access of a hit, field by field. */
  method TouchEntry(cfg: Settings, e: Entry, now: nat) returns (e': Entry)
    ensures e' == Touch(cfg, e, now)
  {
    var recent := PruneQueue(e.recent + [now], now, cfg.promotion.minorWindow);
    e' := e.(accesses := e.accesses + 1, lastTouch := now, recent := recent,
             touches := e.touches + [now], visits := e.visits + [now]);
    if cfg.policy.RecencyWeighted? {
      e' := e'.(weight := WeightAt(e, cfg.policy.decay, now) + 1.0, weightAt := now);
    }
  }

  ghost function HitQuads(items: map<ItemId, Entry>, s: Scope, quads: set<Quad>): set<Quad> {
    set q | q in quads && HitOf(items, s, q).Some?
  }

  ghost function HitIds(items: map<ItemId, Entry>, s: Scope, quads: set<Quad>): set<ItemId> {
    set q | q in HitQuads(items, s, quads) :: HitOf(items, s, q).value
  }

  lemma OneMoreQuad(items: map<ItemId, Entry>, s: Scope, quads: set<Quad>, q: Quad)
    requires q !in quads
    ensures var h := HitOf(items, s, q);
            && (h.None? ==> HitQuads(items, s, quads + {q}) == HitQuads(items, s, quads)
                            && HitIds(items, s, quads + {q}) == HitIds(items, s, quads))
            && (h.Some? ==> |HitQuads(items, s, quads + {q})| == |HitQuads(items, s, quads)| + 1
                            && HitIds(items, s, quads + {q}) == HitIds(items, s, quads) + {h.value})
  {
    hide HitOf;
    if HitOf(items, s, q).None? {
      assert HitQuads(items, s, quads + {q}) == HitQuads(items, s, quads);
    } else {
      assert HitQuads(items, s, quads + {q}) == HitQuads(items, s, quads) + {q};
    }
  }

  /** Scan one store: the ids of the live items of the scope with a matching quad, and how many quads. */
  method ScanStore(y: Sys, s: Scope, p: TriplePattern) returns (found: set<ItemId>, matched: nat)
    ensures found == FoundIds(y, s, p) && matched == |Matched(y, s, p)|
  {
    hide HitOf, HitQuads, HitIds;
    var all := Scan(y.stores.Get(s), AnyGraph(p));
    var todo := all;
    found, matched := {}, 0;
    NoQuads(y.items, s);
    assert all - todo == {};
    while todo != {}
      invariant todo <= all
      invariant found == HitIds(y.items, s, all - todo) && matched == |HitQuads(y.items, s, all - todo)|
    {
      var q :| q in todo;
      OneMoreQuad(y.items, s, all - todo, q);
      assert all - (todo - {q}) == (all - todo) + {q};
      todo := todo - {q};
      var hit := HitOf(y.items, s, q);
      if hit.Some? {
        matched := matched + 1;
        found := found + {hit.value};
      }
    }
    assert all - todo == all;
    AllQuads(y, s, p);
  }

  lemma NoQuads(items: map<ItemId, Entry>, s: Scope)
    ensures HitQuads(items, s, {}) == {} && HitIds(items, s, {}) == {}
  {
  }

  lemma AllQuads(y: Sys, s: Scope, p: TriplePattern)
    ensures HitQuads(y.items, s, Scan(y.stores.Get(s), AnyGraph(p))) == Matched(y, s, p)
    ensures HitIds(y.items, s, Scan(y.stores.Get(s), AnyGraph(p))) == FoundIds(y, s, p)
  {
    hide HitOf;
    assert HitQuads(y.items, s, Scan(y.stores.Get(s), AnyGraph(p))) == Matched(y, s, p);
  }

  // ---- the session object ---------------------------------------------------------------------

  class Session {
    const cfg: Settings
    var stores: Tiers<set<Quad>>
    var items: map<ItemId, Entry>
    var nextId: nat
    var stats: Stats
    var env: Env

    function Abs(): Sys
      reads this
    {
      Sys(stores, items, nextId, stats, env)
    }

    constructor (cfg: Settings, y: Sys)
      ensures Abs() == y && this.cfg == cfg
    {
      this.cfg := cfg;
      stores, items, nextId, stats, env := y.stores, y.items, y.nextId, y.stats, y.env;
    }

    method Now() returns (now: nat)
      modifies this`env
      ensures Abs() == ReadClock(old(Abs())) && now == env.clock
    {
      if env.delays != [] {
        env := env.(clock := env.clock + env.delays[0], delays := env.delays[1..]);
      }
      now := env.clock;
    }

    /** Whether the next storage transaction, which would leave the stores as `after`, succeeds. */
    method Transact(after: Tiers<set<Quad>>) returns (ok: bool)
      modifies this`env
      ensures ok == Step(old(Abs()), after).ok && env == Step(old(Abs()), after).sys.env
    {
      ok := true;
      if env.faults != [] {
        ok := !env.faults[0];
        env := env.(faults := env.faults[1..]);
      }
      if ok {
        env := env.(log := env.log + [after]);
      }
    }

    /** Commit a write transaction whose working copy is `quads`. */
    method Commit(s: Scope, quads: set<Quad>) returns (ok: bool)
      modifies this`env, this`stores
      ensures Done(Abs(), ok) == Write(old(Abs()), s, quads)
    {
      var after := stores.Put(s, quads);
      ok := Transact(after);
      if ok {
        stores := after;
      }
    }

    /** Remove every quad of the item from the store of `s`, in one transaction. */
    method Delete(s: Scope, id: ItemId) returns (ok: bool)
      modifies this`env, this`stores
      ensures Done(Abs(), ok) == Write(old(Abs()), s, DeleteItem(old(stores).Get(s), id))
    {
      var store := stores.Get(s);
      var quads := Scan(store, GraphPattern(id)) + Scan(store, RecordPattern(id));
      var working, todo := store, quads;
      while todo != {}
        invariant todo <= quads && working == store - (quads - todo)
      {
        var q :| q in todo;
        working, todo := working - {q}, todo - {q};
      }
      assert working == DeleteItem(store, id);
      ok := Commit(s, working);
    }

    method MoveItem(id: ItemId, to: Scope, arrival: Arrival) returns (ok: bool)
      requires id in items
      modifies this`env, this`stores, this`items
      ensures Done(Abs(), ok) == Machine.MoveItem(old(Abs()), id, to, arrival)
    {
      var e := items[id];
      ok := Commit(to, stores.Get(to) + Encode(id, e.item));
      if !ok { return; }
      ok := Delete(e.scope, id);
      if !ok { return; }
      e := e.(scope := to, arrival := arrival);
      if arrival == Demoted {
        e := e.(recent := [], visits := []);
      }
      items := items[id := e];
    }

    method DropItem(id: ItemId) returns (ok: bool)
      requires id in items
      modifies this`env, this`stores, this`items, this`stats
      ensures Done(Abs(), ok) == Machine.DropItem(old(Abs()), id)
    {
      ok := Delete(items[id].scope, id);
      if ok {
        items := items - {id};
        stats := stats.(evicted := stats.evicted + 1);
      }
    }

    method MoveList(ids: seq<ItemId>, to: Scope, arrival: Arrival) returns (ok: bool)
      requires forall i :: i in ids ==> i in items
      modifies this`env, this`stores, this`items
      ensures Done(Abs(), ok) == MoveAll(old(Abs()), ids, to, arrival)
    {
      hide Machine.MoveItem;
      for k := 0 to |ids|
        invariant forall i :: i in ids ==> i in items
        invariant MoveAll(Abs(), ids[k..], to, arrival) == MoveAll(old(Abs()), ids, to, arrival)
      {
        assert ids[k..][0] == ids[k] && ids[k..][1..] == ids[k + 1..];
        ok := MoveItem(ids[k], to, arrival);
        if !ok { return; }
      }
      ok := true;
    }

    method DropList(ids: seq<ItemId>) returns (ok: bool)
      requires Distinct(ids) && forall i :: i in ids ==> i in items
      modifies this`env, this`stores, this`items, this`stats
      ensures Done(Abs(), ok) == DropAll(old(Abs()), ids)
    {
      hide Machine.DropItem;
      for k := 0 to |ids|
        invariant forall j :: k <= j < |ids| ==> ids[j] in items
        invariant DropAll(Abs(), ids[k..]) == DropAll(old(Abs()), ids)
      {
        assert ids[k..][0] == ids[k] && ids[k..][1..] == ids[k + 1..];
        ok := DropItem(ids[k]);
        if !ok { return; }
      }
      ok := true;
    }

    /** Demote or drop one victim. */
    method EvictOne(s: Scope, id: ItemId) returns (ok: bool)
      requires id in items
      modifies this`env, this`stores, this`items, this`stats
      ensures Done(Abs(), ok) == Machine.EvictOne(cfg, old(Abs()), s, id)
    {
      var target := TargetOf(cfg.target, s, items[id].arrival);
      match target
      case Some(colder) =>
        ok := MoveItem(id, colder, Demoted);
        if ok { stats := stats.(demoted := stats.demoted + 1); }
      case None =>
        ok := DropItem(id);
    }

    method EvictVictims(s: Scope, ids: seq<ItemId>) returns (ok: bool)
      requires Distinct(ids) && forall i :: i in ids ==> i in items
      modifies this`env, this`stores, this`items, this`stats
      ensures Done(Abs(), ok) == Machine.EvictVictims(cfg, old(Abs()), s, ids)
    {
      hide Machine.EvictOne;
      for k := 0 to |ids|
        invariant forall j :: k <= j < |ids| ==> ids[j] in items
        invariant Machine.EvictVictims(cfg, Abs(), s, ids[k..]) == Machine.EvictVictims(cfg, old(Abs()), s, ids)
      {
        assert ids[k..][0] == ids[k] && ids[k..][1..] == ids[k + 1..];
        ok := EvictOne(s, ids[k]);
        if !ok { return; }
      }
      ok := true;
    }

    method EvictByPolicy(s: Scope, count: nat) returns (n: nat, ok: bool)
      modifies this`env, this`stores, this`items, this`stats
      ensures Done(Abs(), ok) == Machine.EvictByPolicy(cfg, old(Abs()), s, count)
      ensures n == AtMost(count, |InScope(old(items), s)|)
    {
      hide Machine.EvictVictims, Victims;
      var now := Now();
      var victims := Victims(cfg, items, s, count, now);
      assert forall i :: i in victims ==> i in Elems(victims);
      n := |victims|;
      ok := EvictVictims(s, victims);
    }

    /** Evict down to the bound, tier by tier towards the coldest. */
    method EnforceBounds(s: Scope) returns (ok: bool)
      modifies this`env, this`stores, this`items, this`stats
      ensures Done(Abs(), ok) == Machine.EnforceBounds(cfg, old(Abs()), s)
    {
      hide Machine.EvictByPolicy;
      var next := Some(s);
      while next.Some?
        invariant next.Some? ==>
                    Machine.EnforceBounds(cfg, Abs(), next.value) == Machine.EnforceBounds(cfg, old(Abs()), s)
        invariant next.None? ==> Done(Abs(), true) == Machine.EnforceBounds(cfg, old(Abs()), s)
        decreases if next.Some? then next.value.Rank() + 1 else 0
      {
        var scope := next.value;
        var bound, count := cfg.bounds.Get(scope), |InScope(items, scope)|;
        if bound.Some? && count > bound.value {
          var _, evicted := EvictByPolicy(scope, count - bound.value);
          if !evicted { return false; }
        }
        next := scope.Colder();
      }
      ok := true;
    }

    /** Both lists first, then the moves and the cascade; returns how many items moved. */
    method AutoPromote(now: nat) returns (promoted: nat, ok: bool)
      modifies this`env, this`stores, this`items, this`stats
      ensures Done(Abs(), ok) == Machine.AutoPromote(cfg, old(Abs()), now)
      ensures promoted == |DueEnduring(cfg, old(items))| + |DueMajor(cfg, old(items), now)|
    {
      hide MoveAll, Machine.EnforceBounds, DueEnduring, DueMajor;
      var up, mid := DueItems(cfg, items, now);
      promoted := |up| + |mid|;
      ok := MoveList(up, Enduring, Promoted);
      if !ok { return; }
      ok := MoveList(mid, Major, Promoted);
      if !ok { return; }
      stats := stats.(promoted := stats.promoted + promoted);
      if up != [] {
        ok := EnforceBounds(Enduring);
      } else if mid != [] {
        ok := EnforceBounds(Major);
      }
    }

    /** One write for the whole batch, then its entries, then the bounds. */
    method AddBatch(s: Scope, batch: seq<Item>) returns (r: Result<Value>)
      modifies this`env, this`stores, this`items, this`stats, this`nextId
      ensures Reply(Abs(), r) == DoAddBatch(cfg, old(Abs()), s, batch)
    {
      hide Machine.EnforceBounds, EncodeAll, FreshEntries;
      var invalid := ValidateAll(items, batch);
      if invalid.Some? { return Err(invalid.value); }
      var first := nextId;
      var working := InsertBatch(stores.Get(s), first, batch);
      var ok := Commit(s, working);
      if !ok { return Err(Storage); }
      var now := Now();
      nextId := first + |batch|;
      items := IndexBatch(items, first, batch, s, now);
      stats := stats.(added := stats.added + |batch|);
      ok := EnforceBounds(s);
      if !ok { return Err(Storage); }
      r := Ok(Ids(NewIds(first, |batch|)));
    }

    method Remove(s: Scope, id: ItemId) returns (r: Result<Value>)
      modifies this`env, this`stores, this`items
      ensures Reply(Abs(), r) == DoRemove(old(Abs()), s, id)
    {
      if id !in items || items[id].scope != s { return Ok(Flag(false)); }
      var ok := Delete(s, id);
      if !ok { return Err(Storage); }
      items := items - {id};
      r := Ok(Flag(true));
    }

    method Promote(ids: seq<ItemId>, from: Scope, to: Scope) returns (r: Result<Value>)
      modifies this`env, this`stores, this`items, this`stats
      ensures Reply(Abs(), r) == DoPromote(cfg, old(Abs()), ids, from, to)
    {
      hide Machine.EnforceBounds, MoveAll, Unique;
      if to.Rank() < from.Rank() { return Err(DurabilityViolation(from, to)); }
      var checked := CheckInScope(items, ids, from);
      if checked.Err? { return Err(checked.error); }
      if to == from { return Ok(Count(0)); }
      CheckedInScope(items, checked.value, from);
      var ok := MoveList(checked.value, to, Promoted);
      if !ok { return Err(Storage); }
      stats := stats.(promoted := stats.promoted + |checked.value|);
      ok := EnforceBounds(to);
      if !ok { return Err(Storage); }
      r := Ok(Count(|checked.value|));
    }

    method Evict(s: Scope, criteria: Criteria) returns (r: Result<Value>)
      modifies this`env, this`stores, this`items, this`stats
      ensures Reply(Abs(), r) == DoEvict(cfg, old(Abs()), s, criteria)
    {
      hide Machine.EnforceBounds, Machine.EvictByPolicy, MoveAll, DropAll, Unique;
      match criteria
      case EvictItems(ids) =>
        var checked := CheckInScope(items, ids, s);
        if checked.Err? { return Err(checked.error); }
        CheckedInScope(items, checked.value, s);
        var ok := DropList(checked.value);
        if !ok { return Err(Storage); }
        r := Ok(Count(|checked.value|));
      case EvictDemote(ids, to) =>
        if to.Rank() >= s.Rank() { return Err(DurabilityViolation(s, to)); }
        var checked := CheckInScope(items, ids, s);
        if checked.Err? { return Err(checked.error); }
        CheckedInScope(items, checked.value, s);
        var ok := MoveList(checked.value, to, Demoted);
        if !ok { return Err(Storage); }
        stats := stats.(demoted := stats.demoted + |checked.value|);
        ok := EnforceBounds(to);
        if !ok { return Err(Storage); }
        r := Ok(Count(|checked.value|));
      case EvictPolicy(count) =>
        var n, ok := EvictByPolicy(s, count);
        if !ok { return Err(Storage); }
        var colder := s.Colder();
        if colder.Some? {
          ok := EnforceBounds(colder.value);
          if !ok { return Err(Storage); }
        }
        r := Ok(Count(n));
    }

    /** One read transaction per scope; hits scope by scope, oldest first. */
    method ScanAll(scopes: seq<Scope>, p: TriplePattern) returns (ok: bool, hits: seq<Hit>, matched: nat)
      modifies this`env
      ensures var r := ScanScopes(old(Abs()), scopes, p);
              Abs() == r.sys && ok == r.ok && (ok ==> hits == r.hits && matched == r.matched)
    {
      hide FoundIds, Matched, ScanScopes, HitList, SortedIds;
      hits, matched := [], 0;
      assert scopes[0..] == scopes;
      for k := 0 to |scopes|
        invariant stores == old(stores) && items == old(items)
        invariant var r, rest := ScanScopes(old(Abs()), scopes, p), ScanScopes(Abs(), scopes[k..], p);
                  && r.sys == rest.sys && r.ok == rest.ok
                  && (r.ok ==> r.hits == hits + rest.hits && r.matched == matched + rest.matched)
      {
        assert scopes[k..][0] == scopes[k] && scopes[k..][1..] == scopes[k + 1..];
        ghost var y := Abs();
        ScanFirst(y, scopes[k..], p);
        ok := Transact(stores);
        assert Done(Abs(), ok) == Attempt(y);
        if !ok { return; }
        var found, n := ScanStore(Abs(), scopes[k], p);
        SameScan(Abs(), y, scopes[k], p);
        hits := hits + HitList(SortedIds(found), scopes[k]);
        matched := matched + n;
      }
      ScanFirst(Abs(), [], p);
      ok := true;
    }

    /** Every hit counts as an access; the results are the hits with their content. */
    method ServeHits(hits: seq<Hit>, now: nat) returns (results: seq<Ranked>)
      requires Indexed(items, hits)
      modifies this`items
      ensures items == TouchAll(cfg, old(items), hits, now)
      ensures results == Results(old(items), hits)
    {
      hide Touch;
      results := [];
      for k := 0 to |hits|
        invariant items.Keys == old(items).Keys && forall i :: i in items ==> items[i].item == old(items)[i].item
        invariant TouchAll(cfg, items, hits[k..], now) == TouchAll(cfg, old(items), hits, now)
        invariant |results| == k && forall j :: 0 <= j < k ==> results[j] == Results(old(items), hits)[j]
      {
        assert hits[k..][0] == hits[k] && hits[k..][1..] == hits[k + 1..];
        var id := hits[k].id;
        var e := TouchEntry(cfg, items[id], now);
        TouchKeepsItem(cfg, items[id], now);
        results := results + [Ranked(id, e.item, hits[k].scope)];
        items := items[id := e];
      }
    }

    method Query(sel: Selection, p: TriplePattern, limit: Option<nat>) returns (r: Result<Value>)
      modifies this`env, this`stores, this`items, this`stats
      ensures Reply(Abs(), r) == DoQuery(cfg, old(Abs()), sel, p, limit)
    {
      hide Consulted, ScanScopes, TouchAll, Machine.AutoPromote, DueEnduring, DueMajor, Results;
      var scopes := ConsultedScopes(sel);
      var ok, hits, matched := ScanAll(scopes, p);
      if !ok { return Err(Storage); }
      if limit.Some? && limit.value < |hits| {
        hits := hits[..limit.value];
      }
      assert hits == Cut(ScanScopes(old(Abs()), Consulted(sel), p).hits, limit);
      var now := Now();
      ghost var y1 := Abs();
      var results := ServeHits(hits, now);
      stats := stats.(queries := stats.queries + 1);
      assert Abs() == Served(cfg, y1, hits);
      var answer := Answer(results, |scopes|, matched, 0);
      if !cfg.promotion.afterEachQuery { return Ok(Found(answer)); }
      var promoted, done := AutoPromote(now);
      if !done { return Err(Storage); }
      r := Ok(Found(answer.(autoPromoted := promoted)));
    }

    method Snapshot(s: Scope) returns (r: Result<ContextSnapshot>)
      modifies this`env
      ensures Abs() == Attempt(old(Abs())).sys
      ensures r == if Attempt(old(Abs())).ok then Ok(SnapshotOf(Abs(), s)) else Err(Storage)
    {
      var copies := CopyScope(items, s);
      var ok := Transact(stores);
      if !ok { return Err(Storage); }
      r := Ok(ContextSnapshot(s, copies, |stores.Get(s)|));
    }
  }

  /** A scan of several scopes is its first step and then the rest. */
  lemma ScanFirst(y: Sys, scopes: seq<Scope>, p: TriplePattern)
    ensures scopes == [] ==> ScanScopes(y, scopes, p) == Scanned(y, true, [], 0)
    ensures scopes != [] ==>
              var d, r := Attempt(y), ScanScopes(y, scopes, p);
              && (!d.ok ==> r.sys == d.sys && !r.ok)
              && (d.ok ==>
                    var rest := ScanScopes(d.sys, scopes[1..], p);
                    && r.sys == rest.sys && r.ok == rest.ok
                    && (r.ok ==> && r.hits == HitList(SortedIds(FoundIds(y, scopes[0], p)), scopes[0]) + rest.hits
                                 && r.matched == |Matched(y, scopes[0], p)| + rest.matched))
  {
  }

  lemma TouchKeepsItem(cfg: Settings, e: Entry, now: nat)
    ensures Touch(cfg, e, now).item == e.item
  {
  }

  /** Load the three stores, most durable first, and build the index. */
  method Open(cfg: Settings, persistent: bool, stores: Tiers<set<Quad>>, env: Env)
    returns (r: Result<Session>, found: Tiers<map<ItemId, Item>>)
    ensures !persistent ==> r == Err(CapabilityShortfall)
    ensures r.Ok? ==> fresh(r.value) && r.value.cfg == cfg && Opens(stores, found, r.value.Abs())
    ensures persistent && r.Err? ==> r.error in {Storage, Corrupt}
    ensures r.Err? && r.error == Storage ==> true in env.faults
    ensures r.Err? && r.error == Corrupt ==>
              exists s: Scope, q :: q in Scan(stores.Get(s), ALL_RECORDS) && ReadRecord(stores.Get(s), q).Err?
  {
    hide Loads, Merge, AllIds, NextAfter, Fresh;
    found := Tiers(map[], map[], map[]);
    if !persistent { return Err(CapabilityShortfall), found; }
    var clock := if env.delays == [] then env.clock else env.clock + env.delays[0];
    var faults, items := env.faults, map[];
    MergeNone(clock);
    for k := 0 to |ALL_SCOPES|
      invariant forall j :: 0 <= j < k ==> Loads(stores.Get(ALL_SCOPES[j]), found.Get(ALL_SCOPES[j]))
      invariant forall s: Scope :: s !in ALL_SCOPES[..k] ==> found.Get(s) == map[]
      invariant items == Merge(found, clock)
      invariant forall f :: f in faults ==> f in env.faults
    {
      var s := ALL_SCOPES[k];
      if faults != [] {
        var failed := faults[0];
        faults := faults[1..];
        if failed { return Err(Storage), found; }
      }
      var loaded := Load(stores.Get(s));
      if loaded.Err? { return Err(loaded.error), found; }
      MergeMore(found, k, loaded.value, clock);
      items := items + FreshUnseen(items, loaded.value, s, clock);
      LoadedMore(stores, found, k, loaded.value);
      found := found.Put(s, loaded.value);
    }
    AllLoaded(stores, found);
    MergeKeys(found, clock);
    var delays := if env.delays == [] then [] else env.delays[1..];
    var y := Sys(stores, items, NextAfter(items.Keys), NO_STATS, Env(clock, delays, faults, []));
    var session := new Session(cfg, y);
    r := Ok(session);
  }

  /** Fresh entries for the loaded items that no more durable store had. */
  function FreshUnseen(items: map<ItemId, Entry>, m: map<ItemId, Item>, s: Scope, now: nat): map<ItemId, Entry> {
    map i | i in m && i !in items :: Fresh(m[i], s, now)
  }

  lemma MergeNone(now: nat)
    ensures Merge(Tiers(map[], map[], map[]), now) == map[]
  {
  }

  lemma MergeKeys(found: Tiers<map<ItemId, Item>>, now: nat)
    ensures Merge(found, now).Keys == AllIds(found)
  {
  }

  lemma LoadedMore(stores: Tiers<set<Quad>>, found: Tiers<map<ItemId, Item>>, k: nat, m: map<ItemId, Item>)
    requires k < |ALL_SCOPES| && Loads(stores.Get(ALL_SCOPES[k]), m)
    requires forall j :: 0 <= j < k ==> Loads(stores.Get(ALL_SCOPES[j]), found.Get(ALL_SCOPES[j]))
    requires forall s: Scope :: s !in ALL_SCOPES[..k] ==> found.Get(s) == map[]
    ensures var found' := found.Put(ALL_SCOPES[k], m);
            && (forall j :: 0 <= j <= k ==> Loads(stores.Get(ALL_SCOPES[j]), found'.Get(ALL_SCOPES[j])))
            && (forall s: Scope :: s !in ALL_SCOPES[..k + 1] ==> found'.Get(s) == map[])
  {
    hide Loads;
    var found' := found.Put(ALL_SCOPES[k], m);
    assert forall j :: 0 <= j < k ==> ALL_SCOPES[j] != ALL_SCOPES[k];
    assert forall s: Scope :: s != ALL_SCOPES[k] ==> found'.Get(s) == found.Get(s);
    assert ALL_SCOPES[..k + 1] == ALL_SCOPES[..k] + [ALL_SCOPES[k]];
  }

  /** Loading one more store, less durable than those before, adds only ids not yet seen. */
  lemma MergeMore(found: Tiers<map<ItemId, Item>>, k: nat, m: map<ItemId, Item>, now: nat)
    requires k < |ALL_SCOPES| && forall s: Scope :: s !in ALL_SCOPES[..k] ==> found.Get(s) == map[]
    ensures var s, items := ALL_SCOPES[k], Merge(found, now);
            items + FreshUnseen(items, m, s, now) == Merge(found.Put(s, m), now)
  {
    hide Merge, FreshUnseen;
    var s := ALL_SCOPES[k];
    assert forall u: Scope :: u.Rank() <= s.Rank() ==> u !in ALL_SCOPES[..k];
    MergeColder(found, s, m, now);
  }

  lemma MergeColder(found: Tiers<map<ItemId, Item>>, s: Scope, m: map<ItemId, Item>, now: nat)
    requires forall u: Scope :: u.Rank() <= s.Rank() ==> found.Get(u) == map[]
    ensures Merge(found, now) + FreshUnseen(Merge(found, now), m, s, now) == Merge(found.Put(s, m), now)
  {
    hide Fresh, Winner, AllIds, Merge;
    MergeKeys(found, now);
    MergeKeys(found.Put(s, m), now);
    var items, after := Merge(found, now), Merge(found.Put(s, m), now);
    forall i
      ensures i in after <==> i in items || i in m
      ensures i in items ==> after[i] == items[i]
      ensures i in m && i !in items ==> after[i] == Fresh(m[i], s, now)
    {
      WinnerAfter(found, s, m, i);
      MergeAt(found, now, i);
      MergeAt(found.Put(s, m), now, i);
    }
  }

  lemma MergeAt(found: Tiers<map<ItemId, Item>>, now: nat, i: ItemId)
    ensures i in AllIds(found) ==>
              && Winner(found, i).Some? && i in found.Get(Winner(found, i).value)
              && i in Merge(found, now)
              && Merge(found, now)[i] == Fresh(found.Get(Winner(found, i).value)[i], Winner(found, i).value, now)
  {
  }

  lemma WinnerAfter(found: Tiers<map<ItemId, Item>>, s: Scope, m: map<ItemId, Item>, i: ItemId)
    requires forall u: Scope :: u.Rank() <= s.Rank() ==> found.Get(u) == map[]
    ensures i in AllIds(found.Put(s, m)) <==> i in AllIds(found) || i in m
    ensures i in AllIds(found) ==>
              var w := Winner(found, i);
              w.Some? && Winner(found.Put(s, m), i) == w && w.value != s && i in found.Get(w.value)
    ensures i in m && i !in AllIds(found) ==> Winner(found.Put(s, m), i) == Some(s)
  {
    assert found.Get(Minor) == map[] && found.Get(s) == map[];
    assert s == Enduring ==> found.Get(Major) == map[];
  }

  lemma AllLoaded(stores: Tiers<set<Quad>>, found: Tiers<map<ItemId, Item>>)
    requires forall j :: 0 <= j < |ALL_SCOPES| ==> Loads(stores.Get(ALL_SCOPES[j]), found.Get(ALL_SCOPES[j]))
    ensures forall s: Scope :: Loads(stores.Get(s), found.Get(s))
  {
    hide Loads;
    assert ALL_SCOPES[0] == Enduring && ALL_SCOPES[1] == Major && ALL_SCOPES[2] == Minor;
    forall s: Scope
      ensures Loads(stores.Get(s), found.Get(s))
    {
      match s
      case Enduring => assert Loads(stores.Get(ALL_SCOPES[0]), found.Get(ALL_SCOPES[0]));
      case Major => assert Loads(stores.Get(ALL_SCOPES[1]), found.Get(ALL_SCOPES[1]));
      case Minor => assert Loads(stores.Get(ALL_SCOPES[2]), found.Get(ALL_SCOPES[2]));
    }
  }
}
