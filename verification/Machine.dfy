/** The session as a state machine over its three stores and its index.  Every storage transaction and
    every clock reading is an explicit step; the environment's script says which storage steps fail and
    how far the clock moves between readings.  An operation stops at the first storage step that fails. */
module Machine {
  import opened Rdf
  import opened Items
  import opened Entries
  import opened Order
  import Layout

  datatype Stats = Stats(added: nat, queries: nat, promoted: nat, demoted: nat, evicted: nat)

  const NO_STATS: Stats := Stats(0, 0, 0, 0, 0)

  /** `faults[0]` decides the next storage step, `delays[0]` how long until the next clock reading;
      past the end of the script nothing fails and no time passes.  `log` is a history variable: the
      stores after each storage step that succeeded.  Nothing reads it. */
  datatype Env = Env(clock: nat, delays: seq<nat>, faults: seq<bool>, log: seq<Tiers<set<Quad>>>)

  datatype Sys = Sys(stores: Tiers<set<Quad>>, items: map<ItemId, Entry>, nextId: nat, stats: Stats, env: Env)

  /** The state after some storage steps, and whether all of them succeeded. */
  datatype Done = Done(sys: Sys, ok: bool)

  function ReadClock(y: Sys): Sys {
    if y.env.delays == [] then y
    else y.(env := y.env.(clock := y.env.clock + y.env.delays[0], delays := y.env.delays[1..]))
  }

  /** One storage transaction that leaves the stores as `after`: all of it is applied, or nothing. */
  function Step(y: Sys, after: Tiers<set<Quad>>): Done {
    var rest := if y.env.faults == [] then [] else y.env.faults[1..];
    if y.env.faults != [] && y.env.faults[0] then Done(y.(env := y.env.(faults := rest)), false)
    else Done(y.(stores := after, env := y.env.(faults := rest, log := y.env.log + [after])), true)
  }

  /** One storage transaction that changes nothing. */
  function Attempt(y: Sys): Done {
    Step(y, y.stores)
  }

  /** One write transaction on the store of `s`. */
  function Write(y: Sys, s: Scope, quads: set<Quad>): Done {
    Step(y, y.stores.Put(s, quads))
  }

  function InScope(items: map<ItemId, Entry>, s: Scope): set<ItemId> {
    set i | i in items && items[i].scope == s
  }

  // ---- eviction order ------------------------------------------------------------------------

  function KeyOf(policy: EvictionPolicy, e: Entry, now: nat): real {
    match policy
    case Lru => e.lastTouch as real
    case Lfu => e.accesses as real
    case RecencyWeighted(decay) => WeightAt(e, decay, now)
  }

  function Keys(policy: EvictionPolicy, items: map<ItemId, Entry>, s: Scope, now: nat): map<ItemId, real> {
    map i | i in items && items[i].scope == s :: KeyOf(policy, items[i], now)
  }

  function AtMost(a: nat, b: nat): nat {
    if a <= b then a else b
  }

  /** All items of `s` in eviction order. */
  function EvictionOrder(cfg: Settings, items: map<ItemId, Entry>, s: Scope, now: nat): (v: seq<ItemId>)
    ensures Keyed(Keys(cfg.policy, items, s, now), v)
    ensures Elems(v) == InScope(items, s) && |v| == |InScope(items, s)|
  {
    var ids := SortedIds(InScope(items, s));
    assert forall i :: 0 <= i < |ids| ==> ids[i] in Elems(ids);
    StableSort(Keys(cfg.policy, items, s, now), ids)
  }

  /** Up to `count` items of `s`, in eviction order. */
  function Victims(cfg: Settings, items: map<ItemId, Entry>, s: Scope, count: nat, now: nat): (v: seq<ItemId>)
    ensures |v| == AtMost(count, |InScope(items, s)|)
    ensures Distinct(v) && Elems(v) <= InScope(items, s)
  {
    var order := EvictionOrder(cfg, items, s, now);
    OrderedDistinct(cfg, items, s, now);
    PrefixDistinct(order, AtMost(count, |order|));
    order[..AtMost(count, |order|)]
  }

  lemma OrderedDistinct(cfg: Settings, items: map<ItemId, Entry>, s: Scope, now: nat)
    ensures InOrder(Keys(cfg.policy, items, s, now), EvictionOrder(cfg, items, s, now))
    ensures Distinct(EvictionOrder(cfg, items, s, now))
  {
    var ids, keys := SortedIds(InScope(items, s)), Keys(cfg.policy, items, s, now);
    assert forall i :: 0 <= i < |ids| ==> ids[i] in Elems(ids);
    StableSortOrders(keys, ids);
    InOrderDistinct(keys, EvictionOrder(cfg, items, s, now));
  }

  // ---- moving and dropping items --------------------------------------------------------------

  /** Two commits and an index update: the target gains the item's quads before the source loses them. */
  function MoveItem(y: Sys, id: ItemId, to: Scope, arrival: Arrival): (d: Done)
    requires id in y.items
    ensures d.sys.items.Keys == y.items.Keys
  {
    var e := y.items[id];
    var d1 := Write(y, to, y.stores.Get(to) + Layout.Encode(id, e.item));
    if !d1.ok then d1 else
    var d2 := Write(d1.sys, e.scope, Layout.DeleteItem(d1.sys.stores.Get(e.scope), id));
    if !d2.ok then d2 else
    Done(d2.sys.(items := d2.sys.items[id := Relocate(e, to, arrival)]), true)
  }

  function MoveAll(y: Sys, ids: seq<ItemId>, to: Scope, arrival: Arrival): (d: Done)
    requires forall i :: i in ids ==> i in y.items
    ensures d.sys.items.Keys == y.items.Keys
    decreases |ids|
  {
    if ids == [] then Done(y, true) else
    var d := MoveItem(y, ids[0], to, arrival);
    if !d.ok then d else MoveAll(d.sys, ids[1..], to, arrival)
  }

  function DropItem(y: Sys, id: ItemId): (d: Done)
    requires id in y.items
    ensures d.sys.items.Keys == if d.ok then y.items.Keys - {id} else y.items.Keys
  {
    var s := y.items[id].scope;
    var d := Write(y, s, Layout.DeleteItem(y.stores.Get(s), id));
    if !d.ok then d else
    Done(d.sys.(items := d.sys.items - {id}, stats := d.sys.stats.(evicted := d.sys.stats.evicted + 1)), true)
  }

  function DropAll(y: Sys, ids: seq<ItemId>): Done
    requires Distinct(ids) && forall i :: i in ids ==> i in y.items
    decreases |ids|
  {
    if ids == [] then Done(y, true) else
    var d := DropItem(y, ids[0]);
    if !d.ok then d else DropAll(d.sys, ids[1..])
  }

  /** Where policy eviction sends an item of `s`; `None` drops it. */
  function TargetOf(target: DemotionTarget, s: Scope, arrival: Arrival): Option<Scope> {
    match target
    case Drop => None
    case NextColder => s.Colder()
    case OneStepThenDrop => if arrival.Promoted? then s.Colder() else None
  }

  function CountDemoted(y: Sys, n: nat): Sys {
    y.(stats := y.stats.(demoted := y.stats.demoted + n))
  }

  function CountPromoted(y: Sys, n: nat): Sys {
    y.(stats := y.stats.(promoted := y.stats.promoted + n))
  }

  function EvictOne(cfg: Settings, y: Sys, s: Scope, id: ItemId): (d: Done)
    requires id in y.items
    ensures y.items.Keys - {id} <= d.sys.items.Keys <= y.items.Keys
  {
    match TargetOf(cfg.target, s, y.items[id].arrival)
    case Some(colder) =>
      var d := MoveItem(y, id, colder, Demoted);
      if d.ok then Done(CountDemoted(d.sys, 1), true) else d
    case None => DropItem(y, id)
  }

  /** Evict the listed items in turn. */
  function EvictVictims(cfg: Settings, y: Sys, s: Scope, ids: seq<ItemId>): Done
    requires Distinct(ids) && forall i :: i in ids ==> i in y.items
    decreases |ids|
  {
    if ids == [] then Done(y, true) else
    var d := EvictOne(cfg, y, s, ids[0]);
    if !d.ok then d else EvictVictims(cfg, d.sys, s, ids[1..])
  }

  /** Read the clock, pick `count` victims of `s` and evict them. */
  function EvictByPolicy(cfg: Settings, y: Sys, s: Scope, count: nat): Done {
    var y1 := ReadClock(y);
    var v := Victims(cfg, y1.items, s, count, y1.env.clock);
    assert forall i :: i in v ==> i in Elems(v);
    EvictVictims(cfg, y1, s, v)
  }

  /** Evict from `s` down to its bound. */
  function TrimTier(cfg: Settings, y: Sys, s: Scope): Done {
    var n := |InScope(y.items, s)|;
    match cfg.bounds.Get(s)
    case None => Done(y, true)
    case Some(bound) => if n > bound then EvictByPolicy(cfg, y, s, n - bound) else Done(y, true)
  }

  /** Trim `s`, then each colder scope in turn. */
  function EnforceBounds(cfg: Settings, y: Sys, s: Scope): Done
    decreases s.Rank()
  {
    var d := TrimTier(cfg, y, s);
    if !d.ok then d else
    match s.Colder()
    case None => d
    case Some(colder) => EnforceBounds(cfg, d.sys, colder)
  }

  // ---- auto-promotion -------------------------------------------------------------------------

  /** The other live items that cite `c`. */
  function CitedBy(items: map<ItemId, Entry>, c: ItemId): set<ItemId> {
    set i | i in items && i != c && c in items[i].item.provenance.derivedFrom
  }

  function ToEnduring(cfg: Settings, items: map<ItemId, Entry>): set<ItemId> {
    set i | i in items && items[i].scope == Major
            && |CitedBy(items, i)| > cfg.promotion.majorToEnduringReferences
  }

  function ToMajor(cfg: Settings, items: map<ItemId, Entry>, now: nat): set<ItemId> {
    set i | i in items && items[i].scope == Minor
            && InWindow(items[i].recent, now, cfg.promotion.minorWindow) > cfg.promotion.minorToMajorAccesses
  }

  predicate AllIn(items: map<ItemId, Entry>, ids: seq<ItemId>, s: Scope) {
    forall i :: i in ids ==> i in items && items[i].scope == s
  }

  lemma SortedIn(items: map<ItemId, Entry>, ids: set<ItemId>, s: Scope)
    requires forall i :: i in ids ==> i in items && items[i].scope == s
    ensures AllIn(items, SortedIds(ids), s) && Distinct(SortedIds(ids))
  {
    var v := SortedIds(ids);
    assert forall i :: i in v ==> i in Elems(v);
  }

  /** The major items due for promotion, oldest first. */
  function DueEnduring(cfg: Settings, items: map<ItemId, Entry>): (v: seq<ItemId>)
    ensures AllIn(items, v, Major) && Distinct(v) && |v| == |ToEnduring(cfg, items)|
  {
    SortedIn(items, ToEnduring(cfg, items), Major);
    SortedIds(ToEnduring(cfg, items))
  }

  /** The minor items due for promotion, oldest first. */
  function DueMajor(cfg: Settings, items: map<ItemId, Entry>, now: nat): (v: seq<ItemId>)
    ensures AllIn(items, v, Minor) && Distinct(v) && |v| == |ToMajor(cfg, items, now)|
  {
    SortedIn(items, ToMajor(cfg, items, now), Minor);
    SortedIds(ToMajor(cfg, items, now))
  }

  function Raise(y: Sys, up: seq<ItemId>, mid: seq<ItemId>): Done
    requires AllIn(y.items, up, Major) && AllIn(y.items, mid, Minor)
  {
    var d := MoveAll(y, up, Enduring, Promoted);
    if !d.ok then d else MoveAll(d.sys, mid, Major, Promoted)
  }

  /** Raise the listed items, book them, and enforce the bounds from the warmest tier they reached. */
  function RaiseAndTrim(cfg: Settings, y: Sys, up: seq<ItemId>, mid: seq<ItemId>): Done
    requires AllIn(y.items, up, Major) && AllIn(y.items, mid, Minor)
  {
    var d := Raise(y, up, mid);
    if !d.ok then d else
    var y1 := CountPromoted(d.sys, |up| + |mid|);
    if up != [] then EnforceBounds(cfg, y1, Enduring)
    else if mid != [] then EnforceBounds(cfg, y1, Major)
    else Done(y1, true)
  }

  /** Both lists are fixed before anything moves. */
  function AutoPromote(cfg: Settings, y: Sys, now: nat): Done {
    RaiseAndTrim(cfg, y, DueEnduring(cfg, y.items), DueMajor(cfg, y.items, now))
  }

  // ---- adding ---------------------------------------------------------------------------------

  /** The first citation of an item that is not live. */
  function FirstUnknown(items: map<ItemId, Entry>, ids: seq<ItemId>): Option<ItemId> {
    if ids == [] then None
    else if ids[0] !in items then Some(ids[0])
    else FirstUnknown(items, ids[1..])
  }

  function Validate(items: map<ItemId, Entry>, item: Item): Option<SessionError> {
    if IsBlank(item.provenance.source) then Some(MissingProvenance)
    else if !WellFormed(item) then Some(InvalidItem)
    else match FirstUnknown(items, item.provenance.derivedFrom)
      case None => None
      case Some(id) => Some(UnknownItem(id))
  }

  function FirstError(items: map<ItemId, Entry>, batch: seq<Item>): Option<SessionError> {
    if batch == [] then None
    else match Validate(items, batch[0])
      case Some(e) => Some(e)
      case None => FirstError(items, batch[1..])
  }

  predicate Issued(first: ItemId, n: nat, i: ItemId) {
    first <= i < first + n
  }

  /** The item of the batch that gets id `i`. */
  function Member(first: ItemId, batch: seq<Item>, i: ItemId): Item
    requires Issued(first, |batch|, i)
  {
    batch[i - first]
  }

  function EncodeAll(first: ItemId, batch: seq<Item>): set<Quad> {
    set i: ItemId, q | first <= i < first + |batch| && Issued(first, |batch|, i)
                       && q in Layout.Encode(i, Member(first, batch, i)) :: q
  }

  function FreshEntries(first: ItemId, batch: seq<Item>, s: Scope, now: nat): map<ItemId, Entry> {
    map i: ItemId | first <= i < first + |batch| && Issued(first, |batch|, i)
      :: Fresh(Member(first, batch, i), s, now)
  }

  function NewIds(first: ItemId, n: nat): seq<ItemId> {
    seq(n, k requires 0 <= k => first + k)
  }

  /** The index after the batch is stored. */
  function Register(y: Sys, s: Scope, batch: seq<Item>): Sys {
    var y1 := ReadClock(y);
    y1.(nextId := y.nextId + |batch|,
        items := y1.items + FreshEntries(y.nextId, batch, s, y1.env.clock),
        stats := y1.stats.(added := y1.stats.added + |batch|))
  }

  // ---- the operations -------------------------------------------------------------------------

  datatype TriplePattern = TriplePattern(subj: Option<Subject>, pred: Option<NamedNode>, obj: Option<Term>)

  datatype Selection = Single(scope: Scope) | All | Listed(scopes: seq<Scope>)

  datatype Criteria = EvictItems(ids: seq<ItemId>) | EvictDemote(ids: seq<ItemId>, to: Scope) | EvictPolicy(count: nat)

  datatype Op =
    | AddBatch(scope: Scope, batch: seq<Item>)
    | Remove(scope: Scope, id: ItemId)
    | Query(selection: Selection, pattern: TriplePattern, limit: Option<nat>)
    | Promote(ids: seq<ItemId>, from: Scope, to: Scope)
    | Evict(scope: Scope, criteria: Criteria)

  datatype Hit = Hit(id: ItemId, scope: Scope)

  datatype Ranked = Ranked(id: ItemId, item: Item, scope: Scope)

  datatype Answer = Answer(items: seq<Ranked>, scopesConsulted: nat, quadsMatched: nat, autoPromoted: nat)

  datatype Value =
    | Ids(ids: seq<ItemId>)
    | Flag(flag: bool)
    | Count(count: nat)
    | Found(answer: Answer)

  datatype StoredItem = StoredItem(id: ItemId, item: Item)

  /** A copy of a tier's items, oldest first, and how many quads its store holds. */
  datatype ContextSnapshot = ContextSnapshot(scope: Scope, items: seq<StoredItem>, quadCount: nat)

  function Copies(items: map<ItemId, Entry>, ids: seq<ItemId>): seq<StoredItem>
    requires forall i :: i in ids ==> i in items
  {
    seq(|ids|, k requires 0 <= k < |ids| => StoredItem(ids[k], items[ids[k]].item))
  }

  function SnapshotOf(y: Sys, s: Scope): ContextSnapshot {
    var ids := SortedIds(InScope(y.items, s));
    assert forall i :: i in ids ==> i in Elems(ids);
    ContextSnapshot(s, Copies(y.items, ids), |y.stores.Get(s)|)
  }

  datatype Reply = Reply(sys: Sys, result: Result<Value>)

  function Settle(d: Done, v: Value): Reply {
    Reply(d.sys, if d.ok then Ok(v) else Err(Storage))
  }

  function DoAddBatch(cfg: Settings, y: Sys, s: Scope, batch: seq<Item>): Reply {
    match FirstError(y.items, batch)
    case Some(e) => Reply(y, Err(e))
    case None =>
      var d := Write(y, s, y.stores.Get(s) + EncodeAll(y.nextId, batch));
      if !d.ok then Reply(d.sys, Err(Storage)) else
      Settle(EnforceBounds(cfg, Register(d.sys, s, batch), s), Ids(NewIds(y.nextId, |batch|)))
  }

  function DoRemove(y: Sys, s: Scope, id: ItemId): Reply {
    if id !in y.items || y.items[id].scope != s then Reply(y, Ok(Flag(false))) else
    var d := Write(y, s, Layout.DeleteItem(y.stores.Get(s), id));
    if !d.ok then Reply(d.sys, Err(Storage)) else
    Reply(d.sys.(items := d.sys.items - {id}), Ok(Flag(true)))
  }

  function CheckEach(items: map<ItemId, Entry>, ids: seq<ItemId>, s: Scope): Option<SessionError> {
    if ids == [] then None
    else if ids[0] !in items then Some(UnknownItem(ids[0]))
    else if items[ids[0]].scope != s then Some(ScopeMismatch(ids[0], s, items[ids[0]].scope))
    else CheckEach(items, ids[1..], s)
  }

  lemma {:induction false} CheckedInScope(items: map<ItemId, Entry>, ids: seq<ItemId>, s: Scope)
    ensures CheckEach(items, ids, s).None? <==> forall i :: i in ids ==> i in items && items[i].scope == s
  {
    if ids != [] {
      CheckedInScope(items, ids[1..], s);
      assert ids == [ids[0]] + ids[1..];
    }
  }

  function DoPromote(cfg: Settings, y: Sys, ids: seq<ItemId>, from: Scope, to: Scope): Reply {
    if to.Rank() < from.Rank() then Reply(y, Err(DurabilityViolation(from, to))) else
    match CheckEach(y.items, Unique(ids), from)
    case Some(e) => Reply(y, Err(e))
    case None =>
      if to == from then Reply(y, Ok(Count(0))) else
      CheckedInScope(y.items, Unique(ids), from);
      var d := MoveAll(y, Unique(ids), to, Promoted);
      if !d.ok then Reply(d.sys, Err(Storage)) else
      Settle(EnforceBounds(cfg, CountPromoted(d.sys, |Unique(ids)|), to), Count(|Unique(ids)|))
  }

  function DoEvictItems(y: Sys, s: Scope, ids: seq<ItemId>): Reply {
    match CheckEach(y.items, Unique(ids), s)
    case Some(e) => Reply(y, Err(e))
    case None =>
      CheckedInScope(y.items, Unique(ids), s);
      Settle(DropAll(y, Unique(ids)), Count(|Unique(ids)|))
  }

  function DoDemote(cfg: Settings, y: Sys, s: Scope, ids: seq<ItemId>, to: Scope): Reply {
    if to.Rank() >= s.Rank() then Reply(y, Err(DurabilityViolation(s, to))) else
    match CheckEach(y.items, Unique(ids), s)
    case Some(e) => Reply(y, Err(e))
    case None =>
      CheckedInScope(y.items, Unique(ids), s);
      var d := MoveAll(y, Unique(ids), to, Demoted);
      if !d.ok then Reply(d.sys, Err(Storage)) else
      Settle(EnforceBounds(cfg, CountDemoted(d.sys, |Unique(ids)|), to), Count(|Unique(ids)|))
  }

  function DoEvictPolicy(cfg: Settings, y: Sys, s: Scope, count: nat): Reply {
    var d := EvictByPolicy(cfg, y, s, count);
    if !d.ok then Reply(d.sys, Err(Storage)) else
    var e := match s.Colder()
      case None => d
      case Some(colder) => EnforceBounds(cfg, d.sys, colder);
    Settle(e, Count(AtMost(count, |InScope(y.items, s)|)))
  }

  function DoEvict(cfg: Settings, y: Sys, s: Scope, c: Criteria): Reply {
    match c
    case EvictItems(ids) => DoEvictItems(y, s, ids)
    case EvictDemote(ids, to) => DoDemote(cfg, y, s, ids, to)
    case EvictPolicy(count) => DoEvictPolicy(cfg, y, s, count)
  }

  // ---- queries --------------------------------------------------------------------------------

  function UniqueScopes(listed: seq<Scope>): seq<Scope> {
    if listed == [] then []
    else
      var front, last := UniqueScopes(listed[..|listed| - 1]), listed[|listed| - 1];
      if last in front then front else front + [last]
  }

  const ALL_SCOPES: seq<Scope> := [Enduring, Major, Minor]

  function Consulted(sel: Selection): seq<Scope> {
    match sel
    case Single(s) => UniqueScopes([s])
    case All => UniqueScopes(ALL_SCOPES)
    case Listed(scopes) => UniqueScopes(scopes)
  }

  function AnyGraph(p: TriplePattern): Pattern {
    Pattern(p.subj, p.pred, p.obj, None)
  }

  /** The id of the live item of `s` that a scanned quad stands for, if any. */
  function HitOf(items: map<ItemId, Entry>, s: Scope, q: Quad): Option<ItemId> {
    if q.graph.Default? then None
    else match Layout.ParseItemGraph(q.graph.name)
      case None => None
      case Some(id) => if id in items && items[id].scope == s then Some(id) else None
  }

  function Matched(y: Sys, s: Scope, p: TriplePattern): set<Quad> {
    set q | q in Scan(y.stores.Get(s), AnyGraph(p)) && HitOf(y.items, s, q).Some?
  }

  function FoundIds(y: Sys, s: Scope, p: TriplePattern): set<ItemId> {
    set q | q in Matched(y, s, p) :: HitOf(y.items, s, q).value
  }

  function HitList(ids: seq<ItemId>, s: Scope): seq<Hit> {
    seq(|ids|, k requires 0 <= k < |ids| => Hit(ids[k], s))
  }

  datatype Scanned = Scanned(sys: Sys, ok: bool, hits: seq<Hit>, matched: nat)

  predicate Indexed(items: map<ItemId, Entry>, hits: seq<Hit>) {
    forall k :: 0 <= k < |hits| ==> hits[k].id in items
  }

  lemma FoundIndexed(y: Sys, s: Scope, p: TriplePattern)
    ensures Indexed(y.items, HitList(SortedIds(FoundIds(y, s, p)), s))
  {
    var ids := SortedIds(FoundIds(y, s, p));
    assert forall i :: 0 <= i < |ids| ==> ids[i] in Elems(ids);
  }

  /** A scan depends on the stores and the index only. */
  lemma SameScan(y: Sys, y': Sys, s: Scope, p: TriplePattern)
    requires y.stores == y'.stores && y.items == y'.items
    ensures Matched(y, s, p) == Matched(y', s, p) && FoundIds(y, s, p) == FoundIds(y', s, p)
  {
  }

  /** One read transaction per scope, in order. */
  function ScanScopes(y: Sys, scopes: seq<Scope>, p: TriplePattern): (r: Scanned)
    ensures r.sys.items == y.items && Indexed(y.items, r.hits)
    decreases |scopes|
  {
    if scopes == [] then Scanned(y, true, [], 0) else
    var d := Attempt(y);
    if !d.ok then Scanned(d.sys, false, [], 0) else
    var rest := ScanScopes(d.sys, scopes[1..], p);
    if !rest.ok then rest else
    var ids := SortedIds(FoundIds(y, scopes[0], p));
    FoundIndexed(y, scopes[0], p);
    Scanned(rest.sys, true, HitList(ids, scopes[0]) + rest.hits, |Matched(y, scopes[0], p)| + rest.matched)
  }

  function TouchAll(cfg: Settings, items: map<ItemId, Entry>, hits: seq<Hit>, now: nat): (r: map<ItemId, Entry>)
    requires Indexed(items, hits)
    ensures r.Keys == items.Keys
  {
    if hits == [] then items
    else TouchAll(cfg, items[hits[0].id := Touch(cfg, items[hits[0].id], now)], hits[1..], now)
  }

  function Results(items: map<ItemId, Entry>, hits: seq<Hit>): seq<Ranked>
    requires Indexed(items, hits)
  {
    seq(|hits|, k requires 0 <= k < |hits| => Ranked(hits[k].id, items[hits[k].id].item, hits[k].scope))
  }

  function Cut(hits: seq<Hit>, limit: Option<nat>): seq<Hit> {
    if limit.Some? then hits[..AtMost(limit.value, |hits|)] else hits
  }

  /** The index after the hits have been touched at the current clock. */
  function Served(cfg: Settings, y: Sys, hits: seq<Hit>): (y': Sys)
    requires Indexed(y.items, hits)
    ensures y'.items.Keys == y.items.Keys
  {
    y.(items := TouchAll(cfg, y.items, hits, y.env.clock), stats := y.stats.(queries := y.stats.queries + 1))
  }

  function DoQuery(cfg: Settings, y: Sys, sel: Selection, p: TriplePattern, limit: Option<nat>): Reply {
    var r := ScanScopes(y, Consulted(sel), p);
    if !r.ok then Reply(r.sys, Err(Storage)) else
    var y1 := ReadClock(r.sys);
    var hits := Cut(r.hits, limit);
    assert Indexed(y1.items, hits);
    var y2 := Served(cfg, y1, hits);
    var answer := Answer(Results(y1.items, hits), |Consulted(sel)|, r.matched, 0);
    if !cfg.promotion.afterEachQuery then Reply(y2, Ok(Found(answer))) else
    var promoted := |DueEnduring(cfg, y2.items)| + |DueMajor(cfg, y2.items, y1.env.clock)|;
    Settle(AutoPromote(cfg, y2, y1.env.clock), Found(answer.(autoPromoted := promoted)))
  }

  function Apply(cfg: Settings, y: Sys, op: Op): Reply {
    match op
    case AddBatch(s, batch) => DoAddBatch(cfg, y, s, batch)
    case Remove(s, id) => DoRemove(y, s, id)
    case Query(sel, p, limit) => DoQuery(cfg, y, sel, p, limit)
    case Promote(ids, from, to) => DoPromote(cfg, y, ids, from, to)
    case Evict(s, c) => DoEvict(cfg, y, s, c)
  }
}
