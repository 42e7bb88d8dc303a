/** Whole runs: any sequence of operations, storage failures, crashes and reopenings.  A crash is an
    operation cut by a failing storage step followed by a restart, which forgets the index. */
module Runs {
  import opened Rdf
  import opened Items
  import opened Entries
  import Layout
  import opened Machine
  import opened Agreement
  import Steps
  import Flow
  import opened Laws
  import Policies
  import opened Recovery
  import Crashes

  /** A restart opens a session over the stores that were kept and new, empty ones for the others;
      `found` is what loading them returned. */
  datatype Event = Call(op: Op) | Restart(keep: Tiers<bool>, found: Tiers<map<ItemId, Item>>)

  function KeepOnly<T>(t: Tiers<set<T>>, keep: Tiers<bool>): (r: Tiers<set<T>>)
    ensures forall s: Scope :: r.Get(s) == if keep.Get(s) then t.Get(s) else {}
  {
    Tiers(if keep.enduring then t.enduring else {}, if keep.major then t.major else {},
          if keep.minor then t.minor else {})
  }

  ghost predicate StepTo(cfg: Settings, y: Sys, ev: Event, y': Sys) {
    match ev
    case Call(op) => y' == Apply(cfg, y, op).sys
    case Restart(keep, found) => Opens(KeepOnly(y.stores, keep), found, y')
  }

  ghost predicate IsRun(cfg: Settings, ys: seq<Sys>, evs: seq<Event>) {
    && |ys| == |evs| + 1
    && forall k :: 0 <= k < |evs| ==> StepTo(cfg, ys[k], evs[k], ys[k + 1])
  }

  /** The operation reported a storage failure. */
  predicate Failed(cfg: Settings, y: Sys, ev: Event) {
    ev.Call? && Apply(cfg, y, ev.op).result == Err(Storage)
  }

  function Failures(cfg: Settings, ys: seq<Sys>, evs: seq<Event>, k: nat): nat
    requires k <= |evs| <= |ys|
  {
    if k == 0 then 0
    else Failures(cfg, ys, evs, k - 1) + if Failed(cfg, ys[k - 1], evs[k - 1]) then 1 else 0
  }

  /** A session opened over three empty stores. */
  ghost predicate IsStart(y: Sys) {
    && y.stores == Tiers({}, {}, {}) && y.items == map[] && y.nextId == 0 && y.stats == NO_STATS
  }

  lemma StartSound(y: Sys)
    requires IsStart(y)
    ensures Sound(y, map[], Tiers({}, {}, {})) && Stale(y.items, Tiers({}, {}, {})) == {}
  {
    EmptyImage(map[]);
  }

  // ---- restarts -------------------------------------------------------------------------------

  lemma KeptLaid(stores: Tiers<set<Quad>>, L: Ledger, H: Holds, keep: Tiers<bool>)
    requires Laid(stores, L, H)
    ensures Laid(KeepOnly(stores, keep), L, KeepOnly(H, keep))
  {
    EmptyImage(L);
  }

  ghost function CopiesAt(ids: set<ItemId>, f: map<ItemId, Scope>): set<Copy>
    requires ids <= f.Keys
  {
    set i | i in ids :: Copy(f[i], i)
  }

  lemma {:induction false} CopiesCount(ids: set<ItemId>, f: map<ItemId, Scope>)
    requires ids <= f.Keys
    ensures |CopiesAt(ids, f)| == |ids|
  {
    if ids != {} {
      var i :| i in ids;
      CopiesCount(ids - {i}, f);
      assert CopiesAt(ids, f) == CopiesAt(ids - {i}, f) + {Copy(f[i], i)};
    }
  }

  /** Reopening never adds stale copies: a copy that becomes stale because a more durable one wins takes
      the place of that more durable one. */
  lemma RestartStale(items: map<ItemId, Entry>, L: Ledger, H: Holds, items': map<ItemId, Entry>, H': Holds)
    requires Homed(items, L, H) && forall s: Scope :: H'.Get(s) <= H.Get(s)
    requires items'.Keys == Held(H') && forall i :: i in items' ==> items'[i].scope == Home(H', i)
    ensures |Stale(items', H')| <= |Stale(items, H)|
  {
    hide Stale, Homed, Held, Home;
    var before, after := Stale(items, H), Stale(items', H');
    forall c | c in after - before
      ensures c.id in items && items[c.id].scope == c.scope && c.id in items'
      ensures Copy(items'[c.id].scope, c.id) in before - after
    {
      NewlyStale(items, H, items', H', c);
    }
    ReplacedSize(items, items', after - before, before - after);
    SplitSizes(before, after);
  }

  /** The copies at the old homes of some items are no more than the copies at their new homes. */
  lemma ReplacedSize(items: map<ItemId, Entry>, items': map<ItemId, Entry>, gained: set<Copy>, lost: set<Copy>)
    requires forall c :: c in gained ==>
               && c.id in items && items[c.id].scope == c.scope && c.id in items'
               && Copy(items'[c.id].scope, c.id) in lost
    ensures |gained| <= |lost|
  {
    var ids := set c | c in gained :: c.id;
    var was := map i | i in items :: items[i].scope;
    var now := map i | i in items' :: items'[i].scope;
    CopiesCount(ids, was);
    CopiesCount(ids, now);
    var a, b := CopiesAt(ids, was), CopiesAt(ids, now);
    forall c | c in gained
      ensures c in a
    {
      assert c.id in ids && c == Copy(was[c.id], c.id);
    }
    SubsetSize(gained, a);
    SubsetSize(b, lost);
  }

  lemma NewlyStale(items: map<ItemId, Entry>, H: Holds, items': map<ItemId, Entry>, H': Holds, c: Copy)
    requires forall s: Scope :: H'.Get(s) <= H.Get(s)
    requires items'.Keys == Held(H') && forall i :: i in items' ==> items'[i].scope == Home(H', i)
    requires c in Stale(items', H') - Stale(items, H)
    ensures c.id in items && items[c.id].scope == c.scope && c.id in items'
    ensures Copy(items'[c.id].scope, c.id) in Stale(items, H) - Stale(items', H')
  {
    assert c.id in H'.Get(c.scope);
    assert c.id in Held(H');
    HomeIsWarmest(H', c.id, c.scope);
  }

  lemma SplitSizes(a: set<Copy>, b: set<Copy>)
    ensures |b| - |b - a| == |a| - |a - b|
  {
    assert b == (b - a) + a * b;
    assert a == (a - b) + a * b;
  }

  lemma RestartSound(y: Sys, L: Ledger, H: Holds, keep: Tiers<bool>, found: Tiers<map<ItemId, Item>>, y': Sys)
    requires Sound(y, L, H) && Opens(KeepOnly(y.stores, keep), found, y')
    ensures var H' := KeepOnly(H, keep);
            Sound(y', Restrict(L, Held(H')), H') && |Stale(y'.items, H')| <= |Stale(y.items, H)|
  {
    hide Laid, Opens, LedgerOk, Stale;
    var H', stores := KeepOnly(H, keep), KeepOnly(y.stores, keep);
    KeptLaid(y.stores, L, H, keep);
    OpenSound(stores, L, H', y.nextId, found, y');
    OpenFinds(stores, L, H', y.nextId, found, y');
    FreshFacts(y'.items, L, H', y'.env.clock);
    RestartStale(y.items, L, H, y'.items, H');
  }

  // ---- soundness of every run -----------------------------------------------------------------

  lemma CallStale(y: Sys, H: Holds, d: Done, H': Holds, L: Ledger, dest: Promotions)
    requires Kept(y, H, d, H', L, dest)
    ensures |Stale(d.sys.items, H')| <= |Stale(y.items, H)| + if d.ok then 0 else 1
  {
    var a, b := Stale(y.items, H), Stale(d.sys.items, H');
    SplitSizes(a, b);
  }

  lemma StepSound(cfg: Settings, y: Sys, L: Ledger, H: Holds, ev: Event, y': Sys) returns (L': Ledger, H': Holds)
    requires Sound(y, L, H) && StepTo(cfg, y, ev, y')
    ensures Sound(y', L', H')
    ensures |Stale(y'.items, H')| <= |Stale(y.items, H)| + if Failed(cfg, y, ev) then 1 else 0
  {
    hide Laid, Homed, LedgerOk, Stale, Apply, Opens;
    match ev
    case Call(op) =>
      L', H' := Steps.ApplyKept(cfg, y, L, H, op);
      CallStale(y, H, Steps.Unfailed(Apply(cfg, y, op)), H', L', Steps.PromotionsOf(cfg, y, op));
    case Restart(keep, found) =>
      H' := KeepOnly(H, keep);
      L' := Restrict(L, Held(H'));
      RestartSound(y, L, H, keep, found, y');
  }

  /** Every state of every run is sound, and its stale copies are at most the storage failures so far. */
  lemma {:induction false} RunSound(cfg: Settings, ys: seq<Sys>, evs: seq<Event>, k: nat) returns (L: Ledger, H: Holds)
    requires IsRun(cfg, ys, evs) && k <= |evs| && IsStart(ys[0])
    ensures Sound(ys[k], L, H) && |Stale(ys[k].items, H)| <= Failures(cfg, ys, evs, k)
    decreases k
  {
    hide Laid, Homed, LedgerOk, Stale, StepTo;
    if k == 0 {
      L, H := map[], Tiers({}, {}, {});
      StartSound(ys[0]);
    } else {
      L, H := RunSound(cfg, ys, evs, k - 1);
      assert StepTo(cfg, ys[k - 1], evs[k - 1], ys[k]);
      L, H := StepSound(cfg, ys[k - 1], L, H, evs[k - 1], ys[k]);
    }
  }

  /** Each store is exactly the union of the quads of its live items. */
  ghost predicate Agrees(y: Sys) {
    forall s: Scope, q :: q in y.stores.Get(s)
      <==> exists i :: i in y.items && y.items[i].scope == s && q in Layout.Encode(i, y.items[i].item)
  }

  lemma NoStaleAgrees(y: Sys, L: Ledger, H: Holds)
    requires Sound(y, L, H) && Stale(y.items, H) == {}
    ensures Agrees(y)
  {
    NoStaleHolds(y.items, L, H);
    forall s: Scope, q
      ensures q in y.stores.Get(s)
              <==> exists i :: i in y.items && y.items[i].scope == s && q in Layout.Encode(i, y.items[i].item)
    {
      AgreesAt(y, L, H, s, q);
    }
  }

  lemma AgreesAt(y: Sys, L: Ledger, H: Holds, s: Scope, q: Quad)
    requires Sound(y, L, H) && H.Get(s) == InScope(y.items, s)
    ensures q in y.stores.Get(s)
            <==> exists i :: i in y.items && y.items[i].scope == s && q in Layout.Encode(i, y.items[i].item)
  {
    hide Layout.Encode;
    assert y.stores.Get(s) == Image(L, H.Get(s));
    if q in Image(L, H.Get(s)) {
      var i :| i in H.Get(s) && q in Layout.Encode(i, L[i]);
      assert i in InScope(y.items, s) && L[i] == y.items[i].item;
    }
    if i :| i in y.items && y.items[i].scope == s && q in Layout.Encode(i, y.items[i].item) {
      assert i in H.Get(s) && L[i] == y.items[i].item;
    }
  }

  /** In a run without storage failures index and stores agree in every state, restarts included. */
  lemma CleanRunAgrees(cfg: Settings, ys: seq<Sys>, evs: seq<Event>, k: nat)
    requires IsRun(cfg, ys, evs) && k <= |evs| && IsStart(ys[0]) && Failures(cfg, ys, evs, k) == 0
    ensures Agrees(ys[k])
  {
    hide StepTo, IsStart, Laid, Homed, LedgerOk, Stale;
    var L, H := RunSound(cfg, ys, evs, k);
    NoStaleAgrees(ys[k], L, H);
  }

  /** Citations point backwards and ids are never captured: in every state of every run, whatever failed
      or crashed, a live item's id is below `nextId` and it cites only ids below its own.  So the next id
      to be issued, even one reissued after a restart, is cited by no live item. */
  lemma CitationsPointBack(cfg: Settings, ys: seq<Sys>, evs: seq<Event>, k: nat, i: ItemId)
    requires IsRun(cfg, ys, evs) && k <= |evs| && IsStart(ys[0]) && i in ys[k].items
    ensures i < ys[k].nextId
    ensures forall c :: c in ys[k].items[i].item.provenance.derivedFrom ==> c < i
    ensures forall next :: next >= ys[k].nextId ==> next !in ys[k].items[i].item.provenance.derivedFrom
  {
    hide StepTo, IsStart, Laid, Stale;
    var L, H := RunSound(cfg, ys, evs, k);
    assert L[i] == ys[k].items[i].item;
  }

  lemma StartHealthy(cfg: Settings, y: Sys)
    requires IsStart(y)
    ensures Healthy(cfg, y)
  {
  }

  lemma StepHealthy(cfg: Settings, y: Sys, ev: Event, y': Sys)
    requires Healthy(cfg, y) && StepTo(cfg, y, ev, y')
    ensures Healthy(cfg, y')
  {
    hide Healthy, Apply, Opens;
    match ev
    case Call(op) => ApplyHealthy(cfg, y, op);
    case Restart(keep, found) => OpenHealthy(cfg, KeepOnly(y.stores, keep), found, y');
  }

  /** In every state of every run each summary stands for its full history. */
  lemma {:induction false} RunHealthy(cfg: Settings, ys: seq<Sys>, evs: seq<Event>, k: nat)
    requires IsRun(cfg, ys, evs) && k <= |evs| && IsStart(ys[0])
    ensures Healthy(cfg, ys[k])
    decreases k
  {
    hide Healthy, StepTo;
    if k == 0 {
      StartHealthy(cfg, ys[0]);
    } else {
      RunHealthy(cfg, ys, evs, k - 1);
      assert StepTo(cfg, ys[k - 1], evs[k - 1], ys[k]);
      StepHealthy(cfg, ys[k - 1], evs[k - 1], ys[k]);
    }
  }

  // ---- one session ----------------------------------------------------------------------------

  function Perform(cfg: Settings, y: Sys, ops: seq<Op>): Sys {
    if ops == [] then y
    else Apply(cfg, Perform(cfg, y, ops[..|ops| - 1]), ops[|ops| - 1]).sys
  }

  /** The last reply of a run. */
  function LastReply(cfg: Settings, y: Sys, ops: seq<Op>): Reply
    requires ops != []
  {
    Apply(cfg, Perform(cfg, y, ops[..|ops| - 1]), ops[|ops| - 1])
  }

  function Removals(cfg: Settings, y: Sys, ops: seq<Op>): nat {
    if ops == [] then 0
    else Removals(cfg, y, ops[..|ops| - 1]) + RemovedBy(ops[|ops| - 1], LastReply(cfg, y, ops).result)
  }

  function Asked(cfg: Settings, y: Sys, ops: seq<Op>): nat {
    if ops == [] then 0
    else Asked(cfg, y, ops[..|ops| - 1]) + Policies.AskedDemotions(ops[|ops| - 1], LastReply(cfg, y, ops).result)
  }

  predicate NoFailure(cfg: Settings, y: Sys, ops: seq<Op>) {
    ops == [] || (LastReply(cfg, y, ops).result != Err(Storage) && NoFailure(cfg, y, ops[..|ops| - 1]))
  }

  lemma {:induction false} PerformSound(cfg: Settings, y: Sys, L: Ledger, H: Holds, ops: seq<Op>)
    returns (L': Ledger, H': Holds)
    requires Sound(y, L, H)
    ensures Sound(Perform(cfg, y, ops), L', H')
  {
    hide Laid, Homed, LedgerOk, Stale, Apply;
    L', H' := L, H;
    if ops != [] {
      L', H' := PerformSound(cfg, y, L, H, ops[..|ops| - 1]);
      L', H' := Steps.ApplyKept(cfg, Perform(cfg, y, ops[..|ops| - 1]), L', H', ops[|ops| - 1]);
    }
  }

  /** Nothing is lost or counted twice, whatever fails: live items + evicted + removed = items at the start
      + added. */
  lemma {:induction false} RunConserves(cfg: Settings, y: Sys, L: Ledger, H: Holds, ops: seq<Op>)
    requires Sound(y, L, H)
    ensures Accounted(Perform(cfg, y, ops)) + Removals(cfg, y, ops) == Accounted(y)
  {
    hide Laid, Apply, Accounted, RemovedBy;
    if ops != [] {
      var front := ops[..|ops| - 1];
      RunConserves(cfg, y, L, H, front);
      var L', H' := PerformSound(cfg, y, L, H, front);
      ApplyConserves(cfg, Perform(cfg, y, front), ops[|ops| - 1]);
    }
  }

  /** One-step demotion cannot thrash: demotions made by policy plus live items whose last arrival was a
      promotion never exceed promotions. */
  lemma {:induction false} RunBurden(cfg: Settings, y: Sys, ops: seq<Op>)
    requires cfg.target.OneStepThenDrop? && NoFailure(cfg, y, ops)
    ensures Policies.NetBurden(Perform(cfg, y, ops)) <= Policies.NetBurden(y) + Asked(cfg, y, ops)
  {
    if ops != [] {
      hide Apply, Policies.NetBurden, Policies.AskedDemotions;
      var front := ops[..|ops| - 1];
      RunBurden(cfg, y, front);
      Policies.ApplyBurden(cfg, Perform(cfg, y, front), ops[|ops| - 1]);
    }
  }

  /** The same for a session as opening leaves it. */
  lemma NoThrashing(cfg: Settings, stores: Tiers<set<Quad>>, found: Tiers<map<ItemId, Item>>, y: Sys, ops: seq<Op>)
    requires cfg.target.OneStepThenDrop? && Opens(stores, found, y) && NoFailure(cfg, y, ops)
    ensures var z := Perform(cfg, y, ops);
            z.stats.demoted - Asked(cfg, y, ops) + |Flow.PromotedLive(z.items)| <= z.stats.promoted
  {
    hide Loads;
    assert Flow.PromotedLive(y.items) == {};
    RunBurden(cfg, y, ops);
  }

  /** A run that starts within its bounds is within them after every successful operation. */
  lemma {:induction false} RunFits(cfg: Settings, y: Sys, ops: seq<Op>)
    requires Policies.WithinBounds(cfg, y.items) && NoFailure(cfg, y, ops)
    ensures Policies.WithinBounds(cfg, Perform(cfg, y, ops).items)
  {
    if ops != [] {
      hide Apply, Policies.WithinBounds;
      RunFits(cfg, y, ops[..|ops| - 1]);
      Policies.ApplyFits(cfg, Perform(cfg, y, ops[..|ops| - 1]), ops[|ops| - 1]);
    }
  }

  /** At every point of every run the decayed weight is the sum over the add and every query access. */
  lemma RunWeights(cfg: Settings, ys: seq<Sys>, evs: seq<Event>, k: nat, i: ItemId, now: nat)
    requires IsRun(cfg, ys, evs) && k <= |evs| && IsStart(ys[0]) && i in ys[k].items
    requires cfg.policy.RecencyWeighted? && ys[k].env.clock <= now
    ensures var e := ys[k].items[i]; WeightAt(e, cfg.policy.decay, now) == DecaySum(cfg.policy.decay, e.touches, now)
  {
    hide StepTo, WeightAt, DecaySum;
    RunHealthy(cfg, ys, evs, k);
    WeightIsHistorySum(cfg, ys[k].items[i], ys[k].env.clock, now);
  }

  /** At every point of every run the pruned queue counts what the full list of accesses counts. */
  lemma RunWindows(cfg: Settings, ys: seq<Sys>, evs: seq<Event>, k: nat, i: ItemId, now: nat)
    requires IsRun(cfg, ys, evs) && k <= |evs| && IsStart(ys[0]) && i in ys[k].items && ys[k].env.clock <= now
    ensures var e, w := ys[k].items[i], cfg.promotion.minorWindow;
            InWindow(e.recent, now, w) == InWindow(e.visits, now, w) && NonDecreasing(e.recent)
  {
    hide StepTo;
    RunHealthy(cfg, ys, evs, k);
    PrunedQueueIsExact(cfg, ys[k].items[i], ys[k].env.clock, now);
  }

  /** Reopening after a run without storage failures rebuilds the same ids, scopes and content. */
  lemma CleanRunReopens(cfg: Settings, ys: seq<Sys>, evs: seq<Event>, k: nat, found: Tiers<map<ItemId, Item>>, z: Sys)
    requires IsRun(cfg, ys, evs) && k <= |evs| && IsStart(ys[0]) && Failures(cfg, ys, evs, k) == 0
    requires Opens(ys[k].stores, found, z)
    ensures z.items.Keys == ys[k].items.Keys && z.stats == NO_STATS
    ensures forall i :: i in z.items ==> z.items[i] == Fresh(ys[k].items[i].item, ys[k].items[i].scope, z.env.clock)
  {
    hide StepTo, IsStart, Laid, Homed, LedgerOk, Stale, Opens;
    var L, H := RunSound(cfg, ys, evs, k);
    ReopenRoundTrip(ys[k], L, H, found, z);
  }

  /** A crash anywhere in the next operation after a run without storage failures is recovered from. */
  lemma CleanRunCrashSafe(cfg: Settings, ys: seq<Sys>, evs: seq<Event>, k: nat, op: Op,
                          found: Tiers<map<ItemId, Item>>, z: Sys)
    requires IsRun(cfg, ys, evs) && k <= |evs| && IsStart(ys[0]) && Failures(cfg, ys, evs, k) == 0
    requires Opens(Apply(cfg, ys[k], op).sys.stores, found, z)
    ensures Recovers(ys[k], Apply(cfg, ys[k], op), z, Steps.PromotionsOf(cfg, ys[k], op))
  {
    hide StepTo, IsStart, Laid, Homed, LedgerOk, Stale, Opens, Apply, Recovers;
    var L, H := RunSound(cfg, ys, evs, k);
    CrashSafe(cfg, ys[k], L, H, op, found, z);
  }

  /** The same at every storage step of the next operation. */
  lemma CleanRunCrashPoints(cfg: Settings, ys: seq<Sys>, evs: seq<Event>, k: nat, op: Op, n: nat,
                            found: Tiers<map<ItemId, Item>>, z: Sys)
    requires IsRun(cfg, ys, evs) && k <= |evs| && IsStart(ys[0]) && Failures(cfg, ys, evs, k) == 0
    requires n <= Crashes.StepCount(cfg, ys[k], op) && Opens(Crashes.CrashedStores(cfg, ys[k], op, n), found, z)
    ensures Recovers(ys[k], Apply(cfg, Crashes.CutAfter(ys[k], n), op), z, Steps.PromotionsOf(cfg, ys[k], op))
  {
    hide StepTo, IsStart, Laid, Homed, LedgerOk, Stale, Opens, Apply, Recovers, Crashes.CrashedStores,
      Crashes.StepCount, Steps.PromotionsOf;
    var L, H := RunSound(cfg, ys, evs, k);
    Crashes.CrashSafeEverywhere(cfg, ys[k], L, H, n, op, found, z);
  }
}
