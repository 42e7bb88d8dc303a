/** One entry of the session's index: where an item is, how it got there, and the incremental access
    summaries that eviction and auto-promotion read.  `touches` and `visits` are history variables:
    the full record that the summaries stand for.  No decision reads them. */
module Entries {
  import opened Items

  datatype Arrival = Added | Promoted | Demoted

  datatype Entry = Entry(
    item: Item,
    scope: Scope,
    arrival: Arrival,
    accesses: nat,      // query accesses
    lastTouch: nat,     // last add or query access
    recent: seq<nat>,   // recent query accesses, pruned to the promotion window
    weight: real,       // decayed touch weight as of `weightAt`
    weightAt: nat,
    touches: seq<nat>,  // history: the add and every query access
    visits: seq<nat>    // history: every query access since the add or the last demotion
  )

  function Fresh(item: Item, scope: Scope, now: nat): Entry {
    Entry(item, scope, Added, 0, now, [], 1.0, now, [now], [])
  }

  function Since(now: nat, t: nat): nat {
    if now >= t then now - t else 0
  }

  function Pow(r: real, n: nat): real {
    if n == 0 then 1.0 else r * Pow(r, n - 1)
  }

  function WeightAt(e: Entry, decay: real, now: nat): real {
    e.weight * Pow(decay, Since(now, e.weightAt))
  }

  /** Drop accesses that have left the window from the front of the queue. */
  function Prune(recent: seq<nat>, now: nat, window: nat): seq<nat> {
    if recent != [] && Since(now, recent[0]) > window then Prune(recent[1..], now, window) else recent
  }

  /** One query access. */
  function Touch(cfg: Settings, e: Entry, now: nat): Entry {
    var e1 := e.(accesses := e.accesses + 1, lastTouch := now,
                 recent := Prune(e.recent + [now], now, cfg.promotion.minorWindow),
                 touches := e.touches + [now], visits := e.visits + [now]);
    match cfg.policy
    case RecencyWeighted(decay) => e1.(weight := WeightAt(e, decay, now) + 1.0, weightAt := now)
    case _ => e1
  }

  /** The item arrives in another scope; a demotion forgets the access window. */
  function Relocate(e: Entry, to: Scope, arrival: Arrival): Entry {
    var e1 := e.(scope := to, arrival := arrival);
    if arrival.Demoted? then e1.(recent := [], visits := []) else e1
  }

  /** Accesses at most `window` old at time `now`. */
  function InWindow(ts: seq<nat>, now: nat, window: nat): nat {
    if ts == [] then 0
    else InWindow(ts[..|ts| - 1], now, window) + (if Since(now, ts[|ts| - 1]) <= window then 1 else 0)
  }

  /** The decayed weight computed from the whole history: each touch is worth `decay^age`. */
  function DecaySum(decay: real, touches: seq<nat>, now: nat): real {
    if touches == [] then 0.0
    else DecaySum(decay, touches[..|touches| - 1], now) + Pow(decay, Since(now, touches[|touches| - 1]))
  }

  predicate NonDecreasing(ts: seq<nat>) {
    forall i, j :: 0 <= i < j < |ts| ==> ts[i] <= ts[j]
  }

  /** `recent` is `visits` without a prefix of accesses that are out of the window for good. */
  predicate Pruned(visits: seq<nat>, recent: seq<nat>, clock: nat, window: nat) {
    && |recent| <= |visits|
    && recent == visits[|visits| - |recent|..]
    && forall j :: 0 <= j < |visits| - |recent| ==> Since(clock, visits[j]) > window
  }

  /** The summaries of an entry stand for its history. */
  ghost predicate Faithful(cfg: Settings, e: Entry, clock: nat) {
    && e.touches != []
    && NonDecreasing(e.touches) && e.touches[|e.touches| - 1] <= clock
    && |e.visits| < |e.touches| && e.visits == e.touches[|e.touches| - |e.visits|..]
    && e.accesses == |e.touches| - 1
    && e.lastTouch == e.touches[|e.touches| - 1]
    && Pruned(e.visits, e.recent, clock, cfg.promotion.minorWindow)
    && (cfg.policy.RecencyWeighted? ==>
          && e.weightAt == e.lastTouch
          && e.weight == DecaySum(cfg.policy.decay, e.touches, e.weightAt))
  }

  lemma FreshFaithful(cfg: Settings, item: Item, scope: Scope, now: nat)
    ensures Faithful(cfg, Fresh(item, scope, now), now)
  {
    assert [now][..0] == [];
    if cfg.policy.RecencyWeighted? {
      assert DecaySum(cfg.policy.decay, [], now) == 0.0;
    }
  }

  lemma FaithfulLater(cfg: Settings, e: Entry, clock: nat, later: nat)
    requires Faithful(cfg, e, clock) && clock <= later
    ensures Faithful(cfg, e, later)
  {
    assert forall i :: 0 <= i < |e.visits| ==> e.visits[i] == e.touches[|e.touches| - |e.visits| + i];
  }

  lemma {:induction false} PruneSuffix(recent: seq<nat>, now: nat, window: nat)
    ensures var p := Prune(recent, now, window);
            && |p| <= |recent| && p == recent[|recent| - |p|..]
            && (forall j :: 0 <= j < |recent| - |p| ==> Since(now, recent[j]) > window)
            && (p != [] ==> Since(now, p[0]) <= window)
  {
    if recent != [] && Since(now, recent[0]) > window {
      PruneSuffix(recent[1..], now, window);
    }
  }

  lemma {:induction false} PowAdd(r: real, a: nat, b: nat)
    ensures Pow(r, a + b) == Pow(r, a) * Pow(r, b)
  {
    if a > 0 {
      PowAdd(r, a - 1, b);
      assert a + b - 1 == a - 1 + b;
    }
  }

  lemma {:induction false} PowPositive(r: real, n: nat)
    requires 0.0 < r
    ensures Pow(r, n) > 0.0
  {
    if n > 0 { PowPositive(r, n - 1); }
  }

  /** Letting time pass scales the whole sum. */
  lemma {:induction false} DecaySumLater(decay: real, touches: seq<nat>, now: nat, later: nat)
    requires forall i :: 0 <= i < |touches| ==> touches[i] <= now
    requires now <= later
    ensures DecaySum(decay, touches, later) == DecaySum(decay, touches, now) * Pow(decay, later - now)
  {
    hide Pow;
    if touches != [] {
      var front, t := touches[..|touches| - 1], touches[|touches| - 1];
      DecaySumLater(decay, front, now, later);
      PowAdd(decay, now - t, later - now);
      var x, y, p := DecaySum(decay, front, now), Pow(decay, now - t), Pow(decay, later - now);
      assert (x + y) * p == x * p + y * p;
    }
  }

  /** The incremental weight equals the history sum at every later time. */
  lemma WeightIsHistorySum(cfg: Settings, e: Entry, clock: nat, now: nat)
    requires cfg.policy.RecencyWeighted? && Faithful(cfg, e, clock) && e.weightAt <= now
    ensures WeightAt(e, cfg.policy.decay, now) == DecaySum(cfg.policy.decay, e.touches, now)
  {
    DecaySumLater(cfg.policy.decay, e.touches, e.weightAt, now);
  }

  /** The ranking of two untouched items by weight does not change as time passes. */
  lemma RankingIsStable(a: Entry, b: Entry, decay: real, now: nat, later: nat)
    requires 0.0 < decay && a.weightAt <= now && b.weightAt <= now && now <= later
    ensures WeightAt(a, decay, now) < WeightAt(b, decay, now)
            <==> WeightAt(a, decay, later) < WeightAt(b, decay, later)
    ensures WeightAt(a, decay, now) == WeightAt(b, decay, now)
            <==> WeightAt(a, decay, later) == WeightAt(b, decay, later)
  {
    hide WeightAt, Pow;
    var p := Pow(decay, later - now);
    PowPositive(decay, later - now);
    WeightScales(a, decay, now, later);
    WeightScales(b, decay, now, later);
    ScalingKeepsOrder(WeightAt(a, decay, now), WeightAt(b, decay, now), p,
                      WeightAt(a, decay, later), WeightAt(b, decay, later));
  }

  lemma ScalingKeepsOrder(x: real, y: real, p: real, xp: real, yp: real)
    requires p > 0.0 && xp == x * p && yp == y * p
    ensures x < y <==> xp < yp
    ensures x == y <==> xp == yp
  {
    assert (y - x) * p == y * p - x * p;
    assert y - x > 0.0 ==> (y - x) * p > 0.0;
    assert y - x < 0.0 ==> (y - x) * p < 0.0;
  }

  lemma WeightScales(e: Entry, decay: real, now: nat, later: nat)
    requires e.weightAt <= now <= later
    ensures WeightAt(e, decay, later) == WeightAt(e, decay, now) * Pow(decay, later - now)
  {
    PowAdd(decay, now - e.weightAt, later - now);
    var w, x, y := e.weight, Pow(decay, now - e.weightAt), Pow(decay, later - now);
    assert w * (x * y) == (w * x) * y;
  }

  /** Every tick takes the same share of a weight, and a touch is worth one when it is made. */
  lemma WeightDecays(e: Entry, decay: real, now: nat)
    requires e.weightAt <= now
    ensures WeightAt(e, decay, now + 1) == decay * WeightAt(e, decay, now)
    ensures WeightAt(e, decay, e.weightAt) == e.weight
    ensures DecaySum(decay, [now], now) == 1.0 && DecaySum(decay, [now], now + 1) == decay
  {
    assert Pow(decay, 1) == decay;
    assert [now][..0] == [];
    assert DecaySum(decay, [], now) == 0.0 && DecaySum(decay, [], now + 1) == 0.0;
    var w, x := e.weight, Pow(decay, now - e.weightAt);
    assert w * (decay * x) == decay * (w * x);
  }

  /** When `h` ticks are a half-life, an untouched weight halves every `h` ticks. */
  lemma WeightHalves(e: Entry, decay: real, now: nat, h: nat)
    requires e.weightAt <= now && Pow(decay, h) == 0.5
    ensures WeightAt(e, decay, now + h) == WeightAt(e, decay, now) / 2.0
  {
    hide WeightAt, Pow;
    WeightScales(e, decay, now, now + h);
  }

  lemma TouchKeepsWeight(cfg: Settings, e: Entry, clock: nat, now: nat)
    requires cfg.policy.RecencyWeighted? && Faithful(cfg, e, clock) && clock <= now
    ensures var e' := Touch(cfg, e, now);
            e'.weightAt == now && e'.weight == DecaySum(cfg.policy.decay, e'.touches, now)
  {
    WeightIsHistorySum(cfg, e, clock, now);
    assert (e.touches + [now])[..|e.touches|] == e.touches;
  }

  lemma TouchKeepsWindow(cfg: Settings, e: Entry, clock: nat, now: nat)
    requires Faithful(cfg, e, clock) && clock <= now
    ensures var e' := Touch(cfg, e, now);
            Pruned(e'.visits, e'.recent, now, cfg.promotion.minorWindow)
  {
    hide DecaySum, WeightAt, Pow, Prune, Pruned, NonDecreasing;
    FaithfulLater(cfg, e, clock, now);
    PrunedMore(e.visits, e.recent, now, cfg.promotion.minorWindow);
  }

  lemma PrunedMore(visits: seq<nat>, recent: seq<nat>, now: nat, window: nat)
    requires Pruned(visits, recent, now, window)
    ensures Pruned(visits + [now], Prune(recent + [now], now, window), now, window)
  {
    hide Prune;
    var v, r := visits + [now], recent + [now];
    PruneSuffix(r, now, window);
    assert r == v[|v| - |r|..];
  }

  /** A query access keeps the summaries faithful. */
  lemma TouchFaithful(cfg: Settings, e: Entry, clock: nat, now: nat)
    requires Faithful(cfg, e, clock) && clock <= now
    ensures Faithful(cfg, Touch(cfg, e, now), now)
  {
    hide DecaySum, WeightAt, Pow, Prune, Pruned, NonDecreasing;
    var e' := Touch(cfg, e, now);
    TouchKeepsWindow(cfg, e, clock, now);
    if cfg.policy.RecencyWeighted? { TouchKeepsWeight(cfg, e, clock, now); }
    assert e'.touches == e.touches + [now] && e'.visits == e.visits + [now];
    assert e'.lastTouch == now && e'.accesses == e.accesses + 1;
    AppendKeepsHistory(e.touches, e.visits, now);
  }

  lemma AppendKeepsHistory(touches: seq<nat>, visits: seq<nat>, now: nat)
    requires touches != [] && NonDecreasing(touches) && touches[|touches| - 1] <= now
    requires |visits| < |touches| && visits == touches[|touches| - |visits|..]
    ensures NonDecreasing(touches + [now])
    ensures visits + [now] == (touches + [now])[|touches| - |visits|..]
  {
  }

  lemma {:induction false} InWindowAppend(a: seq<nat>, b: seq<nat>, now: nat, window: nat)
    ensures InWindow(a + b, now, window) == InWindow(a, now, window) + InWindow(b, now, window)
  {
    if b == [] {
      assert a + b == a;
    } else {
      var front := b[..|b| - 1];
      assert (a + b)[..|a + b| - 1] == a + front;
      InWindowAppend(a, front, now, window);
    }
  }

  /** The count is the number of accesses that are at most `window` old, the oldest such age included. */
  lemma {:induction false} WindowCount(ts: seq<nat>, now: nat, window: nat)
    ensures InWindow(ts, now, window) == |set k | 0 <= k < |ts| && now <= ts[k] + window|
  {
    var ks := set k | 0 <= k < |ts| && now <= ts[k] + window;
    if ts == [] {
      assert ks == {};
    } else {
      var front, last := ts[..|ts| - 1], |ts| - 1;
      WindowCount(front, now, window);
      var rest := set k | 0 <= k < |front| && now <= front[k] + window;
      assert ks == rest + if now <= ts[last] + window then {last} else {};
    }
  }

  lemma {:induction false} OutOfWindow(ts: seq<nat>, now: nat, window: nat)
    requires forall i :: 0 <= i < |ts| ==> Since(now, ts[i]) > window
    ensures InWindow(ts, now, window) == 0
  {
    if ts != [] { OutOfWindow(ts[..|ts| - 1], now, window); }
  }

  lemma SuffixSorted(ts: seq<nat>, suffix: seq<nat>)
    requires NonDecreasing(ts) && |suffix| <= |ts| && suffix == ts[|ts| - |suffix|..]
    ensures NonDecreasing(suffix)
  {
  }

  /** The pruned queue loses nothing: at every later time it counts the same accesses in the window as
      the full list of accesses since the item was added or last demoted; and it is sorted. */
  lemma PrunedQueueIsExact(cfg: Settings, e: Entry, clock: nat, now: nat)
    requires Faithful(cfg, e, clock) && clock <= now
    ensures InWindow(e.recent, now, cfg.promotion.minorWindow) == InWindow(e.visits, now, cfg.promotion.minorWindow)
    ensures NonDecreasing(e.recent)
  {
    hide DecaySum, WeightAt, Pow, Prune, InWindow, NonDecreasing;
    FaithfulLater(cfg, e, clock, now);
    var k, w := |e.visits| - |e.recent|, cfg.promotion.minorWindow;
    assert e.visits == e.visits[..k] + e.recent;
    OutOfWindow(e.visits[..k], now, w);
    InWindowAppend(e.visits[..k], e.recent, now, w);
    SuffixSorted(e.touches, e.visits);
    SuffixSorted(e.visits, e.recent);
  }
}
