/** A cut is a crash: an operation whose script fails the step after the first `k` leaves the stores exactly
    as the uncut operation has them after its first `k` storage steps, or is the uncut operation when that
    has no more steps.  So crash safety holds at every storage step of every operation. */
module Crashes {
  import opened Rdf
  import opened Items
  import opened Entries
  import opened Order
  import Layout
  import opened Machine
  import opened Agreement
  import Answers
  import opened Steps
  import Flow
  import opened Recovery
  import Cuts

  /** `k` storage steps succeed and the next fails. */
  function Script(k: nat): seq<bool> {
    seq(k, _ => false) + [true]
  }

  function CutAfter(y: Sys, k: nat): Sys {
    y.(env := y.env.(faults := Script(k)))
  }

  /** The same session under a script in which nothing fails. */
  function Calm(y: Sys): Sys {
    y.(env := y.env.(faults := []))
  }

  /** How many storage steps lie between two states of one run. */
  function StepsTo(y: Sys, y': Sys): int {
    |y'.env.log| - |y.env.log|
  }

  /** The stores after the first `k` storage steps from `y` to `y'`. */
  function StoresAfter(y: Sys, y': Sys, k: nat): Tiers<set<Quad>> {
    if k == 0 || k > StepsTo(y, y') then y.stores else y'.env.log[|y.env.log| + k - 1]
  }

  /** `c` is the calm stretch from `y` and `d` the same stretch cut after `k` steps. */
  ghost predicate Tracks(y: Sys, k: nat, d: Done, c: Done) {
    var n := StepsTo(y, c.sys);
    && c.ok && c.sys.env.faults == [] && y.env.log <= c.sys.env.log && c.sys.stores == StoresAfter(y, c.sys, n)
    && (k < n ==> !d.ok && d.sys.env.faults == [] && d.sys.stores == StoresAfter(y, c.sys, k))
    && (k >= n ==> d == Done(CutAfter(c.sys, k - n), true))
  }

  lemma ScriptTail(k: nat)
    requires k > 0
    ensures !Script(k)[0] && Script(k)[1..] == Script(k - 1)
  {
  }

  lemma StepTracks(y: Sys, k: nat, after: Tiers<set<Quad>>)
    requires y.env.faults == []
    ensures Tracks(y, k, Step(CutAfter(y, k), after), Step(y, after))
  {
    if k > 0 { ScriptTail(k); }
  }

  /** What is left of a cut after the stretch to `y'`. */
  function Left(y: Sys, k: nat, y': Sys): nat {
    if k >= StepsTo(y, y') then k - StepsTo(y, y') else 0
  }

  lemma TracksChain(y: Sys, k: nat, d1: Done, c1: Done, d2: Done, c2: Done)
    requires Tracks(y, k, d1, c1) && Tracks(c1.sys, Left(y, k, c1.sys), d2, c2)
    ensures Tracks(y, k, if d1.ok then d2 else d1, c2)
  {
    hide CutAfter;
    assert StepsTo(y, c2.sys) == StepsTo(y, c1.sys) + StepsTo(c1.sys, c2.sys);
  }

  /** Bookkeeping after a stretch: neither stores nor log nor script change. */
  lemma TracksThen(y: Sys, k: nat, d: Done, c: Done, d': Done, c': Done)
    requires Tracks(y, k, d, c) && c'.ok && c'.sys.stores == c.sys.stores
    requires c'.sys.env.log == c.sys.env.log && c'.sys.env.faults == c.sys.env.faults
    requires d' == if d.ok then Done(CutAfter(c'.sys, Left(y, k, c.sys)), true) else d
    ensures Tracks(y, k, d', c')
  {
    hide CutAfter;
  }

  /** Bookkeeping before a stretch. */
  lemma TracksFrom(y: Sys, y': Sys, k: nat, d: Done, c: Done)
    requires Tracks(y', k, d, c) && y'.stores == y.stores && y'.env.log == y.env.log
    ensures Tracks(y, k, d, c)
  {
    hide CutAfter;
  }

  lemma TracksNow(y: Sys, k: nat)
    requires y.env.faults == []
    ensures Tracks(y, k, Done(CutAfter(y, k), true), Done(y, true))
  {
    hide CutAfter;
  }

  lemma TracksOk(y: Sys, k: nat, d: Done, c: Done)
    requires Tracks(y, k, d, c)
    ensures c.ok && c.sys.env.faults == [] && (d.ok ==> d.sys == CutAfter(c.sys, Left(y, k, c.sys)))
  {
    hide CutAfter;
  }

  // ---- moves and evictions --------------------------------------------------------------------

  lemma MoveTracks(y: Sys, k: nat, id: ItemId, to: Scope, arrival: Arrival)
    requires y.env.faults == [] && id in y.items
    ensures Tracks(y, k, MoveItem(CutAfter(y, k), id, to, arrival), MoveItem(y, id, to, arrival))
  {
    hide Tracks, Layout.Encode, Layout.DeleteItem, Relocate, Script, Step;
    var e, x := y.items[id], CutAfter(y, k);
    var a1 := y.stores.Put(to, y.stores.Get(to) + Layout.Encode(id, e.item));
    StepTracks(y, k, a1);
    var d1, c1, m := Step(x, a1), Step(y, a1), Left(y, k, Step(y, a1).sys);
    TracksOk(y, k, d1, c1);
    var a2 := c1.sys.stores.Put(e.scope, Layout.DeleteItem(c1.sys.stores.Get(e.scope), id));
    StepTracks(c1.sys, m, a2);
    var d2, c2 := Step(CutAfter(c1.sys, m), a2), Step(c1.sys, a2);
    TracksChain(y, k, d1, c1, d2, c2);
    TracksOk(c1.sys, m, d2, c2);
    TracksOk(y, k, if d1.ok then d2 else d1, c2);
    TracksThen(y, k, if d1.ok then d2 else d1, c2, MoveItem(x, id, to, arrival), MoveItem(y, id, to, arrival));
  }

  lemma {:induction false} MoveAllTracks(y: Sys, k: nat, ids: seq<ItemId>, to: Scope, arrival: Arrival)
    requires y.env.faults == [] && forall i :: i in ids ==> i in y.items
    ensures Tracks(y, k, MoveAll(CutAfter(y, k), ids, to, arrival), MoveAll(y, ids, to, arrival))
    decreases |ids|
  {
    hide Tracks, MoveItem, Script;
    if ids == [] {
      TracksNow(y, k);
    } else {
      MoveTracks(y, k, ids[0], to, arrival);
      var d, c := MoveItem(CutAfter(y, k), ids[0], to, arrival), MoveItem(y, ids[0], to, arrival);
      TracksOk(y, k, d, c);
      var m := Left(y, k, c.sys);
      MoveAllTracks(c.sys, m, ids[1..], to, arrival);
      TracksChain(y, k, d, c, MoveAll(CutAfter(c.sys, m), ids[1..], to, arrival),
                  MoveAll(c.sys, ids[1..], to, arrival));
    }
  }

  lemma DropTracks(y: Sys, k: nat, id: ItemId)
    requires y.env.faults == [] && id in y.items
    ensures Tracks(y, k, DropItem(CutAfter(y, k), id), DropItem(y, id))
  {
    hide Tracks, Layout.DeleteItem, Script, Step;
    var s, x := y.items[id].scope, CutAfter(y, k);
    var after := y.stores.Put(s, Layout.DeleteItem(y.stores.Get(s), id));
    StepTracks(y, k, after);
    TracksOk(y, k, Step(x, after), Step(y, after));
    TracksThen(y, k, Step(x, after), Step(y, after), DropItem(x, id), DropItem(y, id));
  }

  lemma {:induction false} DropAllTracks(y: Sys, k: nat, ids: seq<ItemId>)
    requires y.env.faults == [] && Distinct(ids) && forall i :: i in ids ==> i in y.items
    ensures Tracks(y, k, DropAll(CutAfter(y, k), ids), DropAll(y, ids))
    decreases |ids|
  {
    hide Tracks, DropItem, Script;
    if ids == [] {
      TracksNow(y, k);
    } else {
      DropTracks(y, k, ids[0]);
      var d, c := DropItem(CutAfter(y, k), ids[0]), DropItem(y, ids[0]);
      TracksOk(y, k, d, c);
      var m := Left(y, k, c.sys);
      DropAllTracks(c.sys, m, ids[1..]);
      TracksChain(y, k, d, c, DropAll(CutAfter(c.sys, m), ids[1..]), DropAll(c.sys, ids[1..]));
    }
  }

  lemma EvictOneTracks(cfg: Settings, y: Sys, k: nat, s: Scope, id: ItemId)
    requires y.env.faults == [] && id in y.items
    ensures Tracks(y, k, EvictOne(cfg, CutAfter(y, k), s, id), EvictOne(cfg, y, s, id))
  {
    hide Tracks, MoveItem, DropItem, Script;
    var x, target := CutAfter(y, k), TargetOf(cfg.target, s, y.items[id].arrival);
    if target.Some? {
      MoveTracks(y, k, id, target.value, Demoted);
      var d, c := MoveItem(x, id, target.value, Demoted), MoveItem(y, id, target.value, Demoted);
      TracksOk(y, k, d, c);
      TracksThen(y, k, d, c, EvictOne(cfg, x, s, id), EvictOne(cfg, y, s, id));
    } else {
      DropTracks(y, k, id);
    }
  }

  lemma {:induction false} EvictVictimsTracks(cfg: Settings, y: Sys, k: nat, s: Scope, ids: seq<ItemId>)
    requires y.env.faults == [] && Distinct(ids) && forall i :: i in ids ==> i in y.items
    ensures Tracks(y, k, EvictVictims(cfg, CutAfter(y, k), s, ids), EvictVictims(cfg, y, s, ids))
    decreases |ids|
  {
    hide Tracks, EvictOne, Script;
    if ids == [] {
      TracksNow(y, k);
    } else {
      EvictOneTracks(cfg, y, k, s, ids[0]);
      var d, c := EvictOne(cfg, CutAfter(y, k), s, ids[0]), EvictOne(cfg, y, s, ids[0]);
      TracksOk(y, k, d, c);
      var m := Left(y, k, c.sys);
      EvictVictimsTracks(cfg, c.sys, m, s, ids[1..]);
      TracksChain(y, k, d, c, EvictVictims(cfg, CutAfter(c.sys, m), s, ids[1..]),
                  EvictVictims(cfg, c.sys, s, ids[1..]));
    }
  }

  lemma EvictByPolicyTracks(cfg: Settings, y: Sys, k: nat, s: Scope, count: nat)
    requires y.env.faults == []
    ensures Tracks(y, k, EvictByPolicy(cfg, CutAfter(y, k), s, count), EvictByPolicy(cfg, y, s, count))
  {
    hide Tracks, EvictVictims, Victims, Script;
    var y1 := ReadClock(y);
    assert ReadClock(CutAfter(y, k)) == CutAfter(y1, k);
    var v := Victims(cfg, y1.items, s, count, y1.env.clock);
    assert forall i :: i in v ==> i in Elems(v);
    EvictVictimsTracks(cfg, y1, k, s, v);
    TracksFrom(y, y1, k, EvictVictims(cfg, CutAfter(y1, k), s, v), EvictVictims(cfg, y1, s, v));
  }

  lemma TrimTracks(cfg: Settings, y: Sys, k: nat, s: Scope)
    requires y.env.faults == []
    ensures Tracks(y, k, TrimTier(cfg, CutAfter(y, k), s), TrimTier(cfg, y, s))
  {
    hide Tracks, EvictByPolicy, Script, TrimTier, InScope;
    Flow.TrimCases(cfg, y, s);
    Flow.TrimCases(cfg, CutAfter(y, k), s);
    if Flow.WithinBound(cfg, y.items, s) {
      TracksNow(y, k);
    } else {
      EvictByPolicyTracks(cfg, y, k, s, |InScope(y.items, s)| - cfg.bounds.Get(s).value);
    }
  }

  lemma EnforceTracks(cfg: Settings, y: Sys, k: nat, s: Scope)
    requires y.env.faults == []
    ensures Tracks(y, k, EnforceBounds(cfg, CutAfter(y, k), s), EnforceBounds(cfg, y, s))
    decreases s.Rank()
  {
    hide Tracks, TrimTier, Script;
    TrimTracks(cfg, y, k, s);
    var d, c := TrimTier(cfg, CutAfter(y, k), s), TrimTier(cfg, y, s);
    TracksOk(y, k, d, c);
    if s.Colder().Some? {
      var m, u := Left(y, k, c.sys), s.Colder().value;
      EnforceTracks(cfg, c.sys, m, u);
      TracksChain(y, k, d, c, EnforceBounds(cfg, CutAfter(c.sys, m), u), EnforceBounds(cfg, c.sys, u));
    }
  }

  /** A stretch, its booking, and then the cascade. */
  lemma ThenEnforceTracks(cfg: Settings, y: Sys, k: nat, d: Done, c: Done, y1: Sys, s: Scope)
    requires Tracks(y, k, d, c) && y1.stores == c.sys.stores && y1.env.log == c.sys.env.log && y1.env.faults == []
    ensures var x1 := CutAfter(y1, Left(y, k, c.sys));
            Tracks(y, k, if d.ok then EnforceBounds(cfg, x1, s) else d, EnforceBounds(cfg, y1, s))
  {
    hide Tracks, EnforceBounds, Script;
    TracksOk(y, k, d, c);
    var m := Left(y, k, c.sys);
    EnforceTracks(cfg, y1, m, s);
    TracksFrom(c.sys, y1, m, EnforceBounds(cfg, CutAfter(y1, m), s), EnforceBounds(cfg, y1, s));
    TracksChain(y, k, d, c, EnforceBounds(cfg, CutAfter(y1, m), s), EnforceBounds(cfg, y1, s));
  }

  // ---- the operations -------------------------------------------------------------------------

  /** The same for a whole operation: cut short it reports the storage error, otherwise the same result. */
  ghost predicate Follows(y: Sys, k: nat, r: Reply, c: Reply) {
    && Tracks(y, k, Unfailed(r), Unfailed(c))
    && (k >= StepsTo(y, c.sys) ==> r.result == c.result)
  }

  lemma FollowsNow(y: Sys, k: nat, result: Result<Value>)
    requires y.env.faults == [] && result != Err(Storage)
    ensures Follows(y, k, Reply(CutAfter(y, k), result), Reply(y, result))
  {
    hide Tracks, CutAfter;
    TracksNow(y, k);
  }

  lemma SettleFollows(y: Sys, k: nat, d: Done, c: Done, v: Value)
    requires Tracks(y, k, d, c)
    ensures Follows(y, k, Settle(d, v), Settle(c, v))
  {
    hide CutAfter;
  }

  lemma AddFollows(cfg: Settings, y: Sys, k: nat, s: Scope, batch: seq<Item>)
    requires y.env.faults == []
    ensures Follows(y, k, DoAddBatch(cfg, CutAfter(y, k), s, batch), DoAddBatch(cfg, y, s, batch))
  {
    hide Tracks, Follows, EnforceBounds, EncodeAll, FreshEntries, Step, Script, FirstError;
    var x, error := CutAfter(y, k), FirstError(y.items, batch);
    if error.Some? {
      Cuts.RefusalsAreNotStorage(y.items, batch);
      FollowsNow(y, k, Err(error.value));
    } else {
      var after := y.stores.Put(s, y.stores.Get(s) + EncodeAll(y.nextId, batch));
      StepTracks(y, k, after);
      var d, c := Step(x, after), Step(y, after);
      TracksOk(y, k, d, c);
      StepFrame(y, after);
      var y1, ids := Register(c.sys, s, batch), Ids(NewIds(y.nextId, |batch|));
      ThenEnforceTracks(cfg, y, k, d, c, y1, s);
      var e := if d.ok then EnforceBounds(cfg, CutAfter(y1, Left(y, k, c.sys)), s) else d;
      SettleFollows(y, k, e, EnforceBounds(cfg, y1, s), ids);
    }
  }

  lemma StepFrame(y: Sys, after: Tiers<set<Quad>>)
    ensures var z := Step(y, after).sys;
            && z.items == y.items && z.nextId == y.nextId && z.stats == y.stats
            && z.env.clock == y.env.clock && z.env.delays == y.env.delays
  {
  }

  lemma RemoveFollows(y: Sys, k: nat, s: Scope, id: ItemId)
    requires y.env.faults == []
    ensures Follows(y, k, DoRemove(CutAfter(y, k), s, id), DoRemove(y, s, id))
  {
    hide Tracks, Layout.DeleteItem, Step, Script;
    var x := CutAfter(y, k);
    if !AtHome(y.items, s, id) {
      FollowsNow(y, k, Ok(Flag(false)));
    } else {
      var after := y.stores.Put(s, Layout.DeleteItem(y.stores.Get(s), id));
      StepTracks(y, k, after);
      TracksOk(y, k, Step(x, after), Step(y, after));
      StepFrame(y, after);
      var r, c := DoRemove(x, s, id), DoRemove(y, s, id);
      TracksThen(y, k, Step(x, after), Step(y, after), Unfailed(r), Unfailed(c));
      TracksIff(y, k, Unfailed(r), Unfailed(c));
    }
  }

  lemma TracksIff(y: Sys, k: nat, d: Done, c: Done)
    requires Tracks(y, k, d, c)
    ensures d.ok <==> k >= StepsTo(y, c.sys)
  {
    hide CutAfter;
  }

  lemma PromoteFollows(cfg: Settings, y: Sys, k: nat, ids: seq<ItemId>, from: Scope, to: Scope)
    requires y.env.faults == []
    ensures Follows(y, k, DoPromote(cfg, CutAfter(y, k), ids, from, to), DoPromote(cfg, y, ids, from, to))
  {
    hide Tracks, Follows, EnforceBounds, MoveAll, Script, CheckEach;
    var x, u := CutAfter(y, k), Unique(ids);
    ChecksAreNotStorage(y.items, u, from);
    if to.Rank() <= from.Rank() || CheckEach(y.items, u, from).Some? {
      FollowsNow(y, k, DoPromote(cfg, y, ids, from, to).result);
    } else {
      CheckedInScope(y.items, u, from);
      MoveAllTracks(y, k, u, to, Promoted);
      var d, c := MoveAll(x, u, to, Promoted), MoveAll(y, u, to, Promoted);
      TracksOk(y, k, d, c);
      var y1 := CountPromoted(c.sys, |u|);
      ThenEnforceTracks(cfg, y, k, d, c, y1, to);
      var e := if d.ok then EnforceBounds(cfg, CutAfter(y1, Left(y, k, c.sys)), to) else d;
      SettleFollows(y, k, e, EnforceBounds(cfg, y1, to), Count(|u|));
    }
  }

  lemma DemoteFollows(cfg: Settings, y: Sys, k: nat, s: Scope, ids: seq<ItemId>, to: Scope)
    requires y.env.faults == []
    ensures Follows(y, k, DoDemote(cfg, CutAfter(y, k), s, ids, to), DoDemote(cfg, y, s, ids, to))
  {
    hide Tracks, Follows, EnforceBounds, MoveAll, Script, CheckEach;
    var x, u := CutAfter(y, k), Unique(ids);
    ChecksAreNotStorage(y.items, u, s);
    if to.Rank() >= s.Rank() || CheckEach(y.items, u, s).Some? {
      FollowsNow(y, k, DoDemote(cfg, y, s, ids, to).result);
    } else {
      CheckedInScope(y.items, u, s);
      MoveAllTracks(y, k, u, to, Demoted);
      var d, c := MoveAll(x, u, to, Demoted), MoveAll(y, u, to, Demoted);
      TracksOk(y, k, d, c);
      var y1 := CountDemoted(c.sys, |u|);
      ThenEnforceTracks(cfg, y, k, d, c, y1, to);
      var e := if d.ok then EnforceBounds(cfg, CutAfter(y1, Left(y, k, c.sys)), to) else d;
      SettleFollows(y, k, e, EnforceBounds(cfg, y1, to), Count(|u|));
    }
  }

  lemma EvictItemsFollows(y: Sys, k: nat, s: Scope, ids: seq<ItemId>)
    requires y.env.faults == []
    ensures Follows(y, k, DoEvictItems(CutAfter(y, k), s, ids), DoEvictItems(y, s, ids))
  {
    hide Tracks, Follows, DropAll, Script, CheckEach;
    var u := Unique(ids);
    ChecksAreNotStorage(y.items, u, s);
    if CheckEach(y.items, u, s).Some? {
      FollowsNow(y, k, DoEvictItems(y, s, ids).result);
    } else {
      CheckedInScope(y.items, u, s);
      DropAllTracks(y, k, u);
      SettleFollows(y, k, DropAll(CutAfter(y, k), u), DropAll(y, u), Count(|u|));
    }
  }

  lemma EvictPolicyFollows(cfg: Settings, y: Sys, k: nat, s: Scope, count: nat)
    requires y.env.faults == []
    ensures Follows(y, k, DoEvictPolicy(cfg, CutAfter(y, k), s, count), DoEvictPolicy(cfg, y, s, count))
  {
    hide Tracks, Follows, EnforceBounds, EvictByPolicy, Script, InScope;
    EvictByPolicyTracks(cfg, y, k, s, count);
    var d, c := EvictByPolicy(cfg, CutAfter(y, k), s, count), EvictByPolicy(cfg, y, s, count);
    TracksOk(y, k, d, c);
    var v := Count(AtMost(count, |InScope(y.items, s)|));
    if s.Colder().None? {
      SettleFollows(y, k, d, c, v);
    } else {
      var u := s.Colder().value;
      ThenEnforceTracks(cfg, y, k, d, c, c.sys, u);
      var e := if d.ok then EnforceBounds(cfg, CutAfter(c.sys, Left(y, k, c.sys)), u) else d;
      SettleFollows(y, k, e, EnforceBounds(cfg, c.sys, u), v);
    }
  }

  // ---- queries --------------------------------------------------------------------------------

  lemma {:induction false} ScanTracks(y: Sys, k: nat, scopes: seq<Scope>, p: TriplePattern)
    requires y.env.faults == []
    ensures var r, c := ScanScopes(CutAfter(y, k), scopes, p), ScanScopes(y, scopes, p);
            && Tracks(y, k, Done(r.sys, r.ok), Done(c.sys, c.ok))
            && (r.ok ==> r.hits == c.hits && r.matched == c.matched)
    decreases |scopes|
  {
    hide Tracks, Step, Script, FoundIds, Matched;
    if scopes == [] {
      TracksNow(y, k);
    } else {
      var x := CutAfter(y, k);
      StepTracks(y, k, y.stores);
      var d, c := Step(x, y.stores), Step(y, y.stores);
      TracksOk(y, k, d, c);
      StepFrame(y, y.stores);
      var m := Left(y, k, c.sys);
      ScanTracks(c.sys, m, scopes[1..], p);
      var r2, c2 := ScanScopes(CutAfter(c.sys, m), scopes[1..], p), ScanScopes(c.sys, scopes[1..], p);
      TracksChain(y, k, d, c, Done(r2.sys, r2.ok), Done(c2.sys, c2.ok));
      TracksOk(c.sys, m, Done(r2.sys, r2.ok), Done(c2.sys, c2.ok));
      SameScan(x, y, scopes[0], p);
    }
  }

  lemma RaiseTracks(y: Sys, k: nat, up: seq<ItemId>, mid: seq<ItemId>)
    requires y.env.faults == [] && AllIn(y.items, up, Major) && AllIn(y.items, mid, Minor)
    ensures Tracks(y, k, Raise(CutAfter(y, k), up, mid), Raise(y, up, mid))
  {
    hide Tracks, MoveAll, Script;
    MoveAllTracks(y, k, up, Enduring, Promoted);
    var d, c := MoveAll(CutAfter(y, k), up, Enduring, Promoted), MoveAll(y, up, Enduring, Promoted);
    TracksOk(y, k, d, c);
    var m := Left(y, k, c.sys);
    MoveAllTracks(c.sys, m, mid, Major, Promoted);
    TracksChain(y, k, d, c, MoveAll(CutAfter(c.sys, m), mid, Major, Promoted), MoveAll(c.sys, mid, Major, Promoted));
  }

  lemma RaiseAndTrimTracks(cfg: Settings, y: Sys, k: nat, up: seq<ItemId>, mid: seq<ItemId>)
    requires y.env.faults == [] && AllIn(y.items, up, Major) && AllIn(y.items, mid, Minor)
    ensures Tracks(y, k, RaiseAndTrim(cfg, CutAfter(y, k), up, mid), RaiseAndTrim(cfg, y, up, mid))
  {
    hide Tracks, Raise, EnforceBounds, Script;
    RaiseTracks(y, k, up, mid);
    var d, c := Raise(CutAfter(y, k), up, mid), Raise(y, up, mid);
    TracksOk(y, k, d, c);
    var y1 := CountPromoted(c.sys, |up| + |mid|);
    ThenEnforceTracks(cfg, y, k, d, c, y1, Enduring);
    ThenEnforceTracks(cfg, y, k, d, c, y1, Major);
    var x1 := CutAfter(y1, Left(y, k, c.sys));
    TracksThen(y, k, d, c, if d.ok then Done(x1, true) else d, Done(y1, true));
  }

  lemma QueryFollows(cfg: Settings, y: Sys, k: nat, sel: Selection, p: TriplePattern, limit: Option<nat>)
    requires y.env.faults == []
    ensures Follows(y, k, DoQuery(cfg, CutAfter(y, k), sel, p, limit), DoQuery(cfg, y, sel, p, limit))
  {
    hide Tracks, Follows, ScanScopes, RaiseAndTrim, TouchAll, Results, Script, DueEnduring, DueMajor, Consulted;
    ScanTracks(y, k, Consulted(sel), p);
    var r, c := ScanScopes(CutAfter(y, k), Consulted(sel), p), ScanScopes(y, Consulted(sel), p);
    var d0, c0 := Done(r.sys, r.ok), Done(c.sys, c.ok);
    TracksOk(y, k, d0, c0);
    var m, y1, hits := Left(y, k, c.sys), ReadClock(c.sys), Cut(c.hits, limit);
    assert Indexed(y1.items, hits);
    var y2 := Served(cfg, y1, hits);
    var d1 := if r.ok then Done(CutAfter(y2, m), true) else d0;
    TracksThen(y, k, d0, c0, d1, Done(y2, true));
    var answer := Answer(Results(y1.items, hits), |Consulted(sel)|, c.matched, 0);
    if !cfg.promotion.afterEachQuery {
      SettleFollows(y, k, d1, Done(y2, true), Found(answer));
    } else {
      var up, mid := DueEnduring(cfg, y2.items), DueMajor(cfg, y2.items, y1.env.clock);
      RaiseAndTrimTracks(cfg, y2, m, up, mid);
      TracksChain(y, k, d1, Done(y2, true), RaiseAndTrim(cfg, CutAfter(y2, m), up, mid),
                  RaiseAndTrim(cfg, y2, up, mid));
      var e := if d1.ok then RaiseAndTrim(cfg, CutAfter(y2, m), up, mid) else d1;
      SettleFollows(y, k, e, RaiseAndTrim(cfg, y2, up, mid), Found(answer.(autoPromoted := |up| + |mid|)));
    }
  }

  /** Cut after `k` storage steps, an operation that has more leaves the stores as the uncut operation has
      them after its first `k` steps, and reports the storage error; one that has no more is the uncut
      operation. */
  lemma ApplyFollows(cfg: Settings, y: Sys, k: nat, op: Op)
    requires y.env.faults == []
    ensures Follows(y, k, Apply(cfg, CutAfter(y, k), op), Apply(cfg, y, op))
  {
    hide Follows, Script, DoAddBatch, DoRemove, DoQuery, DoPromote, DoEvictItems, DoDemote, DoEvictPolicy;
    match op
    case AddBatch(s, batch) => AddFollows(cfg, y, k, s, batch);
    case Remove(s, id) => RemoveFollows(y, k, s, id);
    case Query(sel, p, limit) => QueryFollows(cfg, y, k, sel, p, limit);
    case Promote(ids, from, to) => PromoteFollows(cfg, y, k, ids, from, to);
    case Evict(s, EvictItems(ids)) => EvictItemsFollows(y, k, s, ids);
    case Evict(s, EvictDemote(ids, to)) => DemoteFollows(cfg, y, k, s, ids, to);
    case Evict(s, EvictPolicy(count)) => EvictPolicyFollows(cfg, y, k, s, count);
  }

  // ---- crash safety ---------------------------------------------------------------------------

  /** The number of storage steps of an operation in which nothing fails. */
  function StepCount(cfg: Settings, y: Sys, op: Op): int {
    StepsTo(y, Apply(cfg, Calm(y), op).sys)
  }

  /** The stores a crash after `k` of them leaves. */
  function CrashedStores(cfg: Settings, y: Sys, op: Op, k: nat): Tiers<set<Quad>> {
    StoresAfter(y, Apply(cfg, Calm(y), op).sys, k)
  }

  /** The cut operation and the crashed one have the same stores. */
  lemma CutIsCrash(cfg: Settings, y: Sys, op: Op, k: nat)
    requires k <= StepCount(cfg, y, op)
    ensures var r := Apply(cfg, CutAfter(y, k), op);
            && r.sys.stores == CrashedStores(cfg, y, op, k)
            && (r.result == Err(Storage) <==> k < StepCount(cfg, y, op))
            && (r.result == Err(Storage) <==> r.sys.env.faults == [])
            && (k == StepCount(cfg, y, op) ==> r.result == Apply(cfg, Calm(y), op).result)
  {
    hide Apply, Script;
    assert CutAfter(Calm(y), k) == CutAfter(y, k);
    ApplyFollows(cfg, Calm(y), k, op);
    ScriptLength(0);
  }

  lemma ScriptLength(k: nat)
    ensures |Script(k)| == k + 1
  {
  }

  /** Crash safety at every storage step of every operation. */
  lemma CrashSafeEverywhere(cfg: Settings, y: Sys, L: Ledger, H: Holds, k: nat, op: Op,
                            found: Tiers<map<ItemId, Item>>, z: Sys)
    requires Sound(y, L, H) && Stale(y.items, H) == {}
    requires k <= StepCount(cfg, y, op) && Opens(CrashedStores(cfg, y, op, k), found, z)
    ensures Recovers(y, Apply(cfg, CutAfter(y, k), op), z, PromotionsOf(cfg, y, op))
    ensures Apply(cfg, CutAfter(y, k), op).sys.stores == CrashedStores(cfg, y, op, k)
  {
    hide Apply, Laid, Homed, LedgerOk, Stale, Opens, Recovers, CrashedStores, StepCount, PromotionsOf, Script,
      Displaced;
    CutIsCrash(cfg, y, op, k);
    PromotionsSame(cfg, y, k, op);
    CrashSafe(cfg, CutAfter(y, k), L, H, op, found, z);
    RecoversSame(y, CutAfter(y, k), Apply(cfg, CutAfter(y, k), op), z, PromotionsOf(cfg, y, op));
  }

  /** What an operation sets out to promote does not depend on what will fail. */
  lemma PromotionsSame(cfg: Settings, y: Sys, k: nat, op: Op)
    ensures PromotionsOf(cfg, CutAfter(y, k), op) == PromotionsOf(cfg, y, op)
  {
    hide DueTargets, TouchAll, Answers.IndexHits, Consulted, Script;
    if op.Query? {
      assert ReadClock(CutAfter(y, k)) == CutAfter(ReadClock(y), k);
      Answers.HitsIndexed(y.items, Consulted(op.selection), op.pattern, op.limit);
    }
  }

  lemma RecoversSame(y: Sys, y': Sys, r: Reply, z: Sys, dest: Promotions)
    requires Recovers(y', r, z, dest) && y'.items == y.items
    ensures Recovers(y, r, z, dest)
  {
  }

  // ---- where a cut list of moves is found -----------------------------------------------------

  /** One move: its first step copies the item, its second removes the original. */
  lemma MoveCut(y: Sys, k: nat, id: ItemId, to: Scope, arrival: Arrival)
    requires id in y.items && y.items[id].scope != to
    ensures var d, e := MoveItem(CutAfter(y, k), id, to, arrival), y.items[id];
            var copied := StoreAlso(y.stores, to, id, e.item);
            && (k == 0 ==> !d.ok && d.sys.stores == y.stores)
            && (k == 1 ==> !d.ok && d.sys.stores == copied)
            && (k >= 2 ==> && d.ok && d.sys.env.faults == Script(k - 2)
                           && d.sys.stores == StoreNot(copied, e.scope, id)
                           && d.sys.items == y.items[id := Relocate(e, to, arrival)])
  {
    hide Layout.Encode, Layout.DeleteItem, Relocate, Script;
    StepCut(CutAfter(y, k), k);
    if k > 0 { StepCut(CutAfter(y, k - 1), k - 1); }
  }

  lemma StepCut(y: Sys, k: nat)
    requires y.env.faults == Script(k)
    ensures y.env.faults != [] && y.env.faults[0] == (k == 0)
    ensures k > 0 ==> y.env.faults[1..] == Script(k - 1)
  {
    if k > 0 { ScriptTail(k); }
  }

  /** Which stores hold the items of a list whose moves were cut after `k` steps. */
  ghost predicate HeldAtCut(H: Holds, H': Holds, ids: seq<ItemId>, from: Scope, to: Scope, k: nat) {
    && (forall s: Scope, i :: i !in ids ==> (i in H'.Get(s) <==> i in H.Get(s)))
    && (forall s: Scope, j :: 0 <= j < |ids| ==>
          (ids[j] in H'.Get(s) <==> (s == to && 2 * j < k) || (s == from && k <= 2 * j + 1)))
  }

  lemma HeldAtCutMore(H: Holds, H': Holds, ids: seq<ItemId>, from: Scope, to: Scope, k: nat)
    requires ids != [] && Distinct(ids) && from != to && k >= 2
    requires forall i, s: Scope :: i in ids ==> (i in H.Get(s) <==> s == from)
    requires HeldAtCut(HoldNot(HoldAlso(H, to, ids[0]), from, ids[0]), H', ids[1..], from, to, k - 2)
    ensures HeldAtCut(H, H', ids, from, to, k)
  {
    var H1, rest := HoldNot(HoldAlso(H, to, ids[0]), from, ids[0]), ids[1..];
    assert ids[0] !in rest && ids[0] in ids;
    assert forall i :: i in rest ==> i in ids;
    assert forall s: Scope :: ids[0] in H1.Get(s) <==> s == to;
    forall s: Scope, j | 0 <= j < |ids|
      ensures ids[j] in H'.Get(s) <==> (s == to && 2 * j < k) || (s == from && k <= 2 * j + 1)
    {
      if j > 0 {
        assert rest[j - 1] == ids[j];
        assert rest[j - 1] in H'.Get(s)
               <==> (s == to && 2 * (j - 1) < k - 2) || (s == from && k - 2 <= 2 * (j - 1) + 1);
      } else {
        assert ids[0] in H'.Get(s) <==> ids[0] in H1.Get(s);
      }
    }
    forall s: Scope, i | i !in ids
      ensures i in H'.Get(s) <==> i in H.Get(s)
    {
      assert i in H'.Get(s) <==> i in H1.Get(s);
    }
  }

  lemma {:induction false} MoveAllCut(y: Sys, L: Ledger, H: Holds, ids: seq<ItemId>, from: Scope, to: Scope,
                                      arrival: Arrival, k: nat)
    returns (H': Holds)
    requires Laid(y.stores, L, H) && Distinct(ids) && AllIn(y.items, ids, from) && from != to && k < 2 * |ids|
    requires forall i :: i in ids ==> i in L && L[i] == y.items[i].item
    requires forall i, s: Scope :: i in ids ==> (i in H.Get(s) <==> s == from)
    ensures var d := MoveAll(CutAfter(y, k), ids, to, arrival);
            !d.ok && Laid(d.sys.stores, L, H') && HeldAtCut(H, H', ids, from, to, k)
    decreases |ids|
  {
    hide Laid, MoveItem, Relocate, Script, StoreAlso, StoreNot;
    var id, e := ids[0], y.items[ids[0]];
    var d := MoveItem(CutAfter(y, k), id, to, arrival);
    MoveCut(y, k, id, to, arrival);
    var H1 := HoldAlso(H, to, id);
    LaidAdd(y.stores, L, H, to, id);
    HeldAtFirstCuts(H, ids, from, to);
    if k == 0 {
      H' := H;
    } else if k == 1 {
      H' := H1;
    } else {
      var H2, rest := HoldNot(H1, from, id), ids[1..];
      LaidDelete(StoreAlso(y.stores, to, id, e.item), L, H1, from, id);
      assert d.sys == CutAfter(d.sys, k - 2);
      MovedOn(y.items, ids, Relocate(e, to, arrival));
      H' := MoveAllCut(d.sys, L, H2, rest, from, to, arrival, k - 2);
      HeldAtCutMore(H, H', ids, from, to, k);
    }
  }

  lemma HeldAtFirstCuts(H: Holds, ids: seq<ItemId>, from: Scope, to: Scope)
    requires ids != [] && Distinct(ids) && from != to
    requires forall i, s: Scope :: i in ids ==> (i in H.Get(s) <==> s == from)
    ensures HeldAtCut(H, H, ids, from, to, 0) && HeldAtCut(H, HoldAlso(H, to, ids[0]), ids, from, to, 1)
  {
    forall s: Scope, j | 0 <= j < |ids|
      ensures ids[j] in H.Get(s) <==> s == from
    {
      assert ids[j] in ids;
    }
    assert forall j :: 0 < j < |ids| ==> ids[j] != ids[0];
  }

  lemma MovedOn(items: map<ItemId, Entry>, ids: seq<ItemId>, e: Entry)
    requires ids != [] && Distinct(ids) && forall i :: i in ids ==> i in items
    ensures ids[0] !in ids[1..] && forall i :: i in ids[1..] ==> i in ids && items[ids[0] := e][i] == items[i]
  {
  }

  /** The place of the `j`-th item of a list of moves cut after `k` steps: a promoted item is found in the
      target as soon as its copy is there, a demoted one only when the original is gone. */
  function PlaceAtCut(from: Scope, to: Scope, j: nat, k: nat): Scope {
    if (if to.Rank() > from.Rank() then 2 * j < k else 2 * j + 1 < k) then to else from
  }

  lemma HomeAtCut(H: Holds, H': Holds, ids: seq<ItemId>, from: Scope, to: Scope, k: nat, j: nat)
    requires HeldAtCut(H, H', ids, from, to, k) && from != to && j < |ids|
    ensures ids[j] in Held(H') && Home(H', ids[j]) == PlaceAtCut(from, to, j, k)
  {
    var i, place := ids[j], PlaceAtCut(from, to, j, k);
    assert i in H'.Get(to) <==> 2 * j < k;
    assert i in H'.Get(from) <==> k <= 2 * j + 1;
    assert i in H'.Get(place);
    HomeIsWarmest(H', i, place);
  }

  lemma HeldAsCut(items: map<ItemId, Entry>, L: Ledger, H: Holds, H': Holds, ids: seq<ItemId>, from: Scope,
                  to: Scope, k: nat)
    requires Homed(items, L, H) && Stale(items, H) == {} && AllIn(items, ids, from) && from != to
    requires HeldAtCut(H, H', ids, from, to, k)
    ensures Held(H') == items.Keys
    ensures forall j :: 0 <= j < |ids| ==> Home(H', ids[j]) == PlaceAtCut(from, to, j, k)
    ensures forall i :: i in items && i !in ids ==> Home(H', i) == items[i].scope
  {
    hide Stale, Homed, HeldAtCut, PlaceAtCut, Held, Home;
    NoStaleHolds(items, L, H);
    forall j | 0 <= j < |ids|
      ensures ids[j] in items && ids[j] in Held(H') && Home(H', ids[j]) == PlaceAtCut(from, to, j, k)
    {
      assert ids[j] in ids;
      HomeAtCut(H, H', ids, from, to, k, j);
    }
    forall i
      ensures i in Held(H') <==> i in items
      ensures i in items && i !in ids ==> Home(H', i) == items[i].scope
    {
      if i in ids {
        var j :| 0 <= j < |ids| && ids[j] == i;
      } else {
        OthersAtCut(H, H', ids, from, to, k, i);
      }
    }
  }

  lemma OthersAtCut(H: Holds, H': Holds, ids: seq<ItemId>, from: Scope, to: Scope, k: nat, i: ItemId)
    requires HeldAtCut(H, H', ids, from, to, k) && i !in ids
    ensures (i in Held(H') <==> i in Held(H)) && Home(H', i) == Home(H, i)
  {
    assert forall s: Scope :: i in H'.Get(s) <==> i in H.Get(s);
    assert H.enduring == H.Get(Enduring) && H.major == H.Get(Major) && H.minor == H.Get(Minor);
    assert H'.enduring == H'.Get(Enduring) && H'.major == H'.Get(Major) && H'.minor == H'.Get(Minor);
  }

  lemma ListHeld(items: map<ItemId, Entry>, L: Ledger, H: Holds, ids: seq<ItemId>, from: Scope)
    requires Homed(items, L, H) && Stale(items, H) == {} && AllIn(items, ids, from)
    ensures forall i :: i in ids ==> i in L && L[i] == items[i].item
    ensures forall i, s: Scope :: i in ids ==> (i in H.Get(s) <==> s == from)
  {
    NoStaleHolds(items, L, H);
  }

  /** Reopening after a list of moves was cut after `k` steps: every item is found once, with its content,
      the `j`-th listed one in its place at the cut and every other where it was. */
  lemma CutMovesFound(y: Sys, L: Ledger, H: Holds, ids: seq<ItemId>, from: Scope, to: Scope, arrival: Arrival,
                      k: nat, found: Tiers<map<ItemId, Item>>, z: Sys)
    requires Sound(y, L, H) && Stale(y.items, H) == {}
    requires Distinct(ids) && AllIn(y.items, ids, from) && from != to && k < 2 * |ids|
    requires Opens(MoveAll(CutAfter(y, k), ids, to, arrival).sys.stores, found, z)
    ensures !MoveAll(CutAfter(y, k), ids, to, arrival).ok
    ensures FoundAtCut(y, ids, from, to, k, z)
  {
    hide Laid, Homed, LedgerOk, Stale, Opens, MoveAll, HeldAtCut, Held, Home, PlaceAtCut;
    ListHeld(y.items, L, H, ids, from);
    var H' := MoveAllCut(y, L, H, ids, from, to, arrival, k);
    HeldAsCut(y.items, L, H, H', ids, from, to, k);
    OpenFinds(MoveAll(CutAfter(y, k), ids, to, arrival).sys.stores, L, H', y.nextId, found, z);
    FreshFacts(z.items, L, H', z.env.clock);
    HomedContent(y.items, L, H);
  }

  ghost predicate FoundAtCut(y: Sys, ids: seq<ItemId>, from: Scope, to: Scope, k: nat, z: Sys) {
    && z.items.Keys == y.items.Keys
    && (forall i :: i in y.items ==> z.items[i].item == y.items[i].item)
    && (forall j :: 0 <= j < |ids| ==> ids[j] in z.items && z.items[ids[j]].scope == PlaceAtCut(from, to, j, k))
    && (forall i :: i in y.items && i !in ids ==> z.items[i].scope == y.items[i].scope)
  }

  /** A promotion of a checked list, cut within its moves. */
  lemma CutPromoteFound(cfg: Settings, y: Sys, L: Ledger, H: Holds, ids: seq<ItemId>, from: Scope, to: Scope,
                        k: nat, found: Tiers<map<ItemId, Item>>, z: Sys)
    requires Sound(y, L, H) && Stale(y.items, H) == {}
    requires to.Rank() > from.Rank() && CheckEach(y.items, Unique(ids), from).None? && k < 2 * |Unique(ids)|
    requires Opens(DoPromote(cfg, CutAfter(y, k), ids, from, to).sys.stores, found, z)
    ensures DoPromote(cfg, CutAfter(y, k), ids, from, to).result == Err(Storage)
    ensures FoundAtCut(y, Unique(ids), from, to, k, z)
  {
    hide Sound, Stale, Opens, MoveAll, FoundAtCut, Script, EnforceBounds;
    CheckedInScope(y.items, Unique(ids), from);
    var d := MoveAll(CutAfter(y, k), Unique(ids), to, Promoted);
    CutMovesFail(y, Unique(ids), to, Promoted, k);
    CutMovesFound(y, L, H, Unique(ids), from, to, Promoted, k, found, z);
  }

  /** A demotion by name of a checked list, cut within its moves. */
  lemma CutDemoteFound(cfg: Settings, y: Sys, L: Ledger, H: Holds, ids: seq<ItemId>, from: Scope, to: Scope,
                       k: nat, found: Tiers<map<ItemId, Item>>, z: Sys)
    requires Sound(y, L, H) && Stale(y.items, H) == {}
    requires to.Rank() < from.Rank() && CheckEach(y.items, Unique(ids), from).None? && k < 2 * |Unique(ids)|
    requires Opens(DoDemote(cfg, CutAfter(y, k), from, ids, to).sys.stores, found, z)
    ensures DoDemote(cfg, CutAfter(y, k), from, ids, to).result == Err(Storage)
    ensures FoundAtCut(y, Unique(ids), from, to, k, z)
  {
    hide Sound, Stale, Opens, MoveAll, FoundAtCut, Script, EnforceBounds;
    CheckedInScope(y.items, Unique(ids), from);
    CutMovesFail(y, Unique(ids), to, Demoted, k);
    CutMovesFound(y, L, H, Unique(ids), from, to, Demoted, k, found, z);
  }

  lemma {:induction false} CutMovesFail(y: Sys, ids: seq<ItemId>, to: Scope, arrival: Arrival, k: nat)
    requires Distinct(ids) && k < 2 * |ids| && forall i :: i in ids ==> i in y.items && y.items[i].scope != to
    ensures !MoveAll(CutAfter(y, k), ids, to, arrival).ok
    decreases |ids|
  {
    hide MoveItem, Relocate, Script, StoreAlso, StoreNot;
    var d := MoveItem(CutAfter(y, k), ids[0], to, arrival);
    MoveCut(y, k, ids[0], to, arrival);
    if k >= 2 {
      assert d.sys == CutAfter(d.sys, k - 2);
      MovedOn(y.items, ids, Relocate(y.items[ids[0]], to, arrival));
      CutMovesFail(d.sys, ids[1..], to, arrival, k - 2);
    }
  }
}
