/** Accesses and answers: the access history of an item is the list of the queries that answered with it. */
module Accesses {
  import opened Rdf
  import opened Items
  import opened Entries
  import opened Machine
  import opened Agreement
  import Answers
  import Steps
  import Flow
  import Laws
  import Recovery
  import opened Runs

  ghost predicate IsHit(hits: seq<Hit>, i: ItemId) {
    exists k :: 0 <= k < |hits| && hits[k].id == i
  }

  predicate DistinctHits(hits: seq<Hit>) {
    forall j, k :: 0 <= j < k < |hits| ==> hits[j].id != hits[k].id
  }

  lemma HitHead(hits: seq<Hit>, i: ItemId)
    requires hits != []
    ensures IsHit(hits, i) <==> hits[0].id == i || IsHit(hits[1..], i)
    ensures DistinctHits(hits) ==> DistinctHits(hits[1..]) && !IsHit(hits[1..], hits[0].id)
  {
    var rest := hits[1..];
    assert forall k :: 0 <= k < |rest| ==> rest[k] == hits[k + 1];
    if k :| 0 <= k < |hits| && hits[k].id == i && k > 0 {
      assert rest[k - 1].id == i;
    }
  }

  /** One touch for every hit and none for any other item. */
  lemma {:induction false} TouchAllExact(cfg: Settings, items: map<ItemId, Entry>, hits: seq<Hit>, now: nat, i: ItemId)
    requires Indexed(items, hits) && DistinctHits(hits) && i in items
    ensures TouchAll(cfg, items, hits, now)[i] == if IsHit(hits, i) then Touch(cfg, items[i], now) else items[i]
    decreases |hits|
  {
    hide Touch;
    if hits != [] {
      var id, rest := hits[0].id, hits[1..];
      HitHead(hits, i);
      TouchAllExact(cfg, items[id := Touch(cfg, items[id], now)], rest, now, i);
    }
  }

  /** Each live item is in one tier, so it is hit at most once. */
  lemma HitsDistinct(items: map<ItemId, Entry>, sel: Selection, p: TriplePattern, limit: Option<nat>)
    ensures DistinctHits(Cut(Answers.IndexHits(items, Consulted(sel), p), limit))
  {
    hide Answers.IndexHits, UniqueScopes, Answers.MatchingItems, Answers.Position;
    var scopes := Consulted(sel);
    var hits := Answers.IndexHits(items, scopes, p);
    ConsultedDistinct(sel);
    Answers.HitsInOrder(items, scopes, p);
    Answers.HitsAre(items, scopes, p);
    forall j, k | 0 <= j < k < |hits|
      ensures hits[j].id != hits[k].id
    {
      assert hits[j] in hits && hits[k] in hits;
      assert Answers.Precedes(scopes, hits[j], hits[k]);
      MatchedAtHome(items, hits[j].scope, p, hits[j].id);
      MatchedAtHome(items, hits[k].scope, p, hits[k].id);
    }
  }

  lemma ConsultedDistinct(sel: Selection)
    ensures Answers.DistinctScopes(Consulted(sel))
  {
    match sel
    case Single(s) => Answers.UniqueScopesIs([s]);
    case All => Answers.UniqueScopesIs(ALL_SCOPES);
    case Listed(scopes) => Answers.UniqueScopesIs(scopes);
  }

  lemma MatchedAtHome(items: map<ItemId, Entry>, s: Scope, p: TriplePattern, i: ItemId)
    requires i in Answers.MatchingItems(items, s, p)
    ensures i in items && items[i].scope == s
  {
  }

  // ---- one operation --------------------------------------------------------------------------

  /** The hits a query answers with: those past its limit are not among them. */
  ghost function AnswerHits(y: Sys, sel: Selection, p: TriplePattern, limit: Option<nat>): seq<Hit> {
    Cut(Answers.IndexHits(y.items, Consulted(sel), p), limit)
  }

  /** The operation is a query whose scans succeeded, and the item is among its answers. */
  ghost predicate ServedTo(y: Sys, op: Op, i: ItemId) {
    && op.Query? && ScanScopes(y, Consulted(op.selection), op.pattern).ok
    && IsHit(AnswerHits(y, op.selection, op.pattern, op.limit), i)
  }

  function AccessTime(y: Sys): nat {
    ReadClock(y).env.clock
  }

  /** From `e` to `e'` the item was accessed once, at `now`, or not at all. */
  predicate Accessed(e: Entry, e': Entry, hit: bool, now: nat) {
    && e'.item == e.item
    && e'.touches == e.touches + (if hit then [now] else [])
    && e'.accesses == e.accesses + (if hit then 1 else 0)
  }

  lemma FlowsAccess(y: Sys, y': Sys, i: ItemId)
    requires Flow.Flows(y, y') && i in y'.items
    ensures i in y.items && Accessed(y.items[i], y'.items[i], false, 0)
  {
    hide Flow.Arrivals;
    var e, e' := y.items[i], y'.items[i];
    assert Flow.SameHistory(e, e');
    assert e'.touches == e.touches && e'.accesses == e.accesses && e'.item == e.item;
  }

  lemma AccessedTwice(a: Entry, b: Entry, c: Entry, hit: bool, now: nat)
    requires Accessed(a, b, hit, now) && Accessed(b, c, false, 0)
    ensures Accessed(a, c, hit, now)
  {
  }

  lemma TouchedOnce(cfg: Settings, e: Entry, now: nat, hit: bool)
    ensures Accessed(e, if hit then Touch(cfg, e, now) else e, hit, now)
  {
  }

  lemma QueryAccesses(cfg: Settings, y: Sys, L: Ledger, H: Holds, sel: Selection, p: TriplePattern,
                      limit: Option<nat>, i: ItemId)
    requires Sound(y, L, H) && i in DoQuery(cfg, y, sel, p, limit).sys.items
    ensures i in y.items
    ensures Accessed(y.items[i], DoQuery(cfg, y, sel, p, limit).sys.items[i], ServedTo(y, Query(sel, p, limit), i),
                     AccessTime(y))
  {
    hide Laid, Homed, LedgerOk, TouchAll, RaiseAndTrim, Results, Accessed, Touch, IsHit, DistinctHits, ScanScopes,
      Answers.IndexHits, Consulted, DueEnduring, DueMajor, Flow.Flows;
    var r := ScanScopes(y, Consulted(sel), p);
    if r.ok {
      var y1, hits := ReadClock(r.sys), Cut(r.hits, limit);
      assert Indexed(y1.items, hits);
      Steps.ServedIs(cfg, y, L, H, sel, p, limit);
      Answers.ScanIsIndex(y, L, H, Consulted(sel), p);
      HitsDistinct(y.items, sel, p, limit);
      var y2, hit, now := Served(cfg, y1, hits), ServedTo(y, Query(sel, p, limit), i), AccessTime(y);
      if cfg.promotion.afterEachQuery {
        var up, mid := DueEnduring(cfg, y2.items), DueMajor(cfg, y2.items, y1.env.clock);
        var y3 := RaiseAndTrim(cfg, y2, up, mid).sys;
        Laws.RaiseAndTrimFlows(cfg, y2, up, mid);
        FlowsAccess(y2, y3, i);
        TouchAllExact(cfg, y.items, hits, now, i);
        TouchedOnce(cfg, y.items[i], now, hit);
        AccessedTwice(y.items[i], y2.items[i], y3.items[i], hit, now);
      } else {
        TouchAllExact(cfg, y.items, hits, now, i);
        TouchedOnce(cfg, y.items[i], now, hit);
      }
    } else {
      TouchedOnce(cfg, y.items[i], AccessTime(y), false);
    }
  }

  /** An item that is new after an operation was issued by it and has not been accessed. */
  ghost predicate Newcomer(y: Sys, y': Sys, i: ItemId)
    requires i in y'.items
  {
    y.nextId <= i < y'.nextId && y'.items[i].accesses == 0 && |y'.items[i].touches| == 1
  }

  lemma AddAccesses(cfg: Settings, y: Sys, s: Scope, batch: seq<Item>, i: ItemId)
    requires (forall j :: j in y.items ==> j < y.nextId) && i in DoAddBatch(cfg, y, s, batch).sys.items
    ensures var y' := DoAddBatch(cfg, y, s, batch).sys;
            && (i in y.items ==> Accessed(y.items[i], y'.items[i], false, AccessTime(y)))
            && (i !in y.items ==> Newcomer(y, y', i))
  {
    hide EnforceBounds, EncodeAll, FirstError, Flow.Flows, Flow.Burden;
    var d := Write(y, s, y.stores.Get(s) + EncodeAll(y.nextId, batch));
    if FirstError(y.items, batch).None? && d.ok {
      var y1 := Register(d.sys, s, batch);
      var y2 := EnforceBounds(cfg, y1, s).sys;
      Flow.EnforceCools(cfg, y1, s);
      assert Flow.Flows(y1, y2);
      FlowsAccess(y1, y2, i);
      assert y2.nextId == y1.nextId by { FlowsNextId(y1, y2); }
    }
  }

  lemma FlowsNextId(y: Sys, y': Sys)
    requires Flow.Flows(y, y')
    ensures y'.nextId == y.nextId
  {
  }

  /** Whatever fails, an operation accesses exactly the items that a served query answers with, once each. */
  lemma ApplyAccesses(cfg: Settings, y: Sys, L: Ledger, H: Holds, op: Op, i: ItemId)
    requires Sound(y, L, H) && i in Apply(cfg, y, op).sys.items
    ensures var y' := Apply(cfg, y, op).sys;
            && (i in y.items ==> Accessed(y.items[i], y'.items[i], ServedTo(y, op, i), AccessTime(y)))
            && (i !in y.items ==> Newcomer(y, y', i) && !ServedTo(y, op, i))
  {
    hide Sound, DoAddBatch, DoQuery, DoPromote, DoEvict, Flow.Flows, ScanScopes, IsHit, Newcomer;
    match op
    case AddBatch(s, batch) =>
      Recovery.LiveBelow(y, L, H);
      AddAccesses(cfg, y, s, batch, i);
    case Remove(s, id) =>
    case Query(sel, p, limit) => QueryAccesses(cfg, y, L, H, sel, p, limit, i);
    case Promote(ids, from, to) =>
      Laws.PromoteFlows(cfg, y, ids, from, to);
      FlowsAccess(y, DoPromote(cfg, y, ids, from, to).sys, i);
    case Evict(s, c) =>
      Laws.EvictFlows(cfg, y, s, c);
      FlowsAccess(y, DoEvict(cfg, y, s, c).sys, i);
  }

  // ---- whole sessions -------------------------------------------------------------------------

  /** When queries of the session answered with the item. */
  ghost function AnswerTimes(cfg: Settings, y: Sys, ops: seq<Op>, i: ItemId): seq<nat> {
    if ops == [] then []
    else
      var front, last := ops[..|ops| - 1], ops[|ops| - 1];
      var x := Perform(cfg, y, front);
      AnswerTimes(cfg, y, front, i) + if ServedTo(x, last, i) then [AccessTime(x)] else []
  }

  lemma NextIdGrows(cfg: Settings, y: Sys, op: Op)
    ensures Apply(cfg, y, op).sys.nextId >= y.nextId
  {
    hide EnforceBounds, DoPromote, DoEvict, RaiseAndTrim, Flow.Flows, ScanScopes, TouchAll, Results, FirstError;
    match op
    case AddBatch(s, batch) =>
      var d := Write(y, s, y.stores.Get(s) + EncodeAll(y.nextId, batch));
      var y1 := Register(d.sys, s, batch);
      Flow.EnforceCools(cfg, y1, s);
      FlowsNextId(y1, EnforceBounds(cfg, y1, s).sys);
    case Remove(s, id) =>
    case Query(sel, p, limit) => QueryNextId(cfg, y, sel, p, limit);
    case Promote(ids, from, to) =>
      Laws.PromoteFlows(cfg, y, ids, from, to);
      FlowsNextId(y, DoPromote(cfg, y, ids, from, to).sys);
    case Evict(s, c) =>
      Laws.EvictFlows(cfg, y, s, c);
      FlowsNextId(y, DoEvict(cfg, y, s, c).sys);
  }

  lemma QueryNextId(cfg: Settings, y: Sys, sel: Selection, p: TriplePattern, limit: Option<nat>)
    ensures DoQuery(cfg, y, sel, p, limit).sys.nextId == y.nextId
  {
    hide RaiseAndTrim, Flow.Flows, ScanScopes, TouchAll, Results, Consulted, DueEnduring, DueMajor;
    var r := ScanScopes(y, Consulted(sel), p);
    Steps.ScanUnmoved(y, Consulted(sel), p);
    if r.ok && cfg.promotion.afterEachQuery {
      var y1, hits := ReadClock(r.sys), Cut(r.hits, limit);
      assert Indexed(y1.items, hits);
      var y2 := Served(cfg, y1, hits);
      var up, mid := DueEnduring(cfg, y2.items), DueMajor(cfg, y2.items, y1.env.clock);
      Laws.RaiseAndTrimFlows(cfg, y2, up, mid);
      FlowsNextId(y2, RaiseAndTrim(cfg, y2, up, mid).sys);
    }
  }

  lemma ServedIsLive(y: Sys, op: Op, i: ItemId)
    requires ServedTo(y, op, i)
    ensures i in y.items
  {
    hide Answers.IndexHits, ScanScopes, Consulted;
    Answers.HitsIndexed(y.items, Consulted(op.selection), op.pattern, op.limit);
  }

  /** No query answers with an id that has not been issued. */
  lemma {:induction false} NotYetAnswered(cfg: Settings, y: Sys, L: Ledger, H: Holds, ops: seq<Op>, i: ItemId)
    requires Sound(y, L, H) && i >= Perform(cfg, y, ops).nextId
    ensures AnswerTimes(cfg, y, ops, i) == [] && i !in y.items
  {
    hide Sound, Apply, ServedTo;
    if ops == [] {
      Recovery.LiveBelow(y, L, H);
    } else {
      var front, last := ops[..|ops| - 1], ops[|ops| - 1];
      var x := Perform(cfg, y, front);
      NextIdGrows(cfg, x, last);
      NotYetAnswered(cfg, y, L, H, front, i);
      var L', H' := PerformSound(cfg, y, L, H, front);
      Recovery.LiveBelow(x, L', H');
      if ServedTo(x, last, i) { ServedIsLive(x, last, i); }
    }
  }

  /** In every session, whatever fails, the accesses of a live item are the queries that answered with it,
      in order and at their times, since it was added or since the session was opened. */
  lemma {:induction false} RunAccesses(cfg: Settings, y: Sys, L: Ledger, H: Holds, ops: seq<Op>, i: ItemId)
    requires Sound(y, L, H) && i in Perform(cfg, y, ops).items
    ensures var e, times := Perform(cfg, y, ops).items[i], AnswerTimes(cfg, y, ops, i);
            && (i in y.items ==> && e.touches == y.items[i].touches + times
                                 && e.accesses == y.items[i].accesses + |times|)
            && (i !in y.items ==> e.touches != [] && e.touches[1..] == times && e.accesses == |times|)
  {
    hide Sound, Apply, ServedTo, AccessTime;
    if ops != [] {
      var front, last := ops[..|ops| - 1], ops[|ops| - 1];
      var x := Perform(cfg, y, front);
      var L', H' := PerformSound(cfg, y, L, H, front);
      ApplyAccesses(cfg, x, L', H', last, i);
      if i in x.items {
        RunAccesses(cfg, y, L, H, front, i);
      } else {
        NotYetAnswered(cfg, y, L, H, front, i);
      }
    }
  }

  // ---- replies --------------------------------------------------------------------------------

  /** The reply is an answer that lists the item. */
  ghost predicate Returns(result: Result<Value>, i: ItemId) {
    result.Ok? && result.value.Found?
    && exists k :: 0 <= k < |result.value.answer.items| && result.value.answer.items[k].id == i
  }

  /** How many queries of the session returned the item. */
  ghost function Returned(cfg: Settings, y: Sys, ops: seq<Op>, i: ItemId): nat {
    if ops == [] then 0
    else Returned(cfg, y, ops[..|ops| - 1], i) + if Returns(LastReply(cfg, y, ops).result, i) then 1 else 0
  }

  lemma ResultsAre(items: map<ItemId, Entry>, hits: seq<Hit>, i: ItemId)
    requires Indexed(items, hits)
    ensures IsHit(hits, i) <==> exists k :: 0 <= k < |Results(items, hits)| && Results(items, hits)[k].id == i
  {
    if IsHit(hits, i) {
      var k :| 0 <= k < |hits| && hits[k].id == i;
      assert Results(items, hits)[k].id == i;
    }
  }

  /** Unless storage fails, the queries that access an item are those that return it. */
  lemma ServedIffReturned(cfg: Settings, y: Sys, L: Ledger, H: Holds, op: Op, i: ItemId)
    requires Sound(y, L, H) && Apply(cfg, y, op).result != Err(Storage)
    ensures ServedTo(y, op, i) <==> Returns(Apply(cfg, y, op).result, i)
  {
    hide Sound, IsHit, DoAddBatch, DoPromote, DoEvict, ScanScopes, Results, TouchAll, RaiseAndTrim, Answers.IndexHits,
      Consulted;
    match op
    case Query(sel, p, limit) =>
      Answers.HitsIndexed(y.items, Consulted(sel), p, limit);
      Answers.QueryAnswersIndex(cfg, y, L, H, sel, p, limit);
      ResultsAre(y.items, AnswerHits(y, sel, p, limit), i);
    case _ => OthersReturnNothing(cfg, y, op, i);
  }

  lemma OthersReturnNothing(cfg: Settings, y: Sys, op: Op, i: ItemId)
    requires !op.Query?
    ensures !Returns(Apply(cfg, y, op).result, i)
  {
    hide EnforceBounds, MoveAll, DropAll, EvictByPolicy, FirstError, CheckEach;
  }

  /** In a session without storage failures an item has been accessed exactly as often as queries returned
      it. */
  lemma AccessesAreAnswers(cfg: Settings, y: Sys, L: Ledger, H: Holds, ops: seq<Op>, i: ItemId)
    requires Sound(y, L, H) && NoFailure(cfg, y, ops) && i in Perform(cfg, y, ops).items
    ensures Perform(cfg, y, ops).items[i].accesses
            == (if i in y.items then y.items[i].accesses else 0) + Returned(cfg, y, ops, i)
  {
    hide Sound, Apply, ServedTo, Returns;
    RunAccesses(cfg, y, L, H, ops, i);
    TimesAreReturns(cfg, y, L, H, ops, i);
  }

  lemma {:induction false} TimesAreReturns(cfg: Settings, y: Sys, L: Ledger, H: Holds, ops: seq<Op>, i: ItemId)
    requires Sound(y, L, H) && NoFailure(cfg, y, ops)
    ensures |AnswerTimes(cfg, y, ops, i)| == Returned(cfg, y, ops, i)
  {
    hide Sound, Apply, ServedTo, Returns;
    if ops != [] {
      var front, last := ops[..|ops| - 1], ops[|ops| - 1];
      TimesAreReturns(cfg, y, L, H, front, i);
      var L', H' := PerformSound(cfg, y, L, H, front);
      ServedIffReturned(cfg, Perform(cfg, y, front), L', H', last, i);
    }
  }
}
