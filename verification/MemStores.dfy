/** The transactional reference store: snapshot reads and version-checked commits, as objects and as the
    steps of any number of interleaved transactions. */
module MemStores {
  import opened Rdf

  datatype Act = Insert(quad: Quad) | Remove(quad: Quad) | Contains(quad: Quad) | Match(pattern: Pattern)

  /** What a transaction learns from one call. */
  datatype Seen = Flag(flag: bool) | Rows(rows: set<Quad>) | Refused

  datatype Effect = Effect(working: set<Quad>, seen: Seen)

  /** One call on a working copy. */
  function Exec(working: set<Quad>, writable: bool, act: Act): Effect {
    match act
    case Insert(q) => if writable then Effect(working + {q}, Flag(q !in working)) else Effect(working, Refused)
    case Remove(q) => if writable then Effect(working - {q}, Flag(q in working)) else Effect(working, Refused)
    case Contains(q) => Effect(working, Flag(q in working))
    case Match(p) => Effect(working, Rows(Scan(working, p)))
  }

  /** What the answers mean.  An insert makes exactly its quad present and says whether the set grew; a remove
      makes exactly its quad absent and says whether it shrank; a reader is refused both and nothing changes.
      Reads answer for the working copy. */
  lemma AnswersTell(working: set<Quad>, writable: bool, q: Quad, p: Pattern)
    ensures var e := Exec(working, writable, Act.Insert(q));
            && (writable ==> q in e.working && e.seen == Flag(|e.working| > |working|))
            && (!writable ==> e.working == working && e.seen == Refused)
            && forall x :: x != q ==> (x in e.working <==> x in working)
    ensures var e := Exec(working, writable, Act.Remove(q));
            && (writable ==> q !in e.working && e.seen == Flag(|e.working| < |working|))
            && (!writable ==> e.working == working && e.seen == Refused)
            && forall x :: x != q ==> (x in e.working <==> x in working)
    ensures var e := Exec(working, writable, Act.Contains(q));
            e.working == working && e.seen == Flag(working - {q} != working)
    ensures var e := Exec(working, writable, Match(p));
            && e.working == working && e.seen.Rows?
            && forall x :: x in e.seen.rows <==> x in working && Matches(x, p)
  {
    if q in working {
      assert working + {q} == working && |working - {q}| == |working| - 1;
      assert working - {q} != working by { assert q !in working - {q}; }
    } else {
      assert working - {q} == working && |working + {q}| == |working| + 1;
    }
  }

  // ---- the objects ----------------------------------------------------------------------------

  class MemStore {
    var version: nat
    var quads: set<Quad>

    constructor ()
      ensures version == 0 && quads == {}
    {
      version, quads := 0, {};
    }

    method BeginRead() returns (tx: MemTx)
      ensures fresh(tx) && tx.store == this && tx.baseVersion == version && tx.working == quads && !tx.writable
    {
      tx := new MemTx(this, version, quads, false);
    }

    method BeginWrite() returns (tx: MemTx)
      ensures fresh(tx) && tx.store == this && tx.baseVersion == version && tx.working == quads && tx.writable
    {
      tx := new MemTx(this, version, quads, true);
    }
  }

  /** Reads and writes go to `working`, taken from the store when the transaction began. */
  class MemTx {
    const store: MemStore
    const baseVersion: nat
    const writable: bool
    var working: set<Quad>

    constructor (store: MemStore, baseVersion: nat, working: set<Quad>, writable: bool)
      ensures this.store == store && this.baseVersion == baseVersion
      ensures this.working == working && this.writable == writable
    {
      this.store, this.baseVersion, this.working, this.writable := store, baseVersion, working, writable;
    }

    method Insert(q: Quad) returns (r: Seen)
      modifies this
      ensures Effect(working, r) == Exec(old(working), writable, Act.Insert(q))
    {
      if !writable { return Refused; }
      r := Flag(q !in working);
      working := working + {q};
    }

    method Remove(q: Quad) returns (r: Seen)
      modifies this
      ensures Effect(working, r) == Exec(old(working), writable, Act.Remove(q))
    {
      if !writable { return Refused; }
      r := Flag(q in working);
      working := working - {q};
    }

    method Contains(q: Quad) returns (r: Seen)
      ensures Effect(working, r) == Exec(working, writable, Act.Contains(q))
    {
      r := Flag(q in working);
    }

    method QuadsForPattern(p: Pattern) returns (r: Seen)
      ensures Effect(working, r) == Exec(working, writable, Match(p))
    {
      r := Rows(Scan(working, p));
    }

    /** `false` is the conflict error. */
    method Commit() returns (ok: bool)
      modifies store
      ensures ok == MayCommit(Tx(baseVersion, writable, working, []), old(store.version))
      ensures Committed(store.version, store.quads)
              == Publish(Tx(baseVersion, writable, working, []), old(store.version), old(store.quads))
    {
      if !writable { return true; }
      if store.version != baseVersion { return false; }
      store.quads := working;
      store.version := store.version + 1;
      ok := true;
    }
  }

  // ---- interleaved transactions ---------------------------------------------------------------

  datatype Logged = Logged(act: Act, seen: Seen)

  /** An open transaction; `log` is a history variable, the calls made so far and what they returned. */
  datatype Tx = Tx(base: nat, writable: bool, working: set<Quad>, log: seq<Logged>)

  datatype Committed = Committed(version: nat, quads: set<Quad>)

  predicate MayCommit(tx: Tx, version: nat) {
    !tx.writable || tx.base == version
  }

  /** The committed state after `tx` asks to commit. */
  function Publish(tx: Tx, version: nat, quads: set<Quad>): Committed {
    if tx.writable && tx.base == version then Committed(version + 1, tx.working) else Committed(version, quads)
  }

  type TxId = nat

  /** `history` lists the logs of the committed writers in commit order. */
  datatype Db = Db(version: nat, quads: set<Quad>, open: map<TxId, Tx>, history: seq<seq<Logged>>)

  datatype Event =
    | Begin(id: TxId, write: bool)
    | Do(id: TxId, act: Act)
    | Commit(id: TxId)
    | Rollback(id: TxId)

  predicate Enabled(db: Db, ev: Event) {
    if ev.Begin? then ev.id !in db.open else ev.id in db.open
  }

  function Step(db: Db, ev: Event): Db
    requires Enabled(db, ev)
  {
    match ev
    case Begin(id, write) => db.(open := db.open[id := Tx(db.version, write, db.quads, [])])
    case Do(id, act) =>
      var tx := db.open[id];
      var e := Exec(tx.working, tx.writable, act);
      db.(open := db.open[id := tx.(working := e.working, log := tx.log + [Logged(act, e.seen)])])
    case Commit(id) =>
      var tx := db.open[id];
      var c := Publish(tx, db.version, db.quads);
      Db(c.version, c.quads, db.open - {id}, if Writes(db, ev) then db.history + [tx.log] else db.history)
    case Rollback(id) => db.(open := db.open - {id})
  }

  /** The event is the successful commit of a writer. */
  predicate Writes(db: Db, ev: Event)
    requires Enabled(db, ev)
  {
    ev.Commit? && db.open[ev.id].writable && db.open[ev.id].base == db.version
  }

  ghost predicate IsRun(dbs: seq<Db>, evs: seq<Event>) {
    && |dbs| == |evs| + 1
    && forall k :: 0 <= k < |evs| ==> Enabled(dbs[k], evs[k]) && dbs[k + 1] == Step(dbs[k], evs[k])
  }

  // ---- the serial reference -------------------------------------------------------------------

  /** The store after the calls of one transaction, run alone. */
  function After(quads: set<Quad>, writable: bool, log: seq<Logged>): set<Quad> {
    if log == [] then quads
    else Exec(After(quads, writable, log[..|log| - 1]), writable, log[|log| - 1].act).working
  }

  /** Run alone from `quads`, every call returns what the log says. */
  predicate Replays(quads: set<Quad>, writable: bool, log: seq<Logged>) {
    log == []
    || (&& Replays(quads, writable, log[..|log| - 1])
        && log[|log| - 1].seen == Exec(After(quads, writable, log[..|log| - 1]), writable, log[|log| - 1].act).seen)
  }

  /** The store after whole transactions, one after another. */
  function Serial(init: set<Quad>, history: seq<seq<Logged>>): set<Quad> {
    if history == [] then init
    else After(Serial(init, history[..|history| - 1]), true, history[|history| - 1])
  }

  /** An open transaction has seen one committed state, the one of its base version, and its own writes. */
  ghost predicate TxGood(init: set<Quad>, db: Db, tx: Tx) {
    && tx.base <= |db.history|
    && tx.working == After(Serial(init, db.history[..tx.base]), tx.writable, tx.log)
    && Replays(Serial(init, db.history[..tx.base]), tx.writable, tx.log)
  }

  ghost predicate Good(init: set<Quad>, db: Db) {
    && db.version == |db.history|
    && db.quads == Serial(init, db.history)
    && (forall k :: 0 <= k < |db.history| ==> Replays(Serial(init, db.history[..k]), true, db.history[k]))
    && forall t :: t in db.open ==> TxGood(init, db, db.open[t])
  }

  lemma CallGood(init: set<Quad>, db: Db, id: TxId, act: Act)
    requires Good(init, db) && id in db.open
    ensures TxGood(init, db, Step(db, Do(id, act)).open[id])
  {
    var tx := db.open[id];
    var e := Exec(tx.working, tx.writable, act);
    var log := tx.log + [Logged(act, e.seen)];
    assert log[..|log| - 1] == tx.log;
  }

  lemma TxGoodLater(init: set<Quad>, db: Db, db': Db, tx: Tx)
    requires TxGood(init, db, tx) && db.history <= db'.history
    ensures TxGood(init, db', tx)
  {
    assert db'.history[..tx.base] == db.history[..tx.base];
  }

  lemma CommitGood(init: set<Quad>, db: Db, id: TxId)
    requires Good(init, db) && id in db.open && Writes(db, Commit(id))
    ensures var db' := Step(db, Commit(id));
            && db'.version == |db'.history| && db'.quads == Serial(init, db'.history)
            && (forall k :: 0 <= k < |db'.history| ==> Replays(Serial(init, db'.history[..k]), true, db'.history[k]))
  {
    hide After, Replays;
    var tx, db' := db.open[id], Step(db, Commit(id));
    assert TxGood(init, db, tx);
    assert db.history[..tx.base] == db.history;
    assert db'.history[..|db.history|] == db.history;
    forall k | 0 <= k < |db.history|
      ensures Replays(Serial(init, db'.history[..k]), true, db'.history[k])
    {
      assert db'.history[..k] == db.history[..k];
    }
  }

  /** Every step keeps the store serializable. */
  lemma StepGood(init: set<Quad>, db: Db, ev: Event)
    requires Good(init, db) && Enabled(db, ev)
    ensures Good(init, Step(db, ev))
  {
    hide After, Replays, Serial, Exec;
    var db' := Step(db, ev);
    if ev.Commit? && Writes(db, ev) { CommitGood(init, db, ev.id); }
    forall t | t in db'.open
      ensures TxGood(init, db', db'.open[t])
    {
      match ev
      case Begin(id, write) =>
        if t == id {
          BeginGood(init, db, write);
        } else {
          assert TxGood(init, db, db.open[t]);
        }
        TxGoodLater(init, db, db', db'.open[t]);
      case Do(id, act) =>
        if t == id {
          CallGood(init, db, id, act);
        } else {
          assert TxGood(init, db, db.open[t]);
        }
        TxGoodLater(init, db, db', db'.open[t]);
      case Commit(id) => TxGoodLater(init, db, db', db.open[t]);
      case Rollback(id) => TxGoodLater(init, db, db', db.open[t]);
    }
  }

  lemma BeginGood(init: set<Quad>, db: Db, write: bool)
    requires Good(init, db)
    ensures TxGood(init, db, Tx(db.version, write, db.quads, []))
  {
    assert db.history[..db.version] == db.history;
  }

  ghost predicate IsStart(init: set<Quad>, db: Db) {
    db == Db(0, init, map[], [])
  }

  /** Serializability.  In every interleaving of any number of transactions the committed state is the
      committed writers run one after another in commit order, every answer a committed writer saw is the
      one it would see in that serial run, and every open transaction sees one committed state plus its
      own writes. */
  lemma {:induction false} Serializable(init: set<Quad>, dbs: seq<Db>, evs: seq<Event>, k: nat)
    requires IsRun(dbs, evs) && IsStart(init, dbs[0]) && k <= |evs|
    ensures Good(init, dbs[k])
    decreases k
  {
    if k > 0 {
      hide Good, Step;
      Serializable(init, dbs, evs, k - 1);
      StepGood(init, dbs[k - 1], evs[k - 1]);
    }
  }

  lemma {:induction false} ReadOnlySame(quads: set<Quad>, log: seq<Logged>)
    ensures After(quads, false, log) == quads
  {
    if log != [] { ReadOnlySame(quads, log[..|log| - 1]); }
  }

  lemma {:induction false} ReplaysEach(quads: set<Quad>, log: seq<Logged>, j: nat)
    requires Replays(quads, false, log) && j < |log|
    ensures log[j].seen == Exec(quads, false, log[j].act).seen
  {
    if j == |log| - 1 {
      ReadOnlySame(quads, log[..j]);
    } else {
      ReplaysEach(quads, log[..|log| - 1], j);
    }
  }

  /** A reader's answers all come from one committed state: the serial run of the writers that had
      committed when it began. */
  lemma ReaderSeesOneState(init: set<Quad>, dbs: seq<Db>, evs: seq<Event>, k: nat, t: TxId, j: nat)
    requires IsRun(dbs, evs) && IsStart(init, dbs[0]) && k <= |evs|
    requires t in dbs[k].open && !dbs[k].open[t].writable && j < |dbs[k].open[t].log|
    ensures var tx := dbs[k].open[t];
            && tx.base <= |dbs[k].history|
            && tx.log[j].seen == Exec(Serial(init, dbs[k].history[..tx.base]), false, tx.log[j].act).seen
  {
    Serializable(init, dbs, evs, k);
    var tx := dbs[k].open[t];
    assert TxGood(init, dbs[k], tx);
    ReplaysEach(Serial(init, dbs[k].history[..tx.base]), tx.log, j);
  }

  // ---- when a writer commits ------------------------------------------------------------------

  /** The successful writer commits among events `lo` to `hi`. */
  ghost function WriteCommits(dbs: seq<Db>, evs: seq<Event>, lo: nat, hi: nat): set<nat>
    requires IsRun(dbs, evs) && lo <= hi <= |evs|
  {
    set m | lo <= m < hi && Writes(dbs[m], evs[m])
  }

  lemma StepVersion(db: Db, ev: Event)
    requires Enabled(db, ev)
    ensures Step(db, ev).version == db.version + if Writes(db, ev) then 1 else 0
  {
  }

  lemma {:induction false} VersionCounts(dbs: seq<Db>, evs: seq<Event>, lo: nat, hi: nat)
    requires IsRun(dbs, evs) && lo <= hi <= |evs|
    ensures dbs[hi].version == dbs[lo].version + |WriteCommits(dbs, evs, lo, hi)|
    decreases hi
  {
    hide Step, Writes, Enabled;
    if lo == hi {
      assert WriteCommits(dbs, evs, lo, hi) == {};
    } else {
      VersionCounts(dbs, evs, lo, hi - 1);
      StepVersion(dbs[hi - 1], evs[hi - 1]);
      var a, b := WriteCommits(dbs, evs, lo, hi - 1), WriteCommits(dbs, evs, lo, hi);
      if Writes(dbs[hi - 1], evs[hi - 1]) {
        assert b == a + {hi - 1};
      } else {
        assert b == a;
      }
    }
  }

  /** A transaction that is open throughout keeps the version it began with. */
  lemma {:induction false} BaseStays(dbs: seq<Db>, evs: seq<Event>, t: TxId, lo: nat, hi: nat)
    requires IsRun(dbs, evs) && lo < hi <= |evs| && evs[lo].Begin? && evs[lo].id == t
    requires forall m :: lo < m <= hi ==> t in dbs[m].open
    ensures dbs[hi].open[t].base == dbs[lo].version && dbs[hi].open[t].writable == evs[lo].write
    decreases hi
  {
    assert dbs[hi] == Step(dbs[hi - 1], evs[hi - 1]);
    if lo < hi - 1 {
      BaseStays(dbs, evs, t, lo, hi - 1);
    }
  }

  /** A writer commits iff no other writer committed since it began. */
  lemma WriterCommitsIff(dbs: seq<Db>, evs: seq<Event>, t: TxId, lo: nat, hi: nat)
    requires IsRun(dbs, evs) && lo < hi < |evs|
    requires evs[lo] == Begin(t, true) && evs[hi] == Commit(t)
    requires forall m :: lo < m <= hi ==> t in dbs[m].open
    ensures Writes(dbs[hi], evs[hi]) <==> WriteCommits(dbs, evs, lo, hi) == {}
  {
    BaseStays(dbs, evs, t, lo, hi);
    VersionCounts(dbs, evs, lo, hi);
  }

  // ---- a writer that is not disturbed ---------------------------------------------------------

  /** The calls of transaction `t` among events `lo` to `hi`. */
  function CallsOf(evs: seq<Event>, t: TxId, lo: nat, hi: nat): seq<Act>
    requires lo <= hi <= |evs|
    decreases hi
  {
    if lo == hi then []
    else
      var ev := evs[hi - 1];
      CallsOf(evs, t, lo, hi - 1) + if ev.Do? && ev.id == t then [ev.act] else []
  }

  /** A set of quads after some write calls. */
  function Performed(quads: set<Quad>, acts: seq<Act>): set<Quad> {
    if acts == [] then quads
    else Exec(Performed(quads, acts[..|acts| - 1]), true, acts[|acts| - 1]).working
  }

  lemma OneMoreCall(quads: set<Quad>, acts: seq<Act>, act: Act)
    ensures Performed(quads, acts + [act]) == Exec(Performed(quads, acts), true, act).working
  {
    assert (acts + [act])[..|acts|] == acts;
  }

  /** A writer's working copy is its begin state with its own calls on top, whatever others do. */
  lemma {:induction false} WorkingIs(dbs: seq<Db>, evs: seq<Event>, t: TxId, lo: nat, hi: nat)
    requires IsRun(dbs, evs) && lo < hi <= |evs| && evs[lo] == Begin(t, true)
    requires forall m :: lo < m <= hi ==> t in dbs[m].open
    ensures dbs[hi].open[t].writable
    ensures dbs[hi].open[t].working == Performed(dbs[lo].quads, CallsOf(evs, t, lo + 1, hi))
    decreases hi
  {
    assert dbs[hi] == Step(dbs[hi - 1], evs[hi - 1]);
    if lo < hi - 1 {
      WorkingIs(dbs, evs, t, lo, hi - 1);
      var calls, ev := CallsOf(evs, t, lo + 1, hi - 1), evs[hi - 1];
      if ev.Do? && ev.id == t {
        OneMoreCall(dbs[lo].quads, calls, ev.act);
        assert CallsOf(evs, t, lo + 1, hi) == calls + [ev.act];
      } else {
        assert CallsOf(evs, t, lo + 1, hi) == calls;
      }
    }
  }

  /** A writer that no other writer overtakes always commits, and publishes exactly what the store held when
      it began with its own calls on top. */
  lemma UndisturbedCommit(dbs: seq<Db>, evs: seq<Event>, t: TxId, lo: nat, hi: nat)
    requires IsRun(dbs, evs) && lo < hi < |evs|
    requires evs[lo] == Begin(t, true) && evs[hi] == Commit(t)
    requires (forall m :: lo < m <= hi ==> t in dbs[m].open) && WriteCommits(dbs, evs, lo, hi) == {}
    ensures Writes(dbs[hi], evs[hi])
    ensures dbs[hi + 1].quads == Performed(dbs[lo].quads, CallsOf(evs, t, lo + 1, hi))
  {
    hide Performed, CallsOf;
    WriterCommitsIff(dbs, evs, t, lo, hi);
    WorkingIs(dbs, evs, t, lo, hi);
    assert dbs[hi + 1] == Step(dbs[hi], evs[hi]);
  }

  /** Calls that only insert add their quads. */
  lemma {:induction false} InsertsAdd(quads: set<Quad>, acts: seq<Act>)
    requires forall k :: 0 <= k < |acts| ==> acts[k].Insert?
    ensures Performed(quads, acts) == quads + set a | a in acts && a.Insert? :: a.quad
  {
    if acts != [] {
      var front, last := acts[..|acts| - 1], acts[|acts| - 1];
      InsertsAdd(quads, front);
      assert acts == front + [last];
    }
  }

  /** Calls that read or remove take their quads away. */
  lemma {:induction false} RemovesTake(quads: set<Quad>, acts: seq<Act>)
    requires forall k :: 0 <= k < |acts| ==> !acts[k].Insert?
    ensures Performed(quads, acts) == quads - set a | a in acts && a.Remove? :: a.quad
  {
    if acts != [] {
      var front, last := acts[..|acts| - 1], acts[|acts| - 1];
      RemovesTake(quads, front);
      assert acts == front + [last];
    }
  }
}
