/** The session's storage step carried out by the stores themselves: a write transaction that nobody else
    overtakes commits, and leaves the store with exactly the set of quads that the step names. */
module Transactions {
  import opened Rdf
  import opened Items
  import Layout
  import MemStores
  import Oxigraph

  /** Insert quads into the reference store in one transaction. */
  method InsertAll(store: MemStores.MemStore, quads: set<Quad>) returns (ok: bool)
    modifies store
    ensures ok && store.quads == old(store.quads) + quads && store.version == old(store.version) + 1
  {
    var tx := store.BeginWrite();
    var todo := quads;
    while todo != {}
      modifies tx
      invariant todo <= quads && tx.working == store.quads + (quads - todo)
    {
      var q :| q in todo;
      var _ := tx.Insert(q);
      todo := todo - {q};
    }
    ok := tx.Commit();
  }

  /** Delete every quad of an item from the reference store in one transaction: its graph and its record. */
  method DeleteAll(store: MemStores.MemStore, id: ItemId) returns (ok: bool)
    modifies store
    ensures ok && store.quads == Layout.DeleteItem(old(store.quads), id) && store.version == old(store.version) + 1
  {
    var tx := store.BeginWrite();
    var graph := tx.QuadsForPattern(Layout.GraphPattern(id));
    var record := tx.QuadsForPattern(Layout.RecordPattern(id));
    var quads := graph.rows + record.rows;
    var todo := quads;
    while todo != {}
      modifies tx
      invariant todo <= quads && tx.working == store.quads - (quads - todo)
    {
      var q :| q in todo;
      var _ := tx.Remove(q);
      todo := todo - {q};
    }
    ok := tx.Commit();
  }

  /** The same inserts through the adapter.  They are all accepted, or the caller rolls back. */
  method InsertThrough(tx: Oxigraph.Transaction, quads: set<Quad>) returns (ok: bool)
    requires tx.Valid() && tx.writable
    modifies tx
    ensures tx.Valid()
    ensures ok <==> forall q :: q in quads ==> Oxigraph.QuadOk(tx.f, q)
    ensures ok ==> tx.View() == old(tx.View()) + quads
  {
    hide Oxigraph.QuadOk;
    var todo := quads;
    while todo != {}
      invariant tx.Valid() && todo <= quads && tx.View() == old(tx.View()) + (quads - todo)
      invariant forall q :: q in quads - todo ==> Oxigraph.QuadOk(tx.f, q)
    {
      var q :| q in todo;
      var r := tx.Insert(q);
      if r.SerializationError? { return false; }
      todo := todo - {q};
    }
    ok := true;
  }

  /** The same deletion through the adapter. */
  method DeleteThrough(tx: Oxigraph.Transaction, id: ItemId)
    requires tx.Valid() && tx.writable
    modifies tx
    ensures tx.Valid() && tx.View() == Layout.DeleteItem(old(tx.View()), id)
  {
    hide Oxigraph.QuadOk;
    var graph := tx.QuadsForPattern(Layout.GraphPattern(id));
    var record := tx.QuadsForPattern(Layout.RecordPattern(id));
    var quads := graph + record;
    var todo := quads;
    while todo != {}
      invariant tx.Valid() && todo <= quads && tx.View() == old(tx.View()) - (quads - todo)
    {
      var q :| q in todo;
      var _ := tx.Remove(q);
      todo := todo - {q};
    }
  }
}
