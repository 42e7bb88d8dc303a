/** The storage layout: one named graph per item for its triples, and one
    metadata quad per item in a graph of their own. */
module Layout {
  import opened Rdf
  import opened Items
  import Decimal

  const ITEM_PREFIX: string := "urn:semanticore:context:item:"
  const META_GRAPH: NamedNode := NamedNode("urn:semanticore:context:meta")
  const RECORD: NamedNode := NamedNode("urn:semanticore:context:record")

  function ItemGraph(id: ItemId): NamedNode {
    NamedNode(ITEM_PREFIX + Decimal.Print(id))
  }

  /** The id a graph name stands for.  Spellings such as "+1" and "01" parse as numbers but are
      refused. */
  function ParseItemGraph(graph: NamedNode): Option<ItemId> {
    if ITEM_PREFIX <= graph.iri then
      var n := graph.iri[|ITEM_PREFIX|..];
      match Decimal.ParseNat(n)
      case None => None
      case Some(id) => if Decimal.Print(id) == n then Some(id) else None
    else
      None
  }

  /** Graph names and ids are in bijection. */
  lemma GraphNameBijection(graph: NamedNode, id: ItemId)
    ensures ParseItemGraph(graph) == Some(id) <==> graph == ItemGraph(id)
  {
    var p := ITEM_PREFIX + Decimal.Print(id);
    assert p[|ITEM_PREFIX|..] == Decimal.Print(id);
    Decimal.ParsePrint(id);
    if ParseItemGraph(graph) == Some(id) {
      assert graph.iri == ITEM_PREFIX + graph.iri[|ITEM_PREFIX|..];
    }
  }

  /** The number after the prefix has one accepted spelling: digits with no superfluous zero. */
  lemma AcceptedSpellings(n: string)
    ensures ParseItemGraph(NamedNode(ITEM_PREFIX + n)).Some?
            <==> Decimal.IsDigits(n) && (n[0] == '0' ==> |n| == 1)
  {
    var g := NamedNode(ITEM_PREFIX + n);
    assert g.iri[|ITEM_PREFIX|..] == n;
    if ParseItemGraph(g).Some? {
      Decimal.PrintNoLeadingZero(ParseItemGraph(g).value);
    }
    if Decimal.IsDigits(n) && (n[0] == '0' ==> |n| == 1) {
      Decimal.DigitsArePrinted(n);
      assert Decimal.IsDigit(n[0]);
    }
  }

  lemma MetaGraphIsNoItem()
    ensures ParseItemGraph(META_GRAPH) == None
  {
    assert ITEM_PREFIX[24] == 'i';
    assert META_GRAPH.iri[24] == 'm';
  }

  function RecordOf(item: Item): Record {
    var payload := match item.payload
      case Triples(_) => TriplesTag
      case Event(kind, body) => EventRecord(kind, body)
      case Chunk(content, contentType) => ChunkRecord(content, contentType);
    var hint := match item.scopeHint
      case None => None
      case Some(s) => Some(s.Tag());
    Record(payload, item.provenance.source, item.provenance.derivedFrom, hint, item.embedding)
  }

  function InGraph(t: Quad, id: ItemId): Quad {
    Quad(t.subj, t.pred, t.obj, Named(ItemGraph(id)))
  }

  function RecordQuad(id: ItemId, text: Lexical): Quad {
    Quad(NamedSubject(ItemGraph(id)), RECORD, LiteralTerm(Typed(text, XSD_STRING)), Named(META_GRAPH))
  }

  function MetaQuad(id: ItemId, item: Item): Quad {
    RecordQuad(id, Json(RecordOf(item)))
  }

  /** The item's triples in its own graph, and its record. */
  function Encode(id: ItemId, item: Item): set<Quad> {
    (set t | t in TriplesOf(item) :: InGraph(t, id)) + {MetaQuad(id, item)}
  }

  /** Rebuild an item from its metadata text and the quads of its graph. */
  function Decode(text: Lexical, graphQuads: set<Quad>): Result<Item> {
    match text
    case Text(_) => Err(Corrupt)
    case Json(r) =>
      var payload := match r.payload
        case TriplesTag => Triples(set q | q in graphQuads :: q.(graph := Default))
        case EventRecord(kind, body) => Event(kind, body)
        case ChunkRecord(content, contentType) => Chunk(content, contentType);
      match r.scopeHint
      case None => Ok(Item(payload, Provenance(r.source, r.derivedFrom), None, r.embedding))
      case Some(tag) =>
        match Scope.FromTag(tag)
        case None => Err(Corrupt)
        case Some(s) => Ok(Item(payload, Provenance(r.source, r.derivedFrom), Some(s), r.embedding))
  }

  /** What decoding makes of a record: plain text and unknown scope names are corrupt; the payload's kind, the
      provenance, the embedding and the scope by its name are taken over. */
  lemma DecodeTells(text: Lexical, graphQuads: set<Quad>)
    ensures var r := Decode(text, graphQuads);
            var known := text.Json? && (text.record.scopeHint.None?
                                        || text.record.scopeHint.value in {"enduring", "major", "minor"});
            && (!known ==> r == Err(Corrupt))
            && (known ==>
                  var x := text.record;
                  && r.Ok? && r.value.provenance == Provenance(x.source, x.derivedFrom)
                  && r.value.embedding == x.embedding
                  && r.value.scopeHint == (if x.scopeHint.None? then None
                                           else if x.scopeHint.value == "enduring" then Some(Enduring)
                                           else if x.scopeHint.value == "major" then Some(Major)
                                           else Some(Minor))
                  && (x.payload.TriplesTag? ==>
                        r.value.payload == Triples(set q | q in graphQuads :: q.(graph := Default)))
                  && (x.payload.EventRecord? ==> r.value.payload == Event(x.payload.kind, x.payload.body))
                  && (x.payload.ChunkRecord? ==>
                        r.value.payload == Chunk(x.payload.content, x.payload.contentType)))
  {
    assert "enduring"[0] != "major"[0] && "enduring"[0] != "minor"[0] && "major"[1] != "minor"[1];
  }

  /** The item a stored quad belongs to, if any: by its graph, or as a metadata record. */
  function OwnerOf(q: Quad): Option<ItemId> {
    if q.graph.Default? then None
    else if q.graph.name != META_GRAPH then ParseItemGraph(q.graph.name)
    else if q.pred == RECORD && q.subj.NamedSubject? then ParseItemGraph(q.subj.node)
    else None
  }

  function GraphPattern(id: ItemId): Pattern {
    Pattern(None, None, None, Some(Named(ItemGraph(id))))
  }

  function RecordPattern(id: ItemId): Pattern {
    Pattern(Some(NamedSubject(ItemGraph(id))), Some(RECORD), None, Some(Named(META_GRAPH)))
  }

  const ALL_RECORDS: Pattern := Pattern(None, Some(RECORD), None, Some(Named(META_GRAPH)))

  /** The two scans of `delete`, removed from the store. */
  function DeleteItem(store: set<Quad>, id: ItemId): set<Quad> {
    store - (Scan(store, GraphPattern(id)) + Scan(store, RecordPattern(id)))
  }

  /** Deleting an item removes the quads it owns and no other quad. */
  lemma DeleteRemovesOwned(store: set<Quad>, id: ItemId)
    ensures DeleteItem(store, id) == set q | q in store && OwnerOf(q) != Some(id)
  {
    MetaGraphIsNoItem();
    forall q | q in store
      ensures q in DeleteItem(store, id) <==> OwnerOf(q) != Some(id)
    {
      GraphNameBijection(META_GRAPH, id);
      if q.graph.Named? { GraphNameBijection(q.graph.name, id); }
      if q.subj.NamedSubject? { GraphNameBijection(q.subj.node, id); }
    }
  }

  /** Every quad of an item is its own, whatever its triples say. */
  lemma EncodeOwned(id: ItemId, item: Item, q: Quad)
    requires q in Encode(id, item)
    ensures OwnerOf(q) == Some(id)
  {
    MetaGraphIsNoItem();
    GraphNameBijection(ItemGraph(id), id);
  }

  /** An item puts exactly one quad into the metadata graph, so no payload can pass for a record. */
  lemma OneRecordPerItem(id: ItemId, item: Item)
    ensures (set q | q in Encode(id, item) && q.graph == Named(META_GRAPH)) == {MetaQuad(id, item)}
  {
    MetaGraphIsNoItem();
    GraphNameBijection(ItemGraph(id), id);
  }

  /** The quads of the item's own graph are its triples. */
  lemma GraphHoldsTriples(id: ItemId, item: Item)
    ensures Scan(Encode(id, item), GraphPattern(id)) == set t | t in TriplesOf(item) :: InGraph(t, id)
  {
    MetaGraphIsNoItem();
    GraphNameBijection(ItemGraph(id), id);
  }

  lemma TagRoundTrip(s: Scope)
    ensures Scope.FromTag(s.Tag()) == Some(s)
  {
    assert "major"[1] != "minor"[1];
  }

  /** Decoding what was encoded gives the item back. */
  lemma DecodeEncode(id: ItemId, item: Item)
    requires WellFormed(item)
    ensures Decode(Json(RecordOf(item)), Scan(Encode(id, item), GraphPattern(id))) == Ok(item)
  {
    GraphHoldsTriples(id, item);
    if item.scopeHint.Some? { TagRoundTrip(item.scopeHint.value); }
    if item.payload.Triples? {
      var stored := set t | t in item.payload.quads :: InGraph(t, id);
      var back := set q | q in stored :: q.(graph := Default);
      forall t | t in item.payload.quads
        ensures t in back
      {
        assert InGraph(t, id).(graph := Default) == t;
      }
      assert back == item.payload.quads;
    }
  }
}
