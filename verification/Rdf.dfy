/** The RDF term model shared by the stores and the session: terms are kept verbatim and compared
    lexically.  A literal's text is either plain text or the JSON text of an item record; the JSON
    syntax itself is represented by the record it spells. */
module Rdf {

  datatype Option<+T> = None | Some(value: T)

  datatype NamedNode = NamedNode(iri: string)

  datatype BlankNode = BlankNode(id: string)

  /** A 32-bit float as far as an item's embedding needs it. */
  datatype Float32 = Finite(value: real) | NonFinite

  /** The metadata record of an item, as its JSON text carries it. */
  datatype Record = Record(payload: RecordPayload, source: string, derivedFrom: seq<nat>,
                           scopeHint: Option<string>, embedding: Option<seq<Float32>>)

  datatype RecordPayload =
    | TriplesTag
    | EventRecord(kind: string, body: string)
    | ChunkRecord(content: string, contentType: string)

  datatype Lexical = Text(text: string) | Json(record: Record)

  const XSD: string := "http://www.w3.org/2001/XMLSchema#"
  const XSD_STRING: NamedNode := NamedNode("http://www.w3.org/2001/XMLSchema#string")
  const RDF_LANG_STRING: NamedNode := NamedNode("http://www.w3.org/1999/02/22-rdf-syntax-ns#langString")

  /** A literal has a datatype, or a language tag (and then the datatype is `rdf:langString`). */
  datatype Literal = Typed(value: Lexical, datatypeIri: NamedNode) | Tagged(value: Lexical, tag: string)

  datatype Subject = NamedSubject(node: NamedNode) | BlankSubject(blank: BlankNode)

  datatype Term = NamedTerm(node: NamedNode) | BlankTerm(blank: BlankNode) | LiteralTerm(literal: Literal)

  datatype Graph = Named(name: NamedNode) | Default

  datatype Quad = Quad(subj: Subject, pred: NamedNode, obj: Term, graph: Graph)

  /** A quad pattern; `None` matches anything. */
  datatype Pattern = Pattern(subj: Option<Subject>, pred: Option<NamedNode>,
                             obj: Option<Term>, graph: Option<Graph>)

  predicate Fits<T(==)>(slot: Option<T>, x: T) {
    slot.None? || slot.value == x
  }

  predicate Matches(q: Quad, p: Pattern) {
    && Fits(p.subj, q.subj)
    && Fits(p.pred, q.pred)
    && Fits(p.obj, q.obj)
    && Fits(p.graph, q.graph)
  }

  /** What a store's pattern scan yields. */
  function Scan(store: set<Quad>, p: Pattern): set<Quad> {
    set q | q in store && Matches(q, p)
  }
}
