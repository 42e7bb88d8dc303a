/** The subsumption reasoner: asserted types closed upward under `rdfs:subClassOf`, by a worklist. */
module Subsumption {
  import opened Rdf

  const RDF_TYPE: NamedNode := NamedNode("http://www.w3.org/1999/02/22-rdf-syntax-ns#type")
  const SUB_CLASS_OF: NamedNode := NamedNode("http://www.w3.org/2000/01/rdf-schema#subClassOf")

  datatype Edge = Edge(source: NamedNode, target: NamedNode)

  predicate IsEdge(q: Quad, pred: NamedNode) {
    q.pred == pred && q.subj.NamedSubject? && q.obj.NamedTerm?
  }

  /** The links between named nodes that the store's quads with this predicate make, in any graph. */
  function EdgeSet(store: set<Quad>, pred: NamedNode): set<Edge> {
    set q | q in store && IsEdge(q, pred) :: Edge(q.subj.node, q.obj.node)
  }

  /** There is a link iff some quad between the two named nodes has the predicate, whatever its graph. */
  lemma LinksAre(store: set<Quad>, pred: NamedNode, a: NamedNode, c: NamedNode)
    ensures Edge(a, c) in EdgeSet(store, pred)
            <==> exists g :: Quad(NamedSubject(a), pred, NamedTerm(c), g) in store
  {
    if Edge(a, c) in EdgeSet(store, pred) {
      var q :| q in store && IsEdge(q, pred) && Edge(q.subj.node, q.obj.node) == Edge(a, c);
      assert q == Quad(NamedSubject(a), pred, NamedTerm(c), q.graph);
    }
    if g :| Quad(NamedSubject(a), pred, NamedTerm(c), g) in store {
      assert IsEdge(Quad(NamedSubject(a), pred, NamedTerm(c), g), pred);
    }
  }

  function AsSet(edges: seq<Edge>): set<Edge> {
    set e | e in edges
  }

  /** Those links as a list, in the store's order. */
  method Edges(store: set<Quad>, pred: NamedNode) returns (edges: seq<Edge>)
    ensures forall e :: e in edges <==> e in EdgeSet(store, pred)
  {
    edges := [];
    var todo := store;
    while todo != {}
      invariant todo <= store
      invariant forall e :: e in edges <==> e in EdgeSet(store - todo, pred)
    {
      var q :| q in todo;
      assert store - (todo - {q}) == (store - todo) + {q};
      todo := todo - {q};
      if IsEdge(q, pred) {
        edges := edges + [Edge(q.subj.node, q.obj.node)];
      }
    }
    assert store - todo == store;
  }

  // ---- reachability -----------------------------------------------------------------------------

  predicate IsPath(sub: set<Edge>, path: seq<NamedNode>) {
    path != [] && forall k :: 0 <= k < |path| - 1 ==> Edge(path[k], path[k + 1]) in sub
  }

  /** A chain of links leads from `a` to `c`, possibly the empty one. */
  ghost predicate Reaches(sub: set<Edge>, a: NamedNode, c: NamedNode) {
    exists path :: IsPath(sub, path) && path[0] == a && path[|path| - 1] == c
  }

  lemma ReachesSelf(sub: set<Edge>, a: NamedNode)
    ensures Reaches(sub, a, a)
  {
    assert IsPath(sub, [a]);
  }

  lemma ReachesTrans(sub: set<Edge>, a: NamedNode, b: NamedNode, c: NamedNode)
    requires Reaches(sub, a, b) && Reaches(sub, b, c)
    ensures Reaches(sub, a, c)
  {
    var p :| IsPath(sub, p) && p[0] == a && p[|p| - 1] == b;
    var q :| IsPath(sub, q) && q[0] == b && q[|q| - 1] == c;
    var r := p + q[1..];
    forall k | 0 <= k < |r| - 1
      ensures Edge(r[k], r[k + 1]) in sub
    {
      if k >= |p| - 1 {
        assert r[k] == q[k - (|p| - 1)] && r[k + 1] == q[k - (|p| - 1) + 1];
      }
    }
    assert IsPath(sub, r);
  }

  lemma ReachesStep(sub: set<Edge>, a: NamedNode, b: NamedNode, c: NamedNode)
    requires Reaches(sub, a, b) && Edge(b, c) in sub
    ensures Reaches(sub, a, c)
  {
    assert IsPath(sub, [b, c]);
    ReachesTrans(sub, a, b, c);
  }

  predicate Closed(sub: set<Edge>, types: set<NamedNode>) {
    forall e :: e in sub && e.source in types ==> e.target in types
  }

  lemma {:induction false} ClosedPath(sub: set<Edge>, types: set<NamedNode>, path: seq<NamedNode>, k: nat)
    requires Closed(sub, types) && IsPath(sub, path) && path[0] in types && k < |path|
    ensures path[k] in types
  {
    if k > 0 {
      ClosedPath(sub, types, path, k - 1);
      assert Edge(path[k - 1], path[k]) in sub;
    }
  }

  lemma ClosedReaches(sub: set<Edge>, types: set<NamedNode>, a: NamedNode, c: NamedNode)
    requires Closed(sub, types) && a in types && Reaches(sub, a, c)
    ensures c in types
  {
    var path :| IsPath(sub, path) && path[0] == a && path[|path| - 1] == c;
    ClosedPath(sub, types, path, |path| - 1);
  }

  // ---- the worklist -----------------------------------------------------------------------------

  function Targets(edges: seq<Edge>, c: NamedNode): (out: seq<NamedNode>)
    ensures forall o :: o in out <==> Edge(c, o) in edges
  {
    if edges == [] then []
    else
      assert edges == [edges[0]] + edges[1..];
      if edges[0].source == c then [edges[0].target] + Targets(edges[1..], c) else Targets(edges[1..], c)
  }

  function AllTargets(edges: seq<Edge>): set<NamedNode> {
    set e | e in edges :: e.target
  }

  /** Add a class and everything above it to a visited set that is shared with earlier classes.  It ends
      on cyclic hierarchies, and adds exactly what the class reaches. */
  method CloseUp(edges: seq<Edge>, ghost sub: set<Edge>, visited: set<NamedNode>, start: NamedNode)
    returns (types: set<NamedNode>)
    requires (forall e :: e in edges <==> e in sub) && Closed(sub, visited)
    ensures Closed(sub, types)
    ensures forall c :: c in types <==> c in visited || Reaches(sub, start, c)
  {
    types := visited;
    var todo := [start];
    ghost var universe := visited + {start} + AllTargets(edges);
    ReachesSelf(sub, start);
    while todo != []
      invariant visited <= types <= universe
      invariant forall o :: o in todo ==> o in universe && Reaches(sub, start, o)
      invariant forall c :: c in types ==> c in visited || Reaches(sub, start, c)
      invariant forall e :: e in sub && e.source in types ==> e.target in types || e.target in todo
      invariant start in types || start in todo
      decreases universe - types, |todo|
    {
      var c := todo[|todo| - 1];
      assert c in todo;
      ghost var was := todo;
      todo := todo[..|todo| - 1];
      assert forall o :: o in was <==> o in todo || o == c;
      if c !in types {
        types := types + {c};
        var above := Targets(edges, c);
        forall o | o in above
          ensures o in universe && Reaches(sub, start, o)
        {
          assert Edge(c, o) in edges;
          ReachesStep(sub, start, c, o);
        }
        todo := todo + above;
      }
    }
    forall c | Reaches(sub, start, c)
      ensures c in types
    {
      ClosedReaches(sub, types, start, c);
    }
  }

  /** The type is asserted of the individual, or a class above an asserted one. */
  ghost predicate HasType(asserted: set<Edge>, sub: set<Edge>, i: NamedNode, c: NamedNode) {
    exists a :: Edge(i, a) in asserted && Reaches(sub, a, c)
  }

  type Realization = map<NamedNode, set<NamedNode>>

  /** Every individual with an asserted type, and exactly its asserted and derived types. */
  ghost predicate Realizes(asserted: set<Edge>, sub: set<Edge>, r: Realization) {
    && (forall i :: i in r <==> exists a :: Edge(i, a) in asserted)
    && forall i, c :: i in r ==> (c in r[i] <==> HasType(asserted, sub, i, c))
  }

  lemma RealizeMore(done: set<Edge>, sub: set<Edge>, r: Realization, e: Edge, types: set<NamedNode>)
    requires Realizes(done, sub, r)
    requires forall c :: c in types <==> (e.source in r && c in r[e.source]) || Reaches(sub, e.target, c)
    ensures Realizes(done + {e}, sub, r[e.source := types])
  {
    hide Reaches;
    var r', done' := r[e.source := types], done + {e};
    forall i
      ensures i in r' <==> exists a :: Edge(i, a) in done'
    {
      if i in r' {
        if i == e.source {
          assert Edge(i, e.target) in done';
        } else {
          var a :| Edge(i, a) in done;
          assert Edge(i, a) in done';
        }
      }
    }
    forall i, c | i in r'
      ensures c in r'[i] <==> HasType(done', sub, i, c)
    {
      TypesMore(done, sub, r, e, i, c);
    }
  }

  lemma TypesMore(done: set<Edge>, sub: set<Edge>, r: Realization, e: Edge, i: NamedNode, c: NamedNode)
    requires Realizes(done, sub, r)
    ensures HasType(done + {e}, sub, i, c)
            <==> (i in r && c in r[i]) || (i == e.source && Reaches(sub, e.target, c))
  {
    hide Reaches;
    if HasType(done + {e}, sub, i, c) {
      var a :| Edge(i, a) in done + {e} && Reaches(sub, a, c);
      if Edge(i, a) in done {
        assert i in r && HasType(done, sub, i, c);
      }
    }
    if i in r && c in r[i] {
      var a :| Edge(i, a) in done && Reaches(sub, a, c);
      assert Edge(i, a) in done + {e};
    }
    if i == e.source && Reaches(sub, e.target, c) {
      assert Edge(i, e.target) in done + {e};
    }
  }

  lemma ClosedTypes(done: set<Edge>, sub: set<Edge>, r: Realization, i: NamedNode)
    requires Realizes(done, sub, r) && i in r
    ensures Closed(sub, r[i])
  {
    hide Reaches;
    forall e | e in sub && e.source in r[i]
      ensures e.target in r[i]
    {
      var a :| Edge(i, a) in done && Reaches(sub, a, e.source);
      ReachesStep(sub, a, e.source, e.target);
      assert HasType(done, sub, i, e.target);
    }
  }

  /** Each individual with the classes its asserted types reach. */
  method Realize(store: set<Quad>) returns (r: Realization)
    ensures Realizes(EdgeSet(store, RDF_TYPE), EdgeSet(store, SUB_CLASS_OF), r)
  {
    hide Realizes, Closed, Reaches, EdgeSet;
    var sub := Edges(store, SUB_CLASS_OF);
    var asserted := Edges(store, RDF_TYPE);
    ghost var links := EdgeSet(store, SUB_CLASS_OF);
    r := map[];
    RealizeNone(links);
    assert AsSet(asserted[..0]) == {};
    for k := 0 to |asserted|
      invariant Realizes(AsSet(asserted[..k]), links, r)
    {
      var e := asserted[k];
      var visited := if e.source in r then r[e.source] else {};
      ghost var done := AsSet(asserted[..k]);
      if e.source in r {
        ClosedTypes(done, links, r, e.source);
      } else {
        ClosedNone(links);
      }
      var types := CloseUp(sub, links, visited, e.target);
      RealizeMore(done, links, r, e, types);
      r := r[e.source := types];
      assert asserted[..k + 1] == asserted[..k] + [e];
      assert AsSet(asserted[..k + 1]) == done + {e};
    }
    assert asserted[..|asserted|] == asserted;
    assert AsSet(asserted) == EdgeSet(store, RDF_TYPE);
  }

  lemma RealizeNone(sub: set<Edge>)
    ensures Realizes({}, sub, map[])
  {
  }

  lemma ClosedNone(sub: set<Edge>)
    ensures Closed(sub, {})
  {
  }

  // ---- materialization --------------------------------------------------------------------------

  function TypeQuad(i: NamedNode, c: NamedNode): Quad {
    Quad(NamedSubject(i), RDF_TYPE, NamedTerm(c), Default)
  }

  function TypeQuads(r: Realization): set<Quad> {
    set i, c | i in r && c in r[i] :: TypeQuad(i, c)
  }

  /** The quad states a type that the store entails. */
  ghost predicate Entailed(store: set<Quad>, q: Quad) {
    && IsEdge(q, RDF_TYPE) && q.graph == Default
    && HasType(EdgeSet(store, RDF_TYPE), EdgeSet(store, SUB_CLASS_OF), q.subj.node, q.obj.node)
  }

  /** The derived quads are exactly the entailed type quads. */
  lemma DerivedAreEntailed(store: set<Quad>, r: Realization, q: Quad)
    requires Realizes(EdgeSet(store, RDF_TYPE), EdgeSet(store, SUB_CLASS_OF), r)
    ensures q in TypeQuads(r) <==> Entailed(store, q)
  {
    hide Reaches, EdgeSet;
    if Entailed(store, q) {
      var i, c := q.subj.node, q.obj.node;
      var a :| Edge(i, a) in EdgeSet(store, RDF_TYPE) && Reaches(EdgeSet(store, SUB_CLASS_OF), a, c);
      assert i in r && c in r[i] && q == TypeQuad(i, c);
    }
  }

  /** The store with all its entailed type quads. */
  ghost predicate IsMaterialized(store: set<Quad>, store': set<Quad>) {
    forall q :: q in store' <==> q in store || Entailed(store, q)
  }

  /** Write the derived types into the store; returns how many were new. */
  method Materialize(store: set<Quad>) returns (store': set<Quad>, added: nat)
    ensures IsMaterialized(store, store')
    ensures added == |store' - store|
  {
    hide Entailed, Realizes, TypeQuads;
    var r := Realize(store);
    var derived := TypeQuads(r);
    store', added := store, 0;
    var todo := derived;
    while todo != {}
      invariant todo <= derived && store' == store + (derived - todo)
      invariant added == |store' - store|
    {
      var q :| q in todo;
      todo := todo - {q};
      if q !in store' {
        assert (store' + {q}) - store == (store' - store) + {q};
        added := added + 1;
      }
      store' := store' + {q};
    }
    forall q
      ensures q in store' <==> q in store || Entailed(store, q)
    {
      DerivedAreEntailed(store, r, q);
    }
  }

  method Entails(store: set<Quad>, q: Quad) returns (b: bool)
    ensures b <==> q in store || Entailed(store, q)
  {
    hide Entailed, Realizes, TypeQuads;
    var r := Realize(store);
    DerivedAreEntailed(store, r, q);
    b := q in store || q in TypeQuads(r);
  }

  lemma PredicatesDiffer()
    ensures RDF_TYPE != SUB_CLASS_OF
  {
    assert RDF_TYPE.iri[18] != SUB_CLASS_OF.iri[18];
  }

  lemma SameLinks(store: set<Quad>, store': set<Quad>)
    requires IsMaterialized(store, store')
    ensures EdgeSet(store', SUB_CLASS_OF) == EdgeSet(store, SUB_CLASS_OF)
  {
    hide HasType;
    PredicatesDiffer();
    forall e
      ensures e in EdgeSet(store', SUB_CLASS_OF) <==> e in EdgeSet(store, SUB_CLASS_OF)
    {
      if e in EdgeSet(store', SUB_CLASS_OF) {
        var q :| q in store' && IsEdge(q, SUB_CLASS_OF) && e == Edge(q.subj.node, q.obj.node);
        assert !Entailed(store, q);
      }
    }
  }

  lemma AssertedAfter(store: set<Quad>, store': set<Quad>, i: NamedNode, a: NamedNode)
    requires IsMaterialized(store, store') && Edge(i, a) in EdgeSet(store', RDF_TYPE)
    ensures HasType(EdgeSet(store, RDF_TYPE), EdgeSet(store, SUB_CLASS_OF), i, a)
  {
    hide Reaches;
    var q :| q in store' && IsEdge(q, RDF_TYPE) && Edge(i, a) == Edge(q.subj.node, q.obj.node);
    if q in store {
      assert Edge(i, a) in EdgeSet(store, RDF_TYPE);
      ReachesSelf(EdgeSet(store, SUB_CLASS_OF), a);
    }
  }

  lemma EntailedAlreadyThere(store: set<Quad>, store': set<Quad>, q: Quad)
    requires IsMaterialized(store, store') && Entailed(store', q)
    ensures q in store'
  {
    hide Reaches, EdgeSet;
    SameLinks(store, store');
    var sub, i, c := EdgeSet(store, SUB_CLASS_OF), q.subj.node, q.obj.node;
    var a :| Edge(i, a) in EdgeSet(store', RDF_TYPE) && Reaches(sub, a, c);
    AssertedAfter(store, store', i, a);
    var b :| Edge(i, b) in EdgeSet(store, RDF_TYPE) && Reaches(sub, b, a);
    ReachesTrans(sub, b, a, c);
    assert Entailed(store, q);
  }

  /** Materializing is idempotent: a second run adds nothing. */
  lemma SecondRunAddsNothing(store: set<Quad>, once: set<Quad>, twice: set<Quad>)
    requires IsMaterialized(store, once) && IsMaterialized(once, twice)
    ensures twice == once && |twice - once| == 0
  {
    hide Entailed;
    forall q | q in twice
      ensures q in once
    {
      if q !in once { EntailedAlreadyThere(store, once, q); }
    }
    assert twice == once;
  }
}
