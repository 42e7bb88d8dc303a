/** The Oxigraph adapter.  The store underneath turns well-formed XSD literals into native values and
    prints them back in canonical form; the adapter stores a term verbatim or not at all, so it looks like
    a plain set of quads compared lexically. */
module Oxigraph {
  import opened Rdf
  import Decimal

  /** What the wrapped store decides for itself: term validators, and the parsers and printers of the XSD
      datatypes other than boolean and integer (their native values are coded as integers). */
  datatype Foreign = Foreign(
    validIri: string -> bool,
    validLabel: string -> bool,
    validTag: string -> bool,
    parse: (string, string) -> Option<int>,
    render: (string, int) -> string)

  datatype Native = BoolValue(b: bool) | IntValue(n: int) | OtherValue(code: int)

  const BOOLEAN: string := "boolean"
  const INTEGER: string := "integer"

  /** Datatypes stored as native values and read back under the same name. */
  const PRIMITIVE: set<string> :=
    {BOOLEAN, "float", "double", INTEGER, "decimal", "dateTime", "time", "date", "gYearMonth", "gYear",
     "gMonthDay", "gDay", "gMonth", "duration", "yearMonthDuration", "dayTimeDuration"}

  /** Datatypes stored as integers and read back as `xsd:integer`. */
  const DERIVED_INTEGER: set<string> :=
    {"byte", "short", "int", "long", "unsignedByte", "unsignedShort", "unsignedInt", "unsignedLong",
     "positiveInteger", "negativeInteger", "nonPositiveInteger", "nonNegativeInteger"}

  /** The primitive datatype whose native values a datatype is stored as. */
  function PrimitiveOf(local: string): Option<string> {
    if local in PRIMITIVE then Some(local)
    else if local in DERIVED_INTEGER then Some(INTEGER)
    else if local == "dateTimeStamp" then Some("dateTime")
    else None
  }

  lemma DerivedDiffers(local: string)
    ensures PrimitiveOf(local).Some? && local !in PRIMITIVE ==> PrimitiveOf(local).value != local
  {
    assert INTEGER in PRIMITIVE && "dateTime" in PRIMITIVE;
  }

  // ---- the two concrete datatypes ---------------------------------------------------------------

  const MIN_I64: int := -0x8000_0000_0000_0000
  const MAX_I64: int := 0x7fff_ffff_ffff_ffff

  function ParseBool(s: string): Option<bool> {
    if s == "true" || s == "1" then Some(true)
    else if s == "false" || s == "0" then Some(false)
    else None
  }

  function PrintBool(b: bool): string {
    if b then "true" else "false"
  }

  /** A 64-bit integer: optional sign, then digits, within range. */
  function ParseInt(s: string): Option<int> {
    var negative := s != [] && s[0] == '-';
    var digits := if s != [] && (s[0] == '-' || s[0] == '+') then s[1..] else s;
    if !Decimal.IsDigits(digits) then None
    else
      var n: int := if negative then 0 - Decimal.ValueOf(digits) else Decimal.ValueOf(digits);
      if MIN_I64 <= n <= MAX_I64 then Some(n) else None
  }

  function PrintInt(n: int): string {
    if n < 0 then "-" + Decimal.Print(-n) else Decimal.Print(n)
  }

  /** Printing an integer in range and parsing it again gives it back. */
  lemma ParsePrintInt(n: int)
    requires MIN_I64 <= n <= MAX_I64
    ensures ParseInt(PrintInt(n)) == Some(n)
  {
    var m: nat := if n < 0 then -n else n;
    Decimal.PrintValue(m);
    assert Decimal.IsDigit(Decimal.Print(m)[0]);
    assert ("-" + Decimal.Print(m))[1..] == Decimal.Print(m);
  }

  /** Every 64-bit integer has exactly one accepted spelling. */
  lemma OneSpellingPerInteger(f: Foreign, s: string, n: int)
    requires ParseInt(s) == Some(n)
    ensures RoundTrips(f, Text(s), NamedNode(XSD + INTEGER)) <==> s == PrintInt(n)
  {
    LocalOf(INTEGER);
    assert INTEGER in PRIMITIVE;
    assert INTEGER != BOOLEAN by { assert INTEGER[0] != BOOLEAN[0]; }
  }

  /** Of the four spellings of a boolean the digits are refused and the words accepted. */
  lemma BooleansAccepted(f: Foreign, s: string)
    ensures RoundTrips(f, Text(s), NamedNode(XSD + BOOLEAN)) <==> s != "0" && s != "1"
  {
    LocalOf(BOOLEAN);
    assert BOOLEAN in PRIMITIVE;
    assert "0"[0] != "true"[0] && "1"[0] != "true"[0] && "0"[0] != "false"[0] && "1"[0] != "false"[0];
    assert "true"[0] != "false"[0];
  }

  lemma LocalOf(local: string)
    ensures XSD <= XSD + local && (XSD + local)[|XSD|..] == local
  {
  }

  /** A JSON text is no value of any XSD datatype stored natively. */
  function Parse(f: Foreign, primitive: string, value: Lexical): Option<Native> {
    match value
    case Json(_) => None
    case Text(s) =>
      if primitive == BOOLEAN then
        match ParseBool(s) case Some(b) => Some(BoolValue(b)) case None => None
      else if primitive == INTEGER then
        match ParseInt(s) case Some(n) => Some(IntValue(n)) case None => None
      else
        match f.parse(primitive, s) case Some(c) => Some(OtherValue(c)) case None => None
  }

  function Print(f: Foreign, primitive: string, v: Native): string {
    match v
    case BoolValue(b) => PrintBool(b)
    case IntValue(n) => PrintInt(n)
    case OtherValue(c) => f.render(primitive, c)
  }

  /** The adapter's test: the value parses to something that prints the same, or does not parse at all. */
  predicate RoundTrips(f: Foreign, value: Lexical, datatypeIri: NamedNode) {
    if !(XSD <= datatypeIri.iri) then true
    else
      var local := datatypeIri.iri[|XSD|..];
      match PrimitiveOf(local)
      case None => true
      case Some(primitive) =>
        match Parse(f, primitive, value)
        case None => true
        case Some(v) => primitive == local && Text(Print(f, primitive, v)) == value
  }

  /** Digits, with or without a sign, are a 64-bit integer iff their value is in range; nothing else is. */
  lemma ParseIntIs(s: string)
    ensures ParseInt(s).Some? ==> MIN_I64 <= ParseInt(s).value <= MAX_I64
    ensures Decimal.IsDigits(s) ==>
              ParseInt(s) == if Decimal.ValueOf(s) <= MAX_I64 then Some(Decimal.ValueOf(s)) else None
    ensures Decimal.IsDigits(s) ==> ParseInt("+" + s) == ParseInt(s)
    ensures Decimal.IsDigits(s) ==>
              ParseInt("-" + s) == if Decimal.ValueOf(s) <= -MIN_I64 then Some(0 - Decimal.ValueOf(s)) else None
    ensures ParseInt(s).Some? ==> Decimal.IsDigits(s) || (s != [] && s[0] in "+-" && Decimal.IsDigits(s[1..]))
  {
    hide Decimal.ValueOf;
    assert ("+" + s)[1..] == s && ("-" + s)[1..] == s;
    if Decimal.IsDigits(s) {
      assert Decimal.IsDigit(s[0]);
      assert s[0] != '-' && s[0] != '+';
    }
  }

  /** Values of the types derived from integer are stored as integers, so none of them is accepted. */
  lemma DerivedRefused(f: Foreign, local: string, s: string)
    requires local in {"byte", "short", "int", "long", "unsignedByte", "unsignedShort", "unsignedInt",
                       "unsignedLong", "positiveInteger", "negativeInteger", "nonPositiveInteger",
                       "nonNegativeInteger"}
    ensures RoundTrips(f, Text(s), NamedNode(XSD + local)) <==> ParseInt(s).None?
  {
    LocalOf(local);
    assert local in DERIVED_INTEGER;
    DerivedIsNotPrimitive(local);
    assert INTEGER != BOOLEAN by { assert INTEGER[0] != BOOLEAN[0]; }
  }

  lemma DerivedIsNotPrimitive(local: string)
    requires local in DERIVED_INTEGER
    ensures local !in PRIMITIVE && local != INTEGER
  {
  }

  /** A time stamp is stored as a date and time, so none that parses as one is accepted. */
  lemma StampsRefused(f: Foreign, s: string)
    ensures RoundTrips(f, Text(s), NamedNode(XSD + "dateTimeStamp")) <==> f.parse("dateTime", s).None?
  {
    LocalOf("dateTimeStamp");
    assert |"dateTimeStamp"| == 13 && "dateTimeStamp"[8] == 'S';
  }

  /** Every other datatype, inside or outside XSD, is kept as it is. */
  lemma RestAccepted(f: Foreign, value: Lexical, dt: NamedNode)
    requires forall local :: dt.iri == XSD + local ==>
               local !in {"boolean", "float", "double", "integer", "decimal", "dateTime", "time", "date",
                          "gYearMonth", "gYear", "gMonthDay", "gDay", "gMonth", "duration",
                          "yearMonthDuration", "dayTimeDuration", "byte", "short", "int", "long",
                          "unsignedByte", "unsignedShort", "unsignedInt", "unsignedLong", "positiveInteger",
                          "negativeInteger", "nonPositiveInteger", "nonNegativeInteger", "dateTimeStamp"}
    ensures RoundTrips(f, value, dt)
  {
    if XSD <= dt.iri { assert dt.iri == XSD + dt.iri[|XSD|..]; }
  }

  /** Of the other native datatypes exactly the texts that print back, and those that do not parse. */
  lemma OthersAccepted(f: Foreign, local: string, s: string)
    requires local in {"float", "double", "decimal", "dateTime", "time", "date", "gYearMonth", "gYear",
                       "gMonthDay", "gDay", "gMonth", "duration", "yearMonthDuration", "dayTimeDuration"}
    ensures RoundTrips(f, Text(s), NamedNode(XSD + local))
            <==> f.parse(local, s).None? || f.render(local, f.parse(local, s).value) == s
  {
    LocalOf(local);
    assert local in PRIMITIVE;
    assert local != INTEGER && local != BOOLEAN;
  }

  // ---- the canonicalising store -----------------------------------------------------------------

  datatype EncodedTerm =
    | EncodedNode(node: NamedNode)
    | EncodedBlank(blank: BlankNode)
    | EncodedNative(primitive: string, native: Native)
    | EncodedVerbatim(literal: Literal)

  datatype EncodedQuad = EncodedQuad(subj: Subject, pred: NamedNode, obj: EncodedTerm, graph: Graph)

  /** How the store encodes a literal it is given. */
  function EncodeLiteral(f: Foreign, l: Literal): EncodedTerm {
    if l.Tagged? || !(XSD <= l.datatypeIri.iri) then EncodedVerbatim(l)
    else
      match PrimitiveOf(l.datatypeIri.iri[|XSD|..])
      case None => EncodedVerbatim(l)
      case Some(primitive) =>
        match Parse(f, primitive, l.value)
        case None => EncodedVerbatim(l)
        case Some(v) => EncodedNative(primitive, v)
  }

  function EncodeTerm(f: Foreign, t: Term): EncodedTerm {
    match t
    case NamedTerm(n) => EncodedNode(n)
    case BlankTerm(b) => EncodedBlank(b)
    case LiteralTerm(l) => EncodeLiteral(f, l)
  }

  function DecodeTerm(f: Foreign, e: EncodedTerm): Term {
    match e
    case EncodedNode(n) => NamedTerm(n)
    case EncodedBlank(b) => BlankTerm(b)
    case EncodedNative(p, v) => LiteralTerm(Typed(Text(Print(f, p, v)), NamedNode(XSD + p)))
    case EncodedVerbatim(l) => LiteralTerm(l)
  }

  function EncodeQuad(f: Foreign, q: Quad): EncodedQuad {
    EncodedQuad(q.subj, q.pred, EncodeTerm(f, q.obj), q.graph)
  }

  function DecodeQuad(f: Foreign, e: EncodedQuad): Quad {
    Quad(e.subj, e.pred, DecodeTerm(f, e.obj), e.graph)
  }

  // ---- what the adapter accepts -----------------------------------------------------------------

  predicate NodeOk(f: Foreign, n: NamedNode) {
    f.validIri(n.iri)
  }

  predicate SubjectOk(f: Foreign, s: Subject) {
    match s
    case NamedSubject(n) => NodeOk(f, n)
    case BlankSubject(b) => f.validLabel(b.id)
  }

  /** The conversion of a literal succeeds. */
  predicate LiteralOk(f: Foreign, l: Literal) {
    match l
    case Tagged(_, tag) => f.validTag(tag)
    case Typed(value, dt) => dt != RDF_LANG_STRING && RoundTrips(f, value, dt) && NodeOk(f, dt)
  }

  predicate TermOk(f: Foreign, t: Term) {
    match t
    case NamedTerm(n) => NodeOk(f, n)
    case BlankTerm(b) => f.validLabel(b.id)
    case LiteralTerm(l) => LiteralOk(f, l)
  }

  predicate GraphOk(f: Foreign, g: Graph) {
    g.Named? ==> NodeOk(f, g.name)
  }

  predicate QuadOk(f: Foreign, q: Quad) {
    SubjectOk(f, q.subj) && NodeOk(f, q.pred) && TermOk(f, q.obj) && GraphOk(f, q.graph)
  }

  /** Verbatim or not at all: the test accepts a literal iff the store reads it back identical. */
  lemma AcceptedIffReadsBack(f: Foreign, value: Lexical, dt: NamedNode)
    ensures RoundTrips(f, value, dt)
            <==> DecodeTerm(f, EncodeLiteral(f, Typed(value, dt))) == LiteralTerm(Typed(value, dt))
  {
    if XSD <= dt.iri {
      var local := dt.iri[|XSD|..];
      assert dt.iri == XSD + local;
      var primitive := PrimitiveOf(local);
      if primitive.Some? {
        DerivedDiffers(local);
        LocalOf(primitive.value);
        if primitive.value != local {
          assert XSD + primitive.value != XSD + local by {
            LocalOf(local);
          }
        }
      }
    }
  }

  /** Every accepted quad reads back identical. */
  lemma ReadsBack(f: Foreign, q: Quad)
    requires QuadOk(f, q)
    ensures DecodeQuad(f, EncodeQuad(f, q)) == q
  {
    if q.obj.LiteralTerm? && q.obj.literal.Typed? {
      AcceptedIffReadsBack(f, q.obj.literal.value, q.obj.literal.datatypeIri);
    }
  }

  /** So distinct accepted quads never share an encoding. */
  lemma NeverAlias(f: Foreign, a: Quad, b: Quad)
    requires QuadOk(f, a) && QuadOk(f, b) && EncodeQuad(f, a) == EncodeQuad(f, b)
    ensures a == b
  {
    ReadsBack(f, a);
    ReadsBack(f, b);
  }

  /** Without the test, two spellings of one integer alias. */
  lemma UncheckedAlias(f: Foreign)
    ensures var dt := NamedNode(XSD + INTEGER);
            EncodeLiteral(f, Typed(Text("1"), dt)) == EncodeLiteral(f, Typed(Text("01"), dt))
  {
    LocalOf(INTEGER);
    assert INTEGER in PRIMITIVE;
    assert INTEGER != BOOLEAN by { assert INTEGER[0] != BOOLEAN[0]; }
    assert ParseInt("1") == Some(1) by { assert Decimal.ValueOf("1"[..0]) == 0; assert Decimal.IsDigits("1"); }
    assert ParseInt("01") == Some(1) by {
      assert "01"[..1] == "0" && "0"[..0] == [];
      assert Decimal.ValueOf("0") == 0;
      assert Decimal.IsDigits("01");
    }
  }

  // ---- patterns ---------------------------------------------------------------------------------

  predicate PatternOk(f: Foreign, p: Pattern) {
    && (p.subj.Some? ==> SubjectOk(f, p.subj.value))
    && (p.pred.Some? ==> NodeOk(f, p.pred.value))
    && (p.obj.Some? ==> TermOk(f, p.obj.value))
    && (p.graph.Some? ==> GraphOk(f, p.graph.value))
  }

  /** The store matches encoded terms. */
  predicate MatchesEncoded(f: Foreign, e: EncodedQuad, p: Pattern) {
    && Fits(p.subj, e.subj)
    && Fits(p.pred, e.pred)
    && (p.obj.Some? ==> EncodeTerm(f, p.obj.value) == e.obj)
    && Fits(p.graph, e.graph)
  }

  lemma TermReadsBack(f: Foreign, t: Term)
    requires TermOk(f, t)
    ensures DecodeTerm(f, EncodeTerm(f, t)) == t
  {
    if t.LiteralTerm? && t.literal.Typed? {
      AcceptedIffReadsBack(f, t.literal.value, t.literal.datatypeIri);
    }
  }

  lemma MatchesDecoded(f: Foreign, q: Quad, p: Pattern)
    requires QuadOk(f, q) && PatternOk(f, p)
    ensures MatchesEncoded(f, EncodeQuad(f, q), p) <==> Matches(q, p)
  {
    TermReadsBack(f, q.obj);
    if p.obj.Some? { TermReadsBack(f, p.obj.value); }
  }

  /** A bound term the adapter refuses matches no stored quad. */
  lemma RefusedMatchesNothing(f: Foreign, q: Quad, p: Pattern)
    requires QuadOk(f, q) && !PatternOk(f, p)
    ensures !Matches(q, p)
  {
  }

  // ---- the transaction --------------------------------------------------------------------------

  datatype Answer = Changed(flag: bool) | ReadOnlyError | SerializationError

  class Transaction {
    const f: Foreign
    const writable: bool
    var inner: set<EncodedQuad>

    /** The lexical set of quads the transaction stands for. */
    ghost function View(): set<Quad>
      reads this
    {
      set e | e in inner :: DecodeQuad(f, e)
    }

    /** Everything stored came through the adapter. */
    ghost predicate Valid()
      reads this
    {
      forall e :: e in inner ==> QuadOk(f, DecodeQuad(f, e)) && EncodeQuad(f, DecodeQuad(f, e)) == e
    }

    constructor (f: Foreign, writable: bool)
      ensures Valid() && View() == {} && this.f == f && this.writable == writable
    {
      this.f, this.writable, this.inner := f, writable, {};
    }

    lemma InView(q: Quad)
      requires Valid() && QuadOk(f, q)
      ensures q in View() <==> EncodeQuad(f, q) in inner
    {
      ReadsBack(f, q);
      if q in View() {
        var e :| e in inner && DecodeQuad(f, e) == q;
      }
    }

    lemma RefusedNotInView(q: Quad)
      requires Valid() && !QuadOk(f, q)
      ensures q !in View()
    {
    }

    /** As a lexical set would: the quad is added and the answer says whether it is new; a quad that would
        not read back is refused and nothing changes. */
    method Insert(q: Quad) returns (r: Answer)
      requires Valid()
      modifies this
      ensures Valid()
      ensures View() == if writable && QuadOk(f, q) then old(View()) + {q} else old(View())
      ensures r == if !writable then ReadOnlyError
                   else if !QuadOk(f, q) then SerializationError
                   else Changed(q !in old(View()))
    {
      hide EncodeTerm, DecodeTerm, QuadOk;
      if !writable { return ReadOnlyError; }
      if !QuadOk(f, q) { return SerializationError; }
      InView(q);
      ReadsBack(f, q);
      var e := EncodeQuad(f, q);
      if e in inner {
        assert View() == View() + {q};
        return Changed(false);
      }
      inner := inner + {e};
      assert View() == old(View()) + {q};
      r := Changed(true);
    }

    method Remove(q: Quad) returns (r: Answer)
      requires Valid()
      modifies this
      ensures Valid()
      ensures View() == if writable then old(View()) - {q} else old(View())
      ensures r == if !writable then ReadOnlyError else Changed(q in old(View()))
    {
      hide EncodeTerm, DecodeTerm, QuadOk;
      if !writable { return ReadOnlyError; }
      if !QuadOk(f, q) {
        RefusedNotInView(q);
        return Changed(false);
      }
      InView(q);
      ReadsBack(f, q);
      var e := EncodeQuad(f, q);
      if e !in inner { return Changed(false); }
      inner := inner - {e};
      assert View() == old(View()) - {q};
      r := Changed(true);
    }

    method Contains(q: Quad) returns (r: bool)
      requires Valid()
      ensures r == (q in View())
    {
      if !QuadOk(f, q) {
        RefusedNotInView(q);
        return false;
      }
      InView(q);
      r := EncodeQuad(f, q) in inner;
    }

    /** Exactly the quads of the lexical set that match. */
    method QuadsForPattern(p: Pattern) returns (rows: set<Quad>)
      requires Valid()
      ensures rows == Scan(View(), p)
    {
      hide EncodeTerm, DecodeTerm, QuadOk, Matches, MatchesEncoded, PatternOk;
      if !PatternOk(f, p) {
        forall q | q in View()
          ensures !Matches(q, p)
        {
          RefusedMatchesNothing(f, q, p);
        }
        return {};
      }
      rows := set e | e in inner && MatchesEncoded(f, e, p) :: DecodeQuad(f, e);
      forall e | e in inner
        ensures MatchesEncoded(f, e, p) <==> Matches(DecodeQuad(f, e), p)
      {
        MatchesDecoded(f, DecodeQuad(f, e), p);
      }
    }
  }
}
