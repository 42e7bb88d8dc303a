/** Scopes, items and session settings. */
module Items {
  import opened Rdf

  /** The three tiers, least durable first. */
  datatype Scope = Minor | Major | Enduring
  {
    function Rank(): (r: nat)
      ensures r <= 2
    {
      match this
      case Minor => 0
      case Major => 1
      case Enduring => 2
    }

    /** The next less durable scope, the target of a one-step demotion. */
    function Colder(): (c: Option<Scope>)
      ensures c.Some? ==> c.value.Rank() + 1 == Rank()
      ensures c.None? <==> this == Minor
    {
      match this
      case Enduring => Some(Major)
      case Major => Some(Minor)
      case Minor => None
    }

    function Tag(): string {
      match this
      case Enduring => "enduring"
      case Major => "major"
      case Minor => "minor"
    }

    static function FromTag(tag: string): Option<Scope> {
      if tag == "enduring" then Some(Enduring)
      else if tag == "major" then Some(Major)
      else if tag == "minor" then Some(Minor)
      else None
    }
  }

  /** One value per tier. */
  datatype Tiers<T> = Tiers(enduring: T, major: T, minor: T)
  {
    function Get(s: Scope): T {
      match s
      case Enduring => enduring
      case Major => major
      case Minor => minor
    }

    function Put(s: Scope, x: T): Tiers<T> {
      match s
      case Enduring => this.(enduring := x)
      case Major => this.(major := x)
      case Minor => this.(minor := x)
    }
  }

  type ItemId = nat

  datatype Provenance = Provenance(source: string, derivedFrom: seq<ItemId>)

  /** The triples of a payload are a set. */
  datatype Payload =
    | Triples(quads: set<Quad>)
    | Event(kind: string, body: string)
    | Chunk(content: string, contentType: string)

  datatype Item = Item(payload: Payload, provenance: Provenance, scopeHint: Option<Scope>,
                       embedding: Option<seq<Float32>>)

  datatype SessionError =
    | CapabilityShortfall
    | MissingProvenance
    | InvalidItem
    | UnknownItem(id: ItemId)
    | ScopeMismatch(id: ItemId, expected: Scope, found: Scope)
    | DurabilityViolation(from: Scope, to: Scope)
    | Corrupt
    | Storage

  datatype Result<+T> = Ok(value: T) | Err(error: SessionError)

  datatype EvictionPolicy =
    | Lru
    | Lfu
      /** The weight of a touch is multiplied by `decay` every clock tick: `decay` is the half-life's
          tick-th root of one half. */
    | RecencyWeighted(decay: real)

  datatype DemotionTarget = Drop | NextColder | OneStepThenDrop

  datatype PromotionConfig = PromotionConfig(afterEachQuery: bool, minorToMajorAccesses: nat,
                                             minorWindow: nat, majorToEnduringReferences: nat)

  datatype Settings = Settings(bounds: Tiers<Option<nat>>, policy: EvictionPolicy,
                               target: DemotionTarget, promotion: PromotionConfig)

  /** A decay factor strictly between 0 and 1, as every positive half-life gives. */
  predicate ValidSettings(cfg: Settings) {
    cfg.policy.RecencyWeighted? ==> 0.0 < cfg.policy.decay < 1.0
  }

  predicate IsWhitespace(c: char) {
    var n := c as int;
    0x9 <= n <= 0xD || n == 0x20 || n == 0x85 || n == 0xA0 || n == 0x1680 || 0x2000 <= n <= 0x200A
    || n == 0x2028 || n == 0x2029 || n == 0x202F || n == 0x205F || n == 0x3000
  }

  /** Empty once trimmed. */
  predicate IsBlank(s: string) {
    forall i :: 0 <= i < |s| ==> IsWhitespace(s[i])
  }

  function TriplesOf(item: Item): set<Quad> {
    match item.payload
    case Triples(quads) => quads
    case _ => {}
  }

  /** What `validate` checks of the item alone. */
  predicate WellFormed(item: Item) {
    && !IsBlank(item.provenance.source)
    && (forall t :: t in TriplesOf(item) ==> t.graph == Default)
    && (item.embedding.Some? ==> forall i :: 0 <= i < |item.embedding.value| ==> item.embedding.value[i].Finite?)
  }
}
