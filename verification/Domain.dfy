/** The vocabulary of the graph: entities, edges, provenance and the append-only facts. */
module Domain {
  import opened Json

  type EntityId = string
  type EdgeId = string
  type SpaceId = string
  type WriterId = string
  type PrincipalId = string
  type Vector = seq<real>

  /** A timestamp as stored: RFC 3339 text, which is what the store orders by. */
  type Time = string

  datatype Option<+T> = None | Some(value: T)

  datatype Error = InvalidInput | InvalidPolicy | NotFound | DuplicateFact | Constraint | UnknownKind

  datatype Result<+T> = Ok(value: T) | Err(error: Error) {
    predicate IsFailure() {
      Err?
    }
    function PropagateFailure<U>(): Result<U>
      requires Err?
    {
      Err(error)
    }
    function Extract(): T
      requires Ok?
    {
      value
    }
  }

  datatype Visibility = Private | SpaceWide | Public | OtherVisibility(name: string) {
    predicate Valid() {
      !OtherVisibility?
    }
  }

  datatype AssertMethod = UnsetMethod | Asserted | Inferred | OtherMethod(name: string)

  datatype Provenance = Provenance(
    asserter: string, how: AssertMethod, source: string, confidence: real, assertedAt: Option<Time>)

  function NormalizeProvenance(p: Provenance, ts: Time): Provenance {
    var how := if p.how.UnsetMethod? then Asserted else p.how;
    Provenance(
      p.asserter, how, p.source,
      if p.confidence == 0.0 && how.Asserted? then 1.0 else p.confidence,
      if p.assertedAt.None? then Some(ts) else p.assertedAt)
  }

  /** A json.RawMessage: no bytes at all, bytes that are not JSON, or a document. */
  datatype RawJson = Absent | Malformed | Doc(value: Json)

  datatype ExternalId = ExternalId(scheme: string, value: string) {
    function Key(): string {
      scheme + ":" + value
    }
  }

  function Keys(xs: seq<ExternalId>): seq<string> {
    seq(|xs|, i requires 0 <= i < |xs| => xs[i].Key())
  }

  datatype Embedding = Embedding(model: string, field: string, vector: Vector)

  datatype Entity = Entity(
    id: EntityId, typ: string, props: RawJson, externalIds: seq<ExternalId>, prov: Provenance,
    space: SpaceId, owner: PrincipalId, visibility: Visibility, embeddings: seq<Embedding>)

  datatype Edge = Edge(
    id: EdgeId, predicate_: string, from: EntityId, to: EntityId, props: RawJson, prov: Provenance,
    space: SpaceId, owner: PrincipalId, visibility: Visibility)

  const ALLOWED_TYPES: set<string> := {
    "Thing", "Movie", "TVSeries", "TVEpisode", "VideoObject", "Clip", "Person", "Organization",
    "Event", "CreativeWork", "Product", "Book", "Article", "Note"
  }

  const ALLOWED_PREDICATES: set<string> := {
    "about", "mentions", "subjectOf", "hasPart", "isPartOf", "actor", "director", "author",
    "creator", "about?", "sameAs", "sameAs?", "relatedTo"
  }

  /** What a fact records. Retractions carry their subject in the fact row only. */
  datatype Payload =
    | EntityAsserted(entity: Entity)
    | EntityRetracted
    | EdgeAsserted(edge: Edge)
    | EdgeRetracted
    | EntityMerged(keep: EntityId, drop: EntityId)

  datatype Fact = Fact(
    subject: string, writer: WriterId, dedupeKey: string, payload: Payload, actor: PrincipalId, createdAt: Time)

  /** The JSON round trip of a property bag: absent bytes marshal to the text `null`. */
  function WireProps(p: RawJson): RawJson {
    if p.Absent? then Doc(JNull) else p
  }

  /** What unmarshalling the logged payload gives back. */
  function Wire(p: Payload): Payload {
    match p
    case EntityAsserted(e) => EntityAsserted(e.(props := WireProps(e.props)))
    case EdgeAsserted(ed) => EdgeAsserted(ed.(props := WireProps(ed.props)))
    case _ => p
  }

  /** The "name" property, when the bag is an object holding a string there. */
  function ExtractName(props: RawJson): string {
    if props.Doc? && props.value.JObj? && "name" in props.value.m && props.value.m["name"].JStr?
    then props.value.m["name"].s
    else ""
  }

  /** It is the text at that path, and empty exactly when there is none but the empty one. */
  lemma ExtractNameIs(props: RawJson)
    ensures forall s | props.Doc? && At(props.value, ["name"]) == Here(JStr(s)) :: ExtractName(props) == s
    ensures ExtractName(props) != "" ==> props.Doc? && At(props.value, ["name"]) == Here(JStr(ExtractName(props)))
  {
    if props.Doc? {
      OneStep(props.value, "name");
    }
  }
}
