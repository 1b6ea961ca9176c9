/** The record types of the runtime. Fields that no modelled operation reads are left out. */
module Domain {
  import opened Prelude
  import opened Encoding

  type Time = int

  /** A JSON value; a payload's Patch Panel and registry metadata appear already parsed. */
  datatype Value =
    | Null
    | Bool(truth: bool)
    | Num(number: int)
    | Str(text: string)
    | List(items: seq<Value>)
    | Obj(fields: map<string, Value>)
    | PanelValue(panel: PatchPanel)
    | MetadataValue(metadata: RegistryMetadata)

  type Json = map<string, Value>

  function OptStr(o: Option<string>): Value {
    if o.Some? then Str(o.value) else Null
  }

  /** `payload.get(key)` */
  function Get(payload: Json, key: string): Value {
    if key in payload then payload[key] else Null
  }

  // ---- Patch Panels ------------------------------------------------------------------------

  datatype NodeType = Source | Worker | Validator | Learning | Sink | Subworkflow
  datatype Direction = Input | Output

  datatype Rule =
    | ArtifactStructure
    | RequiredArtifacts(minCount: int, roles: set<string>)
    | OtherRule

  datatype AcceptanceContract = AcceptanceContract(id: string, rules: seq<Rule>)
  datatype Bucket = Bucket(id: string, acceptanceContract: Option<string>)
  datatype Node = Node(id: string, kind: NodeType, validatorKind: Option<string>,
    inputPipes: seq<string>, outputPipes: seq<string>,
    acceptanceContract: Option<string>, config: Json)
  datatype Edge = Edge(from: string, to: string, on: string)
  datatype PipeBinding = PipeBinding(bucket: string, node: Option<string>, direction: Option<Direction>)

  datatype PatchPanel = PatchPanel(id: string, version: string,
    buckets: seq<Bucket>, nodes: seq<Node>, edges: seq<Edge>,
    pipeBindings: map<string, PipeBinding>, contracts: seq<AcceptanceContract>)
  {
    function WorkflowVersion(): string { Version(id, version) }

    ghost predicate Declares(bucket: string) {
      exists b :: b in buckets && b.id == bucket
    }
  }

  datatype RegistryStatus = Draft | Review | Approved | Published | Archived | Superseded
  datatype RegistryMetadata = RegistryMetadata(name: string, tags: seq<string>, inputTypes: seq<string>,
    outputTypes: seq<string>, riskLevel: Option<string>, status: RegistryStatus)

  // ---- cards, leases, artifacts and events ------------------------------------------------

  datatype Card = Card(id: Uuid, workflowVersion: string, currentBucket: string,
    payload: Json, metadata: Json, createdAt: Time)

  datatype Lease = Lease(id: Uuid, cardId: Uuid, nodeId: string, workerId: string,
    inputPipe: string, claimedAt: Time, expiresAt: Time, releasedAt: Option<Time>)
  {
    /** Unreleased and not yet expired at clock reading `now`. */
    predicate Active(now: Time) { releasedAt.None? && expiresAt > now }
  }

  datatype ArtifactReference = ArtifactReference(id: Uuid, cardId: Uuid, eventId: Option<Uuid>,
    storageRef: string, contentHash: string, contentType: string, sizeBytes: int,
    metadata: Json, createdAt: Time)

  datatype CardEvent = CardEvent(id: Uuid, cardId: Uuid, eventType: string,
    actorId: Option<string>, payload: Json, occurredAt: Time)

  // ---- the events the runtimes write -------------------------------------------------------

  /** The event types by which a card's history tells where it is, and those that open and close leases. */
  const MOVEMENT_EVENTS: set<string> := {"card_created", "artifact_submitted", "card_validated", "card_moved"}
  const LEASE_EVENTS: set<string> := {"card_claimed", "artifact_submitted", "lease_released", "lease_expired"}

  function CreatedEvent(id: Uuid, card: Card, panel: PatchPanel, now: Time): CardEvent {
    CardEvent(id, card.id, "card_created", None,
      map["patch_panel_id" := Str(panel.id), "version" := Str(panel.version),
          "bucket" := Str(card.currentBucket)], now)
  }

  function ClaimedEvent(id: Uuid, lease: Lease, now: Time): CardEvent {
    CardEvent(id, lease.cardId, "card_claimed", Some(lease.workerId),
      map["lease_id" := Str(Text(lease.id)), "input_pipe" := Str(lease.inputPipe)], now)
  }

  function RefValue(ref: ArtifactReference): Value {
    Obj(map["id" := Str(Text(ref.id)), "storage_ref" := Str(ref.storageRef),
            "content_hash" := Str(ref.contentHash), "content_type" := Str(ref.contentType),
            "size_bytes" := Num(ref.sizeBytes), "metadata" := Obj(ref.metadata)])
  }

  function SubmittedEvent(id: Uuid, lease: Lease, refs: seq<ArtifactReference>,
    outputPipe: string, destination: string, now: Time): CardEvent
  {
    CardEvent(id, lease.cardId, "artifact_submitted", Some(lease.workerId),
      map["artifact_ids" := List(seq(|refs|, i requires 0 <= i < |refs| => Str(Text(refs[i].id)))),
          "artifact_refs" := List(seq(|refs|, i requires 0 <= i < |refs| => RefValue(refs[i]))),
          "lease_id" := Str(Text(lease.id)), "output_pipe" := Str(outputPipe),
          "destination_bucket" := Str(destination)], now)
  }

  function RenewedEvent(id: Uuid, lease: Lease, now: Time): CardEvent {
    CardEvent(id, lease.cardId, "lease_renewed", Some(lease.workerId),
      map["lease_id" := Str(Text(lease.id)), "expires_at" := Num(lease.expiresAt)], now)
  }

  function ReleasedEvent(id: Uuid, lease: Lease, actorId: Option<string>, now: Time): CardEvent {
    CardEvent(id, lease.cardId, "lease_released", Some(OrElse(actorId, lease.workerId)),
      map["lease_id" := Str(Text(lease.id))], now)
  }

  function ExpiredEvent(id: Uuid, lease: Lease, now: Time): CardEvent {
    CardEvent(id, lease.cardId, "lease_expired", Some(lease.workerId),
      map["lease_id" := Str(Text(lease.id))], now)
  }

  /** Where a validator sends a card: the chosen exit and the bucket it is bound to. */
  datatype Route = Route(pipe: string, bucket: string)

  /** The payload of a validation: verdict, then the caller's entries over it, then the route over both. */
  function ValidatedPayload(verdict: Json, payload: Json, route: Option<Route>): Json {
    if route.None? then verdict + payload
    else verdict + payload + map["output_pipe" := Str(route.value.pipe),
                                 "destination_bucket" := Str(route.value.bucket)]
  }

  function Verdict(accepted: bool, reason: Option<string>): Json {
    map["accepted" := Bool(accepted), "reason" := OptStr(reason)]
  }

  function ValidatedEvent(id: Uuid, cardId: Uuid, validatorId: string, payload: Json, now: Time): CardEvent {
    CardEvent(id, cardId, "card_validated", Some(validatorId), payload, now)
  }

  function MovedEvent(id: Uuid, card: Card, toBucket: string, actorId: Option<string>,
    reason: Option<string>, now: Time): CardEvent
  {
    CardEvent(id, card.id, "card_moved", actorId,
      map["from_bucket" := Str(card.currentBucket), "to_bucket" := Str(toBucket),
          "reason" := OptStr(reason)], now)
  }

  /** `[ref.model_copy(update={"card_id": .., "event_id": ..}) for ref in refs]` */
  function Stored(refs: seq<ArtifactReference>, cardId: Uuid, eventId: Uuid): (stored: seq<ArtifactReference>)
    ensures |stored| == |refs|
    ensures forall i :: 0 <= i < |refs| ==> stored[i] == refs[i].(cardId := cardId, eventId := Some(eventId))
  {
    seq(|refs|, i requires 0 <= i < |refs| => refs[i].(cardId := cardId, eventId := Some(eventId)))
  }

  /** The artifact table after writing `refs` in order; a repeated id keeps the last one. */
  function Put(table: map<Uuid, ArtifactReference>, refs: seq<ArtifactReference>): map<Uuid, ArtifactReference> {
    if refs == [] then table
    else Put(table, refs[..|refs| - 1])[refs[|refs| - 1].id := refs[|refs| - 1]]
  }
}
