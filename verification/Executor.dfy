/**
 Sources and sinks on the in-memory runtime (nodes/executor.py), with the publication sink and
 its history gate. An operation that raises half-way keeps what its earlier runtime calls did.
 */
module Executor {
  import opened Prelude
  import opened Encoding
  import opened Domain
  import opened Service
  import opened PanelValidator
  import opened Requests
  import opened Workflows
  import opened MemoryRuntime
  import M = Memory
  import X = ExactlyOnce
  import R = Registry

  /** What a call answers is of the type its request returns. */
  lemma StepFits(s: M.Mem, c: Call)
    ensures M.Step(s, c).result.Ok? ==> Fits(c.req, M.Step(s, c).result.value)
  {
    X.PerformAnswersItsType(s, c);
  }

  /** `f"{key}{suffix}" if key else None` */
  function Derived(key: Option<string>, suffix: string): Option<string> {
    if Truthy(key) then Some(key.value + suffix) else None
  }

  // ---- sources -----------------------------------------------------------------------------

  /** How far a composite operation got: its answer, or nothing yet when it was cut short. */
  datatype Progress<T> = Progress(after: M.Mem, result: Option<Result<T, Error>>)

  function SourceNote(sourceId: string): Json { map["source_id" := Str(sourceId)] }

  /** `execute_source`, cut short after `cut` runtime calls (two make it complete). */
  ghost function SourceRun(s: M.Mem, panel: PatchPanel, sourceId: string, payload: Json, metadata: Json,
    key: Option<string>, now: Time, base: Uuid, cut: nat): Progress<Card>
  {
    match NodeOf(panel.nodes, sourceId, Source)
    case Err(e) => Progress(s, Some(Err(e)))
    case Ok(node) =>
      if cut == 0 then Progress(s, None)
      else
        var create := Call(CreateCard(panel.id, payload, metadata, key), now, base);
        var created := M.Step(s, create);
        StepFits(s, create);
        match created.result
        case Err(e) => Progress(created.after, Some(Err(e)))
        case Ok(reply) =>
          if cut == 1 then Progress(created.after, None)
          else
            var noted := M.Step(created.after, Call(RecordEvent(reply.card.id, "source_executed", Some(node.id),
              SourceNote(node.id), Derived(key, ":source")), now, base + 2));
            Progress(noted.after, Some(if noted.result.Ok? then Ok(reply.card) else Err(noted.result.error)))
  }

  // ---- sinks -------------------------------------------------------------------------------

  predicate Approves(e: CardEvent, validator: string, exit: string) {
    && e.eventType == "card_validated" && e.actorId == Some(validator)
    && Get(e.payload, "accepted") == Bool(true) && Get(e.payload, "output_pipe") == Str(exit)
  }

  /** `any(.. for event in history)` */
  predicate Approved(history: seq<CardEvent>, validator: string, exit: string) {
    exists i :: 0 <= i < |history| && Approves(history[i], validator, exit)
  }

  /** `_ensure_registry_publication_history`: the history holds both approvals. */
  predicate PublicationGate(history: seq<CardEvent>) {
    && Approved(history, "topological_validator", "topology_valid")
    && Approved(history, "governance_reviewer", "proposal_approved")
  }

  predicate IsShadow(card: Card) { TruthyValue(Get(card.metadata, "shadow")) }

  predicate AllowsShadows(node: Node) { TruthyValue(Get(node.config, "allow_shadow_egress")) }

  /** The buckets of the sink's bound input pipes hold the card, if it has any. */
  predicate AtSink(panel: PatchPanel, node: Node, card: Card) {
    (exists p :: p in node.inputPipes && p in panel.pipeBindings) ==>
      exists p :: p in node.inputPipes && p in panel.pipeBindings && panel.pipeBindings[p].bucket == card.currentBucket
  }

  /** `_egress_contract_type` */
  function EgressType(node: Node): Value {
    match Get(node.config, "egress_contract")
    case Obj(fields) => Get(fields, "type")
    case _ => Null
  }

  predicate Publishes(node: Node) { EgressType(node) == Str("registry_publication") }

  const AUTHORITY_SINK := "authority_provisioner_sink"

  function PublicationNotes(card: Card, sinkId: string): Json {
    map["proposal_card_id" := Str(Text(card.id)), "published_by_sink" := Str(sinkId),
        "genesis_intent_id" := Get(card.payload, "genesis_intent_id")]
  }

  /** The runtime and the registry, which outlive their services. */
  datatype Studio = Studio(mem: M.Mem, shelf: R.Shelf)

  datatype Done<T> = Done(after: Studio, result: Result<T, Error>)

  datatype SinkResult = SinkResult(event: CardEvent, reference: Option<string>)

  function PublishedDetails(details: RegistryMetadata): RegistryMetadata { details.(status := Published) }

  /** The registry with the entry, unless its panel version has one already. */
  function WithEntry(shelf: R.Shelf, added: R.Entry): R.Shelf {
    if R.EntryOf(shelf, added.panelId, added.version).Some? then shelf else R.Shelve(shelf, added)
  }

  /** The publication branch of `_execute_configured_sink`. */
  ghost function Publish(st: Studio, node: Node, card: Card, reference: Option<string>, base: Uuid): Done<Option<string>> {
    if !(card.id in st.mem.events && PublicationGate(st.mem.events[card.id])) then Done(st, Err(Conflict))
    else
      match (Get(card.payload, "candidate_definition"), Get(card.payload, "registry_metadata"))
      case (PanelValue(candidate), MetadataValue(details)) =>
        var registered := M.Register(st.mem, candidate);
        if registered.result.Err? then Done(st, Err(registered.result.error))
        else
          var entry := R.EntryOf(st.shelf, candidate.id, candidate.version);
          var added := R.EntryFor(base, candidate, PublishedDetails(details), PublicationNotes(card, node.id));
          Done(Studio(registered.after, WithEntry(st.shelf, added)),
                   Ok(Some(OrElse(reference, Text(if entry.Some? then entry.value.id else added.id)))))
      case _ => Done(st, Err(Malformed))
  }

  /** A publication past its gate, of a payload that parses. */
  ghost function PublishedDone(st: Studio, candidate: PatchPanel, added: R.Entry, reference: Option<string>): Done<Option<string>> {
    var registered, existing := M.Register(st.mem, candidate), R.EntryOf(st.shelf, added.panelId, added.version);
    if registered.result.Err? then Done(st, Err(registered.result.error))
    else Done(Studio(registered.after, WithEntry(st.shelf, added)),
              Ok(Some(OrElse(reference, Text(if existing.Some? then existing.value.id else added.id)))))
  }

  lemma ParsedPublication(st: Studio, node: Node, card: Card, reference: Option<string>, base: Uuid,
    candidate: PatchPanel, details: RegistryMetadata)
    requires card.id in st.mem.events && PublicationGate(st.mem.events[card.id])
    requires Get(card.payload, "candidate_definition") == PanelValue(candidate)
    requires Get(card.payload, "registry_metadata") == MetadataValue(details)
    ensures Publish(st, node, card, reference, base) ==
      PublishedDone(st, candidate, R.EntryFor(base, candidate, PublishedDetails(details), PublicationNotes(card, node.id)), reference)
  {
  }

  /** `_execute_configured_sink` of an executor with no authorization repository. */
  ghost function ConfiguredSink(st: Studio, hasRegistry: bool, node: Node, card: Card, reference: Option<string>,
    base: Uuid): Done<Option<string>>
  {
    if node.id == AUTHORITY_SINK then Done(st, Err(InvalidOperation))
    else if !Publishes(node) then Done(st, Ok(reference))
    else if !hasRegistry then Done(st, Err(InvalidOperation))
    else Publish(st, node, card, reference, base)
  }

  function SinkNote(node: Node, reference: Option<string>): Json {
    map["sink_id" := Str(node.id), "external_reference" := OptStr(reference),
        "registry_entry_id" := if Publishes(node) then OptStr(reference) else Null,
        "egress_contract" := Get(node.config, "egress_contract"),
        "egress_idempotency" := Get(node.config, "egress_idempotency")]
  }

  /** What is checked before a sink does anything. */
  function SinkChecks(cards: map<Uuid, Card>, panel: PatchPanel, cardId: Uuid, sinkId: string): (r: Result<Node, Error>)
    ensures r.Ok? ==> cardId in cards && r.value in panel.nodes && r.value.id == sinkId
    ensures r.Ok? ==> IsShadow(cards[cardId]) ==> AllowsShadows(r.value)
  {
    match NodeOf(panel.nodes, sinkId, Sink)
    case Err(e) => Err(e)
    case Ok(node) =>
      if cardId !in cards then Err(NotFound)
      else if IsShadow(cards[cardId]) && !AllowsShadows(node) then Err(InvalidOperation)
      else if !AtSink(panel, node, cards[cardId]) then Err(Conflict)
      else Ok(node)
  }

  function SinkRecord(cardId: Uuid, node: Node, reference: Option<string>, key: Option<string>): Request {
    RecordEvent(cardId, "sink_executed", Some(node.id), SinkNote(node, reference), key)
  }

  /** `execute_sink`. Its last call can refuse a key stored by another operation, after the
      publication has happened. */
  ghost function SinkRun(st: Studio, panel: PatchPanel, hasRegistry: bool, cardId: Uuid, sinkId: string,
    reference: Option<string>, key: Option<string>, now: Time, base: Uuid): Done<SinkResult>
  {
    match SinkChecks(st.mem.cards, panel, cardId, sinkId)
    case Err(e) => Done(st, Err(e))
    case Ok(node) =>
      var done := ConfiguredSink(st, hasRegistry, node, st.mem.cards[cardId], reference, base);
      match done.result
      case Err(e) => Done(done.after, Err(e))
      case Ok(made) =>
        var c := Call(SinkRecord(cardId, node, made, key), now, base + 1);
        var o := M.Step(done.after.mem, c);
        StepFits(done.after.mem, c);
        Done(Studio(o.after, done.after.shelf),
                 match o.result case Err(e) => Err(e) case Ok(reply) => Ok(SinkResult(reply.event, made)))
  }

  // ---- the service -------------------------------------------------------------------------

  class NodeExecutor {
    const patchPanel: PatchPanel
    const runtime: InMemoryCardRuntime
    const registry: R.InMemoryPatchPanelRegistry?

    constructor (patchPanel: PatchPanel, runtime: InMemoryCardRuntime, registry: R.InMemoryPatchPanelRegistry?)
      ensures this.patchPanel == patchPanel && this.runtime == runtime && this.registry == registry
    {
      this.patchPanel, this.runtime, this.registry := patchPanel, runtime, registry;
    }

    ghost function Contents(): Studio
      reads runtime, registry
    {
      Studio(runtime.Snapshot(), if registry == null then R.BARE else registry.Contents())
    }

    /** The runtime's `record_event` as one call of the runtime. */
    method Note(cardId: Uuid, eventType: string, actorId: string, payload: Json, key: Option<string>, now: Time, base: Uuid)
      returns (r: Result<Reply, Error>)
      modifies runtime
      ensures M.Outcome(runtime.Snapshot(), r)
           == M.Step(old(runtime.Snapshot()), Call(Request.RecordEvent(cardId, eventType, Some(actorId), payload, key), now, base))
      ensures r.Ok? ==> r.value.EventReply?
    {
      StepFits(runtime.Snapshot(), Call(Request.RecordEvent(cardId, eventType, Some(actorId), payload, key), now, base));
      r := runtime.RecordEvent(cardId, eventType, Some(actorId), payload, key, now, base);
    }

    /** And its `create_card`. */
    method Create(payload: Json, metadata: Json, key: Option<string>, now: Time, base: Uuid) returns (r: Result<Reply, Error>)
      modifies runtime
      ensures M.Outcome(runtime.Snapshot(), r)
           == M.Step(old(runtime.Snapshot()), Call(Request.CreateCard(patchPanel.id, payload, metadata, key), now, base))
      ensures r.Ok? ==> r.value.CardReply?
    {
      StepFits(runtime.Snapshot(), Call(Request.CreateCard(patchPanel.id, payload, metadata, key), now, base));
      r := runtime.CreateCard(patchPanel.id, payload, metadata, key, now, base);
    }

    method ExecuteSource(sourceId: string, payload: Json, metadata: Json, key: Option<string>, now: Time, base: Uuid)
      returns (r: Result<Card, Error>)
      modifies runtime
      ensures Progress(runtime.Snapshot(), Some(r))
           == SourceRun(old(runtime.Snapshot()), patchPanel, sourceId, payload, metadata, key, now, base, 2)
    {
      var node := NodeOf(patchPanel.nodes, sourceId, Source);
      if node.Err? {
        return Err(node.error);
      }
      var created := Create(payload, metadata, key, now, base);
      if created.Err? {
        return Err(created.error);
      }
      var card := created.value.card;
      var noted := Note(card.id, "source_executed", node.value.id, SourceNote(node.value.id), Derived(key, ":source"), now, base + 2);
      r := if noted.Ok? then Ok(card) else Err(noted.error);
    }

    /** `_ensure_registry_publication_history` */
    method HoldsApprovals(cardId: Uuid) returns (holds: bool)
      ensures holds <==> cardId in runtime.cards && PublicationGate(if cardId in runtime.events then runtime.events[cardId] else [])
    {
      var history := runtime.CardHistory(cardId);
      holds := history.Ok? && PublicationGate(history.value);
    }

    /** Lists the entry unless its panel version has one, and answers the id it is listed under. */
    method ShelveOnce(entry: R.Entry) returns (id: Uuid)
      requires registry != null && R.Kept(registry.Contents())
      modifies registry
      ensures registry.Contents() == WithEntry(old(registry.Contents()), entry)
      ensures var existing := R.EntryOf(old(registry.Contents()), entry.panelId, entry.version);
        id == if existing.Some? then existing.value.id else entry.id
    {
      var found := registry.SearchAll(R.EVERYTHING);
      var existing := R.FirstOf(found, entry.panelId, entry.version);
      if existing.None? {
        registry.Register(entry);
      }
      id := if existing.Some? then existing.value.id else entry.id;
    }

    /** Registers the candidate and lists its entry. */
    method RegisterAndList(candidate: PatchPanel, entry: R.Entry, reference: Option<string>, now: Time, base: Uuid)
      returns (r: Result<Option<string>, Error>)
      requires registry != null && R.Kept(registry.Contents())
      modifies runtime, registry
      ensures Done(Contents(), r) == PublishedDone(old(Contents()), candidate, entry, reference)
    {
      var registered := runtime.RegisterPatchPanel(candidate, now, base);
      if registered.Err? {
        return Err(registered.error);
      }
      var listed := ShelveOnce(entry);
      r := Ok(Some(OrElse(reference, Text(listed))));
    }

    /** The publication branch of `_execute_configured_sink`. */
    method PublishCandidate(node: Node, card: Card, reference: Option<string>, now: Time, base: Uuid)
      returns (r: Result<Option<string>, Error>)
      requires registry != null && R.Kept(registry.Contents()) && card.id in runtime.cards && card.id in runtime.events
      modifies runtime, registry
      ensures Done(Contents(), r) == Publish(old(Contents()), node, card, reference, base)
    {
      var holds := HoldsApprovals(card.id);
      if !holds {
        return Err(Conflict);
      }
      match (Get(card.payload, "candidate_definition"), Get(card.payload, "registry_metadata"))
      case (PanelValue(candidate), MetadataValue(details)) =>
        var entry := R.EntryFor(base, candidate, PublishedDetails(details), PublicationNotes(card, node.id));
        ParsedPublication(Contents(), node, card, reference, base, candidate, details);
        r := RegisterAndList(candidate, entry, reference, now, base);
      case _ =>
        r := Err(Malformed);
    }

    method ExecuteSink(cardId: Uuid, sinkId: string, reference: Option<string>, key: Option<string>, now: Time, base: Uuid)
      returns (r: Result<SinkResult, Error>)
      requires M.Valid(runtime.Snapshot()) && (registry != null ==> R.Kept(registry.Contents()))
      modifies runtime, registry
      ensures Done(Contents(), r)
           == SinkRun(old(Contents()), patchPanel, registry != null, cardId, sinkId, reference, key, now, base)
    {
      var checked := SinkChecks(runtime.cards, patchPanel, cardId, sinkId);
      if checked.Err? {
        return Err(checked.error);
      }
      var node, card := checked.value, runtime.cards[cardId];
      if node.id == AUTHORITY_SINK {
        return Err(InvalidOperation);
      }
      var made := reference;
      if Publishes(node) {
        if registry == null {
          return Err(InvalidOperation);
        }
        var published := PublishCandidate(node, card, reference, now, base);
        if published.Err? {
          return Err(published.error);
        }
        made := published.value;
      }
      var noted := Note(cardId, "sink_executed", node.id, SinkNote(node, made), key, now, base + 1);
      r := if noted.Ok? then Ok(SinkResult(noted.value.event, made)) else Err(noted.error);
    }
  }
}
