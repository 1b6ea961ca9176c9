/**
 Idempotency keys of the Postgres runtime: it stores a text naming the answer's rows, and a retried
 call reads those rows as they are by then.
 */
module PostgresRetries {
  import opened Prelude
  import opened Encoding
  import opened Domain
  import opened Requests
  import opened Postgres
  import opened PostgresRefinement
  import opened PostgresTheorems
  import T = MachineTheorems

  // ---- what stays --------------------------------------------------------------------------

  lemma {:induction false} SweepKeepsRest(db: Tables, now: Time, base: Uuid, order: seq<Uuid>, k: nat)
    requires k <= |order|
    ensures var m := Expire(db, now, base, order, k).state;
      m.idempotency == db.idempotency && m.artifacts == db.artifacts && db.events <= m.events
  {
    if k > 0 { SweepKeepsRest(db, now, base, order, k - 1); }
  }

  lemma {:induction false} PutKeeps(table: map<Uuid, ArtifactReference>, refs: seq<ArtifactReference>, id: Uuid)
    requires id in table && forall i :: 0 <= i < |refs| ==> refs[i].id != id
    ensures id in Put(table, refs) && Put(table, refs)[id] == table[id]
  {
    if refs != [] { PutKeeps(table, refs[..|refs| - 1], id); }
  }

  lemma {:induction false} PutHas(table: map<Uuid, ArtifactReference>, refs: seq<ArtifactReference>, k: nat)
    requires k < |refs| && forall i, j :: 0 <= i < j < |refs| ==> refs[i].id != refs[j].id
    ensures refs[k].id in Put(table, refs) && Put(table, refs)[refs[k].id] == refs[k]
  {
    if k < |refs| - 1 { PutHas(table, refs[..|refs| - 1], k); }
  }

  /** Rows that no operation removes or overwrites. */
  ghost predicate Keeps(db: Tables, after: Tables) {
    && db.events <= after.events
    && forall id :: id in db.artifacts ==> id in after.artifacts && after.artifacts[id] == db.artifacts[id]
  }

  lemma SubmitKeeps(db: Tables, leaseId: Uuid, pipe: string, refs: seq<ArtifactReference>, now: Time, base: Uuid)
    ensures Keeps(db, Submit(db, leaseId, pipe, refs, now, base).after)
    ensures Submit(db, leaseId, pipe, refs, now, base).after.idempotency == db.idempotency
  {
    if Submit(db, leaseId, pipe, refs, now, base).result.Ok? {
      var stored := Stored(refs, db.cards[db.leases[leaseId].cardId].id, base + 1);
      forall id | id in db.artifacts
        ensures id in Put(db.artifacts, stored) && Put(db.artifacts, stored)[id] == db.artifacts[id]
      { PutKeeps(db.artifacts, stored, id); }
    }
  }

  /** Both facts about one call's effect. */
  ghost predicate Preserves(db: Tables, after: Tables) {
    Keeps(db, after) && after.idempotency == db.idempotency
  }

  lemma ClaimKeeps(db: Tables, pipe: string, workerId: string, seconds: int, now: Time, base: Uuid, row: Uuid)
    ensures Preserves(db, Claim(db, pipe, workerId, seconds, now, base, row).after)
  {
  }

  lemma RenewKeeps(db: Tables, leaseId: Uuid, seconds: int, now: Time, base: Uuid)
    ensures Preserves(db, Renew(db, leaseId, seconds, now, base).after)
  {
  }

  lemma ReleaseKeeps(db: Tables, leaseId: Uuid, actorId: Option<string>, now: Time, base: Uuid)
    ensures Preserves(db, Release(db, leaseId, actorId, now, base).after)
  {
  }

  lemma CreateKeeps(db: Tables, panelId: string, payload: Json, metadata: Json, now: Time, base: Uuid, version: string)
    ensures Preserves(db, Create(db, panelId, payload, metadata, now, base, version).after)
  {
  }

  lemma CardCallKeeps(db: Tables, c: PgCall)
    requires c.req.MoveCard? || c.req.RecordEvent?
    ensures Preserves(db, Perform(db, c).after)
  {
  }

  lemma SentAlongKeeps(db: Tables, card: Card, validatorId: string, route: Option<Route>, now: Time, base: Uuid)
    ensures Preserves(db, SentAlong(db, card, validatorId, route, now, base))
  {
  }

  lemma ValidateKeeps(db: Tables, cardId: Uuid, validatorId: string, accepted: bool, reason: Option<string>,
    exit: Option<string>, payload: Json, now: Time, base: Uuid)
    ensures Preserves(db, Validate(db, cardId, validatorId, accepted, reason, exit, payload, now, base).after)
  {
    if cardId in db.cards && RouteOf(db.panels, db.cards[cardId], exit).Ok? {
      var row := ValidationResult(base, db.cards[cardId].id, validatorId, accepted, reason, exit, payload, now);
      SentAlongKeeps(db.(results := db.results[base := row]), db.cards[cardId], validatorId,
                     RouteOf(db.panels, db.cards[cardId], exit).value, now, base + 1);
    }
  }

  lemma PerformKeeps(db: Tables, c: PgCall)
    ensures Keeps(db, Perform(db, c).after) && Perform(db, c).after.idempotency == db.idempotency
  {
    if c.req.ExpireLeases? {
      SweepKeepsRest(db, c.now, c.base, c.choice.order, |c.choice.order|);
    } else if c.req.SubmitArtifact? {
      SubmitKeeps(db, c.req.leaseId, c.req.pipe, c.req.refs, c.now, c.base);
    } else if c.req.ValidateCard? {
      ValidateKeeps(db, c.req.cardId, c.req.validatorId, c.req.accepted, c.req.reason, c.req.exit, c.req.payload, c.now, c.base);
    } else if c.req.CreateCard? {
      CreateKeeps(db, c.req.panelId, c.req.payload, c.req.metadata, c.now, c.base, c.choice.version);
    } else if c.req.MoveCard? || c.req.RecordEvent? {
      CardCallKeeps(db, c);
    } else if c.req.ClaimCard? {
      ClaimKeeps(db, c.req.pipe, c.req.workerId, c.req.seconds, c.now, c.base, c.choice.card);
    } else if c.req.RenewLease? {
      RenewKeeps(db, c.req.leaseId, c.req.seconds, c.now, c.base);
    } else if c.req.ReleaseLease? {
      ReleaseKeeps(db, c.req.leaseId, c.req.actorId, c.now, c.base);
    }
  }

  lemma KeepsOn(a: Tables, b: Tables, c: Tables)
    requires Keeps(a, b) && Keeps(b, c)
    ensures Keeps(a, c)
  {
  }

  ghost predicate Stores(db: Tables, key: string, ref: string) {
    ref != "" && key in db.idempotency && db.idempotency[key] == ref
  }

  lemma StepStores(db: Tables, c: PgCall, key: string, ref: string)
    requires key != "" && Stores(db, key, ref)
    ensures Keeps(db, Step(db, c).after) && Stores(Step(db, c).after, key, ref)
  {
    PerformKeeps(db, c);
  }

  lemma {:induction false} RunStores(db: Tables, calls: seq<PgCall>, key: string, ref: string)
    requires key != "" && Stores(db, key, ref)
    ensures Keeps(db, Run(db, calls)) && Stores(Run(db, calls), key, ref)
  {
    if calls != [] {
      RunStores(db, calls[..|calls| - 1], key, ref);
      StepStores(Run(db, calls[..|calls| - 1]), calls[|calls| - 1], key, ref);
      KeepsOn(db, Run(db, calls[..|calls| - 1]), Run(db, calls));
    }
  }

  // ---- reading references back -------------------------------------------------------------

  lemma {:induction false} EventStaysFound(events: seq<CardEvent>, more: seq<CardEvent>, id: Uuid)
    requires events <= more && EventById(events, id).Some?
    ensures EventById(more, id) == EventById(events, id)
  {
    if events[0].id != id {
      assert events[1..] <= more[1..];
      EventStaysFound(events[1..], more[1..], id);
    }
  }

  lemma {:induction false} LastEventFound(events: seq<CardEvent>, e: CardEvent)
    requires forall i :: 0 <= i < |events| ==> events[i].id != e.id
    ensures EventById(events + [e], e.id) == Some(e)
  {
    if events != [] {
      assert (events + [e])[1..] == events[1..] + [e];
      LastEventFound(events[1..], e);
    }
  }

  /** The rows an answer consists of are in the tables, the events and artifacts just as answered. */
  ghost predicate Backs(db: Tables, reply: Reply) {
    match reply
    case CardReply(card) => card.id in db.cards
    case LeaseReply(lease) => lease.id in db.leases
    case EventReply(event) => EventById(db.events, event.id) == Some(event)
    case ArtifactsReply(refs) => forall i :: 0 <= i < |refs| ==> refs[i].id in db.artifacts && db.artifacts[refs[i].id] == refs[i]
    case _ => false
  }

  /** What the stored reference to `reply` reads as in `db`. */
  ghost function AsNow(db: Tables, reply: Reply): Reply
    requires Backs(db, reply)
  {
    match reply
    case CardReply(card) => CardReply(db.cards[card.id])
    case LeaseReply(lease) => LeaseReply(db.leases[lease.id])
    case _ => reply
  }

  lemma CardRefReads(id: Uuid)
    ensures ReadKindRef("card", KindRef("card", id)) == Some(id)
    ensures ReadKindRef("lease", KindRef("card", id)) == None && ReadKindRef("event", KindRef("card", id)) == None
    ensures ReadKindRef("artifact", KindRef("card", id)) == None && ReadArtifactsRef(KindRef("card", id)) == None
  {
    KindRefRoundTrip("card", id, "card");
    KindRefRoundTrip("card", id, "lease");
    KindRefRoundTrip("card", id, "event");
    KindRefRoundTrip("card", id, "artifact");
    KindRefRefused("card", id);
  }

  lemma LeaseRefReads(id: Uuid)
    ensures ReadKindRef("lease", KindRef("lease", id)) == Some(id)
    ensures ReadKindRef("card", KindRef("lease", id)) == None && ReadKindRef("event", KindRef("lease", id)) == None
    ensures ReadKindRef("artifact", KindRef("lease", id)) == None && ReadArtifactsRef(KindRef("lease", id)) == None
  {
    KindRefRoundTrip("lease", id, "lease");
    KindRefRoundTrip("lease", id, "card");
    KindRefRoundTrip("lease", id, "event");
    KindRefRoundTrip("lease", id, "artifact");
    KindRefRefused("lease", id);
  }

  lemma EventRefReads(id: Uuid)
    ensures ReadKindRef("event", KindRef("event", id)) == Some(id)
    ensures ReadKindRef("card", KindRef("event", id)) == None && ReadKindRef("lease", KindRef("event", id)) == None
    ensures ReadKindRef("artifact", KindRef("event", id)) == None && ReadArtifactsRef(KindRef("event", id)) == None
  {
    KindRefRoundTrip("event", id, "event");
    KindRefRoundTrip("event", id, "card");
    KindRefRoundTrip("event", id, "lease");
    KindRefRoundTrip("event", id, "artifact");
    KindRefRefused("event", id);
  }

  lemma ArtifactsRefReads(ids: seq<Uuid>)
    ensures ReadArtifactsRef(ArtifactsRef(ids)) == Some(ids) && !("artifact:" <= ArtifactsRef(ids))
    ensures ReadKindRef("card", ArtifactsRef(ids)) == None && ReadKindRef("lease", ArtifactsRef(ids)) == None
    ensures ReadKindRef("event", ArtifactsRef(ids)) == None
  {
    ArtifactsRoundTrip(ids);
    ArtifactsRefRefused(ids, "card");
    ArtifactsRefRefused(ids, "lease");
    ArtifactsRefRefused(ids, "event");
    assert ArtifactsRef(ids)[8] == 's' && "artifact:"[8] == ':';
  }

  predicate SingleRead(ref: string) { !("artifact:" <= ref) }

  lemma RefReadsSingly(kind: string, id: Uuid)
    requires kind == "card" || kind == "lease" || kind == "event"
    ensures SingleRead(KindRef(kind, id)) && KindRef(kind, id) != ""
  {
    assert KindRef(kind, id)[0] == kind[0] && "artifact:"[0] == 'a';
  }

  lemma ListReads(db: Tables, refs: seq<ArtifactReference>)
    requires Backs(db, ArtifactsReply(refs))
    ensures LoadArtifacts(db, ArtifactsRef(IdsOf(refs))) == Ok(ArtifactsReply(refs))
  {
    var ids := IdsOf(refs);
    ArtifactsRefReads(ids);
    assert forall i :: 0 <= i < |ids| ==> ids[i] in db.artifacts && db.artifacts[ids[i]] == refs[i];
    assert GetArtifacts(db.artifacts, ids).value == refs;
  }

  /** A reference that is one operation's own is read by that operation and refused by every other. */
  ghost predicate ReadsAs(db: Tables, req: Request, reply: Reply) {
    RefOf(reply) != "" && Backs(db, reply)
    && Replay(db, req, RefOf(reply)) == if Fits(req, reply) then Ok(AsNow(db, reply)) else Err(Malformed)
  }

  lemma CardLoads(db: Tables, card: Card)
    requires card.id in db.cards
    ensures var ref := KindRef("card", card.id);
      && LoadCard(db, ref) == Ok(CardReply(db.cards[card.id])) && LoadLease(db, ref) == Err(Malformed)
      && LoadEvent(db, ref) == Err(Malformed) && LoadArtifacts(db, ref) == Err(Malformed) && ref != ""
  {
    CardRefReads(card.id);
    RefReadsSingly("card", card.id);
  }

  lemma CardReads(db: Tables, req: Request, card: Card)
    requires Backs(db, CardReply(card)) && !req.RegisterPanel? && !req.ExpireLeases?
    ensures ReadsAs(db, req, CardReply(card))
  {
    CardLoads(db, card);
  }

  lemma LeaseLoads(db: Tables, lease: Lease)
    requires lease.id in db.leases
    ensures var ref := KindRef("lease", lease.id);
      && LoadLease(db, ref) == Ok(LeaseReply(db.leases[lease.id])) && LoadCard(db, ref) == Err(Malformed)
      && LoadEvent(db, ref) == Err(Malformed) && LoadArtifacts(db, ref) == Err(Malformed) && ref != ""
  {
    LeaseRefReads(lease.id);
    RefReadsSingly("lease", lease.id);
  }

  lemma LeaseReads(db: Tables, req: Request, lease: Lease)
    requires Backs(db, LeaseReply(lease)) && !req.RegisterPanel? && !req.ExpireLeases?
    ensures ReadsAs(db, req, LeaseReply(lease))
  {
    LeaseLoads(db, lease);
  }

  lemma EventReads(db: Tables, req: Request, event: CardEvent)
    requires Backs(db, EventReply(event)) && !req.RegisterPanel? && !req.ExpireLeases?
    ensures ReadsAs(db, req, EventReply(event))
  {
    EventRefReads(event.id);
    RefReadsSingly("event", event.id);
  }

  /** A stored reference reads back as the rows of its answer for the operations that return that
      type, and is refused by every other operation. */
  lemma ReplayReads(db: Tables, req: Request, reply: Reply)
    requires Backs(db, reply) && !req.RegisterPanel? && !req.ExpireLeases?
    ensures ReadsAs(db, req, reply)
  {
    match reply
    case CardReply(card) => CardReads(db, req, card);
    case LeaseReply(lease) => LeaseReads(db, req, lease);
    case EventReply(event) => EventReads(db, req, event);
    case ArtifactsReply(refs) =>
      ArtifactsRefReads(IdsOf(refs));
      ListReads(db, refs);
  }

  // ---- a call that succeeded ---------------------------------------------------------------

  /** The event ids a call draws are new. */
  ghost predicate NewEventIds(db: Tables, base: Uuid) {
    forall i :: 0 <= i < |db.events| ==> db.events[i].id < base
  }

  lemma SubmitBacks(db: Tables, leaseId: Uuid, pipe: string, refs: seq<ArtifactReference>, now: Time, base: Uuid)
    requires Submit(db, leaseId, pipe, refs, now, base).result.Ok?
    ensures Backs(Submit(db, leaseId, pipe, refs, now, base).after, Submit(db, leaseId, pipe, refs, now, base).result.value)
  {
    var o := Submit(db, leaseId, pipe, refs, now, base);
    var stored := o.result.value.refs;
    forall k | 0 <= k < |stored|
      ensures stored[k].id in o.after.artifacts && o.after.artifacts[stored[k].id] == stored[k]
    { PutHas(db.artifacts, stored, k); }
  }

  lemma ValidateBacks(db: Tables, cardId: Uuid, validatorId: string, accepted: bool, reason: Option<string>,
    exit: Option<string>, payload: Json, now: Time, base: Uuid)
    requires NewEventIds(db, base) && Validate(db, cardId, validatorId, accepted, reason, exit, payload, now, base).result.Ok?
    ensures var o := Validate(db, cardId, validatorId, accepted, reason, exit, payload, now, base);
      Backs(o.after, o.result.value)
  {
    var o := Validate(db, cardId, validatorId, accepted, reason, exit, payload, now, base);
    var event := o.result.value.event;
    LastEventFound(o.after.events[..|o.after.events| - 1], event);
    assert o.after.events == o.after.events[..|o.after.events| - 1] + [event];
  }

  lemma RecordBacks(db: Tables, cardId: Uuid, eventType: string, actorId: Option<string>, payload: Json, now: Time, base: Uuid)
    requires NewEventIds(db, base) && Record(db, cardId, eventType, actorId, payload, now, base).result.Ok?
    ensures var o := Record(db, cardId, eventType, actorId, payload, now, base); Backs(o.after, o.result.value)
  {
    LastEventFound(db.events, Record(db, cardId, eventType, actorId, payload, now, base).result.value.event);
  }

  lemma RowCallBacks(db: Tables, c: PgCall)
    requires Keyed(db) && Perform(db, c).result.Ok?
    requires c.req.CreateCard? || c.req.MoveCard? || c.req.ClaimCard? || c.req.RenewLease? || c.req.ReleaseLease?
    ensures Backs(Perform(db, c).after, Perform(db, c).result.value) && Fits(c.req, Perform(db, c).result.value)
  {
  }

  lemma PerformBacks(db: Tables, c: PgCall)
    requires Keyed(db) && NewEventIds(db, c.base) && Perform(db, c).result.Ok?
    requires !c.req.RegisterPanel? && !c.req.ExpireLeases?
    ensures Backs(Perform(db, c).after, Perform(db, c).result.value) && Fits(c.req, Perform(db, c).result.value)
  {
    match c.req
    case SubmitArtifact(leaseId, pipe, refs, _) => SubmitBacks(db, leaseId, pipe, refs, c.now, c.base);
    case ValidateCard(cardId, validatorId, accepted, reason, exit, payload, _) =>
      ValidateBacks(db, cardId, validatorId, accepted, reason, exit, payload, c.now, c.base);
    case RecordEvent(cardId, eventType, actorId, payload, _) =>
      RecordBacks(db, cardId, eventType, actorId, payload, c.now, c.base);
    case _ => RowCallBacks(db, c);
  }

  /** The rows of an answer stay, whatever runs later. */
  lemma BackingStays(db: Tables, start: Time, calls: seq<PgCall>, reply: Reply)
    requires Keyed(db) && Proper(db, start, calls) && Backs(db, reply) && Keeps(db, Run(db, calls))
    ensures Backs(Run(db, calls), reply)
  {
    RunRefines(db, start, calls);
    KeyedIsSound(db);
    match reply
    case CardReply(card) => T.CardsKeepIdentity(CoreOf(db), RunActs(db, calls), card.id);
    case LeaseReply(lease) => T.LeasesAreKept(CoreOf(db), RunActs(db, calls), lease.id);
    case EventReply(event) => EventStaysFound(db.events, Run(db, calls).events, event.id);
    case _ =>
  }

  /** Once a keyed call has succeeded, every later call with its key changes nothing: an operation of
      that answer's type reads the answer's rows as they are by then (events and artifacts never
      change), and any other operation is refused. */
  lemma RetriedCallReadsItsRows(db: Tables, first: PgCall, between: seq<PgCall>, again: PgCall)
    requires Keyed(db) && FreshIds(db, first) && LegalChoice(db, first) && NewEventIds(db, first.base)
    requires Truthy(first.req.Key()) && Acts(db, first)
    requires Proper(Step(db, first).after, first.now, between) && again.req.Key() == first.req.Key()
    ensures var answer, later := Step(db, first).result.value, Run(Step(db, first).after, between);
      && Step(db, first).result.Ok? && Backs(later, answer)
      && Step(later, again) == Outcome(later, if Fits(again.req, answer) then Ok(AsNow(later, answer)) else Err(Malformed))
  {
    var mid, answer := Step(db, first).after, Perform(db, first).result.value;
    StepRefines(db, first);
    PerformBacks(db, first);
    PerformKeeps(db, first);
    ReplayReads(Perform(db, first).after, first.req, answer);
    assert Stores(mid, first.req.Key().value, RefOf(answer));
    BackedByTables(Perform(db, first).after, mid, answer);
    RunStores(mid, between, first.req.Key().value, RefOf(answer));
    BackingStays(mid, first.now, between, answer);
    ReplayReads(Run(mid, between), again.req, answer);
  }

  lemma BackedByTables(db: Tables, other: Tables, reply: Reply)
    requires Backs(db, reply) && other == db.(idempotency := other.idempotency)
    ensures Backs(other, reply)
  {
  }
}
