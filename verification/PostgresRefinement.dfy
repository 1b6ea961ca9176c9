/**
 Every serial run of the Postgres runtime is a run of the abstract machine, whichever rows its
 queries pick. A routed validation is two acts: a move, and the validation that names it.
 */
module PostgresRefinement {
  import opened Prelude
  import opened Encoding
  import opened Domain
  import opened Service
  import opened PanelValidator
  import opened AcceptedPanels
  import opened Requests
  import opened Postgres
  import A = Machine
  import T = MachineTheorems
  import G = Governance

  /** The rows of the event table about one card, in order of insertion. */
  function History(events: seq<CardEvent>, c: Uuid): seq<CardEvent> {
    if events == [] then []
    else
      var last := events[|events| - 1];
      History(events[..|events| - 1], c) + if last.cardId == c then [last] else []
  }

  ghost function LogOf(events: seq<CardEvent>, cards: map<Uuid, Card>): map<Uuid, seq<CardEvent>> {
    map c | c in cards :: History(events, c)
  }

  ghost function CoreOf(db: Tables): A.Core {
    A.Core(set k | k in db.panels :: db.panels[k], db.cards, db.leases, db.artifacts, LogOf(db.events, db.cards))
  }

  ghost predicate NoStrays(events: seq<CardEvent>, cards: map<Uuid, Card>) {
    forall i :: 0 <= i < |events| ==> events[i].cardId in cards
  }

  ghost predicate KeyedRows(cards: map<Uuid, Card>, leases: map<Uuid, Lease>) {
    && (forall c :: c in cards ==> cards[c].id == c)
    && (forall l :: l in leases ==> leases[l].id == l && leases[l].cardId in cards)
  }

  ghost predicate KeyedPanels(panels: map<(string, string), PatchPanel>) {
    forall k :: k in panels ==> k == (panels[k].id, panels[k].version)
  }

  /** Rows sit under their primary keys and foreign keys point somewhere. */
  ghost predicate Keyed(db: Tables) {
    KeyedRows(db.cards, db.leases) && NoStrays(db.events, db.cards) && KeyedPanels(db.panels)
  }

  lemma KeyedIsSound(db: Tables)
    ensures Keyed(db) ==> T.Sound(CoreOf(db))
    ensures T.Sound(CoreOf(db)) ==> KeyedRows(db.cards, db.leases)
  {
  }

  /** The ids the call draws for its card or lease row are new. */
  ghost predicate FreshIds(db: Tables, c: PgCall) {
    c.base !in db.cards && c.base !in db.leases
  }

  // ---- the event table as a log ------------------------------------------------------------

  lemma HistoryAppend(events: seq<CardEvent>, e: CardEvent, c: Uuid)
    ensures History(events + [e], c) == History(events, c) + if e.cardId == c then [e] else []
  {
    assert (events + [e])[..|events|] == events;
  }

  lemma {:induction false} StrangerHasNoHistory(events: seq<CardEvent>, cards: map<Uuid, Card>, c: Uuid)
    requires NoStrays(events, cards) && c !in cards
    ensures History(events, c) == []
  {
    if events != [] { StrangerHasNoHistory(events[..|events| - 1], cards, c); }
  }

  /** Inserting an event row appends to the log of its card, an existing one or a new one. */
  lemma LogAppends(events: seq<CardEvent>, cards: map<Uuid, Card>, after: map<Uuid, Card>, e: CardEvent)
    requires NoStrays(events, cards) && after.Keys == cards.Keys + {e.cardId}
    ensures LogOf(events + [e], after) == A.Append(LogOf(events, cards), e)
    ensures NoStrays(events + [e], after)
  {
    forall c | c in after
      ensures History(events + [e], c) == A.Append(LogOf(events, cards), e)[c]
    {
      HistoryAppend(events, e, c);
      if c !in cards { StrangerHasNoHistory(events, cards, c); }
    }
  }

  // ---- the act of each operation -----------------------------------------------------------

  /** One enabled act leads to `after`. */
  ghost predicate IsAct(db: Tables, after: Tables, t: A.Timed) {
    A.Takes(CoreOf(db), t, CoreOf(after)) && Keyed(after)
  }

  /** An act other than a registration, read off the tables it changes. */
  lemma WritesAre(db: Tables, after: Tables, t: A.Timed)
    requires Keyed(db) && A.Enabled(CoreOf(db), t) && after.panels == db.panels
    requires A.EventWritten(CoreOf(db), t).Some?
    requires after.cards == A.NextCards(CoreOf(db), t) && after.leases == A.NextLeases(CoreOf(db), t)
    requires after.artifacts == Put(db.artifacts, A.ArtifactsWritten(CoreOf(db), t))
    requires after.events == db.events + [A.EventWritten(CoreOf(db), t).value]
    ensures IsAct(db, after, t)
  {
    var a, e := CoreOf(db), A.EventWritten(CoreOf(db), t).value;
    KeyedIsSound(db);
    T.EventIsAboutACard(a, t);
    T.StepSound(a, t);
    assert A.NextLog(a, t).Keys == a.log.Keys + {e.cardId};
    LogAppends(db.events, db.cards, after.cards, e);
    KeyedIsSound(after);
  }

  lemma RegisterRefines(db: Tables, panel: PatchPanel, now: Time)
    requires Keyed(db) && Accepted(panel) && (panel.id, panel.version) !in db.panels
    ensures IsAct(db, Register(db, panel).after, A.Timed(A.Register(panel, CoreOf(db).panels + {panel}), now))
  {
    var key, after := (panel.id, panel.version), Register(db, panel).after;
    assert after.panels == db.panels[key := panel];
    forall p | p in CoreOf(db).panels + {panel}
      ensures p in CoreOf(after).panels
    {
      if p == panel {
        assert key in after.panels && after.panels[key] == p;
      } else {
        var k :| k in db.panels && db.panels[k] == p;
        assert k in after.panels && after.panels[k] == p;
      }
    }
    assert CoreOf(after).panels == CoreOf(db).panels + {panel};
  }

  ghost function CreateAct(db: Tables, panelId: string, payload: Json, metadata: Json, now: Time, base: Uuid, version: string): A.Act
    requires Create(db, panelId, payload, metadata, now, base, version).result.Ok?
  {
    A.Create(db.panels[(panelId, version)],
             Create(db, panelId, payload, metadata, now, base, version).result.value.card, base + 2)
  }

  lemma CreateRefines(db: Tables, panelId: string, payload: Json, metadata: Json, now: Time, base: Uuid, version: string)
    requires Keyed(db) && base !in db.cards
    requires Create(db, panelId, payload, metadata, now, base, version).result.Ok?
    ensures var o := Create(db, panelId, payload, metadata, now, base, version);
      IsAct(db, o.after, A.Timed(CreateAct(db, panelId, payload, metadata, now, base, version), now))
  {
    var o := Create(db, panelId, payload, metadata, now, base, version);
    WritesAre(db, o.after, A.Timed(CreateAct(db, panelId, payload, metadata, now, base, version), now));
  }

  ghost function ClaimAct(db: Tables, pipe: string, workerId: string, seconds: int, now: Time, base: Uuid, row: Uuid): A.Act
    requires Claim(db, pipe, workerId, seconds, now, base, row).result.Ok?
  {
    A.Claim(SinglePanel(db).value, Claim(db, pipe, workerId, seconds, now, base, row).result.value.lease, base + 1)
  }

  lemma ClaimRefines(db: Tables, pipe: string, workerId: string, seconds: int, now: Time, base: Uuid, row: Uuid)
    requires Keyed(db) && base !in db.leases
    requires Claim(db, pipe, workerId, seconds, now, base, row).result.Ok?
    ensures var o := Claim(db, pipe, workerId, seconds, now, base, row);
      IsAct(db, o.after, A.Timed(ClaimAct(db, pipe, workerId, seconds, now, base, row), now))
  {
    var o := Claim(db, pipe, workerId, seconds, now, base, row);
    WritesAre(db, o.after, A.Timed(ClaimAct(db, pipe, workerId, seconds, now, base, row), now));
  }

  ghost function SubmitAct(db: Tables, leaseId: Uuid, pipe: string, refs: seq<ArtifactReference>, now: Time, base: Uuid): A.Act
    requires Submit(db, leaseId, pipe, refs, now, base).result.Ok?
  {
    var (panel, destination) := SubmitChecks(db, leaseId, pipe, refs, now).value;
    A.Submit(panel, leaseId, pipe, destination, refs, base + 1)
  }

  lemma SubmitRefines(db: Tables, leaseId: Uuid, pipe: string, refs: seq<ArtifactReference>, now: Time, base: Uuid)
    requires Keyed(db) && Submit(db, leaseId, pipe, refs, now, base).result.Ok?
    ensures IsAct(db, Submit(db, leaseId, pipe, refs, now, base).after,
                  A.Timed(SubmitAct(db, leaseId, pipe, refs, now, base), now))
  {
    var o := Submit(db, leaseId, pipe, refs, now, base);
    WritesAre(db, o.after, A.Timed(SubmitAct(db, leaseId, pipe, refs, now, base), now));
  }

  lemma RenewRefines(db: Tables, leaseId: Uuid, seconds: int, now: Time, base: Uuid)
    requires Keyed(db) && Renew(db, leaseId, seconds, now, base).result.Ok?
    ensures IsAct(db, Renew(db, leaseId, seconds, now, base).after, A.Timed(A.Renew(leaseId, seconds, base), now))
  {
    var o := Renew(db, leaseId, seconds, now, base);
    WritesAre(db, o.after, A.Timed(A.Renew(leaseId, seconds, base), now));
  }

  lemma ReleaseRefines(db: Tables, leaseId: Uuid, actorId: Option<string>, now: Time, base: Uuid)
    requires Keyed(db) && leaseId in db.leases && db.leases[leaseId].releasedAt.None?
    ensures IsAct(db, Release(db, leaseId, actorId, now, base).after, A.Timed(A.Release(leaseId, actorId, base), now))
  {
    var o := Release(db, leaseId, actorId, now, base);
    WritesAre(db, o.after, A.Timed(A.Release(leaseId, actorId, base), now));
  }

  lemma RecordRefines(db: Tables, event: CardEvent)
    requires Keyed(db) && event.cardId in db.cards
    ensures IsAct(db, Log(db, event), A.Timed(A.Record(event), event.occurredAt))
  {
    WritesAre(db, Log(db, event), A.Timed(A.Record(event), event.occurredAt));
  }

  /** `_move_card_row` with its event is one act, whoever asks for it. */
  lemma MoveRowRefines(db: Tables, panel: PatchPanel, cardId: Uuid, toBucket: string, actorId: Option<string>,
    reason: Option<string>, now: Time, locationId: Uuid, eventId: Uuid)
    requires Keyed(db) && cardId in db.cards
    ensures var card := db.cards[cardId];
      IsAct(db, Log(MoveRow(db, card, toBucket, now, locationId), MovedEvent(eventId, card, toBucket, actorId, reason, now)),
            A.Timed(A.Move(panel, cardId, toBucket, actorId, reason, eventId), now))
  {
    var card := db.cards[cardId];
    WritesAre(db, Log(MoveRow(db, card, toBucket, now, locationId), MovedEvent(eventId, card, toBucket, actorId, reason, now)),
              A.Timed(A.Move(panel, cardId, toBucket, actorId, reason, eventId), now));
  }

  /** Writing the validation event is one act when the card is already where the route sends it. */
  lemma ValidatedRefines(db: Tables, panel: PatchPanel, cardId: Uuid, validatorId: string, verdict: Json, payload: Json,
    route: Option<Route>, now: Time, eventId: Uuid)
    requires Keyed(db) && cardId in db.cards
    requires route.Some? ==> db.cards[cardId].currentBucket == route.value.bucket
    ensures IsAct(db, Log(db, ValidatedEvent(eventId, cardId, validatorId, ValidatedPayload(verdict, payload, route), now)),
                  A.Timed(A.Validate(cardId, validatorId, verdict, payload, panel, route, eventId), now))
  {
    var t := A.Timed(A.Validate(cardId, validatorId, verdict, payload, panel, route, eventId), now);
    assert A.NextCards(CoreOf(db), t) == db.cards;
    WritesAre(db, Log(db, ValidatedEvent(eventId, cardId, validatorId, ValidatedPayload(verdict, payload, route), now)), t);
  }

  ghost function PanelOr(panels: map<(string, string), PatchPanel>, card: Card): PatchPanel {
    if PanelForCard(panels, card).Ok? then PanelForCard(panels, card).value else A.NO_PANEL
  }

  /** `ts` is what the call does: it leads from the one state to the other at clock reading `now`. */
  ghost predicate Does(db: Tables, after: Tables, ts: seq<A.Timed>, now: Time) {
    && A.Leads(CoreOf(db), ts, CoreOf(after)) && Keyed(after)
    && forall t :: t in ts ==> t.now == now
  }

  lemma DoesNothing(db: Tables, now: Time)
    requires Keyed(db)
    ensures Does(db, db, [], now)
  {
  }

  lemma DoesOne(db: Tables, after: Tables, t: A.Timed)
    requires IsAct(db, after, t)
    ensures Does(db, after, [t], t.now)
  {
    A.One(CoreOf(db), t);
  }

  lemma DoesMore(db: Tables, mid: Tables, after: Tables, ts: seq<A.Timed>, t: A.Timed)
    requires Does(db, mid, ts, t.now) && IsAct(mid, after, t)
    ensures Does(db, after, ts + [t], t.now)
  {
    A.Snoc(CoreOf(db), ts, CoreOf(mid), t, CoreOf(after));
  }

  // ---- validation: at most one move, then the validation itself ----------------------------

  function ViaMove(panel: PatchPanel, cardId: Uuid, validatorId: string, route: Option<Route>, now: Time, eventId: Uuid): seq<A.Timed> {
    if route.None? then []
    else [A.Timed(A.Move(panel, cardId, route.value.bucket, Some(validatorId), Some("validator_output"), eventId), now)]
  }

  lemma SentAlongRefines(db: Tables, cardId: Uuid, validatorId: string, route: Option<Route>, now: Time, base: Uuid, panel: PatchPanel)
    requires Keyed(db) && cardId in db.cards
    ensures var sent := SentAlong(db, db.cards[cardId], validatorId, route, now, base);
      && Does(db, sent, ViaMove(panel, cardId, validatorId, route, now, base + 1), now) && cardId in sent.cards
      && (route.Some? ==> sent.cards[cardId].currentBucket == route.value.bucket)
  {
    if route.None? {
      DoesNothing(db, now);
    } else {
      MoveRowRefines(db, panel, cardId, route.value.bucket, Some(validatorId), Some("validator_output"), now, base, base + 1);
      DoesOne(db, SentAlong(db, db.cards[cardId], validatorId, route, now, base),
              ViaMove(panel, cardId, validatorId, route, now, base + 1)[0]);
    }
  }

  ghost function ValidateActs(db: Tables, cardId: Uuid, validatorId: string, accepted: bool, reason: Option<string>,
    exit: Option<string>, payload: Json, now: Time, base: Uuid): seq<A.Timed>
    requires cardId in db.cards && RouteOf(db.panels, db.cards[cardId], exit).Ok?
  {
    var panel, route := PanelOr(db.panels, db.cards[cardId]), RouteOf(db.panels, db.cards[cardId], exit).value;
    ViaMove(panel, cardId, validatorId, route, now, base + 2)
    + [A.Timed(A.Validate(cardId, validatorId, ResultVerdict(accepted, reason, base), payload, panel, route, base + 3), now)]
  }

  lemma SentAndValidated(db: Tables, panel: PatchPanel, cardId: Uuid, validatorId: string, verdict: Json, payload: Json,
    route: Option<Route>, now: Time, base: Uuid)
    requires Keyed(db) && cardId in db.cards
    ensures Does(db, Log(SentAlong(db, db.cards[cardId], validatorId, route, now, base),
                         ValidatedEvent(base + 2, cardId, validatorId, ValidatedPayload(verdict, payload, route), now)),
                 ViaMove(panel, cardId, validatorId, route, now, base + 1)
                 + [A.Timed(A.Validate(cardId, validatorId, verdict, payload, panel, route, base + 2), now)], now)
  {
    var sent := SentAlong(db, db.cards[cardId], validatorId, route, now, base);
    SentAlongRefines(db, cardId, validatorId, route, now, base, panel);
    ValidatedRefines(sent, panel, cardId, validatorId, verdict, payload, route, now, base + 2);
    DoesMore(db, sent, Log(sent, ValidatedEvent(base + 2, cardId, validatorId, ValidatedPayload(verdict, payload, route), now)),
             ViaMove(panel, cardId, validatorId, route, now, base + 1),
             A.Timed(A.Validate(cardId, validatorId, verdict, payload, panel, route, base + 2), now));
  }

  lemma ResultRowIsOutside(db: Tables, id: Uuid, row: ValidationResult)
    ensures CoreOf(db.(results := db.results[id := row])) == CoreOf(db)
  {
  }

  lemma ValidateRefines(db: Tables, cardId: Uuid, validatorId: string, accepted: bool, reason: Option<string>,
    exit: Option<string>, payload: Json, now: Time, base: Uuid)
    requires Keyed(db) && cardId in db.cards && RouteOf(db.panels, db.cards[cardId], exit).Ok?
    ensures Does(db, Validate(db, cardId, validatorId, accepted, reason, exit, payload, now, base).after,
                 ValidateActs(db, cardId, validatorId, accepted, reason, exit, payload, now, base), now)
  {
    var row := ValidationResult(base, cardId, validatorId, accepted, reason, exit, payload, now);
    ResultRowIsOutside(db, base, row);
    SentAndValidated(db.(results := db.results[base := row]), PanelOr(db.panels, db.cards[cardId]), cardId, validatorId,
                     ResultVerdict(accepted, reason, base), payload, RouteOf(db.panels, db.cards[cardId], exit).value,
                     now, base + 1);
  }

  // ---- the sweep ---------------------------------------------------------------------------

  function SweepActs(order: seq<Uuid>, now: Time, base: Uuid): seq<A.Timed> {
    seq(|order|, j requires 0 <= j < |order| => A.Timed(A.Expire(order[j], base + j), now))
  }

  /** The rows still to be swept are as they were, and no row but leases and events changes. */
  lemma {:induction false} SweepLeavesRest(db: Tables, now: Time, base: Uuid, order: seq<Uuid>, k: nat)
    requires Keyed(db) && Lists(order, OverdueRows(db, now)) && k <= |order|
    ensures var m := Expire(db, now, base, order, k);
      && |m.expired| == k
      && (forall j :: k <= j < |order| ==> order[j] in m.state.leases && m.state.leases[order[j]] == db.leases[order[j]])
  {
    if k > 0 { SweepLeavesRest(db, now, base, order, k - 1); }
  }

  lemma SweptRefines(before: Sweep, lease: Lease, now: Time, base: Uuid)
    requires Keyed(before.state) && Overdue(lease, now)
    requires lease.id in before.state.leases && before.state.leases[lease.id] == lease
    ensures IsAct(before.state, Swept(before, lease, now, base).state,
                  A.Timed(A.Expire(lease.id, base + |before.expired|), now))
  {
    WritesAre(before.state, Swept(before, lease, now, base).state, A.Timed(A.Expire(lease.id, base + |before.expired|), now));
  }

  /** `after` is the sweep `before` one overdue row later, which is the act `t`. */
  ghost predicate SweepsOne(before: Sweep, after: Sweep, lease: Lease, now: Time, base: Uuid, t: A.Timed) {
    && after == Swept(before, lease, now, base) && Overdue(lease, now)
    && lease.id in before.state.leases && before.state.leases[lease.id] == lease
    && t == A.Timed(A.Expire(lease.id, base + |before.expired|), now)
  }

  lemma SweepUnrolls(db: Tables, now: Time, base: Uuid, order: seq<Uuid>, k: nat)
    requires Keyed(db) && Lists(order, OverdueRows(db, now)) && k < |order|
    ensures order[k] in db.leases
    ensures SweepsOne(Expire(db, now, base, order, k), Expire(db, now, base, order, k + 1), db.leases[order[k]], now, base,
                      SweepActs(order, now, base)[k])
  {
    SweepLeavesRest(db, now, base, order, k);
  }

  lemma SweepsOneRefines(before: Sweep, after: Sweep, lease: Lease, now: Time, base: Uuid, t: A.Timed)
    requires Keyed(before.state) && SweepsOne(before, after, lease, now, base, t)
    ensures IsAct(before.state, after.state, t)
  {
    SweptRefines(before, lease, now, base);
  }

  /** The sweep's next step is one act. */
  lemma SweepNext(db: Tables, now: Time, base: Uuid, order: seq<Uuid>, k: nat)
    requires Keyed(db) && Lists(order, OverdueRows(db, now)) && k < |order|
    requires Keyed(Expire(db, now, base, order, k).state)
    ensures IsAct(Expire(db, now, base, order, k).state, Expire(db, now, base, order, k + 1).state,
                  SweepActs(order, now, base)[k])
  {
    SweepUnrolls(db, now, base, order, k);
    SweepsOneRefines(Expire(db, now, base, order, k), Expire(db, now, base, order, k + 1), db.leases[order[k]], now, base,
                     SweepActs(order, now, base)[k]);
  }

  lemma SweepNextKeeps(db: Tables, now: Time, base: Uuid, order: seq<Uuid>, k: nat)
    requires Keyed(db) && Lists(order, OverdueRows(db, now)) && k < |order|
    requires Keyed(Expire(db, now, base, order, k).state)
    ensures Keyed(Expire(db, now, base, order, k + 1).state)
  {
    SweepNext(db, now, base, order, k);
  }

  lemma {:induction false} SweepKeepsKeyed(db: Tables, now: Time, base: Uuid, order: seq<Uuid>, k: nat)
    requires Keyed(db) && Lists(order, OverdueRows(db, now)) && k <= |order|
    ensures Keyed(Expire(db, now, base, order, k).state)
  {
    if k > 0 {
      SweepKeepsKeyed(db, now, base, order, k - 1);
      SweepNextKeeps(db, now, base, order, k - 1);
    }
  }

  ghost function SweepCores(db: Tables, now: Time, base: Uuid, order: seq<Uuid>): seq<A.Core> {
    seq(|order| + 1, k requires 0 <= k <= |order| => CoreOf(Expire(db, now, base, order, k).state))
  }

  lemma SweepRefines(db: Tables, now: Time, base: Uuid, order: seq<Uuid>)
    requires Keyed(db) && Lists(order, OverdueRows(db, now))
    ensures Does(db, Expire(db, now, base, order, |order|).state, SweepActs(order, now, base), now)
  {
    forall k | 0 <= k < |order|
      ensures A.Takes(SweepCores(db, now, base, order)[k], SweepActs(order, now, base)[k], SweepCores(db, now, base, order)[k + 1])
    {
      SweepKeepsKeyed(db, now, base, order, k);
      SweepNext(db, now, base, order, k);
    }
    A.Chain(SweepCores(db, now, base, order), SweepActs(order, now, base));
    SweepKeepsKeyed(db, now, base, order, |order|);
  }

  // ---- calls and runs ----------------------------------------------------------------------

  /** Whether the call goes past its idempotency key and changes something. */
  ghost predicate Acts(db: Tables, c: PgCall) {
    StoredRef(db, c.req.Key()).None? && Perform(db, c).result.Ok? && !AnswersEarly(db, c.req)
  }

  ghost function StepActs(db: Tables, c: PgCall): seq<A.Timed> {
    if !Acts(db, c) then []
    else
      match c.req
      case RegisterPanel(panel) =>
        if (panel.id, panel.version) in db.panels then []
        else [A.Timed(A.Register(panel, CoreOf(db).panels + {panel}), c.now)]
      case CreateCard(panelId, payload, metadata, _) =>
        [A.Timed(CreateAct(db, panelId, payload, metadata, c.now, c.base, c.choice.version), c.now)]
      case ClaimCard(pipe, workerId, seconds, _) =>
        [A.Timed(ClaimAct(db, pipe, workerId, seconds, c.now, c.base, c.choice.card), c.now)]
      case SubmitArtifact(leaseId, pipe, refs, _) => [A.Timed(SubmitAct(db, leaseId, pipe, refs, c.now, c.base), c.now)]
      case RenewLease(leaseId, seconds, _) => [A.Timed(A.Renew(leaseId, seconds, c.base), c.now)]
      case ReleaseLease(leaseId, actorId, _) => [A.Timed(A.Release(leaseId, actorId, c.base), c.now)]
      case ExpireLeases => SweepActs(c.choice.order, c.now, c.base)
      case ValidateCard(cardId, validatorId, accepted, reason, exit, payload, _) =>
        ValidateActs(db, cardId, validatorId, accepted, reason, exit, payload, c.now, c.base)
      case MoveCard(cardId, toBucket, actorId, reason, _) =>
        [A.Timed(A.Move(PanelOr(db.panels, db.cards[cardId]), cardId, toBucket, actorId, reason, c.base + 1), c.now)]
      case RecordEvent(cardId, eventType, actorId, payload, _) =>
        [A.Timed(A.Record(CardEvent(c.base, cardId, eventType, actorId, payload, c.now)), c.now)]
  }

  lemma MoveRefines(db: Tables, cardId: Uuid, toBucket: string, actorId: Option<string>, reason: Option<string>,
    now: Time, base: Uuid)
    requires Keyed(db) && Move(db, cardId, toBucket, actorId, reason, now, base).result.Ok?
    ensures IsAct(db, Move(db, cardId, toBucket, actorId, reason, now, base).after,
      A.Timed(A.Move(PanelOr(db.panels, db.cards[cardId]), cardId, toBucket, actorId, reason, base + 1), now))
  {
    MoveRowRefines(db, PanelOr(db.panels, db.cards[cardId]), cardId, toBucket, actorId, reason, now, base, base + 1);
  }

  /** A panel registered again leaves the core as it was. */
  lemma RegisteredAgain(db: Tables, panel: PatchPanel)
    requires Keyed(db) && (panel.id, panel.version) in db.panels
    ensures var o := Register(db, panel);
      CoreOf(o.after) == CoreOf(db) && o.after.panels == db.panels && o.after.events == db.events && o.after.cards == db.cards
  {
  }

  lemma LeaseCallRefines(db: Tables, c: PgCall)
    requires Keyed(db) && FreshIds(db, c) && Acts(db, c)
    requires c.req.ClaimCard? || c.req.SubmitArtifact? || c.req.RenewLease? || c.req.ReleaseLease?
    ensures |StepActs(db, c)| == 1 && StepActs(db, c)[0].now == c.now
    ensures IsAct(db, Perform(db, c).after, StepActs(db, c)[0])
  {
    match c.req
    case ClaimCard(pipe, workerId, seconds, _) =>
      ClaimRefines(db, pipe, workerId, seconds, c.now, c.base, c.choice.card);
    case SubmitArtifact(leaseId, pipe, refs, _) => SubmitRefines(db, leaseId, pipe, refs, c.now, c.base);
    case RenewLease(leaseId, seconds, _) => RenewRefines(db, leaseId, seconds, c.now, c.base);
    case ReleaseLease(leaseId, actorId, _) => ReleaseRefines(db, leaseId, actorId, c.now, c.base);
  }

  lemma CreateCallRefines(db: Tables, c: PgCall)
    requires Keyed(db) && FreshIds(db, c) && Acts(db, c) && c.req.CreateCard?
    ensures |StepActs(db, c)| == 1 && StepActs(db, c)[0].now == c.now
    ensures IsAct(db, Perform(db, c).after, StepActs(db, c)[0])
  {
    CreateRefines(db, c.req.panelId, c.req.payload, c.req.metadata, c.now, c.base, c.choice.version);
  }

  lemma MoveCallRefines(db: Tables, c: PgCall)
    requires Keyed(db) && Acts(db, c) && c.req.MoveCard?
    ensures |StepActs(db, c)| == 1 && StepActs(db, c)[0].now == c.now
    ensures IsAct(db, Perform(db, c).after, StepActs(db, c)[0])
  {
    MoveRefines(db, c.req.cardId, c.req.toBucket, c.req.actorId, c.req.reason, c.now, c.base);
  }

  lemma RecordCallRefines(db: Tables, c: PgCall)
    requires Keyed(db) && Acts(db, c) && c.req.RecordEvent?
    ensures |StepActs(db, c)| == 1 && StepActs(db, c)[0].now == c.now
    ensures IsAct(db, Perform(db, c).after, StepActs(db, c)[0])
  {
    RecordRefines(db, CardEvent(c.base, c.req.cardId, c.req.eventType, c.req.actorId, c.req.payload, c.now));
  }

  lemma RegisterCallRefines(db: Tables, c: PgCall)
    requires Keyed(db) && Acts(db, c) && c.req.RegisterPanel?
    ensures Does(db, Perform(db, c).after, StepActs(db, c), c.now)
  {
    var panel := c.req.panel;
    if (panel.id, panel.version) in db.panels {
      RegisteredAgain(db, panel);
    } else {
      RegisterRefines(db, panel, c.now);
      DoesOne(db, Perform(db, c).after, StepActs(db, c)[0]);
    }
  }

  lemma PerformRefines(db: Tables, c: PgCall)
    requires Keyed(db) && FreshIds(db, c) && LegalChoice(db, c) && Acts(db, c)
    ensures Does(db, Perform(db, c).after, StepActs(db, c), c.now)
  {
    if c.req.RegisterPanel? {
      RegisterCallRefines(db, c);
    } else if c.req.ExpireLeases? {
      SweepRefines(db, c.now, c.base, c.choice.order);
    } else if c.req.ValidateCard? {
      ValidateRefines(db, c.req.cardId, c.req.validatorId, c.req.accepted, c.req.reason, c.req.exit, c.req.payload, c.now, c.base);
    } else {
      if c.req.CreateCard? {
        CreateCallRefines(db, c);
      } else if c.req.MoveCard? {
        MoveCallRefines(db, c);
      } else if c.req.RecordEvent? {
        RecordCallRefines(db, c);
      } else {
        LeaseCallRefines(db, c);
      }
      DoesOne(db, Perform(db, c).after, StepActs(db, c)[0]);
      assert StepActs(db, c) == [StepActs(db, c)[0]];
    }
  }

  /** An operation that raises rolls its transaction back. */
  lemma RaisingChangesNothing(db: Tables, c: PgCall)
    ensures Step(db, c).result.Err? ==> Step(db, c).after == db
  {
  }

  lemma StepOrNothing(db: Tables, c: PgCall)
    ensures Acts(db, c) ==> Step(db, c).after == Perform(db, c).after.(idempotency := Step(db, c).after.idempotency)
    ensures !Acts(db, c) ==> Step(db, c).after == db
  {
    if !Acts(db, c) { RaisingChangesNothing(db, c); }
  }

  /** Every call is a legal sequence of acts of the machine, all at the call's clock reading. */
  lemma StepRefines(db: Tables, c: PgCall)
    requires Keyed(db) && FreshIds(db, c) && LegalChoice(db, c)
    ensures Does(db, Step(db, c).after, StepActs(db, c), c.now)
  {
    StepOrNothing(db, c);
    if Acts(db, c) {
      PerformRefines(db, c);
      assert CoreOf(Step(db, c).after) == CoreOf(Perform(db, c).after);
    } else {
      DoesNothing(db, c.now);
    }
  }
}
