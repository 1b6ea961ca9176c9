/**
 The two runtimes take the same steps of the one machine. A call of either is the act its
 request names (a sweep is one expiry per overdue lease); Postgres is read with the extra
 `card_moved` of a routed validation, and the id of its result row, projected away.
 */
module Agreement {
  import opened Prelude
  import opened Encoding
  import opened Domain
  import opened Service
  import opened PanelValidator
  import opened Requests
  import opened Machine
  import T = MachineTheorems
  import M = Memory
  import MR = MemoryRefinement
  import P = Postgres
  import PR = PostgresRefinement
  import PT = PostgresTheorems

  const RESULT_ID := "validation_result_id"

  /** A validation event without the id of its result row. */
  function Bared(e: CardEvent): CardEvent {
    if e.eventType == "card_validated" then e.(payload := e.payload - {RESULT_ID}) else e
  }

  predicate Routes(e: CardEvent) {
    e.eventType == "card_validated" && "destination_bucket" in e.payload
  }

  /** Whether the last event of a history is a move. */
  predicate EndsInMove(history: seq<CardEvent>) {
    history != [] && history[|history| - 1].eventType == "card_moved"
  }

  /** A history without the move that each routed validation writes just before its event. */
  function Project(history: seq<CardEvent>): seq<CardEvent> {
    if history == [] then []
    else
      var front, e := history[..|history| - 1], history[|history| - 1];
      Project(if Routes(e) && EndsInMove(front) then front[..|front| - 1] else front) + [Bared(e)]
  }

  ghost function Projected(a: Core): Core {
    a.(log := map c | c in a.log :: Project(a.log[c]))
  }

  function BaredAct(t: Timed): Timed {
    if t.act.Validate?
    then t.(act := t.act.(verdict := t.act.verdict - {RESULT_ID}, payload := t.act.payload - {RESULT_ID}))
    else t
  }

  lemma ProjectAppend(history: seq<CardEvent>, e: CardEvent)
    requires Routes(e) ==> !EndsInMove(history)
    ensures Project(history + [e]) == Project(history) + [Bared(e)]
  {
    assert (history + [e])[..|history|] == history;
  }

  lemma ProjectPair(history: seq<CardEvent>, m: CardEvent, v: CardEvent)
    requires m.eventType == "card_moved" && Routes(v)
    ensures Project(history + [m] + [v]) == Project(history) + [Bared(v)]
  {
    assert (history + [m] + [v])[..|history| + 1] == history + [m];
    assert (history + [m])[..|history|] == history;
  }

  function LogProjected(log: map<Uuid, seq<CardEvent>>): map<Uuid, seq<CardEvent>> {
    map c | c in log :: Project(log[c])
  }

  lemma LogAppend(log: map<Uuid, seq<CardEvent>>, e: CardEvent)
    requires !Routes(e)
    ensures LogProjected(Append(log, e)) == Append(LogProjected(log), Bared(e))
  {
    ProjectAppend(if e.cardId in log then log[e.cardId] else [], e);
  }

  lemma LogPair(log: map<Uuid, seq<CardEvent>>, m: CardEvent, v: CardEvent)
    requires m.cardId == v.cardId && m.eventType == "card_moved" && Routes(v)
    ensures LogProjected(Append(Append(log, m), v)) == Append(LogProjected(log), Bared(v))
  {
    var history := if m.cardId in log then log[m.cardId] else [];
    ProjectPair(history, m, v);
    assert Append(Append(log, m), v)[v.cardId] == history + [m] + [v];
  }

  lemma BaredPayload(verdict: Json, payload: Json, route: Option<Route>)
    ensures ValidatedPayload(verdict, payload, route) - {RESULT_ID}
         == ValidatedPayload(verdict - {RESULT_ID}, payload - {RESULT_ID}, route)
  {
  }

  /** The event of a bared act is the bared event. */
  lemma BaredEvent(a: Core, t: Timed)
    requires Enabled(a, t) && T.KeepsMovementNames(t.act)
    ensures Enabled(Projected(a), BaredAct(t))
    ensures EventWritten(a, t).Some? ==>
      EventWritten(Projected(a), BaredAct(t)) == Some(Bared(EventWritten(a, t).value))
    ensures EventWritten(a, t).None? ==> EventWritten(Projected(a), BaredAct(t)).None?
    ensures LeaseWritten(Projected(a), BaredAct(t)) == LeaseWritten(a, t)
    ensures CardWritten(Projected(a), BaredAct(t)) == CardWritten(a, t)
    ensures ArtifactsWritten(Projected(a), BaredAct(t)) == ArtifactsWritten(a, t)
  {
    if t.act.Validate? { BaredPayload(t.act.verdict, t.act.payload, t.act.route); }
  }

  predicate RoutedAct(act: Act) { act.Validate? && act.route.Some? }

  lemma EventRoutesIff(a: Core, t: Timed)
    requires Enabled(a, t) && T.KeepsMovementNames(t.act) && EventWritten(a, t).Some?
    ensures Routes(EventWritten(a, t).value) <==> RoutedAct(t.act)
  {
  }

  /** An act other than a routed validation stays one act under the projection. */
  lemma PlainActProjects(a: Core, t: Timed)
    requires Enabled(a, t) && T.KeepsMovementNames(t.act) && !RoutedAct(t.act)
    ensures Takes(Projected(a), BaredAct(t), Projected(Apply(a, t)))
  {
    BaredEvent(a, t);
    if EventWritten(a, t).Some? {
      EventRoutesIff(a, t);
      LogAppend(a.log, EventWritten(a, t).value);
    }
  }

  lemma EmptyWriteIsSame(cards: map<Uuid, Card>, c: Uuid, bucket: string)
    requires c in cards && cards[c].id == c
    ensures cards[c := cards[c].(currentBucket := bucket)][c := cards[c].(currentBucket := bucket)]
         == cards[c := cards[c].(currentBucket := bucket)]
  {
  }

  /** A move and the routed validation that follows it are one act under the projection. */
  lemma PairProjects(a: Core, m: Timed, v: Timed)
    requires T.Sound(a) && Enabled(a, m) && m.act.Move? && RoutedAct(v.act) && T.KeepsMovementNames(v.act)
    requires v.act.cardId == m.act.cardId && v.act.route.value.bucket == m.act.toBucket
    ensures Enabled(Apply(a, m), v)
    ensures Takes(Projected(a), BaredAct(v), Projected(Apply(Apply(a, m), v)))
  {
    var mid := Apply(a, m);
    BaredEvent(a, v);
    EventRoutesIff(a, v);
    LogPair(a.log, EventWritten(a, m).value, EventWritten(a, v).value);
    assert EventWritten(mid, v) == EventWritten(a, v);
    EmptyWriteIsSame(a.cards, v.act.cardId, m.act.toBucket);
  }

  // ---- what each request asks for ----------------------------------------------------------

  /** The act is the one the request names, with what the request leaves open filled in from a registered
      panel: where a card starts, where a pipe leads and from which node. Only the card of a claim and the
      drawn ids are free. */
  ghost predicate Answers(a: Core, req: Request, t: Timed) {
    match t.act
    case Register(panel, _) => req == RegisterPanel(panel)
    case Create(panel, card, _) =>
      && req.CreateCard? && panel in a.panels && panel.id == req.panelId && card.workflowVersion == panel.WorkflowVersion()
      && ResolveInitialBucket(panel) == Ok(card.currentBucket)
      && card.payload == req.payload && card.metadata == req.metadata && card.createdAt == t.now
    case Claim(panel, lease, _) =>
      && req.ClaimCard? && panel in a.panels && lease.cardId in a.cards
      && ResolvePipeBucket(panel, req.pipe, Input) == Ok(Endpoint(a.cards[lease.cardId].currentBucket, lease.nodeId))
      && lease.inputPipe == req.pipe && lease.workerId == req.workerId
      && lease.claimedAt == t.now && lease.expiresAt == t.now + req.seconds && lease.releasedAt == None
    case Submit(panel, leaseId, pipe, destination, refs, _) =>
      && req.SubmitArtifact? && leaseId == req.leaseId && pipe == req.pipe && refs == req.refs
      && panel in a.panels && leaseId in a.leases
      && ResolvePipeBucket(panel, pipe, Output) == Ok(Endpoint(destination, a.leases[leaseId].nodeId))
    case Renew(leaseId, seconds, _) => req.RenewLease? && leaseId == req.leaseId && seconds == req.seconds
    case Release(leaseId, actorId, _) => req.ReleaseLease? && leaseId == req.leaseId && actorId == req.actorId
    case Expire(_, _) => req.ExpireLeases?
    case Validate(cardId, validatorId, verdict, payload, panel, route, _) =>
      && req.ValidateCard? && cardId == req.cardId && validatorId == req.validatorId
      && verdict == Verdict(req.accepted, req.reason) && payload == req.payload
      && (route.Some? <==> Truthy(req.exit))
      && (route.Some? ==> route.value.pipe == req.exit.value && panel in a.panels && LeadsTo(panel, route.value))
    case Move(panel, cardId, toBucket, actorId, reason, _) =>
      && req.MoveCard? && cardId == req.cardId && toBucket == req.toBucket && actorId == req.actorId
      && reason == req.reason && panel in a.panels && panel.Declares(toBucket)
    case Record(event) =>
      && req.RecordEvent? && event.cardId == req.cardId && event.eventType == req.eventType
      && event.actorId == req.actorId && event.payload == req.payload && event.occurredAt == t.now
  }

  /** The route's pipe leads to its bucket. */
  predicate LeadsTo(panel: PatchPanel, route: Route) {
    ResolvePipeBucket(panel, route.pipe, Output).Ok? && ResolvePipeBucket(panel, route.pipe, Output).value.bucket == route.bucket
  }

  /** The acts are what the request asks for at that clock reading: one act, or one per lease of a sweep. */
  ghost predicate Carries(a: Core, req: Request, now: Time, ts: seq<Timed>) {
    && (forall t :: t in ts ==> t.now == now && Answers(a, req, t))
    && (!req.ExpireLeases? ==> |ts| <= 1)
  }

  // ---- the in-memory runtime ---------------------------------------------------------------

  lemma {:induction false} MemorySweepAnswers(s: M.Mem, now: Time, base: Uuid, k: nat)
    requires k <= |s.leaseOrder|
    ensures Carries(MR.CoreOf(s), ExpireLeases, now, MR.SweepActs(s, now, base, k))
  {
    if k > 0 { MemorySweepAnswers(s, now, base, k - 1); }
  }

  lemma {:induction false} MemoryCardActAnswers(s: M.Mem, c: Call)
    requires M.Valid(s) && MR.FreshIds(s, c) && MR.Acts(s, c)
    requires c.req.RegisterPanel? || c.req.CreateCard? || c.req.MoveCard? || c.req.RecordEvent?
    ensures Answers(MR.CoreOf(s), c.req, Timed(MR.ActOf(s, c), c.now))
  {
    if c.req.CreateCard? { MR.CreateRefines(s, c.req.panelId, c.req.payload, c.req.metadata, c.now, c.base); }
  }

  lemma {:induction false} MemoryValidationAnswers(s: M.Mem, c: Call)
    requires M.Valid(s) && MR.FreshIds(s, c) && MR.Acts(s, c) && c.req.ValidateCard?
    ensures Answers(MR.CoreOf(s), c.req, Timed(MR.ActOf(s, c), c.now))
  {
  }

  lemma {:induction false} MemoryClaimAnswers(s: M.Mem, c: Call)
    requires M.Valid(s) && MR.FreshIds(s, c) && MR.Acts(s, c) && c.req.ClaimCard?
    ensures Answers(MR.CoreOf(s), c.req, Timed(MR.ActOf(s, c), c.now))
  {
    MR.ClaimRefines(s, c.req.pipe, c.req.workerId, c.req.seconds, c.now, c.base);
    M.TargetOffers(s, c.req.pipe, c.now);
  }

  lemma {:induction false} MemoryLeaseActAnswers(s: M.Mem, c: Call)
    requires M.Valid(s) && MR.FreshIds(s, c) && MR.Acts(s, c)
    requires c.req.SubmitArtifact? || c.req.RenewLease? || c.req.ReleaseLease?
    ensures Answers(MR.CoreOf(s), c.req, Timed(MR.ActOf(s, c), c.now))
  {
  }

  /** A call of the in-memory runtime takes the machine's steps its request asks for. */
  lemma MemoryTakesAskedSteps(s: M.Mem, c: Call)
    requires M.Valid(s) && MR.FreshIds(s, c)
    ensures Leads(MR.CoreOf(s), MR.StepActs(s, c), MR.CoreOf(M.Step(s, c).after))
    ensures Carries(MR.CoreOf(s), c.req, c.now, MR.StepActs(s, c))
  {
    MR.StepRefines(s, c);
    if MR.Acts(s, c) {
      if c.req.ExpireLeases? {
        MemorySweepAnswers(s, c.now, c.base, |s.leaseOrder|);
      } else if c.req.ClaimCard? {
        MemoryClaimAnswers(s, c);
      } else if c.req.SubmitArtifact? || c.req.RenewLease? || c.req.ReleaseLease? {
        MemoryLeaseActAnswers(s, c);
      } else if c.req.ValidateCard? {
        MemoryValidationAnswers(s, c);
      } else {
        MemoryCardActAnswers(s, c);
      }
    }
  }

  // ---- the Postgres runtime ----------------------------------------------------------------

  /** The caller leaves the entries the runtimes add to the runtimes. */
  predicate ReservesNames(req: Request) {
    ReservesMovement(req) && (req.ValidateCard? ==> RESULT_ID !in req.payload)
  }

  function BaredActs(ts: seq<Timed>): seq<Timed> {
    seq(|ts|, i requires 0 <= i < |ts| => BaredAct(ts[i]))
  }

  lemma BaredSnoc(front: seq<Timed>, t: Timed)
    ensures BaredActs(front + [t]) == BaredActs(front) + [BaredAct(t)]
  {
  }

  /** Acts without a routed validation among them project one to one. */
  lemma {:induction false} PlainActsProject(a: Core, ts: seq<Timed>)
    requires Legal(a, ts) && T.AllKeepMovementNames(ts) && forall t :: t in ts ==> !RoutedAct(t.act)
    ensures Leads(Projected(a), BaredActs(ts), Projected(Play(a, ts)))
  {
    if ts != [] {
      var front, t := ts[..|ts| - 1], ts[|ts| - 1];
      assert t in ts;
      PlainActsProject(a, front);
      PlainActProjects(Play(a, front), t);
      Snoc(Projected(a), BaredActs(front), Projected(Play(a, front)), BaredAct(t), Projected(Play(a, ts)));
      BaredSnoc(front, t);
      assert ts == front + [t];
    }
  }

  lemma {:induction false} PairOfActsProjects(a: Core, ts: seq<Timed>)
    requires T.Sound(a) && Legal(a, ts) && |ts| == 2 && ts[0].act.Move? && RoutedAct(ts[1].act)
    requires T.KeepsMovementNames(ts[1].act) && ts[1].act.cardId == ts[0].act.cardId
    requires ts[1].act.route.value.bucket == ts[0].act.toBucket
    ensures Leads(Projected(a), [BaredAct(ts[1])], Projected(Play(a, ts)))
  {
    PT.TwoActs(a, ts);
    PairProjects(a, ts[0], ts[1]);
    One(Projected(a), BaredAct(ts[1]));
  }

  /** The acts of a Postgres call under the projection: of a validation, only the validation. */
  ghost function ProjectedActs(db: P.Tables, c: P.PgCall): seq<Timed> {
    var ts := PR.StepActs(db, c);
    if c.req.ValidateCard? && ts != [] then [BaredAct(ts[|ts| - 1])] else ts
  }

  /** What a Postgres call other than a validation leads to. */
  ghost predicate PlainlyCarries(db: P.Tables, c: P.PgCall) {
    && Carries(PR.CoreOf(db), c.req, c.now, PR.StepActs(db, c))
    && forall t :: t in PR.StepActs(db, c) ==> !t.act.Validate?
  }

  lemma {:induction false} PostgresCreationAnswers(db: P.Tables, c: P.PgCall)
    requires PR.Keyed(db) && PR.Acts(db, c) && c.req.CreateCard?
    ensures PlainlyCarries(db, c)
  {
  }

  lemma {:induction false} PostgresCardCallAnswers(db: P.Tables, c: P.PgCall)
    requires PR.Keyed(db) && PR.Acts(db, c)
    requires c.req.RegisterPanel? || c.req.MoveCard? || c.req.RecordEvent?
    ensures PlainlyCarries(db, c)
  {
  }

  lemma {:induction false} PostgresClaimAnswers(db: P.Tables, c: P.PgCall)
    requires PR.Keyed(db) && PR.Acts(db, c) && c.req.ClaimCard?
    ensures PlainlyCarries(db, c)
  {
    PT.OnlyPanel(db);
  }

  lemma {:induction false} PostgresSubmitAnswers(db: P.Tables, c: P.PgCall)
    requires PR.Acts(db, c) && c.req.SubmitArtifact?
    ensures PlainlyCarries(db, c)
  {
  }

  lemma {:induction false} PostgresUpkeepAnswers(db: P.Tables, c: P.PgCall)
    requires PR.Acts(db, c) && (c.req.RenewLease? || c.req.ReleaseLease? || c.req.ExpireLeases?)
    ensures PlainlyCarries(db, c)
  {
  }

  lemma {:induction false} BaredPlainActs(ts: seq<Timed>)
    requires forall t :: t in ts ==> !t.act.Validate?
    ensures BaredActs(ts) == ts
  {
    forall i | 0 <= i < |ts|
      ensures BaredActs(ts)[i] == ts[i]
    { assert ts[i] in ts; }
  }

  /** The route comes from a registered panel, exactly when an exit is asked for. */
  ghost predicate RouteFits(a: Core, exit: Option<string>, panel: PatchPanel, route: Option<Route>) {
    && (route.Some? <==> Truthy(exit))
    && (route.Some? ==> route.value.pipe == exit.value)
    && (route.Some? ==> panel in a.panels && LeadsTo(panel, route.value))
  }

  lemma {:induction false} PostgresRouteFits(db: P.Tables, card: Card, exit: Option<string>)
    requires P.RouteOf(db.panels, card, exit).Ok?
    ensures RouteFits(PR.CoreOf(db), exit, PR.PanelOr(db.panels, card), P.RouteOf(db.panels, card, exit).value)
  {
  }

  function ValidationAct(req: Request, panel: PatchPanel, route: Option<Route>, now: Time, base: Uuid): Timed
    requires req.ValidateCard?
  {
    Timed(Validate(req.cardId, req.validatorId, P.ResultVerdict(req.accepted, req.reason, base), req.payload, panel, route, base + 3), now)
  }

  lemma BaredValidationAnswers(a: Core, req: Request, panel: PatchPanel, route: Option<Route>, now: Time, base: Uuid)
    requires req.ValidateCard? && ReservesNames(req) && RouteFits(a, req.exit, panel, route)
    ensures Answers(a, req, BaredAct(ValidationAct(req, panel, route, now, base)))
  {
    assert P.ResultVerdict(req.accepted, req.reason, base) - {RESULT_ID} == Verdict(req.accepted, req.reason);
    assert req.payload - {RESULT_ID} == req.payload;
  }

  /** The acts of a routed validation are a move along the route and the validation. */
  lemma {:induction false} PostgresValidationActs(db: P.Tables, c: P.PgCall)
    requires PR.Acts(db, c) && c.req.ValidateCard?
    ensures c.req.cardId in db.cards && P.RouteOf(db.panels, db.cards[c.req.cardId], c.req.exit).Ok?
    ensures var ts, route := PR.StepActs(db, c), P.RouteOf(db.panels, db.cards[c.req.cardId], c.req.exit).value;
      && |ts| == (if route.Some? then 2 else 1)
      && ts[|ts| - 1] == ValidationAct(c.req, PR.PanelOr(db.panels, db.cards[c.req.cardId]), route, c.now, c.base)
      && (|ts| == 2 ==> ts[0].act.Move? && ts[0].act.cardId == c.req.cardId && ts[0].act.toBucket == route.value.bucket)
  {
  }

  lemma {:induction false} PostgresValidationAnswers(db: P.Tables, c: P.PgCall)
    requires PR.Acts(db, c) && c.req.ValidateCard? && ReservesNames(c.req)
    ensures var ts := PR.StepActs(db, c);
      ValidationActs(ts) && Carries(PR.CoreOf(db), c.req, c.now, [BaredAct(ts[|ts| - 1])])
  {
    PostgresValidationActs(db, c);
    var card := db.cards[c.req.cardId];
    PostgresRouteFits(db, card, c.req.exit);
    BaredValidationAnswers(PR.CoreOf(db), c.req, PR.PanelOr(db.panels, card), P.RouteOf(db.panels, card, c.req.exit).value, c.now, c.base);
  }

  /** The acts of a validation: itself, after a move along its route if it has one. */
  predicate ValidationActs(ts: seq<Timed>) {
    && (|ts| == 1 || |ts| == 2)
    && (|ts| == 1 ==> !RoutedAct(ts[0].act))
    && (|ts| == 2 ==>
          && ts[0].act.Move? && RoutedAct(ts[1].act) && ts[1].act.cardId == ts[0].act.cardId
          && ts[1].act.route.value.bucket == ts[0].act.toBucket)
  }

  lemma {:induction false} ValidationActsProject(a: Core, ts: seq<Timed>)
    requires T.Sound(a) && Legal(a, ts) && T.AllKeepMovementNames(ts) && ValidationActs(ts)
    ensures Leads(Projected(a), [BaredAct(ts[|ts| - 1])], Projected(Play(a, ts)))
  {
    if |ts| == 2 {
      PairOfActsProjects(a, ts);
    } else {
      PlainActsProject(a, ts);
      assert BaredActs(ts) == [BaredAct(ts[0])];
    }
  }

  lemma PostgresValidationSteps(db: P.Tables, c: P.PgCall)
    requires PR.Keyed(db) && PR.FreshIds(db, c) && P.LegalChoice(db, c) && ReservesNames(c.req)
    requires c.req.ValidateCard? && PR.Acts(db, c)
    ensures Leads(Projected(PR.CoreOf(db)), ProjectedActs(db, c), Projected(PR.CoreOf(P.Step(db, c).after)))
    ensures Carries(PR.CoreOf(db), c.req, c.now, ProjectedActs(db, c))
  {
    PR.StepRefines(db, c);
    PT.StepKeepsNames(db, c);
    PR.KeyedIsSound(db);
    PostgresValidationAnswers(db, c);
    ValidationActsProject(PR.CoreOf(db), PR.StepActs(db, c));
  }

  lemma PostgresPlainSteps(db: P.Tables, c: P.PgCall)
    requires PR.Keyed(db) && PR.FreshIds(db, c) && P.LegalChoice(db, c) && ReservesNames(c.req)
    requires PlainlyCarries(db, c)
    ensures var ts := PR.StepActs(db, c);
      Leads(Projected(PR.CoreOf(db)), ts, Projected(PR.CoreOf(P.Step(db, c).after)))
  {
    PR.StepRefines(db, c);
    PT.StepKeepsNames(db, c);
    BaredPlainActs(PR.StepActs(db, c));
    PlainActsProject(PR.CoreOf(db), PR.StepActs(db, c));
  }

  /** A call of the Postgres runtime takes the machine's steps its request asks for, with the
      logs projected. */
  lemma PostgresTakesAskedSteps(db: P.Tables, c: P.PgCall)
    requires PR.Keyed(db) && PR.FreshIds(db, c) && P.LegalChoice(db, c) && ReservesNames(c.req)
    ensures Leads(Projected(PR.CoreOf(db)), ProjectedActs(db, c), Projected(PR.CoreOf(P.Step(db, c).after)))
    ensures Carries(PR.CoreOf(db), c.req, c.now, ProjectedActs(db, c))
  {
    if PR.Acts(db, c) && c.req.ValidateCard? {
      PostgresValidationSteps(db, c);
    } else {
      if PR.Acts(db, c) {
        if c.req.RegisterPanel? || c.req.MoveCard? || c.req.RecordEvent? {
          PostgresCardCallAnswers(db, c);
        } else if c.req.CreateCard? {
          PostgresCreationAnswers(db, c);
        } else if c.req.ClaimCard? {
          PostgresClaimAnswers(db, c);
        } else if c.req.SubmitArtifact? {
          PostgresSubmitAnswers(db, c);
        } else {
          PostgresUpkeepAnswers(db, c);
        }
      }
      assert PlainlyCarries(db, c);
      PostgresPlainSteps(db, c);
    }
  }
}
