/**
 The Postgres runtime as a function of its tables (runtime/postgres.py), one serial transaction
 a call. What the database is free to choose (which row a query without an order returns
 first) is part of the call.
 */
module Postgres {
  import opened Prelude
  import opened Encoding
  import opened Domain
  import opened Service
  import opened PanelValidator
  import opened Requests
  import Machine

  datatype LocationStatus = Active | Pending | Exited

  datatype Location = Location(id: Uuid, cardId: Uuid, bucket: string, status: LocationStatus,
    enteredAt: Time, acceptedAt: Option<Time>, exitedAt: Option<Time>)

  datatype ValidationResult = ValidationResult(id: Uuid, cardId: Uuid, validatorId: string, accepted: bool,
    reason: Option<string>, outputPipe: Option<string>, payload: Json, createdAt: Time)

  /** The tables; `events` and `locations` in the order of insertion, the others by primary key. */
  datatype Tables = Tables(
    panels: map<(string, string), PatchPanel>,
    versions: map<string, (string, string)>,
    cards: map<Uuid, Card>,
    leases: map<Uuid, Lease>,
    artifacts: map<Uuid, ArtifactReference>,
    events: seq<CardEvent>,
    locations: seq<Location>,
    results: map<Uuid, ValidationResult>,
    idempotency: map<string, string>)

  const EmptyTables := Tables(map[], map[], map[], map[], map[], [], [], map[], map[])

  /** The database's choices: the version row a card is created from, the card row a claim gets,
      the order in which overdue leases come. */
  datatype Choice = Choice(version: string, card: Uuid, order: seq<Uuid>)

  datatype PgCall = PgCall(req: Request, now: Time, base: Uuid, choice: Choice)

  datatype Outcome = Outcome(after: Tables, result: Result<Reply, Error>)

  // ---- queries -----------------------------------------------------------------------------

  /** The rows of `_get_active_patch_panel`: registered definitions with a workflow version. */
  predicate ActivePanel(db: Tables, panelId: string, version: string) {
    (panelId, version) in db.panels && exists v :: v in db.versions && db.versions[v] == (panelId, version)
  }

  /** `_single_patch_panel` */
  ghost function SinglePanel(db: Tables): Result<PatchPanel, Error> {
    if db.panels == map[] then Err(NotFound)
    else if |db.panels| > 1 then Err(Conflict)
    else
      var key :| key in db.panels;
      Ok(db.panels[key])
  }

  /** `_get_patch_panel_for_card` */
  function PanelForCard(panels: map<(string, string), PatchPanel>, card: Card): Result<PatchPanel, Error> {
    match SplitFirst(card.workflowVersion)
    case None => Err(Malformed)
    case Some(key) => if key in panels then Ok(panels[key]) else Err(NotFound)
  }

  ghost predicate Claimable(db: Tables, bucket: string, now: Time, c: Uuid) {
    c in db.cards && db.cards[c].currentBucket == bucket && !Machine.HasActiveLease(db.leases, c, now)
  }

  predicate Overdue(lease: Lease, now: Time) {
    lease.releasedAt.None? && lease.expiresAt <= now
  }

  function OverdueRows(db: Tables, now: Time): set<Uuid> {
    set l | l in db.leases && Overdue(db.leases[l], now)
  }

  function EventById(events: seq<CardEvent>, id: Uuid): Option<CardEvent> {
    if events == [] then None
    else if events[0].id == id then Some(events[0])
    else EventById(events[1..], id)
  }

  /** `_get_artifacts`: the rows of the ids, in the order of the ids. */
  function GetArtifacts(table: map<Uuid, ArtifactReference>, ids: seq<Uuid>): Result<seq<ArtifactReference>, Error> {
    if forall i :: 0 <= i < |ids| ==> ids[i] in table
    then Ok(seq(|ids|, i requires 0 <= i < |ids| && ids[i] in table => table[ids[i]]))
    else Err(NotFound)
  }

  /** Where a claim looks for a card. */
  ghost function ClaimBucket(db: Tables, pipe: string): Result<Endpoint, Error> {
    match SinglePanel(db)
    case Err(e) => Err(e)
    case Ok(panel) => ResolvePipeBucket(panel, pipe, Input)
  }

  /** The choices a query could have made. */
  ghost predicate LegalChoice(db: Tables, c: PgCall) {
    && (c.req.CreateCard? ==> (exists v :: ActivePanel(db, c.req.panelId, v)) ==>
          ActivePanel(db, c.req.panelId, c.choice.version))
    && (c.req.ClaimCard? ==> ClaimBucket(db, c.req.pipe).Ok? ==>
          (exists x :: Claimable(db, ClaimBucket(db, c.req.pipe).value.bucket, c.now, x)) ==>
          Claimable(db, ClaimBucket(db, c.req.pipe).value.bucket, c.now, c.choice.card))
    && (c.req.ExpireLeases? ==> Lists(c.choice.order, OverdueRows(db, c.now)))
  }

  // ---- idempotency records -----------------------------------------------------------------

  /** The stored reference to an answer. */
  function RefOf(reply: Reply): string {
    match reply
    case CardReply(card) => KindRef("card", card.id)
    case LeaseReply(lease) => KindRef("lease", lease.id)
    case EventReply(event) => KindRef("event", event.id)
    case ArtifactsReply(refs) => ArtifactsRef(IdsOf(refs))
    case _ => ""
  }

  function IdsOf(refs: seq<ArtifactReference>): (ids: seq<Uuid>)
    ensures |ids| == |refs| && forall i :: 0 <= i < |refs| ==> ids[i] == refs[i].id
  {
    seq(|refs|, i requires 0 <= i < |refs| => refs[i].id)
  }

  function LoadCard(db: Tables, ref: string): Result<Reply, Error> {
    match ReadKindRef("card", ref)
    case None => Err(Malformed)
    case Some(id) => if id in db.cards then Ok(CardReply(db.cards[id])) else Err(NotFound)
  }

  function LoadLease(db: Tables, ref: string): Result<Reply, Error> {
    match ReadKindRef("lease", ref)
    case None => Err(Malformed)
    case Some(id) => if id in db.leases then Ok(LeaseReply(db.leases[id])) else Err(NotFound)
  }

  function LoadEvent(db: Tables, ref: string): Result<Reply, Error> {
    match ReadKindRef("event", ref)
    case None => Err(Malformed)
    case Some(id) =>
      match EventById(db.events, id)
      case None => Err(NotFound)
      case Some(event) => Ok(EventReply(event))
  }

  function LoadArtifacts(db: Tables, ref: string): Result<Reply, Error> {
    var ids :=
      if "artifact:" <= ref then
        match ReadKindRef("artifact", ref)
        case None => None
        case Some(id) => Some([id])
      else ReadArtifactsRef(ref);
    match ids
    case None => Err(Malformed)
    case Some(wanted) =>
      match GetArtifacts(db.artifacts, wanted)
      case Ok(refs) => Ok(ArtifactsReply(refs))
      case Err(e) => Err(e)
  }

  /** A call whose key is stored reads the row the stored reference names, as it is now. */
  function Replay(db: Tables, req: Request, ref: string): Result<Reply, Error> {
    match req
    case CreateCard(_, _, _, _) => LoadCard(db, ref)
    case MoveCard(_, _, _, _, _) => LoadCard(db, ref)
    case ClaimCard(_, _, _, _) => LoadLease(db, ref)
    case RenewLease(_, _, _) => LoadLease(db, ref)
    case ReleaseLease(_, _, _) => LoadLease(db, ref)
    case SubmitArtifact(_, _, _, _) => LoadArtifacts(db, ref)
    case ValidateCard(_, _, _, _, _, _, _) => LoadEvent(db, ref)
    case RecordEvent(_, _, _, _, _) => LoadEvent(db, ref)
    case _ => Err(Malformed)
  }

  function StoredRef(db: Tables, key: Option<string>): Option<string> {
    if Truthy(key) && key.value in db.idempotency && db.idempotency[key.value] != ""
    then Some(db.idempotency[key.value])
    else None
  }

  function Keep(db: Tables, key: Option<string>, reply: Reply): Tables {
    if Truthy(key) then db.(idempotency := db.idempotency[key.value := RefOf(reply)]) else db
  }

  // ---- moving a card row -------------------------------------------------------------------

  /** `UPDATE card_locations SET status = 'exited', exited_at = now WHERE card_id = .. AND status = 'active'` */
  function Leave(rows: seq<Location>, cardId: Uuid, now: Time): (left: seq<Location>)
    ensures |left| == |rows|
  {
    seq(|rows|, i requires 0 <= i < |rows| =>
      if rows[i].cardId == cardId && rows[i].status == Active
      then rows[i].(status := Exited, exitedAt := Some(now)) else rows[i])
  }

  function Enter(id: Uuid, cardId: Uuid, bucket: string, now: Time): Location {
    Location(id, cardId, bucket, Active, now, Some(now), None)
  }

  /** `_move_card_row` without its event. */
  function MoveRow(db: Tables, card: Card, toBucket: string, now: Time, locationId: Uuid): Tables {
    db.(locations := Leave(db.locations, card.id, now) + [Enter(locationId, card.id, toBucket, now)],
        cards := if card.id in db.cards
                 then db.cards[card.id := db.cards[card.id].(currentBucket := toBucket)] else db.cards)
  }

  function Log(db: Tables, event: CardEvent): Tables {
    db.(events := db.events + [event])
  }

  // ---- the operations ----------------------------------------------------------------------

  function Raise(db: Tables, e: Error): Outcome { Outcome(db, Err(e)) }

  ghost function Register(db: Tables, panel: PatchPanel): Outcome {
    if !Accepted(panel) then Raise(db, ValidationFailed)
    else
      var key, version := (panel.id, panel.version), panel.WorkflowVersion();
      Outcome(db.(panels := if key in db.panels then db.panels else db.panels[key := panel],
                  versions := if version in db.versions then db.versions else db.versions[version := key]),
              Ok(PanelReply(panel)))
  }

  function Create(db: Tables, panelId: string, payload: Json, metadata: Json, now: Time, base: Uuid, version: string): Outcome {
    if !ActivePanel(db, panelId, version) then Raise(db, NotFound)
    else
      var panel := db.panels[(panelId, version)];
      match ResolveInitialBucket(panel)
      case Err(e) => Raise(db, e)
      case Ok(bucket) =>
        var card := Card(base, panel.WorkflowVersion(), bucket, payload, metadata, now);
        Outcome(Log(db.(cards := db.cards[card.id := card],
                        locations := db.locations + [Enter(base + 1, card.id, bucket, now)]),
                    CreatedEvent(base + 2, card, panel, now)),
                Ok(CardReply(card)))
  }

  ghost function Claim(db: Tables, pipe: string, workerId: string, seconds: int, now: Time, base: Uuid, row: Uuid): Outcome {
    match ClaimBucket(db, pipe)
    case Err(e) => Raise(db, e)
    case Ok(end) =>
      if !Claimable(db, end.bucket, now, row) then Raise(db, NotFound)
      else
        var lease := Lease(base, db.cards[row].id, end.nodeId, workerId, pipe, now, now + seconds, None);
        Outcome(Log(db.(leases := db.leases[lease.id := lease]), ClaimedEvent(base + 1, lease, now)),
                Ok(LeaseReply(lease)))
  }

  /** The checks of a submission; the panel and destination it is allowed to go to. */
  function SubmitChecks(db: Tables, leaseId: Uuid, pipe: string, refs: seq<ArtifactReference>, now: Time)
    : (r: Result<(PatchPanel, string), Error>)
    ensures r.Ok? ==> leaseId in db.leases && db.leases[leaseId].cardId in db.cards
  {
    if leaseId !in db.leases then Err(NotFound)
    else if !db.leases[leaseId].Active(now) then Err(Conflict)
    else if db.leases[leaseId].cardId !in db.cards then Err(NotFound)
    else
      var card := db.cards[db.leases[leaseId].cardId];
      match PanelForCard(db.panels, card)
      case Err(e) => Err(e)
      case Ok(panel) =>
        match ResolvePipeBucket(panel, pipe, Output)
        case Err(e) => Err(e)
        case Ok(end) =>
          if !RefsBelong(card.id, refs) then Err(InvalidOperation)
          else if !ArtifactsAccepted(panel, end.bucket, refs) then Err(InvalidOperation)
          else if end.nodeId != db.leases[leaseId].nodeId then Err(Conflict)
          else Ok((panel, end.bucket))
  }

  /** Inserting the references breaks no primary key. */
  predicate Insertable(table: map<Uuid, ArtifactReference>, refs: seq<ArtifactReference>) {
    && (forall i :: 0 <= i < |refs| ==> refs[i].id !in table)
    && (forall i, j :: 0 <= i < j < |refs| ==> refs[i].id != refs[j].id)
  }

  function Submit(db: Tables, leaseId: Uuid, pipe: string, refs: seq<ArtifactReference>, now: Time, base: Uuid): Outcome {
    match SubmitChecks(db, leaseId, pipe, refs, now)
    case Err(e) => Raise(db, e)
    case Ok((_, destination)) =>
      if !Insertable(db.artifacts, refs) then Raise(db, Integrity)
      else
        var lease := db.leases[leaseId];
        var card := db.cards[lease.cardId];
        var stored := Stored(refs, card.id, base + 1);
        var moved := MoveRow(db, card, destination, now, base);
        Outcome(Log(moved.(leases := moved.leases[leaseId := moved.leases[leaseId].(releasedAt := Some(now))],
                           artifacts := Put(moved.artifacts, stored)),
                    SubmittedEvent(base + 1, lease, refs, pipe, destination, now)),
                Ok(ArtifactsReply(stored)))
  }

  function Renew(db: Tables, leaseId: Uuid, seconds: int, now: Time, base: Uuid): Outcome {
    if leaseId !in db.leases then Raise(db, NotFound)
    else if !db.leases[leaseId].Active(now) then Raise(db, Conflict)
    else
      var renewed := db.leases[leaseId].(expiresAt := now + seconds);
      Outcome(Log(db.(leases := db.leases[leaseId := renewed]), RenewedEvent(base, renewed, now)),
              Ok(LeaseReply(renewed)))
  }

  function Release(db: Tables, leaseId: Uuid, actorId: Option<string>, now: Time, base: Uuid): Outcome {
    if leaseId !in db.leases then Raise(db, NotFound)
    else
      var lease := db.leases[leaseId];
      if lease.releasedAt.Some? then Outcome(db, Ok(LeaseReply(lease)))
      else
        var released := lease.(releasedAt := Some(now));
        Outcome(Log(db.(leases := db.leases[leaseId := released]), ReleasedEvent(base, lease, actorId, now)),
                Ok(LeaseReply(released)))
  }

  datatype Sweep = Sweep(state: Tables, expired: seq<Lease>)

  /** The sweep's step over one row. */
  function Swept(before: Sweep, lease: Lease, now: Time, base: Uuid): Sweep {
    var released := lease.(releasedAt := Some(now));
    Sweep(Log(before.state.(leases := before.state.leases[lease.id := released]),
              ExpiredEvent(base + |before.expired|, lease, now)),
          before.expired + [released])
  }

  /** The tables after the first `k` of the overdue rows, and the leases expired so far. */
  function Expire(db: Tables, now: Time, base: Uuid, order: seq<Uuid>, k: nat): Sweep
    requires k <= |order|
  {
    if k == 0 then Sweep(db, [])
    else if order[k - 1] !in db.leases then Expire(db, now, base, order, k - 1)
    else Swept(Expire(db, now, base, order, k - 1), db.leases[order[k - 1]], now, base)
  }

  function ExpireAll(db: Tables, now: Time, base: Uuid, order: seq<Uuid>): Outcome {
    var sweep := Expire(db, now, base, order, |order|);
    Outcome(sweep.state, Ok(LeasesReply(sweep.expired)))
  }

  function RouteOf(panels: map<(string, string), PatchPanel>, card: Card, exit: Option<string>): Result<Option<Route>, Error> {
    if !Truthy(exit) then Ok(None)
    else
      match PanelForCard(panels, card)
      case Err(e) => Err(e)
      case Ok(panel) =>
        match ResolvePipeBucket(panel, exit.value, Output)
        case Err(e) => Err(e)
        case Ok(end) => Ok(Some(Route(exit.value, end.bucket)))
  }

  /** The card sent along its route, with the `card_moved` event Postgres adds. */
  function SentAlong(db: Tables, card: Card, validatorId: string, route: Option<Route>, now: Time, base: Uuid): Tables {
    if route.None? then db
    else Log(MoveRow(db, card, route.value.bucket, now, base),
             MovedEvent(base + 1, card, route.value.bucket, Some(validatorId), Some("validator_output"), now))
  }

  function ResultVerdict(accepted: bool, reason: Option<string>, resultId: Uuid): Json {
    Verdict(accepted, reason)["validation_result_id" := Str(Text(resultId))]
  }

  function Validate(db: Tables, cardId: Uuid, validatorId: string, accepted: bool, reason: Option<string>,
    exit: Option<string>, payload: Json, now: Time, base: Uuid): Outcome
  {
    if cardId !in db.cards then Raise(db, NotFound)
    else
      var card := db.cards[cardId];
      match RouteOf(db.panels, card, exit)
      case Err(e) => Raise(db, e)
      case Ok(route) =>
        var row := ValidationResult(base, card.id, validatorId, accepted, reason, exit, payload, now);
        var event := ValidatedEvent(base + 3, card.id, validatorId,
                                    ValidatedPayload(ResultVerdict(accepted, reason, base), payload, route), now);
        Outcome(Log(SentAlong(db.(results := db.results[base := row]), card, validatorId, route, now, base + 1), event),
                Ok(EventReply(event)))
  }

  ghost function Move(db: Tables, cardId: Uuid, toBucket: string, actorId: Option<string>,
    reason: Option<string>, now: Time, base: Uuid): Outcome
  {
    if cardId !in db.cards then Raise(db, NotFound)
    else
      var card := db.cards[cardId];
      match PanelForCard(db.panels, card)
      case Err(e) => Raise(db, e)
      case Ok(panel) =>
        if !panel.Declares(toBucket) then Raise(db, InvalidOperation)
        else Outcome(Log(MoveRow(db, card, toBucket, now, base), MovedEvent(base + 1, card, toBucket, actorId, reason, now)),
                     Ok(CardReply(card.(currentBucket := toBucket))))
  }

  function Record(db: Tables, cardId: Uuid, eventType: string, actorId: Option<string>, payload: Json,
    now: Time, base: Uuid): Outcome
  {
    if cardId !in db.cards then Raise(db, NotFound)
    else
      var event := CardEvent(base, cardId, eventType, actorId, payload, now);
      Outcome(Log(db, event), Ok(EventReply(event)))
  }

  ghost function Perform(db: Tables, c: PgCall): Outcome {
    match c.req
    case RegisterPanel(panel) => Register(db, panel)
    case CreateCard(panelId, payload, metadata, _) =>
      Create(db, panelId, payload, metadata, c.now, c.base, c.choice.version)
    case ClaimCard(pipe, workerId, seconds, _) => Claim(db, pipe, workerId, seconds, c.now, c.base, c.choice.card)
    case SubmitArtifact(leaseId, pipe, refs, _) => Submit(db, leaseId, pipe, refs, c.now, c.base)
    case RenewLease(leaseId, seconds, _) => Renew(db, leaseId, seconds, c.now, c.base)
    case ReleaseLease(leaseId, actorId, _) => Release(db, leaseId, actorId, c.now, c.base)
    case ExpireLeases => ExpireAll(db, c.now, c.base, c.choice.order)
    case ValidateCard(cardId, validatorId, accepted, reason, exit, payload, _) =>
      Validate(db, cardId, validatorId, accepted, reason, exit, payload, c.now, c.base)
    case MoveCard(cardId, toBucket, actorId, reason, _) => Move(db, cardId, toBucket, actorId, reason, c.now, c.base)
    case RecordEvent(cardId, eventType, actorId, payload, _) =>
      Record(db, cardId, eventType, actorId, payload, c.now, c.base)
  }

  predicate AnswersEarly(db: Tables, req: Request) {
    req.ReleaseLease? && req.leaseId in db.leases && db.leases[req.leaseId].releasedAt.Some?
  }

  function Answered(db: Tables, req: Request, done: Outcome): Outcome {
    match StoredRef(db, req.Key())
    case Some(ref) => Outcome(db, Replay(db, req, ref))
    case None =>
      if done.result.Err? || AnswersEarly(db, req) then done
      else Outcome(Keep(done.after, req.Key(), done.result.value), done.result)
  }

  ghost function Step(db: Tables, c: PgCall): Outcome {
    Answered(db, c.req, Perform(db, c))
  }

  ghost function Run(db: Tables, calls: seq<PgCall>): Tables {
    if calls == [] then db else Step(Run(db, calls[..|calls| - 1]), calls[|calls| - 1]).after
  }
}
