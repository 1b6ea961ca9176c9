/**
 The in-memory runtime as a function of its state (runtime/memory.py). A Python dictionary is
 a map, with the insertion order beside it where the code iterates.
 */
module Memory {
  import opened Prelude
  import opened Encoding
  import opened Domain
  import opened Service
  import opened PanelValidator
  import opened Requests
  import Machine

  datatype Mem = Mem(
    panels: map<string, PatchPanel>, panelOrder: seq<string>,
    cards: map<Uuid, Card>, cardOrder: seq<Uuid>,
    leases: map<Uuid, Lease>, leaseOrder: seq<Uuid>,
    artifacts: map<Uuid, ArtifactReference>,
    events: map<Uuid, seq<CardEvent>>,
    idempotency: map<string, Reply>)

  const Fresh := Mem(map[], [], map[], [], map[], [], map[], map[], map[])

  datatype Outcome = Outcome(after: Mem, result: Result<Reply, Error>)

  /** The orders list the dictionaries' keys. */
  ghost predicate Ordered(s: Mem) {
    && Lists(s.panelOrder, s.panels.Keys)
    && Lists(s.cardOrder, s.cards.Keys)
    && Lists(s.leaseOrder, s.leases.Keys)
  }

  /** Every record is stored under its own id, and every lease is on a known card. */
  ghost predicate Keyed(s: Mem) {
    && (forall c :: c in s.cards ==> s.cards[c].id == c)
    && (forall l :: l in s.leases ==> s.leases[l].id == l && s.leases[l].cardId in s.cards)
    && (forall p :: p in s.panels ==> s.panels[p].id == p)
    && s.events.Keys == s.cards.Keys
  }

  // ---- idempotency -------------------------------------------------------------------------

  /** `if cached := self._get_idempotent(key)`: a stored empty list counts as nothing stored. */
  function Cached(idempotency: map<string, Reply>, key: Option<string>): Option<Reply> {
    if Truthy(key) && key.value in idempotency && idempotency[key.value] != ArtifactsReply([])
    then Some(idempotency[key.value])
    else None
  }

  function Keep(idempotency: map<string, Reply>, key: Option<string>, reply: Reply): map<string, Reply> {
    if Truthy(key) then idempotency[key.value := reply] else idempotency
  }

  /** `_typed` */
  function Typed(req: Request, cached: Reply): Result<Reply, Error> {
    if Fits(req, cached) then Ok(cached) else Err(Conflict)
  }

  // ---- look-ups ----------------------------------------------------------------------------

  function PanelForCard(s: Mem, card: Card): Option<PatchPanel> {
    var id := HeadOfLast(card.workflowVersion);
    if id in s.panels then Some(s.panels[id]) else None
  }

  ghost predicate Claimable(s: Mem, version: string, bucket: string, now: Time, c: Uuid) {
    && c in s.cards && s.cards[c].workflowVersion == version && s.cards[c].currentBucket == bucket
    && !Machine.HasActiveLease(s.leases, c, now)
  }

  /** The first claimable card in the order of creation. */
  ghost function FirstClaimable(s: Mem, order: seq<Uuid>, version: string, bucket: string, now: Time): Option<Uuid> {
    if order == [] then None
    else if Claimable(s, version, bucket, now, order[0]) then Some(order[0])
    else FirstClaimable(s, order[1..], version, bucket, now)
  }

  datatype Match = Match(panel: PatchPanel, bucket: string, nodeId: string, card: Option<Uuid>)

  /** The panels among the first `k` registered that bind `pipe` as an input, with what each can
      offer. Only InvalidOperation is caught: a pipe whose node is not found ends the search. */
  ghost function Matches(s: Mem, pipe: string, now: Time, k: nat): Result<seq<Match>, Error>
    requires k <= |s.panelOrder|
  {
    if k == 0 then Ok([])
    else
      match Matches(s, pipe, now, k - 1)
      case Err(e) => Err(e)
      case Ok(found) =>
        var id := s.panelOrder[k - 1];
        if id !in s.panels then Ok(found)
        else
          match ResolvePipeBucket(s.panels[id], pipe, Input)
          case Err(InvalidOperation) => Ok(found)
          case Err(e) => Err(e)
          case Ok(end) =>
            Ok(found + [Match(s.panels[id], end.bucket, end.nodeId,
                              FirstClaimable(s, s.cardOrder, s.panels[id].WorkflowVersion(), end.bucket, now))])
  }

  function WithCards(found: seq<Match>): seq<Match> {
    if found == [] then []
    else WithCards(found[..|found| - 1]) + if found[|found| - 1].card.Some? then [found[|found| - 1]] else []
  }

  /** `_claim_target` */
  ghost function ClaimTarget(s: Mem, pipe: string, now: Time): Result<Match, Error> {
    match Matches(s, pipe, now, |s.panelOrder|)
    case Err(e) => Err(e)
    case Ok(found) =>
      if found == [] then Err(NotFound)
      else if |WithCards(found)| == 1 then Ok(WithCards(found)[0])
      else if |found| == 1 then Ok(found[0])
      else if WithCards(found) != [] then Err(Conflict)
      else Ok(found[0].(card := None))
  }

  // ---- the operations ----------------------------------------------------------------------

  function Raise(s: Mem, e: Error): Outcome { Outcome(s, Err(e)) }

  ghost function Register(s: Mem, panel: PatchPanel): Outcome {
    if !Accepted(panel) then Raise(s, ValidationFailed)
    else
      Outcome(s.(panels := s.panels[panel.id := panel],
                 panelOrder := Push(s.panelOrder, s.panels.Keys, panel.id)),
              Ok(PanelReply(panel)))
  }

  function Create(s: Mem, panelId: string, payload: Json, metadata: Json, now: Time, base: Uuid): Outcome {
    if panelId !in s.panels then Raise(s, NotFound)
    else
      var panel := s.panels[panelId];
      match ResolveInitialBucket(panel)
      case Err(e) => Raise(s, e)
      case Ok(bucket) =>
        var card := Card(base, panel.WorkflowVersion(), bucket, payload, metadata, now);
        Outcome(s.(cards := s.cards[card.id := card],
                   cardOrder := Push(s.cardOrder, s.cards.Keys, card.id),
                   events := Machine.Append(s.events, CreatedEvent(base + 1, card, panel, now))),
                Ok(CardReply(card)))
  }

  ghost function Claim(s: Mem, pipe: string, workerId: string, seconds: int, now: Time, base: Uuid): Outcome {
    match ClaimTarget(s, pipe, now)
    case Err(e) => Raise(s, e)
    case Ok(target) =>
      if target.card.None? then Raise(s, NotFound)
      else
        var lease := Lease(base, target.card.value, target.nodeId, workerId, pipe, now, now + seconds, None);
        Outcome(s.(leases := s.leases[lease.id := lease],
                   leaseOrder := Push(s.leaseOrder, s.leases.Keys, lease.id),
                   events := Machine.Append(s.events, ClaimedEvent(base + 1, lease, now))),
                Ok(LeaseReply(lease)))
  }

  /** The checks of a submission; the panel and destination it is allowed to go to. */
  function SubmitChecks(s: Mem, leaseId: Uuid, pipe: string, refs: seq<ArtifactReference>, now: Time)
    : (r: Result<(PatchPanel, string), Error>)
    ensures r.Ok? ==> leaseId in s.leases && s.leases[leaseId].Active(now)
    ensures r.Ok? ==> s.leases[leaseId].cardId in s.cards && RefsBelong(s.cards[s.leases[leaseId].cardId].id, refs)
  {
    if leaseId !in s.leases then Err(NotFound)
    else if !s.leases[leaseId].Active(now) then Err(Conflict)
    else if s.leases[leaseId].cardId !in s.cards then Err(NotFound)
    else
      var card := s.cards[s.leases[leaseId].cardId];
      match PanelForCard(s, card)
      case None => Err(NotFound)
      case Some(panel) =>
        match ResolvePipeBucket(panel, pipe, Output)
        case Err(e) => Err(e)
        case Ok(end) =>
          if !RefsBelong(card.id, refs) then Err(InvalidOperation)
          else if !ArtifactsAccepted(panel, end.bucket, refs) then Err(InvalidOperation)
          else if end.nodeId != s.leases[leaseId].nodeId then Err(Conflict)
          else Ok((panel, end.bucket))
  }

  function Submit(s: Mem, leaseId: Uuid, pipe: string, refs: seq<ArtifactReference>, now: Time, base: Uuid): Outcome {
    match SubmitChecks(s, leaseId, pipe, refs, now)
    case Err(e) => Raise(s, e)
    case Ok((_, destination)) =>
      var lease := s.leases[leaseId];
      var card := s.cards[lease.cardId];
      var stored := Stored(refs, card.id, base);
      Outcome(s.(cards := s.cards[card.id := card.(currentBucket := destination)],
                 leases := s.leases[lease.id := lease.(releasedAt := Some(now))],
                 artifacts := Put(s.artifacts, stored),
                 events := Machine.Append(s.events,
                   SubmittedEvent(base, lease, refs, pipe, destination, now))),
              Ok(ArtifactsReply(stored)))
  }

  function Renew(s: Mem, leaseId: Uuid, seconds: int, now: Time, base: Uuid): Outcome {
    if leaseId !in s.leases then Raise(s, NotFound)
    else if !s.leases[leaseId].Active(now) then Raise(s, Conflict)
    else
      var renewed := s.leases[leaseId].(expiresAt := now + seconds);
      Outcome(s.(leases := s.leases[renewed.id := renewed],
                 events := Machine.Append(s.events, RenewedEvent(base, renewed, now))),
              Ok(LeaseReply(renewed)))
  }

  function Release(s: Mem, leaseId: Uuid, actorId: Option<string>, now: Time, base: Uuid): Outcome {
    if leaseId !in s.leases then Raise(s, NotFound)
    else
      var lease := s.leases[leaseId];
      if lease.releasedAt.Some? then Outcome(s, Ok(LeaseReply(lease)))
      else
        var released := lease.(releasedAt := Some(now));
        Outcome(s.(leases := s.leases[released.id := released],
                   events := Machine.Append(s.events, ReleasedEvent(base, lease, actorId, now))),
                Ok(LeaseReply(released)))
  }

  predicate Overdue(lease: Lease, now: Time) {
    lease.releasedAt.None? && lease.expiresAt <= now
  }

  datatype Sweep = Sweep(state: Mem, expired: seq<Lease>)

  /** The sweep's step over one lease. */
  function Swept(before: Sweep, lease: Lease, now: Time, base: Uuid): Sweep {
    if !Overdue(lease, now) then before
    else
      var released := lease.(releasedAt := Some(now));
      Sweep(before.state.(leases := before.state.leases[lease.id := released],
                          events := Machine.Append(before.state.events,
                            ExpiredEvent(base + |before.expired|, lease, now))),
            before.expired + [released])
  }

  /** The state after sweeping the first `k` leases, and the leases expired so far. */
  function Expire(s: Mem, now: Time, base: Uuid, k: nat): Sweep
    requires k <= |s.leaseOrder|
  {
    if k == 0 then Sweep(s, [])
    else
      var before := Expire(s, now, base, k - 1);
      var id := s.leaseOrder[k - 1];
      if id !in s.leases then before else Swept(before, s.leases[id], now, base)
  }

  function ExpireAll(s: Mem, now: Time, base: Uuid): Outcome {
    var sweep := Expire(s, now, base, |s.leaseOrder|);
    Outcome(sweep.state, Ok(LeasesReply(sweep.expired)))
  }

  /** Where a validation sends the card: nowhere without an exit, else the bucket of the exit. */
  function RouteOf(s: Mem, card: Card, exit: Option<string>): Result<Option<Route>, Error> {
    if !Truthy(exit) then Ok(None)
    else
      match PanelForCard(s, card)
      case None => Err(NotFound)
      case Some(panel) =>
        match ResolvePipeBucket(panel, exit.value, Output)
        case Err(e) => Err(e)
        case Ok(end) => Ok(Some(Route(exit.value, end.bucket)))
  }

  function Routed(cards: map<Uuid, Card>, card: Card, route: Option<Route>): map<Uuid, Card> {
    if route.None? then cards else cards[card.id := card.(currentBucket := route.value.bucket)]
  }

  function Validate(s: Mem, cardId: Uuid, validatorId: string, accepted: bool, reason: Option<string>,
    exit: Option<string>, payload: Json, now: Time, base: Uuid): Outcome
  {
    if cardId !in s.cards then Raise(s, NotFound)
    else
      var card := s.cards[cardId];
      match RouteOf(s, card, exit)
      case Err(e) => Raise(s, e)
      case Ok(route) =>
        var event := ValidatedEvent(base, card.id, validatorId,
                                    ValidatedPayload(Verdict(accepted, reason), payload, route), now);
        Outcome(s.(cards := Routed(s.cards, card, route),
                   events := Machine.Append(s.events, event)),
                Ok(EventReply(event)))
  }

  ghost function Move(s: Mem, cardId: Uuid, toBucket: string, actorId: Option<string>,
    reason: Option<string>, now: Time, base: Uuid): Outcome
  {
    if cardId !in s.cards then Raise(s, NotFound)
    else
      var card := s.cards[cardId];
      match PanelForCard(s, card)
      case None => Raise(s, NotFound)
      case Some(panel) =>
        if !panel.Declares(toBucket) then Raise(s, InvalidOperation)
        else
          var moved := card.(currentBucket := toBucket);
          Outcome(s.(cards := s.cards[card.id := moved],
                     events := Machine.Append(s.events, MovedEvent(base, card, toBucket, actorId, reason, now))),
                  Ok(CardReply(moved)))
  }

  function Record(s: Mem, cardId: Uuid, eventType: string, actorId: Option<string>, payload: Json,
    now: Time, base: Uuid): Outcome
  {
    if cardId !in s.cards then Raise(s, NotFound)
    else
      var event := CardEvent(base, cardId, eventType, actorId, payload, now);
      Outcome(s.(events := Machine.Append(s.events, event)), Ok(EventReply(event)))
  }

  /** An operation apart from its idempotency key. */
  ghost function Perform(s: Mem, c: Call): Outcome {
    match c.req
    case RegisterPanel(panel) => Register(s, panel)
    case CreateCard(panelId, payload, metadata, _) => Create(s, panelId, payload, metadata, c.now, c.base)
    case ClaimCard(pipe, workerId, seconds, _) => Claim(s, pipe, workerId, seconds, c.now, c.base)
    case SubmitArtifact(leaseId, pipe, refs, _) => Submit(s, leaseId, pipe, refs, c.now, c.base)
    case RenewLease(leaseId, seconds, _) => Renew(s, leaseId, seconds, c.now, c.base)
    case ReleaseLease(leaseId, actorId, _) => Release(s, leaseId, actorId, c.now, c.base)
    case ExpireLeases => ExpireAll(s, c.now, c.base)
    case ValidateCard(cardId, validatorId, accepted, reason, exit, payload, _) =>
      Validate(s, cardId, validatorId, accepted, reason, exit, payload, c.now, c.base)
    case MoveCard(cardId, toBucket, actorId, reason, _) => Move(s, cardId, toBucket, actorId, reason, c.now, c.base)
    case RecordEvent(cardId, eventType, actorId, payload, _) =>
      Record(s, cardId, eventType, actorId, payload, c.now, c.base)
  }

  /** Releasing a lease that is already released answers without storing the key. */
  predicate AnswersEarly(s: Mem, req: Request) {
    req.ReleaseLease? && req.leaseId in s.leases && s.leases[req.leaseId].releasedAt.Some?
  }

  /** What the idempotency key makes of an operation's outcome `done`: a stored answer instead of
      it, or `done` with its answer stored unless it raised or answered early. */
  function Answered(s: Mem, req: Request, done: Outcome): Outcome {
    match Cached(s.idempotency, req.Key())
    case Some(cached) => Outcome(s, Typed(req, cached))
    case None =>
      if done.result.Err? || AnswersEarly(s, req) then done
      else Outcome(done.after.(idempotency := Keep(s.idempotency, req.Key(), done.result.value)), done.result)
  }

  /** One call. */
  ghost function Step(s: Mem, c: Call): Outcome {
    Answered(s, c.req, Perform(s, c))
  }

  // ---- every operation keeps the dictionaries in order -------------------------------------

  ghost predicate Valid(s: Mem) {
    Ordered(s) && Keyed(s)
  }

  lemma PushLists<K>(order: seq<K>, keys: set<K>, k: K)
    requires Lists(order, keys)
    ensures Lists(Push(order, keys, k), keys + {k})
  {
    if k !in keys { assert k == (order + [k])[|order|]; }
  }

  lemma {:induction false} FirstIsClaimable(s: Mem, order: seq<Uuid>, version: string, bucket: string, now: Time)
    ensures var c := FirstClaimable(s, order, version, bucket, now);
      c.Some? ==> c.value in order && Claimable(s, version, bucket, now, c.value)
  {
    if order != [] && !Claimable(s, version, bucket, now, order[0]) {
      FirstIsClaimable(s, order[1..], version, bucket, now);
    }
  }

  ghost predicate Offers(s: Mem, pipe: string, now: Time, m: Match) {
    && m.panel.id in s.panels && s.panels[m.panel.id] == m.panel
    && ResolvePipeBucket(m.panel, pipe, Input) == Ok(Endpoint(m.bucket, m.nodeId))
    && (m.card.Some? ==> Claimable(s, m.panel.WorkflowVersion(), m.bucket, now, m.card.value))
  }

  lemma {:induction false} MatchesOffer(s: Mem, pipe: string, now: Time, k: nat)
    requires Keyed(s) && k <= |s.panelOrder| && Matches(s, pipe, now, k).Ok?
    ensures forall m :: m in Matches(s, pipe, now, k).value ==> Offers(s, pipe, now, m)
  {
    if k > 0 {
      MatchesOffer(s, pipe, now, k - 1);
      var id := s.panelOrder[k - 1];
      if id in s.panels && ResolvePipeBucket(s.panels[id], pipe, Input).Ok? {
        FirstIsClaimable(s, s.cardOrder, s.panels[id].WorkflowVersion(),
                         ResolvePipeBucket(s.panels[id], pipe, Input).value.bucket, now);
      }
    }
  }

  lemma {:induction false} WithCardsFrom(found: seq<Match>)
    ensures forall m :: m in WithCards(found) ==> m in found && m.card.Some?
  {
    if found != [] { WithCardsFrom(found[..|found| - 1]); }
  }

  /** A claim goes to a card that has no active lease and sits where a registered panel says. */
  lemma TargetOffers(s: Mem, pipe: string, now: Time)
    requires Keyed(s) && ClaimTarget(s, pipe, now).Ok?
    ensures Offers(s, pipe, now, ClaimTarget(s, pipe, now).value)
  {
    MatchesOffer(s, pipe, now, |s.panelOrder|);
    var found := Matches(s, pipe, now, |s.panelOrder|).value;
    WithCardsFrom(found);
    assert found[0] in found && Offers(s, pipe, now, found[0]);
    if |WithCards(found)| == 1 { assert WithCards(found)[0] in WithCards(found); }
  }

  lemma RegisterKeepsValid(s: Mem, panel: PatchPanel)
    requires Valid(s)
    ensures Valid(Register(s, panel).after)
  {
    PushLists(s.panelOrder, s.panels.Keys, panel.id);
    assert s.panels[panel.id := panel].Keys == s.panels.Keys + {panel.id};
  }

  lemma CreateKeepsValid(s: Mem, panelId: string, payload: Json, metadata: Json, now: Time, base: Uuid)
    requires Valid(s)
    ensures Valid(Create(s, panelId, payload, metadata, now, base).after)
  {
    PushLists(s.cardOrder, s.cards.Keys, base);
    assert Create(s, panelId, payload, metadata, now, base).result.Ok? ==>
      Create(s, panelId, payload, metadata, now, base).after.cards.Keys == s.cards.Keys + {base};
  }

  lemma ClaimKeepsValid(s: Mem, pipe: string, workerId: string, seconds: int, now: Time, base: Uuid)
    requires Valid(s)
    ensures Valid(Claim(s, pipe, workerId, seconds, now, base).after)
  {
    PushLists(s.leaseOrder, s.leases.Keys, base);
    if ClaimTarget(s, pipe, now).Ok? { TargetOffers(s, pipe, now); }
    assert Claim(s, pipe, workerId, seconds, now, base).result.Ok? ==>
      Claim(s, pipe, workerId, seconds, now, base).after.leases.Keys == s.leases.Keys + {base};
  }

  /** Rewriting a card row or a lease row in place keeps everything in order. */
  lemma CardRewriteKeepsValid(s: Mem, card: Card)
    requires Valid(s) && card.id in s.cards
    ensures Valid(s.(cards := s.cards[card.id := card]))
  {
    assert s.cards[card.id := card].Keys == s.cards.Keys;
  }

  lemma LeaseRewriteKeepsValid(s: Mem, lease: Lease)
    requires Valid(s) && lease.id in s.leases && lease.cardId in s.cards
    ensures Valid(s.(leases := s.leases[lease.id := lease]))
  {
    assert s.leases[lease.id := lease].Keys == s.leases.Keys;
  }

  lemma NotesKeepValid(s: Mem, artifacts: map<Uuid, ArtifactReference>, events: map<Uuid, seq<CardEvent>>)
    requires Valid(s) && events.Keys == s.events.Keys
    ensures Valid(s.(artifacts := artifacts, events := events))
  {
  }

  lemma SubmitKeepsValid(s: Mem, leaseId: Uuid, pipe: string, refs: seq<ArtifactReference>, now: Time, base: Uuid)
    requires Valid(s)
    ensures Valid(Submit(s, leaseId, pipe, refs, now, base).after)
  {
    var o := Submit(s, leaseId, pipe, refs, now, base);
    if o.result.Ok? {
      var lease := s.leases[leaseId].(releasedAt := Some(now));
      LeaseRewriteKeepsValid(s, lease);
      var m := s.(leases := s.leases[lease.id := lease]);
      CardRewriteKeepsValid(m, o.after.cards[lease.cardId]);
      NotesKeepValid(m.(cards := o.after.cards), o.after.artifacts, o.after.events);
    }
  }

  lemma RenewKeepsValid(s: Mem, leaseId: Uuid, seconds: int, now: Time, base: Uuid)
    requires Valid(s)
    ensures Valid(Renew(s, leaseId, seconds, now, base).after)
  {
    var o := Renew(s, leaseId, seconds, now, base);
    if o.result.Ok? {
      LeaseRewriteKeepsValid(s, o.after.leases[leaseId]);
      NotesKeepValid(s.(leases := o.after.leases), s.artifacts, o.after.events);
    }
  }

  lemma ReleaseKeepsValid(s: Mem, leaseId: Uuid, actorId: Option<string>, now: Time, base: Uuid)
    requires Valid(s)
    ensures Valid(Release(s, leaseId, actorId, now, base).after)
  {
    var o := Release(s, leaseId, actorId, now, base);
    if o.after != s {
      LeaseRewriteKeepsValid(s, o.after.leases[leaseId]);
      NotesKeepValid(s.(leases := o.after.leases), s.artifacts, o.after.events);
    }
  }

  lemma SweptKeepsValid(before: Sweep, lease: Lease, now: Time, base: Uuid)
    requires Valid(before.state) && lease.id in before.state.leases
    requires before.state.leases[lease.id].cardId == lease.cardId
    ensures var m := Swept(before, lease, now, base).state;
      && Valid(m)
      && m == before.state.(leases := m.leases, events := m.events) && m.leases.Keys == before.state.leases.Keys
      && (forall l :: l in m.leases ==> m.leases[l].cardId == before.state.leases[l].cardId)
  {
    var m := Swept(before, lease, now, base).state;
    if Overdue(lease, now) {
      LeaseRewriteKeepsValid(before.state, m.leases[lease.id]);
      NotesKeepValid(before.state.(leases := m.leases), m.artifacts, m.events);
    }
  }

  lemma {:induction false} ExpireKeepsValid(s: Mem, now: Time, base: Uuid, k: nat)
    requires Valid(s) && k <= |s.leaseOrder|
    ensures Valid(Expire(s, now, base, k).state)
    ensures var m := Expire(s, now, base, k).state;
      && m == s.(leases := m.leases, events := m.events) && m.leases.Keys == s.leases.Keys
      && (forall l :: l in s.leases ==> m.leases[l].cardId == s.leases[l].cardId)
  {
    if k > 0 {
      ExpireKeepsValid(s, now, base, k - 1);
      SweptKeepsValid(Expire(s, now, base, k - 1), s.leases[s.leaseOrder[k - 1]], now, base);
    }
  }

  lemma ValidateKeepsValid(s: Mem, cardId: Uuid, validatorId: string, accepted: bool, reason: Option<string>,
    exit: Option<string>, payload: Json, now: Time, base: Uuid)
    requires Valid(s)
    ensures Valid(Validate(s, cardId, validatorId, accepted, reason, exit, payload, now, base).after)
  {
    var o := Validate(s, cardId, validatorId, accepted, reason, exit, payload, now, base);
    if o.result.Ok? {
      if o.after.cards != s.cards { CardRewriteKeepsValid(s, o.after.cards[cardId]); }
      NotesKeepValid(s.(cards := o.after.cards), s.artifacts, o.after.events);
    }
  }

  lemma MoveKeepsValid(s: Mem, cardId: Uuid, toBucket: string, actorId: Option<string>, reason: Option<string>,
    now: Time, base: Uuid)
    requires Valid(s)
    ensures Valid(Move(s, cardId, toBucket, actorId, reason, now, base).after)
  {
    var o := Move(s, cardId, toBucket, actorId, reason, now, base);
    if o.result.Ok? {
      CardRewriteKeepsValid(s, o.after.cards[cardId]);
      NotesKeepValid(s.(cards := o.after.cards), s.artifacts, o.after.events);
    }
  }

  lemma PerformKeepsValid(s: Mem, c: Call)
    requires Valid(s)
    ensures Valid(Perform(s, c).after)
  {
    match c.req
    case RegisterPanel(panel) => RegisterKeepsValid(s, panel);
    case CreateCard(panelId, payload, metadata, _) => CreateKeepsValid(s, panelId, payload, metadata, c.now, c.base);
    case ClaimCard(pipe, workerId, seconds, _) => ClaimKeepsValid(s, pipe, workerId, seconds, c.now, c.base);
    case SubmitArtifact(leaseId, pipe, refs, _) => SubmitKeepsValid(s, leaseId, pipe, refs, c.now, c.base);
    case RenewLease(leaseId, seconds, _) => RenewKeepsValid(s, leaseId, seconds, c.now, c.base);
    case ReleaseLease(leaseId, actorId, _) => ReleaseKeepsValid(s, leaseId, actorId, c.now, c.base);
    case ExpireLeases => ExpireKeepsValid(s, c.now, c.base, |s.leaseOrder|);
    case ValidateCard(cardId, validatorId, accepted, reason, exit, payload, _) =>
      ValidateKeepsValid(s, cardId, validatorId, accepted, reason, exit, payload, c.now, c.base);
    case MoveCard(cardId, toBucket, actorId, reason, _) =>
      MoveKeepsValid(s, cardId, toBucket, actorId, reason, c.now, c.base);
    case RecordEvent(_, _, _, _, _) =>
  }

  lemma AnsweredKeepsValid(s: Mem, req: Request, done: Outcome)
    requires Valid(s) && Valid(done.after)
    ensures Valid(Answered(s, req, done).after)
  {
  }

  /** Every call leaves records under their own ids and orders listing exactly the keys. */
  lemma StepKeepsValid(s: Mem, c: Call)
    requires Valid(s)
    ensures Valid(Step(s, c).after)
  {
    PerformKeepsValid(s, c);
    AnsweredKeepsValid(s, c.req, Perform(s, c));
  }

  // ---- runs --------------------------------------------------------------------------------

  ghost function Run(s: Mem, calls: seq<Call>): Mem {
    if calls == [] then s else Step(Run(s, calls[..|calls| - 1]), calls[|calls| - 1]).after
  }
}
