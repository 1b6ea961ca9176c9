/** The in-memory runtime in the form of the program: fields updated in place, method by method. */
module MemoryRuntime {
  import opened Prelude
  import opened Encoding
  import opened Domain
  import opened Service
  import opened PanelValidator
  import opened Requests
  import Machine
  import M = Memory

  class InMemoryCardRuntime {
    var patchPanels: map<string, PatchPanel>
    var panelOrder: seq<string>
    var cards: map<Uuid, Card>
    var cardOrder: seq<Uuid>
    var leases: map<Uuid, Lease>
    var leaseOrder: seq<Uuid>
    var artifacts: map<Uuid, ArtifactReference>
    var events: map<Uuid, seq<CardEvent>>
    var idempotency: map<string, Reply>

    ghost function Snapshot(): M.Mem
      reads this
    {
      M.Mem(patchPanels, panelOrder, cards, cardOrder, leases, leaseOrder, artifacts, events, idempotency)
    }

    /** Kept by every operation: `Memory.StepKeepsValid`, since each leaves the state its
        specification gives. Asked only where a loop runs over a dictionary. */
    ghost predicate Valid()
      reads this
    {
      M.Valid(Snapshot())
    }

    constructor ()
      ensures Valid() && Snapshot() == M.Fresh
    {
      patchPanels, panelOrder := map[], [];
      cards, cardOrder := map[], [];
      leases, leaseOrder := map[], [];
      artifacts, events, idempotency := map[], map[], map[];
    }

    /** `_record_event` */
    method RecordLog(event: CardEvent)
      modifies this`events
      ensures events == Machine.Append(old(events), event)
    {
      if event.cardId !in events {
        events := events[event.cardId := []];
      }
      events := events[event.cardId := events[event.cardId] + [event]];
    }

    /** `_store_idempotent` */
    method StoreIdempotent(key: Option<string>, value: Reply)
      modifies this`idempotency
      ensures idempotency == M.Keep(old(idempotency), key, value)
    {
      if Truthy(key) {
        idempotency := idempotency[key.value := value];
      }
    }

    method RegisterPatchPanel(panel: PatchPanel, now: Time, base: Uuid) returns (r: Result<Reply, Error>)
      modifies this
      ensures M.Outcome(Snapshot(), r) == M.Answered(old(Snapshot()), Request.RegisterPanel(panel),
        M.Register(old(Snapshot()), panel))
    {
      var report := ValidatePanel(panel);
      if report.Err? {
        return Err(ValidationFailed);
      }
      panelOrder := Push(panelOrder, patchPanels.Keys, panel.id);
      patchPanels := patchPanels[panel.id := panel];
      r := Ok(PanelReply(panel));
    }

    /** The card's row and its first event. */
    method WriteCard(panel: PatchPanel, bucket: string, payload: Json, metadata: Json, now: Time, base: Uuid) returns (card: Card)
      modifies this
      ensures card == Card(base, panel.WorkflowVersion(), bucket, payload, metadata, now)
      ensures Snapshot() == old(Snapshot()).(
        cards := old(cards)[base := card], cardOrder := Push(old(cardOrder), old(cards).Keys, base),
        events := Machine.Append(old(events), CreatedEvent(base + 1, card, panel, now)))
    {
      card := Card(base, Version(panel.id, panel.version), bucket, payload, metadata, now);
      cardOrder := Push(cardOrder, cards.Keys, card.id);
      cards := cards[card.id := card];
      RecordLog(CreatedEvent(base + 1, card, panel, now));
    }

    method CreateCard(panelId: string, payload: Json, metadata: Json, key: Option<string>, now: Time, base: Uuid)
      returns (r: Result<Reply, Error>)
      modifies this
      ensures M.Outcome(Snapshot(), r) == M.Answered(old(Snapshot()), Request.CreateCard(panelId, payload, metadata, key),
        M.Create(old(Snapshot()), panelId, payload, metadata, now, base))
    {
      var cached := M.Cached(idempotency, key);
      if cached.Some? {
        return M.Typed(Request.CreateCard(panelId, payload, metadata, key), cached.value);
      }
      if panelId !in patchPanels {
        return Err(NotFound);
      }
      var panel := patchPanels[panelId];
      var bucket := ResolveInitialBucket(panel);
      if bucket.Err? {
        return Err(bucket.error);
      }
      var card := WriteCard(panel, bucket.value, payload, metadata, now, base);
      assert M.Outcome(Snapshot(), Ok(CardReply(card))) == M.Create(old(Snapshot()), panelId, payload, metadata, now, base);
      StoreIdempotent(key, CardReply(card));
      r := Ok(CardReply(card));
    }

    /** `_has_active_lease` */
    method HasActiveLease(cardId: Uuid, now: Time) returns (active: bool)
      requires Valid()
      ensures active <==> Machine.HasActiveLease(leases, cardId, now)
    {
      for i := 0 to |leaseOrder|
        invariant forall j :: 0 <= j < i ==>
          !(leases[leaseOrder[j]].cardId == cardId && leases[leaseOrder[j]].Active(now))
      {
        var lease := leases[leaseOrder[i]];
        if lease.cardId == cardId && lease.Active(now) {
          return true;
        }
      }
      forall l | l in leases
        ensures !(leases[l].cardId == cardId && leases[l].Active(now))
      {
        assert l in leaseOrder;
      }
      return false;
    }

    /** The `next(...)` over the cards in order of creation. */
    method NextClaimable(version: string, bucket: string, now: Time) returns (card: Option<Uuid>)
      requires Valid()
      ensures card == M.FirstClaimable(Snapshot(), cardOrder, version, bucket, now)
    {
      for i := 0 to |cardOrder|
        invariant M.FirstClaimable(Snapshot(), cardOrder, version, bucket, now)
               == M.FirstClaimable(Snapshot(), cardOrder[i..], version, bucket, now)
      {
        var candidate := cards[cardOrder[i]];
        assert cardOrder[i..][0] == cardOrder[i] && cardOrder[i..][1..] == cardOrder[i + 1..];
        if candidate.workflowVersion == version && candidate.currentBucket == bucket {
          var busy := HasActiveLease(candidate.id, now);
          if !busy {
            return Some(candidate.id);
          }
        }
      }
      return None;
    }

    /** `_claim_target` */
    method ClaimTarget(pipe: string, now: Time) returns (target: Result<M.Match, Error>)
      requires Valid()
      ensures target == M.ClaimTarget(Snapshot(), pipe, now)
    {
      var matches: seq<M.Match> := [];
      for i := 0 to |panelOrder|
        invariant M.Matches(Snapshot(), pipe, now, i) == Ok(matches)
      {
        var panel := patchPanels[panelOrder[i]];
        var end := ResolvePipeBucket(panel, pipe, Input);
        if end.Ok? {
          var card := NextClaimable(Version(panel.id, panel.version), end.value.bucket, now);
          matches := matches + [M.Match(panel, end.value.bucket, end.value.nodeId, card)];
        } else if end.error != InvalidOperation {
          FailedMatchEndsSearch(Snapshot(), pipe, now, i + 1, |panelOrder|, end.error);
          return Err(end.error);
        }
      }
      if matches == [] {
        return Err(NotFound);
      }
      var withCards: seq<M.Match> := [];
      for i := 0 to |matches|
        invariant withCards == M.WithCards(matches[..i])
      {
        assert matches[..i + 1][..i] == matches[..i];
        if matches[i].card.Some? {
          withCards := withCards + [matches[i]];
        }
      }
      assert matches[..|matches|] == matches;
      if |withCards| == 1 {
        return Ok(withCards[0]);
      }
      if |matches| == 1 {
        return Ok(matches[0]);
      }
      if withCards != [] {
        return Err(Conflict);
      }
      return Ok(matches[0].(card := None));
    }

    /** The lease's row and its event. */
    method WriteLease(lease: Lease, now: Time, eventId: Uuid)
      modifies this
      ensures Snapshot() == old(Snapshot()).(
        leases := old(leases)[lease.id := lease], leaseOrder := Push(old(leaseOrder), old(leases).Keys, lease.id),
        events := Machine.Append(old(events), ClaimedEvent(eventId, lease, now)))
    {
      leaseOrder := Push(leaseOrder, leases.Keys, lease.id);
      leases := leases[lease.id := lease];
      RecordLog(ClaimedEvent(eventId, lease, now));
    }

    method ClaimCard(pipe: string, workerId: string, seconds: int, key: Option<string>, now: Time, base: Uuid)
      returns (r: Result<Reply, Error>)
      requires Valid()
      modifies this
      ensures M.Outcome(Snapshot(), r) == M.Answered(old(Snapshot()), Request.ClaimCard(pipe, workerId, seconds, key),
        M.Claim(old(Snapshot()), pipe, workerId, seconds, now, base))
    {
      var cached := M.Cached(idempotency, key);
      if cached.Some? {
        return M.Typed(Request.ClaimCard(pipe, workerId, seconds, key), cached.value);
      }
      var target := ClaimTarget(pipe, now);
      if target.Err? {
        return Err(target.error);
      }
      if target.value.card.None? {
        return Err(NotFound);
      }
      var lease := Lease(base, target.value.card.value, target.value.nodeId, workerId, pipe, now, now + seconds, None);
      WriteLease(lease, now, base + 1);
      StoreIdempotent(key, LeaseReply(lease));
      r := Ok(LeaseReply(lease));
    }

    /** The loop storing the submitted references. */
    method StoreArtifacts(stored: seq<ArtifactReference>)
      modifies this`artifacts
      ensures artifacts == Put(old(artifacts), stored)
    {
      for i := 0 to |stored|
        invariant artifacts == Put(old(artifacts), stored[..i])
      {
        assert stored[..i + 1][..i] == stored[..i];
        artifacts := artifacts[stored[i].id := stored[i]];
      }
      assert stored[..|stored|] == stored;
    }

    /** `_get_patch_panel_for_card` */
    function PanelForCard(card: Card): (panel: Option<PatchPanel>)
      reads this
      ensures panel == M.PanelForCard(Snapshot(), card)
    {
      var id := HeadOfLast(card.workflowVersion);
      if id in patchPanels then Some(patchPanels[id]) else None
    }

    /** The checks of `submit_artifact`, in its order. */
    method CheckSubmission(leaseId: Uuid, pipe: string, refs: seq<ArtifactReference>, now: Time)
      returns (allowed: Result<(PatchPanel, string), Error>)
      ensures allowed == M.SubmitChecks(Snapshot(), leaseId, pipe, refs, now)
    {
      if leaseId !in leases {
        return Err(NotFound);
      }
      var lease := leases[leaseId];
      if !lease.Active(now) {
        return Err(Conflict);
      }
      if lease.cardId !in cards {
        return Err(NotFound);
      }
      var card := cards[lease.cardId];
      var panel := PanelForCard(card);
      if panel.None? {
        return Err(NotFound);
      }
      var end := ResolvePipeBucket(panel.value, pipe, Output);
      if end.Err? {
        return Err(end.error);
      }
      if !RefsBelong(card.id, refs) || !ArtifactsAccepted(panel.value, end.value.bucket, refs) {
        return Err(InvalidOperation);
      }
      if end.value.nodeId != lease.nodeId {
        return Err(Conflict);
      }
      allowed := Ok((panel.value, end.value.bucket));
    }

    /** The writes of a submission that has passed its checks. */
    method WriteSubmission(leaseId: Uuid, pipe: string, refs: seq<ArtifactReference>, destination: string, now: Time, base: Uuid)
      returns (stored: seq<ArtifactReference>)
      requires leaseId in leases && leases[leaseId].cardId in cards
      modifies this
      ensures var lease, card := old(leases[leaseId]), old(cards[leases[leaseId].cardId]);
        && stored == Stored(refs, card.id, base)
        && Snapshot() == old(Snapshot()).(
             cards := old(cards)[card.id := card.(currentBucket := destination)],
             leases := old(leases)[lease.id := lease.(releasedAt := Some(now))],
             artifacts := Put(old(artifacts), stored),
             events := Machine.Append(old(events), SubmittedEvent(base, lease, refs, pipe, destination, now)))
    {
      var lease := leases[leaseId];
      var card := cards[lease.cardId];
      stored := Stored(refs, card.id, base);
      cards := cards[card.id := card.(currentBucket := destination)];
      leases := leases[lease.id := lease.(releasedAt := Some(now))];
      StoreArtifacts(stored);
      RecordLog(SubmittedEvent(base, lease, refs, pipe, destination, now));
    }

    method SubmitArtifact(leaseId: Uuid, pipe: string, refs: seq<ArtifactReference>, key: Option<string>,
      now: Time, base: Uuid) returns (r: Result<Reply, Error>)
      modifies this
      ensures M.Outcome(Snapshot(), r) == M.Answered(old(Snapshot()), Request.SubmitArtifact(leaseId, pipe, refs, key),
        M.Submit(old(Snapshot()), leaseId, pipe, refs, now, base))
    {
      var cached := M.Cached(idempotency, key);
      if cached.Some? {
        return M.Typed(Request.SubmitArtifact(leaseId, pipe, refs, key), cached.value);
      }
      var allowed := CheckSubmission(leaseId, pipe, refs, now);
      if allowed.Err? {
        return Err(allowed.error);
      }
      var stored := WriteSubmission(leaseId, pipe, refs, allowed.value.1, now, base);
      assert M.Outcome(Snapshot(), Ok(ArtifactsReply(stored))) == M.Submit(old(Snapshot()), leaseId, pipe, refs, now, base);
      StoreIdempotent(key, ArtifactsReply(stored));
      r := Ok(ArtifactsReply(stored));
    }

    method RenewLease(leaseId: Uuid, seconds: int, key: Option<string>, now: Time, base: Uuid)
      returns (r: Result<Reply, Error>)
      modifies this
      ensures M.Outcome(Snapshot(), r) == M.Answered(old(Snapshot()), Request.RenewLease(leaseId, seconds, key),
        M.Renew(old(Snapshot()), leaseId, seconds, now, base))
    {
      var cached := M.Cached(idempotency, key);
      if cached.Some? {
        return M.Typed(Request.RenewLease(leaseId, seconds, key), cached.value);
      }
      if leaseId !in leases {
        return Err(NotFound);
      }
      if !leases[leaseId].Active(now) {
        return Err(Conflict);
      }
      var renewed := leases[leaseId].(expiresAt := now + seconds);
      leases := leases[renewed.id := renewed];
      RecordLog(RenewedEvent(base, renewed, now));
      StoreIdempotent(key, LeaseReply(renewed));
      r := Ok(LeaseReply(renewed));
    }

    method ReleaseLease(leaseId: Uuid, actorId: Option<string>, key: Option<string>, now: Time, base: Uuid)
      returns (r: Result<Reply, Error>)
      modifies this
      ensures M.Outcome(Snapshot(), r) == M.Answered(old(Snapshot()), Request.ReleaseLease(leaseId, actorId, key),
        M.Release(old(Snapshot()), leaseId, actorId, now, base))
    {
      var cached := M.Cached(idempotency, key);
      if cached.Some? {
        return M.Typed(Request.ReleaseLease(leaseId, actorId, key), cached.value);
      }
      if leaseId !in leases {
        return Err(NotFound);
      }
      var lease := leases[leaseId];
      if lease.releasedAt.Some? {
        return Ok(LeaseReply(lease));
      }
      var released := lease.(releasedAt := Some(now));
      leases := leases[released.id := released];
      RecordLog(ReleasedEvent(base, lease, actorId, now));
      StoreIdempotent(key, LeaseReply(released));
      r := Ok(LeaseReply(released));
    }

    /** The body of the loop of `expire_leases`. */
    method SweepOne(lease: Lease, before: seq<Lease>, now: Time, base: Uuid) returns (expired: seq<Lease>)
      modifies this`leases, this`events
      ensures M.Sweep(Snapshot(), expired) == M.Swept(M.Sweep(old(Snapshot()), before), lease, now, base)
    {
      expired := before;
      if M.Overdue(lease, now) {
        var released := lease.(releasedAt := Some(now));
        leases := leases[lease.id := released];
        RecordLog(ExpiredEvent(base + |expired|, lease, now));
        expired := expired + [released];
      }
    }

    method ExpireLeases(now: Time, base: Uuid) returns (r: Result<Reply, Error>)
      requires Valid()
      modifies this
      ensures M.Outcome(Snapshot(), r) == M.Answered(old(Snapshot()), Request.ExpireLeases,
        M.ExpireAll(old(Snapshot()), now, base))
    {
      var expired: seq<Lease> := [];
      var values := leases;
      ghost var start := Snapshot();
      for i := 0 to |leaseOrder|
        invariant leaseOrder == start.leaseOrder && idempotency == start.idempotency
        invariant M.Expire(start, now, base, i) == M.Sweep(Snapshot(), expired)
      {
        expired := SweepOne(values[leaseOrder[i]], expired, now, base);
      }
      assert M.Outcome(Snapshot(), Ok(LeasesReply(expired))) == M.ExpireAll(old(Snapshot()), now, base);
      r := Ok(LeasesReply(expired));
    }

    /** The `if output_pipe:` look-ups of `validate_card`. */
    method ResolveExit(card: Card, exit: Option<string>) returns (route: Result<Option<Route>, Error>)
      ensures route == M.RouteOf(Snapshot(), card, exit)
    {
      if !Truthy(exit) {
        return Ok(None);
      }
      var panel := PanelForCard(card);
      if panel.None? {
        return Err(NotFound);
      }
      var end := ResolvePipeBucket(panel.value, exit.value, Output);
      if end.Err? {
        return Err(end.error);
      }
      route := Ok(Some(Route(exit.value, end.value.bucket)));
    }

    method SendAlong(card: Card, route: Option<Route>)
      modifies this`cards
      ensures cards == M.Routed(old(cards), card, route)
    {
      if route.Some? {
        cards := cards[card.id := card.(currentBucket := route.value.bucket)];
      }
    }

    /** The card along its route and the validation's event. */
    method WriteValidation(card: Card, route: Option<Route>, event: CardEvent)
      modifies this
      ensures Snapshot() == old(Snapshot()).(cards := M.Routed(old(cards), card, route), events := Machine.Append(old(events), event))
    {
      SendAlong(card, route);
      RecordLog(event);
    }

    /** The validation of a call whose key is not stored. */
    method RecordValidation(card: Card, validatorId: string, accepted: bool, reason: Option<string>,
      route: Option<Route>, payload: Json, now: Time, base: Uuid) returns (event: CardEvent)
      modifies this
      ensures event == ValidatedEvent(base, card.id, validatorId, ValidatedPayload(Verdict(accepted, reason), payload, route), now)
      ensures Snapshot() == old(Snapshot()).(cards := M.Routed(old(cards), card, route), events := Machine.Append(old(events), event))
    {
      event := ValidatedEvent(base, card.id, validatorId, ValidatedPayload(Verdict(accepted, reason), payload, route), now);
      WriteValidation(card, route, event);
    }

    method ValidateCard(cardId: Uuid, validatorId: string, accepted: bool, reason: Option<string>,
      exit: Option<string>, payload: Json, key: Option<string>, now: Time, base: Uuid)
      returns (r: Result<Reply, Error>)
      modifies this
      ensures M.Outcome(Snapshot(), r) == M.Answered(old(Snapshot()),
        Request.ValidateCard(cardId, validatorId, accepted, reason, exit, payload, key),
        M.Validate(old(Snapshot()), cardId, validatorId, accepted, reason, exit, payload, now, base))
    {
      var cached := M.Cached(idempotency, key);
      if cached.Some? {
        return M.Typed(Request.ValidateCard(cardId, validatorId, accepted, reason, exit, payload, key), cached.value);
      }
      if cardId !in cards {
        return Err(NotFound);
      }
      var card := cards[cardId];
      var route := ResolveExit(card, exit);
      if route.Err? {
        return Err(route.error);
      }
      var event := RecordValidation(card, validatorId, accepted, reason, route.value, payload, now, base);
      assert M.Outcome(Snapshot(), Ok(EventReply(event)))
          == M.Validate(old(Snapshot()), cardId, validatorId, accepted, reason, exit, payload, now, base);
      StoreIdempotent(key, EventReply(event));
      r := Ok(EventReply(event));
    }

    method MoveCard(cardId: Uuid, toBucket: string, actorId: Option<string>, reason: Option<string>,
      key: Option<string>, now: Time, base: Uuid) returns (r: Result<Reply, Error>)
      modifies this
      ensures M.Outcome(Snapshot(), r) == M.Answered(old(Snapshot()), Request.MoveCard(cardId, toBucket, actorId, reason, key),
        M.Move(old(Snapshot()), cardId, toBucket, actorId, reason, now, base))
    {
      var cached := M.Cached(idempotency, key);
      if cached.Some? {
        return M.Typed(Request.MoveCard(cardId, toBucket, actorId, reason, key), cached.value);
      }
      if cardId !in cards {
        return Err(NotFound);
      }
      var card := cards[cardId];
      var panel := PanelForCard(card);
      if panel.None? {
        return Err(NotFound);
      }
      if toBucket !in (set b | b in panel.value.buckets :: b.id) {
        return Err(InvalidOperation);
      }
      var moved := card.(currentBucket := toBucket);
      cards := cards[card.id := moved];
      RecordLog(MovedEvent(base, card, toBucket, actorId, reason, now));
      StoreIdempotent(key, CardReply(moved));
      r := Ok(CardReply(moved));
    }

    method RecordEvent(cardId: Uuid, eventType: string, actorId: Option<string>, payload: Json,
      key: Option<string>, now: Time, base: Uuid) returns (r: Result<Reply, Error>)
      modifies this
      ensures M.Outcome(Snapshot(), r) == M.Answered(old(Snapshot()), Request.RecordEvent(cardId, eventType, actorId, payload, key),
        M.Record(old(Snapshot()), cardId, eventType, actorId, payload, now, base))
    {
      var cached := M.Cached(idempotency, key);
      if cached.Some? {
        return M.Typed(Request.RecordEvent(cardId, eventType, actorId, payload, key), cached.value);
      }
      if cardId !in cards {
        return Err(NotFound);
      }
      var event := CardEvent(base, cardId, eventType, actorId, payload, now);
      RecordLog(event);
      StoreIdempotent(key, EventReply(event));
      r := Ok(EventReply(event));
    }

    /** `card_history` */
    method CardHistory(cardId: Uuid) returns (r: Result<seq<CardEvent>, Error>)
      ensures r == if cardId !in cards then Err(NotFound)
                   else Ok(if cardId in events then events[cardId] else [])
    {
      if cardId !in cards {
        return Err(NotFound);
      }
      r := Ok(if cardId in events then events[cardId] else []);
    }
  }

  /** A look-up that fails with anything but InvalidOperation ends the search with that error. */
  lemma {:induction false} FailedMatchEndsSearch(s: M.Mem, pipe: string, now: Time, k: nat, n: nat, e: Error)
    requires k <= n <= |s.panelOrder| && M.Matches(s, pipe, now, k) == Err(e)
    ensures M.Matches(s, pipe, now, n) == Err(e)
  {
    if k < n {
      FailedMatchEndsSearch(s, pipe, now, k, n - 1, e);
    }
  }
}
