/**
 The abstract card/lease machine both runtimes refine. An act is one elementary change of
 the shared state: a claim may pick any claimable card, expiry closes one lease at a time,
 and nothing depends on dictionary order, row order or idempotency keys.
 */
module Machine {
  import opened Prelude
  import opened Encoding
  import opened Domain
  import opened Service
  import opened PanelValidator

  datatype Core = Core(panels: set<PatchPanel>, cards: map<Uuid, Card>, leases: map<Uuid, Lease>,
    artifacts: map<Uuid, ArtifactReference>, log: map<Uuid, seq<CardEvent>>)

  /** What an act that consults no panel carries. */
  const NO_PANEL := PatchPanel("", "", [], [], [], map[], [])

  datatype Act =
    | Register(panel: PatchPanel, after: set<PatchPanel>)
    | Create(panel: PatchPanel, card: Card, eventId: Uuid)
    | Claim(panel: PatchPanel, lease: Lease, eventId: Uuid)
    | Submit(panel: PatchPanel, leaseId: Uuid, pipe: string, destination: string,
             refs: seq<ArtifactReference>, eventId: Uuid)
    | Renew(leaseId: Uuid, seconds: int, eventId: Uuid)
    | Release(leaseId: Uuid, actorId: Option<string>, eventId: Uuid)
    | Expire(leaseId: Uuid, eventId: Uuid)
    | Validate(cardId: Uuid, validatorId: string, verdict: Json, payload: Json,
               panel: PatchPanel, route: Option<Route>, eventId: Uuid)
    | Move(panel: PatchPanel, cardId: Uuid, toBucket: string, actorId: Option<string>,
           reason: Option<string>, eventId: Uuid)
    | Record(event: CardEvent)

  /** An act and the clock reading at which it happens. */
  datatype Timed = Timed(act: Act, now: Time)

  ghost predicate HasActiveLease(leases: map<Uuid, Lease>, cardId: Uuid, now: Time) {
    exists l :: l in leases && leases[l].cardId == cardId && leases[l].Active(now)
  }

  /** When the machine allows an act. */
  ghost predicate Enabled(a: Core, t: Timed) {
    match t.act
    case Register(_, _) => true
    case Create(_, card, _) =>
      card.id !in a.cards && card.createdAt == t.now
    case Claim(_, lease, _) =>
      && lease.id !in a.leases && lease.releasedAt.None? && lease.claimedAt == t.now
      && lease.cardId in a.cards && !HasActiveLease(a.leases, lease.cardId, t.now)
    case Submit(_, leaseId, _, _, refs, _) =>
      && leaseId in a.leases && a.leases[leaseId].Active(t.now)
      && a.leases[leaseId].cardId in a.cards && RefsBelong(a.leases[leaseId].cardId, refs)
    case Renew(leaseId, _, _) => leaseId in a.leases && a.leases[leaseId].Active(t.now)
    case Release(leaseId, _, _) => leaseId in a.leases && a.leases[leaseId].releasedAt.None?
    case Expire(leaseId, _) =>
      leaseId in a.leases && a.leases[leaseId].releasedAt.None? && a.leases[leaseId].expiresAt <= t.now
    case Validate(cardId, _, _, _, _, _, _) => cardId in a.cards
    case Move(_, cardId, _, _, _, _) => cardId in a.cards
    case Record(event) => event.cardId in a.cards && event.occurredAt == t.now
  }

  // ---- what an act writes: at most one lease row, one card row and one event ------------------

  ghost function LeaseWritten(a: Core, t: Timed): Option<Lease>
    requires Enabled(a, t)
  {
    match t.act
    case Claim(_, lease, _) => Some(lease)
    case Submit(_, leaseId, _, _, _, _) => Some(a.leases[leaseId].(releasedAt := Some(t.now)))
    case Renew(leaseId, seconds, _) => Some(a.leases[leaseId].(expiresAt := t.now + seconds))
    case Release(leaseId, _, _) => Some(a.leases[leaseId].(releasedAt := Some(t.now)))
    case Expire(leaseId, _) => Some(a.leases[leaseId].(releasedAt := Some(t.now)))
    case _ => None
  }

  ghost function CardWritten(a: Core, t: Timed): Option<Card>
    requires Enabled(a, t)
  {
    match t.act
    case Create(_, card, _) => Some(card)
    case Submit(_, leaseId, _, destination, _, _) =>
      Some(a.cards[a.leases[leaseId].cardId].(currentBucket := destination))
    case Validate(cardId, _, _, _, _, route, _) =>
      if route.None? then None else Some(a.cards[cardId].(currentBucket := route.value.bucket))
    case Move(_, cardId, toBucket, _, _, _) => Some(a.cards[cardId].(currentBucket := toBucket))
    case _ => None
  }

  ghost function EventWritten(a: Core, t: Timed): Option<CardEvent>
    requires Enabled(a, t)
  {
    match t.act
    case Register(_, _) => None
    case Create(panel, card, eventId) => Some(CreatedEvent(eventId, card, panel, t.now))
    case Claim(_, lease, eventId) => Some(ClaimedEvent(eventId, lease, t.now))
    case Submit(_, leaseId, pipe, destination, refs, eventId) =>
      Some(SubmittedEvent(eventId, a.leases[leaseId], refs, pipe, destination, t.now))
    case Renew(leaseId, seconds, eventId) =>
      Some(RenewedEvent(eventId, a.leases[leaseId].(expiresAt := t.now + seconds), t.now))
    case Release(leaseId, actorId, eventId) => Some(ReleasedEvent(eventId, a.leases[leaseId], actorId, t.now))
    case Expire(leaseId, eventId) => Some(ExpiredEvent(eventId, a.leases[leaseId], t.now))
    case Validate(cardId, validatorId, verdict, payload, _, route, eventId) =>
      Some(ValidatedEvent(eventId, cardId, validatorId, ValidatedPayload(verdict, payload, route), t.now))
    case Move(_, cardId, toBucket, actorId, reason, eventId) =>
      Some(MovedEvent(eventId, a.cards[cardId], toBucket, actorId, reason, t.now))
    case Record(event) => Some(event)
  }

  ghost function ArtifactsWritten(a: Core, t: Timed): seq<ArtifactReference>
    requires Enabled(a, t)
  {
    match t.act
    case Submit(_, leaseId, _, _, refs, eventId) => Stored(refs, a.leases[leaseId].cardId, eventId)
    case _ => []
  }

  function Append(log: map<Uuid, seq<CardEvent>>, e: CardEvent): map<Uuid, seq<CardEvent>> {
    log[e.cardId := (if e.cardId in log then log[e.cardId] else []) + [e]]
  }

  ghost function NextLeases(a: Core, t: Timed): map<Uuid, Lease>
    requires Enabled(a, t)
  {
    match LeaseWritten(a, t)
    case None => a.leases
    case Some(lease) => a.leases[lease.id := lease]
  }

  ghost function NextCards(a: Core, t: Timed): map<Uuid, Card>
    requires Enabled(a, t)
  {
    match CardWritten(a, t)
    case None => a.cards
    case Some(card) => a.cards[card.id := card]
  }

  ghost function NextLog(a: Core, t: Timed): map<Uuid, seq<CardEvent>>
    requires Enabled(a, t)
  {
    match EventWritten(a, t)
    case None => a.log
    case Some(event) => Append(a.log, event)
  }

  /** The state after an act. */
  ghost function Apply(a: Core, t: Timed): Core
    requires Enabled(a, t)
  {
    Core(if t.act.Register? then t.act.after else a.panels, NextCards(a, t), NextLeases(a, t),
      Put(a.artifacts, ArtifactsWritten(a, t)), NextLog(a, t))
  }

  // ---- runs --------------------------------------------------------------------------------

  /** Every act of `ts` is enabled when its turn comes. */
  ghost predicate Legal(a: Core, ts: seq<Timed>)
    decreases |ts|, 0
  {
    ts == [] ||
    (Legal(a, ts[..|ts| - 1]) && Enabled(Play(a, ts[..|ts| - 1]), ts[|ts| - 1]))
  }

  ghost function Play(a: Core, ts: seq<Timed>): Core
    requires Legal(a, ts)
    decreases |ts|, 1
  {
    if ts == [] then a else Apply(Play(a, ts[..|ts| - 1]), ts[|ts| - 1])
  }

  /** The clock readings of `ts` start at or after `start` and never go back. */
  ghost predicate Clocked(start: Time, ts: seq<Timed>) {
    ts == [] || (Clocked(start, ts[..|ts| - 1]) && End(start, ts[..|ts| - 1]) <= ts[|ts| - 1].now)
  }

  /** The last clock reading of a run. */
  ghost function End(start: Time, ts: seq<Timed>): Time {
    if ts == [] then start else ts[|ts| - 1].now
  }

  /** `ts` takes `a` to `b`. */
  ghost predicate Leads(a: Core, ts: seq<Timed>, b: Core) {
    Legal(a, ts) && Play(a, ts) == b
  }

  /** `t` is enabled in `b` and takes it to `c`. */
  ghost predicate Takes(b: Core, t: Timed, c: Core) {
    Enabled(b, t) && Apply(b, t) == c
  }

  lemma Snoc(a: Core, ts: seq<Timed>, b: Core, t: Timed, c: Core)
    requires Leads(a, ts, b) && Takes(b, t, c)
    ensures Leads(a, ts + [t], c)
  {
    assert (ts + [t])[..|ts|] == ts;
  }

  /** The state at every moment of a run. */
  ghost predicate Traces(states: seq<Core>, ts: seq<Timed>) {
    |states| == |ts| + 1 && forall j :: 0 <= j < |ts| ==> Takes(states[j], ts[j], states[j + 1])
  }

  /** States each taken to the next by its act are a run. */
  lemma {:induction false} Chain(states: seq<Core>, ts: seq<Timed>)
    requires Traces(states, ts)
    ensures Leads(states[0], ts, states[|ts|])
  {
    if ts != [] {
      var n := |ts| - 1;
      assert Traces(states[..|ts|], ts[..n]);
      Chain(states[..|ts|], ts[..n]);
      Snoc(states[0], ts[..n], states[n], ts[n], states[n + 1]);
      assert ts[..n] + [ts[n]] == ts;
    }
  }

  lemma Unsnoc(a: Core, ts: seq<Timed>, b: Core) returns (mid: Core)
    requires Leads(a, ts, b) && ts != []
    ensures Leads(a, ts[..|ts| - 1], mid) && Takes(mid, ts[|ts| - 1], b)
  {
    mid := Play(a, ts[..|ts| - 1]);
  }

  lemma {:induction false} Trace(a: Core, ts: seq<Timed>, b: Core) returns (states: seq<Core>)
    requires Leads(a, ts, b)
    ensures Traces(states, ts) && states[0] == a && states[|ts|] == b
  {
    states := [a];
    if ts != [] {
      var mid := Unsnoc(a, ts, b);
      var before := Trace(a, ts[..|ts| - 1], mid);
      states := before + [b];
      TracesSnoc(before, ts[..|ts| - 1], ts[|ts| - 1], b);
      assert ts == ts[..|ts| - 1] + [ts[|ts| - 1]];
    }
  }

  lemma TracesSnoc(states: seq<Core>, ts: seq<Timed>, t: Timed, b: Core)
    requires Traces(states, ts) && Takes(states[|ts|], t, b)
    ensures Traces(states + [b], ts + [t])
  {
    forall j | 0 <= j < |ts| + 1
      ensures Takes((states + [b])[j], (ts + [t])[j], (states + [b])[j + 1])
    { if j < |ts| { assert Takes(states[j], ts[j], states[j + 1]); } }
  }

  lemma TracesJoin(xs: seq<Core>, ts: seq<Timed>, ys: seq<Core>, us: seq<Timed>)
    requires Traces(xs, ts) && Traces(ys, us) && xs[|ts|] == ys[0]
    ensures Traces(xs + ys[1..], ts + us)
  {
    var states := xs + ys[1..];
    forall j | 0 <= j < |ts + us|
      ensures Takes(states[j], (ts + us)[j], states[j + 1])
    {
      if j < |ts| {
        assert Takes(xs[j], ts[j], xs[j + 1]);
      } else {
        assert Takes(ys[j - |ts|], us[j - |ts|], ys[j - |ts| + 1]);
      }
    }
  }

  lemma JoinLeads(a: Core, xs: seq<Timed>, b: Core, ys: seq<Timed>, c: Core)
    requires Leads(a, xs, b) && Leads(b, ys, c)
    ensures Leads(a, xs + ys, c)
  {
    var before := Trace(a, xs, b);
    var after := Trace(b, ys, c);
    TracesJoin(before, xs, after, ys);
    Chain(before + after[1..], xs + ys);
  }

  lemma Join(a: Core, xs: seq<Timed>, ys: seq<Timed>)
    requires Legal(a, xs) && Legal(Play(a, xs), ys)
    ensures Legal(a, xs + ys) && Play(a, xs + ys) == Play(Play(a, xs), ys)
  {
    JoinLeads(a, xs, Play(a, xs), ys, Play(Play(a, xs), ys));
  }

  lemma SnocClock(start: Time, ts: seq<Timed>, t: Timed)
    requires Clocked(start, ts) && End(start, ts) <= t.now
    ensures Clocked(start, ts + [t]) && End(start, ts + [t]) == t.now
  {
    assert (ts + [t])[..|ts|] == ts;
  }

  lemma {:induction false} JoinClock(start: Time, xs: seq<Timed>, ys: seq<Timed>)
    requires Clocked(start, xs) && Clocked(End(start, xs), ys)
    ensures Clocked(start, xs + ys) && End(start, xs + ys) == End(End(start, xs), ys)
  {
    if ys == [] {
      assert xs + ys == xs;
    } else {
      var front, t := ys[..|ys| - 1], ys[|ys| - 1];
      JoinClock(start, xs, front);
      SnocClock(start, xs + front, t);
      assert xs + ys == xs + front + [t];
    }
  }

  lemma One(a: Core, t: Timed)
    requires Enabled(a, t)
    ensures Legal(a, [t]) && Play(a, [t]) == Apply(a, t)
  {
    assert [t][..0] == [];
    assert Legal(a, [t][..0]) && Play(a, [t][..0]) == a;
  }

  // ---- the rules of the Patch Panels -------------------------------------------------------

  /** The panel was registered and is the one the card was created under. */
  ghost predicate Owns(a: Core, panel: PatchPanel, cardId: Uuid) {
    panel in a.panels && cardId in a.cards && panel.WorkflowVersion() == a.cards[cardId].workflowVersion
  }

  /** The act obeys the registered Patch Panels: pipes resolve, buckets are declared,
      only accepted definitions are registered and none replaces another of its version. */
  ghost predicate Governed(a: Core, act: Act) {
    match act
    case Register(panel, after) =>
      && after == a.panels + {panel} && Accepted(panel)
      && forall q :: q in a.panels && q.WorkflowVersion() == panel.WorkflowVersion() ==> q == panel
    case Create(panel, card, _) =>
      && panel in a.panels && card.workflowVersion == panel.WorkflowVersion()
      && ResolveInitialBucket(panel) == Ok(card.currentBucket)
    case Claim(panel, lease, _) =>
      && Owns(a, panel, lease.cardId)
      && ResolvePipeBucket(panel, lease.inputPipe, Input)
         == Ok(Endpoint(a.cards[lease.cardId].currentBucket, lease.nodeId))
    case Submit(panel, leaseId, pipe, destination, refs, _) =>
      && leaseId in a.leases && Owns(a, panel, a.leases[leaseId].cardId)
      && ResolvePipeBucket(panel, pipe, Output) == Ok(Endpoint(destination, a.leases[leaseId].nodeId))
      && ArtifactsAccepted(panel, destination, refs)
    case Validate(cardId, _, _, _, panel, route, _) =>
      route.Some? ==>
        && Owns(a, panel, cardId)
        && ResolvePipeBucket(panel, route.value.pipe, Output).Ok?
        && ResolvePipeBucket(panel, route.value.pipe, Output).value.bucket == route.value.bucket
    case Move(panel, cardId, toBucket, _, _, _) => Owns(a, panel, cardId) && panel.Declares(toBucket)
    case _ => true
  }

  /** Every act of a run is governed when its turn comes. */
  ghost predicate AllGoverned(a: Core, ts: seq<Timed>)
    requires Legal(a, ts)
  {
    ts == [] ||
    (AllGoverned(a, ts[..|ts| - 1]) && Governed(Play(a, ts[..|ts| - 1]), ts[|ts| - 1].act))
  }
}
