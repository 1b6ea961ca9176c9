/** The machine's theorems read off the in-memory runtime, for all its runs from the empty state. */
module MemoryTheorems {
  import opened Prelude
  import opened Encoding
  import opened Domain
  import opened Service
  import opened PanelValidator
  import opened Requests
  import opened Memory
  import opened MemoryRefinement
  import A = Machine
  import T = MachineTheorems
  import G = Governance

  lemma FreshIsSound(start: Time)
    ensures Valid(Fresh) && T.Sound(CoreOf(Fresh)) && T.Exclusive(CoreOf(Fresh), start)
    ensures T.HistoriesTellBuckets(CoreOf(Fresh)) && T.Conserved(CoreOf(Fresh))
    ensures G.LeasedCardsWait(CoreOf(Fresh), start)
  {
  }

  // ---- leases ------------------------------------------------------------------------------

  /** In every reachable state and at every clock reading from then on, each card has at most
      one active lease, whatever mix of calls led there. */
  lemma OneActiveLease(start: Time, calls: seq<Call>, later: Time)
    requires Proper(Fresh, start, calls) && Clock(start, calls) <= later
    ensures T.Exclusive(CoreOf(Run(Fresh, calls)), later)
  {
    FreshIsSound(start);
    RunRefines(Fresh, start, calls);
    T.ExclusiveForever(CoreOf(Fresh), start, RunActs(Fresh, start, calls), later);
  }

  /** From any valid state on, a lease that is not active now is never active again. */
  lemma ExpiredLeaseNeverReturns(s: Mem, start: Time, calls: seq<Call>, l: Uuid, later: Time)
    requires Valid(s) && Proper(s, start, calls) && Clock(start, calls) <= later
    requires l in s.leases && !s.leases[l].Active(start)
    ensures l in Run(s, calls).leases && !Run(s, calls).leases[l].Active(later)
  {
    RunRefines(s, start, calls);
    T.DeadLeasesStayDead(CoreOf(s), start, RunActs(s, start, calls), l, later);
  }

  // ---- reserved names ----------------------------------------------------------------------

  lemma StepKeepsNames(s: Mem, c: Call)
    requires Valid(s) && FreshIds(s, c)
    ensures ReservesMovement(c.req) ==> T.AllKeepMovementNames(StepActs(s, c))
    ensures ReservesLeases(c.req) ==> T.AllKeepLeaseNames(StepActs(s, c))
  {
    if Acts(s, c) && c.req.ExpireLeases? {
      SweepOnlyExpires(s, c.now, c.base, |s.leaseOrder|);
      forall i | 0 <= i < |StepActs(s, c)|
        ensures StepActs(s, c)[i].act.Expire?
      { assert StepActs(s, c)[i] in StepActs(s, c); }
    }
  }

  lemma {:induction false} RunKeepsNames(s: Mem, start: Time, calls: seq<Call>)
    requires Valid(s) && Proper(s, start, calls)
    ensures (forall c :: c in calls ==> ReservesMovement(c.req)) ==> T.AllKeepMovementNames(RunActs(s, start, calls))
    ensures (forall c :: c in calls ==> ReservesLeases(c.req)) ==> T.AllKeepLeaseNames(RunActs(s, start, calls))
  {
    if calls != [] {
      var front, last := calls[..|calls| - 1], calls[|calls| - 1];
      RunKeepsNames(s, start, front);
      RunKeepsValid(s, front);
      StepKeepsNames(Run(s, front), last);
    }
  }

  /** Replaying any card's history yields exactly its current bucket, in every reachable state. */
  lemma HistoryReplays(start: Time, calls: seq<Call>, c: Uuid)
    requires Proper(Fresh, start, calls) && forall x :: x in calls ==> ReservesMovement(x.req)
    requires c in Run(Fresh, calls).cards
    ensures var s := Run(Fresh, calls);
      c in s.events && s.events[c] != [] && T.HistoryTells(s.events[c], s.cards[c].currentBucket)
  {
    FreshIsSound(start);
    RunRefines(Fresh, start, calls);
    RunKeepsNames(Fresh, start, calls);
    T.ReplayYieldsBucket(CoreOf(Fresh), RunActs(Fresh, start, calls));
  }

  /** What `card_history` answers at one point of a run, it answers at every later point as the
      beginning of the history: nothing recorded is lost, reordered or changed. */
  lemma HistoryReadStays(s: Mem, start: Time, calls: seq<Call>, c: Uuid)
    requires Valid(s) && Proper(s, start, calls) && c in s.cards
    ensures c in Run(s, calls).cards && c in Run(s, calls).events && s.events[c] <= Run(s, calls).events[c]
  {
    RunRefines(s, start, calls);
    RunKeepsValid(s, calls);
    T.HistoriesGrow(CoreOf(s), RunActs(s, start, calls), c);
    T.CardsKeepIdentity(CoreOf(s), RunActs(s, start, calls), c);
  }

  /** In every reachable state the open leases of a card are its claims minus its closings, each
      lease has one claim event, and at most one event closes it. */
  lemma LeasesBalance(start: Time, calls: seq<Call>)
    requires Proper(Fresh, start, calls) && forall x :: x in calls ==> ReservesLeases(x.req)
    ensures T.Conserved(CoreOf(Run(Fresh, calls)))
  {
    FreshIsSound(start);
    RunRefines(Fresh, start, calls);
    RunKeepsNames(Fresh, start, calls);
    T.LeasesConserved(CoreOf(Fresh), RunActs(Fresh, start, calls));
  }

  /** A caller's `destination_bucket` is what breaks the replay: a validation without an exit that
      carries one leaves the history telling that bucket. */
  lemma ForgedDestinationMisleads(s: Mem, c: Uuid, forged: string, now: Time, base: Uuid)
    requires Valid(s) && c in s.cards && c in s.events && forged != s.cards[c].currentBucket
    ensures var o := Validate(s, c, "v", true, None, None, map["destination_bucket" := Str(forged)], now, base);
      && o.result.Ok? && c in o.after.cards && c in o.after.events
      && o.after.cards[c].currentBucket == s.cards[c].currentBucket
      && T.Replayed(o.after.events[c]) == Some(Str(forged))
  {
    var o := Validate(s, c, "v", true, None, None, map["destination_bucket" := Str(forged)], now, base);
    T.ReplayedAppend(s.events[c], o.result.value.event);
  }

  // ---- Patch Panels ------------------------------------------------------------------------

  /** Every registered panel is accepted and its version has no colon; every card was created
      under a panel still registered. */
  ghost predicate Settled(s: Mem) {
    && (forall id :: id in s.panels ==> Accepted(s.panels[id]) && ':' !in s.panels[id].version)
    && (forall c :: c in s.cards ==> Registered(s, s.cards[c]))
  }

  ghost predicate Registered(s: Mem, card: Card) {
    exists id :: id in s.panels && s.panels[id].WorkflowVersion() == card.workflowVersion
  }

  /** A panel id is registered once (or again with the same definition), under a colon-free version. */
  ghost predicate RegistersOnce(s: Mem, c: Call) {
    c.req.RegisterPanel? ==>
      ':' !in c.req.panel.version && (c.req.panel.id in s.panels ==> s.panels[c.req.panel.id] == c.req.panel)
  }

  lemma PanelOfCard(s: Mem, card: Card)
    requires Valid(s) && Settled(s) && Registered(s, card)
    ensures PanelForCard(s, card).Some? && PanelForCard(s, card).value in CoreOf(s).panels
    ensures PanelForCard(s, card).value.WorkflowVersion() == card.workflowVersion
  {
    var id :| id in s.panels && s.panels[id].WorkflowVersion() == card.workflowVersion;
    LastSplitRecovers(s.panels[id].id, s.panels[id].version);
  }

  lemma PanelsAreSettled(s: Mem)
    requires Valid(s) && Settled(s)
    ensures G.PanelsSettled(CoreOf(s).panels)
  {
    forall p, q | p in CoreOf(s).panels && q in CoreOf(s).panels && p.WorkflowVersion() == q.WorkflowVersion()
      ensures p == q
    {
      LastSplitRecovers(p.id, p.version);
      LastSplitRecovers(q.id, q.version);
    }
  }

  lemma ClaimGoverned(s: Mem, pipe: string, now: Time, lease: Lease, eventId: Uuid)
    requires Valid(s) && ClaimTarget(s, pipe, now).Ok?
    requires ClaimTarget(s, pipe, now).value.card == Some(lease.cardId)
    requires lease.inputPipe == pipe && lease.nodeId == ClaimTarget(s, pipe, now).value.nodeId
    ensures A.Governed(CoreOf(s), A.Claim(ClaimTarget(s, pipe, now).value.panel, lease, eventId))
  {
    TargetOffers(s, pipe, now);
  }

  lemma SubmitGoverned(s: Mem, leaseId: Uuid, pipe: string, refs: seq<ArtifactReference>, now: Time, eventId: Uuid)
    requires Valid(s) && Settled(s) && SubmitChecks(s, leaseId, pipe, refs, now).Ok?
    ensures var (panel, destination) := SubmitChecks(s, leaseId, pipe, refs, now).value;
      A.Governed(CoreOf(s), A.Submit(panel, leaseId, pipe, destination, refs, eventId))
  {
    PanelOfCard(s, s.cards[s.leases[leaseId].cardId]);
  }

  lemma ValidateGoverned(s: Mem, cardId: Uuid, validatorId: string, accepted: bool, reason: Option<string>,
    exit: Option<string>, payload: Json, base: Uuid)
    requires Valid(s) && Settled(s) && cardId in s.cards && RouteOf(s, s.cards[cardId], exit).Ok?
    ensures A.Governed(CoreOf(s), ValidateAct(s, cardId, validatorId, accepted, reason, exit, payload, base))
  {
    PanelOfCard(s, s.cards[cardId]);
  }

  lemma MoveGoverned(s: Mem, cardId: Uuid, toBucket: string, actorId: Option<string>, reason: Option<string>, base: Uuid)
    requires Valid(s) && Settled(s) && cardId in s.cards && PanelForCard(s, s.cards[cardId]).Some?
    requires PanelForCard(s, s.cards[cardId]).value.Declares(toBucket)
    ensures A.Governed(CoreOf(s), A.Move(PanelForCard(s, s.cards[cardId]).value, cardId, toBucket, actorId, reason, base))
  {
    PanelOfCard(s, s.cards[cardId]);
  }

  lemma LeaseActGoverned(s: Mem, c: Call)
    requires Valid(s) && Settled(s) && FreshIds(s, c) && Perform(s, c).result.Ok? && !AnswersEarly(s, c.req)
    requires c.req.ClaimCard? || c.req.SubmitArtifact?
    ensures A.Governed(CoreOf(s), ActOf(s, c))
  {
    match c.req
    case ClaimCard(pipe, workerId, seconds, _) =>
      ClaimRefines(s, pipe, workerId, seconds, c.now, c.base);
      ClaimGoverned(s, pipe, c.now, Perform(s, c).result.value.lease, c.base + 1);
    case SubmitArtifact(leaseId, pipe, refs, _) =>
      SubmitRefines(s, leaseId, pipe, refs, c.now, c.base);
      SubmitGoverned(s, leaseId, pipe, refs, c.now, c.base);
  }

  lemma ActGoverned(s: Mem, c: Call)
    requires Valid(s) && Settled(s) && FreshIds(s, c) && RegistersOnce(s, c)
    requires Perform(s, c).result.Ok? && !c.req.ExpireLeases? && !AnswersEarly(s, c.req)
    ensures A.Governed(CoreOf(s), ActOf(s, c))
  {
    match c.req
    case RegisterPanel(panel) => RegisterGoverned(s, panel);
    case ClaimCard(_, _, _, _) => LeaseActGoverned(s, c);
    case SubmitArtifact(_, _, _, _) => LeaseActGoverned(s, c);
    case ValidateCard(cardId, validatorId, accepted, reason, exit, payload, _) =>
      ValidateRefines(s, cardId, validatorId, accepted, reason, exit, payload, c.now, c.base);
      ValidateGoverned(s, cardId, validatorId, accepted, reason, exit, payload, c.base);
    case MoveCard(cardId, toBucket, actorId, reason, _) =>
      MoveRefines(s, cardId, toBucket, actorId, reason, c.now, c.base);
      MoveGoverned(s, cardId, toBucket, actorId, reason, c.base);
    case _ =>
  }

  lemma RegisterGoverned(s: Mem, panel: PatchPanel)
    requires Valid(s) && Settled(s) && Accepted(panel) && ':' !in panel.version
    requires panel.id in s.panels ==> s.panels[panel.id] == panel
    ensures A.Governed(CoreOf(s), A.Register(panel, CoreOf(Register(s, panel).after).panels))
  {
    var after := CoreOf(Register(s, panel).after).panels;
    assert after == CoreOf(s).panels + {panel} by {
      forall p | p in CoreOf(s).panels + {panel} ensures p in after {
        assert p.id in Register(s, panel).after.panels && Register(s, panel).after.panels[p.id] == p;
      }
    }
    LastSplitRecovers(panel.id, panel.version);
    forall q | q in CoreOf(s).panels && q.WorkflowVersion() == panel.WorkflowVersion()
      ensures q == panel
    { LastSplitRecovers(q.id, q.version); }
  }

  ghost predicate KeepsVersions(before: map<Uuid, Card>, after: map<Uuid, Card>) {
    forall x :: x in after ==> x in before && after[x].workflowVersion == before[x].workflowVersion
  }

  lemma SubmitVersions(s: Mem, leaseId: Uuid, pipe: string, refs: seq<ArtifactReference>, now: Time, base: Uuid)
    requires Valid(s)
    ensures KeepsVersions(s.cards, Submit(s, leaseId, pipe, refs, now, base).after.cards)
  {
  }

  lemma ValidateVersions(s: Mem, cardId: Uuid, validatorId: string, accepted: bool, reason: Option<string>,
    exit: Option<string>, payload: Json, now: Time, base: Uuid)
    requires Valid(s)
    ensures KeepsVersions(s.cards, Validate(s, cardId, validatorId, accepted, reason, exit, payload, now, base).after.cards)
  {
    var after := Validate(s, cardId, validatorId, accepted, reason, exit, payload, now, base).after.cards;
    if cardId in s.cards && RouteOf(s, s.cards[cardId], exit).Ok? {
      RoutedVersions(s.cards, s.cards[cardId], RouteOf(s, s.cards[cardId], exit).value);
    } else {
      assert after == s.cards;
    }
  }

  lemma RoutedVersions(cards: map<Uuid, Card>, card: Card, route: Option<Route>)
    requires card.id in cards && cards[card.id] == card
    ensures KeepsVersions(cards, Routed(cards, card, route))
  {
  }

  lemma MoveVersions(s: Mem, cardId: Uuid, toBucket: string, actorId: Option<string>, reason: Option<string>, now: Time, base: Uuid)
    requires Valid(s)
    ensures KeepsVersions(s.cards, Move(s, cardId, toBucket, actorId, reason, now, base).after.cards)
  {
  }

  lemma OthersKeepCards(s: Mem, c: Call)
    requires c.req.RegisterPanel? || c.req.ClaimCard? || c.req.RenewLease? || c.req.ReleaseLease? || c.req.RecordEvent?
    ensures Perform(s, c).after.cards == s.cards
  {
  }

  /** Cards keep their workflow version; a new card takes that of a registered panel. */
  lemma PerformVersions(s: Mem, c: Call)
    requires Valid(s)
    ensures !c.req.CreateCard? ==> KeepsVersions(s.cards, Perform(s, c).after.cards)
  {
    match c.req
    case ExpireLeases => ExpireKeepsValid(s, c.now, c.base, |s.leaseOrder|);
    case SubmitArtifact(leaseId, pipe, refs, _) => SubmitVersions(s, leaseId, pipe, refs, c.now, c.base);
    case ValidateCard(cardId, validatorId, accepted, reason, exit, payload, _) =>
      ValidateVersions(s, cardId, validatorId, accepted, reason, exit, payload, c.now, c.base);
    case MoveCard(cardId, toBucket, actorId, reason, _) => MoveVersions(s, cardId, toBucket, actorId, reason, c.now, c.base);
    case CreateCard(_, _, _, _) =>
    case _ => OthersKeepCards(s, c);
  }

  lemma CreateVersions(s: Mem, panelId: string, payload: Json, metadata: Json, now: Time, base: Uuid)
    requires Valid(s)
    ensures var after := Create(s, panelId, payload, metadata, now, base).after.cards;
      forall x :: x in after ==> (x in s.cards && after[x] == s.cards[x]) || Registered(s, after[x])
  {
  }

  lemma CardCallsKeepPanels(s: Mem, c: Call)
    requires c.req.CreateCard? || c.req.ValidateCard? || c.req.MoveCard? || c.req.RecordEvent?
    ensures Perform(s, c).after.panels == s.panels
  {
  }

  lemma LeaseCallsKeepPanels(s: Mem, c: Call)
    requires c.req.ClaimCard? || c.req.SubmitArtifact? || c.req.RenewLease? || c.req.ReleaseLease?
    ensures Perform(s, c).after.panels == s.panels
  {
  }

  lemma PerformPanels(s: Mem, c: Call)
    requires Valid(s)
    ensures Perform(s, c).after.panels ==
      if c.req.RegisterPanel? && Accepted(c.req.panel) then s.panels[c.req.panel.id := c.req.panel] else s.panels
  {
    if c.req.ExpireLeases? {
      ExpireKeepsValid(s, c.now, c.base, |s.leaseOrder|);
    } else if c.req.CreateCard? || c.req.ValidateCard? || c.req.MoveCard? || c.req.RecordEvent? {
      CardCallsKeepPanels(s, c);
    } else if !c.req.RegisterPanel? {
      LeaseCallsKeepPanels(s, c);
    }
  }

  lemma PerformSettles(s: Mem, c: Call)
    requires Valid(s) && Settled(s) && RegistersOnce(s, c)
    ensures Settled(Perform(s, c).after)
  {
    PerformVersions(s, c);
    if c.req.CreateCard? { CreateVersions(s, c.req.panelId, c.req.payload, c.req.metadata, c.now, c.base); }
    PerformPanels(s, c);
    var m := Perform(s, c).after;
    forall x | x in m.cards
      ensures Registered(m, m.cards[x])
    {
      assert Registered(s, m.cards[x]);
      var id :| id in s.panels && s.panels[id].WorkflowVersion() == m.cards[x].workflowVersion;
      assert id in m.panels && m.panels[id] == s.panels[id];
    }
  }

  ghost predicate AllRegisterOnce(s: Mem, calls: seq<Call>) {
    calls == [] ||
    (AllRegisterOnce(s, calls[..|calls| - 1]) && RegistersOnce(Run(s, calls[..|calls| - 1]), calls[|calls| - 1]))
  }

  lemma {:induction false} ExpiriesAreGoverned(a: A.Core, ts: seq<A.Timed>)
    requires A.Legal(a, ts) && forall t :: t in ts ==> t.act.Expire?
    ensures A.AllGoverned(a, ts)
  {
    if ts != [] { ExpiriesAreGoverned(a, ts[..|ts| - 1]); }
  }

  lemma StepGoverned(s: Mem, c: Call)
    requires Valid(s) && Settled(s) && FreshIds(s, c) && RegistersOnce(s, c)
    ensures A.Legal(CoreOf(s), StepActs(s, c)) && A.AllGoverned(CoreOf(s), StepActs(s, c))
  {
    StepRefines(s, c);
    if Acts(s, c) {
      if c.req.ExpireLeases? {
        SweepOnlyExpires(s, c.now, c.base, |s.leaseOrder|);
        ExpiriesAreGoverned(CoreOf(s), StepActs(s, c));
      } else {
        ActGoverned(s, c);
        assert StepActs(s, c)[..0] == [];
      }
    }
  }

  lemma {:induction false} RunSettles(s: Mem, calls: seq<Call>)
    requires Valid(s) && Settled(s) && AllRegisterOnce(s, calls)
    ensures Settled(Run(s, calls))
  {
    if calls != [] {
      RunSettles(s, calls[..|calls| - 1]);
      RunKeepsValid(s, calls[..|calls| - 1]);
      PerformSettles(Run(s, calls[..|calls| - 1]), calls[|calls| - 1]);
    }
  }

  /** In runs that register each panel id once, every card sits in a bucket its own panel declares. */
  lemma {:induction false} CardsSitInDeclaredBuckets(start: Time, calls: seq<Call>)
    requires Proper(Fresh, start, calls) && AllRegisterOnce(Fresh, calls)
    ensures G.CardsDeclared(CoreOf(Run(Fresh, calls)))
  {
    FreshIsSound(start);
    if calls != [] {
      var front, last := calls[..|calls| - 1], calls[|calls| - 1];
      CardsSitInDeclaredBuckets(start, front);
      RunKeepsValid(Fresh, front);
      RunSettles(Fresh, front);
      StepDeclared(Run(Fresh, front), last);
    }
  }

  lemma StepDeclared(s: Mem, c: Call)
    requires Valid(s) && Settled(s) && G.CardsDeclared(CoreOf(s)) && FreshIds(s, c) && RegistersOnce(s, c)
    ensures G.CardsDeclared(CoreOf(Step(s, c).after))
  {
    PanelsAreSettled(s);
    StepRefines(s, c);
    StepGoverned(s, c);
    assert T.Sound(CoreOf(s));
    G.BucketsAlwaysDeclared(CoreOf(s), StepActs(s, c));
  }

  // ---- leased cards wait -------------------------------------------------------------------

  /** A routed validation or a move is asked only for a card without an active lease. */
  ghost predicate LeavesLeasedAlone(s: Mem, c: Call) {
    && (c.req.ValidateCard? && Truthy(c.req.exit) ==> !A.HasActiveLease(s.leases, c.req.cardId, c.now))
    && (c.req.MoveCard? ==> !A.HasActiveLease(s.leases, c.req.cardId, c.now))
  }

  ghost predicate AllLeaveLeasedAlone(s: Mem, calls: seq<Call>) {
    calls == [] ||
    (AllLeaveLeasedAlone(s, calls[..|calls| - 1]) && LeavesLeasedAlone(Run(s, calls[..|calls| - 1]), calls[|calls| - 1]))
  }

  lemma {:induction false} ExpiriesAreCalm(a: A.Core, ts: seq<A.Timed>)
    requires A.Legal(a, ts) && forall t :: t in ts ==> t.act.Expire?
    ensures G.AllCalm(a, ts)
  {
    if ts != [] { ExpiriesAreCalm(a, ts[..|ts| - 1]); }
  }

  lemma StepCalm(s: Mem, c: Call)
    requires Valid(s) && FreshIds(s, c) && LeavesLeasedAlone(s, c)
    ensures A.Legal(CoreOf(s), StepActs(s, c)) && G.AllCalm(CoreOf(s), StepActs(s, c))
  {
    StepRefines(s, c);
    if Acts(s, c) {
      if c.req.ExpireLeases? {
        SweepOnlyExpires(s, c.now, c.base, |s.leaseOrder|);
        ExpiriesAreCalm(CoreOf(s), StepActs(s, c));
      } else {
        assert StepActs(s, c)[..0] == [];
        assert G.Calm(CoreOf(s), StepActs(s, c)[0]);
      }
    }
  }

  lemma StepWaits(s: Mem, c: Call, later: Time)
    requires Valid(s) && Settled(s) && FreshIds(s, c) && RegistersOnce(s, c) && LeavesLeasedAlone(s, c)
    requires T.Exclusive(CoreOf(s), c.now) && T.Sound(CoreOf(s)) && G.LeasedCardsWait(CoreOf(s), c.now) && c.now <= later
    ensures T.Sound(CoreOf(Step(s, c).after)) && G.LeasedCardsWait(CoreOf(Step(s, c).after), later)
  {
    PanelsAreSettled(s);
    StepRefines(s, c);
    StepGoverned(s, c);
    StepCalm(s, c);
    G.LeasedCardsAlwaysWait(CoreOf(s), c.now, StepActs(s, c), later);
  }

  /** An actively leased card sits where its lease's input pipe leads, at the lease's node. */
  lemma {:induction false} LeasedCardsSitAtTheirPipe(start: Time, calls: seq<Call>, later: Time)
    requires Proper(Fresh, start, calls) && AllRegisterOnce(Fresh, calls) && AllLeaveLeasedAlone(Fresh, calls)
    requires Clock(start, calls) <= later
    ensures T.Sound(CoreOf(Run(Fresh, calls))) && G.LeasedCardsWait(CoreOf(Run(Fresh, calls)), later)
  {
    FreshIsSound(later);
    if calls != [] {
      var front, last := calls[..|calls| - 1], calls[|calls| - 1];
      LeasedCardsSitAtTheirPipe(start, front, last.now);
      OneActiveLease(start, front, last.now);
      RunKeepsValid(Fresh, front);
      RunSettles(Fresh, front);
      StepWaits(Run(Fresh, front), last, later);
    }
  }

  lemma WaitsAtItsPanel(s: Mem, card: Card, lease: Lease)
    requires Valid(s) && Settled(s) && Registered(s, card) && G.Waits(CoreOf(s).panels, card, lease)
    ensures PanelForCard(s, card).Some?
    ensures ResolvePipeBucket(PanelForCard(s, card).value, lease.inputPipe, Input)
         == Ok(Endpoint(card.currentBucket, lease.nodeId))
  {
    PanelOfCard(s, card);
    PanelsAreSettled(s);
  }

  lemma SubmitMoves(s: Mem, leaseId: Uuid, pipe: string, refs: seq<ArtifactReference>, now: Time, base: Uuid)
    requires Valid(s) && Submit(s, leaseId, pipe, refs, now, base).result.Ok?
    ensures leaseId in s.leases && s.leases[leaseId].Active(now)
    ensures var lease, after := s.leases[leaseId], Submit(s, leaseId, pipe, refs, now, base).after;
      && lease.cardId in s.cards && lease.cardId in after.cards && PanelForCard(s, s.cards[lease.cardId]).Some?
      && ResolvePipeBucket(PanelForCard(s, s.cards[lease.cardId]).value, pipe, Output)
         == Ok(Endpoint(after.cards[lease.cardId].currentBucket, lease.nodeId))
  {
  }

  /** So in such runs a submission takes the card from an input bucket to an output bucket of one node. */
  lemma SubmissionsCrossOneNode(start: Time, calls: seq<Call>, leaseId: Uuid, pipe: string,
    refs: seq<ArtifactReference>, now: Time, base: Uuid)
    requires Proper(Fresh, start, calls) && AllRegisterOnce(Fresh, calls) && AllLeaveLeasedAlone(Fresh, calls)
    requires Clock(start, calls) <= now
    requires Submit(Run(Fresh, calls), leaseId, pipe, refs, now, base).result.Ok?
    ensures var s := Run(Fresh, calls);
      leaseId in s.leases && s.leases[leaseId].cardId in s.cards
      && PanelForCard(s, s.cards[s.leases[leaseId].cardId]).Some?
    ensures var s, after := Run(Fresh, calls), Submit(Run(Fresh, calls), leaseId, pipe, refs, now, base).after;
      var lease := s.leases[leaseId];
      var panel := PanelForCard(s, s.cards[lease.cardId]).value;
      && lease.cardId in after.cards
      && ResolvePipeBucket(panel, lease.inputPipe, Input) == Ok(Endpoint(s.cards[lease.cardId].currentBucket, lease.nodeId))
      && ResolvePipeBucket(panel, pipe, Output) == Ok(Endpoint(after.cards[lease.cardId].currentBucket, lease.nodeId))
  {
    var s := Run(Fresh, calls);
    FreshIsSound(start);
    RunKeepsValid(Fresh, calls);
    RunSettles(Fresh, calls);
    SubmitMoves(s, leaseId, pipe, refs, now, base);
    LeasedCardsSitAtTheirPipe(start, calls, now);
    WaitsAtItsPanel(s, s.cards[s.leases[leaseId].cardId], s.leases[leaseId]);
  }
}
