/** The machine's theorems read off the Postgres runtime, for all its serial runs. */
module PostgresTheorems {
  import opened Prelude
  import opened Encoding
  import opened Domain
  import opened Service
  import opened PanelValidator
  import opened AcceptedPanels
  import opened Requests
  import opened Postgres
  import opened PostgresRefinement
  import A = Machine
  import T = MachineTheorems
  import G = Governance

  // ---- runs --------------------------------------------------------------------------------

  ghost function Clock(start: Time, calls: seq<PgCall>): Time {
    if calls == [] then start else calls[|calls| - 1].now
  }

  /** Clock readings never go back, drawn ids are new and queries return rows they may return. */
  ghost predicate Proper(db: Tables, start: Time, calls: seq<PgCall>) {
    calls == [] ||
    var front, last := calls[..|calls| - 1], calls[|calls| - 1];
    && Proper(db, start, front) && Clock(start, front) <= last.now
    && FreshIds(Run(db, front), last) && LegalChoice(Run(db, front), last)
  }

  ghost function RunActs(db: Tables, calls: seq<PgCall>): seq<A.Timed> {
    if calls == [] then []
    else RunActs(db, calls[..|calls| - 1]) + StepActs(Run(db, calls[..|calls| - 1]), calls[|calls| - 1])
  }

  lemma {:induction false} AllAtOnce(ts: seq<A.Timed>, early: Time, now: Time)
    requires early <= now && forall t :: t in ts ==> t.now == now
    ensures A.Clocked(early, ts) && early <= A.End(early, ts) <= now
  {
    if ts != [] {
      AllAtOnce(ts[..|ts| - 1], early, now);
      assert ts[|ts| - 1] in ts;
    }
  }

  /** Every serial run of the Postgres runtime is a legal, clocked run of the machine. */
  lemma {:induction false} RunRefines(db: Tables, start: Time, calls: seq<PgCall>)
    requires Keyed(db) && Proper(db, start, calls)
    ensures A.Leads(CoreOf(db), RunActs(db, calls), CoreOf(Run(db, calls))) && Keyed(Run(db, calls))
    ensures A.Clocked(start, RunActs(db, calls)) && A.End(start, RunActs(db, calls)) <= Clock(start, calls)
  {
    if calls != [] {
      var front, last := calls[..|calls| - 1], calls[|calls| - 1];
      RunRefines(db, start, front);
      var mid, xs := Run(db, front), RunActs(db, front);
      StepRefines(mid, last);
      AllAtOnce(StepActs(mid, last), A.End(start, xs), last.now);
      A.Join(CoreOf(db), xs, StepActs(mid, last));
      A.JoinClock(start, xs, StepActs(mid, last));
    }
  }

  lemma EmptyIsSound(start: Time)
    ensures Keyed(EmptyTables) && T.Sound(CoreOf(EmptyTables)) && T.Exclusive(CoreOf(EmptyTables), start)
    ensures T.HistoriesTellBuckets(CoreOf(EmptyTables)) && T.Conserved(CoreOf(EmptyTables))
    ensures G.PanelsSettled(CoreOf(EmptyTables).panels) && G.CardsDeclared(CoreOf(EmptyTables))
    ensures G.LeasedCardsWait(CoreOf(EmptyTables), start)
  {
  }

  // ---- leases ------------------------------------------------------------------------------

  /** In every reachable state and at every clock reading from then on, each card has at most
      one active lease. */
  lemma OneActiveLease(start: Time, calls: seq<PgCall>, later: Time)
    requires Proper(EmptyTables, start, calls) && Clock(start, calls) <= later
    ensures T.Exclusive(CoreOf(Run(EmptyTables, calls)), later)
  {
    EmptyIsSound(start);
    RunRefines(EmptyTables, start, calls);
    T.ExclusiveForever(CoreOf(EmptyTables), start, RunActs(EmptyTables, calls), later);
  }

  /** From any keyed state on, a lease that is not active now is never active again. */
  lemma ExpiredLeaseNeverReturns(db: Tables, start: Time, calls: seq<PgCall>, l: Uuid, later: Time)
    requires Keyed(db) && Proper(db, start, calls) && Clock(start, calls) <= later
    requires l in db.leases && !db.leases[l].Active(start)
    ensures l in Run(db, calls).leases && !Run(db, calls).leases[l].Active(later)
  {
    RunRefines(db, start, calls);
    KeyedIsSound(db);
    T.DeadLeasesStayDead(CoreOf(db), start, RunActs(db, calls), l, later);
  }

  // ---- reserved names ----------------------------------------------------------------------

  /** An act a call may lead to: what its request asks for, at the call's clock reading. */
  ghost predicate Asked(c: PgCall, t: A.Timed) {
    && t.now == c.now
    && match t.act
       case Register(panel, _) => c.req.RegisterPanel? && panel == c.req.panel
       case Create(_, _, _) => c.req.CreateCard?
       case Claim(_, _, _) => c.req.ClaimCard?
       case Submit(_, _, _, _, _, _) => c.req.SubmitArtifact?
       case Renew(_, _, _) => c.req.RenewLease?
       case Release(_, _, _) => c.req.ReleaseLease?
       case Expire(_, _) => c.req.ExpireLeases?
       case Validate(cardId, _, verdict, payload, _, route, _) =>
         && c.req.ValidateCard? && cardId == c.req.cardId && payload == c.req.payload
         && "destination_bucket" !in verdict && (route.Some? ==> Truthy(c.req.exit))
       case Move(_, cardId, _, _, _, _) =>
         (c.req.MoveCard? || (c.req.ValidateCard? && Truthy(c.req.exit))) && cardId == c.req.cardId
       case Record(event) => c.req.RecordEvent? && event.eventType == c.req.eventType
  }

  lemma ValidateActsAreAsked(db: Tables, c: PgCall)
    requires c.req.ValidateCard? && c.req.cardId in db.cards && RouteOf(db.panels, db.cards[c.req.cardId], c.req.exit).Ok?
    ensures var ts := ValidateActs(db, c.req.cardId, c.req.validatorId, c.req.accepted, c.req.reason, c.req.exit, c.req.payload,
                                   c.now, c.base);
      |ts| <= 2 && forall t :: t in ts ==> Asked(c, t)
  {
  }

  lemma ValidationsAreAsked(db: Tables, c: PgCall)
    requires c.req.ValidateCard? && Acts(db, c)
    ensures |StepActs(db, c)| <= 2 && forall t :: t in StepActs(db, c) ==> Asked(c, t)
  {
    ValidateActsAreAsked(db, c);
  }

  lemma {:induction false} ActsAreAsked(db: Tables, c: PgCall)
    ensures forall t :: t in StepActs(db, c) ==> Asked(c, t)
  {
    if c.req.ValidateCard? && Acts(db, c) { ValidationsAreAsked(db, c); }
  }

  lemma StepKeepsNames(db: Tables, c: PgCall)
    ensures ReservesMovement(c.req) ==> T.AllKeepMovementNames(StepActs(db, c))
    ensures ReservesLeases(c.req) ==> T.AllKeepLeaseNames(StepActs(db, c))
  {
    ActsAreAsked(db, c);
    forall i | 0 <= i < |StepActs(db, c)|
      ensures Asked(c, StepActs(db, c)[i])
    { assert StepActs(db, c)[i] in StepActs(db, c); }
  }

  lemma {:induction false} RunKeepsNames(db: Tables, calls: seq<PgCall>)
    ensures (forall c :: c in calls ==> ReservesMovement(c.req)) ==> T.AllKeepMovementNames(RunActs(db, calls))
    ensures (forall c :: c in calls ==> ReservesLeases(c.req)) ==> T.AllKeepLeaseNames(RunActs(db, calls))
  {
    if calls != [] {
      RunKeepsNames(db, calls[..|calls| - 1]);
      StepKeepsNames(Run(db, calls[..|calls| - 1]), calls[|calls| - 1]);
    }
  }

  /** Replaying the event rows of any card yields exactly its current bucket. */
  lemma HistoryReplays(start: Time, calls: seq<PgCall>, c: Uuid)
    requires Proper(EmptyTables, start, calls) && forall x :: x in calls ==> ReservesMovement(x.req)
    requires c in Run(EmptyTables, calls).cards
    ensures var db := Run(EmptyTables, calls);
      History(db.events, c) != [] && T.HistoryTells(History(db.events, c), db.cards[c].currentBucket)
  {
    EmptyIsSound(start);
    RunRefines(EmptyTables, start, calls);
    RunKeepsNames(EmptyTables, calls);
    T.ReplayYieldsBucket(CoreOf(EmptyTables), RunActs(EmptyTables, calls));
    assert c in CoreOf(Run(EmptyTables, calls)).log;
  }

  /** The open leases of a card are its claims minus its closings, each lease has one claim
      event, and at most one event closes it. */
  lemma LeasesBalance(start: Time, calls: seq<PgCall>)
    requires Proper(EmptyTables, start, calls) && forall x :: x in calls ==> ReservesLeases(x.req)
    ensures T.Conserved(CoreOf(Run(EmptyTables, calls)))
  {
    EmptyIsSound(start);
    RunRefines(EmptyTables, start, calls);
    RunKeepsNames(EmptyTables, calls);
    T.LeasesConserved(CoreOf(EmptyTables), RunActs(EmptyTables, calls));
  }

  // ---- Patch Panels ------------------------------------------------------------------------

  predicate ColonFree(panels: set<PatchPanel>) {
    forall p :: p in panels ==> ':' !in p.id
  }

  ghost predicate Settled(db: Tables) {
    G.PanelsSettled(CoreOf(db).panels) && G.CardsDeclared(CoreOf(db)) && ColonFree(CoreOf(db).panels)
  }

  /** The call registers no panel whose id has a colon. */
  predicate PlainId(c: PgCall) {
    c.req.RegisterPanel? ==> ':' !in c.req.panel.id
  }

  lemma {:induction false} SplitFirstJoins(text: string)
    ensures SplitFirst(text).Some? ==> Version(SplitFirst(text).value.0, SplitFirst(text).value.1) == text
  {
    if text != "" && text[0] != ':' {
      SplitFirstJoins(text[1..]);
      assert [text[0]] + text[1..] == text;
    }
  }

  /** What `_get_patch_panel_for_card` finds is a stored panel of the card's own version. */
  lemma FoundPanelOwns(db: Tables, card: Card)
    requires Keyed(db) && PanelForCard(db.panels, card).Ok?
    ensures PanelForCard(db.panels, card).value in CoreOf(db).panels
    ensures PanelForCard(db.panels, card).value.WorkflowVersion() == card.workflowVersion
  {
    SplitFirstJoins(card.workflowVersion);
  }

  /** The look-up finds the stored panel of the card's version exactly when its id has no colon; else it
      looks under another id, and finds another panel or none. */
  lemma StoredPanelFoundIff(db: Tables, card: Card, p: PatchPanel)
    requires Keyed(db) && p in CoreOf(db).panels && p.WorkflowVersion() == card.workflowVersion
    ensures PanelForCard(db.panels, card) == Ok(p) <==> ':' !in p.id
  {
    FirstSplitRecovers(p.id, p.version);
  }

  lemma RegisterGoverned(db: Tables, panel: PatchPanel)
    requires Keyed(db) && Settled(db) && Accepted(panel) && ':' !in panel.id
    requires (panel.id, panel.version) !in db.panels
    ensures A.Governed(CoreOf(db), A.Register(panel, CoreOf(db).panels + {panel}))
  {
    FirstSplitRecovers(panel.id, panel.version);
    forall q | q in CoreOf(db).panels
      ensures q.WorkflowVersion() != panel.WorkflowVersion()
    {
      FirstSplitRecovers(q.id, q.version);
      var k :| k in db.panels && db.panels[k] == q;
    }
  }

  lemma ClaimGoverned(db: Tables, pipe: string, workerId: string, seconds: int, now: Time, base: Uuid, row: Uuid)
    requires Keyed(db) && Settled(db) && Claim(db, pipe, workerId, seconds, now, base, row).result.Ok?
    ensures A.Governed(CoreOf(db), ClaimAct(db, pipe, workerId, seconds, now, base, row))
  {
    OnlyPanel(db);
    assert G.CardDeclared(CoreOf(db).panels, db.cards[row]);
  }

  lemma OnlyPanel(db: Tables)
    requires SinglePanel(db).Ok?
    ensures CoreOf(db).panels == {SinglePanel(db).value}
  {
    var key :| key in db.panels && SinglePanel(db) == Ok(db.panels[key]);
    assert db.panels.Keys == {key} by {
      assert |db.panels.Keys - {key}| == 0;
    }
  }

  /** The move a routed validation makes obeys the panel its route comes from. */
  lemma {:induction false} ViaMoveGoverned(db: Tables, cardId: Uuid, validatorId: string, exit: Option<string>, now: Time, eventId: Uuid)
    requires Keyed(db) && Settled(db) && cardId in db.cards && RouteOf(db.panels, db.cards[cardId], exit).Ok?
    ensures var panel, route := PanelOr(db.panels, db.cards[cardId]), RouteOf(db.panels, db.cards[cardId], exit).value;
      && (forall t :: t in ViaMove(panel, cardId, validatorId, route, now, eventId) ==> A.Governed(CoreOf(db), t.act))
      && (route.Some? ==>
            && A.Owns(CoreOf(db), panel, cardId) && ResolvePipeBucket(panel, route.value.pipe, Output).Ok?
            && ResolvePipeBucket(panel, route.value.pipe, Output).value.bucket == route.value.bucket)
  {
    if RouteOf(db.panels, db.cards[cardId], exit).value.Some? {
      FoundPanelOwns(db, db.cards[cardId]);
      ResolvedBucketDeclared(PanelOr(db.panels, db.cards[cardId]), exit.value, Output);
    }
  }

  lemma {:induction false} OneAct(a: A.Core, ts: seq<A.Timed>)
    requires A.Legal(a, ts) && |ts| == 1
    ensures A.Enabled(a, ts[0]) && A.Play(a, ts) == A.Apply(a, ts[0])
    ensures A.Governed(a, ts[0].act) ==> A.AllGoverned(a, ts)
    ensures G.Calm(a, ts[0]) ==> G.AllCalm(a, ts)
  {
    assert ts[..|ts| - 1] == [];
    assert A.Play(a, []) == a && A.AllGoverned(a, []) && G.AllCalm(a, []);
  }

  lemma {:induction false} TwoActs(a: A.Core, ts: seq<A.Timed>)
    requires A.Legal(a, ts) && |ts| == 2
    ensures A.Enabled(a, ts[0])
    ensures A.Governed(a, ts[0].act) && A.Governed(A.Apply(a, ts[0]), ts[1].act) ==> A.AllGoverned(a, ts)
    ensures G.Calm(a, ts[0]) && G.Calm(A.Apply(a, ts[0]), ts[1]) ==> G.AllCalm(a, ts)
  {
    var front := ts[..|ts| - 1];
    assert front == [ts[0]];
    OneAct(a, front);
  }

  lemma MoveThenGoverned(a: A.Core, ts: seq<A.Timed>)
    requires T.Sound(a) && A.Legal(a, ts) && |ts| == 2
    requires ts[0].act.Move? && A.Governed(a, ts[0].act) && ts[1].act.Validate? && A.Governed(a, ts[1].act)
    ensures A.AllGoverned(a, ts)
  {
    TwoActs(a, ts);
    T.Written(a, ts[0]);
  }

  lemma {:induction false} ValidateGoverned(db: Tables, cardId: Uuid, validatorId: string, accepted: bool, reason: Option<string>,
    exit: Option<string>, payload: Json, now: Time, base: Uuid)
    requires Keyed(db) && Settled(db) && cardId in db.cards && RouteOf(db.panels, db.cards[cardId], exit).Ok?
    ensures var ts := ValidateActs(db, cardId, validatorId, accepted, reason, exit, payload, now, base);
      A.Legal(CoreOf(db), ts) && A.AllGoverned(CoreOf(db), ts)
  {
    ValidateRefines(db, cardId, validatorId, accepted, reason, exit, payload, now, base);
    ViaMoveGoverned(db, cardId, validatorId, exit, now, base + 2);
    KeyedIsSound(db);
    var ts := ValidateActs(db, cardId, validatorId, accepted, reason, exit, payload, now, base);
    if |ts| == 1 { OneAct(CoreOf(db), ts); } else { MoveThenGoverned(CoreOf(db), ts); }
  }

  /** Acts that no Patch Panel governs. */
  predicate Free(act: A.Act) { act.Expire? || act.Renew? || act.Release? || act.Record? }

  lemma AskedFree(c: PgCall, ts: seq<A.Timed>)
    requires c.req.ExpireLeases? || c.req.RenewLease? || c.req.ReleaseLease? || c.req.RecordEvent?
    requires forall t :: t in ts ==> Asked(c, t)
    ensures AllFree(ts)
  {
  }

  lemma FreeStepGoverned(db: Tables, c: PgCall)
    requires A.Legal(CoreOf(db), StepActs(db, c))
    requires c.req.ExpireLeases? || c.req.RenewLease? || c.req.ReleaseLease? || c.req.RecordEvent?
    ensures A.AllGoverned(CoreOf(db), StepActs(db, c))
  {
    ActsAreAsked(db, c);
    AskedFree(c, StepActs(db, c));
    FreeActsAreGoverned(CoreOf(db), StepActs(db, c));
  }

  /** The acts of a call obey the stored Patch Panels. */
  lemma {:induction false} StepGoverned(db: Tables, c: PgCall)
    requires Keyed(db) && Settled(db) && FreshIds(db, c) && LegalChoice(db, c) && PlainId(c)
    ensures A.Legal(CoreOf(db), StepActs(db, c)) && A.AllGoverned(CoreOf(db), StepActs(db, c))
  {
    StepRefines(db, c);
    if c.req.ExpireLeases? || c.req.RenewLease? || c.req.ReleaseLease? || c.req.RecordEvent? {
      FreeStepGoverned(db, c);
    } else if c.req.ValidateCard? && Acts(db, c) {
      ValidateGoverned(db, c.req.cardId, c.req.validatorId, c.req.accepted, c.req.reason, c.req.exit, c.req.payload, c.now, c.base);
    } else if StepActs(db, c) != [] {
      OneActGoverned(db, c);
      OneAct(CoreOf(db), StepActs(db, c));
    }
  }

  lemma FreeActIsGoverned(a: A.Core, act: A.Act)
    requires Free(act)
    ensures A.Governed(a, act)
  {
  }

  predicate AllFree(ts: seq<A.Timed>) { forall t :: t in ts ==> Free(t.act) }

  lemma {:induction false} FreeActsAreGoverned(a: A.Core, ts: seq<A.Timed>)
    requires A.Legal(a, ts) && AllFree(ts)
    ensures A.AllGoverned(a, ts)
  {
    if ts != [] {
      var front, t := ts[..|ts| - 1], ts[|ts| - 1];
      assert A.Legal(a, front) && t in ts && AllFree(front);
      FreeActsAreGoverned(a, front);
      FreeActIsGoverned(A.Play(a, front), t.act);
    }
  }

  lemma CreateGoverned(db: Tables, panelId: string, payload: Json, metadata: Json, now: Time, base: Uuid, version: string)
    requires Create(db, panelId, payload, metadata, now, base, version).result.Ok?
    ensures A.Governed(CoreOf(db), CreateAct(db, panelId, payload, metadata, now, base, version))
  {
  }

  lemma SubmitGoverned(db: Tables, leaseId: Uuid, pipe: string, refs: seq<ArtifactReference>, now: Time, base: Uuid)
    requires Keyed(db) && Submit(db, leaseId, pipe, refs, now, base).result.Ok?
    ensures A.Governed(CoreOf(db), SubmitAct(db, leaseId, pipe, refs, now, base))
  {
    FoundPanelOwns(db, db.cards[db.leases[leaseId].cardId]);
  }

  lemma MoveGoverned(db: Tables, cardId: Uuid, toBucket: string, actorId: Option<string>, reason: Option<string>,
    now: Time, base: Uuid)
    requires Keyed(db) && Move(db, cardId, toBucket, actorId, reason, now, base).result.Ok?
    ensures A.Governed(CoreOf(db), A.Move(PanelOr(db.panels, db.cards[cardId]), cardId, toBucket, actorId, reason, base + 1))
  {
    FoundPanelOwns(db, db.cards[cardId]);
  }

  lemma {:induction false} OneActGoverned(db: Tables, c: PgCall)
    requires Keyed(db) && Settled(db) && PlainId(c) && StepActs(db, c) != []
    requires c.req.RegisterPanel? || c.req.CreateCard? || c.req.ClaimCard? || c.req.SubmitArtifact? || c.req.MoveCard?
    ensures |StepActs(db, c)| == 1 && A.Governed(CoreOf(db), StepActs(db, c)[0].act)
  {
    match c.req
    case RegisterPanel(panel) => RegisterGoverned(db, panel);
    case CreateCard(panelId, payload, metadata, _) =>
      CreateGoverned(db, panelId, payload, metadata, c.now, c.base, c.choice.version);
    case ClaimCard(pipe, workerId, seconds, _) =>
      ClaimGoverned(db, pipe, workerId, seconds, c.now, c.base, c.choice.card);
    case SubmitArtifact(leaseId, pipe, refs, _) => SubmitGoverned(db, leaseId, pipe, refs, c.now, c.base);
    case MoveCard(cardId, toBucket, actorId, reason, _) => MoveGoverned(db, cardId, toBucket, actorId, reason, c.now, c.base);
  }

  /** Only registrations add panels. */
  lemma {:induction false} PanelsStayPlain(a: A.Core, ts: seq<A.Timed>)
    requires A.Legal(a, ts) && A.AllGoverned(a, ts) && ColonFree(a.panels)
    requires forall t :: t in ts && t.act.Register? ==> ':' !in t.act.panel.id
    ensures ColonFree(A.Play(a, ts).panels)
  {
    if ts != [] {
      PanelsStayPlain(a, ts[..|ts| - 1]);
      assert ts[|ts| - 1] in ts;
    }
  }

  lemma StepPlain(db: Tables, c: PgCall)
    requires PlainId(c)
    ensures forall t :: t in StepActs(db, c) && t.act.Register? ==> ':' !in t.act.panel.id
  {
    ActsAreAsked(db, c);
  }

  lemma StepSettles(db: Tables, c: PgCall)
    requires Keyed(db) && Settled(db) && FreshIds(db, c) && LegalChoice(db, c) && PlainId(c)
    ensures Settled(Step(db, c).after) && CoreOf(db).panels <= CoreOf(Step(db, c).after).panels
  {
    StepRefines(db, c);
    StepGoverned(db, c);
    StepPlain(db, c);
    KeyedIsSound(db);
    G.BucketsAlwaysDeclared(CoreOf(db), StepActs(db, c));
    PanelsStayPlain(CoreOf(db), StepActs(db, c));
  }

  lemma {:induction false} RunSettles(db: Tables, start: Time, calls: seq<PgCall>)
    requires Keyed(db) && Settled(db) && Proper(db, start, calls) && forall x :: x in calls ==> PlainId(x)
    ensures Settled(Run(db, calls)) && CoreOf(db).panels <= CoreOf(Run(db, calls)).panels
  {
    if calls != [] {
      RunSettles(db, start, calls[..|calls| - 1]);
      RunRefines(db, start, calls[..|calls| - 1]);
      assert calls[|calls| - 1] in calls;
      StepSettles(Run(db, calls[..|calls| - 1]), calls[|calls| - 1]);
    }
  }

  /** In every run, further versions included, each card's bucket is declared by the definition
      stored under the card's own workflow version, which the runtime finds. */
  lemma CardsSitInDeclaredBuckets(start: Time, calls: seq<PgCall>, c: Uuid)
    requires Proper(EmptyTables, start, calls) && forall x :: x in calls ==> PlainId(x)
    requires c in Run(EmptyTables, calls).cards
    ensures var db := Run(EmptyTables, calls);
      && PanelForCard(db.panels, db.cards[c]).Ok?
      && PanelForCard(db.panels, db.cards[c]).value.Declares(db.cards[c].currentBucket)
  {
    EmptyIsSound(start);
    RunRefines(EmptyTables, start, calls);
    RunSettles(EmptyTables, start, calls);
    var db := Run(EmptyTables, calls);
    assert G.CardDeclared(CoreOf(db).panels, db.cards[c]);
    var p :| p in CoreOf(db).panels && p.WorkflowVersion() == db.cards[c].workflowVersion && p.Declares(db.cards[c].currentBucket);
    StoredPanelFoundIff(db, db.cards[c], p);
  }

  lemma {:induction false} SweepKeepsPanels(db: Tables, now: Time, base: Uuid, order: seq<Uuid>, k: nat)
    requires k <= |order|
    ensures Expire(db, now, base, order, k).state.panels == db.panels && Expire(db, now, base, order, k).state.versions == db.versions
  {
    if k > 0 { SweepKeepsPanels(db, now, base, order, k - 1); }
  }

  lemma LeaseCallKeepsPanels(db: Tables, c: PgCall)
    requires c.req.ClaimCard? || c.req.SubmitArtifact? || c.req.RenewLease? || c.req.ReleaseLease?
    ensures Perform(db, c).after.panels == db.panels && Perform(db, c).after.versions == db.versions
  {
  }

  lemma CardCallKeepsPanels(db: Tables, c: PgCall)
    requires c.req.CreateCard? || c.req.MoveCard? || c.req.RecordEvent?
    ensures Perform(db, c).after.panels == db.panels && Perform(db, c).after.versions == db.versions
  {
  }

  lemma ValidateKeepsPanels(db: Tables, c: PgCall)
    requires c.req.ValidateCard?
    ensures Perform(db, c).after.panels == db.panels && Perform(db, c).after.versions == db.versions
  {
  }

  lemma RegisterKeepsPanels(db: Tables, panel: PatchPanel, k: (string, string))
    requires k in db.panels
    ensures k in Register(db, panel).after.panels && Register(db, panel).after.panels[k] == db.panels[k]
  {
  }

  lemma OthersKeepPanels(db: Tables, c: PgCall)
    requires !c.req.RegisterPanel?
    ensures Perform(db, c).after.panels == db.panels && Perform(db, c).after.versions == db.versions
  {
    if c.req.ExpireLeases? {
      SweepKeepsPanels(db, c.now, c.base, c.choice.order, |c.choice.order|);
    } else if c.req.ValidateCard? {
      ValidateKeepsPanels(db, c);
    } else if c.req.CreateCard? || c.req.MoveCard? || c.req.RecordEvent? {
      CardCallKeepsPanels(db, c);
    } else {
      LeaseCallKeepsPanels(db, c);
    }
  }

  /** Only a registration writes a definition, and only under an id and version that has none. */
  lemma PerformKeepsPanels(db: Tables, c: PgCall, k: (string, string))
    requires k in db.panels
    ensures k in Perform(db, c).after.panels && Perform(db, c).after.panels[k] == db.panels[k]
  {
    if c.req.RegisterPanel? { RegisterKeepsPanels(db, c.req.panel, k); } else { OthersKeepPanels(db, c); }
  }

  /** A definition stored under an id and a version never changes, from any tables on and in any run. */
  lemma {:induction false} StoredPanelsNeverChange(db: Tables, calls: seq<PgCall>, k: (string, string))
    requires k in db.panels
    ensures k in Run(db, calls).panels && Run(db, calls).panels[k] == db.panels[k]
  {
    if calls != [] {
      StoredPanelsNeverChange(db, calls[..|calls| - 1], k);
      PerformKeepsPanels(Run(db, calls[..|calls| - 1]), calls[|calls| - 1], k);
    }
  }

  // ---- ids with a colon --------------------------------------------------------------------

  /** Two panels that share a workflow version, a card of the first, and a move only the second declares. */
  function Ambiguous(now: Time, base: Uuid): seq<PgCall> {
    [PgCall(RegisterPanel(LinePanel("a:b", "c", "home", "home")), now, base, Choice("", 0, [])),
     PgCall(RegisterPanel(LinePanel("a", "b:c", "home", "away")), now, base, Choice("", 0, [])),
     PgCall(CreateCard("a:b", map[], map[], None), now, base, Choice("c", 0, [])),
     PgCall(MoveCard(base, "away", None, None, None), now, base + 3, Choice("", 0, []))]
  }

  lemma FirstIsStored(now: Time, base: Uuid)
    ensures var db, p := Run(EmptyTables, Ambiguous(now, base)[..1]), LinePanel("a:b", "c", "home", "home");
      db == EmptyTables.(panels := map[("a:b", "c") := p], versions := map["a:b:c" := ("a:b", "c")])
  {
    var calls := Ambiguous(now, base);
    LineAccepted("a:b", "c", "home", "home");
    assert LinePanel("a:b", "c", "home", "home").WorkflowVersion() == "a:b:c";
    assert calls[..1][..0] == [] && Run(EmptyTables, calls[..1][..0]) == EmptyTables;
  }

  lemma BothAreStored(now: Time, base: Uuid)
    ensures var db := Run(EmptyTables, Ambiguous(now, base)[..2]);
      var p, q := LinePanel("a:b", "c", "home", "home"), LinePanel("a", "b:c", "home", "away");
      db == EmptyTables.(panels := map[("a:b", "c") := p, ("a", "b:c") := q], versions := map["a:b:c" := ("a:b", "c")])
  {
    var calls := Ambiguous(now, base);
    FirstIsStored(now, base);
    LineAccepted("a", "b:c", "home", "away");
    assert LinePanel("a", "b:c", "home", "away").WorkflowVersion() == "a:b:c";
    assert calls[..2][..1] == calls[..1];
  }

  lemma CreationWrites(db: Tables, c: PgCall, panel: PatchPanel, bucket: string)
    requires c.req.CreateCard? && c.req.key.None? && ActivePanel(db, c.req.panelId, c.choice.version)
    requires db.panels[(c.req.panelId, c.choice.version)] == panel && ResolveInitialBucket(panel) == Ok(bucket)
    ensures var after := Step(db, c).after;
      && after.panels == db.panels && c.base in after.cards
      && after.cards[c.base] == Card(c.base, panel.WorkflowVersion(), bucket, c.req.payload, c.req.metadata, c.now)
  {
  }

  lemma MoveWrites(db: Tables, c: PgCall, panel: PatchPanel)
    requires c.req.MoveCard? && c.req.key.None? && c.req.cardId in db.cards && db.cards[c.req.cardId].id == c.req.cardId
    requires PanelForCard(db.panels, db.cards[c.req.cardId]) == Ok(panel) && panel.Declares(c.req.toBucket)
    ensures var after := Step(db, c).after;
      && after.panels == db.panels && c.req.cardId in after.cards
      && after.cards[c.req.cardId] == db.cards[c.req.cardId].(currentBucket := c.req.toBucket)
  {
  }

  lemma CardIsOfFirst(now: Time, base: Uuid)
    ensures var db, before := Run(EmptyTables, Ambiguous(now, base)[..3]), Run(EmptyTables, Ambiguous(now, base)[..2]);
      && db.panels == before.panels && base in db.cards
      && db.cards[base] == Card(base, "a:b:c", "home", map[], map[], now)
  {
    var calls := Ambiguous(now, base);
    BothAreStored(now, base);
    LineAccepted("a:b", "c", "home", "home");
    assert LinePanel("a:b", "c", "home", "home").WorkflowVersion() == "a:b:c";
    assert calls[..3][..2] == calls[..2];
    var db := Run(EmptyTables, calls[..2]);
    assert db.versions["a:b:c"] == ("a:b", "c");
    CreationWrites(db, calls[2], LinePanel("a:b", "c", "home", "home"), "home");
  }

  lemma JudgedBySecond(panels: map<(string, string), PatchPanel>, card: Card)
    requires ("a", "b:c") in panels && card.workflowVersion == "a:b:c"
    ensures PanelForCard(panels, card) == Ok(panels[("a", "b:c")])
  {
    assert "a:b:c" == Version("a", "b:c");
    FirstSplitRecovers("a", "b:c");
  }

  /** With a colon in an id a card can be judged by a panel it was not created under, and so be moved
      to a bucket its own panel does not declare. */
  lemma ColonIdMisleads(now: Time, base: Uuid)
    ensures var db, p := Run(EmptyTables, Ambiguous(now, base)), LinePanel("a:b", "c", "home", "home");
      && ("a:b", "c") in db.panels && db.panels[("a:b", "c")] == p
      && base in db.cards && db.cards[base].workflowVersion == p.WorkflowVersion()
      && db.cards[base].currentBucket == "away" && !p.Declares("away")
  {
    var calls := Ambiguous(now, base);
    BothAreStored(now, base);
    CardIsOfFirst(now, base);
    LineBuckets("a:b", "c", "home", "home");
    LineBuckets("a", "b:c", "home", "away");
    var db := Run(EmptyTables, calls[..3]);
    JudgedBySecond(db.panels, db.cards[base]);
    assert calls[..|calls| - 1] == calls[..3];
    MoveWrites(db, calls[3], LinePanel("a", "b:c", "home", "away"));
  }

  // ---- leased cards wait -------------------------------------------------------------------

  /** A routed validation or a move is asked only for a card without an active lease. */
  ghost predicate LeavesLeasedAlone(db: Tables, c: PgCall) {
    && (c.req.ValidateCard? && Truthy(c.req.exit) ==> !A.HasActiveLease(db.leases, c.req.cardId, c.now))
    && (c.req.MoveCard? ==> !A.HasActiveLease(db.leases, c.req.cardId, c.now))
  }

  /** Acts that move nothing but their own lease's card. */
  lemma {:induction false} QuietActsAreCalm(a: A.Core, ts: seq<A.Timed>)
    requires A.Legal(a, ts) && forall t :: t in ts ==> !t.act.Validate? && !t.act.Move?
    ensures G.AllCalm(a, ts)
  {
    if ts != [] {
      QuietActsAreCalm(a, ts[..|ts| - 1]);
      assert ts[|ts| - 1] in ts;
    }
  }

  lemma {:induction false} CalmPair(a: A.Core, ts: seq<A.Timed>, c: PgCall)
    requires A.Legal(a, ts) && |ts| <= 2 && (c.req.ValidateCard? || c.req.MoveCard?)
    requires forall t :: t in ts ==> Asked(c, t)
    requires A.HasActiveLease(a.leases, c.req.cardId, c.now) ==> c.req.ValidateCard? && !Truthy(c.req.exit)
    ensures G.AllCalm(a, ts)
  {
    if |ts| == 1 {
      assert ts[0] in ts;
      OneAct(a, ts);
    } else if |ts| == 2 {
      assert ts[0] in ts && ts[1] in ts;
      TwoActs(a, ts);
    }
  }

  lemma FewActs(db: Tables, c: PgCall)
    requires c.req.ValidateCard? || c.req.MoveCard?
    ensures |StepActs(db, c)| <= 2
  {
    if c.req.ValidateCard? && Acts(db, c) { ValidationsAreAsked(db, c); }
  }

  lemma {:induction false} StepCalm(db: Tables, c: PgCall)
    requires Keyed(db) && FreshIds(db, c) && LegalChoice(db, c) && LeavesLeasedAlone(db, c)
    ensures A.Legal(CoreOf(db), StepActs(db, c)) && G.AllCalm(CoreOf(db), StepActs(db, c))
  {
    StepRefines(db, c);
    ActsAreAsked(db, c);
    if c.req.ValidateCard? || c.req.MoveCard? {
      FewActs(db, c);
      CalmPair(CoreOf(db), StepActs(db, c), c);
    } else {
      QuietActsAreCalm(CoreOf(db), StepActs(db, c));
    }
  }

  ghost predicate AllLeaveLeasedAlone(db: Tables, calls: seq<PgCall>) {
    calls == [] ||
    (AllLeaveLeasedAlone(db, calls[..|calls| - 1]) && LeavesLeasedAlone(Run(db, calls[..|calls| - 1]), calls[|calls| - 1]))
  }

  /** An actively leased card sits where its lease's input pipe leads, at the lease's node. */
  lemma {:induction false} LeasedCardsSitAtTheirPipe(start: Time, calls: seq<PgCall>, later: Time)
    requires Proper(EmptyTables, start, calls) && AllLeaveLeasedAlone(EmptyTables, calls)
    requires (forall x :: x in calls ==> PlainId(x)) && Clock(start, calls) <= later
    ensures T.Sound(CoreOf(Run(EmptyTables, calls))) && G.LeasedCardsWait(CoreOf(Run(EmptyTables, calls)), later)
  {
    EmptyIsSound(start);
    if calls != [] {
      var front, last := calls[..|calls| - 1], calls[|calls| - 1];
      var mid := Run(EmptyTables, front);
      LeasedCardsSitAtTheirPipe(start, front, last.now);
      OneActiveLease(start, front, last.now);
      RunRefines(EmptyTables, start, front);
      RunSettles(EmptyTables, start, front);
      assert last in calls;
      StepRefines(mid, last);
      StepGoverned(mid, last);
      StepCalm(mid, last);
      AllAtOnce(StepActs(mid, last), last.now, last.now);
      G.LeasedCardsAlwaysWait(CoreOf(mid), last.now, StepActs(mid, last), later);
    }
  }
}
