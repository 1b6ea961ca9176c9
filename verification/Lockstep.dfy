/**
 The two runtimes side by side. One panel is registered, and the same requests come to both at the
 same clock readings, with the same ids for cards and leases. Then the states stay the same, up to
 the ids of events and the extra `card_moved` of a routed validation in Postgres.
 */
module Lockstep {
  import opened Prelude
  import opened Encoding
  import opened Domain
  import opened Service
  import opened PanelValidator
  import opened Requests
  import opened Machine
  import opened Agreement
  import M = Memory
  import MR = MemoryRefinement
  import MT = MemoryTheorems
  import CO = ClaimOrder
  import X = ExactlyOnce
  import P = Postgres
  import PR = PostgresRefinement
  import PT = PostgresTheorems
  import PX = PostgresRetries

  // ---- up to the ids of events -------------------------------------------------------------

  function Unnamed(e: CardEvent): CardEvent { e.(id := 0) }

  function UnnamedAll(history: seq<CardEvent>): seq<CardEvent> {
    seq(|history|, i requires 0 <= i < |history| => Unnamed(history[i]))
  }

  function UnnamedLog(log: map<Uuid, seq<CardEvent>>): map<Uuid, seq<CardEvent>> {
    map c | c in log :: UnnamedAll(log[c])
  }

  /** A reference without the id of the event that stored it. */
  function Loose(ref: ArtifactReference): ArtifactReference { ref.(eventId := None) }

  function LooseTable(table: map<Uuid, ArtifactReference>): map<Uuid, ArtifactReference> {
    map id | id in table :: Loose(table[id])
  }

  function LooseAll(refs: seq<ArtifactReference>): seq<ArtifactReference> {
    seq(|refs|, i requires 0 <= i < |refs| => Loose(refs[i]))
  }

  ghost function Nameless(a: Core): Core {
    a.(artifacts := LooseTable(a.artifacts), log := UnnamedLog(a.log))
  }

  /** An act without the id of its event, and without the panel where it leaves no trace of it. */
  function NamelessAct(act: Act): Act {
    match act
    case Register(_, _) => act
    case Create(panel, card, _) => Create(panel, card, 0)
    case Claim(_, lease, _) => Claim(NO_PANEL, lease, 0)
    case Submit(_, leaseId, pipe, destination, refs, _) => Submit(NO_PANEL, leaseId, pipe, destination, refs, 0)
    case Renew(leaseId, seconds, _) => Renew(leaseId, seconds, 0)
    case Release(leaseId, actorId, _) => Release(leaseId, actorId, 0)
    case Expire(leaseId, _) => Expire(leaseId, 0)
    case Validate(cardId, validatorId, verdict, payload, _, route, _) =>
      Validate(cardId, validatorId, verdict, payload, NO_PANEL, route, 0)
    case Move(_, cardId, toBucket, actorId, reason, _) => Move(NO_PANEL, cardId, toBucket, actorId, reason, 0)
    case Record(event) => Record(Unnamed(event))
  }

  ghost predicate AlikeActs(t: Timed, u: Timed) { t.now == u.now && NamelessAct(t.act) == NamelessAct(u.act) }

  lemma AlikeWrites(a: Core, t: Timed, b: Core, u: Timed)
    requires Enabled(a, t) && Enabled(b, u) && AlikeActs(t, u) && a.cards == b.cards && a.leases == b.leases
    ensures LeaseWritten(a, t) == LeaseWritten(b, u) && CardWritten(a, t) == CardWritten(b, u)
    ensures EventWritten(a, t).Some? <==> EventWritten(b, u).Some?
    ensures EventWritten(a, t).Some? ==> Unnamed(EventWritten(a, t).value) == Unnamed(EventWritten(b, u).value)
    ensures LooseAll(ArtifactsWritten(a, t)) == LooseAll(ArtifactsWritten(b, u))
  {
  }

  lemma UnnamedAppend(log: map<Uuid, seq<CardEvent>>, e: CardEvent)
    ensures UnnamedLog(Append(log, e)) == Append(UnnamedLog(log), Unnamed(e))
  {
    var history := if e.cardId in log then log[e.cardId] else [];
    assert UnnamedAll(history + [e]) == UnnamedAll(history) + [Unnamed(e)];
  }

  lemma {:induction false} LoosePut(table: map<Uuid, ArtifactReference>, refs: seq<ArtifactReference>)
    ensures LooseTable(Put(table, refs)) == Put(LooseTable(table), LooseAll(refs))
  {
    if refs != [] {
      var front, last := refs[..|refs| - 1], refs[|refs| - 1];
      LoosePut(table, front);
      assert LooseAll(refs)[..|refs| - 1] == LooseAll(front) && LooseAll(refs)[|refs| - 1] == Loose(last);
    }
  }

  lemma AlikeTables(a: Core, t: Timed, b: Core, u: Timed)
    requires Enabled(a, t) && Enabled(b, u) && AlikeActs(t, u) && Nameless(a) == Nameless(b)
    ensures LooseTable(Put(a.artifacts, ArtifactsWritten(a, t))) == LooseTable(Put(b.artifacts, ArtifactsWritten(b, u)))
  {
    AlikeWrites(a, t, b, u);
    LoosePut(a.artifacts, ArtifactsWritten(a, t));
    LoosePut(b.artifacts, ArtifactsWritten(b, u));
  }

  lemma AlikeLogs(a: Core, t: Timed, b: Core, u: Timed)
    requires Enabled(a, t) && Enabled(b, u) && AlikeActs(t, u) && Nameless(a) == Nameless(b)
    ensures UnnamedLog(NextLog(a, t)) == UnnamedLog(NextLog(b, u))
  {
    AlikeWrites(a, t, b, u);
    if EventWritten(a, t).Some? {
      UnnamedAppend(a.log, EventWritten(a, t).value);
      UnnamedAppend(b.log, EventWritten(b, u).value);
    }
  }

  /** Alike acts take alike states to alike states. */
  lemma AlikeApply(a: Core, t: Timed, b: Core, u: Timed)
    requires Enabled(a, t) && Enabled(b, u) && AlikeActs(t, u) && Nameless(a) == Nameless(b)
    ensures Nameless(Apply(a, t)) == Nameless(Apply(b, u))
  {
    AlikeWrites(a, t, b, u);
    AlikeTables(a, t, b, u);
    AlikeLogs(a, t, b, u);
  }

  ghost predicate AlikeRuns(ts: seq<Timed>, us: seq<Timed>) {
    |ts| == |us| && forall i :: 0 <= i < |ts| ==> AlikeActs(ts[i], us[i])
  }

  lemma {:induction false} AlikePlay(a: Core, ts: seq<Timed>, b: Core, us: seq<Timed>)
    requires Legal(a, ts) && Legal(b, us) && AlikeRuns(ts, us) && Nameless(a) == Nameless(b)
    ensures Nameless(Play(a, ts)) == Nameless(Play(b, us))
  {
    if ts != [] {
      var n := |ts| - 1;
      AlikePlay(a, ts[..n], b, us[..n]);
      AlikeApply(Play(a, ts[..n]), ts[n], Play(b, us[..n]), us[n]);
    }
  }

  lemma AlikeLeads(a: Core, ts: seq<Timed>, after: Core, b: Core, us: seq<Timed>, later: Core)
    requires Leads(a, ts, after) && Leads(b, us, later) && AlikeRuns(ts, us) && Nameless(a) == Nameless(b)
    ensures Nameless(after) == Nameless(later)
  {
    AlikePlay(a, ts, b, us);
  }

  // ---- what a request determines -----------------------------------------------------------

  /** The choices a request leaves open are made alike: the ids of a new card or lease, the card a claim
      takes, the lease an expiry is of. */
  predicate SameDraws(t: Act, u: Act) {
    && (t.Create? && u.Create? ==> t.card.id == u.card.id)
    && (t.Claim? && u.Claim? ==> t.lease.id == u.lease.id && t.lease.cardId == u.lease.cardId)
    && (t.Expire? && u.Expire? ==> t.leaseId == u.leaseId)
    && (t.Register? && u.Register? ==> t.after == u.after)
  }

  /** With one panel registered, two acts that answer the same request are alike. */
  lemma AnswersAreAlike(a: Core, b: Core, panel: PatchPanel, req: Request, t: Timed, u: Timed)
    requires a.panels == {panel} && b.panels == {panel} && a.cards == b.cards && a.leases == b.leases
    requires Answers(a, req, t) && Answers(b, req, u) && t.now == u.now && SameDraws(t.act, u.act)
    ensures AlikeActs(t, u)
  {
  }

  // ---- states in step ----------------------------------------------------------------------

  /** Both have the one panel, under an id and a version without a colon, and all cards are of it. */
  ghost predicate OnePanel(s: M.Mem, db: P.Tables, panel: PatchPanel) {
    && ':' !in panel.id && ':' !in panel.version
    && s.panels == map[panel.id := panel]
    && db.panels == map[(panel.id, panel.version) := panel]
    && db.versions == map[panel.WorkflowVersion() := (panel.id, panel.version)]
    && forall c :: c in s.cards ==> s.cards[c].workflowVersion == panel.WorkflowVersion()
  }

  /** The same keys are in use. */
  ghost predicate SameKeys(s: M.Mem, db: P.Tables) {
    forall k :: M.Cached(s.idempotency, k).Some? <==> P.StoredRef(db, k).Some?
  }

  /** The same cards, leases, artifacts and histories, up to the projection and the ids of events. */
  ghost predicate SameCore(s: M.Mem, db: P.Tables) {
    Nameless(MR.CoreOf(s)) == Nameless(Projected(PR.CoreOf(db)))
  }

  ghost predicate InStep(s: M.Mem, db: P.Tables, panel: PatchPanel) {
    && M.Valid(s) && X.NothingFalsy(s) && PR.Keyed(db)
    && OnePanel(s, db, panel) && SameKeys(s, db) && SameCore(s, db)
  }

  /** The overdue leases among the first `k`, in the order of insertion. */
  function Overdues(s: M.Mem, now: Time, k: nat): seq<Uuid>
    requires k <= |s.leaseOrder|
  {
    if k == 0 then []
    else
      var id := s.leaseOrder[k - 1];
      Overdues(s, now, k - 1) + if id in s.leases && M.Overdue(s.leases[id], now) then [id] else []
  }

  /** The same call to both: Postgres picks the card the in-memory runtime picks and sweeps in the order of
      insertion, submitted artifacts have new ids, and the one panel is the only one registered. */
  ghost predicate Paired(s: M.Mem, db: P.Tables, panel: PatchPanel, c: Call, d: P.PgCall) {
    && d.req == c.req && d.now == c.now && d.base == c.base
    && MR.FreshIds(s, c) && P.LegalChoice(db, d) && ReservesNames(c.req)
    && (c.req.RegisterPanel? ==> c.req.panel == panel)
    && (c.req.SubmitArtifact? ==> P.Insertable(db.artifacts, c.req.refs))
    && (c.req.ExpireLeases? ==> d.choice.order == Overdues(s, c.now, |s.leaseOrder|))
    && (c.req.ClaimCard? ==>
          var target := M.ClaimTarget(s, c.req.pipe, c.now);
          target.Ok? && target.value.card.Some? ==> d.choice.card == target.value.card.value)
  }

  lemma SameRecords(s: M.Mem, db: P.Tables)
    requires SameCore(s, db)
    ensures s.cards == db.cards && s.leases == db.leases
  {
    assert Nameless(MR.CoreOf(s)).cards == s.cards && Nameless(Projected(PR.CoreOf(db))).cards == db.cards;
    assert Nameless(MR.CoreOf(s)).leases == s.leases && Nameless(Projected(PR.CoreOf(db))).leases == db.leases;
  }

  // ---- both succeed or neither does --------------------------------------------------------

  lemma BothFindThePanel(s: M.Mem, db: P.Tables, panel: PatchPanel, card: Card)
    requires OnePanel(s, db, panel) && card.workflowVersion == panel.WorkflowVersion()
    ensures M.PanelForCard(s, card) == Some(panel) && P.PanelForCard(db.panels, card) == Ok(panel)
  {
    LastSplitRecovers(panel.id, panel.version);
    FirstSplitRecovers(panel.id, panel.version);
  }

  lemma SameCreation(s: M.Mem, db: P.Tables, panel: PatchPanel, panelId: string, payload: Json, metadata: Json,
    now: Time, base: Uuid, version: string)
    requires OnePanel(s, db, panel)
    requires (exists v :: P.ActivePanel(db, panelId, v)) ==> P.ActivePanel(db, panelId, version)
    ensures M.Create(s, panelId, payload, metadata, now, base).result == P.Create(db, panelId, payload, metadata, now, base, version).result
  {
    assert db.versions[panel.WorkflowVersion()] == (panel.id, panel.version);
    assert P.ActivePanel(db, panel.id, panel.version);
  }

  lemma BothCreate(s: M.Mem, db: P.Tables, panel: PatchPanel, c: Call, d: P.PgCall)
    requires InStep(s, db, panel) && Paired(s, db, panel, c, d) && c.req.CreateCard?
    ensures M.Perform(s, c).result == P.Perform(db, d).result
  {
    SameCreation(s, db, panel, c.req.panelId, c.req.payload, c.req.metadata, c.now, c.base, d.choice.version);
  }

  lemma SameSubmitChecks(s: M.Mem, db: P.Tables, panel: PatchPanel, leaseId: Uuid, pipe: string, refs: seq<ArtifactReference>, now: Time)
    requires OnePanel(s, db, panel) && s.cards == db.cards && s.leases == db.leases
    ensures M.SubmitChecks(s, leaseId, pipe, refs, now) == P.SubmitChecks(db, leaseId, pipe, refs, now)
  {
    if leaseId in s.leases && s.leases[leaseId].cardId in s.cards {
      BothFindThePanel(s, db, panel, s.cards[s.leases[leaseId].cardId]);
    }
  }

  lemma BothSubmit(s: M.Mem, db: P.Tables, panel: PatchPanel, c: Call, d: P.PgCall)
    requires InStep(s, db, panel) && Paired(s, db, panel, c, d) && c.req.SubmitArtifact?
    ensures M.Perform(s, c).result.Ok? <==> P.Perform(db, d).result.Ok?
  {
    SameRecords(s, db);
    SameSubmitChecks(s, db, panel, c.req.leaseId, c.req.pipe, c.req.refs, c.now);
  }

  lemma SameRoute(s: M.Mem, db: P.Tables, panel: PatchPanel, card: Card, exit: Option<string>)
    requires OnePanel(s, db, panel) && card.workflowVersion == panel.WorkflowVersion()
    ensures M.RouteOf(s, card, exit) == P.RouteOf(db.panels, card, exit)
  {
    BothFindThePanel(s, db, panel, card);
  }

  lemma BothValidate(s: M.Mem, db: P.Tables, panel: PatchPanel, c: Call, d: P.PgCall)
    requires InStep(s, db, panel) && Paired(s, db, panel, c, d) && c.req.ValidateCard?
    ensures M.Perform(s, c).result.Ok? <==> P.Perform(db, d).result.Ok?
  {
    SameRecords(s, db);
    if c.req.cardId in s.cards { SameRoute(s, db, panel, s.cards[c.req.cardId], c.req.exit); }
  }

  lemma BothMove(s: M.Mem, db: P.Tables, panel: PatchPanel, c: Call, d: P.PgCall)
    requires InStep(s, db, panel) && Paired(s, db, panel, c, d) && c.req.MoveCard?
    ensures M.Perform(s, c).result.Ok? <==> P.Perform(db, d).result.Ok?
    ensures M.Perform(s, c).result.Ok? ==> M.Perform(s, c).result == P.Perform(db, d).result
  {
    SameRecords(s, db);
    if c.req.cardId in s.cards { BothFindThePanel(s, db, panel, s.cards[c.req.cardId]); }
  }

  lemma BothKeepLeases(s: M.Mem, db: P.Tables, panel: PatchPanel, c: Call, d: P.PgCall)
    requires InStep(s, db, panel) && Paired(s, db, panel, c, d) && (c.req.RenewLease? || c.req.ReleaseLease?)
    ensures M.Perform(s, c).result == P.Perform(db, d).result
  {
    SameRecords(s, db);
  }

  lemma BothRecord(s: M.Mem, db: P.Tables, panel: PatchPanel, c: Call, d: P.PgCall)
    requires InStep(s, db, panel) && Paired(s, db, panel, c, d) && (c.req.RecordEvent? || c.req.ExpireLeases? || c.req.RegisterPanel?)
    ensures M.Perform(s, c).result.Ok? <==> P.Perform(db, d).result.Ok?
  {
    SameRecords(s, db);
  }

  // ---- claims ------------------------------------------------------------------------------

  lemma FirstTwoDiffer(order: seq<string>, keys: set<string>)
    requires Lists(order, keys) && |order| > 1
    ensures order[0] in keys && order[1] in keys && order[0] != order[1]
  {
  }

  lemma OnlyPanelListed(order: seq<string>, id: string)
    requires Lists(order, {id})
    ensures order == [id]
  {
    assert id in order;
    if |order| > 1 { FirstTwoDiffer(order, {id}); }
  }

  /** With one panel the target of a claim is the first claimable card where the pipe leads. */
  lemma SingleTarget(s: M.Mem, panel: PatchPanel, pipe: string, now: Time)
    requires M.Valid(s) && s.panels == map[panel.id := panel]
    ensures var end := ResolvePipeBucket(panel, pipe, Input);
      && (end.Err? ==> M.ClaimTarget(s, pipe, now).Err?)
      && (end.Ok? ==>
            var first := M.FirstClaimable(s, s.cardOrder, panel.WorkflowVersion(), end.value.bucket, now);
            M.ClaimTarget(s, pipe, now) == Ok(M.Match(panel, end.value.bucket, end.value.nodeId, first)))
  {
    OnlyPanelListed(s.panelOrder, panel.id);
    assert M.Matches(s, pipe, now, 0) == Ok([]);
    var found := M.Matches(s, pipe, now, 1);
    if found.Ok? && found.value != [] {
      assert |found.value| == 1 && found.value[..0] == [];
      CO.WithCardsShort(found.value);
    }
  }

  lemma {:induction false} FirstIsFound(s: M.Mem, order: seq<Uuid>, version: string, bucket: string, now: Time, c: Uuid)
    requires c in order && M.Claimable(s, version, bucket, now, c)
    ensures M.FirstClaimable(s, order, version, bucket, now).Some?
  {
    if !M.Claimable(s, version, bucket, now, order[0]) {
      assert c in order[1..];
      FirstIsFound(s, order[1..], version, bucket, now, c);
    }
  }

  lemma SameClaimable(s: M.Mem, db: P.Tables, panel: PatchPanel, bucket: string, now: Time, c: Uuid)
    requires OnePanel(s, db, panel) && s.cards == db.cards && s.leases == db.leases
    ensures M.Claimable(s, panel.WorkflowVersion(), bucket, now, c) <==> P.Claimable(db, bucket, now, c)
  {
  }

  lemma SinglePanelIs(db: P.Tables, panel: PatchPanel)
    requires db.panels == map[(panel.id, panel.version) := panel]
    ensures P.SinglePanel(db) == Ok(panel)
  {
    assert (panel.id, panel.version) in db.panels;
    assert db.panels.Keys == {(panel.id, panel.version)};
    assert |db.panels| == |db.panels.Keys|;
  }

  lemma BothClaim(s: M.Mem, db: P.Tables, panel: PatchPanel, c: Call, d: P.PgCall)
    requires InStep(s, db, panel) && Paired(s, db, panel, c, d) && c.req.ClaimCard?
    ensures M.Perform(s, c).result.Ok? <==> P.Perform(db, d).result.Ok?
    ensures M.Perform(s, c).result.Ok? ==> M.Perform(s, c).result == P.Perform(db, d).result
  {
    var end := ResolvePipeBucket(panel, c.req.pipe, Input);
    SameRecords(s, db);
    SingleTarget(s, panel, c.req.pipe, c.now);
    SinglePanelIs(db, panel);
    if end.Ok? {
      var version, bucket := panel.WorkflowVersion(), end.value.bucket;
      M.FirstIsClaimable(s, s.cardOrder, version, bucket, c.now);
      forall x ensures M.Claimable(s, version, bucket, c.now, x) <==> P.Claimable(db, bucket, c.now, x)
      { SameClaimable(s, db, panel, bucket, c.now, x); }
      if P.Claimable(db, bucket, c.now, d.choice.card) {
        assert d.choice.card in s.cardOrder;
        FirstIsFound(s, s.cardOrder, version, bucket, c.now, d.choice.card);
      }
    }
  }

  /** The same call succeeds in both or in neither. */
  lemma BothSucceed(s: M.Mem, db: P.Tables, panel: PatchPanel, c: Call, d: P.PgCall)
    requires InStep(s, db, panel) && Paired(s, db, panel, c, d)
    ensures M.Perform(s, c).result.Ok? <==> P.Perform(db, d).result.Ok?
    ensures MR.Acts(s, c) <==> PR.Acts(db, d)
  {
    SameRecords(s, db);
    BothPerform(s, db, panel, c, d);
    assert M.Cached(s.idempotency, c.req.Key()).Some? <==> P.StoredRef(db, d.req.Key()).Some?;
  }

  lemma BothPerform(s: M.Mem, db: P.Tables, panel: PatchPanel, c: Call, d: P.PgCall)
    requires InStep(s, db, panel) && Paired(s, db, panel, c, d)
    ensures M.Perform(s, c).result.Ok? <==> P.Perform(db, d).result.Ok?
  {
    if c.req.CreateCard? { BothCreate(s, db, panel, c, d); }
    else if c.req.ClaimCard? { BothClaim(s, db, panel, c, d); }
    else if c.req.SubmitArtifact? { BothSubmit(s, db, panel, c, d); }
    else if c.req.ValidateCard? { BothValidate(s, db, panel, c, d); }
    else if c.req.MoveCard? { BothMove(s, db, panel, c, d); }
    else if c.req.RenewLease? || c.req.ReleaseLease? { BothKeepLeases(s, db, panel, c, d); }
    else { BothRecord(s, db, panel, c, d); }
  }

  // ---- the states stay the same ------------------------------------------------------------

  lemma IdleChangesNothing(s: M.Mem, c: Call)
    requires !MR.Acts(s, c)
    ensures M.Step(s, c).after == s
  {
    MR.RaisingChangesNothing(s, c);
  }

  /** Registering the one panel again changes neither core. */
  lemma MemoryRegistersAgain(s: M.Mem, panel: PatchPanel, c: Call)
    requires M.Valid(s) && s.panels == map[panel.id := panel] && c.req == RegisterPanel(panel)
    ensures M.Step(s, c).after == s
  {
    assert s.panels[panel.id := panel] == s.panels;
  }

  lemma PostgresRegistersAgain(db: P.Tables, panel: PatchPanel, d: P.PgCall)
    requires PR.Keyed(db) && d.req == RegisterPanel(panel)
    requires (panel.id, panel.version) in db.panels && panel.WorkflowVersion() in db.versions
    ensures P.Step(db, d).after == db
  {
  }

  lemma {:induction false} MemorySweepOrder(s: M.Mem, now: Time, base: Uuid, k: nat)
    requires k <= |s.leaseOrder|
    ensures var ts, order := MR.SweepActs(s, now, base, k), Overdues(s, now, k);
      |ts| == |order| && forall i :: 0 <= i < |ts| ==> ts[i].now == now && ts[i].act.Expire? && ts[i].act.leaseId == order[i]
  {
    if k > 0 { MemorySweepOrder(s, now, base, k - 1); }
  }

  lemma SweepsAreAlike(s: M.Mem, now: Time, base: Uuid)
    ensures AlikeRuns(MR.SweepActs(s, now, base, |s.leaseOrder|), PR.SweepActs(Overdues(s, now, |s.leaseOrder|), now, base))
  {
    MemorySweepOrder(s, now, base, |s.leaseOrder|);
  }

  lemma {:induction false} SweepCallsAreAlike(s: M.Mem, db: P.Tables, c: Call, d: P.PgCall)
    requires M.Valid(s) && MR.FreshIds(s, c) && c.req.ExpireLeases? && d.req == c.req && MR.Acts(s, c) && PR.Acts(db, d)
    requires d.now == c.now && d.base == c.base && d.choice.order == Overdues(s, c.now, |s.leaseOrder|)
    ensures AlikeRuns(MR.StepActs(s, c), ProjectedActs(db, d))
  {
    SweepsAreAlike(s, c.now, c.base);
  }

  /** Outside sweeps and registrations a call that acts is one act in each runtime. */
  lemma {:induction false} OneActEach(s: M.Mem, db: P.Tables, c: Call, d: P.PgCall)
    requires M.Valid(s) && MR.FreshIds(s, c) && MR.Acts(s, c) && PR.Acts(db, d) && d.req == c.req
    requires !c.req.RegisterPanel? && !c.req.ExpireLeases?
    ensures MR.StepActs(s, c) == [Timed(MR.ActOf(s, c), c.now)] && |ProjectedActs(db, d)| == 1
  {
    if c.req.ValidateCard? { PostgresValidationActs(db, d); }
  }

  /** And the one act draws the same card, lease and target in both. */
  lemma {:induction false} CreationsDrawAlike(s: M.Mem, db: P.Tables, panel: PatchPanel, c: Call, d: P.PgCall)
    requires InStep(s, db, panel) && Paired(s, db, panel, c, d) && MR.Acts(s, c) && PR.Acts(db, d)
    requires c.req.CreateCard? || c.req.ClaimCard?
    ensures |ProjectedActs(db, d)| == 1 && SameDraws(MR.ActOf(s, c), ProjectedActs(db, d)[0].act)
  {
    if c.req.CreateCard? {
      BothCreate(s, db, panel, c, d);
      MR.CreateRefines(s, c.req.panelId, c.req.payload, c.req.metadata, c.now, c.base);
    } else {
      BothClaim(s, db, panel, c, d);
      MR.ClaimRefines(s, c.req.pipe, c.req.workerId, c.req.seconds, c.now, c.base);
    }
  }

  lemma {:induction false} OthersDrawNothing(s: M.Mem, c: Call, u: Timed)
    requires M.Valid(s) && MR.FreshIds(s, c) && MR.Acts(s, c) && !c.req.RegisterPanel? && !c.req.ExpireLeases?
    requires !c.req.CreateCard? && !c.req.ClaimCard?
    ensures SameDraws(MR.ActOf(s, c), u.act)
  {
  }

  lemma MemoryOneActAnswers(s: M.Mem, c: Call)
    requires M.Valid(s) && MR.FreshIds(s, c) && MR.Acts(s, c) && |MR.StepActs(s, c)| == 1
    ensures MR.StepActs(s, c)[0].now == c.now && Answers(MR.CoreOf(s), c.req, MR.StepActs(s, c)[0])
  {
    MemoryTakesAskedSteps(s, c);
    assert MR.StepActs(s, c)[0] in MR.StepActs(s, c);
  }

  lemma PostgresOneActAnswers(db: P.Tables, d: P.PgCall)
    requires PR.Keyed(db) && PR.FreshIds(db, d) && P.LegalChoice(db, d) && ReservesNames(d.req) && |ProjectedActs(db, d)| == 1
    ensures ProjectedActs(db, d)[0].now == d.now && Answers(PR.CoreOf(db), d.req, ProjectedActs(db, d)[0])
  {
    PostgresTakesAskedSteps(db, d);
    assert ProjectedActs(db, d)[0] in ProjectedActs(db, d);
  }

  lemma DrawsAreAlike(s: M.Mem, db: P.Tables, panel: PatchPanel, c: Call, d: P.PgCall)
    requires InStep(s, db, panel) && Paired(s, db, panel, c, d) && MR.Acts(s, c) && PR.Acts(db, d)
    requires !c.req.RegisterPanel? && !c.req.ExpireLeases?
    ensures |MR.StepActs(s, c)| == 1 && |ProjectedActs(db, d)| == 1
    ensures SameDraws(MR.StepActs(s, c)[0].act, ProjectedActs(db, d)[0].act)
  {
    OneActEach(s, db, c, d);
    if c.req.CreateCard? || c.req.ClaimCard? {
      CreationsDrawAlike(s, db, panel, c, d);
    } else {
      OthersDrawNothing(s, c, ProjectedActs(db, d)[0]);
    }
  }

  lemma ActsAreAlike(s: M.Mem, db: P.Tables, panel: PatchPanel, c: Call, d: P.PgCall)
    requires InStep(s, db, panel) && Paired(s, db, panel, c, d) && MR.Acts(s, c) && PR.Acts(db, d)
    requires !c.req.RegisterPanel? && !c.req.ExpireLeases?
    ensures AlikeRuns(MR.StepActs(s, c), ProjectedActs(db, d))
  {
    SameRecords(s, db);
    OnePanelInCores(s, db, panel);
    DrawsAreAlike(s, db, panel, c, d);
    MemoryOneActAnswers(s, c);
    PostgresOneActAnswers(db, d);
    AnswersAreAlike(MR.CoreOf(s), PR.CoreOf(db), panel, c.req, MR.StepActs(s, c)[0], ProjectedActs(db, d)[0]);
  }

  lemma OnePanelInCores(s: M.Mem, db: P.Tables, panel: PatchPanel)
    requires OnePanel(s, db, panel)
    ensures MR.CoreOf(s).panels == {panel} && PR.CoreOf(db).panels == {panel}
  {
    assert s.panels[panel.id] == panel && db.panels[(panel.id, panel.version)] == panel;
  }

  lemma ActingCoresStayAlike(s: M.Mem, db: P.Tables, panel: PatchPanel, c: Call, d: P.PgCall)
    requires InStep(s, db, panel) && Paired(s, db, panel, c, d) && MR.Acts(s, c) && PR.Acts(db, d) && !c.req.RegisterPanel?
    ensures SameCore(M.Step(s, c).after, P.Step(db, d).after)
  {
    SameRecords(s, db);
    MemoryTakesAskedSteps(s, c);
    PostgresTakesAskedSteps(db, d);
    if c.req.ExpireLeases? { SweepCallsAreAlike(s, db, c, d); } else { ActsAreAlike(s, db, panel, c, d); }
    AlikeLeads(MR.CoreOf(s), MR.StepActs(s, c), MR.CoreOf(M.Step(s, c).after),
               Projected(PR.CoreOf(db)), ProjectedActs(db, d), Projected(PR.CoreOf(P.Step(db, d).after)));
  }

  /** A call that is only answered, or that registers the one panel again, changes neither state. */
  lemma IdleTogether(s: M.Mem, db: P.Tables, panel: PatchPanel, c: Call, d: P.PgCall)
    requires InStep(s, db, panel) && Paired(s, db, panel, c, d) && (!MR.Acts(s, c) || c.req.RegisterPanel?)
    ensures M.Step(s, c).after == s && P.Step(db, d).after == db
  {
    if c.req.RegisterPanel? {
      MemoryRegistersAgain(s, panel, c);
      PostgresRegistersAgain(db, panel, d);
    } else {
      BothSucceed(s, db, panel, c, d);
      IdleChangesNothing(s, c);
      PR.StepOrNothing(db, d);
    }
  }

  // ---- the rest of the state ---------------------------------------------------------------

  ghost predicate AllOfPanel(cards: map<Uuid, Card>, panel: PatchPanel) {
    forall x :: x in cards ==> cards[x].workflowVersion == panel.WorkflowVersion()
  }

  lemma CreatedCardsAreOfPanel(s: M.Mem, panel: PatchPanel, c: Call)
    requires M.Valid(s) && s.panels == map[panel.id := panel] && AllOfPanel(s.cards, panel) && c.req.CreateCard?
    ensures AllOfPanel(M.Perform(s, c).after.cards, panel)
  {
    MT.CreateVersions(s, c.req.panelId, c.req.payload, c.req.metadata, c.now, c.base);
  }

  lemma CardsStayOfPanel(s: M.Mem, panel: PatchPanel, c: Call)
    requires M.Valid(s) && s.panels == map[panel.id := panel] && AllOfPanel(s.cards, panel) && MR.Acts(s, c)
    ensures AllOfPanel(M.Step(s, c).after.cards, panel)
  {
    if c.req.CreateCard? { CreatedCardsAreOfPanel(s, panel, c); } else { MT.PerformVersions(s, c); }
  }

  lemma PanelsStay(s: M.Mem, db: P.Tables, c: Call, d: P.PgCall)
    requires M.Valid(s) && d.req == c.req && !c.req.RegisterPanel?
    ensures M.Step(s, c).after.panels == s.panels
    ensures P.Step(db, d).after.panels == db.panels && P.Step(db, d).after.versions == db.versions
  {
    MT.PerformPanels(s, c);
    PT.OthersKeepPanels(db, d);
  }

  /** No answer of Postgres is stored as the empty text. */
  lemma RefsAreTexts(db: P.Tables, d: P.PgCall)
    requires P.Perform(db, d).result.Ok? && !d.req.RegisterPanel? && !d.req.ExpireLeases?
    ensures P.RefOf(P.Perform(db, d).result.value) != ""
  {
  }

  /** An acting call adds its key to the keys in use, if it has one. */
  predicate Uses(key: Option<string>, k: Option<string>) { Truthy(key) && k == key }

  lemma MemoryUsesKey(s: M.Mem, c: Call, k: Option<string>)
    requires M.Valid(s) && MR.Acts(s, c)
    ensures M.Cached(M.Step(s, c).after.idempotency, k).Some? <==> M.Cached(s.idempotency, k).Some? || Uses(c.req.Key(), k)
  {
    X.PerformKeepsTable(s, c);
    X.PerformAnswersItsType(s, c);
  }

  lemma PostgresUsesKey(db: P.Tables, d: P.PgCall, k: Option<string>)
    requires PR.Acts(db, d)
    ensures P.StoredRef(P.Step(db, d).after, k).Some? <==> P.StoredRef(db, k).Some? || Uses(d.req.Key(), k)
  {
    PX.PerformKeeps(db, d);
    if Truthy(d.req.Key()) { RefsAreTexts(db, d); }
  }

  lemma KeysStaySame(s: M.Mem, db: P.Tables, c: Call, d: P.PgCall)
    requires M.Valid(s) && SameKeys(s, db) && MR.Acts(s, c) && PR.Acts(db, d) && d.req == c.req
    ensures SameKeys(M.Step(s, c).after, P.Step(db, d).after)
  {
    forall k
      ensures M.Cached(M.Step(s, c).after.idempotency, k).Some? <==> P.StoredRef(P.Step(db, d).after, k).Some?
    {
      MemoryUsesKey(s, c, k);
      PostgresUsesKey(db, d, k);
    }
  }

  lemma ActTogether(s: M.Mem, db: P.Tables, panel: PatchPanel, c: Call, d: P.PgCall)
    requires InStep(s, db, panel) && Paired(s, db, panel, c, d) && MR.Acts(s, c) && PR.Acts(db, d) && !c.req.RegisterPanel?
    ensures InStep(M.Step(s, c).after, P.Step(db, d).after, panel)
  {
    SameRecords(s, db);
    M.StepKeepsValid(s, c);
    X.StepKeepsTruthy(s, c);
    PR.StepRefines(db, d);
    ActingCoresStayAlike(s, db, panel, c, d);
    CardsStayOfPanel(s, panel, c);
    PanelsStay(s, db, c, d);
    KeysStaySame(s, db, c, d);
  }

  /** The same call keeps the two runtimes in step, and succeeds in both or in neither unless it is only
      answered by key. */
  lemma StepsTogether(s: M.Mem, db: P.Tables, panel: PatchPanel, c: Call, d: P.PgCall)
    requires InStep(s, db, panel) && Paired(s, db, panel, c, d)
    ensures InStep(M.Step(s, c).after, P.Step(db, d).after, panel)
    ensures M.Cached(s.idempotency, c.req.Key()).None? ==> (M.Step(s, c).result.Ok? <==> P.Step(db, d).result.Ok?)
  {
    BothSucceed(s, db, panel, c, d);
    if !MR.Acts(s, c) || c.req.RegisterPanel? {
      IdleTogether(s, db, panel, c, d);
    } else {
      ActTogether(s, db, panel, c, d);
    }
  }

  // ---- runs --------------------------------------------------------------------------------

  /** Paired calls from one pair of states on. */
  ghost predicate AllPaired(s: M.Mem, db: P.Tables, panel: PatchPanel, calls: seq<Call>, pgCalls: seq<P.PgCall>) {
    && |pgCalls| == |calls|
    && (calls == [] ||
        (var cs, ds := calls[..|calls| - 1], pgCalls[..|calls| - 1];
         AllPaired(s, db, panel, cs, ds)
         && Paired(M.Run(s, cs), P.Run(db, ds), panel, calls[|calls| - 1], pgCalls[|calls| - 1])))
  }

  lemma {:induction false} RunsStayInStep(s: M.Mem, db: P.Tables, panel: PatchPanel, calls: seq<Call>, pgCalls: seq<P.PgCall>)
    requires InStep(s, db, panel) && AllPaired(s, db, panel, calls, pgCalls)
    ensures InStep(M.Run(s, calls), P.Run(db, pgCalls), panel)
  {
    if calls != [] {
      var n := |calls| - 1;
      RunsStayInStep(s, db, panel, calls[..n], pgCalls[..n]);
      StepsTogether(M.Run(s, calls[..n]), P.Run(db, pgCalls[..n]), panel, calls[n], pgCalls[n]);
    }
  }

  /** Both runtimes with the one panel just registered. */
  ghost function MemoryWith(panel: PatchPanel): M.Mem { M.Register(M.Fresh, panel).after }

  ghost function PostgresWith(panel: PatchPanel): P.Tables { P.Register(P.EmptyTables, panel).after }

  lemma RegisteredInStep(panel: PatchPanel)
    requires Accepted(panel) && ':' !in panel.id && ':' !in panel.version
    ensures InStep(MemoryWith(panel), PostgresWith(panel), panel)
  {
    M.RegisterKeepsValid(M.Fresh, panel);
    OnePanelInCores(MemoryWith(panel), PostgresWith(panel), panel);
  }

  /** From the registration of a panel on, over every run of paired calls the two runtimes hold the same cards
      and leases, the same artifacts up to the event each names, and the same histories up to the
      projection and the ids of events. */
  lemma RunsAgree(panel: PatchPanel, calls: seq<Call>, pgCalls: seq<P.PgCall>)
    requires Accepted(panel) && ':' !in panel.id && ':' !in panel.version
    requires AllPaired(MemoryWith(panel), PostgresWith(panel), panel, calls, pgCalls)
    ensures var s, db := M.Run(MemoryWith(panel), calls), P.Run(PostgresWith(panel), pgCalls);
      && s.cards == db.cards && s.leases == db.leases && LooseTable(s.artifacts) == LooseTable(db.artifacts)
      && s.events.Keys == db.cards.Keys
      && forall c :: c in s.cards ==> UnnamedAll(s.events[c]) == UnnamedAll(Project(PR.History(db.events, c)))
  {
    var s, db := M.Run(MemoryWith(panel), calls), P.Run(PostgresWith(panel), pgCalls);
    RegisteredInStep(panel);
    RunsStayInStep(MemoryWith(panel), PostgresWith(panel), panel, calls, pgCalls);
    SameRecords(s, db);
    HistoriesAgree(s, db);
  }

  lemma HistoriesAgree(s: M.Mem, db: P.Tables)
    requires SameCore(s, db) && M.Valid(s) && s.cards == db.cards
    ensures LooseTable(s.artifacts) == LooseTable(db.artifacts)
    ensures forall c :: c in s.cards ==> UnnamedAll(s.events[c]) == UnnamedAll(Project(PR.History(db.events, c)))
  {
    var a, b := Nameless(MR.CoreOf(s)), Nameless(Projected(PR.CoreOf(db)));
    assert a.artifacts == LooseTable(s.artifacts) && b.artifacts == LooseTable(db.artifacts);
    forall c | c in s.cards
      ensures UnnamedAll(s.events[c]) == UnnamedAll(Project(PR.History(db.events, c)))
    { assert a.log[c] == b.log[c]; }
  }
}
