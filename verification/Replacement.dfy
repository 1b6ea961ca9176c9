/**
 What a later version of a panel does to the cards of an earlier one in the in-memory runtime,
 which keeps one panel an id (runtime/memory.py).
 */
module Replacement {
  import opened Prelude
  import opened Encoding
  import opened Domain
  import opened Service
  import opened PanelValidator
  import opened AcceptedPanels
  import opened Requests
  import opened Memory
  import MR = MemoryRefinement
  import MT = MemoryTheorems

  /** The panel the runtime finds for the card declares the card's bucket. */
  ghost predicate Housed(s: Mem, card: Card) {
    PanelForCard(s, card).Some? && PanelForCard(s, card).value.Declares(card.currentBucket)
  }

  ghost predicate AllHoused(s: Mem) { forall c :: c in s.cards ==> Housed(s, s.cards[c]) }

  /** The panel declares the buckets that the cards of its id are in. */
  ghost predicate Welcomes(s: Mem, panel: PatchPanel) {
    forall c :: c in s.cards && HeadOfLast(s.cards[c].workflowVersion) == panel.id ==> panel.Declares(s.cards[c].currentBucket)
  }

  /** Every registered panel is accepted and its version has no colon. */
  ghost predicate PlainPanels(s: Mem) {
    forall id :: id in s.panels ==> Accepted(s.panels[id]) && ':' !in s.panels[id].version
  }

  predicate PlainVersion(c: Call) { c.req.RegisterPanel? ==> ':' !in c.req.panel.version }

  /** A registration the validator accepts declares where the cards of its id are. */
  ghost predicate Considerate(s: Mem, c: Call) {
    c.req.RegisterPanel? && Accepted(c.req.panel) ==> Welcomes(s, c.req.panel)
  }

  /** Registering a panel keeps every card housed exactly when the panel declares where the cards of
      its id are, whatever their version. */
  lemma RegisteringHousesIff(s: Mem, panel: PatchPanel)
    requires AllHoused(s) && Accepted(panel)
    ensures AllHoused(Register(s, panel).after) <==> Welcomes(s, panel)
  {
    var t := Register(s, panel).after;
    if AllHoused(t) {
      forall c | c in s.cards && HeadOfLast(s.cards[c].workflowVersion) == panel.id
        ensures panel.Declares(s.cards[c].currentBucket)
      { assert Housed(t, t.cards[c]); }
    } else {
      var c :| c in t.cards && !Housed(t, t.cards[c]);
      assert Housed(s, s.cards[c]);
    }
  }

  /** Every card of `after` is one of `s`, or housed by the panels of `s`. */
  ghost predicate HousesWritten(s: Mem, after: map<Uuid, Card>) {
    forall c :: c in after ==> (c in s.cards && after[c] == s.cards[c]) || Housed(s, after[c])
  }

  lemma CreateHouses(s: Mem, panelId: string, payload: Json, metadata: Json, now: Time, base: Uuid)
    requires Valid(s) && PlainPanels(s)
    ensures HousesWritten(s, Create(s, panelId, payload, metadata, now, base).after.cards)
  {
    if panelId in s.panels && ResolveInitialBucket(s.panels[panelId]).Ok? {
      LastSplitRecovers(s.panels[panelId].id, s.panels[panelId].version);
      InitialBucketDeclared(s.panels[panelId]);
    }
  }

  lemma SubmitHouses(s: Mem, leaseId: Uuid, pipe: string, refs: seq<ArtifactReference>, now: Time, base: Uuid)
    requires Valid(s) && PlainPanels(s)
    ensures HousesWritten(s, Submit(s, leaseId, pipe, refs, now, base).after.cards)
  {
    if SubmitChecks(s, leaseId, pipe, refs, now).Ok? {
      var (panel, _) := SubmitChecks(s, leaseId, pipe, refs, now).value;
      ResolvedBucketDeclared(panel, pipe, Output);
    }
  }

  lemma RoutedHouses(s: Mem, card: Card, route: Option<Route>)
    requires card.id in s.cards && s.cards[card.id] == card
    requires route.Some? ==> PanelForCard(s, card).Some? && PanelForCard(s, card).value.Declares(route.value.bucket)
    ensures HousesWritten(s, Routed(s.cards, card, route))
  {
  }

  lemma RouteHouses(s: Mem, card: Card, exit: Option<string>)
    requires PlainPanels(s) && RouteOf(s, card, exit).Ok? && RouteOf(s, card, exit).value.Some?
    ensures PanelForCard(s, card).Some? && PanelForCard(s, card).value.Declares(RouteOf(s, card, exit).value.value.bucket)
  {
    ResolvedBucketDeclared(PanelForCard(s, card).value, exit.value, Output);
  }

  lemma ValidateHouses(s: Mem, cardId: Uuid, validatorId: string, accepted: bool, reason: Option<string>,
    exit: Option<string>, payload: Json, now: Time, base: Uuid)
    requires Valid(s) && PlainPanels(s)
    ensures HousesWritten(s, Validate(s, cardId, validatorId, accepted, reason, exit, payload, now, base).after.cards)
  {
    if cardId in s.cards && RouteOf(s, s.cards[cardId], exit).Ok? {
      var route := RouteOf(s, s.cards[cardId], exit).value;
      if route.Some? { RouteHouses(s, s.cards[cardId], exit); }
      RoutedHouses(s, s.cards[cardId], route);
    }
  }

  lemma MoveHouses(s: Mem, cardId: Uuid, toBucket: string, actorId: Option<string>, reason: Option<string>, now: Time, base: Uuid)
    requires Valid(s)
    ensures HousesWritten(s, Move(s, cardId, toBucket, actorId, reason, now, base).after.cards)
  {
  }

  lemma PerformHouses(s: Mem, c: Call)
    requires Valid(s) && PlainPanels(s)
    ensures HousesWritten(s, Perform(s, c).after.cards)
  {
    match c.req
    case CreateCard(panelId, payload, metadata, _) => CreateHouses(s, panelId, payload, metadata, c.now, c.base);
    case SubmitArtifact(leaseId, pipe, refs, _) => SubmitHouses(s, leaseId, pipe, refs, c.now, c.base);
    case ValidateCard(cardId, validatorId, accepted, reason, exit, payload, _) =>
      ValidateHouses(s, cardId, validatorId, accepted, reason, exit, payload, c.now, c.base);
    case MoveCard(cardId, toBucket, actorId, reason, _) => MoveHouses(s, cardId, toBucket, actorId, reason, c.now, c.base);
    case ExpireLeases => ExpireKeepsValid(s, c.now, c.base, |s.leaseOrder|);
    case _ => MT.OthersKeepCards(s, c);
  }

  lemma HousedAlike(s: Mem, t: Mem)
    requires AllHoused(s) && t.panels == s.panels && HousesWritten(s, t.cards)
    ensures AllHoused(t)
  {
  }

  lemma RegisterStep(s: Mem, c: Call)
    requires c.req.RegisterPanel? && AllHoused(s)
    ensures AllHoused(Step(s, c).after) <==> AllHoused(Register(s, c.req.panel).after)
    ensures !Accepted(c.req.panel) ==> Register(s, c.req.panel).after == s
    ensures Step(s, c).after.panels == Register(s, c.req.panel).after.panels
  {
    var t, m := Step(s, c).after, Register(s, c.req.panel).after;
    if AllHoused(t) { HousedAlike(t, m); }
    if AllHoused(m) { HousedAlike(m, t); }
  }

  lemma OtherStep(s: Mem, c: Call)
    requires Valid(s) && PlainPanels(s) && !c.req.RegisterPanel?
    ensures Step(s, c).after.panels == s.panels && HousesWritten(s, Step(s, c).after.cards)
  {
    MT.PerformPanels(s, c);
    PerformHouses(s, c);
  }

  /** Of all calls, only a registration can leave a card in a bucket its panel does not declare. */
  lemma StepHousesIff(s: Mem, c: Call)
    requires Valid(s) && PlainPanels(s) && AllHoused(s) && PlainVersion(c)
    ensures AllHoused(Step(s, c).after) <==> Considerate(s, c)
    ensures PlainPanels(Step(s, c).after)
  {
    if c.req.RegisterPanel? {
      RegisterStep(s, c);
      if Accepted(c.req.panel) { RegisteringHousesIff(s, c.req.panel); }
    } else {
      OtherStep(s, c);
      HousedAlike(s, Step(s, c).after);
    }
  }

  ghost predicate AllConsiderate(s: Mem, calls: seq<Call>) {
    calls == [] ||
    (AllConsiderate(s, calls[..|calls| - 1]) && Considerate(Run(s, calls[..|calls| - 1]), calls[|calls| - 1]))
  }

  /** In every state of the run each card is in a bucket its panel declares. */
  ghost predicate AlwaysHoused(s: Mem, calls: seq<Call>) {
    AllHoused(Run(s, calls)) && (calls != [] ==> AlwaysHoused(s, calls[..|calls| - 1]))
  }

  lemma StepKeepsPlain(s: Mem, c: Call)
    requires Valid(s) && PlainPanels(s) && PlainVersion(c)
    ensures PlainPanels(Step(s, c).after)
  {
    MT.PerformPanels(s, c);
  }

  lemma {:induction false} RunKeepsPlain(calls: seq<Call>)
    requires forall c :: c in calls ==> PlainVersion(c)
    ensures Valid(Run(Fresh, calls)) && PlainPanels(Run(Fresh, calls))
  {
    MR.RunKeepsValid(Fresh, calls);
    if calls != [] {
      RunKeepsPlain(calls[..|calls| - 1]);
      assert calls[|calls| - 1] in calls;
      StepKeepsPlain(Run(Fresh, calls[..|calls| - 1]), calls[|calls| - 1]);
    }
  }

  /** In every run under colon-free versions, re-registrations included, every card is always in a bucket
      its panel declares if and only if every registration declared where the cards of its id then were. */
  lemma {:induction false} AlwaysHousedIff(calls: seq<Call>)
    requires forall c :: c in calls ==> PlainVersion(c)
    ensures AlwaysHoused(Fresh, calls) <==> AllConsiderate(Fresh, calls)
  {
    if calls != [] {
      var front, last := calls[..|calls| - 1], calls[|calls| - 1];
      AlwaysHousedIff(front);
      RunKeepsPlain(front);
      assert last in calls;
      if AlwaysHoused(Fresh, front) { StepHousesIff(Run(Fresh, front), last); }
    }
  }

  // ---- a card left behind ------------------------------------------------------------------

  /** Version 1 of a panel with bucket `old`, a card, and version 2 with bucket `new` only. */
  function Upgrade(now: Time, base: Uuid): seq<Call> {
    [Call(RegisterPanel(LinePanel("a", "1", "old", "old")), now, base),
     Call(CreateCard("a", map[], map[], None), now, base),
     Call(RegisterPanel(LinePanel("a", "2", "new", "new")), now, base)]
  }

  lemma UpgradeCreates(now: Time, base: Uuid)
    ensures var s, v1 := Run(Fresh, Upgrade(now, base)[..2]), LinePanel("a", "1", "old", "old");
      s.panels == map["a" := v1] && s.cards == map[base := Card(base, v1.WorkflowVersion(), "old", map[], map[], now)]
  {
    var calls := Upgrade(now, base);
    LineAccepted("a", "1", "old", "old");
    assert calls[..2][..1] == calls[..1] && calls[..1][..0] == [];
    assert Run(Fresh, calls[..0]) == Fresh && Run(Fresh, calls[..1]) == Step(Fresh, calls[0]).after;
    assert Run(Fresh, calls[..2]) == Step(Run(Fresh, calls[..1]), calls[1]).after;
  }

  lemma RegistrationJudges(s: Mem, c: Call, x: Uuid)
    requires c.req.RegisterPanel? && Accepted(c.req.panel) && x in s.cards && HeadOfLast(s.cards[x].workflowVersion) == c.req.panel.id
    ensures var t := Step(s, c).after; x in t.cards && t.cards[x] == s.cards[x] && PanelForCard(t, t.cards[x]) == Some(c.req.panel)
  {
  }

  /** Such a registration does strand a card: here version 2 does not declare the bucket of the card made under version 1. */
  lemma UpgradeStrandsCard(now: Time, base: Uuid)
    ensures var s := Run(Fresh, Upgrade(now, base));
      base in s.cards && s.cards[base].currentBucket == "old" && PanelForCard(s, s.cards[base]).Some?
      && !PanelForCard(s, s.cards[base]).value.Declares("old")
  {
    var calls := Upgrade(now, base);
    UpgradeCreates(now, base);
    LineAccepted("a", "2", "new", "new");
    LineBuckets("a", "2", "new", "new");
    LastSplitRecovers("a", "1");
    assert calls[..|calls| - 1] == calls[..2];
    RegistrationJudges(Run(Fresh, calls[..2]), calls[2], base);
  }
}
