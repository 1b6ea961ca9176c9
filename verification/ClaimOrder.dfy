/** Which card a claim takes in the in-memory runtime. */
module ClaimOrder {
  import opened Prelude
  import opened Encoding
  import opened Domain
  import opened Service
  import opened PanelValidator
  import opened AcceptedPanels
  import opened Requests
  import opened Memory
  import Machine
  import MT = MemoryTheorems
  import MR = MemoryRefinement

  /** Every registered binding of the pipe states its node or its direction. */
  ghost predicate Stated(s: Mem, pipe: string) {
    forall id :: id in s.panels && pipe in s.panels[id].pipeBindings ==>
      Truthy(s.panels[id].pipeBindings[pipe].node) || s.panels[id].pipeBindings[pipe].direction.Some?
  }

  ghost predicate AllAccepted(s: Mem) {
    forall id :: id in s.panels ==> Accepted(s.panels[id])
  }

  /** The panel binds the pipe as an input. */
  predicate Binds(panel: PatchPanel, pipe: string) {
    ResolvePipeBucket(panel, pipe, Input).Ok?
  }

  /** The card could be claimed through this panel. */
  ghost predicate Offered(s: Mem, id: string, pipe: string, now: Time, c: Uuid) {
    && id in s.panels && Binds(s.panels[id], pipe)
    && Claimable(s, s.panels[id].WorkflowVersion(), ResolvePipeBucket(s.panels[id], pipe, Input).value.bucket, now, c)
  }

  ghost predicate HasWork(s: Mem, id: string, pipe: string, now: Time) {
    exists c :: Offered(s, id, pipe, now, c)
  }

  ghost predicate NoneBefore(s: Mem, id: string, pipe: string, now: Time, i: nat)
    requires i <= |s.cardOrder|
  {
    forall j :: 0 <= j < i ==> !Offered(s, id, pipe, now, s.cardOrder[j])
  }

  /** The earliest created card the panel offers. */
  ghost predicate EarliestOffered(s: Mem, id: string, pipe: string, now: Time, c: Uuid) {
    && Offered(s, id, pipe, now, c)
    && (exists i :: 0 <= i < |s.cardOrder| && s.cardOrder[i] == c && NoneBefore(s, id, pipe, now, i))
  }

  lemma {:induction false} FirstIsEarliest(s: Mem, k: nat, version: string, bucket: string, now: Time)
    returns (at: nat)
    requires k <= |s.cardOrder|
    ensures k <= at <= |s.cardOrder|
    ensures forall j :: k <= j < at ==> !Claimable(s, version, bucket, now, s.cardOrder[j])
    ensures FirstClaimable(s, s.cardOrder[k..], version, bucket, now)
         == if at < |s.cardOrder| then Some(s.cardOrder[at]) else None
    ensures at < |s.cardOrder| ==> Claimable(s, version, bucket, now, s.cardOrder[at])
    decreases |s.cardOrder| - k
  {
    at := k;
    if k < |s.cardOrder| {
      assert s.cardOrder[k..][1..] == s.cardOrder[k + 1..];
      if !Claimable(s, version, bucket, now, s.cardOrder[k]) {
        at := FirstIsEarliest(s, k + 1, version, bucket, now);
      }
    }
  }

  /** The match a binding panel contributes: the earliest card it offers, or none. */
  lemma MatchIsEarliest(s: Mem, id: string, pipe: string, now: Time)
    requires Valid(s) && id in s.panels && Binds(s.panels[id], pipe)
    ensures var c := FirstClaimable(s, s.cardOrder, s.panels[id].WorkflowVersion(),
                                    ResolvePipeBucket(s.panels[id], pipe, Input).value.bucket, now);
      && (c.Some? ==> EarliestOffered(s, id, pipe, now, c.value))
      && (c.None? ==> !HasWork(s, id, pipe, now))
  {
    var version, bucket := s.panels[id].WorkflowVersion(), ResolvePipeBucket(s.panels[id], pipe, Input).value.bucket;
    assert s.cardOrder[0..] == s.cardOrder;
    var at := FirstIsEarliest(s, 0, version, bucket, now);
    assert NoneBefore(s, id, pipe, now, at);
    assert forall c :: c in s.cards ==> c in s.cardOrder;
  }

  /** The panels among the first `k` registered that have work for the pipe. */
  ghost function Working(s: Mem, pipe: string, now: Time, k: nat): seq<string>
    requires k <= |s.panelOrder|
  {
    if k == 0 then []
    else
      Working(s, pipe, now, k - 1) +
      if HasWork(s, s.panelOrder[k - 1], pipe, now) then [s.panelOrder[k - 1]] else []
  }

  lemma {:induction false} WorkingIs(s: Mem, pipe: string, now: Time, k: nat)
    requires k <= |s.panelOrder| && Lists(s.panelOrder, s.panels.Keys)
    ensures forall id :: id in Working(s, pipe, now, k) <==> id in s.panelOrder[..k] && HasWork(s, id, pipe, now)
    ensures forall i, j :: 0 <= i < j < |Working(s, pipe, now, k)| ==>
      Working(s, pipe, now, k)[i] != Working(s, pipe, now, k)[j]
  {
    if k > 0 {
      WorkingIs(s, pipe, now, k - 1);
      assert s.panelOrder[..k] == s.panelOrder[..k - 1] + [s.panelOrder[k - 1]];
    }
  }

  /** `found` are matches of bound panels and its offers are those of `working`, in order. */
  ghost predicate Lines(s: Mem, pipe: string, now: Time, found: seq<Match>, working: seq<string>) {
    && |WithCards(found)| == |working|
    && forall j :: 0 <= j < |working| ==>
        && WithCards(found)[j].card.Some?
        && EarliestOffered(s, working[j], pipe, now, WithCards(found)[j].card.value)
        && s.panels[working[j]] == WithCards(found)[j].panel
  }

  lemma {:induction false} MatchesLine(s: Mem, pipe: string, now: Time, k: nat)
    requires Valid(s) && AllAccepted(s) && Stated(s, pipe) && k <= |s.panelOrder|
    ensures Matches(s, pipe, now, k).Ok?
    ensures Lines(s, pipe, now, Matches(s, pipe, now, k).value, Working(s, pipe, now, k))
  {
    if k > 0 {
      MatchesLine(s, pipe, now, k - 1);
      var id := s.panelOrder[k - 1];
      ResolutionErrors(s.panels[id], pipe);
      if pipe in s.panels[id].pipeBindings { StatedBindingResolves(s.panels[id], pipe, Input); }
      if Binds(s.panels[id], pipe) {
        MatchIsEarliest(s, id, pipe, now);
        var found := Matches(s, pipe, now, k).value;
        assert found[..|found| - 1] == Matches(s, pipe, now, k - 1).value;
      }
    }
  }

  lemma ResolutionErrors(panel: PatchPanel, pipe: string)
    ensures ResolvePipeBucket(panel, pipe, Input).Err? ==>
      ResolvePipeBucket(panel, pipe, Input).error == InvalidOperation
      || (ResolvePipeBucket(panel, pipe, Input).error == NotFound && pipe in panel.pipeBindings)
  {
    FindErrors(panel.nodes, pipe);
  }

  lemma {:induction false} FindErrors(nodes: seq<Node>, pipe: string)
    ensures FindNodeForPipe(nodes, pipe, Input).Err? ==> FindNodeForPipe(nodes, pipe, Input).error == NotFound
  {
    if nodes != [] { FindErrors(nodes[1..], pipe); }
  }

  lemma {:induction false} WithCardsShort(found: seq<Match>)
    ensures |WithCards(found)| <= |found|
    ensures |found| == 1 && |WithCards(found)| == 0 ==> found[0].card.None?
  {
    if found != [] { WithCardsShort(found[..|found| - 1]); }
  }

  lemma ClaimSucceedsIffOneWorking(s: Mem, pipe: string, now: Time)
    requires Valid(s) && AllAccepted(s) && Stated(s, pipe)
    ensures (ClaimTarget(s, pipe, now).Ok? && ClaimTarget(s, pipe, now).value.card.Some?)
      <==> |Working(s, pipe, now, |s.panelOrder|)| == 1
  {
    MatchesLine(s, pipe, now, |s.panelOrder|);
    WithCardsShort(Matches(s, pipe, now, |s.panelOrder|).value);
  }

  lemma OneWorkingIffUnique(s: Mem, pipe: string, now: Time)
    requires Valid(s)
    ensures |Working(s, pipe, now, |s.panelOrder|)| == 1
      <==> exists id :: HasWork(s, id, pipe, now) && forall other :: HasWork(s, other, pipe, now) ==> other == id
  {
    var working := Working(s, pipe, now, |s.panelOrder|);
    WorkingIs(s, pipe, now, |s.panelOrder|);
    assert s.panelOrder[..|s.panelOrder|] == s.panelOrder;
    forall id
      ensures id in working <==> HasWork(s, id, pipe, now)
    { assert HasWork(s, id, pipe, now) ==> id in s.panelOrder; }
    UniqueIff(working);
  }

  lemma UniqueIff<T>(ids: seq<T>)
    requires forall i, j :: 0 <= i < j < |ids| ==> ids[i] != ids[j]
    ensures |ids| == 1 <==> exists id :: id in ids && forall other :: other in ids ==> other == id
  {
    if |ids| == 1 {
      assert ids[0] in ids;
    } else if |ids| > 1 {
      assert ids[0] in ids && ids[1] in ids && ids[0] != ids[1];
    }
  }

  /** A claim succeeds exactly when one and only one registered panel has work for the pipe. */
  lemma ClaimSucceedsIffOnePanelHasWork(s: Mem, pipe: string, now: Time)
    requires Valid(s) && AllAccepted(s) && Stated(s, pipe)
    ensures (ClaimTarget(s, pipe, now).Ok? && ClaimTarget(s, pipe, now).value.card.Some?)
      <==> exists id :: HasWork(s, id, pipe, now) && forall other :: HasWork(s, other, pipe, now) ==> other == id
  {
    ClaimSucceedsIffOneWorking(s, pipe, now);
    OneWorkingIffUnique(s, pipe, now);
  }

  /** And then it leases the earliest created card that panel offers. */
  lemma ClaimTakesEarliest(s: Mem, pipe: string, now: Time)
    requires Valid(s) && AllAccepted(s) && Stated(s, pipe)
    requires ClaimTarget(s, pipe, now).Ok? && ClaimTarget(s, pipe, now).value.card.Some?
    ensures var m := ClaimTarget(s, pipe, now).value;
      exists id :: id in s.panels && s.panels[id] == m.panel && EarliestOffered(s, id, pipe, now, m.card.value)
  {
    MatchesLine(s, pipe, now, |s.panelOrder|);
    WithCardsShort(Matches(s, pipe, now, |s.panelOrder|).value);
    var found, working := Matches(s, pipe, now, |s.panelOrder|).value, Working(s, pipe, now, |s.panelOrder|);
    assert |WithCards(found)| == 1;
    assert EarliestOffered(s, working[0], pipe, now, WithCards(found)[0].card.value);
  }

  // ---- in every reachable state ------------------------------------------------------------

  lemma StepPanels(s: Mem, c: Call)
    ensures Step(s, c).after.panels == s.panels || Step(s, c).after.panels == Perform(s, c).after.panels
  {
  }

  lemma StepKeepsAccepted(s: Mem, c: Call)
    requires Valid(s) && AllAccepted(s)
    ensures AllAccepted(Step(s, c).after)
  {
    MT.PerformPanels(s, c);
    StepPanels(s, c);
  }

  lemma {:induction false} RunKeepsAccepted(calls: seq<Call>)
    ensures Valid(Run(Fresh, calls)) && AllAccepted(Run(Fresh, calls))
  {
    MR.RunKeepsValid(Fresh, calls);
    if calls != [] {
      RunKeepsAccepted(calls[..|calls| - 1]);
      StepKeepsAccepted(Run(Fresh, calls[..|calls| - 1]), calls[|calls| - 1]);
    }
  }

  /** The claim of a call whose key is not stored. */
  lemma ClaimStep(s: Mem, c: Call)
    requires c.req.ClaimCard? && Cached(s.idempotency, c.req.key).None?
    ensures var target := ClaimTarget(s, c.req.pipe, c.now);
      && (Step(s, c).result.Ok? <==> target.Ok? && target.value.card.Some?)
      && (Step(s, c).result.Ok? ==>
            Step(s, c).result == Ok(LeaseReply(Lease(c.base, target.value.card.value, target.value.nodeId, c.req.workerId,
                                                     c.req.pipe, c.now, c.now + c.req.seconds, None))))
  {
  }

  /** In every reachable state a claim under a key not stored succeeds exactly when one and only one
      registered panel has work for the pipe, and then it leases the earliest created card that panel
      offers to the node its pipe resolves to. */
  lemma ReachableClaims(calls: seq<Call>, c: Call)
    requires c.req.ClaimCard? && Cached(Run(Fresh, calls).idempotency, c.req.key).None? && Stated(Run(Fresh, calls), c.req.pipe)
    ensures var s := Run(Fresh, calls);
      Step(s, c).result.Ok? <==>
        exists id :: HasWork(s, id, c.req.pipe, c.now) && forall other :: HasWork(s, other, c.req.pipe, c.now) ==> other == id
    ensures var s := Run(Fresh, calls);
      Step(s, c).result.Ok? ==> Step(s, c).result.value.LeaseReply? && exists id ::
        && EarliestOffered(s, id, c.req.pipe, c.now, Step(s, c).result.value.lease.cardId)
        && ResolvePipeBucket(s.panels[id], c.req.pipe, Input).value.nodeId == Step(s, c).result.value.lease.nodeId
  {
    var s := Run(Fresh, calls);
    RunKeepsAccepted(calls);
    ClaimStep(s, c);
    ClaimSucceedsIffOnePanelHasWork(s, c.req.pipe, c.now);
    if Step(s, c).result.Ok? {
      ClaimTakesEarliest(s, c.req.pipe, c.now);
      TargetOffers(s, c.req.pipe, c.now);
      var m := ClaimTarget(s, c.req.pipe, c.now).value;
      var id :| id in s.panels && s.panels[id] == m.panel && EarliestOffered(s, id, c.req.pipe, c.now, m.card.value);
      assert EarliestOffered(s, id, c.req.pipe, c.now, Step(s, c).result.value.lease.cardId);
    }
  }

  // ---- expiring beforehand changes nothing -------------------------------------------------

  /** Two states that agree on panels, cards and who is actively leased offer the same claim. */
  lemma {:induction false} SameFirst(s: Mem, m: Mem, order: seq<Uuid>, version: string, bucket: string, now: Time)
    requires m.cards == s.cards
    requires forall c :: Machine.HasActiveLease(m.leases, c, now) <==> Machine.HasActiveLease(s.leases, c, now)
    ensures FirstClaimable(m, order, version, bucket, now) == FirstClaimable(s, order, version, bucket, now)
  {
    if order != [] { SameFirst(s, m, order[1..], version, bucket, now); }
  }

  lemma {:induction false} SameMatches(s: Mem, m: Mem, pipe: string, now: Time, k: nat)
    requires m.cards == s.cards && m.cardOrder == s.cardOrder && m.panels == s.panels && m.panelOrder == s.panelOrder
    requires forall c :: Machine.HasActiveLease(m.leases, c, now) <==> Machine.HasActiveLease(s.leases, c, now)
    requires k <= |s.panelOrder|
    ensures Matches(m, pipe, now, k) == Matches(s, pipe, now, k)
  {
    if k > 0 {
      SameMatches(s, m, pipe, now, k - 1);
      var id := s.panelOrder[k - 1];
      if id in s.panels && Binds(s.panels[id], pipe) {
        SameFirst(s, m, s.cardOrder, s.panels[id].WorkflowVersion(),
                  ResolvePipeBucket(s.panels[id], pipe, Input).value.bucket, now);
      }
    }
  }

  lemma {:induction false} ExpireKeepsActive(s: Mem, now: Time, base: Uuid, k: nat)
    requires Valid(s) && k <= |s.leaseOrder|
    ensures Expire(s, now, base, k).state.leases.Keys == s.leases.Keys
    ensures forall l :: l in s.leases ==>
      Expire(s, now, base, k).state.leases[l].cardId == s.leases[l].cardId
      && Expire(s, now, base, k).state.leases[l].Active(now) == s.leases[l].Active(now)
  {
    if k > 0 { ExpireKeepsActive(s, now, base, k - 1); }
  }

  /** Running the sweep at the same instant beforehand never changes what a claim is offered. */
  lemma SweepingFirstChangesNoClaim(s: Mem, pipe: string, now: Time, base: Uuid)
    requires Valid(s)
    ensures ClaimTarget(ExpireAll(s, now, base).after, pipe, now) == ClaimTarget(s, pipe, now)
  {
    var m := ExpireAll(s, now, base).after;
    ExpireKeepsValid(s, now, base, |s.leaseOrder|);
    ExpireKeepsActive(s, now, base, |s.leaseOrder|);
    forall c
      ensures Machine.HasActiveLease(m.leases, c, now) <==> Machine.HasActiveLease(s.leases, c, now)
    {
      if Machine.HasActiveLease(s.leases, c, now) {
        var l :| l in s.leases && s.leases[l].cardId == c && s.leases[l].Active(now);
        assert l in m.leases;
      }
    }
    SameMatches(s, m, pipe, now, |s.panelOrder|);
  }
}
