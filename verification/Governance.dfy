/** What legal runs keep when every act obeys the registered Patch Panels. */
module Governance {
  import opened Prelude
  import opened Encoding
  import opened Domain
  import opened Service
  import opened PanelValidator
  import opened AcceptedPanels
  import opened Machine
  import opened MachineTheorems

  /** Registered panels are accepted, and a workflow version names one definition. */
  ghost predicate PanelsSettled(panels: set<PatchPanel>) {
    && (forall p :: p in panels ==> Accepted(p))
    && (forall p, q :: p in panels && q in panels && p.WorkflowVersion() == q.WorkflowVersion() ==> p == q)
  }

  lemma StepSettled(a: Core, t: Timed)
    requires PanelsSettled(a.panels) && Enabled(a, t) && Governed(a, t.act)
    ensures PanelsSettled(Apply(a, t).panels) && a.panels <= Apply(a, t).panels
  {
  }

  // ---- every card sits in a declared bucket ------------------------------------------------

  ghost predicate CardDeclared(panels: set<PatchPanel>, card: Card) {
    exists p :: p in panels && p.WorkflowVersion() == card.workflowVersion && p.Declares(card.currentBucket)
  }

  ghost predicate CardsDeclared(a: Core) {
    forall c :: c in a.cards ==> CardDeclared(a.panels, a.cards[c])
  }

  lemma WrittenCardDeclared(a: Core, t: Timed)
    requires Sound(a) && PanelsSettled(a.panels) && Enabled(a, t) && Governed(a, t.act)
    requires CardWritten(a, t).Some?
    ensures CardDeclared(a.panels, CardWritten(a, t).value)
  {
    match t.act {
      case Create(panel, _, _) => InitialBucketDeclared(panel);
      case Submit(panel, _, pipe, _, _, _) => ResolvedBucketDeclared(panel, pipe, Output);
      case Validate(_, _, _, _, panel, route, _) => ResolvedBucketDeclared(panel, route.value.pipe, Output);
      case Move(_, _, _, _, _, _) =>
    }
  }

  lemma StepDeclared(a: Core, t: Timed)
    requires Sound(a) && PanelsSettled(a.panels) && CardsDeclared(a) && Enabled(a, t) && Governed(a, t.act)
    ensures CardsDeclared(Apply(a, t))
  {
    StepSettled(a, t);
    if CardWritten(a, t).Some? { WrittenCardDeclared(a, t); }
    forall c | c in NextCards(a, t)
      ensures CardDeclared(a.panels, NextCards(a, t)[c])
    {
      if c in a.cards { assert CardDeclared(a.panels, a.cards[c]); }
    }
    PanelsMonotonic(a.panels, Apply(a, t).panels, NextCards(a, t));
  }

  lemma PanelsMonotonic(before: set<PatchPanel>, after: set<PatchPanel>, cards: map<Uuid, Card>)
    requires before <= after && forall c :: c in cards ==> CardDeclared(before, cards[c])
    ensures forall c :: c in cards ==> CardDeclared(after, cards[c])
  {
    forall c | c in cards
      ensures CardDeclared(after, cards[c])
    {
      var p :| p in before && p.WorkflowVersion() == cards[c].workflowVersion && p.Declares(cards[c].currentBucket);
    }
  }

  /** In every state of every governed run each card sits in a bucket that the definition of
      its own workflow version declares. */
  lemma {:induction false} BucketsAlwaysDeclared(a: Core, ts: seq<Timed>)
    requires Sound(a) && PanelsSettled(a.panels) && CardsDeclared(a) && Legal(a, ts) && AllGoverned(a, ts)
    ensures PanelsSettled(Play(a, ts).panels) && CardsDeclared(Play(a, ts)) && a.panels <= Play(a, ts).panels
  {
    if ts != [] {
      var front := ts[..|ts| - 1];
      BucketsAlwaysDeclared(a, front);
      RunSound(a, front);
      StepSettled(Play(a, front), ts[|ts| - 1]);
      StepDeclared(Play(a, front), ts[|ts| - 1]);
    }
  }

  // ---- a leased card waits where its lease found it ----------------------------------------

  /** The card sits in the bucket the lease's input pipe resolves to, with the lease's node. */
  ghost predicate Waits(panels: set<PatchPanel>, card: Card, lease: Lease) {
    exists p :: p in panels && p.WorkflowVersion() == card.workflowVersion
      && ResolvePipeBucket(p, lease.inputPipe, Input) == Ok(Endpoint(card.currentBucket, lease.nodeId))
  }

  ghost predicate LeasedCardsWait(a: Core, now: Time)
    requires Sound(a)
  {
    forall l :: l in a.leases && a.leases[l].Active(now) ==> Waits(a.panels, a.cards[a.leases[l].cardId], a.leases[l])
  }

  /** Validators and movers leave actively leased cards alone. */
  ghost predicate Calm(a: Core, t: Timed) {
    && (t.act.Validate? && t.act.route.Some? ==> !HasActiveLease(a.leases, t.act.cardId, t.now))
    && (t.act.Move? ==> !HasActiveLease(a.leases, t.act.cardId, t.now))
  }

  ghost predicate AllCalm(a: Core, ts: seq<Timed>)
    requires Legal(a, ts)
  {
    ts == [] || (AllCalm(a, ts[..|ts| - 1]) && Calm(Play(a, ts[..|ts| - 1]), ts[|ts| - 1]))
  }

  /** A card row is rewritten only when none of its leases is active afterwards. */
  lemma WrittenCardIsFree(a: Core, t: Timed, l: Uuid, later: Time)
    requires Sound(a) && Exclusive(a, t.now) && Enabled(a, t) && Calm(a, t) && t.now <= later
    requires CardWritten(a, t).Some? && l in NextLeases(a, t)
    requires NextLeases(a, t)[l].cardId == CardWritten(a, t).value.id
    ensures !NextLeases(a, t)[l].Active(later)
  {
    Written(a, t);
    if l in a.leases { StepKeepsLease(a, t, l); }
  }

  lemma StepWaits(a: Core, t: Timed, l: Uuid, later: Time)
    requires Sound(a) && Exclusive(a, t.now) && LeasedCardsWait(a, t.now)
    requires Enabled(a, t) && Governed(a, t.act) && Calm(a, t) && t.now <= later
    requires l in NextLeases(a, t) && NextLeases(a, t)[l].Active(later)
    ensures NextLeases(a, t)[l].cardId in NextCards(a, t)
    ensures Waits(a.panels, NextCards(a, t)[NextLeases(a, t)[l].cardId], NextLeases(a, t)[l])
  {
    Written(a, t);
    var lease := NextLeases(a, t)[l];
    if CardWritten(a, t).Some? && CardWritten(a, t).value.id == lease.cardId {
      WrittenCardIsFree(a, t, l, later);
    } else if l in a.leases {
      StepKeepsLease(a, t, l);
      assert Waits(a.panels, a.cards[lease.cardId], a.leases[l]);
    } else {
      assert Waits(a.panels, a.cards[lease.cardId], lease);
    }
  }

  lemma MorePanelsWait(before: set<PatchPanel>, after: set<PatchPanel>, card: Card, lease: Lease)
    requires before <= after && Waits(before, card, lease)
    ensures Waits(after, card, lease)
  {
  }

  /** In every state of every governed, calm run, at its clock reading and at every later one,
      an actively leased card sits where its lease's input pipe leads, at the lease's node. */
  lemma {:induction false} LeasedCardsAlwaysWait(a: Core, start: Time, ts: seq<Timed>, later: Time)
    requires Sound(a) && Exclusive(a, start) && LeasedCardsWait(a, start) && PanelsSettled(a.panels)
    requires Legal(a, ts) && AllGoverned(a, ts) && AllCalm(a, ts)
    requires Clocked(start, ts) && End(start, ts) <= later
    ensures Sound(Play(a, ts)) && LeasedCardsWait(Play(a, ts), later) && PanelsSettled(Play(a, ts).panels)
  {
    RunSound(a, ts);
    if ts != [] {
      var front, t := ts[..|ts| - 1], ts[|ts| - 1];
      var mid := Play(a, front);
      LeasedCardsAlwaysWait(a, start, front, t.now);
      ExclusiveForever(a, start, front, t.now);
      StepSettled(mid, t);
      forall l | l in NextLeases(mid, t) && NextLeases(mid, t)[l].Active(later)
        ensures Waits(Apply(mid, t).panels, NextCards(mid, t)[NextLeases(mid, t)[l].cardId], NextLeases(mid, t)[l])
      {
        StepWaits(mid, t, l, later);
        MorePanelsWait(mid.panels, Apply(mid, t).panels, NextCards(mid, t)[NextLeases(mid, t)[l].cardId], NextLeases(mid, t)[l]);
      }
    }
  }

  /** Then every submission takes a card from an input bucket to an output bucket of one node. */
  lemma SubmissionsCrossOneNode(a: Core, t: Timed)
    requires Sound(a) && PanelsSettled(a.panels) && LeasedCardsWait(a, t.now)
    requires Enabled(a, t) && Governed(a, t.act) && t.act.Submit?
    ensures var lease := a.leases[t.act.leaseId];
      && ResolvePipeBucket(t.act.panel, lease.inputPipe, Input)
         == Ok(Endpoint(a.cards[lease.cardId].currentBucket, lease.nodeId))
      && lease.cardId in NextCards(a, t)
      && ResolvePipeBucket(t.act.panel, t.act.pipe, Output)
         == Ok(Endpoint(NextCards(a, t)[lease.cardId].currentBucket, lease.nodeId))
  {
    var lease := a.leases[t.act.leaseId];
    assert Waits(a.panels, a.cards[lease.cardId], lease);
  }

  lemma MovedCardWaitsIff(panels: set<PatchPanel>, card: Card, lease: Lease, to: string)
    requires PanelsSettled(panels) && Waits(panels, card, lease)
    ensures Waits(panels, card.(currentBucket := to), lease) <==> to == card.currentBucket
  {
  }

  lemma UncalmActMovesOnly(a: Core, t: Timed)
    requires Sound(a) && Enabled(a, t) && !Calm(a, t)
    ensures HasActiveLease(a.leases, t.act.cardId, t.now) && t.act.cardId in a.cards
    ensures NextLeases(a, t) == a.leases && Apply(a, t).panels == a.panels
    ensures NextCards(a, t) == a.cards[t.act.cardId := NextCards(a, t)[t.act.cardId]]
    ensures NextCards(a, t)[t.act.cardId]
         == a.cards[t.act.cardId].(currentBucket := NextCards(a, t)[t.act.cardId].currentBucket)
  {
  }

  /** What calmness buys, exactly: moving an actively leased card keeps the rule if and only if
      it is moved to the bucket it is in. */
  lemma MovingLeasedCardIff(a: Core, t: Timed)
    requires Sound(a) && LeasedCardsWait(a, t.now) && PanelsSettled(a.panels)
    requires Enabled(a, t) && Governed(a, t.act) && !Calm(a, t)
    ensures Sound(Apply(a, t)) && t.act.cardId in NextCards(a, t)
    ensures LeasedCardsWait(Apply(a, t), t.now) <==>
      NextCards(a, t)[t.act.cardId].currentBucket == a.cards[t.act.cardId].currentBucket
  {
    StepSound(a, t);
    UncalmActMovesOnly(a, t);
    var c := t.act.cardId;
    var l :| l in a.leases && a.leases[l].cardId == c && a.leases[l].Active(t.now);
    MovedCardWaitsIff(a.panels, a.cards[c], a.leases[l], NextCards(a, t)[c].currentBucket);
    if LeasedCardsWait(Apply(a, t), t.now) {
      assert Waits(a.panels, NextCards(a, t)[c], a.leases[l]);
    }
  }
}
