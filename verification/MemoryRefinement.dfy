/** Every run of the in-memory runtime is a run of the abstract machine. */
module MemoryRefinement {
  import opened Prelude
  import opened Encoding
  import opened Domain
  import opened Service
  import opened PanelValidator
  import opened Requests
  import opened Memory
  import A = Machine
  import T = MachineTheorems

  ghost function CoreOf(s: Mem): A.Core {
    A.Core(set id | id in s.panels :: s.panels[id], s.cards, s.leases, s.artifacts, s.events)
  }

  /** The ids the call draws for records are new. */
  ghost predicate FreshIds(s: Mem, c: Call) {
    c.base !in s.cards && c.base !in s.leases
  }

  // ---- the acts of each operation ----------------------------------------------------------

  /** `o` is the outcome of one enabled act. */
  ghost predicate IsAct(s: Mem, o: Outcome, t: A.Timed) {
    A.Enabled(CoreOf(s), t) && CoreOf(o.after) == A.Apply(CoreOf(s), t)
  }

  ghost function CreateAct(s: Mem, o: Outcome, panelId: string, base: Uuid): A.Act
    requires panelId in s.panels && o.result.Ok? && o.result.value.CardReply?
  {
    A.Create(s.panels[panelId], o.result.value.card, base + 1)
  }

  lemma RegisterRefines(s: Mem, panel: PatchPanel, now: Time)
    requires Register(s, panel).result.Ok?
    ensures IsAct(s, Register(s, panel), A.Timed(A.Register(panel, CoreOf(Register(s, panel).after).panels), now))
  {
  }

  lemma CreateRefines(s: Mem, panelId: string, payload: Json, metadata: Json, now: Time, base: Uuid)
    requires base !in s.cards
    requires Create(s, panelId, payload, metadata, now, base).result.Ok?
    ensures panelId in s.panels && Create(s, panelId, payload, metadata, now, base).result.value.CardReply?
    ensures var o := Create(s, panelId, payload, metadata, now, base);
      IsAct(s, o, A.Timed(CreateAct(s, o, panelId, base), now))
  {
  }

  lemma ClaimRefines(s: Mem, pipe: string, workerId: string, seconds: int, now: Time, base: Uuid)
    requires Valid(s) && base !in s.leases
    requires Claim(s, pipe, workerId, seconds, now, base).result.Ok?
    ensures ClaimTarget(s, pipe, now).Ok? && Claim(s, pipe, workerId, seconds, now, base).result.value.LeaseReply?
    ensures var o := Claim(s, pipe, workerId, seconds, now, base);
      IsAct(s, o, A.Timed(A.Claim(ClaimTarget(s, pipe, now).value.panel, o.result.value.lease, base + 1), now))
  {
    TargetOffers(s, pipe, now);
  }

  lemma SubmitRefines(s: Mem, leaseId: Uuid, pipe: string, refs: seq<ArtifactReference>, now: Time, base: Uuid)
    requires Valid(s) && Submit(s, leaseId, pipe, refs, now, base).result.Ok?
    ensures SubmitChecks(s, leaseId, pipe, refs, now).Ok?
    ensures var (panel, destination) := SubmitChecks(s, leaseId, pipe, refs, now).value;
      IsAct(s, Submit(s, leaseId, pipe, refs, now, base),
            A.Timed(A.Submit(panel, leaseId, pipe, destination, refs, base), now))
  {
  }

  lemma RenewRefines(s: Mem, leaseId: Uuid, seconds: int, now: Time, base: Uuid)
    requires Valid(s) && Renew(s, leaseId, seconds, now, base).result.Ok?
    ensures IsAct(s, Renew(s, leaseId, seconds, now, base), A.Timed(A.Renew(leaseId, seconds, base), now))
  {
  }

  lemma ReleaseRefines(s: Mem, leaseId: Uuid, actorId: Option<string>, now: Time, base: Uuid)
    requires Valid(s) && leaseId in s.leases && s.leases[leaseId].releasedAt.None?
    ensures IsAct(s, Release(s, leaseId, actorId, now, base), A.Timed(A.Release(leaseId, actorId, base), now))
  {
  }

  lemma ValidateRefines(s: Mem, cardId: Uuid, validatorId: string, accepted: bool, reason: Option<string>,
    exit: Option<string>, payload: Json, now: Time, base: Uuid)
    requires Valid(s) && Validate(s, cardId, validatorId, accepted, reason, exit, payload, now, base).result.Ok?
    ensures cardId in s.cards && RouteOf(s, s.cards[cardId], exit).Ok?
    ensures IsAct(s, Validate(s, cardId, validatorId, accepted, reason, exit, payload, now, base),
      A.Timed(ValidateAct(s, cardId, validatorId, accepted, reason, exit, payload, base), now))
  {
  }

  ghost function ValidateAct(s: Mem, cardId: Uuid, validatorId: string, accepted: bool, reason: Option<string>,
    exit: Option<string>, payload: Json, base: Uuid): A.Act
    requires cardId in s.cards && RouteOf(s, s.cards[cardId], exit).Ok?
  {
    var panel := PanelForCard(s, s.cards[cardId]);
    A.Validate(cardId, validatorId, Verdict(accepted, reason), payload,
               if panel.Some? then panel.value else A.NO_PANEL, RouteOf(s, s.cards[cardId], exit).value, base)
  }

  lemma MoveRefines(s: Mem, cardId: Uuid, toBucket: string, actorId: Option<string>, reason: Option<string>,
    now: Time, base: Uuid)
    requires Valid(s) && Move(s, cardId, toBucket, actorId, reason, now, base).result.Ok?
    ensures cardId in s.cards && PanelForCard(s, s.cards[cardId]).Some?
    ensures IsAct(s, Move(s, cardId, toBucket, actorId, reason, now, base),
      A.Timed(A.Move(PanelForCard(s, s.cards[cardId]).value, cardId, toBucket, actorId, reason, base), now))
  {
  }

  lemma RecordRefines(s: Mem, cardId: Uuid, eventType: string, actorId: Option<string>, payload: Json,
    now: Time, base: Uuid)
    requires Record(s, cardId, eventType, actorId, payload, now, base).result.Ok?
    ensures IsAct(s, Record(s, cardId, eventType, actorId, payload, now, base),
      A.Timed(A.Record(CardEvent(base, cardId, eventType, actorId, payload, now)), now))
  {
  }

  // ---- the sweep is a sequence of acts -----------------------------------------------------

  ghost function SweepActs(s: Mem, now: Time, base: Uuid, k: nat): seq<A.Timed>
    requires k <= |s.leaseOrder|
  {
    if k == 0 then []
    else
      var id := s.leaseOrder[k - 1];
      if id !in s.leases || !Overdue(s.leases[id], now) then SweepActs(s, now, base, k - 1)
      else
        SweepActs(s, now, base, k - 1) +
        [A.Timed(A.Expire(id, base + |Expire(s, now, base, k - 1).expired|), now)]
  }

  /** The leases still to be swept are as they were. */
  lemma {:induction false} SweepLeavesRest(s: Mem, now: Time, base: Uuid, k: nat)
    requires Valid(s) && k <= |s.leaseOrder|
    ensures var m := Expire(s, now, base, k).state;
      forall j :: k <= j < |s.leaseOrder| ==>
        s.leaseOrder[j] in m.leases && m.leases[s.leaseOrder[j]] == s.leases[s.leaseOrder[j]]
  {
    if k > 0 { SweepLeavesRest(s, now, base, k - 1); }
  }

  /** One sweep step over an overdue lease is one act. */
  lemma SweepOne(s: Mem, now: Time, base: Uuid, k: nat)
    requires Valid(s) && k < |s.leaseOrder| && Overdue(s.leases[s.leaseOrder[k]], now)
    ensures A.Takes(CoreOf(Expire(s, now, base, k).state),
                    A.Timed(A.Expire(s.leaseOrder[k], base + |Expire(s, now, base, k).expired|), now),
                    CoreOf(Expire(s, now, base, k + 1).state))
  {
    var mid, id := Expire(s, now, base, k), s.leaseOrder[k];
    SweepLeavesRest(s, now, base, k);
    ExpireOneRefines(mid.state, id, now, base + |mid.expired|, s.leases[id]);
  }

  lemma {:induction false} SweepRefines(s: Mem, now: Time, base: Uuid, k: nat)
    requires Valid(s) && k <= |s.leaseOrder|
    ensures A.Leads(CoreOf(s), SweepActs(s, now, base, k), CoreOf(Expire(s, now, base, k).state))
    ensures A.Clocked(now, SweepActs(s, now, base, k)) && A.End(now, SweepActs(s, now, base, k)) == now
  {
    if k > 0 {
      SweepRefines(s, now, base, k - 1);
      var id := s.leaseOrder[k - 1];
      if Overdue(s.leases[id], now) {
        SweepOne(s, now, base, k - 1);
        var mid := Expire(s, now, base, k - 1);
        var t := A.Timed(A.Expire(id, base + |mid.expired|), now);
        A.Snoc(CoreOf(s), SweepActs(s, now, base, k - 1), CoreOf(mid.state), t, CoreOf(Expire(s, now, base, k).state));
        A.SnocClock(now, SweepActs(s, now, base, k - 1), t);
      }
    }
  }

  lemma ExpireOneRefines(m: Mem, id: Uuid, now: Time, eventId: Uuid, lease: Lease)
    requires id in m.leases && m.leases[id] == lease && lease.id == id && Overdue(lease, now)
    ensures var t := A.Timed(A.Expire(id, eventId), now);
      && A.Enabled(CoreOf(m), t)
      && A.Apply(CoreOf(m), t) == CoreOf(m.(leases := m.leases[lease.id := lease.(releasedAt := Some(now))],
                                            events := A.Append(m.events, ExpiredEvent(eventId, lease, now))))
  {
  }

  // ---- calls and runs ----------------------------------------------------------------------

  ghost function ActOf(s: Mem, c: Call): A.Act
    requires Valid(s) && FreshIds(s, c) && Perform(s, c).result.Ok?
    requires !c.req.ExpireLeases? && !AnswersEarly(s, c.req)
  {
    match c.req
    case RegisterPanel(panel) => A.Register(panel, CoreOf(Perform(s, c).after).panels)
    case CreateCard(panelId, payload, metadata, _) =>
      CreateRefines(s, panelId, payload, metadata, c.now, c.base);
      CreateAct(s, Perform(s, c), panelId, c.base)
    case ClaimCard(pipe, workerId, seconds, _) =>
      ClaimRefines(s, pipe, workerId, seconds, c.now, c.base);
      A.Claim(ClaimTarget(s, pipe, c.now).value.panel, Perform(s, c).result.value.lease, c.base + 1)
    case SubmitArtifact(leaseId, pipe, refs, _) =>
      SubmitRefines(s, leaseId, pipe, refs, c.now, c.base);
      var (panel, destination) := SubmitChecks(s, leaseId, pipe, refs, c.now).value;
      A.Submit(panel, leaseId, pipe, destination, refs, c.base)
    case RenewLease(leaseId, seconds, _) => A.Renew(leaseId, seconds, c.base)
    case ReleaseLease(leaseId, actorId, _) => A.Release(leaseId, actorId, c.base)
    case ValidateCard(cardId, validatorId, accepted, reason, exit, payload, _) =>
      ValidateRefines(s, cardId, validatorId, accepted, reason, exit, payload, c.now, c.base);
      ValidateAct(s, cardId, validatorId, accepted, reason, exit, payload, c.base)
    case MoveCard(cardId, toBucket, actorId, reason, _) =>
      MoveRefines(s, cardId, toBucket, actorId, reason, c.now, c.base);
      A.Move(PanelForCard(s, s.cards[cardId]).value, cardId, toBucket, actorId, reason, c.base)
    case RecordEvent(cardId, eventType, actorId, payload, _) =>
      A.Record(CardEvent(c.base, cardId, eventType, actorId, payload, c.now))
  }

  lemma ActRefines(s: Mem, c: Call)
    requires Valid(s) && FreshIds(s, c) && Perform(s, c).result.Ok?
    requires !c.req.ExpireLeases? && !AnswersEarly(s, c.req)
    ensures IsAct(s, Perform(s, c), A.Timed(ActOf(s, c), c.now))
  {
    match c.req
    case RegisterPanel(panel) => RegisterRefines(s, panel, c.now);
    case CreateCard(panelId, payload, metadata, _) => CreateRefines(s, panelId, payload, metadata, c.now, c.base);
    case ClaimCard(pipe, workerId, seconds, _) => ClaimRefines(s, pipe, workerId, seconds, c.now, c.base);
    case SubmitArtifact(leaseId, pipe, refs, _) => SubmitRefines(s, leaseId, pipe, refs, c.now, c.base);
    case RenewLease(leaseId, seconds, _) => RenewRefines(s, leaseId, seconds, c.now, c.base);
    case ReleaseLease(leaseId, actorId, _) => ReleaseRefines(s, leaseId, actorId, c.now, c.base);
    case ValidateCard(cardId, validatorId, accepted, reason, exit, payload, _) =>
      ValidateRefines(s, cardId, validatorId, accepted, reason, exit, payload, c.now, c.base);
    case MoveCard(cardId, toBucket, actorId, reason, _) =>
      MoveRefines(s, cardId, toBucket, actorId, reason, c.now, c.base);
    case RecordEvent(cardId, eventType, actorId, payload, _) =>
      RecordRefines(s, cardId, eventType, actorId, payload, c.now, c.base);
  }

  /** Whether the call goes past its idempotency key and changes something. */
  ghost predicate Acts(s: Mem, c: Call) {
    Cached(s.idempotency, c.req.Key()).None? && Perform(s, c).result.Ok? && !AnswersEarly(s, c.req)
  }

  ghost function StepActs(s: Mem, c: Call): seq<A.Timed>
    requires Valid(s) && FreshIds(s, c)
  {
    if !Acts(s, c) then []
    else if c.req.ExpireLeases? then SweepActs(s, c.now, c.base, |s.leaseOrder|)
    else [A.Timed(ActOf(s, c), c.now)]
  }

  lemma {:induction false} SweepOnlyExpires(s: Mem, now: Time, base: Uuid, k: nat)
    requires k <= |s.leaseOrder|
    ensures forall t :: t in SweepActs(s, now, base, k) ==> t.act.Expire?
  {
    if k > 0 { SweepOnlyExpires(s, now, base, k - 1); }
  }

  /** Only a recorded event is recorded, on its card and under the type it was given. */
  lemma RecordsAreAsked(s: Mem, c: Call)
    requires Valid(s) && FreshIds(s, c)
    ensures forall t :: t in StepActs(s, c) && t.act.Record? ==>
      c.req.RecordEvent? && t.act.event.eventType == c.req.eventType && t.act.event.cardId == c.req.cardId
  {
    if Acts(s, c) && c.req.ExpireLeases? { SweepOnlyExpires(s, c.now, c.base, |s.leaseOrder|); }
  }

  /** Every operation that raises leaves the state as it was. */
  lemma RaisingChangesNothing(s: Mem, c: Call)
    ensures Step(s, c).result.Err? ==> Step(s, c).after == s
  {
  }

  /** Every call is a legal sequence of acts of the machine, all at the call's clock reading. */
  lemma StepRefines(s: Mem, c: Call)
    requires Valid(s) && FreshIds(s, c)
    ensures A.Legal(CoreOf(s), StepActs(s, c))
    ensures CoreOf(Step(s, c).after) == A.Play(CoreOf(s), StepActs(s, c))
    ensures A.Clocked(c.now, StepActs(s, c)) && A.End(c.now, StepActs(s, c)) == c.now
  {
    if !Acts(s, c) {
      RaisingChangesNothing(s, c);
    } else if c.req.ExpireLeases? {
      SweepRefines(s, c.now, c.base, |s.leaseOrder|);
    } else {
      var t := A.Timed(ActOf(s, c), c.now);
      ActRefines(s, c);
      A.One(CoreOf(s), t);
      A.SnocClock(c.now, [], t);
      assert StepActs(s, c) == [t] == [] + [t];
    }
  }

  /** Clock readings never go back and drawn ids are new. */
  ghost predicate Proper(s: Mem, start: Time, calls: seq<Call>) {
    calls == [] ||
    var front, last := calls[..|calls| - 1], calls[|calls| - 1];
    Proper(s, start, front) && Clock(start, front) <= last.now && FreshIds(Run(s, front), last)
  }

  ghost function Clock(start: Time, calls: seq<Call>): Time {
    if calls == [] then start else calls[|calls| - 1].now
  }

  lemma {:induction false} RunKeepsValid(s: Mem, calls: seq<Call>)
    requires Valid(s)
    ensures Valid(Run(s, calls))
  {
    if calls != [] {
      RunKeepsValid(s, calls[..|calls| - 1]);
      StepKeepsValid(Run(s, calls[..|calls| - 1]), calls[|calls| - 1]);
    }
  }

  ghost function RunActs(s: Mem, start: Time, calls: seq<Call>): seq<A.Timed>
    requires Valid(s) && Proper(s, start, calls)
  {
    if calls == [] then []
    else
      var front, last := calls[..|calls| - 1], calls[|calls| - 1];
      RunKeepsValid(s, front);
      RunActs(s, start, front) + StepActs(Run(s, front), last)
  }

  /** Clock readings may only move on. */
  lemma {:induction false} ClockedFromEarlier(early: Time, late: Time, ts: seq<A.Timed>)
    requires early <= late && A.Clocked(late, ts)
    ensures A.Clocked(early, ts) && A.End(early, ts) <= A.End(late, ts)
  {
    if ts != [] { ClockedFromEarlier(early, late, ts[..|ts| - 1]); }
  }

  /** Every run of the in-memory runtime is a legal, clocked run of the machine. */
  lemma {:induction false} RunRefines(s: Mem, start: Time, calls: seq<Call>)
    requires Valid(s) && Proper(s, start, calls)
    ensures A.Legal(CoreOf(s), RunActs(s, start, calls))
    ensures CoreOf(Run(s, calls)) == A.Play(CoreOf(s), RunActs(s, start, calls))
    ensures A.Clocked(start, RunActs(s, start, calls))
    ensures A.End(start, RunActs(s, start, calls)) <= Clock(start, calls)
  {
    if calls != [] {
      var front, last := calls[..|calls| - 1], calls[|calls| - 1];
      RunRefines(s, start, front);
      RunKeepsValid(s, front);
      var mid, xs, ys := Run(s, front), RunActs(s, start, front), StepActs(Run(s, front), last);
      StepRefines(mid, last);
      ClockedFromEarlier(A.End(start, xs), last.now, ys);
      A.Join(CoreOf(s), xs, ys);
      A.JoinClock(start, xs, ys);
    }
  }
}
