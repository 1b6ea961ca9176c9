/** What every legal run of the abstract machine keeps, whatever clock readings it sees. */
module MachineTheorems {
  import opened Prelude
  import opened Encoding
  import opened Domain
  import opened Service
  import opened PanelValidator
  import opened AcceptedPanels
  import opened Machine

  // ---- well-formed states ------------------------------------------------------------------

  ghost predicate Sound(a: Core) {
    && (forall c :: c in a.cards ==> a.cards[c].id == c)
    && (forall l :: l in a.leases ==> a.leases[l].id == l && a.leases[l].cardId in a.cards)
    && a.log.Keys == a.cards.Keys
  }

  /** The rows an act writes are the rows it names. */
  lemma Written(a: Core, t: Timed)
    requires Sound(a) && Enabled(a, t)
    ensures LeaseWritten(a, t).Some? ==>
      var w := LeaseWritten(a, t).value;
      if w.id in a.leases then w.(expiresAt := 0, releasedAt := None)
                               == a.leases[w.id].(expiresAt := 0, releasedAt := None)
      else t.act.Claim? && w == t.act.lease
    ensures CardWritten(a, t).Some? ==>
      var w := CardWritten(a, t).value;
      if w.id in a.cards then w == a.cards[w.id].(currentBucket := w.currentBucket)
      else t.act.Create? && w == t.act.card
  {
  }

  lemma EventIsAboutACard(a: Core, t: Timed)
    requires Sound(a) && Enabled(a, t) && EventWritten(a, t).Some?
    ensures EventWritten(a, t).value.cardId in NextCards(a, t)
    ensures EventWritten(a, t).value.cardId !in a.cards <==> t.act.Create?
    ensures CardWritten(a, t).Some? ==> CardWritten(a, t).value.id == EventWritten(a, t).value.cardId
  {
  }

  lemma StepSound(a: Core, t: Timed)
    requires Sound(a) && Enabled(a, t)
    ensures Sound(Apply(a, t))
  {
    Written(a, t);
    if EventWritten(a, t).Some? { EventIsAboutACard(a, t); }
  }

  lemma {:induction false} RunSound(a: Core, ts: seq<Timed>)
    requires Sound(a) && Legal(a, ts)
    ensures Sound(Play(a, ts))
  {
    if ts != [] {
      RunSound(a, ts[..|ts| - 1]);
      StepSound(Play(a, ts[..|ts| - 1]), ts[|ts| - 1]);
    }
  }

  // ---- exclusive leases --------------------------------------------------------------------

  /** No card has two leases active at clock reading `now`. */
  ghost predicate Exclusive(a: Core, now: Time) {
    forall l, m :: l in a.leases && m in a.leases && l != m && a.leases[l].cardId == a.leases[m].cardId
      ==> !(a.leases[l].Active(now) && a.leases[m].Active(now))
  }

  lemma StepExclusive(a: Core, t: Timed, later: Time)
    requires Sound(a) && Exclusive(a, t.now) && Enabled(a, t) && t.now <= later
    ensures Exclusive(Apply(a, t), later)
  {
  }

  lemma StepKeepsLease(a: Core, t: Timed, l: Uuid)
    requires Sound(a) && Enabled(a, t) && l in a.leases
    ensures l in NextLeases(a, t)
    ensures var before, after := a.leases[l], NextLeases(a, t)[l];
      && before.(expiresAt := 0, releasedAt := None) == after.(expiresAt := 0, releasedAt := None)
      && (before.releasedAt.Some? ==> after == before)
      && (forall later :: t.now <= later && !before.Active(t.now) ==> !after.Active(later))
  {
    Written(a, t);
  }

  lemma StepKeepsCard(a: Core, t: Timed, c: Uuid)
    requires Sound(a) && Enabled(a, t) && c in a.cards
    ensures c in NextCards(a, t)
    ensures NextCards(a, t)[c] == a.cards[c].(currentBucket := NextCards(a, t)[c].currentBucket)
  {
    Written(a, t);
  }

  /** In every state of every run, at its own clock reading and at every later one,
      each card has at most one active lease. */
  lemma {:induction false} ExclusiveForever(a: Core, start: Time, ts: seq<Timed>, later: Time)
    requires Sound(a) && Exclusive(a, start) && Legal(a, ts) && Clocked(start, ts)
    requires End(start, ts) <= later
    ensures Exclusive(Play(a, ts), later)
  {
    if ts != [] {
      var front, last := ts[..|ts| - 1], ts[|ts| - 1];
      ExclusiveForever(a, start, front, last.now);
      RunSound(a, front);
      StepExclusive(Play(a, front), last, later);
    }
  }

  /** A lease that is released or expired never becomes active again, and what closed it stays. */
  lemma {:induction false} DeadLeasesStayDead(a: Core, start: Time, ts: seq<Timed>, l: Uuid, later: Time)
    requires Sound(a) && Legal(a, ts) && Clocked(start, ts) && End(start, ts) <= later
    requires l in a.leases && !a.leases[l].Active(start)
    ensures l in Play(a, ts).leases && !Play(a, ts).leases[l].Active(later)
  {
    if ts != [] {
      DeadLeasesStayDead(a, start, ts[..|ts| - 1], l, ts[|ts| - 1].now);
      RunSound(a, ts[..|ts| - 1]);
      StepKeepsLease(Play(a, ts[..|ts| - 1]), ts[|ts| - 1], l);
    }
  }

  /** A lease never changes hands or disappears, and once released it never changes at all. */
  lemma {:induction false} LeasesAreKept(a: Core, ts: seq<Timed>, l: Uuid)
    requires Sound(a) && Legal(a, ts) && l in a.leases
    ensures l in Play(a, ts).leases
    ensures a.leases[l].releasedAt.Some? ==> Play(a, ts).leases[l] == a.leases[l]
    ensures Play(a, ts).leases[l].(expiresAt := 0, releasedAt := None)
         == a.leases[l].(expiresAt := 0, releasedAt := None)
  {
    if ts != [] {
      LeasesAreKept(a, ts[..|ts| - 1], l);
      RunSound(a, ts[..|ts| - 1]);
      StepKeepsLease(Play(a, ts[..|ts| - 1]), ts[|ts| - 1], l);
    }
  }

  // ---- cards and histories only grow -------------------------------------------------------

  /** No run changes a card's identity: only its bucket moves. */
  lemma {:induction false} CardsKeepIdentity(a: Core, ts: seq<Timed>, c: Uuid)
    requires Sound(a) && Legal(a, ts) && c in a.cards
    ensures c in Play(a, ts).cards
    ensures Play(a, ts).cards[c] == a.cards[c].(currentBucket := Play(a, ts).cards[c].currentBucket)
  {
    if ts != [] {
      CardsKeepIdentity(a, ts[..|ts| - 1], c);
      RunSound(a, ts[..|ts| - 1]);
      StepKeepsCard(Play(a, ts[..|ts| - 1]), ts[|ts| - 1], c);
    }
  }

  /** Histories only grow by appending. */
  lemma {:induction false} HistoriesGrow(a: Core, ts: seq<Timed>, c: Uuid)
    requires Sound(a) && Legal(a, ts) && c in a.log
    ensures c in Play(a, ts).log && a.log[c] <= Play(a, ts).log[c]
  {
    if ts != [] {
      HistoriesGrow(a, ts[..|ts| - 1], c);
      RunSound(a, ts[..|ts| - 1]);
    }
  }

  // ---- replaying a history -----------------------------------------------------------------

  /** Where an event of a movement type says the card is, if it says so. */
  function Names(e: CardEvent): Option<Value> {
    if e.eventType == "card_created" then Some(Get(e.payload, "bucket"))
    else if e.eventType == "artifact_submitted" then Some(Get(e.payload, "destination_bucket"))
    else if e.eventType == "card_validated" && "destination_bucket" in e.payload
    then Some(Get(e.payload, "destination_bucket"))
    else if e.eventType == "card_moved" then Some(Get(e.payload, "to_bucket"))
    else None
  }

  /** The bucket a history ends in: the one its latest movement names. */
  function Replayed(history: seq<CardEvent>): Option<Value> {
    if history == [] then None
    else if Names(history[|history| - 1]).Some? then Names(history[|history| - 1])
    else Replayed(history[..|history| - 1])
  }

  lemma ReplayedAppend(history: seq<CardEvent>, e: CardEvent)
    ensures Replayed(history + [e]) == if Names(e).Some? then Names(e) else Replayed(history)
  {
    assert (history + [e])[..|history|] == history;
  }

  /** Callers leave the movement events and the `destination_bucket` entry to the runtime. */
  ghost predicate KeepsMovementNames(act: Act) {
    && (act.Record? ==> act.event.eventType !in MOVEMENT_EVENTS)
    && (act.Validate? ==> "destination_bucket" !in act.payload && "destination_bucket" !in act.verdict)
  }

  ghost predicate HistoryTells(history: seq<CardEvent>, bucket: string) {
    Replayed(history) == Some(Str(bucket)) && history[0].eventType == "card_created"
  }

  ghost predicate HistoriesTell(cards: map<Uuid, Card>, log: map<Uuid, seq<CardEvent>>) {
    forall c :: c in cards ==> c in log && HistoryTells(log[c], cards[c].currentBucket)
  }

  ghost predicate HistoriesTellBuckets(a: Core) {
    HistoriesTell(a.cards, a.log)
  }

  function Upsert(cards: map<Uuid, Card>, w: Option<Card>): map<Uuid, Card> {
    if w.None? then cards else cards[w.value.id := w.value]
  }

  /** Writing a card row together with an event that names its bucket keeps histories true. */
  lemma ReplayAfter(cards: map<Uuid, Card>, log: map<Uuid, seq<CardEvent>>, w: Option<Card>, e: CardEvent)
    requires HistoriesTell(cards, log) && cards.Keys == log.Keys
    requires w.Some? ==> w.value.id == e.cardId && Names(e) == Some(Str(w.value.currentBucket))
    requires w.None? ==> Names(e) == None && e.cardId in cards
    requires e.cardId in cards || e.eventType == "card_created"
    ensures HistoriesTell(Upsert(cards, w), Append(log, e))
  {
    ReplayedAppend(if e.cardId in log then log[e.cardId] else [], e);
  }

  /** The event of an act names a bucket exactly when the act writes a card row, and then that row's. */
  lemma EventNamesBucket(a: Core, t: Timed)
    requires Enabled(a, t) && KeepsMovementNames(t.act) && EventWritten(a, t).Some?
    ensures Names(EventWritten(a, t).value) ==
      if CardWritten(a, t).None? then None else Some(Str(CardWritten(a, t).value.currentBucket))
    ensures t.act.Create? ==> EventWritten(a, t).value.eventType == "card_created"
  {
  }

  lemma StepKeepsReplay(a: Core, t: Timed)
    requires Sound(a) && HistoriesTellBuckets(a) && Enabled(a, t) && KeepsMovementNames(t.act)
    ensures HistoriesTell(NextCards(a, t), NextLog(a, t))
  {
    if EventWritten(a, t).None? {
      NoEventNoChange(a, t);
    } else {
      EventIsAboutACard(a, t);
      EventNamesBucket(a, t);
      ReplayAfter(a.cards, a.log, CardWritten(a, t), EventWritten(a, t).value);
      assert NextCards(a, t) == Upsert(a.cards, CardWritten(a, t));
    }
  }

  lemma NoEventNoChange(a: Core, t: Timed)
    requires Enabled(a, t) && EventWritten(a, t).None?
    ensures t.act.Register?
  {
  }

  ghost predicate AllKeepMovementNames(ts: seq<Timed>) {
    forall i :: 0 <= i < |ts| ==> KeepsMovementNames(ts[i].act)
  }

  /** Replaying any card's history yields exactly its current bucket, in every state of every run. */
  lemma {:induction false} ReplayYieldsBucket(a: Core, ts: seq<Timed>)
    requires Sound(a) && HistoriesTellBuckets(a) && Legal(a, ts) && AllKeepMovementNames(ts)
    ensures Sound(Play(a, ts)) && HistoriesTellBuckets(Play(a, ts))
  {
    if ts != [] {
      ReplayYieldsBucket(a, ts[..|ts| - 1]);
      RunSound(a, ts);
      StepKeepsReplay(Play(a, ts[..|ts| - 1]), ts[|ts| - 1]);
    }
  }

  /** Exactly when an event that moves nothing keeps the replay true: it names no bucket for
      the card, or names the bucket the card is in. */
  lemma AppendKeepsReplayIff(cards: map<Uuid, Card>, log: map<Uuid, seq<CardEvent>>, e: CardEvent)
    requires HistoriesTell(cards, log) && e.cardId in cards
    ensures HistoriesTell(cards, Append(log, e)) <==>
      Names(e).None? || Names(e) == Some(Str(cards[e.cardId].currentBucket))
  {
    ReplayedAppend(log[e.cardId], e);
    assert Append(log, e)[e.cardId] == log[e.cardId] + [e];
    if HistoriesTell(cards, Append(log, e)) {
      assert HistoryTells(Append(log, e)[e.cardId], cards[e.cardId].currentBucket);
    }
  }

  /** Exactly when a recorded event, or a validation without a route, keeps the replay true. */
  lemma ReplaySurvivesIff(a: Core, t: Timed)
    requires Sound(a) && HistoriesTellBuckets(a) && Enabled(a, t)
    requires t.act.Record? || (t.act.Validate? && t.act.route.None?)
    ensures EventWritten(a, t).Some? && EventWritten(a, t).value.cardId in a.cards
    ensures var e := EventWritten(a, t).value;
      HistoriesTell(NextCards(a, t), NextLog(a, t)) <==>
        Names(e).None? || Names(e) == Some(Str(a.cards[e.cardId].currentBucket))
  {
    AppendKeepsReplayIff(a.cards, a.log, EventWritten(a, t).value);
  }

  // ---- conservation of leases --------------------------------------------------------------

  predicate Closes(e: CardEvent) {
    e.eventType == "artifact_submitted" || e.eventType == "lease_released" || e.eventType == "lease_expired"
  }

  predicate AboutLease(e: CardEvent, l: Uuid) {
    Get(e.payload, "lease_id") == Str(Text(l))
  }

  function ClaimsOf(history: seq<CardEvent>, l: Uuid): nat {
    if history == [] then 0 else
      ClaimsOf(history[..|history| - 1], l) +
      if history[|history| - 1].eventType == "card_claimed" && AboutLease(history[|history| - 1], l) then 1 else 0
  }

  function ClosingsOf(history: seq<CardEvent>, l: Uuid): nat {
    if history == [] then 0 else
      ClosingsOf(history[..|history| - 1], l) +
      if Closes(history[|history| - 1]) && AboutLease(history[|history| - 1], l) then 1 else 0
  }

  function Claims(history: seq<CardEvent>): nat {
    if history == [] then 0
    else Claims(history[..|history| - 1]) + if history[|history| - 1].eventType == "card_claimed" then 1 else 0
  }

  function Closings(history: seq<CardEvent>): nat {
    if history == [] then 0
    else Closings(history[..|history| - 1]) + if Closes(history[|history| - 1]) then 1 else 0
  }

  lemma CountsAppend(history: seq<CardEvent>, e: CardEvent, l: Uuid)
    ensures ClaimsOf(history + [e], l)
         == ClaimsOf(history, l) + if e.eventType == "card_claimed" && AboutLease(e, l) then 1 else 0
    ensures ClosingsOf(history + [e], l) == ClosingsOf(history, l) + if Closes(e) && AboutLease(e, l) then 1 else 0
    ensures Claims(history + [e]) == Claims(history) + if e.eventType == "card_claimed" then 1 else 0
    ensures Closings(history + [e]) == Closings(history) + if Closes(e) then 1 else 0
  {
    assert (history + [e])[..|history|] == history;
  }

  ghost predicate KeepsLeaseNames(act: Act) {
    act.Record? ==> act.event.eventType !in LEASE_EVENTS
  }

  ghost predicate AllKeepLeaseNames(ts: seq<Timed>) {
    forall i :: 0 <= i < |ts| ==> KeepsLeaseNames(ts[i].act)
  }

  /** The history of card `c` holds one claim of each lease on `c`, and one closing event
      of each that is released; of any other id it holds neither. */
  ghost predicate Accounted(leases: map<Uuid, Lease>, history: seq<CardEvent>, c: Uuid, l: Uuid) {
    var mine := l in leases && leases[l].cardId == c;
    && ClaimsOf(history, l) == (if mine then 1 else 0)
    && ClosingsOf(history, l) == (if mine && leases[l].releasedAt.Some? then 1 else 0)
  }

  ghost function Unreleased(leases: map<Uuid, Lease>, c: Uuid): set<Uuid> {
    set l | l in leases && leases[l].cardId == c && leases[l].releasedAt.None?
  }

  ghost predicate Balanced(leases: map<Uuid, Lease>, history: seq<CardEvent>, c: Uuid) {
    |Unreleased(leases, c)| == Claims(history) - Closings(history)
  }

  ghost predicate Conserved(a: Core) {
    && (forall c, l :: c in a.log ==> Accounted(a.leases, a.log[c], c, l))
    && (forall c :: c in a.log ==> Balanced(a.leases, a.log[c], c))
  }

  function HistoryOf(log: map<Uuid, seq<CardEvent>>, c: Uuid): seq<CardEvent> {
    if c in log then log[c] else []
  }

  predicate ClosingAct(act: Act) { act.Submit? || act.Release? || act.Expire? }

  /** Which lease an act's event is about. */
  lemma EventTellsLease(a: Core, t: Timed, l: Uuid)
    requires Sound(a) && Enabled(a, t) && KeepsLeaseNames(t.act) && EventWritten(a, t).Some?
    ensures var e := EventWritten(a, t).value;
      && (e.eventType == "card_claimed" <==> t.act.Claim?)
      && (Closes(e) <==> ClosingAct(t.act))
      && (t.act.Claim? ==> e.cardId == t.act.lease.cardId && (AboutLease(e, l) <==> t.act.lease.id == l))
      && (ClosingAct(t.act) ==> e.cardId == a.leases[t.act.leaseId].cardId && (AboutLease(e, l) <==> t.act.leaseId == l))
  {
  }

  /** How an act changes the leases: a claim adds an open one, a closing act closes an open one,
      and nothing else opens or closes any. */
  ghost predicate Change(before: map<Uuid, Lease>, after: map<Uuid, Lease>, added: set<Uuid>, closed: set<Uuid>) {
    && added !! before.Keys && closed <= before.Keys
    && after.Keys == before.Keys + added
    && (forall l :: l in added ==> after[l].releasedAt.None?)
    && (forall l :: l in before ==> after[l].cardId == before[l].cardId)
    && (forall l :: l in before && l !in closed ==> after[l].releasedAt == before[l].releasedAt)
    && (forall l :: l in closed ==> before[l].releasedAt.None? && after[l].releasedAt.Some?)
  }

  ghost function Added(act: Act): set<Uuid> { if act.Claim? then {act.lease.id} else {} }
  ghost function Closed(act: Act): set<Uuid> { if ClosingAct(act) then {act.leaseId} else {} }

  lemma LeaseChange(a: Core, t: Timed)
    requires Sound(a) && Enabled(a, t)
    ensures Change(a.leases, NextLeases(a, t), Added(t.act), Closed(t.act))
  {
    Written(a, t);
  }

  lemma AccountedAfter(before: map<Uuid, Lease>, after: map<Uuid, Lease>, added: set<Uuid>, closed: set<Uuid>,
    history: seq<CardEvent>, e: CardEvent, c: Uuid, l: Uuid)
    requires Change(before, after, added, closed) && Accounted(before, history, c, l) && e.cardId == c
    requires e.eventType == "card_claimed" && AboutLease(e, l) <==> l in added
    requires Closes(e) && AboutLease(e, l) <==> l in closed
    requires l in added || l in closed ==> after[l].cardId == c
    ensures Accounted(after, history + [e], c, l)
  {
    CountsAppend(history, e, l);
  }

  lemma SwapCount(open: set<Uuid>, closed: set<Uuid>, added: set<Uuid>)
    requires closed <= open && added !! open
    ensures |open - closed + added| == |open| + |added| - |closed|
  {
    assert open == (open - closed) + closed;
  }

  lemma UnreleasedAfter(before: map<Uuid, Lease>, after: map<Uuid, Lease>, added: set<Uuid>, closed: set<Uuid>, c: Uuid)
    requires Change(before, after, added, closed)
    requires forall l :: l in added || l in closed ==> after[l].cardId == c
    ensures |Unreleased(after, c)| == |Unreleased(before, c)| + |added| - |closed|
  {
    var open := Unreleased(before, c);
    assert closed <= open;
    assert forall l :: l in Unreleased(after, c) <==> l in open - closed + added;
    assert Unreleased(after, c) == open - closed + added;
    SwapCount(open, closed, added);
  }

  lemma BalancedAfter(before: map<Uuid, Lease>, after: map<Uuid, Lease>, added: set<Uuid>, closed: set<Uuid>,
    history: seq<CardEvent>, e: CardEvent, c: Uuid)
    requires Change(before, after, added, closed) && Balanced(before, history, c) && e.cardId == c
    requires |added| == if e.eventType == "card_claimed" then 1 else 0
    requires |closed| == if Closes(e) then 1 else 0
    requires forall l :: l in added || l in closed ==> after[l].cardId == c
    ensures Balanced(after, history + [e], c)
  {
    CountsAppend(history, e, 0);
    UnreleasedAfter(before, after, added, closed, c);
  }

  lemma OthersUnmoved(before: map<Uuid, Lease>, after: map<Uuid, Lease>, added: set<Uuid>, closed: set<Uuid>,
    history: seq<CardEvent>, c: Uuid)
    requires Change(before, after, added, closed)
    requires forall l :: l in added || l in closed ==> after[l].cardId != c
    ensures Balanced(before, history, c) ==> Balanced(after, history, c)
    ensures forall l :: Accounted(before, history, c, l) ==> Accounted(after, history, c, l)
  {
    assert Unreleased(after, c) == Unreleased(before, c);
  }

  lemma StepConserves(a: Core, t: Timed, c: Uuid)
    requires Sound(a) && Conserved(a) && Enabled(a, t) && KeepsLeaseNames(t.act)
    requires c in NextLog(a, t)
    ensures Balanced(NextLeases(a, t), NextLog(a, t)[c], c)
    ensures forall l :: Accounted(NextLeases(a, t), NextLog(a, t)[c], c, l)
  {
    var after, added, closed := NextLeases(a, t), Added(t.act), Closed(t.act);
    var history := HistoryOf(a.log, c);
    LeaseChange(a, t);
    FreshHistory(a, c);
    if EventWritten(a, t).None? {
      NoEventNoChange(a, t);
    } else {
      var e := EventWritten(a, t).value;
      EventIsAboutACard(a, t);
      EventTellsLease(a, t, 0);
      if e.cardId != c {
        OthersUnmoved(a.leases, after, added, closed, history, c);
      } else {
        BalancedAfter(a.leases, after, added, closed, history, e, c);
        forall l
          ensures Accounted(after, history + [e], c, l)
        {
          EventTellsLease(a, t, l);
          AccountedAfter(a.leases, after, added, closed, history, e, c, l);
        }
      }
    }
  }

  /** A card without a history yet has no leases. */
  lemma FreshHistory(a: Core, c: Uuid)
    requires Sound(a) && Conserved(a)
    ensures Balanced(a.leases, HistoryOf(a.log, c), c)
    ensures forall l :: Accounted(a.leases, HistoryOf(a.log, c), c, l)
  {
    if c !in a.log { assert Unreleased(a.leases, c) == {}; }
  }

  /** In every state of every run each lease has one claim event, is closed by at most one
      event, and the open leases of a card are its claims minus its closings. */
  lemma {:induction false} LeasesConserved(a: Core, ts: seq<Timed>)
    requires Sound(a) && Conserved(a) && Legal(a, ts) && AllKeepLeaseNames(ts)
    ensures Sound(Play(a, ts)) && Conserved(Play(a, ts))
  {
    RunSound(a, ts);
    if ts != [] {
      var front, t := Play(a, ts[..|ts| - 1]), ts[|ts| - 1];
      LeasesConserved(a, ts[..|ts| - 1]);
      forall c | c in NextLog(front, t)
        ensures Balanced(NextLeases(front, t), NextLog(front, t)[c], c)
        ensures forall l :: Accounted(NextLeases(front, t), NextLog(front, t)[c], c, l)
      { StepConserves(front, t, c); }
    }
  }
}
