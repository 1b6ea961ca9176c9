/** Runs that mix deliveries under several deduplication keys with other calls (boundaries.py). */
module DeliveryRuns {
  import opened Prelude
  import opened Encoding
  import opened Domain
  import opened Service
  import opened Requests
  import opened Workflows
  import opened Executor
  import opened Deliveries
  import M = Memory
  import MR = MemoryRefinement
  import X = ExactlyOnce

  // ---- a delivery leaves the others alone --------------------------------------------------

  /** Deliveries under the two keys store nothing under a common key. */
  predicate Apart(k: string, l: string) { KeysOf(k) !! KeysOf(l) }

  lemma NoteLeavesStage(s: M.Mem, call: Call, key: string, n: nat, c: Uuid)
    requires AtStage(s, key, n, c) && call.req.RecordEvent? && (n >= 1 ==> call.req.cardId != c)
    requires Truthy(call.req.Key()) ==> call.req.Key().value !in KeysOf(key)
    ensures AtStage(M.Step(s, call).after, key, n, c)
  {
    M.StepKeepsValid(s, call);
    X.StepKeepsTruthy(s, call);
    CallKeepsTable(s, call, key);
    CallKeepsTable(s, call, key + ":source");
    CallKeepsTable(s, call, key + ":event");
    if n >= 1 { NoteElsewhere(s, call, c); }
  }

  lemma NoteElsewhere(s: M.Mem, call: Call, c: Uuid)
    requires call.req.RecordEvent? && call.req.cardId != c && c in s.cards && c in s.events
    ensures var t := M.Step(s, call).after; c in t.cards && c in t.events && t.events[c] == s.events[c]
  {
  }

  function Creation(d: Delivery, now: Time, base: Uuid): Call {
    Call(CreateCard(d.panelId, d.payload, d.Metadata(), d.Key()), now, base)
  }

  function Execution(d: Delivery, card: Uuid, now: Time, base: Uuid): Call {
    Call(RecordEvent(card, "source_executed", Some(d.sourceId), SourceNote(d.sourceId), Derived(d.Key(), ":source")), now, base + 2)
  }

  function Receipt(d: Delivery, card: Uuid, now: Time, base: Uuid): Call { Call(d.Received(card), now, base + 3) }

  /** The state after the creation, after the execution's event and after the receipt's. */
  ghost function Created(s: M.Mem, d: Delivery, now: Time, base: Uuid): M.Outcome { M.Step(s, Creation(d, now, base)) }

  ghost function Executed(s: M.Mem, d: Delivery, card: Uuid, now: Time, base: Uuid): M.Outcome {
    M.Step(Created(s, d, now, base).after, Execution(d, card, now, base))
  }

  ghost function Received(s: M.Mem, d: Delivery, card: Uuid, now: Time, base: Uuid): M.Outcome {
    M.Step(Executed(s, d, card, now, base).after, Receipt(d, card, now, base))
  }

  predicate Answered(o: M.Outcome, card: Uuid) { o.result.Ok? && o.result.value.CardReply? && o.result.value.card.id == card }

  lemma SourceSteps(s: M.Mem, panel: PatchPanel, d: Delivery, now: Time, base: Uuid, cut: nat)
    requires panel.id == d.panelId
    ensures var p, created := SourceRun(s, panel, d.sourceId, d.payload, d.Metadata(), d.Key(), now, base, cut), Created(s, d, now, base);
      || (p.after == s && (p.result.Some? ==> p.result.value.Err?))
      || (p.after == created.after && (p.result.Some? ==> p.result.value.Err?))
      || (exists card :: Answered(created, card) && p.after == Executed(s, d, card, now, base).after
            && (p.result.Some? && p.result.value.Ok? ==> p.result.value.value.id == card))
  {
    StepFits(s, Creation(d, now, base));
    var created := Created(s, d, now, base);
    if created.result.Ok? { assert Answered(created, created.result.value.card.id); }
  }

  /** A delivery is its creation, then the two events about the card the creation answered. */
  lemma DeliverySteps(s: M.Mem, d: Delivery, now: Time, base: Uuid, cut: nat)
    requires M.Valid(s)
    ensures var after := Deliver(s, d, now, base, cut).after;
      || after == s || after == Created(s, d, now, base).after
      || (exists card :: Answered(Created(s, d, now, base), card)
            && (after == Executed(s, d, card, now, base).after || after == Received(s, d, card, now, base).after))
  {
    if Addressed(s.panels, d).Ok? { SourceSteps(s, Addressed(s.panels, d).value, d, now, base, cut); }
  }

  /** The three calls of a delivery under `other` leave what was delivered under `key` as it was. */
  lemma ForeignDelivery(s: M.Mem, d: Delivery, now: Time, base: Uuid, cut: nat, key: string, n: nat, c: Uuid, m: nat, b: Uuid)
    requires d.dedup != "" && AtStage(s, SourceKey(d.panelId, d.sourceId, d.dedup), m, b) && AtStage(s, key, n, c)
    requires Apart(SourceKey(d.panelId, d.sourceId, d.dedup), key) && (n >= 1 && m >= 1 ==> b != c)
    requires base !in s.cards && base !in s.leases
    ensures AtStage(Deliver(s, d, now, base, cut).after, key, n, c)
  {
    var after := Deliver(s, d, now, base, cut).after;
    DeliverySteps(s, d, now, base, cut);
    ForeignCreation(s, d, now, base, key, n, c, m, b);
    if after != s && after != Created(s, d, now, base).after {
      var card :| Answered(Created(s, d, now, base), card)
        && (after == Executed(s, d, card, now, base).after || after == Received(s, d, card, now, base).after);
      ForeignNotes(Created(s, d, now, base).after, d, card, now, base, key, n, c);
    }
  }

  lemma ForeignCreation(s: M.Mem, d: Delivery, now: Time, base: Uuid, key: string, n: nat, c: Uuid, m: nat, b: Uuid)
    requires d.dedup != "" && AtStage(s, SourceKey(d.panelId, d.sourceId, d.dedup), m, b) && AtStage(s, key, n, c)
    requires Apart(SourceKey(d.panelId, d.sourceId, d.dedup), key) && (n >= 1 && m >= 1 ==> b != c)
    requires base !in s.cards && base !in s.leases
    ensures AtStage(Created(s, d, now, base).after, key, n, c)
    ensures forall card :: Answered(Created(s, d, now, base), card) && n >= 1 ==> card != c
  {
    var m', b' := CreationAdvances(s, Creation(d, now, base), SourceKey(d.panelId, d.sourceId, d.dedup), m, b);
    OtherCallKeepsStage(s, Creation(d, now, base), key, n, c);
  }

  lemma ForeignNotes(s: M.Mem, d: Delivery, card: Uuid, now: Time, base: Uuid, key: string, n: nat, c: Uuid)
    requires d.dedup != "" && AtStage(s, key, n, c) && (n >= 1 ==> card != c)
    requires Apart(SourceKey(d.panelId, d.sourceId, d.dedup), key)
    ensures AtStage(M.Step(s, Execution(d, card, now, base)).after, key, n, c)
    ensures AtStage(M.Step(M.Step(s, Execution(d, card, now, base)).after, Receipt(d, card, now, base)).after, key, n, c)
  {
    NoteLeavesStage(s, Execution(d, card, now, base), key, n, c);
    NoteLeavesStage(M.Step(s, Execution(d, card, now, base)).after, Receipt(d, card, now, base), key, n, c);
  }

  // ---- a family of deduplication keys ------------------------------------------------------

  /** A source and a deduplication key. */
  datatype Name = Name(panelId: string, sourceId: string, dedup: string) {
    function Key(): string { SourceKey(panelId, sourceId, dedup) }
  }

  function NameOf(d: Delivery): Name { Name(d.panelId, d.sourceId, d.dedup) }

  /** How many of the three calls under `key` have happened. */
  function Stage(s: M.Mem, key: string): nat {
    if key + ":event" in s.idempotency then 3
    else if key + ":source" in s.idempotency then 2
    else if key in s.idempotency then 1 else 0
  }

  function CardUnder(s: M.Mem, key: string): Uuid {
    if key in s.idempotency && s.idempotency[key].CardReply? then s.idempotency[key].card.id else 0
  }

  ghost predicate Tracked(s: M.Mem, key: string) { AtStage(s, key, Stage(s, key), CardUnder(s, key)) }

  lemma StageIs(s: M.Mem, key: string, n: nat, c: Uuid)
    requires AtStage(s, key, n, c)
    ensures Stage(s, key) == n && (n >= 1 ==> CardUnder(s, key) == c) && Tracked(s, key)
  {
    KeysDiffer(key);
  }

  /** Different names have different cards. */
  ghost predicate OwnCards(s: M.Mem, names: set<Name>) {
    forall a, b :: a in names && b in names && a != b && Stage(s, a.Key()) >= 1 && Stage(s, b.Key()) >= 1 ==>
      CardUnder(s, a.Key()) != CardUnder(s, b.Key())
  }

  ghost predicate Family(s: M.Mem, names: set<Name>) {
    (forall a :: a in names ==> Tracked(s, a.Key())) && OwnCards(s, names)
  }

  /** The names are of real keys, and no two of them store anything under a common key. */
  predicate Compatible(names: set<Name>) {
    && (forall a :: a in names ==> a.dedup != "")
    && (forall a, b :: a in names && b in names && a != b ==> Apart(a.Key(), b.Key()))
  }

  datatype Turn = Delivered(d: Delivery, now: Time, base: Uuid, cut: nat) | Other(call: Call)

  ghost function After(s: M.Mem, t: Turn): M.Mem {
    match t
    case Delivered(d, now, base, cut) => Deliver(s, d, now, base, cut).after
    case Other(call) => M.Step(s, call).after
  }

  ghost function Turns(s: M.Mem, turns: seq<Turn>): M.Mem {
    if turns == [] then s else After(Turns(s, turns[..|turns| - 1]), turns[|turns| - 1])
  }

  /** A delivery under one of the names, or a call that uses none of their keys and records none of their
      events on their cards. */
  ghost predicate Suits(s: M.Mem, names: set<Name>, t: Turn) {
    match t
    case Delivered(d, now, base, cut) => NameOf(d) in names && base !in s.cards && base !in s.leases
    case Other(call) =>
      && MR.FreshIds(s, call)
      && forall a :: a in names ==> LeavesAlone(call.req, a.Key(), Stage(s, a.Key()), CardUnder(s, a.Key()))
  }

  ghost predicate AllSuit(s: M.Mem, names: set<Name>, turns: seq<Turn>) {
    turns == [] ||
    (AllSuit(s, names, turns[..|turns| - 1]) && Suits(Turns(s, turns[..|turns| - 1]), names, turns[|turns| - 1]))
  }

  /** What a turn answered, if it was a delivery under the name that ran to its end without raising. */
  ghost function Answer(s: M.Mem, t: Turn, a: Name): Option<Card> {
    match t
    case Delivered(d, now, base, cut) =>
      var p := Deliver(s, d, now, base, cut);
      if NameOf(d) == a && p.result.Some? && p.result.value.Ok? then Some(p.result.value.value) else None
    case Other(_) => None
  }

  /** What each turn of a run answered under the name. */
  ghost function Answers(s: M.Mem, turns: seq<Turn>, a: Name): (answers: seq<Option<Card>>)
    ensures |answers| == |turns|
  {
    if turns == [] then []
    else Answers(s, turns[..|turns| - 1], a) + [Answer(Turns(s, turns[..|turns| - 1]), turns[|turns| - 1], a)]
  }

  // ---- one turn ----------------------------------------------------------------------------

  /** The turn moves the name on: its stage does not go back, its card stays, and a new one is new. */
  ghost predicate MovesOn(s: M.Mem, t: M.Mem, key: string) {
    && Tracked(t, key) && Stage(s, key) <= Stage(t, key)
    && (Stage(s, key) >= 1 ==> CardUnder(t, key) == CardUnder(s, key))
    && (Stage(s, key) == 0 && Stage(t, key) >= 1 ==> CardUnder(t, key) !in s.cards)
  }

  ghost predicate Unmoved(s: M.Mem, t: M.Mem, key: string) {
    Tracked(t, key) && Stage(t, key) == Stage(s, key) && (Stage(s, key) >= 1 ==> CardUnder(t, key) == CardUnder(s, key))
  }

  lemma OwnTurn(s: M.Mem, d: Delivery, now: Time, base: Uuid, cut: nat)
    requires d.dedup != "" && Tracked(s, NameOf(d).Key()) && base !in s.cards
    ensures var t, key := Deliver(s, d, now, base, cut).after, NameOf(d).Key();
      && MovesOn(s, t, key)
      && t.cards.Keys == s.cards.Keys + (if Stage(s, key) == 0 && Stage(t, key) >= 1 then {CardUnder(t, key)} else {})
      && var answer := Answer(s, Delivered(d, now, base, cut), NameOf(d));
         answer.Some? ==> Stage(t, key) == 3 && answer.value.id == CardUnder(t, key)
  {
    var key := NameOf(d).Key();
    var m, b := DeliveryAdvances(s, d, now, base, cut, Stage(s, key), CardUnder(s, key));
    StageIs(Deliver(s, d, now, base, cut).after, key, m, b);
  }

  lemma ForeignTurn(s: M.Mem, names: set<Name>, d: Delivery, now: Time, base: Uuid, cut: nat, a: Name)
    requires Compatible(names) && Family(s, names) && Suits(s, names, Delivered(d, now, base, cut)) && a in names && a != NameOf(d)
    ensures Unmoved(s, Deliver(s, d, now, base, cut).after, a.Key())
  {
    var own := NameOf(d).Key();
    ForeignDelivery(s, d, now, base, cut, a.Key(), Stage(s, a.Key()), CardUnder(s, a.Key()), Stage(s, own), CardUnder(s, own));
    StageIs(Deliver(s, d, now, base, cut).after, a.Key(), Stage(s, a.Key()), CardUnder(s, a.Key()));
  }

  lemma OtherTurn(s: M.Mem, names: set<Name>, call: Call, a: Name)
    requires Family(s, names) && Suits(s, names, Other(call)) && a in names
    ensures Unmoved(s, M.Step(s, call).after, a.Key())
  {
    OtherCallKeepsStage(s, call, a.Key(), Stage(s, a.Key()), CardUnder(s, a.Key()));
    StageIs(M.Step(s, call).after, a.Key(), Stage(s, a.Key()), CardUnder(s, a.Key()));
  }

  /** The name a turn delivers under moves on, and every other name stays where it is. */
  lemma OneTurn(s: M.Mem, names: set<Name>, t: Turn, a: Name)
    requires Compatible(names) && Family(s, names) && Suits(s, names, t) && a in names
    ensures if t.Delivered? && NameOf(t.d) == a then MovesOn(s, After(s, t), a.Key()) else Unmoved(s, After(s, t), a.Key())
    ensures Answer(s, t, a).Some? ==> Stage(After(s, t), a.Key()) == 3 && Answer(s, t, a).value.id == CardUnder(After(s, t), a.Key())
  {
    match t
    case Delivered(d, now, base, cut) =>
      if NameOf(d) == a { OwnTurn(s, d, now, base, cut); } else { ForeignTurn(s, names, d, now, base, cut, a); }
    case Other(call) => OtherTurn(s, names, call, a);
  }

  lemma TurnKeepsFamily(s: M.Mem, names: set<Name>, t: Turn)
    requires Compatible(names) && Family(s, names) && Suits(s, names, t)
    ensures Family(After(s, t), names)
  {
    forall a | a in names
      ensures Tracked(After(s, t), a.Key())
    { OneTurn(s, names, t, a); }
    forall a, b | a in names && b in names && a != b && Stage(After(s, t), a.Key()) >= 1 && Stage(After(s, t), b.Key()) >= 1
      ensures CardUnder(After(s, t), a.Key()) != CardUnder(After(s, t), b.Key())
    {
      OneTurn(s, names, t, a);
      OneTurn(s, names, t, b);
      assert Tracked(s, a.Key()) && Tracked(s, b.Key());
    }
  }

  // ---- exactly once, for every name --------------------------------------------------------

  /** Every answer names card `c`, and then all three calls have happened. */
  predicate AllAnswer(answers: seq<Option<Card>>, n: nat, c: Uuid) {
    forall i :: 0 <= i < |answers| && answers[i].Some? ==> n == 3 && answers[i].value.id == c
  }

  /** No call under the name's keys has happened. */
  ghost predicate Unused(s: M.Mem, names: set<Name>) { forall a :: a in names ==> AtStage(s, a.Key(), 0, 0) }

  lemma UnusedIsFamily(s: M.Mem, names: set<Name>)
    requires Unused(s, names)
    ensures Family(s, names) && forall a :: a in names ==> Stage(s, a.Key()) == 0
  {
    forall a | a in names ensures Tracked(s, a.Key()) && Stage(s, a.Key()) == 0 { StageIs(s, a.Key(), 0, 0); }
  }

  lemma {:induction false} RunKeepsFamily(s: M.Mem, names: set<Name>, turns: seq<Turn>)
    requires Compatible(names) && Unused(s, names) && AllSuit(s, names, turns)
    ensures Family(Turns(s, turns), names)
  {
    UnusedIsFamily(s, names);
    if turns != [] {
      RunKeepsFamily(s, names, turns[..|turns| - 1]);
      TurnKeepsFamily(Turns(s, turns[..|turns| - 1]), names, turns[|turns| - 1]);
    }
  }

  lemma AllAnswerOn(answers: seq<Option<Card>>, answer: Option<Card>, n: nat, c: Uuid, m: nat, b: Uuid)
    requires AllAnswer(answers, n, c) && n <= m <= 3 && (n >= 1 ==> b == c)
    requires answer.Some? ==> m == 3 && answer.value.id == b
    ensures AllAnswer(answers + [answer], m, b)
  {
  }

  lemma {:induction false} RunAnswers(s: M.Mem, names: set<Name>, turns: seq<Turn>, a: Name)
    requires Compatible(names) && Unused(s, names) && AllSuit(s, names, turns) && a in names
    ensures AllAnswer(Answers(s, turns, a), Stage(Turns(s, turns), a.Key()), CardUnder(Turns(s, turns), a.Key()))
  {
    if turns != [] {
      var front, last := turns[..|turns| - 1], turns[|turns| - 1];
      var mid := Turns(s, front);
      RunAnswers(s, names, front, a);
      RunKeepsFamily(s, names, front);
      OneTurn(mid, names, last, a);
      AllAnswerOn(Answers(s, front, a), Answer(mid, last, a), Stage(mid, a.Key()), CardUnder(mid, a.Key()),
                  Stage(After(mid, last), a.Key()), CardUnder(After(mid, last), a.Key()));
    }
  }

  predicate AllDeliveries(turns: seq<Turn>) { forall t :: t in turns ==> t.Delivered? }

  /** The cards made under the names so far. */
  function Made(s: M.Mem, names: set<Name>): set<Uuid> {
    set a | a in names && Stage(s, a.Key()) >= 1 :: CardUnder(s, a.Key())
  }

  lemma MadeAreKnown(s: M.Mem, names: set<Name>)
    requires Family(s, names)
    ensures Made(s, names) <= s.cards.Keys
  {
    forall c | c in Made(s, names)
      ensures c in s.cards
    {
      var a :| a in names && Stage(s, a.Key()) >= 1 && CardUnder(s, a.Key()) == c;
      assert Tracked(s, a.Key());
    }
  }

  lemma MadeMoves(s: M.Mem, u: M.Mem, names: set<Name>, own: Name)
    requires own in names && (Stage(s, own.Key()) >= 1 ==> Stage(u, own.Key()) >= 1 && CardUnder(u, own.Key()) == CardUnder(s, own.Key()))
    requires forall a :: a in names && a != own ==> Unmoved(s, u, a.Key())
    ensures Made(u, names) == Made(s, names) + if Stage(u, own.Key()) >= 1 then {CardUnder(u, own.Key())} else {}
  {
    forall a | a in names && Stage(s, a.Key()) >= 1
      ensures CardUnder(s, a.Key()) in Made(u, names)
    { assert a == own || Unmoved(s, u, a.Key()); }
    forall a | a in names && a != own && Stage(u, a.Key()) >= 1
      ensures CardUnder(u, a.Key()) in Made(s, names)
    { assert Unmoved(s, u, a.Key()); }
  }

  lemma GrowsByMade(s: M.Mem, u: M.Mem, names: set<Name>, own: Name)
    requires own in names && Family(s, names) && MovesOn(s, u, own.Key())
    requires u.cards.Keys == s.cards.Keys + if Stage(s, own.Key()) == 0 && Stage(u, own.Key()) >= 1 then {CardUnder(u, own.Key())} else {}
    requires forall a :: a in names && a != own ==> Unmoved(s, u, a.Key())
    ensures u.cards.Keys == s.cards.Keys + Made(u, names) && Made(s, names) <= Made(u, names)
  {
    MadeMoves(s, u, names, own);
    MadeAreKnown(s, names);
    assert Tracked(u, own.Key());
  }

  /** Deliveries add exactly the cards made under their names. */
  lemma DeliveryMakes(s: M.Mem, names: set<Name>, t: Turn)
    requires Compatible(names) && Family(s, names) && Suits(s, names, t) && t.Delivered?
    ensures After(s, t).cards.Keys == s.cards.Keys + Made(After(s, t), names) && Made(s, names) <= Made(After(s, t), names)
  {
    OwnTurn(s, t.d, t.now, t.base, t.cut);
    forall a | a in names && a != NameOf(t.d)
      ensures Unmoved(s, After(s, t), a.Key())
    { OneTurn(s, names, t, a); }
    GrowsByMade(s, After(s, t), names, NameOf(t.d));
  }

  lemma {:induction false} RunMakes(s: M.Mem, names: set<Name>, turns: seq<Turn>)
    requires Compatible(names) && Unused(s, names) && AllSuit(s, names, turns) && AllDeliveries(turns)
    ensures Turns(s, turns).cards.Keys == s.cards.Keys + Made(Turns(s, turns), names)
  {
    UnusedIsFamily(s, names);
    if turns != [] {
      var front, last := turns[..|turns| - 1], turns[|turns| - 1];
      assert last in turns;
      RunMakes(s, names, front);
      RunKeepsFamily(s, names, front);
      DeliveryMakes(Turns(s, front), names, last);
    }
  }

  /** Deliveries under any number of names, repeated, cut short anywhere and mixed with each other and with
      other calls: once one under a name has run to its end there is one card that every such delivery
      under the name answers and none under another name does, and its history holds each of the three
      events exactly once. Deliveries alone add one card for each name whose creation has happened. */
  lemma DeliveredExactlyOnce(s: M.Mem, names: set<Name>, turns: seq<Turn>, a: Name, k: nat) returns (c: Uuid)
    requires Compatible(names) && Unused(s, names) && AllSuit(s, names, turns) && a in names
    requires k < |turns| && Answers(s, turns, a)[k].Some?
    ensures var t := Turns(s, turns); c in t.cards && c in t.events && Counts(t.events[c], 1, 1, 1)
    ensures AllAnswer(Answers(s, turns, a), 3, c)
    ensures forall b, j :: b in names && b != a && 0 <= j < |turns| && Answers(s, turns, b)[j].Some? ==>
      Answers(s, turns, b)[j].value.id != c
    ensures AllDeliveries(turns) ==> Turns(s, turns).cards.Keys == s.cards.Keys + Made(Turns(s, turns), names)
  {
    var t := Turns(s, turns);
    c := CardUnder(t, a.Key());
    RunKeepsFamily(s, names, turns);
    RunAnswers(s, names, turns, a);
    forall b, j | b in names && b != a && 0 <= j < |turns| && Answers(s, turns, b)[j].Some?
      ensures Answers(s, turns, b)[j].value.id != c
    { RunAnswers(s, names, turns, b); }
    if AllDeliveries(turns) { RunMakes(s, names, turns); }
  }
}
