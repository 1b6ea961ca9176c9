/** Runs of the genesis service among registry and runtime calls (genesis/service.py). */
module GenesisRuns {
  import opened Prelude
  import opened Encoding
  import opened Domain
  import opened Requests
  import opened Executor
  import opened Genesis
  import M = Memory
  import X = ExactlyOnce
  import R = Registry

  datatype Op =
    | Receiving(asked: Intent, proposeIfMissing: bool)
    | LaunchingOp(intentId: Uuid, entryId: Option<Uuid>, now: Time, base: Uuid)
    | ProposingOp(intentId: Uuid, proposedBy: string, candidate: PatchPanel, details: RegistryMetadata, now: Time, base: Uuid)
    | Registering(entry: R.Entry)
    | Editing(edit: R.Edit)
    | RuntimeCall(call: Call)

  ghost function Do(o: Office, op: Op): Office {
    match op
    case Receiving(asked, proposeIfMissing) => Receive(o, asked, proposeIfMissing).after
    case LaunchingOp(intentId, entryId, now, base) => Launching(o, intentId, entryId, now, base).after
    case ProposingOp(intentId, proposedBy, candidate, details, now, base) =>
      Proposing(o, intentId, proposedBy, candidate, details, now, base).after
    case Registering(entry) => o.(shelf := R.Shelve(o.shelf, entry))
    case Editing(edit) => var edited := R.Edits(o.shelf, edit); if edited.Ok? then o.(shelf := edited.value) else o
    case RuntimeCall(call) => o.(mem := M.Step(o.mem, call).after)
  }

  ghost function Run(o: Office, ops: seq<Op>): Office {
    if ops == [] then o else Do(Run(o, ops[..|ops| - 1]), ops[|ops| - 1])
  }

  const OPENED := Office(M.Fresh, R.BARE, Desk(map[], map[]))

  /** The ids drawn for an intent or an entry are new. */
  predicate DrawsNew(o: Office, op: Op) {
    && (op.Receiving? ==> op.asked.id !in o.desk.intents)
    && (op.Registering? ==> op.entry.id !in o.shelf.entries)
  }

  ghost predicate AllDrawNew(o: Office, ops: seq<Op>) {
    ops == [] || (AllDrawNew(o, ops[..|ops| - 1]) && DrawsNew(Run(o, ops[..|ops| - 1]), ops[|ops| - 1]))
  }

  // ---- what every run keeps ----------------------------------------------------------------

  ghost predicate Orderly(o: Office) {
    M.Valid(o.mem) && X.NothingFalsy(o.mem) && Indexed(o.desk) && R.Kept(o.shelf)
  }

  /** The same intent, however far it has got: the same key, wishes and candidates. */
  predicate SameIntent(a: Intent, b: Intent) {
    b == a.(status := b.status, selected := b.selected, launched := b.launched, proposal := b.proposal)
  }

  /** The same entry, whatever its metadata says by now. */
  predicate SameEntry(a: R.Entry, b: R.Entry) {
    b == a.(details := b.details, supersedes := b.supersedes)
  }

  /** No intent, key or entry is lost or becomes another. */
  ghost predicate Continues(o: Office, p: Office) {
    DeskContinues(o.desk, p.desk) && ShelfContinues(o.shelf, p.shelf)
  }

  predicate DeskContinues(d: Desk, e: Desk) {
    && (forall id :: id in d.intents ==> id in e.intents && SameIntent(d.intents[id], e.intents[id]))
    && (forall k :: k in d.index ==> k in e.index && e.index[k] == d.index[k])
  }

  predicate ShelfContinues(s: R.Shelf, t: R.Shelf) {
    forall e :: e in s.entries ==> e in t.entries && SameEntry(s.entries[e], t.entries[e])
  }

  lemma ContinuesOn(o: Office, p: Office, q: Office)
    requires Continues(o, p) && Continues(p, q)
    ensures Continues(o, q)
  {
  }

  lemma AddingIntent(d: Desk, intent: Intent)
    requires Indexed(d) && intent.id !in d.intents && intent.dedup !in d.index
    ensures var e := Desk(d.intents[intent.id := intent], d.index[intent.dedup := intent.id]); Indexed(e) && DeskContinues(d, e)
  {
  }

  lemma UpdatingIntent(d: Desk, intent: Intent)
    requires Indexed(d) && intent.id in d.intents && SameIntent(d.intents[intent.id], intent)
    ensures Indexed(Updated(d, intent)) && DeskContinues(d, Updated(d, intent))
  {
  }

  /** The desk gains an intent under a new key, or one of its intents gets further, or nothing happens. */
  ghost predicate DeskMoves(d: Desk, e: Desk) {
    || e == d
    || (exists i: Intent :: i.id !in d.intents && i.dedup !in d.index && e == Desk(d.intents[i.id := i], d.index[i.dedup := i.id]))
    || (exists i: Intent :: i.id in d.intents && SameIntent(d.intents[i.id], i) && e == Updated(d, i))
  }

  lemma MovedDeskContinues(d: Desk, e: Desk)
    requires Indexed(d) && DeskMoves(d, e)
    ensures Indexed(e) && DeskContinues(d, e)
  {
    if i: Intent :| i.id !in d.intents && i.dedup !in d.index && e == Desk(d.intents[i.id := i], d.index[i.dedup := i.id]) {
      AddingIntent(d, i);
    } else if i: Intent :| i.id in d.intents && SameIntent(d.intents[i.id], i) && e == Updated(d, i) {
      UpdatingIntent(d, i);
    }
  }

  lemma ReceivingMoves(o: Office, asked: Intent, proposeIfMissing: bool)
    requires asked.id !in o.desk.intents
    ensures var p := Receive(o, asked, proposeIfMissing).after; DeskMoves(o.desk, p.desk) && p.shelf == o.shelf
  {
    if asked.dedup !in o.desk.index {
      var i := Prepared(o.shelf, asked, proposeIfMissing);
      assert i.id !in o.desk.intents && i.dedup !in o.desk.index;
    }
  }

  lemma LaunchingMoves(o: Office, intentId: Uuid, entryId: Option<Uuid>, now: Time, base: Uuid)
    requires Indexed(o.desk)
    ensures var p := Launching(o, intentId, entryId, now, base).after; DeskMoves(o.desk, p.desk) && p.shelf == o.shelf
  {
    var p := Launching(o, intentId, entryId, now, base).after;
    if p.desk != o.desk {
      var i := p.desk.intents[intentId];
      assert i.id in o.desk.intents && SameIntent(o.desk.intents[i.id], i) && p.desk == Updated(o.desk, i);
    }
  }

  lemma ProposingMoves(o: Office, intentId: Uuid, proposedBy: string, candidate: PatchPanel, details: RegistryMetadata,
    now: Time, base: Uuid)
    requires Indexed(o.desk)
    ensures var p := Proposing(o, intentId, proposedBy, candidate, details, now, base).after;
      DeskMoves(o.desk, p.desk) && p.shelf == o.shelf
  {
    var p := Proposing(o, intentId, proposedBy, candidate, details, now, base).after;
    if p.desk != o.desk {
      var i := p.desk.intents[intentId];
      assert i.id in o.desk.intents && SameIntent(o.desk.intents[i.id], i) && p.desk == Updated(o.desk, i);
    }
  }

  lemma OpMovesDesk(o: Office, op: Op)
    requires Indexed(o.desk) && DrawsNew(o, op) && (op.Receiving? || op.LaunchingOp? || op.ProposingOp?)
    ensures DeskMoves(o.desk, Do(o, op).desk) && Do(o, op).shelf == o.shelf
  {
    match op
    case Receiving(asked, proposeIfMissing) => ReceivingMoves(o, asked, proposeIfMissing);
    case LaunchingOp(intentId, entryId, now, base) => LaunchingMoves(o, intentId, entryId, now, base);
    case ProposingOp(intentId, proposedBy, candidate, details, now, base) =>
      ProposingMoves(o, intentId, proposedBy, candidate, details, now, base);
  }

  lemma OpMovesShelf(o: Office, op: Op)
    requires R.Kept(o.shelf) && DrawsNew(o, op) && (op.Registering? || op.Editing? || op.RuntimeCall?)
    ensures R.Kept(Do(o, op).shelf) && ShelfContinues(o.shelf, Do(o, op).shelf) && Do(o, op).desk == o.desk
  {
    match op
    case Registering(entry) => R.ShelvingKeeps(o.shelf, entry);
    case Editing(edit) =>
      if edit.id in o.shelf.entries && R.Edited(o.shelf.entries[edit.id], edit).Ok? {
        R.ShelvingKeeps(o.shelf, R.Edited(o.shelf.entries[edit.id], edit).value);
      }
    case RuntimeCall(_) =>
  }

  /** The runtime calls an operation makes. */
  ghost function CallsOf(o: Office, op: Op): seq<Call> {
    match op
    case LaunchingOp(intentId, entryId, now, base) =>
      (match LaunchChecks(o.desk, o.shelf.entries, intentId, entryId)
       case Err(_) => []
       case Ok((intent, entry)) => [Call(LaunchRequest(intent, entry), now, base)])
    case ProposingOp(intentId, proposedBy, candidate, details, now, base) =>
      if intentId !in o.desk.intents then []
      else [Call(ProposeRequest(o.desk.intents[intentId], proposedBy, candidate, details), now, base)]
    case RuntimeCall(call) => [call]
    case _ => []
  }

  lemma OpCalls(o: Office, op: Op)
    ensures |CallsOf(o, op)| <= 1
    ensures Do(o, op).mem == if CallsOf(o, op) == [] then o.mem else M.Step(o.mem, CallsOf(o, op)[0]).after
  {
    match op
    case LaunchingOp(intentId, entryId, now, base) =>
      var checked := LaunchChecks(o.desk, o.shelf.entries, intentId, entryId);
      if checked.Ok? { StepFits(o.mem, Call(LaunchRequest(checked.value.0, checked.value.1), now, base)); }
    case ProposingOp(intentId, proposedBy, candidate, details, now, base) =>
      if intentId in o.desk.intents {
        StepFits(o.mem, Call(ProposeRequest(o.desk.intents[intentId], proposedBy, candidate, details), now, base));
      }
    case _ =>
  }

  lemma OpKeepsOrder(o: Office, op: Op)
    requires Orderly(o) && DrawsNew(o, op)
    ensures Orderly(Do(o, op)) && Continues(o, Do(o, op))
  {
    if op.Registering? || op.Editing? || op.RuntimeCall? {
      OpMovesShelf(o, op);
    } else {
      OpMovesDesk(o, op);
      MovedDeskContinues(o.desk, Do(o, op).desk);
    }
    OpCalls(o, op);
    if CallsOf(o, op) != [] {
      M.StepKeepsValid(o.mem, CallsOf(o, op)[0]);
      X.StepKeepsTruthy(o.mem, CallsOf(o, op)[0]);
    }
  }

  /** Every run keeps the index of intents by their keys, and loses no intent and no entry. */
  lemma {:induction false} RunKeepsOrder(o: Office, ops: seq<Op>)
    requires Orderly(o) && AllDrawNew(o, ops)
    ensures Orderly(Run(o, ops)) && Continues(o, Run(o, ops))
  {
    if ops != [] {
      var mid := Run(o, ops[..|ops| - 1]);
      RunKeepsOrder(o, ops[..|ops| - 1]);
      OpKeepsOrder(mid, ops[|ops| - 1]);
      ContinuesOn(o, mid, Run(o, ops));
    }
  }

  ghost function AllCalls(o: Office, ops: seq<Op>): seq<Call> {
    if ops == [] then []
    else AllCalls(o, ops[..|ops| - 1]) + CallsOf(Run(o, ops[..|ops| - 1]), ops[|ops| - 1])
  }

  lemma {:induction false} RunCalls(o: Office, ops: seq<Op>)
    ensures Run(o, ops).mem == M.Run(o.mem, AllCalls(o, ops))
  {
    if ops != [] {
      var front, mid := ops[..|ops| - 1], Run(o, ops[..|ops| - 1]);
      var more := CallsOf(mid, ops[|ops| - 1]);
      RunCalls(o, front);
      OpCalls(mid, ops[|ops| - 1]);
      X.RunConcat(o.mem, AllCalls(o, front), more);
      if more != [] {
        X.RunOne(mid.mem, more[0]);
        assert more == [more[0]];
      }
    }
  }

  // ---- once --------------------------------------------------------------------------------

  /** In every run, receiving a deduplication key again, whatever happened in between, changes nothing and
      answers the intent first received under it, with the candidates it had then. */
  lemma ReceivedOnceInRuns(before: seq<Op>, asked: Intent, proposeIfMissing: bool, between: seq<Op>, again: Intent, b: bool)
    requires AllDrawNew(OPENED, before) && asked.id !in Run(OPENED, before).desk.intents && again.dedup == asked.dedup
    requires AllDrawNew(Receive(Run(OPENED, before), asked, proposeIfMissing).after, between)
    ensures var first := Receive(Run(OPENED, before), asked, proposeIfMissing);
      var later := Run(first.after, between);
      && Receive(later, again, b).after == later
      && first.result.Ok? && Receive(later, again, b).result.Ok?
      && SameIntent(first.result.value, Receive(later, again, b).result.value)
  {
    var o := Run(OPENED, before);
    var first := Receive(o, asked, proposeIfMissing);
    RunKeepsOrder(OPENED, before);
    OpKeepsOrder(o, Receiving(asked, proposeIfMissing));
    RunKeepsOrder(first.after, between);
    ReceivedAgain(o, asked, proposeIfMissing, Run(first.after, between), again, b);
  }

  lemma ReceivedAgain(o: Office, asked: Intent, proposeIfMissing: bool, later: Office, again: Intent, b: bool)
    requires Indexed(o.desk) && asked.id !in o.desk.intents && again.dedup == asked.dedup
    requires Continues(Receive(o, asked, proposeIfMissing).after, later)
    ensures var first := Receive(o, asked, proposeIfMissing);
      && Receive(later, again, b).after == later
      && first.result.Ok? && Receive(later, again, b).result.Ok?
      && SameIntent(first.result.value, Receive(later, again, b).result.value)
  {
    ReceivedOnce(o, asked, proposeIfMissing);
  }

  /** The launch asks the runtime for a card under the key of the intent and the selected entry. */
  lemma LaunchCalls(o: Office, intentId: Uuid, entryId: Option<Uuid>, now: Time, base: Uuid)
    requires Launching(o, intentId, entryId, now, base).result.Ok?
    ensures LaunchChecks(o.desk, o.shelf.entries, intentId, entryId).Ok?
    ensures var (intent, entry) := LaunchChecks(o.desk, o.shelf.entries, intentId, entryId).value;
      var done, step := Launching(o, intentId, entryId, now, base), M.Step(o.mem, Call(LaunchRequest(intent, entry), now, base));
      step.result == Ok(CardReply(done.result.value)) && done.after.mem == step.after
  {
    var (intent, entry) := LaunchChecks(o.desk, o.shelf.entries, intentId, entryId).value;
    StepFits(o.mem, Call(LaunchRequest(intent, entry), now, base));
  }

  /** An intent and entry that could be launched can be launched ever after, under the same key. */
  lemma LaunchableStays(o: Office, p: Office, intentId: Uuid, entryId: Option<Uuid>, other: Option<Uuid>)
    requires Orderly(o) && Orderly(p) && Continues(o, p) && LaunchChecks(o.desk, o.shelf.entries, intentId, entryId).Ok?
    requires Selected(o.desk.intents[intentId], other) == Selected(o.desk.intents[intentId], entryId)
    ensures LaunchChecks(p.desk, p.shelf.entries, intentId, other).Ok?
    ensures var (i, e) := LaunchChecks(o.desk, o.shelf.entries, intentId, entryId).value;
      var (j, f) := LaunchChecks(p.desk, p.shelf.entries, intentId, other).value;
      LaunchRequest(j, f).key == LaunchRequest(i, e).key
  {
  }

  lemma LaunchReplays(o: Office, intentId: Uuid, entryId: Option<Uuid>, now: Time, base: Uuid, stored: Card)
    requires LaunchChecks(o.desk, o.shelf.entries, intentId, entryId).Ok?
    requires var (intent, entry) := LaunchChecks(o.desk, o.shelf.entries, intentId, entryId).value;
      M.Step(o.mem, Call(LaunchRequest(intent, entry), now, base)) == M.Outcome(o.mem, Ok(CardReply(stored)))
    ensures Launching(o, intentId, entryId, now, base).result == Ok(stored)
    ensures Launching(o, intentId, entryId, now, base).after.mem == o.mem
  {
    var (intent, entry) := LaunchChecks(o.desk, o.shelf.entries, intentId, entryId).value;
    StepFits(o.mem, Call(LaunchRequest(intent, entry), now, base));
  }

  /** In every run, once a launch has made its card, every later launch of the same intent on the same entry,
      named or taken as the first candidate, answers that card and adds none, whatever came between. */
  lemma LaunchedOnce(before: seq<Op>, intentId: Uuid, entryId: Option<Uuid>, now: Time, base: Uuid, between: seq<Op>,
    other: Option<Uuid>, moment: Time, drawn: Uuid)
    requires AllDrawNew(OPENED, before) && Launching(Run(OPENED, before), intentId, entryId, now, base).result.Ok?
    requires AllDrawNew(Launching(Run(OPENED, before), intentId, entryId, now, base).after, between)
    requires intentId in Run(OPENED, before).desk.intents
    requires var intent := Run(OPENED, before).desk.intents[intentId]; Selected(intent, other) == Selected(intent, entryId)
    ensures var first := Launching(Run(OPENED, before), intentId, entryId, now, base);
      var later := Run(first.after, between);
      && Launching(later, intentId, other, moment, drawn).result == first.result
      && Launching(later, intentId, other, moment, drawn).after.mem == later.mem
  {
    RunKeepsOrder(OPENED, before);
    LaunchedOnceFrom(Run(OPENED, before), intentId, entryId, now, base, between, other, moment, drawn);
  }

  lemma LaunchedOnceFrom(o: Office, intentId: Uuid, entryId: Option<Uuid>, now: Time, base: Uuid, between: seq<Op>,
    other: Option<Uuid>, moment: Time, drawn: Uuid)
    requires Orderly(o) && Launching(o, intentId, entryId, now, base).result.Ok? && intentId in o.desk.intents
    requires AllDrawNew(Launching(o, intentId, entryId, now, base).after, between)
    requires Selected(o.desk.intents[intentId], other) == Selected(o.desk.intents[intentId], entryId)
    ensures var first := Launching(o, intentId, entryId, now, base);
      var later := Run(first.after, between);
      && Launching(later, intentId, other, moment, drawn).result == first.result
      && Launching(later, intentId, other, moment, drawn).after.mem == later.mem
  {
    var mid := Launching(o, intentId, entryId, now, base).after;
    OpKeepsOrder(o, LaunchingOp(intentId, entryId, now, base));
    RunKeepsOrder(mid, between);
    ContinuesOn(o, mid, Run(mid, between));
    RunCalls(mid, between);
    LaunchedAgain(o, intentId, entryId, now, base, AllCalls(mid, between), Run(mid, between), other, moment, drawn);
  }

  lemma LaunchedAgain(o: Office, intentId: Uuid, entryId: Option<Uuid>, now: Time, base: Uuid, between: seq<Call>,
    later: Office, other: Option<Uuid>, moment: Time, drawn: Uuid)
    requires Orderly(o) && Orderly(later) && Continues(o, later) && intentId in o.desk.intents
    requires Launching(o, intentId, entryId, now, base).result.Ok?
    requires later.mem == M.Run(Launching(o, intentId, entryId, now, base).after.mem, between)
    requires Selected(o.desk.intents[intentId], other) == Selected(o.desk.intents[intentId], entryId)
    ensures var first := Launching(o, intentId, entryId, now, base);
      && Launching(later, intentId, other, moment, drawn).result == first.result
      && Launching(later, intentId, other, moment, drawn).after.mem == later.mem
  {
    LaunchCalls(o, intentId, entryId, now, base);
    LaunchableStays(o, later, intentId, entryId, other);
    var (i, e) := LaunchChecks(o.desk, o.shelf.entries, intentId, entryId).value;
    var (j, f) := LaunchChecks(later.desk, later.shelf.entries, intentId, other).value;
    var card := Launching(o, intentId, entryId, now, base).result.value;
    LaunchKeyReplays(o.mem, LaunchRequest(i, e), now, base, between, LaunchRequest(j, f), moment, drawn);
    LaunchReplays(later, intentId, other, moment, drawn, card);
  }

  lemma LaunchKeyReplays(s: M.Mem, req: Request, now: Time, base: Uuid, between: seq<Call>, again: Request, moment: Time, drawn: Uuid)
    requires M.Valid(s) && X.NothingFalsy(s) && req.CreateCard? && again.CreateCard? && again.key == req.key && Truthy(req.key)
    requires M.Step(s, Call(req, now, base)).result.Ok? && M.Step(s, Call(req, now, base)).result.value.CardReply?
    ensures var first := M.Step(s, Call(req, now, base));
      var later := M.Run(first.after, between);
      M.Step(later, Call(again, moment, drawn)) == M.Outcome(later, first.result)
  {
    X.ReplayAnswersFirstResult(s, Call(req, now, base), between, Call(again, moment, drawn));
  }
}
