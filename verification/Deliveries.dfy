/**
 Ingress deliveries (boundaries.py, nodes/executor.py): a source boundary turns one external
 payload into three runtime calls under three derived keys, and may be cut short between them.
 */
module Deliveries {
  import opened Prelude
  import opened Encoding
  import opened Domain
  import opened Requests
  import opened Workflows
  import opened Executor
  import opened MemoryRuntime
  import A = Machine
  import T = MachineTheorems
  import M = Memory
  import MR = MemoryRefinement
  import X = ExactlyOnce

  // ---- derived keys ------------------------------------------------------------------------

  function SourceKey(panelId: string, sourceId: string, dedup: string): string {
    "boundary-source:" + panelId + ":" + sourceId + ":" + dedup
  }

  const SUFFIXES: set<string> := {"", ":source", ":event"}

  lemma EndsAgree(prefix: string, a: string, b: string)
    ensures prefix + a == prefix + b <==> a == b
  {
    assert (prefix + a)[|prefix|..] == a && (prefix + b)[|prefix|..] == b;
  }

  /** Two derived keys of one source collide exactly when the deduplication keys with their
      suffixes do. */
  lemma KeysCollideIff(panelId: string, sourceId: string, d: string, e: string, x: string, y: string)
    ensures SourceKey(panelId, sourceId, d) + x == SourceKey(panelId, sourceId, e) + y <==> d + x == e + y
  {
    var prefix := "boundary-source:" + panelId + ":" + sourceId + ":";
    assert SourceKey(panelId, sourceId, d) + x == prefix + (d + x);
    assert SourceKey(panelId, sourceId, e) + y == prefix + (e + y);
    EndsAgree(prefix, d + x, e + y);
  }

  lemma {:induction false} HeadsOfSuffixed(d: string, x: string)
    requires ':' !in d && x in SUFFIXES
    ensures x == "" ==> SplitFirst(d + x) == None
    ensures x != "" ==> SplitFirst(d + x) == Some((d, x[1..]))
  {
    if x == "" {
      assert d + x == d;
      NoColonNoSplit(d);
    } else {
      assert d + x == d + ":" + x[1..];
      SplitFirstIs(d, x[1..]);
    }
  }

  lemma {:induction false} NoColonNoSplit(d: string)
    requires ':' !in d
    ensures SplitFirst(d) == None
  {
    if d != "" { NoColonNoSplit(d[1..]); }
  }

  /** Colon-free deduplication keys never collide, whatever the suffixes. */
  lemma ColonFreeKeysNeverCollide(panelId: string, sourceId: string, d: string, e: string, x: string, y: string)
    requires ':' !in d && ':' !in e && x in SUFFIXES && y in SUFFIXES && (d != e || x != y)
    ensures SourceKey(panelId, sourceId, d) + x != SourceKey(panelId, sourceId, e) + y
  {
    KeysCollideIff(panelId, sourceId, d, e, x, y);
    HeadsOfSuffixed(d, x);
    HeadsOfSuffixed(e, y);
    assert d + "" == d && e + "" == e;
  }

  /** Nor do the keys of different sources, when panel and source ids have no colon either. */
  lemma SourcesNeverCollide(p: string, s: string, d: string, q: string, t: string, e: string)
    requires ':' !in p && ':' !in s && ':' !in q && ':' !in t
    ensures SourceKey(p, s, d) == SourceKey(q, t, e) <==> p == q && s == t && d == e
  {
    if SourceKey(p, s, d) == SourceKey(q, t, e) {
      var rest, other := p + ":" + (s + ":" + d), q + ":" + (t + ":" + e);
      assert SourceKey(p, s, d) == "boundary-source:" + rest && SourceKey(q, t, e) == "boundary-source:" + other;
      EndsAgree("boundary-source:", rest, other);
      SplitFirstIs(p, s + ":" + d);
      SplitFirstIs(q, t + ":" + e);
      SplitFirstIs(s, d);
      SplitFirstIs(t, e);
    }
  }

  // ---- one delivery ------------------------------------------------------------------------

  /** What a boundary request comes to once its payload is mapped: `dedup` is empty without a key. */
  datatype Delivery = Delivery(panelId: string, sourceId: string, dedup: string, payload: Json, metadata: Json,
    headers: Json, adapter: string, target: Option<string>)
  {
    function Key(): Option<string> {
      if dedup == "" then None else Some(SourceKey(panelId, sourceId, dedup))
    }

    function Metadata(): Json {
      var known := metadata["boundary_adapter" := Str(adapter)]["boundary_source" := Str(sourceId)];
      if dedup == "" then known else known["deduplication_key" := Str(dedup)]
    }

    function Note(): Json {
      map["adapter" := Str(adapter), "source_id" := Str(sourceId),
          "deduplication_key" := if dedup == "" then Null else Str(dedup), "headers" := Obj(headers)]
    }

    function Received(card: Uuid): Request {
      RecordEvent(card, "boundary_source_received", Some(sourceId), Note(), Derived(Key(), ":event"))
    }
  }

  /** The panel of a request, if its source is there and targets this version. */
  function Addressed(panels: map<string, PatchPanel>, d: Delivery): (r: Result<PatchPanel, Error>)
    ensures r.Ok? ==> d.panelId in panels && r.value == panels[d.panelId] && NodeOf(r.value.nodes, d.sourceId, Source).Ok?
  {
    if d.panelId !in panels then Err(NotFound)
    else
      var panel := panels[d.panelId];
      match NodeOf(panel.nodes, d.sourceId, Source)
      case Err(e) => Err(e)
      case Ok(_) =>
        if d.target.Some? && d.target.value != panel.WorkflowVersion() then Err(InvalidOperation) else Ok(panel)
  }

  /** `execute_source` of the boundary, cut short after `cut` runtime calls (three make it complete). */
  ghost function Deliver(s: M.Mem, d: Delivery, now: Time, base: Uuid, cut: nat): Progress<Card> {
    match Addressed(s.panels, d)
    case Err(e) => Progress(s, Some(Err(e)))
    case Ok(panel) =>
      var sourced := SourceRun(s, panel, d.sourceId, d.payload, d.Metadata(), d.Key(), now, base, cut);
      match sourced.result
      case Some(Ok(card)) =>
        if cut <= 2 then Progress(sourced.after, None)
        else
          var received := M.Step(sourced.after, Call(d.Received(card.id), now, base + 3));
          Progress(received.after, Some(if received.result.Ok? then Ok(card) else Err(received.result.error)))
      case _ => sourced
  }

  /** A source makes two runtime calls; a cut after them cuts nothing. */
  lemma CutLater(s: M.Mem, panel: PatchPanel, sourceId: string, payload: Json, metadata: Json, key: Option<string>,
    now: Time, base: Uuid)
    ensures SourceRun(s, panel, sourceId, payload, metadata, key, now, base, 3)
         == SourceRun(s, panel, sourceId, payload, metadata, key, now, base, 2)
  {
  }

  class BoundaryAdapterService {
    const runtime: InMemoryCardRuntime

    constructor (runtime: InMemoryCardRuntime)
      ensures this.runtime == runtime
    {
      this.runtime := runtime;
    }

    method ExecuteSource(d: Delivery, now: Time, base: Uuid) returns (r: Result<Card, Error>)
      requires runtime.Valid()
      modifies runtime
      ensures Progress(runtime.Snapshot(), Some(r)) == Deliver(old(runtime.Snapshot()), d, now, base, 3)
    {
      var addressed := Addressed(runtime.patchPanels, d);
      if addressed.Err? {
        return Err(addressed.error);
      }
      var panel := addressed.value;
      var executor := new NodeExecutor(panel, runtime, null);
      ghost var before := runtime.Snapshot();
      var sourced := executor.ExecuteSource(d.sourceId, d.payload, d.Metadata(), d.Key(), now, base);
      CutLater(before, panel, d.sourceId, d.payload, d.Metadata(), d.Key(), now, base);
      if sourced.Err? {
        return sourced;
      }
      var card := sourced.value;
      var received := executor.Note(card.id, "boundary_source_received", d.sourceId, d.Note(), Derived(d.Key(), ":event"),
                                    now, base + 3);
      r := if received.Ok? then Ok(card) else Err(received.error);
    }
  }

  // ---- how far deliveries under one key have got -------------------------------------------

  const DELIVERY_EVENTS: set<string> := {"card_created", "source_executed", "boundary_source_received"}

  function Count(history: seq<CardEvent>, eventType: string): nat {
    if history == [] then 0
    else Count(history[..|history| - 1], eventType) + if history[|history| - 1].eventType == eventType then 1 else 0
  }

  lemma CountAppend(history: seq<CardEvent>, e: CardEvent, eventType: string)
    ensures Count(history + [e], eventType) == Count(history, eventType) + if e.eventType == eventType then 1 else 0
  {
    assert (history + [e])[..|history|] == history;
  }

  ghost predicate Counts(history: seq<CardEvent>, created: nat, executed: nat, received: nat) {
    && Count(history, "card_created") == created
    && Count(history, "source_executed") == executed
    && Count(history, "boundary_source_received") == received
  }

  /** `n` of the three calls under `key` have happened, about card `c`. */
  ghost predicate AtStage(s: M.Mem, key: string, n: nat, c: Uuid) {
    && M.Valid(s) && X.NothingFalsy(s) && n <= 3
    && (key in s.idempotency <==> n >= 1)
    && (key + ":source" in s.idempotency <==> n >= 2)
    && (key + ":event" in s.idempotency <==> n >= 3)
    && (n >= 1 ==> s.idempotency[key].CardReply? && s.idempotency[key].card.id == c && c in s.cards
                   && Counts(s.events[c], 1, if n >= 2 then 1 else 0, if n >= 3 then 1 else 0))
    && (n >= 2 ==> s.idempotency[key + ":source"].EventReply?)
    && (n >= 3 ==> s.idempotency[key + ":event"].EventReply?)
  }

  lemma KeysDiffer(key: string)
    ensures key + ":source" != key && key + ":event" != key && key + ":source" != key + ":event"
  {
    assert |key + ":source"| == |key| + 7 && |key + ":event"| == |key| + 6;
  }

  // ---- other calls leave the stage alone ---------------------------------------------------

  /** A recorded event of the card is none of a delivery's. */
  predicate Foreign(t: A.Timed, c: Uuid) {
    t.act.Record? && t.act.event.cardId == c ==> t.act.event.eventType !in DELIVERY_EVENTS
  }

  /** Only a creation writes `card_created`, and only a recorded event the other two. */
  lemma ActCounts(a: A.Core, t: A.Timed, c: Uuid, eventType: string)
    requires T.Sound(a) && A.Enabled(a, t) && c in a.log && eventType in DELIVERY_EVENTS && Foreign(t, c)
    ensures c in A.NextLog(a, t) && Count(A.NextLog(a, t)[c], eventType) == Count(a.log[c], eventType)
  {
    if A.EventWritten(a, t).Some? { CountAppend(a.log[c], A.EventWritten(a, t).value, eventType); }
  }

  lemma {:induction false} ActsCount(a: A.Core, ts: seq<A.Timed>, c: Uuid, eventType: string)
    requires T.Sound(a) && A.Legal(a, ts) && c in a.log && eventType in DELIVERY_EVENTS
    requires forall t :: t in ts ==> Foreign(t, c)
    ensures c in A.Play(a, ts).log && Count(A.Play(a, ts).log[c], eventType) == Count(a.log[c], eventType)
  {
    if ts != [] {
      assert ts[|ts| - 1] in ts;
      ActsCount(a, ts[..|ts| - 1], c, eventType);
      T.RunSound(a, ts[..|ts| - 1]);
      ActCounts(A.Play(a, ts[..|ts| - 1]), ts[|ts| - 1], c, eventType);
    }
  }

  /** The three keys a delivery under `key` stores its answers under. */
  function KeysOf(key: string): set<string> { {key, key + ":source", key + ":event"} }

  /** The request uses none of the keys and records none of the delivery's events on card `c`, its card from stage 1 on. */
  predicate LeavesAlone(req: Request, key: string, n: nat, c: Uuid) {
    && (Truthy(req.Key()) ==> req.Key().value !in KeysOf(key))
    && (n >= 1 && req.RecordEvent? && req.cardId == c ==> req.eventType !in DELIVERY_EVENTS)
  }

  lemma OtherCallKeepsCount(s: M.Mem, call: Call, c: Uuid, eventType: string)
    requires M.Valid(s) && MR.FreshIds(s, call) && c in s.cards && eventType in DELIVERY_EVENTS
    requires call.req.RecordEvent? && call.req.cardId == c ==> call.req.eventType !in DELIVERY_EVENTS
    ensures var t := M.Step(s, call).after;
      c in t.cards && c in t.events && Count(t.events[c], eventType) == Count(s.events[c], eventType)
  {
    MR.StepRefines(s, call);
    MR.RecordsAreAsked(s, call);
    CallGrows(s, call);
    ActsCount(MR.CoreOf(s), MR.StepActs(s, call), c, eventType);
  }

  /** Only the call's own key is stored. */
  lemma CallKeepsTable(s: M.Mem, call: Call, k: string)
    requires M.Valid(s) && (Truthy(call.req.Key()) ==> call.req.Key().value != k)
    ensures var t := M.Step(s, call).after;
      (k in t.idempotency <==> k in s.idempotency) && (k in s.idempotency ==> t.idempotency[k] == s.idempotency[k])
  {
    X.PerformKeepsTable(s, call);
  }

  lemma OtherCallKeepsStage(s: M.Mem, call: Call, key: string, n: nat, c: Uuid)
    requires AtStage(s, key, n, c) && MR.FreshIds(s, call) && LeavesAlone(call.req, key, n, c)
    ensures AtStage(M.Step(s, call).after, key, n, c)
  {
    M.StepKeepsValid(s, call);
    X.StepKeepsTruthy(s, call);
    CallKeepsTable(s, call, key);
    CallKeepsTable(s, call, key + ":source");
    CallKeepsTable(s, call, key + ":event");
    if n >= 1 {
      OtherCallKeepsCount(s, call, c, "card_created");
      OtherCallKeepsCount(s, call, c, "source_executed");
      OtherCallKeepsCount(s, call, c, "boundary_source_received");
    }
  }

  // ---- the three calls ---------------------------------------------------------------------

  predicate CreatesUnder(req: Request, key: string) { req.CreateCard? && req.key == Some(key) && key != "" }

  lemma CreatingAgain(s: M.Mem, call: Call, key: string, n: nat, c: Uuid)
    requires AtStage(s, key, n, c) && CreatesUnder(call.req, key) && n >= 1
    ensures M.Step(s, call) == M.Outcome(s, Ok(s.idempotency[key])) && s.idempotency[key].card.id == c
  {
  }

  lemma CreatingFails(s: M.Mem, call: Call, key: string, c: Uuid)
    requires AtStage(s, key, 0, c) && CreatesUnder(call.req, key) && M.Step(s, call).result.Err?
    ensures M.Step(s, call).after == s
  {
  }

  /** A card's history right after its creation. */
  lemma NewHistory(s: M.Mem, panelId: string, payload: Json, metadata: Json, now: Time, base: Uuid)
    requires M.Valid(s) && base !in s.cards && M.Create(s, panelId, payload, metadata, now, base).result.Ok?
    ensures var o := M.Create(s, panelId, payload, metadata, now, base);
      && o.result.value.CardReply? && o.result.value.card.id == base
      && o.after.cards.Keys == s.cards.Keys + {base} && o.after.idempotency == s.idempotency
      && base in o.after.events && Counts(o.after.events[base], 1, 0, 0)
  {
    var e := M.Create(s, panelId, payload, metadata, now, base).after.events[base][0];
    CountAppend([], e, "card_created");
    CountAppend([], e, "source_executed");
    CountAppend([], e, "boundary_source_received");
    assert [] + [e] == [e];
  }

  lemma CreatingFirst(s: M.Mem, call: Call, key: string, c: Uuid)
    requires AtStage(s, key, 0, c) && CreatesUnder(call.req, key) && call.base !in s.cards && M.Step(s, call).result.Ok?
    ensures var o := M.Step(s, call);
      && AtStage(o.after, key, 1, call.base) && o.result.value.CardReply? && o.result.value.card.id == call.base
      && o.after.cards.Keys == s.cards.Keys + {call.base}
  {
    KeysDiffer(key);
    M.StepKeepsValid(s, call);
    X.StepKeepsTruthy(s, call);
    NewHistory(s, call.req.panelId, call.req.payload, call.req.metadata, call.now, call.base);
  }

  /** The stage that recording one of the delivery's two events leads to. */
  function StageOf(req: Request): nat
    requires req.RecordEvent?
  {
    if req.eventType == "source_executed" then 2 else 3
  }

  predicate NotesUnder(req: Request, key: string, n: nat) {
    && req.RecordEvent?
    && ((req.key == Some(key + ":source") && req.eventType == "source_executed")
        || (req.key == Some(key + ":event") && req.eventType == "boundary_source_received" && n >= 2))
  }

  lemma NotingAgain(s: M.Mem, call: Call, key: string, n: nat, c: Uuid)
    requires AtStage(s, key, n, c) && NotesUnder(call.req, key, n) && n >= StageOf(call.req)
    ensures M.Step(s, call).result.Ok? && M.Step(s, call).after == s
  {
  }

  lemma NotingFirst(s: M.Mem, call: Call, key: string, n: nat, c: Uuid)
    requires AtStage(s, key, n, c) && n >= 1 && NotesUnder(call.req, key, n) && call.req.cardId == c && n < StageOf(call.req)
    ensures var o := M.Step(s, call);
      && o.result.Ok? && o.after.cards == s.cards && o.after.idempotency == s.idempotency[call.req.key.value := o.result.value]
      && o.result.value.EventReply? && c in o.after.events
      && Counts(o.after.events[c], 1, 1, if StageOf(call.req) == 3 then 1 else 0)
  {
    KeysDiffer(key);
    var e := CardEvent(call.base, c, call.req.eventType, call.req.actorId, call.req.payload, call.now);
    assert M.Step(s, call).after.events[c] == s.events[c] + [e];
    CountAppend(s.events[c], e, "card_created");
    CountAppend(s.events[c], e, "source_executed");
    CountAppend(s.events[c], e, "boundary_source_received");
  }

  /** Recording one of the delivery's events on the delivery's card. */
  lemma NoteAtStage(s: M.Mem, call: Call, key: string, n: nat, c: Uuid)
    requires AtStage(s, key, n, c) && n >= 1 && NotesUnder(call.req, key, n) && call.req.cardId == c
    ensures var o, own := M.Step(s, call), StageOf(call.req);
      && o.result.Ok? && o.after.cards == s.cards
      && (if n >= own then o.after == s else AtStage(o.after, key, own, c))
  {
    if n >= StageOf(call.req) {
      NotingAgain(s, call, key, n, c);
    } else {
      KeysDiffer(key);
      M.StepKeepsValid(s, call);
      X.StepKeepsTruthy(s, call);
      NotingFirst(s, call, key, n, c);
    }
  }

  // ---- a delivery moves the stage on -------------------------------------------------------

  /** From stage `n` about card `c` to stage `m` about card `b`; only the first creation adds a card. */
  ghost predicate Advances(s: M.Mem, t: M.Mem, key: string, n: nat, c: Uuid, m: nat, b: Uuid) {
    && AtStage(t, key, m, b) && n <= m && (n >= 1 ==> b == c)
    && t.cards.Keys == s.cards.Keys + (if n == 0 && m >= 1 then {b} else {})
    && (n == 0 && m >= 1 ==> b !in s.cards)
  }

  lemma CreationAdvances(s: M.Mem, call: Call, key: string, n: nat, c: Uuid) returns (m: nat, b: Uuid)
    requires AtStage(s, key, n, c) && CreatesUnder(call.req, key) && call.base !in s.cards
    ensures var o := M.Step(s, call);
      && Advances(s, o.after, key, n, c, m, b)
      && (o.result.Ok? ==> m >= 1 && o.result.value.CardReply? && o.result.value.card.id == b)
  {
    m, b := n, c;
    if n >= 1 {
      CreatingAgain(s, call, key, n, c);
    } else if M.Step(s, call).result.Ok? {
      CreatingFirst(s, call, key, c);
      m, b := 1, call.base;
    } else {
      CreatingFails(s, call, key, c);
    }
  }

  lemma NoteAdvances(s: M.Mem, call: Call, key: string, n: nat, c: Uuid) returns (m: nat)
    requires AtStage(s, key, n, c) && n >= 1 && NotesUnder(call.req, key, n) && call.req.cardId == c
    ensures Advances(s, M.Step(s, call).after, key, n, c, m, c) && M.Step(s, call).result.Ok? && m >= StageOf(call.req)
  {
    NoteAtStage(s, call, key, n, c);
    m := if n >= StageOf(call.req) then n else StageOf(call.req);
  }

  lemma AdvancesOn(s: M.Mem, t: M.Mem, u: M.Mem, key: string, n: nat, c: Uuid, m: nat, b: Uuid, k: nat, a: Uuid)
    requires Advances(s, t, key, n, c, m, b) && Advances(t, u, key, m, b, k, a)
    ensures Advances(s, u, key, n, c, k, a)
  {
  }

  lemma SourceAdvances(s: M.Mem, panel: PatchPanel, sourceId: string, payload: Json, metadata: Json, key: string,
    now: Time, base: Uuid, cut: nat, n: nat, c: Uuid) returns (m: nat, b: Uuid)
    requires AtStage(s, key, n, c) && key != "" && base !in s.cards
    ensures var p := SourceRun(s, panel, sourceId, payload, metadata, Some(key), now, base, cut);
      && Advances(s, p.after, key, n, c, m, b)
      && (p.result.Some? && p.result.value.Ok? ==> m >= 2 && p.result.value.value.id == b)
  {
    m, b := n, c;
    var node := NodeOf(panel.nodes, sourceId, Source);
    if node.Ok? && cut > 0 {
      var create := Call(CreateCard(panel.id, payload, metadata, Some(key)), now, base);
      m, b := CreationAdvances(s, create, key, n, c);
      var created := M.Step(s, create);
      if created.result.Ok? && cut > 1 {
        var note := Call(RecordEvent(b, "source_executed", Some(node.value.id), SourceNote(node.value.id),
                                     Derived(Some(key), ":source")), now, base + 2);
        var mid := m;
        m := NoteAdvances(created.after, note, key, mid, b);
        AdvancesOn(s, created.after, M.Step(created.after, note).after, key, n, c, mid, b, m, b);
      }
    }
  }

  lemma ReceiptAdvances(s: M.Mem, sourced: M.Mem, d: Delivery, key: string, now: Time, base: Uuid, n: nat, c: Uuid, mid: nat, b: Uuid)
    returns (m: nat)
    requires Advances(s, sourced, key, n, c, mid, b) && mid >= 2 && d.Key() == Some(key)
    ensures var received := M.Step(sourced, Call(d.Received(b), now, base));
      Advances(s, received.after, key, n, c, m, b) && m == 3 && received.result.Ok?
  {
    var note := Call(d.Received(b), now, base);
    m := NoteAdvances(sourced, note, key, mid, b);
    AdvancesOn(s, sourced, M.Step(sourced, note).after, key, n, c, mid, b, m, b);
  }

  lemma DeliveryAdvances(s: M.Mem, d: Delivery, now: Time, base: Uuid, cut: nat, n: nat, c: Uuid) returns (m: nat, b: Uuid)
    requires d.dedup != "" && AtStage(s, SourceKey(d.panelId, d.sourceId, d.dedup), n, c) && base !in s.cards
    ensures var p, key := Deliver(s, d, now, base, cut), SourceKey(d.panelId, d.sourceId, d.dedup);
      && Advances(s, p.after, key, n, c, m, b)
      && (p.result.Some? && p.result.value.Ok? ==> m == 3 && p.result.value.value.id == b)
  {
    m, b := n, c;
    var key := SourceKey(d.panelId, d.sourceId, d.dedup);
    var addressed := Addressed(s.panels, d);
    if addressed.Ok? {
      var sourced := SourceRun(s, addressed.value, d.sourceId, d.payload, d.Metadata(), Some(key), now, base, cut);
      m, b := SourceAdvances(s, addressed.value, d.sourceId, d.payload, d.Metadata(), key, now, base, cut, n, c);
      if sourced.result.Some? && sourced.result.value.Ok? && cut > 2 {
        m := ReceiptAdvances(s, sourced.after, d, key, now, base + 3, n, c, m, b);
      }
    }
  }
}
