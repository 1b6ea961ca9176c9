/** When two deduplication keys of one source get in each other's way (boundaries.py). */
module DeliveryClashes {
  import opened Prelude
  import opened Encoding
  import opened Domain
  import opened Service
  import opened Requests
  import opened Workflows
  import opened Executor
  import opened Deliveries
  import opened DeliveryRuns
  import M = Memory
  import X = ExactlyOnce

  /** One key is the other followed by the suffix of a derived key. */
  predicate Clash(d: string, e: string) {
    d == e + ":source" || d == e + ":event" || e == d + ":source" || e == d + ":event"
  }

  lemma SuffixesDiffer(d: string, e: string)
    ensures d + ":source" != e + ":event"
  {
    assert (d + ":source")[|d + ":source"| - 1] == 'e' && (e + ":event")[|e + ":event"| - 1] == 't';
  }

  lemma SuffixEnds(d: string, e: string, x: string)
    ensures d + x == e + x <==> d == e
  {
    if d + x == e + x {
      assert |d| == |e|;
      assert (d + x)[..|d|] == d && (e + x)[..|e|] == e;
    }
  }

  /** Two deduplication keys share a derived key exactly when they are equal or clash. */
  lemma KeysApartIff(panelId: string, sourceId: string, d: string, e: string)
    ensures Apart(SourceKey(panelId, sourceId, d), SourceKey(panelId, sourceId, e)) <==> d != e && !Clash(d, e)
  {
    var k, l := SourceKey(panelId, sourceId, d), SourceKey(panelId, sourceId, e);
    assert k + "" == k && l + "" == l && d + "" == d && e + "" == e;
    KeysCollideIff(panelId, sourceId, d, e, "", "");
    KeysCollideIff(panelId, sourceId, d, e, "", ":source");
    KeysCollideIff(panelId, sourceId, d, e, "", ":event");
    KeysCollideIff(panelId, sourceId, d, e, ":source", "");
    KeysCollideIff(panelId, sourceId, d, e, ":event", "");
    SuffixesDiffer(k, l);
    SuffixesDiffer(l, k);
    SuffixEnds(k, l, ":source");
    SuffixEnds(k, l, ":event");
    assert d == e || Clash(d, e) ==> k in KeysOf(l) || l in KeysOf(k) || k == l;
  }

  // ---- a whole delivery --------------------------------------------------------------------

  /** The answer of a delivery that is not cut short, call by call: `card` is what the creation answered. */
  lemma DeliveryOutcome(s: M.Mem, d: Delivery, now: Time, base: Uuid, card: Card)
    requires M.Valid(s) && Addressed(s.panels, d).Ok? && Created(s, d, now, base).result == Ok(CardReply(card))
    ensures var p := Deliver(s, d, now, base, 3);
      var executed, received := Executed(s, d, card.id, now, base), Received(s, d, card.id, now, base);
      p == if executed.result.Err? then Progress(executed.after, Some(Err(executed.result.error)))
           else Progress(received.after, Some(if received.result.Ok? then Ok(card) else Err(received.result.error)))
  {
  }

  lemma CreationRefused(s: M.Mem, d: Delivery, now: Time, base: Uuid)
    requires M.Valid(s) && Addressed(s.panels, d).Ok? && Created(s, d, now, base).result.Err?
    ensures Deliver(s, d, now, base, 3) == Progress(Created(s, d, now, base).after, Some(Err(Created(s, d, now, base).result.error)))
  {
  }

  lemma StoredRefuses(s: M.Mem, c: Call)
    requires X.NothingFalsy(s) && Truthy(c.req.Key()) && c.req.Key().value in s.idempotency
    requires !Fits(c.req, s.idempotency[c.req.Key().value])
    ensures M.Step(s, c) == M.Outcome(s, Err(Conflict))
  {
  }

  /** The source's panel has somewhere to put a card. */
  predicate Deliverable(s: M.Mem, d: Delivery) {
    Addressed(s.panels, d).Ok? && ResolveInitialBucket(Addressed(s.panels, d).value).Ok?
  }

  lemma CreationSucceeds(s: M.Mem, d: Delivery, now: Time, base: Uuid) returns (card: Card)
    requires M.Valid(s) && Deliverable(s, d) && d.dedup != "" && SourceKey(d.panelId, d.sourceId, d.dedup) !in s.idempotency
    ensures card.id == base && Created(s, d, now, base).result == Ok(CardReply(card))
  {
    card := Created(s, d, now, base).result.value.card;
  }

  lemma CreationCounts(s: M.Mem, d: Delivery, now: Time, base: Uuid)
    requires M.Valid(s) && base !in s.cards && Created(s, d, now, base).result.Ok?
    requires d.dedup != "" && SourceKey(d.panelId, d.sourceId, d.dedup) !in s.idempotency
    ensures var t := Created(s, d, now, base).after;
      base in t.events && Counts(t.events[base], 1, 0, 0) && t.cards.Keys == s.cards.Keys + {base}
  {
    NewHistory(s, d.panelId, d.payload, d.Metadata(), now, base);
  }

  /** Under keys no call has used, a delivery completes. */
  lemma DeliveryCompletes(s: M.Mem, d: Delivery, now: Time, base: Uuid)
    requires d.dedup != "" && AtStage(s, SourceKey(d.panelId, d.sourceId, d.dedup), 0, 0) && Deliverable(s, d) && base !in s.cards
    ensures Deliver(s, d, now, base, 3).result.Some? && Deliver(s, d, now, base, 3).result.value.Ok?
  {
    var key := SourceKey(d.panelId, d.sourceId, d.dedup);
    var card := CreationSucceeds(s, d, now, base);
    var m, b := CreationAdvances(s, Creation(d, now, base), key, 0, 0);
    var created := Created(s, d, now, base).after;
    var k := NoteAdvances(created, Execution(d, base, now, base), key, m, b);
    var j := NoteAdvances(Executed(s, d, base, now, base).after, Receipt(d, base, now, base), key, k, b);
    DeliveryOutcome(s, d, now, base, card);
  }

  // ---- after a delivery under another key --------------------------------------------------

  /** Of the keys of `own`, only those of `other` are in use. */
  predicate Untouched(s: M.Mem, own: string, other: string) {
    forall x :: x in KeysOf(own) && x in s.idempotency ==> x in KeysOf(other)
  }

  /** `e` is `d` with a suffix: nothing happens, and the delivery is refused. */
  lemma LongerIsRefused(s: M.Mem, d: string, c: Uuid, e: Delivery, now: Time, base: Uuid)
    requires e.dedup == d + ":source" || e.dedup == d + ":event"
    requires AtStage(s, SourceKey(e.panelId, e.sourceId, d), 3, c) && Deliverable(s, e)
    ensures Deliver(s, e, now, base, 3) == Progress(s, Some(Err(Conflict)))
  {
    var x := if e.dedup == d + ":source" then ":source" else ":event";
    var k, l := SourceKey(e.panelId, e.sourceId, d), SourceKey(e.panelId, e.sourceId, e.dedup);
    KeysCollideIff(e.panelId, e.sourceId, e.dedup, d, "", x);
    assert l + "" == l && e.dedup + "" == e.dedup && l == k + x;
    StoredRefuses(s, Creation(e, now, base));
    CreationRefused(s, e, now, base);
  }

  /** The keys of `e` when the key of `d` is one of them, and not the first. */
  lemma LongerKeys(panelId: string, sourceId: string, d: string, e: string)
    requires d == e + ":source" || d == e + ":event"
    ensures var k, l := SourceKey(panelId, sourceId, d), SourceKey(panelId, sourceId, e);
      && k == l + (if d == e + ":event" then ":event" else ":source") && l !in KeysOf(k)
      && (d == e + ":event" ==> l + ":source" !in KeysOf(k) && l + ":source" != k)
  {
    var k, l := SourceKey(panelId, sourceId, d), SourceKey(panelId, sourceId, e);
    var x := if d == e + ":event" then ":event" else ":source";
    assert k + "" == k && d + "" == d;
    KeysCollideIff(panelId, sourceId, d, e, "", x);
    SuffixesDiffer(l, l);
    assert |k| == |l| + |x|;
  }

  lemma ExecutionRefused(s: M.Mem, e: Delivery, card: Uuid, now: Time, base: Uuid)
    requires X.NothingFalsy(s) && e.dedup != ""
    requires var k := SourceKey(e.panelId, e.sourceId, e.dedup) + ":source"; k in s.idempotency && s.idempotency[k].CardReply?
    ensures M.Step(s, Execution(e, card, now, base)) == M.Outcome(s, Err(Conflict))
  {
    StoredRefuses(s, Execution(e, card, now, base));
  }

  lemma ReceiptRefused(s: M.Mem, e: Delivery, card: Uuid, now: Time, base: Uuid)
    requires X.NothingFalsy(s) && e.dedup != ""
    requires var k := SourceKey(e.panelId, e.sourceId, e.dedup) + ":event"; k in s.idempotency && s.idempotency[k].CardReply?
    ensures M.Step(s, Receipt(e, card, now, base)) == M.Outcome(s, Err(Conflict))
  {
    StoredRefuses(s, Receipt(e, card, now, base));
  }

  /** The card is made, and its first event is refused. */
  lemma CutAtExecution(s: M.Mem, e: Delivery, now: Time, base: Uuid)
    requires M.Valid(s) && X.NothingFalsy(s) && e.dedup != "" && Deliverable(s, e) && base !in s.cards
    requires var l := SourceKey(e.panelId, e.sourceId, e.dedup);
      l !in s.idempotency && l + ":source" in s.idempotency && s.idempotency[l + ":source"].CardReply?
    ensures var p := Deliver(s, e, now, base, 3);
      p.result == Some(Err(Conflict)) && p.after == Created(s, e, now, base).after
  {
    var l := SourceKey(e.panelId, e.sourceId, e.dedup);
    KeysDiffer(l);
    var card := CreationSucceeds(s, e, now, base);
    CreatedKeeps(s, e, now, base, l + ":source");
    ExecutionRefused(Created(s, e, now, base).after, e, base, now, base);
    DeliveryOutcome(s, e, now, base, card);
  }

  lemma ExecutionThenRefusal(s: M.Mem, e: Delivery, now: Time, base: Uuid)
    requires M.Valid(s) && X.NothingFalsy(s) && e.dedup != ""
    requires base in s.cards && base in s.events && Counts(s.events[base], 1, 0, 0)
    requires var l := SourceKey(e.panelId, e.sourceId, e.dedup);
      l + ":source" !in s.idempotency && l + ":event" in s.idempotency && s.idempotency[l + ":event"].CardReply?
    ensures var executed := M.Step(s, Execution(e, base, now, base));
      && executed.result.Ok? && executed.after.cards == s.cards
      && base in executed.after.events && Counts(executed.after.events[base], 1, 1, 0)
      && M.Step(executed.after, Receipt(e, base, now, base)) == M.Outcome(executed.after, Err(Conflict))
  {
    var l := SourceKey(e.panelId, e.sourceId, e.dedup);
    KeysDiffer(l);
    FirstNote(s, Execution(e, base, now, base), base);
    CallKeepsTable(s, Execution(e, base, now, base), l + ":event");
    ReceiptRefused(M.Step(s, Execution(e, base, now, base)).after, e, base, now, base);
  }

  /** The card is made and executed, and its last event is refused. */
  lemma CutAtReceipt(s: M.Mem, e: Delivery, now: Time, base: Uuid)
    requires M.Valid(s) && X.NothingFalsy(s) && e.dedup != "" && Deliverable(s, e) && base !in s.cards
    requires var l := SourceKey(e.panelId, e.sourceId, e.dedup);
      l !in s.idempotency && l + ":source" !in s.idempotency && l + ":event" in s.idempotency && s.idempotency[l + ":event"].CardReply?
    ensures var p := Deliver(s, e, now, base, 3);
      && p.result == Some(Err(Conflict)) && p.after.cards.Keys == s.cards.Keys + {base}
      && base in p.after.events && Counts(p.after.events[base], 1, 1, 0)
  {
    var l := SourceKey(e.panelId, e.sourceId, e.dedup);
    KeysDiffer(l);
    var card := CreationSucceeds(s, e, now, base);
    CreatedKeeps(s, e, now, base, l + ":source");
    CreatedKeeps(s, e, now, base, l + ":event");
    CreationCounts(s, e, now, base);
    ExecutionThenRefusal(Created(s, e, now, base).after, e, now, base);
    DeliveryOutcome(s, e, now, base, card);
  }

  /** `d` is `e` with a suffix: the card is made, and the call that would use the key of `d` is refused. */
  lemma ShorterIsCutShort(s: M.Mem, d: string, c: Uuid, e: Delivery, now: Time, base: Uuid)
    requires e.dedup != "" && (d == e.dedup + ":source" || d == e.dedup + ":event")
    requires AtStage(s, SourceKey(e.panelId, e.sourceId, d), 3, c) && Deliverable(s, e) && base !in s.cards
    requires Untouched(s, SourceKey(e.panelId, e.sourceId, e.dedup), SourceKey(e.panelId, e.sourceId, d))
    ensures var p := Deliver(s, e, now, base, 3);
      && p.result == Some(Err(Conflict)) && p.after.cards.Keys == s.cards.Keys + {base}
      && base in p.after.events && Counts(p.after.events[base], 1, if d == e.dedup + ":event" then 1 else 0, 0)
  {
    LongerKeys(e.panelId, e.sourceId, d, e.dedup);
    SuffixesDiffer(e.dedup, e.dedup);
    if d == e.dedup + ":event" {
      CutAtReceipt(s, e, now, base);
    } else {
      CutAtExecution(s, e, now, base);
      var _ := CreationSucceeds(s, e, now, base);
      CreationCounts(s, e, now, base);
    }
  }

  lemma CreatedKeeps(s: M.Mem, e: Delivery, now: Time, base: Uuid, k: string)
    requires M.Valid(s) && X.NothingFalsy(s) && k != SourceKey(e.panelId, e.sourceId, e.dedup)
    ensures var t := Created(s, e, now, base).after;
      && M.Valid(t) && X.NothingFalsy(t)
      && (k in t.idempotency <==> k in s.idempotency) && (k in s.idempotency ==> t.idempotency[k] == s.idempotency[k])
  {
    M.StepKeepsValid(s, Creation(e, now, base));
    X.StepKeepsTruthy(s, Creation(e, now, base));
    CallKeepsTable(s, Creation(e, now, base), k);
  }

  /** An execution recorded under an unused key on a card that was only created. */
  lemma FirstNote(s: M.Mem, call: Call, c: Uuid)
    requires M.Valid(s) && X.NothingFalsy(s) && c in s.cards && c in s.events && Counts(s.events[c], 1, 0, 0)
    requires call.req.RecordEvent? && call.req.cardId == c && call.req.eventType == "source_executed"
    requires Truthy(call.req.key) && call.req.key.value !in s.idempotency
    ensures var o := M.Step(s, call);
      && o.result.Ok? && o.after.cards == s.cards && c in o.after.events && Counts(o.after.events[c], 1, 1, 0)
      && M.Valid(o.after) && X.NothingFalsy(o.after)
  {
    M.StepKeepsValid(s, call);
    X.StepKeepsTruthy(s, call);
    var e := CardEvent(call.base, c, call.req.eventType, call.req.actorId, call.req.payload, call.now);
    assert M.Step(s, call).after.events[c] == s.events[c] + [e];
    CountAppend(s.events[c], e, "card_created");
    CountAppend(s.events[c], e, "source_executed");
    CountAppend(s.events[c], e, "boundary_source_received");
  }

  /** After a delivery under `d`, a delivery to the same source under another key completes exactly when
      neither key is the other followed by `:source` or `:event`; else it is refused. If the later key
      is the longer nothing happens; if it is the shorter its card is left without its last events. */
  lemma LaterDeliveryCompletesIff(s: M.Mem, d: string, c: Uuid, e: Delivery, now: Time, base: Uuid)
    requires e.dedup != "" && e.dedup != d && AtStage(s, SourceKey(e.panelId, e.sourceId, d), 3, c)
    requires Deliverable(s, e) && base !in s.cards
    requires Untouched(s, SourceKey(e.panelId, e.sourceId, e.dedup), SourceKey(e.panelId, e.sourceId, d))
    ensures var p := Deliver(s, e, now, base, 3);
      && (p.result.Some? && p.result.value.Ok? <==> !Clash(d, e.dedup))
      && (Clash(d, e.dedup) ==> p.result == Some(Err(Conflict)))
      && (e.dedup == d + ":source" || e.dedup == d + ":event" ==> p.after == s)
      && (d == e.dedup + ":source" || d == e.dedup + ":event" ==>
            && p.after.cards.Keys == s.cards.Keys + {base} && base in p.after.events
            && Counts(p.after.events[base], 1, if d == e.dedup + ":event" then 1 else 0, 0))
  {
    KeysApartIff(e.panelId, e.sourceId, d, e.dedup);
    if e.dedup == d + ":source" || e.dedup == d + ":event" {
      LongerIsRefused(s, d, c, e, now, base);
      assert |e.dedup| > |d|;
    } else if Clash(d, e.dedup) {
      ShorterIsCutShort(s, d, c, e, now, base);
    } else {
      DeliveryCompletes(s, e, now, base);
    }
  }

  /** At stage 3 a recorded event under any key, on another card, leaves the stage as it is. */
  lemma NoteOrNothing(s: M.Mem, call: Call, key: string, c: Uuid)
    requires AtStage(s, key, 3, c) && call.req.RecordEvent? && call.req.cardId != c
    ensures AtStage(M.Step(s, call).after, key, 3, c)
  {
    if Truthy(call.req.Key()) && call.req.Key().value in KeysOf(key) {
      StoredChangesNothing(s, call);
    } else {
      NoteLeavesStage(s, call, key, 3, c);
    }
  }

  lemma StoredChangesNothing(s: M.Mem, call: Call)
    requires X.NothingFalsy(s) && Truthy(call.req.Key()) && call.req.Key().value in s.idempotency
    ensures M.Step(s, call).after == s
    ensures M.Step(s, call).result.Ok? ==> M.Step(s, call).result.value == s.idempotency[call.req.Key().value]
  {
  }

  lemma FreshCreation(s: M.Mem, e: Delivery, now: Time, base: Uuid, card: Uuid)
    requires M.Valid(s) && e.dedup != "" && SourceKey(e.panelId, e.sourceId, e.dedup) !in s.idempotency
    requires Answered(Created(s, e, now, base), card)
    ensures card == base
  {
  }

  /** Clash or not, and wherever it is cut short, the later delivery leaves the card and the answers of the
      earlier one alone. */
  lemma EarlierIsLeftAlone(s: M.Mem, d: string, c: Uuid, e: Delivery, now: Time, base: Uuid, cut: nat)
    requires e.dedup != "" && e.dedup != d && AtStage(s, SourceKey(e.panelId, e.sourceId, d), 3, c)
    requires base !in s.cards && base !in s.leases
    requires Untouched(s, SourceKey(e.panelId, e.sourceId, e.dedup), SourceKey(e.panelId, e.sourceId, d))
    ensures AtStage(Deliver(s, e, now, base, cut).after, SourceKey(e.panelId, e.sourceId, d), 3, c)
  {
    var k, l := SourceKey(e.panelId, e.sourceId, d), SourceKey(e.panelId, e.sourceId, e.dedup);
    var after, created := Deliver(s, e, now, base, cut).after, Created(s, e, now, base);
    EndsAgree("boundary-source:" + e.panelId + ":" + e.sourceId + ":", d, e.dedup);
    DeliverySteps(s, e, now, base, cut);
    if l in s.idempotency {
      StoredChangesNothing(s, Creation(e, now, base));
    } else {
      OtherCallKeepsStage(s, Creation(e, now, base), k, 3, c);
      if after != s && after != created.after {
        var card :| Answered(created, card)
          && (after == Executed(s, e, card, now, base).after || after == Received(s, e, card, now, base).after);
        FreshCreation(s, e, now, base, card);
        NoteOrNothing(created.after, Execution(e, card, now, base), k, c);
        NoteOrNothing(Executed(s, e, card, now, base).after, Receipt(e, card, now, base), k, c);
      }
    }
  }
}
