/**
 `card_history` of the Postgres runtime (runtime/postgres.py) reads the event rows of a card by time,
 and rows of the same time by their ids, which are drawn at random: any order of those is possible.
 */
module HistoryRead {
  import opened Prelude
  import opened Encoding
  import opened Domain
  import opened Requests
  import opened Postgres
  import opened PostgresRefinement
  import opened PostgresTheorems
  import T = MachineTheorems

  // ---- listings by time --------------------------------------------------------------------

  predicate ByTime(history: seq<CardEvent>) {
    forall i, j :: 0 <= i < j < |history| ==> history[i].occurredAt <= history[j].occurredAt
  }

  /** The same rows, in some order by time. */
  predicate Listing(rows: seq<CardEvent>, listed: seq<CardEvent>) {
    multiset(listed) == multiset(rows) && ByTime(listed)
  }

  /** `history[k]` is the last event that names a bucket. */
  predicate LastNaming(history: seq<CardEvent>, k: int) {
    && 0 <= k < |history| && T.Names(history[k]).Some?
    && forall j :: k < j < |history| ==> T.Names(history[j]).None?
  }

  lemma {:induction false} ReplayedIsLast(history: seq<CardEvent>) returns (k: int)
    requires T.Replayed(history).Some?
    ensures LastNaming(history, k) && T.Names(history[k]) == T.Replayed(history)
  {
    k := |history| - 1;
    if T.Names(history[k]).None? { k := ReplayedIsLast(history[..k]); }
  }

  lemma {:induction false} LastIsReplayed(history: seq<CardEvent>, k: int)
    requires LastNaming(history, k)
    ensures T.Replayed(history) == T.Names(history[k])
  {
    if k < |history| - 1 { LastIsReplayed(history[..|history| - 1], k); }
  }

  lemma {:induction false} SomeNames(history: seq<CardEvent>, i: int)
    requires 0 <= i < |history| && T.Names(history[i]).Some?
    ensures T.Replayed(history).Some?
  {
    if T.Names(history[|history| - 1]).None? { SomeNames(history[..|history| - 1], i); }
  }

  /** The events of the time of the last movement all name the bucket it names. */
  ghost predicate LastTiesAgree(history: seq<CardEvent>) {
    forall i, k :: 0 <= i < |history| && LastNaming(history, k) && Ties(history[i], history[k]) ==>
      T.Names(history[i]) == T.Names(history[k])
  }

  /** Both name a bucket, at the same time. */
  predicate Ties(e: CardEvent, f: CardEvent) {
    e.occurredAt == f.occurredAt && T.Names(e).Some? && T.Names(f).Some?
  }

  lemma SameRows(rows: seq<CardEvent>, listed: seq<CardEvent>, e: CardEvent)
    requires multiset(listed) == multiset(rows)
    ensures e in listed <==> e in rows
  {
    assert e in multiset(listed) <==> e in multiset(rows);
  }

  lemma ListingReplays(history: seq<CardEvent>, listed: seq<CardEvent>)
    requires ByTime(history) && LastTiesAgree(history) && T.Replayed(history).Some? && Listing(history, listed)
    ensures T.Replayed(listed) == T.Replayed(history)
  {
    var k := ReplayedIsLast(history);
    SameRows(history, listed, history[k]);
    var i :| 0 <= i < |listed| && listed[i] == history[k];
    SomeNames(listed, i);
    var m := ReplayedIsLast(listed);
    SameRows(history, listed, listed[m]);
    var j :| 0 <= j < |history| && history[j] == listed[m];
    assert i <= m && j <= k;
  }

  /** The history with the event at `i` moved behind the one at `k`. */
  function Behind(history: seq<CardEvent>, i: int, k: int): seq<CardEvent>
    requires 0 <= i < k < |history|
  {
    history[..i] + history[i + 1..k + 1] + [history[i]] + history[k + 1..]
  }

  lemma BehindIsListing(history: seq<CardEvent>, i: int, k: int)
    requires ByTime(history) && 0 <= i < k < |history| && history[i].occurredAt == history[k].occurredAt
    ensures Listing(history, Behind(history, i, k))
  {
    var a, b, c := history[..i], history[i + 1..k + 1], history[k + 1..];
    assert history == a + [history[i]] + b + c;
    forall x, y | 0 <= x < y < |Behind(history, i, k)|
      ensures Behind(history, i, k)[x].occurredAt <= Behind(history, i, k)[y].occurredAt
    {
      var p := if x < i then x else if x < k then x + 1 else if x == k then i else x;
      var q := if y < i then y else if y < k then y + 1 else if y == k then i else y;
      assert Behind(history, i, k)[x] == history[p] && Behind(history, i, k)[y] == history[q];
      assert history[i].occurredAt <= history[p].occurredAt <= history[k].occurredAt || p < i || p > k;
    }
  }

  lemma BehindReplays(history: seq<CardEvent>, i: int, k: int)
    requires 0 <= i < k && LastNaming(history, k) && T.Names(history[i]).Some?
    ensures T.Replayed(Behind(history, i, k)) == T.Names(history[i])
  {
    assert forall j :: k < j < |history| ==> Behind(history, i, k)[j] == history[j];
    LastIsReplayed(Behind(history, i, k), k);
  }

  /** A history replays alike in every order by time exactly when the events of the time of its last
      movement agree. */
  lemma AnyListingIff(history: seq<CardEvent>)
    requires ByTime(history) && T.Replayed(history).Some?
    ensures (forall listed :: Listing(history, listed) ==> T.Replayed(listed) == T.Replayed(history)) <==> LastTiesAgree(history)
  {
    if LastTiesAgree(history) {
      forall listed | Listing(history, listed)
        ensures T.Replayed(listed) == T.Replayed(history)
      { ListingReplays(history, listed); }
    } else {
      var i, k :| 0 <= i < |history| && LastNaming(history, k) && Ties(history[i], history[k]) && T.Names(history[i]) != T.Names(history[k]);
      BehindIsListing(history, i, k);
      LastIsReplayed(history, k);
      BehindReplays(history, i, k);
    }
  }

  // ---- what a call adds --------------------------------------------------------------------

  /** Events of one card and one time name one bucket. */
  predicate TiesAgree(events: seq<CardEvent>) {
    forall i, j :: 0 <= i < |events| && 0 <= j < |events| && events[i].cardId == events[j].cardId && Ties(events[i], events[j])
      ==> T.Names(events[i]) == T.Names(events[j])
  }

  predicate At(events: seq<CardEvent>, now: Time) { forall i :: 0 <= i < |events| ==> events[i].occurredAt == now }

  predicate UpTo(events: seq<CardEvent>, now: Time) { forall i :: 0 <= i < |events| ==> events[i].occurredAt <= now }

  /** `after` is `before` and events of time `now` that agree. */
  ghost predicate Adds(before: seq<CardEvent>, after: seq<CardEvent>, now: Time) {
    exists more :: after == before + more && At(more, now) && TiesAgree(more)
  }

  lemma AddsNothing(before: seq<CardEvent>, now: Time)
    ensures Adds(before, before, now)
  {
    assert before == before + [];
  }

  lemma AddsOne(before: seq<CardEvent>, e: CardEvent)
    ensures Adds(before, before + [e], e.occurredAt)
  {
    assert At([e], e.occurredAt) && TiesAgree([e]);
  }

  lemma AddsTwo(before: seq<CardEvent>, e: CardEvent, f: CardEvent)
    requires e.occurredAt == f.occurredAt && T.Names(e) == T.Names(f)
    ensures Adds(before, before + [e] + [f], e.occurredAt)
  {
    assert before + [e] + [f] == before + [e, f] && At([e, f], e.occurredAt) && TiesAgree([e, f]);
  }

  lemma {:induction false} SweepAdds(db: Tables, now: Time, base: Uuid, order: seq<Uuid>, k: nat) returns (more: seq<CardEvent>)
    requires k <= |order|
    ensures Expire(db, now, base, order, k).state.events == db.events + more
    ensures At(more, now) && forall e :: e in more ==> T.Names(e).None?
  {
    more := [];
    if k > 0 {
      more := SweepAdds(db, now, base, order, k - 1);
      if order[k - 1] in db.leases {
        more := more + [ExpiredEvent(base + |Expire(db, now, base, order, k - 1).expired|, db.leases[order[k - 1]], now)];
      }
    }
  }

  lemma ValidationAdds(db: Tables, cardId: Uuid, validatorId: string, accepted: bool, reason: Option<string>,
    exit: Option<string>, payload: Json, now: Time, base: Uuid)
    requires "destination_bucket" !in payload
    requires Validate(db, cardId, validatorId, accepted, reason, exit, payload, now, base).result.Ok?
    ensures Adds(db.events, Validate(db, cardId, validatorId, accepted, reason, exit, payload, now, base).after.events, now)
  {
    var card, route := db.cards[cardId], RouteOf(db.panels, db.cards[cardId], exit).value;
    var e := ValidatedEvent(base + 3, card.id, validatorId, ValidatedPayload(ResultVerdict(accepted, reason, base), payload, route), now);
    if route.None? {
      AddsOne(db.events, e);
    } else {
      AddsTwo(db.events, MovedEvent(base + 2, card, route.value.bucket, Some(validatorId), Some("validator_output"), now), e);
    }
  }

  lemma ClaimAdds(db: Tables, c: PgCall)
    requires c.req.ClaimCard? && Perform(db, c).result.Ok?
    ensures Adds(db.events, Perform(db, c).after.events, c.now)
  {
    AddsOne(db.events, ClaimedEvent(c.base + 1, Perform(db, c).result.value.lease, c.now));
  }

  lemma RenewalAdds(db: Tables, c: PgCall)
    requires c.req.RenewLease? && Perform(db, c).result.Ok?
    ensures Adds(db.events, Perform(db, c).after.events, c.now)
  {
    AddsOne(db.events, RenewedEvent(c.base, Perform(db, c).result.value.lease, c.now));
  }

  lemma ReleaseAdds(db: Tables, c: PgCall)
    requires c.req.ReleaseLease? && Perform(db, c).result.Ok?
    ensures Adds(db.events, Perform(db, c).after.events, c.now)
  {
    var lease := db.leases[c.req.leaseId];
    if lease.releasedAt.Some? {
      AddsNothing(db.events, c.now);
    } else {
      AddsOne(db.events, ReleasedEvent(c.base, lease, c.req.actorId, c.now));
    }
  }

  lemma SubmitAdds(db: Tables, c: PgCall)
    requires c.req.SubmitArtifact? && Perform(db, c).result.Ok?
    ensures Adds(db.events, Perform(db, c).after.events, c.now)
  {
    AddsOne(db.events, Perform(db, c).after.events[|db.events|]);
  }

  lemma CardCallAdds(db: Tables, c: PgCall)
    requires (c.req.CreateCard? || c.req.MoveCard? || c.req.RecordEvent?) && Perform(db, c).result.Ok?
    ensures Adds(db.events, Perform(db, c).after.events, c.now)
  {
    AddsOne(db.events, Perform(db, c).after.events[|db.events|]);
  }

  lemma PerformAdds(db: Tables, c: PgCall)
    requires ReservesMovement(c.req) && Perform(db, c).result.Ok?
    ensures Adds(db.events, Perform(db, c).after.events, c.now)
  {
    if c.req.RegisterPanel? {
      AddsNothing(db.events, c.now);
    } else if c.req.ExpireLeases? {
      var more := SweepAdds(db, c.now, c.base, c.choice.order, |c.choice.order|);
      assert forall i :: 0 <= i < |more| ==> more[i] in more;
    } else if c.req.ValidateCard? {
      ValidationAdds(db, c.req.cardId, c.req.validatorId, c.req.accepted, c.req.reason, c.req.exit, c.req.payload, c.now, c.base);
    } else if c.req.SubmitArtifact? {
      SubmitAdds(db, c);
    } else if c.req.CreateCard? || c.req.MoveCard? || c.req.RecordEvent? {
      CardCallAdds(db, c);
    } else if c.req.ClaimCard? {
      ClaimAdds(db, c);
    } else if c.req.RenewLease? {
      RenewalAdds(db, c);
    } else {
      ReleaseAdds(db, c);
    }
  }

  lemma StepAdds(db: Tables, c: PgCall)
    requires ReservesMovement(c.req)
    ensures Adds(db.events, Step(db, c).after.events, c.now)
  {
    StepOrNothing(db, c);
    if Acts(db, c) { PerformAdds(db, c); } else { AddsNothing(db.events, c.now); }
  }

  // ---- runs --------------------------------------------------------------------------------

  lemma LaterAdds(before: seq<CardEvent>, after: seq<CardEvent>, early: Time, now: Time)
    requires ByTime(before) && TiesAgree(before) && UpTo(before, early) && early < now && Adds(before, after, now)
    ensures ByTime(after) && TiesAgree(after) && UpTo(after, now)
  {
    var more :| after == before + more && At(more, now) && TiesAgree(more);
  }

  /** Every call comes at a strictly later clock reading. */
  ghost predicate Strictly(start: Time, calls: seq<PgCall>) {
    calls == [] || (Strictly(start, calls[..|calls| - 1]) && Clock(start, calls[..|calls| - 1]) < calls[|calls| - 1].now)
  }

  lemma {:induction false} RunOrdersEvents(start: Time, calls: seq<PgCall>)
    requires Strictly(start, calls) && forall c :: c in calls ==> ReservesMovement(c.req)
    ensures var events := Run(EmptyTables, calls).events; ByTime(events) && TiesAgree(events) && UpTo(events, Clock(start, calls))
  {
    if calls != [] {
      var front, last := calls[..|calls| - 1], calls[|calls| - 1];
      assert last in calls;
      RunOrdersEvents(start, front);
      StepAdds(Run(EmptyTables, front), last);
      LaterAdds(Run(EmptyTables, front).events, Run(EmptyTables, calls).events, Clock(start, front), last.now);
    }
  }

  lemma {:induction false} HistoryOf(events: seq<CardEvent>, c: Uuid)
    requires ByTime(events)
    ensures forall e :: e in History(events, c) ==> e in events && e.cardId == c
    ensures ByTime(History(events, c))
  {
    if events != [] {
      var front, last := events[..|events| - 1], events[|events| - 1];
      HistoryOf(front, c);
      assert forall e :: e in front ==> e in events && e.occurredAt <= last.occurredAt;
      assert forall i :: 0 <= i < |History(front, c)| ==> History(front, c)[i] in front;
    }
  }

  /** In every run at strictly later clock readings, replaying what `card_history` reads, in whatever order
      it reads the rows of one time, yields exactly the card's bucket. */
  lemma HistoryReadReplays(start: Time, calls: seq<PgCall>, c: Uuid, listed: seq<CardEvent>)
    requires Proper(EmptyTables, start, calls) && Strictly(start, calls) && forall x :: x in calls ==> ReservesMovement(x.req)
    requires c in Run(EmptyTables, calls).cards && Listing(History(Run(EmptyTables, calls).events, c), listed)
    ensures T.Replayed(listed) == Some(Str(Run(EmptyTables, calls).cards[c].currentBucket))
  {
    var events := Run(EmptyTables, calls).events;
    HistoryReplays(start, calls, c);
    RunOrdersEvents(start, calls);
    HistoryOf(events, c);
    var history := History(events, c);
    forall i, k | 0 <= i < |history| && LastNaming(history, k) && Ties(history[i], history[k])
      ensures T.Names(history[i]) == T.Names(history[k])
    { assert history[i] in history && history[k] in history; }
    ListingReplays(history, listed);
  }
}
