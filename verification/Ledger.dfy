/** The location ledger of the Postgres runtime: its rows tile each card's time. */
module Ledger {
  import opened Prelude
  import opened Encoding
  import opened Domain
  import opened Service
  import opened Requests
  import opened Postgres
  import opened PostgresRefinement
  import opened PostgresTheorems

  /** The rows about one card, in order of insertion. */
  function RowsOf(rows: seq<Location>, c: Uuid): seq<Location> {
    if rows == [] then []
    else
      var last := rows[|rows| - 1];
      RowsOf(rows[..|rows| - 1], c) + if last.cardId == c then [last] else []
  }

  /** The card was at this row's location at time `t`: the row's interval is closed below and open above. */
  predicate Covers(row: Location, t: Time) {
    row.enteredAt <= t && (row.exitedAt.Some? ==> t < row.exitedAt.value)
  }

  /** The rows follow each other without gap or overlap from the card's creation to its present bucket. */
  ghost predicate Tiled(rows: seq<Location>, card: Card, now: Time) {
    && rows != [] && rows[0].enteredAt == card.createdAt && rows[|rows| - 1].enteredAt <= now
    && (forall i :: 0 <= i < |rows| ==> rows[i].cardId == card.id)
    && (forall i :: 0 <= i < |rows| - 1 ==>
          && rows[i].status == Exited && rows[i].enteredAt <= rows[i + 1].enteredAt
          && rows[i].exitedAt == Some(rows[i + 1].enteredAt))
    && rows[|rows| - 1].status == Active && rows[|rows| - 1].exitedAt.None?
    && rows[|rows| - 1].bucket == card.currentBucket
  }

  ghost predicate Strangers(rows: seq<Location>, cards: map<Uuid, Card>) {
    exists i :: 0 <= i < |rows| && rows[i].cardId !in cards
  }

  ghost predicate LedgerHolds(rows: seq<Location>, cards: map<Uuid, Card>, now: Time) {
    && !Strangers(rows, cards)
    && (forall c :: c in cards ==> cards[c].id == c && Tiled(RowsOf(rows, c), cards[c], now))
  }

  // ---- a row entered, a row left -----------------------------------------------------------

  lemma RowsAppend(rows: seq<Location>, row: Location, c: Uuid)
    ensures RowsOf(rows + [row], c) == RowsOf(rows, c) + if row.cardId == c then [row] else []
  {
    assert (rows + [row])[..|rows|] == rows;
  }

  /** The update by card and status leaves the rows of other cards alone. */
  lemma {:induction false} LeaveCommutes(rows: seq<Location>, cardId: Uuid, now: Time, c: Uuid)
    ensures RowsOf(Leave(rows, cardId, now), c) == Leave(RowsOf(rows, c), cardId, now)
  {
    if rows != [] {
      LeaveCommutes(rows[..|rows| - 1], cardId, now, c);
      assert Leave(rows, cardId, now)[..|rows| - 1] == Leave(rows[..|rows| - 1], cardId, now);
    }
  }

  lemma {:induction false} RowsAreOfCard(rows: seq<Location>, c: Uuid)
    ensures forall i :: 0 <= i < |RowsOf(rows, c)| ==> RowsOf(rows, c)[i].cardId == c
  {
    if rows != [] { RowsAreOfCard(rows[..|rows| - 1], c); }
  }

  lemma {:induction false} StrangerHasNoRows(rows: seq<Location>, cards: map<Uuid, Card>, c: Uuid)
    requires !Strangers(rows, cards) && c !in cards
    ensures RowsOf(rows, c) == []
  {
    if rows != [] {
      assert !Strangers(rows[..|rows| - 1], cards);
      StrangerHasNoRows(rows[..|rows| - 1], cards, c);
    }
  }

  /** Leaving a tiled location and entering another tiles on. */
  lemma TiledMovesOn(rows: seq<Location>, card: Card, before: Time, bucket: string, now: Time, id: Uuid)
    requires Tiled(rows, card, before) && before <= now
    ensures Tiled(Leave(rows, card.id, now) + [Enter(id, card.id, bucket, now)], card.(currentBucket := bucket), now)
  {
    var n := |rows| - 1;
    assert Leave(rows, card.id, now) == rows[n := rows[n].(status := Exited, exitedAt := Some(now))];
  }

  lemma TiledStays(rows: seq<Location>, card: Card, before: Time, now: Time)
    requires Tiled(rows, card, before) && before <= now
    ensures Tiled(rows, card, now)
  {
  }

  lemma LeaveOthers(rows: seq<Location>, cardId: Uuid, now: Time)
    requires forall i :: 0 <= i < |rows| ==> rows[i].cardId != cardId
    ensures Leave(rows, cardId, now) == rows
  {
  }

  // ---- what a call does to the ledger ------------------------------------------------------

  /** The tables before and after a call, as far as the ledger is concerned. */
  datatype Part = Part(rows: seq<Location>, cards: map<Uuid, Card>)

  function PartOf(db: Tables): Part { Part(db.locations, db.cards) }

  ghost predicate Creates(p: Part, q: Part, card: Card, now: Time, id: Uuid) {
    && card.id !in p.cards && card.createdAt == now
    && q == Part(p.rows + [Enter(id, card.id, card.currentBucket, now)], p.cards[card.id := card])
  }

  ghost predicate Moves(p: Part, q: Part, c: Uuid, bucket: string, now: Time, id: Uuid) {
    && c in p.cards
    && q == Part(Leave(p.rows, c, now) + [Enter(id, c, bucket, now)],
                 p.cards[c := p.cards[c].(currentBucket := bucket)])
  }

  ghost predicate Touches(p: Part, q: Part, now: Time) {
    || q == p
    || (exists card, id :: Creates(p, q, card, now, id))
    || (exists c, bucket, id :: Moves(p, q, c, bucket, now, id))
  }

  lemma RowMoves(db: Tables, c: Uuid, bucket: string, now: Time, id: Uuid)
    requires Keyed(db) && c in db.cards
    ensures Touches(PartOf(db), PartOf(MoveRow(db, db.cards[c], bucket, now, id)), now)
  {
    assert Moves(PartOf(db), PartOf(MoveRow(db, db.cards[c], bucket, now, id)), c, bucket, now, id);
  }

  lemma {:induction false} SweepTouchesNothing(db: Tables, now: Time, base: Uuid, order: seq<Uuid>, k: nat)
    requires k <= |order|
    ensures PartOf(Expire(db, now, base, order, k).state) == PartOf(db)
  {
    if k > 0 { SweepTouchesNothing(db, now, base, order, k - 1); }
  }

  lemma SubmitTouches(db: Tables, leaseId: Uuid, pipe: string, refs: seq<ArtifactReference>, now: Time, base: Uuid)
    requires Keyed(db)
    ensures Touches(PartOf(db), PartOf(Submit(db, leaseId, pipe, refs, now, base).after), now)
  {
    if SubmitChecks(db, leaseId, pipe, refs, now).Ok? {
      RowMoves(db, db.leases[leaseId].cardId, SubmitChecks(db, leaseId, pipe, refs, now).value.1, now, base);
    }
  }

  lemma SentAlongTouches(db: Tables, kept: Tables, cardId: Uuid, validatorId: string, route: Option<Route>, now: Time, base: Uuid)
    requires Keyed(db) && cardId in db.cards && PartOf(kept) == PartOf(db)
    ensures Touches(PartOf(db), PartOf(SentAlong(kept, db.cards[cardId], validatorId, route, now, base)), now)
  {
    if route.Some? { RowMoves(db, cardId, route.value.bucket, now, base); }
  }

  lemma ValidateTouches(db: Tables, cardId: Uuid, validatorId: string, accepted: bool, reason: Option<string>,
    exit: Option<string>, payload: Json, now: Time, base: Uuid)
    requires Keyed(db)
    ensures Touches(PartOf(db), PartOf(Validate(db, cardId, validatorId, accepted, reason, exit, payload, now, base).after), now)
  {
    if cardId in db.cards && RouteOf(db.panels, db.cards[cardId], exit).Ok? {
      var route := RouteOf(db.panels, db.cards[cardId], exit).value;
      var row := ValidationResult(base, cardId, validatorId, accepted, reason, exit, payload, now);
      SentAlongTouches(db, db.(results := db.results[base := row]), cardId, validatorId, route, now, base + 1);
    }
  }

  lemma MoveTouches(db: Tables, cardId: Uuid, toBucket: string, actorId: Option<string>, reason: Option<string>,
    now: Time, base: Uuid)
    requires Keyed(db)
    ensures Touches(PartOf(db), PartOf(Move(db, cardId, toBucket, actorId, reason, now, base).after), now)
  {
    if cardId in db.cards { RowMoves(db, cardId, toBucket, now, base); }
  }

  lemma CreateTouches(db: Tables, panelId: string, payload: Json, metadata: Json, now: Time, base: Uuid, version: string)
    requires base !in db.cards
    ensures Touches(PartOf(db), PartOf(Create(db, panelId, payload, metadata, now, base, version).after), now)
  {
    var o := Create(db, panelId, payload, metadata, now, base, version);
    if o.result.Ok? { assert Creates(PartOf(db), PartOf(o.after), o.result.value.card, now, base + 1); }
  }

  lemma OthersTouchNothing(db: Tables, c: PgCall)
    requires c.req.RegisterPanel? || c.req.ClaimCard? || c.req.RenewLease? || c.req.ReleaseLease? || c.req.RecordEvent?
    ensures PartOf(Perform(db, c).after) == PartOf(db)
  {
  }

  lemma PerformTouches(db: Tables, c: PgCall)
    requires Keyed(db) && FreshIds(db, c)
    ensures Touches(PartOf(db), PartOf(Perform(db, c).after), c.now)
  {
    match c.req
    case CreateCard(panelId, payload, metadata, _) =>
      CreateTouches(db, panelId, payload, metadata, c.now, c.base, c.choice.version);
    case SubmitArtifact(leaseId, pipe, refs, _) => SubmitTouches(db, leaseId, pipe, refs, c.now, c.base);
    case ValidateCard(cardId, validatorId, accepted, reason, exit, payload, _) =>
      ValidateTouches(db, cardId, validatorId, accepted, reason, exit, payload, c.now, c.base);
    case MoveCard(cardId, toBucket, actorId, reason, _) =>
      MoveTouches(db, cardId, toBucket, actorId, reason, c.now, c.base);
    case ExpireLeases => SweepTouchesNothing(db, c.now, c.base, c.choice.order, |c.choice.order|);
    case _ => OthersTouchNothing(db, c);
  }

  /** A call leaves the ledger alone, enters a new card, or moves one card on. */
  lemma StepTouches(db: Tables, c: PgCall)
    requires Keyed(db) && FreshIds(db, c)
    ensures Touches(PartOf(db), PartOf(Step(db, c).after), c.now)
  {
    StepOrNothing(db, c);
    PerformTouches(db, c);
  }

  // ---- the ledger holds in every run -------------------------------------------------------

  lemma CreateKeepsLedger(p: Part, q: Part, before: Time, card: Card, now: Time, id: Uuid)
    requires LedgerHolds(p.rows, p.cards, before) && before <= now && Creates(p, q, card, now, id)
    ensures LedgerHolds(q.rows, q.cards, now)
  {
    forall c | c in q.cards
      ensures Tiled(RowsOf(q.rows, c), q.cards[c], now)
    {
      RowsAppend(p.rows, Enter(id, card.id, card.currentBucket, now), c);
      if c in p.cards { TiledStays(RowsOf(p.rows, c), p.cards[c], before, now); } else { StrangerHasNoRows(p.rows, p.cards, c); }
    }
  }

  lemma MoveKeepsTile(p: Part, q: Part, before: Time, moved: Uuid, bucket: string, now: Time, id: Uuid, c: Uuid)
    requires LedgerHolds(p.rows, p.cards, before) && before <= now && Moves(p, q, moved, bucket, now, id)
    requires c in p.cards
    ensures Tiled(RowsOf(q.rows, c), q.cards[c], now)
    ensures c != moved ==> RowsOf(q.rows, c) == RowsOf(p.rows, c)
    ensures c == moved ==> RowsOf(q.rows, c) == Leave(RowsOf(p.rows, c), c, now) + [Enter(id, c, bucket, now)]
  {
    RowsAppend(Leave(p.rows, moved, now), Enter(id, moved, bucket, now), c);
    LeaveCommutes(p.rows, moved, now, c);
    RowsAreOfCard(p.rows, c);
    if c == moved {
      TiledMovesOn(RowsOf(p.rows, c), p.cards[c], before, bucket, now, id);
    } else {
      LeaveOthers(RowsOf(p.rows, c), moved, now);
      TiledStays(RowsOf(p.rows, c), p.cards[c], before, now);
    }
  }

  lemma MoveKeepsLedger(p: Part, q: Part, before: Time, moved: Uuid, bucket: string, now: Time, id: Uuid)
    requires LedgerHolds(p.rows, p.cards, before) && before <= now && Moves(p, q, moved, bucket, now, id)
    ensures LedgerHolds(q.rows, q.cards, now)
  {
    forall c | c in q.cards
      ensures Tiled(RowsOf(q.rows, c), q.cards[c], now)
    { MoveKeepsTile(p, q, before, moved, bucket, now, id, c); }
    assert forall i :: 0 <= i < |p.rows| ==> Leave(p.rows, moved, now)[i].cardId == p.rows[i].cardId;
  }

  lemma TouchKeepsLedger(p: Part, q: Part, before: Time, now: Time)
    requires LedgerHolds(p.rows, p.cards, before) && before <= now && Touches(p, q, now)
    ensures LedgerHolds(q.rows, q.cards, now)
  {
    if q == p {
      forall c | c in p.cards
        ensures Tiled(RowsOf(p.rows, c), p.cards[c], now)
      { TiledStays(RowsOf(p.rows, c), p.cards[c], before, now); }
    } else if exists card, id :: Creates(p, q, card, now, id) {
      var card, id :| Creates(p, q, card, now, id);
      CreateKeepsLedger(p, q, before, card, now, id);
    } else {
      var c, bucket, id :| Moves(p, q, c, bucket, now, id);
      MoveKeepsLedger(p, q, before, c, bucket, now, id);
    }
  }

  /** In every reachable state every card's rows tile its time from creation on. */
  lemma {:induction false} LedgerAlwaysHolds(start: Time, calls: seq<PgCall>)
    requires Proper(EmptyTables, start, calls)
    ensures Keyed(Run(EmptyTables, calls))
    ensures LedgerHolds(Run(EmptyTables, calls).locations, Run(EmptyTables, calls).cards, Clock(start, calls))
  {
    EmptyIsSound(start);
    RunRefines(EmptyTables, start, calls);
    if calls != [] {
      var front, last := calls[..|calls| - 1], calls[|calls| - 1];
      LedgerAlwaysHolds(start, front);
      StepTouches(Run(EmptyTables, front), last);
      TouchKeepsLedger(PartOf(Run(EmptyTables, front)), PartOf(Run(EmptyTables, calls)), Clock(start, front), last.now);
    }
  }

  // ---- what the tiling says ----------------------------------------------------------------

  /** A card has exactly one active row, the last, and it names the card's current bucket. */
  lemma OneActiveRow(start: Time, calls: seq<PgCall>, c: Uuid)
    requires Proper(EmptyTables, start, calls) && c in Run(EmptyTables, calls).cards
    ensures var db := Run(EmptyTables, calls);
      var rows := RowsOf(db.locations, c);
      && rows != [] && rows[|rows| - 1].bucket == db.cards[c].currentBucket
      && forall i :: 0 <= i < |rows| ==> (rows[i].status == Active <==> i == |rows| - 1)
  {
    LedgerAlwaysHolds(start, calls);
  }

  lemma {:induction false} EntriesAscend(rows: seq<Location>, card: Card, now: Time, i: nat, j: nat)
    requires Tiled(rows, card, now) && i <= j < |rows|
    ensures rows[i].enteredAt <= rows[j].enteredAt
    decreases j
  {
    if i < j { EntriesAscend(rows, card, now, i, j - 1); }
  }

  /** No two rows cover the same time. */
  lemma NoOverlap(rows: seq<Location>, card: Card, now: Time, i: nat, j: nat, t: Time)
    requires Tiled(rows, card, now) && i < j < |rows| && Covers(rows[i], t)
    ensures !Covers(rows[j], t)
  {
    EntriesAscend(rows, card, now, i + 1, j);
  }

  /** Some row covers every time from the first entry on: walking back from row `k`. */
  lemma {:induction false} NoGap(rows: seq<Location>, card: Card, now: Time, k: nat, t: Time) returns (i: nat)
    requires Tiled(rows, card, now) && card.createdAt <= t && k < |rows|
    requires rows[k].exitedAt.Some? ==> t < rows[k].exitedAt.value
    ensures i <= k && Covers(rows[i], t)
  {
    i := k;
    if rows[k].enteredAt > t { i := NoGap(rows, card, now, k - 1, t); }
  }

  /** Exactly one row covers time `t`. */
  ghost predicate CoveredOnce(rows: seq<Location>, t: Time) {
    exists i :: 0 <= i < |rows| && Covers(rows[i], t)
                && forall j :: 0 <= j < |rows| && Covers(rows[j], t) ==> j == i
  }

  lemma TiledCoversOnce(rows: seq<Location>, card: Card, now: Time, t: Time)
    requires Tiled(rows, card, now) && card.createdAt <= t
    ensures CoveredOnce(rows, t)
  {
    var i := NoGap(rows, card, now, |rows| - 1, t);
    forall j | 0 <= j < |rows| && Covers(rows[j], t)
      ensures j == i
    {
      if j < i { NoOverlap(rows, card, now, j, i, t); }
      if i < j { NoOverlap(rows, card, now, i, j, t); }
    }
  }

  /** From its creation on a card is, at every time, at exactly one location of the ledger. */
  lemma CoveredExactlyOnce(start: Time, calls: seq<PgCall>, c: Uuid, t: Time)
    requires Proper(EmptyTables, start, calls) && c in Run(EmptyTables, calls).cards
    requires Run(EmptyTables, calls).cards[c].createdAt <= t
    ensures CoveredOnce(RowsOf(Run(EmptyTables, calls).locations, c), t)
  {
    LedgerAlwaysHolds(start, calls);
    TiledCoversOnce(RowsOf(Run(EmptyTables, calls).locations, c), Run(EmptyTables, calls).cards[c], Clock(start, calls), t);
  }

  // ---- the ledger as a record of the past --------------------------------------------------

  /** Every row covering time `t` names `bucket`. */
  ghost predicate Tells(rows: seq<Location>, t: Time, bucket: string) {
    forall i :: 0 <= i < |rows| && Covers(rows[i], t) ==> rows[i].bucket == bucket
  }

  /** A tiled ledger tells the present bucket for every time from its last entry on. */
  lemma TellsThePresent(rows: seq<Location>, card: Card, now: Time, t: Time)
    requires Tiled(rows, card, now) && now <= t
    ensures Tells(rows, t, card.currentBucket)
  {
    forall i | 0 <= i < |rows| && Covers(rows[i], t)
      ensures i == |rows| - 1
    { if i < |rows| - 1 { EntriesAscend(rows, card, now, i + 1, |rows| - 1); } }
  }

  lemma CreationKeepsThePast(p: Part, q: Part, card: Card, now: Time, id: Uuid, c: Uuid)
    requires Creates(p, q, card, now, id) && c in p.cards
    ensures RowsOf(q.rows, c) == RowsOf(p.rows, c)
  {
    RowsAppend(p.rows, Enter(id, card.id, card.currentBucket, now), c);
  }

  lemma MoveKeepsThePast(p: Part, q: Part, before: Time, moved: Uuid, to: string, now: Time, id: Uuid, c: Uuid, t: Time, bucket: string)
    requires LedgerHolds(p.rows, p.cards, before) && before <= now && Moves(p, q, moved, to, now, id) && t < now
    requires c in p.cards && Tells(RowsOf(p.rows, c), t, bucket)
    ensures Tells(RowsOf(q.rows, c), t, bucket)
  {
    MoveKeepsTile(p, q, before, moved, to, now, id, c);
    if c == moved {
      LeaveKeepsThePast(RowsOf(p.rows, c), c, now, t, bucket);
      TellsWithout(Leave(RowsOf(p.rows, c), c, now), Enter(id, c, to, now), t, bucket);
    }
  }

  /** A row entered later covers no earlier time. */
  lemma TellsWithout(rows: seq<Location>, row: Location, t: Time, bucket: string)
    requires Tells(rows, t, bucket) && t < row.enteredAt
    ensures Tells(rows + [row], t, bucket)
  {
  }

  /** A later call does not change what the ledger tells about an earlier time. */
  lemma TouchKeepsThePast(p: Part, q: Part, before: Time, now: Time, c: Uuid, t: Time, bucket: string)
    requires LedgerHolds(p.rows, p.cards, before) && before <= now && Touches(p, q, now) && t < now
    requires c in p.cards && Tells(RowsOf(p.rows, c), t, bucket)
    ensures Tells(RowsOf(q.rows, c), t, bucket)
  {
    if q == p {
    } else if exists card, id :: Creates(p, q, card, now, id) {
      var card, id :| Creates(p, q, card, now, id);
      CreationKeepsThePast(p, q, card, now, id, c);
    } else {
      var moved, to, id :| Moves(p, q, moved, to, now, id);
      MoveKeepsThePast(p, q, before, moved, to, now, id, c, t, bucket);
    }
  }

  lemma LeaveKeepsThePast(rows: seq<Location>, c: Uuid, now: Time, t: Time, bucket: string)
    requires Tells(rows, t, bucket) && t < now
    requires forall i :: 0 <= i < |rows| && rows[i].status == Active ==> rows[i].exitedAt.None?
    ensures Tells(Leave(rows, c, now), t, bucket)
  {
    forall i | 0 <= i < |rows| && Covers(Leave(rows, c, now)[i], t)
      ensures rows[i].bucket == bucket
    { assert Covers(rows[i], t); }
  }

  /** The state after the calls up to time `t` decides what the ledger ever tells about `t`: the
      rows covering `t` name the bucket the card had then. */
  lemma {:induction false} LedgerRemembers(start: Time, calls: seq<PgCall>, k: nat, c: Uuid, t: Time)
    requires Proper(EmptyTables, start, calls) && k <= |calls|
    requires Clock(start, calls[..k]) <= t && forall i :: k <= i < |calls| ==> t < calls[i].now
    requires c in Run(EmptyTables, calls[..k]).cards
    ensures c in Run(EmptyTables, calls).cards
    ensures Tells(RowsOf(Run(EmptyTables, calls).locations, c), t, Run(EmptyTables, calls[..k]).cards[c].currentBucket)
  {
    LedgerAlwaysHolds(start, calls);
    if k == |calls| {
      assert calls[..k] == calls;
      var db := Run(EmptyTables, calls);
      TellsThePresent(RowsOf(db.locations, c), db.cards[c], Clock(start, calls), t);
    } else {
      var front, last := calls[..|calls| - 1], calls[|calls| - 1];
      assert front[..k] == calls[..k];
      LedgerRemembers(start, front, k, c, t);
      LedgerAlwaysHolds(start, front);
      StepTouches(Run(EmptyTables, front), last);
      TouchKeepsThePast(PartOf(Run(EmptyTables, front)), PartOf(Run(EmptyTables, calls)), Clock(start, front), last.now, c, t,
                        Run(EmptyTables, calls[..k]).cards[c].currentBucket);
    }
  }
}
