/**
 `PostgresLeaseStore` under concurrency (runtime/sqlalchemy_store.py): any number of
 `acquire_lease` and `release_lease` transactions, one event a statement, in any interleaving.
 A `FOR UPDATE` lock lasts to the end of its transaction, and a statement sees what was
 committed before it (READ COMMITTED).
 */
module LeaseStore {
  import opened Prelude
  import opened Encoding
  import opened Domain

  /** The arguments of `acquire_lease`; a missing key and the empty key are alike. */
  datatype Ask = Ask(card: Uuid, nodeId: string, workerId: string, pipe: string, seconds: int, key: string)

  /** The statement an acquiring transaction runs next. */
  datatype Stage =
    | ReadingKey
    | LockingCard
    | CheckingActive
    | InsertingLease(seen: Time)
    | InsertingKey(draft: Lease)
    | Committing(draft: Lease)

  datatype Txn =
    | Acquiring(ask: Ask, at: Stage)
    | Acquired(ask: Ask, answer: Result<Uuid, Error>)
    | Releasing(leaseId: Uuid, stamp: Option<Time>)
    | Released(leaseId: Uuid, failure: Option<Error>)
  {
    predicate InFlight() { Acquiring? || Releasing? }

    predicate HoldsCard() {
      Acquiring? && (at.CheckingActive? || at.InsertingLease? || at.InsertingKey? || at.Committing?)
    }

    predicate Checked() { Acquiring? && (at.InsertingLease? || at.InsertingKey? || at.Committing?) }

    predicate HasDraft() { Acquiring? && (at.InsertingKey? || at.Committing?) }

    /** The transaction has updated its lease row and not committed it. */
    predicate HasStamp() { Releasing? && stamp.Some? }

    /** The transaction has inserted its idempotency record and not committed it. */
    predicate HasKey() { Acquiring? && at.Committing? && ask.key != "" }
  }

  /** A committed lease and the key its transaction ran under. */
  datatype Row = Row(lease: Lease, key: string)

  datatype World = World(clock: Time, cards: set<Uuid>, leases: map<Uuid, Row>, keys: map<string, Uuid>,
    txns: map<nat, Txn>)

  function Start(clock: Time): World { World(clock, {}, map[], map[], map[]) }

  datatype Event =
    | Tick(now: Time)
    | AddCard(card: Uuid)
    | BeginAcquire(t: nat, ask: Ask)
    | ReadKey(t: nat)
    | LockCard(t: nat)
    | CheckActive(t: nat, seen: Time)
    | InsertLease(t: nat, id: Uuid, claimed: Time, read: Time)
    | InsertKey(t: nat)
    | Commit(t: nat)
    | BeginRelease(t: nat, leaseId: Uuid)
    | UpdateLease(t: nat, stamp: Time)
    | CommitRelease(t: nat)
    | Abort(t: nat)

  predicate AtStage(w: World, t: nat) { t in w.txns && w.txns[t].Acquiring? }

  /** Another transaction holds the row lock of `card`. */
  predicate CardLocked(w: World, card: Uuid, t: nat) {
    exists u :: u in w.txns && u != t && w.txns[u].HoldsCard() && w.txns[u].ask.card == card
  }

  /** Another transaction has inserted the record of `key` and is still in flight. */
  predicate KeyPending(w: World, key: string, t: nat) {
    exists u :: u in w.txns && u != t && w.txns[u].HasKey() && w.txns[u].ask.key == key
  }

  /** Another transaction has updated the lease row and is still in flight. */
  predicate RowLocked(w: World, leaseId: Uuid, t: nat) {
    exists u :: u in w.txns && u != t && w.txns[u].HasStamp() && w.txns[u].leaseId == leaseId
  }

  /** A committed lease of the card is active at `seen`. */
  predicate ActiveRow(w: World, card: Uuid, seen: Time) {
    exists l :: l in w.leases && w.leases[l].lease.cardId == card && w.leases[l].lease.Active(seen)
  }

  /** `uuid4()` draws an id no lease has, committed or not. */
  predicate NewId(w: World, id: Uuid) {
    id !in w.leases && forall u :: u in w.txns && w.txns[u].HasDraft() ==> w.txns[u].at.draft.id != id
  }

  /** When an event can happen; a statement that must wait for a lock cannot happen yet. */
  predicate Can(w: World, e: Event) {
    match e
    case Tick(now) => w.clock <= now
    case AddCard(_) => true
    case BeginAcquire(t, _) => t !in w.txns
    case ReadKey(t) => AtStage(w, t) && w.txns[t].at.ReadingKey?
    case LockCard(t) => AtStage(w, t) && w.txns[t].at.LockingCard? && !CardLocked(w, w.txns[t].ask.card, t)
    case CheckActive(t, seen) => AtStage(w, t) && w.txns[t].at.CheckingActive? && seen <= w.clock
    case InsertLease(t, id, claimed, read) =>
      && AtStage(w, t) && w.txns[t].at.InsertingLease? && NewId(w, id)
      && w.txns[t].at.seen <= claimed <= read <= w.clock
    case InsertKey(t) => AtStage(w, t) && w.txns[t].at.InsertingKey? && !KeyPending(w, w.txns[t].ask.key, t)
    case Commit(t) => AtStage(w, t) && w.txns[t].at.Committing?
    case BeginRelease(t, _) => t !in w.txns
    case UpdateLease(t, stamp) =>
      && t in w.txns && w.txns[t].Releasing? && w.txns[t].stamp.None? && stamp <= w.clock
      && !RowLocked(w, w.txns[t].leaseId, t)
    case CommitRelease(t) => t in w.txns && w.txns[t].HasStamp()
    case Abort(t) => t in w.txns && w.txns[t].InFlight()
  }

  function GoTo(w: World, t: nat, at: Stage): World
    requires AtStage(w, t)
  {
    w.(txns := w.txns[t := w.txns[t].(at := at)])
  }

  /** The transaction ends without a write of its own. */
  function Answer(w: World, t: nat, answer: Result<Uuid, Error>): World
    requires AtStage(w, t)
  {
    w.(txns := w.txns[t := Acquired(w.txns[t].ask, answer)])
  }

  function NewLease(ask: Ask, id: Uuid, claimed: Time, read: Time): Lease {
    Lease(id, ask.card, ask.nodeId, ask.workerId, ask.pipe, claimed, read + ask.seconds, None)
  }

  /** What an event does. A raised exception rolls its transaction back. */
  function Do(w: World, e: Event): World
    requires Can(w, e)
  {
    match e
    case Tick(now) => w.(clock := now)
    case AddCard(card) => w.(cards := w.cards + {card})
    case BeginAcquire(t, ask) =>
      w.(txns := w.txns[t := Acquiring(ask, if ask.key == "" then LockingCard else ReadingKey)])
    case ReadKey(t) =>
      var key := w.txns[t].ask.key;
      if key in w.keys then Answer(w, t, Ok(w.keys[key])) else GoTo(w, t, LockingCard)
    case LockCard(t) =>
      if w.txns[t].ask.card !in w.cards then Answer(w, t, Err(NotFound)) else GoTo(w, t, CheckingActive)
    case CheckActive(t, seen) =>
      if ActiveRow(w, w.txns[t].ask.card, seen) then Answer(w, t, Err(Conflict)) else GoTo(w, t, InsertingLease(seen))
    case InsertLease(t, id, claimed, read) =>
      var draft := NewLease(w.txns[t].ask, id, claimed, read);
      GoTo(w, t, if w.txns[t].ask.key == "" then Committing(draft) else InsertingKey(draft))
    case InsertKey(t) =>
      if w.txns[t].ask.key in w.keys then Answer(w, t, Err(Conflict)) else GoTo(w, t, Committing(w.txns[t].at.draft))
    case Commit(t) =>
      var ask, draft := w.txns[t].ask, w.txns[t].at.draft;
      Answer(w.(leases := w.leases[draft.id := Row(draft, ask.key)],
                keys := if ask.key == "" then w.keys else w.keys[ask.key := draft.id]), t, Ok(draft.id))
    case BeginRelease(t, leaseId) => w.(txns := w.txns[t := Releasing(leaseId, None)])
    case UpdateLease(t, stamp) =>
      var leaseId := w.txns[t].leaseId;
      w.(txns := w.txns[t := if leaseId in w.leases && w.leases[leaseId].lease.releasedAt.None?
                             then Releasing(leaseId, Some(stamp)) else Released(leaseId, Some(NotFound))])
    case CommitRelease(t) =>
      var leaseId := w.txns[t].leaseId;
      w.(leases := if leaseId in w.leases
                   then w.leases[leaseId := w.leases[leaseId].(lease := w.leases[leaseId].lease.(releasedAt := w.txns[t].stamp))]
                   else w.leases,
         txns := w.txns[t := Released(leaseId, None)])
    case Abort(t) =>
      w.(txns := w.txns[t := if w.txns[t].Acquiring? then Acquired(w.txns[t].ask, Err(Aborted))
                             else Released(w.txns[t].leaseId, Some(Aborted))])
  }

  // ---- interleavings -----------------------------------------------------------------------

  predicate Possible(w: World, es: seq<Event>)
    decreases |es|, 0
  {
    es == [] || (Possible(w, es[..|es| - 1]) && Can(After(w, es[..|es| - 1]), es[|es| - 1]))
  }

  function After(w: World, es: seq<Event>): World
    requires Possible(w, es)
    decreases |es|, 1
  {
    if es == [] then w else Do(After(w, es[..|es| - 1]), es[|es| - 1])
  }

  // ---- the invariant -----------------------------------------------------------------------

  /** Not active at clock reading `now`, nor at any later one. */
  predicate Over(lease: Lease, now: Time) { lease.releasedAt.Some? || lease.expiresAt <= now }

  predicate CardFree(w: World, card: Uuid) {
    forall l :: l in w.leases && w.leases[l].lease.cardId == card ==> Over(w.leases[l].lease, w.clock)
  }

  /** The row lock of a card is held by one transaction at a time. */
  predicate LocksExclude(w: World) {
    forall t, u :: t in w.txns && u in w.txns && t != u && w.txns[t].HoldsCard() && w.txns[u].HoldsCard()
      ==> w.txns[t].ask.card != w.txns[u].ask.card
  }

  /** Once a transaction has checked its card, the card stays free. */
  predicate ChecksLast(w: World) {
    forall t :: t in w.txns && w.txns[t].Checked() ==> CardFree(w, w.txns[t].ask.card)
  }

  predicate DraftsFit(w: World) {
    && (forall t :: t in w.txns && w.txns[t].HasDraft() ==>
          w.txns[t].at.draft.cardId == w.txns[t].ask.card && w.txns[t].at.draft.id !in w.leases)
    && (forall t, u :: t in w.txns && u in w.txns && t != u && w.txns[t].HasDraft() && w.txns[u].HasDraft()
          ==> w.txns[t].at.draft.id != w.txns[u].at.draft.id)
  }

  /** A pending release is of an open lease, and no two are of the same. */
  predicate ReleasesFit(w: World) {
    && (forall t :: t in w.txns && w.txns[t].HasStamp() ==>
          w.txns[t].leaseId in w.leases && w.leases[w.txns[t].leaseId].lease.releasedAt.None?)
    && (forall t, u :: t in w.txns && u in w.txns && t != u && w.txns[t].HasStamp() && w.txns[u].HasStamp()
          ==> w.txns[t].leaseId != w.txns[u].leaseId)
  }

  /** Records not yet committed are new, and no two transactions hold the same. */
  predicate PendingKeysNew(w: World) {
    && (forall t :: t in w.txns && w.txns[t].HasKey() ==> w.txns[t].ask.key !in w.keys)
    && (forall t, u :: t in w.txns && u in w.txns && t != u && w.txns[t].HasKey() && w.txns[u].HasKey()
          ==> w.txns[t].ask.key != w.txns[u].ask.key)
  }

  /** The idempotency table and the keys of the committed leases say the same. */
  predicate KeysMatch(w: World) {
    && (forall k :: k in w.keys ==> k != "" && w.keys[k] in w.leases && w.leases[w.keys[k]].key == k)
    && (forall l :: l in w.leases && w.leases[l].key != "" ==>
          w.leases[l].key in w.keys && w.keys[w.leases[l].key] == l)
  }

  /** Every answer names a committed lease made under the answered key. */
  predicate AnswersStand(w: World) {
    forall t :: t in w.txns && w.txns[t].Acquired? && w.txns[t].answer.Ok? ==>
      w.txns[t].answer.value in w.leases && w.leases[w.txns[t].answer.value].key == w.txns[t].ask.key
  }

  /** Of two leases of a card, one is over. */
  predicate Exclusive(w: World) {
    forall l, m :: l in w.leases && m in w.leases && l != m && w.leases[l].lease.cardId == w.leases[m].lease.cardId
      ==> Over(w.leases[l].lease, w.clock) || Over(w.leases[m].lease, w.clock)
  }

  predicate Safe(w: World) {
    && LocksExclude(w) && ChecksLast(w) && DraftsFit(w) && ReleasesFit(w)
    && PendingKeysNew(w) && KeysMatch(w) && AnswersStand(w) && Exclusive(w)
  }

  lemma StartIsSafe(clock: Time)
    ensures Safe(Start(clock))
  {
  }

  // ---- every event keeps it ----------------------------------------------------------------

  /** The same lease, released or not; once released, the very same. */
  predicate Kept(before: Row, after: Row) {
    && after.key == before.key && after.lease.(releasedAt := None) == before.lease.(releasedAt := None)
    && (before.lease.releasedAt.Some? ==> after == before)
  }

  /** Committed leases are kept and the clock does not go back. */
  predicate Keeps(w: World, x: World) {
    w.clock <= x.clock && forall l :: l in w.leases ==> l in x.leases && Kept(w.leases[l], x.leases[l])
  }

  lemma LeasesAreKept(w: World, e: Event)
    requires DraftsFit(w) && ReleasesFit(w) && Can(w, e)
    ensures Keeps(w, Do(w, e))
    ensures forall l :: l in Do(w, e).leases && l !in w.leases ==>
      e.Commit? && Do(w, e).leases[l] == Row(w.txns[e.t].at.draft, w.txns[e.t].ask.key) && l == w.txns[e.t].at.draft.id
  {
  }

  lemma KeepsLocks(w: World, e: Event)
    requires LocksExclude(w) && Can(w, e)
    ensures LocksExclude(Do(w, e))
  {
  }

  lemma CommitKeepsChecks(w: World, t: nat)
    requires LocksExclude(w) && ChecksLast(w) && DraftsFit(w) && Can(w, Commit(t))
    ensures ChecksLast(Do(w, Commit(t)))
  {
  }

  lemma KeepsChecks(w: World, e: Event)
    requires LocksExclude(w) && ChecksLast(w) && DraftsFit(w) && ReleasesFit(w) && Can(w, e)
    ensures ChecksLast(Do(w, e))
  {
    if e.Commit? { CommitKeepsChecks(w, e.t); } else { LeasesAreKept(w, e); }
  }

  lemma KeepsDrafts(w: World, e: Event)
    requires DraftsFit(w) && Can(w, e)
    ensures DraftsFit(Do(w, e))
  {
  }

  lemma KeepsReleases(w: World, e: Event)
    requires DraftsFit(w) && ReleasesFit(w) && Can(w, e)
    ensures ReleasesFit(Do(w, e))
  {
  }

  lemma KeepsPendingKeys(w: World, e: Event)
    requires PendingKeysNew(w) && Can(w, e)
    ensures PendingKeysNew(Do(w, e))
  {
  }

  lemma CommitKeepsKeys(w: World, t: nat)
    requires DraftsFit(w) && PendingKeysNew(w) && KeysMatch(w) && Can(w, Commit(t))
    ensures KeysMatch(Do(w, Commit(t)))
  {
  }

  lemma KeepsKeys(w: World, e: Event)
    requires DraftsFit(w) && ReleasesFit(w) && PendingKeysNew(w) && KeysMatch(w) && Can(w, e)
    ensures KeysMatch(Do(w, e))
  {
    if e.Commit? {
      CommitKeepsKeys(w, e.t);
    } else {
      LeasesAreKept(w, e);
      assert Do(w, e).keys == w.keys;
    }
  }

  lemma KeepsAnswers(w: World, e: Event)
    requires DraftsFit(w) && ReleasesFit(w) && KeysMatch(w) && AnswersStand(w) && Can(w, e)
    ensures AnswersStand(Do(w, e))
  {
    LeasesAreKept(w, e);
  }

  lemma CommitKeepsExclusive(w: World, t: nat)
    requires ChecksLast(w) && DraftsFit(w) && Exclusive(w) && Can(w, Commit(t))
    ensures Exclusive(Do(w, Commit(t)))
  {
  }

  lemma KeepsExclusive(w: World, e: Event)
    requires ChecksLast(w) && DraftsFit(w) && ReleasesFit(w) && Exclusive(w) && Can(w, e)
    ensures Exclusive(Do(w, e))
  {
    if e.Commit? { CommitKeepsExclusive(w, e.t); } else { LeasesAreKept(w, e); }
  }

  lemma EventKeepsSafe(w: World, e: Event)
    requires Safe(w) && Can(w, e)
    ensures Safe(Do(w, e)) && Keeps(w, Do(w, e))
  {
    LeasesAreKept(w, e);
    KeepsLocks(w, e);
    KeepsChecks(w, e);
    KeepsDrafts(w, e);
    KeepsReleases(w, e);
    KeepsPendingKeys(w, e);
    KeepsKeys(w, e);
    KeepsAnswers(w, e);
    KeepsExclusive(w, e);
  }

  // ---- what holds under every interleaving -------------------------------------------------

  lemma KeepsOnKeeping(w: World, x: World, y: World)
    requires Keeps(w, x) && Keeps(x, y)
    ensures Keeps(w, y)
  {
  }

  lemma {:induction false} InterleavingsAreSafe(w: World, es: seq<Event>)
    requires Safe(w) && Possible(w, es)
    ensures Safe(After(w, es)) && Keeps(w, After(w, es))
  {
    if es != [] {
      var mid := After(w, es[..|es| - 1]);
      InterleavingsAreSafe(w, es[..|es| - 1]);
      EventKeepsSafe(mid, es[|es| - 1]);
      KeepsOnKeeping(w, mid, After(w, es));
    }
  }

  /** Whatever the interleaving, no two committed leases of a card are active at the clock
      reading of the state or at any later one. */
  lemma OneActiveLease(clock: Time, es: seq<Event>, l: Uuid, m: Uuid, later: Time)
    requires Possible(Start(clock), es) && After(Start(clock), es).clock <= later
    requires l in After(Start(clock), es).leases && m in After(Start(clock), es).leases && l != m
    requires After(Start(clock), es).leases[l].lease.cardId == After(Start(clock), es).leases[m].lease.cardId
    ensures !(After(Start(clock), es).leases[l].lease.Active(later) && After(Start(clock), es).leases[m].lease.Active(later))
  {
    StartIsSafe(clock);
    InterleavingsAreSafe(Start(clock), es);
  }

  /** A key names at most one committed lease, and the idempotency table names the same one. */
  lemma KeyNamesOneLease(clock: Time, es: seq<Event>, l: Uuid)
    requires Possible(Start(clock), es)
    requires l in After(Start(clock), es).leases && After(Start(clock), es).leases[l].key != ""
    ensures var w := After(Start(clock), es);
      && w.leases[l].key in w.keys && w.keys[w.leases[l].key] == l
      && forall m :: m in w.leases && w.leases[m].key == w.leases[l].key ==> m == l
  {
    StartIsSafe(clock);
    InterleavingsAreSafe(Start(clock), es);
  }

  /** Two calls under one key that both succeed answer the same lease. */
  lemma SameKeySameAnswer(clock: Time, es: seq<Event>, t: nat, u: nat)
    requires Possible(Start(clock), es)
    requires var txns := After(Start(clock), es).txns;
      && t in txns && txns[t].Acquired? && txns[t].answer.Ok?
      && u in txns && txns[u].Acquired? && txns[u].answer.Ok?
      && txns[t].ask.key == txns[u].ask.key && txns[t].ask.key != ""
    ensures After(Start(clock), es).txns[t].answer == After(Start(clock), es).txns[u].answer
  {
    StartIsSafe(clock);
    InterleavingsAreSafe(Start(clock), es);
    var w := After(Start(clock), es);
    KeyNamesOneLease(clock, es, w.txns[t].answer.value);
  }

  /** A committed lease is never lost or handed over, a released one never changes again, and a
      call that reads its key any time later is answered with it. */
  lemma CommittedLeaseStands(w: World, es: seq<Event>, l: Uuid, t: nat)
    requires Safe(w) && Possible(w, es) && l in w.leases
    ensures l in After(w, es).leases && Kept(w.leases[l], After(w, es).leases[l])
    ensures var x := After(w, es);
      w.leases[l].key != "" && Can(x, ReadKey(t)) && x.txns[t].ask.key == w.leases[l].key ==>
        t in Do(x, ReadKey(t)).txns && Do(x, ReadKey(t)).txns[t] == Acquired(x.txns[t].ask, Ok(l))
  {
    InterleavingsAreSafe(w, es);
  }

  // ---- what a retry can count on -----------------------------------------------------------

  /** The transaction is yet to read its key: it has not begun, or is about to. */
  predicate ToRead(w: World, t: nat) {
    t in w.txns ==> w.txns[t].Acquiring? && w.txns[t].at.ReadingKey?
  }

  /** Under key `k` the transaction went on without an answer, or has raised. */
  predicate Doomed(w: World, t: nat, k: string) {
    && t in w.txns && (w.txns[t].Acquiring? || w.txns[t].Acquired?) && w.txns[t].ask.key == k
    && (w.txns[t].Acquiring? ==> !w.txns[t].at.ReadingKey?)
    && (w.txns[t].Acquired? ==> w.txns[t].answer.Err?)
  }

  /** Under key `k` the transaction has been answered by the committed lease, or has been aborted if `aborted`. */
  predicate Served(w: World, t: nat, k: string, l: Uuid, aborted: bool) {
    && t in w.txns && w.txns[t].Acquired? && w.txns[t].ask.key == k
    && w.txns[t].answer == if aborted then Err(Aborted) else Ok(l)
  }

  lemma DoomedStays(w: World, e: Event, t: nat, k: string)
    requires PendingKeysNew(w) && k != "" && k in w.keys && Can(w, e) && Doomed(w, t, k)
    ensures k in Do(w, e).keys && Doomed(Do(w, e), t, k)
  {
  }

  /** The transaction is of another key, has still to read this one, or was served. */
  predicate InOrder(w: World, t: nat, k: string, l: Uuid, aborted: bool) {
    t in w.txns && (w.txns[t].Acquiring? || w.txns[t].Acquired?) && w.txns[t].ask.key == k ==>
      (w.txns[t].Acquiring? && w.txns[t].at.ReadingKey? && !aborted) || Served(w, t, k, l, aborted)
  }

  lemma ReaderStays(w: World, e: Event, t: nat, k: string, l: Uuid, aborted: bool)
    requires PendingKeysNew(w) && k != "" && k in w.keys && w.keys[k] == l && Can(w, e)
    requires InOrder(w, t, k, l, aborted) && (t !in w.txns ==> !aborted)
    ensures k in Do(w, e).keys && Do(w, e).keys[k] == l
    ensures InOrder(Do(w, e), t, k, l, aborted || e == Abort(t)) && (t !in Do(w, e).txns ==> !aborted && e != Abort(t))
  {
  }

  lemma {:induction false} DoomedFails(w: World, es: seq<Event>, t: nat, k: string)
    requires Safe(w) && k != "" && k in w.keys && Possible(w, es) && Doomed(w, t, k)
    ensures k in After(w, es).keys && Doomed(After(w, es), t, k)
  {
    if es != [] {
      DoomedFails(w, es[..|es| - 1], t, k);
      InterleavingsAreSafe(w, es[..|es| - 1]);
      DoomedStays(After(w, es[..|es| - 1]), es[|es| - 1], t, k);
    }
  }

  lemma {:induction false} ReaderIsServed(w: World, es: seq<Event>, t: nat, k: string)
    requires Safe(w) && k != "" && k in w.keys && Possible(w, es) && ToRead(w, t)
    ensures k in After(w, es).keys && After(w, es).keys[k] == w.keys[k]
    ensures InOrder(After(w, es), t, k, w.keys[k], Abort(t) in es)
    ensures t !in After(w, es).txns ==> Abort(t) !in es
  {
    if es != [] {
      var front, e := es[..|es| - 1], es[|es| - 1];
      assert es == front + [e];
      ReaderIsServed(w, front, t, k);
      InterleavingsAreSafe(w, front);
      ReaderStays(After(w, front), e, t, k, w.keys[k], Abort(t) in front);
    }
  }

  /** Once a key is committed, an acquisition under it that ends succeeds exactly when it had not read
      the key before that commit and is not aborted; and then it answers the committed lease. A retry
      that overlaps its first call is on the wrong side of this, whatever it asks for. */
  lemma RetrySucceedsIff(w: World, es: seq<Event>, k: string, t: nat)
    requires Safe(w) && k != "" && k in w.keys && Possible(w, es)
    requires t in w.txns ==> w.txns[t].Acquiring?
    requires t in After(w, es).txns && After(w, es).txns[t].Acquired? && After(w, es).txns[t].ask.key == k
    ensures var answer := After(w, es).txns[t].answer;
      && (answer.Ok? <==> (t in w.txns ==> w.txns[t].at.ReadingKey?) && Abort(t) !in es)
      && (answer.Ok? ==> answer == Ok(w.keys[k]))
  {
    if t in w.txns { AsksStay(w, es, t, w.txns[t].ask); }
    if t in w.txns && !w.txns[t].at.ReadingKey? { DoomedFails(w, es, t, k); } else { ReaderIsServed(w, es, t, k); }
  }

  predicate Asked(w: World, t: nat, ask: Ask) {
    t in w.txns && (w.txns[t].Acquiring? || w.txns[t].Acquired?) && w.txns[t].ask == ask
  }

  lemma AskStays(w: World, e: Event, t: nat, ask: Ask)
    requires Can(w, e) && Asked(w, t, ask)
    ensures Asked(Do(w, e), t, ask)
  {
  }

  lemma {:induction false} AsksStay(w: World, es: seq<Event>, t: nat, ask: Ask)
    requires Possible(w, es) && Asked(w, t, ask)
    ensures Asked(After(w, es), t, ask)
  {
    if es != [] {
      AsksStay(w, es[..|es| - 1], t, ask);
      AskStays(After(w, es[..|es| - 1]), es[|es| - 1], t, ask);
    }
  }

  const ASKED := Ask(1, "n", "v", "p", 60, "k")

  /** The two calls of one request have read its key and found it unused. */
  lemma OverlapBegins(clock: Time) returns (es: seq<Event>, w: World)
    ensures Possible(Start(clock), es) && w == After(Start(clock), es)
    ensures w == World(clock, {1}, map[], map[], map[0 := Acquiring(ASKED, LockingCard), 1 := Acquiring(ASKED, LockingCard)])
  {
    es, w := [], Start(clock);
    es, w := Then(es, w, AddCard(1), clock);
    es, w := Then(es, w, BeginAcquire(0, ASKED), clock);
    es, w := Then(es, w, BeginAcquire(1, ASKED), clock);
    es, w := Then(es, w, ReadKey(0), clock);
    es, w := Then(es, w, ReadKey(1), clock);
  }

  lemma FirstCommits(clock: Time) returns (es: seq<Event>, w: World)
    ensures Possible(Start(clock), es) && w == After(Start(clock), es)
    ensures w == World(clock, {1}, map[10 := Row(NewLease(ASKED, 10, clock, clock), "k")], map["k" := 10],
                       map[0 := Acquired(ASKED, Ok(10)), 1 := Acquiring(ASKED, LockingCard)])
  {
    es, w := OverlapBegins(clock);
    es, w := Then(es, w, LockCard(0), clock);
    es, w := Then(es, w, CheckActive(0, clock), clock);
    es, w := Then(es, w, InsertLease(0, 10, clock, clock), clock);
    es, w := Then(es, w, InsertKey(0), clock);
    es, w := Then(es, w, Commit(0), clock);
  }

  /** Answering by key so holds only once the first call has committed: here a request and its retry
      overlap, the retry waits for the card's lock, and then it is refused for the lease the first call
      has just committed under their key. */
  lemma OverlappingRetryFails(clock: Time) returns (es: seq<Event>)
    ensures Possible(Start(clock), es)
    ensures var w := After(Start(clock), es);
      && "k" in w.keys && w.keys["k"] == 10
      && 0 in w.txns && w.txns[0] == Acquired(ASKED, Ok(10))
      && 1 in w.txns && w.txns[1] == Acquired(ASKED, Err(Conflict))
  {
    var w;
    es, w := FirstCommits(clock);
    es, w := Then(es, w, LockCard(1), clock);
    assert w.leases[10].lease.cardId == 1 && w.leases[10].lease.Active(clock);
    es, w := Then(es, w, CheckActive(1, clock), clock);
  }

  lemma Then(es: seq<Event>, w: World, e: Event, clock: Time) returns (more: seq<Event>, next: World)
    requires Possible(Start(clock), es) && w == After(Start(clock), es) && Can(w, e)
    ensures more == es + [e] && next == Do(w, e)
    ensures Possible(Start(clock), more) && next == After(Start(clock), more)
  {
    more, next := es + [e], Do(w, e);
    assert more[..|more| - 1] == es;
  }

  // ---- the methods, with no other transaction in flight ------------------------------------

  predicate Quiet(w: World) { forall t :: t in w.txns ==> !w.txns[t].InFlight() }

  /** What `acquire_lease` answers without writing, when nothing else is in flight. */
  function AnswersAtOnce(w: World, ask: Ask, seen: Time): Option<Result<Uuid, Error>> {
    if ask.key != "" && ask.key in w.keys then Some(Ok(w.keys[ask.key]))
    else if ask.card !in w.cards then Some(Err(NotFound))
    else if ActiveRow(w, ask.card, seen) then Some(Err(Conflict))
    else None
  }

  class PostgresLeaseStore {
    var w: World

    constructor (clock: Time)
      ensures w == Start(clock)
    {
      w := Start(clock);
    }

    method Execute(e: Event, ghost es: seq<Event>, ghost origin: World) returns (ghost more: seq<Event>)
      requires Can(w, e) && Possible(origin, es) && w == After(origin, es)
      modifies this
      ensures w == Do(old(w), e) && Possible(origin, more) && w == After(origin, more)
    {
      w := Do(w, e);
      more := es + [e];
      assert more[..|more| - 1] == es;
    }

    /** The writes of `acquire_lease`: the lease, the idempotency record, the commit. */
    method Write(t: nat, id: Uuid, claimed: Time, read: Time, ghost before: seq<Event>, ghost origin: World)
      returns (ghost es: seq<Event>)
      requires t in w.txns && w.txns[t].Acquiring? && w.txns[t].at.InsertingLease? && NewId(w, id)
      requires w.txns[t].at.seen <= claimed <= read <= w.clock
      requires w.txns[t].ask.key == "" || w.txns[t].ask.key !in w.keys
      requires forall u :: u in w.txns && u != t ==> !w.txns[u].InFlight()
      requires Possible(origin, before) && w == After(origin, before)
      modifies this
      ensures Possible(origin, es) && w == After(origin, es)
      ensures var ask := old(w.txns[t].ask);
        && w.txns == old(w).txns[t := Acquired(ask, Ok(id))]
        && w.cards == old(w).cards && w.clock == old(w).clock
        && w.leases == old(w).leases[id := Row(NewLease(ask, id, claimed, read), ask.key)]
        && w.keys == if ask.key != "" then old(w).keys[ask.key := id] else old(w).keys
    {
      es := Execute(InsertLease(t, id, claimed, read), before, origin);
      if w.txns[t].ask.key != "" { es := Execute(InsertKey(t), es, origin); }
      es := Execute(Commit(t), es, origin);
    }

    /** Locking the card row and looking for its active lease. */
    method ReadCard(t: nat, ask: Ask, seen: Time, ghost before: seq<Event>, ghost origin: World)
      returns (ghost es: seq<Event>)
      requires t in w.txns && w.txns[t] == Acquiring(ask, LockingCard) && seen <= w.clock
      requires forall u :: u in w.txns && u != t ==> !w.txns[u].InFlight()
      requires Possible(origin, before) && w == After(origin, before)
      modifies this
      ensures Possible(origin, es) && w == After(origin, es)
      ensures w == old(w).(txns := w.txns) && t in w.txns && w.txns == old(w).txns[t := w.txns[t]]
      ensures w.txns[t] == if ask.card !in w.cards then Acquired(ask, Err(NotFound))
                           else if ActiveRow(old(w), ask.card, seen) then Acquired(ask, Err(Conflict))
                           else Acquiring(ask, InsertingLease(seen))
    {
      es := Execute(LockCard(t), before, origin);
      if w.txns[t].Acquiring? { es := Execute(CheckActive(t, seen), es, origin); }
    }

    /** The reads of `acquire_lease`: the idempotency record, then the card. */
    method Read(t: nat, ask: Ask, seen: Time) returns (ghost es: seq<Event>)
      requires Quiet(w) && t !in w.txns && seen <= w.clock
      modifies this
      ensures Possible(old(w), es) && w == After(old(w), es)
      ensures w == old(w).(txns := w.txns) && t in w.txns && w.txns == old(w).txns[t := w.txns[t]]
      ensures w.txns[t] ==
        match AnswersAtOnce(old(w), ask, seen)
        case Some(answer) => Acquired(ask, answer)
        case None => Acquiring(ask, InsertingLease(seen))
    {
      ghost var origin := w;
      es := Execute(BeginAcquire(t, ask), [], origin);
      if ask.key != "" { es := Execute(ReadKey(t), es, origin); }
      if w.txns[t].Acquiring? { es := ReadCard(t, ask, seen, es, origin); }
    }

    /** `acquire_lease`, statement by statement: a run of the protocol that answers by key, refuses a
        missing or leased card, and else commits one new lease under its key. */
    method AcquireLease(t: nat, ask: Ask, id: Uuid, seen: Time, claimed: Time, read: Time)
      returns (answer: Result<Uuid, Error>, ghost es: seq<Event>)
      requires Quiet(w) && t !in w.txns && NewId(w, id) && seen <= claimed <= read <= w.clock
      modifies this
      ensures Possible(old(w), es) && w == After(old(w), es)
      ensures w.txns == old(w).txns[t := Acquired(ask, answer)]
      ensures w.cards == old(w).cards && w.clock == old(w).clock
      ensures match AnswersAtOnce(old(w), ask, seen)
        case Some(early) => answer == early && w.leases == old(w).leases && w.keys == old(w).keys
        case None =>
          && answer == Ok(id)
          && w.leases == old(w).leases[id := Row(NewLease(ask, id, claimed, read), ask.key)]
          && w.keys == (if ask.key != "" then old(w).keys[ask.key := id] else old(w).keys)
    {
      ghost var origin := w;
      es := Read(t, ask, seen);
      if w.txns[t].Acquiring? { es := Write(t, id, claimed, read, es, origin); }
      answer := w.txns[t].answer;
    }

    /** The statement of `release_lease` and its commit. */
    method ReleaseLease(t: nat, leaseId: Uuid, stamp: Time) returns (failure: Option<Error>, ghost es: seq<Event>)
      requires Quiet(w) && t !in w.txns && stamp <= w.clock
      modifies this
      ensures Possible(old(w), es) && w == After(old(w), es)
      ensures w.txns == old(w).txns[t := Released(leaseId, failure)]
      ensures w.cards == old(w).cards && w.clock == old(w).clock && w.keys == old(w).keys
      ensures failure.None? <==> leaseId in old(w).leases && old(w).leases[leaseId].lease.releasedAt.None?
      ensures failure.Some? ==> failure == Some(NotFound) && w.leases == old(w).leases
      ensures failure.None? ==>
        var row := old(w).leases[leaseId];
        w.leases == old(w).leases[leaseId := row.(lease := row.lease.(releasedAt := Some(stamp)))]
    {
      ghost var origin := w;
      es := Execute(BeginRelease(t, leaseId), [], origin);
      es := Execute(UpdateLease(t, stamp), es, origin);
      if w.txns[t].Releasing? { es := Execute(CommitRelease(t), es, origin); }
      failure := w.txns[t].failure;
    }
  }
}
