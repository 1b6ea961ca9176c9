/** The Postgres runtime in the form of the program: statements against tables, inside transactions. */
module PostgresRuntime {
  import opened Prelude
  import opened Encoding
  import opened Domain
  import opened Service
  import opened PanelValidator
  import opened Requests
  import Machine
  import P = Postgres

  /** A transaction that raises restores the tables it began with. */
  class PostgresCardRuntime {
    var db: P.Tables

    constructor ()
      ensures db == P.EmptyTables
    {
      db := P.EmptyTables;
    }

    /** `_insert_event` */
    method InsertEvent(event: CardEvent)
      modifies this
      ensures db == P.Log(old(db), event)
    {
      db := db.(events := db.events + [event]);
    }

    /** `_store_idempotency`; inside a serial transaction the key was just read and is not stored. */
    method StoreIdempotency(key: Option<string>, reply: Reply)
      modifies this
      ensures db == P.Keep(old(db), key, reply)
    {
      if Truthy(key) {
        db := db.(idempotency := db.idempotency[key.value := P.RefOf(reply)]);
      }
    }

    /** `_move_card_row`; the event follows where the caller asks for one. */
    method MoveCardRow(card: Card, toBucket: string, now: Time, locationId: Uuid)
      modifies this
      ensures db == P.MoveRow(old(db), card, toBucket, now, locationId)
    {
      db := db.(locations := P.Leave(db.locations, card.id, now));
      db := db.(locations := db.locations + [P.Enter(locationId, card.id, toBucket, now)]);
      if card.id in db.cards {
        db := db.(cards := db.cards[card.id := db.cards[card.id].(currentBucket := toBucket)]);
      }
    }

    method RegisterPatchPanel(panel: PatchPanel) returns (r: Result<Reply, Error>)
      modifies this
      ensures P.Outcome(db, r) == P.Answered(old(db), Request.RegisterPanel(panel), P.Register(old(db), panel))
    {
      var report := ValidatePanel(panel);
      if report.Err? {
        return Err(ValidationFailed);
      }
      var key, version := (panel.id, panel.version), panel.WorkflowVersion();
      if key !in db.panels {
        db := db.(panels := db.panels[key := panel]);
      }
      if version !in db.versions {
        db := db.(versions := db.versions[version := key]);
      }
      r := Ok(PanelReply(panel));
    }

    method CreateCard(panelId: string, payload: Json, metadata: Json, key: Option<string>,
      now: Time, base: Uuid, version: string) returns (r: Result<Reply, Error>)
      modifies this
      ensures P.Outcome(db, r) == P.Answered(old(db), Request.CreateCard(panelId, payload, metadata, key),
        P.Create(old(db), panelId, payload, metadata, now, base, version))
    {
      var cached := P.StoredRef(db, key);
      if cached.Some? {
        return P.LoadCard(db, cached.value);
      }
      if !P.ActivePanel(db, panelId, version) {
        return Err(NotFound);
      }
      var panel := db.panels[(panelId, version)];
      var bucket := ResolveInitialBucket(panel);
      if bucket.Err? {
        return Err(bucket.error);
      }
      var card := Card(base, panel.WorkflowVersion(), bucket.value, payload, metadata, now);
      db := db.(cards := db.cards[card.id := card]);
      db := db.(locations := db.locations + [P.Enter(base + 1, card.id, bucket.value, now)]);
      InsertEvent(CreatedEvent(base + 2, card, panel, now));
      StoreIdempotency(key, CardReply(card));
      r := Ok(CardReply(card));
    }

    method SinglePatchPanel() returns (panel: Result<PatchPanel, Error>)
      ensures panel == P.SinglePanel(db)
    {
      if db.panels == map[] {
        return Err(NotFound);
      }
      if |db.panels| > 1 {
        return Err(Conflict);
      }
      var key :| key in db.panels;
      OnlyKey(db.panels, key);
      panel := Ok(db.panels[key]);
    }

    /** `row` is the row the database returns for the query, when there is one. */
    method ClaimCard(pipe: string, workerId: string, seconds: int, key: Option<string>,
      now: Time, base: Uuid, row: Uuid) returns (r: Result<Reply, Error>)
      modifies this
      ensures P.Outcome(db, r) == P.Answered(old(db), Request.ClaimCard(pipe, workerId, seconds, key),
        P.Claim(old(db), pipe, workerId, seconds, now, base, row))
    {
      var cached := P.StoredRef(db, key);
      if cached.Some? {
        return P.LoadLease(db, cached.value);
      }
      var panel := SinglePatchPanel();
      if panel.Err? {
        return Err(panel.error);
      }
      var end := ResolvePipeBucket(panel.value, pipe, Input);
      if end.Err? {
        return Err(end.error);
      }
      if row !in db.cards || db.cards[row].currentBucket != end.value.bucket
        || exists l :: l in db.leases && db.leases[l].cardId == row && db.leases[l].Active(now) {
        return Err(NotFound);
      }
      var card := db.cards[row];
      var lease := Lease(base, card.id, end.value.nodeId, workerId, pipe, now, now + seconds, None);
      db := db.(leases := db.leases[lease.id := lease]);
      InsertEvent(ClaimedEvent(base + 1, lease, now));
      StoreIdempotency(key, LeaseReply(lease));
      r := Ok(LeaseReply(lease));
    }

    /** The loop inserting the submitted references; a primary key already there raises. */
    method InsertArtifacts(refs: seq<ArtifactReference>) returns (inserted: bool)
      modifies this
      ensures inserted <==> P.Insertable(old(db).artifacts, refs)
      ensures inserted ==> db == old(db).(artifacts := Put(old(db).artifacts, refs))
    {
      var table := db.artifacts;
      for i := 0 to |refs|
        invariant db == old(db) && table == Put(db.artifacts, refs[..i])
        invariant P.Insertable(db.artifacts, refs[..i])
      {
        assert refs[..i + 1] == refs[..i] + [refs[i]];
        InsertableSnoc(db.artifacts, refs[..i], refs[i]);
        if refs[i].id in table {
          if P.Insertable(db.artifacts, refs) { InsertablePrefix(db.artifacts, refs, i + 1); }
          return false;
        }
        table := table[refs[i].id := refs[i]];
      }
      assert refs[..|refs|] == refs;
      db := db.(artifacts := table);
      return true;
    }

    method SubmitArtifact(leaseId: Uuid, pipe: string, refs: seq<ArtifactReference>, key: Option<string>,
      now: Time, base: Uuid) returns (r: Result<Reply, Error>)
      modifies this
      ensures P.Outcome(db, r) == P.Answered(old(db), Request.SubmitArtifact(leaseId, pipe, refs, key),
        P.Submit(old(db), leaseId, pipe, refs, now, base))
    {
      var cached := P.StoredRef(db, key);
      if cached.Some? {
        return P.LoadArtifacts(db, cached.value);
      }
      var begun := db;
      var allowed := P.SubmitChecks(db, leaseId, pipe, refs, now);
      if allowed.Err? {
        return Err(allowed.error);
      }
      var lease := db.leases[leaseId];
      var card := db.cards[lease.cardId];
      var destination := allowed.value.1;
      MoveCardRow(card, destination, now, base);
      db := db.(leases := db.leases[leaseId := db.leases[leaseId].(releasedAt := Some(now))]);
      InsertEvent(SubmittedEvent(base + 1, lease, refs, pipe, destination, now));
      var stored := Stored(refs, card.id, base + 1);
      var inserted := InsertArtifacts(stored);
      if !inserted {
        db := begun;
        return Err(Integrity);
      }
      StoreIdempotency(key, ArtifactsReply(stored));
      r := Ok(ArtifactsReply(stored));
    }

    method RenewLease(leaseId: Uuid, seconds: int, key: Option<string>, now: Time, base: Uuid)
      returns (r: Result<Reply, Error>)
      modifies this
      ensures P.Outcome(db, r) == P.Answered(old(db), Request.RenewLease(leaseId, seconds, key),
        P.Renew(old(db), leaseId, seconds, now, base))
    {
      var cached := P.StoredRef(db, key);
      if cached.Some? {
        return P.LoadLease(db, cached.value);
      }
      if leaseId !in db.leases {
        return Err(NotFound);
      }
      var lease := db.leases[leaseId];
      if !lease.Active(now) {
        return Err(Conflict);
      }
      var renewed := lease.(expiresAt := now + seconds);
      db := db.(leases := db.leases[leaseId := renewed]);
      InsertEvent(RenewedEvent(base, renewed, now));
      StoreIdempotency(key, LeaseReply(renewed));
      r := Ok(LeaseReply(renewed));
    }

    method ReleaseLease(leaseId: Uuid, actorId: Option<string>, key: Option<string>, now: Time, base: Uuid)
      returns (r: Result<Reply, Error>)
      modifies this
      ensures P.Outcome(db, r) == P.Answered(old(db), Request.ReleaseLease(leaseId, actorId, key),
        P.Release(old(db), leaseId, actorId, now, base))
    {
      var cached := P.StoredRef(db, key);
      if cached.Some? {
        return P.LoadLease(db, cached.value);
      }
      if leaseId !in db.leases {
        return Err(NotFound);
      }
      var lease := db.leases[leaseId];
      if lease.releasedAt.Some? {
        return Ok(LeaseReply(lease));
      }
      var released := lease.(releasedAt := Some(now));
      db := db.(leases := db.leases[leaseId := released]);
      InsertEvent(ReleasedEvent(base, lease, actorId, now));
      StoreIdempotency(key, LeaseReply(released));
      r := Ok(LeaseReply(released));
    }

    /** The loop over the overdue rows, in the order the database returns them. */
    method ExpireLeases(now: Time, base: Uuid, order: seq<Uuid>) returns (r: Result<Reply, Error>)
      requires forall i :: 0 <= i < |order| ==> order[i] in P.OverdueRows(db, now)
      modifies this
      ensures P.Outcome(db, r) == P.Answered(old(db), Request.ExpireLeases, P.ExpireAll(old(db), now, base, order))
    {
      var rows := db.leases;
      var expired: seq<Lease> := [];
      ghost var begun := db;
      for i := 0 to |order|
        invariant db.idempotency == begun.idempotency
        invariant P.Sweep(db, expired) == P.Expire(begun, now, base, order, i)
      {
        var lease := rows[order[i]];
        db := db.(leases := db.leases[lease.id := lease.(releasedAt := Some(now))]);
        InsertEvent(ExpiredEvent(base + |expired|, lease, now));
        expired := expired + [lease.(releasedAt := Some(now))];
      }
      r := Ok(LeasesReply(expired));
    }

    /** `validate_card` past its idempotency key. */
    method PerformValidation(cardId: Uuid, validatorId: string, accepted: bool, reason: Option<string>,
      exit: Option<string>, payload: Json, now: Time, base: Uuid) returns (r: Result<CardEvent, Error>)
      modifies this
      ensures P.Outcome(db, if r.Ok? then Ok(EventReply(r.value)) else Err(r.error))
           == P.Validate(old(db), cardId, validatorId, accepted, reason, exit, payload, now, base)
    {
      if cardId !in db.cards {
        return Err(NotFound);
      }
      var begun := db;
      var card := db.cards[cardId];
      var row := P.ValidationResult(base, card.id, validatorId, accepted, reason, exit, payload, now);
      db := db.(results := db.results[base := row]);
      var route := P.RouteOf(db.panels, card, exit);
      if route.Err? {
        db := begun;
        return Err(route.error);
      }
      SendAlong(card, validatorId, route.value, now, base + 1);
      var event := ValidatedEvent(base + 3, card.id, validatorId,
                                  ValidatedPayload(P.ResultVerdict(accepted, reason, base), payload, route.value), now);
      InsertEvent(event);
      r := Ok(event);
    }

    method ValidateCard(cardId: Uuid, validatorId: string, accepted: bool, reason: Option<string>,
      exit: Option<string>, payload: Json, key: Option<string>, now: Time, base: Uuid)
      returns (r: Result<Reply, Error>)
      modifies this
      ensures P.Outcome(db, r) == P.Answered(old(db),
        Request.ValidateCard(cardId, validatorId, accepted, reason, exit, payload, key),
        P.Validate(old(db), cardId, validatorId, accepted, reason, exit, payload, now, base))
    {
      var cached := P.StoredRef(db, key);
      if cached.Some? {
        return P.LoadEvent(db, cached.value);
      }
      var event := PerformValidation(cardId, validatorId, accepted, reason, exit, payload, now, base);
      if event.Err? {
        return Err(event.error);
      }
      StoreIdempotency(key, EventReply(event.value));
      r := Ok(EventReply(event.value));
    }

    method SendAlong(card: Card, validatorId: string, route: Option<Route>, now: Time, base: Uuid)
      modifies this
      ensures db == P.SentAlong(old(db), card, validatorId, route, now, base)
    {
      if route.Some? {
        MoveCardRow(card, route.value.bucket, now, base);
        InsertEvent(MovedEvent(base + 1, card, route.value.bucket, Some(validatorId), Some("validator_output"), now));
      }
    }

    method MoveCard(cardId: Uuid, toBucket: string, actorId: Option<string>, reason: Option<string>,
      key: Option<string>, now: Time, base: Uuid) returns (r: Result<Reply, Error>)
      modifies this
      ensures P.Outcome(db, r) == P.Answered(old(db), Request.MoveCard(cardId, toBucket, actorId, reason, key),
        P.Move(old(db), cardId, toBucket, actorId, reason, now, base))
    {
      var cached := P.StoredRef(db, key);
      if cached.Some? {
        return P.LoadCard(db, cached.value);
      }
      if cardId !in db.cards {
        return Err(NotFound);
      }
      var card := db.cards[cardId];
      var panel := P.PanelForCard(db.panels, card);
      if panel.Err? {
        return Err(panel.error);
      }
      if toBucket !in (set b | b in panel.value.buckets :: b.id) {
        return Err(InvalidOperation);
      }
      MoveCardRow(card, toBucket, now, base);
      InsertEvent(MovedEvent(base + 1, card, toBucket, actorId, reason, now));
      StoreIdempotency(key, CardReply(card.(currentBucket := toBucket)));
      r := Ok(CardReply(card.(currentBucket := toBucket)));
    }

    method RecordEvent(cardId: Uuid, eventType: string, actorId: Option<string>, payload: Json,
      key: Option<string>, now: Time, base: Uuid) returns (r: Result<Reply, Error>)
      modifies this
      ensures P.Outcome(db, r) == P.Answered(old(db), Request.RecordEvent(cardId, eventType, actorId, payload, key),
        P.Record(old(db), cardId, eventType, actorId, payload, now, base))
    {
      var cached := P.StoredRef(db, key);
      if cached.Some? {
        return P.LoadEvent(db, cached.value);
      }
      if cardId !in db.cards {
        return Err(NotFound);
      }
      var event := CardEvent(base, cardId, eventType, actorId, payload, now);
      InsertEvent(event);
      StoreIdempotency(key, EventReply(event));
      r := Ok(EventReply(event));
    }
  }

  lemma {:induction false} PutKeys(table: map<Uuid, ArtifactReference>, refs: seq<ArtifactReference>)
    ensures forall id :: id in Put(table, refs) <==> id in table || exists i :: 0 <= i < |refs| && refs[i].id == id
  {
    if refs != [] {
      PutKeys(table, refs[..|refs| - 1]);
    }
  }

  lemma InsertableSnoc(table: map<Uuid, ArtifactReference>, refs: seq<ArtifactReference>, ref: ArtifactReference)
    requires P.Insertable(table, refs)
    ensures P.Insertable(table, refs + [ref]) <==> ref.id !in Put(table, refs)
    ensures Put(table, refs + [ref]) == Put(table, refs)[ref.id := ref]
  {
    PutKeys(table, refs);
    assert (refs + [ref])[..|refs|] == refs;
    if P.Insertable(table, refs + [ref]) {
      assert (refs + [ref])[|refs|] == ref;
    }
  }

  lemma InsertablePrefix(table: map<Uuid, ArtifactReference>, refs: seq<ArtifactReference>, k: nat)
    requires k <= |refs| && P.Insertable(table, refs)
    ensures P.Insertable(table, refs[..k])
  {
  }

  lemma OnlyKey<K, V>(m: map<K, V>, k: K)
    requires k in m && |m| <= 1
    ensures forall other :: other in m ==> other == k
  {
    assert |m.Keys - {k}| == 0;
  }

  /** `_get_artifacts`: whatever order the rows of the query come in, the answer has the order of the ids. */
  method ArtifactsInOrder(rows: seq<ArtifactReference>, ids: seq<Uuid>, ghost table: map<Uuid, ArtifactReference>)
    returns (r: Result<seq<ArtifactReference>, Error>)
    requires forall i :: 0 <= i < |rows| ==> rows[i].id in table && table[rows[i].id] == rows[i]
    requires forall i :: 0 <= i < |ids| && ids[i] in table ==> table[ids[i]] in rows
    requires forall id :: id in table ==> table[id].id == id
    ensures r == P.GetArtifacts(table, ids)
  {
    var byId: map<Uuid, ArtifactReference> := map[];
    for i := 0 to |rows|
      invariant forall id :: id in byId ==> id in table && byId[id] == table[id]
      invariant forall j :: 0 <= j < i ==> rows[j].id in byId
    {
      byId := byId[rows[i].id := rows[i]];
    }
    var found: seq<ArtifactReference> := [];
    for i := 0 to |ids|
      invariant |found| == i && forall j :: 0 <= j < i ==> ids[j] in table && found[j] == table[ids[j]]
    {
      if ids[i] !in byId {
        assert ids[i] !in table;
        return Err(NotFound);
      }
      found := found + [byId[ids[i]]];
    }
    assert found == P.GetArtifacts(table, ids).value;
    r := Ok(found);
  }
}
