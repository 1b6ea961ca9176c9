/** Genesis intents: search, launch and proposal (genesis/service.py). */
module Genesis {
  import opened Prelude
  import opened Encoding
  import opened Domain
  import opened Requests
  import opened Executor
  import opened MemoryRuntime
  import M = Memory
  import R = Registry

  datatype IntentStatus = Received | DesignRequired | Launched | Proposed

  datatype Intent = Intent(id: Uuid, requestedBy: string, dedup: string, goal: string, inputType: string,
    desiredOutputs: seq<string>, tags: seq<string>, riskLevel: Option<string>, constraints: Json,
    status: IntentStatus, candidates: seq<Uuid>, selected: Option<Uuid>, launched: Option<Uuid>, proposal: Option<Uuid>)

  // ---- searching ---------------------------------------------------------------------------

  const ANY := R.Filters(None, None, None, None, false, false)

  function FiltersOf(intent: Intent): seq<R.Filters> {
    [ANY.(inputType := Some(intent.inputType))]
    + seq(|intent.desiredOutputs|, i requires 0 <= i < |intent.desiredOutputs| => ANY.(outputType := Some(intent.desiredOutputs[i])))
    + seq(|intent.tags|, i requires 0 <= i < |intent.tags| => ANY.(tag := Some(intent.tags[i])))
    + if Truthy(intent.riskLevel) then [ANY.(riskLevel := intent.riskLevel)] else []
  }

  function Ids(found: seq<R.Entry>): set<Uuid> { set e | e in found :: e.id }

  /** The inner loop: the entries not seen yet, appended in order. */
  function AddNew(found: seq<R.Entry>, more: seq<R.Entry>): seq<R.Entry> {
    if more == [] then found
    else
      var before, last := AddNew(found, more[..|more| - 1]), more[|more| - 1];
      if last.id in Ids(before) then before else before + [last]
  }

  function Collected(shelf: R.Shelf, filters: seq<R.Filters>): seq<R.Entry> {
    if filters == [] then []
    else AddNew(Collected(shelf, filters[..|filters| - 1]), R.Search(shelf, filters[|filters| - 1]))
  }

  predicate NoRepeats(found: seq<R.Entry>) {
    forall i, j :: 0 <= i < j < |found| ==> found[i].id != found[j].id
  }

  /** Of entries that are alike when their ids are, adding keeps all, once each. */
  lemma {:induction false} AddNewAddsAll(found: seq<R.Entry>, more: seq<R.Entry>)
    requires NoRepeats(found)
    requires forall a, b :: (a in found || a in more) && (b in found || b in more) && a.id == b.id ==> a == b
    ensures NoRepeats(AddNew(found, more))
    ensures forall e :: e in AddNew(found, more) <==> e in found || e in more
    ensures found <= AddNew(found, more)
  {
    if more != [] {
      var front, last := more[..|more| - 1], more[|more| - 1];
      assert more == front + [last];
      AddNewAddsAll(found, front);
      var before := AddNew(found, front);
      if last.id in Ids(before) {
        var e :| e in before && e.id == last.id;
      }
    }
  }

  /** Some filter of the search matches the entry. */
  predicate Wanted(shelf: R.Shelf, filters: seq<R.Filters>, e: R.Entry) {
    e.id in shelf.entries && shelf.entries[e.id] == e && exists f :: f in filters && R.Matches(e, f)
  }

  /** A search answers every entry some filter matches, each once; earlier filters come first. */
  lemma {:induction false} CollectsMatches(shelf: R.Shelf, filters: seq<R.Filters>)
    requires R.Kept(shelf)
    ensures NoRepeats(Collected(shelf, filters))
    ensures forall e :: e in Collected(shelf, filters) <==> Wanted(shelf, filters, e)
    ensures filters != [] ==> Collected(shelf, filters[..|filters| - 1]) <= Collected(shelf, filters)
  {
    if filters != [] {
      var front, last := filters[..|filters| - 1], filters[|filters| - 1];
      assert filters == front + [last];
      CollectsMatches(shelf, front);
      R.SearchFindsMatches(shelf, last);
      AddNewAddsAll(Collected(shelf, front), R.Search(shelf, last));
    }
  }

  // ---- receiving, launching, proposing -----------------------------------------------------

  datatype Desk = Desk(intents: map<Uuid, Intent>, index: map<string, Uuid>)

  datatype Office = Office(mem: M.Mem, shelf: R.Shelf, desk: Desk)

  datatype Handled<T> = Handled(after: Office, result: Result<T, Error>)

  function EntryIds(found: seq<R.Entry>): seq<Uuid> {
    seq(|found|, i requires 0 <= i < |found| => found[i].id)
  }

  /** The intent as it is stored: with its candidates, and asking for a design when there are none. */
  function Prepared(shelf: R.Shelf, asked: Intent, proposeIfMissing: bool): Intent {
    var found := Collected(shelf, FiltersOf(asked));
    asked.(candidates := EntryIds(found),
           status := if found == [] && proposeIfMissing then DesignRequired else asked.status)
  }

  /** `receive_intent` */
  function Receive(o: Office, asked: Intent, proposeIfMissing: bool): Handled<Intent> {
    if asked.dedup in o.desk.index then
      var id := o.desk.index[asked.dedup];
      Handled(o, if id in o.desk.intents then Ok(o.desk.intents[id]) else Err(NotFound))
    else
      var intent := Prepared(o.shelf, asked, proposeIfMissing);
      Handled(o.(desk := Desk(o.desk.intents[intent.id := intent], o.desk.index[intent.dedup := intent.id])), Ok(intent))
  }

  function LaunchKey(dedup: string, entry: Uuid): string {
    "genesis:launch:" + dedup + ":" + Text(entry)
  }

  function Strings(texts: seq<string>): Value {
    List(seq(|texts|, i requires 0 <= i < |texts| => Str(texts[i])))
  }

  function LaunchRequest(intent: Intent, entry: R.Entry): Request {
    CreateCard(entry.panelId,
      map["goal" := Str(intent.goal), "input_type" := Str(intent.inputType),
          "desired_outputs" := Strings(intent.desiredOutputs), "tags" := Strings(intent.tags),
          "constraints" := Obj(intent.constraints)],
      map["genesis_intent_id" := Str(Text(intent.id)), "registry_entry_id" := Str(Text(entry.id)),
          "requested_by" := Str(intent.requestedBy)],
      Some(LaunchKey(intent.dedup, entry.id)))
  }

  function Selected(intent: Intent, entry: Option<Uuid>): Option<Uuid> {
    if entry.Some? then entry else if intent.candidates != [] then Some(intent.candidates[0]) else None
  }

  /** The intent and the registry entry a launch is about. */
  function LaunchChecks(desk: Desk, entries: map<Uuid, R.Entry>, intentId: Uuid, entryId: Option<Uuid>)
    : Result<(Intent, R.Entry), Error>
  {
    if intentId !in desk.intents then Err(NotFound)
    else
      match Selected(desk.intents[intentId], entryId)
      case None => Err(Conflict)
      case Some(id) => if id !in entries then Err(NotFound) else Ok((desk.intents[intentId], entries[id]))
  }

  function Updated(desk: Desk, intent: Intent): Desk { desk.(intents := desk.intents[intent.id := intent]) }

  /** `launch` */
  ghost function Launching(o: Office, intentId: Uuid, entryId: Option<Uuid>, now: Time, base: Uuid): Handled<Card> {
    match LaunchChecks(o.desk, o.shelf.entries, intentId, entryId)
    case Err(e) => Handled(o, Err(e))
    case Ok((intent, entry)) =>
      var c := Call(LaunchRequest(intent, entry), now, base);
      var done := M.Step(o.mem, c);
      StepFits(o.mem, c);
      match done.result
      case Err(e) => Handled(o.(mem := done.after), Err(e))
      case Ok(reply) =>
        Handled(Office(done.after, o.shelf,
                       Updated(o.desk, intent.(status := Launched, selected := Some(entry.id), launched := Some(reply.card.id)))),
                Ok(reply.card))
  }

  const SYSTEM_PP_APPROVAL_ID := "system_pp_approval"

  function ProposeKey(intent: Uuid, panel: PatchPanel): string {
    "genesis:propose:" + Text(intent) + ":" + panel.WorkflowVersion()
  }

  function ProposeRequest(intent: Intent, proposedBy: string, candidate: PatchPanel, details: RegistryMetadata): Request {
    CreateCard(SYSTEM_PP_APPROVAL_ID,
      map["kind" := Str("patch_panel_proposal"), "proposal_type" := Str("create"),
          "genesis_intent_id" := Str(Text(intent.id)), "proposed_by" := Str(proposedBy),
          "candidate_definition" := PanelValue(candidate), "registry_metadata" := MetadataValue(details)],
      map["genesis_intent_id" := Str(Text(intent.id)), "proposed_by" := Str(proposedBy),
          "candidate_patch_panel_id" := Str(candidate.id)],
      Some(ProposeKey(intent.id, candidate)))
  }

  /** `propose` */
  ghost function Proposing(o: Office, intentId: Uuid, proposedBy: string, candidate: PatchPanel, details: RegistryMetadata,
    now: Time, base: Uuid): Handled<Card>
  {
    if intentId !in o.desk.intents then Handled(o, Err(NotFound))
    else
      var intent := o.desk.intents[intentId];
      var c := Call(ProposeRequest(intent, proposedBy, candidate, details), now, base);
      var done := M.Step(o.mem, c);
      StepFits(o.mem, c);
      match done.result
      case Err(e) => Handled(o.(mem := done.after), Err(e))
      case Ok(reply) =>
        Handled(Office(done.after, o.shelf, Updated(o.desk, intent.(status := Proposed, proposal := Some(reply.card.id)))),
                Ok(reply.card))
  }

  // ---- one intent per deduplication key ----------------------------------------------------

  /** The index and the intents say the same, so no two intents share a key. */
  ghost predicate Indexed(desk: Desk) {
    && (forall k :: k in desk.index ==> desk.index[k] in desk.intents && desk.intents[desk.index[k]].dedup == k)
    && (forall id :: id in desk.intents ==>
          && desk.intents[id].id == id && desk.intents[id].dedup in desk.index && desk.index[desk.intents[id].dedup] == id)
  }

  /** Receiving a key again changes nothing and answers the intent first received under it. */
  lemma ReceivedOnce(o: Office, asked: Intent, proposeIfMissing: bool)
    requires Indexed(o.desk) && asked.id !in o.desk.intents
    ensures var done := Receive(o, asked, proposeIfMissing);
      && Indexed(done.after.desk) && done.result.Ok? && done.result.value.dedup == asked.dedup
      && done.result.value.id in done.after.desk.intents && done.after.desk.intents[done.result.value.id] == done.result.value
      && (asked.dedup in o.desk.index ==> done.after == o)
      && (forall again: Intent, b :: again.dedup == asked.dedup ==>
            Receive(done.after, again, b) == Handled(done.after, Ok(done.result.value)))
  {
  }

  // ---- derived keys ------------------------------------------------------------------------

  lemma NoColonInText(id: Uuid)
    ensures ':' !in Text(id)
  {
  }

  /** Launch keys never collide: not even a colon in the deduplication key can make them. */
  lemma LaunchKeysCollideIff(d: string, e: Uuid, f: string, g: Uuid)
    ensures LaunchKey(d, e) == LaunchKey(f, g) <==> d == f && e == g
  {
    if LaunchKey(d, e) == LaunchKey(f, g) {
      var head, other := "genesis:launch:" + d, "genesis:launch:" + f;
      assert LaunchKey(d, e) == Version(head, Text(e)) && LaunchKey(f, g) == Version(other, Text(g));
      LastSplitRecovers(head, Text(e));
      LastSplitRecovers(other, Text(g));
      assert head[|"genesis:launch:"|..] == d && other[|"genesis:launch:"|..] == f;
      assert Version(head, Text(e))[|head| + 1..] == Text(e) && Version(other, Text(g))[|other| + 1..] == Text(g);
      assert ParseUuid(Text(e)) == Some(e) && ParseUuid(Text(g)) == Some(g);
    }
  }

  /** Proposal keys collide exactly when the intent is the same and the workflow versions read the same. */
  lemma ProposeKeysCollideIff(i: Uuid, p: PatchPanel, j: Uuid, q: PatchPanel)
    ensures ProposeKey(i, p) == ProposeKey(j, q) <==> i == j && p.WorkflowVersion() == q.WorkflowVersion()
  {
    if ProposeKey(i, p) == ProposeKey(j, q) {
      var rest, other := Version(Text(i), p.WorkflowVersion()), Version(Text(j), q.WorkflowVersion());
      assert ProposeKey(i, p)[|"genesis:propose:"|..] == rest && ProposeKey(j, q)[|"genesis:propose:"|..] == other;
      NoColonInText(i);
      NoColonInText(j);
      SplitFirstIs(Text(i), p.WorkflowVersion());
      SplitFirstIs(Text(j), q.WorkflowVersion());
      assert ParseUuid(Text(i)) == Some(i) && ParseUuid(Text(j)) == Some(j);
    }
  }

  // ---- the service -------------------------------------------------------------------------

  class GenesisService {
    const runtime: InMemoryCardRuntime
    const registry: R.InMemoryPatchPanelRegistry
    var intents: map<Uuid, Intent>
    var deduplicationIndex: map<string, Uuid>

    constructor (runtime: InMemoryCardRuntime, registry: R.InMemoryPatchPanelRegistry)
      ensures this.runtime == runtime && this.registry == registry
      ensures intents == map[] && deduplicationIndex == map[]
    {
      this.runtime, this.registry := runtime, registry;
      intents, deduplicationIndex := map[], map[];
    }

    ghost function Contents(): Office
      reads this, runtime, registry
    {
      Office(runtime.Snapshot(), registry.Contents(), Desk(intents, deduplicationIndex))
    }

    /** The inner loop of the search, with its `seen` set. */
    method AddUnseen(candidates: seq<R.Entry>, seen: set<Uuid>, found: seq<R.Entry>)
      returns (more: seq<R.Entry>, ids: set<Uuid>)
      requires seen == Ids(candidates)
      ensures more == AddNew(candidates, found) && ids == Ids(more)
    {
      more, ids := candidates, seen;
      for j := 0 to |found|
        invariant more == AddNew(candidates, found[..j]) && ids == Ids(more)
      {
        assert found[..j + 1][..j] == found[..j];
        if found[j].id !in ids {
          ids := ids + {found[j].id};
          more := more + [found[j]];
        }
      }
      assert found[..|found|] == found;
    }

    method SearchCandidates(intent: Intent) returns (candidates: seq<R.Entry>)
      requires R.Kept(registry.Contents())
      ensures candidates == Collected(registry.Contents(), FiltersOf(intent))
    {
      candidates := [];
      var seen: set<Uuid> := {};
      var filters := FiltersOf(intent);
      for i := 0 to |filters|
        invariant candidates == Collected(registry.Contents(), filters[..i]) && seen == Ids(candidates)
      {
        var found := registry.SearchAll(filters[i]);
        candidates, seen := AddUnseen(candidates, seen, found);
        assert filters[..i + 1][..i] == filters[..i];
      }
      assert filters[..|filters|] == filters;
    }

    method ReceiveIntent(asked: Intent, proposeIfMissing: bool) returns (r: Result<Intent, Error>)
      requires R.Kept(registry.Contents())
      modifies this
      ensures Handled(Contents(), r) == Receive(old(Contents()), asked, proposeIfMissing)
    {
      if asked.dedup in deduplicationIndex {
        var id := deduplicationIndex[asked.dedup];
        return if id in intents then Ok(intents[id]) else Err(NotFound);
      }
      var candidates := SearchCandidates(asked);
      var intent := asked.(candidates := EntryIds(candidates));
      if candidates == [] && proposeIfMissing {
        intent := intent.(status := DesignRequired);
      }
      intents := intents[intent.id := intent];
      deduplicationIndex := deduplicationIndex[intent.dedup := intent.id];
      r := Ok(intent);
    }

    method Launch(intentId: Uuid, entryId: Option<Uuid>, now: Time, base: Uuid) returns (r: Result<Card, Error>)
      modifies this, runtime
      ensures Handled(Contents(), r) == Launching(old(Contents()), intentId, entryId, now, base)
    {
      var checked := LaunchChecks(Desk(intents, deduplicationIndex), registry.entries, intentId, entryId);
      if checked.Err? {
        return Err(checked.error);
      }
      var (intent, entry) := checked.value;
      var request := LaunchRequest(intent, entry);
      StepFits(runtime.Snapshot(), Call(request, now, base));
      var created := runtime.CreateCard(request.panelId, request.payload, request.metadata, request.key, now, base);
      if created.Err? {
        return Err(created.error);
      }
      var card := created.value.card;
      intents := intents[intent.id := intent.(status := Launched, selected := Some(entry.id), launched := Some(card.id))];
      r := Ok(card);
    }

    method Propose(intentId: Uuid, proposedBy: string, candidate: PatchPanel, details: RegistryMetadata, now: Time, base: Uuid)
      returns (r: Result<Card, Error>)
      modifies this, runtime
      ensures Handled(Contents(), r) == Proposing(old(Contents()), intentId, proposedBy, candidate, details, now, base)
    {
      if intentId !in intents {
        return Err(NotFound);
      }
      var intent := intents[intentId];
      var request := ProposeRequest(intent, proposedBy, candidate, details);
      StepFits(runtime.Snapshot(), Call(request, now, base));
      var created := runtime.CreateCard(request.panelId, request.payload, request.metadata, request.key, now, base);
      if created.Err? {
        return Err(created.error);
      }
      var card := created.value.card;
      intents := intents[intent.id := intent.(status := Proposed, proposal := Some(card.id))];
      r := Ok(card);
    }
  }
}
