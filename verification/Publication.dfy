/** Publication over whole runs: sink executions, bootstraps, registry edits and any other runtime
    calls, in any order. */
module Publication {
  import opened Prelude
  import opened Encoding
  import opened Domain
  import opened PanelValidator
  import opened Requests
  import opened Workflows
  import opened Executor
  import opened Bootstrap
  import M = Memory
  import MR = MemoryRefinement
  import R = Registry

  datatype Deed =
    | RuntimeCall(call: Call)
    | SinkExecution(panel: PatchPanel, hasRegistry: bool, cardId: Uuid, sinkId: string, reference: Option<string>,
                    key: Option<string>, now: Time, base: Uuid)
    | Bootstrapping(configured: seq<Configured>, base: Uuid)
    | RegistryEdit(edit: R.Edit)

  ghost function Do(st: Studio, deed: Deed): Studio {
    match deed
    case RuntimeCall(call) => st.(mem := M.Step(st.mem, call).after)
    case SinkExecution(panel, hasRegistry, cardId, sinkId, reference, key, now, base) =>
      SinkRun(st, panel, hasRegistry, cardId, sinkId, reference, key, now, base).after
    case Bootstrapping(configured, base) => Load(st, configured, base).after
    case RegistryEdit(edit) => if R.Edits(st.shelf, edit).Ok? then st.(shelf := R.Edits(st.shelf, edit).value) else st
  }

  /** The ids a deed draws are new. */
  ghost predicate DrawsNewIds(st: Studio, deed: Deed) {
    match deed
    case RuntimeCall(call) => MR.FreshIds(st.mem, call)
    case SinkExecution(_, _, _, _, _, _, _, base) => base !in st.shelf.entries
    case Bootstrapping(configured, base) => NewEntryIds(st.shelf, base, |configured|)
    case RegistryEdit(_) => true
  }

  ghost function Run(st: Studio, deeds: seq<Deed>): Studio {
    if deeds == [] then st else Do(Run(st, deeds[..|deeds| - 1]), deeds[|deeds| - 1])
  }

  ghost predicate Proper(st: Studio, deeds: seq<Deed>) {
    deeds == [] || (Proper(st, deeds[..|deeds| - 1]) && DrawsNewIds(Run(st, deeds[..|deeds| - 1]), deeds[|deeds| - 1]))
  }

  const FRESH := Studio(M.Fresh, R.BARE)

  // ---- the invariant -----------------------------------------------------------------------

  predicate SameVersion(a: R.Entry, b: R.Entry) { a.panelId == b.panelId && a.version == b.version }

  predicate OnePerVersion(entries: map<Uuid, R.Entry>) {
    forall i, j :: i in entries && j in entries && SameVersion(entries[i], entries[j]) ==> i == j
  }

  predicate BySink(entry: R.Entry) { "published_by_sink" in entry.notes }

  /** The card proposed this version of a panel the validator accepts, and both approvals are in its history. */
  ghost predicate Proposed(mem: M.Mem, entry: R.Entry, card: Uuid, candidate: PatchPanel) {
    && card in mem.cards && card in mem.events && Get(entry.notes, "proposal_card_id") == Str(Text(card))
    && PublicationGate(mem.events[card])
    && Get(mem.cards[card].payload, "candidate_definition") == PanelValue(candidate) && Accepted(candidate)
    && candidate.id == entry.panelId && candidate.version == entry.version
  }

  ghost predicate Backed(mem: M.Mem, entry: R.Entry) {
    exists card, candidate :: Proposed(mem, entry, card, candidate)
  }

  ghost predicate AllBacked(mem: M.Mem, entries: map<Uuid, R.Entry>) {
    forall id :: id in entries && BySink(entries[id]) ==> Backed(mem, entries[id])
  }

  ghost predicate Orderly(st: Studio) {
    Steady(st) && OnePerVersion(st.shelf.entries) && AllBacked(st.mem, st.shelf.entries)
  }

  lemma GateStaysOpen(history: seq<CardEvent>, longer: seq<CardEvent>)
    requires PublicationGate(history) && history <= longer
    ensures PublicationGate(longer)
  {
    var i :| 0 <= i < |history| && Approves(history[i], "topological_validator", "topology_valid");
    var j :| 0 <= j < |history| && Approves(history[j], "governance_reviewer", "proposal_approved");
    assert longer[i] == history[i] && longer[j] == history[j];
  }

  lemma BackingStays(before: M.Mem, after: M.Mem, entry: R.Entry)
    requires Backed(before, entry) && Grows(before, after)
    ensures Backed(after, entry)
  {
    var card, candidate :| Proposed(before, entry, card, candidate);
    GateStaysOpen(before.events[card], after.events[card]);
    assert Proposed(after, entry, card, candidate);
  }

  lemma AllBackingStays(before: M.Mem, after: M.Mem, entries: map<Uuid, R.Entry>)
    requires AllBacked(before, entries) && Grows(before, after)
    ensures AllBacked(after, entries)
  {
    forall id | id in entries && BySink(entries[id])
      ensures Backed(after, entries[id])
    { BackingStays(before, after, entries[id]); }
  }

  // ---- each deed keeps it ------------------------------------------------------------------

  lemma ShelvingNewVersion(shelf: R.Shelf, entry: R.Entry)
    requires R.Kept(shelf) && OnePerVersion(shelf.entries) && entry.id !in shelf.entries
    requires R.EntryOf(shelf, entry.panelId, entry.version).None?
    ensures R.Kept(R.Shelve(shelf, entry)) && OnePerVersion(R.Shelve(shelf, entry).entries)
  {
    R.EntryOfIff(shelf, entry.panelId, entry.version);
    R.ShelvingKeeps(shelf, entry);
  }

  lemma PublishedEntryIsBacked(st: Studio, node: Node, card: Card, candidate: PatchPanel, details: RegistryMetadata, base: Uuid)
    requires M.Valid(st.mem) && card.id in st.mem.cards && st.mem.cards[card.id] == card
    requires PublicationGate(st.mem.events[card.id]) && Accepted(candidate)
    requires Get(card.payload, "candidate_definition") == PanelValue(candidate)
    ensures Backed(st.mem, R.EntryFor(base, candidate, PublishedDetails(details), PublicationNotes(card, node.id)))
  {
    assert Proposed(st.mem, R.EntryFor(base, candidate, PublishedDetails(details), PublicationNotes(card, node.id)), card.id, candidate);
  }

  /** Shelving a backed entry, unless its version has one. */
  lemma AddingKeeps(mem: M.Mem, shelf: R.Shelf, entry: R.Entry)
    requires Orderly(Studio(mem, shelf)) && entry.id !in shelf.entries && Backed(mem, entry)
    ensures Orderly(Studio(mem, WithEntry(shelf, entry)))
  {
    if R.EntryOf(shelf, entry.panelId, entry.version).None? { ShelvingNewVersion(shelf, entry); }
  }

  lemma RegisteringKeeps(st: Studio, panel: PatchPanel)
    requires Orderly(st)
    ensures Orderly(st.(mem := M.Register(st.mem, panel).after)) && Grows(st.mem, M.Register(st.mem, panel).after)
    ensures M.Register(st.mem, panel).after.cards == st.mem.cards
  {
    RegisterGrows(st.mem, panel);
    M.RegisterKeepsValid(st.mem, panel);
    AllBackingStays(st.mem, M.Register(st.mem, panel).after, st.shelf.entries);
  }

  /** The state a publication that succeeds leaves. */
  ghost function PublishedState(st: Studio, node: Node, card: Card, candidate: PatchPanel, details: RegistryMetadata, base: Uuid): Studio {
    Studio(M.Register(st.mem, candidate).after,
           WithEntry(st.shelf, R.EntryFor(base, candidate, PublishedDetails(details), PublicationNotes(card, node.id))))
  }

  lemma PublishLeaves(st: Studio, node: Node, card: Card, reference: Option<string>, base: Uuid)
    ensures var done := Publish(st, node, card, reference, base);
      if done.result.Err? then done.after == st
      else
        && card.id in st.mem.events && PublicationGate(st.mem.events[card.id])
        && Get(card.payload, "candidate_definition").PanelValue? && Get(card.payload, "registry_metadata").MetadataValue?
        && Accepted(Get(card.payload, "candidate_definition").panel)
        && done.after == PublishedState(st, node, card, Get(card.payload, "candidate_definition").panel,
                                        Get(card.payload, "registry_metadata").metadata, base)
  {
  }

  lemma PublishedStateKeeps(st: Studio, node: Node, card: Card, candidate: PatchPanel, details: RegistryMetadata, base: Uuid)
    requires Orderly(st) && base !in st.shelf.entries && card.id in st.mem.cards && st.mem.cards[card.id] == card
    requires PublicationGate(st.mem.events[card.id]) && Accepted(candidate)
    requires Get(card.payload, "candidate_definition") == PanelValue(candidate)
    ensures var after := PublishedState(st, node, card, candidate, details, base);
      Orderly(after) && Grows(st.mem, after.mem) && after.mem.cards == st.mem.cards
  {
    var entry := R.EntryFor(base, candidate, PublishedDetails(details), PublicationNotes(card, node.id));
    var registered := M.Register(st.mem, candidate).after;
    RegisteringKeeps(st, candidate);
    PublishedEntryIsBacked(st, node, card, candidate, details, base);
    BackingStays(st.mem, registered, entry);
    AddingKeeps(registered, st.shelf, entry);
  }

  /** The publication branch keeps the registry in order, and what it adds is backed. */
  lemma PublishKeeps(st: Studio, node: Node, card: Card, reference: Option<string>, base: Uuid)
    requires Orderly(st) && base !in st.shelf.entries && card.id in st.mem.cards && st.mem.cards[card.id] == card
    ensures var after := Publish(st, node, card, reference, base).after;
      Orderly(after) && Grows(st.mem, after.mem) && after.mem.cards == st.mem.cards
  {
    PublishLeaves(st, node, card, reference, base);
    if Publish(st, node, card, reference, base).result.Ok? {
      PublishedStateKeeps(st, node, card, Get(card.payload, "candidate_definition").panel,
                          Get(card.payload, "registry_metadata").metadata, base);
    }
  }

  lemma NoteKeeps(st: Studio, c: Call)
    requires Orderly(st) && c.req.RecordEvent?
    ensures Orderly(st.(mem := M.Step(st.mem, c).after)) && Grows(st.mem, M.Step(st.mem, c).after)
  {
    NoteGrows(st.mem, c);
    AllBackingStays(st.mem, M.Step(st.mem, c).after, st.shelf.entries);
  }

  lemma SameGrows(s: M.Mem)
    requires M.Valid(s)
    ensures Grows(s, s)
  {
  }

  lemma ConfiguredKeeps(st: Studio, hasRegistry: bool, node: Node, card: Card, reference: Option<string>, base: Uuid)
    requires Orderly(st) && base !in st.shelf.entries && card.id in st.mem.cards && st.mem.cards[card.id] == card
    ensures var after := ConfiguredSink(st, hasRegistry, node, card, reference, base).after;
      Orderly(after) && Grows(st.mem, after.mem)
  {
    if node.id != AUTHORITY_SINK && Publishes(node) && hasRegistry {
      PublishKeeps(st, node, card, reference, base);
    } else {
      SameGrows(st.mem);
    }
  }

  lemma SinkKeeps(st: Studio, panel: PatchPanel, hasRegistry: bool, cardId: Uuid, sinkId: string,
    reference: Option<string>, key: Option<string>, now: Time, base: Uuid)
    requires Orderly(st) && base !in st.shelf.entries
    ensures var after := SinkRun(st, panel, hasRegistry, cardId, sinkId, reference, key, now, base).after;
      Orderly(after) && Grows(st.mem, after.mem)
  {
    var checked := SinkChecks(st.mem.cards, panel, cardId, sinkId);
    if checked.Ok? {
      var done := ConfiguredSink(st, hasRegistry, checked.value, st.mem.cards[cardId], reference, base);
      ConfiguredKeeps(st, hasRegistry, checked.value, st.mem.cards[cardId], reference, base);
      if done.result.Ok? {
        var c := Call(SinkRecord(cardId, checked.value, done.result.value, key), now, base + 1);
        NoteKeeps(done.after, c);
        GrowsOn(st.mem, done.after.mem, M.Step(done.after.mem, c).after);
      }
    }
  }

  lemma TurnKeeps(st: Studio, c: Configured, id: Uuid)
    requires Orderly(st) && id !in st.shelf.entries
    ensures Orderly(LoadOne(st, c, id).after) && Grows(st.mem, LoadOne(st, c, id).after.mem)
  {
    var done := LoadOne(st, c, id);
    RegisterGrows(st.mem, c.panel);
    LoadOneKeeps(st, c, id);
    AllBackingStays(st.mem, done.after.mem, st.shelf.entries);
    if done.after.shelf != st.shelf { ShelvingNewVersion(st.shelf, SystemEntry(c, id)); }
  }

  ghost predicate KeepsOrder(turn: Turn) {
    forall st, c, id {:trigger turn(st, c, id)} :: Orderly(st) && id !in st.shelf.entries ==>
      Orderly(turn(st, c, id).after) && Grows(st.mem, turn(st, c, id).after.mem)
  }

  lemma OnwardKeeps(turn: Turn, st: Studio, before: Done<seq<Loaded>>, c: Configured, id: Uuid)
    requires KeepsOrder(turn) && Orderly(before.after) && Grows(st.mem, before.after.mem) && id !in before.after.shelf.entries
    ensures Orderly(Onward(turn, before, c, id).after) && Grows(st.mem, Onward(turn, before, c, id).after.mem)
  {
    if before.result.Ok? { GrowsOn(st.mem, before.after.mem, turn(before.after, c, id).after.mem); }
  }

  lemma {:induction false} LoopKeepsOrder(turn: Turn, st: Studio, cs: seq<Configured>, k: nat, base: Uuid)
    requires Careful(turn) && KeepsOrder(turn) && Orderly(st) && NewEntryIds(st.shelf, base, |cs|) && k <= |cs|
    ensures Orderly(Loop(turn, st, cs, k, base).after) && Grows(st.mem, Loop(turn, st, cs, k, base).after.mem)
  {
    if k > 0 {
      LoopKeepsOrder(turn, st, cs, k - 1, base);
      LoopKeeps(turn, st, cs, k - 1, base);
      OnwardKeeps(turn, st, Loop(turn, st, cs, k - 1, base), cs[k - 1], base + k - 1);
    }
  }

  lemma BootstrapKeeps(st: Studio, cs: seq<Configured>, base: Uuid)
    requires Orderly(st) && NewEntryIds(st.shelf, base, |cs|)
    ensures Orderly(Load(st, cs, base).after) && Grows(st.mem, Load(st, cs, base).after.mem)
  {
    LoadOneIsAll();
    forall x, c, id | Orderly(x) && id !in x.shelf.entries
      ensures Orderly(LoadOne(x, c, id).after) && Grows(x.mem, LoadOne(x, c, id).after.mem)
    { TurnKeeps(x, c, id); }
    LoopKeepsOrder(LoadOne, st, cs, |cs|, base);
  }

  /** An edited entry is still of its version and keeps its notes. */
  lemma EditedEntry(before: R.Entry, edit: R.Edit)
    requires R.Edited(before, edit).Ok?
    ensures var entry := R.Edited(before, edit).value;
      entry.id == before.id && SameVersion(entry, before) && entry.notes == before.notes
  {
  }

  lemma StillBacked(mem: M.Mem, before: R.Entry, entry: R.Entry)
    requires Backed(mem, before) && SameVersion(entry, before) && entry.notes == before.notes
    ensures Backed(mem, entry)
  {
    var card, candidate :| Proposed(mem, before, card, candidate);
    assert Proposed(mem, entry, card, candidate);
  }

  /** Edits change neither an entry's version nor its notes. */
  lemma EditKeeps(st: Studio, edit: R.Edit)
    requires Orderly(st) && R.Edits(st.shelf, edit).Ok?
    ensures Orderly(st.(shelf := R.Edits(st.shelf, edit).value))
  {
    var before := st.shelf.entries[edit.id];
    var entry := R.Edited(before, edit).value;
    EditedEntry(before, edit);
    R.ShelvingKeeps(st.shelf, entry);
    if BySink(entry) { StillBacked(st.mem, before, entry); }
  }

  lemma DeedKeeps(st: Studio, deed: Deed)
    requires Orderly(st) && DrawsNewIds(st, deed)
    ensures Orderly(Do(st, deed)) && Grows(st.mem, Do(st, deed).mem)
  {
    match deed
    case RuntimeCall(call) =>
      CallGrows(st.mem, call);
      AllBackingStays(st.mem, M.Step(st.mem, call).after, st.shelf.entries);
    case SinkExecution(panel, hasRegistry, cardId, sinkId, reference, key, now, base) =>
      SinkKeeps(st, panel, hasRegistry, cardId, sinkId, reference, key, now, base);
    case Bootstrapping(configured, base) => BootstrapKeeps(st, configured, base);
    case RegistryEdit(edit) => if R.Edits(st.shelf, edit).Ok? { EditKeeps(st, edit); }
  }

  lemma {:induction false} RunKeeps(st: Studio, deeds: seq<Deed>)
    requires Orderly(st) && Proper(st, deeds)
    ensures Orderly(Run(st, deeds)) && Grows(st.mem, Run(st, deeds).mem)
  {
    if deeds != [] {
      var front := Run(st, deeds[..|deeds| - 1]);
      RunKeeps(st, deeds[..|deeds| - 1]);
      DeedKeeps(front, deeds[|deeds| - 1]);
      GrowsOn(st.mem, front.mem, Run(st, deeds).mem);
    }
  }

  // ---- what holds over all runs ------------------------------------------------------------

  lemma FreshIsOrderly()
    ensures Orderly(FRESH)
  {
  }

  /** There is never more than one registry entry for a panel version. */
  lemma OneEntryPerVersion(deeds: seq<Deed>, i: Uuid, j: Uuid)
    requires Proper(FRESH, deeds)
    requires i in Run(FRESH, deeds).shelf.entries && j in Run(FRESH, deeds).shelf.entries
    requires SameVersion(Run(FRESH, deeds).shelf.entries[i], Run(FRESH, deeds).shelf.entries[j])
    ensures i == j
  {
    FreshIsOrderly();
    RunKeeps(FRESH, deeds);
  }

  /** Every entry a sink has added names, then and ever after, a candidate the validator accepts and
      a card whose history holds both approvals. */
  lemma SinkEntriesAreBacked(deeds: seq<Deed>, id: Uuid) returns (card: Uuid, candidate: PatchPanel)
    requires Proper(FRESH, deeds)
    requires id in Run(FRESH, deeds).shelf.entries && BySink(Run(FRESH, deeds).shelf.entries[id])
    ensures Proposed(Run(FRESH, deeds).mem, Run(FRESH, deeds).shelf.entries[id], card, candidate)
  {
    FreshIsOrderly();
    RunKeeps(FRESH, deeds);
    var st := Run(FRESH, deeds);
    assert Backed(st.mem, st.shelf.entries[id]);
    card, candidate :| Proposed(st.mem, st.shelf.entries[id], card, candidate);
  }

  /** A publication that succeeds leaves exactly the entry it answers for. */
  lemma PublishingPublishes(st: Studio, node: Node, card: Card, reference: Option<string>, base: Uuid)
    requires Orderly(st) && base !in st.shelf.entries && card.id in st.mem.cards && st.mem.cards[card.id] == card
    requires Publish(st, node, card, reference, base).result.Ok?
    ensures Get(card.payload, "candidate_definition").PanelValue?
    ensures var after, candidate := Publish(st, node, card, reference, base).after, Get(card.payload, "candidate_definition").panel;
      && candidate.id in after.mem.panels && after.mem.panels[candidate.id] == candidate
      && exists id :: id in after.shelf.entries && after.shelf.entries[id].panelId == candidate.id
                      && after.shelf.entries[id].version == candidate.version
  {
    var after, candidate := Publish(st, node, card, reference, base).after, Get(card.payload, "candidate_definition").panel;
    R.EntryOfIff(st.shelf, candidate.id, candidate.version);
    if R.EntryOf(st.shelf, candidate.id, candidate.version).None? { assert base in after.shelf.entries; }
  }
}
