/** Loading the configured system Patch Panels into runtime and registry (defaults/bootstrap.py). */
module Bootstrap {
  import opened Prelude
  import opened Encoding
  import opened Domain
  import opened PanelValidator
  import opened Requests
  import opened Workflows
  import opened Executor
  import opened MemoryRuntime
  import M = Memory
  import R = Registry

  /** A configured path with the panel and the registry metadata its file holds. */
  datatype Configured = Configured(path: string, panel: PatchPanel, details: RegistryMetadata)

  datatype Loaded = Loaded(panelId: string, version: string, runtime: bool, registry: bool)

  /** The runtime has this version of the panel; it keeps one panel per id. */
  predicate Runs(panels: map<string, PatchPanel>, panel: PatchPanel) {
    panel.id in panels && panels[panel.id].version == panel.version
  }

  predicate Listed(shelf: R.Shelf, panel: PatchPanel) { R.EntryOf(shelf, panel.id, panel.version).Some? }

  function SystemNotes(path: string): Json {
    map["system_workflow" := Bool(true), "source_path" := Str(path)]
  }

  function SystemEntry(c: Configured, id: Uuid): R.Entry {
    R.EntryFor(id, c.panel, c.details, SystemNotes(c.path))
  }

  /** One turn of the loop. */
  ghost function LoadOne(st: Studio, c: Configured, id: Uuid): Done<Loaded> {
    var runs := Runs(st.mem.panels, c.panel);
    var registered := M.Register(st.mem, c.panel);
    if !runs && registered.result.Err? then Done(st, Err(registered.result.error))
    else
      Done(Studio(if runs then st.mem else registered.after,
                  if Listed(st.shelf, c.panel) then st.shelf else R.Shelve(st.shelf, SystemEntry(c, id))),
           Ok(Loaded(c.panel.id, c.panel.version, !runs, !Listed(st.shelf, c.panel))))
  }

  type Turn = (Studio, Configured, Uuid) -> Done<Loaded>

  /** The loop over the first `k` configured panels; an exception ends it where it stands. */
  ghost function Loop(turn: Turn, st: Studio, cs: seq<Configured>, k: nat, base: Uuid): Done<seq<Loaded>>
    requires k <= |cs|
  {
    if k == 0 then Done(st, Ok([])) else Onward(turn, Loop(turn, st, cs, k - 1, base), cs[k - 1], base + k - 1)
  }

  ghost function Onward(turn: Turn, before: Done<seq<Loaded>>, c: Configured, id: Uuid): Done<seq<Loaded>> {
    if before.result.Err? then before
    else
      var done := turn(before.after, c, id);
      Done(done.after, if done.result.Err? then Err(done.result.error) else Ok(before.result.value + [done.result.value]))
  }

  /** `bootstrap` */
  ghost function Load(st: Studio, cs: seq<Configured>, base: Uuid): Done<seq<Loaded>> {
    Loop(LoadOne, st, cs, |cs|, base)
  }

  class SystemWorkflowBootstrapper {
    const runtime: InMemoryCardRuntime
    const registry: R.InMemoryPatchPanelRegistry

    constructor (runtime: InMemoryCardRuntime, registry: R.InMemoryPatchPanelRegistry)
      ensures this.runtime == runtime && this.registry == registry
    {
      this.runtime, this.registry := runtime, registry;
    }

    ghost function Contents(): Studio
      reads runtime, registry
    {
      Studio(runtime.Snapshot(), registry.Contents())
    }

    /** `any(.. for existing in self.runtime.list_patch_panels())` */
    method AlreadyRuns(panel: PatchPanel) returns (runs: bool)
      requires runtime.Valid()
      ensures runs <==> Runs(runtime.patchPanels, panel)
    {
      for i := 0 to |runtime.panelOrder|
        invariant forall j :: 0 <= j < i ==> runtime.panelOrder[j] != panel.id || !Runs(runtime.patchPanels, panel)
      {
        var existing := runtime.patchPanels[runtime.panelOrder[i]];
        if existing.id == panel.id && existing.version == panel.version {
          return true;
        }
      }
      assert panel.id in runtime.patchPanels ==> panel.id in runtime.panelOrder;
      runs := false;
    }

    method LoadPanel(c: Configured, now: Time, id: Uuid) returns (r: Result<Loaded, Error>)
      requires runtime.Valid() && R.Kept(registry.Contents())
      modifies runtime, registry
      ensures Done(Contents(), r) == LoadOne(old(Contents()), c, id)
      ensures runtime.Valid() && R.Kept(registry.Contents())
    {
      M.RegisterKeepsValid(runtime.Snapshot(), c.panel);
      var runs := AlreadyRuns(c.panel);
      if !runs {
        var registered := runtime.RegisterPatchPanel(c.panel, now, id);
        if registered.Err? {
          return Err(registered.error);
        }
      }
      var found := registry.SearchAll(R.EVERYTHING);
      var listed := R.FirstOf(found, c.panel.id, c.panel.version).Some?;
      if !listed {
        R.ShelvingKeeps(registry.Contents(), SystemEntry(c, id));
        registry.Register(SystemEntry(c, id));
      }
      r := Ok(Loaded(c.panel.id, c.panel.version, !runs, !listed));
    }

    /** One turn of the loop. */
    method LoadNext(cs: seq<Configured>, i: nat, results: seq<Loaded>, now: Time, base: Uuid, ghost origin: Studio)
      returns (r: Result<seq<Loaded>, Error>)
      requires runtime.Valid() && R.Kept(registry.Contents()) && i < |cs|
      requires Loop(LoadOne, origin, cs, i, base) == Done(Contents(), Ok(results))
      modifies runtime, registry
      ensures runtime.Valid() && R.Kept(registry.Contents())
      ensures if r.Ok? then Loop(LoadOne, origin, cs, i + 1, base) == Done(Contents(), r)
              else Load(origin, cs, base) == Done(Contents(), r)
    {
      ghost var mid := Contents();
      var loaded := LoadPanel(cs[i], now, base + i);
      LoadMore(origin, cs, i, base, mid, results, Done(Contents(), loaded));
      r := if loaded.Ok? then Ok(results + [loaded.value]) else Err(loaded.error);
    }

    method Bootstrap(cs: seq<Configured>, now: Time, base: Uuid) returns (r: Result<seq<Loaded>, Error>)
      requires runtime.Valid() && R.Kept(registry.Contents())
      modifies runtime, registry
      ensures Done(Contents(), r) == Load(old(Contents()), cs, base)
    {
      ghost var origin := Contents();
      var results: seq<Loaded> := [];
      for i := 0 to |cs|
        invariant runtime.Valid() && R.Kept(registry.Contents())
        invariant Loop(LoadOne, origin, cs, i, base) == Done(Contents(), Ok(results))
      {
        var next := LoadNext(cs, i, results, now, base, origin);
        if next.Err? {
          return next;
        }
        results := next.value;
      }
      r := Ok(results);
    }
  }

  lemma {:induction false} FailureStops(turn: Turn, st: Studio, cs: seq<Configured>, k: nat, n: nat, base: Uuid)
    requires k <= n <= |cs| && Loop(turn, st, cs, k, base).result.Err?
    ensures Loop(turn, st, cs, n, base) == Loop(turn, st, cs, k, base)
  {
    if k < n { FailureStops(turn, st, cs, k, n - 1, base); }
  }

  lemma LoopMore(turn: Turn, st: Studio, cs: seq<Configured>, k: nat, base: Uuid, mid: Studio, results: seq<Loaded>,
    done: Done<Loaded>)
    requires k < |cs| && Loop(turn, st, cs, k, base) == Done(mid, Ok(results)) && turn(mid, cs[k], base + k) == done
    ensures done.result.Ok? ==> Loop(turn, st, cs, k + 1, base) == Done(done.after, Ok(results + [done.result.value]))
    ensures done.result.Err? ==> Loop(turn, st, cs, |cs|, base) == Done(done.after, Err(done.result.error))
  {
    if done.result.Err? { FailureStops(turn, st, cs, k + 1, |cs|, base); }
  }

  lemma LoadMore(st: Studio, cs: seq<Configured>, k: nat, base: Uuid, mid: Studio, results: seq<Loaded>, done: Done<Loaded>)
    requires k < |cs| && Loop(LoadOne, st, cs, k, base) == Done(mid, Ok(results)) && LoadOne(mid, cs[k], base + k) == done
    ensures done.result.Ok? ==> Loop(LoadOne, st, cs, k + 1, base) == Done(done.after, Ok(results + [done.result.value]))
    ensures done.result.Err? ==> Load(st, cs, base) == Done(done.after, Err(done.result.error))
  {
    LoopMore(LoadOne, st, cs, k, base, mid, results, done);
  }

  // ---- bootstrapping again -----------------------------------------------------------------

  /** No panel id is configured under two versions. */
  predicate OneVersionEach(cs: seq<Configured>) {
    forall i, j :: 0 <= i < |cs| && 0 <= j < |cs| && cs[i].panel.id == cs[j].panel.id ==>
      cs[i].panel.version == cs[j].panel.version
  }

  ghost predicate Steady(st: Studio) { M.Valid(st.mem) && R.Kept(st.shelf) }

  /** Runtime and registry both have the panel. */
  ghost predicate Has(st: Studio, panel: PatchPanel) { Runs(st.mem.panels, panel) && Listed(st.shelf, panel) }

  lemma LoadOneKeeps(st: Studio, c: Configured, id: Uuid)
    requires Steady(st)
    ensures Steady(LoadOne(st, c, id).after)
  {
    M.RegisterKeepsValid(st.mem, c.panel);
    R.ShelvingKeeps(st.shelf, SystemEntry(c, id));
  }

  /** The entry is of this version of the panel. */
  predicate Of(entry: R.Entry, panel: PatchPanel) { entry.panelId == panel.id && entry.version == panel.version }

  predicate Holds(entries: map<Uuid, R.Entry>, panel: PatchPanel) { exists id :: id in entries && Of(entries[id], panel) }

  lemma ListedIff(shelf: R.Shelf, panel: PatchPanel)
    requires R.Kept(shelf)
    ensures Listed(shelf, panel) <==> Holds(shelf.entries, panel)
  {
    R.EntryOfIff(shelf, panel.id, panel.version);
    if Listed(shelf, panel) {
      var id :| id in shelf.entries && shelf.entries[id].panelId == panel.id && shelf.entries[id].version == panel.version;
      assert Of(shelf.entries[id], panel);
    }
  }

  lemma EntryHolds(entries: map<Uuid, R.Entry>, entry: R.Entry, panel: PatchPanel)
    requires entry.id !in entries
    ensures Holds(entries[entry.id := entry], panel) <==> Holds(entries, panel) || Of(entry, panel)
  {
    var after := entries[entry.id := entry];
    if id :| id in entries && Of(entries[id], panel) { assert Of(after[id], panel); }
    if Of(entry, panel) { assert Of(after[entry.id], panel); }
    if id :| id in after && Of(after[id], panel) { assert id == entry.id || Of(entries[id], panel); }
  }

  lemma ShelvedIsListed(shelf: R.Shelf, entry: R.Entry, panel: PatchPanel)
    requires R.Kept(shelf) && entry.id !in shelf.entries
    ensures Listed(R.Shelve(shelf, entry), panel) <==>
      Listed(shelf, panel) || (entry.panelId == panel.id && entry.version == panel.version)
  {
    R.ShelvingKeeps(shelf, entry);
    ListedIff(shelf, panel);
    ListedIff(R.Shelve(shelf, entry), panel);
    EntryHolds(shelf.entries, entry, panel);
  }

  /** A turn of the loop leaves its panel in both, and keeps every other panel of another id or the same version. */
  lemma LoadOneHas(st: Studio, c: Configured, id: Uuid, panel: PatchPanel)
    requires Steady(st) && id !in st.shelf.entries && LoadOne(st, c, id).result.Ok?
    requires panel == c.panel || (Has(st, panel) && (panel.id == c.panel.id ==> panel.version == c.panel.version))
    ensures Has(LoadOne(st, c, id).after, panel)
  {
    var after := LoadOne(st, c, id).after;
    ShelvedIsListed(st.shelf, SystemEntry(c, id), panel);
  }

  /** The ids drawn for registry entries are new. */
  predicate NewEntryIds(shelf: R.Shelf, base: Uuid, n: nat) {
    forall id :: base <= id < base + n ==> id !in shelf.entries
  }

  /** A turn keeps the state steady and adds no entry but its own. */
  ghost predicate Careful(turn: Turn) {
    forall st, c, id {:trigger turn(st, c, id)} :: Steady(st) ==>
      && Steady(turn(st, c, id).after)
      && turn(st, c, id).after.shelf.entries.Keys <= st.shelf.entries.Keys + {id}
  }

  /** A successful turn leaves its panel in both, and every other that it does not replace. */
  ghost predicate Thorough(turn: Turn) {
    forall st, c, id, panel {:trigger turn(st, c, id), Has(st, panel)} {:trigger Has(turn(st, c, id).after, panel)} ::
      Steady(st) && id !in st.shelf.entries && turn(st, c, id).result.Ok?
      && (panel == c.panel || (Has(st, panel) && (panel.id == c.panel.id ==> panel.version == c.panel.version)))
      ==> Has(turn(st, c, id).after, panel)
  }

  /** A turn reports nothing new exactly when its panel was in both, and then changes nothing. */
  ghost predicate Candid(turn: Turn) {
    forall st, c, id {:trigger turn(st, c, id)} ::
      var done := turn(st, c, id);
      && (Has(st, c.panel) <==> done.result.Ok? && !done.result.value.runtime && !done.result.value.registry)
      && (Has(st, c.panel) ==> done.after == st)
  }

  lemma LoadOneIsAll()
    ensures Careful(LoadOne) && Thorough(LoadOne) && Candid(LoadOne)
  {
    forall st, c, id | Steady(st)
      ensures Steady(LoadOne(st, c, id).after)
      ensures LoadOne(st, c, id).after.shelf.entries.Keys <= st.shelf.entries.Keys + {id}
    { LoadOneKeeps(st, c, id); }
    forall st, c, id, panel | Steady(st) && id !in st.shelf.entries && LoadOne(st, c, id).result.Ok?
      && (panel == c.panel || (Has(st, panel) && (panel.id == c.panel.id ==> panel.version == c.panel.version)))
      ensures Has(LoadOne(st, c, id).after, panel)
    { LoadOneHas(st, c, id, panel); }
  }

  lemma {:induction false} LoopKeeps(turn: Turn, st: Studio, cs: seq<Configured>, k: nat, base: Uuid)
    requires Careful(turn) && Steady(st) && k <= |cs|
    ensures Steady(Loop(turn, st, cs, k, base).after)
    ensures forall id :: id in Loop(turn, st, cs, k, base).after.shelf.entries ==> id in st.shelf.entries || base <= id < base + k
  {
    if k > 0 { LoopKeeps(turn, st, cs, k - 1, base); }
  }

  lemma {:induction false} LoopHasAll(turn: Turn, st: Studio, cs: seq<Configured>, k: nat, base: Uuid)
    requires Careful(turn) && Thorough(turn) && Steady(st) && NewEntryIds(st.shelf, base, |cs|)
    requires OneVersionEach(cs) && k <= |cs| && Loop(turn, st, cs, k, base).result.Ok?
    ensures forall i :: 0 <= i < k ==> Has(Loop(turn, st, cs, k, base).after, cs[i].panel)
  {
    if k > 0 {
      var before := Loop(turn, st, cs, k - 1, base).after;
      LoopHasAll(turn, st, cs, k - 1, base);
      LoopKeeps(turn, st, cs, k - 1, base);
      forall i | 0 <= i < k
        ensures Has(turn(before, cs[k - 1], base + k - 1).after, cs[i].panel)
      { if i < k - 1 { assert Has(before, cs[i].panel); } }
    }
  }

  predicate NothingNew(results: seq<Loaded>) {
    forall i :: 0 <= i < |results| ==> !results[i].runtime && !results[i].registry
  }

  /** Loading panels that are all there changes nothing. */
  lemma {:induction false} LoopNothing(turn: Turn, st: Studio, cs: seq<Configured>, k: nat, base: Uuid)
    requires Candid(turn) && k <= |cs| && forall i :: 0 <= i < k ==> Has(st, cs[i].panel)
    ensures Loop(turn, st, cs, k, base).after == st && Loop(turn, st, cs, k, base).result.Ok?
    ensures NothingNew(Loop(turn, st, cs, k, base).result.value)
  {
    if k > 0 {
      LoopNothing(turn, st, cs, k - 1, base);
      assert Has(st, cs[k - 1].panel);
    }
  }

  /** If nothing new was loaded, all panels were there. */
  lemma {:induction false} NothingNewHadAll(turn: Turn, st: Studio, cs: seq<Configured>, k: nat, base: Uuid)
    requires Candid(turn) && k <= |cs|
    requires Loop(turn, st, cs, k, base).result.Ok? && NothingNew(Loop(turn, st, cs, k, base).result.value)
    ensures Loop(turn, st, cs, k, base).after == st && forall i :: 0 <= i < k ==> Has(st, cs[i].panel)
  {
    if k > 0 {
      var before, done := Loop(turn, st, cs, k - 1, base), Loop(turn, st, cs, k, base);
      var results := before.result.value;
      assert done.result.value[..|results|] == results;
      assert forall i :: 0 <= i < |results| ==> results[i] == done.result.value[i];
      NothingNewHadAll(turn, st, cs, k - 1, base);
      assert done.result.value[|results|] == turn(st, cs[k - 1], base + k - 1).result.value;
    }
  }

  /** The second run reports nothing new exactly when no panel id is configured under two versions: the
      runtime keeps one panel per id, so two versions replace each other on the way. */
  lemma ReportsNothingNewIff(st: Studio, cs: seq<Configured>, base: Uuid, again: Uuid)
    requires Steady(st) && NewEntryIds(st.shelf, base, |cs|) && Load(st, cs, base).result.Ok?
    ensures var first := Load(st, cs, base).after;
      var second := Load(first, cs, again);
      && (second.result.Ok? && NothingNew(second.result.value) <==> OneVersionEach(cs))
      && (OneVersionEach(cs) ==> second.after == first)
  {
    var first := Load(st, cs, base).after;
    LoadOneIsAll();
    LoopKeeps(LoadOne, st, cs, |cs|, base);
    if OneVersionEach(cs) {
      LoopHasAll(LoadOne, st, cs, |cs|, base);
      LoopNothing(LoadOne, first, cs, |cs|, again);
    } else if Load(first, cs, again).result.Ok? && NothingNew(Load(first, cs, again).result.value) {
      NothingNewHadAll(LoadOne, first, cs, |cs|, again);
    }
  }
}
