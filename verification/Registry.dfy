/** The Patch Panel registry (registry/service.py, InMemoryPatchPanelRegistry). */
module Registry {
  import opened Prelude
  import opened Encoding
  import opened Domain

  datatype Entry = Entry(id: Uuid, panelId: string, version: string, details: RegistryMetadata,
    supersedes: Option<Uuid>, notes: Json)

  /** `from_patch_panel` */
  function EntryFor(id: Uuid, panel: PatchPanel, details: RegistryMetadata, notes: Json): Entry {
    Entry(id, panel.id, panel.version, details, None, notes)
  }

  datatype Filters = Filters(tag: Option<string>, inputType: Option<string>, outputType: Option<string>,
    riskLevel: Option<string>, includeArchived: bool, includeSuperseded: bool)

  const EVERYTHING := Filters(None, None, None, None, true, true)

  /** `_entry_matches` */
  predicate Matches(entry: Entry, filters: Filters) {
    && (entry.details.status == Archived ==> filters.includeArchived)
    && (entry.details.status == Superseded ==> filters.includeSuperseded)
    && (Truthy(filters.tag) ==> filters.tag.value in entry.details.tags)
    && (Truthy(filters.inputType) ==> filters.inputType.value in entry.details.inputTypes)
    && (Truthy(filters.outputType) ==> filters.outputType.value in entry.details.outputTypes)
    && (Truthy(filters.riskLevel) ==> filters.riskLevel == entry.details.riskLevel)
  }

  /** The dictionary of entries and its insertion order. */
  datatype Shelf = Shelf(entries: map<Uuid, Entry>, order: seq<Uuid>)

  const BARE := Shelf(map[], [])

  ghost predicate Kept(shelf: Shelf) {
    Lists(shelf.order, shelf.entries.Keys) && forall id :: id in shelf.entries ==> shelf.entries[id].id == id
  }

  function Shelve(shelf: Shelf, entry: Entry): Shelf {
    Shelf(shelf.entries[entry.id := entry], Push(shelf.order, shelf.entries.Keys, entry.id))
  }

  lemma ShelvingKeeps(shelf: Shelf, entry: Entry)
    requires Kept(shelf)
    ensures Kept(Shelve(shelf, entry))
  {
    assert Shelve(shelf, entry).entries.Keys == shelf.entries.Keys + {entry.id};
  }

  /** `search`: the matching entries in the order of insertion. */
  function Search(shelf: Shelf, filters: Filters): seq<Entry> {
    Found(shelf.entries, shelf.order, filters)
  }

  function Found(entries: map<Uuid, Entry>, order: seq<Uuid>, filters: Filters): seq<Entry> {
    if order == [] then []
    else
      var last := order[|order| - 1];
      Found(entries, order[..|order| - 1], filters)
      + if last in entries && Matches(entries[last], filters) then [entries[last]] else []
  }

  lemma {:induction false} FoundIffMatches(entries: map<Uuid, Entry>, order: seq<Uuid>, filters: Filters)
    ensures forall e :: e in Found(entries, order, filters) <==>
      exists id :: id in order && id in entries && entries[id] == e && Matches(e, filters)
  {
    if order != [] {
      var front, last := order[..|order| - 1], order[|order| - 1];
      FoundIffMatches(entries, front, filters);
      assert order == front + [last];
      forall e
        ensures e in Found(entries, order, filters) <==>
          exists id :: id in order && id in entries && entries[id] == e && Matches(e, filters)
      {
        if exists id :: id in order && id in entries && entries[id] == e && Matches(e, filters) {
          var id :| id in order && id in entries && entries[id] == e && Matches(e, filters);
          assert id in front || id == last;
        }
      }
    }
  }

  /** A search answers exactly the entries that match. */
  lemma SearchFindsMatches(shelf: Shelf, filters: Filters)
    requires Kept(shelf)
    ensures forall e :: e in Search(shelf, filters) <==>
      e.id in shelf.entries && shelf.entries[e.id] == e && Matches(e, filters)
  {
    FoundIffMatches(shelf.entries, shelf.order, filters);
  }

  /** `next((entry for entry in registry.search(..) if ..), None)` */
  function FirstOf(found: seq<Entry>, panelId: string, version: string): (r: Option<Entry>)
    ensures r.Some? ==> r.value in found && r.value.panelId == panelId && r.value.version == version
    ensures r.None? ==> forall e :: e in found ==> !(e.panelId == panelId && e.version == version)
  {
    if found == [] then None
    else if found[0].panelId == panelId && found[0].version == version then Some(found[0])
    else FirstOf(found[1..], panelId, version)
  }

  /** The entry of a panel version, archived and superseded ones included. */
  function EntryOf(shelf: Shelf, panelId: string, version: string): Option<Entry> {
    FirstOf(Search(shelf, EVERYTHING), panelId, version)
  }

  lemma EntryOfIff(shelf: Shelf, panelId: string, version: string)
    requires Kept(shelf)
    ensures EntryOf(shelf, panelId, version).Some? <==>
      exists id :: id in shelf.entries && shelf.entries[id].panelId == panelId && shelf.entries[id].version == version
    ensures EntryOf(shelf, panelId, version).Some? ==>
      var e := EntryOf(shelf, panelId, version).value; e.id in shelf.entries && shelf.entries[e.id] == e
  {
    SearchFindsMatches(shelf, EVERYTHING);
    if id :| id in shelf.entries && shelf.entries[id].panelId == panelId && shelf.entries[id].version == version {
      assert shelf.entries[id] in Search(shelf, EVERYTHING);
    }
  }

  lemma ShelvedIsFound(shelf: Shelf, entry: Entry)
    requires Kept(shelf)
    ensures Kept(Shelve(shelf, entry))
    ensures forall e, f :: e in Search(Shelve(shelf, entry), f) <==>
      if e.id == entry.id then e == entry && Matches(entry, f) else e in Search(shelf, f)
  {
    ShelvingKeeps(shelf, entry);
    forall e, f
      ensures e in Search(Shelve(shelf, entry), f) <==>
        if e.id == entry.id then e == entry && Matches(entry, f) else e in Search(shelf, f)
    {
      SearchFindsMatches(shelf, f);
      SearchFindsMatches(Shelve(shelf, entry), f);
    }
  }

  // ---- edits -------------------------------------------------------------------------------

  datatype Edit =
    | UpdateMetadata(id: Uuid, details: RegistryMetadata)
    | Archive(id: Uuid)
    | Supersede(id: Uuid, other: Uuid)

  /** The entry an edit leaves. */
  function Edited(entry: Entry, edit: Edit): Result<Entry, Error> {
    match edit
    case UpdateMetadata(_, details) =>
      if entry.details.status != Draft then Err(Conflict) else Ok(entry.(details := details))
    case Archive(_) => Ok(entry.(details := entry.details.(status := Archived)))
    case Supersede(_, other) => Ok(entry.(details := entry.details.(status := Superseded), supersedes := Some(other)))
  }

  function Edits(shelf: Shelf, edit: Edit): Result<Shelf, Error> {
    if edit.id !in shelf.entries then Err(NotFound)
    else
      match Edited(shelf.entries[edit.id], edit)
      case Err(e) => Err(e)
      case Ok(entry) => Ok(Shelve(shelf, entry))
  }

  // ---- the service -------------------------------------------------------------------------

  class InMemoryPatchPanelRegistry {
    var entries: map<Uuid, Entry>
    var order: seq<Uuid>

    ghost function Contents(): Shelf
      reads this
    {
      Shelf(entries, order)
    }

    constructor ()
      ensures Contents() == BARE
    {
      entries, order := map[], [];
    }

    /** Afterwards a search finds the entry exactly when its filters match it, finds every entry of
        another id as before, and never an entry the new one replaced. */
    method Register(entry: Entry)
      modifies this
      ensures Contents() == Shelve(old(Contents()), entry)
      ensures Kept(old(Contents())) ==> Kept(Contents())
      ensures Kept(old(Contents())) ==> forall e, f :: e in Search(Contents(), f) <==>
        if e.id == entry.id then e == entry && Matches(entry, f) else e in Search(old(Contents()), f)
    {
      ghost var before := Contents();
      order := Push(order, entries.Keys, entry.id);
      entries := entries[entry.id := entry];
      if Kept(before) { ShelvedIsFound(before, entry); }
    }

    method SearchAll(filters: Filters) returns (found: seq<Entry>)
      requires Kept(Contents())
      ensures found == Search(Contents(), filters)
    {
      found := [];
      for i := 0 to |order|
        invariant found == Found(entries, order[..i], filters)
      {
        assert order[..i + 1][..i] == order[..i];
        if Matches(entries[order[i]], filters) {
          found := found + [entries[order[i]]];
        }
      }
      assert order[..|order|] == order;
    }

    /** `update_metadata`, `archive` and `supersede`. */
    method Apply(edit: Edit) returns (r: Result<Entry, Error>)
      requires Kept(Contents())
      modifies this
      ensures r.Ok? <==> Edits(old(Contents()), edit).Ok?
      ensures r.Ok? ==> Contents() == Edits(old(Contents()), edit).value && Contents().entries[edit.id] == r.value
      ensures r.Err? ==> Contents() == old(Contents()) && Edits(Contents(), edit) == Err(r.error)
    {
      if edit.id !in entries {
        return Err(NotFound);
      }
      r := Edited(entries[edit.id], edit);
      if r.Ok? {
        entries := entries[edit.id := r.value];
      }
    }
  }
}
