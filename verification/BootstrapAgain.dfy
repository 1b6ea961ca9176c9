/** Bootstrapping a second time (defaults/bootstrap.py): what it changes and when it raises. */
module BootstrapAgain {
  import opened Prelude
  import opened Encoding
  import opened Domain
  import opened PanelValidator
  import opened Requests
  import opened Workflows
  import opened Executor
  import opened Bootstrap
  import AP = AcceptedPanels
  import M = Memory
  import R = Registry

  // ---- the panels a pass leaves ------------------------------------------------------------

  /** The runtime's panels after a turn that loads `panel` without raising. */
  function Next(panels: map<string, PatchPanel>, panel: PatchPanel): map<string, PatchPanel> {
    if Runs(panels, panel) then panels else panels[panel.id := panel]
  }

  function Held(panels: map<string, PatchPanel>, cs: seq<Configured>, k: nat): map<string, PatchPanel>
    requires k <= |cs|
  {
    if k == 0 then panels else Next(Held(panels, cs, k - 1), cs[k - 1].panel)
  }

  function At(panels: map<string, PatchPanel>, id: string): Option<PatchPanel> {
    if id in panels then Some(panels[id]) else None
  }

  /** The panel held is of this version. */
  predicate Current(held: Option<PatchPanel>, panel: PatchPanel) {
    held.Some? && held.value.version == panel.version
  }

  /** What a pass over the first `k` configured panels makes of the panel held under `id`. */
  function Seen(held: Option<PatchPanel>, cs: seq<Configured>, k: nat, id: string): Option<PatchPanel>
    requires k <= |cs|
  {
    if k == 0 then held
    else
      var before, panel := Seen(held, cs, k - 1, id), cs[k - 1].panel;
      if panel.id != id || Current(before, panel) then before else Some(panel)
  }

  lemma {:induction false} HeldAt(panels: map<string, PatchPanel>, cs: seq<Configured>, k: nat, id: string)
    requires k <= |cs|
    ensures At(Held(panels, cs, k), id) == Seen(At(panels, id), cs, k, id)
  {
    if k > 0 { HeldAt(panels, cs, k - 1, id); }
  }

  /** Every panel of `id` among the first `k` is of the version of `last`. */
  predicate AllCurrent(last: Option<PatchPanel>, cs: seq<Configured>, k: nat, id: string)
    requires k <= |cs|
  {
    forall i :: 0 <= i < k && cs[i].panel.id == id ==> Current(last, cs[i].panel)
  }

  predicate NoneOf(cs: seq<Configured>, k: nat, id: string)
    requires k <= |cs|
  {
    forall i :: 0 <= i < k ==> cs[i].panel.id != id
  }

  lemma {:induction false} SeenCurrent(held: Option<PatchPanel>, cs: seq<Configured>, k: nat, id: string, last: Option<PatchPanel>)
    requires k <= |cs| && AllCurrent(last, cs, k, id)
    ensures (NoneOf(cs, k, id) && Seen(held, cs, k, id) == held)
         || (last.Some? && Current(Seen(held, cs, k, id), last.value))
  {
    if k > 0 { SeenCurrent(held, cs, k - 1, id, last); }
  }

  /** The last configured panel of an id sets the version held. */
  lemma {:induction false} SeenLast(held: Option<PatchPanel>, cs: seq<Configured>, k: nat, j: nat)
    requires j < k <= |cs| && forall i :: j < i < k ==> cs[i].panel.id != cs[j].panel.id
    ensures Current(Seen(held, cs, k, cs[j].panel.id), cs[j].panel)
  {
    if j < k - 1 { SeenLast(held, cs, k - 1, j); }
  }

  /** A second pass keeps step with the first: under each id it holds the same panel; or still the one
      the first pass left, as long as that version is asked for; or one of the same, not yet last, version. */
  ghost predicate Follows(held: Option<PatchPanel>, cs: seq<Configured>, k: nat, id: string)
    requires k <= |cs|
  {
    var left := Seen(held, cs, |cs|, id);
    var x, y := Seen(held, cs, k, id), Seen(left, cs, k, id);
    || x == y
    || (y == left && AllCurrent(left, cs, k, id))
    || (x.Some? && y.Some? && x.value.version == y.value.version && !Current(left, x.value))
  }

  lemma {:induction false} SecondFollowsFirst(held: Option<PatchPanel>, cs: seq<Configured>, k: nat, id: string)
    requires k <= |cs|
    ensures Follows(held, cs, k, id)
  {
    if k > 0 {
      SecondFollowsFirst(held, cs, k - 1, id);
      var left := Seen(held, cs, |cs|, id);
      if AllCurrent(left, cs, k - 1, id) { SeenCurrent(held, cs, k - 1, id, left); }
    }
  }

  /** So it leaves what the first pass left. */
  lemma SecondLeavesSame(panels: map<string, PatchPanel>, cs: seq<Configured>)
    ensures Held(Held(panels, cs, |cs|), cs, |cs|) == Held(panels, cs, |cs|)
  {
    var once := Held(panels, cs, |cs|);
    forall id
      ensures At(Held(once, cs, |cs|), id) == At(once, id)
    {
      HeldAt(panels, cs, |cs|, id);
      HeldAt(once, cs, |cs|, id);
      SecondFollowsFirst(At(panels, id), cs, |cs|, id);
    }
    SameAtSame(Held(once, cs, |cs|), once);
  }

  lemma SameAtSame(a: map<string, PatchPanel>, b: map<string, PatchPanel>)
    requires forall id :: At(a, id) == At(b, id)
    ensures a == b
  {
    forall id ensures id in a <==> id in b
    { assert At(a, id) == At(b, id); }
    forall id | id in a ensures a[id] == b[id]
    { assert At(a, id) == At(b, id); }
  }

  // ---- when a pass raises ------------------------------------------------------------------

  /** The first configured panel of its id is refused by the validator, and the last is of another version. */
  ghost predicate Relapse(cs: seq<Configured>, i: int, j: int) {
    && 0 <= i < |cs| && 0 <= j < |cs| && cs[j].panel.id == cs[i].panel.id && cs[j].panel.version != cs[i].panel.version
    && !Accepted(cs[i].panel)
    && (forall n :: 0 <= n < i ==> cs[n].panel.id != cs[i].panel.id)
    && (forall n :: j < n < |cs| ==> cs[n].panel.id != cs[i].panel.id)
  }

  ghost predicate Relapses(cs: seq<Configured>) { exists i, j :: Relapse(cs, i, j) }

  /** The turn at `i` is refused. */
  ghost predicate Refused(panels: map<string, PatchPanel>, cs: seq<Configured>, i: int) {
    0 <= i < |cs| && !Runs(Held(panels, cs, i), cs[i].panel) && !Accepted(cs[i].panel)
  }

  lemma RunsIsCurrent(panels: map<string, PatchPanel>, cs: seq<Configured>, i: nat)
    requires i < |cs|
    ensures Runs(Held(panels, cs, i), cs[i].panel) <==> Current(Seen(At(panels, cs[i].panel.id), cs, i, cs[i].panel.id), cs[i].panel)
  {
    HeldAt(panels, cs, i, cs[i].panel.id);
  }

  lemma {:induction false} LastOf(cs: seq<Configured>, k: nat, i: nat) returns (j: nat)
    requires i < k <= |cs|
    ensures i <= j < k && cs[j].panel.id == cs[i].panel.id && forall n :: j < n < k ==> cs[n].panel.id != cs[i].panel.id
  {
    if cs[k - 1].panel.id == cs[i].panel.id { j := k - 1; } else { j := LastOf(cs, k - 1, i); }
  }

  lemma RefusedIsRelapse(panels: map<string, PatchPanel>, cs: seq<Configured>, i: int)
    requires (forall n :: !Refused(panels, cs, n)) && Refused(Held(panels, cs, |cs|), cs, i)
    ensures Relapses(cs)
  {
    var id := cs[i].panel.id;
    var held, left := At(panels, id), Seen(At(panels, id), cs, |cs|, id);
    assert !Refused(panels, cs, i);
    HeldAt(panels, cs, |cs|, id);
    RunsIsCurrent(panels, cs, i);
    RunsIsCurrent(Held(panels, cs, |cs|), cs, i);
    SecondFollowsFirst(held, cs, i, id);
    SeenCurrent(held, cs, i, id, left);
    var j := LastOf(cs, |cs|, i);
    SeenLast(held, cs, |cs|, j);
    assert Relapse(cs, i, j);
  }

  lemma RelapseIsRefused(panels: map<string, PatchPanel>, cs: seq<Configured>, i: nat, j: nat)
    requires Relapse(cs, i, j)
    ensures Refused(Held(panels, cs, |cs|), cs, i)
  {
    var id := cs[i].panel.id;
    var left := Seen(At(panels, id), cs, |cs|, id);
    HeldAt(panels, cs, |cs|, id);
    RunsIsCurrent(Held(panels, cs, |cs|), cs, i);
    SeenLast(At(panels, id), cs, |cs|, j);
    SeenNothing(left, cs, i, id);
  }

  lemma {:induction false} SeenNothing(held: Option<PatchPanel>, cs: seq<Configured>, k: nat, id: string)
    requires k <= |cs| && NoneOf(cs, k, id)
    ensures Seen(held, cs, k, id) == held
  {
    if k > 0 { SeenNothing(held, cs, k - 1, id); }
  }

  // ---- the loop ----------------------------------------------------------------------------

  /** What a turn does to the panels, and when it raises. */
  ghost predicate Loads(turn: Turn) {
    forall st, c, id {:trigger turn(st, c, id)} ::
      var done := turn(st, c, id);
      && (done.result.Err? <==> !Runs(st.mem.panels, c.panel) && !Accepted(c.panel))
      && (done.result.Err? ==> done.after == st)
      && (done.result.Ok? ==> done.after.mem.panels == Next(st.mem.panels, c.panel))
      && (done.result.Ok? && c.panel.id in st.mem.panels && Listed(st.shelf, c.panel) ==>
            done.after == st.(mem := st.mem.(panels := Next(st.mem.panels, c.panel))))
  }

  /** A successful turn lists its panel and unlists none. */
  ghost predicate Lists(turn: Turn) {
    forall st, c, id, panel {:trigger Listed(turn(st, c, id).after.shelf, panel)} ::
      Steady(st) && id !in st.shelf.entries && turn(st, c, id).result.Ok? && (panel == c.panel || Listed(st.shelf, panel))
      ==> Listed(turn(st, c, id).after.shelf, panel)
  }

  lemma LoadOneLoads()
    ensures Loads(LoadOne) && Lists(LoadOne)
  {
    forall st, c, id, panel | Steady(st) && id !in st.shelf.entries && LoadOne(st, c, id).result.Ok?
      && (panel == c.panel || Listed(st.shelf, panel))
      ensures Listed(LoadOne(st, c, id).after.shelf, panel)
    { ShelvedIsListed(st.shelf, SystemEntry(c, id), panel); }
  }

  lemma {:induction false} LoopUnrolls(turn: Turn, st: Studio, cs: seq<Configured>, k: nat, base: Uuid)
    requires 0 < k <= |cs|
    ensures var before, done := Loop(turn, st, cs, k - 1, base), Loop(turn, st, cs, k, base);
      && (before.result.Err? ==> done == before)
      && (before.result.Ok? ==>
            var next := turn(before.after, cs[k - 1], base + k - 1);
            done.after == next.after && (done.result.Ok? <==> next.result.Ok?))
  {
  }

  lemma TurnLoads(turn: Turn, st: Studio, panels: map<string, PatchPanel>, cs: seq<Configured>, k: nat, id: Uuid)
    requires Loads(turn) && k < |cs| && st.mem.panels == Held(panels, cs, k)
    ensures var done := turn(st, cs[k], id);
      && (done.result.Err? <==> Refused(panels, cs, k))
      && (done.result.Ok? ==> done.after.mem.panels == Held(panels, cs, k + 1))
  {
  }

  lemma {:induction false} LoopHolds(turn: Turn, st: Studio, cs: seq<Configured>, k: nat, base: Uuid)
    requires Loads(turn) && k <= |cs|
    ensures var done := Loop(turn, st, cs, k, base);
      && (done.result.Ok? <==> forall i :: 0 <= i < k ==> !Refused(st.mem.panels, cs, i))
      && (done.result.Ok? ==> done.after.mem.panels == Held(st.mem.panels, cs, k))
  {
    if k > 0 {
      LoopHolds(turn, st, cs, k - 1, base);
      LoopUnrolls(turn, st, cs, k, base);
      var before := Loop(turn, st, cs, k - 1, base);
      if before.result.Ok? { TurnLoads(turn, before.after, st.mem.panels, cs, k - 1, base + k - 1); }
    }
  }

  /** The registry lists the panel and the runtime runs one of its id. */
  ghost predicate Placed(st: Studio, panel: PatchPanel) { Listed(st.shelf, panel) && panel.id in st.mem.panels }

  lemma TurnLists(turn: Turn, st: Studio, c: Configured, id: Uuid)
    requires Loads(turn) && Lists(turn) && Steady(st) && id !in st.shelf.entries && turn(st, c, id).result.Ok?
    ensures Placed(turn(st, c, id).after, c.panel)
  {
  }

  lemma TurnKeepsListed(turn: Turn, st: Studio, c: Configured, id: Uuid, panel: PatchPanel)
    requires Loads(turn) && Lists(turn) && Steady(st) && id !in st.shelf.entries && turn(st, c, id).result.Ok?
    requires Placed(st, panel)
    ensures Placed(turn(st, c, id).after, panel)
  {
  }

  /** The state before turn `k` of a loop that does not raise up to there. */
  lemma BeforeTurn(turn: Turn, st: Studio, cs: seq<Configured>, k: nat, base: Uuid) returns (before: Studio)
    requires Careful(turn) && Steady(st) && NewEntryIds(st.shelf, base, |cs|)
    requires k < |cs| && Loop(turn, st, cs, k + 1, base).result.Ok?
    ensures Loop(turn, st, cs, k, base).result.Ok? && Loop(turn, st, cs, k, base).after == before
    ensures Steady(before) && base + k !in before.shelf.entries
    ensures turn(before, cs[k], base + k).result.Ok?
    ensures Loop(turn, st, cs, k + 1, base).after == turn(before, cs[k], base + k).after
  {
    before := Loop(turn, st, cs, k, base).after;
    LoopKeeps(turn, st, cs, k, base);
    LoopUnrolls(turn, st, cs, k + 1, base);
  }

  lemma TurnAddsListed(turn: Turn, st: Studio, cs: seq<Configured>, k: nat, base: Uuid)
    requires Careful(turn) && Loads(turn) && Lists(turn) && Steady(st) && NewEntryIds(st.shelf, base, |cs|)
    requires k < |cs| && Loop(turn, st, cs, k + 1, base).result.Ok?
    ensures Placed(Loop(turn, st, cs, k + 1, base).after, cs[k].panel)
  {
    var before := BeforeTurn(turn, st, cs, k, base);
    TurnLists(turn, before, cs[k], base + k);
  }

  lemma TurnLosesNone(turn: Turn, st: Studio, cs: seq<Configured>, k: nat, base: Uuid, panel: PatchPanel)
    requires Careful(turn) && Loads(turn) && Lists(turn) && Steady(st) && NewEntryIds(st.shelf, base, |cs|)
    requires k < |cs| && Loop(turn, st, cs, k + 1, base).result.Ok? && Placed(Loop(turn, st, cs, k, base).after, panel)
    ensures Placed(Loop(turn, st, cs, k + 1, base).after, panel)
  {
    var before := BeforeTurn(turn, st, cs, k, base);
    TurnKeepsListed(turn, before, cs[k], base + k, panel);
  }

  lemma NoneFailedBefore(turn: Turn, st: Studio, cs: seq<Configured>, n: nat, k: nat, base: Uuid)
    requires n <= k <= |cs| && Loop(turn, st, cs, k, base).result.Ok?
    ensures Loop(turn, st, cs, n, base).result.Ok?
  {
    if Loop(turn, st, cs, n, base).result.Err? { FailureStops(turn, st, cs, n, k, base); }
  }

  lemma LoopLists(turn: Turn, st: Studio, cs: seq<Configured>, k: nat, base: Uuid, i: nat)
    requires Careful(turn) && Loads(turn) && Lists(turn) && Steady(st) && NewEntryIds(st.shelf, base, |cs|)
    requires i < k <= |cs| && Loop(turn, st, cs, k, base).result.Ok?
    ensures Placed(Loop(turn, st, cs, k, base).after, cs[i].panel)
  {
    NoneFailedBefore(turn, st, cs, i + 1, k, base);
    TurnAddsListed(turn, st, cs, i, base);
    for n := i + 1 to k
      invariant Placed(Loop(turn, st, cs, n, base).after, cs[i].panel)
    {
      NoneFailedBefore(turn, st, cs, n + 1, k, base);
      TurnLosesNone(turn, st, cs, n, base, cs[i].panel);
    }
  }

  /** Over panels that are all held and listed, a pass changes only which versions are held. */
  lemma {:induction false} LoopRewrites(turn: Turn, st: Studio, cs: seq<Configured>, k: nat, base: Uuid)
    requires Loads(turn) && k <= |cs| && Loop(turn, st, cs, k, base).result.Ok?
    requires forall i :: 0 <= i < |cs| ==> Placed(st, cs[i].panel)
    ensures Loop(turn, st, cs, k, base).after == st.(mem := st.mem.(panels := Held(st.mem.panels, cs, k)))
    ensures st.mem.panels.Keys <= Held(st.mem.panels, cs, k).Keys
  {
    if k > 0 {
      LoopRewrites(turn, st, cs, k - 1, base);
      assert cs[k - 1].panel.id in Held(st.mem.panels, cs, k - 1);
    }
  }

  /** A second bootstrap raises exactly when the configuration relapses: the first panel of some id is
      refused by the validator and the last is of another version. Otherwise, so whenever the configured
      panels are accepted, it leaves the whole state as the first left it. */
  lemma BootstrappingAgainIff(st: Studio, cs: seq<Configured>, base: Uuid, again: Uuid)
    requires Steady(st) && NewEntryIds(st.shelf, base, |cs|) && Load(st, cs, base).result.Ok?
    ensures var first := Load(st, cs, base).after;
      var second := Load(first, cs, again);
      && (second.result.Ok? <==> !Relapses(cs))
      && (second.result.Ok? ==> second.after == first)
      && ((forall i :: 0 <= i < |cs| ==> Accepted(cs[i].panel)) ==> second.after == first)
  {
    var first := Load(st, cs, base).after;
    LoadOneLoads();
    LoadOneIsAll();
    LoopHolds(LoadOne, st, cs, |cs|, base);
    LoopHolds(LoadOne, first, cs, |cs|, again);
    forall i | 0 <= i < |cs|
      ensures Placed(first, cs[i].panel)
    { LoopLists(LoadOne, st, cs, |cs|, base, i); }
    if Load(first, cs, again).result.Ok? {
      LoopRewrites(LoadOne, first, cs, |cs|, again);
      SecondLeavesSame(st.mem.panels, cs);
      if i, j :| Relapse(cs, i, j) { RelapseIsRefused(st.mem.panels, cs, i, j); }
    } else {
      var i :| Refused(first.mem.panels, cs, i);
      RefusedIsRelapse(st.mem.panels, cs, i);
    }
  }

  // ---- a relapse ---------------------------------------------------------------------------

  function Refusable(id: string, version: string): PatchPanel {
    PatchPanel(id, version, [], [], [], map[], [])
  }

  /** Panel `a` in two versions; between them a panel `b` of version 1 that the validator refuses, and then a good one. */
  function Relapsing(details: RegistryMetadata): seq<Configured> {
    [Configured("a1", AP.LinePanel("a", "1", "x", "x"), details), Configured("b1", Refusable("b", "1"), details),
     Configured("a2", AP.LinePanel("a", "2", "x", "x"), details), Configured("b2", AP.LinePanel("b", "2", "x", "x"), details)]
  }

  /** A runtime that already runs version 1 of `b`, and an empty registry. */
  ghost function RunningB(): Studio { Studio(M.Register(M.Fresh, AP.LinePanel("b", "1", "x", "x")).after, R.BARE) }

  lemma RefusableIsRefused(id: string, version: string)
    ensures !Accepted(Refusable(id, version))
  {
    AP.AcceptedIffRules(Refusable(id, version));
  }

  lemma RunningBIs()
    ensures RunningB().mem.panels == map["b" := AP.LinePanel("b", "1", "x", "x")] && Steady(RunningB())
  {
    AP.LineAccepted("b", "1", "x", "x");
    M.RegisterKeepsValid(M.Fresh, AP.LinePanel("b", "1", "x", "x"));
  }

  lemma RelapsingPasses(details: RegistryMetadata)
    ensures var cs, b1 := Relapsing(details), RunningB().mem.panels;
      && Held(b1, cs, 1) == map["a" := cs[0].panel, "b" := AP.LinePanel("b", "1", "x", "x")]
      && Held(b1, cs, 4) == map["a" := cs[2].panel, "b" := cs[3].panel]
      && Held(Held(b1, cs, 4), cs, 1) == map["a" := cs[0].panel, "b" := cs[3].panel]
  {
    var cs, b1 := Relapsing(details), RunningB().mem.panels;
    RunningBIs();
    assert Held(b1, cs, 0) == b1;
    assert Held(b1, cs, 2) == Held(b1, cs, 1);
    assert Held(b1, cs, 3) == Held(b1, cs, 1)["a" := cs[2].panel];
    assert Held(Held(b1, cs, 4), cs, 0) == Held(b1, cs, 4);
  }

  lemma RelapsingHolds(details: RegistryMetadata)
    ensures var cs, b1 := Relapsing(details), RunningB().mem.panels;
      && (forall i :: !Refused(b1, cs, i)) && !Refused(Held(b1, cs, 4), cs, 0)
      && Relapse(cs, 1, 3)
  {
    RelapsingPasses(details);
    RefusableIsRefused("b", "1");
    AP.LineAccepted("a", "1", "x", "x");
    AP.LineAccepted("a", "2", "x", "x");
    AP.LineAccepted("b", "2", "x", "x");
  }

  /** Bootstrapping again can so lose a panel: here the second run puts version 1 of `a` back and raises
      at `b` before it comes to version 2. */
  lemma RelapseLosesPanel(details: RegistryMetadata, base: Uuid, again: Uuid)
    ensures var cs := Relapsing(details);
      var first := Load(RunningB(), cs, base);
      var second := Load(first.after, cs, again);
      && first.result.Ok? && second.result.Err?
      && At(first.after.mem.panels, "a") == Some(AP.LinePanel("a", "2", "x", "x"))
      && At(second.after.mem.panels, "a") == Some(AP.LinePanel("a", "1", "x", "x"))
  {
    var cs, st := Relapsing(details), RunningB();
    RelapsingPasses(details);
    RelapsingHolds(details);
    FirstRuns(st, cs, base);
    SecondStops(st, cs, 1, 3, base, again);
  }

  lemma FirstRuns(st: Studio, cs: seq<Configured>, base: Uuid)
    requires forall i :: !Refused(st.mem.panels, cs, i)
    ensures Load(st, cs, base).result.Ok? && Load(st, cs, base).after.mem.panels == Held(st.mem.panels, cs, |cs|)
  {
    LoadOneLoads();
    LoopHolds(LoadOne, st, cs, |cs|, base);
  }

  /** A second run raises at the first relapse, with the panels held there. */
  lemma SecondStops(st: Studio, cs: seq<Configured>, k: nat, j: nat, base: Uuid, again: Uuid)
    requires (forall i :: !Refused(st.mem.panels, cs, i)) && Relapse(cs, k, j)
    requires forall i :: 0 <= i < k ==> !Refused(Held(st.mem.panels, cs, |cs|), cs, i)
    ensures var second := Load(Load(st, cs, base).after, cs, again);
      second.result.Err? && second.after.mem.panels == Held(Held(st.mem.panels, cs, |cs|), cs, k)
  {
    var first := Load(st, cs, base).after;
    FirstRuns(st, cs, base);
    LoadOneLoads();
    RelapseIsRefused(st.mem.panels, cs, k, j);
    LoopHolds(LoadOne, first, cs, |cs|, again);
    LoopHolds(LoadOne, first, cs, k, again);
    StopsAt(LoadOne, first, cs, k, again);
  }

  /** A pass stops where it is first refused, with the panels held there. */
  lemma StopsAt(turn: Turn, st: Studio, cs: seq<Configured>, k: nat, base: Uuid)
    requires Loads(turn) && k < |cs| && Loop(turn, st, cs, k, base).result.Ok? && Refused(st.mem.panels, cs, k)
    ensures Loop(turn, st, cs, |cs|, base).after.mem.panels == Held(st.mem.panels, cs, k)
  {
    LoopHolds(turn, st, cs, k, base);
    LoopUnrolls(turn, st, cs, k + 1, base);
    TurnLoads(turn, Loop(turn, st, cs, k, base).after, st.mem.panels, cs, k, base + k);
    FailureStops(turn, st, cs, k + 1, |cs|, base);
  }
}
