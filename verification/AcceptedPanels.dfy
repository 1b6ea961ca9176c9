/** What acceptance by the validator means, for the rules, for the graph and for the runtimes. */
module AcceptedPanels {
  import opened Prelude
  import opened Domain
  import opened Service
  import opened Graph
  import opened PanelValidator

  // ---- the declarative rules ---------------------------------------------------------------

  ghost predicate ContractsKnown(panel: PatchPanel) {
    && (forall b :: b in panel.buckets && Truthy(b.acceptanceContract) ==> HasContract(panel, b.acceptanceContract.value))
    && (forall n :: n in panel.nodes && Truthy(n.acceptanceContract) ==> HasContract(panel, n.acceptanceContract.value))
  }

  ghost predicate EdgesJoinNodes(panel: PatchPanel) {
    forall e :: e in panel.edges ==> HasNode(panel, e.from) && HasNode(panel, e.to)
  }

  ghost predicate ValidatorExitsDeclared(panel: PatchPanel) {
    && (forall e :: e in panel.edges && ValidatorExits(panel.nodes, e.from).Some?
          ==> e.on in ValidatorExits(panel.nodes, e.from).value)
    && (forall n :: MustListExits(panel, n) ==>
          && Get(n.config, "accept_exits").List?
          && forall x :: x in Get(n.config, "accept_exits").items ==> x.Str? && x.text in n.outputPipes)
  }

  /** The binding agrees with the last declaration of its pipe and names a declared bucket. */
  ghost predicate BindingAgrees(panel: PatchPanel, binding: PipeBinding, declared: Declared) {
    && (Truthy(binding.node) ==> HasNode(panel, binding.node.value) && binding.node.value == declared.nodeId)
    && (binding.direction.Some? ==> binding.direction.value == declared.direction)
    && panel.Declares(binding.bucket)
  }

  ghost predicate PipesMatch(panel: PatchPanel) {
    forall p :: (p in panel.pipeBindings <==> LastDeclared(panel.nodes, p).Some?)
      && (p in panel.pipeBindings ==> BindingAgrees(panel, panel.pipeBindings[p], LastDeclared(panel.nodes, p).value))
  }

  ghost predicate BoundariesHold(panel: PatchPanel) {
    && HasKind(panel, Source) && HasKind(panel, Sink)
    && (forall id :: IsSource(panel, id) ==> !HasIncoming(panel, id))
    && (forall id :: IsSink(panel, id) ==> !HasOutgoing(panel, id))
  }

  ghost predicate NodesConnected(panel: PatchPanel) {
    && (forall id :: HasNode(panel, id) ==> ReachedFromSource(panel, id))
    && (forall id :: HasNode(panel, id) && !IsSink(panel, id) ==> HasOutgoing(panel, id))
  }

  ghost predicate Rules(panel: PatchPanel) {
    && ContractsKnown(panel) && EdgesJoinNodes(panel) && ValidatorExitsDeclared(panel)
    && PipesMatch(panel) && BoundariesHold(panel) && NodesConnected(panel)
  }

  lemma ContractsIff(panel: PatchPanel)
    ensures ContractsKnown(panel) <==>
      forall e: Violation :: e.BucketContract? || e.NodeContract? ==> !Violates(panel, e)
  {
    if forall e: Violation :: e.BucketContract? || e.NodeContract? ==> !Violates(panel, e) {
      forall b | b in panel.buckets && Truthy(b.acceptanceContract)
        ensures HasContract(panel, b.acceptanceContract.value)
      { assert !Violates(panel, BucketContract(b.id, b.acceptanceContract.value)); }
      forall n | n in panel.nodes && Truthy(n.acceptanceContract)
        ensures HasContract(panel, n.acceptanceContract.value)
      { assert !Violates(panel, NodeContract(n.id, n.acceptanceContract.value)); }
    }
  }

  lemma EdgesIff(panel: PatchPanel)
    ensures EdgesJoinNodes(panel) <==>
      forall e: Violation :: e.EdgeFrom? || e.EdgeTo? ==> !Violates(panel, e)
  {
    if forall e: Violation :: e.EdgeFrom? || e.EdgeTo? ==> !Violates(panel, e) {
      forall e | e in panel.edges
        ensures HasNode(panel, e.from) && HasNode(panel, e.to)
      { assert !Violates(panel, EdgeFrom(e.from)) && !Violates(panel, EdgeTo(e.to)); }
    }
  }

  lemma ExitsIff(panel: PatchPanel)
    ensures ValidatorExitsDeclared(panel) <==>
      forall e: Violation :: e.ValidatorExit? || e.AcceptExitsMissing? || e.AcceptExitUnknown? ==> !Violates(panel, e)
  {
    if forall e: Violation :: e.ValidatorExit? || e.AcceptExitsMissing? || e.AcceptExitUnknown? ==> !Violates(panel, e) {
      forall e | e in panel.edges && ValidatorExits(panel.nodes, e.from).Some?
        ensures e.on in ValidatorExits(panel.nodes, e.from).value
      { assert !Violates(panel, ValidatorExit(e.from, e.on)); }
      forall n | MustListExits(panel, n)
        ensures Get(n.config, "accept_exits").List?
      { assert !Violates(panel, AcceptExitsMissing(n.id)); }
      forall n, x | MustListExits(panel, n) && x in Get(n.config, "accept_exits").items
        ensures x.Str? && x.text in n.outputPipes
      { assert !Violates(panel, AcceptExitUnknown(n.id, x)); }
    }
  }

  ghost predicate AboutPipes(e: Violation) {
    e.PipeUnbound? || e.BindingUndeclared? || e.BindingUnknownNode? || e.BindingWrongNode?
    || e.BindingWrongDirection? || e.BindingUnknownBucket?
  }

  lemma PipesFollow(panel: PatchPanel)
    requires forall e: Violation :: AboutPipes(e) ==> !Violates(panel, e)
    ensures PipesMatch(panel)
  {
    forall p
      ensures p in panel.pipeBindings <==> LastDeclared(panel.nodes, p).Some?
      ensures p in panel.pipeBindings ==>
        BindingAgrees(panel, panel.pipeBindings[p], LastDeclared(panel.nodes, p).value)
    {
      assert !Violates(panel, BindingUndeclared(p)) && !Violates(panel, PipeUnbound(p));
      if p in panel.pipeBindings {
        var binding, declared := panel.pipeBindings[p], LastDeclared(panel.nodes, p).value;
        assert !Violates(panel, BindingUnknownBucket(p, binding.bucket));
        if Truthy(binding.node) {
          assert !Violates(panel, BindingUnknownNode(p, binding.node.value));
          assert !Violates(panel, BindingWrongNode(p, binding.node.value, declared.nodeId));
        }
        if binding.direction.Some? {
          assert !Violates(panel, BindingWrongDirection(p, binding.direction.value, declared.direction));
        }
      }
    }
  }

  lemma PipesIff(panel: PatchPanel)
    ensures PipesMatch(panel) <==> forall e: Violation :: AboutPipes(e) ==> !Violates(panel, e)
  {
    if forall e: Violation :: AboutPipes(e) ==> !Violates(panel, e) { PipesFollow(panel); }
  }

  lemma BoundariesIff(panel: PatchPanel)
    ensures BoundariesHold(panel) <==>
      forall e: Violation :: e.NoSource? || e.NoSink? || e.SourceHasIncoming? || e.SinkHasOutgoing? ==> !Violates(panel, e)
  {
    if forall e: Violation :: e.NoSource? || e.NoSink? || e.SourceHasIncoming? || e.SinkHasOutgoing? ==> !Violates(panel, e) {
      assert !Violates(panel, NoSource) && !Violates(panel, NoSink);
      forall id | IsSource(panel, id) ensures !HasIncoming(panel, id)
      { assert !Violates(panel, SourceHasIncoming(id)); }
      forall id | IsSink(panel, id) ensures !HasOutgoing(panel, id)
      { assert !Violates(panel, SinkHasOutgoing(id)); }
    }
  }

  lemma ConnectedIff(panel: PatchPanel)
    requires HasKind(panel, Source)
    ensures NodesConnected(panel) <==>
      forall e: Violation :: e.NodeUnreachable? || e.DeadEnd? ==> !Violates(panel, e)
  {
    if forall e: Violation :: e.NodeUnreachable? || e.DeadEnd? ==> !Violates(panel, e) {
      forall id | HasNode(panel, id) ensures ReachedFromSource(panel, id)
      { assert !Violates(panel, NodeUnreachable(id)); }
      forall id | HasNode(panel, id) && !IsSink(panel, id) ensures HasOutgoing(panel, id)
      { assert !Violates(panel, DeadEnd(id)); }
    }
  }

  /** The validator raises nothing exactly when every declarative rule holds. */
  lemma AcceptedIffRules(panel: PatchPanel)
    ensures Accepted(panel) <==> Rules(panel)
  {
    AcceptedIff(panel);
    ContractsIff(panel);
    EdgesIff(panel);
    ExitsIff(panel);
    PipesIff(panel);
    BoundariesIff(panel);
    if BoundariesHold(panel) { ConnectedIff(panel); }
  }

  // ---- the graph of an accepted panel ------------------------------------------------------

  ghost predicate ReachesSink(panel: PatchPanel, id: string) {
    exists s :: IsSink(panel, s) && Reaches(ArcsOf(panel), id, s)
  }

  ghost predicate ReachesCycle(panel: PatchPanel, id: string) {
    exists v :: OnCycle(ArcsOf(panel), v) && Reaches(ArcsOf(panel), id, v)
  }

  /** Following arcs out of `id` must meet a sink, or come back to a node of `trail`. */
  lemma {:induction false} FollowArcs(panel: PatchPanel, id: string, trail: set<string>)
    requires Accepted(panel) && HasNode(panel, id) && id !in trail
    requires forall u :: u in trail ==> HasNode(panel, u) && Reaches(ArcsOf(panel), u, id)
    ensures ReachesSink(panel, id) || ReachesCycle(panel, id)
    decreases (set n | n in panel.nodes :: n.id) - trail
  {
    var arcs := ArcsOf(panel);
    AcceptedIffRules(panel);
    ReachesSelf(arcs, id);
    if !IsSink(panel, id) {
      var e :| e in panel.edges && e.from == id;
      var next := e.to;
      assert (id, next) in arcs;
      ReachesStep(arcs, id, id, next);
      if next in trail || next == id {
        assert OnCycle(arcs, id);
      } else {
        forall u | u in trail + {id}
          ensures Reaches(arcs, u, next)
        {
          ReachesStep(arcs, u, id, next);
        }
        FollowArcs(panel, next, trail + {id});
        if ReachesSink(panel, next) {
          var s :| IsSink(panel, s) && Reaches(arcs, next, s);
          ReachesTransitive(arcs, id, next, s);
        } else {
          var v :| OnCycle(arcs, v) && Reaches(arcs, next, v);
          ReachesTransitive(arcs, id, next, v);
        }
      }
    }
  }

  /** Every node is reachable from a source, and can reach a sink or a cycle. */
  lemma NodesAreLive(panel: PatchPanel)
    requires Accepted(panel)
    ensures forall id :: HasNode(panel, id) ==>
      ReachedFromSource(panel, id) && (ReachesSink(panel, id) || ReachesCycle(panel, id))
  {
    AcceptedIffRules(panel);
    forall id | HasNode(panel, id)
      ensures ReachesSink(panel, id) || ReachesCycle(panel, id)
    {
      FollowArcs(panel, id, {});
    }
  }

  /** Without cycles, every node lies on a walk from a source to a sink. */
  lemma AcyclicPanelsFlow(panel: PatchPanel, id: string)
    requires Accepted(panel) && Acyclic(ArcsOf(panel)) && HasNode(panel, id)
    ensures exists source, sink ::
      && IsSource(panel, source) && IsSink(panel, sink)
      && Reaches(ArcsOf(panel), source, id) && Reaches(ArcsOf(panel), id, sink)
  {
    NodesAreLive(panel);
    var source :| IsSource(panel, source) && Reaches(ArcsOf(panel), source, id);
    var sink :| IsSink(panel, sink) && Reaches(ArcsOf(panel), id, sink);
  }

  /** The exact condition for work never to be trapped: every cycle has a way out to a sink. */
  lemma NoTrapIffCyclesEscape(panel: PatchPanel)
    requires Accepted(panel)
    ensures (forall id :: HasNode(panel, id) ==> ReachesSink(panel, id))
      <==> (forall id :: HasNode(panel, id) && OnCycle(ArcsOf(panel), id) ==> ReachesSink(panel, id))
  {
    if forall id :: HasNode(panel, id) && OnCycle(ArcsOf(panel), id) ==> ReachesSink(panel, id) {
      NodesAreLive(panel);
      EndsAreNodes(panel);
      forall id | HasNode(panel, id)
        ensures ReachesSink(panel, id)
      {
        if ReachesCycle(panel, id) {
          var v :| OnCycle(ArcsOf(panel), v) && Reaches(ArcsOf(panel), id, v);
          assert HasNode(panel, v) by { var w :| (v, w) in ArcsOf(panel) && Reaches(ArcsOf(panel), w, v); }
          var s :| IsSink(panel, s) && Reaches(ArcsOf(panel), v, s);
          ReachesTransitive(ArcsOf(panel), id, v, s);
        }
      }
    }
  }

  function PlainNode(id: string, kind: NodeType): Node {
    Node(id, kind, None, [], [], None, map[])
  }

  /** A worker that only feeds itself, beside a direct way from the source to the sink. */
  function TrapPanel(): PatchPanel {
    PatchPanel("trap", "1", [],
      [PlainNode("in", Source), PlainNode("spin", Worker), PlainNode("out", Sink)],
      [Edge("in", "spin", "next"), Edge("spin", "spin", "again"), Edge("in", "out", "next")],
      map[], [])
  }

  lemma TrapNodes()
    ensures forall n :: n in TrapPanel().nodes <==>
      n == PlainNode("in", Source) || n == PlainNode("spin", Worker) || n == PlainNode("out", Sink)
    ensures forall id :: IsSource(TrapPanel(), id) <==> id == "in"
    ensures forall id :: IsSink(TrapPanel(), id) <==> id == "out"
    ensures forall id :: HasNode(TrapPanel(), id) <==> id == "in" || id == "spin" || id == "out"
    ensures HasKind(TrapPanel(), Source) && HasKind(TrapPanel(), Sink)
  {
    var nodes := TrapPanel().nodes;
    assert nodes[0] in nodes && nodes[1] in nodes && nodes[2] in nodes;
  }

  lemma TrapEdges()
    ensures forall e :: e in TrapPanel().edges <==>
      e == Edge("in", "spin", "next") || e == Edge("spin", "spin", "again") || e == Edge("in", "out", "next")
    ensures ArcsOf(TrapPanel()) == {("in", "spin"), ("spin", "spin"), ("in", "out")}
    ensures forall id :: HasOutgoing(TrapPanel(), id) <==> id == "in" || id == "spin"
    ensures forall id :: HasIncoming(TrapPanel(), id) <==> id == "spin" || id == "out"
  {
    var edges := TrapPanel().edges;
    assert edges[0] in edges && edges[1] in edges && edges[2] in edges;
  }

  lemma TrapConnected()
    ensures NodesConnected(TrapPanel())
  {
    TrapNodes();
    TrapEdges();
    var arcs := ArcsOf(TrapPanel());
    ReachesSelf(arcs, "in");
    ReachesStep(arcs, "in", "in", "spin");
    ReachesStep(arcs, "in", "in", "out");
  }

  lemma {:induction false} PlainNodesDeclareNothing(nodes: seq<Node>, name: string)
    requires forall n :: n in nodes ==> n == PlainNode(n.id, n.kind) && n.kind != Validator
    ensures LastDeclared(nodes, name).None? && ValidatorExits(nodes, name).None?
  {
    if nodes != [] { PlainNodesDeclareNothing(nodes[..|nodes| - 1], name); }
  }

  lemma TrapPipes()
    ensures PipesMatch(TrapPanel()) && ValidatorExitsDeclared(TrapPanel())
  {
    TrapNodes();
    forall name
      ensures LastDeclared(TrapPanel().nodes, name).None? && ValidatorExits(TrapPanel().nodes, name).None?
    {
      PlainNodesDeclareNothing(TrapPanel().nodes, name);
    }
  }

  lemma TrapEnds()
    ensures ContractsKnown(TrapPanel()) && EdgesJoinNodes(TrapPanel()) && BoundariesHold(TrapPanel())
  {
    TrapNodes();
    TrapEdges();
  }

  lemma TrapAccepted()
    ensures Accepted(TrapPanel())
  {
    TrapPipes();
    TrapConnected();
    TrapEnds();
    AcceptedIffRules(TrapPanel());
  }

  /** Acceptance does not keep work from being trapped: the dead-end rule asks for an arc, not a way out. */
  lemma AcceptedPanelCanTrap()
    ensures Accepted(TrapPanel()) && HasNode(TrapPanel(), "spin") && !ReachesSink(TrapPanel(), "spin")
  {
    TrapAccepted();
    TrapNodes();
    TrapEdges();
    var arcs := ArcsOf(TrapPanel());
    if ReachesSink(TrapPanel(), "spin") {
      var s :| IsSink(TrapPanel(), s) && Reaches(arcs, "spin", s);
      var p :| Walk(arcs, p) && p[0] == "spin" && p[|p| - 1] == s;
      WalkStaysIn(arcs, {"spin"}, p);
    }
  }

  // ---- a family of accepted panels, for the examples ---------------------------------------

  /** A source that puts its cards into `home`, from where a sink takes them. */
  function LineNodes(): seq<Node> {
    [PlainNode("in", Source).(outputPipes := ["pipe"]), PlainNode("out", Sink).(inputPipes := ["pipe"])]
  }

  function LinePanel(id: string, version: string, home: string, spare: string): PatchPanel {
    PatchPanel(id, version, [Bucket(home, None), Bucket(spare, None)], LineNodes(), [Edge("in", "out", "next")],
      map["pipe" := PipeBinding(home, None, None)], [])
  }

  lemma LineNodesAre(panel: PatchPanel)
    requires panel.nodes == LineNodes() && panel.edges == [Edge("in", "out", "next")]
    ensures forall id :: IsSource(panel, id) <==> id == "in"
    ensures forall id :: IsSink(panel, id) <==> id == "out"
    ensures forall id :: HasNode(panel, id) <==> id == "in" || id == "out"
    ensures HasKind(panel, Source) && HasKind(panel, Sink)
    ensures forall e :: e in panel.edges <==> e == Edge("in", "out", "next")
    ensures ArcsOf(panel) == {("in", "out")}
    ensures forall n :: MustListExits(panel, n) ==> false
  {
    assert panel.nodes[0] in panel.nodes && panel.nodes[1] in panel.nodes && panel.edges[0] in panel.edges;
    assert forall n :: n in panel.nodes <==> n == panel.nodes[0] || n == panel.nodes[1];
  }

  lemma LinePipes(name: string)
    ensures LastDeclared(LineNodes(), name).Some? <==> name == "pipe"
    ensures ValidatorExits(LineNodes(), name).None?
  {
    var nodes := LineNodes();
    assert nodes[..1] == [nodes[0]] && nodes[..1][..0] == [];
    assert LastDeclared(nodes[..1][..0], name).None? && ValidatorExits(nodes[..1][..0], name).None?;
    assert LastDeclared(nodes[..1], name).Some? <==> name == "pipe";
    assert ValidatorExits(nodes[..1], name).None?;
  }

  lemma LineConnected(panel: PatchPanel)
    requires panel.nodes == LineNodes() && panel.edges == [Edge("in", "out", "next")]
    ensures EdgesJoinNodes(panel) && BoundariesHold(panel) && NodesConnected(panel)
  {
    LineNodesAre(panel);
    ReachesSelf(ArcsOf(panel), "in");
    ReachesStep(ArcsOf(panel), "in", "in", "out");
    assert HasOutgoing(panel, "in");
  }

  lemma LineBuckets(id: string, version: string, home: string, spare: string)
    ensures forall b :: LinePanel(id, version, home, spare).Declares(b) <==> b == home || b == spare
    ensures ContractsKnown(LinePanel(id, version, home, spare))
  {
    var panel := LinePanel(id, version, home, spare);
    assert panel.buckets[0] in panel.buckets && panel.buckets[1] in panel.buckets;
    assert forall b :: b in panel.buckets <==> b == panel.buckets[0] || b == panel.buckets[1];
    assert forall n :: n in panel.nodes <==> n == panel.nodes[0] || n == panel.nodes[1];
  }

  lemma LineBindings(id: string, version: string, home: string, spare: string)
    ensures PipesMatch(LinePanel(id, version, home, spare)) && ValidatorExitsDeclared(LinePanel(id, version, home, spare))
  {
    var panel := LinePanel(id, version, home, spare);
    LineNodesAre(panel);
    LineBuckets(id, version, home, spare);
    forall name
      ensures LastDeclared(panel.nodes, name).Some? <==> name == "pipe"
      ensures ValidatorExits(panel.nodes, name).None?
    { LinePipes(name); }
  }

  lemma LineAccepted(id: string, version: string, home: string, spare: string)
    ensures Accepted(LinePanel(id, version, home, spare))
    ensures ResolveInitialBucket(LinePanel(id, version, home, spare)) == Ok(home)
  {
    LineConnected(LinePanel(id, version, home, spare));
    LineBuckets(id, version, home, spare);
    LineBindings(id, version, home, spare);
    AcceptedIffRules(LinePanel(id, version, home, spare));
  }

  // ---- the buckets an accepted panel can send a card to ------------------------------------

  lemma ResolvedBucketDeclared(panel: PatchPanel, pipe: string, direction: Direction)
    requires Accepted(panel) && ResolvePipeBucket(panel, pipe, direction).Ok?
    ensures panel.Declares(ResolvePipeBucket(panel, pipe, direction).value.bucket)
  {
    AcceptedIffRules(panel);
  }

  lemma InitialBucketDeclared(panel: PatchPanel)
    requires Accepted(panel) && ResolveInitialBucket(panel).Ok?
    ensures panel.Declares(ResolveInitialBucket(panel).value)
  {
    AcceptedIffRules(panel);
  }

  /** In an accepted panel a bound pipe that states its node or direction never fails to find
      its node: the only refusal is a stated direction that is the other one. */
  lemma StatedBindingResolves(panel: PatchPanel, pipe: string, direction: Direction)
    requires Accepted(panel) && pipe in panel.pipeBindings
    requires Truthy(panel.pipeBindings[pipe].node) || panel.pipeBindings[pipe].direction.Some?
    ensures ResolvePipeBucket(panel, pipe, direction).Ok? <==>
      panel.pipeBindings[pipe].direction.None? || panel.pipeBindings[pipe].direction == Some(direction)
    ensures ResolvePipeBucket(panel, pipe, direction) != Err(NotFound)
  {
    AcceptedIffRules(panel);
    var binding := panel.pipeBindings[pipe];
    if !Truthy(binding.node) && binding.direction == Some(direction) {
      DeclaringNodeFound(panel.nodes, pipe, direction);
    }
  }

  lemma {:induction false} DeclaringNodeFound(nodes: seq<Node>, pipe: string, direction: Direction)
    requires LastDeclared(nodes, pipe).Some? && LastDeclared(nodes, pipe).value.direction == direction
    ensures FindNodeForPipe(nodes, pipe, direction).Ok?
  {
    var last := nodes[|nodes| - 1];
    if pipe in last.outputPipes || pipe in last.inputPipes {
      FoundAt(nodes, |nodes| - 1, pipe, direction);
    } else {
      DeclaringNodeFound(nodes[..|nodes| - 1], pipe, direction);
      FoundInPrefix(nodes, |nodes| - 1, pipe, direction);
    }
  }

  lemma {:induction false} FoundAt(nodes: seq<Node>, k: nat, pipe: string, direction: Direction)
    requires k < |nodes|
    requires pipe in (if direction == Input then nodes[k].inputPipes else nodes[k].outputPipes)
    ensures FindNodeForPipe(nodes, pipe, direction).Ok?
  {
    if k > 0 { FoundAt(nodes[1..], k - 1, pipe, direction); }
  }

  lemma {:induction false} FoundInPrefix(nodes: seq<Node>, k: nat, pipe: string, direction: Direction)
    requires k <= |nodes| && FindNodeForPipe(nodes[..k], pipe, direction).Ok?
    ensures FindNodeForPipe(nodes, pipe, direction).Ok?
  {
    if k > 0 {
      assert nodes[..k][1..] == nodes[1..][..k - 1];
      if pipe !in (if direction == Input then nodes[0].inputPipes else nodes[0].outputPipes) {
        FoundInPrefix(nodes[1..], k - 1, pipe, direction);
      }
    }
  }
}
