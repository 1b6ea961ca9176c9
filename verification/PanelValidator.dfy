/** The Patch Panel validator: the rules stated declaratively, and the loops that collect violations. */
module PanelValidator {
  import opened Prelude
  import opened Domain
  import opened Graph

  /** One entry of the error list, with the names its message quotes. */
  datatype Violation =
    | BucketContract(bucketId: string, contractId: string)
    | NodeContract(nodeId: string, contractId: string)
    | EdgeFrom(from: string)
    | EdgeTo(to: string)
    | ValidatorExit(from: string, on: string)
    | AcceptExitsMissing(nodeId: string)
    | AcceptExitUnknown(nodeId: string, exit: Value)
    | BindingUndeclared(pipe: string)
    | BindingUnknownNode(pipe: string, nodeId: string)
    | BindingWrongNode(pipe: string, nodeId: string, declaredBy: string)
    | BindingWrongDirection(pipe: string, direction: Direction, declared: Direction)
    | BindingUnknownBucket(pipe: string, bucket: string)
    | PipeUnbound(pipe: string)
    | NoSource
    | NoSink
    | SourceHasIncoming(nodeId: string)
    | SinkHasOutgoing(nodeId: string)
    | NodeUnreachable(nodeId: string)
    | DeadEnd(nodeId: string)

  // ---- the vocabulary of the rules ---------------------------------------------------------

  ghost predicate HasContract(panel: PatchPanel, id: string) {
    exists c :: c in panel.contracts && c.id == id
  }

  ghost predicate HasNode(panel: PatchPanel, id: string) {
    exists n :: n in panel.nodes && n.id == id
  }

  ghost predicate HasKind(panel: PatchPanel, kind: NodeType) {
    exists n :: n in panel.nodes && n.kind == kind
  }

  ghost predicate IsSource(panel: PatchPanel, id: string) {
    exists n :: n in panel.nodes && n.id == id && n.kind == Source
  }

  ghost predicate IsSink(panel: PatchPanel, id: string) {
    exists n :: n in panel.nodes && n.id == id && n.kind == Sink
  }

  function ArcsOf(panel: PatchPanel): Arcs {
    set e | e in panel.edges :: (e.from, e.to)
  }

  ghost predicate HasIncoming(panel: PatchPanel, id: string) {
    exists e :: e in panel.edges && e.to == id
  }

  ghost predicate HasOutgoing(panel: PatchPanel, id: string) {
    exists e :: e in panel.edges && e.from == id
  }

  /** The output pipes of the last validator node with this id. */
  ghost function ValidatorExits(nodes: seq<Node>, id: string): Option<seq<string>> {
    if nodes == [] then None
    else
      var last := nodes[|nodes| - 1];
      if last.kind == Validator && last.id == id then Some(last.outputPipes)
      else ValidatorExits(nodes[..|nodes| - 1], id)
  }

  predicate IsRoutingValidator(node: Node) {
    node.validatorKind == Some("routing") || |node.outputPipes| > 1
  }

  ghost predicate MustListExits(panel: PatchPanel, node: Node) {
    node in panel.nodes && node.kind == Validator && IsRoutingValidator(node)
  }

  datatype Declared = Declared(nodeId: string, direction: Direction)

  /** Who declares a pipe: the last declaration wins, and a node's outputs come after its inputs. */
  ghost function LastDeclared(nodes: seq<Node>, pipe: string): Option<Declared> {
    if nodes == [] then None
    else
      var last := nodes[|nodes| - 1];
      if pipe in last.outputPipes then Some(Declared(last.id, Output))
      else if pipe in last.inputPipes then Some(Declared(last.id, Input))
      else LastDeclared(nodes[..|nodes| - 1], pipe)
  }

  ghost predicate ReachedFromSource(panel: PatchPanel, id: string) {
    exists s :: IsSource(panel, s) && Reaches(ArcsOf(panel), s, id)
  }

  // ---- the rules ---------------------------------------------------------------------------

  /** The panel breaks a rule in the way `e` says. */
  ghost predicate Violates(panel: PatchPanel, e: Violation) {
    match e
    case BucketContract(bucketId, contractId) =>
      && contractId != "" && !HasContract(panel, contractId)
      && exists b :: b in panel.buckets && b.id == bucketId && b.acceptanceContract == Some(contractId)
    case NodeContract(nodeId, contractId) =>
      && contractId != "" && !HasContract(panel, contractId)
      && exists n :: n in panel.nodes && n.id == nodeId && n.acceptanceContract == Some(contractId)
    case EdgeFrom(from) => !HasNode(panel, from) && HasOutgoing(panel, from)
    case EdgeTo(to) => !HasNode(panel, to) && HasIncoming(panel, to)
    case ValidatorExit(from, on) =>
      && ValidatorExits(panel.nodes, from).Some? && on !in ValidatorExits(panel.nodes, from).value
      && exists edge :: edge in panel.edges && edge.from == from && edge.on == on
    case AcceptExitsMissing(nodeId) =>
      exists n :: MustListExits(panel, n) && n.id == nodeId && !Get(n.config, "accept_exits").List?
    case AcceptExitUnknown(nodeId, exit) =>
      exists n :: MustListExits(panel, n) && n.id == nodeId && UnknownExit(n, exit)
    case BindingUndeclared(pipe) =>
      pipe in panel.pipeBindings && LastDeclared(panel.nodes, pipe).None?
    case BindingUnknownNode(pipe, nodeId) =>
      && DeclaredBinding(panel, pipe) && !HasNode(panel, nodeId)
      && nodeId != "" && panel.pipeBindings[pipe].node == Some(nodeId)
    case BindingWrongNode(pipe, nodeId, declaredBy) =>
      && DeclaredBinding(panel, pipe) && declaredBy == LastDeclared(panel.nodes, pipe).value.nodeId
      && nodeId != "" && panel.pipeBindings[pipe].node == Some(nodeId) && nodeId != declaredBy
    case BindingWrongDirection(pipe, direction, declared) =>
      && DeclaredBinding(panel, pipe) && declared == LastDeclared(panel.nodes, pipe).value.direction
      && panel.pipeBindings[pipe].direction == Some(direction) && direction != declared
    case BindingUnknownBucket(pipe, bucket) =>
      && DeclaredBinding(panel, pipe) && panel.pipeBindings[pipe].bucket == bucket && !panel.Declares(bucket)
    case PipeUnbound(pipe) =>
      LastDeclared(panel.nodes, pipe).Some? && pipe !in panel.pipeBindings
    case NoSource => !HasKind(panel, Source)
    case NoSink => !HasKind(panel, Sink)
    case SourceHasIncoming(nodeId) => IsSource(panel, nodeId) && HasIncoming(panel, nodeId)
    case SinkHasOutgoing(nodeId) => IsSink(panel, nodeId) && HasOutgoing(panel, nodeId)
    case NodeUnreachable(nodeId) =>
      HasKind(panel, Source) && HasNode(panel, nodeId) && !ReachedFromSource(panel, nodeId)
    case DeadEnd(nodeId) =>
      HasNode(panel, nodeId) && !IsSink(panel, nodeId) && !HasOutgoing(panel, nodeId)
  }

  ghost predicate UnknownExit(node: Node, exit: Value) {
    && Get(node.config, "accept_exits").List? && exit in Get(node.config, "accept_exits").items
    && !(exit.Str? && exit.text in node.outputPipes)
  }

  ghost predicate DeclaredBinding(panel: PatchPanel, pipe: string) {
    pipe in panel.pipeBindings && LastDeclared(panel.nodes, pipe).Some?
  }

  ghost function Violations(panel: PatchPanel): iset<Violation> {
    iset e | Violates(panel, e)
  }

  /** The validator accepts the panel: nothing is violated. */
  ghost predicate Accepted(panel: PatchPanel) {
    Violations(panel) == iset{}
  }

  lemma AcceptedIff(panel: PatchPanel)
    ensures Accepted(panel) <==> forall e :: !Violates(panel, e)
  {
    assert forall e :: e in Violations(panel) <==> Violates(panel, e);
  }

  datatype GraphReport = GraphReport(nodeCount: nat, edgeCount: nat)

  // ---- the checks --------------------------------------------------------------------------

  method ValidateContractReferences(panel: PatchPanel, contractIds: set<string>, errors: seq<Violation>)
    returns (out: seq<Violation>)
    requires forall id :: id in contractIds <==> HasContract(panel, id)
    ensures forall e :: e in out <==>
      e in errors || ((e.BucketContract? || e.NodeContract?) && Violates(panel, e))
  {
    out := errors;
    for i := 0 to |panel.buckets|
      invariant forall e :: e in out <==>
        e in errors || (e.BucketContract? && e.contractId != "" && !HasContract(panel, e.contractId)
          && exists b :: b in panel.buckets[..i] && b.id == e.bucketId && b.acceptanceContract == Some(e.contractId))
    {
      var bucket := panel.buckets[i];
      assert panel.buckets[..i + 1] == panel.buckets[..i] + [bucket];
      if Truthy(bucket.acceptanceContract) && bucket.acceptanceContract.value !in contractIds {
        out := out + [BucketContract(bucket.id, bucket.acceptanceContract.value)];
      }
    }
    assert panel.buckets[..|panel.buckets|] == panel.buckets;
    ghost var afterBuckets := out;
    for i := 0 to |panel.nodes|
      invariant forall e :: e in out <==>
        e in afterBuckets || (e.NodeContract? && e.contractId != "" && !HasContract(panel, e.contractId)
          && exists n :: n in panel.nodes[..i] && n.id == e.nodeId && n.acceptanceContract == Some(e.contractId))
    {
      var node := panel.nodes[i];
      assert panel.nodes[..i + 1] == panel.nodes[..i] + [node];
      if Truthy(node.acceptanceContract) && node.acceptanceContract.value !in contractIds {
        out := out + [NodeContract(node.id, node.acceptanceContract.value)];
      }
    }
    assert panel.nodes[..|panel.nodes|] == panel.nodes;
  }

  method ValidateEdges(panel: PatchPanel, nodeIds: set<string>, errors: seq<Violation>)
    returns (out: seq<Violation>)
    requires forall id :: id in nodeIds <==> HasNode(panel, id)
    ensures forall e :: e in out <==> e in errors || ((e.EdgeFrom? || e.EdgeTo?) && Violates(panel, e))
  {
    out := errors;
    for i := 0 to |panel.edges|
      invariant forall e :: e in out <==>
        || e in errors
        || (e.EdgeFrom? && !HasNode(panel, e.from) && exists x :: x in panel.edges[..i] && x.from == e.from)
        || (e.EdgeTo? && !HasNode(panel, e.to) && exists x :: x in panel.edges[..i] && x.to == e.to)
    {
      var edge := panel.edges[i];
      assert panel.edges[..i + 1] == panel.edges[..i] + [edge];
      if edge.from !in nodeIds {
        out := out + [EdgeFrom(edge.from)];
      }
      if edge.to !in nodeIds {
        out := out + [EdgeTo(edge.to)];
      }
    }
    assert panel.edges[..|panel.edges|] == panel.edges;
  }

  method ValidateValidatorEdges(panel: PatchPanel, errors: seq<Violation>) returns (out: seq<Violation>)
    ensures forall e :: e in out <==> e in errors || (e.ValidatorExit? && Violates(panel, e))
  {
    var validators: map<string, seq<string>> := map[];
    for i := 0 to |panel.nodes|
      invariant forall id :: id in validators <==> ValidatorExits(panel.nodes[..i], id).Some?
      invariant forall id :: id in validators ==> ValidatorExits(panel.nodes[..i], id) == Some(validators[id])
    {
      var node := panel.nodes[i];
      assert panel.nodes[..i + 1][..i] == panel.nodes[..i];
      if node.kind == Validator {
        validators := validators[node.id := node.outputPipes];
      }
    }
    assert panel.nodes[..|panel.nodes|] == panel.nodes;
    out := errors;
    for i := 0 to |panel.edges|
      invariant forall e :: e in out <==>
        || e in errors
        || (e.ValidatorExit? && e.from in validators && e.on !in validators[e.from]
            && exists x :: x in panel.edges[..i] && x.from == e.from && x.on == e.on)
    {
      var edge := panel.edges[i];
      assert panel.edges[..i + 1] == panel.edges[..i] + [edge];
      if edge.from in validators && edge.on !in validators[edge.from] {
        out := out + [ValidatorExit(edge.from, edge.on)];
      }
    }
    assert panel.edges[..|panel.edges|] == panel.edges;
  }

  method UnknownExits(node: Node, errors: seq<Violation>) returns (out: seq<Violation>)
    requires Get(node.config, "accept_exits").List?
    ensures forall e :: e in out <==>
      || e in errors
      || (e.AcceptExitUnknown? && e.nodeId == node.id && UnknownExit(node, e.exit))
  {
    var exits := Get(node.config, "accept_exits").items;
    out := errors;
    for i := 0 to |exits|
      invariant forall e :: e in out <==>
        || e in errors
        || (e.AcceptExitUnknown? && e.nodeId == node.id && e.exit in exits[..i]
            && !(e.exit.Str? && e.exit.text in node.outputPipes))
    {
      assert exits[..i + 1] == exits[..i] + [exits[i]];
      if !(exits[i].Str? && exits[i].text in node.outputPipes) {
        out := out + [AcceptExitUnknown(node.id, exits[i])];
      }
    }
    assert exits[..|exits|] == exits;
  }

  method ValidateAcceptExits(panel: PatchPanel, errors: seq<Violation>) returns (out: seq<Violation>)
    ensures forall e :: e in out <==>
      e in errors || ((e.AcceptExitsMissing? || e.AcceptExitUnknown?) && Violates(panel, e))
  {
    out := errors;
    for i := 0 to |panel.nodes|
      invariant forall e :: e in out <==>
        || e in errors
        || (e.AcceptExitsMissing? && exists n ::
              n in panel.nodes[..i] && MustListExits(panel, n) && n.id == e.nodeId
              && !Get(n.config, "accept_exits").List?)
        || (e.AcceptExitUnknown? && exists n ::
              n in panel.nodes[..i] && MustListExits(panel, n) && n.id == e.nodeId && UnknownExit(n, e.exit))
    {
      var node := panel.nodes[i];
      assert panel.nodes[..i + 1] == panel.nodes[..i] + [node];
      assert MustListExits(panel, node) <==> node.kind == Validator && IsRoutingValidator(node);
      if node.kind == Validator && IsRoutingValidator(node) {
        if !Get(node.config, "accept_exits").List? {
          out := out + [AcceptExitsMissing(node.id)];
        } else {
          out := UnknownExits(node, out);
        }
      }
    }
    assert panel.nodes[..|panel.nodes|] == panel.nodes;
  }

  /** One node's `for pipe in pipes: declared[pipe] = (node, direction)`. */
  method Declare(base: map<string, Declared>, pipes: seq<string>, owner: Declared)
    returns (declared: map<string, Declared>)
    ensures forall p :: p in declared <==> p in base || p in pipes
    ensures forall p :: p in declared ==> declared[p] == if p in pipes then owner else base[p]
  {
    declared := base;
    for i := 0 to |pipes|
      invariant forall p :: p in declared <==> p in base || p in pipes[..i]
      invariant forall p :: p in declared ==> declared[p] == if p in pipes[..i] then owner else base[p]
    {
      assert pipes[..i + 1] == pipes[..i] + [pipes[i]];
      declared := declared[pipes[i] := owner];
    }
    assert pipes[..|pipes|] == pipes;
  }

  method DeclaredPipes(panel: PatchPanel) returns (declared: map<string, Declared>)
    ensures forall p :: p in declared <==> LastDeclared(panel.nodes, p).Some?
    ensures forall p :: p in declared ==> LastDeclared(panel.nodes, p) == Some(declared[p])
  {
    declared := map[];
    for i := 0 to |panel.nodes|
      invariant forall p :: p in declared <==> LastDeclared(panel.nodes[..i], p).Some?
      invariant forall p :: p in declared ==> LastDeclared(panel.nodes[..i], p) == Some(declared[p])
    {
      var node := panel.nodes[i];
      assert panel.nodes[..i + 1][..i] == panel.nodes[..i];
      declared := Declare(declared, node.inputPipes, Declared(node.id, Input));
      declared := Declare(declared, node.outputPipes, Declared(node.id, Output));
    }
    assert panel.nodes[..|panel.nodes|] == panel.nodes;
  }

  /** `e` reports something wrong with the binding of `pipe`. */
  ghost predicate AboutBinding(e: Violation, pipe: string) {
    && (e.BindingUndeclared? || e.BindingUnknownNode? || e.BindingWrongNode?
        || e.BindingWrongDirection? || e.BindingUnknownBucket?)
    && e.pipe == pipe
  }

  method ValidateBinding(panel: PatchPanel, nodeIds: set<string>, bucketIds: set<string>,
    declared: map<string, Declared>, pipe: string, errors: seq<Violation>) returns (out: seq<Violation>)
    requires forall id :: id in nodeIds <==> HasNode(panel, id)
    requires forall id :: id in bucketIds <==> panel.Declares(id)
    requires pipe in panel.pipeBindings
    requires pipe in declared <==> LastDeclared(panel.nodes, pipe).Some?
    requires pipe in declared ==> LastDeclared(panel.nodes, pipe) == Some(declared[pipe])
    ensures forall e :: e in out <==> e in errors || (AboutBinding(e, pipe) && Violates(panel, e))
  {
    out := errors;
    if pipe !in declared {
      out := out + [BindingUndeclared(pipe)];
      return;
    }
    var binding := panel.pipeBindings[pipe];
    if Truthy(binding.node) && binding.node.value !in nodeIds {
      out := out + [BindingUnknownNode(pipe, binding.node.value)];
    }
    if Truthy(binding.node) && binding.node.value != declared[pipe].nodeId {
      out := out + [BindingWrongNode(pipe, binding.node.value, declared[pipe].nodeId)];
    }
    if binding.direction.Some? && binding.direction.value != declared[pipe].direction {
      out := out + [BindingWrongDirection(pipe, binding.direction.value, declared[pipe].direction)];
    }
    if binding.bucket !in bucketIds {
      out := out + [BindingUnknownBucket(pipe, binding.bucket)];
    }
  }

  method ValidatePipeBindings(panel: PatchPanel, nodeIds: set<string>, bucketIds: set<string>,
    errors: seq<Violation>) returns (out: seq<Violation>)
    requires forall id :: id in nodeIds <==> HasNode(panel, id)
    requires forall id :: id in bucketIds <==> panel.Declares(id)
    ensures forall e :: e in out <==>
      || e in errors
      || ((e.PipeUnbound? || exists p :: AboutBinding(e, p)) && Violates(panel, e))
  {
    var declared := DeclaredPipes(panel);
    out := errors;
    var todo := panel.pipeBindings.Keys;
    while todo != {}
      invariant todo <= panel.pipeBindings.Keys
      invariant forall e :: e in out <==>
        || e in errors
        || exists p :: p in panel.pipeBindings.Keys - todo && AboutBinding(e, p) && Violates(panel, e)
      decreases todo
    {
      var pipe :| pipe in todo;
      out := ValidateBinding(panel, nodeIds, bucketIds, declared, pipe, out);
      todo := todo - {pipe};
    }
    ghost var afterBindings := out;
    assert forall e, p :: AboutBinding(e, p) && Violates(panel, e) ==> p in panel.pipeBindings.Keys;
    todo := declared.Keys;
    while todo != {}
      invariant todo <= declared.Keys
      invariant forall e :: e in out <==>
        || e in afterBindings
        || (e.PipeUnbound? && e.pipe in declared.Keys - todo && e.pipe !in panel.pipeBindings)
      decreases todo
    {
      var pipe :| pipe in todo;
      if pipe !in panel.pipeBindings {
        out := out + [PipeUnbound(pipe)];
      }
      todo := todo - {pipe};
    }
  }

  method ValidateBoundaries(panel: PatchPanel, arcs: Arcs, errors: seq<Violation>)
    returns (out: seq<Violation>)
    requires arcs == ArcsOf(panel)
    ensures forall e :: e in out <==>
      || e in errors
      || ((e.NoSource? || e.NoSink? || e.SourceHasIncoming? || e.SinkHasOutgoing?) && Violates(panel, e))
  {
    out := errors;
    if !exists n :: n in panel.nodes && n.kind == Source {
      out := out + [NoSource];
    }
    if !exists n :: n in panel.nodes && n.kind == Sink {
      out := out + [NoSink];
    }
    ghost var before := out;
    for i := 0 to |panel.nodes|
      invariant forall e :: e in out <==>
        || e in before
        || (e.SourceHasIncoming? && HasIncoming(panel, e.nodeId)
            && exists n :: n in panel.nodes[..i] && n.id == e.nodeId && n.kind == Source)
    {
      var node := panel.nodes[i];
      assert panel.nodes[..i + 1] == panel.nodes[..i] + [node];
      if node.kind == Source && exists e :: e in panel.edges && e.to == node.id {
        out := out + [SourceHasIncoming(node.id)];
      }
    }
    ghost var middle := out;
    for i := 0 to |panel.nodes|
      invariant forall e :: e in out <==>
        || e in middle
        || (e.SinkHasOutgoing? && HasOutgoing(panel, e.nodeId)
            && exists n :: n in panel.nodes[..i] && n.id == e.nodeId && n.kind == Sink)
    {
      var node := panel.nodes[i];
      assert panel.nodes[..i + 1] == panel.nodes[..i] + [node];
      if node.kind == Sink && exists e :: e in panel.edges && e.from == node.id {
        out := out + [SinkHasOutgoing(node.id)];
      }
    }
    assert panel.nodes[..|panel.nodes|] == panel.nodes;
  }

  method ReachableFromSources(panel: PatchPanel, arcs: Arcs) returns (reachable: set<string>)
    requires arcs == ArcsOf(panel)
    ensures forall v :: v in reachable <==> ReachedFromSource(panel, v)
  {
    reachable := set n | n in panel.nodes && n.kind == Source :: n.id;
    ghost var sources := reachable;
    for i := 0 to |panel.nodes|
      invariant forall v :: v in reachable <==>
        || v in sources
        || exists n :: n in panel.nodes[..i] && n.kind == Source && Reaches(arcs, n.id, v)
    {
      var node := panel.nodes[i];
      assert panel.nodes[..i + 1] == panel.nodes[..i] + [node];
      if node.kind == Source {
        var found := Descendants(arcs, node.id);
        reachable := reachable + found;
      }
    }
    assert panel.nodes[..|panel.nodes|] == panel.nodes;
    forall v | ReachedFromSource(panel, v)
      ensures v in reachable
    {
      var s :| IsSource(panel, s) && Reaches(arcs, s, v);
    }
    forall v | v in sources
      ensures ReachedFromSource(panel, v)
    {
      assert IsSource(panel, v);
      ReachesSelf(arcs, v);
    }
    forall v, n | n in panel.nodes && n.kind == Source && Reaches(arcs, n.id, v)
      ensures ReachedFromSource(panel, v)
    {
      assert IsSource(panel, n.id);
    }
  }

  method ValidateReachability(panel: PatchPanel, arcs: Arcs, errors: seq<Violation>)
    returns (out: seq<Violation>)
    requires arcs == ArcsOf(panel)
    ensures forall e :: e in out <==> e in errors || (e.NodeUnreachable? && Violates(panel, e))
  {
    out := errors;
    if !exists n :: n in panel.nodes && n.kind == Source {
      return;
    }
    assert HasKind(panel, Source);
    var reachable := ReachableFromSources(panel, arcs);
    for i := 0 to |panel.nodes|
      invariant forall e :: e in out <==>
        || e in errors
        || (e.NodeUnreachable? && !ReachedFromSource(panel, e.nodeId)
            && exists n :: n in panel.nodes[..i] && n.id == e.nodeId)
    {
      var node := panel.nodes[i];
      assert panel.nodes[..i + 1] == panel.nodes[..i] + [node];
      if node.id !in reachable {
        out := out + [NodeUnreachable(node.id)];
      }
    }
    assert panel.nodes[..|panel.nodes|] == panel.nodes;
  }

  method ValidateDeadEnds(panel: PatchPanel, errors: seq<Violation>) returns (out: seq<Violation>)
    ensures forall e :: e in out <==> e in errors || (e.DeadEnd? && Violates(panel, e))
  {
    var sinkIds := set n | n in panel.nodes && n.kind == Sink :: n.id;
    assert forall id :: id in sinkIds <==> IsSink(panel, id);
    out := errors;
    for i := 0 to |panel.nodes|
      invariant forall e :: e in out <==>
        || e in errors
        || (e.DeadEnd? && !IsSink(panel, e.nodeId) && !HasOutgoing(panel, e.nodeId)
            && exists n :: n in panel.nodes[..i] && n.id == e.nodeId)
    {
      var node := panel.nodes[i];
      assert panel.nodes[..i + 1] == panel.nodes[..i] + [node];
      if node.id !in sinkIds && !exists e :: e in panel.edges && e.from == node.id {
        out := out + [DeadEnd(node.id)];
      }
    }
    assert panel.nodes[..|panel.nodes|] == panel.nodes;
  }

  /** The list is exactly the set of broken rules; a report is given when there is none. */
  method ValidatePanel(panel: PatchPanel) returns (r: Result<GraphReport, seq<Violation>>)
    ensures r.Ok? <==> Accepted(panel)
    ensures r.Err? ==> forall e :: e in r.error <==> Violates(panel, e)
    ensures r.Ok? ==> r.value == GraphReport(|set n | n in panel.nodes :: n.id|, |ArcsOf(panel)|)
  {
    var nodeIds := set n | n in panel.nodes :: n.id;
    var bucketIds := set b | b in panel.buckets :: b.id;
    var contractIds := set c | c in panel.contracts :: c.id;
    assert forall id :: id in nodeIds <==> HasNode(panel, id);
    assert forall id :: id in bucketIds <==> panel.Declares(id);
    assert forall id :: id in contractIds <==> HasContract(panel, id);
    var errors := ValidateContractReferences(panel, contractIds, []);
    errors := ValidateEdges(panel, nodeIds, errors);
    errors := ValidateValidatorEdges(panel, errors);
    errors := ValidateAcceptExits(panel, errors);
    errors := ValidatePipeBindings(panel, nodeIds, bucketIds, errors);
    var arcs := ArcsOf(panel);
    errors := ValidateBoundaries(panel, arcs, errors);
    errors := ValidateReachability(panel, arcs, errors);
    errors := ValidateDeadEnds(panel, errors);
    EveryKindChecked(panel, errors);
    AcceptedIff(panel);
    if errors != [] {
      assert errors[0] in errors;
      return Err(errors);
    }
    var graphNodes := nodeIds + (set a | a in arcs :: a.0) + (set a | a in arcs :: a.1);
    EndsAreNodes(panel);
    assert graphNodes == nodeIds;
    r := Ok(GraphReport(|graphNodes|, |arcs|));
  }

  lemma EveryKindChecked(panel: PatchPanel, errors: seq<Violation>)
    ensures forall e :: Violates(panel, e) && !(e.PipeUnbound? || (exists p :: AboutBinding(e, p))) ==>
        e.BucketContract? || e.NodeContract? || e.EdgeFrom? || e.EdgeTo? || e.ValidatorExit?
        || e.AcceptExitsMissing? || e.AcceptExitUnknown? || e.NoSource? || e.NoSink?
        || e.SourceHasIncoming? || e.SinkHasOutgoing? || e.NodeUnreachable? || e.DeadEnd?
  {
    forall e: Violation | e.BindingUndeclared? || e.BindingUnknownNode? || e.BindingWrongNode?
        || e.BindingWrongDirection? || e.BindingUnknownBucket?
      ensures exists p :: AboutBinding(e, p)
    {
      assert AboutBinding(e, e.pipe);
    }
  }

  /** In an accepted panel both ends of every arc are declared nodes. */
  lemma EndsAreNodes(panel: PatchPanel)
    requires Accepted(panel)
    ensures forall a :: a in ArcsOf(panel) ==> HasNode(panel, a.0) && HasNode(panel, a.1)
  {
    AcceptedIff(panel);
    forall a | a in ArcsOf(panel)
      ensures HasNode(panel, a.0) && HasNode(panel, a.1)
    {
      assert !Violates(panel, EdgeFrom(a.0)) && !Violates(panel, EdgeTo(a.1));
    }
  }
}
