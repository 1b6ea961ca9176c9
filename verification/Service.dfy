/** The look-ups and checks both runtimes share (runtime/service.py, artifacts/validation.py). */
module Service {
  import opened Prelude
  import opened Encoding
  import opened Domain

  function FirstSource(nodes: seq<Node>): Option<Node> {
    if nodes == [] then None
    else if nodes[0].kind == Source then Some(nodes[0])
    else FirstSource(nodes[1..])
  }

  function ResolveInitialBucket(panel: PatchPanel): Result<string, Error> {
    match FirstSource(panel.nodes)
    case None => Err(InvalidOperation)
    case Some(source) =>
      if source.outputPipes == [] then Err(InvalidOperation)
      else if source.outputPipes[0] !in panel.pipeBindings then Err(InvalidOperation)
      else Ok(panel.pipeBindings[source.outputPipes[0]].bucket)
  }

  function FindNodeForPipe(nodes: seq<Node>, pipe: string, direction: Direction): Result<string, Error> {
    if nodes == [] then Err(NotFound)
    else if pipe in (if direction == Input then nodes[0].inputPipes else nodes[0].outputPipes)
    then Ok(nodes[0].id)
    else FindNodeForPipe(nodes[1..], pipe, direction)
  }

  datatype Endpoint = Endpoint(bucket: string, nodeId: string)

  function ResolvePipeBucket(panel: PatchPanel, pipe: string, direction: Direction): Result<Endpoint, Error> {
    if pipe !in panel.pipeBindings then Err(InvalidOperation)
    else
      var binding := panel.pipeBindings[pipe];
      if binding.direction.Some? && binding.direction.value != direction then Err(InvalidOperation)
      else if Truthy(binding.node) then Ok(Endpoint(binding.bucket, binding.node.value))
      else
        match FindNodeForPipe(panel.nodes, pipe, direction)
        case Ok(nodeId) => Ok(Endpoint(binding.bucket, nodeId))
        case Err(e) => Err(e)
  }

  function BucketById(buckets: seq<Bucket>, id: string): (b: Option<Bucket>)
    ensures b.Some? <==> exists x :: x in buckets && x.id == id
    ensures b.Some? ==> b.value in buckets && b.value.id == id
  {
    if buckets == [] then None
    else if buckets[0].id == id then Some(buckets[0])
    else BucketById(buckets[1..], id)
  }

  function ContractById(contracts: seq<AcceptanceContract>, id: string): Option<AcceptanceContract> {
    if contracts == [] then None
    else if contracts[0].id == id then Some(contracts[0])
    else ContractById(contracts[1..], id)
  }

  /** `ensure_artifact_refs_belong_to_card` */
  predicate RefsBelong(cardId: Uuid, refs: seq<ArtifactReference>) {
    refs != [] && forall i :: 0 <= i < |refs| ==> refs[i].cardId == cardId
  }

  // ---- acceptance contracts ----------------------------------------------------------------

  predicate StructureHolds(refs: seq<ArtifactReference>) {
    forall i :: 0 <= i < |refs| ==>
      refs[i].storageRef != "" && "sha256:" <= refs[i].contentHash && refs[i].sizeBytes >= 0
  }

  /** `str(ref.metadata.get("role"))`; only text roles and a missing role are modelled. */
  function RoleOf(ref: ArtifactReference): string {
    match Get(ref.metadata, "role")
    case Str(text) => text
    case _ => "None"
  }

  predicate RuleHolds(rule: Rule, refs: seq<ArtifactReference>) {
    match rule
    case ArtifactStructure => StructureHolds(refs)
    case RequiredArtifacts(minCount, roles) =>
      && |refs| >= minCount
      && forall role :: role in roles ==> exists i :: 0 <= i < |refs| && RoleOf(refs[i]) == role
    case OtherRule => true
  }

  /** `ensure_artifacts_accepted`: no error is raised. */
  predicate ArtifactsAccepted(panel: PatchPanel, destination: string, refs: seq<ArtifactReference>) {
    match BucketById(panel.buckets, destination)
    case None => false
    case Some(bucket) =>
      match bucket.acceptanceContract
      case None => true
      case Some(contractId) =>
        match ContractById(panel.contracts, contractId)
        case None => false
        case Some(contract) => forall i :: 0 <= i < |contract.rules| ==> RuleHolds(contract.rules[i], refs)
  }
}
