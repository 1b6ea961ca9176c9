/** Worker and validator nodes on the in-memory runtime (nodes/executor.py). */
module NodeWork {
  import opened Prelude
  import opened Encoding
  import opened Domain
  import opened Service
  import opened PanelValidator
  import opened Requests
  import opened Workflows
  import opened Executor
  import opened MemoryRuntime
  import M = Memory
  import X = ExactlyOnce

  // ---- workers -----------------------------------------------------------------------------

  datatype Job = Job(inputPipe: string, outputPipe: string, workerId: string, refs: seq<ArtifactReference>,
    seconds: int, key: Option<string>)
  {
    function Claiming(): Request { ClaimCard(inputPipe, workerId, seconds, Derived(key, ":claim")) }

    function Submitting(lease: Uuid): Request { SubmitArtifact(lease, outputPipe, refs, Derived(key, ":submit")) }
  }

  datatype Worked = Worked(after: M.Mem, result: Result<seq<ArtifactReference>, Error>)

  /** `_node_for_pipe` */
  function NodeForPipe(panel: PatchPanel, pipe: string, kind: NodeType): Result<Node, Error> {
    if pipe !in panel.pipeBindings || panel.pipeBindings[pipe].node.None? then Err(NotFound)
    else NodeOf(panel.nodes, panel.pipeBindings[pipe].node.value, kind)
  }

  /** The checks after the work is done: the output pipe is the node's, and the card's last event is the submission. */
  function WorkStands(panel: PatchPanel, node: Node, job: Job, history: seq<CardEvent>): Option<Error> {
    if history == [] || job.outputPipe !in panel.pipeBindings then Some(Malformed)
    else if panel.pipeBindings[job.outputPipe].node != Some(node.id) then Some(InvalidOperation)
    else if history[|history| - 1].eventType != "artifact_submitted" then Some(InvalidOperation)
    else None
  }

  /** `execute_worker` */
  ghost function WorkerRun(s: M.Mem, panel: PatchPanel, job: Job, now: Time, base: Uuid): Worked {
    match NodeForPipe(panel, job.inputPipe, Worker)
    case Err(e) => Worked(s, Err(e))
    case Ok(node) =>
      var claim := Call(job.Claiming(), now, base);
      var claimed := M.Step(s, claim);
      StepFits(s, claim);
      match claimed.result
      case Err(e) => Worked(claimed.after, Err(e))
      case Ok(reply) =>
        var submit := Call(job.Submitting(reply.lease.id), now, base + 2);
        var submitted := M.Step(claimed.after, submit);
        StepFits(claimed.after, submit);
        match submitted.result
        case Err(e) => Worked(submitted.after, Err(e))
        case Ok(made) =>
          var history := if reply.lease.cardId in submitted.after.events then submitted.after.events[reply.lease.cardId] else [];
          Worked(submitted.after,
                 match WorkStands(panel, node, job, history)
                 case Some(e) => Err(e)
                 case None => Ok(made.refs))
  }

  lemma StepKeeps(s: M.Mem, c: Call)
    requires M.Valid(s) && X.NothingFalsy(s)
    ensures M.Valid(M.Step(s, c).after) && X.NothingFalsy(M.Step(s, c).after)
  {
    M.StepKeepsValid(s, c);
    X.StepKeepsTruthy(s, c);
  }

  /** A claim and a submission that both succeeded are stored under their keys. */
  lemma WorkIsStored(s: M.Mem, job: Job, lease: Lease, made: seq<ArtifactReference>, now: Time, base: Uuid)
    requires M.Valid(s) && X.NothingFalsy(s) && Truthy(job.key)
    requires var claimed := M.Step(s, Call(job.Claiming(), now, base));
      && claimed.result == Ok(LeaseReply(lease))
      && M.Step(claimed.after, Call(job.Submitting(lease.id), now, base + 2)).result == Ok(ArtifactsReply(made))
    ensures var claimed := M.Step(s, Call(job.Claiming(), now, base));
      var submitted := M.Step(claimed.after, Call(job.Submitting(lease.id), now, base + 2)).after;
      && M.Valid(submitted) && X.NothingFalsy(submitted)
      && X.Holds(submitted, Derived(job.key, ":claim"), LeaseReply(lease))
      && X.Holds(submitted, Derived(job.key, ":submit"), ArtifactsReply(made))
  {
    var claim := Call(job.Claiming(), now, base);
    var mid := M.Step(s, claim).after;
    var submit := Call(job.Submitting(lease.id), now, base + 2);
    X.SuccessIsStoredIff(s, claim);
    StepKeeps(s, claim);
    X.SuccessIsStoredIff(mid, submit);
    StepKeeps(mid, submit);
    X.StepKeepsAnswers(mid, submit, Derived(job.key, ":claim"), LeaseReply(lease));
  }

  lemma StoredAnswers(s: M.Mem, c: Call, answer: Reply)
    requires X.NothingFalsy(s) && X.Holds(s, c.req.Key(), answer) && Fits(c.req, answer)
    ensures M.Step(s, c) == M.Outcome(s, Ok(answer))
  {
  }

  /** A keyed job that answers leaves its lease and its artifacts under its two keys. */
  lemma WorkStores(s: M.Mem, panel: PatchPanel, job: Job, now: Time, base: Uuid)
    returns (lease: Lease, made: seq<ArtifactReference>)
    requires M.Valid(s) && X.NothingFalsy(s) && Truthy(job.key) && WorkerRun(s, panel, job, now, base).result.Ok?
    ensures var done := WorkerRun(s, panel, job, now, base);
      && M.Valid(done.after) && X.NothingFalsy(done.after) && done.result == Ok(made)
      && X.Holds(done.after, Derived(job.key, ":claim"), LeaseReply(lease))
      && X.Holds(done.after, Derived(job.key, ":submit"), ArtifactsReply(made))
    ensures WorkAllowed(panel, job)
  {
    var claim := Call(job.Claiming(), now, base);
    StepFits(s, claim);
    var claimed := M.Step(s, claim);
    lease := claimed.result.value.lease;
    var submit := Call(job.Submitting(lease.id), now, base + 2);
    StepFits(claimed.after, submit);
    made := M.Step(claimed.after, submit).result.value.refs;
    WorkIsStored(s, job, lease, made, now, base);
  }

  /** The pipes of the job are bound to one worker node. */
  predicate WorkAllowed(panel: PatchPanel, job: Job) {
    var node := NodeForPipe(panel, job.inputPipe, Worker);
    node.Ok? && job.outputPipe in panel.pipeBindings && panel.pipeBindings[job.outputPipe].node == Some(node.value.id)
  }

  lemma WorkRepeats(s: M.Mem, panel: PatchPanel, job: Job, lease: Lease, made: seq<ArtifactReference>, now: Time, base: Uuid)
    requires X.NothingFalsy(s) && Truthy(job.key) && WorkAllowed(panel, job)
    requires X.Holds(s, Derived(job.key, ":claim"), LeaseReply(lease))
    requires X.Holds(s, Derived(job.key, ":submit"), ArtifactsReply(made))
    ensures var again := WorkerRun(s, panel, job, now, base);
      again.after == s && (again.result.Ok? ==> again.result == Ok(made))
      && (again.result.Ok? <==> SubmittedLast(s.events, lease.cardId))
  {
    StoredAnswers(s, Call(job.Claiming(), now, base), LeaseReply(lease));
    StoredAnswers(s, Call(job.Submitting(lease.id), now, base + 2), ArtifactsReply(made));
  }

  /** The last event of a card is a submission. */
  predicate SubmittedLast(log: map<Uuid, seq<CardEvent>>, card: Uuid) {
    card in log && log[card] != [] && log[card][|log[card]| - 1].eventType == "artifact_submitted"
  }

  /** Repeating a keyed job whose claim and submission succeeded, at any later point, changes nothing: it
      answers the same artifacts if the last event of its card is still a submission, and else raises. */
  lemma RepeatedJobChangesNothing(s: M.Mem, panel: PatchPanel, job: Job, now: Time, base: Uuid, between: seq<Call>,
    later: Time, drawn: Uuid)
    requires M.Valid(s) && X.NothingFalsy(s) && Truthy(job.key) && WorkerRun(s, panel, job, now, base).result.Ok?
    ensures var done := WorkerRun(s, panel, job, now, base);
      var at := M.Run(done.after, between);
      var again := WorkerRun(at, panel, job, later, drawn);
      && again.after == at
      && (again.result.Ok? ==> again.result == done.result)
      && exists lease :: X.Holds(at, Derived(job.key, ":claim"), LeaseReply(lease))
           && (again.result.Ok? <==> SubmittedLast(at.events, lease.cardId))
  {
    var lease, made := WorkStores(s, panel, job, now, base);
    var done := WorkerRun(s, panel, job, now, base);
    X.RunKeepsAnswers(done.after, between, Derived(job.key, ":claim"), LeaseReply(lease));
    X.RunKeepsAnswers(done.after, between, Derived(job.key, ":submit"), ArtifactsReply(made));
    X.RunKeepsTruthy(done.after, between);
    WorkRepeats(M.Run(done.after, between), panel, job, lease, made, later, drawn);
  }

  // ---- validators --------------------------------------------------------------------------

  /** The parts of a validation request its node may fill in. */
  datatype Judgement = Judgement(accepted: Option<bool>, exit: Option<string>, reason: Option<string>, payload: Json)

  function ConfiguredExit(node: Node, key: string): Result<string, Error> {
    match Get(node.config, key)
    case Str(exit) => Ok(exit)
    case _ => Err(InvalidOperation)
  }

  predicate JudgesTopology(node: Node) { Get(node.config, "validation_handler") == Str("patch_panel_topology") }

  /** The card's payload carries a candidate the validator accepts. */
  ghost predicate CarriesAccepted(card: Card) {
    Get(card.payload, "candidate_definition").PanelValue? && Accepted(Get(card.payload, "candidate_definition").panel)
  }

  /** Texts the handler takes from libraries: the refusal and its errors, the id of a candidate that
      does not parse, and the list of cycles. */
  datatype Said = Said(refusal: string, errors: seq<Value>, id: string, cycles: Value)

  const PASSED := "Patch Panel topology validation passed"

  /** `_candidate_id` */
  function CandidateId(candidate: Value, said: Said): Value {
    match candidate
    case PanelValue(panel) => Str(panel.id)
    case Obj(fields) => if Get(fields, "id") == Null then Null else Str(said.id)
    case _ => Null
  }

  /** The report's entries: the counts of an accepted candidate, or the errors of a refused one. */
  ghost function Reported(candidate: Value, said: Said): Json {
    if candidate.PanelValue? && Accepted(candidate.panel) then
      map["validation_handler" := Str("patch_panel_topology"), "candidate_patch_panel_id" := Str(candidate.panel.id),
          "node_count" := Num(|set n | n in candidate.panel.nodes :: n.id|), "edge_count" := Num(|ArcsOf(candidate.panel)|),
          "cycles" := said.cycles]
    else
      map["validation_handler" := Str("patch_panel_topology"), "candidate_patch_panel_id" := CandidateId(candidate, said),
          "errors" := List(said.errors)]
  }

  /** `_topology_validation_request` */
  ghost function TopologyJudgement(s: M.Mem, node: Node, cardId: Uuid, asked: Judgement, said: Said): Result<Judgement, Error> {
    if asked.accepted.Some? || asked.exit.Some? then Ok(asked)
    else if cardId !in s.cards then Err(NotFound)
    else
      match (ConfiguredExit(node, "valid_exit"), ConfiguredExit(node, "invalid_exit"))
      case (Err(e), _) => Err(e)
      case (_, Err(e)) => Err(e)
      case (Ok(valid), Ok(invalid)) =>
        var fit := CarriesAccepted(s.cards[cardId]);
        Ok(Judgement(Some(fit), Some(if fit then valid else invalid),
                     Some(if fit then OrElse(asked.reason, PASSED) else said.refusal),
                     asked.payload + Reported(Get(s.cards[cardId].payload, "candidate_definition"), said)))
  }

  predicate RequiresExit(node: Node) { node.validatorKind == Some("routing") || |node.outputPipes| > 1 }

  /** `_ensure_validator_exit` */
  predicate ExitStands(panel: PatchPanel, node: Node, exit: string) {
    && exit in node.outputPipes && exit in panel.pipeBindings
    && panel.pipeBindings[exit].node == Some(node.id) && panel.pipeBindings[exit].direction == Some(Output)
  }

  /** `_validator_accepted` */
  function AcceptedBy(node: Node, judged: Judgement): Result<bool, Error> {
    if judged.accepted.Some? then Ok(judged.accepted.value)
    else if judged.exit.None? then Err(InvalidOperation)
    else
      match Get(node.config, "accept_exits")
      case List(items) => Ok(Str(judged.exit.value) in items)
      case _ => Err(InvalidOperation)
  }

  /** `execute_validator` for nodes without the onboarding handler. */
  ghost function ValidatorRun(s: M.Mem, panel: PatchPanel, cardId: Uuid, validatorId: string, asked: Judgement,
    said: Said, key: Option<string>, now: Time, base: Uuid): M.Outcome
  {
    match NodeOf(panel.nodes, validatorId, Validator)
    case Err(e) => M.Outcome(s, Err(e))
    case Ok(node) =>
      match (if JudgesTopology(node) then TopologyJudgement(s, node, cardId, asked, said) else Ok(asked))
      case Err(e) => M.Outcome(s, Err(e))
      case Ok(judged) =>
        if judged.exit.None? && RequiresExit(node) then M.Outcome(s, Err(InvalidOperation))
        else if judged.exit.Some? && !ExitStands(panel, node, judged.exit.value) then M.Outcome(s, Err(InvalidOperation))
        else
          match AcceptedBy(node, judged)
          case Err(e) => M.Outcome(s, Err(e))
          case Ok(accepted) =>
            M.Step(s, Call(ValidateCard(cardId, node.id, accepted, judged.reason, judged.exit, judged.payload, key), now, base))
  }

  const VERDICT_ENTRIES: set<string> := {"accepted", "reason", "output_pipe", "destination_bucket"}

  /** The exit the topology handler chooses for a verdict. */
  function HandlerExit(node: Node, fit: bool): string
    requires ConfiguredExit(node, "valid_exit").Ok? && ConfiguredExit(node, "invalid_exit").Ok?
  {
    if fit then ConfiguredExit(node, "valid_exit").value else ConfiguredExit(node, "invalid_exit").value
  }

  /** Left to judge for itself, a topology validator writes the verdict of the Patch Panel validator
      on the candidate, under the exit configured for that verdict, with the caller's reason or the
      default one if it passed and the refusal's text if not, and with the entries of its report. */
  lemma TopologyValidatorIsHonest(s: M.Mem, panel: PatchPanel, cardId: Uuid, validatorId: string, asked: Judgement,
    said: Said, key: Option<string>, now: Time, base: Uuid)
    requires asked.accepted.None? && asked.exit.None? && asked.payload.Keys !! VERDICT_ENTRIES
    requires NodeOf(panel.nodes, validatorId, Validator).Ok? && JudgesTopology(NodeOf(panel.nodes, validatorId, Validator).value)
    requires ValidatorRun(s, panel, cardId, validatorId, asked, said, key, now, base).result.Ok?
    requires M.Cached(s.idempotency, key).None?
    ensures cardId in s.cards
    ensures var node := NodeOf(panel.nodes, validatorId, Validator).value;
      ConfiguredExit(node, "valid_exit").Ok? && ConfiguredExit(node, "invalid_exit").Ok?
    ensures var o := ValidatorRun(s, panel, cardId, validatorId, asked, said, key, now, base);
      var fit := CarriesAccepted(s.cards[cardId]);
      var exit := HandlerExit(NodeOf(panel.nodes, validatorId, Validator).value, fit);
      && o.result.value.EventReply? && o.result.value.event.actorId == Some(validatorId)
      && o.result.value.event.eventType == "card_validated"
      && Get(o.result.value.event.payload, "accepted") == Bool(fit)
      && Get(o.result.value.event.payload, "output_pipe") == (if exit == "" then Null else Str(exit))
      && Get(o.result.value.event.payload, "reason") == Str(if fit then OrElse(asked.reason, PASSED) else said.refusal)
    ensures var o := ValidatorRun(s, panel, cardId, validatorId, asked, said, key, now, base);
      var report := Reported(Get(s.cards[cardId].payload, "candidate_definition"), said);
      forall entry :: entry in report ==> Get(o.result.value.event.payload, entry) == report[entry]
  {
    var fit := CarriesAccepted(s.cards[cardId]);
    var report := Reported(Get(s.cards[cardId].payload, "candidate_definition"), said);
    HandlerValidates(s, panel, cardId, validatorId, asked, said, key, now, base);
    ReportNamesNoVerdict(Get(s.cards[cardId].payload, "candidate_definition"), said);
    ValidationWrites(s, cardId, validatorId, fit, Some(if fit then OrElse(asked.reason, PASSED) else said.refusal),
                     Some(HandlerExit(NodeOf(panel.nodes, validatorId, Validator).value, fit)), asked.payload + report, now, base);
  }

  /** How the topology handler judges the card. */
  ghost function Judged(s: M.Mem, node: Node, cardId: Uuid, asked: Judgement, said: Said): Judgement
    requires cardId in s.cards && ConfiguredExit(node, "valid_exit").Ok? && ConfiguredExit(node, "invalid_exit").Ok?
  {
    var fit := CarriesAccepted(s.cards[cardId]);
    Judgement(Some(fit), Some(HandlerExit(node, fit)), Some(if fit then OrElse(asked.reason, PASSED) else said.refusal),
              asked.payload + Reported(Get(s.cards[cardId].payload, "candidate_definition"), said))
  }

  lemma HandlerJudges(s: M.Mem, node: Node, cardId: Uuid, asked: Judgement, said: Said)
    requires asked.accepted.None? && asked.exit.None? && TopologyJudgement(s, node, cardId, asked, said).Ok?
    ensures cardId in s.cards && ConfiguredExit(node, "valid_exit").Ok? && ConfiguredExit(node, "invalid_exit").Ok?
    ensures TopologyJudgement(s, node, cardId, asked, said) == Ok(Judged(s, node, cardId, asked, said))
  {
  }

  /** A judgement that stands is a validation call. */
  lemma JudgedCalls(s: M.Mem, panel: PatchPanel, node: Node, cardId: Uuid, validatorId: string, asked: Judgement,
    said: Said, judged: Judgement, key: Option<string>, now: Time, base: Uuid)
    requires NodeOf(panel.nodes, validatorId, Validator) == Ok(node) && JudgesTopology(node)
    requires TopologyJudgement(s, node, cardId, asked, said) == Ok(judged) && judged.accepted.Some? && judged.exit.Some?
    requires ValidatorRun(s, panel, cardId, validatorId, asked, said, key, now, base).result.Ok?
    ensures ValidatorRun(s, panel, cardId, validatorId, asked, said, key, now, base)
         == M.Step(s, Call(ValidateCard(cardId, node.id, judged.accepted.value, judged.reason, judged.exit, judged.payload, key), now, base))
  {
  }

  lemma ValidationCall(s: M.Mem, c: Call)
    requires c.req.ValidateCard? && M.Cached(s.idempotency, c.req.key).None?
    ensures M.Step(s, c).result == M.Validate(s, c.req.cardId, c.req.validatorId, c.req.accepted, c.req.reason, c.req.exit,
                                              c.req.payload, c.now, c.base).result
  {
  }

  /** The validation the topology handler asks the runtime for. */
  lemma HandlerValidates(s: M.Mem, panel: PatchPanel, cardId: Uuid, validatorId: string, asked: Judgement,
    said: Said, key: Option<string>, now: Time, base: Uuid)
    requires asked.accepted.None? && asked.exit.None?
    requires NodeOf(panel.nodes, validatorId, Validator).Ok? && JudgesTopology(NodeOf(panel.nodes, validatorId, Validator).value)
    requires ValidatorRun(s, panel, cardId, validatorId, asked, said, key, now, base).result.Ok?
    requires M.Cached(s.idempotency, key).None?
    ensures cardId in s.cards
    ensures var node := NodeOf(panel.nodes, validatorId, Validator).value;
      ConfiguredExit(node, "valid_exit").Ok? && ConfiguredExit(node, "invalid_exit").Ok?
    ensures var fit := CarriesAccepted(s.cards[cardId]);
      ValidatorRun(s, panel, cardId, validatorId, asked, said, key, now, base).result
        == M.Validate(s, cardId, validatorId, fit, Some(if fit then OrElse(asked.reason, PASSED) else said.refusal),
                      Some(HandlerExit(NodeOf(panel.nodes, validatorId, Validator).value, fit)),
                      asked.payload + Reported(Get(s.cards[cardId].payload, "candidate_definition"), said), now, base).result
  {
    var node := NodeOf(panel.nodes, validatorId, Validator).value;
    HandlerJudges(s, node, cardId, asked, said);
    var judged := Judged(s, node, cardId, asked, said);
    JudgedCalls(s, panel, node, cardId, validatorId, asked, said, judged, key, now, base);
    ValidationCall(s, Call(ValidateCard(cardId, validatorId, judged.accepted.value, judged.reason, judged.exit, judged.payload, key),
                           now, base));
  }

  lemma ReportNamesNoVerdict(candidate: Value, said: Said)
    ensures Reported(candidate, said).Keys !! VERDICT_ENTRIES
  {
  }

  lemma ValidationWrites(s: M.Mem, cardId: Uuid, validatorId: string, accepted: bool, reason: Option<string>,
    exit: Option<string>, payload: Json, now: Time, base: Uuid)
    requires payload.Keys !! VERDICT_ENTRIES && exit.Some?
    requires M.Validate(s, cardId, validatorId, accepted, reason, exit, payload, now, base).result.Ok?
    ensures var o := M.Validate(s, cardId, validatorId, accepted, reason, exit, payload, now, base);
      && o.result.value.EventReply? && o.result.value.event.actorId == Some(validatorId)
      && o.result.value.event.eventType == "card_validated"
      && Get(o.result.value.event.payload, "accepted") == Bool(accepted)
      && Get(o.result.value.event.payload, "output_pipe") == (if Truthy(exit) then Str(exit.value) else Null)
      && Get(o.result.value.event.payload, "reason") == OptStr(reason)
      && forall entry :: entry in payload ==> Get(o.result.value.event.payload, entry) == payload[entry]
  {
    assert "accepted" !in payload && "output_pipe" !in payload && "reason" !in payload && "destination_bucket" !in payload;
  }
}
