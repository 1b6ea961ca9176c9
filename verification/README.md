# Ghost Mesh: a verified model of its card runtime and the workflows on it

Ghost Mesh moves *cards* through the *buckets* of a *Patch Panel*: a graph of source, worker,
validator and sink nodes whose pipes are bound to buckets. Workers claim a card under an expiring
*lease*, submit artifacts and so move the card on; validators judge it and may send it through an
exit; every step is recorded in the card's event history, and requests may carry an idempotency key.

This project models that system in Dafny and proves what it promises. It is organised around one
abstract card/lease machine. Its theorems are proved once, over all legal runs with a moving clock,
and both runtimes of the repository are proved to refine it.

| files | part of the system |
|---|---|
| Prelude, Encoding, Domain, Models, Requests | records, requests and the text encodings of ids, versions and stored references |
| Service, Graph, PanelValidator, AcceptedPanels | look-ups, the Patch Panel validator as its loops, what acceptance implies |
| Machine, MachineTheorems, Governance | the abstract machine and what all its runs keep |
| Memory, MemoryRuntime, MemoryRefinement, MemoryTheorems, ExactlyOnce, ClaimOrder, Replacement | the in-memory runtime: specification, the class with its fields updated in place, refinement, theorems, what a later panel version does to earlier cards |
| Postgres, PostgresRuntime, PostgresRefinement, PostgresTheorems, PostgresRetries, HistoryRead, Ledger | the Postgres runtime over its tables, with the location ledger |
| Agreement, Lockstep | the two runtimes take the same steps of the machine, and keep the same state side by side |
| LeaseStore | `acquire_lease` and `release_lease` as interleaved transactions |
| Workflows, Registry, Executor, NodeWork, Bootstrap, BootstrapAgain, Publication, Shadow, Deliveries, DeliveryRuns, DeliveryClashes, Genesis, GenesisRuns | the workflows built on the runtime |

How to read it:

- A class such as `MemoryRuntime.InMemoryCardRuntime` has the program's fields and loops; each of its
  methods is proved to leave exactly the state and answer of a specification function on values, and
  the theorems are about those functions.
- A call takes one clock reading `now` and draws the ids `base`, `base + 1`, .. for what it creates.
  Theorems over runs assume that clock readings do not go back and that drawn ids are new.
- An id is a natural number and its text is its decimal form. A raised exception is an `Err` result.
- Where the database may choose (the first row of a query without an order, the order of rows), the
  choice is a parameter and the theorems hold for every legal choice.
- A condition such as "reserved names" is a predicate on the request a caller can check before the
  call, for example `Requests.ReservesMovement`. Where a promise fails without its condition there is
  a lemma with a concrete input, or one saying exactly when it holds; the list below names them.

What the proofs show about the code, beyond its promises:

- The dead-end check does not keep work from being trapped in a cycle (`AcceptedPanels.AcceptedPanelCanTrap`).
- `validate_card` lets the caller's payload overwrite the entries of the event, so a forged
  `destination_bucket` makes the history tell a bucket the card is not in
  (`MemoryTheorems.ForgedDestinationMisleads`; exactly when: `MachineTheorems.ReplaySurvivesIff`).
- Bootstrapping is documented as idempotent. A second run leaves the whole state as it was unless it
  raises, and it raises exactly when the first configured panel of some id is refused by the validator
  and the last is of another version (`BootstrapAgain.BootstrappingAgainIff`); then it can lose a panel
  (`BootstrapAgain.RelapseLosesPanel`). It reports nothing new exactly when no panel id is configured
  under two versions (`Bootstrap.ReportsNothingNewIff`).
- The in-memory runtime keeps one panel an id, so a later version can strand a card in a bucket it does
  not declare (`Replacement.UpgradeStrandsCard`; exactly when: `Replacement.AlwaysHousedIff`).
- With a colon in a panel id the Postgres look-up judges a card by another panel
  (`PostgresTheorems.ColonIdMisleads`; exactly when: `PostgresTheorems.StoredPanelFoundIff`).
- `card_history` in Postgres orders rows of one time by random ids; a history replays alike in every such
  order exactly when the rows of its last movement's time agree (`HistoryRead.AnyListingIff`).
- A delivery is refused after one under another deduplication key exactly when one key is the other
  followed by `:source` or `:event`, and the shorter key leaves a card without its last events
  (`DeliveryClashes.LaterDeliveryCompletesIff`).
- A retry of `acquire_lease` succeeds exactly when it reads its key after the first call's commit and is
  not aborted (`LeaseStore.RetrySucceedsIff`); one that overlaps the first call can fail although its key
  gets stored (`LeaseStore.OverlappingRetryFails`).
- A shadow requested under a stored key links to the card made first, which need not be a shadow
  (`Shadow.ShadowIsNewIff`).
- The nodes addendum speaks of edges that fire; the runtimes never read `edges`, and cards move only
  through pipe bindings. The model follows the code.

## Model

| member | source | states |
|---|---|---|
| Encoding.FirstSplitRecovers | src/ghostmesh/runtime/postgres.py:694-704 | Splitting a workflow version at its first colon gives back id and version if and only if the id has no colon. |
| Encoding.LastSplitRecovers | src/ghostmesh/runtime/memory.py:377-379 | Splitting it at its last colon gives back the id if and only if the version has no colon. |
| Encoding.ReadingsAgree | src/ghostmesh/runtime/postgres.py:735-736 | The readings of the two runtimes agree on the panel id for colon-free names. |
| Encoding.ArtifactsRoundTrip | src/ghostmesh/runtime/postgres.py:244-256 | A stored `artifacts:` reference, for any list of ids (the empty one included), is read back as the same ids in the same order. |
| Encoding.KindRefRoundTrip | src/ghostmesh/runtime/postgres.py:326-331 | A `kind:id` reference is read back by the reader of its kind and refused by the reader of every other kind. |
| Encoding.ArtifactsRefRefused | src/ghostmesh/runtime/postgres.py:709-712 | No single-record reader accepts a list reference. |
| Encoding.KindRefRefused | src/ghostmesh/runtime/postgres.py:244-256 | The list reader accepts no single-record reference. |
| Service.BucketById | src/ghostmesh/runtime/service.py:137-139 | Finds a bucket of that id exactly when the panel declares one. |
| Graph.Descendants | src/ghostmesh/patchpanel/validator.py:195-211 | The worklist that grows the reachable set returns exactly the nodes a path of one or more arcs leads to. |
| PanelValidator.ValidateContractReferences | src/ghostmesh/patchpanel/validator.py:55-73 | Appends exactly the unknown contract references of buckets and nodes, and keeps what was reported before. |
| PanelValidator.ValidateEdges | src/ghostmesh/patchpanel/validator.py:75-85 | Appends exactly the edge ends that are no nodes. |
| PanelValidator.ValidateValidatorEdges | src/ghostmesh/patchpanel/validator.py:87-105 | Appends exactly the edges that leave a validator through an exit it does not declare. |
| PanelValidator.ValidateAcceptExits | src/ghostmesh/patchpanel/validator.py:107-127 | Appends exactly the routing validators without a list of accept exits and the accept exits outside their outputs. |
| PanelValidator.DeclaredPipes | src/ghostmesh/patchpanel/validator.py:135-147 | The dictionary the loops overwrite maps each declared pipe to its last declaration. |
| PanelValidator.ValidatePipeBindings | src/ghostmesh/patchpanel/validator.py:135-172 | Appends exactly the declared pipes without a binding and the bindings that are undeclared or disagree on node, direction or bucket. |
| PanelValidator.ValidateBoundaries | src/ghostmesh/patchpanel/validator.py:174-193 | Appends exactly the missing source or sink, the sources with incoming and the sinks with outgoing edges. |
| PanelValidator.ReachableFromSources | src/ghostmesh/patchpanel/validator.py:195-206 | The set grown source by source is exactly the nodes reachable from some source. |
| PanelValidator.ValidateReachability | src/ghostmesh/patchpanel/validator.py:195-211 | Appends exactly the nodes no source reaches, and nothing when there is no source. |
| PanelValidator.ValidateDeadEnds | src/ghostmesh/patchpanel/validator.py:213-222 | Appends exactly the nodes other than sinks without an outgoing edge. |
| PanelValidator.ValidatePanel | src/ghostmesh/patchpanel/validator.py:21-45 | Reports if and only if no rule is broken; otherwise the errors are exactly the set of broken rules; the report counts nodes and edges. |
| AcceptedPanels.AcceptedIffRules | src/ghostmesh/patchpanel/validator.py:21-222 | The validator raises nothing if and only if the declarative rules all hold: known contracts, edge ends, exits, pipes matching both ways with the last declaration winning, boundary degrees, reachability, no dead ends. |
| AcceptedPanels.NodesAreLive | src/ghostmesh/patchpanel/validator.py:195-222 | In an accepted panel each node is reachable from a source and reaches a sink or a cycle. |
| AcceptedPanels.AcyclicPanelsFlow | src/ghostmesh/patchpanel/validator.py:41-53 | In an accepted panel without a cycle each node lies on a path from a source to a sink. |
| AcceptedPanels.AcceptedPanelCanTrap | src/ghostmesh/patchpanel/validator.py:213-222 | The dead-end rule does not rule out a cycle with no way out: a concrete accepted panel has one. |
| AcceptedPanels.NoTrapIffCyclesEscape | src/ghostmesh/patchpanel/validator.py:213-222 | In an accepted panel every node reaches a sink if and only if every node on a cycle does. |
| AcceptedPanels.ResolvedBucketDeclared | src/ghostmesh/runtime/service.py:124-134 | Whatever a pipe of an accepted panel resolves to is a declared bucket. |
| AcceptedPanels.InitialBucketDeclared | src/ghostmesh/runtime/service.py:111-121 | The initial bucket of an accepted panel is a declared bucket. |
| AcceptedPanels.StatedBindingResolves | src/ghostmesh/runtime/service.py:124-134 | In an accepted panel a bound pipe whose binding states a node or a direction resolves in one direction and raises InvalidOperation in the other, never NotFound. |
| MachineTheorems.ExclusiveForever | src/ghostmesh/runtime/memory.py:104-121 | In every state of every run of the shared machine, at its clock reading and every later one, a card has at most one active lease. |
| MachineTheorems.DeadLeasesStayDead | src/ghostmesh/runtime/service.py:142-149 | A lease that is released or expired is never active again, in any run. |
| MachineTheorems.LeasesAreKept | src/ghostmesh/runtime/memory.py:198-260 | No run loses or reassigns a lease, and a released one never changes again. |
| MachineTheorems.CardsKeepIdentity | src/ghostmesh/runtime/memory.py:151-152 | No run changes a card's id, workflow version, payload, metadata or creation time. |
| MachineTheorems.HistoriesGrow | src/ghostmesh/runtime/memory.py:355-356 | Histories only grow by appending. |
| MachineTheorems.ReplayYieldsBucket | src/ghostmesh/runtime/memory.py:62-75 | Folding any card's history yields exactly its current bucket, in every run that leaves the movement names to the runtime. |
| MachineTheorems.ReplaySurvivesIff | src/ghostmesh/runtime/memory.py:262-294 | A recorded event, or a validation without an exit, keeps that true if and only if it names no bucket or the card's own. |
| MachineTheorems.LeasesConserved | src/ghostmesh/runtime/memory.py:104-260 | For each card, unreleased leases are its claims minus its closing events; each lease has one claim event and at most one closing event, which it has exactly when it is released. |
| Governance.BucketsAlwaysDeclared | src/ghostmesh/runtime/service.py:111-139 | In every run that obeys the registered panels each card sits in a bucket the definition of its own version declares. |
| Governance.LeasedCardsAlwaysWait | src/ghostmesh/runtime/memory.py:89-186 | In every such run that does not move leased cards, an actively leased card sits where its lease's input pipe leads, at the lease's node. |
| Governance.SubmissionsCrossOneNode | src/ghostmesh/runtime/memory.py:123-186 | A submission then takes the card from an input bucket to an output bucket of one node. |
| Governance.MovingLeasedCardIff | src/ghostmesh/runtime/memory.py:262-326 | Validating or moving an actively leased card keeps that rule if and only if the card stays in its bucket. |
| Memory.StepKeepsValid | src/ghostmesh/runtime/memory.py:28-34 | Every call keeps each record under its own id and the insertion orders listing exactly the keys. |
| MemoryRuntime.InMemoryCardRuntime.constructor | src/ghostmesh/runtime/memory.py:28-34 | The empty runtime. |
| MemoryRuntime.InMemoryCardRuntime.RegisterPatchPanel | src/ghostmesh/runtime/memory.py:36-39 | Leaves exactly the state and answer of the registration: refuses what the validator refuses, else stores the panel under its id. |
| MemoryRuntime.InMemoryCardRuntime.CreateCard | src/ghostmesh/runtime/memory.py:44-75 | Answers by key, or stores the new card in the panel's initial bucket with its `card_created` event; raises what the code raises and changes nothing then. |
| MemoryRuntime.InMemoryCardRuntime.ClaimCard | src/ghostmesh/runtime/memory.py:89-121 | Answers by key, or leases the card `_claim_target` finds and records `card_claimed`. |
| MemoryRuntime.InMemoryCardRuntime.ClaimTarget | src/ghostmesh/runtime/memory.py:381-416 | The loop over panels and cards finds the target of the specification: one panel with work, one panel in all, or a conflict. |
| MemoryRuntime.InMemoryCardRuntime.HasActiveLease | src/ghostmesh/runtime/memory.py:364-369 | True if and only if some lease of the card is unreleased and unexpired. |
| MemoryRuntime.InMemoryCardRuntime.NextClaimable | src/ghostmesh/runtime/memory.py:396-404 | The first card in order of creation with that version and bucket and no active lease. |
| MemoryRuntime.InMemoryCardRuntime.SubmitArtifact | src/ghostmesh/runtime/memory.py:123-186 | Answers by key, or moves the card, releases the lease, stores the references and records the submission; checks in the order of the code. |
| MemoryRuntime.InMemoryCardRuntime.RenewLease | src/ghostmesh/runtime/memory.py:188-213 | Answers by key, or sets the expiry of an active lease from this clock reading, non-positive durations included. |
| MemoryRuntime.InMemoryCardRuntime.ReleaseLease | src/ghostmesh/runtime/memory.py:215-239 | Answers by key or with a lease already released (storing nothing), or releases it with its event. |
| MemoryRuntime.InMemoryCardRuntime.ExpireLeases | src/ghostmesh/runtime/memory.py:241-260 | The loop releases exactly the overdue leases, in order of insertion, each with its event. |
| MemoryRuntime.InMemoryCardRuntime.ValidateCard | src/ghostmesh/runtime/memory.py:262-294 | Answers by key, or records the verdict with the caller's payload over it and sends the card through the exit, if any. |
| MemoryRuntime.InMemoryCardRuntime.MoveCard | src/ghostmesh/runtime/memory.py:296-326 | Answers by key, or moves the card to a declared bucket with its event. |
| MemoryRuntime.InMemoryCardRuntime.RecordEvent | src/ghostmesh/runtime/memory.py:332-353 | Answers by key, or appends the event to a known card's history. |
| MemoryRefinement.StepRefines | src/ghostmesh/runtime/memory.py:44-353 | Every call of the in-memory runtime is a legal sequence of acts of the shared machine, all at the call's clock reading. |
| MemoryRefinement.RunRefines | src/ghostmesh/runtime/memory.py:44-353 | Every run of the in-memory runtime is a legal, clocked run of the shared machine. |
| MemoryRefinement.RaisingChangesNothing | src/ghostmesh/runtime/memory.py:44-353 | A call that raises leaves the whole state as it was. |
| MemoryTheorems.OneActiveLease | src/ghostmesh/runtime/memory.py:89-260 | In every reachable state and at every clock reading from then on each card has at most one active lease. |
| MemoryTheorems.ExpiredLeaseNeverReturns | src/ghostmesh/runtime/memory.py:188-260 | A lease not active now is never active again, whatever runs. |
| MemoryTheorems.HistoryReplays | src/ghostmesh/runtime/memory.py:62-75 | Every reachable history starts with `card_created` and folds to the card's bucket, for callers that keep the movement names reserved. |
| MemoryTheorems.HistoryReadStays | src/ghostmesh/runtime/memory.py:328-330 | What `card_history` answers at one point of a run it answers at every later point as the beginning of the history: nothing recorded is lost, reordered or changed. |
| MemoryTheorems.ForgedDestinationMisleads | src/ghostmesh/runtime/memory.py:276-294 | A concrete validation without an exit whose payload carries `destination_bucket` makes the history tell the wrong bucket. |
| MemoryTheorems.LeasesBalance | src/ghostmesh/runtime/memory.py:104-260 | Conservation of leases in every reachable state. |
| MemoryTheorems.CardsSitInDeclaredBuckets | src/ghostmesh/runtime/memory.py:377-379 | Where each panel id is registered once under a colon-free version, every card sits in a bucket its panel declares. |
| Replacement.RegisteringHousesIff | src/ghostmesh/runtime/memory.py:36-39 | Registering a panel keeps every card in a bucket its panel declares if and only if the panel declares where the cards of its id are, whatever their version. |
| Replacement.StepHousesIff | src/ghostmesh/runtime/memory.py:36-353 | Of all calls, only such a registration can leave a card in a bucket its panel does not declare. |
| Replacement.AlwaysHousedIff | src/ghostmesh/runtime/memory.py:377-379 | In every run under colon-free versions, re-registrations included, each card is always in a bucket its panel declares if and only if every registration declared where the cards of its id then were. |
| Replacement.UpgradeStrandsCard | src/ghostmesh/runtime/memory.py:36-39 | A concrete run: version 2 of a panel strands the card made under version 1. |
| MemoryTheorems.LeasedCardsSitAtTheirPipe | src/ghostmesh/runtime/memory.py:89-121 | Where moreover no leased card is validated through an exit or moved, a leased card sits at its lease's pipe and node. |
| MemoryTheorems.SubmissionsCrossOneNode | src/ghostmesh/runtime/memory.py:123-186 | In such runs every successful submission takes the card from the input bucket of its lease to an output bucket of the same node. |
| ExactlyOnce.StepKeepsTruthy | src/ghostmesh/runtime/service.py:194-195 | No stored answer is ever falsy, because a submission refuses an empty list. |
| ExactlyOnce.SuccessIsStoredIff | src/ghostmesh/runtime/memory.py:442-445 | A keyed call that succeeds is stored under its key if and only if it is not a release of a lease already released. |
| ExactlyOnce.ReplayAnswersFirstResult | src/ghostmesh/runtime/memory.py:439-458 | After a stored success every later call with the key changes nothing: it returns the first result, or is refused if its operation returns another type. |
| ExactlyOnce.RetryChangesNothing | src/ghostmesh/runtime/memory.py:44-353 | Repeating a keyed request that succeeded, at any later point of any run, changes nothing. |
| ExactlyOnce.RetriesAreInvisible | src/ghostmesh/runtime/memory.py:44-353 | A run with the retry and the run without it end in the same state. |
| ExactlyOnce.ErasingReplaysChangesNothing | src/ghostmesh/runtime/memory.py:44-353 | Erasing every call whose key is already stored gives the same cards, leases, artifacts, events and keys. |
| ExactlyOnce.ErasedRunHasNoReplay | src/ghostmesh/runtime/memory.py:439-440 | What is left repeats no stored key. |
| ClaimOrder.ClaimSucceedsIffOnePanelHasWork | src/ghostmesh/runtime/memory.py:381-416 | For bindings that state a node or a direction, a claim succeeds if and only if exactly one panel binding the pipe has a claimable card. |
| ClaimOrder.ClaimTakesEarliest | src/ghostmesh/runtime/memory.py:396-404 | And it leases that panel's earliest-created claimable card. |
| ClaimOrder.ReachableClaims | src/ghostmesh/runtime/memory.py:89-121 | In every reachable state a claim call under a key not stored succeeds if and only if exactly one registered panel has work for the pipe, and leases its earliest claimable card to the node the pipe resolves to. |
| ClaimOrder.SweepingFirstChangesNoClaim | src/ghostmesh/runtime/memory.py:241-260 | Expiring leases at the same instant beforehand never changes what a claim finds. |
| PostgresRuntime.PostgresCardRuntime.constructor | src/ghostmesh/runtime/postgres.py:44-45 | Empty tables. |
| PostgresRuntime.PostgresCardRuntime.RegisterPatchPanel | src/ghostmesh/runtime/postgres.py:47-92 | Stores an accepted definition under (id, version), and keeps the one already there. |
| PostgresRuntime.PostgresCardRuntime.CreateCard | src/ghostmesh/runtime/postgres.py:99-152 | Answers by key, or inserts the card, its first location row and its event. |
| PostgresRuntime.PostgresCardRuntime.ClaimCard | src/ghostmesh/runtime/postgres.py:172-234 | Answers by key, or leases the row the locking query picked among the claimable ones of the only panel. |
| PostgresRuntime.PostgresCardRuntime.SubmitArtifact | src/ghostmesh/runtime/postgres.py:236-332 | Answers by key, or moves the card row, releases the lease, inserts the references (rolling everything back on a repeated id) and the event. |
| PostgresRuntime.ArtifactsInOrder | src/ghostmesh/runtime/postgres.py:653-668 | Whatever order the rows of the query come in, the artifacts come in the order of the ids, or NotFound when one is missing. |
| PostgresRuntime.PostgresCardRuntime.RenewLease | src/ghostmesh/runtime/postgres.py:334-363 | As in memory, over rows. |
| PostgresRuntime.PostgresCardRuntime.ReleaseLease | src/ghostmesh/runtime/postgres.py:365-395 | As in memory, over rows. |
| PostgresRuntime.PostgresCardRuntime.ExpireLeases | src/ghostmesh/runtime/postgres.py:397-423 | The loop over the overdue rows, in whatever order the query gives them, releases each with its event. |
| PostgresRuntime.PostgresCardRuntime.ValidateCard | src/ghostmesh/runtime/postgres.py:425-494 | Inserts the validation result, moves the card through the exit with its own `card_moved` event, then records the validation. |
| PostgresRuntime.PostgresCardRuntime.MoveCard | src/ghostmesh/runtime/postgres.py:496-521 | Moves the card to a declared bucket with its ledger rows and event. |
| PostgresRuntime.PostgresCardRuntime.MoveCardRow | src/ghostmesh/runtime/postgres.py:558-603 | Leaves the active location row, enters a new one and rewrites the card's bucket. |
| PostgresRuntime.PostgresCardRuntime.RecordEvent | src/ghostmesh/runtime/postgres.py:533-556 | As in memory, over rows. |
| PostgresRefinement.StepRefines | src/ghostmesh/runtime/postgres.py:99-556 | Every serial call is a legal sequence of acts of the shared machine, whichever rows its queries pick; a routed validation is a move and a validation. |
| PostgresRefinement.RaisingChangesNothing | src/ghostmesh/runtime/postgres.py:99-556 | A call that raises leaves every table as it was. |
| PostgresTheorems.RunRefines | src/ghostmesh/runtime/postgres.py:99-556 | Every serial run is a legal, clocked run of the shared machine, and keeps primary and foreign keys. |
| PostgresTheorems.OneActiveLease | src/ghostmesh/runtime/postgres.py:172-234 | In every reachable state of serial runs, at every later clock reading, a card has at most one active lease. |
| PostgresTheorems.ExpiredLeaseNeverReturns | src/ghostmesh/runtime/postgres.py:334-423 | A lease not active now is never active again. |
| PostgresTheorems.HistoryReplays | src/ghostmesh/runtime/postgres.py:558-603 | Folding a card's event rows yields its current bucket, for callers that keep the movement names reserved. |
| HistoryRead.AnyListingIff | src/ghostmesh/runtime/postgres.py:523-531 | A history replays alike in every order by time if and only if the events of the time of its last movement name one bucket. |
| HistoryRead.HistoryReadReplays | src/ghostmesh/runtime/postgres.py:523-531 | In every run at strictly later clock readings, folding the history read by time, in whatever order rows of one time come, yields the card's bucket. |
| PostgresTheorems.LeasesBalance | src/ghostmesh/runtime/postgres.py:172-423 | Conservation of leases in every reachable state. |
| PostgresTheorems.CardsSitInDeclaredBuckets | src/ghostmesh/runtime/postgres.py:694-704 | In every run, further versions included, each card's bucket is declared by the definition stored under the card's own version, for colon-free panel ids. |
| PostgresTheorems.StoredPanelsNeverChange | src/ghostmesh/runtime/postgres.py:47-92 | A definition stored under an id and a version never changes, from any tables on and in any run. |
| PostgresTheorems.StoredPanelFoundIff | src/ghostmesh/runtime/postgres.py:694-704 | The look-up finds the stored panel of a card's version if and only if its id has no colon. |
| PostgresTheorems.ColonIdMisleads | src/ghostmesh/runtime/postgres.py:694-704 | A concrete run: with a colon in an id a card is judged by another panel of its workflow version and moved to a bucket its own panel does not declare. |
| PostgresTheorems.LeasedCardsSitAtTheirPipe | src/ghostmesh/runtime/postgres.py:172-234 | An actively leased card sits at its lease's pipe and node in runs that leave leased cards alone. |
| PostgresRetries.ReplayReads | src/ghostmesh/runtime/postgres.py:244-256 | A stored reference reads back as its answer's rows for the operations that return that type and is refused by every other. |
| PostgresRetries.RetriedCallReadsItsRows | src/ghostmesh/runtime/postgres.py:706-732 | After a keyed success every later call with the key changes nothing and reads the answer's rows as they are by then; events and artifacts are as they were. |
| Agreement.MemoryTakesAskedSteps | src/ghostmesh/runtime/memory.py:44-353 | A call of the in-memory runtime is the act its request names, one expiry per lease for a sweep, with initial bucket, pipe ends, routes and nodes as a registered panel resolves them; only a claim's card and the drawn ids are free. |
| Agreement.PostgresTakesAskedSteps | src/ghostmesh/runtime/postgres.py:99-556 | So is a call of the Postgres runtime once the `card_moved` of a routed validation and the result id are projected out of the logs. |
| Lockstep.AnswersAreAlike | src/ghostmesh/runtime/service.py:111-139 | With one panel registered, a request and the drawn ids determine the act, up to the id of its event. |
| Lockstep.StepsTogether | src/ghostmesh/runtime/postgres.py:99-556 | From states that are the same up to the projection and the ids of events, the same request leads both runtimes to such states again, and if its key is not in use it succeeds in both or in neither. |
| Lockstep.RunsAgree | src/ghostmesh/runtime/postgres.py:99-556 | From the registration of one colon-free panel on, over every run of paired calls the two runtimes hold the same cards and leases, the same artifacts up to the event each names, and the same histories up to the projection and the ids of events. |
| Ledger.LedgerAlwaysHolds | src/ghostmesh/runtime/postgres.py:120-140 | In every reachable state each card's rows follow each other without gap or overlap from creation to one open row that names its bucket. |
| Ledger.OneActiveRow | src/ghostmesh/runtime/postgres.py:558-603 | Each card has exactly one active row, the last, and it names the current bucket. |
| Ledger.CoveredExactlyOnce | src/ghostmesh/runtime/postgres.py:558-603 | At every time from creation on exactly one row covers the card. |
| Ledger.LedgerRemembers | src/ghostmesh/runtime/postgres.py:558-603 | The row covering time t names, ever after, the bucket the card had after the last call at or before t. |
| LeaseStore.EventKeepsSafe | src/ghostmesh/runtime/sqlalchemy_store.py:26-102 | Every statement of every transaction keeps the protocol's invariant. |
| LeaseStore.OneActiveLease | src/ghostmesh/runtime/sqlalchemy_store.py:42-70 | Under every interleaving of any number of transactions, no two committed leases of a card are active at the state's clock reading or any later one. |
| LeaseStore.KeyNamesOneLease | src/ghostmesh/runtime/sqlalchemy_store.py:91-102 | Each idempotency key names at most one committed lease, and the table and the leases agree on which. |
| LeaseStore.SameKeySameAnswer | src/ghostmesh/runtime/sqlalchemy_store.py:37-40 | Two acquisitions under one key that both succeed answer the same lease. |
| LeaseStore.CommittedLeaseStands | src/ghostmesh/runtime/sqlalchemy_store.py:75-89 | A committed lease is never lost or handed over, a released one never changes, and a later reading of its key answers it. |
| LeaseStore.RetrySucceedsIff | src/ghostmesh/runtime/sqlalchemy_store.py:26-40 | Once a key is committed, an acquisition under it that ends succeeds if and only if it had not read the key before that commit and is not aborted; then it answers the committed lease. |
| LeaseStore.OverlappingRetryFails | src/ghostmesh/runtime/sqlalchemy_store.py:42-59 | A concrete interleaving of one request and its retry: the retry reads the key too early, waits for the card and is refused, although its key is stored. |
| LeaseStore.PostgresLeaseStore.AcquireLease | src/ghostmesh/runtime/sqlalchemy_store.py:26-73 | The statements in order are a run of the protocol; alone, they answer by key, refuse a missing or leased card, or commit one lease under its key. |
| LeaseStore.PostgresLeaseStore.ReleaseLease | src/ghostmesh/runtime/sqlalchemy_store.py:75-83 | Releases exactly an unreleased lease, else NotFound. |
| Models.EnsureUnique | src/ghostmesh/domain/models.py:331-340 | The loop finds exactly the repeated ids. |
| Workflows.CallGrows | src/ghostmesh/runtime/memory.py:44-353 | Every call only adds: cards keep what they are, histories grow by appending. |
| Workflows.NodeOf | src/ghostmesh/nodes/executor.py:412-420 | Finds the first node of that id if it is of that type; InvalidOperation if and only if the first is of another type, NotFound if and only if there is none. |
| Registry.SearchFindsMatches | src/ghostmesh/registry/service.py:66-67 | A search answers exactly the entries that match. |
| Registry.EntryOfIff | src/ghostmesh/nodes/executor.py:280-289 | The look-up of a panel version finds an entry exactly when there is one, archived and superseded ones included. |
| Registry.InMemoryPatchPanelRegistry.Register | src/ghostmesh/registry/service.py:56-58 | Afterwards a search finds the entry exactly when its filters match it, every entry of another id as before, and never an entry the new one replaced. |
| Registry.InMemoryPatchPanelRegistry.SearchAll | src/ghostmesh/registry/service.py:66-67 | The loop over the entries gives the search of the specification. |
| Registry.InMemoryPatchPanelRegistry.Apply | src/ghostmesh/registry/service.py:69-99 | Update (drafts only), archive and supersede rewrite one entry and nothing else, or raise and change nothing. |
| Executor.NodeExecutor.ExecuteSource | src/ghostmesh/nodes/executor.py:85-107 | Creates the card and records `source_executed`, under the key and its derived key. |
| Executor.NodeExecutor.PublishCandidate | src/ghostmesh/nodes/executor.py:268-304 | Publishes behind the history gate: registers the candidate, and adds an entry unless its version has one. |
| Executor.NodeExecutor.ExecuteSink | src/ghostmesh/nodes/executor.py:162-197 | Refuses shadow cards at closed sinks and cards elsewhere, runs the configured sink, records `sink_executed`; a refused key at the end does not undo a publication. |
| NodeWork.RepeatedJobChangesNothing | src/ghostmesh/nodes/executor.py:109-136 | Repeating a keyed worker job that answered, at any later point, changes nothing; it answers the same artifacts if and only if the last event of its card is still a submission, and else raises. |
| NodeWork.TopologyValidatorIsHonest | src/ghostmesh/nodes/executor.py:199-244 | Left to judge for itself, the topology handler records exactly the Patch Panel validator's verdict on the candidate, under the exit configured for it, with the caller's, default or refusal's reason and the entries of the report. |
| Bootstrap.SystemWorkflowBootstrapper.Bootstrap | src/ghostmesh/defaults/bootstrap.py:38-73 | The loop registers in runtime and registry what is missing there, and an exception ends it where it stands. |
| Bootstrap.SystemWorkflowBootstrapper.AlreadyRuns | src/ghostmesh/defaults/bootstrap.py:43-46 | Finds a registered panel of that id and version if and only if the runtime has one. |
| Bootstrap.ReportsNothingNewIff | src/ghostmesh/defaults/bootstrap.py:38-73 | A second run reports nothing new if and only if no panel id is configured under two versions. |
| BootstrapAgain.SecondLeavesSame | src/ghostmesh/defaults/bootstrap.py:42-49 | Passing twice over the configured panels leaves the runtime the panels that one pass leaves, versions that replace each other included. |
| BootstrapAgain.BootstrappingAgainIff | src/ghostmesh/defaults/bootstrap.py:24-25 | A second bootstrap leaves the whole state as the first left it unless it raises, and it raises if and only if the first configured panel of some id is refused by the validator and the last is of another version. |
| BootstrapAgain.RelapseLosesPanel | src/ghostmesh/defaults/bootstrap.py:42-49 | A concrete configuration and runtime: the second run puts an earlier version of a panel back and raises before it comes to the later one. |
| Publication.OneEntryPerVersion | src/ghostmesh/nodes/executor.py:280-304 | Over all runs of sinks, bootstraps, registry edits and runtime calls there is at most one registry entry per (panel id, version). |
| Publication.SinkEntriesAreBacked | src/ghostmesh/nodes/executor.py:306-325 | Every entry a sink added names, then and ever after, an accepted candidate and a card whose history holds both approvals. |
| Publication.PublishingPublishes | src/ghostmesh/nodes/executor.py:274-304 | A publication that succeeds leaves the candidate registered and its version listed. |
| Shadow.NeverTooManyShadows | src/ghostmesh/runtime/shadow.py:46-54 | If no request allows more than m parallel shadows, no production card ever has more than m active links. |
| Shadow.ShadowIsNewIff | src/ghostmesh/runtime/shadow.py:56-73 | In every reachable runtime the linked card is a new shadow of the production card if and only if the key was not stored; under a stored key it is the card made first. |
| Shadow.ShadowsNeverEgress | src/ghostmesh/nodes/executor.py:172-173 | Over all runs a shadow card carries a `sink_executed` event only of a sink that allows shadow egress. |
| Shadow.MutationsStayInOrder | src/ghostmesh/runtime/shadow.py:128-165 | A promoted mutation was validated no later than it was promoted. |
| Shadow.PromotionNeedsVerdicts | src/ghostmesh/runtime/shadow.py:151-165 | A mutation is promoted if and only if it is validated and its panel accepted; otherwise nothing changes. |
| Shadow.PromotesIffAcceptedLast | src/ghostmesh/runtime/shadow.py:112-165 | Over all runs, a proposed mutation can be promoted if and only if the last deed to settle it since is a verdict that accepts it, and the panel is accepted. |
| Shadow.ShadowService.CreateShadowCard | src/ghostmesh/runtime/shadow.py:34-93 | Sampling, the parallel limit, the shadow card, its link and the production card's event, in this order; a failing event leaves card and link. |
| Shadow.ShadowService.Complete | src/ghostmesh/runtime/shadow.py:95-110 | Completes the link and records it on the production card. |
| Shadow.ShadowService.Judge | src/ghostmesh/runtime/shadow.py:128-149 | Stores the verdict, its time and its note, whatever the status was. |
| Shadow.ShadowService.Promote | src/ghostmesh/runtime/shadow.py:151-165 | Promotes a validated mutation after its panel is registered. |
| Deliveries.KeysCollideIff | src/ghostmesh/boundaries.py:112-116 | Derived keys of one source collide if and only if deduplication key and suffix together read the same. |
| Deliveries.ColonFreeKeysNeverCollide | src/ghostmesh/boundaries.py:112-132 | The derived keys of colon-free deduplication keys never collide. |
| Deliveries.SourcesNeverCollide | src/ghostmesh/boundaries.py:112-116 | Nor do those of different sources whose panel and node ids have no colon. |
| DeliveryRuns.DeliveredExactlyOnce | src/ghostmesh/boundaries.py:74-138 | Deliveries under any number of keys that do not clash, repeated, cut short anywhere and mixed with each other and with other calls: once one under a key has run to its end, every such delivery under it and none under another answers one card, which has exactly one of each of its three events; deliveries alone add one card a key. |
| DeliveryClashes.KeysApartIff | src/ghostmesh/boundaries.py:112-132 | Two deduplication keys of one source share a derived key if and only if they are equal or one is the other followed by `:source` or `:event`. |
| DeliveryClashes.LaterDeliveryCompletesIff | src/ghostmesh/boundaries.py:112-132 | After a delivery under one key, a delivery under another completes if and only if neither is the other with such a suffix; else it is refused, a longer key changing nothing and a shorter one leaving a card without its last events. |
| DeliveryClashes.EarlierIsLeftAlone | src/ghostmesh/boundaries.py:74-138 | Clash or not, and wherever it is cut short, the later delivery leaves the earlier one's card and answers alone. |
| Deliveries.BoundaryAdapterService.ExecuteSource | src/ghostmesh/boundaries.py:74-138 | The boundary's checks and its three runtime calls, in order, under their derived keys. |
| Genesis.CollectsMatches | src/ghostmesh/genesis/service.py:84-100 | A search gives every entry some filter matches, each once, those of earlier filters first. |
| Genesis.ReceivedOnce | src/ghostmesh/genesis/service.py:34-76 | Receiving a deduplication key again changes nothing and answers the first intent; no two intents share a key. |
| Genesis.LaunchKeysCollideIff | src/ghostmesh/genesis/service.py:124 | Launch keys never collide, colons or not. |
| Genesis.ProposeKeysCollideIff | src/ghostmesh/genesis/service.py:165-167 | Proposal keys collide if and only if the intents are the same and the workflow versions read the same. |
| GenesisRuns.RunKeepsOrder | src/ghostmesh/genesis/service.py:26-176 | Every run of receipts, launches, proposals, registry and runtime calls keeps the index of intents by their keys, and loses no intent and no entry. |
| GenesisRuns.ReceivedOnceInRuns | src/ghostmesh/genesis/service.py:34-76 | In every run, receiving a deduplication key again, whatever came between, changes nothing and answers the intent first received, with its candidates. |
| GenesisRuns.LaunchedOnce | src/ghostmesh/genesis/service.py:102-135 | In every run, repeated launches of one intent on one entry, named or taken as the first candidate, create one card, whatever came between. |
| Genesis.GenesisService.SearchCandidates | src/ghostmesh/genesis/service.py:84-100 | The nested loops with their `seen` set give the search of the specification. |
| Genesis.GenesisService.ReceiveIntent | src/ghostmesh/genesis/service.py:34-76 | Answers by deduplication key, or stores the intent with its candidates, asking for a design when there are none. |
| Genesis.GenesisService.Launch | src/ghostmesh/genesis/service.py:102-135 | Creates the card of the selected entry under the launch key and marks the intent. |
| Genesis.GenesisService.Propose | src/ghostmesh/genesis/service.py:137-176 | Creates the proposal card under the proposal key and marks the intent. |

## Left out

- Interleaving of `PostgresCardRuntime` calls: each is one serial transaction; only the lease store is interleaved, and exclusivity of `claim_card` under interleaving is not claimed.
- Several clock readings within one call: both runtimes read the clock more than once in a call; the model passes one reading (the lease store has one per statement).
- The isolation level: the lease store assumes READ COMMITTED with row locks held to the end of the transaction; at SERIALIZABLE or REPEATABLE READ it is not modelled.
- PostgresTheorems.HistoryReplays: stated for the rows in order of insertion; `HistoryRead.HistoryReadReplays` is for the order `card_history` reads them in, at strictly later clock readings.
- Lists and views (`list_cards`, `list_leases`, the buckets table, observability): read-only and never consulted by the operations modelled.
- Error texts and the order of the validator's errors: which errors there are is exact, their order and wording is not.
- The report's list of cycles: only its being empty matters, as acyclicity; networkx is a library.
- Parsing: JSON and YAML loading and pydantic checks; a payload's Patch Panel and registry metadata appear as parsed values, and anything else there is the error of a failed parse. JSON numbers are integers.
- Artifact storage, hashing and content: an artifact reference is the record only.
- Roles of artifacts: `str(metadata.get("role"))` is modelled for text and missing roles.
- The authority provisioning sink and the participant onboarding handler: they write to the authorization repository, which is not part of this model; an executor without one raises, as modelled.
- Boundary details: payload mapping, templates, tokens, and `execute_sink` of the boundary with its rendered key; a delivery starts from the mapped payload and the deduplication key.
- Worker and validator execution of `NodeExecutor`: modelled on values, not as methods of the class; the refusal's text, its list of errors and the list of cycles that the topology handler adds are parameters.
- PanelValidator.ValidateAcceptExits: reports an entry that is no text as unknown, where the membership test of the code raises TypeError on a list or a dictionary; either way the panel is not accepted.
- Executor.NodeExecutor.ExecuteSink: without the authority provisioning sink of an executor that has an authorization repository.
- PostgresPatchPanelRegistry: it stores the same entries as the in-memory registry, in rows.
- Registry fields nothing reads: descriptions, tools, permissions, costs, owners and timestamps of entries.
- MemoryTheorems.CardsSitInDeclaredBuckets: stated for runs that register each panel id once, because a card's own definition is gone once a later version replaces it; with re-registrations `Replacement.AlwaysHousedIff` says exactly when cards stay in declared buckets.
- MemoryTheorems.HistoryReplays: stated for callers that leave the movement events and `destination_bucket` to the runtime, because the code lets them be overwritten.
- PostgresTheorems.CardsSitInDeclaredBuckets: stated for colon-free panel ids, because two definitions can otherwise share one workflow version (`PostgresTheorems.ColonIdMisleads`).
- Lockstep.RunsAgree: stated for one panel without a colon in id or version, with new artifact ids, reserved names, and Postgres taking the card and the sweep order the in-memory runtime takes, because the runtimes differ on several panels, colons and repeated artifact ids.
- FastAPI routes, MCP server, CLI, worker SDK, configuration, logging, migrations and deployment: no state of their own.
