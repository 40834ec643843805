# Verified models of the lineage platform

A Dafny model of the parts of the lineage platform in which a mistake is hardest to see, with proofs of
what those parts promise. `dafny verify dfyconfig.toml` checks everything.

- **Workflow compiler.** `WorkflowCompiler` is the exporter that turns a workflow definition into an Amazon
  States Language machine; `StateLanguage` is an interpreter for such machines (Task, Choice, Map, Succeed and
  Fail states, retriers, catchers, result paths); `Pipeline` runs the stages directly, over an arbitrary world of
  task replies. `CompilerCorrectness` and `CompilerSimulation` prove that the two agree; `CompilerBounds` proves
  the shape of the graph and the time bounds, `CompilerRoutes` when declared error routes survive,
  `ExportedWorkflows` that the workflows of the repository meet the conditions.
- **Collections and publications.** `CollectionLedger` is the transition system of submissions, the worker and
  settlements, `CollectionRunner` the runner that moves through it; `Publication` adds the outbox, the pointers and
  the drain, `PublicationRuns` proves what holds of every run, `LostPublication` follows one run step by step,
  `OutboxDrain` is the drain itself; `DeltaPlan` is the choice of workflow and delta.
- **Ranking.** `LongestPath` is the service graph of the deck and its ranking loop.
- **Deck runtime.** `CssScanner`, `CssImportant`, `CssReading` and `CssIdempotence` treat style text, `CssGrammar`
  says what becomes of it part by part; `ExprResolver` and `ExprRoundTrip` treat the expression evaluator, `DeckKeys`
  the keys of deck children, `JsText` trimming, `Alphabets` the character classes of all of these.
- **Deck rail.** `DeckOps` and `DeckRounds` treat structural edits and their round trip through a host,
  `DeckStage` is the element with its fields.
- **Diagram parser.** `Architecture` parses and validates, `ArchitectureText` prints, `ArchitectureGrammar` says which
  sources and diagrams are accepted, `ArchitectureStable` closes the circle for every accepted diagram.
- **Migrations, bounded reader, manifests.** `Migrations` and `MigrationRunner`, `BoundedReader`, `Contracts` and
  `RuntimeWindow`.

Where the source changes state, the model is a class or a method with loops, proved against a function; what the
source promises is then proved of that function.

Six promises turn out to be false of the code as it stands. Each is stated with a run or an input on which it
fails and with the exact condition under which it holds:

- Declared error routes of single stages are honoured only when all stages declare the same one, because the
  exporter looks at the first stage alone (`ExportedWorkflows.SecondRouteIsLost`,
  `CompilerRoutes.DeclaredRoutesKeptIff`).
- A publication that moved the pointer and lost its record is settled as stale although it was published, once
  another has been published on top of it (`LostPublication.LostRecordBecomesStale`,
  `PublicationRuns.StaleThoughPublishedIff`, `PublicationRuns.StaleMeansUnpublishedIff`).
- Settling a stale publication while the job of its command is still in hand lets two commands of one identity live
  (`CollectionLedger.EarlySettlementSpoils`, `CollectionLedger.SettlementIsSafeIff`). The runs of `Publication`
  therefore accept an approval only once its collection has ended; the code does not check this.
- A submission whose head write lands without an answer leaves a command that is never run and answers every later
  submission of its identity (`CollectionLedger.StrandedIff`, `CollectionLedger.StrandedStays`,
  `CollectionLedger.FailedSubmissionIff`).
- After a lost acknowledgement, a refused rail edit can move the index (`DeckRounds.LostAckJumps`,
  `DeckRounds.LostAckIff`).
- A runtime window with a counter written like 3.0 passes the schema, for which that is an integer (JSON Schema
  Validation 2020-12, section 6.1.1), and is not checked further (`RuntimeWindow.PassingMeansCleanIff`).

Digests are taken to be injective: an identity is its twelve-character digest, a graph version is named by its
outbox row, and a manifest maps paths to content digests.

## Model

| member | source | states |
|---|---|---|
| `WorkflowCompiler.AslDocument` | scripts/export_workflow_definitions.py:276-441 | the exporter succeeds exactly when every stage has an owner with a target, the first stage names an error route, and there are stages and terminals; the document is then the one the machine function describes |
| `WorkflowCompiler.CompileStages` | scripts/export_workflow_definitions.py:280-433 | the loop over the stages, with its running previous stage and target, writes the states of every stage, or fails with the first unresolved target |
| `WorkflowCompiler.WriteStage` | scripts/export_workflow_definitions.py:284-431 | one turn of the loop writes the Map, aggregation and route of B5, or the task and outcome route of any other stage, and overwrites nothing else |
| `WorkflowCompiler.WriteTerminals` | scripts/export_workflow_definitions.py:435-436 | the terminal loop adds exactly one state per terminal |
| `WorkflowCompiler.HeartbeatIs` | scripts/export_workflow_definitions.py:197-197 | the heartbeat is a third of the time-out, kept between half a minute and five minutes |
| `CompilerCorrectness.StateOf` | scripts/export_workflow_definitions.py:276-441 | when generated names, stage ids and terminals do not clash, every written state is the one found under its name |
| `CompilerCorrectness.StateComesFrom` | scripts/export_workflow_definitions.py:276-441 | every state of the machine was written for a stage, the router or a terminal |
| `CompilerCorrectness.FillLambda` | scripts/export_workflow_definitions.py:139-177 | filling the Lambda template from an execution document yields the payload of the direct pipeline, and fails exactly when the input path leads nowhere |
| `CompilerCorrectness.FillEcs` | scripts/export_workflow_definitions.py:180-262 | the same for the container template, with the key of the item inside the Map and of the stage outside it |
| `CompilerCorrectness.FillAggregate` | scripts/export_workflow_definitions.py:363-407 | the same for the aggregation template, which joins the inventory of B4 and the results of the Map |
| `CompilerCorrectness.AttemptIsTry` | scripts/export_workflow_definitions.py:102-118 | the interpreter's retries of a task are the direct pipeline's repeated calls, with the same waits |
| `CompilerSimulation.OneStage` | scripts/export_workflow_definitions.py:284-431 | from a stage's first state, the machine does what the direct pipeline does with that stage and goes where it goes |
| `CompilerSimulation.MapRuns` | scripts/export_workflow_definitions.py:284-360 | the distributed Map reads the inventory, runs one worker per work unit in order and fails as the direct fan-out does |
| `CompilerSimulation.RouterChoice` | scripts/export_workflow_definitions.py:84-99 | the terminal router picks the terminal named by the last result, else the default, and fails when the result names none |
| `CompilerSimulation.CompilationPreservesMeaning` | scripts/export_workflow_definitions.py:276-441 | for every well-formed workflow, every world and every command, the exported machine calls the same tasks in the same order with the same payloads and waits as the direct pipeline, and ends in the same terminal |
| `CompilerBounds.ExportedGraphIsClosedAndAcyclic` | scripts/export_workflow_definitions.py:276-441 | every Next, Default, Choice and Catch target is a state, and every edge goes to a higher level; so it is inside the item processor of the Map |
| `CompilerBounds.TryIsBounded` | scripts/export_workflow_definitions.py:102-118 | with m retries a task is called at most m+1 times and waits at most 2(2^m - 1) seconds; the bound is stated for any remaining number of retries |
| `CompilerBounds.TryReachesBound` | scripts/export_workflow_definitions.py:102-118 | both bounds are reached when the task keeps failing with a transient error |
| `CompilerBounds.StageAttempts` | scripts/export_workflow_definitions.py:102-118 | a plain stage is called at most m+1 times and waits at most 2(2^m - 1) seconds, and reaches both when every call times out; the fan-out over at most n work units takes n times that, and 4 calls and 14 seconds for its aggregation |
| `CompilerBounds.ExportedMachineTime` | scripts/export_workflow_definitions.py:276-441 | for every well-formed workflow, granted time-outs and waits of any execution whose listings have at most n items stay within the sum of the stage budgets |
| `CompilerRoutes.DeclaredRoutesKeptIff` | scripts/export_workflow_definitions.py:121-123 | the exported machine honours every stage's declared error route in every world if and only if all stages declare the same one |
| `ExportedWorkflows.LinearIsWellFormed` | apps/api/src/lineage_api/application/workflows/definitions.py:140-197 | every workflow the linear builder makes, with an ordinary prefix and targets for its stages, meets the conditions of the compilation theorem |
| `ExportedWorkflows.BaselineCompiles` | apps/api/src/lineage_api/application/workflows/definitions.py:200-240 | the baseline workflow with its owners is exported, every stage calling the task written out by name, and is well formed |
| `ExportedWorkflows.IncrementalCompiles` | apps/api/src/lineage_api/application/workflows/definitions.py:243-283 | the incremental workflow with its owners is exported, every stage calling the task written out by name, and is well formed |
| `ExportedWorkflows.PrGateCompiles` | apps/api/src/lineage_api/application/workflows/definitions.py:286-314 | the pull-request gate with its owners is exported, every stage calling the task written out by name, and is well formed |
| `ExportedWorkflows.NightlyCompiles` | apps/api/src/lineage_api/application/workflows/definitions.py:350-380 | the nightly workflow with its owners is exported, every stage calling the task written out by name, and is well formed |
| `ExportedWorkflows.DeploymentDoesNotCompile` | apps/api/src/lineage_api/application/workflows/definitions.py:317-347 | the deployment workflow, owned as it is, is refused by the exporter: its owner has no target |
| `ExportedWorkflows.TerminalSucceedsIff` | scripts/export_workflow_definitions.py:70-81 | a terminal is a success exactly when it is the first or one of seven names; any other fails under its own name |
| `ExportedWorkflows.TerminalsByName` | apps/api/src/lineage_api/application/workflows/definitions.py:229-380 | the terminals of the five workflows, by name |
| `ExportedWorkflows.LinearRetries` | apps/api/src/lineage_api/application/workflows/definitions.py:159-187 | a stage without side effects is called once, any other up to four times |
| `ExportedWorkflows.RetriedIff` | scripts/export_workflow_definitions.py:102-118 | a failing task is called again exactly after five errors, the aggregation after four of them, by name |
| `ExportedWorkflows.CaughtIff` | scripts/export_workflow_definitions.py:168-173 | the catch-all leads every error to the error terminal but the two that the language lets nobody catch |
| `ExportedWorkflows.RoutesByName` | scripts/export_workflow_definitions.py:265-273 | where the outcome of a stage is looked up, what it is compared with, and where each case leads |
| `ExportedWorkflows.SecondRouteIsLost` | scripts/export_workflow_definitions.py:121-123 | a concrete workflow of two stages: as declared it ends in BLOCK when the second stage fails, as exported it ends in WARN |
| `LongestPath.Producers` | scripts/floci/generate_throughline_model.py:506-507 | the producer of a dataset is its last writer |
| `LongestPath.ProducedIffWritten` | scripts/floci/generate_throughline_model.py:506-507 | a dataset has a producer exactly when some service writes it |
| `LongestPath.ProducerIsLastWriter` | scripts/floci/generate_throughline_model.py:507-507 | no service behind the producer writes the dataset |
| `LongestPath.FlowEdges` | scripts/floci/generate_throughline_model.py:508-509 | the edge list in reading order, one per read of a dataset another service produces |
| `LongestPath.EdgesAreReads` | scripts/floci/generate_throughline_model.py:507-509 | an edge is listed exactly when a service reads a dataset whose last listed writer is another service; the channel is a stream exactly for kafka |
| `LongestPath.ReadersRankHigher` | scripts/floci/generate_throughline_model.py:507-516 | in an acyclic catalogue whoever reads another service's dataset ranks above it |
| `LongestPath.Degrees` | scripts/floci/generate_throughline_model.py:511-513 | adjacency lists hold the targets of every edge with multiplicity, in-degrees count the edges into a service |
| `LongestPath.Visit` | scripts/floci/generate_throughline_model.py:516-516 | one turn of the queue loop keeps the counts of unfinished predecessors and the longest paths among finished services |
| `LongestPath.Rank` | scripts/floci/generate_throughline_model.py:514-516 | on any multigraph no service is dequeued twice; dequeued services get the length of the longest path into them; all are dequeued if and only if the graph is acyclic; the others are reached by paths of every length |
| `LongestPath.EdgesRaiseRank` | scripts/floci/generate_throughline_model.py:514-516 | with longest-path ranks every edge leads to a strictly higher rank |
| `LongestPath.Model` | scripts/floci/generate_throughline_model.py:501-518 | producers, edges and ranks of the emitted model fit together; when the flow graph is acyclic ranks are longest paths, and every reader ranks above the last writer of what it reads |
| `CollectionLedger.EveryRunIsSafe` | scripts/floci/collection_runner.py:358-405 | over every interleaving of submissions, worker steps and settlements of ended commands, with any write refused or stored unseen: one live command per identity, which is the one the head names or a document left behind by a failed submission; attempts numbered from one without gaps; no job queued twice; stages a prefix of the workflow's order; completion only with all stages |
| `CollectionLedger.AnsweredRunIsWhole` | scripts/floci/collection_runner.py:358-405 | when no submission is cut short, every document was named by a head and its job is in exactly one place, for good |
| `CollectionLedger.FailedSubmissionIff` | scripts/floci/collection_runner.py:375-380 | a submission that failed and is sent again leaves the ledger of one that went through at once, if and only if its head write did not land |
| `CollectionLedger.StrandedIff` | scripts/floci/collection_runner.py:375-380 | a submission strands its command exactly when the head write lands and is not answered |
| `CollectionLedger.StrandedStays` | scripts/floci/collection_runner.py:359-366 | a stranded command stays queued without a job and answers every later submission of its identity, in every run |
| `CollectionLedger.RunAdvances` | scripts/floci/collection_runner.py:591-707 | over every run a document only gains stages, an ended command stays ended, a failed one failed |
| `CollectionLedger.SubmittingTwiceIsOnce` | scripts/floci/collection_runner.py:358-366 | after a submission that went through, another of the same identity changes nothing, whatever the store does, and is answered by the live command |
| `CollectionLedger.FreshAttemptIff` | scripts/floci/collection_runner.py:358-374 | a new attempt, one above the newest the head names, is made exactly when the identity is new or its newest command has failed; its number is free or names a document left behind, and all earlier attempts have failed |
| `CollectionLedger.CommandIdsAreDistinct` | scripts/floci/collection_runner.py:356-374 | different attempts or identities have different command identifiers |
| `CollectionLedger.SettlementIsSafeIff` | scripts/floci/collection_runner.py:155-200 | settling a command that a head has named is safe in every continuation if and only if its document has ended or nobody has its job in hand: not waiting to be queued, not in the queue, not with the worker outside its handler |
| `CollectionLedger.EarlySettlementSpoils` | scripts/floci/collection_runner.py:155-200 | a concrete run: a first attempt is running, is settled, a second is submitted, and the worker's next note leaves both alive |
| `CollectionLedger.SettledIsResubmittable` | scripts/floci/collection_runner.py:155-200 | a settled command carries the stale reason and its identity's next submission makes the next attempt |
| `CollectionLedger.RecordedFollows` | scripts/floci/collection_runner.py:780-825 | recording the next stage keeps the stages a prefix and completes the collection exactly with the last |
| `CollectionLedger.StagesByName` | scripts/floci/collection_runner.py:731-890 | the eleven stages of a baseline and of an incremental collection, by name and in order; none when nothing changed |
| `CollectionRunner.CollectionRunner.SubmitCollection` | scripts/floci/collection_runner.py:358-380 | the part of a submission under the lock, with either write failing, is one registering step; it is accepted exactly when a live command answers it or both writes go through, and then returns the document the head names |
| `CollectionRunner.CollectionRunner.Update` | scripts/floci/collection_runner.py:597-600 | one write of the cached document, with every outcome of the store |
| `CollectionRunner.CollectionRunner.Drive` | scripts/floci/collection_runner.py:709-918 | driving a workflow, with the timing of every step written even when it raises, is a run of worker steps; it ends with every stage recorded in order exactly when every stage goes well, and asks the store for the writes of the stages up to the first trouble |
| `CollectionRunner.CollectionRunner.Attempt` | scripts/floci/collection_runner.py:603-687 | everything inside the handler: begin, session, acquire, register, plan, interactions, stages, repository head; it ends in the finished document exactly when nothing goes wrong on the way |
| `CollectionRunner.FinishedByName` | scripts/floci/collection_runner.py:636-825 | the document of a job that went well: its stages by name, its outcome and reason |
| `CollectionRunner.CollectionRunner.RunCollection` | scripts/floci/collection_runner.py:591-707 | one whole job is a run of worker steps, leaves the worker idle and every other document alone; its document ends completed with all its stages, by name, if all goes well, and failed if not and the failure can be written; the store is asked for the writes of the course it takes, in their order, the report of a failure last |
| `DeltaPlan.DeltaIsExact` | scripts/floci/collection_runner.py:1139-1149 | taking the changed paths and dropping the removed ones leads from the previous manifest exactly to the current one; the two sets are disjoint |
| `DeltaPlan.DeltaIsMinimal` | scripts/floci/collection_runner.py:1144-1149 | every delta that leads there contains the planned one |
| `DeltaPlan.ClosureIff` | scripts/floci/collection_runner.py:1150-1155 | with the selection drawn from the current inventory, the closure is the whole selection exactly when a selected path is new or differs, and empty otherwise |
| `DeltaPlan.NothingRecorded` | scripts/floci/collection_runner.py:1124-1134 | without a package the baseline runs; without a recorded head the delta brings every selected path up to date, whatever was there, and touches no other |
| `DeltaPlan.EveryPlanLeadsToCurrent` | scripts/floci/collection_runner.py:1136-1155 | every plan against a recorded head leads from what the head holds to what was submitted; work is skipped altogether exactly for the recorded archive itself, and a repacked one with the same contents is an empty delta |
| `Publication.NotActiveBefore` | apps/api/src/lineage_api/application/stage_handlers.py:1605-1632 | a version whose base is the active one was never active before |
| `Publication.ActivationKeeps` | apps/api/src/lineage_api/infrastructure/aws/dynamodb_control.py:895-1020 | the conditional write against a pointer read earlier, whatever happened in between, goes through exactly when the pointer still stands there or this very publication moved it; the chain of versions then stays a chain and the fence has risen by one |
| `Publication.FencedRace` | apps/api/src/lineage_api/infrastructure/aws/dynamodb_control.py:937-940 | of two executors that read the same pointer at most one moves it, and repeating a move changes nothing |
| `Publication.ExecutionKeeps` | apps/api/src/lineage_api/infrastructure/aws/composition.py:108-217 | executing a pending row, with a failure at any call and its write stored or not, keeps every chain and leaves settled rows alone |
| `Publication.DrainMoves` | scripts/floci/floci_product_api.py:229-265 | a whole drain, in any order and with any failures, keeps the outbox and the ledger sound and only moves them forward |
| `Publication.CourseMoves` | scripts/floci/floci_product_api.py:229-265 | so does every run of collections, approvals and drains |
| `PublicationRuns.EveryCourseIsChained` | scripts/floci/floci_product_api.py:229-265 | over every run the versions ever active form a chain in which each proposal is pinned to the one just before it, without repetition; the fence counts them; one command per identity lives |
| `PublicationRuns.EveryCourseMovesForward` | scripts/floci/floci_product_api.py:229-265 | between any two moments of a run rows leave PENDING at most once, a settled row never moves a pointer, and a fence rises with every move |
| `PublicationRuns.OnePublicationPerBase` | apps/api/src/lineage_api/application/stage_handlers.py:1605-1632 | of the proposals pinned to one base at most one is ever published |
| `PublicationRuns.StaleMeansUnpublishedIff` | scripts/floci/floci_product_api.py:243-259 | for any set of ways in which calls may fail: in every run a proposal settled as stale was never published, if and only if none of them moves the pointer and loses the record |
| `PublicationRuns.StaleThoughPublishedIff` | apps/api/src/lineage_api/application/stage_handlers.py:1600-1632 | what can be seen beforehand: a visit leaves a pending row stale although published exactly when it is unrecorded, its version was active and is not any more, and the visit gets as far as the refusal |
| `PublicationRuns.AnswersAre` | apps/api/src/lineage_api/infrastructure/aws/composition.py:146-216 | the executor answers published, skipped or refused when no call fails on its way, and otherwise raises if the call raises and asks to be redriven if not |
| `PublicationRuns.LostFenceIsRedriven` | apps/api/src/lineage_api/infrastructure/aws/dynamodb_control.py:1000-1012 | a pointer that another publication moved meanwhile is left alone, and the publication asks to be redriven |
| `LostPublication.LostRecordBecomesStale` | scripts/floci/floci_product_api.py:243-259 | a concrete run, for every fault that loses the record: one proposal is published, the next is collected and published on top of it, and the first is then settled as stale |
| `LostPublication.CollectionCompletes` | scripts/floci/collection_runner.py:591-687 | an idle worker can carry the submission of any open identity to a completed document |
| `PublicationRuns.RefusalReopensIff` | scripts/floci/collection_runner.py:155-200 | a refused publication reopens its collection if and only if the write of the row is answered and that of the collection lands; the row is settled as soon as its write lands |
| `PublicationRuns.FaultlessRowSettles` | scripts/floci/floci_product_api.py:229-265 | when nothing fails, visiting a pending row delivers and publishes it if it is recorded or its base or its own version is active, and otherwise settles it as stale, fails its collection and leaves the pointers alone |
| `PublicationRuns.FaultlessDrainEmpties` | scripts/floci/floci_product_api.py:229-265 | a drain in which nothing fails leaves no visited row pending |
| `OutboxDrain.LedgerTable.ExecutePublication` | apps/api/src/lineage_api/infrastructure/aws/composition.py:108-217 | the executor on one row: no command, claim, replay, refusal or conditional activation, record, acknowledgement, with a failure at any of them |
| `OutboxDrain.LedgerTable.MarkPublicationStale` | scripts/floci/collection_runner.py:155-200 | the row fails first, then the collection document, if there is one |
| `OutboxDrain.LedgerTable.DrainPublicationOutbox` | scripts/floci/floci_product_api.py:229-265 | the loop over the scanned rows is the drain of the transition system, entries and exception included |
| `CssScanner.ScanUnquotedUrl` | docs/architecture-deck/support.js:1499-1511 | the scanner returns the end of the unquoted url token at a position, or -1 when none starts there |
| `CssScanner.StripComments` | docs/architecture-deck/support.js:1512-1541 | the loop over quotes, comments and urls computes the stripped text |
| `CssScanner.StrippedIsCommentFree` | docs/architecture-deck/support.js:1512-1541 | no comment starts in a stripped text, unterminated quotes, comments and urls included |
| `CssScanner.StripIsIdempotent` | docs/architecture-deck/support.js:1512-1541 | stripping twice is stripping once, on every string |
| `CssGrammar.StripsParts` | docs/architecture-deck/support.js:1512-1541 | of a text given by its parts (characters, strings, comments, urls), stripping keeps everything but the comments and leaves a space for each |
| `CssGrammar.CommentBecomesSpace` | docs/architecture-deck/support.js:1527-1530 | a comment ends at its first closing mark, and what follows is stripped as if it came behind a slash |
| `CssGrammar.EveryTextHasParts` | docs/architecture-deck/support.js:1498-1541 | every string is the source of some parts, with comments or without |
| `CssGrammar.SplitsParts` | docs/architecture-deck/support.js:1543-1565 | of a text given by its parts, the declarations end at exactly the semicolons that stand for themselves outside parentheses |
| `Alphabets.MarkedIff` | docs/architecture-deck/support.js:1566-1566 | a declaration counts as marked exactly when it ends in an exclamation mark, white space and the word, in capitals or not |
| `Alphabets.SpacesByCode` | docs/architecture-deck/support.js:1504-1504 | the white space of the scanners, code by code |
| `CssImportant.SplitDeclarations` | docs/architecture-deck/support.js:1543-1565 | the loop cuts at exactly the semicolons outside quotes, parentheses and urls |
| `CssImportant.Importantify` | docs/architecture-deck/support.js:1542-1567 | strip, split, trim, drop empty pieces, mark and join |
| `CssReading.Append` | docs/architecture-deck/support.js:1543-1565 | a text that is read to its end, followed by a space or semicolon, is scanned as before and then goes on behind it |
| `CssReading.PieceEnds` | docs/architecture-deck/support.js:1543-1565 | the piece before a separator, scanned alone, ends outside quotes and parentheses |
| `CssIdempotence.SplitsOnlyAtSeparators` | docs/architecture-deck/support.js:1543-1565 | the pieces joined by semicolons give the text back, each but the last ends outside quotes, parentheses and urls, and none holds a separator of its own |
| `CssIdempotence.MarkedOnlyWhereAbsent` | docs/architecture-deck/support.js:1566-1566 | every declaration put out ends in an important marker, appended only where the text had none |
| `CssIdempotence.ImportantIsIdempotent` | docs/architecture-deck/support.js:1542-1567 | marking twice is marking once, on every string |
| `ExprResolver.ParensWrapWhole` | docs/architecture-deck/support.js:234-244 | the loop decides whether the first parenthesis stays open up to the last character |
| `ExprResolver.FindTopLevelEquality` | docs/architecture-deck/support.js:245-259 | the loop finds the first equality outside brackets that has an operand on its left and does not continue another operator |
| `ExprResolver.CloseBracket` | docs/architecture-deck/support.js:275-284 | the inner loop finds the bracket that closes an index |
| `ExprResolver.EvaluatePath` | docs/architecture-deck/support.js:260-294 | the path loop walks names and bracketed expressions, undefined at the first step that is neither |
| `ExprResolver.Evaluate` | docs/architecture-deck/support.js:205-233 | the evaluator terminates on every string, each recursive call on a shorter one, and computes the specified value |
| `Alphabets.NumbersAre` | docs/architecture-deck/support.js:204-204 | a number literal is an optional minus sign, digits, and optionally a point and digits |
| `Alphabets.IdentifiersByCode` | docs/architecture-deck/support.js:203-203 | what may start an identifier and what may follow, code by code |
| `ExprRoundTrip.TextPasses` | docs/architecture-deck/support.js:234-284 | scanning over the text of any canonical tree, for an equality, over parentheses or over brackets, finds nothing of its own level and goes on behind it at the same depth |
| `ExprRoundTrip.ResolveDenotes` | docs/architecture-deck/support.js:205-294 | for every canonical tree and every host, evaluating its text yields the value the tree denotes; what each of the four operators and a property of undefined or null denote is written out |
| `DeckKeys.NextSlideIds` | docs/architecture-deck/support.js:500-510 | the backward loop finds, for each child, the id of the slide that is the next element |
| `DeckKeys.WalkDeckChildren` | docs/architecture-deck/support.js:493-542 | keys are handed out exactly when every text is blank, no control flow is present and every slide has a valid id of its own |
| `DeckKeys.SlideIdIff` | docs/architecture-deck/support.js:486-486 | a slide id is eight lower-case hexadecimal digits |
| `DeckKeys.KeysAreDistinct` | docs/architecture-deck/support.js:511-541 | whenever keys are handed out, no two children share one, repeated white space included |
| `DeckKeys.ReorderingPermutesKeys` | docs/architecture-deck/support.js:533-539 | slides keep their keys when they are reordered, whatever stands between them |
| `DeckOps.LocalIsHost` | docs/architecture-deck/deck-stage.js:2734-2951 | for every edit, the deck's own edit by element and the host's edit by position leave the same slides |
| `DeckOps.EveryPlanLands` | docs/architecture-deck/deck-stage.js:2734-2951 | a surviving current slide stays current after a delete or move, a deleted one yields to the nearest survivor behind it and otherwise before it, a duplicate becomes current; the index is in range |
| `DeckOps.EveryPlanEdits` | docs/architecture-deck/deck-stage.js:2734-2951 | the planned edit removes exactly the valid positions asked for, puts the copy right behind its original, or moves one slide and keeps the order of the others |
| `DeckOps.PlanIsNoneIff` | docs/architecture-deck/deck-stage.js:2734-2742 | a gesture does nothing exactly when it addresses no slide, would empty the deck, or moves nowhere |
| `DeckOps.SingleAgreesWithBulk` | docs/architecture-deck/deck-stage.js:2785-2790 | the single delete's index is the one the bulk rule gives |
| `DeckOps.SurvivorTakesOver` | docs/architecture-deck/deck-stage.js:2755-2772 | the two searches find the nearest survivor |
| `DeckRounds.HostedIsLocal` | docs/architecture-deck/deck-stage.js:2691-2726 | emitting an edit, rendering and acknowledging in either order ends in the very deck the deck's own edit ends in |
| `DeckRounds.RefusalRestores` | docs/architecture-deck/deck-stage.js:1673-1680 | a refused edit leaves the deck exactly as it was |
| `DeckRounds.LostAckIff` | docs/architecture-deck/deck-stage.js:1673-1680 | after an edit whose acknowledgement is lost, a refused second edit leaves the index where it was exactly if it would have moved it or the first had not; otherwise the deck returns to the index from before the first |
| `DeckRounds.LostAckJumps` | docs/architecture-deck/deck-stage.js:1673-1680 | a concrete case: on the third of four slides the first is deleted, the acknowledgement is lost, deleting the last is refused, and the deck jumps from its second slide to its third |
| `DeckRounds.EveryRunAgrees` | docs/architecture-deck/deck-stage.js:2691-2726 | over every sequence of gestures with refusals, streaming and either order of acknowledgement, the hosted deck stays settled and ends where the effective gestures alone lead |
| `DeckRounds.SelectionDeletesSelected` | docs/architecture-deck/deck-stage.js:2604-2611 | deleting the selection removes the selected slides and no others |
| `DeckStage.DeckStage.OnSlotChange` | docs/architecture-deck/deck-stage.js:1394-1403 | a slot change is swallowed after a local edit, otherwise the view is collected, the index restored and applied |
| `DeckStage.DeckStage.DeleteSlides` | docs/architecture-deck/deck-stage.js:2734-2783 | bulk delete over any list of positions, duplicates and strays included, does what the plan says |
| `DeckStage.DeckStage.IndexAfter` | docs/architecture-deck/deck-stage.js:2755-2772 | the searches and counts of the bulk delete compute the index of the surviving slide |
| `DeckStage.DeckStage.DeleteSlide` | docs/architecture-deck/deck-stage.js:2785-2798 | the single delete does what its plan says |
| `DeckStage.DeckStage.DuplicateSlide` | docs/architecture-deck/deck-stage.js:2800-2822 | the copy goes in behind its original and becomes current |
| `DeckStage.DeckStage.MoveSlide` | docs/architecture-deck/deck-stage.js:2936-2951 | the move does what its plan says; a position that names no slide still goes out to a host, and alone makes the deck throw with its index already moved |
| `DeckStage.DeckStage.Advance` | docs/architecture-deck/deck-stage.js:1838-1846 | stepping lands on the nearest slide in that direction that is not skipped, or stays |
| `DeckStage.LandingIsNearest` | docs/architecture-deck/deck-stage.js:1838-1846 | everything between is skipped |
| `Migrations.CrashesDoNoHarm` | apps/api/src/lineage_api/migrations.py:413-446 | any number of calls dying at any statement, then one that completes with the largest target, leave the schema and versions of one uninterrupted call; at every crash exactly the versions 1 to some n are recorded |
| `Migrations.TwoStepsAreOne` | apps/api/src/lineage_api/migrations.py:413-446 | migrating to one target and then to a larger one is migrating straight to the larger |
| `Migrations.CompletedIs` | apps/api/src/lineage_api/migrations.py:439-446 | a completed call records exactly the versions 1 to its target and inserts no version twice |
| `Migrations.InterruptedStands` | apps/api/src/lineage_api/migrations.py:439-446 | wherever a call dies, the store holds a whole version and a prefix of the next script |
| `Migrations.RerunIsRun` | apps/api/src/lineage_api/migrations.py:15-388 | running a script again after any prefix of it is running it once |
| `MigrationRunner.Connection.ExecuteScript` | apps/api/src/lineage_api/migrations.py:441-441 | a script commits what is open and then runs its statements one by one |
| `MigrationRunner.Connection.CurrentSchemaVersion` | apps/api/src/lineage_api/migrations.py:403-410 | the highest recorded version, 0 without the table |
| `MigrationRunner.Connection.ApplyMigrations` | apps/api/src/lineage_api/migrations.py:413-446 | out-of-range and older targets are refused; otherwise the actions, one by one, are those of the program up to the caller's commit |
| `MigrationRunner.Connection.Initialize` | apps/api/src/lineage_api/db.py:194-197 | applying and committing is the completed call |
| `BoundedReader.RunBoundedChild` | scripts/real_repository_acceptance_supervisor.py:129-199 | a normal return carries the complete contents of both streams within their limits; over-limit streams are rejected, and only those; of each stream at most one byte beyond its limit is ever held, and reads are bounded by the limits; when both streams stay readable, the outcome depends on their lengths alone; every error after the start kills the process group |
| `BoundedReader.ReadOnce` | scripts/real_repository_acceptance_supervisor.py:168-178 | one read takes at most one byte beyond the limit, closes the stream exactly at its end and reports an overflow exactly when the stream is longer |
| `BoundedReader.Serve` | scripts/real_repository_acceptance_supervisor.py:168-178 | serving the readable streams of one turn keeps both buffers prefixes of their streams and spends the read budget |
| `Contracts.ValidateCoverage` | apps/api/src/lineage_api/contracts.py:94-128 | the loop over the six scopes reports exactly the specified errors, and none for malformed scopes |
| `Contracts.AcceptedCoverageIsExact` | apps/api/src/lineage_api/contracts.py:94-128 | a manifest past planning for which nothing is reported, with distinct expected paths, is an exact partition into six duplicate-free, disjoint scopes; COMPLETE means completed, reused and skipped are everything |
| `Contracts.CoveragePassesIff` | apps/api/src/lineage_api/contracts.py:94-128 | with distinct expected paths nothing is reported exactly when the scopes partition them and a COMPLETE manifest has nothing unsupported, quarantined or failed |
| `Contracts.ReportedIff` | apps/api/src/lineage_api/contracts.py:94-128 | in any state, which of the two errors is reported exactly when; a manifest still being planned need not account for anything |
| `RuntimeWindow.ValidateRuntimeWindow` | apps/api/src/lineage_api/contracts.py:131-257 | the loops over emitters and counters report the specified errors in order |
| `RuntimeWindow.CompleteWindowIsCleanPerEmitter` | apps/api/src/lineage_api/contracts.py:131-257 | in a COMPLETE window that passes the schema and the checks, its counters written without a decimal point, every single emitter lost nothing, drained all it accepted and balances |
| `RuntimeWindow.PassesIff` | apps/api/src/lineage_api/contracts.py:131-257 | which windows pass, whatever their outcome: every emitter and the aggregate account for their attempts, the emitters add up, the reasons are the keys of their counts and classify every loss and every cut-off, and only a COMPLETE window may do without one |
| `RuntimeWindow.OutcomeErrorsByName` | apps/api/src/lineage_api/contracts.py:221-256 | what is reported of an outcome without reasons, of a loss in a COMPLETE window, and of emitters that do not add up |
| `RuntimeWindow.BalanceErrorsByName` | apps/api/src/lineage_api/contracts.py:152-166 | what is reported of an aggregate that does not account for its attempts |
| `RuntimeWindow.BalanceAddsUp` | apps/api/src/lineage_api/contracts.py:152-203 | the aggregate balance follows from the emitters' balances and the sum check |
| `RuntimeWindow.PassingMeansCleanIff` | apps/api/src/lineage_api/contracts.py:60-78 | passing guarantees clean emitters if and only if no counter may be written like 3.0: the schema takes such a number for an integer, and one of them in the aggregate switches the checks off |
| `Architecture.ParseArchitecture` | scripts/render_target_architecture.py:100-185 | parsing succeeds exactly with the gathered diagram when it is valid, and otherwise reports its first fault |
| `Architecture.Validate` | scripts/render_target_architecture.py:188-228 | a diagram is accepted exactly when nodes are unique, described and of declared status, every status is used, edges join different declared nodes once each, and no node is isolated; otherwise the first fault in that order is reported |
| `ArchitectureGrammar.AcceptedIff` | scripts/render_target_architecture.py:188-228 | the same said of the nodes standing in the layers, the declared statuses and the edges, member by member |
| `Architecture.ParallelEdgeIff` | scripts/render_target_architecture.py:212-222 | a second arrow between two nodes is welcome exactly when its caption is new for that direction |
| `ArchitectureGrammar.GathersIff` | scripts/render_target_architecture.py:100-185 | a source gathers to a diagram exactly when it is a header and whole blocks, each with what it needs |
| `ArchitectureGrammar.RefusedLines` | scripts/render_target_architecture.py:116-178 | which single statements are refused, inside a layer and outside, and why |
| `ArchitectureGrammar.BareLabelIsRefused` | scripts/render_target_architecture.py:93-97 | a label without a separator is all title, and no diagram with its node is accepted |
| `ArchitectureText.StatusParses` | scripts/render_target_architecture.py:85-90 | the printed style of a status class gives its three values back |
| `ArchitectureText.NodeParses` | scripts/render_target_architecture.py:93-97 | the printed label of a node gives its title and detail back |
| `ArchitectureText.PrintedDiagramParses` | scripts/render_target_architecture.py:100-185 | gathering the printed statements of a printable diagram gives the diagram back |
| `ArchitectureText.InterleavingsAgree` | scripts/render_target_architecture.py:116-178 | any interleaving of class definitions, edges and whole layer blocks that keeps the order within each kind gathers to the same diagram |
| `ArchitectureStable.AcceptedDiagramIsStable` | scripts/render_target_architecture.py:100-185 | every accepted diagram is printable, and printing and parsing it again changes nothing |

## Left out

- AWS clients, S3, SQS, Kinesis and git processes: ledgers are maps, artifacts references, digests injective.
- Cluster, subnets, container names and other constants of the exported task payloads: they take part in no branch.
- Success routes of a stage: the exporter never reads them and always goes to the next stage.
- The name of the retry setting: a stage with m attempts configured is retried m times, hence called m+1 times; the model follows the code.
- Concurrency inside the distributed Map: its items run one after another, in inventory order.
- Numbers, intrinsic functions other than string formatting, and Parallel and Wait states of the state language: the exporter does not use them.
- Paths are sequences of member names; `$.a.b` is not parsed.
- The deployment job of the collection runner, and documents of deployments.
- A process that dies between registering a command and queueing its job: the code keeps the queue in memory and promises no recovery.
- Contents of timings, counts and coverage notes: writing one stores the cached document again. The limit of forty timings is never reached by the steps of one job.
- Contents of the stages, of proposals and of coverage documents: a stage succeeds or fails.
- Overlapping drains: the handler that drains runs one at a time; of two executors only the race for the pointer is modelled.
- Leases on the publication stage: a claim that is refused while an earlier one lasts is one of the failing calls.
- The inside of the publication executor beyond claim, pointer, record and acknowledgement; the graph store's own failures count as a failing call.
- Publication.CourseMoves: approvals wait for the collection to end, because the code's settlement is unsafe before that (see CollectionLedger.SettlementIsSafeIff).
- Sorting of changed and removed paths: the delta is a pair of sets.
- UTF-16 surrogates: strings are sequences of characters; case folding is that of the letters the scanners look for.
- The stylesheet cache and the DOM side of the deck runtime.
- Property access, number literals and the two equalities of the host language are parameters of the evaluator.
- ExprRoundTrip.ResolveDenotes: string literals hold no bracket, equals sign or exclamation mark, because the scanners look inside quotes.
- Rail thumbnails, focus, menus, notes and the id map of duplicated components; the selection anchor.
- Non-slide children between slides: positions count slides, and sibling order is that of the slides.
- Navigation while an edit is in flight.
- Regular expressions of the diagram parser: a line is given by the statement it matches.
- SQL text: a statement is a name and a definition, created unless it exists; write-ahead logging is taken as correct.
- Wall-clock time and signals of the bounded reader: a time-out is one of the turns the surroundings choose.
- JSON-schema validation beyond the members that the runtime-window checks look at, and the repository-checkout contract.
