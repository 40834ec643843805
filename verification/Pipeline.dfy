/**
  * What a workflow definition means, said without state machines: the stages run one after the
  * other, each on the artifact its predecessor produced.
  */
module Pipeline {
  import opened Common
  import opened StateLanguage
  import opened WorkflowCompiler

  /** The envelope every stage is called with. */
  ghost predicate IsEnvelope(cmd: Doc)
  {
    && "schemaVersion" in cmd
    && "commandId" in cmd
    && "correlationId" in cmd
    && "causationId" in cmd
    && "determinantDigest" in cmd
    && "idempotencyKey" in cmd && cmd["idempotencyKey"].JStr?
    && "input" in cmd
  }

  /** What an execution starts from: an envelope and the concurrency of the fan-out. */
  ghost predicate IsCommand(cmd: Doc)
  {
    IsEnvelope(cmd) && "baselineMapConcurrency" in cmd
  }

  ghost function KeyWith(cmd: Doc, suffix: string): Json
    requires IsEnvelope(cmd)
  {
    JStr(cmd["idempotencyKey"].text + suffix)
  }

  /** The event a Lambda stage receives. */
  ghost function LambdaPayload(w: Workflow, stage: Stage, cmd: Doc, input: Json): Fields<Json>
    requires IsEnvelope(cmd)
  {
    [("schemaVersion", cmd["schemaVersion"]),
     ("commandId", cmd["commandId"]),
     ("correlationId", cmd["correlationId"]),
     ("causationId", cmd["causationId"]),
     ("idempotencyKey", KeyWith(cmd, ":" + stage.stageId)),
     ("workflowKind", JStr(w.kind)),
     ("workflowVersion", JStr(w.version)),
     ("stageId", JStr(stage.stageId)),
     ("stageName", JStr(stage.name)),
     ("determinantDigest", cmd["determinantDigest"]),
     ("input", input)]
  }

  /** The environment an ECS stage or a map worker receives. */
  ghost function EcsPayload(w: Workflow, stage: Stage, cmd: Doc, key: Json, input: Json): Fields<Json>
    requires IsEnvelope(cmd)
  {
    [("LINEAGE_TASK_TOKEN", JNull),
     ("LINEAGE_STAGE_SCHEMA_VERSION", cmd["schemaVersion"]),
     ("LINEAGE_STAGE_COMMAND_ID", cmd["commandId"]),
     ("LINEAGE_STAGE_CORRELATION_ID", cmd["correlationId"]),
     ("LINEAGE_STAGE_CAUSATION_ID", cmd["causationId"]),
     ("LINEAGE_STAGE_DETERMINANT_DIGEST", cmd["determinantDigest"]),
     ("LINEAGE_STAGE_INPUT", JText(input)),
     ("LINEAGE_STAGE_IDEMPOTENCY_KEY", key),
     ("LINEAGE_STAGE_ID", JStr(stage.stageId)),
     ("LINEAGE_STAGE_NAME", JStr(stage.name)),
     ("LINEAGE_WORKFLOW_KIND", JStr(w.kind)),
     ("LINEAGE_WORKFLOW_VERSION", JStr(w.version))]
  }

  /** The event the aggregation of map results receives. */
  ghost function AggregatePayload(w: Workflow, cmd: Doc, inventory: Json, results: Json): Fields<Json>
    requires IsEnvelope(cmd)
  {
    [("schemaVersion", cmd["schemaVersion"]),
     ("operation", JStr("BASELINE_SCA_AGGREGATE")),
     ("workflowKind", JStr("BASELINE")),
     ("workflowVersion", JStr(w.version)),
     ("commandId", cmd["commandId"]),
     ("correlationId", cmd["correlationId"]),
     ("causationId", cmd["causationId"]),
     ("idempotencyKey", KeyWith(cmd, ":B5A")),
     ("determinantDigest", cmd["determinantDigest"]),
     ("workInventory", inventory),
     ("mapResult", results)]
  }

  function Retries(stage: Stage): nat
  {
    if stage.retryClass == "NONE" then 0 else stage.maxAttempts
  }

  /** Call a task; a transient error is retried up to `left` more times, after 2, 4, 8, ... seconds. */
  ghost function Try(world: World, call: Invocation, transient: seq<string>, left: nat, k: nat, trace: seq<Event>)
    : (Reply<Json>, seq<Event>)
    decreases left
  {
    var reply := world.task(trace, call);
    var after := trace + [Invoked(call)];
    if reply.Raised? && reply.error in transient && left > 0
    then Try(world, call, transient, left - 1, k + 1, after + [Waited(2 * Pow(2, k))])
    else (reply, after)
  }

  ghost function StageCall(w: Workflow, stage: Stage, target: string, cmd: Doc, input: Json): Invocation
    requires IsEnvelope(cmd)
  {
    if target == SCA_TASK
    then Invocation(EcsRunTaskToken, "lineage-sca", stage.timeoutSeconds,
                    EcsPayload(w, stage, cmd, KeyWith(cmd, ":" + stage.stageId), input))
    else Invocation(LambdaInvoke, target, stage.timeoutSeconds, LambdaPayload(w, stage, cmd, input))
  }

  ghost function WorkerCall(w: Workflow, stage: Stage, cmd: Doc, index: nat, item: Json): Invocation
    requires IsEnvelope(cmd)
  {
    Invocation(EcsRunTaskToken, "lineage-sca", stage.timeoutSeconds,
               EcsPayload(w, stage, cmd, KeyWith(cmd, ":B5:" + Decimal(index)), item))
  }

  ghost function AggregateCall(w: Workflow, cmd: Doc, inventory: Json, results: Json): Invocation
    requires IsEnvelope(cmd)
  {
    Invocation(LambdaInvoke, "ControlAliasArn", 300, AggregatePayload(w, cmd, inventory, results))
  }

  /** Every work unit must come back with an outcome other than REDRIVE_REQUIRED. */
  ghost function WorkUnits(world: World, w: Workflow, stage: Stage, cmd: Doc, items: seq<Json>, k: nat,
                           trace: seq<Event>): (bool, seq<Event>)
    requires IsCommand(cmd) && k <= |items|
    decreases |items| - k
  {
    if k == |items| then (true, trace)
    else
      var (reply, after) :=
        Try(world, WorkerCall(w, stage, cmd, k, items[k]), TRANSIENT_ERRORS, Retries(stage), 0, trace);
      if reply.Returned? && Member(reply.value, "outcome").Some?
         && Member(reply.value, "outcome") != Some(JStr(REDRIVE))
      then WorkUnits(world, w, stage, cmd, items, k + 1, after)
      else (false, after)
  }

  /** Fan out over the work units the inventory lists, then aggregate the exported results. */
  ghost function FanOut(world: World, w: Workflow, stage: Stage, cmd: Doc, inventory: Json, trace: seq<Event>)
    : (Reply<Json>, seq<Event>)
    requires IsCommand(cmd)
  {
    match (Member(inventory, "bucket"), Member(inventory, "key"), Member(inventory, "versionId"))
    case (Some(bucket), Some(key), Some(version)) =>
      var location := [bucket, key, version];
      var listing := world.items(trace, location);
      var read := trace + [ItemsRead(location)];
      if listing.Raised? then (Raised(READER_FAILURE), read)
      else
        var (ok, worked) := WorkUnits(world, w, stage, cmd, listing.value, 0, read);
        if !ok then (Raised(THRESHOLD_EXCEEDED), worked)
        else
          var exported := world.writer(worked);
          var written := worked + [ResultsExported];
          if exported.Raised? then (exported, written)
          else Try(world, AggregateCall(w, cmd, inventory, exported.value), AGGREGATE_TRANSIENT_ERRORS, 3, 0, written)
    case _ => (Raised(PARAMETER_FAILURE), trace)
  }

  ghost function RunStage(world: World, w: Workflow, stage: Stage, target: string, cmd: Doc, input: Json,
                          trace: seq<Event>): (Reply<Json>, seq<Event>)
    requires IsCommand(cmd)
  {
    if stage.stageId == "B5" then FanOut(world, w, stage, cmd, input, trace)
    else Try(world, StageCall(w, stage, target, cmd, input), TRANSIENT_ERRORS, Retries(stage), 0, trace)
  }

  datatype Verdict = Reached(terminal: string) | Broken

  /** Where the last stage's result sends the workflow. */
  ghost function Route(w: Workflow, result: Json): Verdict
    requires w.terminalStates != []
  {
    var default := w.terminalStates[0];
    if forall t :: t in w.terminalStates ==> t == default then Reached(default)
    else
      match Member(result, "terminalOutcome")
      case None => Broken
      case Some(JStr(t)) => Reached(if t in w.terminalStates then t else default)
      case Some(_) => Reached(default)
  }

  /**
    * Run the stages from the `i`-th on.  `routes[i]` is where a failure of stage `i` leads.  A stage
    * without an input artifact fails before it is called; a result without an outcome, and an error
    * nothing may catch, break the execution.
    */
  ghost function From(world: World, w: Workflow, targets: seq<string>, routes: seq<string>, cmd: Doc, i: nat,
                      input: Option<Json>, trace: seq<Event>): (Verdict, seq<Event>)
    requires IsCommand(cmd) && w.terminalStates != []
    requires |targets| == |routes| == |w.stages| && i < |w.stages|
    decreases |w.stages| - i, 1
  {
    if input.None? then (Reached(routes[i]), trace)
    else
      var (reply, after) := RunStage(world, w, w.stages[i], targets[i], cmd, input.value, trace);
      Proceed(world, w, targets, routes, cmd, i, reply, after)
  }

  /** Stage `i` came back with `reply`: stop, route, or run the next stage. */
  ghost function Proceed(world: World, w: Workflow, targets: seq<string>, routes: seq<string>, cmd: Doc, i: nat,
                         reply: Reply<Json>, after: seq<Event>): (Verdict, seq<Event>)
    requires IsCommand(cmd) && w.terminalStates != []
    requires |targets| == |routes| == |w.stages| && i < |w.stages|
    decreases |w.stages| - i, 0
  {
    if reply.Raised? then (if Uncatchable(reply.error) then Broken else Reached(routes[i]), after)
    else
      match Member(reply.value, "outcome")
      case None => (Broken, after)
      case Some(outcome) =>
        if outcome == JStr(REDRIVE) then (Reached(routes[i]), after)
        else if i + 1 == |w.stages| then (Route(w, reply.value), after)
        else From(world, w, targets, routes, cmd, i + 1, Member(reply.value, "output"), after)
  }

  /** The whole workflow, with every failure sent to the error terminal the exporter uses. */
  ghost function Direct(world: World, w: Workflow, targets: seq<string>, cmd: Doc): (Verdict, seq<Event>)
    requires IsCommand(cmd) && w.terminalStates != []
    requires |targets| == |w.stages| > 0 && w.stages[0].onError != []
  {
    From(world, w, targets, seq(|w.stages|, _ => ErrorTerminal(w)), cmd, 0, Some(cmd["input"]), [])
  }
}
