/** Workflow definitions and their translation to a state machine. */
module WorkflowCompiler {
  import opened Common
  import opened StateLanguage

  datatype Stage = Stage(
    stageId: string,
    name: string,
    timeoutSeconds: nat,
    maxAttempts: nat,
    retryClass: string,
    onError: seq<string>)

  datatype Workflow = Workflow(
    kind: string,
    version: string,
    entryStage: string,
    timeoutSeconds: nat,
    stages: seq<Stage>,
    terminalStates: seq<string>)

  datatype Owner =
    | Control | Classification | Coverage | Sca | RuntimeValidation
    | Consolidation | Proposal | Publication | Deployment

  /** Which owner runs a stage, by workflow kind and stage id. */
  type OwnerTable = map<(string, string), Owner>

  datatype CompileError =
    | UnknownStage(kind: string, stageId: string)
    | NoTarget(owner: Owner)
    | NoErrorRoute
    | NoTerminals
    | NoStages

  const SCA_TASK := "ScaTask"
  const REDRIVE := "REDRIVE_REQUIRED"
  const ROUTER := "TerminalRoute"

  function TargetOf(owner: Owner): Option<string>
  {
    match owner
    case Control => Some("ControlAliasArn")
    case Classification => Some("ClassificationAliasArn")
    case Coverage => Some("CoverageAliasArn")
    case Sca => Some(SCA_TASK)
    case RuntimeValidation => Some("RuntimeValidationAliasArn")
    case Consolidation => Some("ConsolidationAliasArn")
    case Proposal => Some("ProposalAliasArn")
    case Publication => Some("PublicationAliasArn")
    case Deployment => None
  }

  function StageTarget(w: Workflow, owners: OwnerTable, stage: Stage): Result<string, CompileError>
  {
    if (w.kind, stage.stageId) !in owners then Err(UnknownStage(w.kind, stage.stageId))
    else
      var owner := owners[(w.kind, stage.stageId)];
      match TargetOf(owner)
      case None => Err(NoTarget(owner))
      case Some(target) => Ok(target)
  }

  function StripPrefix(s: string, prefix: string): string
  {
    if prefix <= s then s[|prefix|..] else s
  }

  /** The terminal a stage's first error route names. */
  function DeclaredErrorTerminal(stage: Stage): string
    requires stage.onError != []
  {
    StripPrefix(stage.onError[0], "terminal:")
  }

  /** The exporter sends every failure of every stage to the first stage's error terminal. */
  function ErrorTerminal(w: Workflow): string
    requires w.stages != [] && w.stages[0].onError != []
  {
    DeclaredErrorTerminal(w.stages[0])
  }

  const TRANSIENT_ERRORS: seq<string> := [
    "Lambda.ServiceException",
    "Lambda.SdkClientException",
    "Lambda.TooManyRequestsException",
    "ECS.AmazonECSException",
    "States.Timeout"]

  const AGGREGATE_TRANSIENT_ERRORS: seq<string> := [
    "Lambda.ServiceException",
    "Lambda.SdkClientException",
    "Lambda.TooManyRequestsException",
    "States.Timeout"]

  function RetryPolicy(stage: Stage): seq<Retrier>
  {
    if stage.retryClass == "NONE" then []
    else [Retrier(TRANSIENT_ERRORS, 2, 2, stage.maxAttempts)]
  }

  function Slot(stageId: string): string
  {
    "_" + stageId
  }

  function OutcomeName(stageId: string): string
  {
    stageId + "Outcome"
  }

  /** Where a stage finds the artifact its predecessor produced. */
  function InputPath(previous: Option<(Stage, string)>): Path
  {
    match previous
    case None => ["input"]
    case Some((stage, target)) =>
      if stage.stageId == "B5" then ["_B5Aggregate", "Payload", "output"]
      else if target == SCA_TASK then [Slot(stage.stageId), "output"]
      else [Slot(stage.stageId), "Payload", "output"]
  }

  function CatchAll(resultField: string, next: string): seq<Catcher>
  {
    [Catcher(["States.ALL"], resultField, next)]
  }

  function LambdaFields(w: Workflow, stage: Stage, input: Path): Fields<Template>
  {
    [("schemaVersion", At(["schemaVersion"])),
     ("commandId", At(["commandId"])),
     ("correlationId", At(["correlationId"])),
     ("causationId", At(["causationId"])),
     ("idempotencyKey", SuffixedKey(["idempotencyKey"], ":" + stage.stageId)),
     ("workflowKind", Const(JStr(w.kind))),
     ("workflowVersion", Const(JStr(w.version))),
     ("stageId", Const(JStr(stage.stageId))),
     ("stageName", Const(JStr(stage.name))),
     ("determinantDigest", At(["determinantDigest"])),
     ("input", At(input))]
  }

  function LambdaTask(w: Workflow, stage: Stage, target: string, input: Path, error: string): State
  {
    Task(LambdaInvoke, target, stage.timeoutSeconds, None, LambdaFields(w, stage, input),
         Slot(stage.stageId), RetryPolicy(stage), CatchAll("workflowError", error),
         OutcomeName(stage.stageId))
  }

  function Heartbeat(timeoutSeconds: nat): int
  {
    var third := timeoutSeconds / 3;
    var capped := if third < 300 then third else 300;
    if capped < 30 then 30 else capped
  }

  /** A third of the time-out, but never under half a minute nor over five minutes. */
  lemma HeartbeatIs(timeoutSeconds: nat)
    ensures var beat := Heartbeat(timeoutSeconds);
            && 30 <= beat <= 300
            && (timeoutSeconds <= 90 ==> beat == 30) && (timeoutSeconds >= 900 ==> beat == 300)
            && (90 <= timeoutSeconds <= 900 ==> beat * 3 <= timeoutSeconds < beat * 3 + 3)
  {
  }

  function EcsFields(w: Workflow, stage: Stage, input: Path, itemKey: bool): Fields<Template>
  {
    [("LINEAGE_TASK_TOKEN", TaskToken),
     ("LINEAGE_STAGE_SCHEMA_VERSION", At(["schemaVersion"])),
     ("LINEAGE_STAGE_COMMAND_ID", At(["commandId"])),
     ("LINEAGE_STAGE_CORRELATION_ID", At(["correlationId"])),
     ("LINEAGE_STAGE_CAUSATION_ID", At(["causationId"])),
     ("LINEAGE_STAGE_DETERMINANT_DIGEST", At(["determinantDigest"])),
     ("LINEAGE_STAGE_INPUT", TextOf(input)),
     ("LINEAGE_STAGE_IDEMPOTENCY_KEY",
      if itemKey then At(["idempotencyKey"])
      else SuffixedKey(["idempotencyKey"], ":" + stage.stageId)),
     ("LINEAGE_STAGE_ID", Const(JStr(stage.stageId))),
     ("LINEAGE_STAGE_NAME", Const(JStr(stage.name))),
     ("LINEAGE_WORKFLOW_KIND", Const(JStr(w.kind))),
     ("LINEAGE_WORKFLOW_VERSION", Const(JStr(w.version)))]
  }

  function EcsTask(w: Workflow, stage: Stage, input: Path, next: string, itemKey: bool, catchers: seq<Catcher>)
    : State
  {
    Task(EcsRunTaskToken, "lineage-sca", stage.timeoutSeconds, Some(Heartbeat(stage.timeoutSeconds)),
         EcsFields(w, stage, input, itemKey), Slot(stage.stageId), RetryPolicy(stage),
         catchers, next)
  }

  function OutcomeRoute(stage: Stage, next: string, target: string, error: string): State
  {
    var variable :=
      if target == SCA_TASK then [Slot(stage.stageId), "outcome"]
      else [Slot(stage.stageId), "Payload", "outcome"];
    Choice([Rule(variable, REDRIVE, error)], next)
  }

  /** The per-item machine of the distributed Map. */
  function WorkerMachine(w: Workflow, stage: Stage): Machine
  {
    var worker := EcsTask(w, stage, ["input"], "B5WorkerOutcome", true, CatchAll("workerError", "B5WorkerFailed"));
    Machine("B5Worker",
            map["B5Worker" := worker,
                "B5WorkerOutcome" :=
                  Choice([Rule(["_B5", "outcome"], REDRIVE, "B5WorkerFailed")], "B5WorkerSucceeded"),
                "B5WorkerSucceeded" := Succeed,
                "B5WorkerFailed" := Fail(REDRIVE)])
  }

  const ITEM_SELECTOR: Fields<Template> := [
    ("schemaVersion", At(["schemaVersion"])),
    ("commandId", At(["commandId"])),
    ("correlationId", At(["correlationId"])),
    ("causationId", At(["causationId"])),
    ("idempotencyKey", IndexedKey(["idempotencyKey"], ":B5:")),
    ("determinantDigest", At(["determinantDigest"])),
    ("input", MapItem)]

  const ITEM_READER: seq<Path> := [
    ["_B4", "Payload", "output", "bucket"],
    ["_B4", "Payload", "output", "key"],
    ["_B4", "Payload", "output", "versionId"]]

  function MapState(w: Workflow, stage: Stage, error: string): State
  {
    DistributedMap(ITEM_READER, WorkerMachine(w, stage), ITEM_SELECTOR, ["baselineMapConcurrency"],
                   "_B5", CatchAll("workflowError", error), "B5Aggregate")
  }

  function AggregateFields(w: Workflow): Fields<Template>
  {
    [("schemaVersion", At(["schemaVersion"])),
     ("operation", Const(JStr("BASELINE_SCA_AGGREGATE"))),
     ("workflowKind", Const(JStr("BASELINE"))),
     ("workflowVersion", Const(JStr(w.version))),
     ("commandId", At(["commandId"])),
     ("correlationId", At(["correlationId"])),
     ("causationId", At(["causationId"])),
     ("idempotencyKey", SuffixedKey(["idempotencyKey"], ":B5A")),
     ("determinantDigest", At(["determinantDigest"])),
     ("workInventory", At(["_B4", "Payload", "output"])),
     ("mapResult", At(["_B5"]))]
  }

  const AGGREGATE_RETRY: seq<Retrier> := [Retrier(AGGREGATE_TRANSIENT_ERRORS, 2, 2, 3)]

  function AggregateTask(w: Workflow, error: string): State
  {
    Task(LambdaInvoke, "ControlAliasArn", 300, None, AggregateFields(w), "_B5Aggregate",
         AGGREGATE_RETRY, CatchAll("workflowError", error), "B5AggregateOutcome")
  }

  function AggregateRoute(next: string, error: string): State
  {
    Choice([Rule(["_B5Aggregate", "Payload", "outcome"], REDRIVE, error)], next)
  }

  const ALWAYS_SUCCESSFUL: set<string> :=
    {"AWAITING_APPROVAL", "NO_LINEAGE", "NO_LINEAGE_IMPACT", "PASS", "WARN", "BLOCK", "PROPOSALS_RAISED"}

  function TerminalState(name: string, w: Workflow): State
    requires w.terminalStates != []
  {
    if name == w.terminalStates[0] || name in ALWAYS_SUCCESSFUL then Succeed else Fail(name)
  }

  function RouterRules(terminals: seq<string>, default: string, variable: Path): seq<Rule>
  {
    if terminals == [] then []
    else
      (if terminals[0] != default then [Rule(variable, terminals[0], terminals[0])] else [])
      + RouterRules(terminals[1..], default, variable)
  }

  function TerminalRouter(w: Workflow): State
    requires w.stages != [] && w.terminalStates != []
  {
    var default := w.terminalStates[0];
    var final := w.stages[|w.stages| - 1].stageId;
    Choice(RouterRules(w.terminalStates, default, [Slot(final), "Payload", "terminalOutcome"]), default)
  }

  /** The states one stage contributes, in the order they are written. */
  function StageEntries(w: Workflow, stage: Stage, target: string, input: Path, next: string, error: string)
    : Fields<State>
  {
    if stage.stageId == "B5" then
      [("B5", MapState(w, stage, error)),
       ("B5Aggregate", AggregateTask(w, error)),
       ("B5AggregateOutcome", AggregateRoute(next, error))]
    else
      [(stage.stageId,
        if target == SCA_TASK then EcsTask(w, stage, input, OutcomeName(stage.stageId), false,
                                              CatchAll("workflowError", error))
        else LambdaTask(w, stage, target, input, error)),
       (OutcomeName(stage.stageId), OutcomeRoute(stage, next, target, error))]
  }

  function NextState(w: Workflow, i: nat): string
    requires i < |w.stages|
  {
    if i + 1 < |w.stages| then w.stages[i + 1].stageId else ROUTER
  }

  function Previous(w: Workflow, targets: seq<string>, i: nat): Option<(Stage, string)>
    requires i <= |w.stages| && i <= |targets|
  {
    if i == 0 then None else Some((w.stages[i - 1], targets[i - 1]))
  }

  function EntriesOf(w: Workflow, targets: seq<string>, i: nat): Fields<State>
    requires i < |w.stages| && i < |targets| && w.stages[0].onError != []
  {
    StageEntries(w, w.stages[i], targets[i], InputPath(Previous(w, targets, i)), NextState(w, i), ErrorTerminal(w))
  }

  function EntriesUpTo(w: Workflow, targets: seq<string>, n: nat): Fields<State>
    requires n <= |w.stages| && n <= |targets|
    requires n > 0 ==> w.stages[0].onError != []
  {
    if n == 0 then [] else EntriesUpTo(w, targets, n - 1) + EntriesOf(w, targets, n - 1)
  }

  function TerminalEntries(w: Workflow, n: nat): Fields<State>
    requires w.terminalStates != [] && n <= |w.terminalStates|
  {
    if n == 0 then []
    else
      var t := w.terminalStates[n - 1];
      TerminalEntries(w, n - 1) + [(t, TerminalState(t, w))]
  }

  /** Everything the exporter writes into `States`, in order. */
  function Entries(w: Workflow, targets: seq<string>): Fields<State>
    requires |targets| == |w.stages| > 0 && w.terminalStates != [] && w.stages[0].onError != []
  {
    EntriesUpTo(w, targets, |w.stages|) + [(ROUTER, TerminalRouter(w))]
    + TerminalEntries(w, |w.terminalStates|)
  }

  /** Later writes replace earlier ones. */
  function Load(entries: Fields<State>): map<string, State>
  {
    if entries == [] then map[]
    else
      var last := |entries| - 1;
      Load(entries[..last])[entries[last].0 := entries[last].1]
  }

  lemma {:induction false} LoadAppend(a: Fields<State>, b: Fields<State>)
    ensures Load(a + b) == Load(a) + Load(b)
  {
    if b == [] {
      assert a + b == a;
    } else {
      var last := |b| - 1;
      assert (a + b)[..|a + b| - 1] == a + b[..last];
      LoadAppend(a, b[..last]);
    }
  }

  /** The targets of the first `n` stages, or the first error met while resolving them. */
  function TargetsUpTo(w: Workflow, owners: OwnerTable, n: nat): (r: Result<seq<string>, CompileError>)
    requires n <= |w.stages|
    ensures r.Ok? ==> |r.value| == n
  {
    if n == 0 then Ok([])
    else
      match TargetsUpTo(w, owners, n - 1)
      case Err(e) => Err(e)
      case Ok(ts) =>
        match StageTarget(w, owners, w.stages[n - 1])
        case Err(e) => Err(e)
        case Ok(t) => if w.stages[0].onError == [] then Err(NoErrorRoute) else Ok(ts + [t])
  }

  function Targets(w: Workflow, owners: OwnerTable): (r: Result<seq<string>, CompileError>)
    ensures r.Ok? ==> |r.value| == |w.stages|
  {
    TargetsUpTo(w, owners, |w.stages|)
  }

  function MachineOf(w: Workflow, targets: seq<string>): Machine
    requires |targets| == |w.stages| > 0 && w.terminalStates != [] && w.stages[0].onError != []
  {
    Machine(w.entryStage, Load(Entries(w, targets)))
  }

  datatype Document = Document(comment: string, timeoutSeconds: nat, machine: Machine)

  function Comment(w: Workflow): string
  {
    "Generated " + w.kind + " " + w.version + "; large payloads remain versioned S3 references"
  }

  lemma {:induction false} TargetsFailEarly(w: Workflow, owners: OwnerTable, n: nat, m: nat)
    requires n <= m <= |w.stages|
    requires TargetsUpTo(w, owners, n).Err?
    ensures TargetsUpTo(w, owners, m) == TargetsUpTo(w, owners, n)
  {
    if n < m {
      TargetsFailEarly(w, owners, n, m - 1);
    }
  }

  /** The stage loop of the exporter. */
  method CompileStages(w: Workflow, owners: OwnerTable)
    returns (r: Result<map<string, State>, CompileError>, ghost targets: seq<string>)
    ensures r.Ok? <==> Targets(w, owners).Ok?
    ensures r.Ok? ==> Targets(w, owners) == Ok(targets)
    ensures r.Ok? && w.stages != [] ==> w.stages[0].onError != []
    ensures r.Ok? ==> r.value == Load(EntriesUpTo(w, targets, |w.stages|))
    ensures r.Err? ==> Targets(w, owners) == Err(r.error)
  {
    var states: map<string, State> := map[];
    var previous: Option<(Stage, string)> := None;
    targets := [];
    for index := 0 to |w.stages|
      invariant TargetsUpTo(w, owners, index) == Ok(targets)
      invariant index > 0 ==> w.stages[0].onError != []
      invariant previous == Previous(w, targets, index)
      invariant states == Load(EntriesUpTo(w, targets, index))
    {
      var stage := w.stages[index];
      var resolved := StageTarget(w, owners, stage);
      if resolved.Err? || w.stages[0].onError == [] {
        TargetsFailEarly(w, owners, index + 1, |w.stages|);
        return Err(if resolved.Err? then resolved.error else NoErrorRoute), targets;
      }
      var target := resolved.value;
      var error := ErrorTerminal(w);
      var next := NextState(w, index);
      var input := InputPath(previous);
      EntriesGrow(w, targets, target, index, states);
      targets := targets + [target];
      states := WriteStage(states, w, stage, target, input, next, error);
      previous := Some((stage, target));
    }
    return Ok(states), targets;
  }

  /** The entries after one more stage are those before it and the stage's own. */
  lemma EntriesGrow(w: Workflow, targets: seq<string>, target: string, index: nat, states: map<string, State>)
    requires |targets| == index < |w.stages| && w.stages[0].onError != []
    requires states == Load(EntriesUpTo(w, targets, index))
    ensures var input := InputPath(Previous(w, targets, index));
            Load(EntriesUpTo(w, targets + [target], index + 1))
            == states + Load(StageEntries(w, w.stages[index], target, input, NextState(w, index), ErrorTerminal(w)))
  {
    EntriesIgnoreLaterTargets(w, targets, targets + [target], index);
    LoadAppend(EntriesUpTo(w, targets, index), EntriesOf(w, targets + [target], index));
  }

  lemma NextTerminal(w: Workflow, n: nat)
    requires n < |w.terminalStates|
    ensures Load(TerminalEntries(w, n + 1))
            == Load(TerminalEntries(w, n))[w.terminalStates[n] := TerminalState(w.terminalStates[n], w)]
  {
    var grown := TerminalEntries(w, n + 1);
    assert grown[..|grown| - 1] == TerminalEntries(w, n);
  }

  /** The terminal loop of the exporter. */
  method WriteTerminals(states: map<string, State>, w: Workflow) returns (r: map<string, State>)
    requires w.terminalStates != []
    ensures r == states + Load(TerminalEntries(w, |w.terminalStates|))
  {
    r := states;
    for n := 0 to |w.terminalStates|
      invariant r == states + Load(TerminalEntries(w, n))
    {
      var terminal := w.terminalStates[n];
      r := r[terminal := TerminalState(terminal, w)];
      NextTerminal(w, n);
    }
  }

  /**
    * The exporter: one pass over the stages, then the router and the terminals.  It succeeds exactly
    * when every stage has an owner with a target, the first stage names an error route, and there is
    * a stage and a terminal; the document is then the one `MachineOf` describes.
    */
  method AslDocument(w: Workflow, owners: OwnerTable) returns (r: Result<Document, CompileError>)
    ensures r.Ok? <==> Targets(w, owners).Ok? && w.terminalStates != [] && w.stages != []
    ensures r.Ok? ==>
              w.stages[0].onError != []
              && r.value == Document(Comment(w), w.timeoutSeconds, MachineOf(w, Targets(w, owners).value))
    ensures Targets(w, owners).Err? ==> r == Err(Targets(w, owners).error)
  {
    var compiled, targets := CompileStages(w, owners);
    if compiled.Err? {
      return Err(compiled.error);
    }
    if w.terminalStates == [] {
      return Err(NoTerminals);
    }
    if w.stages == [] {
      return Err(NoStages);
    }
    var states := compiled.value[ROUTER := TerminalRouter(w)];
    states := WriteTerminals(states, w);
    ghost var stageEntries := EntriesUpTo(w, targets, |w.stages|);
    ghost var base := stageEntries + [(ROUTER, TerminalRouter(w))];
    assert base[..|base| - 1] == stageEntries;
    LoadAppend(base, TerminalEntries(w, |w.terminalStates|));
    return Ok(Document(Comment(w), w.timeoutSeconds, Machine(w.entryStage, states)));
  }

  lemma {:induction false} EntriesIgnoreLaterTargets(w: Workflow, a: seq<string>, b: seq<string>, n: nat)
    requires n <= |w.stages| && n <= |a| && n <= |b| && a[..n] == b[..n]
    requires n > 0 ==> w.stages[0].onError != []
    ensures EntriesUpTo(w, a, n) == EntriesUpTo(w, b, n)
  {
    if n > 0 {
      assert a[..n][n - 1] == b[..n][n - 1];
      assert n > 1 ==> a[..n][n - 2] == b[..n][n - 2];
      assert a[..n - 1] == a[..n][..n - 1] && b[..n - 1] == b[..n][..n - 1];
      EntriesIgnoreLaterTargets(w, a, b, n - 1);
    }
  }

  /** One turn of the exporter's loop: write the states of one stage. */
  method WriteStage(states: map<string, State>, w: Workflow, stage: Stage, target: string, input: Path,
                    next: string, error: string) returns (r: map<string, State>)
    ensures r == states + Load(StageEntries(w, stage, target, input, next, error))
  {
    r := states;
    ghost var entries := StageEntries(w, stage, target, input, next, error);
    LoadFew(entries);
    if stage.stageId == "B5" {
      r := r["B5" := MapState(w, stage, error)];
      r := r["B5Aggregate" := AggregateTask(w, error)];
      r := r["B5AggregateOutcome" := AggregateRoute(next, error)];
    } else {
      if target == SCA_TASK {
        r := r[stage.stageId := EcsTask(w, stage, input, OutcomeName(stage.stageId), false,
                                        CatchAll("workflowError", error))];
      } else {
        r := r[stage.stageId := LambdaTask(w, stage, target, input, error)];
      }
      r := r[OutcomeName(stage.stageId) := OutcomeRoute(stage, next, target, error)];
    }
  }

  lemma LoadFew(entries: Fields<State>)
    requires |entries| == 2 || |entries| == 3
    ensures |entries| == 2 ==> Load(entries) == map[][entries[0].0 := entries[0].1][entries[1].0 := entries[1].1]
    ensures |entries| == 3 ==>
              Load(entries)
              == map[][entries[0].0 := entries[0].1][entries[1].0 := entries[1].1][entries[2].0 := entries[2].1]
  {
    assert Load([entries[0]]) == map[entries[0].0 := entries[0].1] by {
      assert [entries[0]][..0] == [];
    }
    var two := [entries[0], entries[1]];
    assert two[..1] == [entries[0]];
    if |entries| == 2 {
      assert entries == two;
    } else {
      assert entries[..2] == two;
    }
  }
}
