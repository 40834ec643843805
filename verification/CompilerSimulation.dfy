/** Running the exported machine, state by state, against the direct meaning of the workflow. */
module CompilerSimulation {
  import opened Common
  import opened StateLanguage
  import opened WorkflowCompiler
  import opened Pipeline
  import opened CompilerCorrectness

  /** How an execution with this verdict ends. */
  ghost function EndingOf(w: Workflow, v: Verdict): Ending
    requires w.terminalStates != []
  {
    match v
    case Broken => Aborted
    case Reached(t) => Finished(t, TerminalState(t, w).Succeed?)
  }

  ghost function Outcome(w: Workflow, r: (Verdict, seq<Event>)): Execution
    requires w.terminalStates != []
  {
    Execution(EndingOf(w, r.0), r.1)
  }

  // ---------------------------------------------------------------- single states

  lemma AtTerminal(world: World, w: Workflow, targets: seq<string>, t: string, doc: Doc, trace: seq<Event>, fuel: nat)
    requires Compilable(w, targets) && NoClash(w) && t in w.terminalStates && fuel > 0
    ensures Run(world, MachineOf(w, targets), t, doc, trace, fuel) == Outcome(w, (Reached(t), trace))
  {
    StateOf(w, targets, (t, TerminalState(t, w)));
  }

  lemma CatchAllCatches(field: string, next: string, error: string)
    ensures FindCatcher(CatchAll(field, next), error)
            == if Uncatchable(error) then None else Some(Catcher(["States.ALL"], field, next))
  {
    assert |"States.Runtime"| == 14 && |"States.DataLimitExceeded"| == 24 && |"States.ALL"| == 10;
    assert CatchAll(field, next)[1..] == [];
  }

  /** A failed state of the main machine ends at the error terminal, or aborts. */
  lemma AtFailure(world: World, w: Workflow, targets: seq<string>, error: string, doc: Doc, trace: seq<Event>, fuel: nat)
    requires Compilable(w, targets) && NoClash(w) && ErrorTerminal(w) in w.terminalStates && fuel > 1
    ensures Recover(world, MachineOf(w, targets), CatchAll("workflowError", ErrorTerminal(w)), error, doc, trace, fuel)
            == Outcome(w, (if Uncatchable(error) then Broken else Reached(ErrorTerminal(w)), trace))
  {
    CatchAllCatches("workflowError", ErrorTerminal(w), error);
    AtTerminal(world, w, targets, ErrorTerminal(w), doc["workflowError" := ErrorOutput(error)], trace, fuel - 1);
  }

  lemma ChooseRedrive(variable: Path, error: string, next: string, doc: Doc)
    ensures Choose([Rule(variable, REDRIVE, error)], next, doc)
            == match Lookup(JObj(doc), variable)
               case None => Unresolved
               case Some(v) => Goto(if v == JStr(REDRIVE) then error else next)
  {
    assert [Rule(variable, REDRIVE, error)][1..] == [];
  }

  /** The outcome route: abort without an outcome, stop on REDRIVE_REQUIRED, otherwise go on. */
  lemma AtOutcome(world: World, w: Workflow, targets: seq<string>, name: string, variable: Path, next: string,
                  doc: Doc, outcome: Option<Json>, trace: seq<Event>, fuel: nat)
    requires Compilable(w, targets) && NoClash(w) && ErrorTerminal(w) in w.terminalStates && fuel > 1
    requires name in MachineOf(w, targets).states
    requires MachineOf(w, targets).states[name] == Choice([Rule(variable, REDRIVE, ErrorTerminal(w))], next)
    requires Lookup(JObj(doc), variable) == outcome
    ensures Run(world, MachineOf(w, targets), name, doc, trace, fuel)
            == match outcome
               case None => Outcome(w, (Broken, trace))
               case Some(v) =>
                 if v == JStr(REDRIVE) then Outcome(w, (Reached(ErrorTerminal(w)), trace))
                 else Run(world, MachineOf(w, targets), next, doc, trace, fuel - 1)
  {
    ChooseRedrive(variable, ErrorTerminal(w), next, doc);
    AtTerminal(world, w, targets, ErrorTerminal(w), doc, trace, fuel - 1);
  }

  lemma {:induction false} ChooseTerminal(terminals: seq<string>, default: string, variable: Path, doc: Doc)
    ensures Choose(RouterRules(terminals, default, variable), default, doc)
            == if forall t :: t in terminals ==> t == default then Goto(default)
               else
                 match Lookup(JObj(doc), variable)
                 case None => Unresolved
                 case Some(JStr(t)) => Goto(if t in terminals then t else default)
                 case Some(_) => Goto(default)
  {
    if terminals != [] {
      ChooseTerminal(terminals[1..], default, variable, doc);
      assert forall t :: t in terminals <==> t == terminals[0] || t in terminals[1..];
      var rules := RouterRules(terminals, default, variable);
      var tail := RouterRules(terminals[1..], default, variable);
      if terminals[0] != default {
        assert terminals[0] in terminals;
        assert rules[0] == Rule(variable, terminals[0], terminals[0]) && rules[1..] == tail;
      } else {
        assert rules == tail;
      }
    }
  }

  lemma RouterChoice(w: Workflow, doc: Doc, reply: Json)
    requires w.stages != [] && w.terminalStates != []
    requires var slot := Slot(w.stages[|w.stages| - 1].stageId);
             slot in doc && doc[slot] == IntegrationResult(LambdaInvoke, reply)
    ensures Choose(TerminalRouter(w).rules, TerminalRouter(w).default, doc)
            == match Route(w, reply) case Broken => Unresolved case Reached(t) => Goto(t)
    ensures Route(w, reply).Reached? ==> Route(w, reply).terminal in w.terminalStates
  {
    var slot := Slot(w.stages[|w.stages| - 1].stageId);
    LookupReply(doc, slot, LambdaInvoke, reply, "terminalOutcome");
    ChooseTerminal(w.terminalStates, w.terminalStates[0], [slot, "Payload", "terminalOutcome"], doc);
  }

  lemma AtRouter(world: World, w: Workflow, targets: seq<string>, doc: Doc, reply: Json, trace: seq<Event>, fuel: nat)
    requires Compilable(w, targets) && NoClash(w) && fuel > 1
    requires var slot := Slot(w.stages[|w.stages| - 1].stageId);
             slot in doc && doc[slot] == IntegrationResult(LambdaInvoke, reply)
    ensures Run(world, MachineOf(w, targets), ROUTER, doc, trace, fuel) == Outcome(w, (Route(w, reply), trace))
  {
    StateOf(w, targets, (ROUTER, TerminalRouter(w)));
    RouterChoice(w, doc, reply);
    var route := Route(w, reply);
    if route.Reached? {
      AtTerminal(world, w, targets, route.terminal, doc, trace, fuel - 1);
    }
  }

  lemma OrdinaryErrorsAreCatchable()
    ensures !Uncatchable(PARAMETER_FAILURE) && !Uncatchable(READER_FAILURE) && !Uncatchable(THRESHOLD_EXCEEDED)
  {
    assert |PARAMETER_FAILURE| == 27 && |READER_FAILURE| == 23 && |THRESHOLD_EXCEEDED| == 38;
    assert |"States.Runtime"| == 14 && |"States.DataLimitExceeded"| == 24;
  }

  /** What a Task state of the main machine does with its payload. */
  lemma AtTask(world: World, w: Workflow, targets: seq<string>, name: string, doc: Doc, payload: Option<Fields<Json>>,
               trace: seq<Event>, fuel: nat)
    requires Compilable(w, targets) && NoClash(w) && ErrorTerminal(w) in w.terminalStates && fuel > 1
    requires name in MachineOf(w, targets).states && MachineOf(w, targets).states[name].Task?
    requires MachineOf(w, targets).states[name].catchers == CatchAll("workflowError", ErrorTerminal(w))
    requires FillAll(MachineOf(w, targets).states[name].parameters, doc, Context(0, JNull)) == payload
    ensures var s := MachineOf(w, targets).states[name];
            Run(world, MachineOf(w, targets), name, doc, trace, fuel)
            == if payload.None? then Outcome(w, (Reached(ErrorTerminal(w)), trace))
               else
                 var (reply, after) := Attempt(world, Invocation(s.resource, s.target, s.timeout, payload.value),
                                               s.retry, seq(|s.retry|, _ => 0), trace);
                 if reply.Raised?
                 then Outcome(w, (if Uncatchable(reply.error) then Broken else Reached(ErrorTerminal(w)), after))
                 else Run(world, MachineOf(w, targets), s.next,
                          doc[s.resultField := IntegrationResult(s.resource, reply.value)], after, fuel - 1)
  {
    var s := MachineOf(w, targets).states[name];
    OrdinaryErrorsAreCatchable();
    if payload.None? {
      AtFailure(world, w, targets, PARAMETER_FAILURE, doc, trace, fuel);
    } else {
      var (reply, after) := Attempt(world, Invocation(s.resource, s.target, s.timeout, payload.value),
                                    s.retry, seq(|s.retry|, _ => 0), trace);
      if reply.Raised? {
        AtFailure(world, w, targets, reply.error, doc, after, fuel);
      }
    }
  }

  // ---------------------------------------------------------------- one stage

  /** Where the machine stands after stage `i`: ended, or in the next state with the reply stored. */
  ghost function AfterStage(world: World, w: Workflow, targets: seq<string>, doc: Doc, slot: string, resource: Resource,
                            next: string, reply: Reply<Json>, after: seq<Event>, fuel: nat): Execution
    requires Compilable(w, targets)
  {
    if reply.Raised? then
      Outcome(w, (if Uncatchable(reply.error) then Broken else Reached(ErrorTerminal(w)), after))
    else
      match Member(reply.value, "outcome")
      case None => Outcome(w, (Broken, after))
      case Some(v) =>
        if v == JStr(REDRIVE) then Outcome(w, (Reached(ErrorTerminal(w)), after))
        else Run(world, MachineOf(w, targets), next, doc[slot := IntegrationResult(resource, reply.value)], after, fuel)
  }

  ghost function ResourceOf(target: string): Resource
  {
    if target == SCA_TASK then EcsRunTaskToken else LambdaInvoke
  }

  lemma PlainPayload(w: Workflow, stage: Stage, target: string, path: Path, cmd: Doc, doc: Doc, input: Option<Json>,
                     error: string, next: string)
    requires IsCommand(cmd) && Carries(doc, cmd) && stage.stageId != "B5" && Lookup(JObj(doc), path) == input
    ensures var s := StageEntries(w, stage, target, path, next, error)[0].1;
            && s.Task? && s.retry == RetryPolicy(stage) && s.resource == ResourceOf(target)
            && FillAll(s.parameters, doc, Context(0, JNull))
               == (if input.None? then None else Some(StageCall(w, stage, target, cmd, input.value).payload))
            && (input.Some? ==>
                  StageCall(w, stage, target, cmd, input.value)
                  == Invocation(s.resource, s.target, s.timeout, StageCall(w, stage, target, cmd, input.value).payload))
  {
    CarriesEnvelope(doc, cmd);
    FillLambda(w, stage, path, doc, Context(0, JNull));
    FillEcs(w, stage, path, false, doc, Context(0, JNull));
    if input.Some? {
      SamePayloads(w, stage, target, cmd, doc, input.value, JNull);
    }
  }

  lemma PlainStage(world: World, w: Workflow, targets: seq<string>, cmd: Doc, i: nat, doc: Doc, input: Option<Json>,
                   trace: seq<Event>, fuel: nat)
    requires WellFormed(w, targets) && i < |w.stages| && w.stages[i].stageId != "B5" && fuel > 2
    requires IsCommand(cmd) && Carries(doc, cmd)
    requires Lookup(JObj(doc), InputPath(Previous(w, targets, i))) == input
    ensures Run(world, MachineOf(w, targets), w.stages[i].stageId, doc, trace, fuel)
            == if input.None? then Outcome(w, (Reached(ErrorTerminal(w)), trace))
               else
                 var (reply, after) := RunStage(world, w, w.stages[i], targets[i], cmd, input.value, trace);
                 AfterStage(world, w, targets, doc, Slot(w.stages[i].stageId), ResourceOf(targets[i]),
                            NextState(w, i), reply, after, fuel - 2)
  {
    var stage, target, m := w.stages[i], targets[i], MachineOf(w, targets);
    var slot := Slot(stage.stageId);
    StateOfStage(w, targets, i, 0);
    StateOfStage(w, targets, i, 1);
    PlainPayload(w, stage, target, InputPath(Previous(w, targets, i)), cmd, doc, input, ErrorTerminal(w), NextState(w, i));
    AtTask(world, w, targets, stage.stageId, doc,
           if input.None? then None else Some(StageCall(w, stage, target, cmd, input.value).payload), trace, fuel);
    if input.Some? {
      var call := StageCall(w, stage, target, cmd, input.value);
      PolicyIsTry(world, call, stage, trace);
      var (reply, after) := RunStage(world, w, stage, target, cmd, input.value, trace);
      if reply.Returned? {
        var stored := doc[slot := IntegrationResult(ResourceOf(target), reply.value)];
        LookupReply(stored, slot, ResourceOf(target), reply.value, "outcome");
        AtOutcome(world, w, targets, OutcomeName(stage.stageId),
                  m.states[OutcomeName(stage.stageId)].rules[0].variable, NextState(w, i),
                  stored, Member(reply.value, "outcome"), after, fuel - 1);
      }
    }
  }

  // ---------------------------------------------------------------- the fan-out

  lemma {:induction false} ToDocHas(fields: Fields<Json>, k: nat)
    requires k < |fields|
    requires forall i, j :: 0 <= i < j < |fields| ==> fields[i].0 != fields[j].0
    ensures fields[k].0 in ToDoc(fields) && ToDoc(fields)[fields[k].0] == fields[k].1
  {
    if k < |fields| - 1 {
      ToDocHas(fields[..|fields| - 1], k);
    }
  }

  /** The input the item selector builds for one work unit. */
  ghost function WorkUnitFields(cmd: Doc, k: nat, item: Json): Fields<Json>
    requires IsEnvelope(cmd)
  {
    [("schemaVersion", cmd["schemaVersion"]),
     ("commandId", cmd["commandId"]),
     ("correlationId", cmd["correlationId"]),
     ("causationId", cmd["causationId"]),
     ("idempotencyKey", KeyWith(cmd, ":B5:" + Decimal(k))),
     ("determinantDigest", cmd["determinantDigest"]),
     ("input", item)]
  }

  lemma WorkUnitSelected(cmd: Doc, doc: Doc, k: nat, item: Json)
    requires IsCommand(cmd) && Carries(doc, cmd)
    ensures FillAll(ITEM_SELECTOR, doc, Context(k, item)) == Some(WorkUnitFields(cmd, k, item))
  {
    CarriesEnvelope(doc, cmd);
    EnvelopePaths(doc);
    var key := cmd["idempotencyKey"].text;
    assert key + ":B5:" + Decimal(k) == key + (":B5:" + Decimal(k));
    FillEach(ITEM_SELECTOR, doc, Context(k, item), WorkUnitFields(cmd, k, item));
  }

  lemma WorkUnitDoc(cmd: Doc, k: nat, item: Json)
    requires IsEnvelope(cmd)
    ensures var input := ToDoc(WorkUnitFields(cmd, k, item));
            && IsEnvelope(input)
            && input["schemaVersion"] == cmd["schemaVersion"] && input["commandId"] == cmd["commandId"]
            && input["correlationId"] == cmd["correlationId"] && input["causationId"] == cmd["causationId"]
            && input["determinantDigest"] == cmd["determinantDigest"]
            && input["idempotencyKey"] == KeyWith(cmd, ":B5:" + Decimal(k)) && input["input"] == item
  {
    var fields := WorkUnitFields(cmd, k, item);
    ToDocHas(fields, 0);
    ToDocHas(fields, 1);
    ToDocHas(fields, 2);
    ToDocHas(fields, 3);
    ToDocHas(fields, 4);
    ToDocHas(fields, 5);
    ToDocHas(fields, 6);
  }

  /** One work unit succeeds in the machine exactly when its worker answers with a usable outcome. */
  lemma WorkerRun(world: World, w: Workflow, stage: Stage, cmd: Doc, k: nat, item: Json, input: Doc,
                  trace: seq<Event>, fuel: nat)
    requires stage.stageId == "B5" && IsEnvelope(cmd) && IsEnvelope(input) && fuel > 2
    requires input["schemaVersion"] == cmd["schemaVersion"] && input["commandId"] == cmd["commandId"]
    requires input["correlationId"] == cmd["correlationId"] && input["causationId"] == cmd["causationId"]
    requires input["determinantDigest"] == cmd["determinantDigest"]
    requires input["idempotencyKey"] == KeyWith(cmd, ":B5:" + Decimal(k)) && input["input"] == item
    ensures var (reply, after) :=
              Try(world, WorkerCall(w, stage, cmd, k, item), TRANSIENT_ERRORS, Retries(stage), 0, trace);
            var child := Run(world, WorkerMachine(w, stage), "B5Worker", input, trace, fuel);
            && child.trace == after
            && ((child.ending.Finished? && child.ending.success)
                <==> (reply.Returned? && Member(reply.value, "outcome").Some?
                      && Member(reply.value, "outcome") != Some(JStr(REDRIVE))))
  {
    var m := WorkerMachine(w, stage);
    EnvelopePaths(input);
    FillEcs(w, stage, ["input"], true, input, Context(0, JNull));
    var call := WorkerCall(w, stage, cmd, k, item);
    PolicyIsTry(world, call, stage, trace);
    var (reply, after) := Try(world, call, TRANSIENT_ERRORS, Retries(stage), 0, trace);
    if reply.Raised? {
      CatchAllCatches("workerError", "B5WorkerFailed", reply.error);
      var caught := input["workerError" := ErrorOutput(reply.error)];
      assert Run(world, m, "B5WorkerFailed", caught, after, fuel - 1) == Execution(Finished("B5WorkerFailed", false), after);
    } else {
      var stored := input["_B5" := reply.value];
      assert Slot("B5") == "_B5";
      LookupReply(stored, "_B5", EcsRunTaskToken, reply.value, "outcome");
      ChooseRedrive(["_B5", "outcome"], "B5WorkerFailed", "B5WorkerSucceeded", stored);
      assert Run(world, m, "B5WorkerFailed", stored, after, fuel - 2) == Execution(Finished("B5WorkerFailed", false), after);
      assert Run(world, m, "B5WorkerSucceeded", stored, after, fuel - 2)
             == Execution(Finished("B5WorkerSucceeded", true), after);
      var routed := Run(world, m, "B5WorkerOutcome", stored, after, fuel - 1);
      assert routed.trace == after;
    }
  }

  /** One item of a Map, as the interpreter runs it. */
  ghost function ItemStep(world: World, m: Machine, selector: Fields<Template>, doc: Doc, k: nat, item: Json,
                          trace: seq<Event>, fuel: nat): (bool, seq<Event>)
  {
    match FillAll(selector, doc, Context(k, item))
    case None => (false, trace)
    case Some(input) =>
      var child := Run(world, m, m.startAt, ToDoc(input), trace, fuel);
      (child.ending.Finished? && child.ending.success, child.trace)
  }

  /** One work unit, as the direct description runs it. */
  ghost function UnitStep(world: World, w: Workflow, stage: Stage, cmd: Doc, k: nat, item: Json, trace: seq<Event>)
    : (bool, seq<Event>)
    requires IsCommand(cmd)
  {
    var (reply, after) :=
      Try(world, WorkerCall(w, stage, cmd, k, item), TRANSIENT_ERRORS, Retries(stage), 0, trace);
    (reply.Returned? && Member(reply.value, "outcome").Some? && Member(reply.value, "outcome") != Some(JStr(REDRIVE)),
     after)
  }

  lemma ItemStepIsUnitStep(world: World, w: Workflow, stage: Stage, cmd: Doc, doc: Doc, k: nat, item: Json,
                           trace: seq<Event>, fuel: nat)
    requires stage.stageId == "B5" && IsCommand(cmd) && Carries(doc, cmd) && fuel > 2
    ensures ItemStep(world, WorkerMachine(w, stage), ITEM_SELECTOR, doc, k, item, trace, fuel)
            == UnitStep(world, w, stage, cmd, k, item, trace)
  {
    WorkUnitSelected(cmd, doc, k, item);
    WorkUnitDoc(cmd, k, item);
    WorkerRun(world, w, stage, cmd, k, item, ToDoc(WorkUnitFields(cmd, k, item)), trace, fuel);
  }

  lemma {:induction false} StepwiseItems(world: World, m: Machine, selector: Fields<Template>, w: Workflow, stage: Stage,
                                         cmd: Doc, doc: Doc, items: seq<Json>, k: nat, trace: seq<Event>, fuel: nat)
    requires IsCommand(cmd) && k <= |items|
    requires forall j: nat, item, t ::
               ItemStep(world, m, selector, doc, j, item, t, fuel) == UnitStep(world, w, stage, cmd, j, item, t)
    ensures RunItems(world, m, selector, doc, items, k, trace, fuel) == WorkUnits(world, w, stage, cmd, items, k, trace)
    decreases |items| - k
  {
    if k < |items| {
      var (ok, after) := ItemStep(world, m, selector, doc, k, items[k], trace, fuel);
      assert (ok, after) == UnitStep(world, w, stage, cmd, k, items[k], trace);
      if ok {
        StepwiseItems(world, m, selector, w, stage, cmd, doc, items, k + 1, after, fuel);
      }
    }
  }

  lemma ItemsRun(world: World, w: Workflow, stage: Stage, cmd: Doc, doc: Doc, items: seq<Json>, trace: seq<Event>,
                 fuel: nat)
    requires stage.stageId == "B5" && IsCommand(cmd) && Carries(doc, cmd) && fuel > 2
    ensures RunItems(world, WorkerMachine(w, stage), ITEM_SELECTOR, doc, items, 0, trace, fuel)
            == WorkUnits(world, w, stage, cmd, items, 0, trace)
  {
    forall j: nat, item, t
      ensures ItemStep(world, WorkerMachine(w, stage), ITEM_SELECTOR, doc, j, item, t, fuel)
              == UnitStep(world, w, stage, cmd, j, item, t)
    {
      ItemStepIsUnitStep(world, w, stage, cmd, doc, j, item, t, fuel);
    }
    StepwiseItems(world, WorkerMachine(w, stage), ITEM_SELECTOR, w, stage, cmd, doc, items, 0, trace, fuel);
  }

  /** The item reader of the fan-out finds its three members in the inventory, or fails. */
  lemma ReaderReads(doc: Doc, inventory: Option<Json>)
    requires Lookup(JObj(doc), ["_B4", "Payload", "output"]) == inventory
    ensures Reads(ITEM_READER, doc)
            == match inventory
               case None => None
               case Some(v) =>
                 (match (Member(v, "bucket"), Member(v, "key"), Member(v, "versionId"))
                  case (Some(b), Some(k), Some(n)) => Some([b, k, n])
                  case _ => None)
  {
    LookupFour(JObj(doc), "_B4", "Payload", "output", "bucket");
    LookupFour(JObj(doc), "_B4", "Payload", "output", "key");
    LookupFour(JObj(doc), "_B4", "Payload", "output", "versionId");
    var last := [["_B4", "Payload", "output", "versionId"]];
    var two := [["_B4", "Payload", "output", "key"]] + last;
    assert ITEM_READER[1..] == two && two[1..] == last && last[1..] == [];
    assert Reads([], doc) == Some([]);
    assert Reads(last, doc).None? ==> Reads(two, doc).None?;
    if inventory.Some? {
      var v := inventory.value;
      if Member(v, "versionId").Some? {
        var n := Member(v, "versionId").value;
        assert [n] + [] == [n];
        assert Reads(last, doc) == Some([n]);
        if Member(v, "key").Some? {
          var k := Member(v, "key").value;
          assert [k] + [n] == [k, n];
          if Member(v, "bucket").Some? {
            assert [Member(v, "bucket").value] + [k, n] == [Member(v, "bucket").value, k, n];
          }
        }
      }
    }
  }

  /** The Map state and everything behind it, up to the exported results. */
  ghost function MapPart(world: World, w: Workflow, stage: Stage, cmd: Doc, inventory: Json, trace: seq<Event>)
    : (Reply<Json>, seq<Event>)
    requires IsCommand(cmd)
  {
    match (Member(inventory, "bucket"), Member(inventory, "key"), Member(inventory, "versionId"))
    case (Some(bucket), Some(key), Some(version)) =>
      var location := [bucket, key, version];
      var listing := world.items(trace, location);
      var read := trace + [ItemsRead(location)];
      if listing.Raised? then (Raised(READER_FAILURE), read)
      else
        var (ok, worked) := WorkUnits(world, w, stage, cmd, listing.value, 0, read);
        if !ok then (Raised(THRESHOLD_EXCEEDED), worked)
        else (world.writer(worked), worked + [ResultsExported])
    case _ => (Raised(PARAMETER_FAILURE), trace)
  }

  /** A Map whose item reader and items behave as described behaves as described. */
  lemma MapRunsAbstractly(world: World, s: State, w: Workflow, stage: Stage, cmd: Doc, doc: Doc, inventory: Option<Json>,
                          trace: seq<Event>, fuel: nat)
    requires IsCommand(cmd) && s.DistributedMap? && Lookup(JObj(doc), s.concurrency).Some?
    requires Reads(s.reader, doc)
             == match inventory
                case None => None
                case Some(v) =>
                  (match (Member(v, "bucket"), Member(v, "key"), Member(v, "versionId"))
                   case (Some(b), Some(k), Some(n)) => Some([b, k, n])
                   case _ => None)
    requires forall items, t ::
               RunItems(world, s.processor, s.selector, doc, items, 0, t, fuel)
               == WorkUnits(world, w, stage, cmd, items, 0, t)
    ensures RunMap(world, s, doc, trace, fuel)
            == if inventory.None? then (Raised(PARAMETER_FAILURE), trace)
               else MapPart(world, w, stage, cmd, inventory.value, trace)
  {
  }

  lemma MapRuns(world: World, w: Workflow, stage: Stage, cmd: Doc, doc: Doc, inventory: Option<Json>, trace: seq<Event>,
                fuel: nat, error: string)
    requires stage.stageId == "B5" && IsCommand(cmd) && Carries(doc, cmd) && fuel > 2
    requires Lookup(JObj(doc), ["_B4", "Payload", "output"]) == inventory
    ensures RunMap(world, MapState(w, stage, error), doc, trace, fuel)
            == if inventory.None? then (Raised(PARAMETER_FAILURE), trace)
               else MapPart(world, w, stage, cmd, inventory.value, trace)
  {
    var s := MapState(w, stage, error);
    ReaderReads(doc, inventory);
    ConcurrencyIsThere(doc, cmd);
    forall items, t
      ensures RunItems(world, s.processor, s.selector, doc, items, 0, t, fuel)
              == WorkUnits(world, w, stage, cmd, items, 0, t)
    {
      ItemsRun(world, w, stage, cmd, doc, items, t, fuel);
    }
    MapRunsAbstractly(world, s, w, stage, cmd, doc, inventory, trace, fuel);
  }

  lemma ConcurrencyIsThere(doc: Doc, cmd: Doc)
    requires IsCommand(cmd) && Carries(doc, cmd)
    ensures Lookup(JObj(doc), ["baselineMapConcurrency"]).Some?
  {
    CarriesEnvelope(doc, cmd);
    EnvelopePaths(doc);
  }

  /** A Map state of the main machine whose part is known to come out as `result`. */
  lemma AtMapState(world: World, w: Workflow, targets: seq<string>, name: string, doc: Doc,
                   result: (Reply<Json>, seq<Event>), trace: seq<Event>, fuel: nat)
    requires Compilable(w, targets) && NoClash(w) && ErrorTerminal(w) in w.terminalStates && fuel > 1
    requires name in MachineOf(w, targets).states && MachineOf(w, targets).states[name].DistributedMap?
    requires MachineOf(w, targets).states[name].catchers == CatchAll("workflowError", ErrorTerminal(w))
    requires RunMap(world, MachineOf(w, targets).states[name], doc, trace, fuel - 1) == result
    ensures var s := MachineOf(w, targets).states[name];
            Run(world, MachineOf(w, targets), name, doc, trace, fuel)
            == if result.0.Raised?
               then Outcome(w, (if Uncatchable(result.0.error) then Broken else Reached(ErrorTerminal(w)), result.1))
               else Run(world, MachineOf(w, targets), s.next, doc[s.resultField := result.0.value], result.1, fuel - 1)
  {
    if result.0.Raised? {
      AtFailure(world, w, targets, result.0.error, doc, result.1, fuel);
    }
  }

  lemma AtMap(world: World, w: Workflow, targets: seq<string>, cmd: Doc, i: nat, doc: Doc, inventory: Option<Json>,
              trace: seq<Event>, fuel: nat)
    requires WellFormed(w, targets) && i < |w.stages| && w.stages[i].stageId == "B5" && fuel > 3
    requires IsCommand(cmd) && Carries(doc, cmd)
    requires Lookup(JObj(doc), ["_B4", "Payload", "output"]) == inventory
    ensures Run(world, MachineOf(w, targets), "B5", doc, trace, fuel)
            == if inventory.None? then Outcome(w, (Reached(ErrorTerminal(w)), trace))
               else
                 var (reply, after) := MapPart(world, w, w.stages[i], cmd, inventory.value, trace);
                 if reply.Raised?
                 then Outcome(w, (if Uncatchable(reply.error) then Broken else Reached(ErrorTerminal(w)), after))
                 else Run(world, MachineOf(w, targets), "B5Aggregate", doc["_B5" := reply.value], after, fuel - 1)
  {
    StateOfStage(w, targets, i, 0);
    MapRuns(world, w, w.stages[i], cmd, doc, inventory, trace, fuel - 1, ErrorTerminal(w));
    OrdinaryErrorsAreCatchable();
    AtMapState(world, w, targets, "B5", doc,
               if inventory.None? then (Raised(PARAMETER_FAILURE), trace)
               else MapPart(world, w, w.stages[i], cmd, inventory.value, trace), trace, fuel);
  }

  lemma AtAggregate(world: World, w: Workflow, targets: seq<string>, cmd: Doc, i: nat, doc: Doc, inventory: Json,
                    trace: seq<Event>, fuel: nat)
    requires WellFormed(w, targets) && i < |w.stages| && w.stages[i].stageId == "B5" && fuel > 2
    requires IsCommand(cmd) && Carries(doc, cmd) && "_B5" in doc
    requires Lookup(JObj(doc), ["_B4", "Payload", "output"]) == Some(inventory)
    ensures var (reply, after) := Try(world, AggregateCall(w, cmd, inventory, doc["_B5"]), AGGREGATE_TRANSIENT_ERRORS,
                                      3, 0, trace);
            Run(world, MachineOf(w, targets), "B5Aggregate", doc, trace, fuel)
            == AfterStage(world, w, targets, doc, "_B5Aggregate", LambdaInvoke, NextState(w, i), reply, after, fuel - 2)
  {
    StateOfStage(w, targets, i, 1);
    StateOfStage(w, targets, i, 2);
    CarriesEnvelope(doc, cmd);
    FillAggregate(w, doc, Context(0, JNull));
    SamePayloads(w, w.stages[i], targets[i], cmd, doc, inventory, doc["_B5"]);
    var call := AggregateCall(w, cmd, inventory, doc["_B5"]);
    AggregatePolicyIsTry(world, call, trace);
    AtTask(world, w, targets, "B5Aggregate", doc, Some(call.payload), trace, fuel);
    var (reply, after) := Try(world, call, AGGREGATE_TRANSIENT_ERRORS, 3, 0, trace);
    if reply.Returned? {
      var stored := doc["_B5Aggregate" := IntegrationResult(LambdaInvoke, reply.value)];
      LookupReply(stored, "_B5Aggregate", LambdaInvoke, reply.value, "outcome");
      AtOutcome(world, w, targets, "B5AggregateOutcome", ["_B5Aggregate", "Payload", "outcome"], NextState(w, i),
                stored, Member(reply.value, "outcome"), after, fuel - 1);
    }
  }

  lemma FanOutIsMapThenAggregate(world: World, w: Workflow, stage: Stage, cmd: Doc, inventory: Json, trace: seq<Event>)
    requires IsCommand(cmd)
    ensures var (mapped, worked) := MapPart(world, w, stage, cmd, inventory, trace);
            FanOut(world, w, stage, cmd, inventory, trace)
            == if mapped.Raised? then (mapped, worked)
               else Try(world, AggregateCall(w, cmd, inventory, mapped.value), AGGREGATE_TRANSIENT_ERRORS, 3, 0, worked)
  {
  }

  lemma InventoryPath(w: Workflow, targets: seq<string>, i: nat)
    requires WellFormed(w, targets) && i < |w.stages| && w.stages[i].stageId == "B5"
    ensures InputPath(Previous(w, targets, i)) == ["_B4", "Payload", "output"]
  {
    assert Slot("B4") == "_B4";
    assert "B4"[1] != "B5"[1];
  }

  /** The document after the fan-out, before the aggregation's reply is stored. */
  ghost function Mapped(doc: Doc, mapped: Reply<Json>): Doc
  {
    if mapped.Returned? then doc["_B5" := mapped.value] else doc
  }

  /** The fan-out stage of the machine runs the fan-out of the direct description. */
  lemma FanOutStage(world: World, w: Workflow, targets: seq<string>, cmd: Doc, i: nat, doc: Doc, input: Option<Json>,
                    trace: seq<Event>, fuel: nat)
    requires WellFormed(w, targets) && i < |w.stages| && w.stages[i].stageId == "B5" && fuel > 3
    requires IsCommand(cmd) && Carries(doc, cmd)
    requires Lookup(JObj(doc), InputPath(Previous(w, targets, i))) == input
    ensures input.None? ==>
              Run(world, MachineOf(w, targets), "B5", doc, trace, fuel) == Outcome(w, (Reached(ErrorTerminal(w)), trace))
    ensures input.Some? ==>
              var (reply, after) := FanOut(world, w, w.stages[i], cmd, input.value, trace);
              var (mapped, worked) := MapPart(world, w, w.stages[i], cmd, input.value, trace);
              Run(world, MachineOf(w, targets), "B5", doc, trace, fuel)
              == AfterStage(world, w, targets, Mapped(doc, mapped), "_B5Aggregate", LambdaInvoke, NextState(w, i),
                            reply, after, fuel - 3)
  {
    InventoryPath(w, targets, i);
    AtMap(world, w, targets, cmd, i, doc, input, trace, fuel);
    if input.Some? {
      var stage := w.stages[i];
      FanOutIsMapThenAggregate(world, w, stage, cmd, input.value, trace);
      var (mapped, worked) := MapPart(world, w, stage, cmd, input.value, trace);
      if mapped.Returned? {
        var stored := doc["_B5" := mapped.value];
        CarriesSlot(doc, cmd, "_B5", mapped.value);
        SlotKeepsInventory(doc, mapped.value);
        AtAggregate(world, w, targets, cmd, i, stored, input.value, worked, fuel - 1);
      }
    }
  }

  lemma SlotKeepsInventory(doc: Doc, v: Json)
    ensures Lookup(JObj(doc["_B5" := v]), ["_B4", "Payload", "output"])
            == Lookup(JObj(doc), ["_B4", "Payload", "output"])
  {
    assert "_B4"[2] != "_B5"[2];
    LookupThree(JObj(doc), "_B4", "Payload", "output");
    LookupThree(JObj(doc["_B5" := v]), "_B4", "Payload", "output");
  }

  // ---------------------------------------------------------------- the whole machine

  /** The next stage finds the reply's output where the exporter told it to look. */
  lemma OutputPath(w: Workflow, targets: seq<string>, i: nat, doc: Doc, slot: string, resource: Resource, reply: Json)
    requires Compilable(w, targets) && i + 1 < |w.stages|
    requires slot == StageSlot(w.stages[i]) && resource == StageResource(w.stages[i], targets[i])
    requires slot in doc && doc[slot] == IntegrationResult(resource, reply)
    ensures Lookup(JObj(doc), InputPath(Previous(w, targets, i + 1))) == Member(reply, "output")
  {
    LookupReply(doc, slot, resource, reply, "output");
  }

  ghost function StageSlot(stage: Stage): string
  {
    if stage.stageId == "B5" then "_B5Aggregate" else Slot(stage.stageId)
  }

  ghost function StageResource(stage: Stage, target: string): Resource
  {
    if stage.stageId == "B5" then LambdaInvoke else ResourceOf(target)
  }

  /** One stage of the machine, fan-out or not; `base` is the document its reply is stored in. */
  lemma OneStage(world: World, w: Workflow, targets: seq<string>, cmd: Doc, i: nat, doc: Doc, input: Option<Json>,
                 trace: seq<Event>, fuel: nat) returns (base: Doc, left: nat)
    requires WellFormed(w, targets) && i < |w.stages| && fuel > 3
    requires IsCommand(cmd) && Carries(doc, cmd)
    requires Lookup(JObj(doc), InputPath(Previous(w, targets, i))) == input
    ensures Carries(base, cmd) && left + 3 >= fuel
    ensures input.None? ==>
              Run(world, MachineOf(w, targets), w.stages[i].stageId, doc, trace, fuel)
              == Outcome(w, (Reached(ErrorTerminal(w)), trace))
    ensures input.Some? ==>
              var (reply, after) := RunStage(world, w, w.stages[i], targets[i], cmd, input.value, trace);
              Run(world, MachineOf(w, targets), w.stages[i].stageId, doc, trace, fuel)
              == AfterStage(world, w, targets, base, StageSlot(w.stages[i]), StageResource(w.stages[i], targets[i]),
                            NextState(w, i), reply, after, left)
  {
    var stage := w.stages[i];
    if stage.stageId == "B5" {
      FanOutStage(world, w, targets, cmd, i, doc, input, trace, fuel);
      left := fuel - 3;
      base := doc;
      if input.Some? {
        var mapped := MapPart(world, w, stage, cmd, input.value, trace).0;
        base := Mapped(doc, mapped);
        if mapped.Returned? {
          CarriesSlot(doc, cmd, "_B5", mapped.value);
        }
      }
    } else {
      PlainStage(world, w, targets, cmd, i, doc, input, trace, fuel);
      base, left := doc, fuel - 2;
    }
  }

  /** From stage `i` on, the machine and the direct description agree. */
  lemma {:induction false} Simulate(world: World, w: Workflow, targets: seq<string>, routes: seq<string>, cmd: Doc, i: nat,
                                    doc: Doc, input: Option<Json>, trace: seq<Event>, fuel: nat)
    requires WellFormed(w, targets) && i < |w.stages| && fuel >= 3 * (|w.stages| - i) + 2
    requires |routes| == |w.stages| && forall j :: 0 <= j < |routes| ==> routes[j] == ErrorTerminal(w)
    requires IsCommand(cmd) && Carries(doc, cmd)
    requires Lookup(JObj(doc), InputPath(Previous(w, targets, i))) == input
    ensures Run(world, MachineOf(w, targets), w.stages[i].stageId, doc, trace, fuel)
            == Outcome(w, From(world, w, targets, routes, cmd, i, input, trace))
    decreases |w.stages| - i, 1
  {
    var base, left := OneStage(world, w, targets, cmd, i, doc, input, trace, fuel);
    var machine := Run(world, MachineOf(w, targets), w.stages[i].stageId, doc, trace, fuel);
    var direct := From(world, w, targets, routes, cmd, i, input, trace);
    if input.None? {
      assert direct == (Reached(ErrorTerminal(w)), trace);
    } else {
      var (reply, after) := RunStage(world, w, w.stages[i], targets[i], cmd, input.value, trace);
      SimulateRest(world, w, targets, routes, cmd, i, base, reply, after, left, machine, direct);
    }
  }

  lemma {:induction false} SimulateRest(world: World, w: Workflow, targets: seq<string>, routes: seq<string>, cmd: Doc,
                                        i: nat, base: Doc, reply: Reply<Json>, after: seq<Event>, fuel: nat,
                                        machine: Execution, direct: (Verdict, seq<Event>))
    requires WellFormed(w, targets) && i < |w.stages| && fuel >= 3 * (|w.stages| - i) - 1
    requires |routes| == |w.stages| && forall j :: 0 <= j < |routes| ==> routes[j] == ErrorTerminal(w)
    requires IsCommand(cmd) && Carries(base, cmd)
    requires machine == AfterStage(world, w, targets, base, StageSlot(w.stages[i]), StageResource(w.stages[i], targets[i]),
                                   NextState(w, i), reply, after, fuel)
    requires direct == Proceed(world, w, targets, routes, cmd, i, reply, after)
    ensures machine == Outcome(w, direct)
    decreases |w.stages| - i, 0
  {
    var stage := w.stages[i];
    var slot, resource := StageSlot(stage), StageResource(stage, targets[i]);
    if reply.Raised? {
      assert direct == (if Uncatchable(reply.error) then Broken else Reached(ErrorTerminal(w)), after);
    } else if Member(reply.value, "outcome").None? {
      assert direct == (Broken, after);
    } else if Member(reply.value, "outcome").value == JStr(REDRIVE) {
      assert direct == (Reached(ErrorTerminal(w)), after);
    } else {
      var stored := base[slot := IntegrationResult(resource, reply.value)];
      var next := Run(world, MachineOf(w, targets), NextState(w, i), stored, after, fuel);
      assert machine == next;
      CarriesSlot(base, cmd, slot, IntegrationResult(resource, reply.value));
      if i + 1 < |w.stages| {
        var output := Member(reply.value, "output");
        OutputPath(w, targets, i, stored, slot, resource, reply.value);
        Simulate(world, w, targets, routes, cmd, i + 1, stored, output, after, fuel);
        assert direct == From(world, w, targets, routes, cmd, i + 1, output, after);
      } else {
        AtRouter(world, w, targets, stored, reply.value, after, fuel);
        assert direct == (Route(w, reply.value), after);
      }
    }
  }

  /**
    * Compilation preserves meaning: for every well-formed workflow, command and environment, the
    * exported machine makes the same calls in the same order with the same payloads and delays, and
    * ends in the same terminal, within three states per stage and two more.
    */
  lemma CompilationPreservesMeaning(world: World, w: Workflow, targets: seq<string>, cmd: Doc, fuel: nat)
    requires WellFormed(w, targets) && IsCommand(cmd) && fuel >= 3 * |w.stages| + 2
    ensures Start(world, MachineOf(w, targets), cmd, fuel) == Outcome(w, Direct(world, w, targets, cmd))
  {
    LookupOne(JObj(cmd), "input");
    Simulate(world, w, targets, seq(|w.stages|, _ => ErrorTerminal(w)), cmd, 0, cmd, Some(cmd["input"]), [], fuel);
  }
}
