/** Error routes: what the exporter keeps of the routes each stage declares. */
module CompilerRoutes {
  import opened Common
  import opened StateLanguage
  import opened WorkflowCompiler
  import opened Pipeline
  import opened CompilerCorrectness
  import opened CompilerSimulation

  ghost predicate DeclaresErrors(w: Workflow)
  {
    forall i :: 0 <= i < |w.stages| ==> w.stages[i].onError != []
  }

  /** Where each stage itself says its failures go. */
  ghost function DeclaredRoutes(w: Workflow): (routes: seq<string>)
    requires DeclaresErrors(w)
    ensures |routes| == |w.stages|
  {
    seq(|w.stages|, i requires 0 <= i < |w.stages| => DeclaredErrorTerminal(w.stages[i]))
  }

  ghost function Declared(world: World, w: Workflow, targets: seq<string>, cmd: Doc): (Verdict, seq<Event>)
    requires IsCommand(cmd) && w.terminalStates != [] && DeclaresErrors(w)
    requires |targets| == |w.stages| > 0
  {
    From(world, w, targets, DeclaredRoutes(w), cmd, 0, Some(cmd["input"]), [])
  }

  ghost function Ref(): Json
  {
    JObj(map["bucket" := JNull, "key" := JNull, "versionId" := JNull])
  }

  ghost function Good(): Json
  {
    JObj(map["outcome" := JStr("SUCCEEDED"), "output" := Ref()])
  }

  /** Everything succeeds until `k` things have happened; then the next call fails for good. */
  ghost function FailingAt(k: nat): World
  {
    World((t: seq<Event>, c: Invocation) => if |t| == k then Raised("Broken") else Returned(Good()),
          (t: seq<Event>, l: seq<Json>) => if |t| == k then Raised("Broken") else Returned([]),
          (t: seq<Event>) => Returned(JNull))
  }

  /** Number of events of the first `i` stages when all goes well and no work unit is listed. */
  ghost function EventsBefore(w: Workflow, i: nat): nat
    requires i <= |w.stages|
  {
    if i == 0 then 0 else EventsBefore(w, i - 1) + (if w.stages[i - 1].stageId == "B5" then 3 else 1)
  }

  lemma {:induction false} EventsRise(w: Workflow, i: nat, j: nat)
    requires i < j <= |w.stages|
    ensures EventsBefore(w, i) + (if w.stages[i].stageId == "B5" then 3 else 1) <= EventsBefore(w, j)
  {
    if i < j - 1 {
      EventsRise(w, i, j - 1);
    }
  }

  /** In `FailingAt`, a stage before the fatal event succeeds. */
  lemma StageSucceeds(w: Workflow, targets: seq<string>, cmd: Doc, i: nat, input: Json, trace: seq<Event>, k: nat)
    requires IsCommand(cmd) && |targets| == |w.stages| && i < |w.stages|
    requires w.stages[i].stageId == "B5" ==> input == Ref()
    requires |trace| + (if w.stages[i].stageId == "B5" then 3 else 1) <= k
    ensures var (reply, after) := RunStage(FailingAt(k), w, w.stages[i], targets[i], cmd, input, trace);
            reply == Returned(Good()) && |after| == |trace| + (if w.stages[i].stageId == "B5" then 3 else 1)
  {
  }

  lemma FatalCallIsFinal(call: Invocation, left: nat, trace: seq<Event>)
    ensures Try(FailingAt(|trace|), call, TRANSIENT_ERRORS, left, 0, trace).0 == Raised("Broken")
  {
    assert FailingAt(|trace|).task(trace, call) == Raised("Broken");
    assert |"Broken"| == 6 && forall e :: e in TRANSIENT_ERRORS ==> |e| > 6;
  }

  lemma PlainStageFails(w: Workflow, stage: Stage, target: string, cmd: Doc, input: Json, trace: seq<Event>)
    requires IsCommand(cmd) && stage.stageId != "B5"
    ensures RunStage(FailingAt(|trace|), w, stage, target, cmd, input, trace).0 == Raised("Broken")
  {
    FatalCallIsFinal(StageCall(w, stage, target, cmd, input), Retries(stage), trace);
  }

  lemma FanOutFails(w: Workflow, stage: Stage, target: string, cmd: Doc, input: Json, trace: seq<Event>)
    requires IsCommand(cmd) && stage.stageId == "B5" && input == Ref()
    ensures var reply := RunStage(FailingAt(|trace|), w, stage, target, cmd, input, trace).0;
            reply.Raised? && !Uncatchable(reply.error)
  {
  }

  lemma StageFails(w: Workflow, targets: seq<string>, cmd: Doc, i: nat, input: Json, trace: seq<Event>)
    requires IsCommand(cmd) && |targets| == |w.stages| && i < |w.stages|
    requires w.stages[i].stageId == "B5" ==> input == Ref()
    ensures var reply := RunStage(FailingAt(|trace|), w, w.stages[i], targets[i], cmd, input, trace).0;
            reply.Raised? && !Uncatchable(reply.error)
  {
    if w.stages[i].stageId == "B5" {
      FanOutFails(w, w.stages[i], targets[i], cmd, input, trace);
    } else {
      PlainStageFails(w, w.stages[i], targets[i], cmd, input, trace);
    }
  }

  lemma FailsHere(w: Workflow, targets: seq<string>, routes: seq<string>, cmd: Doc, i: nat, input: Json,
                  trace: seq<Event>, result: (Verdict, seq<Event>))
    requires IsCommand(cmd) && w.terminalStates != [] && |targets| == |routes| == |w.stages| && i < |w.stages|
    requires w.stages[i].stageId == "B5" ==> input == Ref()
    requires result == From(FailingAt(|trace|), w, targets, routes, cmd, i, Some(input), trace)
    ensures result.0 == Reached(routes[i])
  {
    StageFails(w, targets, cmd, i, input, trace);
    var (reply, after) := RunStage(FailingAt(|trace|), w, w.stages[i], targets[i], cmd, input, trace);
    RaisedStops(FailingAt(|trace|), w, targets, routes, cmd, i, input, trace, reply, after, result);
  }

  lemma RaisedStops(world: World, w: Workflow, targets: seq<string>, routes: seq<string>, cmd: Doc, i: nat, input: Json,
                    trace: seq<Event>, reply: Reply<Json>, after: seq<Event>, result: (Verdict, seq<Event>))
    requires IsCommand(cmd) && w.terminalStates != [] && |targets| == |routes| == |w.stages| && i < |w.stages|
    requires RunStage(world, w, w.stages[i], targets[i], cmd, input, trace) == (reply, after)
    requires reply.Raised? && !Uncatchable(reply.error)
    requires result == From(world, w, targets, routes, cmd, i, Some(input), trace)
    ensures result.0 == Reached(routes[i])
  {
    assert Proceed(world, w, targets, routes, cmd, i, reply, after) == (Reached(routes[i]), after);
  }

  lemma PassesHere(w: Workflow, targets: seq<string>, routes: seq<string>, cmd: Doc, i: nat, input: Json,
                   trace: seq<Event>, k: nat) returns (after: seq<Event>)
    requires IsCommand(cmd) && w.terminalStates != [] && |targets| == |routes| == |w.stages| && i + 1 < |w.stages|
    requires w.stages[i].stageId == "B5" ==> input == Ref()
    requires |trace| == EventsBefore(w, i) && EventsBefore(w, i + 1) <= k
    ensures |after| == EventsBefore(w, i + 1)
    ensures From(FailingAt(k), w, targets, routes, cmd, i, Some(input), trace)
            == From(FailingAt(k), w, targets, routes, cmd, i + 1, Some(Ref()), after)
  {
    StageSucceeds(w, targets, cmd, i, input, trace, k);
    after := RunStage(FailingAt(k), w, w.stages[i], targets[i], cmd, input, trace).1;
    GoodProceeds(FailingAt(k), w, targets, routes, cmd, i, after);
  }

  lemma {:induction false} FailsAtStage(w: Workflow, targets: seq<string>, routes: seq<string>, cmd: Doc, i: nat, j: nat,
                                        input: Json, trace: seq<Event>)
    requires WellFormed(w, targets) && IsCommand(cmd) && |routes| == |w.stages| && i <= j < |w.stages|
    requires i > 0 ==> input == Ref()
    requires |trace| == EventsBefore(w, i)
    ensures From(FailingAt(EventsBefore(w, j)), w, targets, routes, cmd, i, Some(input), trace).0 == Reached(routes[j])
    decreases j - i
  {
    if i == j {
      FailsHere(w, targets, routes, cmd, i, input, trace,
                From(FailingAt(EventsBefore(w, j)), w, targets, routes, cmd, i, Some(input), trace));
    } else {
      EventsRise(w, i, j);
      if i + 1 < j {
        EventsRise(w, i + 1, j);
      }
      var after := PassesHere(w, targets, routes, cmd, i, input, trace, EventsBefore(w, j));
      FailsAtStage(w, targets, routes, cmd, i + 1, j, Ref(), after);
    }
  }

  /** A good reply of a stage that is not the last hands its artifact to the next. */
  lemma GoodProceeds(world: World, w: Workflow, targets: seq<string>, routes: seq<string>, cmd: Doc, i: nat,
                     after: seq<Event>)
    requires IsCommand(cmd) && w.terminalStates != []
    requires |targets| == |routes| == |w.stages| && i + 1 < |w.stages|
    ensures Proceed(world, w, targets, routes, cmd, i, Returned(Good()), after)
            == From(world, w, targets, routes, cmd, i + 1, Some(Ref()), after)
  {
    assert |"outcome"| == 7 && |"output"| == 6;
    assert |"SUCCEEDED"| == 9 && |REDRIVE| == 16;
  }

  /**
    * The exported machine honours every stage's declared error route exactly when all stages declare
    * the same one: the exporter only ever looks at the first stage's.
    */
  lemma DeclaredRoutesKeptIff(w: Workflow, targets: seq<string>, cmd: Doc, fuel: nat)
    requires WellFormed(w, targets) && DeclaresErrors(w) && IsCommand(cmd) && fuel >= 3 * |w.stages| + 2
    ensures (forall world :: Start(world, MachineOf(w, targets), cmd, fuel) == Outcome(w, Declared(world, w, targets, cmd)))
            <==> (forall i :: 0 <= i < |w.stages| ==> DeclaredErrorTerminal(w.stages[i]) == ErrorTerminal(w))
  {
    var uniform := seq(|w.stages|, _ => ErrorTerminal(w));
    if forall i :: 0 <= i < |w.stages| ==> DeclaredErrorTerminal(w.stages[i]) == ErrorTerminal(w) {
      assert DeclaredRoutes(w) == uniform;
      forall world
        ensures Start(world, MachineOf(w, targets), cmd, fuel) == Outcome(w, Declared(world, w, targets, cmd))
      {
        CompilationPreservesMeaning(world, w, targets, cmd, fuel);
      }
    } else {
      var j :| 0 <= j < |w.stages| && DeclaredErrorTerminal(w.stages[j]) != ErrorTerminal(w);
      var world := FailingAt(EventsBefore(w, j));
      CompilationPreservesMeaning(world, w, targets, cmd, fuel);
      FailsAtStage(w, targets, uniform, cmd, 0, j, cmd["input"], []);
      FailsAtStage(w, targets, DeclaredRoutes(w), cmd, 0, j, cmd["input"], []);
      assert Start(world, MachineOf(w, targets), cmd, fuel) != Outcome(w, Declared(world, w, targets, cmd));
    }
  }
}
