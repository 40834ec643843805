/** The shape and the cost of exported machines: closed, acyclic, bounded retries, bounded time. */
module CompilerBounds {
  import opened Common
  import opened StateLanguage
  import opened WorkflowCompiler
  import opened Pipeline
  import opened CompilerCorrectness
  import opened CompilerSimulation

  // ---------------------------------------------------------------- the state graph

  ghost predicate LeadsTo(s: State, t: string)
  {
    match s
    case Succeed => false
    case Fail(_) => false
    case Choice(rules, default) => t == default || exists r :: r in rules && r.next == t
    case Task(_, _, _, _, _, _, _, catchers, next) => t == next || exists c :: c in catchers && c.next == t
    case DistributedMap(_, _, _, _, _, catchers, next) => t == next || exists c :: c in catchers && c.next == t
  }

  /** Position of a state: three slots per stage, then the router, then the terminals. */
  ghost predicate LevelIs(w: Workflow, name: string, level: nat)
  {
    || (exists i: nat, p: nat :: i < |w.stages| && p < |StateNames(w.stages[i])|
                                 && name == StateNames(w.stages[i])[p] && level == 3 * i + p)
    || (name == ROUTER && level == 3 * |w.stages|)
    || (name in w.terminalStates && level == 3 * |w.stages| + 1)
  }

  lemma LevelIsUnique(w: Workflow, name: string, a: nat, b: nat)
    requires NoClash(w) && LevelIs(w, name, a) && LevelIs(w, name, b)
    ensures a == b
  {
    if i: nat, p: nat :| i < |w.stages| && p < |StateNames(w.stages[i])|
                         && name == StateNames(w.stages[i])[p] && a == 3 * i + p {
      if j: nat, q: nat :| j < |w.stages| && q < |StateNames(w.stages[j])|
                           && name == StateNames(w.stages[j])[q] && b == 3 * j + q {
        NamesWithinStage(w.stages[i]);
        assert i == j && p == q;
      }
    } else if j: nat, q: nat :| j < |w.stages| && q < |StateNames(w.stages[j])|
                                && name == StateNames(w.stages[j])[q] && b == 3 * j + q {
    }
  }

  /** Every state but the terminals leads further down, and only to states there are. */
  ghost predicate Descends(w: Workflow, targets: seq<string>, level: nat, t: string)
    requires Compilable(w, targets)
  {
    t in MachineOf(w, targets).states && exists l: nat :: LevelIs(w, t, l) && l > level
  }

  lemma TerminalsDescend(w: Workflow, targets: seq<string>, level: nat, t: string)
    requires Compilable(w, targets) && NoClash(w) && t in w.terminalStates && level <= 3 * |w.stages|
    ensures Descends(w, targets, level, t)
  {
    StateOf(w, targets, (t, TerminalState(t, w)));
    assert LevelIs(w, t, 3 * |w.stages| + 1);
  }

  lemma FirstStateDescends(w: Workflow, targets: seq<string>, i: nat, level: nat)
    requires Compilable(w, targets) && NoClash(w) && i < |w.stages| && level < 3 * i
    ensures Descends(w, targets, level, w.stages[i].stageId)
  {
    StateOfStage(w, targets, i, 0);
    assert StateNames(w.stages[i])[0] == w.stages[i].stageId;
    assert LevelIs(w, w.stages[i].stageId, 3 * i + 0);
  }

  lemma NextDescends(w: Workflow, targets: seq<string>, i: nat, level: nat)
    requires Compilable(w, targets) && NoClash(w) && i < |w.stages| && level < 3 * (i + 1)
    ensures Descends(w, targets, level, NextState(w, i))
  {
    if i + 1 < |w.stages| {
      FirstStateDescends(w, targets, i + 1, level);
    } else {
      StateOf(w, targets, (ROUTER, TerminalRouter(w)));
      assert LevelIs(w, ROUTER, 3 * |w.stages|);
    }
  }

  lemma WithinStageDescends(w: Workflow, targets: seq<string>, i: nat, p: nat)
    requires Compilable(w, targets) && NoClash(w) && i < |w.stages| && p + 1 < |StateNames(w.stages[i])|
    ensures Descends(w, targets, 3 * i + p, StateNames(w.stages[i])[p + 1])
  {
    StateOfStage(w, targets, i, p + 1);
    assert LevelIs(w, StateNames(w.stages[i])[p + 1], 3 * i + (p + 1));
  }

  /** Within a stage, a state leads to the error terminal, to the next state, or to the next stage. */
  lemma LeadsOnwards(w: Workflow, targets: seq<string>, i: nat, p: nat, t: string)
    requires WellFormed(w, targets) && i < |w.stages| && p < |EntriesOf(w, targets, i)|
    requires LeadsTo(EntriesOf(w, targets, i)[p].1, t)
    ensures |EntriesOf(w, targets, i)| == |StateNames(w.stages[i])|
    ensures t == ErrorTerminal(w)
            || t == if p + 1 < |StateNames(w.stages[i])| then StateNames(w.stages[i])[p + 1] else NextState(w, i)
  {
  }

  lemma StageDescends(w: Workflow, targets: seq<string>, i: nat, p: nat, t: string)
    requires WellFormed(w, targets) && i < |w.stages| && p < |EntriesOf(w, targets, i)|
    requires LeadsTo(EntriesOf(w, targets, i)[p].1, t)
    ensures Descends(w, targets, 3 * i + p, t)
  {
    LeadsOnwards(w, targets, i, p, t);
    if t == ErrorTerminal(w) {
      TerminalsDescend(w, targets, 3 * i + p, t);
    } else if p + 1 < |StateNames(w.stages[i])| {
      WithinStageDescends(w, targets, i, p);
    } else {
      NextDescends(w, targets, i, 3 * i + p);
    }
  }

  lemma {:induction false} RouterRulesLead(terminals: seq<string>, default: string, variable: Path)
    ensures forall r :: r in RouterRules(terminals, default, variable) ==> r.next in terminals
  {
    if terminals != [] {
      RouterRulesLead(terminals[1..], default, variable);
    }
  }

  /** The start and every transition lead to a state there is. */
  ghost predicate Closed(m: Machine)
  {
    && m.startAt in m.states
    && forall name, t :: name in m.states && LeadsTo(m.states[name], t) ==> t in m.states
  }

  /** The item processor of a Map, if the state is one, is closed and acyclic and holds no further Map. */
  ghost predicate ProcessorInOrder(s: State)
  {
    s.DistributedMap? ==>
      && Closed(s.processor) && Rises(s.processor, WORKER_LEVELS)
      && forall name :: name in s.processor.states ==> !s.processor.states[name].DistributedMap?
  }

  const WORKER_LEVELS: map<string, nat> :=
    map["B5Worker" := 0, "B5WorkerOutcome" := 1, "B5WorkerSucceeded" := 2, "B5WorkerFailed" := 2]

  lemma WorkerInOrder(w: Workflow, stage: Stage, error: string)
    ensures ProcessorInOrder(MapState(w, stage, error))
  {
    var m := WorkerMachine(w, stage);
    WorkerStatesAre(w, stage);
    forall name, t | name in m.states && LeadsTo(m.states[name], t)
      ensures t in m.states && name in WORKER_LEVELS && t in WORKER_LEVELS && WORKER_LEVELS[name] < WORKER_LEVELS[t]
    {
      WorkerLeads(w, stage, name, t);
    }
  }

  lemma WorkerStatesAre(w: Workflow, stage: Stage)
    ensures var m := WorkerMachine(w, stage);
            && m.states.Keys == WORKER_LEVELS.Keys && m.startAt in m.states
            && forall name :: name in m.states ==> !m.states[name].DistributedMap?
    ensures WORKER_LEVELS["B5Worker"] == 0 && WORKER_LEVELS["B5WorkerOutcome"] == 1
    ensures WORKER_LEVELS["B5WorkerSucceeded"] == 2 && WORKER_LEVELS["B5WorkerFailed"] == 2
  {
    WorkerNames();
  }

  lemma WorkerNames()
    ensures "B5Worker" != "B5WorkerOutcome" && "B5Worker" != "B5WorkerSucceeded" && "B5Worker" != "B5WorkerFailed"
    ensures "B5WorkerOutcome" != "B5WorkerSucceeded" && "B5WorkerOutcome" != "B5WorkerFailed"
    ensures "B5WorkerSucceeded" != "B5WorkerFailed"
  {
    assert |"B5Worker"| == 8 && |"B5WorkerOutcome"| == 15 && |"B5WorkerSucceeded"| == 17 && |"B5WorkerFailed"| == 14;
  }

  lemma WorkerLeads(w: Workflow, stage: Stage, name: string, t: string)
    requires name in WorkerMachine(w, stage).states && LeadsTo(WorkerMachine(w, stage).states[name], t)
    ensures (name == "B5Worker" && (t == "B5WorkerOutcome" || t == "B5WorkerFailed"))
            || (name == "B5WorkerOutcome" && (t == "B5WorkerSucceeded" || t == "B5WorkerFailed"))
  {
    WorkerNames();
  }

  /** Some numbering of the states rises along every transition. */
  ghost predicate Rises(m: Machine, level: map<string, nat>)
  {
    forall name, t :: name in m.states && LeadsTo(m.states[name], t)
                      ==> name in level && t in level && level[name] < level[t]
  }

  lemma EdgeDescends(w: Workflow, targets: seq<string>, name: string, t: string)
    requires WellFormed(w, targets) && name in MachineOf(w, targets).states
    requires LeadsTo(MachineOf(w, targets).states[name], t)
    ensures exists l: nat :: LevelIs(w, name, l) && Descends(w, targets, l, t)
  {
    var e := (name, MachineOf(w, targets).states[name]);
    StateComesFrom(w, targets, name);
    if i: nat, p: nat :| Writes(w, targets, i, p, e) {
      EntryNames(w, targets, i, p, e);
      StageDescends(w, targets, i, p, t);
      assert LevelIs(w, name, 3 * i + p);
    } else if e == (ROUTER, TerminalRouter(w)) {
      RouterRulesLead(w.terminalStates, w.terminalStates[0],
                      [Slot(w.stages[|w.stages| - 1].stageId), "Payload", "terminalOutcome"]);
      assert t in w.terminalStates;
      TerminalsDescend(w, targets, 3 * |w.stages|, t);
      assert LevelIs(w, name, 3 * |w.stages|);
    }
  }

  lemma EveryStateHasLevel(w: Workflow, targets: seq<string>, name: string)
    requires Compilable(w, targets) && name in MachineOf(w, targets).states
    ensures exists l: nat :: LevelIs(w, name, l)
  {
    var e := (name, MachineOf(w, targets).states[name]);
    StateComesFrom(w, targets, name);
    if i: nat, p: nat :| Writes(w, targets, i, p, e) {
      EntryNames(w, targets, i, p, e);
      assert LevelIs(w, name, 3 * i + p);
    } else if name == ROUTER {
      assert LevelIs(w, name, 3 * |w.stages|);
    } else {
      assert LevelIs(w, name, 3 * |w.stages| + 1);
    }
  }

  ghost function LevelOf(w: Workflow, targets: seq<string>, name: string): (l: nat)
    requires Compilable(w, targets) && name in MachineOf(w, targets).states
    ensures LevelIs(w, name, l)
  {
    EveryStateHasLevel(w, targets, name);
    var l: nat :| LevelIs(w, name, l);
    l
  }

  ghost function Levels(w: Workflow, targets: seq<string>): map<string, nat>
    requires Compilable(w, targets)
  {
    map name | name in MachineOf(w, targets).states :: LevelOf(w, targets, name)
  }

  lemma EntryInOrder(w: Workflow, stage: Stage, target: string, input: Path, next: string, error: string, p: nat)
    requires p < |StageEntries(w, stage, target, input, next, error)|
    ensures ProcessorInOrder(StageEntries(w, stage, target, input, next, error)[p].1)
  {
    WorkerInOrder(w, stage, error);
  }

  lemma ProcessorsInOrder(w: Workflow, targets: seq<string>, name: string)
    requires WellFormed(w, targets) && name in MachineOf(w, targets).states
    ensures ProcessorInOrder(MachineOf(w, targets).states[name])
  {
    var e := (name, MachineOf(w, targets).states[name]);
    StateComesFrom(w, targets, name);
    if i: nat, p: nat :| Writes(w, targets, i, p, e) {
      EntryInOrder(w, w.stages[i], targets[i], InputPath(Previous(w, targets, i)), NextState(w, i), ErrorTerminal(w), p);
    }
  }

  /** No transition dangles and no execution can loop, in the machine and in the item processor of its Map. */
  lemma ExportedGraphIsClosedAndAcyclic(w: Workflow, targets: seq<string>)
    requires WellFormed(w, targets)
    ensures Closed(MachineOf(w, targets)) && Rises(MachineOf(w, targets), Levels(w, targets))
    ensures forall name :: name in MachineOf(w, targets).states ==>
                             ProcessorInOrder(MachineOf(w, targets).states[name])
  {
    var m := MachineOf(w, targets);
    StateOfStage(w, targets, 0, 0);
    forall name | name in m.states ensures ProcessorInOrder(m.states[name]) {
      ProcessorsInOrder(w, targets, name);
    }
    forall name, t | name in m.states && LeadsTo(m.states[name], t)
      ensures t in m.states && LevelOf(w, targets, name) < LevelOf(w, targets, t)
    {
      EdgeDescends(w, targets, name, t);
      var l: nat :| LevelIs(w, name, l) && Descends(w, targets, l, t);
      var below: nat :| LevelIs(w, t, below) && below > l;
      LevelIsUnique(w, name, l, LevelOf(w, targets, name));
      LevelIsUnique(w, t, below, LevelOf(w, targets, t));
    }
  }

  // ---------------------------------------------------------------- retries

  /** How often a task was called along a trace. */
  function Calls(trace: seq<Event>): nat
  {
    if trace == [] then 0
    else
      var last := |trace| - 1;
      Calls(trace[..last]) + (if trace[last].Invoked? then 1 else 0)
  }

  /** Seconds spent waiting between attempts. */
  function Waiting(trace: seq<Event>): nat
  {
    if trace == [] then 0
    else
      var last := |trace| - 1;
      Waiting(trace[..last]) + (if trace[last].Waited? then trace[last].seconds else 0)
  }

  /** Seconds granted to task attempts: every attempt may use its whole timeout. */
  function Granted(trace: seq<Event>): nat
  {
    if trace == [] then 0
    else
      var last := |trace| - 1;
      Granted(trace[..last]) + (if trace[last].Invoked? then trace[last].call.timeout else 0)
  }

  /** 2^(k+1) + 2^(k+2) + ... + 2^(k+left), the delays of `left` retries from the `k`-th on. */
  function Delay(k: nat, left: nat): nat
    decreases left
  {
    if left == 0 then 0 else 2 * Pow(2, k) + Delay(k + 1, left - 1)
  }

  lemma {:induction false} DelayClosedForm(k: nat, left: nat)
    ensures Delay(k, left) == 2 * Pow(2, k) * (Pow(2, left) - 1)
    decreases left
  {
    if left > 0 {
      DelayClosedForm(k + 1, left - 1);
      var a: int, b: int := Pow(2, k), Pow(2, left - 1);
      assert 2 * a + 2 * (2 * a) * (b - 1) == 2 * a * (2 * b - 1);
    }
  }

  /** From trace `a` to trace `b` at most so many calls, seconds of waiting and seconds granted are added. */
  predicate Adds(a: seq<Event>, b: seq<Event>, calls: nat, waiting: nat, granted: nat)
  {
    Calls(b) <= Calls(a) + calls && Waiting(b) <= Waiting(a) + waiting && Granted(b) <= Granted(a) + granted
  }

  lemma AddEvent(trace: seq<Event>, e: Event)
    ensures Calls(trace + [e]) == Calls(trace) + (if e.Invoked? then 1 else 0)
    ensures Waiting(trace + [e]) == Waiting(trace) + (if e.Waited? then e.seconds else 0)
    ensures Granted(trace + [e]) == Granted(trace) + (if e.Invoked? then e.call.timeout else 0)
  {
    assert (trace + [e])[..|trace|] == trace;
  }

  /**
    * A task with `left` retries runs at least once and at most `left + 1` times, and waits at most
    * 2^(k+1) (2^left - 1) seconds between the attempts.
    */
  lemma {:induction false} TryIsBounded(world: World, call: Invocation, transient: seq<string>, left: nat, k: nat,
                                        trace: seq<Event>)
    ensures var after := Try(world, call, transient, left, k, trace).1;
            && Calls(trace) < Calls(after) <= Calls(trace) + left + 1
            && Waiting(after) <= Waiting(trace) + 2 * Pow(2, k) * (Pow(2, left) - 1)
  {
    TryAdds(world, call, transient, left, k, trace);
    DelayClosedForm(k, left);
  }

  lemma {:induction false} TryAdds(world: World, call: Invocation, transient: seq<string>, left: nat, k: nat,
                                   trace: seq<Event>)
    ensures var after := Try(world, call, transient, left, k, trace).1;
            && Calls(trace) < Calls(after)
            && Adds(trace, after, left + 1, Delay(k, left), (left + 1) * call.timeout)
    decreases left
  {
    var after := trace + [Invoked(call)];
    var reply := world.task(trace, call);
    AddEvent(trace, Invoked(call));
    OneMoreUnit(left, call.timeout);
    if reply.Raised? && reply.error in transient && left > 0 {
      var waited := after + [Waited(2 * Pow(2, k))];
      AddEvent(after, Waited(2 * Pow(2, k)));
      TryAdds(world, call, transient, left - 1, k + 1, waited);
    }
  }

  /** The bound is reached: a task that keeps timing out is called `left + 1` times. */
  lemma {:induction false} TryReachesBound(world: World, call: Invocation, transient: seq<string>, left: nat, k: nat,
                                           trace: seq<Event>)
    requires "States.Timeout" in transient
    requires forall t, c :: world.task(t, c) == Raised("States.Timeout")
    ensures var after := Try(world, call, transient, left, k, trace).1;
            && Calls(after) == Calls(trace) + left + 1
            && Waiting(after) == Waiting(trace) + Delay(k, left)
    decreases left
  {
    var after := trace + [Invoked(call)];
    assert world.task(trace, call) == Raised("States.Timeout");
    if left > 0 {
      var waited := after + [Waited(2 * Pow(2, k))];
      TryReachesBound(world, call, transient, left - 1, k + 1, waited);
    }
  }

  // ---------------------------------------------------------------- stages

  /** No inventory lists more than `n` work units. */
  ghost predicate ListsAtMost(world: World, n: nat)
  {
    forall t, l :: world.items(t, l).Returned? ==> |world.items(t, l).value| <= n
  }

  /** One work unit or one plain stage: attempts, delays, seconds at the timeout. */
  function UnitCalls(stage: Stage): nat
  {
    Retries(stage) + 1
  }

  function UnitDelay(stage: Stage): nat
  {
    Delay(0, Retries(stage))
  }

  function UnitTime(stage: Stage): nat
  {
    (Retries(stage) + 1) * stage.timeoutSeconds
  }

  const AGGREGATE_CALLS: nat := 4
  const AGGREGATE_DELAY: nat := 14
  const AGGREGATE_TIME: nat := 1200

  /** What a stage may take when at most `n` work units are listed: the fan-out adds the aggregation. */
  function StageCalls(stage: Stage, n: nat): nat
  {
    if stage.stageId == "B5" then n * UnitCalls(stage) + AGGREGATE_CALLS else UnitCalls(stage)
  }

  function StageDelay(stage: Stage, n: nat): nat
  {
    if stage.stageId == "B5" then n * UnitDelay(stage) + AGGREGATE_DELAY else UnitDelay(stage)
  }

  function StageTime(stage: Stage, n: nat): nat
  {
    if stage.stageId == "B5" then n * UnitTime(stage) + AGGREGATE_TIME else UnitTime(stage)
  }

  lemma OneMoreUnit(m: nat, x: nat)
    ensures (m + 1) * x == x + m * x
  {
  }

  lemma MoreUnits(m: nat, n: nat, x: nat)
    requires m <= n
    ensures m * x <= n * x
  {
  }

  lemma UnitAdds(world: World, w: Workflow, stage: Stage, cmd: Doc, k: nat, item: Json, trace: seq<Event>)
    requires IsCommand(cmd)
    ensures Adds(trace, Try(world, WorkerCall(w, stage, cmd, k, item), TRANSIENT_ERRORS, Retries(stage), 0, trace).1,
                 UnitCalls(stage), UnitDelay(stage), UnitTime(stage))
  {
    TryAdds(world, WorkerCall(w, stage, cmd, k, item), TRANSIENT_ERRORS, Retries(stage), 0, trace);
  }

  /** One unit and then `m` more are `m + 1` units. */
  lemma UnitsCompose(stage: Stage, m: nat, trace: seq<Event>, after: seq<Event>, last: seq<Event>)
    requires Adds(trace, after, UnitCalls(stage), UnitDelay(stage), UnitTime(stage))
    requires Adds(after, last, m * UnitCalls(stage), m * UnitDelay(stage), m * UnitTime(stage))
    ensures Adds(trace, last, (m + 1) * UnitCalls(stage), (m + 1) * UnitDelay(stage), (m + 1) * UnitTime(stage))
  {
    OneMoreUnit(m, UnitCalls(stage));
    OneMoreUnit(m, UnitDelay(stage));
    OneMoreUnit(m, UnitTime(stage));
  }

  lemma {:induction false} WorkUnitsAdd(world: World, w: Workflow, stage: Stage, cmd: Doc, items: seq<Json>, k: nat,
                                        trace: seq<Event>, m: nat)
    requires IsCommand(cmd) && k + m == |items|
    ensures Adds(trace, WorkUnits(world, w, stage, cmd, items, k, trace).1,
                 m * UnitCalls(stage), m * UnitDelay(stage), m * UnitTime(stage))
    decreases m
  {
    if m > 0 {
      var (reply, after) :=
        Try(world, WorkerCall(w, stage, cmd, k, items[k]), TRANSIENT_ERRORS, Retries(stage), 0, trace);
      UnitAdds(world, w, stage, cmd, k, items[k], trace);
      WorkUnitsAdd(world, w, stage, cmd, items, k + 1, after, m - 1);
      UnitsCompose(stage, m - 1, trace, after, WorkUnits(world, w, stage, cmd, items, k + 1, after).1);
      MoreUnits(1, m, UnitCalls(stage));
      MoreUnits(1, m, UnitDelay(stage));
      MoreUnits(1, m, UnitTime(stage));
    }
  }

  lemma MapPartAdds(world: World, w: Workflow, stage: Stage, cmd: Doc, inventory: Json, trace: seq<Event>, n: nat)
    requires IsCommand(cmd) && ListsAtMost(world, n)
    ensures Adds(trace, MapPart(world, w, stage, cmd, inventory, trace).1,
                 n * UnitCalls(stage), n * UnitDelay(stage), n * UnitTime(stage))
  {
    match (Member(inventory, "bucket"), Member(inventory, "key"), Member(inventory, "versionId"))
    case (Some(bucket), Some(key), Some(version)) =>
      var location := [bucket, key, version];
      var listing, read := world.items(trace, location), trace + [ItemsRead(location)];
      AddEvent(trace, ItemsRead(location));
      if listing.Returned? {
        var worked := WorkUnits(world, w, stage, cmd, listing.value, 0, read).1;
        WorkUnitsAdd(world, w, stage, cmd, listing.value, 0, read, |listing.value|);
        MoreUnits(|listing.value|, n, UnitCalls(stage));
        MoreUnits(|listing.value|, n, UnitDelay(stage));
        MoreUnits(|listing.value|, n, UnitTime(stage));
        AddEvent(worked, ResultsExported);
      }
    case _ =>
  }

  lemma AggregateAdds(world: World, w: Workflow, cmd: Doc, inventory: Json, results: Json, trace: seq<Event>)
    requires IsCommand(cmd)
    ensures Adds(trace, Try(world, AggregateCall(w, cmd, inventory, results), AGGREGATE_TRANSIENT_ERRORS, 3, 0, trace).1,
                 AGGREGATE_CALLS, AGGREGATE_DELAY, AGGREGATE_TIME)
  {
    TryAdds(world, AggregateCall(w, cmd, inventory, results), AGGREGATE_TRANSIENT_ERRORS, 3, 0, trace);
    assert Pow(2, 1) == 2 && Pow(2, 2) == 4 && Pow(2, 3) == 8;
    DelayClosedForm(0, 3);
  }

  lemma FanOutAdds(world: World, w: Workflow, stage: Stage, cmd: Doc, inventory: Json, trace: seq<Event>, n: nat)
    requires IsCommand(cmd) && ListsAtMost(world, n) && stage.stageId == "B5"
    ensures Adds(trace, FanOut(world, w, stage, cmd, inventory, trace).1,
                 StageCalls(stage, n), StageDelay(stage, n), StageTime(stage, n))
  {
    var (mapped, worked) := MapPart(world, w, stage, cmd, inventory, trace);
    FanOutIsMapThenAggregate(world, w, stage, cmd, inventory, trace);
    MapPartAdds(world, w, stage, cmd, inventory, trace, n);
    if mapped.Returned? {
      AggregateAdds(world, w, cmd, inventory, mapped.value, worked);
    }
  }

  /** Every stage, the fan-out with its work units and its aggregation included, keeps within its bounds. */
  lemma StageAdds(world: World, w: Workflow, stage: Stage, target: string, cmd: Doc, input: Json, trace: seq<Event>,
                  n: nat)
    requires IsCommand(cmd) && ListsAtMost(world, n)
    ensures Adds(trace, RunStage(world, w, stage, target, cmd, input, trace).1,
                 StageCalls(stage, n), StageDelay(stage, n), StageTime(stage, n))
  {
    if stage.stageId == "B5" {
      FanOutAdds(world, w, stage, cmd, input, trace, n);
    } else {
      TryAdds(world, StageCall(w, stage, target, cmd, input), TRANSIENT_ERRORS, Retries(stage), 0, trace);
    }
  }

  /**
    * With m retries a plain stage is called at most m + 1 times and waits at most 2 (2^m - 1) seconds, and
    * one that keeps timing out reaches both.  The fan-out takes that much for each of at most `n` work
    * units, and 4 calls and 14 seconds for its aggregation.
    */
  lemma StageAttempts(world: World, w: Workflow, stage: Stage, target: string, cmd: Doc, input: Json, trace: seq<Event>,
                      n: nat)
    requires IsCommand(cmd) && ListsAtMost(world, n)
    ensures var after := RunStage(world, w, stage, target, cmd, input, trace).1;
            var m, delay := Retries(stage), 2 * (Pow(2, Retries(stage)) - 1);
            if stage.stageId == "B5" then
              Calls(after) <= Calls(trace) + n * (m + 1) + 4 && Waiting(after) <= Waiting(trace) + n * delay + 14
            else
              Calls(after) <= Calls(trace) + m + 1 && Waiting(after) <= Waiting(trace) + delay
    ensures stage.stageId != "B5" && (forall t, c :: world.task(t, c) == Raised("States.Timeout")) ==>
              var after := RunStage(world, w, stage, target, cmd, input, trace).1;
              && Calls(after) == Calls(trace) + Retries(stage) + 1
              && Waiting(after) == Waiting(trace) + 2 * (Pow(2, Retries(stage)) - 1)
  {
    StageAdds(world, w, stage, target, cmd, input, trace, n);
    DelayClosedForm(0, Retries(stage));
    if stage.stageId != "B5" && (forall t, c :: world.task(t, c) == Raised("States.Timeout")) {
      assert TRANSIENT_ERRORS[4] == "States.Timeout";
      TryReachesBound(world, StageCall(w, stage, target, cmd, input), TRANSIENT_ERRORS, Retries(stage), 0, trace);
    }
  }

  // ---------------------------------------------------------------- whole executions

  /** Seconds a stage may take: every attempt at its timeout, and the delays between them. */
  function StageBudget(stage: Stage, n: nat): nat
  {
    StageTime(stage, n) + StageDelay(stage, n)
  }

  function BudgetFrom(w: Workflow, i: nat, n: nat): nat
    requires i <= |w.stages|
    decreases |w.stages| - i
  {
    if i == |w.stages| then 0 else StageBudget(w.stages[i], n) + BudgetFrom(w, i + 1, n)
  }

  lemma {:induction false} TimeFrom(world: World, w: Workflow, targets: seq<string>, routes: seq<string>, cmd: Doc, i: nat,
                                    input: Option<Json>, trace: seq<Event>, n: nat)
    requires IsCommand(cmd) && w.terminalStates != [] && ListsAtMost(world, n)
    requires |targets| == |routes| == |w.stages| && i < |w.stages|
    ensures var after := From(world, w, targets, routes, cmd, i, input, trace).1;
            Granted(after) + Waiting(after) <= Granted(trace) + Waiting(trace) + BudgetFrom(w, i, n)
    decreases |w.stages| - i
  {
    if input.Some? {
      var stage := w.stages[i];
      var (reply, after) := RunStage(world, w, stage, targets[i], cmd, input.value, trace);
      StageAdds(world, w, stage, targets[i], cmd, input.value, trace, n);
      if i + 1 < |w.stages| && reply.Returned? {
        TimeFrom(world, w, targets, routes, cmd, i + 1, Member(reply.value, "output"), after, n);
      }
    }
  }

  /**
    * When no inventory lists more than `n` work units, an execution of any exported machine spends no more
    * than the sum of its stages' budgets, attempts at their timeouts and delays together.
    */
  lemma ExportedMachineTime(world: World, w: Workflow, targets: seq<string>, cmd: Doc, fuel: nat, n: nat)
    requires WellFormed(w, targets) && IsCommand(cmd) && fuel >= 3 * |w.stages| + 2 && ListsAtMost(world, n)
    ensures var trace := Start(world, MachineOf(w, targets), cmd, fuel).trace;
            Granted(trace) + Waiting(trace) <= BudgetFrom(w, 0, n)
  {
    CompilationPreservesMeaning(world, w, targets, cmd, fuel);
    TimeFrom(world, w, targets, seq(|w.stages|, _ => ErrorTerminal(w)), cmd, 0, Some(cmd["input"]), [], n);
  }
}
