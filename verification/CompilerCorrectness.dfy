/** The exported state machine means what the workflow definition means. */
module CompilerCorrectness {
  import opened Common
  import opened StateLanguage
  import opened WorkflowCompiler
  import opened Pipeline

  // ---------------------------------------------------------------- well-formed workflows

  /** The names the exporter generates for one stage. */
  function StateNames(stage: Stage): seq<string>
  {
    if stage.stageId == "B5" then ["B5", "B5Aggregate", "B5AggregateOutcome"]
    else [stage.stageId, OutcomeName(stage.stageId)]
  }

  /** No generated name is used twice, so no state overwrites another. */
  ghost predicate NoClash(w: Workflow)
  {
    && (forall i, j, p, q :: 0 <= i < j < |w.stages| && 0 <= p < |StateNames(w.stages[i])|
                             && 0 <= q < |StateNames(w.stages[j])|
                             ==> StateNames(w.stages[i])[p] != StateNames(w.stages[j])[q])
    && (forall i, p :: 0 <= i < |w.stages| && 0 <= p < |StateNames(w.stages[i])|
                       ==> StateNames(w.stages[i])[p] != ROUTER
                           && StateNames(w.stages[i])[p] !in w.terminalStates)
    && ROUTER !in w.terminalStates
  }

  ghost predicate Compilable(w: Workflow, targets: seq<string>)
  {
    |targets| == |w.stages| > 0 && w.terminalStates != [] && w.stages[0].onError != []
  }

  /** The fan-out stage reads the inventory of a Lambda stage B4 right before it. */
  ghost predicate FanOutFollowsInventory(w: Workflow, targets: seq<string>)
    requires |targets| == |w.stages|
  {
    forall i :: 0 <= i < |w.stages| && w.stages[i].stageId == "B5"
                ==> i > 0 && w.stages[i - 1].stageId == "B4" && targets[i - 1] != SCA_TASK
  }

  ghost predicate WellFormed(w: Workflow, targets: seq<string>)
  {
    && Compilable(w, targets)
    && NoClash(w)
    && w.entryStage == w.stages[0].stageId
    && ErrorTerminal(w) in w.terminalStates
    && w.stages[|w.stages| - 1].stageId != "B5" && targets[|w.stages| - 1] != SCA_TASK
    && FanOutFollowsInventory(w, targets)
  }

  // ---------------------------------------------------------------- looking states up

  ghost predicate Functional(entries: Fields<State>)
  {
    forall a, b :: a in entries && b in entries && a.0 == b.0 ==> a.1 == b.1
  }

  lemma {:induction false} LoadFinds(entries: Fields<State>, e: (string, State))
    requires Functional(entries) && e in entries
    ensures e.0 in Load(entries) && Load(entries)[e.0] == e.1
  {
    var last := |entries| - 1;
    if entries[last].0 == e.0 {
      assert entries[last] in entries;
    } else {
      var k :| 0 <= k < |entries| && entries[k] == e;
      assert entries[..last][k] == e;
      LoadFinds(entries[..last], e);
    }
  }

  lemma {:induction false} LoadOnlyHas(entries: Fields<State>, name: string)
    requires name in Load(entries)
    ensures exists e :: e in entries && e.0 == name && e.1 == Load(entries)[name]
  {
    var last := |entries| - 1;
    if entries[last].0 == name {
      assert entries[last] in entries;
    } else {
      LoadOnlyHas(entries[..last], name);
      var e :| e in entries[..last] && e.0 == name && e.1 == Load(entries[..last])[name];
      assert e in entries;
    }
  }

  /** `e` is the `p`-th state stage `i` contributes. */
  ghost predicate Writes(w: Workflow, targets: seq<string>, i: nat, p: nat, e: (string, State))
    requires Compilable(w, targets)
  {
    i < |w.stages| && p < |EntriesOf(w, targets, i)| && EntriesOf(w, targets, i)[p] == e
  }

  lemma {:induction false} WriterOf(w: Workflow, targets: seq<string>, n: nat, e: (string, State))
    returns (i: nat, p: nat)
    requires Compilable(w, targets) && n <= |w.stages| && e in EntriesUpTo(w, targets, n)
    ensures i < n && Writes(w, targets, i, p, e)
  {
    if e in EntriesUpTo(w, targets, n - 1) {
      i, p := WriterOf(w, targets, n - 1, e);
    } else {
      i := n - 1;
      var own := EntriesOf(w, targets, i);
      assert e in own;
      p :| 0 <= p < |own| && own[p] == e;
    }
  }

  lemma {:induction false} WrittenIsThere(w: Workflow, targets: seq<string>, n: nat, i: nat, p: nat, e: (string, State))
    requires Compilable(w, targets) && i < n <= |w.stages| && Writes(w, targets, i, p, e)
    ensures e in EntriesUpTo(w, targets, n)
  {
    if i < n - 1 {
      WrittenIsThere(w, targets, n - 1, i, p, e);
    } else {
      assert e in EntriesOf(w, targets, i);
    }
    InEither(EntriesUpTo(w, targets, n - 1), EntriesOf(w, targets, n - 1), e);
  }

  lemma InEither(a: Fields<State>, b: Fields<State>, e: (string, State))
    ensures e in a + b <==> e in a || e in b
  {
  }

  lemma {:induction false} TerminalEntriesAre(w: Workflow, n: nat)
    requires w.terminalStates != [] && n <= |w.terminalStates|
    ensures forall e :: e in TerminalEntries(w, n)
                        <==> e.0 in w.terminalStates[..n] && e.1 == TerminalState(e.0, w)
  {
    if n > 0 {
      TerminalEntriesAre(w, n - 1);
      assert w.terminalStates[..n] == w.terminalStates[..n - 1] + [w.terminalStates[n - 1]];
    }
  }

  lemma EntryNames(w: Workflow, targets: seq<string>, i: nat, p: nat, e: (string, State))
    requires Compilable(w, targets) && Writes(w, targets, i, p, e)
    ensures p < |StateNames(w.stages[i])| && e.0 == StateNames(w.stages[i])[p]
  {
  }

  lemma NamesWithinStage(stage: Stage)
    ensures forall p, q :: 0 <= p < q < |StateNames(stage)| ==> StateNames(stage)[p] != StateNames(stage)[q]
  {
    var names := StateNames(stage);
    if stage.stageId == "B5" {
      assert |names[0]| == 2 && |names[1]| == 11 && |names[2]| == 18;
    } else {
      assert |names[1]| == |names[0]| + 7;
    }
  }

  /** An entry is written by a stage, is the router, or is a terminal. */
  ghost predicate Belongs(w: Workflow, targets: seq<string>, e: (string, State))
    requires Compilable(w, targets)
  {
    || (exists i: nat, p: nat :: Writes(w, targets, i, p, e))
    || e == (ROUTER, TerminalRouter(w))
    || (e.0 in w.terminalStates && e.1 == TerminalState(e.0, w))
  }

  lemma EntriesAre(w: Workflow, targets: seq<string>, e: (string, State))
    requires Compilable(w, targets)
    ensures e in Entries(w, targets) <==> Belongs(w, targets, e)
  {
    var n := |w.stages|;
    TerminalEntriesAre(w, |w.terminalStates|);
    assert w.terminalStates[..|w.terminalStates|] == w.terminalStates;
    if e in EntriesUpTo(w, targets, n) {
      var i, p := WriterOf(w, targets, n, e);
    }
    if i: nat, p: nat :| Writes(w, targets, i, p, e) {
      WrittenIsThere(w, targets, n, i, p, e);
    }
  }

  lemma SameNameSameState(w: Workflow, targets: seq<string>, a: (string, State), b: (string, State))
    requires Compilable(w, targets) && NoClash(w)
    requires Belongs(w, targets, a) && Belongs(w, targets, b) && a.0 == b.0
    ensures a.1 == b.1
  {
    if i: nat, p: nat :| Writes(w, targets, i, p, a) {
      EntryNames(w, targets, i, p, a);
      if j: nat, q: nat :| Writes(w, targets, j, q, b) {
        EntryNames(w, targets, j, q, b);
        NamesWithinStage(w.stages[i]);
        assert i == j && p == q;
      }
    } else if j: nat, q: nat :| Writes(w, targets, j, q, b) {
      EntryNames(w, targets, j, q, b);
    }
  }

  lemma EntriesAreFunctional(w: Workflow, targets: seq<string>)
    requires Compilable(w, targets) && NoClash(w)
    ensures Functional(Entries(w, targets))
  {
    forall a, b | a in Entries(w, targets) && b in Entries(w, targets) && a.0 == b.0
      ensures a.1 == b.1
    {
      EntriesAre(w, targets, a);
      EntriesAre(w, targets, b);
      SameNameSameState(w, targets, a, b);
    }
  }

  /** The machine holds every state written. */
  lemma StateOf(w: Workflow, targets: seq<string>, e: (string, State))
    requires Compilable(w, targets) && NoClash(w) && Belongs(w, targets, e)
    ensures e.0 in MachineOf(w, targets).states && MachineOf(w, targets).states[e.0] == e.1
  {
    EntriesAre(w, targets, e);
    EntriesAreFunctional(w, targets);
    LoadFinds(Entries(w, targets), e);
  }

  /** The machine holds nothing else. */
  lemma StateComesFrom(w: Workflow, targets: seq<string>, name: string)
    requires Compilable(w, targets) && name in MachineOf(w, targets).states
    ensures Belongs(w, targets, (name, MachineOf(w, targets).states[name]))
  {
    LoadOnlyHas(Entries(w, targets), name);
    EntriesAre(w, targets, (name, MachineOf(w, targets).states[name]));
  }

  lemma StateOfStage(w: Workflow, targets: seq<string>, i: nat, p: nat)
    requires Compilable(w, targets) && NoClash(w) && i < |w.stages| && p < |EntriesOf(w, targets, i)|
    ensures var e := EntriesOf(w, targets, i)[p];
            e.0 in MachineOf(w, targets).states && MachineOf(w, targets).states[e.0] == e.1
  {
    var e := EntriesOf(w, targets, i)[p];
    assert Writes(w, targets, i, p, e);
    StateOf(w, targets, e);
  }

  // ---------------------------------------------------------------- documents

  /** `doc` still carries every envelope field; only slots and error fields have been added. */
  ghost predicate Carries(doc: Doc, cmd: Doc)
  {
    forall f :: f in cmd && f != "workflowError" && (f == "" || f[0] != '_') ==> f in doc && doc[f] == cmd[f]
  }

  lemma CarriesEnvelope(doc: Doc, cmd: Doc)
    requires Carries(doc, cmd) && IsCommand(cmd)
    ensures IsCommand(doc)
    ensures doc["schemaVersion"] == cmd["schemaVersion"] && doc["commandId"] == cmd["commandId"]
    ensures doc["correlationId"] == cmd["correlationId"] && doc["causationId"] == cmd["causationId"]
    ensures doc["determinantDigest"] == cmd["determinantDigest"] && doc["idempotencyKey"] == cmd["idempotencyKey"]
    ensures doc["input"] == cmd["input"]
  {
    assert |"workflowError"| == 13;
    assert "workflowError"[0] == 'w';
    assert "schemaVersion"[0] == 's' && "correlationId"[0] == 'c';
  }

  lemma CarriesSlot(doc: Doc, cmd: Doc, slot: string, v: Json)
    requires Carries(doc, cmd) && slot != "" && slot[0] == '_'
    ensures Carries(doc[slot := v], cmd)
  {
  }

  // ---------------------------------------------------------------- paths and payloads

  lemma LookupOne(v: Json, a: string)
    ensures Lookup(v, [a]) == Member(v, a)
  {
    assert [a][1..] == [];
  }

  lemma LookupTwo(v: Json, a: string, b: string)
    ensures Lookup(v, [a, b]) == match Member(v, a) case None => None case Some(x) => Member(x, b)
  {
    assert [a, b][1..] == [b];
    if Member(v, a).Some? {
      LookupOne(Member(v, a).value, b);
    }
  }

  lemma LookupThree(v: Json, a: string, b: string, c: string)
    ensures Lookup(v, [a, b, c]) == match Member(v, a) case None => None case Some(x) => Lookup(x, [b, c])
  {
    assert [a, b, c][1..] == [b, c];
  }

  lemma LookupFour(v: Json, a: string, b: string, c: string, d: string)
    ensures Lookup(v, [a, b, c, d])
            == match Lookup(v, [a, b, c]) case None => None case Some(x) => Member(x, d)
  {
    assert [a, b, c, d][1..] == [b, c, d];
    assert [a, b, c][1..] == [b, c];
    if Member(v, a).Some? {
      var x := Member(v, a).value;
      assert [b, c, d][1..] == [c, d] && [b, c][1..] == [c];
      if Member(x, b).Some? {
        LookupTwo(Member(x, b).value, c, d);
        LookupOne(Member(x, b).value, c);
      }
    }
  }

  /** A member of a stage's reply, found in the slot the reply was stored in. */
  lemma LookupReply(doc: Doc, slot: string, resource: Resource, reply: Json, name: string)
    requires slot in doc && doc[slot] == IntegrationResult(resource, reply)
    ensures resource == LambdaInvoke ==> Lookup(JObj(doc), [slot, "Payload", name]) == Member(reply, name)
    ensures resource == EcsRunTaskToken ==> Lookup(JObj(doc), [slot, name]) == Member(reply, name)
  {
    LookupThree(JObj(doc), slot, "Payload", name);
    LookupTwo(JObj(doc), slot, name);
    if resource == LambdaInvoke {
      LookupTwo(doc[slot], "Payload", name);
    }
  }

  lemma EnvelopePaths(doc: Doc)
    requires IsEnvelope(doc)
    ensures Lookup(JObj(doc), ["schemaVersion"]) == Some(doc["schemaVersion"])
    ensures Lookup(JObj(doc), ["commandId"]) == Some(doc["commandId"])
    ensures Lookup(JObj(doc), ["correlationId"]) == Some(doc["correlationId"])
    ensures Lookup(JObj(doc), ["causationId"]) == Some(doc["causationId"])
    ensures Lookup(JObj(doc), ["determinantDigest"]) == Some(doc["determinantDigest"])
    ensures Lookup(JObj(doc), ["idempotencyKey"]) == Some(doc["idempotencyKey"])
    ensures Lookup(JObj(doc), ["input"]) == Some(doc["input"])
    ensures Lookup(JObj(doc), ["baselineMapConcurrency"]) == Member(JObj(doc), "baselineMapConcurrency")
  {
    LookupOne(JObj(doc), "schemaVersion");
    LookupOne(JObj(doc), "commandId");
    LookupOne(JObj(doc), "correlationId");
    LookupOne(JObj(doc), "causationId");
    LookupOne(JObj(doc), "determinantDigest");
    LookupOne(JObj(doc), "idempotencyKey");
    LookupOne(JObj(doc), "input");
    LookupOne(JObj(doc), "baselineMapConcurrency");
  }

  lemma FillEach(ts: Fields<Template>, doc: Doc, ctx: Context, vs: Fields<Json>)
    requires |vs| == |ts|
    requires forall i :: 0 <= i < |ts| ==> vs[i].0 == ts[i].0 && Fill(ts[i].1, doc, ctx) == Some(vs[i].1)
    ensures FillAll(ts, doc, ctx) == Some(vs)
  {
    assert FillAll(ts, doc, ctx).Some?;
    assert FillAll(ts, doc, ctx).value == vs;
  }

  lemma FillLambda(w: Workflow, stage: Stage, path: Path, doc: Doc, ctx: Context)
    requires IsEnvelope(doc)
    ensures FillAll(LambdaFields(w, stage, path), doc, ctx)
            == match Lookup(JObj(doc), path)
               case None => None
               case Some(input) => Some(LambdaPayload(w, stage, doc, input))
  {
    EnvelopePaths(doc);
    var ts := LambdaFields(w, stage, path);
    if Lookup(JObj(doc), path).None? {
      assert Fill(ts[10].1, doc, ctx).None?;
    } else {
      FillEach(ts, doc, ctx, LambdaPayload(w, stage, doc, Lookup(JObj(doc), path).value));
    }
  }

  lemma FillEcs(w: Workflow, stage: Stage, path: Path, itemKey: bool, doc: Doc, ctx: Context)
    requires IsEnvelope(doc)
    ensures FillAll(EcsFields(w, stage, path, itemKey), doc, ctx)
            == match Lookup(JObj(doc), path)
               case None => None
               case Some(input) =>
                 Some(EcsPayload(w, stage, doc,
                                 if itemKey then doc["idempotencyKey"] else KeyWith(doc, ":" + stage.stageId), input))
  {
    EnvelopePaths(doc);
    var ts := EcsFields(w, stage, path, itemKey);
    if Lookup(JObj(doc), path).None? {
      assert Fill(ts[6].1, doc, ctx).None?;
    } else {
      FillEcsInput(w, stage, path, itemKey, doc, ctx, Lookup(JObj(doc), path).value);
    }
  }

  lemma FillEcsInput(w: Workflow, stage: Stage, path: Path, itemKey: bool, doc: Doc, ctx: Context, input: Json)
    requires IsEnvelope(doc) && Lookup(JObj(doc), path) == Some(input)
    ensures FillAll(EcsFields(w, stage, path, itemKey), doc, ctx)
            == Some(EcsPayload(w, stage, doc,
                               if itemKey then doc["idempotencyKey"] else KeyWith(doc, ":" + stage.stageId), input))
  {
    EnvelopePaths(doc);
    FillEach(EcsFields(w, stage, path, itemKey), doc, ctx,
             EcsPayload(w, stage, doc,
                        if itemKey then doc["idempotencyKey"] else KeyWith(doc, ":" + stage.stageId), input));
  }

  lemma FillAggregate(w: Workflow, doc: Doc, ctx: Context)
    requires IsEnvelope(doc) && "_B5" in doc
    ensures FillAll(AggregateFields(w), doc, ctx)
            == match Lookup(JObj(doc), ["_B4", "Payload", "output"])
               case None => None
               case Some(inventory) => Some(AggregatePayload(w, doc, inventory, doc["_B5"]))
  {
    EnvelopePaths(doc);
    LookupOne(JObj(doc), "_B5");
    var ts := AggregateFields(w);
    if Lookup(JObj(doc), ["_B4", "Payload", "output"]).None? {
      assert Fill(ts[9].1, doc, ctx).None?;
    } else {
      var inventory := Lookup(JObj(doc), ["_B4", "Payload", "output"]).value;
      FillEach(ts, doc, ctx, AggregatePayload(w, doc, inventory, doc["_B5"]));
    }
  }

  /** The payload depends on the envelope only, so it is the same at every stage. */
  lemma SamePayloads(w: Workflow, stage: Stage, target: string, cmd: Doc, doc: Doc, input: Json, results: Json)
    requires IsCommand(cmd) && Carries(doc, cmd)
    ensures IsCommand(doc)
    ensures StageCall(w, stage, target, doc, input) == StageCall(w, stage, target, cmd, input)
    ensures AggregateCall(w, doc, input, results) == AggregateCall(w, cmd, input, results)
  {
    CarriesEnvelope(doc, cmd);
  }

  // ---------------------------------------------------------------- retries

  /** The interpreter's retriers do what the direct description says. */
  lemma {:induction false} AttemptIsTry(world: World, call: Invocation, transient: seq<string>, max: nat, k: nat,
                                        trace: seq<Event>)
    requires k <= max && "States.ALL" !in transient
    ensures Attempt(world, call, [Retrier(transient, 2, 2, max)], [k], trace)
            == Try(world, call, transient, max - k, k, trace)
    decreases max - k
  {
    var retry := [Retrier(transient, 2, 2, max)];
    var reply := world.task(trace, call);
    if reply.Raised? {
      assert FindRetrier(retry, reply.error) == if reply.error in transient then 0 else 1 by {
        assert retry[1..] == [];
      }
      if reply.error in transient && k < max {
        assert [k][0 := k + 1] == [k + 1];
        AttemptIsTry(world, call, transient, max, k + 1,
                     trace + [Invoked(call)] + [Waited(2 * Pow(2, k))]);
      }
    }
  }

  lemma NoCatchAllAmongTransients()
    ensures "States.ALL" !in TRANSIENT_ERRORS
    ensures "States.ALL" !in AGGREGATE_TRANSIENT_ERRORS
  {
    assert |"States.ALL"| == 10;
    assert forall e :: e in TRANSIENT_ERRORS ==> |e| != 10;
    assert forall e :: e in AGGREGATE_TRANSIENT_ERRORS ==> |e| != 10;
  }

  lemma PolicyIsTry(world: World, call: Invocation, stage: Stage, trace: seq<Event>)
    ensures Attempt(world, call, RetryPolicy(stage), seq(|RetryPolicy(stage)|, _ => 0), trace)
            == Try(world, call, TRANSIENT_ERRORS, Retries(stage), 0, trace)
  {
    NoCatchAllAmongTransients();
    if stage.retryClass == "NONE" {
      assert RetryPolicy(stage) == [];
    } else {
      assert seq(1, _ => 0) == [0];
      AttemptIsTry(world, call, TRANSIENT_ERRORS, stage.maxAttempts, 0, trace);
    }
  }

  lemma AggregatePolicyIsTry(world: World, call: Invocation, trace: seq<Event>)
    ensures Attempt(world, call, AGGREGATE_RETRY, seq(|AGGREGATE_RETRY|, _ => 0), trace)
            == Try(world, call, AGGREGATE_TRANSIENT_ERRORS, 3, 0, trace)
  {
    NoCatchAllAmongTransients();
    assert seq(1, _ => 0) == [0];
    AttemptIsTry(world, call, AGGREGATE_TRANSIENT_ERRORS, 3, 0, trace);
  }
}
