/** The workflows the platform defines, and that the exporter's guarantees apply to them. */
module ExportedWorkflows {
  import opened Common
  import opened StateLanguage
  import opened WorkflowCompiler
  import opened Pipeline
  import opened CompilerCorrectness
  import opened CompilerSimulation
  import opened CompilerRoutes

  const TERMINAL_PREFIX := "terminal:"

  /** A stage of a linear workflow; only PURE stages are never retried. */
  function LinearStage(prefix: string, index: nat, name: string, timeout: nat, sideEffect: string, error: string): Stage
  {
    Stage(prefix + Decimal(index), name, timeout,
          if sideEffect == "PURE" then 1 else 3,
          if sideEffect == "PURE" then "NONE" else "BOUNDED_TRANSIENT",
          [TERMINAL_PREFIX + error])
  }

  function LinearWorkflow(kind: string, prefix: string, steps: seq<(string, nat, string)>, timeout: nat,
                          terminals: seq<string>, error: string): Workflow
  {
    Workflow(kind, "1.0.0", prefix + "1", timeout,
             seq(|steps|, i requires 0 <= i < |steps| =>
               LinearStage(prefix, i + 1, steps[i].0, steps[i].1, steps[i].2, error)),
             terminals)
  }

  // ---------------------------------------------------------------- linear workflows are well formed

  ghost predicate Linear(w: Workflow, prefix: char)
  {
    && w.stages != []
    && (forall i :: 0 <= i < |w.stages| ==> w.stages[i].stageId == [prefix] + Decimal(i + 1))
    && w.entryStage == w.stages[0].stageId
  }

  /** Terminal names cannot be mistaken for generated names, whose second character is a digit. */
  ghost predicate PlainTerminals(w: Workflow)
  {
    && w.terminalStates != []
    && ROUTER !in w.terminalStates
    && forall t :: t in w.terminalStates ==> |t| >= 2 && !IsDigit(t[1])
  }

  lemma StageNameShape(w: Workflow, prefix: char, i: nat, p: nat)
    requires Linear(w, prefix) && i < |w.stages| && p < |StateNames(w.stages[i])|
    ensures var name := StateNames(w.stages[i])[p];
            |name| >= 2 && IsDigit(name[1]) && (p == 0 ==> name == w.stages[i].stageId)
  {
    DecimalDigits(i + 1);
    assert w.stages[i].stageId[1] == Decimal(i + 1)[0];
    if w.stages[i].stageId == "B5" {
      assert "B5"[1] == '5' && "B5Aggregate"[1] == '5' && "B5AggregateOutcome"[1] == '5';
    }
  }

  /** Stage names that are not stage ids end in a letter; ids end in a digit. */
  lemma LastCharacter(w: Workflow, prefix: char, i: nat, p: nat)
    requires Linear(w, prefix) && i < |w.stages| && p < |StateNames(w.stages[i])|
    ensures var name := StateNames(w.stages[i])[p];
            name != [] && (IsDigit(name[|name| - 1]) <==> p == 0)
  {
    DecimalDigits(i + 1);
    var id := w.stages[i].stageId;
    assert id[|id| - 1] == Decimal(i + 1)[|Decimal(i + 1)| - 1];
    assert "Outcome"[6] == 'e' && "B5Aggregate"[10] == 'e' && "B5AggregateOutcome"[17] == 'e';
  }

  /** The third character of the two fan-out names is neither a digit nor the start of "Outcome". */
  lemma ThirdCharacter(w: Workflow, prefix: char, i: nat, p: nat)
    requires Linear(w, prefix) && i < |w.stages| && w.stages[i].stageId != "B5" && p < |StateNames(w.stages[i])|
    ensures var name := StateNames(w.stages[i])[p];
            |name| > 2 ==> name[2] != 'A'
  {
    DecimalDigits(i + 1);
    var id, d := w.stages[i].stageId, Decimal(i + 1);
    if |d| == 1 {
      assert OutcomeName(id)[2] == "Outcome"[0];
    } else {
      assert id[2] == d[1] && OutcomeName(id)[2] == d[1];
    }
  }

  lemma IdsDiffer(w: Workflow, prefix: char, i: nat, j: nat)
    requires Linear(w, prefix) && i < j < |w.stages|
    ensures w.stages[i].stageId != w.stages[j].stageId
  {
    if w.stages[i].stageId == w.stages[j].stageId {
      assert Decimal(i + 1) == w.stages[i].stageId[1..] == w.stages[j].stageId[1..] == Decimal(j + 1);
      DecimalInjective(i + 1, j + 1);
    }
  }

  lemma OutcomeNamesDiffer(a: string, b: string)
    requires a != b
    ensures OutcomeName(a) != OutcomeName(b)
  {
    var x, y := OutcomeName(a), OutcomeName(b);
    if |a| == |b| {
      var k :| 0 <= k < |a| && a[k] != b[k];
      assert x[k] != y[k];
    }
  }

  lemma LinearNamesDiffer(w: Workflow, prefix: char, i: nat, p: nat, j: nat, q: nat)
    requires Linear(w, prefix) && i < j < |w.stages|
    requires p < |StateNames(w.stages[i])| && q < |StateNames(w.stages[j])|
    ensures StateNames(w.stages[i])[p] != StateNames(w.stages[j])[q]
  {
    var a, b := w.stages[i], w.stages[j];
    IdsDiffer(w, prefix, i, j);
    LastCharacter(w, prefix, i, p);
    LastCharacter(w, prefix, j, q);
    if p > 0 && q > 0 {
      assert "B5Aggregate"[2] == 'A' && "B5AggregateOutcome"[2] == 'A';
      if a.stageId == "B5" {
        ThirdCharacter(w, prefix, j, q);
      } else if b.stageId == "B5" {
        ThirdCharacter(w, prefix, i, p);
      } else {
        OutcomeNamesDiffer(a.stageId, b.stageId);
      }
    } else if p == 0 && q == 0 {
      StageNameShape(w, prefix, i, p);
      StageNameShape(w, prefix, j, q);
    }
  }

  lemma FanOutIsFifth(w: Workflow, prefix: char, i: nat)
    requires Linear(w, prefix) && i < |w.stages| && w.stages[i].stageId == "B5"
    ensures prefix == 'B' && i == 4 && w.stages[3].stageId == "B4"
  {
    assert w.stages[i].stageId[0] == prefix && "B5"[0] == 'B';
    assert w.stages[i].stageId[1..] == Decimal(i + 1);
    assert "B5"[1..] == Decimal(5);
    DecimalInjective(i + 1, 5);
    assert Decimal(4) == "4";
  }

  lemma LinearNoClash(w: Workflow, prefix: char)
    requires Linear(w, prefix) && PlainTerminals(w)
    ensures NoClash(w)
  {
    forall i, j, p, q | 0 <= i < j < |w.stages| && 0 <= p < |StateNames(w.stages[i])| && 0 <= q < |StateNames(w.stages[j])|
      ensures StateNames(w.stages[i])[p] != StateNames(w.stages[j])[q]
    {
      LinearNamesDiffer(w, prefix, i, p, j, q);
    }
    assert ROUTER[1] == 'e';
    forall i, p | 0 <= i < |w.stages| && 0 <= p < |StateNames(w.stages[i])|
      ensures StateNames(w.stages[i])[p] != ROUTER && StateNames(w.stages[i])[p] !in w.terminalStates
    {
      StageNameShape(w, prefix, i, p);
    }
  }

  lemma LinearFanOut(w: Workflow, prefix: char, targets: seq<string>)
    requires Linear(w, prefix) && |targets| == |w.stages|
    requires prefix == 'B' && |targets| > 4 ==> targets[3] != SCA_TASK
    ensures FanOutFollowsInventory(w, targets)
  {
    forall i | 0 <= i < |w.stages| && w.stages[i].stageId == "B5"
      ensures i > 0 && w.stages[i - 1].stageId == "B4" && targets[i - 1] != SCA_TASK
    {
      FanOutIsFifth(w, prefix, i);
    }
  }

  lemma LinearIsWellFormed(w: Workflow, prefix: char, targets: seq<string>)
    requires Linear(w, prefix) && PlainTerminals(w) && |targets| == |w.stages|
    requires w.stages[0].onError != [] && ErrorTerminal(w) in w.terminalStates
    requires targets[|targets| - 1] != SCA_TASK && w.stages[|w.stages| - 1].stageId != "B5"
    requires prefix == 'B' && |targets| > 4 ==> targets[3] != SCA_TASK
    ensures WellFormed(w, targets)
  {
    LinearNoClash(w, prefix);
    LinearFanOut(w, prefix, targets);
  }

  // ---------------------------------------------------------------- owners

  /** The owner table of one workflow, listed in stage order. */
  ghost predicate Owns(table: OwnerTable, w: Workflow, owners: seq<Owner>)
  {
    |owners| == |w.stages|
    && forall i :: 0 <= i < |owners| ==> (w.kind, w.stages[i].stageId) in table
                                         && table[(w.kind, w.stages[i].stageId)] == owners[i]
  }

  lemma {:induction false} TargetsOfOwners(table: OwnerTable, w: Workflow, owners: seq<Owner>, n: nat)
    requires Owns(table, w, owners) && n <= |owners| && (n > 0 ==> w.stages[0].onError != [])
    requires forall i :: 0 <= i < n ==> TargetOf(owners[i]).Some?
    ensures TargetsUpTo(w, table, n).Ok?
    ensures forall i :: 0 <= i < n ==> TargetsUpTo(w, table, n).value[i] == TargetOf(owners[i]).value
  {
    if n > 0 {
      TargetsOfOwners(table, w, owners, n - 1);
    }
  }

  // ---------------------------------------------------------------- the definitions

  lemma ResolveTargets(table: OwnerTable, w: Workflow, owners: seq<Owner>) returns (targets: seq<string>)
    requires Owns(table, w, owners) && w.stages != [] && w.stages[0].onError != [] && Owner.Deployment !in owners
    ensures Targets(w, table) == Ok(targets) && |targets| == |owners|
    ensures forall i :: 0 <= i < |owners| ==> TargetOf(owners[i]) == Some(targets[i])
  {
    TargetsOfOwners(table, w, owners, |owners|);
    targets := Targets(w, table).value;
  }

  /** The terminals of the two collection workflows, which differ in one name. */
  function CollectionTerminals(neutral: string): seq<string>
  {
    ["PUBLISHED", "AWAITING_APPROVAL", neutral, "REJECTED", "QUARANTINED", "FAILED_REDRIVABLE", "FAILED_TERMINAL"]
  }

  lemma CollectionNames(neutral: string)
    requires |neutral| >= 2 && neutral[0] != 'T' && !IsDigit(neutral[1])
    ensures PlainNames(CollectionTerminals(neutral)) && "FAILED_REDRIVABLE" in CollectionTerminals(neutral)
  {
    assert CollectionTerminals(neutral)[5] == "FAILED_REDRIVABLE";
    forall t | t in CollectionTerminals(neutral)
      ensures |t| >= 2 && t[0] != 'T' && !IsDigit(t[1])
    {
      var k :| 0 <= k < 7 && CollectionTerminals(neutral)[k] == t;
    }
  }

  function BaselineTerminals(): seq<string>
  {
    CollectionTerminals("NO_LINEAGE")
  }

  function BaselineOwners(): seq<Owner>
  {
    [Control, Control, Classification, Coverage, Sca, RuntimeValidation, Consolidation, Consolidation, Proposal, Publication]
  }

  /** The task each stage of the workflow calls. */
  function BaselineTargets(): seq<string>
  {
    ["ControlAliasArn", "ControlAliasArn", "ClassificationAliasArn", "CoverageAliasArn", "ScaTask",
     "RuntimeValidationAliasArn", "ConsolidationAliasArn", "ConsolidationAliasArn", "ProposalAliasArn",
     "PublicationAliasArn"]
  }

  function IncrementalTerminals(): seq<string>
  {
    CollectionTerminals("NO_LINEAGE_IMPACT")
  }

  function IncrementalOwners(): seq<Owner>
  {
    [Control, Control, Coverage, Control, Sca, RuntimeValidation, Consolidation, Control, Proposal, Publication]
  }

  /** The task each stage of the workflow calls. */
  function IncrementalTargets(): seq<string>
  {
    ["ControlAliasArn", "ControlAliasArn", "CoverageAliasArn", "ControlAliasArn", "ScaTask",
     "RuntimeValidationAliasArn", "ConsolidationAliasArn", "ControlAliasArn", "ProposalAliasArn",
     "PublicationAliasArn"]
  }

  function PrGateTerminals(): seq<string>
  {
    ["PASS", "WARN", "BLOCK"]
  }

  function PrGateOwners(): seq<Owner>
  {
    [Control, Control, Control, Consolidation, Coverage, Control, Control, Control]
  }

  /** The task each stage of the workflow calls. */
  function PrGateTargets(): seq<string>
  {
    ["ControlAliasArn", "ControlAliasArn", "ControlAliasArn", "ConsolidationAliasArn", "CoverageAliasArn",
     "ControlAliasArn", "ControlAliasArn", "ControlAliasArn"]
  }

  function NightlyTerminals(): seq<string>
  {
    ["RECONCILED", "PROPOSALS_RAISED", "FAILED_REDRIVABLE", "FAILED_TERMINAL"]
  }

  function NightlyOwners(): seq<Owner>
  {
    [Control, Sca, Publication, Control, Control, Proposal]
  }

  /** The task each stage of the workflow calls. */
  function NightlyTargets(): seq<string>
  {
    ["ControlAliasArn", "ScaTask", "PublicationAliasArn", "ControlAliasArn", "ControlAliasArn", "ProposalAliasArn"]
  }

  lemma LinearWorkflowIsLinear(kind: string, prefix: char, steps: seq<(string, nat, string)>, timeout: nat,
                               terminals: seq<string>, error: string)
    requires steps != []
    ensures var w := LinearWorkflow(kind, [prefix], steps, timeout, terminals, error);
            Linear(w, prefix) && w.stages[0].onError != [] && ErrorTerminal(w) == error
  {
    assert Decimal(1) == "1";
    assert TERMINAL_PREFIX <= TERMINAL_PREFIX + error;
    assert (TERMINAL_PREFIX + error)[|TERMINAL_PREFIX|..] == error;
  }

  /** A linear workflow whose owners all have targets compiles, and the guarantees hold for it. */
  lemma LinearCompiles(table: OwnerTable, w: Workflow, prefix: char, owners: seq<Owner>, targets: seq<string>)
    requires Linear(w, prefix) && PlainTerminals(w) && Owns(table, w, owners)
    requires w.stages[0].onError != [] && ErrorTerminal(w) in w.terminalStates
    requires owners[|owners| - 1] != Sca && (prefix == 'B' ==> |owners| > 5 && owners[3] != Sca)
    requires |targets| == |owners|
    requires forall i :: 0 <= i < |owners| ==> TargetOf(owners[i]) == Some(targets[i])
    ensures WellFormed(w, targets)
  {
    OnlyScaRunsOnEcs(owners[|owners| - 1]);
    if prefix == 'B' {
      OnlyScaRunsOnEcs(owners[3]);
    }
    if w.stages[|w.stages| - 1].stageId == "B5" {
      FanOutIsFifth(w, prefix, |w.stages| - 1);
    }
    LinearIsWellFormed(w, prefix, targets);
  }

  ghost predicate Runnable(prefix: char, owners: seq<Owner>)
  {
    owners != [] && Owner.Deployment !in owners && owners[|owners| - 1] != Sca
    && (prefix == 'B' ==> |owners| > 5 && owners[3] != Sca)
  }

  /** Each owner has its target. */
  ghost predicate Served(owners: seq<Owner>, targets: seq<string>)
  {
    |targets| == |owners| && forall i :: 0 <= i < |owners| ==> TargetOf(owners[i]) == Some(targets[i])
  }

  lemma OwnedLinearCompiles(table: OwnerTable, w: Workflow, prefix: char, owners: seq<Owner>, targets: seq<string>)
    requires Linear(w, prefix) && PlainTerminals(w) && Owns(table, w, owners)
    requires w.stages[0].onError != [] && ErrorTerminal(w) in w.terminalStates
    requires Runnable(prefix, owners) && Served(owners, targets)
    ensures Targets(w, table) == Ok(targets) && WellFormed(w, targets)
  {
    var resolved := ResolveTargets(table, w, owners);
    SameTargets(owners, resolved, targets);
    LinearCompiles(table, w, prefix, owners, targets);
  }

  lemma SameTargets(owners: seq<Owner>, resolved: seq<string>, targets: seq<string>)
    requires Served(owners, resolved) && Served(owners, targets)
    ensures resolved == targets
  {
    forall i | 0 <= i < |owners| ensures resolved[i] == targets[i] {
      assert TargetOf(owners[i]) == Some(targets[i]);
    }
  }

  lemma LinearWorkflowCompiles(table: OwnerTable, kind: string, prefix: char, steps: seq<(string, nat, string)>,
                               timeout: nat, terminals: seq<string>, error: string, owners: seq<Owner>, w: Workflow,
                               targets: seq<string>)
    requires w == LinearWorkflow(kind, [prefix], steps, timeout, terminals, error)
    requires error in terminals && PlainNames(terminals) && Owns(table, w, owners) && Runnable(prefix, owners)
    requires Served(owners, targets)
    ensures Targets(w, table) == Ok(targets) && WellFormed(w, targets)
  {
    assert Linear(w, prefix) && w.stages[0].onError != [] && ErrorTerminal(w) == error by {
      LinearWorkflowIsLinear(kind, prefix, steps, timeout, terminals, error);
    }
    RouterIsPlain(w);
    OwnedLinearCompiles(table, w, prefix, owners, targets);
  }

  ghost predicate PlainNames(terminals: seq<string>)
  {
    forall t :: t in terminals ==> |t| >= 2 && t[0] != 'T' && !IsDigit(t[1])
  }

  lemma OnlyScaRunsOnEcs(owner: Owner)
    requires owner != Sca && TargetOf(owner).Some?
    ensures TargetOf(owner).value != SCA_TASK
  {
    assert |SCA_TASK| == 7;
  }

  lemma BaselineNames()
    ensures PlainNames(BaselineTerminals()) && "FAILED_REDRIVABLE" in BaselineTerminals()
  {
    CollectionNames("NO_LINEAGE");
  }

  lemma BaselineOwnersRun()
    ensures Runnable('B', BaselineOwners())
  {
  }

  lemma BaselineIsServed()
    ensures Served(BaselineOwners(), BaselineTargets())
  {
  }

  /** The four exported definitions, whatever their stages are called and however long they may take. */
  lemma BaselineCompiles(table: OwnerTable, steps: seq<(string, nat, string)>, w: Workflow)
    requires w == LinearWorkflow("BASELINE", ['B'], steps, 43200, BaselineTerminals(), "FAILED_REDRIVABLE")
    requires Owns(table, w, BaselineOwners())
    ensures Targets(w, table) == Ok(BaselineTargets()) && WellFormed(w, BaselineTargets())
  {
    BaselineIsServed();
    BaselineNames();
    BaselineOwnersRun();
    LinearWorkflowCompiles(table, "BASELINE", 'B', steps, 43200, BaselineTerminals(), "FAILED_REDRIVABLE", BaselineOwners(), w,
                           BaselineTargets());
  }

  lemma IncrementalNames()
    ensures PlainNames(IncrementalTerminals()) && "FAILED_REDRIVABLE" in IncrementalTerminals()
  {
    CollectionNames("NO_LINEAGE_IMPACT");
  }

  lemma IncrementalOwnersRun()
    ensures Runnable('I', IncrementalOwners())
  {
  }

  lemma IncrementalIsServed()
    ensures Served(IncrementalOwners(), IncrementalTargets())
  {
  }

  lemma IncrementalCompiles(table: OwnerTable, steps: seq<(string, nat, string)>, w: Workflow)
    requires w == LinearWorkflow("INCREMENTAL", ['I'], steps, 1800, IncrementalTerminals(), "FAILED_REDRIVABLE")
    requires Owns(table, w, IncrementalOwners())
    ensures Targets(w, table) == Ok(IncrementalTargets()) && WellFormed(w, IncrementalTargets())
  {
    IncrementalIsServed();
    IncrementalNames();
    IncrementalOwnersRun();
    LinearWorkflowCompiles(table, "INCREMENTAL", 'I', steps, 1800, IncrementalTerminals(), "FAILED_REDRIVABLE", IncrementalOwners(), w,
                           IncrementalTargets());
  }

  lemma PrGateNames()
    ensures PlainNames(PrGateTerminals()) && "WARN" in PrGateTerminals() && Runnable('P', PrGateOwners())
  {
    assert PrGateTerminals()[1] == "WARN";
  }

  lemma PrGateIsServed()
    ensures Served(PrGateOwners(), PrGateTargets())
  {
  }

  lemma PrGateCompiles(table: OwnerTable, steps: seq<(string, nat, string)>, w: Workflow)
    requires w == LinearWorkflow("PR_GATE", ['P'], steps, 120, PrGateTerminals(), "WARN")
    requires Owns(table, w, PrGateOwners())
    ensures Targets(w, table) == Ok(PrGateTargets()) && WellFormed(w, PrGateTargets())
  {
    PrGateIsServed();
    PrGateNames();
    LinearWorkflowCompiles(table, "PR_GATE", 'P', steps, 120, PrGateTerminals(), "WARN", PrGateOwners(), w,
                           PrGateTargets());
  }

  lemma NightlyNames()
    ensures PlainNames(NightlyTerminals()) && "FAILED_REDRIVABLE" in NightlyTerminals() && Runnable('N', NightlyOwners())
  {
    assert NightlyTerminals()[2] == "FAILED_REDRIVABLE";
  }

  lemma NightlyIsServed()
    ensures Served(NightlyOwners(), NightlyTargets())
  {
  }

  lemma NightlyCompiles(table: OwnerTable, steps: seq<(string, nat, string)>, w: Workflow)
    requires w == LinearWorkflow("NIGHTLY", ['N'], steps, 14400, NightlyTerminals(), "FAILED_REDRIVABLE")
    requires Owns(table, w, NightlyOwners())
    ensures Targets(w, table) == Ok(NightlyTargets()) && WellFormed(w, NightlyTargets())
  {
    NightlyIsServed();
    NightlyNames();
    LinearWorkflowCompiles(table, "NIGHTLY", 'N', steps, 14400, NightlyTerminals(), "FAILED_REDRIVABLE", NightlyOwners(), w,
                           NightlyTargets());
  }

  function DeploymentTerminals(): seq<string>
  {
    ["PROMOTED", "FAILED_NO_CHANGE", "ROLLED_BACK", "LINEAGE_OUT_OF_SYNC", "FAILED_TERMINAL"]
  }

  function DeploymentOwners(): seq<Owner>
  {
    seq(6, _ => Owner.Deployment)
  }

  /** The deployment workflow is owned, stage by stage, but its owner has no target: the exporter refuses it. */
  lemma DeploymentDoesNotCompile(table: OwnerTable, steps: seq<(string, nat, string)>, w: Workflow)
    requires w == LinearWorkflow("DEPLOYMENT", ['D'], steps, 600, DeploymentTerminals(), "FAILED_TERMINAL")
    requires Owns(table, w, DeploymentOwners())
    ensures Targets(w, table) == Err(NoTarget(Owner.Deployment))
  {
    assert table[(w.kind, w.stages[0].stageId)] == DeploymentOwners()[0];
    assert TargetsUpTo(w, table, 0) == Ok([]);
    assert TargetsUpTo(w, table, 1) == Err(NoTarget(Owner.Deployment));
    TargetsFailEarly(w, table, 1, |w.stages|);
  }

  // ---------------------------------------------------------------- names and constants of the exported machines

  /** A terminal is a success exactly when it is the first or one of seven names; any other fails under its own name. */
  lemma TerminalSucceedsIff(name: string, w: Workflow)
    requires w.terminalStates != []
    ensures TerminalState(name, w)
            == if name in [w.terminalStates[0], "AWAITING_APPROVAL", "NO_LINEAGE", "NO_LINEAGE_IMPACT", "PASS", "WARN",
                           "BLOCK", "PROPOSALS_RAISED"]
               then Succeed else Fail(name)
  {
    var names := [w.terminalStates[0], "AWAITING_APPROVAL", "NO_LINEAGE", "NO_LINEAGE_IMPACT", "PASS", "WARN", "BLOCK",
                  "PROPOSALS_RAISED"];
    assert names[1] == "AWAITING_APPROVAL" && names[2] == "NO_LINEAGE" && names[3] == "NO_LINEAGE_IMPACT";
    assert names[4] == "PASS" && names[5] == "WARN" && names[6] == "BLOCK" && names[7] == "PROPOSALS_RAISED";
    assert name == names[0] ==> name in names;
  }

  /** The ways in which the five workflows end, by name. */
  lemma TerminalsByName()
    ensures BaselineTerminals()
            == ["PUBLISHED", "AWAITING_APPROVAL", "NO_LINEAGE", "REJECTED", "QUARANTINED", "FAILED_REDRIVABLE",
                "FAILED_TERMINAL"]
    ensures IncrementalTerminals()
            == ["PUBLISHED", "AWAITING_APPROVAL", "NO_LINEAGE_IMPACT", "REJECTED", "QUARANTINED", "FAILED_REDRIVABLE",
                "FAILED_TERMINAL"]
    ensures PrGateTerminals() == ["PASS", "WARN", "BLOCK"]
    ensures NightlyTerminals() == ["RECONCILED", "PROPOSALS_RAISED", "FAILED_REDRIVABLE", "FAILED_TERMINAL"]
    ensures DeploymentTerminals()
            == ["PROMOTED", "FAILED_NO_CHANGE", "ROLLED_BACK", "LINEAGE_OUT_OF_SYNC", "FAILED_TERMINAL"]
  {
  }

  /** A stage without side effects is called once, any other up to four times. */
  lemma LinearRetries(prefix: string, index: nat, name: string, timeout: nat, sideEffect: string, error: string)
    ensures var stage := LinearStage(prefix, index, name, timeout, sideEffect, error);
            && Retries(stage) == (if sideEffect == "PURE" then 0 else 3)
            && stage.stageId == prefix + Decimal(index) && stage.name == name && stage.timeoutSeconds == timeout
            && stage.onError == ["terminal:" + error]
  {
  }

  /** Which errors of a task are met with another call: throttling and service trouble, and time-outs. */
  lemma RetriedIff(stage: Stage, error: string)
    ensures FindRetrier(RetryPolicy(stage), error) < |RetryPolicy(stage)|
            <==> stage.retryClass != "NONE"
                 && error in {"Lambda.ServiceException", "Lambda.SdkClientException", "Lambda.TooManyRequestsException",
                              "ECS.AmazonECSException", "States.Timeout"}
    ensures FindRetrier(AGGREGATE_RETRY, error) < |AGGREGATE_RETRY|
            <==> error in {"Lambda.ServiceException", "Lambda.SdkClientException", "Lambda.TooManyRequestsException",
                           "States.Timeout"}
  {
    TransientErrors(error);
  }

  lemma TransientErrors(error: string)
    ensures Covers(TRANSIENT_ERRORS, error)
            <==> error in {"Lambda.ServiceException", "Lambda.SdkClientException", "Lambda.TooManyRequestsException",
                           "ECS.AmazonECSException", "States.Timeout"}
    ensures Covers(AGGREGATE_TRANSIENT_ERRORS, error)
            <==> error in {"Lambda.ServiceException", "Lambda.SdkClientException", "Lambda.TooManyRequestsException",
                           "States.Timeout"}
  {
    var t, a := TRANSIENT_ERRORS, AGGREGATE_TRANSIENT_ERRORS;
    assert t[0] == "Lambda.ServiceException" && t[1] == "Lambda.SdkClientException";
    assert t[2] == "Lambda.TooManyRequestsException" && t[3] == "ECS.AmazonECSException" && t[4] == "States.Timeout";
    assert a[0] == "Lambda.ServiceException" && a[1] == "Lambda.SdkClientException";
    assert a[2] == "Lambda.TooManyRequestsException" && a[3] == "States.Timeout";
    assert |"States.ALL"| == 10 && |"States.Timeout"| == 14 && |"Lambda.ServiceException"| == 23;
    assert |"Lambda.SdkClientException"| == 25 && |"Lambda.TooManyRequestsException"| == 31 && |"ECS.AmazonECSException"| == 22;
  }

  /** The catch-all leads every error to the error terminal but the two that the language lets nobody catch. */
  lemma CaughtIff(field: string, next: string, error: string)
    ensures FindCatcher(CatchAll(field, next), error)
            == if error == "States.Runtime" || error == "States.DataLimitExceeded" then None
               else Some(Catcher(["States.ALL"], field, next))
  {
    assert |"States.ALL"| == 10 && |"States.Runtime"| == 14 && |"States.DataLimitExceeded"| == 24;
    assert "States.ALL" in ["States.ALL"];
  }

  /** Where the outcome of a stage is looked up, what it is compared with, and where each case leads. */
  lemma RoutesByName(stage: Stage, next: string, target: string, error: string)
    ensures OutcomeRoute(stage, next, target, error)
            == Choice([Rule(if target == "ScaTask" then ["_" + stage.stageId, "outcome"]
                            else ["_" + stage.stageId, "Payload", "outcome"], "REDRIVE_REQUIRED", error)], next)
    ensures AggregateRoute(next, error)
            == Choice([Rule(["_B5Aggregate", "Payload", "outcome"], "REDRIVE_REQUIRED", error)], next)
  {
  }

  // ---------------------------------------------------------------- a route that is lost

  /** Two stages, of which the second sends its failures elsewhere than the first. */
  function TwoRoutes(): Workflow
  {
    var w := LinearWorkflow("PR_GATE", ['P'], [("FIRST", 60, "READ_ONLY"), ("SECOND", 60, "READ_ONLY")], 120,
                            PrGateTerminals(), "WARN");
    w.(stages := [w.stages[0], w.stages[1].(onError := [TERMINAL_PREFIX + "BLOCK"])])
  }

  function TwoTargets(): seq<string>
  {
    ["ControlAliasArn", "ControlAliasArn"]
  }

  lemma TwoStagesAre()
    ensures var w := TwoRoutes();
            && Linear(w, 'P') && |w.stages| == 2 && w.terminalStates == PrGateTerminals()
            && w.stages[0].onError == [TERMINAL_PREFIX + "WARN"] && w.stages[1].onError == [TERMINAL_PREFIX + "BLOCK"]
            && w.stages[0].stageId == ['P'] + "1" && w.stages[1].stageId == ['P'] + "2"
  {
    assert Decimal(1) == "1" && Decimal(2) == "2";
  }

  lemma TwoRoutesLead()
    ensures var w := TwoRoutes();
            && |w.stages| == 2 && w.stages[0].onError != [] && w.stages[1].onError != []
            && ErrorTerminal(w) == "WARN" && DeclaredErrorTerminal(w.stages[1]) == "BLOCK"
  {
    TwoStagesAre();
    RouteNames("WARN");
    RouteNames("BLOCK");
  }

  lemma TwoTerminalsArePlain()
    ensures PlainTerminals(TwoRoutes()) && "WARN" in TwoRoutes().terminalStates
  {
    TwoStagesAre();
    PrGateNames();
    RouterIsPlain(TwoRoutes());
  }

  lemma TwoRoutesAre()
    ensures WellFormed(TwoRoutes(), TwoTargets()) && DeclaresErrors(TwoRoutes())
    ensures ErrorTerminal(TwoRoutes()) == "WARN" && DeclaredErrorTerminal(TwoRoutes().stages[1]) == "BLOCK"
  {
    var w, targets := TwoRoutes(), TwoTargets();
    TwoStagesAre();
    TwoRoutesLead();
    TwoTerminalsArePlain();
    LastIsPlainLambda(w);
    BothDeclareErrors(w);
    WellFormedPair(w, targets);
  }

  lemma WellFormedPair(w: Workflow, targets: seq<string>)
    requires Linear(w, 'P') && PlainTerminals(w) && |targets| == |w.stages| == 2
    requires w.stages[0].onError != [] && ErrorTerminal(w) in w.terminalStates
    requires targets[1] != SCA_TASK && w.stages[1].stageId != "B5"
    ensures WellFormed(w, targets)
  {
    LinearIsWellFormed(w, 'P', targets);
  }

  lemma LastIsPlainLambda(w: Workflow)
    requires Linear(w, 'P') && |w.stages| == 2
    ensures TwoTargets()[1] != SCA_TASK && w.stages[1].stageId != "B5"
  {
    assert |SCA_TASK| == 7 && |TwoTargets()[1]| == 15;
    assert w.stages[1].stageId[0] == 'P' && "B5"[0] == 'B';
  }

  lemma BothDeclareErrors(w: Workflow)
    requires |w.stages| == 2 && w.stages[0].onError != [] && w.stages[1].onError != []
    ensures DeclaresErrors(w)
  {
  }

  lemma RouterIsPlain(w: Workflow)
    requires w.terminalStates != [] && PlainNames(w.terminalStates)
    ensures PlainTerminals(w)
  {
    assert ROUTER[0] == 'T';
  }

  lemma RouteNames(terminal: string)
    ensures StripPrefix(TERMINAL_PREFIX + terminal, "terminal:") == terminal
  {
    assert TERMINAL_PREFIX <= TERMINAL_PREFIX + terminal;
    assert (TERMINAL_PREFIX + terminal)[|TERMINAL_PREFIX|..] == terminal;
  }

  /**
   * When the second stage fails for good, the workflow as declared ends in BLOCK and the exported machine
   * ends in WARN, whatever the command.
   */
  lemma SecondRouteIsLost(cmd: Doc)
    requires IsCommand(cmd)
    ensures var w, targets := TwoRoutes(), TwoTargets();
            && WellFormed(w, targets) && DeclaresErrors(w)
            && Declared(FailingAt(1), w, targets, cmd).0 == Reached("BLOCK")
            && Start(FailingAt(1), MachineOf(w, targets), cmd, 8).ending == Finished("WARN", true)
  {
    var w, targets := TwoRoutes(), TwoTargets();
    TwoRoutesAre();
    assert w.stages[0].stageId != "B5" && EventsBefore(w, 1) == 1 by {
      assert Decimal(1) == "1" && "P1"[0] != "B5"[0];
      assert EventsBefore(w, 0) == 0;
    }
    FailsAtStage(w, targets, DeclaredRoutes(w), cmd, 0, 1, cmd["input"], []);
    FailsAtStage(w, targets, seq(|w.stages|, _ => ErrorTerminal(w)), cmd, 0, 1, cmd["input"], []);
    CompilationPreservesMeaning(FailingAt(1), w, targets, cmd, 8);
  }
}
