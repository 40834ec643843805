/** One run, written out: a publication that moved the pointer and was not recorded is settled as stale. */
module LostPublication {
  import opened Common
  import opened CollectionLedger
  import opened Publication

  // ---------------------------------------------------------------- a collection that goes well

  function Recordings(n: nat): (steps: seq<Step>)
    ensures forall i :: 0 <= i < |steps| ==> steps[i] == Work(Record, Stored)
  {
    if n == 0 then [] else [Work(Record, Stored)] + Recordings(n - 1)
  }

  /** From the submission to the plan. */
  function Opening(c: Command): seq<Step>
  {
    [Register(c.digest, Stored, Stored), Enqueue(c), Take, Work(Begin, Stored), Work(Plan(BASELINE), Stored)]
  }

  function WholeCollection(c: Command): seq<Step>
  {
    Opening(c) + Recordings(StageCount(BASELINE)) + [Work(PutHead, Stored)]
  }

  lemma OneRecording(s: Ledger, c: Command, state: Document)
    requires s.worker == Working(c, state, Planned(BASELINE)) && |state.stages| < StageCount(BASELINE) && !state.terminal
    ensures var after := Recorded(state, BASELINE);
            && Next(s, Work(Record, Stored))
               == s.(documents := s.documents[c := after],
                     worker := Working(c, after, if after.terminal then Closing else Planned(BASELINE)))
            && |after.stages| == |state.stages| + 1
            && (after.terminal <==> |after.stages| == StageCount(BASELINE))
  {
  }

  lemma {:induction false} RecordingsFinish(s: Ledger, c: Command, state: Document, n: nat)
    requires s.worker == Working(c, state, Planned(BASELINE)) && !state.terminal
    requires n > 0 && |state.stages| + n == StageCount(BASELINE)
    ensures Legal(s, Recordings(n))
    ensures var t := Run(s, Recordings(n));
            && t.worker.Working? && t.worker.phase == Closing && t.worker.state.terminal
            && t == s.(documents := s.documents[c := t.worker.state], worker := t.worker)
    decreases n
  {
    var after := Recorded(state, BASELINE);
    var next := Next(s, Work(Record, Stored));
    OneRecording(s, c, state);
    if n == 1 {
      assert Recordings(0) == [];
    } else {
      RecordingsFinish(next, c, after, n - 1);
      var t := Run(next, Recordings(n - 1));
      assert next.documents[c := t.worker.state] == s.documents[c := t.worker.state];
    }
    StepThenRun(s, Work(Record, Stored), next, Recordings(n - 1));
  }

  lemma StepThenRun(s: Ledger, step: Step, next: Ledger, rest: seq<Step>)
    requires Enabled(s, step) && !step.Settle? && next == Next(s, step) && Legal(next, rest)
    ensures Legal(s, [step] + rest) && Run(s, [step] + rest) == Run(next, rest)
  {
    assert ([step] + rest)[1..] == rest;
  }

  lemma OpeningRuns(s: Ledger, c: Command)
    requires NextAttempt(s, c.digest) == Some(c) && s.worker.Idle? && s.queue == []
    ensures Legal(s, Opening(c))
    ensures var t := Run(s, Opening(c));
            var state := Queued(c.attempt).(status := RUNNING, kind := Some(BASELINE));
            && t.worker == Working(c, state, Planned(BASELINE)) && t.queue == []
            && t.documents == s.documents[c := state] && t.heads == s.heads[c.digest := c]
  {
    var s1 := Next(s, Register(c.digest, Stored, Stored));
    var s2 := Next(s1, Enqueue(c));
    var s3 := Next(s2, Take);
    var s4 := Next(s3, Work(Begin, Stored));
    FourSteps(s, Register(c.digest, Stored, Stored), Enqueue(c), Take, Work(Begin, Stored));
    OneStep(s4, Work(Plan(BASELINE), Stored));
    var first := [Register(c.digest, Stored, Stored), Enqueue(c), Take, Work(Begin, Stored)];
    RunsCompose(s, first, [Work(Plan(BASELINE), Stored)]);
    assert Opening(c) == first + [Work(Plan(BASELINE), Stored)];
    var state := Queued(c.attempt).(status := RUNNING, kind := Some(BASELINE));
    var t := Next(s4, Work(Plan(BASELINE), Stored));
    assert t.documents == s.documents[c := state];
  }

  /** A submission of an open identity can always be carried to its end by an idle worker. */
  lemma CollectionCompletes(s: Ledger, c: Command)
    requires NextAttempt(s, c.digest) == Some(c) && s.worker.Idle? && s.queue == []
    ensures Legal(s, WholeCollection(c))
    ensures var t := Run(s, WholeCollection(c));
            && t.worker.Idle? && t.queue == [] && t.heads == s.heads[c.digest := c]
            && c in t.documents && t.documents[c].terminal && t.documents == s.documents[c := t.documents[c]]
  {
    OpeningRuns(s, c);
    var s1, n := Run(s, Opening(c)), StageCount(BASELINE);
    RecordingsFinish(s1, c, s1.worker.state, n);
    var s2 := Run(s1, Recordings(n));
    RunsCompose(s, Opening(c), Recordings(n));
    OneStep(s2, Work(PutHead, Stored));
    RunsCompose(s, Opening(c) + Recordings(n), [Work(PutHead, Stored)]);
  }

  function Collected(steps: seq<Step>): seq<Event>
  {
    seq(|steps|, i requires 0 <= i < |steps| => Collect(steps[i]))
  }

  lemma WholeCollectionNeverSettles(c: Command)
    ensures forall i :: 0 <= i < |WholeCollection(c)| ==> !WholeCollection(c)[i].Settle?
  {
  }

  lemma {:induction false} CollectedRuns(cell: Cell, steps: seq<Step>)
    requires Legal(cell.ledger, steps) && forall i :: 0 <= i < |steps| ==> !steps[i].Settle?
    ensures Possible(cell, Collected(steps))
    ensures Course(cell, Collected(steps)) == cell.(ledger := Run(cell.ledger, steps))
    decreases |steps|
  {
    if steps != [] {
      assert Collected(steps)[1..] == Collected(steps[1..]);
      CollectedRuns(After(cell, Collect(steps[0])), steps[1..]);
    }
  }

  lemma {:induction false} CoursesCompose(cell: Cell, first: seq<Event>, second: seq<Event>)
    requires Possible(cell, first) && Possible(Course(cell, first), second)
    ensures Possible(cell, first + second) && Course(cell, first + second) == Course(Course(cell, first), second)
    decreases |first|
  {
    if first == [] {
      assert first + second == second;
    } else {
      assert (first + second)[1..] == first[1..] + second;
      CoursesCompose(After(cell, first[0]), first[1..], second);
    }
  }

  lemma TwoEvents(cell: Cell, first: Event, second: Event)
    requires CanHappen(cell, first) && CanHappen(After(cell, first), second)
    ensures Possible(cell, [first, second])
    ensures Course(cell, [first, second]) == After(After(cell, first), second)
  {
    assert [first, second][1..] == [second] && [second][1..] == [];
    assert Course(After(cell, first), [second]) == After(After(cell, first), second);
  }

  // ---------------------------------------------------------------- the lost record

  /** The pointer has moved and the stage is not recorded. */
  predicate LosesRecord(fault: Fault)
  {
    fault.Fault? && ((fault.at == Recording && !fault.landed) || (fault.at == Activation && fault.landed))
  }

  function NoFaults(id: string): Fault
  {
    NoFault
  }

  function OnlyA(fault: Fault): string -> Fault
  {
    id => if id == "a" then fault else NoFault
  }

  const FIRST := Command("p", 1)
  const SECOND := Command("q", 1)

  /** A proposal is published, its record is lost; the next one is based on it and published before the redrive. */
  function Published(fault: Fault): seq<Event>
  {
    Collected(WholeCollection(FIRST)) + [Approve("a", FIRST, "env", "NONE"), Deliver(["a"], OnlyA(fault))]
  }

  function Overtaken(): seq<Event>
  {
    Collected(WholeCollection(SECOND)) + [Approve("b", SECOND, "env", "graph-a"), Deliver(["b", "a"], NoFaults)]
  }

  function LostRun(fault: Fault): seq<Event>
  {
    Published(fault) + Overtaken()
  }

  function Waiting(c: Command, base: string): Row
  {
    Row(Some(c), "env", base, PENDING, false)
  }

  /** `a` was activated and forgotten. */
  function Forgotten(): Outbox
  {
    Outbox(map["a" := Waiting(FIRST, "NONE")], map["env" := Pointer("graph-a", 1)], map["env" := ["NONE", "graph-a"]])
  }

  lemma Names()
    ensures "a" != "b" && GraphVersion("a") == "graph-a" && GraphVersion("b") == "graph-b"
    ensures "graph-a" != "graph-b" && "graph-a" != "NONE" && "graph-b" != "NONE"
  {
    assert "graph-b"[6] != "graph-a"[6];
    assert |"graph-a"| != |"NONE"| && |"graph-b"| != |"NONE"|;
  }

  lemma DrainOfOne(cell: Cell, id: string, fault: string -> Fault)
    ensures Drain(cell, [id], fault).cell == DrainRow(cell, id, fault(id)).cell
  {
    assert [id][1..] == [];
  }

  lemma RecordIsLost(cell: Cell, fault: Fault)
    requires LosesRecord(fault) && cell.outbox == Outbox(map["a" := Waiting(FIRST, "NONE")], map[], map[])
    ensures Drain(cell, ["a"], OnlyA(fault)).cell == cell.(outbox := Forgotten())
  {
    Names();
    DrainOfOne(cell, "a", OnlyA(fault));
    var o := cell.outbox;
    assert ["NONE"] + ["graph-a"] == ["NONE", "graph-a"];
    assert TryActivate(o, "a", Pointer("NONE", 0)) == Some(Forgotten());
    assert Execute(o, "a", fault) == (Forgotten(), Broken(fault));
  }

  lemma PublishedRuns(fault: Fault)
    requires LosesRecord(fault)
    ensures Possible(START, Published(fault))
    ensures var cell := Course(START, Published(fault));
            && cell.outbox == Forgotten() && cell.ledger.worker.Idle? && cell.ledger.queue == []
            && cell.ledger.heads.Keys == {"p"}
  {
    var steps := WholeCollection(FIRST);
    CollectionCompletes(EMPTY, FIRST);
    WholeCollectionNeverSettles(FIRST);
    CollectedRuns(START, steps);
    var cell := Course(START, Collected(steps));
    var approve, deliver := Approve("a", FIRST, "env", "NONE"), Deliver(["a"], OnlyA(fault));
    RecordIsLost(After(cell, approve), fault);
    TwoEvents(cell, approve, deliver);
    CoursesCompose(START, Collected(steps), [approve, deliver]);
  }

  /** The next proposal is published on top of `a`, and `a` is refused. */
  lemma ForgottenIsRefused(cell: Cell)
    requires cell.outbox == Forgotten().(rows := Forgotten().rows["b" := Waiting(SECOND, "graph-a")])
    ensures var after := Drain(cell, ["b", "a"], NoFaults).cell.outbox;
            && "a" in after.rows && after.rows["a"].status == STALE && after.rows["a"].environment == "env"
            && after.log == map["env" := ["NONE", "graph-a", "graph-b"]]
  {
    Names();
    assert ["b", "a"][1..] == ["a"];
    assert ["NONE", "graph-a"] + ["graph-b"] == ["NONE", "graph-a", "graph-b"];
    var first := DrainRow(cell, "b", NoFault);
    assert !first.raised && first.cell.outbox.pointers == map["env" := Pointer("graph-b", 2)];
    assert first.cell.outbox.rows["a"] == Waiting(FIRST, "NONE");
    assert first.cell.outbox.log == map["env" := ["NONE", "graph-a", "graph-b"]];
    DrainOfOne(first.cell, "a", NoFaults);
  }

  /** With a fault that loses the record, `a` is published and settled as stale. */
  lemma LostRecordBecomesStale(fault: Fault)
    requires LosesRecord(fault)
    ensures Possible(START, LostRun(fault))
    ensures var o := Course(START, LostRun(fault)).outbox;
            && "a" in o.rows && o.rows["a"].status == STALE
            && GraphVersion("a") in Versions(o, o.rows["a"].environment)
  {
    Names();
    PublishedRuns(fault);
    var cell := Course(START, Published(fault));
    var steps := WholeCollection(SECOND);
    assert "q" !in cell.ledger.heads;
    CollectionCompletes(cell.ledger, SECOND);
    WholeCollectionNeverSettles(SECOND);
    CollectedRuns(cell, steps);
    var next := Course(cell, Collected(steps));
    var approve, deliver := Approve("b", SECOND, "env", "graph-a"), Deliver(["b", "a"], NoFaults);
    ForgottenIsRefused(After(next, approve));
    TwoEvents(next, approve, deliver);
    CoursesCompose(cell, Collected(steps), [approve, deliver]);
    CoursesCompose(START, Published(fault), Overtaken());
    assert ["NONE", "graph-a", "graph-b"][1] == GraphVersion("a");
  }
}
