/** The collection runner itself: submission under its lock, the job queue, and one job from take to end. */
module CollectionRunner {
  import opened Common
  import opened CollectionLedger

  /** `steps` leads from `before` to `now`. */
  ghost predicate Traced(before: Ledger, steps: seq<Step>, now: Ledger)
  {
    Legal(before, steps) && Run(before, steps) == now
  }

  lemma {:induction false} Extend(before: Ledger, steps: seq<Step>, now: Ledger, step: Step)
    requires Traced(before, steps, now) && Enabled(now, step) && !step.Settle?
    ensures Traced(before, steps + [step], Next(now, step))
    decreases |steps|
  {
    var longer := steps + [step];
    if steps == [] {
      assert longer[1..] == [];
    } else {
      assert longer[1..] == steps[1..] + [step];
      Extend(Next(before, steps[0]), steps[1..], now, step);
    }
  }

  /** A timed step: its work may raise, and its timing is written either way. */
  datatype Timed = Timed(error: Option<string>, timing: Put)

  /** What happens between two recorded stages. */
  datatype Doing =
    | Plain(error: Option<string>)  // reading artifacts, checking results
    | Noted(put: Put)               // coverage, counts, run-time status
    | Measured(step: Timed)         // the aggregation, the run-time harness

  /** The interactions plane notes its counts, or else the error it met; `counts` is absent when the analysis failed. */
  datatype Interactions = Interactions(counts: Option<Put>, excuse: Put, timing: Put)

  /** What the surroundings do to one job, in the order in which it meets them. */
  datatype Fate = Fate(
    begin: Put,
    session: Option<string>,
    acquire: Timed,
    register: Timed,
    plan: Result<Kind, string>,
    planned: Put,
    interactions: Interactions,
    before: nat -> seq<Doing>,     // between the stages
    stage: nat -> Timed,
    after: nat -> Option<string>,  // reading the output of the stage
    recorded: nat -> Put,
    close: Put,
    head: Put,
    report: Put)

  function Lost(put: Put): Option<string>
  {
    if put == Stored then None else Some("PIPELINE_FAILED")
  }

  /** A timing that cannot be written hides the error of the step itself. */
  function StepError(step: Timed): Option<string>
  {
    if step.timing == Stored then step.error else Lost(step.timing)
  }

  function Trouble(doing: Doing): Option<string>
  {
    match doing
    case Plain(error) => error
    case Noted(put) => Lost(put)
    case Measured(step) => StepError(step)
  }

  /** The interactions plane fails the job only when the store refuses its last word or its timing. */
  function InteractionsError(plane: Interactions): Option<string>
  {
    StepError(Timed(if plane.counts == Some(Stored) then None else Lost(plane.excuse), plane.timing))
  }

  predicate NoTrouble(doings: seq<Doing>)
  {
    forall i :: 0 <= i < |doings| ==> Trouble(doings[i]).None?
  }

  predicate StageGoesWell(fate: Fate, i: nat)
  {
    && NoTrouble(fate.before(i)) && StepError(fate.stage(i)).None? && fate.after(i).None?
    && fate.recorded(i) == Stored
  }

  /** The stages from `i` on. */
  predicate StagesGoWell(fate: Fate, kind: Kind, i: nat)
    decreases StageCount(kind) - i
  {
    i < StageCount(kind) ==> StageGoesWell(fate, i) && StagesGoWell(fate, kind, i + 1)
  }

  /** All that a planned job meets goes well. */
  predicate PlanGoesWell(fate: Fate, kind: Kind)
  {
    if kind == NO_CHANGES then fate.close == Stored else StagesGoWell(fate, kind, 0) && fate.head == Stored
  }

  predicate GoesWell(fate: Fate)
  {
    && fate.begin == Stored && fate.session.None? && StepError(fate.acquire).None? && StepError(fate.register).None?
    && fate.plan.Ok? && fate.planned == Stored && InteractionsError(fate.interactions).None?
    && PlanGoesWell(fate, fate.plan.value)
  }

  // The writes a job asks the store for, one after the other, up to the first trouble.

  function DoingPuts(doing: Doing): seq<Put>
  {
    match doing
    case Plain(_) => []
    case Noted(put) => [put]
    case Measured(step) => [step.timing]
  }

  function PutsBetween(doings: seq<Doing>): seq<Put>
  {
    if doings == [] then []
    else DoingPuts(doings[0]) + if Trouble(doings[0]).None? then PutsBetween(doings[1..]) else []
  }

  /** The counts, if there are any; the excuse, if there are none or they could not be written; the timing. */
  function InteractionsPuts(plane: Interactions): seq<Put>
  {
    (if plane.counts.Some? then [plane.counts.value] else [])
    + (if plane.counts == Some(Stored) then [] else [plane.excuse]) + [plane.timing]
  }

  function ExecutionPuts(fate: Fate, i: nat): seq<Put>
  {
    PutsBetween(fate.before(i)) + if NoTrouble(fate.before(i)) then [fate.stage(i).timing] else []
  }

  predicate ExecutesWell(fate: Fate, i: nat)
  {
    NoTrouble(fate.before(i)) && StepError(fate.stage(i)).None? && fate.after(i).None?
  }

  function StagePuts(fate: Fate, i: nat): seq<Put>
  {
    ExecutionPuts(fate, i) + if ExecutesWell(fate, i) then [fate.recorded(i)] else []
  }

  function StagesPuts(fate: Fate, kind: Kind, i: nat): seq<Put>
    decreases StageCount(kind) - i
  {
    if i >= StageCount(kind) then []
    else StagePuts(fate, i) + if StageGoesWell(fate, i) then StagesPuts(fate, kind, i + 1) else []
  }

  function PlanPuts(fate: Fate, kind: Kind): seq<Put>
  {
    if kind == NO_CHANGES then [fate.close]
    else StagesPuts(fate, kind, 0) + if StagesGoWell(fate, kind, 0) then [fate.head] else []
  }

  function PreparationPuts(fate: Fate): seq<Put>
  {
    [fate.begin]
    + if fate.begin != Stored || fate.session.Some? then []
      else [fate.acquire.timing] + if StepError(fate.acquire).Some? then [] else [fate.register.timing]
  }

  predicate PreparesWell(fate: Fate)
  {
    && fate.begin == Stored && fate.session.None? && StepError(fate.acquire).None? && StepError(fate.register).None?
    && fate.plan.Ok?
  }

  /** The whole job, and the report of its failure if it fails. */
  function JobPuts(fate: Fate): seq<Put>
  {
    PreparationPuts(fate)
    + (if !PreparesWell(fate) then []
       else [fate.planned]
            + if fate.planned != Stored then []
              else InteractionsPuts(fate.interactions)
                   + if InteractionsError(fate.interactions).Some? then [] else PlanPuts(fate, fate.plan.value))
    + if GoesWell(fate) then [] else [fate.report]
  }

  lemma PutsStep(doings: seq<Doing>, i: nat)
    requires i < |doings|
    ensures PutsBetween(doings[i..])
            == DoingPuts(doings[i]) + if Trouble(doings[i]).None? then PutsBetween(doings[i + 1..]) else []
  {
    assert doings[i..][1..] == doings[i + 1..];
  }

  lemma Later(a: seq<Put>, b: seq<Put>, c: seq<Put>)
    ensures a + (b + c) == (a + b) + c && a + [] == a
  {
  }

  /** What the whole drive asks of the store, and whether it goes well. */
  datatype Course = Course(puts: seq<Put>, well: bool)

  /** After `puts` the stages from `i` on complete the course. */
  ghost predicate Remaining(puts: seq<Put>, fate: Fate, kind: Kind, i: nat, all: Course)
  {
    all == Course(puts + StagesPuts(fate, kind, i), StagesGoWell(fate, kind, i))
  }

  lemma RemainingStep(before: seq<Put>, after: seq<Put>, fate: Fate, kind: Kind, i: nat, all: Course)
    requires i < StageCount(kind)
    requires Remaining(before, fate, kind, i, all) && after == before + StagePuts(fate, i)
    ensures if StageGoesWell(fate, i) then Remaining(after, fate, kind, i + 1, all) else all == Course(after, false)
  {
    Later(before, StagePuts(fate, i), if StageGoesWell(fate, i) then StagesPuts(fate, kind, i + 1) else []);
  }

  lemma NoneRemaining(puts: seq<Put>, fate: Fate, kind: Kind, all: Course)
    requires Remaining(puts, fate, kind, StageCount(kind), all)
    ensures all == Course(puts, true)
  {
  }

  lemma PlanPutsAre(before: seq<Put>, fate: Fate, kind: Kind)
    requires kind != NO_CHANGES
    ensures before + PlanPuts(fate, kind)
            == before + StagesPuts(fate, kind, 0) + if StagesGoWell(fate, kind, 0) then [fate.head] else []
  {
  }

  lemma JobPutsAre(before: seq<Put>, fate: Fate)
    ensures GoesWell(fate) <==>
            && PreparesWell(fate) && fate.planned == Stored && InteractionsError(fate.interactions).None?
            && PlanGoesWell(fate, fate.plan.value)
    ensures var prepared := before + PreparationPuts(fate);
            var planned := prepared + [fate.planned];
            var noted := planned + InteractionsPuts(fate.interactions);
            before + JobPuts(fate)
            == (if !PreparesWell(fate) then prepared
                else if fate.planned != Stored then planned
                else if InteractionsError(fate.interactions).Some? then noted
                else noted + PlanPuts(fate, fate.plan.value))
               + if GoesWell(fate) then [] else [fate.report]
  {
  }

  /** What a submission is answered with; `job` is the command to queue afterwards, if any. */
  datatype Answer = Accepted(document: Document, job: Option<Command>) | Unavailable

  /** The document of a job on which nothing went wrong. */
  function Finished(attempt: nat, kind: Kind): Document
  {
    if kind == NO_CHANGES then Found(Queued(attempt).(status := RUNNING, kind := Some(kind)))
    else Document(attempt, COMPLETED, true, Some(kind), StageOrder(kind), ACCEPTED, None)
  }

  /** What the document of a job that went well shows, stage by stage. */
  lemma FinishedByName(attempt: nat)
    ensures Finished(attempt, BASELINE).stages
            == ["intake", "B1", "B2", "B3", "B4", "B5", "B6", "B7", "B8", "B9", "B10"]
    ensures Finished(attempt, INCREMENTAL).stages
            == ["intake", "I1", "I2", "I3", "I4", "I5", "I6", "I7", "I8", "I9", "I10"]
    ensures var kept := Finished(attempt, NO_CHANGES);
            kept.stages == [] && kept.outcome == DUPLICATE && kept.reason == Some("NO_CHANGES")
    ensures forall kind :: var document := Finished(attempt, kind);
                           && document.attempt == attempt && document.status == COMPLETED && document.terminal
                           && document.kind == Some(kind) && (kind != NO_CHANGES ==> document.outcome == ACCEPTED)
  {
    StagesByName();
  }

  /** The cached document when `i` stages are recorded. */
  function Halfway(start: Document, kind: Kind, i: nat): (state: Document)
    requires i <= StageCount(kind)
    ensures state.status == (if i < StageCount(kind) then start.status else COMPLETED) && |state.stages| == i
  {
    var reached := start.(stages := StageOrder(kind)[..i]);
    if i < StageCount(kind) then reached else reached.(status := COMPLETED, terminal := true, outcome := ACCEPTED)
  }

  lemma NextStage(start: Document, kind: Kind, i: nat)
    requires i < StageCount(kind) && !start.terminal
    ensures Recorded(Halfway(start, kind, i), kind) == Halfway(start, kind, i + 1)
    ensures Halfway(start, kind, i + 1).terminal <==> i + 1 == StageCount(kind)
  {
  }

  lemma FirstAndLast(start: Document, kind: Kind)
    requires kind != NO_CHANGES && start.stages == []
    ensures Halfway(start, kind, 0) == start
    ensures Halfway(start, kind, StageCount(kind))
            == start.(stages := StageOrder(kind), status := COMPLETED, terminal := true, outcome := ACCEPTED)
  {
  }

  lemma TracedKeeps(before: Ledger, steps: seq<Step>, now: Ledger)
    requires Inv(before) && Traced(before, steps, now)
    ensures Inv(now)
  {
    RunKeeps(before, steps);
  }

  lemma QueuedIsKnown(s: Ledger)
    requires Inv(s) && s.queue != []
    ensures s.queue[0] in s.documents
  {
    var c := s.queue[0];
    assert multiset(s.queue)[c] >= 1;
    assert Places(s.taken, s.queue, s.leaving, c) >= 1;
    assert c in s.documents.Keys;
  }

  class CollectionRunner {
    var heads: map<string, Command>
    var documents: map<Command, Document>
    var queue: seq<Command>
    ghost var leaving: set<Command>
    ghost var taken: seq<Command>
    ghost var worker: Worker
    ghost var puts: seq<Put>   // every write of a job, by how it ended

    ghost function View(): Ledger
      reads this
    {
      Ledger(heads, documents, leaving, queue, taken, worker)
    }

    constructor ()
      ensures View() == EMPTY
    {
      heads, documents, queue := map[], map[], [];
      leaving, taken, worker, puts := {}, [], Idle, [];
    }

    /** The part of a submission under the lock. */
    method SubmitCollection(digest: string, documentPut: Put, headPut: Put) returns (answer: Answer)
      modifies this
      ensures View() == Next(old(View()), Register(digest, documentPut, headPut))
      ensures answer.Accepted? <==> NextAttempt(old(View()), digest).None? || (documentPut == Stored && headPut == Stored)
      ensures answer.Accepted? ==>
                && answer.job == NextAttempt(old(View()), digest)
                && digest in heads && heads[digest] in documents && answer.document == documents[heads[digest]]
    {
      var attempt := 1;
      if digest in heads && heads[digest] in documents {
        var existing := documents[heads[digest]];
        if existing.status != FAILED_TERMINAL {
          return Accepted(existing, None);
        }
        attempt := existing.attempt + 1;
      }
      var c, document := Command(digest, attempt), Queued(attempt);
      if documentPut != Refused {
        documents := documents[c := document];
      }
      if documentPut != Stored {
        return Unavailable;
      }
      if headPut != Refused {
        heads := heads[digest := c];
      }
      if headPut != Stored {
        return Unavailable;
      }
      leaving := leaving + {c};
      answer := Accepted(document, Some(c));
    }

    method QueueJob(c: Command)
      requires c in leaving
      modifies this
      ensures View() == Next(old(View()), Enqueue(c))
    {
      queue := queue + [c];
      leaving := leaving - {c};
    }

    /** Put the cached document into the ledger; `error` when the store reports one. */
    method Update(c: Command, state: Document, put: Put, ghost phase: Phase, ghost act: Act,
                  ghost before: Ledger, ghost trace: seq<Step>)
      returns (error: Option<string>, ghost steps: seq<Step>)
      requires worker.Working? && worker.command == c && CanDo(worker, act)
      requires act.Begin? || act.Plan? || act.Record?
      requires Did(View(), act, put) == Written(View(), state, phase, put)
      requires Traced(before, trace, View())
      modifies this
      ensures error == Lost(put) && queue == old(queue) && puts == old(puts) + [put]
      ensures documents == if put == Refused then old(documents) else old(documents)[c := state]
      ensures worker == Working(c, state, if error.Some? then Failing(error.value) else phase)
      ensures Traced(before, steps, View())
    {
      ghost var now := View();
      puts := puts + [put];
      error := Lost(put);
      if put != Refused {
        documents := documents[c := state];
      }
      worker := Working(c, state, if put == Stored then phase else Failing("PIPELINE_FAILED"));
      Extend(before, trace, now, Work(act, put));
      steps := trace + [Work(act, put)];
    }

    /** An exception reaches the handler. */
    ghost method Raised(c: Command, state: Document, reason: string, before: Ledger, trace: seq<Step>)
      returns (steps: seq<Step>)
      requires worker.Working? && worker.command == c && worker.state == state && CanDo(worker, Raise(reason))
      requires Traced(before, trace, View())
      modifies this
      ensures View() == old(View()).(worker := Working(c, state, Failing(reason))) && Traced(before, steps, View())
      ensures puts == old(puts)
    {
      Extend(before, trace, View(), Work(Raise(reason), Stored));
      worker := Working(c, state, Failing(reason));
      steps := trace + [Work(Raise(reason), Stored)];
    }

    /** The worker is between two steps of the job and the ledger holds its cached document. */
    ghost predicate Between(c: Command, state: Document)
      reads this
    {
      && worker.Working? && worker.command == c && worker.state == state
      && (worker.phase == Running || worker.phase.Planned?)
      && c in documents && documents[c] == state
    }

    /** Write the cached document with a new note; whether a failure is raised is up to the caller. */
    method WriteNote(c: Command, state: Document, put: Put, ghost before: Ledger, ghost trace: seq<Step>)
      returns (ghost steps: seq<Step>)
      requires Between(c, state) && Traced(before, trace, View())
      modifies this
      ensures View() == old(View()) && Traced(before, steps, View()) && puts == old(puts) + [put]
    {
      ghost var now := View();
      puts := puts + [put];
      if put != Refused {
        documents := documents[c := state];
      }
      assert View() == now;
      Extend(before, trace, now, Work(Note, put));
      steps := trace + [Work(Note, put)];
    }

    /** Go on, or let the error reach the handler. */
    ghost method Proceed(c: Command, state: Document, error: Option<string>, before: Ledger, trace: seq<Step>)
      returns (steps: seq<Step>)
      requires Between(c, state) && Traced(before, trace, View())
      modifies this
      ensures Traced(before, steps, View())
      ensures View() == if error.Some? then old(View()).(worker := Working(c, state, Failing(error.value))) else old(View())
      ensures puts == old(puts)
    {
      steps := trace;
      if error.Some? {
        steps := Raised(c, state, error.value, before, trace);
      }
    }

    /** One timed step: the timing is written whether or not the work raised. */
    method Measure(c: Command, state: Document, step: Timed, ghost before: Ledger, ghost trace: seq<Step>)
      returns (error: Option<string>, ghost steps: seq<Step>)
      requires Between(c, state) && Traced(before, trace, View())
      modifies this
      ensures error == StepError(step)
      ensures Traced(before, steps, View())
      ensures View() == if error.Some? then old(View()).(worker := Working(c, state, Failing(error.value))) else old(View())
      ensures puts == old(puts) + [step.timing]
    {
      steps := WriteNote(c, state, step.timing, before, trace);
      error := if step.timing == Stored then step.error else Lost(step.timing);
      steps := Proceed(c, state, error, before, steps);
    }

    /** The interactions plane: its counts, or the reason why there are none, and its timing. */
    method CollectInteractions(c: Command, state: Document, plane: Interactions, ghost before: Ledger,
                               ghost trace: seq<Step>)
      returns (error: Option<string>, ghost steps: seq<Step>)
      requires Between(c, state) && Traced(before, trace, View())
      modifies this
      ensures error == InteractionsError(plane)
      ensures Traced(before, steps, View())
      ensures View() == if error.Some? then old(View()).(worker := Working(c, state, Failing(error.value))) else old(View())
      ensures puts == old(puts) + InteractionsPuts(plane)
    {
      steps := trace;
      error := None;
      if plane.counts.Some? {
        steps := WriteNote(c, state, plane.counts.value, before, steps);
      }
      if plane.counts != Some(Stored) {
        steps := WriteNote(c, state, plane.excuse, before, steps);
        error := Lost(plane.excuse);
      }
      error, steps := Measure(c, state, Timed(error, plane.timing), before, steps);
    }

    /** What lies between two stages, up to the first error. */
    method Perform(c: Command, state: Document, doings: seq<Doing>, ghost before: Ledger, ghost trace: seq<Step>)
      returns (error: Option<string>, ghost steps: seq<Step>)
      requires Between(c, state) && Traced(before, trace, View())
      modifies this
      ensures error.None? <==> NoTrouble(doings)
      ensures Traced(before, steps, View())
      ensures View() == if error.Some? then old(View()).(worker := Working(c, state, Failing(error.value))) else old(View())
      ensures puts == old(puts) + PutsBetween(doings)
    {
      error, steps := None, trace;
      var i := 0;
      assert doings[0..] == doings;
      while i < |doings|
        invariant i <= |doings| && error.None?
        invariant puts + PutsBetween(doings[i..]) == old(puts) + PutsBetween(doings)
        invariant forall j :: 0 <= j < i ==> Trouble(doings[j]).None?
        invariant View() == old(View()) && Traced(before, steps, View())
      {
        ghost var earlier := puts;
        PutsStep(doings, i);
        Later(puts, DoingPuts(doings[i]), if Trouble(doings[i]).None? then PutsBetween(doings[i + 1..]) else []);
        match doings[i] {
          case Plain(e) =>
            error := e;
            steps := Proceed(c, state, error, before, steps);
          case Noted(put) =>
            steps := WriteNote(c, state, put, before, steps);
            error := Lost(put);
            steps := Proceed(c, state, error, before, steps);
          case Measured(step) =>
            error, steps := Measure(c, state, step, before, steps);
        }
        if error.Some? {
          return;
        }
        i := i + 1;
      }
    }

    /** One stage of a workflow up to the write that records it. */
    method ExecuteStage(c: Command, state: Document, i: nat, fate: Fate, ghost before: Ledger, ghost trace: seq<Step>)
      returns (error: Option<string>, ghost steps: seq<Step>)
      requires Between(c, state) && Traced(before, trace, View())
      modifies this
      ensures error.None? <==>
              NoTrouble(fate.before(i)) && StepError(fate.stage(i)).None? && fate.after(i).None?
      ensures Traced(before, steps, View())
      ensures View() == if error.Some? then old(View()).(worker := Working(c, state, Failing(error.value))) else old(View())
      ensures puts == old(puts) + ExecutionPuts(fate, i)
    {
      error, steps := Perform(c, state, fate.before(i), before, trace);
      if error.None? {
        error, steps := Measure(c, state, fate.stage(i), before, steps);
        if error.None? {
          error := fate.after(i);
          steps := Proceed(c, state, error, before, steps);
        }
      }
    }

    /** The next stage of a workflow, recorded. */
    method RecordStage(c: Command, kind: Kind, i: nat, start: Document, fate: Fate, ghost first: Document,
                       ghost before: Ledger, ghost trace: seq<Step>, ghost all: Course)
      returns (state: Document, error: Option<string>, ghost steps: seq<Step>)
      requires i < StageCount(kind) && first.status == RUNNING && !first.terminal && start == Halfway(first, kind, i)
      requires worker == Working(c, start, Planned(kind))
      requires c in documents && documents[c] == start && Traced(before, trace, View())
      requires Remaining(puts, fate, kind, i, all)
      modifies this
      ensures if error.None? then Remaining(puts, fate, kind, i + 1, all) else all == Course(puts, false)
      ensures Traced(before, steps, View()) && queue == old(queue)
      ensures c in documents && documents == old(documents)[c := documents[c]]
      ensures error.Some? ==> worker == Working(c, state, Failing(error.value))
      ensures error.None? ==>
                && state == Halfway(first, kind, i + 1) && documents[c] == state
                && worker == Working(c, state, if i + 1 == StageCount(kind) then Closing else Planned(kind))
    {
      NextStage(first, kind, i);
      state := start;
      error, steps := ExecuteStage(c, state, i, fate, before, trace);
      if error.None? {
        state := Recorded(start, kind);
        error, steps := Update(c, state, fate.recorded(i), if state.terminal then Closing else Planned(kind),
                               Record, before, steps);
      }
      RemainingStep(old(puts), puts, fate, kind, i, all);
    }

    /** Run the stages of a workflow in order, recording each. */
    method Drive(c: Command, kind: Kind, start: Document, fate: Fate, ghost before: Ledger, ghost trace: seq<Step>)
      returns (state: Document, error: Option<string>, ghost steps: seq<Step>)
      requires kind != NO_CHANGES && start.kind == Some(kind) && start.stages == []
      requires worker == Working(c, start, Planned(kind)) && start.status == RUNNING && !start.terminal
      requires c in documents && documents[c] == start && Traced(before, trace, View())
      modifies this
      ensures Traced(before, steps, View()) && queue == old(queue)
      ensures c in documents && documents == old(documents)[c := documents[c]]
      ensures error.Some? ==> worker == Working(c, state, Failing(error.value))
      ensures error.None? ==>
                worker == Working(c, state, Closing) && documents[c] == state
                && state == start.(stages := StageOrder(kind), status := COMPLETED, terminal := true, outcome := ACCEPTED)
      ensures error.None? <==> StagesGoWell(fate, kind, 0)
      ensures puts == old(puts) + StagesPuts(fate, kind, 0)
    {
      FirstAndLast(start, kind);
      state, error, steps := start, None, trace;
      ghost var all := Course(puts + StagesPuts(fate, kind, 0), StagesGoWell(fate, kind, 0));
      var i := 0;
      while i < StageCount(kind)
        invariant i <= StageCount(kind) && error.None?
        invariant Traced(before, steps, View()) && queue == old(queue)
        invariant state == Halfway(start, kind, i)
        invariant worker == Working(c, state, if i == StageCount(kind) then Closing else Planned(kind))
        invariant c in documents && documents[c] == state && documents == old(documents)[c := state]
        invariant Remaining(puts, fate, kind, i, all)
      {
        state, error, steps := RecordStage(c, kind, i, state, fate, start, before, steps, all);
        if error.Some? {
          return;
        }
        i := i + 1;
      }
      NoneRemaining(puts, fate, kind, all);
    }

    /** From the first write to the plan: session, source archive, registration. */
    method Prepare(c: Command, start: Document, fate: Fate, ghost before: Ledger, ghost trace: seq<Step>)
      returns (state: Document, error: Option<string>, ghost steps: seq<Step>)
      requires worker == Working(c, start, Taken) && start == Queued(start.attempt) && c in documents
      requires Traced(before, trace, View())
      modifies this
      ensures Traced(before, steps, View()) && queue == old(queue) && state == start.(status := RUNNING)
      ensures worker == Working(c, state, if error.Some? then Failing(error.value) else Running)
      ensures documents == if fate.begin == Refused then old(documents) else old(documents)[c := state]
      ensures error.None? <==>
              fate.begin == Stored && fate.session.None? && StepError(fate.acquire).None?
              && StepError(fate.register).None? && fate.plan.Ok?
      ensures puts == old(puts) + PreparationPuts(fate)
    {
      state := start.(status := RUNNING);
      error, steps := Update(c, state, fate.begin, Running, Begin, before, trace);
      if error.None? {
        error := fate.session;
        steps := Proceed(c, state, error, before, steps);
      }
      if error.None? {
        error, steps := Measure(c, state, fate.acquire, before, steps);
      }
      if error.None? {
        error, steps := Measure(c, state, fate.register, before, steps);
      }
      if error.None? && fate.plan.Err? {
        error := Some(fate.plan.error);
        steps := Proceed(c, state, error, before, steps);
      }
    }

    /** Everything inside the handler: prepare, plan, the interactions plane, the stages, the repository head. */
    method Attempt(c: Command, start: Document, fate: Fate, ghost before: Ledger, ghost trace: seq<Step>)
      returns (state: Document, error: Option<string>, ghost steps: seq<Step>)
      requires worker == Working(c, start, Taken) && start == Queued(start.attempt) && c in documents
      requires Traced(before, trace, View())
      modifies this
      ensures Traced(before, steps, View()) && queue == old(queue)
      ensures error.Some? ==> worker == Working(c, state, Failing(error.value))
      ensures c in documents && documents == old(documents)[c := documents[c]]
      ensures error.None? ==>
                worker == Idle && fate.plan.Ok? && documents[c] == Finished(start.attempt, fate.plan.value)
      ensures error.None? <==> GoesWell(fate)
      ensures puts + (if error.None? then [] else [fate.report]) == old(puts) + JobPuts(fate)
    {
      JobPutsAre(puts, fate);
      state, error, steps := Prepare(c, start, fate, before, trace);
      if error.Some? {
        return;
      }
      var kind := fate.plan.value;
      state := state.(kind := Some(kind));
      error, steps := Update(c, state, fate.planned, Planned(kind), Plan(kind), before, steps);
      if error.Some? {
        return;
      }
      error, steps := CollectInteractions(c, state, fate.interactions, before, steps);
      if error.Some? {
        return;
      }
      state, error, steps := Carry(c, kind, state, fate, before, steps);
    }

    /** The planned job. */
    method Carry(c: Command, kind: Kind, start: Document, fate: Fate, ghost before: Ledger, ghost trace: seq<Step>)
      returns (state: Document, error: Option<string>, ghost steps: seq<Step>)
      requires worker == Working(c, start, Planned(kind)) && c in documents && documents[c] == start
      requires start == Queued(start.attempt).(status := RUNNING, kind := Some(kind))
      requires Traced(before, trace, View())
      modifies this
      ensures Traced(before, steps, View()) && queue == old(queue)
      ensures error.Some? ==> worker == Working(c, state, Failing(error.value))
      ensures c in documents && documents == old(documents)[c := documents[c]]
      ensures error.None? ==> worker == Idle && documents[c] == Finished(start.attempt, kind)
      ensures error.None? <==> PlanGoesWell(fate, kind)
      ensures puts == old(puts) + PlanPuts(fate, kind)
    {
      if kind == NO_CHANGES {
        state, error, steps := Close(c, start, fate.close, before, trace);
      } else {
        PlanPutsAre(puts, fate, kind);
        state, error, steps := Drive(c, kind, start, fate, before, trace);
        if error.None? {
          error, steps := WriteHead(c, state, fate.head, before, steps);
        }
      }
    }

    method Close(c: Command, start: Document, put: Put, ghost before: Ledger, ghost trace: seq<Step>)
      returns (state: Document, error: Option<string>, ghost steps: seq<Step>)
      requires worker == Working(c, start, Planned(NO_CHANGES)) && Traced(before, trace, View())
      modifies this
      ensures Traced(before, steps, View()) && queue == old(queue) && state == Found(start) && error == Lost(put)
      ensures documents == if put == Refused then old(documents) else old(documents)[c := state]
      ensures worker == if error.None? then Idle else Working(c, state, Failing(error.value))
      ensures puts == old(puts) + [put]
    {
      puts := puts + [put];
      ghost var now := View();
      state := Found(start);
      if put != Refused {
        documents := documents[c := state];
      }
      error := Lost(put);
      worker := if put == Stored then Idle else Working(c, state, Failing("PIPELINE_FAILED"));
      Extend(before, trace, now, Work(Duplicate, put));
      steps := trace + [Work(Duplicate, put)];
    }

    method WriteHead(c: Command, state: Document, put: Put, ghost before: Ledger, ghost trace: seq<Step>)
      returns (error: Option<string>, ghost steps: seq<Step>)
      requires worker == Working(c, state, Closing) && Traced(before, trace, View())
      modifies this
      ensures Traced(before, steps, View()) && queue == old(queue) && documents == old(documents) && error == Lost(put)
      ensures worker == if error.None? then Idle else Working(c, state, Failing(error.value))
      ensures puts == old(puts) + [put]
    {
      puts := puts + [put];
      ghost var now := View();
      error := Lost(put);
      worker := if put == Stored then Idle else Working(c, state, Failing("PIPELINE_FAILED"));
      Extend(before, trace, now, Work(PutHead, put));
      steps := trace + [Work(PutHead, put)];
    }

    /** The handler writes the failure. */
    method ReportFailure(c: Command, state: Document, reason: string, put: Put, ghost before: Ledger,
                         ghost trace: seq<Step>)
      returns (ghost steps: seq<Step>)
      requires worker == Working(c, state, Failing(reason)) && Traced(before, trace, View())
      modifies this
      ensures Traced(before, steps, View()) && queue == old(queue) && worker == Idle
      ensures documents == if put == Refused then old(documents) else old(documents)[c := Failed(state, reason)]
      ensures puts == old(puts) + [put]
    {
      puts := puts + [put];
      ghost var now := View();
      if put != Refused {
        documents := documents[c := Failed(state, reason)];
      }
      worker := Idle;
      Extend(before, trace, now, Work(Report, put));
      steps := trace + [Work(Report, put)];
    }

    method TakeJob() returns (c: Command, state: Document)
      requires worker == Idle && queue != [] && Inv(View())
      modifies this
      ensures Traced(old(View()), [Take], View())
      ensures c == old(queue)[0] && queue == old(queue)[1..] && documents == old(documents) && c in documents
      ensures worker == Working(c, state, Taken) && state == Queued(c.attempt)
      ensures puts == old(puts)
    {
      ghost var before := View();
      QueuedIsKnown(before);
      c := queue[0];
      state := documents[c];
      queue, taken, worker := queue[1..], taken + [c], Working(c, state, Taken);
      assert Traced(before, [], before);
      Extend(before, [], before, Take);
    }

    /** The job in hand, handler included. */
    method WorkOff(c: Command, start: Document, fate: Fate, ghost before: Ledger, ghost trace: seq<Step>)
      returns (ghost steps: seq<Step>)
      requires worker == Working(c, start, Taken) && start == Queued(c.attempt) && c in documents
      requires Traced(before, trace, View())
      modifies this
      ensures Traced(before, steps, View()) && worker == Idle && queue == old(queue)
      ensures c in documents && documents == old(documents)[c := documents[c]]
      ensures GoesWell(fate) ==> documents[c] == Finished(c.attempt, fate.plan.value)
      ensures !GoesWell(fate) && fate.report != Refused ==> documents[c].status == FAILED_TERMINAL
      ensures puts == old(puts) + JobPuts(fate)
    {
      var state, error;
      state, error, steps := Attempt(c, start, fate, before, trace);
      if error.Some? {
        steps := ReportFailure(c, state, error.value, fate.report, before, steps);
      }
    }

    /**
     * One whole job: it is a run of worker steps, it leaves the worker idle, it touches no other document, and
     * the document ends with every stage of its workflow recorded if nothing goes wrong, and failed if
     * something does and the failure can be written.
     */
    method RunCollection(fate: Fate) returns (ghost steps: seq<Step>)
      requires worker == Idle && queue != [] && Inv(View())
      modifies this
      ensures Traced(old(View()), steps, View()) && Inv(View())
      ensures worker == Idle && queue == old(queue)[1..]
      ensures var c := old(queue)[0];
              && c in documents && documents == old(documents)[c := documents[c]]
              && (GoesWell(fate) ==> documents[c] == Finished(c.attempt, fate.plan.value))
              && (!GoesWell(fate) && fate.report != Refused ==> documents[c].status == FAILED_TERMINAL)
      ensures GoesWell(fate) && fate.plan.value == BASELINE ==>
                documents[old(queue)[0]].stages
                == ["intake", "B1", "B2", "B3", "B4", "B5", "B6", "B7", "B8", "B9", "B10"]
      ensures GoesWell(fate) && fate.plan.value == INCREMENTAL ==>
                documents[old(queue)[0]].stages
                == ["intake", "I1", "I2", "I3", "I4", "I5", "I6", "I7", "I8", "I9", "I10"]
      ensures puts == old(puts) + JobPuts(fate)
    {
      ghost var before := View();
      var c, state := TakeJob();
      FinishedByName(c.attempt);
      steps := WorkOff(c, state, fate, before, [Take]);
      TracedKeeps(before, steps, View());
    }
  }
}
