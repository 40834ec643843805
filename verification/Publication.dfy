/** Approved proposals leave through an outbox: a drain publishes them or settles them as stale. */
module Publication {
  import opened Common
  import opened CollectionLedger

  // ---------------------------------------------------------------- outbox and pointers

  datatype RowStatus = PENDING | DELIVERED | STALE

  /** An approved proposal: the collection it came from, and the graph version it is pinned to. */
  datatype Row = Row(command: Option<Command>, environment: string, base: string, status: RowStatus, recorded: bool)

  datatype Pointer = Pointer(version: string, fence: nat)

  /** `log` holds, per environment, every version that was ever active, oldest first. */
  datatype Outbox = Outbox(rows: map<string, Row>, pointers: map<string, Pointer>, log: map<string, seq<string>>)

  /** The version the proposal of a row produces. */
  function GraphVersion(id: string): string
  {
    "graph-" + id
  }

  function Active(o: Outbox, environment: string): Pointer
  {
    if environment in o.pointers then o.pointers[environment] else Pointer("NONE", 0)
  }

  function Versions(o: Outbox, environment: string): seq<string>
  {
    if environment in o.log then o.log[environment] else ["NONE"]
  }

  // ---------------------------------------------------------------- one publication

  /**
   * Where a call fails, if it does; the failure either reaches the drain or comes back as a redrive, and
   * the write may have landed although its caller saw an error.
   */
  datatype Point = Claim | Activation | Recording | Acknowledgement | Refusal | Settlement
  datatype Fault = NoFault | Fault(at: Point, raises: bool, landed: bool)

  datatype Verdict = Answered(outcome: string) | StaleBase | Raised

  function Broken(fault: Fault): Verdict
  {
    if fault.Fault? && fault.raises then Raised else Answered("REDRIVE_REQUIRED")
  }

  predicate Fails(fault: Fault, at: Point)
  {
    fault.Fault? && fault.at == at
  }

  /** The write at this point is not stored. */
  predicate Misses(fault: Fault, at: Point)
  {
    Fails(fault, at) && !fault.landed
  }

  function WithRow(o: Outbox, id: string, row: Row): Outbox
  {
    o.(rows := o.rows[id := row])
  }

  /** The pointer moves to the version of the row, in one transaction with the next fence. */
  function Activated(o: Outbox, id: string): Outbox
    requires id in o.rows
  {
    var e := o.rows[id].environment;
    o.(pointers := o.pointers[e := Pointer(GraphVersion(id), Active(o, e).fence + 1)],
       log := o.log[e := Versions(o, e) + [GraphVersion(id)]])
  }

  /**
   * The conditional write of a pointer that was read as `expected`: it fails once the pointer has moved,
   * unless it was this very publication that moved it.
   */
  function TryActivate(o: Outbox, id: string, expected: Pointer): Option<Outbox>
    requires id in o.rows
  {
    var e := o.rows[id].environment;
    if e !in o.pointers || o.pointers[e] == expected then
      Some(o.(pointers := o.pointers[e := Pointer(GraphVersion(id), expected.fence + 1)],
              log := o.log[e := Versions(o, e) + [GraphVersion(id)]]))
    else if o.pointers[e] == Pointer(GraphVersion(id), expected.fence + 1) then Some(o)
    else None
  }

  /** The stage is recorded, then the row acknowledged. */
  function Acknowledged(o: Outbox, id: string, fault: Fault, outcome: string): (Outbox, Verdict)
    requires id in o.rows
  {
    (if Misses(fault, Acknowledgement) then o else WithRow(o, id, o.rows[id].(status := DELIVERED)),
     if Fails(fault, Acknowledgement) then Broken(fault) else Answered(outcome))
  }

  function RecordedRow(o: Outbox, id: string, fault: Fault): (Outbox, Verdict)
    requires id in o.rows
  {
    if Misses(fault, Recording) then (o, Broken(fault))
    else
      var recorded := WithRow(o, id, o.rows[id].(recorded := true));
      if Fails(fault, Recording) then (recorded, Broken(fault))
      else Acknowledged(recorded, id, fault, "PUBLISHED")
  }

  /** The pointer moves, if it still stands where it was read; then the stage is recorded. */
  function Moved(o: Outbox, id: string, expected: Pointer, fault: Fault): (Outbox, Verdict)
    requires id in o.rows
  {
    if Misses(fault, Activation) then (o, Broken(fault))
    else
      match TryActivate(o, id, expected)
      case None => (o, Answered("REDRIVE_REQUIRED"))
      case Some(after) =>
        if Fails(fault, Activation) then (after, Broken(fault)) else RecordedRow(after, id, fault)
  }

  /** The publication stage on a pending row; an envelope without a command is not executed at all. */
  function Execute(o: Outbox, id: string, fault: Fault): (Outbox, Verdict)
    requires id in o.rows
  {
    var row := o.rows[id];
    var active := Active(o, row.environment);
    if row.command.None? then (o, Raised)
    else if Fails(fault, Claim) then (o, Broken(fault))
    else if row.recorded then Acknowledged(o, id, fault, "SKIPPED")
    else if active.version == GraphVersion(id) then RecordedRow(o, id, fault)
    else if active.version != row.base then (o, StaleBase)
    else Moved(o, id, active, fault)
  }

  // ---------------------------------------------------------------- draining

  datatype Cell = Cell(ledger: Ledger, outbox: Outbox)

  const START := Cell(EMPTY, Outbox(map[], map[], map[]))

  datatype Entry = Entry(command: Option<Command>, outcome: string)

  datatype Drained = Drained(cell: Cell, published: seq<Entry>, raised: bool)

  /** A refused publication fails its row, then its collection. */
  function SettledRow(cell: Cell, id: string, fault: Fault): (Cell, bool)
    requires id in cell.outbox.rows
  {
    var row := cell.outbox.rows[id];
    var stale := cell.(outbox := WithRow(cell.outbox, id, row.(status := STALE)));
    if Fails(fault, Refusal) then (if fault.landed then stale else cell, true)
    else if row.command.None? then (stale, false)
    else
      (if Misses(fault, Settlement) then stale else stale.(ledger := Settled(cell.ledger, row.command.value)),
       Fails(fault, Settlement))
  }

  function DrainRow(cell: Cell, id: string, fault: Fault): Drained
  {
    if id !in cell.outbox.rows || cell.outbox.rows[id].status != PENDING then Drained(cell, [], false)
    else
      var command := cell.outbox.rows[id].command;
      var (outbox, verdict) := Execute(cell.outbox, id, fault);
      match verdict
      case Raised => Drained(cell.(outbox := outbox), [], true)
      case Answered(outcome) => Drained(cell.(outbox := outbox), [Entry(command, outcome)], false)
      case StaleBase =>
        var (after, raised) := SettledRow(cell, id, fault);
        Drained(after, if raised then [] else [Entry(command, "STALE_PROPOSAL_BASE")], raised)
  }

  /** A drain visits the rows in the order the scan returns them and stops at the first exception. */
  function Drain(cell: Cell, order: seq<string>, fault: string -> Fault): Drained
    decreases |order|
  {
    if order == [] then Drained(cell, [], false)
    else
      var first := DrainRow(cell, order[0], fault(order[0]));
      if first.raised then first
      else
        var rest := Drain(first.cell, order[1..], fault);
        rest.(published := first.published + rest.published)
  }

  // ---------------------------------------------------------------- runs of the cell

  datatype Event =
    | Collect(step: Step)
    | Approve(id: string, command: Command, environment: string, base: string)
    | Deliver(order: seq<string>, fault: string -> Fault)

  /** An approval writes its row once; a repeated one is refused. */
  function Approved(o: Outbox, id: string, command: Command, environment: string, base: string): Outbox
  {
    if id in o.rows then o else WithRow(o, id, Row(Some(command), environment, base, PENDING, false))
  }

  /** Approvals come after the collection of the proposal has ended. */
  predicate CanHappen(cell: Cell, event: Event)
  {
    match event
    case Collect(step) => Enabled(cell.ledger, step) && !step.Settle?
    case Approve(_, command, _, _) =>
      command in cell.ledger.documents && cell.ledger.documents[command].terminal
    case Deliver(_, _) => true
  }

  function After(cell: Cell, event: Event): Cell
    requires CanHappen(cell, event)
  {
    match event
    case Collect(step) => cell.(ledger := Next(cell.ledger, step))
    case Approve(id, command, environment, base) =>
      cell.(outbox := Approved(cell.outbox, id, command, environment, base))
    case Deliver(order, fault) => Drain(cell, order, fault).cell
  }

  predicate Possible(cell: Cell, events: seq<Event>)
    decreases |events|
  {
    events == [] || (CanHappen(cell, events[0]) && Possible(After(cell, events[0]), events[1..]))
  }

  function Course(cell: Cell, events: seq<Event>): Cell
    requires Possible(cell, events)
    decreases |events|
  {
    if events == [] then cell else Course(After(cell, events[0]), events[1..])
  }

  // ---------------------------------------------------------------- what every run keeps

  /** The version belongs to a row of this environment that is pinned to `prior`. */
  predicate Linked(rows: map<string, Row>, environment: string, prior: string, version: string)
  {
    |version| >= 6
    && var id := version[6..];
       GraphVersion(id) == version && id in rows
       && rows[id].environment == environment && rows[id].base == prior
  }

  /** The versions form a chain from nothing, without repetition, and the pointer stands at its end. */
  ghost predicate Chained(rows: map<string, Row>, environment: string, versions: seq<string>, active: Pointer)
  {
    && versions != [] && versions[0] == "NONE" && Distinct(versions)
    && active == Pointer(versions[|versions| - 1], |versions| - 1)
    && forall i :: 1 <= i < |versions| ==> Linked(rows, environment, versions[i - 1], versions[i])
  }

  /** What the state of a row says about the pointer's past. */
  predicate RowAgrees(row: Row, id: string, versions: seq<string>)
  {
    && (row.status == DELIVERED || row.recorded ==> GraphVersion(id) in versions)
    && (row.status == STALE ==> !row.recorded)
  }

  ghost predicate OutboxInv(o: Outbox)
  {
    && (forall e :: Chained(o.rows, e, Versions(o, e), Active(o, e)))
    && (forall id :: id in o.rows ==> RowAgrees(o.rows[id], id, Versions(o, o.rows[id].environment)))
  }

  /** Rows stay, their proposals do not change, and a row that left PENDING is left alone. */
  ghost predicate RowsKeep(before: map<string, Row>, after: map<string, Row>)
  {
    forall id :: id in before ==>
                   id in after
                   && after[id].command == before[id].command && after[id].environment == before[id].environment
                   && after[id].base == before[id].base
                   && (before[id].recorded ==> after[id].recorded)
                   && (before[id].status != PENDING ==> after[id] == before[id])
  }

  /** Versions are only added, and the fence rises by one with each. */
  predicate Rises(before: seq<string>, from: Pointer, after: seq<string>, to: Pointer)
  {
    before <= after && to.fence - from.fence == |after| - |before| && (after == before ==> to == from)
  }

  ghost predicate PointersRise(before: Outbox, after: Outbox)
  {
    forall e :: Rises(Versions(before, e), Active(before, e), Versions(after, e), Active(after, e))
  }

  /** A row that left PENDING never moves a pointer again. */
  ghost predicate SettledRowsRest(before: Outbox, after: Outbox)
  {
    forall id :: id in before.rows && before.rows[id].status != PENDING ==>
                   var e := before.rows[id].environment;
                   GraphVersion(id) in Versions(after, e) ==> GraphVersion(id) in Versions(before, e)
  }

  ghost predicate Steps(before: Outbox, after: Outbox)
  {
    && OutboxInv(after) && RowsKeep(before.rows, after.rows)
    && PointersRise(before, after) && SettledRowsRest(before, after)
  }

  lemma RisesCompose(a: seq<string>, p: Pointer, b: seq<string>, q: Pointer, c: seq<string>, r: Pointer)
    requires Rises(a, p, b, q) && Rises(b, q, c, r)
    ensures Rises(a, p, c, r)
  {
  }

  lemma StepsCompose(a: Outbox, b: Outbox, c: Outbox)
    requires Steps(a, b) && Steps(b, c)
    ensures Steps(a, c)
  {
    forall e ensures Rises(Versions(a, e), Active(a, e), Versions(c, e), Active(c, e)) {
      RisesCompose(Versions(a, e), Active(a, e), Versions(b, e), Active(b, e), Versions(c, e), Active(c, e));
    }
  }

  lemma StaysPut(o: Outbox)
    requires OutboxInv(o)
    ensures Steps(o, o)
  {
  }

  lemma LinksStay(before: map<string, Row>, after: map<string, Row>, e: string, versions: seq<string>, active: Pointer)
    requires RowsKeep(before, after) && Chained(before, e, versions, active)
    ensures Chained(after, e, versions, active)
  {
    forall i | 1 <= i < |versions| ensures Linked(after, e, versions[i - 1], versions[i]) {
      assert Linked(before, e, versions[i - 1], versions[i]);
    }
  }

  /** Changing one row's progress keeps the chains. */
  lemma RowChanges(o: Outbox, id: string, row: Row)
    requires OutboxInv(o) && RowsKeep(o.rows, o.rows[id := row])
    requires RowAgrees(row, id, Versions(o, row.environment))
    ensures Steps(o, WithRow(o, id, row))
  {
    var after := WithRow(o, id, row);
    forall e ensures Chained(after.rows, e, Versions(after, e), Active(after, e))
                     && Versions(after, e) == Versions(o, e) && Active(after, e) == Active(o, e)
    {
      LinksStay(o.rows, after.rows, e, Versions(o, e), Active(o, e));
    }
  }

  lemma VersionNamesRow(id: string)
    ensures |GraphVersion(id)| >= 6 && GraphVersion(id)[6..] == id && GraphVersion(id) != "NONE"
  {
    assert |"graph-"| == 6;
  }

  /** A version whose base is the last of the chain was not in the chain before. */
  lemma NotActiveBefore(rows: map<string, Row>, e: string, versions: seq<string>, active: Pointer, id: string)
    requires Chained(rows, e, versions, active) && id in rows && rows[id].base == active.version
    ensures GraphVersion(id) !in versions
  {
    VersionNamesRow(id);
    forall i | 0 <= i < |versions| ensures versions[i] != GraphVersion(id) {
      if i > 0 {
        assert Linked(rows, e, versions[i - 1], versions[i]);
      }
    }
  }

  lemma ChainGrows(rows: map<string, Row>, e: string, versions: seq<string>, active: Pointer, id: string)
    requires Chained(rows, e, versions, active) && id in rows
    requires rows[id].environment == e && rows[id].base == active.version
    ensures Chained(rows, e, versions + [GraphVersion(id)], Pointer(GraphVersion(id), active.fence + 1))
  {
    var v, more := GraphVersion(id), versions + [GraphVersion(id)];
    NotActiveBefore(rows, e, versions, active, id);
    VersionNamesRow(id);
    forall i | 1 <= i < |more| ensures Linked(rows, e, more[i - 1], more[i]) {
      if i < |versions| {
        assert Linked(rows, e, versions[i - 1], versions[i]);
      }
    }
  }

  lemma ActivationExtends(o: Outbox, id: string, e: string)
    requires OutboxInv(o) && id in o.rows && e == o.rows[id].environment
    ensures var after := Activated(o, id);
            && Versions(after, e) == Versions(o, e) + [GraphVersion(id)]
            && Active(after, e) == Pointer(GraphVersion(id), Active(o, e).fence + 1)
            && forall d :: d != e ==> Versions(after, d) == Versions(o, d) && Active(after, d) == Active(o, d)
  {
  }

  lemma ActivationRests(o: Outbox, id: string)
    requires OutboxInv(o) && id in o.rows && o.rows[id].status == PENDING
    ensures SettledRowsRest(o, Activated(o, id))
  {
    ActivationExtends(o, id, o.rows[id].environment);
    forall other | other in o.rows && other != id ensures GraphVersion(other) != GraphVersion(id) {
      VersionNamesRow(other);
      VersionNamesRow(id);
    }
  }

  lemma MovingKeeps(o: Outbox, id: string)
    requires OutboxInv(o) && id in o.rows && o.rows[id].status == PENDING
    requires Active(o, o.rows[id].environment).version == o.rows[id].base
    ensures Steps(o, Activated(o, id))
    ensures GraphVersion(id) in Versions(Activated(o, id), o.rows[id].environment)
  {
    var e, after := o.rows[id].environment, Activated(o, id);
    ChainGrows(o.rows, e, Versions(o, e), Active(o, e), id);
    ActivationExtends(o, id, e);
    ActivationRests(o, id);
    forall d ensures Chained(after.rows, d, Versions(after, d), Active(after, d)) {
      assert Chained(o.rows, d, Versions(o, d), Active(o, d));
    }
  }

  /** A pointer record that is missing was missing before. */
  lemma MissingWasMissing(earlier: Outbox, o: Outbox, e: string)
    requires OutboxInv(earlier) && Steps(earlier, o) && e !in o.pointers
    ensures Active(earlier, e) == Active(o, e)
  {
    assert Chained(earlier.rows, e, Versions(earlier, e), Active(earlier, e));
    assert Rises(Versions(earlier, e), Active(earlier, e), Versions(o, e), Active(o, e));
  }

  /**
   * The conditional write against a pointer read earlier, whatever other executors did in between: it goes
   * through exactly when the pointer still stands there or already stands at the next fence of this very
   * version, and then keeps every chain; a proposal can therefore only follow its own base.
   */
  lemma ActivationKeeps(earlier: Outbox, o: Outbox, id: string)
    requires OutboxInv(earlier) && Steps(earlier, o) && id in o.rows && o.rows[id].status == PENDING
    requires Active(earlier, o.rows[id].environment).version == o.rows[id].base
    ensures var e := o.rows[id].environment;
            var expected, result := Active(earlier, e), TryActivate(o, id, Active(earlier, e));
            && (result.Some? <==>
                  Active(o, e) == expected || Active(o, e) == Pointer(GraphVersion(id), expected.fence + 1))
            && (result.Some? ==>
                  && Steps(o, result.value) && result.value.rows == o.rows
                  && Active(result.value, e) == Pointer(GraphVersion(id), expected.fence + 1)
                  && GraphVersion(id) in Versions(result.value, e))
  {
    var e := o.rows[id].environment;
    var expected := Active(earlier, e);
    if e !in o.pointers {
      MissingWasMissing(earlier, o, e);
    }
    if Active(o, e) == expected {
      UnmovedPointer(o, id, expected);
    } else if Active(o, e) == Pointer(GraphVersion(id), expected.fence + 1) {
      StaysPut(o);
      ActiveIsLast(o, e);
    }
  }

  lemma ActiveIsLast(o: Outbox, e: string)
    requires OutboxInv(o)
    ensures Active(o, e).version in Versions(o, e)
  {
    assert Chained(o.rows, e, Versions(o, e), Active(o, e));
  }

  lemma UnmovedPointer(o: Outbox, id: string, expected: Pointer)
    requires OutboxInv(o) && id in o.rows && o.rows[id].status == PENDING
    requires expected == Active(o, o.rows[id].environment) && expected.version == o.rows[id].base
    ensures var e, result := o.rows[id].environment, TryActivate(o, id, expected);
            && result.Some? && Steps(o, result.value) && result.value.rows == o.rows
            && Active(result.value, e) == Pointer(GraphVersion(id), expected.fence + 1)
            && GraphVersion(id) in Versions(result.value, e)
  {
    MovingKeeps(o, id);
    ActivationExtends(o, id, o.rows[id].environment);
    assert TryActivate(o, id, expected) == Some(Activated(o, id));
  }

  /** Of two executors that read the same pointer at most one moves it, and repeating a move changes nothing. */
  lemma FencedRace(o: Outbox, first: string, second: string, expected: Pointer)
    requires OutboxInv(o) && first in o.rows && second in o.rows
    requires o.rows[first].environment == o.rows[second].environment
    requires expected == Active(o, o.rows[first].environment)
    requires o.rows[first].base == expected.version && o.rows[first].status == PENDING
    ensures var after := TryActivate(o, first, expected);
            && after.Some?
            && TryActivate(after.value, second, expected) == if first == second then after else None
  {
    var e := o.rows[first].environment;
    StaysPut(o);
    ActivationKeeps(o, o, first);
    var after := TryActivate(o, first, expected).value;
    VersionNamesRow(first);
    VersionNamesRow(second);
    assert e in after.pointers && after.pointers[e] == Pointer(GraphVersion(first), expected.fence + 1);
  }

  lemma AcknowledgementKeeps(o: Outbox, id: string, fault: Fault, outcome: string)
    requires OutboxInv(o) && id in o.rows && o.rows[id].status == PENDING && o.rows[id].recorded
    ensures Steps(o, Acknowledged(o, id, fault, outcome).0)
  {
    if Misses(fault, Acknowledgement) {
      StaysPut(o);
    } else {
      RowChanges(o, id, o.rows[id].(status := DELIVERED));
    }
  }

  lemma RecordingKeeps(o: Outbox, id: string, fault: Fault)
    requires OutboxInv(o) && id in o.rows && o.rows[id].status == PENDING
    requires GraphVersion(id) in Versions(o, o.rows[id].environment)
    ensures Steps(o, RecordedRow(o, id, fault).0)
  {
    if Misses(fault, Recording) {
      StaysPut(o);
    } else {
      var row := o.rows[id].(recorded := true);
      RowChanges(o, id, row);
      if !Fails(fault, Recording) {
        AcknowledgementKeeps(WithRow(o, id, row), id, fault, "PUBLISHED");
        StepsCompose(o, WithRow(o, id, row), RecordedRow(o, id, fault).0);
      }
    }
  }

  lemma MoveKeeps(o: Outbox, id: string, fault: Fault)
    requires OutboxInv(o) && id in o.rows && o.rows[id].status == PENDING
    requires Active(o, o.rows[id].environment).version == o.rows[id].base
    ensures Steps(o, Moved(o, id, Active(o, o.rows[id].environment), fault).0)
  {
    var expected := Active(o, o.rows[id].environment);
    StaysPut(o);
    if !Misses(fault, Activation) {
      ActivationKeeps(o, o, id);
      var after := TryActivate(o, id, expected).value;
      if !Fails(fault, Activation) {
        RecordingKeeps(after, id, fault);
        StepsCompose(o, after, RecordedRow(after, id, fault).0);
      }
    }
  }

  lemma ReplayKeeps(o: Outbox, id: string, fault: Fault)
    requires OutboxInv(o) && id in o.rows && o.rows[id].status == PENDING
    requires Active(o, o.rows[id].environment).version == GraphVersion(id)
    ensures Steps(o, RecordedRow(o, id, fault).0)
  {
    var e := o.rows[id].environment;
    assert Chained(o.rows, e, Versions(o, e), Active(o, e));
    RecordingKeeps(o, id, fault);
  }

  lemma ExecutionKeeps(o: Outbox, id: string, fault: Fault)
    requires OutboxInv(o) && id in o.rows && o.rows[id].status == PENDING
    ensures Steps(o, Execute(o, id, fault).0)
  {
    var row := o.rows[id];
    var active := Active(o, row.environment).version;
    if row.command.None? || Fails(fault, Claim) {
      StaysPut(o);
    } else if row.recorded {
      AcknowledgementKeeps(o, id, fault, "SKIPPED");
    } else if active == GraphVersion(id) {
      ReplayKeeps(o, id, fault);
    } else if active != row.base {
      StaysPut(o);
    } else {
      MoveKeeps(o, id, fault);
    }
  }

  /** A refusal leaves the outbox as it was, and only an unrecorded row with a command is refused. */
  lemma RefusalIsClean(o: Outbox, id: string, fault: Fault)
    requires id in o.rows && Execute(o, id, fault).1.StaleBase?
    ensures Execute(o, id, fault).0 == o && !o.rows[id].recorded && o.rows[id].command.Some?
    ensures !Fails(fault, Claim)
  {
  }

  /** Every row names its collection, and that has ended, so that settling it is safe. */
  ghost predicate CollectionsEnded(documents: map<Command, Document>, rows: map<string, Row>)
  {
    forall id :: id in rows ==>
                   rows[id].command.Some?
                   && rows[id].command.value in documents && documents[rows[id].command.value].terminal
  }

  ghost predicate CellInv(cell: Cell)
  {
    Inv(cell.ledger) && OutboxInv(cell.outbox) && CollectionsEnded(cell.ledger.documents, cell.outbox.rows)
  }

  /** What every event of the cell does: both halves move forward and keep their invariants. */
  ghost predicate Moves(before: Cell, after: Cell)
  {
    && CellInv(after)
    && Advances(before.ledger.documents, after.ledger.documents)
    && Steps(before.outbox, after.outbox)
  }

  lemma MovesCompose(a: Cell, b: Cell, c: Cell)
    requires Moves(a, b) && Moves(b, c)
    ensures Moves(a, c)
  {
    AdvancesCompose(a.ledger.documents, b.ledger.documents, c.ledger.documents);
    StepsCompose(a.outbox, b.outbox, c.outbox);
  }

  lemma EndedStays(documents: map<Command, Document>, documents': map<Command, Document>,
                   rows: map<string, Row>, rows': map<string, Row>)
    requires CollectionsEnded(documents, rows) && Advances(documents, documents')
    requires RowsKeep(rows, rows') && rows'.Keys == rows.Keys
    ensures CollectionsEnded(documents', rows')
  {
    forall id | id in rows'
      ensures rows'[id].command.Some?
              && rows'[id].command.value in documents' && documents'[rows'[id].command.value].terminal
    {
      assert id in rows;
      assert Forward(documents[rows[id].command.value], documents'[rows[id].command.value]);
    }
  }

  lemma OutboxMoves(cell: Cell, outbox: Outbox)
    requires CellInv(cell) && Steps(cell.outbox, outbox) && outbox.rows.Keys == cell.outbox.rows.Keys
    ensures Moves(cell, cell.(outbox := outbox))
  {
    EndedStays(cell.ledger.documents, cell.ledger.documents, cell.outbox.rows, outbox.rows);
  }

  lemma LedgerMoves(cell: Cell, step: Step)
    requires CellInv(cell) && Enabled(cell.ledger, step) && (step.Settle? ==> Terminal(cell.ledger, step.command))
    ensures Moves(cell, cell.(ledger := Next(cell.ledger, step)))
  {
    StepKeeps(cell.ledger, step);
    StepAdvances(cell.ledger, step);
    StaysPut(cell.outbox);
    EndedStays(cell.ledger.documents, Next(cell.ledger, step).documents, cell.outbox.rows, cell.outbox.rows);
  }

  lemma RowGoesStale(o: Outbox, id: string)
    requires OutboxInv(o) && id in o.rows && o.rows[id].status == PENDING && !o.rows[id].recorded
    ensures var after := WithRow(o, id, o.rows[id].(status := STALE));
            Steps(o, after) && after.rows.Keys == o.rows.Keys
  {
    RowChanges(o, id, o.rows[id].(status := STALE));
  }

  lemma StaleRowMoves(cell: Cell, id: string)
    requires CellInv(cell) && id in cell.outbox.rows
    requires cell.outbox.rows[id].status == PENDING && !cell.outbox.rows[id].recorded
    ensures Moves(cell, cell.(outbox := WithRow(cell.outbox, id, cell.outbox.rows[id].(status := STALE))))
  {
    RowGoesStale(cell.outbox, id);
    OutboxMoves(cell, WithRow(cell.outbox, id, cell.outbox.rows[id].(status := STALE)));
  }

  lemma StaysInPlace(cell: Cell)
    requires CellInv(cell)
    ensures Moves(cell, cell)
  {
    StaysPut(cell.outbox);
  }

  lemma CommandSettles(cell: Cell, c: Command)
    requires CellInv(cell) && Terminal(cell.ledger, c)
    ensures Moves(cell, cell.(ledger := Settled(cell.ledger, c)))
  {
    LedgerMoves(cell, Settle(c));
  }

  lemma RowEnded(cell: Cell, id: string)
    requires CellInv(cell) && id in cell.outbox.rows
    ensures cell.outbox.rows[id].command.Some?
    ensures Terminal(cell.ledger, cell.outbox.rows[id].command.value)
  {
  }

  lemma SettlementMoves(cell: Cell, id: string, fault: Fault)
    requires CellInv(cell) && id in cell.outbox.rows
    requires cell.outbox.rows[id].status == PENDING && !cell.outbox.rows[id].recorded
    ensures Moves(cell, SettledRow(cell, id, fault).0)
  {
    var row := cell.outbox.rows[id];
    RowEnded(cell, id);
    if Misses(fault, Refusal) {
      StaysInPlace(cell);
    } else {
      StaleRowMoves(cell, id);
      var after := cell.(outbox := WithRow(cell.outbox, id, row.(status := STALE)));
      if !Fails(fault, Refusal) && !Misses(fault, Settlement) {
        CommandSettles(after, row.command.value);
        MovesCompose(cell, after, after.(ledger := Settled(after.ledger, row.command.value)));
      }
    }
  }

  lemma ExecutionKeepsKeys(o: Outbox, id: string, fault: Fault)
    requires id in o.rows
    ensures Execute(o, id, fault).0.rows.Keys == o.rows.Keys
  {
  }

  lemma ExecutionMoves(cell: Cell, id: string, fault: Fault)
    requires CellInv(cell) && id in cell.outbox.rows && cell.outbox.rows[id].status == PENDING
    ensures Moves(cell, cell.(outbox := Execute(cell.outbox, id, fault).0))
  {
    ExecutionKeeps(cell.outbox, id, fault);
    ExecutionKeepsKeys(cell.outbox, id, fault);
    OutboxMoves(cell, Execute(cell.outbox, id, fault).0);
  }

  /** Where the visit of one row leaves the cell. */
  lemma DrainedCell(cell: Cell, id: string, fault: Fault)
    ensures DrainRow(cell, id, fault).cell
            == if id !in cell.outbox.rows || cell.outbox.rows[id].status != PENDING then cell
               else if Execute(cell.outbox, id, fault).1.StaleBase? then SettledRow(cell, id, fault).0
               else cell.(outbox := Execute(cell.outbox, id, fault).0)
  {
  }

  lemma DrainRowMoves(cell: Cell, id: string, fault: Fault)
    requires CellInv(cell)
    ensures Moves(cell, DrainRow(cell, id, fault).cell)
  {
    var next := DrainRow(cell, id, fault).cell;
    DrainedCell(cell, id, fault);
    assert Moves(cell, next) by {
      if id !in cell.outbox.rows || cell.outbox.rows[id].status != PENDING {
        StaysInPlace(cell);
      } else if Execute(cell.outbox, id, fault).1.StaleBase? {
        RefusalIsClean(cell.outbox, id, fault);
        SettlementMoves(cell, id, fault);
      } else {
        ExecutionMoves(cell, id, fault);
      }
    }
  }

  lemma {:induction false} DrainMoves(cell: Cell, order: seq<string>, fault: string -> Fault)
    requires CellInv(cell)
    ensures Moves(cell, Drain(cell, order, fault).cell)
    decreases |order|
  {
    if order == [] {
      StaysPut(cell.outbox);
    } else {
      var first := DrainRow(cell, order[0], fault(order[0]));
      DrainRowMoves(cell, order[0], fault(order[0]));
      if !first.raised {
        DrainMoves(first.cell, order[1..], fault);
        MovesCompose(cell, first.cell, Drain(cell, order, fault).cell);
      }
    }
  }

  lemma NewRowEnded(documents: map<Command, Document>, rows: map<string, Row>, id: string, row: Row)
    requires CollectionsEnded(documents, rows)
    requires row.command.Some? && row.command.value in documents && documents[row.command.value].terminal
    ensures CollectionsEnded(documents, rows[id := row])
  {
  }

  lemma NewRowSteps(o: Outbox, id: string, command: Command, environment: string, base: string)
    requires OutboxInv(o) && id !in o.rows
    ensures Steps(o, Approved(o, id, command, environment, base))
  {
    RowChanges(o, id, Row(Some(command), environment, base, PENDING, false));
  }

  lemma RowArrives(cell: Cell, outbox: Outbox)
    requires CellInv(cell) && Steps(cell.outbox, outbox) && CollectionsEnded(cell.ledger.documents, outbox.rows)
    ensures Moves(cell, cell.(outbox := outbox))
  {
  }

  lemma ApprovalMoves(cell: Cell, id: string, command: Command, environment: string, base: string)
    requires CellInv(cell) && CanHappen(cell, Approve(id, command, environment, base))
    ensures Moves(cell, cell.(outbox := Approved(cell.outbox, id, command, environment, base)))
  {
    if id in cell.outbox.rows {
      StaysInPlace(cell);
    } else {
      NewRowSteps(cell.outbox, id, command, environment, base);
      NewRowEnded(cell.ledger.documents, cell.outbox.rows, id, Row(Some(command), environment, base, PENDING, false));
      RowArrives(cell, Approved(cell.outbox, id, command, environment, base));
    }
  }

  lemma EventMoves(cell: Cell, event: Event)
    requires CellInv(cell) && CanHappen(cell, event)
    ensures Moves(cell, After(cell, event))
  {
    match event
    case Collect(step) => LedgerMoves(cell, step);
    case Approve(id, command, environment, base) => ApprovalMoves(cell, id, command, environment, base);
    case Deliver(order, fault) => DrainMoves(cell, order, fault);
  }

  lemma {:induction false} CourseMoves(cell: Cell, events: seq<Event>)
    requires CellInv(cell) && Possible(cell, events)
    ensures Moves(cell, Course(cell, events))
    decreases |events|
  {
    if events == [] {
      StaysPut(cell.outbox);
    } else {
      var next := After(cell, events[0]);
      EventMoves(cell, events[0]);
      CourseMoves(next, events[1..]);
      MovesCompose(cell, next, Course(cell, events));
    }
  }
}
