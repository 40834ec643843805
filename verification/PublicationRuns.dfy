/** What holds of every run of collections, approvals and drains. */
module PublicationRuns {
  import opened Common
  import opened CollectionLedger
  import opened Publication
  import opened LostPublication

  lemma StartKeeps()
    ensures CellInv(START)
  {
    EmptyKeeps();
  }

  /**
   * Over every run: the versions ever active form, per environment, a chain in which each proposal is
   * pinned to the version just before it; the fence counts them; collections stay safe.
   */
  lemma EveryCourseIsChained(events: seq<Event>, environment: string)
    requires Possible(START, events)
    ensures var cell := Course(START, events);
            var versions := Versions(cell.outbox, environment);
            && Chained(cell.outbox.rows, environment, versions, Active(cell.outbox, environment))
            && AtMostOneLive(cell.ledger)
  {
    StartKeeps();
    CourseMoves(START, events);
    InvMeansOneLive(Course(START, events).ledger);
  }

  /** Later never undoes earlier: rows leave PENDING once, pointers move with a rising fence, settled rows rest. */
  lemma EveryCourseMovesForward(events: seq<Event>, more: seq<Event>)
    requires Possible(START, events) && Possible(Course(START, events), more)
    ensures Moves(Course(START, events), Course(Course(START, events), more))
  {
    StartKeeps();
    CourseMoves(START, events);
    CourseMoves(Course(START, events), more);
  }

  /** Of the proposals pinned to one base at most one is ever published. */
  lemma OnePublicationPerBase(o: Outbox, id: string, other: string)
    requires OutboxInv(o) && id in o.rows && other in o.rows
    requires o.rows[id].environment == o.rows[other].environment && o.rows[id].base == o.rows[other].base
    requires GraphVersion(id) in Versions(o, o.rows[id].environment)
    requires GraphVersion(other) in Versions(o, o.rows[id].environment)
    ensures id == other
  {
    var e := o.rows[id].environment;
    var versions := Versions(o, e);
    assert Chained(o.rows, e, versions, Active(o, e));
    VersionNamesRow(id);
    VersionNamesRow(other);
    var i :| 0 <= i < |versions| && versions[i] == GraphVersion(id);
    var j :| 0 <= j < |versions| && versions[j] == GraphVersion(other);
    assert Linked(o.rows, e, versions[i - 1], versions[i]);
    assert Linked(o.rows, e, versions[j - 1], versions[j]);
    assert versions[i - 1] == versions[j - 1];
    assert i == j;
  }

  // ---------------------------------------------------------------- a stale row was never published

  /** The calls of these events fail in no other ways. */
  ghost predicate FaultsWithin(events: seq<Event>, allowed: set<Fault>)
  {
    forall i, id: string :: 0 <= i < |events| && events[i].Deliver? && events[i].fault(id).Fault? ==>
                              events[i].fault(id) in allowed
  }

  ghost predicate PublishedAreRecorded(o: Outbox)
  {
    forall id :: id in o.rows && GraphVersion(id) in Versions(o, o.rows[id].environment) ==> o.rows[id].recorded
  }

  ghost predicate StaleUnpublished(o: Outbox)
  {
    forall id :: id in o.rows && o.rows[id].status == STALE ==>
                   GraphVersion(id) !in Versions(o, o.rows[id].environment)
  }

  lemma RecordedNeverStale(o: Outbox)
    requires OutboxInv(o) && PublishedAreRecorded(o)
    ensures StaleUnpublished(o)
  {
  }

  lemma StandingRecords(o: Outbox, after: Outbox)
    requires PublishedAreRecorded(o) && RowsKeep(o.rows, after.rows)
    requires after.log == o.log && after.rows.Keys == o.rows.Keys
    ensures PublishedAreRecorded(after)
  {
    forall d | d in after.rows && GraphVersion(d) in Versions(after, after.rows[d].environment)
      ensures after.rows[d].recorded
    {
      assert d in o.rows && after.rows[d].environment == o.rows[d].environment;
    }
  }

  lemma MoveRecords(o: Outbox, id: string, fault: Fault)
    requires OutboxInv(o) && id in o.rows && PublishedAreRecorded(o) && !LosesRecord(fault)
    ensures PublishedAreRecorded(Moved(o, id, Active(o, o.rows[id].environment), fault).0)
  {
    var expected := Active(o, o.rows[id].environment);
    if !Misses(fault, Activation) {
      assert TryActivate(o, id, expected) == Some(Activated(o, id));
      RecordedRowRecords(Activated(o, id), id, fault);
      ActivationRecords(o, id, RecordedRow(Activated(o, id), id, fault).0);
    }
  }

  lemma RecordedRowRecords(o: Outbox, id: string, fault: Fault)
    requires id in o.rows && !Misses(fault, Recording)
    ensures var after := RecordedRow(o, id, fault).0;
            && after.log == o.log && after.rows.Keys == o.rows.Keys
            && after.rows[id].recorded && after.rows[id].environment == o.rows[id].environment
            && forall d :: d in o.rows && d != id ==> after.rows[d] == o.rows[d]
  {
  }

  lemma ExecutionStands(o: Outbox, id: string, fault: Fault)
    requires id in o.rows
    requires Execute(o, id, fault) != Moved(o, id, Active(o, o.rows[id].environment), fault)
    ensures Execute(o, id, fault).0.log == o.log
  {
  }

  lemma ExecutionRecords(o: Outbox, id: string, fault: Fault)
    requires OutboxInv(o) && id in o.rows && o.rows[id].status == PENDING
    requires PublishedAreRecorded(o) && !LosesRecord(fault)
    ensures PublishedAreRecorded(Execute(o, id, fault).0)
  {
    var after := Execute(o, id, fault).0;
    assert PublishedAreRecorded(after) by {
      if Execute(o, id, fault) == Moved(o, id, Active(o, o.rows[id].environment), fault) {
        MoveRecords(o, id, fault);
      } else {
        ExecutionStands(o, id, fault);
        ExecutionKeeps(o, id, fault);
        ExecutionKeepsKeys(o, id, fault);
        StandingRecords(o, after);
      }
    }
  }

  lemma ActivationRecords(o: Outbox, id: string, after: Outbox)
    requires OutboxInv(o) && id in o.rows && PublishedAreRecorded(o)
    requires after.log == Activated(o, id).log && id in after.rows && after.rows[id].recorded
    requires after.rows[id].environment == o.rows[id].environment
    requires after.rows.Keys == o.rows.Keys && forall d :: d in o.rows && d != id ==> after.rows[d] == o.rows[d]
    ensures PublishedAreRecorded(after)
  {
    ActivationExtends(o, id, o.rows[id].environment);
    forall d | d in after.rows && GraphVersion(d) in Versions(after, after.rows[d].environment)
      ensures after.rows[d].recorded
    {
      if d != id {
        VersionNamesRow(d);
        VersionNamesRow(id);
      }
    }
  }

  lemma DrainRowRecords(cell: Cell, id: string, fault: Fault)
    requires CellInv(cell) && PublishedAreRecorded(cell.outbox) && !LosesRecord(fault)
    ensures PublishedAreRecorded(DrainRow(cell, id, fault).cell.outbox)
  {
    if id in cell.outbox.rows && cell.outbox.rows[id].status == PENDING {
      ExecutionRecords(cell.outbox, id, fault);
      if Execute(cell.outbox, id, fault).1.StaleBase? {
        RefusalRecords(cell, id, fault);
      }
    }
  }

  lemma RefusalRecords(cell: Cell, id: string, fault: Fault)
    requires PublishedAreRecorded(cell.outbox) && id in cell.outbox.rows
    ensures PublishedAreRecorded(SettledRow(cell, id, fault).0.outbox)
  {
  }

  lemma {:induction false} DrainRecords(cell: Cell, order: seq<string>, fault: string -> Fault)
    requires CellInv(cell) && PublishedAreRecorded(cell.outbox)
    requires forall id :: !LosesRecord(fault(id))
    ensures PublishedAreRecorded(Drain(cell, order, fault).cell.outbox)
    decreases |order|
  {
    if order != [] {
      var first := DrainRow(cell, order[0], fault(order[0]));
      DrainRowMoves(cell, order[0], fault(order[0]));
      DrainRowRecords(cell, order[0], fault(order[0]));
      if !first.raised {
        DrainRecords(first.cell, order[1..], fault);
      }
    }
  }

  /** The version of a row that is not there yet was never active. */
  lemma UnknownWasNeverActive(o: Outbox, id: string, e: string)
    requires OutboxInv(o) && id !in o.rows
    ensures GraphVersion(id) !in Versions(o, e)
  {
    var versions := Versions(o, e);
    assert Chained(o.rows, e, versions, Active(o, e));
    VersionNamesRow(id);
    forall i | 0 <= i < |versions| ensures versions[i] != GraphVersion(id) {
      if i > 0 {
        assert Linked(o.rows, e, versions[i - 1], versions[i]);
      }
    }
  }

  lemma EventRecords(cell: Cell, event: Event)
    requires CellInv(cell) && CanHappen(cell, event) && PublishedAreRecorded(cell.outbox)
    requires event.Deliver? ==> forall id :: !LosesRecord(event.fault(id))
    ensures PublishedAreRecorded(After(cell, event).outbox)
  {
    match event
    case Collect(step) =>
    case Approve(id, command, environment, base) =>
      if id !in cell.outbox.rows {
        UnknownWasNeverActive(cell.outbox, id, environment);
      }
    case Deliver(order, fault) => DrainRecords(cell, order, fault);
  }

  lemma {:induction false} CourseRecords(cell: Cell, events: seq<Event>)
    requires CellInv(cell) && Possible(cell, events) && PublishedAreRecorded(cell.outbox)
    requires forall i, id: string :: 0 <= i < |events| && events[i].Deliver? ==> !LosesRecord(events[i].fault(id))
    ensures PublishedAreRecorded(Course(cell, events).outbox)
    decreases |events|
  {
    if events != [] {
      EventMoves(cell, events[0]);
      EventRecords(cell, events[0]);
      CourseRecords(After(cell, events[0]), events[1..]);
    }
  }

  lemma LostRunHasOneFault(fault: Fault)
    ensures FaultsWithin(LostRun(fault), {fault})
  {
    forall i, id: string | 0 <= i < |LostRun(fault)| && LostRun(fault)[i].Deliver? && LostRun(fault)[i].fault(id).Fault?
      ensures LostRun(fault)[i].fault(id) in {fault}
    {
    }
  }

  /**
   * A proposal settled as stale was never published, in every run, if and only if no call fails between
   * moving the pointer and recording the stage.
   */
  lemma StaleMeansUnpublishedIff(allowed: set<Fault>)
    ensures (forall events :: Possible(START, events) && FaultsWithin(events, allowed)
                              ==> StaleUnpublished(Course(START, events).outbox))
            <==> (forall fault :: fault in allowed ==> !LosesRecord(fault))
  {
    if fault :| fault in allowed && LosesRecord(fault) {
      LostRecordBecomesStale(fault);
      LostRunHasOneFault(fault);
      var events := LostRun(fault);
      assert FaultsWithin(events, allowed) && !StaleUnpublished(Course(START, events).outbox);
    } else {
      forall events | Possible(START, events) && FaultsWithin(events, allowed)
        ensures StaleUnpublished(Course(START, events).outbox)
      {
        StartKeeps();
        CourseMoves(START, events);
        CourseRecords(START, events);
        RecordedNeverStale(Course(START, events).outbox);
      }
    }
  }

  /**
   * What a caller can see beforehand: visiting a pending row leaves it stale although it was published
   * exactly when its stage is not recorded, its version was active and is no longer, and the visit gets as
   * far as the refusal.
   */
  lemma StaleThoughPublishedIff(cell: Cell, id: string, fault: Fault)
    requires CellInv(cell) && id in cell.outbox.rows && cell.outbox.rows[id].status == PENDING
    ensures var e, after := cell.outbox.rows[id].environment, DrainRow(cell, id, fault).cell.outbox;
            && id in after.rows
            && (after.rows[id].status == STALE && GraphVersion(id) in Versions(after, e)
                <==>
                !cell.outbox.rows[id].recorded && GraphVersion(id) in Versions(cell.outbox, e)
                && Active(cell.outbox, e).version != GraphVersion(id)
                && !Fails(fault, Claim) && !Misses(fault, Refusal))
  {
    RowEnded(cell, id);
    StaleAfterIff(cell, id, fault);
    RefusedExactly(cell.outbox, id, fault);
    if GraphVersion(id) in Versions(cell.outbox, cell.outbox.rows[id].environment) {
      OwnVersionIsNoBase(cell.outbox, id);
    }
  }

  lemma RefusedExactly(o: Outbox, id: string, fault: Fault)
    requires id in o.rows && o.rows[id].command.Some?
    ensures var active := Active(o, o.rows[id].environment).version;
            Execute(o, id, fault).1.StaleBase?
            <==> !Fails(fault, Claim) && !o.rows[id].recorded && active != o.rows[id].base && active != GraphVersion(id)
  {
  }

  lemma StaleAfterIff(cell: Cell, id: string, fault: Fault)
    requires id in cell.outbox.rows && cell.outbox.rows[id].status == PENDING
    ensures var after := DrainRow(cell, id, fault).cell.outbox;
            && id in after.rows
            && (after.rows[id].status == STALE
                <==> Execute(cell.outbox, id, fault).1.StaleBase? && !Misses(fault, Refusal))
            && (after.rows[id].status == STALE ==> after.log == cell.outbox.log)
  {
    DrainedCell(cell, id, fault);
    if Execute(cell.outbox, id, fault).1.StaleBase? {
      RefusalIsClean(cell.outbox, id, fault);
    } else {
      ExecutedNeverStale(cell.outbox, id, fault);
    }
  }

  lemma ExecutedNeverStale(o: Outbox, id: string, fault: Fault)
    requires id in o.rows && o.rows[id].status == PENDING
    ensures var after := Execute(o, id, fault).0; id in after.rows && after.rows[id].status != STALE
  {
  }

  lemma OwnVersionIsNoBase(o: Outbox, id: string)
    requires OutboxInv(o) && id in o.rows && GraphVersion(id) in Versions(o, o.rows[id].environment)
    ensures Active(o, o.rows[id].environment).version != o.rows[id].base
  {
    var e := o.rows[id].environment;
    assert Chained(o.rows, e, Versions(o, e), Active(o, e));
    if Active(o, e).version == o.rows[id].base {
      NotActiveBefore(o.rows, e, Versions(o, e), Active(o, e), id);
    }
  }

  // ---------------------------------------------------------------- what a visit answers

  /**
   * The answer of the executor: published, skipped or refused when no call fails on its way; otherwise the
   * exception if the call raises, and a request to be redriven if it does not.
   */
  lemma AnswersAre(o: Outbox, id: string, fault: Fault)
    requires id in o.rows && o.rows[id].command.Some?
    ensures fault.NoFault? ==>
              Execute(o, id, fault).1
              == var active := Active(o, o.rows[id].environment);
                 if o.rows[id].recorded then Answered("SKIPPED")
                 else if active.version == GraphVersion(id) || active.version == o.rows[id].base then Answered("PUBLISHED")
                 else StaleBase
    ensures fault.Fault? && Execute(o, id, fault).1 != Execute(o, id, NoFault).1 ==>
              Execute(o, id, fault).1 == if fault.raises then Raised else Answered("REDRIVE_REQUIRED")
    ensures Fails(fault, Claim) ==>
              Execute(o, id, fault).1 == if fault.raises then Raised else Answered("REDRIVE_REQUIRED")
  {
  }

  /** A pointer that another publication moved meanwhile is left alone, and the publication asks to be redriven. */
  lemma LostFenceIsRedriven(o: Outbox, id: string, expected: Pointer)
    requires id in o.rows && TryActivate(o, id, expected).None?
    ensures Moved(o, id, expected, NoFault) == (o, Answered("REDRIVE_REQUIRED"))
  {
  }

  // ---------------------------------------------------------------- what a drain leaves behind

  /**
   * A refused publication reopens its collection, so that the next submission makes a new attempt, if and
   * only if both writes of the settlement land and the first is answered; the row is settled as soon as the
   * first lands.
   */
  lemma RefusalReopensIff(cell: Cell, id: string, fault: Fault, c: Command)
    requires CellInv(cell) && id in cell.outbox.rows && cell.outbox.rows[id].status == PENDING
    requires cell.outbox.rows[id].command == Some(c) && Live(cell.ledger, c)
    requires Execute(cell.outbox, id, fault).1.StaleBase?
    ensures var after := DrainRow(cell, id, fault).cell;
            var reopens := !Fails(fault, Refusal) && !Misses(fault, Settlement);
            && (NextAttempt(after.ledger, c.digest) == Some(Command(c.digest, c.attempt + 1)) <==> reopens)
            && (NextAttempt(after.ledger, c.digest).Some? <==> reopens)
            && (after.outbox.rows[id].status == STALE <==> !Misses(fault, Refusal))
            && after.outbox.pointers == cell.outbox.pointers
  {
    RefusalIsClean(cell.outbox, id, fault);
    DrainedCell(cell, id, fault);
    RowEnded(cell, id);
    EndedIsNamed(cell.ledger, c);
    SettledIsResubmittable(cell.ledger, c);
  }

  lemma EndedIsNamed(s: Ledger, c: Command)
    requires Inv(s) && Live(s, c) && s.documents[c].terminal
    ensures NamedByHead(s, c) && NextAttempt(s, c.digest).None?
  {
    InvMeansOneLive(s);
    TerminalIsIssued(s, c);
  }

  /** What the visit of a pending row promises when nothing fails: delivered and published, or refused and reopened. */
  ghost predicate Settles(cell: Cell, id: string, after: Cell)
    requires id in cell.outbox.rows && id in after.outbox.rows
  {
    var o, row := cell.outbox, cell.outbox.rows[id];
    var e := row.environment;
    if row.recorded || Active(o, e).version in {row.base, GraphVersion(id)} then
      after.outbox.rows[id].status == DELIVERED && after.outbox.rows[id].recorded
      && GraphVersion(id) in Versions(after.outbox, e) && after.ledger == cell.ledger
    else
      && after.outbox.rows[id].status == STALE
      && after.outbox.pointers == o.pointers && after.outbox.log == o.log
      && row.command.Some? && row.command.value in after.ledger.documents
      && after.ledger.documents[row.command.value].status == FAILED_TERMINAL
  }

  /** When nothing fails every pending row is settled, and published exactly if its base, or it itself, was active. */
  lemma FaultlessRowSettles(cell: Cell, id: string)
    requires CellInv(cell) && id in cell.outbox.rows && cell.outbox.rows[id].status == PENDING
    ensures var drained := DrainRow(cell, id, NoFault);
            && !drained.raised && id in drained.cell.outbox.rows && Settles(cell, id, drained.cell)
            && |drained.published| == 1 && drained.published[0].command == cell.outbox.rows[id].command
  {
    var o, row := cell.outbox, cell.outbox.rows[id];
    RowEnded(cell, id);
    if row.recorded || Active(o, row.environment).version in {row.base, GraphVersion(id)} {
      FaultlessDelivery(o, id);
    } else {
      FaultlessRefusal(cell, id, row.command.value);
    }
  }

  lemma FaultlessDelivery(o: Outbox, id: string)
    requires OutboxInv(o) && id in o.rows && o.rows[id].status == PENDING && o.rows[id].command.Some?
    requires o.rows[id].recorded || Active(o, o.rows[id].environment).version in {o.rows[id].base, GraphVersion(id)}
    ensures var (after, verdict) := Execute(o, id, NoFault);
            && verdict.Answered? && id in after.rows && after.rows[id] == o.rows[id].(recorded := true, status := DELIVERED)
            && GraphVersion(id) in Versions(after, o.rows[id].environment)
  {
    var e := o.rows[id].environment;
    ActiveIsLast(o, e);
    if !o.rows[id].recorded && Active(o, e).version != GraphVersion(id) {
      StaysPut(o);
      ActivationKeeps(o, o, id);
      var after := TryActivate(o, id, Active(o, e)).value;
      assert Execute(o, id, NoFault) == RecordedRow(after, id, NoFault);
    }
  }

  lemma FaultlessRefusal(cell: Cell, id: string, c: Command)
    requires id in cell.outbox.rows && cell.outbox.rows[id].status == PENDING
    requires cell.outbox.rows[id].command == Some(c) && c in cell.ledger.documents && !cell.outbox.rows[id].recorded
    requires Active(cell.outbox, cell.outbox.rows[id].environment).version
             !in {cell.outbox.rows[id].base, GraphVersion(id)}
    ensures var drained := DrainRow(cell, id, NoFault);
            && !drained.raised && drained.published == [Entry(Some(c), "STALE_PROPOSAL_BASE")]
            && drained.cell.outbox == WithRow(cell.outbox, id, cell.outbox.rows[id].(status := STALE))
            && drained.cell.ledger == Settled(cell.ledger, c)
  {
    assert Execute(cell.outbox, id, NoFault) == (cell.outbox, StaleBase);
  }

  lemma FaultlessVisit(cell: Cell, id: string)
    requires CellInv(cell)
    ensures !DrainRow(cell, id, NoFault).raised
    ensures var rows := DrainRow(cell, id, NoFault).cell.outbox.rows;
            id in rows ==> rows[id].status != PENDING
  {
    if id in cell.outbox.rows && cell.outbox.rows[id].status == PENDING {
      FaultlessRowSettles(cell, id);
    }
  }

  /** A drain in which nothing fails leaves no visited row pending. */
  lemma {:induction false} FaultlessDrainEmpties(cell: Cell, order: seq<string>)
    requires CellInv(cell)
    ensures !Drain(cell, order, NoFaults).raised
    ensures var rows := Drain(cell, order, NoFaults).cell.outbox.rows;
            forall id :: id in order && id in rows ==> rows[id].status != PENDING
    decreases |order|
  {
    if order != [] {
      var id := order[0];
      var first := DrainRow(cell, id, NoFaults(id));
      FaultlessVisit(cell, id);
      DrainRowMoves(cell, id, NoFaults(id));
      FaultlessDrainEmpties(first.cell, order[1..]);
      var last := Drain(first.cell, order[1..], NoFaults).cell;
      DrainMoves(first.cell, order[1..], NoFaults);
      assert Drain(cell, order, NoFaults).cell == last;
      DrainKeepsKeys(first.cell, order[1..], NoFaults);
    }
  }

  lemma {:induction false} DrainKeepsKeys(cell: Cell, order: seq<string>, fault: string -> Fault)
    ensures Drain(cell, order, fault).cell.outbox.rows.Keys == cell.outbox.rows.Keys
    decreases |order|
  {
    if order != [] {
      var first := DrainRow(cell, order[0], fault(order[0]));
      VisitKeepsKeys(cell, order[0], fault(order[0]));
      if !first.raised {
        DrainKeepsKeys(first.cell, order[1..], fault);
      }
    }
  }

  lemma VisitKeepsKeys(cell: Cell, id: string, fault: Fault)
    ensures DrainRow(cell, id, fault).cell.outbox.rows.Keys == cell.outbox.rows.Keys
  {
    DrainedCell(cell, id, fault);
    if id in cell.outbox.rows {
      ExecutionKeepsKeys(cell.outbox, id, fault);
    }
  }
}
