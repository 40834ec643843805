/** The drain of the publication outbox as it runs: rows, pointers and collection documents updated in place. */
module OutboxDrain {
  import opened CollectionLedger
  import opened Publication

  /** A drain whose entries come behind earlier ones. */
  ghost function Continued(published: seq<Entry>, rest: Drained): Drained
  {
    rest.(published := published + rest.published)
  }

  lemma OneVisit(published: seq<Entry>, cell: Cell, order: seq<string>, fault: string -> Fault, first: Drained)
    requires order != [] && first == DrainRow(cell, order[0], fault(order[0]))
    ensures Continued(published, Drain(cell, order, fault))
            == if first.raised then Continued(published, first)
               else Continued(published + first.published, Drain(first.cell, order[1..], fault))
  {
  }

  class LedgerTable {
    var rows: map<string, Row>
    var pointers: map<string, Pointer>
    ghost var log: map<string, seq<string>>
    var documents: map<Command, Document>

    ghost function Contents(): Outbox
      reads this
    {
      Outbox(rows, pointers, log)
    }

    /** The cell this table is part of; the rest of the runner's ledger does not change here. */
    ghost function Around(ledger: Ledger): Cell
      reads this
    {
      Cell(ledger.(documents := documents), Contents())
    }

    constructor (rows: map<string, Row>, pointers: map<string, Pointer>, ghost log: map<string, seq<string>>,
                 documents: map<Command, Document>)
      ensures Contents() == Outbox(rows, pointers, log) && this.documents == documents
    {
      this.rows, this.pointers, this.log, this.documents := rows, pointers, log, documents;
    }

    /** Compare and set against the pointer that was read; a repeated move of this publication counts as done. */
    method ActivatePointer(id: string, expected: Pointer) returns (activated: bool)
      requires id in rows
      modifies this
      ensures rows == old(rows) && documents == old(documents)
      ensures match old(TryActivate(Contents(), id, expected))
              case Some(after) => activated && Contents() == after
              case None => !activated && Contents() == old(Contents())
    {
      var environment, version := rows[id].environment, GraphVersion(id);
      if environment in pointers && pointers[environment] != expected {
        return pointers[environment] == Pointer(version, expected.fence + 1);
      }
      log := log[environment := Versions(Contents(), environment) + [version]];
      pointers := pointers[environment := Pointer(version, expected.fence + 1)];
      activated := true;
    }

    /** Record the stage unless it is recorded, then acknowledge the row. */
    method Finish(id: string, fault: Fault, outcome: string) returns (verdict: Verdict)
      requires id in rows && (rows[id].recorded || outcome == "PUBLISHED")
      modifies this
      ensures documents == old(documents)
      ensures (Contents(), verdict) == old(if rows[id].recorded then Acknowledged(Contents(), id, fault, outcome)
                                           else RecordedRow(Contents(), id, fault))
    {
      if !rows[id].recorded {
        if !Misses(fault, Recording) {
          rows := rows[id := rows[id].(recorded := true)];
        }
        if Fails(fault, Recording) {
          return Broken(fault);
        }
      }
      if !Misses(fault, Acknowledgement) {
        rows := rows[id := rows[id].(status := DELIVERED)];
      }
      verdict := if Fails(fault, Acknowledgement) then Broken(fault) else Answered(outcome);
    }

    method ExecutePublication(id: string, fault: Fault) returns (verdict: Verdict)
      requires id in rows
      modifies this
      ensures documents == old(documents)
      ensures (Contents(), verdict) == old(Execute(Contents(), id, fault))
    {
      var row := rows[id];
      if row.command.None? {
        return Raised;
      }
      if Fails(fault, Claim) {
        return Broken(fault);
      }
      if row.recorded {
        verdict := Finish(id, fault, "SKIPPED");
        return;
      }
      var active := if row.environment in pointers then pointers[row.environment] else Pointer("NONE", 0);
      if active.version != GraphVersion(id) {
        if active.version != row.base {
          return StaleBase;
        }
        if Misses(fault, Activation) {
          return Broken(fault);
        }
        var activated := ActivatePointer(id, active);
        if !activated {
          return Answered("REDRIVE_REQUIRED");
        }
        if Fails(fault, Activation) {
          return Broken(fault);
        }
      }
      verdict := Finish(id, fault, "PUBLISHED");
    }

    /** Fail the row, then the collection it came from. */
    method MarkPublicationStale(id: string, fault: Fault, ghost ledger: Ledger) returns (raised: bool)
      requires id in rows
      modifies this
      ensures (Around(ledger), raised) == old(SettledRow(Around(ledger), id, fault))
    {
      if !Misses(fault, Refusal) {
        rows := rows[id := rows[id].(status := STALE)];
      }
      if Fails(fault, Refusal) {
        return true;
      }
      var command := rows[id].command;
      if command.None? {
        return false;
      }
      if command.value in documents && !Misses(fault, Settlement) {
        documents := documents[command.value := Failed(documents[command.value], "STALE_PROPOSAL_BASE")];
      }
      raised := Fails(fault, Settlement);
    }

    /** Visit the rows in scan order; stop at the first exception that is not a refusal. */
    method DrainPublicationOutbox(order: seq<string>, fault: string -> Fault, ghost ledger: Ledger)
      returns (published: seq<Entry>, raised: bool)
      modifies this
      ensures Drained(Around(ledger), published, raised) == old(Drain(Around(ledger), order, fault))
    {
      published, raised := [], false;
      var i := 0;
      assert order[0..] == order;
      ghost var whole := Drain(Around(ledger), order, fault);
      while i < |order|
        invariant i <= |order| && !raised
        invariant Continued(published, Drain(Around(ledger), order[i..], fault)) == whole
      {
        var entries;
        ghost var before, earlier := Around(ledger), published;
        entries, raised := VisitRow(order[i], fault(order[i]), ledger);
        OneVisit(earlier, before, order[i..], fault, Drained(Around(ledger), entries, raised));
        published := published + entries;
        if raised {
          return;
        }
        assert order[i..][1..] == order[i + 1..];
        i := i + 1;
      }
      assert order[i..] == [];
    }

    method VisitRow(id: string, fault: Fault, ghost ledger: Ledger) returns (entries: seq<Entry>, raised: bool)
      modifies this
      ensures Drained(Around(ledger), entries, raised) == old(DrainRow(Around(ledger), id, fault))
    {
      entries, raised := [], false;
      if id in rows && rows[id].status == PENDING {
        entries, raised := PublishRow(id, fault, ledger);
      }
    }

    method PublishRow(id: string, fault: Fault, ghost ledger: Ledger) returns (entries: seq<Entry>, raised: bool)
      requires id in rows && rows[id].status == PENDING
      modifies this
      ensures Drained(Around(ledger), entries, raised) == old(DrainRow(Around(ledger), id, fault))
    {
      var command := rows[id].command;
      var verdict := ExecutePublication(id, fault);
      match verdict
      case Raised =>
        entries, raised := [], true;
      case Answered(outcome) =>
        entries, raised := [Entry(command, outcome)], false;
      case StaleBase =>
        raised := MarkPublicationStale(id, fault, ledger);
        entries := if raised then [] else [Entry(command, "STALE_PROPOSAL_BASE")];
    }
  }
}
