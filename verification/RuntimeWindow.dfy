/** The semantic checks of a runtime-window manifest, and what a clean COMPLETE window guarantees. */
module RuntimeWindow {
  import opened Common
  import opened Contracts

  datatype Name = Attempted | Accepted | Rejected | Duplicates | Retried | Buffered | Dropped | Quarantined | Drained

  /** A counter as it stands in the document: absent, an integer, a number like 3.0, or something else. */
  datatype Field = Missing | Whole(n: int) | Floating(n: int) | Other

  datatype Emitter = Emitter(name: string, counter: Name -> Field)

  /** A member that may be a list or a dictionary; when it is not, only its truth is looked at. */
  datatype Reasons = NoList(truthy: bool) | List(items: seq<string>)
  datatype Counts = NoDict(truthy: bool) | Dict(entries: seq<(string, Field)>)

  /** `emitters` is absent when it is not a dictionary of dictionaries. */
  datatype Window = Window(
    counter: Name -> Field,
    emitters: Option<seq<Emitter>>,
    reasons: Reasons,
    reasonCounts: Counts,
    outcome: string)

  predicate AllWhole(counter: Name -> Field)
  {
    forall name :: counter(name).Whole?
  }

  predicate Balanced(counter: Name -> Field)
    requires AllWhole(counter)
  {
    counter(Attempted).n == counter(Accepted).n + counter(Rejected).n + counter(Duplicates).n
  }

  predicate DrainsAtMost(counter: Name -> Field)
    requires AllWhole(counter)
  {
    counter(Drained).n <= counter(Accepted).n
  }

  // ---------------------------------------------------------------- the checks

  function BalanceErrors(counter: Name -> Field, path: string, whose: string): seq<ContractError>
    requires AllWhole(counter)
  {
    (if Balanced(counter) then []
     else [ContractError(path + "attempted", whose + "attempted must equal accepted plus rejected plus duplicates")])
    + if DrainsAtMost(counter) then []
      else [ContractError(path + "drained", whose + "drained cannot exceed accepted")]
  }

  /** Emitters whose counters are not all integers are passed over. */
  function EmitterErrors(emitters: seq<Emitter>): seq<ContractError>
  {
    if emitters == [] then []
    else
      var last := emitters[|emitters| - 1];
      EmitterErrors(emitters[..|emitters| - 1])
      + if AllWhole(last.counter) then BalanceErrors(last.counter, "emitterCounts." + last.name + ".", "emitter ") else []
  }

  function Amount(f: Field): int
  {
    if f.Whole? then f.n else 0
  }

  function Total(emitters: seq<Emitter>, name: Name): int
  {
    if emitters == [] then 0
    else Total(emitters[..|emitters| - 1], name) + Amount(emitters[|emitters| - 1].counter(name))
  }

  predicate TotalsAgree(emitters: seq<Emitter>, counter: Name -> Field)
    requires AllWhole(counter)
  {
    forall name :: Total(emitters, name) == counter(name).n
  }

  function Sum(entries: seq<(string, Field)>): int
  {
    if entries == [] then 0 else Sum(entries[..|entries| - 1]) + Amount(entries[|entries| - 1].1)
  }

  function Keys(entries: seq<(string, Field)>): set<string>
  {
    set i | 0 <= i < |entries| :: entries[i].0
  }

  function Items(items: seq<string>): set<string>
  {
    set s | s in items
  }

  function Classified(w: Window): int
    requires AllWhole(w.counter)
  {
    w.counter(Rejected).n + w.counter(Buffered).n + w.counter(Dropped).n + w.counter(Quarantined).n
    + if w.outcome in ["EXPIRED", "REVOKED", "DISABLED"] then 1 else 0
  }

  function ReasonErrors(w: Window): seq<ContractError>
    requires AllWhole(w.counter)
  {
    if w.reasons.NoList? || w.reasonCounts.NoDict? then []
    else
      var entries := w.reasonCounts.entries;
      (if Items(w.reasons.items) == Keys(entries) then []
       else [ContractError("reasonCounts", "reason count keys must match the distinct reasons")])
      + if (forall i :: 0 <= i < |entries| ==> entries[i].1.Whole?) && Sum(entries) != Classified(w)
        then [ContractError("reasonCounts", "reason counts must exactly classify rejected, buffered, dropped, "
                            + "quarantined and terminal outcome failures")] else []
  }

  predicate HasReasons(w: Window)
  {
    match w.reasons case NoList(truthy) => truthy case List(items) => items != []
  }

  predicate HasReasonCounts(w: Window)
  {
    match w.reasonCounts case NoDict(truthy) => truthy case Dict(entries) => entries != []
  }

  predicate Lossless(w: Window)
    requires AllWhole(w.counter)
  {
    && w.counter(Rejected).n == 0 && w.counter(Buffered).n == 0 && w.counter(Dropped).n == 0
    && w.counter(Quarantined).n == 0 && w.counter(Accepted).n == w.counter(Drained).n
    && !HasReasons(w) && !HasReasonCounts(w)
  }

  function OutcomeErrors(w: Window): seq<ContractError>
    requires AllWhole(w.counter)
  {
    if w.outcome != "COMPLETE" then
      if HasReasons(w) then [] else [ContractError("reasons", "non-complete runtime windows require a classified reason")]
    else if Lossless(w) then []
    else [ContractError("outcome", "COMPLETE runtime window cannot contain loss and must drain every accepted observation")]
  }

  function TotalErrors(w: Window): seq<ContractError>
    requires AllWhole(w.counter)
  {
    if w.emitters.None? then []
    else
      EmitterErrors(w.emitters.value)
      + if TotalsAgree(w.emitters.value, w.counter) then []
        else [ContractError("emitterCounts", "emitter counters must sum exactly to aggregate counters")]
  }

  /** Everything the checks report; nothing at all unless every aggregate counter is an integer. */
  function WindowErrors(w: Window): seq<ContractError>
  {
    if !AllWhole(w.counter) then []
    else BalanceErrors(w.counter, "", "") + TotalErrors(w) + ReasonErrors(w) + OutcomeErrors(w)
  }

  method TotalOf(emitters: seq<Emitter>, name: Name) returns (total: int)
    ensures total == Total(emitters, name)
  {
    total := 0;
    var i := 0;
    while i < |emitters|
      invariant i <= |emitters| && total == Total(emitters[..i], name)
    {
      assert emitters[..i + 1][..i] == emitters[..i];
      if emitters[i].counter(name).Whole? {
        total := total + emitters[i].counter(name).n;
      }
      i := i + 1;
    }
    assert emitters[..i] == emitters;
  }

  method CheckEmitters(emitters: seq<Emitter>) returns (errors: seq<ContractError>)
    ensures errors == EmitterErrors(emitters)
  {
    errors := [];
    var i := 0;
    while i < |emitters|
      invariant i <= |emitters| && errors == EmitterErrors(emitters[..i])
    {
      assert emitters[..i + 1][..i] == emitters[..i];
      var e := emitters[i];
      if AllWhole(e.counter) {
        errors := errors + BalanceErrors(e.counter, "emitterCounts." + e.name + ".", "emitter ");
      }
      i := i + 1;
    }
    assert emitters[..i] == emitters;
  }

  const NAMES := [Attempted, Accepted, Rejected, Duplicates, Retried, Buffered, Dropped, Quarantined, Drained]

  method CheckTotals(emitters: seq<Emitter>, counter: Name -> Field) returns (agree: bool)
    requires AllWhole(counter)
    ensures agree == TotalsAgree(emitters, counter)
  {
    var i := 0;
    while i < |NAMES|
      invariant i <= |NAMES| && forall k :: 0 <= k < i ==> Total(emitters, NAMES[k]) == counter(NAMES[k]).n
    {
      var total := TotalOf(emitters, NAMES[i]);
      if total != counter(NAMES[i]).n {
        return false;
      }
      i := i + 1;
    }
    forall name ensures Total(emitters, name) == counter(name).n {
      var k := match name
        case Attempted => 0 case Accepted => 1 case Rejected => 2 case Duplicates => 3 case Retried => 4
        case Buffered => 5 case Dropped => 6 case Quarantined => 7 case Drained => 8;
      assert NAMES[k] == name;
    }
    agree := true;
  }

  method ValidateRuntimeWindow(w: Window) returns (errors: seq<ContractError>)
    ensures errors == WindowErrors(w)
  {
    if !AllWhole(w.counter) {
      return [];
    }
    errors := BalanceErrors(w.counter, "", "");
    var found := CheckEmitterCounts(w);
    errors := errors + found + ReasonErrors(w) + OutcomeErrors(w);
  }

  method CheckEmitterCounts(w: Window) returns (errors: seq<ContractError>)
    requires AllWhole(w.counter)
    ensures errors == TotalErrors(w)
  {
    errors := [];
    if w.emitters.Some? {
      errors := CheckEmitters(w.emitters.value);
      var agree := CheckTotals(w.emitters.value, w.counter);
      if !agree {
        errors := errors + [ContractError("emitterCounts", "emitter counters must sum exactly to aggregate counters")];
      }
    }
  }

  // ---------------------------------------------------------------- the schema, which is checked first

  /** For the schema 3.0 is an integer; for the checks above it is not. */
  predicate SchemaInteger(f: Field)
  {
    f.Whole? || f.Floating?
  }

  predicate SchemaCounters(counter: Name -> Field)
  {
    forall name :: SchemaInteger(counter(name)) && counter(name).n >= 0
  }

  ghost predicate SchemaReasons(w: Window)
  {
    && w.reasons.List? && Distinct(w.reasons.items) && "" !in w.reasons.items
    && w.reasonCounts.Dict?
    && forall i :: 0 <= i < |w.reasonCounts.entries| ==>
                     var (reason, count) := w.reasonCounts.entries[i];
                     reason != "" && SchemaInteger(count) && count.n >= 1
  }

  /** What the schema demands of the members that the checks look at. */
  ghost predicate SchemaAccepts(w: Window)
  {
    && SchemaCounters(w.counter)
    && w.emitters.Some? && w.emitters.value != []
    && (forall i :: 0 <= i < |w.emitters.value| ==>
          w.emitters.value[i].name != "" && SchemaCounters(w.emitters.value[i].counter))
    && SchemaReasons(w)
    && w.outcome in ["COMPLETE", "INCOMPLETE", "EXPIRED", "REVOKED", "DISABLED"]
  }

  /** Neither the schema nor the checks report an error. */
  ghost predicate Passes(w: Window)
  {
    SchemaAccepts(w) && WindowErrors(w) == []
  }

  // ---------------------------------------------------------------- what a clean window guarantees

  /** Every counter of every emitter is an integer, and none is negative. */
  ghost predicate Countable(emitters: seq<Emitter>)
  {
    forall i, name :: 0 <= i < |emitters| ==> emitters[i].counter(name).Whole? && emitters[i].counter(name).n >= 0
  }

  ghost predicate EmittersPass(emitters: seq<Emitter>)
  {
    forall i :: 0 <= i < |emitters| && AllWhole(emitters[i].counter) ==>
                  Balanced(emitters[i].counter) && DrainsAtMost(emitters[i].counter)
  }

  lemma {:induction false} NoEmitterErrors(emitters: seq<Emitter>)
    ensures EmitterErrors(emitters) == [] <==> EmittersPass(emitters)
    decreases |emitters|
  {
    if emitters != [] {
      NoEmitterErrors(emitters[..|emitters| - 1]);
      assert forall i :: 0 <= i < |emitters| - 1 ==> emitters[..|emitters| - 1][i] == emitters[i];
    }
  }

  /** No amount exceeds the total of amounts that are not negative. */
  lemma {:induction false} PartOfTotal(emitters: seq<Emitter>, i: nat, name: Name)
    requires Countable(emitters) && i < |emitters|
    ensures 0 <= emitters[i].counter(name).n <= Total(emitters, name)
    decreases |emitters|
  {
    var init := emitters[..|emitters| - 1];
    assert forall k :: 0 <= k < |init| ==> init[k] == emitters[k];
    TotalNotNegative(init, name);
    if i < |init| {
      PartOfTotal(init, i, name);
    }
  }

  lemma {:induction false} TotalNotNegative(emitters: seq<Emitter>, name: Name)
    requires Countable(emitters)
    ensures Total(emitters, name) >= 0
    decreases |emitters|
  {
    if emitters != [] {
      var init := emitters[..|emitters| - 1];
      assert forall k :: 0 <= k < |init| ==> init[k] == emitters[k];
      TotalNotNegative(init, name);
    }
  }

  /** What no emitter exceeds and all together reach, every emitter reaches. */
  lemma {:induction false} EqualTotals(emitters: seq<Emitter>, small: Name, large: Name)
    requires forall i :: 0 <= i < |emitters| ==>
               emitters[i].counter(small).Whole? && emitters[i].counter(large).Whole?
               && emitters[i].counter(small).n <= emitters[i].counter(large).n
    ensures Total(emitters, small) <= Total(emitters, large)
    ensures Total(emitters, small) == Total(emitters, large) ==>
              forall i :: 0 <= i < |emitters| ==> emitters[i].counter(small).n == emitters[i].counter(large).n
    decreases |emitters|
  {
    if emitters != [] {
      var init := emitters[..|emitters| - 1];
      assert forall k :: 0 <= k < |init| ==> init[k] == emitters[k];
      EqualTotals(init, small, large);
    }
  }

  /** An emitter that lost nothing, drained all it accepted and accounts for every attempt. */
  ghost predicate Clean(counter: Name -> Field)
    requires SchemaCounters(counter)
  {
    && counter(Rejected).n == 0 && counter(Buffered).n == 0 && counter(Dropped).n == 0 && counter(Quarantined).n == 0
    && counter(Drained).n == counter(Accepted).n
    && counter(Attempted).n == counter(Accepted).n + counter(Duplicates).n
  }

  ghost predicate EveryEmitterClean(w: Window)
    requires SchemaAccepts(w)
  {
    forall i :: 0 <= i < |w.emitters.value| ==> Clean(w.emitters.value[i].counter)
  }

  ghost predicate FloatsWithin(counter: Name -> Field, names: set<Name>)
  {
    forall name :: counter(name).Floating? ==> name in names
  }

  /** Only the counters of these names are written like 3.0, in the aggregate or in an emitter. */
  ghost predicate FloatsOnly(w: Window, names: set<Name>)
  {
    && FloatsWithin(w.counter, names)
    && (w.emitters.Some? ==> forall i :: 0 <= i < |w.emitters.value| ==> FloatsWithin(w.emitters.value[i].counter, names))
  }

  lemma NoWindowErrors(w: Window)
    requires AllWhole(w.counter) && w.emitters.Some? && w.outcome == "COMPLETE" && WindowErrors(w) == []
    ensures Lossless(w) && TotalsAgree(w.emitters.value, w.counter) && EmittersPass(w.emitters.value)
  {
    assert TotalErrors(w) == [] && OutcomeErrors(w) == [];
    NoEmitterErrors(w.emitters.value);
  }

  lemma WithoutFloatsIsWhole(counter: Name -> Field)
    requires SchemaCounters(counter) && FloatsWithin(counter, {})
    ensures AllWhole(counter)
  {
  }

  /**
   * A COMPLETE window that passes the schema and the checks, its counters written without a decimal point,
   * is clean emitter by emitter, not only in the aggregate.
   */
  lemma CompleteWindowIsCleanPerEmitter(w: Window)
    requires Passes(w) && w.outcome == "COMPLETE" && FloatsOnly(w, {})
    ensures EveryEmitterClean(w)
  {
    var emitters := w.emitters.value;
    WithoutFloatsIsWhole(w.counter);
    forall i | 0 <= i < |emitters| ensures AllWhole(emitters[i].counter) {
      WithoutFloatsIsWhole(emitters[i].counter);
    }
    assert Countable(emitters);
    NoWindowErrors(w);
    forall i | 0 <= i < |emitters| ensures Clean(emitters[i].counter) {
      PartOfTotal(emitters, i, Rejected);
      PartOfTotal(emitters, i, Buffered);
      PartOfTotal(emitters, i, Dropped);
      PartOfTotal(emitters, i, Quarantined);
      EqualTotals(emitters, Drained, Accepted);
    }
  }

  /** How many observations must be classified by a reason: every loss, and one for a window that was cut off. */
  function Losses(w: Window): int
    requires AllWhole(w.counter)
  {
    var cut := w.outcome == "EXPIRED" || w.outcome == "REVOKED" || w.outcome == "DISABLED";
    w.counter(Dropped).n + w.counter(Quarantined).n + w.counter(Rejected).n + w.counter(Buffered).n + if cut then 1 else 0
  }

  ghost predicate Accounts(counter: Name -> Field)
    requires AllWhole(counter)
  {
    && counter(Accepted).n + counter(Rejected).n + counter(Duplicates).n == counter(Attempted).n
    && counter(Accepted).n >= counter(Drained).n
  }

  /** The reasons are the keys of their counts, and the counts classify every loss. */
  ghost predicate Explains(w: Window)
    requires w.reasons.List? && w.reasonCounts.Dict? && AllWhole(w.counter)
  {
    && (forall reason: string :: reason in w.reasons.items <==> Counted(w.reasonCounts.entries, reason))
    && ((forall entry :: entry in w.reasonCounts.entries ==> entry.1.Whole?) ==> Sum(w.reasonCounts.entries) == Losses(w))
  }

  ghost predicate Counted(entries: seq<(string, Field)>, reason: string)
  {
    exists i :: 0 <= i < |entries| && entries[i].0 == reason
  }

  /** A COMPLETE window lost nothing, drained everything and gives no reason; any other gives one. */
  ghost predicate EndsWell(w: Window)
    requires w.reasons.List? && w.reasonCounts.Dict? && AllWhole(w.counter) && SchemaCounters(w.counter)
  {
    if w.outcome == "COMPLETE" then
      Losses(w) == 0 && w.counter(Accepted).n == w.counter(Drained).n && w.reasons.items == []
      && w.reasonCounts.entries == []
    else w.reasons.items != []
  }

  /**
   * Which windows pass, whatever their outcome: every emitter and the aggregate account for their attempts,
   * the emitters add up, and the reasons explain every loss.
   */
  lemma PassesIff(w: Window)
    requires SchemaAccepts(w) && AllWhole(w.counter)
    requires forall i :: 0 <= i < |w.emitters.value| ==> AllWhole(w.emitters.value[i].counter)
    ensures WindowErrors(w) == []
            <==>
            && Accounts(w.counter)
            && (forall i :: 0 <= i < |w.emitters.value| ==> Accounts(w.emitters.value[i].counter))
            && (forall name :: Total(w.emitters.value, name) == w.counter(name).n)
            && Explains(w) && EndsWell(w)
  {
    NoEmitterErrors(w.emitters.value);
    BalanceAgrees(w.counter);
    EmittersAgree(w.emitters.value);
    ReasonsAgree(w);
    OutcomesAgree(w);
  }

  lemma BalanceAgrees(counter: Name -> Field)
    requires AllWhole(counter)
    ensures BalanceErrors(counter, "", "") == [] <==> Accounts(counter)
  {
  }

  lemma EmittersAgree(emitters: seq<Emitter>)
    requires forall i :: 0 <= i < |emitters| ==> AllWhole(emitters[i].counter)
    ensures EmittersPass(emitters) <==> forall i :: 0 <= i < |emitters| ==> Accounts(emitters[i].counter)
  {
  }

  lemma OutcomesAgree(w: Window)
    requires w.reasons.List? && w.reasonCounts.Dict? && AllWhole(w.counter) && SchemaCounters(w.counter)
    ensures OutcomeErrors(w) == [] <==> EndsWell(w)
  {
  }

  lemma EntriesAgree(entries: seq<(string, Field)>)
    ensures (forall i :: 0 <= i < |entries| ==> entries[i].1.Whole?) <==> (forall entry :: entry in entries ==> entry.1.Whole?)
  {
    if forall entry :: entry in entries ==> entry.1.Whole? {
      forall i | 0 <= i < |entries| ensures entries[i].1.Whole? {
        assert entries[i] in entries;
      }
    }
  }

  lemma NamesAgree(reasons: seq<string>, entries: seq<(string, Field)>)
    ensures Items(reasons) == Keys(entries) <==> forall reason: string :: reason in reasons <==> Counted(entries, reason)
  {
    var items, keys := Items(reasons), Keys(entries);
    forall reason: string ensures reason in items <==> reason in reasons {
    }
    forall reason: string ensures reason in keys <==> Counted(entries, reason) {
    }
    assert items == keys <==> forall reason: string :: reason in items <==> reason in keys;
  }

  lemma ReasonsAgree(w: Window)
    requires w.reasons.List? && w.reasonCounts.Dict? && AllWhole(w.counter)
    ensures ReasonErrors(w) == [] <==> Explains(w)
  {
    EntriesAgree(w.reasonCounts.entries);
    NamesAgree(w.reasons.items, w.reasonCounts.entries);
  }

  // ---------------------------------------------------------------- what is said of a window that fails

  /** What is reported of an aggregate that does not account for its attempts. */
  lemma BalanceErrorsByName(counter: Name -> Field)
    requires AllWhole(counter)
    ensures var a, r, d := counter(Accepted).n, counter(Rejected).n, counter(Duplicates).n;
            BalanceErrors(counter, "", "")
            == (if a + r + d == counter(Attempted).n then []
                else [ContractError("attempted", "attempted must equal accepted plus rejected plus duplicates")])
               + if counter(Drained).n <= a then [] else [ContractError("drained", "drained cannot exceed accepted")]
  {
    assert "" + "attempted" == "attempted" && "" + "drained" == "drained";
    assert "" + "attempted must equal accepted plus rejected plus duplicates"
           == "attempted must equal accepted plus rejected plus duplicates";
    assert "" + "drained cannot exceed accepted" == "drained cannot exceed accepted";
  }

  /** What is reported of an outcome without its reasons, and of a loss in a COMPLETE window. */
  lemma OutcomeErrorsByName(w: Window)
    requires AllWhole(w.counter)
    ensures w.outcome != "COMPLETE" ==>
              OutcomeErrors(w)
              == if HasReasons(w) then []
                 else [ContractError("reasons", "non-complete runtime windows require a classified reason")]
    ensures w.outcome == "COMPLETE" && OutcomeErrors(w) != [] ==>
              OutcomeErrors(w)
              == [ContractError("outcome", "COMPLETE runtime window cannot contain loss and must drain every accepted observation")]
    ensures w.emitters.Some? && !TotalsAgree(w.emitters.value, w.counter) ==>
              TotalErrors(w) == EmitterErrors(w.emitters.value)
              + [ContractError("emitterCounts", "emitter counters must sum exactly to aggregate counters")]
  {
  }

  function NothingBut(name: Name): Name -> Field
  {
    other => if other == name then Whole(1) else Whole(0)
  }

  function FloatingZero(name: Name): Name -> Field
  {
    other => if other == name then Floating(0) else Whole(0)
  }

  /** One emitter attempted an observation that is nowhere; one aggregate counter is written 0.0. */
  function Unchecked(name: Name): Window
  {
    Window(FloatingZero(name), Some([Emitter("e", NothingBut(Attempted))]), List([]), Dict([]), "COMPLETE")
  }

  lemma UncheckedPasses(name: Name)
    ensures Passes(Unchecked(name)) && FloatsOnly(Unchecked(name), {name})
    ensures !EveryEmitterClean(Unchecked(name))
  {
    var w := Unchecked(name);
    assert !w.counter(name).Whole?;
    assert w.emitters.value[0].counter == NothingBut(Attempted);
    assert !Clean(NothingBut(Attempted));
  }

  /**
   * Acceptance guarantees clean emitters exactly when no counter may be written like 3.0: one such counter
   * satisfies the schema and switches every other check off.
   */
  lemma PassingMeansCleanIff(names: set<Name>)
    ensures (forall w :: Passes(w) && w.outcome == "COMPLETE" && FloatsOnly(w, names) ==> EveryEmitterClean(w))
            <==> names == {}
  {
    if names == {} {
      forall w | Passes(w) && w.outcome == "COMPLETE" && FloatsOnly(w, names) ensures EveryEmitterClean(w) {
        CompleteWindowIsCleanPerEmitter(w);
      }
    } else {
      var name :| name in names;
      UncheckedPasses(name);
      assert FloatsOnly(Unchecked(name), names);
    }
  }

  /** Balance of the aggregate follows from balance of every emitter and agreement of the totals. */
  lemma BalanceAddsUp(emitters: seq<Emitter>, counter: Name -> Field)
    requires AllWhole(counter) && TotalsAgree(emitters, counter) && EmittersPass(emitters)
    requires forall i :: 0 <= i < |emitters| ==> AllWhole(emitters[i].counter)
    ensures Balanced(counter) && DrainsAtMost(counter)
  {
    TotalsBalance(emitters);
    EqualTotals(emitters, Drained, Accepted);
  }

  lemma {:induction false} TotalsBalance(emitters: seq<Emitter>)
    requires EmittersPass(emitters) && forall i :: 0 <= i < |emitters| ==> AllWhole(emitters[i].counter)
    ensures Total(emitters, Attempted)
            == Total(emitters, Accepted) + Total(emitters, Rejected) + Total(emitters, Duplicates)
    decreases |emitters|
  {
    if emitters != [] {
      var init := emitters[..|emitters| - 1];
      assert forall k :: 0 <= k < |init| ==> init[k] == emitters[k];
      TotalsBalance(init);
    }
  }
}
