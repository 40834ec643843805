/** A hosted deck and a self-editing deck agree, round after round; a refused edit leaves no trace. */
module DeckRounds {
  import opened Common
  import opened DeckOps

  // ---------------------------------------------------------------- one round

  /** The host has applied the op and rendered the deck anew; the deck has not noticed yet. */
  function Rendered(d: Deck, op: Op): Deck
    requires Editable(op, |d.children|)
  {
    d.(children := HostEdit(op, d.children))
  }

  lemma HostEditStaysDistinct(op: Op, slides: seq<Slide>)
    requires Distinct(slides) && Editable(op, |slides|)
    requires op.DuplicateOp? ==> op.copy !in slides
    ensures Distinct(HostEdit(op, slides))
  {
    match op
    case RemoveOp(at) =>
    case RemoveManyOp(positions) => KeepSelects(slides, PositionSet(positions));
    case DuplicateOp(at, copy) =>
    case MoveOp(at, to) => MoveStaysDistinct(slides, at, to);
  }

  lemma RemovedStaysDistinct(slides: seq<Slide>, at: nat)
    requires Distinct(slides) && at < |slides|
    ensures var others := slides[..at] + slides[at + 1..]; Distinct(others) && slides[at] !in others
  {
  }

  lemma InsertedStaysDistinct(others: seq<Slide>, el: Slide, k: nat)
    requires Distinct(others) && el !in others && k <= |others|
    ensures Distinct(others[..k] + [el] + others[k..])
  {
    var more := others[..k] + [el] + others[k..];
    forall i, j | 0 <= i < j < |more| ensures more[i] != more[j] {
      assert i != k ==> more[i] == others[if i < k then i else i - 1];
      assert j != k ==> more[j] == others[if j < k then j else j - 1];
    }
  }

  lemma MoveStaysDistinct(slides: seq<Slide>, at: nat, to: nat)
    requires Distinct(slides) && at < |slides| && to < |slides| && at != to
    ensures Distinct(HostEdit(MoveOp(at, to), slides))
  {
    RemovedStaysDistinct(slides, at);
    InsertedStaysDistinct(slides[..at] + slides[at + 1..], slides[at], to);
  }

  /** The deck both paths end in. */
  function Edited(d: Deck, op: Op, ni: int): Deck
    requires Editable(op, |d.slides|)
  {
    var slides := HostEdit(op, d.slides);
    d.(children := slides, slides := slides, index := ni, hash := Some(ni + 1),
       selected := set s | s in d.selected && s in slides)
  }

  lemma LocalRound(d: Deck, g: Gesture)
    requires Settled(d) && CopyIsNew(d, g) && Plan(d, g).Some?
    ensures var (op, ni) := Plan(d, g).value;
            SlotChanged(Locally(d, op, ni)) == Edited(d, op, ni)
  {
    var (op, ni) := Plan(d, g).value;
    EveryPlanLands(d, g);
    LocalIsHost(op, d.slides);
  }

  lemma HostedRound(d: Deck, g: Gesture)
    requires Settled(d) && CopyIsNew(d, g) && Plan(d, g).Some?
    ensures var (op, ni) := Plan(d, g).value;
            var rendered := Rendered(Emitted(d, ni), op);
            && Acked(SlotChanged(rendered), true) == Edited(d, op, ni)
            && SlotChanged(Acked(rendered, true)) == Edited(d, op, ni)
  {
    var (op, ni) := Plan(d, g).value;
    EveryPlanLands(d, g);
    RenderThenAck(d, op, ni);
    AckThenRender(d, op, ni);
  }

  lemma RenderThenAck(d: Deck, op: Op, ni: int)
    requires Settled(d) && Editable(op, |d.slides|) && Position(HostEdit(op, d.slides), ni)
    ensures Acked(SlotChanged(Rendered(Emitted(d, ni), op)), true) == Edited(d, op, ni)
  {
  }

  lemma AckThenRender(d: Deck, op: Op, ni: int)
    requires Settled(d) && Editable(op, |d.slides|) && Position(HostEdit(op, d.slides), ni)
    ensures SlotChanged(Acked(Rendered(Emitted(d, ni), op), true)) == Edited(d, op, ni)
  {
  }

  lemma EditedSettles(d: Deck, g: Gesture)
    requires Settled(d) && CopyIsNew(d, g) && Plan(d, g).Some?
    ensures var (op, ni) := Plan(d, g).value; Settled(Edited(d, op, ni))
  {
    var (op, ni) := Plan(d, g).value;
    EveryPlanLands(d, g);
    HostEditStaysDistinct(op, d.slides);
  }

  /**
   * Whether the host renders before or after it acknowledges, a hosted edit ends in the very deck the
   * deck's own edit ends in: same slides, same current slide, same location, same selection, unlocked.
   */
  lemma HostedIsLocal(d: Deck, g: Gesture)
    requires Settled(d) && CopyIsNew(d, g) && Plan(d, g).Some?
    ensures var (op, ni) := Plan(d, g).value;
            var rendered := Rendered(Emitted(d, ni), op);
            var alone := SlotChanged(Locally(d, op, ni));
            && Acked(SlotChanged(rendered), true) == alone
            && SlotChanged(Acked(rendered, true)) == alone
            && Settled(alone)
  {
    LocalRound(d, g);
    HostedRound(d, g);
    EditedSettles(d, g);
  }

  /** A refused op leaves the deck exactly as it was before the gesture. */
  lemma RefusalRestores(d: Deck, ni: int)
    requires Settled(d) && d.slides != []
    ensures Acked(Emitted(d, ni), false) == d
  {
  }

  /** The host applied the op and rendered it, and its acknowledgement never came. */
  function Unacknowledged(d: Deck, op: Op, ni: int): Deck
    requires Editable(op, |d.children|)
  {
    SlotChanged(Rendered(Emitted(d, ni), op))
  }

  lemma UnacknowledgedIs(d: Deck, op: Op, ni: int)
    requires Settled(d) && Editable(op, |d.slides|) && Position(HostEdit(op, d.slides), ni)
    ensures var after := Unacknowledged(d, op, ni);
            && after.slides == HostEdit(op, d.slides) && after.index == ni && !after.locked
            && after.before == if ni == d.index then None else Some(d.index)
  {
  }

  /**
   * After a lost acknowledgement the deck shows the edit and is unlocked again. When the next op is refused
   * the index stays where it was exactly if that op would have moved it or the first one had not: otherwise
   * the deck returns to the index from before the first edit.
   */
  lemma LostAckIff(d: Deck, first: Gesture, second: Gesture)
    requires Settled(d) && CopyIsNew(d, first) && Plan(d, first).Some?
    ensures var (op, ni) := Plan(d, first).value;
            var shown := Unacknowledged(d, op, ni);
            && shown.slides == HostEdit(op, d.slides) && shown.index == ni && 0 <= ni < |shown.slides|
            && (Plan(shown, second).Some? ==>
                  var (_, next) := Plan(shown, second).value;
                  var refused := Acked(Emitted(shown, next), false);
                  && (refused.index == shown.index <==> next != ni || ni == d.index)
                  && (refused.index != shown.index ==> refused.index == d.index))
  {
    var (op, ni) := Plan(d, first).value;
    EveryPlanLands(d, first);
    UnacknowledgedIs(d, op, ni);
  }

  function FourSlides(): Deck
  {
    var slides := [Slide(0), Slide(1), Slide(2), Slide(3)];
    Deck(slides, slides, 2, Some(3), false, None, {}, false)
  }

  /** On the third of four slides: the first is deleted, the acknowledgement is lost, deleting the last is refused. */
  lemma LostAckJumps()
    ensures Settled(FourSlides())
    ensures Plan(FourSlides(), Delete(0)) == Some((RemoveOp(0), 1))
    ensures var shown := Unacknowledged(FourSlides(), RemoveOp(0), 1);
            && shown.slides == [Slide(1), Slide(2), Slide(3)] && shown.index == 1
            && Plan(shown, Delete(2)) == Some((RemoveOp(2), 1))
            && Acked(Emitted(shown, 1), false).index == 2
  {
    var d := FourSlides();
    assert d.slides[..0] + d.slides[1..] == [Slide(1), Slide(2), Slide(3)];
    UnacknowledgedIs(d, RemoveOp(0), 1);
  }

  // ---------------------------------------------------------------- whole runs

  /** One gesture and what becomes of it. */
  datatype Round = Round(gesture: Gesture, streaming: bool, applied: bool, ackFirst: bool)

  function Hosted(d: Deck, r: Round): Deck
    requires d.index >= 0 && d.slides == d.children
  {
    match Plan(d, r.gesture)
    case None => d
    case Some((op, ni)) =>
      if r.streaming then d
      else
        var sent := Emitted(d, ni);
        if !r.applied then Acked(sent, false)
        else if r.ackFirst then SlotChanged(Acked(Rendered(sent, op), true))
        else Acked(SlotChanged(Rendered(sent, op)), true)
  }

  function Alone(d: Deck, g: Gesture): Deck
    requires d.index >= 0
  {
    match Plan(d, g)
    case None => d
    case Some((op, ni)) => SlotChanged(Locally(d, op, ni))
  }

  lemma HostedKeeps(d: Deck, r: Round)
    requires Settled(d) && CopyIsNew(d, r.gesture)
    ensures Settled(Hosted(d, r))
    ensures Hosted(d, r) == if r.applied && !r.streaming then Alone(d, r.gesture) else d
    ensures Settled(Alone(d, r.gesture))
  {
    if Plan(d, r.gesture).Some? {
      var (op, ni) := Plan(d, r.gesture).value;
      HostedIsLocal(d, r.gesture);
      EveryPlanLands(d, r.gesture);
      RefusalRestores(d, ni);
    }
  }

  /** Every duplicate of the run is a new element when it is made. */
  predicate CopiesNew(d: Deck, rounds: seq<Round>)
    requires d.index >= 0 && d.slides == d.children
    decreases |rounds|
  {
    rounds == []
    || (&& CopyIsNew(d, rounds[0].gesture)
        && var next := Hosted(d, rounds[0]);
           next.index >= 0 && next.slides == next.children && CopiesNew(next, rounds[1..]))
  }

  function HostedRun(d: Deck, rounds: seq<Round>): Deck
    requires d.index >= 0 && d.slides == d.children && CopiesNew(d, rounds)
    decreases |rounds|
  {
    if rounds == [] then d else HostedRun(Hosted(d, rounds[0]), rounds[1..])
  }

  /** The gestures that took effect. */
  function Effective(rounds: seq<Round>): seq<Gesture>
  {
    if rounds == [] then []
    else (if rounds[0].applied && !rounds[0].streaming then [rounds[0].gesture] else []) + Effective(rounds[1..])
  }

  /** `last` is where the deck's own edits lead from `d`. */
  ghost predicate AloneRun(d: Deck, gestures: seq<Gesture>, last: Deck)
    decreases |gestures|
  {
    if gestures == [] then last == d
    else d.index >= 0 && AloneRun(Alone(d, gestures[0]), gestures[1..], last)
  }

  /**
   * Over every sequence of gestures, with refusals, streaming and acknowledgements in either order, the
   * hosted deck stays settled and ends where the effective gestures alone would have led.
   */
  lemma {:induction false} EveryRunAgrees(d: Deck, rounds: seq<Round>)
    requires Settled(d) && CopiesNew(d, rounds)
    ensures Settled(HostedRun(d, rounds))
    ensures AloneRun(d, Effective(rounds), HostedRun(d, rounds))
    decreases |rounds|
  {
    if rounds != [] {
      var r, rest := rounds[0], Effective(rounds[1..]);
      HostedKeeps(d, r);
      EveryRunAgrees(Hosted(d, r), rounds[1..]);
      if r.applied && !r.streaming {
        assert Effective(rounds) == [r.gesture] + rest;
        assert ([r.gesture] + rest)[1..] == rest;
      } else {
        assert Effective(rounds) == rest;
      }
    }
  }

  // ---------------------------------------------------------------- deleting a selection

  /** The selected positions, or the current one when nothing is selected. */
  function SelectionIndices(d: Deck): seq<int>
  {
    var chosen := Ascending(SelectedPositions(d), |d.slides|);
    if chosen == [] && Position(d.slides, d.index) then [d.index] else chosen
  }

  function SelectedPositions(d: Deck): set<int>
  {
    set i | 0 <= i < |d.slides| && d.slides[i] in d.selected
  }

  lemma SelectionIsAscending(d: Deck)
    requires Settled(d) && d.selected != {}
    ensures SelectionIndices(d) == Ascending(SelectedPositions(d), |d.slides|)
    ensures Valid(d.slides, SelectionIndices(d)) == SelectedPositions(d)
  {
    var n, del := |d.slides|, SelectedPositions(d);
    AscendingCounts(del, n);
    var s :| s in d.selected;
    assert s in d.slides;
    var k :| 0 <= k < n && d.slides[k] == s;
    assert k in del && k in Ascending(del, n);
  }

  /** Deleting the selection removes the selected slides and no others. */
  lemma SelectionDeletesSelected(d: Deck)
    requires Settled(d) && d.selected != {} && Plan(d, DeleteAll(SelectionIndices(d))).Some?
    ensures var (op, _) := Plan(d, DeleteAll(SelectionIndices(d))).value;
            HostEdit(op, d.slides) == Without(d.slides, d.selected)
  {
    var del, list := SelectedPositions(d), SelectionIndices(d);
    SelectionIsAscending(d);
    WithoutIsKeep(d.slides, d.selected, del);
    AscendingIsValid(d.slides, list);
    if |Ascending(del, |d.slides|)| == 1 {
      AscendingOne(d.slides, list);
      KeepOne(d.slides, Ascending(del, |d.slides|)[0]);
    }
  }
}
