/** The deck element itself: its fields, and the handlers that update them in place. */
module DeckStage {
  import opened Common
  import opened DeckOps

  /** What a gesture does to the deck, and the op it sends out. */
  function Requested(d: Deck, g: Gesture, hosted: bool, streaming: bool): (Deck, Option<Op>)
    requires d.index >= 0
  {
    if d.locked then (d, None)
    else
      match Plan(d, g)
      case None => (d, None)
      case Some((op, ni)) =>
        if hosted && streaming then (d, None)
        else if hosted then (Emitted(d, ni), Some(op))
        else (Locally(d, op, ni), Some(op))
  }

  /** The search of `Advance`: the first slide from `i` on in steps of `dir` that is not skipped. */
  function Landing(slides: seq<Slide>, skipped: set<Slide>, i: int, dir: int): int
    requires dir == 1 || dir == -1
    decreases if dir == 1 then |slides| - i else i
  {
    if !Position(slides, i) || slides[i] !in skipped then i else Landing(slides, skipped, i + dir, dir)
  }

  lemma {:induction false} LandingIsNearest(slides: seq<Slide>, skipped: set<Slide>, i: int, dir: int)
    requires dir == 1 || dir == -1
    ensures var k := Landing(slides, skipped, i, dir);
            && (Position(slides, k) ==> slides[k] !in skipped)
            && (dir == 1 ==> k >= i && forall m :: i <= m < k ==> Position(slides, m) && slides[m] in skipped)
            && (dir == -1 ==> k <= i && forall m :: k < m <= i ==> Position(slides, m) && slides[m] in skipped)
    decreases if dir == 1 then |slides| - i else i
  {
    if Position(slides, i) && slides[i] in skipped {
      LandingIsNearest(slides, skipped, i + dir, dir);
    }
  }

  class DeckStage {
    const hosted: bool
    var children: seq<Slide>
    var slides: seq<Slide>
    var index: int
    var hash: Option<int>
    var railLock: bool
    var indexBeforeEmit: Option<int>
    var selected: set<Slide>
    var skipped: set<Slide>
    var squelchSlotChange: bool

    ghost function View(): Deck
      reads this
    {
      Deck(children, slides, index, hash, railLock, indexBeforeEmit, selected, squelchSlotChange)
    }

    constructor (hosted: bool, children: seq<Slide>, hash: Option<int>)
      requires Distinct(children)
      ensures this.hosted == hosted
      ensures View() == IndexApplied(Restored(Deck(children, children, 0, hash, false, None, {}, false)))
      ensures children != [] ==> Settled(View())
    {
      this.hosted, this.children, slides, this.hash := hosted, children, children, hash;
      railLock, indexBeforeEmit, selected, skipped, squelchSlotChange := false, None, {}, {}, false;
      index := 0;
      new;
      RestoreIndex();
      ApplyIndex();
    }

    method CollectSlides()
      modifies this
      ensures View() == Collected(old(View())) && skipped == old(skipped)
    {
      slides := children;
      selected := set s | s in selected && s in slides;
      if index >= |slides| {
        index := if |slides| == 0 then 0 else |slides| - 1;
      }
    }

    method RestoreIndex()
      modifies this
      ensures View() == Restored(old(View())) && skipped == old(skipped)
    {
      if hash.Some? {
        var n := hash.value - 1;
        if 0 <= n < |slides| {
          index := n;
        }
      }
    }

    method ApplyIndex()
      modifies this
      ensures View() == IndexApplied(old(View())) && skipped == old(skipped)
    {
      if slides != [] {
        hash := Some(index + 1);
      }
    }

    method OnSlotChange()
      modifies this
      ensures View() == SlotChanged(old(View()))
    {
      if squelchSlotChange {
        squelchSlotChange := false;
        return;
      }
      railLock := false;
      CollectSlides();
      RestoreIndex();
      ApplyIndex();
    }

    method OnAck(applied: bool)
      modifies this
      ensures View() == Acked(old(View()), applied)
    {
      railLock := false;
      if !applied && indexBeforeEmit.Some? {
        index := indexBeforeEmit.value;
        hash := Some(index + 1);
      }
      indexBeforeEmit := None;
    }

    /** True when the caller must not edit the deck itself. */
    method EmitDcOp(newIndex: int, streaming: bool) returns (handled: bool, sent: bool)
      modifies this
      ensures handled == hosted && sent == !(hosted && streaming)
      ensures View() == if hosted && sent then Emitted(old(View()), newIndex) else old(View())
    {
      if hosted && streaming {
        return true, false;
      }
      if hosted {
        railLock := true;
        if newIndex != index {
          indexBeforeEmit := Some(index);
          index := newIndex;
          hash := Some(newIndex + 1);
        }
      }
      handled, sent := hosted, true;
    }

    /** The local edit: the new index, the children, and the view that follows them. */
    method EditChildren(op: Op, newIndex: int)
      requires Editable(op, |slides|)
      modifies this
      ensures View() == Locally(old(View()), op, newIndex)
    {
      index := newIndex;
      squelchSlotChange := true;
      match op {
        case RemoveOp(at) => children := Without(children, {slides[at]});
        case RemoveManyOp(positions) => RemoveElements(positions);
        case DuplicateOp(at, copy) => children := InsertBefore(children, copy, NextSibling(children, slides[at]));
        case MoveOp(at, to) =>
          var ref := if to < at then Some(slides[to]) else NextSibling(children, slides[to]);
          children := InsertBefore(children, slides[at], ref);
      }
      CollectSlides();
      ApplyIndex();
    }

    /** Element after element leaves the deck. */
    method RemoveElements(positions: seq<nat>)
      requires forall i :: 0 <= i < |positions| ==> positions[i] < |slides|
      modifies this`children
      ensures children == Without(old(children), Elements(slides, positions))
    {
      var k := 0;
      WithoutNone(children);
      assert Elements(slides, positions[..0]) == {};
      while k < |positions|
        invariant k <= |positions|
        invariant children == Without(old(children), Elements(slides, positions[..k]))
      {
        var el := slides[positions[k]];
        WithoutTwice(old(children), Elements(slides, positions[..k]), el);
        ElementsGrow(slides, positions, k);
        children := Without(children, {el});
        k := k + 1;
      }
      assert positions[..k] == positions;
    }

    method DeleteSlide(i: int, streaming: bool) returns (op: Option<Op>)
      requires index >= 0
      modifies this
      ensures (View(), op) == old(Requested(View(), Delete(i), hosted, streaming))
    {
      if railLock || !Position(slides, i) || |slides| <= 1 {
        return None;
      }
      var cur := index;
      var ni := if i < cur || (i == cur && i == |slides| - 1) then cur - 1 else cur;
      var handled, sent := EmitDcOp(ni, streaming);
      op := if sent then Some(RemoveOp(i)) else None;
      if !handled {
        EditChildren(RemoveOp(i), ni);
      }
    }

    /** The valid positions of the list, each once, ascending. */
    method ValidPositions(list: seq<int>) returns (positions: seq<nat>)
      ensures positions == Ascending(Valid(slides, list), |slides|)
    {
      positions := [];
      var i := 0;
      while i < |slides|
        invariant i <= |slides|
        invariant positions == Ascending(Valid(slides, list), i)
      {
        if i in list {
          positions := positions + [i];
        }
        i := i + 1;
      }
    }

    method CountBelow(positions: seq<nat>, n: nat, ghost del: set<int>) returns (k: nat)
      requires n <= |slides| && positions == Ascending(del, |slides|)
      ensures k == Below(del, n)
    {
      k := 0;
      var i := 0;
      assert positions[..0] == [];
      while i < |positions|
        invariant i <= |positions| && k == CountOf(positions[..i], n)
      {
        assert positions[..i + 1] == positions[..i] + [positions[i]];
        if positions[i] < n {
          k := k + 1;
        }
        i := i + 1;
      }
      assert positions[..i] == positions;
      CountIsBelow(del, |slides|, n);
    }

    /** The index in the deck after the deletion. */
    method IndexAfter(positions: seq<nat>, ghost del: set<int>) returns (ni: int)
      requires 0 <= index <= |slides| && positions == Ascending(del, |slides|)
      requires forall i :: i in del ==> Position(slides, i)
      ensures ni == NextIndex(del, |slides|, index)
    {
      AscendingCounts(del, |slides|);
      var cur, n := index, |slides|;
      if cur !in positions {
        var k := CountBelow(positions, cur, del);
        return cur - k;
      }
      var s := -1;
      var j := cur + 1;
      while j < n && s == -1
        invariant cur < j <= n
        invariant s == -1 ==> SurvivorFrom(del, n, cur + 1) == SurvivorFrom(del, n, j)
        invariant s != -1 ==> 0 <= s < n && SurvivorFrom(del, n, cur + 1) == Some(s)
        decreases n - j, s == -1
      {
        if j !in positions {
          s := j;
        } else {
          j := j + 1;
        }
      }
      if s == -1 {
        j := cur;
        while j > 0 && s == -1
          invariant 0 <= j <= cur
          invariant s == -1 ==> SurvivorBelow(del, cur) == SurvivorBelow(del, j)
          invariant s != -1 ==> 0 <= s < n && SurvivorBelow(del, cur) == Some(s)
          decreases j, s == -1
        {
          if j - 1 !in positions {
            s := j - 1;
          } else {
            j := j - 1;
          }
        }
      }
      if s < 0 {
        ni := 0;
      } else {
        var k := CountBelow(positions, s, del);
        ni := s - k;
      }
    }

    method DeleteSlides(list: seq<int>, streaming: bool) returns (op: Option<Op>)
      requires 0 <= index <= |slides|
      modifies this
      ensures (View(), op) == old(Requested(View(), DeleteAll(list), hosted, streaming))
    {
      if railLock {
        return None;
      }
      var positions := ValidPositions(list);
      if positions == [] || |positions| >= |slides| {
        return None;
      }
      if |positions| == 1 {
        op := DeleteSlide(positions[0], streaming);
        return;
      }
      var ni := IndexAfter(positions, Valid(slides, list));
      var handled, sent := EmitDcOp(ni, streaming);
      op := if sent then Some(RemoveManyOp(positions)) else None;
      if !handled {
        EditChildren(RemoveManyOp(positions), ni);
      }
    }

    method DuplicateSlide(i: int, copy: Slide, streaming: bool) returns (op: Option<Op>)
      requires index >= 0
      modifies this
      ensures (View(), op) == old(Requested(View(), Duplicate(i, copy), hosted, streaming))
    {
      if railLock || !Position(slides, i) {
        return None;
      }
      var handled, sent := EmitDcOp(i + 1, streaming);
      op := if sent then Some(DuplicateOp(i, copy)) else None;
      if !handled {
        EditChildren(DuplicateOp(i, copy), i + 1);
      }
    }

    /**
     * A move whose `i` names no slide still goes out to a host, as a move from nowhere to `stray`; alone, the
     * deck throws with its index already moved.
     */
    method MoveSlide(i: int, j: int, streaming: bool) returns (op: Option<Op>, stray: Option<int>, threw: bool)
      requires index >= 0
      modifies this
      ensures old(railLock || Position(slides, i) || !Position(slides, j) || i == j) ==>
                && (View(), op) == old(Requested(View(), MoveTo(i, j), hosted, streaming))
                && stray.None? && !threw
      ensures !old(railLock || Position(slides, i) || !Position(slides, j) || i == j) ==>
                && op.None? && stray == (if hosted && streaming then None else Some(j)) && threw == !hosted
                && var ni := IndexAfterMove(old(index), i, j);
                   View() == old(if hosted && streaming then View()
                                 else if hosted then Emitted(View(), ni)
                                 else View().(index := ni, squelch := true))
    {
      op, stray, threw := None, None, false;
      if railLock || j < 0 || j >= |slides| || j == i {
        return;
      }
      var cur := index;
      var ni := if cur == i then j
                else if i < cur && j >= cur then cur - 1
                else if i > cur && j <= cur then cur + 1
                else cur;
      var handled, sent := EmitDcOp(ni, streaming);
      if sent {
        if Position(slides, i) {
          op := Some(MoveOp(i, j));
        } else {
          stray := Some(j);
        }
      }
      if handled {
        return;
      }
      if Position(slides, i) {
        EditChildren(MoveOp(i, j), ni);
      } else {
        index, squelchSlotChange, threw := ni, true, true;
      }
    }

    method Go(i: int)
      modifies this
      ensures slides == old(slides) && children == old(children)
      ensures slides == [] ==> View() == old(View())
      ensures slides != [] ==>
                index == (if i < 0 then 0 else if i >= |slides| then |slides| - 1 else i)
                && (index != old(index) ==> hash == Some(index + 1)) && (index == old(index) ==> hash == old(hash))
    {
      if slides == [] {
        return;
      }
      var clamped := if i < 0 then 0 else if i >= |slides| then |slides| - 1 else i;
      if clamped != index {
        index := clamped;
        ApplyIndex();
      }
    }

    /** Step in one direction to the nearest slide that is not skipped, or stay. */
    method Advance(dir: int)
      requires dir == 1 || dir == -1
      requires slides != [] ==> Position(slides, index) && hash == Some(index + 1)
      modifies this
      ensures slides == old(slides) && children == old(children)
      ensures slides != [] ==> Position(slides, index) && hash == Some(index + 1)
      ensures slides != [] ==>
                var k := Landing(slides, old(skipped), old(index) + dir, dir);
                index == if Position(slides, k) then k else old(index)
    {
      if slides == [] {
        return;
      }
      var i := index + dir;
      while 0 <= i < |slides| && slides[i] in skipped
        invariant Landing(slides, skipped, index + dir, dir) == Landing(slides, skipped, i, dir)
        decreases if dir == 1 then |slides| - i else i
      {
        i := i + dir;
      }
      if Position(slides, i) {
        Go(i);
      }
    }
  }

  // ---------------------------------------------------------------- facts the loops use

  lemma {:induction false} WithoutNone(children: seq<Slide>)
    ensures Without(children, {}) == children
  {
    if children != [] {
      WithoutNone(children[..|children| - 1]);
    }
  }

  lemma {:induction false} WithoutTwice(children: seq<Slide>, gone: set<Slide>, el: Slide)
    ensures Without(Without(children, gone), {el}) == Without(children, gone + {el})
  {
    if children != [] {
      var n := |children| - 1;
      var rest := Without(children[..n], gone);
      WithoutTwice(children[..n], gone, el);
      if children[n] in gone {
        assert Without(children, gone) == rest;
      } else {
        assert Without(children, gone) == rest + [children[n]];
      }
    }
  }

  lemma ElementsGrow(slides: seq<Slide>, positions: seq<nat>, k: nat)
    requires k < |positions| && forall i :: 0 <= i < |positions| ==> positions[i] < |slides|
    ensures Elements(slides, positions[..k + 1]) == Elements(slides, positions[..k]) + {slides[positions[k]]}
  {
    var more, less := Elements(slides, positions[..k + 1]), Elements(slides, positions[..k]);
    assert forall i :: 0 <= i < k ==> positions[..k + 1][i] == positions[..k][i];
    forall s | s in less + {slides[positions[k]]} ensures s in more {
      if s in less {
        var i :| 0 <= i < k && slides[positions[..k][i]] == s;
        assert slides[positions[..k + 1][i]] == s;
      } else {
        assert slides[positions[..k + 1][k]] == s;
      }
    }
  }

  function CountOf(positions: seq<nat>, n: nat): nat
  {
    if positions == [] then 0
    else
      var m := |positions| - 1;
      CountOf(positions[..m], n) + if positions[m] < n then 1 else 0
  }

  lemma {:induction false} CountIsBelow(del: set<int>, len: nat, n: nat)
    ensures CountOf(Ascending(del, len), n) == Below(del, if n < len then n else len)
  {
    if len > 0 {
      var rest := Ascending(del, len - 1);
      CountIsBelow(del, len - 1, n);
      if len - 1 in del {
        assert Ascending(del, len) == rest + [len - 1];
        assert (rest + [len - 1])[..|rest|] == rest;
      } else {
        assert Ascending(del, len) == rest;
      }
    }
  }
}
