/** The slide rail: structural edits of a deck, the current slide, and the round trip through a host. */
module DeckOps {
  import opened Common

  datatype Slide = Slide(id: nat)

  /**
   * `children` are the slide elements under the deck, `slides` the deck's collected view of them;
   * `hash` is the one-based position in the location.
   */
  datatype Deck = Deck(
    children: seq<Slide>,
    slides: seq<Slide>,
    index: int,
    hash: Option<int>,
    locked: bool,
    before: Option<int>,
    selected: set<Slide>,
    squelch: bool)

  /** What the deck asks its host to do; positions count the slides before the edit. */
  datatype Op =
    | RemoveOp(at: nat)
    | RemoveManyOp(positions: seq<nat>)
    | DuplicateOp(at: nat, copy: Slide)
    | MoveOp(at: nat, to: nat)

  datatype Gesture =
    | DeleteAll(list: seq<int>)
    | Delete(at: int)
    | Duplicate(at: int, copy: Slide)
    | MoveTo(at: int, to: int)

  // ---------------------------------------------------------------- positions

  predicate Position(slides: seq<Slide>, i: int)
  {
    0 <= i < |slides|
  }

  /** The members of `del` below `n`, ascending. */
  function Ascending(del: set<int>, n: nat): (positions: seq<nat>)
    ensures forall i :: 0 <= i < |positions| ==> positions[i] < n && positions[i] in del
  {
    if n == 0 then [] else Ascending(del, n - 1) + if n - 1 in del then [n - 1] else []
  }

  /** How many members of `del` are below `n`. */
  function Below(del: set<int>, n: nat): (k: nat)
    ensures k <= n
  {
    if n == 0 then 0 else Below(del, n - 1) + if n - 1 in del then 1 else 0
  }

  /** The slides whose positions are not in `del`. */
  function Keep(slides: seq<Slide>, del: set<int>): seq<Slide>
  {
    if slides == [] then []
    else
      var n := |slides| - 1;
      Keep(slides[..n], del) + if n in del then [] else [slides[n]]
  }

  /** The first position from `j` on that is not deleted. */
  function SurvivorFrom(del: set<int>, n: nat, j: nat): Option<nat>
    decreases n - j
  {
    if j >= n then None else if j !in del then Some(j) else SurvivorFrom(del, n, j + 1)
  }

  /** The last position below `j` that is not deleted. */
  function SurvivorBelow(del: set<int>, j: nat): Option<nat>
  {
    if j == 0 then None else if j - 1 !in del then Some(j - 1) else SurvivorBelow(del, j - 1)
  }

  /** The slide that is current after a deletion: itself, else the nearest survivor behind, else before. */
  function Survivor(del: set<int>, n: nat, cur: nat): Option<nat>
  {
    if cur !in del then Some(cur)
    else if SurvivorFrom(del, n, cur + 1).Some? then SurvivorFrom(del, n, cur + 1)
    else SurvivorBelow(del, cur)
  }

  function NextIndex(del: set<int>, n: nat, cur: nat): nat
  {
    match Survivor(del, n, cur) case None => 0 case Some(s) => s - Below(del, s)
  }

  function Valid(slides: seq<Slide>, list: seq<int>): set<int>
  {
    set i | i in list && Position(slides, i)
  }

  // ---------------------------------------------------------------- what a gesture asks for

  /** The op and the new index of a gesture, or none when the gesture does nothing. */
  function Plan(d: Deck, g: Gesture): (plan: Option<(Op, int)>)
    requires d.index >= 0
    ensures plan.Some? ==> Editable(plan.value.0, |d.slides|)
  {
    var n, cur := |d.slides|, d.index;
    match g
    case DeleteAll(list) =>
      var del := Valid(d.slides, list);
      var positions := Ascending(del, n);
      if positions == [] || |positions| >= n then None
      else if |positions| == 1 then PlanDelete(d, positions[0])
      else Some((RemoveManyOp(positions), NextIndex(del, n, cur)))
    case Delete(i) => PlanDelete(d, i)
    case Duplicate(i, copy) =>
      if !Position(d.slides, i) then None else Some((DuplicateOp(i, copy), i + 1))
    case MoveTo(i, j) =>
      if !Position(d.slides, i) || !Position(d.slides, j) || j == i then None
      else Some((MoveOp(i, j), IndexAfterMove(cur, i, j)))
  }

  function IndexAfterMove(cur: int, i: int, j: int): int
  {
    if cur == i then j
    else if i < cur && j >= cur then cur - 1
    else if i > cur && j <= cur then cur + 1
    else cur
  }

  function PlanDelete(d: Deck, i: int): (plan: Option<(Op, int)>)
    ensures plan.Some? ==> Editable(plan.value.0, |d.slides|)
  {
    var n, cur := |d.slides|, d.index;
    if !Position(d.slides, i) || n <= 1 then None
    else Some((RemoveOp(i), if i < cur || (i == cur && i == n - 1) then cur - 1 else cur))
  }

  // ---------------------------------------------------------------- the host's edit

  /** The op addresses slides of a deck of `n`. */
  predicate Editable(op: Op, n: nat)
  {
    match op
    case RemoveOp(at) => at < n
    case RemoveManyOp(positions) => forall i :: 0 <= i < |positions| ==> positions[i] < n
    case DuplicateOp(at, _) => at < n
    case MoveOp(at, to) => at < n && to < n && at != to
  }

  function PositionSet(positions: seq<nat>): set<int>
  {
    set i: nat | i in positions :: i as int
  }

  /** The slides after the op, by position. */
  function HostEdit(op: Op, slides: seq<Slide>): seq<Slide>
    requires Editable(op, |slides|)
  {
    match op
    case RemoveOp(at) => slides[..at] + slides[at + 1..]
    case RemoveManyOp(positions) => Keep(slides, PositionSet(positions))
    case DuplicateOp(at, copy) => slides[..at + 1] + [copy] + slides[at + 1..]
    case MoveOp(at, to) =>
      var others := slides[..at] + slides[at + 1..];
      others[..to] + [slides[at]] + others[to..]
  }

  // ---------------------------------------------------------------- the deck's own edit, by element

  /** The children without the elements of `gone`. */
  function Without(children: seq<Slide>, gone: set<Slide>): seq<Slide>
  {
    if children == [] then []
    else
      var n := |children| - 1;
      Without(children[..n], gone) + if children[n] in gone then [] else [children[n]]
  }

  function IndexOf(children: seq<Slide>, el: Slide): (i: nat)
    ensures i <= |children| && (i < |children| ==> children[i] == el)
    ensures forall k :: 0 <= k < i ==> children[k] != el
  {
    if children == [] then 0 else if children[0] == el then 0 else 1 + IndexOf(children[1..], el)
  }

  /** `el` leaves its place and goes in before `ref`, or last. */
  function InsertBefore(children: seq<Slide>, el: Slide, ref: Option<Slide>): seq<Slide>
  {
    var others := Without(children, {el});
    var k := match ref case None => |others| case Some(r) => IndexOf(others, r);
    others[..k] + [el] + others[k..]
  }

  function NextSibling(children: seq<Slide>, el: Slide): Option<Slide>
  {
    var k := IndexOf(children, el) + 1;
    if k < |children| then Some(children[k]) else None
  }

  function Elements(slides: seq<Slide>, positions: seq<nat>): set<Slide>
    requires forall i :: 0 <= i < |positions| ==> positions[i] < |slides|
  {
    set i | 0 <= i < |positions| :: slides[positions[i]]
  }

  function LocalEdit(op: Op, slides: seq<Slide>, children: seq<Slide>): seq<Slide>
    requires Editable(op, |slides|)
  {
    match op
    case RemoveOp(at) => Without(children, {slides[at]})
    case RemoveManyOp(positions) => Without(children, Elements(slides, positions))
    case DuplicateOp(at, copy) => InsertBefore(children, copy, NextSibling(children, slides[at]))
    case MoveOp(at, to) =>
      InsertBefore(children, slides[at], if to < at then Some(slides[to]) else NextSibling(children, slides[to]))
  }

  // ---------------------------------------------------------------- events

  function Collected(d: Deck): Deck
  {
    var n := |d.children|;
    d.(slides := d.children,
       selected := (set s | s in d.selected && s in d.children),
       index := if d.index >= n then (if n == 0 then 0 else n - 1) else d.index)
  }

  function Restored(d: Deck): Deck
  {
    if d.hash.Some? && Position(d.slides, d.hash.value - 1) then d.(index := d.hash.value - 1) else d
  }

  function IndexApplied(d: Deck): Deck
  {
    if d.slides == [] then d else d.(hash := Some(d.index + 1))
  }

  function SlotChanged(d: Deck): Deck
  {
    if d.squelch then d.(squelch := false) else IndexApplied(Restored(Collected(d.(locked := false))))
  }

  /** The op is handed to the host; the new index is taken over at once. */
  function Emitted(d: Deck, newIndex: int): Deck
  {
    var after := d.(locked := true);
    if newIndex == d.index then after
    else after.(before := Some(d.index), index := newIndex, hash := Some(newIndex + 1))
  }

  function Acked(d: Deck, applied: bool): Deck
  {
    var after := d.(locked := false, before := None);
    if !applied && d.before.Some? then after.(index := d.before.value, hash := Some(d.before.value + 1)) else after
  }

  function Locally(d: Deck, op: Op, newIndex: int): Deck
    requires Editable(op, |d.slides|)
  {
    IndexApplied(Collected(d.(index := newIndex, squelch := true,
                              children := LocalEdit(op, d.slides, d.children))))
  }

  /** A settled deck: nothing in flight, the view up to date, the index in range and in the location. */
  ghost predicate Settled(d: Deck)
  {
    && d.slides == d.children && Distinct(d.slides)
    && (d.slides == [] ==> d.index == 0)
    && (d.slides != [] ==> 0 <= d.index < |d.slides| && d.hash == Some(d.index + 1))
    && !d.locked && d.before.None? && !d.squelch
    && (forall s :: s in d.selected ==> s in d.slides)
  }

  // ---------------------------------------------------------------- what survives a deletion

  lemma {:induction false} KeptAt(slides: seq<Slide>, del: set<int>, k: nat)
    requires k < |slides| && k !in del
    ensures k - Below(del, k) < |Keep(slides, del)| && Keep(slides, del)[k - Below(del, k)] == slides[k]
  {
    var n := |slides| - 1;
    KeptLength(slides[..n], del);
    if k < n {
      KeptAt(slides[..n], del, k);
    }
  }

  lemma {:induction false} KeptLength(slides: seq<Slide>, del: set<int>)
    ensures |Keep(slides, del)| == |slides| - Below(del, |slides|)
  {
    if slides != [] {
      KeptLength(slides[..|slides| - 1], del);
    }
  }

  /** Keeping by position is dropping by element, because no slide occurs twice. */
  lemma {:induction false} WithoutIsKeep(slides: seq<Slide>, gone: set<Slide>, del: set<int>)
    requires forall i :: 0 <= i < |slides| ==> (slides[i] in gone <==> i in del)
    ensures Without(slides, gone) == Keep(slides, del)
  {
    if slides != [] {
      WithoutIsKeep(slides[..|slides| - 1], gone, del);
    }
  }

  lemma {:induction false} KeepOne(slides: seq<Slide>, at: nat)
    requires at < |slides|
    ensures Keep(slides, {at}) == slides[..at] + slides[at + 1..]
  {
    var n := |slides| - 1;
    if at < n {
      KeepOne(slides[..n], at);
      assert slides[..n][..at] + slides[..n][at + 1..] + [slides[n]] == slides[..at] + slides[at + 1..];
    } else {
      KeepAll(slides[..n], {at});
      assert slides[..at] + slides[at + 1..] == slides[..n];
    }
  }

  lemma {:induction false} KeepAll(slides: seq<Slide>, del: set<int>)
    requires forall i :: 0 <= i < |slides| ==> i !in del
    ensures Keep(slides, del) == slides
  {
    if slides != [] {
      KeepAll(slides[..|slides| - 1], del);
    }
  }

  lemma {:induction false} KeepSelects(slides: seq<Slide>, del: set<int>)
    ensures forall s :: s in Keep(slides, del) ==> s in slides
    ensures Distinct(slides) ==> Distinct(Keep(slides, del))
  {
    if slides != [] {
      var n := |slides| - 1;
      KeepSelects(slides[..n], del);
      if Distinct(slides) {
        assert slides[n] !in slides[..n];
      }
    }
  }

  lemma {:induction false} AscendingCounts(del: set<int>, n: nat)
    ensures |Ascending(del, n)| == Below(del, n)
    ensures forall i :: 0 <= i < n && i in del ==> i in Ascending(del, n)
  {
    if n > 0 {
      AscendingCounts(del, n - 1);
    }
  }

  /** The chosen positions, as a set, are the valid ones. */
  lemma AscendingIsValid(slides: seq<Slide>, list: seq<int>)
    ensures PositionSet(Ascending(Valid(slides, list), |slides|)) == Valid(slides, list)
  {
    AscendingCounts(Valid(slides, list), |slides|);
  }

  lemma {:induction false} BelowGrows(del: set<int>, i: nat, j: nat)
    requires i <= j
    ensures Below(del, i) <= Below(del, j) && Below(del, j) - Below(del, i) <= j - i
    ensures i < j && i in del ==> Below(del, i) < Below(del, j)
    decreases j
  {
    if i < j {
      BelowGrows(del, i, j - 1);
    }
  }

  // ---------------------------------------------------------------- the nearest survivor

  lemma {:induction false} SurvivorFromIs(del: set<int>, n: nat, j: nat)
    ensures match SurvivorFrom(del, n, j)
            case None => forall k: int :: j <= k < n ==> k in del
            case Some(s) => j <= s < n && s !in del && forall k: int :: j <= k < s ==> k in del
    decreases n - j
  {
    if j < n && j in del {
      SurvivorFromIs(del, n, j + 1);
    }
  }

  lemma {:induction false} SurvivorBelowIs(del: set<int>, j: nat)
    ensures match SurvivorBelow(del, j)
            case None => forall k: int :: 0 <= k < j ==> k in del
            case Some(s) => s < j && s !in del && forall k: int :: s < k < j ==> k in del
  {
    if j > 0 && j - 1 in del {
      SurvivorBelowIs(del, j - 1);
    }
  }

  /** `s` is the slide that takes over from `cur`: nothing survives between them, and behind goes first. */
  predicate TakesOver(del: set<int>, n: nat, cur: nat, s: nat)
  {
    && s < n && s !in del
    && (cur !in del ==> s == cur)
    && (cur in del && s > cur ==> forall k: int :: cur < k < s ==> k in del)
    && (cur in del && s < cur ==>
          (forall k: int :: cur < k < n ==> k in del) && (forall k: int :: s < k < cur ==> k in del))
  }

  lemma SurvivorTakesOver(del: set<int>, n: nat, cur: nat)
    requires cur < n && exists k: int :: 0 <= k < n && k !in del
    ensures Survivor(del, n, cur).Some? && TakesOver(del, n, cur, Survivor(del, n, cur).value)
  {
    SurvivorFromIs(del, n, cur + 1);
    SurvivorBelowIs(del, cur);
  }

  lemma {:induction false} SomeSurvives(del: set<int>, n: nat)
    requires Below(del, n) < n
    ensures exists k: int :: 0 <= k < n && k !in del
  {
    if n - 1 in del {
      SomeSurvives(del, n - 1);
    } else {
      var k := n - 1;
      assert k !in del;
    }
  }

  /** The single delete computes the index the bulk rule gives for one position. */
  lemma SingleAgreesWithBulk(n: nat, cur: nat, i: nat)
    requires cur < n && i < n && n > 1
    ensures NextIndex({i}, n, cur) == if i < cur || (i == cur && i == n - 1) then cur - 1 else cur
  {
    BelowOne(i, cur);
    if cur == i {
      if i + 1 < n {
        assert SurvivorFrom({i}, n, i + 1) == Some(i + 1);
        BelowOne(i, i + 1);
      } else {
        assert SurvivorBelow({i}, i) == Some(i - 1);
        BelowOne(i, i - 1);
      }
    }
  }

  lemma {:induction false} BelowOne(i: nat, n: nat)
    ensures Below({i}, n) == if i < n then 1 else 0
  {
    if n > 0 {
      BelowOne(i, n - 1);
    }
  }

  lemma AscendingOne(slides: seq<Slide>, list: seq<int>)
    requires |Ascending(Valid(slides, list), |slides|)| == 1
    ensures Valid(slides, list) == {Ascending(Valid(slides, list), |slides|)[0]}
  {
    AscendingIsValid(slides, list);
    var p := Ascending(Valid(slides, list), |slides|);
    assert p == [p[0]];
  }

  // ---------------------------------------------------------------- element edits are position edits

  lemma {:induction false} WithoutAbsent(children: seq<Slide>, el: Slide)
    requires el !in children
    ensures Without(children, {el}) == children
  {
    if children != [] {
      WithoutAbsent(children[..|children| - 1], el);
    }
  }

  lemma RemoveIsLocal(slides: seq<Slide>, at: nat)
    requires Distinct(slides) && at < |slides|
    ensures Without(slides, {slides[at]}) == slides[..at] + slides[at + 1..]
  {
    WithoutIsKeep(slides, {slides[at]}, {at});
    KeepOne(slides, at);
  }

  lemma RemoveManyIsLocal(slides: seq<Slide>, positions: seq<nat>)
    requires Distinct(slides) && forall i :: 0 <= i < |positions| ==> positions[i] < |slides|
    ensures Without(slides, Elements(slides, positions)) == Keep(slides, PositionSet(positions))
  {
    forall i | 0 <= i < |slides| ensures slides[i] in Elements(slides, positions) <==> i in PositionSet(positions) {
      if slides[i] in Elements(slides, positions) {
        var k :| 0 <= k < |positions| && slides[positions[k]] == slides[i];
        assert positions[k] == i && positions[k] in positions;
      }
      if i in PositionSet(positions) {
        var k :| 0 <= k < |positions| && positions[k] == i;
        assert slides[positions[k]] in Elements(slides, positions);
      }
    }
    WithoutIsKeep(slides, Elements(slides, positions), PositionSet(positions));
  }

  lemma DuplicateIsLocal(slides: seq<Slide>, at: nat, copy: Slide)
    requires Distinct(slides) && at < |slides| && copy !in slides
    ensures InsertBefore(slides, copy, NextSibling(slides, slides[at])) == slides[..at + 1] + [copy] + slides[at + 1..]
  {
    WithoutAbsent(slides, copy);
  }

  /** The slides but the one at `at`, found by element or by position. */
  lemma OthersAre(slides: seq<Slide>, at: nat, others: seq<Slide>)
    requires Distinct(slides) && at < |slides| && others == slides[..at] + slides[at + 1..]
    ensures Without(slides, {slides[at]}) == others && Distinct(others)
  {
    RemoveIsLocal(slides, at);
    KeepOne(slides, at);
    KeepSelects(slides, {at});
  }

  lemma InsertAt(slides: seq<Slide>, el: Slide, others: seq<Slide>, to: nat, ref: Option<Slide>)
    requires Without(slides, {el}) == others && Distinct(others) && to <= |others|
    requires ref == if to < |others| then Some(others[to]) else None
    ensures InsertBefore(slides, el, ref) == others[..to] + [el] + others[to..]
  {
  }

  lemma MoveReference(slides: seq<Slide>, at: nat, to: nat, others: seq<Slide>)
    requires Distinct(slides) && at < |slides| && to < |slides| && at != to
    requires others == slides[..at] + slides[at + 1..]
    ensures (if to < at then Some(slides[to]) else NextSibling(slides, slides[to]))
            == if to < |others| then Some(others[to]) else None
  {
  }

  lemma MoveIsLocal(slides: seq<Slide>, at: nat, to: nat)
    requires Distinct(slides) && at < |slides| && to < |slides| && at != to
    ensures InsertBefore(slides, slides[at], if to < at then Some(slides[to]) else NextSibling(slides, slides[to]))
            == HostEdit(MoveOp(at, to), slides)
  {
    var others := slides[..at] + slides[at + 1..];
    OthersAre(slides, at, others);
    MoveReference(slides, at, to, others);
    InsertAt(slides, slides[at], others, to, if to < |others| then Some(others[to]) else None);
  }

  /** Whatever the op, the deck's own edit and the host's edit leave the same slides. */
  lemma LocalIsHost(op: Op, slides: seq<Slide>)
    requires Distinct(slides) && Editable(op, |slides|)
    requires op.DuplicateOp? ==> op.copy !in slides
    ensures LocalEdit(op, slides, slides) == HostEdit(op, slides)
  {
    match op
    case RemoveOp(at) => RemoveIsLocal(slides, at);
    case RemoveManyOp(positions) => RemoveManyIsLocal(slides, positions);
    case DuplicateOp(at, copy) => DuplicateIsLocal(slides, at, copy);
    case MoveOp(at, to) => MoveIsLocal(slides, at, to);
  }

  // ---------------------------------------------------------------- plans

  /** A duplicate is a new element. */
  predicate CopyIsNew(d: Deck, g: Gesture)
  {
    g.Duplicate? ==> g.copy !in d.children
  }

  /** What a plan promises: the op fits, the new index points at the slide that should be current. */
  ghost predicate Lands(slides: seq<Slide>, cur: nat, op: Op, ni: int)
    requires Editable(op, |slides|)
  {
    var after := HostEdit(op, slides);
    && Position(after, ni)
    && match op
       case DuplicateOp(_, copy) => after[ni] == copy
       case MoveOp(_, _) => cur < |slides| && after[ni] == slides[cur]
       case RemoveOp(at) => Yields(slides, {at}, cur, after[ni])
       case RemoveManyOp(positions) => Yields(slides, PositionSet(positions), cur, after[ni])
  }

  /** `current` is the slide that takes over from `cur` when the positions of `del` go. */
  ghost predicate Yields(slides: seq<Slide>, del: set<int>, cur: nat, current: Slide)
  {
    exists s: nat :: TakesOver(del, |slides|, cur, s) && current == slides[s]
  }

  lemma DeletionLands(slides: seq<Slide>, del: set<int>, cur: nat)
    requires cur < |slides| && Below(del, |slides|) < |slides|
    ensures Position(Keep(slides, del), NextIndex(del, |slides|, cur))
    ensures Yields(slides, del, cur, Keep(slides, del)[NextIndex(del, |slides|, cur)])
  {
    SomeSurvives(del, |slides|);
    SurvivorTakesOver(del, |slides|, cur);
    var s := Survivor(del, |slides|, cur).value;
    KeptAt(slides, del, s);
    assert TakesOver(del, |slides|, cur, s);
  }

  lemma RemoveLands(d: Deck, i: nat)
    requires Settled(d) && PlanDelete(d, i).Some?
    ensures var (op, ni) := PlanDelete(d, i).value;
            op == RemoveOp(i) && Lands(d.slides, d.index, op, ni)
  {
    var n := |d.slides|;
    SingleAgreesWithBulk(n, d.index, i);
    BelowOne(i, n);
    DeletionLands(d.slides, {i}, d.index);
    KeepOne(d.slides, i);
  }

  lemma RemoveManyLands(d: Deck, list: seq<int>)
    requires Settled(d) && Plan(d, DeleteAll(list)).Some?
    ensures var (op, ni) := Plan(d, DeleteAll(list)).value;
            Lands(d.slides, d.index, op, ni)
  {
    var del := Valid(d.slides, list);
    var positions := Ascending(del, |d.slides|);
    AscendingIsValid(d.slides, list);
    AscendingCounts(del, |d.slides|);
    if |positions| == 1 {
      RemoveLands(d, positions[0]);
    } else {
      DeletionLands(d.slides, del, d.index);
    }
  }

  /**
   * Every gesture that does something lands: a surviving current slide stays current after a delete or a
   * move, a deleted one yields to the nearest survivor behind it and otherwise before it, a duplicate
   * becomes current.
   */
  lemma EveryPlanLands(d: Deck, g: Gesture)
    requires Settled(d) && Plan(d, g).Some?
    ensures var (op, ni) := Plan(d, g).value;
            Lands(d.slides, d.index, op, ni)
  {
    match g
    case DeleteAll(list) => RemoveManyLands(d, list);
    case Delete(i) => RemoveLands(d, i);
    case Duplicate(i, copy) =>
    case MoveTo(i, j) => MoveLands(d.slides, d.index, i, j);
  }

  lemma MoveLands(slides: seq<Slide>, cur: nat, i: nat, j: nat)
    requires cur < |slides| && i < |slides| && j < |slides| && i != j
    ensures Lands(slides, cur, MoveOp(i, j), IndexAfterMove(cur, i, j))
  {
    var others := slides[..i] + slides[i + 1..];
    var after, ni := others[..j] + [slides[i]] + others[j..], IndexAfterMove(cur, i, j);
    assert after == HostEdit(MoveOp(i, j), slides);
    if cur != i {
      var k := if cur < i then cur else cur - 1;
      assert others[k] == slides[cur];
      assert after[ni] == others[k];
    }
  }

  /** What a gesture asks of the slides, said of the slides before and after. */
  ghost predicate Edits(slides: seq<Slide>, g: Gesture, after: seq<Slide>)
  {
    match g
    case DeleteAll(list) => after == Keep(slides, Valid(slides, list))
    case Delete(i) => after == Keep(slides, {i})
    case Duplicate(i, copy) =>
      0 <= i < |slides| && |after| == |slides| + 1 && after[i + 1] == copy
      && after[..i + 1] == slides[..i + 1] && after[i + 2..] == slides[i + 1..]
    case MoveTo(i, j) =>
      0 <= i < |slides| && |after| == |slides| && 0 <= j < |after| && after[j] == slides[i]
      && after[..j] + after[j + 1..] == slides[..i] + slides[i + 1..]
  }

  lemma DeleteAllEdits(d: Deck, list: seq<int>)
    requires Settled(d) && Plan(d, DeleteAll(list)).Some?
    ensures HostEdit(Plan(d, DeleteAll(list)).value.0, d.slides) == Keep(d.slides, Valid(d.slides, list))
  {
    var positions := Ascending(Valid(d.slides, list), |d.slides|);
    AscendingIsValid(d.slides, list);
    if |positions| == 1 {
      AscendingOne(d.slides, list);
      KeepOne(d.slides, positions[0]);
    }
  }

  lemma MoveEdits(slides: seq<Slide>, i: nat, j: nat)
    requires i < |slides| && j < |slides| && i != j
    ensures Edits(slides, MoveTo(i, j), HostEdit(MoveOp(i, j), slides))
  {
    var others := slides[..i] + slides[i + 1..];
    var after := others[..j] + [slides[i]] + others[j..];
    assert after[..j] == others[..j] && after[j + 1..] == others[j..];
    assert others[..j] + others[j..] == others;
  }

  lemma DuplicateEdits(slides: seq<Slide>, i: nat, copy: Slide)
    requires i < |slides|
    ensures Edits(slides, Duplicate(i, copy), HostEdit(DuplicateOp(i, copy), slides))
  {
  }

  /** The planned op does to the slides exactly what its gesture asks for. */
  lemma EveryPlanEdits(d: Deck, g: Gesture)
    requires Settled(d) && Plan(d, g).Some?
    ensures Edits(d.slides, g, HostEdit(Plan(d, g).value.0, d.slides))
  {
    match g
    case DeleteAll(list) => DeleteAllEdits(d, list);
    case Delete(i) => KeepOne(d.slides, i);
    case Duplicate(i, copy) => DuplicateEdits(d.slides, i, copy);
    case MoveTo(i, j) => MoveEdits(d.slides, i, j);
  }

  /** A gesture does nothing exactly when it addresses no slide, would empty the deck, or moves nowhere. */
  lemma PlanIsNoneIff(d: Deck, g: Gesture)
    requires Settled(d)
    ensures Plan(d, g).None? <==>
            match g
            case DeleteAll(list) =>
              (forall i :: Position(d.slides, i) ==> i !in list) || (forall i :: Position(d.slides, i) ==> i in list)
            case Delete(i) => !Position(d.slides, i) || |d.slides| == 1
            case Duplicate(i, _) => !Position(d.slides, i)
            case MoveTo(i, j) => !Position(d.slides, i) || !Position(d.slides, j) || i == j
  {
    if g.DeleteAll? {
      NothingOrAll(d.slides, g.list);
    }
  }

  lemma NothingOrAll(slides: seq<Slide>, list: seq<int>)
    ensures var positions := Ascending(Valid(slides, list), |slides|);
            && (positions == [] <==> forall i :: Position(slides, i) ==> i !in list)
            && (|positions| >= |slides| <==> forall i :: Position(slides, i) ==> i in list)
  {
    var del, n := Valid(slides, list), |slides|;
    AscendingCounts(del, n);
    var positions := Ascending(del, n);
    if positions == [] {
      forall i | Position(slides, i) ensures i !in list {
        assert i in del ==> i in positions;
      }
    } else {
      var p: int := positions[0];
      assert Position(slides, p) && p in list;
    }
    if |Ascending(del, n)| < n {
      SomeSurvives(del, n);
      var k: int :| 0 <= k < n && k !in del;
      assert Position(slides, k) && k !in list;
    } else {
      AllBelow(del, n);
      forall i | Position(slides, i) ensures i in list {
        assert i in del;
      }
    }
  }

  lemma {:induction false} AllBelow(del: set<int>, n: nat)
    requires Below(del, n) >= n
    ensures forall k: int :: 0 <= k < n ==> k in del
  {
    if n > 0 {
      AllBelow(del, n - 1);
    }
  }
}
