/** Keys for the children of a deck: stable for slides, distinct for all. */
module DeckKeys {
  import opened Common

  datatype Tag = Aux | ControlFlow | Ordinary

  /** A child that renders: text, an element with its slide id, or something else, such as a comment. */
  datatype Child = Text(blank: bool) | Element(tag: Tag, id: Option<string>) | Remark

  predicate IsHex(c: char)
  {
    '0' <= c <= '9' || 'a' <= c <= 'f'
  }

  predicate IsSlideId(s: string)
  {
    |s| == 8 && forall i :: 0 <= i < 8 ==> IsHex(s[i])
  }

  /** Eight lower-case hexadecimal digits. */
  lemma SlideIdIff(s: string)
    ensures IsSlideId(s) <==> |s| == 8 && forall c :: c in s ==> c in "0123456789abcdef"
  {
    forall c: char ensures IsHex(c) <==> c in "0123456789abcdef" {
      HexDigits(c);
    }
    if |s| == 8 && forall c :: c in s ==> c in "0123456789abcdef" {
      forall i | 0 <= i < 8 ensures IsHex(s[i]) {
        assert s[i] in s;
      }
    }
  }

  lemma HexDigits(c: char)
    ensures IsHex(c) <==> c in "0123456789abcdef"
  {
    var digits := "0123456789abcdef";
    if '0' <= c <= '9' {
      assert digits[c as int - '0' as int] == c;
    } else if 'a' <= c <= 'f' {
      assert digits[c as int - 'a' as int + 10] == c;
    }
  }

  predicate IsSlide(c: Child)
  {
    c.Element? && c.tag == Ordinary
  }

  /** The id of the slide that is the next element from `j` on; none before anything else. */
  function Upcoming(children: seq<Child>, j: nat): Option<string>
    requires j <= |children|
    decreases |children| - j
  {
    if j == |children| then None
    else if children[j].Element? then (if IsSlide(children[j]) then children[j].id else None)
    else Upcoming(children, j + 1)
  }

  function Base(children: seq<Child>, j: nat): string
    requires j <= |children|
  {
    BaseFor(Upcoming(children, j))
  }

  function BaseFor(id: Option<string>): string
  {
    if id.Some? && id.value != "" then "omid-ws:" + id.value else "omid-ws:aux"
  }

  predicate IsBlank(c: Child)
  {
    c.Text? && c.blank
  }

  /** How many blank texts before `j` share a base. */
  function Repeats(children: seq<Child>, j: nat, base: string): nat
    requires j <= |children|
  {
    if j == 0 then 0
    else Repeats(children, j - 1, base) + if IsBlank(children[j - 1]) && Base(children, j - 1) == base then 1 else 0
  }

  function BlankKey(base: string, n: nat): string
  {
    if n == 0 then base else base + ":" + Decimal(n)
  }

  function SlideKey(id: string): string
  {
    "omid:" + id
  }

  /** The key of a child; positions are written in decimal. */
  function KeyAt(children: seq<Child>, j: nat): string
    requires j < |children|
  {
    var c := children[j];
    if IsBlank(c) then BlankKey(Base(children, j), Repeats(children, j, Base(children, j)))
    else if IsSlide(c) && c.id.Some? then SlideKey(c.id.value)
    else Decimal(j)
  }

  /** Every text is blank, no control flow, and every slide has a valid id of its own. */
  ghost predicate Keyable(children: seq<Child>)
  {
    && (forall j :: 0 <= j < |children| ==> ChildKeyable(children[j]))
    && (forall i, j :: 0 <= i < j < |children| && IsSlide(children[i]) && IsSlide(children[j]) ==>
                         children[i].id != children[j].id)
  }

  predicate ChildKeyable(c: Child)
  {
    match c
    case Text(blank) => blank
    case Remark => true
    case Element(tag, id) => tag == Aux || (tag == Ordinary && id.Some? && IsSlideId(id.value))
  }

  // ---------------------------------------------------------------- the loops

  method NextSlideIds(children: seq<Child>) returns (next: array<Option<string>>)
    ensures fresh(next) && next.Length == |children|
    ensures forall j :: 0 <= j < |children| ==> next[j] == Upcoming(children, j)
  {
    next := new Option<string>[|children|](_ => None);
    var upcoming: Option<string> := None;
    var j := |children|;
    while j > 0
      invariant 0 <= j <= |children| && upcoming == Upcoming(children, j)
      invariant forall k :: j <= k < |children| ==> next[k] == Upcoming(children, k)
    {
      j := j - 1;
      if children[j].Element? {
        upcoming := if IsSlide(children[j]) then children[j].id else None;
      }
      next[j] := upcoming;
    }
  }

  // What the loop knows of the first `j` children.

  ghost predicate KeysSoFar(children: seq<Child>, found: seq<string>, j: nat)
  {
    && |found| == j <= |children|
    && forall k :: 0 <= k < j ==> found[k] == KeyAt(children, k) && ChildKeyable(children[k])
  }

  ghost predicate SeenSoFar(children: seq<Child>, seen: set<string>, j: nat)
  {
    && j <= |children|
    && (forall v :: v in seen <==> exists k :: 0 <= k < j && IsSlide(children[k]) && children[k].id == Some(v))
    && (forall i, k :: 0 <= i < k < j && IsSlide(children[i]) && IsSlide(children[k]) ==>
                         children[i].id != children[k].id)
  }

  ghost predicate CountedSoFar(children: seq<Child>, wsSeen: map<string, nat>, j: nat)
  {
    j <= |children| && forall b :: (if b in wsSeen then wsSeen[b] else 0) == Repeats(children, j, b)
  }

  lemma KeyFound(children: seq<Child>, found: seq<string>, j: nat, key: string)
    requires KeysSoFar(children, found, j) && j < |children| && ChildKeyable(children[j]) && key == KeyAt(children, j)
    ensures KeysSoFar(children, found + [key], j + 1)
  {
  }

  lemma KeysComplete(children: seq<Child>, found: seq<string>, seen: set<string>)
    requires KeysSoFar(children, found, |children|) && SeenSoFar(children, seen, |children|)
    ensures Keyable(children)
    ensures |found| == |children| && forall j :: 0 <= j < |children| ==> found[j] == KeyAt(children, j)
  {
  }

  lemma SeesNoSlide(children: seq<Child>, seen: set<string>, j: nat)
    requires SeenSoFar(children, seen, j) && j < |children| && !IsSlide(children[j])
    ensures SeenSoFar(children, seen, j + 1)
  {
  }

  lemma SeesSlide(children: seq<Child>, seen: set<string>, j: nat, v: string)
    requires SeenSoFar(children, seen, j) && j < |children| && IsSlide(children[j]) && children[j].id == Some(v)
    ensures v in seen ==> !Keyable(children)
    ensures v !in seen ==> SeenSoFar(children, seen + {v}, j + 1)
  {
  }

  lemma CountsNoBlank(children: seq<Child>, wsSeen: map<string, nat>, j: nat)
    requires CountedSoFar(children, wsSeen, j) && j < |children| && !IsBlank(children[j])
    ensures CountedSoFar(children, wsSeen, j + 1)
  {
  }

  lemma CountsBlank(children: seq<Child>, wsSeen: map<string, nat>, j: nat, base: string, n: nat)
    requires CountedSoFar(children, wsSeen, j) && j < |children| && IsBlank(children[j]) && base == Base(children, j)
    requires n == if base in wsSeen then wsSeen[base] else 0
    ensures CountedSoFar(children, wsSeen[base := n + 1], j + 1) && BlankKey(base, n) == KeyAt(children, j)
  {
  }

  method WalkDeckChildren(children: seq<Child>) returns (keys: Option<seq<string>>)
    ensures keys.Some? <==> Keyable(children)
    ensures keys.Some? ==>
              |keys.value| == |children| && forall j :: 0 <= j < |children| ==> keys.value[j] == KeyAt(children, j)
  {
    var next := NextSlideIds(children);
    var seen: set<string>, wsSeen: map<string, nat>, found: seq<string> := {}, map[], [];
    var j := 0;
    while j < |children|
      invariant KeysSoFar(children, found, j) && SeenSoFar(children, seen, j) && CountedSoFar(children, wsSeen, j)
      invariant forall k :: 0 <= k < |children| ==> next[k] == Upcoming(children, k)
    {
      var c := children[j];
      match c {
        case Text(blank) =>
          if !blank {
            assert !ChildKeyable(children[j]);
            return None;
          }
          var base := BaseFor(next[j]);
          var n := if base in wsSeen then wsSeen[base] else 0;
          CountsBlank(children, wsSeen, j, base, n);
          wsSeen := wsSeen[base := n + 1];
          KeyFound(children, found, j, BlankKey(base, n));
          found := found + [BlankKey(base, n)];
          SeesNoSlide(children, seen, j);
        case Remark =>
          KeyFound(children, found, j, Decimal(j));
          found := found + [Decimal(j)];
          SeesNoSlide(children, seen, j);
          CountsNoBlank(children, wsSeen, j);
        case Element(tag, id) =>
          CountsNoBlank(children, wsSeen, j);
          if tag == Aux {
            KeyFound(children, found, j, Decimal(j));
            found := found + [Decimal(j)];
            SeesNoSlide(children, seen, j);
          } else {
            if tag == ControlFlow || id.None? || !IsSlideId(id.value) {
              assert !ChildKeyable(children[j]);
              return None;
            }
            SeesSlide(children, seen, j, id.value);
            if id.value in seen {
              return None;
            }
            seen := seen + {id.value};
            KeyFound(children, found, j, SlideKey(id.value));
            found := found + [SlideKey(id.value)];
          }
      }
      j := j + 1;
    }
    KeysComplete(children, found, seen);
    keys := Some(found);
  }

  // ---------------------------------------------------------------- keys are distinct

  predicate Colonless(s: string)
  {
    forall i :: 0 <= i < |s| ==> s[i] != ':'
  }

  /** What follows the prefix of a blank text's key: an id or the word for none, and possibly a count. */
  function Tail(b: string, n: nat): string
  {
    if n == 0 then b else b + ":" + Decimal(n)
  }

  function ColonAt(s: string): nat
  {
    if s == [] || s[0] == ':' then 0 else 1 + ColonAt(s[1..])
  }

  lemma {:induction false} ColonBehind(b: string, rest: string)
    requires Colonless(b) && (rest == [] || rest[0] == ':')
    ensures ColonAt(b + rest) == |b|
    decreases |b|
  {
    if b == [] {
      assert b + rest == rest;
    } else {
      assert (b + rest)[1..] == b[1..] + rest;
      ColonBehind(b[1..], rest);
    }
  }

  lemma TailsDiffer(b1: string, n1: nat, b2: string, n2: nat)
    requires Colonless(b1) && Colonless(b2) && Tail(b1, n1) == Tail(b2, n2)
    ensures b1 == b2 && n1 == n2
  {
    var t := Tail(b1, n1);
    ColonBehind(b1, t[|b1|..]);
    ColonBehind(b2, t[|b2|..]);
    assert t == b1 + t[|b1|..] && t == b2 + t[|b2|..];
    if n1 > 0 && n2 > 0 {
      assert t[|b1| + 1..] == Decimal(n1) && t[|b2| + 1..] == Decimal(n2);
      DecimalInjective(n1, n2);
    }
  }

  lemma {:induction false} UpcomingIsSlide(children: seq<Child>, j: nat)
    requires Keyable(children) && j <= |children|
    ensures match Upcoming(children, j) case None => true case Some(id) => IsSlideId(id)
    decreases |children| - j
  {
    if j < |children| {
      assert ChildKeyable(children[j]);
      if !children[j].Element? {
        UpcomingIsSlide(children, j + 1);
      }
    }
  }

  /** The part of a base behind its prefix. */
  function BaseName(children: seq<Child>, j: nat): string
    requires j <= |children|
  {
    match Upcoming(children, j) case None => "aux" case Some(id) => if id == "" then "aux" else id
  }

  lemma BlankKeyIs(children: seq<Child>, j: nat, n: nat)
    requires Keyable(children) && j <= |children|
    ensures BlankKey(Base(children, j), n) == "omid-ws:" + Tail(BaseName(children, j), n)
    ensures Colonless(BaseName(children, j))
    ensures Base(children, j) == "omid-ws:" + BaseName(children, j)
  {
    UpcomingIsSlide(children, j);
    assert "omid-ws:aux" == "omid-ws:" + "aux";
    assert Colonless("aux");
    var b := BaseName(children, j);
    assert ("omid-ws:" + b) + ":" + Decimal(n) == "omid-ws:" + (b + ":" + Decimal(n));
  }

  lemma {:induction false} RepeatsGrow(children: seq<Child>, i: nat, j: nat, base: string)
    requires i < j <= |children| && IsBlank(children[i]) && Base(children, i) == base
    ensures Repeats(children, i, base) < Repeats(children, j, base)
    decreases j
  {
    if i < j - 1 {
      RepeatsGrow(children, i, j - 1, base);
    }
  }

  lemma BlanksDiffer(children: seq<Child>, i: nat, j: nat)
    requires Keyable(children) && i < j < |children| && IsBlank(children[i]) && IsBlank(children[j])
    ensures KeyAt(children, i) != KeyAt(children, j)
  {
    var m, n := Repeats(children, i, Base(children, i)), Repeats(children, j, Base(children, j));
    BlankKeyIs(children, i, m);
    BlankKeyIs(children, j, n);
    var p, x, y := "omid-ws:", Tail(BaseName(children, i), m), Tail(BaseName(children, j), n);
    if p + x == p + y {
      assert x == (p + x)[8..] && y == (p + y)[8..];
      TailsDiffer(BaseName(children, i), m, BaseName(children, j), n);
      RepeatsGrow(children, i, j, Base(children, i));
      assert false;
    }
  }

  /** How the three kinds of keys begin. */
  lemma KeyStarts(children: seq<Child>, j: nat)
    requires Keyable(children) && j < |children|
    ensures var k := KeyAt(children, j);
            if IsBlank(children[j]) then |k| > 4 && k[0] == 'o' && k[4] == '-'
            else if IsSlide(children[j]) then |k| > 4 && k[0] == 'o' && k[4] == ':'
            else k != [] && IsDigit(k[0])
  {
    assert ChildKeyable(children[j]);
    if IsBlank(children[j]) {
      BlankKeyIs(children, j, Repeats(children, j, Base(children, j)));
    } else if !IsSlide(children[j]) {
      DecimalDigits(j);
    }
  }

  /** Whenever keys are handed out, no two children share one. */
  lemma KeysAreDistinct(children: seq<Child>, i: nat, j: nat)
    requires Keyable(children) && i < j < |children|
    ensures KeyAt(children, i) != KeyAt(children, j)
  {
    KeyStarts(children, i);
    KeyStarts(children, j);
    assert ChildKeyable(children[i]) && ChildKeyable(children[j]);
    if IsBlank(children[i]) && IsBlank(children[j]) {
      BlanksDiffer(children, i, j);
    } else if IsSlide(children[i]) && IsSlide(children[j]) {
      assert KeyAt(children, i)[5..] == children[i].id.value && KeyAt(children, j)[5..] == children[j].id.value;
    } else if !IsBlank(children[i]) && !IsSlide(children[i]) && !IsBlank(children[j]) && !IsSlide(children[j]) {
      if Decimal(i) == Decimal(j) {
        DecimalInjective(i, j);
      }
    }
  }

  // ---------------------------------------------------------------- reordering

  function SlideIds(children: seq<Child>): seq<string>
  {
    if children == [] then []
    else
      var last := children[|children| - 1];
      SlideIds(children[..|children| - 1]) + if IsSlide(last) && last.id.Some? then [last.id.value] else []
  }

  /** The keys of the slides among the first `n` children, in order. */
  function SlideKeys(children: seq<Child>, n: nat): seq<string>
    requires n <= |children|
  {
    if n == 0 then []
    else
      var last := children[n - 1];
      SlideKeys(children, n - 1) + if IsSlide(last) && last.id.Some? then [KeyAt(children, n - 1)] else []
  }

  function KeysOf(ids: seq<string>): seq<string>
  {
    if ids == [] then [] else KeysOf(ids[..|ids| - 1]) + [SlideKey(ids[|ids| - 1])]
  }

  lemma {:induction false} SlideKeysFollowIds(children: seq<Child>, n: nat)
    requires n <= |children|
    ensures SlideKeys(children, n) == KeysOf(SlideIds(children[..n]))
  {
    if n > 0 {
      SlideKeysFollowIds(children, n - 1);
      assert children[..n][..n - 1] == children[..n - 1];
      var last := children[n - 1];
      var ids := SlideIds(children[..n - 1]);
      if IsSlide(last) && last.id.Some? {
        assert SlideIds(children[..n]) == ids + [last.id.value];
        assert (ids + [last.id.value])[..|ids|] == ids;
      } else {
        assert SlideIds(children[..n]) == ids;
      }
    }
  }

  function CountedKeys(ids: multiset<string>, key: string): nat
  {
    if |key| >= 5 && key[..5] == "omid:" then ids[key[5..]] else 0
  }

  lemma {:induction false} KeysCount(ids: seq<string>, key: string)
    ensures multiset(KeysOf(ids))[key] == CountedKeys(multiset(ids), key)
    decreases |ids|
  {
    if ids != [] {
      var n := |ids| - 1;
      KeysCount(ids[..n], key);
      assert ids == ids[..n] + [ids[n]];
      var k := SlideKey(ids[n]);
      assert k[..5] == "omid:" && k[5..] == ids[n];
      if |key| >= 5 && key[..5] == "omid:" {
        assert key == "omid:" + key[5..];
      }
    }
  }

  /** Slides keep their keys when they are reordered, whatever else stands between them. */
  lemma ReorderingPermutesKeys(a: seq<Child>, b: seq<Child>)
    requires multiset(SlideIds(a)) == multiset(SlideIds(b))
    ensures multiset(SlideKeys(a, |a|)) == multiset(SlideKeys(b, |b|))
  {
    SlideKeysFollowIds(a, |a|);
    SlideKeysFollowIds(b, |b|);
    assert a[..|a|] == a && b[..|b|] == b;
    forall key ensures multiset(KeysOf(SlideIds(a)))[key] == multiset(KeysOf(SlideIds(b)))[key] {
      KeysCount(SlideIds(a), key);
      KeysCount(SlideIds(b), key);
    }
  }
}
