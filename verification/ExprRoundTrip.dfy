/** Evaluating the canonical text of an expression tree yields what the tree denotes. */
module ExprRoundTrip {
  import opened Common
  import opened JsText
  import opened ExprResolver

  // ---------------------------------------------------------------- trees

  datatype Expr =
    | Word(text: string)                     // true, false, null, undefined
    | Number(text: string)
    | Quote(mark: char, text: string)
    | Path(head: string, steps: Steps)
    | Not(inner: Expr)
    | Equal(op: Operator, left: Expr, right: Expr)

  datatype Steps = End | Name(name: string, rest: Steps) | Index(key: Expr, rest: Steps)

  predicate IsWord(s: string)
  {
    s == "true" || s == "false" || s == "null" || s == "undefined"
  }

  predicate IsIdent(s: string)
  {
    s != [] && IdentLength(s) == |s|
  }

  predicate IsDigits(s: string)
  {
    s != [] && DigitsLength(s) == |s|
  }

  /** No bracket and no character an operator is made of. */
  predicate Inert(s: string)
  {
    forall i :: 0 <= i < |s| ==> !IsBracket(s[i]) && s[i] != '=' && s[i] != '!'
  }

  predicate Canonical(e: Expr)
  {
    match e
    case Word(text) => IsWord(text)
    case Number(text) => IsNumber(text)
    case Quote(mark, text) => IsQuote(mark) && Inert(text)
    case Path(head, steps) => IsIdent(head) && CanonicalSteps(steps) && (steps.End? ==> !IsWord(head))
    case Not(inner) => Canonical(inner)
    case Equal(_, left, right) => Canonical(left) && Canonical(right)
  }

  predicate CanonicalSteps(steps: Steps)
  {
    match steps
    case End => true
    case Name(name, rest) => (IsIdent(name) || IsDigits(name)) && CanonicalSteps(rest)
    case Index(key, rest) => Canonical(key) && CanonicalSteps(rest)
  }

  // ---------------------------------------------------------------- text and meaning

  function Print(e: Expr): string
  {
    match e
    case Word(text) => text
    case Number(text) => text
    case Quote(mark, text) => [mark] + text + [mark]
    case Path(head, steps) => head + PrintSteps(steps)
    case Not(inner) => "!" + Print(inner)
    case Equal(op, left, right) => "(" + Print(left) + Infix(op) + Print(right) + ")"
  }

  function Infix(op: Operator): string
  {
    " " + OperatorText(op) + " "
  }

  function PrintSteps(steps: Steps): string
  {
    match steps
    case End => ""
    case Name(name, rest) => "." + name + PrintSteps(rest)
    case Index(key, rest) => "[" + Print(key) + "]" + PrintSteps(rest)
  }

  function WordValue(text: string): Value
  {
    if text == "true" then Bool(true)
    else if text == "false" then Bool(false)
    else if text == "null" then Null
    else Undefined
  }

  /** Undefined and null have no properties; everything else has what the host says. */
  function Member(host: Host, v: Value, key: Value): Value
  {
    match v
    case Undefined => Undefined
    case Null => Undefined
    case _ => host.property(v, key)
  }

  function Denote(host: Host, vals: Value, e: Expr): Value
    decreases e
  {
    match e
    case Word(text) => WordValue(text)
    case Number(text) => host.number(text)
    case Quote(_, text) => Text(text)
    case Path(head, steps) => Follow(host, vals, Member(host, vals, Text(head)), steps)
    case Not(inner) => Bool(!host.truthy(Denote(host, vals, inner)))
    case Equal(op, left, right) =>
      var l, r := Denote(host, vals, left), Denote(host, vals, right);
      match op
      case StrictEqual => if host.strictEqual(l, r) then Bool(true) else Bool(false)
      case StrictUnequal => if host.strictEqual(l, r) then Bool(false) else Bool(true)
      case LooseEqual => if host.looseEqual(l, r) then Bool(true) else Bool(false)
      case LooseUnequal => if host.looseEqual(l, r) then Bool(false) else Bool(true)
  }

  function Follow(host: Host, vals: Value, cur: Value, steps: Steps): Value
    decreases steps
  {
    match steps
    case End => cur
    case Name(name, rest) => Follow(host, vals, Member(host, cur, Text(name)), rest)
    case Index(key, rest) => Follow(host, vals, Member(host, cur, Denote(host, vals, key)), rest)
  }

  // ---------------------------------------------------------------- characters of the text

  lemma {:induction false} PartsAre(s: string)
    requires PartsLength(s) == |s|
    ensures forall i :: 0 <= i < |s| ==> IdentPart(s[i])
  {
    if s != [] {
      PartsAre(s[1..]);
      assert forall i :: 0 < i < |s| ==> s[i] == s[1..][i - 1];
    }
  }

  lemma IdentIsInert(s: string)
    requires IsIdent(s)
    ensures Inert(s) && Trimmed(s) && IdentStart(s[0])
  {
    PartsAre(s[1..]);
    assert forall i :: 0 < i < |s| ==> s[i] == s[1..][i - 1];
  }

  lemma {:induction false} DigitsAre(s: string)
    ensures forall i :: 0 <= i < DigitsLength(s) ==> IsDigit(s[i])
  {
    if s != [] && IsDigit(s[0]) {
      DigitsAre(s[1..]);
      assert forall i :: 0 < i < |s| ==> s[i] == s[1..][i - 1];
    }
  }

  lemma DigitsAreInert(s: string)
    requires IsDigits(s)
    ensures Inert(s) && Trimmed(s) && !IdentStart(s[0])
  {
    DigitsAre(s);
  }

  lemma UnsignedIsInert(s: string)
    requires IsUnsignedNumber(s)
    ensures Inert(s) && Trimmed(s) && IsDigit(s[0])
  {
    var n := DigitsLength(s);
    DigitsAre(s);
    if n < |s| {
      DigitsAre(s[n + 1..]);
      assert forall i :: n < i < |s| ==> s[i] == s[n + 1..][i - n - 1];
    }
  }

  lemma NumberIsInert(s: string)
    requires IsNumber(s)
    ensures Inert(s) && Trimmed(s) && (IsDigit(s[0]) || s[0] == '-')
  {
    if s[0] == '-' {
      UnsignedIsInert(s[1..]);
      assert forall i :: 0 < i < |s| ==> s[i] == s[1..][i - 1];
    } else {
      UnsignedIsInert(s);
    }
  }

  lemma WordIsIdent(s: string)
    requires IsWord(s)
    ensures Inert(s) && Trimmed(s) && IdentStart(s[0])
  {
    assert |"true"| == 4 && |"false"| == 5 && |"null"| == 4 && |"undefined"| == 9;
  }

  /** The text of a tree starts and ends with characters no operator can absorb. */
  lemma {:induction false} TextIsTrimmed(e: Expr)
    requires Canonical(e)
    ensures Trimmed(Print(e)) && Print(e)[0] != '='
    ensures Print(e)[0] == '(' <==> e.Equal?
    ensures Print(e)[0] == '!' <==> e.Not?
    decreases e
  {
    match e
    case Word(text) => WordIsIdent(text);
    case Number(text) => NumberIsInert(text);
    case Quote(mark, text) =>
    case Path(head, steps) =>
      IdentIsInert(head);
      StepsEnd(steps);
    case Not(inner) => TextIsTrimmed(inner);
    case Equal(_, left, right) =>
  }

  lemma {:induction false} StepsEnd(steps: Steps)
    requires CanonicalSteps(steps)
    ensures PrintSteps(steps) != [] ==>
              !IsSpace(PrintSteps(steps)[|PrintSteps(steps)| - 1]) && PrintSteps(steps)[0] in ['.', '[']
    decreases steps
  {
    match steps
    case End =>
    case Name(name, rest) =>
      if IsIdent(name) {
        IdentIsInert(name);
      } else {
        DigitsAreInert(name);
      }
      StepsEnd(rest);
    case Index(_, rest) => StepsEnd(rest);
  }

  // ---------------------------------------------------------------- scanning over the text

  /** The three scans of the evaluator: for an equality, over parentheses, over brackets. */
  datatype Scanner = Equalities | Parens | Brackets

  predicate Apart(rest: string)
  {
    rest == [] || rest[0] != '='
  }

  function Shift(n: Option<nat>, k: nat): Option<nat>
  {
    match n case None => None case Some(m) => Some(m + k)
  }

  /** Scanning over `x` at `depth` finds nothing and goes on behind it at `depth'`. */
  ghost predicate Passes(k: Scanner, x: string, depth: nat, depth': nat)
  {
    match k
    case Equalities =>
      forall left: string, rest: string {:trigger FindEquality(left, x + rest, depth)} ::
        Apart(rest) ==> FindEquality(left, x + rest, depth) == FindEquality(left + x, rest, depth')
    case Parens =>
      forall rest: string {:trigger StaysWrapped(x + rest, depth)} ::
        rest != [] ==> StaysWrapped(x + rest, depth) == StaysWrapped(rest, depth')
    case Brackets =>
      forall rest: string {:trigger BracketLength(x + rest, depth)} ::
        BracketLength(x + rest, depth) == Shift(BracketLength(rest, depth'), |x|)
  }

  /** How a character moves the depth of a scan. */
  function Turn(k: Scanner, c: char, depth: int): int
  {
    if (c == '(' && k != Brackets) || (c == '[' && k != Parens) then depth + 1
    else if (c == ')' && k != Brackets) || (c == ']' && k != Parens) then depth - 1
    else depth
  }

  lemma PassesConcat(k: Scanner, x: string, y: string, d: nat, d1: nat, d2: nat)
    requires Passes(k, x, d, d1) && Passes(k, y, d1, d2) && y != [] && y[0] != '='
    ensures Passes(k, x + y, d, d2)
  {
    forall rest: string ensures (x + y) + rest == x + (y + rest) {
    }
    forall left: string ensures (left + x) + y == left + (x + y) {
    }
    if k == Equalities {
      EqualitiesConcat(x, y, d, d1, d2);
    }
  }

  lemma EqualitiesConcat(x: string, y: string, d: nat, d1: nat, d2: nat)
    requires Passes(Equalities, x, d, d1) && Passes(Equalities, y, d1, d2) && y != [] && y[0] != '='
    ensures Passes(Equalities, x + y, d, d2)
  {
    forall left: string, rest: string | Apart(rest)
      ensures FindEquality(left, (x + y) + rest, d) == FindEquality(left + (x + y), rest, d2)
    {
      assert (x + y) + rest == x + (y + rest) && (left + x) + y == left + (x + y);
      assert Apart(y + rest);
      assert FindEquality(left + x, y + rest, d1) == FindEquality((left + x) + y, rest, d2);
    }
  }

  /** No bracket, and at depth 0 nothing an equality could start with. */
  predicate Quiet(k: Scanner, x: string, depth: nat)
  {
    forall i :: 0 <= i < |x| ==> !IsBracket(x[i]) && (k == Equalities && depth == 0 ==> x[i] != '=' && x[i] != '!')
  }

  lemma {:induction false} QuietScan(k: Scanner, left: string, x: string, rest: string, depth: nat)
    requires Quiet(k, x, depth)
    ensures k == Equalities ==> FindEquality(left, x + rest, depth) == FindEquality(left + x, rest, depth)
    ensures k == Parens && rest != [] ==> StaysWrapped(x + rest, depth) == StaysWrapped(rest, depth)
    ensures k == Brackets ==> BracketLength(x + rest, depth) == Shift(BracketLength(rest, depth), |x|)
    decreases |x|
  {
    if x == [] {
      assert x + rest == rest && left + x == left;
    } else {
      var s := x + rest;
      assert s[1..] == x[1..] + rest && s[0] == x[0];
      assert (left + [x[0]]) + x[1..] == left + x;
      QuietScan(k, left + [x[0]], x[1..], rest, depth);
    }
  }

  lemma QuietPasses(k: Scanner, x: string, depth: nat)
    requires Quiet(k, x, depth)
    ensures Passes(k, x, depth, depth)
  {
    match k
    case Equalities =>
      forall left: string, rest: string | Apart(rest)
        ensures FindEquality(left, x + rest, depth) == FindEquality(left + x, rest, depth)
      {
        QuietScan(k, left, x, rest, depth);
      }
    case Parens =>
      forall rest: string | rest != [] ensures StaysWrapped(x + rest, depth) == StaysWrapped(rest, depth) {
        QuietScan(k, [], x, rest, depth);
      }
    case Brackets =>
      forall rest: string ensures BracketLength(x + rest, depth) == Shift(BracketLength(rest, depth), |x|) {
        QuietScan(k, [], x, rest, depth);
      }
  }

  /** A single bracket or negation, unless it closes what the scan is looking for. */
  lemma CharPasses(k: Scanner, c: char, depth: nat)
    requires IsBracket(c) || c == '!'
    requires Turn(k, c, depth) >= 0 && (k != Equalities && Turn(k, c, depth) < depth ==> depth > 1)
    ensures Passes(k, [c], depth, Turn(k, c, depth))
  {
    var next := Turn(k, c, depth);
    forall rest: string ensures ([c] + rest)[1..] == rest {
    }
    if k == Equalities {
      forall left: string, rest: string | Apart(rest)
        ensures FindEquality(left, [c] + rest, depth) == FindEquality(left + [c], rest, next)
      {
        assert ([c] + rest)[1..] == rest;
      }
    }
  }

  lemma InfixIsBracketFree(op: Operator)
    ensures forall i :: 0 <= i < |Infix(op)| ==> !IsBracket(Infix(op)[i])
    ensures |Infix(op)| >= 4 && Infix(op)[0] == ' '
  {
    assert |OperatorText(op)| >= 2;
    assert forall i :: 0 <= i < |OperatorText(op)| ==> OperatorText(op)[i] in ['=', '!'];
    assert Infix(op)[|Infix(op)| - 1] == ' ';
    assert forall i :: 0 < i < |Infix(op)| - 1 ==> Infix(op)[i] == OperatorText(op)[i - 1];
  }

  /** The text of a canonical tree is passed over, inside whatever the scan has open. */
  lemma {:induction false} TextPasses(k: Scanner, e: Expr, depth: nat)
    requires Canonical(e) && (k == Equalities || depth >= 1)
    ensures Passes(k, Print(e), depth, depth)
    decreases e
  {
    TextIsTrimmed(e);
    match e
    case Word(text) =>
      WordIsIdent(text);
      QuietPasses(k, text, depth);
    case Number(text) =>
      NumberIsInert(text);
      QuietPasses(k, text, depth);
    case Quote(mark, text) => QuietPasses(k, [mark] + text + [mark], depth);
    case Path(head, steps) =>
      IdentIsInert(head);
      QuietPasses(k, head, depth);
      StepsPass(k, head, steps, depth);
    case Not(inner) =>
      TextIsTrimmed(inner);
      TextPasses(k, inner, depth);
      CharPasses(k, '!', depth);
      PassesConcat(k, "!", Print(inner), depth, depth, depth);
    case Equal(op, left, right) =>
      TextIsTrimmed(left);
      TextIsTrimmed(right);
      TextPasses(k, left, Turn(k, '(', depth));
      TextPasses(k, right, Turn(k, '(', depth));
      EqualPasses(k, Print(left), op, Print(right), depth);
  }

  lemma EqualPasses(k: Scanner, l: string, op: Operator, r: string, depth: nat)
    requires (k == Equalities || depth >= 1) && l != [] && l[0] != '=' && r != [] && r[0] != '='
    requires Passes(k, l, Turn(k, '(', depth), Turn(k, '(', depth))
    requires Passes(k, r, Turn(k, '(', depth), Turn(k, '(', depth))
    ensures Passes(k, "(" + l + Infix(op) + r + ")", depth, depth)
  {
    var inner := l + Infix(op) + r;
    InnerPasses(k, l, op, r, Turn(k, '(', depth));
    ParensPass(k, inner, depth);
    assert "(" + inner + ")" == "(" + l + Infix(op) + r + ")";
  }

  lemma InnerPasses(k: Scanner, l: string, op: Operator, r: string, depth: nat)
    requires Passes(k, l, depth, depth) && Passes(k, r, depth, depth) && depth >= 1
    requires l != [] && l[0] != '=' && r != [] && r[0] != '='
    ensures Passes(k, l + Infix(op) + r, depth, depth)
  {
    InfixIsBracketFree(op);
    QuietPasses(k, Infix(op), depth);
    PassesConcat(k, l, Infix(op), depth, depth, depth);
    PassesConcat(k, l + Infix(op), r, depth, depth, depth);
  }

  lemma ParensPass(k: Scanner, inner: string, depth: nat)
    requires (k == Equalities || depth >= 1) && inner != [] && inner[0] != '='
    requires Passes(k, inner, Turn(k, '(', depth), Turn(k, '(', depth))
    ensures Passes(k, "(" + inner + ")", depth, depth)
  {
    var deeper := Turn(k, '(', depth);
    CharPasses(k, '(', depth);
    PassesConcat(k, "(", inner, depth, deeper, deeper);
    CharPasses(k, ')', deeper);
    PassesConcat(k, "(" + inner, ")", depth, deeper, depth);
  }

  /** Passing over `before` and then over the steps. */
  lemma {:induction false} StepsPass(k: Scanner, before: string, steps: Steps, depth: nat)
    requires CanonicalSteps(steps) && (k == Equalities || depth >= 1) && Passes(k, before, depth, depth)
    ensures Passes(k, before + PrintSteps(steps), depth, depth)
    decreases steps
  {
    match steps
    case End => assert before + "" == before;
    case Name(name, rest) =>
      NamePasses(k, before, name, depth);
      StepsPass(k, before + ("." + name), rest, depth);
      assert before + ("." + name) + PrintSteps(rest) == before + PrintSteps(steps);
    case Index(key, rest) =>
      TextIsTrimmed(key);
      TextPasses(k, key, Turn(k, '[', depth));
      IndexPasses(k, before, Print(key), depth);
      StepsPass(k, before + "[" + Print(key) + "]", rest, depth);
      assert before + "[" + Print(key) + "]" + PrintSteps(rest) == before + PrintSteps(steps);
  }

  lemma NamePasses(k: Scanner, before: string, name: string, depth: nat)
    requires (IsIdent(name) || IsDigits(name)) && Passes(k, before, depth, depth)
    ensures Passes(k, before + ("." + name), depth, depth)
  {
    if IsIdent(name) {
      IdentIsInert(name);
    } else {
      DigitsAreInert(name);
    }
    QuietPasses(k, "." + name, depth);
    PassesConcat(k, before, "." + name, depth, depth, depth);
  }

  lemma IndexPasses(k: Scanner, before: string, key: string, depth: nat)
    requires (k == Equalities || depth >= 1) && Passes(k, before, depth, depth) && key != [] && key[0] != '='
    requires Passes(k, key, Turn(k, '[', depth), Turn(k, '[', depth))
    ensures Passes(k, before + "[" + key + "]", depth, depth)
  {
    var deeper := Turn(k, '[', depth);
    CharPasses(k, '[', depth);
    PassesConcat(k, before, "[", depth, depth, deeper);
    PassesConcat(k, before + "[", key, depth, deeper, deeper);
    CharPasses(k, ']', deeper);
    PassesConcat(k, before + "[" + key, "]", depth, deeper, depth);
  }

  // ---------------------------------------------------------------- evaluation of the text

  lemma SpacesBefore(s: string)
    requires Trimmed(s)
    ensures Trim(" " + s) == s && Trim(s + " ") == s
  {
    assert (" " + s)[1..] == s && Spaces(s) == 0 && Spaces(" " + s) == 1;
    assert (" " + s)[1..] == s;
    var t := s + " ";
    assert t[0] == s[0] && Spaces(t) == 0 && t[0..] == t;
    assert t[..|t| - 1] == s;
  }

  lemma TextHasNoEquality(e: Expr)
    requires Canonical(e) && !e.Equal?
    ensures FindEquality([], Print(e), 0) == None
    ensures !IsWrapped(Print(e))
  {
    var p := Print(e);
    TextPasses(Equalities, e, 0);
    assert p + [] == p && [] + p == p;
    assert FindEquality([], p + [], 0) == FindEquality([] + p, [], 0);
    TextIsTrimmed(e);
  }

  /** Text without an equality is evaluated as a term. */
  lemma ResolvesAsTerm(host: Host, vals: Value, e: Expr)
    requires Canonical(e) && !e.Equal?
    ensures Print(e) != [] && Resolve(host, vals, Print(e)) == Term(host, vals, Print(e))
  {
    TextIsTrimmed(e);
    TrimKeepsTrimmed(Print(e));
    TextHasNoEquality(e);
    var v := Term(host, vals, Print(e));
    TermStep(host, vals, Print(e), v);
    ResolveStep(host, vals, Print(e), Print(e), v);
  }

  /** The text between the parentheses of an equality closes none of them. */
  lemma InnerPassesParens(op: Operator, left: Expr, right: Expr)
    requires Canonical(left) && Canonical(right)
    ensures Passes(Parens, Print(left) + Infix(op) + Print(right), 1, 1)
  {
    TextIsTrimmed(left);
    TextIsTrimmed(right);
    TextPasses(Parens, left, 1);
    TextPasses(Parens, right, 1);
    InnerPasses(Parens, Print(left), op, Print(right), 1);
  }

  /** An equality is wrapped, and nothing but it. */
  lemma EqualIsWrapped(op: Operator, left: Expr, right: Expr)
    requires Canonical(left) && Canonical(right)
    ensures var p := Print(Equal(op, left, right));
            IsWrapped(p) && p[1..|p| - 1] == Print(left) + Infix(op) + Print(right)
  {
    var inner := Print(left) + Infix(op) + Print(right);
    InnerPassesParens(op, left, right);
    EqualText(op, left, right, inner);
    ParensAreWrapped(inner, Print(Equal(op, left, right)));
  }

  lemma EqualText(op: Operator, left: Expr, right: Expr, inner: string)
    requires inner == Print(left) + Infix(op) + Print(right)
    ensures Print(Equal(op, left, right)) == "(" + inner + ")"
  {
    assert "(" + Print(left) + Infix(op) + Print(right) + ")" == "(" + inner + ")";
  }

  lemma ParensAreWrapped(inner: string, p: string)
    requires Passes(Parens, inner, 1, 1) && p == "(" + inner + ")"
    ensures IsWrapped(p) && p[1..|p| - 1] == inner
  {
    assert p[1..] == inner + ")";
    assert StaysWrapped(inner + ")", 1) == StaysWrapped(")", 1);
  }

  /** A wrapped text that goes on closes its first parenthesis early. */
  lemma WrappedCloses(m: string, rest: string)
    requires Passes(Parens, m, 1, 1) && rest != []
    ensures !StaysWrapped("(" + m + ")" + rest, 0)
  {
    var s := "(" + m + ")" + rest;
    assert s[1..] == m + (")" + rest);
    assert StaysWrapped(m + (")" + rest), 1) == StaysWrapped(")" + rest, 1);
  }

  lemma EqualCloses(op: Operator, left: Expr, right: Expr, rest: string)
    requires Canonical(left) && Canonical(right) && rest != []
    ensures !StaysWrapped(Print(Equal(op, left, right)) + rest, 0)
  {
    var m := Print(left) + Infix(op) + Print(right);
    InnerPassesParens(op, left, right);
    WrappedCloses(m, rest);
    EqualText(op, left, right, m);
  }

  /** The inner text is not wrapped itself: its first parenthesis closes before the operator. */
  lemma InnerIsNotWrapped(op: Operator, left: Expr, right: Expr)
    requires Canonical(left) && Canonical(right)
    ensures !IsWrapped(Print(left) + Infix(op) + Print(right))
  {
    var rest := Infix(op) + Print(right);
    TextIsTrimmed(left);
    InfixIsBracketFree(op);
    assert Print(left) + Infix(op) + Print(right) == Print(left) + rest;
    if left.Equal? {
      EqualCloses(left.op, left.left, left.right, rest);
    }
  }

  lemma OperatorIsFound(l: string, op: Operator, r: string)
    requires Trimmed(l) && Passes(Equalities, l, 0, 0)
    ensures FindEquality([], l + Infix(op) + r, 0) == Some(Equality(|l| + 1, op))
  {
    var tail, found := OperatorText(op) + " " + r, Some(Equality(|l| + 1, op));
    SpacesBefore(l);
    OperatorReads(op, tail, r);
    SpaceScans(l, tail, found);
    ScansOver(l, " " + tail, found);
    InfixSplits(l, op, r);
  }

  lemma ScansOver(l: string, rest: string, found: Option<Equality>)
    requires Passes(Equalities, l, 0, 0) && Apart(rest) && FindEquality(l, rest, 0) == found
    ensures FindEquality([], l + rest, 0) == found
  {
    assert [] + l == l;
    assert FindEquality([], l + rest, 0) == FindEquality([] + l, rest, 0);
  }

  lemma InfixSplits(l: string, op: Operator, r: string)
    ensures l + Infix(op) + r == l + (" " + (OperatorText(op) + " " + r)) && [] + l == l
  {
  }

  lemma SpaceScans(left: string, tail: string, found: Option<Equality>)
    requires FindEquality(left + " ", tail, 0) == found
    ensures FindEquality(left, " " + tail, 0) == found
  {
    assert (" " + tail)[1..] == tail;
  }

  lemma OperatorReads(op: Operator, tail: string, r: string)
    requires tail == OperatorText(op) + " " + r
    ensures StartsOperator(tail) && OperatorAt(tail) == op && !IsBracket(tail[0])
  {
    var text := OperatorText(op);
    assert forall i :: 0 <= i < |text| ==> tail[i] == text[i];
    assert tail[|text|] == ' ';
  }

  // One step of the evaluator at a time.

  lemma ResolveStep(host: Host, vals: Value, src: string, s: string, v: Value)
    requires Trim(src) == s != [] && Expression(host, vals, s) == v
    ensures Resolve(host, vals, src) == v
  {
  }

  lemma WrappedStep(host: Host, vals: Value, s: string, inner: string, v: Value)
    requires IsWrapped(s) && inner == s[1..|s| - 1] && Resolve(host, vals, inner) == v
    ensures Expression(host, vals, s) == v
  {
  }

  lemma EqualityStep(host: Host, vals: Value, s: string, i: nat, op: Operator, l: string, r: string, v: Value)
    requires s != [] && !IsWrapped(s) && FindEquality([], s, 0) == Some(Equality(i, op))
    requires i + |OperatorText(op)| <= |s| && l == s[..i] && r == s[i + |OperatorText(op)|..]
    requires Comparison(host, vals, l, op, r) == v
    ensures Expression(host, vals, s) == v
  {
  }

  lemma TermStep(host: Host, vals: Value, s: string, v: Value)
    requires s != [] && !IsWrapped(s) && FindEquality([], s, 0) == None && Term(host, vals, s) == v
    ensures Expression(host, vals, s) == v
  {
  }

  /** Spaces around a text do not matter. */
  lemma PaddingStep(host: Host, vals: Value, padded: string, s: string, v: Value)
    requires Trim(padded) == s && Trim(s) == s && Resolve(host, vals, s) == v
    ensures Resolve(host, vals, padded) == v
  {
  }

  lemma PaddedComparison(host: Host, vals: Value, l: string, op: Operator, r: string, x: Value, y: Value)
    requires Trimmed(l) && Trimmed(r) && Resolve(host, vals, l) == x && Resolve(host, vals, r) == y
    ensures Comparison(host, vals, l + " ", op, " " + r) == Compare(host, op, x, y)
  {
    SpacesBefore(l);
    SpacesBefore(r);
    TrimKeepsTrimmed(l);
    TrimKeepsTrimmed(r);
    PaddingStep(host, vals, l + " ", l, x);
    PaddingStep(host, vals, " " + r, r, y);
  }

  lemma EqualityResolves(host: Host, vals: Value, inner: string, i: nat, op: Operator, l: string, r: string, v: Value)
    requires inner != [] && Trim(inner) == inner && !IsWrapped(inner)
    requires FindEquality([], inner, 0) == Some(Equality(i, op)) && i + |OperatorText(op)| <= |inner|
    requires l == inner[..i] && r == inner[i + |OperatorText(op)|..] && Comparison(host, vals, l, op, r) == v
    ensures Resolve(host, vals, inner) == v
  {
    EqualityStep(host, vals, inner, i, op, l, r, v);
    ResolveStep(host, vals, inner, inner, v);
  }

  lemma InnerIsTrimmed(l: string, op: Operator, r: string, inner: string)
    requires inner == l + Infix(op) + r && Trimmed(l) && Trimmed(r)
    ensures Trimmed(inner)
  {
    assert inner[0] == l[0] && inner[|inner| - 1] == r[|r| - 1];
  }

  lemma OperatorSplits(l: string, op: Operator, r: string, inner: string)
    requires inner == l + Infix(op) + r
    ensures |l| + 1 + |OperatorText(op)| <= |inner|
    ensures inner[..|l| + 1] == l + " " && inner[|l| + 1 + |OperatorText(op)|..] == " " + r
  {
    assert inner == (l + " ") + OperatorText(op) + (" " + r);
  }

  lemma {:induction false} PartsStop(name: string, rest: string)
    requires PartsLength(name) == |name| && (rest == [] || !IdentPart(rest[0]))
    ensures PartsLength(name + rest) == |name|
    decreases |name|
  {
    if name == [] {
      assert name + rest == rest;
    } else {
      assert (name + rest)[1..] == name[1..] + rest;
      PartsStop(name[1..], rest);
    }
  }

  lemma {:induction false} DigitsStop(name: string, rest: string)
    requires DigitsLength(name) == |name| && (rest == [] || !IsDigit(rest[0]))
    ensures DigitsLength(name + rest) == |name|
    decreases |name|
  {
    if name == [] {
      assert name + rest == rest;
    } else {
      assert (name + rest)[1..] == name[1..] + rest;
      DigitsStop(name[1..], rest);
    }
  }

  /** A name ends where the next step of the path starts. */
  lemma NameStops(name: string, rest: string)
    requires rest == [] || rest[0] in ['.', '[']
    ensures IsIdent(name) ==> IdentLength(name + rest) == |name|
    ensures IsIdent(name) || IsDigits(name) ==> NameLength(name + rest) == |name|
  {
    if IsIdent(name) {
      assert (name + rest)[1..] == name[1..] + rest;
      PartsStop(name[1..], rest);
    } else if IsDigits(name) {
      DigitsAreInert(name);
      DigitsStop(name, rest);
    }
  }

  lemma PathIsNoLiteral(host: Host, head: string, steps: Steps)
    requires Canonical(Path(head, steps))
    ensures Literal(host, head + PrintSteps(steps)) == None
  {
    var p := head + PrintSteps(steps);
    IdentIsInert(head);
    StepsEnd(steps);
    assert p[0] == head[0];
    if steps.End? {
      assert p == head;
    } else {
      assert p[|head|] in ['.', '['];
      if IsWord(p) {
        WordHasNoPoint(p);
      }
    }
  }

  lemma WordHasNoPoint(s: string)
    requires IsWord(s)
    ensures forall i :: 0 <= i < |s| ==> s[i] !in ['.', '[']
  {
    assert |"true"| == 4 && |"false"| == 5 && |"null"| == 4 && |"undefined"| == 9;
  }

  lemma NumberResolves(host: Host, vals: Value, text: string)
    requires IsNumber(text)
    ensures Term(host, vals, text) == host.number(text)
  {
    NumberIsInert(text);
    if IsWord(text) {
      WordIsIdent(text);
    }
  }

  lemma QuoteResolves(host: Host, vals: Value, mark: char, text: string)
    requires IsQuote(mark)
    ensures Term(host, vals, [mark] + text + [mark]) == Text(text)
  {
    var p := [mark] + text + [mark];
    assert p[0] == mark && p[|p| - 1] == mark && p[1..|p| - 1] == text;
    if IsWord(p) {
      WordIsIdent(p);
    }
  }

  lemma NotResolves(host: Host, vals: Value, p: string, v: Value)
    requires Resolve(host, vals, p) == v
    ensures Term(host, vals, "!" + p) == Bool(!host.truthy(v))
  {
    assert ("!" + p)[1..] == p;
  }

  lemma PathResolves(host: Host, vals: Value, head: string, steps: Steps, v: Value)
    requires Canonical(Path(head, steps))
    requires Walk(host, vals, Access(host, vals, Text(head)), PrintSteps(steps)) == v
    ensures Term(host, vals, head + PrintSteps(steps)) == v
  {
    var p := head + PrintSteps(steps);
    PathIsNoLiteral(host, head, steps);
    IdentIsInert(head);
    StepsEnd(steps);
    NameStops(head, PrintSteps(steps));
    assert p[..|head|] == head && p[|head|..] == PrintSteps(steps) && p[0] == head[0];
    assert ResolvePath(host, vals, p) == v;
  }

  lemma InnerReadsTrimmed(l: string, op: Operator, r: string, inner: string, left: Expr, right: Expr)
    requires Canonical(left) && Canonical(right) && l == Print(left) && r == Print(right)
    requires inner == l + Infix(op) + r
    ensures inner != [] && Trim(inner) == inner
  {
    TextIsTrimmed(left);
    TextIsTrimmed(right);
    InnerIsTrimmed(l, op, r, inner);
    TrimKeepsTrimmed(inner);
  }

  lemma EqualReadsWrapped(op: Operator, left: Expr, right: Expr, p: string, inner: string)
    requires Canonical(left) && Canonical(right)
    requires p == Print(Equal(op, left, right)) && inner == Print(left) + Infix(op) + Print(right)
    ensures Trim(p) == p && p != [] && IsWrapped(p) && inner == p[1..|p| - 1]
  {
    EqualIsWrapped(op, left, right);
    TextIsTrimmed(Equal(op, left, right));
    TrimKeepsTrimmed(p);
  }

  lemma InnerReadsEquality(op: Operator, left: Expr, right: Expr, l: string, r: string, inner: string)
    requires Canonical(left) && Canonical(right) && l == Print(left) && r == Print(right)
    requires inner == l + Infix(op) + r
    ensures Trimmed(l) && Trimmed(r) && !IsWrapped(inner)
    ensures FindEquality([], inner, 0) == Some(Equality(|l| + 1, op))
  {
    InnerIsNotWrapped(op, left, right);
    TextIsTrimmed(left);
    TextIsTrimmed(right);
    TextPasses(Equalities, left, 0);
    OperatorIsFound(l, op, r);
  }

  /** The inner text is one equality, with a space left on either side. */
  lemma InnerReads(op: Operator, left: Expr, right: Expr, inner: string, i: nat, l: string, r: string)
    requires Canonical(left) && Canonical(right) && inner == Print(left) + Infix(op) + Print(right)
    requires i == |Print(left)| + 1 && l == Print(left) + " " && r == " " + Print(right)
    ensures inner != [] && Trim(inner) == inner && !IsWrapped(inner)
    ensures FindEquality([], inner, 0) == Some(Equality(i, op)) && i + |OperatorText(op)| <= |inner|
    ensures l == inner[..i] && r == inner[i + |OperatorText(op)|..]
  {
    InnerReadsEquality(op, left, right, Print(left), Print(right), inner);
    InnerReadsTrimmed(Print(left), op, Print(right), inner, left, right);
    OperatorSplits(Print(left), op, Print(right), inner);
  }

  /** The scanners' view of an equality: wrapped text `p`, inner text, position and sides of the operator. */
  ghost predicate ReadsAsEquality(p: string, inner: string, i: nat, op: Operator, l: string, r: string)
  {
    && Trim(p) == p && p != [] && IsWrapped(p) && inner == p[1..|p| - 1]
    && inner != [] && Trim(inner) == inner && !IsWrapped(inner)
    && FindEquality([], inner, 0) == Some(Equality(i, op)) && i + |OperatorText(op)| <= |inner|
    && l == inner[..i] && r == inner[i + |OperatorText(op)|..]
  }

  lemma EqualReads(op: Operator, left: Expr, right: Expr) returns (inner: string)
    requires Canonical(left) && Canonical(right)
    ensures Trimmed(Print(left)) && Trimmed(Print(right))
    ensures ReadsAsEquality(Print(Equal(op, left, right)), inner, |Print(left)| + 1, op, Print(left) + " ",
                            " " + Print(right))
  {
    inner := Print(left) + Infix(op) + Print(right);
    TextIsTrimmed(left);
    TextIsTrimmed(right);
    EqualReadsWrapped(op, left, right, Print(Equal(op, left, right)), inner);
    InnerReads(op, left, right, inner, |Print(left)| + 1, Print(left) + " ", " " + Print(right));
  }

  lemma EqualResolves(host: Host, vals: Value, op: Operator, left: Expr, right: Expr, x: Value, y: Value)
    requires Canonical(left) && Canonical(right)
    requires Resolve(host, vals, Print(left)) == x && Resolve(host, vals, Print(right)) == y
    ensures Resolve(host, vals, Print(Equal(op, left, right))) == Compare(host, op, x, y)
  {
    var inner := EqualReads(op, left, right);
    PaddedComparison(host, vals, Print(left), op, Print(right), x, y);
    OuterResolves(host, vals, Print(Equal(op, left, right)), inner, |Print(left)| + 1, op, Print(left) + " ",
                  " " + Print(right), Compare(host, op, x, y));
  }

  lemma OuterResolves(host: Host, vals: Value, p: string, inner: string, i: nat, op: Operator, l: string, r: string,
                      v: Value)
    requires ReadsAsEquality(p, inner, i, op, l, r) && Comparison(host, vals, l, op, r) == v
    ensures Resolve(host, vals, p) == v
  {
    EqualityResolves(host, vals, inner, i, op, l, r, v);
    WrappedStep(host, vals, p, inner, v);
    ResolveStep(host, vals, p, p, v);
  }

  lemma NameStep(host: Host, vals: Value, cur: Value, name: string, tail: string, v: Value)
    requires IsIdent(name) || IsDigits(name)
    requires tail == [] || tail[0] in ['.', '[']
    requires Walk(host, vals, Access(host, cur, Text(name)), tail) == v
    ensures Walk(host, vals, cur, "." + name + tail) == v
  {
    var s := "." + name + tail;
    NameStops(name, tail);
    NameSplits(s, name, tail);
    if IsDigits(name) {
      DigitsAreInert(name);
    }
    NameLeads(host, vals, cur, s, |name|, name, tail, v);
  }

  lemma NameSplits(s: string, name: string, tail: string)
    requires s == "." + name + tail
    ensures s[0] == '.' && s[1..] == name + tail && s[1..|name| + 1] == name && s[|name| + 1..] == tail
  {
  }

  lemma NameLeads(host: Host, vals: Value, cur: Value, s: string, n: nat, name: string, tail: string, v: Value)
    requires s != [] && s[0] == '.' && n == NameLength(s[1..]) > 0
    requires name == s[1..n + 1] && tail == s[n + 1..]
    requires Walk(host, vals, Access(host, cur, Text(name)), tail) == v
    ensures Walk(host, vals, cur, s) == v
  {
  }

  lemma IndexStep(host: Host, vals: Value, cur: Value, k: string, tail: string, key: Value, v: Value)
    requires Passes(Brackets, k, 1, 1) && Resolve(host, vals, k) == key
    requires Walk(host, vals, Access(host, cur, key), tail) == v
    ensures Walk(host, vals, cur, "[" + k + "]" + tail) == v
  {
    var s := "[" + k + "]" + tail;
    IndexSplits(s, k, tail);
    BracketCloses(s, k, tail);
    KeyLeads(host, vals, cur, s, |k|, k, tail, key, Access(host, cur, key), v);
  }

  lemma KeyLeads(host: Host, vals: Value, cur: Value, s: string, n: nat, k: string, tail: string, key: Value,
                 next: Value, v: Value)
    requires s != [] && s[0] == '[' && BracketLength(s[1..], 1) == Some(n) && k == s[1..n + 1] && tail == s[n + 2..]
    requires key == Resolve(host, vals, k) && next == Access(host, cur, key) && v == Walk(host, vals, next, tail)
    ensures v == Walk(host, vals, cur, s)
  {
    WalkIndexed(host, vals, cur, s, n);
  }

  lemma BracketCloses(s: string, k: string, tail: string)
    requires Passes(Brackets, k, 1, 1) && s != [] && s[1..] == k + ("]" + tail)
    ensures BracketLength(s[1..], 1) == Some(|k|)
  {
  }

  lemma WalkIndexed(host: Host, vals: Value, cur: Value, s: string, n: nat)
    requires s != [] && s[0] == '[' && BracketLength(s[1..], 1) == Some(n)
    ensures Walk(host, vals, cur, s) == Walk(host, vals, Access(host, cur, Resolve(host, vals, s[1..n + 1])), s[n + 2..])
  {
  }

  lemma IndexSplits(s: string, k: string, tail: string)
    requires s == "[" + k + "]" + tail
    ensures s[0] == '[' && s[1..] == k + ("]" + tail) && s[1..|k| + 1] == k && s[|k| + 2..] == tail
  {
  }

  /** On every canonical tree, evaluating the text yields the value the tree denotes. */
  lemma {:induction false} ResolveDenotes(host: Host, vals: Value, e: Expr)
    requires Canonical(e)
    ensures Resolve(host, vals, Print(e)) == Denote(host, vals, e)
    decreases e
  {
    match e
    case Word(text) =>
      ResolvesAsTerm(host, vals, e);
      WordIsIdent(text);
    case Number(text) =>
      ResolvesAsTerm(host, vals, e);
      NumberResolves(host, vals, text);
    case Quote(mark, text) =>
      ResolvesAsTerm(host, vals, e);
      QuoteResolves(host, vals, mark, text);
    case Path(head, steps) =>
      ResolvesAsTerm(host, vals, e);
      WalkFollows(host, vals, Access(host, vals, Text(head)), steps);
      PathResolves(host, vals, head, steps, Denote(host, vals, e));
    case Not(inner) =>
      ResolvesAsTerm(host, vals, e);
      ResolveDenotes(host, vals, inner);
      NotResolves(host, vals, Print(inner), Denote(host, vals, inner));
    case Equal(op, left, right) =>
      ResolveDenotes(host, vals, left);
      ResolveDenotes(host, vals, right);
      EqualResolves(host, vals, op, left, right, Denote(host, vals, left), Denote(host, vals, right));
      EqualDenotes(host, vals, op, left, right);
  }

  lemma EqualDenotes(host: Host, vals: Value, op: Operator, left: Expr, right: Expr)
    ensures Compare(host, op, Denote(host, vals, left), Denote(host, vals, right))
            == Denote(host, vals, Equal(op, left, right))
  {
  }

  lemma {:induction false} WalkFollows(host: Host, vals: Value, cur: Value, steps: Steps)
    requires CanonicalSteps(steps)
    ensures Walk(host, vals, cur, PrintSteps(steps)) == Follow(host, vals, cur, steps)
    decreases steps
  {
    match steps
    case End =>
    case Name(name, rest) =>
      StepsEnd(rest);
      WalkFollows(host, vals, Access(host, cur, Text(name)), rest);
      NameStep(host, vals, cur, name, PrintSteps(rest), Follow(host, vals, cur, steps));
    case Index(key, rest) =>
      TextPasses(Brackets, key, 1);
      ResolveDenotes(host, vals, key);
      WalkFollows(host, vals, Access(host, cur, Denote(host, vals, key)), rest);
      IndexStep(host, vals, cur, Print(key), PrintSteps(rest), Denote(host, vals, key),
                Follow(host, vals, cur, steps));
  }
}
