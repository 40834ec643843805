/** The deck runtime's expression evaluator: literals, paths, negation and equality, read from a string. */
module ExprResolver {
  import opened Common
  import opened JsText

  // ---------------------------------------------------------------- values and what is done with them

  datatype Value = Undefined | Null | Bool(value: bool) | Text(text: string) | Other(ref: int)

  /** The runtime beneath: property access, number literals, truth and the two equalities. */
  datatype Host = Host(
    property: (Value, Value) -> Value,
    number: string -> Value,
    truthy: Value -> bool,
    strictEqual: (Value, Value) -> bool,
    looseEqual: (Value, Value) -> bool)

  function Access(host: Host, v: Value, key: Value): Value
  {
    if v.Undefined? || v.Null? then Undefined else host.property(v, key)
  }

  datatype Operator = StrictEqual | StrictUnequal | LooseEqual | LooseUnequal

  function OperatorText(op: Operator): string
  {
    match op
    case StrictEqual => "==="
    case StrictUnequal => "!=="
    case LooseEqual => "=="
    case LooseUnequal => "!="
  }

  function Compare(host: Host, op: Operator, l: Value, r: Value): Value
  {
    match op
    case StrictEqual => Bool(host.strictEqual(l, r))
    case StrictUnequal => Bool(!host.strictEqual(l, r))
    case LooseEqual => Bool(host.looseEqual(l, r))
    case LooseUnequal => Bool(!host.looseEqual(l, r))
  }

  // ---------------------------------------------------------------- lexical shapes

  predicate IdentStart(c: char)
  {
    'A' <= c <= 'Z' || 'a' <= c <= 'z' || c == '_' || c == '$'
  }

  predicate IdentPart(c: char)
  {
    IdentStart(c) || IsDigit(c)
  }

  function PartsLength(s: string): (n: nat)
    ensures n <= |s|
  {
    if s == [] || !IdentPart(s[0]) then 0 else 1 + PartsLength(s[1..])
  }

  /** Length of the identifier `s` starts with; 0 if there is none. */
  function IdentLength(s: string): (n: nat)
    ensures n <= |s|
  {
    if s == [] || !IdentStart(s[0]) then 0 else 1 + PartsLength(s[1..])
  }

  function DigitsLength(s: string): (n: nat)
    ensures n <= |s|
  {
    if s == [] || !IsDigit(s[0]) then 0 else 1 + DigitsLength(s[1..])
  }

  /** Digits, then possibly a point and more digits, and nothing else. */
  predicate IsUnsignedNumber(s: string)
  {
    var n := DigitsLength(s);
    n > 0 && (n == |s| || (s[n] == '.' && n + 1 < |s| && DigitsLength(s[n + 1..]) == |s| - n - 1))
  }

  predicate IsNumber(s: string)
  {
    IsUnsignedNumber(if s != [] && s[0] == '-' then s[1..] else s)
  }

  predicate IsQuoted(s: string)
  {
    |s| >= 2 && IsQuote(s[0]) && s[|s| - 1] == s[0]
  }

  // ---------------------------------------------------------------- brackets and equality

  /** Scanning all but the last character, the parenthesis opened first is not closed. */
  predicate StaysWrapped(s: string, depth: int)
  {
    if |s| <= 1 then true
    else if s[0] == '(' then StaysWrapped(s[1..], depth + 1)
    else if s[0] == ')' then depth - 1 != 0 && StaysWrapped(s[1..], depth - 1)
    else StaysWrapped(s[1..], depth)
  }

  predicate IsWrapped(s: string)
  {
    |s| >= 2 && s[0] == '(' && s[|s| - 1] == ')' && StaysWrapped(s, 0)
  }

  datatype Equality = Equality(index: nat, op: Operator)

  predicate StartsOperator(s: string)
  {
    |s| >= 2 && (s[0] == '=' || s[0] == '!') && s[1] == '='
  }

  function OperatorAt(s: string): Operator
    requires StartsOperator(s)
  {
    if |s| > 2 && s[2] == '=' then (if s[0] == '=' then StrictEqual else StrictUnequal)
    else if s[0] == '=' then LooseEqual
    else LooseUnequal
  }

  /** An operator here would continue another one, or has nothing on its left. */
  predicate NoOperand(left: string)
  {
    (left != [] && left[|left| - 1] in ['=', '!']) || Trim(left) == []
  }

  function Deeper(c: char, depth: int): int
  {
    if c == '[' || c == '(' then depth + 1 else if c == ']' || c == ')' then depth - 1 else depth
  }

  predicate IsBracket(c: char)
  {
    c in ['[', ']', '(', ')']
  }

  /** The first equality operator of `s` outside brackets, read behind `left`. */
  function FindEquality(left: string, s: string, depth: int): (r: Option<Equality>)
    ensures r.Some? ==> 1 <= r.value.index && |left| <= r.value.index
                        && r.value.index + |OperatorText(r.value.op)| <= |left| + |s|
    decreases |s|
  {
    if s == [] then None
    else if !IsBracket(s[0]) && depth == 0 && StartsOperator(s) && !NoOperand(left) then
      assert left != [];
      Some(Equality(|left|, OperatorAt(s)))
    else FindEquality(left + [s[0]], s[1..], Deeper(s[0], depth))
  }

  /** How far the bracket that is open at `depth` reaches in `s`. */
  function BracketLength(s: string, depth: nat): (n: Option<nat>)
    ensures n.Some? ==> n.value < |s|
  {
    if s == [] then None
    else if s[0] == ']' && depth <= 1 then Some(0)
    else
      var d := if s[0] == '[' then depth + 1 else if s[0] == ']' then depth - 1 else depth;
      match BracketLength(s[1..], d) case None => None case Some(n) => Some(n + 1)
  }

  // ---------------------------------------------------------------- evaluation

  function Resolve(host: Host, vals: Value, src: string): Value
    decreases |src|, 3
  {
    var s := Trim(src);
    TrimShortens(src);
    if s == [] then Undefined else Expression(host, vals, s)
  }

  function Expression(host: Host, vals: Value, s: string): Value
    requires s != []
    decreases |s|, 2
  {
    if IsWrapped(s) then Resolve(host, vals, s[1..|s| - 1])
    else
      match FindEquality([], s, 0)
      case Some(eq) => Comparison(host, vals, s[..eq.index], eq.op, s[eq.index + |OperatorText(eq.op)|..])
      case None => Term(host, vals, s)
  }

  function Comparison(host: Host, vals: Value, l: string, op: Operator, r: string): Value
    decreases |l| + |r| + 1, 0
  {
    Compare(host, op, Resolve(host, vals, l), Resolve(host, vals, r))
  }

  function Term(host: Host, vals: Value, s: string): Value
    requires s != []
    decreases |s|, 1
  {
    if s[0] == '!' then Bool(!host.truthy(Resolve(host, vals, s[1..])))
    else match Literal(host, s) case Some(v) => v case None => ResolvePath(host, vals, s)
  }

  function Literal(host: Host, s: string): Option<Value>
    requires s != []
  {
    if s == "true" then Some(Bool(true))
    else if s == "false" then Some(Bool(false))
    else if s == "null" then Some(Null)
    else if s == "undefined" then Some(Undefined)
    else if IsNumber(s) then Some(host.number(s))
    else if IsQuoted(s) then Some(Text(s[1..|s| - 1]))
    else None
  }

  lemma TrimShortens(s: string)
    ensures |Trim(s)| <= |s|
  {
  }

  function ResolvePath(host: Host, vals: Value, s: string): Value
    decreases |s|, 0
  {
    var n := IdentLength(s);
    if n == 0 then Undefined
    else Walk(host, vals, Access(host, vals, Text(s[..n])), s[n..])
  }

  /** Length of the name behind a point: an identifier, or else digits. */
  function NameLength(s: string): (n: nat)
    ensures n <= |s|
  {
    if IdentLength(s) > 0 then IdentLength(s) else DigitsLength(s)
  }

  function Walk(host: Host, vals: Value, cur: Value, s: string): Value
    decreases |s|
  {
    if s == [] then cur
    else if s[0] == '.' then
      var n := NameLength(s[1..]);
      if n == 0 then Undefined
      else Walk(host, vals, Access(host, cur, Text(s[1..n + 1])), s[n + 1..])
    else if s[0] == '[' then
      match BracketLength(s[1..], 1)
      case None => Undefined
      case Some(n) => Walk(host, vals, Access(host, cur, Resolve(host, vals, s[1..n + 1])), s[n + 2..])
    else Undefined
  }

  // ---------------------------------------------------------------- the loops

  method ParensWrapWhole(expr: string) returns (whole: bool)
    ensures whole == StaysWrapped(expr, 0)
  {
    var depth, i := 0, 0;
    assert expr[0..] == expr;
    while i < |expr| - 1
      invariant 0 <= i <= |expr|
      invariant StaysWrapped(expr[i..], depth) == StaysWrapped(expr, 0)
    {
      assert expr[i..][1..] == expr[i + 1..];
      if expr[i] == '(' {
        depth := depth + 1;
      } else if expr[i] == ')' {
        depth := depth - 1;
        if depth == 0 {
          return false;
        }
      }
      i := i + 1;
    }
    whole := true;
  }

  method CheckWrapped(expr: string) returns (wrapped: bool)
    requires expr != []
    ensures wrapped == IsWrapped(expr)
  {
    wrapped := false;
    if |expr| >= 2 && expr[0] == '(' && expr[|expr| - 1] == ')' {
      wrapped := ParensWrapWhole(expr);
    }
  }

  method FindTopLevelEquality(expr: string) returns (found: Option<Equality>)
    ensures found == FindEquality([], expr, 0)
  {
    var depth, i := 0, 0;
    assert expr[..0] == [] && expr[0..] == expr;
    while i < |expr|
      invariant i <= |expr|
      invariant FindEquality([], expr, 0) == FindEquality(expr[..i], expr[i..], depth)
    {
      var c := expr[i];
      assert expr[i..][1..] == expr[i + 1..] && expr[..i] + [c] == expr[..i + 1];
      if c == '[' || c == '(' {
        depth := depth + 1;
      } else if c == ']' || c == ')' {
        depth := depth - 1;
      } else if depth == 0 && (c == '=' || c == '!') && i + 1 < |expr| && expr[i + 1] == '=' {
        if !(i > 0 && (expr[i - 1] == '=' || expr[i - 1] == '!')) && Trim(expr[..i]) != [] {
          var strict := i + 2 < |expr| && expr[i + 2] == '=';
          return Some(Equality(i, if strict then (if c == '=' then StrictEqual else StrictUnequal)
                                  else if c == '=' then LooseEqual else LooseUnequal));
        }
      }
      i := i + 1;
    }
    found := None;
  }

  /** The position of the closing bracket for the one before `start`, or -1. */
  method CloseBracket(expr: string, start: nat) returns (end: int)
    requires start <= |expr|
    ensures match BracketLength(expr[start..], 1)
            case None => end == -1
            case Some(n) => end == start + n
  {
    var depth, j := 1, start;
    while j < |expr| && depth > 0
      invariant start <= j <= |expr| && depth >= 1
      invariant match BracketLength(expr[j..], depth)
                case None => BracketLength(expr[start..], 1) == None
                case Some(n) => BracketLength(expr[start..], 1) == Some(j - start + n)
    {
      assert expr[j..][1..] == expr[j + 1..];
      if expr[j] == '[' {
        depth := depth + 1;
      } else if expr[j] == ']' {
        depth := depth - 1;
        if depth == 0 {
          return j;
        }
      }
      j := j + 1;
    }
    end := -1;
  }

  lemma WalkName(host: Host, vals: Value, base: Value, expr: string, i: nat, n: nat, cur: Value, next: nat, goal: Value)
    requires i < |expr| && expr[i] == '.' && n == NameLength(expr[i + 1..]) > 0 && next == i + 1 + n
    requires cur == Access(host, base, Text(expr[i + 1..next])) && Walk(host, vals, base, expr[i..]) == goal
    ensures Walk(host, vals, cur, expr[next..]) == goal
  {
    NameSlices(expr, i, n, next);
    WalkNamed(host, vals, base, expr[i..], n, cur, expr[next..], goal);
  }

  lemma NameSlices(expr: string, i: nat, n: nat, next: nat)
    requires i < |expr| && next == i + 1 + n <= |expr|
    ensures expr[i..][0] == expr[i] && expr[i..][1..] == expr[i + 1..]
    ensures expr[i..][1..n + 1] == expr[i + 1..next] && expr[i..][n + 1..] == expr[next..]
  {
  }

  lemma WalkNamed(host: Host, vals: Value, base: Value, rest: string, n: nat, cur: Value, after: string, goal: Value)
    requires rest != [] && rest[0] == '.' && n == NameLength(rest[1..]) > 0
    requires after == rest[n + 1..] && cur == Access(host, base, Text(rest[1..n + 1]))
    requires Walk(host, vals, base, rest) == goal
    ensures Walk(host, vals, cur, after) == goal
  {
  }

  lemma SuffixSlices(expr: string, i: nat, j: nat)
    requires i < j < |expr|
    ensures expr[i..][0] == expr[i] && expr[i..][1..] == expr[i + 1..]
    ensures expr[i..][1..j - i] == expr[i + 1..j] && expr[i..][j - i + 1..] == expr[j + 1..]
  {
  }

  lemma WalkIndex(host: Host, vals: Value, base: Value, rest: string, n: nat, key: Value, cur: Value, after: string,
                  goal: Value)
    requires rest != [] && rest[0] == '[' && BracketLength(rest[1..], 1) == Some(n)
    requires key == Resolve(host, vals, rest[1..n + 1]) && after == rest[n + 2..] && cur == Access(host, base, key)
    requires Walk(host, vals, base, rest) == goal
    ensures Walk(host, vals, cur, after) == goal
  {
  }

  lemma WalkStops(host: Host, vals: Value, cur: Value, expr: string, i: nat)
    requires i < |expr|
    requires match expr[i]
             case '.' => NameLength(expr[i + 1..]) == 0
             case '[' => BracketLength(expr[i + 1..], 1).None?
             case _ => true
    ensures Walk(host, vals, cur, expr[i..]) == Undefined
  {
    assert expr[i..][1..] == expr[i + 1..];
  }

  method EvaluatePath(host: Host, vals: Value, expr: string) returns (v: Value)
    ensures v == ResolvePath(host, vals, expr)
    decreases |expr|, 0, 1
  {
    var i := IdentLength(expr);
    if i == 0 {
      return Undefined;
    }
    var cur := Access(host, vals, Text(expr[..i]));
    ghost var goal := ResolvePath(host, vals, expr);
    while i < |expr|
      invariant 1 <= i <= |expr|
      invariant Walk(host, vals, cur, expr[i..]) == goal
    {
      var stopped;
      cur, i, stopped := EvaluateStep(host, vals, cur, expr, i, goal);
      if stopped {
        return Undefined;
      }
    }
    v := cur;
  }

  /** One step of a path: a name behind a point, or a bracketed expression. */
  method EvaluateStep(host: Host, vals: Value, base: Value, expr: string, i: nat, ghost goal: Value)
    returns (cur: Value, next: nat, stopped: bool)
    requires i < |expr| && Walk(host, vals, base, expr[i..]) == goal
    ensures stopped ==> goal == Undefined
    ensures !stopped ==> i < next <= |expr| && Walk(host, vals, cur, expr[next..]) == goal
    decreases |expr|, 0, 0
  {
    stopped := false;
    if expr[i] == '.' {
      var n := NameLength(expr[i + 1..]);
      if n == 0 {
        WalkStops(host, vals, base, expr, i);
        return base, i, true;
      }
      cur, next := EvaluateName(host, vals, base, expr, i, n, goal);
    } else if expr[i] == '[' {
      var j := CloseBracket(expr, i + 1);
      if j == -1 {
        WalkStops(host, vals, base, expr, i);
        return base, i, true;
      }
      cur, next := EvaluateIndex(host, vals, base, expr, i, j, goal);
    } else {
      WalkStops(host, vals, base, expr, i);
      return base, i, true;
    }
  }

  /** The value under the name behind the point at `i`. */
  method EvaluateName(host: Host, vals: Value, base: Value, expr: string, i: nat, n: nat, ghost goal: Value)
    returns (cur: Value, next: nat)
    requires i < |expr| && expr[i] == '.' && n == NameLength(expr[i + 1..]) > 0
    requires Walk(host, vals, base, expr[i..]) == goal
    ensures i < next <= |expr| && Walk(host, vals, cur, expr[next..]) == goal
    decreases |expr|, 0, -1
  {
    next := i + 1 + n;
    cur := Access(host, base, Text(expr[i + 1..next]));
    WalkName(host, vals, base, expr, i, n, cur, next, goal);
  }

  /** The value under the bracketed key between `i` and `j`. */
  method EvaluateIndex(host: Host, vals: Value, base: Value, expr: string, i: nat, j: nat, ghost goal: Value)
    returns (cur: Value, next: nat)
    requires i < j < |expr| && expr[i] == '[' && BracketLength(expr[i + 1..], 1) == Some(j - i - 1)
    requires Walk(host, vals, base, expr[i..]) == goal
    ensures i < next <= |expr| && Walk(host, vals, cur, expr[next..]) == goal
    decreases |expr|, 0, -1
  {
    next := j + 1;
    SuffixSlices(expr, i, j);
    var key := Evaluate(host, vals, expr[i + 1..j]);
    cur := Access(host, base, key);
    WalkIndex(host, vals, base, expr[i..], j - i - 1, key, cur, expr[next..], goal);
  }

  method EvaluateTerm(host: Host, vals: Value, expr: string) returns (v: Value)
    requires expr != []
    ensures v == Term(host, vals, expr)
    decreases |expr|, 1, 0
  {
    if expr[0] == '!' {
      var negated := Evaluate(host, vals, expr[1..]);
      return Bool(!host.truthy(negated));
    }
    var literal := Literal(host, expr);
    if literal.Some? {
      return literal.value;
    }
    v := EvaluatePath(host, vals, expr);
  }

  method EvaluateComparison(host: Host, vals: Value, left: string, op: Operator, right: string) returns (v: Value)
    ensures v == Comparison(host, vals, left, op, right)
    decreases |left| + |right| + 1, 0
  {
    var l := Evaluate(host, vals, left);
    var r := Evaluate(host, vals, right);
    v := Compare(host, op, l, r);
  }

  method EvaluateExpression(host: Host, vals: Value, expr: string) returns (v: Value)
    requires expr != []
    ensures v == Expression(host, vals, expr)
    decreases |expr|, 2
  {
    var wrapped := CheckWrapped(expr);
    if wrapped {
      v := Evaluate(host, vals, expr[1..|expr| - 1]);
      return;
    }
    v := EvaluateUnwrapped(host, vals, expr);
  }

  method EvaluateUnwrapped(host: Host, vals: Value, expr: string) returns (v: Value)
    requires expr != [] && !IsWrapped(expr)
    ensures v == Expression(host, vals, expr)
    decreases |expr|, 1, 1
  {
    var eq := FindTopLevelEquality(expr);
    if eq.Some? {
      var left, right := expr[..eq.value.index], expr[eq.value.index + |OperatorText(eq.value.op)|..];
      v := EvaluateComparison(host, vals, left, eq.value.op, right);
      return;
    }
    v := EvaluateTerm(host, vals, expr);
  }

  method Evaluate(host: Host, vals: Value, src: string) returns (v: Value)
    ensures v == Resolve(host, vals, src)
    decreases |src|, 3
  {
    var expr := Trim(src);
    TrimShortens(src);
    if expr == [] {
      return Undefined;
    }
    v := EvaluateExpression(host, vals, expr);
  }
}
