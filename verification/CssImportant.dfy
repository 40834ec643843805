/** Splitting style text into declarations and marking each `!important`. */
module CssImportant {
  import opened Common
  import opened JsText
  import opened CssScanner

  // ---------------------------------------------------------------- splitting

  /** Nesting depth after a token. */
  function Depth(t: Token, c: char, depth: nat): nat
  {
    if t.kind != Plain then depth
    else if c == '(' then depth + 1
    else if c == ')' then (if depth == 0 then 0 else depth - 1)
    else depth
  }

  predicate Separates(t: Token, c: char, depth: nat)
  {
    t.kind == Plain && c == ';' && depth == 0
  }

  /** Position of the first semicolon outside quotes, urls and parentheses; the length of `s` if none. */
  function Cut(prev: Option<char>, s: string, quote: Option<char>, depth: nat): (k: nat)
    ensures k <= |s| && (k < |s| ==> s[k] == ';')
    decreases |s|
  {
    if s == [] then 0
    else
      var t := Lex(false, prev, s, quote);
      if Separates(t, s[0], depth) then 0
      else t.length + Cut(Some(s[t.length - 1]), s[t.length..], t.quote, Depth(t, s[0], depth))
  }

  /** The declarations of `s`, as written. */
  function Pieces(prev: Option<char>, s: string): (ps: seq<string>)
    ensures ps != []
    decreases |s|
  {
    var k := Cut(prev, s, None, 0);
    if k == |s| then [s] else [s[..k]] + Pieces(Some(';'), s[k + 1..])
  }

  // ---------------------------------------------------------------- trimming, marking, joining

  const IMPORTANT := "important"

  predicate EndsImportant(d: string)
  {
    |d| >= 9 && forall i :: 0 <= i < 9 ==> LowerCase(d[|d| - 9 + i]) == IMPORTANT[i]
  }

  /** The declaration ends in an exclamation mark, optional spaces and the word, in any case. */
  predicate HasMark(d: string)
  {
    EndsImportant(d)
    && var head := TrimRight(d[..|d| - 9]);
       head != [] && head[|head| - 1] == '!'
  }

  const MARK := " !important"

  function Mark(d: string): string
  {
    if HasMark(d) then d else d + MARK
  }

  /** Trim every declaration, drop the empty ones, mark the rest. */
  function Marked(ps: seq<string>): seq<string>
  {
    if ps == [] then []
    else
      var d := Trim(ps[0]);
      (if d == [] then [] else [Mark(d)]) + Marked(ps[1..])
  }

  function Join(ds: seq<string>): string
  {
    if ds == [] then []
    else if |ds| == 1 then ds[0]
    else ds[0] + ";" + Join(ds[1..])
  }

  function Important(css: string): string
  {
    Join(Marked(Pieces(None, Stripped(css))))
  }

  // ---------------------------------------------------------------- the scanner

  /** One turn of the splitting loop on a character that does not separate. */
  method SkipOne(css: string, i: nat, open: Option<char>, level: nat)
    returns (next: nat, quote: Option<char>, depth: nat)
    requires i < |css|
    requires !Separates(Lex(false, Before(css, i), css[i..], open), css[i], level)
    ensures var t := Lex(false, Before(css, i), css[i..], open);
            quote == t.quote && depth == Depth(t, css[i], level)
            && (next == i + t.length)
  {
    var c := css[i];
    next, quote, depth := i + 1, open, level;
    if quote.Some? {
      if c == '\\' {
        next := if i + 1 < |css| then i + 2 else i + 1;
      } else if c == quote.value {
        quote := None;
      }
    } else if IsQuote(c) {
      quote := Some(c);
    } else if c == '(' {
      depth := depth + 1;
    } else if c == ')' {
      depth := if depth == 0 then 0 else depth - 1;
    } else {
      var end := ScanUnquotedUrl(css, i);
      if end != -1 {
        next := end;
      }
    }
  }

  /** The declarations of `css` from `start` on, when the first ends at `k`. */
  ghost function PiecesCutAt(css: string, start: nat, k: nat): seq<string>
    requires start <= k <= |css|
  {
    if k == |css| then [css[start..]] else [css[start..k]] + Pieces(Some(';'), css[k + 1..])
  }

  lemma PiecesStart(css: string, start: nat, k: nat)
    requires start <= |css| && k == start + Cut(Before(css, start), css[start..], None, 0)
    ensures k <= |css| && PiecesCutAt(css, start, k) == Pieces(Before(css, start), css[start..])
  {
    var s := css[start..];
    var n := Cut(Before(css, start), s, None, 0);
    SlicesBehind(css, start, n, k);
  }

  lemma SlicesBehind(css: string, start: nat, n: nat, k: nat)
    requires start <= |css| && n <= |css| - start && k == start + n
    ensures css[start..][..n] == css[start..k]
    ensures k < |css| ==> css[start..][n + 1..] == css[k + 1..]
  {
  }

  /** At a separator the declaration found so far is complete. */
  lemma PieceFound(css: string, decls: seq<string>, start: nat, i: nat)
    requires start <= i < |css| && css[i] == ';'
    ensures decls + PiecesCutAt(css, start, i) == (decls + [css[start..i]]) + Pieces(Before(css, i + 1), css[i + 1..])
  {
  }

  lemma CutSkips(css: string, i: nat, quote: Option<char>, depth: nat, t: Token, next: nat)
    requires i < |css| && t == Lex(false, Before(css, i), css[i..], quote)
    requires !Separates(t, css[i], depth) && next == i + t.length
    ensures next <= |css|
    ensures Cut(Before(css, i), css[i..], quote, depth)
            == t.length + Cut(Before(css, next), css[next..], t.quote, Depth(t, css[i], depth))
  {
    CutUnfolds(Before(css, i), css[i..], quote, depth, t, css[next..], Before(css, next));
  }

  lemma CutUnfolds(prev: Option<char>, s: string, quote: Option<char>, depth: nat, t: Token, rest: string,
                   last: Option<char>)
    requires s != [] && t == Lex(false, prev, s, quote) && !Separates(t, s[0], depth)
    requires rest == s[t.length..] && last == Some(s[t.length - 1])
    ensures Cut(prev, s, quote, depth) == t.length + Cut(last, rest, t.quote, Depth(t, s[0], depth))
  {
  }

  lemma SeparatesIff(css: string, i: nat, quote: Option<char>, depth: nat)
    requires i < |css|
    ensures Separates(Lex(false, Before(css, i), css[i..], quote), css[i], depth)
            <==> quote.None? && css[i] == ';' && depth == 0
  {
  }

  method SplitDeclarations(css: string) returns (decls: seq<string>)
    ensures decls == Pieces(None, css)
  {
    decls := [];
    var start, depth, i := 0, 0, 0;
    var quote: Option<char> := None;
    assert css[0..] == css;
    ghost var k := Cut(None, css, None, 0);
    PiecesStart(css, 0, k);
    while i < |css|
      invariant start <= i <= k <= |css| && k == i + Cut(Before(css, i), css[i..], quote, depth)
      invariant decls + PiecesCutAt(css, start, k) == Pieces(None, css)
      decreases |css| - i
    {
      SeparatesIff(css, i, quote, depth);
      if quote.None? && css[i] == ';' && depth == 0 {
        assert k == i;
        PieceFound(css, decls, start, i);
        decls := decls + [css[start..i]];
        start := i + 1;
        i := i + 1;
        k := i + Cut(Before(css, i), css[i..], None, 0);
        PiecesStart(css, start, k);
      } else {
        ghost var t := Lex(false, Before(css, i), css[i..], quote);
        var next, q, d := SkipOne(css, i, quote, depth);
        CutSkips(css, i, quote, depth, t, next);
        i, quote, depth := next, q, d;
      }
    }
    decls := decls + [css[start..]];
  }

  method Importantify(css: string) returns (out: string)
    ensures out == Important(css)
  {
    var clean := StripComments(css);
    var decls := SplitDeclarations(clean);
    out := Join(Marked(decls));
  }
}
