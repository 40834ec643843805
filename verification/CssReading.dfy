/** Reading style text from end to end: what a piece of text does to the quote and the nesting depth. */
module CssReading {
  import opened Common
  import opened JsText
  import opened CssScanner
  import opened CssImportant

  // ---------------------------------------------------------------- reading a piece of text

  /** What reading a text from beginning to end comes to. */
  datatype Reading = Ended(quote: Option<char>, depth: nat) | Separated | Commented | OpenUrl | Dangling

  predicate Dangles(t: Token, s: string)
    requires s != []
  {
    t.kind == Quoted && |s| == 1 && s[0] == '\\'
  }

  /** The token is complete and reading goes on behind it. */
  predicate Continues(t: Token, s: string, depth: nat)
    requires s != [] && (t.kind == Url ==> |s| >= 4)
  {
    && t.kind != Comment && !Separates(t, s[0], depth)
    && (t.kind == Url ==> UrlCloses(s[4..])) && !Dangles(t, s)
  }

  ghost function Read(prev: Option<char>, s: string, quote: Option<char>, depth: nat): Reading
    decreases |s|
  {
    if s == [] then Ended(quote, depth)
    else
      var t := Lex(true, prev, s, quote);
      if t.kind == Comment then Commented
      else if Separates(t, s[0], depth) then Separated
      else if t.kind == Url && !UrlCloses(s[4..]) then OpenUrl
      else if Dangles(t, s) then Dangling
      else Read(Some(s[t.length - 1]), s[t.length..], t.quote, Depth(t, s[0], depth))
  }

  /** Nothing in the text separates declarations or opens a comment. */
  ghost predicate Whole(r: Reading)
  {
    r.Ended? || r.OpenUrl? || r.Dangling?
  }

  ghost function LastOf(prev: Option<char>, s: string): Option<char>
  {
    if s == [] then prev else Some(s[|s| - 1])
  }

  lemma DropOfConcat(p: string, r: string, n: nat)
    requires 1 <= n <= |p|
    ensures (p + r)[n..] == p[n..] + r && (p + r)[n - 1] == p[n - 1] && (p + r)[0] == p[0]
  {
  }

  lemma DropOfPrefix(s: string, k: nat, n: nat)
    requires 1 <= n <= k <= |s|
    ensures s[..k][n..] == s[n..][..k - n] && s[..k][n - 1] == s[n - 1] && s[..k][0] == s[0]
    ensures k < |s| ==> s[n..][k - n + 1..] == s[k + 1..]
  {
  }

  lemma LexAgrees(prev: Option<char>, s: string, quote: Option<char>)
    requires s != [] && Lex(true, prev, s, quote).kind != Comment
    ensures Lex(false, prev, s, quote) == Lex(true, prev, s, quote)
  {
  }

  lemma ReadIgnoresNames(prev: Option<char>, prev': Option<char>, s: string, quote: Option<char>, depth: nat)
    requires InName(prev) == InName(prev')
    ensures Read(prev, s, quote, depth) == Read(prev', s, quote, depth)
  {
  }

  // ---------------------------------------------------------------- text that is continued

  /** A character no token of the text before it can absorb. */
  predicate Neutral(c: char)
  {
    c == ';' || c == ' '
  }

  lemma {:induction false} ClosedBody(x: string, r: string)
    requires UrlCloses(x)
    ensures UrlCloses(x + r) && UrlBody(x + r) == UrlBody(x) && Spaces(x + r) == Spaces(x) < |x|
    decreases |x|
  {
    if x[0] != ')' {
      var step := if x[0] == '\\' then 2 else 1;
      assert (x + r)[step..] == x[step..] + r;
      ClosedBody(x[step..], r);
      if step == 2 {
        assert Spaces(x) == 0;
      }
    }
  }

  lemma {:induction false} QuoteStillFollows(x: string, r: string)
    requires QuoteFollows(x)
    ensures QuoteFollows(x + r)
    decreases |x|
  {
    if Spaces(x) > 0 {
      assert (x + r)[1..] == x[1..] + r;
      QuoteStillFollows(x[1..], r);
    }
  }

  /** A complete token stays what it is when neutral text follows. */
  lemma TokenExtends(prev: Option<char>, p: string, r: string, quote: Option<char>, depth: nat)
    requires p != [] && r != [] && Neutral(r[0]) && Continues(Lex(true, prev, p, quote), p, depth)
    ensures Lex(true, prev, p + r, quote) == Lex(true, prev, p, quote)
    ensures Continues(Lex(true, prev, p, quote), p + r, depth)
  {
    var s := p + r;
    assert s[0] == p[0] && s[|p|] == r[0];
    if OpensUrl(p) {
      assert s[4..] == p[4..] + r;
      if QuoteFollows(p[4..]) {
        QuoteStillFollows(p[4..], r);
      } else if !InName(prev) && quote.None? && !IsQuote(p[0]) {
        ClosedBody(p[4..], r);
      }
    }
  }

  lemma ReadStep(prev: Option<char>, s: string, quote: Option<char>, depth: nat, t: Token, last: Option<char>,
                 rest: string, level: nat)
    requires s != [] && t == Lex(true, prev, s, quote) && Continues(t, s, depth)
    requires last == Some(s[t.length - 1]) && rest == s[t.length..] && level == Depth(t, s[0], depth)
    ensures Read(prev, s, quote, depth) == Read(last, rest, t.quote, level)
    ensures Cut(prev, s, quote, depth) == t.length + Cut(last, rest, t.quote, level)
    ensures CommentFree(prev, s, quote) == CommentFree(last, rest, t.quote)
  {
    LexAgrees(prev, s, quote);
  }

  /** Text that reads to its end, followed by neutral text, is read as the text that follows. */
  lemma {:induction false} Append(prev: Option<char>, p: string, r: string, quote: Option<char>, depth: nat,
                                  end: Option<char>, open: Option<char>, level: nat)
    requires r != [] && Neutral(r[0]) && end == LastOf(prev, p)
    requires Read(prev, p, quote, depth) == Ended(open, level)
    ensures Read(prev, p + r, quote, depth) == Read(end, r, open, level)
    ensures Cut(prev, p + r, quote, depth) == |p| + Cut(end, r, open, level)
    ensures CommentFree(prev, p + r, quote) == CommentFree(end, r, open)
    decreases |p|
  {
    if p == [] {
      assert p + r == r;
    } else {
      var t := Lex(true, prev, p, quote);
      var last, rest, inner := Some(p[t.length - 1]), p[t.length..], Depth(t, p[0], depth);
      ReadStep(prev, p, quote, depth, t, last, rest, inner);
      Append(last, rest, r, t.quote, inner, end, open, level);
      TokenExtends(prev, p, r, quote, depth);
      DropOfConcat(p, r, t.length);
      ReadStep(prev, p + r, quote, depth, t, last, rest + r, inner);
    }
  }

  // ---------------------------------------------------------------- pieces of comment-free text

  lemma {:induction false} ShortBodyCloses(x: string)
    requires UrlBody(x) < |x|
    ensures UrlCloses(x)
    decreases |x|
  {
    if x[0] != ')' {
      ShortBodyCloses(x[if x[0] == '\\' then 2 else 1..]);
    }
  }

  lemma {:induction false} BodyWithin(x: string, m: nat)
    requires UrlCloses(x) && UrlBody(x) <= m <= |x|
    ensures UrlCloses(x[..m]) && UrlBody(x[..m]) == UrlBody(x) && Spaces(x[..m]) == Spaces(x) < m
    decreases |x|
  {
    if x[0] != ')' {
      var step := if x[0] == '\\' then 2 else 1;
      assert x[..m][step..] == x[step..][..m - step];
      BodyWithin(x[step..], m - step);
    }
  }

  lemma {:induction false} QuoteWithin(x: string, m: nat)
    requires QuoteFollows(x) && Spaces(x) < m <= |x|
    ensures QuoteFollows(x[..m])
    decreases |x|
  {
    if Spaces(x) > 0 {
      assert x[..m][1..] == x[1..][..m - 1];
      QuoteWithin(x[1..], m - 1);
    }
  }

  /** Where a piece may end: at a semicolon, or before a last space. */
  predicate MayEnd(s: string, k: nat)
  {
    k < |s| && (s[k] == ';' || (IsSpace(s[k]) && k == |s| - 1))
  }

  /** A url token that ends by `k`, or none, is found in the piece before `k`. */
  lemma UrlWithin(prev: Option<char>, s: string, k: nat)
    requires OpensUrl(s) && MayEnd(s, k) && 4 <= k
    requires UrlToken(prev, s).Some? ==> UrlToken(prev, s).value <= k
    ensures UrlToken(prev, s[..k]) == UrlToken(prev, s)
    ensures UrlToken(prev, s).Some? ==> UrlCloses(s[4..]) && UrlCloses(s[..k][4..])
  {
    var x := s[4..];
    UrlTail(s, k);
    if !InName(prev) && !QuoteFollows(x) {
      ShortBodyCloses(x);
      BodyWithin(x, k - 4);
    }
  }

  /** The token at the head of a text is found in the piece before a later semicolon or last space. */
  lemma TokenWithin(prev: Option<char>, s: string, k: nat, quote: Option<char>, depth: nat)
    requires s != [] && MayEnd(s, k)
    requires var t := Lex(true, prev, s, quote);
             t.kind != Comment && !Separates(t, s[0], depth) && t.length <= k
    ensures Lex(true, prev, s[..k], quote) == Lex(true, prev, s, quote)
    ensures Continues(Lex(true, prev, s, quote), s, depth) && Continues(Lex(true, prev, s, quote), s[..k], depth)
  {
    if quote.None? && !IsQuote(s[0]) && OpensUrl(s) {
      assert k >= 4;
      UrlWithin(prev, s, k);
    }
  }

  lemma UrlTail(s: string, k: nat)
    requires 4 <= k <= |s|
    ensures s[..k][4..] == s[4..][..k - 4] && forall i :: 0 <= i < 4 ==> s[..k][i] == s[i]
  {
  }

  lemma CutStep(prev: Option<char>, s: string, quote: Option<char>, depth: nat, t: Token, last: Option<char>,
                rest: string, level: nat)
    requires s != [] && t == Lex(true, prev, s, quote) && t.kind != Comment && !Separates(t, s[0], depth)
    requires last == Some(s[t.length - 1]) && rest == s[t.length..] && level == Depth(t, s[0], depth)
    ensures Cut(prev, s, quote, depth) == t.length + Cut(last, rest, t.quote, level)
  {
    LexAgrees(prev, s, quote);
    assert Lex(false, prev, s, quote) == t;
  }

  lemma PieceStep(prev: Option<char>, s: string, quote: Option<char>, depth: nat, k: nat, t: Token,
                  last: Option<char>, rest: string, level: nat)
    requires s != [] && k < |s| && s[k] == ';' && t == Lex(true, prev, s, quote) && t.length <= k
    requires t.kind != Comment && !Separates(t, s[0], depth)
    requires last == Some(s[t.length - 1]) && rest == s[..k][t.length..] && level == Depth(t, s[0], depth)
    ensures Read(prev, s[..k], quote, depth) == Read(last, rest, t.quote, level)
  {
    TokenWithin(prev, s, k, quote, depth);
    DropOfPrefix(s, k, t.length);
    ReadStep(prev, s[..k], quote, depth, t, last, rest, level);
  }

  /** The piece before the first separator reads to its end outside quotes and parentheses. */
  lemma {:induction false} PieceEnds(prev: Option<char>, s: string, quote: Option<char>, depth: nat, k: nat)
    requires CommentFree(prev, s, quote) && k == Cut(prev, s, quote, depth) < |s|
    ensures Read(prev, s[..k], quote, depth) == Ended(None, 0)
    ensures CommentFree(Some(';'), s[k + 1..], None)
    decreases |s|
  {
    var t := Lex(true, prev, s, quote);
    LexAgrees(prev, s, quote);
    if Separates(t, s[0], depth) {
      assert k == 0;
    } else {
      var last, rest, level := Some(s[t.length - 1]), s[t.length..], Depth(t, s[0], depth);
      CutStep(prev, s, quote, depth, t, last, rest, level);
      var k' := Cut(last, rest, t.quote, level);
      PieceEnds(last, rest, t.quote, level, k');
      DropOfPrefix(s, k, t.length);
      PieceStep(prev, s, quote, depth, k, t, last, rest[..k'], level);
    }
  }

  /** A text without separators reads whole. */
  lemma {:induction false} LastPieceIsWhole(prev: Option<char>, s: string, quote: Option<char>, depth: nat)
    requires CommentFree(prev, s, quote) && Cut(prev, s, quote, depth) == |s|
    ensures Whole(Read(prev, s, quote, depth))
    decreases |s|
  {
    if s != [] {
      var t := Lex(true, prev, s, quote);
      LexAgrees(prev, s, quote);
      if Continues(t, s, depth) {
        var last, rest, level := Some(s[t.length - 1]), s[t.length..], Depth(t, s[0], depth);
        ReadStep(prev, s, quote, depth, t, last, rest, level);
        LastPieceIsWhole(last, rest, t.quote, level);
      } else {
        StopsWhole(prev, s, quote, depth);
      }
    }
  }

  /** A token that neither separates nor comments nor goes on is an open url or a dangling escape. */
  lemma StopsWhole(prev: Option<char>, s: string, quote: Option<char>, depth: nat)
    requires s != [] && !Continues(Lex(true, prev, s, quote), s, depth)
    requires Lex(true, prev, s, quote).kind != Comment && !Separates(Lex(true, prev, s, quote), s[0], depth)
    ensures Whole(Read(prev, s, quote, depth))
  {
  }

  /** Reading whole means no separator and no comment. */
  lemma {:induction false} WholeHasNoCut(prev: Option<char>, s: string, quote: Option<char>, depth: nat)
    requires Whole(Read(prev, s, quote, depth))
    ensures Cut(prev, s, quote, depth) == |s| && CommentFree(prev, s, quote)
    decreases |s|
  {
    if s != [] {
      var t := Lex(true, prev, s, quote);
      LexAgrees(prev, s, quote);
      if Continues(t, s, depth) {
        var last, rest, level := Some(s[t.length - 1]), s[t.length..], Depth(t, s[0], depth);
        WholeHasNoCut(last, rest, t.quote, level);
        ReadStep(prev, s, quote, depth, t, last, rest, level);
      } else {
        if t.kind == Url && UrlBody(s[4..]) < |s[4..]| {
          ShortBodyCloses(s[4..]);
        }
        assert s[t.length..] == [];
      }
    }
  }
}
