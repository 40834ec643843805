/** Marking declarations twice is marking them once, whatever the text. */
module CssIdempotence {
  import opened Common
  import opened JsText
  import opened CssScanner
  import opened CssImportant
  import opened CssReading

  // ---------------------------------------------------------------- trimming

  lemma {:induction false} ClosedBodyEnds(x: string)
    requires UrlCloses(x)
    ensures 1 <= UrlBody(x) && x[UrlBody(x) - 1] == ')'
    decreases |x|
  {
    if x[0] != ')' {
      ClosedBodyEnds(x[if x[0] == '\\' then 2 else 1..]);
    }
  }

  predicate GoodQuote(quote: Option<char>)
  {
    quote.Some? ==> IsQuote(quote.value)
  }

  /** What a reading comes to when its last character, a space, is dropped. */
  ghost predicate Shortens(before: Reading, after: Reading)
  {
    && (before.Ended? && before.quote.None? ==> after == before)
    && (Whole(before) ==> Whole(after))
  }

  /** The token that swallows the final space is still harmless without it. */
  lemma LastSpaceInToken(prev: Option<char>, p: string, sp: char, quote: Option<char>, depth: nat)
    requires IsSpace(sp) && GoodQuote(quote) && p != []
    requires var t := Lex(true, prev, p + [sp], quote); t.length == |p| + 1 && t.kind != Comment
    ensures Shortens(Read(prev, p + [sp], quote, depth), Read(prev, p, quote, depth))
  {
    var s := p + [sp];
    assert s[|p|] == sp && s[0] == p[0];
    var t := Lex(true, prev, s, quote);
    if t.kind == Url {
      assert s[4..] == p[4..] + [sp];
      if UrlCloses(s[4..]) {
        ClosedBodyEnds(s[4..]);
      }
      if UrlCloses(p[4..]) {
        ClosedBody(p[4..], [sp]);
      }
      if QuoteFollows(p[4..]) {
        QuoteStillFollows(p[4..], [sp]);
      }
    }
  }

  lemma SpaceAlone(prev: Option<char>, s: string, quote: Option<char>, depth: nat)
    requires |s| == 1 && IsSpace(s[0]) && GoodQuote(quote)
    ensures Read(prev, s, quote, depth) == Ended(quote, depth)
  {
    assert Lex(true, prev, s, quote).quote == quote;
    assert s[1..] == [];
  }

  lemma {:induction false} DropLastSpace(prev: Option<char>, p: string, sp: char, quote: Option<char>, depth: nat)
    requires IsSpace(sp) && GoodQuote(quote)
    ensures Shortens(Read(prev, p + [sp], quote, depth), Read(prev, p, quote, depth))
    decreases |p|
  {
    var s := p + [sp];
    if p == [] {
      SpaceAlone(prev, s, quote, depth);
    } else {
      var t := Lex(true, prev, s, quote);
      var whole := t.kind != Comment && !Separates(t, s[0], depth);
      if whole && t.length == |s| {
        LastSpaceInToken(prev, p, sp, quote, depth);
      } else if whole {
        assert s[..|p|] == p;
        TokenWithin(prev, s, |p|, quote, depth);
        DropOfConcat(p, [sp], t.length);
        var last, rest, level := Some(p[t.length - 1]), p[t.length..], Depth(t, p[0], depth);
        DropLastSpace(last, rest, sp, t.quote, level);
        ReadStep(prev, p, quote, depth, t, last, rest, level);
        ReadStep(prev, s, quote, depth, t, last, rest + [sp], level);
      }
    }
  }

  lemma {:induction false} TrimRightReads(prev: Option<char>, s: string)
    ensures Shortens(Read(prev, s, None, 0), Read(prev, TrimRight(s), None, 0))
    decreases |s|
  {
    if s != [] && IsSpace(s[|s| - 1]) {
      var p := s[..|s| - 1];
      assert s == p + [s[|s| - 1]];
      DropLastSpace(prev, p, s[|s| - 1], None, 0);
      TrimRightReads(prev, p);
    }
  }

  lemma {:induction false} LeadingSpacesRead(prev: Option<char>, s: string)
    requires !InName(prev)
    ensures Read(prev, s[Spaces(s)..], None, 0) == Read(prev, s, None, 0)
    decreases |s|
  {
    if Spaces(s) > 0 {
      var t := Lex(true, prev, s, None);
      assert t == Token(Plain, 1, None);
      ReadStep(prev, s, None, 0, t, Some(s[0]), s[1..], 0);
      LeadingSpacesRead(Some(s[0]), s[1..]);
      assert s[1..][Spaces(s[1..])..] == s[Spaces(s)..];
      ReadIgnoresNames(prev, Some(s[0]), s[Spaces(s)..], None, 0);
    }
  }

  lemma TrimReads(prev: Option<char>, s: string)
    requires !InName(prev)
    ensures Shortens(Read(prev, s, None, 0), Read(prev, Trim(s), None, 0))
  {
    LeadingSpacesRead(prev, s);
    TrimRightReads(prev, s[Spaces(s)..]);
  }

  // ---------------------------------------------------------------- marking

  /** No character of the text means anything to the scanner. */
  predicate Harmless(x: string)
  {
    forall i :: 0 <= i < |x| ==>
      !IsQuote(x[i]) && x[i] !in ['/', ';', '(', ')', '\\', 'u', 'U']
  }

  lemma {:induction false} HarmlessReads(prev: Option<char>, x: string, quote: Option<char>, depth: nat)
    requires Harmless(x) && GoodQuote(quote)
    ensures Read(prev, x, quote, depth) == Ended(quote, depth)
    decreases |x|
  {
    if x != [] {
      var t := Lex(true, prev, x, quote);
      assert t.length == 1 && t.quote == quote && t.kind in [Plain, Quoted];
      HarmlessReads(Some(x[0]), x[1..], quote, depth);
      ReadStep(prev, x, quote, depth, t, Some(x[0]), x[1..], depth);
    }
  }

  lemma {:induction false} StaysOpen(x: string, r: string)
    requires UrlCloses(x + r) && Harmless(r)
    ensures UrlCloses(x)
    decreases |x + r|
  {
    var y := x + r;
    if x == [] {
      assert y == r && r[0] != ')' && r[0] != '\\';
      assert [] + r[1..] == y[1..];
      StaysOpen([], r[1..]);
    } else if x[0] == '\\' {
      if |x| == 1 {
        assert y[2..] == [] + r[1..];
        StaysOpen([], r[1..]);
      } else {
        assert y[2..] == x[2..] + r;
        StaysOpen(x[2..], r);
      }
    } else if x[0] != ')' {
      assert y[1..] == x[1..] + r;
      StaysOpen(x[1..], r);
    }
  }

  lemma {:induction false} NoQuoteAppears(x: string, r: string)
    requires !QuoteFollows(x) && Harmless(r)
    ensures !QuoteFollows(x + r)
    decreases |x|
  {
    if x == [] {
      assert x + r == r;
    } else if IsSpace(x[0]) {
      assert (x + r)[1..] == x[1..] + r;
      NoQuoteAppears(x[1..], r);
    }
  }

  /** Harmless text behind a text that reads whole leaves the whole readable. */
  lemma {:induction false} WholeAppend(prev: Option<char>, p: string, r: string, quote: Option<char>, depth: nat)
    requires Whole(Read(prev, p, quote, depth)) && GoodQuote(quote)
    requires Harmless(r) && r != [] && Neutral(r[0])
    ensures Whole(Read(prev, p + r, quote, depth))
    decreases |p|
  {
    if p == [] {
      assert p + r == r;
      HarmlessReads(prev, r, quote, depth);
    } else {
      var t := Lex(true, prev, p, quote);
      if Continues(t, p, depth) {
        var last, rest, level := Some(p[t.length - 1]), p[t.length..], Depth(t, p[0], depth);
        WholeAppend(last, rest, r, t.quote, level);
        TokenExtends(prev, p, r, quote, depth);
        DropOfConcat(p, r, t.length);
        ReadStep(prev, p, quote, depth, t, last, rest, level);
        ReadStep(prev, p + r, quote, depth, t, last, rest + r, level);
      } else if t.kind == Url {
        OpenUrlAppend(prev, p, r, depth);
      } else {
        DanglingAppend(prev, p, r, quote, depth);
      }
    }
  }

  lemma OpenUrlAppend(prev: Option<char>, p: string, r: string, depth: nat)
    requires UrlToken(prev, p).Some? && !IsQuote(p[0]) && !UrlCloses(p[4..]) && Harmless(r)
    ensures Read(prev, p + r, None, depth) == OpenUrl
  {
    var s := p + r;
    assert s[4..] == p[4..] + r;
    NoQuoteAppears(p[4..], r);
    if UrlCloses(s[4..]) {
      StaysOpen(p[4..], r);
    }
  }

  lemma DanglingAppend(prev: Option<char>, p: string, r: string, quote: Option<char>, depth: nat)
    requires |p| == 1 && p[0] == '\\' && quote.Some? && IsQuote(quote.value) && Harmless(r) && r != []
    ensures Whole(Read(prev, p + r, quote, depth))
  {
    var s := p + r;
    assert s[2..] == r[1..] && s[1] == r[0];
    HarmlessReads(Some(s[1]), r[1..], quote, depth);
    ReadStep(prev, s, quote, depth, Token(Quoted, 2, quote), Some(s[1]), r[1..], depth);
  }

  lemma MarkIsHarmless()
    ensures Harmless(MARK) && MARK[0] == ' '
  {
  }

  lemma MarkedHasMark(d: string)
    ensures HasMark(d + MARK)
  {
    var m := d + MARK;
    assert |MARK| == 11 && forall i :: 0 <= i < 9 ==> m[|m| - 9 + i] == MARK[i + 2] == IMPORTANT[i];
    assert m[..|m| - 9][|d| + 1] == MARK[1] == '!';
  }

  // ---------------------------------------------------------------- declarations

  /** A declaration that reads to its end outside quotes and parentheses. */
  ghost predicate Settled(d: string)
  {
    Read(None, d, None, 0) == Ended(None, 0)
  }

  ghost predicate SettledButLast(ds: seq<string>)
  {
    forall i :: 0 <= i < |ds| ==> Whole(Read(None, ds[i], None, 0)) && (i < |ds| - 1 ==> Settled(ds[i]))
  }

  /** A trimmed declaration that carries its mark. */
  predicate Finished(d: string)
  {
    Trimmed(d) && HasMark(d)
  }

  lemma {:induction false} PiecesSettle(prev: Option<char>, s: string)
    requires CommentFree(prev, s, None) && !InName(prev)
    ensures SettledButLast(Pieces(prev, s))
    decreases |s|
  {
    var k := Cut(prev, s, None, 0);
    if k == |s| {
      LastPieceIsWhole(prev, s, None, 0);
      ReadIgnoresNames(prev, None, s, None, 0);
    } else {
      PieceEnds(prev, s, None, 0, k);
      ReadIgnoresNames(prev, None, s[..k], None, 0);
      PiecesSettle(Some(';'), s[k + 1..]);
    }
  }

  lemma MarkSettles(piece: string, d: string)
    requires d == Trim(piece) && d != [] && Whole(Read(None, piece, None, 0))
    ensures Finished(Mark(d)) && Whole(Read(None, Mark(d), None, 0))
    ensures Settled(piece) ==> Settled(Mark(d))
  {
    TrimReads(None, piece);
    MarkIsHarmless();
    if !HasMark(d) {
      MarkedHasMark(d);
      var m := d + MARK;
      assert m[0] == d[0] && m[|m| - 1] == MARK[10] == 't';
      WholeAppend(None, d, MARK, None, 0);
      if Settled(d) {
        Append(None, d, MARK, None, 0, LastOf(None, d), None, 0);
        HarmlessReads(LastOf(None, d), MARK, None, 0);
      }
    }
  }

  lemma {:induction false} MarkedSettles(ps: seq<string>)
    requires SettledButLast(ps)
    ensures SettledButLast(Marked(ps)) && forall i :: 0 <= i < |Marked(ps)| ==> Finished(Marked(ps)[i])
  {
    if ps != [] {
      var d := Trim(ps[0]);
      MarkedSettles(ps[1..]);
      if d != [] {
        MarkSettles(ps[0], d);
        SettledInFront(Mark(d), Marked(ps[1..]));
      }
    }
  }

  lemma SettledInFront(d: string, ds: seq<string>)
    requires Finished(d) && Whole(Read(None, d, None, 0)) && SettledButLast(ds)
    requires Settled(d) || ds == []
    requires forall i :: 0 <= i < |ds| ==> Finished(ds[i])
    ensures SettledButLast([d] + ds) && forall i :: 0 <= i < |ds| + 1 ==> Finished(([d] + ds)[i])
  {
  }

  lemma {:induction false} MarkedAgain(ds: seq<string>)
    requires forall i :: 0 <= i < |ds| ==> Finished(ds[i])
    ensures Marked(ds) == ds
  {
    if ds != [] {
      TrimKeepsTrimmed(ds[0]);
      MarkedAgain(ds[1..]);
    }
  }

  /** Splitting the joined declarations gives the declarations back, and meets no comment. */
  lemma {:induction false} PiecesOfJoin(prev: Option<char>, ds: seq<string>)
    requires !InName(prev) && ds != [] && SettledButLast(ds)
    ensures Pieces(prev, Join(ds)) == ds && CommentFree(prev, Join(ds), None)
    decreases |ds|
  {
    var d := ds[0];
    ReadIgnoresNames(prev, None, d, None, 0);
    if |ds| == 1 {
      WholeHasNoCut(prev, d, None, 0);
    } else {
      var rest := Join(ds[1..]);
      assert Settled(ds[0]);
      PiecesOfJoin(Some(';'), ds[1..]);
      JoinStep(prev, d, rest);
    }
  }

  lemma JoinStep(prev: Option<char>, d: string, rest: string)
    requires Read(prev, d, None, 0) == Ended(None, 0) && CommentFree(Some(';'), rest, None)
    ensures Pieces(prev, d + ";" + rest) == [d] + Pieces(Some(';'), rest)
    ensures CommentFree(prev, d + ";" + rest, None)
  {
    var r, end := ";" + rest, LastOf(prev, d);
    Reassociate(d, ";", rest);
    Append(prev, d, r, None, 0, end, None, 0);
    PiecesAtCut(prev, d, rest, d + r);
  }

  lemma PiecesAtCut(prev: Option<char>, d: string, rest: string, s: string)
    requires s == d + (";" + rest) && Cut(prev, s, None, 0) == |d|
    ensures Pieces(prev, s) == [d] + Pieces(Some(';'), rest)
  {
    AroundSemicolon(d, rest, s);
  }

  lemma AroundSemicolon(d: string, rest: string, s: string)
    requires s == d + (";" + rest)
    ensures |d| < |s| && s[..|d|] == d && s[|d| + 1..] == rest
  {
  }

  /** Marking every declaration of a style text twice changes nothing more, on every string. */
  lemma ImportantIsIdempotent(css: string)
    ensures Important(Important(css)) == Important(css)
  {
    var clean := Stripped(css);
    StrippedIsCommentFree(None, None, css, None);
    PiecesSettle(None, clean);
    var ds := Marked(Pieces(None, clean));
    MarkedSettles(Pieces(None, clean));
    if ds == [] {
      NothingToMark();
    } else {
      PiecesOfJoin(None, ds);
      StripKeepsCommentFree(None, Join(ds), None);
      MarkedAgain(ds);
    }
  }

  lemma NothingToMark()
    ensures Important([]) == []
  {
    assert Stripped([]) == [] && Pieces(None, []) == [[]] && Trim([]) == [];
    assert Marked([[]]) == Marked([[]][1..]) == [];
  }

  // ---------------------------------------------------------------- splitting loses nothing

  lemma {:induction false} JoinOfPieces(prev: Option<char>, s: string)
    ensures Join(Pieces(prev, s)) == s
    decreases |s|
  {
    var k := Cut(prev, s, None, 0);
    if k < |s| {
      JoinOfPieces(Some(';'), s[k + 1..]);
      assert s == s[..k] + ";" + s[k + 1..];
    }
  }

  /** Every declaration put out carries its mark, appended only where the text had none. */
  lemma {:induction false} MarkedOnlyWhereAbsent(ps: seq<string>, i: nat) returns (k: nat)
    requires i < |Marked(ps)|
    ensures k < |ps| && Trim(ps[k]) != [] && HasMark(Marked(ps)[i])
    ensures Marked(ps)[i] == Trim(ps[k]) || (!HasMark(Trim(ps[k])) && Marked(ps)[i] == Trim(ps[k]) + MARK)
    decreases |ps|
  {
    var d, rest := Trim(ps[0]), Marked(ps[1..]);
    if d != [] && i == 0 {
      MarkCarries(d);
      assert Marked(ps)[0] == Mark(d);
      k := 0;
    } else {
      var j: nat := if d == [] then i else i - 1;
      assert Marked(ps)[i] == rest[j];
      k := MarkedOnlyWhereAbsent(ps[1..], j);
      assert ps[1..][k] == ps[k + 1];
      k := k + 1;
    }
  }

  lemma MarkCarries(d: string)
    ensures HasMark(Mark(d)) && (Mark(d) == d || (!HasMark(d) && Mark(d) == d + MARK))
  {
    MarkedHasMark(d);
  }

  /**
   * The declarations are exactly the pieces of the text between the semicolons outside quotes,
   * urls and parentheses: joined they give the text back, each but the last ends outside all three,
   * and none holds a separator of its own.
   */
  lemma SplitsOnlyAtSeparators(css: string)
    ensures var ps := Pieces(None, Stripped(css));
            && Join(ps) == Stripped(css)
            && SettledButLast(ps)
            && forall i :: 0 <= i < |ps| ==> Cut(None, ps[i], None, 0) == |ps[i]|
  {
    var clean := Stripped(css);
    StrippedIsCommentFree(None, None, css, None);
    PiecesSettle(None, clean);
    JoinOfPieces(None, clean);
    var ps := Pieces(None, clean);
    forall i | 0 <= i < |ps| ensures Cut(None, ps[i], None, 0) == |ps[i]| {
      WholeHasNoCut(None, ps[i], None, 0);
    }
  }
}
