/** The style-text scanners of the deck runtime: unquoted urls, comment stripping, `!important` marking. */
module CssScanner {
  import opened Common
  import opened JsText

  // ---------------------------------------------------------------- characters

  /** A character that makes a following `url(` part of a longer name. */
  predicate IsNameChar(c: char)
  {
    'a' <= c <= 'z' || 'A' <= c <= 'Z' || '0' <= c <= '9' || c == '_' || c == '-'
  }

  function LowerCase(c: char): char
  {
    if 'A' <= c <= 'Z' then (c as int + 32) as char else c
  }

  /** The character before position `i`, if any. */
  function Before(s: string, i: nat): Option<char>
    requires i <= |s|
  {
    if i == 0 then None else Some(s[i - 1])
  }

  predicate InName(prev: Option<char>)
  {
    prev.Some? && IsNameChar(prev.value)
  }

  // ---------------------------------------------------------------- unquoted urls

  predicate OpensUrl(s: string)
  {
    |s| >= 4 && LowerCase(s[0]) == 'u' && LowerCase(s[1]) == 'r' && LowerCase(s[2]) == 'l' && s[3] == '('
  }

  /** Length of a url body up to and including its `)`, or of everything when none follows. */
  function UrlBody(s: string): (n: nat)
    ensures n <= |s|
  {
    if s == [] then 0
    else if s[0] == ')' then 1
    else if s[0] == '\\' then (if |s| == 1 then 1 else 2 + UrlBody(s[2..]))
    else 1 + UrlBody(s[1..])
  }

  /** The body ends at a `)` of its own. */
  predicate UrlCloses(s: string)
  {
    if s == [] then false
    else if s[0] == ')' then true
    else if s[0] == '\\' then |s| > 1 && UrlCloses(s[2..])
    else UrlCloses(s[1..])
  }

  predicate QuoteFollows(s: string)
  {
    Spaces(s) < |s| && IsQuote(s[Spaces(s)])
  }

  /** Length of the unquoted url token `s` starts with after `prev`, if it starts with one. */
  function UrlToken(prev: Option<char>, s: string): (n: Option<nat>)
    ensures n.Some? ==> 4 <= n.value <= |s|
  {
    if !OpensUrl(s) || InName(prev) || QuoteFollows(s[4..]) then None
    else Some(4 + UrlBody(s[4..]))
  }

  lemma {:induction false} SpacesAreBody(s: string, k: nat)
    requires k <= Spaces(s)
    ensures UrlBody(s) == k + UrlBody(s[k..])
  {
    if k > 0 {
      SpacesAreBody(s[1..], k - 1);
      assert s[1..][k - 1..] == s[k..];
    }
  }

  method SkipSpaces(css: string, i: nat) returns (j: nat)
    requires i <= |css|
    ensures j == i + Spaces(css[i..])
  {
    j := i;
    while j < |css| && IsSpace(css[j])
      invariant i <= j <= |css|
      invariant Spaces(css[i..]) == j - i + Spaces(css[j..])
    {
      assert css[j..][1..] == css[j + 1..];
      j := j + 1;
    }
  }

  /** The end of a url body: behind its `)`, or the end of the text. */
  method UrlEnd(css: string, i: nat) returns (end: nat)
    requires i <= |css|
    ensures end == i + UrlBody(css[i..])
  {
    var j := i;
    while j < |css| && css[j] != ')'
      invariant i <= j
      invariant j <= |css| ==> UrlBody(css[i..]) == j - i + UrlBody(css[j..])
      invariant j > |css| ==> UrlBody(css[i..]) == |css| - i
    {
      if css[j] == '\\' {
        assert j + 2 <= |css| ==> css[j..][2..] == css[j + 2..];
        j := j + 1;
      } else {
        assert css[j..][1..] == css[j + 1..];
      }
      j := j + 1;
    }
    end := if j < |css| then j + 1 else |css|;
  }

  /** The scanner itself: the end of the url token at `i`, or -1. */
  method ScanUnquotedUrl(css: string, i: nat) returns (end: int)
    requires i < |css|
    ensures match UrlToken(Before(css, i), css[i..])
            case None => end == -1
            case Some(n) => end == i + n
  {
    if !OpensUrl(css[i..]) || (i > 0 && IsNameChar(css[i - 1])) {
      return -1;
    }
    ghost var body := css[i..][4..];
    var j := SkipSpaces(css, i + 4);
    BodyBehind(css, i, j);
    if j < |css| && IsQuote(css[j]) {
      return -1;
    }
    SpacesAreBody(body, j - (i + 4));
    end := UrlEnd(css, j);
  }

  lemma BodyBehind(css: string, i: nat, j: nat)
    requires i + 4 <= j <= |css|
    ensures css[i..][4..] == css[i + 4..] && css[i + 4..][j - (i + 4)..] == css[j..]
    ensures j < |css| ==> css[i + 4..][j - (i + 4)] == css[j]
  {
  }

  // ---------------------------------------------------------------- stripping comments

  /** Position of the first `*` `/` in `s`. */
  function CommentEnd(s: string): (n: Option<nat>)
    ensures n.Some? ==> n.value + 2 <= |s| && s[n.value] == '*' && s[n.value + 1] == '/'
  {
    if |s| < 2 then None
    else if s[0] == '*' && s[1] == '/' then Some(0)
    else match CommentEnd(s[1..]) case None => None case Some(k) => Some(k + 1)
  }

  predicate OpensComment(s: string)
  {
    |s| > 1 && s[0] == '/' && s[1] == '*'
  }

  datatype Kind = Plain | QuoteMark | Quoted | Comment | Url

  /** What a scanner takes in one turn: how much, what it is, and the quote that is open afterwards. */
  datatype Token = Token(kind: Kind, length: nat, quote: Option<char>)

  /** The next token of `s`, read after `prev` inside `quote`; `comments` says whether comments count. */
  function Lex(comments: bool, prev: Option<char>, s: string, quote: Option<char>): (t: Token)
    requires s != []
    ensures 1 <= t.length <= |s|
  {
    var c := s[0];
    if quote.Some? then
      if c == '\\' then Token(Quoted, if |s| == 1 then 1 else 2, quote)
      else Token(Quoted, 1, if c == quote.value then None else quote)
    else if IsQuote(c) then Token(QuoteMark, 1, Some(c))
    else if comments && OpensComment(s) then
      match CommentEnd(s[2..])
      case None => Token(Comment, |s|, None)
      case Some(k) => Token(Comment, k + 4, None)
    else
      match UrlToken(prev, s)
      case None => Token(Plain, 1, None)
      case Some(n) => Token(Url, n, None)
  }

  /** What is left of `s` when every comment becomes one space. */
  function Strip(prev: Option<char>, s: string, quote: Option<char>): string
    decreases |s|
  {
    if s == [] then []
    else
      var t := Lex(true, prev, s, quote);
      (if t.kind == Comment then " " else s[..t.length]) + Strip(Some(s[t.length - 1]), s[t.length..], t.quote)
  }

  function Stripped(css: string): string
  {
    Strip(None, css, None)
  }

  function IndexOfCommentEnd(css: string, from: nat): (i: int)
    requires from <= |css|
  {
    match CommentEnd(css[from..]) case None => -1 case Some(k) => from + k
  }

  /** One turn of the stripping loop at `i`. */
  method StripOne(css: string, i: nat, open: Option<char>) returns (text: string, next: nat, quote: Option<char>)
    requires i < |css|
    ensures var t := Lex(true, Before(css, i), css[i..], open);
            && next == i + t.length && quote == t.quote
            && text == if t.kind == Comment then " " else css[i..next]
  {
    var c := css[i];
    quote := open;
    if quote.Some? {
      if c == '\\' {
        text, next := if i + 1 < |css| then [c, css[i + 1]] else [c], if i + 1 < |css| then i + 2 else i + 1;
        return;
      }
      if c == quote.value {
        quote := None;
      }
      text, next := [c], i + 1;
    } else if IsQuote(c) {
      text, next, quote := [c], i + 1, Some(c);
    } else if c == '/' && i + 1 < |css| && css[i + 1] == '*' {
      assert css[i..][2..] == css[i + 2..];
      var end := IndexOfCommentEnd(css, i + 2);
      text, next := " ", if end == -1 then |css| else end + 2;
    } else {
      var end := ScanUnquotedUrl(css, i);
      if end == -1 {
        text, next := [c], i + 1;
      } else {
        text, next := css[i..end], end;
      }
    }
  }

  lemma StripUnfolds(css: string, i: nat, quote: Option<char>, t: Token, next: nat)
    requires i < |css| && t == Lex(true, Before(css, i), css[i..], quote) && next == i + t.length
    ensures next <= |css|
    ensures Strip(Before(css, i), css[i..], quote)
            == (if t.kind == Comment then " " else css[i..next]) + Strip(Before(css, next), css[next..], t.quote)
  {
    StripFirst(Before(css, i), css[i..], quote, t, Before(css, next), css[next..]);
    assert css[i..][..t.length] == css[i..next];
  }

  method StripComments(css: string) returns (out: string)
    ensures out == Stripped(css)
  {
    out := "";
    var quote: Option<char> := None;
    var i := 0;
    assert css[0..] == css;
    while i < |css|
      invariant i <= |css|
      invariant out + Strip(Before(css, i), css[i..], quote) == Stripped(css)
    {
      var text, next, after := StripOne(css, i, quote);
      StripUnfolds(css, i, quote, Lex(true, Before(css, i), css[i..], quote), next);
      Reassociate(out, text, Strip(Before(css, next), css[next..], after));
      out, i, quote := out + text, next, after;
    }
  }

  lemma Reassociate(a: string, b: string, c: string)
    ensures a + (b + c) == (a + b) + c
  {
  }

  // ---------------------------------------------------------------- stripping twice is stripping once

  /** Scanning `s` meets no comment. */
  ghost predicate CommentFree(prev: Option<char>, s: string, quote: Option<char>)
    decreases |s|
  {
    s == []
    || (var t := Lex(true, prev, s, quote);
        t.kind != Comment && CommentFree(Some(s[t.length - 1]), s[t.length..], t.quote))
  }

  lemma {:induction false} StripKeepsCommentFree(prev: Option<char>, s: string, quote: Option<char>)
    requires CommentFree(prev, s, quote)
    ensures Strip(prev, s, quote) == s
    decreases |s|
  {
    if s != [] {
      var t := Lex(true, prev, s, quote);
      var rest := s[t.length..];
      StripKeepsCommentFree(Some(s[t.length - 1]), rest, t.quote);
      HeadAndTail(s, t.length);
    }
  }

  lemma HeadAndTail(s: string, n: nat)
    requires n <= |s|
    ensures s[..n] + s[n..] == s
  {
  }

  lemma {:induction false} UrlBodyOfPrefix(x: string, y: string)
    requires UrlBody(x) < |x| || y == []
    ensures UrlBody(x[..UrlBody(x)] + y) == UrlBody(x)
  {
    var m := UrlBody(x);
    if y == [] && m == |x| {
      assert x[..m] + y == x;
    } else if x[0] != ')' {
      var step := if x[0] == '\\' then 2 else 1;
      assert (x[..m] + y)[step..] == x[step..][..m - step] + y;
      UrlBodyOfPrefix(x[step..], y);
    }
  }

  /** A url token is found again when what follows it changes, unless it runs to the end. */
  lemma UrlTokenOfPrefix(prev: Option<char>, prev': Option<char>, s: string, y: string)
    requires UrlToken(prev, s).Some? && !InName(prev')
    requires UrlToken(prev, s).value < |s| || y == []
    ensures UrlToken(prev', s[..UrlToken(prev, s).value] + y) == UrlToken(prev, s)
  {
    var n := UrlToken(prev, s).value;
    var x, o := s[4..], s[..n] + y;
    TailOfPrefix(s, n, y);
    UrlBodyOfPrefix(x, y);
    SpacesAreBody(x, Spaces(x));
    SpacesOfPrefix(x, n - 4, y);
    UrlTokenIs(prev', o, x[..n - 4] + y);
  }

  lemma TailOfPrefix(s: string, n: nat, y: string)
    requires 4 <= n <= |s|
    ensures (s[..n] + y)[4..] == s[4..][..n - 4] + y && forall i :: 0 <= i < 4 ==> (s[..n] + y)[i] == s[i]
  {
  }

  lemma UrlTokenIs(prev: Option<char>, o: string, body: string)
    requires OpensUrl(o) && !InName(prev) && body == o[4..] && !QuoteFollows(body)
    ensures UrlToken(prev, o) == Some(4 + UrlBody(body))
  {
  }

  lemma {:induction false} SpacesOfPrefix(x: string, m: nat, y: string)
    requires m <= |x| && (Spaces(x) < m || (m == |x| && y == []))
    ensures Spaces(x[..m] + y) == Spaces(x)
  {
    if m == |x| && y == [] {
      assert x[..m] + y == x;
    } else if Spaces(x) > 0 {
      assert (x[..m] + y)[1..] == x[1..][..m - 1] + y;
      SpacesOfPrefix(x[1..], m - 1, y);
    }
  }

  /** Outside quotes, the first character survives stripping unless it opens a comment. */
  lemma StripHead(prev: Option<char>, s: string)
    requires s != []
    ensures Strip(prev, s, None) != []
    ensures Strip(prev, s, None)[0] == if OpensComment(s) then ' ' else s[0]
  {
  }

  lemma StripPlainHead(prev: Option<char>, s: string)
    requires s != [] && !IsQuote(s[0]) && s[0] != '/' && LowerCase(s[0]) != 'u'
    ensures Strip(prev, s, None) == [s[0]] + Strip(Some(s[0]), s[1..], None)
  {
  }

  lemma {:induction false} QuoteStays(prev: Option<char>, x: string)
    requires QuoteFollows(x)
    ensures QuoteFollows(Strip(prev, x, None))
    decreases |x|
  {
    if Spaces(x) > 0 {
      StripPlainHead(prev, x);
      QuoteStays(Some(x[0]), x[1..]);
    } else {
      StripHead(prev, x);
    }
  }

  /** A letter or parenthesis at the head of a stripped text was at the head of the text. */
  lemma AfterLetter(prev: Option<char>, s: string, o: string) returns (rest: string, o': string)
    requires o == Strip(prev, s, None) && o != [] && LowerCase(o[0]) in ['r', 'l', '(']
    ensures s != [] && s[0] == o[0] && rest == s[1..] && o' == o[1..] && o' == Strip(Some(o[0]), rest, None)
  {
    StripHead(prev, s);
    StripPlainHead(prev, s);
    rest := s[1..];
    o' := Strip(Some(s[0]), rest, None);
  }

  /** Stripping what follows a character cannot make a url start there. */
  lemma NoNewUrl(c: char, s: string, o: string)
    requires o == Strip(Some(c), s, None) && OpensUrl([c] + o)
    ensures OpensUrl([c] + s) && o[3..] == Strip(Some('('), s[3..], None)
  {
    assert ([c] + o)[1] == o[0] && ([c] + o)[2] == o[1] && ([c] + o)[3] == o[2];
    var s1, o1 := AfterLetter(Some(c), s, o);
    assert o1[0] == o[1];
    var s2, o2 := AfterLetter(Some(o[0]), s1, o1);
    assert o2[0] == o1[1] == o[2];
    var s3, o3 := AfterLetter(Some(o1[0]), s2, o2);
    ThreeHeads(s, s1, s2, s3);
    ThreeHeads(o, o1, o2, o3);
  }

  lemma ThreeHeads(s: string, s1: string, s2: string, s3: string)
    requires |s| > 0 && |s1| > 0 && |s2| > 0 && s1 == s[1..] && s2 == s1[1..] && s3 == s2[1..]
    ensures |s| >= 3 && s[1] == s1[0] && s[2] == s2[0] && s[3..] == s3
  {
  }

  /** Where no url starts, none starts after stripping either. */
  lemma UrlStaysOut(prev: Option<char>, prev': Option<char>, c: char, tail: string)
    requires InName(prev) == InName(prev') && UrlToken(prev, [c] + tail).None?
    ensures UrlToken(prev', [c] + Strip(Some(c), tail, None)).None?
  {
    var o := Strip(Some(c), tail, None);
    if OpensUrl([c] + o) {
      NoNewUrl(c, tail, o);
      assert ([c] + tail)[4..] == tail[3..] && ([c] + o)[4..] == o[3..];
      if QuoteFollows(tail[3..]) {
        QuoteStays(Some('('), tail[3..]);
      }
    }
  }

  /** A plain character is a plain character again after stripping. */
  lemma PlainStaysPlain(prev: Option<char>, prev': Option<char>, c: char, tail: string)
    requires InName(prev) == InName(prev') && Lex(true, prev, [c] + tail, None).kind == Plain
    ensures Lex(true, prev', [c] + Strip(Some(c), tail, None), None) == Token(Plain, 1, None)
  {
    UrlStaysOut(prev, prev', c, tail);
    if c == '/' && tail != [] {
      StripHead(Some(c), tail);
      assert ([c] + tail)[1] == tail[0];
    }
  }

  /** Every token but a comment is found again, whole, in the stripped text. */
  lemma TokenStays(prev: Option<char>, prev': Option<char>, s: string, quote: Option<char>)
    requires s != [] && InName(prev) == InName(prev') && Lex(true, prev, s, quote).kind != Comment
    ensures var t := Lex(true, prev, s, quote);
            var rest := Strip(Some(s[t.length - 1]), s[t.length..], t.quote);
            Lex(true, prev', s[..t.length] + rest, quote) == t
  {
    var t := Lex(true, prev, s, quote);
    var rest := Strip(Some(s[t.length - 1]), s[t.length..], t.quote);
    if t.kind == Plain {
      PlainTokenStays(prev, prev', s, rest);
    } else if t.kind == Url {
      UrlTokenOfPrefix(prev, prev', s, rest);
    }
  }

  lemma PlainTokenStays(prev: Option<char>, prev': Option<char>, s: string, rest: string)
    requires s != [] && InName(prev) == InName(prev') && Lex(true, prev, s, None).kind == Plain
    requires rest == Strip(Some(s[0]), s[1..], None)
    ensures Lex(true, prev', s[..1] + rest, None) == Token(Plain, 1, None)
  {
    assert s == [s[0]] + s[1..];
    PlainStaysPlain(prev, prev', s[0], s[1..]);
    assert s[..1] + rest == [s[0]] + rest;
  }

  lemma CommentFreeStep(prev: Option<char>, o: string, quote: Option<char>, t: Token, last: Option<char>, rest: string)
    requires o != [] && Lex(true, prev, o, quote) == t && t.kind != Comment
    requires last == Some(o[t.length - 1]) && rest == o[t.length..] && CommentFree(last, rest, t.quote)
    ensures CommentFree(prev, o, quote)
  {
  }

  /** The result of stripping holds no comment, whatever comparable character precedes it. */
  lemma {:induction false} StrippedIsCommentFree(prev: Option<char>, prev': Option<char>, s: string, quote: Option<char>)
    requires InName(prev) == InName(prev')
    ensures CommentFree(prev', Strip(prev, s, quote), quote)
    decreases |s|
  {
    if s != [] {
      var t := Lex(true, prev, s, quote);
      var last, tail := Some(s[t.length - 1]), s[t.length..];
      if t.kind != Comment {
        StrippedIsCommentFree(last, last, tail, t.quote);
      } else if tail != [] {
        CommentEndsOutsideName(prev, s, quote);
        StrippedIsCommentFree(last, Some(' '), tail, t.quote);
      }
      FirstTokenStaysFree(prev, prev', s, quote, t, last, tail);
    }
  }

  lemma FirstTokenStaysFree(prev: Option<char>, prev': Option<char>, s: string, quote: Option<char>, t: Token,
                            last: Option<char>, tail: string)
    requires s != [] && InName(prev) == InName(prev') && t == Lex(true, prev, s, quote)
    requires last == Some(s[t.length - 1]) && tail == s[t.length..]
    requires (t.kind == Comment && tail == [])
             || CommentFree(if t.kind == Comment then Some(' ') else last, Strip(last, tail, t.quote), t.quote)
    ensures CommentFree(prev', Strip(prev, s, quote), quote)
  {
    var rest := Strip(last, tail, t.quote);
    StripFirst(prev, s, quote, t, last, tail);
    if t.kind == Comment {
      SpaceStaysFree(prev', rest);
    } else {
      TokenStays(prev, prev', s, quote);
      CommentFreeStep(prev', s[..t.length] + rest, quote, t, last, rest);
    }
  }

  lemma StripFirst(prev: Option<char>, s: string, quote: Option<char>, t: Token, last: Option<char>, tail: string)
    requires s != [] && t == Lex(true, prev, s, quote) && last == Some(s[t.length - 1]) && tail == s[t.length..]
    ensures Strip(prev, s, quote) == (if t.kind == Comment then " " else s[..t.length]) + Strip(last, tail, t.quote)
    ensures tail == [] ==> Strip(last, tail, t.quote) == []
    ensures t.kind == Comment ==> quote.None? && t.quote.None?
  {
  }

  lemma SpaceStaysFree(prev: Option<char>, rest: string)
    requires rest == [] || CommentFree(Some(' '), rest, None)
    ensures CommentFree(prev, " " + rest, None)
  {
    assert (" " + rest)[1..] == rest;
    CommentFreeStep(prev, " " + rest, None, Token(Plain, 1, None), Some(' '), rest);
  }

  lemma CommentEndsOutsideName(prev: Option<char>, s: string, quote: Option<char>)
    requires s != [] && Lex(true, prev, s, quote).kind == Comment && Lex(true, prev, s, quote).length < |s|
    ensures !InName(Some(s[Lex(true, prev, s, quote).length - 1]))
  {
    var t := Lex(true, prev, s, quote);
    assert s[2..][t.length - 4 + 1] == s[t.length - 1];
  }

  /** Stripping comments is idempotent on every string. */
  lemma StripIsIdempotent(css: string)
    ensures Stripped(Stripped(css)) == Stripped(css)
  {
    StrippedIsCommentFree(None, None, css, None);
    StripKeepsCommentFree(None, Stripped(css), None);
  }
}
