/** Style text given by its parts: what the scanners make of it, said without any scanner. */
module CssGrammar {
  import opened Common
  import opened JsText
  import opened CssScanner
  import opened CssImportant

  // ---------------------------------------------------------------- parts

  /** A character of its own, a string, a comment, or an unquoted url; what is not closed runs to the end. */
  datatype Part =
    | Letter(c: char)
    | StringPart(mark: char, body: string, closed: bool)
    | Remark(body: string, closed: bool)
    | Address(opening: string, body: string, closed: bool)

  const URL_OPENINGS := {"url(", "urL(", "uRl(", "uRL(", "Url(", "UrL(", "URl(", "URL("}

  function Source(p: Part): (s: string)
  {
    match p
    case Letter(c) => [c]
    case StringPart(mark, body, closed) => [mark] + body + if closed then [mark] else []
    case Remark(body, closed) => "/*" + body + if closed then "*/" else ""
    case Address(opening, body, closed) => opening + body + if closed then ")" else ""
  }

  /** A comment leaves one space, everything else stays as it is. */
  function Kept(p: Part): string
  {
    if p.Remark? then " " else Source(p)
  }

  function SourceOf(ps: seq<Part>): string
  {
    if ps == [] then [] else Source(ps[0]) + SourceOf(ps[1..])
  }

  function KeptOf(ps: seq<Part>): string
  {
    if ps == [] then [] else Kept(ps[0]) + KeptOf(ps[1..])
  }

  /** Characters other than `stop`, and pairs of a backslash and any character; a lone backslash may end an open one. */
  predicate Units(body: string, stop: char, open: bool)
  {
    if body == [] then true
    else if body[0] == '\\' then (if |body| == 1 then open else Units(body[2..], stop, open))
    else body[0] != stop && Units(body[1..], stop, open)
  }

  /** Letters, digits, underscore and hyphen, by their codes. */
  predicate NameCode(prev: Option<char>)
  {
    prev.Some? && var n := prev.value as int;
                  97 <= n <= 122 || 65 <= n <= 90 || 48 <= n <= 57 || n == 95 || n == 45
  }

  /** Behind white space comes a quotation mark. */
  ghost predicate QuoteAhead(s: string)
  {
    exists k :: 0 <= k < |s| && (s[k] == '"' || s[k] == '\'') && forall i :: 0 <= i < k ==> IsSpace(s[i])
  }

  ghost predicate UrlAhead(prev: Option<char>, s: string)
  {
    |s| >= 4 && s[..4] in URL_OPENINGS && !NameCode(prev) && !QuoteAhead(s[4..])
  }

  /** The closing mark of a comment stands nowhere in the body, nor across its end. */
  ghost predicate NoClosingMark(body: string, closed: bool)
  {
    var s := body + if closed then "*" else "";
    forall k :: 0 <= k < |s| - 1 ==> !(s[k] == '*' && s[k + 1] == '/')
  }

  /** The part can stand between `prev` and `rest`; without comments a slash and a star are two characters. */
  ghost predicate Fits(comments: bool, prev: Option<char>, p: Part, rest: string)
  {
    match p
    case Letter(c) =>
      && c != '"' && c != '\''
      && !(comments && c == '/' && rest != [] && rest[0] == '*')
      && !UrlAhead(prev, [c] + rest)
    case StringPart(mark, body, closed) =>
      (mark == '"' || mark == '\'') && Units(body, mark, !closed) && (closed || rest == [])
    case Remark(body, closed) => comments && NoClosingMark(body, closed) && (closed || rest == [])
    case Address(opening, body, closed) =>
      && opening in URL_OPENINGS && !NameCode(prev) && Units(body, ')', !closed) && (closed || rest == [])
      && !QuoteAhead(Source(p)[4..] + rest)
  }

  function LastChar(p: Part): char
  {
    match p
    case Letter(c) => c
    case _ => if Source(p) == [] then ' ' else Source(p)[|Source(p)| - 1]
  }

  ghost predicate Parts(comments: bool, prev: Option<char>, ps: seq<Part>)
    decreases |ps|
  {
    ps == []
    || (Fits(comments, prev, ps[0], SourceOf(ps[1..])) && Parts(comments, Some(LastChar(ps[0])), ps[1..]))
  }

  // ---------------------------------------------------------------- what the scanners call these things

  lemma NamesAgree(prev: Option<char>)
    ensures NameCode(prev) <==> InName(prev)
  {
  }

  lemma OpeningsAgree(s: string)
    requires |s| >= 4
    ensures OpensUrl(s) <==> s[..4] in URL_OPENINGS
  {
    var o := s[..4];
    assert o == [s[0], s[1], s[2], s[3]];
    if OpensUrl(s) {
      assert s[0] in ['u', 'U'] && s[1] in ['r', 'R'] && s[2] in ['l', 'L'];
    }
  }

  lemma QuotesAgree(s: string)
    ensures QuoteFollows(s) <==> QuoteAhead(s)
  {
    var n := Spaces(s);
    if QuoteFollows(s) {
      assert s[n] == '"' || s[n] == '\'';
    }
  }

  lemma UrlsAgree(prev: Option<char>, s: string)
    ensures UrlToken(prev, s).Some? <==> UrlAhead(prev, s)
  {
    NamesAgree(prev);
    if |s| >= 4 {
      OpeningsAgree(s);
      QuotesAgree(s[4..]);
    }
  }

  lemma {:induction false} BodyEnds(body: string, rest: string)
    requires Units(body, ')', false)
    ensures UrlBody(body + ")" + rest) == |body| + 1
    decreases |body|
  {
    var s := body + ")" + rest;
    if body != [] {
      var n := if body[0] == '\\' then 2 else 1;
      assert s[n..] == body[n..] + ")" + rest;
      BodyEnds(body[n..], rest);
    }
  }

  lemma {:induction false} OpenBodyEnds(body: string)
    requires Units(body, ')', true)
    ensures UrlBody(body) == |body|
    decreases |body|
  {
    if |body| > 1 {
      OpenBodyEnds(body[if body[0] == '\\' then 2 else 1..]);
    }
  }

  lemma {:induction false} FirstMark(body: string, rest: string)
    requires NoClosingMark(body, true)
    ensures CommentEnd(body + "*/" + rest) == Some(|body|)
    decreases |body|
  {
    var s := body + "*/" + rest;
    if body != [] {
      assert s[1..] == body[1..] + "*/" + rest;
      assert forall k :: 0 <= k < |body| ==> (body + "*")[k + 1] == (body[1..] + "*")[k];
      FirstMark(body[1..], rest);
      assert !((body + "*")[0] == '*' && (body + "*")[1] == '/');
    }
  }

  lemma {:induction false} NoMark(body: string)
    requires NoClosingMark(body, false)
    ensures CommentEnd(body) == None
    decreases |body|
  {
    if |body| >= 2 {
      assert body + "" == body && body[1..] + "" == body[1..];
      assert !(body[0] == '*' && body[1] == '/');
      NoMark(body[1..]);
    }
  }

  // ---------------------------------------------------------------- one part

  lemma LetterLexes(comments: bool, prev: Option<char>, c: char, rest: string)
    requires Fits(comments, prev, Letter(c), rest)
    ensures Lex(comments, prev, [c] + rest, None) == Token(Plain, 1, None)
  {
    UrlsAgree(prev, [c] + rest);
  }

  lemma AddressBody(p: Part, rest: string, s: string)
    requires p.Address? && |p.opening| == 4 && s == Source(p) + rest && (p.closed || rest == [])
    ensures s[..4] == p.opening && s[4..] == Source(p)[4..] + rest
    ensures s[4..] == if p.closed then p.body + ")" + rest else p.body
  {
  }

  lemma AddressLexes(comments: bool, prev: Option<char>, p: Part, rest: string)
    requires p.Address? && Fits(comments, prev, p, rest)
    ensures Lex(comments, prev, Source(p) + rest, None) == Token(Url, |Source(p)|, None)
  {
    var s := Source(p) + rest;
    AddressBody(p, rest, s);
    if p.closed {
      BodyEnds(p.body, rest);
    } else {
      OpenBodyEnds(p.body);
    }
    OpeningsAgree(s);
    UrlsAgree(prev, s);
  }

  lemma RemarkLexes(prev: Option<char>, p: Part, rest: string)
    requires p.Remark? && Fits(true, prev, p, rest)
    ensures Lex(true, prev, Source(p) + rest, None) == Token(Comment, |Source(p)|, None)
  {
    var s := Source(p) + rest;
    if p.closed {
      assert s[2..] == p.body + "*/" + rest;
      FirstMark(p.body, rest);
    } else {
      assert s[2..] == p.body;
      NoMark(p.body);
    }
  }

  // ---------------------------------------------------------------- stripping

  function LastOf(prev: Option<char>, s: string): Option<char>
  {
    if s == [] then prev else Some(s[|s| - 1])
  }

  lemma BodySlices(body: string, tail: string, n: nat)
    requires 1 <= n <= |body|
    ensures (body + tail)[..n] == body[..n] && (body + tail)[n..] == body[n..] + tail
    ensures (body + tail)[n - 1] == body[n - 1] && (body + tail)[0] == body[0]
    ensures forall x: string :: body[..n] + (body[n..] + x) == body + x
  {
  }

  lemma LastBehind(prev: Option<char>, body: string, n: nat)
    requires 1 <= n <= |body|
    ensures LastOf(Some(body[n - 1]), body[n..]) == LastOf(prev, body) && |body[n..]| == |body| - n
  {
  }

  /** How much of the body of a string is read at once. */
  function UnitLength(body: string): (n: nat)
    requires body != []
    ensures 1 <= n <= |body|
  {
    if body[0] == '\\' && |body| > 1 then 2 else 1
  }

  lemma UnitLexes(comments: bool, prev: Option<char>, body: string, mark: char, tail: string)
    requires body != [] && Units(body, mark, tail == []) && mark != '\\'
    ensures Lex(comments, prev, body + tail, Some(mark)) == Token(Quoted, UnitLength(body), Some(mark))
    ensures Units(body[UnitLength(body)..], mark, tail == [])
  {
    assert (body + tail)[0] == body[0];
  }

  lemma {:induction false} StringStrips(prev: Option<char>, body: string, mark: char, tail: string)
    requires Units(body, mark, tail == []) && mark != '\\'
    ensures Strip(prev, body + tail, Some(mark)) == body + Strip(LastOf(prev, body), tail, Some(mark))
    decreases |body|
  {
    if body == [] {
      assert body + tail == tail;
    } else {
      var n := UnitLength(body);
      var last := Some(body[n - 1]);
      UnitLexes(true, prev, body, mark, tail);
      BodySlices(body, tail, n);
      StripFirst(prev, body + tail, Some(mark), Token(Quoted, n, Some(mark)), last, body[n..] + tail);
      StringStrips(last, body[n..], mark, tail);
    }
  }

  lemma MarkStrips(prev: Option<char>, mark: char, rest: string)
    requires mark != '\\'
    ensures Strip(prev, [mark] + rest, Some(mark)) == [mark] + Strip(Some(mark), rest, None)
  {
    var s := [mark] + rest;
    assert s[1..] == rest && s[..1] == [mark];
    StripFirst(prev, s, Some(mark), Token(Quoted, 1, None), Some(mark), rest);
  }

  lemma PartStrips(prev: Option<char>, p: Part, rest: string)
    requires Fits(true, prev, p, rest)
    ensures Strip(prev, Source(p) + rest, None) == Kept(p) + Strip(Some(LastChar(p)), rest, None)
  {
    var s, n := Source(p) + rest, |Source(p)|;
    assert n > 0 ==> s[..n] == Source(p) && s[n..] == rest && s[n - 1] == LastChar(p);
    match p
    case Letter(c) =>
      LetterLexes(true, prev, c, rest);
      StripFirst(prev, s, None, Token(Plain, 1, None), Some(c), rest);
    case StringPart(mark, body, closed) => StringPartStrips(prev, p, rest);
    case Remark(body, closed) =>
      RemarkLexes(prev, p, rest);
      StripFirst(prev, s, None, Token(Comment, n, None), Some(LastChar(p)), rest);
    case Address(opening, body, closed) =>
      AddressLexes(true, prev, p, rest);
      StripFirst(prev, s, None, Token(Url, n, None), Some(LastChar(p)), rest);
  }

  /** A string in its text: the mark, and what is read inside it. */
  lemma StringSource(p: Part, rest: string, inner: string)
    requires p.StringPart? && inner == p.body + (if p.closed then [p.mark] + rest else []) && (p.closed || rest == [])
    ensures Source(p) + rest == [p.mark] + inner && (Source(p) + rest)[1..] == inner
    ensures p.closed ==> LastChar(p) == p.mark
    ensures !p.closed ==> Source(p) == [p.mark] + p.body
    ensures forall x: string :: [p.mark] + (p.body + ([p.mark] + x)) == [p.mark] + p.body + [p.mark] + x
  {
  }

  lemma StringPartStrips(prev: Option<char>, p: Part, rest: string)
    requires p.StringPart? && Fits(true, prev, p, rest)
    ensures Strip(prev, Source(p) + rest, None) == Source(p) + Strip(Some(LastChar(p)), rest, None)
  {
    var tail := if p.closed then [p.mark] + rest else [];
    var inner, mark := p.body + tail, Some(p.mark);
    StringSource(p, rest, inner);
    StripFirst(prev, Source(p) + rest, None, Token(QuoteMark, 1, mark), mark, inner);
    StringStrips(mark, p.body, p.mark, tail);
    if p.closed {
      MarkStrips(LastOf(mark, p.body), p.mark, rest);
    }
  }

  /** Of a text given by its parts, stripping keeps all but the comments, and a space for each of those. */
  lemma {:induction false} StripsParts(prev: Option<char>, ps: seq<Part>)
    requires Parts(true, prev, ps)
    ensures Strip(prev, SourceOf(ps), None) == KeptOf(ps)
    decreases |ps|
  {
    if ps != [] {
      PartStrips(prev, ps[0], SourceOf(ps[1..]));
      StripsParts(Some(LastChar(ps[0])), ps[1..]);
    }
  }

  /** A comment ends at its first closing mark, and what follows it is stripped as if it came behind a slash. */
  lemma CommentBecomesSpace(prev: Option<char>, x: string, y: string)
    requires NoClosingMark(x, true)
    ensures Strip(prev, "/*" + x + "*/" + y, None) == " " + Strip(Some('/'), y, None)
  {
    var p := Remark(x, true);
    PartStrips(prev, p, y);
    assert LastChar(p) == '/';
  }

  // ---------------------------------------------------------------- splitting

  /** How deep the parentheses are after a part; only characters of their own count. */
  function DepthBehind(p: Part, depth: nat): nat
  {
    match p
    case Letter(c) => if c == '(' then depth + 1 else if c == ')' && depth > 0 then depth - 1 else depth
    case _ => depth
  }

  /** The declarations of the parts: they end at the semicolons of their own outside parentheses. */
  function Declarations(ps: seq<Part>, depth: nat): (ds: seq<string>)
    ensures ds != []
  {
    if ps == [] then [[]]
    else
      var rest := Declarations(ps[1..], DepthBehind(ps[0], depth));
      if ps[0] == Letter(';') && depth == 0 then [[]] + rest else [Source(ps[0]) + rest[0]] + rest[1..]
  }

  /** Splitting as the scanner does it, in the middle of a declaration. */
  function PiecesFrom(prev: Option<char>, s: string, depth: nat): (ps: seq<string>)
    ensures ps != []
  {
    PiecesAt(s, Cut(prev, s, None, depth))
  }

  function PiecesAt(s: string, k: nat): (ps: seq<string>)
    requires k <= |s|
    ensures ps != []
  {
    if k == |s| then [s] else [s[..k]] + Pieces(Some(';'), s[k + 1..])
  }

  lemma {:induction false} StringCuts(prev: Option<char>, body: string, mark: char, tail: string, s: string, depth: nat)
    requires Units(body, mark, tail == []) && mark != '\\' && s == body + tail
    ensures Cut(prev, s, Some(mark), depth) == |body| + Cut(LastOf(prev, body), tail, Some(mark), depth)
    decreases |body|
  {
    if body == [] {
      assert s == tail;
    } else {
      var n := UnitLength(body);
      var last, rest := Some(body[n - 1]), body[n..] + tail;
      UnitLexes(false, prev, body, mark, tail);
      BodySlices(body, tail, n);
      LastBehind(prev, body, n);
      CutUnfolds(prev, s, Some(mark), depth, Token(Quoted, n, Some(mark)), rest, last);
      StringCuts(last, body[n..], mark, tail, rest, depth);
    }
  }

  lemma MarkCuts(prev: Option<char>, mark: char, rest: string, depth: nat)
    requires mark != '\\'
    ensures Cut(prev, [mark] + rest, Some(mark), depth) == 1 + Cut(Some(mark), rest, None, depth)
  {
    var s := [mark] + rest;
    assert s[1..] == rest;
    CutUnfolds(prev, s, Some(mark), depth, Token(Quoted, 1, None), rest, Some(mark));
  }

  lemma StringPartCuts(prev: Option<char>, p: Part, rest: string, depth: nat)
    requires p.StringPart? && Fits(false, prev, p, rest)
    ensures Cut(prev, Source(p) + rest, None, depth) == |Source(p)| + Cut(Some(LastChar(p)), rest, None, depth)
  {
    var tail := if p.closed then [p.mark] + rest else [];
    var inner, mark := p.body + tail, Some(p.mark);
    StringSource(p, rest, inner);
    CutUnfolds(prev, Source(p) + rest, None, depth, Token(QuoteMark, 1, mark), inner, mark);
    StringCuts(mark, p.body, p.mark, tail, inner, depth);
    if p.closed {
      MarkCuts(LastOf(mark, p.body), p.mark, rest, depth);
    }
  }

  lemma PartCuts(prev: Option<char>, p: Part, rest: string, s: string, depth: nat)
    requires Fits(false, prev, p, rest) && s == Source(p) + rest && !(p == Letter(';') && depth == 0)
    ensures Cut(prev, s, None, depth) == |Source(p)| + Cut(Some(LastChar(p)), rest, None, DepthBehind(p, depth))
  {
    var n := |Source(p)|;
    match p
    case Letter(c) =>
      LetterLexes(false, prev, c, rest);
      AfterPart(p, rest, s);
      CutUnfolds(prev, s, None, depth, Token(Plain, 1, None), rest, Some(c));
    case StringPart(mark, body, closed) => StringPartCuts(prev, p, rest, depth);
    case Address(opening, body, closed) =>
      AddressLexes(false, prev, p, rest);
      AfterPart(p, rest, s);
      CutUnfolds(prev, s, None, depth, Token(Url, n, None), rest, Some(LastChar(p)));
  }

  lemma AfterPart(p: Part, rest: string, s: string)
    requires s == Source(p) + rest && Source(p) != []
    ensures s[|Source(p)|..] == rest && s[|Source(p)| - 1] == LastChar(p) && s[0] == Source(p)[0]
    ensures s[..|Source(p)|] == Source(p)
  {
  }

  /** A text given by its parts is split at the semicolons of their own outside parentheses. */
  lemma {:induction false} SplitsParts(prev: Option<char>, ps: seq<Part>, depth: nat)
    requires Parts(false, prev, ps)
    ensures PiecesFrom(prev, SourceOf(ps), depth) == Declarations(ps, depth)
    decreases |ps|
  {
    if ps != [] {
      var p, rest := ps[0], SourceOf(ps[1..]);
      SplitsParts(Some(LastChar(p)), ps[1..], DepthBehind(p, depth));
      if p == Letter(';') && depth == 0 {
        SeparatorSplits(prev, rest);
      } else {
        var s, level := Source(p) + rest, DepthBehind(p, depth);
        PartCuts(prev, p, rest, s, depth);
        PartJoinsPiece(prev, Source(p), rest, s, depth, Some(LastChar(p)), level, Cut(Some(LastChar(p)), rest, None, level));
      }
    }
  }

  lemma SeparatorSplits(prev: Option<char>, rest: string)
    ensures PiecesFrom(prev, ";" + rest, 0) == [[]] + PiecesFrom(Some(';'), rest, 0)
  {
    var s := ";" + rest;
    CutsAtOnce(prev, s);
    SeparatorPieces(rest, s);
  }

  lemma SeparatorPieces(rest: string, s: string)
    requires s == ";" + rest
    ensures PiecesAt(s, 0) == [[]] + Pieces(Some(';'), rest) && Pieces(Some(';'), rest) == PiecesFrom(Some(';'), rest, 0)
  {
    assert s[1..] == rest && s[..0] == [];
  }

  lemma CutsAtOnce(prev: Option<char>, s: string)
    requires s != [] && s[0] == ';'
    ensures Cut(prev, s, None, 0) == 0
  {
  }

  lemma JoinSlices(text: string, rest: string, k: nat)
    requires k <= |rest|
    ensures (text + rest)[..|text| + k] == text + rest[..k]
    ensures k < |rest| ==> (text + rest)[|text| + k + 1..] == rest[k + 1..]
  {
  }

  lemma PiecesJoinAt(text: string, rest: string, k: nat)
    requires k <= |rest|
    ensures var ds := PiecesAt(rest, k);
            PiecesAt(text + rest, |text| + k) == [text + ds[0]] + ds[1..]
  {
    JoinSlices(text, rest, k);
  }

  lemma PartJoinsPiece(prev: Option<char>, text: string, rest: string, s: string, depth: nat, last: Option<char>,
                       level: nat, k: nat)
    requires s == text + rest && k == Cut(last, rest, None, level) && Cut(prev, s, None, depth) == |text| + k
    ensures var ds := PiecesFrom(last, rest, level);
            PiecesFrom(prev, s, depth) == [text + ds[0]] + ds[1..]
  {
    PiecesJoinAt(text, rest, k);
  }

  // ---------------------------------------------------------------- every text has parts

  /** The longest body up to `stop`, and whether that is there. */
  lemma {:induction false} TakeUnits(s: string, stop: char) returns (body: string, closed: bool)
    requires stop != '\\'
    ensures Units(body, stop, !closed)
    ensures if closed then body + [stop] <= s else body == s
    decreases |s|
  {
    if s == [] {
      body, closed := [], false;
    } else if s[0] == stop {
      body, closed := [], true;
    } else if s == ['\\'] {
      body, closed := s, false;
    } else {
      var n := if s[0] == '\\' then 2 else 1;
      var inner;
      inner, closed := TakeUnits(s[n..], stop);
      body := s[..n] + inner;
      assert body[n..] == inner;
      assert s == s[..n] + s[n..];
    }
  }

  lemma {:induction false} MarkIsFirst(s: string)
    ensures match CommentEnd(s)
            case None => NoClosingMark(s, false)
            case Some(k) => k + 2 <= |s| && NoClosingMark(s[..k], true) && s[..k] + "*/" <= s
    decreases |s|
  {
    assert s + "" == s;
    if |s| >= 2 && !(s[0] == '*' && s[1] == '/') {
      MarkIsFirst(s[1..]);
      assert s[1..] + "" == s[1..];
      match CommentEnd(s[1..])
      case None =>
        forall k | 0 <= k < |s| - 1 ensures !(s[k] == '*' && s[k + 1] == '/') {
          assert k > 0 ==> s[k] == s[1..][k - 1] && s[k + 1] == s[1..][k];
        }
      case Some(j) =>
        var b := s[..j + 1] + "*";
        assert s[1..][..j] == s[1..j + 1];
        forall k | 0 <= k < |b| - 1 ensures !(b[k] == '*' && b[k + 1] == '/') {
          assert k > 0 ==> b[k] == (s[1..][..j] + "*")[k - 1] && b[k + 1] == (s[1..][..j] + "*")[k];
        }
    }
  }

  lemma StringPartOf(comments: bool, prev: Option<char>, s: string) returns (p: Part, rest: string)
    requires s != [] && IsQuote(s[0])
    ensures Source(p) != [] && Source(p) + rest == s && Fits(comments, prev, p, rest)
  {
    var body, closed := TakeUnits(s[1..], s[0]);
    p := StringPart(s[0], body, closed);
    rest := if closed then s[1..][|body| + 1..] else [];
    assert s == [s[0]] + s[1..];
    assert s[1..] == body + (if closed then [s[0]] else []) + rest;
  }

  lemma RemarkRejoins(t: string, k: nat, rest: string)
    requires k + 2 <= |t| && t[..k] + "*/" <= t && rest == t[k + 2..]
    ensures Source(Remark(t[..k], true)) + rest == "/*" + t
  {
    assert t == t[..k] + "*/" + rest;
  }

  lemma RemarkOf(prev: Option<char>, s: string) returns (p: Part, rest: string)
    requires OpensComment(s)
    ensures Source(p) != [] && Source(p) + rest == s && Fits(true, prev, p, rest)
  {
    MarkIsFirst(s[2..]);
    assert s == "/*" + s[2..];
    match CommentEnd(s[2..])
    case None =>
      p, rest := Remark(s[2..], false), [];
    case Some(k) =>
      p, rest := Remark(s[2..][..k], true), s[2..][k + 2..];
      RemarkRejoins(s[2..], k, rest);
  }

  lemma AddressOf(comments: bool, prev: Option<char>, s: string) returns (p: Part, rest: string)
    requires UrlAhead(prev, s)
    ensures Source(p) != [] && Source(p) + rest == s && Fits(comments, prev, p, rest)
  {
    var body, closed := TakeUnits(s[4..], ')');
    p := Address(s[..4], body, closed);
    rest := if closed then s[4..][|body| + 1..] else [];
    assert s == s[..4] + s[4..];
    assert s[4..] == body + (if closed then ")" else "") + rest;
    assert Source(p)[4..] == body + if closed then ")" else "";
  }

  /** The part a text starts with. */
  lemma FirstPart(comments: bool, prev: Option<char>, s: string) returns (p: Part, rest: string)
    requires s != []
    ensures Source(p) != [] && Source(p) + rest == s && Fits(comments, prev, p, rest)
  {
    if IsQuote(s[0]) {
      p, rest := StringPartOf(comments, prev, s);
    } else if comments && OpensComment(s) {
      p, rest := RemarkOf(prev, s);
    } else if UrlAhead(prev, s) {
      p, rest := AddressOf(comments, prev, s);
    } else {
      assert s == [s[0]] + s[1..];
      p, rest := Letter(s[0]), s[1..];
    }
  }

  /** Every string is the source of some parts, with comments or without. */
  lemma {:induction false} EveryTextHasParts(comments: bool, prev: Option<char>, s: string) returns (ps: seq<Part>)
    ensures Parts(comments, prev, ps) && SourceOf(ps) == s
    decreases |s|
  {
    if s == [] {
      ps := [];
    } else {
      var p, rest := FirstPart(comments, prev, s);
      var more := EveryTextHasParts(comments, Some(LastChar(p)), rest);
      ps := [p] + more;
      assert ps[1..] == more;
    }
  }
}
