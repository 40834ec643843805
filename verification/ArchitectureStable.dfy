/** Every accepted diagram can be printed, so printing and parsing again changes nothing. */
module ArchitectureStable {
  import opened Common
  import opened Architecture
  import opened ArchitectureText

  // ---------------------------------------------------------------- text

  lemma {:induction false} StripRightKeeps(s: string)
    ensures StripRight(s) <= s && (StripRight(s) != [] ==> !IsSpace(StripRight(s)[|StripRight(s)| - 1]))
  {
    if s != [] && IsSpace(s[|s| - 1]) {
      StripRightKeeps(s[..|s| - 1]);
    }
  }

  lemma {:induction false} StripLeftKeeps(s: string) returns (n: nat)
    ensures n <= |s| && StripLeft(s) == s[n..] && (StripLeft(s) != [] ==> !IsSpace(StripLeft(s)[0]))
  {
    n := 0;
    if s != [] && IsSpace(s[0]) {
      var m := StripLeftKeeps(s[1..]);
      n := m + 1;
    }
  }

  /** Stripping cuts a clean piece out of the text. */
  lemma StripCuts(s: string) returns (n: nat, m: nat)
    ensures n <= m <= |s| && Strip(s) == s[n..m] && Clean(Strip(s))
  {
    n := StripLeftKeeps(s);
    StripRightKeeps(s[n..]);
    m := n + |Strip(s)|;
  }

  predicate OccursAt(s: string, pattern: string, i: nat)
  {
    i + |pattern| <= |s| && s[i..i + |pattern|] == pattern
  }

  lemma {:induction false} FindIsFirst(s: string, pattern: string, i: nat)
    requires pattern != [] && i < Find(s, pattern)
    ensures !OccursAt(s, pattern, i)
  {
    if i > 0 {
      FindIsFirst(s[1..], pattern, i - 1);
      if i + |pattern| <= |s| {
        assert s[1..][i - 1..i - 1 + |pattern|] == s[i..i + |pattern|];
      }
    }
  }

  lemma {:induction false} FindsNothing(s: string, pattern: string)
    requires pattern != [] && forall i: nat :: !OccursAt(s, pattern, i)
    ensures Find(s, pattern) == |s|
  {
    if s != [] {
      assert !OccursAt(s, pattern, 0);
      forall i: nat ensures !OccursAt(s[1..], pattern, i) {
        assert !OccursAt(s, pattern, i + 1);
        if i + |pattern| <= |s| - 1 {
          assert s[1..][i..i + |pattern|] == s[i + 1..i + 1 + |pattern|];
        }
      }
      FindsNothing(s[1..], pattern);
    }
  }

  lemma SliceOfSlice(s: string, n: nat, m: nat, i: nat, j: nat)
    requires n <= m <= |s| && i <= j <= m - n
    ensures s[n..m][i..j] == s[n + i..n + j]
  {
    var x, y := s[n..m][i..j], s[n + i..n + j];
    assert forall k :: 0 <= k < j - i ==> x[k] == s[n..m][i + k] == s[n + (i + k)] == y[k];
  }

  /** No piece of the text before the first break contains a break. */
  lemma PieceHasNoBreak(s: string, pattern: string, n: nat, m: nat)
    requires pattern != [] && n <= m <= Find(s, pattern)
    ensures Find(s[n..m], pattern) == |s[n..m]|
  {
    var piece := s[n..m];
    forall i: nat ensures !OccursAt(piece, pattern, i) {
      if i + |pattern| <= |piece| {
        FindIsFirst(s, pattern, n + i);
        SliceOfSlice(s, n, m, i, i + |pattern|);
      }
    }
    FindsNothing(piece, pattern);
  }

  lemma FreeBefore(s: string, c: char)
    ensures Free(s[..Find(s, [c])], c)
  {
    forall i | 0 <= i < Find(s, [c]) ensures s[i] != c {
      FindIsFirst(s, [c], i);
      assert s[i..i + 1] == [s[i]];
    }
  }

  lemma {:induction false} PartsAreFree(s: string)
    ensures forall i :: 0 <= i < |SplitOn(s, ",")| ==> Free(SplitOn(s, ",")[i], ',')
    decreases |s|
  {
    FreeBefore(s, ',');
    var i := Find(s, ",");
    if i == |s| {
      assert s[..i] == s;
    } else {
      PartsAreFree(s[i + 1..]);
    }
  }

  lemma StrippedIsFree(s: string, c: char)
    requires Free(s, c)
    ensures Free(Strip(s), c)
  {
    var n, m := StripCuts(s);
  }

  lemma ValueOfPart(part: string)
    requires Free(part, ',')
    ensures var value := Strip(OrEmpty(Partition(part, ":").1)); Clean(value) && Free(value, ',')
  {
    var value := OrEmpty(Partition(part, ":").1);
    assert Free(value, ',');
    StrippedIsFree(value, ',');
    var n, m := StripCuts(value);
  }

  lemma {:induction false} StyleValueIsPrintable(parts: seq<string>, key: string)
    requires forall i :: 0 <= i < |parts| ==> Free(parts[i], ',')
    ensures var v := StyleValue(parts, key); v.Some? ==> Clean(v.value) && Free(v.value, ',')
    decreases |parts|
  {
    if parts != [] {
      ValueOfPart(parts[0]);
      StyleValueIsPrintable(parts[1..], key);
    }
  }

  lemma StatusIsPrintable(name: string, style: string)
    requires ParseStatus(name, style).Some?
    ensures PrintableStatus(ParseStatus(name, style).value)
  {
    var parts := SplitOn(style, ",");
    PartsAreFree(style);
    StyleValueIsPrintable(parts, "fill");
    StyleValueIsPrintable(parts, "stroke");
    StyleValueIsPrintable(parts, "color");
  }

  /** Printable, but for a detail that may be missing. */
  predicate ReadableNode(n: Node, layer: string)
  {
    Clean(n.title) && Find(n.title, "<br/>") == |n.title| && Clean(n.detail) && n.layer == layer
  }

  lemma NodeIsReadable(line: Line, layer: string)
    requires line.NodeLine? && ParseNode(line, layer).Some?
    ensures ReadableNode(ParseNode(line, layer).value, layer)
  {
    var (title, detail) := Partition(line.caption, "<br/>");
    var n, m := StripCuts(title);
    assert title == line.caption[..Find(line.caption, "<br/>")];
    assert title[n..m] == line.caption[n..m];
    PieceHasNoBreak(line.caption, "<br/>", n, m);
    n, m := StripCuts(OrEmpty(detail));
  }

  // ---------------------------------------------------------------- parsed diagrams

  ghost predicate ReadableLayer(l: Layer)
  {
    forall i :: 0 <= i < |l.nodes| ==> ReadableNode(l.nodes[i], l.identifier)
  }

  ghost predicate ReadableBuilder(b: Builder)
  {
    && (forall i :: 0 <= i < |b.statuses| ==> PrintableStatus(b.statuses[i]))
    && (forall i :: 0 <= i < |b.layers| ==> ReadableLayer(b.layers[i]) && b.layers[i].nodes != [])
    && (b.open.Some? ==> ReadableLayer(b.open.value))
  }

  lemma LineKeepsReadable(b: Builder, line: Line)
    requires ReadableBuilder(b) && ReadLine(b, line).Ok?
    ensures ReadableBuilder(ReadLine(b, line).value)
  {
    match line
    case ClassDef(name, style) => StatusIsPrintable(name, style);
    case NodeLine(_, _, _, _) => NodeIsReadable(line, b.open.value.identifier);
    case _ =>
  }

  lemma {:induction false} LinesKeepReadable(b: Builder, lines: seq<Line>)
    requires ReadableBuilder(b) && ReadLines(b, lines).Ok?
    ensures ReadableBuilder(ReadLines(b, lines).value)
    decreases |lines|
  {
    if lines != [] {
      LineKeepsReadable(b, lines[0]);
      LinesKeepReadable(ReadLine(b, lines[0]).value, lines[1..]);
    }
  }

  lemma {:induction false} NodesOfHolds(layers: seq<Layer>, i: nat, n: Node)
    requires i < |layers| && n in layers[i].nodes
    ensures n in NodesOf(layers)
    decreases |layers|
  {
    if i < |layers| - 1 {
      NodesOfHolds(layers[..|layers| - 1], i, n);
    }
  }

  lemma GatheredIsReadable(lines: seq<Line>, d: Diagram)
    requires Gather(lines) == Ok(d)
    ensures forall i :: 0 <= i < |d.statuses| ==> PrintableStatus(d.statuses[i])
    ensures forall i :: 0 <= i < |d.layers| ==> ReadableLayer(d.layers[i]) && d.layers[i].nodes != []
  {
    LinesKeepReadable(NOTHING, lines[1..]);
  }

  lemma LayerIsPrintable(d: Diagram, i: nat)
    requires i < |d.layers| && ReadableLayer(d.layers[i]) && d.layers[i].nodes != []
    requires NodesValid(NodesOf(d.layers), Names(d.statuses))
    ensures PrintableLayer(d.layers[i])
  {
    var l := d.layers[i];
    forall k | 0 <= k < |l.nodes| ensures PrintableNode(l.nodes[k], l.identifier) {
      NodesOfHolds(d.layers, i, l.nodes[k]);
      assert ReadableNode(l.nodes[k], l.identifier);
    }
  }

  /** Printing an accepted diagram and parsing it again gives the same diagram. */
  lemma AcceptedDiagramIsStable(lines: seq<Line>, d: Diagram)
    requires Gather(lines) == Ok(d) && Valid(d)
    ensures Printable(d) && Gather(Print(d)) == Ok(d)
  {
    GatheredIsReadable(lines, d);
    forall i | 0 <= i < |d.layers| ensures PrintableLayer(d.layers[i]) {
      LayerIsPrintable(d, i);
    }
    PrintedDiagramParses(d);
  }
}
