/** Printed diagrams parse back, and the order between kinds of statements does not matter. */
module ArchitectureText {
  import opened Common
  import opened Architecture

  // ---------------------------------------------------------------- printing

  predicate Clean(s: string)
  {
    s == [] || (!IsSpace(s[0]) && !IsSpace(s[|s| - 1]))
  }

  predicate Free(s: string, c: char)
  {
    forall i :: 0 <= i < |s| ==> s[i] != c
  }

  function Style(s: StatusClass): string
  {
    "fill:" + s.fill + "," + ("stroke:" + s.stroke + "," + ("color:" + s.color))
  }

  function Label(n: Node): string
  {
    n.title + "<br/>" + n.detail
  }

  function StatusLines(statuses: seq<StatusClass>): seq<Line>
  {
    if statuses == [] then [] else [ClassDef(statuses[0].name, Style(statuses[0]))] + StatusLines(statuses[1..])
  }

  function NodeLines(nodes: seq<Node>): seq<Line>
  {
    if nodes == [] then []
    else [NodeLine(nodes[0].identifier, Label(nodes[0]), nodes[0].status, nodes[0].shape)] + NodeLines(nodes[1..])
  }

  function LayerLines(layers: seq<Layer>): seq<Line>
  {
    if layers == [] then []
    else LayerText(layers[0]) + LayerLines(layers[1..])
  }

  function LayerText(l: Layer): seq<Line>
  {
    [Subgraph(l.identifier, l.title)] + NodeLines(l.nodes) + [End]
  }

  function EdgeLines(edges: seq<Edge>): seq<Line>
  {
    if edges == [] then [] else [EdgeLine(edges[0])] + EdgeLines(edges[1..])
  }

  function Print(d: Diagram): seq<Line>
  {
    [Header] + (StatusLines(d.statuses) + (LayerLines(d.layers) + EdgeLines(d.edges)))
  }

  /** Style values without commas or outer space; titles without a line break; details that are not empty. */
  predicate PrintableStatus(s: StatusClass)
  {
    Clean(s.fill) && Free(s.fill, ',') && Clean(s.stroke) && Free(s.stroke, ',') && Clean(s.color) && Free(s.color, ',')
  }

  predicate PrintableNode(n: Node, layer: string)
  {
    Clean(n.title) && Find(n.title, "<br/>") == |n.title| && Clean(n.detail) && n.detail != [] && n.layer == layer
  }

  predicate PrintableLayer(l: Layer)
  {
    l.nodes != [] && forall i :: 0 <= i < |l.nodes| ==> PrintableNode(l.nodes[i], l.identifier)
  }

  predicate Printable(d: Diagram)
  {
    && (forall i :: 0 <= i < |d.statuses| ==> PrintableStatus(d.statuses[i]))
    && (forall i :: 0 <= i < |d.layers| ==> PrintableLayer(d.layers[i]))
  }

  // ---------------------------------------------------------------- finding and splitting

  lemma CleanStrips(s: string)
    requires Clean(s)
    ensures Strip(s) == s
  {
  }

  lemma {:induction false} FindChar(a: string, c: char, rest: string)
    requires Free(a, c) && (rest == [] || rest[0] == c)
    ensures Find(a + rest, [c]) == |a|
    decreases |a|
  {
    if a == [] {
      assert a + rest == rest;
      assert rest != [] ==> rest[..1] == [c];
    } else {
      assert (a + rest)[1..] == a[1..] + rest && (a + rest)[..1] == [a[0]];
      FindChar(a[1..], c, rest);
    }
  }

  lemma SplitNext(a: string, rest: string)
    requires Free(a, ',')
    ensures SplitOn(a + ",", ",") == [a] + SplitOn([], ",")
    ensures SplitOn(a + "," + rest, ",") == [a] + SplitOn(rest, ",")
    ensures SplitOn(a, ",") == [a]
  {
    FindChar(a, ',', []);
    assert a + [] == a;
    FindChar(a, ',', "," + rest);
    assert a + "," + rest == a + ("," + rest);
    assert (a + "," + rest)[..|a|] == a && (a + "," + rest)[|a| + 1..] == rest;
    FindChar(a, ',', ",");
    assert (a + ",")[..|a|] == a && (a + ",")[|a| + 1..] == [];
  }

  lemma PartitionAt(name: string, value: string)
    requires Free(name, ':')
    ensures Partition(name + ":" + value, ":") == (name, Some(value))
  {
    var s := name + ":" + value;
    FindChar(name, ':', ":" + value);
    assert s == name + (":" + value);
    assert s[..|name|] == name && s[|name| + 1..] == value;
  }

  lemma StyleKeys()
    ensures Free("fill", ':') && Free("stroke", ':') && Free("color", ':')
    ensures Free("fill", ',') && Free("stroke", ',') && Free("color", ',')
    ensures Clean("fill") && Clean("stroke") && Clean("color")
    ensures "fill" != "stroke" && "stroke" != "color" && "fill" != "color"
  {
    assert |"fill"| == 4 && |"stroke"| == 6 && |"color"| == 5;
  }

  lemma StyleHead(key: string, value: string, rest: seq<string>, other: string)
    requires Free(key, ':') && Clean(key) && Clean(value)
    ensures StyleValue([key + ":" + value] + rest, key) == Some(value)
    ensures other != key ==> StyleValue([key + ":" + value] + rest, other) == StyleValue(rest, other)
  {
    PartitionAt(key, value);
    CleanStrips(key);
    CleanStrips(value);
    assert ([key + ":" + value] + rest)[1..] == rest;
  }

  lemma StyleParts(s: StatusClass)
    requires PrintableStatus(s)
    ensures SplitOn(Style(s), ",")
            == ["fill" + ":" + s.fill] + (["stroke" + ":" + s.stroke] + (["color" + ":" + s.color] + []))
  {
    StyleKeys();
    assert "fill:" == "fill" + ":" && "stroke:" == "stroke" + ":" && "color:" == "color" + ":";
    var a, b, c := "fill:" + s.fill, "stroke:" + s.stroke, "color:" + s.color;
    assert Free(a, ',') && Free(b, ',') && Free(c, ',');
    SplitNext(a, b + "," + c);
    SplitNext(b, c);
    SplitNext(c, []);
  }

  lemma StatusParses(s: StatusClass)
    requires PrintableStatus(s)
    ensures ParseStatus(s.name, Style(s)) == Some(s)
  {
    StyleParts(s);
    StyleKeys();
    var c := ["color" + ":" + s.color] + [];
    var b := ["stroke" + ":" + s.stroke] + c;
    StyleHead("fill", s.fill, b, "stroke");
    StyleHead("fill", s.fill, b, "color");
    StyleHead("stroke", s.stroke, c, "color");
    StyleHead("color", s.color, [], "fill");
  }

  /** A line break in front of the detail is the first, because it cannot overlap the title. */
  lemma {:induction false} FindBreak(title: string, detail: string)
    requires Find(title, "<br/>") == |title|
    ensures Find(title + ("<br/>" + detail), "<br/>") == |title|
    decreases |title|
  {
    var s := title + ("<br/>" + detail);
    if title == [] {
      assert s == "<br/>" + detail;
      assert s[..5] == "<br/>";
    } else {
      assert s[1..] == title[1..] + ("<br/>" + detail);
      BreakNotHere(title, detail, s);
      FindBreak(title[1..], detail);
    }
  }

  lemma BreakNotHere(title: string, detail: string, s: string)
    requires title != [] && s == title + ("<br/>" + detail) && Find(title, "<br/>") == |title|
    ensures s[..5] != "<br/>"
  {
    if |title| >= 5 {
      assert s[..5] == title[..5];
    } else {
      assert s[..5][|title|] == "<br/>"[0] == '<';
    }
  }

  lemma NodeParses(n: Node, layer: string)
    requires PrintableNode(n, layer)
    ensures ParseNode(NodeLine(n.identifier, Label(n), n.status, n.shape), layer) == Some(n)
  {
    FindBreak(n.title, n.detail);
    var s := Label(n);
    assert s == n.title + ("<br/>" + n.detail);
    assert s[..|n.title|] == n.title && s[|n.title| + 5..] == n.detail;
    CleanStrips(n.title);
    CleanStrips(n.detail);
  }

  // ---------------------------------------------------------------- reading printed lines

  lemma {:induction false} ReadConcat(b: Builder, x: seq<Line>, y: seq<Line>)
    ensures ReadLines(b, x + y)
            == match ReadLines(b, x) case Err(e) => Err(e) case Ok(next) => ReadLines(next, y)
    decreases |x|
  {
    if x == [] {
      assert x + y == y;
    } else {
      assert (x + y)[1..] == x[1..] + y;
      if ReadLine(b, x[0]).Ok? {
        ReadConcat(ReadLine(b, x[0]).value, x[1..], y);
      }
    }
  }

  lemma ReadFirst(b: Builder, line: Line, rest: seq<Line>, next: Builder, last: Result<Builder, Error>)
    requires ReadLine(b, line) == Ok(next) && ReadLines(next, rest) == last
    ensures ReadLines(b, [line] + rest) == last
  {
    assert ([line] + rest)[1..] == rest;
  }

  lemma ReadOne(b: Builder, line: Line)
    ensures ReadLines(b, [line]) == ReadLine(b, line)
  {
    assert [line][1..] == [];
  }

  lemma StatusReads(b: Builder, s: StatusClass, next: Builder)
    requires b.open.None? && PrintableStatus(s) && next == b.(statuses := b.statuses + [s])
    ensures ReadLine(b, ClassDef(s.name, Style(s))) == Ok(next)
  {
    StatusParses(s);
  }

  lemma {:induction false} StatusesRead(b: Builder, statuses: seq<StatusClass>, lines: seq<Line>, last: Builder)
    requires b.open.None? && forall i :: 0 <= i < |statuses| ==> PrintableStatus(statuses[i])
    requires lines == StatusLines(statuses) && last == b.(statuses := b.statuses + statuses)
    ensures ReadLines(b, lines) == Ok(last)
    decreases |statuses|
  {
    if statuses == [] {
      assert b.statuses + [] == b.statuses;
    } else {
      var next, rest := b.(statuses := b.statuses + [statuses[0]]), StatusLines(statuses[1..]);
      assert next.statuses + statuses[1..] == b.statuses + statuses;
      StatusesRead(next, statuses[1..], rest, last);
      StatusReads(b, statuses[0], next);
      ReadFirst(b, ClassDef(statuses[0].name, Style(statuses[0])), rest, next, Ok(last));
    }
  }

  lemma NodeReads(b: Builder, n: Node, next: Builder)
    requires b.open.Some? && PrintableNode(n, b.open.value.identifier)
    requires next == b.(open := Some(b.open.value.(nodes := b.open.value.nodes + [n])))
    ensures ReadLine(b, NodeLine(n.identifier, Label(n), n.status, n.shape)) == Ok(next)
  {
    NodeParses(n, b.open.value.identifier);
    NodeLineReads(b, NodeLine(n.identifier, Label(n), n.status, n.shape), n, next);
  }

  lemma NodeLineReads(b: Builder, line: Line, n: Node, next: Builder)
    requires b.open.Some? && line.NodeLine? && ParseNode(line, b.open.value.identifier) == Some(n)
    requires next == b.(open := Some(b.open.value.(nodes := b.open.value.nodes + [n])))
    ensures ReadLine(b, line) == Ok(next)
  {
  }

  lemma {:induction false} NodesRead(b: Builder, nodes: seq<Node>, lines: seq<Line>, last: Builder)
    requires b.open.Some? && forall i :: 0 <= i < |nodes| ==> PrintableNode(nodes[i], b.open.value.identifier)
    requires lines == NodeLines(nodes) && last == b.(open := Some(b.open.value.(nodes := b.open.value.nodes + nodes)))
    ensures ReadLines(b, lines) == Ok(last)
    decreases |nodes|
  {
    var layer := b.open.value;
    if nodes == [] {
      assert layer.nodes + [] == layer.nodes;
    } else {
      var n, rest := nodes[0], NodeLines(nodes[1..]);
      var next := b.(open := Some(layer.(nodes := layer.nodes + [n])));
      assert (layer.nodes + [n]) + nodes[1..] == layer.nodes + nodes;
      NodesRead(next, nodes[1..], rest, last);
      NodeReads(b, n, next);
      ReadFirst(b, NodeLine(n.identifier, Label(n), n.status, n.shape), rest, next, Ok(last));
    }
  }

  lemma LayerReads(b: Builder, l: Layer)
    requires b.open.None? && PrintableLayer(l)
    ensures ReadLines(b, LayerText(l)) == Ok(b.(layers := b.layers + [l]))
  {
    var begun := b.(open := Some(Layer(l.identifier, l.title, [])));
    var body := NodeLines(l.nodes);
    assert [] + l.nodes == l.nodes;
    var full := begun.(open := Some(l));
    NodesRead(begun, l.nodes, body, full);
    ReadOne(full, End);
    var last: Result<Builder, Error> := Ok(b.(layers := b.layers + [l]));
    ReadPart(begun, body, [End], full, last);
    ReadFirst(b, Subgraph(l.identifier, l.title), body + [End], begun, last);
    assert [Subgraph(l.identifier, l.title)] + (body + [End]) == LayerText(l);
  }

  lemma ReadPart(b: Builder, part: seq<Line>, rest: seq<Line>, next: Builder, last: Result<Builder, Error>)
    requires ReadLines(b, part) == Ok(next) && ReadLines(next, rest) == last
    ensures ReadLines(b, part + rest) == last
  {
    ReadConcat(b, part, rest);
  }

  lemma {:induction false} LayersRead(b: Builder, layers: seq<Layer>, lines: seq<Line>, last: Builder)
    requires b.open.None? && forall i :: 0 <= i < |layers| ==> PrintableLayer(layers[i])
    requires lines == LayerLines(layers) && last == b.(layers := b.layers + layers)
    ensures ReadLines(b, lines) == Ok(last)
    decreases |layers|
  {
    if layers == [] {
      assert b.layers + [] == b.layers;
    } else {
      var next, rest := b.(layers := b.layers + [layers[0]]), LayerLines(layers[1..]);
      assert next.layers + layers[1..] == b.layers + layers;
      LayersRead(next, layers[1..], rest, last);
      LayerReads(b, layers[0]);
      ReadPart(b, LayerText(layers[0]), rest, next, Ok(last));
    }
  }

  lemma {:induction false} EdgesRead(b: Builder, edges: seq<Edge>, lines: seq<Line>, last: Builder)
    requires b.open.None? && lines == EdgeLines(edges) && last == b.(edges := b.edges + edges)
    ensures ReadLines(b, lines) == Ok(last)
    decreases |edges|
  {
    if edges == [] {
      assert b.edges + [] == b.edges;
    } else {
      var next, rest := b.(edges := b.edges + [edges[0]]), EdgeLines(edges[1..]);
      assert next.edges + edges[1..] == b.edges + edges;
      EdgesRead(next, edges[1..], rest, last);
      ReadFirst(b, EdgeLine(edges[0]), rest, next, Ok(last));
    }
  }

  /** Gathering the printed statements of a diagram gives the diagram back. */
  lemma PrintedDiagramParses(d: Diagram)
    requires Printable(d)
    ensures Gather(Print(d)) == Ok(d)
  {
    var lines := Print(d);
    assert lines[1..] == StatusLines(d.statuses) + (LayerLines(d.layers) + EdgeLines(d.edges));
    var b1 := NOTHING.(statuses := d.statuses);
    var b2 := b1.(layers := d.layers);
    assert [] + d.statuses == d.statuses && [] + d.layers == d.layers && [] + d.edges == d.edges;
    StatusesRead(NOTHING, d.statuses, StatusLines(d.statuses), b1);
    LayersRead(b1, d.layers, LayerLines(d.layers), b2);
    EdgesRead(b2, d.edges, EdgeLines(d.edges), b2.(edges := d.edges));
    ReadConcat(NOTHING, StatusLines(d.statuses), LayerLines(d.layers) + EdgeLines(d.edges));
    ReadConcat(b1, LayerLines(d.layers), EdgeLines(d.edges));
  }

  // ---------------------------------------------------------------- interleavings

  /** A statement or a whole layer block, as written. */
  datatype Block =
    | ClassBlock(name: string, style: string)
    | LayerBlock(id: string, title: string, nodes: seq<Line>)
    | EdgeBlock(edge: Edge)
    | BlankBlock

  predicate WellFormed(x: Block)
  {
    x.LayerBlock? ==> forall i :: 0 <= i < |x.nodes| ==> x.nodes[i].NodeLine? || x.nodes[i].Blank?
  }

  function LinesOf(x: Block): seq<Line>
  {
    match x
    case ClassBlock(name, style) => [ClassDef(name, style)]
    case LayerBlock(id, title, nodes) => [Subgraph(id, title)] + nodes + [End]
    case EdgeBlock(edge) => [EdgeLine(edge)]
    case BlankBlock => [Blank]
  }

  function AllLines(blocks: seq<Block>): seq<Line>
  {
    if blocks == [] then [] else LinesOf(blocks[0]) + AllLines(blocks[1..])
  }

  /** What a block adds to a builder, if it reads at all. */
  function Contribution(x: Block): Result<Builder, Error>
  {
    ReadLines(NOTHING, LinesOf(x))
  }

  function Joined(a: Builder, b: Builder): Builder
  {
    Builder(a.statuses + b.statuses, a.layers + b.layers, a.edges + b.edges, None)
  }

  /** Reading with an open layer adds to that layer only. */
  lemma {:induction false} BodyAdds(b: Builder, c: Builder, nodes: seq<Line>)
    requires b.open.Some? && c.open == b.open
    requires forall i :: 0 <= i < |nodes| ==> nodes[i].NodeLine? || nodes[i].Blank?
    ensures match (ReadLines(b, nodes), ReadLines(c, nodes))
            case (Err(e), Err(f)) => e == f
            case (Ok(x), Ok(y)) => x.open.Some? && x == b.(open := x.open) && y == c.(open := x.open)
            case _ => false
    decreases |nodes|
  {
    if nodes != [] && ReadLine(b, nodes[0]).Ok? {
      BodyAdds(ReadLine(b, nodes[0]).value, ReadLine(c, nodes[0]).value, nodes[1..]);
    }
  }

  lemma LayerAdds(b: Builder, id: string, title: string, nodes: seq<Line>)
    requires b.open.None? && WellFormed(LayerBlock(id, title, nodes))
    ensures BlockAdds(b, LayerBlock(id, title, nodes))
  {
    var begun, alone := b.(open := Some(Layer(id, title, []))), NOTHING.(open := Some(Layer(id, title, [])));
    var lines := LinesOf(LayerBlock(id, title, nodes));
    assert lines[1..] == nodes + [End];
    BodyAdds(begun, alone, nodes);
    ReadConcat(begun, nodes, [End]);
    ReadConcat(alone, nodes, [End]);
    assert [End][1..] == [];
  }

  /** A block reads from any builder outside a layer as it reads from nothing. */
  ghost predicate BlockAdds(b: Builder, x: Block)
  {
    match (Contribution(x), ReadLines(b, LinesOf(x)))
    case (Err(e), Err(f)) => e == f
    case (Ok(more), Ok(y)) => more.open.None? && y == Joined(b, more)
    case _ => false
  }

  lemma EveryBlockAdds(b: Builder, x: Block)
    requires b.open.None? && WellFormed(x)
    ensures BlockAdds(b, x)
  {
    assert b.statuses + [] == b.statuses && b.layers + [] == b.layers && b.edges + [] == b.edges;
    match x
    case LayerBlock(id, title, nodes) => LayerAdds(b, id, title, nodes);
    case ClassBlock(name, style) =>
      ReadOne(b, ClassDef(name, style));
      ReadOne(NOTHING, ClassDef(name, style));
    case EdgeBlock(edge) =>
      ReadOne(b, EdgeLine(edge));
      ReadOne(NOTHING, EdgeLine(edge));
    case BlankBlock =>
      ReadOne(b, Blank);
      ReadOne(NOTHING, Blank);
  }

  /** The contributions of all blocks, joined in order; `None` when one does not read. */
  function Contributions(blocks: seq<Block>): Option<Builder>
  {
    if blocks == [] then Some(NOTHING)
    else match (Contribution(blocks[0]), Contributions(blocks[1..]))
         case (Ok(x), Some(rest)) => Some(Joined(x, rest))
         case _ => None
  }

  lemma JoinedAgain(a: Builder, b: Builder, c: Builder)
    ensures Joined(Joined(a, b), c) == Joined(a, Joined(b, c))
  {
  }

  lemma {:induction false} BlocksAdd(b: Builder, blocks: seq<Block>)
    requires b.open.None? && forall i :: 0 <= i < |blocks| ==> WellFormed(blocks[i])
    ensures match Contributions(blocks)
            case None => ReadLines(b, AllLines(blocks)).Err?
            case Some(more) => ReadLines(b, AllLines(blocks)) == Ok(Joined(b, more))
    decreases |blocks|
  {
    if blocks == [] {
      assert Joined(b, NOTHING) == b;
    } else {
      EveryBlockAdds(b, blocks[0]);
      ReadConcat(b, LinesOf(blocks[0]), AllLines(blocks[1..]));
      if Contribution(blocks[0]).Ok? {
        var next := Joined(b, Contribution(blocks[0]).value);
        BlocksAdd(next, blocks[1..]);
        if Contributions(blocks[1..]).Some? {
          JoinedAgain(b, Contribution(blocks[0]).value, Contributions(blocks[1..]).value);
        }
      }
    }
  }

  datatype Kind = Classes | Layers | Edges | Blanks

  function KindOf(x: Block): Kind
  {
    match x case ClassBlock(_, _) => Classes case LayerBlock(_, _, _) => Layers case EdgeBlock(_) => Edges case BlankBlock => Blanks
  }

  /** The blocks of one kind, in order. */
  function Only(blocks: seq<Block>, kind: Kind): seq<Block>
  {
    if blocks == [] then []
    else (if KindOf(blocks[0]) == kind then [blocks[0]] else []) + Only(blocks[1..], kind)
  }

  /** The part of a builder that blocks of one kind fill. */
  function Part(b: Builder, kind: Kind): Builder
  {
    match kind
    case Classes => NOTHING.(statuses := b.statuses)
    case Layers => NOTHING.(layers := b.layers)
    case Edges => NOTHING.(edges := b.edges)
    case Blanks => NOTHING
  }

  /** A block fills only the part of its own kind. */
  lemma FillsItsPart(x: Block)
    requires WellFormed(x) && Contribution(x).Ok?
    ensures Contribution(x).value == Part(Contribution(x).value, KindOf(x))
  {
    EveryBlockAdds(NOTHING, x);
    match x
    case LayerBlock(id, title, nodes) => LayerFills(id, title, nodes);
    case ClassBlock(name, style) => ReadOne(NOTHING, ClassDef(name, style));
    case EdgeBlock(edge) => ReadOne(NOTHING, EdgeLine(edge));
    case BlankBlock => ReadOne(NOTHING, Blank);
  }

  lemma LayerFills(id: string, title: string, nodes: seq<Line>)
    requires WellFormed(LayerBlock(id, title, nodes)) && Contribution(LayerBlock(id, title, nodes)).Ok?
    ensures var b := Contribution(LayerBlock(id, title, nodes)).value;
            b == NOTHING.(layers := b.layers)
  {
    var alone := NOTHING.(open := Some(Layer(id, title, [])));
    var lines := LinesOf(LayerBlock(id, title, nodes));
    assert lines[1..] == nodes + [End];
    BodyAdds(alone, alone, nodes);
    ReadConcat(alone, nodes, [End]);
    assert [End][1..] == [];
  }

  /** Each part of what a document contributes comes from its blocks of that kind alone. */
  lemma {:induction false} PartFromKind(blocks: seq<Block>, kind: Kind)
    requires forall i :: 0 <= i < |blocks| ==> WellFormed(blocks[i])
    requires Contributions(blocks).Some?
    ensures Contributions(Only(blocks, kind)).Some?
    ensures Part(Contributions(blocks).value, kind) == Part(Contributions(Only(blocks, kind)).value, kind)
    decreases |blocks|
  {
    if blocks != [] {
      var x, rest := blocks[0], blocks[1..];
      PartFromKind(rest, kind);
      FillsItsPart(x);
      var first, all, some := Contribution(x).value, Contributions(rest).value, Contributions(Only(rest, kind)).value;
      if KindOf(x) == kind {
        assert Only(blocks, kind) == [x] + Only(rest, kind);
        assert ([x] + Only(rest, kind))[1..] == Only(rest, kind);
      } else {
        assert Only(blocks, kind) == Only(rest, kind);
        assert Part(first, kind) == NOTHING;
      }
    }
  }

  lemma {:induction false} AllReadIff(blocks: seq<Block>)
    ensures Contributions(blocks).Some? <==> forall i :: 0 <= i < |blocks| ==> Contribution(blocks[i]).Ok?
    decreases |blocks|
  {
    if blocks != [] {
      AllReadIff(blocks[1..]);
      assert forall i :: 0 < i < |blocks| ==> blocks[i] == blocks[1..][i - 1];
    }
  }

  lemma {:induction false} OnlyHolds(blocks: seq<Block>, x: Block)
    ensures x in blocks <==> x in Only(blocks, KindOf(x))
    decreases |blocks|
  {
    if blocks != [] {
      OnlyHolds(blocks[1..], x);
    }
  }

  function Document(blocks: seq<Block>): seq<Line>
  {
    [Header] + AllLines(blocks)
  }

  /** The two documents interleave the same classes, layers and edges. */
  predicate SameByKind(a: seq<Block>, b: seq<Block>)
  {
    Only(a, Classes) == Only(b, Classes) && Only(a, Layers) == Only(b, Layers) && Only(a, Edges) == Only(b, Edges)
  }

  lemma SameReads(a: seq<Block>, b: seq<Block>)
    requires SameByKind(a, b) && Contributions(a).Some?
    ensures Contributions(b).Some?
  {
    AllReadIff(a);
    AllReadIff(b);
    forall i | 0 <= i < |b| ensures Contribution(b[i]).Ok? {
      if b[i].BlankBlock? {
        ReadOne(NOTHING, Blank);
      } else {
        OnlyHolds(a, b[i]);
        OnlyHolds(b, b[i]);
      }
    }
  }

  /**
   * Any interleaving of class definitions, edges and whole layer blocks that keeps the order within each
   * kind, with blank lines anywhere, gathers to the same diagram.
   */
  lemma InterleavingsAgree(a: seq<Block>, b: seq<Block>)
    requires (forall i :: 0 <= i < |a| ==> WellFormed(a[i])) && (forall i :: 0 <= i < |b| ==> WellFormed(b[i]))
    requires SameByKind(a, b)
    ensures Gather(Document(a)).Ok? ==> Gather(Document(b)) == Gather(Document(a))
    ensures Gather(Document(a)).Ok? <==> Gather(Document(b)).Ok?
  {
    GatherIs(a);
    GatherIs(b);
    if Contributions(a).Some? {
      SameReads(a, b);
      PartsAgree(a, b);
    } else if Contributions(b).Some? {
      SameReads(b, a);
    }
  }

  lemma GatherIs(blocks: seq<Block>)
    requires forall i :: 0 <= i < |blocks| ==> WellFormed(blocks[i])
    ensures match Contributions(blocks)
            case None => Gather(Document(blocks)).Err?
            case Some(c) => Gather(Document(blocks)) == Ok(Diagram(c.statuses, c.layers, c.edges))
  {
    assert Document(blocks)[1..] == AllLines(blocks);
    BlocksAdd(NOTHING, blocks);
    if Contributions(blocks).Some? {
      var c := Contributions(blocks).value;
      assert [] + c.statuses == c.statuses && [] + c.layers == c.layers && [] + c.edges == c.edges;
    }
  }

  lemma PartsAgree(a: seq<Block>, b: seq<Block>)
    requires (forall i :: 0 <= i < |a| ==> WellFormed(a[i])) && (forall i :: 0 <= i < |b| ==> WellFormed(b[i]))
    requires SameByKind(a, b) && Contributions(a).Some? && Contributions(b).Some?
    ensures var x, y := Contributions(a).value, Contributions(b).value;
            x.statuses == y.statuses && x.layers == y.layers && x.edges == y.edges
  {
    PartFromKind(a, Classes);
    PartFromKind(b, Classes);
    PartFromKind(a, Layers);
    PartFromKind(b, Layers);
    PartFromKind(a, Edges);
    PartFromKind(b, Edges);
  }
}
