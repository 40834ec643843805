/** Which diagram sources are accepted at all: the statements of a source fall into whole blocks, or it is refused. */
module ArchitectureGrammar {
  import opened Common
  import opened Architecture
  import opened ArchitectureText

  // ---------------------------------------------------------------- what a block needs

  /** The style names a fill, a stroke and a colour. */
  predicate HasColours(style: string)
  {
    var parts := SplitOn(style, ",");
    StyleValue(parts, "fill").Some? && StyleValue(parts, "stroke").Some? && StyleValue(parts, "color").Some?
  }

  /** A layer holds a node, and where a label has a separator something stands behind it. */
  predicate Readable(x: Block)
  {
    match x
    case ClassBlock(name, style) => HasColours(style)
    case LayerBlock(id, title, nodes) =>
      && (exists i :: 0 <= i < |nodes| && nodes[i].NodeLine?)
      && (forall i :: 0 <= i < |nodes| && nodes[i].NodeLine? ==> SplitLabel(nodes[i].caption).Some?)
    case EdgeBlock(edge) => true
    case BlankBlock => true
  }

  /** Which single statements are refused, inside a layer and outside, and why. */
  lemma RefusedLines(b: Builder, line: Line)
    ensures b.open.Some? ==>
              && (line.ClassDef? ==> ReadLine(b, line) == Err(ClassDefInside))
              && (line.Subgraph? ==> ReadLine(b, line) == Err(Nested))
              && (line.EdgeLine? ==> ReadLine(b, line) == Err(EdgeInside))
              && (line.End? && b.open.value.nodes == [] ==> ReadLine(b, line) == Err(EmptyLayer))
              && (line.NodeLine? && SplitLabel(line.caption).None? ==> ReadLine(b, line) == Err(EmptyDetail))
    ensures b.open.None? ==>
              && (line.End? ==> ReadLine(b, line) == Err(UnbalancedEnd))
              && (line.NodeLine? ==> ReadLine(b, line) == Err(NodeOutside))
              && (line.ClassDef? && !HasColours(line.style) ==> ReadLine(b, line) == Err(MissingStyle))
    ensures line.Header? || line.Unrecognized? ==> ReadLine(b, line) == Err(UnknownStatement)
    ensures ReadLine(b, line).Ok?
            <==> match line
                 case Header => false
                 case Unrecognized => false
                 case Blank => true
                 case ClassDef(_, style) => b.open.None? && HasColours(style)
                 case Subgraph(_, _) => b.open.None?
                 case End => b.open.Some? && b.open.value.nodes != []
                 case NodeLine(_, caption, _, _) => b.open.Some? && SplitLabel(caption).Some?
                 case EdgeLine(_) => b.open.None?
  {
  }

  // ---------------------------------------------------------------- blocks that read

  lemma {:induction false} BodyReadsIff(b: Builder, nodes: seq<Line>)
    requires b.open.Some? && forall i :: 0 <= i < |nodes| ==> nodes[i].NodeLine? || nodes[i].Blank?
    ensures ReadLines(b, nodes).Ok?
            <==> forall i :: 0 <= i < |nodes| && nodes[i].NodeLine? ==> SplitLabel(nodes[i].caption).Some?
    ensures ReadLines(b, nodes).Ok? ==>
              var last := ReadLines(b, nodes).value;
              && last.open.Some?
              && (last.open.value.nodes != []
                  <==> b.open.value.nodes != [] || exists i :: 0 <= i < |nodes| && nodes[i].NodeLine?)
    decreases |nodes|
  {
    if nodes != [] {
      RefusedLines(b, nodes[0]);
      var rest := nodes[1..];
      assert forall i :: 0 < i < |nodes| ==> nodes[i] == rest[i - 1];
      assert forall i :: 0 <= i < |rest| ==> rest[i] == nodes[i + 1];
      if ReadLine(b, nodes[0]).Ok? {
        BodyReadsIff(ReadLine(b, nodes[0]).value, rest);
      }
    }
  }

  /** A block reads exactly when it has what it needs. */
  lemma BlockReadsIff(x: Block)
    requires WellFormed(x)
    ensures Contribution(x).Ok? <==> Readable(x)
  {
    match x
    case LayerBlock(id, title, nodes) =>
      var lines := LinesOf(x);
      var begun := NOTHING.(open := Some(Layer(id, title, [])));
      assert lines[1..] == nodes + [End];
      BodyReadsIff(begun, nodes);
      ReadConcat(begun, nodes, [End]);
      if ReadLines(begun, nodes).Ok? {
        ReadOne(ReadLines(begun, nodes).value, End);
      }
    case ClassBlock(name, style) => ReadOne(NOTHING, ClassDef(name, style));
    case EdgeBlock(edge) => ReadOne(NOTHING, EdgeLine(edge));
    case BlankBlock => ReadOne(NOTHING, Blank);
  }

  // ---------------------------------------------------------------- sources fall into blocks

  /** Inside a layer that closes, nodes and blanks come before the next end. */
  lemma {:induction false} LayerCloses(b: Builder, lines: seq<Line>)
      returns (nodes: seq<Line>, rest: seq<Line>, next: Builder)
    requires b.open.Some? && ReadLines(b, lines).Ok? && ReadLines(b, lines).value.open.None?
    ensures lines == nodes + [End] + rest && forall i :: 0 <= i < |nodes| ==> nodes[i].NodeLine? || nodes[i].Blank?
    ensures next.open.None? && ReadLines(next, rest) == ReadLines(b, lines)
    decreases |lines|
  {
    RefusedLines(b, lines[0]);
    var read := ReadLine(b, lines[0]).value;
    if lines[0] == End {
      nodes, rest, next := [], lines[1..], read;
    } else {
      var inner;
      inner, rest, next := LayerCloses(read, lines[1..]);
      nodes := [lines[0]] + inner;
    }
    assert lines == [lines[0]] + lines[1..];
  }

  lemma {:induction false} LinesHaveBlocks(b: Builder, lines: seq<Line>) returns (blocks: seq<Block>)
    requires b.open.None? && ReadLines(b, lines).Ok? && ReadLines(b, lines).value.open.None?
    ensures AllLines(blocks) == lines && forall i :: 0 <= i < |blocks| ==> WellFormed(blocks[i])
    decreases |lines|
  {
    if lines == [] {
      blocks := [];
    } else {
      RefusedLines(b, lines[0]);
      var next, rest := ReadLine(b, lines[0]).value, lines[1..];
      var first: Block;
      match lines[0] {
        case ClassDef(name, style) => first := ClassBlock(name, style);
        case EdgeLine(edge) => first := EdgeBlock(edge);
        case Blank => first := BlankBlock;
        case Subgraph(id, title) =>
          var nodes;
          nodes, rest, next := LayerCloses(next, lines[1..]);
          first := LayerBlock(id, title, nodes);
      }
      assert lines == LinesOf(first) + rest;
      var more := LinesHaveBlocks(next, rest);
      blocks := [first] + more;
      assert blocks[1..] == more;
    }
  }

  /** The source is a header and whole blocks, each with what it needs. */
  ghost predicate MadeOfBlocks(lines: seq<Line>, blocks: seq<Block>)
  {
    && lines == Document(blocks)
    && forall i :: 0 <= i < |blocks| ==> WellFormed(blocks[i]) && Readable(blocks[i])
  }

  /** A source gathers to a diagram exactly when it is a header and whole blocks that have what they need. */
  lemma GathersIff(lines: seq<Line>)
    ensures Gather(lines).Ok? <==> exists blocks :: MadeOfBlocks(lines, blocks)
  {
    if Gather(lines).Ok? {
      var blocks := LinesHaveBlocks(NOTHING, lines[1..]);
      assert lines == Document(blocks);
      GatherIs(blocks);
      AllReadIff(blocks);
      forall i | 0 <= i < |blocks| ensures Readable(blocks[i]) {
        BlockReadsIff(blocks[i]);
      }
      assert MadeOfBlocks(lines, blocks);
    }
    if blocks :| MadeOfBlocks(lines, blocks) {
      forall i | 0 <= i < |blocks| ensures Contribution(blocks[i]).Ok? {
        BlockReadsIff(blocks[i]);
      }
      GatherIs(blocks);
      AllReadIff(blocks);
    }
  }

  // ---------------------------------------------------------------- which diagrams are accepted

  /** The node stands in one of the layers. */
  ghost predicate Stands(d: Diagram, n: Node)
  {
    exists l :: l in d.layers && n in l.nodes
  }

  lemma {:induction false} StandsIff(layers: seq<Layer>, n: Node)
    ensures n in NodesOf(layers) <==> exists l :: l in layers && n in l.nodes
  {
    if layers != [] {
      var init, last := layers[..|layers| - 1], layers[|layers| - 1];
      StandsIff(init, n);
      assert layers == init + [last];
    }
  }

  ghost predicate Declared(d: Diagram, status: string)
  {
    exists c :: c in d.statuses && c.name == status
  }

  ghost predicate IsNode(d: Diagram, id: string)
  {
    exists n :: Stands(d, n) && n.identifier == id
  }

  lemma DeclaredIff(d: Diagram, status: string)
    ensures status in Names(d.statuses) <==> Declared(d, status)
  {
    if c :| c in d.statuses && c.name == status {
      var i :| 0 <= i < |d.statuses| && d.statuses[i] == c;
      assert d.statuses[i].name == status;
    }
  }

  lemma IsNodeIff(d: Diagram, id: string)
    ensures id in Identifiers(NodesOf(d.layers)) <==> IsNode(d, id)
  {
    var nodes := NodesOf(d.layers);
    if id in Identifiers(nodes) {
      var i :| 0 <= i < |nodes| && nodes[i].identifier == id;
      StandsIff(d.layers, nodes[i]);
      assert Stands(d, nodes[i]);
    }
    if n :| Stands(d, n) && n.identifier == id {
      StandsIff(d.layers, n);
      var i :| 0 <= i < |nodes| && nodes[i] == n;
      assert nodes[i].identifier == id;
    }
  }

  /** Nodes have identifiers of their own, a detail, and a declared status; every declared status is used. */
  ghost predicate NodesInOrder(d: Diagram)
  {
    var nodes := NodesOf(d.layers);
    && (forall i, j :: 0 <= i < j < |nodes| ==> nodes[i].identifier != nodes[j].identifier)
    && (forall n :: Stands(d, n) ==> n.detail != "" && Declared(d, n.status))
    && (forall status :: Declared(d, status) ==> exists n :: Stands(d, n) && n.status == status)
  }

  /** Edges join different nodes, no two are the same, and every node has one. */
  ghost predicate EdgesInOrder(d: Diagram)
  {
    && EdgesApart(d)
    && (forall n {:trigger Touched(d, n)} :: Stands(d, n) ==> Touched(d, n))
  }

  ghost predicate Touched(d: Diagram, n: Node)
  {
    exists e :: e in d.edges && (n.identifier == e.source || n.identifier == e.target)
  }

  lemma NodesInOrderIff(d: Diagram)
    ensures NodesInOrder(d) <==>
            NodesValid(NodesOf(d.layers), Names(d.statuses)) && AllUsed(NodesOf(d.layers), Names(d.statuses))
  {
    var nodes, known := NodesOf(d.layers), Names(d.statuses);
    forall n ensures n in nodes <==> Stands(d, n) {
      StandsIff(d.layers, n);
    }
    forall status ensures status in known <==> Declared(d, status) {
      DeclaredIff(d, status);
    }
    if NodesInOrder(d) {
      forall i | 0 <= i < |nodes| ensures nodes[i].status in known && nodes[i].detail != "" {
        assert nodes[i] in nodes;
      }
      forall status | status in known ensures exists i :: 0 <= i < |nodes| && nodes[i].status == status {
        var n :| Stands(d, n) && n.status == status;
        var i :| 0 <= i < |nodes| && nodes[i] == n;
      }
    }
    if NodesValid(nodes, known) && AllUsed(nodes, known) {
      forall n | Stands(d, n) ensures n.detail != "" && Declared(d, n.status) {
        var i :| 0 <= i < |nodes| && nodes[i] == n;
      }
      forall status | Declared(d, status) ensures exists n :: Stands(d, n) && n.status == status {
        var i :| 0 <= i < |nodes| && nodes[i].status == status;
        assert nodes[i] in nodes;
      }
    }
  }

  ghost predicate NodeIds(d: Diagram, ids: set<string>)
  {
    forall id :: id in ids <==> IsNode(d, id)
  }

  lemma NodesAreConnected(d: Diagram, ids: set<string>)
    requires NodeIds(d, ids) && forall n {:trigger Touched(d, n)} :: Stands(d, n) ==> Touched(d, n)
    ensures AllConnected(d.edges, ids)
  {
    forall id | id in ids ensures Connected(d.edges, id) {
      var n :| Stands(d, n) && n.identifier == id;
      assert Touched(d, n);
      var e :| e in d.edges && (n.identifier == e.source || n.identifier == e.target);
      var k :| 0 <= k < |d.edges| && d.edges[k] == e;
      assert Touches(d.edges[k], id);
    }
  }

  lemma ConnectedAreTouched(d: Diagram, ids: set<string>)
    requires NodeIds(d, ids) && AllConnected(d.edges, ids)
    ensures forall n {:trigger Touched(d, n)} :: Stands(d, n) ==> Touched(d, n)
  {
    forall n | Stands(d, n) ensures Touched(d, n) {
      assert IsNode(d, n.identifier);
      assert Connected(d.edges, n.identifier);
      var k :| 0 <= k < |d.edges| && Touches(d.edges[k], n.identifier);
      assert d.edges[k] in d.edges;
    }
  }

  /** Edges join different nodes, and no two are the same. */
  ghost predicate EdgesApart(d: Diagram)
  {
    && (forall e :: e in d.edges ==> IsNode(d, e.source) && IsNode(d, e.target) && e.source != e.target)
    && (forall i, j :: 0 <= i < j < |d.edges| ==>
                         d.edges[i].source != d.edges[j].source || d.edges[i].target != d.edges[j].target
                         || d.edges[i].caption != d.edges[j].caption)
  }

  lemma EdgesAreApart(d: Diagram, ids: set<string>)
    requires EdgesValid(d.edges, ids) && NodeIds(d, ids)
    ensures EdgesApart(d)
  {
    forall i, j | 0 <= i < j < |d.edges|
      ensures d.edges[i].source != d.edges[j].source || d.edges[i].target != d.edges[j].target
              || d.edges[i].caption != d.edges[j].caption
    {
      assert Arrow(d.edges[i]) != Arrow(d.edges[j]);
    }
  }

  lemma EdgesInOrderIff(d: Diagram)
    ensures EdgesInOrder(d) <==>
            EdgesValid(d.edges, Identifiers(NodesOf(d.layers))) && AllConnected(d.edges, Identifiers(NodesOf(d.layers)))
  {
    var ids := Identifiers(NodesOf(d.layers));
    assert NodeIds(d, ids) by {
      forall id ensures id in ids <==> IsNode(d, id) {
        IsNodeIff(d, id);
      }
    }
    EdgesInOrderWith(d, ids);
  }

  lemma EdgesInOrderWith(d: Diagram, ids: set<string>)
    requires NodeIds(d, ids)
    ensures EdgesInOrder(d) <==> EdgesValid(d.edges, ids) && AllConnected(d.edges, ids)
  {
    if EdgesInOrder(d) {
      EdgesAreValid(d, ids);
      NodesAreConnected(d, ids);
    }
    if EdgesValid(d.edges, ids) && AllConnected(d.edges, ids) {
      EdgesAreApart(d, ids);
      ConnectedAreTouched(d, ids);
    }
  }

  lemma EdgesAreValid(d: Diagram, ids: set<string>)
    requires EdgesApart(d) && NodeIds(d, ids)
    ensures EdgesValid(d.edges, ids)
  {
    forall i | 0 <= i < |d.edges|
      ensures d.edges[i].source in ids && d.edges[i].target in ids && d.edges[i].source != d.edges[i].target
    {
      assert d.edges[i] in d.edges;
    }
  }

  /** A diagram is accepted exactly when its nodes and its edges are in order and no part of it is empty. */
  lemma AcceptedIff(d: Diagram)
    ensures Valid(d) <==> d.statuses != [] && d.layers != [] && d.edges != [] && NodesInOrder(d) && EdgesInOrder(d)
  {
    NodesInOrderIff(d);
    EdgesInOrderIff(d);
  }

  // ---------------------------------------------------------------- labels and white space

  /** The white space of Python strings, one by one. */
  const WHITE_SPACE := {
    9, 10, 11, 12, 13, 28, 29, 30, 31, 32, 133, 160, 5760, 8192, 8193, 8194, 8195, 8196, 8197, 8198, 8199, 8200, 8201,
    8202, 8232, 8233, 8239, 8287, 12288}

  lemma SpacesByCode(c: char)
    ensures IsSpace(c) <==> c as int in WHITE_SPACE
  {
  }

  /** A label without a separator is all title; its node has no detail, so no diagram with it is accepted. */
  lemma BareLabelIsRefused(d: Diagram, n: Node, caption: string)
    requires Find(caption, "<br/>") == |caption| && Stands(d, n) && SplitLabel(caption) == Some((n.title, n.detail))
    ensures n.detail == "" && n.title == Strip(caption) && !Valid(d)
  {
    AcceptedIff(d);
  }
}
