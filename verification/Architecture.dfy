/** The architecture diagram: parsing its statements and checking the result. */
module Architecture {
  import opened Common

  // ---------------------------------------------------------------- text

  /** White space of Python strings. */
  predicate IsSpace(c: char)
  {
    var n := c as int;
    9 <= n <= 13 || 0x1c <= n <= 0x20 || n == 0x85 || n == 0xa0 || n == 0x1680 || 0x2000 <= n <= 0x200a
    || n == 0x2028 || n == 0x2029 || n == 0x202f || n == 0x205f || n == 0x3000
  }

  function StripLeft(s: string): string
  {
    if s != [] && IsSpace(s[0]) then StripLeft(s[1..]) else s
  }

  function StripRight(s: string): string
  {
    if s != [] && IsSpace(s[|s| - 1]) then StripRight(s[..|s| - 1]) else s
  }

  function Strip(s: string): string
  {
    StripRight(StripLeft(s))
  }

  /** Position of the first `pattern` in `s`, or the length of `s`. */
  function Find(s: string, pattern: string): (i: nat)
    requires pattern != []
    ensures i <= |s| && (i < |s| ==> i + |pattern| <= |s| && s[i..i + |pattern|] == pattern)
  {
    if s == [] then 0
    else if |pattern| <= |s| && s[..|pattern|] == pattern then 0
    else 1 + Find(s[1..], pattern)
  }

  function SplitOn(s: string, pattern: string): (parts: seq<string>)
    requires pattern != []
    ensures parts != []
    decreases |s|
  {
    var i := Find(s, pattern);
    if i == |s| then [s] else [s[..i]] + SplitOn(s[i + |pattern|..], pattern)
  }

  /** The text before the first `pattern`, and the text behind it when there is one. */
  function Partition(s: string, pattern: string): (string, Option<string>)
    requires pattern != []
  {
    var i := Find(s, pattern);
    if i == |s| then (s, None) else (s[..i], Some(s[i + |pattern|..]))
  }

  function OrEmpty(s: Option<string>): string
  {
    if s.Some? then s.value else ""
  }

  /** The value of `key` in a comma-separated style. */
  function StyleValue(parts: seq<string>, key: string): Option<string>
  {
    if parts == [] then None
    else
      var (name, value) := Partition(parts[0], ":");
      if Strip(name) == key then Some(Strip(OrEmpty(value))) else StyleValue(parts[1..], key)
  }

  /** Title and detail of a node label; a separator must be followed by a detail. */
  function SplitLabel(caption: string): Option<(string, string)>
  {
    var (title, detail) := Partition(caption, "<br/>");
    if detail.Some? && Strip(detail.value) == "" then None
    else Some((Strip(title), Strip(OrEmpty(detail))))
  }

  // ---------------------------------------------------------------- diagram

  datatype StatusClass = StatusClass(name: string, fill: string, stroke: string, color: string)
  datatype Shape = Box | Gate
  datatype Node = Node(identifier: string, title: string, detail: string, status: string, shape: Shape, layer: string)
  datatype Edge = Edge(source: string, target: string, caption: string, durable: bool)
  datatype Layer = Layer(identifier: string, title: string, nodes: seq<Node>)
  datatype Diagram = Diagram(statuses: seq<StatusClass>, layers: seq<Layer>, edges: seq<Edge>)

  /** A stripped line, by the statement it matches. */
  datatype Line =
    | Header
    | Blank
    | ClassDef(name: string, style: string)
    | Subgraph(id: string, title: string)
    | End
    | NodeLine(id: string, caption: string, status: string, shape: Shape)
    | EdgeLine(edge: Edge)
    | Unrecognized

  datatype Error =
    | NoHeader | ClassDefInside | MissingStyle | Nested | UnbalancedEnd | EmptyLayer | NodeOutside | EmptyDetail
    | EdgeInside | UnknownStatement | UnbalancedSubgraph
    | NoStatuses | NoLayers | NoEdges | DuplicateNode | UndeclaredStatus | NoDetail | UnusedStatus
    | UndeclaredEndpoint | SelfReference | DuplicateEdge | Isolated

  // ---------------------------------------------------------------- parsing

  /** What the loop has gathered; `open` is the layer being read. */
  datatype Builder = Builder(statuses: seq<StatusClass>, layers: seq<Layer>, edges: seq<Edge>, open: Option<Layer>)

  const NOTHING := Builder([], [], [], None)

  function ParseStatus(name: string, style: string): Option<StatusClass>
  {
    var parts := SplitOn(style, ",");
    var fill, stroke, color := StyleValue(parts, "fill"), StyleValue(parts, "stroke"), StyleValue(parts, "color");
    if fill.None? || stroke.None? || color.None? then None
    else Some(StatusClass(name, fill.value, stroke.value, color.value))
  }

  function ParseNode(line: Line, layer: string): Option<Node>
    requires line.NodeLine?
  {
    match SplitLabel(line.caption)
    case None => None
    case Some((title, detail)) => Some(Node(line.id, title, detail, line.status, line.shape, layer))
  }

  function ReadLine(b: Builder, line: Line): Result<Builder, Error>
  {
    match line
    case Blank => Ok(b)
    case ClassDef(name, style) =>
      if b.open.Some? then Err(ClassDefInside)
      else (match ParseStatus(name, style)
            case None => Err(MissingStyle)
            case Some(status) => Ok(b.(statuses := b.statuses + [status])))
    case Subgraph(id, title) => if b.open.Some? then Err(Nested) else Ok(b.(open := Some(Layer(id, title, []))))
    case End =>
      if b.open.None? then Err(UnbalancedEnd)
      else if b.open.value.nodes == [] then Err(EmptyLayer)
      else Ok(b.(layers := b.layers + [b.open.value], open := None))
    case NodeLine(id, caption, status, shape) =>
      if b.open.None? then Err(NodeOutside)
      else
        var layer := b.open.value;
        (match ParseNode(line, layer.identifier)
         case None => Err(EmptyDetail)
         case Some(node) => Ok(b.(open := Some(layer.(nodes := layer.nodes + [node])))))
    case EdgeLine(edge) => if b.open.Some? then Err(EdgeInside) else Ok(b.(edges := b.edges + [edge]))
    case _ => Err(UnknownStatement)
  }

  function ReadLines(b: Builder, lines: seq<Line>): Result<Builder, Error>
    decreases |lines|
  {
    if lines == [] then Ok(b)
    else match ReadLine(b, lines[0]) case Err(e) => Err(e) case Ok(next) => ReadLines(next, lines[1..])
  }

  function Gather(lines: seq<Line>): Result<Diagram, Error>
  {
    if lines == [] || lines[0] != Header then Err(NoHeader)
    else
      match ReadLines(NOTHING, lines[1..])
      case Err(e) => Err(e)
      case Ok(b) => if b.open.Some? then Err(UnbalancedSubgraph) else Ok(Diagram(b.statuses, b.layers, b.edges))
  }

  // ---------------------------------------------------------------- validity

  function NodesOf(layers: seq<Layer>): seq<Node>
  {
    if layers == [] then [] else NodesOf(layers[..|layers| - 1]) + layers[|layers| - 1].nodes
  }

  function Names(statuses: seq<StatusClass>): set<string>
  {
    set i | 0 <= i < |statuses| :: statuses[i].name
  }

  function Identifiers(nodes: seq<Node>): set<string>
  {
    set i | 0 <= i < |nodes| :: nodes[i].identifier
  }

  ghost predicate NodesValid(nodes: seq<Node>, known: set<string>)
  {
    && (forall i, j :: 0 <= i < j < |nodes| ==> nodes[i].identifier != nodes[j].identifier)
    && (forall i :: 0 <= i < |nodes| ==> nodes[i].status in known && nodes[i].detail != "")
  }

  ghost predicate EdgesValid(edges: seq<Edge>, identifiers: set<string>)
  {
    && (forall i :: 0 <= i < |edges| ==>
                      edges[i].source in identifiers && edges[i].target in identifiers
                      && edges[i].source != edges[i].target)
    && (forall i, j :: 0 <= i < j < |edges| ==> Arrow(edges[i]) != Arrow(edges[j]))
  }

  function Arrow(e: Edge): (string, string, string)
  {
    (e.source, e.target, e.caption)
  }

  predicate Touches(e: Edge, identifier: string)
  {
    e.source == identifier || e.target == identifier
  }

  ghost predicate AllUsed(nodes: seq<Node>, known: set<string>)
  {
    forall name :: name in known ==> exists i :: 0 <= i < |nodes| && nodes[i].status == name
  }

  ghost predicate Connected(edges: seq<Edge>, id: string)
  {
    exists k :: 0 <= k < |edges| && Touches(edges[k], id)
  }

  ghost predicate AllConnected(edges: seq<Edge>, identifiers: set<string>)
  {
    forall id {:trigger Connected(edges, id)} :: id in identifiers ==> Connected(edges, id)
  }

  /** What a diagram must satisfy to be accepted. */
  ghost predicate Valid(d: Diagram)
  {
    var nodes := NodesOf(d.layers);
    && d.statuses != [] && d.layers != [] && d.edges != []
    && NodesValid(nodes, Names(d.statuses))
    && AllUsed(nodes, Names(d.statuses))
    && EdgesValid(d.edges, Identifiers(nodes))
    && AllConnected(d.edges, Identifiers(nodes))
  }

  ghost predicate NewArrow(edges: seq<Edge>, more: Edge)
  {
    forall i :: 0 <= i < |edges| && edges[i].source == more.source && edges[i].target == more.target ==>
                  edges[i].caption != more.caption
  }

  lemma OneMoreEdge(edges: seq<Edge>, more: Edge, all: seq<Edge>)
    requires all == edges + [more]
    ensures |all| == |edges| + 1 && all[|edges|] == more && forall i :: 0 <= i < |edges| ==> all[i] == edges[i]
  {
  }

  lemma NewArrowIsValid(edges: seq<Edge>, more: Edge, all: seq<Edge>, ids: set<string>)
    requires EdgesValid(edges, ids) && NewArrow(edges, more) && all == edges + [more]
    requires more.source in ids && more.target in ids && more.source != more.target
    ensures EdgesValid(all, ids)
  {
    OneMoreEdge(edges, more, all);
    forall i, j | 0 <= i < j < |all| ensures Arrow(all[i]) != Arrow(all[j]) {
      assert all[i] == edges[i];
    }
  }

  lemma KnownArrowIsInvalid(edges: seq<Edge>, more: Edge, all: seq<Edge>, ids: set<string>)
    requires !NewArrow(edges, more) && all == edges + [more]
    ensures !EdgesValid(all, ids)
  {
    OneMoreEdge(edges, more, all);
    var i :| 0 <= i < |edges| && edges[i].source == more.source && edges[i].target == more.target
             && edges[i].caption == more.caption;
    assert Arrow(all[i]) == Arrow(all[|edges|]);
  }

  lemma MoreEdgesConnect(edges: seq<Edge>, more: Edge, all: seq<Edge>, ids: set<string>)
    requires AllConnected(edges, ids) && all == edges + [more]
    ensures AllConnected(all, ids)
  {
    OneMoreEdge(edges, more, all);
    forall id | id in ids ensures Connected(all, id) {
      assert Connected(edges, id);
      var j :| 0 <= j < |edges| && Touches(edges[j], id);
      assert Touches(all[j], id);
    }
  }

  lemma EdgeWelcomeIff(edges: seq<Edge>, more: Edge, all: seq<Edge>, ids: set<string>)
    requires EdgesValid(edges, ids) && AllConnected(edges, ids) && all == edges + [more]
    requires more.source in ids && more.target in ids && more.source != more.target
    ensures AllConnected(all, ids) && (EdgesValid(all, ids) <==> NewArrow(edges, more))
  {
    MoreEdgesConnect(edges, more, all, ids);
    if NewArrow(edges, more) {
      NewArrowIsValid(edges, more, all, ids);
    } else {
      KnownArrowIsInvalid(edges, more, all, ids);
    }
  }

  lemma WithEdges(d: Diagram, k: nat, more: Edge, all: seq<Edge>, ids: set<string>)
    requires Valid(d) && ids == Identifiers(NodesOf(d.layers)) && k < |d.edges|
    requires more.source == d.edges[k].source && more.target == d.edges[k].target
    ensures more.source in ids && more.target in ids && more.source != more.target
    ensures EdgesValid(d.edges, ids) && AllConnected(d.edges, ids)
    ensures all != [] && AllConnected(all, ids) ==>
              (Valid(Diagram(d.statuses, d.layers, all)) <==> EdgesValid(all, ids))
  {
  }

  /** A second arrow between two nodes is welcome exactly when its caption is new for that direction. */
  lemma ParallelEdgeIff(d: Diagram, k: nat, more: Edge, after: Diagram)
    requires k < |d.edges| && more.source == d.edges[k].source && more.target == d.edges[k].target
    requires Valid(d) && after == Diagram(d.statuses, d.layers, d.edges + [more])
    ensures Valid(after) <==> NewArrow(d.edges, more)
  {
    var all, ids := d.edges + [more], Identifiers(NodesOf(d.layers));
    WithEdges(d, k, more, all, ids);
    EdgeWelcomeIff(d.edges, more, all, ids);
    assert all[|d.edges|] == more;
  }

  /** The node at `i` is the first with a fault, and the error names its first fault. */
  ghost predicate BadNode(nodes: seq<Node>, known: set<string>, i: nat, error: Error)
    requires i < |nodes|
  {
    var repeated := exists k :: 0 <= k < i && nodes[k].identifier == nodes[i].identifier;
    && NodesValid(nodes[..i], known)
    && match error
       case DuplicateNode => repeated
       case UndeclaredStatus => !repeated && nodes[i].status !in known
       case NoDetail => !repeated && nodes[i].status in known && nodes[i].detail == ""
       case _ => false
  }

  /** The edge at `i` is the first with a fault, and the error names its first fault. */
  ghost predicate BadEdge(edges: seq<Edge>, identifiers: set<string>, i: nat, error: Error)
    requires i < |edges|
  {
    var e := edges[i];
    var declared := e.source in identifiers && e.target in identifiers;
    && EdgesValid(edges[..i], identifiers)
    && match error
       case UndeclaredEndpoint => !declared
       case SelfReference => declared && e.source == e.target
       case DuplicateEdge =>
         declared && e.source != e.target
         && exists k :: 0 <= k < i && edges[k].source == e.source && edges[k].target == e.target
                        && edges[k].caption == e.caption
       case _ => false
  }

  method CheckNodes(nodes: seq<Node>, known: set<string>) returns (error: Option<Error>, identifiers: set<string>)
    ensures error.None? <==> NodesValid(nodes, known)
    ensures error.None? ==> identifiers == Identifiers(nodes)
    ensures error.Some? ==> exists i :: 0 <= i < |nodes| && BadNode(nodes, known, i, error.value)
  {
    identifiers := {};
    var i := 0;
    while i < |nodes|
      invariant i <= |nodes| && identifiers == Identifiers(nodes[..i]) && NodesValid(nodes[..i], known)
    {
      var node := nodes[i];
      if node.identifier in identifiers {
        var k :| 0 <= k < i && nodes[..i][k].identifier == node.identifier;
        assert nodes[k].identifier == node.identifier;
        assert BadNode(nodes, known, i, DuplicateNode);
        return Some(DuplicateNode), identifiers;
      }
      identifiers := identifiers + {node.identifier};
      if node.status !in known {
        assert BadNode(nodes, known, i, UndeclaredStatus);
        return Some(UndeclaredStatus), identifiers;
      }
      if node.detail == "" {
        assert BadNode(nodes, known, i, NoDetail);
        return Some(NoDetail), identifiers;
      }
      MoreIdentifiers(nodes, i);
      i := i + 1;
    }
    assert nodes[..i] == nodes;
    error := None;
  }

  lemma MoreIdentifiers(nodes: seq<Node>, i: nat)
    requires i < |nodes|
    ensures Identifiers(nodes[..i + 1]) == Identifiers(nodes[..i]) + {nodes[i].identifier}
  {
    var more, less := nodes[..i + 1], nodes[..i];
    assert forall k :: 0 <= k < i ==> more[k] == less[k];
    forall id | id in Identifiers(less) + {nodes[i].identifier} ensures id in Identifiers(more) {
      if id in Identifiers(less) {
        var k :| 0 <= k < i && less[k].identifier == id;
        assert more[k].identifier == id;
      } else {
        assert more[i].identifier == id;
      }
    }
  }

  function Arrows(edges: seq<Edge>): set<(string, string, string)>
  {
    set i | 0 <= i < |edges| :: Arrow(edges[i])
  }

  lemma MoreArrows(edges: seq<Edge>, i: nat)
    requires i < |edges|
    ensures Arrows(edges[..i + 1]) == Arrows(edges[..i]) + {Arrow(edges[i])}
  {
    var more, less := edges[..i + 1], edges[..i];
    assert forall k :: 0 <= k < i ==> more[k] == less[k];
    forall a | a in Arrows(less) + {Arrow(edges[i])} ensures a in Arrows(more) {
      if a in Arrows(less) {
        var k :| 0 <= k < i && Arrow(less[k]) == a;
        assert Arrow(more[k]) == a;
      } else {
        assert Arrow(more[i]) == a;
      }
    }
  }

  ghost predicate Connects(edges: seq<Edge>, n: nat, connected: set<string>)
    requires n <= |edges|
  {
    forall id :: id in connected <==> exists k :: 0 <= k < n && Touches(edges[k], id)
  }

  lemma RepeatedArrow(edges: seq<Edge>, identifiers: set<string>, i: nat)
    requires i < |edges| && Arrow(edges[i]) in Arrows(edges[..i]) && EdgesValid(edges[..i], identifiers)
    requires edges[i].source in identifiers && edges[i].target in identifiers && edges[i].source != edges[i].target
    ensures BadEdge(edges, identifiers, i, DuplicateEdge)
  {
    var k :| 0 <= k < i && Arrow(edges[..i][k]) == Arrow(edges[i]);
    assert edges[k] == edges[..i][k];
  }

  method CheckEdges(edges: seq<Edge>, identifiers: set<string>) returns (error: Option<Error>, connected: set<string>)
    ensures error.None? <==> EdgesValid(edges, identifiers)
    ensures error.None? ==> Connects(edges, |edges|, connected)
    ensures error.Some? ==> exists i :: 0 <= i < |edges| && BadEdge(edges, identifiers, i, error.value)
  {
    connected := {};
    var seen: set<(string, string, string)> := {};
    var i := 0;
    while i < |edges|
      invariant i <= |edges| && EdgesValid(edges[..i], identifiers)
      invariant Connects(edges, i, connected) && seen == Arrows(edges[..i])
    {
      var e := edges[i];
      if e.source !in identifiers || e.target !in identifiers {
        assert BadEdge(edges, identifiers, i, UndeclaredEndpoint);
        return Some(UndeclaredEndpoint), connected;
      }
      if e.source == e.target {
        assert BadEdge(edges, identifiers, i, SelfReference);
        return Some(SelfReference), connected;
      }
      if Arrow(e) in seen {
        RepeatedArrow(edges, identifiers, i);
        return Some(DuplicateEdge), connected;
      }
      MoreArrows(edges, i);
      seen := seen + {Arrow(e)};
      connected := connected + {e.source, e.target};
      i := i + 1;
    }
    assert edges[..i] == edges;
    error := None;
  }

  function Statuses(nodes: seq<Node>): set<string>
  {
    set i | 0 <= i < |nodes| :: nodes[i].status
  }

  /** What is wrong with the diagram, in the order in which it is looked for. */
  ghost predicate Faulty(d: Diagram, error: Error)
  {
    var nodes, known := NodesOf(d.layers), Names(d.statuses);
    if d.statuses == [] then error == NoStatuses
    else if d.layers == [] then error == NoLayers
    else if d.edges == [] then error == NoEdges
    else if !NodesValid(nodes, known) then exists i :: 0 <= i < |nodes| && BadNode(nodes, known, i, error)
    else if !AllUsed(nodes, known) then error == UnusedStatus
    else if !EdgesValid(d.edges, Identifiers(nodes)) then
      exists i :: 0 <= i < |d.edges| && BadEdge(d.edges, Identifiers(nodes), i, error)
    else error == Isolated
  }

  method Validate(d: Diagram) returns (error: Option<Error>)
    ensures error.None? <==> Valid(d)
    ensures error.Some? ==> Faulty(d, error.value)
  {
    if d.statuses == [] {
      return Some(NoStatuses);
    }
    if d.layers == [] {
      return Some(NoLayers);
    }
    if d.edges == [] {
      return Some(NoEdges);
    }
    var nodes, known := NodesOf(d.layers), Names(d.statuses);
    var identifiers, connected;
    error, identifiers := CheckNodes(nodes, known);
    if error.Some? {
      return;
    }
    StatusesUsed(nodes, known);
    if Statuses(nodes) != known {
      return Some(UnusedStatus);
    }
    error, connected := CheckEdges(d.edges, identifiers);
    if error.Some? {
      return;
    }
    ConnectedIff(d.edges, identifiers, connected);
    if identifiers - connected != {} {
      return Some(Isolated);
    }
    error := None;
  }

  lemma ConnectedIff(edges: seq<Edge>, identifiers: set<string>, connected: set<string>)
    requires Connects(edges, |edges|, connected)
    ensures identifiers - connected == {} <==> AllConnected(edges, identifiers)
  {
    if identifiers - connected == {} {
      forall id | id in identifiers ensures Connected(edges, id) {
        assert id !in identifiers - connected;
      }
    } else {
      var id :| id in identifiers - connected;
      assert !Connected(edges, id);
    }
  }

  lemma StatusesUsed(nodes: seq<Node>, known: set<string>)
    requires NodesValid(nodes, known)
    ensures Statuses(nodes) == known <==> AllUsed(nodes, known)
  {
    assert Statuses(nodes) <= known;
    assert forall name :: name in Statuses(nodes) <==> exists i :: 0 <= i < |nodes| && nodes[i].status == name;
  }

  /** Parse the statements of the diagram, then check it. */
  method ParseArchitecture(lines: seq<Line>) returns (r: Result<Diagram, Error>)
    ensures match Gather(lines)
            case Err(e) => r == Err(e)
            case Ok(d) => if Valid(d) then r == Ok(d) else r.Err? && Faulty(d, r.error)
  {
    if lines == [] || lines[0] != Header {
      return Err(NoHeader);
    }
    var b := NOTHING;
    var i := 1;
    while i < |lines|
      invariant 1 <= i <= |lines|
      invariant ReadLines(NOTHING, lines[1..]) == ReadLines(b, lines[i..])
    {
      assert lines[i..][1..] == lines[i + 1..];
      var next := ReadLine(b, lines[i]);
      if next.Err? {
        return Err(next.error);
      }
      b := next.value;
      i := i + 1;
    }
    assert lines[i..] == [];
    if b.open.Some? {
      return Err(UnbalancedSubgraph);
    }
    var d := Diagram(b.statuses, b.layers, b.edges);
    var error := Validate(d);
    r := if error.Some? then Err(error.value) else Ok(d);
  }
}
