/**
  * The service graph of the throughline model: producers, flow edges, and the queue loop that ranks
  * services by the longest chain of flows leading to them.
  */
module LongestPath {
  import opened Common

  /** What a service reads and writes, one entry per service, in the order the object lists them. */
  datatype Io = Io(sid: string, ins: seq<string>, outs: seq<string>)

  datatype Edge = Edge(source: string, target: string, via: string, channel: string)

  // ---------------------------------------------------------------- producers and edges

  /** No service listed from position `k` on writes `d`. */
  ghost predicate NotWrittenFrom(io: seq<Io>, d: string, k: nat)
  {
    forall j :: k <= j < |io| ==> d !in io[j].outs
  }

  /** Service `sid` is the last one listed that writes `d`. */
  ghost predicate LastWriter(io: seq<Io>, d: string, sid: string)
  {
    exists k: nat :: k < |io| && io[k].sid == sid && d in io[k].outs && NotWrittenFrom(io, d, k + 1)
  }

  function Writes(x: Io): map<string, string>
  {
    map d | d in x.outs :: x.sid
  }

  function ProducerOf(io: seq<Io>): map<string, string>
  {
    if io == [] then map[] else ProducerOf(io[..|io| - 1]) + Writes(io[|io| - 1])
  }

  method WriteOutputs(before: map<string, string>, x: Io) returns (producer: map<string, string>)
    ensures producer == before + Writes(x)
  {
    producer := before;
    for j := 0 to |x.outs|
      invariant producer == before + map d | d in x.outs[..j] :: x.sid
    {
      assert x.outs[..j + 1] == x.outs[..j] + [x.outs[j]];
      producer := producer[x.outs[j] := x.sid];
    }
    assert x.outs[..|x.outs|] == x.outs;
  }

  method Producers(io: seq<Io>) returns (producer: map<string, string>)
    ensures producer == ProducerOf(io)
  {
    producer := map[];
    for i := 0 to |io|
      invariant producer == ProducerOf(io[..i])
    {
      producer := WriteOutputs(producer, io[i]);
      assert io[..i + 1][..i] == io[..i];
    }
    assert io[..|io|] == io;
  }

  lemma {:induction false} ProducedIffWritten(io: seq<Io>, d: string)
    ensures d in ProducerOf(io) <==> exists x :: x in io && d in x.outs
  {
    if io != [] {
      var init, last := io[..|io| - 1], io[|io| - 1];
      ProducedIffWritten(init, d);
      assert forall x :: x in io <==> x in init || x == last;
    }
  }

  /** The producer of a dataset is the last service that writes it. */
  lemma {:induction false} ProducerIsLastWriter(io: seq<Io>, d: string)
    requires d in ProducerOf(io)
    ensures LastWriter(io, d, ProducerOf(io)[d])
  {
    var init, last := io[..|io| - 1], io[|io| - 1];
    if d !in last.outs {
      ProducerIsLastWriter(init, d);
      var k: nat :| k < |init| && init[k].sid == ProducerOf(init)[d] && d in init[k].outs && NotWrittenFrom(init, d, k + 1);
      assert io[k] == init[k];
      assert NotWrittenFrom(io, d, k + 1) by {
        assert forall j :: k < j < |init| ==> io[j] == init[j];
      }
    } else {
      assert NotWrittenFrom(io, d, |io| - 1 + 1);
      assert io[|io| - 1] == last;
    }
  }

  /** An input makes an edge when another service (with a non-empty id) produces it. */
  predicate Flows(producer: map<string, string>, d: string, sid: string)
  {
    d in producer && producer[d] != "" && producer[d] != sid
  }

  function EdgesInto(producer: map<string, string>, dtypes: map<string, string>, sid: string, ins: seq<string>)
    : seq<Edge>
    requires forall d :: d in ins ==> d in dtypes
  {
    if ins == [] then []
    else
      var d := ins[|ins| - 1];
      EdgesInto(producer, dtypes, sid, ins[..|ins| - 1])
      + (if Flows(producer, d, sid)
         then [Edge(producer[d], sid, d, if dtypes[d] == "kafka" then "stream" else "batch")]
         else [])
  }

  function EdgesOf(producer: map<string, string>, dtypes: map<string, string>, io: seq<Io>): seq<Edge>
    requires forall x, d :: x in io && d in x.ins ==> d in dtypes
  {
    if io == [] then []
    else EdgesOf(producer, dtypes, io[..|io| - 1])
         + EdgesInto(producer, dtypes, io[|io| - 1].sid, io[|io| - 1].ins)
  }

  method FlowEdges(producer: map<string, string>, dtypes: map<string, string>, io: seq<Io>) returns (edges: seq<Edge>)
    requires forall x, d :: x in io && d in x.ins ==> d in dtypes
    ensures edges == EdgesOf(producer, dtypes, io)
  {
    edges := [];
    for i := 0 to |io|
      invariant edges == EdgesOf(producer, dtypes, io[..i])
    {
      ghost var before := edges;
      var sid, ins := io[i].sid, io[i].ins;
      for j := 0 to |ins|
        invariant edges == before + EdgesInto(producer, dtypes, sid, ins[..j])
      {
        var d := ins[j];
        assert ins[..j + 1][..j] == ins[..j];
        if Flows(producer, d, sid) {
          edges := edges + [Edge(producer[d], sid, d, if dtypes[d] == "kafka" then "stream" else "batch")];
        }
      }
      assert ins[..|ins|] == ins;
      assert io[..i + 1][..i] == io[..i];
    }
    assert io[..|io|] == io;
  }

  lemma {:induction false} EdgeOrigin(producer: map<string, string>, dtypes: map<string, string>, sid: string,
                                      ins: seq<string>, e: Edge)
    requires forall d :: d in ins ==> d in dtypes
    ensures e in EdgesInto(producer, dtypes, sid, ins)
            <==> && e.target == sid && e.via in ins && Flows(producer, e.via, sid) && e.source == producer[e.via]
                 && e.channel == if dtypes[e.via] == "kafka" then "stream" else "batch"
  {
    if ins != [] {
      EdgeOrigin(producer, dtypes, sid, ins[..|ins| - 1], e);
      assert ins == ins[..|ins| - 1] + [ins[|ins| - 1]];
    }
  }

  /** There is a flow edge exactly where one service reads what another, its producer, writes. */
  lemma {:induction false} EdgesAreFlows(producer: map<string, string>, dtypes: map<string, string>, io: seq<Io>, e: Edge)
    requires forall x, d :: x in io && d in x.ins ==> d in dtypes
    ensures e in EdgesOf(producer, dtypes, io)
            <==> exists x :: x in io && e.target == x.sid && e.via in x.ins && Flows(producer, e.via, x.sid)
                             && e.source == producer[e.via]
                             && e.channel == (if dtypes[e.via] == "kafka" then "stream" else "batch")
  {
    if io != [] {
      var init, last := io[..|io| - 1], io[|io| - 1];
      assert io == init + [last];
      EdgesAreFlows(producer, dtypes, init, e);
      EdgeOrigin(producer, dtypes, last.sid, last.ins, e);
      assert last in io;
      assert forall x :: x in init ==> x in io;
      assert forall x :: x in io ==> x in init || x == last;
    }
  }

  /** Of the services that write a dataset only one is the last. */
  lemma LastWriterIsProducer(io: seq<Io>, d: string, sid: string)
    ensures LastWriter(io, d, sid) <==> d in ProducerOf(io) && ProducerOf(io)[d] == sid
  {
    ProducedIffWritten(io, d);
    if d in ProducerOf(io) {
      ProducerIsLastWriter(io, d);
      var k: nat :| k < |io| && io[k].sid == ProducerOf(io)[d] && d in io[k].outs && NotWrittenFrom(io, d, k + 1);
      if LastWriter(io, d, sid) {
        var j: nat :| j < |io| && io[j].sid == sid && d in io[j].outs && NotWrittenFrom(io, d, j + 1);
        assert j == k;
      }
    } else {
      forall j | 0 <= j < |io| ensures d !in io[j].outs {
        assert io[j] in io;
      }
    }
  }

  /** Some service reads a dataset whose last writer is another service. */
  ghost predicate ReadsFrom(io: seq<Io>, e: Edge)
  {
    exists x :: x in io && e.target == x.sid && e.via in x.ins && LastWriter(io, e.via, e.source)
                && e.source != "" && e.source != x.sid
  }

  /** The edges, said of the services alone: one for every read of what another service was the last to write. */
  lemma EdgesAreReads(dtypes: map<string, string>, io: seq<Io>, e: Edge)
    requires forall x, d :: x in io && d in x.ins ==> d in dtypes
    ensures e in EdgesOf(ProducerOf(io), dtypes, io)
            <==> ReadsFrom(io, e) && e.channel == (if dtypes[e.via] == "kafka" then "stream" else "batch")
  {
    EdgesAreFlows(ProducerOf(io), dtypes, io, e);
    LastWriterIsProducer(io, e.via, e.source);
  }

  // ---------------------------------------------------------------- paths

  ghost predicate HasEdge(edges: seq<Edge>, u: string, v: string)
  {
    exists k :: 0 <= k < |edges| && edges[k].source == u && edges[k].target == v
  }

  /** A non-empty walk along edges; its length is the number of edges. */
  ghost predicate IsPath(edges: seq<Edge>, p: seq<string>)
  {
    p != [] && forall k :: 0 <= k < |p| - 1 ==> HasEdge(edges, p[k], p[k + 1])
  }

  ghost predicate EndsIn(edges: seq<Edge>, p: seq<string>, v: string)
  {
    IsPath(edges, p) && p[|p| - 1] == v
  }

  ghost predicate IsSource(edges: seq<Edge>, v: string)
  {
    forall u :: !HasEdge(edges, u, v)
  }

  /** `n` is the length of a longest path into `v`, and some path of that length starts at a source. */
  ghost predicate IsLongest(edges: seq<Edge>, v: string, n: nat)
  {
    && (exists p :: EndsIn(edges, p, v) && |p| == n + 1 && IsSource(edges, p[0]))
    && (forall p :: EndsIn(edges, p, v) ==> |p| <= n + 1)
  }

  /** Some path of length `n` leads to `v`. */
  ghost predicate Reached(edges: seq<Edge>, v: string, n: nat)
  {
    exists p :: EndsIn(edges, p, v) && |p| == n + 1
  }

  ghost predicate Acyclic(edges: seq<Edge>)
  {
    forall p :: IsPath(edges, p) && |p| > 1 ==> p[0] != p[|p| - 1]
  }

  ghost predicate Over(ids: seq<string>, edges: seq<Edge>)
  {
    Distinct(ids) && forall k :: 0 <= k < |edges| ==> edges[k].source in ids && edges[k].target in ids
  }

  // ---------------------------------------------------------------- counting edges

  function Occurrences(s: seq<string>, v: string): nat
  {
    if s == [] then 0 else (if s[0] == v then 1 else 0) + Occurrences(s[1..], v)
  }

  lemma {:induction false} OccursIn(s: seq<string>, v: string)
    ensures Occurrences(s, v) > 0 <==> v in s
  {
    if s != [] {
      OccursIn(s[1..], v);
    }
  }

  /** The targets of the edges leaving `u`, in edge order. */
  function TargetsOf(edges: seq<Edge>, u: string): seq<string>
  {
    if edges == [] then []
    else
      var e := edges[|edges| - 1];
      TargetsOf(edges[..|edges| - 1], u) + (if e.source == u then [e.target] else [])
  }

  /** Edges into `v` whose source is not in `done`. */
  function Pending(edges: seq<Edge>, v: string, done: set<string>): nat
  {
    if edges == [] then 0
    else
      var e := edges[|edges| - 1];
      Pending(edges[..|edges| - 1], v, done) + (if e.target == v && e.source !in done then 1 else 0)
  }

  lemma {:induction false} PendingNone(edges: seq<Edge>, v: string, done: set<string>)
    ensures Pending(edges, v, done) == 0 <==> forall u :: HasEdge(edges, u, v) ==> u in done
  {
    if edges != [] {
      var init, e := edges[..|edges| - 1], edges[|edges| - 1];
      PendingNone(init, v, done);
      assert HasEdge(edges, e.source, e.target);
      assert forall u :: HasEdge(init, u, v) ==> HasEdge(edges, u, v) by {
        forall u | HasEdge(init, u, v)
          ensures HasEdge(edges, u, v)
        {
          var k :| 0 <= k < |init| && init[k].source == u && init[k].target == v;
          assert edges[k] == init[k];
        }
      }
      assert forall u :: HasEdge(edges, u, v) ==> HasEdge(init, u, v) || (e.source == u && e.target == v) by {
        forall u | HasEdge(edges, u, v)
          ensures HasEdge(init, u, v) || (e.source == u && e.target == v)
        {
          var k :| 0 <= k < |edges| && edges[k].source == u && edges[k].target == v;
          if k < |init| {
            assert edges[k] == init[k];
          }
        }
      }
    }
  }

  lemma {:induction false} OccurrencesAppend(s: seq<string>, x: string, v: string)
    ensures Occurrences(s + [x], v) == Occurrences(s, v) + (if x == v then 1 else 0)
  {
    if s == [] {
      assert s + [x] == [x];
    } else {
      assert (s + [x])[1..] == s[1..] + [x];
      OccurrencesAppend(s[1..], x, v);
    }
  }

  /** Finishing `c` removes exactly the edges from `c` from what `v` is waiting for. */
  lemma {:induction false} PendingDrops(edges: seq<Edge>, v: string, done: set<string>, c: string)
    requires c !in done
    ensures Pending(edges, v, done) == Pending(edges, v, done + {c}) + Occurrences(TargetsOf(edges, c), v)
  {
    if edges != [] {
      var init, e := edges[..|edges| - 1], edges[|edges| - 1];
      PendingDrops(init, v, done, c);
      if e.source == c {
        OccurrencesAppend(TargetsOf(init, c), e.target, v);
      } else {
        assert TargetsOf(edges, c) == TargetsOf(init, c);
      }
    }
  }

  lemma {:induction false} TargetsAreEdges(edges: seq<Edge>, u: string, v: string)
    ensures v in TargetsOf(edges, u) <==> HasEdge(edges, u, v)
  {
    if edges != [] {
      var init, e := edges[..|edges| - 1], edges[|edges| - 1];
      TargetsAreEdges(init, u, v);
      if HasEdge(edges, u, v) {
        var k :| 0 <= k < |edges| && edges[k].source == u && edges[k].target == v;
        if k < |init| {
          assert init[k] == edges[k];
        }
      }
      if HasEdge(init, u, v) {
        var k :| 0 <= k < |init| && init[k].source == u && init[k].target == v;
        assert edges[k] == init[k];
      }
      assert edges[|edges| - 1] == e;
    }
  }

  // ---------------------------------------------------------------- the rank loop

  /** The queue holds exactly the unfinished services that wait for nothing. */
  ghost predicate QueueOk(ids: seq<string>, done: set<string>, q: seq<string>, ind: map<string, int>)
  {
    && (forall v :: v in done ==> v in ids)
    && Distinct(q) && (forall v :: v in q ==> v in ids && v !in done)
    && (forall v :: v in ids ==> v in ind && (ind[v] == 0 <==> v in q || v in done))
  }

  /** Where the loop stands: `done` have been dequeued, `q` are ready, `rank` is right so far. */
  ghost predicate Progress(ids: seq<string>, edges: seq<Edge>, done: set<string>, q: seq<string>,
                           ind: map<string, int>, rank: map<string, nat>)
  {
    && QueueOk(ids, done, q, ind)
    && (forall v :: v in ids ==> ind[v] == Pending(edges, v, done))
    && (forall v {:trigger RankedBy(edges, done, rank, v)} :: v in ids ==> RankedBy(edges, done, rank, v))
  }

  /** `rank[v]` is the best offer of the finished predecessors of `v`. */
  ghost predicate RankedBy(edges: seq<Edge>, done: set<string>, rank: map<string, nat>, v: string)
  {
    && v in rank
    && (forall u :: u in done && HasEdge(edges, u, v) ==> u in rank && rank[u] + 1 <= rank[v])
    && (rank[v] == 0 || exists u :: u in done && HasEdge(edges, u, v) && u in rank && rank[u] + 1 == rank[v])
  }

  /** Inside the visit of `c`: the first `k` of its targets have been relaxed. */
  ghost predicate Visiting(ids: seq<string>, edges: seq<Edge>, done: set<string>, c: string, k: nat, q: seq<string>,
                           ind: map<string, int>, rank: map<string, nat>)
  {
    var ts := TargetsOf(edges, c);
    && k <= |ts| && c in done && c in rank
    && QueueOk(ids, done, q, ind)
    && (forall v :: v in ids ==> ind[v] == Pending(edges, v, done) + Occurrences(ts[k..], v))
    && (forall v {:trigger RankedInVisit(edges, done, c, ts[..k], rank, v)} ::
          v in ids ==> RankedInVisit(edges, done, c, ts[..k], rank, v))
  }

  /** `c` counts as a finished predecessor of the targets already relaxed only. */
  ghost predicate RankedInVisit(edges: seq<Edge>, done: set<string>, c: string, relaxed: seq<string>,
                                rank: map<string, nat>, v: string)
  {
    if v in relaxed then RankedBy(edges, done, rank, v) else RankedBy(edges, done - {c}, rank, v)
  }

  lemma VisitStarts(ids: seq<string>, edges: seq<Edge>, done: set<string>, q: seq<string>,
                    ind: map<string, int>, rank: map<string, nat>)
    requires Over(ids, edges) && Progress(ids, edges, done, q, ind, rank) && q != []
    ensures Visiting(ids, edges, done + {q[0]}, q[0], 0, q[1..], ind, rank)
  {
    var c := q[0];
    var ts := TargetsOf(edges, c);
    assert ts[0..] == ts && ts[..0] == [];
    assert done + {c} - {c} == done;
    forall v | v in ids
      ensures RankedInVisit(edges, done + {c}, c, ts[..0], rank, v)
    {
      assert RankedBy(edges, done, rank, v);
    }
    forall v | v in ids
      ensures ind[v] == Pending(edges, v, done + {c}) + Occurrences(ts, v)
    {
      PendingDrops(edges, v, done, c);
    }
    assert q == [c] + q[1..];
  }

  lemma VisitEnds(ids: seq<string>, edges: seq<Edge>, done: set<string>, c: string, q: seq<string>,
                  ind: map<string, int>, rank: map<string, nat>)
    requires Over(ids, edges) && Visiting(ids, edges, done, c, |TargetsOf(edges, c)|, q, ind, rank)
    ensures Progress(ids, edges, done, q, ind, rank)
  {
    var ts := TargetsOf(edges, c);
    assert ts[|ts|..] == [] && ts[..|ts|] == ts;
    forall v | v in ids
      ensures RankedBy(edges, done, rank, v)
    {
      TargetsAreEdges(edges, c, v);
      assert RankedInVisit(edges, done, c, ts, rank, v);
    }
  }

  /** The next target of `c` is a service still waiting, and not only for finished ones. */
  lemma NextTarget(ids: seq<string>, edges: seq<Edge>, done: set<string>, c: string, k: nat, q: seq<string>,
                   ind: map<string, int>, rank: map<string, nat>)
    requires Over(ids, edges) && Visiting(ids, edges, done, c, k, q, ind, rank) && k < |TargetsOf(edges, c)|
    ensures var b := TargetsOf(edges, c)[k];
            b in ids && ind[b] >= 1 && b !in q && b !in done && HasEdge(edges, c, b)
  {
    var ts := TargetsOf(edges, c);
    var b := ts[k];
    TargetsAreEdges(edges, c, b);
    assert b in ids by {
      var e :| 0 <= e < |edges| && edges[e].source == c && edges[e].target == b;
    }
    assert ts[k..][0] == b;
    OccursIn(ts[k..], b);
  }

  lemma CountsStep(ids: seq<string>, edges: seq<Edge>, done: set<string>, c: string, k: nat, q: seq<string>,
                   ind: map<string, int>, rank: map<string, nat>, v: string)
    requires Over(ids, edges) && Visiting(ids, edges, done, c, k, q, ind, rank)
    requires k < |TargetsOf(edges, c)| && v in ids && TargetsOf(edges, c)[k] in ids
    ensures var ts := TargetsOf(edges, c);
            ind[ts[k] := ind[ts[k]] - 1][v] == Pending(edges, v, done) + Occurrences(ts[k + 1..], v)
  {
    var ts := TargetsOf(edges, c);
    assert ts[k..][1..] == ts[k + 1..];
  }

  lemma QueueStep(ids: seq<string>, done: set<string>, q: seq<string>, ind: map<string, int>, b: string,
                  q': seq<string>, ind': map<string, int>)
    requires QueueOk(ids, done, q, ind) && b in ids && ind[b] >= 1 && b !in q && b !in done
    requires ind' == ind[b := ind[b] - 1] && q' == if ind'[b] == 0 then q + [b] else q
    ensures QueueOk(ids, done, q', ind')
  {
  }

  lemma RaisingAnother(edges: seq<Edge>, finished: set<string>, rank: map<string, nat>, v: string, b: string, n: nat)
    requires RankedBy(edges, finished, rank, v) && v != b && b !in finished
    ensures RankedBy(edges, finished, rank[b := n], v)
  {
  }

  function Relaxed(rank: map<string, nat>, c: string, b: string): map<string, nat>
    requires b in rank && c in rank
  {
    rank[b := if rank[b] < rank[c] + 1 then rank[c] + 1 else rank[b]]
  }

  lemma RaisingByOffer(edges: seq<Edge>, done: set<string>, c: string, rank: map<string, nat>, b: string)
    requires c in done && c in rank && b !in done && HasEdge(edges, c, b)
    requires RankedBy(edges, done, rank, b) || RankedBy(edges, done - {c}, rank, b)
    ensures RankedBy(edges, done, Relaxed(rank, c, b), b)
  {
  }

  lemma RelaxKeepsRanked(edges: seq<Edge>, done: set<string>, c: string, k: nat, rank: map<string, nat>, v: string)
    requires k < |TargetsOf(edges, c)| && c in done && c in rank && TargetsOf(edges, c)[k] !in done
    requires TargetsOf(edges, c)[k] in rank
    requires RankedInVisit(edges, done, c, TargetsOf(edges, c)[..k], rank, v)
    ensures RankedInVisit(edges, done, c, TargetsOf(edges, c)[..k + 1], Relaxed(rank, c, TargetsOf(edges, c)[k]), v)
  {
    var ts := TargetsOf(edges, c);
    var b := ts[k];
    assert ts[..k + 1] == ts[..k] + [b];
    if v == b {
      TargetsAreEdges(edges, c, b);
      RaisingByOffer(edges, done, c, rank, b);
    } else {
      RaisingAnother(edges, if v in ts[..k] then done else done - {c}, rank, v, b, Relaxed(rank, c, b)[b]);
    }
  }

  /** Relaxing one edge keeps the visit on course. */
  lemma VisitStep(ids: seq<string>, edges: seq<Edge>, done: set<string>, c: string, k: nat, q: seq<string>,
                  ind: map<string, int>, rank: map<string, nat>,
                  b: string, q': seq<string>, ind': map<string, int>, rank': map<string, nat>)
    requires Over(ids, edges) && Visiting(ids, edges, done, c, k, q, ind, rank)
    requires k < |TargetsOf(edges, c)| && b == TargetsOf(edges, c)[k] && b in ind && b in rank
    requires ind' == ind[b := ind[b] - 1] && q' == (if ind'[b] == 0 then q + [b] else q)
    requires rank' == Relaxed(rank, c, b)
    ensures Visiting(ids, edges, done, c, k + 1, q', ind', rank')
  {
    NextTarget(ids, edges, done, c, k, q, ind, rank);
    QueueStep(ids, done, q, ind, b, q', ind');
    forall v | v in ids
      ensures ind'[v] == Pending(edges, v, done) + Occurrences(TargetsOf(edges, c)[k + 1..], v)
      ensures RankedInVisit(edges, done, c, TargetsOf(edges, c)[..k + 1], rank', v)
    {
      CountsStep(ids, edges, done, c, k, q, ind, rank, v);
      RelaxKeepsRanked(edges, done, c, k, rank, v);
    }
  }

  lemma TargetsAreServices(ids: seq<string>, edges: seq<Edge>, c: string)
    requires Over(ids, edges)
    ensures forall v :: v in TargetsOf(edges, c) ==> v in ids
  {
    forall v | v in TargetsOf(edges, c)
      ensures v in ids
    {
      TargetsAreEdges(edges, c, v);
      var e :| 0 <= e < |edges| && edges[e].source == c && edges[e].target == v;
    }
  }

  /** Dequeue `c` and relax its outgoing edges; targets that wait for nothing more join the queue. */
  method Visit(ghost ids: seq<string>, ghost edges: seq<Edge>, ghost done: set<string>, c: string, targets: seq<string>,
               queue: seq<string>, waiting: map<string, int>, ranks: map<string, nat>)
    returns (q: seq<string>, ind: map<string, int>, rank: map<string, nat>)
    requires Over(ids, edges) && targets == TargetsOf(edges, c)
    requires Visiting(ids, edges, done, c, 0, queue, waiting, ranks)
    ensures Progress(ids, edges, done, q, ind, rank)
  {
    q, ind, rank := queue, waiting, ranks;
    TargetsAreServices(ids, edges, c);
    for k := 0 to |targets|
      invariant Visiting(ids, edges, done, c, k, q, ind, rank)
    {
      var b := targets[k];
      assert RankedInVisit(edges, done, c, targets[..k], rank, b);
      ghost var q0, ind0, rank0 := q, ind, rank;
      rank := rank[b := if rank[b] < rank[c] + 1 then rank[c] + 1 else rank[b]];
      ind := ind[b := ind[b] - 1];
      if ind[b] == 0 {
        q := q + [b];
      }
      VisitStep(ids, edges, done, c, k, q0, ind0, rank0, b, q, ind, rank);
    }
    VisitEnds(ids, edges, done, c, q, ind, rank);
  }

  // ---------------------------------------------------------------- set-up

  function Adjacency(ids: seq<string>, edges: seq<Edge>): map<string, seq<string>>
  {
    map i | i in ids :: TargetsOf(edges, i)
  }

  function InDegrees(ids: seq<string>, edges: seq<Edge>): map<string, int>
  {
    map i | i in ids :: Pending(edges, i, {})
  }

  ghost predicate Counted(edges: seq<Edge>, adj: map<string, seq<string>>, indeg: map<string, int>, i: string)
  {
    i in adj && i in indeg && adj[i] == TargetsOf(edges, i) && indeg[i] == Pending(edges, i, {})
  }

  lemma CountOne(edges: seq<Edge>, k: nat, adj: map<string, seq<string>>, indeg: map<string, int>, i: string)
    requires k < |edges| && Counted(edges[..k], adj, indeg, i)
    requires edges[k].source in adj && edges[k].target in indeg
    ensures Counted(edges[..k + 1], adj[edges[k].source := adj[edges[k].source] + [edges[k].target]],
                    indeg[edges[k].target := indeg[edges[k].target] + 1], i)
  {
    assert edges[..k + 1][..k] == edges[..k] && edges[..k + 1][k] == edges[k];
  }

  ghost predicate AllCounted(ids: seq<string>, edges: seq<Edge>, adj: map<string, seq<string>>,
                             indeg: map<string, int>)
  {
    adj.Keys == indeg.Keys == (set i | i in ids)
    && forall i {:trigger Counted(edges, adj, indeg, i)} :: i in ids ==> Counted(edges, adj, indeg, i)
  }

  lemma CountAll(ids: seq<string>, edges: seq<Edge>, k: nat, adj: map<string, seq<string>>, indeg: map<string, int>)
    requires Over(ids, edges) && k < |edges| && AllCounted(ids, edges[..k], adj, indeg)
    ensures edges[k].source in adj && edges[k].target in indeg
    ensures AllCounted(ids, edges[..k + 1], adj[edges[k].source := adj[edges[k].source] + [edges[k].target]],
                       indeg[edges[k].target := indeg[edges[k].target] + 1])
  {
    var e := edges[k];
    var adj', indeg' := adj[e.source := adj[e.source] + [e.target]], indeg[e.target := indeg[e.target] + 1];
    assert adj'.Keys == adj.Keys && indeg'.Keys == indeg.Keys;
    forall i | i in ids ensures Counted(edges[..k + 1], adj', indeg', i) {
      CountOne(edges, k, adj, indeg, i);
    }
  }

  lemma CountedAre(ids: seq<string>, edges: seq<Edge>, adj: map<string, seq<string>>, indeg: map<string, int>)
    requires AllCounted(ids, edges, adj, indeg)
    ensures adj == Adjacency(ids, edges) && indeg == InDegrees(ids, edges)
  {
    assert forall i :: i in ids ==> Counted(edges, adj, indeg, i);
  }

  method Degrees(ids: seq<string>, edges: seq<Edge>) returns (adj: map<string, seq<string>>, indeg: map<string, int>)
    requires Over(ids, edges)
    ensures adj == Adjacency(ids, edges) && indeg == InDegrees(ids, edges)
  {
    adj, indeg := map i | i in ids :: [], map i | i in ids :: 0;
    for k := 0 to |edges|
      invariant AllCounted(ids, edges[..k], adj, indeg)
    {
      var e := edges[k];
      CountAll(ids, edges, k, adj, indeg);
      adj := adj[e.source := adj[e.source] + [e.target]];
      indeg := indeg[e.target := indeg[e.target] + 1];
    }
    assert edges[..|edges|] == edges;
    CountedAre(ids, edges, adj, indeg);
  }

  /** The services nothing flows into, in the order listed. */
  method Sources(ids: seq<string>, indeg: map<string, int>) returns (q: seq<string>)
    requires Distinct(ids) && forall v :: v in ids ==> v in indeg
    ensures Distinct(q) && forall v :: v in q <==> v in ids && indeg[v] == 0
  {
    q := [];
    for k := 0 to |ids|
      invariant Distinct(q) && forall v :: v in q <==> v in ids[..k] && indeg[v] == 0
    {
      if indeg[ids[k]] == 0 {
        q := q + [ids[k]];
      }
    }
    assert ids[..|ids|] == ids;
  }

  lemma LoopStarts(ids: seq<string>, edges: seq<Edge>, q: seq<string>, ind: map<string, int>, rank: map<string, nat>)
    requires Over(ids, edges) && ind == InDegrees(ids, edges) && rank == map i | i in ids :: 0
    requires Distinct(q) && forall v :: v in q <==> v in ids && ind[v] == 0
    ensures Progress(ids, edges, {}, q, ind, rank)
  {
  }

  /**
    * The rank loop.  `order` lists the services in the order they are dequeued: none twice, so there
    * are at most as many turns as services.
    */
  method Rank(ids: seq<string>, edges: seq<Edge>) returns (rank: map<string, nat>, ghost order: seq<string>)
    requires Over(ids, edges)
    ensures Distinct(order) && forall v :: v in order ==> v in ids
    ensures forall v :: v in ids ==> v in rank
    ensures forall v :: v in order ==> IsLongest(edges, v, rank[v])
    ensures forall v, n: nat :: v in ids && v !in order ==> Reached(edges, v, n)
    ensures (forall v :: v in ids ==> v in order) <==> Acyclic(edges)
  {
    var adj, indeg := Degrees(ids, edges);
    rank := map i | i in ids :: 0;
    var ind := indeg;
    var q := Sources(ids, ind);
    LoopStarts(ids, edges, q, ind, rank);
    ghost var done: set<string> := {};
    ghost var all := set v | v in ids;
    order := [];
    while q != []
      invariant Progress(ids, edges, done, q, ind, rank)
      invariant Distinct(order) && forall v :: v in order <==> v in done
      decreases all - done
    {
      var c := q[0];
      VisitStarts(ids, edges, done, q, ind, rank);
      done := done + {c};
      order := order + [c];
      q, ind, rank := Visit(ids, edges, done, c, adj[c], q[1..], ind, rank);
    }
    assert forall v :: v in ids ==> RankedBy(edges, done, rank, v);
    Finish(ids, edges, done, ind, rank);
    Unfinished(ids, edges, done, ind, rank);
    AllDoneIffAcyclic(ids, edges, done, ind, rank);
  }

  // ---------------------------------------------------------------- what the final state means

  /** Nothing is waiting: every predecessor of a finished service is finished. */
  ghost predicate Settled(ids: seq<string>, edges: seq<Edge>, done: set<string>, rank: map<string, nat>)
  {
    && (forall v :: v in done ==> v in ids)
    && (forall v {:trigger RankedBy(edges, done, rank, v)} :: v in ids ==> RankedBy(edges, done, rank, v))
    && (forall u, v :: v in done && HasEdge(edges, u, v) ==> u in done)
    && (forall v {:trigger Waits(ids, edges, done, v)} :: v in ids && v !in done ==> Waits(ids, edges, done, v))
  }

  /** Some unfinished service flows into `v`. */
  ghost predicate Waits(ids: seq<string>, edges: seq<Edge>, done: set<string>, v: string)
  {
    exists u :: u in ids && u !in done && HasEdge(edges, u, v)
  }

  lemma Settles(ids: seq<string>, edges: seq<Edge>, done: set<string>, ind: map<string, int>, rank: map<string, nat>)
    requires Over(ids, edges) && Progress(ids, edges, done, [], ind, rank)
    ensures Settled(ids, edges, done, rank)
  {
    forall u, v | v in done && HasEdge(edges, u, v)
      ensures u in done
    {
      PendingNone(edges, v, done);
    }
    forall v | v in ids && v !in done
      ensures Waits(ids, edges, done, v)
    {
      PendingNone(edges, v, done);
      var u :| HasEdge(edges, u, v) && u !in done;
      var e :| 0 <= e < |edges| && edges[e].source == u && edges[e].target == v;
      assert u in ids;
    }
  }

  lemma ExtendPath(edges: seq<Edge>, p: seq<string>, u: string, v: string)
    requires EndsIn(edges, p, u) && HasEdge(edges, u, v)
    ensures EndsIn(edges, p + [v], v) && (p + [v])[0] == p[0]
  {
    var r := p + [v];
    forall k | 0 <= k < |r| - 1
      ensures HasEdge(edges, r[k], r[k + 1])
    {
      if k < |p| - 1 {
        assert r[k] == p[k] && r[k + 1] == p[k + 1];
      } else {
        assert r[k] == u && r[k + 1] == v;
      }
    }
  }

  lemma LastEdge(edges: seq<Edge>, p: seq<string>, v: string)
    requires EndsIn(edges, p, v) && |p| > 1
    ensures EndsIn(edges, p[..|p| - 1], p[|p| - 2]) && HasEdge(edges, p[|p| - 2], v)
  {
    assert HasEdge(edges, p[|p| - 2], p[|p| - 2 + 1]);
    var q := p[..|p| - 1];
    forall k | 0 <= k < |q| - 1
      ensures HasEdge(edges, q[k], q[k + 1])
    {
      assert HasEdge(edges, p[k], p[k + 1]);
    }
  }

  lemma {:induction false} PathOfRank(ids: seq<string>, edges: seq<Edge>, done: set<string>, rank: map<string, nat>, v: string)
    returns (p: seq<string>)
    requires Settled(ids, edges, done, rank) && v in done && v in rank
    ensures EndsIn(edges, p, v) && |p| == rank[v] + 1 && IsSource(edges, p[0])
    decreases rank[v]
  {
    assert RankedBy(edges, done, rank, v);
    if rank[v] == 0 {
      p := [v];
    } else {
      var u :| u in done && HasEdge(edges, u, v) && u in rank && rank[u] + 1 == rank[v];
      p := PathOfRank(ids, edges, done, rank, u);
      ExtendPath(edges, p, u, v);
      p := p + [v];
    }
  }

  lemma {:induction false} PathsAreBounded(ids: seq<string>, edges: seq<Edge>, done: set<string>, rank: map<string, nat>,
                                           v: string, p: seq<string>)
    requires Settled(ids, edges, done, rank) && v in done && v in rank && EndsIn(edges, p, v)
    ensures |p| <= rank[v] + 1
    decreases |p|
  {
    if |p| > 1 {
      var u := p[|p| - 2];
      LastEdge(edges, p, v);
      assert RankedBy(edges, done, rank, v);
      PathsAreBounded(ids, edges, done, rank, u, p[..|p| - 1]);
    }
  }

  lemma Finish(ids: seq<string>, edges: seq<Edge>, done: set<string>, ind: map<string, int>, rank: map<string, nat>)
    requires Over(ids, edges) && Progress(ids, edges, done, [], ind, rank)
    ensures forall v :: v in done ==> v in rank && IsLongest(edges, v, rank[v])
  {
    Settles(ids, edges, done, ind, rank);
    forall v | v in done
      ensures v in rank && IsLongest(edges, v, rank[v])
    {
      assert RankedBy(edges, done, rank, v);
      var p := PathOfRank(ids, edges, done, rank, v);
      forall r | EndsIn(edges, r, v)
        ensures |r| <= rank[v] + 1
      {
        PathsAreBounded(ids, edges, done, rank, v, r);
      }
    }
  }

  lemma PrependPath(edges: seq<Edge>, u: string, p: seq<string>, v: string)
    requires EndsIn(edges, p, v) && HasEdge(edges, u, p[0])
    ensures EndsIn(edges, [u] + p, v)
  {
    var r := [u] + p;
    forall k | 0 <= k < |r| - 1
      ensures HasEdge(edges, r[k], r[k + 1])
    {
      if k > 0 {
        assert r[k] == p[k - 1] && r[k + 1] == p[k - 1 + 1];
      }
    }
  }

  /** An unfinished service has unfinished predecessors all the way back. */
  lemma {:induction false} LongPathInto(ids: seq<string>, edges: seq<Edge>, done: set<string>, rank: map<string, nat>,
                                        v: string, n: nat) returns (p: seq<string>)
    requires Settled(ids, edges, done, rank) && v in ids && v !in done
    ensures EndsIn(edges, p, v) && |p| == n + 1 && p[0] in ids && p[0] !in done && forall x :: x in p ==> x in ids
  {
    if n == 0 {
      p := [v];
    } else {
      var tail := LongPathInto(ids, edges, done, rank, v, n - 1);
      assert Waits(ids, edges, done, tail[0]);
      var u :| u in ids && u !in done && HasEdge(edges, u, tail[0]);
      PrependPath(edges, u, tail, v);
      p := [u] + tail;
    }
  }

  lemma Unfinished(ids: seq<string>, edges: seq<Edge>, done: set<string>, ind: map<string, int>, rank: map<string, nat>)
    requires Over(ids, edges) && Progress(ids, edges, done, [], ind, rank)
    ensures forall v, n: nat :: v in ids && v !in done ==> Reached(edges, v, n)
  {
    Settles(ids, edges, done, ind, rank);
    forall v, n: nat | v in ids && v !in done
      ensures Reached(edges, v, n)
    {
      var p := LongPathInto(ids, edges, done, rank, v, n);
    }
  }

  lemma {:induction false} Repeats(s: seq<string>, pool: set<string>) returns (i: nat, j: nat)
    requires |s| > |pool| && forall x :: x in s ==> x in pool
    ensures i < j < |s| && s[i] == s[j]
  {
    var last := |s| - 1;
    if k: nat :| k < last && s[k] == s[last] {
      i, j := k, last;
    } else {
      i, j := Repeats(s[..last], pool - {s[last]});
    }
  }

  /** The loop dequeues every service exactly when no service can reach itself. */
  lemma AllDoneIffAcyclic(ids: seq<string>, edges: seq<Edge>, done: set<string>, ind: map<string, int>,
                          rank: map<string, nat>)
    requires Over(ids, edges) && Progress(ids, edges, done, [], ind, rank)
    ensures (forall v :: v in ids ==> v in done) <==> Acyclic(edges)
  {
    Settles(ids, edges, done, ind, rank);
    if forall v :: v in ids ==> v in done {
      forall p | IsPath(edges, p) && |p| > 1
        ensures p[0] != p[|p| - 1]
      {
        RankRisesAlong(ids, edges, done, rank, p);
      }
    } else {
      var v :| v in ids && v !in done;
      var pool := set x | x in ids;
      var p := LongPathInto(ids, edges, done, rank, v, |pool|);
      var i, j := Repeats(p, pool);
      SubPath(edges, p, i, j);
    }
  }

  lemma SubPath(edges: seq<Edge>, p: seq<string>, i: nat, j: nat)
    requires IsPath(edges, p) && i < j < |p|
    ensures var r := p[i..j + 1]; IsPath(edges, r) && |r| > 1 && r[0] == p[i] && r[|r| - 1] == p[j]
  {
    var r := p[i..j + 1];
    forall k | 0 <= k < |r| - 1
      ensures HasEdge(edges, r[k], r[k + 1])
    {
      assert HasEdge(edges, p[i + k], p[i + k + 1]);
    }
  }

  /** Along every edge between finished services the rank strictly rises. */
  lemma {:induction false} RankRisesAlong(ids: seq<string>, edges: seq<Edge>, done: set<string>, rank: map<string, nat>,
                                          p: seq<string>)
    requires Over(ids, edges) && Settled(ids, edges, done, rank) && (forall v :: v in ids ==> v in done)
    requires IsPath(edges, p) && |p| > 1
    ensures p[0] in rank && p[|p| - 1] in rank && rank[p[0]] < rank[p[|p| - 1]]
  {
    var v := p[|p| - 1];
    var u := p[|p| - 2];
    LastEdge(edges, p, v);
    var e :| 0 <= e < |edges| && edges[e].source == u && edges[e].target == v;
    assert RankedBy(edges, done, rank, v);
    if |p| > 2 {
      RankRisesAlong(ids, edges, done, rank, p[..|p| - 1]);
    }
  }

  /** In an acyclic graph every edge strictly raises the rank. */
  lemma EdgesRaiseRank(ids: seq<string>, edges: seq<Edge>, rank: map<string, nat>, u: string, v: string)
    requires Over(ids, edges) && (forall x :: x in ids ==> x in rank && IsLongest(edges, x, rank[x]))
    requires HasEdge(edges, u, v)
    ensures u in rank && v in rank && rank[u] < rank[v]
  {
    var e :| 0 <= e < |edges| && edges[e].source == u && edges[e].target == v;
    assert u in ids && v in ids;
    var p :| EndsIn(edges, p, u) && |p| == rank[u] + 1 && IsSource(edges, p[0]);
    ExtendPath(edges, p, u, v);
  }

  // ---------------------------------------------------------------- the whole model

  lemma {:induction false} EdgesJoinServices(ids: seq<string>, dtypes: map<string, string>, io: seq<Io>)
    requires Distinct(ids) && forall x :: x in io ==> x.sid in ids
    requires forall x, d :: x in io && d in x.ins ==> d in dtypes
    ensures Over(ids, EdgesOf(ProducerOf(io), dtypes, io))
  {
    var edges := EdgesOf(ProducerOf(io), dtypes, io);
    forall k | 0 <= k < |edges|
      ensures edges[k].source in ids && edges[k].target in ids
    {
      var e := edges[k];
      EdgesAreFlows(ProducerOf(io), dtypes, io, e);
      ProducerIsLastWriter(io, e.via);
      var j: nat :| j < |io| && io[j].sid == ProducerOf(io)[e.via];
      assert io[j] in io;
    }
  }

  lemma ReadIsEdge(dtypes: map<string, string>, io: seq<Io>, e: Edge)
    requires (forall x, d :: x in io && d in x.ins ==> d in dtypes) && ReadsFrom(io, e)
    ensures HasEdge(EdgesOf(ProducerOf(io), dtypes, io), e.source, e.target)
  {
    var listed := e.(channel := if dtypes[e.via] == "kafka" then "stream" else "batch");
    var x :| x in io && e.target == x.sid && e.via in x.ins && LastWriter(io, e.via, e.source) && e.source != x.sid;
    assert ReadsFrom(io, listed);
    EdgesAreReads(dtypes, io, listed);
  }

  /** Whoever reads another service's dataset ranks above it. */
  lemma ReadersRankHigher(ids: seq<string>, dtypes: map<string, string>, io: seq<Io>, rank: map<string, nat>)
    requires forall x, d :: x in io && d in x.ins ==> d in dtypes
    requires Over(ids, EdgesOf(ProducerOf(io), dtypes, io))
    requires forall x :: x in ids ==> x in rank && IsLongest(EdgesOf(ProducerOf(io), dtypes, io), x, rank[x])
    ensures forall e :: ReadsFrom(io, e) ==> e.source in rank && e.target in rank && rank[e.source] < rank[e.target]
  {
    forall e | ReadsFrom(io, e) ensures e.source in rank && e.target in rank && rank[e.source] < rank[e.target] {
      ReadIsEdge(dtypes, io, e);
      EdgesRaiseRank(ids, EdgesOf(ProducerOf(io), dtypes, io), rank, e.source, e.target);
    }
  }

  /** Producers, flow edges and ranks of a service catalogue. */
  method Model(ids: seq<string>, dtypes: map<string, string>, io: seq<Io>)
    returns (producer: map<string, string>, edges: seq<Edge>, rank: map<string, nat>)
    requires Distinct(ids) && forall x :: x in io ==> x.sid in ids
    requires forall x, d :: x in io && d in x.ins ==> d in dtypes
    ensures producer == ProducerOf(io) && edges == EdgesOf(producer, dtypes, io)
    ensures forall v :: v in ids ==> v in rank
    ensures Acyclic(edges) ==> forall v :: v in ids ==> IsLongest(edges, v, rank[v])
    ensures Acyclic(edges) ==>
              forall e :: ReadsFrom(io, e) ==> e.source in rank && e.target in rank && rank[e.source] < rank[e.target]
  {
    producer := Producers(io);
    edges := FlowEdges(producer, dtypes, io);
    EdgesJoinServices(ids, dtypes, io);
    ghost var order;
    rank, order := Rank(ids, edges);
    if Acyclic(edges) {
      ReadersRankHigher(ids, dtypes, io, rank);
    }
  }
}
