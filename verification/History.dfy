/** `HistoryGraph`: a view of some of the nodes of a registry (src/history.rs). */
module History {
  import opened Prelude
  import opened HeapModel
  import opened HeapSteps
  import opened HeapNew
  import opened HeapDrop
  import opened HeapOps
  import opened HeapRegistry
  import opened HeapRuns
  import opened HeapEffects
  import opened HeapTracked

  datatype Graph = Graph(nodes: map<NodeId, Addr>, reg: RegId)

  datatype EdgeId = EdgeId(target: NodeId, index: nat)

  /** The registry exists, and every node of the graph is alive, linked to it and
      entered there under the graph's id. */
  ghost predicate GraphOk<N, E>(w: World<N, E>, g: Graph) {
    && g.reg < |w.regs| && w.regs[g.reg].open
    && forall id :: id in g.nodes ==> EntryOk(w, g.reg, id, g.nodes[id])
  }

  ghost predicate EntryOk<N, E>(w: World<N, E>, r: RegId, id: NodeId, a: Addr)
    requires r < |w.regs|
  {
    && Live(w.mem, a) && w.mem[a].inner.value.link == Some(r)
    && id in w.regs[r].nodes && w.regs[r].nodes[id] == Weak(a, w.mem[a].stamp)
  }

  // ----- reading the graph -----

  ghost function GetNodeId<N, E>(w: World<N, E>, g: Graph, a: Addr): Option<NodeId>
    requires g.reg < |w.regs|
  {
    var id := GetId(w.regs[g.reg], a);
    if id.Some? && id.value in g.nodes then id else None
  }

  ghost function GetEdge<N, E>(w: World<N, E>, g: Graph, e: EdgeId): Option<InEdge<E>>
    requires GraphOk(w, g)
  {
    if e.target !in g.nodes then None
    else
      var incoming := w.mem[g.nodes[e.target]].inner.value.incoming;
      if e.index < |incoming| && GetNodeId(w, g, incoming[e.index].source).Some? then Some(incoming[e.index]) else None
  }

  ghost function Source<N, E>(w: World<N, E>, g: Graph, e: EdgeId): Option<NodeId>
    requires GraphOk(w, g)
  {
    match GetEdge(w, g, e)
    case Some(edge) => GetNodeId(w, g, edge.source)
    case None => None
  }

  ghost function Target<N, E>(w: World<N, E>, g: Graph, e: EdgeId): Option<NodeId>
    requires GraphOk(w, g)
  {
    if GetEdge(w, g, e).Some? then Some(e.target) else None
  }

  ghost function IncomingUpTo<N, E>(w: World<N, E>, g: Graph, id: NodeId, n: nat): seq<EdgeId>
    requires GraphOk(w, g)
  {
    if n == 0 then []
    else IncomingUpTo(w, g, id, n - 1) + (if GetEdge(w, g, EdgeId(id, n - 1)).Some? then [EdgeId(id, n - 1)] else [])
  }

  ghost function IncomingEdges<N, E>(w: World<N, E>, g: Graph, id: NodeId): seq<EdgeId>
    requires GraphOk(w, g)
  {
    if id !in g.nodes then [] else IncomingUpTo(w, g, id, |w.mem[g.nodes[id]].inner.value.incoming|)
  }

  ghost function InGraph<N, E>(w: World<N, E>, g: Graph, es: seq<Edge>): seq<EdgeId>
    requires g.reg < |w.regs|
  {
    if es == [] then []
    else
      var id := GetNodeId(w, g, es[0].target);
      (if id.Some? then [EdgeId(id.value, es[0].index)] else []) + InGraph(w, g, es[1..])
  }

  ghost function OutgoingEdges<N, E>(w: World<N, E>, g: Graph, id: NodeId): seq<EdgeId>
    requires GraphOk(w, g)
  {
    if id !in g.nodes then [] else InGraph(w, g, OutEdges(w, g.nodes[id]))
  }

  ghost function SourcesOf<N, E>(w: World<N, E>, g: Graph, es: seq<EdgeId>): seq<NodeId>
    requires GraphOk(w, g)
  {
    if es == [] then []
    else
      var last := Source(w, g, es[|es| - 1]);
      SourcesOf(w, g, es[..|es| - 1]) + (if last.Some? then [last.value] else [])
  }

  ghost function TargetsOf<N, E>(w: World<N, E>, g: Graph, es: seq<EdgeId>): seq<NodeId>
    requires GraphOk(w, g)
  {
    if es == [] then []
    else
      var last := Target(w, g, es[|es| - 1]);
      TargetsOf(w, g, es[..|es| - 1]) + (if last.Some? then [last.value] else [])
  }

  /** `parents`. */
  ghost function Parents<N, E>(w: World<N, E>, g: Graph, id: NodeId): seq<NodeId>
    requires GraphOk(w, g)
  {
    SourcesOf(w, g, IncomingEdges(w, g, id))
  }

  /** `children`. */
  ghost function Children<N, E>(w: World<N, E>, g: Graph, id: NodeId): seq<NodeId>
    requires GraphOk(w, g)
  {
    TargetsOf(w, g, OutgoingEdges(w, g, id))
  }

  /** The graph knows a live node under `id` exactly if it holds that node under `id`. */
  lemma GetNodeIdExact<N, E>(w: World<N, E>, g: Graph, a: Addr)
    requires Inv(w) && GraphOk(w, g) && Live(w.mem, a)
    ensures forall id :: GetNodeId(w, g, a) == Some(id) <==> id in g.nodes && g.nodes[id] == a
    ensures GetNodeId(w, g, a).Some? <==> a in g.nodes.Values
  {
    hide Core, OutOk, TrackedOk;
    GetIdExact(w, g.reg, a);
    forall id | id in g.nodes ensures EntryOk(w, g.reg, id, g.nodes[id]) {
    }
    if a in g.nodes.Values {
      var id :| id in g.nodes && g.nodes[id] == a;
      assert GetNodeId(w, g, a) == Some(id);
    }
  }

  lemma SourcesAlive<N, E>(w: World<N, E>, c: Addr, i: nat)
    requires Inv(w) && Live(w.mem, c) && i < |w.mem[c].inner.value.incoming|
    ensures Live(w.mem, w.mem[c].inner.value.incoming[i].source)
  {
    hide CountsOk, OutSound, RegsOk, OutOk, TrackedOk, NodeOk;
    NodeAt(w, c);
    EdgeAt(w.mem, w.log, c, i);
  }

  /** An edge id is valid with source `u` exactly if its target is in the graph and the
      indexed parent is the graph's node `u`. */
  lemma SourceExact<N, E>(w: World<N, E>, g: Graph, e: EdgeId, u: NodeId)
    requires Inv(w) && GraphOk(w, g)
    ensures Source(w, g, e) == Some(u) <==>
      && u in g.nodes && e.target in g.nodes
      && e.index < |w.mem[g.nodes[e.target]].inner.value.incoming|
      && w.mem[g.nodes[e.target]].inner.value.incoming[e.index].source == g.nodes[u]
    ensures GetEdge(w, g, e).Some? <==> Source(w, g, e).Some?
    ensures Target(w, g, e) == Some(u) <==> Source(w, g, e).Some? && u == e.target
  {
    hide Inv;
    if e.target in g.nodes && e.index < |w.mem[g.nodes[e.target]].inner.value.incoming| {
      assert EntryOk(w, g.reg, e.target, g.nodes[e.target]);
      SourcesAlive(w, g.nodes[e.target], e.index);
      GetNodeIdExact(w, g, w.mem[g.nodes[e.target]].inner.value.incoming[e.index].source);
    }
  }

  /** `get_edge` gives the indexed parent edge of its target, with the value it was created
      with, exactly if both ends are in the graph. */
  lemma GetEdgeExact<N, E>(w: World<N, E>, g: Graph, e: EdgeId, x: InEdge<E>)
    requires Inv(w) && GraphOk(w, g)
    ensures GetEdge(w, g, e) == Some(x) <==>
      && e.target in g.nodes && e.index < |w.mem[g.nodes[e.target]].inner.value.incoming|
      && x == w.mem[g.nodes[e.target]].inner.value.incoming[e.index] && x.source in g.nodes.Values
    ensures GetEdge(w, g, e) == Some(x) ==>
      && var s := w.mem[g.nodes[e.target]].stamp;
      && s < |w.log| && e.index < |w.log[s].incoming| && Live(w.mem, x.source)
      && w.log[s].incoming[e.index] == (w.mem[x.source].stamp, x.value) && x.target == Weak(g.nodes[e.target], s)
  {
    hide Inv, NodeOk;
    if e.target in g.nodes && e.index < |w.mem[g.nodes[e.target]].inner.value.incoming| {
      assert EntryOk(w, g.reg, e.target, g.nodes[e.target]);
      SourcesAlive(w, g.nodes[e.target], e.index);
      GetNodeIdExact(w, g, w.mem[g.nodes[e.target]].inner.value.incoming[e.index].source);
      NodeStands(w, g.nodes[e.target]);
      EdgeAt(w.mem, w.log, g.nodes[e.target], e.index);
    }
  }

  lemma NodeStands<N, E>(w: World<N, E>, a: Addr)
    requires Inv(w) && Live(w.mem, a)
    ensures NodeOk(w.mem, w.log, a)
  {
    hide CountsOk, OutSound, RegsOk, OutOk, TrackedOk, NodeOk;
    NodeAt(w, a);
  }

  /** In the order of the parents. */
  ghost predicate ByIndex(es: seq<EdgeId>) {
    forall i, j :: 0 <= i < j < |es| ==> es[i].index < es[j].index
  }

  lemma {:induction false} IncomingUpToExact<N, E>(w: World<N, E>, g: Graph, id: NodeId, n: nat)
    requires GraphOk(w, g)
    ensures forall e :: e in IncomingUpTo(w, g, id, n) <==> e.target == id && e.index < n && GetEdge(w, g, e).Some?
    ensures ByIndex(IncomingUpTo(w, g, id, n))
  {
    hide GraphOk, GetEdge;
    if n > 0 {
      IncomingUpToExact(w, g, id, n - 1);
      var before := IncomingUpTo(w, g, id, n - 1);
      assert forall i :: 0 <= i < |before| ==> before[i] in before;
    }
  }

  /** Incoming edges: each valid edge id with this target, once, in the order of the parents. */
  lemma IncomingEdgesExact<N, E>(w: World<N, E>, g: Graph, id: NodeId)
    requires GraphOk(w, g)
    ensures forall e :: e in IncomingEdges(w, g, id) <==> e.target == id && GetEdge(w, g, e).Some?
    ensures ByIndex(IncomingEdges(w, g, id)) && NoDup(IncomingEdges(w, g, id))
  {
    hide IncomingUpTo;
    if id in g.nodes {
      assert EntryOk(w, g.reg, id, g.nodes[id]);
      IncomingUpToExact(w, g, id, |w.mem[g.nodes[id]].inner.value.incoming|);
    }
  }

  /** The elements of `s` that are in `vals`, in order. */
  ghost function Restrict<T>(s: seq<T>, vals: set<T>): (r: seq<T>) {
    if s == [] then []
    else Restrict(s[..|s| - 1], vals) + (if s[|s| - 1] in vals then [s[|s| - 1]] else [])
  }

  /** The nodes that some ids of the graph stand for. */
  ghost function NodesOf(g: Graph, ids: seq<NodeId>): (r: seq<Addr>)
    requires forall id :: id in ids ==> id in g.nodes
    ensures |r| == |ids| && forall i :: 0 <= i < |r| ==> r[i] == g.nodes[ids[i]]
  {
    seq(|ids|, i requires 0 <= i < |ids| => assert ids[i] in ids; g.nodes[ids[i]])
  }

  lemma SourcesSnoc<N, E>(w: World<N, E>, g: Graph, es: seq<EdgeId>, e: EdgeId)
    requires GraphOk(w, g)
    ensures SourcesOf(w, g, es + [e]) ==
      SourcesOf(w, g, es) + (if Source(w, g, e).Some? then [Source(w, g, e).value] else [])
  {
    hide GraphOk, Source;
    assert (es + [e])[..|es|] == es;
  }

  lemma {:induction false} ParentsUpTo<N, E>(w: World<N, E>, g: Graph, id: NodeId, n: nat)
    requires Inv(w) && GraphOk(w, g) && id in g.nodes && Live(w.mem, g.nodes[id])
    requires n <= |w.mem[g.nodes[id]].inner.value.incoming|
    ensures forall p :: p in SourcesOf(w, g, IncomingUpTo(w, g, id, n)) ==> p in g.nodes
    ensures NodesOf(g, SourcesOf(w, g, IncomingUpTo(w, g, id, n))) ==
      Restrict(Sources(w.mem[g.nodes[id]].inner.value.incoming)[..n], g.nodes.Values)
  {
    hide Inv, GraphOk, GetEdge, Source;
    if n > 0 {
      ParentsUpTo(w, g, id, n - 1);
      var sources, e := Sources(w.mem[g.nodes[id]].inner.value.incoming), EdgeId(id, n - 1);
      assert sources[..n][..n - 1] == sources[..n - 1];
      ParentAt(w, g, e);
      var before := IncomingUpTo(w, g, id, n - 1);
      assert IncomingUpTo(w, g, id, n) == if GetEdge(w, g, e).Some? then before + [e] else before;
      if GetEdge(w, g, e).Some? { SourcesSnoc(w, g, before, e); }
    }
  }

  /** The source of an edge of the graph is the id of the indexed parent. */
  lemma ParentAt<N, E>(w: World<N, E>, g: Graph, e: EdgeId)
    requires Inv(w) && GraphOk(w, g) && e.target in g.nodes && Live(w.mem, g.nodes[e.target])
    requires e.index < |w.mem[g.nodes[e.target]].inner.value.incoming|
    ensures var p := w.mem[g.nodes[e.target]].inner.value.incoming[e.index].source;
      && (GetEdge(w, g, e).Some? <==> p in g.nodes.Values) && (GetEdge(w, g, e).Some? <==> Source(w, g, e).Some?)
      && (Source(w, g, e).Some? ==> Source(w, g, e).value in g.nodes && g.nodes[Source(w, g, e).value] == p)
  {
    hide Inv, GraphOk, GetEdge, Source;
    GetEdgeExact(w, g, e, w.mem[g.nodes[e.target]].inner.value.incoming[e.index]);
    if GetEdge(w, g, e).Some? { GetEdgeExact(w, g, e, GetEdge(w, g, e).value); }
    SourceExact(w, g, e, if Source(w, g, e).Some? then Source(w, g, e).value else 0);
  }

  /** `parents` lists the parents that are in the graph, in the order in which the node
      was created with them; a parent given twice is listed twice. */
  lemma ParentsExact<N, E>(w: World<N, E>, g: Graph, id: NodeId)
    requires Inv(w) && GraphOk(w, g) && id in g.nodes && Live(w.mem, g.nodes[id])
    ensures forall p :: p in Parents(w, g, id) ==> p in g.nodes
    ensures NodesOf(g, Parents(w, g, id)) ==
      Restrict(Sources(w.mem[g.nodes[id]].inner.value.incoming), g.nodes.Values)
  {
    hide Inv, GraphOk, IncomingUpTo, SourcesOf;
    var incoming := w.mem[g.nodes[id]].inner.value.incoming;
    ParentsUpTo(w, g, id, |incoming|);
    assert Sources(incoming)[..|incoming|] == Sources(incoming);
  }

  /** `e` comes before `f` when the nodes are gone through in the order `ids`. */
  ghost predicate ListedBefore(ids: seq<NodeId>, e: EdgeId, f: EdgeId) {
    || (e.target == f.target && e.index < f.index)
    || exists a, b :: 0 <= a < b < |ids| && ids[a] == e.target && ids[b] == f.target
  }

  /** Listing the incoming edges of a duplicate-free list of nodes (`edge_references`). */
  ghost function EdgesOfAll<N, E>(w: World<N, E>, g: Graph, ids: seq<NodeId>): seq<EdgeId>
    requires GraphOk(w, g)
  {
    if ids == [] then [] else EdgesOfAll(w, g, ids[..|ids| - 1]) + IncomingEdges(w, g, ids[|ids| - 1])
  }

  /** Going through all nodes lists every edge of the graph exactly once, node by node. */
  lemma {:induction false} EdgesListedOnce<N, E>(w: World<N, E>, g: Graph, ids: seq<NodeId>)
    requires GraphOk(w, g) && NoDup(ids)
    ensures forall e :: e in EdgesOfAll(w, g, ids) <==> e.target in ids && GetEdge(w, g, e).Some?
    ensures NoDup(EdgesOfAll(w, g, ids))
    ensures var es := EdgesOfAll(w, g, ids); forall i, j :: 0 <= i < j < |es| ==> ListedBefore(ids, es[i], es[j])
  {
    hide GraphOk, GetEdge, IncomingEdges, ListedBefore;
    if ids != [] {
      var init, last := ids[..|ids| - 1], ids[|ids| - 1];
      EdgesListedOnce(w, g, init);
      IncomingEdgesExact(w, g, last);
      NoDupConcat(EdgesOfAll(w, g, init), IncomingEdges(w, g, last));
      ListedConcat(init, last, EdgesOfAll(w, g, init), IncomingEdges(w, g, last));
      assert ids == init + [last];
    }
  }

  lemma ListedConcat(ids: seq<NodeId>, last: NodeId, es: seq<EdgeId>, fs: seq<EdgeId>)
    requires forall i, j :: 0 <= i < j < |es| ==> ListedBefore(ids, es[i], es[j])
    requires (forall e :: e in es ==> e.target in ids) && (forall f :: f in fs ==> f.target == last) && ByIndex(fs)
    ensures forall i, j :: 0 <= i < j < |es + fs| ==> ListedBefore(ids + [last], (es + fs)[i], (es + fs)[j])
  {
    var all := ids + [last];
    forall i, j | 0 <= i < j < |es + fs| ensures ListedBefore(all, (es + fs)[i], (es + fs)[j]) {
      if j < |es| {
        assert ListedBefore(ids, es[i], es[j]);
        if !(es[i].target == es[j].target && es[i].index < es[j].index) {
          var a, b :| 0 <= a < b < |ids| && ids[a] == es[i].target && ids[b] == es[j].target;
          assert all[a] == es[i].target && all[b] == es[j].target;
        }
      } else if i < |es| {
        assert es[i] in es && fs[j - |es|] in fs;
        var a :| 0 <= a < |ids| && ids[a] == es[i].target;
        assert all[a] == es[i].target && all[|ids|] == last;
      } else {
        assert fs[i - |es|] in fs && fs[j - |es|] in fs;
      }
    }
  }

  lemma NoDupConcat<T>(s: seq<T>, t: seq<T>)
    requires NoDup(s) && NoDup(t) && forall x :: x in s ==> x !in t
    ensures NoDup(s + t)
  {
    forall i, j | 0 <= i < j < |s + t| ensures (s + t)[i] != (s + t)[j] {
      if i < |s| <= j { assert s[i] in s && t[j - |s|] in t; }
    }
  }

  lemma {:induction false} InGraphMembers<N, E>(w: World<N, E>, g: Graph, es: seq<Edge>, id: NodeId, i: nat)
    requires g.reg < |w.regs|
    ensures EdgeId(id, i) in InGraph(w, g, es) <==>
      exists e :: e in es && e.index == i && GetNodeId(w, g, e.target) == Some(id)
  {
    if es != [] {
      InGraphMembers(w, g, es[1..], id, i);
      assert es == [es[0]] + es[1..];
    }
  }

  lemma {:induction false} InGraphNoDup<N, E>(w: World<N, E>, g: Graph, es: seq<Edge>)
    requires Inv(w) && GraphOk(w, g) && NoDup(es) && forall e :: e in es ==> Live(w.mem, e.target)
    ensures NoDup(InGraph(w, g, es))
  {
    hide Inv, EntryOk;
    if es != [] {
      var e, rest := es[0], es[1..];
      InGraphNoDup(w, g, rest);
      var id := GetNodeId(w, g, e.target);
      if id.Some? {
        InGraphMembers(w, g, rest, id.value, e.index);
        GetNodeIdExact(w, g, e.target);
        forall f | f in rest && GetNodeId(w, g, f.target) == id ensures f.index != e.index {
          GetNodeIdExact(w, g, f.target);
        }
        NoDupConcat([EdgeId(id.value, e.index)], InGraph(w, g, rest));
      }
    }
  }

  /** The edge in memory that an edge id of the graph stands for. */
  ghost function EdgeOf(g: Graph, e: EdgeId): Edge {
    if e.target in g.nodes then Edge(e.index, g.nodes[e.target]) else Edge(e.index, 0)
  }

  ghost function EdgesAt(g: Graph, es: seq<EdgeId>): (r: seq<Edge>)
    ensures |r| == |es| && forall i :: 0 <= i < |r| ==> r[i] == EdgeOf(g, es[i])
  {
    seq(|es|, i requires 0 <= i < |es| => EdgeOf(g, es[i]))
  }

  /** The edges of which the target is in the graph, in the same order. */
  ghost function WithTargetIn(es: seq<Edge>, vals: set<Addr>): seq<Edge> {
    if es == [] then [] else (if es[0].target in vals then [es[0]] else []) + WithTargetIn(es[1..], vals)
  }

  lemma {:induction false} InGraphAt<N, E>(w: World<N, E>, g: Graph, es: seq<Edge>)
    requires Inv(w) && GraphOk(w, g) && forall e :: e in es ==> Live(w.mem, e.target)
    ensures EdgesAt(g, InGraph(w, g, es)) == WithTargetIn(es, g.nodes.Values)
  {
    hide Inv, GraphOk;
    if es != [] {
      InGraphAt(w, g, es[1..]);
      GetNodeIdExact(w, g, es[0].target);
    }
  }

  lemma {:induction false} FilteredOrder<N, E>(mem: Memory<N, E>, es: seq<Edge>, vals: set<Addr>)
    requires forall i, j :: 0 <= i < j < |es| ==> Created(mem, es[i], es[j])
    ensures var r := WithTargetIn(es, vals);
      && (forall e :: e in r <==> e in es && e.target in vals)
      && forall i, j :: 0 <= i < j < |r| ==> Created(mem, r[i], r[j])
  {
    hide Created;
    if es != [] {
      var e, rest := es[0], es[1..];
      assert es == [e] + rest;
      assert forall i :: 0 <= i < |rest| ==> rest[i] == es[i + 1];
      FilteredOrder(mem, rest, vals);
      var r := WithTargetIn(rest, vals);
      forall i | 0 <= i < |r| ensures Created(mem, e, r[i]) {
        assert r[i] in r;
        var j :| 0 <= j < |rest| && rest[j] == r[i];
        assert es[j + 1] == r[i];
      }
    }
  }

  /** `outgoing_edges` is in the order in which the edges were created, and `children` lists
      their targets in that order. */
  lemma OutgoingInOrder<N, E>(w: World<N, E>, g: Graph, u: NodeId)
    requires Inv(w) && GraphOk(w, g)
    ensures var es := EdgesAt(g, OutgoingEdges(w, g, u));
      forall i, j :: 0 <= i < j < |es| ==> Created(w.mem, es[i], es[j])
    ensures var es, cs := OutgoingEdges(w, g, u), Children(w, g, u);
      |cs| == |es| && forall i :: 0 <= i < |es| ==> cs[i] == es[i].target
  {
    hide Inv, GraphOk, InGraph, OutEdges, Source, Target, Created, NoDup, IsChildEdge;
    OutgoingEdgesExact(w, g, u);
    forall e | e in OutgoingEdges(w, g, u) ensures Target(w, g, e) == Some(e.target) { SourceExact(w, g, e, e.target); }
    AllTargets(w, g, OutgoingEdges(w, g, u));
    if u in g.nodes {
      GraphNode(w, g, u);
      var p := g.nodes[u];
      AllOutgoingExact(w, p);
      OutEdgesLive(w, p);
      InGraphAt(w, g, OutEdges(w, p));
      FilteredOrder(w.mem, OutEdges(w, p), g.nodes.Values);
    }
  }

  lemma {:induction false} AllTargets<N, E>(w: World<N, E>, g: Graph, es: seq<EdgeId>)
    requires GraphOk(w, g) && forall e :: e in es ==> Target(w, g, e) == Some(e.target)
    ensures |TargetsOf(w, g, es)| == |es| && forall i :: 0 <= i < |es| ==> TargetsOf(w, g, es)[i] == es[i].target
  {
    hide GraphOk, Target;
    if es != [] {
      var init, last := es[..|es| - 1], es[|es| - 1];
      assert last in es && forall e :: e in init ==> e in es;
      AllTargets(w, g, init);
    }
  }

  lemma {:induction false} AllSources<N, E>(w: World<N, E>, g: Graph, es: seq<EdgeId>)
    requires GraphOk(w, g)
    ensures forall p :: p in SourcesOf(w, g, es) <==> exists e :: e in es && Source(w, g, e) == Some(p)
  {
    hide GraphOk, Source;
    if es != [] {
      var init, last := es[..|es| - 1], es[|es| - 1];
      assert es == init + [last];
      AllSources(w, g, init);
    }
  }

  /** The outgoing edges of `u` are exactly the edges of the graph whose source is `u`,
      each once. */
  lemma OutgoingEdgesExact<N, E>(w: World<N, E>, g: Graph, u: NodeId)
    requires Inv(w) && GraphOk(w, g)
    ensures forall e :: e in OutgoingEdges(w, g, u) <==> Source(w, g, e) == Some(u)
    ensures NoDup(OutgoingEdges(w, g, u))
  {
    hide Inv, GraphOk, InGraph, OutEdges, Source;
    if u in g.nodes {
      GraphNode(w, g, u);
      var p := g.nodes[u];
      AllOutgoingExact(w, p);
      OutEdgesLive(w, p);
      InGraphNoDup(w, g, OutEdges(w, p));
    }
    forall e ensures e in OutgoingEdges(w, g, u) <==> Source(w, g, e) == Some(u) {
      OutgoingEdgeExact(w, g, u, e);
    }
  }

  lemma GraphNode<N, E>(w: World<N, E>, g: Graph, u: NodeId)
    requires GraphOk(w, g) && u in g.nodes
    ensures Live(w.mem, g.nodes[u])
  {
    assert EntryOk(w, g.reg, u, g.nodes[u]);
  }

  lemma OutgoingEdgeExact<N, E>(w: World<N, E>, g: Graph, u: NodeId, e: EdgeId)
    requires Inv(w) && GraphOk(w, g)
    ensures e in OutgoingEdges(w, g, u) <==> Source(w, g, e) == Some(u)
  {
    hide Inv, InGraph, OutEdges, Source, GetNodeId, NoDup;
    SourceExact(w, g, e, u);
    if u in g.nodes {
      assert EntryOk(w, g.reg, u, g.nodes[u]);
      var p := g.nodes[u];
      AllOutgoingExact(w, p);
      InGraphMembers(w, g, OutEdges(w, p), e.target, e.index);
      if e in OutgoingEdges(w, g, u) {
        var f :| f in OutEdges(w, p) && f.index == e.index && GetNodeId(w, g, f.target) == Some(e.target);
        GetNodeIdExact(w, g, f.target);
        assert IsChildEdge(w.mem, p, f);
      }
      if Source(w, g, e) == Some(u) {
        var c := g.nodes[e.target];
        assert EntryOk(w, g.reg, e.target, c);
        GetNodeIdExact(w, g, c);
        assert IsChildEdge(w.mem, p, Edge(e.index, c));
        assert Edge(e.index, c) in OutEdges(w, p);
      }
    }
  }

  /** `parents` and `children` are converse, and the lookups that the `petgraph` view
      expects to succeed do so. */
  lemma ParentChildConverse<N, E>(w: World<N, E>, g: Graph, p: NodeId, c: NodeId)
    requires Inv(w) && GraphOk(w, g)
    ensures p in Parents(w, g, c) <==> c in Children(w, g, p)
    ensures forall e :: e in IncomingEdges(w, g, c) ==> Source(w, g, e).Some?
    ensures forall e :: e in OutgoingEdges(w, g, p) ==> Target(w, g, e).Some?
  {
    hide Inv, GraphOk, IncomingEdges, OutgoingEdges, Source, Target, GetEdge, SourcesOf, TargetsOf, Created, NoDup,
         ByIndex;
    IncomingEdgesExact(w, g, c);
    OutgoingEdgesExact(w, g, p);
    AllSources(w, g, IncomingEdges(w, g, c));
    OutgoingInOrder(w, g, p);
    forall e ensures GetEdge(w, g, e).Some? <==> Source(w, g, e).Some? { SourceExact(w, g, e, p); }
    forall e | e in OutgoingEdges(w, g, p) ensures Target(w, g, e) == Some(e.target) { SourceExact(w, g, e, e.target); }
    var es, cs := OutgoingEdges(w, g, p), Children(w, g, p);
    if c in cs {
      var i :| 0 <= i < |cs| && cs[i] == c;
      assert es[i] in es && es[i] in IncomingEdges(w, g, c);
    }
    if p in Parents(w, g, c) {
      var e :| e in IncomingEdges(w, g, c) && Source(w, g, e) == Some(p);
      var i :| 0 <= i < |es| && es[i] == e;
      assert cs[i] == c;
    }
  }

  // ----- several graphs, and graphs over time -----

  /** Two graphs that hold the same node have the same registry and the same id for it. */
  lemma GraphsAgree<N, E>(w: World<N, E>, g: Graph, h: Graph, i: NodeId, j: NodeId)
    requires Inv(w) && GraphOk(w, g) && GraphOk(w, h) && i in g.nodes && j in h.nodes && g.nodes[i] == h.nodes[j]
    ensures g.reg == h.reg && i == j
  {
    hide Core, OutOk, TrackedOk;
    assert EntryOk(w, g.reg, i, g.nodes[i]) && EntryOk(w, h.reg, j, h.nodes[j]);
    GetIdExact(w, g.reg, g.nodes[i]);
  }

  /** The handles a graph owns, one for each of its nodes. */
  ghost predicate GraphOwns<N, E>(w: World<N, E>, g: Graph) {
    multiset(g.nodes.Values) <= w.handles
  }

  lemma OpenStays<N, E>(w: World<N, E>, op: Op<N, E>, r: RegId)
    requires Inv(w) && Enabled(w, op) && r < |w.regs| && w.regs[r].open && op != CloseEmpty(r)
    ensures r < |Apply(w, op).regs| && Apply(w, op).regs[r].open
  {
    hide Inv, Apply, SameNodes, DiedIn, Kept, ParentPositions, Registered, CanLink, LinkedOnly, CanCreate;
    ApplyEffect(w, op);
    var w' := Apply(w, op);
    if op.Drop? { assert RegShrinks(r, w.regs[r], w'.regs[r], w.mem, w'.mem); }
    if op.OpenRegistry? || op.Rebuild? { assert w'.regs[r] == w'.regs[..|w.regs|][r]; }
  }

  lemma StampStays<N, E>(w: World<N, E>, op: Op<N, E>, a: Addr)
    requires Inv(w) && Enabled(w, op) && Live(w.mem, a) && Live(Apply(w, op).mem, a)
    ensures Apply(w, op).mem[a].stamp == w.mem[a].stamp
  {
    hide CountsOk, NodeOk, OutSound, RegsOk, OutOk, TrackedOk, SameNodes, WithParents, Release, AllOutgoing, AddNode,
         TryRegister, Remove, Owns, PrunedOnly, LinkedOnly, Entered, CanCreate;
    var w' := Apply(w, op);
    ApplyInv(w, op);
    if op.Create? {
      WithParentsEffect(w, op.at, op.value, op.parents);
    } else {
      LogStays(w, op);
      ApplyEvolves(w, op);
      assert w'.mem[a].stamp < |w.log|;
    }
  }

  lemma LogStays<N, E>(w: World<N, E>, op: Op<N, E>)
    requires Inv(w) && Enabled(w, op) && !op.Create?
    ensures Apply(w, op).log == w.log
  {
    hide Inv, Apply, SameNodes, RegShrinks, ParentPositions, Enters, Forgets, CanLink, CanCreate;
    ApplyEffect(w, op);
  }

  /** Whatever the rest of the program does, a graph stays intact as long as it keeps its
      own handles and nobody removes one of its ids or the registry itself. */
  lemma GraphStable<N, E>(w: World<N, E>, op: Op<N, E>, g: Graph)
    requires Inv(w) && Enabled(w, op) && GraphOk(w, g)
    requires GraphOwns(Apply(w, op), g)
    requires op != CloseEmpty(g.reg) && forall id :: id in g.nodes ==> op != RemoveId(g.reg, id)
    ensures Inv(Apply(w, op)) && GraphOk(Apply(w, op), g)
  {
    hide Inv, Enabled, Apply;
    var w' := Apply(w, op);
    ApplyInv(w, op);
    OpenStays(w, op, g.reg);
    forall id | id in g.nodes ensures EntryOk(w', g.reg, id, g.nodes[id]) {
      assert g.nodes[id] in g.nodes.Values;
      EntryStable(w, op, g.reg, id, g.nodes[id]);
    }
  }

  lemma EntryStable<N, E>(w: World<N, E>, op: Op<N, E>, r: RegId, id: NodeId, a: Addr)
    requires Inv(w) && Enabled(w, op) && r < |w.regs| && EntryOk(w, r, id, a)
    requires a in Apply(w, op).handles && op != RemoveId(r, id)
    ensures r < |Apply(w, op).regs| && EntryOk(Apply(w, op), r, id, a)
  {
    hide Inv, Enabled, Apply;
    var w' := Apply(w, op);
    ApplyInv(w, op);
    OwnedStamp(w', a);
    StampStays(w, op, a);
    StampBelow(w, a);
    ApplyEvolves(w, op);
    EntryStays(w, op, r, id);
    IdBelow(w, r, id);
    assert LiveStamp(w'.mem, w.mem[a].stamp);
    assert RegEvolves(w.regs[r], w'.regs[r]);
  }

  // ----- graphs over whole runs -----

  /** The graph keeps a handle to each of its nodes, and nobody removes one of its ids or
      its registry. */
  ghost predicate LeftAlone<N, E>(w: World<N, E>, ops: seq<Op<N, E>>, g: Graph)
    requires Inv(w) && Legal(w, ops)
    decreases |ops|
  {
    ops == [] || (
      && ops[0] != CloseEmpty(g.reg) && (forall id :: id in g.nodes ==> ops[0] != RemoveId(g.reg, id))
      && (ApplyInv(w, ops[0]); GraphOwns(Apply(w, ops[0]), g) && LeftAlone(Apply(w, ops[0]), ops[1..], g)))
  }

  /** A graph stays intact over any run in which it is left alone. */
  lemma {:induction false} GraphStableRun<N, E>(w: World<N, E>, ops: seq<Op<N, E>>, g: Graph)
    requires Inv(w) && Legal(w, ops) && GraphOk(w, g) && LeftAlone(w, ops, g)
    ensures GraphOk(Exec(w, ops), g)
    decreases |ops|
  {
    hide Inv, Enabled, Apply, GraphOk, GraphOwns;
    if ops != [] {
      GraphStable(w, ops[0], g);
      GraphStableRun(Apply(w, ops[0]), ops[1..], g);
    }
  }

  lemma {:induction false} RegistersLog<N, E>(w: World<N, E>, ops: seq<Op<N, E>>, q: RegId)
    requires Inv(w) && Legal(w, ops) && Registers(ops, q)
    ensures Exec(w, ops).log == w.log
    decreases |ops|
  {
    hide Inv, Enabled, Apply;
    if ops != [] {
      assert ops[0] in ops;
      ApplyInv(w, ops[0]);
      LogStays(w, ops[0]);
      RegistersLog(Apply(w, ops[0]), ops[1..], q);
    }
  }

  lemma {:induction false} RegistersOpen<N, E>(w: World<N, E>, ops: seq<Op<N, E>>, q: RegId, r: RegId)
    requires Inv(w) && Legal(w, ops) && Registers(ops, q) && r < |w.regs| && w.regs[r].open
    ensures r < |Exec(w, ops).regs| && Exec(w, ops).regs[r].open
    decreases |ops|
  {
    hide Inv, Enabled, Apply;
    if ops != [] {
      assert ops[0] in ops;
      ApplyInv(w, ops[0]);
      OpenStays(w, ops[0], r);
      RegistersOpen(Apply(w, ops[0]), ops[1..], q, r);
    }
  }

  /** A graph survives whatever keeps names, creates no node and leaves it its handles: no
      address can have been reused. */
  lemma NamesKeepGraph<N, E>(w: World<N, E>, w': World<N, E>, g: Graph)
    requires Inv(w) && Inv(w') && KeepsNames(w, w') && w'.log == w.log && GraphOk(w, g) && GraphOwns(w', g)
    requires g.reg < |w'.regs| && w'.regs[g.reg].open
    ensures GraphOk(w', g)
  {
    hide Inv, EntryOk, KeepsNames;
    forall id | id in g.nodes ensures EntryOk(w', g.reg, id, g.nodes[id]) {
      assert EntryOk(w, g.reg, id, g.nodes[id]) && g.nodes[id] in g.nodes.Values;
      EntrySurvives(w, w', g.reg, id, g.nodes[id]);
    }
  }

  /** So it survives a run that only registers nodes. */
  lemma RegistersSpares<N, E>(w: World<N, E>, ops: seq<Op<N, E>>, w': World<N, E>, q: RegId, g: Graph)
    requires Runs(w, ops, w') && Registers(ops, q) && GraphOk(w, g) && GraphOwns(w', g)
    ensures GraphOk(w', g)
  {
    hide Inv, Legal, Exec, Registers, EntryOk, Evolves, KeepsNames;
    RunsInv(w, ops, w');
    RegistersOpen(w, ops, q, g.reg);
    RegistersLog(w, ops, q);
    RegistersKeepsNames(w, ops, w', q);
    NamesKeepGraph(w, w', g);
  }

  lemma EntrySurvives<N, E>(w: World<N, E>, w': World<N, E>, r: RegId, id: NodeId, a: Addr)
    requires Inv(w) && Inv(w') && w'.log == w.log && KeepsNames(w, w') && r < |w.regs| && EntryOk(w, r, id, a)
    requires a in w'.handles
    ensures r < |w'.regs| && EntryOk(w', r, id, a)
  {
    hide Inv, RegEvolves;
    OwnedStamp(w', a);
    assert LiveStamp(w'.mem, w'.mem[a].stamp);
    assert w'.mem[a].stamp == w.mem[a].stamp;
  }
}
