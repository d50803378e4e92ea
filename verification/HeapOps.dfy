/** Handles, weak references and `all_outgoing` (src/node.rs:346-357). */
module HeapOps {
  import opened Prelude
  import opened HeapModel
  import opened HeapSteps
  import opened HeapDrop

  // ----- handles -----

  lemma AddHandleInv<N, E>(w: World<N, E>, a: Addr)
    requires Inv(w) && Live(w.mem, a)
    ensures Inv(AddHandle(w, a)) && SameNodes(w.mem, AddHandle(w, a).mem)
  {
    hide CountsOk, ShapeOk, OutSound, RegsOk, OutCompleteBut, TrackedOk, SameNodes;
    AddHandleCounts(w, a);
    SameNodesInv(w, AddHandle(w, a));
  }

  lemma AddWeakInv<N, E>(w: World<N, E>, k: Weak)
    requires Inv(w) && Pinned(w.mem, k)
    ensures Inv(AddWeak(w, k)) && SameNodes(w.mem, AddWeak(w, k).mem)
  {
    hide CountsOk, ShapeOk, OutSound, RegsOk, OutCompleteBut, TrackedOk, SameNodes;
    AddWeakCounts(w, k);
    SameNodesInv(w, AddWeak(w, k));
  }

  lemma SameNodesTrans<N, E>(m: Memory<N, E>, m1: Memory<N, E>, m2: Memory<N, E>)
    requires SameNodes(m, m1) && SameNodes(m1, m2)
    ensures SameNodes(m, m2)
  {
  }

  /** A temporary upgrade leaves no trace: taking a handle to a live node and dropping
      it again restores the world, with every registry entry still in place. */
  lemma UpgradeThenDrop<N, E>(w: World<N, E>, a: Addr)
    requires Inv(w) && Live(w.mem, a)
    ensures Inv(AddHandle(w, a)) && Owns(AddHandle(w, a), [Strong(a)])
    ensures Release(AddHandle(w, a), [Strong(a)]) == w
  {
    hide Inv, Strongs, Looses, SameNodes;
    LiveIsStrong(w, a);
    AddHandleInv(w, a);
    OneStrong(a);
    var w1 := AddHandle(w, a);
    EmptyRefs();
    assert DropOne(w1, Strong(a)) == (DropShared(w1, a), []);
    assert [] + [Strong(a)][1..] == [];
    OwnsNext(w1, [Strong(a)]);
    assert DropShared(w1, a).handles == w.handles;
    assert DropShared(w1, a).mem == w.mem;
  }

  lemma LiveIsStrong<N, E>(w: World<N, E>, a: Addr)
    requires Inv(w) && a < |w.mem| && w.mem[a].Used?
    ensures Live(w.mem, a) <==> w.mem[a].strong > 0
  {
    hide AllWeak, AllStrong, ShapeOk, OutSound, OutOk, RegsOk, TrackedOk;
    assert SlotCounted(w.mem[a], a, AllStrong(w), AllWeak(w));
  }

  // ----- all_outgoing -----

  /** `WeakEdge::upgrade`, which only looks at the address. */
  ghost function KeepLive<N, E>(mem: Memory<N, E>, es: seq<WeakEdge>): (r: seq<WeakEdge>)
    ensures forall e :: e in r <==> e in es && Live(mem, e.target.addr)
  {
    if es == [] then [] else (if Live(mem, es[0].target.addr) then [es[0]] else []) + KeepLive(mem, es[1..])
  }

  ghost function KeepDead<N, E>(mem: Memory<N, E>, es: seq<WeakEdge>): (r: seq<WeakEdge>)
    ensures forall e :: e in r <==> e in es && !Live(mem, e.target.addr)
  {
    if es == [] then [] else (if Live(mem, es[0].target.addr) then [] else [es[0]]) + KeepDead(mem, es[1..])
  }

  lemma OutTargetsCons(e: WeakEdge, es: seq<WeakEdge>)
    ensures multiset(OutTargets([e] + es)) == multiset{e.target} + multiset(OutTargets(es))
  {
    assert OutTargets([e] + es) == [e.target] + OutTargets(es);
  }

  lemma KeepCons<N, E>(mem: Memory<N, E>, e: WeakEdge, rest: seq<WeakEdge>)
    ensures KeepLive(mem, [e] + rest) == (if Live(mem, e.target.addr) then [e] else []) + KeepLive(mem, rest)
    ensures KeepDead(mem, [e] + rest) == (if Live(mem, e.target.addr) then [] else [e]) + KeepDead(mem, rest)
  {
    assert ([e] + rest)[1..] == rest;
  }

  lemma SplitCons(e: WeakEdge, rest: seq<WeakEdge>, live: seq<WeakEdge>, dead: seq<WeakEdge>, isLive: bool)
    requires multiset(OutTargets(rest)) == multiset(OutTargets(live)) + multiset(OutTargets(dead))
    ensures var live', dead' := (if isLive then [e] else []) + live, (if isLive then [] else [e]) + dead;
      multiset(OutTargets([e] + rest)) == multiset(OutTargets(live')) + multiset(OutTargets(dead'))
  {
    hide OutTargets;
    OutTargetsCons(e, rest);
    OutTargetsCons(e, live);
    OutTargetsCons(e, dead);
    assert [] + live == live && [] + dead == dead;
  }

  lemma {:induction false} KeepSplit<N, E>(mem: Memory<N, E>, es: seq<WeakEdge>)
    ensures multiset(OutTargets(es)) ==
      multiset(OutTargets(KeepLive(mem, es))) + multiset(OutTargets(KeepDead(mem, es)))
  {
    if es != [] {
      hide OutTargets, KeepLive, KeepDead, Live;
      var e, rest := es[0], es[1..];
      assert es == [e] + rest;
      KeepSplit(mem, rest);
      KeepCons(mem, e, rest);
      SplitCons(e, rest, KeepLive(mem, rest), KeepDead(mem, rest), Live(mem, e.target.addr));
    }
  }

  lemma {:induction false} KeepOrdered<N, E>(mem: Memory<N, E>, es: seq<WeakEdge>)
    requires Ordered(es)
    ensures Ordered(KeepLive(mem, es))
  {
    if es != [] {
      var rest := es[1..];
      assert Ordered(rest);
      KeepOrdered(mem, rest);
      assert forall e :: e in rest ==> Before(es[0], e);
      var kept := KeepLive(mem, rest);
      assert forall i :: 0 <= i < |kept| ==> kept[i] in kept;
    }
  }

  ghost function Upgraded(es: seq<WeakEdge>): (r: seq<Edge>)
    ensures |r| == |es| && forall i :: 0 <= i < |es| ==> r[i] == Edge(es[i].index, es[i].target.addr)
  {
    seq(|es|, i requires 0 <= i < |es| => Edge(es[i].index, es[i].target.addr))
  }

  /** The list without the dead entries, whose weak references are now loose. */
  ghost function Pruned<N, E>(w: World<N, E>, p: Addr): World<N, E>
    requires Live(w.mem, p)
  {
    MoveOutgoing(w, p, KeepLive(w.mem, w.mem[p].inner.value.outgoing))
  }

  lemma PrunedCore<N, E>(w: World<N, E>, p: Addr)
    requires Inv(w) && Live(w.mem, p)
    ensures Core(Pruned(w, p)) && TrackedOk(Pruned(w, p))
    ensures Pruned(w, p).weaks == w.weaks + multiset(OutTargets(KeepDead(w.mem, w.mem[p].inner.value.outgoing)))
  {
    hide CountsOk, ShapeOk, RegsOk, OutCompleteBut, TrackedOk, NodeOk, KeepLive, KeepDead, Ordered, TrueEdge;
    var out := w.mem[p].inner.value.outgoing;
    var kept := KeepLive(w.mem, out);
    KeepSplit(w.mem, out);
    KeepOrdered(w.mem, out);
    MoveOutgoingCounts(w, p, kept);
    MoveOutgoingShape(w, p, kept);
    SetOutgoingTracked(w, Pruned(w, p), p, kept);
  }

  lemma PrunedOut<N, E>(w: World<N, E>, p: Addr)
    requires Inv(w) && Live(w.mem, p) && ShapeOk(Pruned(w, p))
    ensures OutCompleteBut(Pruned(w, p), |w.log|, 0)
  {
    hide CountsOk, RegsOk, TrackedOk, OutSound, KeepLive;
    var w' := Pruned(w, p);
    forall c: Addr, i: nat | Live(w'.mem, c) && i < |w'.mem[c].inner.value.incoming|
      ensures WeakEdge(i, Weak(c, w'.mem[c].stamp)) in
        w'.mem[w'.mem[c].inner.value.incoming[i].source].inner.value.outgoing
    {
      assert Live(w.mem, c) && w.mem[c].stamp < |w.log|;
      NodeAt(w, c);
      EdgeAt(w.mem, w.log, c, i);
    }
  }

  lemma PrunedInv<N, E>(w: World<N, E>, p: Addr)
    requires Inv(w) && Live(w.mem, p)
    ensures Inv(Pruned(w, p))
    ensures Owns(Pruned(w, p), OutDebris(KeepDead(w.mem, w.mem[p].inner.value.outgoing)))
  {
    hide CountsOk, ShapeOk, RegsOk, TrackedOk, OutSound, KeepDead, OutCompleteBut, Pruned;
    PrunedCore(w, p);
    PrunedOut(w, p);
    assert Pruned(w, p).log == w.log by { PrunedLog(w, p); }
    OutDebrisRefs(KeepDead(w.mem, w.mem[p].inner.value.outgoing));
  }

  lemma PrunedLog<N, E>(w: World<N, E>, p: Addr)
    requires Live(w.mem, p)
    ensures Pruned(w, p).log == w.log
  {
  }

  /** `retain`: dead entries leave the list and their weak references are dropped. */
  ghost function Prune<N, E>(w: World<N, E>, p: Addr): World<N, E>
    requires Inv(w) && Live(w.mem, p)
  {
    PrunedInv(w, p);
    Release(Pruned(w, p), OutDebris(KeepDead(w.mem, w.mem[p].inner.value.outgoing)))
  }

  /** The nodes are the same, except that `p` has lost its dead entries. */
  ghost predicate PrunedOnly<N, E>(w: World<N, E>, w': World<N, E>, p: Addr)
    requires Live(w.mem, p)
  {
    && SameNodes(SetOutgoing(w, p, KeepLive(w.mem, w.mem[p].inner.value.outgoing)).mem, w'.mem)
    && w' == w.(mem := w'.mem)
  }

  lemma ReleaseOneLoose<N, E>(w: World<N, E>, k: Weak, rest: seq<Ref>)
    requires Inv(w) && Owns(w, [Loose(k)] + rest)
    ensures k in w.weaks && Pinned(w.mem, k) && w.mem[k.addr].weak > 0
    ensures var w1 := DropWeak(w, k);
      && Inv(w1) && Owns(w1, rest) && SameNodes(w.mem, w1.mem) && w1.regs == w.regs
      && Release(w, [Loose(k)] + rest) == Release(w1, rest)
  {
    hide Inv, SameNodes, Strongs, Looses, Owns, Release, Shrinks, DropOne, DropWeak;
    ReleaseStep(w, Loose(k), rest);
    DropOneLoose(w, k);
    assert [] + rest == rest;
  }

  /** Dropping only weak references kills no node and touches no registry. */
  lemma {:induction false} ReleaseLoose<N, E>(w: World<N, E>, es: seq<WeakEdge>)
    requires Inv(w) && Owns(w, OutDebris(es))
    ensures SameNodes(w.mem, Release(w, OutDebris(es)).mem)
    ensures Release(w, OutDebris(es)).regs == w.regs
    decreases |es|
  {
    hide Inv, SameNodes, Owns, LiveSet, Strongs, Looses, DropOne, DropWeak;
    if es == [] {
      SameNodesRefl(w.mem);
    } else {
      var rest := OutDebris(es[1..]);
      ReleaseOneLoose(w, es[0].target, rest);
      var w1 := DropWeak(w, es[0].target);
      ReleaseLoose(w1, es[1..]);
      SameNodesTrans(w.mem, w1.mem, Release(w1, rest).mem);
    }
  }

  lemma SameNodesRefl<N, E>(m: Memory<N, E>)
    ensures SameNodes(m, m)
  {
  }

  lemma PruneInv<N, E>(w: World<N, E>, p: Addr)
    requires Inv(w) && Live(w.mem, p)
    ensures Inv(Prune(w, p)) && PrunedOnly(w, Prune(w, p), p)
  {
    hide Inv, KeepLive, KeepDead, SameNodes, Shrinks, Owns, Strongs, Looses, Release;
    PrunedInv(w, p);
    var dead := KeepDead(w.mem, w.mem[p].inner.value.outgoing);
    var w1 := Pruned(w, p);
    PruneWeaks(w, p);
    ReleaseInv(w1, OutDebris(dead));
    ReleaseLoose(w1, dead);
    OutDebrisRefs(dead);
    ShrinksParts(w1, Prune(w, p));
  }

  lemma PruneWeaks<N, E>(w: World<N, E>, p: Addr)
    requires Inv(w) && Live(w.mem, p)
    ensures Pruned(w, p).weaks - multiset(OutTargets(KeepDead(w.mem, w.mem[p].inner.value.outgoing))) == w.weaks
  {
    hide Inv, KeepDead, Pruned;
    PrunedCore(w, p);
  }

  lemma ShrinksParts<N, E>(w: World<N, E>, w': World<N, E>)
    requires Shrinks(w, w')
    ensures w'.log == w.log && w'.tracked == w.tracked && |w'.regs| == |w.regs| && |w'.mem| == |w.mem|
  {
  }

  /** Every returned edge holds its target strongly. */
  ghost function TakeEdges<N, E>(w: World<N, E>, es: seq<Edge>): World<N, E>
    requires forall e :: e in es ==> Live(w.mem, e.target)
    decreases |es|
  {
    if es == [] then w
    else
      var w1 := AddHandle(w, es[0].target);
      assert forall a: Addr :: Live(w1.mem, a) <==> Live(w.mem, a);
      TakeEdges(w1, es[1..])
  }

  ghost function Held(es: seq<Edge>): multiset<Addr> {
    if es == [] then multiset{} else multiset{es[0].target} + Held(es[1..])
  }

  lemma {:induction false} TakeEdgesInv<N, E>(w: World<N, E>, es: seq<Edge>)
    requires Inv(w) && forall e :: e in es ==> Live(w.mem, e.target)
    ensures Inv(TakeEdges(w, es)) && SameNodes(w.mem, TakeEdges(w, es).mem)
    ensures TakeEdges(w, es) == w.(mem := TakeEdges(w, es).mem, handles := w.handles + Held(es))
    decreases |es|
  {
    hide Inv;
    if es != [] {
      var w1 := AddHandle(w, es[0].target);
      AddHandleInv(w, es[0].target);
      assert forall a: Addr :: Live(w1.mem, a) <==> Live(w.mem, a);
      TakeEdgesInv(w1, es[1..]);
      SameNodesTrans(w.mem, w1.mem, TakeEdges(w1, es[1..]).mem);
    }
  }

  ghost function OutEdges<N, E>(w: World<N, E>, p: Addr): seq<Edge>
    requires Live(w.mem, p)
  {
    Upgraded(KeepLive(w.mem, w.mem[p].inner.value.outgoing))
  }

  lemma OutEdgesLive<N, E>(w: World<N, E>, p: Addr)
    requires Live(w.mem, p)
    ensures forall e :: e in OutEdges(w, p) ==> Live(w.mem, e.target)
  {
    var kept := KeepLive(w.mem, w.mem[p].inner.value.outgoing);
    forall e | e in OutEdges(w, p) ensures Live(w.mem, e.target) {
      var i :| 0 <= i < |kept| && OutEdges(w, p)[i] == e;
      assert kept[i] in kept;
    }
  }

  lemma PrunedOnlyLive<N, E>(w: World<N, E>, w': World<N, E>, p: Addr)
    requires Live(w.mem, p) && PrunedOnly(w, w', p)
    ensures forall a: Addr :: Live(w'.mem, a) <==> Live(w.mem, a)
    ensures forall a: Addr :: Live(w.mem, a) ==> w'.mem[a].stamp == w.mem[a].stamp
    ensures forall a: Addr :: Live(w.mem, a) && a != p ==> w'.mem[a].inner == w.mem[a].inner
    ensures w'.mem[p].inner == Some(w.mem[p].inner.value.(outgoing := KeepLive(w.mem, w.mem[p].inner.value.outgoing)))
  {
    hide KeepLive;
    var w1 := SetOutgoing(w, p, KeepLive(w.mem, w.mem[p].inner.value.outgoing));
    forall a: Addr ensures Live(w'.mem, a) <==> Live(w.mem, a) {
      assert Live(w1.mem, a) <==> Live(w.mem, a);
    }
    assert Live(w1.mem, p);
  }

  ghost function AllOutgoing<N, E>(w: World<N, E>, p: Addr): World<N, E>
    requires Inv(w) && Live(w.mem, p)
  {
    PruneInv(w, p);
    OutEdgesLive(w, p);
    PrunedOnlyLive(w, Prune(w, p), p);
    TakeEdges(Prune(w, p), OutEdges(w, p))
  }

  lemma AllOutgoingInv<N, E>(w: World<N, E>, p: Addr)
    requires Inv(w) && Live(w.mem, p)
    ensures var w' := AllOutgoing(w, p);
      && Inv(w')
      && PrunedOnly(w, w'.(handles := w.handles), p)
      && w'.handles == w.handles + Held(OutEdges(w, p))
  {
    hide Inv, SameNodes, Prune, KeepLive, Held, OutEdges;
    PruneInv(w, p);
    OutEdgesLive(w, p);
    var w1, w' := Prune(w, p), AllOutgoing(w, p);
    PrunedOnlyLive(w, w1, p);
    TakeEdgesInv(w1, OutEdges(w, p));
    SameNodesTrans(SetOutgoing(w, p, KeepLive(w.mem, w.mem[p].inner.value.outgoing)).mem, w1.mem, w'.mem);
  }

  /** `c` is alive and its `i`-th parent is `p`. */
  ghost predicate IsChildEdge<N, E>(mem: Memory<N, E>, p: Addr, e: Edge) {
    && Live(mem, e.target)
    && e.index < |mem[e.target].inner.value.incoming|
    && mem[e.target].inner.value.incoming[e.index].source == p
  }

  lemma OutEntryPinned<N, E>(w: World<N, E>, p: Addr, e: WeakEdge)
    requires CountsOk(w) && Live(w.mem, p) && e in w.mem[p].inner.value.outgoing
    ensures Pinned(w.mem, e.target)
  {
    hide AllStrong, AllWeak;
    HeldByNode(w, p);
  }

  lemma OutEntryMeaning<N, E>(w: World<N, E>, p: Addr, e: WeakEdge)
    requires Core(w) && Live(w.mem, p) && e in w.mem[p].inner.value.outgoing && Live(w.mem, e.target.addr)
    ensures w.mem[e.target.addr].stamp == e.target.stamp
    ensures IsChildEdge(w.mem, p, Edge(e.index, e.target.addr))
  {
    hide CountsOk, RegsOk, Ordered;
    OutEntryPinned(w, p, e);
    assert TrueEdge(w.log, w.mem[p].stamp, e);
    NodeAt(w, e.target.addr);
    EdgeAt(w.mem, w.log, e.target.addr, e.index);
  }

  /** `all_outgoing` returns exactly the edges from `p` to live children, each once and
      in the order in which they were created; dereferencing a returned edge never
      fails; and only entries of dead children leave the list. */
  lemma AllOutgoingExact<N, E>(w: World<N, E>, p: Addr)
    requires Inv(w) && Live(w.mem, p)
    ensures forall e :: e in OutEdges(w, p) <==> IsChildEdge(w.mem, p, e)
    ensures forall i, j :: 0 <= i < j < |OutEdges(w, p)| ==> Created(w.mem, OutEdges(w, p)[i], OutEdges(w, p)[j])
    ensures NoDup(OutEdges(w, p))
  {
    hide Inv, KeepLive, OutEdges, IsChildEdge, Before;
    var kept, edges := KeepLive(w.mem, w.mem[p].inner.value.outgoing), OutEdges(w, p);
    KeptOrdered(w, p);
    forall i | 0 <= i < |kept| ensures OutEdgeIs(w, p, i) { OutEdgeMeaning(w, p, i); }
    forall e | e in edges ensures IsChildEdge(w.mem, p, e) {
      var i :| 0 <= i < |edges| && edges[i] == e;
      assert OutEdgeIs(w, p, i);
    }
    forall e: Edge | IsChildEdge(w.mem, p, e) ensures e in edges { ChildEdgeListed(w, p, e); }
    forall i, j | 0 <= i < j < |kept| ensures Created(w.mem, edges[i], edges[j]) && edges[i] != edges[j] {
      assert OutEdgeIs(w, p, i) && OutEdgeIs(w, p, j);
      BeforeCreated(w.mem, kept[i], kept[j]);
    }
  }

  /** Creation order of two edges of live nodes. */
  ghost predicate Created<N, E>(mem: Memory<N, E>, e: Edge, f: Edge) {
    && Live(mem, e.target) && Live(mem, f.target)
    && (mem[e.target].stamp < mem[f.target].stamp || (mem[e.target].stamp == mem[f.target].stamp && e.index < f.index))
  }

  lemma BeforeCreated<N, E>(mem: Memory<N, E>, e: WeakEdge, f: WeakEdge)
    requires Before(e, f) && Live(mem, e.target.addr) && Live(mem, f.target.addr)
    requires mem[e.target.addr].stamp == e.target.stamp && mem[f.target.addr].stamp == f.target.stamp
    ensures var e', f' := Edge(e.index, e.target.addr), Edge(f.index, f.target.addr); Created(mem, e', f') && e' != f'
  {
  }

  lemma KeptOrdered<N, E>(w: World<N, E>, p: Addr)
    requires Inv(w) && Live(w.mem, p)
    ensures var kept := KeepLive(w.mem, w.mem[p].inner.value.outgoing);
      |OutEdges(w, p)| == |kept| && forall i, j :: 0 <= i < j < |kept| ==> Before(kept[i], kept[j])
  {
    hide CountsOk, ShapeOk, RegsOk, TrackedOk, KeepLive, OutCompleteBut;
    KeepOrdered(w.mem, w.mem[p].inner.value.outgoing);
  }

  ghost predicate OutEdgeIs<N, E>(w: World<N, E>, p: Addr, i: nat)
    requires Live(w.mem, p)
  {
    var kept, edges := KeepLive(w.mem, w.mem[p].inner.value.outgoing), OutEdges(w, p);
    && i < |kept| && i < |edges| && edges[i] == Edge(kept[i].index, kept[i].target.addr)
      && IsChildEdge(w.mem, p, edges[i])
    && Live(w.mem, kept[i].target.addr) && w.mem[kept[i].target.addr].stamp == kept[i].target.stamp
  }

  lemma OutEdgeMeaning<N, E>(w: World<N, E>, p: Addr, i: nat)
    requires Inv(w) && Live(w.mem, p) && i < |KeepLive(w.mem, w.mem[p].inner.value.outgoing)|
    ensures OutEdgeIs(w, p, i)
  {
    hide Core, OutOk, TrackedOk, KeepLive, IsChildEdge;
    var kept := KeepLive(w.mem, w.mem[p].inner.value.outgoing);
    assert kept[i] in kept;
    OutEntryMeaning(w, p, kept[i]);
  }

  lemma ChildEdgeListed<N, E>(w: World<N, E>, p: Addr, e: Edge)
    requires Inv(w) && Live(w.mem, p) && IsChildEdge(w.mem, p, e)
    ensures e in OutEdges(w, p)
  {
    hide CountsOk, RegsOk, TrackedOk, NodeOk, KeepLive, OutSound;
    var out := w.mem[p].inner.value.outgoing;
    var kept := KeepLive(w.mem, out);
    var k := WeakEdge(e.index, Weak(e.target, w.mem[e.target].stamp));
    assert w.mem[e.target].stamp < |w.log|;
    assert k in out && k in kept;
    var i :| 0 <= i < |kept| && kept[i] == k;
    assert OutEdges(w, p)[i] == e;
  }

  // ----- weak references -----

  /** `RelWeak::upgrade` looks at the address only, yet a weak reference that still
      exists upgrades exactly while the node it was made from is alive, and then to
      that node, no matter how often the address has been reused. */
  lemma UpgradeExact<N, E>(w: World<N, E>, k: Weak)
    requires Inv(w) && k in AllWeak(w)
    ensures Live(w.mem, k.addr) <==> LiveStamp(w.mem, k.stamp)
    ensures Live(w.mem, k.addr) ==> w.mem[k.addr].stamp == k.stamp
  {
    hide AllStrong, AllWeak, NodeOk, OutSound, RegsOk, TrackedOk, OutOk;
    assert Pinned(w.mem, k);
    if LiveStamp(w.mem, k.stamp) {
      var a: Addr :| Live(w.mem, a) && w.mem[a].stamp == k.stamp;
      assert a == k.addr;
    }
  }
}
