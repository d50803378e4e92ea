/** `RelRc::new` and `RelRc::with_parents` (src/node.rs:53-77, src/node.rs:372-376). */
module HeapNew {
  import opened Prelude
  import opened HeapModel
  import opened HeapSteps

  /** The allocator hands out an address it never used before. */
  ghost function Grow<N, E>(w: World<N, E>): World<N, E> {
    w.(mem := w.mem + [Free])
  }

  lemma GrowRefs<N, E>(w: World<N, E>)
    ensures AllStrong(Grow(w)) == AllStrong(w) && AllWeak(Grow(w)) == AllWeak(w)
  {
    var mem' := Grow(w).mem;
    assert StrongParts(mem') == StrongParts(w.mem) + [multiset{}];
    assert WeakParts(mem') == WeakParts(w.mem) + [multiset{}];
    SumSnoc(StrongParts(w.mem), multiset{});
    SumSnoc(WeakParts(w.mem), multiset{});
  }

  lemma GrowInv<N, E>(w: World<N, E>)
    requires Inv(w)
    ensures Inv(Grow(w))
  {
    hide AllStrong, AllWeak;
    var w' := Grow(w);
    GrowRefs(w);
    assert forall a: Addr :: Live(w'.mem, a) <==> Live(w.mem, a);
    forall a: Addr | Live(w'.mem, a) ensures NodeOk(w'.mem, w'.log, a) {
      assert NodeOk(w.mem, w.log, a);
    }
    GrowTracked(w);
  }

  lemma GrowTracked<N, E>(w: World<N, E>)
    requires TrackedOk(w)
    ensures TrackedOk(Grow(w))
  {
    var w' := Grow(w);
    assert forall a: Addr :: Live(w'.mem, a) <==> Live(w.mem, a);
    forall t | t in w.tracked ensures LiveStamp(w'.mem, t.0) <==> LiveStamp(w.mem, t.0) {
      if LiveStamp(w.mem, t.0) {
        var a: Addr :| Live(w.mem, a) && w.mem[a].stamp == t.0;
        assert Live(w'.mem, a) && w'.mem[a].stamp == t.0;
      }
    }
  }

  // ----- register_outgoing_edges -----

  /** One round of the loop: push a weak copy of the `k`-th edge onto its source's list. */
  ghost function RegisterEdge<N, E>(w: World<N, E>, at: Addr, k: nat): World<N, E>
    requires Live(w.mem, at) && NodeOk(w.mem, w.log, at) && k < |w.mem[at].inner.value.incoming|
  {
    var e := w.mem[at].inner.value.incoming[k];
    var w1 := AddWeak(w, e.target);
    MoveOutgoing(w1, e.source, w1.mem[e.source].inner.value.outgoing + [WeakEdge(k, e.target)])
  }

  ghost function RegisterOutgoing<N, E>(w: World<N, E>, at: Addr, k: nat): World<N, E>
    requires Live(w.mem, at) && NodeOk(w.mem, w.log, at) && k <= |w.mem[at].inner.value.incoming|
    decreases |w.mem[at].inner.value.incoming| - k
  {
    if k == |w.mem[at].inner.value.incoming| then w
    else
      RegisterEdgeNodeOk(w, at, k);
      RegisterOutgoing(RegisterEdge(w, at, k), at, k + 1)
  }

  lemma RegisterEdgeNodeOk<N, E>(w: World<N, E>, at: Addr, k: nat)
    requires Live(w.mem, at) && NodeOk(w.mem, w.log, at) && k < |w.mem[at].inner.value.incoming|
    ensures Live(RegisterEdge(w, at, k).mem, at) && NodeOk(RegisterEdge(w, at, k).mem, RegisterEdge(w, at, k).log, at)
    ensures RegisterEdge(w, at, k).mem[at].inner.value.incoming == w.mem[at].inner.value.incoming
    ensures RegisterEdge(w, at, k).mem[at].stamp == w.mem[at].stamp
    ensures RegisterEdge(w, at, k) == w.(mem := RegisterEdge(w, at, k).mem)
  {
    var e := w.mem[at].inner.value.incoming[k];
    var w1 := AddWeak(w, e.target);
    var out := w1.mem[e.source].inner.value.outgoing;
    assert OutTargets(out + [WeakEdge(k, e.target)]) == OutTargets(out) + [e.target];
  }

  /** Edges of the node stamped `newest` are listed only up to position `k`. */
  ghost predicate ListedUpTo<N, E>(w: World<N, E>, newest: nat, k: nat) {
    forall p: Addr, e :: Live(w.mem, p) && e in w.mem[p].inner.value.outgoing ==>
      e.target.stamp < newest || (e.target.stamp == newest && e.index < k)
  }

  /** What holds between two rounds of the loop. */
  ghost predicate Registering<N, E>(w: World<N, E>, at: Addr, k: nat) {
    && Core(w) && TrackedOk(w) && Live(w.mem, at)
    && k <= |w.mem[at].inner.value.incoming|
    && OutCompleteBut(w, w.mem[at].stamp, k)
    && ListedUpTo(w, w.mem[at].stamp, k)
  }

  /** The node at `a` is still there, with at most a longer outgoing list. */
  ghost predicate Kept<N, E>(m: Memory<N, E>, m': Memory<N, E>, a: Addr) {
    && Live(m, a) && Live(m', a) && m'[a].stamp == m[a].stamp
    && m'[a].inner.value.value == m[a].inner.value.value
    && m'[a].inner.value.incoming == m[a].inner.value.incoming
    && m'[a].inner.value.link == m[a].inner.value.link
    && m[a].inner.value.outgoing <= m'[a].inner.value.outgoing
  }

  /** No node appears or disappears and all are kept. */
  ghost predicate AllKept<N, E>(m: Memory<N, E>, m': Memory<N, E>) {
    && |m| == |m'|
    && (forall a: Addr :: Live(m, a) <==> Live(m', a))
    && (forall a: Addr :: Live(m, a) ==> Kept(m, m', a))
  }

  lemma AllKeptRefl<N, E>(m: Memory<N, E>)
    ensures AllKept(m, m)
  {
  }

  lemma AllKeptTrans<N, E>(m: Memory<N, E>, m1: Memory<N, E>, m2: Memory<N, E>)
    requires AllKept(m, m1) && AllKept(m1, m2)
    ensures AllKept(m, m2)
  {
    forall a: Addr | Live(m, a) ensures Kept(m, m2, a) {
      assert Kept(m, m1, a) && Kept(m1, m2, a);
    }
  }

  lemma RegisterEdgeKept<N, E>(w: World<N, E>, at: Addr, k: nat)
    requires Live(w.mem, at) && NodeOk(w.mem, w.log, at) && k < |w.mem[at].inner.value.incoming|
    ensures AllKept(w.mem, RegisterEdge(w, at, k).mem)
  {
  }

  lemma RegisterEdgeOrdered<N, E>(w: World<N, E>, at: Addr, k: nat, p: Addr)
    requires Registering(w, at, k) && k < |w.mem[at].inner.value.incoming|
    requires p == w.mem[at].inner.value.incoming[k].source
    ensures Live(w.mem, p)
    ensures Ordered(w.mem[p].inner.value.outgoing + [WeakEdge(k, Weak(at, w.mem[at].stamp))])
    ensures TrueEdge(w.log, w.mem[p].stamp, WeakEdge(k, Weak(at, w.mem[at].stamp)))
  {
    hide CountsOk, RegsOk, TrackedOk;
    assert NodeOk(w.mem, w.log, at);
    var out := w.mem[p].inner.value.outgoing;
    assert forall i :: 0 <= i < |out| ==> out[i] in out;
  }

  lemma RegisterEdgeCore<N, E>(w: World<N, E>, at: Addr, k: nat)
    requires Registering(w, at, k) && k < |w.mem[at].inner.value.incoming|
    ensures NodeOk(w.mem, w.log, at)
    ensures Core(RegisterEdge(w, at, k)) && TrackedOk(RegisterEdge(w, at, k))
  {
    hide CountsOk, NodeOk, ShapeOk, OutSound, RegsOk, TrackedOk, SameNodes, OutCompleteBut, ListedUpTo;
    NodeAt(w, at);
    EdgeAt(w.mem, w.log, at, k);
    var e := w.mem[at].inner.value.incoming[k];
    var w1 := AddWeak(w, e.target);
    AddWeakCounts(w, e.target);
    SameNodesCore(w, w1);
    SameNodesTracked(w, w1);
    RegisterEdgeOrdered(w, at, k, e.source);
    assert w1.mem[e.source].inner == w.mem[e.source].inner;
    var out := w1.mem[e.source].inner.value.outgoing;
    var out' := out + [WeakEdge(k, e.target)];
    assert OutTargets(out') == OutTargets(out) + [e.target];
    MoveOutgoingCounts(w1, e.source, out');
    MoveOutgoingShape(w1, e.source, out');
    SetOutgoingTracked(w1, MoveOutgoing(w1, e.source, out'), e.source, out');
  }

  lemma EdgePushedAt<N, E>(w: World<N, E>, at: Addr, k: nat)
    requires Live(w.mem, at) && NodeOk(w.mem, w.log, at) && k < |w.mem[at].inner.value.incoming|
    ensures var w', e := RegisterEdge(w, at, k), w.mem[at].inner.value.incoming[k];
      && Live(w.mem, e.source) && Live(w'.mem, e.source) && e.target == Weak(at, w.mem[at].stamp)
      && w'.mem[e.source].inner.value.outgoing == w.mem[e.source].inner.value.outgoing + [WeakEdge(k, e.target)]
      && forall a: Addr :: Live(w.mem, a) && Live(w'.mem, a) && a != e.source ==>
           w'.mem[a].inner.value.outgoing == w.mem[a].inner.value.outgoing
  {
    hide NodeOk, OutTargets;
    EdgeAt(w.mem, w.log, at, k);
  }

  /** Every edge that has to be listed after the `k`-th round is listed. */
  lemma EdgeListed<N, E>(w: World<N, E>, at: Addr, k: nat, c: Addr, i: nat)
    requires Registering(w, at, k) && k < |w.mem[at].inner.value.incoming| && NodeOk(w.mem, w.log, at)
    requires Live(w.mem, c) && i < |w.mem[c].inner.value.incoming| && !(w.mem[c].stamp == w.mem[at].stamp && i >= k + 1)
    ensures var w', p := RegisterEdge(w, at, k), w.mem[c].inner.value.incoming[i].source;
      Live(w'.mem, p) && WeakEdge(i, Weak(c, w.mem[c].stamp)) in w'.mem[p].inner.value.outgoing
  {
    hide CountsOk, RegsOk, TrackedOk, OutSound, NodeOk, RegisterEdge, ListedUpTo;
    RegisterEdgeKept(w, at, k);
    EdgePushedAt(w, at, k);
    NodeAt(w, c);
    EdgeAt(w.mem, w.log, c, i);
    var p := w.mem[c].inner.value.incoming[i].source;
    assert Kept(w.mem, RegisterEdge(w, at, k).mem, p);
    if w.mem[c].stamp == w.mem[at].stamp && i == k { assert c == at; }
  }

  lemma RegisterEdgeComplete<N, E>(w: World<N, E>, at: Addr, k: nat)
    requires Registering(w, at, k) && k < |w.mem[at].inner.value.incoming| && NodeOk(w.mem, w.log, at)
    requires ShapeOk(RegisterEdge(w, at, k))
    ensures OutCompleteBut(RegisterEdge(w, at, k), w.mem[at].stamp, k + 1)
    ensures ListedUpTo(RegisterEdge(w, at, k), w.mem[at].stamp, k + 1)
  {
    hide Core, TrackedOk, NodeOk, RegisterEdge, ShapeOk;
    var w' := RegisterEdge(w, at, k);
    RegisterEdgeKept(w, at, k);
    forall c: Addr, i: nat | Live(w.mem, c) && i < |w.mem[c].inner.value.incoming|
      ensures !(w.mem[c].stamp == w.mem[at].stamp && i >= k + 1) ==>
        var p := w.mem[c].inner.value.incoming[i].source;
        Live(w'.mem, p) && WeakEdge(i, Weak(c, w.mem[c].stamp)) in w'.mem[p].inner.value.outgoing
    {
      if !(w.mem[c].stamp == w.mem[at].stamp && i >= k + 1) { EdgeListed(w, at, k, c, i); }
    }
    OnlyOneMore(w, at, k);
  }

  lemma OnlyOneMore<N, E>(w: World<N, E>, at: Addr, k: nat)
    requires Registering(w, at, k) && k < |w.mem[at].inner.value.incoming| && NodeOk(w.mem, w.log, at)
    ensures ListedUpTo(RegisterEdge(w, at, k), w.mem[at].stamp, k + 1)
  {
    hide Core, TrackedOk, NodeOk, RegisterEdge, OutCompleteBut;
    RegisterEdgeKept(w, at, k);
    EdgePushedAt(w, at, k);
  }

  lemma {:induction false} RegisterOutgoingInv<N, E>(w: World<N, E>, at: Addr, k: nat)
    requires Registering(w, at, k) && w.mem[at].stamp + 1 == |w.log|
    ensures NodeOk(w.mem, w.log, at)
    ensures Inv(RegisterOutgoing(w, at, k))
    ensures AllKept(w.mem, RegisterOutgoing(w, at, k).mem)
    ensures RegisterOutgoing(w, at, k) == w.(mem := RegisterOutgoing(w, at, k).mem)
    decreases |w.mem[at].inner.value.incoming| - k
  {
    hide CountsOk, NodeOk, ShapeOk, OutSound, RegsOk, TrackedOk, OutCompleteBut, ListedUpTo, RegisterEdge, Kept;
    NodeAt(w, at);
    if k == |w.mem[at].inner.value.incoming| {
      RegisteredAll(w, at, k);
      AllKeptRefl(w.mem);
    } else {
      var w' := RegisterEdge(w, at, k);
      RegisterEdgeNodeOk(w, at, k);
      RegisterEdgeCore(w, at, k);
      RegisterEdgeComplete(w, at, k);
      RegisterEdgeKept(w, at, k);
      RegisterOutgoingInv(w', at, k + 1);
      AllKeptTrans(w.mem, w'.mem, RegisterOutgoing(w', at, k + 1).mem);
    }
  }

  lemma RegisteredAll<N, E>(w: World<N, E>, at: Addr, k: nat)
    requires ShapeOk(w) && Live(w.mem, at) && k == |w.mem[at].inner.value.incoming|
    requires OutCompleteBut(w, w.mem[at].stamp, k)
    ensures OutCompleteBut(w, |w.log|, 0)
  {
    forall c: Addr, i: nat | Live(w.mem, c) && i < |w.mem[c].inner.value.incoming|
      ensures WeakEdge(i, Weak(c, w.mem[c].stamp)) in
        w.mem[w.mem[c].inner.value.incoming[i].source].inner.value.outgoing
    {
      if w.mem[c].stamp == w.mem[at].stamp { assert c == at; }
    }
  }

  // ----- with_parents -----

  /** The allocator may return any free address, or a new one. */
  ghost predicate CanAlloc<N, E>(w: World<N, E>, at: Addr) {
    at == |w.mem| || (at < |w.mem| && w.mem[at].Free?)
  }

  ghost predicate CanCreate<N, E>(w: World<N, E>, at: Addr, parents: seq<(Addr, E)>) {
    CanAlloc(w, at) && multiset(Addrs(parents)) <= w.handles
  }

  lemma ParentsLive<N, E>(w: World<N, E>, parents: seq<(Addr, E)>)
    requires CountsOk(w) && multiset(Addrs(parents)) <= w.handles
    ensures AllLive(w.mem, parents)
  {
    hide AllStrong, AllWeak;
    forall k | 0 <= k < |parents| ensures Live(w.mem, parents[k].0) {
      assert Addrs(parents)[k] in multiset(Addrs(parents));
      HandleIsStrong(w, parents[k].0);
    }
  }

  ghost function Ready<N, E>(w: World<N, E>, at: Addr): World<N, E> {
    if at == |w.mem| then Grow(w) else w
  }

  ghost function WithParents<N, E>(w: World<N, E>, at: Addr, value: N, parents: seq<(Addr, E)>): World<N, E>
    requires Inv(w) && CanCreate(w, at, parents)
  {
    AllocInv(w, at, value, parents);
    RegisterOutgoing(Alloc(Ready(w, at), at, value, parents), at, 0)
  }

  lemma ReadyInv<N, E>(w: World<N, E>, at: Addr)
    requires Inv(w) && CanAlloc(w, at)
    ensures Inv(Ready(w, at)) && at < |Ready(w, at).mem| && Ready(w, at).mem[at].Free?
    ensures forall a: Addr :: Live(w.mem, a) <==> Live(Ready(w, at).mem, a)
    ensures forall a: Addr :: Live(w.mem, a) ==> a != at && Ready(w, at).mem[a] == w.mem[a]
  {
    hide Inv;
    if at == |w.mem| { GrowInv(w); }
  }

  lemma AllocInv<N, E>(w: World<N, E>, at: Addr, value: N, parents: seq<(Addr, E)>)
    requires Inv(w) && CanCreate(w, at, parents)
    ensures AllLive(Ready(w, at).mem, parents)
    ensures var w1 := Alloc(Ready(w, at), at, value, parents);
            Registering(w1, at, 0) && NodeOk(w1.mem, w1.log, at)
  {
    hide CountsOk, NodeOk, ShapeOk, OutSound, RegsOk, TrackedOk, OutCompleteBut, ListedUpTo;
    ParentsLive(w, parents);
    ReadyInv(w, at);
    var w0 := Ready(w, at);
    AllocCounts(w0, at, value, parents);
    AllocShape(w0, at, value, parents);
    AllocOut(w0, at, value, parents);
    AllocTracked(w0, at, value, parents);
    AllocListed(w0, at, value, parents);
    NodeAt(Alloc(w0, at, value, parents), at);
  }

  lemma AllocListed<N, E>(w: World<N, E>, at: Addr, value: N, parents: seq<(Addr, E)>)
    requires OutSound(w) && at < |w.mem| && w.mem[at].Free? && AllLive(w.mem, parents)
    ensures ListedUpTo(Alloc(w, at, value, parents), |w.log|, 0)
  {
    var w' := Alloc(w, at, value, parents);
    forall p: Addr, e | Live(w'.mem, p) && e in w'.mem[p].inner.value.outgoing ensures e.target.stamp < |w.log| {
      assert p != at && Live(w.mem, p);
      assert TrueEdge(w.log, w.mem[p].stamp, e);
    }
  }

  /** The new node is the only new one: it holds the value and, in order, the given
      parents; all other nodes keep theirs; its stamp is new and so is its log entry. */
  lemma WithParentsEffect<N, E>(w: World<N, E>, at: Addr, value: N, parents: seq<(Addr, E)>)
    requires Inv(w) && CanCreate(w, at, parents)
    ensures AllLive(w.mem, parents)
    ensures var w' := WithParents(w, at, value, parents);
      && Inv(w')
      && w'.log == w.log + [Recorded(w.mem, value, parents)]
      && Live(w'.mem, at) && w'.mem[at].stamp == |w.log|
      && w'.mem[at].inner.value.value == value
      && w'.mem[at].inner.value.incoming == EdgesFrom(parents, Weak(at, |w.log|))
      && w'.mem[at].inner.value.link == None
      && (forall a: Addr :: a != at ==> (Live(w.mem, a) <==> Live(w'.mem, a)))
      && (forall a: Addr :: Live(w.mem, a) ==> Kept(w.mem, w'.mem, a))
      && w'.handles == w.handles - multiset(Addrs(parents)) + multiset{at}
      && w'.weaks == w.weaks && w'.regs == w.regs && w'.tracked == w.tracked
  {
    hide Core, OutOk, TrackedOk, CountsOk, Registering, NodeOk, Kept;
    CreateLive(w, parents);
    ReadyInv(w, at);
    AllocInv(w, at, value, parents);
    var w1 := Alloc(Ready(w, at), at, value, parents);
    var w' := WithParents(w, at, value, parents);
    assert Recorded(Ready(w, at).mem, value, parents) == Recorded(w.mem, value, parents);
    RegisteringFacts(w1, at);
    RegisterOutgoingInv(w1, at, 0);
    KeptParts(w1.mem, w'.mem, at);
    forall a: Addr | Live(w.mem, a) ensures Kept(w.mem, w'.mem, a) {
      KeptSame(w.mem, w1.mem, w'.mem, a);
    }
  }

  lemma CreateLive<N, E>(w: World<N, E>, parents: seq<(Addr, E)>)
    requires Core(w) && multiset(Addrs(parents)) <= w.handles
    ensures AllLive(w.mem, parents)
  {
    hide CountsOk;
    ParentsLive(w, parents);
  }

  lemma RegisteringFacts<N, E>(w: World<N, E>, at: Addr)
    requires Registering(w, at, 0)
    ensures Live(w.mem, at)
  {
  }

  lemma KeptParts<N, E>(m: Memory<N, E>, m': Memory<N, E>, a: Addr)
    requires Kept(m, m', a)
    ensures Live(m, a) && Live(m', a) && m'[a].stamp == m[a].stamp
    ensures m'[a].inner.value.(outgoing := m[a].inner.value.outgoing) == m[a].inner.value
  {
  }

  lemma KeptSame<N, E>(m: Memory<N, E>, m1: Memory<N, E>, m2: Memory<N, E>, a: Addr)
    requires Live(m, a) && a < |m1| && m1[a] == m[a] && Kept(m1, m2, a)
    ensures Kept(m, m2, a)
  {
  }
}
