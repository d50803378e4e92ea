/** The memory of a relrc program: reference-counted allocations, the nodes inside
    them and the registries that name them (src/node.rs, src/edge.rs,
    src/registry.rs), together with the invariant every operation keeps. */
module HeapModel {
  import opened Prelude
  import opened Dag

  type Addr = nat
  type NodeId = nat
  type RegId = nat

  /** `RelWeak`. Operations only ever look at `addr`; `stamp` records which
      allocation the reference was made from, so that "does it still mean the same
      node" can be asked. */
  datatype Weak = Weak(addr: Addr, stamp: nat)

  /** `InnerEdgeData`, stored in the target node; `source` is a strong reference. */
  datatype InEdge<E> = InEdge(value: E, source: Addr, target: Weak)

  datatype WeakEdge = WeakEdge(index: nat, target: Weak)

  /** `Edge`: the target is held by a strong handle. */
  datatype Edge = Edge(index: nat, target: Addr)

  /** `InnerData`. */
  datatype Inner<N, E> = Inner(value: N, incoming: seq<InEdge<E>>, outgoing: seq<WeakEdge>, link: Option<RegId>)

  /** One address. The allocation stays in use until both counts are zero; the node
      inside it is dropped when the strong count reaches zero. */
  datatype Slot<N, E> = Free | Used(stamp: nat, strong: nat, weak: nat, inner: Option<Inner<N, E>>)

  /** `Registry`. A closed registry is one whose last `Rc` has been dropped. */
  datatype Reg = Reg(open: bool, nodes: map<NodeId, Weak>, ptrToId: map<Addr, NodeId>, nextId: NodeId)

  type Memory<N, E> = seq<Slot<N, E>>

  /** The whole state. `log` lists every node ever created, by stamp. `handles` and
      `weaks` are the strong and weak references owned outside of nodes and
      registries. `tracked` holds (stamp, registry) for every registration made
      through `try_register_in` and not undone by an explicit `remove`. */
  datatype World<N, E> = World(
    mem: Memory<N, E>,
    log: Arena<N, E>,
    regs: seq<Reg>,
    handles: multiset<Addr>,
    weaks: multiset<Weak>,
    tracked: set<(nat, RegId)>)

  ghost predicate Live<N, E>(mem: Memory<N, E>, a: Addr) {
    a < |mem| && mem[a].Used? && mem[a].inner.Some?
  }

  ghost predicate Pinned<N, E>(mem: Memory<N, E>, k: Weak) {
    k.addr < |mem| && mem[k.addr].Used? && mem[k.addr].stamp == k.stamp
  }

  // ----- the references held inside nodes and registries -----

  ghost function Sources<E>(es: seq<InEdge<E>>): (r: seq<Addr>)
    ensures |r| == |es| && forall k :: 0 <= k < |es| ==> r[k] == es[k].source
  {
    seq(|es|, k requires 0 <= k < |es| => es[k].source)
  }

  ghost function Targets<E>(es: seq<InEdge<E>>): (r: seq<Weak>)
    ensures |r| == |es| && forall k :: 0 <= k < |es| ==> r[k] == es[k].target
  {
    seq(|es|, k requires 0 <= k < |es| => es[k].target)
  }

  ghost function OutTargets(es: seq<WeakEdge>): (r: seq<Weak>)
    ensures |r| == |es| && forall k :: 0 <= k < |es| ==> r[k] == es[k].target
  {
    seq(|es|, k requires 0 <= k < |es| => es[k].target)
  }

  ghost function StrongOut<N, E>(s: Slot<N, E>): multiset<Addr> {
    if s.Used? && s.inner.Some? then multiset(Sources(s.inner.value.incoming)) else multiset{}
  }

  ghost function WeakOut<N, E>(s: Slot<N, E>): multiset<Weak> {
    if s.Used? && s.inner.Some?
    then multiset(Targets(s.inner.value.incoming)) + multiset(OutTargets(s.inner.value.outgoing))
    else multiset{}
  }

  ghost function StrongParts<N, E>(mem: Memory<N, E>): (r: seq<multiset<Addr>>)
    ensures |r| == |mem| && forall i :: 0 <= i < |mem| ==> r[i] == StrongOut(mem[i])
  {
    seq(|mem|, i requires 0 <= i < |mem| => StrongOut(mem[i]))
  }

  ghost function WeakParts<N, E>(mem: Memory<N, E>): (r: seq<multiset<Weak>>)
    ensures |r| == |mem| && forall i :: 0 <= i < |mem| ==> r[i] == WeakOut(mem[i])
  {
    seq(|mem|, i requires 0 <= i < |mem| => WeakOut(mem[i]))
  }

  ghost function RegParts(regs: seq<Reg>): (r: seq<multiset<Weak>>)
    ensures |r| == |regs| && forall i :: 0 <= i < |regs| ==> r[i] == multiset(regs[i].nodes.Values)
  {
    seq(|regs|, i requires 0 <= i < |regs| => multiset(regs[i].nodes.Values))
  }

  ghost function StrongHeld<N, E>(mem: Memory<N, E>): multiset<Addr> { Sum(StrongParts(mem)) }
  ghost function WeakHeld<N, E>(mem: Memory<N, E>): multiset<Weak> { Sum(WeakParts(mem)) }
  ghost function RegHeld(regs: seq<Reg>): multiset<Weak> { Sum(RegParts(regs)) }

  /** Every strong reference there is: handles plus the `source` fields of live nodes. */
  ghost function AllStrong<N, E>(w: World<N, E>): multiset<Addr> {
    w.handles + StrongHeld(w.mem)
  }

  /** Every weak reference there is: outside ones, the `target` of each incoming edge,
      the `outgoing` lists and the registry entries. */
  ghost function AllWeak<N, E>(w: World<N, E>): multiset<Weak> {
    w.weaks + WeakHeld(w.mem) + RegHeld(w.regs)
  }

  // ----- the invariant -----

  ghost predicate SlotCounted<N, E>(s: Slot<N, E>, a: Addr, strong: multiset<Addr>, weak: multiset<Weak>) {
    s.Used? ==>
      && s.strong == strong[a]
      && s.weak == weak[Weak(a, s.stamp)]
      && (s.inner.Some? <==> s.strong > 0)
      && s.strong + s.weak > 0
  }

  /** Both counters are exact, strong references only point to live nodes, weak ones
      only to the allocation they were made from, and an allocation exists only while
      something refers to it. */
  ghost predicate Counted<N, E>(mem: Memory<N, E>, strong: multiset<Addr>, weak: multiset<Weak>) {
    && (forall a :: a in strong ==> Live(mem, a))
    && (forall k :: k in weak ==> Pinned(mem, k))
    && (forall a :: 0 <= a < |mem| ==> SlotCounted(mem[a], a, strong, weak))
  }

  ghost predicate CountsOk<N, E>(w: World<N, E>) {
    Counted(w.mem, AllStrong(w), AllWeak(w))
  }

  /** The node at `a` is the one recorded in the log under its stamp. */
  ghost predicate NodeOk<N, E>(mem: Memory<N, E>, log: Arena<N, E>, a: Addr)
    requires Live(mem, a)
  {
    var s, n := mem[a].stamp, mem[a].inner.value;
    && s < |log|
    && log[s].value == n.value
    && |log[s].incoming| == |n.incoming|
    && forall k :: 0 <= k < |n.incoming| ==>
         && n.incoming[k].target == Weak(a, s)
         && Live(mem, n.incoming[k].source)
         && log[s].incoming[k] == (mem[n.incoming[k].source].stamp, n.incoming[k].value)
  }

  ghost predicate StampsOk<N, E>(mem: Memory<N, E>, log: Arena<N, E>) {
    && (forall a :: 0 <= a < |mem| && mem[a].Used? ==> mem[a].stamp < |log|)
    && (forall a, b :: 0 <= a < |mem| && 0 <= b < |mem| && mem[a].Used? && mem[b].Used? ==>
          mem[a].stamp == mem[b].stamp ==> a == b)
  }

  ghost predicate ShapeOk<N, E>(w: World<N, E>) {
    && WellFounded(w.log)
    && StampsOk(w.mem, w.log)
    && (forall a: Addr :: Live(w.mem, a) ==> NodeOk(w.mem, w.log, a))
  }

  /** Order of creation: by node, then by position among the node's parents. */
  ghost predicate Before(e: WeakEdge, f: WeakEdge) {
    e.target.stamp < f.target.stamp || (e.target.stamp == f.target.stamp && e.index < f.index)
  }

  ghost predicate Ordered(es: seq<WeakEdge>) {
    forall i, j :: 0 <= i < j < |es| ==> Before(es[i], es[j])
  }

  /** `e` stands for an edge that was created with the node stamped `s` as its source. */
  ghost predicate TrueEdge<N, E>(log: Arena<N, E>, s: nat, e: WeakEdge) {
    && e.target.stamp < |log|
    && e.index < |log[e.target.stamp].incoming|
    && log[e.target.stamp].incoming[e.index].0 == s
  }

  ghost predicate OutSound<N, E>(w: World<N, E>) {
    forall p: Addr :: Live(w.mem, p) ==>
      && Ordered(w.mem[p].inner.value.outgoing)
      && forall e :: e in w.mem[p].inner.value.outgoing ==> TrueEdge(w.log, w.mem[p].stamp, e)
  }

  /** Every incoming edge of a live node is listed by its source, except possibly those
      of the node stamped `newest` from position `from` on, which are not listed yet. */
  ghost predicate OutCompleteBut<N, E>(w: World<N, E>, newest: nat, from: nat)
    requires ShapeOk(w)
  {
    forall c: Addr, i: nat :: Live(w.mem, c) && i < |w.mem[c].inner.value.incoming| ==>
      !(w.mem[c].stamp == newest && i >= from) ==>
      WeakEdge(i, Weak(c, w.mem[c].stamp)) in w.mem[w.mem[c].inner.value.incoming[i].source].inner.value.outgoing
  }

  ghost predicate OutOk<N, E>(w: World<N, E>)
    requires ShapeOk(w)
  {
    OutSound(w) && OutCompleteBut(w, |w.log|, 0)
  }

  /** `nodes` and `ptr_to_id` are inverse to each other. */
  ghost predicate Inverse(nodes: map<NodeId, Weak>, ptrToId: map<Addr, NodeId>) {
    && (forall id :: id in nodes ==> nodes[id].addr in ptrToId && ptrToId[nodes[id].addr] == id)
    && (forall a :: a in ptrToId ==> ptrToId[a] in nodes && nodes[ptrToId[a]].addr == a)
  }

  ghost predicate RegOk(reg: Reg) {
    && Inverse(reg.nodes, reg.ptrToId)
    && (forall id :: id in reg.nodes ==> id < reg.nextId)
    && (!reg.open ==> reg.nodes == map[])
  }

  ghost predicate RegsOk<N, E>(w: World<N, E>) {
    && (forall r :: 0 <= r < |w.regs| ==> RegOk(w.regs[r]))
    && (forall a: Addr :: Live(w.mem, a) && w.mem[a].inner.value.link.Some? ==>
      w.mem[a].inner.value.link.value < |w.regs|)
  }

  ghost predicate Registered(reg: Reg, stamp: nat) {
    exists id :: id in reg.nodes && reg.nodes[id].stamp == stamp
  }

  ghost predicate LiveStamp<N, E>(mem: Memory<N, E>, stamp: nat) {
    exists a: Addr :: Live(mem, a) && mem[a].stamp == stamp
  }

  /** A tracked registration holds the node's link while the node lives and, as long as
      the registry exists, has an entry exactly while the node lives. */
  ghost predicate TrackedOk<N, E>(w: World<N, E>) {
    forall t :: t in w.tracked ==>
      && t.0 < |w.log| && t.1 < |w.regs|
      && (forall a: Addr :: Live(w.mem, a) && w.mem[a].stamp == t.0 ==> w.mem[a].inner.value.link == Some(t.1))
      && (w.regs[t.1].open ==> (LiveStamp(w.mem, t.0) <==> Registered(w.regs[t.1], t.0)))
  }

  /** What every step, including the small steps inside one operation, keeps. */
  ghost predicate Core<N, E>(w: World<N, E>) {
    CountsOk(w) && ShapeOk(w) && OutSound(w) && RegsOk(w)
  }

  ghost predicate Inv<N, E>(w: World<N, E>) {
    Core(w) && OutOk(w) && TrackedOk(w)
  }

  ghost function Empty<N, E>(): World<N, E> {
    World([], [], [], multiset{}, multiset{}, {})
  }

  // ----- how the sums react to a change of one slot or one registry -----

  lemma MemUpdate<N, E>(mem: Memory<N, E>, a: Addr, s: Slot<N, E>)
    requires a < |mem|
    ensures StrongOut(mem[a]) <= StrongHeld(mem) && WeakOut(mem[a]) <= WeakHeld(mem)
    ensures StrongHeld(mem[a := s]) == StrongHeld(mem) - StrongOut(mem[a]) + StrongOut(s)
    ensures WeakHeld(mem[a := s]) == WeakHeld(mem) - WeakOut(mem[a]) + WeakOut(s)
  {
    assert StrongParts(mem[a := s]) == StrongParts(mem)[a := StrongOut(s)];
    assert WeakParts(mem[a := s]) == WeakParts(mem)[a := WeakOut(s)];
    SumUpdate(StrongParts(mem), a, StrongOut(s));
    SumUpdate(WeakParts(mem), a, WeakOut(s));
  }

  lemma RegUpdate(regs: seq<Reg>, r: RegId, reg: Reg)
    requires r < |regs|
    ensures multiset(regs[r].nodes.Values) <= RegHeld(regs)
    ensures RegHeld(regs[r := reg]) == RegHeld(regs) - multiset(regs[r].nodes.Values) + multiset(reg.nodes.Values)
  {
    assert RegParts(regs[r := reg]) == RegParts(regs)[r := multiset(reg.nodes.Values)];
    SumUpdate(RegParts(regs), r, multiset(reg.nodes.Values));
  }

  /** The sources of a live node are strongly held, its weak references weakly held. */
  lemma HeldByNode<N, E>(w: World<N, E>, a: Addr)
    requires Live(w.mem, a)
    ensures forall k :: 0 <= k < |w.mem[a].inner.value.incoming| ==>
      w.mem[a].inner.value.incoming[k].source in AllStrong(w)
    ensures forall e :: e in w.mem[a].inner.value.outgoing ==> e.target in AllWeak(w)
    ensures forall e :: e in w.mem[a].inner.value.incoming ==> e.target in AllWeak(w)
  {
    MemUpdate(w.mem, a, w.mem[a]);
    var n := w.mem[a].inner.value;
    forall k | 0 <= k < |n.incoming| ensures n.incoming[k].source in AllStrong(w) {
      assert Sources(n.incoming)[k] in StrongOut(w.mem[a]);
    }
    forall e | e in n.outgoing ensures e.target in AllWeak(w) {
      var k :| 0 <= k < |n.outgoing| && n.outgoing[k] == e;
      assert OutTargets(n.outgoing)[k] in WeakOut(w.mem[a]);
    }
    forall e | e in n.incoming ensures e.target in AllWeak(w) {
      var k :| 0 <= k < |n.incoming| && n.incoming[k] == e;
      assert Targets(n.incoming)[k] in WeakOut(w.mem[a]);
    }
  }

  /** A registry entry is a weak reference, so it pins its address. */
  lemma HeldByRegistry<N, E>(w: World<N, E>, r: RegId, id: NodeId)
    requires r < |w.regs| && id in w.regs[r].nodes
    ensures w.regs[r].nodes[id] in AllWeak(w)
  {
    RegUpdate(w.regs, r, w.regs[r]);
    assert w.regs[r].nodes[id] in w.regs[r].nodes.Values;
  }

  lemma NodeAt<N, E>(w: World<N, E>, a: Addr)
    requires ShapeOk(w) && Live(w.mem, a)
    ensures NodeOk(w.mem, w.log, a)
  {
  }

  lemma EdgeAt<N, E>(mem: Memory<N, E>, log: Arena<N, E>, a: Addr, k: nat)
    requires Live(mem, a) && NodeOk(mem, log, a) && k < |mem[a].inner.value.incoming|
    ensures mem[a].inner.value.incoming[k].target == Weak(a, mem[a].stamp)
    ensures Live(mem, mem[a].inner.value.incoming[k].source)
    ensures mem[a].stamp < |log| && k < |log[mem[a].stamp].incoming|
    ensures log[mem[a].stamp].incoming[k] ==
      (mem[mem[a].inner.value.incoming[k].source].stamp, mem[a].inner.value.incoming[k].value)
  {
  }
}
