/** What each step of a run does to the references the program owns, to the nodes and to
    the registries, said without the way it is done. */
module HeapEffects {
  import opened Prelude
  import opened HeapModel
  import opened HeapSteps
  import opened HeapNew
  import opened HeapDrop
  import opened HeapOps
  import opened HeapRegistry
  import opened HeapRuns

  /** Only the owned references have changed, to these. */
  ghost predicate OnlyRefs<N, E>(w: World<N, E>, w': World<N, E>, handles: multiset<Addr>, weaks: multiset<Weak>) {
    && SameNodes(w.mem, w'.mem) && w'.log == w.log && w'.regs == w.regs && w'.tracked == w.tracked
    && w'.handles == handles && w'.weaks == weaks
  }

  /** Nothing but registries has changed, and those listed before are the same. */
  ghost predicate OneMoreRegistry<N, E>(w: World<N, E>, w': World<N, E>, nodes: map<NodeId, Weak>, nextId: NodeId) {
    && w'.mem == w.mem && w'.log == w.log && w'.tracked == w.tracked && w'.handles == w.handles
    && |w'.regs| == |w.regs| + 1 && w'.regs[..|w.regs|] == w.regs
    && var reg := w'.regs[|w.regs|];
       reg.open && reg.nodes == nodes && reg.nextId == nextId && Inverse(nodes, reg.ptrToId)
  }

  /** The node at `at` is new and has the parents given; every handle given is inside it. */
  ghost predicate Creates<N, E>(w: World<N, E>, w': World<N, E>, at: Addr, value: N, parents: seq<(Addr, E)>) {
    && !Live(w.mem, at) && Live(w'.mem, at) && w'.mem[at].stamp == |w.log|
    && w'.mem[at].inner.value.value == value && w'.mem[at].inner.value.link == None
    && |w'.mem[at].inner.value.incoming| == |parents|
    && (forall k :: 0 <= k < |parents| ==>
          && w'.mem[at].inner.value.incoming[k].source == parents[k].0
          && w'.mem[at].inner.value.incoming[k].value == parents[k].1)
    && |w'.log| == |w.log| + 1 && w.log <= w'.log
    && (forall b: Addr :: Live(w'.mem, b) <==> Live(w.mem, b) || b == at)
    && (forall b: Addr :: Live(w.mem, b) ==> Kept(w.mem, w'.mem, b))
    && w'.handles == w.handles - multiset(Addrs(parents)) + multiset{at}
    && w'.weaks == w.weaks && w'.regs == w.regs && w'.tracked == w.tracked
  }

  /** The positions at which `p` is a parent of `c`. */
  ghost function ParentPositions<N, E>(mem: Memory<N, E>, p: Addr, c: Addr): set<nat> {
    if Live(mem, c) then
      set i: nat | i < |mem[c].inner.value.incoming| && mem[c].inner.value.incoming[i].source == p
    else {}
  }

  /** Every node gets one handle for each edge from `p` to it, and only entries of dead
      children have left the list of `p`. */
  ghost predicate HoldsChildren<N, E>(w: World<N, E>, w': World<N, E>, p: Addr)
    requires Live(w.mem, p)
  {
    && (forall c: Addr :: w'.handles[c] == w.handles[c] + |ParentPositions(w.mem, p, c)|)
    && (forall b: Addr :: Live(w'.mem, b) <==> Live(w.mem, b))
    && (forall b: Addr :: Live(w.mem, b) ==> w'.mem[b].stamp == w.mem[b].stamp)
    && (forall b: Addr :: Live(w.mem, b) && b != p ==> w'.mem[b].inner == w.mem[b].inner)
    && w'.mem[p].inner.value == w.mem[p].inner.value.(outgoing := w'.mem[p].inner.value.outgoing)
    && (forall e :: e in w'.mem[p].inner.value.outgoing <==>
          e in w.mem[p].inner.value.outgoing && Live(w.mem, e.target.addr))
    && w'.log == w.log && w'.weaks == w.weaks && w'.regs == w.regs && w'.tracked == w.tracked
  }

  /** Registry `r` has an entry for the node at `a`, and no other entry is new or gone. */
  ghost predicate Enters<N, E>(w: World<N, E>, w': World<N, E>, r: RegId, a: Addr)
    requires r < |w.regs| && Live(w.mem, a)
  {
    && |w'.regs| == |w.regs| && (forall q :: 0 <= q < |w.regs| && q != r ==> w'.regs[q] == w.regs[q])
    && w'.regs[r].open == w.regs[r].open && Registered(w'.regs[r], w.mem[a].stamp)
    && (forall id :: id in w.regs[r].nodes ==> id in w'.regs[r].nodes && w'.regs[r].nodes[id] == w.regs[r].nodes[id])
    && (forall id :: id in w'.regs[r].nodes && id !in w.regs[r].nodes ==>
          && id == w.regs[r].nextId && w'.regs[r].nextId == id + 1 && w'.regs[r].nodes[id] == Weak(a, w.mem[a].stamp)
          && !Registered(w.regs[r], w.mem[a].stamp))
    && (w'.regs[r] == w.regs[r] || w.regs[r].nextId in w'.regs[r].nodes)
  }

  /** What the step `op` promises. */
  ghost predicate Effect<N, E>(w: World<N, E>, op: Op<N, E>, w': World<N, E>)
    requires Enabled(w, op)
  {
    match op
    case Create(at, value, parents) => Creates(w, w', at, value, parents)
    case Clone(a) => OnlyRefs(w, w', w.handles + multiset{a}, w.weaks)
    case Drop(a) => Shrinks(w, w') && w'.handles == w.handles - multiset{a} && w'.weaks == w.weaks
    case Downgrade(a) => OnlyRefs(w, w', w.handles, w.weaks + multiset{Weak(a, w.mem[a].stamp)})
    case CloneWeak(k) => OnlyRefs(w, w', w.handles, w.weaks + multiset{k})
    case DropLoose(k) => OnlyRefs(w, w', w.handles, w.weaks - multiset{k})
    case Upgrade(k) =>
      OnlyRefs(w, w', w.handles + (if LiveStamp(w.mem, k.stamp) then multiset{k.addr} else multiset{}), w.weaks)
    case Outgoing(a) => HoldsChildren(w, w', a)
    case OpenRegistry => OneMoreRegistry(w, w', map[], 0) && w'.weaks == w.weaks
    case CloseEmpty(r) => w' == w.(regs := w.regs[r := w.regs[r].(open := false)])
    case Rebuild(nodes, nextId) =>
      OneMoreRegistry(w, w', nodes, nextId) && w'.weaks == w.weaks - multiset(nodes.Values)
    case Enter(r, a) =>
      && SameNodes(w.mem, w'.mem) && Enters(w, w', r, a)
      && w' == w.(mem := w'.mem, regs := w'.regs)
    case Register(r, a) =>
      if CanLink(w, r, a) then LinkedOnly(w, w', r, a) && Enters(w, w', r, a) else w' == w
    case RemoveId(r, id) =>
      && SameNodes(w.mem, w'.mem) && Forgets(w, w', r, id)
      && w'.log == w.log && w'.handles == w.handles && w'.weaks == w.weaks
      && w'.tracked == if id in w.regs[r].nodes then w.tracked - {(w.regs[r].nodes[id].stamp, r)} else w.tracked
  }

  /** Registry `r` has no entry `id` any more and is otherwise as it was. */
  ghost predicate Forgets<N, E>(w: World<N, E>, w': World<N, E>, r: RegId, id: NodeId)
    requires r < |w.regs|
  {
    && |w'.regs| == |w.regs| && (forall q :: 0 <= q < |w.regs| && q != r ==> w'.regs[q] == w.regs[q])
    && w'.regs[r].open == w.regs[r].open && w'.regs[r].nextId == w.regs[r].nextId
    && w'.regs[r].nodes == w.regs[r].nodes - {id}
  }

  // ----- one lemma for each kind of step -----

  lemma CreateEffect<N, E>(w: World<N, E>, at: Addr, value: N, parents: seq<(Addr, E)>)
    requires Inv(w) && CanCreate(w, at, parents)
    ensures Creates(w, WithParents(w, at, value, parents), at, value, parents)
  {
    hide Inv, WithParents, Kept, Addrs, Recorded;
    WithParentsEffect(w, at, value, parents);
  }

  lemma DropEffect<N, E>(w: World<N, E>, a: Addr)
    requires Inv(w) && a in w.handles
    ensures Owns(w, [Strong(a)])
    ensures var w' := Release(w, [Strong(a)]);
      Shrinks(w, w') && w'.handles == w.handles - multiset{a} && w'.weaks == w.weaks
  {
    hide Inv, Release, Owns, Shrinks, Strongs, Looses;
    OwnsOne(w, a);
    OneStrong(a);
    ReleaseInv(w, [Strong(a)]);
  }

  lemma DropLooseEffect<N, E>(w: World<N, E>, k: Weak)
    requires Inv(w) && k in w.weaks
    ensures Owns(w, [Loose(k)]) && OnlyRefs(w, Release(w, [Loose(k)]), w.handles, w.weaks - multiset{k})
  {
    hide Inv, Release, Owns, Shrinks, Strongs, Looses, SameNodes, DropWeak;
    OwnsOneLoose(w, k);
    OneLoose(k);
    ReleaseInv(w, [Loose(k)]);
    ShrinksParts(w, Release(w, [Loose(k)]));
    LooseAlone(w, k);
  }

  lemma LooseAlone<N, E>(w: World<N, E>, k: Weak)
    requires Inv(w) && k in w.weaks && Owns(w, [Loose(k)])
    ensures SameNodes(w.mem, Release(w, [Loose(k)]).mem) && Release(w, [Loose(k)]).regs == w.regs
  {
    hide Inv, Release, Owns;
    var e := WeakEdge(0, k);
    assert OutDebris([e]) == [Loose(k)];
    ReleaseLoose(w, [e]);
  }

  lemma UpgradeEffect<N, E>(w: World<N, E>, k: Weak)
    requires Inv(w) && Pinned(w.mem, k)
    ensures Live(w.mem, k.addr) <==> LiveStamp(w.mem, k.stamp)
  {
    hide CountsOk, NodeOk, OutSound, RegsOk, TrackedOk, OutOk;
    if LiveStamp(w.mem, k.stamp) {
      var a: Addr :| Live(w.mem, a) && w.mem[a].stamp == k.stamp;
      assert a == k.addr;
    }
  }

  lemma {:induction false} HeldCount(es: seq<Edge>, c: Addr, at: set<nat>)
    requires NoDup(es) && forall i: nat :: i in at <==> Edge(i, c) in es
    ensures Held(es)[c] == |at|
    decreases |es|
  {
    hide Elements;
    if es == [] {
      assert at == {};
    } else {
      var e, rest := es[0], es[1..];
      assert forall f :: f in es <==> f == e || f in rest;
      assert e !in rest by { assert forall j :: 0 <= j < |rest| ==> rest[j] == es[j + 1]; }
      if e.target == c {
        assert Edge(e.index, c) == e;
        HeldCount(rest, c, at - {e.index});
      } else {
        HeldCount(rest, c, at);
      }
    }
  }

  lemma OutgoingEffect<N, E>(w: World<N, E>, p: Addr)
    requires Inv(w) && Live(w.mem, p)
    ensures HoldsChildren(w, AllOutgoing(w, p), p)
  {
    hide Inv, AllOutgoing, PrunedOnly, OutEdges, Held, NoDup, Created, KeepLive;
    AllOutgoingInv(w, p);
    AllOutgoingExact(w, p);
    var w' := AllOutgoing(w, p);
    PrunedOnlyLive(w, w'.(handles := w.handles), p);
    PrunedOnlyAll(w, w'.(handles := w.handles), p);
    forall c: Addr ensures w'.handles[c] == w.handles[c] + |ParentPositions(w.mem, p, c)| {
      HeldCount(OutEdges(w, p), c, ParentPositions(w.mem, p, c));
    }
  }

  lemma PrunedOnlyAll<N, E>(w: World<N, E>, w': World<N, E>, p: Addr)
    requires Live(w.mem, p) && PrunedOnly(w, w', p)
    ensures w'.log == w.log && w'.regs == w.regs && w'.weaks == w.weaks && w'.tracked == w.tracked
  {
  }

  lemma EntersFrom<N, E>(w: World<N, E>, w': World<N, E>, r: RegId, a: Addr, id: NodeId)
    requires RegsOk(w) && r < |w.regs| && Live(w.mem, a) && Entered(w, w', r, a, id)
    ensures Enters(w, w', r, a)
  {
    assert RegOk(w.regs[r]);
    if !Registered(w.regs[r], w.mem[a].stamp) {
      assert id in w'.regs[r].nodes && w'.regs[r].nodes[id].stamp == w.mem[a].stamp;
    }
  }

  lemma EnterEffect<N, E>(w: World<N, E>, r: RegId, a: Addr)
    requires Inv(w) && r < |w.regs| && w.regs[r].open && Live(w.mem, a)
    ensures var w' := AddNode(w, r, a).0;
      SameNodes(w.mem, w'.mem) && Enters(w, w', r, a) && w' == w.(mem := w'.mem, regs := w'.regs)
  {
    hide CountsOk, ShapeOk, OutSound, OutOk, TrackedOk, RegsOk, AddNode, SameNodes, Entered, Enters;
    AddNodeInv(w, r, a);
    EntersFrom(w, AddNode(w, r, a).0, r, a, AddNode(w, r, a).1);
  }

  lemma RegisterEffect<N, E>(w: World<N, E>, r: RegId, a: Addr)
    requires Inv(w) && r < |w.regs| && w.regs[r].open && Live(w.mem, a)
    ensures var w' := TryRegister(w, r, a).0;
      if CanLink(w, r, a) then LinkedOnly(w, w', r, a) && Enters(w, w', r, a) else w' == w
  {
    hide CountsOk, ShapeOk, OutSound, OutOk, TrackedOk, RegsOk, TryRegister, LinkedOnly, Entered, Enters, CanLink;
    TryRegisterInv(w, r, a);
    if CanLink(w, r, a) { EntersFrom(w, TryRegister(w, r, a).0, r, a, TryRegister(w, r, a).1.value); }
  }

  lemma RemoveEffect<N, E>(w: World<N, E>, r: RegId, id: NodeId)
    requires Inv(w) && r < |w.regs|
    ensures Core(w)
    ensures var w' := Remove(w, r, id);
      && SameNodes(w.mem, w'.mem) && Forgets(w, w', r, id)
      && w'.log == w.log && w'.handles == w.handles && w'.weaks == w.weaks
      && w'.tracked == if id in w.regs[r].nodes then w.tracked - {(w.regs[r].nodes[id].stamp, r)} else w.tracked
  {
    hide Core, OutOk, TrackedOk, Remove, SameNodes;
    RemoveInv(w, r, id);
    if id in w.regs[r].nodes { RemoveCore(w, r, id); } else { RemoveAbsent(w, r, id); }
  }

  lemma RebuildEffect<N, E>(w: World<N, E>, nodes: map<NodeId, Weak>, nextId: NodeId)
    requires EntriesOk(nodes, nextId)
    ensures var w' := RebuildRegistry(w, nodes, nextId);
      OneMoreRegistry(w, w', nodes, nextId) && w'.weaks == w.weaks - multiset(nodes.Values)
  {
    hide FromSlotmap;
    FromSlotmapOk(nodes, nextId);
    FromSlotmapNodes(nodes, nextId);
  }

  /** Every step keeps the invariant and does what it promises. */
  lemma ApplyEffect<N, E>(w: World<N, E>, op: Op<N, E>)
    requires Inv(w) && Enabled(w, op)
    ensures Inv(Apply(w, op)) && Effect(w, op, Apply(w, op))
  {
    hide Inv, SameNodes, CanCreate, Shrinks, LinkedOnly, Creates, HoldsChildren, Enters, Forgets, LiveStamp, EntriesOk,
         RebuildRegistry, WithParents, Release, AllOutgoing, AddNode, TryRegister, Remove, Owns, CanLink;
    ApplyInv(w, op);
    match op {
      case Create(at, value, parents) => CreateEffect(w, at, value, parents);
      case Clone(a) => AddHandleInv(w, a);
      case Drop(a) => DropEffect(w, a);
      case Downgrade(a) => AddWeakInv(w, Weak(a, w.mem[a].stamp));
      case CloneWeak(k) => AddWeakInv(w, k);
      case DropLoose(k) => DropLooseEffect(w, k);
      case Upgrade(k) =>
        UpgradeEffect(w, k);
        SameNodesRefl(w.mem);
        if Live(w.mem, k.addr) { AddHandleInv(w, k.addr); }
      case Outgoing(a) => OutgoingEffect(w, a);
      case OpenRegistry =>
      case CloseEmpty(r) =>
      case Rebuild(nodes, nextId) => RebuildEffect(w, nodes, nextId);
      case Enter(r, a) => EnterEffect(w, r, a);
      case Register(r, a) => RegisterEffect(w, r, a);
      case RemoveId(r, id) => RemoveEffect(w, r, id);
    }
  }

  /** A run of one step has the effect of that step. */
  lemma StepEffect<N, E>(w: World<N, E>, op: Op<N, E>, w': World<N, E>)
    requires Runs(w, [op], w')
    ensures Inv(w) && Inv(w') && Enabled(w, op) && Effect(w, op, w')
  {
    hide Inv, Apply, Enabled, Effect;
    var none := [op][1..];
    assert none == [] && [op][0] == op;
    ApplyEffect(w, op);
    assert Exec(Apply(w, op), none) == Apply(w, op);
  }

  // ----- what holding a handle means for a whole run -----

  /** The step takes no handle to `a` away from the program. */
  ghost predicate Spares<N, E>(op: Op<N, E>, a: Addr) {
    op != Drop(a) && (op.Create? ==> a !in Addrs(op.parents))
  }

  lemma StepSpares<N, E>(w: World<N, E>, op: Op<N, E>, w': World<N, E>, a: Addr)
    requires Inv(w) && Inv(w') && Enabled(w, op) && Effect(w, op, w') && Spares(op, a) && a in w.handles
    requires Live(w.mem, a)
    ensures a in w'.handles && w.handles[a] <= w'.handles[a]
    ensures Live(w'.mem, a) && w'.mem[a].stamp == w.mem[a].stamp
  {
    hide Inv, Enters, Forgets, CanLink, Kept, ParentPositions, LinkedOnly, Registered, DiedIn, Addrs;
    if op.Register? && CanLink(w, op.r, op.a) {
      LinkedOnlyLive(w, w', op.r, op.a);
      LinkedOnlyRest(w, w', op.r, op.a);
    }
    OwnedStamp(w', a);
    if op.Create? { KeptParts(w.mem, w'.mem, a); }
  }

  /** A handle that is not given up keeps its node alive, whatever else happens. */
  lemma {:induction false} HandleKeepsNode<N, E>(w: World<N, E>, ops: seq<Op<N, E>>, a: Addr)
    requires Inv(w) && Legal(w, ops) && a in w.handles && Live(w.mem, a)
    requires forall op :: op in ops ==> Spares(op, a)
    ensures var w' := Exec(w, ops);
      w.handles[a] <= w'.handles[a] && Live(w'.mem, a) && w'.mem[a].stamp == w.mem[a].stamp
    decreases |ops|
  {
    hide Inv, Apply, Enabled, Effect, Spares, Live;
    if ops != [] {
      ApplyEffect(w, ops[0]);
      assert ops[0] in ops;
      StepSpares(w, ops[0], Apply(w, ops[0]), a);
      HandleKeepsNode(Apply(w, ops[0]), ops[1..], a);
    }
  }

  ghost function Drops<N, E>(a: Addr, n: nat): seq<Op<N, E>> {
    if n == 0 then [] else [Drop(a)] + Drops(a, n - 1)
  }

  lemma DropOfMany<N, E>(w: World<N, E>, a: Addr)
    requires Inv(w) && Live(w.mem, a) && 1 < w.handles[a]
    ensures var w' := Apply(w, Drop(a));
      Inv(w') && w'.handles[a] == w.handles[a] - 1 && Live(w'.mem, a) && w'.mem[a].stamp == w.mem[a].stamp
  {
    hide Inv, Apply, RegShrinks;
    ApplyEffect(w, Drop(a));
    OwnedStamp(Apply(w, Drop(a)), a);
  }

  lemma {:induction false} OneHandleLeft<N, E>(w: World<N, E>, a: Addr, n: nat)
    requires Inv(w) && Live(w.mem, a) && n < w.handles[a]
    ensures Legal(w, Drops(a, n))
    ensures var w' := Exec(w, Drops(a, n));
      w'.handles[a] == w.handles[a] - n && Live(w'.mem, a) && w'.mem[a].stamp == w.mem[a].stamp
    decreases n
  {
    hide Inv, Apply, Live;
    if n > 0 {
      DropOfMany(w, a);
      OneHandleLeft(Apply(w, Drop(a)), a, n - 1);
      assert Drops<N, E>(a, n)[1..] == Drops(a, n - 1);
    }
  }

  /** There is one more handle, to the node `k` was made from. */
  ghost predicate Gave<N, E>(w: World<N, E>, w': World<N, E>, k: Weak) {
    Inv(w') && w'.handles == w.handles + multiset{k.addr} && Live(w'.mem, k.addr) && Pinned(w'.mem, k)
  }

  lemma UpgradeGives<N, E>(w: World<N, E>, k: Weak)
    requires Inv(w) && Enabled(w, Upgrade(k)) && Live(w.mem, k.addr)
    ensures Gave(w, Apply(w, Upgrade(k)), k)
  {
    hide Inv, Apply, LiveStamp;
    ApplyEffect(w, Upgrade(k));
    UpgradeEffect(w, k);
  }

  /** An upgrade of a weak reference whose node is alive gives a handle, and this handle
      alone keeps the node alive when all the others are dropped. */
  lemma UpgradeHolds<N, E>(w: World<N, E>, k: Weak)
    requires Inv(w) && Pinned(w.mem, k) && LiveStamp(w.mem, k.stamp)
    ensures var ops := [Upgrade(k)] + Drops(k.addr, w.handles[k.addr]);
      Legal(w, ops) && Exec(w, ops).handles[k.addr] == 1 && LiveStamp(Exec(w, ops).mem, k.stamp)
  {
    hide Inv, Apply, Drops, LiveStamp;
    UpgradeEffect(w, k);
    UpgradeGives(w, k);
    var w1, rest := Apply(w, Upgrade(k)), Drops<N, E>(k.addr, w.handles[k.addr]);
    OneHandleLeft(w1, k.addr, w.handles[k.addr]);
    assert ([Upgrade(k)] + rest)[1..] == rest;
    LiveAt(Exec(w1, rest).mem, k);
  }

  lemma LiveAt<N, E>(mem: Memory<N, E>, k: Weak)
    requires Live(mem, k.addr) && Pinned(mem, k)
    ensures LiveStamp(mem, k.stamp)
  {
  }
}
