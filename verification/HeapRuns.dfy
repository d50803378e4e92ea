/** Whole runs: any sequence of operations a program may perform on the references it
    owns, with the allocator free to reuse any free address. */
module HeapRuns {
  import opened Prelude
  import opened Dag
  import opened HeapModel
  import opened HeapSteps
  import opened HeapNew
  import opened HeapDrop
  import opened HeapOps
  import opened HeapRegistry

  datatype Op<N, E> =
    | Create(at: Addr, value: N, parents: seq<(Addr, E)>)
    | Clone(a: Addr)
    | Drop(a: Addr)
    | Downgrade(a: Addr)
    | CloneWeak(k: Weak)
    | DropLoose(k: Weak)
    | Upgrade(k: Weak)
    | Outgoing(a: Addr)
    | OpenRegistry
    | CloseEmpty(r: RegId)
    | Rebuild(nodes: map<NodeId, Weak>, nextId: NodeId)
    | Enter(r: RegId, a: Addr)
    | Register(r: RegId, a: Addr)
    | RemoveId(r: RegId, id: NodeId)

  /** What ownership and borrowing demand of the caller. */
  ghost predicate Enabled<N, E>(w: World<N, E>, op: Op<N, E>) {
    match op
    case Create(at, _, parents) => CanCreate(w, at, parents)
    case Clone(a) => Live(w.mem, a)
    case Drop(a) => a in w.handles
    case Downgrade(a) => Live(w.mem, a)
    case CloneWeak(k) => Pinned(w.mem, k)
    case DropLoose(k) => k in w.weaks
    case Upgrade(k) => Pinned(w.mem, k)
    case Outgoing(a) => Live(w.mem, a)
    case OpenRegistry => true
    case CloseEmpty(r) => r < |w.regs| && w.regs[r].nodes == map[]
    case Rebuild(nodes, nextId) => EntriesOk(nodes, nextId) && multiset(nodes.Values) <= w.weaks
    case Enter(r, a) => r < |w.regs| && w.regs[r].open && Live(w.mem, a)
    case Register(r, a) => r < |w.regs| && w.regs[r].open && Live(w.mem, a)
    case RemoveId(r, _) => r < |w.regs|
  }

  lemma OwnsOne<N, E>(w: World<N, E>, a: Addr)
    requires a in w.handles
    ensures Owns(w, [Strong(a)])
  {
    OneStrong(a);
  }

  lemma OwnsOneLoose<N, E>(w: World<N, E>, k: Weak)
    requires k in w.weaks
    ensures Owns(w, [Loose(k)])
  {
    OneLoose(k);
  }

  ghost function Apply<N, E>(w: World<N, E>, op: Op<N, E>): World<N, E>
    requires Inv(w) && Enabled(w, op)
  {
    hide Core, OutOk, TrackedOk, CanCreate, Owns;
    match op
    case Create(at, value, parents) => WithParents(w, at, value, parents)
    case Clone(a) => AddHandle(w, a)
    case Drop(a) => OwnsOne(w, a); Release(w, [Strong(a)])
    case Downgrade(a) => AddWeak(w, Weak(a, w.mem[a].stamp))
    case CloneWeak(k) => AddWeak(w, k)
    case DropLoose(k) => OwnsOneLoose(w, k); Release(w, [Loose(k)])
    case Upgrade(k) => if Live(w.mem, k.addr) then AddHandle(w, k.addr) else w
    case Outgoing(a) => AllOutgoing(w, a)
    case OpenRegistry => NewRegistry(w)
    case CloseEmpty(r) => CloseRegistry(w, r)
    case Rebuild(nodes, nextId) => RebuildRegistry(w, nodes, nextId)
    case Enter(r, a) => AddNode(w, r, a).0
    case Register(r, a) => TryRegister(w, r, a).0
    case RemoveId(r, id) => Remove(w, r, id)
  }

  /** One operation keeps the invariant. */
  lemma ApplyInv<N, E>(w: World<N, E>, op: Op<N, E>)
    requires Inv(w) && Enabled(w, op)
    ensures Inv(Apply(w, op))
  {
    hide Inv, SameNodes, CanCreate, Shrinks, Entered, LinkedOnly, PrunedOnly, Kept, NewRegistry, CloseRegistry,
         RebuildRegistry,
         WithParents, Release, AllOutgoing, AddNode, TryRegister, Remove, AddHandle, AddWeak, Owns;
    match op {
      case Create(at, value, parents) => WithParentsEffect(w, at, value, parents);
      case Clone(a) => AddHandleInv(w, a);
      case Drop(a) => OwnsOne(w, a); ReleaseInv(w, [Strong(a)]);
      case Downgrade(a) => AddWeakInv(w, Weak(a, w.mem[a].stamp));
      case CloneWeak(k) => AddWeakInv(w, k);
      case DropLoose(k) => OwnsOneLoose(w, k); ReleaseInv(w, [Loose(k)]);
      case Upgrade(k) => if Live(w.mem, k.addr) { AddHandleInv(w, k.addr); }
      case Outgoing(a) => AllOutgoingInv(w, a);
      case OpenRegistry => NewRegistryInv(w);
      case CloseEmpty(r) => CloseRegistryInv(w, r);
      case Rebuild(nodes, nextId) => RebuildInv(w, nodes, nextId);
      case Enter(r, a) => AddNodeInv(w, r, a);
      case Register(r, a) => TryRegisterInv(w, r, a);
      case RemoveId(r, id) => RemoveInv(w, r, id);
    }
  }

  ghost predicate Legal<N, E>(w: World<N, E>, ops: seq<Op<N, E>>)
    requires Inv(w)
    decreases |ops|
  {
    ops == [] || (Enabled(w, ops[0]) && (ApplyInv(w, ops[0]); Legal(Apply(w, ops[0]), ops[1..])))
  }

  ghost function Exec<N, E>(w: World<N, E>, ops: seq<Op<N, E>>): World<N, E>
    requires Inv(w) && Legal(w, ops)
    decreases |ops|
  {
    if ops == [] then w
    else
      ApplyInv(w, ops[0]);
      Exec(Apply(w, ops[0]), ops[1..])
  }

  lemma EmptyInv<N, E>()
    ensures Inv(Empty<N, E>())
  {
  }

  /** In every run from the empty world, after every operation, all counters are exact
      and all the rest of the invariant holds. */
  lemma {:induction false} RunInvariant<N, E>(w: World<N, E>, ops: seq<Op<N, E>>)
    requires Inv(w) && Legal(w, ops)
    ensures Inv(Exec(w, ops))
    decreases |ops|
  {
    hide Inv, Enabled, Apply;
    if ops != [] {
      ApplyInv(w, ops[0]);
      RunInvariant(Apply(w, ops[0]), ops[1..]);
    }
  }

  // ----- runs put together -----

  /** `ops` can be performed in `w` and leads to `w'`. */
  ghost predicate Runs<N, E>(w: World<N, E>, ops: seq<Op<N, E>>, w': World<N, E>) {
    Inv(w) && Legal(w, ops) && Exec(w, ops) == w'
  }

  lemma RunsNone<N, E>(w: World<N, E>)
    requires Inv(w)
    ensures Runs(w, [], w)
  {
    hide Inv;
  }

  lemma RunsOne<N, E>(w: World<N, E>, op: Op<N, E>)
    requires Inv(w) && Enabled(w, op)
    ensures Runs(w, [op], Apply(w, op)) && Inv(Apply(w, op))
  {
    hide Inv, Apply, Enabled;
    ApplyInv(w, op);
    var w', none := Apply(w, op), [op][1..];
    assert none == [] && Legal(w', none) && Exec(w', none) == w';
  }

  lemma {:induction false} RunsConcat<N, E>(w: World<N, E>, s: seq<Op<N, E>>, w1: World<N, E>, t: seq<Op<N, E>>,
                                            w2: World<N, E>)
    requires Runs(w, s, w1) && Runs(w1, t, w2)
    ensures Runs(w, s + t, w2)
    decreases |s|
  {
    hide Inv, Apply, Enabled;
    if s == [] {
      assert s + t == t;
    } else {
      ApplyInv(w, s[0]);
      RunsConcat(Apply(w, s[0]), s[1..], w1, t, w2);
      assert (s + t)[0] == s[0] && (s + t)[1..] == s[1..] + t;
    }
  }

  lemma RunsInv<N, E>(w: World<N, E>, ops: seq<Op<N, E>>, w': World<N, E>)
    requires Runs(w, ops, w')
    ensures Inv(w) && Inv(w') && Evolves(w, w')
  {
    hide Inv, Evolves, Legal, Exec;
    RunInvariant(w, ops);
    RunEvolves(w, ops);
  }

  // ----- who is alive -----

  /** Whoever holds a strong reference to a node: a handle, or a younger live node. */
  lemma Holder<N, E>(w: World<N, E>, a: Addr) returns (c: Addr)
    requires Core(w) && Live(w.mem, a) && a !in w.handles
    ensures Live(w.mem, c)
    ensures exists k :: 0 <= k < |w.mem[c].inner.value.incoming| && w.mem[c].inner.value.incoming[k].source == a
  {
    HeldSomewhere(w, a);
    c := SumToMember(StrongParts(w.mem), a, |w.mem|);
    assert a in StrongOut(w.mem[c]);
    var es := w.mem[c].inner.value.incoming;
    assert a in Sources(es);
    var k :| 0 <= k < |es| && Sources(es)[k] == a;
    assert es[k].source == a;
  }

  lemma HeldSomewhere<N, E>(w: World<N, E>, a: Addr)
    requires CountsOk(w) && Live(w.mem, a) && a !in w.handles
    ensures a in StrongHeld(w.mem)
  {
    hide AllWeak, StrongHeld;
    assert SlotCounted(w.mem[a], a, AllStrong(w), AllWeak(w));
  }

  lemma HeldFromBelow<N, E>(w: World<N, E>, a: Addr) returns (h: Addr)
    requires Inv(w) && Live(w.mem, a)
    ensures h in w.handles && Live(w.mem, h) && w.mem[h].stamp < |w.log|
    ensures Ancestor(w.log, w.mem[a].stamp, w.mem[h].stamp)
    decreases |w.log| - w.mem[a].stamp
  {
    hide CountsOk, OutSound, RegsOk, TrackedOk, OutCompleteBut, NodeOk;
    if a in w.handles {
      h := a;
    } else {
      var c := Holder(w, a);
      var k :| 0 <= k < |w.mem[c].inner.value.incoming| && w.mem[c].inner.value.incoming[k].source == a;
      NodeAt(w, c);
      EdgeAt(w.mem, w.log, c, k);
      assert ParentsBefore(w.log[w.mem[c].stamp], w.mem[c].stamp);
      h := HeldFromBelow(w, c);
      ParentIsAncestor(w.log, w.mem[c].stamp, k);
      AncestorTrans(w.log, w.mem[a].stamp, w.mem[c].stamp, w.mem[h].stamp);
    }
  }

  lemma {:induction false} AncestorsLive<N, E>(w: World<N, E>, a: Addr, s: nat)
    requires Inv(w) && Live(w.mem, a) && w.mem[a].stamp < |w.log| && Ancestor(w.log, s, w.mem[a].stamp)
    ensures LiveStamp(w.mem, s)
    decreases w.mem[a].stamp
  {
    hide CountsOk, OutSound, RegsOk, TrackedOk, OutCompleteBut, NodeOk;
    if s != w.mem[a].stamp {
      var t := w.mem[a].stamp;
      var k :| 0 <= k < |w.log[t].incoming| && Ancestor(w.log, s, w.log[t].incoming[k].0);
      NodeAt(w, a);
      SameLength(w, a);
      EdgeAt(w.mem, w.log, a, k);
      assert ParentsBefore(w.log[t], t);
      AncestorsLive(w, w.mem[a].inner.value.incoming[k].source, s);
    }
  }

  lemma SameLength<N, E>(w: World<N, E>, a: Addr)
    requires Live(w.mem, a) && NodeOk(w.mem, w.log, a)
    ensures w.mem[a].stamp < |w.log| && |w.mem[a].inner.value.incoming| == |w.log[w.mem[a].stamp].incoming|
  {
  }

  lemma OwnedStamp<N, E>(w: World<N, E>, h: Addr)
    requires Inv(w) && h in w.handles
    ensures Live(w.mem, h) && w.mem[h].stamp < |w.log|
  {
    hide CountsOk, OutSound, RegsOk, TrackedOk, OutCompleteBut, NodeOk;
    OwnedLive(w, h);
  }

  /** A node created under stamp `s` is alive exactly while there is a handle to it or
      to one of its descendants: nothing is lost too early and nothing leaks. */
  lemma AliveIffHeld<N, E>(w: World<N, E>, s: nat)
    requires Inv(w)
    ensures LiveStamp(w.mem, s) <==>
      exists h :: h in w.handles && Live(w.mem, h) && w.mem[h].stamp < |w.log| && Ancestor(w.log, s, w.mem[h].stamp)
  {
    hide CountsOk, OutSound, RegsOk, TrackedOk, OutCompleteBut, NodeOk;
    if LiveStamp(w.mem, s) {
      var a: Addr :| Live(w.mem, a) && w.mem[a].stamp == s;
      var h := HeldFromBelow(w, a);
    }
    if exists h :: h in w.handles && Live(w.mem, h) && w.mem[h].stamp < |w.log| && Ancestor(w.log, s, w.mem[h].stamp) {
      var h :| h in w.handles && Live(w.mem, h) && w.mem[h].stamp < |w.log| && Ancestor(w.log, s, w.mem[h].stamp);
      AncestorsLive(w, h, s);
    }
  }

  /** When the program has let go of everything, all memory is free. */
  lemma NothingLeaks<N, E>(w: World<N, E>)
    requires Inv(w) && w.handles == multiset{} && w.weaks == multiset{} && RegHeld(w.regs) == multiset{}
    ensures forall a :: 0 <= a < |w.mem| ==> w.mem[a].Free?
  {
    hide SlotCounted, ShapeOk, OutSound, RegsOk, TrackedOk, OutOk;
    forall a: Addr | Live(w.mem, a) ensures false {
      var h := HeldFromBelow(w, a);
    }
    forall i | 0 <= i < |w.mem| ensures StrongOut(w.mem[i]) == multiset{} && WeakOut(w.mem[i]) == multiset{} {
      assert !Live(w.mem, i);
    }
    SumOfNone(StrongParts(w.mem), |w.mem|);
    SumOfNone(WeakParts(w.mem), |w.mem|);
    NoRefsFree(w.mem, AllStrong(w), AllWeak(w));
  }

  lemma {:induction false} SumOfNone<T>(parts: seq<multiset<T>>, n: nat)
    requires n <= |parts| && forall i :: 0 <= i < n ==> parts[i] == multiset{}
    ensures SumTo(parts, n) == multiset{}
  {
    if n > 0 { SumOfNone(parts, n - 1); }
  }

  lemma NoRefsFree<N, E>(mem: Memory<N, E>, strong: multiset<Addr>, weak: multiset<Weak>)
    requires Counted(mem, strong, weak) && strong == multiset{} && weak == multiset{}
    ensures forall a :: 0 <= a < |mem| ==> mem[a].Free?
  {
    forall a | 0 <= a < |mem| ensures mem[a].Free? {
      assert SlotCounted(mem[a], a, strong, weak);
    }
  }

  // ----- what a run can never change -----

  /** A registry never reuses an id and never rebinds one. */
  ghost predicate RegEvolves(reg: Reg, reg': Reg) {
    && (reg'.open ==> reg.open)
    && reg.nextId <= reg'.nextId
    && (forall id :: id in reg'.nodes && id < reg.nextId ==> id in reg.nodes && reg.nodes[id] == reg'.nodes[id])
  }

  /** A node that was alive before and is alive now is at the same address with the same
      value and parents, and its registry link, once set, is the same. A node that was
      dead stays dead. */
  ghost predicate NodesEvolve<N, E>(m: Memory<N, E>, m': Memory<N, E>, births: nat) {
    forall b: Addr :: Live(m', b) && m'[b].stamp < births ==>
      && Live(m, b) && m[b].stamp == m'[b].stamp
      && m'[b].inner.value.value == m[b].inner.value.value
      && m'[b].inner.value.incoming == m[b].inner.value.incoming
      && (m[b].inner.value.link.Some? ==> m'[b].inner.value.link == m[b].inner.value.link)
  }

  ghost predicate Evolves<N, E>(w: World<N, E>, w': World<N, E>) {
    && w.log <= w'.log && |w.regs| <= |w'.regs|
    && NodesEvolve(w.mem, w'.mem, |w.log|)
    && (forall r :: 0 <= r < |w.regs| ==> RegEvolves(w.regs[r], w'.regs[r]))
  }

  lemma EvolvesTrans<N, E>(w: World<N, E>, w1: World<N, E>, w2: World<N, E>)
    requires Evolves(w, w1) && Evolves(w1, w2)
    ensures Evolves(w, w2)
  {
    forall r | 0 <= r < |w.regs| ensures RegEvolves(w.regs[r], w2.regs[r]) {
      assert RegEvolves(w.regs[r], w1.regs[r]) && RegEvolves(w1.regs[r], w2.regs[r]);
    }
  }

  lemma SameNodesEvolve<N, E>(m: Memory<N, E>, m': Memory<N, E>, births: nat)
    requires SameNodes(m, m')
    ensures NodesEvolve(m, m', births)
  {
  }

  lemma ReleaseEvolves<N, E>(w: World<N, E>, todo: seq<Ref>)
    requires Inv(w) && Owns(w, todo)
    ensures Evolves(w, Release(w, todo))
  {
    hide Inv, Release, Owns;
    ReleaseInv(w, todo);
  }

  lemma CreateEvolves<N, E>(w: World<N, E>, at: Addr, value: N, parents: seq<(Addr, E)>)
    requires Inv(w) && CanCreate(w, at, parents)
    ensures Evolves(w, WithParents(w, at, value, parents))
  {
    hide Inv, WithParents, CanCreate;
    WithParentsEffect(w, at, value, parents);
    var w' := WithParents(w, at, value, parents);
    forall b: Addr | Live(w'.mem, b) && w'.mem[b].stamp < |w.log| ensures Kept(w.mem, w'.mem, b) {
      assert b != at;
    }
  }

  lemma OutgoingEvolves<N, E>(w: World<N, E>, p: Addr)
    requires Inv(w) && Live(w.mem, p)
    ensures Evolves(w, AllOutgoing(w, p))
  {
    hide Inv, AllOutgoing, KeepLive, PrunedOnly, Held, OutEdges;
    AllOutgoingInv(w, p);
    var w' := AllOutgoing(w, p);
    PrunedOnlyLive(w, w'.(handles := w.handles), p);
    PrunedOnlyRest(w, w'.(handles := w.handles), p);
  }

  lemma PrunedOnlyRest<N, E>(w: World<N, E>, w': World<N, E>, p: Addr)
    requires Live(w.mem, p) && PrunedOnly(w, w', p)
    ensures w'.log == w.log && w'.regs == w.regs
  {
  }

  lemma EnteredEvolves<N, E>(w: World<N, E>, w': World<N, E>, r: RegId, a: Addr, id: NodeId)
    requires RegsOk(w) && r < |w.regs| && Live(w.mem, a) && Entered(w, w', r, a, id)
    ensures |w'.regs| == |w.regs| && forall q :: 0 <= q < |w.regs| ==> RegEvolves(w.regs[q], w'.regs[q])
  {
    assert RegOk(w.regs[r]);
  }

  lemma RegisterEvolves<N, E>(w: World<N, E>, r: RegId, a: Addr)
    requires Inv(w) && r < |w.regs| && w.regs[r].open && Live(w.mem, a)
    ensures Evolves(w, TryRegister(w, r, a).0)
  {
    hide CountsOk, ShapeOk, OutSound, OutOk, TrackedOk, LinkedOnly, Entered, TryRegister, RegsOk, CanLink;
    TryRegisterInv(w, r, a);
    var (w', id) := TryRegister(w, r, a);
    if id.Some? {
      CanLinkMeans(w, r, a);
      LinkedOnlyLive(w, w', r, a);
      LinkedOnlyRest(w, w', r, a);
      EnteredEvolves(w, w', r, a, id.value);
    }
  }

  lemma CanLinkMeans<N, E>(w: World<N, E>, r: RegId, a: Addr)
    requires Live(w.mem, a) && CanLink(w, r, a)
    ensures w.mem[a].inner.value.link.Some? ==> w.mem[a].inner.value.link == Some(r)
  {
  }

  lemma EnterEvolves<N, E>(w: World<N, E>, r: RegId, a: Addr)
    requires Inv(w) && r < |w.regs| && w.regs[r].open && Live(w.mem, a)
    ensures Evolves(w, AddNode(w, r, a).0)
  {
    hide CountsOk, ShapeOk, OutSound, OutOk, TrackedOk, Entered, AddNode, RegsOk, SameNodes, NodesEvolve;
    AddNodeInv(w, r, a);
    var (w', id) := AddNode(w, r, a);
    SameNodesEvolve(w.mem, w'.mem, |w.log|);
    EnteredEvolves(w, w', r, a, id);
  }

  lemma RemoveEvolves<N, E>(w: World<N, E>, r: RegId, id: NodeId)
    requires Inv(w) && r < |w.regs|
    ensures Evolves(w, Remove(w, r, id))
  {
    hide Core, OutOk, TrackedOk, Remove, SameNodes, NodesEvolve;
    if id in w.regs[r].nodes {
      RemoveCore(w, r, id);
      SameNodesEvolve(w.mem, Remove(w, r, id).mem, |w.log|);
    } else {
      RemoveAbsent(w, r, id);
      SameNodesRefl(w.mem);
      SameNodesEvolve(w.mem, w.mem, |w.log|);
    }
  }

  lemma CountersEvolve<N, E>(w: World<N, E>, w': World<N, E>)
    requires SameNodes(w.mem, w'.mem) && w'.log == w.log && w'.regs == w.regs
    ensures Evolves(w, w')
  {
  }

  lemma ApplyEvolves<N, E>(w: World<N, E>, op: Op<N, E>)
    requires Inv(w) && Enabled(w, op)
    ensures Evolves(w, Apply(w, op))
  {
    hide Inv, SameNodes, CanCreate, Evolves, WithParents, Release, AllOutgoing, AddNode, TryRegister, Remove, Owns;
    match op {
      case Create(at, value, parents) => CreateEvolves(w, at, value, parents);
      case Clone(a) => AddHandleInv(w, a); CountersEvolve(w, AddHandle(w, a));
      case Drop(a) => OwnsOne(w, a); ReleaseEvolves(w, [Strong(a)]);
      case Downgrade(a) => AddWeakInv(w, Weak(a, w.mem[a].stamp)); CountersEvolve(w, Apply(w, op));
      case CloneWeak(k) => AddWeakInv(w, k); CountersEvolve(w, AddWeak(w, k));
      case DropLoose(k) => OwnsOneLoose(w, k); ReleaseEvolves(w, [Loose(k)]);
      case Upgrade(k) =>
        SameNodesRefl(w.mem);
        if Live(w.mem, k.addr) { AddHandleInv(w, k.addr); }
        CountersEvolve(w, Apply(w, op));
      case Outgoing(a) => OutgoingEvolves(w, a);
      case OpenRegistry => RegistryEvolves(w, NewRegistry(w));
      case CloseEmpty(r) => RegistryEvolves(w, CloseRegistry(w, r));
      case Rebuild(nodes, nextId) => RegistryEvolves(w, RebuildRegistry(w, nodes, nextId));
      case Enter(r, a) => EnterEvolves(w, r, a);
      case Register(r, a) => RegisterEvolves(w, r, a);
      case RemoveId(r, id) => RemoveEvolves(w, r, id);
    }
  }

  lemma RegistryEvolves<N, E>(w: World<N, E>, w': World<N, E>)
    requires w'.mem == w.mem && w'.log == w.log && |w.regs| <= |w'.regs|
    requires forall r :: 0 <= r < |w.regs| ==> RegEvolves(w.regs[r], w'.regs[r])
    ensures Evolves(w, w')
  {
  }

  /** Over any run, a node's address, value and parents are fixed, its registry link is
      set at most once and never to another registry, a dead node stays dead, and a
      registry id is never given to a second node. */
  lemma {:induction false} RunEvolves<N, E>(w: World<N, E>, ops: seq<Op<N, E>>)
    requires Inv(w) && Legal(w, ops)
    ensures Evolves(w, Exec(w, ops))
    decreases |ops|
  {
    hide Inv, Enabled, Apply, Evolves;
    if ops == [] {
      EvolvesRefl(w);
    } else {
      ApplyInv(w, ops[0]);
      ApplyEvolves(w, ops[0]);
      var w1 := Apply(w, ops[0]);
      RunEvolves(w1, ops[1..]);
      EvolvesTrans(w, w1, Exec(w1, ops[1..]));
    }
  }

  lemma EvolvesRefl<N, E>(w: World<N, E>)
    ensures Evolves(w, w)
  {
  }

  // ----- how long an entry lasts -----

  ghost predicate KeepsEntry<N, E>(w: World<N, E>, w': World<N, E>, r: RegId, id: NodeId)
    requires r < |w.regs| && id in w.regs[r].nodes
  {
    r < |w'.regs| && (LiveStamp(w'.mem, w.regs[r].nodes[id].stamp) ==> id in w'.regs[r].nodes)
  }

  lemma ReleaseKeepsEntry<N, E>(w: World<N, E>, todo: seq<Ref>, r: RegId, id: NodeId)
    requires Inv(w) && Owns(w, todo) && r < |w.regs| && id in w.regs[r].nodes
    ensures KeepsEntry(w, Release(w, todo), r, id)
  {
    hide Inv, Owns, Release, Strongs, Looses, LiveStamp;
    ReleaseInv(w, todo);
    assert RegShrinks(r, w.regs[r], Release(w, todo).regs[r], w.mem, Release(w, todo).mem);
  }

  lemma RegistryKeepsEntry<N, E>(w: World<N, E>, op: Op<N, E>, r: RegId, id: NodeId)
    requires Inv(w) && Enabled(w, op) && r < |w.regs| && id in w.regs[r].nodes && op != RemoveId(r, id)
    requires op.Enter? || op.Register? || op.RemoveId?
    ensures KeepsEntry(w, Apply(w, op), r, id)
  {
    hide Core, OutOk, TrackedOk, SameNodes, CanCreate, WithParents, Release, AllOutgoing, AddNode, TryRegister,
         Remove, Owns, LinkedOnly, LiveStamp;
    match op {
      case Enter(q, a) => AddNodeInv(w, q, a);
      case Register(q, a) => TryRegisterInv(w, q, a);
      case RemoveId(q, j) =>
        if j in w.regs[q].nodes { RemoveCore(w, q, j); } else { RemoveAbsent(w, q, j); }
    }
  }

  /** One operation other than its removal loses no entry of a node that stays alive. */
  lemma EntryStays<N, E>(w: World<N, E>, op: Op<N, E>, r: RegId, id: NodeId)
    requires Inv(w) && Enabled(w, op) && r < |w.regs| && id in w.regs[r].nodes && op != RemoveId(r, id)
    ensures KeepsEntry(w, Apply(w, op), r, id)
  {
    hide Inv, SameNodes, CanCreate, WithParents, Release, AllOutgoing, AddNode, TryRegister, Remove, Owns, PrunedOnly,
         Kept, LiveStamp;
    match op {
      case Create(at, value, parents) => WithParentsEffect(w, at, value, parents);
      case Drop(a) => OwnsOne(w, a); ReleaseKeepsEntry(w, [Strong(a)], r, id);
      case DropLoose(k) => OwnsOneLoose(w, k); ReleaseKeepsEntry(w, [Loose(k)], r, id);
      case Outgoing(a) => AllOutgoingInv(w, a); PrunedOnlyRest(w, AllOutgoing(w, a).(handles := w.handles), a);
      case Enter(_, _) => RegistryKeepsEntry(w, op, r, id);
      case Register(_, _) => RegistryKeepsEntry(w, op, r, id);
      case RemoveId(_, _) => RegistryKeepsEntry(w, op, r, id);
      case _ =>
    }
  }

  /** Nobody removes `id` from `r` while the node `s` is alive. */
  ghost predicate Unremoved<N, E>(w: World<N, E>, ops: seq<Op<N, E>>, r: RegId, id: NodeId, s: nat)
    requires Inv(w) && Legal(w, ops)
    decreases |ops|
  {
    ops == [] || (
      && (ops[0] == RemoveId(r, id) ==> !LiveStamp(w.mem, s))
      && (ApplyInv(w, ops[0]); Unremoved(Apply(w, ops[0]), ops[1..], r, id, s)))
  }

  lemma {:induction false} AbsentUnremoved<N, E>(w: World<N, E>, ops: seq<Op<N, E>>, r: RegId, id: NodeId, s: nat)
    requires Inv(w) && Legal(w, ops) && RemoveId(r, id) !in ops
    ensures Unremoved(w, ops, r, id, s)
    decreases |ops|
  {
    hide Inv, Enabled, Apply;
    if ops != [] {
      ApplyInv(w, ops[0]);
      AbsentUnremoved(Apply(w, ops[0]), ops[1..], r, id, s);
    }
  }

  lemma {:induction false} DeadUnremoved<N, E>(w: World<N, E>, ops: seq<Op<N, E>>, r: RegId, id: NodeId, s: nat)
    requires Inv(w) && Legal(w, ops) && s < |w.log| && !LiveStamp(w.mem, s)
    ensures Unremoved(w, ops, r, id, s)
    decreases |ops|
  {
    hide Inv, Enabled, Apply, LiveStamp;
    if ops != [] {
      ApplyInv(w, ops[0]);
      ApplyEvolves(w, ops[0]);
      DeadStays(w, Apply(w, ops[0]), s);
      DeadUnremoved(Apply(w, ops[0]), ops[1..], r, id, s);
    }
  }

  /** The dead stay dead. */
  lemma DeadStays<N, E>(w: World<N, E>, w': World<N, E>, s: nat)
    requires Evolves(w, w') && s < |w.log|
    ensures s < |w'.log| && (LiveStamp(w'.mem, s) ==> LiveStamp(w.mem, s))
  {
    if LiveStamp(w'.mem, s) {
      var b: Addr :| Live(w'.mem, b) && w'.mem[b].stamp == s;
      assert Live(w.mem, b);
    }
  }

  lemma EntryStamp<N, E>(w: World<N, E>, r: RegId, id: NodeId)
    requires Inv(w) && r < |w.regs| && id in w.regs[r].nodes
    ensures w.regs[r].nodes[id].stamp < |w.log|
  {
    hide OutOk, TrackedOk, AllStrong, AllWeak, NodeOk, OutSound, RegsOk;
    HeldByRegistry(w, r, id);
    assert Pinned(w.mem, w.regs[r].nodes[id]);
  }

  /** An id given to a node stays its id, in every run, for as long as the node lives,
      unless somebody calls `remove` with that id while it does. */
  lemma {:induction false} RunKeepsId<N, E>(w: World<N, E>, ops: seq<Op<N, E>>, r: RegId, id: NodeId)
    requires Inv(w) && Legal(w, ops) && r < |w.regs| && id in w.regs[r].nodes
    requires Unremoved(w, ops, r, id, w.regs[r].nodes[id].stamp)
    ensures var w' := Exec(w, ops);
      r < |w'.regs| && (LiveStamp(w'.mem, w.regs[r].nodes[id].stamp) ==>
        id in w'.regs[r].nodes && w'.regs[r].nodes[id] == w.regs[r].nodes[id])
    decreases |ops|
  {
    hide Core, OutOk, TrackedOk, Enabled, Apply, SameNodes;
    if ops != [] {
      var w1 := Apply(w, ops[0]);
      ApplyInv(w, ops[0]);
      ApplyEvolves(w, ops[0]);
      RunEvolves(w1, ops[1..]);
      var s := w.regs[r].nodes[id].stamp;
      var w' := Exec(w1, ops[1..]);
      assert Exec(w, ops) == w';
      IdBelow(w, r, id);
      EntryStamp(w, r, id);
      if LiveStamp(w'.mem, s) {
        var b: Addr :| Live(w'.mem, b) && w'.mem[b].stamp == s;
        assert Live(w1.mem, b) && Live(w.mem, b);
        EntryStays(w, ops[0], r, id);
        assert id in w1.regs[r].nodes && RegEvolves(w.regs[r], w1.regs[r]);
        RunKeepsId(w1, ops[1..], r, id);
      }
    }
  }

  lemma IdBelow<N, E>(w: World<N, E>, r: RegId, id: NodeId)
    requires Inv(w) && r < |w.regs| && id in w.regs[r].nodes
    ensures id < w.regs[r].nextId
  {
    hide CountsOk, ShapeOk, OutSound, OutOk, TrackedOk;
    assert RegOk(w.regs[r]);
  }

  lemma DifferentStamps<N, E>(w: World<N, E>, b: Addr, a: Addr)
    requires Inv(w) && Live(w.mem, a) && Live(w.mem, b) && a != b
    ensures w.mem[a].stamp != w.mem[b].stamp
  {
    hide CountsOk, OutSound, RegsOk, OutOk, TrackedOk, NodeOk;
  }

  lemma StampBelow<N, E>(w: World<N, E>, a: Addr)
    requires Inv(w) && Live(w.mem, a)
    ensures WellFounded(w.log) && w.mem[a].stamp < |w.log|
  {
    hide CountsOk, NodeOk, OutSound, RegsOk, OutOk, TrackedOk;
  }

  /** No two entries of a registry are for the same node. */
  lemma EntriesDistinct<N, E>(w: World<N, E>, r: RegId, i: NodeId, j: NodeId)
    requires Inv(w) && r < |w.regs| && i in w.regs[r].nodes && j in w.regs[r].nodes
    requires w.regs[r].nodes[i].stamp == w.regs[r].nodes[j].stamp
    ensures i == j
  {
    hide OutOk, TrackedOk, AllStrong, AllWeak, NodeOk, OutSound;
    HeldByRegistry(w, r, i);
    HeldByRegistry(w, r, j);
    assert Pinned(w.mem, w.regs[r].nodes[i]) && Pinned(w.mem, w.regs[r].nodes[j]);
    assert RegOk(w.regs[r]);
  }
}
