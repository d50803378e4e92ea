/** The heap as an object updated in place. Every method is proved to change the state
    exactly as the corresponding step of a run does. */
module HeapObject {
  import opened Prelude
  import opened Dag
  import opened HeapModel
  import opened HeapSteps
  import opened HeapNew
  import opened HeapDrop
  import opened HeapOps
  import opened HeapRegistry
  import opened HeapRuns
  import opened HeapTracked

  lemma DropOneShared<N, E>(w: World<N, E>, a: Addr)
    requires Inv(w) && Live(w.mem, a) && w.mem[a].strong > 1 && a in w.handles
    ensures Owns(w, [Strong(a)]) && Release(w, [Strong(a)]) == DropShared(w, a)
  {
    hide Inv, Strongs, Looses;
    OwnsOne(w, a);
    assert [Strong(a)] + [] == [Strong(a)];
    ReleaseStep(w, Strong(a), []);
  }

  lemma DropOneLast<N, E>(w: World<N, E>, a: Addr)
    requires Inv(w) && Live(w.mem, a) && w.mem[a].strong <= 1 && a in w.handles
    ensures Owns(w, [Strong(a)])
    ensures var w1 := DropNode(w, a);
      && Inv(w1) && |LiveSet(w1.mem)| < |LiveSet(w.mem)|
      && Owns(w1, Debris(w.mem[a].inner.value))
      && Release(w, [Strong(a)]) == Release(w1, Debris(w.mem[a].inner.value))
  {
    hide Inv, Strongs, Looses, Owns, DropNode, LiveSet, Debris;
    OwnsOne(w, a);
    var debris := Debris(w.mem[a].inner.value);
    assert [Strong(a)] + [] == [Strong(a)] && debris + [] == debris;
    ReleaseStep(w, Strong(a), []);
    DropNodeLess(w, a);
  }

  lemma ReleaseLooseOne<N, E>(w: World<N, E>, k: Weak)
    requires Inv(w) && k in w.weaks
    ensures Owns(w, [Loose(k)])
    ensures Pinned(w.mem, k) && w.mem[k.addr].weak > 0
    ensures Release(w, [Loose(k)]) == DropWeak(w, k) && Inv(DropWeak(w, k))
  {
    hide Inv, Strongs, Looses, Owns, DropWeak;
    OwnsOneLoose(w, k);
    assert [Loose(k)] + [] == [Loose(k)];
    ReleaseOneLoose(w, k, []);
  }

  lemma EdgeDebrisHead<E>(es: seq<InEdge<E>>, i: nat, rest: seq<Ref>)
    requires i < |es|
    ensures EdgeDebris(es[i..]) + rest ==
      [Strong(es[i].source)] + ([Loose(es[i].target)] + (EdgeDebris(es[i + 1..]) + rest))
  {
    assert es[i..][1..] == es[i + 1..];
  }

  lemma OutDebrisHead(es: seq<WeakEdge>, i: nat)
    requires i < |es|
    ensures OutDebris(es[i..]) == [Loose(es[i].target)] + OutDebris(es[i + 1..])
  {
    assert es[i..][1..] == es[i + 1..];
  }

  lemma {:induction false} KeepSnoc<N, E>(mem: Memory<N, E>, es: seq<WeakEdge>, e: WeakEdge)
    ensures KeepLive(mem, es + [e]) == KeepLive(mem, es) + (if Live(mem, e.target.addr) then [e] else [])
  {
    if es != [] {
      assert (es + [e])[1..] == es[1..] + [e] && (es + [e])[0] == es[0];
      KeepSnoc(mem, es[1..], e);
    }
  }

  lemma {:induction false} DeadSnoc<N, E>(mem: Memory<N, E>, es: seq<WeakEdge>, e: WeakEdge)
    ensures KeepDead(mem, es + [e]) == KeepDead(mem, es) + (if Live(mem, e.target.addr) then [] else [e])
  {
    if es != [] {
      assert (es + [e])[1..] == es[1..] + [e] && (es + [e])[0] == es[0];
      DeadSnoc(mem, es[1..], e);
    }
  }

  /** Registering one edge in memory: a weak count more, and a longer list. */
  lemma EdgePushed<N, E>(w: World<N, E>, at: Addr, i: nat)
    requires Live(w.mem, at) && NodeOk(w.mem, w.log, at) && i < |w.mem[at].inner.value.incoming|
    ensures var e := w.mem[at].inner.value.incoming[i];
      && Live(w.mem, e.source) && e.target.addr == at
      && var m := w.mem[at := w.mem[at].(weak := w.mem[at].weak + 1)];
         var n := m[e.source].inner.value;
         RegisterEdge(w, at, i).mem ==
           m[e.source := m[e.source].(inner := Some(n.(outgoing := n.outgoing + [WeakEdge(i, e.target)])))]
  {
    hide NodeOk, OutTargets;
    EdgeAt(w.mem, w.log, at, i);
  }

  /** The node just allocated. */
  lemma AllocatedNode<N, E>(w: World<N, E>, at: Addr, value: N, parents: seq<(Addr, E)>)
    requires at <= |w.mem| && AllLive(Ready(w, at).mem, parents)
    ensures var w1 := Alloc(Ready(w, at), at, value, parents);
      Live(w1.mem, at) && w1.mem[at].inner.value.incoming == EdgesFrom(parents, Weak(at, |w.log|)) && w1.regs == w.regs
  {
    hide EdgesFrom, Recorded, Addrs;
  }

  lemma CloneRuns<N, E>(w: World<N, E>, a: Addr)
    requires Inv(w) && Live(w.mem, a)
    ensures Runs(w, [Clone(a)], AddHandle(w, a)) && Inv(AddHandle(w, a))
  {
    hide Inv, Runs, AddHandle;
    RunsOne(w, Clone(a));
  }

  lemma DropRuns<N, E>(w: World<N, E>, a: Addr)
    requires Inv(w) && a in w.handles
    ensures Owns(w, [Strong(a)]) && Runs(w, [Drop(a)], Release(w, [Strong(a)])) && Inv(Release(w, [Strong(a)]))
    ensures Release(w, [Strong(a)]).handles == w.handles - multiset{a}
  {
    hide Inv, Runs, Release, Owns, Shrinks;
    OwnsOne(w, a);
    RunsOne(w, Drop(a));
    ReleaseInv(w, [Strong(a)]);
    OneStrong(a);
  }

  lemma RegisterRuns<N, E>(w: World<N, E>, r: RegId, a: Addr)
    requires Inv(w) && r < |w.regs| && w.regs[r].open && Live(w.mem, a)
    ensures Runs(w, [Register(r, a)], TryRegister(w, r, a).0)
  {
    hide Inv, Runs, TryRegister;
    RunsOne(w, Register(r, a));
  }

  lemma CreateRuns<N, E>(w: World<N, E>, at: Addr, value: N, parents: seq<(Addr, E)>)
    requires Inv(w) && CanCreate(w, at, parents)
    ensures Runs(w, [Create(at, value, parents)], WithParents(w, at, value, parents))
  {
    hide Inv, Runs, WithParents, CanCreate;
    RunsOne(w, Create(at, value, parents));
  }

  lemma UpgradeRuns<N, E>(w: World<N, E>, k: Weak)
    requires Inv(w) && Pinned(w.mem, k)
    ensures Runs(w, [Upgrade(k)], if Live(w.mem, k.addr) then AddHandle(w, k.addr) else w)
  {
    hide Inv, Runs, AddHandle;
    RunsOne(w, Upgrade(k));
  }

  lemma LooseRuns<N, E>(w: World<N, E>, k: Weak)
    requires Inv(w) && k in w.weaks
    ensures Owns(w, [Loose(k)]) && Runs(w, [DropLoose(k)], Release(w, [Loose(k)]))
  {
    hide Inv, Runs, Release, Owns;
    OwnsOneLoose(w, k);
    RunsOne(w, DropLoose(k));
  }

  lemma DowngradeRuns<N, E>(w: World<N, E>, a: Addr)
    requires Inv(w) && Live(w.mem, a)
    ensures Runs(w, [Downgrade(a)], AddWeak(w, Weak(a, w.mem[a].stamp)))
  {
    hide Inv, Runs, AddWeak;
    RunsOne(w, Downgrade(a));
  }

  lemma OutgoingRuns<N, E>(w: World<N, E>, p: Addr)
    requires Inv(w) && Live(w.mem, p)
    ensures Runs(w, [Outgoing(p)], AllOutgoing(w, p))
  {
    hide Inv, Runs, AllOutgoing;
    RunsOne(w, Outgoing(p));
  }

  lemma EnterRuns<N, E>(w: World<N, E>, r: RegId, a: Addr)
    requires Inv(w) && r < |w.regs| && w.regs[r].open && Live(w.mem, a)
    ensures Runs(w, [Enter(r, a)], AddNode(w, r, a).0)
  {
    hide Inv, Runs, AddNode;
    RunsOne(w, Enter(r, a));
  }

  lemma OpenRuns<N, E>(w: World<N, E>)
    requires Inv(w)
    ensures Runs(w, [OpenRegistry], NewRegistry(w)) && Inv(NewRegistry(w))
  {
    hide Inv, Runs, NewRegistry;
    RunsOne(w, OpenRegistry);
  }

  class Heap<N, E> {
    var mem: Memory<N, E>
    var regs: seq<Reg>
    ghost var log: Arena<N, E>
    ghost var handles: multiset<Addr>
    ghost var weaks: multiset<Weak>
    ghost var tracked: set<(nat, RegId)>
    var births: nat

    ghost function State(): World<N, E>
      reads this
    {
      World(mem, log, regs, handles, weaks, tracked)
    }

    ghost predicate Valid()
      reads this
    {
      Inv(State()) && births == |log|
    }

    constructor ()
      ensures Valid() && State() == Empty()
    {
      mem, regs, births := [], [], 0;
      log, handles, weaks, tracked := [], multiset{}, multiset{}, {};
      new;
      hide Inv;
      EmptyInv<N, E>();
    }

    /** `RelRc::with_parents`; `RelRc::new` is the case without parents. `at` is the
        address the allocator returns. */
    method WithParents(at: Addr, value: N, parents: seq<(Addr, E)>)
      requires Valid() && CanCreate(State(), at, parents)
      modifies this
      ensures Valid() && State() == HeapNew.WithParents(old(State()), at, value, parents)
      ensures Runs(old(State()), [Create(at, value, parents)], State())
    {
      hide Inv, NodeOk, RegisterOutgoing, Kept, Alloc, Ready, Registering, AllLive, Runs;
      ghost var w := State();
      CreateRuns(w, at, value, parents);
      AllocInv(w, at, value, parents);
      AllocatedNode(w, at, value, parents);
      WithParentsEffect(w, at, value, parents);
      var incoming := Allocate(at, value, parents);
      RegisterEdges(at, incoming);
    }

    /** `Rc::new_cyclic`: the allocation with the node in it, before the parents know of it. */
    method Allocate(at: Addr, value: N, parents: seq<(Addr, E)>) returns (incoming: seq<InEdge<E>>)
      requires CanAlloc(State(), at) && AllLive(Ready(State(), at).mem, parents) && births == |log|
      modifies this
      ensures State() == Alloc(Ready(old(State()), at), at, value, parents) && births == |log| && regs == old(regs)
      ensures incoming == EdgesFrom(parents, Weak(at, old(births)))
    {
      hide EdgesFrom, Recorded, Addrs;
      if at == |mem| { mem := mem + [Free]; }
      var self := Weak(at, births);
      incoming := seq(|parents|, k requires 0 <= k < |parents| => InEdge(parents[k].1, parents[k].0, self));
      assert incoming == EdgesFrom(parents, self);
      log := log + [Recorded(mem, value, parents)];
      mem := mem[at := Used(births, 1, |parents|, Some(Inner(value, incoming, [], None)))];
      handles := handles - multiset(Addrs(parents)) + multiset{at};
      births := births + 1;
    }

    /** `register_outgoing_edges`. */
    method RegisterEdges(at: Addr, incoming: seq<InEdge<E>>)
      requires Live(mem, at) && NodeOk(mem, log, at) && mem[at].inner.value.incoming == incoming
      modifies this`mem
      ensures State() == RegisterOutgoing(old(State()), at, 0)
    {
      hide NodeOk, RegisterOutgoing, RegisterEdge;
      for i := 0 to |incoming|
        invariant Live(mem, at) && NodeOk(mem, log, at) && mem[at].inner.value.incoming == incoming
        invariant RegisterOutgoing(State(), at, i) == RegisterOutgoing(old(State()), at, 0)
      {
        RegisterEdgeNodeOk(State(), at, i);
        RegisterOutgoingStep(State(), at, i);
        PushEdge(at, incoming[i], i);
      }
      RegisterOutgoingDone(State(), at);
    }

    method PushEdge(at: Addr, e: InEdge<E>, i: nat)
      requires Live(mem, at) && NodeOk(mem, log, at)
      requires i < |mem[at].inner.value.incoming| && e == mem[at].inner.value.incoming[i]
      modifies this`mem
      ensures State() == RegisterEdge(old(State()), at, i)
    {
      hide NodeOk, RegisterEdge;
      EdgeAt(mem, log, at, i);
      RegisterEdgeNodeOk(State(), at, i);
      EdgePushed(State(), at, i);
      mem := mem[e.target.addr := mem[e.target.addr].(weak := mem[e.target.addr].weak + 1)];
      var n := mem[e.source].inner.value;
      mem := mem[e.source := mem[e.source].(inner := Some(n.(outgoing := n.outgoing + [WeakEdge(i, e.target)])))];
    }

    lemma RegisterOutgoingDone(w: World<N, E>, at: Addr)
      requires Live(w.mem, at) && NodeOk(w.mem, w.log, at)
      ensures RegisterOutgoing(w, at, |w.mem[at].inner.value.incoming|) == w
    {
    }

    lemma RegisterOutgoingStep(w: World<N, E>, at: Addr, i: nat)
      requires Live(w.mem, at) && NodeOk(w.mem, w.log, at) && i < |w.mem[at].inner.value.incoming|
      ensures Live(RegisterEdge(w, at, i).mem, at) && NodeOk(RegisterEdge(w, at, i).mem, RegisterEdge(w, at, i).log, at)
      ensures i + 1 <= |RegisterEdge(w, at, i).mem[at].inner.value.incoming|
      ensures RegisterOutgoing(w, at, i) == RegisterOutgoing(RegisterEdge(w, at, i), at, i + 1)
    {
      RegisterEdgeNodeOk(w, at, i);
    }

    /** `Rc::clone`. */
    method Clone(a: Addr)
      requires Valid() && Live(mem, a)
      modifies this`mem, this`handles
      ensures Valid() && State() == AddHandle(old(State()), a)
      ensures Runs(old(State()), [Op.Clone(a)], State())
    {
      hide Inv, SameNodes, Runs;
      CloneRuns(State(), a);
      AddHandleInv(State(), a);
      mem := mem[a := mem[a].(strong := mem[a].strong + 1)];
      handles := handles + multiset{a};
    }

    /** `RelWeak::upgrade`. */
    method Upgrade(k: Weak) returns (r: Option<Addr>)
      requires Valid() && k in AllWeak(State())
      modifies this`mem, this`handles
      ensures Valid()
      ensures r.Some? <==> old(LiveStamp(mem, k.stamp))
      ensures r.Some? ==>
        old(Live(mem, r.value) && mem[r.value].stamp == k.stamp) && State() == AddHandle(old(State()), r.value)
      ensures r.None? ==> State() == old(State())
      ensures Runs(old(State()), [Op.Upgrade(k)], State())
    {
      hide Inv, LiveStamp, AllWeak, Runs;
      UpgradeExact(State(), k);
      PinnedWeak(State(), k);
      UpgradeRuns(State(), k);
      LiveIsStrong(State(), k.addr);
      if mem[k.addr].strong > 0 {
        Clone(k.addr);
        r := Some(k.addr);
      } else {
        r := None;
      }
    }

    /** The drop of one weak reference. */
    method DropWeakRef(k: Weak)
      requires Valid() && k in weaks
      modifies this`mem, this`weaks
      ensures Valid()
      ensures Owns(old(State()), [Loose(k)]) && State() == Release(old(State()), [Loose(k)])
      ensures Runs(old(State()), [DropLoose(k)], State())
    {
      hide Inv, Release, Owns, Runs;
      LooseRuns(State(), k);
      ReleaseLooseOne(State(), k);
      var s := mem[k.addr];
      mem := mem[k.addr := if s.strong == 0 && s.weak == 1 then Free else s.(weak := s.weak - 1)];
      weaks := weaks - multiset{k};
      assert State() == DropWeak(old(State()), k);
    }

    /** `Drop for RelRc` followed by the drop of the `Rc` it wraps. */
    method Drop(a: Addr)
      requires Valid() && a in handles
      modifies this
      ensures Valid()
      ensures Owns(old(State()), [Strong(a)]) && State() == Release(old(State()), [Strong(a)])
      ensures Runs(old(State()), [Op.Drop(a)], State())
      decreases |LiveSet(mem)|, 0
    {
      hide Inv, Release, Owns, LiveSet, EdgeDebris, OutDebris, SameNodes, Runs;
      DropRuns(State(), a);
      OwnedNode(State(), a);
      OwnsOne(State(), a);
      if mem[a].strong > 1 {
        DropOneShared(State(), a);
        DropSharedInv(State(), a);
        mem := mem[a := mem[a].(strong := mem[a].strong - 1)];
        handles := handles - multiset{a};
      } else {
        ghost var w := State();
        DropOneLast(w, a);
        var n := mem[a].inner.value;
        UnlinkAndKill(a);
        DropIncoming(n.incoming, OutDebris(n.outgoing));
        DropOutgoing(n.outgoing);
      }
    }

    /** The body of `drop`, and the node taken out of its allocation. */
    method UnlinkAndKill(a: Addr)
      requires Valid() && Live(mem, a)
      modifies this
      ensures State() == DropNode(old(State()), a) && births == old(births)
    {
      hide Inv, Core, OutOk, Unregister, Unregistered, HeapSteps.Kill;
      InvCore(State());
      UnregisterCore(State(), a);
      UnregisteredLive(State(), Unregister(State(), a), a);
      Unlink(a);
      Kill(a);
    }

    /** The node leaves its allocation; its references are still to be dropped. */
    method Kill(a: Addr)
      requires Live(mem, a)
      modifies this`mem, this`handles, this`weaks
      ensures State() == HeapSteps.Kill(old(State()), a)
    {
      hide StrongOut, WeakOut;
      handles := handles - multiset{a} + StrongOut(mem[a]);
      weaks := weaks + WeakOut(mem[a]);
      mem := mem[a := if mem[a].weak == 0 then Free else Used(mem[a].stamp, 0, mem[a].weak, None)];
    }

    /** The body of `drop`: clear the link and remove the entry from the registry. */
    method Unlink(a: Addr)
      requires Core(State()) && Live(mem, a)
      modifies this`mem, this`regs
      ensures State() == Unregister(old(State()), a)
    {
      hide Core, Unregister, RemoveEntry;
      ghost var w := State();
      UnregisterCases(w, a);
      var n := mem[a].inner.value;
      mem := mem[a := mem[a].(inner := Some(n.(link := None)))];
      assert State() == SetLink(w, a, None);
      if n.link.Some? && n.link.value < |regs| && regs[n.link.value].open && a in regs[n.link.value].ptrToId {
        EraseEntry(n.link.value, regs[n.link.value].ptrToId[a]);
      }
    }

    /** `Registry::remove` on both maps, with the drop of the entry's weak reference. */
    method EraseEntry(r: RegId, id: NodeId)
      requires r < |regs| && id in regs[r].nodes
      requires Pinned(mem, regs[r].nodes[id]) && mem[regs[r].nodes[id].addr].weak > 0
      modifies this`mem, this`regs
      ensures State() == RemoveEntry(old(State()), r, id)
    {
      var reg := regs[r];
      var k := reg.nodes[id];
      regs := regs[r := reg.(nodes := reg.nodes - {id}, ptrToId := reg.ptrToId - {k.addr})];
      var s := mem[k.addr];
      mem := mem[k.addr := if s.strong == 0 && s.weak == 1 then Free else s.(weak := s.weak - 1)];
      assert weaks + multiset{k} - multiset{k} == weaks;
    }

    /** The drop of the `incoming` field: for each edge its source, then its target. */
    method DropIncoming(es: seq<InEdge<E>>, ghost rest: seq<Ref>)
      requires Valid() && Owns(State(), EdgeDebris(es) + rest)
      modifies this
      ensures Valid() && Owns(State(), rest)
      ensures Release(State(), rest) == Release(old(State()), EdgeDebris(es) + rest)
      ensures |LiveSet(mem)| <= old(|LiveSet(mem)|)
      decreases |LiveSet(mem)|, 1
    {
      hide Inv, Release, Owns, LiveSet, EdgeDebris;
      assert es[0..] == es;
      for i := 0 to |es|
        invariant Valid() && Owns(State(), EdgeDebris(es[i..]) + rest)
        invariant Release(State(), EdgeDebris(es[i..]) + rest) == Release(old(State()), EdgeDebris(es) + rest)
        invariant |LiveSet(mem)| <= old(|LiveSet(mem)|)
      {
        ghost var tail := EdgeDebris(es[i + 1..]) + rest;
        EdgeDebrisHead(es, i, rest);
        SplitStrong(State(), es[i].source, [Loose(es[i].target)] + tail);
        ReleaseLess(State(), [Strong(es[i].source)]);
        Drop(es[i].source);
        SplitLoose(State(), es[i].target, tail);
        ReleaseLess(State(), [Loose(es[i].target)]);
        DropWeakRef(es[i].target);
      }
      EdgeDebrisDone(es, rest);
    }

    /** The drop of the `outgoing` field. */
    method DropOutgoing(es: seq<WeakEdge>)
      requires Valid() && Owns(State(), OutDebris(es))
      modifies this`mem, this`weaks
      ensures Valid()
      ensures State() == Release(old(State()), OutDebris(es))
    {
      hide Inv, Release, Owns, OutDebris;
      assert es[0..] == es;
      for i := 0 to |es|
        invariant Valid() && Owns(State(), OutDebris(es[i..]))
        invariant Release(State(), OutDebris(es[i..])) == Release(old(State()), OutDebris(es))
      {
        OutDebrisHead(es, i);
        SplitLoose(State(), es[i].target, OutDebris(es[i + 1..]));
        DropWeakRef(es[i].target);
      }
      OutDebrisDone(State(), es);
    }

    /** `all_outgoing`: the list is filtered in place and every live edge is returned with
        a strong reference to its target. */
    method AllOutgoing(p: Addr) returns (edges: seq<Edge>)
      requires Valid() && Live(mem, p)
      modifies this
      ensures Valid() && State() == HeapOps.AllOutgoing(old(State()), p)
      ensures Runs(old(State()), [Outgoing(p)], State())
      ensures forall e :: e in edges <==> old(IsChildEdge(mem, p, e))
      ensures NoDup(edges) && forall i, j :: 0 <= i < j < |edges| ==> old(Created(mem, edges[i], edges[j]))
    {
      hide Inv, CountsOk, Release, Owns, KeepLive, KeepDead, Pruned, Prune, OutDebris, SameNodes, OutEdges, NoDup,
           IsChildEdge, Pinned, Runs;
      ghost var w := State();
      OutgoingRuns(w, p);
      AllOutgoingInv(w, p);
      AllOutgoingExact(w, p);
      PruneInv(w, p);
      PrunedInv(w, p);
      OutEdgesLive(w, p);
      PrunedOnlyLive(w, Prune(w, p), p);
      InvHasCounts(w);
      forall e | e in mem[p].inner.value.outgoing ensures Pinned(mem, e.target) {
        OutEntryPinned(w, p, e);
      }
      var kept, dead := Scan(mem[p].inner.value.outgoing);
      edges := seq(|kept|, i requires 0 <= i < |kept| => Edge(kept[i].index, kept[i].target.addr));
      assert edges == Upgraded(kept);
      OutEdgesAre(w, p, kept, edges);
      Retain(p, kept);
      DropOutgoing(dead);
      PruneIs(w, p);
      HoldEdges(edges);
    }

    /** Which entries can still be upgraded. */
    method Scan(out: seq<WeakEdge>) returns (kept: seq<WeakEdge>, dead: seq<WeakEdge>)
      requires Valid() && forall e :: e in out ==> Pinned(mem, e.target)
      ensures kept == KeepLive(mem, out) && dead == KeepDead(mem, out)
    {
      hide Inv, KeepLive, KeepDead;
      kept, dead := [], [];
      KeepNone(mem);
      for i := 0 to |out|
        invariant kept == KeepLive(mem, out[..i]) && dead == KeepDead(mem, out[..i])
      {
        KeepSnoc(mem, out[..i], out[i]);
        DeadSnoc(mem, out[..i], out[i]);
        assert out[..i] + [out[i]] == out[..i + 1] && out[i] in out;
        LiveIsStrong(State(), out[i].target.addr);
        if mem[out[i].target.addr].strong > 0 {
          kept := kept + [out[i]];
        } else {
          dead := dead + [out[i]];
        }
      }
      assert out[..|out|] == out;
    }

    method Retain(p: Addr, kept: seq<WeakEdge>)
      requires Valid() && Live(mem, p) && kept == KeepLive(mem, mem[p].inner.value.outgoing)
      modifies this`mem, this`weaks
      ensures Valid() && State() == Pruned(old(State()), p)
    {
      hide Inv, KeepLive, KeepDead, Owns, OutTargets;
      PrunedInv(State(), p);
      var n := mem[p].inner.value;
      weaks := weaks + multiset(OutTargets(n.outgoing)) - multiset(OutTargets(kept));
      mem := mem[p := mem[p].(inner := Some(n.(outgoing := kept)))];
    }

    method HoldEdges(edges: seq<Edge>)
      requires Valid() && forall e :: e in edges ==> Live(mem, e.target)
      modifies this`mem, this`handles
      ensures Valid() && State() == TakeEdges(old(State()), edges)
    {
      hide Inv;
      assert edges[0..] == edges;
      for i := 0 to |edges|
        invariant Valid() && forall e :: e in edges ==> Live(mem, e.target)
        invariant TakeEdges(State(), edges[i..]) == TakeEdges(old(State()), edges)
      {
        assert edges[i..][0] == edges[i] && edges[i..][1..] == edges[i + 1..];
        ghost var before := mem;
        ghost var t := edges[i].target;
        ghost var after := before[t := before[t].(strong := before[t].strong + 1)];
        assert forall a: Addr :: Live(after, a) <==> Live(before, a);
        Clone(edges[i].target);
      }
    }

    // ----- the registry -----

    /** `Registry::get_id`. */
    method GetId(r: RegId, a: Addr) returns (id: Option<NodeId>)
      requires Valid() && r < |regs| && Live(mem, a)
      ensures id.Some? <==> Registered(regs[r], mem[a].stamp)
      ensures id.Some? ==> id.value in regs[r].nodes && regs[r].nodes[id.value] == Weak(a, mem[a].stamp)
    {
      hide Core, OutOk, TrackedOk;
      GetIdExact(State(), r, a);
      id := if a in regs[r].ptrToId then Some(regs[r].ptrToId[a]) else None;
    }

    /** `Registry::add_node`. */
    method AddNode(r: RegId, a: Addr) returns (id: NodeId)
      requires Valid() && r < |regs| && regs[r].open && Live(mem, a)
      modifies this`mem, this`regs
      ensures Valid() && (State(), id) == HeapRegistry.AddNode(old(State()), r, a)
      ensures id in regs[r].nodes && regs[r].nodes[id] == Weak(a, mem[a].stamp)
      ensures Runs(old(State()), [Enter(r, a)], State())
    {
      hide Inv, SameNodes, Runs;
      ghost var w := State();
      EnterRuns(w, r, a);
      AddNodeInv(w, r, a);
      if a in regs[r].ptrToId {
        id := regs[r].ptrToId[a];
      } else {
        id := InsertEntry(r, a);
      }
    }

    /** A new key bound to a new weak reference, in both maps. */
    method InsertEntry(r: RegId, a: Addr) returns (id: NodeId)
      requires r < |regs| && Live(mem, a) && a !in regs[r].ptrToId
      modifies this`mem, this`regs
      ensures (State(), id) == HeapRegistry.AddNode(old(State()), r, a)
    {
      var reg := regs[r];
      var k := Weak(a, mem[a].stamp);
      id := reg.nextId;
      mem := mem[a := mem[a].(weak := mem[a].weak + 1)];
      regs := regs[r := reg.(nodes := reg.nodes[id := k], ptrToId := reg.ptrToId[a := id], nextId := id + 1)];
      assert weaks + multiset{k} - multiset{k} == weaks;
    }

    /** `try_register_in`. */
    method TryRegisterIn(r: RegId, a: Addr) returns (id: Option<NodeId>)
      requires Valid() && r < |regs| && regs[r].open && Live(mem, a)
      modifies this`mem, this`regs, this`tracked
      ensures Valid() && (State(), id) == TryRegister(old(State()), r, a)
      ensures id.Some? <==> old(CanLink(State(), r, a))
      ensures id.Some? ==> id.value in regs[r].nodes && regs[r].nodes[id.value] == Weak(a, old(mem[a].stamp))
      ensures Runs(old(State()), [Register(r, a)], State())
    {
      hide Inv, SameNodes, LinkedOnly, HeapRegistry.AddNode, Runs;
      ghost var w := State();
      RegisterRuns(w, r, a);
      TryRegisterInv(w, r, a);
      var n := mem[a].inner.value;
      if n.link.Some? && n.link.value != r {
        id := None;
      } else {
        ghost var s := mem[a].stamp;
        mem := mem[a := mem[a].(inner := Some(n.(link := Some(r))))];
        ghost var w1 := State();
        assert w1 == SetLink(w, a, Some(r));
        AddNodeCases(w1, r, a);
        if a in regs[r].ptrToId {
          id := Some(regs[r].ptrToId[a]);
        } else {
          var i := InsertEntry(r, a);
          id := Some(i);
        }
        tracked := tracked + {(s, r)};
      }
    }

    /** `Registry::remove`. */
    method RemoveNode(r: RegId, id: NodeId)
      requires Valid() && r < |regs|
      modifies this`mem, this`regs, this`tracked
      ensures Valid() && Core(old(State())) && State() == Remove(old(State()), r, id)
      ensures Runs(old(State()), [RemoveId(r, id)], State())
    {
      hide Core, OutOk, TrackedOk, SameNodes, RemoveEntry, Runs;
      ghost var w := State();
      RemoveRuns(w, r, id);
      RemoveInv(w, r, id);
      if id in regs[r].nodes {
        RemoveEntryReady(w, r, id);
        ghost var s := regs[r].nodes[id].stamp;
        EraseEntry(r, id);
        tracked := tracked - {(s, r)};
      }
    }

    /** `Registry::free_node_ids`: exactly the entries of dead nodes go away. It is a run
        of removals of dead entries, so no registration ends and no id changes hands. */
    method FreeNodeIds(r: RegId) returns (n: nat, ghost ops: seq<Op<N, E>>)
      requires Valid() && r < |regs|
      modifies this`mem, this`regs, this`tracked
      ensures Valid() && SameNodes(old(mem), mem)
      ensures |regs| == |old(regs)| && regs[r].nodes == LiveEntries(old(mem), old(regs)[r].nodes)
      ensures regs[r].open == old(regs)[r].open && regs[r].nextId == old(regs)[r].nextId && tracked == old(tracked)
      ensures forall q :: 0 <= q < |regs| && q != r ==> regs[q] == old(regs)[q]
      ensures n == |regs[r].nodes|
      ensures Runs(old(State()), ops, State()) && FreesDead(old(State()), ops, r) && KeepsNames(old(State()), State())
    {
      hide Inv, SameNodes, Elements, LiveEntries, Runs, KeepsNames, FreesDead, RegFreed;
      ghost var w := State();
      var dead := DeadIds(r);
      LiveEntriesAre(mem, regs[r].nodes, dead);
      SameNodesRefl(mem);
      RunsNone(w);
      FreesNone(w, r);
      RegFreedNone(w, r, dead);
      ops := [];
      for i := 0 to |dead|
        invariant Valid() && SameNodes(w.mem, mem) && tracked == w.tracked && handles == w.handles && log == w.log
        invariant RegFreed(w, State(), r, dead[..i])
        invariant Runs(w, ops, State()) && FreesDead(w, ops, r)
      {
        ghost var w1 := State();
        RegFreedAt(w, w1, r, dead, i);
        FreeOne(r, dead[i]);
        SameNodesTrans(w.mem, w1.mem, mem);
        RunsConcat(w, ops, w1, [RemoveId(r, dead[i])], State());
        FreesMore(w, ops, r, dead[i]);
        RegFreedStep(w, w1, State(), r, dead, i);
        ops := ops + [RemoveId(r, dead[i])];
      }
      assert dead[..|dead|] == dead;
      RegFreedAll(w, State(), r, dead);
      FreeKeepsNames(w, ops, State(), r);
      n := |regs[r].nodes|;
    }

    method FreeOne(r: RegId, id: NodeId)
      requires Valid() && r < |regs| && (id in regs[r].nodes ==> !Live(mem, regs[r].nodes[id].addr))
      modifies this`mem, this`regs, this`tracked
      ensures Valid() && SameNodes(old(mem), mem) && tracked == old(tracked) && Removed(old(State()), State(), r, id)
      ensures Runs(old(State()), [RemoveId(r, id)], State())
    {
      hide Inv, SameNodes, Remove, Runs;
      RemovedOnly(State(), r, id);
      RemoveNode(r, id);
    }

    /** `Registry::clone`: each entry is cloned, dead ones too, under its id. */
    method CopyRegistry(r: RegId) returns (q: RegId, ghost ops: seq<Op<N, E>>)
      requires Valid() && r < |regs| && regs[r].open
      modifies this`mem, this`regs, this`weaks
      ensures Valid() && SameNodes(old(mem), mem) && q == |old(regs)| && regs == old(regs) + [old(regs)[r]]
      ensures weaks == old(weaks)
      ensures Runs(old(State()), ops, State()) && KeepsNames(old(State()), State())
    {
      hide Inv, SameNodes, Runs, KeepsNames;
      ghost var w := State();
      EntriesPinned(w, r);
      ops := CloneWeaks(regs[r].nodes.Values);
      ghost var w1, last := State(), Rebuild(regs[r].nodes, regs[r].nextId);
      RebuildRuns(w1, r);
      q := |regs|;
      weaks := weaks - multiset(regs[r].nodes.Values);
      regs := regs + [regs[r]];
      assert weaks == w.weaks;
      RunsConcat(w, ops, w1, [last], State());
      ops := ops + [last];
      NoRemovalKeepsNames(w, ops, State());
    }

    /** The clones of some weak references. */
    method CloneWeaks(ks: set<Weak>) returns (ghost ops: seq<Op<N, E>>)
      requires Valid() && forall k :: k in ks ==> Pinned(mem, k)
      modifies this`mem, this`weaks
      ensures Valid() && SameNodes(old(mem), mem) && weaks == old(weaks) + multiset(ks)
      ensures Runs(old(State()), ops, State()) && forall op :: op in ops ==> !op.RemoveId?
    {
      hide Inv, SameNodes, Runs;
      ghost var w := State();
      SameNodesRefl(mem);
      RunsNone(w);
      ops := [];
      var todo := ks;
      while todo != {}
        invariant todo <= ks && Valid() && SameNodes(w.mem, mem) && forall k :: k in ks ==> Pinned(mem, k)
        invariant weaks == w.weaks + multiset(ks - todo)
        invariant Runs(w, ops, State()) && forall op :: op in ops ==> !op.RemoveId?
      {
        var k :| k in todo;
        ghost var w1 := State();
        CloneWeakRef(k);
        SameNodesTrans(w.mem, w1.mem, mem);
        RunsConcat(w, ops, w1, [CloneWeak(k)], State());
        ops := ops + [CloneWeak(k)];
        OneDone(ks, todo, k);
        todo := todo - {k};
      }
      assert ks - {} == ks;
    }

    /** `Rc::downgrade`. */
    method Downgrade(a: Addr) returns (k: Weak)
      requires Valid() && Live(mem, a)
      modifies this`mem, this`weaks
      ensures Valid() && k == Weak(a, old(mem[a].stamp)) && SameNodes(old(mem), mem)
      ensures weaks == old(weaks) + multiset{k}
      ensures Runs(old(State()), [Op.Downgrade(a)], State())
    {
      hide Inv, SameNodes, Runs;
      k := Weak(a, mem[a].stamp);
      AddWeakInv(State(), k);
      DowngradeRuns(State(), a);
      mem := mem[a := mem[a].(weak := mem[a].weak + 1)];
      weaks := weaks + multiset{k};
    }

    /** `Registry::new`. */
    method NewRegistry() returns (r: RegId)
      requires Valid()
      modifies this`regs
      ensures Valid() && r == |old(regs)| && regs == old(regs) + [Reg(true, map[], map[], 0)]
      ensures Runs(old(State()), [OpenRegistry], State())
    {
      hide Inv, Runs;
      OpenRuns(State());
      r := |regs|;
      regs := regs + [Reg(true, map[], map[], 0)];
    }

    /** `Weak::clone`. */
    method CloneWeakRef(k: Weak)
      requires Valid() && Pinned(mem, k)
      modifies this`mem, this`weaks
      ensures Valid() && SameNodes(old(mem), mem) && weaks == old(weaks) + multiset{k}
      ensures forall k' :: old(Pinned(mem, k')) ==> Pinned(mem, k')
      ensures Runs(old(State()), [CloneWeak(k)], State())
    {
      hide Inv, SameNodes, Runs;
      AddWeakInv(State(), k);
      CloneWeakRuns(State(), k);
      mem := mem[k.addr := mem[k.addr].(weak := mem[k.addr].weak + 1)];
      weaks := weaks + multiset{k};
    }

    method RemoveOne(r: RegId, id: NodeId)
      requires Valid() && r < |regs|
      modifies this`mem, this`regs, this`tracked
      ensures Valid() && SameNodes(old(mem), mem) && Removed(old(State()), State(), r, id)
      ensures Runs(old(State()), [RemoveId(r, id)], State())
    {
      hide Inv, SameNodes, Remove, Runs;
      RemovedEntry(State(), r, id);
      RemoveNode(r, id);
    }

    /** The drop of a registry: its entries go, and it is gone. */
    method DropRegistry(r: RegId) returns (ghost ops: seq<Op<N, E>>)
      requires Valid() && r < |regs| && regs[r].open
      modifies this`mem, this`regs, this`tracked
      ensures Valid() && SameNodes(old(mem), mem) && |regs| == |old(regs)| && !regs[r].open && regs[r].nodes == map[]
      ensures forall q :: 0 <= q < |regs| && q != r ==> regs[q] == old(regs)[q]
      ensures Runs(old(State()), ops, State())
    {
      hide Inv, SameNodes, Runs;
      ghost var w := State();
      SameNodesRefl(mem);
      RunsNone(w);
      ops := [];
      while regs[r].nodes != map[]
        invariant Valid() && SameNodes(w.mem, mem) && |regs| == |w.regs|
        invariant forall q :: 0 <= q < |regs| && q != r ==> regs[q] == w.regs[q]
        invariant Runs(w, ops, State())
        decreases |regs[r].nodes|
      {
        var id :| id in regs[r].nodes;
        ghost var w1 := State();
        FewerEntries(regs[r].nodes, id);
        RemoveOne(r, id);
        SameNodesTrans(w.mem, w1.mem, mem);
        RunsConcat(w, ops, w1, [RemoveId(r, id)], State());
        ops := ops + [RemoveId(r, id)];
      }
      ghost var w1 := State();
      CloseRuns(w1, r);
      regs := regs[r := regs[r].(open := false)];
      RunsConcat(w, ops, w1, [CloseEmpty(r)], State());
      ops := ops + [CloseEmpty(r)];
    }

    method DeadIds(r: RegId) returns (dead: seq<NodeId>)
      requires Valid() && r < |regs|
      ensures forall id :: id in dead <==> id in regs[r].nodes && !Live(mem, regs[r].nodes[id].addr)
    {
      hide Inv;
      dead := [];
      var ids := regs[r].nodes.Keys;
      while ids != {}
        invariant ids <= regs[r].nodes.Keys
        invariant forall id :: id in dead <==> id in regs[r].nodes.Keys - ids && !Live(mem, regs[r].nodes[id].addr)
      {
        var id :| id in ids;
        EntryAlive(State(), r, id);
        if mem[regs[r].nodes[id].addr].strong == 0 {
          dead := dead + [id];
        }
        ids := ids - {id};
      }
    }
  }

  ghost function LiveEntries<N, E>(mem: Memory<N, E>, nodes: map<NodeId, Weak>): map<NodeId, Weak> {
    map id | id in nodes && Live(mem, nodes[id].addr) :: nodes[id]
  }

  lemma LiveEntriesAre<N, E>(mem: Memory<N, E>, nodes: map<NodeId, Weak>, dead: seq<NodeId>)
    requires forall id :: id in dead <==> id in nodes && !Live(mem, nodes[id].addr)
    ensures LiveEntries(mem, nodes) == nodes - Elements(dead)
  {
  }

  /** `id` is gone from registry `r`, and nothing else about registries has changed. */
  ghost predicate Removed<N, E>(w: World<N, E>, w': World<N, E>, r: RegId, id: NodeId)
    requires r < |w.regs|
  {
    && |w'.regs| == |w.regs| && w'.regs[r].nodes == w.regs[r].nodes - {id}
    && w'.regs[r].open == w.regs[r].open && w'.regs[r].nextId == w.regs[r].nextId
    && forall q :: 0 <= q < |w.regs| && q != r ==> w'.regs[q] == w.regs[q]
  }

  /** The ids in `gone` are gone from registry `r`. */
  ghost predicate RegFreed<N, E>(w: World<N, E>, w': World<N, E>, r: RegId, gone: seq<NodeId>)
    requires r < |w.regs|
  {
    && |w'.regs| == |w.regs| && w'.regs[r].nodes == w.regs[r].nodes - Elements(gone)
    && w'.regs[r].open == w.regs[r].open && w'.regs[r].nextId == w.regs[r].nextId
    && forall q :: 0 <= q < |w.regs| && q != r ==> w'.regs[q] == w.regs[q]
  }

  lemma RegFreedNone<N, E>(w: World<N, E>, r: RegId, dead: seq<NodeId>)
    requires r < |w.regs|
    ensures RegFreed(w, w, r, dead[..0])
  {
    assert Elements(dead[..0]) == {};
  }

  lemma RegFreedStep<N, E>(w: World<N, E>, w1: World<N, E>, w2: World<N, E>, r: RegId, dead: seq<NodeId>, i: nat)
    requires r < |w.regs| && i < |dead| && RegFreed(w, w1, r, dead[..i]) && Removed(w1, w2, r, dead[i])
    ensures RegFreed(w, w2, r, dead[..i + 1])
  {
    assert dead[..i + 1] == dead[..i] + [dead[i]];
    assert Elements(dead[..i + 1]) == Elements(dead[..i]) + {dead[i]};
    assert w.regs[r].nodes - Elements(dead[..i]) - {dead[i]} == w.regs[r].nodes - Elements(dead[..i + 1]);
  }

  lemma RegFreedAt<N, E>(w: World<N, E>, w1: World<N, E>, r: RegId, dead: seq<NodeId>, i: nat)
    requires r < |w.regs| && i < |dead| && RegFreed(w, w1, r, dead[..i]) && SameNodes(w.mem, w1.mem)
    requires forall id :: id in dead <==> id in w.regs[r].nodes && !Live(w.mem, w.regs[r].nodes[id].addr)
    ensures r < |w1.regs| && (dead[i] in w1.regs[r].nodes ==> !Live(w1.mem, w1.regs[r].nodes[dead[i]].addr))
    ensures dead[i] in w.regs[r].nodes && !Live(w.mem, w.regs[r].nodes[dead[i]].addr)
  {
    assert dead[i] in dead;
  }

  lemma RegFreedAll<N, E>(w: World<N, E>, w': World<N, E>, r: RegId, gone: seq<NodeId>)
    requires r < |w.regs| && RegFreed(w, w', r, gone)
    ensures |w'.regs| == |w.regs| && w'.regs[r].nodes == w.regs[r].nodes - Elements(gone)
    ensures w'.regs[r].open == w.regs[r].open && w'.regs[r].nextId == w.regs[r].nextId
    ensures forall q :: 0 <= q < |w.regs| && q != r ==> w'.regs[q] == w.regs[q]
  {
  }

  lemma FreesNone<N, E>(w: World<N, E>, r: RegId)
    requires r < |w.regs|
    ensures FreesDead(w, [], r)
  {
  }

  lemma FreesMore<N, E>(w: World<N, E>, ops: seq<Op<N, E>>, r: RegId, id: NodeId)
    requires r < |w.regs| && FreesDead(w, ops, r) && id in w.regs[r].nodes && !Live(w.mem, w.regs[r].nodes[id].addr)
    ensures FreesDead(w, ops + [RemoveId(r, id)], r)
  {
  }


  lemma EntryAlive<N, E>(w: World<N, E>, r: RegId, id: NodeId)
    requires Inv(w) && r < |w.regs| && id in w.regs[r].nodes
    ensures Pinned(w.mem, w.regs[r].nodes[id])
    ensures Live(w.mem, w.regs[r].nodes[id].addr) <==> w.mem[w.regs[r].nodes[id].addr].strong > 0
  {
    hide Inv;
    InvHasCounts(w);
    EntryPinned(w, r, id);
    LiveIsStrong(w, w.regs[r].nodes[id].addr);
  }

  lemma RemovedEntry<N, E>(w: World<N, E>, r: RegId, id: NodeId)
    requires Inv(w) && r < |w.regs|
    ensures Core(w)
    ensures var w' := Remove(w, r, id); Inv(w') && SameNodes(w.mem, w'.mem) && Removed(w, w', r, id)
  {
    hide Core, OutOk, TrackedOk, Remove, SameNodes, LiveStamp, Registered;
    RemoveInv(w, r, id);
    if id in w.regs[r].nodes { RemoveCore(w, r, id); } else { RemoveAbsent(w, r, id); }
  }

  /** Removing an entry of a dead node ends no registration. */
  lemma RemovedOnly<N, E>(w: World<N, E>, r: RegId, id: NodeId)
    requires Inv(w) && r < |w.regs| && (id in w.regs[r].nodes ==> !Live(w.mem, w.regs[r].nodes[id].addr))
    ensures Core(w)
    ensures var w' := Remove(w, r, id);
      Inv(w') && SameNodes(w.mem, w'.mem) && w'.tracked == w.tracked && w'.handles == w.handles && w'.log == w.log
        && Removed(w, w', r, id)
  {
    hide Core, OutOk, TrackedOk, Remove, SameNodes, LiveStamp, Registered;
    RemoveInv(w, r, id);
    if id in w.regs[r].nodes {
      RemoveCore(w, r, id);
      DeadUntracked(w, r, id);
    } else {
      RemoveAbsent(w, r, id);
    }
  }

  lemma RemoveRuns<N, E>(w: World<N, E>, r: RegId, id: NodeId)
    requires Inv(w) && r < |w.regs|
    ensures Core(w) && Runs(w, [RemoveId(r, id)], Remove(w, r, id))
  {
    hide Core, OutOk, TrackedOk, Remove, Runs;
    RunsOne(w, RemoveId(r, id));
  }

  lemma DeadUntracked<N, E>(w: World<N, E>, r: RegId, id: NodeId)
    requires Inv(w) && r < |w.regs| && id in w.regs[r].nodes && !Live(w.mem, w.regs[r].nodes[id].addr)
    ensures (w.regs[r].nodes[id].stamp, r) !in w.tracked
  {
    hide Inv, LiveStamp;
    AliveEntry(w, r, id);
    if !w.regs[r].open { ClosedHasNone(w, r); }
    if (w.regs[r].nodes[id].stamp, r) in w.tracked { TrackedMeans(w, w.regs[r].nodes[id].stamp, r); }
  }

  lemma AddNodeCases<N, E>(w: World<N, E>, r: RegId, a: Addr)
    requires r < |w.regs| && Live(w.mem, a)
    ensures a in w.regs[r].ptrToId ==> AddNode(w, r, a) == (w, w.regs[r].ptrToId[a])
  {
  }

  lemma KeepNone<N, E>(mem: Memory<N, E>)
    ensures KeepLive(mem, []) == [] && KeepDead(mem, []) == []
  {
  }

  lemma OutEdgesAre<N, E>(w: World<N, E>, p: Addr, kept: seq<WeakEdge>, edges: seq<Edge>)
    requires Live(w.mem, p) && kept == KeepLive(w.mem, w.mem[p].inner.value.outgoing) && edges == Upgraded(kept)
    ensures edges == OutEdges(w, p)
  {
  }

  lemma PruneIs<N, E>(w: World<N, E>, p: Addr)
    requires Inv(w) && Live(w.mem, p)
    ensures Inv(Pruned(w, p)) && Owns(Pruned(w, p), OutDebris(KeepDead(w.mem, w.mem[p].inner.value.outgoing)))
    ensures Prune(w, p) == Release(Pruned(w, p), OutDebris(KeepDead(w.mem, w.mem[p].inner.value.outgoing)))
  {
    hide Inv, Owns, Release, KeepDead, Pruned;
    PrunedInv(w, p);
  }

  lemma InvCore<N, E>(w: World<N, E>)
    requires Inv(w)
    ensures Core(w) && OutOk(w)
  {
  }

  lemma UnregisterCases<N, E>(w: World<N, E>, a: Addr)
    requires Core(w) && Live(w.mem, a)
    ensures var link, w1 := w.mem[a].inner.value.link, SetLink(w, a, None);
      if link.Some? && link.value < |w.regs| && w.regs[link.value].open && a in w.regs[link.value].ptrToId then
        var r, id := link.value, w.regs[link.value].ptrToId[a];
        && id in w1.regs[r].nodes
        && Pinned(w1.mem, w1.regs[r].nodes[id]) && w1.mem[w1.regs[r].nodes[id].addr].weak > 0
        && Unregister(w, a) == RemoveEntry(w1, r, id)
      else Unregister(w, a) == w1
  {
    hide CountsOk, ShapeOk, OutSound, RegsOk, RemoveEntry, Pinned;
    var link := w.mem[a].inner.value.link;
    if link.Some? && link.value < |w.regs| && w.regs[link.value].open && a in w.regs[link.value].ptrToId {
      RemoveEntryCore(SetLink(w, a, None), link.value, w.regs[link.value].ptrToId[a], w, a);
    }
  }

  lemma OwnedNode<N, E>(w: World<N, E>, a: Addr)
    requires Inv(w) && a in w.handles
    ensures Live(w.mem, a)
  {
    hide CountsOk, ShapeOk, OutSound, OutOk, RegsOk, TrackedOk;
    OwnedLive(w, a);
  }

  lemma SplitStrong<N, E>(w: World<N, E>, a: Addr, rest: seq<Ref>)
    requires Inv(w) && Owns(w, [Strong(a)] + rest)
    ensures a in w.handles && Owns(w, [Strong(a)])
    ensures Inv(Release(w, [Strong(a)])) && Owns(Release(w, [Strong(a)]), rest)
    ensures Release(w, [Strong(a)] + rest) == Release(Release(w, [Strong(a)]), rest)
  {
    hide Inv, Release, Strongs, Looses, LiveSet;
    ReleaseConcat(w, [Strong(a)], rest);
    OneStrong(a);
  }

  lemma SplitLoose<N, E>(w: World<N, E>, k: Weak, rest: seq<Ref>)
    requires Inv(w) && Owns(w, [Loose(k)] + rest)
    ensures k in w.weaks && Owns(w, [Loose(k)])
    ensures Inv(Release(w, [Loose(k)])) && Owns(Release(w, [Loose(k)]), rest)
    ensures Release(w, [Loose(k)] + rest) == Release(Release(w, [Loose(k)]), rest)
  {
    hide Inv, Release, Strongs, Looses, LiveSet;
    ReleaseConcat(w, [Loose(k)], rest);
    OneLoose(k);
  }

  lemma ReleaseLess<N, E>(w: World<N, E>, todo: seq<Ref>)
    requires Inv(w) && Owns(w, todo)
    ensures |LiveSet(Release(w, todo).mem)| <= |LiveSet(w.mem)|
  {
    hide Inv, Release, Owns, LiveSet, Shrinks;
    ReleaseInv(w, todo);
    ShrinksLess(w, Release(w, todo));
  }

  lemma EdgeDebrisDone<E>(es: seq<InEdge<E>>, rest: seq<Ref>)
    ensures EdgeDebris(es[|es|..]) + rest == rest
  {
  }

  lemma OutDebrisDone<N, E>(w: World<N, E>, es: seq<WeakEdge>)
    requires Inv(w) && Owns(w, OutDebris(es[|es|..]))
    ensures Release(w, OutDebris(es[|es|..])) == w
  {
    hide Inv;
    assert OutDebris(es[|es|..]) == [];
  }

  lemma PinnedWeak<N, E>(w: World<N, E>, k: Weak)
    requires Inv(w) && k in AllWeak(w)
    ensures Pinned(w.mem, k)
  {
    hide AllWeak, AllStrong, ShapeOk, OutSound, OutOk, RegsOk, TrackedOk;
  }

  // ----- cloning a registry -----

  lemma CloneWeakRuns<N, E>(w: World<N, E>, k: Weak)
    requires Inv(w) && Pinned(w.mem, k)
    ensures Runs(w, [CloneWeak(k)], AddWeak(w, k)) && Inv(AddWeak(w, k))
  {
    hide Inv, Runs, AddWeak;
    RunsOne(w, CloneWeak(k));
  }

  lemma Rebuildable<N, E>(w: World<N, E>, r: RegId)
    requires Inv(w) && r < |w.regs| && w.regs[r].open
    ensures EntriesOk(w.regs[r].nodes, w.regs[r].nextId)
    ensures FromSlotmap(w.regs[r].nodes, w.regs[r].nextId) == w.regs[r]
  {
    hide CountsOk, ShapeOk, OutSound, OutOk, TrackedOk;
    assert RegOk(w.regs[r]);
    RebuiltSame(w.regs[r]);
  }

  lemma RebuildRuns<N, E>(w: World<N, E>, r: RegId)
    requires Inv(w) && r < |w.regs| && w.regs[r].open && multiset(w.regs[r].nodes.Values) <= w.weaks
    ensures var nodes := w.regs[r].nodes;
      var w' := w.(regs := w.regs + [w.regs[r]], weaks := w.weaks - multiset(nodes.Values));
      Runs(w, [Rebuild(nodes, w.regs[r].nextId)], w') && Inv(w')
  {
    hide Inv, Runs, EntriesOk, FromSlotmap;
    Rebuildable(w, r);
    RunsOne(w, Rebuild(w.regs[r].nodes, w.regs[r].nextId));
  }

  lemma EntriesPinned<N, E>(w: World<N, E>, r: RegId)
    requires Inv(w) && r < |w.regs|
    ensures forall k :: k in w.regs[r].nodes.Values ==> Pinned(w.mem, k)
  {
    hide Inv, Pinned;
    forall k | k in w.regs[r].nodes.Values ensures Pinned(w.mem, k) {
      var id :| id in w.regs[r].nodes && w.regs[r].nodes[id] == k;
      EntryAlive(w, r, id);
    }
  }

  lemma CloseRuns<N, E>(w: World<N, E>, r: RegId)
    requires Inv(w) && r < |w.regs| && w.regs[r].nodes == map[]
    ensures Runs(w, [CloseEmpty(r)], CloseRegistry(w, r)) && Inv(CloseRegistry(w, r))
  {
    hide Inv, Runs;
    RunsOne(w, CloseEmpty(r));
  }

  lemma FewerEntries(nodes: map<NodeId, Weak>, id: NodeId)
    requires id in nodes
    ensures |nodes - {id}| < |nodes|
  {
    assert (nodes - {id}).Keys == nodes.Keys - {id};
  }

  lemma OneDone<T>(all: set<T>, todo: set<T>, x: T)
    requires x in todo && todo <= all
    ensures multiset(all - (todo - {x})) == multiset(all - todo) + multiset{x}
  {
    assert all - (todo - {x}) == (all - todo) + {x};
  }
}
