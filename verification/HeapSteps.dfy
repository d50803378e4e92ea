/** The small steps out of which every operation on the heap is made: one counter
    changed, or one reference moved from one owner to another. Each keeps the core of
    the invariant, also in the middle of an operation. */
module HeapSteps {
  import opened Prelude
  import opened Dag
  import opened HeapModel

  /** Same nodes at the same addresses; only counters differ, and allocations
      without a node may be gone. */
  ghost predicate SameNodes<N, E>(m: Memory<N, E>, m': Memory<N, E>) {
    && |m| == |m'|
    && forall a: Addr :: a < |m| ==>
         && (Live(m, a) <==> Live(m', a))
         && (Live(m, a) ==> m[a].stamp == m'[a].stamp && m[a].inner == m'[a].inner)
         && (m'[a].Used? ==> m[a].Used? && m[a].stamp == m'[a].stamp)
  }

  lemma SameNodesCore<N, E>(w: World<N, E>, w': World<N, E>)
    requires ShapeOk(w) && OutSound(w) && SameNodes(w.mem, w'.mem) && w'.log == w.log
    ensures ShapeOk(w') && OutSound(w')
    ensures RegsOk(w) && w'.regs == w.regs ==> RegsOk(w')
  {
    forall a: Addr | Live(w'.mem, a) ensures NodeOk(w'.mem, w'.log, a) {
      assert NodeOk(w.mem, w.log, a);
    }
  }

  lemma SameNodesOut<N, E>(w: World<N, E>, w': World<N, E>, newest: nat, from: nat)
    requires ShapeOk(w) && ShapeOk(w') && SameNodes(w.mem, w'.mem)
    requires OutCompleteBut(w, newest, from)
    ensures OutCompleteBut(w', newest, from)
  {
    forall c: Addr, i: nat | Live(w'.mem, c) && i < |w'.mem[c].inner.value.incoming|
      && !(w'.mem[c].stamp == newest && i >= from)
      ensures WeakEdge(i, Weak(c, w'.mem[c].stamp)) in
        w'.mem[w'.mem[c].inner.value.incoming[i].source].inner.value.outgoing
    {
      assert Live(w.mem, c);
      assert NodeOk(w.mem, w.log, c);
    }
  }

  lemma SameNodesTracked<N, E>(w: World<N, E>, w': World<N, E>)
    requires TrackedOk(w) && SameNodes(w.mem, w'.mem)
    requires w'.log == w.log && w'.regs == w.regs && w'.tracked == w.tracked
    ensures TrackedOk(w')
  {
    forall t | t in w.tracked
      ensures forall a: Addr :: Live(w'.mem, a) && w'.mem[a].stamp == t.0 ==> w'.mem[a].inner.value.link == Some(t.1)
      ensures LiveStamp(w'.mem, t.0) <==> LiveStamp(w.mem, t.0)
    {
      assert forall a: Addr :: Live(w'.mem, a) <==> Live(w.mem, a);
    }
  }

  lemma SameNodesInv<N, E>(w: World<N, E>, w': World<N, E>)
    requires Inv(w) && SameNodes(w.mem, w'.mem) && CountsOk(w')
    requires w'.log == w.log && w'.regs == w.regs && w'.tracked == w.tracked
    ensures Inv(w')
  {
    SameNodesCore(w, w');
    SameNodesOut(w, w', |w.log|, 0);
    SameNodesTracked(w, w');
  }

  // ----- counters -----

  /** Replacing one slot by one with the same node keeps all the sums. */
  lemma SameRefs<N, E>(w: World<N, E>, a: Addr, s: Slot<N, E>)
    requires a < |w.mem| && StrongOut(s) == StrongOut(w.mem[a]) && WeakOut(s) == WeakOut(w.mem[a])
    ensures StrongHeld(w.mem[a := s]) == StrongHeld(w.mem)
    ensures WeakHeld(w.mem[a := s]) == WeakHeld(w.mem)
  {
    MemUpdate(w.mem, a, s);
  }

  /** `Rc::clone`, or a successful `Weak::upgrade`. */
  ghost function AddHandle<N, E>(w: World<N, E>, a: Addr): World<N, E>
    requires Live(w.mem, a)
  {
    w.(mem := w.mem[a := w.mem[a].(strong := w.mem[a].strong + 1)], handles := w.handles + multiset{a})
  }

  lemma CountedMoreStrong<N, E>(mem: Memory<N, E>, strong: multiset<Addr>, weak: multiset<Weak>, a: Addr)
    requires Counted(mem, strong, weak) && Live(mem, a)
    ensures Counted(mem[a := mem[a].(strong := mem[a].strong + 1)], strong + multiset{a}, weak)
  {
  }

  lemma AddHandleRefs<N, E>(w: World<N, E>, a: Addr)
    requires Live(w.mem, a)
    ensures AllStrong(AddHandle(w, a)) == AllStrong(w) + multiset{a}
    ensures AllWeak(AddHandle(w, a)) == AllWeak(w)
  {
    hide StrongHeld, WeakHeld, RegHeld;
    SameRefs(w, a, AddHandle(w, a).mem[a]);
  }

  lemma AddHandleCounts<N, E>(w: World<N, E>, a: Addr)
    requires CountsOk(w) && Live(w.mem, a)
    ensures CountsOk(AddHandle(w, a)) && SameNodes(w.mem, AddHandle(w, a).mem)
  {
    hide AllStrong, AllWeak;
    AddHandleRefs(w, a);
    CountedMoreStrong(w.mem, AllStrong(w), AllWeak(w), a);
  }

  /** Dropping a handle that is not the last strong reference. */
  ghost function DropShared<N, E>(w: World<N, E>, a: Addr): World<N, E>
    requires Live(w.mem, a) && w.mem[a].strong > 1 && a in w.handles
  {
    w.(mem := w.mem[a := w.mem[a].(strong := w.mem[a].strong - 1)], handles := w.handles - multiset{a})
  }

  lemma CountedLessStrong<N, E>(mem: Memory<N, E>, strong: multiset<Addr>, weak: multiset<Weak>, a: Addr)
    requires Counted(mem, strong, weak) && Live(mem, a) && mem[a].strong > 1
    ensures Counted(mem[a := mem[a].(strong := mem[a].strong - 1)], strong - multiset{a}, weak)
  {
  }

  lemma DropSharedRefs<N, E>(w: World<N, E>, a: Addr)
    requires Live(w.mem, a) && w.mem[a].strong > 1 && a in w.handles
    ensures AllStrong(DropShared(w, a)) == AllStrong(w) - multiset{a}
    ensures AllWeak(DropShared(w, a)) == AllWeak(w)
  {
    hide StrongHeld, WeakHeld, RegHeld;
    SameRefs(w, a, DropShared(w, a).mem[a]);
  }

  lemma DropSharedCounts<N, E>(w: World<N, E>, a: Addr)
    requires CountsOk(w) && Live(w.mem, a) && w.mem[a].strong > 1 && a in w.handles
    ensures CountsOk(DropShared(w, a)) && SameNodes(w.mem, DropShared(w, a).mem)
  {
    hide AllStrong, AllWeak;
    DropSharedRefs(w, a);
    CountedLessStrong(w.mem, AllStrong(w), AllWeak(w), a);
  }

  /** `Rc::downgrade` or `Weak::clone`. */
  ghost function AddWeak<N, E>(w: World<N, E>, k: Weak): World<N, E>
    requires Pinned(w.mem, k)
  {
    w.(mem := w.mem[k.addr := w.mem[k.addr].(weak := w.mem[k.addr].weak + 1)], weaks := w.weaks + multiset{k})
  }

  lemma CountedMoreWeak<N, E>(mem: Memory<N, E>, strong: multiset<Addr>, weak: multiset<Weak>, k: Weak)
    requires Counted(mem, strong, weak) && Pinned(mem, k)
    ensures Counted(mem[k.addr := mem[k.addr].(weak := mem[k.addr].weak + 1)], strong, weak + multiset{k})
  {
  }

  lemma AddWeakRefs<N, E>(w: World<N, E>, k: Weak)
    requires Pinned(w.mem, k)
    ensures AllStrong(AddWeak(w, k)) == AllStrong(w)
    ensures AllWeak(AddWeak(w, k)) == AllWeak(w) + multiset{k}
  {
    hide StrongHeld, WeakHeld, RegHeld;
    SameRefs(w, k.addr, AddWeak(w, k).mem[k.addr]);
  }

  lemma AddWeakCounts<N, E>(w: World<N, E>, k: Weak)
    requires CountsOk(w) && Pinned(w.mem, k)
    ensures CountsOk(AddWeak(w, k)) && SameNodes(w.mem, AddWeak(w, k).mem)
  {
    hide AllStrong, AllWeak;
    AddWeakRefs(w, k);
    CountedMoreWeak(w.mem, AllStrong(w), AllWeak(w), k);
  }

  /** The slot after one weak reference is gone; the address becomes free when it was
      the last reference of any kind. */
  ghost function LessWeak<N, E>(s: Slot<N, E>): Slot<N, E>
    requires s.Used? && s.weak > 0
  {
    if s.strong == 0 && s.weak == 1 then Free else s.(weak := s.weak - 1)
  }

  /** Dropping a weak reference. */
  ghost function DropWeak<N, E>(w: World<N, E>, k: Weak): World<N, E>
    requires k in w.weaks && Pinned(w.mem, k) && w.mem[k.addr].weak > 0
  {
    w.(mem := w.mem[k.addr := LessWeak(w.mem[k.addr])], weaks := w.weaks - multiset{k})
  }

  lemma WeakIsPinned<N, E>(mem: Memory<N, E>, strong: multiset<Addr>, weak: multiset<Weak>, k: Weak)
    requires Counted(mem, strong, weak) && k in weak
    ensures Pinned(mem, k) && mem[k.addr].weak > 0
    ensures mem[k.addr].strong == 0 <==> mem[k.addr].inner.None?
  {
    assert SlotCounted(mem[k.addr], k.addr, strong, weak);
  }

  lemma CountedLessWeak<N, E>(mem: Memory<N, E>, strong: multiset<Addr>, weak: multiset<Weak>, k: Weak)
    requires Counted(mem, strong, weak) && k in weak
    ensures Pinned(mem, k) && mem[k.addr].weak > 0
    ensures Counted(mem[k.addr := LessWeak(mem[k.addr])], strong, weak - multiset{k})
  {
    WeakIsPinned(mem, strong, weak, k);
    var mem', weak' := mem[k.addr := LessWeak(mem[k.addr])], weak - multiset{k};
    assert SlotCounted(mem[k.addr], k.addr, strong, weak);
    forall j | j in weak' ensures Pinned(mem', j) {
      assert Pinned(mem, j);
      if j.addr == k.addr { assert j == k; }
    }
    forall b | 0 <= b < |mem'| ensures SlotCounted(mem'[b], b, strong, weak') {
      assert SlotCounted(mem[b], b, strong, weak);
    }
  }

  lemma HandleIsStrong<N, E>(w: World<N, E>, a: Addr)
    requires a in w.handles
    ensures a in AllStrong(w)
  {
  }

  lemma LooseIsWeak<N, E>(w: World<N, E>, k: Weak)
    requires k in w.weaks
    ensures k in AllWeak(w)
  {
  }

  lemma DropWeakRefs<N, E>(w: World<N, E>, k: Weak)
    requires k in w.weaks && Pinned(w.mem, k) && w.mem[k.addr].weak > 0
    requires w.mem[k.addr].strong == 0 <==> w.mem[k.addr].inner.None?
    ensures AllStrong(DropWeak(w, k)) == AllStrong(w)
    ensures AllWeak(DropWeak(w, k)) == AllWeak(w) - multiset{k}
  {
    hide StrongHeld, WeakHeld, RegHeld;
    SameRefs(w, k.addr, DropWeak(w, k).mem[k.addr]);
  }

  lemma DropWeakCounts<N, E>(w: World<N, E>, k: Weak)
    requires CountsOk(w) && k in w.weaks
    ensures Pinned(w.mem, k) && w.mem[k.addr].weak > 0
    ensures CountsOk(DropWeak(w, k)) && SameNodes(w.mem, DropWeak(w, k).mem)
  {
    hide AllStrong, AllWeak, Counted;
    LooseIsWeak(w, k);
    WeakIsPinned(w.mem, AllStrong(w), AllWeak(w), k);
    DropWeakRefs(w, k);
    CountedLessWeak(w.mem, AllStrong(w), AllWeak(w), k);
  }

  // ----- the end of a node -----

  /** The last strong reference to `a` goes away: the node is taken apart. Its own
      references become loose ones, to be dropped next. */
  ghost function Kill<N, E>(w: World<N, E>, a: Addr): World<N, E>
    requires Live(w.mem, a)
  {
    var s := w.mem[a];
    w.(mem := w.mem[a := if s.weak == 0 then Free else Used(s.stamp, 0, s.weak, None)],
       handles := w.handles - multiset{a} + StrongOut(s),
       weaks := w.weaks + WeakOut(s))
  }

  lemma KillRefs<N, E>(w: World<N, E>, a: Addr)
    requires Live(w.mem, a) && a in w.handles
    ensures AllStrong(Kill(w, a)) == AllStrong(w) - multiset{a}
    ensures AllWeak(Kill(w, a)) == AllWeak(w)
  {
    hide StrongHeld, WeakHeld, RegHeld;
    MemUpdate(w.mem, a, Kill(w, a).mem[a]);
  }

  lemma CountedKill<N, E>(mem: Memory<N, E>, strong: multiset<Addr>, weak: multiset<Weak>, a: Addr)
    requires Counted(mem, strong, weak) && Live(mem, a) && mem[a].strong == 1
    ensures var s := if mem[a].weak == 0 then Free else Used(mem[a].stamp, 0, mem[a].weak, None);
      Counted(mem[a := s], strong - multiset{a}, weak)
  {
    assert SlotCounted(mem[a], a, strong, weak);
  }

  lemma KillCounts<N, E>(w: World<N, E>, a: Addr)
    requires CountsOk(w) && Live(w.mem, a) && a in w.handles && w.mem[a].strong == 1
    ensures CountsOk(Kill(w, a))
  {
    hide AllStrong, AllWeak;
    KillRefs(w, a);
    CountedKill(w.mem, AllStrong(w), AllWeak(w), a);
  }

  lemma SourcesLive<N, E>(w: World<N, E>, c: Addr)
    requires CountsOk(w) && Live(w.mem, c)
    ensures forall k :: 0 <= k < |w.mem[c].inner.value.incoming| ==>
      Live(w.mem, w.mem[c].inner.value.incoming[k].source)
  {
    hide AllStrong, AllWeak;
    HeldByNode(w, c);
  }

  lemma KillNodeOk<N, E>(mem: Memory<N, E>, mem': Memory<N, E>, log: Arena<N, E>, a: Addr, c: Addr)
    requires |mem| == |mem'| && (forall b :: 0 <= b < |mem| && b != a ==> mem'[b] == mem[b])
    requires Live(mem, c) && c != a && NodeOk(mem, log, c)
    requires forall k :: 0 <= k < |mem[c].inner.value.incoming| ==> mem[c].inner.value.incoming[k].source != a
    ensures NodeOk(mem', log, c)
  {
  }

  lemma KillShape<N, E>(w: World<N, E>, a: Addr)
    requires ShapeOk(w) && OutSound(w) && RegsOk(w) && Live(w.mem, a) && CountsOk(Kill(w, a))
    ensures ShapeOk(Kill(w, a)) && OutSound(Kill(w, a)) && RegsOk(Kill(w, a))
  {
    hide CountsOk, NodeOk;
    var w' := Kill(w, a);
    forall c: Addr | Live(w'.mem, c) ensures NodeOk(w'.mem, w'.log, c) {
      SourcesLive(w', c);
      KillNodeOk(w.mem, w'.mem, w.log, a, c);
    }
  }

  lemma KillOut<N, E>(w: World<N, E>, a: Addr)
    requires Core(w) && OutOk(w) && Live(w.mem, a) && a in w.handles && w.mem[a].strong == 1
    ensures Core(Kill(w, a)) && OutOk(Kill(w, a))
  {
    hide AllStrong, AllWeak;
    var w' := Kill(w, a);
    KillCounts(w, a);
    KillShape(w, a);
    forall c: Addr, i: nat | Live(w'.mem, c) && i < |w'.mem[c].inner.value.incoming|
      ensures WeakEdge(i, Weak(c, w'.mem[c].stamp)) in
        w'.mem[w'.mem[c].inner.value.incoming[i].source].inner.value.outgoing
    {
      assert w'.mem[c].stamp != |w.log|;
      assert NodeOk(w'.mem, w'.log, c);
      assert Live(w'.mem, w'.mem[c].inner.value.incoming[i].source);
    }
  }

  // ----- registry entries and links -----

  ghost function WithReg<N, E>(w: World<N, E>, r: RegId, reg: Reg): World<N, E>
    requires r < |w.regs|
  {
    w.(regs := w.regs[r := reg])
  }

  /** Removing an entry from both maps; its weak reference is now loose. */
  ghost function TakeEntry<N, E>(w: World<N, E>, r: RegId, id: NodeId): World<N, E>
    requires r < |w.regs| && id in w.regs[r].nodes
  {
    var reg := w.regs[r];
    WithReg(w, r, reg.(nodes := reg.nodes - {id}, ptrToId := reg.ptrToId - {reg.nodes[id].addr}))
      .(weaks := w.weaks + multiset{reg.nodes[id]})
  }

  lemma LessValues(nodes: map<NodeId, Weak>, ptrToId: map<Addr, NodeId>, id: NodeId)
    requires Inverse(nodes, ptrToId) && id in nodes
    ensures nodes[id] in nodes.Values && (nodes - {id}).Values == nodes.Values - {nodes[id]}
    ensures Inverse(nodes - {id}, ptrToId - {nodes[id].addr})
  {
    var less, k := nodes - {id}, nodes[id];
    forall v | v in nodes.Values - {k} ensures v in less.Values {
      var j :| j in nodes && nodes[j] == v;
      assert j in less && less[j] == v;
    }
    forall v | v in less.Values ensures v in nodes.Values - {k} {
      var j :| j in less && less[j] == v;
      assert j in nodes && nodes[j] == v && ptrToId[v.addr] == j;
    }
  }

  lemma TakeEntryRefs<N, E>(w: World<N, E>, r: RegId, id: NodeId)
    requires r < |w.regs| && id in w.regs[r].nodes && RegOk(w.regs[r])
    ensures AllStrong(TakeEntry(w, r, id)) == AllStrong(w)
    ensures AllWeak(TakeEntry(w, r, id)) == AllWeak(w)
  {
    hide StrongHeld, WeakHeld, RegHeld;
    var reg := w.regs[r];
    LessValues(reg.nodes, reg.ptrToId, id);
    RegUpdate(w.regs, r, TakeEntry(w, r, id).regs[r]);
  }

  lemma TakeEntryCore<N, E>(w: World<N, E>, r: RegId, id: NodeId)
    requires Core(w) && r < |w.regs| && id in w.regs[r].nodes
    ensures Core(TakeEntry(w, r, id))
    ensures OutOk(w) ==> OutOk(TakeEntry(w, r, id))
  {
    hide AllStrong, AllWeak;
    var w' := TakeEntry(w, r, id);
    TakeEntryRefs(w, r, id);
    LessValues(w.regs[r].nodes, w.regs[r].ptrToId, id);
    SameNodesCore(w, w');
    if OutOk(w) { SameNodesOut(w, w', |w.log|, 0); }
  }

  /** Adding an entry under a new key, made from a loose weak reference. */
  ghost function PutEntry<N, E>(w: World<N, E>, r: RegId, k: Weak): World<N, E>
    requires r < |w.regs|
  {
    var reg := w.regs[r];
    WithReg(w, r, reg.(
      nodes := reg.nodes[reg.nextId := k],
      ptrToId := reg.ptrToId[k.addr := reg.nextId],
      nextId := reg.nextId + 1))
      .(weaks := w.weaks - multiset{k})
  }

  lemma MoreValues(nodes: map<NodeId, Weak>, ptrToId: map<Addr, NodeId>, id: NodeId, k: Weak)
    requires Inverse(nodes, ptrToId) && id !in nodes && k.addr !in ptrToId
    ensures k !in nodes.Values && nodes[id := k].Values == nodes.Values + {k}
    ensures Inverse(nodes[id := k], ptrToId[k.addr := id])
  {
    var more := nodes[id := k];
    assert more[id] == k;
    forall v | v in nodes.Values ensures v in more.Values {
      var j :| j in nodes && nodes[j] == v;
      assert j in more && more[j] == v;
    }
  }

  lemma PutEntryRefs<N, E>(w: World<N, E>, r: RegId, k: Weak)
    requires r < |w.regs| && RegOk(w.regs[r]) && k in w.weaks && k.addr !in w.regs[r].ptrToId
    ensures AllStrong(PutEntry(w, r, k)) == AllStrong(w)
    ensures AllWeak(PutEntry(w, r, k)) == AllWeak(w)
  {
    hide StrongHeld, WeakHeld, RegHeld;
    var reg := w.regs[r];
    MoreValues(reg.nodes, reg.ptrToId, reg.nextId, k);
    RegUpdate(w.regs, r, PutEntry(w, r, k).regs[r]);
  }

  lemma PutEntryCore<N, E>(w: World<N, E>, r: RegId, k: Weak)
    requires Core(w) && r < |w.regs| && w.regs[r].open && k in w.weaks && k.addr !in w.regs[r].ptrToId
    ensures Core(PutEntry(w, r, k))
    ensures OutOk(w) ==> OutOk(PutEntry(w, r, k))
  {
    hide AllStrong, AllWeak;
    var w' := PutEntry(w, r, k);
    PutEntryRefs(w, r, k);
    MoreValues(w.regs[r].nodes, w.regs[r].ptrToId, w.regs[r].nextId, k);
    SameNodesCore(w, w');
    if OutOk(w) { SameNodesOut(w, w', |w.log|, 0); }
  }

  ghost function SetLink<N, E>(w: World<N, E>, a: Addr, link: Option<RegId>): World<N, E>
    requires Live(w.mem, a)
  {
    w.(mem := w.mem[a := w.mem[a].(inner := Some(w.mem[a].inner.value.(link := link)))])
  }

  lemma SetLinkRefs<N, E>(w: World<N, E>, a: Addr, link: Option<RegId>)
    requires Live(w.mem, a)
    ensures AllStrong(SetLink(w, a, link)) == AllStrong(w)
    ensures AllWeak(SetLink(w, a, link)) == AllWeak(w)
  {
    hide StrongHeld, WeakHeld, RegHeld;
    SameRefs(w, a, SetLink(w, a, link).mem[a]);
  }

  lemma SetLinkCounts<N, E>(w: World<N, E>, a: Addr, link: Option<RegId>)
    requires CountsOk(w) && Live(w.mem, a)
    ensures CountsOk(SetLink(w, a, link))
  {
    hide AllStrong, AllWeak;
    SetLinkRefs(w, a, link);
    var w' := SetLink(w, a, link);
    forall b | 0 <= b < |w'.mem| ensures SlotCounted(w'.mem[b], b, AllStrong(w'), AllWeak(w')) {
      assert SlotCounted(w.mem[b], b, AllStrong(w), AllWeak(w));
    }
  }

  lemma SetLinkCore<N, E>(w: World<N, E>, a: Addr, link: Option<RegId>)
    requires Core(w) && Live(w.mem, a) && (link.Some? ==> link.value < |w.regs|)
    ensures Core(SetLink(w, a, link))
  {
    hide CountsOk, ShapeOk, OutSound, RegsOk, SetLink;
    SetLinkCounts(w, a, link);
    SetLinkNodes(w, a, link);
    SetLinkShape(w, a, link);
    SetLinkRest(w, a, link);
  }

  /** The nodes after a change of one link: only that link differs. */
  lemma SetLinkNodes<N, E>(w: World<N, E>, a: Addr, link: Option<RegId>)
    requires Live(w.mem, a)
    ensures var w' := SetLink(w, a, link);
      && |w'.mem| == |w.mem| && w' == w.(mem := w'.mem)
      && (forall c: Addr :: Live(w'.mem, c) <==> Live(w.mem, c))
      && (forall c: Addr :: c < |w.mem| && w.mem[c].Used? ==> w'.mem[c].Used? && w'.mem[c].stamp == w.mem[c].stamp)
      && (forall c: Addr :: c < |w.mem| && w'.mem[c].Used? ==> w.mem[c].Used?)
      && (forall c: Addr :: Live(w.mem, c) ==>
            w'.mem[c].inner.value == w.mem[c].inner.value.(link := w'.mem[c].inner.value.link))
      && (forall c: Addr :: Live(w.mem, c) && c != a ==> w'.mem[c].inner.value.link == w.mem[c].inner.value.link)
      && w'.mem[a].inner.value.link == link
  {
  }

  lemma SetLinkShape<N, E>(w: World<N, E>, a: Addr, link: Option<RegId>)
    requires ShapeOk(w) && Live(w.mem, a)
    ensures ShapeOk(SetLink(w, a, link))
  {
    hide SetLink;
    SetLinkNodes(w, a, link);
    var w' := SetLink(w, a, link);
    forall c: Addr | Live(w'.mem, c) ensures NodeOk(w'.mem, w'.log, c) {
      assert NodeOk(w.mem, w.log, c);
    }
  }

  lemma SetLinkRest<N, E>(w: World<N, E>, a: Addr, link: Option<RegId>)
    requires OutSound(w) && RegsOk(w) && Live(w.mem, a) && (link.Some? ==> link.value < |w.regs|)
    ensures OutSound(SetLink(w, a, link)) && RegsOk(SetLink(w, a, link))
  {
    hide SetLink, RegOk, TrueEdge, Ordered;
    SetLinkNodes(w, a, link);
  }

  lemma SetLinkOut<N, E>(w: World<N, E>, a: Addr, link: Option<RegId>)
    requires Core(w) && OutOk(w) && Live(w.mem, a) && (link.Some? ==> link.value < |w.regs|)
    ensures Core(SetLink(w, a, link)) && OutOk(SetLink(w, a, link))
  {
    hide AllStrong, AllWeak;
    var w' := SetLink(w, a, link);
    SetLinkCore(w, a, link);
    forall c: Addr, i: nat | Live(w'.mem, c) && i < |w'.mem[c].inner.value.incoming|
      ensures WeakEdge(i, Weak(c, w'.mem[c].stamp)) in
        w'.mem[w'.mem[c].inner.value.incoming[i].source].inner.value.outgoing
    {
      assert Live(w.mem, c) && w.mem[c].stamp != |w.log|;
      assert NodeOk(w.mem, w.log, c);
    }
  }

  // ----- creating a node -----

  ghost function Addrs<E>(parents: seq<(Addr, E)>): (r: seq<Addr>)
    ensures |r| == |parents| && forall k :: 0 <= k < |r| ==> r[k] == parents[k].0
  {
    seq(|parents|, k requires 0 <= k < |parents| => parents[k].0)
  }

  ghost function EdgesFrom<E>(parents: seq<(Addr, E)>, target: Weak): (r: seq<InEdge<E>>)
    ensures |r| == |parents|
    ensures forall k :: 0 <= k < |r| ==> r[k] == InEdge(parents[k].1, parents[k].0, target)
  {
    seq(|parents|, k requires 0 <= k < |parents| => InEdge(parents[k].1, parents[k].0, target))
  }

  ghost predicate AllLive<N, E>(mem: Memory<N, E>, parents: seq<(Addr, E)>) {
    forall k {:trigger parents[k]} :: 0 <= k < |parents| ==> Live(mem, parents[k].0)
  }

  ghost function Recorded<N, E>(mem: Memory<N, E>, value: N, parents: seq<(Addr, E)>): (n: Node<N, E>)
    requires AllLive(mem, parents)
    ensures n.value == value && |n.incoming| == |parents|
    ensures forall k :: 0 <= k < |parents| ==> n.incoming[k] == (mem[parents[k].0].stamp, parents[k].1)
  {
    Node(value, seq(|parents|, k requires 0 <= k < |parents| => (mem[parents[k].0].stamp, parents[k].1)))
  }

  /** `Rc::new_cyclic` with the incoming edges: the parents' handles move into the new
      node, each edge gets its own weak reference to it, one handle is returned. */
  ghost function Alloc<N, E>(w: World<N, E>, at: Addr, value: N, parents: seq<(Addr, E)>): World<N, E>
    requires at < |w.mem|
    requires AllLive(w.mem, parents)
  {
    var s := |w.log|;
    w.(mem := w.mem[at := Used(s, 1, |parents|, Some(Inner(value, EdgesFrom(parents, Weak(at, s)), [], None)))],
       log := w.log + [Recorded(w.mem, value, parents)],
       handles := w.handles - multiset(Addrs(parents)) + multiset{at})
  }

  lemma {:induction false} RepeatCount<T>(s: seq<T>, x: T)
    requires forall i :: 0 <= i < |s| ==> s[i] == x
    ensures multiset(s)[x] == |s| && forall y :: y in multiset(s) ==> y == x
  {
    if s != [] {
      var t := s[..|s| - 1];
      RepeatCount(t, x);
      assert s == t + [x];
    }
  }

  lemma AllocRefs<N, E>(w: World<N, E>, at: Addr, value: N, parents: seq<(Addr, E)>)
    requires at < |w.mem| && w.mem[at].Free? && multiset(Addrs(parents)) <= w.handles
    requires AllLive(w.mem, parents)
    ensures AllStrong(Alloc(w, at, value, parents)) == AllStrong(w) + multiset{at}
    ensures AllWeak(Alloc(w, at, value, parents)) ==
      AllWeak(w) + multiset(Targets(EdgesFrom(parents, Weak(at, |w.log|))))
  {
    hide StrongHeld, WeakHeld, RegHeld;
    var w' := Alloc(w, at, value, parents);
    assert Sources(EdgesFrom(parents, Weak(at, |w.log|))) == Addrs(parents);
    assert OutTargets([]) == [];
    MemUpdate(w.mem, at, w'.mem[at]);
  }

  lemma CountedAlloc<N, E>(mem: Memory<N, E>, strong: multiset<Addr>, weak: multiset<Weak>, at: Addr, s: Slot<N, E>,
                           self: multiset<Weak>)
    requires Counted(mem, strong, weak) && at < |mem| && mem[at].Free?
    requires s.Used? && s.strong == 1 && s.inner.Some?
    requires s.weak == self[Weak(at, s.stamp)] && forall k :: k in self ==> k == Weak(at, s.stamp)
    ensures Counted(mem[at := s], strong + multiset{at}, weak + self)
  {
    assert at !in strong && Weak(at, s.stamp) !in weak;
    var mem' := mem[at := s];
    forall b | 0 <= b < |mem'| ensures SlotCounted(mem'[b], b, strong + multiset{at}, weak + self) {
      assert SlotCounted(mem[b], b, strong, weak);
    }
  }

  lemma AllocCounts<N, E>(w: World<N, E>, at: Addr, value: N, parents: seq<(Addr, E)>)
    requires CountsOk(w) && at < |w.mem| && w.mem[at].Free? && multiset(Addrs(parents)) <= w.handles
    requires AllLive(w.mem, parents)
    ensures CountsOk(Alloc(w, at, value, parents))
  {
    hide AllStrong, AllWeak, Counted;
    var w' := Alloc(w, at, value, parents);
    var self := Targets(EdgesFrom(parents, Weak(at, |w.log|)));
    RepeatCount(self, Weak(at, |w.log|));
    AllocRefs(w, at, value, parents);
    CountedAlloc(w.mem, AllStrong(w), AllWeak(w), at, w'.mem[at], multiset(self));
  }

  lemma AllocNodeOk<N, E>(w: World<N, E>, at: Addr, value: N, parents: seq<(Addr, E)>, c: Addr)
    requires ShapeOk(w) && at < |w.mem| && w.mem[at].Free?
    requires AllLive(w.mem, parents)
    requires Live(Alloc(w, at, value, parents).mem, c)
    ensures NodeOk(Alloc(w, at, value, parents).mem, Alloc(w, at, value, parents).log, c)
  {
    if c != at { assert NodeOk(w.mem, w.log, c); }
  }

  lemma AllocShape<N, E>(w: World<N, E>, at: Addr, value: N, parents: seq<(Addr, E)>)
    requires ShapeOk(w) && OutSound(w) && RegsOk(w) && at < |w.mem| && w.mem[at].Free?
    requires AllLive(w.mem, parents)
    ensures ShapeOk(Alloc(w, at, value, parents)) && OutSound(Alloc(w, at, value, parents))
    ensures RegsOk(Alloc(w, at, value, parents))
  {
    var w' := Alloc(w, at, value, parents);
    hide NodeOk;
    forall c: Addr | Live(w'.mem, c) ensures NodeOk(w'.mem, w'.log, c) {
      AllocNodeOk(w, at, value, parents, c);
    }
    forall i | 0 <= i < |w'.log| ensures ParentsBefore(w'.log[i], i) {
      if i < |w.log| { assert ParentsBefore(w.log[i], i); }
    }
    forall p: Addr | Live(w'.mem, p)
      ensures Ordered(w'.mem[p].inner.value.outgoing)
      ensures forall e :: e in w'.mem[p].inner.value.outgoing ==> TrueEdge(w'.log, w'.mem[p].stamp, e)
    {
      if p != at { assert Live(w.mem, p); }
    }
  }

  lemma AllocOut<N, E>(w: World<N, E>, at: Addr, value: N, parents: seq<(Addr, E)>)
    requires ShapeOk(w) && OutOk(w) && at < |w.mem| && w.mem[at].Free?
    requires AllLive(w.mem, parents)
    requires ShapeOk(Alloc(w, at, value, parents))
    ensures OutCompleteBut(Alloc(w, at, value, parents), |w.log|, 0)
  {
    var w' := Alloc(w, at, value, parents);
    forall c: Addr, i: nat | Live(w'.mem, c) && i < |w'.mem[c].inner.value.incoming| && !(w'.mem[c].stamp == |w.log|)
      ensures WeakEdge(i, Weak(c, w'.mem[c].stamp)) in
        w'.mem[w'.mem[c].inner.value.incoming[i].source].inner.value.outgoing
    {
      assert Live(w.mem, c) && c != at;
      assert NodeOk(w.mem, w.log, c);
    }
  }

  lemma AllocTracked<N, E>(w: World<N, E>, at: Addr, value: N, parents: seq<(Addr, E)>)
    requires TrackedOk(w) && at < |w.mem| && w.mem[at].Free?
    requires AllLive(w.mem, parents)
    ensures TrackedOk(Alloc(w, at, value, parents))
  {
    var w' := Alloc(w, at, value, parents);
    forall t | t in w.tracked
      ensures forall a: Addr :: Live(w'.mem, a) && w'.mem[a].stamp == t.0 ==> w'.mem[a].inner.value.link == Some(t.1)
      ensures LiveStamp(w'.mem, t.0) <==> LiveStamp(w.mem, t.0)
    {
      assert forall a: Addr :: a != at ==> (Live(w'.mem, a) <==> Live(w.mem, a));
      if LiveStamp(w.mem, t.0) {
        var a: Addr :| Live(w.mem, a) && w.mem[a].stamp == t.0;
        assert Live(w'.mem, a) && w'.mem[a].stamp == t.0;
      }
    }
  }

  // ----- outgoing lists -----

  ghost function SetOutgoing<N, E>(w: World<N, E>, p: Addr, out: seq<WeakEdge>): World<N, E>
    requires Live(w.mem, p)
  {
    w.(mem := w.mem[p := w.mem[p].(inner := Some(w.mem[p].inner.value.(outgoing := out)))])
  }

  /** A new outgoing list for `p`; the weak references it gains come from, and those it
      loses go to, the loose ones. */
  ghost function MoveOutgoing<N, E>(w: World<N, E>, p: Addr, out: seq<WeakEdge>): World<N, E>
    requires Live(w.mem, p)
  {
    SetOutgoing(w, p, out).(weaks :=
      w.weaks + multiset(OutTargets(w.mem[p].inner.value.outgoing)) - multiset(OutTargets(out)))
  }

  lemma MoveOutgoingRefs<N, E>(w: World<N, E>, p: Addr, out: seq<WeakEdge>)
    requires Live(w.mem, p)
    requires multiset(OutTargets(out)) <= w.weaks + multiset(OutTargets(w.mem[p].inner.value.outgoing))
    ensures AllStrong(MoveOutgoing(w, p, out)) == AllStrong(w)
    ensures AllWeak(MoveOutgoing(w, p, out)) == AllWeak(w)
  {
    hide StrongHeld, WeakHeld, RegHeld;
    MemUpdate(w.mem, p, MoveOutgoing(w, p, out).mem[p]);
  }

  lemma MoveOutgoingCounts<N, E>(w: World<N, E>, p: Addr, out: seq<WeakEdge>)
    requires CountsOk(w) && Live(w.mem, p)
    requires multiset(OutTargets(out)) <= w.weaks + multiset(OutTargets(w.mem[p].inner.value.outgoing))
    ensures CountsOk(MoveOutgoing(w, p, out))
  {
    hide AllStrong, AllWeak;
    MoveOutgoingRefs(w, p, out);
    var w' := MoveOutgoing(w, p, out);
    forall b | 0 <= b < |w'.mem| ensures SlotCounted(w'.mem[b], b, AllStrong(w'), AllWeak(w')) {
      assert SlotCounted(w.mem[b], b, AllStrong(w), AllWeak(w));
    }
  }

  lemma SetOutgoingNodeOk<N, E>(w: World<N, E>, p: Addr, out: seq<WeakEdge>, c: Addr)
    requires Live(w.mem, p) && Live(w.mem, c) && NodeOk(w.mem, w.log, c)
    ensures Live(SetOutgoing(w, p, out).mem, c) && NodeOk(SetOutgoing(w, p, out).mem, w.log, c)
  {
  }

  lemma MoveOutgoingShape<N, E>(w: World<N, E>, p: Addr, out: seq<WeakEdge>)
    requires ShapeOk(w) && OutSound(w) && RegsOk(w) && Live(w.mem, p)
    requires Ordered(out) && forall e :: e in out ==> TrueEdge(w.log, w.mem[p].stamp, e)
    ensures ShapeOk(MoveOutgoing(w, p, out)) && OutSound(MoveOutgoing(w, p, out)) && RegsOk(MoveOutgoing(w, p, out))
  {
    var w' := MoveOutgoing(w, p, out);
    hide NodeOk;
    forall c: Addr | Live(w'.mem, c) ensures NodeOk(w'.mem, w'.log, c) {
      assert Live(w.mem, c);
      SetOutgoingNodeOk(w, p, out, c);
    }
    forall q: Addr | Live(w'.mem, q)
      ensures Ordered(w'.mem[q].inner.value.outgoing)
      ensures forall e :: e in w'.mem[q].inner.value.outgoing ==> TrueEdge(w'.log, w'.mem[q].stamp, e)
    {
      assert Live(w.mem, q);
    }
    forall a: Addr | Live(w'.mem, a) && w'.mem[a].inner.value.link.Some?
      ensures w'.mem[a].inner.value.link.value < |w'.regs|
    {
      assert Live(w.mem, a);
    }
  }

  lemma SetOutgoingTracked<N, E>(w: World<N, E>, w': World<N, E>, p: Addr, out: seq<WeakEdge>)
    requires TrackedOk(w) && Live(w.mem, p) && w'.mem == SetOutgoing(w, p, out).mem
    requires w'.log == w.log && w'.regs == w.regs && w'.tracked == w.tracked
    ensures TrackedOk(w')
  {
    forall t | t in w.tracked
      ensures forall a: Addr :: Live(w'.mem, a) && w'.mem[a].stamp == t.0 ==> w'.mem[a].inner.value.link == Some(t.1)
      ensures LiveStamp(w'.mem, t.0) <==> LiveStamp(w.mem, t.0)
    {
      assert forall a: Addr :: Live(w'.mem, a) <==> Live(w.mem, a);
      if LiveStamp(w.mem, t.0) {
        var a: Addr :| Live(w.mem, a) && w.mem[a].stamp == t.0;
        assert Live(w'.mem, a) && w'.mem[a].stamp == t.0;
      }
    }
  }
}
