/** Dropping references: `Drop for RelRc`, the drop glue of `Rc` and the cascade they
    start together (src/node.rs:161-178). */
module HeapDrop {
  import opened Prelude
  import opened HeapModel
  import opened HeapSteps

  // ----- the registry lookup by address -----

  ghost function GetId(reg: Reg, a: Addr): Option<NodeId> {
    if a in reg.ptrToId then Some(reg.ptrToId[a]) else None
  }

  /** Looking a live node up by its address finds its own entry and never that of an
      earlier node at the same address: an entry pins its address. */
  lemma GetIdExact<N, E>(w: World<N, E>, r: RegId, a: Addr)
    requires Core(w) && r < |w.regs| && Live(w.mem, a)
    ensures GetId(w.regs[r], a).Some? <==> Registered(w.regs[r], w.mem[a].stamp)
    ensures forall id :: GetId(w.regs[r], a) == Some(id) <==>
      id in w.regs[r].nodes && w.regs[r].nodes[id] == Weak(a, w.mem[a].stamp)
    ensures forall id :: id in w.regs[r].nodes && w.regs[r].nodes[id].stamp == w.mem[a].stamp ==>
      w.regs[r].nodes[id].addr == a
  {
    hide NodeOk, OutSound, SlotCounted;
    var reg := w.regs[r];
    assert RegOk(reg);
    forall id | id in reg.nodes ensures Pinned(w.mem, reg.nodes[id]) {
      EntryPinned(w, r, id);
    }
    if a in reg.ptrToId {
      var id := reg.ptrToId[a];
      assert reg.nodes[id].addr == a && Pinned(w.mem, reg.nodes[id]);
    }
    if Registered(reg, w.mem[a].stamp) {
      var id :| id in reg.nodes && reg.nodes[id].stamp == w.mem[a].stamp;
      assert Pinned(w.mem, reg.nodes[id]) && reg.nodes[id].addr == a;
    }
  }

  lemma EntryPinned<N, E>(w: World<N, E>, r: RegId, id: NodeId)
    requires CountsOk(w) && r < |w.regs| && id in w.regs[r].nodes
    ensures Pinned(w.mem, w.regs[r].nodes[id])
  {
    hide AllWeak, AllStrong;
    HeldByRegistry(w, r, id);
  }

  // ----- the user-written part of drop, for the last strong reference -----

  ghost function Unregister<N, E>(w: World<N, E>, a: Addr): World<N, E>
    requires Core(w) && Live(w.mem, a)
  {
    var link := w.mem[a].inner.value.link;
    var w1 := SetLink(w, a, None);
    if link.Some? && link.value < |w.regs| && w.regs[link.value].open && GetId(w.regs[link.value], a).Some?
    then RemoveEntryCore(w1, link.value, w.regs[link.value].ptrToId[a], w, a);
      RemoveEntry(w1, link.value, w.regs[link.value].ptrToId[a])
    else w1
  }

  /** `Registry::remove`. */
  ghost function RemoveEntry<N, E>(w: World<N, E>, r: RegId, id: NodeId): World<N, E>
    requires r < |w.regs| && id in w.regs[r].nodes
    requires Pinned(w.mem, w.regs[r].nodes[id]) && w.mem[w.regs[r].nodes[id].addr].weak > 0
  {
    DropWeak(TakeEntry(w, r, id), w.regs[r].nodes[id])
  }

  lemma RemoveEntryReady<N, E>(w: World<N, E>, r: RegId, id: NodeId)
    requires Core(w) && r < |w.regs| && id in w.regs[r].nodes
    ensures Pinned(w.mem, w.regs[r].nodes[id]) && w.mem[w.regs[r].nodes[id].addr].weak > 0
  {
    hide AllWeak, AllStrong;
    HeldByRegistry(w, r, id);
    WeakIsPinned(w.mem, AllStrong(w), AllWeak(w), w.regs[r].nodes[id]);
  }

  lemma RemoveEntryInner<N, E>(w: World<N, E>, r: RegId, id: NodeId)
    requires Core(w) && r < |w.regs| && id in w.regs[r].nodes
    ensures Pinned(w.mem, w.regs[r].nodes[id]) && w.mem[w.regs[r].nodes[id].addr].weak > 0
    ensures Core(RemoveEntry(w, r, id)) && SameNodes(w.mem, RemoveEntry(w, r, id).mem)
    ensures OutOk(w) ==> OutOk(RemoveEntry(w, r, id))
    ensures RemoveEntry(w, r, id) == w.(mem := RemoveEntry(w, r, id).mem, regs := TakeEntry(w, r, id).regs)
  {
    hide CountsOk, ShapeOk, OutSound, RegsOk, OutCompleteBut, SameNodes;
    RemoveEntryReady(w, r, id);
    TakeEntryCore(w, r, id);
    var w1, k := TakeEntry(w, r, id), w.regs[r].nodes[id];
    var w2 := DropWeak(w1, k);
    DropWeakCounts(w1, k);
    SameNodesCore(w1, w2);
    if OutOk(w) { SameNodesOut(w1, w2, |w.log|, 0); }
  }

  lemma RemoveEntryCore<N, E>(w1: World<N, E>, r: RegId, id: NodeId, w: World<N, E>, a: Addr)
    requires Core(w) && Live(w.mem, a) && w1 == SetLink(w, a, None) && r < |w.regs| && GetId(w.regs[r], a) == Some(id)
    ensures Core(w1) && id in w1.regs[r].nodes
    ensures Pinned(w1.mem, w1.regs[r].nodes[id]) && w1.mem[w1.regs[r].nodes[id].addr].weak > 0
  {
    hide CountsOk, ShapeOk, OutSound, RegsOk;
    SetLinkCore(w, a, None);
    GetIdExact(w, r, a);
    RemoveEntryReady(w1, r, id);
  }

  /** What unregistering changes: the link is cleared, and the node's own entry, if it
      has one in its still existing registry, is gone. */
  ghost predicate Unregistered<N, E>(w: World<N, E>, w1: World<N, E>, a: Addr)
    requires Live(w.mem, a)
  {
    var link := w.mem[a].inner.value.link;
    && SameNodes(SetLink(w, a, None).mem, w1.mem)
    && w1.mem[a].strong == w.mem[a].strong
    && w1 == w.(mem := w1.mem, regs := w1.regs)
    && if link.Some? && link.value < |w.regs| && w.regs[link.value].open && GetId(w.regs[link.value], a).Some?
       then GetId(w.regs[link.value], a).value in w.regs[link.value].nodes
            && w1.regs == TakeEntry(w, link.value, GetId(w.regs[link.value], a).value).regs
       else w1.regs == w.regs
  }

  lemma UnregisterCore<N, E>(w: World<N, E>, a: Addr)
    requires Core(w) && OutOk(w) && Live(w.mem, a)
    ensures Core(Unregister(w, a)) && OutOk(Unregister(w, a))
    ensures Unregistered(w, Unregister(w, a), a)
  {
    hide CountsOk, ShapeOk, OutSound, RegsOk, OutCompleteBut;
    var link := w.mem[a].inner.value.link;
    var w1 := SetLink(w, a, None);
    SetLinkOut(w, a, None);
    if link.Some? && link.value < |w.regs| && w.regs[link.value].open && GetId(w.regs[link.value], a).Some? {
      var id := w.regs[link.value].ptrToId[a];
      GetIdExact(w, link.value, a);
      RemoveEntryInner(w1, link.value, id);
      assert TakeEntry(w, link.value, id).regs == TakeEntry(w1, link.value, id).regs;
    }
  }

  // ----- the death of one node -----

  /** The last strong reference to `a` is dropped. */
  ghost function DropNode<N, E>(w: World<N, E>, a: Addr): World<N, E>
    requires Inv(w) && Live(w.mem, a)
  {
    UnregisterCore(w, a);
    UnregisteredLive(w, Unregister(w, a), a);
    Kill(Unregister(w, a), a)
  }

  lemma UnregisteredLive<N, E>(w: World<N, E>, w1: World<N, E>, a: Addr)
    requires Live(w.mem, a) && Unregistered(w, w1, a)
    ensures Live(w1.mem, a) && w1.mem[a].stamp == w.mem[a].stamp
    ensures w1.mem[a].inner == Some(w.mem[a].inner.value.(link := None))
    ensures w1.mem[a].strong == w.mem[a].strong
    ensures forall b: Addr :: Live(w1.mem, b) <==> Live(w.mem, b)
    ensures forall b: Addr :: Live(w.mem, b) && b != a ==>
      w1.mem[b].stamp == w.mem[b].stamp && w1.mem[b].inner == w.mem[b].inner
    ensures |w1.mem| == |w.mem| && |w1.regs| == |w.regs|
    ensures forall b: Addr :: b < |w1.mem| && w1.mem[b].Used? ==> w.mem[b].Used? && w.mem[b].stamp == w1.mem[b].stamp
  {
    var w0 := SetLink(w, a, None);
    assert Live(w0.mem, a);
    forall b: Addr ensures Live(w1.mem, b) <==> Live(w.mem, b) {
      assert Live(w0.mem, b) <==> Live(w.mem, b);
    }
  }

  /** The node `s` was alive and linked to registry `r`, and is now dead. */
  ghost predicate DiedIn<N, E>(m: Memory<N, E>, m': Memory<N, E>, r: RegId, s: nat) {
    && (exists a: Addr :: Live(m, a) && m[a].stamp == s && m[a].inner.value.link == Some(r))
    && !LiveStamp(m', s)
  }

  /** Registry `r` has lost exactly the entries of nodes that died while linked to it. */
  ghost predicate RegShrinks<N, E>(r: RegId, reg: Reg, reg': Reg, m: Memory<N, E>, m': Memory<N, E>) {
    && reg'.open == reg.open && reg'.nextId == reg.nextId
    && (forall id :: id in reg'.nodes ==> id in reg.nodes && reg.nodes[id] == reg'.nodes[id])
    && (forall id :: id in reg.nodes ==> (id in reg'.nodes <==> !DiedIn(m, m', r, reg.nodes[id].stamp)))
  }

  /** Nothing was created, and whatever is alive in `w'` is exactly as it was in `w`. */
  ghost predicate Shrinks<N, E>(w: World<N, E>, w': World<N, E>) {
    && |w'.mem| == |w.mem| && w'.log == w.log && w'.tracked == w.tracked && |w'.regs| == |w.regs|
    && (forall a: Addr :: Live(w'.mem, a) ==>
          Live(w.mem, a) && w'.mem[a].stamp == w.mem[a].stamp && w'.mem[a].inner == w.mem[a].inner)
    && (forall a: Addr :: a < |w'.mem| && w'.mem[a].Used? ==> w.mem[a].Used? && w.mem[a].stamp == w'.mem[a].stamp)
    && (forall r :: 0 <= r < |w.regs| ==> RegShrinks(r, w.regs[r], w'.regs[r], w.mem, w'.mem))
  }

  lemma LiveStampShrinks<N, E>(w: World<N, E>, w': World<N, E>, s: nat)
    requires Shrinks(w, w') && LiveStamp(w'.mem, s)
    ensures LiveStamp(w.mem, s)
  {
    var a: Addr :| Live(w'.mem, a) && w'.mem[a].stamp == s;
    assert Live(w.mem, a);
  }

  /** To have died while linked to `r` is to have done so earlier or later. */
  lemma DiedInTrans<N, E>(w: World<N, E>, w1: World<N, E>, w2: World<N, E>, r: RegId, s: nat)
    requires StampsOk(w.mem, w.log) && Shrinks(w, w1) && Shrinks(w1, w2)
    ensures DiedIn(w.mem, w2.mem, r, s) <==> DiedIn(w.mem, w1.mem, r, s) || DiedIn(w1.mem, w2.mem, r, s)
  {
    hide RegShrinks;
    if LiveStamp(w2.mem, s) { LiveStampShrinks(w1, w2, s); }
    if LiveStamp(w1.mem, s) {
      var b: Addr :| Live(w1.mem, b) && w1.mem[b].stamp == s;
      assert Live(w.mem, b);
    }
  }

  lemma ShrinksTrans<N, E>(w: World<N, E>, w1: World<N, E>, w2: World<N, E>)
    requires StampsOk(w.mem, w.log) && Shrinks(w, w1) && Shrinks(w1, w2)
    ensures Shrinks(w, w2)
  {
    hide DiedIn;
    forall r: RegId | r < |w.regs| ensures RegShrinks(r, w.regs[r], w2.regs[r], w.mem, w2.mem) {
      assert RegShrinks(r, w.regs[r], w1.regs[r], w.mem, w1.mem);
      assert RegShrinks(r, w1.regs[r], w2.regs[r], w1.mem, w2.mem);
      forall id | id in w.regs[r].nodes { DiedInTrans(w, w1, w2, r, w.regs[r].nodes[id].stamp); }
    }
  }

  lemma NoneDied<N, E>(m: Memory<N, E>, m': Memory<N, E>, r: RegId, s: nat)
    requires SameNodes(m, m')
    ensures !DiedIn(m, m', r, s)
  {
    forall a: Addr | Live(m, a) && m[a].stamp == s ensures LiveStamp(m', s) {
      assert Live(m', a);
    }
  }

  lemma SameNodesShrinks<N, E>(w: World<N, E>, w': World<N, E>)
    requires SameNodes(w.mem, w'.mem) && w'.log == w.log && w'.regs == w.regs && w'.tracked == w.tracked
    ensures Shrinks(w, w')
  {
    hide DiedIn;
    forall r: RegId, id | r < |w.regs| && id in w.regs[r].nodes {
      NoneDied(w.mem, w'.mem, r, w.regs[r].nodes[id].stamp);
    }
  }

  /** Everything about the world after the death of `a` except that tracked nodes lose
      their entries. */
  lemma DropNodeCore<N, E>(w: World<N, E>, a: Addr)
    requires Inv(w) && Live(w.mem, a) && a in w.handles && w.mem[a].strong == 1
    ensures Core(DropNode(w, a)) && OutOk(DropNode(w, a))
    ensures DropNode(w, a).handles == w.handles - multiset{a} + StrongOut(w.mem[a])
    ensures DropNode(w, a).weaks == w.weaks + WeakOut(w.mem[a])
  {
    hide CountsOk, ShapeOk, OutSound, RegsOk, OutCompleteBut, TrackedOk, Unregistered;
    var w1 := Unregister(w, a);
    UnregisterCore(w, a);
    UnregisteredLive(w, w1, a);
    UnregisteredSame(w, w1, a);
    KillOut(w1, a);
  }

  lemma UnregisteredSame<N, E>(w: World<N, E>, w1: World<N, E>, a: Addr)
    requires Live(w.mem, a) && Unregistered(w, w1, a)
    ensures w1.handles == w.handles && w1.weaks == w.weaks && w1.log == w.log && w1.tracked == w.tracked
  {
  }

  lemma DropNodeLive<N, E>(w: World<N, E>, a: Addr)
    requires Inv(w) && Live(w.mem, a)
    ensures var w' := DropNode(w, a);
      && |w'.mem| == |w.mem| && w'.log == w.log && w'.tracked == w.tracked && |w'.regs| == |w.regs|
      && w'.regs == Unregister(w, a).regs
      && (forall b: Addr :: Live(w'.mem, b) <==> Live(w.mem, b) && b != a)
      && (forall b: Addr :: Live(w'.mem, b) ==> w'.mem[b].stamp == w.mem[b].stamp && w'.mem[b].inner == w.mem[b].inner)
      && (forall b: Addr :: b < |w'.mem| && w'.mem[b].Used? ==> w.mem[b].Used? && w.mem[b].stamp == w'.mem[b].stamp)
      && !LiveStamp(w'.mem, w.mem[a].stamp)
      && (forall s :: s != w.mem[a].stamp ==> (LiveStamp(w'.mem, s) <==> LiveStamp(w.mem, s)))
  {
    hide CountsOk, NodeOk, OutSound, RegsOk, OutCompleteBut, TrackedOk, Unregistered;
    var w1 := Unregister(w, a);
    UnregisterCore(w, a);
    UnregisteredLive(w, w1, a);
    UnregisteredSame(w, w1, a);
    var w' := DropNode(w, a);
    forall b: Addr ensures Live(w'.mem, b) <==> Live(w.mem, b) && b != a {
      assert Live(w1.mem, b) <==> Live(w.mem, b);
    }
    DropLiveStamps(w, w', a);
  }

  lemma DropLiveStamps<N, E>(w: World<N, E>, w': World<N, E>, a: Addr)
    requires StampsOk(w.mem, w.log) && Live(w.mem, a)
    requires forall b: Addr :: Live(w'.mem, b) <==> Live(w.mem, b) && b != a
    requires forall b: Addr :: Live(w'.mem, b) && Live(w.mem, b) ==> w'.mem[b].stamp == w.mem[b].stamp
    ensures !LiveStamp(w'.mem, w.mem[a].stamp)
    ensures forall s :: s != w.mem[a].stamp ==> (LiveStamp(w'.mem, s) <==> LiveStamp(w.mem, s))
  {
    forall s | s != w.mem[a].stamp && LiveStamp(w.mem, s) ensures LiveStamp(w'.mem, s) {
      var b: Addr :| Live(w.mem, b) && w.mem[b].stamp == s;
      assert Live(w'.mem, b);
    }
  }

  /** The registries after the death of `a`: exactly its entry in the registry it was
      linked to is gone. */
  lemma DropNodeRegs<N, E>(w: World<N, E>, a: Addr, r: RegId)
    requires Inv(w) && Live(w.mem, a) && r < |w.regs|
    ensures var reg, reg' := w.regs[r], Unregister(w, a).regs[r];
      && reg'.open == reg.open && reg'.nextId == reg.nextId
      && (forall id :: id in reg'.nodes ==> id in reg.nodes && reg.nodes[id] == reg'.nodes[id])
      && (forall id :: id in reg.nodes ==>
            (id in reg'.nodes <==> !(w.mem[a].inner.value.link == Some(r) && reg.nodes[id].stamp == w.mem[a].stamp)))
  {
    hide Core, OutOk, TrackedOk, SameNodes, Unregister, SetLink;
    UnregisterCore(w, a);
    GetIdExact(w, r, a);
    RegAt(w, r);
    var link := w.mem[a].inner.value.link;
    if link.Some? && link.value < |w.regs| && link.value != r {
      GetIdExact(w, link.value, a);
    }
  }

  lemma RegAt<N, E>(w: World<N, E>, r: RegId)
    requires Core(w) && r < |w.regs|
    ensures RegOk(w.regs[r])
  {
    hide CountsOk, ShapeOk, OutSound;
  }

  lemma DropNodeTracked<N, E>(w: World<N, E>, a: Addr)
    requires Inv(w) && Live(w.mem, a)
    ensures TrackedOk(DropNode(w, a))
  {
    hide CountsOk, ShapeOk, OutSound, OutCompleteBut, RegsOk, Unregistered, DropNode, Unregister;
    DropNodeLive(w, a);
    var w' := DropNode(w, a);
    forall r: RegId | r < |w.regs| ensures w'.regs[r].open == w.regs[r].open { DropNodeRegs(w, a, r); }
    forall t | t in w.tracked && w.regs[t.1].open ensures LiveStamp(w'.mem, t.0) <==> Registered(w'.regs[t.1], t.0) {
      DropNodeRegs(w, a, t.1);
      if t.0 != w.mem[a].stamp {
        RegisteredStill(w.regs[t.1], w'.regs[t.1], w.mem[a].stamp, t.0);
      }
    }
  }

  lemma DropNodeShrinks<N, E>(w: World<N, E>, a: Addr)
    requires Inv(w) && Live(w.mem, a)
    ensures Shrinks(w, DropNode(w, a))
  {
    hide CountsOk, NodeOk, OutSound, OutOk, TrackedOk, RegsOk, Unregistered, DropNode, Unregister, DiedIn;
    DropNodeLive(w, a);
    var w' := DropNode(w, a);
    forall r: RegId | r < |w.regs| ensures RegShrinks(r, w.regs[r], w'.regs[r], w.mem, w'.mem) {
      DropNodeRegs(w, a, r);
      forall s { OneDied(w, w', a, r, s); }
    }
  }

  lemma OneDied<N, E>(w: World<N, E>, w': World<N, E>, a: Addr, r: RegId, s: nat)
    requires StampsOk(w.mem, w.log) && Live(w.mem, a) && !LiveStamp(w'.mem, w.mem[a].stamp)
    requires s != w.mem[a].stamp ==> (LiveStamp(w'.mem, s) <==> LiveStamp(w.mem, s))
    ensures DiedIn(w.mem, w'.mem, r, s) <==> w.mem[a].inner.value.link == Some(r) && s == w.mem[a].stamp
  {
    if s != w.mem[a].stamp && DiedIn(w.mem, w'.mem, r, s) {
      assert LiveStamp(w.mem, s);
      assert false;
    }
  }

  lemma RegisteredStill(reg: Reg, reg': Reg, gone: nat, s: nat)
    requires forall id :: id in reg'.nodes ==> id in reg.nodes && reg.nodes[id] == reg'.nodes[id]
    requires forall id :: id in reg.nodes && id !in reg'.nodes ==> reg.nodes[id].stamp == gone
    requires s != gone
    ensures Registered(reg', s) <==> Registered(reg, s)
  {
    if Registered(reg, s) {
      var id :| id in reg.nodes && reg.nodes[id].stamp == s;
      assert id in reg'.nodes;
    }
  }

  lemma DropNodeInv<N, E>(w: World<N, E>, a: Addr)
    requires Inv(w) && Live(w.mem, a) && a in w.handles && w.mem[a].strong == 1
    ensures Inv(DropNode(w, a)) && Shrinks(w, DropNode(w, a))
  {
    hide Core, OutOk, TrackedOk, Shrinks, DropNode;
    DropNodeCore(w, a);
    DropNodeTracked(w, a);
    DropNodeShrinks(w, a);
  }

  // ----- the cascade -----

  /** A reference that is about to be dropped. */
  datatype Ref = Strong(a: Addr) | Loose(k: Weak)

  ghost function Strongs(todo: seq<Ref>): multiset<Addr> {
    if todo == [] then multiset{}
    else (if todo[0].Strong? then multiset{todo[0].a} else multiset{}) + Strongs(todo[1..])
  }

  ghost function Looses(todo: seq<Ref>): multiset<Weak> {
    if todo == [] then multiset{}
    else (if todo[0].Loose? then multiset{todo[0].k} else multiset{}) + Looses(todo[1..])
  }

  lemma {:induction false} RefsConcat(s: seq<Ref>, t: seq<Ref>)
    ensures Strongs(s + t) == Strongs(s) + Strongs(t)
    ensures Looses(s + t) == Looses(s) + Looses(t)
  {
    if s == [] {
      assert s + t == t;
    } else {
      assert (s + t)[1..] == s[1..] + t && (s + t)[0] == s[0];
      RefsConcat(s[1..], t);
    }
  }

  lemma EmptyRefs()
    ensures Strongs([]) == multiset{} && Looses([]) == multiset{}
  {
  }

  lemma OneStrong(a: Addr)
    ensures Strongs([Strong(a)]) == multiset{a} && Looses([Strong(a)]) == multiset{}
  {
  }

  lemma OneLoose(k: Weak)
    ensures Strongs([Loose(k)]) == multiset{} && Looses([Loose(k)]) == multiset{k}
  {
  }

  /** The fields of the incoming edges in the order in which they are dropped. */
  ghost function EdgeDebris<E>(es: seq<InEdge<E>>): seq<Ref> {
    if es == [] then [] else [Strong(es[0].source)] + [Loose(es[0].target)] + EdgeDebris(es[1..])
  }

  ghost function OutDebris(es: seq<WeakEdge>): seq<Ref> {
    if es == [] then [] else [Loose(es[0].target)] + OutDebris(es[1..])
  }

  /** All references inside a node, in the order in which they are dropped. */
  ghost function Debris<N, E>(n: Inner<N, E>): seq<Ref> {
    EdgeDebris(n.incoming) + OutDebris(n.outgoing)
  }

  lemma EdgeDebrisCons<E>(es: seq<InEdge<E>>)
    requires es != []
    ensures Strongs(EdgeDebris(es)) == multiset{es[0].source} + Strongs(EdgeDebris(es[1..]))
    ensures Looses(EdgeDebris(es)) == multiset{es[0].target} + Looses(EdgeDebris(es[1..]))
  {
    hide Strongs, Looses;
    var s, l := [Strong(es[0].source)], [Loose(es[0].target)];
    OneStrong(es[0].source);
    OneLoose(es[0].target);
    RefsConcat(s, l);
    RefsConcat(s + l, EdgeDebris(es[1..]));
  }

  lemma EdgeRefsCons<E>(es: seq<InEdge<E>>)
    requires es != []
    ensures multiset(Sources(es)) == multiset{es[0].source} + multiset(Sources(es[1..]))
    ensures multiset(Targets(es)) == multiset{es[0].target} + multiset(Targets(es[1..]))
  {
    assert Sources(es) == [es[0].source] + Sources(es[1..]);
    assert Targets(es) == [es[0].target] + Targets(es[1..]);
  }

  lemma {:induction false} EdgeDebrisRefs<E>(es: seq<InEdge<E>>)
    ensures Strongs(EdgeDebris(es)) == multiset(Sources(es))
    ensures Looses(EdgeDebris(es)) == multiset(Targets(es))
  {
    hide Strongs, Looses;
    if es == [] {
      EmptyRefs();
    } else {
      EdgeDebrisCons(es);
      EdgeRefsCons(es);
      EdgeDebrisRefs(es[1..]);
    }
  }

  lemma {:induction false} OutDebrisRefs(es: seq<WeakEdge>)
    ensures Strongs(OutDebris(es)) == multiset{}
    ensures Looses(OutDebris(es)) == multiset(OutTargets(es))
  {
    hide Strongs, Looses;
    if es == [] {
      EmptyRefs();
    } else {
      OneLoose(es[0].target);
      OutDebrisRefs(es[1..]);
      RefsConcat([Loose(es[0].target)], OutDebris(es[1..]));
      assert OutTargets(es) == [es[0].target] + OutTargets(es[1..]);
    }
  }

  lemma DebrisRefs<N, E>(s: Slot<N, E>)
    requires s.Used? && s.inner.Some?
    ensures Strongs(Debris(s.inner.value)) == StrongOut(s)
    ensures Looses(Debris(s.inner.value)) == WeakOut(s)
  {
    hide Strongs, Looses;
    EdgeDebrisRefs(s.inner.value.incoming);
    OutDebrisRefs(s.inner.value.outgoing);
    RefsConcat(EdgeDebris(s.inner.value.incoming), OutDebris(s.inner.value.outgoing));
  }

  /** The caller owns the references it asks to drop. */
  ghost predicate Owns<N, E>(w: World<N, E>, todo: seq<Ref>) {
    Strongs(todo) <= w.handles && Looses(todo) <= w.weaks
  }

  ghost function LiveSet<N, E>(mem: Memory<N, E>): set<Addr> {
    set a: Addr | 0 <= a < |mem| && Live(mem, a)
  }

  lemma OwnedLive<N, E>(w: World<N, E>, a: Addr)
    requires CountsOk(w) && a in w.handles
    ensures Live(w.mem, a) && w.mem[a].strong > 0
  {
    HandleIsStrong(w, a);
    hide AllStrong, AllWeak;
    assert SlotCounted(w.mem[a], a, AllStrong(w), AllWeak(w));
  }

  /** Drops one reference. The second component lists the references that were inside
      the node, if this was the last reference keeping one alive. */
  ghost function DropOne<N, E>(w: World<N, E>, ref: Ref): (World<N, E>, seq<Ref>)
    requires Inv(w) && Owns(w, [ref])
  {
    match ref
    case Loose(k) =>
      DropWeakCounts(w, k);
      (DropWeak(w, k), [])
    case Strong(a) =>
      OwnedLive(w, a);
      if w.mem[a].strong > 1 then (DropShared(w, a), [])
      else (DropNode(w, a), Debris(w.mem[a].inner.value))
  }

  lemma DropOneInv<N, E>(w: World<N, E>, ref: Ref)
    requires Inv(w) && Owns(w, [ref])
    ensures var (w', debris) := DropOne(w, ref);
      && Inv(w') && Shrinks(w, w')
      && w'.handles == w.handles - Strongs([ref]) + Strongs(debris)
      && w'.weaks == w.weaks - Looses([ref]) + Looses(debris)
      && (debris == [] || |LiveSet(w'.mem)| < |LiveSet(w.mem)|)
      && |LiveSet(w'.mem)| <= |LiveSet(w.mem)|
  {
    hide Core, OutOk, TrackedOk, DropNode, Shrinks, LiveSet, Strongs, Looses, DropWeak, DropShared;
    EmptyRefs();
    match ref {
      case Loose(k) =>
        OneLoose(k);
        DropLooseInv(w, k);
        ShrinksLess(w, DropWeak(w, k));
      case Strong(a) =>
        OneStrong(a);
        CoreCounts(w);
        OwnedLive(w, a);
        if w.mem[a].strong > 1 {
          DropSharedInv(w, a);
          ShrinksLess(w, DropShared(w, a));
        } else {
          DropNodeInv(w, a);
          DropNodeCore(w, a);
          DebrisRefs(w.mem[a]);
          DropNodeLess(w, a);
        }
    }
  }

  lemma CoreCounts<N, E>(w: World<N, E>)
    requires Core(w)
    ensures CountsOk(w)
  {
  }

  lemma DropLooseInv<N, E>(w: World<N, E>, k: Weak)
    requires Inv(w) && k in w.weaks
    ensures Pinned(w.mem, k) && w.mem[k.addr].weak > 0
    ensures Inv(DropWeak(w, k)) && Shrinks(w, DropWeak(w, k))
    ensures DropWeak(w, k).handles == w.handles && DropWeak(w, k).weaks == w.weaks - multiset{k}
  {
    hide CountsOk, ShapeOk, OutSound, RegsOk, OutCompleteBut, TrackedOk, SameNodes, Shrinks;
    DropWeakCounts(w, k);
    SameNodesInv(w, DropWeak(w, k));
    SameNodesShrinks(w, DropWeak(w, k));
  }

  lemma DropSharedInv<N, E>(w: World<N, E>, a: Addr)
    requires Inv(w) && Live(w.mem, a) && w.mem[a].strong > 1 && a in w.handles
    ensures Inv(DropShared(w, a)) && Shrinks(w, DropShared(w, a))
    ensures DropShared(w, a).handles == w.handles - multiset{a} && DropShared(w, a).weaks == w.weaks
  {
    hide CountsOk, ShapeOk, OutSound, RegsOk, OutCompleteBut, TrackedOk, SameNodes, Shrinks;
    DropSharedCounts(w, a);
    SameNodesInv(w, DropShared(w, a));
    SameNodesShrinks(w, DropShared(w, a));
  }

  lemma DropNodeLess<N, E>(w: World<N, E>, a: Addr)
    requires Inv(w) && Live(w.mem, a)
    ensures |LiveSet(DropNode(w, a).mem)| < |LiveSet(w.mem)|
  {
    hide Inv, DropNode;
    DropNodeLive(w, a);
    assert LiveSet(DropNode(w, a).mem) == LiveSet(w.mem) - {a};
  }

  lemma SubsetLess<T>(s: set<T>, t: set<T>)
    requires s <= t
    ensures |s| <= |t|
  {
    assert t == s + (t - s);
  }

  lemma ShrinksLess<N, E>(w: World<N, E>, w': World<N, E>)
    requires Shrinks(w, w')
    ensures |LiveSet(w'.mem)| <= |LiveSet(w.mem)|
  {
    SubsetLess(LiveSet(w'.mem), LiveSet(w.mem));
  }

  lemma OwnsHead<N, E>(w: World<N, E>, todo: seq<Ref>)
    requires Owns(w, todo) && todo != []
    ensures Owns(w, [todo[0]])
  {
    assert [todo[0]] + todo[1..] == todo;
    RefsConcat([todo[0]], todo[1..]);
  }

  lemma StillOwned<T>(have: multiset<T>, first: multiset<T>, debris: multiset<T>, rest: multiset<T>)
    requires first + rest <= have
    ensures debris + rest <= have - first + debris
    ensures have - first + debris - (debris + rest) == have - (first + rest)
  {
  }

  lemma OwnsNext<N, E>(w: World<N, E>, todo: seq<Ref>)
    requires Inv(w) && Owns(w, todo) && todo != []
    ensures Owns(w, [todo[0]])
    ensures Owns(DropOne(w, todo[0]).0, DropOne(w, todo[0]).1 + todo[1..])
  {
    hide Inv, DropOne, Shrinks, Strongs, Looses, LiveSet;
    OwnsHead(w, todo);
    DropOneInv(w, todo[0]);
    var (w', debris) := DropOne(w, todo[0]);
    assert [todo[0]] + todo[1..] == todo;
    RefsConcat([todo[0]], todo[1..]);
    RefsConcat(debris, todo[1..]);
    StillOwned(w.handles, Strongs([todo[0]]), Strongs(debris), Strongs(todo[1..]));
    StillOwned(w.weaks, Looses([todo[0]]), Looses(debris), Looses(todo[1..]));
  }

  /** Drops the listed references in order; what falls out of a dying node is dropped
      right away, before the rest of the list. It ends because every node that dies
      makes the number of live nodes smaller. */
  ghost function Release<N, E>(w: World<N, E>, todo: seq<Ref>): World<N, E>
    requires Inv(w) && Owns(w, todo)
    decreases |LiveSet(w.mem)|, |todo|
  {
    if todo == [] then w
    else
      OwnsNext(w, todo);
      DropOneInv(w, todo[0]);
      Release(DropOne(w, todo[0]).0, DropOne(w, todo[0]).1 + todo[1..])
  }

  /** Dropping references, with all the deaths this causes, keeps the invariant, takes
      away exactly these references, and leaves what is still alive as it was. */
  lemma {:induction false} ReleaseInv<N, E>(w: World<N, E>, todo: seq<Ref>)
    requires Inv(w) && Owns(w, todo)
    ensures var w' := Release(w, todo);
      && Inv(w') && Shrinks(w, w')
      && w'.handles == w.handles - Strongs(todo)
      && w'.weaks == w.weaks - Looses(todo)
    decreases |LiveSet(w.mem)|, |todo|
  {
    hide Inv, DropOne, Shrinks, LiveSet, Strongs, Looses, Owns;
    if todo == [] {
      ShrinksRefl(w);
      EmptyRefs();
    } else {
      OwnsNext(w, todo);
      DropOneInv(w, todo[0]);
      var (w1, debris) := DropOne(w, todo[0]);
      ReleaseInv(w1, debris + todo[1..]);
      InvStamps(w);
      ShrinksTrans(w, w1, Release(w, todo));
      RefsConcat([todo[0]], todo[1..]);
      assert [todo[0]] + todo[1..] == todo;
      RefsConcat(debris, todo[1..]);
      OwnsParts(w, todo);
      StillOwned(w.handles, Strongs([todo[0]]), Strongs(debris), Strongs(todo[1..]));
      StillOwned(w.weaks, Looses([todo[0]]), Looses(debris), Looses(todo[1..]));
    }
  }

  lemma OwnsParts<N, E>(w: World<N, E>, todo: seq<Ref>)
    requires Owns(w, todo)
    ensures Strongs(todo) <= w.handles && Looses(todo) <= w.weaks
  {
  }

  lemma ShrinksRefl<N, E>(w: World<N, E>)
    ensures Shrinks(w, w)
  {
    SameNodesShrinks(w, w);
  }

  lemma InvStamps<N, E>(w: World<N, E>)
    requires Inv(w)
    ensures StampsOk(w.mem, w.log)
  {
  }

  lemma OwnsSplit<N, E>(w: World<N, E>, s: seq<Ref>, t: seq<Ref>)
    requires Inv(w) && Owns(w, s + t)
    ensures Owns(w, s) && Inv(Release(w, s)) && Owns(Release(w, s), t)
  {
    hide Inv, Release, Shrinks, Strongs, Looses;
    RefsConcat(s, t);
    ReleaseInv(w, s);
  }

  /** Dropping two lists one after the other is dropping their concatenation. */
  lemma {:induction false} ReleaseConcat<N, E>(w: World<N, E>, s: seq<Ref>, t: seq<Ref>)
    requires Inv(w) && Owns(w, s + t)
    ensures Owns(w, s) && Inv(Release(w, s)) && Owns(Release(w, s), t)
    ensures Release(w, s + t) == Release(Release(w, s), t)
    decreases |LiveSet(w.mem)|, |s|
  {
    hide Inv, DropOne, Shrinks, LiveSet, Strongs, Looses, Owns;
    OwnsSplit(w, s, t);
    if s == [] {
      assert s + t == t;
    } else {
      OwnsNext(w, s + t);
      OwnsNext(w, s);
      DropOneInv(w, s[0]);
      var (w1, debris) := DropOne(w, s[0]);
      assert (s + t)[0] == s[0] && debris + (s + t)[1..] == (debris + s[1..]) + t;
      ReleaseConcat(w1, debris + s[1..], t);
    }
  }

  lemma ReleaseStep<N, E>(w: World<N, E>, ref: Ref, rest: seq<Ref>)
    requires Inv(w) && Owns(w, [ref] + rest)
    ensures Owns(w, [ref])
    ensures var (w', debris) := DropOne(w, ref);
      Inv(w') && Owns(w', debris + rest) && Release(w, [ref] + rest) == Release(w', debris + rest)
  {
    hide Inv, Owns, LiveSet, Strongs, Looses, DropOne, Shrinks;
    var todo := [ref] + rest;
    assert todo[0] == ref && todo[1..] == rest;
    OwnsNext(w, todo);
    DropOneInv(w, ref);
  }

  lemma DropOneLoose<N, E>(w: World<N, E>, k: Weak)
    requires Inv(w) && Owns(w, [Loose(k)])
    ensures k in w.weaks && Pinned(w.mem, k) && w.mem[k.addr].weak > 0
    ensures DropOne(w, Loose(k)) == (DropWeak(w, k), [])
    ensures SameNodes(w.mem, DropWeak(w, k).mem) && DropWeak(w, k).regs == w.regs
  {
    hide Inv, Strongs, Looses, SameNodes;
    OneLoose(k);
    InvHasCounts(w);
    DropWeakCounts(w, k);
  }

  lemma InvHasCounts<N, E>(w: World<N, E>)
    requires Inv(w)
    ensures CountsOk(w)
  {
  }
}
