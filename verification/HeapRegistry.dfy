/** The registry operations (src/registry.rs) and the registration of a node in the
    one registry it may ever belong to (src/node.rs:101-143). */
module HeapRegistry {
  import opened Prelude
  import opened HeapModel
  import opened HeapSteps
  import opened HeapDrop
  import opened HeapOps

  /** `Registry::get`: the entry's weak reference is upgraded by address. */
  ghost function Get<N, E>(w: World<N, E>, r: RegId, id: NodeId): Option<Addr>
    requires r < |w.regs|
  {
    if id in w.regs[r].nodes && Live(w.mem, w.regs[r].nodes[id].addr) then Some(w.regs[r].nodes[id].addr) else None
  }

  /** `get` and `get_id` undo each other: on ids of live nodes and on registered nodes. */
  lemma GetInverse<N, E>(w: World<N, E>, r: RegId, id: NodeId, a: Addr)
    requires Inv(w) && r < |w.regs|
    ensures Get(w, r, id) == Some(a) <==> Live(w.mem, a) && GetId(w.regs[r], a) == Some(id)
  {
    hide CountsOk, ShapeOk, OutSound, OutOk, TrackedOk;
    assert RegOk(w.regs[r]);
  }

  /** No two entries are for the same address, and all ids have been issued. */
  ghost predicate EntriesOk(nodes: map<NodeId, Weak>, nextId: NodeId) {
    && (forall i, j :: i in nodes && j in nodes && nodes[i].addr == nodes[j].addr ==> i == j)
    && (forall id :: id in nodes ==> id < nextId)
  }

  /** `Registry::from_slotmap`: the address map is rebuilt from the entries. */
  function FromSlotmap(nodes: map<NodeId, Weak>, nextId: NodeId): Reg
    requires EntriesOk(nodes, nextId)
  {
    Reg(true, nodes, map id | id in nodes :: nodes[id].addr := id, nextId)
  }

  lemma FromSlotmapOk(nodes: map<NodeId, Weak>, nextId: NodeId)
    requires EntriesOk(nodes, nextId)
    ensures RegOk(FromSlotmap(nodes, nextId))
  {
    var reg := FromSlotmap(nodes, nextId);
    forall id | id in nodes ensures nodes[id].addr in reg.ptrToId && reg.ptrToId[nodes[id].addr] == id {
    }
  }

  ghost function AddNode<N, E>(w: World<N, E>, r: RegId, a: Addr): (World<N, E>, NodeId)
    requires r < |w.regs| && Live(w.mem, a)
  {
    var k := Weak(a, w.mem[a].stamp);
    if GetId(w.regs[r], a).Some? then (w, GetId(w.regs[r], a).value)
    else (PutEntry(AddWeak(w, k), r, k), w.regs[r].nextId)
  }

  /** What adding a node does to the registries. */
  ghost predicate Entered<N, E>(w: World<N, E>, w': World<N, E>, r: RegId, a: Addr, id: NodeId)
    requires r < |w.regs| && Live(w.mem, a)
  {
    var k := Weak(a, w.mem[a].stamp);
    && (Registered(w.regs[r], k.stamp) ==> w'.regs == w.regs && id in w.regs[r].nodes && w.regs[r].nodes[id] == k)
    && (!Registered(w.regs[r], k.stamp) ==>
          && id == w.regs[r].nextId
          && w'.regs == w.regs[r := w.regs[r].(nodes := w.regs[r].nodes[id := k],
            ptrToId := w.regs[r].ptrToId[a := id], nextId := id + 1)])
  }

  lemma AddNodeCore<N, E>(w: World<N, E>, r: RegId, a: Addr)
    requires Core(w) && OutOk(w) && r < |w.regs| && w.regs[r].open && Live(w.mem, a)
    ensures var (w', id) := AddNode(w, r, a);
      && Core(w') && OutOk(w') && SameNodes(w.mem, w'.mem) && Entered(w, w', r, a, id)
      && w' == w.(mem := w'.mem, regs := w'.regs)
  {
    hide CountsOk, ShapeOk, OutSound, RegsOk, OutCompleteBut, SameNodes;
    GetIdExact(w, r, a);
    if GetId(w.regs[r], a).None? {
      var k := Weak(a, w.mem[a].stamp);
      var w1 := AddWeak(w, k);
      AddWeakCounts(w, k);
      SameNodesCore(w, w1);
      SameNodesOut(w, w1, |w.log|, 0);
      PutEntryCore(w1, r, k);
    } else {
      SameNodesRefl(w.mem);
    }
  }

  lemma EnteredRegistered<N, E>(w: World<N, E>, w': World<N, E>, r: RegId, a: Addr, id: NodeId, q: RegId, s: nat)
    requires RegsOk(w) && r < |w.regs| && Live(w.mem, a) && Entered(w, w', r, a, id) && q < |w.regs|
    ensures |w'.regs| == |w.regs| && w'.regs[q].open == w.regs[q].open
    ensures Registered(w'.regs[q], s) <==> Registered(w.regs[q], s) || (q == r && s == w.mem[a].stamp)
  {
    assert RegOk(w.regs[r]);
    if q == r && !Registered(w.regs[r], w.mem[a].stamp) {
      assert w'.regs[r].nodes[id].stamp == w.mem[a].stamp;
      forall j | j in w.regs[r].nodes ensures j in w'.regs[r].nodes && w'.regs[r].nodes[j] == w.regs[r].nodes[j] {
      }
    }
  }

  lemma AddNodeInv<N, E>(w: World<N, E>, r: RegId, a: Addr)
    requires Inv(w) && r < |w.regs| && w.regs[r].open && Live(w.mem, a)
    ensures var (w', id) := AddNode(w, r, a);
      && Inv(w') && SameNodes(w.mem, w'.mem) && Entered(w, w', r, a, id)
      && w' == w.(mem := w'.mem, regs := w'.regs)
  {
    hide CountsOk, ShapeOk, OutSound, OutCompleteBut, AddNode, Entered, RegsOk;
    AddNodeCore(w, r, a);
    var (w', id) := AddNode(w, r, a);
    forall t | t in w.tracked
      ensures |w'.regs| == |w.regs| && w'.regs[t.1].open == w.regs[t.1].open
      ensures w'.regs[t.1].open ==> (LiveStamp(w'.mem, t.0) <==> Registered(w'.regs[t.1], t.0))
    {
      EnteredRegistered(w, w', r, a, id, t.1, t.0);
      SameLiveStamp(w.mem, w'.mem, t.0);
      assert LiveStamp(w.mem, w.mem[a].stamp);
    }
    forall t, b: Addr | t in w.tracked && Live(w'.mem, b) && w'.mem[b].stamp == t.0
      ensures w'.mem[b].inner.value.link == Some(t.1)
    {
      assert Live(w.mem, b);
    }
  }

  lemma SameLiveStamp<N, E>(m: Memory<N, E>, m': Memory<N, E>, s: nat)
    requires SameNodes(m, m')
    ensures LiveStamp(m', s) <==> LiveStamp(m, s)
  {
    if LiveStamp(m, s) {
      var a: Addr :| Live(m, a) && m[a].stamp == s;
      assert Live(m', a);
    }
  }

  // ----- try_register_in -----

  /** `try_set_register`: the link can be set once; afterwards only the same registry
      is accepted, even if the linked one no longer exists. */
  ghost predicate CanLink<N, E>(w: World<N, E>, r: RegId, a: Addr)
    requires Live(w.mem, a)
  {
    w.mem[a].inner.value.link in {None, Some(r)}
  }

  ghost function Track<N, E>(w: World<N, E>, s: nat, r: RegId): World<N, E> {
    w.(tracked := w.tracked + {(s, r)})
  }

  ghost function TryRegister<N, E>(w: World<N, E>, r: RegId, a: Addr): (World<N, E>, Option<NodeId>)
    requires r < |w.regs| && Live(w.mem, a)
  {
    if !CanLink(w, r, a) then (w, None)
    else
      var (w', id) := AddNode(SetLink(w, a, Some(r)), r, a);
      (Track(w', w.mem[a].stamp, r), Some(id))
  }

  /** The nodes are the same, except that `a` is now linked to `r`. */
  ghost predicate LinkedOnly<N, E>(w: World<N, E>, w': World<N, E>, r: RegId, a: Addr)
    requires Live(w.mem, a)
  {
    && SameNodes(SetLink(w, a, Some(r)).mem, w'.mem)
    && w'.log == w.log && w'.handles == w.handles && w'.weaks == w.weaks
    && w'.tracked == w.tracked + {(w.mem[a].stamp, r)}
  }

  lemma LinkedOnlyLive<N, E>(w: World<N, E>, w': World<N, E>, r: RegId, a: Addr)
    requires Live(w.mem, a) && LinkedOnly(w, w', r, a)
    ensures |w'.mem| == |w.mem|
    ensures forall b: Addr :: Live(w'.mem, b) <==> Live(w.mem, b)
    ensures forall b: Addr :: Live(w.mem, b) ==> w'.mem[b].stamp == w.mem[b].stamp
    ensures forall b: Addr :: Live(w.mem, b) && b != a ==> w'.mem[b].inner == w.mem[b].inner
    ensures w'.mem[a].inner == Some(w.mem[a].inner.value.(link := Some(r)))
    ensures forall b: Addr :: b < |w'.mem| && w'.mem[b].Used? ==> w.mem[b].Used? && w.mem[b].stamp == w'.mem[b].stamp
  {
    var w1 := SetLink(w, a, Some(r));
    assert Live(w1.mem, a);
    forall b: Addr ensures Live(w'.mem, b) <==> Live(w.mem, b) {
      assert Live(w1.mem, b) <==> Live(w.mem, b);
    }
  }

  lemma TryRegisterCore<N, E>(w: World<N, E>, r: RegId, a: Addr)
    requires Inv(w) && r < |w.regs| && w.regs[r].open && Live(w.mem, a) && CanLink(w, r, a)
    ensures var (w', id) := TryRegister(w, r, a);
      && Core(w') && OutOk(w') && LinkedOnly(w, w', r, a)
      && id.Some? && Entered(w, w', r, a, id.value)
  {
    hide CountsOk, ShapeOk, OutSound, RegsOk, OutCompleteBut, SameNodes, TrackedOk;
    var w1 := SetLink(w, a, Some(r));
    SetLinkOut(w, a, Some(r));
    AddNodeCore(w1, r, a);
    var w2 := AddNode(w1, r, a).0;
    RetrackCore(w2, w2.tracked + {(w.mem[a].stamp, r)});
  }

  lemma TryRegisterTracked<N, E>(w: World<N, E>, r: RegId, a: Addr)
    requires Inv(w) && r < |w.regs| && w.regs[r].open && Live(w.mem, a) && CanLink(w, r, a)
    ensures TrackedOk(TryRegister(w, r, a).0)
  {
    hide CountsOk, NodeOk, OutSound, RegsOk, OutCompleteBut, TryRegister, LinkedOnly, Entered;
    TryRegisterCore(w, r, a);
    var (w', id) := TryRegister(w, r, a);
    LinkedOnlyLive(w, w', r, a);
    LinkedOnlyRest(w, w', r, a);
    forall t | t in w'.tracked
      ensures t.0 < |w'.log| && t.1 < |w'.regs|
      ensures forall b: Addr :: Live(w'.mem, b) && w'.mem[b].stamp == t.0 ==> w'.mem[b].inner.value.link == Some(t.1)
      ensures w'.regs[t.1].open ==> (LiveStamp(w'.mem, t.0) <==> Registered(w'.regs[t.1], t.0))
    {
      EnteredRegistered(w, w', r, a, id.value, if t in w.tracked then t.1 else r, t.0);
      LinkedLiveStamp(w, w', t.0);
      assert LiveStamp(w.mem, w.mem[a].stamp);
      forall b: Addr | Live(w'.mem, b) && w'.mem[b].stamp == t.0 ensures w'.mem[b].inner.value.link == Some(t.1) {
        assert Live(w.mem, b);
        if t !in w.tracked { assert b == a; }
      }
    }
  }

  lemma LinkedLiveStamp<N, E>(w: World<N, E>, w': World<N, E>, s: nat)
    requires forall b: Addr :: Live(w'.mem, b) <==> Live(w.mem, b)
    requires forall b: Addr :: Live(w.mem, b) && Live(w'.mem, b) ==> w'.mem[b].stamp == w.mem[b].stamp
    ensures LiveStamp(w'.mem, s) <==> LiveStamp(w.mem, s)
  {
    if LiveStamp(w.mem, s) {
      var a: Addr :| Live(w.mem, a) && w.mem[a].stamp == s;
      assert Live(w'.mem, a);
    }
  }

  lemma LinkedOnlyRest<N, E>(w: World<N, E>, w': World<N, E>, r: RegId, a: Addr)
    requires Live(w.mem, a) && LinkedOnly(w, w', r, a)
    ensures w'.log == w.log && w'.handles == w.handles && w'.weaks == w.weaks
    ensures w'.tracked == w.tracked + {(w.mem[a].stamp, r)}
  {
  }

  /** `try_register_in` fails exactly for a node linked to a different registry. On
      success the node is linked, and its id is the one it already had or a new one. */
  lemma TryRegisterInv<N, E>(w: World<N, E>, r: RegId, a: Addr)
    requires Inv(w) && r < |w.regs| && w.regs[r].open && Live(w.mem, a)
    ensures var (w', id) := TryRegister(w, r, a);
      && Inv(w')
      && (id.Some? <==> CanLink(w, r, a))
      && (id.None? ==> w' == w)
      && (id.Some? ==> LinkedOnly(w, w', r, a) && Entered(w, w', r, a, id.value))
  {
    hide Core, OutOk, TrackedOk, LinkedOnly, Entered, AddNode, SetLink, Track;
    if CanLink(w, r, a) {
      TryRegisterCore(w, r, a);
      TryRegisterTracked(w, r, a);
    }
  }

  // ----- remove, and registries coming and going -----

  /** `Registry::remove`, called by the user: the registration is undone. */
  ghost function Remove<N, E>(w: World<N, E>, r: RegId, id: NodeId): World<N, E>
    requires Core(w) && r < |w.regs|
  {
    if id !in w.regs[r].nodes then w
    else
      RemoveEntryReady(w, r, id);
      RemoveEntry(w, r, id).(tracked := w.tracked - {(w.regs[r].nodes[id].stamp, r)})
  }

  lemma RemoveCore<N, E>(w: World<N, E>, r: RegId, id: NodeId)
    requires Inv(w) && r < |w.regs| && id in w.regs[r].nodes
    ensures var w' := Remove(w, r, id);
      && Core(w') && OutOk(w') && SameNodes(w.mem, w'.mem)
      && w'.regs == TakeEntry(w, r, id).regs && w'.log == w.log && w'.handles == w.handles && w'.weaks == w.weaks
      && w'.tracked == w.tracked - {(w.regs[r].nodes[id].stamp, r)}
  {
    hide CountsOk, ShapeOk, OutSound, RegsOk, OutCompleteBut, SameNodes, TrackedOk, RemoveEntry;
    RemoveEntryReady(w, r, id);
    RemoveEntryInner(w, r, id);
    RetrackCore(RemoveEntry(w, r, id), w.tracked - {(w.regs[r].nodes[id].stamp, r)});
  }

  lemma RetrackCore<N, E>(w: World<N, E>, tracked: set<(nat, RegId)>)
    requires Core(w) && OutOk(w)
    ensures Core(w.(tracked := tracked)) && OutOk(w.(tracked := tracked))
  {
    hide AllStrong, AllWeak;
    RetrackRefs(w, tracked);
  }

  lemma RetrackRefs<N, E>(w: World<N, E>, tracked: set<(nat, RegId)>)
    ensures AllStrong(w.(tracked := tracked)) == AllStrong(w) && AllWeak(w.(tracked := tracked)) == AllWeak(w)
  {
  }

  lemma RemoveInv<N, E>(w: World<N, E>, r: RegId, id: NodeId)
    requires Inv(w) && r < |w.regs|
    ensures var w' := Remove(w, r, id);
      && Inv(w') && SameNodes(w.mem, w'.mem) && |w'.regs| == |w.regs|
      && w'.regs[r].nodes == w.regs[r].nodes - {id} && w'.regs[r].nextId == w.regs[r].nextId
      && forall q :: 0 <= q < |w.regs| && q != r ==> w'.regs[q] == w.regs[q]
  {
    hide CountsOk, ShapeOk, OutSound, RegsOk, OutCompleteBut, Remove;
    if id in w.regs[r].nodes {
      RemoveCore(w, r, id);
      var w' := Remove(w, r, id);
      forall t | t in w'.tracked
        ensures w'.regs[t.1].open ==> (LiveStamp(w'.mem, t.0) <==> Registered(w'.regs[t.1], t.0))
      {
        SameLiveStamp(w.mem, w'.mem, t.0);
        if t.1 == r {
          RegisteredStill(w.regs[r], w'.regs[r], w.regs[r].nodes[id].stamp, t.0);
        }
      }
      forall t, b: Addr | t in w'.tracked && Live(w'.mem, b) && w'.mem[b].stamp == t.0
        ensures w'.mem[b].inner.value.link == Some(t.1)
      {
        assert Live(w.mem, b);
      }
    } else {
      RemoveAbsent(w, r, id);
      SameNodesRefl(w.mem);
    }
  }

  /** Adding a node and removing it again restores everything, except that the id is used
      up and the registration is no longer tracked. */
  lemma AddThenRemove<N, E>(w: World<N, E>, r: RegId, a: Addr)
    requires Inv(w) && r < |w.regs| && w.regs[r].open && Live(w.mem, a) && !Registered(w.regs[r], w.mem[a].stamp)
    ensures var (w1, id) := AddNode(w, r, a);
      Inv(w1) && Remove(w1, r, id) == w.(regs := w.regs[r := w.regs[r].(nextId := id + 1)],
        tracked := w.tracked - {(w.mem[a].stamp, r)})
  {
    hide CountsOk, ShapeOk, OutSound, OutOk, TrackedOk, Registered, SameNodes;
    AddNodeInv(w, r, a);
    var (w1, id) := AddNode(w, r, a);
    NotListed(w, r, a);
    LiveIsStrong(w, a);
    RemoveEntryReady(w1, r, id);
    var reg, reg2 := w.regs[r], Remove(w1, r, id).regs[r];
    assert reg2.nodes == reg.nodes && reg2.ptrToId == reg.ptrToId;
    assert Remove(w1, r, id).mem == w.mem;
  }

  lemma NotListed<N, E>(w: World<N, E>, r: RegId, a: Addr)
    requires Inv(w) && r < |w.regs| && Live(w.mem, a) && !Registered(w.regs[r], w.mem[a].stamp)
    ensures a !in w.regs[r].ptrToId && w.regs[r].nextId !in w.regs[r].nodes
  {
    hide CountsOk, ShapeOk, OutSound, OutOk, TrackedOk, Registered;
    GetIdExact(w, r, a);
    assert RegOk(w.regs[r]);
  }

  lemma RemoveAbsent<N, E>(w: World<N, E>, r: RegId, id: NodeId)
    requires Core(w) && r < |w.regs| && id !in w.regs[r].nodes
    ensures Remove(w, r, id) == w
  {
  }

  ghost function NewRegistry<N, E>(w: World<N, E>): World<N, E> {
    w.(regs := w.regs + [Reg(true, map[], map[], 0)])
  }

  lemma NewRegistryRefs<N, E>(w: World<N, E>)
    ensures AllStrong(NewRegistry(w)) == AllStrong(w) && AllWeak(NewRegistry(w)) == AllWeak(w)
  {
    var none: map<NodeId, Weak> := map[];
    assert none.Values == {} && multiset(none.Values) == multiset{};
    assert NewRegistry(w).regs[|w.regs|].nodes == none;
    assert RegParts(NewRegistry(w).regs) == RegParts(w.regs) + [multiset{}];
    SumSnoc(RegParts(w.regs), multiset{});
  }

  lemma NewRegistryInv<N, E>(w: World<N, E>)
    requires Inv(w)
    ensures Inv(NewRegistry(w))
  {
    hide AllStrong, AllWeak, NodeOk;
    NewRegistryRefs(w);
    var w' := NewRegistry(w);
    forall r | 0 <= r < |w'.regs| ensures RegOk(w'.regs[r]) {
      if r < |w.regs| { assert RegOk(w.regs[r]); }
    }
  }

  /** The last `Rc` of a registry whose entries have all been dropped goes away. */
  ghost function CloseRegistry<N, E>(w: World<N, E>, r: RegId): World<N, E>
    requires r < |w.regs|
  {
    w.(regs := w.regs[r := w.regs[r].(open := false)])
  }

  lemma CloseRegistryRefs<N, E>(w: World<N, E>, r: RegId)
    requires r < |w.regs|
    ensures AllStrong(CloseRegistry(w, r)) == AllStrong(w) && AllWeak(CloseRegistry(w, r)) == AllWeak(w)
  {
    hide StrongHeld, WeakHeld, RegHeld;
    RegUpdate(w.regs, r, CloseRegistry(w, r).regs[r]);
  }

  lemma CloseRegistryInv<N, E>(w: World<N, E>, r: RegId)
    requires Inv(w) && r < |w.regs| && w.regs[r].nodes == map[]
    ensures Inv(CloseRegistry(w, r))
  {
    hide AllStrong, AllWeak, NodeOk;
    CloseRegistryRefs(w, r);
    var w' := CloseRegistry(w, r);
    forall q | 0 <= q < |w'.regs| ensures RegOk(w'.regs[q]) {
      assert RegOk(w.regs[q]);
    }
  }

  // ----- a registry made from given entries -----

  /** `from_slotmap`, given weak references that the caller owns. */
  ghost function RebuildRegistry<N, E>(w: World<N, E>, nodes: map<NodeId, Weak>, nextId: NodeId): World<N, E>
    requires EntriesOk(nodes, nextId)
  {
    w.(regs := w.regs + [FromSlotmap(nodes, nextId)], weaks := w.weaks - multiset(nodes.Values))
  }

  lemma RebuildRefs<N, E>(w: World<N, E>, nodes: map<NodeId, Weak>, nextId: NodeId)
    requires EntriesOk(nodes, nextId) && multiset(nodes.Values) <= w.weaks
    ensures AllStrong(RebuildRegistry(w, nodes, nextId)) == AllStrong(w)
    ensures AllWeak(RebuildRegistry(w, nodes, nextId)) == AllWeak(w)
  {
    hide StrongHeld, WeakHeld, FromSlotmap, RegHeld;
    RegHeldSnoc(w.regs, FromSlotmap(nodes, nextId));
    FromSlotmapNodes(nodes, nextId);
    assert w.weaks - multiset(nodes.Values) + multiset(nodes.Values) == w.weaks;
  }

  lemma RegHeldSnoc(regs: seq<Reg>, reg: Reg)
    ensures RegHeld(regs + [reg]) == RegHeld(regs) + multiset(reg.nodes.Values)
  {
    assert RegParts(regs + [reg]) == RegParts(regs) + [multiset(reg.nodes.Values)];
    SumSnoc(RegParts(regs), multiset(reg.nodes.Values));
  }

  lemma FromSlotmapNodes(nodes: map<NodeId, Weak>, nextId: NodeId)
    requires EntriesOk(nodes, nextId)
    ensures var reg := FromSlotmap(nodes, nextId); reg.nodes == nodes && reg.nextId == nextId && reg.open
  {
  }

  /** Rebuilding a registry keeps the invariant. */
  lemma RebuildInv<N, E>(w: World<N, E>, nodes: map<NodeId, Weak>, nextId: NodeId)
    requires Inv(w) && EntriesOk(nodes, nextId) && multiset(nodes.Values) <= w.weaks
    ensures Inv(RebuildRegistry(w, nodes, nextId))
  {
    hide AllStrong, AllWeak, NodeOk, FromSlotmap;
    RebuildRefs(w, nodes, nextId);
    FromSlotmapOk(nodes, nextId);
    var w' := RebuildRegistry(w, nodes, nextId);
    forall r | 0 <= r < |w'.regs| ensures RegOk(w'.regs[r]) {
      if r < |w.regs| { assert RegOk(w.regs[r]); }
    }
  }

  /** The address map of an existing registry is the one `from_slotmap` would build. */
  lemma RebuiltSame(reg: Reg)
    requires RegOk(reg) && reg.open
    ensures EntriesOk(reg.nodes, reg.nextId) && FromSlotmap(reg.nodes, reg.nextId) == reg
  {
    var reg' := FromSlotmap(reg.nodes, reg.nextId);
    forall a | a in reg.ptrToId ensures a in reg'.ptrToId && reg'.ptrToId[a] == reg.ptrToId[a] {
      assert reg.nodes[reg.ptrToId[a]].addr == a;
    }
    assert reg'.ptrToId == reg.ptrToId;
  }
}
