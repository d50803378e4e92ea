/** `RelRc::from_serialized` on the heap (src/serialization.rs:112-120, 145-148, 181-190):
    the nodes are created and named by a registry, those asked for are registered there as
    nodes of a graph, a handle to one of them is returned, and then the graph and with it
    the registry are dropped. */
module RelRcReading {
  import opened Prelude
  import opened Dag
  import opened HeapModel
  import opened HeapSteps
  import opened HeapDrop
  import opened HeapOps
  import opened HeapRegistry
  import opened HeapRuns
  import opened HeapObject
  import opened HistoryObject
  import opened HeapBuild
  import opened Deserialization
  import opened Serialization
  import opened RelRcSerialization

  lemma NewParents<N, E>(g: SerGraph<N, E>, base: Arena<N, E>, d: Arena<N, E>, reg: Ids, nodes: map<NodeId, nat>)
    requires ReadAs(g, base, d, reg, nodes)
    ensures base <= d && WellFounded(d) && ParentsFound(d, |base|, map[])
  {
    forall i, k | |base| <= i < |d| && 0 <= k < |d[i].incoming| ensures d[i].incoming[k].0 >= |base| {
      assert i in reg.nodes.Values;
      var id :| id in reg.nodes && reg.nodes[id] == i;
      assert NodeIs(g.table, reg.nodes, d, id);
    }
  }

  /** Where the rebuilt nodes are, by id. */
  function At(all: map<NodeId, nat>, place: map<nat, Addr>): (r: map<NodeId, Addr>)
    requires forall id :: id in all ==> all[id] in place
  {
    map id | id in all :: place[all[id]]
  }

  /** The rebuilt nodes are all the new ones, each under one id. */
  lemma ReadRange<N, E>(g: SerGraph<N, E>, base: Arena<N, E>, d: Arena<N, E>, reg: Ids, nodes: map<NodeId, nat>)
    requires ReadAs(g, base, d, reg, nodes)
    ensures forall x :: x in reg.nodes.Values <==> |base| <= x < |d|
    ensures forall i, j :: i in reg.nodes && j in reg.nodes && reg.nodes[i] == reg.nodes[j] ==> i == j
  {
    forall x | x in reg.nodes.Values ensures |base| <= x < |d| {
      var id :| id in reg.nodes && reg.nodes[id] == x;
      assert NodeIs(g.table, reg.nodes, d, id);
    }
  }

  lemma AtValues(all: map<NodeId, nat>, place: map<nat, Addr>)
    requires (forall i, j :: i in all && j in all && all[i] == all[j] ==> i == j)
    requires (forall s, t :: s in place && t in place && place[s] == place[t] ==> s == t)
    requires forall x :: x in all.Values <==> x in place
    ensures forall id :: id in all ==> all[id] in place
    ensures Injective(At(all, place)) && At(all, place).Values == place.Values
  {
    forall id | id in all ensures all[id] in place { assert all[id] in all.Values; }
    var at := At(all, place);
    forall v | v in place.Values ensures v in at.Values {
      var s :| s in place && place[s] == v;
      var id :| id in all && all[id] == s;
      assert at[id] == v;
    }
    forall v | v in at.Values ensures v in place.Values {
      var id :| id in at && at[id] == v;
    }
  }

  /** The new nodes by id: one address for each, and no other. */
  lemma AtAll<N, E>(w: World<N, E>, w1: World<N, E>, g: SerGraph<N, E>, d: Arena<N, E>, reg: Ids,
                    nodes: map<NodeId, nat>, place: map<nat, Addr>)
    requires ReadAs(g, w.log, d, reg, nodes) && Realized(w, w1, d, |d|, place)
    ensures forall id :: id in reg.nodes ==> reg.nodes[id] in place
    ensures var at := At(reg.nodes, place); Injective(at) && ValuesLive(w1.mem, at) && at.Values == place.Values
  {
    hide ReadAs, OldKept, Injective;
    ReadRange(g, w.log, d, reg, nodes);
    forall s, t | s in place && t in place && place[s] == place[t] ensures s == t {
      assert w1.mem[place[s]].stamp == s;
    }
    AtValues(reg.nodes, place);
  }

  /** All new nodes with handles, and a registry that names them. */
  method BuildAndName<N, E>(heap: Heap<N, E>, ghost g: SerGraph<N, E>, d: Arena<N, E>, reg: Ids,
                            ghost nodes: map<NodeId, nat>)
    returns (at: map<NodeId, Addr>, q: RegId,
             ghost w1: World<N, E>, ghost place: map<nat, Addr>, ghost made: seq<Op<N, E>>, ghost ops: seq<Op<N, E>>)
    requires heap.Valid() && ReadAs(g, heap.log, d, reg, nodes)
    modifies heap
    ensures heap.Valid() && Realized(old(heap.State()), w1, d, |d|, place) && Runs(old(heap.State()), made, w1)
    ensures Runs(w1, ops, heap.State())
    ensures SameNodes(w1.mem, heap.mem)
    ensures (forall id :: id in reg.nodes ==> reg.nodes[id] in place) && at == At(reg.nodes, place)
    ensures at.Values == place.Values
    ensures heap.log == w1.log && heap.handles == w1.handles && heap.weaks == w1.weaks
    ensures q == |w1.regs| && |heap.regs| == q + 1 && heap.regs[..q] == w1.regs && heap.regs[q].open
  {
    hide Inv, Realized, SameNodes, Runs, ReadAs, Injective, ValuesLive, ParentsFound, Located, WellFounded;
    ghost var w := heap.State();
    NewParents(g, heap.log, d, reg, nodes);
    NothingKnown(heap.mem);
    var p;
    p, made := Realize(heap, d, map[]);
    place, w1 := p, heap.State();
    AtAll(w, w1, g, d, reg, nodes, p);
    IssuedRead(g, w.log, d, reg, nodes);
    at := At(reg.nodes, p);
    q, ops := RebuildFrom(heap, at, reg.nextId);
  }

  lemma NothingKnown<N, E>(mem: Memory<N, E>)
    ensures Located(mem, map[])
  {
  }

  lemma IssuedRead<N, E>(g: SerGraph<N, E>, base: Arena<N, E>, d: Arena<N, E>, reg: Ids, nodes: map<NodeId, nat>)
    requires ReadAs(g, base, d, reg, nodes)
    ensures forall id :: id in reg.nodes ==> id < reg.nextId
  {
  }

  // ----- the graph -----

  /** `retain`: the addresses of the nodes of the graph. */
  function Chosen(at: map<NodeId, Addr>, ids: set<NodeId>): (r: set<Addr>)
    ensures forall a :: a in r <==> exists id :: id in ids && id in at && at[id] == a
  {
    set id | id in at && id in ids :: at[id]
  }

  lemma HandlesLeft(h: multiset<Addr>, all: set<Addr>, chosen: set<Addr>, others: seq<Addr>)
    requires chosen <= all && multiset(others) == multiset(all - chosen)
    ensures multiset(others) <= h + multiset(all) && h + multiset(all) - multiset(others) == h + multiset(chosen)
    ensures h <= h + multiset(chosen)
  {
    assert all == chosen + (all - chosen);
  }

  /** What is known of the nodes of the graph before they are registered. */
  lemma KeptLinkable<N, E>(w1: World<N, E>, w2: World<N, E>, w3: World<N, E>, q: RegId, place: map<nat, Addr>, a: Addr)
    requires Inv(w3) && SameNodes(w1.mem, w2.mem) && LetGoOnly(w2, w3) && a in w3.handles && a in place.Values
    requires forall s :: s in place ==> Unlinked(w1.mem, place[s])
    ensures Linkable(w3, q, a)
  {
    hide Inv;
    OwnedStamp(w3, a);
    var s :| s in place && place[s] == a;
    assert Unlinked(w1.mem, place[s]);
  }

  /** The node at `b`, if there is one, was there before; if it is one of `chosen` it is
      linked to `q` now, and if not then as it was. */
  ghost predicate LinkedIfChosen<N, E>(m: Memory<N, E>, m': Memory<N, E>, chosen: set<Addr>, q: RegId, b: Addr) {
    Live(m', b) ==>
      && Live(m, b) && m'[b].stamp == m[b].stamp
      && m'[b].inner.value.link == if b in chosen then Some(q) else m[b].inner.value.link
  }

  lemma RegisteredChosen<N, E>(w2: World<N, E>, w3: World<N, E>, w4: World<N, E>, chosen: set<Addr>, q: RegId)
    requires LetGoOnly(w2, w3) && Grew(w3, w4, q)
    requires forall a :: a in chosen ==> LinkedTo(w4.mem, a, q)
    requires forall a: Addr :: a !in chosen ==> SameLink(w3.mem, w4.mem, a)
    ensures forall b: Addr :: LinkedIfChosen(w2.mem, w4.mem, chosen, q, b)
  {
    hide RegShrinks;
    forall b: Addr | Live(w4.mem, b) ensures LinkedIfChosen(w2.mem, w4.mem, chosen, q, b) {
      assert Live(w3.mem, b) && NodeGrew(w3.mem, w4.mem, b, q);
      if b in chosen { assert LinkedTo(w4.mem, b, q); } else { assert SameLink(w3.mem, w4.mem, b); }
    }
  }

  /** The registries from before are all there, unchanged, and `q` is the only new one. */
  ghost predicate OneMore(regs: seq<Reg>, regs': seq<Reg>, q: RegId) {
    q == |regs| && |regs'| == q + 1 && regs'[..q] == regs
  }

  lemma OneMoreStays<N, E>(w: World<N, E>, w1: World<N, E>, w2: World<N, E>, q: RegId)
    requires StillHolds(w, w1) && StillHolds(w, w2) && LetGoOnly(w1, w2) && OneMore(w.regs, w1.regs, q)
    ensures OneMore(w.regs, w2.regs, q) && w2.regs[q].open == w1.regs[q].open && w2.log == w1.log
    ensures w2.weaks == w1.weaks
  {
    hide StillHolds;
    forall r: RegId | r < q ensures r < |w2.regs| && w2.regs[r] == w.regs[r] {
      assert w1.regs[r] == w1.regs[..q][r];
      OldRegStays(w, w1, w2, r);
    }
    assert RegShrinks(q, w1.regs[q], w2.regs[q], w1.mem, w2.mem);
  }

  lemma OneMoreGrew<N, E>(w: World<N, E>, w1: World<N, E>, w2: World<N, E>, q: RegId)
    requires OneMore(w.regs, w1.regs, q) && Grew(w1, w2, q)
    ensures OneMore(w.regs, w2.regs, q) && w2.regs[q].open == w1.regs[q].open && w2.log == w1.log
  {
    assert w2.regs[..q] == w1.regs[..q];
  }

  lemma RunHolds<N, E>(w: World<N, E>, w1: World<N, E>, ops: seq<Op<N, E>>, w2: World<N, E>)
    requires StillHolds(w, w1) && Runs(w1, ops, w2) && w2.log == w1.log && w.handles <= w2.handles
    ensures StillHolds(w, w2)
  {
    hide Inv, StillHolds, Runs, Evolves;
    RunsInv(w1, ops, w2);
    HoldsStill(w, w1, w2);
  }

  /** The handles of nodes that are not asked for are dropped. */
  method DropOthers<N, E>(heap: Heap<N, E>, at: map<NodeId, Addr>, q: RegId, ids: set<NodeId>,
                          ghost w0: World<N, E>, ghost w1: World<N, E>, ghost d: Arena<N, E>,
                          ghost place: map<nat, Addr>)
    returns (ghost ops: seq<Op<N, E>>)
    requires heap.Valid() && SameNodes(w1.mem, heap.mem) && OneMore(w0.regs, heap.regs, q)
    requires Realized(w0, w1, d, |d|, place) && at.Values == place.Values && heap.handles == w1.handles
    requires StillHolds(w0, heap.State())
    modifies heap
    ensures heap.Valid() && LetGoOnly(old(heap.State()), heap.State()) && StillHolds(w0, heap.State())
    ensures OneMore(w0.regs, heap.regs, q) && heap.regs[q].open == old(heap.regs[q].open)
    ensures heap.handles == w0.handles + multiset(Chosen(at, ids))
    ensures forall a :: a in Chosen(at, ids) ==> Linkable(heap.State(), q, a)
    ensures Runs(old(heap.State()), ops, heap.State())
  {
    hide Inv, SameNodes, Runs, Linkable, Chosen, Realized, LetGoOnly, StillHolds, OneMore;
    ghost var w2 := heap.State();
    var chosen := Chosen(at, ids);
    assert chosen <= at.Values;
    RealizedHandles(w0, w1, d, place);
    var others := ListOf(at.Values - chosen);
    HandlesLeft(w0.handles, at.Values, chosen, others);
    ops := DropAll(heap, others);
    ghost var w3 := heap.State();
    LetGoLog(w2, w3);
    RunHolds(w0, w2, ops, w3);
    OneMoreStays(w0, w2, w3, q);
    PlacesUnlinked(w0, w1, d, place);
    forall a | a in chosen ensures Linkable(w3, q, a) { KeptLinkable(w1, w2, w3, q, place, a); }
  }

  /** `retain`, and `HistoryGraph::new` on the nodes that are left. */
  method KeepAndRegister<N, E>(heap: Heap<N, E>, at: map<NodeId, Addr>, q: RegId, ids: set<NodeId>,
                               ghost w0: World<N, E>, ghost w1: World<N, E>, ghost d: Arena<N, E>,
                               ghost place: map<nat, Addr>)
    returns (ghost ops: seq<Op<N, E>>)
    requires heap.Valid() && SameNodes(w1.mem, heap.mem) && OneMore(w0.regs, heap.regs, q) && heap.regs[q].open
    requires Realized(w0, w1, d, |d|, place) && at.Values == place.Values && heap.handles == w1.handles
    requires StillHolds(w0, heap.State())
    modifies heap
    ensures heap.Valid() && heap.log == old(heap.log) && heap.weaks == old(heap.weaks) && StillHolds(w0, heap.State())
    ensures OneMore(w0.regs, heap.regs, q) && heap.regs[q].open
    ensures heap.handles == w0.handles + multiset(Chosen(at, ids))
    ensures forall b: Addr :: LinkedIfChosen(old(heap.mem), heap.mem, Chosen(at, ids), q, b)
    ensures Runs(old(heap.State()), ops, heap.State())
  {
    hide Inv, SameNodes, Runs, LinkedTo, Linkable, Chosen, Realized, LetGoOnly, Grew, StillHolds, OneMore, SameLink,
         LinkedIfChosen;
    ghost var w2 := heap.State();
    var chosen := Chosen(at, ids);
    ops := DropOthers(heap, at, q, ids, w0, w1, d, place);
    ghost var w3 := heap.State();
    LetGoLog(w2, w3);
    OneMoreIn(w0.regs, heap.regs, q);
    ghost var ops' := RegisterAll(heap, q, chosen);
    OneMoreGrew(w0, w3, heap.State(), q);
    RegisteredChosen(w2, w3, heap.State(), chosen, q);
    RunHolds(w0, w3, ops', heap.State());
    RunsConcat(w2, ops, w3, ops', heap.State());
    ops := ops + ops';
  }

  lemma OneMoreIn(regs: seq<Reg>, regs': seq<Reg>, q: RegId)
    requires OneMore(regs, regs', q)
    ensures q < |regs'|
  {
  }

  lemma RealizedHandles<N, E>(w: World<N, E>, w1: World<N, E>, d: Arena<N, E>, place: map<nat, Addr>)
    requires Realized(w, w1, d, |d|, place)
    ensures w1.handles == w.handles + multiset(place.Values)
  {
  }

  lemma PlacesUnlinked<N, E>(w: World<N, E>, w1: World<N, E>, d: Arena<N, E>, place: map<nat, Addr>)
    requires Realized(w, w1, d, |d|, place)
    ensures forall s :: s in place ==> Unlinked(w1.mem, place[s])
  {
  }

  // ----- the handle that is returned -----

  /** A handle to `root` is made, the graph is dropped, and then the registry. */
  method ReturnRoot<N, E>(heap: Heap<N, E>, root: Addr, chosen: set<Addr>, q: RegId, ghost w0: World<N, E>)
    returns (ghost ops: seq<Op<N, E>>)
    requires heap.Valid() && root in chosen && heap.handles == w0.handles + multiset(chosen)
    requires OneMore(w0.regs, heap.regs, q) && heap.regs[q].open && StillHolds(w0, heap.State())
    modifies heap
    ensures heap.Valid() && heap.log == old(heap.log) && heap.weaks == old(heap.weaks) && StillHolds(w0, heap.State())
    ensures heap.handles == w0.handles + multiset{root}
    ensures OneMore(w0.regs, heap.regs, q) && !heap.regs[q].open
    ensures forall b: Addr :: Unrelinked(old(heap.mem), heap.mem, b)
    ensures Runs(old(heap.State()), ops, heap.State())
  {
    hide Inv, SameNodes, Runs, LetGoOnly, StillHolds, OneMore, Unrelinked;
    ghost var w := heap.State();
    OneMoreIn(w0.regs, heap.regs, q);
    OwnedStamp(w, root);
    AddHandleInv(w, root);
    heap.Clone(root);
    ghost var w1 := heap.State();
    RunHolds(w0, w, [Clone(root)], w1);
    var hs := ListOf(chosen);
    assert heap.handles == w0.handles + multiset{root} + multiset(hs);
    ops := DropAll(heap, hs);
    ghost var w2 := heap.State();
    LetGoLog(w1, w2);
    RunHolds(w0, w1, ops, w2);
    OneMoreStays(w0, w1, w2, q);
    OneMoreIn(w0.regs, heap.regs, q);
    ghost var ops' := heap.DropRegistry(q);
    OneMoreClosed(w0.regs, w2.regs, heap.regs, q);
    RunHolds(w0, w2, ops', heap.State());
    ReturnLinks(w, w1, w2, heap.State());
    RunsConcat(w1, ops, w2, ops', heap.State());
    RunsConcat(w, [Clone(root)], w1, ops + ops', heap.State());
    ops := [Clone(root)] + (ops + ops');
  }

  lemma OneMoreClosed(regs: seq<Reg>, regs1: seq<Reg>, regs2: seq<Reg>, q: RegId)
    requires OneMore(regs, regs1, q) && |regs2| == |regs1|
    requires forall r :: 0 <= r < |regs2| && r != q ==> regs2[r] == regs1[r]
    ensures OneMore(regs, regs2, q)
  {
    assert regs2[..q] == regs1[..q];
  }

  lemma ReturnLinks<N, E>(w: World<N, E>, w1: World<N, E>, w2: World<N, E>, w3: World<N, E>)
    requires SameNodes(w.mem, w1.mem) && LetGoOnly(w1, w2) && SameNodes(w2.mem, w3.mem)
    ensures forall b: Addr :: Unrelinked(w.mem, w3.mem, b)
  {
    hide SameNodes, LetGoOnly, Unrelinked;
    SameUnrelinked(w.mem, w1.mem);
    LetGoUnrelinked(w1, w2);
    SameUnrelinked(w2.mem, w3.mem);
    forall b: Addr ensures Unrelinked(w.mem, w3.mem, b) {
      UnrelinkedTrans(w.mem, w1.mem, w2.mem, b);
      UnrelinkedTrans(w.mem, w2.mem, w3.mem, b);
    }
  }

  // ----- RelRc::from_serialized -----

  /** Which of the rebuilt nodes were chosen, by stamp. */
  lemma ChosenStamps<N, E>(g: SerGraph<N, E>, base: Arena<N, E>, d: Arena<N, E>, reg: Ids, nodes: map<NodeId, nat>,
                           place: map<nat, Addr>, t: nat)
    requires ReadAs(g, base, d, reg, nodes) && t in place
    requires forall id :: id in reg.nodes ==> reg.nodes[id] in place
    requires forall s, s' :: s in place && s' in place && place[s] == place[s'] ==> s == s'
    ensures place[t] in Chosen(At(reg.nodes, place), g.nodes) <==> t in nodes.Values
  {
    hide ReadAs;
    ReadIds(g, base, d, reg, nodes);
    var at := At(reg.nodes, place);
    if place[t] in Chosen(at, g.nodes) {
      var id :| id in g.nodes && id in at && at[id] == place[t];
      assert nodes[id] == t;
    }
    if t in nodes.Values {
      var id :| id in nodes && nodes[id] == t;
      assert at[id] == place[t];
    }
  }

  lemma PlacesDiffer<N, E>(w: World<N, E>, w1: World<N, E>, d: Arena<N, E>, place: map<nat, Addr>)
    requires Realized(w, w1, d, |d|, place)
    ensures forall s, s' :: s in place && s' in place && place[s] == place[s'] ==> s == s'
  {
    hide OldKept;
    forall s, s' | s in place && s' in place && place[s] == place[s'] ensures s == s' {
      assert w1.mem[place[s]].stamp == s && w1.mem[place[s']].stamp == s';
    }
  }

  /** Reading links the nodes of the graph to the new registry, and no others. */
  lemma ReadLinks<N, E>(w0: World<N, E>, w1: World<N, E>, w2: World<N, E>, w4: World<N, E>, w6: World<N, E>,
                        g: SerGraph<N, E>, d: Arena<N, E>, reg: Ids, nodes: map<NodeId, nat>, place: map<nat, Addr>,
                        q: RegId)
    requires Inv(w0) && Inv(w1) && Evolves(w0, w1)
    requires ReadAs(g, w0.log, d, reg, nodes) && Realized(w0, w1, d, |d|, place) && SameNodes(w1.mem, w2.mem)
    requires forall id :: id in reg.nodes ==> reg.nodes[id] in place
    requires forall b: Addr :: LinkedIfChosen(w2.mem, w4.mem, Chosen(At(reg.nodes, place), g.nodes), q, b)
    requires forall b: Addr :: Unrelinked(w4.mem, w6.mem, b)
    ensures LinksAre(w0, w6, nodes.Values, q)
  {
    hide Inv, Evolves, Realized, ReadAs, Chosen;
    var chosen := Chosen(At(reg.nodes, place), g.nodes);
    PlacesDiffer(w0, w1, d, place);
    forall b: Addr | Live(w6.mem, b)
      ensures Live(w1.mem, b) && w6.mem[b].stamp == w1.mem[b].stamp
      ensures w6.mem[b].stamp < |w0.log| ==> Unrelinked(w0.mem, w6.mem, b)
      ensures |w0.log| <= w6.mem[b].stamp ==>
        w6.mem[b].inner.value.link == if w6.mem[b].stamp in nodes.Values then Some(q) else None
    {
      assert Unrelinked(w4.mem, w6.mem, b) && LinkedIfChosen(w2.mem, w4.mem, chosen, q, b);
      RealizedLinks(w0, w1, d, place, b);
      if w1.mem[b].stamp < |w0.log| {
        ChosenPlaced(reg.nodes, place, g.nodes, b);
      } else {
        ChosenStamps(g, w0.log, d, reg, nodes, place, w1.mem[b].stamp);
      }
    }
  }

  lemma ChosenPlaced(all: map<NodeId, nat>, place: map<nat, Addr>, ids: set<NodeId>, b: Addr)
    requires forall id :: id in all ==> all[id] in place
    ensures b in Chosen(At(all, place), ids) ==> b in place.Values
  {
  }

  /** `RelRc::from_serialized`. It succeeds exactly if the graph can be read and contains the
      id. The handle returned is then the only new one, and every other new node that is
      alive is held through it. The registry that was made for the graph is gone; the nodes
      of the graph stay linked to it, the other new nodes are linked to nothing, and old
      nodes and registries are as they were. */
  method ReadOnHeap<N, E>(heap: Heap<N, E>, g: SerGraph<N, E>, id: NodeId, base: Arena<N, E>)
    returns (ok: bool, root: Addr, d: Arena<N, E>, ghost reg: Ids, ghost nodes: map<NodeId, nat>,
             ghost ops: seq<Op<N, E>>)
    requires heap.Valid() && base == heap.log && WellFounded(base) && forall n :: n in g.table ==> n < g.nextId
    modifies heap
    ensures heap.Valid()
    ensures ok <==> ParentClosed(g.table) && Acyclic(g.table) && g.nodes <= g.table.Keys && id in g.nodes
    ensures ok ==>
      && ReadAs(g, base, d, reg, nodes)
      && id in nodes
      && heap.log == d
      && HeldThrough(old(heap.State()), heap.State(), root, nodes[id])
    ensures ok ==> OneMore(old(heap.regs), heap.regs, |old(heap.regs)|) && !heap.regs[|old(heap.regs)|].open
    ensures ok ==> LinksAre(old(heap.State()), heap.State(), nodes.Values, |old(heap.regs)|)
    ensures ok ==> Runs(old(heap.State()), ops, heap.State())
  {
    hide Inv, Realized, SameNodes, Runs, ReadAs, LinkedTo, Evolves, HeldThrough, ParentClosed, Acyclic, Needed,
         ContainsId, HandlesIn, LinksAre, OneMore, StillHolds, Unrelinked, LinkedIfChosen;
    var good, d', reg', nodes' := ReadGraph(g, base);
    d, reg, nodes, root := d', reg', nodes', 0;
    ok := good && id in g.nodes;
    ops := [];
    if !ok { return; }
    ReadIds(g, base, d, reg, nodes);
    ghost var w0 := heap.State();
    var at, q; ghost var w1, place, s, t, u, m;
    at, q, w1, place, m, s := BuildAndName(heap, g, d', reg', nodes);
    RealizedRegs(w0, w1, d, place);
    RunsInv(w0, m, w1);
    RealizedHolds(w0, w1, d, place);
    RealizedHandles(w0, w1, d, place);
    ghost var w2 := heap.State();
    RunHolds(w0, w1, s, w2);
    IsOneMore(w0.regs, heap.regs, q);
    t := KeepAndRegister(heap, at, q, g.nodes, w0, w1, d, place);
    ghost var w4 := heap.State();
    root := at[id];
    assert root in Chosen(at, g.nodes);
    u := ReturnRoot(heap, root, Chosen(at, g.nodes), q, w0);
    ReadLinks(w0, w1, w2, w4, heap.State(), g, d, reg, nodes, place, q);
    RunsConcat(w1, s, w2, t, w4);
    RunsConcat(w1, s + t, w4, u, heap.State());
    RunsInv(w1, s + t + u, heap.State());
    LogPrefix(w0, w1, d, place);
    OldHandles(w0, w1, heap.State(), d, place, root);
    RootStamp(w0, w1, d, place, nodes[id]);
    RunsConcat(w0, m, w1, s + t + u, heap.State());
    ops := m + (s + t + u);
  }

  lemma IsOneMore(regs: seq<Reg>, regs': seq<Reg>, q: RegId)
    requires q == |regs| && |regs'| == q + 1 && regs'[..q] == regs
    ensures OneMore(regs, regs', q)
  {
  }

  lemma RootStamp<N, E>(w0: World<N, E>, w1: World<N, E>, d: Arena<N, E>, place: map<nat, Addr>, s: nat)
    requires Realized(w0, w1, d, |d|, place) && s in place
    ensures Live(w1.mem, place[s]) && w1.mem[place[s]].stamp == s
  {
  }

  /** The ancestors of a new node are new. */
  lemma {:induction false} NewAncestor<N, E>(g: SerGraph<N, E>, base: Arena<N, E>, d: Arena<N, E>, reg: Ids,
                                             nodes: map<NodeId, nat>, x: nat, i: nat)
    requires ReadAs(g, base, d, reg, nodes) && WellFounded(d) && |base| <= i < |d| && Ancestor(d, x, i)
    ensures |base| <= x < |d|
    decreases i
  {
    hide ReadAs;
    if x != i {
      var k :| 0 <= k < |d[i].incoming| && Ancestor(d, x, d[i].incoming[k].0);
      NewParents(g, base, d, reg, nodes);
      assert ParentsBefore(d[i], i);
      NewAncestor(g, base, d, reg, nodes, x, d[i].incoming[k].0);
    }
  }

  /** After reading, a rebuilt node can be registered elsewhere exactly if it is not in the
      graph, and written with another registry exactly if none of its ancestors is. */
  lemma RefusedIffInGraph<N, E>(w0: World<N, E>, w: World<N, E>, g: SerGraph<N, E>, reg: Ids, nodes: map<NodeId, nat>,
                                q: RegId, r: RegId, b: Addr)
    requires Inv(w) && ReadAs(g, w0.log, w.log, reg, nodes) && LinksAre(w0, w, nodes.Values, q) && r != q
    requires Live(w.mem, b) && |w0.log| <= w.mem[b].stamp < |w.log| && WellFounded(w.log)
    ensures CanLink(w, r, b) <==> w.mem[b].stamp !in nodes.Values
    ensures Insertable(w, r, {}, b) <==> forall x :: x in nodes.Values ==> !Ancestor(w.log, x, w.mem[b].stamp)
  {
    hide Inv, ReadAs, Fresh, Ancestor;
    forall a: Addr ensures Fresh(w, {}, a, b) <==> AncAt(w, a, b) { EmptyFresh(w, a, b); }
    forall a: Addr | AncAt(w, a, b) ensures CanLink(w, r, a) <==> w.mem[a].stamp !in nodes.Values {
      NewAncestor(g, w0.log, w.log, reg, nodes, w.mem[a].stamp, w.mem[b].stamp);
    }
    forall x | x in nodes.Values && Ancestor(w.log, x, w.mem[b].stamp)
      ensures exists a: Addr :: AncAt(w, a, b) && w.mem[a].stamp == x
    {
      AncestorsLive(w, b, x);
      var a: Addr :| Live(w.mem, a) && w.mem[a].stamp == x;
      assert AncAt(w, a, b);
    }
  }

  /** The node that `from_serialized` returns can never be written again with a registry
      from before: it is linked to the registry that is gone. */
  method WriteAfterRead<N, E>(heap: Heap<N, E>, g: SerGraph<N, E>, id: NodeId, base: Arena<N, E>, r: RegId)
    returns (ok: bool, again: Option<SerGraph<N, E>>)
    requires heap.Valid() && base == heap.log && WellFounded(base) && (forall n :: n in g.table ==> n < g.nextId)
    requires r < |heap.regs| && heap.regs[r].open
    modifies heap
    ensures heap.Valid()
    ensures ok <==> ParentClosed(g.table) && Acyclic(g.table) && g.nodes <= g.table.Keys && id in g.nodes
    ensures ok ==> again.None?
  {
    hide Inv, ReadAs, HeldThrough, ParentClosed, Acyclic, LinksAre, Insertable, RegistrySound, WrittenFor, Restored,
         Runs, WellFounded;
    again := None;
    var root, d; ghost var reg, nodes, ops;
    ok, root, d, reg, nodes, ops := ReadOnHeap(heap, g, id, base);
    if ok {
      RootRefused(old(heap.State()), heap.State(), g, reg, nodes, |old(heap.regs)|, r, root, id);
      OneMoreAt(old(heap.regs), heap.regs, r);
      var other;
      again, other := WriteRelRc(heap, r, root, d);
    }
  }

  lemma OneMoreAt(regs: seq<Reg>, regs': seq<Reg>, r: RegId)
    requires OneMore(regs, regs', |regs|) && r < |regs|
    ensures r < |regs'| && regs'[r] == regs[r]
  {
    assert regs'[r] == regs'[..|regs|][r];
  }

  lemma RootRefused<N, E>(w0: World<N, E>, w: World<N, E>, g: SerGraph<N, E>, reg: Ids, nodes: map<NodeId, nat>,
                          q: RegId, r: RegId, root: Addr, id: NodeId)
    requires Inv(w) && ReadAs(g, w0.log, w.log, reg, nodes) && LinksAre(w0, w, nodes.Values, q) && r != q && id in nodes
    requires HeldThrough(w0, w, root, nodes[id])
    ensures Live(w.mem, root) && !Insertable(w, r, {}, root)
  {
    hide Inv, ReadAs, LinksAre, Insertable, Fresh;
    ReadIds(g, w0.log, w.log, reg, nodes);
    ReadRange(g, w0.log, w.log, reg, nodes);
    assert reg.nodes[id] in reg.nodes.Values && nodes[id] in nodes.Values;
    RefusedIffInGraph(w0, w, g, reg, nodes, q, r, root);
    SelfAncestor(w.log, nodes[id]);
  }
}
