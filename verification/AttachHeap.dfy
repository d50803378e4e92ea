/** `RelRc::attach` on the heap (src/detached.rs:45-91). */
module AttachHeap {
  import opened Dag
  import opened HeapModel
  import opened HeapSteps
  import opened HeapOps
  import opened HeapRuns
  import opened HeapObject
  import opened HeapBuild
  import opened PostOrder
  import opened Detached
  import opened Attach

  // ----- every node that is created is an ancestor of the result -----

  /** The node created for a call has, for each edge of the table, the node created for that
      parent as its parent. */
  lemma BuiltEdge<N, E>(h: Hasher<N, E>, d: Arena<N, E>, d': Arena<N, E>, known: map<Hash, nat>, t: Table<N, E>,
                        calls: seq<Hash>,
                        m: nat, x: Hash) returns (m': nat)
    requires Built(h, d, d', known, t, calls) && m < |calls| && PostOrder.Edge(HashGraph(t, known.Keys), calls[m], x)
    ensures m' < m && calls[m'] == x && Ancestor(d', |d| + m', |d| + m)
  {
    hide HashOf, DataOf, WellFounded;
    assert BuiltNode(h, d, d', known, t, calls, m);
    var i := |d| + m;
    var k :| 0 <= k < |t[calls[m]].incoming| && ParentHashes(t[calls[m]])[k] == x;
    assert DataOf(h, d', i).incoming[k] == (HashOf(h, d', d'[i].incoming[k].0), d'[i].incoming[k].1);
    m' := d'[i].incoming[k].0 - |d|;
    assert BuiltNode(h, d, d', known, t, calls, m');
    ParentIsAncestor(d', i, k);
  }

  lemma {:induction false} BuiltReached<N, E>(h: Hasher<N, E>, d: Arena<N, E>, d': Arena<N, E>, known: map<Hash, nat>,
                                              t: Table<N, E>,
                                              calls: seq<Hash>, m: nat, v: Hash, n: nat) returns (m': nat)
    requires Built(h, d, d', known, t, calls) && m < |calls| && ReachIn(HashGraph(t, known.Keys), calls[m], v, n)
    ensures m' < |calls| && calls[m'] == v && Ancestor(d', |d| + m', |d| + m)
    decreases n
  {
    hide Built, Ancestor, HashGraph;
    BuiltSize(h, d, d', known, t, calls);
    if n == 0 {
      m' := m;
      assert Ancestor(d', |d| + m, |d| + m) by { SelfAncestor(d', |d| + m); }
    } else {
      var g := HashGraph(t, known.Keys);
      var x :| PostOrder.Edge(g, calls[m], x) && ReachIn(g, x, v, n - 1);
      var k := BuiltEdge(h, d, d', known, t, calls, m, x);
      m' := BuiltReached(h, d, d', known, t, calls, k, v, n - 1);
      AncestorTrans(d', |d| + m', |d| + k, |d| + m);
    }
  }

  lemma BuiltSize<N, E>(h: Hasher<N, E>, d: Arena<N, E>, d': Arena<N, E>, known: map<Hash, nat>, t: Table<N, E>,
                        calls: seq<Hash>)
    requires Built(h, d, d', known, t, calls)
    ensures WellFounded(d') && d <= d' && |d'| == |d| + |calls|
  {
  }

  /** All nodes that `attach` creates are ancestors of the node it returns. */
  lemma AllAncestors<N, E>(h: Hasher<N, E>, d: Arena<N, E>, d': Arena<N, E>, known: map<Hash, nat>, x: Object<N, E>,
                           calls: seq<Hash>, r: nat)
    requires Built(h, d, d', known, x.allData, calls) && Prelude.NoDup(calls) && |d| <= r < |d'|
    requires HashOf(h, d', r) == x.current
    requires forall v :: v in calls <==> Reach(HashGraph(x.allData, known.Keys), x.current, v)
    ensures forall i :: |d| <= i < |d'| ==> Ancestor(d', i, r)
  {
    hide HashOf, DataOf, HashGraph, Ancestor, WellFounded;
    var g, m := HashGraph(x.allData, known.Keys), r - |d|;
    assert BuiltNode(h, d, d', known, x.allData, calls, m);
    forall i | |d| <= i < |d'| ensures Ancestor(d', i, r) {
      var v := calls[i - |d|];
      assert v in calls;
      var n: nat :| ReachIn(g, calls[m], v, n);
      var m' := BuiltReached(h, d, d', known, x.allData, calls, m, v, n);
      assert m' == i - |d|;
    }
  }

  // ----- on the heap -----

  /** The nodes to attach to, by creation stamp. */
  function StampsAt<N, E>(mem: Memory<N, E>, nodes: seq<Addr>): (r: seq<nat>)
    requires forall j :: 0 <= j < |nodes| ==> nodes[j] < |mem| && mem[nodes[j]].Used?
    ensures |r| == |nodes| && forall j :: 0 <= j < |r| ==> r[j] == mem[nodes[j]].stamp
  {
    seq(|nodes|, j requires 0 <= j < |nodes| => mem[nodes[j]].stamp)
  }

  /** Where those nodes are. */
  method Places<N, E>(mem: Memory<N, E>, nodes: seq<Addr>) returns (place: map<nat, Addr>)
    requires forall j :: 0 <= j < |nodes| ==> Live(mem, nodes[j])
    ensures Located(mem, place) && place.Values <= Prelude.Elements(nodes)
    ensures forall j :: 0 <= j < |nodes| ==> Live(mem, nodes[j]) && mem[nodes[j]].stamp in place
  {
    place := map[];
    for i := 0 to |nodes|
      invariant Located(mem, place) && place.Values <= Prelude.Elements(nodes)
      invariant forall j :: 0 <= j < i ==> Live(mem, nodes[j]) && mem[nodes[j]].stamp in place
    {
      place := place[mem[nodes[i]].stamp := nodes[i]];
    }
  }

  /** A known parent is one of the nodes given. */
  lemma KnownFound<N, E>(h: Hasher<N, E>, d: Arena<N, E>, d': Arena<N, E>, ns: seq<nat>, x: Object<N, E>,
                         calls: seq<Hash>, place: map<nat, Addr>)
    requires WellFounded(d) && InRange(d, ns) && Built(h, d, d', Known(h, d, ns), x.allData, calls)
    requires forall j :: 0 <= j < |ns| ==> ns[j] in place
    ensures ParentsFound(d', |d|, place)
  {
    hide HashOf, DataOf, Known, Stands;
    KnownIsGiven(h, d, ns);
    forall i, k | |d| <= i < |d'| && 0 <= k < |d'[i].incoming| && d'[i].incoming[k].0 < |d|
      ensures d'[i].incoming[k].0 in place
    {
      assert BuiltNode(h, d, d', Known(h, d, ns), x.allData, calls, i - |d|);
    }
  }

  lemma KnownIsGiven<N, E>(h: Hasher<N, E>, d: Arena<N, E>, ns: seq<nat>)
    requires WellFounded(d) && InRange(d, ns)
    ensures forall k :: k in Known(h, d, ns) ==> Known(h, d, ns)[k] in ns
  {
    hide HashOf, HashesOf, Stands, Known;
    forall k | k in Known(h, d, ns) ensures Known(h, d, ns)[k] in ns {
      assert LastWith(h, d, ns, k, Known(h, d, ns)[k]);
    }
  }

  /** The program has handles to the nodes to attach to. */
  ghost predicate Given<N, E>(w: World<N, E>, nodes: seq<Addr>) {
    forall j :: 0 <= j < |nodes| ==> nodes[j] in w.handles && Live(w.mem, nodes[j]) && w.mem[nodes[j]].stamp < |w.log|
  }

  lemma HandlesGiven<N, E>(w: World<N, E>, nodes: seq<Addr>)
    requires Inv(w) && forall j :: 0 <= j < |nodes| ==> nodes[j] in w.handles
    ensures Given(w, nodes)
  {
    hide Inv;
    forall j | 0 <= j < |nodes| ensures Live(w.mem, nodes[j]) && w.mem[nodes[j]].stamp < |w.log| {
      OwnedStamp(w, nodes[j]);
    }
  }

  lemma GivenInRange<N, E>(w: World<N, E>, nodes: seq<Addr>)
    requires Given(w, nodes)
    ensures InRange(w.log, StampsAt(w.mem, nodes))
  {
  }

  /** One more handle to a node that is held already. */
  method HoldKnown<N, E>(heap: Heap<N, E>, root: Addr) returns (ghost ops: seq<Op<N, E>>)
    requires heap.Valid() && root in heap.handles
    modifies heap
    ensures heap.Valid() && heap.log == old(heap.log)
    ensures Live(heap.mem, root) && old(Live(heap.mem, root)) && heap.mem[root].stamp == old(heap.mem[root].stamp)
    ensures HeldThrough(old(heap.State()), heap.State(), root, heap.mem[root].stamp)
    ensures Runs(old(heap.State()), ops, heap.State()) && LinksAre(old(heap.State()), heap.State(), {}, 0)
    ensures heap.regs == old(heap.regs)
  {
    hide Inv, HeldThrough, SameNodes, Runs, LinksAre;
    ghost var w := heap.State();
    OwnedStamp(w, root);
    AddHandleInv(w, root);
    heap.Clone(root);
    ops := [Clone(root)];
    SameLinksAre(w, heap.State());
    SameHandles(w, heap.State());
    IsHeldThrough(w, heap.State(), root);
  }

  lemma SameLinksAre<N, E>(w: World<N, E>, w': World<N, E>)
    requires Inv(w) && SameNodes(w.mem, w'.mem) && w'.log == w.log
    ensures LinksAre(w, w', {}, 0)
  {
    hide Inv;
    forall b: Addr | Live(w'.mem, b) ensures w'.mem[b].stamp < |w.log| {
      assert Live(w.mem, b);
      StampBelow(w, b);
    }
  }

  lemma SameHandles<N, E>(w: World<N, E>, w': World<N, E>)
    requires Inv(w) && SameNodes(w.mem, w'.mem)
    ensures forall h :: h in w.handles ==> Live(w.mem, h) && Live(w'.mem, h) && w'.mem[h].stamp == w.mem[h].stamp
  {
    hide Inv;
    forall h | h in w.handles ensures Live(w.mem, h) { OwnedStamp(w, h); }
  }

  /** The new nodes are created, and all their handles but one are dropped. */
  method RealizeRoot<N, E>(heap: Heap<N, E>, d': Arena<N, E>, known: map<nat, Addr>, r: nat)
    returns (root: Addr, ghost ops: seq<Op<N, E>>)
    requires heap.Valid() && WellFounded(d') && heap.log <= d' && Located(heap.mem, known)
    requires ParentsFound(d', |heap.log|, known)
    requires |heap.log| <= r < |d'|
    modifies heap
    ensures heap.Valid() && heap.log == d' && HeldThrough(old(heap.State()), heap.State(), root, r)
    ensures heap.regs == old(heap.regs) && LinksAre(old(heap.State()), heap.State(), {}, 0)
    ensures Runs(old(heap.State()), ops, heap.State())
  {
    hide Inv, Realized, Located, ParentsFound, WellFounded, HeldThrough, Runs, LetGoOnly, Evolves, LinksAre, StillHolds;
    ghost var w := heap.State();
    var place; ghost var made;
    place, made := Realize(heap, d', known);
    ghost var w1 := heap.State();
    RunsInv(w, made, w1);
    PlacedRoot(w, w1, d', place, r);
    root := place[r];
    var others := ListOf(place.Values - {root});
    OthersLeft(w.handles, place.Values, root, others);
    ops := DropAll(heap, others);
    RunsInv(w1, ops, heap.State());
    LetGoLog(w1, heap.State());
    LogPrefix(w, w1, d', place);
    OldHandles(w, w1, heap.State(), d', place, root);
    OldUntouched(w, w1, heap.State(), d', place);
    RunsConcat(w, made, w1, ops, heap.State());
    ops := made + ops;
  }

  lemma OthersLeft(h: multiset<Addr>, all: set<Addr>, root: Addr, others: seq<Addr>)
    requires root in all && multiset(others) == multiset(all - {root})
    ensures multiset(others) <= h + multiset(all) && h + multiset(all) - multiset(others) == h + multiset{root}
    ensures h <= h + multiset{root}
  {
    assert all == {root} + (all - {root});
  }

  /** New nodes are not linked, and nothing has changed about old nodes and registries. */
  lemma OldUntouched<N, E>(w: World<N, E>, w1: World<N, E>, w2: World<N, E>, d: Arena<N, E>, place: map<nat, Addr>)
    requires Inv(w) && Inv(w1) && Inv(w2) && Evolves(w, w1) && Evolves(w1, w2) && w2.log == w1.log
    requires Realized(w, w1, d, |d|, place) && LetGoOnly(w1, w2) && w.handles <= w2.handles
    ensures w2.regs == w.regs && LinksAre(w, w2, {}, 0)
  {
    hide Inv, Evolves, Realized, StillHolds, LetGoOnly;
    RealizedHolds(w, w1, d, place);
    HoldsStill(w, w1, w2);
    RealizedRegs(w, w1, d, place);
    LetGoLog(w1, w2);
    forall r: RegId | r < |w.regs| ensures r < |w2.regs| && w2.regs[r] == w.regs[r] { OldRegStays(w, w1, w2, r); }
    LetGoUnrelinked(w1, w2);
    forall b: Addr | Live(w2.mem, b)
      ensures w2.mem[b].stamp < |w.log| ==> Unrelinked(w.mem, w2.mem, b)
      ensures |w.log| <= w2.mem[b].stamp ==> w2.mem[b].inner.value.link.None?
    {
      assert Unrelinked(w1.mem, w2.mem, b);
      RealizedLinks(w, w1, d, place, b);
    }
  }

  lemma PlacedRoot<N, E>(w: World<N, E>, w1: World<N, E>, d: Arena<N, E>, place: map<nat, Addr>, r: nat)
    requires Realized(w, w1, d, |d|, place) && |w.log| <= r < |d|
    ensures r in place && Live(w1.mem, place[r]) && w1.mem[place[r]].stamp == r && place[r] in place.Values
    ensures w1.handles == w.handles + multiset(place.Values) && w1.weaks == w.weaks
  {
  }

  /** `root` is the last of the given nodes whose hash is `k`. */
  ghost predicate LastGiven<N, E>(h: Hasher<N, E>, w: World<N, E>, nodes: seq<Addr>, k: Hash, root: Addr)
    requires WellFounded(w.log) && Given(w, nodes)
  {
    exists j :: 0 <= j < |nodes| && nodes[j] == root && HashOf(h, w.log, w.mem[nodes[j]].stamp) == k
      && forall m :: j < m < |nodes| ==> HashOf(h, w.log, w.mem[nodes[m]].stamp) != k
  }

  lemma IsLastGiven<N, E>(h: Hasher<N, E>, w: World<N, E>, nodes: seq<Addr>, k: Hash, r: nat, root: Addr)
    requires Inv(w) && WellFounded(w.log) && Given(w, nodes) && InRange(w.log, StampsAt(w.mem, nodes))
    requires LastWith(h, w.log, StampsAt(w.mem, nodes), k, r) && Live(w.mem, root) && w.mem[root].stamp == r
    ensures LastGiven(h, w, nodes, k, root)
  {
    hide Inv, HashOf, WellFounded;
    var ns := StampsAt(w.mem, nodes);
    var j :| 0 <= j < |ns| && ns[j] == r && HashOf(h, w.log, ns[j]) == k
      && forall m :: j < m < |ns| ==> HashOf(h, w.log, ns[m]) != k;
    if nodes[j] != root { DifferentStamps(w, nodes[j], root); }
    assert forall m :: j < m < |nodes| ==> ns[m] == w.mem[nodes[m]].stamp;
  }

  /** `attach`. The handle returned is the only new one, to a node with the hash of the
      object: the last one given with that hash, if there is one. Every node that was
      created is alive and held through it. No registry and no link has changed, and new
      nodes are not linked. */
  method AttachOnHeap<N(!new), E(!new)>(h: Hasher<N, E>, ghost s: Arena<N, E>, heap: Heap<N, E>, d: Arena<N, E>,
                                        x: Object<N, E>, nodes: seq<Addr>)
    returns (ok: bool, root: Addr, d': Arena<N, E>, ghost ops: seq<Op<N, E>>, ghost calls: seq<Hash>)
    requires GoodHash(h) && WellFounded(s) && Comes(h, s, x.allData)
    requires heap.Valid() && d == heap.log && WellFounded(d) && Given(heap.State(), nodes)
    requires InRange(d, StampsAt(heap.mem, nodes))
    modifies heap
    ensures heap.Valid()
    ensures ok <==> old(AttachOk(x, Known(h, d, StampsAt(heap.mem, nodes)).Keys))
    ensures ok ==> WellFounded(d') && heap.log == d' && Live(heap.mem, root) && heap.mem[root].stamp < |d'|
    ensures ok ==> HashOf(h, d', heap.mem[root].stamp) == x.current
    ensures ok && old(x.current in Known(h, d, StampsAt(heap.mem, nodes))) ==>
      d' == d && LastGiven(h, old(heap.State()), nodes, x.current, root)
    ensures ok && old(x.current !in Known(h, d, StampsAt(heap.mem, nodes))) ==>
      && Prelude.NoDup(calls) && Built(h, d, d', old(Known(h, d, StampsAt(heap.mem, nodes))), x.allData, calls)
      && old(forall v :: v in calls <==> Reach(HashGraph(x.allData, Known(h, d, StampsAt(heap.mem, nodes)).Keys),
        x.current, v))
    ensures ok ==> HeldThrough(old(heap.State()), heap.State(), root, heap.mem[root].stamp)
    ensures ok ==> heap.regs == old(heap.regs) && LinksAre(old(heap.State()), heap.State(), {}, 0)
    ensures ok ==> Runs(old(heap.State()), ops, heap.State())
    ensures ok ==> forall i :: |d| <= i < |d'| ==> LiveStamp(heap.mem, i) && Ancestor(d', i, heap.mem[root].stamp)
  {
    hide Inv, GoodHash, Comes, WellFounded, InRange, HashOf, Known, AttachOk, HeldThrough, LiveStamp, Ancestor,
         Located, Built, ParentsFound, Reach, Prelude.NoDup, LinksAre, Runs, LastWith, LastGiven;
    var ns := StampsAt(heap.mem, nodes);
    ghost var known := Known(h, d, ns);
    var place := Places(heap.mem, nodes);
    var r;
    ok, d', r, calls := AttachNode(h, s, d, x, ns);
    root, ops := 0, [];
    if !ok { return; }
    if r < |d| {
      KnownPlace(h, heap.State(), nodes, x.current, place);
      root := place[r];
      IsLastGiven(h, heap.State(), nodes, x.current, r, root);
      ops := HoldKnown(heap, root);
    } else {
      NotKnown(h, d, ns, x.current, r);
      KnownFound(h, d, d', ns, x, calls, place);
      root, ops := RealizeRoot(heap, d', place, r);
      AllAncestors(h, d, d', known, x, calls, r);
    }
    HeldAlive(old(heap.State()), heap.State(), root, r);
  }

  lemma HeldAlive<N, E>(w: World<N, E>, w': World<N, E>, root: Addr, i: nat)
    requires HeldThrough(w, w', root, i)
    ensures WellFounded(w'.log) && i < |w'.log| && Live(w'.mem, root) && w'.mem[root].stamp == i
    ensures forall s: nat :: Ancestor(w'.log, s, i) ==> LiveStamp(w'.mem, s)
  {
    hide Ancestor, LiveStamp;
  }

  lemma NotKnown<N, E>(h: Hasher<N, E>, d: Arena<N, E>, ns: seq<nat>, k: Hash, r: nat)
    requires WellFounded(d) && InRange(d, ns) && r >= |d| && (k in Known(h, d, ns) ==> r == Known(h, d, ns)[k])
    ensures k !in Known(h, d, ns)
  {
    hide Known, HashOf, HashesOf, Stands;
    if k in Known(h, d, ns) { StandsAt(h, d, Known(h, d, ns), k); }
  }

  lemma KnownPlace<N, E>(h: Hasher<N, E>, w: World<N, E>, nodes: seq<Addr>, k: Hash, place: map<nat, Addr>)
    requires Given(w, nodes) && WellFounded(w.log) && InRange(w.log, StampsAt(w.mem, nodes))
    requires k in Known(h, w.log, StampsAt(w.mem, nodes))
    requires Located(w.mem, place) && place.Values <= Prelude.Elements(nodes)
    requires forall j :: 0 <= j < |nodes| ==> w.mem[nodes[j]].stamp in place
    ensures var r := Known(h, w.log, StampsAt(w.mem, nodes))[k];
      r in place && place[r] in w.handles && Live(w.mem, place[r]) && w.mem[place[r]].stamp == r
  {
    hide Known, HashOf, HashesOf, Stands, WellFounded, InRange;
    var ns := StampsAt(w.mem, nodes);
    KnownIsGiven(h, w.log, ns);
    var r := Known(h, w.log, ns)[k];
    var j :| 0 <= j < |ns| && ns[j] == r;
    assert r in place && place[r] in place.Values;
    var i :| 0 <= i < |nodes| && nodes[i] == place[r];
  }
}
