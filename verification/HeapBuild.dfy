/** Nodes that are listed by creation order, brought to the heap, as deserializing and
    attaching do: each new node is created with clones of the handles of its parents, its
    own handle is put into a map, and at the end all handles but those asked for are
    dropped (src/serialization.rs:231-241, src/detached.rs:66-90). */
module HeapBuild {
  import opened Prelude
  import opened Dag
  import opened HeapModel
  import opened HeapSteps
  import opened HeapNew
  import opened HeapDrop
  import opened HeapOps
  import opened HeapRegistry
  import opened HeapRuns
  import opened HeapObject
  import opened HistoryObject

  /** `place` says where nodes are, by creation stamp. */
  ghost predicate Located<N, E>(mem: Memory<N, E>, place: map<nat, Addr>) {
    forall s :: s in place ==> Live(mem, place[s]) && mem[place[s]].stamp == s
  }

  /** Every node that was alive is where it was, with its value, parents and link. */
  ghost predicate OldKept<N, E>(m: Memory<N, E>, m': Memory<N, E>) {
    forall b: Addr :: Live(m, b) ==>
      && Live(m', b) && m'[b].stamp == m[b].stamp && m'[b].inner.value.link == m[b].inner.value.link
      && m'[b].inner.value.incoming == m[b].inner.value.incoming
  }

  lemma OldKeptTrans<N, E>(m: Memory<N, E>, m1: Memory<N, E>, m2: Memory<N, E>)
    requires OldKept(m, m1) && OldKept(m1, m2)
    ensures OldKept(m, m2)
  {
  }

  lemma SameNodesKept<N, E>(m: Memory<N, E>, m': Memory<N, E>)
    requires SameNodes(m, m')
    ensures OldKept(m, m')
  {
  }

  // ----- one node -----

  /** Clones of the handles of the parents. */
  method CloneAll<N, E>(heap: Heap<N, E>, parents: seq<(Addr, E)>) returns (ghost ops: seq<Op<N, E>>)
    requires heap.Valid() && AllLive(heap.mem, parents)
    modifies heap`mem, heap`handles
    ensures heap.Valid() && SameNodes(old(heap.mem), heap.mem)
    ensures heap.handles == old(heap.handles) + multiset(Addrs(parents))
    ensures Runs(old(heap.State()), ops, heap.State())
  {
    hide Inv, SameNodes, Addrs, Runs;
    ghost var w := heap.State();
    SameNodesRefl(w.mem);
    AddrsNone(parents);
    RunsNone(w);
    ops := [];
    for i := 0 to |parents|
      invariant heap.Valid() && SameNodes(w.mem, heap.mem) && Runs(w, ops, heap.State())
      invariant heap.handles == w.handles + multiset(Addrs(parents[..i]))
    {
      ghost var w1 := heap.State();
      LiveStill(w.mem, w1.mem, parents[i].0);
      AddHandleInv(w1, parents[i].0);
      heap.Clone(parents[i].0);
      RunsConcat(w, ops, w1, [Clone(parents[i].0)], heap.State());
      ops := ops + [Clone(parents[i].0)];
      SameNodesTrans(w.mem, w1.mem, heap.mem);
      AddrsNext(parents, i);
    }
    assert parents[..|parents|] == parents;
  }

  lemma LiveStill<N, E>(m: Memory<N, E>, m': Memory<N, E>, a: Addr)
    requires SameNodes(m, m')
    ensures Live(m, a) <==> Live(m', a)
  {
  }

  lemma AddrsNone<E>(parents: seq<(Addr, E)>)
    ensures multiset(Addrs(parents[..0])) == multiset{}
  {
    assert Addrs(parents[..0]) == [];
  }

  lemma AddrsNext<E>(parents: seq<(Addr, E)>, i: nat)
    requires i < |parents|
    ensures multiset(Addrs(parents[..i + 1])) == multiset(Addrs(parents[..i])) + multiset{parents[i].0}
  {
    assert Addrs(parents[..i + 1]) == Addrs(parents[..i]) + [parents[i].0];
  }

  /** `RelRc::with_parents(value, parents)` with cloned parents, at whatever address the
      allocator returns. */
  method MakeNode<N, E>(heap: Heap<N, E>, value: N, parents: seq<(Addr, E)>)
    returns (at: Addr, ghost ops: seq<Op<N, E>>)
    requires heap.Valid() && AllLive(heap.mem, parents)
    modifies heap
    ensures heap.Valid() && OldKept(old(heap.mem), heap.mem)
    ensures AllLive(old(heap.mem), parents) && heap.log == old(heap.log) + [Recorded(old(heap.mem), value, parents)]
    ensures Live(heap.mem, at) && heap.mem[at].stamp == |old(heap.log)| && heap.mem[at].inner.value.link == None
    ensures heap.handles == old(heap.handles) + multiset{at} && heap.weaks == old(heap.weaks)
    ensures heap.regs == old(heap.regs)
    ensures Runs(old(heap.State()), ops, heap.State())
  {
    hide Inv, SameNodes, Addrs, Recorded, OldKept, AllLive, Runs;
    ghost var w := heap.State();
    ops := CloneAll(heap, parents);
    ghost var w1 := heap.State();
    SameRecord(w.mem, w1.mem, value, parents);
    at := CreateSomewhere(heap, value, parents);
    RunsConcat(w, ops, w1, [Create(at, value, parents)], heap.State());
    ops := ops + [Create(at, value, parents)];
    SameNodesKept(w.mem, w1.mem);
    OldKeptTrans(w.mem, w1.mem, heap.mem);
    assert w.handles + multiset(Addrs(parents)) - multiset(Addrs(parents)) == w.handles;
  }

  predicate Available<N, E>(mem: Memory<N, E>, at: Addr) {
    at == |mem| || (at < |mem| && mem[at].Free?)
  }

  method CreateSomewhere<N, E>(heap: Heap<N, E>, value: N, parents: seq<(Addr, E)>) returns (at: Addr)
    requires heap.Valid() && multiset(Addrs(parents)) <= heap.handles
    modifies heap
    ensures heap.Valid() && OldKept(old(heap.mem), heap.mem)
    ensures AllLive(old(heap.mem), parents) && heap.log == old(heap.log) + [Recorded(old(heap.mem), value, parents)]
    ensures Live(heap.mem, at) && heap.mem[at].stamp == |old(heap.log)| && heap.mem[at].inner.value.link == None
    ensures heap.handles == old(heap.handles) - multiset(Addrs(parents)) + multiset{at}
    ensures heap.weaks == old(heap.weaks) && heap.regs == old(heap.regs)
    ensures Runs(old(heap.State()), [Create(at, value, parents)], heap.State())
  {
    hide Inv, Addrs, WithParents, Recorded, OldKept, Kept, AllLive, Runs;
    ghost var w := heap.State();
    assert Available(heap.mem, |heap.mem|);
    at :| 0 <= at <= |heap.mem| && Available(heap.mem, at);
    assert Available(w.mem, at) && CanAlloc(w, at);
    WithParentsEffect(w, at, value, parents);
    heap.WithParents(at, value, parents);
    CreatedKept(w, heap.State(), at);
  }

  lemma SameRecord<N, E>(m: Memory<N, E>, m': Memory<N, E>, value: N, parents: seq<(Addr, E)>)
    requires SameNodes(m, m') && AllLive(m, parents)
    ensures AllLive(m', parents) && Recorded(m', value, parents) == Recorded(m, value, parents)
  {
    assert AllLive(m', parents);
    assert Recorded(m', value, parents).incoming == Recorded(m, value, parents).incoming;
  }

  lemma CreatedKept<N, E>(w: World<N, E>, w': World<N, E>, at: Addr)
    requires forall a: Addr :: Live(w.mem, a) ==> Kept(w.mem, w'.mem, a)
    ensures OldKept(w.mem, w'.mem)
  {
  }

  // ----- all of them -----

  /** Every parent of a new node is new itself or at a known place. */
  ghost predicate ParentsFound<N, E>(d: Arena<N, E>, births: nat, known: map<nat, Addr>) {
    forall i, k :: births <= i < |d| && 0 <= k < |d[i].incoming| && d[i].incoming[k].0 < births ==>
      d[i].incoming[k].0 in known
  }

  /** The nodes of `d` up to `i` have been created on top of those of `w`. */
  ghost predicate Realized<N, E>(w: World<N, E>, w': World<N, E>, d: Arena<N, E>, i: nat, place: map<nat, Addr>) {
    && w.log <= d && |w.log| <= i <= |d| && w'.log == d[..i] && OldKept(w.mem, w'.mem) && w'.regs == w.regs
      && w'.weaks == w.weaks
    && NewPlaces(w'.mem, |w.log|, i, place) && w'.handles == w.handles + multiset(place.Values)
  }

  /** The nodes from `births` up to `i` are at these places and not linked to a registry. */
  ghost predicate NewPlaces<N, E>(mem: Memory<N, E>, births: nat, i: nat, place: map<nat, Addr>) {
    && (forall s :: s in place <==> births <= s < i)
    && Located(mem, place)
    && (forall s :: s in place ==> Unlinked(mem, place[s]))
  }

  ghost predicate Unlinked<N, E>(mem: Memory<N, E>, a: Addr) {
    Live(mem, a) && mem[a].inner.value.link == None
  }

  lemma RealizeNothing<N, E>(w: World<N, E>, d: Arena<N, E>)
    requires w.log <= d
    ensures Realized(w, w, d, |w.log|, map[])
  {
    var none: map<nat, Addr> := map[];
    assert none.Values == {} && d[..|w.log|] == w.log;
  }

  /** The parents of node `i`, where they are now. */
  function ParentsAt<N, E>(d: Arena<N, E>, i: nat, known: map<nat, Addr>): (r: seq<(Addr, E)>)
    requires i < |d| && forall k :: 0 <= k < |d[i].incoming| ==> d[i].incoming[k].0 in known
    ensures |r| == |d[i].incoming|
    ensures forall k :: 0 <= k < |r| ==> r[k] == (known[d[i].incoming[k].0], d[i].incoming[k].1)
  {
    seq(|d[i].incoming|, k requires 0 <= k < |d[i].incoming| => (known[d[i].incoming[k].0], d[i].incoming[k].1))
  }

  lemma ParentsReady<N, E>(w: World<N, E>, w': World<N, E>, d: Arena<N, E>, i: nat, known: map<nat, Addr>,
                           place: map<nat, Addr>)
    requires WellFounded(d) && i < |d| && ParentsFound(d, |w.log|, known) && Located(w.mem, known)
    requires Realized(w, w', d, i, place)
    ensures forall k :: 0 <= k < |d[i].incoming| ==> d[i].incoming[k].0 in known + place
    ensures AllLive(w'.mem, ParentsAt(d, i, known + place))
    ensures Recorded(w'.mem, d[i].value, ParentsAt(d, i, known + place)) == d[i]
  {
    var all := known + place;
    assert ParentsBefore(d[i], i);
    forall k | 0 <= k < |d[i].incoming|
      ensures d[i].incoming[k].0 in all && Live(w'.mem, all[d[i].incoming[k].0])
      ensures w'.mem[all[d[i].incoming[k].0]].stamp == d[i].incoming[k].0
    {
      var p := d[i].incoming[k].0;
      if p in place { assert all[p] == place[p]; } else { assert p in known && all[p] == known[p]; }
    }
    assert Recorded(w'.mem, d[i].value, ParentsAt(d, i, all)).incoming == d[i].incoming;
  }

  lemma RealizeNext<N, E>(w: World<N, E>, w1: World<N, E>, w2: World<N, E>, d: Arena<N, E>, i: nat,
                          place: map<nat, Addr>, at: Addr)
    requires Inv(w2) && Realized(w, w1, d, i, place) && i < |d| && OldKept(w1.mem, w2.mem) && w2.log == w1.log + [d[i]]
    requires w2.regs == w1.regs && w2.weaks == w1.weaks && w2.handles == w1.handles + multiset{at}
    requires Unlinked(w2.mem, at) && w2.mem[at].stamp == i
    ensures Realized(w, w2, d, i + 1, place[i := at])
  {
    hide Inv, OldKept, NewPlaces, Unlinked;
    assert d[..i + 1] == d[..i] + [d[i]];
    OldKeptTrans(w.mem, w1.mem, w2.mem);
    PlaceMore(w1.mem, w2.mem, |w.log|, place, i, at);
    ValuesMore(place, i, at);
  }

  lemma PlaceMore<N, E>(m1: Memory<N, E>, m2: Memory<N, E>, births: nat, place: map<nat, Addr>, i: nat, at: Addr)
    requires OldKept(m1, m2) && NewPlaces(m1, births, i, place) && births <= i && Unlinked(m2, at) && m2[at].stamp == i
    ensures NewPlaces(m2, births, i + 1, place[i := at]) && i !in place && forall s :: s in place ==> place[s] != at
  {
    forall s | s in place
      ensures Live(m2, place[s]) && m2[place[s]].stamp == s && m2[place[s]].inner.value.link == None && place[s] != at
    {
      assert Unlinked(m1, place[s]);
    }
  }

  lemma ValuesMore(place: map<nat, Addr>, i: nat, at: Addr)
    requires i !in place && forall s :: s in place ==> place[s] != at
    ensures multiset(place[i := at].Values) == multiset(place.Values) + multiset{at}
  {
    var place' := place[i := at];
    assert at !in place.Values;
    forall v | v in place.Values ensures v in place'.Values {
      var s :| s in place && place[s] == v;
      assert s in place' && place'[s] == v;
    }
    assert place'[i] == at;
    assert place'.Values == place.Values + {at};
  }

  /** All new nodes are created, in order; there is one new handle for each of them. */
  method Realize<N, E>(heap: Heap<N, E>, d: Arena<N, E>, known: map<nat, Addr>)
    returns (place: map<nat, Addr>, ghost ops: seq<Op<N, E>>)
    requires heap.Valid() && WellFounded(d) && heap.log <= d && Located(heap.mem, known)
    requires ParentsFound(d, |heap.log|, known)
    modifies heap
    ensures heap.Valid() && Realized(old(heap.State()), heap.State(), d, |d|, place)
    ensures Runs(old(heap.State()), ops, heap.State())
  {
    hide Inv, Realized, Located, ParentsFound, WellFounded, OldKept, AllLive, Recorded, Runs;
    ghost var w := heap.State();
    place, ops := map[], [];
    RunsNone(w);
    RealizeNothing(w, d);
    for i := heap.births to |d|
      invariant heap.Valid() && heap.births == i && Realized(w, heap.State(), d, i, place)
      invariant Runs(w, ops, heap.State())
    {
      ghost var w1 := heap.State();
      ParentsReady(w, w1, d, i, known, place);
      var at; ghost var more;
      at, more := MakeNode(heap, d[i].value, ParentsAt(d, i, known + place));
      RunsConcat(w, ops, w1, more, heap.State());
      ops := ops + more;
      LogLength(w, w1, d, i, place);
      RealizeNext(w, w1, heap.State(), d, i, place, at);
      place := place[i := at];
    }
  }

  lemma LogLength<N, E>(w: World<N, E>, w': World<N, E>, d: Arena<N, E>, i: nat, place: map<nat, Addr>)
    requires Realized(w, w', d, i, place)
    ensures |w'.log| == i
  {
  }

  // ----- letting go of handles, and what is alive then -----

  /** The elements of a set, each once. */
  method ListOf(xs: set<Addr>) returns (hs: seq<Addr>)
    ensures multiset(hs) == multiset(xs)
  {
    hs := [];
    var todo := xs;
    while todo != {}
      invariant todo <= xs && multiset(hs) == multiset(xs - todo)
    {
      var a :| a in todo;
      OneDone(xs, todo, a);
      hs := hs + [a];
      todo := todo - {a};
    }
    assert xs - {} == xs;
  }

  /** A handle still there after a run that creates nothing is a handle to the same node. */
  lemma StillThere<N, E>(w: World<N, E>, w': World<N, E>, h: Addr)
    requires Inv(w') && Evolves(w, w') && w'.log == w.log && h in w'.handles
    ensures Live(w.mem, h) && Live(w'.mem, h) && w'.mem[h].stamp == w.mem[h].stamp
    ensures w.mem[h].inner.value.link.Some? ==> w'.mem[h].inner.value.link == w.mem[h].inner.value.link
  {
    hide Inv, RegEvolves;
    OwnedStamp(w', h);
  }

  /** Only handles, and what was held by nothing else, are gone. */
  ghost predicate LetGoOnly<N, E>(w: World<N, E>, w': World<N, E>) {
    Shrinks(w, w') && w'.weaks == w.weaks
  }

  lemma LetGoTrans<N, E>(w: World<N, E>, w1: World<N, E>, w2: World<N, E>)
    requires Inv(w) && LetGoOnly(w, w1) && LetGoOnly(w1, w2)
    ensures LetGoOnly(w, w2)
  {
    hide Inv, Shrinks;
    InvStamps(w);
    ShrinksTrans(w, w1, w2);
  }

  lemma LetGoLog<N, E>(w: World<N, E>, w': World<N, E>)
    requires LetGoOnly(w, w')
    ensures w'.log == w.log && w'.weaks == w.weaks && |w'.regs| == |w.regs|
  {
  }

  method DropHandle<N, E>(heap: Heap<N, E>, a: Addr)
    requires heap.Valid() && a in heap.handles
    modifies heap
    ensures heap.Valid() && heap.handles == old(heap.handles) - multiset{a}
    ensures LetGoOnly(old(heap.State()), heap.State())
    ensures Runs(old(heap.State()), [Drop(a)], heap.State())
  {
    hide Inv, Release, Owns, Runs, Shrinks, Strongs, Looses;
    DropRuns(heap.State(), a);
    ReleaseInv(heap.State(), [Strong(a)]);
    OneStrong(a);
    heap.Drop(a);
  }

  method DropAll<N, E>(heap: Heap<N, E>, hs: seq<Addr>) returns (ghost ops: seq<Op<N, E>>)
    requires heap.Valid() && multiset(hs) <= heap.handles
    modifies heap
    ensures heap.Valid() && heap.handles == old(heap.handles) - multiset(hs)
    ensures LetGoOnly(old(heap.State()), heap.State())
    ensures Runs(old(heap.State()), ops, heap.State())
  {
    hide Inv, Runs, LetGoOnly;
    ghost var w := heap.State();
    RunsNone(w);
    LetNothingGo(w);
    ops := [];
    assert hs[0..] == hs && hs[..0] == [];
    for i := 0 to |hs|
      invariant heap.Valid() && LetGoOnly(w, heap.State())
      invariant multiset(hs[i..]) <= heap.handles && heap.handles == w.handles - multiset(hs[..i])
      invariant Runs(w, ops, heap.State())
    {
      ghost var w1 := heap.State();
      OneHandle(w.handles, hs, i);
      DropHandle(heap, hs[i]);
      LetGoTrans(w, w1, heap.State());
      RunsConcat(w, ops, w1, [Drop(hs[i])], heap.State());
      ops := ops + [Drop(hs[i])];
    }
    assert hs[..|hs|] == hs;
  }

  lemma LetNothingGo<N, E>(w: World<N, E>)
    ensures LetGoOnly(w, w)
  {
    ShrinksRefl(w);
  }

  lemma OneHandle(h: multiset<Addr>, hs: seq<Addr>, i: nat)
    requires i < |hs| && multiset(hs[i..]) <= h - multiset(hs[..i])
    ensures var h' := h - multiset(hs[..i]);
      hs[i] in h' && multiset(hs[i + 1..]) <= h' - multiset{hs[i]} && h' - multiset{hs[i]} == h - multiset(hs[..i + 1])
  {
    assert hs[i..] == [hs[i]] + hs[i + 1..] && hs[..i + 1] == hs[..i] + [hs[i]];
  }

  /** The only new handle is `root`, to node `i`, and what is alive now was alive before or
      is held through it. */
  ghost predicate HeldThrough<N, E>(w: World<N, E>, w': World<N, E>, root: Addr, i: nat) {
    && w.log <= w'.log && WellFounded(w'.log) && i < |w'.log|
    && w'.handles == w.handles + multiset{root} && w'.weaks == w.weaks && Live(w'.mem, root) && w'.mem[root].stamp == i
    && forall s: nat :: LiveStamp(w'.mem, s) <==> LiveStamp(w.mem, s) || Ancestor(w'.log, s, i)
  }

  lemma IsHeldThrough<N, E>(w: World<N, E>, w': World<N, E>, root: Addr)
    requires Inv(w) && Inv(w') && w.log <= w'.log && w'.handles == w.handles + multiset{root} && w'.weaks == w.weaks
    requires forall h :: h in w.handles ==> Live(w.mem, h) && Live(w'.mem, h) && w'.mem[h].stamp == w.mem[h].stamp
    requires Live(w'.mem, root)
    ensures HeldThrough(w, w', root, w'.mem[root].stamp)
  {
    hide Inv, LiveStamp, Ancestor;
    StampBelow(w', root);
    LogWellFounded(w);
    forall s: nat ensures LiveStamp(w'.mem, s) <==> LiveStamp(w.mem, s) || Ancestor(w'.log, s, w'.mem[root].stamp) {
      AliveIffHeld(w, s);
      AliveIffHeld(w', s);
      assert root in w'.handles;
      forall h | h in w.handles
        ensures h in w'.handles && w.mem[h].stamp < |w.log|
        ensures Ancestor(w'.log, s, w'.mem[h].stamp) <==> Ancestor(w.log, s, w.mem[h].stamp)
      {
        StampBelow(w, h);
        AncestorGrow(w.log, w'.log, s, w.mem[h].stamp);
      }
    }
  }

  lemma LogWellFounded<N, E>(w: World<N, E>)
    requires Inv(w)
    ensures WellFounded(w.log)
  {
    hide CountsOk, OutSound, RegsOk, TrackedOk, OutCompleteBut, NodeOk;
  }

  /** The handles from before are where they were. */
  lemma OldHandles<N, E>(w0: World<N, E>, w1: World<N, E>, w6: World<N, E>, d: Arena<N, E>, place: map<nat, Addr>,
                         root: Addr)
    requires Inv(w0) && Inv(w6) && Realized(w0, w1, d, |d|, place) && Evolves(w1, w6) && w6.log == w1.log
    requires w6.handles == w0.handles + multiset{root} && w6.weaks == w0.weaks && root in place.Values
    ensures root in w6.handles && Live(w1.mem, root) && Live(w6.mem, root)
    ensures w6.mem[root].stamp == w1.mem[root].stamp && HeldThrough(w0, w6, root, w1.mem[root].stamp)
  {
    hide Inv, Evolves, NewPlaces, HeldThrough;
    forall h | h in w0.handles ensures Live(w0.mem, h) && Live(w6.mem, h) && w6.mem[h].stamp == w0.mem[h].stamp {
      OwnedStamp(w0, h);
      StillThere(w1, w6, h);
    }
    StillThere(w1, w6, root);
    LogPrefix(w0, w1, d, place);
    IsHeldThrough(w0, w6, root);
  }

  lemma LogPrefix<N, E>(w0: World<N, E>, w1: World<N, E>, d: Arena<N, E>, place: map<nat, Addr>)
    requires Realized(w0, w1, d, |d|, place)
    ensures w1.log == d && w0.log <= d
  {
    assert d[..|d|] == d;
  }

  // ----- what is not touched -----

  /** The program still has the handles it had in `w`, to the same nodes. */
  ghost predicate StillHolds<N, E>(w: World<N, E>, w': World<N, E>) {
    && Inv(w) && Inv(w') && Evolves(w, w') && w.handles <= w'.handles
    && forall h :: h in w.handles ==> Live(w.mem, h) && Live(w'.mem, h) && w'.mem[h].stamp == w.mem[h].stamp
  }

  lemma HoldsStill<N, E>(w: World<N, E>, w1: World<N, E>, w2: World<N, E>)
    requires StillHolds(w, w1) && Inv(w2) && Evolves(w1, w2) && w2.log == w1.log && w.handles <= w2.handles
    ensures StillHolds(w, w2)
  {
    hide Inv, Evolves;
    EvolvesTrans(w, w1, w2);
    forall h | h in w.handles ensures Live(w2.mem, h) && w2.mem[h].stamp == w.mem[h].stamp {
      StillThere(w1, w2, h);
    }
  }

  /** What was alive then is alive now. */
  lemma OldAlive<N, E>(w: World<N, E>, w': World<N, E>, s: nat)
    requires StillHolds(w, w') && LiveStamp(w.mem, s)
    ensures LiveStamp(w'.mem, s)
  {
    hide Inv, LiveStamp, Ancestor, NodesEvolve, RegEvolves;
    LogWellFounded(w);
    LogWellFounded(w');
    AliveIffHeld(w, s);
    var h :| h in w.handles && Live(w.mem, h) && w.mem[h].stamp < |w.log| && Ancestor(w.log, s, w.mem[h].stamp);
    AncestorGrow(w.log, w'.log, s, w.mem[h].stamp);
    AliveIffHeld(w', s);
  }

  /** Entries of nodes from before stay when other handles are let go of. */
  lemma OldEntryStays<N, E>(w: World<N, E>, w1: World<N, E>, w2: World<N, E>, r: RegId, s: nat)
    requires StillHolds(w, w1) && StillHolds(w, w2) && s < |w.log|
    ensures !DiedIn(w1.mem, w2.mem, r, s)
  {
    hide StillHolds;
    HoldsEvolves(w, w1);
    if LiveStamp(w1.mem, s) {
      DeadStays(w, w1, s);
      OldAlive(w, w2, s);
    }
  }

  lemma HoldsEvolves<N, E>(w: World<N, E>, w': World<N, E>)
    requires StillHolds(w, w')
    ensures Inv(w) && Inv(w') && Evolves(w, w')
  {
    hide Inv, Evolves;
  }

  lemma SameReg(reg: Reg, reg': Reg)
    requires RegOk(reg) && RegOk(reg') && reg'.open == reg.open && reg'.nodes == reg.nodes && reg'.nextId == reg.nextId
    ensures reg' == reg
  {
    assert reg'.ptrToId == reg.ptrToId;
  }

  /** Registries from before are the same when other handles are let go of. */
  lemma OldRegStays<N, E>(w: World<N, E>, w1: World<N, E>, w2: World<N, E>, r: RegId)
    requires StillHolds(w, w1) && StillHolds(w, w2) && LetGoOnly(w1, w2) && r < |w.regs| && r < |w1.regs|
    requires w1.regs[r] == w.regs[r]
    ensures r < |w2.regs| && w2.regs[r] == w.regs[r]
  {
    hide StillHolds, Core, OutOk, TrackedOk, DiedIn;
    HoldsEvolves(w, w1);
    HoldsEvolves(w, w2);
    RegAt(w1, r);
    RegAt(w2, r);
    assert RegShrinks(r, w1.regs[r], w2.regs[r], w1.mem, w2.mem);
    forall id | id in w.regs[r].nodes ensures id in w2.regs[r].nodes {
      EntryStamp(w, r, id);
      OldEntryStays(w, w1, w2, r, w.regs[r].nodes[id].stamp);
    }
    assert w2.regs[r].nodes == w1.regs[r].nodes;
    SameReg(w1.regs[r], w2.regs[r]);
  }

  lemma RealizedRegs<N, E>(w: World<N, E>, w1: World<N, E>, d: Arena<N, E>, place: map<nat, Addr>)
    requires Realized(w, w1, d, |d|, place)
    ensures w1.regs == w.regs && w1.weaks == w.weaks
  {
  }

  lemma RealizedHolds<N, E>(w: World<N, E>, w1: World<N, E>, d: Arena<N, E>, place: map<nat, Addr>)
    requires Inv(w) && Inv(w1) && Evolves(w, w1) && Realized(w, w1, d, |d|, place)
    ensures StillHolds(w, w1)
  {
    hide Inv, Evolves, NewPlaces;
    forall h | h in w.handles ensures Live(w.mem, h) && Live(w1.mem, h) && w1.mem[h].stamp == w.mem[h].stamp {
      OwnedStamp(w, h);
    }
  }

  // ----- links -----

  /** If there is a node at `b` then it was there before, with the same link. */
  ghost predicate Unrelinked<N, E>(m: Memory<N, E>, m': Memory<N, E>, b: Addr) {
    Live(m', b) ==> Live(m, b) && m'[b].stamp == m[b].stamp && m'[b].inner.value.link == m[b].inner.value.link
  }

  lemma UnrelinkedTrans<N, E>(m: Memory<N, E>, m1: Memory<N, E>, m2: Memory<N, E>, b: Addr)
    requires Unrelinked(m, m1, b) && Unrelinked(m1, m2, b)
    ensures Unrelinked(m, m2, b)
  {
  }

  lemma SameUnrelinked<N, E>(m: Memory<N, E>, m': Memory<N, E>)
    requires SameNodes(m, m')
    ensures forall b: Addr :: Unrelinked(m, m', b)
  {
  }

  lemma LetGoUnrelinked<N, E>(w: World<N, E>, w': World<N, E>)
    requires LetGoOnly(w, w')
    ensures forall b: Addr :: Unrelinked(w.mem, w'.mem, b)
  {
  }

  /** Of the nodes there are now, those from before are linked as they were; of the new
      ones, those in `graph` are linked to `q` and the others to nothing. */
  ghost predicate LinksAre<N, E>(w: World<N, E>, w': World<N, E>, graph: set<nat>, q: RegId) {
    forall b: Addr :: Live(w'.mem, b) ==>
      if w'.mem[b].stamp < |w.log| then Unrelinked(w.mem, w'.mem, b)
      else w'.mem[b].inner.value.link == if w'.mem[b].stamp in graph then Some(q) else None
  }

  /** The nodes that were realized are unlinked, at their places, and the others as before. */
  lemma RealizedLinks<N, E>(w: World<N, E>, w1: World<N, E>, d: Arena<N, E>, place: map<nat, Addr>, b: Addr)
    requires Inv(w) && Inv(w1) && Evolves(w, w1) && Realized(w, w1, d, |d|, place) && Live(w1.mem, b)
    ensures w1.mem[b].stamp < |w.log| ==> Unrelinked(w.mem, w1.mem, b) && b !in place.Values
    ensures |w.log| <= w1.mem[b].stamp ==>
      w1.mem[b].stamp in place && place[w1.mem[b].stamp] == b && w1.mem[b].inner.value.link == None
  {
    hide Inv, RegEvolves;
    var t := w1.mem[b].stamp;
    StampBelow(w1, b);
    LogPrefix(w, w1, d, place);
    if |w.log| <= t {
      assert Unlinked(w1.mem, place[t]) && w1.mem[place[t]].stamp == t;
      if place[t] != b { DifferentStamps(w1, place[t], b); }
    }
  }

  // ----- registries -----

  /** A registry with given entries for live nodes. */
  method RebuildFrom<N, E>(heap: Heap<N, E>, ids: map<NodeId, Addr>, nextId: NodeId)
    returns (q: RegId, ghost ops: seq<Op<N, E>>)
    requires heap.Valid() && Injective(ids) && ValuesLive(heap.mem, ids) && forall id :: id in ids ==> id < nextId
    modifies heap`mem, heap`regs, heap`weaks
    ensures heap.Valid() && SameNodes(old(heap.mem), heap.mem) && heap.weaks == old(heap.weaks)
    ensures q == |old(heap.regs)| && |heap.regs| == q + 1 && heap.regs[..q] == old(heap.regs) && heap.regs[q].open
    ensures heap.regs[q].nextId == nextId && heap.regs[q].nodes.Keys == ids.Keys
    ensures forall id :: id in ids ==> heap.regs[q].nodes[id] == Weak(ids[id], heap.mem[ids[id]].stamp)
    ensures Runs(old(heap.State()), ops, heap.State()) && forall op :: op in ops ==> !op.RemoveId?
  {
    hide Inv, SameNodes, Runs, Injective, EntriesOk, FromSlotmap;
    var entries := map id | id in ids :: Weak(ids[id], heap.mem[ids[id]].stamp);
    EntriesFrom(heap.mem, ids, nextId, entries);
    ghost var m := heap.mem;
    q, ops := AddRegistry(heap, entries, nextId);
    EntriesStill(m, heap.mem, ids);
    FromSlotmapNodes(entries, nextId);
  }

  /** `from_slotmap` on new weak references. */
  method AddRegistry<N, E>(heap: Heap<N, E>, entries: map<NodeId, Weak>, nextId: NodeId)
    returns (q: RegId, ghost ops: seq<Op<N, E>>)
    requires heap.Valid() && EntriesOk(entries, nextId) && forall k :: k in entries.Values ==> Pinned(heap.mem, k)
    modifies heap`mem, heap`regs, heap`weaks
    ensures heap.Valid() && SameNodes(old(heap.mem), heap.mem) && heap.weaks == old(heap.weaks)
    ensures q == |old(heap.regs)| && heap.regs == old(heap.regs) + [FromSlotmap(entries, nextId)]
    ensures Runs(old(heap.State()), ops, heap.State()) && forall op :: op in ops ==> !op.RemoveId?
  {
    hide Inv, SameNodes, Runs, EntriesOk, FromSlotmap;
    ghost var w := heap.State();
    ops := heap.CloneWeaks(entries.Values);
    ghost var w1, last := heap.State(), Rebuild(entries, nextId);
    RebuildWith(w1, entries, nextId);
    q := |heap.regs|;
    heap.weaks := heap.weaks - multiset(entries.Values);
    heap.regs := heap.regs + [FromSlotmap(entries, nextId)];
    assert heap.weaks == w.weaks;
    RunsConcat(w, ops, w1, [last], heap.State());
    ops := ops + [last];
  }

  lemma EntriesFrom<N, E>(mem: Memory<N, E>, ids: map<NodeId, Addr>, nextId: NodeId, entries: map<NodeId, Weak>)
    requires Injective(ids) && ValuesLive(mem, ids) && (forall id :: id in ids ==> id < nextId)
    requires entries.Keys == ids.Keys
    requires forall id :: id in ids ==> entries[id] == Weak(ids[id], mem[ids[id]].stamp)
    ensures EntriesOk(entries, nextId) && forall k :: k in entries.Values ==> Pinned(mem, k)
  {
  }

  lemma EntriesStill<N, E>(m: Memory<N, E>, m': Memory<N, E>, ids: map<NodeId, Addr>)
    requires SameNodes(m, m') && ValuesLive(m, ids)
    ensures forall id :: id in ids ==> Live(m', ids[id]) && m'[ids[id]].stamp == m[ids[id]].stamp
  {
  }

  lemma RebuildWith<N, E>(w: World<N, E>, nodes: map<NodeId, Weak>, nextId: NodeId)
    requires Inv(w) && EntriesOk(nodes, nextId) && multiset(nodes.Values) <= w.weaks
    ensures Runs(w, [Rebuild(nodes, nextId)], RebuildRegistry(w, nodes, nextId))
    ensures Inv(RebuildRegistry(w, nodes, nextId))
  {
    hide Inv, Runs;
    RunsOne(w, Rebuild(nodes, nextId));
  }

  ghost predicate LinkedTo<N, E>(mem: Memory<N, E>, a: Addr, q: RegId) {
    Live(mem, a) && mem[a].inner.value.link == Some(q)
  }

  ghost predicate Linkable<N, E>(w: World<N, E>, q: RegId, a: Addr) {
    Live(w.mem, a) && CanLink(w, q, a)
  }

  lemma LinksGrew<N, E>(w: World<N, E>, w': World<N, E>, q: RegId, a: Addr)
    requires Grew(w, w', q)
    ensures LinkedTo(w.mem, a, q) ==> LinkedTo(w'.mem, a, q)
    ensures Linkable(w, q, a) ==> Linkable(w', q, a)
  {
    if Live(w.mem, a) { assert Live(w'.mem, a) && NodeGrew(w.mem, w'.mem, a, q); }
  }

  /** The node at `a` is alive in both or in none, with the same link. */
  ghost predicate SameLink<N, E>(m: Memory<N, E>, m': Memory<N, E>, a: Addr) {
    && (Live(m', a) <==> Live(m, a))
    && (Live(m, a) ==> m'[a].inner.value.link == m[a].inner.value.link)
  }

  lemma SameLinkRefl<N, E>(m: Memory<N, E>, a: Addr)
    ensures SameLink(m, m, a)
  {
  }

  lemma SameLinkTrans<N, E>(m: Memory<N, E>, m1: Memory<N, E>, m2: Memory<N, E>, a: Addr)
    requires SameLink(m, m1, a) && SameLink(m1, m2, a)
    ensures SameLink(m, m2, a)
  {
  }

  lemma OthersSameLink<N, E>(w: World<N, E>, w': World<N, E>, q: RegId, a: Addr, b: Addr)
    requires Inv(w) && q < |w.regs| && w.regs[q].open && Live(w.mem, a) && CanLink(w, q, a) && b != a
    requires w' == TryRegister(w, q, a).0
    ensures SameLink(w.mem, w'.mem, b)
  {
    hide Inv, TryRegister, LinkedOnly, Entered;
    TryRegisterInv(w, q, a);
    LinkedOnlyLive(w, w', q, a);
  }

  lemma RegistersMore<N, E>(w: World<N, E>, q: RegId, a: Addr)
    requires Inv(w) && q < |w.regs| && w.regs[q].open && Linkable(w, q, a)
    ensures var w' := TryRegister(w, q, a).0;
      && Inv(w') && Grew(w, w', q) && LinkedTo(w'.mem, a, q) && w'.handles == w.handles && w'.weaks == w.weaks
      && w'.log == w.log && |w'.regs| == |w.regs| && w'.regs[q].open
  {
    hide Inv, TryRegister;
    TryRegisterGrew(w, q, a);
  }

  /** `try_register_in` for each of some nodes that can be linked. */
  method RegisterAll<N, E>(heap: Heap<N, E>, q: RegId, addrs: set<Addr>) returns (ghost ops: seq<Op<N, E>>)
    requires heap.Valid() && q < |heap.regs| && heap.regs[q].open
    requires forall a :: a in addrs ==> Linkable(heap.State(), q, a)
    modifies heap`mem, heap`regs, heap`tracked
    ensures heap.Valid() && Grew(old(heap.State()), heap.State(), q) && |heap.regs| == |old(heap.regs)|
    ensures heap.regs[q].open
    ensures forall a :: a in addrs ==> LinkedTo(heap.mem, a, q)
    ensures forall a :: a !in addrs ==> SameLink(old(heap.mem), heap.mem, a)
    ensures Runs(old(heap.State()), ops, heap.State())
  {
    hide Inv, Runs, Grew, LinkedTo, Linkable, TryRegister, SameLink;
    ghost var w := heap.State();
    forall a { SameLinkRefl(w.mem, a); }
    RunsNone(w);
    GrewRefl(w, q);
    ops := [];
    var todo := addrs;
    while todo != {}
      invariant todo <= addrs && heap.Valid() && Grew(w, heap.State(), q) && |heap.regs| == |w.regs|
      invariant heap.regs[q].open
      invariant forall a :: a in todo ==> Linkable(heap.State(), q, a)
      invariant forall a :: a in addrs && a !in todo ==> LinkedTo(heap.mem, a, q)
      invariant forall a :: a !in addrs ==> SameLink(w.mem, heap.mem, a)
      invariant Runs(w, ops, heap.State())
    {
      var a :| a in todo;
      ghost var w1 := heap.State();
      LinkableLive(w1, q, a);
      RegistersMore(w1, q, a);
      RegisterRuns(w1, q, a);
      var id := heap.TryRegisterIn(q, a);
      GrewTrans(w, w1, heap.State(), q);
      RunsConcat(w, ops, w1, [Register(q, a)], heap.State());
      forall b: Addr | b !in addrs ensures SameLink(w.mem, heap.mem, b) {
        OthersSameLink(w1, heap.State(), q, a, b);
        SameLinkTrans(w.mem, w1.mem, heap.mem, b);
      }
      forall b: Addr
        ensures LinkedTo(w1.mem, b, q) ==> LinkedTo(heap.mem, b, q)
        ensures Linkable(w1, q, b) ==> Linkable(heap.State(), q, b)
      {
        LinksGrew(w1, heap.State(), q, b);
      }
      ops := ops + [Register(q, a)];
      todo := todo - {a};
    }
  }

  lemma LinkableLive<N, E>(w: World<N, E>, q: RegId, a: Addr)
    requires Linkable(w, q, a)
    ensures Live(w.mem, a) && CanLink(w, q, a)
  {
  }
}
