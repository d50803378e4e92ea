/** Two concrete runs. */
module HeapExamples {
  import opened Prelude
  import opened Dag
  import opened HeapModel
  import opened HeapSteps
  import opened HeapNew
  import opened HeapDrop
  import opened HeapOps
  import opened HeapRegistry
  import opened HeapRuns
  import opened HeapTracked

  // ----- a parent without a handle -----

  lemma CreateEnabled<N, E>(w: World<N, E>, v: N, parents: seq<(Addr, E)>)
    requires multiset(Addrs(parents)) <= w.handles
    ensures Enabled(w, Create(|w.mem|, v, parents))
  {
  }

  lemma LegalCons<N, E>(w: World<N, E>, op: Op<N, E>, ops: seq<Op<N, E>>)
    requires Inv(w) && Enabled(w, op) && Inv(Apply(w, op)) && Legal(Apply(w, op), ops)
    ensures Legal(w, [op] + ops) && Exec(w, [op] + ops) == Exec(Apply(w, op), ops)
  {
    hide Inv, Apply, Enabled;
    assert ([op] + ops)[1..] == ops;
  }

  lemma Parent<N, E>(v: N) returns (w: World<N, E>)
    ensures Inv(Empty<N, E>()) && Enabled(Empty<N, E>(), Create(0, v, []))
    ensures w == Apply(Empty<N, E>(), Create(0, v, []))
    ensures Inv(w) && w.handles == multiset{0} && Live(w.mem, 0) && w.mem[0].stamp == 0 && |w.log| == 1
  {
    hide Inv, WithParents, Kept;
    EmptyInv<N, E>();
    var none: seq<(Addr, E)> := [];
    assert Addrs(none) == [];
    CreateEnabled(Empty<N, E>(), v, none);
    w := Apply(Empty<N, E>(), Create(0, v, []));
    WithParentsEffect(Empty<N, E>(), 0, v, []);
  }

  lemma Cloned<N, E>(w: World<N, E>) returns (w': World<N, E>)
    requires Inv(w) && w.handles == multiset{0} && Live(w.mem, 0) && w.mem[0].stamp == 0 && |w.log| == 1
    ensures Enabled(w, Clone(0)) && w' == Apply(w, Clone(0))
    ensures Inv(w') && w'.handles == multiset{0, 0} && Live(w'.mem, 0) && w'.mem[0].stamp == 0 && |w'.log| == 1
  {
    hide Inv;
    AddHandleInv(w, 0);
    w' := AddHandle(w, 0);
  }

  lemma Child<N, E>(w: World<N, E>, v: N, e: E) returns (c: Addr, w': World<N, E>)
    requires Inv(w) && w.handles == multiset{0, 0} && Live(w.mem, 0) && w.mem[0].stamp == 0 && |w.log| == 1
    ensures Enabled(w, Create(c, v, [(0, e)])) && w' == Apply(w, Create(c, v, [(0, e)]))
    ensures Inv(w') && w'.handles == multiset{0, c} && |w'.log| == 2 && w'.log[1].incoming == [(0, e)]
    ensures Live(w'.mem, c) && w'.mem[c].stamp == 1
  {
    hide Inv, WithParents, Kept, Recorded, EdgesFrom;
    c := |w.mem|;
    assert Addrs([(0, e)]) == [0];
    CreateEnabled(w, v, [(0, e)]);
    w' := Apply(w, Create(c, v, [(0, e)]));
    WithParentsEffect(w, c, v, [(0, e)]);
    assert Recorded(w.mem, v, [(0, e)]).incoming == [(0, e)];
  }

  lemma ParentDropped<N, E>(w: World<N, E>, c: Addr, e: E) returns (w': World<N, E>)
    requires Inv(w) && w.handles == multiset{0, c} && |w.log| == 2 && w.log[1].incoming == [(0, e)] && Live(w.mem, c)
    requires w.mem[c].stamp == 1
    ensures Enabled(w, Drop(0)) && w' == Apply(w, Drop(0))
    ensures Inv(w') && w'.handles == multiset{c} && LiveStamp(w'.mem, 0)
  {
    hide Inv, Release, Owns, LiveStamp;
    OwnsOne(w, 0);
    ReleaseInv(w, [Strong(0)]);
    w' := Apply(w, Drop(0));
    OneStrong(0);
    assert w'.handles == multiset{c};
    OwnedStamp(w', c);
    assert w'.mem[c].stamp == 1 && w'.log == w.log;
    LogFounded(w');
    ParentIsAncestor(w'.log, 1, 0);
    AliveIffHeld(w', 0);
  }

  lemma LogFounded<N, E>(w: World<N, E>)
    requires Inv(w)
    ensures WellFounded(w.log)
  {
    hide CountsOk, OutSound, RegsOk, TrackedOk, OutCompleteBut, NodeOk;
  }

  /** A run from the empty world in which a parent outlives its last handle, because its
      child is still held. */
  lemma ParentOutlivesHandle<N, E>(v: N, e: E) returns (c: Addr, ops: seq<Op<N, E>>)
    ensures ops == [Create(0, v, []), Clone(0), Create(c, v, [(0, e)]), Drop(0)]
    ensures Inv(Empty<N, E>()) && Legal(Empty<N, E>(), ops)
    ensures Exec(Empty<N, E>(), ops).handles == multiset{c} && LiveStamp(Exec(Empty<N, E>(), ops).mem, 0)
  {
    hide Inv, Apply, Enabled, Live;
    var w1 := Parent<N, E>(v);
    var w2 := Cloned(w1);
    var w3;
    c, w3 := Child(w2, v, e);
    var w4 := ParentDropped(w3, c, e);
    LegalCons(w3, Drop(0), []);
    LegalCons(w2, Create(c, v, [(0, e)]), [Drop(0)] + []);
    LegalCons(w1, Clone(0), [Create(c, v, [(0, e)])] + ([Drop(0)] + []));
    LegalCons(Empty<N, E>(), Create(0, v, []), [Clone(0)] + ([Create(c, v, [(0, e)])] + ([Drop(0)] + [])));
    ops := [Create(0, v, [])] + ([Clone(0)] + ([Create(c, v, [(0, e)])] + ([Drop(0)] + [])));
  }

  // ----- a link outlives its registry -----

  /** The node at address 0 is alive and linked as given. */
  ghost predicate NodeLinked<N, E>(w: World<N, E>, link: Option<RegId>) {
    Live(w.mem, 0) && w.mem[0].inner.value.link == link
  }

  lemma FirstNode<N, E>(v: N) returns (w: World<N, E>)
    ensures Inv(Empty<N, E>()) && Runs(Empty<N, E>(), [Create(0, v, [])], w)
    ensures Inv(w) && NodeLinked(w, None) && w.regs == []
  {
    hide Inv, WithParents, Kept, Runs;
    EmptyInv<N, E>();
    var none: seq<(Addr, E)> := [];
    assert Addrs(none) == [];
    CreateEnabled(Empty<N, E>(), v, none);
    w := Apply(Empty<N, E>(), Create(0, v, []));
    WithParentsEffect(Empty<N, E>(), 0, v, []);
    RunsOne(Empty<N, E>(), Create(0, v, []));
  }

  lemma Opened<N, E>(w: World<N, E>, link: Option<RegId>) returns (w': World<N, E>)
    requires Inv(w) && NodeLinked(w, link)
    ensures Runs(w, [OpenRegistry], w') && Inv(w') && NodeLinked(w', link)
    ensures w'.regs == w.regs + [Reg(true, map[], map[], 0)]
  {
    hide Inv, Runs;
    RunsOne(w, OpenRegistry);
    w' := NewRegistry(w);
  }

  lemma Linked<N, E>(w: World<N, E>) returns (w': World<N, E>)
    requires Inv(w) && NodeLinked(w, None) && w.regs == [Reg(true, map[], map[], 0)]
    ensures Runs(w, [Register(0, 0)], w') && Inv(w') && NodeLinked(w', Some(0))
    ensures |w'.regs| == 1 && w'.regs[0].nodes.Keys == {0} && w'.regs[0].open
  {
    hide Inv, Runs, TryRegister, LinkedOnly;
    RunsOne(w, Register(0, 0));
    TryRegisterInv(w, 0, 0);
    w' := TryRegister(w, 0, 0).0;
    LinkedOnlyLive(w, w', 0, 0);
    assert !Registered(w.regs[0], w.mem[0].stamp);
  }

  lemma EntryRemoved<N, E>(w: World<N, E>) returns (w': World<N, E>)
    requires Inv(w) && NodeLinked(w, Some(0)) && |w.regs| == 1 && w.regs[0].nodes.Keys == {0} && w.regs[0].open
    ensures Runs(w, [RemoveId(0, 0)], w') && Inv(w') && NodeLinked(w', Some(0)) && |w'.regs| == 1
    ensures w'.regs[0].nodes == map[]
  {
    hide Core, OutOk, TrackedOk, Runs, Remove;
    RunsOne(w, RemoveId(0, 0));
    RemoveInv(w, 0, 0);
    w' := Remove(w, 0, 0);
  }

  lemma RegistryClosed<N, E>(w: World<N, E>) returns (w': World<N, E>)
    requires Inv(w) && NodeLinked(w, Some(0)) && |w.regs| == 1 && w.regs[0].nodes == map[]
    ensures Runs(w, [CloseEmpty(0)], w') && Inv(w') && NodeLinked(w', Some(0)) && |w'.regs| == 1 && !w'.regs[0].open
  {
    hide Inv, Runs;
    RunsOne(w, CloseEmpty(0));
    w' := CloseRegistry(w, 0);
  }

  /** A run after which a node is refused by a registry although the only registry it was
      ever registered in is gone. */
  lemma RefusedForEver<N, E>(v: N) returns (ops: seq<Op<N, E>>, w: World<N, E>)
    ensures ops == [Create(0, v, []), OpenRegistry, Register(0, 0), RemoveId(0, 0), CloseEmpty(0), OpenRegistry]
    ensures Runs(Empty<N, E>(), ops, w) && Inv(w) && Live(w.mem, 0)
    ensures |w.regs| == 2 && !w.regs[0].open && w.regs[0].nodes == map[] && w.regs[1].open
    ensures TryRegister(w, 1, 0) == (w, None)
  {
    hide Inv, Runs;
    var e := Empty<N, E>();
    var w1 := FirstNode<N, E>(v);
    var w2 := Opened(w1, None);
    assert w2.regs == [Reg(true, map[], map[], 0)];
    var w3 := Linked(w2);
    var w4 := EntryRemoved(w3);
    var w5 := RegistryClosed(w4);
    w := Opened(w5, Some(0));
    RunsConcat(e, [Create(0, v, [])], w1, [OpenRegistry], w2);
    RunsConcat(e, [Create(0, v, [])] + [OpenRegistry], w2, [Register(0, 0)], w3);
    RunsConcat(e, [Create(0, v, [])] + [OpenRegistry] + [Register(0, 0)], w3, [RemoveId(0, 0)], w4);
    RunsConcat(e, [Create(0, v, [])] + [OpenRegistry] + [Register(0, 0)] + [RemoveId(0, 0)], w4, [CloseEmpty(0)], w5);
    RunsConcat(e, [Create(0, v, [])] + [OpenRegistry] + [Register(0, 0)] + [RemoveId(0, 0)] + [CloseEmpty(0)], w5,
      [OpenRegistry], w);
    ops := [Create(0, v, [])] + [OpenRegistry] + [Register(0, 0)] + [RemoveId(0, 0)] + [CloseEmpty(0)] + [OpenRegistry];
    ClosedHasNone(w, 0);
  }
}
