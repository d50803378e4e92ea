/** Inserting a node with its ancestors into a graph that is not closed under ancestors. */
module HistoryExamples {
  import opened HeapModel
  import opened HeapSteps
  import opened HeapNew
  import opened HeapRuns
  import opened HeapExamples
  import opened HistoryObject

  /** A new node with the node at `p` as its only parent. */
  lemma NewChild<N, E>(w: World<N, E>, p: Addr, v: N, e: E) returns (c: Addr, w': World<N, E>)
    requires Inv(w) && w.handles == multiset{p} && Live(w.mem, p)
    ensures Runs(w, [Create(c, v, [(p, e)])], w') && Inv(w') && w'.handles == multiset{c} && c != p && Live(w'.mem, c)
    ensures |w'.mem[c].inner.value.incoming| == 1 && w'.mem[c].inner.value.incoming[0].source == p
    ensures forall a: Addr :: Live(w.mem, a) ==> Kept(w.mem, w'.mem, a)
  {
    hide Inv, WithParents, Kept, Runs;
    c := |w.mem|;
    assert Addrs([(p, e)]) == [p];
    CreateEnabled(w, v, [(p, e)]);
    w' := Apply(w, Create(c, v, [(p, e)]));
    RunsOne(w, Create(c, v, [(p, e)]));
    WithParentsEffect(w, c, v, [(p, e)]);
  }

  lemma KeptParent<N, E>(m: Memory<N, E>, m': Memory<N, E>, a: Addr)
    requires Live(m, a) && Kept(m, m', a)
    ensures Live(m', a) && m'[a].inner.value.incoming == m[a].inner.value.incoming
  {
  }

  lemma ParentAnc<N, E>(w: World<N, E>, b: Addr, a: Addr, c: Addr)
    requires Inv(w) && Live(w.mem, a) && |w.mem[a].inner.value.incoming| == 1
    requires w.mem[a].inner.value.incoming[0].source == b && (c == b || AncAt(w, c, b)) && Live(w.mem, b)
    ensures AncAt(w, c, a)
  {
    hide Inv;
    AncStep(w, b, b);
    AncStep(w, c, a);
  }

  lemma OnlyParentInGraph<N, E>(w: World<N, E>, p: Addr, c: Addr)
    requires Inv(w) && Live(w.mem, c) && |w.mem[c].inner.value.incoming| == 1
    requires w.mem[c].inner.value.incoming[0].source == p
    ensures Added(w, {p}, {p, c}, c)
  {
    hide Inv, Fresh;
    forall b: Addr ensures Fresh(w, {p}, b, c) <==> b == c {
      FreshStep(w, {p}, b, c);
    }
  }

  /** A run after which there are a grandparent `g`, its child `p` and the child `c` of `p`:
      inserting `c` and its ancestors into a graph that holds `p` alone adds `c` but not
      `g`, although `g` is an ancestor of `c`. */
  lemma GrandparentLeftOut<N, E>(v: N, e: E) returns (g: Addr, p: Addr, c: Addr, ops: seq<Op<N, E>>, w: World<N, E>)
    ensures ops == [Create(g, v, []), Create(p, v, [(g, e)]), Create(c, v, [(p, e)])]
    ensures Runs(Empty<N, E>(), ops, w) && Inv(w)
    ensures AncAt(w, g, c) && g != p && g != c && Added(w, {p}, {p, c}, c)
  {
    hide Inv, Kept, Runs, AncAt, Added;
    var e0 := Empty<N, E>();
    g := 0;
    var w1 := Parent<N, E>(v);
    RunsOne(e0, Create(0, v, []));
    var w2, w3;
    p, w2 := NewChild(w1, g, v, e);
    KeptParent(w1.mem, w2.mem, g);
    c, w3 := NewChild(w2, p, v, e);
    KeptParent(w2.mem, w3.mem, g);
    KeptParent(w2.mem, w3.mem, p);
    ParentAnc(w3, g, p, g);
    ParentAnc(w3, p, c, g);
    OnlyParentInGraph(w3, p, c);
    OlderThanChild(w3, p, c);
    OlderThanChild(w3, g, p);
    RunsConcat(e0, [Create(g, v, [])], w1, [Create(p, v, [(g, e)])], w2);
    RunsConcat(e0, [Create(g, v, [])] + [Create(p, v, [(g, e)])], w2, [Create(c, v, [(p, e)])], w3);
    ops := [Create(g, v, [])] + [Create(p, v, [(g, e)])] + [Create(c, v, [(p, e)])];
    w := w3;
  }

  lemma OlderThanChild<N, E>(w: World<N, E>, p: Addr, c: Addr)
    requires Inv(w) && Live(w.mem, c) && |w.mem[c].inner.value.incoming| == 1
    requires w.mem[c].inner.value.incoming[0].source == p
    ensures Live(w.mem, p) && w.mem[p].stamp < w.mem[c].stamp
  {
    hide Inv;
    ParentOlder(w, c, 0);
  }
}
