/** Inserting nodes into a `HistoryGraph` (src/history.rs:154-187). */
module HistoryObject {
  import opened Prelude
  import opened Dag
  import opened HeapModel
  import opened HeapSteps
  import opened HeapDrop
  import opened HeapOps
  import opened HeapRegistry
  import opened HeapRuns
  import opened HeapTracked
  import opened HeapObject
  import opened History

  // ----- what insertions do to the rest of the world -----

  ghost predicate NodeGrew<N, E>(m: Memory<N, E>, m': Memory<N, E>, b: Addr, r: RegId)
    requires Live(m, b) && Live(m', b)
  {
    var n, n' := m[b].inner.value, m'[b].inner.value;
    && m'[b].stamp == m[b].stamp
    && n' == n.(link := n'.link)
    && (n'.link == n.link || (n.link == None && n'.link == Some(r)))
  }

  /** The same nodes, some of them newly linked to `r`, and the same entries in all
      registries, with possibly more in `r`. */
  ghost predicate Grew<N, E>(w: World<N, E>, w': World<N, E>, r: RegId) {
    && |w'.mem| == |w.mem| && w'.log == w.log && |w'.regs| == |w.regs| && r < |w.regs|
    && (forall b: Addr :: Live(w'.mem, b) <==> Live(w.mem, b))
    && (forall b: Addr :: Live(w.mem, b) && Live(w'.mem, b) ==> NodeGrew(w.mem, w'.mem, b, r))
    && w'.regs[r].open == w.regs[r].open
    && (forall id :: id in w.regs[r].nodes ==> id in w'.regs[r].nodes && w'.regs[r].nodes[id] == w.regs[r].nodes[id])
    && (forall q :: 0 <= q < |w.regs| && q != r ==> w'.regs[q] == w.regs[q])
  }

  lemma GrewRefl<N, E>(w: World<N, E>, r: RegId)
    requires r < |w.regs|
    ensures Grew(w, w, r)
  {
  }

  lemma GrewTrans<N, E>(w: World<N, E>, w1: World<N, E>, w2: World<N, E>, r: RegId)
    requires Grew(w, w1, r) && Grew(w1, w2, r)
    ensures Grew(w, w2, r)
  {
    forall b: Addr | Live(w.mem, b) ensures Live(w2.mem, b) && NodeGrew(w.mem, w2.mem, b, r) {
      assert Live(w1.mem, b) && NodeGrew(w.mem, w1.mem, b, r) && NodeGrew(w1.mem, w2.mem, b, r);
    }
  }

  lemma SameNodesGrew<N, E>(w: World<N, E>, w': World<N, E>, r: RegId)
    requires SameNodes(w.mem, w'.mem) && w'.log == w.log && w'.regs == w.regs && r < |w.regs|
    ensures Grew(w, w', r)
  {
  }

  lemma RegisterGrew<N, E>(w: World<N, E>, w': World<N, E>, r: RegId, a: Addr, id: NodeId)
    requires RegsOk(w) && r < |w.regs| && Live(w.mem, a) && CanLink(w, r, a)
    requires LinkedOnly(w, w', r, a) && Entered(w, w', r, a, id)
    ensures Grew(w, w', r) && EntryOk(w', r, id, a)
  {
    hide LinkedOnly;
    LinkedOnlyLive(w, w', r, a);
    LinkedOnlyRest(w, w', r, a);
    assert RegOk(w.regs[r]);
  }

  lemma GraphGrew<N, E>(w: World<N, E>, w': World<N, E>, g: Graph)
    requires GraphOk(w, g) && Grew(w, w', g.reg)
    ensures GraphOk(w', g)
  {
    forall id | id in g.nodes ensures EntryOk(w', g.reg, id, g.nodes[id]) {
      assert EntryOk(w, g.reg, id, g.nodes[id]);
      assert NodeGrew(w.mem, w'.mem, g.nodes[id], g.reg);
    }
  }

  // ----- ancestors, by address -----

  ghost predicate AncAt<N, E>(w: World<N, E>, b: Addr, a: Addr) {
    && Live(w.mem, a) && Live(w.mem, b) && WellFounded(w.log) && w.mem[a].stamp < |w.log|
    && Ancestor(w.log, w.mem[b].stamp, w.mem[a].stamp)
  }

  lemma AncGrew<N, E>(w: World<N, E>, w': World<N, E>, r: RegId, b: Addr, a: Addr)
    requires Grew(w, w', r)
    ensures AncAt(w', b, a) <==> AncAt(w, b, a)
    ensures Live(w.mem, b) ==> (CanLink(w', r, b) <==> CanLink(w, r, b))
  {
    if Live(w.mem, a) { assert Live(w'.mem, a) && NodeGrew(w.mem, w'.mem, a, r); }
    if Live(w.mem, b) { assert Live(w'.mem, b) && NodeGrew(w.mem, w'.mem, b, r); }
  }

  /** An ancestor is the node itself or an ancestor of one of its parents. */
  lemma AncStep<N, E>(w: World<N, E>, b: Addr, a: Addr)
    requires Inv(w) && Live(w.mem, a)
    ensures AncAt(w, b, a) <==>
      || b == a
      || exists k :: 0 <= k < |w.mem[a].inner.value.incoming| && AncAt(w, b, w.mem[a].inner.value.incoming[k].source)
  {
    hide CountsOk, OutSound, RegsOk, OutOk, TrackedOk, NodeOk;
    StampBelow(w, a);
    var s, es := w.mem[a].stamp, w.mem[a].inner.value.incoming;
    NodeAt(w, a);
    SameLength(w, a);
    forall k | 0 <= k < |es|
      ensures Live(w.mem, es[k].source) && w.log[s].incoming[k].0 == w.mem[es[k].source].stamp
      ensures w.mem[es[k].source].stamp < |w.log|
    {
      EdgeAt(w.mem, w.log, a, k);
    }
    assert ParentsBefore(w.log[s], s);
    if AncAt(w, b, a) && b != a {
      assert w.mem[b].stamp != s;
      var k :| 0 <= k < |w.log[s].incoming| && Ancestor(w.log, w.mem[b].stamp, w.log[s].incoming[k].0);
      assert AncAt(w, b, es[k].source);
    }
    if exists k :: 0 <= k < |es| && AncAt(w, b, es[k].source) {
      var k :| 0 <= k < |es| && AncAt(w, b, es[k].source);
      assert Ancestor(w.log, w.mem[b].stamp, w.log[s].incoming[k].0);
    }
  }

  ghost predicate AncestorClosed<N, E>(w: World<N, E>, vals: set<Addr>) {
    forall a, k :: a in vals && Live(w.mem, a) && 0 <= k < |w.mem[a].inner.value.incoming| ==>
      w.mem[a].inner.value.incoming[k].source in vals
  }

  lemma {:induction false} ClosedHasAncestors<N, E>(w: World<N, E>, vals: set<Addr>, a: Addr, b: Addr)
    requires Inv(w) && AncestorClosed(w, vals) && a in vals && AncAt(w, b, a)
    ensures b in vals
    decreases w.mem[a].stamp
  {
    hide Inv;
    if b != a {
      AncStep(w, b, a);
      var k :| 0 <= k < |w.mem[a].inner.value.incoming| && AncAt(w, b, w.mem[a].inner.value.incoming[k].source);
      ParentOlder(w, a, k);
      ClosedHasAncestors(w, vals, w.mem[a].inner.value.incoming[k].source, b);
    }
  }

  lemma ParentOlder<N, E>(w: World<N, E>, a: Addr, k: nat)
    requires Inv(w) && Live(w.mem, a) && k < |w.mem[a].inner.value.incoming|
    ensures Live(w.mem, w.mem[a].inner.value.incoming[k].source)
    ensures w.mem[w.mem[a].inner.value.incoming[k].source].stamp < w.mem[a].stamp
  {
    hide CountsOk, OutSound, RegsOk, OutOk, TrackedOk, NodeOk;
    NodeAt(w, a);
    EdgeAt(w.mem, w.log, a, k);
    assert ParentsBefore(w.log[w.mem[a].stamp], w.mem[a].stamp);
  }

  lemma ClosedGrew<N, E>(w: World<N, E>, w': World<N, E>, r: RegId, vals: set<Addr>)
    requires Grew(w, w', r) && AncestorClosed(w, vals)
    ensures AncestorClosed(w', vals)
  {
    forall a: Addr, k | a in vals && Live(w'.mem, a) && 0 <= k < |w'.mem[a].inner.value.incoming|
      ensures w'.mem[a].inner.value.incoming[k].source in vals
    {
      assert Live(w.mem, a) && NodeGrew(w.mem, w'.mem, a, r);
    }
  }

  // ----- what an insertion adds -----

  ghost function Stamps<N, E>(w: World<N, E>, vals: set<Addr>): set<nat> {
    set b | b in vals && Live(w.mem, b) :: w.mem[b].stamp
  }

  /** `b` is `a`, or an ancestor of `a` by a path on which no node after `a` is in `vals`. */
  ghost predicate Fresh<N, E>(w: World<N, E>, vals: set<Addr>, b: Addr, a: Addr) {
    && Live(w.mem, a) && Live(w.mem, b) && WellFounded(w.log) && w.mem[a].stamp < |w.log|
    && Avoiding(w.log, Stamps(w, vals), w.mem[b].stamp, w.mem[a].stamp)
  }

  lemma StampIn<N, E>(w: World<N, E>, vals: set<Addr>, b: Addr)
    requires Inv(w) && Live(w.mem, b)
    ensures w.mem[b].stamp in Stamps(w, vals) <==> b in vals
  {
    hide CountsOk, OutSound, RegsOk, OutOk, TrackedOk, NodeOk;
  }

  lemma StampsGrew<N, E>(w: World<N, E>, w': World<N, E>, r: RegId, vals: set<Addr>)
    requires Grew(w, w', r)
    ensures Stamps(w', vals) == Stamps(w, vals)
  {
    forall b | b in vals && Live(w.mem, b) ensures Live(w'.mem, b) && w'.mem[b].stamp == w.mem[b].stamp {
      assert Live(w'.mem, b) && NodeGrew(w.mem, w'.mem, b, r);
    }
    forall s | s in Stamps(w, vals) ensures s in Stamps(w', vals) {
      var b :| b in vals && Live(w.mem, b) && w.mem[b].stamp == s;
      assert Live(w'.mem, b) && w'.mem[b].stamp == s;
    }
  }

  lemma FreshGrew<N, E>(w: World<N, E>, w': World<N, E>, r: RegId, vals: set<Addr>, b: Addr, a: Addr)
    requires Grew(w, w', r)
    ensures Fresh(w', vals, b, a) <==> Fresh(w, vals, b, a)
    ensures Live(w.mem, b) ==> Live(w'.mem, b) && (CanLink(w', r, b) <==> CanLink(w, r, b))
  {
    hide Stamps;
    StampsGrew(w, w', r, vals);
    if Live(w.mem, a) { assert Live(w'.mem, a) && NodeGrew(w.mem, w'.mem, a, r); }
    if Live(w.mem, b) { assert Live(w'.mem, b) && NodeGrew(w.mem, w'.mem, b, r); }
  }

  lemma FreshSelf<N, E>(w: World<N, E>, vals: set<Addr>, a: Addr)
    requires Inv(w) && Live(w.mem, a)
    ensures Fresh(w, vals, a, a)
  {
    hide Inv, Stamps;
    StampBelow(w, a);
  }

  lemma FreshTrans<N, E>(w: World<N, E>, vals: set<Addr>, b: Addr, c: Addr, a: Addr)
    requires Fresh(w, vals, c, a) && Fresh(w, vals, b, c)
    ensures Fresh(w, vals, b, a)
  {
    hide Stamps, Avoiding;
    AvoidingTrans(w.log, Stamps(w, vals), w.mem[b].stamp, w.mem[c].stamp, w.mem[a].stamp);
  }

  lemma FreshIsAncestor<N, E>(w: World<N, E>, vals: set<Addr>, b: Addr, a: Addr)
    requires Fresh(w, vals, b, a)
    ensures AncAt(w, b, a)
  {
    hide Stamps, Avoiding, Ancestor;
    AvoidingIsAncestor(w.log, Stamps(w, vals), w.mem[b].stamp, w.mem[a].stamp);
  }

  /** The parents of a live node, in memory and in the log. */
  lemma ParentStamp<N, E>(w: World<N, E>, a: Addr, k: nat)
    requires Inv(w) && Live(w.mem, a) && k < |w.mem[a].inner.value.incoming|
    ensures var s, p := w.mem[a].stamp, w.mem[a].inner.value.incoming[k].source;
      && Live(w.mem, p) && s < |w.log| && |w.log[s].incoming| == |w.mem[a].inner.value.incoming|
      && w.log[s].incoming[k].0 == w.mem[p].stamp && w.mem[p].stamp < s
  {
    hide CountsOk, OutSound, RegsOk, OutOk, TrackedOk, NodeOk;
    NodeAt(w, a);
    SameLength(w, a);
    EdgeAt(w.mem, w.log, a, k);
    assert ParentsBefore(w.log[w.mem[a].stamp], w.mem[a].stamp);
  }

  /** Reached through one of the first `k` parents of `a`. */
  ghost predicate FreshVia<N, E>(w: World<N, E>, vals: set<Addr>, b: Addr, a: Addr, k: nat) {
    Live(w.mem, a) && exists j :: 0 <= j < k && FreshBy(w, vals, b, a, j)
  }

  ghost predicate FreshBy<N, E>(w: World<N, E>, vals: set<Addr>, b: Addr, a: Addr, j: nat)
    requires Live(w.mem, a)
  {
    && j < |w.mem[a].inner.value.incoming| && w.mem[a].inner.value.incoming[j].source !in vals
    && Fresh(w, vals, b, w.mem[a].inner.value.incoming[j].source)
  }

  lemma FreshParent<N, E>(w: World<N, E>, vals: set<Addr>, b: Addr, a: Addr, k: nat)
    requires Inv(w) && Live(w.mem, a) && FreshBy(w, vals, b, a, k)
    ensures Fresh(w, vals, b, a)
  {
    hide Inv, Stamps;
    var p := w.mem[a].inner.value.incoming[k].source;
    ParentStamp(w, a, k);
    StampIn(w, vals, p);
    StampBelow(w, a);
    assert Avoiding(w.log, Stamps(w, vals), w.mem[b].stamp, w.log[w.mem[a].stamp].incoming[k].0);
  }

  /** A node is reached from `a` if it is `a` or reached through a parent of `a`. */
  lemma FreshStep<N, E>(w: World<N, E>, vals: set<Addr>, b: Addr, a: Addr)
    requires Inv(w) && Live(w.mem, a)
    ensures Fresh(w, vals, b, a) <==> b == a || FreshVia(w, vals, b, a, |w.mem[a].inner.value.incoming|)
  {
    hide Inv, Stamps, FreshBy;
    FreshSelf(w, vals, a);
    var n := |w.mem[a].inner.value.incoming|;
    if FreshVia(w, vals, b, a, n) {
      var j :| 0 <= j < n && FreshBy(w, vals, b, a, j);
      FreshParent(w, vals, b, a, j);
    }
    if Fresh(w, vals, b, a) && b != a {
      var k := FreshFirst(w, vals, b, a);
    }
  }

  lemma FreshFirst<N, E>(w: World<N, E>, vals: set<Addr>, b: Addr, a: Addr) returns (k: nat)
    requires Inv(w) && Fresh(w, vals, b, a) && b != a
    ensures k < |w.mem[a].inner.value.incoming| && FreshBy(w, vals, b, a, k)
  {
    hide Inv, Stamps;
    var s := w.mem[a].stamp;
    DifferentStamps(w, b, a);
    k :| 0 <= k < |w.log[s].incoming| && w.log[s].incoming[k].0 !in Stamps(w, vals)
      && Avoiding(w.log, Stamps(w, vals), w.mem[b].stamp, w.log[s].incoming[k].0);
    SameParents(w, a);
    ParentStamp(w, a, k);
    StampIn(w, vals, w.mem[a].inner.value.incoming[k].source);
  }

  lemma SameParents<N, E>(w: World<N, E>, a: Addr)
    requires Inv(w) && Live(w.mem, a)
    ensures w.mem[a].stamp < |w.log| && |w.mem[a].inner.value.incoming| == |w.log[w.mem[a].stamp].incoming|
  {
    hide CountsOk, OutSound, RegsOk, OutOk, TrackedOk, NodeOk;
    NodeAt(w, a);
    SameLength(w, a);
  }

  // ----- progress of the loop over the parents -----

  /** `vals'` is `vals` together with all nodes reached through the first `k` parents, and
      all of the added ones could be linked to `r`. */
  ghost predicate AddedVia<N, E>(w: World<N, E>, r: RegId, vals: set<Addr>, vals': set<Addr>, a: Addr, k: nat) {
    && vals <= vals'
    && (forall b :: b in vals' ==> b in vals || FreshVia(w, vals, b, a, k))
    && (forall b: Addr :: FreshVia(w, vals, b, a, k) ==>
          b in vals' && (b in vals || (Live(w.mem, b) && CanLink(w, r, b))))
  }

  /** Exactly when inserting `a` with its ancestors succeeds: every node reached from `a`
      without passing through the graph is in the graph or can be linked. */
  ghost predicate Insertable<N, E>(w: World<N, E>, r: RegId, vals: set<Addr>, a: Addr) {
    forall b: Addr :: Fresh(w, vals, b, a) && b !in vals ==> CanLink(w, r, b)
  }

  /** The nodes of the graph after that. */
  ghost predicate Added<N, E>(w: World<N, E>, vals: set<Addr>, vals': set<Addr>, a: Addr) {
    forall b: Addr :: b in vals' <==> b in vals || Fresh(w, vals, b, a)
  }

  lemma FreshViaNext<N, E>(w: World<N, E>, vals: set<Addr>, b: Addr, a: Addr, k: nat)
    requires Live(w.mem, a)
    ensures FreshVia(w, vals, b, a, k + 1) <==> FreshVia(w, vals, b, a, k) || FreshBy(w, vals, b, a, k)
  {
    hide FreshBy;
  }

  /** What lies behind a node added before has been added before. */
  lemma FreshBehind<N, E>(w: World<N, E>, vals: set<Addr>, b: Addr, c: Addr, a: Addr, k: nat)
    requires FreshVia(w, vals, c, a, k) && Fresh(w, vals, b, c)
    ensures FreshVia(w, vals, b, a, k)
  {
    hide Fresh;
    var j :| 0 <= j < k && FreshBy(w, vals, c, a, j);
    FreshTrans(w, vals, b, c, w.mem[a].inner.value.incoming[j].source);
    assert FreshBy(w, vals, b, a, j);
  }

  lemma FreshFewer<N, E>(w: World<N, E>, vals: set<Addr>, v1: set<Addr>, b: Addr, p: Addr)
    requires vals <= v1 && Fresh(w, v1, b, p)
    ensures Fresh(w, vals, b, p)
  {
    hide Avoiding;
    AvoidingFewer(w.log, Stamps(w, vals), Stamps(w, v1), w.mem[b].stamp, w.mem[p].stamp);
  }

  /** It makes no difference that nodes have been added in the meantime. */
  lemma FreshMeanwhile<N, E>(w: World<N, E>, r: RegId, vals: set<Addr>, v1: set<Addr>, a: Addr, k: nat, b: Addr,
                             p: Addr)
    requires Inv(w) && AddedVia(w, r, vals, v1, a, k) && Fresh(w, vals, b, p)
    ensures b in v1 || Fresh(w, v1, b, p)
  {
    hide Inv, Avoiding, FreshVia, CanLink;
    AvoidingMore(w.log, Stamps(w, vals), Stamps(w, v1), w.mem[b].stamp, w.mem[p].stamp);
    if !Fresh(w, v1, b, p) {
      var y :| y in Stamps(w, v1) && y !in Stamps(w, vals) && y < |w.log|
        && Avoiding(w.log, Stamps(w, vals), w.mem[b].stamp, y);
      var c :| c in v1 && Live(w.mem, c) && w.mem[c].stamp == y;
      assert Fresh(w, vals, b, c);
      FreshBehind(w, vals, b, c, a, k);
    }
  }

  lemma AddedStep<N, E>(w: World<N, E>, w1: World<N, E>, r: RegId, vals: set<Addr>, v1: set<Addr>, v2: set<Addr>,
                        a: Addr, k: nat)
    requires Inv(w) && Live(w.mem, a) && k < |w.mem[a].inner.value.incoming| && Grew(w, w1, r)
    requires AddedVia(w, r, vals, v1, a, k) && w.mem[a].inner.value.incoming[k].source !in v1
    requires Added(w1, v1, v2, w.mem[a].inner.value.incoming[k].source)
    requires Insertable(w1, r, v1, w.mem[a].inner.value.incoming[k].source)
    ensures AddedVia(w, r, vals, v2, a, k + 1)
  {
    hide Inv, Grew, Fresh, FreshVia, CanLink;
    var p := w.mem[a].inner.value.incoming[k].source;
    forall b: Addr
      ensures FreshVia(w, vals, b, a, k + 1) <==> FreshVia(w, vals, b, a, k) || Fresh(w, vals, b, p)
      ensures Fresh(w1, v1, b, p) <==> Fresh(w, v1, b, p)
      ensures Fresh(w, v1, b, p) ==> Fresh(w, vals, b, p) && Live(w.mem, b) && Live(w1.mem, b)
      ensures Fresh(w, v1, b, p) ==> (CanLink(w1, r, b) <==> CanLink(w, r, b))
      ensures Fresh(w, vals, b, p) ==> b in v1 || Fresh(w, v1, b, p)
    {
      FreshViaNext(w, vals, b, a, k);
      FreshGrew(w, w1, r, v1, b, p);
      if Fresh(w, v1, b, p) {
        FreshLive(w, v1, b, p);
        FreshFewer(w, vals, v1, b, p);
      }
      if Fresh(w, vals, b, p) { FreshMeanwhile(w, r, vals, v1, a, k, b, p); }
    }
  }

  lemma FreshLive<N, E>(w: World<N, E>, vals: set<Addr>, b: Addr, a: Addr)
    requires Fresh(w, vals, b, a)
    ensures Live(w.mem, a) && Live(w.mem, b)
  {
  }

  lemma AddedSkip<N, E>(w: World<N, E>, r: RegId, vals: set<Addr>, v1: set<Addr>, a: Addr, k: nat)
    requires Live(w.mem, a) && k < |w.mem[a].inner.value.incoming|
    requires AddedVia(w, r, vals, v1, a, k) && w.mem[a].inner.value.incoming[k].source in v1
    ensures AddedVia(w, r, vals, v1, a, k + 1)
  {
    hide Fresh, FreshVia, CanLink;
    var p := w.mem[a].inner.value.incoming[k].source;
    forall b: Addr ensures FreshVia(w, vals, b, a, k + 1) <==> FreshVia(w, vals, b, a, k) {
      FreshViaNext(w, vals, b, a, k);
      if FreshBy(w, vals, b, a, k) { FreshBehind(w, vals, b, p, a, k); }
    }
  }

  /** A parent that cannot be inserted makes the node impossible to insert. */
  lemma NotInsertable<N, E>(w: World<N, E>, w1: World<N, E>, r: RegId, vals: set<Addr>, v1: set<Addr>, a: Addr, k: nat)
    requires Inv(w) && Live(w.mem, a) && k < |w.mem[a].inner.value.incoming| && Grew(w, w1, r) && vals <= v1
    requires w.mem[a].inner.value.incoming[k].source !in v1
    requires !Insertable(w1, r, v1, w.mem[a].inner.value.incoming[k].source)
    ensures !Insertable(w, r, vals, a)
  {
    hide Inv, Grew, Stamps, Avoiding, CanLink;
    var p := w.mem[a].inner.value.incoming[k].source;
    var b: Addr :| Fresh(w1, v1, b, p) && b !in v1 && !CanLink(w1, r, b);
    FreshGrew(w, w1, r, v1, b, p);
    FreshLive(w, v1, b, p);
    FreshFewer(w, vals, v1, b, p);
    FreshParent(w, vals, b, a, k);
  }

  lemma AddedDone<N, E>(w: World<N, E>, r: RegId, vals: set<Addr>, v1: set<Addr>, a: Addr)
    requires Inv(w) && Live(w.mem, a) && AddedVia(w, r, vals, v1, a, |w.mem[a].inner.value.incoming|)
    requires a in vals || CanLink(w, r, a)
    ensures Added(w, vals, v1 + {a}, a) && Insertable(w, r, vals, a)
  {
    hide Inv, Fresh, FreshVia, CanLink;
    var n := |w.mem[a].inner.value.incoming|;
    forall b: Addr ensures Fresh(w, vals, b, a) <==> b == a || FreshVia(w, vals, b, a, n) {
      FreshStep(w, vals, b, a);
    }
  }

  lemma LastNotInsertable<N, E>(w: World<N, E>, r: RegId, vals: set<Addr>, a: Addr)
    requires Inv(w) && Live(w.mem, a) && a !in vals && !CanLink(w, r, a)
    ensures !Insertable(w, r, vals, a)
  {
    hide Inv;
    FreshSelf(w, vals, a);
  }

  // ----- graphs that are closed under ancestors -----

  /** From a graph closed under ancestors exactly the ancestors are missing. */
  lemma ClosedFresh<N, E>(w: World<N, E>, vals: set<Addr>, b: Addr, a: Addr)
    requires Inv(w) && AncestorClosed(w, vals) && b !in vals
    ensures Fresh(w, vals, b, a) <==> AncAt(w, b, a)
  {
    hide Inv, AncestorClosed;
    if Fresh(w, vals, b, a) { FreshIsAncestor(w, vals, b, a); }
    if AncAt(w, b, a) {
      StampIn(w, vals, b);
      forall y | y in Stamps(w, vals) && y < |w.log| ensures !Ancestor(w.log, w.mem[b].stamp, y) {
        var c :| c in vals && Live(w.mem, c) && w.mem[c].stamp == y;
        if AncAt(w, b, c) { ClosedHasAncestors(w, vals, c, b); }
      }
      AncestorAvoids(w.log, Stamps(w, vals), w.mem[b].stamp, w.mem[a].stamp);
    }
  }

  /** On a graph closed under ancestors an insertion adds exactly the ancestors, keeps the
      graph closed, and succeeds exactly if each ancestor is in the graph or can be linked. */
  lemma ClosedInsert<N, E>(w: World<N, E>, r: RegId, vals: set<Addr>, vals': set<Addr>, a: Addr)
    requires Inv(w) && AncestorClosed(w, vals)
    ensures Insertable(w, r, vals, a) <==> forall b: Addr :: AncAt(w, b, a) && b !in vals ==> CanLink(w, r, b)
    ensures Added(w, vals, vals', a) ==> forall b: Addr :: b in vals' <==> b in vals || AncAt(w, b, a)
    ensures Added(w, vals, vals', a) ==> AncestorClosed(w, vals')
  {
    hide Inv, Fresh, AncAt, CanLink, AncestorClosed;
    forall b: Addr ensures b !in vals ==> (Fresh(w, vals, b, a) <==> AncAt(w, b, a)) {
      if b !in vals { ClosedFresh(w, vals, b, a); }
    }
    forall b: Addr ensures AncAt(w, b, a) ==> Live(w.mem, b) { if AncAt(w, b, a) { AncLive(w, b, a); } }
    if Added(w, vals, vals', a) {
      forall b: Addr ensures Fresh(w, vals, b, a) && b in vals ==> b in vals' {
      }
      FreshAncestors(w, vals, a);
      AddedClosed(w, vals, vals', a);
    }
  }

  lemma AncLive<N, E>(w: World<N, E>, b: Addr, a: Addr)
    requires AncAt(w, b, a)
    ensures Live(w.mem, b) && Live(w.mem, a)
  {
  }

  lemma FreshAncestors<N, E>(w: World<N, E>, vals: set<Addr>, a: Addr)
    ensures forall b: Addr :: Fresh(w, vals, b, a) ==> AncAt(w, b, a)
  {
    hide Fresh, AncAt;
    forall b: Addr | Fresh(w, vals, b, a) ensures AncAt(w, b, a) { FreshIsAncestor(w, vals, b, a); }
  }

  lemma AddedClosed<N, E>(w: World<N, E>, vals: set<Addr>, vals': set<Addr>, a: Addr)
    requires Inv(w) && AncestorClosed(w, vals) && Added(w, vals, vals', a)
    ensures AncestorClosed(w, vals')
  {
    hide Inv, Fresh;
    forall b: Addr, k | b in vals' && Live(w.mem, b) && 0 <= k < |w.mem[b].inner.value.incoming|
      ensures w.mem[b].inner.value.incoming[k].source in vals'
    {
      var p := w.mem[b].inner.value.incoming[k].source;
      if b !in vals && p !in vals {
        ParentStamp(w, b, k);
        FreshSelf(w, vals, p);
        FreshParent(w, vals, p, b, k);
        FreshTrans(w, vals, p, b, a);
      }
    }
  }

  /** Into an empty graph, all ancestors. */
  lemma EmptyFresh<N, E>(w: World<N, E>, b: Addr, a: Addr)
    requires Inv(w)
    ensures Fresh(w, {}, b, a) <==> AncAt(w, b, a)
  {
    hide Inv;
    ClosedFresh(w, {}, b, a);
  }

  lemma AddedEmpty<N, E>(w: World<N, E>, vals: set<Addr>, a: Addr)
    requires Inv(w) && Added(w, {}, vals, a)
    ensures forall b: Addr :: b in vals <==> AncAt(w, b, a)
  {
    hide Inv, Fresh, AncAt;
    forall b: Addr ensures Fresh(w, {}, b, a) <==> AncAt(w, b, a) { EmptyFresh(w, b, a); }
  }

  lemma MoreHandles(a: set<Addr>, b: set<Addr>, c: set<Addr>)
    requires a <= b <= c
    ensures multiset(c - a) == multiset(b - a) + multiset(c - b)
  {
  }

  lemma DropSharedGrew<N, E>(w: World<N, E>, a: Addr, r: RegId)
    requires Inv(w) && a in w.handles && Live(w.mem, a) && w.mem[a].strong > 1 && r < |w.regs|
    ensures Owns(w, [Strong(a)])
    ensures var w' := Release(w, [Strong(a)]);
      && Inv(w') && Grew(w, w', r) && SameNodes(w.mem, w'.mem)
      && w'.handles == w.handles - multiset{a} && w'.weaks == w.weaks && w'.regs == w.regs
  {
    hide Inv, Release, Owns, Grew, SameNodes;
    OwnedNode(w, a);
    DropOneShared(w, a);
    DropSharedInv(w, a);
    InvHasCounts(w);
    DropSharedCounts(w, a);
    SameNodesGrew(w, DropShared(w, a), r);
  }

  lemma StrongOf<N, E>(w: World<N, E>, a: Addr)
    requires Inv(w) && Live(w.mem, a)
    ensures w.mem[a].strong == w.handles[a] + StrongHeld(w.mem)[a] && w.mem[a].strong > 0
  {
    hide AllWeak, StrongHeld, ShapeOk, OutSound, RegsOk, OutOk, TrackedOk;
    assert SlotCounted(w.mem[a], a, AllStrong(w), AllWeak(w));
  }

  /** Registering nodes does not change which references there are inside of nodes. */
  lemma GrewHeld<N, E>(w: World<N, E>, w': World<N, E>, r: RegId)
    requires Grew(w, w', r)
    ensures StrongHeld(w'.mem) == StrongHeld(w.mem)
  {
    forall i | 0 <= i < |w.mem| ensures StrongOut(w'.mem[i]) == StrongOut(w.mem[i]) {
      assert Live(w'.mem, i) <==> Live(w.mem, i);
      if Live(w.mem, i) { assert NodeGrew(w.mem, w'.mem, i, r); }
    }
    assert StrongParts(w'.mem) == StrongParts(w.mem);
  }

  lemma CloneGrew<N, E>(w: World<N, E>, a: Addr, r: RegId)
    requires Inv(w) && Live(w.mem, a) && r < |w.regs|
    ensures Inv(AddHandle(w, a)) && Grew(w, AddHandle(w, a), r) && SameNodes(w.mem, AddHandle(w, a).mem)
  {
    hide Inv, Grew, SameNodes;
    AddHandleInv(w, a);
    SameNodesGrew(w, AddHandle(w, a), r);
  }

  lemma TryRegisterGrew<N, E>(w: World<N, E>, r: RegId, a: Addr)
    requires Inv(w) && r < |w.regs| && w.regs[r].open && Live(w.mem, a) && CanLink(w, r, a)
    ensures var (w', id) := TryRegister(w, r, a);
      && Inv(w') && id.Some? && Grew(w, w', r) && EntryOk(w', r, id.value, a) && w'.handles == w.handles
        && w'.weaks == w.weaks
      && (forall j :: j in w'.regs[r].nodes ==> j in w.regs[r].nodes || j == id.value)
      && RelinkedIn(w.mem, w'.mem, {a})
  {
    hide CountsOk, ShapeOk, OutSound, RegsOk, OutOk, TrackedOk, TryRegister, LinkedOnly, Entered, Grew, EntryOk;
    TryRegisterInv(w, r, a);
    var (w', id) := TryRegister(w, r, a);
    RegisterGrew(w, w', r, a, id.value);
    LinkedOnlyRest(w, w', r, a);
    LinkedOnlyLive(w, w', r, a);
    OneEntry(w, w', r, a, id.value);
  }

  lemma OneEntry<N, E>(w: World<N, E>, w': World<N, E>, r: RegId, a: Addr, id: NodeId)
    requires r < |w.regs| && Live(w.mem, a) && Entered(w, w', r, a, id)
    ensures |w'.regs| == |w.regs| && forall j :: j in w'.regs[r].nodes ==> j in w.regs[r].nodes || j == id
  {
  }

  /** Adding a handle's worth to a graph that does not hold the node yet. */
  lemma InsertedValues(nodes: map<NodeId, Addr>, id: NodeId, a: Addr)
    requires id !in nodes && a !in nodes.Values
    ensures nodes[id := a].Values == nodes.Values + {a}
    ensures multiset(nodes[id := a].Values) == multiset(nodes.Values) + multiset{a}
  {
    var nodes' := nodes[id := a];
    assert nodes'[id] == a;
    forall v | v in nodes.Values ensures v in nodes'.Values {
      var j :| j in nodes && nodes[j] == v;
      assert j in nodes' && nodes'[j] == v;
    }
  }

  lemma FreshInGraph<N, E>(w: World<N, E>, w': World<N, E>, g: Graph, id: NodeId, a: Addr)
    requires Inv(w) && GraphOk(w, g) && Grew(w, w', g.reg) && Inv(w') && EntryOk(w', g.reg, id, a)
    requires a !in g.nodes.Values
    ensures id !in g.nodes && GraphOk(w', g.(nodes := g.nodes[id := a]))
  {
    hide Inv;
    GraphGrew(w, w', g);
    forall j | j in g.nodes ensures j != id {
      assert EntryOk(w', g.reg, j, g.nodes[j]);
      assert g.nodes[j] in g.nodes.Values;
    }
  }

  lemma TryRegisterRefused<N, E>(w: World<N, E>, r: RegId, a: Addr)
    requires r < |w.regs| && Live(w.mem, a) && !CanLink(w, r, a)
    ensures TryRegister(w, r, a) == (w, None)
  {
  }

  lemma GrewAt<N, E>(w: World<N, E>, w': World<N, E>, r: RegId, a: Addr)
    requires Grew(w, w', r) && Live(w.mem, a)
    ensures Live(w'.mem, a) && w'.mem[a].stamp == w.mem[a].stamp
    ensures w'.mem[a].inner.value.incoming == w.mem[a].inner.value.incoming
    ensures r < |w'.regs| && w'.regs[r].open == w.regs[r].open
  {
    assert Live(w'.mem, a) && NodeGrew(w.mem, w'.mem, a, r);
  }

  lemma AddedNone<N, E>(w: World<N, E>, r: RegId, vals: set<Addr>, a: Addr)
    ensures AddedVia(w, r, vals, vals, a, 0)
  {
  }

  lemma FinishInsert<N, E>(w: World<N, E>, w1: World<N, E>, w2: World<N, E>, r: RegId, vals: set<Addr>, v1: set<Addr>,
                           a: Addr)
    requires Inv(w) && Live(w.mem, a) && Grew(w, w1, r) && Grew(w1, w2, r)
    requires AddedVia(w, r, vals, v1, a, |w.mem[a].inner.value.incoming|)
    requires a in v1 || (Live(w1.mem, a) && CanLink(w1, r, a))
    ensures Grew(w, w2, r) && Added(w, vals, v1 + {a}, a) && Insertable(w, r, vals, a)
    ensures AncestorClosed(w, vals) ==> AncestorClosed(w2, v1 + {a})
  {
    hide Inv, Grew, AncestorClosed, CanLink, Added, Insertable, FreshVia;
    GrewTrans(w, w1, w2, r);
    AncGrew(w, w1, r, a, a);
    assert a in vals || CanLink(w, r, a);
    AddedDone(w, r, vals, v1, a);
    if AncestorClosed(w, vals) {
      AddedClosed(w, vals, v1 + {a}, a);
      ClosedGrew(w, w2, r, v1 + {a});
    }
  }

  lemma AddedStays<N, E>(w: World<N, E>, r: RegId, vals: set<Addr>, v1: set<Addr>, a: Addr)
    requires AddedVia(w, r, vals, v1, a, if Live(w.mem, a) then |w.mem[a].inner.value.incoming| else 0)
    ensures vals <= v1
  {
  }

  lemma InsertableGrew<N, E>(w: World<N, E>, w': World<N, E>, r: RegId, vals: set<Addr>, a: Addr)
    requires Grew(w, w', r)
    ensures Insertable(w', r, vals, a) <==> Insertable(w, r, vals, a)
  {
    hide Grew, CanLink, Fresh;
    forall b: Addr
      ensures Fresh(w', vals, b, a) <==> Fresh(w, vals, b, a)
      ensures Fresh(w, vals, b, a) ==> Live(w.mem, b) && Live(w'.mem, b) && (CanLink(w', r, b) <==> CanLink(w, r, b))
    {
      FreshGrew(w, w', r, vals, b, a);
      if Fresh(w, vals, b, a) { FreshLive(w, vals, b, a); }
    }
  }

  lemma AddedGrew<N, E>(w: World<N, E>, w': World<N, E>, r: RegId, vals: set<Addr>, vals': set<Addr>, a: Addr)
    requires Grew(w, w', r) && Added(w', vals, vals', a)
    ensures Added(w, vals, vals', a)
  {
    hide Grew, CanLink, Fresh;
    forall b: Addr ensures Fresh(w', vals, b, a) <==> Fresh(w, vals, b, a) {
      FreshGrew(w, w', r, vals, b, a);
    }
  }

  lemma GraphReg<N, E>(w: World<N, E>, g: Graph)
    requires GraphOk(w, g)
    ensures g.reg < |w.regs| && w.regs[g.reg].open
  {
  }

  /** No node outside `vals` has another link than before. */
  ghost predicate RelinkedIn<N, E>(m: Memory<N, E>, m': Memory<N, E>, vals: set<Addr>) {
    forall b: Addr :: Live(m, b) && Live(m', b) && b !in vals ==> m'[b].inner.value.link == m[b].inner.value.link
  }

  /** Entries that are new in the registry and links that are new belong to nodes of the
      graph. */
  ghost predicate OnlyNew<N, E>(w: World<N, E>, w': World<N, E>, g: Graph) {
    && g.reg < |w.regs| && g.reg < |w'.regs|
    && (forall j :: j in w'.regs[g.reg].nodes ==> j in w.regs[g.reg].nodes || j in g.nodes)
    && RelinkedIn(w.mem, w'.mem, g.nodes.Values)
  }

  lemma OnlyNewTrans<N, E>(w: World<N, E>, w1: World<N, E>, w2: World<N, E>, g1: Graph, g2: Graph)
    requires OnlyNew(w, w1, g1) && OnlyNew(w1, w2, g2) && g1.reg == g2.reg && g1.nodes.Keys <= g2.nodes.Keys
    requires g1.nodes.Values <= g2.nodes.Values && Grew(w, w1, g1.reg)
    ensures OnlyNew(w, w2, g2)
  {
  }

  lemma OnlyNewSame<N, E>(w: World<N, E>, w': World<N, E>, g: Graph)
    requires w'.regs == w.regs && g.reg < |w.regs| && SameNodes(w.mem, w'.mem)
    ensures OnlyNew(w, w', g)
  {
  }

  // ----- one insertion -----

  ghost predicate IdsKept(g: Graph, g': Graph) {
    g'.reg == g.reg && forall j :: j in g.nodes ==> j in g'.nodes && g'.nodes[j] == g.nodes[j]
  }

  /** The world has gone from `w` to `w'` and the graph from `g` to `g'` by a run that only
      registers nodes; the graph has a new handle for each new node; nothing else has
      changed. */
  ghost predicate Quiet<N, E>(w: World<N, E>, ops: seq<Op<N, E>>, w': World<N, E>, g: Graph, g': Graph) {
    && Runs(w, ops, w') && Registers(ops, g.reg)
    && Grew(w, w', g.reg) && w'.weaks == w.weaks && OnlyNew(w, w', g')
    && IdsKept(g, g') && GraphOk(w', g') && GraphOwns(w', g')
    && w'.handles == w.handles + multiset(g'.nodes.Values - g.nodes.Values)
  }

  /** The same, with one handle to `a` used up. If that was the last reference to `a` then
      more may have been dropped. */
  ghost predicate Took<N, E>(w: World<N, E>, ops: seq<Op<N, E>>, w': World<N, E>, g: Graph, g': Graph, a: Addr)
    requires Live(w.mem, a)
  {
    && Runs(w, ops, w') && Registers(ops, g.reg)
    && (w.mem[a].strong > 1 || a in g'.nodes.Values ==> Grew(w, w', g.reg) && w'.weaks == w.weaks && OnlyNew(w, w', g'))
    && IdsKept(g, g') && GraphOk(w', g') && GraphOwns(w', g')
    && w'.handles == w.handles - multiset{a} + multiset(g'.nodes.Values - g.nodes.Values)
  }

  lemma KeptValues(g: Graph, g': Graph)
    requires IdsKept(g, g')
    ensures g.nodes.Values <= g'.nodes.Values && g.nodes.Keys <= g'.nodes.Keys && g'.reg == g.reg
  {
    forall v | v in g.nodes.Values ensures v in g'.nodes.Values {
      var j :| j in g.nodes && g.nodes[j] == v;
      assert j in g'.nodes && g'.nodes[j] == v;
    }
  }

  lemma QuietNone<N, E>(w: World<N, E>, g: Graph)
    requires Inv(w) && GraphOk(w, g) && GraphOwns(w, g)
    ensures Quiet(w, [], w, g, g)
  {
    hide Inv, GraphOk, GraphOwns, Grew, OnlyNew, Runs, SameNodes;
    GraphReg(w, g);
    RunsNone(w);
    GrewRefl(w, g.reg);
    SameNodesRefl(w.mem);
    OnlyNewSame(w, w, g);
    assert g.nodes.Values - g.nodes.Values == {};
  }

  lemma QuietTrans<N, E>(w: World<N, E>, s: seq<Op<N, E>>, w1: World<N, E>, t: seq<Op<N, E>>, w2: World<N, E>,
                         g: Graph, g1: Graph, g2: Graph)
    requires Quiet(w, s, w1, g, g1) && Quiet(w1, t, w2, g1, g2)
    ensures Quiet(w, s + t, w2, g, g2)
  {
    hide GraphOk, GraphOwns, Grew, OnlyNew, Runs, Registers, IdsKept;
    KeptValues(g, g1);
    KeptValues(g1, g2);
    RunsConcat(w, s, w1, t, w2);
    RegistersBoth(s, t, g.reg);
    KeptTrans(g, g1, g2);
    GrewTrans(w, w1, w2, g.reg);
    OnlyNewTrans(w, w1, w2, g1, g2);
    MoreHandles(g.nodes.Values, g1.nodes.Values, g2.nodes.Values);
  }

  lemma RegistersBoth<N, E>(s: seq<Op<N, E>>, t: seq<Op<N, E>>, r: RegId)
    requires Registers(s, r) && Registers(t, r)
    ensures Registers(s + t, r)
  {
  }

  lemma KeptTrans(g: Graph, g1: Graph, g2: Graph)
    requires IdsKept(g, g1) && IdsKept(g1, g2)
    ensures IdsKept(g, g2)
  {
  }

  /** A clone is made and used up. */
  lemma CloneTook<N, E>(w: World<N, E>, ops: seq<Op<N, E>>, w': World<N, E>, g: Graph, g': Graph, a: Addr)
    requires Inv(w) && Live(w.mem, a) && GraphOk(w, g)
    requires Live(AddHandle(w, a).mem, a) && Took(AddHandle(w, a), ops, w', g, g', a)
    ensures Quiet(w, [Clone(a)] + ops, w', g, g')
  {
    hide Inv, GraphOk, GraphOwns, Grew, OnlyNew, Runs, SameNodes;
    var w1 := AddHandle(w, a);
    GraphReg(w, g);
    CloneRuns(w, a);
    RunsConcat(w, [Clone(a)], w1, ops, w');
    StrongOf(w, a);
    CloneGrew(w, a, g.reg);
    GrewTrans(w, w1, w', g.reg);
    OnlyNewFrom(w, w1, w', g');
    assert w.handles + multiset{a} - multiset{a} == w.handles;
  }

  lemma OnlyNewFrom<N, E>(w: World<N, E>, w1: World<N, E>, w2: World<N, E>, g: Graph)
    requires w1.regs == w.regs && SameNodes(w.mem, w1.mem) && OnlyNew(w1, w2, g)
    ensures OnlyNew(w, w2, g)
  {
  }

  /** The handle with which the insertion was called is dropped at its end. */
  lemma QuietDrop<N, E>(w: World<N, E>, ops: seq<Op<N, E>>, w1: World<N, E>, w2: World<N, E>, g: Graph, g': Graph,
                        a: Addr)
    requires Quiet(w, ops, w1, g, g') && Live(w.mem, a) && multiset(g.nodes.Values) + multiset{a} <= w.handles
    requires Inv(w1) && a in w1.handles && Owns(w1, [Strong(a)]) && w2 == Release(w1, [Strong(a)])
    ensures Took(w, ops + [Drop(a)], w2, g, g', a)
  {
    hide Inv, GraphOk, Grew, OnlyNew, Runs, Release, Owns, SameNodes;
    RunsInv(w, ops, w1);
    DropRuns(w1, a);
    RunsConcat(w, ops, w1, [Drop(a)], w2);
    KeptValues(g, g');
    DropHandles(w.handles, g.nodes.Values, g'.nodes.Values, a);
    RegistersSpares(w1, [Drop(a)], w2, g.reg, g');
    GrewAt(w, w1, g.reg, a);
    if w.mem[a].strong > 1 || a in g'.nodes.Values {
      StrongOf(w, a);
      StrongOf(w1, a);
      GrewHeld(w, w1, g.reg);
      DropSharedGrew(w1, a, g.reg);
      GrewTrans(w, w1, w2, g.reg);
      OnlyNewThen(w, w1, w2, g');
    }
  }

  lemma OnlyNewThen<N, E>(w: World<N, E>, w1: World<N, E>, w2: World<N, E>, g: Graph)
    requires OnlyNew(w, w1, g) && w2.regs == w1.regs && SameNodes(w1.mem, w2.mem)
    ensures OnlyNew(w, w2, g)
  {
  }

  lemma DropHandles(h: multiset<Addr>, vals: set<Addr>, vals': set<Addr>, a: Addr)
    requires multiset(vals) + multiset{a} <= h && vals <= vals'
    ensures var h' := h + multiset(vals' - vals);
      && a in h' && multiset(vals') <= h' - multiset{a} && h' - multiset{a} == h - multiset{a} + multiset(vals' - vals)
      && (a in vals' ==> h'[a] > 1) && h'[a] >= h[a]
  {
  }

  lemma {:induction false} ClosedEvolves<N, E>(w: World<N, E>, w': World<N, E>, vals: set<Addr>)
    requires Inv(w') && Evolves(w, w') && w'.log == w.log && AncestorClosed(w, vals)
    ensures AncestorClosed(w', vals)
  {
    hide Inv, RegEvolves;
    forall a: Addr, k | a in vals && Live(w'.mem, a) && 0 <= k < |w'.mem[a].inner.value.incoming|
      ensures w'.mem[a].inner.value.incoming[k].source in vals
    {
      StampBelow(w', a);
      assert Live(w.mem, a) && w'.mem[a].inner.value.incoming == w.mem[a].inner.value.incoming;
    }
  }

  lemma QuietGrew<N, E>(w: World<N, E>, ops: seq<Op<N, E>>, w': World<N, E>, g: Graph, g': Graph)
    requires Quiet(w, ops, w', g, g')
    ensures Grew(w, w', g.reg) && g'.reg == g.reg && g.nodes.Values <= g'.nodes.Values
  {
    hide Grew, Runs, GraphOk, GraphOwns, OnlyNew;
    KeptValues(g, g');
  }

  lemma QuietOwns<N, E>(w: World<N, E>, ops: seq<Op<N, E>>, w': World<N, E>, g: Graph, g': Graph, a: Addr)
    requires Quiet(w, ops, w', g, g') && multiset(g.nodes.Values) + multiset{a} <= w.handles
    ensures a in w'.handles
  {
    hide Grew, Runs, GraphOk, GraphOwns, OnlyNew;
    KeptValues(g, g');
    DropHandles(w.handles, g.nodes.Values, g'.nodes.Values, a);
  }

  lemma DropClosed<N, E>(w: World<N, E>, w': World<N, E>, vals: set<Addr>, a: Addr)
    requires Inv(w) && a in w.handles && Owns(w, [Strong(a)]) && w' == Release(w, [Strong(a)])
    requires AncestorClosed(w, vals)
    ensures AncestorClosed(w', vals)
  {
    hide Inv, Release, Owns, Runs, AncestorClosed, Evolves;
    DropRuns(w, a);
    RunsInv(w, [Drop(a)], w');
    LogStays(w, Drop(a));
    ClosedEvolves(w, w', vals);
  }

  lemma InsertedKeeps<N, E>(w: World<N, E>, ops: seq<Op<N, E>>, w': World<N, E>, g: Graph, g': Graph, a: Addr)
    requires Live(w.mem, a) && Took(w, ops, w', g, g', a)
    ensures KeepsNames(w, w') && GraphOk(w', g') && GraphOwns(w', g')
  {
    hide Runs, KeepsNames, Grew, OnlyNew, GraphOk, GraphOwns;
    RegistersKeepsNames(w, ops, w', g.reg);
  }

  lemma RegisterTook<N, E>(w: World<N, E>, g: Graph, a: Addr, id: NodeId)
    requires Inv(w) && GraphOk(w, g) && Live(w.mem, a) && CanLink(w, g.reg, a) && a !in g.nodes.Values
    requires multiset(g.nodes.Values) + multiset{a} <= w.handles && TryRegister(w, g.reg, a).1 == Some(id)
    ensures var w', g' := TryRegister(w, g.reg, a).0, g.(nodes := g.nodes[id := a]);
      Took(w, [Register(g.reg, a)], w', g, g', a) && g'.nodes.Values == g.nodes.Values + {a}
  {
    hide Inv, Runs, Grew, OnlyNew, GraphOk, TryRegister, CanLink, EntryOk;
    GraphReg(w, g);
    RegisterRuns(w, g.reg, a);
    TryRegisterGrew(w, g.reg, a);
    var w', g' := TryRegister(w, g.reg, a).0, g.(nodes := g.nodes[id := a]);
    FreshInGraph(w, w', g, id, a);
    OneNew(w, w', g', id);
    TakenOver(w.handles, g, id, a);
  }

  /** The graph takes over a handle. */
  lemma TakenOver(h: multiset<Addr>, g: Graph, id: NodeId, a: Addr)
    requires id !in g.nodes && a !in g.nodes.Values && multiset(g.nodes.Values) + multiset{a} <= h
    ensures var g' := g.(nodes := g.nodes[id := a]);
      && IdsKept(g, g') && g'.nodes.Values == g.nodes.Values + {a} && multiset(g'.nodes.Values) <= h
      && h == h - multiset{a} + multiset(g'.nodes.Values - g.nodes.Values)
  {
    InsertedValues(g.nodes, id, a);
    var g' := g.(nodes := g.nodes[id := a]);
    assert g'.nodes.Values - g.nodes.Values == {a};
    assert h - multiset{a} + multiset{a} == h;
  }

  lemma OneNew<N, E>(w: World<N, E>, w': World<N, E>, g: Graph, id: NodeId)
    requires Grew(w, w', g.reg) && id in g.nodes && RelinkedIn(w.mem, w'.mem, {g.nodes[id]})
    requires forall j :: j in w'.regs[g.reg].nodes ==> j in w.regs[g.reg].nodes || j == id
    ensures OnlyNew(w, w', g)
  {
  }

  /** While nodes are inserted into one graph, any other graph on the same heap, over the
      same registry or another one, stays intact and keeps its handles. */
  lemma OtherGraphSpared<N, E>(w: World<N, E>, ops: seq<Op<N, E>>, w': World<N, E>, g: Graph, g': Graph, a: Addr,
                               h: Graph)
    requires Live(w.mem, a) && Took(w, ops, w', g, g', a) && GraphOk(w, h)
    requires multiset(g.nodes.Values) + multiset{a} + multiset(h.nodes.Values) <= w.handles
    ensures GraphOk(w', h) && multiset(g'.nodes.Values) + multiset(h.nodes.Values) <= w'.handles
  {
    hide Runs, Grew, OnlyNew, GraphOk;
    KeptValues(g, g');
    BothOwned(w.handles, w'.handles, g.nodes.Values, g'.nodes.Values, multiset(h.nodes.Values), a);
    RegistersSpares(w, ops, w', g.reg, h);
  }

  lemma BothOwned(h: multiset<Addr>, h': multiset<Addr>, vals: set<Addr>, vals': set<Addr>, others: multiset<Addr>,
                  a: Addr)
    requires multiset(vals) + multiset{a} + others <= h && vals <= vals'
    requires h' == h - multiset{a} + multiset(vals' - vals)
    ensures multiset(vals') + others <= h' && others <= h'
  {
  }

  // ----- dropping a graph -----

  ghost predicate Injective(nodes: map<NodeId, Addr>) {
    forall i, j :: i in nodes && j in nodes && nodes[i] == nodes[j] ==> i == j
  }

  lemma GraphInjective<N, E>(w: World<N, E>, g: Graph)
    requires Inv(w) && GraphOk(w, g)
    ensures Injective(g.nodes)
  {
    hide Inv;
    forall i, j | i in g.nodes && j in g.nodes && g.nodes[i] == g.nodes[j] ensures i == j {
      GraphsAgree(w, g, g, i, j);
    }
  }

  lemma OneLess(nodes: map<NodeId, Addr>, id: NodeId)
    requires Injective(nodes) && id in nodes
    ensures Injective(nodes - {id}) && nodes[id] in nodes.Values
    ensures multiset(nodes.Values) == multiset((nodes - {id}).Values) + multiset{nodes[id]}
  {
    var less := nodes - {id};
    forall v | v in nodes.Values && v != nodes[id] ensures v in less.Values {
      var j :| j in nodes && nodes[j] == v;
      assert j in less && less[j] == v;
    }
    assert nodes[id] !in less.Values;
    assert nodes.Values == less.Values + {nodes[id]};
  }

  lemma HandleLess(h: multiset<Addr>, nodes: map<NodeId, Addr>, id: NodeId)
    requires Injective(nodes) && id in nodes
    ensures nodes[id] in multiset(nodes.Values)
    ensures h + multiset(nodes.Values) - multiset{nodes[id]} == h + multiset((nodes - {id}).Values)
  {
    OneLess(nodes, id);
  }

  lemma RegistersNone<N, E>(r: RegId)
    ensures Registers<N, E>([], r)
  {
  }

  lemma RegistersDrop<N, E>(a: Addr, r: RegId)
    ensures Registers<N, E>([Drop(a)], r)
  {
  }

  /** A node that was alive before the graph got its handle does not die when the graph
      gives it up. */
  lemma StillShared<N, E>(w: World<N, E>, w': World<N, E>, r: RegId, more: multiset<Addr>, a: Addr)
    requires Inv(w) && Inv(w') && Grew(w, w', r) && w'.handles == w.handles + more && a in more && Live(w'.mem, a)
    ensures a in w'.handles && w'.mem[a].strong > 1
  {
    hide Inv, Grew, StrongHeld;
    GrewLive(w, w', r, a);
    StrongOf(w, a);
    StrongOf(w', a);
    GrewHeld(w, w', r);
  }

  lemma GrewLive<N, E>(w: World<N, E>, w': World<N, E>, r: RegId, a: Addr)
    requires Grew(w, w', r)
    ensures Live(w'.mem, a) <==> Live(w.mem, a)
  {
  }

  ghost predicate ValuesLive<N, E>(mem: Memory<N, E>, nodes: map<NodeId, Addr>) {
    forall id :: id in nodes ==> Live(mem, nodes[id])
  }

  lemma ValuesLiveGrew<N, E>(w: World<N, E>, w': World<N, E>, r: RegId, nodes: map<NodeId, Addr>, id: NodeId)
    requires Grew(w, w', r) && ValuesLive(w.mem, nodes)
    ensures ValuesLive(w'.mem, nodes - {id})
  {
  }

  lemma GraphLive<N, E>(w: World<N, E>, g: Graph)
    requires GraphOk(w, g)
    ensures ValuesLive(w.mem, g.nodes)
  {
    forall id | id in g.nodes ensures Live(w.mem, g.nodes[id]) { assert EntryOk(w, g.reg, id, g.nodes[id]); }
  }

  class HistoryGraph<N, E> {
    const heap: Heap<N, E>
    const reg: RegId
    var nodes: map<NodeId, Addr>

    ghost function View(): Graph
      reads this
    {
      Graph(nodes, reg)
    }

    ghost predicate Valid()
      reads this, heap
    {
      heap.Valid() && GraphOk(heap.State(), View()) && GraphOwns(heap.State(), View())
    }

    /** `with_registry`. */
    constructor (heap: Heap<N, E>, reg: RegId)
      requires heap.Valid() && reg < |heap.regs| && heap.regs[reg].open
      ensures Valid() && this.heap == heap && this.reg == reg && nodes == map[]
    {
      this.heap, this.reg, nodes := heap, reg, map[];
      new;
      assert nodes.Values == {};
    }

    /** `get_node_id`. */
    method GetNodeId(a: Addr) returns (id: Option<NodeId>)
      requires Valid() && Live(heap.mem, a)
      ensures id == History.GetNodeId(heap.State(), View(), a)
      ensures id.Some? <==> a in nodes.Values
      ensures id.Some? ==> id.value in nodes && nodes[id.value] == a
    {
      hide Inv;
      GetNodeIdExact(heap.State(), View(), a);
      if a in heap.regs[reg].ptrToId && heap.regs[reg].ptrToId[a] in nodes {
        id := Some(heap.regs[reg].ptrToId[a]);
      } else {
        id := None;
      }
    }

    /** `insert_node`. The graph takes over the handle to `a`, or drops it. */
    method InsertNode(a: Addr) returns (id: Option<NodeId>, ghost ops: seq<Op<N, E>>)
      requires Valid() && Live(heap.mem, a) && multiset(nodes.Values) + multiset{a} <= heap.handles
      modifies this`nodes, heap
      ensures Valid()
      ensures id.Some? <==> a in old(nodes.Values) || old(CanLink(heap.State(), reg, a))
      ensures Took(old(heap.State()), ops, heap.State(), old(View()), View(), a)
      ensures KeepsNames(old(heap.State()), heap.State())
      ensures id.Some? ==> id.value in nodes && nodes[id.value] == a && nodes.Values == old(nodes.Values) + {a}
      ensures id.None? ==>
        && nodes == old(nodes)
        && Owns(old(heap.State()), [Strong(a)])
        && heap.State() == Release(old(heap.State()), [Strong(a)])
    {
      hide Inv, Grew, Release, Owns, TryRegister, CanLink, GraphOk, Runs, KeepsNames, OnlyNew, Quiet, Took;
      ghost var w, g := heap.State(), View();
      id := GetNodeId(a);
      if id.None? {
        GraphReg(w, g);
        id := heap.TryRegisterIn(reg, a);
        if id.Some? {
          nodes := nodes[id.value := a];
          ops := [Register(reg, a)];
          RegisterTook(w, g, a, id.value);
          InsertedKeeps(w, ops, heap.State(), g, View(), a);
          return;
        }
        TryRegisterRefused(w, reg, a);
      }
      assert id.Some? ==> nodes.Values + {a} == nodes.Values;
      heap.Drop(a);
      ops := [] + [Drop(a)];
      QuietNone(w, g);
      QuietDrop(w, [], w, heap.State(), g, g, a);
      InsertedKeeps(w, ops, heap.State(), g, View(), a);
    }

    /** `insert_ancestors`. `None` stands for the panic on a node that is linked to a
        different registry; the handle is dropped by then as well. On success the graph has
        gained exactly `a` and the ancestors of `a` reached without passing through a node
        of the graph. In any case no id has changed, and a graph closed under ancestors is
        still closed. */
    method InsertAncestors(a: Addr) returns (id: Option<NodeId>, ghost ops: seq<Op<N, E>>)
      requires Valid() && Live(heap.mem, a) && multiset(nodes.Values) + multiset{a} <= heap.handles
      modifies this`nodes, heap
      ensures Valid()
      ensures (old(AncestorClosed(heap.State(), nodes.Values)) ==> AncestorClosed(heap.State(), nodes.Values))
      ensures id.Some? <==> old(Insertable(heap.State(), reg, nodes.Values, a))
      ensures Took(old(heap.State()), ops, heap.State(), old(View()), View(), a)
      ensures KeepsNames(old(heap.State()), heap.State())
      ensures id.Some? ==>
        id.value in nodes && nodes[id.value] == a && Added(old(heap.State()), old(nodes.Values), nodes.Values, a)
      decreases heap.mem[a].stamp, 2
    {
      hide Inv, Grew, Added, AncestorClosed, Insertable, Release, Owns, CanLink, GraphOk, GraphOwns, OnlyNew, Quiet,
           Took, Runs, KeepsNames;
      ghost var w, g := heap.State(), View();
      id, ops := InsertBody(a);
      ghost var w1 := heap.State();
      QuietOwns(w, ops, w1, g, View(), a);
      heap.Drop(a);
      QuietDrop(w, ops, w1, heap.State(), g, View(), a);
      if AncestorClosed(w1, nodes.Values) { DropClosed(w1, heap.State(), nodes.Values, a); }
      ops := ops + [Drop(a)];
      InsertedKeeps(w, ops, heap.State(), g, View(), a);
    }

    /** The body of `insert_ancestors`, without the drop of its argument. */
    method InsertBody(a: Addr) returns (id: Option<NodeId>, ghost ops: seq<Op<N, E>>)
      requires Valid() && Live(heap.mem, a)
      modifies this`nodes, heap
      ensures Valid()
      ensures (old(AncestorClosed(heap.State(), nodes.Values)) ==> AncestorClosed(heap.State(), nodes.Values))
      ensures id.Some? <==> old(Insertable(heap.State(), reg, nodes.Values, a))
      ensures Quiet(old(heap.State()), ops, heap.State(), old(View()), View())
      ensures id.Some? ==>
        id.value in nodes && nodes[id.value] == a && Added(old(heap.State()), old(nodes.Values), nodes.Values, a)
      decreases heap.mem[a].stamp, 1
    {
      hide Inv, Grew, Added, AncestorClosed, Insertable, AddedVia, CanLink, GraphOk, GraphOwns, OnlyNew, Quiet, Runs;
      ghost var w, g := heap.State(), View();
      var ok;
      ok, ops := InsertParents(a);
      if !ok { return None, ops; }
      ghost var w1, g1 := heap.State(), View();
      QuietGrew(w, ops, w1, g, g1);
      GrewAt(w, w1, reg, a);
      AncGrew(w, w1, reg, a, a);
      ghost var ops';
      id, ops' := InsertClone(a);
      QuietTrans(w, ops, w1, ops', heap.State(), g, g1, View());
      QuietGrew(w1, ops', heap.State(), g1, View());
      ops := ops + ops';
      if id.None? {
        AddedStays(w, reg, g.nodes.Values, g1.nodes.Values, a);
        LastNotInsertable(w, reg, g.nodes.Values, a);
        if AncestorClosed(w1, nodes.Values) { ClosedGrew(w1, heap.State(), reg, nodes.Values); }
      } else {
        FinishInsert(w, w1, heap.State(), reg, g.nodes.Values, g1.nodes.Values, a);
      }
    }

    /** `insert_node(node.clone())`. */
    method InsertClone(a: Addr) returns (id: Option<NodeId>, ghost ops: seq<Op<N, E>>)
      requires Valid() && Live(heap.mem, a)
      modifies this`nodes, heap
      ensures Valid()
      ensures id.Some? <==> a in old(nodes.Values) || old(CanLink(heap.State(), reg, a))
      ensures Quiet(old(heap.State()), ops, heap.State(), old(View()), View())
      ensures id.Some? ==> id.value in nodes && nodes[id.value] == a && nodes.Values == old(nodes.Values) + {a}
      ensures id.None? ==> nodes == old(nodes)
    {
      hide Inv, Grew, CanLink, Release, Owns, GraphOk, OnlyNew, Quiet, Took, Runs, KeepsNames;
      ghost var w, g := heap.State(), View();
      GraphReg(w, g);
      CloneGrew(w, a, reg);
      heap.Clone(a);
      GraphGrew(w, heap.State(), g);
      GrewAt(w, heap.State(), reg, a);
      AncGrew(w, heap.State(), reg, a, a);
      id, ops := InsertNode(a);
      CloneTook(w, ops, heap.State(), g, View(), a);
      ops := [Clone(a)] + ops;
    }

    /** The loop over the parents. */
    method InsertParents(a: Addr) returns (ok: bool, ghost ops: seq<Op<N, E>>)
      requires Valid() && Live(heap.mem, a)
      modifies this`nodes, heap
      ensures Valid()
      ensures (old(AncestorClosed(heap.State(), nodes.Values)) ==> AncestorClosed(heap.State(), nodes.Values))
      ensures Quiet(old(heap.State()), ops, heap.State(), old(View()), View())
      ensures ok ==>
        AddedVia(old(heap.State()), reg, old(nodes.Values), nodes.Values, a, old(|heap.mem[a].inner.value.incoming|))
      ensures !ok ==> !old(Insertable(heap.State(), reg, nodes.Values, a))
      decreases heap.mem[a].stamp, 0
    {
      hide Inv, Grew, Added, AncestorClosed, Insertable, AddedVia, CanLink, GraphOk, GraphOwns, OnlyNew, Quiet, Runs;
      ghost var w, g := heap.State(), View();
      ghost var vals := nodes.Values;
      var parents := heap.mem[a].inner.value.incoming;
      QuietNone(w, g);
      AddedNone(w, reg, vals, a);
      ops := [];
      for k := 0 to |parents|
        invariant Valid() && (AncestorClosed(w, vals) ==> AncestorClosed(heap.State(), nodes.Values))
        invariant Quiet(w, ops, heap.State(), g, View())
        invariant AddedVia(w, reg, vals, nodes.Values, a, k)
      {
        ghost var wk, gk := heap.State(), View();
        QuietGrew(w, ops, wk, g, gk);
        ParentOlder(w, a, k);
        GrewAt(w, wk, reg, parents[k].source);
        var id := GetNodeId(parents[k].source);
        if id.None? {
          ghost var ops';
          ok, ops' := InsertParent(parents[k].source);
          QuietTrans(w, ops, wk, ops', heap.State(), g, gk, View());
          ops := ops + ops';
          if !ok {
            NotInsertable(w, wk, reg, vals, gk.nodes.Values, a, k);
            return;
          }
          AddedStep(w, wk, reg, vals, gk.nodes.Values, nodes.Values, a, k);
        } else {
          AddedSkip(w, reg, vals, gk.nodes.Values, a, k);
        }
      }
      ok := true;
    }

    /** `insert_ancestors(parent.clone())`. */
    method InsertParent(p: Addr) returns (ok: bool, ghost ops: seq<Op<N, E>>)
      requires Valid() && Live(heap.mem, p)
      modifies this`nodes, heap
      ensures Valid()
      ensures (old(AncestorClosed(heap.State(), nodes.Values)) ==> AncestorClosed(heap.State(), nodes.Values))
      ensures ok <==> old(Insertable(heap.State(), reg, nodes.Values, p))
      ensures Quiet(old(heap.State()), ops, heap.State(), old(View()), View())
      ensures ok ==> Added(old(heap.State()), old(nodes.Values), nodes.Values, p)
      decreases heap.mem[p].stamp, 3
    {
      hide Inv, Grew, Added, AncestorClosed, Insertable, CanLink, GraphOk, OnlyNew, Quiet, Took, Runs, KeepsNames;
      ghost var w, g := heap.State(), View();
      GraphReg(w, g);
      CloneGrew(w, p, reg);
      heap.Clone(p);
      ghost var w1 := heap.State();
      GraphGrew(w, w1, g);
      if AncestorClosed(w, nodes.Values) { ClosedGrew(w, w1, reg, nodes.Values); }
      GrewAt(w, w1, reg, p);
      InsertableGrew(w, w1, reg, nodes.Values, p);
      var id;
      id, ops := InsertAncestors(p);
      ok := id.Some?;
      CloneTook(w, ops, heap.State(), g, View(), p);
      ops := [Clone(p)] + ops;
      if ok { AddedGrew(w, w1, reg, g.nodes.Values, nodes.Values, p); }
    }

    /** The drop of a handle that is not the last reference. */
    method DropShared(a: Addr)
      requires heap.Valid() && a in heap.handles && Live(heap.mem, a) && heap.mem[a].strong > 1 && reg < |heap.regs|
      modifies heap
      ensures heap.Valid() && Grew(old(heap.State()), heap.State(), reg) && SameNodes(old(heap.mem), heap.mem)
      ensures heap.handles == old(heap.handles) - multiset{a}
      ensures heap.weaks == old(heap.weaks) && heap.regs == old(heap.regs)
      ensures Runs(old(heap.State()), [Drop(a)], heap.State())
    {
      hide Inv, Grew, Release, Owns, Runs, SameNodes;
      DropSharedGrew(heap.State(), a, reg);
      DropRuns(heap.State(), a);
      heap.Drop(a);
    }

    /** The drop of a graph that was made out of nodes alive in `w`: the world is as it was
        in `w` again, apart from the registrations. */
    method LetGo(ghost w: World<N, E>) returns (ghost ops: seq<Op<N, E>>)
      requires Valid() && Inv(w) && Grew(w, heap.State(), reg) && heap.handles == w.handles + multiset(nodes.Values)
      requires heap.weaks == w.weaks
      modifies this`nodes, heap
      ensures heap.Valid() && nodes == map[]
      ensures Grew(w, heap.State(), reg) && Grew(old(heap.State()), heap.State(), reg)
      ensures SameNodes(old(heap.mem), heap.mem)
      ensures heap.handles == w.handles && heap.weaks == w.weaks && heap.regs == old(heap.regs)
      ensures Runs(old(heap.State()), ops, heap.State()) && Registers(ops, reg)
    {
      hide Inv, Grew, Release, Owns, GraphOk, Runs, Injective, ValuesLive, Registers, SameNodes;
      ghost var w1 := heap.State();
      GraphReg(w1, View());
      GraphInjective(w1, View());
      GraphLive(w1, View());
      RunsNone(w1);
      GrewRefl(w1, reg);
      SameNodesRefl(w1.mem);
      RegistersNone<N, E>(reg);
      ops := [];
      while nodes != map[]
        invariant heap.Valid() && Injective(nodes) && ValuesLive(heap.mem, nodes)
        invariant Grew(w, heap.State(), reg) && Grew(w1, heap.State(), reg) && SameNodes(w1.mem, heap.mem)
        invariant heap.handles == w.handles + multiset(nodes.Values) && heap.weaks == w.weaks && heap.regs == w1.regs
        invariant Runs(w1, ops, heap.State()) && Registers(ops, reg)
        decreases |nodes|
      {
        var id :| id in nodes;
        ghost var wk := heap.State();
        OneLess(nodes, id);
        HandleLess(w.handles, nodes, id);
        RegistersDrop<N, E>(nodes[id], reg);
        RegistersBoth(ops, [Drop(nodes[id])], reg);
        LiveAt(heap.mem, nodes, id);
        StillShared(w, wk, reg, multiset(nodes.Values), nodes[id]);
        DropShared(nodes[id]);
        GrewTrans(w, wk, heap.State(), reg);
        GrewTrans(w1, wk, heap.State(), reg);
        SameNodesTrans(w1.mem, wk.mem, heap.mem);
        ValuesLiveGrew(wk, heap.State(), reg, nodes, id);
        RunsConcat(w1, ops, wk, [Drop(nodes[id])], heap.State());
        ops := ops + [Drop(nodes[id])];
        nodes := nodes - {id};
      }
      assert nodes.Values == {};
    }
  }

  lemma LiveAt<N, E>(mem: Memory<N, E>, nodes: map<NodeId, Addr>, id: NodeId)
    requires ValuesLive(mem, nodes) && id in nodes
    ensures Live(mem, nodes[id])
  {
  }
}
