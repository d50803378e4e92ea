/** `post_order_for_each` (src/detached.rs:211-239): a depth-first walk on an explicit
    stack that marks a node when it is pushed, not when it is entered. */
module PostOrder {
  import opened Prelude

  /** The successors of the nodes that are known, and the nodes not to be visited. */
  datatype Graph = Graph(succ: map<nat, seq<nat>>, skip: set<nat>)

  ghost predicate Edge(g: Graph, v: nat, u: nat) {
    v in g.succ && u in g.succ[v] && u !in g.skip
  }

  ghost predicate ReachIn(g: Graph, v: nat, u: nat, n: nat)
    decreases n
  {
    if n == 0 then v == u else exists m :: Edge(g, v, m) && ReachIn(g, m, u, n - 1)
  }

  /** `u` can be reached from `v` through visitable nodes. */
  ghost predicate Reach(g: Graph, v: nat, u: nat) {
    exists n: nat :: ReachIn(g, v, u, n)
  }

  /** `rank` shows that there are no cycles. */
  ghost predicate Ranked(g: Graph, rank: nat -> nat) {
    forall v, u :: Edge(g, v, u) ==> rank(u) < rank(v)
  }

  lemma ReachSelf(g: Graph, v: nat)
    ensures Reach(g, v, v)
  {
    assert ReachIn(g, v, v, 0);
  }

  lemma {:induction false} ReachInTrans(g: Graph, a: nat, b: nat, c: nat, m: nat, n: nat)
    requires ReachIn(g, a, b, m) && ReachIn(g, b, c, n)
    ensures ReachIn(g, a, c, m + n)
    decreases m
  {
    if m > 0 {
      var x :| Edge(g, a, x) && ReachIn(g, x, b, m - 1);
      ReachInTrans(g, x, b, c, m - 1, n);
    }
  }

  lemma ReachTrans(g: Graph, a: nat, b: nat, c: nat)
    requires Reach(g, a, b) && Reach(g, b, c)
    ensures Reach(g, a, c)
  {
    var m: nat :| ReachIn(g, a, b, m);
    var n: nat :| ReachIn(g, b, c, n);
    ReachInTrans(g, a, b, c, m, n);
  }

  lemma ReachEdge(g: Graph, a: nat, b: nat)
    requires Edge(g, a, b)
    ensures Reach(g, a, b)
  {
    assert ReachIn(g, b, b, 0);
    assert ReachIn(g, a, b, 1);
  }

  lemma {:induction false} ReachInRank(g: Graph, rank: nat -> nat, a: nat, b: nat, n: nat)
    requires Ranked(g, rank) && ReachIn(g, a, b, n)
    ensures rank(b) + n <= rank(a)
    decreases n
  {
    if n > 0 {
      var x :| Edge(g, a, x) && ReachIn(g, x, b, n - 1);
      ReachInRank(g, rank, x, b, n - 1);
    }
  }

  lemma ReachRank(g: Graph, rank: nat -> nat, a: nat, b: nat)
    requires Ranked(g, rank) && Reach(g, a, b)
    ensures rank(b) <= rank(a)
  {
    var n: nat :| ReachIn(g, a, b, n);
    ReachInRank(g, rank, a, b, n);
  }

  /** A set that contains the start and is closed under edges contains all that is
      reachable. */
  lemma {:induction false} ClosedReach(g: Graph, s: set<nat>, a: nat, b: nat, n: nat)
    requires a in s && (forall v, u :: v in s && Edge(g, v, u) ==> u in s) && ReachIn(g, a, b, n)
    ensures b in s
    decreases n
  {
    if n > 0 {
      var x :| Edge(g, a, x) && ReachIn(g, x, b, n - 1);
      ClosedReach(g, s, x, b, n - 1);
    }
  }

  // ----- pushing the successors of one node -----

  /** The successors that get pushed, in order: those visitable and not marked yet. */
  ghost function NewOnes(us: seq<nat>, skip: set<nat>, marked: set<nat>): seq<nat> {
    if us == [] then []
    else
      var u, rest := us[|us| - 1], NewOnes(us[..|us| - 1], skip, marked);
      if u in skip || u in marked || u in rest then rest else rest + [u]
  }

  /** The first occurrence of `a` in `us` comes before any occurrence of `b`. */
  ghost predicate ListedBefore(us: seq<nat>, a: nat, b: nat) {
    a != b && exists i :: 0 <= i < |us| && us[i] == a && b !in us[..i]
  }

  lemma {:induction false} NewOnesMembers(us: seq<nat>, skip: set<nat>, marked: set<nat>)
    ensures forall u :: u in NewOnes(us, skip, marked) <==> u in us && u !in skip && u !in marked
    ensures NoDup(NewOnes(us, skip, marked))
  {
    if us != [] {
      var init, u := us[..|us| - 1], us[|us| - 1];
      assert us == init + [u];
      NewOnesMembers(init, skip, marked);
      if !(u in skip || u in marked || u in NewOnes(init, skip, marked)) {
        NoDupSnoc(NewOnes(init, skip, marked), u);
      }
    }
  }

  lemma {:induction false} NewOnesOrder(us: seq<nat>, skip: set<nat>, marked: set<nat>, i: nat, j: nat)
    requires i < j < |NewOnes(us, skip, marked)|
    ensures ListedBefore(us, NewOnes(us, skip, marked)[i], NewOnes(us, skip, marked)[j])
  {
    var init, u := us[..|us| - 1], us[|us| - 1];
    var rest := NewOnes(init, skip, marked);
    var a, b := NewOnes(us, skip, marked)[i], NewOnes(us, skip, marked)[j];
    NewOnesMembers(init, skip, marked);
    NewOnesMembers(us, skip, marked);
    if j < |rest| {
      NewOnesOrder(init, skip, marked, i, j);
      var k :| 0 <= k < |init| && init[k] == a && b !in init[..k];
      assert us[k] == a && us[..k] == init[..k];
    } else {
      assert b == u && a in rest && a in init && u !in init;
      var k :| 0 <= k < |init| && init[k] == a;
      assert us[k] == a && us[..k] == init[..k];
    }
  }

  lemma ListedBeforeAntisym(us: seq<nat>, a: nat, b: nat)
    requires ListedBefore(us, a, b)
    ensures !ListedBefore(us, b, a)
  {
    var i :| 0 <= i < |us| && us[i] == a && b !in us[..i];
    forall j | 0 <= j < |us| && us[j] == b ensures a in us[..j] {
      assert forall k :: 0 <= k < i ==> us[..i][k] == us[k];
      assert i < j;
      assert us[..j][i] == a;
    }
  }

  // ----- the walk -----

  datatype Event = Enter(v: nat) | Exit(v: nat)

  /** `stack`, `visited` and the calls of `f` so far. `from` records which node marked
      which; the walk itself does not look at it. */
  datatype Dfs = Dfs(stack: seq<Event>, marked: set<nat>, calls: seq<nat>, from: map<nat, nat>)

  ghost function Enters(us: seq<nat>): (r: seq<Event>)
    ensures |r| == |us| && forall i :: 0 <= i < |us| ==> r[i] == Enter(us[i])
  {
    seq(|us|, i requires 0 <= i < |us| => Enter(us[i]))
  }

  ghost function Begin(start: nat): Dfs {
    Dfs([Enter(start)], {}, [], map[])
  }

  ghost function NewAt(g: Graph, s: Dfs): seq<nat>
    requires s.stack != [] && s.stack[|s.stack| - 1].v in g.succ
  {
    NewOnes(g.succ[s.stack[|s.stack| - 1].v], g.skip, s.marked)
  }

  ghost function AfterEnter(g: Graph, s: Dfs): Dfs
    requires s.stack != [] && s.stack[|s.stack| - 1].v in g.succ
  {
    var v := s.stack[|s.stack| - 1].v;
    var us := NewAt(g, s);
    Dfs(s.stack[..|s.stack| - 1] + [Exit(v)] + Enters(us), s.marked + Elements(us), s.calls,
        map u | u in s.from.Keys + Elements(us) :: if u in us then v else s.from[u])
  }

  ghost function AfterExit(s: Dfs): Dfs
    requires s.stack != []
  {
    s.(stack := s.stack[..|s.stack| - 1], calls := s.calls + [s.stack[|s.stack| - 1].v])
  }

  ghost predicate OnStack(s: Dfs, x: nat) {
    exists i :: 0 <= i < |s.stack| && s.stack[i].v == x
  }

  /** Every node met so far is in exactly one place. */
  ghost predicate PlacesOk(start: nat, s: Dfs) {
    && (forall i, j :: 0 <= i < j < |s.stack| ==> s.stack[i].v != s.stack[j].v)
    && NoDup(s.calls)
    && (forall i :: 0 <= i < |s.stack| ==> s.stack[i].v !in s.calls)
    && (forall x :: x in s.marked || x == start <==> x in s.calls || OnStack(s, x))
    && (s.stack != [] ==> s.stack[0].v == start)
    && (|s.stack| > 1 ==> s.stack[0].Exit?)
    && (s.stack == [] ==> s.calls != [] && s.calls[|s.calls| - 1] == start)
  }

  ghost predicate Expanded(g: Graph, s: Dfs, v: nat) {
    v in g.succ && forall u :: Edge(g, v, u) ==> u in s.marked
  }

  ghost predicate ReachOk(g: Graph, start: nat, s: Dfs) {
    && (forall i :: 0 <= i < |s.stack| ==> Reach(g, start, s.stack[i].v))
    && (forall i :: 0 <= i < |s.calls| ==> Reach(g, start, s.calls[i]) && Expanded(g, s, s.calls[i]))
    && (forall i, j :: 0 <= i < j < |s.stack| && s.stack[i].Exit? ==> Reach(g, s.stack[i].v, s.stack[j].v))
    && (forall i :: 0 <= i < |s.stack| && s.stack[i].Exit? ==> Expanded(g, s, s.stack[i].v))
    && start !in s.marked
  }

  lemma BeginOk(g: Graph, start: nat)
    ensures PlacesOk(start, Begin(start)) && ReachOk(g, start, Begin(start))
  {
    ReachSelf(g, start);
    var s := Begin(start);
    assert OnStack(s, start) by { assert s.stack[0].v == start; }
  }

  lemma EnterStack(g: Graph, s: Dfs)
    requires s.stack != [] && s.stack[|s.stack| - 1].v in g.succ
    ensures var s', n, us := AfterEnter(g, s), |s.stack|, NewAt(g, s);
      && |s'.stack| == n + |us|
      && (forall i :: 0 <= i < n - 1 ==> s'.stack[i] == s.stack[i])
      && s'.stack[n - 1] == Exit(s.stack[n - 1].v)
      && (forall k :: n <= k < n + |us| ==> s'.stack[k] == Enter(us[k - n]))
      && (forall i :: 0 <= i < n ==> s'.stack[i].v == s.stack[i].v)
  {
  }

  lemma EnterOnStack(g: Graph, s: Dfs, x: nat)
    requires s.stack != [] && s.stack[|s.stack| - 1].v in g.succ
    ensures OnStack(AfterEnter(g, s), x) <==> OnStack(s, x) || x in NewAt(g, s)
  {
    EnterStack(g, s);
    var s', n, us := AfterEnter(g, s), |s.stack|, NewAt(g, s);
    if OnStack(s, x) {
      var i :| 0 <= i < n && s.stack[i].v == x;
      assert s'.stack[i].v == x;
    }
    if x in us {
      var k :| 0 <= k < |us| && us[k] == x;
      assert s'.stack[n + k].v == x;
    }
    if OnStack(s', x) {
      var i :| 0 <= i < |s'.stack| && s'.stack[i].v == x;
      if i < n {
        assert s.stack[i].v == x;
      } else {
        assert us[i - n] == x;
      }
    }
  }

  lemma EnterPlaces(g: Graph, start: nat, s: Dfs)
    requires s.stack != [] && s.stack[|s.stack| - 1].v in g.succ && PlacesOk(start, s)
    requires start !in NewAt(g, s)
    ensures PlacesOk(start, AfterEnter(g, s))
  {
    hide OnStack, AfterEnter, NewOnes;
    EnterStack(g, s);
    var s', n, us := AfterEnter(g, s), |s.stack|, NewAt(g, s);
    EnterRest(g, s);
    NewOnesMembers(g.succ[s.stack[n - 1].v], g.skip, s.marked);
    forall x ensures OnStack(s', x) <==> OnStack(s, x) || x in us { EnterOnStack(g, s, x); }
    forall u | u in us ensures u !in s.calls && !OnStack(s, u) {
      assert u !in s.marked && u != start;
    }
    forall i | 0 <= i < n ensures OnStack(s, s.stack[i].v) { StackHas(s, i); }
    forall i, j | 0 <= i < j < |s'.stack| ensures s'.stack[i].v != s'.stack[j].v {
      if j >= n { assert us[j - n] in us; }
    }
    forall i | 0 <= i < |s'.stack| ensures s'.stack[i].v !in s'.calls {
      if i >= n { assert us[i - n] in us; }
    }
  }

  lemma StackHas(s: Dfs, i: nat)
    requires i < |s.stack|
    ensures OnStack(s, s.stack[i].v)
  {
  }

  lemma EnterRest(g: Graph, s: Dfs)
    requires s.stack != [] && s.stack[|s.stack| - 1].v in g.succ
    ensures var s', us := AfterEnter(g, s), NewAt(g, s);
      && s'.calls == s.calls && s'.marked == s.marked + Elements(us)
      && s'.from.Keys == s.from.Keys + Elements(us)
      && forall u :: u in s'.from ==> s'.from[u] == if u in us then s.stack[|s.stack| - 1].v else s.from[u]
  {
  }

  lemma NotStart(g: Graph, rank: nat -> nat, start: nat, s: Dfs)
    requires Ranked(g, rank) && ReachOk(g, start, s) && s.stack != [] && s.stack[|s.stack| - 1].v in g.succ
    ensures start !in NewAt(g, s)
  {
    var v := s.stack[|s.stack| - 1].v;
    NewOnesMembers(g.succ[v], g.skip, s.marked);
    if start in NewAt(g, s) {
      assert Edge(g, v, start);
      ReachRank(g, rank, start, v);
    }
  }

  lemma EnterReach(g: Graph, rank: nat -> nat, start: nat, s: Dfs)
    requires Ranked(g, rank) && s.stack != [] && s.stack[|s.stack| - 1].v in g.succ && ReachOk(g, start, s)
    ensures ReachOk(g, start, AfterEnter(g, s))
  {
    hide AfterEnter, NewOnes, Reach;
    EnterStack(g, s);
    EnterRest(g, s);
    NotStart(g, rank, start, s);
    var s', n, us := AfterEnter(g, s), |s.stack|, NewAt(g, s);
    var v := s.stack[n - 1].v;
    NewOnesMembers(g.succ[v], g.skip, s.marked);
    forall u | u in us ensures Reach(g, v, u) && Reach(g, start, u) {
      ReachEdge(g, v, u);
      ReachTrans(g, start, v, u);
    }
    assert Expanded(g, s', v);
    forall i | 0 <= i < |s'.stack| ensures Reach(g, start, s'.stack[i].v) {
      if i >= n { assert us[i - n] in us; }
    }
    forall i, j | 0 <= i < j < |s'.stack| && s'.stack[i].Exit? ensures Reach(g, s'.stack[i].v, s'.stack[j].v) {
      if j >= n {
        assert us[j - n] in us;
        if i < n - 1 { ReachTrans(g, s.stack[i].v, v, us[j - n]); }
      }
    }
  }

  lemma ExitPlaces(start: nat, s: Dfs)
    requires s.stack != [] && PlacesOk(start, s)
    ensures PlacesOk(start, AfterExit(s))
  {
    var s', n := AfterExit(s), |s.stack|;
    var v := s.stack[n - 1].v;
    NoDupSnoc(s.calls, v);
    forall x ensures x in s'.calls || OnStack(s', x) <==> x in s.calls || OnStack(s, x) {
      if OnStack(s, x) {
        var i :| 0 <= i < n && s.stack[i].v == x;
        if i < n - 1 { assert s'.stack[i].v == x; }
      }
      if OnStack(s', x) {
        var i :| 0 <= i < n - 1 && s'.stack[i].v == x;
        assert s.stack[i].v == x;
      }
    }
  }

  lemma ExitReach(g: Graph, start: nat, s: Dfs)
    requires s.stack != [] && s.stack[|s.stack| - 1].Exit? && ReachOk(g, start, s)
    ensures ReachOk(g, start, AfterExit(s))
  {
    hide Reach;
    var s', n := AfterExit(s), |s.stack|;
    forall v | Expanded(g, s, v) ensures Expanded(g, s', v) {
    }
  }

  // ----- who marked whom -----

  ghost predicate NoExitBetween(s: Dfs, p: int, q: int) {
    forall m :: p < m < q && 0 <= m < |s.stack| ==> s.stack[m].Enter?
  }

  /** `p` is the closest entered node below `q`. */
  ghost predicate Above(s: Dfs, p: int, q: int) {
    0 <= p < q < |s.stack| && s.stack[p].Exit? && NoExitBetween(s, p, q)
  }

  ghost predicate Between(s: Dfs, p: int, q: int, r: int) {
    Above(s, p, r) && p < q < r
  }

  /** What lies on the stack above an entered node, up to and including the next entered
      one, was marked by it, and lies there in the order of its successor list. */
  ghost predicate SegmentsOk(g: Graph, s: Dfs) {
    && s.from.Keys == s.marked
    && (forall p, q :: Above(s, p, q) ==> s.stack[q].v in s.from && s.from[s.stack[q].v] == s.stack[p].v)
    && (forall p, q, r :: Between(s, p, q, r) ==>
          s.stack[p].v in g.succ && ListedBefore(g.succ[s.stack[p].v], s.stack[q].v, s.stack[r].v))
  }

  /** A node that has marked others has been entered. */
  ghost predicate Entered(s: Dfs, w: nat) {
    w in s.calls || exists i :: 0 <= i < |s.stack| && s.stack[i] == Exit(w)
  }

  ghost predicate MarkersOk(g: Graph, s: Dfs) {
    forall u :: u in s.from ==> Edge(g, s.from[u], u) && Entered(s, s.from[u])
  }

  lemma AboveEnter(g: Graph, s: Dfs, p: int, q: int)
    requires s.stack != [] && s.stack[|s.stack| - 1].v in g.succ && Above(AfterEnter(g, s), p, q)
    ensures q < |s.stack| ==> Above(s, p, q)
    ensures q >= |s.stack| ==> p == |s.stack| - 1
  {
    hide AfterEnter, NewAt;
    EnterStack(g, s);
    var s', n := AfterEnter(g, s), |s.stack|;
    if q < n {
      forall m | p < m < q && 0 <= m < n ensures s.stack[m].Enter? { assert s'.stack[m].Enter?; }
    } else {
      assert s'.stack[n - 1].Exit?;
    }
  }

  lemma EnterSegments(g: Graph, s: Dfs)
    requires s.stack != [] && s.stack[|s.stack| - 1].v in g.succ
    requires SegmentsOk(g, s) && forall i :: 0 <= i < |s.stack| ==> s.stack[i].v !in NewAt(g, s)
    ensures SegmentsOk(g, AfterEnter(g, s))
  {
    hide AfterEnter, NewOnes, ListedBefore, NoExitBetween;
    EnterStack(g, s);
    EnterRest(g, s);
    var s', n, us := AfterEnter(g, s), |s.stack|, NewAt(g, s);
    var v := s.stack[n - 1].v;
    forall p, q | Above(s', p, q) ensures s'.stack[q].v in s'.from && s'.from[s'.stack[q].v] == s'.stack[p].v {
      AboveEnter(g, s, p, q);
      if q >= n { assert us[q - n] in us; }
    }
    forall p, q, r | Between(s', p, q, r)
      ensures s'.stack[p].v in g.succ && ListedBefore(g.succ[s'.stack[p].v], s'.stack[q].v, s'.stack[r].v)
    {
      AboveEnter(g, s, p, r);
      assert r < n ==> Between(s, p, q, r);
      if r >= n { NewOnesOrder(g.succ[v], g.skip, s.marked, q - n, r - n); }
    }
  }

  lemma EnterMarkers(g: Graph, s: Dfs)
    requires s.stack != [] && s.stack[|s.stack| - 1].v in g.succ && MarkersOk(g, s)
    ensures MarkersOk(g, AfterEnter(g, s))
  {
    hide AfterEnter, NewOnes;
    EnterStack(g, s);
    EnterRest(g, s);
    var s', n := AfterEnter(g, s), |s.stack|;
    var v := s.stack[n - 1].v;
    NewOnesMembers(g.succ[v], g.skip, s.marked);
    forall w | Entered(s, w) ensures Entered(s', w) {
      if w !in s.calls {
        var i :| 0 <= i < n && s.stack[i] == Exit(w);
        assert s'.stack[i] == Exit(w);
      }
    }
    assert s'.stack[n - 1] == Exit(v) && Entered(s', v);
  }

  lemma AboveExit(s: Dfs, p: int, q: int)
    requires s.stack != [] && Above(AfterExit(s), p, q)
    ensures Above(s, p, q)
  {
    var s' := AfterExit(s);
    forall m | p < m < q && 0 <= m < |s.stack| ensures s.stack[m].Enter? { assert s'.stack[m].Enter?; }
  }

  lemma ExitSegments(g: Graph, s: Dfs)
    requires s.stack != [] && SegmentsOk(g, s)
    ensures SegmentsOk(g, AfterExit(s))
  {
    hide ListedBefore, NoExitBetween;
    var s' := AfterExit(s);
    forall p, q | Above(s', p, q) ensures s'.stack[q].v in s'.from && s'.from[s'.stack[q].v] == s'.stack[p].v {
      AboveExit(s, p, q);
    }
    forall p, q, r | Between(s', p, q, r)
      ensures s'.stack[p].v in g.succ && ListedBefore(g.succ[s'.stack[p].v], s'.stack[q].v, s'.stack[r].v)
    {
      AboveExit(s, p, r);
      assert Between(s, p, q, r);
    }
  }

  lemma ExitMarkers(g: Graph, s: Dfs)
    requires s.stack != [] && MarkersOk(g, s)
    ensures MarkersOk(g, AfterExit(s))
  {
    var s', n := AfterExit(s), |s.stack|;
    forall w | Entered(s, w) ensures Entered(s', w) {
      if w !in s.calls {
        var i :| 0 <= i < n && s.stack[i] == Exit(w);
        if i < n - 1 { assert s'.stack[i] == Exit(w); }
      }
    }
  }

  // ----- siblings are finished last listed first -----

  ghost predicate Siblings(g: Graph, from: map<nat, nat>, a: nat, b: nat) {
    a in from && b in from && from[a] == from[b] && from[a] in g.succ && ListedBefore(g.succ[from[a]], a, b)
  }

  ghost predicate FinishedBefore(calls: seq<nat>, a: nat, b: nat) {
    exists i, j :: 0 <= i < j < |calls| && calls[i] == a && calls[j] == b
  }

  ghost predicate Waiting(s: Dfs, a: nat, b: nat) {
    exists q, r :: 0 <= q < r < |s.stack| && s.stack[q] == Enter(a) && s.stack[r].v == b
  }

  /** `b` has precedence over `a`. */
  ghost predicate Precedes(s: Dfs, a: nat, b: nat) {
    Waiting(s, a, b) || (b in s.calls && OnStack(s, a)) || FinishedBefore(s.calls, b, a)
  }

  ghost predicate SiblingsOk(g: Graph, s: Dfs) {
    forall a, b :: Siblings(g, s.from, a, b) ==> Precedes(s, a, b)
  }

  lemma EnterPrecedes(g: Graph, start: nat, s: Dfs, a: nat, b: nat)
    requires s.stack != [] && s.stack[|s.stack| - 1].v in g.succ && PlacesOk(start, s) && Precedes(s, a, b)
    ensures Precedes(AfterEnter(g, s), a, b)
  {
    hide AfterEnter, NewOnes;
    EnterStack(g, s);
    EnterRest(g, s);
    var s', n := AfterEnter(g, s), |s.stack|;
    if Waiting(s, a, b) {
      var q, r :| 0 <= q < r < n && s.stack[q] == Enter(a) && s.stack[r].v == b;
      assert s'.stack[q] == Enter(a) && s'.stack[r].v == b;
    } else if b in s.calls && OnStack(s, a) {
      var i :| 0 <= i < n && s.stack[i].v == a;
      assert s'.stack[i].v == a;
    }
  }

  lemma EnterSiblings(g: Graph, start: nat, s: Dfs)
    requires s.stack != [] && s.stack[|s.stack| - 1].Enter? && s.stack[|s.stack| - 1].v in g.succ
    requires PlacesOk(start, s) && MarkersOk(g, s) && SiblingsOk(g, s) && s.from.Keys == s.marked
    ensures SiblingsOk(g, AfterEnter(g, s))
  {
    hide AfterEnter, NewOnes, ListedBefore, Precedes;
    EnterStack(g, s);
    EnterRest(g, s);
    var s', n, us := AfterEnter(g, s), |s.stack|, NewAt(g, s);
    var v := s.stack[n - 1].v;
    NewOnesMembers(g.succ[v], g.skip, s.marked);
    NotEntered(start, s);
    forall a, b | Siblings(g, s'.from, a, b) ensures Precedes(s', a, b) {
      if a in us || b in us {
        assert a in us && b in us && s'.from[a] == v;
        var i :| 0 <= i < |us| && us[i] == a;
        var j :| 0 <= j < |us| && us[j] == b;
        NewSiblings(g, s, a, b, i, j);
      } else {
        assert Siblings(g, s.from, a, b);
        EnterPrecedes(g, start, s, a, b);
      }
    }
  }

  lemma NotEntered(start: nat, s: Dfs)
    requires PlacesOk(start, s) && s.stack != [] && s.stack[|s.stack| - 1].Enter?
    ensures !Entered(s, s.stack[|s.stack| - 1].v)
  {
  }

  lemma NewSiblings(g: Graph, s: Dfs, a: nat, b: nat, i: nat, j: nat)
    requires s.stack != [] && s.stack[|s.stack| - 1].v in g.succ
    requires i < |NewAt(g, s)| && j < |NewAt(g, s)| && NewAt(g, s)[i] == a && NewAt(g, s)[j] == b
    requires ListedBefore(g.succ[s.stack[|s.stack| - 1].v], a, b)
    ensures Precedes(AfterEnter(g, s), a, b)
  {
    hide AfterEnter, NewOnes, ListedBefore;
    EnterStack(g, s);
    var s', n, us := AfterEnter(g, s), |s.stack|, g.succ[s.stack[|s.stack| - 1].v];
    ListedBeforeAntisym(us, a, b);
    Distinct(us, a, b);
    if j < i { NewOnesOrder(us, g.skip, s.marked, j, i); }
    assert i < j;
    assert s'.stack[n + i] == Enter(a) && s'.stack[n + j].v == b;
  }

  lemma Distinct(us: seq<nat>, a: nat, b: nat)
    requires ListedBefore(us, a, b)
    ensures a != b
  {
  }

  lemma ExitWaiting(s: Dfs, a: nat, b: nat)
    requires s.stack != [] && Waiting(s, a, b)
    ensures Precedes(AfterExit(s), a, b)
  {
    var s', n := AfterExit(s), |s.stack|;
    var q, r :| 0 <= q < r < n && s.stack[q] == Enter(a) && s.stack[r].v == b;
    assert s'.stack[q] == Enter(a);
    if r < n - 1 {
      assert s'.stack[r].v == b;
    } else {
      assert s'.calls[|s.calls|] == b;
      assert OnStack(s', a);
    }
  }

  lemma ExitCalled(s: Dfs, a: nat, b: nat)
    requires s.stack != [] && b in s.calls && OnStack(s, a)
    ensures Precedes(AfterExit(s), a, b)
  {
    hide Waiting;
    var s', n := AfterExit(s), |s.stack|;
    var i :| 0 <= i < n && s.stack[i].v == a;
    if i < n - 1 {
      assert s'.stack[i].v == a;
    } else {
      var k :| 0 <= k < |s.calls| && s.calls[k] == b;
      assert s'.calls[k] == b && s'.calls[|s.calls|] == a;
    }
  }

  lemma ExitFinished(s: Dfs, a: nat, b: nat)
    requires s.stack != [] && FinishedBefore(s.calls, b, a)
    ensures Precedes(AfterExit(s), a, b)
  {
    hide Waiting, OnStack;
    var s' := AfterExit(s);
    var i, j :| 0 <= i < j < |s.calls| && s.calls[i] == b && s.calls[j] == a;
    assert s'.calls[i] == b && s'.calls[j] == a;
  }

  lemma ExitPrecedes(s: Dfs, a: nat, b: nat)
    requires s.stack != [] && Precedes(s, a, b)
    ensures Precedes(AfterExit(s), a, b)
  {
    hide Waiting, OnStack, FinishedBefore, AfterExit;
    if Waiting(s, a, b) {
      ExitWaiting(s, a, b);
    } else if b in s.calls && OnStack(s, a) {
      ExitCalled(s, a, b);
    } else {
      ExitFinished(s, a, b);
    }
  }

  lemma ExitSiblings(g: Graph, start: nat, s: Dfs)
    requires s.stack != [] && s.stack[|s.stack| - 1].Exit? && PlacesOk(start, s) && SiblingsOk(g, s)
    ensures SiblingsOk(g, AfterExit(s))
  {
    hide Precedes, PlacesOk, ListedBefore;
    forall a, b | Siblings(g, AfterExit(s).from, a, b) ensures Precedes(AfterExit(s), a, b) {
      assert Siblings(g, s.from, a, b);
      ExitPrecedes(s, a, b);
    }
  }

  // ----- when the calls come in post-order -----

  /** Some node marked two of its successors although the later listed one reaches the
      earlier listed one. */
  ghost predicate Conflict(g: Graph, from: map<nat, nat>) {
    exists a, b :: Siblings(g, from, a, b) && Reach(g, b, a)
  }

  ghost predicate SuccessorsFirst(g: Graph, calls: seq<nat>) {
    forall i, u :: 0 <= i < |calls| && Edge(g, calls[i], u) ==> u in calls[..i]
  }

  /** All successors of an entered node are finished or will be before it is. */
  ghost predicate AboveOrDone(g: Graph, s: Dfs) {
    forall i, u :: 0 <= i < |s.stack| && s.stack[i].Exit? && Edge(g, s.stack[i].v, u) ==>
      u in s.calls || exists j :: i < j < |s.stack| && s.stack[j].v == u
  }

  ghost predicate OrderOk(g: Graph, s: Dfs) {
    Conflict(g, s.from) || (SuccessorsFirst(g, s.calls) && AboveOrDone(g, s))
  }

  lemma ExitOrder(g: Graph, s: Dfs)
    requires s.stack != [] && s.stack[|s.stack| - 1].Exit? && SuccessorsFirst(g, s.calls) && AboveOrDone(g, s)
    ensures SuccessorsFirst(g, AfterExit(s).calls) && AboveOrDone(g, AfterExit(s))
  {
    var s', n := AfterExit(s), |s.stack|;
    var v := s.stack[n - 1].v;
    forall i, u | 0 <= i < |s'.calls| && Edge(g, s'.calls[i], u) ensures u in s'.calls[..i] {
      if i < |s.calls| {
        assert s'.calls[..i] == s.calls[..i];
      } else {
        assert s'.calls[..i] == s.calls && u in s.calls;
      }
    }
    forall i, u | 0 <= i < |s'.stack| && s'.stack[i].Exit? && Edge(g, s'.stack[i].v, u)
      ensures u in s'.calls || exists j :: i < j < |s'.stack| && s'.stack[j].v == u
    {
      if u !in s.calls {
        var j :| i < j < n && s.stack[j].v == u;
        if j < n - 1 { assert s'.stack[j].v == u; } else { assert s'.calls[|s.calls|] == u; }
      }
    }
  }

  lemma ConflictGrows(g: Graph, s: Dfs)
    requires s.stack != [] && s.stack[|s.stack| - 1].v in g.succ && Conflict(g, s.from) && s.from.Keys == s.marked
    ensures Conflict(g, AfterEnter(g, s).from)
  {
    hide AfterEnter, NewOnes, Reach, ListedBefore;
    EnterRest(g, s);
    NewOnesMembers(g.succ[s.stack[|s.stack| - 1].v], g.skip, s.marked);
    var a, b :| Siblings(g, s.from, a, b) && Reach(g, b, a);
    assert Siblings(g, AfterEnter(g, s).from, a, b);
  }

  /** The first entered node above position `q`. */
  lemma {:induction false} NextExit(s: Dfs, q: nat, top: nat) returns (r: nat)
    requires q < top < |s.stack| && s.stack[top].Exit?
    ensures q < r <= top && s.stack[r].Exit? && NoExitBetween(s, q, r)
    decreases top - q
  {
    if s.stack[q + 1].Exit? {
      r := q + 1;
    } else {
      r := NextExit(s, q + 1, top);
    }
  }

  /** The last entered node below position `q`. */
  lemma {:induction false} PreviousExit(s: Dfs, q: nat) returns (p: nat)
    requires 0 < q < |s.stack| && s.stack[0].Exit?
    ensures p < q && s.stack[p].Exit? && NoExitBetween(s, p, q)
    decreases q
  {
    if s.stack[q - 1].Exit? {
      p := q - 1;
    } else {
      p := PreviousExit(s, q - 1);
    }
  }

  lemma Blocked(g: Graph, s: Dfs, q: nat, top: nat)
    requires SegmentsOk(g, s) && ReachSegments(g, s) && q < top < |s.stack| && s.stack[top].Exit? && s.stack[q].Enter?
    requires s.stack[0].Exit?
    requires Edge(g, s.stack[top].v, s.stack[q].v)
    ensures Conflict(g, s.from)
  {
    hide Reach, ListedBefore, NoExitBetween, Conflict;
    var r := NextExit(s, q, top);
    var p := PreviousExit(s, q);
    JoinSegments(s, p, q, r);
    assert Above(s, p, q) && Between(s, p, q, r);
    var a, b := s.stack[q].v, s.stack[r].v;
    assert Siblings(g, s.from, a, b);
    ReachEdge(g, s.stack[top].v, a);
    if r < top { ReachTrans(g, b, s.stack[top].v, a); }
    IsConflict(g, s.from, a, b);
  }

  lemma JoinSegments(s: Dfs, p: int, q: int, r: int)
    requires NoExitBetween(s, p, q) && 0 <= q < |s.stack| && s.stack[q].Enter? && NoExitBetween(s, q, r)
    ensures NoExitBetween(s, p, r)
  {
  }

  lemma IsConflict(g: Graph, from: map<nat, nat>, a: nat, b: nat)
    requires Siblings(g, from, a, b) && Reach(g, b, a)
    ensures Conflict(g, from)
  {
  }

  ghost predicate ReachSegments(g: Graph, s: Dfs) {
    forall i, j :: 0 <= i < j < |s.stack| && s.stack[i].Exit? ==> Reach(g, s.stack[i].v, s.stack[j].v)
  }

  /** After entering a node its successors are above it or finished, unless there is a
      conflict. */
  lemma EnterOrder(g: Graph, rank: nat -> nat, start: nat, s: Dfs)
    requires Ranked(g, rank) && s.stack != [] && s.stack[|s.stack| - 1].v in g.succ
    requires PlacesOk(start, AfterEnter(g, s)) && ReachOk(g, start, AfterEnter(g, s)) && SegmentsOk(g, AfterEnter(g, s))
    requires SuccessorsFirst(g, s.calls) && AboveOrDone(g, s)
    requires !Conflict(g, AfterEnter(g, s).from)
    ensures AboveOrDone(g, AfterEnter(g, s))
  {
    hide AfterEnter, NewAt, Conflict, SegmentsOk, Reach;
    EnterStack(g, s);
    EnterRest(g, s);
    var s', n := AfterEnter(g, s), |s.stack|;
    forall i, u | 0 <= i < |s'.stack| && s'.stack[i].Exit? && Edge(g, s'.stack[i].v, u)
      ensures u in s'.calls || exists j :: i < j < |s'.stack| && s'.stack[j].v == u
    {
      if i < n - 1 {
        if u !in s.calls {
          var j :| i < j < n && s.stack[j].v == u;
          assert s'.stack[j].v == u;
        }
      } else if u !in s'.calls {
        assert i == n - 1 && Expanded(g, s', s'.stack[i].v) && u in s'.marked;
        var j :| 0 <= j < |s'.stack| && s'.stack[j].v == u;
        if j <= i { NotBelow(g, rank, start, s', j, i); }
      }
    }
  }

  /** A successor of an entered node cannot lie at or below it on the stack, unless there
      is a conflict. */
  lemma NotBelow(g: Graph, rank: nat -> nat, start: nat, s: Dfs, j: nat, i: nat)
    requires Ranked(g, rank) && PlacesOk(start, s) && ReachOk(g, start, s) && SegmentsOk(g, s)
    requires j <= i < |s.stack| && s.stack[i].Exit? && Edge(g, s.stack[i].v, s.stack[j].v)
    ensures Conflict(g, s.from)
  {
    hide Conflict, SegmentsOk, Reach;
    var v, u := s.stack[i].v, s.stack[j].v;
    assert j < i;
    if s.stack[j].Exit? {
      ReachRank(g, rank, u, v);
      assert false;
    } else {
      StartEntered(g, rank, start, s, i, j);
      Blocked(g, s, j, i);
    }
  }

  lemma StartEntered(g: Graph, rank: nat -> nat, start: nat, s: Dfs, i: nat, j: nat)
    requires Ranked(g, rank) && PlacesOk(start, s) && ReachOk(g, start, s) && j < i < |s.stack|
    requires Edge(g, s.stack[i].v, s.stack[j].v)
    ensures j > 0
  {
    hide Reach;
    ReachRank(g, rank, start, s.stack[i].v);
  }

  // ----- all of it together -----

  ghost predicate DfsOk(g: Graph, start: nat, s: Dfs) {
    PlacesOk(start, s) && ReachOk(g, start, s) && SegmentsOk(g, s) && MarkersOk(g, s) && SiblingsOk(g, s)
      && OrderOk(g, s)
  }

  lemma BeginDfs(g: Graph, start: nat)
    ensures DfsOk(g, start, Begin(start))
  {
    BeginOk(g, start);
  }

  lemma EnterDfs(g: Graph, rank: nat -> nat, start: nat, s: Dfs)
    requires Ranked(g, rank) && DfsOk(g, start, s) && s.stack != [] && s.stack[|s.stack| - 1].Enter?
    requires s.stack[|s.stack| - 1].v in g.succ
    ensures DfsOk(g, start, AfterEnter(g, s))
  {
    hide AfterEnter, NewOnes, PlacesOk, ReachOk, MarkersOk, SiblingsOk, Conflict, SuccessorsFirst, AboveOrDone;
    NotStart(g, rank, start, s);
    EnterPlaces(g, start, s);
    EnterReach(g, rank, start, s);
    NotNew(g, start, s);
    EnterSegments(g, s);
    EnterMarkers(g, s);
    EnterSiblings(g, start, s);
    EnterRest(g, s);
    if Conflict(g, s.from) {
      ConflictGrows(g, s);
    } else if !Conflict(g, AfterEnter(g, s).from) {
      EnterOrder(g, rank, start, s);
    }
  }

  lemma NotNew(g: Graph, start: nat, s: Dfs)
    requires PlacesOk(start, s) && s.stack != [] && s.stack[|s.stack| - 1].v in g.succ && start !in NewAt(g, s)
    ensures forall i :: 0 <= i < |s.stack| ==> s.stack[i].v !in NewAt(g, s)
  {
    NewOnesMembers(g.succ[s.stack[|s.stack| - 1].v], g.skip, s.marked);
    forall i | 0 <= i < |s.stack| ensures s.stack[i].v !in NewAt(g, s) {
      assert OnStack(s, s.stack[i].v);
    }
  }

  lemma ExitDfs(g: Graph, start: nat, s: Dfs)
    requires DfsOk(g, start, s) && s.stack != [] && s.stack[|s.stack| - 1].Exit?
    ensures DfsOk(g, start, AfterExit(s))
  {
    hide PlacesOk, ReachOk, MarkersOk, SiblingsOk, SegmentsOk, Conflict, SuccessorsFirst, AboveOrDone;
    ExitPlaces(start, s);
    ExitReach(g, start, s);
    ExitSegments(g, s);
    ExitMarkers(g, s);
    ExitSiblings(g, start, s);
    if !Conflict(g, s.from) { ExitOrder(g, s); }
  }

  // ----- termination -----

  ghost function AllSuccessors(g: Graph): set<nat> {
    set v, i | v in g.succ && 0 <= i < |g.succ[v]| :: g.succ[v][i]
  }

  ghost function EnterCount(stack: seq<Event>): nat {
    if stack == [] then 0 else EnterCount(stack[..|stack| - 1]) + (if stack[|stack| - 1].Enter? then 1 else 0)
  }

  lemma EnterLess(g: Graph, s: Dfs)
    requires s.stack != [] && s.stack[|s.stack| - 1].Enter? && s.stack[|s.stack| - 1].v in g.succ
    ensures var s' := AfterEnter(g, s); var u := AllSuccessors(g);
      |u - s'.marked| < |u - s.marked| || (s'.marked == s.marked && EnterCount(s'.stack) < EnterCount(s.stack))
  {
    var s', us, v, all := AfterEnter(g, s), NewAt(g, s), s.stack[|s.stack| - 1].v, AllSuccessors(g);
    NewOnesMembers(g.succ[v], g.skip, s.marked);
    if us == [] {
      assert s'.stack[..|s.stack| - 1] == s.stack[..|s.stack| - 1];
      assert s'.marked == s.marked;
    } else {
      var u := us[0];
      assert u in us && u in g.succ[v];
      var i :| 0 <= i < |g.succ[v]| && g.succ[v][i] == u;
      assert u in all && u in s'.marked;
      StrictlyLess(all - s'.marked, all - s.marked, u);
    }
  }

  lemma StrictlyLess(a: set<nat>, b: set<nat>, x: nat)
    requires a <= b && x in b && x !in a
    ensures |a| < |b|
  {
    assert b == a + (b - a) && x in b - a;
  }

  lemma ExitLess(s: Dfs)
    requires s.stack != [] && s.stack[|s.stack| - 1].Exit?
    ensures EnterCount(AfterExit(s).stack) == EnterCount(s.stack)
  {
  }

  // ----- the walk as a function of the graph -----

  /** The state in which the main loop ends, or nothing if it panics on an unknown node. */
  ghost function Walk(g: Graph, s: Dfs): Option<Dfs>
    decreases |AllSuccessors(g) - s.marked|, EnterCount(s.stack), |s.stack|
  {
    if s.stack == [] then Some(s)
    else if s.stack[|s.stack| - 1].Exit? then
      ExitLess(s);
      Walk(g, AfterExit(s))
    else if s.stack[|s.stack| - 1].v !in g.succ then None
    else
      EnterLess(g, s);
      Walk(g, AfterEnter(g, s))
  }

  /** Which node marks which when the walk begins at `start`. */
  ghost function Markers(g: Graph, start: nat): map<nat, nat> {
    var w := Walk(g, Begin(start));
    if w.Some? then w.value.from else map[]
  }

  lemma WalkEnter(g: Graph, s: Dfs)
    requires s.stack != [] && s.stack[|s.stack| - 1].Enter?
    ensures Walk(g, s) == if s.stack[|s.stack| - 1].v in g.succ then Walk(g, AfterEnter(g, s)) else None
  {
    hide AfterEnter, AllSuccessors, EnterCount;
  }

  lemma WalkExit(g: Graph, s: Dfs)
    requires s.stack != [] && s.stack[|s.stack| - 1].Exit?
    ensures Walk(g, s) == Walk(g, AfterExit(s))
  {
    hide AfterExit, AllSuccessors, EnterCount;
  }

  lemma WalkEnd(g: Graph, s: Dfs)
    requires s.stack == []
    ensures Walk(g, s) == Some(s)
  {
  }

  // ----- the method -----

  /** The calls `post_order_for_each` makes to `f`, in order. Failure stands for the panic
      of looking up the successors of an unknown node.

      Every node that can be reached is called exactly once and the start comes last. The
      calls are in post-order exactly if no node marks two of its successors of which the
      later listed one reaches the earlier listed one. */
  method PostOrderForEach(g: Graph, start: nat, ghost rank: nat -> nat) returns (ok: bool, calls: seq<nat>)
    requires Ranked(g, rank)
    ensures ok == Walk(g, Begin(start)).Some? && (ok ==> calls == Walk(g, Begin(start)).value.calls)
    ensures ok <==> forall v :: Reach(g, start, v) ==> v in g.succ
    ensures ok ==> NoDup(calls) && (forall v :: v in calls <==> Reach(g, start, v))
    ensures ok ==> calls != [] && calls[|calls| - 1] == start
    ensures ok ==> (SuccessorsFirst(g, calls) <==> !Conflict(g, Markers(g, start)))
  {
    hide DfsOk, AfterEnter, AfterExit, Reach, SuccessorsFirst, Conflict, EnterCount, AllSuccessors, NewOnes, NoDup,
         Walk, Begin;
    var stack, visited := [Enter(start)], {};
    calls := [];
    ghost var from := map[];
    BeginDfs(g, start);
    BeginIs(start);
    while stack != []
      invariant DfsOk(g, start, Dfs(stack, visited, calls, from))
      invariant Walk(g, Dfs(stack, visited, calls, from)) == Walk(g, Begin(start))
      decreases |AllSuccessors(g) - visited|, EnterCount(stack), |stack|
    {
      ghost var s := Dfs(stack, visited, calls, from);
      var v := stack[|stack| - 1].v;
      if stack[|stack| - 1].Enter? {
        WalkEnter(g, s);
        if v !in g.succ {
          TopReached(g, start, s);
          return false, calls;
        }
        EnterDfs(g, rank, start, s);
        EnterLess(g, s);
        stack := stack[..|stack| - 1] + [Exit(v)];
        stack, visited := PushNew(g.succ[v], g.skip, stack, visited);
        from := AfterEnter(g, s).from;
        AfterEnterIs(g, s);
      } else {
        WalkExit(g, s);
        ExitDfs(g, start, s);
        ExitLess(s);
        stack := stack[..|stack| - 1];
        calls := calls + [v];
        AfterExitIs(s);
      }
    }
    WalkEnd(g, Dfs(stack, visited, calls, from));
    Finish(g, start, Dfs(stack, visited, calls, from));
    ok := true;
  }

  lemma BeginIs(start: nat)
    ensures Begin(start) == Dfs([Enter(start)], {}, [], map[])
  {
  }

  /** The loop over the successors: each that is visitable and not marked yet is marked
      and pushed. */
  method PushNew(us: seq<nat>, skip: set<nat>, stack: seq<Event>, visited: set<nat>)
    returns (stack': seq<Event>, visited': set<nat>)
    ensures stack' == stack + Enters(NewOnes(us, skip, visited))
    ensures visited' == visited + Elements(NewOnes(us, skip, visited))
  {
    hide NewOnes, Elements, Enters, NoDup;
    stack', visited' := stack, visited;
    NewNone(skip, visited);
    for i := 0 to |us|
      invariant stack' == stack + Enters(NewOnes(us[..i], skip, visited))
      invariant visited' == visited + Elements(NewOnes(us[..i], skip, visited))
    {
      NewStep(us, skip, visited, i);
      if us[i] !in skip && us[i] !in visited' {
        visited' := visited' + {us[i]};
        stack' := stack' + [Enter(us[i])];
      }
    }
    assert us[..|us|] == us;
  }

  lemma NewNone(skip: set<nat>, marked: set<nat>)
    ensures NewOnes([], skip, marked) == [] && Enters([]) == [] && Elements<nat>([]) == {}
  {
  }

  lemma NewStep(us: seq<nat>, skip: set<nat>, marked: set<nat>, i: nat)
    requires i < |us|
    ensures var news, news' := NewOnes(us[..i], skip, marked), NewOnes(us[..i + 1], skip, marked);
      if us[i] !in skip && us[i] !in marked + Elements(news)
      then Enters(news') == Enters(news) + [Enter(us[i])] && Elements(news') == Elements(news) + {us[i]}
      else news' == news
  {
    assert us[..i + 1][..i] == us[..i] && us[..i + 1][i] == us[i];
    var news, news' := NewOnes(us[..i], skip, marked), NewOnes(us[..i + 1], skip, marked);
    if us[i] !in skip && us[i] !in marked + Elements(news) {
      assert news' == news + [us[i]];
      assert Enters(news') == Enters(news) + [Enter(us[i])];
    }
  }

  lemma AfterEnterIs(g: Graph, s: Dfs)
    requires s.stack != [] && s.stack[|s.stack| - 1].v in g.succ
    ensures var v, us, s' := s.stack[|s.stack| - 1].v, NewAt(g, s), AfterEnter(g, s);
      s' == Dfs(s.stack[..|s.stack| - 1] + [Exit(v)] + Enters(us), s.marked + Elements(us), s.calls, s'.from)
  {
  }

  lemma AfterExitIs(s: Dfs)
    requires s.stack != []
    ensures AfterExit(s) == Dfs(s.stack[..|s.stack| - 1], s.marked, s.calls + [s.stack[|s.stack| - 1].v], s.from)
  {
  }

  lemma TopReached(g: Graph, start: nat, s: Dfs)
    requires DfsOk(g, start, s) && s.stack != []
    ensures Reach(g, start, s.stack[|s.stack| - 1].v)
  {
  }

  lemma Finish(g: Graph, start: nat, s: Dfs)
    requires DfsOk(g, start, s) && s.stack == []
    ensures forall v :: Reach(g, start, v) ==> v in g.succ
    ensures NoDup(s.calls) && (forall v :: v in s.calls <==> Reach(g, start, v))
    ensures s.calls != [] && s.calls[|s.calls| - 1] == start
    ensures SuccessorsFirst(g, s.calls) <==> !Conflict(g, s.from)
    ensures forall u :: u in s.from ==> Reach(g, start, s.from[u]) && Edge(g, s.from[u], u)
  {
    hide SegmentsOk, SuccessorsFirst, AboveOrDone, Conflict, SiblingsOk;
    forall x ensures !OnStack(s, x) {
    }
    forall v | Reach(g, start, v) ensures v in s.calls {
      var n: nat :| ReachIn(g, start, v, n);
      FinishedClosed(g, start, s);
      ClosedReach(g, Elements(s.calls), start, v, n);
    }
    forall u | u in s.from ensures s.from[u] in s.calls {
    }
    if Conflict(g, s.from) { ConflictBreaks(g, s); }
  }

  lemma FinishedClosed(g: Graph, start: nat, s: Dfs)
    requires PlacesOk(start, s) && ReachOk(g, start, s) && s.stack == []
    ensures start in s.calls && forall v, u :: v in s.calls && Edge(g, v, u) ==> u in s.calls
  {
    hide Reach;
    assert s.calls[|s.calls| - 1] in s.calls;
    forall v, u | v in s.calls && Edge(g, v, u) ensures u in s.calls {
      var i :| 0 <= i < |s.calls| && s.calls[i] == v;
      assert Expanded(g, s, s.calls[i]) && u in s.marked;
      assert !OnStack(s, u);
    }
  }

  /** In post-order a node comes after everything it reaches. */
  lemma {:induction false} ReachedEarlier(g: Graph, calls: seq<nat>, i: nat, b: nat, n: nat)
    requires SuccessorsFirst(g, calls) && i < |calls| && ReachIn(g, calls[i], b, n)
    ensures b in calls[..i + 1]
    decreases n
  {
    if n == 0 {
      assert calls[..i + 1][i] == b;
    } else {
      var x :| Edge(g, calls[i], x) && ReachIn(g, x, b, n - 1);
      assert x in calls[..i];
      var j :| 0 <= j < i && calls[..i][j] == x;
      ReachedEarlier(g, calls, j, b, n - 1);
      assert calls[..j + 1] <= calls[..i + 1];
    }
  }

  lemma ConflictBreaks(g: Graph, s: Dfs)
    requires SiblingsOk(g, s) && s.stack == [] && NoDup(s.calls) && Conflict(g, s.from)
    ensures !SuccessorsFirst(g, s.calls)
  {
    var a, b :| Siblings(g, s.from, a, b) && Reach(g, b, a);
    assert Precedes(s, a, b);
    var i, j :| 0 <= i < j < |s.calls| && s.calls[i] == b && s.calls[j] == a;
    if SuccessorsFirst(g, s.calls) {
      var n: nat :| ReachIn(g, b, a, n);
      ReachedEarlier(g, s.calls, i, a, n);
    }
  }

  /** No later listed successor of a reachable node reaches a different, earlier listed
      one. This can be checked without running the walk. */
  ghost predicate CrossFree(g: Graph, start: nat) {
    forall w, a, b :: Reach(g, start, w) && Edge(g, w, a) && Edge(g, w, b) && ListedBefore(g.succ[w], a, b) ==>
      !Reach(g, b, a)
  }

  lemma {:induction false} WalkKeeps(g: Graph, rank: nat -> nat, start: nat, s: Dfs)
    requires Ranked(g, rank) && DfsOk(g, start, s) && Walk(g, s).Some?
    ensures DfsOk(g, start, Walk(g, s).value) && Walk(g, s).value.stack == []
    decreases |AllSuccessors(g) - s.marked|, EnterCount(s.stack), |s.stack|
  {
    hide Ranked, DfsOk, AllSuccessors, EnterCount, AfterEnter, AfterExit;
    if s.stack != [] {
      if s.stack[|s.stack| - 1].Enter? {
        EnterDfs(g, rank, start, s);
        EnterLess(g, s);
        WalkKeeps(g, rank, start, AfterEnter(g, s));
      } else {
        ExitDfs(g, start, s);
        ExitLess(s);
        AfterExitIs(s);
        WalkKeeps(g, rank, start, AfterExit(s));
      }
    }
  }

  /** The walk does not panic if every reachable node is known. */
  lemma {:induction false} WalkEnds(g: Graph, rank: nat -> nat, start: nat, s: Dfs)
    requires Ranked(g, rank) && DfsOk(g, start, s) && forall v :: Reach(g, start, v) ==> v in g.succ
    ensures Walk(g, s).Some?
    decreases |AllSuccessors(g) - s.marked|, EnterCount(s.stack), |s.stack|
  {
    hide Ranked, DfsOk, AllSuccessors, EnterCount, AfterEnter, AfterExit, Reach;
    if s.stack != [] {
      if s.stack[|s.stack| - 1].Enter? {
        TopReached(g, start, s);
        EnterDfs(g, rank, start, s);
        EnterLess(g, s);
        WalkEnds(g, rank, start, AfterEnter(g, s));
      } else {
        ExitDfs(g, start, s);
        ExitLess(s);
        AfterExitIs(s);
        WalkEnds(g, rank, start, AfterExit(s));
      }
    }
  }

  ghost function Example(a: nat, b: nat, c: nat): Graph
    requires a != b && b != c && a != c
  {
    Graph(map[a := [], b := [a], c := [a, b]], {})
  }

  lemma NewAtExample(a: nat, b: nat)
    requires a != b
    ensures NewOnes([a, b], {}, {}) == [a, b] && NewOnes([a], {}, {a, b}) == [] && NewOnes([], {}, {a, b}) == []
  {
    assert [a, b][..1] == [a] && [a][..0] == [];
    assert NewOnes([], {}, {}) == [] && NewOnes([a], {}, {}) == [a];
  }

  lemma EnterGives(g: Graph, rest: seq<Event>, v: nat, us: seq<nat>, s: Dfs, s': Dfs)
    requires v in g.succ && NewOnes(g.succ[v], g.skip, s.marked) == us
    requires s.stack == rest + [Enter(v)] && s'.stack == rest + [Exit(v)] + Enters(us)
    requires s'.marked == s.marked + Elements(us) && s'.calls == s.calls
    requires s'.from.Keys == s.from.Keys + Elements(us)
    requires forall u :: u in s'.from ==> s'.from[u] == if u in us then v else s.from[u]
    ensures Walk(g, s) == Walk(g, s')
  {
    hide Walk, NewOnes;
    WalkEnter(g, s);
    assert s.stack[..|s.stack| - 1] == rest;
    assert AfterEnter(g, s).from == s'.from;
  }

  lemma ExitGives(g: Graph, rest: seq<Event>, v: nat, s: Dfs, s': Dfs)
    requires s.stack == rest + [Exit(v)] && s' == Dfs(rest, s.marked, s.calls + [v], s.from)
    ensures Walk(g, s) == Walk(g, s')
  {
    hide Walk;
    WalkExit(g, s);
    assert s.stack[..|s.stack| - 1] == rest;
  }

  /** The walk is not always a post-order: `c` lists `a` and then `b`, and `b` lists `a`.
      Then `b` is called before its successor `a`, and there is a conflict at `c`. */
  lemma NotAlwaysPostOrder(a: nat, b: nat, c: nat)
    requires a != b && b != c && a != c
    ensures var g := Example(a, b, c);
      && Edge(g, b, a) && Walk(g, Begin(c)).Some? && Walk(g, Begin(c)).value.calls == [b, a, c]
      && Conflict(g, Markers(g, c))
  {
    hide Walk, NewOnes, Conflict;
    var g := Example(a, b, c);
    NewAtExample(a, b);
    var from := map[a := c, b := c];
    BeginIs(c);
    Listed(a, b);
    var s1 := Dfs([Exit(c), Enter(a), Enter(b)], {a, b}, [], from);
    var s2 := s1.(stack := [Exit(c), Enter(a), Exit(b)]);
    var s3 := Dfs([Exit(c), Enter(a)], {a, b}, [b], from);
    var s4 := s3.(stack := [Exit(c), Exit(a)]);
    var s5 := Dfs([Exit(c)], {a, b}, [b, a], from);
    var s6 := Dfs([], {a, b}, [b, a, c], from);
    EnterGives(g, [], c, [a, b], Begin(c), s1);
    EnterGives(g, [Exit(c), Enter(a)], b, [], s1, s2);
    ExitGives(g, [Exit(c), Enter(a)], b, s2, s3);
    EnterGives(g, [Exit(c)], a, [], s3, s4);
    ExitGives(g, [Exit(c)], a, s4, s5);
    ExitGives(g, [], c, s5, s6);
    WalkEnd(g, s6);
    ReachEdge(g, b, a);
    IsConflict(g, from, a, b);
  }

  lemma Listed(a: nat, b: nat)
    requires a != b
    ensures ListedBefore([a, b], a, b)
  {
    assert [a, b][0] == a && b !in [a, b][..0];
  }
}
