/** When `post_order_for_each` is a post-order, in terms of the graph and of an ordinary
    depth-first search, which marks a node when it enters it. */
module DepthFirst {
  import opened Prelude
  import opened PostOrder

  /** The visitable successors in order, each once. */
  ghost function Distinct(g: Graph, v: nat): seq<nat> {
    if v in g.succ then NewOnes(g.succ[v], g.skip, {}) else []
  }

  ghost predicate Below(rank: nat -> nat, bound: nat, us: seq<nat>) {
    forall u :: u in us ==> rank(u) < bound
  }

  lemma DistinctBelow(g: Graph, rank: nat -> nat, v: nat)
    requires Ranked(g, rank)
    ensures Below(rank, rank(v), Distinct(g, v))
  {
    if v in g.succ {
      NewOnesMembers(g.succ[v], g.skip, {});
      forall u | u in Distinct(g, v) ensures rank(u) < rank(v) { assert Edge(g, v, u); }
    }
  }

  /** Depth-first search from the nodes in `us`, the later listed ones first: the nodes
      finished, in order, after those in `done`. */
  ghost function Search(g: Graph, rank: nat -> nat, bound: nat, us: seq<nat>, done: seq<nat>): seq<nat>
    requires Ranked(g, rank) && Below(rank, bound, us)
    decreases bound, |us|
  {
    if us == [] then done
    else
      var u, rest := us[|us| - 1], us[..|us| - 1];
      DistinctBelow(g, rank, u);
      Search(g, rank, bound, rest, if u in done then done else Search(g, rank, rank(u), Distinct(g, u), done) + [u])
  }

  /** At a node entered when the nodes in `done` are finished: if a later listed successor
      reaches an earlier listed one then that one is finished already. */
  ghost predicate Crossless(g: Graph, v: nat, done: seq<nat>) {
    forall a, b :: Edge(g, v, a) && Edge(g, v, b) && ListedBefore(g.succ[v], a, b) && Reach(g, b, a) ==> a in done
  }

  /** That is so at every node the search enters. */
  ghost predicate Orderly(g: Graph, rank: nat -> nat, bound: nat, us: seq<nat>, done: seq<nat>)
    requires Ranked(g, rank) && Below(rank, bound, us)
    decreases bound, |us|
  {
    us == [] || (
      var u, rest := us[|us| - 1], us[..|us| - 1];
      DistinctBelow(g, rank, u);
      && (u !in done ==> Crossless(g, u, done) && Orderly(g, rank, rank(u), Distinct(g, u), done))
      && var done' := if u in done then done else Search(g, rank, rank(u), Distinct(g, u), done) + [u];
         Orderly(g, rank, bound, rest, done'))
  }

  /** The condition for the walk from `start`. */
  ghost predicate OrderlyFrom(g: Graph, rank: nat -> nat, start: nat)
    requires Ranked(g, rank)
  {
    Orderly(g, rank, rank(start) + 1, [start], [])
  }

  // ----- one node at a time -----

  /** The nodes finished after the search from `u`. */
  ghost function FinishNode(g: Graph, rank: nat -> nat, u: nat, done: seq<nat>): seq<nat>
    requires Ranked(g, rank)
  {
    DistinctBelow(g, rank, u);
    if u in done then done else Search(g, rank, rank(u), Distinct(g, u), done) + [u]
  }

  ghost predicate OrderlyNode(g: Graph, rank: nat -> nat, u: nat, done: seq<nat>)
    requires Ranked(g, rank)
  {
    DistinctBelow(g, rank, u);
    u !in done ==> Crossless(g, u, done) && Orderly(g, rank, rank(u), Distinct(g, u), done)
  }

  lemma SearchSnoc(g: Graph, rank: nat -> nat, bound: nat, us: seq<nat>, u: nat, done: seq<nat>)
    requires Ranked(g, rank) && Below(rank, bound, us + [u])
    ensures Below(rank, bound, us)
    ensures Search(g, rank, bound, us + [u], done) == Search(g, rank, bound, us, FinishNode(g, rank, u, done))
    ensures Orderly(g, rank, bound, us + [u], done) <==>
      OrderlyNode(g, rank, u, done) && Orderly(g, rank, bound, us, FinishNode(g, rank, u, done))
  {
    hide Ranked, Distinct, Crossless;
    var all := us + [u];
    assert all[|all| - 1] == u && all[..|all| - 1] == us;
  }

  lemma SearchNone(g: Graph, rank: nat -> nat, bound: nat, done: seq<nat>)
    requires Ranked(g, rank)
    ensures Search(g, rank, bound, [], done) == done && Orderly(g, rank, bound, [], done)
  {
  }

  // ----- the search continued from a stack -----

  ghost function Resume(g: Graph, rank: nat -> nat, stack: seq<Event>, done: seq<nat>): seq<nat>
    requires Ranked(g, rank)
    decreases |stack|
  {
    if stack == [] then done
    else
      var e, rest := stack[|stack| - 1], stack[..|stack| - 1];
      Resume(g, rank, rest, if e.Exit? then done + [e.v] else FinishNode(g, rank, e.v, done))
  }

  ghost predicate OrderlyStack(g: Graph, rank: nat -> nat, stack: seq<Event>, done: seq<nat>)
    requires Ranked(g, rank)
    decreases |stack|
  {
    stack == [] || (
      var e, rest := stack[|stack| - 1], stack[..|stack| - 1];
      && (e.Enter? ==> OrderlyNode(g, rank, e.v, done))
      && OrderlyStack(g, rank, rest, if e.Exit? then done + [e.v] else FinishNode(g, rank, e.v, done)))
  }

  lemma ResumeSnoc(g: Graph, rank: nat -> nat, stack: seq<Event>, e: Event, done: seq<nat>)
    requires Ranked(g, rank)
    ensures var done' := if e.Exit? then done + [e.v] else FinishNode(g, rank, e.v, done);
      && Resume(g, rank, stack + [e], done) == Resume(g, rank, stack, done')
      && (OrderlyStack(g, rank, stack + [e], done) <==>
            (e.Enter? ==> OrderlyNode(g, rank, e.v, done)) && OrderlyStack(g, rank, stack, done'))
  {
    hide Ranked, FinishNode, OrderlyNode;
    var all := stack + [e];
    assert all[|all| - 1] == e && all[..|all| - 1] == stack;
  }

  lemma EntersSnoc(base: seq<Event>, us: seq<nat>, u: nat)
    ensures base + Enters(us + [u]) == (base + Enters(us)) + [Enter(u)]
  {
  }

  lemma {:induction false} ResumeEnters(g: Graph, rank: nat -> nat, bound: nat, base: seq<Event>, us: seq<nat>,
                                        done: seq<nat>)
    requires Ranked(g, rank) && Below(rank, bound, us)
    ensures Resume(g, rank, base + Enters(us), done) == Resume(g, rank, base, Search(g, rank, bound, us, done))
    ensures OrderlyStack(g, rank, base + Enters(us), done) <==>
      Orderly(g, rank, bound, us, done) && OrderlyStack(g, rank, base, Search(g, rank, bound, us, done))
    decreases |us|
  {
    hide Ranked, Search, Orderly, Resume, OrderlyStack, FinishNode, OrderlyNode, Enters, Below;
    if us == [] {
      SearchNone(g, rank, bound, done);
      NoEnters(base);
    } else {
      var u, rest := us[|us| - 1], us[..|us| - 1];
      assert us == rest + [u];
      SearchSnoc(g, rank, bound, rest, u, done);
      EntersSnoc(base, rest, u);
      ResumeSnoc(g, rank, base + Enters(rest), Enter(u), done);
      ResumeEnters(g, rank, bound, base, rest, FinishNode(g, rank, u, done));
    }
  }

  lemma NoEnters(base: seq<Event>)
    ensures base + Enters([]) == base
  {
  }

  lemma {:induction false} SearchGrows(g: Graph, rank: nat -> nat, bound: nat, us: seq<nat>, done: seq<nat>)
    requires Ranked(g, rank) && Below(rank, bound, us)
    ensures forall x :: x in done ==> x in Search(g, rank, bound, us, done)
    decreases bound, |us|
  {
    hide Ranked, Distinct;
    if us != [] {
      var u, rest := us[|us| - 1], us[..|us| - 1];
      DistinctBelow(g, rank, u);
      if u !in done { SearchGrows(g, rank, rank(u), Distinct(g, u), done); }
      SearchGrows(g, rank, bound, rest, FinishNode(g, rank, u, done));
    }
  }

  lemma FinishGrows(g: Graph, rank: nat -> nat, u: nat, done: seq<nat>)
    requires Ranked(g, rank)
    ensures forall x :: x in done ==> x in FinishNode(g, rank, u, done)
    ensures u in done ==> FinishNode(g, rank, u, done) == done && OrderlyNode(g, rank, u, done)
  {
    hide Ranked, Distinct, Search, Orderly;
    DistinctBelow(g, rank, u);
    SearchGrows(g, rank, rank(u), Distinct(g, u), done);
  }

  /** Leaving out successors that are finished makes no difference. */
  lemma {:induction false} SearchNew(g: Graph, rank: nat -> nat, bound: nat, us: seq<nat>, marked: set<nat>,
                                     done: seq<nat>)
    requires Ranked(g, rank) && Below(rank, bound, NewOnes(us, g.skip, {}))
    requires forall x :: x in us && x !in g.skip && x in marked ==> x in done
    ensures Below(rank, bound, NewOnes(us, g.skip, marked))
    ensures Search(g, rank, bound, NewOnes(us, g.skip, marked), done) ==
      Search(g, rank, bound, NewOnes(us, g.skip, {}), done)
    ensures Orderly(g, rank, bound, NewOnes(us, g.skip, marked), done) <==>
      Orderly(g, rank, bound, NewOnes(us, g.skip, {}), done)
    decreases |us|
  {
    hide Ranked, Search, Orderly, FinishNode, OrderlyNode, NewOnes;
    NewBelow(rank, bound, us, g.skip, marked);
    if us == [] {
      NewNone(g.skip, {});
      NewNone(g.skip, marked);
    } else {
      var u, init := us[|us| - 1], us[..|us| - 1];
      assert us == init + [u];
      var all, some := NewOnes(init, g.skip, {}), NewOnes(init, g.skip, marked);
      NewSnoc(init, u, g.skip, marked);
      if u in g.skip || u in all {
        SearchNew(g, rank, bound, init, marked, done);
      } else {
        SearchSnoc(g, rank, bound, all, u, done);
        FinishGrows(g, rank, u, done);
        SearchNew(g, rank, bound, init, marked, FinishNode(g, rank, u, done));
        if u !in marked { SearchSnoc(g, rank, bound, some, u, done); }
      }
    }
  }

  lemma NewBelow(rank: nat -> nat, bound: nat, us: seq<nat>, skip: set<nat>, marked: set<nat>)
    requires Below(rank, bound, NewOnes(us, skip, {}))
    ensures Below(rank, bound, NewOnes(us, skip, marked))
  {
    hide NewOnes, NoDup;
    NewOnesMembers(us, skip, {});
    NewOnesMembers(us, skip, marked);
  }

  /** How the last successor changes the list, with and without the marks. */
  lemma NewSnoc(init: seq<nat>, u: nat, skip: set<nat>, marked: set<nat>)
    ensures var all, all' := NewOnes(init, skip, {}), NewOnes(init + [u], skip, {});
      var some, some' := NewOnes(init, skip, marked), NewOnes(init + [u], skip, marked);
      && all' == (if u in skip || u in all then all else all + [u])
      && some' == (if u in skip || u in all || u in marked then some else some + [u])
  {
    var us := init + [u];
    assert us[|us| - 1] == u && us[..|us| - 1] == init;
    NewOnesMembers(init, skip, {});
    NewOnesMembers(init, skip, marked);
  }

  // ----- one step of the walk -----

  ghost predicate AtEnter(g: Graph, s: Dfs) {
    s.stack != [] && s.stack[|s.stack| - 1].Enter? && s.stack[|s.stack| - 1].v in g.succ
  }

  lemma TopNotCalled(start: nat, s: Dfs)
    requires PlacesOk(start, s) && s.stack != []
    ensures s.stack[|s.stack| - 1].v !in s.calls
  {
  }

  /** As long as marked successors are finished, the walk does what the search does. */
  lemma EnterSearch(g: Graph, rank: nat -> nat, s: Dfs)
    requires Ranked(g, rank) && AtEnter(g, s) && s.stack[|s.stack| - 1].v !in s.calls
    requires forall u :: Edge(g, s.stack[|s.stack| - 1].v, u) && u in s.marked ==> u in s.calls
    ensures var v, s' := s.stack[|s.stack| - 1].v, AfterEnter(g, s);
      && Resume(g, rank, s.stack, s.calls) == Resume(g, rank, s'.stack, s'.calls)
      && (OrderlyStack(g, rank, s.stack, s.calls) <==>
            Crossless(g, v, s.calls) && OrderlyStack(g, rank, s'.stack, s'.calls))
  {
    hide Ranked, Crossless, Search, Orderly, NewOnes, AfterEnter, Resume, OrderlyStack, Below;
    AfterEnterIs(g, s);
    var n, v, done := |s.stack|, s.stack[|s.stack| - 1].v, s.calls;
    var base, new' := s.stack[..n - 1], NewAt(g, s);
    DistinctBelow(g, rank, v);
    SearchNew(g, rank, rank(v), g.succ[v], s.marked, done);
    ResumeEnters(g, rank, rank(v), base + [Exit(v)], new', done);
    ResumeSnoc(g, rank, base, Exit(v), Search(g, rank, rank(v), new', done));
    ResumeSnoc(g, rank, base, Enter(v), done);
    assert s.stack == base + [Enter(v)];
  }

  lemma MarkedDone(g: Graph, start: nat, s: Dfs, u: nat)
    requires AtEnter(g, s) && DfsOk(g, start, AfterEnter(g, s)) && !Conflict(g, AfterEnter(g, s).from)
    requires Edge(g, s.stack[|s.stack| - 1].v, u) && u in s.marked
    ensures u in s.calls
  {
    hide AfterEnter, NewOnes, Conflict, PlacesOk, ReachOk, SegmentsOk, MarkersOk, SiblingsOk, SuccessorsFirst;
    EnterStack(g, s);
    EnterRest(g, s);
    var s', n, us := AfterEnter(g, s), |s.stack|, NewAt(g, s);
    NewOnesMembers(g.succ[s.stack[n - 1].v], g.skip, s.marked);
    assert s'.stack[n - 1].Exit? && s'.stack[n - 1].v == s.stack[n - 1].v;
    forall j | n <= j < |s'.stack| ensures s'.stack[j].v !in s.marked {
      assert us[j - n] in us;
    }
  }

  lemma NoConflictCrossless(g: Graph, start: nat, s: Dfs, a: nat, b: nat)
    requires AtEnter(g, s) && DfsOk(g, start, AfterEnter(g, s)) && !Conflict(g, AfterEnter(g, s).from)
    requires var v := s.stack[|s.stack| - 1].v;
      Edge(g, v, a) && Edge(g, v, b) && ListedBefore(g.succ[v], a, b) && Reach(g, b, a)
    ensures a in s.calls
  {
    hide AfterEnter, NewOnes, Conflict, PlacesOk, ReachOk, SegmentsOk, MarkersOk, SiblingsOk, ListedBefore, AboveOrDone;
    EnterRest(g, s);
    var v, s', us := s.stack[|s.stack| - 1].v, AfterEnter(g, s), NewAt(g, s);
    NewOnesMembers(g.succ[v], g.skip, s.marked);
    if a in s.marked {
      MarkedDone(g, start, s, a);
    } else if b in s.marked {
      MarkedDone(g, start, s, b);
      ReachedCalled(g, s.calls, b, a);
    } else {
      assert Siblings(g, s'.from, a, b);
      IsConflict(g, s'.from, a, b);
      assert false;
    }
  }

  lemma ReachedCalled(g: Graph, calls: seq<nat>, b: nat, a: nat)
    requires SuccessorsFirst(g, calls) && b in calls && Reach(g, b, a)
    ensures a in calls
  {
    var i :| 0 <= i < |calls| && calls[i] == b;
    var n: nat :| ReachIn(g, b, a, n);
    ReachedEarlier(g, calls, i, a, n);
  }

  /** Entering a node without crossings causes no conflict. */
  lemma NoNewConflict(g: Graph, rank: nat -> nat, start: nat, s: Dfs)
    requires Ranked(g, rank) && AtEnter(g, s) && DfsOk(g, start, s) && Crossless(g, s.stack[|s.stack| - 1].v, s.calls)
    requires Conflict(g, AfterEnter(g, s).from)
    ensures Conflict(g, s.from)
  {
    hide AfterEnter, NewOnes, PlacesOk, ReachOk, SegmentsOk, SiblingsOk, ListedBefore, OrderOk, Reach;
    EnterRest(g, s);
    var v, s', us := s.stack[|s.stack| - 1].v, AfterEnter(g, s), NewAt(g, s);
    NewOnesMembers(g.succ[v], g.skip, s.marked);
    NotEntered(start, s);
    NewNotCalled(g, rank, start, s);
    var a, b :| Siblings(g, s'.from, a, b) && Reach(g, b, a);
    assert a !in us && b !in us;
    assert Siblings(g, s.from, a, b);
    IsConflict(g, s.from, a, b);
  }

  lemma NewNotCalled(g: Graph, rank: nat -> nat, start: nat, s: Dfs)
    requires Ranked(g, rank) && AtEnter(g, s) && DfsOk(g, start, s)
    ensures forall u :: u in NewAt(g, s) ==> u !in s.calls
  {
    hide Ranked, ReachOk, SegmentsOk, MarkersOk, SiblingsOk, OrderOk, NewOnes;
    NotStart(g, rank, start, s);
    NewOnesMembers(g.succ[s.stack[|s.stack| - 1].v], g.skip, s.marked);
  }

  /** Both conditions agree from any state of the walk on, and if they hold the walk calls
      what the search finishes. */
  lemma {:induction false} WalkOrderly(g: Graph, rank: nat -> nat, start: nat, s: Dfs)
    requires Ranked(g, rank) && DfsOk(g, start, s) && Walk(g, s).Some?
    ensures OrderlyStack(g, rank, s.stack, s.calls) && !Conflict(g, s.from) <==> !Conflict(g, Walk(g, s).value.from)
    ensures !Conflict(g, Walk(g, s).value.from) ==> Walk(g, s).value.calls == Resume(g, rank, s.stack, s.calls)
    decreases |AllSuccessors(g) - s.marked|, EnterCount(s.stack), |s.stack|
  {
    hide Ranked, DfsOk, AllSuccessors, EnterCount, AfterEnter, Conflict, Crossless, Search, Orderly, Walk;
    if s.stack == [] {
      WalkEnd(g, s);
    } else if s.stack[|s.stack| - 1].Exit? {
      WalkExit(g, s);
      ExitDfs(g, start, s);
      ExitLess(s);
      AfterExitIs(s);
      WalkOrderly(g, rank, start, AfterExit(s));
    } else {
      WalkEnter(g, s);
      EnterDfs(g, rank, start, s);
      EnterLess(g, s);
      WalkOrderly(g, rank, start, AfterEnter(g, s));
      EnterAgrees(g, rank, start, s);
    }
  }

  lemma EnterAgrees(g: Graph, rank: nat -> nat, start: nat, s: Dfs)
    requires Ranked(g, rank) && AtEnter(g, s) && DfsOk(g, start, s) && DfsOk(g, start, AfterEnter(g, s))
    ensures var s' := AfterEnter(g, s);
      && (OrderlyStack(g, rank, s.stack, s.calls) && !Conflict(g, s.from) <==>
        OrderlyStack(g, rank, s'.stack, s'.calls) && !Conflict(g, s'.from))
      && (!Conflict(g, s'.from) ==> Resume(g, rank, s.stack, s.calls) == Resume(g, rank, s'.stack, s'.calls))
  {
    hide Ranked, AfterEnter, Conflict, Search, Orderly, PlacesOk, ReachOk, SegmentsOk, MarkersOk, SiblingsOk, OrderOk,
         ListedBefore, Reach;
    var v, s' := s.stack[|s.stack| - 1].v, AfterEnter(g, s);
    TopNotCalled(start, s);
    if Conflict(g, s.from) { ConflictStays(g, start, s); }
    if OrderlyStack(g, rank, s.stack, s.calls) && Conflict(g, s'.from) { NoNewConflict(g, rank, start, s); }
    if !Conflict(g, s'.from) {
      forall u | Edge(g, v, u) && u in s.marked ensures u in s.calls { MarkedDone(g, start, s, u); }
      forall a, b | Edge(g, v, a) && Edge(g, v, b) && ListedBefore(g.succ[v], a, b) && Reach(g, b, a)
        ensures a in s.calls
      {
        NoConflictCrossless(g, start, s, a, b);
      }
      EnterSearch(g, rank, s);
    }
  }

  lemma ConflictStays(g: Graph, start: nat, s: Dfs)
    requires AtEnter(g, s) && DfsOk(g, start, s) && Conflict(g, s.from)
    ensures Conflict(g, AfterEnter(g, s).from)
  {
    hide AfterEnter, PlacesOk, ReachOk, MarkersOk, SiblingsOk, OrderOk, Conflict;
    ConflictGrows(g, s);
  }

  // ----- main results -----

  /** The walk is a post-order exactly if at every node that an ordinary depth-first search
      enters, each successor that a later listed one reaches is finished already. It then
      makes its calls in the order in which the search finishes the nodes. */
  lemma PostOrderIff(g: Graph, rank: nat -> nat, start: nat)
    requires Ranked(g, rank) && Walk(g, Begin(start)).Some?
    ensures SuccessorsFirst(g, Walk(g, Begin(start)).value.calls) <==> OrderlyFrom(g, rank, start)
    ensures !Conflict(g, Markers(g, start)) <==> OrderlyFrom(g, rank, start)
    ensures OrderlyFrom(g, rank, start) ==>
      Walk(g, Begin(start)).value.calls == Search(g, rank, rank(start) + 1, [start], [])
  {
    hide Ranked, DfsOk, Walk, Conflict, Search, Orderly, SuccessorsFirst;
    var s := Begin(start);
    BeginDfs(g, start);
    WalkKeeps(g, rank, start, s);
    Finish(g, start, Walk(g, s).value);
    WalkOrderly(g, rank, start, s);
    NothingMarked(g);
    ResumeEnters(g, rank, rank(start) + 1, [], [start], []);
    assert [] + Enters([start]) == [Enter(start)];
  }

  lemma NothingMarked(g: Graph)
    ensures !Conflict(g, map[])
  {
  }

  /** If no later listed successor of a reachable node reaches an earlier listed one then the
      condition holds. */
  lemma {:induction false} CrossFreeOrderly(g: Graph, rank: nat -> nat, start: nat, bound: nat, us: seq<nat>,
                                            done: seq<nat>)
    requires Ranked(g, rank) && Below(rank, bound, us) && CrossFree(g, start)
    requires forall u :: u in us ==> Reach(g, start, u)
    ensures Orderly(g, rank, bound, us, done)
    decreases bound, |us|
  {
    hide Ranked, Reach, ListedBefore, Search, CrossFree;
    if us != [] {
      var u, rest := us[|us| - 1], us[..|us| - 1];
      DistinctBelow(g, rank, u);
      DistinctReached(g, start, u);
      CrossFreeAt(g, start, u, done);
      CrossFreeOrderly(g, rank, start, rank(u), Distinct(g, u), done);
      CrossFreeOrderly(g, rank, start, bound, rest,
        if u in done then done else Search(g, rank, rank(u), Distinct(g, u), done) + [u]);
    }
  }

  lemma CrossFreeFrom(g: Graph, rank: nat -> nat, start: nat)
    requires Ranked(g, rank) && CrossFree(g, start)
    ensures OrderlyFrom(g, rank, start)
  {
    hide Ranked, CrossFree, Orderly;
    ReachSelf(g, start);
    CrossFreeOrderly(g, rank, start, rank(start) + 1, [start], []);
  }

  lemma DistinctReached(g: Graph, start: nat, u: nat)
    requires Reach(g, start, u)
    ensures forall x :: x in Distinct(g, u) ==> Reach(g, start, x)
  {
    hide Reach;
    if u in g.succ {
      NewOnesMembers(g.succ[u], g.skip, {});
      forall x | x in Distinct(g, u) ensures Reach(g, start, x) {
        assert Edge(g, u, x);
        ReachEdge(g, u, x);
        ReachTrans(g, start, u, x);
      }
    }
  }

  lemma CrossFreeAt(g: Graph, start: nat, u: nat, done: seq<nat>)
    requires CrossFree(g, start) && Reach(g, start, u)
    ensures Crossless(g, u, done)
  {
    hide Reach, ListedBefore;
  }
}
