/** `RelRc::all_ancestors` (src/node.rs:145-158): a breadth-first walk that ends at the
    first node it meets for the second time. */
module AllAncestors {
  import opened Prelude
  import opened Dag

  // ----- how many steps the full walk takes -----

  /** The number of upward paths that start at `i`. */
  ghost function Paths<N, E>(d: Arena<N, E>, i: nat): nat
    requires WellFounded(d) && i < |d|
    decreases i, |d[i].incoming| + 1
  {
    assert ParentsBefore(d[i], i);
    1 + PathsAll(d, Parents(d[i]), i)
  }

  ghost predicate AllBelow(q: seq<nat>, bound: nat) {
    forall j :: 0 <= j < |q| ==> q[j] < bound
  }

  ghost function PathsAll<N, E>(d: Arena<N, E>, q: seq<nat>, bound: nat): nat
    requires WellFounded(d) && bound <= |d| && AllBelow(q, bound)
    decreases bound, |q|
  {
    if q == [] then 0 else Paths(d, q[0]) + PathsAll(d, q[1..], bound)
  }

  lemma {:induction false} PathsAllBound<N, E>(d: Arena<N, E>, q: seq<nat>, b: nat, c: nat)
    requires WellFounded(d) && b <= c <= |d| && AllBelow(q, b)
    ensures PathsAll(d, q, b) == PathsAll(d, q, c)
  {
    if q != [] { PathsAllBound(d, q[1..], b, c); }
  }

  lemma {:induction false} PathsAllConcat<N, E>(d: Arena<N, E>, q: seq<nat>, r: seq<nat>, b: nat)
    requires WellFounded(d) && b <= |d| && AllBelow(q, b) && AllBelow(r, b)
    ensures PathsAll(d, q + r, b) == PathsAll(d, q, b) + PathsAll(d, r, b)
  {
    if q == [] {
      assert q + r == r;
    } else {
      assert (q + r)[0] == q[0] && (q + r)[1..] == q[1..] + r;
      PathsAllConcat(d, q[1..], r, b);
    }
  }

  /** The queue after its first node has been replaced by that node's parents. */
  ghost function Advance<N, E>(d: Arena<N, E>, q: seq<nat>): seq<nat>
    requires WellFounded(d) && AllBelow(q, |d|) && q != []
  {
    q[1..] + Parents(d[q[0]])
  }

  lemma AdvanceLess<N, E>(d: Arena<N, E>, q: seq<nat>)
    requires WellFounded(d) && AllBelow(q, |d|) && q != []
    ensures AllBelow(Advance(d, q), |d|)
    ensures PathsAll(d, Advance(d, q), |d|) + 1 == PathsAll(d, q, |d|)
  {
    var ps := Parents(d[q[0]]);
    assert ParentsBefore(d[q[0]], q[0]);
    PathsAllConcat(d, q[1..], ps, |d|);
    PathsAllBound(d, ps, q[0], |d|);
  }

  /** The walk without any check for nodes seen before. */
  ghost function Expansion<N, E>(d: Arena<N, E>, q: seq<nat>): seq<nat>
    requires WellFounded(d) && AllBelow(q, |d|)
    decreases PathsAll(d, q, |d|)
  {
    if q == [] then []
    else
      AdvanceLess(d, q);
      [q[0]] + Expansion(d, Advance(d, q))
  }

  /** The parents of all nodes of a layer, in order. */
  ghost function Layer<N, E>(d: Arena<N, E>, q: seq<nat>): (r: seq<nat>)
    requires WellFounded(d) && AllBelow(q, |d|)
    ensures AllBelow(r, |d|)
  {
    if q == [] then []
    else
      assert ParentsBefore(d[q[0]], q[0]);
      Parents(d[q[0]]) + Layer(d, q[1..])
  }

  lemma LayerCons<N, E>(d: Arena<N, E>, q: seq<nat>)
    requires WellFounded(d) && AllBelow(q, |d|) && q != []
    ensures q[0] < |d| && AllBelow(q[1..], |d|) && AllBelow(Parents(d[q[0]]), |d|)
    ensures Layer(d, q) == Parents(d[q[0]]) + Layer(d, q[1..])
  {
    assert ParentsBefore(d[q[0]], q[0]);
  }

  lemma Regroup<T>(a: seq<T>, b: seq<T>, c: seq<T>)
    ensures (a + b) + c == a + (b + c)
  {
  }

  lemma AdvanceLayer<N, E>(d: Arena<N, E>, q: seq<nat>, rest: seq<nat>)
    requires WellFounded(d) && AllBelow(q, |d|) && AllBelow(rest, |d|) && q != []
    ensures q[0] < |d| && AllBelow(q[1..], |d|) && AllBelow(rest + Parents(d[q[0]]), |d|) && AllBelow(q + rest, |d|)
    ensures Advance(d, q + rest) == q[1..] + (rest + Parents(d[q[0]]))
    ensures (rest + Parents(d[q[0]])) + Layer(d, q[1..]) == rest + Layer(d, q)
  {
    hide Layer, WellFounded;
    LayerCons(d, q);
    var ps := Parents(d[q[0]]);
    Regroup(rest, ps, Layer(d, q[1..]));
    assert (q + rest)[1..] == q[1..] + rest;
    Regroup(q[1..], rest, ps);
  }

  /** Breadth first: a whole layer is walked before any of the next one. */
  lemma {:induction false} LayerByLayer<N, E>(d: Arena<N, E>, q: seq<nat>, rest: seq<nat>)
    requires WellFounded(d) && AllBelow(q, |d|) && AllBelow(rest, |d|)
    ensures Expansion(d, q + rest) == q + Expansion(d, rest + Layer(d, q))
    decreases |q|
  {
    hide Expansion, Advance, WellFounded;
    if q == [] {
      assert q + rest == rest && rest + Layer(d, q) == rest;
    } else {
      ExpansionStep(d, q + rest);
      AdvanceLayer(d, q, rest);
      LayerByLayer(d, q[1..], rest + Parents(d[q[0]]));
    }
  }

  // ----- the part of it that is reported -----

  /** `s` cut just before its first repeated element. */
  ghost predicate RepeatFreePrefix(out: seq<nat>, s: seq<nat>) {
    out <= s && NoDup(out) && (|out| == |s| || s[|out|] in out)
  }

  lemma PrefixNotLonger(out: seq<nat>, out': seq<nat>, s: seq<nat>)
    requires RepeatFreePrefix(out, s) && RepeatFreePrefix(out', s)
    ensures |out'| <= |out|
  {
    if |out| < |s| {
      var i :| 0 <= i < |out| && out[i] == s[|out|];
    }
  }

  lemma RepeatFreePrefixUnique(out: seq<nat>, out': seq<nat>, s: seq<nat>)
    requires RepeatFreePrefix(out, s) && RepeatFreePrefix(out', s)
    ensures out == out'
  {
    PrefixNotLonger(out, out', s);
    PrefixNotLonger(out', out, s);
  }

  ghost function CutAtRepeat(s: seq<nat>, k: nat): seq<nat>
    requires k <= |s|
    decreases |s| - k
  {
    if k == |s| || s[k] in s[..k] then s[..k] else CutAtRepeat(s, k + 1)
  }

  lemma {:induction false} CutIsPrefix(s: seq<nat>, k: nat)
    requires k <= |s| && NoDup(s[..k])
    ensures RepeatFreePrefix(CutAtRepeat(s, k), s)
    decreases |s| - k
  {
    if k < |s| && s[k] !in s[..k] {
      NoDupSnoc(s[..k], s[k]);
      assert s[..k + 1] == s[..k] + [s[k]];
      CutIsPrefix(s, k + 1);
    }
  }

  /** What `all_ancestors` yields for node `i`. */
  ghost function Reported<N, E>(d: Arena<N, E>, i: nat): (out: seq<nat>)
    requires WellFounded(d) && i < |d|
    ensures RepeatFreePrefix(out, Expansion(d, [i]))
  {
    CutIsPrefix(Expansion(d, [i]), 0);
    CutAtRepeat(Expansion(d, [i]), 0)
  }

  /** `all_ancestors`, with the nodes collected that the iterator yields. */
  method Walk<N, E>(d: Arena<N, E>, start: nat) returns (out: seq<nat>)
    requires WellFounded(d) && start < |d|
    ensures RepeatFreePrefix(out, Expansion(d, [start])) && out == Reported(d, start)
    ensures |out| > 0 && out[0] == start
    ensures forall x :: x in out ==> Ancestor(d, x, start)
  {
    hide Reported, Expansion, PathsAll, Ancestor, Elements, NoDup, RepeatFreePrefix, WellFounded;
    var queue, seen := [start], {};
    out := [];
    WalkBegins(d, start);
    while queue != []
      invariant WalkOk(d, start, out, queue) && seen == Elements(out)
      decreases PathsAll(d, queue, |d|)
    {
      WalkStep(d, start, out, queue);
      var node := queue[0];
      if node in seen {
        WalkStops(d, start, out, queue);
        return;
      }
      seen := seen + {node};
      out := out + [node];
      queue := queue[1..] + Parents(d[node]);
    }
    WalkEnds(d, start, out);
  }

  /** The state of the loop: what has been reported and what the queue leads to make up the
      full walk. */
  ghost predicate WalkOk<N, E>(d: Arena<N, E>, start: nat, out: seq<nat>, queue: seq<nat>)
    requires WellFounded(d) && start < |d|
  {
    && AllBelow(queue, |d|) && NoDup(out) && Expansion(d, [start]) == out + Expansion(d, queue)
    && (if out == [] then queue == [start] else out[0] == start)
  }

  lemma WalkBegins<N, E>(d: Arena<N, E>, start: nat)
    requires WellFounded(d) && start < |d|
    ensures WalkOk(d, start, [], [start]) && Elements<nat>([]) == {}
  {
    hide Expansion;
    assert [] + Expansion(d, [start]) == Expansion(d, [start]);
  }

  lemma ExpansionStep<N, E>(d: Arena<N, E>, q: seq<nat>)
    requires WellFounded(d) && AllBelow(q, |d|) && q != []
    ensures AllBelow(Advance(d, q), |d|) && PathsAll(d, Advance(d, q), |d|) < PathsAll(d, q, |d|)
    ensures Expansion(d, q) == [q[0]] + Expansion(d, Advance(d, q))
  {
    hide PathsAll, Advance;
    AdvanceLess(d, q);
  }

  /** One round: the first node of the queue is the next one of the full walk. */
  lemma WalkStep<N, E>(d: Arena<N, E>, start: nat, out: seq<nat>, queue: seq<nat>)
    requires WellFounded(d) && start < |d| && WalkOk(d, start, out, queue) && queue != []
    ensures AllBelow(Advance(d, queue), |d|) && PathsAll(d, Advance(d, queue), |d|) < PathsAll(d, queue, |d|)
    ensures queue[0] < |d| && Advance(d, queue) == queue[1..] + Parents(d[queue[0]])
    ensures queue[0] in Elements(out) <==> queue[0] in out
    ensures Elements(out + [queue[0]]) == Elements(out) + {queue[0]}
    ensures queue[0] !in out ==> WalkOk(d, start, out + [queue[0]], Advance(d, queue))
  {
    hide Expansion, PathsAll, WellFounded;
    ExpansionStep(d, queue);
    var node, rest := queue[0], Expansion(d, Advance(d, queue));
    assert out + ([node] + rest) == (out + [node]) + rest;
    if node !in out { NoDupSnoc(out, node); }
  }

  lemma WalkStops<N, E>(d: Arena<N, E>, start: nat, out: seq<nat>, queue: seq<nat>)
    requires WellFounded(d) && start < |d| && WalkOk(d, start, out, queue) && queue != [] && queue[0] in out
    ensures RepeatFreePrefix(out, Expansion(d, [start])) && out == Reported(d, start)
    ensures |out| > 0 && out[0] == start && forall x :: x in out ==> Ancestor(d, x, start)
  {
    hide Expansion, PathsAll, WellFounded, Ancestor, Reported;
    ExpansionStep(d, queue);
    WalkReported(d, start, out);
  }

  lemma WalkEnds<N, E>(d: Arena<N, E>, start: nat, out: seq<nat>)
    requires WellFounded(d) && start < |d| && WalkOk(d, start, out, [])
    ensures RepeatFreePrefix(out, Expansion(d, [start])) && out == Reported(d, start)
    ensures |out| > 0 && out[0] == start && forall x :: x in out ==> Ancestor(d, x, start)
  {
    hide Ancestor, Reported, WellFounded, PathsAll;
    assert Expansion(d, []) == [];
    hide Expansion;
    WalkReported(d, start, out);
  }

  lemma WalkReported<N, E>(d: Arena<N, E>, start: nat, out: seq<nat>)
    requires WellFounded(d) && start < |d| && RepeatFreePrefix(out, Expansion(d, [start]))
    ensures out == Reported(d, start) && forall x :: x in out ==> Ancestor(d, x, start)
  {
    hide Expansion, Ancestor, Reported, NoDup, WellFounded;
    RepeatFreePrefixUnique(out, Reported(d, start), Expansion(d, [start]));
    ExpansionMembers(d, [start]);
    forall x | x in out ensures Ancestor(d, x, start) {
      assert x in Expansion(d, [start]);
    }
  }

  lemma ReportedAncestors<N, E>(d: Arena<N, E>, i: nat)
    requires WellFounded(d) && i < |d|
    ensures i in Reported(d, i) && forall x :: x in Reported(d, i) ==> Ancestor(d, x, i)
  {
    hide CutAtRepeat;
    AdvanceLess(d, [i]);
    ExpansionMembers(d, [i]);
    var out, full := Reported(d, i), Expansion(d, [i]);
    assert full[0] == i && |out| > 0 && out[0] == full[0];
    forall x | x in out ensures x in full {
    }
  }

  // ----- what the expansion contains -----

  ghost predicate AncestorOfSome<N, E>(d: Arena<N, E>, x: nat, q: seq<nat>)
    requires WellFounded(d) && AllBelow(q, |d|)
  {
    exists j :: 0 <= j < |q| && Ancestor(d, x, q[j])
  }

  lemma AdvanceAncestors<N, E>(d: Arena<N, E>, q: seq<nat>, x: nat)
    requires WellFounded(d) && AllBelow(q, |d|) && q != [] && AllBelow(Advance(d, q), |d|)
    ensures AncestorOfSome(d, x, q) <==> x == q[0] || AncestorOfSome(d, x, Advance(d, q))
  {
    var r, n := Advance(d, q), |q| - 1;
    if AncestorOfSome(d, x, q) && x != q[0] {
      var j :| 0 <= j < |q| && Ancestor(d, x, q[j]);
      if j == 0 {
        var k :| 0 <= k < |d[q[0]].incoming| && Ancestor(d, x, d[q[0]].incoming[k].0);
        assert r[n + k] == d[q[0]].incoming[k].0;
      } else {
        assert r[j - 1] == q[j];
      }
    }
    if AncestorOfSome(d, x, r) {
      var j :| 0 <= j < |r| && Ancestor(d, x, r[j]);
      if j < n {
        assert q[j + 1] == r[j];
      } else {
        assert r[j] == d[q[0]].incoming[j - n].0 && Ancestor(d, x, q[0]);
      }
    }
    assert Ancestor(d, q[0], q[0]);
  }

  lemma {:induction false} ExpansionMember<N, E>(d: Arena<N, E>, q: seq<nat>, x: nat)
    requires WellFounded(d) && AllBelow(q, |d|)
    ensures x in Expansion(d, q) <==> AncestorOfSome(d, x, q)
    decreases PathsAll(d, q, |d|)
  {
    if q != [] {
      AdvanceLess(d, q);
      ExpansionMember(d, Advance(d, q), x);
      AdvanceAncestors(d, q, x);
    }
  }

  /** The full walk meets exactly the ancestors. */
  lemma ExpansionMembers<N, E>(d: Arena<N, E>, q: seq<nat>)
    requires WellFounded(d) && |q| == 1 && q[0] < |d|
    ensures forall x :: x in Expansion(d, q) <==> Ancestor(d, x, q[0])
  {
    hide Expansion, Ancestor, WellFounded;
    assert AllBelow(q, |d|);
    forall x: nat ensures x in Expansion(d, q) <==> Ancestor(d, x, q[0]) {
      ExpansionMember(d, q, x);
      assert AncestorOfSome(d, x, q) <==> Ancestor(d, x, q[0]);
    }
  }

  // ----- completeness -----

  ghost predicate RepeatAt(s: seq<nat>, j: nat) {
    j < |s| && s[j] in s[..j]
  }

  /** No node is first met after some other node has been met again. */
  ghost predicate NoLateFirstVisit(s: seq<nat>) {
    forall j, k :: 0 <= j < k < |s| && RepeatAt(s, j) ==> RepeatAt(s, k)
  }

  lemma {:induction false} LateOnesReported(s: seq<nat>, out: seq<nat>, k: nat)
    requires RepeatFreePrefix(out, s) && NoLateFirstVisit(s) && k < |s|
    ensures s[k] in out
    decreases k
  {
    if k < |out| {
      assert s[k] == out[k];
    } else if k > |out| {
      assert RepeatAt(s, |out|) by { assert s[..|out|] == out; }
      assert RepeatAt(s, k);
      var i :| 0 <= i < k && s[..k][i] == s[k];
      LateOnesReported(s, out, i);
    }
  }

  lemma RepeatIsLate(s: seq<nat>, out: seq<nat>, j: nat)
    requires RepeatFreePrefix(out, s) && RepeatAt(s, j)
    ensures |out| <= j
  {
    var i :| 0 <= i < j && s[..j][i] == s[j];
  }

  /** Cutting before the first repeat loses no element exactly if nothing is first met
      after a repeat. */
  lemma NothingLostIff(s: seq<nat>, out: seq<nat>)
    requires RepeatFreePrefix(out, s)
    ensures Elements(out) == Elements(s) <==> NoLateFirstVisit(s)
  {
    if NoLateFirstVisit(s) {
      forall x | x in s ensures x in out {
        var k :| 0 <= k < |s| && s[k] == x;
        LateOnesReported(s, out, k);
      }
    }
    if Elements(out) == Elements(s) {
      forall j, k | 0 <= j < k < |s| && RepeatAt(s, j) ensures RepeatAt(s, k) {
        RepeatIsLate(s, out, j);
        assert s[k] in Elements(out);
        var i :| 0 <= i < |out| && out[i] == s[k];
        assert s[..k][i] == s[k];
      }
    }
  }

  /** The iterator reports all ancestors exactly if, in the full walk, no first visit
      comes after a repeated one. */
  lemma CompleteIff<N, E>(d: Arena<N, E>, start: nat, out: seq<nat>)
    requires WellFounded(d) && start < |d| && RepeatFreePrefix(out, Expansion(d, [start]))
    ensures Elements(out) == Ancestors(d, start) <==> NoLateFirstVisit(Expansion(d, [start]))
  {
    hide Expansion, RepeatFreePrefix, NoLateFirstVisit;
    ExpansionMembers(d, [start]);
    assert Elements(Expansion(d, [start])) == Ancestors(d, start);
    NothingLostIff(Expansion(d, [start]), out);
  }

  /** A node that lists one parent twice and then another: the last one is not reported. */
  lemma NotAlwaysComplete<N, E>(v: N, e: E)
    ensures var d := [Node(v, []), Node(v, []), Node(v, [(0, e), (0, e), (1, e)])];
      && WellFounded(d)
      && RepeatFreePrefix([2, 0], Expansion(d, [2]))
      && 1 in Ancestors(d, 2)
  {
    hide PathsAll, Expansion;
    var root := Node(v, []);
    var d: Arena<N, E> := [root, root, Node(v, [(0, e), (0, e), (1, e)])];
    assert WellFounded(d);
    ExpansionStep(d, [2]);
    assert Advance(d, [2]) == [0, 0, 1];
    ExpansionStep(d, [0, 0, 1]);
    assert Advance(d, [0, 0, 1]) == [0, 1];
    ExpansionStep(d, [0, 1]);
    var rest := Expansion(d, Advance(d, [0, 1]));
    assert Expansion(d, [2]) == [2, 0, 0] + rest;
    ParentIsAncestor(d, 2, 2);
  }
}
