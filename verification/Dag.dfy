/** The identity-based view of a relrc graph: every node ever created, listed in
    creation order. A node's index is its creation stamp. Parents are fixed when
    a node is created, so they always carry smaller stamps (src/node.rs:30-34). */
module Dag {

  /** The immutable part of a node: its value and, in parent order, the source
      and the value of each incoming edge. */
  datatype Node<N, E> = Node(value: N, incoming: seq<(nat, E)>)

  type Arena<N, E> = seq<Node<N, E>>

  ghost predicate ParentsBefore<N, E>(n: Node<N, E>, bound: nat) {
    forall k :: 0 <= k < |n.incoming| ==> n.incoming[k].0 < bound
  }

  ghost predicate WellFounded<N, E>(d: Arena<N, E>) {
    forall i :: 0 <= i < |d| ==> ParentsBefore(d[i], i)
  }

  /** The sources of the incoming edges, in order (`all_parents`). */
  function Parents<N, E>(n: Node<N, E>): (ps: seq<nat>)
    ensures |ps| == |n.incoming|
    ensures forall k :: 0 <= k < |ps| ==> ps[k] == n.incoming[k].0
  {
    seq(|n.incoming|, k requires 0 <= k < |n.incoming| => n.incoming[k].0)
  }

  /** `x` is `i` or an ancestor of `i`. */
  predicate Ancestor<N, E>(d: Arena<N, E>, x: nat, i: nat)
    requires WellFounded(d) && i < |d|
    decreases i
  {
    x == i || exists k :: 0 <= k < |d[i].incoming| && Ancestor(d, x, d[i].incoming[k].0)
  }

  /** Some node in `held` is `x` or a descendant of `x`. */
  predicate HeldBy<N, E>(d: Arena<N, E>, held: set<nat>, x: nat)
    requires WellFounded(d) && forall h :: h in held ==> h < |d|
  {
    exists h :: h in held && Ancestor(d, x, h)
  }

  ghost function Ancestors<N, E>(d: Arena<N, E>, i: nat): (r: set<nat>)
    requires WellFounded(d) && i < |d|
    ensures forall x :: x in r <==> Ancestor(d, x, i)
  {
    AncestorsBelow(d, i);
    set x | 0 <= x <= i && Ancestor(d, x, i)
  }

  lemma {:induction false} AncestorBelow<N, E>(d: Arena<N, E>, x: nat, i: nat)
    requires WellFounded(d) && i < |d| && Ancestor(d, x, i)
    ensures x <= i
    decreases i
  {
    if x != i {
      var k :| 0 <= k < |d[i].incoming| && Ancestor(d, x, d[i].incoming[k].0);
      AncestorBelow(d, x, d[i].incoming[k].0);
    }
  }

  lemma SelfAncestor<N, E>(d: Arena<N, E>, i: nat)
    requires WellFounded(d) && i < |d|
    ensures Ancestor(d, i, i)
  {
  }

  lemma AncestorsBelow<N, E>(d: Arena<N, E>, i: nat)
    requires WellFounded(d) && i < |d|
    ensures forall x: nat :: Ancestor(d, x, i) ==> x <= i
  {
    forall x: nat | Ancestor(d, x, i) ensures x <= i {
      AncestorBelow(d, x, i);
    }
  }

  lemma {:induction false} AncestorTrans<N, E>(d: Arena<N, E>, x: nat, y: nat, z: nat)
    requires WellFounded(d) && z < |d|
    requires Ancestor(d, y, z) && y < |d| && Ancestor(d, x, y)
    ensures Ancestor(d, x, z)
    decreases z
  {
    if y != z {
      var k :| 0 <= k < |d[z].incoming| && Ancestor(d, y, d[z].incoming[k].0);
      AncestorTrans(d, x, y, d[z].incoming[k].0);
    }
  }

  /** A proper ancestor is an ancestor of the parent it was reached through. */
  lemma ParentIsAncestor<N, E>(d: Arena<N, E>, i: nat, k: nat)
    requires WellFounded(d) && i < |d| && k < |d[i].incoming|
    ensures Ancestor(d, d[i].incoming[k].0, i)
  {
    var p := d[i].incoming[k].0;
    assert Ancestor(d, p, p);
  }

  /** Creating more nodes never changes who the ancestors of an existing node are. */
  lemma {:induction false} AncestorGrow<N, E>(d: Arena<N, E>, d': Arena<N, E>, x: nat, i: nat)
    requires WellFounded(d) && WellFounded(d') && d <= d' && i < |d|
    ensures Ancestor(d, x, i) <==> Ancestor(d', x, i)
    decreases i
  {
    if x != i {
      forall k | 0 <= k < |d[i].incoming|
        ensures Ancestor(d, x, d[i].incoming[k].0) <==> Ancestor(d', x, d'[i].incoming[k].0)
      {
        AncestorGrow(d, d', x, d[i].incoming[k].0);
      }
    }
  }

  // ----- ancestors on paths that avoid some nodes -----

  /** `x` is `i`, or an ancestor of `i` by a path on which no node after `i` is in `avoid`. */
  ghost predicate Avoiding<N, E>(d: Arena<N, E>, avoid: set<nat>, x: nat, i: nat)
    requires WellFounded(d) && i < |d|
    decreases i
  {
    || x == i
    || exists k :: 0 <= k < |d[i].incoming| && d[i].incoming[k].0 !in avoid && Avoiding(d, avoid, x, d[i].incoming[k].0)
  }

  lemma {:induction false} AvoidingTrans<N, E>(d: Arena<N, E>, avoid: set<nat>, x: nat, y: nat, z: nat)
    requires WellFounded(d) && z < |d| && Avoiding(d, avoid, y, z) && y < |d| && Avoiding(d, avoid, x, y)
    ensures Avoiding(d, avoid, x, z)
    decreases z
  {
    if y != z {
      var k :| 0 <= k < |d[z].incoming| && d[z].incoming[k].0 !in avoid && Avoiding(d, avoid, y, d[z].incoming[k].0);
      AvoidingTrans(d, avoid, x, y, d[z].incoming[k].0);
    }
  }

  lemma {:induction false} AvoidingFewer<N, E>(d: Arena<N, E>, avoid: set<nat>, avoid': set<nat>, x: nat, i: nat)
    requires WellFounded(d) && i < |d| && avoid <= avoid' && Avoiding(d, avoid', x, i)
    ensures Avoiding(d, avoid, x, i)
    decreases i
  {
    if x != i {
      var k :| 0 <= k < |d[i].incoming| && d[i].incoming[k].0 !in avoid' && Avoiding(d, avoid', x, d[i].incoming[k].0);
      AvoidingFewer(d, avoid, avoid', x, d[i].incoming[k].0);
    }
  }

  /** When the nodes to avoid become more, a path either still avoids them or meets one of
      the new ones. */
  lemma {:induction false} AvoidingMore<N, E>(d: Arena<N, E>, avoid: set<nat>, avoid': set<nat>, x: nat, i: nat)
    requires WellFounded(d) && i < |d| && avoid <= avoid' && Avoiding(d, avoid, x, i)
    ensures Avoiding(d, avoid', x, i) || exists y :: y in avoid' && y !in avoid && y < |d| && Avoiding(d, avoid, x, y)
    decreases i
  {
    if x != i {
      var k :| 0 <= k < |d[i].incoming| && d[i].incoming[k].0 !in avoid && Avoiding(d, avoid, x, d[i].incoming[k].0);
      if d[i].incoming[k].0 !in avoid' { AvoidingMore(d, avoid, avoid', x, d[i].incoming[k].0); }
    }
  }

  lemma {:induction false} AvoidingIsAncestor<N, E>(d: Arena<N, E>, avoid: set<nat>, x: nat, i: nat)
    requires WellFounded(d) && i < |d| && Avoiding(d, avoid, x, i)
    ensures Ancestor(d, x, i)
    decreases i
  {
    if x != i {
      var k :| 0 <= k < |d[i].incoming| && d[i].incoming[k].0 !in avoid && Avoiding(d, avoid, x, d[i].incoming[k].0);
      AvoidingIsAncestor(d, avoid, x, d[i].incoming[k].0);
    }
  }

  /** If everything above a node to avoid is to be avoided too, all paths to other nodes do. */
  lemma {:induction false} AncestorAvoids<N, E>(d: Arena<N, E>, avoid: set<nat>, x: nat, i: nat)
    requires WellFounded(d) && i < |d| && Ancestor(d, x, i) && x !in avoid
    requires forall y :: y in avoid && y < |d| ==> !Ancestor(d, x, y)
    ensures Avoiding(d, avoid, x, i)
    decreases i
  {
    if x != i {
      var k :| 0 <= k < |d[i].incoming| && Ancestor(d, x, d[i].incoming[k].0);
      AncestorAvoids(d, avoid, x, d[i].incoming[k].0);
    }
  }
}
