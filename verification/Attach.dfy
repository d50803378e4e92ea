/** `RelRc::attach` (src/detached.rs:45-91), `attaches_to`, and the round trip through
    `detach`, `attach` and `detach`. */
module Attach {
  import opened Prelude
  import opened Dag
  import opened PostOrder
  import opened DepthFirst
  import opened Detached

  /** `x` is the last of the nodes whose hash is `k`. */
  ghost predicate LastWith<N, E>(h: Hasher<N, E>, d: Arena<N, E>, nodes: seq<nat>, k: Hash, x: nat)
    requires WellFounded(d) && InRange(d, nodes)
  {
    exists j :: 0 <= j < |nodes| && nodes[j] == x && HashOf(h, d, nodes[j]) == k
      && forall m :: j < m < |nodes| ==> HashOf(h, d, nodes[m]) != k
  }

  lemma LastMore<N, E>(h: Hasher<N, E>, d: Arena<N, E>, rest: seq<nat>, x: nat)
    requires WellFounded(d) && InRange(d, rest) && x < |d| && InRange(d, rest + [x])
    ensures LastWith(h, d, rest + [x], HashOf(h, d, x), x)
    ensures forall k, y :: k != HashOf(h, d, x) && LastWith(h, d, rest, k, y) ==> LastWith(h, d, rest + [x], k, y)
  {
    hide HashOf, WellFounded;
    var nodes := rest + [x];
    assert nodes[|rest|] == x;
    forall k, y | k != HashOf(h, d, x) && LastWith(h, d, rest, k, y) ensures LastWith(h, d, nodes, k, y) {
      var j :| 0 <= j < |rest| && rest[j] == y && HashOf(h, d, rest[j]) == k
        && forall m :: j < m < |rest| ==> HashOf(h, d, rest[m]) != k;
      assert nodes[j] == y && forall m :: j < m < |nodes| ==> HashOf(h, d, nodes[m]) != k;
    }
  }

  /** `attach_to`, by hash. Of several nodes with the same hash the last one counts. */
  function Known<N, E>(h: Hasher<N, E>, d: Arena<N, E>, nodes: seq<nat>): (known: map<Hash, nat>)
    requires WellFounded(d) && InRange(d, nodes)
    ensures Stands(h, d, known)
    ensures forall k :: k in known <==> k in HashesOf(h, d, nodes)
    ensures forall k :: k in known ==> LastWith(h, d, nodes, k, known[k])
  {
    hide HashOf, HashesOf, LastWith;
    if nodes == [] then
      HashesOfNone(h, d);
      map[]
    else
      var x, rest := nodes[|nodes| - 1], nodes[..|nodes| - 1];
      assert nodes == rest + [x];
      StackStep(h, d, rest, x);
      LastMore(h, d, rest, x);
      Known(h, d, rest)[HashOf(h, d, x) := x]
  }

  /** All entries are contents of nodes of the sender. */
  ghost predicate Comes<N, E>(h: Hasher<N, E>, s: Arena<N, E>, t: Table<N, E>)
    requires WellFounded(s)
  {
    forall k :: k in t ==> k in Contents(h, s) && t[k] == Contents(h, s)[k]
  }

  lemma ComesRanked<N(!new), E(!new)>(h: Hasher<N, E>, s: Arena<N, E>, t: Table<N, E>, skip: set<Hash>)
    requires GoodHash(h) && WellFounded(s) && Comes(h, s, t)
    ensures Ranked(HashGraph(t, skip), HashRank(h, s)) && Genuine(h, t)
  {
    hide GoodHash, Contents, HashRank, WellFounded, ParentsIn;
    ContentsRanked(h, s, skip);
    ContentsClosed(h, s);
    forall k, p | Edge(HashGraph(t, skip), k, p) ensures HashRank(h, s)(p) < HashRank(h, s)(k) {
      assert Edge(HashGraph(Contents(h, s), skip), k, p);
    }
  }

  // ----- building the nodes -----

  /** The incoming edges of a new node: each parent looked up by its hash. */
  function Sources<E>(incoming: seq<(Hash, E)>, place: map<Hash, nat>): (r: seq<(nat, E)>)
    requires forall k :: 0 <= k < |incoming| ==> incoming[k].0 in place
    ensures |r| == |incoming| && forall k :: 0 <= k < |r| ==> r[k] == (place[incoming[k].0], incoming[k].1)
  {
    seq(|incoming|, k requires 0 <= k < |incoming| => (place[incoming[k].0], incoming[k].1))
  }

  /** Node `|d| + m` was created for the call `calls[m]`: it has the content the table
      gives for that hash, its parents that were known are the very nodes given, and the
      others were created before. */
  ghost predicate BuiltNode<N, E>(h: Hasher<N, E>, d: Arena<N, E>, d': Arena<N, E>, known: map<Hash, nat>,
                                  t: Table<N, E>, calls: seq<Hash>, m: nat)
    requires WellFounded(d') && m < |calls| && |d| + m < |d'|
  {
    && calls[m] in t && DataOf(h, d', |d| + m) == t[calls[m]] && HashOf(h, d', |d| + m) == calls[m]
    && forall k :: 0 <= k < |d'[|d| + m].incoming| ==>
         var p, src := t[calls[m]].incoming[k].0, d'[|d| + m].incoming[k].0;
         if p in known then src == known[p] else |d| <= src < |d| + m
  }

  /** One new node for each call, and no other change. */
  ghost predicate Built<N, E>(h: Hasher<N, E>, d: Arena<N, E>, d': Arena<N, E>, known: map<Hash, nat>, t: Table<N, E>,
                              calls: seq<Hash>) {
    && WellFounded(d') && d <= d' && |d'| == |d| + |calls|
    && forall m :: 0 <= m < |calls| ==> BuiltNode(h, d, d', known, t, calls, m)
  }

  /** Where each hash is found: the known ones where they were, the others among the new
      nodes. */
  ghost predicate Placed<N, E>(h: Hasher<N, E>, d: Arena<N, E>, d': Arena<N, E>, known: map<Hash, nat>,
                               calls: seq<Hash>, place: map<Hash, nat>)
    requires WellFounded(d')
  {
    && Stands(h, d', place)
    && place.Keys == known.Keys + Elements(calls)
    && (forall k :: k in known ==> place[k] == known[k])
    && (forall k :: k in place && k !in known ==> |d| <= place[k])
  }

  ghost predicate AllPlaced<N, E>(t: Table<N, E>, place: map<Hash, nat>, k: Hash) {
    k in t && forall j :: 0 <= j < |t[k].incoming| ==> t[k].incoming[j].0 in place
  }

  lemma NewNodeBefore<N, E>(h: Hasher<N, E>, d: Arena<N, E>, x: Data<N, E>, place: map<Hash, nat>)
    requires WellFounded(d) && Stands(h, d, place) && forall j :: 0 <= j < |x.incoming| ==> x.incoming[j].0 in place
    ensures WellFounded(d + [Node(x.value, Sources(x.incoming, place))])
  {
    hide HashOf;
    var n := Node(x.value, Sources(x.incoming, place));
    var d' := d + [n];
    assert ParentsBefore(n, |d|);
    forall i | 0 <= i < |d'| ensures ParentsBefore(d'[i], i) {
      if i < |d| { assert ParentsBefore(d[i], i); }
    }
  }

  lemma StandsLonger<N, E>(h: Hasher<N, E>, d: Arena<N, E>, d': Arena<N, E>, place: map<Hash, nat>)
    requires WellFounded(d) && WellFounded(d') && d <= d' && Stands(h, d, place)
    ensures Stands(h, d', place)
  {
    hide HashOf, DataOf, WellFounded;
    forall k | k in place ensures HashOf(h, d', place[k]) == k { HashGrow(h, d, d', place[k]); }
  }

  lemma NewNode<N, E>(h: Hasher<N, E>, d: Arena<N, E>, x: Data<N, E>, place: map<Hash, nat>)
    requires WellFounded(d) && Stands(h, d, place) && forall j :: 0 <= j < |x.incoming| ==> x.incoming[j].0 in place
    ensures var d' := d + [Node(x.value, Sources(x.incoming, place))];
      WellFounded(d') && DataOf(h, d', |d|) == x && HashOf(h, d', |d|) == h(x) && Stands(h, d', place)
  {
    hide HashOf, DataOf, WellFounded, Sources;
    var d' := d + [Node(x.value, Sources(x.incoming, place))];
    NewNodeBefore(h, d, x, place);
    StandsLonger(h, d, d', place);
    HashIsOfData(h, d', |d|);
    var y := DataOf(h, d', |d|);
    forall k | 0 <= k < |x.incoming| ensures y.incoming[k] == x.incoming[k] {
      assert d'[|d|].incoming[k] == (place[x.incoming[k].0], x.incoming[k].1);
    }
    assert y.incoming == x.incoming;
  }

  lemma BuiltNodeStays<N, E>(h: Hasher<N, E>, d: Arena<N, E>, d': Arena<N, E>, d'': Arena<N, E>,
                             known: map<Hash, nat>, t: Table<N, E>, c: seq<Hash>, k: Hash, m: nat)
    requires WellFounded(d') && WellFounded(d'') && d' <= d'' && m < |c| && |d| + m < |d'|
    requires BuiltNode(h, d, d', known, t, c, m)
    ensures BuiltNode(h, d, d'', known, t, c + [k], m)
  {
    hide HashOf, DataOf;
    HashGrow(h, d', d'', |d| + m);
    assert d''[|d| + m] == d'[|d| + m] && (c + [k])[m] == c[m];
  }

  /** One call of the closure given to `post_order_for_each`. */
  lemma BuildStep<N, E>(h: Hasher<N, E>, d: Arena<N, E>, d': Arena<N, E>, known: map<Hash, nat>, t: Table<N, E>,
                        c: seq<Hash>, place: map<Hash, nat>, k: Hash)
    requires Genuine(h, t) && Built(h, d, d', known, t, c) && Placed(h, d, d', known, c, place)
    requires AllPlaced(t, place, k) && k !in known
    ensures var d'' := d' + [Node(t[k].value, Sources(t[k].incoming, place))];
      Built(h, d, d'', known, t, c + [k]) && Placed(h, d, d'', known, c + [k], place[k := |d'|])
  {
    hide WellFounded, BuiltNode, HashOf, DataOf, Stands;
    var d'' := d' + [Node(t[k].value, Sources(t[k].incoming, place))];
    NewNode(h, d', t[k], place);
    forall m | 0 <= m < |c + [k]| ensures BuiltNode(h, d, d'', known, t, c + [k], m) {
      if m < |c| {
        BuiltNodeStays(h, d, d', d'', known, t, c, k, m);
      } else {
        BuiltLast(h, d, d', known, t, c, place, k);
      }
    }
    StandsMore(h, d'', place, |d'|);
  }

  lemma BuiltLast<N, E>(h: Hasher<N, E>, d: Arena<N, E>, d': Arena<N, E>, known: map<Hash, nat>, t: Table<N, E>,
                        c: seq<Hash>, place: map<Hash, nat>, k: Hash)
    requires Genuine(h, t) && WellFounded(d') && |d'| == |d| + |c| && Placed(h, d, d', known, c, place)
    requires AllPlaced(t, place, k)
    ensures var d'' := d' + [Node(t[k].value, Sources(t[k].incoming, place))];
      WellFounded(d'') && BuiltNode(h, d, d'', known, t, c + [k], |c|)
  {
    hide WellFounded, HashOf, DataOf;
    NewNode(h, d', t[k], place);
  }

  lemma FirstFails<N, E>(t: Table<N, E>, known: map<Hash, nat>, place: map<Hash, nat>, calls: seq<Hash>, i: nat, j: nat)
    requires i < |calls| && calls[i] in t && place.Keys == known.Keys + Elements(calls[..i])
    requires j < |t[calls[i]].incoming| && t[calls[i]].incoming[j].0 !in place
    ensures !SuccessorsFirst(HashGraph(t, known.Keys), calls)
  {
    var g, p := HashGraph(t, known.Keys), t[calls[i]].incoming[j].0;
    assert ParentHashes(t[calls[i]])[j] == p;
    assert Edge(g, calls[i], p);
    assert p !in calls[..i];
  }

  lemma FirstHolds<N, E>(t: Table<N, E>, known: map<Hash, nat>, place: map<Hash, nat>, calls: seq<Hash>, i: nat)
    requires i < |calls| && place.Keys == known.Keys + Elements(calls[..i]) && AllPlaced(t, place, calls[i])
    requires SuccessorsFirst(HashGraph(t, known.Keys), calls[..i])
    ensures SuccessorsFirst(HashGraph(t, known.Keys), calls[..i + 1])
  {
    hide ParentHashes;
    var g, c := HashGraph(t, known.Keys), calls[..i + 1];
    forall m, u | 0 <= m < |c| && Edge(g, c[m], u) ensures u in c[..m] {
      assert c[..m] == calls[..i][..m];
      if m < i {
        assert Edge(g, calls[..i][m], u);
      } else {
        var j :| 0 <= j < |t[calls[i]].incoming| && ParentHashes(t[calls[i]])[j] == u;
        assert u in place;
      }
    }
  }

  lemma BuildNothing<N, E>(h: Hasher<N, E>, d: Arena<N, E>, known: map<Hash, nat>, t: Table<N, E>, calls: seq<Hash>)
    requires WellFounded(d) && Stands(h, d, known)
    ensures Built(h, d, d, known, t, calls[..0]) && Placed(h, d, d, known, calls[..0], known)
    ensures SuccessorsFirst(HashGraph(t, known.Keys), calls[..0])
  {
    hide HashOf;
  }

  /** The calls of the closure: nodes are created in the order of `calls`, and it panics
      when a parent is neither known nor created yet. */
  method Build<N, E>(h: Hasher<N, E>, d: Arena<N, E>, t: Table<N, E>, known: map<Hash, nat>, calls: seq<Hash>)
    returns (ok: bool, d': Arena<N, E>, place: map<Hash, nat>)
    requires WellFounded(d) && Stands(h, d, known) && Genuine(h, t)
    requires forall k :: k in calls ==> k in t && k !in known
    ensures ok <==> SuccessorsFirst(HashGraph(t, known.Keys), calls)
    ensures ok ==> Built(h, d, d', known, t, calls) && Placed(h, d, d', known, calls, place)
  {
    hide WellFounded, Stands, BuiltNode, SuccessorsFirst, Genuine, HashOf, DataOf, Elements;
    d', place := d, known;
    BuildNothing(h, d, known, t, calls);
    for i := 0 to |calls|
      invariant Built(h, d, d', known, t, calls[..i]) && Placed(h, d, d', known, calls[..i], place)
      invariant SuccessorsFirst(HashGraph(t, known.Keys), calls[..i])
    {
      var k := calls[i];
      assert k in calls;
      assert calls[..i + 1] == calls[..i] + [k];
      if j: nat :| j < |t[k].incoming| && t[k].incoming[j].0 !in place {
        FirstFails(t, known, place, calls, i, j);
        return false, d', place;
      }
      assert AllPlaced(t, place, k);
      BuildStep(h, d, d', known, t, calls[..i], place, k);
      FirstHolds(t, known, place, calls, i);
      d', place := d' + [Node(t[k].value, Sources(t[k].incoming, place))], place[k := |d'|];
    }
    assert calls[..|calls|] == calls;
    ok := true;
  }

  // ----- attach -----

  /** The object can be attached: the node itself is known, or every hash reached without
      entering a known one is an entry and the walk meets no conflict. */
  ghost predicate AttachOk<N, E>(x: Object<N, E>, known: set<Hash>) {
    || x.current in known
    || (Complete(x, known) && !Conflict(HashGraph(x.allData, known), Markers(HashGraph(x.allData, known), x.current)))
  }

  ghost predicate Complete<N, E>(x: Object<N, E>, known: set<Hash>) {
    forall v :: Reach(HashGraph(x.allData, known), x.current, v) ==> v in x.allData
  }

  lemma {:induction false} ReachVisitable(g: Graph, a: nat, b: nat, n: nat)
    requires ReachIn(g, a, b, n) && a !in g.skip
    ensures b !in g.skip
    decreases n
  {
    if n > 0 {
      var x :| Edge(g, a, x) && ReachIn(g, x, b, n - 1);
      ReachVisitable(g, x, b, n - 1);
    }
  }

  lemma CallsNotKnown(g: Graph, start: nat, calls: seq<nat>)
    requires start !in g.skip && forall v :: v in calls <==> Reach(g, start, v)
    ensures forall v :: v in calls ==> v !in g.skip
  {
    forall v | v in calls ensures v !in g.skip {
      var n: nat :| ReachIn(g, start, v, n);
      ReachVisitable(g, start, v, n);
    }
  }

  /** `attach`. Failure stands for a panic. The node returned has the hash of the object.
      If that hash is known nothing is created; otherwise one node is created for each
      hash reached without entering a known one, and every known node is reused. */
  method AttachNode<N(!new), E(!new)>(h: Hasher<N, E>, ghost s: Arena<N, E>, d: Arena<N, E>, x: Object<N, E>,
                                      nodes: seq<nat>)
    returns (ok: bool, d': Arena<N, E>, r: nat, ghost calls: seq<Hash>)
    requires GoodHash(h) && WellFounded(s) && Comes(h, s, x.allData) && WellFounded(d) && InRange(d, nodes)
    ensures ok <==> AttachOk(x, Known(h, d, nodes).Keys)
    ensures ok ==> WellFounded(d') && d <= d' && r < |d'| && HashOf(h, d', r) == x.current
    ensures ok && x.current in Known(h, d, nodes) ==> d' == d && LastWith(h, d, nodes, x.current, r)
    ensures ok && x.current in Known(h, d, nodes) ==> r == Known(h, d, nodes)[x.current]
    ensures ok && x.current !in Known(h, d, nodes) ==>
      && NoDup(calls)
      && (forall v :: v in calls <==> Reach(HashGraph(x.allData, Known(h, d, nodes).Keys), x.current, v))
      && Built(h, d, d', Known(h, d, nodes), x.allData, calls) && |d| <= r
  {
    hide GoodHash, Comes, WellFounded, InRange, HashOf, DataOf, Known, Reach, Conflict, Walk, SuccessorsFirst, NoDup,
         HashGraph, Markers, Ranked, Genuine, BuiltNode, Stands, LastWith;
    var known := Known(h, d, nodes);
    if x.current in known {
      StandsAt(h, d, known, x.current);
      return true, d, known[x.current], [];
    }
    ComesRanked(h, s, x.allData, known.Keys);
    var g := HashGraph(x.allData, known.Keys);
    var cs;
    ok, cs := PostOrderForEach(g, x.current, HashRank(h, s));
    calls := cs;
    d', r := d, 0;
    if ok {
      CallsNotKnown(g, x.current, calls);
      var place;
      ok, d', place := Build(h, d, x.allData, known, cs);
      if ok {
        assert x.current in calls && x.current in place;
        StandsAt(h, d', place, x.current);
        r := place[x.current];
      }
    }
  }

  lemma StandsAt<N, E>(h: Hasher<N, E>, d: Arena<N, E>, all: map<Hash, nat>, k: Hash)
    requires WellFounded(d) && Stands(h, d, all) && k in all
    ensures all[k] < |d| && HashOf(h, d, all[k]) == k
  {
  }

  // ----- attaches_to -----

  /** If all required hashes are known then no lookup fails for want of an entry. */
  lemma AttachesToComplete<N, E>(x: Object<N, E>, known: set<Hash>)
    requires Required(x) <= known && x.current in x.allData
    ensures Complete(x, known)
  {
    var t := x.allData;
    forall v | Reach(HashGraph(t, known), x.current, v) ensures v in t {
      var n: nat :| ReachIn(HashGraph(t, known), x.current, v, n);
      forall k, j | k in t && 0 <= j < |t[k].incoming| && t[k].incoming[j].0 !in t
        ensures t[k].incoming[j].0 in Required(x)
      {
      }
      ReachKnown(t, known, x.current, v, n);
    }
  }

  /** The exact condition in terms of the table alone: nothing is missing, and at every
      entry that a depth-first search enters, each parent that a later listed parent has
      as an ancestor is finished already. */
  lemma AttachOkIff<N(!new), E(!new)>(h: Hasher<N, E>, s: Arena<N, E>, x: Object<N, E>, known: set<Hash>)
    requires GoodHash(h) && WellFounded(s) && Comes(h, s, x.allData)
    ensures Ranked(HashGraph(x.allData, known), HashRank(h, s))
    ensures AttachOk(x, known) <==>
      x.current in known || (Complete(x, known) && OrderlyFrom(HashGraph(x.allData, known), HashRank(h, s), x.current))
  {
    hide GoodHash, WellFounded, Comes, Conflict, Markers, HashGraph, Ranked, Genuine, OrderlyFrom, Walk, DfsOk, Begin;
    var g, rank := HashGraph(x.allData, known), HashRank(h, s);
    ComesRanked(h, s, x.allData, known);
    if Complete(x, known) {
      BeginDfs(g, x.current);
      WalkEnds(g, rank, x.current, Begin(x.current));
      PostOrderIff(g, rank, x.current);
    }
  }

  /** With all required hashes known, and no later listed parent of a node having an
      earlier listed one as an ancestor, attaching succeeds. */
  lemma CrossFreeAttaches<N(!new), E(!new)>(h: Hasher<N, E>, s: Arena<N, E>, x: Object<N, E>, known: set<Hash>)
    requires GoodHash(h) && WellFounded(s) && Comes(h, s, x.allData)
    requires Required(x) <= known && x.current in x.allData && CrossFree(HashGraph(x.allData, known), x.current)
    ensures AttachOk(x, known)
  {
    hide GoodHash, WellFounded, Comes, Required, CrossFree, AttachOk, HashGraph, Complete, Ranked, OrderlyFrom;
    AttachesToComplete(x, known);
    AttachOkIff(h, s, x, known);
    CrossFreeFrom(HashGraph(x.allData, known), HashRank(h, s), x.current);
  }

  ghost function Skew<N, E>(v: N, e: E): Arena<N, E> {
    [Node(v, []), Node(v, [(0, e)]), Node(v, [(0, e), (1, e)])]
  }

  lemma SkewContents<N(!new), E(!new)>(h: Hasher<N, E>, v: N, e: E)
    requires GoodHash(h)
    ensures WellFounded(Skew<N, E>(v, e))
    ensures var s := Skew<N, E>(v, e);
      var a, b, c := HashOf(h, s, 0), HashOf(h, s, 1), HashOf(h, s, 2);
      && a != b && b != c && a != c
      && Contents(h, s) == map[a := Data(v, []), b := Data(v, [(a, e)]), c := Data(v, [(a, e), (b, e)])]
  {
    var s := Skew<N, E>(v, e);
    assert ParentsBefore(s[0], 0) && ParentsBefore(s[1], 1) && ParentsBefore(s[2], 2);
    hide HashOf, DataOf;
    var a, b, c := HashOf(h, s, 0), HashOf(h, s, 1), HashOf(h, s, 2);
    HashIsOfData(h, s, 0);
    HashIsOfData(h, s, 1);
    HashIsOfData(h, s, 2);
    assert DataOf(h, s, 0) == Data(v, []);
    assert DataOf(h, s, 1) == Data(v, [(a, e)]);
    assert DataOf(h, s, 2) == Data(v, [(a, e), (b, e)]);
    assert Contents(h, s) == ContentsTo(h, s, 3) && ContentsTo(h, s, 0) == map[];
    assert ContentsTo(h, s, 3) == ContentsTo(h, s, 2)[c := DataOf(h, s, 2)];
    assert ContentsTo(h, s, 2) == ContentsTo(h, s, 1)[b := DataOf(h, s, 1)];
    assert ContentsTo(h, s, 1) == ContentsTo(h, s, 0)[a := DataOf(h, s, 0)];
  }

  /** `attaches_to` does not guarantee that `attach` succeeds: a node with parents A and B,
      in that order, where A is also the parent of B, requires nothing when detached from
      nothing, and still attaching it to nothing panics. */
  lemma AttachMayPanic<N(!new), E(!new)>(h: Hasher<N, E>, v: N, e: E)
    requires GoodHash(h)
    ensures WellFounded(Skew<N, E>(v, e))
    ensures var x := Detach(h, Skew<N, E>(v, e), 2, {}); Required(x) == {} && Complete(x, {}) && !AttachOk(x, {})
  {
    hide GoodHash, WellFounded, HashOf, Contents, Within, Walk, Conflict, Markers;
    var s := Skew<N, E>(v, e);
    SkewContents(h, v, e);
    var a, b, c := HashOf(h, s, 0), HashOf(h, s, 1), HashOf(h, s, 2);
    var x := Detach(h, s, 2, {});
    SkewReached(h, v, e);
    RequiredExact(h, s, 2, {});
    AttachesToComplete(x, {});
    NotAlwaysPostOrder(a, b, c);
  }

  lemma SkewReached<N(!new), E(!new)>(h: Hasher<N, E>, v: N, e: E)
    requires GoodHash(h)
    ensures WellFounded(Skew<N, E>(v, e))
    ensures var s := Skew<N, E>(v, e);
      var a, b, c := HashOf(h, s, 0), HashOf(h, s, 1), HashOf(h, s, 2);
      && a != b && b != c && a != c
      && Detach(h, s, 2, {}).allData == Contents(h, s) && HashGraph(Contents(h, s), {}) == Example(a, b, c)
  {
    hide GoodHash, WellFounded, HashOf, Contents, Reach;
    var s := Skew<N, E>(v, e);
    SkewContents(h, v, e);
    var a, b, c := HashOf(h, s, 0), HashOf(h, s, 1), HashOf(h, s, 2);
    var t := Contents(h, s);
    var g := HashGraph(t, {});
    assert ParentHashes(t[a]) == [] && ParentHashes(t[b]) == [a] && ParentHashes(t[c]) == [a, b];
    assert g.succ == Example(a, b, c).succ;
    assert Edge(g, c, a) && Edge(g, c, b);
    ReachEdge(g, c, a);
    ReachEdge(g, c, b);
    ReachSelf(g, c);
    assert Within(t, {}, c, a) && Within(t, {}, c, b) && Within(t, {}, c, c);
    assert Detach(h, s, 2, {}).allData == t;
  }

  // ----- round trip -----

  lemma SameEntry<N(!new), E(!new)>(h: Hasher<N, E>, t: Table<N, E>, u: Table<N, E>, k: Hash)
    requires GoodHash(h) && Genuine(h, t) && Genuine(h, u) && k in t && k in u
    ensures t[k] == u[k]
  {
  }

  /** What is reached from a common hash is the same in any two tables that contain all
      parents. */
  lemma {:induction false} ReachSame<N(!new), E(!new)>(h: Hasher<N, E>, t: Table<N, E>, u: Table<N, E>,
                                                       from: set<Hash>, a: Hash, b: Hash, n: nat)
    requires GoodHash(h) && Genuine(h, t) && Genuine(h, u) && ParentsIn(t) && ParentsIn(u) && a in t && a in u
    requires ReachIn(HashGraph(t, from), a, b, n)
    ensures ReachIn(HashGraph(u, from), a, b, n) && b in t && b in u && t[b] == u[b]
    decreases n
  {
    hide GoodHash, Genuine, ParentHashes;
    SameEntry(h, t, u, a);
    if n > 0 {
      var x :| Edge(HashGraph(t, from), a, x) && ReachIn(HashGraph(t, from), x, b, n - 1);
      var j :| 0 <= j < |t[a].incoming| && ParentHashes(t[a])[j] == x;
      ReachSame(h, t, u, from, x, b, n - 1);
      assert Edge(HashGraph(u, from), a, x);
    }
  }

  lemma WithinSame<N(!new), E(!new)>(h: Hasher<N, E>, t: Table<N, E>, u: Table<N, E>, from: set<Hash>, start: Hash,
                                     k: Hash)
    requires GoodHash(h) && Genuine(h, t) && Genuine(h, u) && ParentsIn(t) && ParentsIn(u) && start in t && start in u
    requires Within(t, from, start, k)
    ensures Within(u, from, start, k) && k in t && k in u && t[k] == u[k]
  {
    hide GoodHash, Genuine, ParentsIn, HashGraph;
    var n: nat :| ReachIn(HashGraph(t, from), start, k, n);
    ReachSame(h, t, u, from, start, k, n);
  }

  /** A hash determines what is detached, whichever node in whichever process carries it. */
  lemma DetachSame<N(!new), E(!new)>(h: Hasher<N, E>, s: Arena<N, E>, i: nat, d: Arena<N, E>, r: nat, from: set<Hash>)
    requires GoodHash(h) && WellFounded(s) && i < |s| && WellFounded(d) && r < |d| && HashOf(h, s, i) == HashOf(h, d, r)
    ensures Detach(h, s, i, from) == Detach(h, d, r, from)
  {
    hide GoodHash, WellFounded, HashOf, Contents, Within, Genuine, ParentsIn;
    var t, u, start := Contents(h, s), Contents(h, d), HashOf(h, s, i);
    ContentsClosed(h, s);
    ContentsClosed(h, d);
    HasContent(h, s, i);
    HasContent(h, d, r);
    forall k ensures Within(t, from, start, k) ==> Within(u, from, start, k) && k in t && k in u && t[k] == u[k] {
      if Within(t, from, start, k) { WithinSame(h, t, u, from, start, k); }
    }
    forall k ensures Within(u, from, start, k) ==> Within(t, from, start, k) && k in t {
      if Within(u, from, start, k) { WithinSame(h, u, t, from, start, k); }
    }
    assert Detach(h, s, i, from).allData == Detach(h, d, r, from).allData;
  }

  /** Detach a node of process `s`, attach it in process `d`, and detach it there again. */
  method DetachAttachDetach<N(!new), E(!new)>(h: Hasher<N, E>, s: Arena<N, E>, i: nat, from: set<Hash>,
                                              d: Arena<N, E>, nodes: seq<nat>)
    returns (ok: bool, d': Arena<N, E>, x: Object<N, E>, x': Object<N, E>)
    requires GoodHash(h) && WellFounded(s) && i < |s| && WellFounded(d) && InRange(d, nodes)
    ensures x == Detach(h, s, i, from)
    ensures ok <==> AttachOk(x, Known(h, d, nodes).Keys)
    ensures ok ==> x' == x && d <= d'
  {
    hide GoodHash, WellFounded, InRange, HashOf, Detach, AttachOk, Known, NoDup, Built;
    x := DetachNode(h, s, i, from);
    DetachComes(h, s, i, from);
    var r; ghost var calls;
    ok, d', r, calls := AttachNode(h, s, d, x, nodes);
    x' := x;
    if ok {
      x' := DetachNode(h, d', r, from);
      DetachCurrent(h, s, i, from);
      DetachSame(h, s, i, d', r, from);
    }
  }

  lemma DetachComes<N, E>(h: Hasher<N, E>, s: Arena<N, E>, i: nat, from: set<Hash>)
    requires WellFounded(s) && i < |s|
    ensures Comes(h, s, Detach(h, s, i, from).allData)
  {
    hide Contents, HashOf, Within, WellFounded;
  }

  lemma DetachCurrent<N, E>(h: Hasher<N, E>, s: Arena<N, E>, i: nat, from: set<Hash>)
    requires WellFounded(s) && i < |s|
    ensures Detach(h, s, i, from).current == HashOf(h, s, i)
  {
    hide Contents, HashOf, Within, WellFounded;
  }
}
