/** Content hashes and detached objects (src/detached.rs). The hash function is a
    parameter: any function of a node's value and its incoming (parent hash, edge value)
    pairs that is injective and never zero. */
module Detached {
  import opened Dag
  import opened PostOrder

  type Hash = nat

  /** `DetachedInnerData`. */
  datatype Data<N, E> = Data(value: N, incoming: seq<(Hash, E)>)

  type Hasher<!N, !E> = Data<N, E> -> Hash

  ghost predicate GoodHash<N(!new), E(!new)>(h: Hasher<N, E>) {
    && (forall x, y :: h(x) == h(y) ==> x == y)
    && (forall x :: h(x) != 0)
  }

  type Table<N, E> = map<Hash, Data<N, E>>

  /** `Detached`. */
  datatype Object<N, E> = Object(current: Hash, allData: Table<N, E>)

  function ParentHashes<N, E>(x: Data<N, E>): (r: seq<Hash>)
    ensures |r| == |x.incoming| && forall k :: 0 <= k < |r| ==> r[k] == x.incoming[k].0
  {
    seq(|x.incoming|, k requires 0 <= k < |x.incoming| => x.incoming[k].0)
  }

  /** The graph of the entries of a table, from nodes to parents, where the hashes in
      `skip` are not entered. */
  function HashGraph<N, E>(t: Table<N, E>, skip: set<Hash>): (g: Graph)
    ensures g.succ.Keys == t.Keys && g.skip == skip
    ensures forall k :: k in t ==> g.succ[k] == ParentHashes(t[k])
  {
    Graph(map k | k in t :: ParentHashes(t[k]), skip)
  }

  // ----- the hash of a node -----

  function DataOf<N, E>(h: Hasher<N, E>, d: Arena<N, E>, i: nat): (x: Data<N, E>)
    requires WellFounded(d) && i < |d|
    ensures x.value == d[i].value && |x.incoming| == |d[i].incoming|
    ensures forall k :: 0 <= k < |x.incoming| ==>
      d[i].incoming[k].0 < i && x.incoming[k] == (HashOf(h, d, d[i].incoming[k].0), d[i].incoming[k].1)
    decreases i, 0
  {
    assert ParentsBefore(d[i], i);
    Data(d[i].value, seq(|d[i].incoming|,
      k requires 0 <= k < |d[i].incoming| => (HashOf(h, d, d[i].incoming[k].0), d[i].incoming[k].1)))
  }

  function HashOf<N, E>(h: Hasher<N, E>, d: Arena<N, E>, i: nat): Hash
    requires WellFounded(d) && i < |d|
    decreases i, 1
  {
    h(DataOf(h, d, i))
  }

  lemma {:induction false} HashGrow<N, E>(h: Hasher<N, E>, d: Arena<N, E>, d': Arena<N, E>, i: nat)
    requires WellFounded(d) && WellFounded(d') && d <= d' && i < |d|
    ensures DataOf(h, d', i) == DataOf(h, d, i) && HashOf(h, d', i) == HashOf(h, d, i)
    decreases i
  {
    forall k | 0 <= k < |d[i].incoming| ensures DataOf(h, d', i).incoming[k] == DataOf(h, d, i).incoming[k] {
      HashGrow(h, d, d', d[i].incoming[k].0);
    }
    assert DataOf(h, d', i).incoming == DataOf(h, d, i).incoming;
  }

  ghost function ContentsTo<N, E>(h: Hasher<N, E>, d: Arena<N, E>, n: nat): Table<N, E>
    requires WellFounded(d) && n <= |d|
  {
    if n == 0 then map[] else ContentsTo(h, d, n - 1)[HashOf(h, d, n - 1) := DataOf(h, d, n - 1)]
  }

  /** All contents present among the nodes, by hash. */
  ghost function Contents<N, E>(h: Hasher<N, E>, d: Arena<N, E>): Table<N, E>
    requires WellFounded(d)
  {
    ContentsTo(h, d, |d|)
  }

  /** Some of the first `n` nodes has hash `k`. */
  ghost predicate HashAmong<N, E>(h: Hasher<N, E>, d: Arena<N, E>, k: Hash, n: nat)
    requires WellFounded(d) && n <= |d|
  {
    exists i :: 0 <= i < n && HashOf(h, d, i) == k
  }

  lemma HashIsOfData<N, E>(h: Hasher<N, E>, d: Arena<N, E>, i: nat)
    requires WellFounded(d) && i < |d|
    ensures HashOf(h, d, i) == h(DataOf(h, d, i))
  {
  }

  lemma {:induction false} ContentsToAre<N(!new), E(!new)>(h: Hasher<N, E>, d: Arena<N, E>, n: nat)
    requires GoodHash(h) && WellFounded(d) && n <= |d|
    ensures forall i :: 0 <= i < n ==>
      HashOf(h, d, i) in ContentsTo(h, d, n) && ContentsTo(h, d, n)[HashOf(h, d, i)] == DataOf(h, d, i)
    ensures forall k :: k in ContentsTo(h, d, n) ==> HashAmong(h, d, k, n)
  {
    hide HashOf, DataOf;
    if n > 0 {
      ContentsToAre(h, d, n - 1);
      var t, t' := ContentsTo(h, d, n - 1), ContentsTo(h, d, n);
      forall i | 0 <= i < n ensures HashOf(h, d, i) in t' && t'[HashOf(h, d, i)] == DataOf(h, d, i) {
        HashIsOfData(h, d, i);
        HashIsOfData(h, d, n - 1);
      }
      forall k | k in t' ensures HashAmong(h, d, k, n) {
        if k != HashOf(h, d, n - 1) {
          var i :| 0 <= i < n - 1 && HashOf(h, d, i) == k;
        }
      }
    }
  }

  lemma ContentsAre<N(!new), E(!new)>(h: Hasher<N, E>, d: Arena<N, E>)
    requires GoodHash(h) && WellFounded(d)
    ensures forall i :: 0 <= i < |d| ==>
      HashOf(h, d, i) in Contents(h, d) && Contents(h, d)[HashOf(h, d, i)] == DataOf(h, d, i)
    ensures forall k :: k in Contents(h, d) ==> HashAmong(h, d, k, |d|)
  {
    hide HashOf, DataOf, HashAmong, ContentsTo, GoodHash;
    ContentsToAre(h, d, |d|);
  }

  /** A table as it comes from real nodes: keys are the hashes of the entries. */
  ghost predicate Genuine<N, E>(h: Hasher<N, E>, t: Table<N, E>) {
    forall k :: k in t ==> h(t[k]) == k
  }

  ghost predicate ParentsIn<N, E>(t: Table<N, E>) {
    forall k, j :: k in t && 0 <= j < |t[k].incoming| ==> t[k].incoming[j].0 in t
  }

  lemma ContentsClosed<N(!new), E(!new)>(h: Hasher<N, E>, d: Arena<N, E>)
    requires GoodHash(h) && WellFounded(d)
    ensures Genuine(h, Contents(h, d)) && ParentsIn(Contents(h, d))
  {
    hide GoodHash, Contents, HashOf, DataOf;
    ContentsAre(h, d);
    var t := Contents(h, d);
    forall k | k in t ensures h(t[k]) == k {
      assert HashAmong(h, d, k, |d|);
      var i :| 0 <= i < |d| && HashOf(h, d, i) == k;
      HashIsOfData(h, d, i);
    }
    forall k, j | k in t && 0 <= j < |t[k].incoming| ensures t[k].incoming[j].0 in t {
      assert HashAmong(h, d, k, |d|);
      var i :| 0 <= i < |d| && HashOf(h, d, i) == k;
      assert t[k] == DataOf(h, d, i);
    }
  }

  /** The first node with a given content: its index decreases from nodes to parents. */
  ghost function FirstWith<N, E>(h: Hasher<N, E>, d: Arena<N, E>, k: Hash, n: nat): nat
    requires WellFounded(d) && n <= |d|
  {
    if n == 0 then 0
    else
      var r := FirstWith(h, d, k, n - 1);
      if r < n - 1 then r else if HashOf(h, d, n - 1) == k then n - 1 else n
  }

  lemma {:induction false} FirstWithIs<N, E>(h: Hasher<N, E>, d: Arena<N, E>, k: Hash, n: nat)
    requires WellFounded(d) && n <= |d|
    ensures FirstWith(h, d, k, n) <= n
    ensures FirstWith(h, d, k, n) < n ==> HashOf(h, d, FirstWith(h, d, k, n)) == k
    ensures forall i :: 0 <= i < n && HashOf(h, d, i) == k ==> FirstWith(h, d, k, n) <= i
  {
    hide HashOf;
    if n > 0 { FirstWithIs(h, d, k, n - 1); }
  }

  ghost function HashRank<N, E>(h: Hasher<N, E>, d: Arena<N, E>): nat -> nat
    requires WellFounded(d)
  {
    (k: nat) => FirstWith(h, d, k, |d|)
  }

  lemma ParentRank<N, E>(h: Hasher<N, E>, d: Arena<N, E>, k: Hash, j: nat)
    requires WellFounded(d) && FirstWith(h, d, k, |d|) < |d| && j < |d[FirstWith(h, d, k, |d|)].incoming|
    ensures d[FirstWith(h, d, k, |d|)].incoming[j].0 < FirstWith(h, d, k, |d|)
    ensures FirstWith(h, d, HashOf(h, d, d[FirstWith(h, d, k, |d|)].incoming[j].0), |d|) < FirstWith(h, d, k, |d|)
  {
    hide FirstWith, HashOf;
    var i := FirstWith(h, d, k, |d|);
    assert ParentsBefore(d[i], i);
    FirstWithIs(h, d, HashOf(h, d, d[i].incoming[j].0), |d|);
  }

  lemma ContentsRanked<N(!new), E(!new)>(h: Hasher<N, E>, d: Arena<N, E>, skip: set<Hash>)
    requires GoodHash(h) && WellFounded(d)
    ensures Ranked(HashGraph(Contents(h, d), skip), HashRank(h, d))
  {
    hide GoodHash, FirstWith, Contents, HashOf, DataOf;
    ContentsAre(h, d);
    var t := Contents(h, d);
    var g := HashGraph(t, skip);
    forall k, p | Edge(g, k, p) ensures HashRank(h, d)(p) < HashRank(h, d)(k) {
      FirstWithIs(h, d, k, |d|);
      var i := FirstWith(h, d, k, |d|);
      assert HashAmong(h, d, k, |d|);
      assert i < |d| && t[k] == DataOf(h, d, i);
      var j :| 0 <= j < |t[k].incoming| && ParentHashes(t[k])[j] == p;
      ParentRank(h, d, k, j);
    }
  }

  // ----- detach -----

  /** The entries reached from `k` by going to parents without entering `from`. */
  ghost predicate Within<N, E>(t: Table<N, E>, from: set<Hash>, start: Hash, k: Hash) {
    start !in from && Reach(HashGraph(t, from), start, k)
  }

  /** `detach`, as a definition: the node's hash and all contents on upward paths that
      avoid `from`. */
  ghost function Detach<N, E>(h: Hasher<N, E>, d: Arena<N, E>, i: nat, from: set<Hash>): Object<N, E>
    requires WellFounded(d) && i < |d|
  {
    var t, start := Contents(h, d), HashOf(h, d, i);
    Object(start, map k | k in t && Within(t, from, start, k) :: t[k])
  }

  lemma WithinClosed<N, E>(t: Table<N, E>, from: set<Hash>, start: Hash, k: Hash, p: Hash)
    requires Within(t, from, start, k) && k in t && p in ParentHashes(t[k]) && p !in from
    ensures Within(t, from, start, p)
  {
    var g := HashGraph(t, from);
    assert Edge(g, k, p);
    ReachEdge(g, k, p);
    ReachTrans(g, start, k, p);
  }

  /** What `attaches_to` checks: every parent of an entry is an entry or in `from`. */
  ghost predicate ParentsInOr<N, E>(t: Table<N, E>, from: set<Hash>) {
    forall k, j :: k in t && 0 <= j < |t[k].incoming| ==> t[k].incoming[j].0 in t || t[k].incoming[j].0 in from
  }

  lemma {:induction false} ReachKnown<N, E>(t: Table<N, E>, from: set<Hash>, a: Hash, b: Hash, n: nat)
    requires ParentsInOr(t, from) && a in t && ReachIn(HashGraph(t, from), a, b, n)
    ensures b in t && (n > 0 ==> b !in from)
    decreases n
  {
    if n > 0 {
      var g := HashGraph(t, from);
      var x :| Edge(g, a, x) && ReachIn(g, x, b, n - 1);
      assert x in t by {
        var j :| 0 <= j < |t[a].incoming| && ParentHashes(t[a])[j] == x;
      }
      ReachKnown(t, from, x, b, n - 1);
    }
  }

  lemma WithinKnown<N, E>(t: Table<N, E>, from: set<Hash>, start: Hash, k: Hash)
    requires ParentsIn(t) && start in t && Within(t, from, start, k)
    ensures k in t && k !in from
  {
    var n: nat :| ReachIn(HashGraph(t, from), start, k, n);
    ReachKnown(t, from, start, k, n);
  }

  /** `required_hashes`. */
  ghost function Required<N, E>(x: Object<N, E>): set<Hash> {
    set k, j | k in x.allData && 0 <= j < |x.allData[k].incoming|
      && x.allData[k].incoming[j].0 !in x.allData :: x.allData[k].incoming[j].0
  }

  /** The required hashes of a detached node are exactly the parents of its entries that
      lie in `from`; so `attaches_to` holds for any set covering those. */
  lemma RequiredExact<N(!new), E(!new)>(h: Hasher<N, E>, d: Arena<N, E>, i: nat, from: set<Hash>)
    requires GoodHash(h) && WellFounded(d) && i < |d|
    ensures var x := Detach(h, d, i, from);
      && Required(x) <= from
      && forall p :: p in Required(x) <==> p in from && exists k :: k in x.allData && p in ParentHashes(x.allData[k])
  {
    hide GoodHash, Within, Contents, HashOf;
    ContentsAre(h, d);
    var t, start, x := Contents(h, d), HashOf(h, d, i), Detach(h, d, i, from);
    ContentsClosed(h, d);
    forall p | p in Required(x) ensures p in from && exists k :: k in x.allData && p in ParentHashes(x.allData[k]) {
      var k, j :| k in x.allData && 0 <= j < |x.allData[k].incoming| && x.allData[k].incoming[j].0 == p
        && p !in x.allData;
      assert ParentHashes(x.allData[k])[j] == p && p in t;
      if p !in from { WithinClosed(t, from, start, k, p); }
    }
    forall p, k | p in from && k in x.allData && p in ParentHashes(x.allData[k]) ensures p in Required(x) {
      var j :| 0 <= j < |x.allData[k].incoming| && ParentHashes(x.allData[k])[j] == p;
      if p in x.allData { WithinKnown(t, from, start, p); }
    }
  }

  ghost predicate ParentOf<N, E>(t: Table<N, E>, k: Hash, p: Hash) {
    k in t && p in ParentHashes(t[k])
  }

  /** The state of the loop of `ancestors_upto`, by hashes: what is on the stack is the
      start or the parent of a collected node, and the parents of a collected node that may
      be entered are collected or on the stack. */
  ghost predicate Collecting<N, E>(t: Table<N, E>, start: Hash, from: set<Hash>, hs: seq<Hash>, all: set<Hash>) {
    && (forall p :: p in hs ==> p in from || Within(t, from, start, p))
    && (forall k :: k in all ==> Within(t, from, start, k))
    && (forall k, p :: k in all && ParentOf(t, k, p) && p !in from ==> p in all || p in hs)
    && (start in from || start in all || start in hs)
  }

  lemma SkipOne<N, E>(t: Table<N, E>, start: Hash, from: set<Hash>, hs: seq<Hash>, all: set<Hash>)
    requires hs != [] && Collecting(t, start, from, hs, all) && (hs[|hs| - 1] in all || hs[|hs| - 1] in from)
    ensures Collecting(t, start, from, hs[..|hs| - 1], all)
  {
    hide Within, ParentOf;
    assert hs == hs[..|hs| - 1] + [hs[|hs| - 1]];
  }

  lemma TakeOne<N, E>(t: Table<N, E>, start: Hash, from: set<Hash>, hs: seq<Hash>, all: set<Hash>)
    requires hs != [] && Collecting(t, start, from, hs, all) && hs[|hs| - 1] in t && hs[|hs| - 1] !in from
    ensures Collecting(t, start, from, hs[..|hs| - 1] + ParentHashes(t[hs[|hs| - 1]]), all + {hs[|hs| - 1]})
  {
    hide Within;
    var k, rest := hs[|hs| - 1], hs[..|hs| - 1];
    assert hs == rest + [k];
    var hs' := rest + ParentHashes(t[k]);
    forall p | p in ParentHashes(t[k]) && p !in from ensures Within(t, from, start, p) {
      WithinClosed(t, from, start, k, p);
    }
  }

  lemma CollectedAll<N, E>(t: Table<N, E>, start: Hash, from: set<Hash>, all: set<Hash>)
    requires Collecting(t, start, from, [], all)
    ensures forall k :: k in all <==> Within(t, from, start, k)
  {
    var g := HashGraph(t, from);
    forall k | Within(t, from, start, k) ensures k in all {
      var n: nat :| ReachIn(g, start, k, n);
      forall v, u | v in all && Edge(g, v, u) ensures u in all {
        assert ParentOf(t, v, u);
      }
      ClosedReach(g, all, start, k, n);
    }
  }

  ghost predicate InRange<N, E>(d: Arena<N, E>, stack: seq<nat>) {
    forall j :: 0 <= j < |stack| ==> stack[j] < |d|
  }

  ghost function HashesOf<N, E>(h: Hasher<N, E>, d: Arena<N, E>, stack: seq<nat>): seq<Hash>
    requires WellFounded(d) && InRange(d, stack)
  {
    seq(|stack|, j requires 0 <= j < |stack| => HashOf(h, d, stack[j]))
  }

  lemma HashesOfConcat<N, E>(h: Hasher<N, E>, d: Arena<N, E>, s: seq<nat>, t: seq<nat>)
    requires WellFounded(d) && InRange(d, s) && InRange(d, t)
    ensures InRange(d, s + t) && HashesOf(h, d, s + t) == HashesOf(h, d, s) + HashesOf(h, d, t)
  {
    hide HashOf;
    assert HashesOf(h, d, s + t) == HashesOf(h, d, s) + HashesOf(h, d, t);
  }

  lemma ParentHashesOf<N, E>(h: Hasher<N, E>, d: Arena<N, E>, x: nat)
    requires WellFounded(d) && x < |d|
    ensures InRange(d, Parents(d[x])) && HashesOf(h, d, Parents(d[x])) == ParentHashes(DataOf(h, d, x))
  {
    hide HashOf, DataOf;
    assert ParentsBefore(d[x], x);
    assert InRange(d, Parents(d[x]));
    assert HashesOf(h, d, Parents(d[x])) == ParentHashes(DataOf(h, d, x));
  }

  lemma HashesOfOne<N, E>(h: Hasher<N, E>, d: Arena<N, E>, i: nat)
    requires WellFounded(d) && i < |d|
    ensures InRange(d, [i]) && HashesOf(h, d, [i]) == [HashOf(h, d, i)]
  {
    hide HashOf;
    assert HashesOf(h, d, [i])[0] == HashOf(h, d, i);
  }

  /** Popping a node, and popping it and pushing its parents. */
  lemma StackStep<N, E>(h: Hasher<N, E>, d: Arena<N, E>, rest: seq<nat>, x: nat)
    requires WellFounded(d) && InRange(d, rest + [x])
    ensures x < |d| && InRange(d, rest) && InRange(d, rest + Parents(d[x]))
    ensures var hs := HashesOf(h, d, rest + [x]);
      && hs != [] && hs[|hs| - 1] == HashOf(h, d, x) && HashesOf(h, d, rest) == hs[..|hs| - 1]
      && HashesOf(h, d, rest + Parents(d[x])) == hs[..|hs| - 1] + ParentHashes(DataOf(h, d, x))
  {
    hide HashOf, DataOf, HashesOf, ParentHashes, Parents;
    assert InRange(d, rest) && x < |d| by {
      forall j | 0 <= j < |rest| ensures rest[j] < |d| { assert (rest + [x])[j] < |d|; }
      assert (rest + [x])[|rest|] < |d|;
    }
    hide InRange;
    HashesOfOne(h, d, x);
    HashesOfConcat(h, d, rest, [x]);
    ParentHashesOf(h, d, x);
    HashesOfConcat(h, d, rest, Parents(d[x]));
  }

  /** The collected nodes stand for their hashes. */
  ghost predicate Stands<N, E>(h: Hasher<N, E>, d: Arena<N, E>, all: map<Hash, nat>)
    requires WellFounded(d)
  {
    forall k :: k in all ==> all[k] < |d| && HashOf(h, d, all[k]) == k
  }

  lemma HasContent<N(!new), E(!new)>(h: Hasher<N, E>, d: Arena<N, E>, i: nat)
    requires GoodHash(h) && WellFounded(d) && i < |d|
    ensures HashOf(h, d, i) in Contents(h, d) && Contents(h, d)[HashOf(h, d, i)] == DataOf(h, d, i)
  {
    hide HashOf, DataOf, Contents, GoodHash;
    ContentsAre(h, d);
  }

  /** One round of the loop of `ancestors_upto`. */
  lemma CollectStep<N(!new), E(!new)>(h: Hasher<N, E>, d: Arena<N, E>, start: Hash, from: set<Hash>, rest: seq<nat>,
                                      x: nat, all: set<Hash>)
    requires GoodHash(h) && WellFounded(d) && InRange(d, rest + [x])
    requires Collecting(Contents(h, d), start, from, HashesOf(h, d, rest + [x]), all)
    ensures x < |d| && InRange(d, rest) && InRange(d, rest + Parents(d[x]))
    ensures var k := HashOf(h, d, x);
      if k !in all && k !in from
      then
        && k in Contents(h, d)
        && Collecting(Contents(h, d), start, from, HashesOf(h, d, rest + Parents(d[x])), all + {k})
      else Collecting(Contents(h, d), start, from, HashesOf(h, d, rest), all)
  {
    hide GoodHash, Contents, Within, Collecting, HashOf, DataOf, HashesOf, InRange, ParentHashes, Parents;
    StackStep(h, d, rest, x);
    HasContent(h, d, x);
    var k := HashOf(h, d, x);
    if k !in all && k !in from {
      TakeOne(Contents(h, d), start, from, HashesOf(h, d, rest + [x]), all);
    } else {
      SkipOne(Contents(h, d), start, from, HashesOf(h, d, rest + [x]), all);
    }
  }

  /** `ancestors_upto`: for every content on an upward path that avoids `from`, one node
      with that content. */
  method AncestorsUpto<N(!new), E(!new)>(h: Hasher<N, E>, d: Arena<N, E>, i: nat, from: set<Hash>)
    returns (all: map<Hash, nat>)
    requires GoodHash(h) && WellFounded(d) && i < |d|
    ensures forall k :: k in all <==> Within(Contents(h, d), from, HashOf(h, d, i), k)
    ensures Stands(h, d, all)
  {
    hide GoodHash, WellFounded, Contents, Within, Collecting, HashOf, DataOf, HashesOf, InRange, Stands, Parents, Left;
    ghost var t, start := Contents(h, d), HashOf(h, d, i);
    var stack := [i];
    all := map[];
    assert all.Keys == {};
    CollectNothing(t, start, from);
    HashesOfOne(h, d, i);
    StandsNone(h, d);
    while stack != []
      invariant InRange(d, stack) && Collecting(t, start, from, HashesOf(h, d, stack), all.Keys)
      invariant Stands(h, d, all)
      decreases Left(t.Keys, all.Keys), |stack|
    {
      var x, rest := stack[|stack| - 1], stack[..|stack| - 1];
      assert stack == rest + [x] && |rest| < |stack|;
      CollectStep(h, d, start, from, rest, x, all.Keys);
      var k := HashOf(h, d, x);
      stack := rest;
      if k !in all && k !in from {
        FewerLeft(t.Keys, all, k, x);
        StandsMore(h, d, all, x);
        stack := stack + Parents(d[x]);
        all := all[k := x];
      }
    }
    HashesOfNone(h, d);
    CollectedAll(t, start, from, all.Keys);
  }

  lemma HashesOfNone<N, E>(h: Hasher<N, E>, d: Arena<N, E>)
    requires WellFounded(d)
    ensures InRange(d, []) && HashesOf(h, d, []) == []
  {
  }

  lemma StandsNone<N, E>(h: Hasher<N, E>, d: Arena<N, E>)
    requires WellFounded(d)
    ensures Stands(h, d, map[])
  {
  }

  lemma StandsMore<N, E>(h: Hasher<N, E>, d: Arena<N, E>, all: map<Hash, nat>, x: nat)
    requires WellFounded(d) && Stands(h, d, all) && x < |d|
    ensures Stands(h, d, all[HashOf(h, d, x) := x])
  {
    hide HashOf;
  }

  ghost function Left(t: set<Hash>, all: set<Hash>): nat {
    |t - all|
  }

  lemma FewerLeft(t: set<Hash>, all: map<Hash, nat>, k: Hash, x: nat)
    requires k in t && k !in all
    ensures all[k := x].Keys == all.Keys + {k} && Left(t, all.Keys + {k}) < Left(t, all.Keys)
  {
    assert t - all.Keys == (t - (all.Keys + {k})) + {k};
  }

  lemma CollectNothing<N, E>(t: Table<N, E>, start: Hash, from: set<Hash>)
    ensures Collecting(t, start, from, [start], {})
  {
    ReachSelf(HashGraph(t, from), start);
  }

  /** `Detached::new`. */
  method DetachNode<N(!new), E(!new)>(h: Hasher<N, E>, d: Arena<N, E>, i: nat, from: set<Hash>)
    returns (x: Object<N, E>)
    requires GoodHash(h) && WellFounded(d) && i < |d|
    ensures x == Detach(h, d, i, from)
  {
    hide GoodHash, Contents, Within, HashOf, DataOf;
    var all := AncestorsUpto(h, d, i, from);
    x := Object(HashOf(h, d, i), map k | k in all :: DataOf(h, d, all[k]));
    ContentsAre(h, d);
    assert x.allData == Detach(h, d, i, from).allData;
  }

  // ----- there are such hash functions -----

  ghost function Triangle(n: nat): nat {
    if n == 0 then 0 else Triangle(n - 1) + n
  }

  /** Cantor's pairing of numbers. */
  ghost function Pair(a: nat, b: nat): nat {
    Triangle(a + b) + b
  }

  lemma {:induction false} TriangleGrows(m: nat, n: nat)
    requires m < n
    ensures Triangle(m) + m < Triangle(n)
    decreases n
  {
    if m < n - 1 { TriangleGrows(m, n - 1); }
  }

  lemma PairInjective(a: nat, b: nat, c: nat, d: nat)
    requires Pair(a, b) == Pair(c, d)
    ensures a == c && b == d
  {
    if a + b < c + d { TriangleGrows(a + b, c + d); }
    if c + d < a + b { TriangleGrows(c + d, a + b); }
  }

  ghost function Code(es: seq<(Hash, nat)>): nat {
    if es == [] then 0 else 1 + Pair(Pair(es[0].0, es[0].1), Code(es[1..]))
  }

  lemma {:induction false} CodeInjective(s: seq<(Hash, nat)>, t: seq<(Hash, nat)>)
    requires Code(s) == Code(t)
    ensures s == t
  {
    if s != [] && t != [] {
      PairInjective(Pair(s[0].0, s[0].1), Code(s[1..]), Pair(t[0].0, t[0].1), Code(t[1..]));
      PairInjective(s[0].0, s[0].1, t[0].0, t[0].1);
      CodeInjective(s[1..], t[1..]);
      assert s == [s[0]] + s[1..] && t == [t[0]] + t[1..];
    }
  }

  /** A hash function as it is required, for numbers as values. */
  lemma GoodHashExists() returns (h: Hasher<nat, nat>)
    ensures GoodHash(h)
  {
    h := (x: Data<nat, nat>) => 1 + Pair(x.value, Code(x.incoming));
    forall x, y | h(x) == h(y) ensures x == y {
      PairInjective(x.value, Code(x.incoming), y.value, Code(y.incoming));
      CodeInjective(x.incoming, y.incoming);
    }
  }
}
