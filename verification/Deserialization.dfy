/** Rebuilding nodes from an id-keyed table (src/serialization.rs:107-121,
    src/serialization.rs:211-249). */
module Deserialization {
  import opened Prelude
  import opened Dag

  type NodeId = nat

  /** `SerializedInnerData`. */
  datatype SerData<N, E> = SerData(value: N, incoming: seq<(NodeId, E)>)

  type Table<N, E> = map<NodeId, SerData<N, E>>

  ghost predicate ParentClosed<N, E>(t: Table<N, E>) {
    forall id, k :: id in t && 0 <= k < |t[id].incoming| ==> t[id].incoming[k].0 in t
  }

  /** `rank` decreases from every node to its parents. */
  ghost predicate Ranked<N, E>(t: Table<N, E>, rank: map<NodeId, nat>) {
    && (forall id :: id in t ==> id in rank)
    && (forall id, k :: id in t && 0 <= k < |t[id].incoming| && t[id].incoming[k].0 in t ==>
      rank[t[id].incoming[k].0] < rank[id])
  }

  ghost predicate Acyclic<N, E>(t: Table<N, E>) {
    exists rank :: Ranked(t, rank)
  }

  /** The node created for `id` has the value and, in order, the parents and edge values
      that the table asks for. */
  ghost predicate NodeIs<N, E>(t: Table<N, E>, nodes: map<NodeId, nat>, d: Arena<N, E>, id: NodeId)
    requires id in t && id in nodes
  {
    && nodes[id] < |d|
    && d[nodes[id]].value == t[id].value
    && |d[nodes[id]].incoming| == |t[id].incoming|
    && forall k :: 0 <= k < |t[id].incoming| ==>
         t[id].incoming[k].0 in nodes && d[nodes[id]].incoming[k] == (nodes[t[id].incoming[k].0], t[id].incoming[k].1)
  }

  /** The nodes created so far, one for each id in `nodes`, after those of `base`. */
  ghost predicate Built<N, E>(t: Table<N, E>, base: Arena<N, E>, nodes: map<NodeId, nat>, d: Arena<N, E>) {
    && WellFounded(d) && base <= d
    && (forall id :: id in nodes ==> id in t && |base| <= nodes[id] && NodeIs(t, nodes, d, id))
    && (forall i, j :: i in nodes && j in nodes && nodes[i] == nodes[j] ==> i == j)
    && (forall x :: |base| <= x < |d| ==> x in nodes.Values)
  }

  /** What is left in the table is unchanged and not built yet. */
  ghost predicate Remaining<N, E>(t: Table<N, E>, rest: Table<N, E>, nodes: map<NodeId, nat>) {
    forall id :: id in rest ==> id in t && rest[id] == t[id] && id !in nodes
  }

  /** The ids whose construction has begun but not ended. */
  ghost function Pending<N, E>(t: Table<N, E>, rest: Table<N, E>, nodes: map<NodeId, nat>): set<NodeId> {
    t.Keys - rest.Keys - nodes.Keys
  }

  /** `id` lies below everything that is pending. */
  ghost predicate Fits<N, E>(t: Table<N, E>, rank: map<NodeId, nat>, pending: set<NodeId>, id: NodeId) {
    Ranked(t, rank) && id in rank && forall p :: p in pending && p in rank ==> rank[id] < rank[p]
  }

  ghost predicate Extends(nodes: map<NodeId, nat>, nodes': map<NodeId, nat>) {
    forall id :: id in nodes ==> id in nodes' && nodes'[id] == nodes[id]
  }

  lemma NodeIsLater<N, E>(t: Table<N, E>, nodes: map<NodeId, nat>, d: Arena<N, E>, nodes': map<NodeId, nat>,
                          d': Arena<N, E>, id: NodeId)
    requires id in t && id in nodes && NodeIs(t, nodes, d, id) && Extends(nodes, nodes') && d <= d'
    ensures id in nodes' && NodeIs(t, nodes', d', id)
  {
    assert d'[nodes[id]] == d[nodes[id]];
  }

  /** `RelRc::with_parents` for `id`, once all its parents exist. */
  function Create<N, E>(value: N, incoming: seq<(NodeId, E)>, nodes: map<NodeId, nat>): (n: Node<N, E>)
    requires forall k :: 0 <= k < |incoming| ==> incoming[k].0 in nodes
    ensures n.value == value && |n.incoming| == |incoming|
    ensures forall k :: 0 <= k < |incoming| ==> n.incoming[k] == (nodes[incoming[k].0], incoming[k].1)
  {
    Node(value, seq(|incoming|, k requires 0 <= k < |incoming| => (nodes[incoming[k].0], incoming[k].1)))
  }

  lemma BuiltOne<N, E>(t: Table<N, E>, base: Arena<N, E>, nodes: map<NodeId, nat>, d: Arena<N, E>, id: NodeId)
    requires Built(t, base, nodes, d) && id in t && id !in nodes
    requires forall k :: 0 <= k < |t[id].incoming| ==> t[id].incoming[k].0 in nodes
    ensures Built(t, base, nodes[id := |d|], d + [Create(t[id].value, t[id].incoming, nodes)])
  {
    var nodes', d' := nodes[id := |d|], d + [Create(t[id].value, t[id].incoming, nodes)];
    forall i | 0 <= i < |d'| ensures ParentsBefore(d'[i], i) {
      if i < |d| { assert ParentsBefore(d[i], i); }
    }
    forall j | j in nodes' ensures j in t && |base| <= nodes'[j] && NodeIs(t, nodes', d', j) {
      if j != id { NodeIsLater(t, nodes, d, nodes', d', j); }
    }
    forall x | |base| <= x < |d'| ensures x in nodes'.Values {
      if x == |d| {
        assert nodes'[id] == x;
      } else {
        assert x in nodes.Values;
        var j :| j in nodes && nodes[j] == x;
        assert nodes'[j] == x;
      }
    }
  }

  /** All the parents lie below everything that is pending. */
  ghost predicate AllFit<N, E>(t: Table<N, E>, rank: map<NodeId, nat>, pending: set<NodeId>,
                               incoming: seq<(NodeId, E)>) {
    forall k :: 0 <= k < |incoming| ==> incoming[k].0 in t && Fits(t, rank, pending, incoming[k].0)
  }

  lemma FitsParents<N, E>(t: Table<N, E>, rank: map<NodeId, nat>, pending: set<NodeId>, id: NodeId)
    requires Fits(t, rank, pending, id) && ParentClosed(t) && id in t
    ensures AllFit(t, rank, pending + {id}, t[id].incoming)
  {
  }

  lemma Taken<N, E>(t: Table<N, E>, rest: Table<N, E>, nodes: map<NodeId, nat>, id: NodeId)
    requires Remaining(t, rest, nodes) && id in rest
    ensures id in t && t[id] == rest[id] && id !in nodes
    ensures Remaining(t, rest - {id}, nodes) && |rest - {id}| < |rest|
    ensures Pending(t, rest - {id}, nodes) == Pending(t, rest, nodes) + {id}
  {
    assert (rest - {id}).Keys == rest.Keys - {id};
    LessTable(rest - {id}, rest, id);
  }

  lemma Finished<N, E>(t: Table<N, E>, pending: set<NodeId>, rest: Table<N, E>, nodes: map<NodeId, nat>, id: NodeId,
                       at: nat)
    requires Remaining(t, rest, nodes) && id in t && id !in rest && id !in nodes && id !in pending
    requires Pending(t, rest, nodes) == pending + {id}
    ensures Remaining(t, rest, nodes[id := at]) && Extends(nodes, nodes[id := at])
    ensures Pending(t, rest, nodes[id := at]) == pending
  {
    assert nodes[id := at].Keys == nodes.Keys + {id};
  }

  /** `deserialize_node`. A failure stands for one of its panics: the id is not in the
      table any more, so it is unknown or an ancestor of itself. */
  method DeserializeNode<N, E>(id: NodeId, rest: Table<N, E>, nodes: map<NodeId, nat>, d: Arena<N, E>,
                               ghost t: Table<N, E>, ghost base: Arena<N, E>)
    returns (ok: bool, rest': Table<N, E>, nodes': map<NodeId, nat>, d': Arena<N, E>)
    requires Built(t, base, nodes, d) && Remaining(t, rest, nodes)
    ensures ok ==> Built(t, base, nodes', d') && Remaining(t, rest', nodes')
    ensures ok ==> id in nodes' && Extends(nodes, nodes') && d <= d'
    ensures ok ==> rest'.Keys <= rest.Keys && id in rest && id !in rest'
    ensures ok ==> Pending(t, rest', nodes') == Pending(t, rest, nodes)
    ensures forall rank {:trigger Fits(t, rank, Pending(t, rest, nodes), id)} ::
      Fits(t, rank, Pending(t, rest, nodes), id) && ParentClosed(t) && id in t && id !in nodes ==> ok
    decreases |rest|, 0
  {
    hide Built, Extends, Fits, AllFit, ParentClosed;
    rest', nodes', d' := rest, nodes, d;
    if id !in rest {
      NotAvailable(t, rest, nodes, id);
      return false, rest', nodes', d';
    }
    var data := rest[id];
    Taken(t, rest, nodes, id);
    ghost var pending := Pending(t, rest, nodes);
    forall rank | Fits(t, rank, pending, id) && ParentClosed(t) ensures AllFit(t, rank, pending + {id}, data.incoming) {
      FitsParents(t, rank, pending, id);
    }
    ok, rest', nodes', d' := DeserializeParents(data.incoming, rest - {id}, nodes, d, t, base);
    if ok {
      assert id in Pending(t, rest', nodes');
      ghost var before := nodes';
      Finished(t, pending, rest', nodes', id, |d'|);
      BuiltOne(t, base, nodes', d', id);
      d', nodes' := d' + [Create(data.value, data.incoming, nodes')], nodes'[id := |d'|];
      ExtendsTrans(nodes, before, nodes');
    }
  }

  lemma NotAvailable<N, E>(t: Table<N, E>, rest: Table<N, E>, nodes: map<NodeId, nat>, id: NodeId)
    requires id !in rest
    ensures forall rank {:trigger Fits(t, rank, Pending(t, rest, nodes), id)} ::
      !(Fits(t, rank, Pending(t, rest, nodes), id) && id in t && id !in nodes)
  {
  }

  /** The loop over the parents. */
  method DeserializeParents<N, E>(incoming: seq<(NodeId, E)>, rest: Table<N, E>, nodes: map<NodeId, nat>,
                                  d: Arena<N, E>, ghost t: Table<N, E>, ghost base: Arena<N, E>)
    returns (ok: bool, rest': Table<N, E>, nodes': map<NodeId, nat>, d': Arena<N, E>)
    requires Built(t, base, nodes, d) && Remaining(t, rest, nodes)
    ensures ok ==> Built(t, base, nodes', d') && Remaining(t, rest', nodes')
    ensures ok ==> Extends(nodes, nodes') && d <= d' && rest'.Keys <= rest.Keys
    ensures ok ==> forall k :: 0 <= k < |incoming| ==> incoming[k].0 in nodes'
    ensures ok ==> Pending(t, rest', nodes') == Pending(t, rest, nodes)
    ensures forall rank {:trigger AllFit(t, rank, Pending(t, rest, nodes), incoming)} ::
      AllFit(t, rank, Pending(t, rest, nodes), incoming) && ParentClosed(t) ==> ok
    decreases |rest|, 1
  {
    hide Built, Fits, Remaining, ParentClosed, Pending;
    rest', nodes', d' := rest, nodes, d;
    for k := 0 to |incoming|
      invariant Built(t, base, nodes', d') && Remaining(t, rest', nodes')
      invariant Extends(nodes, nodes') && d <= d' && rest'.Keys <= rest.Keys
      invariant Pending(t, rest', nodes') == Pending(t, rest, nodes)
      invariant forall j :: 0 <= j < k ==> incoming[j].0 in nodes'
    {
      if incoming[k].0 !in nodes' {
        NoMoreKeys(rest', rest);
        ok, rest', nodes', d' := DeserializeNode(incoming[k].0, rest', nodes', d', t, base);
        if !ok { return; }
      }
    }
    ok := true;
  }

  lemma NoMoreKeys<N, E>(small: Table<N, E>, big: Table<N, E>)
    requires small.Keys <= big.Keys
    ensures |small| <= |big|
  {
    assert big.Keys == small.Keys + (big.Keys - small.Keys);
  }

  lemma ExtendsTrans(a: map<NodeId, nat>, b: map<NodeId, nat>, c: map<NodeId, nat>)
    requires Extends(a, b) && Extends(b, c)
    ensures Extends(a, c)
  {
  }

  lemma LessTable<N, E>(small: Table<N, E>, big: Table<N, E>, id: NodeId)
    requires small.Keys <= big.Keys - {id} && id in big
    ensures |small| < |big|
  {
    assert big.Keys == small.Keys + (big.Keys - small.Keys);
    assert id in big.Keys - small.Keys;
  }

  /** What a successful run has produced: each id built exactly once. */
  ghost predicate Deserialized<N, E>(t: Table<N, E>, base: Arena<N, E>, nodes: map<NodeId, nat>, d: Arena<N, E>) {
    Built(t, base, nodes, d) && nodes.Keys == t.Keys
  }

  lemma BuiltAcyclic<N, E>(t: Table<N, E>, base: Arena<N, E>, nodes: map<NodeId, nat>, d: Arena<N, E>)
    requires Deserialized(t, base, nodes, d)
    ensures ParentClosed(t) && Ranked(t, nodes) && Acyclic(t)
  {
    forall id, k | id in t && 0 <= k < |t[id].incoming|
      ensures t[id].incoming[k].0 in t && nodes[t[id].incoming[k].0] < nodes[id]
    {
      assert NodeIs(t, nodes, d, id);
      assert ParentsBefore(d[nodes[id]], nodes[id]);
    }
    assert Ranked(t, nodes);
  }

  /** `deserialize_nodes` succeeds exactly on tables that are closed under parents and
      have no cycles, whatever order the entries are visited in. */
  method DeserializeNodes<N, E>(t: Table<N, E>, base: Arena<N, E>)
    returns (ok: bool, nodes: map<NodeId, nat>, d: Arena<N, E>)
    requires WellFounded(base)
    ensures ok <==> ParentClosed(t) && Acyclic(t)
    ensures ok ==> Deserialized(t, base, nodes, d) && |d| == |base| + |t|
  {
    hide Built, Extends, ParentClosed;
    var rest := t;
    nodes, d := map[], base;
    BuiltNone(t, base);
    while rest != map[]
      invariant Built(t, base, nodes, d) && Remaining(t, rest, nodes)
      invariant Pending(t, rest, nodes) == {}
      decreases |rest|
    {
      var id :| id in rest;
      ghost var before := rest;
      forall rank {:trigger Ranked(t, rank)} | Ranked(t, rank) ensures Fits(t, rank, Pending(t, rest, nodes), id) {
      }
      ok, rest, nodes, d := DeserializeNode(id, rest, nodes, d, t, base);
      if !ok { return; }
      LessTable(rest, before, id);
    }
    NothingLeft(t, base, nodes, d);
    BuiltAcyclic(t, base, nodes, d);
    BuiltCount(t, base, nodes, d);
    ok := true;
  }

  lemma BuiltNone<N, E>(t: Table<N, E>, base: Arena<N, E>)
    requires WellFounded(base)
    ensures Built(t, base, map[], base) && Remaining(t, t, map[]) && Pending(t, t, map[]) == {}
  {
  }

  lemma NothingLeft<N, E>(t: Table<N, E>, base: Arena<N, E>, nodes: map<NodeId, nat>, d: Arena<N, E>)
    requires Built(t, base, nodes, d) && Pending(t, map[], nodes) == {}
    ensures Deserialized(t, base, nodes, d)
  {
    var none: Table<N, E> := map[];
    assert none.Keys == {};
    forall id | id in t ensures id in nodes {
      assert id !in Pending(t, none, nodes);
    }
  }

  lemma BuiltCount<N, E>(t: Table<N, E>, base: Arena<N, E>, nodes: map<NodeId, nat>, d: Arena<N, E>)
    requires Deserialized(t, base, nodes, d)
    ensures |d| == |base| + |t|
  {
    var made := seq(|d| - |base|, i => |base| + i);
    assert forall i :: 0 <= i < |made| ==> made[i] == |base| + i;
    NoDupLength(made);
    assert Elements(made) == nodes.Values by {
      forall x | x in Elements(made) ensures x in nodes.Values {
        var i :| 0 <= i < |made| && made[i] == x;
      }
      forall x | x in nodes.Values ensures x in Elements(made) {
        var id :| id in nodes && nodes[id] == x;
        assert NodeIs(t, nodes, d, id);
        assert made[x - |base|] == x;
      }
    }
    InjectiveCount(nodes);
  }

  lemma {:induction false} InjectiveCount(nodes: map<NodeId, nat>)
    requires forall i, j :: i in nodes && j in nodes && nodes[i] == nodes[j] ==> i == j
    ensures |nodes.Values| == |nodes.Keys|
    decreases |nodes|
  {
    if nodes == map[] {
      assert nodes.Values == {};
    } else {
      var id :| id in nodes;
      var less := nodes - {id};
      assert less.Keys == nodes.Keys - {id};
      assert nodes.Values == less.Values + {nodes[id]} by {
        forall x | x in nodes.Values ensures x in less.Values + {nodes[id]} {
          var j :| j in nodes && nodes[j] == x;
          if j != id { assert j in less && less[j] == x; }
        }
      }
      assert nodes[id] !in less.Values;
      InjectiveCount(less);
    }
  }
}
