/** Writing a registry or a graph as an id-keyed table, reading it back, and the round
    trip (src/serialization.rs:53-190). Nodes are identified by their creation stamps;
    `live` is the set of nodes that are alive. */
module Serialization {
  import opened Prelude
  import opened Dag
  import opened AllAncestors
  import opened Deserialization

  /** The two maps of a `Registry`. */
  datatype Ids = Ids(nodes: map<NodeId, nat>, ptrs: map<nat, NodeId>, nextId: NodeId)

  ghost predicate IdsOk(r: Ids) {
    && (forall id :: id in r.nodes ==> id < r.nextId && r.nodes[id] in r.ptrs && r.ptrs[r.nodes[id]] == id)
    && (forall x :: x in r.ptrs ==> r.ptrs[x] in r.nodes && r.nodes[r.ptrs[x]] == x)
  }

  /** Every ancestor of a live node is alive. */
  ghost predicate LiveClosed<N, E>(d: Arena<N, E>, live: set<nat>) {
    && WellFounded(d)
    && forall x :: x in live ==> x < |d| && forall k :: 0 <= k < |d[x].incoming| ==> d[x].incoming[k].0 in live
  }

  ghost predicate RegistryIn<N, E>(d: Arena<N, E>, r: Ids) {
    IdsOk(r) && forall id :: id in r.nodes ==> r.nodes[id] < |d|
  }

  /** The parents of node `x` all have an id. */
  predicate ParentsNamed<N, E>(d: Arena<N, E>, ptrs: map<nat, NodeId>, x: nat)
    requires x < |d|
  {
    forall k :: 0 <= k < |d[x].incoming| ==> d[x].incoming[k].0 in ptrs
  }

  /** The table entry of node `x`: its value, and its parents by id with the edge values. */
  function SerOf<N, E>(d: Arena<N, E>, ptrs: map<nat, NodeId>, x: nat): (s: SerData<N, E>)
    requires x < |d| && ParentsNamed(d, ptrs, x)
    ensures s.value == d[x].value && |s.incoming| == |d[x].incoming|
    ensures forall k :: 0 <= k < |s.incoming| ==> s.incoming[k] == (ptrs[d[x].incoming[k].0], d[x].incoming[k].1)
  {
    SerData(d[x].value, seq(|d[x].incoming|,
      k requires 0 <= k < |d[x].incoming| => (ptrs[d[x].incoming[k].0], d[x].incoming[k].1)))
  }

  /** `Registry::to_serialized` runs without a failing `expect`: every entry is alive and
      has only registered parents. */
  predicate Writable<N, E>(d: Arena<N, E>, r: Ids, live: set<nat>)
    requires RegistryIn(d, r)
  {
    forall id :: id in r.nodes ==> r.nodes[id] in live && ParentsNamed(d, r.ptrs, r.nodes[id])
  }

  /** `Registry::to_serialized`. */
  function RegistryTable<N, E>(d: Arena<N, E>, r: Ids, live: set<nat>): Option<Table<N, E>>
    requires RegistryIn(d, r)
  {
    if Writable(d, r, live) then Some(map id | id in r.nodes :: SerOf(d, r.ptrs, r.nodes[id])) else None
  }

  // ----- HistoryGraph::to_serialized -----

  /** `SerializedHistoryGraph`; `nextId` is the state of the table's key generator. */
  datatype SerGraph<N, E> = SerGraph(nodes: set<NodeId>, table: Table<N, E>, nextId: NodeId)

  /** `get_id_or_insert`. */
  function GetOrInsert(r: Ids, x: nat): (res: (Ids, NodeId))
    ensures IdsOk(r) ==>
      && IdsOk(res.0) && x in res.0.ptrs && res.0.ptrs[x] == res.1
      && res.0.ptrs.Keys == r.ptrs.Keys + {x}
      && (forall id :: id in r.nodes ==> id in res.0.nodes && res.0.nodes[id] == r.nodes[id])
      && (forall id :: id in res.0.nodes && id < r.nextId ==> id in r.nodes)
      && r.nextId <= res.0.nextId
      && (x in r.ptrs ==> res.0 == r)
      && (x !in r.ptrs ==> res.1 == r.nextId && res.0.nextId == r.nextId + 1)
  {
    if x in r.ptrs then (r, r.ptrs[x])
    else (Ids(r.nodes[r.nextId := x], r.ptrs[x := r.nextId], r.nextId + 1), r.nextId)
  }

  /** How many of `xs` need a new id. */
  ghost function Unnamed(named: set<nat>, xs: set<nat>): nat {
    |xs - named|
  }

  lemma UnnamedTrans(named: set<nat>, xs: set<nat>, ys: set<nat>)
    ensures Unnamed(named, xs) + Unnamed(named + xs, ys) == Unnamed(named, xs + ys)
  {
    assert xs + ys - named == (xs - named) + (ys - (named + xs));
  }

  lemma UnnamedOne(named: set<nat>, x: nat)
    ensures Unnamed(named, {}) == 0 && Unnamed(named, {x}) == if x in named then 0 else 1
  {
    assert {} - named == {} && {x} - named == if x in named then {} else {x};
  }

  /** `r'` is `r` with ids for the nodes in `xs` as well; ids already given are kept. */
  ghost predicate Named(r: Ids, r': Ids, xs: set<nat>) {
    && IdsOk(r') && r'.ptrs.Keys == r.ptrs.Keys + xs && r.nextId <= r'.nextId
    && (forall id :: id in r.nodes ==> id in r'.nodes && r'.nodes[id] == r.nodes[id])
    && (forall id :: id in r'.nodes && id < r.nextId ==> id in r.nodes)
    && (xs <= r.ptrs.Keys ==> r' == r)
    && r'.nextId == r.nextId + Unnamed(r.ptrs.Keys, xs)
  }

  lemma NamedTrans(r: Ids, r1: Ids, r2: Ids, xs: set<nat>, ys: set<nat>)
    requires Named(r, r1, xs) && Named(r1, r2, ys)
    ensures Named(r, r2, xs + ys)
  {
    hide Unnamed;
    UnnamedTrans(r.ptrs.Keys, xs, ys);
  }

  /** What the walks from the graph's nodes report. */
  ghost function Visited<N, E>(d: Arena<N, E>, r: Ids, ids: set<NodeId>): set<nat>
    requires WellFounded(d) && RegistryIn(d, r) && ids <= r.nodes.Keys
  {
    set n, x | n in ids && x in Reported(d, r.nodes[n]) :: x
  }

  /** `g` is what `to_serialized` returns for the graph with node ids `ids`. */
  ghost predicate Written<N, E>(d: Arena<N, E>, r: Ids, live: set<nat>, ids: set<NodeId>, g: SerGraph<N, E>)
    requires WellFounded(d) && RegistryIn(d, r) && ids <= r.nodes.Keys
  {
    g.nodes == ids && exists r' ::
      && Named(r, r', Visited(d, r, ids)) && RegistryIn(d, r') && Writable(d, r', live) && g.nextId == r'.nextId
      && g.table == map id | id in r'.nodes && r'.nodes[id] in Visited(d, r, ids) :: SerOf(d, r'.ptrs, r'.nodes[id])
  }

  /** The ids can be looked up, and the enlarged registry can be written. */
  ghost predicate GraphWritable<N, E>(d: Arena<N, E>, r: Ids, live: set<nat>, ids: set<NodeId>)
    requires WellFounded(d) && RegistryIn(d, r)
  {
    && ids <= r.nodes.Keys && (forall n :: n in ids ==> r.nodes[n] in live)
    && (forall id :: id in r.nodes ==> r.nodes[id] in live)
    && (forall x :: x < |d| && (x in r.ptrs || x in Visited(d, r, ids)) ==>
          forall k :: 0 <= k < |d[x].incoming| ==>
            d[x].incoming[k].0 in r.ptrs || d[x].incoming[k].0 in Visited(d, r, ids))
  }

  lemma NamedAt(r: Ids, r': Ids, xs: set<nat>, n: NodeId)
    requires Named(r, r', xs) && n < r.nextId
    ensures IdsOk(r') && xs <= r'.ptrs.Keys && (n in r'.nodes <==> n in r.nodes)
    ensures n in r.nodes ==> r'.nodes[n] == r.nodes[n]
  {
    hide Unnamed;
  }

  lemma NamedRefl(r: Ids)
    requires IdsOk(r)
    ensures Named(r, r, {})
  {
    UnnamedOne(r.ptrs.Keys, 0);
  }

  lemma NamedStep(r: Ids, r': Ids, xs: set<nat>, x: nat)
    requires Named(r, r', xs)
    ensures Named(r, GetOrInsert(r', x).0, xs + {x})
  {
    hide Unnamed;
    UnnamedTrans(r.ptrs.Keys, xs, {x});
    UnnamedOne(r'.ptrs.Keys, x);
  }

  lemma {:induction false} LiveAncestors<N, E>(d: Arena<N, E>, live: set<nat>, x: nat, i: nat)
    requires LiveClosed(d, live) && i in live && Ancestor(d, x, i)
    ensures x in live
    decreases i
  {
    if x != i {
      var k :| 0 <= k < |d[i].incoming| && Ancestor(d, x, d[i].incoming[k].0);
      LiveAncestors(d, live, x, d[i].incoming[k].0);
    }
  }

  lemma VisitedLive<N, E>(d: Arena<N, E>, r: Ids, live: set<nat>, ids: set<NodeId>)
    requires LiveClosed(d, live) && RegistryIn(d, r) && ids <= r.nodes.Keys
    requires forall n :: n in ids ==> r.nodes[n] in live
    ensures Visited(d, r, ids) <= live
  {
    forall x | x in Visited(d, r, ids) ensures x in live {
      var n :| n in ids && x in Reported(d, r.nodes[n]);
      ReportedAncestors(d, r.nodes[n]);
      LiveAncestors(d, live, x, r.nodes[n]);
    }
  }

  /** The cloned registry after the walks can be written exactly if `GraphWritable`. */
  lemma WritableIff<N, E>(d: Arena<N, E>, r: Ids, r': Ids, live: set<nat>, ids: set<NodeId>)
    requires LiveClosed(d, live) && RegistryIn(d, r) && ids <= r.nodes.Keys
    requires (forall n :: n in ids ==> r.nodes[n] in live)
    requires Named(r, r', Visited(d, r, ids))
    ensures RegistryIn(d, r')
    ensures Writable(d, r', live) <==> GraphWritable(d, r, live, ids)
  {
    hide Visited, Unnamed;
    var xs := Visited(d, r, ids);
    VisitedLive(d, r, live, ids);
    LiveBelow(d, live);
    forall id | id in r'.nodes ensures r'.nodes[id] < |d| {
      assert r'.nodes[id] in r'.ptrs;
    }
    if Writable(d, r', live) {
      forall id | id in r.nodes ensures r.nodes[id] in live { assert id in r'.nodes; }
      forall x, k | 0 <= x < |d| && (x in r.ptrs || x in xs) && 0 <= k < |d[x].incoming|
        ensures d[x].incoming[k].0 in r.ptrs || d[x].incoming[k].0 in xs
      {
        assert x in r'.ptrs && r'.ptrs[x] in r'.nodes && ParentsNamed(d, r'.ptrs, x);
        assert d[x].incoming[k].0 in r'.ptrs.Keys;
      }
    }
    if GraphWritable(d, r, live, ids) {
      forall id | id in r'.nodes ensures r'.nodes[id] in live && ParentsNamed(d, r'.ptrs, r'.nodes[id]) {
        var x := r'.nodes[id];
        assert x in r'.ptrs.Keys;
        if x in r.ptrs { assert r.ptrs[x] in r.nodes && r.nodes[r.ptrs[x]] == x; }
      }
    }
  }

  lemma LiveBelow<N, E>(d: Arena<N, E>, live: set<nat>)
    requires LiveClosed(d, live)
    ensures forall x :: x in live ==> x < |d|
  {
  }


  ghost predicate KeepIs(r: Ids, keep: set<NodeId>, xs: set<nat>) {
    forall id :: id in keep <==> id in r.nodes && r.nodes[id] in xs
  }

  /** The ids of the reported ancestors, new ones given where needed. */
  method NameAll(r: Ids, keep: set<NodeId>, ghost xs: set<nat>, anc: seq<nat>) returns (r': Ids, keep': set<NodeId>)
    requires IdsOk(r) && xs <= r.ptrs.Keys && KeepIs(r, keep, xs)
    ensures Named(r, r', Elements(anc)) && KeepIs(r', keep', xs + Elements(anc))
  {
    hide Elements;
    r', keep' := r, keep;
    NamedRefl(r);
    FirstElements(anc, 0);
    for i := 0 to |anc|
      invariant Named(r, r', Elements(anc[..i])) && KeepIs(r', keep', xs + Elements(anc[..i]))
    {
      NamedStep(r, r', Elements(anc[..i]), anc[i]);
      KeepStep(r', keep', xs + Elements(anc[..i]), anc[i]);
      FirstElements(anc, i);
      var (next, id) := GetOrInsert(r', anc[i]);
      r', keep' := next, keep' + {id};
    }
    assert anc[..|anc|] == anc;
  }

  lemma FirstElements(anc: seq<nat>, i: nat)
    requires i <= |anc|
    ensures Elements(anc[..0]) == {}
    ensures forall xs: set<nat> :: xs + Elements(anc[..0]) == xs
    ensures i < |anc| ==> Elements(anc[..i + 1]) == Elements(anc[..i]) + {anc[i]}
    ensures i < |anc| ==> forall xs: set<nat> :: xs + Elements(anc[..i]) + {anc[i]} == xs + Elements(anc[..i + 1])
  {
  }

  lemma KeepStep(r: Ids, keep: set<NodeId>, xs: set<nat>, x: nat)
    requires IdsOk(r) && KeepIs(r, keep, xs) && xs <= r.ptrs.Keys
    ensures KeepIs(GetOrInsert(r, x).0, keep + {GetOrInsert(r, x).1}, xs + {x})
  {
    var (r', given) := GetOrInsert(r, x);
    forall id | id in r'.nodes && id != given ensures id in r.nodes && r'.nodes[id] == r.nodes[id] {
    }
  }

  lemma VisitedOne<N, E>(d: Arena<N, E>, r: Ids, done: set<NodeId>, n: NodeId)
    requires WellFounded(d) && RegistryIn(d, r) && done <= r.nodes.Keys && n in r.nodes
    ensures Visited(d, r, done + {n}) == Visited(d, r, done) + Elements(Reported(d, r.nodes[n]))
  {
    hide Reported;
  }

  /** `HistoryGraph::to_serialized`; `None` stands for a failing `expect`. The graph's ids
      have all been issued by its registry. */
  method WriteGraph<N, E>(d: Arena<N, E>, r: Ids, live: set<nat>, ids: set<NodeId>) returns (g: Option<SerGraph<N, E>>)
    requires LiveClosed(d, live) && RegistryIn(d, r) && forall n :: n in ids ==> n < r.nextId
    ensures g.Some? <==> GraphWritable(d, r, live, ids)
    ensures g.Some? ==> Written(d, r, live, ids, g.value)
  {
    hide Visited, Named, Written, Writable, KeepIs, Elements, Reported, RegistryTable;
    var ok, reg, keep := VisitGraph(d, r, live, ids);
    if !ok { return None; }
    WritableIff(d, r, reg, live, ids);
    var table := RegistryTable(d, reg, live);
    WritableTable(d, reg, live);
    if table.None? { return None; }
    g := Some(SerGraph(ids, map id | id in table.value && id in keep :: table.value[id], reg.nextId));
    GraphIsWritten(d, r, reg, live, ids, keep, g.value);
  }

  lemma WritableTable<N, E>(d: Arena<N, E>, r: Ids, live: set<nat>)
    requires RegistryIn(d, r)
    ensures RegistryTable(d, r, live).Some? <==> Writable(d, r, live)
    ensures RegistryTable(d, r, live).Some? ==> RegistryTable(d, r, live).value.Keys == r.nodes.Keys
  {
  }

  lemma GraphIsWritten<N, E>(d: Arena<N, E>, r: Ids, r': Ids, live: set<nat>, ids: set<NodeId>, keep: set<NodeId>,
                             g: SerGraph<N, E>)
    requires WellFounded(d) && RegistryIn(d, r) && ids <= r.nodes.Keys
    requires Named(r, r', Visited(d, r, ids)) && RegistryIn(d, r') && Writable(d, r', live)
    requires KeepIs(r', keep, Visited(d, r, ids))
    requires RegistryTable(d, r', live).Some?
    requires g == SerGraph(ids, map id | id in RegistryTable(d, r', live).value
      && id in keep :: RegistryTable(d, r', live).value[id], r'.nextId)
    ensures Written(d, r, live, ids, g)
  {
    hide Visited, Named;
    assert g.table == map id | id in r'.nodes && r'.nodes[id] in Visited(d, r, ids) :: SerOf(d, r'.ptrs, r'.nodes[id]);
  }

  /** The loop over the graph's nodes. */
  method VisitGraph<N, E>(d: Arena<N, E>, r: Ids, live: set<nat>, ids: set<NodeId>)
    returns (ok: bool, reg: Ids, keep: set<NodeId>)
    requires LiveClosed(d, live) && RegistryIn(d, r) && forall n :: n in ids ==> n < r.nextId
    ensures ok <==> ids <= r.nodes.Keys && forall n :: n in ids ==> r.nodes[n] in live
    ensures ok ==> Named(r, reg, Visited(d, r, ids)) && KeepIs(reg, keep, Visited(d, r, ids))
  {
    hide Visited, KeepIs, Elements, Reported, RepeatFreePrefix, Expansion, Named;
    reg, keep := r, {};
    NamedRefl(r);
    VisitedNone(d, r);
    var todo := ids;
    ghost var done: set<NodeId> := {};
    while todo != {}
      invariant done + todo == ids && done !! todo && done <= r.nodes.Keys
      invariant forall n :: n in done ==> r.nodes[n] in live
      invariant Named(r, reg, Visited(d, r, done)) && KeepIs(reg, keep, Visited(d, r, done))
      decreases todo
    {
      var n :| n in todo;
      NamedAt(r, reg, Visited(d, r, done), n);
      if n !in reg.nodes || reg.nodes[n] !in live {
        return false, reg, keep;
      }
      var anc := Walk(d, reg.nodes[n]);
      ghost var before := reg;
      VisitedOne(d, r, done, n);
      reg, keep := NameAll(reg, keep, Visited(d, r, done), anc);
      NamedTrans(r, before, reg, Visited(d, r, done), Elements(anc));
      done, todo := done + {n}, todo - {n};
    }
    assert done == ids;
    ok := true;
  }

  lemma VisitedNone<N, E>(d: Arena<N, E>, r: Ids)
    requires WellFounded(d) && RegistryIn(d, r)
    ensures Visited(d, r, {}) == {} && KeepIs(r, {}, {})
  {
  }

  // ----- HistoryGraph::from_serialized -----

  /** `g` read back on top of the nodes in `base`: the new nodes, the registry naming all
      of them, and the graph holding those asked for. */
  ghost predicate ReadAs<N, E>(g: SerGraph<N, E>, base: Arena<N, E>, d: Arena<N, E>, reg: Ids,
                               nodes: map<NodeId, nat>) {
    && Deserialized(g.table, base, reg.nodes, d) && IdsOk(reg)
    && g.nodes <= g.table.Keys && reg.nextId == g.nextId
    && nodes == map id | id in g.nodes && id in reg.nodes :: reg.nodes[id]
  }

  /** `Registry::contains_id`: the entry exists and its weak reference can be upgraded
      while there are handles to the nodes in `held`. */
  predicate ContainsId<N, E>(d: Arena<N, E>, reg: Ids, held: set<nat>, id: NodeId)
    requires WellFounded(d) && forall h :: h in held ==> h < |d|
  {
    id in reg.nodes && HeldBy(d, held, reg.nodes[id])
  }

  /** Every entry of the registry is alive. */
  ghost predicate AllAlive<N, E>(d: Arena<N, E>, reg: Ids, held: set<nat>)
    requires WellFounded(d) && forall h :: h in held ==> h < |d|
  {
    forall id :: id in reg.nodes ==> ContainsId(d, reg, held, id)
  }

  /** `m` is reached from `n` in `steps` steps to parents. */
  ghost predicate Above<N, E>(t: Table<N, E>, m: NodeId, n: NodeId, steps: nat)
    decreases steps
  {
    if steps == 0 then m == n
    else n in t && exists k :: 0 <= k < |t[n].incoming| && Above(t, m, t[n].incoming[k].0, steps - 1)
  }

  /** Some node of the graph has `m` among its ancestors. */
  ghost predicate Needed<N, E>(g: SerGraph<N, E>, m: NodeId) {
    exists n, steps: nat :: n in g.nodes && Above(g.table, m, n, steps)
  }

  lemma {:induction false} AboveIsAncestor<N, E>(t: Table<N, E>, base: Arena<N, E>, all: map<NodeId, nat>,
                                                 d: Arena<N, E>, m: NodeId, n: NodeId, steps: nat)
    requires Deserialized(t, base, all, d) && m in t && n in t && Above(t, m, n, steps)
    ensures all[n] < |d| && Ancestor(d, all[m], all[n])
    decreases steps
  {
    assert NodeIs(t, all, d, n);
    if steps > 0 {
      var k :| 0 <= k < |t[n].incoming| && Above(t, m, t[n].incoming[k].0, steps - 1);
      AboveIsAncestor(t, base, all, d, m, t[n].incoming[k].0, steps - 1);
      assert d[all[n]].incoming[k].0 == all[t[n].incoming[k].0];
    }
  }

  lemma {:induction false} AncestorIsAbove<N, E>(t: Table<N, E>, base: Arena<N, E>, all: map<NodeId, nat>,
                                                 d: Arena<N, E>, m: NodeId, n: NodeId)
    returns (steps: nat)
    requires Deserialized(t, base, all, d) && m in t && n in t && all[n] < |d| && Ancestor(d, all[m], all[n])
    ensures Above(t, m, n, steps)
    decreases all[n]
  {
    hide Deserialized;
    if m == n {
      steps := 0;
    } else {
      BuiltParents(t, base, all, d, n);
      BuiltApart(t, base, all, d, m, n);
      var k :| 0 <= k < |d[all[n]].incoming| && Ancestor(d, all[m], d[all[n]].incoming[k].0);
      var before := AncestorIsAbove(t, base, all, d, m, t[n].incoming[k].0);
      steps := before + 1;
    }
  }

  /** The parents of a rebuilt node are the nodes rebuilt for its parents. */
  lemma BuiltParents<N, E>(t: Table<N, E>, base: Arena<N, E>, all: map<NodeId, nat>, d: Arena<N, E>, n: NodeId)
    requires Deserialized(t, base, all, d) && n in t
    ensures all[n] < |d| && |d[all[n]].incoming| == |t[n].incoming|
    ensures forall k :: 0 <= k < |t[n].incoming| ==>
      var p := t[n].incoming[k].0; p in t && p in all && d[all[n]].incoming[k].0 == all[p] && all[p] < all[n]
  {
    assert NodeIs(t, all, d, n);
    assert ParentsBefore(d[all[n]], all[n]);
  }

  lemma BuiltApart<N, E>(t: Table<N, E>, base: Arena<N, E>, all: map<NodeId, nat>, d: Arena<N, E>, m: NodeId, n: NodeId)
    requires Deserialized(t, base, all, d) && m in t && n in t && m != n
    ensures WellFounded(d) && all.Keys == t.Keys && all[m] != all[n]
  {
    hide NodeIs;
  }

  /** An entry of the rebuilt registry is alive exactly if some node of the graph needs it. */
  lemma AliveIffNeeded<N, E>(g: SerGraph<N, E>, base: Arena<N, E>, d: Arena<N, E>, reg: Ids, nodes: map<NodeId, nat>,
                             m: NodeId)
    requires ReadAs(g, base, d, reg, nodes) && m in g.table
    ensures HandlesIn(d, nodes) && (ContainsId(d, reg, nodes.Values, m) <==> Needed(g, m))
  {
    HandlesAre(g, base, d, reg, nodes);
    assert NodeIs(g.table, reg.nodes, d, m);
    if Needed(g, m) {
      var n, steps: nat :| n in g.nodes && Above(g.table, m, n, steps);
      AboveIsAncestor(g.table, base, reg.nodes, d, m, n, steps);
      assert nodes[n] in nodes.Values;
    }
    if ContainsId(d, reg, nodes.Values, m) {
      var h :| h in nodes.Values && Ancestor(d, reg.nodes[m], h);
      var n :| n in nodes && nodes[n] == h;
      var steps := AncestorIsAbove(g.table, base, reg.nodes, d, m, n);
    }
  }

  ghost predicate HandlesIn<N, E>(d: Arena<N, E>, nodes: map<NodeId, nat>) {
    WellFounded(d) && forall h :: h in nodes.Values ==> h < |d|
  }

  lemma HandlesAre<N, E>(g: SerGraph<N, E>, base: Arena<N, E>, d: Arena<N, E>, reg: Ids, nodes: map<NodeId, nat>)
    requires ReadAs(g, base, d, reg, nodes)
    ensures HandlesIn(d, nodes)
  {
    forall h | h in nodes.Values ensures h < |d| {
      var n :| n in nodes && nodes[n] == h;
      assert NodeIs(g.table, reg.nodes, d, n);
    }
  }

  lemma AllHeld<N, E>(t: Table<N, E>, base: Arena<N, E>, all: map<NodeId, nat>, d: Arena<N, E>, reg: Ids)
    requires Deserialized(t, base, all, d) && reg.nodes == all
    ensures HandlesIn(d, all) && AllAlive(d, reg, all.Values)
  {
    forall h | h in all.Values ensures h < |d| {
      var n :| n in all && all[n] == h;
      assert NodeIs(t, all, d, n);
    }
    forall id | id in all ensures ContainsId(d, reg, all.Values, id) {
      assert all[id] in all.Values && Ancestor(d, all[id], all[id]);
    }
  }

  /** `HistoryGraph::from_serialized`; failure stands for a panic in `deserialize_nodes`
      or a failing assertion. It happens exactly if the table is not closed under parents,
      has a cycle, or lacks a node of the graph: the second and the third assertion never
      fail. Afterwards a registry entry is alive exactly if the graph needs it. */
  method ReadGraph<N, E>(g: SerGraph<N, E>, base: Arena<N, E>)
    returns (ok: bool, d: Arena<N, E>, reg: Ids, nodes: map<NodeId, nat>)
    requires WellFounded(base) && forall id :: id in g.table ==> id < g.nextId
    ensures ok <==> ParentClosed(g.table) && Acyclic(g.table) && g.nodes <= g.table.Keys
    ensures ok ==> ReadAs(g, base, d, reg, nodes) && HandlesIn(d, nodes)
    ensures ok ==> forall m :: m in g.table ==> (ContainsId(d, reg, nodes.Values, m) <==> Needed(g, m))
  {
    hide ParentClosed, Acyclic, Needed, ContainsId;
    nodes, reg := map[], Ids(map[], map[], 0);
    var all;
    ok, all, d := DeserializeNodes(g.table, base);
    if !ok { return; }
    reg := FromNodes(g.table, base, all, d, g.nextId);
    if !(forall id :: id in g.nodes ==> id in all) {
      return false, d, reg, nodes;
    }
    AllHeld(g.table, base, all, d, reg);
    if !(forall id :: id in g.nodes ==> ContainsId(d, reg, all.Values, id)) {
      return false, d, reg, nodes;
    }
    var kept := map id | id in all && id in g.nodes :: all[id];
    if !(forall id :: id in kept ==> kept[id] in reg.ptrs) {
      return false, d, reg, nodes;
    }
    nodes := InsertKept(reg, all, g.nodes);
    forall m | m in g.table ensures HandlesIn(d, nodes) && (ContainsId(d, reg, nodes.Values, m) <==> Needed(g, m)) {
      AliveIffNeeded(g, base, d, reg, nodes, m);
    }
    HandlesAre(g, base, d, reg, nodes);
    ok := true;
  }

  /** `Registry::from_slotmap` for the rebuilt nodes. */
  method FromNodes<N, E>(ghost t: Table<N, E>, ghost base: Arena<N, E>, all: map<NodeId, nat>, ghost d: Arena<N, E>,
                         nextId: NodeId)
    returns (reg: Ids)
    requires Deserialized(t, base, all, d) && forall id :: id in t ==> id < nextId
    ensures IdsOk(reg) && reg.nodes == all && reg.nextId == nextId
  {
    var ptrs: map<nat, NodeId> := map[];
    var todo := all.Keys;
    while todo != {}
      invariant todo <= all.Keys
      invariant forall id :: id in all && id !in todo ==> all[id] in ptrs && ptrs[all[id]] == id
      invariant forall x :: x in ptrs ==> ptrs[x] in all && ptrs[x] !in todo && all[ptrs[x]] == x
    {
      var id :| id in todo;
      ptrs, todo := ptrs[all[id] := id], todo - {id};
    }
    reg := Ids(all, ptrs, nextId);
  }

  /** `HistoryGraph::new` on the kept nodes: none of them is linked yet and all are in the
      registry, so each is inserted under the id it already has. */
  method InsertKept(reg: Ids, all: map<NodeId, nat>, keep: set<NodeId>) returns (nodes: map<NodeId, nat>)
    requires IdsOk(reg) && reg.nodes == all && keep <= all.Keys
    ensures nodes == map id | id in keep && id in all :: all[id]
  {
    nodes := map[];
    var todo := keep;
    while todo != {}
      invariant todo <= keep
      invariant nodes.Keys == keep - todo && forall id :: id in nodes ==> nodes[id] == all[id]
    {
      var n :| n in todo;
      var (_, id) := GetOrInsert(reg, all[n]);
      assert id == n;
      nodes, todo := nodes[id := all[n]], todo - {n};
    }
  }

  // ----- the round trip of a graph -----

  /** Every parent of a node of the graph is in the graph. */
  ghost predicate GraphClosed<N, E>(d: Arena<N, E>, r: Ids, ids: set<NodeId>)
    requires RegistryIn(d, r)
  {
    && ids <= r.nodes.Keys
    && forall n, k :: n in ids && 0 <= k < |d[r.nodes[n]].incoming| ==>
         d[r.nodes[n]].incoming[k].0 in r.ptrs && r.ptrs[d[r.nodes[n]].incoming[k].0] in ids
  }

  lemma {:induction false} ClosedAncestor<N, E>(d: Arena<N, E>, r: Ids, ids: set<NodeId>, x: nat, n: NodeId)
    requires WellFounded(d) && RegistryIn(d, r) && GraphClosed(d, r, ids) && n in ids && Ancestor(d, x, r.nodes[n])
    ensures x in r.ptrs && r.ptrs[x] in ids
    decreases r.nodes[n]
  {
    var i := r.nodes[n];
    if x != i {
      var k :| 0 <= k < |d[i].incoming| && Ancestor(d, x, d[i].incoming[k].0);
      assert ParentsBefore(d[i], i);
      ClosedAncestor(d, r, ids, x, r.ptrs[d[i].incoming[k].0]);
    }
  }

  /** For a graph closed under ancestors the walks report exactly its own nodes, even
      though a single walk may stop early. */
  lemma VisitedClosed<N, E>(d: Arena<N, E>, r: Ids, ids: set<NodeId>)
    requires WellFounded(d) && RegistryIn(d, r) && GraphClosed(d, r, ids)
    ensures forall x :: x in Visited(d, r, ids) <==> x in r.ptrs && r.ptrs[x] in ids
  {
    hide Reported;
    forall x | x in Visited(d, r, ids) ensures x in r.ptrs && r.ptrs[x] in ids {
      var n :| n in ids && x in Reported(d, r.nodes[n]);
      ReportedAncestors(d, r.nodes[n]);
      ClosedAncestor(d, r, ids, x, n);
    }
    forall x | x in r.ptrs && r.ptrs[x] in ids ensures x in Visited(d, r, ids) {
      ReportedAncestors(d, x);
    }
  }

  /** A closed graph over a live, parent-closed registry can be written. */
  lemma ClosedWritable<N, E>(d: Arena<N, E>, r: Ids, live: set<nat>, ids: set<NodeId>)
    requires LiveClosed(d, live) && RegistryIn(d, r) && Writable(d, r, live) && GraphClosed(d, r, ids)
    ensures GraphWritable(d, r, live, ids)
  {
    hide Visited;
    VisitedClosed(d, r, ids);
    forall x, k | 0 <= x < |d| && (x in r.ptrs || x in Visited(d, r, ids)) && 0 <= k < |d[x].incoming|
      ensures d[x].incoming[k].0 in r.ptrs
    {
      assert r.ptrs[x] in r.nodes && ParentsNamed(d, r.ptrs, x);
    }
  }

  /** What is written for a closed graph: one entry for each of its ids, no more. */
  lemma WrittenClosed<N, E>(d: Arena<N, E>, r: Ids, live: set<nat>, ids: set<NodeId>, g: SerGraph<N, E>)
    requires WellFounded(d) && RegistryIn(d, r) && GraphClosed(d, r, ids) && Written(d, r, live, ids, g)
    ensures g.nodes == ids && g.table.Keys == ids && g.nextId == r.nextId
    ensures forall n :: n in ids ==> ParentsNamed(d, r.ptrs, r.nodes[n]) && g.table[n] == SerOf(d, r.ptrs, r.nodes[n])
  {
    hide Visited, SerOf;
    VisitedClosed(d, r, ids);
    var xs := Visited(d, r, ids);
    var r' :| Named(r, r', xs) && RegistryIn(d, r') && Writable(d, r', live) && g.nextId == r'.nextId
      && g.table == map id | id in r'.nodes && r'.nodes[id] in xs :: SerOf(d, r'.ptrs, r'.nodes[id]);
    assert r' == r;
    forall id ensures id in g.table <==> id in ids {
      if id in ids { assert r.nodes[id] in r.ptrs && r.ptrs[r.nodes[id]] == id; }
    }
  }

  /** ... and it can be read back. */
  lemma ClosedReadable<N, E>(d: Arena<N, E>, r: Ids, live: set<nat>, ids: set<NodeId>, g: SerGraph<N, E>)
    requires WellFounded(d) && RegistryIn(d, r) && GraphClosed(d, r, ids) && Written(d, r, live, ids, g)
    ensures ParentClosed(g.table) && Acyclic(g.table) && g.nodes <= g.table.Keys
    ensures forall id :: id in g.table ==> id < g.nextId
  {
    hide Written;
    WrittenClosed(d, r, live, ids, g);
    assert Ranked(g.table, r.nodes) by {
      forall id, k | id in g.table && 0 <= k < |g.table[id].incoming|
        ensures g.table[id].incoming[k].0 in g.table && r.nodes[g.table[id].incoming[k].0] < r.nodes[id]
      {
        assert g.table[id] == SerOf(d, r.ptrs, r.nodes[id]);
        assert ParentsBefore(d[r.nodes[id]], r.nodes[id]);
      }
    }
  }

  /** The node read back for `n` has the value of the one written, the same number of
      parents, and for each parent the same id and the same edge value. */
  ghost predicate SameNode<N, E>(d: Arena<N, E>, r: Ids, d': Arena<N, E>, nodes: map<NodeId, nat>, n: NodeId)
    requires n in r.nodes && r.nodes[n] < |d|
  {
    && n in nodes && nodes[n] < |d'|
    && d'[nodes[n]].value == d[r.nodes[n]].value
    && |d'[nodes[n]].incoming| == |d[r.nodes[n]].incoming|
    && forall k :: 0 <= k < |d[r.nodes[n]].incoming| ==>
         var p := d[r.nodes[n]].incoming[k].0;
         && p in r.ptrs && r.ptrs[p] in nodes
         && d'[nodes[n]].incoming[k] == (nodes[r.ptrs[p]], d[r.nodes[n]].incoming[k].1)
  }

  /** Every node of the graph has been rebuilt, apart from those in `base`. */
  ghost predicate Copies<N, E>(d: Arena<N, E>, r: Ids, ids: set<NodeId>, base: Arena<N, E>, d': Arena<N, E>,
                               nodes: map<NodeId, nat>) {
    forall n :: n in ids ==>
      n in r.nodes && r.nodes[n] < |d| && n in nodes && |base| <= nodes[n] && SameNode(d, r, d', nodes, n)
  }

  /** Writing a closed graph and reading it back keeps its node ids, the values, and all
      edges with their ids and values; the nodes are new and not shared with each other;
      the registry names exactly the graph's nodes, so all its entries are alive. */
  lemma GraphRoundTrip<N, E>(d: Arena<N, E>, r: Ids, live: set<nat>, ids: set<NodeId>, g: SerGraph<N, E>,
                             base: Arena<N, E>, d': Arena<N, E>, reg: Ids, nodes: map<NodeId, nat>)
    requires WellFounded(d) && RegistryIn(d, r) && GraphClosed(d, r, ids)
    requires Written(d, r, live, ids, g) && ReadAs(g, base, d', reg, nodes)
    ensures WellFounded(d') && nodes.Keys == ids && reg.nodes == nodes
    ensures Copies(d, r, ids, base, d', nodes)
    ensures forall i, j :: i in nodes && j in nodes && nodes[i] == nodes[j] ==> i == j
    ensures HandlesIn(d', nodes) && AllAlive(d', reg, nodes.Values)
  {
    hide Written, HandlesIn, AllAlive, ReadAs, SameNode;
    WrittenClosed(d, r, live, ids, g);
    ClosedAlive(g, base, d', reg, nodes);
    ReadIds(g, base, d', reg, nodes);
    assert nodes == reg.nodes;
    forall n | n in ids ensures |base| <= nodes[n] && SameNode(d, r, d', nodes, n) {
      ReadNode(d, r, g, base, d', reg, nodes, n);
    }
  }

  lemma ReadIds<N, E>(g: SerGraph<N, E>, base: Arena<N, E>, d: Arena<N, E>, reg: Ids, nodes: map<NodeId, nat>)
    requires ReadAs(g, base, d, reg, nodes)
    ensures WellFounded(d) && reg.nodes.Keys == g.table.Keys && nodes.Keys == g.nodes && g.nodes <= g.table.Keys
    ensures forall n :: n in nodes ==> nodes[n] == reg.nodes[n]
    ensures forall i, j :: i in reg.nodes && j in reg.nodes && reg.nodes[i] == reg.nodes[j] ==> i == j
  {
    hide NodeIs;
  }

  lemma ReadNode<N, E>(d: Arena<N, E>, r: Ids, g: SerGraph<N, E>, base: Arena<N, E>, d': Arena<N, E>, reg: Ids,
                       nodes: map<NodeId, nat>, n: NodeId)
    requires ReadAs(g, base, d', reg, nodes) && n in g.table
    requires n in r.nodes && r.nodes[n] < |d| && ParentsNamed(d, r.ptrs, r.nodes[n])
    requires g.table[n] == SerOf(d, r.ptrs, r.nodes[n])
    ensures n in reg.nodes && |base| <= reg.nodes[n] && SameNode(d, r, d', reg.nodes, n)
  {
    assert NodeIs(g.table, reg.nodes, d', n);
  }

  lemma ClosedAlive<N, E>(g: SerGraph<N, E>, base: Arena<N, E>, d: Arena<N, E>, reg: Ids, nodes: map<NodeId, nat>)
    requires ReadAs(g, base, d, reg, nodes) && g.nodes == g.table.Keys
    ensures HandlesIn(d, nodes) && AllAlive(d, reg, nodes.Values)
  {
    hide HandlesIn, AllAlive;
    assert nodes == reg.nodes;
    AllHeld(g.table, base, reg.nodes, d, reg);
  }

  // ----- graphs that are not closed -----

  /** The walks together report every ancestor of the graph's nodes. */
  ghost predicate AllReported<N, E>(d: Arena<N, E>, r: Ids, ids: set<NodeId>)
    requires WellFounded(d) && RegistryIn(d, r) && ids <= r.nodes.Keys
  {
    forall n, x :: n in ids && Ancestor(d, x, r.nodes[n]) ==> x in Visited(d, r, ids)
  }

  ghost predicate UpClosed<N, E>(d: Arena<N, E>, xs: set<nat>) {
    forall x, k :: x in xs && x < |d| && 0 <= k < |d[x].incoming| ==> d[x].incoming[k].0 in xs
  }

  lemma {:induction false} UpClosedAncestor<N, E>(d: Arena<N, E>, xs: set<nat>, x: nat, i: nat)
    requires WellFounded(d) && UpClosed(d, xs) && i in xs && i < |d| && Ancestor(d, x, i)
    ensures x in xs
    decreases i
  {
    if x != i {
      var k :| 0 <= k < |d[i].incoming| && Ancestor(d, x, d[i].incoming[k].0);
      assert ParentsBefore(d[i], i);
      UpClosedAncestor(d, xs, x, d[i].incoming[k].0);
    }
  }

  lemma AllReportedIff<N, E>(d: Arena<N, E>, r: Ids, ids: set<NodeId>)
    requires WellFounded(d) && RegistryIn(d, r) && ids <= r.nodes.Keys
    ensures AllReported(d, r, ids) <==> UpClosed(d, Visited(d, r, ids))
  {
    hide Reported;
    var xs := Visited(d, r, ids);
    if UpClosed(d, xs) {
      forall n, x: nat | n in ids && Ancestor(d, x, r.nodes[n]) ensures x in xs {
        ReportedAncestors(d, r.nodes[n]);
        assert r.nodes[n] in xs;
        UpClosedAncestor(d, xs, x, r.nodes[n]);
      }
    }
    if AllReported(d, r, ids) {
      forall x, k | x in xs && x < |d| && 0 <= k < |d[x].incoming| ensures d[x].incoming[k].0 in xs {
        var n :| n in ids && x in Reported(d, r.nodes[n]);
        ReportedAncestors(d, r.nodes[n]);
        ParentIsAncestor(d, x, k);
        AncestorTrans(d, d[x].incoming[k].0, x, r.nodes[n]);
      }
    }
  }

  /** A written graph can be read back exactly if the walks reported every ancestor. */
  lemma ReadableIff<N, E>(d: Arena<N, E>, r: Ids, live: set<nat>, ids: set<NodeId>, g: SerGraph<N, E>)
    requires WellFounded(d) && RegistryIn(d, r) && ids <= r.nodes.Keys && Written(d, r, live, ids, g)
    ensures ParentClosed(g.table) && Acyclic(g.table) && g.nodes <= g.table.Keys <==> AllReported(d, r, ids)
  {
    hide Visited, AllReported, UpClosed, ParentClosed, Acyclic;
    AllReportedIff(d, r, ids);
    var xs := Visited(d, r, ids);
    var r' :| Named(r, r', xs) && RegistryIn(d, r') && Writable(d, r', live) && g.nextId == r'.nextId
      && g.table == map id | id in r'.nodes && r'.nodes[id] in xs :: SerOf(d, r'.ptrs, r'.nodes[id]);
    TableRanked(d, r', xs, live, g);
    forall n | n in ids ensures n in g.table {
      SelfVisited(d, r, ids, n);
      assert r'.nodes[n] == r.nodes[n];
    }
    TableClosedIff(d, r', xs, live, g);
  }

  lemma TableClosedIff<N, E>(d: Arena<N, E>, r: Ids, xs: set<nat>, live: set<nat>, g: SerGraph<N, E>)
    requires WellFounded(d) && RegistryIn(d, r) && Writable(d, r, live) && xs <= r.ptrs.Keys
    requires g.table == map id | id in r.nodes && r.nodes[id] in xs :: SerOf(d, r.ptrs, r.nodes[id])
    ensures ParentClosed(g.table) <==> UpClosed(d, xs)
  {
    if ParentClosed(g.table) {
      forall x, k | x in xs && x < |d| && 0 <= k < |d[x].incoming| ensures d[x].incoming[k].0 in xs {
        var id := r.ptrs[x];
        assert id in g.table && g.table[id].incoming[k].0 in g.table;
        assert g.table[id] == SerOf(d, r.ptrs, x);
      }
    }
    if UpClosed(d, xs) {
      forall id, k | id in g.table && 0 <= k < |g.table[id].incoming| ensures g.table[id].incoming[k].0 in g.table {
        assert g.table[id] == SerOf(d, r.ptrs, r.nodes[id]);
      }
    }
  }

  lemma SelfVisited<N, E>(d: Arena<N, E>, r: Ids, ids: set<NodeId>, n: NodeId)
    requires WellFounded(d) && RegistryIn(d, r) && ids <= r.nodes.Keys && n in ids
    ensures r.nodes[n] in Visited(d, r, ids)
  {
    hide Reported;
    ReportedAncestors(d, r.nodes[n]);
  }

  lemma TableRanked<N, E>(d: Arena<N, E>, r: Ids, xs: set<nat>, live: set<nat>, g: SerGraph<N, E>)
    requires WellFounded(d) && RegistryIn(d, r) && Writable(d, r, live)
    requires g.table == map id | id in r.nodes && r.nodes[id] in xs :: SerOf(d, r.ptrs, r.nodes[id])
    ensures Acyclic(g.table)
  {
    forall id, k | id in g.table && 0 <= k < |g.table[id].incoming| && g.table[id].incoming[k].0 in g.table
      ensures r.nodes[g.table[id].incoming[k].0] < r.nodes[id]
    {
      assert g.table[id] == SerOf(d, r.ptrs, r.nodes[id]);
      assert ParentsBefore(d[r.nodes[id]], r.nodes[id]);
    }
    assert Ranked(g.table, r.nodes);
  }

  /** The ancestors of the nodes of the graph. */
  ghost predicate AncestorsOf<N, E>(d: Arena<N, E>, r: Ids, ids: set<NodeId>, xs: set<nat>)
    requires WellFounded(d) && RegistryIn(d, r) && ids <= r.nodes.Keys
  {
    forall x :: x in xs <==> exists n :: n in ids && Ancestor(d, x, r.nodes[n])
  }

  /** `all` has a node for each node in `xs`, under its id, all different and not in
      `base`, with the same value, parents and edge values. */
  ghost predicate CopyOf<N, E>(d: Arena<N, E>, r: Ids, xs: set<nat>, base: Arena<N, E>, d': Arena<N, E>,
                               all: map<NodeId, nat>)
    requires RegistryIn(d, r)
  {
    && (forall id :: id in all <==> id in r.nodes && r.nodes[id] in xs)
    && (forall id :: id in all ==> |base| <= all[id] && SameNode(d, r, d', all, id))
    && (forall i, j :: i in all && j in all && all[i] == all[j] ==> i == j)
  }

  /** Writing and reading any graph whose ancestors were all reported: the graph has the
      same ids as before, and the registry names exactly the ancestors of its nodes, under
      the ids they had or were given, each with the same value, parents and edge values;
      all of them are alive, because a node of the graph holds them. */
  lemma ReportedRoundTrip<N, E>(d: Arena<N, E>, r: Ids, live: set<nat>, ids: set<NodeId>, g: SerGraph<N, E>,
                                base: Arena<N, E>, d': Arena<N, E>, reg: Ids, nodes: map<NodeId,
                                  nat>) returns (r': Ids, xs: set<nat>)
    requires WellFounded(d) && RegistryIn(d, r) && ids <= r.nodes.Keys && AllReported(d, r, ids)
    requires Written(d, r, live, ids, g) && ReadAs(g, base, d', reg, nodes)
    ensures AncestorsOf(d, r, ids, xs) && RegistryIn(d, r') && Named(r, r', xs)
    ensures CopyOf(d, r', xs, base, d', reg.nodes)
    ensures nodes.Keys == ids && forall n :: n in ids ==> n in reg.nodes && nodes[n] == reg.nodes[n]
    ensures HandlesIn(d', nodes) && AllAlive(d', reg, nodes.Values)
  {
    hide Visited, AllReported, HandlesIn, AllAlive, Written, ReadAs, SameNode, TableOf, RegistryIn, Named,
         AncestorsOf, CopyOf;
    xs := Visited(d, r, ids);
    r' := WrittenNames(d, r, live, ids, g);
    VisitedAre(d, r, ids);
    ReadIds(g, base, d', reg, nodes);
    HandlesAre(g, base, d', reg, nodes);
    Copied(d, r', xs, g, base, d', reg, nodes);
    forall n | n in ids ensures n in r'.nodes && r'.nodes[n] == r.nodes[n] {
      NamedKeeps(r, r', xs, n);
    }
    ReportedAlive(d, r, r', ids, xs, base, d', reg, nodes);
  }

  lemma NamedKeeps(r: Ids, r': Ids, xs: set<nat>, n: NodeId)
    requires Named(r, r', xs) && n in r.nodes
    ensures n in r'.nodes && r'.nodes[n] == r.nodes[n]
  {
  }

  /** The table has one entry for each node in `xs`, under its id. */
  ghost predicate TableOf<N, E>(d: Arena<N, E>, r: Ids, xs: set<nat>, t: Table<N, E>) {
    && (forall id :: id in t <==> id in r.nodes && r.nodes[id] in xs)
    && (forall id :: id in t ==>
          r.nodes[id] < |d| && ParentsNamed(d, r.ptrs, r.nodes[id]) && t[id] == SerOf(d, r.ptrs, r.nodes[id]))
  }

  lemma WrittenNames<N, E>(d: Arena<N, E>, r: Ids, live: set<nat>, ids: set<NodeId>, g: SerGraph<N, E>)
    returns (r': Ids)
    requires WellFounded(d) && RegistryIn(d, r) && ids <= r.nodes.Keys && Written(d, r, live, ids, g)
    ensures RegistryIn(d, r') && Named(r, r', Visited(d, r, ids)) && TableOf(d, r', Visited(d, r, ids), g.table)
    ensures g.nodes == ids
  {
    hide Visited, Named, TableOf, SerOf;
    var xs := Visited(d, r, ids);
    r' :| Named(r, r', xs) && RegistryIn(d, r') && Writable(d, r', live) && g.nextId == r'.nextId
      && g.table == map id | id in r'.nodes && r'.nodes[id] in xs :: SerOf(d, r'.ptrs, r'.nodes[id]);
    IsTableOf(d, r', live, xs, g.table);
  }

  lemma IsTableOf<N, E>(d: Arena<N, E>, r: Ids, live: set<nat>, xs: set<nat>, t: Table<N, E>)
    requires RegistryIn(d, r) && Writable(d, r, live)
    requires t == map id | id in r.nodes && r.nodes[id] in xs :: SerOf(d, r.ptrs, r.nodes[id])
    ensures TableOf(d, r, xs, t)
  {
    hide SerOf;
  }

  lemma Copied<N, E>(d: Arena<N, E>, r: Ids, xs: set<nat>, g: SerGraph<N, E>, base: Arena<N, E>, d': Arena<N, E>,
                     reg: Ids, nodes: map<NodeId, nat>)
    requires RegistryIn(d, r) && TableOf(d, r, xs, g.table) && ReadAs(g, base, d', reg, nodes)
    ensures CopyOf(d, r, xs, base, d', reg.nodes)
  {
    hide ReadAs, SameNode, SerOf;
    ReadIds(g, base, d', reg, nodes);
    forall id | id in reg.nodes ensures |base| <= reg.nodes[id] && SameNode(d, r, d', reg.nodes, id) {
      ReadNode(d, r, g, base, d', reg, nodes, id);
    }
  }

  lemma VisitedAre<N, E>(d: Arena<N, E>, r: Ids, ids: set<NodeId>)
    requires WellFounded(d) && RegistryIn(d, r) && ids <= r.nodes.Keys && AllReported(d, r, ids)
    ensures AncestorsOf(d, r, ids, Visited(d, r, ids))
  {
    hide Reported, Ancestor;
    forall x | x in Visited(d, r, ids) ensures exists n :: n in ids && Ancestor(d, x, r.nodes[n]) {
      var n :| n in ids && x in Reported(d, r.nodes[n]);
      ReportedAncestors(d, r.nodes[n]);
    }
  }

  lemma {:induction false} CopiedAncestor<N, E>(d: Arena<N, E>, r: Ids, d': Arena<N, E>, all: map<NodeId, nat>,
                                                m: NodeId, n: NodeId)
    requires WellFounded(d) && WellFounded(d') && RegistryIn(d, r) && n in r.nodes && m in r.nodes && n in all
    requires forall id :: id in all ==> id in r.nodes && SameNode(d, r, d', all, id)
    requires Ancestor(d, r.nodes[m], r.nodes[n])
    ensures m in all && all[n] < |d'| && Ancestor(d', all[m], all[n])
    decreases r.nodes[n]
  {
    assert SameNode(d, r, d', all, n);
    if m != n {
      var x := r.nodes[n];
      var k :| 0 <= k < |d[x].incoming| && Ancestor(d, r.nodes[m], d[x].incoming[k].0);
      assert ParentsBefore(d[x], x);
      CopiedAncestor(d, r, d', all, m, r.ptrs[d[x].incoming[k].0]);
      assert d'[all[n]].incoming[k].0 == all[r.ptrs[d[x].incoming[k].0]];
    }
  }

  lemma ReportedAlive<N, E>(d: Arena<N, E>, r: Ids, r': Ids, ids: set<NodeId>, xs: set<nat>, base: Arena<N, E>,
                            d': Arena<N, E>, reg: Ids, nodes: map<NodeId, nat>)
    requires WellFounded(d) && RegistryIn(d, r) && ids <= r.nodes.Keys && RegistryIn(d, r') && HandlesIn(d', nodes)
    requires AncestorsOf(d, r, ids, xs) && CopyOf(d, r', xs, base, d', reg.nodes)
    requires nodes.Keys == ids
    requires forall n :: n in ids ==>
      n in reg.nodes && nodes[n] == reg.nodes[n] && n in r'.nodes && r'.nodes[n] == r.nodes[n]
    ensures AllAlive(d', reg, nodes.Values)
  {
    hide AncestorsOf, CopyOf, ContainsId, RegistryIn, WellFounded;
    forall id | id in reg.nodes ensures ContainsId(d', reg, nodes.Values, id) {
      var n := NeededBy(d, r, r', ids, xs, base, d', reg.nodes, id);
      HoldsCopy(d, r', xs, base, d', reg, nodes, id, n);
    }
  }

  /** A node of the graph of which entry `id` is an ancestor. */
  lemma NeededBy<N, E>(d: Arena<N, E>, r: Ids, r': Ids, ids: set<NodeId>, xs: set<nat>, base: Arena<N, E>,
                       d': Arena<N, E>, all: map<NodeId, nat>, id: NodeId) returns (n: NodeId)
    requires WellFounded(d) && RegistryIn(d, r) && ids <= r.nodes.Keys && RegistryIn(d, r')
    requires AncestorsOf(d, r, ids, xs) && CopyOf(d, r', xs, base, d', all) && id in all
    ensures n in ids && id in r'.nodes && r.nodes[n] < |d| && Ancestor(d, r'.nodes[id], r.nodes[n])
  {
    hide Ancestor, SameNode;
    n :| n in ids && Ancestor(d, r'.nodes[id], r.nodes[n]);
  }

  lemma HoldsCopy<N, E>(d: Arena<N, E>, r: Ids, xs: set<nat>, base: Arena<N, E>, d': Arena<N, E>, reg: Ids,
                        nodes: map<NodeId, nat>, id: NodeId, n: NodeId)
    requires WellFounded(d) && RegistryIn(d, r) && HandlesIn(d', nodes) && CopyOf(d, r, xs, base, d', reg.nodes)
    requires id in reg.nodes && id in r.nodes && n in nodes && n in reg.nodes && n in r.nodes
    requires nodes[n] == reg.nodes[n]
    requires r.nodes[n] < |d| && Ancestor(d, r.nodes[id], r.nodes[n])
    ensures ContainsId(d', reg, nodes.Values, id)
  {
    hide Ancestor, SameNode, RegistryIn, WellFounded;
    CopiedAncestor(d, r, d', reg.nodes, id, n);
    assert nodes[n] in nodes.Values;
  }

  /** Not every graph that can be written can be read back: a graph holding only a node
      whose parents are listed as 0, 0, 1, over a registry naming all three nodes. */
  lemma WrittenNotReadable<N, E>(v: N, e: E)
    ensures var d := [Node(v, []), Node(v, []), Node(v, [(0, e), (0, e), (1, e)])];
      var r := Ids(map[0 := 0, 1 := 1, 2 := 2], map[0 := 0, 1 := 1, 2 := 2], 3);
      && LiveClosed(d, {0, 1, 2}) && RegistryIn(d, r) && GraphWritable(d, r, {0, 1, 2}, {2}) && !AllReported(d, r, {2})
  {
    var d: Arena<N, E> := [Node(v, []), Node(v, []), Node(v, [(0, e), (0, e), (1, e)])];
    var r := Ids(map[0 := 0, 1 := 1, 2 := 2], map[0 := 0, 1 := 1, 2 := 2], 3);
    NotAlwaysComplete(v, e);
    hide Reported, Expansion;
    assert RegistryIn(d, r);
    RepeatFreePrefixUnique([2, 0], Reported(d, 2), Expansion(d, [2]));
    assert Reported(d, 2) == [2, 0];
    assert 1 !in Visited(d, r, {2});
    assert Ancestor(d, 1, r.nodes[2]);
    ParentsNamedAll(d, r);
  }

  /** A graph cannot be written if its registry has a dead entry, even one that has nothing
      to do with the graph: two unrelated nodes, the second one dead. */
  lemma DeadEntryBlocks<N, E>(v: N)
    ensures var d: Arena<N, E> := [Node(v, []), Node(v, [])];
      var r := Ids(map[0 := 0, 1 := 1], map[0 := 0, 1 := 1], 2);
      && LiveClosed(d, {0}) && RegistryIn(d, r) && GraphClosed(d, r, {0}) && !GraphWritable(d, r, {0}, {0})
  {
    hide Reported;
    var d: Arena<N, E> := [Node(v, []), Node(v, [])];
    var r := Ids(map[0 := 0, 1 := 1], map[0 := 0, 1 := 1], 2);
    assert WellFounded(d) && RegistryIn(d, r);
    assert 1 in r.nodes && r.nodes[1] !in {0};
  }

  /** Nor if a registered node has a parent that is not registered: node 2 has parent 1, and
      the graph consists of node 0 only. */
  lemma OrphanEntryBlocks<N, E>(v: N, e: E)
    ensures var d: Arena<N, E> := [Node(v, []), Node(v, []), Node(v, [(1, e)])];
      var r := Ids(map[0 := 0, 1 := 2], map[0 := 0, 2 := 1], 2);
      && LiveClosed(d, {0, 1, 2}) && RegistryIn(d, r) && GraphClosed(d, r, {0}) && !GraphWritable(d, r, {0, 1, 2}, {0})
  {
    hide Reported;
    var d: Arena<N, E> := [Node(v, []), Node(v, []), Node(v, [(1, e)])];
    var r := Ids(map[0 := 0, 1 := 2], map[0 := 0, 2 := 1], 2);
    assert WellFounded(d) && RegistryIn(d, r);
    ReportedAncestors(d, 0);
    AncestorsBelow(d, 0);
    assert 1 !in Visited(d, r, {0});
    assert 2 in r.ptrs && d[2].incoming[0].0 == 1;
  }

  lemma ParentsNamedAll<N, E>(d: Arena<N, E>, r: Ids)
    requires |d| == 3 && WellFounded(d) && r.ptrs.Keys == {0, 1, 2}
    ensures forall x, k :: 0 <= x < |d| && 0 <= k < |d[x].incoming| ==> d[x].incoming[k].0 in r.ptrs
  {
    forall x, k | 0 <= x < |d| && 0 <= k < |d[x].incoming| ensures d[x].incoming[k].0 in r.ptrs {
      assert ParentsBefore(d[x], x);
    }
  }

  // ----- the round trip of a single RelRc -----

  /** `f` maps the ancestors of `i` one-to-one onto the ancestors of `i'`, keeping values,
      parent order and edge values: shared ancestors are shared again and nothing is
      duplicated. */
  ghost predicate Isomorphic<N, E>(d: Arena<N, E>, i: nat, d': Arena<N, E>, i': nat, f: map<nat, nat>)
    requires WellFounded(d) && i < |d| && WellFounded(d') && i' < |d'|
  {
    && f.Keys == Ancestors(d, i) && f.Values == Ancestors(d', i') && f[i] == i'
    && (forall x, y :: x in f && y in f && f[x] == f[y] ==> x == y)
    && (forall x :: x in f ==> Matches(d, d', f, x))
  }

  ghost predicate Matches<N, E>(d: Arena<N, E>, d': Arena<N, E>, f: map<nat, nat>, x: nat)
    requires x in f
  {
    && x < |d| && f[x] < |d'|
    && d'[f[x]].value == d[x].value
    && |d'[f[x]].incoming| == |d[x].incoming|
    && forall k :: 0 <= k < |d[x].incoming| ==>
         d[x].incoming[k].0 in f && d'[f[x]].incoming[k] == (f[d[x].incoming[k].0], d[x].incoming[k].1)
  }

  lemma {:induction false} ImageAncestor<N, E>(d: Arena<N, E>, d': Arena<N, E>, f: map<nat, nat>, y: nat, x: nat)
    requires WellFounded(d) && WellFounded(d') && (forall z :: z in f ==> Matches(d, d', f, z))
    requires x in f && x < |d| && Ancestor(d, y, x)
    ensures y in f && f[x] < |d'| && Ancestor(d', f[y], f[x])
    decreases x
  {
    assert Matches(d, d', f, x);
    if y != x {
      var k :| 0 <= k < |d[x].incoming| && Ancestor(d, y, d[x].incoming[k].0);
      assert ParentsBefore(d[x], x);
      ImageAncestor(d, d', f, y, d[x].incoming[k].0);
      assert d'[f[x]].incoming[k].0 == f[d[x].incoming[k].0];
    }
  }

  lemma {:induction false} AncestorOfImage<N, E>(d: Arena<N, E>, d': Arena<N, E>, f: map<nat, nat>, v: nat, x: nat)
    returns (y: nat)
    requires WellFounded(d) && WellFounded(d') && (forall z :: z in f ==> Matches(d, d', f, z))
    requires x in f && x < |d| && f[x] < |d'| && Ancestor(d', v, f[x])
    ensures y in f && f[y] == v && Ancestor(d, y, x)
    decreases x
  {
    assert Matches(d, d', f, x);
    if v == f[x] {
      y := x;
    } else {
      var k :| 0 <= k < |d'[f[x]].incoming| && Ancestor(d', v, d'[f[x]].incoming[k].0);
      assert ParentsBefore(d[x], x);
      y := AncestorOfImage(d, d', f, v, d[x].incoming[k].0);
      assert Ancestor(d, y, d[x].incoming[k].0);
    }
  }

  lemma IsIsomorphic<N, E>(d: Arena<N, E>, i: nat, d': Arena<N, E>, f: map<nat, nat>)
    requires WellFounded(d) && i < |d| && WellFounded(d') && f.Keys == Ancestors(d, i) && i in f
    requires forall x, y :: x in f && y in f && f[x] == f[y] ==> x == y
    requires forall x :: x in f ==> Matches(d, d', f, x)
    ensures f[i] < |d'| && Isomorphic(d, i, d', f[i], f)
  {
    assert Matches(d, d', f, i);
    forall v | v in f.Values ensures v in Ancestors(d', f[i]) {
      var x :| x in f && f[x] == v;
      assert x in Ancestors(d, i);
      ImageAncestor(d, d', f, x, i);
    }
    forall v | v in Ancestors(d', f[i]) ensures v in f.Values {
      var x := AncestorOfImage(d, d', f, v, i);
    }
  }

  /** The graph that `RelRc::to_serialized` writes: the ancestors of `i`, all of them
      named by the registry. */
  ghost predicate AncestorGraph<N, E>(d: Arena<N, E>, r: Ids, i: nat, ids: set<NodeId>)
    requires WellFounded(d) && i < |d|
  {
    && (forall x :: x in Ancestors(d, i) ==> x in r.ptrs)
    && (forall n :: n in ids <==> n in r.nodes && r.nodes[n] in Ancestors(d, i))
  }

  lemma AncestorGraphClosed<N, E>(d: Arena<N, E>, r: Ids, i: nat, ids: set<NodeId>)
    requires WellFounded(d) && i < |d| && RegistryIn(d, r) && AncestorGraph(d, r, i, ids)
    ensures GraphClosed(d, r, ids) && i in r.ptrs && r.ptrs[i] in ids
  {
    assert Ancestor(d, i, i);
    forall n, k | n in ids && 0 <= k < |d[r.nodes[n]].incoming|
      ensures d[r.nodes[n]].incoming[k].0 in r.ptrs && r.ptrs[d[r.nodes[n]].incoming[k].0] in ids
    {
      var x, p := r.nodes[n], d[r.nodes[n]].incoming[k].0;
      assert Ancestor(d, x, i);
      ParentIsAncestor(d, x, k);
      AncestorTrans(d, p, x, i);
      assert p in Ancestors(d, i);
    }
  }

  /** Serializing a `RelRc` and deserializing it gives an isomorphic ancestor graph. */
  lemma RelRcRoundTrip<N, E>(d: Arena<N, E>, r: Ids, live: set<nat>, i: nat, ids: set<NodeId>, g: SerGraph<N, E>,
                             base: Arena<N, E>, d': Arena<N, E>, reg: Ids, nodes: map<NodeId, nat>)
    returns (f: map<nat, nat>)
    requires WellFounded(d) && i < |d| && RegistryIn(d, r) && AncestorGraph(d, r, i, ids)
    requires Written(d, r, live, ids, g) && ReadAs(g, base, d', reg, nodes)
    ensures WellFounded(d') && i in r.ptrs && r.ptrs[i] in nodes && nodes[r.ptrs[i]] < |d'|
    ensures Isomorphic(d, i, d', nodes[r.ptrs[i]], f)
    ensures forall x :: x in f ==> |base| <= f[x]
  {
    hide Written, ReadAs, HandlesIn, AllAlive;
    AncestorGraphClosed(d, r, i, ids);
    GraphRoundTrip(d, r, live, ids, g, base, d', reg, nodes);
    f := map x | x in Ancestors(d, i) :: nodes[r.ptrs[x]];
    forall x | x in f ensures Matches(d, d', f, x) && r.ptrs[x] in ids {
      MatchesImage(d, r, i, ids, d', nodes, f, x);
    }
    IsIsomorphic(d, i, d', f);
  }

  lemma MatchesImage<N, E>(d: Arena<N, E>, r: Ids, i: nat, ids: set<NodeId>, d': Arena<N, E>, nodes: map<NodeId, nat>,
                           f: map<nat, nat>, x: nat)
    requires WellFounded(d) && i < |d| && RegistryIn(d, r) && AncestorGraph(d, r, i, ids) && nodes.Keys == ids
    requires forall n :: n in ids ==> SameNode(d, r, d', nodes, n)
    requires f.Keys == Ancestors(d, i) && (forall y :: y in f ==> r.ptrs[y] in nodes && f[y] == nodes[r.ptrs[y]])
    requires x in f
    ensures r.ptrs[x] in ids && Matches(d, d', f, x)
  {
    var n := r.ptrs[x];
    assert r.nodes[n] == x && SameNode(d, r, d', nodes, n);
    forall k | 0 <= k < |d[x].incoming|
      ensures d[x].incoming[k].0 in f && d'[f[x]].incoming[k] == (f[d[x].incoming[k].0], d[x].incoming[k].1)
    {
      ParentIsAncestor(d, x, k);
      AncestorTrans(d, d[x].incoming[k].0, x, i);
      assert d[x].incoming[k].0 in Ancestors(d, i);
    }
  }
}
