/** `RelRc::to_serialized` and `RelRc::from_serialized` on the heap
    (src/serialization.rs:127-148): the registry and the liveness that the serializer
    sees are those of the heap. */
module RelRcSerialization {
  import opened Prelude
  import opened Dag
  import opened HeapModel
  import opened HeapSteps
  import opened HeapDrop
  import opened HeapRuns
  import opened HeapTracked
  import opened HeapObject
  import opened History
  import opened HistoryObject
  import opened Deserialization
  import opened Serialization

  ghost predicate StampsDistinct(reg: Reg) {
    forall i, j :: i in reg.nodes && j in reg.nodes && reg.nodes[i].stamp == reg.nodes[j].stamp ==> i == j
  }

  /** The registry with nodes named by stamp instead of by address. */
  function RegistryView(reg: Reg): Ids
    requires StampsDistinct(reg)
  {
    Ids(map id | id in reg.nodes :: reg.nodes[id].stamp,
        map id | id in reg.nodes :: reg.nodes[id].stamp := id,
        reg.nextId)
  }

  function LiveStamps<N, E>(mem: Memory<N, E>): set<nat> {
    set a | 0 <= a < |mem| && mem[a].Used? && mem[a].inner.Some? :: mem[a].stamp
  }

  lemma LiveStampsAre<N, E>(mem: Memory<N, E>)
    ensures forall s: nat :: s in LiveStamps(mem) <==> LiveStamp(mem, s)
  {
    forall s: nat ensures s in LiveStamps(mem) <==> LiveStamp(mem, s) {
      if LiveStamp(mem, s) {
        var a: Addr :| Live(mem, a) && mem[a].stamp == s;
      }
      if s in LiveStamps(mem) {
        var a: Addr :| 0 <= a < |mem| && mem[a].Used? && mem[a].inner.Some? && mem[a].stamp == s;
        assert Live(mem, a);
      }
    }
  }

  lemma StampsAreDistinct<N, E>(w: World<N, E>, r: RegId)
    requires Inv(w) && r < |w.regs|
    ensures StampsDistinct(w.regs[r])
    ensures forall id :: id in w.regs[r].nodes ==> w.regs[r].nodes[id].stamp < |w.log| && id < w.regs[r].nextId
  {
    hide Inv;
    var reg := w.regs[r];
    forall id | id in reg.nodes ensures reg.nodes[id].stamp < |w.log| && id < reg.nextId {
      EntryStamp(w, r, id);
      IdBelow(w, r, id);
    }
    forall i, j | i in reg.nodes && j in reg.nodes && reg.nodes[i].stamp == reg.nodes[j].stamp ensures i == j {
      EntriesDistinct(w, r, i, j);
    }
  }

  lemma ViewMembers(reg: Reg)
    requires StampsDistinct(reg)
    ensures forall id :: id in RegistryView(reg).nodes <==> id in reg.nodes
    ensures forall id :: id in reg.nodes ==> RegistryView(reg).nodes[id] == reg.nodes[id].stamp
    ensures forall s :: s in RegistryView(reg).ptrs <==> Registered(reg, s)
    ensures forall id :: id in reg.nodes ==>
      reg.nodes[id].stamp in RegistryView(reg).ptrs && RegistryView(reg).ptrs[reg.nodes[id].stamp] == id
  {
    var v := RegistryView(reg);
    forall id | id in reg.nodes ensures reg.nodes[id].stamp in v.ptrs && v.ptrs[reg.nodes[id].stamp] == id {
      assert v.nodes[id] == reg.nodes[id].stamp;
    }
  }

  /** The view of a registry of the heap is a well-formed registry over the log. */
  lemma ViewOk<N, E>(w: World<N, E>, r: RegId)
    requires Inv(w) && r < |w.regs|
    ensures StampsDistinct(w.regs[r]) && RegistryIn(w.log, RegistryView(w.regs[r]))
  {
    hide Inv, RegistryView;
    StampsAreDistinct(w, r);
    var reg := w.regs[r];
    ViewMembers(reg);
    var v := RegistryView(reg);
    assert v.nextId == reg.nextId by { ViewNext(reg); }
    forall x | x in v.ptrs ensures v.ptrs[x] in v.nodes && v.nodes[v.ptrs[x]] == x {
      var id :| id in reg.nodes && reg.nodes[id].stamp == x;
    }
  }

  lemma ViewNext(reg: Reg)
    requires StampsDistinct(reg)
    ensures RegistryView(reg).nextId == reg.nextId
  {
  }

  lemma LiveIsClosed<N, E>(w: World<N, E>)
    requires Inv(w)
    ensures LiveClosed(w.log, LiveStamps(w.mem))
  {
    hide CountsOk, NodeOk, OutSound, RegsOk, OutOk, TrackedOk, LiveStamps;
    LiveStampsAre(w.mem);
    forall s | s in LiveStamps(w.mem)
      ensures s < |w.log| && forall k :: 0 <= k < |w.log[s].incoming| ==> w.log[s].incoming[k].0 in LiveStamps(w.mem)
    {
      var a: Addr :| Live(w.mem, a) && w.mem[a].stamp == s;
      NodeAt(w, a);
      SameLength(w, a);
      forall k | 0 <= k < |w.log[s].incoming| ensures w.log[s].incoming[k].0 in LiveStamps(w.mem) {
        EdgeAt(w.mem, w.log, a, k);
      }
    }
  }

  /** Looking up by address in the heap is looking up by stamp in the view. */
  lemma ViewLookup<N, E>(w: World<N, E>, r: RegId, a: Addr)
    requires Inv(w) && r < |w.regs| && Live(w.mem, a)
    ensures StampsDistinct(w.regs[r])
    ensures var v, s := RegistryView(w.regs[r]), w.mem[a].stamp;
      GetId(w.regs[r], a) == if s in v.ptrs then Some(v.ptrs[s]) else None
  {
    hide Core, OutOk, TrackedOk, RegistryView;
    StampsAreDistinct(w, r);
    ViewMembers(w.regs[r]);
    GetIdExact(w, r, a);
  }

  /** The ids of the graph built by `insert_ancestors` from an empty graph are those of
      the ancestors, and the registry can be written exactly if it is sound. */
  lemma Inserted<N, E>(w: World<N, E>, w': World<N, E>, g: Graph, a: Addr)
    requires Inv(w) && Inv(w') && GraphOk(w', g) && Grew(w, w', g.reg) && OnlyNew(w, w', g)
    requires Live(w.mem, a) && Added(w, {}, g.nodes.Values, a)
    ensures StampsDistinct(w.regs[g.reg]) && StampsDistinct(w'.regs[g.reg])
    ensures RegistryIn(w.log, RegistryView(w.regs[g.reg])) && RegistryIn(w'.log, RegistryView(w'.regs[g.reg]))
    ensures w'.log == w.log && WellFounded(w.log) && w.mem[a].stamp < |w.log|
    ensures AncestorGraph(w.log, RegistryView(w'.regs[g.reg]), w.mem[a].stamp, g.nodes.Keys)
    ensures Writable(w.log, RegistryView(w'.regs[g.reg]), LiveStamps(w'.mem)) <==> RegistrySound(w, g.reg, a)
  {
    hide Inv, RegistryView, LiveStamps, GraphOk, Grew, OnlyNew, Added, AncestorGraph, Writable, RegistryIn,
         RegistrySound;
    GrewLog(w, w', g.reg);
    ViewOk(w, g.reg);
    ViewOk(w', g.reg);
    StampBelow(w, a);
    InsertedIds(w, w', g, a);
    InsertedWritable(w, w', g, a);
  }

  /** The registry can be written once the ancestors of `a` are in it: every entry is
      alive, and every parent of an entry is registered or an ancestor of `a`. */
  ghost predicate RegistrySound<N, E>(w: World<N, E>, r: RegId, a: Addr) {
    && r < |w.regs| && Live(w.mem, a) && WellFounded(w.log) && w.mem[a].stamp < |w.log|
    && forall id :: id in w.regs[r].nodes ==> EntrySound(w, r, id, w.mem[a].stamp)
  }

  ghost predicate EntrySound<N, E>(w: World<N, E>, r: RegId, id: NodeId, i: nat)
    requires r < |w.regs| && id in w.regs[r].nodes && WellFounded(w.log) && i < |w.log|
  {
    var s := w.regs[r].nodes[id].stamp;
    && LiveStamp(w.mem, s) && s < |w.log|
    && forall k :: 0 <= k < |w.log[s].incoming| ==>
         Registered(w.regs[r], w.log[s].incoming[k].0) || Ancestor(w.log, w.log[s].incoming[k].0, i)
  }

  lemma GrewLog<N, E>(w: World<N, E>, w': World<N, E>, r: RegId)
    requires Grew(w, w', r)
    ensures w'.log == w.log && |w'.regs| == |w.regs| && r < |w.regs|
    ensures forall s: nat :: LiveStamp(w'.mem, s) <==> LiveStamp(w.mem, s)
    ensures forall id :: id in w.regs[r].nodes ==> id in w'.regs[r].nodes && w'.regs[r].nodes[id] == w.regs[r].nodes[id]
  {
    forall s: nat ensures LiveStamp(w'.mem, s) <==> LiveStamp(w.mem, s) {
      forall b: Addr | Live(w.mem, b) ensures Live(w'.mem, b) && w'.mem[b].stamp == w.mem[b].stamp {
        assert Live(w'.mem, b) && NodeGrew(w.mem, w'.mem, b, r);
      }
      if LiveStamp(w.mem, s) {
        var b: Addr :| Live(w.mem, b) && w.mem[b].stamp == s;
        assert Live(w'.mem, b);
      }
    }
  }

  /** A graph entry, seen by stamps. */
  lemma GraphEntry<N, E>(w: World<N, E>, w': World<N, E>, g: Graph, id: NodeId)
    requires Inv(w) && Inv(w') && GraphOk(w', g) && Grew(w, w', g.reg) && id in g.nodes
    ensures StampsDistinct(w'.regs[g.reg])
    ensures Live(w.mem, g.nodes[id]) && id in RegistryView(w'.regs[g.reg]).nodes
    ensures RegistryView(w'.regs[g.reg]).nodes[id] == w.mem[g.nodes[id]].stamp
  {
    hide Inv, RegistryView;
    assert EntryOk(w', g.reg, id, g.nodes[id]);
    var b := g.nodes[id];
    assert Live(w.mem, b) && NodeGrew(w.mem, w'.mem, b, g.reg);
    StampsAreDistinct(w', g.reg);
    ViewMembers(w'.regs[g.reg]);
  }

  lemma InsertedIds<N, E>(w: World<N, E>, w': World<N, E>, g: Graph, a: Addr)
    requires Inv(w) && Inv(w') && GraphOk(w', g) && Grew(w, w', g.reg)
    requires Live(w.mem, a) && Added(w, {}, g.nodes.Values, a)
    requires WellFounded(w.log) && w.mem[a].stamp < |w.log|
    ensures StampsDistinct(w'.regs[g.reg])
    ensures AncestorGraph(w.log, RegistryView(w'.regs[g.reg]), w.mem[a].stamp, g.nodes.Keys)
  {
    hide Inv, RegistryView, GraphOk, Grew, Added;
    AddedEmpty(w, g.nodes.Values, a);
    GrewDistinct(w, w', g);
    ViewMembers(w'.regs[g.reg]);
    var v, i := RegistryView(w'.regs[g.reg]), w.mem[a].stamp;
    forall id | id in g.nodes ensures id in v.nodes && v.nodes[id] in Ancestors(w.log, i) {
      GraphEntry(w, w', g, id);
      assert g.nodes[id] in g.nodes.Values && AncAt(w, g.nodes[id], a);
    }
    forall x | x in Ancestors(w.log, i) ensures exists id :: id in g.nodes && id in v.nodes && v.nodes[id] == x {
      AncestorsLive(w, a, x);
      var b: Addr :| Live(w.mem, b) && w.mem[b].stamp == x;
      assert AncAt(w, b, a) && b in g.nodes.Values;
      var id :| id in g.nodes && g.nodes[id] == b;
      GraphEntry(w, w', g, id);
    }
    forall id | id in v.nodes && v.nodes[id] in Ancestors(w.log, i) ensures id in g.nodes {
      var j :| j in g.nodes && j in v.nodes && v.nodes[j] == v.nodes[id];
      assert w'.regs[g.reg].nodes[j].stamp == w'.regs[g.reg].nodes[id].stamp;
    }
  }

  lemma GrewDistinct<N, E>(w: World<N, E>, w': World<N, E>, g: Graph)
    requires Inv(w') && Grew(w, w', g.reg)
    ensures g.reg < |w'.regs| && StampsDistinct(w'.regs[g.reg])
  {
    hide Inv;
    StampsAreDistinct(w', g.reg);
  }

  lemma InsertedWritable<N, E>(w: World<N, E>, w': World<N, E>, g: Graph, a: Addr)
    requires Inv(w) && Inv(w') && GraphOk(w', g) && Grew(w, w', g.reg) && OnlyNew(w, w', g)
    requires Live(w.mem, a) && WellFounded(w.log) && w.mem[a].stamp < |w.log| && w'.log == w.log
    requires StampsDistinct(w.regs[g.reg]) && StampsDistinct(w'.regs[g.reg])
    requires RegistryIn(w.log, RegistryView(w.regs[g.reg])) && RegistryIn(w.log, RegistryView(w'.regs[g.reg]))
    requires AncestorGraph(w.log, RegistryView(w'.regs[g.reg]), w.mem[a].stamp, g.nodes.Keys)
    ensures Writable(w.log, RegistryView(w'.regs[g.reg]), LiveStamps(w'.mem)) <==> RegistrySound(w, g.reg, a)
  {
    hide Inv, RegistryView, LiveStamps, GraphOk, Grew, AncestorGraph, OnlyNew, EntrySound, RegistryIn, EntryWritable,
         StampsDistinct, LiveStamp;
    GrewLog(w, w', g.reg);
    var v', i := RegistryView(w'.regs[g.reg]), w.mem[a].stamp;
    forall id | id in w.regs[g.reg].nodes
      ensures id in v'.nodes && (EntrySound(w, g.reg, id, i) <==> EntryWritable(w.log, v', LiveStamps(w'.mem), id))
    {
      EntrySoundIff(w, w', g, a, id);
    }
    forall id | id in v'.nodes && id !in w.regs[g.reg].nodes ensures EntryWritable(w.log, v', LiveStamps(w'.mem), id) {
      NewEntryWritable(w, w', g, a, id);
    }
    WritableEntries(w.log, v', LiveStamps(w'.mem));
  }

  ghost predicate EntryWritable<N, E>(d: Arena<N, E>, r: Ids, live: set<nat>, id: NodeId) {
    id in r.nodes && r.nodes[id] < |d| && r.nodes[id] in live && ParentsNamed(d, r.ptrs, r.nodes[id])
  }

  lemma WritableEntries<N, E>(d: Arena<N, E>, r: Ids, live: set<nat>)
    requires RegistryIn(d, r)
    ensures Writable(d, r, live) <==> forall id :: id in r.nodes ==> EntryWritable(d, r, live, id)
  {
    hide ParentsNamed;
  }

  lemma NewEntryWritable<N, E>(w: World<N, E>, w': World<N, E>, g: Graph, a: Addr, id: NodeId)
    requires Inv(w) && Inv(w') && GraphOk(w', g) && Grew(w, w', g.reg) && OnlyNew(w, w', g)
    requires Live(w.mem, a) && WellFounded(w.log) && w.mem[a].stamp < |w.log| && w'.log == w.log
    requires StampsDistinct(w'.regs[g.reg]) && RegistryIn(w.log, RegistryView(w'.regs[g.reg]))
    requires AncestorGraph(w.log, RegistryView(w'.regs[g.reg]), w.mem[a].stamp, g.nodes.Keys)
    requires id in RegistryView(w'.regs[g.reg]).nodes && id !in w.regs[g.reg].nodes
    ensures EntryWritable(w.log, RegistryView(w'.regs[g.reg]), LiveStamps(w'.mem), id)
  {
    hide Inv, RegistryView, LiveStamps, GraphOk, Grew, AncestorGraph, ParentsNamed, RegistryIn;
    ViewMembers(w'.regs[g.reg]);
    assert id in g.nodes;
    GraphEntry(w, w', g, id);
    AncestorGraphIn(w.log, RegistryView(w'.regs[g.reg]), w.mem[a].stamp, g.nodes.Keys);
    GrewLog(w, w', g.reg);
    LiveStampsAre(w'.mem);
    assert LiveStamp(w.mem, w.mem[g.nodes[id]].stamp);
  }

  lemma OldEntry<N, E>(w: World<N, E>, w': World<N, E>, r: RegId, id: NodeId)
    requires Inv(w) && Grew(w, w', r) && id in w.regs[r].nodes && StampsDistinct(w'.regs[r])
    ensures var s := w.regs[r].nodes[id].stamp;
      && s < |w.log| && id in RegistryView(w'.regs[r]).nodes && RegistryView(w'.regs[r]).nodes[id] == s
      && (s in LiveStamps(w'.mem) <==> LiveStamp(w.mem, s))
  {
    hide Inv, RegistryView, LiveStamps, Grew, LiveStamp;
    GrewLog(w, w', r);
    ViewMembers(w'.regs[r]);
    LiveStampsAre(w'.mem);
    EntryStamp(w, r, id);
  }

  lemma EntrySoundIff<N, E>(w: World<N, E>, w': World<N, E>, g: Graph, a: Addr, id: NodeId)
    requires Inv(w) && Grew(w, w', g.reg) && OnlyNew(w, w', g) && id in w.regs[g.reg].nodes
    requires WellFounded(w.log) && Live(w.mem, a) && w.mem[a].stamp < |w.log|
    requires StampsDistinct(w'.regs[g.reg]) && RegistryIn(w.log, RegistryView(w'.regs[g.reg]))
    requires AncestorGraph(w.log, RegistryView(w'.regs[g.reg]), w.mem[a].stamp, g.nodes.Keys)
    ensures var v' := RegistryView(w'.regs[g.reg]);
      id in v'.nodes && (EntrySound(w, g.reg, id, w.mem[a].stamp) <==> EntryWritable(w.log, v', LiveStamps(w'.mem), id))
  {
    hide Inv, RegistryView, LiveStamps, Grew, OnlyNew, Ancestor, LiveStamp, Registered, RegistryIn, AncestorGraph,
         StampsDistinct;
    GrewLog(w, w', g.reg);
    var reg, v', i := w.regs[g.reg], RegistryView(w'.regs[g.reg]), w.mem[a].stamp;
    OldEntry(w, w', g.reg, id);
    forall p: nat ensures p in v'.ptrs <==> Registered(reg, p) || Ancestor(w.log, p, i) {
      PtrsGrew(w, w', g, a, p);
    }
  }

  lemma PtrsGrew<N, E>(w: World<N, E>, w': World<N, E>, g: Graph, a: Addr, p: nat)
    requires Grew(w, w', g.reg) && OnlyNew(w, w', g) && WellFounded(w.log) && Live(w.mem, a) && w.mem[a].stamp < |w.log|
    requires StampsDistinct(w'.regs[g.reg]) && RegistryIn(w.log, RegistryView(w'.regs[g.reg]))
    requires AncestorGraph(w.log, RegistryView(w'.regs[g.reg]), w.mem[a].stamp, g.nodes.Keys)
    ensures p in RegistryView(w'.regs[g.reg]).ptrs <==>
      Registered(w.regs[g.reg], p) || Ancestor(w.log, p, w.mem[a].stamp)
  {
    hide RegistryView, Grew, Ancestor;
    GrewLog(w, w', g.reg);
    var reg, reg' := w.regs[g.reg], w'.regs[g.reg];
    ViewMembers(reg');
    if Registered(reg, p) {
      var j :| j in reg.nodes && reg.nodes[j].stamp == p;
      assert j in reg'.nodes;
    }
    if p in RegistryView(reg').ptrs {
      var j :| j in reg'.nodes && reg'.nodes[j].stamp == p;
    }
  }

  lemma AncestorGraphIn<N, E>(d: Arena<N, E>, r: Ids, i: nat, ids: set<NodeId>)
    requires WellFounded(d) && i < |d| && RegistryIn(d, r) && AncestorGraph(d, r, i, ids)
    ensures forall n :: n in ids ==> n in r.nodes && r.nodes[n] < |d| && ParentsNamed(d, r.ptrs, r.nodes[n])
  {
    AncestorGraphClosed(d, r, i, ids);
  }

  /** A closed graph can be written exactly if its registry can. */
  lemma ClosedWritableIff<N, E>(d: Arena<N, E>, r: Ids, live: set<nat>, ids: set<NodeId>)
    requires LiveClosed(d, live) && RegistryIn(d, r) && GraphClosed(d, r, ids)
    ensures GraphWritable(d, r, live, ids) <==> Writable(d, r, live)
  {
    hide Visited;
    if Writable(d, r, live) { ClosedWritable(d, r, live, ids); }
    if GraphWritable(d, r, live, ids) {
      VisitedClosed(d, r, ids);
      forall id | id in r.nodes ensures r.nodes[id] in live && ParentsNamed(d, r.ptrs, r.nodes[id]) {
        assert r.nodes[id] in r.ptrs;
      }
    }
  }

  /** The world after `to_serialized`: some nodes may be newly registered in `r`, the
      caller's references are what they were, and nothing else has changed. */
  ghost predicate Restored<N, E>(w: World<N, E>, w': World<N, E>, r: RegId) {
    Grew(w, w', r) && w'.handles == w.handles && w'.weaks == w.weaks && KeepsNames(w, w')
  }

  /** What `to_serialized` writes for the node at `a`, in terms of the registry and the
      nodes as they are afterwards. */
  ghost predicate WrittenFor<N, E>(w: World<N, E>, r: RegId, a: Addr, g: SerGraph<N, E>, id: NodeId) {
    && r < |w.regs| && Live(w.mem, a) && WellFounded(w.log) && w.mem[a].stamp < |w.log| && StampsDistinct(w.regs[r])
    && var v := RegistryView(w.regs[r]);
       && RegistryIn(w.log, v) && AncestorGraph(w.log, v, w.mem[a].stamp, g.nodes) && g.nodes <= v.nodes.Keys
       && Written(w.log, v, LiveStamps(w.mem), g.nodes, g)
       && w.mem[a].stamp in v.ptrs && v.ptrs[w.mem[a].stamp] == id
  }

  /** Every ancestor of `a` is linked to `r`. */
  ghost predicate AllLinked<N, E>(w: World<N, E>, r: RegId, a: Addr) {
    forall b: Addr :: AncAt(w, b, a) ==> w.mem[b].inner.value.link == Some(r)
  }

  /** Once the ancestors are linked to one registry, no other registry will do. */
  lemma LinkedElsewhere<N, E>(w: World<N, E>, r: RegId, q: RegId, a: Addr)
    requires Inv(w) && AllLinked(w, r, a) && Live(w.mem, a)
    ensures Insertable(w, q, {}, a) <==> q == r
  {
    hide Inv;
    FreshSelf(w, {}, a);
    FreshAncestors(w, {}, a);
  }

  lemma InsertedLinked<N, E>(w: World<N, E>, w': World<N, E>, g: Graph, a: Addr)
    requires Inv(w) && Grew(w, w', g.reg) && GraphOk(w', g) && Live(w.mem, a) && Added(w, {}, g.nodes.Values, a)
    ensures AllLinked(w', g.reg, a)
  {
    hide Inv, Grew, Added;
    AddedEmpty(w, g.nodes.Values, a);
    forall b: Addr | AncAt(w', b, a) ensures w'.mem[b].inner.value.link == Some(g.reg) {
      AncGrew(w, w', g.reg, b, a);
      var id :| id in g.nodes && g.nodes[id] == b;
      assert EntryOk(w', g.reg, id, b);
    }
  }

  /** Nodes that are not ancestors of `a` have the link they had. */
  ghost predicate OthersUnlinked<N, E>(w: World<N, E>, w': World<N, E>, a: Addr) {
    forall b: Addr :: Live(w.mem, b) && !AncAt(w, b, a) ==>
      Live(w'.mem, b) && w'.mem[b].inner.value.link == w.mem[b].inner.value.link
  }

  lemma OnlyAncestors<N, E>(w: World<N, E>, w1: World<N, E>, w2: World<N, E>, g: Graph, a: Addr)
    requires Inv(w) && Grew(w, w1, g.reg) && OnlyNew(w, w1, g) && Added(w, {}, g.nodes.Values, a)
    requires SameNodes(w1.mem, w2.mem)
    ensures OthersUnlinked(w, w2, a)
  {
    hide Inv, Added;
    AddedEmpty(w, g.nodes.Values, a);
    forall b: Addr | Live(w.mem, b) && !AncAt(w, b, a)
      ensures Live(w2.mem, b) && w2.mem[b].inner.value.link == w.mem[b].inner.value.link
    {
      assert Live(w1.mem, b) && b !in g.nodes.Values;
    }
  }

  lemma LinkedGrew<N, E>(w: World<N, E>, w': World<N, E>, r: RegId, a: Addr)
    requires Grew(w, w', r) && AllLinked(w, r, a)
    ensures AllLinked(w', r, a)
  {
    forall b: Addr | AncAt(w', b, a) ensures w'.mem[b].inner.value.link == Some(r) {
      AncGrew(w, w', r, b, a);
      assert Live(w.mem, b) && NodeGrew(w.mem, w'.mem, b, r);
    }
  }

  // ----- RelRc::to_serialized -----

  /** The graph is written with the registry and the nodes as they are on the heap. */
  method WriteView<N, E>(heap: Heap<N, E>, graph: HistoryGraph<N, E>, ghost w: World<N, E>, a: Addr, id: NodeId,
                         d: Arena<N, E>)
    returns (g: Option<SerGraph<N, E>>)
    requires graph.heap == heap && graph.Valid() && d == heap.log && Inv(w) && Live(w.mem, a)
    requires Grew(w, heap.State(), graph.reg) && OnlyNew(w, heap.State(), graph.View())
    requires Added(w, {}, graph.nodes.Values, a)
    requires id in graph.nodes && graph.nodes[id] == a
    ensures g.Some? <==> RegistrySound(w, graph.reg, a)
    ensures g.Some? ==> WrittenFor(heap.State(), graph.reg, a, g.value, id)
  {
    hide Inv, RegistryView, LiveStamps, GraphOk, Grew, Added, Writable, AncestorGraph, RegistryIn,
         GraphWritable, Written, LiveClosed, GraphClosed, OnlyNew, RegistrySound, GraphOwns;
    ghost var w' := heap.State();
    Inserted(w, w', graph.View(), a);
    GrewAt(w, w', graph.reg, a);
    LiveIsClosed(w');
    var view, live := RegistryView(heap.regs[graph.reg]), LiveStamps(heap.mem);
    AncestorGraphClosed(d, view, w.mem[a].stamp, graph.nodes.Keys);
    ClosedWritableIff(d, view, live, graph.nodes.Keys);
    IssuedIds(d, view, graph.nodes.Keys);
    g := WriteGraph(d, view, live, graph.nodes.Keys);
    SameId(w, w', graph.View(), a, id);
    WrittenNodes(d, view, live, graph.nodes.Keys, g);
  }

  lemma WrittenNodes<N, E>(d: Arena<N, E>, r: Ids, live: set<nat>, ids: set<NodeId>, g: Option<SerGraph<N, E>>)
    requires WellFounded(d) && RegistryIn(d, r) && GraphClosed(d, r, ids)
    requires (g.Some? ==> ids <= r.nodes.Keys && Written(d, r, live, ids, g.value))
    ensures ids <= r.nodes.Keys && (g.Some? ==> g.value.nodes == ids)
  {
  }

  /** `RelRc::to_serialized`; nothing stands for a panic. It succeeds exactly if no ancestor
      is linked to another registry and the registry is sound. In any case the temporary
      graph is gone afterwards; unless the insertion failed, all ancestors are linked to the
      registry from then on. */
  method WriteRelRc<N, E>(heap: Heap<N, E>, r: RegId, a: Addr, d: Arena<N, E>)
    returns (g: Option<SerGraph<N, E>>, id: NodeId)
    requires heap.Valid() && r < |heap.regs| && heap.regs[r].open && Live(heap.mem, a) && d == heap.log
    modifies heap
    ensures heap.Valid() && Restored(old(heap.State()), heap.State(), r)
    ensures g.Some? <==> old(Insertable(heap.State(), r, {}, a)) && old(RegistrySound(heap.State(), r, a))
    ensures old(Insertable(heap.State(), r, {}, a)) ==>
      AllLinked(heap.State(), r, a) && OthersUnlinked(old(heap.State()), heap.State(), a)
    ensures g.Some? ==> WrittenFor(heap.State(), r, a, g.value, id)
  {
    hide Inv, GraphOk, Grew, Added, Insertable, AncestorClosed, OnlyNew, RegistrySound, Quiet, Took, Runs, KeepsNames,
         WrittenFor, AllLinked, OthersUnlinked, GraphOwns, LiveStamp, SameNodes;
    ghost var w := heap.State();
    g, id := None, 0;
    CloneGrew(w, a, r);
    heap.Clone(a);
    ghost var w1 := heap.State();
    GrewAt(w, w1, r, a);
    InsertableGrew(w, w1, r, {}, a);
    var graph := new HistoryGraph(heap, r);
    ghost var g0 := graph.View();
    assert graph.nodes.Values == {};
    EmptyGraph(w, g0);
    var found; ghost var ops;
    found, ops := graph.InsertAncestors(a);
    ghost var w2 := heap.State();
    CloneTook(w, ops, w2, g0, graph.View(), a);
    FromEmpty(w, [Clone(a)] + ops, w2, g0, graph.View());
    if found.Some? {
      id := found.value;
      AddedGrew(w, w1, r, {}, graph.nodes.Values, a);
      InsertedLinked(w, w2, graph.View(), a);
      GrewLog(w, w2, r);
      g := WriteView(heap, graph, w, a, id, d);
    }
    ghost var graphWas := graph.View();
    ghost var ops' := graph.LetGo(w);
    Together(w, [Clone(a)] + ops, w2, ops', heap.State(), r);
    if found.Some? {
      LinkedGrew(w2, heap.State(), r, a);
      OnlyAncestors(w, w2, heap.State(), graphWas, a);
      if g.Some? { WrittenForStill(w2, heap.State(), r, a, g.value, id); }
    }
  }

  lemma EmptyGraph<N, E>(w: World<N, E>, g: Graph)
    requires g.nodes == map[] && g.reg < |w.regs| && w.regs[g.reg].open
    ensures GraphOk(w, g)
  {
  }

  lemma FromEmpty<N, E>(w: World<N, E>, ops: seq<Op<N, E>>, w': World<N, E>, g: Graph, g': Graph)
    requires Quiet(w, ops, w', g, g') && g.nodes.Values == {}
    ensures Runs(w, ops, w') && Registers(ops, g.reg) && Grew(w, w', g.reg) && w'.weaks == w.weaks && OnlyNew(w, w', g')
    ensures w'.handles == w.handles + multiset(g'.nodes.Values)
  {
    hide Runs, Registers, Grew, OnlyNew, GraphOk, GraphOwns;
    assert g'.nodes.Values - {} == g'.nodes.Values;
  }

  lemma Together<N, E>(w: World<N, E>, s: seq<Op<N, E>>, w1: World<N, E>, t: seq<Op<N, E>>, w2: World<N, E>, r: RegId)
    requires Runs(w, s, w1) && Registers(s, r) && Runs(w1, t, w2) && Registers(t, r)
    ensures KeepsNames(w, w2)
  {
    hide Runs, KeepsNames;
    RunsConcat(w, s, w1, t, w2);
    RegistersKeepsNames(w, s + t, w2, r);
  }

  lemma SameLive<N, E>(w: World<N, E>, w': World<N, E>, r: RegId)
    requires Grew(w, w', r)
    ensures LiveStamps(w'.mem) == LiveStamps(w.mem)
  {
    hide Grew, LiveStamps, LiveStamp;
    GrewLog(w, w', r);
    LiveStampsAre(w.mem);
    LiveStampsAre(w'.mem);
  }

  lemma WrittenForStill<N, E>(w: World<N, E>, w': World<N, E>, r: RegId, a: Addr, g: SerGraph<N, E>, id: NodeId)
    requires WrittenFor(w, r, a, g, id) && Grew(w, w', r) && w'.regs == w.regs
    ensures WrittenFor(w', r, a, g, id)
  {
    hide Grew, LiveStamps, LiveStamp, RegistryView, RegistryIn, AncestorGraph, Written, StampsDistinct;
    GrewLog(w, w', r);
    GrewAt(w, w', r, a);
    SameLive(w, w', r);
  }

  // ----- RelRc::from_serialized, and both -----

  /** `RelRc::from_serialized` of something that was written: it always succeeds, and the
      ancestors of the node that is returned are a copy of those of the node at `a`. */
  method ReadRelRc<N, E>(g: SerGraph<N, E>, id: NodeId, base: Arena<N, E>, ghost w: World<N, E>, ghost r: RegId,
                         ghost a: Addr)
    returns (d': Arena<N, E>, i': nat, ghost f: map<nat, nat>)
    requires WrittenFor(w, r, a, g, id) && WellFounded(base)
    ensures base <= d' && WellFounded(d') && i' < |d'| && Isomorphic(w.log, w.mem[a].stamp, d', i', f)
  {
    hide RegistryView, LiveStamps, AncestorGraph, RegistryIn, Written, Isomorphic, ParentClosed, Acyclic, GraphClosed,
         StampsDistinct, Needed, ContainsId, HandlesIn;
    ghost var v, live, i := RegistryView(w.regs[r]), LiveStamps(w.mem), w.mem[a].stamp;
    AncestorGraphClosed(w.log, v, i, g.nodes);
    ClosedReadable(w.log, v, live, g.nodes, g);
    var ok, d, reg, nodes := ReadGraph(g, base);
    f := RelRcRoundTrip(w.log, v, live, i, g.nodes, g, base, d, reg, nodes);
    d', i' := d, nodes[id];
    assert base <= d' by { ReadOnTop(g, base, d, reg, nodes); }
  }

  lemma ReadOnTop<N, E>(g: SerGraph<N, E>, base: Arena<N, E>, d: Arena<N, E>, reg: Ids, nodes: map<NodeId, nat>)
    requires ReadAs(g, base, d, reg, nodes)
    ensures base <= d
  {
  }

  /** A node is written out and read back: an isomorphic copy of its ancestor graph, exactly
      if it can be written. Afterwards the node cannot be written with any other registry. */
  method SerializeRoundTrip<N, E>(heap: Heap<N, E>, r: RegId, a: Addr, d: Arena<N, E>, base: Arena<N, E>)
    returns (ok: bool, d': Arena<N, E>, i': nat, ghost f: map<nat, nat>)
    requires heap.Valid() && r < |heap.regs| && heap.regs[r].open && Live(heap.mem, a) && d == heap.log
    requires WellFounded(base)
    modifies heap
    ensures heap.Valid() && Restored(old(heap.State()), heap.State(), r)
    ensures ok <==> old(Insertable(heap.State(), r, {}, a)) && old(RegistrySound(heap.State(), r, a))
    ensures ok ==>
      && base <= d'
      && WellFounded(d)
      && old(heap.mem[a].stamp) < |d|
      && WellFounded(d')
      && i' < |d'|
      && Isomorphic(d, old(heap.mem[a].stamp), d', i', f)
    ensures old(Insertable(heap.State(), r, {}, a)) ==> forall q: RegId :: Insertable(heap.State(), q, {}, a) <==>
      q == r
  {
    hide Inv, Grew, Insertable, RegistrySound, KeepsNames, WrittenFor, AllLinked, Isomorphic, LiveStamp;
    ghost var w := heap.State();
    StampBelow(w, a);
    d', i', f := base, 0, map[];
    var g, id := WriteRelRc(heap, r, a, d);
    GrewAt(w, heap.State(), r, a);
    GrewLog(w, heap.State(), r);
    if AllLinked(heap.State(), r, a) {
      forall q: RegId ensures Insertable(heap.State(), q, {}, a) <==> q == r { LinkedElsewhere(heap.State(), r, q, a); }
    }
    ok := g.Some?;
    if ok { d', i', f := ReadRelRc(g.value, id, base, heap.State(), r, a); }
  }

  lemma IssuedIds<N, E>(d: Arena<N, E>, r: Ids, ids: set<NodeId>)
    requires RegistryIn(d, r) && GraphClosed(d, r, ids)
    ensures forall n :: n in ids ==> n < r.nextId
  {
  }

  lemma SameId<N, E>(w: World<N, E>, w': World<N, E>, g: Graph, a: Addr, id: NodeId)
    requires Inv(w) && Inv(w') && GraphOk(w', g) && Grew(w, w', g.reg) && id in g.nodes && g.nodes[id] == a
    ensures StampsDistinct(w'.regs[g.reg]) && Live(w.mem, a)
    ensures w.mem[a].stamp in RegistryView(w'.regs[g.reg]).ptrs
    ensures RegistryView(w'.regs[g.reg]).ptrs[w.mem[a].stamp] == id
  {
    hide Inv, RegistryView;
    GraphEntry(w, w', g, id);
    ViewOk(w', g.reg);
  }
}
