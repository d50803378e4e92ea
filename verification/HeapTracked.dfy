/** How long a registration lasts, over whole runs. */
module HeapTracked {
  import opened HeapModel
  import opened HeapSteps
  import opened HeapNew
  import opened HeapDrop
  import opened HeapOps
  import opened HeapRegistry
  import opened HeapRuns

  /** The registration of node `s` in registry `r` is tracked, and while the node lives
      its entry is `id`. */
  ghost predicate RegisteredAs<N, E>(w: World<N, E>, s: nat, r: RegId, id: NodeId) {
    && r < |w.regs| && s < |w.log| && (s, r) in w.tracked
    && (LiveStamp(w.mem, s) ==> id in w.regs[r].nodes && w.regs[r].nodes[id].stamp == s)
  }

  /** Registering a node makes its registration tracked. */
  lemma RegisterTracks<N, E>(w: World<N, E>, r: RegId, a: Addr)
    requires Inv(w) && r < |w.regs| && w.regs[r].open && Live(w.mem, a) && CanLink(w, r, a)
    ensures var (w', id) := TryRegister(w, r, a);
      Inv(w') && id.Some? && RegisteredAs(w', w.mem[a].stamp, r, id.value)
  {
    hide Core, OutOk, TrackedOk, TryRegister, LiveStamp, CanLink;
    TryRegisterInv(w, r, a);
    StampBelow(w, a);
    var (w', id) := TryRegister(w, r, a);
    assert w'.log == w.log;
  }

  lemma TrackedMeans<N, E>(w: World<N, E>, s: nat, r: RegId)
    requires Inv(w) && (s, r) in w.tracked
    ensures r < |w.regs| && (w.regs[r].open ==> (LiveStamp(w.mem, s) <==> Registered(w.regs[r], s)))
  {
    hide Core, OutOk, LiveStamp, Registered;
  }

  lemma ClosedHasNone<N, E>(w: World<N, E>, r: RegId)
    requires Inv(w) && r < |w.regs| && !w.regs[r].open
    ensures w.regs[r].nodes == map[]
  {
    hide CountsOk, ShapeOk, OutSound, OutOk, TrackedOk;
    assert RegOk(w.regs[r]);
  }

  /** Only the removal of its own id while the node lives ends the tracking of a
      registration. */
  lemma RemoveOther<N, E>(w: World<N, E>, s: nat, r: RegId, id: NodeId, q: RegId, j: NodeId)
    requires Inv(w) && RegisteredAs(w, s, r, id) && q < |w.regs| && j in w.regs[q].nodes
    requires ((q, j) != (r, id) || !LiveStamp(w.mem, s))
    ensures (w.regs[q].nodes[j].stamp, q) != (s, r)
  {
    hide Inv, LiveStamp;
    if (w.regs[q].nodes[j].stamp, q) == (s, r) {
      if !w.regs[r].open { ClosedHasNone(w, r); }
      TrackedMeans(w, s, r);
      assert Registered(w.regs[r], s);
      EntriesDistinct(w, r, j, id);
    }
  }

  lemma TrackedStays<N, E>(w: World<N, E>, op: Op<N, E>, s: nat, r: RegId, id: NodeId)
    requires Inv(w) && Enabled(w, op) && RegisteredAs(w, s, r, id) && (op == RemoveId(r, id) ==> !LiveStamp(w.mem, s))
    ensures (s, r) in Apply(w, op).tracked
  {
    hide Inv, SameNodes, CanCreate, WithParents, Release, AllOutgoing, AddNode, TryRegister, Remove, Owns, PrunedOnly,
         Kept, LiveStamp, RegisteredAs;
    assert (s, r) in w.tracked by { TrackedIn(w, s, r, id); }
    match op {
      case Create(at, value, parents) => WithParentsEffect(w, at, value, parents);
      case Drop(a) => OwnsOne(w, a); ReleaseInv(w, [Strong(a)]);
      case DropLoose(k) => OwnsOneLoose(w, k); ReleaseInv(w, [Loose(k)]);
      case Outgoing(a) => AllOutgoingInv(w, a); PrunedTracked(w, AllOutgoing(w, a).(handles := w.handles), a);
      case Enter(q, a) => AddNodeInv(w, q, a); EnteredTracked(w, AddNode(w, q, a).0, q, a);
      case Register(q, a) => TryRegisterInv(w, q, a); RegisteredTracked(w, q, a);
      case RemoveId(q, j) =>
        if j in w.regs[q].nodes {
          RemoveOther(w, s, r, id, q, j);
          RemoveTracked(w, q, j);
        } else {
          RemoveAbsentTracked(w, q, j);
        }
      case _ =>
    }
  }

  lemma TrackedIn<N, E>(w: World<N, E>, s: nat, r: RegId, id: NodeId)
    requires RegisteredAs(w, s, r, id)
    ensures (s, r) in w.tracked
  {
  }

  lemma PrunedTracked<N, E>(w: World<N, E>, w': World<N, E>, p: Addr)
    requires Live(w.mem, p) && PrunedOnly(w, w', p)
    ensures w'.tracked == w.tracked
  {
  }

  lemma EnteredTracked<N, E>(w: World<N, E>, w': World<N, E>, r: RegId, a: Addr)
    requires r < |w.regs| && Live(w.mem, a) && w' == AddNode(w, r, a).0
    ensures w'.tracked == w.tracked
  {
  }

  lemma RegisteredTracked<N, E>(w: World<N, E>, r: RegId, a: Addr)
    requires Inv(w) && r < |w.regs| && w.regs[r].open && Live(w.mem, a)
    ensures w.tracked <= TryRegister(w, r, a).0.tracked
  {
    hide Inv, TryRegister, Entered;
    TryRegisterInv(w, r, a);
  }

  lemma RemoveTracked<N, E>(w: World<N, E>, r: RegId, id: NodeId)
    requires Inv(w) && r < |w.regs| && id in w.regs[r].nodes
    ensures Remove(w, r, id).tracked == w.tracked - {(w.regs[r].nodes[id].stamp, r)}
  {
    hide Core, OutOk, TrackedOk, Remove, SameNodes;
    RemoveCore(w, r, id);
  }

  lemma RemoveAbsentTracked<N, E>(w: World<N, E>, r: RegId, id: NodeId)
    requires Inv(w) && r < |w.regs| && id !in w.regs[r].nodes
    ensures Remove(w, r, id).tracked == w.tracked
  {
    hide Core, OutOk, TrackedOk, Remove;
    RemoveAbsent(w, r, id);
  }

  lemma StillRegistered<N, E>(w: World<N, E>, op: Op<N, E>, s: nat, r: RegId, id: NodeId)
    requires Inv(w) && Enabled(w, op) && RegisteredAs(w, s, r, id) && (op == RemoveId(r, id) ==> !LiveStamp(w.mem, s))
    ensures Inv(Apply(w, op)) && RegisteredAs(Apply(w, op), s, r, id)
  {
    hide Inv, Apply, Enabled;
    ApplyInv(w, op);
    ApplyEvolves(w, op);
    TrackedStays(w, op, s, r, id);
    var w' := Apply(w, op);
    if LiveStamp(w'.mem, s) {
      var b: Addr :| Live(w'.mem, b) && w'.mem[b].stamp == s;
      assert Live(w.mem, b) && LiveStamp(w.mem, s);
      EntryStays(w, op, r, id);
      IdBelow(w, r, id);
      assert RegEvolves(w.regs[r], w'.regs[r]);
    }
  }

  /** Over any run, a node registered through `try_register_in` has an entry in its
      registry, as long as that exists, exactly while it is alive, and always under the
      same id, unless somebody removes that id while it is alive. */
  lemma {:induction false} RegisteredWhileAlive<N, E>(w: World<N, E>, ops: seq<Op<N, E>>, s: nat, r: RegId, id: NodeId)
    requires Inv(w) && Legal(w, ops) && RegisteredAs(w, s, r, id) && Unremoved(w, ops, r, id, s)
    ensures var w' := Exec(w, ops);
      && RegisteredAs(w', s, r, id)
      && (w'.regs[r].open ==> (LiveStamp(w'.mem, s) <==> Registered(w'.regs[r], s)))
    decreases |ops|
  {
    hide Inv, Enabled, Apply, RegisteredAs, LiveStamp, Registered;
    if ops == [] {
      TrackedIn(w, s, r, id);
      TrackedMeans(w, s, r);
    } else {
      StillRegistered(w, ops[0], s, r, id);
      RegisteredWhileAlive(Apply(w, ops[0]), ops[1..], s, r, id);
    }
  }

  // ----- operations made of several steps -----

  /** What no part of the program does to the names of nodes short of an explicit `remove`:
      values, parents, links and ids evolve as in any run, every node that is still alive
      has all its ids, and every registration goes on. */
  ghost predicate KeepsNames<N, E>(w: World<N, E>, w': World<N, E>) {
    && Evolves(w, w')
    && (forall r, id :: 0 <= r < |w.regs| && id in w.regs[r].nodes && LiveStamp(w'.mem, w.regs[r].nodes[id].stamp) ==>
          id in w'.regs[r].nodes && w'.regs[r].nodes[id] == w.regs[r].nodes[id])
    && (forall s, r, id :: RegisteredAs(w, s, r, id) ==> RegisteredAs(w', s, r, id))
  }

  /** Only dead entries of `r` are removed. */
  ghost predicate FreesDead<N, E>(w: World<N, E>, ops: seq<Op<N, E>>, r: RegId)
    requires r < |w.regs|
  {
    forall op :: op in ops ==>
      op.RemoveId? && op.r == r && op.id in w.regs[r].nodes && !Live(w.mem, w.regs[r].nodes[op.id].addr)
  }

  /** Handles are cloned and dropped, and nodes are registered in `r`; nothing else. */
  ghost predicate Registers<N, E>(ops: seq<Op<N, E>>, r: RegId) {
    forall op :: op in ops ==> op.Clone? || op.Drop? || (op.Register? && op.r == r)
  }

  lemma AliveEntry<N, E>(w: World<N, E>, r: RegId, id: NodeId)
    requires Inv(w) && r < |w.regs| && id in w.regs[r].nodes
    ensures Live(w.mem, w.regs[r].nodes[id].addr) <==> LiveStamp(w.mem, w.regs[r].nodes[id].stamp)
  {
    hide Inv, AllWeak, LiveStamp;
    HeldByRegistry(w, r, id);
    UpgradeExact(w, w.regs[r].nodes[id]);
  }

  lemma FreeUnremoved<N, E>(w: World<N, E>, ops: seq<Op<N, E>>, q: RegId, r: RegId, id: NodeId, s: nat)
    requires Inv(w) && Legal(w, ops) && q < |w.regs| && FreesDead(w, ops, q) && s < |w.log| && r < |w.regs|
    requires LiveStamp(w.mem, s) ==> id in w.regs[r].nodes && w.regs[r].nodes[id].stamp == s
    ensures Unremoved(w, ops, r, id, s)
  {
    hide Inv, LiveStamp, Legal, Unremoved;
    if LiveStamp(w.mem, s) {
      AliveEntry(w, r, id);
      AbsentUnremoved(w, ops, r, id, s);
    } else {
      DeadUnremoved(w, ops, r, id, s);
    }
  }

  lemma KeepsId<N, E>(w: World<N, E>, ops: seq<Op<N, E>>, r: RegId, id: NodeId)
    requires Inv(w) && Legal(w, ops) && 0 <= r < |w.regs| && id in w.regs[r].nodes
    requires Unremoved(w, ops, r, id, w.regs[r].nodes[id].stamp)
    requires LiveStamp(Exec(w, ops).mem, w.regs[r].nodes[id].stamp)
    ensures r < |Exec(w, ops).regs| && id in Exec(w, ops).regs[r].nodes
    ensures Exec(w, ops).regs[r].nodes[id] == w.regs[r].nodes[id]
  {
    hide Inv, LiveStamp, Legal, Unremoved, Exec;
    RunKeepsId(w, ops, r, id);
  }

  /** A run that removes only dead entries keeps all names. */
  lemma FreeKeepsNames<N, E>(w: World<N, E>, ops: seq<Op<N, E>>, w': World<N, E>, q: RegId)
    requires Runs(w, ops, w') && q < |w.regs| && FreesDead(w, ops, q)
    ensures KeepsNames(w, w')
  {
    hide Inv, LiveStamp, Legal, Unremoved, Exec, FreesDead, Evolves;
    RunsInv(w, ops, w');
    forall r, id | 0 <= r < |w.regs| && id in w.regs[r].nodes && LiveStamp(w'.mem, w.regs[r].nodes[id].stamp)
      ensures r < |w'.regs| && id in w'.regs[r].nodes && w'.regs[r].nodes[id] == w.regs[r].nodes[id]
    {
      EntryStamp(w, r, id);
      FreeUnremoved(w, ops, q, r, id, w.regs[r].nodes[id].stamp);
      KeepsId(w, ops, r, id);
    }
    forall s, r, id | RegisteredAs(w, s, r, id) ensures RegisteredAs(w', s, r, id) {
      FreeUnremoved(w, ops, q, r, id, s);
      RegisteredWhileAlive(w, ops, s, r, id);
    }
    EvolvesRegs(w, w');
  }

  lemma EvolvesRegs<N, E>(w: World<N, E>, w': World<N, E>)
    requires Evolves(w, w')
    ensures |w.regs| <= |w'.regs|
  {
  }

  /** A run without explicit removals keeps all names. */
  lemma NoRemovalKeepsNames<N, E>(w: World<N, E>, ops: seq<Op<N, E>>, w': World<N, E>)
    requires Runs(w, ops, w') && forall op :: op in ops ==> !op.RemoveId?
    ensures KeepsNames(w, w')
  {
    hide Inv, LiveStamp, Legal, Unremoved, Exec, Evolves, RegisteredAs;
    RunsInv(w, ops, w');
    forall r, id | 0 <= r < |w.regs| && id in w.regs[r].nodes && LiveStamp(w'.mem, w.regs[r].nodes[id].stamp)
      ensures r < |w'.regs| && id in w'.regs[r].nodes && w'.regs[r].nodes[id] == w.regs[r].nodes[id]
    {
      AbsentUnremoved(w, ops, r, id, w.regs[r].nodes[id].stamp);
      KeepsId(w, ops, r, id);
    }
    forall s, r, id | RegisteredAs(w, s, r, id) ensures RegisteredAs(w', s, r, id) {
      AbsentUnremoved(w, ops, r, id, s);
      RegisteredWhileAlive(w, ops, s, r, id);
    }
    EvolvesRegs(w, w');
  }

  /** So does, in particular, a run that only registers. */
  lemma RegistersKeepsNames<N, E>(w: World<N, E>, ops: seq<Op<N, E>>, w': World<N, E>, q: RegId)
    requires Runs(w, ops, w') && Registers(ops, q)
    ensures KeepsNames(w, w')
  {
    hide Runs, KeepsNames;
    NoRemovalKeepsNames(w, ops, w');
  }
}
