/** The pull protocol (src/detached/mpi.rs:135-272, src/detached/mpi/msg_types.rs) as a
    system of two processes joined by one queue for each message tag. */
module Protocol {
  import opened Prelude
  import opened Dag
  import opened PostOrder
  import opened Detached
  import opened Attach

  // ----- messages -----

  /** `MPIMessage`. */
  datatype Message<N, E> =
    | RelRc(hash: Hash)
    | NodeWeight(weight: N)
    | IncomingEdge(sources: seq<Hash>)
    | EdgeWeight(value: E)
    | RequestRelRc(wanted: Hash)
    | Done

  /** `MPIMessageTag`. */
  datatype Tag = RelRcTag | NodeWeightTag | IncomingEdgeTag | EdgeWeightTag | AckTag

  function TagOf<N, E>(m: Message<N, E>): Tag {
    match m
    case RelRc(_) => RelRcTag
    case NodeWeight(_) => NodeWeightTag
    case IncomingEdge(_) => IncomingEdgeTag
    case EdgeWeight(_) => EdgeWeightTag
    case RequestRelRc(_) => AckTag
    case Done => AckTag
  }

  /** `MPIAck`: both kinds of answers travel as one number, and zero is read as `Done`. */
  function EncodeAck<N, E>(m: Message<N, E>): nat
    requires TagOf(m) == AckTag
  {
    if m.Done? then 0 else m.wanted
  }

  function DecodeAck<N, E>(a: nat): Message<N, E> {
    if a == 0 then Done else RequestRelRc(a)
  }

  /** What the other side reads when `m` is sent. */
  function Arrives<N, E>(m: Message<N, E>): Message<N, E> {
    if TagOf(m) == AckTag then DecodeAck(EncodeAck(m)) else m
  }

  /** Messages arrive as they were sent, except that a request for hash zero arrives as
      `Done`. */
  lemma ArrivesSame<N, E>(m: Message<N, E>)
    ensures TagOf(Arrives(m)) == TagOf(m)
    ensures Arrives(m) == m <==> m != RequestRelRc(0)
  {
  }

  /** The messages under way, in one queue for each tag. */
  type Net<N, E> = map<Tag, seq<Message<N, E>>>

  function Queue<N, E>(net: Net<N, E>, t: Tag): seq<Message<N, E>> {
    if t in net then net[t] else []
  }

  function Put<N, E>(net: Net<N, E>, m: Message<N, E>): Net<N, E> {
    net[TagOf(m) := Queue(net, TagOf(m)) + [Arrives(m)]]
  }

  function Take<N, E>(net: Net<N, E>, t: Tag): Net<N, E>
    requires Queue(net, t) != []
  {
    net[t := Queue(net, t)[1..]]
  }

  // ----- the two processes -----

  /** The messages `mpi_send` sends for one object, in order. */
  function Outgoing<N, E>(k: Hash, x: Data<N, E>): (r: seq<Message<N, E>>)
    ensures |r| == 3 + |x.incoming|
  {
    [RelRc(k), NodeWeight(x.value), IncomingEdge(ParentHashes(x))] + seq(|x.incoming|,
      j requires 0 <= j < |x.incoming| => EdgeWeight(x.incoming[j].1))
  }

  datatype Sender<N, E> = Sending(hash: Hash, data: Data<N, E>, pos: nat) | AwaitAck | SenderDone | SenderPanic

  datatype Receiver<N, E> =
    | Checking
    | WaitRelRc
    | WaitNodeWeight(hash: Hash)
    | WaitIncoming(hash: Hash, weight: N)
    | WaitEdgeWeights(hash: Hash, weight: N, sources: seq<Hash>, incoming: seq<(Hash, E)>)
    | ReceiverDone
    | ReceiverPanic

  /** `sent` records the objects for which `mpi_send` has been called; no step reads it. */
  datatype State<N, E> = State(
    sender: Sender<N, E>,
    receiver: Receiver<N, E>,
    detached: Option<Object<N, E>>,
    net: Net<N, E>,
    sent: seq<Hash>)

  /** Both loops before their first step. */
  function Initial<N, E>(t: Table<N, E>, start: Hash): State<N, E>
    requires start in t
  {
    State(Sending(start, t[start], 0), Checking, None, map[], [start])
  }

  /** A step of `send_relrc`, or nothing if it has to wait or has ended. */
  function SenderNext<N, E>(t: Table<N, E>, c: State<N, E>): Option<State<N, E>> {
    match c.sender
    case Sending(k, x, pos) =>
      if pos < |Outgoing(k, x)|
      then Some(c.(sender := Sending(k, x, pos + 1), net := Put(c.net, Outgoing(k, x)[pos])))
      else Some(c.(sender := AwaitAck))
    case AwaitAck =>
      if Queue(c.net, AckTag) == [] then None
      else
        var m, net := Queue(c.net, AckTag)[0], Take(c.net, AckTag);
        if m.Done? then Some(c.(sender := SenderDone, net := net))
        else if !m.RequestRelRc? || m.wanted !in t then Some(c.(sender := SenderPanic, net := net))
        else Some(c.(sender := Sending(m.wanted, t[m.wanted], 0), net := net, sent := c.sent + [m.wanted]))
    case SenderDone => None
    case SenderPanic => None
  }

  ghost predicate AttachesTo<N, E>(x: Object<N, E>, known: set<Hash>) {
    Required(x) <= known
  }

  /** The top of the loop of `recv_relrc`. Any required hash that is not known may be
      chosen as the next one to ask for. */
  ghost function CheckNext<N, E>(known: set<Hash>, c: State<N, E>, choice: Hash): Option<State<N, E>> {
    if c.detached.None? then Some(c.(receiver := WaitRelRc))
    else if AttachesTo(c.detached.value, known) then Some(c.(receiver := ReceiverDone, net := Put(c.net, Done)))
    else if choice in Required(c.detached.value) && choice !in known then Some(c.(receiver := WaitRelRc,
      net := Put(c.net, RequestRelRc(choice))))
    else None
  }

  /** The object received so far after one more entry. */
  function Insert<N, E>(x: Option<Object<N, E>>, k: Hash, v: Data<N, E>): Object<N, E> {
    match x
    case None => Object(k, map[k := v])
    case Some(o) => Object(o.current, o.allData[k := v])
  }

  /** The state after the receiver has taken `m` from the queue; any message of the wrong
      kind is a panic. */
  function Receive<N, E>(r: Receiver<N, E>, m: Message<N, E>): Receiver<N, E> {
    match r
    case WaitRelRc => if m.RelRc? then WaitNodeWeight(m.hash) else ReceiverPanic
    case WaitNodeWeight(k) => if m.NodeWeight? then WaitIncoming(k, m.weight) else ReceiverPanic
    case WaitIncoming(k, v) => if m.IncomingEdge? then WaitEdgeWeights(k, v, m.sources, []) else ReceiverPanic
    case WaitEdgeWeights(k, v, ps, inc) =>
      if m.EdgeWeight? && |inc| < |ps| then WaitEdgeWeights(k, v, ps, inc + [(ps[|inc|], m.value)]) else ReceiverPanic
    case _ => ReceiverPanic
  }

  function WaitTag<N, E>(r: Receiver<N, E>): Tag {
    match r
    case WaitNodeWeight(_) => NodeWeightTag
    case WaitIncoming(_, _) => IncomingEdgeTag
    case WaitEdgeWeights(_, _, _, _) => EdgeWeightTag
    case _ => RelRcTag
  }

  /** A step of `recv_relrc`, or nothing if it has to wait or has ended. */
  ghost function ReceiverNext<N, E>(known: set<Hash>, c: State<N, E>, choice: Hash): Option<State<N, E>> {
    if c.receiver.ReceiverDone? || c.receiver.ReceiverPanic? then None
    else if c.receiver.Checking? then CheckNext(known, c, choice)
    else if c.receiver.WaitEdgeWeights? && |c.receiver.incoming| == |c.receiver.sources| then
      Some(c.(receiver := Checking, detached := Some(Insert(c.detached, c.receiver.hash,
        Data(c.receiver.weight, c.receiver.incoming)))))
    else
      var q := Queue(c.net, WaitTag(c.receiver));
      if q == [] then None else Some(c.(receiver := Receive(c.receiver, q[0]), net := Take(c.net, WaitTag(c.receiver))))
  }

  datatype Label = SenderMoves | ReceiverMoves(choice: Hash)

  ghost function Next<N, E>(t: Table<N, E>, known: set<Hash>, c: State<N, E>, l: Label): Option<State<N, E>> {
    if l.SenderMoves? then SenderNext(t, c) else ReceiverNext(known, c, l.choice)
  }

  /** The state after the moves of a schedule, if each of them could be made. */
  ghost function Run<N, E>(t: Table<N, E>, known: set<Hash>, start: Hash, ls: seq<Label>): Option<State<N, E>>
    requires start in t
  {
    if ls == [] then Some(Initial(t, start))
    else
      var c := Run(t, known, start, ls[..|ls| - 1]);
      if c.None? then None else Next(t, known, c.value, ls[|ls| - 1])
  }

  // ----- the invariant -----

  function ByTag<N, E>(ms: seq<Message<N, E>>, t: Tag): seq<Message<N, E>> {
    if ms == [] then []
    else ByTag(ms[..|ms| - 1], t) + (if TagOf(ms[|ms| - 1]) == t then [ms[|ms| - 1]] else [])
  }

  /** The messages `ms` are under way, in this order, and no other ones. */
  ghost predicate InFlight<N, E>(net: Net<N, E>, ms: seq<Message<N, E>>) {
    forall t :: Queue(net, t) == ByTag(ms, t)
  }

  lemma {:induction false} ByTagHead<N, E>(ms: seq<Message<N, E>>, t: Tag)
    requires ms != []
    ensures ByTag(ms, t) == (if TagOf(ms[0]) == t then [ms[0]] else []) + ByTag(ms[1..], t)
  {
    if |ms| > 1 {
      var init := ms[..|ms| - 1];
      ByTagHead(init, t);
      assert ms[1..][..|ms| - 2] == init[1..] && ms[1..][|ms| - 2] == ms[|ms| - 1];
    } else {
      assert ms[..0] == [] && ms[1..] == [];
      assert ByTag(ms[..0], t) == [];
    }
  }

  lemma PutInFlight<N, E>(net: Net<N, E>, ms: seq<Message<N, E>>, m: Message<N, E>)
    requires InFlight(net, ms) && m != RequestRelRc(0)
    ensures InFlight(Put(net, m), ms + [m])
  {
    ArrivesSame(m);
    assert (ms + [m])[..|ms|] == ms;
  }

  lemma TakeInFlight<N, E>(net: Net<N, E>, ms: seq<Message<N, E>>)
    requires InFlight(net, ms) && ms != []
    ensures Queue(net, TagOf(ms[0])) != [] && Queue(net, TagOf(ms[0]))[0] == ms[0]
    ensures InFlight(Take(net, TagOf(ms[0])), ms[1..])
  {
    hide ByTag;
    var t := TagOf(ms[0]);
    ByTagHead(ms, t);
    forall t' ensures Queue(Take(net, t), t') == ByTag(ms[1..], t') {
      ByTagHead(ms, t');
    }
  }

  lemma NoneInFlight<N, E>(net: Net<N, E>)
    requires InFlight(net, [])
    ensures forall t :: Queue(net, t) == []
  {
  }

  /** What the sender needs: it has the start and all its ancestors, and no hash is zero. */
  ghost predicate Sendable<N, E>(t: Table<N, E>, start: Hash) {
    start in t && ParentsIn(t) && 0 !in t
  }

  function Got<N, E>(x: Option<Object<N, E>>): Table<N, E> {
    if x.None? then map[] else x.value.allData
  }

  /** The objects sent are wanted ones and all different, and the receiver has those
      before the last one. */
  ghost predicate Collected<N, E>(t: Table<N, E>, known: set<Hash>, start: Hash, sent: seq<Hash>,
                                  x: Option<Object<N, E>>) {
    && sent != [] && sent[0] == start && NoDup(sent)
    && (forall k :: k in sent ==> k in t && Reach(HashGraph(t, known), start, k))
    && (forall k :: k in Got(x) ==> k in sent && Got(x)[k] == t[k])
    && (forall k :: k in sent && k != sent[|sent| - 1] ==> k in Got(x))
    && (x.Some? ==> x.value.current == start && start in Got(x))
  }

  ghost predicate SenderOk<N, E>(t: Table<N, E>, k: Hash, s: Sender<N, E>) {
    || s.AwaitAck? || s.SenderDone?
    || (s.Sending? && k in t && s.hash == k && s.data == t[k] && s.pos <= |Outgoing(k, t[k])|)
  }

  /** How many messages of the current object have been sent. */
  function SentSoFar<N, E>(s: Sender<N, E>, x: Data<N, E>): nat {
    if s.Sending? then s.pos else 3 + |x.incoming|
  }

  /** How many messages of the current object have been received. */
  function ReadSoFar<N, E>(r: Receiver<N, E>): nat {
    match r
    case WaitNodeWeight(_) => 1
    case WaitIncoming(_, _) => 2
    case WaitEdgeWeights(_, _, _, inc) => 3 + |inc|
    case _ => 0
  }

  /** The receiver holds the part of the object that it has read. */
  ghost predicate Partial<N, E>(r: Receiver<N, E>, k: Hash, x: Data<N, E>, first: bool) {
    match r
    case Checking => first
    case WaitRelRc => true
    case WaitNodeWeight(k') => k' == k
    case WaitIncoming(k', v) => k' == k && v == x.value
    case WaitEdgeWeights(k', v, ps, inc) => k' == k && v == x.value && ps == ParentHashes(x) && inc <= x.incoming
    case _ => false
  }

  /** The current object is on its way. */
  ghost predicate Transferring<N, E>(k: Hash, x: Data<N, E>, c: State<N, E>) {
    && Partial(c.receiver, k, x, c.detached.None?) && !c.sender.SenderDone?
    && ReadSoFar(c.receiver) <= SentSoFar(c.sender, x) <= |Outgoing(k, x)|
    && InFlight(c.net, Outgoing(k, x)[ReadSoFar(c.receiver)..SentSoFar(c.sender, x)])
  }

  ghost predicate Asking<N, E>(net: Net<N, E>, known: set<Hash>, x: Object<N, E>, q: Hash) {
    InFlight(net, [RequestRelRc(q)]) && q in Required(x) && q !in known
  }

  /** The current object has been received. */
  ghost predicate Settled<N, E>(known: set<Hash>, x: Data<N, E>, c: State<N, E>) {
    && c.detached.Some? && SentSoFar(c.sender, x) == 3 + |x.incoming|
    && match c.receiver
       case Checking => !c.sender.SenderDone? && InFlight(c.net, [])
       case WaitRelRc => !c.sender.SenderDone? && exists q :: Asking(c.net, known, c.detached.value, q)
       case ReceiverDone => AttachesTo(c.detached.value, known)
         && InFlight(c.net, if c.sender.SenderDone? then [] else [Done])
       case _ => false
  }

  ghost predicate Inv<N, E>(t: Table<N, E>, known: set<Hash>, start: Hash, c: State<N, E>) {
    && Collected(t, known, start, c.sent, c.detached)
    && var k := c.sent[|c.sent| - 1];
       && SenderOk(t, k, c.sender)
       && if k in Got(c.detached) then Settled(known, t[k], c) else Transferring(k, t[k], c)
  }

  lemma InitialInv<N, E>(t: Table<N, E>, known: set<Hash>, start: Hash)
    requires start in t
    ensures Inv(t, known, start, Initial(t, start))
  {
    ReachSelf(HashGraph(t, known), start);
    var c := Initial(t, start);
    hide Reach;
    assert InFlight(c.net, Outgoing(start, t[start])[0..0]);
  }

  // ----- one step at a time -----

  lemma OutgoingTags<N, E>(k: Hash, x: Data<N, E>)
    ensures var out := Outgoing(k, x);
      && out[0] == RelRc(k) && out[1] == NodeWeight(x.value) && out[2] == IncomingEdge(ParentHashes(x))
      && forall j :: 3 <= j < |out| ==> out[j] == EdgeWeight(x.incoming[j - 3].1)
  {
  }

  lemma OutgoingNoAck<N, E>(k: Hash, x: Data<N, E>, j: nat)
    requires j < |Outgoing(k, x)|
    ensures TagOf(Outgoing(k, x)[j]) != AckTag
  {
    hide Outgoing;
    OutgoingTags(k, x);
  }

  lemma SenderSends<N, E>(k: Hash, x: Data<N, E>, c: State<N, E>)
    requires Transferring(k, x, c) && c.sender.Sending? && c.sender.hash == k && c.sender.data == x
    requires c.sender.pos < |Outgoing(k, x)|
    ensures var net := Put(c.net, Outgoing(k, x)[c.sender.pos]);
      Transferring(k, x, c.(sender := Sending(k, x, c.sender.pos + 1), net := net))
  {
    hide InFlight, Outgoing, Put, Partial;
    var out, r, pos := Outgoing(k, x), ReadSoFar(c.receiver), c.sender.pos;
    OutgoingNoAck(k, x, pos);
    PutInFlight(c.net, out[r..pos], out[pos]);
    assert out[r..pos] + [out[pos]] == out[r..pos + 1];
  }

  lemma NoAckFlying<N, E>(k: Hash, x: Data<N, E>, net: Net<N, E>, r: nat, s: nat)
    requires r <= s <= |Outgoing(k, x)| && InFlight(net, Outgoing(k, x)[r..s])
    ensures Queue(net, AckTag) == []
  {
    hide Outgoing;
    forall j | 0 <= j < |Outgoing(k, x)| ensures TagOf(Outgoing(k, x)[j]) != AckTag { OutgoingNoAck(k, x, j); }
    NoSuchTag(Outgoing(k, x)[r..s], AckTag);
  }

  lemma {:induction false} NoSuchTag<N, E>(ms: seq<Message<N, E>>, t: Tag)
    requires forall j :: 0 <= j < |ms| ==> TagOf(ms[j]) != t
    ensures ByTag(ms, t) == []
  {
    if ms != [] { NoSuchTag(ms[..|ms| - 1], t); }
  }

  lemma OneInFlight<N, E>(net: Net<N, E>, m: Message<N, E>)
    requires InFlight(net, [m])
    ensures forall t :: Queue(net, t) == if t == TagOf(m) then [m] else []
    ensures InFlight(Take(net, TagOf(m)), [])
  {
    forall t ensures Queue(net, t) == if t == TagOf(m) then [m] else [] {
      assert [m][..0] == [] && ByTag([m][..0], t) == [];
      assert ByTag([m], t) == if t == TagOf(m) then [m] else [];
    }
    TakeInFlight(net, [m]);
    assert [m][1..] == [];
  }

  /** A hash that the receiver asks for is one the sender has, and is new. */
  lemma AskedKnown<N, E>(t: Table<N, E>, known: set<Hash>, start: Hash, sent: seq<Hash>, x: Object<N, E>, q: Hash)
    requires Sendable(t, start) && Collected(t, known, start, sent, Some(x)) && sent[|sent| - 1] in x.allData
    requires q in Required(x) && q !in known
    ensures q in t && q != 0 && q !in sent && Reach(HashGraph(t, known), start, q)
  {
    hide Reach;
    var k, j :| k in x.allData && 0 <= j < |x.allData[k].incoming| && x.allData[k].incoming[j].0 == q
      && q !in x.allData;
    assert t[k] == x.allData[k] && k in sent;
    var g := HashGraph(t, known);
    assert ParentHashes(t[k])[j] == q;
    assert Edge(g, k, q);
    ReachEdge(g, k, q);
    ReachTrans(g, start, k, q);
  }

  lemma SentMore<N, E>(t: Table<N, E>, known: set<Hash>, start: Hash, sent: seq<Hash>, x: Object<N, E>, q: Hash)
    requires Collected(t, known, start, sent, Some(x)) && sent[|sent| - 1] in x.allData
    requires q in t && q !in sent && Reach(HashGraph(t, known), start, q)
    ensures Collected(t, known, start, sent + [q], Some(x)) && q !in x.allData
  {
    hide Reach;
    NoDupSnoc(sent, q);
  }

  lemma SenderKeeps<N, E>(t: Table<N, E>, known: set<Hash>, start: Hash, c: State<N, E>)
    requires Sendable(t, start) && Inv(t, known, start, c) && SenderNext(t, c).Some?
    ensures Inv(t, known, start, SenderNext(t, c).value)
  {
    hide Sendable, InFlight, Outgoing, Put, Take, Partial, Required, Collected;
    var k := LastSent(t, known, start, c);
    if c.sender.Sending? {
      if c.sender.pos < |Outgoing(k, t[k])| { SenderSends(k, t[k], c); }
    } else if k !in Got(c.detached) {
      NoAckFlying(k, t[k], c.net, ReadSoFar(c.receiver), SentSoFar(c.sender, t[k]));
    } else {
      AckKeeps(t, known, start, c);
    }
  }

  lemma LastSent<N, E>(t: Table<N, E>, known: set<Hash>, start: Hash, c: State<N, E>) returns (k: Hash)
    requires Collected(t, known, start, c.sent, c.detached)
    ensures c.sent != [] && k == c.sent[|c.sent| - 1] && k in t
  {
    k := c.sent[|c.sent| - 1];
  }

  lemma AckKeeps<N, E>(t: Table<N, E>, known: set<Hash>, start: Hash, c: State<N, E>)
    requires Sendable(t, start) && Inv(t, known, start, c) && c.sender.AwaitAck? && SenderNext(t, c).Some?
    requires c.sent[|c.sent| - 1] in Got(c.detached)
    ensures Inv(t, known, start, SenderNext(t, c).value)
  {
    hide Sendable, InFlight, Outgoing, Put, Take, Required, Collected, Queue;
    var k := LastSent(t, known, start, c);
    if c.receiver.Checking? {
      NoneInFlight(c.net);
    } else if c.receiver.ReceiverDone? {
      OneInFlight(c.net, Done);
    } else {
      var q :| Asking(c.net, known, c.detached.value, q);
      OneInFlight(c.net, RequestRelRc(q));
      AskedKnown(t, known, start, c.sent, c.detached.value, q);
      SentMore(t, known, start, c.sent, c.detached.value, q);
      assert Outgoing(q, t[q])[0..0] == [];
    }
  }

  lemma PutAlone<N, E>(net: Net<N, E>, m: Message<N, E>)
    requires InFlight(net, []) && m != RequestRelRc(0)
    ensures InFlight(Put(net, m), [m])
  {
    hide InFlight;
    PutInFlight(net, [], m);
    assert [] + [m] == [m];
  }

  lemma CheckKeeps<N, E>(t: Table<N, E>, known: set<Hash>, start: Hash, c: State<N, E>, choice: Hash)
    requires Sendable(t, start) && Inv(t, known, start, c) && c.receiver.Checking? && CheckNext(known, c, choice).Some?
    ensures Inv(t, known, start, CheckNext(known, c, choice).value)
  {
    hide Sendable, InFlight, Outgoing, Put, Required, Collected;
    var k := LastSent(t, known, start, c);
    if c.detached.Some? {
      if AttachesTo(c.detached.value, known) {
        PutAlone(c.net, Done);
      } else {
        AskedKnown(t, known, start, c.sent, c.detached.value, choice);
        PutAlone(c.net, RequestRelRc(choice));
        assert Asking(Put(c.net, RequestRelRc(choice)), known, c.detached.value, choice);
      }
    }
  }

  lemma InsertCollected<N, E>(t: Table<N, E>, known: set<Hash>, start: Hash, sent: seq<Hash>, x: Option<Object<N, E>>)
    requires Collected(t, known, start, sent, x) && sent[|sent| - 1] !in Got(x)
    ensures var k := sent[|sent| - 1];
      Collected(t, known, start, sent, Some(Insert(x, k, t[k]))) && k in Got(Some(Insert(x, k, t[k])))
  {
    hide Reach, HashGraph;
    var k := sent[|sent| - 1];
    assert sent[0] in sent;
    assert x.None? && start != k ==> start in Got(x);
  }

  lemma InsertKeeps<N, E>(t: Table<N, E>, known: set<Hash>, start: Hash, c: State<N, E>)
    requires Inv(t, known, start, c) && c.receiver.WaitEdgeWeights? && |c.receiver.incoming| == |c.receiver.sources|
    ensures var x := Insert(c.detached, c.receiver.hash, Data(c.receiver.weight, c.receiver.incoming));
      Inv(t, known, start, c.(receiver := Checking, detached := Some(x)))
  {
    hide InFlight, Outgoing, Collected, Insert;
    var k := LastSent(t, known, start, c);
    var x := t[k];
    assert c.receiver.incoming == x.incoming && Data(c.receiver.weight, c.receiver.incoming) == x;
    InsertCollected(t, known, start, c.sent, c.detached);
    assert Outgoing(k, x)[|Outgoing(k, x)|..|Outgoing(k, x)|] == [];
  }

  /** The next message of the object is one the receiver expects. */
  lemma ReadNext<N, E>(r: Receiver<N, E>, k: Hash, x: Data<N, E>, first: bool)
    requires Partial(r, k, x, first) && !r.Checking? && ReadSoFar(r) < |Outgoing(k, x)|
    ensures WaitTag(r) == TagOf(Outgoing(k, x)[ReadSoFar(r)])
    ensures var r' := Receive(r, Outgoing(k, x)[ReadSoFar(r)]);
      Partial(r', k, x, first) && ReadSoFar(r') == ReadSoFar(r) + 1
  {
    hide Outgoing;
    OutgoingTags(k, x);
  }

  lemma TakeKeeps<N, E>(t: Table<N, E>, known: set<Hash>, start: Hash, c: State<N, E>, choice: Hash)
    requires Inv(t, known, start, c) && !c.receiver.Checking? && ReceiverNext(known, c, choice).Some?
    requires !(c.receiver.WaitEdgeWeights? && |c.receiver.incoming| == |c.receiver.sources|)
    ensures Inv(t, known, start, ReceiverNext(known, c, choice).value)
  {
    hide InFlight, Outgoing, Collected, Take, Queue, Receive, Partial;
    var k := LastSent(t, known, start, c);
    var x := t[k];
    if k in Got(c.detached) {
      QuietWhenAsking(t, known, start, c);
    } else {
      var out, r, s := Outgoing(k, x), ReadSoFar(c.receiver), SentSoFar(c.sender, x);
      if r == s {
        assert out[r..s] == [];
        NoneInFlight(c.net);
      } else {
        TakeInFlight(c.net, out[r..s]);
        assert out[r..s][0] == out[r] && out[r..s][1..] == out[r + 1..s];
        ReadNext(c.receiver, k, x, c.detached.None?);
      }
    }
  }

  lemma QuietWhenAsking<N, E>(t: Table<N, E>, known: set<Hash>, start: Hash, c: State<N, E>)
    requires Inv(t, known, start, c) && c.sent[|c.sent| - 1] in Got(c.detached)
    ensures c.receiver.Checking? || c.receiver.ReceiverDone? || (c.receiver.WaitRelRc? && Queue(c.net, RelRcTag) == [])
  {
    hide InFlight, Collected, Queue;
    if c.receiver.WaitRelRc? {
      var q :| Asking(c.net, known, c.detached.value, q);
      OneInFlight(c.net, RequestRelRc(q));
    }
  }

  /** Every step of either process keeps the invariant. */
  lemma StepKeeps<N, E>(t: Table<N, E>, known: set<Hash>, start: Hash, c: State<N, E>, l: Label)
    requires Sendable(t, start) && Inv(t, known, start, c) && Next(t, known, c, l).Some?
    ensures Inv(t, known, start, Next(t, known, c, l).value)
  {
    hide Sendable, Inv, CheckNext, SenderNext;
    if l.SenderMoves? {
      SenderKeeps(t, known, start, c);
    } else if c.receiver.Checking? {
      CheckKeeps(t, known, start, c, l.choice);
    } else if c.receiver.WaitEdgeWeights? && |c.receiver.incoming| == |c.receiver.sources| {
      InsertKeeps(t, known, start, c);
    } else {
      TakeKeeps(t, known, start, c, l.choice);
    }
  }

  lemma {:induction false} RunInv<N, E>(t: Table<N, E>, known: set<Hash>, start: Hash, ls: seq<Label>)
    requires Sendable(t, start) && Run(t, known, start, ls).Some?
    ensures Inv(t, known, start, Run(t, known, start, ls).value)
  {
    hide Inv, Next, Initial;
    if ls == [] {
      InitialInv(t, known, start);
    } else {
      RunInv(t, known, start, ls[..|ls| - 1]);
      StepKeeps(t, known, start, Run(t, known, start, ls[..|ls| - 1]).value, ls[|ls| - 1]);
    }
  }

  // ----- progress -----

  ghost predicate Finished<N, E>(c: State<N, E>) {
    c.sender.SenderDone? && c.receiver.ReceiverDone? && forall t :: Queue(c.net, t) == []
  }

  /** A step that MPI allows even if sends block until the other side waits for a message
      with that tag (`MPIMode::Standard`). */
  ghost predicate Rendezvous<N, E>(c: State<N, E>, l: Label) {
    if l.SenderMoves? then
      c.sender.Sending? && c.sender.pos < |Outgoing(c.sender.hash, c.sender.data)| ==>
        !c.receiver.Checking? && WaitTag(c.receiver) == TagOf(Outgoing(c.sender.hash, c.sender.data)[c.sender.pos])
    else
      c.receiver.Checking? && c.detached.Some? ==> c.sender.AwaitAck?
  }

  /** Unless both processes have ended and all queues are empty, some process can make a
      step, even if sends block. */
  lemma CanStep<N, E>(t: Table<N, E>, known: set<Hash>, start: Hash, c: State<N, E>) returns (l: Label)
    requires Sendable(t, start) && Inv(t, known, start, c)
    ensures (Next(t, known, c, l).Some? && Rendezvous(c, l)) || Finished(c)
  {
    hide Sendable, InFlight, Outgoing, Collected, Take, Put, Required, Insert, Queue, Receive;
    var k := LastSent(t, known, start, c);
    if k !in Got(c.detached) {
      l := CanTransfer(t, known, k, c);
    } else if c.sender.Sending? {
      l := SenderMoves;
    } else if c.receiver.Checking? {
      if !AttachesTo(c.detached.value, known) {
        var q :| q in Required(c.detached.value) && q !in known;
        l := ReceiverMoves(q);
      } else {
        l := ReceiverMoves(0);
      }
    } else {
      l := SenderMoves;
      if c.receiver.ReceiverDone? {
        if c.sender.SenderDone? { NoneInFlight(c.net); } else { OneInFlight(c.net, Done); }
      } else {
        var q :| Asking(c.net, known, c.detached.value, q);
        OneInFlight(c.net, RequestRelRc(q));
      }
    }
  }

  /** While an object is on its way: the receiver reads what is in the queue; if nothing is,
      it waits for exactly the message that the sender sends next. */
  lemma CanTransfer<N, E>(t: Table<N, E>, known: set<Hash>, k: Hash, c: State<N, E>) returns (l: Label)
    requires k in t && SenderOk(t, k, c.sender) && Transferring(k, t[k], c)
    ensures Next(t, known, c, l).Some? && Rendezvous(c, l)
  {
    hide InFlight, Outgoing, Take, Put, Queue, Receive, Insert;
    var x := t[k];
    var out, r, s := Outgoing(k, x), ReadSoFar(c.receiver), SentSoFar(c.sender, x);
    l := ReceiverMoves(0);
    if !c.receiver.Checking? && r < |out| {
      ReadNext(c.receiver, k, x, c.detached.None?);
      if r < s {
        TakeInFlight(c.net, out[r..s]);
        assert out[r..s][0] == out[r];
      } else {
        l := SenderMoves;
      }
    }
  }

  // ----- termination -----

  ghost predicate Bounded<N, E>(t: Table<N, E>, most: nat) {
    forall k :: k in t ==> |t[k].incoming| <= most
  }

  ghost function SenderLeft<N, E>(s: Sender<N, E>): nat {
    if s.Sending? then 4 + |s.data.incoming| - Min(s.pos, 3 + |s.data.incoming|) else 0
  }

  function Min(a: nat, b: nat): nat {
    if a < b then a else b
  }

  ghost function ReceiverLeft<N, E>(x: Data<N, E>, c: State<N, E>, settled: bool): nat {
    if settled then (if c.receiver.Checking? then 2 else 0)
    else if c.receiver.Checking? then 7 + |x.incoming|
    else 6 + |x.incoming| - Min(ReadSoFar(c.receiver), 3 + |x.incoming|)
  }

  /** A bound on the number of steps still to come. */
  ghost function Remaining<N, E>(t: Table<N, E>, most: nat, c: State<N, E>): nat
    requires c.sent != [] && c.sent[|c.sent| - 1] in t
  {
    var k := c.sent[|c.sent| - 1];
    Left(t.Keys, Elements(c.sent)) * (2 * most + 11) + SenderLeft(c.sender) + ReceiverLeft(t[k], c,
      k in Got(c.detached)) + |Queue(c.net, AckTag)|
  }

  lemma OtherQueues<N, E>(net: Net<N, E>, m: Message<N, E>, t: Tag)
    ensures TagOf(m) != AckTag ==> Queue(Put(net, m), AckTag) == Queue(net, AckTag)
    ensures TagOf(m) == AckTag ==> |Queue(Put(net, m), AckTag)| == |Queue(net, AckTag)| + 1
    ensures Queue(net, t) != [] && t != AckTag ==> Queue(Take(net, t), AckTag) == Queue(net, AckTag)
    ensures Queue(net, AckTag) != [] ==> |Queue(Take(net, AckTag), AckTag)| == |Queue(net, AckTag)| - 1
  {
  }

  lemma SenderLess<N, E>(t: Table<N, E>, known: set<Hash>, start: Hash, most: nat, c: State<N, E>)
    requires Sendable(t, start) && Bounded(t, most) && Inv(t, known, start, c) && SenderNext(t, c).Some?
    requires Inv(t, known, start, SenderNext(t, c).value)
    ensures var c' := SenderNext(t, c).value;
      c.sent[|c.sent| - 1] in t && c'.sent[|c'.sent| - 1] in t && Remaining(t, most, c') < Remaining(t, most, c)
  {
    hide Sendable, Bounded, InFlight, Outgoing, Collected, Take, Put, Partial, Required, Queue, Left, Elements;
    var c' := SenderNext(t, c).value;
    var k := LastSent(t, known, start, c);
    var k' := LastSent(t, known, start, c');
    if c.sender.Sending? {
      if c.sender.pos < |Outgoing(k, t[k])| {
        OtherQueues(c.net, Outgoing(k, t[k])[c.sender.pos], RelRcTag);
        OutgoingNoAck(k, t[k], c.sender.pos);
      }
    } else {
      OtherQueues(c.net, Done, AckTag);
      if k !in Got(c.detached) {
        NoAckFlying(k, t[k], c.net, ReadSoFar(c.receiver), SentSoFar(c.sender, t[k]));
      } else if c.receiver.Checking? {
        NoneInFlight(c.net);
      } else if c.receiver.ReceiverDone? {
        OneInFlight(c.net, Done);
      } else {
        RequestLess(t, known, start, most, c);
      }
    }
  }

  lemma LeftLess(t: set<Hash>, sent: seq<Hash>, q: Hash, w: nat)
    requires q in t && q !in sent
    ensures Left(t, Elements(sent)) * w == Left(t, Elements(sent + [q])) * w + w
  {
    assert Elements(sent + [q]) == Elements(sent) + {q};
    assert t - Elements(sent) == (t - Elements(sent + [q])) + {q};
    assert Left(t, Elements(sent)) == Left(t, Elements(sent + [q])) + 1;
  }

  lemma RequestLess<N, E>(t: Table<N, E>, known: set<Hash>, start: Hash, most: nat, c: State<N, E>)
    requires Sendable(t, start) && Bounded(t, most) && Inv(t, known, start, c) && c.sender.AwaitAck?
    requires c.receiver.WaitRelRc?
    requires c.sent[|c.sent| - 1] in Got(c.detached) && SenderNext(t, c).Some?
    ensures var c' := SenderNext(t, c).value;
      c.sent[|c.sent| - 1] in t && c'.sent != [] && c'.sent[|c'.sent| - 1] in t
        && Remaining(t, most, c') < Remaining(t, most, c)
  {
    hide Sendable, InFlight, Outgoing, Collected, Take, Put, Required, Queue, Left, Elements;
    var k := LastSent(t, known, start, c);
    var q :| Asking(c.net, known, c.detached.value, q);
    OneInFlight(c.net, RequestRelRc(q));
    OtherQueues(c.net, Done, AckTag);
    AskedKnown(t, known, start, c.sent, c.detached.value, q);
    SentMore(t, known, start, c.sent, c.detached.value, q);
    LeftLess(t.Keys, c.sent, q, 2 * most + 11);
  }

  lemma ReceiverLess<N, E>(t: Table<N, E>, known: set<Hash>, start: Hash, most: nat, c: State<N, E>, choice: Hash)
    requires Inv(t, known, start, c) && ReceiverNext(known, c, choice).Some?
    requires Inv(t, known, start, ReceiverNext(known, c, choice).value)
    ensures var c' := ReceiverNext(known, c, choice).value;
      c.sent[|c.sent| - 1] in t && c'.sent[|c'.sent| - 1] in t && Remaining(t, most, c') < Remaining(t, most, c)
  {
    hide InFlight, Outgoing, Take, Put, Required, Queue, Left, Elements, Collected;
    var c' := ReceiverNext(known, c, choice).value;
    var k := LastSent(t, known, start, c);
    if c.receiver.Checking? {
      OtherQueues(c.net, Done, RelRcTag);
      OtherQueues(c.net, RequestRelRc(choice), RelRcTag);
    } else if c.receiver.WaitEdgeWeights? && |c.receiver.incoming| == |c.receiver.sources| {
    } else {
      OtherQueues(c.net, Done, WaitTag(c.receiver));
      QuietUnless(t, known, start, c);
      ReadMore(c.receiver, Queue(c.net, WaitTag(c.receiver))[0]);
    }
  }

  lemma QuietUnless<N, E>(t: Table<N, E>, known: set<Hash>, start: Hash, c: State<N, E>)
    requires Inv(t, known, start, c) && !c.receiver.Checking? && !c.receiver.ReceiverDone?
    requires Queue(c.net, WaitTag(c.receiver)) != []
    ensures c.sent[|c.sent| - 1] !in Got(c.detached)
  {
    hide InFlight, Queue, Collected, Transferring, Settled;
    var k := LastSent(t, known, start, c);
    if k in Got(c.detached) { QuietWhenAsking(t, known, start, c); }
  }

  lemma ReadMore<N, E>(r: Receiver<N, E>, m: Message<N, E>)
    ensures Receive(r, m).ReceiverPanic? || ReadSoFar(Receive(r, m)) == ReadSoFar(r) + 1
  {
  }

  lemma StepLess<N, E>(t: Table<N, E>, known: set<Hash>, start: Hash, most: nat, c: State<N, E>, l: Label)
    requires Sendable(t, start) && Bounded(t, most) && Inv(t, known, start, c) && Next(t, known, c, l).Some?
    ensures var c' := Next(t, known, c, l).value;
      && Inv(t, known, start, c') && c.sent != [] && c.sent[|c.sent| - 1] in t && c'.sent != []
        && c'.sent[|c'.sent| - 1] in t
      && Remaining(t, most, c') < Remaining(t, most, c)
  {
    hide Sendable, Bounded, Remaining, SenderNext, ReceiverNext, Transferring, Settled, SenderOk;
    StepKeeps(t, known, start, c, l);
    if l.SenderMoves? {
      SenderLess(t, known, start, most, c);
    } else {
      ReceiverLess(t, known, start, most, c, l.choice);
    }
  }

  lemma {:induction false} RunRemaining<N, E>(t: Table<N, E>, known: set<Hash>, start: Hash, most: nat, ls: seq<Label>)
    requires Sendable(t, start) && Bounded(t, most) && Run(t, known, start, ls).Some?
    ensures var c := Run(t, known, start, ls).value;
      && Inv(t, known, start, c) && c.sent != [] && c.sent[|c.sent| - 1] in t
      && |ls| + Remaining(t, most, c) <= Remaining(t, most, Initial(t, start))
  {
    hide Bounded, Inv, Next, Remaining;
    if ls == [] {
      InitialInv(t, known, start);
    } else {
      RunRemaining(t, known, start, most, ls[..|ls| - 1]);
      StepLess(t, known, start, most, Run(t, known, start, ls[..|ls| - 1]).value, ls[|ls| - 1]);
    }
  }

  lemma InitialRemaining<N, E>(t: Table<N, E>, most: nat, start: Hash)
    requires start in t && Bounded(t, most)
    ensures Remaining(t, most, Initial(t, start)) <= |t| * (2 * most + 11)
  {
    hide Elements, Left;
    LeftLess(t.Keys, [], start, 2 * most + 11);
    assert [] + [start] == [start];
    assert Left(t.Keys, Elements([])) == |t| by { LeftAll(t.Keys); }
  }

  lemma LeftAll(t: set<Hash>)
    ensures Left(t, Elements([])) == |t|
  {
    assert t - Elements([]) == t;
  }

  // ----- main results -----

  /** The protocol always ends: no schedule has more than this many moves. */
  lemma RunsEnd<N, E>(t: Table<N, E>, known: set<Hash>, start: Hash, most: nat, ls: seq<Label>)
    requires Sendable(t, start) && Bounded(t, most) && Run(t, known, start, ls).Some?
    ensures |ls| <= |t| * (2 * most + 11)
  {
    hide Sendable, Bounded, Run, Remaining, Inv;
    assert start in t by { SendableHas(t, start); }
    RunRemaining(t, known, start, most, ls);
    InitialRemaining(t, most, start);
  }

  lemma SendableHas<N, E>(t: Table<N, E>, start: Hash)
    requires Sendable(t, start)
    ensures start in t
  {
  }

  /** In every reachable state no process has panicked, each object has been sent at most
      once, and every hash asked for is one the sender has. */
  lemma RunSafe<N, E>(t: Table<N, E>, known: set<Hash>, start: Hash, ls: seq<Label>)
    requires Sendable(t, start) && Run(t, known, start, ls).Some?
    ensures var c := Run(t, known, start, ls).value;
      && !c.sender.SenderPanic? && !c.receiver.ReceiverPanic?
      && NoDup(c.sent)
      && (forall k :: k in c.sent ==> k in t && Reach(HashGraph(t, known), start, k))
      && (forall q :: RequestRelRc(q) in Queue(c.net, AckTag) ==> q in t && q !in c.sent && q !in known)
  {
    hide Run, Reach, InFlight, Outgoing, Required, NoDup, Queue;
    RunInv(t, known, start, ls);
    var c := Run(t, known, start, ls).value;
    var k := c.sent[|c.sent| - 1];
    if k !in Got(c.detached) {
      NoAckFlying(k, t[k], c.net, ReadSoFar(c.receiver), SentSoFar(c.sender, t[k]));
    } else {
      AckSafe(t, known, start, c);
    }
  }

  lemma AckSafe<N, E>(t: Table<N, E>, known: set<Hash>, start: Hash, c: State<N, E>)
    requires Sendable(t, start) && Inv(t, known, start, c) && c.sent[|c.sent| - 1] in Got(c.detached)
    ensures forall q :: RequestRelRc(q) in Queue(c.net, AckTag) ==> q in t && q !in c.sent && q !in known
  {
    hide Sendable, InFlight, Outgoing, Collected, Required, Queue;
    var k := LastSent(t, known, start, c);
    if c.receiver.Checking? || c.sender.SenderDone? {
      NoneInFlight(c.net);
    } else if c.receiver.ReceiverDone? {
      OneInFlight(c.net, Done);
    } else {
      var q :| Asking(c.net, known, c.detached.value, q);
      OneInFlight(c.net, RequestRelRc(q));
      AskedKnown(t, known, start, c.sent, c.detached.value, q);
    }
  }

  /** In every reachable state some process can move, even if sends block until the other
      side waits for the message, unless both have ended with nothing left in any queue. */
  lemma NeverStuck<N, E>(t: Table<N, E>, known: set<Hash>, start: Hash, ls: seq<Label>)
    requires Sendable(t, start) && Run(t, known, start, ls).Some?
    ensures var c := Run(t, known, start, ls).value;
      Finished(c) || exists l :: Rendezvous(c, l) && Run(t, known, start, ls + [l]).Some?
  {
    hide Run, Inv, Next, Finished, Rendezvous;
    RunInv(t, known, start, ls);
    var c := Run(t, known, start, ls).value;
    var l := CanStep(t, known, start, c);
    OneMore(t, known, start, ls, l);
  }

  lemma OneMore<N, E>(t: Table<N, E>, known: set<Hash>, start: Hash, ls: seq<Label>, l: Label)
    requires start in t && Run(t, known, start, ls).Some?
    ensures Run(t, known, start, ls + [l]) == Next(t, known, Run(t, known, start, ls).value, l)
  {
    hide Next;
    assert (ls + [l])[..|ls|] == ls;
  }

  /** When both have ended, the receiver has exactly the entries reached from the start
      without entering a known hash, each with the sender's content, and exactly those
      have been sent. */
  lemma FinishedExact<N, E>(t: Table<N, E>, known: set<Hash>, start: Hash, ls: seq<Label>)
    requires Sendable(t, start) && Run(t, known, start, ls).Some? && Finished(Run(t, known, start, ls).value)
    ensures var c := Run(t, known, start, ls).value;
      && c.detached.Some? && c.detached.value.current == start
      && (forall k :: k in c.detached.value.allData <==> Reach(HashGraph(t, known), start, k))
      && (forall k :: k in c.detached.value.allData ==> k in t && c.detached.value.allData[k] == t[k])
      && Required(c.detached.value) <= known
      && NoDup(c.sent) && Elements(c.sent) == c.detached.value.allData.Keys
  {
    hide Run, InFlight, Outgoing, Required, Reach, NoDup;
    RunInv(t, known, start, ls);
    var c := Run(t, known, start, ls).value;
    var x := c.detached.value;
    forall k | Reach(HashGraph(t, known), start, k) ensures k in x.allData {
      PulledAll(t, known, start, c.sent, x, k);
    }
  }

  lemma PulledAll<N, E>(t: Table<N, E>, known: set<Hash>, start: Hash, sent: seq<Hash>, x: Object<N, E>, k: Hash)
    requires Collected(t, known, start, sent, Some(x)) && Required(x) <= known && Reach(HashGraph(t, known), start, k)
    ensures k in x.allData
  {
    var g := HashGraph(t, known);
    var n: nat :| ReachIn(g, start, k, n);
    hide Reach;
    forall v, u | v in x.allData && Edge(g, v, u) ensures u in x.allData {
      assert v in t && t[v] == x.allData[v];
      var j :| 0 <= j < |t[v].incoming| && ParentHashes(t[v])[j] == u;
      assert u !in x.allData ==> u in Required(x);
    }
    ClosedReach(g, x.allData.Keys, start, k, n);
  }

  // ----- the protocol refines detach -----

  lemma DetachSendable<N(!new), E(!new)>(h: Hasher<N, E>, s: Arena<N, E>, i: nat)
    requires GoodHash(h) && WellFounded(s) && i < |s|
    ensures var x := Detach(h, s, i, {});
      Sendable(x.allData, x.current) && Genuine(h, x.allData) && ParentsIn(x.allData) && x.current == HashOf(h, s, i)
  {
    hide WellFounded, HashOf, Contents, Reach;
    var t, start, x := Contents(h, s), HashOf(h, s, i), Detach(h, s, i, {});
    ContentsClosed(h, s);
    HasContent(h, s, i);
    ReachSelf(HashGraph(t, {}), start);
    assert Genuine(h, x.allData);
    forall k, j | k in x.allData && 0 <= j < |x.allData[k].incoming| ensures x.allData[k].incoming[j].0 in x.allData {
      var p := x.allData[k].incoming[j].0;
      assert ParentHashes(t[k])[j] == p;
      WithinClosed(t, {}, start, k, p);
    }
  }

  /** A run in which node `i` of process `s` is sent to a process that knows `known`. */
  ghost function Transfer<N(!new), E(!new)>(h: Hasher<N, E>, s: Arena<N, E>, i: nat, known: set<Hash>,
                                            ls: seq<Label>): Option<State<N, E>>
    requires GoodHash(h) && WellFounded(s) && i < |s|
  {
    DetachSendable(h, s, i);
    Run(Detach(h, s, i, {}).allData, known, HashOf(h, s, i), ls)
  }

  /** Whatever the schedule, if the node is not known to the receiver then at the end the
      receiver holds what detaching the node from the known hashes would have given. */
  lemma RefinesDetach<N(!new), E(!new)>(h: Hasher<N, E>, s: Arena<N, E>, i: nat, known: set<Hash>, ls: seq<Label>)
    requires GoodHash(h) && WellFounded(s) && i < |s| && HashOf(h, s, i) !in known
    requires Transfer(h, s, i, known, ls).Some? && Finished(Transfer(h, s, i, known, ls).value)
    ensures Transfer(h, s, i, known, ls).value.detached == Some(Detach(h, s, i, known))
  {
    hide GoodHash, WellFounded, HashOf, Contents, Run, Finished, Sendable, Genuine, ParentsIn, Required, Elements,
         NoDup, Reach;
    var x := Detach(h, s, i, {});
    var t, u, start := x.allData, Contents(h, s), HashOf(h, s, i);
    DetachSendable(h, s, i);
    ContentsClosed(h, s);
    HasContent(h, s, i);
    SendableHas(t, start);
    FinishedExact(t, known, start, ls);
    var y := Run(t, known, start, ls).value.detached.value;
    forall k ensures Within(t, known, start, k) ==> Within(u, known, start, k) && k in u && t[k] == u[k] {
      if Within(t, known, start, k) { WithinSame(h, t, u, known, start, k); }
    }
    forall k ensures Within(u, known, start, k) ==> Within(t, known, start, k) {
      if Within(u, known, start, k) { WithinSame(h, u, t, known, start, k); }
    }
    assert y.allData == Detach(h, s, i, known).allData;
  }

  /** The object received never lacks an entry when it is attached; attaching it can only
      fail because of the order in which it is rebuilt. */
  lemma ReceivedAttaches<N(!new), E(!new)>(h: Hasher<N, E>, s: Arena<N, E>, i: nat, known: set<Hash>, ls: seq<Label>)
    requires GoodHash(h) && WellFounded(s) && i < |s|
    requires Transfer(h, s, i, known, ls).Some? && Finished(Transfer(h, s, i, known, ls).value)
    ensures var x := Transfer(h, s, i, known, ls).value.detached;
      && x.Some? && Comes(h, s, x.value.allData) && Complete(x.value, known)
      && (CrossFree(HashGraph(x.value.allData, known), HashOf(h, s, i)) ==> AttachOk(x.value, known))
  {
    hide GoodHash, WellFounded, HashOf, Contents, Run, Finished, Sendable, Genuine, ParentsIn, Required, Elements,
         NoDup, Reach, Within, AttachOk, Complete, CrossFree;
    var x := Detach(h, s, i, {});
    DetachSendable(h, s, i);
    DetachComes(h, s, i, {});
    SendableHas(x.allData, x.current);
    FinishedExact(x.allData, known, x.current, ls);
    var y := Run(x.allData, known, x.current, ls).value.detached.value;
    assert y.current in y.allData by { ReachSelf(HashGraph(x.allData, known), x.current); }
    AttachesToComplete(y, known);
    if CrossFree(HashGraph(y.allData, known), y.current) { CrossFreeAttaches(h, s, y, known); }
  }

  // ----- why hashes must not be zero -----

  ghost predicate Stuck<N, E>(t: Table<N, E>, known: set<Hash>, c: State<N, E>) {
    c.sender.SenderDone? && c.receiver.WaitRelRc? && forall l :: Next(t, known, c, l) == None
  }

  lemma AskForZero<N, E>(t: Table<N, E>, known: set<Hash>, c: State<N, E>) returns (c': State<N, E>, c'': State<N, E>)
    requires c.sender.AwaitAck? && c.receiver.Checking? && InFlight(c.net, [])
    requires c.detached.Some? && 0 in Required(c.detached.value) && 0 !in known
    ensures Next(t, known, c, ReceiverMoves(0)) == Some(c') && Next(t, known, c', SenderMoves) == Some(c'')
    ensures Stuck(t, known, c'')
  {
    hide Required;
    NoneInFlight(c.net);
    c' := CheckNext(known, c, 0).value;
    assert Queue(c.net, AckTag) == [] && Queue(c'.net, AckTag) == [Done];
    c'' := SenderNext(t, c').value;
    assert Queue(c.net, RelRcTag) == [] && Queue(c''.net, RelRcTag) == [];
    forall l ensures Next(t, known, c'', l) == None {
    }
  }

  /** The first object is still on its way, and the run so far is `ls`. */
  ghost predicate Delivering<N, E>(t: Table<N, E>, known: set<Hash>, start: Hash, ls: seq<Label>, c: State<N, E>) {
    && start in t && Run(t, known, start, ls) == Some(c) && c.detached == None
    && SenderOk(t, start, c.sender) && Transferring(start, t[start], c)
  }

  ghost function ToDeliver<N, E>(x: Data<N, E>, c: State<N, E>): nat {
    SenderLeft(c.sender) + ReceiverLeft(x, c, false)
  }

  /** The first object can always be delivered, whatever the hashes are. */
  lemma {:induction false} Deliver<N, E>(t: Table<N, E>, known: set<Hash>, start: Hash, ls: seq<Label>,
                                         c: State<N, E>)
    returns (ls': seq<Label>, c': State<N, E>)
    requires Delivering(t, known, start, ls, c)
    ensures Run(t, known, start, ls') == Some(c') && c'.sender.AwaitAck? && c'.receiver.Checking?
    ensures InFlight(c'.net, [])
    ensures c'.detached == Some(Object(start, map[start := t[start]]))
    decreases ToDeliver(t[start], c)
  {
    hide InFlight, Outgoing, Take, Put, Queue, Run;
    if c.sender.Sending? {
      var c1 := SendOne(t, known, start, ls, c);
      ls', c' := Deliver(t, known, start, ls + [SenderMoves], c1);
    } else if ReadSoFar(c.receiver) == 3 + |t[start].incoming| {
      ls', c' := InsertFirst(t, known, start, ls, c);
    } else {
      var c1 := ReceiveOne(t, known, start, ls, c);
      ls', c' := Deliver(t, known, start, ls + [ReceiverMoves(0)], c1);
    }
  }

  lemma SendOne<N, E>(t: Table<N, E>, known: set<Hash>, start: Hash, ls: seq<Label>, c: State<N, E>)
    returns (c': State<N, E>)
    requires Delivering(t, known, start, ls, c) && c.sender.Sending?
    ensures Delivering(t, known, start, ls + [SenderMoves], c') && ToDeliver(t[start], c') < ToDeliver(t[start], c)
  {
    hide InFlight, Outgoing, Put, Run, Partial;
    OneMore(t, known, start, ls, SenderMoves);
    c' := SenderNext(t, c).value;
    if c.sender.pos < |Outgoing(start, t[start])| { SenderSends(start, t[start], c); }
  }

  lemma ReceiveOne<N, E>(t: Table<N, E>, known: set<Hash>, start: Hash, ls: seq<Label>, c: State<N, E>)
    returns (c': State<N, E>)
    requires Delivering(t, known, start, ls, c) && !c.sender.Sending?
    requires ReadSoFar(c.receiver) != 3 + |t[start].incoming|
    ensures Delivering(t, known, start, ls + [ReceiverMoves(0)], c') && ToDeliver(t[start], c') < ToDeliver(t[start], c)
  {
    hide InFlight, Outgoing, Take, Queue, Run, Receive;
    var x := t[start];
    var out, r := Outgoing(start, x), ReadSoFar(c.receiver);
    OneMore(t, known, start, ls, ReceiverMoves(0));
    if !c.receiver.Checking? {
      TakeInFlight(c.net, out[r..|out|]);
      assert out[r..|out|][0] == out[r] && out[r..|out|][1..] == out[r + 1..|out|];
      ReadNext(c.receiver, start, x, true);
    }
    c' := ReceiverNext(known, c, 0).value;
  }

  lemma InsertFirst<N, E>(t: Table<N, E>, known: set<Hash>, start: Hash, ls: seq<Label>, c: State<N, E>)
    returns (ls': seq<Label>, c': State<N, E>)
    requires Delivering(t, known, start, ls, c) && c.sender.AwaitAck?
    requires ReadSoFar(c.receiver) == 3 + |t[start].incoming|
    ensures Run(t, known, start, ls') == Some(c') && c'.sender.AwaitAck? && c'.receiver.Checking?
    ensures InFlight(c'.net, [])
    ensures c'.detached == Some(Object(start, map[start := t[start]]))
  {
    hide InFlight, Outgoing, Run;
    ls' := ls + [ReceiverMoves(0)];
    OneMore(t, known, start, ls, ReceiverMoves(0));
    c' := ReceiverNext(known, c, 0).value;
    assert c.receiver.incoming == t[start].incoming;
    assert Outgoing(start, t[start])[|Outgoing(start, t[start])|..|Outgoing(start, t[start])|] == [];
  }

  /** If some parent of the node that is sent had hash zero and the receiver did not know it,
      there would be a run after which the sender has ended and the receiver waits for ever. */
  lemma ZeroHashStops<N, E>(t: Table<N, E>, known: set<Hash>, start: Hash) returns (ls: seq<Label>)
    requires start in t && 0 in ParentHashes(t[start]) && start != 0 && 0 !in known
    ensures Run(t, known, start, ls).Some? && Stuck(t, known, Run(t, known, start, ls).value)
  {
    hide Run, Inv, Next, Stuck, InFlight;
    InitialDelivering(t, known, start);
    var ls1, c := Deliver(t, known, start, [], Initial(t, start));
    var j :| 0 <= j < |t[start].incoming| && ParentHashes(t[start])[j] == 0;
    var x := c.detached.value;
    assert x.allData[start].incoming[j].0 == 0 && 0 !in x.allData && 0 in Required(x);
    var c', c'' := AskForZero(t, known, c);
    OneMore(t, known, start, ls1, ReceiverMoves(0));
    OneMore(t, known, start, ls1 + [ReceiverMoves(0)], SenderMoves);
    ls := ls1 + [ReceiverMoves(0)] + [SenderMoves];
  }

  lemma InitialDelivering<N, E>(t: Table<N, E>, known: set<Hash>, start: Hash)
    requires start in t
    ensures Delivering(t, known, start, [], Initial(t, start))
  {
    hide InFlight, Outgoing, Collected;
    InitialInv(t, known, start);
  }

  /** Every table has a bound on the number of parents. */
  lemma {:induction false} SomeBound<N, E>(t: Table<N, E>) returns (most: nat)
    ensures Bounded(t, most)
    decreases |t|
  {
    if t == map[] {
      most := 0;
    } else {
      var k :| k in t;
      most := SomeBound(t - {k});
      if |t[k].incoming| > most { most := |t[k].incoming|; }
      assert forall q :: q in t && q != k ==> q in t - {k};
    }
  }
}
