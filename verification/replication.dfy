/**
  The replication protocol as a state machine. Nodes hold documents, gossip them, and
  run push and pull quorum phases; the network only ever gains messages and delivers
  any of them any number of times or never. Each step is one region the node runs under
  its locks; a timeout is a step that may happen at any time.
 */
module Replication {
  import opened Lattices

  type NodeId = string

  /** A collection and the canonical key of one of its documents. */
  datatype Ref = Ref(collection: string, document: string)

  datatype ReqId = ReqId(node: NodeId, number: nat)

  /** A snapshot in wire form: one that decodes to in-domain slots, or one that does not. */
  datatype Wire<V> = Wire(doc: Doc<V>) | Garbled

  datatype Msg<V> =
    | Gossip(to: NodeId, docs: map<Ref, Doc<V>>)
    | Push(from: NodeId, to: NodeId, req: ReqId, ref: Ref, fp: string, snap: Wire<V>)
    | Pull(from: NodeId, to: NodeId, req: ReqId, ref: Ref, fp: string)
    | Ack(from: NodeId, to: NodeId, req: ReqId, document: string, snap: Wire<V>)

  /** An in-flight request: the senders already seen, and the acks waiting to be collected. */
  datatype Pending<V> = Pending(document: string, seen: set<NodeId>, queue: seq<Msg<V>>)

  /** A push that reached a majority: what was pushed and who held it at the end. */
  datatype Commit<V> = Commit(ref: Ref, snap: Doc<V>, holders: set<NodeId>)

  /** Where an operation stands. `counted` and `holders` name the peers behind the count. */
  datatype Phase<V> =
    | NeedPull
    | Pulling(req: ReqId, count: nat, counted: set<NodeId>)
    | NeedPush
    | Pushing(req: ReqId, snap: Doc<V>, count: nat, counted: set<NodeId>)
    | Pushed(reqs: set<ReqId>, snap: Doc<V>, holders: set<NodeId>)
    | Answered(view: Doc<V>)
    | Unreached

  /** A synchronous update or query; `must` records the majority pushes that preceded it. */
  datatype Op<V(==)> = Op(ref: Ref, ratio: real, read: bool, must: set<Commit<V>>, phase: Phase<V>)

  datatype NodeState<V(==)> = NodeState(
    deployed: bool, docs: map<Ref, Doc<V>>, minted: nat, pending: map<ReqId, Pending<V>>, ops: map<nat, Op<V>>)

  /** The cluster: slot lattice, members, plan fingerprint, and which references the plan resolves to themselves. */
  datatype Config<!V> = Config(l: Lattice<V>, nodes: set<NodeId>, fp: string, known: Ref -> bool)

  // ----- quorum arithmetic -----

  function Peers<V(==)>(cfg: Config<V>, self: NodeId): set<NodeId> {
    cfg.nodes - {self}
  }

  /** Whether `distinct` acks, with the coordinator itself, meet the ratio. */
  predicate Reached<V(==)>(cfg: Config<V>, distinct: nat, ratio: real)
    requires cfg.nodes != {}
  {
    var holders := 1 + distinct;
    assert |cfg.nodes| > 0;
    if ratio >= 1.0 then holders >= |cfg.nodes| else holders as real / |cfg.nodes| as real > ratio
  }

  /** A ratio of one half or more asks for a strict majority, and one half asks for no more than that. */
  lemma HalfIsMajority<V>(cfg: Config<V>, distinct: nat, ratio: real)
    requires cfg.nodes != {} && ratio >= 0.5 && distinct < |cfg.nodes|
    ensures Reached(cfg, distinct, ratio) ==> 2 * (1 + distinct) > |cfg.nodes|
    ensures ratio == 0.5 ==> (Reached(cfg, distinct, ratio) <==> 2 * (1 + distinct) > |cfg.nodes|)
    ensures ratio >= 1.0 ==> (Reached(cfg, distinct, ratio) <==> 1 + distinct == |cfg.nodes|)
  {
    var h, n := (1 + distinct) as real, |cfg.nodes| as real;
    RatioScales(h, n, 0.5);
    if h / n > ratio {
      assert h / n > 0.5;
    }
  }

  lemma RatioScales(h: real, n: real, r: real)
    requires n > 0.0
    ensures h / n > r <==> h > r * n
  {
    var q := h / n;
    assert q * n == h;
    if q > r {
      assert (q - r) * n > 0.0;
    } else {
      assert (r - q) * n >= 0.0;
    }
  }

  /** Two strict majorities share a member. */
  lemma MajoritiesMeet<V>(cfg: Config<V>, a: set<NodeId>, b: set<NodeId>) returns (x: NodeId)
    requires a <= cfg.nodes && b <= cfg.nodes && 2 * |a| > |cfg.nodes| && 2 * |b| > |cfg.nodes|
    ensures x in a && x in b
  {
    if a * b == {} {
      assert |a + b| == |a| + |b|;
      SubsetCard(a + b, cfg.nodes);
    }
    x :| x in a * b;
  }

  lemma SubsetCard<T>(a: set<T>, b: set<T>)
    requires a <= b
    ensures |a| <= |b|
  {
    assert b == a + (b - a);
  }

  // ----- one node -----

  /** A document as the node sees it; a document never touched has no slots. */
  function DocOf<V(==)>(s: NodeState<V>, ref: Ref): Doc<V> {
    if ref in s.docs then s.docs[ref] else map[]
  }

  /** Merges a wire snapshot into a document; nothing is created for an untouched, empty one. */
  function MergeCollection<V(==)>(cfg: Config<V>, s: NodeState<V>, ref: Ref, snap: Wire<V>): (r: NodeState<V>)
    requires snap.Wire?
  {
    if ref !in s.docs && snap.doc == map[] then s else s.(docs := s.docs[ref := Join(cfg.l, DocOf(s, ref), snap.doc)])
  }

  predicate Serves<V(==)>(cfg: Config<V>, s: NodeState<V>, ref: Ref, fp: string) {
    s.deployed && fp == cfg.fp && cfg.known(ref)
  }

  /** A push merges and acks, unless the plan differs, the reference does not resolve to itself, or the merge fails. */
  predicate PushAccepted<V(==)>(cfg: Config<V>, s: NodeState<V>, m: Msg<V>)
    requires m.Push?
  {
    Serves(cfg, s, m.ref, m.fp) && m.snap.Wire?
  }

  function OnPush<V(==)>(cfg: Config<V>, s: NodeState<V>, m: Msg<V>): NodeState<V>
    requires m.Push?
  {
    if PushAccepted(cfg, s, m) then MergeCollection(cfg, s, m.ref, m.snap) else s
  }

  function PushReply<V(==)>(cfg: Config<V>, s: NodeState<V>, self: NodeId, m: Msg<V>): set<Msg<V>>
    requires m.Push?
  {
    if PushAccepted(cfg, s, m) && m.from in Peers(cfg, self)
    then {Ack(self, m.from, m.req, m.ref.document, Wire(map[]))} else {}
  }

  function PullReply<V(==)>(cfg: Config<V>, s: NodeState<V>, self: NodeId, m: Msg<V>): set<Msg<V>>
    requires m.Pull?
  {
    if Serves(cfg, s, m.ref, m.fp) && m.from in Peers(cfg, self)
    then {Ack(self, m.from, m.req, m.ref.document, Wire(DocOf(s, m.ref)))} else {}
  }

  /** An ack counts for a pending request, from a peer not seen before, about the same document. */
  predicate AckFits<V(==)>(cfg: Config<V>, s: NodeState<V>, self: NodeId, m: Msg<V>)
    requires m.Ack?
  {
    m.req in s.pending && m.from in Peers(cfg, self)
    && m.from !in s.pending[m.req].seen && m.document == s.pending[m.req].document
  }

  /** A fitting ack is marked seen and queued, if the queue, one place per peer, has room. */
  function OnAck<V(==)>(cfg: Config<V>, s: NodeState<V>, self: NodeId, m: Msg<V>): NodeState<V>
    requires m.Ack?
  {
    if !AckFits(cfg, s, self, m) then s
    else
      var p := s.pending[m.req];
      var q := if |p.queue| < |Peers(cfg, self)| then p.queue + [m] else p.queue;
      s.(pending := s.pending[m.req := Pending(p.document, p.seen + {m.from}, q)])
  }

  /** Gossip merges every non-empty document the plan knows. */
  function OnGossip<V(==)>(cfg: Config<V>, s: NodeState<V>, docs: map<Ref, Doc<V>>): NodeState<V> {
    if !s.deployed then s
    else s.(docs := map r | r in s.docs.Keys + docs.Keys && (r in s.docs || Gossiped(cfg, docs, r)) ::
      if Gossiped(cfg, docs, r) then Join(cfg.l, DocOf(s, r), docs[r]) else s.docs[r])
  }

  predicate Gossiped<V(==)>(cfg: Config<V>, docs: map<Ref, Doc<V>>, r: Ref) {
    r in docs && docs[r] != map[] && cfg.known(r)
  }

  // ----- the cluster -----

  /** What a request asked, as recorded when it was sent. */
  datatype Req<V(==)> = PushReq(ref: Ref, snap: Doc<V>) | PullReq(ref: Ref, must: set<Commit<V>>)

  /**
    All nodes, every message ever sent, and records no step reads: the values each slot
    has held, the requests sent, who merged which push, and the majority pushes.
   */
  datatype Global<V(==)> = Global(
    nodes: map<NodeId, NodeState<V>>, net: set<Msg<V>>,
    hist: map<(NodeId, Ref), seq<V>>, reqs: map<ReqId, Req<V>>, served: set<(NodeId, ReqId)>, commits: set<Commit<V>>)

  function History<V(==)>(g: Global<V>, n: NodeId, ref: Ref): seq<V> {
    if (n, ref) in g.hist then g.hist[(n, ref)] else []
  }

  function View<V(==)>(g: Global<V>, n: NodeId, ref: Ref): Doc<V>
    requires n in g.nodes
  {
    DocOf(g.nodes[n], ref)
  }

  datatype Step<V> =
    | Deploy(n: NodeId)
    | Update(n: NodeId, ref: Ref, h: V)
    | SendGossip(n: NodeId, to: NodeId)
    | BeginWrite(n: NodeId, id: nat, ref: Ref, h: V, ratio: real)
    | BeginRead(n: NodeId, id: nat, ref: Ref, ratio: real)
    | BeginPull(n: NodeId, id: nat)
    | BeginPush(n: NodeId, id: nat)
    | Collect(n: NodeId, id: nat)
    | Answer(n: NodeId, id: nat)
    | GiveUp(n: NodeId, id: nat)
    | Deliver(n: NodeId, m: Msg<V>)
    | Stray(m: Msg<V>)
    | Corrupt(m: Msg<V>)

  predicate Waiting<V(==)>(op: Op<V>) {
    op.phase.Pulling? || op.phase.Pushing?
  }

  /** The request a waiting operation is waiting for. */
  function Awaited<V(==)>(op: Op<V>): ReqId
    requires Waiting(op)
  {
    op.phase.req
  }

  predicate Running<V(==)>(g: Global<V>, n: NodeId, id: nat) {
    n in g.nodes && id in g.nodes[n].ops
  }

  /** An update is inflationary: its result is above the own slot, if there is one. */
  predicate UpdateOk<V(==)>(cfg: Config<V>, g: Global<V>, n: NodeId, ref: Ref, h: V) {
    n in g.nodes && g.nodes[n].deployed && cfg.known(ref) && cfg.l.dom(h)
    && (n in View(g, n, ref) ==> Leq(cfg.l, View(g, n, ref)[n], h))
  }

  /** A message no node sent: another plan's request, an ack from outside the cluster, or one about another document. */
  predicate StrayOk<V(==)>(cfg: Config<V>, g: Global<V>, m: Msg<V>) {
    match m
    case Push(_, _, _, _, fp, _) => fp != cfg.fp
    case Pull(_, _, _, _, fp) => fp != cfg.fp
    case Ack(from, _, req, document, _) =>
      from !in cfg.nodes || (req in g.reqs && g.reqs[req].ref.document != document)
    case Gossip(_, _) => false
  }

  predicate Enabled<V(==)>(cfg: Config<V>, g: Global<V>, st: Step<V>) {
    match st
    case Deploy(n) => n in g.nodes
    case Update(n, ref, h) => UpdateOk(cfg, g, n, ref, h)
    case SendGossip(n, to) => n in g.nodes && g.nodes[n].deployed && to in Peers(cfg, n)
    case BeginWrite(n, id, ref, h, _) => UpdateOk(cfg, g, n, ref, h) && id !in g.nodes[n].ops
    case BeginRead(n, id, ref, _) =>
      n in g.nodes && g.nodes[n].deployed && cfg.known(ref) && id !in g.nodes[n].ops
    case BeginPull(n, id) => Running(g, n, id) && g.nodes[n].ops[id].phase.NeedPull?
    case BeginPush(n, id) => Running(g, n, id) && g.nodes[n].ops[id].phase.NeedPush?
    case Collect(n, id) =>
      Running(g, n, id) && Waiting(g.nodes[n].ops[id])
      && var r := Awaited(g.nodes[n].ops[id]);
        r in g.nodes[n].pending && g.nodes[n].pending[r].queue != [] && g.nodes[n].pending[r].queue[0].Ack?
    case Answer(n, id) => Running(g, n, id) && g.nodes[n].ops[id].phase.Pushed? && g.nodes[n].ops[id].read
    case GiveUp(n, id) => Running(g, n, id) && Waiting(g.nodes[n].ops[id])
    case Deliver(n, m) => n in g.nodes && m in g.net && m.to == n
    case Stray(m) => StrayOk(cfg, g, m)
    case Corrupt(m) => m in g.net && (m.Push? || m.Ack?)
  }

  // ----- what a step does -----

  function Put<V(==)>(g: Global<V>, n: NodeId, s: NodeState<V>): Global<V> {
    g.(nodes := g.nodes[n := s])
  }

  function SetPhase<V(==)>(s: NodeState<V>, id: nat, phase: Phase<V>): NodeState<V>
    requires id in s.ops
  {
    s.(ops := s.ops[id := s.ops[id].(phase := phase)])
  }

  /** The node writes its own slot; the value joins the slot's history. */
  function AfterUpdate<V(==)>(g: Global<V>, n: NodeId, ref: Ref, h: V): Global<V>
    requires n in g.nodes
  {
    var s := g.nodes[n];
    Put(g, n, s.(docs := s.docs[ref := DocOf(s, ref)[n := h]]))
      .(hist := g.hist[(n, ref) := History(g, n, ref) + [h]])
  }

  /** The majority pushes of one document so far. */
  function CommitsOf<V(==)>(g: Global<V>, ref: Ref): set<Commit<V>> {
    set c | c in g.commits && c.ref == ref
  }

  /** A push that met its ratio: recorded as a commit if the ratio asks for a majority. */
  function Finish<V(==)>(g: Global<V>, n: NodeId, id: nat, reqs: set<ReqId>, snap: Doc<V>, holders: set<NodeId>)
    : Global<V>
    requires n in g.nodes && id in g.nodes[n].ops
  {
    var op := g.nodes[n].ops[id];
    var g' := Put(g, n, SetPhase(g.nodes[n], id, Pushed(reqs, snap, holders)));
    if op.ratio >= 0.5 then g'.(commits := g.commits + {Commit(op.ref, snap, holders)}) else g'
  }

  /** A fresh request is registered, recorded and broadcast to every peer. */
  function Launch<V(==)>(cfg: Config<V>, g: Global<V>, n: NodeId, id: nat, req: Req<V>): Global<V>
    requires n in g.nodes && id in g.nodes[n].ops
  {
    var s := g.nodes[n];
    var op := s.ops[id];
    var r := ReqId(n, s.minted + 1);
    var phase := match req
      case PushReq(_, snap) => Pushing(r, snap, 0, {})
      case PullReq(_, _) => Pulling(r, 0, {});
    var sent := match req
      case PushReq(_, snap) => set to | to in Peers(cfg, n) :: Push(n, to, r, op.ref, cfg.fp, Wire(snap))
      case PullReq(_, _) => set to | to in Peers(cfg, n) :: Pull(n, to, r, op.ref, cfg.fp);
    var s' := SetPhase(s, id, phase)
      .(minted := s.minted + 1, pending := s.pending[r := Pending(op.ref.document, {}, [])]);
    Put(g, n, s').(net := g.net + sent, reqs := g.reqs[r := req])
  }

  /** Takes one ack off the queue. A pull counts it only if its snapshot merges. */
  function AfterCollect<V(==)>(cfg: Config<V>, g: Global<V>, n: NodeId, id: nat): Global<V>
    requires cfg.nodes != {} && Enabled(cfg, g, Collect(n, id))
  {
    var s := g.nodes[n];
    var op := s.ops[id];
    var r := Awaited(op);
    var p := s.pending[r];
    var ack := p.queue[0];
    var taken := s.(pending := s.pending[r := p.(queue := p.queue[1..])]);
    var done := s.(pending := s.pending - {r});
    match op.phase
    case Pulling(_, count, counted) =>
      if ack.snap.Garbled? then Put(g, n, taken)
      else if Reached(cfg, count + 1, op.ratio) then
        Put(g, n, SetPhase(MergeCollection(cfg, done, op.ref, ack.snap), id, NeedPush))
      else
        Put(g, n, SetPhase(MergeCollection(cfg, taken, op.ref, ack.snap), id,
          Pulling(r, count + 1, counted + {ack.from})))
    case Pushing(_, snap, count, counted) =>
      if Reached(cfg, count + 1, op.ratio) then Finish(Put(g, n, done), n, id, {r}, snap, counted + {ack.from, n})
      else Put(g, n, SetPhase(taken, id, Pushing(r, snap, count + 1, counted + {ack.from})))
    case _ => g
  }

  function AfterDeliver<V(==)>(cfg: Config<V>, g: Global<V>, n: NodeId, m: Msg<V>): Global<V>
    requires n in g.nodes
  {
    var s := g.nodes[n];
    match m
    case Gossip(_, docs) => Put(g, n, OnGossip(cfg, s, docs))
    case Push(_, _, req, _, _, _) =>
      var g' := Put(g, n, OnPush(cfg, s, m)).(net := g.net + PushReply(cfg, s, n, m));
      if PushAccepted(cfg, s, m) then g'.(served := g.served + {(n, req)}) else g'
    case Pull(_, _, _, _, _) => g.(net := g.net + PullReply(cfg, s, n, m))
    case Ack(_, _, _, _, _) => Put(g, n, OnAck(cfg, s, n, m))
  }

  function After<V(==)>(cfg: Config<V>, g: Global<V>, st: Step<V>): Global<V>
    requires cfg.nodes != {} && Enabled(cfg, g, st)
  {
    match st
    case Deploy(n) => Put(g, n, g.nodes[n].(deployed := true))
    case Update(n, ref, h) => AfterUpdate(g, n, ref, h)
    case SendGossip(n, to) => g.(net := g.net + {Gossip(to, g.nodes[n].docs)})
    case BeginWrite(n, id, ref, h, ratio) =>
      var g' := AfterUpdate(g, n, ref, h);
      var s := g'.nodes[n];
      Put(g', n, s.(ops := s.ops[id := Op(ref, ratio, false, {}, NeedPush)]))
    case BeginRead(n, id, ref, ratio) =>
      var s := g.nodes[n];
      Put(g, n, s.(ops := s.ops[id := Op(ref, ratio, true, CommitsOf(g, ref), NeedPull)]))
    case BeginPull(n, id) =>
      var op := g.nodes[n].ops[id];
      if Reached(cfg, 0, op.ratio) then Put(g, n, SetPhase(g.nodes[n], id, NeedPush))
      else Launch(cfg, g, n, id, PullReq(op.ref, op.must))
    case BeginPush(n, id) =>
      var op := g.nodes[n].ops[id];
      if Reached(cfg, 0, op.ratio) then Finish(g, n, id, {}, View(g, n, op.ref), {n})
      else Launch(cfg, g, n, id, PushReq(op.ref, View(g, n, op.ref)))
    case Collect(n, id) => AfterCollect(cfg, g, n, id)
    case Answer(n, id) =>
      var s := g.nodes[n];
      Put(g, n, SetPhase(s, id, Answered(DocOf(s, s.ops[id].ref))))
    case GiveUp(n, id) =>
      var s := g.nodes[n];
      Put(g, n, SetPhase(s.(pending := s.pending - {Awaited(s.ops[id])}), id, Unreached))
    case Deliver(n, m) => AfterDeliver(cfg, g, n, m)
    case Stray(m) => g.(net := g.net + {m})
    case Corrupt(m) => g.(net := g.net + {m.(snap := Garbled)})
  }

  function NewNode<V(==)>(): NodeState<V> {
    NodeState(false, map[], 0, map[], map[])
  }

  function Init<V(==)>(cfg: Config<V>): Global<V> {
    Global(map n | n in cfg.nodes :: NewNode(), {}, map[], map[], {}, {})
  }
}
