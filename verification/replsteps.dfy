/**
  Every step of the replication protocol keeps its invariants.
 */
module ReplicationSteps {
  import opened Lattices
  import opened Replication
  import opened ReplicationSafety

  // ----- one node's work -----

  /** Operation id becomes op, and no request another operation waits for is touched. */
  ghost predicate Reworked<V(!new)>(s: NodeState<V>, s': NodeState<V>, id: nat, op: Op<V>) {
    s'.ops == s.ops[id := op]
    && (forall j :: j in s.ops && j != id && Waiting(s.ops[j]) ==>
      var r := Awaited(s.ops[j]);
      r in s.pending ==> r in s'.pending && s'.pending[r] == s.pending[r])
    && (Waiting(op) ==> forall j :: j in s.ops && j != id && Waiting(s.ops[j]) ==> Awaited(s.ops[j]) != Awaited(op))
  }

  lemma Rework<V(!new)>(cfg: Config<V>, g: Global<V>, n: NodeId, s: NodeState<V>, s': NodeState<V>, id: nat, op: Op<V>)
    requires NodeOk(cfg, g, n, s) && Reworked(s, s', id, op) && OpOk(cfg, g, n, s', op)
    requires forall r :: r in s'.pending ==> PendingOk(cfg, g, n, r, s'.pending[r])
    ensures NodeOk(cfg, g, n, s')
  {
    hide PendingOk, Holds, Gathered, AllGathered, PushedOk;
    forall j | j in s'.ops
      ensures OpOk(cfg, g, n, s', s'.ops[j])
    {
      if j != id {
        assert OpOk(cfg, g, n, s, s.ops[j]);
      }
    }
  }

  /** A step that changes node n's work, its documents aside. */
  lemma Worked<V(!new)>(cfg: Config<V>, g: Global<V>, g': Global<V>, n: NodeId, id: nat, op: Op<V>)
    requires Inv(cfg, g) && Between(cfg, g, g') && Moves(g, g', n)
    requires Reworked(g.nodes[n], g'.nodes[n], id, op) && OpOk(cfg, g', n, g'.nodes[n], op)
    requires forall r :: r in g'.nodes[n].pending ==> PendingOk(cfg, g', n, r, g'.nodes[n].pending[r])
    requires forall m :: m in g'.net - g.net ==> MsgOk(cfg, g', m)
    requires forall c :: c in g'.commits - g.commits ==> CommitOk(cfg, g', c)
    requires forall r :: r in g'.reqs && r !in g.reqs ==> ReqOk(cfg, g', r)
    requires g'.served == g.served
    ensures Inv(cfg, g')
  {
    hide Between, PendingOk, MsgOk, CommitOk, ReqOk, OpOk, ServedOk, NodeOk, Reworked, DocsOk;
    NodeStays(cfg, g, g', n, g.nodes[n]);
    Rework(cfg, g', n, g.nodes[n], g'.nodes[n], id, op);
    InvStays(cfg, g, g');
  }

  /** A step that leaves all work alone. */
  lemma Idle<V(!new)>(cfg: Config<V>, g: Global<V>, g': Global<V>, n: NodeId)
    requires Inv(cfg, g) && Between(cfg, g, g') && n in g'.nodes && g'.nodes == g.nodes[n := g'.nodes[n]]
    requires n in g.nodes && SameWork(g.nodes[n], g'.nodes[n]) && g'.commits == g.commits && g'.reqs == g.reqs
    requires forall m :: m in g'.net - g.net ==> MsgOk(cfg, g', m)
    requires forall x, r :: (x, r) in g'.served - g.served ==> ServedOk(cfg, g', x, r)
    ensures Inv(cfg, g')
  {
    hide Between, MsgOk, CommitOk, ReqOk, ServedOk, NodeOk, DocsOk;
    InvStays(cfg, g, g');
  }

  // ----- steps that touch no operation -----

  lemma DeployKeeps<V(!new)>(cfg: Config<V>, g: Global<V>, n: NodeId)
    requires IsJoin(cfg.l) && Inv(cfg, g) && n in g.nodes
    ensures Inv(cfg, Put(g, n, g.nodes[n].(deployed := true)))
  {
    hide IsJoin, DocsOk, MsgOk, CommitOk, ReqOk, ServedOk, NodeOk, Between;
    var g' := Put(g, n, g.nodes[n].(deployed := true));
    StillBetween(cfg, g, g', n);
    Idle(cfg, g, g', n);
  }

  lemma UpdateKeeps<V(!new)>(cfg: Config<V>, g: Global<V>, n: NodeId, ref: Ref, h: V)
    requires IsJoin(cfg.l) && Inv(cfg, g) && UpdateOk(cfg, g, n, ref, h)
    ensures Inv(cfg, AfterUpdate(g, n, ref, h))
  {
    hide IsJoin, DocsOk, MsgOk, CommitOk, ReqOk, ServedOk, NodeOk, Between;
    UpdateBetween(cfg, g, n, ref, h);
    Idle(cfg, g, AfterUpdate(g, n, ref, h), n);
  }

  /** Adding one message in order to the network. */
  lemma SentKeeps<V(!new)>(cfg: Config<V>, g: Global<V>, n: NodeId, m: Msg<V>)
    requires IsJoin(cfg.l) && Inv(cfg, g) && n in cfg.nodes && MsgOk(cfg, g, m)
    ensures Inv(cfg, g.(net := g.net + {m}))
  {
    hide IsJoin, DocsOk, MsgOk, CommitOk, ReqOk, ServedOk, NodeOk, Between;
    var g' := g.(net := g.net + {m});
    assert g'.nodes == g.nodes[n := g.nodes[n]];
    StillBetween(cfg, g, g', n);
    BetweenMsg(cfg, g, g', m);
    Idle(cfg, g, g', n);
  }

  lemma BetweenMsg<V(!new)>(cfg: Config<V>, g: Global<V>, g': Global<V>, m: Msg<V>)
    requires Between(cfg, g, g') && MsgOk(cfg, g, m)
    ensures MsgOk(cfg, g', m)
  {
    MsgStays(cfg, g, g', m);
  }

  lemma GossipSentOk<V(!new)>(cfg: Config<V>, g: Global<V>, n: NodeId, to: NodeId)
    requires Inv(cfg, g) && n in g.nodes
    ensures MsgOk(cfg, g, Gossip(to, g.nodes[n].docs))
  {
    hide IsJoin, HistoryOk, Genuine, CommitOk, ReqOk, ServedOk, NodeOk;
    forall ref | ref in g.nodes[n].docs
      ensures Genuine(cfg, g, ref, g.nodes[n].docs[ref])
    {
      assert Genuine(cfg, g, ref, View(g, n, ref));
    }
  }

  lemma StrayMsgOk<V(!new)>(cfg: Config<V>, g: Global<V>, m: Msg<V>)
    requires StrayOk(cfg, g, m)
    ensures MsgOk(cfg, g, m)
  {
  }

  lemma CorruptMsgOk<V(!new)>(cfg: Config<V>, g: Global<V>, m: Msg<V>)
    requires Inv(cfg, g) && m in g.net && (m.Push? || m.Ack?)
    ensures MsgOk(cfg, g, m.(snap := Garbled))
  {
    hide DocsOk, CommitOk, ReqOk, ServedOk, NodeOk, Genuine;
    assert MsgOk(cfg, g, m);
  }

  // ----- deliveries -----

  lemma GossipKeeps<V(!new)>(cfg: Config<V>, g: Global<V>, n: NodeId, m: Msg<V>)
    requires IsJoin(cfg.l) && Inv(cfg, g) && n in g.nodes && m in g.net && m.Gossip?
    ensures Inv(cfg, Put(g, n, OnGossip(cfg, g.nodes[n], m.docs)))
  {
    hide IsJoin, DocsOk, CommitOk, ReqOk, ServedOk, NodeOk, Between, Genuine, Absorbs;
    assert MsgOk(cfg, g, m);
    GossipAbsorbs(cfg, g, g.nodes[n], m.docs);
    var g' := Put(g, n, OnGossip(cfg, g.nodes[n], m.docs));
    AbsorbBetween(cfg, g, g', n);
    Idle(cfg, g, g', n);
  }

  /** Merging a document leaves the merging node above it. */
  lemma MergedHolds<V(!new)>(cfg: Config<V>, g: Global<V>, s: NodeState<V>, n: NodeId, ref: Ref, d: Doc<V>)
    requires IsJoin(cfg.l) && g.nodes.Keys == cfg.nodes && DocsOk(cfg, g) && n in cfg.nodes && Genuine(cfg, g, ref, d)
    requires s.docs == g.nodes[n].docs
    ensures DocLeq(cfg.l, d, DocOf(MergeCollection(cfg, s, ref, Wire(d)), ref))
    ensures forall r :: r != ref ==> DocOf(MergeCollection(cfg, s, ref, Wire(d)), r) == DocOf(s, r)
  {
    hide IsJoin, DocsOk, Genuine;
    MergeGenuine(cfg, g, n, ref, d);
  }

  lemma PushKeeps<V(!new)>(cfg: Config<V>, g: Global<V>, n: NodeId, m: Msg<V>)
    requires IsJoin(cfg.l) && Inv(cfg, g) && n in g.nodes && m in g.net && m.Push?
    ensures Inv(cfg, AfterDeliver(cfg, g, n, m))
  {
    hide IsJoin, DocsOk, CommitOk, ServedOk, NodeOk, Between, Genuine, Absorbs, DocLeq;
    var s := g.nodes[n];
    var g' := AfterDeliver(cfg, g, n, m);
    if !PushAccepted(cfg, s, m) {
      assert g'.nodes == g.nodes;
      assert g' == g;
    } else {
      assert MsgOk(cfg, g, m) && ReqOk(cfg, g, m.req);
      MergeAbsorbs(cfg, g, s, m.ref, m.snap.doc);
      AbsorbBetween(cfg, g, g', n);
      MergedHolds(cfg, g, s, n, m.ref, m.snap.doc);
      NewServedOk(cfg, g', n, m);
      ReplyOk(cfg, g', n, m);
      Idle(cfg, g, g', n);
    }
  }

  lemma NewServedOk<V(!new)>(cfg: Config<V>, g: Global<V>, n: NodeId, m: Msg<V>)
    requires m.Push? && m.req in g.reqs && m.snap.Wire? && n in g.nodes
    requires g.reqs[m.req] == PushReq(m.ref, m.snap.doc) && DocLeq(cfg.l, m.snap.doc, View(g, n, m.ref))
    ensures ServedOk(cfg, g, n, m.req)
  {
  }

  lemma ReplyOk<V(!new)>(cfg: Config<V>, g: Global<V>, n: NodeId, m: Msg<V>)
    requires m.Push? && m.req in g.reqs && g.reqs[m.req].PushReq? && g.reqs[m.req].ref == m.ref && m.from == m.req.node
    requires (n, m.req) in g.served
    ensures m.from in Peers(cfg, n) ==> MsgOk(cfg, g, Ack(n, m.from, m.req, m.ref.document, Wire(map[])))
  {
  }

  lemma PullReplyOk<V(!new)>(cfg: Config<V>, g: Global<V>, n: NodeId, m: Msg<V>)
    requires Inv(cfg, g) && n in g.nodes && m in g.net && m.Pull? && m.fp == cfg.fp && m.from in Peers(cfg, n)
    ensures MsgOk(cfg, g, Ack(n, m.from, m.req, m.ref.document, Wire(View(g, n, m.ref))))
  {
    hide IsJoin, DocLeq, ServedOk, NodeOk, HistoryOk, Genuine;
    assert MsgOk(cfg, g, m) && ReqOk(cfg, g, m.req);
    var must := g.reqs[m.req].must;
    assert Genuine(cfg, g, m.ref, View(g, n, m.ref));
    forall c | c in must && n in c.holders
      ensures DocLeq(cfg.l, c.snap, View(g, n, m.ref))
    {
      assert CommitOk(cfg, g, c);
      assert Holds(cfg, g, n, c.ref, c.snap);
    }
  }

  lemma PullKeeps<V(!new)>(cfg: Config<V>, g: Global<V>, n: NodeId, m: Msg<V>)
    requires IsJoin(cfg.l) && Inv(cfg, g) && n in g.nodes && m in g.net && m.Pull?
    ensures Inv(cfg, AfterDeliver(cfg, g, n, m))
  {
    hide Inv, MsgOk, DocOf;
    if Serves(cfg, g.nodes[n], m.ref, m.fp) && m.from in Peers(cfg, n) {
      PullReplyOk(cfg, g, n, m);
      InvNodes(cfg, g);
      SentKeeps(cfg, g, n, Ack(n, m.from, m.req, m.ref.document, Wire(View(g, n, m.ref))));
    } else {
      assert AfterDeliver(cfg, g, n, m) == g;
    }
  }

  lemma InvNodes<V(!new)>(cfg: Config<V>, g: Global<V>)
    requires Inv(cfg, g)
    ensures g.nodes.Keys == cfg.nodes
  {
  }

  /** Queueing a fitting ack. */
  lemma QueuedOk<V(!new)>(cfg: Config<V>, g: Global<V>, n: NodeId, m: Msg<V>)
    requires Inv(cfg, g) && n in g.nodes && m in g.net && m.Ack? && AckFits(cfg, g.nodes[n], n, m)
    ensures NodeOk(cfg, g, n, OnAck(cfg, g.nodes[n], n, m))
  {
    hide IsJoin, DocsOk, MsgOk, CommitOk, ReqOk, ServedOk, Holds, Gathered, AllGathered, PushedOk;
    var s := g.nodes[n];
    var s' := OnAck(cfg, s, n, m);
    assert NodeOk(cfg, g, n, s);
    PendingGrows(cfg, g, n, s, m);
    forall i | i in s'.ops
      ensures OpOk(cfg, g, n, s', s'.ops[i])
    {
      assert OpOk(cfg, g, n, s, s.ops[i]);
      if Waiting(s.ops[i]) {
        CountedGrows(cfg, s, n, m, s.ops[i]);
      }
    }
  }

  lemma PendingGrows<V(!new)>(cfg: Config<V>, g: Global<V>, n: NodeId, s: NodeState<V>, m: Msg<V>)
    requires m in g.net && m.Ack? && AckFits(cfg, s, n, m)
    requires forall r :: r in s.pending ==> PendingOk(cfg, g, n, r, s.pending[r])
    ensures var s' := OnAck(cfg, s, n, m);
      forall r :: r in s'.pending ==> PendingOk(cfg, g, n, r, s'.pending[r])
  {
    var s' := OnAck(cfg, s, n, m);
    var p, p' := s.pending[m.req], s'.pending[m.req];
    assert PendingOk(cfg, g, n, m.req, p);
    forall i | 0 <= i < |p'.queue|
      ensures Queued(g, p'.queue[i], m.req, p')
    {
      assert i < |p.queue| ==> Queued(g, p.queue[i], m.req, p);
    }
    forall i, j | 0 <= i < j < |p'.queue|
      ensures p'.queue[i].from != p'.queue[j].from
    {
      assert Queued(g, p.queue[i], m.req, p);
    }
  }

  lemma CountedGrows<V(!new)>(cfg: Config<V>, s: NodeState<V>, n: NodeId, m: Msg<V>, op: Op<V>)
    requires m.Ack? && AckFits(cfg, s, n, m) && Waiting(op) && Counted(s, op.phase.req, op.phase.count, op.phase.counted)
    ensures Counted(OnAck(cfg, s, n, m), op.phase.req, op.phase.count, op.phase.counted)
  {
  }

  lemma AckKeeps<V(!new)>(cfg: Config<V>, g: Global<V>, n: NodeId, m: Msg<V>)
    requires IsJoin(cfg.l) && Inv(cfg, g) && n in g.nodes && m in g.net && m.Ack?
    ensures Inv(cfg, Put(g, n, OnAck(cfg, g.nodes[n], n, m)))
  {
    hide IsJoin, DocsOk, MsgOk, CommitOk, ReqOk, ServedOk, NodeOk, Between;
    var g' := Put(g, n, OnAck(cfg, g.nodes[n], n, m));
    if AckFits(cfg, g.nodes[n], n, m) {
      StillBetween(cfg, g, g', n);
      QueuedOk(cfg, g, n, m);
      NodeStays(cfg, g, g', n, g'.nodes[n]);
      InvStays(cfg, g, g');
    } else {
      assert g'.nodes == g.nodes;
      assert g' == g;
    }
  }

  /** The drop branch is unreachable: a fitting ack always finds room in the queue. */
  lemma NeverDropped<V(!new)>(cfg: Config<V>, g: Global<V>, n: NodeId, m: Msg<V>)
    requires Inv(cfg, g) && n in g.nodes && m.Ack? && AckFits(cfg, g.nodes[n], n, m)
    ensures var p := g.nodes[n].pending[m.req];
      |p.queue| < |Peers(cfg, n)| && OnAck(cfg, g.nodes[n], n, m).pending[m.req].queue == p.queue + [m]
  {
    hide DocsOk, MsgOk, CommitOk, ReqOk, ServedOk, OpOk;
    var p := g.nodes[n].pending[m.req];
    assert NodeOk(cfg, g, n, g.nodes[n]);
    assert PendingOk(cfg, g, n, m.req, p);
    forall i | 0 <= i < |p.queue|
      ensures p.queue[i].Ack? && p.queue[i].from in p.seen
    {
      assert Queued(g, p.queue[i], m.req, p);
    }
    DistinctSenders(p.queue, p.seen);
    SubsetCard(p.seen + {m.from}, Peers(cfg, n));
  }

  lemma {:induction false} DistinctSenders<V>(q: seq<Msg<V>>, seen: set<NodeId>)
    requires forall i :: 0 <= i < |q| ==> q[i].Ack? && q[i].from in seen
    requires forall i, j :: 0 <= i < j < |q| ==> q[i].from != q[j].from
    ensures |q| <= |seen|
    decreases |q|
  {
    if q != [] {
      DistinctSenders(q[1..], seen - {q[0].from});
    }
  }

  // ----- beginning an operation -----

  lemma BeginWriteKeeps<V(!new)>(cfg: Config<V>, g: Global<V>, n: NodeId, id: nat, ref: Ref, h: V, ratio: real)
    requires IsJoin(cfg.l) && cfg.nodes != {} && Inv(cfg, g) && Enabled(cfg, g, BeginWrite(n, id, ref, h, ratio))
    ensures Inv(cfg, After(cfg, g, BeginWrite(n, id, ref, h, ratio)))
  {
    hide IsJoin, Inv, Between, OpOk, PendingOk, MsgOk, CommitOk, ReqOk;
    UpdateKeeps(cfg, g, n, ref, h);
    NewOpKeeps(cfg, AfterUpdate(g, n, ref, h), n, id, Op(ref, ratio, false, {}, NeedPush));
  }

  lemma BeginReadKeeps<V(!new)>(cfg: Config<V>, g: Global<V>, n: NodeId, id: nat, ref: Ref, ratio: real)
    requires IsJoin(cfg.l) && cfg.nodes != {} && Inv(cfg, g) && Enabled(cfg, g, BeginRead(n, id, ref, ratio))
    ensures Inv(cfg, After(cfg, g, BeginRead(n, id, ref, ratio)))
  {
    hide IsJoin, Inv, Between, OpOk, PendingOk, MsgOk, CommitOk, ReqOk;
    NewOpKeeps(cfg, g, n, id, Op(ref, ratio, true, CommitsOf(g, ref), NeedPull));
  }

  /** Adding an operation that has yet to begin. */
  lemma NewOpKeeps<V(!new)>(cfg: Config<V>, g: Global<V>, n: NodeId, id: nat, op: Op<V>)
    requires IsJoin(cfg.l) && Inv(cfg, g) && n in g.nodes && id !in g.nodes[n].ops
    requires op.phase.NeedPull? || (op.phase.NeedPush? && op.must == {})
    requires forall c :: c in op.must ==> c in g.commits && c.ref == op.ref
    ensures Inv(cfg, Put(g, n, g.nodes[n].(ops := g.nodes[n].ops[id := op])))
  {
    hide IsJoin, DocsOk, MsgOk, CommitOk, ReqOk, ServedOk, Between, PendingOk;
    var s := g.nodes[n];
    var s' := s.(ops := s.ops[id := op]);
    var g' := Put(g, n, s');
    StillBetween(cfg, g, g', n);
    assert NodeOk(cfg, g, n, s);
    PendingsStay(cfg, g, g', n);
    assert OpOk(cfg, g', n, s', op);
    Worked(cfg, g, g', n, id, op);
  }

  lemma PendingsStay<V(!new)>(cfg: Config<V>, g: Global<V>, g': Global<V>, n: NodeId)
    requires Between(cfg, g, g') && n in g.nodes && NodeOk(cfg, g, n, g.nodes[n])
    ensures forall r :: r in g.nodes[n].pending ==> PendingOk(cfg, g', n, r, g.nodes[n].pending[r])
  {
    hide IsJoin, DocsOk, PendingOk, OpOk, Extends;
    forall r | r in g.nodes[n].pending
      ensures PendingOk(cfg, g', n, r, g.nodes[n].pending[r])
    {
      PendingStays(cfg, g, g', n, r, g.nodes[n].pending[r]);
    }
  }

  // ----- gathering -----

  /** What a node holds itself is gathered from the start. */
  lemma SelfGathered<V(!new)>(cfg: Config<V>, g: Global<V>, n: NodeId, op: Op<V>)
    requires (forall c :: c in g.commits ==> CommitOk(cfg, g, c))
    requires forall c :: c in op.must ==> c in g.commits && c.ref == op.ref
    ensures Gathered(cfg, g, n, op, {n})
  {
    hide Holds, Genuine;
    forall c, x | c in op.must && x in c.holders && x in {n}
      ensures Holds(cfg, g, n, op.ref, c.snap)
    {
      assert CommitOk(cfg, g, c);
    }
  }

  /** Having met a majority, one has met a holder of every majority push. */
  lemma MajorityGathers<V(!new)>(cfg: Config<V>, g: Global<V>, n: NodeId, op: Op<V>, met: set<NodeId>)
    requires (forall c :: c in g.commits ==> CommitOk(cfg, g, c))
    requires forall c :: c in op.must ==> c in g.commits && c.ref == op.ref
    requires Gathered(cfg, g, n, op, met) && met <= cfg.nodes && cfg.nodes != {}
    requires n in met && Reached(cfg, |met - {n}|, op.ratio)
    ensures AllGathered(cfg, g, n, op)
  {
    hide Holds, Genuine, Reached;
    if op.ratio >= 0.5 {
      assert met == (met - {n}) + {n} && |met| == |met - {n}| + 1;
      SubsetCard(met, cfg.nodes);
      HalfIsMajority(cfg, |met - {n}|, op.ratio);
      forall c | c in op.must
        ensures Holds(cfg, g, n, op.ref, c.snap)
      {
        assert CommitOk(cfg, g, c);
        var x := MajoritiesMeet(cfg, c.holders, met);
      }
    }
  }

  // ----- launching a request -----

  lemma FreshReq<V(!new)>(cfg: Config<V>, g: Global<V>, n: NodeId)
    requires Inv(cfg, g) && n in g.nodes
    ensures var r := ReqId(n, g.nodes[n].minted + 1);
      r !in g.reqs && r !in g.nodes[n].pending
      && forall j :: j in g.nodes[n].ops && Waiting(g.nodes[n].ops[j]) ==> Awaited(g.nodes[n].ops[j]) != r
  {
    hide DocsOk, MsgOk, CommitOk, ServedOk, Gathered, AllGathered, PushedOk, Holds, Genuine;
    var s := g.nodes[n];
    assert NodeOk(cfg, g, n, s);
    forall q | q in g.reqs && q.node == n
      ensures q.number <= s.minted
    {
      assert ReqOk(cfg, g, q);
    }
    forall q | q in s.pending
      ensures q in g.reqs
    {
      assert PendingOk(cfg, g, n, q, s.pending[q]);
    }
    forall j | j in s.ops && Waiting(s.ops[j])
      ensures Awaited(s.ops[j]) in g.reqs
    {
      assert OpOk(cfg, g, n, s, s.ops[j]);
    }
  }

  /** What the request a node launches may be: its operation's, with what the node holds or knows. */
  ghost predicate Launchable<V(!new)>(cfg: Config<V>, g: Global<V>, n: NodeId, op: Op<V>, req: Req<V>)
    requires n in g.nodes
  {
    match req
    case PushReq(ref, snap) => ref == op.ref && snap == View(g, n, ref) && AllGathered(cfg, g, n, op)
    case PullReq(ref, must) => ref == op.ref && must == op.must
  }

  lemma LaunchKeeps<V(!new)>(cfg: Config<V>, g: Global<V>, n: NodeId, id: nat, req: Req<V>)
    requires IsJoin(cfg.l) && Inv(cfg, g) && Running(g, n, id) && Launchable(cfg, g, n, g.nodes[n].ops[id], req)
    ensures Inv(cfg, Launch(cfg, g, n, id, req))
  {
    hide IsJoin, DocsOk, MsgOk, CommitOk, ReqOk, ServedOk, OpOk, PendingOk, Between, Launchable;
    var g' := Launch(cfg, g, n, id, req);
    var op' := g'.nodes[n].ops[id];
    FreshReq(cfg, g, n);
    assert NodeOk(cfg, g, n, g.nodes[n]);
    StillBetween(cfg, g, g', n);
    PendingsStay(cfg, g, g', n);
    LaunchedReq(cfg, g, g', n, id, req);
    LaunchedPending(cfg, g, g', n, id, req);
    LaunchedMsgs(cfg, g, n, id, req);
    LaunchedOp(cfg, g, g', n, id, req);
    Worked(cfg, g, g', n, id, op');
  }

  lemma LaunchedPending<V(!new)>(cfg: Config<V>, g: Global<V>, g': Global<V>, n: NodeId, id: nat, req: Req<V>)
    requires Running(g, n, id) && g' == Launch(cfg, g, n, id, req) && req.ref == g.nodes[n].ops[id].ref
    requires forall r :: r in g.nodes[n].pending ==> PendingOk(cfg, g', n, r, g.nodes[n].pending[r])
    ensures forall r :: r in g'.nodes[n].pending ==> PendingOk(cfg, g', n, r, g'.nodes[n].pending[r])
  {
  }

  lemma LaunchedReq<V(!new)>(cfg: Config<V>, g: Global<V>, g': Global<V>, n: NodeId, id: nat, req: Req<V>)
    requires IsJoin(cfg.l) && Inv(cfg, g) && Running(g, n, id) && Launchable(cfg, g, n, g.nodes[n].ops[id], req)
    requires g' == Launch(cfg, g, n, id, req) && Between(cfg, g, g')
    ensures forall r :: r in g'.reqs && r !in g.reqs ==> ReqOk(cfg, g', r)
    ensures req.ref == g.nodes[n].ops[id].ref
  {
    hide IsJoin, MsgOk, CommitOk, ServedOk, PendingOk, HistoryOk, Genuine, Gathered, AllGathered, PushedOk, Extends;
    assert NodeOk(cfg, g, n, g.nodes[n]) && OpOk(cfg, g, n, g.nodes[n], g.nodes[n].ops[id]);
    ExtendsRecords(cfg, g, g');
    if req.PushReq? {
      assert Genuine(cfg, g, req.ref, View(g, n, req.ref));
      GenuineStays(cfg, g, g', req.ref, req.snap);
    }
  }

  lemma LaunchedMsgs<V(!new)>(cfg: Config<V>, g: Global<V>, n: NodeId, id: nat, req: Req<V>)
    requires Running(g, n, id) && req.ref == g.nodes[n].ops[id].ref
    ensures var g' := Launch(cfg, g, n, id, req); forall m :: m in g'.net - g.net ==> MsgOk(cfg, g', m)
  {
    hide Genuine;
  }

  lemma LaunchedOp<V(!new)>(cfg: Config<V>, g: Global<V>, g': Global<V>, n: NodeId, id: nat, req: Req<V>)
    requires IsJoin(cfg.l) && Inv(cfg, g) && Running(g, n, id) && Launchable(cfg, g, n, g.nodes[n].ops[id], req)
    requires g' == Launch(cfg, g, n, id, req) && Between(cfg, g, g')
    ensures OpOk(cfg, g', n, g'.nodes[n], g'.nodes[n].ops[id])
  {
    hide IsJoin, MsgOk, CommitOk, ServedOk, ReqOk, PendingOk, DocsOk, Gathered, AllGathered, PushedOk, Holds, Counted,
      Extends;
    var op, r := g.nodes[n].ops[id], ReqId(n, g.nodes[n].minted + 1);
    var s', op' := g'.nodes[n], g'.nodes[n].ops[id];
    assert NodeOk(cfg, g, n, g.nodes[n]) && OpOk(cfg, g, n, g.nodes[n], op);
    ExtendsRecords(cfg, g, g');
    NoneCounted(s', r);
    if req.PushReq? {
      MustStays(cfg, g, g', n, op, {});
      AllGatheredSame(cfg, g', n, op, op');
      LaunchedHolds(cfg, g, g', n, id, req);
    } else {
      SelfGathered(cfg, g, n, op);
      MustStays(cfg, g, g', n, op, {n});
      GatheredSame(cfg, g', n, op, op', {n}, {} + {n});
    }
  }

  lemma NoneCounted<V(!new)>(s: NodeState<V>, r: ReqId)
    requires r in s.pending && s.pending[r].queue == []
    ensures Counted(s, r, 0, {})
  {
  }

  lemma LaunchedHolds<V(!new)>(cfg: Config<V>, g: Global<V>, g': Global<V>, n: NodeId, id: nat, req: Req<V>)
    requires IsJoin(cfg.l) && Inv(cfg, g) && Running(g, n, id) && Launchable(cfg, g, n, g.nodes[n].ops[id], req)
    requires g' == Launch(cfg, g, n, id, req) && req.PushReq?
    ensures Holds(cfg, g', n, req.ref, req.snap)
  {
    hide IsJoin, DocLeq;
    ViewInDom(cfg, g, n, req.ref);
    DocLeqReflexive(cfg.l, View(g, n, req.ref));
  }

  lemma AllGatheredSame<V(!new)>(cfg: Config<V>, g: Global<V>, n: NodeId, op: Op<V>, op': Op<V>)
    requires AllGathered(cfg, g, n, op) && op'.ratio == op.ratio && op'.must == op.must && op'.ref == op.ref
    ensures AllGathered(cfg, g, n, op')
  {
  }

  lemma GatheredSame<V(!new)>(cfg: Config<V>, g: Global<V>, n: NodeId, op: Op<V>, op': Op<V>, met: set<NodeId>,
    met': set<NodeId>)
    requires Gathered(cfg, g, n, op, met) && op'.must == op.must && op'.ref == op.ref && met' <= met
    ensures Gathered(cfg, g, n, op', met')
  {
  }

  lemma BeginPullKeeps<V(!new)>(cfg: Config<V>, g: Global<V>, n: NodeId, id: nat)
    requires IsJoin(cfg.l) && cfg.nodes != {} && Inv(cfg, g) && Enabled(cfg, g, BeginPull(n, id))
    ensures Inv(cfg, After(cfg, g, BeginPull(n, id)))
  {
    hide IsJoin, DocsOk, MsgOk, CommitOk, ReqOk, ServedOk, PendingOk, Gathered, AllGathered, PushedOk, Launch, Reached;
    var op := g.nodes[n].ops[id];
    if Reached(cfg, 0, op.ratio) {
      assert NodeOk(cfg, g, n, g.nodes[n]) && OpOk(cfg, g, n, g.nodes[n], op);
      SelfGathered(cfg, g, n, op);
      assert {n} - {n} == {} && |{n} - {n}| == 0;
      MajorityGathers(cfg, g, n, op, {n});
      AllGatheredSame(cfg, g, n, op, op.(phase := NeedPush));
      PhaseKeeps(cfg, g, n, id, NeedPush);
    } else {
      LaunchKeeps(cfg, g, n, id, PullReq(op.ref, op.must));
    }
  }

  /** Moving an operation to a phase in which it waits for nothing. */
  lemma PhaseKeeps<V(!new)>(cfg: Config<V>, g: Global<V>, n: NodeId, id: nat, phase: Phase<V>)
    requires IsJoin(cfg.l) && Inv(cfg, g) && Running(g, n, id) && !phase.Pulling? && !phase.Pushing?
    requires OpOk(cfg, g, n, g.nodes[n], g.nodes[n].ops[id].(phase := phase))
    ensures Inv(cfg, Put(g, n, SetPhase(g.nodes[n], id, phase)))
  {
    hide IsJoin, DocsOk, MsgOk, CommitOk, ReqOk, ServedOk, Between, PendingOk, OpOk;
    var s, op := g.nodes[n], g.nodes[n].ops[id].(phase := phase);
    var g' := Put(g, n, SetPhase(s, id, phase));
    assert NodeOk(cfg, g, n, s);
    StillBetween(cfg, g, g', n);
    PendingsStay(cfg, g, g', n);
    OpStays(cfg, g, g', n, s, op);
    NotWaiting(cfg, g', n, s, SetPhase(s, id, phase), op);
    Worked(cfg, g, g', n, id, op);
  }

  lemma NotWaiting<V(!new)>(cfg: Config<V>, g: Global<V>, n: NodeId, s: NodeState<V>, s': NodeState<V>, op: Op<V>)
    requires OpOk(cfg, g, n, s, op) && !Waiting(op)
    ensures OpOk(cfg, g, n, s', op)
  {
  }

  lemma AnswerKeeps<V(!new)>(cfg: Config<V>, g: Global<V>, n: NodeId, id: nat)
    requires IsJoin(cfg.l) && cfg.nodes != {} && Inv(cfg, g) && Enabled(cfg, g, Answer(n, id))
    ensures Inv(cfg, After(cfg, g, Answer(n, id)))
  {
    hide IsJoin, DocsOk, MsgOk, CommitOk, ReqOk, ServedOk, PendingOk, PushedOk, DocLeq;
    var op := g.nodes[n].ops[id];
    assert NodeOk(cfg, g, n, g.nodes[n]) && OpOk(cfg, g, n, g.nodes[n], op);
    PhaseKeeps(cfg, g, n, id, Answered(View(g, n, op.ref)));
  }

  // ----- finishing a push -----

  lemma FinishKeeps<V(!new)>(cfg: Config<V>, g: Global<V>, n: NodeId, id: nat, reqs: set<ReqId>, snap: Doc<V>,
    holders: set<NodeId>)
    requires IsJoin(cfg.l) && cfg.nodes != {} && Inv(cfg, g) && Running(g, n, id)
    requires var op := g.nodes[n].ops[id];
      n in holders && holders <= cfg.nodes && Reached(cfg, |holders - {n}|, op.ratio) && Genuine(cfg, g, op.ref, snap)
      && (forall x :: x in holders ==> Holds(cfg, g, x, op.ref, snap)) && AllGathered(cfg, g, n, op)
      && (forall x :: x in holders && x != n ==>
        exists r :: r in reqs && (x, r) in g.served && r in g.reqs && g.reqs[r] == PushReq(op.ref, snap))
    ensures Inv(cfg, Finish(g, n, id, reqs, snap, holders))
  {
    hide IsJoin, DocsOk, MsgOk, CommitOk, ReqOk, ServedOk, Between, PendingOk, OpOk, Reached, Genuine, Holds, AllGathered;
    var s, op := g.nodes[n], g.nodes[n].ops[id];
    var g' := Finish(g, n, id, reqs, snap, holders);
    var op' := op.(phase := Pushed(reqs, snap, holders));
    assert NodeOk(cfg, g, n, s);
    StillBetween(cfg, g, g', n);
    PendingsStay(cfg, g, g', n);
    FinishedCommit(cfg, g, g', n, op, snap, holders);
    FinishedOp(cfg, g, g', n, id, reqs, snap, holders);
    Worked(cfg, g, g', n, id, op');
  }

  lemma FinishedCommit<V(!new)>(cfg: Config<V>, g: Global<V>, g': Global<V>, n: NodeId, op: Op<V>, snap: Doc<V>,
    holders: set<NodeId>)
    requires Between(cfg, g, g') && n in holders && holders <= cfg.nodes && cfg.nodes != {}
    requires Reached(cfg, |holders - {n}|, op.ratio) && Genuine(cfg, g, op.ref, snap)
    requires forall x :: x in holders ==> Holds(cfg, g, x, op.ref, snap)
    ensures op.ratio >= 0.5 ==> CommitOk(cfg, g', Commit(op.ref, snap, holders))
  {
    hide IsJoin, Reached, DocsOk, Genuine, Holds, Extends;
    if op.ratio >= 0.5 {
      assert holders == (holders - {n}) + {n} && |holders| == |holders - {n}| + 1;
      SubsetCard(holders, cfg.nodes);
      HalfIsMajority(cfg, |holders - {n}|, op.ratio);
      GenuineStays(cfg, g, g', op.ref, snap);
      forall x | x in holders
        ensures Holds(cfg, g', x, op.ref, snap)
      {
        HoldsStays(cfg, g, g', x, op.ref, snap);
      }
    }
  }

  lemma FinishedOp<V(!new)>(cfg: Config<V>, g: Global<V>, g': Global<V>, n: NodeId, id: nat, reqs: set<ReqId>,
    snap: Doc<V>, holders: set<NodeId>)
    requires Inv(cfg, g) && Running(g, n, id) && Between(cfg, g, g') && cfg.nodes != {}
    requires var op := g.nodes[n].ops[id];
      n in holders && holders <= cfg.nodes && Reached(cfg, |holders - {n}|, op.ratio) && Genuine(cfg, g, op.ref, snap)
      && (forall x :: x in holders ==> Holds(cfg, g, x, op.ref, snap)) && AllGathered(cfg, g, n, op)
      && (forall x :: x in holders && x != n ==>
        exists r :: r in reqs && (x, r) in g.served && r in g.reqs && g.reqs[r] == PushReq(op.ref, snap))
    requires g' == Finish(g, n, id, reqs, snap, holders)
    ensures OpOk(cfg, g', n, g'.nodes[n], g.nodes[n].ops[id].(phase := Pushed(reqs, snap, holders)))
  {
    hide IsJoin, Reached, DocsOk, Genuine, Holds, AllGathered, Gathered, MsgOk, CommitOk, ReqOk, ServedOk, PendingOk,
      Extends;
    var s, op := g.nodes[n], g.nodes[n].ops[id];
    var op' := op.(phase := Pushed(reqs, snap, holders));
    assert NodeOk(cfg, g, n, s) && OpOk(cfg, g, n, s, op);
    MustStays(cfg, g, g', n, op, {});
    AllGatheredSame(cfg, g', n, op, op');
    GenuineStays(cfg, g, g', op.ref, snap);
    forall x | x in holders
      ensures Holds(cfg, g', x, op.ref, snap)
    {
      HoldsStays(cfg, g, g', x, op.ref, snap);
    }
  }

  lemma BeginPushKeeps<V(!new)>(cfg: Config<V>, g: Global<V>, n: NodeId, id: nat)
    requires IsJoin(cfg.l) && cfg.nodes != {} && Inv(cfg, g) && Enabled(cfg, g, BeginPush(n, id))
    ensures Inv(cfg, After(cfg, g, BeginPush(n, id)))
  {
    hide IsJoin, DocsOk, MsgOk, CommitOk, ReqOk, ServedOk, PendingOk, Gathered, AllGathered, PushedOk, Launch, Reached,
      Finish, Genuine, DocLeq;
    var op := g.nodes[n].ops[id];
    assert NodeOk(cfg, g, n, g.nodes[n]) && OpOk(cfg, g, n, g.nodes[n], op);
    if Reached(cfg, 0, op.ratio) {
      assert {n} - {n} == {} && |{n} - {n}| == 0;
      ViewInDom(cfg, g, n, op.ref);
      DocLeqReflexive(cfg.l, View(g, n, op.ref));
      FinishKeeps(cfg, g, n, id, {}, View(g, n, op.ref), {n});
    } else {
      LaunchKeeps(cfg, g, n, id, PushReq(op.ref, View(g, n, op.ref)));
    }
  }

  // ----- operations, piece by piece -----

  /** What the invariant says of one operation. */
  lemma OpFacts<V(!new)>(cfg: Config<V>, g: Global<V>, n: NodeId, id: nat)
    requires Inv(cfg, g) && Running(g, n, id)
    ensures g.nodes.Keys == cfg.nodes && MustOk(g, g.nodes[n].ops[id])
    ensures var op := g.nodes[n].ops[id];
      op.phase.Pulling? ==>
        op.phase.req in g.reqs && g.reqs[op.phase.req] == PullReq(op.ref, op.must)
        && Gathered(cfg, g, n, op, op.phase.counted + {n})
    ensures var op := g.nodes[n].ops[id];
      op.phase.Pushing? ==>
        op.phase.req in g.reqs && g.reqs[op.phase.req] == PushReq(op.ref, op.phase.snap) && AllGathered(cfg, g, n, op)
        && Holds(cfg, g, n, op.ref, op.phase.snap)
        && forall x :: x in op.phase.counted ==> (x, op.phase.req) in g.served
  {
    hide DocsOk, MsgOk, CommitOk, ReqOk, ServedOk, PendingOk, Gathered, AllGathered, PushedOk, Holds, Counted;
    assert NodeOk(cfg, g, n, g.nodes[n]);
  }

  /** The majority pushes an operation has to see are recorded, and about its document. */
  ghost predicate MustOk<V(!new)>(g: Global<V>, op: Op<V>) {
    forall c :: c in op.must ==> c in g.commits && c.ref == op.ref
  }

  lemma PullingOk<V(!new)>(cfg: Config<V>, g: Global<V>, n: NodeId, s: NodeState<V>, op: Op<V>)
    requires MustOk(g, op) && op.phase.Pulling? && op.phase.req in g.reqs
    requires Counted(s, op.phase.req, op.phase.count, op.phase.counted)
    requires g.reqs[op.phase.req] == PullReq(op.ref, op.must) && Gathered(cfg, g, n, op, op.phase.counted + {n})
    ensures OpOk(cfg, g, n, s, op)
  {
    hide Counted, Gathered;
  }

  lemma PushingOk<V(!new)>(cfg: Config<V>, g: Global<V>, n: NodeId, s: NodeState<V>, op: Op<V>)
    requires MustOk(g, op) && op.phase.Pushing? && op.phase.req in g.reqs && AllGathered(cfg, g, n, op)
    requires Counted(s, op.phase.req, op.phase.count, op.phase.counted)
    requires g.reqs[op.phase.req] == PushReq(op.ref, op.phase.snap) && Holds(cfg, g, n, op.ref, op.phase.snap)
    requires forall x :: x in op.phase.counted ==> (x, op.phase.req) in g.served
    ensures OpOk(cfg, g, n, s, op)
  {
    hide Counted, AllGathered, Holds;
  }

  lemma NeedPushOk<V(!new)>(cfg: Config<V>, g: Global<V>, n: NodeId, s: NodeState<V>, op: Op<V>)
    requires MustOk(g, op) && op.phase.NeedPush? && AllGathered(cfg, g, n, op)
    ensures OpOk(cfg, g, n, s, op)
  {
    hide AllGathered;
  }

  lemma PutMoves<V(!new)>(g: Global<V>, n: NodeId, s: NodeState<V>)
    requires n in g.nodes
    ensures Moves(g, Put(g, n, s), n)
  {
  }

  /** The parts of a waiting operation's new state that do not concern its documents. */
  ghost predicate Waited<V(!new)>(cfg: Config<V>, g: Global<V>, g': Global<V>, n: NodeId, id: nat, op: Op<V>) {
    Inv(cfg, g) && Between(cfg, g, g') && Moves(g, g', n) && Reworked(g.nodes[n], g'.nodes[n], id, op)
    && (forall r :: r in g'.nodes[n].pending ==> PendingOk(cfg, g', n, r, g'.nodes[n].pending[r]))
    && g'.net == g.net && g'.commits == g.commits && g'.reqs == g.reqs && g'.served == g.served
  }

  lemma WaitedKeeps<V(!new)>(cfg: Config<V>, g: Global<V>, g': Global<V>, n: NodeId, id: nat, op: Op<V>)
    requires Waited(cfg, g, g', n, id, op) && OpOk(cfg, g', n, g'.nodes[n], op)
    ensures Inv(cfg, g')
  {
    hide Inv, Between, Reworked, PendingOk, OpOk;
    Worked(cfg, g, g', n, id, op);
  }

  lemma MustOkSame<V(!new)>(g: Global<V>, g': Global<V>, op: Op<V>, op': Op<V>)
    requires MustOk(g, op) && g.commits <= g'.commits && op'.must == op.must && op'.ref == op.ref
    ensures MustOk(g', op')
  {
  }

  // ----- collecting acks -----

  /** The ack at the head of a waiting operation's queue. */
  function Head<V(==)>(g: Global<V>, n: NodeId, id: nat): Msg<V>
    requires Running(g, n, id) && Waiting(g.nodes[n].ops[id])
    requires var r := Awaited(g.nodes[n].ops[id]); r in g.nodes[n].pending && g.nodes[n].pending[r].queue != []
  {
    g.nodes[n].pending[Awaited(g.nodes[n].ops[id])].queue[0]
  }

  /** The node with the head of the queue taken off. */
  function Taken<V(==)>(s: NodeState<V>, r: ReqId): NodeState<V>
    requires r in s.pending && s.pending[r].queue != []
  {
    s.(pending := s.pending[r := s.pending[r].(queue := s.pending[r].queue[1..])])
  }

  function Dropped<V(==)>(s: NodeState<V>, r: ReqId): NodeState<V> {
    s.(pending := s.pending - {r})
  }

  /** A queued ack is about the request, from a peer not counted before, and counts. */
  lemma HeadCounts<V(!new)>(cfg: Config<V>, g: Global<V>, n: NodeId, id: nat)
    requires Inv(cfg, g) && Enabled(cfg, g, Collect(n, id))
    ensures var op, m := g.nodes[n].ops[id], Head(g, n, id); var r := Awaited(op);
      m in g.net && m.Ack? && m.req == r && m.from in Peers(cfg, n) && m.from !in op.phase.counted
      && m.from in g.nodes[n].pending[r].seen && r in g.reqs && g.reqs[r].ref == op.ref && AckCounts(cfg, g, m)
      && (op.phase.Pulling? ==> g.reqs[r] == PullReq(op.ref, op.must))
      && (op.phase.Pushing? ==> g.reqs[r] == PushReq(op.ref, op.phase.snap))
  {
    hide IsJoin, DocsOk, CommitOk, ReqOk, ServedOk, Gathered, AllGathered, Holds, Genuine;
    var s, op, m := g.nodes[n], g.nodes[n].ops[id], Head(g, n, id);
    var r := Awaited(op);
    assert NodeOk(cfg, g, n, s) && OpOk(cfg, g, n, s, op);
    assert PendingOk(cfg, g, n, r, s.pending[r]);
    assert Queued(g, s.pending[r].queue[0], r, s.pending[r]);
    assert MsgOk(cfg, g, m);
  }

  lemma TakenPendings<V(!new)>(cfg: Config<V>, g: Global<V>, n: NodeId, s: NodeState<V>, r: ReqId)
    requires r in s.pending && s.pending[r].queue != []
    requires forall q :: q in s.pending ==> PendingOk(cfg, g, n, q, s.pending[q])
    ensures forall q :: q in Taken(s, r).pending ==> PendingOk(cfg, g, n, q, Taken(s, r).pending[q])
  {
    var p, p' := s.pending[r], Taken(s, r).pending[r];
    assert PendingOk(cfg, g, n, r, p);
    forall i | 0 <= i < |p'.queue|
      ensures Queued(g, p'.queue[i], r, p')
    {
      assert Queued(g, p.queue[i + 1], r, p);
    }
  }

  lemma TakenCounted<V(!new)>(s: NodeState<V>, r: ReqId, count: nat, counted: set<NodeId>)
    requires Counted(s, r, count, counted) && s.pending[r].queue != [] && s.pending[r].queue[0].Ack?
    requires s.pending[r].queue[0].from in s.pending[r].seen
    requires forall i, j :: 0 <= i < j < |s.pending[r].queue| ==>
      s.pending[r].queue[i].Ack? && s.pending[r].queue[j].Ack? && s.pending[r].queue[i].from != s.pending[r].queue[j].from
    ensures Counted(Taken(s, r), r, count, counted)
    ensures Counted(Taken(s, r), r, count + 1, counted + {s.pending[r].queue[0].from})
  {
    var q, q' := s.pending[r].queue, Taken(s, r).pending[r].queue;
    assert q[0].from !in counted;
    forall i | 0 <= i < |q'|
      ensures q'[i].Ack? && q'[i].from !in counted + {q[0].from}
    {
      assert q'[i] == q[i + 1];
    }
  }

  /** The counts before and after taking the head off the queue. */
  lemma HeadTaken<V(!new)>(cfg: Config<V>, g: Global<V>, n: NodeId, id: nat)
    requires Inv(cfg, g) && Enabled(cfg, g, Collect(n, id))
    ensures var s, op, m := g.nodes[n], g.nodes[n].ops[id], Head(g, n, id); var r, p := Awaited(op), op.phase;
      m.Ack? && Counted(Taken(s, r), r, p.count, p.counted) && Counted(Taken(s, r), r, p.count + 1, p.counted + {m.from})
      && p.count == |p.counted| && p.counted <= Peers(cfg, n)
  {
    hide IsJoin, DocsOk, MsgOk, CommitOk, ReqOk, ServedOk, Gathered, AllGathered, Holds, Genuine, AckCounts;
    var s, op := g.nodes[n], g.nodes[n].ops[id];
    var r := Awaited(op);
    HeadCounts(cfg, g, n, id);
    assert NodeOk(cfg, g, n, s) && OpOk(cfg, g, n, s, op);
    assert PendingOk(cfg, g, n, r, s.pending[r]);
    var q := s.pending[r].queue;
    forall i | 0 <= i < |q|
      ensures q[i].Ack?
    {
      assert Queued(g, q[i], r, s.pending[r]);
    }
    TakenCounted(s, r, op.phase.count, op.phase.counted);
  }

  /** Pending requests stay in order when one loses its head or disappears. */
  lemma PendingsAfter<V(!new)>(cfg: Config<V>, g: Global<V>, g': Global<V>, n: NodeId, id: nat)
    requires Inv(cfg, g) && Enabled(cfg, g, Collect(n, id)) && Between(cfg, g, g')
    ensures var s := g.nodes[n]; var r := Awaited(s.ops[id]);
      (forall q :: q in Taken(s, r).pending ==> PendingOk(cfg, g', n, q, Taken(s, r).pending[q]))
      && forall q :: q in Dropped(s, r).pending ==> PendingOk(cfg, g', n, q, Dropped(s, r).pending[q])
  {
    hide IsJoin, DocsOk, MsgOk, CommitOk, ReqOk, ServedOk, PendingOk, OpOk, Between;
    assert NodeOk(cfg, g, n, g.nodes[n]);
    PendingsStay(cfg, g, g', n);
    TakenPendings(cfg, g', n, g.nodes[n], Awaited(g.nodes[n].ops[id]));
  }

  /** Taking the head or dropping the request touches no other operation's request. */
  lemma ReworkedAfter<V(!new)>(cfg: Config<V>, g: Global<V>, n: NodeId, id: nat, s': NodeState<V>, op: Op<V>)
    requires Inv(cfg, g) && Running(g, n, id) && Waiting(g.nodes[n].ops[id])
    requires var s := g.nodes[n]; var r := Awaited(s.ops[id]);
      r in s.pending && s'.ops == s.ops[id := op] && (Waiting(op) ==> Awaited(op) == r)
      && forall q :: q in s.pending && q != r ==> q in s'.pending && s'.pending[q] == s.pending[q]
    ensures Reworked(g.nodes[n], s', id, op)
  {
    hide IsJoin, DocsOk, MsgOk, CommitOk, ReqOk, ServedOk, PendingOk, OpOk;
    assert NodeOk(cfg, g, n, g.nodes[n]);
  }

  /** A pull ack whose snapshot does not decode is taken off the queue and not counted. */
  lemma GarbledKeeps<V(!new)>(cfg: Config<V>, g: Global<V>, n: NodeId, id: nat)
    requires IsJoin(cfg.l) && Inv(cfg, g) && Enabled(cfg, g, Collect(n, id)) && g.nodes[n].ops[id].phase.Pulling?
    ensures Inv(cfg, Put(g, n, Taken(g.nodes[n], Awaited(g.nodes[n].ops[id]))))
  {
    hide IsJoin, DocsOk, MsgOk, CommitOk, ReqOk, ServedOk, PendingOk, Between, Counted, Gathered, AllGathered, PushedOk,
      Reworked;
    var s, op := g.nodes[n], g.nodes[n].ops[id];
    var r := Awaited(op);
    var s' := Taken(s, r);
    var g' := Put(g, n, s');
    assert NodeOk(cfg, g, n, s) && OpOk(cfg, g, n, s, op);
    StillBetween(cfg, g, g', n);
    PendingsAfter(cfg, g, g', n, id);
    assert s.ops == s.ops[id := op];
    ReworkedAfter(cfg, g, n, id, s', op);
    HeadTaken(cfg, g, n, id);
    MustStays(cfg, g, g', n, op, op.phase.counted + {n});
    Worked(cfg, g, g', n, id, op);
  }

  /** The merge of a pull ack: between states, and the coordinator then holds all its sender had to. */
  lemma PullMerged<V(!new)>(cfg: Config<V>, g: Global<V>, g': Global<V>, n: NodeId, id: nat, s1: NodeState<V>)
    requires IsJoin(cfg.l) && Inv(cfg, g) && Enabled(cfg, g, Collect(n, id)) && g.nodes[n].ops[id].phase.Pulling?
    requires Head(g, n, id).Ack? && Head(g, n, id).snap.Wire? && Moves(g, g', n) && s1.docs == g.nodes[n].docs
    requires g'.nodes[n].docs == MergeCollection(cfg, s1, g.nodes[n].ops[id].ref, Head(g, n, id).snap).docs
    requires g'.nodes[n].minted == g.nodes[n].minted
    ensures Between(cfg, g, g')
    ensures var op := g.nodes[n].ops[id]; Gathered(cfg, g', n, op, op.phase.counted + {n, Head(g, n, id).from})
  {
    hide IsJoin, DocsOk, MsgOk, CommitOk, ReqOk, ServedOk, PendingOk, Genuine, DocLeq, Absorbs, Extends, Counted;
    var op, m := g.nodes[n].ops[id], Head(g, n, id);
    HeadCounts(cfg, g, n, id);
    MergeAbsorbs(cfg, g, s1, op.ref, m.snap.doc);
    AbsorbsDocs(cfg, g, s1, MergeCollection(cfg, s1, op.ref, m.snap), g.nodes[n], g'.nodes[n]);
    AbsorbBetween(cfg, g, g', n);
    MergedHolds(cfg, g, s1, n, op.ref, m.snap.doc);
    assert NodeOk(cfg, g, n, g.nodes[n]) && OpOk(cfg, g, n, g.nodes[n], op);
    MustStays(cfg, g, g', n, op, op.phase.counted + {n});
    SenderGathered(cfg, g, g', n, op, m);
  }

  lemma AbsorbsDocs<V(!new)>(cfg: Config<V>, g: Global<V>, a: NodeState<V>, a': NodeState<V>, b: NodeState<V>,
    b': NodeState<V>)
    requires Absorbs(cfg, g, a, a') && a.docs == b.docs && a'.docs == b'.docs && b.minted <= b'.minted
    ensures Absorbs(cfg, g, b, b')
  {
    hide AbsorbedDoc;
    forall ref
      ensures AbsorbedDoc(cfg, g, ref, DocOf(b, ref), DocOf(b', ref))
    {
      assert AbsorbedDoc(cfg, g, ref, DocOf(a, ref), DocOf(a', ref));
    }
  }

  lemma BetweenDocs<V(!new)>(cfg: Config<V>, g: Global<V>, g': Global<V>)
    requires Between(cfg, g, g')
    ensures g'.nodes.Keys == cfg.nodes && DocsOk(cfg, g')
  {
    hide IsJoin, DocsOk;
  }

  /** What the sender held when it answered is now held by the coordinator. */
  lemma SenderGathered<V(!new)>(cfg: Config<V>, g: Global<V>, g': Global<V>, n: NodeId, op: Op<V>, m: Msg<V>)
    requires Inv(cfg, g) && Between(cfg, g, g') && n in cfg.nodes && m.Ack? && m.snap.Wire?
    requires m.req in g.reqs && g.reqs[m.req] == PullReq(op.ref, op.must) && AckCounts(cfg, g, m)
    requires DocLeq(cfg.l, m.snap.doc, View(g', n, op.ref))
    requires forall c :: c in op.must ==> c in g.commits && c.ref == op.ref
    ensures Gathered(cfg, g', n, op, {m.from})
  {
    hide IsJoin, DocsOk, MsgOk, ReqOk, ServedOk, NodeOk, Genuine, DocLeq, Extends;
    forall c, x | c in op.must && x in c.holders && x in {m.from}
      ensures Holds(cfg, g', n, op.ref, c.snap)
    {
      assert CommitOk(cfg, g, c);
      GenuineInDom(cfg, g, op.ref, c.snap);
      GenuineInDom(cfg, g, op.ref, m.snap.doc);
      BetweenDocs(cfg, g, g');
      ViewInDom(cfg, g', n, op.ref);
      DocLeqTransitive(cfg.l, c.snap, m.snap.doc, View(g', n, op.ref));
    }
  }

  /** A pull ack that merges and does not complete the quorum. */
  lemma PullMoreKeeps<V(!new)>(cfg: Config<V>, g: Global<V>, n: NodeId, id: nat)
    requires IsJoin(cfg.l) && Inv(cfg, g) && Enabled(cfg, g, Collect(n, id)) && g.nodes[n].ops[id].phase.Pulling?
    requires Head(g, n, id).Ack? && Head(g, n, id).snap.Wire?
    ensures var op, m := g.nodes[n].ops[id], Head(g, n, id); var r, p := Awaited(op), op.phase;
      Inv(cfg, Put(g, n, SetPhase(MergeCollection(cfg, Taken(g.nodes[n], r), op.ref, m.snap), id,
        Pulling(r, p.count + 1, p.counted + {m.from}))))
  {
    hide IsJoin, Inv, OpOk, PendingOk, Between, Counted, Gathered, AllGathered, Reworked, MergeCollection, Moves,
      MustOk, AckCounts, Taken, SetPhase;
    var s, op, m := g.nodes[n], g.nodes[n].ops[id], Head(g, n, id);
    var r, p := Awaited(op), op.phase;
    var s1 := Taken(s, r);
    TakenFrame(s, r);
    MergeFrame(cfg, s1, op.ref, m.snap);
    PhaseFrame(MergeCollection(cfg, s1, op.ref, m.snap), id, Pulling(r, p.count + 1, p.counted + {m.from}));
    var s' := SetPhase(MergeCollection(cfg, s1, op.ref, m.snap), id, Pulling(r, p.count + 1, p.counted + {m.from}));
    var g', op' := Put(g, n, s'), s'.ops[id];
    PutMoves(g, n, s');
    OpFacts(cfg, g, n, id);
    PullMerged(cfg, g, g', n, id, s1);
    PendingsAfter(cfg, g, g', n, id);
    ReworkedAfter(cfg, g, n, id, s', op');
    HeadTaken(cfg, g, n, id);
    CountedElsewhere(s1, s', r, p.count + 1, p.counted + {m.from});
    GatheredSame(cfg, g', n, op, op', p.counted + {n, m.from}, p.counted + {m.from} + {n});
    MustOkSame(g, g', op, op');
    PullingOk(cfg, g', n, s', op');
    WaitedKeeps(cfg, g, g', n, id, op');
  }

  lemma TakenFrame<V>(s: NodeState<V>, r: ReqId)
    requires r in s.pending && s.pending[r].queue != []
    ensures var t := Taken(s, r);
      t.ops == s.ops && t.docs == s.docs && t.minted == s.minted && r in t.pending
      && forall q :: q in s.pending && q != r ==> q in t.pending && t.pending[q] == s.pending[q]
  {
  }

  lemma PhaseFrame<V>(s: NodeState<V>, id: nat, phase: Phase<V>)
    requires id in s.ops
    ensures var t := SetPhase(s, id, phase);
      t.docs == s.docs && t.minted == s.minted && t.pending == s.pending
      && t.ops == s.ops[id := s.ops[id].(phase := phase)]
  {
  }

  /** Merging a document touches nothing else of the node. */
  lemma MergeFrame<V(!new)>(cfg: Config<V>, s: NodeState<V>, ref: Ref, snap: Wire<V>)
    requires snap.Wire?
    ensures var s' := MergeCollection(cfg, s, ref, snap);
      s'.pending == s.pending && s'.ops == s.ops && s'.minted == s.minted && s'.deployed == s.deployed
  {
  }

  lemma CountedElsewhere<V(!new)>(s: NodeState<V>, s': NodeState<V>, r: ReqId, count: nat, counted: set<NodeId>)
    requires Counted(s, r, count, counted) && s'.pending == s.pending
    ensures Counted(s', r, count, counted)
  {
  }

  /** A pull ack that merges and completes the quorum. */
  lemma PullDoneKeeps<V(!new)>(cfg: Config<V>, g: Global<V>, n: NodeId, id: nat)
    requires IsJoin(cfg.l) && cfg.nodes != {} && Inv(cfg, g) && Enabled(cfg, g, Collect(n, id))
    requires g.nodes[n].ops[id].phase.Pulling? && Head(g, n, id).Ack? && Head(g, n, id).snap.Wire?
    requires Reached(cfg, g.nodes[n].ops[id].phase.count + 1, g.nodes[n].ops[id].ratio)
    ensures var op, m := g.nodes[n].ops[id], Head(g, n, id);
      Inv(cfg, Put(g, n, SetPhase(MergeCollection(cfg, Dropped(g.nodes[n], Awaited(op)), op.ref, m.snap), id, NeedPush)))
  {
    hide IsJoin, Inv, OpOk, PendingOk, Between, Counted, Gathered, AllGathered, Reworked, MergeCollection, Moves,
      MustOk, AckCounts, Reached, CommitOk, Dropped, SetPhase;
    var s, op, m := g.nodes[n], g.nodes[n].ops[id], Head(g, n, id);
    var r, p := Awaited(op), op.phase;
    var s1 := Dropped(s, r);
    DroppedFrame(s, r);
    MergeFrame(cfg, s1, op.ref, m.snap);
    PhaseFrame(MergeCollection(cfg, s1, op.ref, m.snap), id, NeedPush);
    var s' := SetPhase(MergeCollection(cfg, s1, op.ref, m.snap), id, NeedPush);
    var g', op' := Put(g, n, s'), s'.ops[id];
    PutMoves(g, n, s');
    OpFacts(cfg, g, n, id);
    PullMerged(cfg, g, g', n, id, s1);
    PendingsAfter(cfg, g, g', n, id);
    ReworkedAfter(cfg, g, n, id, s', op');
    HeadTaken(cfg, g, n, id);
    HeadCounts(cfg, g, n, id);
    var met := p.counted + {n, m.from};
    assert met - {n} == p.counted + {m.from};
    CommitsStay(cfg, g, g');
    MustOkSame(g, g', op, op');
    MustGathers(cfg, g', n, op, op', met);
    NeedPushOk(cfg, g', n, s', op');
    WaitedKeeps(cfg, g, g', n, id, op');
  }

  lemma MustGathers<V(!new)>(cfg: Config<V>, g: Global<V>, n: NodeId, op: Op<V>, op': Op<V>, met: set<NodeId>)
    requires (forall c :: c in g.commits ==> CommitOk(cfg, g, c)) && MustOk(g, op')
    requires op'.must == op.must && op'.ref == op.ref && op'.ratio == op.ratio
    requires Gathered(cfg, g, n, op, met) && met <= cfg.nodes && cfg.nodes != {}
    requires n in met && Reached(cfg, |met - {n}|, op.ratio)
    ensures AllGathered(cfg, g, n, op')
  {
    hide CommitOk, Holds, Reached;
    MajorityGathers(cfg, g, n, op', met);
  }

  lemma CommitsStay<V(!new)>(cfg: Config<V>, g: Global<V>, g': Global<V>)
    requires Inv(cfg, g) && Between(cfg, g, g') && g'.commits == g.commits
    ensures forall c :: c in g'.commits ==> CommitOk(cfg, g', c)
  {
    hide CommitOk, Between;
    forall c | c in g'.commits
      ensures CommitOk(cfg, g', c)
    {
      CommitStays(cfg, g, g', c);
    }
  }

  /** A push ack that does not complete the quorum. */
  lemma PushMoreKeeps<V(!new)>(cfg: Config<V>, g: Global<V>, n: NodeId, id: nat)
    requires IsJoin(cfg.l) && Inv(cfg, g) && Enabled(cfg, g, Collect(n, id)) && g.nodes[n].ops[id].phase.Pushing?
    requires Head(g, n, id).Ack?
    ensures var op, m := g.nodes[n].ops[id], Head(g, n, id); var r, p := Awaited(op), op.phase;
      Inv(cfg, Put(g, n, SetPhase(Taken(g.nodes[n], r), id, Pushing(r, p.snap, p.count + 1, p.counted + {m.from}))))
  {
    hide IsJoin, Inv, OpOk, PendingOk, Between, Counted, AllGathered, Reworked, Moves, MustOk, Holds;
    var s, op, m := g.nodes[n], g.nodes[n].ops[id], Head(g, n, id);
    var r, p := Awaited(op), op.phase;
    var s1 := Taken(s, r);
    var s' := SetPhase(s1, id, Pushing(r, p.snap, p.count + 1, p.counted + {m.from}));
    var g', op' := Put(g, n, s'), s'.ops[id];
    PutMoves(g, n, s');
    OpFacts(cfg, g, n, id);
    StillBetweenInv(cfg, g, g', n);
    PendingsAfter(cfg, g, g', n, id);
    ReworkedAfter(cfg, g, n, id, s', op');
    HeadTaken(cfg, g, n, id);
    HeadCounts(cfg, g, n, id);
    CountedElsewhere(s1, s', r, p.count + 1, p.counted + {m.from});
    DropSame(cfg, g, g', n, op, p.snap);
    AllGatheredSame(cfg, g', n, op, op');
    MustOkSame(g, g', op, op');
    PushingOk(cfg, g', n, s', op');
    WaitedKeeps(cfg, g, g', n, id, op');
  }

  lemma StillBetweenInv<V(!new)>(cfg: Config<V>, g: Global<V>, g': Global<V>, n: NodeId)
    requires IsJoin(cfg.l) && Inv(cfg, g) && Moves(g, g', n)
    requires g'.nodes[n].docs == g.nodes[n].docs && g.nodes[n].minted <= g'.nodes[n].minted
    ensures Between(cfg, g, g')
  {
    hide IsJoin, DocsOk, MsgOk, CommitOk, ReqOk, ServedOk, NodeOk, Between;
    StillBetween(cfg, g, g', n);
  }

  /** A push ack that completes the quorum. */
  lemma PushDoneKeeps<V(!new)>(cfg: Config<V>, g: Global<V>, n: NodeId, id: nat)
    requires IsJoin(cfg.l) && cfg.nodes != {} && Inv(cfg, g) && Enabled(cfg, g, Collect(n, id))
    requires g.nodes[n].ops[id].phase.Pushing? && Head(g, n, id).Ack?
    requires Reached(cfg, g.nodes[n].ops[id].phase.count + 1, g.nodes[n].ops[id].ratio)
    ensures var op, m := g.nodes[n].ops[id], Head(g, n, id); var r, p := Awaited(op), op.phase;
      Inv(cfg, Finish(Put(g, n, Dropped(g.nodes[n], r)), n, id, {r}, p.snap, p.counted + {m.from, n}))
  {
    hide IsJoin, Inv, OpOk, AllGathered, Holds, Genuine, Reached, MustOk, Finish, Counted;
    var s, op, m := g.nodes[n], g.nodes[n].ops[id], Head(g, n, id);
    var r, p := Awaited(op), op.phase;
    var g1 := Put(g, n, SetPhase(Dropped(s, r), id, NeedPush));
    OpFacts(cfg, g, n, id);
    var op1 := op.(phase := NeedPush);
    MustOkSame(g, g, op, op1);
    AllGatheredSame(cfg, g, n, op, op1);
    NeedPushOk(cfg, g, n, s, op1);
    DropKeeps(cfg, g, n, id, NeedPush);
    HeadTaken(cfg, g, n, id);
    HeadCounts(cfg, g, n, id);
    var holders := p.counted + {m.from, n};
    assert holders - {n} == p.counted + {m.from};
    HoldersHold(cfg, g, n, op, r, p.snap, holders);
    DropSame(cfg, g, g1, n, op, p.snap);
    AllGatheredSame(cfg, g1, n, op, op1);
    FinishKeeps(cfg, g1, n, id, {r}, p.snap, holders);
    FinishSame(g, g1, n, id, r, p.snap, holders);
  }

  /** Those who served a push hold its snapshot. */
  lemma HoldersHold<V(!new)>(cfg: Config<V>, g: Global<V>, n: NodeId, op: Op<V>, r: ReqId, snap: Doc<V>,
    holders: set<NodeId>)
    requires Inv(cfg, g) && r in g.reqs && g.reqs[r] == PushReq(op.ref, snap) && Holds(cfg, g, n, op.ref, snap)
    requires forall x :: x in holders && x != n ==> (x, r) in g.served
    ensures Genuine(cfg, g, op.ref, snap) && forall x :: x in holders ==> Holds(cfg, g, x, op.ref, snap)
  {
    hide IsJoin, DocsOk, MsgOk, CommitOk, NodeOk, Holds, Genuine;
    assert ReqOk(cfg, g, r);
    forall x | x in holders
      ensures Holds(cfg, g, x, op.ref, snap)
    {
      if x != n {
        assert ServedOk(cfg, g, x, r);
      }
    }
  }

  lemma FinishSame<V>(g: Global<V>, g1: Global<V>, n: NodeId, id: nat, r: ReqId, snap: Doc<V>, holders: set<NodeId>)
    requires Running(g, n, id) && g1 == Put(g, n, SetPhase(Dropped(g.nodes[n], r), id, NeedPush))
    ensures Finish(Put(g, n, Dropped(g.nodes[n], r)), n, id, {r}, snap, holders) == Finish(g1, n, id, {r}, snap, holders)
  {
    hide Dropped, SetPhase, Put;
    var s := Dropped(g.nodes[n], r);
    DroppedFrame(g.nodes[n], r);
    PhaseTwice(s, id, NeedPush, Pushed({r}, snap, holders));
    PutTwice(g, n, s, SetPhase(s, id, Pushed({r}, snap, holders)));
    PutTwice(g, n, SetPhase(s, id, NeedPush), SetPhase(s, id, Pushed({r}, snap, holders)));
  }

  lemma DroppedFrame<V>(s: NodeState<V>, r: ReqId)
    ensures Dropped(s, r).ops == s.ops && Dropped(s, r).docs == s.docs && Dropped(s, r).minted == s.minted
    ensures forall q :: q in s.pending && q != r ==> q in Dropped(s, r).pending && Dropped(s, r).pending[q] == s.pending[q]
  {
  }

  lemma PhaseTwice<V>(s: NodeState<V>, id: nat, a: Phase<V>, b: Phase<V>)
    requires id in s.ops
    ensures id in SetPhase(s, id, a).ops && SetPhase(SetPhase(s, id, a), id, b) == SetPhase(s, id, b)
    ensures SetPhase(s, id, a).ops[id] == s.ops[id].(phase := a)
  {
    var op := s.ops[id];
    assert s.ops[id := op.(phase := a)][id := op.(phase := b)] == s.ops[id := op.(phase := b)];
  }

  lemma PutTwice<V>(g: Global<V>, n: NodeId, a: NodeState<V>, b: NodeState<V>)
    ensures Put(Put(g, n, a), n, b) == Put(g, n, b)
    ensures n in Put(g, n, a).nodes && Put(g, n, a).nodes[n] == a && Put(g, n, a).commits == g.commits
  {
    assert g.nodes[n := a][n := b] == g.nodes[n := b];
  }

  /** A state whose documents, histories and requests are those of g. */
  lemma DropSame<V(!new)>(cfg: Config<V>, g: Global<V>, g1: Global<V>, n: NodeId, op: Op<V>, snap: Doc<V>)
    requires n in g.nodes && n in g1.nodes && g1.nodes == g.nodes[n := g1.nodes[n]] && g1.hist == g.hist
    requires g1.nodes[n].docs == g.nodes[n].docs
    ensures Genuine(cfg, g, op.ref, snap) ==> Genuine(cfg, g1, op.ref, snap)
    ensures forall x :: Holds(cfg, g, x, op.ref, snap) ==> Holds(cfg, g1, x, op.ref, snap)
    ensures AllGathered(cfg, g, n, op) ==> AllGathered(cfg, g1, n, op)
  {
  }

  /** Forgetting the request an operation waits for, which then waits for nothing. */
  lemma DropKeeps<V(!new)>(cfg: Config<V>, g: Global<V>, n: NodeId, id: nat, phase: Phase<V>)
    requires IsJoin(cfg.l) && Inv(cfg, g) && Running(g, n, id) && Waiting(g.nodes[n].ops[id])
    requires !phase.Pulling? && !phase.Pushing?
    requires OpOk(cfg, g, n, g.nodes[n], g.nodes[n].ops[id].(phase := phase))
    ensures var s := g.nodes[n]; Inv(cfg, Put(g, n, SetPhase(Dropped(s, Awaited(s.ops[id])), id, phase)))
  {
    hide IsJoin, DocsOk, MsgOk, CommitOk, ReqOk, ServedOk, Between, PendingOk, Gathered, AllGathered, PushedOk, Reworked,
      Holds, Genuine;
    var s := g.nodes[n];
    var op, r := s.ops[id], Awaited(s.ops[id]);
    var s', op' := SetPhase(Dropped(s, r), id, phase), op.(phase := phase);
    var g' := Put(g, n, s');
    assert NodeOk(cfg, g, n, s) && OpOk(cfg, g, n, s, op);
    StillBetween(cfg, g, g', n);
    PendingsStay(cfg, g, g', n);
    ReworkedAfter(cfg, g, n, id, s', op');
    OpStays(cfg, g, g', n, s, op');
    NotWaiting(cfg, g', n, s, s', op');
    Worked(cfg, g, g', n, id, op');
  }

  lemma CollectKeeps<V(!new)>(cfg: Config<V>, g: Global<V>, n: NodeId, id: nat)
    requires IsJoin(cfg.l) && cfg.nodes != {} && Inv(cfg, g) && Enabled(cfg, g, Collect(n, id))
    ensures Head(g, n, id).Ack? && Inv(cfg, AfterCollect(cfg, g, n, id))
  {
    hide IsJoin, Inv, Reached, Finish, MergeCollection, AckCounts;
    HeadCounts(cfg, g, n, id);
    var op, m := g.nodes[n].ops[id], Head(g, n, id);
    if op.phase.Pulling? {
      if m.snap.Garbled? {
        GarbledKeeps(cfg, g, n, id);
      } else if Reached(cfg, op.phase.count + 1, op.ratio) {
        PullDoneKeeps(cfg, g, n, id);
      } else {
        PullMoreKeeps(cfg, g, n, id);
      }
    } else if Reached(cfg, op.phase.count + 1, op.ratio) {
      PushDoneKeeps(cfg, g, n, id);
    } else {
      PushMoreKeeps(cfg, g, n, id);
    }
  }

  lemma GiveUpKeeps<V(!new)>(cfg: Config<V>, g: Global<V>, n: NodeId, id: nat)
    requires IsJoin(cfg.l) && cfg.nodes != {} && Inv(cfg, g) && Enabled(cfg, g, GiveUp(n, id))
    ensures Inv(cfg, After(cfg, g, GiveUp(n, id)))
  {
    hide IsJoin, DocsOk, MsgOk, CommitOk, ReqOk, ServedOk, PendingOk, Gathered, AllGathered, PushedOk, Counted, Holds;
    var op := g.nodes[n].ops[id];
    assert NodeOk(cfg, g, n, g.nodes[n]) && OpOk(cfg, g, n, g.nodes[n], op);
    DropKeeps(cfg, g, n, id, Unreached);
  }

  // ----- every step -----

  lemma InitInv<V(!new)>(cfg: Config<V>)
    ensures Inv(cfg, Init(cfg))
  {
  }

  /** Every enabled step keeps the invariants. */
  lemma StepKeeps<V(!new)>(cfg: Config<V>, g: Global<V>, st: Step<V>)
    requires IsJoin(cfg.l) && cfg.nodes != {} && Inv(cfg, g) && Enabled(cfg, g, st)
    ensures Inv(cfg, After(cfg, g, st))
  {
    hide IsJoin, Inv, AfterUpdate, AfterCollect, OnGossip, OnAck, MsgOk, Launch, Finish, StrayOk, UpdateOk;
    InvNodes(cfg, g);
    match st
    case Deploy(n) => DeployKeeps(cfg, g, n);
    case Update(n, ref, h) => UpdateKeeps(cfg, g, n, ref, h);
    case SendGossip(n, to) =>
      GossipSentOk(cfg, g, n, to);
      SentKeeps(cfg, g, n, Gossip(to, g.nodes[n].docs));
    case BeginWrite(n, id, ref, h, ratio) => BeginWriteKeeps(cfg, g, n, id, ref, h, ratio);
    case BeginRead(n, id, ref, ratio) => BeginReadKeeps(cfg, g, n, id, ref, ratio);
    case BeginPull(n, id) => BeginPullKeeps(cfg, g, n, id);
    case BeginPush(n, id) => BeginPushKeeps(cfg, g, n, id);
    case Collect(n, id) => CollectKeeps(cfg, g, n, id);
    case Answer(n, id) => AnswerKeeps(cfg, g, n, id);
    case GiveUp(n, id) => GiveUpKeeps(cfg, g, n, id);
    case Deliver(n, m) =>
      match m {
        case Gossip(_, _) => GossipKeeps(cfg, g, n, m);
        case Push(_, _, _, _, _, _) => PushKeeps(cfg, g, n, m);
        case Pull(_, _, _, _, _) => PullKeeps(cfg, g, n, m);
        case Ack(_, _, _, _, _) => AckKeeps(cfg, g, n, m);
      }
    case Stray(m) =>
      var n :| n in cfg.nodes;
      StrayMsgOk(cfg, g, m);
      SentKeeps(cfg, g, n, m);
    case Corrupt(m) =>
      var n :| n in cfg.nodes;
      CorruptMsgOk(cfg, g, m);
      SentKeeps(cfg, g, n, m.(snap := Garbled));
  }
}
