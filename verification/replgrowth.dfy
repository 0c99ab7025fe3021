/**
  What only grows in a run, and what follows: a gather that ends was fed by enough peers, a read
  after a majority write sees the value written, and values carried along any chain of messages
  reach the end of the chain.
 */
module ReplicationGrowth {
  import opened Options
  import opened Lattices
  import opened Replication
  import opened ReplicationSafety
  import opened ReplicationSteps
  import opened ReplicationRuns

  // ----- every step only adds -----

  /** The records, histories and documents of g' are those of h. */
  ghost predicate SameRecords<V(!new)>(h: Global<V>, g': Global<V>) {
    g'.nodes.Keys == h.nodes.Keys && g'.net == h.net && g'.hist == h.hist && g'.reqs == h.reqs && g'.served == h.served
    && g'.commits == h.commits
    && forall n :: n in h.nodes ==> g'.nodes[n].docs == h.nodes[n].docs && g'.nodes[n].minted == h.nodes[n].minted
  }

  lemma SameBetween<V(!new)>(cfg: Config<V>, g: Global<V>, h: Global<V>, g': Global<V>)
    requires Between(cfg, g, h) && SameRecords(h, g') && DocsOk(cfg, g')
    ensures Between(cfg, g, g')
  {
    hide IsJoin, DocsOk, DocLeq;
  }

  /** A step that changes at most one node, and not its documents. */
  lemma QuietBetween<V(!new)>(cfg: Config<V>, g: Global<V>, g': Global<V>, n: NodeId)
    requires IsJoin(cfg.l) && Inv(cfg, g) && Moves(g, g', n)
    requires g'.nodes[n].docs == g.nodes[n].docs && g.nodes[n].minted <= g'.nodes[n].minted
    ensures Between(cfg, g, g')
  {
    hide IsJoin, DocsOk, MsgOk, CommitOk, ReqOk, ServedOk, NodeOk, Between;
    StillBetween(cfg, g, g', n);
  }

  lemma SentBetween<V(!new)>(cfg: Config<V>, g: Global<V>, m: Msg<V>)
    requires IsJoin(cfg.l) && cfg.nodes != {} && Inv(cfg, g)
    ensures Between(cfg, g, g.(net := g.net + {m}))
  {
    hide Inv, IsJoin, Between;
    InvNodes(cfg, g);
    var n :| n in cfg.nodes;
    assert g.nodes[n := g.nodes[n]] == g.nodes;
    QuietBetween(cfg, g, g.(net := g.net + {m}), n);
  }

  lemma GossipBetween<V(!new)>(cfg: Config<V>, g: Global<V>, n: NodeId, m: Msg<V>)
    requires IsJoin(cfg.l) && Inv(cfg, g) && n in g.nodes && m in g.net && m.Gossip?
    ensures Between(cfg, g, AfterDeliver(cfg, g, n, m))
  {
    hide IsJoin, DocsOk, CommitOk, ReqOk, ServedOk, NodeOk, Between, Genuine, Absorbs;
    assert MsgOk(cfg, g, m);
    GossipAbsorbs(cfg, g, g.nodes[n], m.docs);
    AbsorbBetween(cfg, g, AfterDeliver(cfg, g, n, m), n);
  }

  lemma PushBetween<V(!new)>(cfg: Config<V>, g: Global<V>, n: NodeId, m: Msg<V>)
    requires IsJoin(cfg.l) && Inv(cfg, g) && n in g.nodes && m in g.net && m.Push?
    ensures Between(cfg, g, AfterDeliver(cfg, g, n, m))
  {
    hide IsJoin, DocsOk, CommitOk, ServedOk, NodeOk, Between, Genuine, Absorbs;
    var s := g.nodes[n];
    if PushAccepted(cfg, s, m) {
      assert MsgOk(cfg, g, m) && ReqOk(cfg, g, m.req);
      MergeAbsorbs(cfg, g, s, m.ref, m.snap.doc);
      AbsorbBetween(cfg, g, AfterDeliver(cfg, g, n, m), n);
    } else {
      QuietBetween(cfg, g, AfterDeliver(cfg, g, n, m), n);
    }
  }

  lemma AckBetween<V(!new)>(cfg: Config<V>, g: Global<V>, n: NodeId, m: Msg<V>)
    requires IsJoin(cfg.l) && Inv(cfg, g) && n in g.nodes && (m.Ack? || m.Pull?)
    ensures Between(cfg, g, AfterDeliver(cfg, g, n, m))
  {
    hide IsJoin, Inv, Between, Serves;
    if m.Pull? {
      assert g.nodes[n := g.nodes[n]] == g.nodes;
    }
    QuietBetween(cfg, g, AfterDeliver(cfg, g, n, m), n);
  }

  lemma CollectBetween<V(!new)>(cfg: Config<V>, g: Global<V>, n: NodeId, id: nat)
    requires IsJoin(cfg.l) && cfg.nodes != {} && Inv(cfg, g) && Enabled(cfg, g, Collect(n, id))
    ensures Between(cfg, g, AfterCollect(cfg, g, n, id))
  {
    hide IsJoin, Inv, Between, Reached, MergeCollection;
    var s, op, m := g.nodes[n], g.nodes[n].ops[id], Head(g, n, id);
    var g', r := AfterCollect(cfg, g, n, id), Awaited(op);
    if op.phase.Pulling? && m.snap.Wire? {
      var s1 := if Reached(cfg, op.phase.count + 1, op.ratio) then Dropped(s, r) else Taken(s, r);
      MergeFrame(cfg, s1, op.ref, m.snap);
      PullMerged(cfg, g, g', n, id, s1);
    } else {
      QuietBetween(cfg, g, g', n);
    }
  }

  lemma LaunchBetween<V(!new)>(cfg: Config<V>, g: Global<V>, n: NodeId, id: nat, req: Req<V>)
    requires IsJoin(cfg.l) && Inv(cfg, g) && Running(g, n, id)
    ensures Between(cfg, g, Launch(cfg, g, n, id, req))
  {
    hide IsJoin, DocsOk, MsgOk, CommitOk, ServedOk, NodeOk, Between;
    FreshReq(cfg, g, n);
    QuietBetween(cfg, g, Launch(cfg, g, n, id, req), n);
  }

  lemma WriteBetween<V(!new)>(cfg: Config<V>, g: Global<V>, st: Step<V>)
    requires IsJoin(cfg.l) && cfg.nodes != {} && Inv(cfg, g) && Enabled(cfg, g, st) && (st.Update? || st.BeginWrite?)
    ensures Between(cfg, g, After(cfg, g, st))
  {
    hide IsJoin, DocsOk, MsgOk, CommitOk, ReqOk, ServedOk, NodeOk, Between, UpdateOk;
    UpdateBetween(cfg, g, st.n, st.ref, st.h);
    StepKeeps(cfg, g, st);
    SameBetween(cfg, g, AfterUpdate(g, st.n, st.ref, st.h), After(cfg, g, st));
  }

  /** No step unsends a message, forgets a record, shortens a history or shrinks a document. */
  lemma StepBetween<V(!new)>(cfg: Config<V>, g: Global<V>, st: Step<V>)
    requires IsJoin(cfg.l) && cfg.nodes != {} && Inv(cfg, g) && Enabled(cfg, g, st)
    ensures Between(cfg, g, After(cfg, g, st))
  {
    hide IsJoin, Inv, Between, AfterCollect, AfterDeliver, AfterUpdate, Launch, StrayOk, UpdateOk, Reached;
    match st
    case Update(_, _, _) => WriteBetween(cfg, g, st);
    case BeginWrite(_, _, _, _, _) => WriteBetween(cfg, g, st);
    case SendGossip(n, to) => SentBetween(cfg, g, Gossip(to, g.nodes[n].docs));
    case Stray(m) => SentBetween(cfg, g, m);
    case Corrupt(m) => SentBetween(cfg, g, m.(snap := Garbled));
    case Collect(n, id) => CollectBetween(cfg, g, n, id);
    case Deliver(n, m) =>
      match m {
        case Gossip(_, _) => GossipBetween(cfg, g, n, m);
        case Push(_, _, _, _, _, _) => PushBetween(cfg, g, n, m);
        case Pull(_, _, _, _, _) => AckBetween(cfg, g, n, m);
        case Ack(_, _, _, _, _) => AckBetween(cfg, g, n, m);
      }
    case BeginPull(n, id) =>
      var op := g.nodes[n].ops[id];
      LaunchBetween(cfg, g, n, id, PullReq(op.ref, op.must));
      if Reached(cfg, 0, op.ratio) {
        QuietBetween(cfg, g, After(cfg, g, st), n);
      }
    case BeginPush(n, id) =>
      var op := g.nodes[n].ops[id];
      LaunchBetween(cfg, g, n, id, PushReq(op.ref, View(g, n, op.ref)));
      if Reached(cfg, 0, op.ratio) {
        QuietBetween(cfg, g, After(cfg, g, st), n);
      }
    case Deploy(n) => QuietBetween(cfg, g, After(cfg, g, st), n);
    case BeginRead(n, _, _, _) => QuietBetween(cfg, g, After(cfg, g, st), n);
    case Answer(n, _) => QuietBetween(cfg, g, After(cfg, g, st), n);
    case GiveUp(n, _) => QuietBetween(cfg, g, After(cfg, g, st), n);
  }

  lemma BetweenSame<V(!new)>(cfg: Config<V>, g: Global<V>)
    requires IsJoin(cfg.l) && Inv(cfg, g)
    ensures Between(cfg, g, g)
  {
    hide IsJoin, DocLeq, MsgOk, CommitOk, ReqOk, ServedOk, NodeOk, Genuine, HistoryOk;
    forall n, ref | n in g.nodes
      ensures DocLeq(cfg.l, View(g, n, ref), View(g, n, ref))
    {
      ViewInDom(cfg, g, n, ref);
      DocLeqReflexive(cfg.l, View(g, n, ref));
    }
  }

  lemma BetweenThen<V(!new)>(cfg: Config<V>, a: Global<V>, b: Global<V>, c: Global<V>)
    requires Between(cfg, a, b) && Between(cfg, b, c)
    ensures Between(cfg, a, c)
  {
    hide IsJoin, DocLeq, DocsOk;
    forall n, ref | n in a.nodes
      ensures DocLeq(cfg.l, View(a, n, ref), View(c, n, ref))
    {
      ViewInDom(cfg, a, n, ref);
      ViewInDom(cfg, b, n, ref);
      ViewInDom(cfg, c, n, ref);
      DocLeqTransitive(cfg.l, View(a, n, ref), View(b, n, ref), View(c, n, ref));
    }
    forall k, ref
      ensures History(a, k, ref) <= History(c, k, ref)
    {
      assert History(a, k, ref) <= History(b, k, ref) && History(b, k, ref) <= History(c, k, ref);
    }
  }

  /** In every run nothing ever shrinks. */
  lemma {:induction false} Growth<V(!new)>(cfg: Config<V>, states: seq<Global<V>>, steps: seq<Step<V>>, i: nat, j: nat)
    requires IsJoin(cfg.l) && Trace(cfg, states, steps) && i <= j < |states|
    ensures Between(cfg, states[i], states[j])
    decreases j
  {
    hide IsJoin, Inv, Between, Init, Enabled, After;
    if i == j {
      TraceInv(cfg, states, steps, i);
      BetweenSame(cfg, states[i]);
    } else {
      Growth(cfg, states, steps, i, j - 1);
      TraceInv(cfg, states, steps, j - 1);
      StepBetween(cfg, states[j - 1], steps[j - 1]);
      BetweenThen(cfg, states[i], states[j - 1], states[j]);
    }
  }

  // ----- how an operation's phase moves -----

  /** The step is one of operation id at node n. */
  predicate Own<V(==)>(st: Step<V>, n: NodeId, id: nat) {
    match st
    case BeginPull(m, i) => m == n && i == id
    case BeginPush(m, i) => m == n && i == id
    case Collect(m, i) => m == n && i == id
    case Answer(m, i) => m == n && i == id
    case GiveUp(m, i) => m == n && i == id
    case _ => false
  }

  /** Collecting changes one node, and of its operations only the one that collects. */
  lemma CollectFrame<V(!new)>(cfg: Config<V>, g: Global<V>, c: NodeId, i: nat)
    requires cfg.nodes != {} && Enabled(cfg, g, Collect(c, i))
    ensures var g' := AfterCollect(cfg, g, c, i);
      c in g'.nodes && g'.nodes == g.nodes[c := g'.nodes[c]] && i in g'.nodes[c].ops
      && g'.nodes[c].ops == g.nodes[c].ops[i := g'.nodes[c].ops[i]]
  {
    hide Reached, MergeCollection, SetPhase, Taken, Dropped;
    var s, op := g.nodes[c], g.nodes[c].ops[i];
    var r, m := Awaited(op), Head(g, c, i);
    var p := s.pending[r];
    var taken := s.(pending := s.pending[r := p.(queue := p.queue[1..])]);
    var done := s.(pending := s.pending - {r});
    if op.phase.Pulling? && m.snap.Wire? {
      var more := Pulling(r, op.phase.count + 1, op.phase.counted + {m.from});
      MergeFrame(cfg, taken, op.ref, m.snap);
      MergeFrame(cfg, done, op.ref, m.snap);
      PhaseFrame(MergeCollection(cfg, taken, op.ref, m.snap), i, more);
      PhaseFrame(MergeCollection(cfg, done, op.ref, m.snap), i, NeedPush);
    } else if op.phase.Pushing? {
      PhaseFrame(taken, i, Pushing(r, op.phase.snap, op.phase.count + 1, op.phase.counted + {m.from}));
      PhaseFrame(done, i, Pushed({r}, op.phase.snap, op.phase.counted + {m.from, c}));
      FinishNodes(g, c, i, r, op.phase.snap, op.phase.counted + {m.from, c});
    }
  }

  lemma HandlersLeaveOps<V(!new)>(cfg: Config<V>, s: NodeState<V>, n: NodeId, m: Msg<V>)
    ensures m.Push? ==> OnPush(cfg, s, m).ops == s.ops
    ensures m.Ack? ==> OnAck(cfg, s, n, m).ops == s.ops
    ensures m.Gossip? ==> OnGossip(cfg, s, m.docs).ops == s.ops
  {
    hide MergeCollection, Serves, AckFits;
    if m.Push? && m.snap.Wire? {
      MergeFrame(cfg, s, m.ref, m.snap);
    }
  }

  /** Delivering changes one node, and none of its operations. */
  lemma DeliverFrame<V(!new)>(cfg: Config<V>, g: Global<V>, c: NodeId, m: Msg<V>)
    requires c in g.nodes
    ensures var g' := AfterDeliver(cfg, g, c, m);
      c in g'.nodes && g'.nodes == g.nodes[c := g'.nodes[c]] && g'.nodes[c].ops == g.nodes[c].ops
  {
    hide OnPush, OnAck, OnGossip, PushReply, PullReply, PushAccepted;
    HandlersLeaveOps(cfg, g.nodes[c], c, m);
  }

  lemma LaunchElsewhere<V(!new)>(cfg: Config<V>, g: Global<V>, c: NodeId, i: nat, req: Req<V>, n: NodeId, id: nat)
    requires Running(g, c, i) && Running(g, n, id) && (c != n || i != id)
    ensures var g' := Launch(cfg, g, c, i, req); Running(g', n, id) && g'.nodes[n].ops[id] == g.nodes[n].ops[id]
  {
  }

  lemma FinishElsewhere<V(!new)>(g: Global<V>, c: NodeId, i: nat, reqs: set<ReqId>, snap: Doc<V>, holders: set<NodeId>,
    n: NodeId, id: nat)
    requires Running(g, c, i) && Running(g, n, id) && (c != n || i != id)
    ensures var g' := Finish(g, c, i, reqs, snap, holders); Running(g', n, id) && g'.nodes[n].ops[id] == g.nodes[n].ops[id]
  {
  }

  /** A step that is not the operation's own leaves it as it is. */
  lemma OthersLeave<V(!new)>(cfg: Config<V>, g: Global<V>, st: Step<V>, n: NodeId, id: nat)
    requires cfg.nodes != {} && Enabled(cfg, g, st) && Running(g, n, id) && !Own(st, n, id)
    ensures Running(After(cfg, g, st), n, id) && After(cfg, g, st).nodes[n].ops[id] == g.nodes[n].ops[id]
  {
    hide Reached, AfterCollect, AfterDeliver, StrayOk, Leq, UpdateOk, Launch, Finish;
    match st
    case Collect(c, i) => CollectFrame(cfg, g, c, i);
    case Deliver(c, m) => DeliverFrame(cfg, g, c, m);
    case BeginPull(c, i) =>
      var op := g.nodes[c].ops[i];
      LaunchElsewhere(cfg, g, c, i, PullReq(op.ref, op.must), n, id);
    case BeginPush(c, i) =>
      var op := g.nodes[c].ops[i];
      LaunchElsewhere(cfg, g, c, i, PushReq(op.ref, View(g, c, op.ref)), n, id);
      FinishElsewhere(g, c, i, {}, View(g, c, op.ref), {c}, n, id);
    case _ =>
  }

  /** The phase an operation's own collecting of one ack leads to. */
  lemma CollectPhase<V(!new)>(cfg: Config<V>, g: Global<V>, n: NodeId, id: nat)
    requires cfg.nodes != {} && Enabled(cfg, g, Collect(n, id)) && Head(g, n, id).Ack?
    ensures var g', op, m := AfterCollect(cfg, g, n, id), g.nodes[n].ops[id], Head(g, n, id);
      Running(g', n, id)
      && var p, q := op.phase, g'.nodes[n].ops[id].phase;
        if p.Pulling? && m.snap.Garbled? then q == p
        else if Reached(cfg, p.count + 1, op.ratio) then
          if p.Pulling? then q == NeedPush else q == Pushed({p.req}, p.snap, p.counted + {m.from, n})
        else if p.Pulling? then q == Pulling(p.req, p.count + 1, p.counted + {m.from})
        else q == Pushing(p.req, p.snap, p.count + 1, p.counted + {m.from})
  {
    hide Reached, MergeCollection;
    var s, op, m := g.nodes[n], g.nodes[n].ops[id], Head(g, n, id);
    if m.snap.Wire? {
      MergeFrame(cfg, Taken(s, Awaited(op)), op.ref, m.snap);
      MergeFrame(cfg, Dropped(s, Awaited(op)), op.ref, m.snap);
    }
  }

  /** Where an operation's own steps other than collecting lead. */
  lemma OwnPhase<V(!new)>(cfg: Config<V>, g: Global<V>, st: Step<V>, n: NodeId, id: nat)
    requires cfg.nodes != {} && Enabled(cfg, g, st) && Own(st, n, id) && !st.Collect?
    ensures Running(g, n, id) && Running(After(cfg, g, st), n, id)
    ensures var op, q := g.nodes[n].ops[id], After(cfg, g, st).nodes[n].ops[id].phase;
      var r := ReqId(n, g.nodes[n].minted + 1);
      q == match st
        case BeginPull(_, _) => if Reached(cfg, 0, op.ratio) then NeedPush else Pulling(r, 0, {})
        case BeginPush(_, _) =>
          var snap := View(g, n, op.ref);
          if Reached(cfg, 0, op.ratio) then Pushed({}, snap, {n}) else Pushing(r, snap, 0, {})
        case Answer(_, _) => Answered(View(g, n, op.ref))
        case _ => Unreached
    ensures After(cfg, g, st).nodes[n].ops[id].ref == g.nodes[n].ops[id].ref
  {
    hide Reached;
  }

  // ----- gathers -----

  /** Member x acked request r with a snapshot that decodes, and node n now holds all of it. */
  ghost predicate Contributed<V(!new)>(cfg: Config<V>, g: Global<V>, n: NodeId, ref: Ref, r: ReqId, x: NodeId) {
    x in Peers(cfg, n)
    && exists m :: m in g.net && Contribution(cfg, g, n, ref, r, x, m)
  }

  ghost predicate Contribution<V(!new)>(cfg: Config<V>, g: Global<V>, n: NodeId, ref: Ref, r: ReqId, x: NodeId, m: Msg<V>) {
    m.Ack? && m.from == x && m.req == r && m.document == ref.document && m.snap.Wire?
    && Genuine(cfg, g, ref, m.snap.doc) && Holds(cfg, g, n, ref, m.snap.doc)
  }

  ghost predicate FedBy<V(!new)>(cfg: Config<V>, g: Global<V>, n: NodeId, ref: Ref, r: ReqId, peers: set<NodeId>) {
    forall x :: x in peers ==> Contributed(cfg, g, n, ref, r, x)
  }

  /** Every peer an operation has counted while pulling has contributed. */
  ghost predicate GatherOk<V(!new)>(cfg: Config<V>, g: Global<V>, n: NodeId, id: nat) {
    Running(g, n, id) && g.nodes[n].ops[id].phase.Pulling? ==>
      FedBy(cfg, g, n, g.nodes[n].ops[id].ref, g.nodes[n].ops[id].phase.req, g.nodes[n].ops[id].phase.counted)
  }

  lemma ContributedStays<V(!new)>(cfg: Config<V>, g: Global<V>, g': Global<V>, n: NodeId, ref: Ref, r: ReqId, x: NodeId)
    requires Between(cfg, g, g') && Contributed(cfg, g, n, ref, r, x)
    ensures Contributed(cfg, g', n, ref, r, x)
  {
    hide IsJoin, DocsOk, Genuine, Holds, Extends;
    var m :| m in g.net && Contribution(cfg, g, n, ref, r, x, m);
    ExtendsRecords(cfg, g, g');
    GenuineStays(cfg, g, g', ref, m.snap.doc);
    HoldsStays(cfg, g, g', n, ref, m.snap.doc);
    assert m in g'.net && Contribution(cfg, g', n, ref, r, x, m);
  }

  lemma FedStays<V(!new)>(cfg: Config<V>, g: Global<V>, g': Global<V>, n: NodeId, ref: Ref, r: ReqId, peers: set<NodeId>)
    requires Between(cfg, g, g') && FedBy(cfg, g, n, ref, r, peers)
    ensures FedBy(cfg, g', n, ref, r, peers)
  {
    hide Between, Contributed;
    forall x | x in peers
      ensures Contributed(cfg, g', n, ref, r, x)
    {
      ContributedStays(cfg, g, g', n, ref, r, x);
    }
  }

  /** The ack just counted has contributed. */
  lemma HeadContributes<V(!new)>(cfg: Config<V>, g: Global<V>, n: NodeId, id: nat)
    requires IsJoin(cfg.l) && cfg.nodes != {} && Inv(cfg, g) && Enabled(cfg, g, Collect(n, id))
    requires g.nodes[n].ops[id].phase.Pulling? && Head(g, n, id).Ack? && Head(g, n, id).snap.Wire?
    ensures var op := g.nodes[n].ops[id];
      Contributed(cfg, AfterCollect(cfg, g, n, id), n, op.ref, op.phase.req, Head(g, n, id).from)
  {
    hide IsJoin, DocsOk, MsgOk, CommitOk, ReqOk, ServedOk, NodeOk, Genuine, DocLeq, Reached, MergeCollection, Between;
    var s, op, m := g.nodes[n], g.nodes[n].ops[id], Head(g, n, id);
    var g' := AfterCollect(cfg, g, n, id);
    HeadCounts(cfg, g, n, id);
    HeadDocument(cfg, g, n, id);
    var s1 := if Reached(cfg, op.phase.count + 1, op.ratio) then Dropped(s, op.phase.req) else Taken(s, op.phase.req);
    MergeFrame(cfg, s1, op.ref, m.snap);
    MergedHolds(cfg, g, s1, n, op.ref, m.snap.doc);
    CollectBetween(cfg, g, n, id);
    GenuineAcross(cfg, g, g', op.ref, m.snap.doc);
    assert m in g'.net && Contribution(cfg, g', n, op.ref, op.phase.req, m.from, m);
  }

  lemma GenuineAcross<V(!new)>(cfg: Config<V>, g: Global<V>, g': Global<V>, ref: Ref, d: Doc<V>)
    requires Between(cfg, g, g') && Genuine(cfg, g, ref, d)
    ensures Genuine(cfg, g', ref, d)
  {
    GenuineStays(cfg, g, g', ref, d);
  }

  lemma HeadDocument<V(!new)>(cfg: Config<V>, g: Global<V>, n: NodeId, id: nat)
    requires Inv(cfg, g) && Enabled(cfg, g, Collect(n, id))
    ensures Head(g, n, id).Ack? && Head(g, n, id).document == g.nodes[n].ops[id].ref.document
  {
    hide DocsOk, MsgOk, CommitOk, ReqOk, ServedOk, OpOk;
    HeadCounts(cfg, g, n, id);
    var r := Awaited(g.nodes[n].ops[id]);
    assert NodeOk(cfg, g, n, g.nodes[n]);
    assert PendingOk(cfg, g, n, r, g.nodes[n].pending[r]);
    assert Queued(g, Head(g, n, id), r, g.nodes[n].pending[r]);
  }

  /** Collecting an ack that merges leaves everyone counted, the sender included, contributed. */
  lemma CollectFed<V(!new)>(cfg: Config<V>, g: Global<V>, n: NodeId, id: nat)
    requires IsJoin(cfg.l) && cfg.nodes != {} && Inv(cfg, g) && Enabled(cfg, g, Collect(n, id)) && GatherOk(cfg, g, n, id)
    requires g.nodes[n].ops[id].phase.Pulling? && Head(g, n, id).Ack? && Head(g, n, id).snap.Wire?
    ensures var op := g.nodes[n].ops[id];
      FedBy(cfg, AfterCollect(cfg, g, n, id), n, op.ref, op.phase.req, op.phase.counted + {Head(g, n, id).from})
  {
    hide IsJoin, Inv, Contributed, AfterCollect, Between;
    CollectBetween(cfg, g, n, id);
    var op := g.nodes[n].ops[id];
    FedStays(cfg, g, AfterCollect(cfg, g, n, id), n, op.ref, op.phase.req, op.phase.counted);
    HeadContributes(cfg, g, n, id);
  }

  lemma GatherStep<V(!new)>(cfg: Config<V>, g: Global<V>, st: Step<V>, n: NodeId, id: nat)
    requires IsJoin(cfg.l) && cfg.nodes != {} && Inv(cfg, g) && Enabled(cfg, g, st) && GatherOk(cfg, g, n, id)
    ensures GatherOk(cfg, After(cfg, g, st), n, id)
  {
    hide IsJoin, Inv, FedBy, Reached, AfterCollect, AfterDeliver, StrayOk, UpdateOk, Between, Launch, Finish;
    var g' := After(cfg, g, st);
    StepBetween(cfg, g, st);
    if Running(g, n, id) {
      if Own(st, n, id) {
        OwnGather(cfg, g, st, n, id);
      } else {
        OthersLeave(cfg, g, st, n, id);
        var op := g.nodes[n].ops[id];
        if op.phase.Pulling? {
          FedStays(cfg, g, g', n, op.ref, op.phase.req, op.phase.counted);
        }
      }
    } else if Running(g', n, id) {
      NewOp(cfg, g, st, n, id);
    }
  }

  /** Nobody's steps but the operation's first give it an id. */
  lemma NoNewOps<V(!new)>(cfg: Config<V>, g: Global<V>, st: Step<V>, n: NodeId, id: nat)
    requires cfg.nodes != {} && Enabled(cfg, g, st) && Running(After(cfg, g, st), n, id)
    requires !st.BeginWrite? && !st.BeginRead?
    ensures Running(g, n, id)
  {
    hide Reached, AfterCollect, AfterDeliver, StrayOk, Leq;
    match st
    case Collect(c, i) => CollectFrame(cfg, g, c, i);
    case Deliver(c, m) => DeliverFrame(cfg, g, c, m);
    case _ =>
  }

  /** An operation starts by needing a pull or a push. */
  lemma NewOp<V(!new)>(cfg: Config<V>, g: Global<V>, st: Step<V>, n: NodeId, id: nat)
    requires cfg.nodes != {} && Enabled(cfg, g, st) && !Running(g, n, id) && Running(After(cfg, g, st), n, id)
    ensures (st.BeginWrite? || st.BeginRead?) && st.n == n && st.id == id
    ensures !After(cfg, g, st).nodes[n].ops[id].phase.Pulling?
  {
    hide Reached, AfterCollect, AfterDeliver, StrayOk, Leq, Launch, Finish;
    if !st.BeginWrite? && !st.BeginRead? {
      NoNewOps(cfg, g, st, n, id);
    }
  }

  lemma CollectGather<V(!new)>(cfg: Config<V>, g: Global<V>, n: NodeId, id: nat)
    requires IsJoin(cfg.l) && cfg.nodes != {} && Inv(cfg, g) && Enabled(cfg, g, Collect(n, id)) && GatherOk(cfg, g, n, id)
    ensures GatherOk(cfg, AfterCollect(cfg, g, n, id), n, id)
  {
    hide IsJoin, Inv, FedBy, Reached, AfterCollect, Between;
    HeadDocument(cfg, g, n, id);
    CollectPhase(cfg, g, n, id);
    CollectBetween(cfg, g, n, id);
    CollectOps(cfg, g, n, id);
    var op, m := g.nodes[n].ops[id], Head(g, n, id);
    assert Kept(g.nodes[n], AfterCollect(cfg, g, n, id).nodes[n], id);
    if op.phase.Pulling? {
      if m.snap.Wire? {
        CollectFed(cfg, g, n, id);
      } else {
        FedStays(cfg, g, AfterCollect(cfg, g, n, id), n, op.ref, op.phase.req, op.phase.counted);
      }
    }
  }

  lemma OwnGather<V(!new)>(cfg: Config<V>, g: Global<V>, st: Step<V>, n: NodeId, id: nat)
    requires IsJoin(cfg.l) && cfg.nodes != {} && Inv(cfg, g) && Enabled(cfg, g, st) && GatherOk(cfg, g, n, id)
    requires Own(st, n, id) && Running(g, n, id)
    ensures GatherOk(cfg, After(cfg, g, st), n, id)
  {
    hide IsJoin, Inv, FedBy, Reached, AfterCollect, Launch, Finish;
    if st.Collect? {
      CollectGather(cfg, g, n, id);
    } else {
      OwnPhase(cfg, g, st, n, id);
      NobodyFeeds(cfg, After(cfg, g, st), n, g.nodes[n].ops[id].ref, ReqId(n, g.nodes[n].minted + 1));
    }
  }

  lemma NobodyFeeds<V(!new)>(cfg: Config<V>, g: Global<V>, n: NodeId, ref: Ref, r: ReqId)
    ensures FedBy(cfg, g, n, ref, r, {})
  {
  }

  lemma {:induction false} TraceGather<V(!new)>(cfg: Config<V>, states: seq<Global<V>>, steps: seq<Step<V>>, i: nat,
    n: NodeId, id: nat)
    requires IsJoin(cfg.l) && Trace(cfg, states, steps) && i < |states|
    ensures GatherOk(cfg, states[i], n, id)
    decreases i
  {
    hide IsJoin, Inv, Enabled, After, FedBy;
    if i > 0 {
      TraceGather(cfg, states, steps, i - 1, n, id);
      TraceInv(cfg, states, steps, i - 1);
      GatherStep(cfg, states[i - 1], steps[i - 1], n, id);
    }
  }

  /**
    An honest gather: whenever an operation that was waiting for a pull goes on to its push,
    enough distinct peers each acked that very request with a snapshot that decodes, and the
    coordinator holds every one of those snapshots. An ack that does not merge is never among them.
   */
  lemma HonestGather<V(!new)>(cfg: Config<V>, states: seq<Global<V>>, steps: seq<Step<V>>, i: nat, n: NodeId, id: nat)
    requires IsJoin(cfg.l) && Trace(cfg, states, steps) && i < |steps| && Running(states[i], n, id)
    requires states[i].nodes[n].ops[id].phase.Pulling?
    requires Running(states[i + 1], n, id) && states[i + 1].nodes[n].ops[id].phase.NeedPush?
    ensures var op := states[i].nodes[n].ops[id];
      exists peers ::
        peers <= Peers(cfg, n) && Reached(cfg, |peers|, op.ratio)
        && FedBy(cfg, states[i + 1], n, op.ref, op.phase.req, peers)
  {
    hide IsJoin, Inv, FedBy, Reached, AfterCollect, Between, Init;
    var g, st := states[i], steps[i];
    TraceInv(cfg, states, steps, i);
    TraceGather(cfg, states, steps, i, n, id);
    if !Own(st, n, id) {
      OthersLeave(cfg, g, st, n, id);
    } else {
      OwnStep(cfg, g, st, n, id);
      HeadDocument(cfg, g, n, id);
      HeadCounts(cfg, g, n, id);
      HeadTaken(cfg, g, n, id);
      CollectPhase(cfg, g, n, id);
      CollectFed(cfg, g, n, id);
      var p, m := g.nodes[n].ops[id].phase, Head(g, n, id);
      assert |p.counted + {m.from}| == p.count + 1;
    }
  }

  /** What leads from pulling to needing a push is collecting an ack that merges. */
  lemma OwnStep<V(!new)>(cfg: Config<V>, g: Global<V>, st: Step<V>, n: NodeId, id: nat)
    requires cfg.nodes != {} && Inv(cfg, g) && Enabled(cfg, g, st) && Own(st, n, id) && Running(g, n, id)
    requires g.nodes[n].ops[id].phase.Pulling?
    requires Running(After(cfg, g, st), n, id) && After(cfg, g, st).nodes[n].ops[id].phase.NeedPush?
    ensures st == Collect(n, id) && Head(g, n, id).Ack? && Head(g, n, id).snap.Wire?
    ensures Reached(cfg, g.nodes[n].ops[id].phase.count + 1, g.nodes[n].ops[id].ratio)
  {
    hide Inv, Reached, AfterCollect;
    if st.Collect? {
      HeadDocument(cfg, g, n, id);
      CollectPhase(cfg, g, n, id);
    }
  }

  // ----- writes and later reads -----

  /** The snapshot an operation is pushing, or has pushed. */
  function PushedSnap<V(==)>(phase: Phase<V>): Option<Doc<V>> {
    match phase
    case Pushing(_, snap, _, _) => Some(snap)
    case Pushed(_, snap, _) => Some(snap)
    case _ => None
  }

  /** An operation's own step pushes what it pushed before, or the document as it is, or nothing. */
  lemma OwnSnap<V(!new)>(cfg: Config<V>, g: Global<V>, st: Step<V>, n: NodeId, id: nat)
    requires cfg.nodes != {} && Inv(cfg, g) && Enabled(cfg, g, st) && Own(st, n, id) && Running(g, n, id)
    ensures Running(After(cfg, g, st), n, id)
    ensures var p, q := PushedSnap(g.nodes[n].ops[id].phase), PushedSnap(After(cfg, g, st).nodes[n].ops[id].phase);
      q == None || q == p || q == Some(View(g, n, g.nodes[n].ops[id].ref))
  {
    hide Inv, Reached, AfterCollect, Launch, Finish;
    if st.Collect? {
      HeadDocument(cfg, g, n, id);
      CollectPhase(cfg, g, n, id);
    } else {
      OwnPhase(cfg, g, st, n, id);
    }
  }

  /** Whatever the operation pushes holds a value of n at least h. */
  ghost predicate PushesAbove<V(!new)>(cfg: Config<V>, op: Op<V>, n: NodeId, h: V) {
    var snap := PushedSnap(op.phase);
    snap.Some? ==> n in snap.value && Leq(cfg.l, h, snap.value[n])
  }

  /** The value a synchronous update wrote is in whatever it pushes. */
  lemma {:induction false} WriteCarried<V(!new)>(cfg: Config<V>, states: seq<Global<V>>, steps: seq<Step<V>>, b: nat, j: nat,
    w: NodeId, wid: nat, ref: Ref, h: V, ratio: real)
    requires IsJoin(cfg.l) && Trace(cfg, states, steps) && b < j < |states|
    requires steps[b] == BeginWrite(w, wid, ref, h, ratio)
    ensures Running(states[j], w, wid) && states[j].nodes[w].ops[wid].ref == ref
    ensures states[j].nodes[w].ops[wid].ratio == ratio && PushesAbove(cfg, states[j].nodes[w].ops[wid], w, h)
    decreases j
  {
    hide IsJoin, Inv, Between, Init, After, PushesAbove, Enabled, PushedSnap;
    WriteBegins(cfg, states[b], w, wid, ref, h, ratio);
    if j > b + 1 {
      var g, st := states[j - 1], steps[j - 1];
      WriteCarried(cfg, states, steps, b, j - 1, w, wid, ref, h, ratio);
      OpKept(cfg, states, steps, j - 1, j, w, wid);
      TraceInv(cfg, states, steps, j - 1);
      if Own(st, w, wid) {
        OwnSnap(cfg, g, st, w, wid);
        Growth(cfg, states, steps, b + 1, j - 1);
        OwnValueGrows(cfg, states[b + 1], g, w, ref, h);
        CarriedOn(cfg, g, states[j], w, wid, h);
      } else {
        OthersLeave(cfg, g, st, w, wid);
      }
    }
  }

  lemma WriteBegins<V(!new)>(cfg: Config<V>, g: Global<V>, w: NodeId, wid: nat, ref: Ref, h: V, ratio: real)
    requires cfg.nodes != {} && Enabled(cfg, g, BeginWrite(w, wid, ref, h, ratio))
    ensures var g' := After(cfg, g, BeginWrite(w, wid, ref, h, ratio));
      Running(g', w, wid) && g'.nodes[w].ops[wid] == Op(ref, ratio, false, {}, NeedPush)
      && w in View(g', w, ref) && View(g', w, ref)[w] == h && PushesAbove(cfg, g'.nodes[w].ops[wid], w, h) && cfg.l.dom(h)
  {
  }

  lemma OwnValueGrows<V(!new)>(cfg: Config<V>, g: Global<V>, g': Global<V>, w: NodeId, ref: Ref, h: V)
    requires Between(cfg, g, g') && w in g.nodes && w in View(g, w, ref) && View(g, w, ref)[w] == h
    ensures w in g'.nodes && w in View(g', w, ref) && Leq(cfg.l, h, View(g', w, ref)[w])
  {
    hide IsJoin, DocsOk, Leq;
    assert DocLeq(cfg.l, View(g, w, ref), View(g', w, ref));
  }

  lemma CarriedOn<V(!new)>(cfg: Config<V>, g: Global<V>, g': Global<V>, w: NodeId, wid: nat, h: V)
    requires Running(g, w, wid) && Running(g', w, wid) && PushesAbove(cfg, g.nodes[w].ops[wid], w, h)
    requires var v := View(g, w, g.nodes[w].ops[wid].ref); w in v && Leq(cfg.l, h, v[w])
    requires var p, q := PushedSnap(g.nodes[w].ops[wid].phase), PushedSnap(g'.nodes[w].ops[wid].phase);
      q == None || q == p || q == Some(View(g, w, g.nodes[w].ops[wid].ref))
    ensures PushesAbove(cfg, g'.nodes[w].ops[wid], w, h)
  {
  }

  /** An answer is a genuine document. */
  ghost predicate AnswerOk<V(!new)>(cfg: Config<V>, g: Global<V>, n: NodeId, id: nat) {
    Running(g, n, id) && g.nodes[n].ops[id].phase.Answered? ==>
      Genuine(cfg, g, g.nodes[n].ops[id].ref, g.nodes[n].ops[id].phase.view)
  }

  lemma AnswerStep<V(!new)>(cfg: Config<V>, g: Global<V>, st: Step<V>, n: NodeId, id: nat)
    requires IsJoin(cfg.l) && cfg.nodes != {} && Inv(cfg, g) && Enabled(cfg, g, st) && AnswerOk(cfg, g, n, id)
    ensures AnswerOk(cfg, After(cfg, g, st), n, id)
  {
    hide IsJoin, Inv, Reached, AfterCollect, AfterDeliver, StrayOk, Between, Launch, Finish, Genuine, Leq;
    var g' := After(cfg, g, st);
    StepBetween(cfg, g, st);
    if Running(g, n, id) {
      var op := g.nodes[n].ops[id];
      if !Own(st, n, id) {
        OthersLeave(cfg, g, st, n, id);
        if op.phase.Answered? {
          GenuineAcross(cfg, g, g', op.ref, op.phase.view);
        }
      } else if st.Answer? {
        OwnView(cfg, g, n, op.ref);
        GenuineAcross(cfg, g, g', op.ref, View(g, n, op.ref));
      } else {
        NoAnswer(cfg, g, st, n, id);
      }
    } else if Running(g', n, id) {
      NewOp(cfg, g, st, n, id);
    }
  }

  lemma OwnView<V(!new)>(cfg: Config<V>, g: Global<V>, n: NodeId, ref: Ref)
    requires Inv(cfg, g) && n in g.nodes
    ensures Genuine(cfg, g, ref, View(g, n, ref))
  {
    hide HistoryOk, MsgOk, CommitOk, ReqOk, ServedOk, NodeOk, Genuine;
  }

  lemma NoAnswer<V(!new)>(cfg: Config<V>, g: Global<V>, st: Step<V>, n: NodeId, id: nat)
    requires cfg.nodes != {} && Inv(cfg, g) && Enabled(cfg, g, st) && Own(st, n, id) && Running(g, n, id) && !st.Answer?
    ensures Running(After(cfg, g, st), n, id) && !After(cfg, g, st).nodes[n].ops[id].phase.Answered?
  {
    hide Inv, Reached, AfterCollect, Launch, Finish;
    if st.Collect? {
      HeadDocument(cfg, g, n, id);
      CollectPhase(cfg, g, n, id);
    } else {
      OwnPhase(cfg, g, st, n, id);
    }
  }

  lemma {:induction false} TraceAnswer<V(!new)>(cfg: Config<V>, states: seq<Global<V>>, steps: seq<Step<V>>, i: nat,
    n: NodeId, id: nat)
    requires IsJoin(cfg.l) && Trace(cfg, states, steps) && i < |states|
    ensures AnswerOk(cfg, states[i], n, id)
    decreases i
  {
    hide IsJoin, Inv, Enabled, After, Genuine;
    if i > 0 {
      TraceAnswer(cfg, states, steps, i - 1, n, id);
      TraceInv(cfg, states, steps, i - 1);
      AnswerStep(cfg, states[i - 1], steps[i - 1], n, id);
    }
  }

  /**
    A read sees earlier writes: once a synchronous update asked for a majority and succeeded, every
    read at a majority ratio begun later, at whichever node, answers from a state in which the
    writer's slot is at or above the value it wrote.
   */
  lemma ReadSeesWrite<V(!new)>(cfg: Config<V>, states: seq<Global<V>>, steps: seq<Step<V>>, b: nat, i: nat, k: nat, j: nat,
    w: NodeId, wid: nat, h: V, r: NodeId, rid: nat, ref: Ref, wratio: real, rratio: real)
    requires IsJoin(cfg.l) && Trace(cfg, states, steps) && b < i <= k < j < |states| && wratio >= 0.5 && rratio >= 0.5
    requires steps[b] == BeginWrite(w, wid, ref, h, wratio) && steps[k] == BeginRead(r, rid, ref, rratio)
    requires Running(states[i], w, wid) && states[i].nodes[w].ops[wid].phase.Pushed?
    requires Running(states[j], r, rid) && states[j].nodes[r].ops[rid].phase.Answered?
    ensures var view := states[j].nodes[r].ops[rid].phase.view; w in view && Leq(cfg.l, h, view[w])
  {
    hide IsJoin, Inv, Init, After, Enabled, PushesAbove, DocLeq;
    WriteCarried(cfg, states, steps, b, i, w, wid, ref, h, wratio);
    ReadSeesPush(cfg, states, steps, i, k, j, w, wid, r, rid, ref, rratio);
    var op := states[i].nodes[w].ops[wid];
    PushedAbove(cfg, op, w, h);
    PushedInDomain(cfg, states, steps, i, w, wid);
    ReadBegins(cfg, states[k], r, rid, ref, rratio);
    OpKept(cfg, states, steps, k + 1, j, r, rid);
    AnswerInDomain(cfg, states, steps, j, r, rid);
    WriteBegins(cfg, states[b], w, wid, ref, h, wratio);
    Above(cfg.l, op.phase.snap, states[j].nodes[r].ops[rid].phase.view, w, h);
  }

  lemma Above<V(!new)>(l: Lattice<V>, a: Doc<V>, b: Doc<V>, w: NodeId, h: V)
    requires IsJoin(l) && InDom(l, a) && InDom(l, b) && l.dom(h) && DocLeq(l, a, b) && w in a && Leq(l, h, a[w])
    ensures w in b && Leq(l, h, b[w])
  {
    hide IsJoin;
    LeqTransitive(l, h, a[w], b[w]);
  }

  lemma PushedInDomain<V(!new)>(cfg: Config<V>, states: seq<Global<V>>, steps: seq<Step<V>>, i: nat, n: NodeId, id: nat)
    requires IsJoin(cfg.l) && Trace(cfg, states, steps) && i < |states| && Running(states[i], n, id)
    requires states[i].nodes[n].ops[id].phase.Pushed?
    ensures InDom(cfg.l, states[i].nodes[n].ops[id].phase.snap)
  {
    hide IsJoin, Inv, Init, After, Enabled, Holds, Genuine, Reached;
    HonestQuorum(cfg, states, steps, i, n, id);
    TraceInv(cfg, states, steps, i);
    InDomain(cfg, states[i], states[i].nodes[n].ops[id].ref, states[i].nodes[n].ops[id].phase.snap);
  }

  lemma AnswerInDomain<V(!new)>(cfg: Config<V>, states: seq<Global<V>>, steps: seq<Step<V>>, i: nat, n: NodeId, id: nat)
    requires IsJoin(cfg.l) && Trace(cfg, states, steps) && i < |states| && Running(states[i], n, id)
    requires states[i].nodes[n].ops[id].phase.Answered?
    ensures InDom(cfg.l, states[i].nodes[n].ops[id].phase.view)
  {
    hide IsJoin, Inv, Init, After, Enabled, Genuine;
    TraceAnswer(cfg, states, steps, i, n, id);
    TraceInv(cfg, states, steps, i);
    InDomain(cfg, states[i], states[i].nodes[n].ops[id].ref, states[i].nodes[n].ops[id].phase.view);
  }

  lemma PushedAbove<V(!new)>(cfg: Config<V>, op: Op<V>, n: NodeId, h: V)
    requires PushesAbove(cfg, op, n, h) && op.phase.Pushed?
    ensures n in op.phase.snap && Leq(cfg.l, h, op.phase.snap[n])
  {
  }

  lemma InDomain<V(!new)>(cfg: Config<V>, g: Global<V>, ref: Ref, d: Doc<V>)
    requires Inv(cfg, g) && Genuine(cfg, g, ref, d)
    ensures InDom(cfg.l, d)
  {
    hide HistoryOk, MsgOk, CommitOk, ReqOk, ServedOk, NodeOk;
    GenuineInDom(cfg, g, ref, d);
  }

  // ----- chains of messages -----

  /** A message that takes a node's document elsewhere: sent as gossip, or as the push of an operation. */
  datatype Hop = Hop(from: NodeId, sent: nat, to: NodeId, got: nat, push: bool, id: nat)

  /** The hop's message was sent at step `sent`, and delivered to a node that accepts it at step `got`. */
  ghost predicate Carried<V(!new)>(cfg: Config<V>, states: seq<Global<V>>, steps: seq<Step<V>>, hop: Hop, ref: Ref) {
    hop.sent < hop.got < |steps| && |states| == |steps| + 1 && cfg.known(ref)
    && hop.from in states[hop.sent].nodes && hop.to in states[hop.got].nodes && states[hop.got].nodes[hop.to].deployed
    && if hop.push then
      Running(states[hop.sent], hop.from, hop.id) && states[hop.sent].nodes[hop.from].ops[hop.id].ref == ref
      && steps[hop.sent] == BeginPush(hop.from, hop.id)
      && steps[hop.got] == Deliver(hop.to, Push(hop.from, hop.to, ReqId(hop.from, states[hop.sent].nodes[hop.from].minted + 1),
        ref, cfg.fp, Wire(View(states[hop.sent], hop.from, ref))))
    else
      ref in states[hop.sent].nodes[hop.from].docs && steps[hop.sent] == SendGossip(hop.from, hop.to)
      && steps[hop.got] == Deliver(hop.to, Gossip(hop.to, states[hop.sent].nodes[hop.from].docs))
  }

  /** After a hop its receiver holds what its sender held when it was sent. */
  lemma HopReaches<V(!new)>(cfg: Config<V>, states: seq<Global<V>>, steps: seq<Step<V>>, hop: Hop, ref: Ref)
    requires IsJoin(cfg.l) && Trace(cfg, states, steps) && Carried(cfg, states, steps, hop, ref)
    ensures hop.to in states[hop.got + 1].nodes
    ensures DocLeq(cfg.l, View(states[hop.sent], hop.from, ref), View(states[hop.got + 1], hop.to, ref))
  {
    hide IsJoin, Inv, DocLeq, After, Init;
    if hop.push {
      PushReaches(cfg, states, steps, hop, ref);
    } else {
      var m := Gossip(hop.to, states[hop.sent].nodes[hop.from].docs);
      GossipReaches(cfg, states, steps, hop.got, hop.to, m, ref);
    }
  }

  /** A push that decodes, delivered to a node that runs the plan, is merged. */
  lemma PushDelivered<V(!new)>(cfg: Config<V>, g: Global<V>, n: NodeId, m: Msg<V>)
    requires n in g.nodes && m.Push? && PushAccepted(cfg, g.nodes[n], m)
    ensures n in AfterDeliver(cfg, g, n, m).nodes
    ensures View(AfterDeliver(cfg, g, n, m), n, m.ref) == DocOf(MergeCollection(cfg, g.nodes[n], m.ref, m.snap), m.ref)
  {
    hide MergeCollection, PushReply, PushAccepted;
  }

  lemma PushReaches<V(!new)>(cfg: Config<V>, states: seq<Global<V>>, steps: seq<Step<V>>, hop: Hop, ref: Ref)
    requires IsJoin(cfg.l) && Trace(cfg, states, steps) && Carried(cfg, states, steps, hop, ref) && hop.push
    ensures hop.to in states[hop.got + 1].nodes
    ensures DocLeq(cfg.l, View(states[hop.sent], hop.from, ref), View(states[hop.got + 1], hop.to, ref))
  {
    hide IsJoin, Inv, DocLeq, Init, MergeCollection, AfterDeliver, Genuine, Between;
    var g, d := states[hop.got], View(states[hop.sent], hop.from, ref);
    TraceInv(cfg, states, steps, hop.sent);
    TraceInv(cfg, states, steps, hop.got);
    OwnView(cfg, states[hop.sent], hop.from, ref);
    Growth(cfg, states, steps, hop.sent, hop.got);
    GenuineAcross(cfg, states[hop.sent], g, ref, d);
    PushedHolds(cfg, g, hop.to, ref, d);
    PushDelivered(cfg, g, hop.to, steps[hop.got].m);
  }

  lemma PushedHolds<V(!new)>(cfg: Config<V>, g: Global<V>, n: NodeId, ref: Ref, d: Doc<V>)
    requires IsJoin(cfg.l) && Inv(cfg, g) && n in g.nodes && Genuine(cfg, g, ref, d)
    ensures DocLeq(cfg.l, d, DocOf(MergeCollection(cfg, g.nodes[n], ref, Wire(d)), ref))
  {
    hide IsJoin, MsgOk, CommitOk, ReqOk, ServedOk, NodeOk, Genuine, DocLeq;
    MergedHolds(cfg, g, g.nodes[n], n, ref, d);
  }

  /** Hops one after another, from node k at state i to node n at state j. */
  ghost predicate Chain<V(!new)>(cfg: Config<V>, states: seq<Global<V>>, steps: seq<Step<V>>, hops: seq<Hop>, ref: Ref,
    k: NodeId, i: nat, n: NodeId, j: nat)
    decreases |hops|
  {
    if hops == [] then k == n && i <= j
    else
      var hop := hops[0];
      hop.from == k && i <= hop.sent && Carried(cfg, states, steps, hop, ref)
      && Chain(cfg, states, steps, hops[1..], ref, hop.to, hop.got + 1, n, j)
  }

  lemma {:induction false} ChainReaches<V(!new)>(cfg: Config<V>, states: seq<Global<V>>, steps: seq<Step<V>>, hops: seq<Hop>,
    ref: Ref, k: NodeId, i: nat, n: NodeId, j: nat)
    requires IsJoin(cfg.l) && Trace(cfg, states, steps) && j < |states| && k in cfg.nodes
    requires Chain(cfg, states, steps, hops, ref, k, i, n, j)
    ensures i <= j && k in states[i].nodes && n in states[j].nodes
    ensures DocLeq(cfg.l, View(states[i], k, ref), View(states[j], n, ref))
    decreases |hops|
  {
    hide IsJoin, Inv, DocLeq, After, Init, Carried, Enabled;
    if hops == [] {
      ViewGrows(cfg, states, steps, i, j, k, ref);
    } else {
      var hop := hops[0];
      CarriedWithin(cfg, states, steps, hop, ref);
      TraceNodes(cfg, states, steps, hop.got);
      ChainReaches(cfg, states, steps, hops[1..], ref, hop.to, hop.got + 1, n, j);
      ViewGrows(cfg, states, steps, i, hop.sent, k, ref);
      HopReaches(cfg, states, steps, hop, ref);
      ThreeViews(cfg, states, steps, i, k, hop.sent, k, hop.got + 1, hop.to, ref);
      ThreeViews(cfg, states, steps, i, k, hop.got + 1, hop.to, j, n, ref);
    }
  }

  lemma CarriedWithin<V(!new)>(cfg: Config<V>, states: seq<Global<V>>, steps: seq<Step<V>>, hop: Hop, ref: Ref)
    requires Carried(cfg, states, steps, hop, ref)
    ensures hop.sent < hop.got < |steps| && |states| == |steps| + 1 && hop.to in states[hop.got].nodes
  {
  }

  lemma TraceNodes<V(!new)>(cfg: Config<V>, states: seq<Global<V>>, steps: seq<Step<V>>, i: nat)
    requires IsJoin(cfg.l) && Trace(cfg, states, steps) && i < |states|
    ensures states[i].nodes.Keys == cfg.nodes
  {
    hide IsJoin, Inv, After, Init, Enabled;
    TraceInv(cfg, states, steps, i);
    InvNodes(cfg, states[i]);
  }

  lemma ViewGrows<V(!new)>(cfg: Config<V>, states: seq<Global<V>>, steps: seq<Step<V>>, i: nat, j: nat, k: NodeId, ref: Ref)
    requires IsJoin(cfg.l) && Trace(cfg, states, steps) && i <= j < |states| && k in cfg.nodes
    ensures k in states[i].nodes && k in states[j].nodes
    ensures DocLeq(cfg.l, View(states[i], k, ref), View(states[j], k, ref))
  {
    hide IsJoin, DocLeq, After, Init, Enabled, DocsOk;
    Growth(cfg, states, steps, i, j);
  }

  lemma ThreeViews<V(!new)>(cfg: Config<V>, states: seq<Global<V>>, steps: seq<Step<V>>, i: nat, a: NodeId, j: nat,
    b: NodeId, k: nat, c: NodeId, ref: Ref)
    requires IsJoin(cfg.l) && Trace(cfg, states, steps) && i < |states| && j < |states| && k < |states|
    requires a in states[i].nodes && b in states[j].nodes && c in states[k].nodes
    requires DocLeq(cfg.l, View(states[i], a, ref), View(states[j], b, ref))
    requires DocLeq(cfg.l, View(states[j], b, ref), View(states[k], c, ref))
    ensures DocLeq(cfg.l, View(states[i], a, ref), View(states[k], c, ref))
  {
    hide IsJoin, DocLeq, After, Init, Enabled, Inv;
    TraceInv(cfg, states, steps, i);
    TraceInv(cfg, states, steps, j);
    TraceInv(cfg, states, steps, k);
    OwnView(cfg, states[i], a, ref);
    OwnView(cfg, states[j], b, ref);
    OwnView(cfg, states[k], c, ref);
    InDomain(cfg, states[i], ref, View(states[i], a, ref));
    InDomain(cfg, states[j], ref, View(states[j], b, ref));
    InDomain(cfg, states[k], ref, View(states[k], c, ref));
    DocLeqTransitive(cfg.l, View(states[i], a, ref), View(states[j], b, ref), View(states[k], c, ref));
  }

  /**
    Convergence by delivery: when no update of a document happens from i to j, and some chain of
    delivered gossip or push messages leads from every owner to every node in between, all
    replicas at j are equal, and equal to what the owners hold.
   */
  lemma ConvergenceByDelivery<V(!new)>(cfg: Config<V>, states: seq<Global<V>>, steps: seq<Step<V>>, i: nat, j: nat, ref: Ref)
    requires IsJoin(cfg.l) && Trace(cfg, states, steps) && i <= j < |states|
    requires forall t, k :: i <= t < j && k in cfg.nodes ==> !Writes(steps[t], k, ref)
    requires forall k, n :: k in cfg.nodes && n in cfg.nodes ==>
      exists hops: seq<Hop> :: Chain(cfg, states, steps, hops, ref, k, i, n, j)
    ensures states[i].nodes.Keys == states[j].nodes.Keys == cfg.nodes
    ensures forall n :: n in cfg.nodes ==> View(states[j], n, ref) == Owners(cfg, states[i], ref)
  {
    hide IsJoin, Chain, Init, After, Enabled, Writes;
    TraceNodes(cfg, states, steps, i);
    TraceNodes(cfg, states, steps, j);
    forall n | n in cfg.nodes
      ensures DocLeq(cfg.l, Owners(cfg, states[i], ref), View(states[j], n, ref))
    {
      forall k | k in cfg.nodes && k in View(states[i], k, ref)
        ensures var v := View(states[j], n, ref); k in v && Leq(cfg.l, View(states[i], k, ref)[k], v[k])
      {
        var hops: seq<Hop> :| Chain(cfg, states, steps, hops, ref, k, i, n, j);
        ChainReaches(cfg, states, steps, hops, ref, k, i, n, j);
      }
    }
    Convergence(cfg, states, steps, i, j, ref);
  }
}
