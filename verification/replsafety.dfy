/**
  Safety of replication over every run: who owns a slot, what a successful quorum means,
  and what later reads see.
 */
module ReplicationSafety {
  import opened Lattices
  import opened Replication

  // ----- invariants, element by element -----

  /** Every slot of d was once held by its owner. */
  ghost predicate Genuine<V(!new)>(cfg: Config<V>, g: Global<V>, ref: Ref, d: Doc<V>) {
    forall k :: k in d ==> k in cfg.nodes && d[k] in History(g, k, ref)
  }

  /** A slot's values ascend, and its owner holds the last of them. */
  ghost predicate HistoryOk<V(!new)>(cfg: Config<V>, g: Global<V>, k: NodeId, ref: Ref)
    requires k in g.nodes
  {
    var h, own := History(g, k, ref), View(g, k, ref);
    (forall i :: 0 <= i < |h| ==> cfg.l.dom(h[i]))
    && (forall i, j :: 0 <= i <= j < |h| ==> Leq(cfg.l, h[i], h[j]))
    && (k in own <==> h != []) && (h != [] ==> own[k] == h[|h| - 1])
  }

  ghost predicate DocsOk<V(!new)>(cfg: Config<V>, g: Global<V>) {
    forall n, ref :: n in cfg.nodes ==>
      n in g.nodes && HistoryOk(cfg, g, n, ref) && Genuine(cfg, g, ref, View(g, n, ref))
  }

  /** x's copy of the document holds everything in snap. */
  ghost predicate Holds<V(!new)>(cfg: Config<V>, g: Global<V>, x: NodeId, ref: Ref, snap: Doc<V>) {
    x in g.nodes && DocLeq(cfg.l, snap, View(g, x, ref))
  }

  ghost predicate CommitOk<V(!new)>(cfg: Config<V>, g: Global<V>, c: Commit<V>) {
    c.holders <= cfg.nodes && 2 * |c.holders| > |cfg.nodes| && Genuine(cfg, g, c.ref, c.snap)
    && forall x :: x in c.holders ==> Holds(cfg, g, x, c.ref, c.snap)
  }

  ghost predicate ReqOk<V(!new)>(cfg: Config<V>, g: Global<V>, r: ReqId)
    requires r in g.reqs
  {
    r.node in g.nodes && r.number <= g.nodes[r.node].minted
    && match g.reqs[r]
      case PushReq(ref, snap) => Genuine(cfg, g, ref, snap)
      case PullReq(ref, must) => forall c :: c in must ==> c in g.commits && c.ref == ref
  }

  ghost predicate ServedOk<V(!new)>(cfg: Config<V>, g: Global<V>, x: NodeId, r: ReqId) {
    r in g.reqs && (g.reqs[r].PushReq? ==> Holds(cfg, g, x, g.reqs[r].ref, g.reqs[r].snap))
  }

  /** An ack that can count: for a push its sender merged it, for a pull it brings what the sender had to hold. */
  ghost predicate AckOk<V(!new)>(cfg: Config<V>, g: Global<V>, m: Msg<V>)
    requires m.Ack?
  {
    m.from in cfg.nodes ==>
      m.req in g.reqs && (g.reqs[m.req].ref.document == m.document ==> AckCounts(cfg, g, m))
  }

  ghost predicate AckCounts<V(!new)>(cfg: Config<V>, g: Global<V>, m: Msg<V>)
    requires m.Ack? && m.req in g.reqs
  {
    m.from != m.req.node
    && match g.reqs[m.req]
      case PushReq(_, _) => (m.from, m.req) in g.served
      case PullReq(ref, must) =>
        m.snap.Wire? ==>
          Genuine(cfg, g, ref, m.snap.doc)
          && forall c :: c in must && m.from in c.holders ==> DocLeq(cfg.l, c.snap, m.snap.doc)
  }

  ghost predicate MsgOk<V(!new)>(cfg: Config<V>, g: Global<V>, m: Msg<V>) {
    match m
    case Gossip(_, docs) => forall ref :: ref in docs ==> Genuine(cfg, g, ref, docs[ref])
    case Push(from, _, req, ref, fp, snap) =>
      fp == cfg.fp ==>
        from == req.node && req in g.reqs && g.reqs[req].PushReq? && g.reqs[req].ref == ref
        && (snap.Wire? ==> snap.doc == g.reqs[req].snap)
    case Pull(from, _, req, ref, fp) =>
      fp == cfg.fp ==> from == req.node && req in g.reqs && g.reqs[req].PullReq? && g.reqs[req].ref == ref
    case Ack(_, _, _, _, _) => AckOk(cfg, g, m)
  }

  // ----- pending requests and operations -----

  ghost predicate Queued<V(!new)>(g: Global<V>, m: Msg<V>, r: ReqId, p: Pending<V>) {
    m in g.net && m.Ack? && m.req == r && m.document == p.document && m.from in p.seen
  }

  ghost predicate PendingOk<V(!new)>(cfg: Config<V>, g: Global<V>, n: NodeId, r: ReqId, p: Pending<V>) {
    r.node == n && r in g.reqs && g.reqs[r].ref.document == p.document && p.seen <= Peers(cfg, n)
    && (forall i :: 0 <= i < |p.queue| ==> Queued(g, p.queue[i], r, p))
    && forall i, j :: 0 <= i < j < |p.queue| ==> p.queue[i].from != p.queue[j].from
  }

  /** The peers counted so far are distinct, were seen, and have nothing left in the queue. */
  ghost predicate Counted<V(!new)>(s: NodeState<V>, r: ReqId, count: nat, counted: set<NodeId>) {
    r in s.pending && count == |counted| && counted <= s.pending[r].seen
    && forall i :: 0 <= i < |s.pending[r].queue| ==>
      s.pending[r].queue[i].Ack? && s.pending[r].queue[i].from !in counted
  }

  /** Every preceding majority push with a holder among `met` is held by n. */
  ghost predicate Gathered<V(!new)>(cfg: Config<V>, g: Global<V>, n: NodeId, op: Op<V>, met: set<NodeId>) {
    forall c, x :: c in op.must && x in c.holders && x in met ==> Holds(cfg, g, n, op.ref, c.snap)
  }

  /** A read that has gathered from a majority holds every preceding majority push. */
  ghost predicate AllGathered<V(!new)>(cfg: Config<V>, g: Global<V>, n: NodeId, op: Op<V>) {
    op.ratio >= 0.5 ==> forall c :: c in op.must ==> Holds(cfg, g, n, op.ref, c.snap)
  }

  /** A finished push: enough holders, each of which merged this very request and holds the snapshot. */
  ghost predicate PushedOk<V(!new)>(cfg: Config<V>, g: Global<V>, n: NodeId, op: Op<V>, reqs: set<ReqId>, snap: Doc<V>,
    holders: set<NodeId>)
  {
    n in holders && holders <= cfg.nodes && cfg.nodes != {} && Reached(cfg, |holders - {n}|, op.ratio)
    && Genuine(cfg, g, op.ref, snap)
    && (forall x :: x in holders ==> Holds(cfg, g, x, op.ref, snap))
    && (forall x :: x in holders && x != n ==>
      exists r :: r in reqs && (x, r) in g.served && r in g.reqs && g.reqs[r] == PushReq(op.ref, snap))
    && (op.ratio >= 0.5 ==> Commit(op.ref, snap, holders) in g.commits)
  }

  ghost predicate OpOk<V(!new)>(cfg: Config<V>, g: Global<V>, n: NodeId, s: NodeState<V>, op: Op<V>) {
    (forall c :: c in op.must ==> c in g.commits && c.ref == op.ref)
    && match op.phase
      case NeedPull => true
      case Pulling(r, count, counted) =>
        Counted(s, r, count, counted) && r in g.reqs && g.reqs[r] == PullReq(op.ref, op.must)
        && Gathered(cfg, g, n, op, counted + {n})
      case NeedPush => AllGathered(cfg, g, n, op)
      case Pushing(r, snap, count, counted) =>
        AllGathered(cfg, g, n, op) && Counted(s, r, count, counted)
        && r in g.reqs && g.reqs[r] == PushReq(op.ref, snap) && Holds(cfg, g, n, op.ref, snap)
        && forall x :: x in counted ==> (x, r) in g.served
      case Pushed(reqs, snap, holders) => AllGathered(cfg, g, n, op) && PushedOk(cfg, g, n, op, reqs, snap, holders)
      case Answered(view) => op.ratio >= 0.5 ==> forall c :: c in op.must ==> DocLeq(cfg.l, c.snap, view)
      case Unreached => true
  }

  /** No two operations wait for the same request. */
  ghost predicate OwnRequests<V(!new)>(s: NodeState<V>) {
    forall i, j :: i in s.ops && j in s.ops && i != j && Waiting(s.ops[i]) && Waiting(s.ops[j]) ==>
      Awaited(s.ops[i]) != Awaited(s.ops[j])
  }

  ghost predicate NodeOk<V(!new)>(cfg: Config<V>, g: Global<V>, n: NodeId, s: NodeState<V>) {
    OwnRequests(s)
    && (forall r :: r in s.pending ==> PendingOk(cfg, g, n, r, s.pending[r]))
    && forall i :: i in s.ops ==> OpOk(cfg, g, n, s, s.ops[i])
  }

  ghost predicate Inv<V(!new)>(cfg: Config<V>, g: Global<V>) {
    g.nodes.Keys == cfg.nodes && DocsOk(cfg, g)
    && (forall m :: m in g.net ==> MsgOk(cfg, g, m))
    && (forall c :: c in g.commits ==> CommitOk(cfg, g, c))
    && (forall r :: r in g.reqs ==> ReqOk(cfg, g, r))
    && (forall x, r :: (x, r) in g.served ==> ServedOk(cfg, g, x, r))
    && forall n :: n in cfg.nodes ==> NodeOk(cfg, g, n, g.nodes[n])
  }

  // ----- what only grows -----

  /** From g to g': records and messages are kept, histories get longer, documents grow. */
  ghost predicate Extends<V(!new)>(cfg: Config<V>, g: Global<V>, g': Global<V>) {
    g.nodes.Keys == g'.nodes.Keys && g.net <= g'.net && g.served <= g'.served && g.commits <= g'.commits
    && (forall r :: r in g.reqs ==> r in g'.reqs && g'.reqs[r] == g.reqs[r])
    && (forall k, ref :: History(g, k, ref) <= History(g', k, ref))
    && (forall n :: n in g.nodes ==> g.nodes[n].minted <= g'.nodes[n].minted)
    && forall n, ref :: n in g.nodes ==> DocLeq(cfg.l, View(g, n, ref), View(g', n, ref))
  }

  lemma GenuineStays<V(!new)>(cfg: Config<V>, g: Global<V>, g': Global<V>, ref: Ref, d: Doc<V>)
    requires Extends(cfg, g, g') && Genuine(cfg, g, ref, d)
    ensures Genuine(cfg, g', ref, d)
  {
    StillHeld(cfg, g, g', ref, d);
  }

  /** A genuine document has slots in the domain. */
  lemma GenuineInDom<V(!new)>(cfg: Config<V>, g: Global<V>, ref: Ref, d: Doc<V>)
    requires g.nodes.Keys == cfg.nodes && DocsOk(cfg, g) && Genuine(cfg, g, ref, d)
    ensures InDom(cfg.l, d)
  {
    forall k | k in d
      ensures cfg.l.dom(d[k])
    {
      assert HistoryOk(cfg, g, k, ref);
    }
  }

  lemma HoldsStays<V(!new)>(cfg: Config<V>, g: Global<V>, g': Global<V>, x: NodeId, ref: Ref, snap: Doc<V>)
    requires IsJoin(cfg.l) && Extends(cfg, g, g') && g.nodes.Keys == cfg.nodes && DocsOk(cfg, g) && DocsOk(cfg, g')
    requires Holds(cfg, g, x, ref, snap) && Genuine(cfg, g, ref, snap)
    ensures Holds(cfg, g', x, ref, snap)
  {
    hide IsJoin, DocLeq;
    GenuineInDom(cfg, g, ref, snap);
    ViewInDom(cfg, g, x, ref);
    ViewInDom(cfg, g', x, ref);
    DocLeqTransitive(cfg.l, snap, View(g, x, ref), View(g', x, ref));
  }

  lemma ViewInDom<V(!new)>(cfg: Config<V>, g: Global<V>, x: NodeId, ref: Ref)
    requires g.nodes.Keys == cfg.nodes && DocsOk(cfg, g) && x in cfg.nodes
    ensures InDom(cfg.l, View(g, x, ref)) && Genuine(cfg, g, ref, View(g, x, ref))
  {
    hide HistoryOk, Genuine;
    assert Genuine(cfg, g, ref, View(g, x, ref));
    GenuineInDom(cfg, g, ref, View(g, x, ref));
  }

  // ----- the invariants outlive a step -----

  /** Both states are in order as far as documents go, and the second extends the first. */
  ghost predicate Between<V(!new)>(cfg: Config<V>, g: Global<V>, g': Global<V>) {
    IsJoin(cfg.l) && g.nodes.Keys == cfg.nodes && DocsOk(cfg, g) && DocsOk(cfg, g') && Extends(cfg, g, g')
  }

  lemma CommitStays<V(!new)>(cfg: Config<V>, g: Global<V>, g': Global<V>, c: Commit<V>)
    requires Between(cfg, g, g') && CommitOk(cfg, g, c)
    ensures CommitOk(cfg, g', c)
  {
    hide IsJoin, Genuine, Holds, DocsOk, Extends;
    GenuineStays(cfg, g, g', c.ref, c.snap);
    forall x | x in c.holders
      ensures Holds(cfg, g', x, c.ref, c.snap)
    {
      HoldsStays(cfg, g, g', x, c.ref, c.snap);
    }
  }

  lemma ReqStays<V(!new)>(cfg: Config<V>, g: Global<V>, g': Global<V>, r: ReqId)
    requires Between(cfg, g, g') && r in g.reqs && ReqOk(cfg, g, r)
    ensures r in g'.reqs && ReqOk(cfg, g', r)
  {
    hide IsJoin, Genuine, DocsOk;
    if g.reqs[r].PushReq? {
      GenuineStays(cfg, g, g', g.reqs[r].ref, g.reqs[r].snap);
    }
  }

  lemma ServedStays<V(!new)>(cfg: Config<V>, g: Global<V>, g': Global<V>, x: NodeId, r: ReqId)
    requires Between(cfg, g, g') && ServedOk(cfg, g, x, r) && ReqOk(cfg, g, r)
    ensures ServedOk(cfg, g', x, r)
  {
    hide IsJoin, Genuine, Holds, DocsOk;
    if g.reqs[r].PushReq? {
      HoldsStays(cfg, g, g', x, g.reqs[r].ref, g.reqs[r].snap);
    }
  }

  lemma MsgStays<V(!new)>(cfg: Config<V>, g: Global<V>, g': Global<V>, m: Msg<V>)
    requires Between(cfg, g, g') && MsgOk(cfg, g, m)
    ensures MsgOk(cfg, g', m)
  {
    hide IsJoin, Genuine, DocsOk;
    match m
    case Gossip(_, docs) =>
      forall ref | ref in docs
        ensures Genuine(cfg, g', ref, docs[ref])
      {
        GenuineStays(cfg, g, g', ref, docs[ref]);
      }
    case Ack(from, _, req, document, snap) =>
      if from in cfg.nodes && g.reqs[req].ref.document == document && g.reqs[req].PullReq? && snap.Wire? {
        GenuineStays(cfg, g, g', g.reqs[req].ref, snap.doc);
      }
    case _ =>
  }

  lemma PendingStays<V(!new)>(cfg: Config<V>, g: Global<V>, g': Global<V>, n: NodeId, r: ReqId, p: Pending<V>)
    requires Extends(cfg, g, g') && PendingOk(cfg, g, n, r, p)
    ensures PendingOk(cfg, g', n, r, p)
  {
    forall i | 0 <= i < |p.queue|
      ensures Queued(g', p.queue[i], r, p)
    {
      assert Queued(g, p.queue[i], r, p);
    }
  }

  lemma MustStays<V(!new)>(cfg: Config<V>, g: Global<V>, g': Global<V>, n: NodeId, op: Op<V>, met: set<NodeId>)
    requires Between(cfg, g, g') && (forall c :: c in g.commits ==> CommitOk(cfg, g, c))
    requires forall c :: c in op.must ==> c in g.commits && c.ref == op.ref
    ensures Gathered(cfg, g, n, op, met) ==> Gathered(cfg, g', n, op, met)
    ensures AllGathered(cfg, g, n, op) ==> AllGathered(cfg, g', n, op)
  {
    hide IsJoin, Genuine, DocsOk, Holds, Extends;
    forall c | c in op.must && Holds(cfg, g, n, op.ref, c.snap)
      ensures Holds(cfg, g', n, op.ref, c.snap)
    {
      assert CommitOk(cfg, g, c);
      HoldsStays(cfg, g, g', n, op.ref, c.snap);
    }
  }

  lemma PushedStays<V(!new)>(cfg: Config<V>, g: Global<V>, g': Global<V>, n: NodeId, op: Op<V>, reqs: set<ReqId>,
    snap: Doc<V>, holders: set<NodeId>)
    requires Between(cfg, g, g') && PushedOk(cfg, g, n, op, reqs, snap, holders)
    ensures PushedOk(cfg, g', n, op, reqs, snap, holders)
  {
    hide IsJoin, Genuine, DocsOk, Holds, Reached, Extends;
    ExtendsRecords(cfg, g, g');
    GenuineStays(cfg, g, g', op.ref, snap);
    forall x | x in holders
      ensures Holds(cfg, g', x, op.ref, snap)
    {
      HoldsStays(cfg, g, g', x, op.ref, snap);
    }
    forall x | x in holders && x != n
      ensures exists r :: r in reqs && (x, r) in g'.served && r in g'.reqs && g'.reqs[r] == PushReq(op.ref, snap)
    {
      var r :| r in reqs && (x, r) in g.served && r in g.reqs && g.reqs[r] == PushReq(op.ref, snap);
      assert r in g'.reqs && (x, r) in g'.served;
    }
  }

  lemma ExtendsRecords<V(!new)>(cfg: Config<V>, g: Global<V>, g': Global<V>)
    requires Extends(cfg, g, g')
    ensures g.nodes.Keys == g'.nodes.Keys && g.net <= g'.net && g.served <= g'.served && g.commits <= g'.commits
    ensures forall r :: r in g.reqs ==> r in g'.reqs && g'.reqs[r] == g.reqs[r]
  {
  }

  lemma OpStays<V(!new)>(cfg: Config<V>, g: Global<V>, g': Global<V>, n: NodeId, s: NodeState<V>, op: Op<V>)
    requires Between(cfg, g, g') && (forall c :: c in g.commits ==> CommitOk(cfg, g, c))
    requires (forall r :: r in g.reqs ==> ReqOk(cfg, g, r)) && OpOk(cfg, g, n, s, op)
    ensures OpOk(cfg, g', n, s, op)
  {
    hide IsJoin, Genuine, DocsOk, Holds, Gathered, AllGathered, PushedOk, Counted, Extends;
    ExtendsRecords(cfg, g, g');
    match op.phase
    case Pulling(r, count, counted) => MustStays(cfg, g, g', n, op, counted + {n});
    case NeedPush => MustStays(cfg, g, g', n, op, {});
    case Pushing(r, snap, count, counted) =>
      MustStays(cfg, g, g', n, op, {});
      assert ReqOk(cfg, g, r);
      HoldsStays(cfg, g, g', n, op.ref, snap);
    case Pushed(reqs, snap, holders) =>
      MustStays(cfg, g, g', n, op, {});
      PushedStays(cfg, g, g', n, op, reqs, snap, holders);
    case _ =>
  }

  lemma NodeStays<V(!new)>(cfg: Config<V>, g: Global<V>, g': Global<V>, n: NodeId, s: NodeState<V>)
    requires Between(cfg, g, g') && (forall c :: c in g.commits ==> CommitOk(cfg, g, c))
    requires (forall r :: r in g.reqs ==> ReqOk(cfg, g, r)) && NodeOk(cfg, g, n, s)
    ensures NodeOk(cfg, g', n, s)
  {
    hide IsJoin, DocsOk, OpOk, PendingOk, CommitOk, ReqOk, Extends, OwnRequests;
    forall r | r in s.pending
      ensures PendingOk(cfg, g', n, r, s.pending[r])
    {
      PendingStays(cfg, g, g', n, r, s.pending[r]);
    }
    forall i | i in s.ops
      ensures OpOk(cfg, g', n, s, s.ops[i])
    {
      OpStays(cfg, g, g', n, s, s.ops[i]);
    }
  }

  /** What a step adds is in order; everything it leaves alone stays in order. */
  lemma InvStays<V(!new)>(cfg: Config<V>, g: Global<V>, g': Global<V>)
    requires Inv(cfg, g) && Between(cfg, g, g')
    requires forall m :: m in g'.net - g.net ==> MsgOk(cfg, g', m)
    requires forall c :: c in g'.commits - g.commits ==> CommitOk(cfg, g', c)
    requires forall r :: r in g'.reqs && r !in g.reqs ==> ReqOk(cfg, g', r)
    requires forall x, r :: (x, r) in g'.served - g.served ==> ServedOk(cfg, g', x, r)
    requires forall n :: n in cfg.nodes ==>
      SameWork(g.nodes[n], g'.nodes[n]) || NodeOk(cfg, g', n, g'.nodes[n])
    ensures Inv(cfg, g')
  {
    hide IsJoin, DocsOk, MsgOk, CommitOk, ReqOk, ServedOk, NodeOk, Extends;
    ExtendsRecords(cfg, g, g');
    forall m | m in g'.net
      ensures MsgOk(cfg, g', m)
    {
      if m in g.net {
        MsgStays(cfg, g, g', m);
      }
    }
    forall c | c in g'.commits
      ensures CommitOk(cfg, g', c)
    {
      if c in g.commits {
        CommitStays(cfg, g, g', c);
      }
    }
    forall r | r in g'.reqs
      ensures ReqOk(cfg, g', r)
    {
      if r in g.reqs {
        ReqStays(cfg, g, g', r);
      }
    }
    forall x, r | (x, r) in g'.served
      ensures ServedOk(cfg, g', x, r)
    {
      if (x, r) in g.served {
        ServedReq(cfg, g, x, r);
        ServedStays(cfg, g, g', x, r);
      }
    }
    forall n | n in cfg.nodes
      ensures NodeOk(cfg, g', n, g'.nodes[n])
    {
      if SameWork(g.nodes[n], g'.nodes[n]) {
        NodeStays(cfg, g, g', n, g.nodes[n]);
        WorkOnly(cfg, g', n, g.nodes[n], g'.nodes[n]);
      }
    }
  }

  lemma ServedReq<V(!new)>(cfg: Config<V>, g: Global<V>, x: NodeId, r: ReqId)
    requires ServedOk(cfg, g, x, r)
    ensures r in g.reqs
  {
  }

  /** The node's pending requests and operations are untouched. */
  predicate SameWork<V(==)>(s: NodeState<V>, s': NodeState<V>) {
    s'.pending == s.pending && s'.ops == s.ops
  }

  lemma WorkOnly<V(!new)>(cfg: Config<V>, g: Global<V>, n: NodeId, s: NodeState<V>, s': NodeState<V>)
    requires NodeOk(cfg, g, n, s) && SameWork(s, s')
    ensures NodeOk(cfg, g, n, s')
  {
    hide PendingOk, Holds, Gathered, AllGathered, PushedOk;
    forall i | i in s'.ops
      ensures OpOk(cfg, g, n, s', s'.ops[i])
    {
      assert OpOk(cfg, g, n, s, s.ops[i]);
    }
  }

  // ----- documents: merging and updating -----

  /** Two values a slot has held are joined to the later one. */
  lemma HeldJoin<V(!new)>(cfg: Config<V>, g: Global<V>, k: NodeId, ref: Ref, x: V, y: V)
    requires IsJoin(cfg.l) && k in g.nodes && HistoryOk(cfg, g, k, ref)
    requires x in History(g, k, ref) && y in History(g, k, ref)
    ensures cfg.l.join(x, y) in History(g, k, ref)
    ensures y == History(g, k, ref)[|History(g, k, ref)| - 1] ==> cfg.l.join(x, y) == y
  {
    var h := History(g, k, ref);
    var i :| 0 <= i < |h| && h[i] == x;
    var j :| 0 <= j < |h| && h[j] == y;
    if i <= j {
      assert Leq(cfg.l, h[i], h[j]);
    } else {
      assert Leq(cfg.l, h[j], h[i]);
    }
    if y == h[|h| - 1] {
      assert Leq(cfg.l, h[i], h[|h| - 1]);
    }
  }

  /** Merging genuine documents is genuine, and never changes the merging node's own slot. */
  lemma MergeGenuine<V(!new)>(cfg: Config<V>, g: Global<V>, n: NodeId, ref: Ref, d: Doc<V>)
    requires IsJoin(cfg.l) && g.nodes.Keys == cfg.nodes && DocsOk(cfg, g) && n in cfg.nodes && Genuine(cfg, g, ref, d)
    ensures var v := View(g, n, ref); var r := Join(cfg.l, v, d);
      Genuine(cfg, g, ref, r) && DocLeq(cfg.l, v, r) && DocLeq(cfg.l, d, r)
      && (n in r <==> n in v) && (n in v ==> r[n] == v[n])
  {
    hide IsJoin, DocLeq;
    var v := View(g, n, ref);
    ViewInDom(cfg, g, n, ref);
    GenuineInDom(cfg, g, ref, d);
    DocJoinLub(cfg.l, v, d, v);
    var r := Join(cfg.l, v, d);
    forall k | k in r
      ensures k in cfg.nodes && r[k] in History(g, k, ref)
      ensures k == n ==> n in v && r[n] == v[n]
    {
      JoinedSlot(cfg, g, n, ref, v, d, k);
    }
  }

  lemma JoinedSlot<V(!new)>(cfg: Config<V>, g: Global<V>, n: NodeId, ref: Ref, v: Doc<V>, d: Doc<V>, k: NodeId)
    requires IsJoin(cfg.l) && g.nodes.Keys == cfg.nodes && DocsOk(cfg, g) && n in cfg.nodes && v == View(g, n, ref)
    requires Genuine(cfg, g, ref, v) && Genuine(cfg, g, ref, d) && (k in v || k in d)
    ensures var r := Join(cfg.l, v, d)[k];
      k in cfg.nodes && r in History(g, k, ref) && (k == n ==> k in v && r == v[k])
  {
    hide IsJoin;
    assert HistoryOk(cfg, g, k, ref);
    if k in v && k in d {
      HeldJoin(cfg, g, k, ref, v[k], d[k]);
      HeldJoin(cfg, g, k, ref, d[k], v[k]);
      GenuineInDom(cfg, g, ref, v);
      GenuineInDom(cfg, g, ref, d);
      Commutes(cfg.l, v[k], d[k]);
    }
  }

  lemma Commutes<V(!new)>(l: Lattice<V>, x: V, y: V)
    requires IsJoin(l) && l.dom(x) && l.dom(y)
    ensures l.join(x, y) == l.join(y, x)
  {
  }

  /** Each document of s' is the one of s, or that with a genuine document merged in. */
  ghost predicate Absorbs<V(!new)>(cfg: Config<V>, g: Global<V>, s: NodeState<V>, s': NodeState<V>) {
    s.minted <= s'.minted && forall ref :: AbsorbedDoc(cfg, g, ref, DocOf(s, ref), DocOf(s', ref))
  }

  ghost predicate AbsorbedDoc<V(!new)>(cfg: Config<V>, g: Global<V>, ref: Ref, v: Doc<V>, v': Doc<V>) {
    v' == v || exists d :: Genuine(cfg, g, ref, d) && v' == Join(cfg.l, v, d)
  }

  /** g' is g with node n in a new state, the same histories, and possibly more records and messages. */
  ghost predicate Moves<V(!new)>(g: Global<V>, g': Global<V>, n: NodeId) {
    n in g.nodes && n in g'.nodes && g'.nodes == g.nodes[n := g'.nodes[n]] && g'.hist == g.hist
    && g.net <= g'.net && g.served <= g'.served && g.commits <= g'.commits
    && forall r :: r in g.reqs ==> r in g'.reqs && g'.reqs[r] == g.reqs[r]
  }

  lemma AbsorbedView<V(!new)>(cfg: Config<V>, g: Global<V>, n: NodeId, ref: Ref, v': Doc<V>)
    requires IsJoin(cfg.l) && g.nodes.Keys == cfg.nodes && DocsOk(cfg, g) && n in cfg.nodes
    requires AbsorbedDoc(cfg, g, ref, View(g, n, ref), v')
    ensures var v := View(g, n, ref);
      Genuine(cfg, g, ref, v') && DocLeq(cfg.l, v, v') && (n in v' <==> n in v) && (n in v ==> v'[n] == v[n])
  {
    hide IsJoin, DocLeq, Genuine, DocsOk;
    var v := View(g, n, ref);
    if v' == v {
      ViewInDom(cfg, g, n, ref);
      DocLeqReflexive(cfg.l, v);
    } else {
      var d :| Genuine(cfg, g, ref, d) && v' == Join(cfg.l, v, d);
      MergeGenuine(cfg, g, n, ref, d);
    }
  }

  /** One document of one node, across a step. */
  ghost predicate DocStep<V(!new)>(cfg: Config<V>, g: Global<V>, g': Global<V>, k: NodeId, ref: Ref) {
    k in g.nodes && k in g'.nodes && HistoryOk(cfg, g', k, ref) && Genuine(cfg, g', ref, View(g', k, ref))
    && DocLeq(cfg.l, View(g, k, ref), View(g', k, ref)) && History(g, k, ref) <= History(g', k, ref)
  }

  lemma DocSteps<V(!new)>(cfg: Config<V>, g: Global<V>, g': Global<V>)
    requires g.nodes.Keys == g'.nodes.Keys == cfg.nodes && forall k, ref :: k in cfg.nodes ==> DocStep(cfg, g, g', k, ref)
    ensures DocsOk(cfg, g')
    ensures forall k, ref :: k in cfg.nodes ==>
      History(g, k, ref) <= History(g', k, ref) && DocLeq(cfg.l, View(g, k, ref), View(g', k, ref))
  {
    hide HistoryOk, Genuine, DocLeq, History, View;
    forall k, ref | k in cfg.nodes
      ensures HistoryOk(cfg, g', k, ref) && Genuine(cfg, g', ref, View(g', k, ref))
      ensures History(g, k, ref) <= History(g', k, ref) && DocLeq(cfg.l, View(g, k, ref), View(g', k, ref))
    {
      assert DocStep(cfg, g, g', k, ref);
    }
  }

  /** A node that merges nothing but genuine documents. */
  lemma AbsorbBetween<V(!new)>(cfg: Config<V>, g: Global<V>, g': Global<V>, n: NodeId)
    requires IsJoin(cfg.l) && g.nodes.Keys == cfg.nodes && DocsOk(cfg, g)
    requires Moves(g, g', n) && Absorbs(cfg, g, g.nodes[n], g'.nodes[n])
    ensures Between(cfg, g, g')
  {
    hide IsJoin, DocStep, DocLeq, HistoryOk, Genuine, AbsorbedDoc;
    assert g'.nodes.Keys == g.nodes.Keys;
    forall k, ref | k in cfg.nodes
      ensures DocStep(cfg, g, g', k, ref)
    {
      if k == n {
        assert AbsorbedDoc(cfg, g, ref, View(g, n, ref), View(g', n, ref));
        AbsorbedStep(cfg, g, g', n, ref);
      } else {
        IdleStep(cfg, g, g', k, ref);
      }
    }
    DocSteps(cfg, g, g');
    SameHistory(g, g');
  }

  lemma SameHistory<V(!new)>(g: Global<V>, g': Global<V>)
    requires g'.hist == g.hist
    ensures forall k, ref :: History(g', k, ref) == History(g, k, ref)
  {
  }

  lemma AbsorbedStep<V(!new)>(cfg: Config<V>, g: Global<V>, g': Global<V>, n: NodeId, ref: Ref)
    requires IsJoin(cfg.l) && g.nodes.Keys == cfg.nodes && DocsOk(cfg, g) && Moves(g, g', n)
    requires AbsorbedDoc(cfg, g, ref, View(g, n, ref), View(g', n, ref))
    ensures DocStep(cfg, g, g', n, ref)
  {
    hide IsJoin, DocLeq, AbsorbedDoc;
    assert HistoryOk(cfg, g, n, ref);
    AbsorbedView(cfg, g, n, ref, View(g', n, ref));
    SameHistory(g, g');
  }

  /** A document whose node and history do not change. */
  lemma IdleStep<V(!new)>(cfg: Config<V>, g: Global<V>, g': Global<V>, k: NodeId, ref: Ref)
    requires IsJoin(cfg.l) && g.nodes.Keys == cfg.nodes && DocsOk(cfg, g) && k in cfg.nodes && k in g'.nodes
    requires View(g', k, ref) == View(g, k, ref) && History(g', k, ref) == History(g, k, ref)
    requires forall j :: History(g, j, ref) <= History(g', j, ref)
    ensures DocStep(cfg, g, g', k, ref)
  {
    hide IsJoin, DocLeq;
    assert HistoryOk(cfg, g, k, ref);
    ViewInDom(cfg, g, k, ref);
    DocLeqReflexive(cfg.l, View(g, k, ref));
    StillHeld(cfg, g, g', ref, View(g, k, ref));
  }

  lemma StillHeld<V(!new)>(cfg: Config<V>, g: Global<V>, g': Global<V>, ref: Ref, d: Doc<V>)
    requires Genuine(cfg, g, ref, d) && forall j :: History(g, j, ref) <= History(g', j, ref)
    ensures Genuine(cfg, g', ref, d)
  {
    forall k | k in d
      ensures d[k] in History(g', k, ref)
    {
      var i :| 0 <= i < |History(g, k, ref)| && History(g, k, ref)[i] == d[k];
      assert History(g, k, ref) <= History(g', k, ref);
      assert History(g', k, ref)[i] == d[k];
    }
  }

  /** A step that leaves every document alone. */
  lemma StillBetween<V(!new)>(cfg: Config<V>, g: Global<V>, g': Global<V>, n: NodeId)
    requires IsJoin(cfg.l) && g.nodes.Keys == cfg.nodes && DocsOk(cfg, g)
    requires Moves(g, g', n) && g'.nodes[n].docs == g.nodes[n].docs && g.nodes[n].minted <= g'.nodes[n].minted
    ensures Between(cfg, g, g')
  {
    hide IsJoin, DocsOk, Genuine;
    AbsorbBetween(cfg, g, g', n);
  }

  lemma MergeAbsorbs<V(!new)>(cfg: Config<V>, g: Global<V>, s: NodeState<V>, ref: Ref, d: Doc<V>)
    requires Genuine(cfg, g, ref, d)
    ensures Absorbs(cfg, g, s, MergeCollection(cfg, s, ref, Wire(d)))
  {
  }

  lemma GossipAbsorbs<V(!new)>(cfg: Config<V>, g: Global<V>, s: NodeState<V>, docs: map<Ref, Doc<V>>)
    requires forall ref :: ref in docs ==> Genuine(cfg, g, ref, docs[ref])
    ensures Absorbs(cfg, g, s, OnGossip(cfg, s, docs))
  {
    hide Genuine;
  }

  /** An inflationary write of the own slot extends its history. */
  lemma UpdateBetween<V(!new)>(cfg: Config<V>, g: Global<V>, n: NodeId, ref: Ref, h: V)
    requires IsJoin(cfg.l) && g.nodes.Keys == cfg.nodes && DocsOk(cfg, g) && UpdateOk(cfg, g, n, ref, h)
    ensures Between(cfg, g, AfterUpdate(g, n, ref, h))
  {
    hide IsJoin, DocStep, DocLeq, HistoryOk, Genuine, DocsOk;
    var g' := AfterUpdate(g, n, ref, h);
    assert g'.nodes.Keys == g.nodes.Keys;
    forall k, r | k in cfg.nodes
      ensures DocStep(cfg, g, g', k, r)
    {
      if k == n && r == ref {
        WriteStep(cfg, g, n, ref, h);
      } else {
        IdleStep(cfg, g, g', k, r);
      }
    }
    DocSteps(cfg, g, g');
  }

  lemma WriteStep<V(!new)>(cfg: Config<V>, g: Global<V>, n: NodeId, ref: Ref, h: V)
    requires IsJoin(cfg.l) && g.nodes.Keys == cfg.nodes && DocsOk(cfg, g) && UpdateOk(cfg, g, n, ref, h)
    ensures DocStep(cfg, g, AfterUpdate(g, n, ref, h), n, ref)
  {
    hide IsJoin, DocLeq, DocsOk, HistoryOk, Genuine;
    var g' := AfterUpdate(g, n, ref, h);
    ViewInDom(cfg, g, n, ref);
    UpdateHistory(cfg, g, n, ref, h);
    StillHeld(cfg, g, g', ref, View(g, n, ref));
    WriteGenuine(cfg, g', n, ref, View(g, n, ref), h);
    WriteGrows(cfg.l, View(g, n, ref), n, h);
  }

  lemma WriteGenuine<V(!new)>(cfg: Config<V>, g: Global<V>, n: NodeId, ref: Ref, d: Doc<V>, h: V)
    requires Genuine(cfg, g, ref, d) && n in cfg.nodes && h in History(g, n, ref)
    ensures Genuine(cfg, g, ref, d[n := h])
  {
  }

  lemma WriteGrows<V(!new)>(l: Lattice<V>, d: Doc<V>, n: NodeId, h: V)
    requires IsJoin(l) && InDom(l, d) && (n in d ==> Leq(l, d[n], h))
    ensures DocLeq(l, d, d[n := h])
  {
  }

  lemma UpdateHistory<V(!new)>(cfg: Config<V>, g: Global<V>, n: NodeId, ref: Ref, h: V)
    requires IsJoin(cfg.l) && g.nodes.Keys == cfg.nodes && DocsOk(cfg, g) && UpdateOk(cfg, g, n, ref, h)
    ensures var g' := AfterUpdate(g, n, ref, h);
      HistoryOk(cfg, g', n, ref) && forall x :: x in History(g, n, ref) ==> x in History(g', n, ref)
  {
    hide IsJoin;
    var g' := AfterUpdate(g, n, ref, h);
    var past, now := History(g, n, ref), History(g', n, ref);
    assert now == past + [h] && HistoryOk(cfg, g, n, ref);
    forall i, j | 0 <= i <= j < |now|
      ensures Leq(cfg.l, now[i], now[j])
    {
      if j == |past| {
        BelowLast(cfg, g, n, ref, h, i);
      }
    }
  }

  lemma BelowLast<V(!new)>(cfg: Config<V>, g: Global<V>, n: NodeId, ref: Ref, h: V, i: nat)
    requires IsJoin(cfg.l) && UpdateOk(cfg, g, n, ref, h) && HistoryOk(cfg, g, n, ref) && i <= |History(g, n, ref)|
    ensures Leq(cfg.l, (History(g, n, ref) + [h])[i], h)
  {
    hide IsJoin;
    var past := History(g, n, ref);
    LeqReflexive(cfg.l, h);
    if i < |past| {
      assert Leq(cfg.l, past[i], past[|past| - 1]);
      LeqTransitive(cfg.l, past[i], past[|past| - 1], h);
    }
  }
}
