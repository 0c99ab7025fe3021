/**
  A node as the object it is: handlers and helpers that update its fields in place. Each makes
  the node's part of a protocol step and keeps the node in order: requests were minted here,
  queues hold one ack per peer seen, and documents only grow. Collecting the acks of a request
  is the run of the protocol's collect steps.
 */
module Nodes {
  import opened Lattices
  import opened Replication
  import opened ReplicationSafety
  import opened ReplicationSteps

  // ----- a node in order -----

  /** A pending request was minted here; its queue holds acks to it, one per peer seen. */
  ghost predicate PendingFits<V(!new)>(cfg: Config<V>, self: NodeId, minted: nat, r: ReqId, p: Pending<V>) {
    r.node == self && r.number <= minted && p.seen <= Peers(cfg, self)
    && (forall i :: 0 <= i < |p.queue| ==> Fits(p.queue[i], r, p))
    && forall i, j :: 0 <= i < j < |p.queue| ==> p.queue[i].from != p.queue[j].from
  }

  ghost predicate Fits<V(!new)>(m: Msg<V>, r: ReqId, p: Pending<V>) {
    m.Ack? && m.req == r && m.document == p.document && m.from in p.seen
  }

  ghost predicate NodeValid<V(!new)>(cfg: Config<V>, self: NodeId, s: NodeState<V>) {
    (forall r :: r in s.pending ==> PendingFits(cfg, self, s.minted, r, s.pending[r]))
    && forall ref :: InDom(cfg.l, DocOf(s, ref))
  }

  /** What a message brings, if it decodes, is in the domain: decoding checks it. */
  ghost predicate WireInDom<V(!new)>(cfg: Config<V>, m: Msg<V>) {
    match m
    case Push(_, _, _, _, _, snap) => snap.Wire? ==> InDom(cfg.l, snap.doc)
    case Ack(_, _, _, _, snap) => snap.Wire? ==> InDom(cfg.l, snap.doc)
    case Gossip(_, docs) => forall ref :: ref in docs ==> InDom(cfg.l, docs[ref])
    case Pull(_, _, _, _, _) => true
  }

  /** No document lost anything. */
  ghost predicate Grown<V(!new)>(cfg: Config<V>, s: NodeState<V>, s': NodeState<V>) {
    forall ref :: DocLeq(cfg.l, DocOf(s, ref), DocOf(s', ref))
  }

  /** No own slot changed. */
  ghost predicate OwnKept<V(!new)>(self: NodeId, s: NodeState<V>, s': NodeState<V>) {
    forall ref ::
      (self in DocOf(s', ref) <==> self in DocOf(s, ref))
      && (self in DocOf(s, ref) ==> DocOf(s', ref)[self] == DocOf(s, ref)[self])
  }

  /** What d says of the node's own slot is not ahead of the node. */
  ghost predicate Behind<V(!new)>(l: Lattice<V>, self: NodeId, d: Doc<V>, doc: Doc<V>) {
    self in d ==> self in doc && Leq(l, d[self], doc[self])
  }

  lemma SameGrown<V(!new)>(cfg: Config<V>, self: NodeId, s: NodeState<V>, s': NodeState<V>)
    requires IsJoin(cfg.l) && NodeValid(cfg, self, s) && s'.docs == s.docs
    ensures Grown(cfg, s, s') && OwnKept(self, s, s') && forall ref :: InDom(cfg.l, DocOf(s', ref))
  {
    hide IsJoin, DocLeq;
    forall ref
      ensures DocOf(s', ref) == DocOf(s, ref) && DocLeq(cfg.l, DocOf(s, ref), DocOf(s', ref))
    {
      DocLeqReflexive(cfg.l, DocOf(s, ref));
    }
  }

  /** Joining a document into one: it grows, takes all of d in, and keeps the own slot if d is not ahead. */
  lemma JoinKeeps<V(!new)>(l: Lattice<V>, self: NodeId, doc: Doc<V>, d: Doc<V>)
    requires IsJoin(l) && InDom(l, doc) && InDom(l, d)
    ensures var r := Join(l, doc, d);
      InDom(l, r) && DocLeq(l, doc, r) && DocLeq(l, d, r)
      && (Behind(l, self, d, doc) ==> (self in r <==> self in doc) && (self in doc ==> r[self] == doc[self]))
  {
    DocJoinLub(l, doc, d, doc);
  }

  /** Merging a snapshot keeps the node in order and loses nothing. */
  lemma MergeKeeps<V(!new)>(cfg: Config<V>, self: NodeId, s: NodeState<V>, ref: Ref, snap: Wire<V>)
    requires IsJoin(cfg.l) && NodeValid(cfg, self, s) && snap.Wire? && InDom(cfg.l, snap.doc)
    ensures var s' := MergeCollection(cfg, s, ref, snap);
      NodeValid(cfg, self, s') && Grown(cfg, s, s') && DocLeq(cfg.l, snap.doc, DocOf(s', ref))
      && (forall r :: r != ref ==> DocOf(s', r) == DocOf(s, r))
      && (Behind(cfg.l, self, snap.doc, DocOf(s, ref)) ==> OwnKept(self, s, s'))
  {
    hide IsJoin, DocLeq, Behind, PendingFits, Join;
    var s' := MergeCollection(cfg, s, ref, snap);
    MergeFrame(cfg, s, ref, snap);
    MergedDoc(cfg, s, ref, snap);
    JoinKeeps(cfg.l, self, DocOf(s, ref), snap.doc);
    forall r
      ensures InDom(cfg.l, DocOf(s', r)) && DocLeq(cfg.l, DocOf(s, r), DocOf(s', r))
      ensures r != ref ==> DocOf(s', r) == DocOf(s, r)
    {
      if r != ref {
        DocLeqReflexive(cfg.l, DocOf(s, r));
      }
    }
  }

  /** Merging into a document is joining it, also when nothing is created. */
  lemma MergedDoc<V(!new)>(cfg: Config<V>, s: NodeState<V>, ref: Ref, snap: Wire<V>)
    requires snap.Wire?
    ensures DocOf(MergeCollection(cfg, s, ref, snap), ref) == Join(cfg.l, DocOf(s, ref), snap.doc)
  {
  }

  /** A gossip message keeps the node in order, loses nothing, and leaves it above all it brought that the plan knows. */
  lemma GossipedKeeps<V(!new)>(cfg: Config<V>, self: NodeId, s: NodeState<V>, docs: map<Ref, Doc<V>>)
    requires IsJoin(cfg.l) && NodeValid(cfg, self, s) && forall r :: r in docs ==> InDom(cfg.l, docs[r])
    ensures var s' := OnGossip(cfg, s, docs);
      NodeValid(cfg, self, s') && Grown(cfg, s, s')
      && (forall r :: s.deployed && r in docs && cfg.known(r) ==> DocLeq(cfg.l, docs[r], DocOf(s', r)))
      && ((forall r :: r in docs ==> Behind(cfg.l, self, docs[r], DocOf(s, r))) ==> OwnKept(self, s, s'))
  {
    hide IsJoin, DocLeq, Behind, PendingFits, Join;
    var s' := OnGossip(cfg, s, docs);
    forall r
      ensures InDom(cfg.l, DocOf(s', r)) && DocLeq(cfg.l, DocOf(s, r), DocOf(s', r))
      ensures s.deployed && r in docs && cfg.known(r) ==> DocLeq(cfg.l, docs[r], DocOf(s', r))
      ensures (r in docs ==> Behind(cfg.l, self, docs[r], DocOf(s, r))) ==>
        (self in DocOf(s', r) <==> self in DocOf(s, r))
        && (self in DocOf(s, r) ==> DocOf(s', r)[self] == DocOf(s, r)[self])
    {
      GossipedDoc(cfg, s, docs, r);
      DocLeqReflexive(cfg.l, DocOf(s, r));
      if s.deployed && Gossiped(cfg, docs, r) {
        JoinKeeps(cfg.l, self, DocOf(s, r), docs[r]);
      } else if r in docs && docs[r] == map[] {
        NothingBelow(cfg.l, DocOf(s', r));
      }
    }
  }

  lemma GossipedDoc<V(!new)>(cfg: Config<V>, s: NodeState<V>, docs: map<Ref, Doc<V>>, r: Ref)
    ensures DocOf(OnGossip(cfg, s, docs), r)
      == if s.deployed && Gossiped(cfg, docs, r) then Join(cfg.l, DocOf(s, r), docs[r]) else DocOf(s, r)
  {
    hide Join;
  }

  lemma NothingBelow<V(!new)>(l: Lattice<V>, d: Doc<V>)
    ensures DocLeq(l, map[], d)
  {
  }

  /** A queue never outgrows the peers: a first-time ack always finds room, and is queued. */
  lemma AckKept<V(!new)>(cfg: Config<V>, self: NodeId, s: NodeState<V>, m: Msg<V>)
    requires NodeValid(cfg, self, s) && m.Ack?
    ensures var s' := OnAck(cfg, s, self, m);
      NodeValid(cfg, self, s') && s'.docs == s.docs
      && (AckFits(cfg, s, self, m) ==> s'.pending[m.req].queue == s.pending[m.req].queue + [m])
      && forall r :: r in s'.pending ==> |s'.pending[r].queue| <= |Peers(cfg, self)|
  {
    hide InDom;
    var s' := OnAck(cfg, s, self, m);
    forall r | r in s.pending
      ensures |s.pending[r].queue| <= |s.pending[r].seen| <= |Peers(cfg, self)|
    {
      QueueBounded(cfg, self, s.minted, r, s.pending[r]);
    }
    if AckFits(cfg, s, self, m) {
      var p, p' := s.pending[m.req], s'.pending[m.req];
      assert PendingFits(cfg, self, s.minted, m.req, p);
      SubsetCard(p.seen + {m.from}, Peers(cfg, self));
      forall i | 0 <= i < |p'.queue|
        ensures Fits(p'.queue[i], m.req, p')
      {
        assert i < |p.queue| ==> Fits(p.queue[i], m.req, p);
      }
      forall i, j | 0 <= i < j < |p'.queue|
        ensures p'.queue[i].from != p'.queue[j].from
      {
        assert Fits(p.queue[i], m.req, p);
      }
      QueueBounded(cfg, self, s.minted, m.req, p');
    }
    assert forall ref :: DocOf(s', ref) == DocOf(s, ref);
  }

  lemma QueueBounded<V(!new)>(cfg: Config<V>, self: NodeId, minted: nat, r: ReqId, p: Pending<V>)
    requires PendingFits(cfg, self, minted, r, p)
    ensures |p.queue| <= |p.seen| <= |Peers(cfg, self)|
  {
    forall i | 0 <= i < |p.queue|
      ensures p.queue[i].Ack? && p.queue[i].from in p.seen
    {
      assert Fits(p.queue[i], r, p);
    }
    DistinctSenders(p.queue, p.seen);
    SubsetCard(p.seen, Peers(cfg, self));
  }

  /** In every state the protocol reaches, every node is in order. */
  lemma ReachedValid<V(!new)>(cfg: Config<V>, g: Global<V>, n: NodeId)
    requires IsJoin(cfg.l) && Inv(cfg, g) && n in g.nodes
    ensures NodeValid(cfg, n, g.nodes[n])
  {
    hide IsJoin, DocsOk, MsgOk, CommitOk, ServedOk, OpOk;
    var s := g.nodes[n];
    assert NodeOk(cfg, g, n, s);
    forall r | r in s.pending
      ensures PendingFits(cfg, n, s.minted, r, s.pending[r])
    {
      var p := s.pending[r];
      assert PendingOk(cfg, g, n, r, p) && ReqOk(cfg, g, r);
      forall i | 0 <= i < |p.queue|
        ensures Fits(p.queue[i], r, p)
      {
        assert Queued(g, p.queue[i], r, p);
      }
    }
    forall ref
      ensures InDom(cfg.l, DocOf(s, ref))
    {
      ViewInDom(cfg, g, n, ref);
    }
  }

  /** The documents outside todo have been merged, those in it not yet. */
  ghost predicate GossipPart<V>(cfg: Config<V>, s: NodeState<V>, snap: map<Ref, Doc<V>>, todo: set<Ref>,
    docs: map<Ref, Doc<V>>)
  {
    (forall r :: r in docs <==> r in s.docs || (r !in todo && Gossiped(cfg, snap, r)))
    && forall r :: r in docs ==>
      docs[r] == if r !in todo && Gossiped(cfg, snap, r) then Join(cfg.l, DocOf(s, r), snap[r]) else s.docs[r]
  }

  lemma GossipNext<V>(cfg: Config<V>, s: NodeState<V>, snap: map<Ref, Doc<V>>, todo: set<Ref>,
    docs: map<Ref, Doc<V>>, r: Ref)
    requires GossipPart(cfg, s, snap, todo, docs) && r in todo && r in snap
    ensures (if r in docs then docs[r] else map[]) == DocOf(s, r)
    ensures if Gossiped(cfg, snap, r) then GossipPart(cfg, s, snap, todo - {r}, docs[r := Join(cfg.l, DocOf(s, r), snap[r])])
            else GossipPart(cfg, s, snap, todo - {r}, docs)
  {
    hide Join;
  }

  lemma GossipWhole<V>(cfg: Config<V>, s: NodeState<V>, snap: map<Ref, Doc<V>>, docs: map<Ref, Doc<V>>)
    requires s.deployed && GossipPart(cfg, s, snap, {}, docs)
    ensures s.(docs := docs) == OnGossip(cfg, s, snap)
  {
    hide Join;
    assert docs == OnGossip(cfg, s, snap).docs;
  }

  // ----- collecting acks -----

  /** A gather that has ended or run out of queued acks: the node, whether the ratio was met, the count. */
  datatype Gathering<V(==)> = Gathering(state: NodeState<V>, ok: bool, count: nat)

  predicate AckQueue<V(==)>(s: NodeState<V>, r: ReqId) {
    r in s.pending && forall i :: 0 <= i < |s.pending[r].queue| ==> s.pending[r].queue[i].Ack?
  }

  /** What one dequeued ack does: a pull merges it and counts it only if it merges. */
  function Absorb<V(==)>(cfg: Config<V>, s: NodeState<V>, pull: bool, ref: Ref, ack: Msg<V>): NodeState<V>
    requires ack.Ack?
  {
    if pull && ack.snap.Wire? then MergeCollection(cfg, s, ref, ack.snap) else s
  }

  predicate Counts<V(==)>(pull: bool, ack: Msg<V>)
    requires ack.Ack?
  {
    pull ==> ack.snap.Wire?
  }

  /** Takes queued acks one by one, until one meets the ratio or the queue is empty when the timeout fires. */
  function Gather<V(==)>(cfg: Config<V>, s: NodeState<V>, r: ReqId, pull: bool, ref: Ref, ratio: real, count: nat)
    : Gathering<V>
    requires cfg.nodes != {} && AckQueue(s, r)
    decreases |s.pending[r].queue|
  {
    if s.pending[r].queue == [] then Gathering(s, false, count)
    else
      var ack := s.pending[r].queue[0];
      var next := Absorb(cfg, Taken(s, r), pull, ref, ack);
      if !Counts(pull, ack) then Gather(cfg, next, r, pull, ref, ratio, count)
      else if Reached(cfg, count + 1, ratio) then Gathering(next, true, count + 1)
      else Gather(cfg, next, r, pull, ref, ratio, count + 1)
  }

  /** How many of the acks count. */
  function Counting<V(==)>(acks: seq<Msg<V>>, pull: bool): (n: nat)
    requires forall i :: 0 <= i < |acks| ==> acks[i].Ack?
    ensures n <= |acks|
  {
    if acks == [] then 0 else (if Counts(pull, acks[0]) then 1 else 0) + Counting(acks[1..], pull)
  }

  /**
    What a gather has done: it used a prefix of the queue and counted those of it that count, each
    merged into a document that only grew; it succeeded exactly when the last one met the ratio,
    and no earlier count did.
   */
  lemma {:induction false} GatherMeans<V(!new)>(cfg: Config<V>, self: NodeId, s: NodeState<V>, r: ReqId, pull: bool, ref: Ref,
    ratio: real, count: nat) returns (used: nat)
    requires IsJoin(cfg.l) && NodeValid(cfg, self, s) && cfg.nodes != {} && AckQueue(s, r)
    requires forall i :: 0 <= i < |s.pending[r].queue| ==> WireInDom(cfg, s.pending[r].queue[i])
    ensures var q, a := s.pending[r].queue, Gather(cfg, s, r, pull, ref, ratio, count);
      used <= |q| && a.count == count + Counting(q[..used], pull) && NodeValid(cfg, self, a.state) && Grown(cfg, s, a.state)
      && r in a.state.pending && a.state.pending[r].queue == q[used..]
      && (a.ok ==> used > 0 && Counts(pull, q[used - 1]) && Reached(cfg, a.count, ratio))
      && (!a.ok ==> used == |q| && (a.count > count ==> !Reached(cfg, a.count, ratio)))
      && (forall i :: 0 <= i < used && pull && q[i].snap.Wire? ==> DocLeq(cfg.l, q[i].snap.doc, DocOf(a.state, ref)))
    decreases |s.pending[r].queue|
  {
    hide IsJoin, DocLeq, MergeCollection, Reached, NodeValid, Grown, WireInDom, Taken;
    var q := s.pending[r].queue;
    used := 0;
    if q == [] {
      Unmoved(cfg, self, s);
    } else {
      var ack := q[0];
      TakenQueue(s, r);
      TakenValid(cfg, self, s, r);
      var next := Absorb(cfg, Taken(s, r), pull, ref, ack);
      AbsorbKeeps(cfg, self, Taken(s, r), pull, ref, ack);
      assert q[..1][1..] == [];
      var count' := if Counts(pull, ack) then count + 1 else count;
      if Counts(pull, ack) && Reached(cfg, count + 1, ratio) {
        used := 1;
        GrownThen(cfg, self, s, Taken(s, r), next);
      } else {
        var more := GatherMeans(cfg, self, next, r, pull, ref, ratio, count');
        var a := Gather(cfg, next, r, pull, ref, ratio, count');
        used := more + 1;
        assert q[..used][1..] == q[1..][..more];
        GrownThen(cfg, self, s, Taken(s, r), next);
        GrownThen(cfg, self, s, next, a.state);
        if pull && ack.snap.Wire? {
          DecodedInDom(cfg, ack);
          StaysBelow(cfg, self, next, a.state, ref, ack.snap.doc);
        }
        forall i | 0 <= i < used && pull && q[i].snap.Wire?
          ensures DocLeq(cfg.l, q[i].snap.doc, DocOf(a.state, ref))
        {
          assert i > 0 ==> q[i] == q[1..][i - 1];
        }
      }
    }
  }

  lemma Unmoved<V(!new)>(cfg: Config<V>, self: NodeId, s: NodeState<V>)
    requires IsJoin(cfg.l) && NodeValid(cfg, self, s)
    ensures Grown(cfg, s, s)
  {
    SameGrown(cfg, self, s, s);
  }

  lemma TakenQueue<V>(s: NodeState<V>, r: ReqId)
    requires r in s.pending && s.pending[r].queue != []
    ensures r in Taken(s, r).pending && Taken(s, r).pending[r].queue == s.pending[r].queue[1..]
  {
  }

  lemma TakenValid<V(!new)>(cfg: Config<V>, self: NodeId, s: NodeState<V>, r: ReqId)
    requires IsJoin(cfg.l) && NodeValid(cfg, self, s) && r in s.pending && s.pending[r].queue != []
    ensures NodeValid(cfg, self, Taken(s, r)) && Grown(cfg, s, Taken(s, r))
  {
    hide IsJoin, DocLeq, InDom;
    var p, p' := s.pending[r], Taken(s, r).pending[r];
    assert PendingFits(cfg, self, s.minted, r, p);
    forall i | 0 <= i < |p'.queue|
      ensures Fits(p'.queue[i], r, p')
    {
      assert Fits(p.queue[i + 1], r, p);
    }
    SameGrown(cfg, self, s, Taken(s, r));
  }

  lemma AbsorbKeeps<V(!new)>(cfg: Config<V>, self: NodeId, s: NodeState<V>, pull: bool, ref: Ref, ack: Msg<V>)
    requires IsJoin(cfg.l) && NodeValid(cfg, self, s) && ack.Ack? && WireInDom(cfg, ack)
    ensures var s' := Absorb(cfg, s, pull, ref, ack);
      NodeValid(cfg, self, s') && Grown(cfg, s, s') && s'.pending == s.pending && s'.ops == s.ops && s'.minted == s.minted
      && (pull && ack.snap.Wire? ==> DocLeq(cfg.l, ack.snap.doc, DocOf(s', ref)))
  {
    hide IsJoin, DocLeq, MergeCollection;
    SameGrown(cfg, self, s, s);
    if pull && ack.snap.Wire? {
      MergeKeeps(cfg, self, s, ref, ack.snap);
      MergeFrame(cfg, s, ref, ack.snap);
    }
  }

  lemma GrownThen<V(!new)>(cfg: Config<V>, self: NodeId, a: NodeState<V>, b: NodeState<V>, c: NodeState<V>)
    requires IsJoin(cfg.l) && Grown(cfg, a, b) && Grown(cfg, b, c)
    requires NodeValid(cfg, self, a) && NodeValid(cfg, self, b) && NodeValid(cfg, self, c)
    ensures Grown(cfg, a, c)
  {
    hide IsJoin, DocLeq, InDom;
    forall ref
      ensures DocLeq(cfg.l, DocOf(a, ref), DocOf(c, ref))
    {
      DocLeqTransitive(cfg.l, DocOf(a, ref), DocOf(b, ref), DocOf(c, ref));
    }
  }

  lemma StaysBelow<V(!new)>(cfg: Config<V>, self: NodeId, a: NodeState<V>, b: NodeState<V>, ref: Ref, d: Doc<V>)
    requires IsJoin(cfg.l) && NodeValid(cfg, self, a) && NodeValid(cfg, self, b) && Grown(cfg, a, b) && InDom(cfg.l, d)
    requires DocLeq(cfg.l, d, DocOf(a, ref))
    ensures DocLeq(cfg.l, d, DocOf(b, ref))
  {
    hide IsJoin, DocLeq;
    DocLeqTransitive(cfg.l, d, DocOf(a, ref), DocOf(b, ref));
  }

  // ----- a gather is a run of the protocol -----

  /** Acks the operation could still collect. */
  ghost function AcksLeft<V(!new)>(g: Global<V>, n: NodeId, id: nat): nat {
    if Running(g, n, id) && Waiting(g.nodes[n].ops[id]) && Awaited(g.nodes[n].ops[id]) in g.nodes[n].pending
    then |g.nodes[n].pending[Awaited(g.nodes[n].ops[id])].queue| else 0
  }

  /** What one collect step makes of the node, in terms of what the gather does. */
  lemma CollectOne<V(!new)>(cfg: Config<V>, g: Global<V>, n: NodeId, id: nat)
    requires cfg.nodes != {} && Enabled(cfg, g, Collect(n, id)) && AckQueue(g.nodes[n], Awaited(g.nodes[n].ops[id]))
    ensures var s, op, g' := g.nodes[n], g.nodes[n].ops[id], AfterCollect(cfg, g, n, id);
      var r, ack, pull := Awaited(op), Head(g, n, id), op.phase.Pulling?;
      var next := Absorb(cfg, Taken(s, r), pull, op.ref, ack);
      Running(g', n, id)
      && var q := g'.nodes[n].ops[id].phase;
        if !Counts(pull, ack) then g'.nodes[n] == next
        else if Reached(cfg, op.phase.count + 1, op.ratio) then
          g'.nodes[n] == SetPhase(Dropped(next, r), id, q)
          && (if pull then q == NeedPush else q.Pushed? && q.snap == op.phase.snap)
        else
          g'.nodes[n] == SetPhase(next, id, q) && Onward(op.phase, q) && q.count == op.phase.count + 1
  {
    hide Reached, MergeCollection;
    var s, op := g.nodes[n], g.nodes[n].ops[id];
    if op.phase.Pulling? {
      PullOne(cfg, g, n, id);
    } else {
      PushOne(cfg, g, n, id);
    }
  }

  lemma PullOne<V(!new)>(cfg: Config<V>, g: Global<V>, n: NodeId, id: nat)
    requires cfg.nodes != {} && Enabled(cfg, g, Collect(n, id)) && g.nodes[n].ops[id].phase.Pulling? && Head(g, n, id).Ack?
    ensures var s, op, g' := g.nodes[n], g.nodes[n].ops[id], AfterCollect(cfg, g, n, id);
      var r, ack := Awaited(op), Head(g, n, id);
      var next := Absorb(cfg, Taken(s, r), true, op.ref, ack);
      Running(g', n, id)
      && var q := g'.nodes[n].ops[id].phase;
        if ack.snap.Garbled? then g'.nodes[n] == next
        else if Reached(cfg, op.phase.count + 1, op.ratio) then
          g'.nodes[n] == SetPhase(Dropped(next, r), id, NeedPush) && q == NeedPush
        else g'.nodes[n] == SetPhase(next, id, q) && q.Pulling? && q.req == r && q.count == op.phase.count + 1
  {
    hide Reached, MergeCollection;
    var s, op, ack := g.nodes[n], g.nodes[n].ops[id], Head(g, n, id);
    if ack.snap.Wire? {
      DropLater(cfg, s, Awaited(op), op.ref, ack.snap);
      MergeFrame(cfg, Taken(s, Awaited(op)), op.ref, ack.snap);
    }
  }

  lemma PushOne<V(!new)>(cfg: Config<V>, g: Global<V>, n: NodeId, id: nat)
    requires cfg.nodes != {} && Enabled(cfg, g, Collect(n, id)) && g.nodes[n].ops[id].phase.Pushing? && Head(g, n, id).Ack?
    ensures var s, op, g' := g.nodes[n], g.nodes[n].ops[id], AfterCollect(cfg, g, n, id);
      var r, next := Awaited(op), Taken(s, Awaited(op));
      Running(g', n, id)
      && var q := g'.nodes[n].ops[id].phase;
        if Reached(cfg, op.phase.count + 1, op.ratio) then
          g'.nodes[n] == SetPhase(Dropped(next, r), id, q) && q.Pushed? && q.snap == op.phase.snap
        else g'.nodes[n] == SetPhase(next, id, q) && Onward(op.phase, q) && q.count == op.phase.count + 1
  {
    hide Reached;
    var s, r := g.nodes[n], Awaited(g.nodes[n].ops[id]);
    assert Taken(s, r).pending - {r} == s.pending - {r};
  }

  /** Still waiting for the same request, in the same phase. */
  predicate Onward<V(==)>(p: Phase<V>, q: Phase<V>) {
    match p
    case Pulling(r, _, _) => q.Pulling? && q.req == r
    case Pushing(r, snap, _, _) => q.Pushing? && q.req == r && q.snap == snap
    case _ => false
  }

  lemma DropLater<V(!new)>(cfg: Config<V>, s: NodeState<V>, r: ReqId, ref: Ref, snap: Wire<V>)
    requires r in s.pending && s.pending[r].queue != [] && snap.Wire?
    ensures MergeCollection(cfg, Dropped(s, r), ref, snap) == Dropped(MergeCollection(cfg, Taken(s, r), ref, snap), r)
  {
    hide Join;
    assert Taken(s, r).pending - {r} == s.pending - {r};
  }

  /** The protocol's collect steps of one operation, as long as there is an ack to collect. */
  ghost function CollectRun<V(!new)>(cfg: Config<V>, g: Global<V>, n: NodeId, id: nat): Global<V>
    requires cfg.nodes != {}
    decreases AcksLeft(g, n, id)
  {
    if Enabled(cfg, g, Collect(n, id)) && AckQueue(g.nodes[n], Awaited(g.nodes[n].ops[id])) then
      FewerLeft(cfg, g, n, id);
      CollectRun(cfg, AfterCollect(cfg, g, n, id), n, id)
    else g
  }

  lemma FewerLeft<V(!new)>(cfg: Config<V>, g: Global<V>, n: NodeId, id: nat)
    requires cfg.nodes != {} && Enabled(cfg, g, Collect(n, id)) && AckQueue(g.nodes[n], Awaited(g.nodes[n].ops[id]))
    ensures AcksLeft(AfterCollect(cfg, g, n, id), n, id) < AcksLeft(g, n, id)
  {
    hide Reached, MergeCollection, AfterCollect, Taken;
    CollectOne(cfg, g, n, id);
    var s, op, ack := g.nodes[n], g.nodes[n].ops[id], Head(g, n, id);
    TakenQueue(s, Awaited(op));
    TakenFrame(s, Awaited(op));
    if ack.snap.Wire? {
      MergeFrame(cfg, Taken(s, Awaited(op)), op.ref, ack.snap);
    }
  }

  /** A gather does not look at the node's operations. */
  lemma {:induction false} GatherBlind<V(!new)>(cfg: Config<V>, s: NodeState<V>, ops: map<nat, Op<V>>, r: ReqId, pull: bool,
    ref: Ref, ratio: real, count: nat)
    requires cfg.nodes != {} && AckQueue(s, r)
    ensures var a, b := Gather(cfg, s, r, pull, ref, ratio, count), Gather(cfg, s.(ops := ops), r, pull, ref, ratio, count);
      b == a.(state := a.state.(ops := ops)) && a.state.ops == s.ops
    decreases |s.pending[r].queue|
  {
    hide Reached, MergeCollection;
    if s.pending[r].queue != [] {
      var ack := s.pending[r].queue[0];
      var next := Absorb(cfg, Taken(s, r), pull, ref, ack);
      AbsorbBlind(cfg, Taken(s, r), ops, pull, ref, ack);
      assert Taken(s.(ops := ops), r) == Taken(s, r).(ops := ops);
      GatherBlind(cfg, next, ops, r, pull, ref, ratio, if Counts(pull, ack) then count + 1 else count);
    }
  }

  lemma AbsorbBlind<V(!new)>(cfg: Config<V>, s: NodeState<V>, ops: map<nat, Op<V>>, pull: bool, ref: Ref, ack: Msg<V>)
    requires ack.Ack?
    ensures Absorb(cfg, s.(ops := ops), pull, ref, ack) == Absorb(cfg, s, pull, ref, ack).(ops := ops)
    ensures Absorb(cfg, s, pull, ref, ack).ops == s.ops && Absorb(cfg, s, pull, ref, ack).pending == s.pending
  {
    hide Join;
  }

  /** What the protocol's run of collect steps has made of the node and the operation. */
  ghost predicate RunIs<V(!new)>(g: Global<V>, n: NodeId, id: nat, p: Phase<V>, r: ReqId, a: Gathering<V>) {
    Running(g, n, id)
    && var q := g.nodes[n].ops[id].phase;
      id in a.state.ops && g.nodes[n] == SetPhase(if a.ok then Dropped(a.state, r) else a.state, id, q)
      && (a.ok ==> if p.Pulling? then q == NeedPush else q.Pushed? && p.Pushing? && q.snap == p.snap)
      && (!a.ok ==> Onward(p, q) && q.count == a.count)
  }

  /**
    Collecting the queued acks of a request is the run of the operation's collect steps: the same
    documents, the same request taken off or left, the same verdict and the same count.
   */
  lemma {:induction false} GatherIsRun<V(!new)>(cfg: Config<V>, g: Global<V>, n: NodeId, id: nat)
    requires cfg.nodes != {} && Running(g, n, id) && Waiting(g.nodes[n].ops[id])
    requires AckQueue(g.nodes[n], Awaited(g.nodes[n].ops[id]))
    ensures var op := g.nodes[n].ops[id]; var r := Awaited(op);
      RunIs(CollectRun(cfg, g, n, id), n, id, op.phase, r,
        Gather(cfg, g.nodes[n], r, op.phase.Pulling?, op.ref, op.ratio, op.phase.count))
    decreases AcksLeft(g, n, id)
  {
    hide Reached, MergeCollection, AfterCollect, Taken, Dropped, SetPhase;
    var s, op := g.nodes[n], g.nodes[n].ops[id];
    var r, pull := Awaited(op), op.phase.Pulling?;
    if s.pending[r].queue == [] {
      SamePhase(s, id);
    } else {
      var ack, g1 := Head(g, n, id), AfterCollect(cfg, g, n, id);
      var next := Absorb(cfg, Taken(s, r), pull, op.ref, ack);
      TakenFrame(s, r);
      TakenQueue(s, r);
      AbsorbBlind(cfg, Taken(s, r), s.ops, pull, op.ref, ack);
      CollectOne(cfg, g, n, id);
      FewerLeft(cfg, g, n, id);
      var p1 := g1.nodes[n].ops[id].phase;
      if Counts(pull, ack) && Reached(cfg, op.phase.count + 1, op.ratio) {
        RunEnds(cfg, g1, n, id, next, r, p1);
      } else {
        var count := if Counts(pull, ack) then op.phase.count + 1 else op.phase.count;
        if Counts(pull, ack) {
          PhaseFrame(next, id, p1);
        }
        GatherIsRun(cfg, g1, n, id);
        var ops1 := g1.nodes[n].ops;
        assert g1.nodes[n] == next.(ops := ops1) by { PhaseOnly(next, id, p1); }
        GatherBlind(cfg, next, ops1, r, pull, op.ref, op.ratio, count);
        var a := Gather(cfg, next, r, pull, op.ref, op.ratio, count);
        var b := Gather(cfg, g1.nodes[n], r, pull, op.ref, op.ratio, count);
        RunSame(CollectRun(cfg, g1, n, id), n, id, op.phase, p1, r, a, b, ops1, op);
      }
    }
  }

  lemma SamePhase<V>(s: NodeState<V>, id: nat)
    requires id in s.ops
    ensures SetPhase(s, id, s.ops[id].phase) == s
  {
    assert s.ops[id := s.ops[id]] == s.ops;
  }

  lemma PhaseOnly<V>(s: NodeState<V>, id: nat, phase: Phase<V>)
    requires id in s.ops
    ensures SetPhase(s, id, phase) == s.(ops := s.ops[id := s.ops[id].(phase := phase)])
    ensures s == s.(ops := s.ops)
  {
  }

  lemma RunEnds<V(!new)>(cfg: Config<V>, g: Global<V>, n: NodeId, id: nat, next: NodeState<V>, r: ReqId, p: Phase<V>)
    requires cfg.nodes != {} && id in next.ops && Running(g, n, id) && g.nodes[n].ops[id].phase == p
    requires p.NeedPush? || p.Pushed?
    ensures CollectRun(cfg, g, n, id) == g
  {
  }

  /** The same run, told from one step earlier. */
  lemma RunSame<V(!new)>(g: Global<V>, n: NodeId, id: nat, p: Phase<V>, p1: Phase<V>, r: ReqId, a: Gathering<V>,
    b: Gathering<V>, ops1: map<nat, Op<V>>, op: Op<V>)
    requires RunIs(g, n, id, p1, r, b) && b == a.(state := a.state.(ops := ops1)) && (p1 == p || Onward(p, p1))
    requires id in a.state.ops && a.state.ops[id] == op && ops1 == a.state.ops[id := op.(phase := p1)]
    ensures RunIs(g, n, id, p, r, a)
  {
    var q := g.nodes[n].ops[id].phase;
    assert ops1[id := ops1[id].(phase := q)] == a.state.ops[id := op.(phase := q)];
  }

  // ----- the class -----

  class Node<V(==,!new)> {
    const self: NodeId
    const cfg: Config<V>
    var deployed: bool
    var docs: map<Ref, Doc<V>>
    var minted: nat
    var pending: map<ReqId, Pending<V>>
    /** The operations whose goroutines run at this node. */
    ghost var ops: map<nat, Op<V>>

    constructor (self: NodeId, cfg: Config<V>)
      requires IsJoin(cfg.l)
      ensures this.self == self && this.cfg == cfg && Now() == NewNode() && Valid()
    {
      this.self, this.cfg := self, cfg;
      deployed, docs, minted, pending, ops := false, map[], 0, map[], map[];
    }

    /** The node's state in the protocol. */
    ghost function Now(): NodeState<V>
      reads this
    {
      NodeState(deployed, docs, minted, pending, ops)
    }

    ghost predicate Valid()
      reads this
    {
      IsJoin(cfg.l) && NodeValid(cfg, self, Now())
    }

    /** Deploys the plan; a second deployment changes nothing. */
    method Initialize()
      requires Valid()
      modifies this
      ensures Valid() && Now() == old(Now()).(deployed := true)
    {
      hide IsJoin, InDom, PendingFits;
      SameGrown(cfg, self, Now(), Now().(deployed := true));
      if deployed {
        return;
      }
      deployed := true;
    }

    /** Merges a wire snapshot into a document; it fails, changing nothing, if the snapshot does not decode. */
    method MergeIntoCollection(ref: Ref, snap: Wire<V>) returns (ok: bool)
      requires Valid() && (snap.Wire? ==> InDom(cfg.l, snap.doc))
      modifies this
      ensures Valid() && ok == snap.Wire?
      ensures Now() == if snap.Wire? then MergeCollection(cfg, old(Now()), ref, snap) else old(Now())
      ensures Grown(cfg, old(Now()), Now()) && (ok ==> DocLeq(cfg.l, snap.doc, DocOf(Now(), ref)))
      ensures ok && Behind(cfg.l, self, snap.doc, DocOf(old(Now()), ref)) ==> OwnKept(self, old(Now()), Now())
    {
      hide IsJoin, NodeValid, Grown, DocLeq, OwnKept, Behind, InDom, Join;
      SameGrown(cfg, self, Now(), Now());
      if snap.Garbled? {
        return false;
      }
      MergeKeeps(cfg, self, Now(), ref, snap);
      if ref in docs {
        docs := docs[ref := Join(cfg.l, docs[ref], snap.doc)];
        return true;
      }
      if snap.doc == map[] {
        return true;
      }
      var temp := Join(cfg.l, map[], snap.doc);
      docs := docs[ref := temp];
      ok := true;
    }

    method SnapshotCollection(ref: Ref) returns (snap: Doc<V>)
      ensures snap == DocOf(Now(), ref)
    {
      snap := if ref in docs then docs[ref] else map[];
    }

    /** Merges the coordinator's snapshot and acks, or drops the request silently. An ack is sent only with the snapshot held. */
    method HandleSyncPush(m: Msg<V>) returns (acks: set<Msg<V>>)
      requires Valid() && m.Push? && WireInDom(cfg, m)
      modifies this
      ensures Valid() && Now() == OnPush(cfg, old(Now()), m) && acks == PushReply(cfg, old(Now()), self, m)
      ensures Grown(cfg, old(Now()), Now())
      ensures acks != {} ==> m.snap.Wire? && DocLeq(cfg.l, m.snap.doc, DocOf(Now(), m.ref))
      ensures m.snap.Wire? && Behind(cfg.l, self, m.snap.doc, DocOf(old(Now()), m.ref)) ==> OwnKept(self, old(Now()), Now())
    {
      hide IsJoin, NodeValid, Grown, DocLeq, OwnKept, Behind, InDom, Join, MergeCollection;
      SameGrown(cfg, self, Now(), Now());
      acks := {};
      if !(deployed && m.fp == cfg.fp) {
        return;
      }
      if !cfg.known(m.ref) {
        return;
      }
      var ok := MergeIntoCollection(m.ref, m.snap);
      if ok && m.from in Peers(cfg, self) {
        acks := {Ack(self, m.from, m.req, m.ref.document, Wire(map[]))};
      }
    }

    /** Answers with this node's snapshot. */
    method HandleSyncPull(m: Msg<V>) returns (acks: set<Msg<V>>)
      requires m.Pull?
      ensures acks == PullReply(cfg, Now(), self, m)
    {
      acks := {};
      if !(deployed && m.fp == cfg.fp) {
        return;
      }
      if !cfg.known(m.ref) {
        return;
      }
      var snap := SnapshotCollection(m.ref);
      if m.from in Peers(cfg, self) {
        acks := {Ack(self, m.from, m.req, m.ref.document, Wire(snap))};
      }
    }

    /** Routes an ack to the pending request it fits, once per peer; it always finds room. */
    method HandleSyncAck(m: Msg<V>)
      requires Valid() && m.Ack?
      modifies this
      ensures Valid() && Now() == OnAck(cfg, old(Now()), self, m) && docs == old(docs)
      ensures AckFits(cfg, old(Now()), self, m) ==> pending[m.req].queue == old(pending)[m.req].queue + [m]
      ensures forall r :: r in pending ==> |pending[r].queue| <= |Peers(cfg, self)|
    {
      hide IsJoin, NodeValid;
      AckKept(cfg, self, Now(), m);
      if m.req !in pending {
        return;
      }
      var p := pending[m.req];
      if m.from !in Peers(cfg, self) {
        return;
      }
      if m.from in p.seen {
        return;
      }
      if m.document != p.document {
        return;
      }
      var queue := p.queue;
      if |queue| < |Peers(cfg, self)| {
        queue := queue + [m];
      }
      pending := pending[m.req := Pending(p.document, p.seen + {m.from}, queue)];
    }

    /** Mints a request id that no request of this node, pending or over, has had, and registers it as pending. */
    method Register(ref: Ref) returns (r: ReqId)
      requires Valid()
      modifies this
      ensures Valid() && r.node == self && old(minted) < r.number == minted && r !in old(pending)
      ensures Now() == old(Now()).(minted := minted, pending := old(pending)[r := Pending(ref.document, {}, [])])
    {
      hide IsJoin, InDom;
      SameGrown(cfg, self, Now(), Now());
      ghost var start := Now();
      minted := minted + 1;
      r := ReqId(self, minted);
      forall q | q in pending
        ensures q.number <= start.minted
      {
        assert PendingFits(cfg, self, start.minted, q, start.pending[q]);
      }
      pending := pending[r := Pending(ref.document, {}, [])];
      forall q | q in pending
        ensures PendingFits(cfg, self, minted, q, pending[q])
      {
        assert q != r ==> PendingFits(cfg, self, start.minted, q, start.pending[q]);
      }
      assert forall ref :: DocOf(Now(), ref) == DocOf(start, ref);
    }

    /** Ends a request; acks still to come find nothing pending and are dropped. */
    method Cancel(r: ReqId)
      requires Valid()
      modifies this
      ensures Valid() && Now() == old(Now()).(pending := old(pending) - {r})
      ensures forall m: Msg<V> :: m.Ack? && m.req == r ==> !AckFits(cfg, Now(), self, m) && OnAck(cfg, Now(), self, m) == Now()
    {
      hide IsJoin, InDom, PendingFits;
      ghost var start := Now();
      pending := pending - {r};
      assert forall ref :: DocOf(Now(), ref) == DocOf(start, ref);
    }

    /** Merges every non-empty document of a gossip snapshot that the plan knows. */
    method MergeSnapshot(snap: map<Ref, Doc<V>>)
      requires Valid() && deployed && forall r :: r in snap ==> InDom(cfg.l, snap[r])
      modifies this
      ensures Valid() && Now() == OnGossip(cfg, old(Now()), snap) && Grown(cfg, old(Now()), Now())
      ensures forall r :: r in snap && cfg.known(r) ==> DocLeq(cfg.l, snap[r], DocOf(Now(), r))
      ensures (forall r :: r in snap ==> Behind(cfg.l, self, snap[r], DocOf(old(Now()), r))) ==> OwnKept(self, old(Now()), Now())
    {
      hide IsJoin, NodeValid, Grown, DocLeq, OwnKept, Behind, InDom, OnGossip;
      ghost var start := Now();
      GossipedKeeps(cfg, self, start, snap);
      var todo := snap.Keys;
      GossipFresh(cfg, start, snap);
      while todo != {}
        invariant todo <= snap.Keys && Now() == start.(docs := docs) && GossipPart(cfg, start, snap, todo, docs)
        decreases |todo|
      {
        hide GossipPart, Join;
        var ref :| ref in todo;
        GossipNext(cfg, start, snap, todo, docs, ref);
        todo := todo - {ref};
        if snap[ref] == map[] {
          continue;
        }
        if !cfg.known(ref) {
          continue;
        }
        docs := docs[ref := Join(cfg.l, if ref in docs then docs[ref] else map[], snap[ref])];
      }
      GossipWhole(cfg, start, snap, docs);
    }

    /** An update's new own slot: the document grows if the update is inflationary, and no other slot changes. */
    method WriteSlot(ref: Ref, h: V)
      requires Valid() && cfg.l.dom(h)
      modifies this
      ensures Valid() && Now() == old(Now()).(docs := old(docs)[ref := DocOf(old(Now()), ref)[self := h]])
      ensures (self in DocOf(old(Now()), ref) ==> Leq(cfg.l, DocOf(old(Now()), ref)[self], h)) ==> Grown(cfg, old(Now()), Now())
    {
      hide IsJoin, PendingFits, DocLeq, Leq;
      ghost var start := Now();
      var d := if ref in docs then docs[ref] else map[];
      docs := docs[ref := d[self := h]];
      forall r
        ensures DocOf(Now(), r) == if r == ref then DocOf(start, ref)[self := h] else DocOf(start, r)
      {
      }
      WriteKeeps(cfg, self, start, Now(), ref, h);
    }

    /**
      Takes the queued acks of a request one by one; the timeout fires when none is left. A pull
      counts only those whose snapshots it could merge.
     */
    method CollectAcks(r: ReqId, pull: bool, ref: Ref, ratio: real) returns (ok: bool, count: nat)
      requires Valid() && cfg.nodes != {} && AckQueue(Now(), r)
      requires forall i :: 0 <= i < |pending[r].queue| ==> WireInDom(cfg, pending[r].queue[i])
      modifies this
      ensures Valid() && Gathering(Now(), ok, count) == Gather(cfg, old(Now()), r, pull, ref, ratio, 0)
    {
      hide IsJoin, NodeValid, Grown, DocLeq, OwnKept, Behind, WireInDom, MergeCollection, Reached, InDom;
      ghost var start := Now();
      count := 0;
      while pending[r].queue != []
        invariant Valid() && AckQueue(Now(), r)
        invariant forall i :: 0 <= i < |pending[r].queue| ==> WireInDom(cfg, pending[r].queue[i])
        invariant Gather(cfg, start, r, pull, ref, ratio, 0) == Gather(cfg, Now(), r, pull, ref, ratio, count)
        decreases |pending[r].queue|
      {
        ghost var before := Now();
        TakenValid(cfg, self, before, r);
        TakenQueue(before, r);
        var p := pending[r];
        var ack := p.queue[0];
        pending := pending[r := p.(queue := p.queue[1..])];
        assert Now() == Taken(before, r);
        if pull {
          DecodedInDom(cfg, ack);
          if ack.snap.Wire? {
            MergeFrame(cfg, Now(), ref, ack.snap);
          }
          var merged := MergeIntoCollection(ref, ack.snap);
          if !merged {
            continue;
          }
        }
        count := count + 1;
        if Reached(cfg, count, ratio) {
          return true, count;
        }
      }
      ok := false;
    }
  }

  lemma DecodedInDom<V(!new)>(cfg: Config<V>, m: Msg<V>)
    requires m.Ack? && WireInDom(cfg, m)
    ensures m.snap.Wire? ==> InDom(cfg.l, m.snap.doc)
  {
  }

  lemma WriteKeeps<V(!new)>(cfg: Config<V>, self: NodeId, s: NodeState<V>, s': NodeState<V>, ref: Ref, h: V)
    requires IsJoin(cfg.l) && NodeValid(cfg, self, s) && cfg.l.dom(h)
    requires s'.pending == s.pending && s'.minted == s.minted
    requires forall r :: DocOf(s', r) == if r == ref then DocOf(s, ref)[self := h] else DocOf(s, r)
    ensures NodeValid(cfg, self, s')
    ensures (self in DocOf(s, ref) ==> Leq(cfg.l, DocOf(s, ref)[self], h)) ==> Grown(cfg, s, s')
  {
    hide IsJoin, PendingFits, DocLeq;
    if self in DocOf(s, ref) ==> Leq(cfg.l, DocOf(s, ref)[self], h) {
      forall r
        ensures DocLeq(cfg.l, DocOf(s, r), DocOf(s', r))
      {
        if r == ref {
          WriteGrows(cfg.l, DocOf(s, ref), self, h);
        } else {
          DocLeqReflexive(cfg.l, DocOf(s, r));
        }
      }
    }
  }

  lemma GossipFresh<V(!new)>(cfg: Config<V>, s: NodeState<V>, snap: map<Ref, Doc<V>>)
    ensures GossipPart(cfg, s, snap, snap.Keys, s.docs)
  {
  }
}
