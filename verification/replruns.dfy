/**
  What holds in every run of the cluster, however messages are lost, delayed, duplicated
  or reordered: slot ownership, honest quorums, reads that see earlier majority pushes,
  and convergence once updates stop.
 */
module ReplicationRuns {
  import opened Lattices
  import opened Replication
  import opened ReplicationSafety
  import opened ReplicationSteps

  /** A run of the cluster from its initial state. */
  ghost predicate Trace<V(!new)>(cfg: Config<V>, states: seq<Global<V>>, steps: seq<Step<V>>) {
    cfg.nodes != {} && |states| == |steps| + 1 && states[0] == Init(cfg)
    && forall i :: 0 <= i < |steps| ==>
      Enabled(cfg, states[i], steps[i]) && states[i + 1] == After(cfg, states[i], steps[i])
  }

  lemma {:induction false} TraceInv<V(!new)>(cfg: Config<V>, states: seq<Global<V>>, steps: seq<Step<V>>, i: nat)
    requires IsJoin(cfg.l) && Trace(cfg, states, steps) && i < |states|
    ensures Inv(cfg, states[i])
    decreases i
  {
    hide IsJoin, Inv, Init, Enabled, After;
    if i == 0 {
      InitInv(cfg);
    } else {
      TraceInv(cfg, states, steps, i - 1);
      StepKeeps(cfg, states[i - 1], steps[i - 1]);
    }
  }

  // ----- ownership -----

  /**
    Every copy of slot k is a value k's own slot actually held, and is below the value
    k's own slot holds now.
   */
  lemma Ownership<V(!new)>(cfg: Config<V>, states: seq<Global<V>>, steps: seq<Step<V>>, i: nat, n: NodeId, k: NodeId,
    ref: Ref)
    requires IsJoin(cfg.l) && Trace(cfg, states, steps) && i < |states| && n in cfg.nodes
    ensures n in states[i].nodes
    ensures k in View(states[i], n, ref) ==>
      var x := View(states[i], n, ref)[k];
      k in states[i].nodes && x in History(states[i], k, ref) && k in View(states[i], k, ref)
      && Leq(cfg.l, x, View(states[i], k, ref)[k])
  {
    hide IsJoin, Trace, MsgOk, CommitOk, ReqOk, ServedOk, NodeOk;
    TraceInv(cfg, states, steps, i);
    var g := states[i];
    if k in View(g, n, ref) {
      assert Genuine(cfg, g, ref, View(g, n, ref));
      assert HistoryOk(cfg, g, k, ref);
      var h := History(g, k, ref);
      var j :| 0 <= j < |h| && h[j] == View(g, n, ref)[k];
      assert Leq(cfg.l, h[j], h[|h| - 1]);
    }
  }

  /** The step writes k's own slot of the document. */
  predicate Writes<V(==)>(st: Step<V>, k: NodeId, ref: Ref) {
    (st.Update? && st.n == k && st.ref == ref) || (st.BeginWrite? && st.n == k && st.ref == ref)
  }

  lemma OnlyWritesRecord<V(!new)>(cfg: Config<V>, g: Global<V>, st: Step<V>, k: NodeId, ref: Ref)
    requires cfg.nodes != {} && Enabled(cfg, g, st) && !Writes(st, k, ref)
    ensures History(After(cfg, g, st), k, ref) == History(g, k, ref)
  {
    hide Reached, MergeCollection, OnGossip, OnAck, PushAccepted, Serves, UpdateOk, StrayOk, AckFits;
  }

  /** Merging, in any step that is not the owner's own update, never changes the owner's slot. */
  lemma OwnSlotIsOwn<V(!new)>(cfg: Config<V>, states: seq<Global<V>>, steps: seq<Step<V>>, i: nat, k: NodeId, ref: Ref)
    requires IsJoin(cfg.l) && Trace(cfg, states, steps) && i < |steps| && k in cfg.nodes && !Writes(steps[i], k, ref)
    ensures k in states[i].nodes && k in states[i + 1].nodes
    ensures var a, b := View(states[i], k, ref), View(states[i + 1], k, ref);
      (k in a <==> k in b) && (k in a ==> a[k] == b[k])
  {
    hide IsJoin, Enabled, After, MsgOk, CommitOk, ReqOk, ServedOk, NodeOk, Genuine;
    TraceInv(cfg, states, steps, i);
    TraceInv(cfg, states, steps, i + 1);
    OnlyWritesRecord(cfg, states[i], steps[i], k, ref);
    assert HistoryOk(cfg, states[i], k, ref) && HistoryOk(cfg, states[i + 1], k, ref);
  }

  // ----- quorums -----

  /**
    An honest quorum: a push that succeeded was held at that moment, and is held ever after,
    by enough distinct members, each of which merged this very request's snapshot.
   */
  lemma HonestQuorum<V(!new)>(cfg: Config<V>, states: seq<Global<V>>, steps: seq<Step<V>>, i: nat, n: NodeId, id: nat)
    requires IsJoin(cfg.l) && Trace(cfg, states, steps) && i < |states| && Running(states[i], n, id)
    requires states[i].nodes[n].ops[id].phase.Pushed?
    ensures var op := states[i].nodes[n].ops[id]; PushedOk(cfg, states[i], n, op, op.phase.reqs, op.phase.snap, op.phase.holders)
  {
    hide IsJoin, Trace, DocsOk, MsgOk, CommitOk, ReqOk, ServedOk, PushedOk;
    TraceInv(cfg, states, steps, i);
    assert NodeOk(cfg, states[i], n, states[i].nodes[n]);
  }

  /** While acks come in, the count is the number of distinct peers counted, and every fitting ack finds room. */
  lemma HonestCount<V(!new)>(cfg: Config<V>, states: seq<Global<V>>, steps: seq<Step<V>>, i: nat, n: NodeId, id: nat)
    requires IsJoin(cfg.l) && Trace(cfg, states, steps) && i < |states| && Running(states[i], n, id)
    requires Waiting(states[i].nodes[n].ops[id])
    ensures var p := states[i].nodes[n].ops[id].phase; p.count == |p.counted| && p.counted <= Peers(cfg, n)
    ensures forall m: Msg<V> :: m.Ack? && AckFits(cfg, states[i].nodes[n], n, m) ==>
      |states[i].nodes[n].pending[m.req].queue| < |Peers(cfg, n)|
  {
    hide IsJoin, Trace, DocsOk, MsgOk, CommitOk, ReqOk, ServedOk, Gathered, AllGathered, Holds;
    TraceInv(cfg, states, steps, i);
    var s := states[i].nodes[n];
    assert NodeOk(cfg, states[i], n, s) && OpOk(cfg, states[i], n, s, s.ops[id]);
    var r := Awaited(s.ops[id]);
    assert PendingOk(cfg, states[i], n, r, s.pending[r]);
    forall m: Msg<V> | m.Ack? && AckFits(cfg, s, n, m)
      ensures |s.pending[m.req].queue| < |Peers(cfg, n)|
    {
      NeverDropped(cfg, states[i], n, m);
    }
  }

  // ----- reads -----

  lemma StepCommits<V(!new)>(cfg: Config<V>, g: Global<V>, st: Step<V>)
    requires cfg.nodes != {} && Enabled(cfg, g, st)
    ensures g.commits <= After(cfg, g, st).commits
  {
    hide Reached, MergeCollection, OnGossip, OnAck, PushAccepted, Serves, UpdateOk, StrayOk, AckFits;
  }

  lemma {:induction false} CommitsGrow<V(!new)>(cfg: Config<V>, states: seq<Global<V>>, steps: seq<Step<V>>, i: nat, j: nat)
    requires Trace(cfg, states, steps) && i <= j < |states|
    ensures states[i].commits <= states[j].commits
    decreases j
  {
    hide After, Enabled, Init;
    if i < j {
      CommitsGrow(cfg, states, steps, i, j - 1);
      StepCommits(cfg, states[j - 1], steps[j - 1]);
    }
  }

  /** The operation is still there, with everything but its phase unchanged. */
  ghost predicate Kept<V(!new)>(s: NodeState<V>, s': NodeState<V>, id: nat)
    requires id in s.ops
  {
    id in s'.ops && s'.ops[id] == s.ops[id].(phase := s'.ops[id].phase)
  }

  ghost predicate OpsKept<V(!new)>(g: Global<V>, g': Global<V>) {
    forall n, id :: Running(g, n, id) ==> n in g'.nodes && Kept(g.nodes[n], g'.nodes[n], id)
  }

  lemma PutKept<V(!new)>(g: Global<V>, g': Global<V>, n: NodeId, s: NodeState<V>)
    requires n in g.nodes && g'.nodes == g.nodes[n := s] && forall id :: id in g.nodes[n].ops ==> Kept(g.nodes[n], s, id)
    ensures OpsKept(g, g')
  {
  }

  lemma SameOpsKept<V(!new)>(s: NodeState<V>, s': NodeState<V>)
    requires s'.ops == s.ops
    ensures forall id :: id in s.ops ==> Kept(s, s', id)
  {
  }

  lemma PhaseKept<V(!new)>(s: NodeState<V>, t: NodeState<V>, id: nat, phase: Phase<V>)
    requires id in s.ops && t.ops == s.ops
    ensures forall j :: j in s.ops ==> Kept(s, SetPhase(t, id, phase), j)
  {
  }

  lemma CollectOps<V(!new)>(cfg: Config<V>, g: Global<V>, n: NodeId, id: nat)
    requires cfg.nodes != {} && Enabled(cfg, g, Collect(n, id))
    ensures OpsKept(g, AfterCollect(cfg, g, n, id))
  {
    hide Reached, MergeCollection, SetPhase, OpsKept, Kept;
    var s := g.nodes[n];
    var op, r := s.ops[id], Awaited(s.ops[id]);
    var p := s.pending[r];
    var m := p.queue[0];
    var taken := s.(pending := s.pending[r := p.(queue := p.queue[1..])]);
    var done := s.(pending := s.pending - {r});
    var g' := AfterCollect(cfg, g, n, id);
    SameOpsKept(s, taken);
    if op.phase.Pulling? && m.snap.Wire? {
      var more, enough := Pulling(r, op.phase.count + 1, op.phase.counted + {m.from}), NeedPush;
      MergeFrame(cfg, taken, op.ref, m.snap);
      MergeFrame(cfg, done, op.ref, m.snap);
      PhaseKept(s, MergeCollection(cfg, taken, op.ref, m.snap), id, more);
      PhaseKept(s, MergeCollection(cfg, done, op.ref, m.snap), id, enough);
      PutKept(g, g', n, g'.nodes[n]);
    } else if op.phase.Pushing? {
      PhaseKept(s, taken, id, Pushing(r, op.phase.snap, op.phase.count + 1, op.phase.counted + {m.from}));
      PhaseKept(s, done, id, Pushed({r}, op.phase.snap, op.phase.counted + {m.from, n}));
      FinishNodes(g, n, id, r, op.phase.snap, op.phase.counted + {m.from, n});
      PutKept(g, g', n, g'.nodes[n]);
    } else {
      PutKept(g, g', n, taken);
    }
  }

  lemma FinishNodes<V(!new)>(g: Global<V>, n: NodeId, id: nat, r: ReqId, snap: Doc<V>, holders: set<NodeId>)
    requires Running(g, n, id)
    ensures var done := g.nodes[n].(pending := g.nodes[n].pending - {r});
      Finish(Put(g, n, done), n, id, {r}, snap, holders).nodes
      == g.nodes[n := SetPhase(done, id, Pushed({r}, snap, holders))]
  {
    hide SetPhase;
  }

  lemma DeliverOps<V(!new)>(cfg: Config<V>, g: Global<V>, n: NodeId, m: Msg<V>)
    requires n in g.nodes
    ensures OpsKept(g, AfterDeliver(cfg, g, n, m))
  {
    hide MergeCollection, Serves, AckFits, OpsKept, Kept;
    var s, g' := g.nodes[n], AfterDeliver(cfg, g, n, m);
    if m.Push? && m.snap.Wire? {
      MergeFrame(cfg, s, m.ref, m.snap);
    }
    SameOpsKept(s, g'.nodes[n]);
    assert g'.nodes == g.nodes[n := g'.nodes[n]];
    PutKept(g, g', n, g'.nodes[n]);
  }

  lemma LaunchOps<V(!new)>(cfg: Config<V>, g: Global<V>, n: NodeId, id: nat, req: Req<V>)
    requires Running(g, n, id)
    ensures OpsKept(g, Launch(cfg, g, n, id, req))
  {
    hide OpsKept;
    var g' := Launch(cfg, g, n, id, req);
    PutKept(g, g', n, g'.nodes[n]);
  }

  lemma FinishOps<V(!new)>(g: Global<V>, n: NodeId, id: nat, snap: Doc<V>, holders: set<NodeId>)
    requires Running(g, n, id)
    ensures OpsKept(g, Finish(g, n, id, {}, snap, holders))
  {
    hide OpsKept;
    var g' := Finish(g, n, id, {}, snap, holders);
    PutKept(g, g', n, g'.nodes[n]);
  }

  /** No step removes an operation or changes anything of it but its phase. */
  lemma StepOps<V(!new)>(cfg: Config<V>, g: Global<V>, st: Step<V>)
    requires cfg.nodes != {} && Enabled(cfg, g, st)
    ensures OpsKept(g, After(cfg, g, st))
  {
    hide Reached, AfterCollect, AfterDeliver, StrayOk, Launch, Finish, OpsKept, Leq;
    var g' := After(cfg, g, st);
    match st
    case Collect(n, id) => CollectOps(cfg, g, n, id);
    case Deliver(n, m) => DeliverOps(cfg, g, n, m);
    case BeginPull(n, id) =>
      var op := g.nodes[n].ops[id];
      LaunchOps(cfg, g, n, id, PullReq(op.ref, op.must));
      PhaseKept(g.nodes[n], g.nodes[n], id, NeedPush);
      PutKept(g, Put(g, n, SetPhase(g.nodes[n], id, NeedPush)), n, SetPhase(g.nodes[n], id, NeedPush));
    case BeginPush(n, id) =>
      var op := g.nodes[n].ops[id];
      LaunchOps(cfg, g, n, id, PushReq(op.ref, View(g, n, op.ref)));
      FinishOps(g, n, id, View(g, n, op.ref), {n});
    case Stray(_) => SameNodesKept(g, g');
    case Corrupt(_) => SameNodesKept(g, g');
    case SendGossip(_, _) => SameNodesKept(g, g');
    case _ => assert g'.nodes == g.nodes[st.n := g'.nodes[st.n]]; PutKept(g, g', st.n, g'.nodes[st.n]);
  }

  lemma SameNodesKept<V(!new)>(g: Global<V>, g': Global<V>)
    requires g'.nodes == g.nodes
    ensures OpsKept(g, g')
  {
  }

  lemma {:induction false} OpKept<V(!new)>(cfg: Config<V>, states: seq<Global<V>>, steps: seq<Step<V>>, i: nat, j: nat,
    n: NodeId, id: nat)
    requires Trace(cfg, states, steps) && i <= j < |states| && Running(states[i], n, id)
    ensures Running(states[j], n, id)
    ensures var op, op' := states[i].nodes[n].ops[id], states[j].nodes[n].ops[id];
      op'.ref == op.ref && op'.ratio == op.ratio && op'.read == op.read && op'.must == op.must
    decreases j
  {
    hide After, Enabled, Init;
    if i < j {
      OpKept(cfg, states, steps, i, j - 1, n, id);
      StepOps(cfg, states[j - 1], steps[j - 1]);
      assert Kept(states[j - 1].nodes[n], states[j].nodes[n], id);
    }
  }

  /**
    A read sees earlier pushes: once a push asked for a majority and succeeded, be it an
    update's or the write-back of an earlier read, every read at a majority ratio begun
    later, at whichever node, answers from a state that holds what was pushed.
   */
  lemma ReadSeesPush<V(!new)>(cfg: Config<V>, states: seq<Global<V>>, steps: seq<Step<V>>, i: nat, k: nat, j: nat,
    w: NodeId, wid: nat, r: NodeId, rid: nat, ref: Ref, ratio: real)
    requires IsJoin(cfg.l) && Trace(cfg, states, steps) && i <= k < j < |states|
    requires Running(states[i], w, wid)
    requires var op := states[i].nodes[w].ops[wid]; op.phase.Pushed? && op.ref == ref && op.ratio >= 0.5
    requires steps[k] == BeginRead(r, rid, ref, ratio) && ratio >= 0.5
    requires Running(states[j], r, rid) && states[j].nodes[r].ops[rid].phase.Answered?
    ensures DocLeq(cfg.l, states[i].nodes[w].ops[wid].phase.snap, states[j].nodes[r].ops[rid].phase.view)
  {
    hide IsJoin, Inv, After, Enabled, Init, DocLeq;
    var op := states[i].nodes[w].ops[wid];
    HonestQuorum(cfg, states, steps, i, w, wid);
    var c := Commit(ref, op.phase.snap, op.phase.holders);
    PushedCommitted(cfg, states[i], w, op);
    CommitsGrow(cfg, states, steps, i, k);
    ReadBegins(cfg, states[k], r, rid, ref, ratio);
    OpKept(cfg, states, steps, k + 1, j, r, rid);
    TraceInv(cfg, states, steps, j);
    AnsweredSees(cfg, states[j], r, rid, c);
  }

  lemma PushedCommitted<V(!new)>(cfg: Config<V>, g: Global<V>, n: NodeId, op: Op<V>)
    requires op.phase.Pushed? && PushedOk(cfg, g, n, op, op.phase.reqs, op.phase.snap, op.phase.holders) && op.ratio >= 0.5
    ensures Commit(op.ref, op.phase.snap, op.phase.holders) in g.commits
  {
  }

  lemma ReadBegins<V(!new)>(cfg: Config<V>, g: Global<V>, n: NodeId, id: nat, ref: Ref, ratio: real)
    requires cfg.nodes != {} && Enabled(cfg, g, BeginRead(n, id, ref, ratio))
    ensures var g' := After(cfg, g, BeginRead(n, id, ref, ratio));
      Running(g', n, id) && g'.nodes[n].ops[id] == Op(ref, ratio, true, CommitsOf(g, ref), NeedPull)
  {
  }

  lemma AnsweredSees<V(!new)>(cfg: Config<V>, g: Global<V>, n: NodeId, id: nat, c: Commit<V>)
    requires Inv(cfg, g) && Running(g, n, id) && g.nodes[n].ops[id].phase.Answered? && g.nodes[n].ops[id].ratio >= 0.5
    requires c in g.nodes[n].ops[id].must
    ensures DocLeq(cfg.l, c.snap, g.nodes[n].ops[id].phase.view)
  {
    hide DocsOk, MsgOk, CommitOk, ReqOk, ServedOk, DocLeq;
    assert NodeOk(cfg, g, n, g.nodes[n]) && OpOk(cfg, g, n, g.nodes[n], g.nodes[n].ops[id]);
  }

  // ----- convergence -----

  /** What the owners hold: each present own slot. */
  function Owners<V(==)>(cfg: Config<V>, g: Global<V>, ref: Ref): Doc<V>
    requires cfg.nodes <= g.nodes.Keys
  {
    map k | k in cfg.nodes && k in View(g, k, ref) :: View(g, k, ref)[k]
  }

  /** A replica is never ahead of the owners, and equals them exactly when it holds all they hold. */
  lemma Converged<V(!new)>(cfg: Config<V>, states: seq<Global<V>>, steps: seq<Step<V>>, i: nat, n: NodeId, ref: Ref)
    requires IsJoin(cfg.l) && Trace(cfg, states, steps) && i < |states| && n in cfg.nodes
    ensures states[i].nodes.Keys == cfg.nodes
    ensures var v, o := View(states[i], n, ref), Owners(cfg, states[i], ref);
      DocLeq(cfg.l, v, o) && (v == o <==> DocLeq(cfg.l, o, v))
  {
    hide IsJoin, Trace, Leq, MsgOk, CommitOk, ReqOk, ServedOk, NodeOk, HistoryOk, Genuine;
    TraceInv(cfg, states, steps, i);
    var g := states[i];
    var v, o := View(g, n, ref), Owners(cfg, g, ref);
    forall k | k in v
      ensures k in o && Leq(cfg.l, v[k], o[k])
    {
      Ownership(cfg, states, steps, i, n, k, ref);
    }
    ViewInDom(cfg, g, n, ref);
    forall k | k in o
      ensures cfg.l.dom(o[k])
    {
      ViewInDom(cfg, g, k, ref);
    }
    if v == o {
      DocLeqReflexive(cfg.l, v);
    }
    if DocLeq(cfg.l, o, v) {
      DocLeqAntisymmetric(cfg.l, v, o);
    }
  }

  lemma {:induction false} OwnersRest<V(!new)>(cfg: Config<V>, states: seq<Global<V>>, steps: seq<Step<V>>, i: nat, j: nat,
    ref: Ref)
    requires IsJoin(cfg.l) && Trace(cfg, states, steps) && i <= j < |states|
    requires forall t, k :: i <= t < j && k in cfg.nodes ==> !Writes(steps[t], k, ref)
    ensures states[i].nodes.Keys == states[j].nodes.Keys == cfg.nodes
    ensures Owners(cfg, states[j], ref) == Owners(cfg, states[i], ref)
    decreases j
  {
    hide IsJoin, Trace, Inv, Writes, View, Owners;
    TraceInv(cfg, states, steps, i);
    TraceInv(cfg, states, steps, j);
    InvNodes(cfg, states[i]);
    InvNodes(cfg, states[j]);
    if i < j {
      OwnersRest(cfg, states, steps, i, j - 1, ref);
      TraceLength(cfg, states, steps);
      forall k | k in cfg.nodes
        ensures var a, b := View(states[j - 1], k, ref), View(states[j], k, ref);
          (k in a <==> k in b) && (k in a ==> a[k] == b[k])
      {
        OwnSlotIsOwn(cfg, states, steps, j - 1, k, ref);
      }
      SameOwners(cfg, states[j - 1], states[j], ref);
    }
  }

  lemma SameOwners<V(!new)>(cfg: Config<V>, g: Global<V>, g': Global<V>, ref: Ref)
    requires g.nodes.Keys == g'.nodes.Keys == cfg.nodes
    requires forall k :: k in cfg.nodes ==>
      var a, b := View(g, k, ref), View(g', k, ref); (k in a <==> k in b) && (k in a ==> a[k] == b[k])
    ensures Owners(cfg, g, ref) == Owners(cfg, g', ref)
  {
    hide View;
  }

  lemma TraceLength<V(!new)>(cfg: Config<V>, states: seq<Global<V>>, steps: seq<Step<V>>)
    requires Trace(cfg, states, steps)
    ensures |states| == |steps| + 1
  {
  }

  /**
    Convergence: when no update of a document happens from i to j, and what each owner held
    at i has reached every node by j, on whatever path, all replicas at j are equal, and
    equal to what the owners hold.
   */
  lemma Convergence<V(!new)>(cfg: Config<V>, states: seq<Global<V>>, steps: seq<Step<V>>, i: nat, j: nat, ref: Ref)
    requires IsJoin(cfg.l) && Trace(cfg, states, steps) && i <= j < |states|
    requires forall t, k :: i <= t < j && k in cfg.nodes ==> !Writes(steps[t], k, ref)
    requires states[i].nodes.Keys == states[j].nodes.Keys == cfg.nodes
    requires forall n :: n in cfg.nodes ==> DocLeq(cfg.l, Owners(cfg, states[i], ref), View(states[j], n, ref))
    ensures forall n :: n in cfg.nodes ==> View(states[j], n, ref) == Owners(cfg, states[i], ref)
  {
    hide IsJoin, Trace, DocLeq, Owners, Writes;
    OwnersRest(cfg, states, steps, i, j, ref);
    forall n | n in cfg.nodes
      ensures View(states[j], n, ref) == Owners(cfg, states[i], ref)
    {
      Converged(cfg, states, steps, j, n, ref);
    }
  }

  /** Delivering a node's gossip, or any copy of it, brings the receiver above all of it. */
  lemma GossipReaches<V(!new)>(cfg: Config<V>, states: seq<Global<V>>, steps: seq<Step<V>>, i: nat, n: NodeId, m: Msg<V>,
    ref: Ref)
    requires IsJoin(cfg.l) && Trace(cfg, states, steps) && i < |steps| && steps[i] == Deliver(n, m) && m.Gossip?
    requires ref in m.docs && cfg.known(ref) && n in states[i].nodes && states[i].nodes[n].deployed
    ensures n in states[i + 1].nodes && DocLeq(cfg.l, m.docs[ref], View(states[i + 1], n, ref))
  {
    hide IsJoin, MsgOk, CommitOk, ReqOk, ServedOk, NodeOk, DocLeq, Genuine, DocsOk;
    TraceInv(cfg, states, steps, i);
    assert MsgOk(cfg, states[i], m);
    GossipGenuine(cfg, states[i], m, ref);
    MergeGenuine(cfg, states[i], n, ref, m.docs[ref]);
    EmptyBelow(cfg.l, View(states[i + 1], n, ref));
  }

  lemma GossipGenuine<V(!new)>(cfg: Config<V>, g: Global<V>, m: Msg<V>, ref: Ref)
    requires m.Gossip? && MsgOk(cfg, g, m) && ref in m.docs
    ensures Genuine(cfg, g, ref, m.docs[ref])
  {
  }

  lemma EmptyBelow<V(!new)>(l: Lattice<V>, d: Doc<V>)
    ensures DocLeq(l, map[], d)
  {
  }
}
