/**
  Concurrent first touches of one document at one node. Updates, gossip merges and sync
  merges race on a document that does not exist yet; each step is one lock region. CRDT
  objects have identities, so that replacing a published object would be visible.
 */
module FirstTouch {
  import opened Options
  import opened Lattices

  /** What an operation does to a document: merge a snapshot, or run an update that may fail. */
  datatype Effect<!V> =
    | Merge(snap: Doc<V>)
    | Update(f: Doc<V> -> Result<V>)

  datatype Result<V> = Success(doc: Doc<V>) | Failure

  /** Object identities are positions in the heap. */
  type Object = nat

  /**
    Where a thread stands: before its first look, holding the published object, about to
    take the lock, holding an unpublished object, holding it after losing the race, done.
   */
  datatype Pc =
    | Look
    | Found(c: Object)
    | Locking
    | Built(temp: Object)
    | Lost(winner: Object, temp: Object)
    | Done

  datatype Thread<!V> = Thread(effect: Effect<V>, pc: Pc)

  /** Heap, the published object, the threads, and the completed effects in order, by thread. */
  datatype World<!V> = World(
    heap: seq<Doc<V>>, slot: Option<Object>, threads: map<nat, Thread<V>>, log: seq<nat>)

  function Perform<V>(l: Lattice<V>, d: Doc<V>, e: Effect<V>): Result<V> {
    match e
    case Merge(snap) => Success(Join(l, d, snap))
    case Update(f) => f(d)
  }

  /** The document an effect leaves: a failing update changes nothing. */
  function Settle<V>(l: Lattice<V>, d: Doc<V>, e: Effect<V>): Doc<V> {
    match Perform(l, d, e)
    case Success(d') => d'
    case Failure => d
  }

  function SetPc<V>(w: World<V>, t: nat, pc: Pc): World<V>
    requires t in w.threads
  {
    w.(threads := w.threads[t := w.threads[t].(pc := pc)])
  }

  /** Performs t's effect on object c in place, and completes t. */
  function Finish<V>(l: Lattice<V>, w: World<V>, t: nat, c: Object): World<V>
    requires t in w.threads && c < |w.heap|
  {
    SetPc(w, t, Done).(heap := w.heap[c := Settle(l, w.heap[c], w.threads[t].effect)], log := w.log + [t])
  }

  /** One step of thread t. */
  function Step<V(==)>(l: Lattice<V>, w: World<V>, t: nat): World<V>
    requires Steady(w) && t in w.threads
  {
    var th := w.threads[t];
    match th.pc
    case Look =>
      if w.slot.Some? then SetPc(w, t, Found(w.slot.value))
      else if th.effect.Update? then SetPc(w, t, Locking)
      else if th.effect.snap == map[] then SetPc(w, t, Done).(log := w.log + [t])
      else SetPc(w, t, Built(|w.heap|)).(heap := w.heap + [Join(l, map[], th.effect.snap)])
    case Found(c) => Finish(l, w, t, c)
    case Locking =>
      if w.slot.Some? then Finish(l, w, t, w.slot.value)
      else
        match Perform(l, map[], th.effect) {
          case Success(d) => SetPc(w, t, Done).(heap := w.heap + [d], slot := Some(|w.heap|), log := w.log + [t])
          case Failure => SetPc(w, t, Done).(log := w.log + [t])
        }
    case Built(temp) =>
      if w.slot.Some? then SetPc(w, t, Lost(w.slot.value, temp))
      else SetPc(w, t, Done).(slot := Some(temp), log := w.log + [t])
    case Lost(winner, temp) =>
      SetPc(w, t, Done).(heap := w.heap[winner := Join(l, w.heap[winner], w.heap[temp])], log := w.log + [t])
    case Done => w
  }

  /** Every object a thread or the slot refers to exists. */
  predicate Steady<V>(w: World<V>) {
    (w.slot.Some? ==> w.slot.value < |w.heap|)
    && forall t :: t in w.threads ==>
      match w.threads[t].pc
      case Found(c) => c < |w.heap|
      case Built(temp) => temp < |w.heap|
      case Lost(winner, temp) => winner < |w.heap| && temp < |w.heap|
      case _ => true
  }

  /** Replays completed effects on the empty document. */
  function Replay<V>(l: Lattice<V>, threads: map<nat, Thread<V>>, log: seq<nat>): Doc<V>
    requires forall t :: t in log ==> t in threads
  {
    if log == [] then map[]
    else Settle(l, Replay(l, threads, log[..|log| - 1]), threads[log[|log| - 1]].effect)
  }

  /**
    Threads hold the published object or private ones, private objects hold their thread's
    snapshot, and the document, absent ones counting as empty, is the replay of the log, in
    which every completed thread appears once.
   */
  ghost predicate Inv<V(!new)>(l: Lattice<V>, w: World<V>) {
    Steady(w)
    && (forall t :: t in w.log <==> t in w.threads && w.threads[t].pc.Done?)
    && (forall i, j :: 0 <= i < j < |w.log| ==> w.log[i] != w.log[j])
    && (forall t :: t in w.threads ==> ThreadOk(l, w, w.threads[t]))
    && (forall t, u :: t in w.threads && u in w.threads && t != u && Private(w.threads[t]) && Private(w.threads[u]) ==>
      w.threads[t].pc.temp != w.threads[u].pc.temp)
    && Current(w) == Replay(l, w.threads, w.log)
  }

  predicate Private<V>(th: Thread<V>) {
    th.pc.Built? || th.pc.Lost?
  }

  ghost predicate ThreadOk<V(!new)>(l: Lattice<V>, w: World<V>, th: Thread<V>)
    requires Steady(w)
  {
    match th.pc
    case Found(c) => w.slot == Some(c)
    case Locking => th.effect.Update?
    case Built(temp) => temp < |w.heap| && th.effect.Merge? && w.heap[temp] == th.effect.snap && w.slot != Some(temp)
    case Lost(winner, temp) =>
      temp < |w.heap| && th.effect.Merge? && w.heap[temp] == th.effect.snap && w.slot == Some(winner) && winner != temp
    case _ => true
  }

  /** The document as a reader sees it. */
  function Current<V>(w: World<V>): Doc<V>
    requires Steady(w)
  {
    if w.slot.Some? then w.heap[w.slot.value] else map[]
  }

  /** Nothing published and nobody done; every thread is about to look. */
  predicate Start<V>(w: World<V>) {
    w.heap == [] && w.slot == None && w.log == [] && forall t :: t in w.threads ==> w.threads[t].pc.Look?
  }

  lemma StartInv<V(!new)>(l: Lattice<V>, w: World<V>)
    requires Start(w)
    ensures Inv(l, w)
  {
  }

  lemma JoinEmpty<V>(l: Lattice<V>, d: Doc<V>)
    ensures Join(l, map[], d) == d && Join(l, d, map[]) == d
  {
  }

  /** Replaying does not look at program counters. */
  lemma {:induction false} ReplaySame<V>(l: Lattice<V>, a: map<nat, Thread<V>>, b: map<nat, Thread<V>>, log: seq<nat>)
    requires forall t :: t in log ==> t in a && t in b && a[t].effect == b[t].effect
    ensures Replay(l, a, log) == Replay(l, b, log)
    decreases |log|
  {
    if log != [] {
      ReplaySame(l, a, b, log[..|log| - 1]);
    }
  }

  /** Completing thread t with the effect's outcome extends the replay by t. */
  lemma ReplayNext<V>(l: Lattice<V>, w: World<V>, w': World<V>, t: nat)
    requires t in w.threads && w'.threads.Keys == w.threads.Keys && w'.log == w.log + [t]
    requires forall u :: u in w.log ==> u in w.threads
    requires forall u :: u in w.threads ==> w'.threads[u].effect == w.threads[u].effect
    ensures Replay(l, w'.threads, w'.log) == Settle(l, Replay(l, w.threads, w.log), w.threads[t].effect)
  {
    assert w'.log[..|w'.log| - 1] == w.log;
    ReplaySame(l, w.threads, w'.threads, w.log);
  }

  // ----- one step -----

  /** Only t's program counter, the heap, the slot and the log may differ. */
  ghost predicate Advances<V(!new)>(w: World<V>, w': World<V>, t: nat) {
    t in w.threads && w'.threads.Keys == w.threads.Keys
    && (forall u :: u in w.threads && u != t ==> w'.threads[u] == w.threads[u])
    && w'.threads[t].effect == w.threads[t].effect && |w.heap| <= |w'.heap|
  }

  lemma DoneOk<V(!new)>(l: Lattice<V>, w: World<V>, th: Thread<V>)
    requires Steady(w) && th.pc.Done?
    ensures ThreadOk(l, w, th)
  {
  }

  /** A step that completes t: the log gains t, and the document becomes t's outcome. */
  lemma Completed<V(!new)>(l: Lattice<V>, w: World<V>, w': World<V>, t: nat)
    requires Inv(l, w) && Advances(w, w', t) && !w.threads[t].pc.Done? && w'.threads[t].pc.Done? && Steady(w')
    requires w'.log == w.log + [t] && Current(w') == Settle(l, Current(w), w.threads[t].effect)
    requires forall u :: u in w.threads && u != t ==> ThreadOk(l, w', w.threads[u])
    ensures Inv(l, w')
  {
    hide ThreadOk, Replay, Settle;
    DoneOk(l, w', w'.threads[t]);
    assert t !in w.log;
    ReplayNext(l, w, w', t);
  }

  /** A step that moves t without completing it: the document is the same. */
  lemma Moved<V(!new)>(l: Lattice<V>, w: World<V>, w': World<V>, t: nat)
    requires Inv(l, w) && Advances(w, w', t) && !w.threads[t].pc.Done? && !w'.threads[t].pc.Done? && Steady(w')
    requires w'.log == w.log && Current(w') == Current(w) && ThreadOk(l, w', w'.threads[t])
    requires forall u :: u in w.threads && u != t ==> ThreadOk(l, w', w.threads[u])
    requires Private(w'.threads[t]) ==>
      forall u :: u in w.threads && u != t && Private(w.threads[u]) ==> w.threads[u].pc.temp != w'.threads[t].pc.temp
    ensures Inv(l, w')
  {
    hide ThreadOk, Replay;
    ReplaySame(l, w.threads, w'.threads, w.log);
  }

  /** Performing an effect on the published object touches no private object. */
  lemma InPlace<V(!new)>(l: Lattice<V>, w: World<V>, t: nat, c: Object, d: Doc<V>)
    requires Inv(l, w) && t in w.threads && !w.threads[t].pc.Done? && w.slot == Some(c)
    requires d == Settle(l, w.heap[c], w.threads[t].effect)
    ensures Inv(l, SetPc(w, t, Done).(heap := w.heap[c := d], log := w.log + [t]))
  {
    hide Replay, Settle;
    var w' := SetPc(w, t, Done).(heap := w.heap[c := d], log := w.log + [t]);
    forall u | u in w.threads && u != t
      ensures ThreadOk(l, w', w.threads[u])
    {
      assert ThreadOk(l, w, w.threads[u]);
    }
    Completed(l, w, w', t);
  }

  /** Looking moves only the thread itself, and at most builds an object of its own. */
  lemma LookFrame<V(!new)>(l: Lattice<V>, w: World<V>, t: nat)
    requires Inv(l, w) && t in w.threads && w.threads[t].pc.Look?
    ensures var w' := Step(l, w, t);
      Advances(w, w', t) && Steady(w') && Current(w') == Current(w)
      && forall u :: u in w.threads && u != t ==> ThreadOk(l, w', w.threads[u])
  {
    hide Replay, Join;
    var w' := Step(l, w, t);
    forall u | u in w.threads && u != t
      ensures ThreadOk(l, w', w.threads[u])
    {
      assert ThreadOk(l, w, w.threads[u]);
    }
  }

  lemma LookKeeps<V(!new)>(l: Lattice<V>, w: World<V>, t: nat)
    requires Inv(l, w) && t in w.threads && w.threads[t].pc.Look?
    ensures Inv(l, Step(l, w, t))
  {
    hide Replay;
    var w', e := Step(l, w, t), w.threads[t].effect;
    LookFrame(l, w, t);
    if e.Merge? {
      JoinEmpty(l, e.snap);
    }
    if w'.threads[t].pc.Done? {
      Completed(l, w, w', t);
    } else {
      Moved(l, w, w', t);
    }
  }

  lemma LockingKeeps<V(!new)>(l: Lattice<V>, w: World<V>, t: nat)
    requires Inv(l, w) && t in w.threads && w.threads[t].pc.Locking?
    ensures Inv(l, Step(l, w, t))
  {
    hide Replay;
    var w', e := Step(l, w, t), w.threads[t].effect;
    if w.slot.Some? {
      InPlace(l, w, t, w.slot.value, Settle(l, w.heap[w.slot.value], e));
    } else {
      forall u | u in w.threads && u != t
        ensures ThreadOk(l, w', w.threads[u])
      {
        assert ThreadOk(l, w, w.threads[u]);
      }
      Completed(l, w, w', t);
    }
  }

  lemma BuiltKeeps<V(!new)>(l: Lattice<V>, w: World<V>, t: nat)
    requires Inv(l, w) && t in w.threads && w.threads[t].pc.Built?
    ensures Inv(l, Step(l, w, t))
  {
    hide Replay;
    var w', e := Step(l, w, t), w.threads[t].effect;
    assert ThreadOk(l, w, w.threads[t]);
    forall u | u in w.threads && u != t
      ensures ThreadOk(l, w', w.threads[u])
    {
      assert ThreadOk(l, w, w.threads[u]);
    }
    if w.slot.Some? {
      Moved(l, w, w', t);
    } else {
      JoinEmpty(l, e.snap);
      Completed(l, w, w', t);
    }
  }

  /** Every step of every thread keeps the invariant, and never replaces a published document. */
  lemma StepKeeps<V(!new)>(l: Lattice<V>, w: World<V>, t: nat)
    requires Inv(l, w) && t in w.threads
    ensures Inv(l, Step(l, w, t)) && (w.slot.Some? ==> Step(l, w, t).slot == w.slot)
    ensures Step(l, w, t).threads.Keys == w.threads.Keys
    ensures forall u :: u in w.threads ==> Step(l, w, t).threads[u].effect == w.threads[u].effect
  {
    hide Inv, Replay, Settle;
    assert Steady(w) by { InvSteady(l, w); }
    var th := w.threads[t];
    match th.pc
    case Look => LookKeeps(l, w, t);
    case Found(c) =>
      FoundPublished(l, w, t);
      InPlace(l, w, t, c, Settle(l, w.heap[c], th.effect));
    case Locking => LockingKeeps(l, w, t);
    case Built(_) => BuiltKeeps(l, w, t);
    case Lost(winner, temp) =>
      LostSnapshot(l, w, t);
      InPlace(l, w, t, winner, Join(l, w.heap[winner], w.heap[temp]));
    case Done =>
  }

  lemma InvSteady<V(!new)>(l: Lattice<V>, w: World<V>)
    requires Inv(l, w)
    ensures Steady(w)
  {
  }

  lemma FoundPublished<V(!new)>(l: Lattice<V>, w: World<V>, t: nat)
    requires Inv(l, w) && t in w.threads && w.threads[t].pc.Found?
    ensures w.slot == Some(w.threads[t].pc.c)
  {
    assert ThreadOk(l, w, w.threads[t]);
  }

  lemma LostSnapshot<V(!new)>(l: Lattice<V>, w: World<V>, t: nat)
    requires Inv(l, w) && t in w.threads && w.threads[t].pc.Lost? && Steady(w)
    ensures var th := w.threads[t];
      w.slot == Some(th.pc.winner)
      && Join(l, w.heap[th.pc.winner], w.heap[th.pc.temp]) == Settle(l, w.heap[th.pc.winner], th.effect)
  {
    assert ThreadOk(l, w, w.threads[t]);
  }

  // ----- every interleaving -----

  /** Any schedule of any threads from the start, threads being scheduled any number of times. */
  ghost predicate Run<V(!new)>(l: Lattice<V>, worlds: seq<World<V>>, schedule: seq<nat>) {
    |worlds| == |schedule| + 1 && Start(worlds[0])
    && forall i :: 0 <= i < |schedule| ==>
      Steady(worlds[i]) && schedule[i] in worlds[i].threads && worlds[i + 1] == Step(l, worlds[i], schedule[i])
  }

  lemma {:induction false} RunInv<V(!new)>(l: Lattice<V>, worlds: seq<World<V>>, schedule: seq<nat>, i: nat)
    requires Run(l, worlds, schedule) && i < |worlds|
    ensures Inv(l, worlds[i]) && worlds[i].threads.Keys == worlds[0].threads.Keys
    ensures forall u :: u in worlds[0].threads ==> worlds[i].threads[u].effect == worlds[0].threads[u].effect
    decreases i
  {
    hide Inv, Step;
    if i == 0 {
      StartInv(l, worlds[0]);
    } else {
      RunInv(l, worlds, schedule, i - 1);
      StepKeeps(l, worlds[i - 1], schedule[i - 1]);
    }
  }

  /** Once published, a document is never replaced. */
  lemma {:induction false} NeverReplaced<V(!new)>(l: Lattice<V>, worlds: seq<World<V>>, schedule: seq<nat>, i: nat, j: nat)
    requires Run(l, worlds, schedule) && i <= j < |worlds| && worlds[i].slot.Some?
    ensures worlds[j].slot == worlds[i].slot
    decreases j
  {
    hide Inv, Step;
    if i < j {
      NeverReplaced(l, worlds, schedule, i, j - 1);
      RunInv(l, worlds, schedule, j - 1);
      StepKeeps(l, worlds[j - 1], schedule[j - 1]);
    }
  }

  /**
    No operation is lost or applied twice: in every interleaving the document is what the
    completed operations, each exactly once, leave when run one after another.
   */
  lemma Serializable<V(!new)>(l: Lattice<V>, worlds: seq<World<V>>, schedule: seq<nat>, i: nat)
    requires Run(l, worlds, schedule) && i < |worlds|
    ensures Steady(worlds[i])
    ensures var w := worlds[i];
      (forall t :: t in w.log <==> t in w.threads && w.threads[t].pc.Done?)
      && (forall a, b :: 0 <= a < b < |w.log| ==> w.log[a] != w.log[b])
      && (forall t :: t in w.log ==> t in worlds[0].threads)
      && Current(w) == Replay(l, worlds[0].threads, w.log)
  {
    hide Replay, ThreadOk;
    RunInv(l, worlds, schedule, i);
    ReplaySame(l, worlds[i].threads, worlds[0].threads, worlds[i].log);
  }

  /** Updates are inflationary on the domain, and snapshots are in it. */
  ghost predicate Inflationary<V(!new)>(l: Lattice<V>, threads: map<nat, Thread<V>>) {
    forall t :: t in threads ==>
      match threads[t].effect
      case Merge(snap) => InDom(l, snap)
      case Update(f) =>
        forall d :: InDom(l, d) && f(d).Success? ==> InDom(l, f(d).doc) && DocLeq(l, d, f(d).doc)
  }

  lemma SettleGrows<V(!new)>(l: Lattice<V>, threads: map<nat, Thread<V>>, t: nat, d: Doc<V>)
    requires IsJoin(l) && Inflationary(l, threads) && t in threads && InDom(l, d)
    ensures var d' := Settle(l, d, threads[t].effect);
      InDom(l, d') && DocLeq(l, d, d') && (threads[t].effect.Merge? ==> DocLeq(l, threads[t].effect.snap, d'))
  {
    hide IsJoin, DocLeq;
    DocLeqReflexive(l, d);
    match threads[t].effect
    case Merge(snap) => DocJoinLub(l, d, snap, d);
    case Update(f) =>
  }

  /** What the i-th completed operation left is below what the whole log leaves. */
  lemma {:induction false} ReplayGrows<V(!new)>(l: Lattice<V>, threads: map<nat, Thread<V>>, log: seq<nat>, i: nat)
    requires IsJoin(l) && Inflationary(l, threads) && (forall t :: t in log ==> t in threads) && i <= |log|
    ensures forall t :: t in log[..i] ==> t in threads
    ensures InDom(l, Replay(l, threads, log)) && InDom(l, Replay(l, threads, log[..i]))
    ensures DocLeq(l, Replay(l, threads, log[..i]), Replay(l, threads, log))
    decreases |log|
  {
    hide IsJoin, DocLeq, Inflationary, Settle;
    if i == |log| {
      assert log[..i] == log;
      if log != [] {
        ReplayGrows(l, threads, log[..|log| - 1], 0);
        SettleGrows(l, threads, log[|log| - 1], Replay(l, threads, log[..|log| - 1]));
      }
      DocLeqReflexive(l, Replay(l, threads, log));
    } else {
      var init := log[..|log| - 1];
      assert init[..i] == log[..i];
      ReplayGrows(l, threads, init, i);
      SettleGrows(l, threads, log[|log| - 1], Replay(l, threads, init));
      DocLeqTransitive(l, Replay(l, threads, log[..i]), Replay(l, threads, init), Replay(l, threads, log));
    }
  }

  /**
    Nothing collapses: the document is above every snapshot merged so far and above what
    each completed update left at its turn.
   */
  lemma NothingLost<V(!new)>(l: Lattice<V>, worlds: seq<World<V>>, schedule: seq<nat>, i: nat, a: nat)
    requires IsJoin(l) && Run(l, worlds, schedule) && i < |worlds| && Inflationary(l, worlds[0].threads)
    requires a < |worlds[i].log|
    ensures Steady(worlds[i]) && forall t :: t in worlds[i].log ==> t in worlds[0].threads
    ensures var w, e := worlds[i], worlds[0].threads[worlds[i].log[a]].effect;
      (e.Merge? ==> DocLeq(l, e.snap, Current(w)))
      && DocLeq(l, Settle(l, Replay(l, worlds[0].threads, w.log[..a]), e), Current(w))
  {
    hide IsJoin, DocLeq, Inflationary, Settle, Run;
    Serializable(l, worlds, schedule, i);
    var log, threads := worlds[i].log, worlds[0].threads;
    var e := threads[log[a]].effect;
    ReplayGrows(l, threads, log, a);
    ReplayGrows(l, threads, log, a + 1);
    assert log[..a + 1][..a] == log[..a];
    SettleGrows(l, threads, log[a], Replay(l, threads, log[..a]));
    assert Replay(l, threads, log[..a + 1]) == Settle(l, Replay(l, threads, log[..a]), e);
    if e.Merge? {
      MergeInDom(l, threads, log[a]);
      DocLeqTransitive(l, e.snap, Settle(l, Replay(l, threads, log[..a]), e), Replay(l, threads, log));
    }
  }

  lemma MergeInDom<V(!new)>(l: Lattice<V>, threads: map<nat, Thread<V>>, t: nat)
    requires Inflationary(l, threads) && t in threads && threads[t].effect.Merge?
    ensures InDom(l, threads[t].effect.snap)
  {
  }

  /**
    Two racing runs of one update on a missing document count twice, under every interleaving. On
    temporary documents merged afterwards they would leave what one run leaves.
   */
  lemma UpdatesCountTwice<V(!new)>(l: Lattice<V>, worlds: seq<World<V>>, schedule: seq<nat>, i: nat, a: nat, b: nat,
    f: Doc<V> -> Doc<V>)
    requires Run(l, worlds, schedule) && i < |worlds| && worlds[0].threads.Keys == {a, b} && a != b
    requires forall t :: t in {a, b} ==>
      worlds[0].threads[t].effect.Update? && forall d :: worlds[0].threads[t].effect.f(d) == Success(f(d))
    requires forall t :: t in {a, b} ==> t in worlds[i].threads && worlds[i].threads[t].pc.Done?
    ensures Steady(worlds[i]) && Current(worlds[i]) == f(f(map[]))
    ensures IsJoin(l) && InDom(l, f(map[])) ==> Join(l, f(map[]), f(map[])) == f(map[])
  {
    hide IsJoin, Join, Step;
    Serializable(l, worlds, schedule, i);
    RunInv(l, worlds, schedule, i);
    var log, threads := worlds[i].log, worlds[0].threads;
    TwoInLog(log, a, b);
    var x, y := log[0], log[1];
    assert log[..1] == [x] && log[..1][..0] == [];
    assert Replay(l, threads, log[..1]) == f(map[]);
    JoinSame(l, f(map[]));
  }

  lemma TwoInLog(log: seq<nat>, a: nat, b: nat)
    requires a != b && a in log && b in log && (forall t :: t in log ==> t == a || t == b)
    requires forall i, j :: 0 <= i < j < |log| ==> log[i] != log[j]
    ensures |log| == 2
  {
    var i :| 0 <= i < |log| && log[i] == a;
    var j :| 0 <= j < |log| && log[j] == b;
    var third := if i != 0 && j != 0 then 0 else if i != 1 && j != 1 then 1 else 2;
    assert log[if third < |log| then third else 0] in log;
  }

  lemma JoinSame<V(!new)>(l: Lattice<V>, d: Doc<V>)
    ensures IsJoin(l) && InDom(l, d) ==> Join(l, d, d) == d
  {
  }
}
