/**
  The replicated vector: node id to slot, updated locally, merged slot by slot, and
  exchanged either as it is or in wire form. The class methods are proved against
  functions of the state; what acceptance by the prover means for the state is proved
  about those functions.
 */
module Vectors {
  import opened Options
  import opened NumTypes
  import opened Syntax
  import opened Interp
  import opened Prover
  import opened Convergence

  type State = map<string, Val>

  // ----- default slots and inbound parameters -----

  /** The value of an absent slot: zero, the empty string, or a struct of those. */
  function ZeroSlot(t: ElemT): Val {
    match t
    case ENum(_) => VNum(0.0)
    case EStr => VStr("")
    case EStruct(fs) => VStruct(ZeroFields(fs))
  }

  function ZeroFields(fs: seq<ElemField>): map<string, Val> {
    if fs == [] then map[]
    else
      assert fs[0].typ < fs[0];
      map[fs[0].name := ZeroSlot(fs[0].typ)] + ZeroFields(fs[1..])
  }

  /**
    An inbound parameter: text, with its decoding as UTF-8 and its reading as a number
    if it has one, a number, or anything else.
   */
  datatype Payload = PText(text: Option<string>, number: Option<real>) | PNum(q: real) | POther

  function NumberOf(v: Payload): Option<real> {
    match v
    case PText(_, number) => number
    case PNum(q) => Some(q)
    case POther => None
  }

  function BindParam(t: ScalarT, v: Payload): Option<Val> {
    match t
    case ScalarStr => if v.PText? && v.text.Some? then Some(VStr(v.text.value)) else None
    case ScalarNum(n) =>
      var q :- NumberOf(v);
      if Allows(n, q) then Some(VNum(q)) else None
  }

  /** All parameters, or none: the wrong count or one bad value rejects the call. */
  function BindParams(ps: seq<MethodParam>, vs: seq<Payload>): Option<seq<Val>> {
    if |ps| != |vs| || exists i :: 0 <= i < |ps| && BindParam(ps[i].typ, vs[i]).None? then None
    else Some(seq(|ps|, i requires 0 <= i < |ps| => BindParam(ps[i].typ, vs[i]).value))
  }

  lemma BoundTyped(ps: seq<MethodParam>, vs: seq<Payload>)
    requires BindParams(ps, vs).Some?
    ensures ParamsTyped(ps, BindParams(ps, vs).value)
  {
  }

  // ----- what an operation does to the state -----

  /** The state with the own slot present. */
  function WithSelf(s: State, self: string, elem: ElemT): State {
    if self in s then s else s[self := ZeroSlot(elem)]
  }

  /** One of the orders in which the slots of a state are visited. */
  ghost predicate Enumerates(order: seq<string>, s: State) {
    Distinct(order) && forall k :: k in order <==> k in s
  }

  function SlotsIn(s: State, order: seq<string>): (slots: seq<Val>)
    requires forall k :: k in order ==> k in s
  {
    seq(|order|, i requires 0 <= i < |order| => s[order[i]])
  }

  /** What an update is applied to: the own slot, or the whole vector in some order. */
  function ArgOf(u: Update, s: State, self: string, order: seq<string>): Val
    requires self in s && forall k :: k in order ==> k in s
  {
    if u.body.Write? then VVec(SlotsIn(s, order)) else s[self]
  }

  /** The slot an update writes, if it succeeds. */
  function NextSlot(p: Program, m: Model, s: State, self: string, action: string, vs: seq<Payload>, order: seq<string>)
    : Outcome<Val>
    requires forall k :: k in order ==> k in WithSelf(s, self, m.elem)
  {
    if action !in m.updates then Stuck
    else
      var u := m.updates[action];
      match BindParams(u.params, vs)
      case None => Stuck
      case Some(vals) =>
        UpdateVal(p, u, Bind(MethodNames(u.params), vals), ArgOf(u, WithSelf(s, self, m.elem), self, order))
  }

  function MergedSlot(p: Program, merge: Expr, a: State, b: State, k: string): Outcome<Val>
    requires k in a || k in b
  {
    if k !in b then Ok(a[k]) else if k !in a then Ok(b[k]) else MergeVals(p, merge, a[k], b[k])
  }

  /** The slot-wise merge, absent slots being bottom; one failing slot fails the whole. */
  function Merged(p: Program, merge: Expr, a: State, b: State): Outcome<State> {
    if EvalFn(p, merge, map[], 2).Ok? && forall k :: k in a.Keys + b.Keys ==> MergedSlot(p, merge, a, b, k).Ok?
    then Ok(map k | k in a.Keys + b.Keys :: MergedSlot(p, merge, a, b, k).value)
    else Stuck
  }

  /** The keys outside todo are merged, those in todo still hold their local slots. */
  ghost predicate PartMerged(p: Program, merge: Expr, a: State, b: State, todo: set<string>, m: State) {
    m.Keys == a.Keys + (b.Keys - todo)
    && forall k :: k in m ==> if k in todo then m[k] == a[k] else MergedSlot(p, merge, a, b, k) == Ok(m[k])
  }

  lemma PartStart(p: Program, merge: Expr, a: State, b: State)
    ensures PartMerged(p, merge, a, b, b.Keys, a)
  {
    hide MergeVals;
  }

  /** What the loop body computes for k is its merged slot. */
  lemma PartAt(p: Program, merge: Expr, a: State, b: State, todo: set<string>, m: State, fn: Val, k: string)
    requires PartMerged(p, merge, a, b, todo, m) && k in todo && todo <= b.Keys && EvalFn(p, merge, map[], 2) == Ok(fn)
    ensures k in b && MergedSlot(p, merge, a, b, k) == if k in m then Apply(p, fn, [m[k], b[k]], 0) else Ok(b[k])
    ensures !MergedSlot(p, merge, a, b, k).Ok? ==> Merged(p, merge, a, b) == Stuck
  {
    hide EvalFn, Apply;
  }

  lemma PartNext(p: Program, merge: Expr, a: State, b: State, todo: set<string>, m: State, k: string, v: Val)
    requires PartMerged(p, merge, a, b, todo, m) && k in todo && todo <= b.Keys && MergedSlot(p, merge, a, b, k) == Ok(v)
    ensures PartMerged(p, merge, a, b, todo - {k}, m[k := v])
  {
    hide MergedSlot;
  }

  lemma PartFull(p: Program, merge: Expr, a: State, b: State, m: State)
    requires PartMerged(p, merge, a, b, {}, m) && EvalFn(p, merge, map[], 2).Ok?
    ensures Merged(p, merge, a, b) == Ok(m)
  {
    hide EvalFn, MergedSlot;
    assert forall k :: k in a.Keys + b.Keys ==> k in m;
    var r := Merged(p, merge, a, b);
    assert r.Ok? && r.value.Keys == m.Keys;
    assert r.value == m;
  }

  lemma NoMergeFn(p: Program, merge: Expr, a: State, b: State)
    requires !EvalFn(p, merge, map[], 2).Ok?
    ensures Merged(p, merge, a, b) == Stuck
  {
  }

  // ----- the wire form -----

  /** The number tag of a wire slot: absent, or text that may or may not denote a number. */
  datatype NumTag = NoNum | NumText(q: Option<real>)

  /** One slot on the wire; text that is not UTF-8 is None. */
  datatype SlotWire = SlotWire(num: NumTag, str: Option<Option<string>>, fields: Option<map<string, SlotWire>>)

  type WireSnapshot = map<string, SlotWire>

  function SlotToWire(v: Val): SlotWire {
    match v
    case VStruct(fs) => SlotWire(NoNum, None, Some(map k | k in fs :: SlotToWire(fs[k])))
    case VStr(s) => SlotWire(NoNum, Some(Some(s)), None)
    case VNum(q) => SlotWire(NumText(Some(q)), None, None)
    case _ => SlotWire(NoNum, None, None)
  }

  function Tags(w: SlotWire): nat {
    (if w.num.NumText? then 1 else 0) + (if w.str.Some? then 1 else 0) + (if w.fields.Some? then 1 else 0)
  }

  /** Decodes against the element type: exactly one tag, the right one, and a value in the domain. */
  function WireToSlot(w: SlotWire, t: ElemT): Option<Val>
    decreases t
  {
    if Tags(w) != 1 then None
    else match t
      case EStruct(fs) =>
        if w.fields.None? || |w.fields.value| != |fs| then None else
        var fields :- WireToFields(w.fields.value, fs);
        Some(VStruct(fields))
      case EStr => if w.str.Some? && w.str.value.Some? then Some(VStr(w.str.value.value)) else None
      case ENum(n) =>
        if w.num.NumText? && w.num.q.Some? && Allows(n, w.num.q.value) then Some(VNum(w.num.q.value)) else None
  }

  function WireToFields(ws: map<string, SlotWire>, fs: seq<ElemField>): Option<map<string, Val>>
    decreases fs
  {
    if fs == [] then Some(map[])
    else if fs[0].name !in ws then None
    else
      assert fs[0].typ < fs[0];
      var v :- WireToSlot(ws[fs[0].name], fs[0].typ);
      var rest :- WireToFields(ws, fs[1..]);
      Some(map[fs[0].name := v] + rest)
  }

  function SnapshotWireOf(s: State): WireSnapshot {
    map k | k in s :: SlotToWire(s[k])
  }

  /** Every slot decodes, or the snapshot is rejected. */
  function FromWire(snap: WireSnapshot, t: ElemT): Option<State> {
    if exists k :: k in snap && WireToSlot(snap[k], t).None? then None
    else Some(map k | k in snap :: WireToSlot(snap[k], t).value)
  }

  // ----- the state after an operation -----

  /** The state after an update: only the own slot may change, and a failing update changes nothing. */
  function AfterApply(p: Program, m: Model, s: State, self: string, action: string, vs: seq<Payload>, order: seq<string>)
    : State
    requires forall k :: k in order ==> k in WithSelf(s, self, m.elem)
  {
    match NextSlot(p, m, s, self, action, vs, order)
    case Ok(v) => s[self := v]
    case _ => s
  }

  /** The state after a merge, unchanged if any slot fails. */
  function AfterMerge(p: Program, m: Model, s: State, remote: State): State {
    match Merged(p, m.merge, s, remote)
    case Ok(r) => r
    case _ => s
  }

  /** The state after a wire merge: a snapshot that does not decode changes nothing. */
  function AfterWire(p: Program, m: Model, s: State, snap: WireSnapshot): State {
    match FromWire(snap, m.elem)
    case Some(remote) => AfterMerge(p, m, s, remote)
    case None => s
  }

  // ----- queries -----

  datatype Query = Query(params: seq<MethodParam>, body: Expr)

  /** The value of a query on a state whose slots are visited in the given order. */
  function QueryVal(p: Program, q: Query, vs: seq<Payload>, s: State, order: seq<string>): Outcome<Val>
    requires forall k :: k in order ==> k in s
  {
    match BindParams(q.params, vs)
    case None => Stuck
    case Some(vals) =>
      var f :- EvalFn(p, q.body, Bind(MethodNames(q.params), vals), 1);
      Apply(p, f, [VVec(SlotsIn(s, order))], 0)
  }

  // ----- the class -----

  class VectorCRDT {
    const self: string
    const p: Program
    const m: Model
    const queries: map<string, Query>
    var state: State

    constructor (self: string, p: Program, m: Model, queries: map<string, Query>)
      ensures this.self == self && this.p == p && this.m == m && this.queries == queries && state == map[]
    {
      this.self, this.p, this.m, this.queries := self, p, m, queries;
      state := map[];
    }

    /** Visits the keys of a state in an arbitrary order. */
    method Enumerate(s: State) returns (order: seq<string>)
      ensures Enumerates(order, s)
    {
      order := [];
      var todo := s.Keys;
      while todo != {}
        invariant todo <= s.Keys && Distinct(order)
        invariant forall k :: k in order <==> k in s.Keys - todo
        decreases |todo|
      {
        var k :| k in todo;
        assert k !in order;
        order, todo := order + [k], todo - {k};
      }
    }

    /** Runs an update: the own slot becomes the computed one, or nothing changes. */
    method Apply(action: string, payload: seq<Payload>) returns (ok: bool, order: seq<string>)
      modifies this
      ensures Enumerates(order, WithSelf(old(state), self, m.elem))
      ensures ok == NextSlot(p, m, old(state), self, action, payload, order).Ok?
      ensures state == AfterApply(p, m, old(state), self, action, payload, order)
    {
      var snap := WithSelf(state, self, m.elem);
      order := Enumerate(snap);
      if action !in m.updates {
        return false, order;
      }
      var u := m.updates[action];
      var vals := BindParams(u.params, payload);
      if vals.None? {
        return false, order;
      }
      var f := EvalFn(p, u.body.fn, Bind(MethodNames(u.params), vals.value), 1);
      if !f.Ok? {
        return false, order;
      }
      var arg := if u.body.Write? then VVec(SlotsIn(snap, order)) else snap[self];
      var next := Interp.Apply(p, f.value, [arg], 0);
      if !next.Ok? {
        return false, order;
      }
      state := state[self := next.value];
      ok := true;
    }

    /** Merges a snapshot slot by slot into a copy, swapped in only if every slot succeeds. */
    method MergeRemote(remote: State) returns (ok: bool)
      modifies this
      ensures ok == Merged(p, m.merge, old(state), remote).Ok?
      ensures state == AfterMerge(p, m, old(state), remote)
    {
      hide MergedSlot, EvalFn, Interp.Apply, Merged, PartMerged;
      var fn := EvalFn(p, m.merge, map[], 2);
      if !fn.Ok? {
        NoMergeFn(p, m.merge, state, remote);
        return false;
      }
      var merged := state;
      var todo := remote.Keys;
      PartStart(p, m.merge, state, remote);
      while todo != {}
        invariant todo <= remote.Keys && state == old(state) && PartMerged(p, m.merge, state, remote, todo, merged)
        decreases |todo|
      {
        var k :| k in todo;
        PartAt(p, m.merge, state, remote, todo, merged, fn.value, k);
        if k in merged {
          var nv := Interp.Apply(p, fn.value, [merged[k], remote[k]], 0);
          if !nv.Ok? {
            return false;
          }
          PartNext(p, m.merge, state, remote, todo, merged, k, nv.value);
          merged := merged[k := nv.value];
        } else {
          PartNext(p, m.merge, state, remote, todo, merged, k, remote[k]);
          merged := merged[k := remote[k]];
        }
        todo := todo - {k};
      }
      PartFull(p, m.merge, state, remote, merged);
      state := merged;
      ok := true;
    }

    method SnapshotWire() returns (snap: WireSnapshot)
      ensures snap == SnapshotWireOf(state)
    {
      snap := map[];
      var todo := state.Keys;
      while todo != {}
        invariant todo <= state.Keys && snap.Keys == state.Keys - todo
        invariant forall k :: k in snap ==> snap[k] == SlotToWire(state[k])
        decreases |todo|
      {
        var k :| k in todo;
        snap, todo := snap[k := SlotToWire(state[k])], todo - {k};
      }
    }

    /** Decodes every slot, then merges; a slot that does not decode rejects the snapshot. */
    method MergeWire(snap: WireSnapshot) returns (ok: bool)
      modifies this
      ensures ok ==
        (FromWire(snap, m.elem).Some? && Merged(p, m.merge, old(state), FromWire(snap, m.elem).value).Ok?)
      ensures state == AfterWire(p, m, old(state), snap)
    {
      hide WireToSlot, Merged;
      var remote: State := map[];
      var todo := snap.Keys;
      while todo != {}
        invariant todo <= snap.Keys && remote.Keys == snap.Keys - todo
        invariant forall k :: k in remote ==> WireToSlot(snap[k], m.elem) == Some(remote[k])
        invariant state == old(state)
        decreases |todo|
      {
        var k :| k in todo;
        var v := WireToSlot(snap[k], m.elem);
        if v.None? {
          return false;
        }
        remote, todo := remote[k := v.value], todo - {k};
      }
      assert forall k :: k in snap ==> k in remote;
      assert FromWire(snap, m.elem).value == remote;
      ok := MergeRemote(remote);
    }

    /** Evaluates a query on the current vector. */
    method Query(name: string, payload: seq<Payload>) returns (r: Outcome<Val>, order: seq<string>)
      ensures Enumerates(order, state)
      ensures r == if name in queries then QueryVal(p, queries[name], payload, state, order) else Stuck
    {
      order := Enumerate(state);
      if name !in queries {
        return Stuck, order;
      }
      var q := queries[name];
      var vals := BindParams(q.params, payload);
      if vals.None? {
        return Stuck, order;
      }
      var f := EvalFn(p, q.body, Bind(MethodNames(q.params), vals.value), 1);
      if !f.Ok? {
        return f, order;
      }
      r := Interp.Apply(p, f.value, [VVec(SlotsIn(state, order))], 0);
    }
  }
}
