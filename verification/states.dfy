/**
  What acceptance means for replicated states: merging is a join of states with the
  absent slot as bottom, updates only grow the state, the wire form loses nothing, and
  in every run every slot inhabits the declared element type.
 */
module ReplicaStates {
  import opened Options
  import opened Syntax
  import opened Interp
  import opened TypeRules
  import opened TypeSound
  import opened Prover
  import opened Symbolic
  import opened SlotSymbols
  import opened Lowering
  import opened LowerCorrect
  import opened Convergence
  import opened Vectors

  /** Every slot inhabits the element type. */
  ghost predicate Typed(s: State, t: ElemT) {
    forall k :: k in s ==> HasType(s[k], VElem(t))
  }

  // ----- typed structs, field by field -----

  function VFields(fs: seq<ElemField>): seq<TypedField> {
    VElem(EStruct(fs)).fields
  }

  lemma ElemFieldsSplit(fs: seq<ElemField>)
    requires fs != [] && ElemOk(EStruct(fs))
    ensures ElemOk(fs[0].typ) && ElemOk(EStruct(fs[1..])) && fs[0].name !in FieldNames(VFields(fs[1..]))
    ensures VFields(fs) == [TypedField(fs[0].name, VElem(fs[0].typ))] + VFields(fs[1..])
  {
    var gs := VFields(fs);
    assert gs[0] == TypedField(fs[0].name, VElem(fs[0].typ));
    assert gs[1..] == VFields(fs[1..]);
    assert forall i, j :: 0 <= i < j < |fs| ==> gs[i].name != gs[j].name;
  }

  lemma {:induction false} ZeroTyped(t: ElemT)
    requires ElemOk(t)
    ensures HasType(ZeroSlot(t), VElem(t))
    decreases t
  {
    match t
    case EStruct(fs) =>
      ZeroFieldsTyped(fs);
      FieldsTypedStruct(true, ZeroFields(fs), VFields(fs));
    case _ =>
  }

  lemma {:induction false} ZeroFieldsTyped(fs: seq<ElemField>)
    requires ElemOk(EStruct(fs))
    ensures FieldsTyped(true, ZeroFields(fs), VFields(fs))
    decreases fs
  {
    hide ZeroSlot, Fits, VElem, ElemOk;
    if fs == [] {
      FieldsTypedNil(true);
      EmptyFields();
    } else {
      assert fs[0].typ < fs[0];
      ElemFieldsSplit(fs);
      ZeroTyped(fs[0].typ);
      ZeroFieldsTyped(fs[1..]);
      FieldsTypedCons(true, TypedField(fs[0].name, VElem(fs[0].typ)), ZeroSlot(fs[0].typ), ZeroFields(fs[1..]), VFields(fs[1..]));
    }
  }

  lemma EmptyFields()
    ensures VFields([]) == []
  {
  }

  // ----- the wire form -----

  /** Whatever decodes inhabits the element type, nested fields included. */
  lemma {:induction false} DecodedTyped(w: SlotWire, t: ElemT, v: Val)
    requires ElemOk(t) && WireToSlot(w, t) == Some(v)
    ensures HasType(v, VElem(t))
    decreases t
  {
    match t
    case EStruct(fs) =>
      DecodedFieldsTyped(w.fields.value, fs, v.fields);
      FieldsTypedStruct(true, v.fields, VFields(fs));
    case _ =>
  }

  lemma {:induction false} DecodedFieldsTyped(ws: map<string, SlotWire>, fs: seq<ElemField>, m: map<string, Val>)
    requires ElemOk(EStruct(fs)) && WireToFields(ws, fs) == Some(m)
    ensures FieldsTyped(true, m, VFields(fs))
    decreases fs
  {
    hide WireToSlot, Fits, VElem, ElemOk;
    if fs == [] {
      FieldsTypedNil(true);
      EmptyFields();
    } else {
      assert fs[0].typ < fs[0];
      ElemFieldsSplit(fs);
      var v := WireToSlot(ws[fs[0].name], fs[0].typ).value;
      var rest := WireToFields(ws, fs[1..]).value;
      DecodedTyped(ws[fs[0].name], fs[0].typ, v);
      DecodedFieldsTyped(ws, fs[1..], rest);
      FieldsTypedCons(true, TypedField(fs[0].name, VElem(fs[0].typ)), v, rest, VFields(fs[1..]));
    }
  }

  /** A slot survives the wire exactly when it inhabits the element type. */
  lemma WireRoundTrip(v: Val, t: ElemT)
    requires ElemOk(t)
    ensures WireToSlot(SlotToWire(v), t) == Some(v) <==> HasType(v, VElem(t))
  {
    hide WireToSlot, SlotToWire, Fits;
    if WireToSlot(SlotToWire(v), t) == Some(v) {
      DecodedTyped(SlotToWire(v), t, v);
    }
    if HasType(v, VElem(t)) {
      TypedSurvives(v, t);
    }
  }

  lemma {:induction false} TypedSurvives(v: Val, t: ElemT)
    requires ElemOk(t) && HasType(v, VElem(t))
    ensures WireToSlot(SlotToWire(v), t) == Some(v)
    decreases t
  {
    if t.EStruct? {
      StructSurvives(v, t);
    }
  }

  lemma {:induction false} StructSurvives(v: Val, t: ElemT)
    requires t.EStruct? && ElemOk(t) && HasType(v, VElem(t))
    ensures WireToSlot(SlotToWire(v), t) == Some(v)
    decreases t, 0
  {
    hide Fits, ElemOk, VElem, WireToFields, ElemNames, SlotToWire;
    StructElem(true, t, v);
    var ws := map k | k in v.fields :: SlotToWire(v.fields[k]);
    SameSize(ws, v.fields);
    FieldsSurvive(v.fields, ws, t.fields);
    WholeRestrict(v.fields, t.fields);
    StructWire(v, ws);
    assert WireToFields(ws, t.fields) == Some(v.fields) && |ws| == |t.fields|;
  }

  lemma StructWire(v: Val, ws: map<string, SlotWire>)
    requires v.VStruct? && ws.Keys == v.fields.Keys && forall k :: k in ws ==> ws[k] == SlotToWire(v.fields[k])
    ensures SlotToWire(v) == SlotWire(NoNum, None, Some(ws))
  {
    assert SlotToWire(v).fields.value == ws;
  }

  lemma WholeRestrict(m: map<string, Val>, fs: seq<ElemField>)
    requires m.Keys == ElemNames(fs)
    ensures Restrict(m, fs) == m
  {
    hide ElemNames;
  }

  lemma SameSize<T, U>(a: map<string, T>, b: map<string, U>)
    requires a.Keys == b.Keys
    ensures |a| == |b|
  {
    assert |a| == |a.Keys| && |b| == |b.Keys|;
  }

  /** The fields of m that fs names. */
  function Restrict(m: map<string, Val>, fs: seq<ElemField>): map<string, Val> {
    map k | k in m && k in ElemNames(fs) :: m[k]
  }

  lemma {:induction false} FieldsSurvive(m: map<string, Val>, ws: map<string, SlotWire>, fs: seq<ElemField>)
    requires ws.Keys == m.Keys && forall k :: k in m ==> ws[k] == SlotToWire(m[k])
    requires forall i :: 0 <= i < |fs| ==>
      fs[i].name in m && ElemOk(fs[i].typ) && HasType(m[fs[i].name], VElem(fs[i].typ))
    ensures WireToFields(ws, fs) == Some(Restrict(m, fs))
    decreases fs
  {
    hide WireToSlot, SlotToWire, Fits, ElemOk;
    if fs != [] {
      assert fs[0].typ < fs[0];
      TypedSurvives(m[fs[0].name], fs[0].typ);
      FieldsSurvive(m, ws, fs[1..]);
      RestrictCons(m, fs);
    } else {
      assert Restrict(m, fs) == map[];
    }
  }

  lemma RestrictCons(m: map<string, Val>, fs: seq<ElemField>)
    requires fs != [] && fs[0].name in m
    ensures Restrict(m, fs) == map[fs[0].name := m[fs[0].name]] + Restrict(m, fs[1..])
  {
    assert forall k :: k in ElemNames(fs) <==> k == fs[0].name || k in ElemNames(fs[1..]) by {
      assert forall i :: 0 < i < |fs| ==> fs[i] == fs[1..][i - 1];
      forall k | k in ElemNames(fs[1..])
        ensures k in ElemNames(fs)
      {
        var i :| 0 <= i < |fs| - 1 && fs[1..][i].name == k;
        assert fs[i + 1].name == k;
      }
    }
  }

  /** A typed state survives the wire, and every state that arrives is typed. */
  lemma SnapshotSurvives(s: State, t: ElemT)
    requires ElemOk(t)
    ensures FromWire(SnapshotWireOf(s), t) == Some(s) <==> Typed(s, t)
  {
    hide WireToSlot, SlotToWire, Fits, ElemOk;
    var w := SnapshotWireOf(s);
    if Typed(s, t) {
      forall k | k in w
        ensures WireToSlot(w[k], t) == Some(s[k])
      {
        WireRoundTrip(s[k], t);
      }
      assert FromWire(w, t).value == s;
    }
    if FromWire(w, t) == Some(s) {
      ArrivedTyped(w, t, s);
    }
  }

  lemma ArrivedTyped(snap: WireSnapshot, t: ElemT, s: State)
    requires ElemOk(t) && FromWire(snap, t) == Some(s)
    ensures Typed(s, t)
  {
    hide WireToSlot, Fits, ElemOk;
    forall k | k in s
      ensures HasType(s[k], VElem(t))
    {
      DecodedTyped(snap[k], t, s[k]);
    }
  }

  // ----- merging states -----

  /** The parts of acceptance that speak of merge. */
  lemma AcceptedMerge(solver: Solver, sig: Sigs, p: Program, m: Model)
    requires AcceptedTyped(solver, sig, p, m)
    ensures EvalFn(p, m.merge, map[], 2).Ok? && ElemOk(m.elem)
  {
    hide *;
    ElemAccepted(solver, sig, p, m);
    ZeroTyped(m.elem);
    var z := ZeroSlot(m.elem);
    MergeIsTypedJoin(solver, sig, p, m, z, z, z);
    MergeFnRuns(p, m.merge, VElem(m.elem), z);
  }

  lemma ElemAccepted(solver: Solver, sig: Sigs, p: Program, m: Model)
    requires AcceptedTyped(solver, sig, p, m)
    ensures ElemOk(m.elem)
  {
    hide ProgramTyped, CombinatorOk, CombinatorSafe, UpdateChecked, SoundSolver, Proved, ElemOk;
  }

  lemma MergeFnRuns(p: Program, merge: Expr, t: Type, z: Val)
    requires JoinLaws(p, merge, t, z, z, z)
    ensures EvalFn(p, merge, map[], 2).Ok?
  {
    hide EvalFn, Apply, Fits;
  }

  /** The laws of merging for one slot that either state may lack. */
  lemma SlotLaws(solver: Solver, sig: Sigs, p: Program, m: Model, a: State, b: State, k: string)
    requires AcceptedTyped(solver, sig, p, m) && Typed(a, m.elem) && Typed(b, m.elem) && (k in a || k in b)
    ensures var r := MergedSlot(p, m.merge, a, b, k);
      r.Ok? && HasType(r.value, VElem(m.elem)) && r == MergedSlot(p, m.merge, b, a, k)
    ensures k in a ==> MergedSlot(p, m.merge, a, a, k) == Ok(a[k])
  {
    hide AcceptedTyped, MergeVals, Fits, VElem;
    var x := if k in a then a[k] else b[k];
    var y := if k in b then b[k] else a[k];
    MergeIsTypedJoin(solver, sig, p, m, x, y, x);
  }

  /** Merging typed states succeeds, is typed, and does not depend on the side. */
  lemma MergeTyped(solver: Solver, sig: Sigs, p: Program, m: Model, a: State, b: State)
    requires AcceptedTyped(solver, sig, p, m) && Typed(a, m.elem) && Typed(b, m.elem)
    ensures Merged(p, m.merge, a, b).Ok? && Typed(Merged(p, m.merge, a, b).value, m.elem)
    ensures Merged(p, m.merge, a, b) == Merged(p, m.merge, b, a)
  {
    hide AcceptedTyped, MergedSlot, EvalFn, Fits, VElem;
    AcceptedMerge(solver, sig, p, m);
    forall k | k in a.Keys + b.Keys
      ensures var r := MergedSlot(p, m.merge, a, b, k);
        r.Ok? && HasType(r.value, VElem(m.elem)) && r == MergedSlot(p, m.merge, b, a, k)
    {
      SlotLaws(solver, sig, p, m, a, b, k);
    }
    assert Merged(p, m.merge, a, b).value == Merged(p, m.merge, b, a).value;
  }

  /** A merged state, key by key. */
  lemma MergedAt(p: Program, merge: Expr, a: State, b: State, r: State, k: string)
    requires Merged(p, merge, a, b) == Ok(r)
    ensures k in r <==> k in a || k in b
    ensures k in r ==> MergedSlot(p, merge, a, b, k) == Ok(r[k])
  {
    hide MergedSlot, EvalFn;
  }

  lemma MergeIdempotent(solver: Solver, sig: Sigs, p: Program, m: Model, a: State)
    requires AcceptedTyped(solver, sig, p, m) && Typed(a, m.elem)
    ensures Merged(p, m.merge, a, a) == Ok(a) && Merged(p, m.merge, a, map[]) == Ok(a)
  {
    hide AcceptedTyped, MergedSlot, EvalFn, Fits, VElem, Merged;
    MergeTyped(solver, sig, p, m, a, a);
    MergeTyped(solver, sig, p, m, a, map[]);
    var r, s := Merged(p, m.merge, a, a).value, Merged(p, m.merge, a, map[]).value;
    forall k
      ensures k in r <==> k in a
      ensures k in s <==> k in a
      ensures k in a ==> r[k] == a[k] && s[k] == a[k]
    {
      MergedAt(p, m.merge, a, a, r, k);
      MergedAt(p, m.merge, a, map[], s, k);
      if k in a {
        SlotLaws(solver, sig, p, m, a, a, k);
        AbsentIsBottom(p, m.merge, a, k);
      }
    }
    assert r == a && s == a;
  }

  lemma AbsentIsBottom(p: Program, merge: Expr, a: State, k: string)
    requires k in a
    ensures MergedSlot(p, merge, a, map[], k) == Ok(a[k])
  {
  }

  lemma MergeAssociative(solver: Solver, sig: Sigs, p: Program, m: Model, a: State, b: State, c: State)
    requires AcceptedTyped(solver, sig, p, m) && Typed(a, m.elem) && Typed(b, m.elem) && Typed(c, m.elem)
    requires Merged(p, m.merge, a, b).Ok? && Merged(p, m.merge, b, c).Ok?
    ensures Merged(p, m.merge, a, Merged(p, m.merge, b, c).value).Ok?
    ensures Merged(p, m.merge, a, Merged(p, m.merge, b, c).value) == Merged(p, m.merge, Merged(p, m.merge, a, b).value, c)
  {
    hide AcceptedTyped, MergedSlot, EvalFn, Fits, VElem, Merged;
    MergeTyped(solver, sig, p, m, a, b);
    MergeTyped(solver, sig, p, m, b, c);
    var ab, bc := Merged(p, m.merge, a, b).value, Merged(p, m.merge, b, c).value;
    MergeTyped(solver, sig, p, m, a, bc);
    MergeTyped(solver, sig, p, m, ab, c);
    var l, r := Merged(p, m.merge, a, bc).value, Merged(p, m.merge, ab, c).value;
    forall k
      ensures k in l <==> k in r
      ensures k in l ==> l[k] == r[k]
    {
      MergedAt(p, m.merge, a, b, ab, k);
      MergedAt(p, m.merge, b, c, bc, k);
      MergedAt(p, m.merge, a, bc, l, k);
      MergedAt(p, m.merge, ab, c, r, k);
      if k in l {
        SlotAssociative(solver, sig, p, m, a, b, c, ab, bc, k);
      }
    }
    assert l == r;
  }

  lemma SlotAssociative(solver: Solver, sig: Sigs, p: Program, m: Model, a: State, b: State, c: State, ab: State,
    bc: State, k: string)
    requires AcceptedTyped(solver, sig, p, m) && Typed(a, m.elem) && Typed(b, m.elem) && Typed(c, m.elem)
    requires k in a || k in b || k in c
    requires k in ab <==> k in a || k in b
    requires k in bc <==> k in b || k in c
    requires k in ab ==> MergedSlot(p, m.merge, a, b, k) == Ok(ab[k])
    requires k in bc ==> MergedSlot(p, m.merge, b, c, k) == Ok(bc[k])
    ensures MergedSlot(p, m.merge, a, bc, k) == MergedSlot(p, m.merge, ab, c, k)
  {
    hide AcceptedTyped, MergeVals, Fits, VElem;
    if k in a && k in b && k in c {
      MergeIsTypedJoin(solver, sig, p, m, a[k], b[k], c[k]);
    }
  }

  // ----- the order on states -----

  /** b holds everything a does. */
  ghost predicate Leq(p: Program, m: Model, a: State, b: State) {
    Merged(p, m.merge, a, b) == Ok(b)
  }

  lemma LeqReflexive(solver: Solver, sig: Sigs, p: Program, m: Model, a: State)
    requires AcceptedTyped(solver, sig, p, m) && Typed(a, m.elem)
    ensures Leq(p, m, a, a)
  {
    MergeIdempotent(solver, sig, p, m, a);
  }

  lemma LeqTransitive(solver: Solver, sig: Sigs, p: Program, m: Model, a: State, b: State, c: State)
    requires AcceptedTyped(solver, sig, p, m) && Typed(a, m.elem) && Typed(b, m.elem) && Typed(c, m.elem)
    requires Leq(p, m, a, b) && Leq(p, m, b, c)
    ensures Leq(p, m, a, c)
  {
    MergeAssociative(solver, sig, p, m, a, b, c);
  }

  lemma LeqAntisymmetric(solver: Solver, sig: Sigs, p: Program, m: Model, a: State, b: State)
    requires AcceptedTyped(solver, sig, p, m) && Typed(a, m.elem) && Typed(b, m.elem)
    requires Leq(p, m, a, b) && Leq(p, m, b, a)
    ensures a == b
  {
    MergeTyped(solver, sig, p, m, a, b);
  }

  /** Merging is the least upper bound of the order. */
  lemma MergeIsLub(solver: Solver, sig: Sigs, p: Program, m: Model, a: State, b: State, c: State)
    requires AcceptedTyped(solver, sig, p, m) && Typed(a, m.elem) && Typed(b, m.elem) && Typed(c, m.elem)
    ensures Merged(p, m.merge, a, b).Ok?
    ensures var r := Merged(p, m.merge, a, b).value;
      Typed(r, m.elem) && Leq(p, m, a, r) && Leq(p, m, b, r)
      && (Leq(p, m, a, c) && Leq(p, m, b, c) ==> Leq(p, m, r, c))
  {
    hide AcceptedTyped, Merged, Typed;
    MergeTyped(solver, sig, p, m, a, b);
    MergeIdempotent(solver, sig, p, m, a);
    MergeIdempotent(solver, sig, p, m, b);
    MergeAssociative(solver, sig, p, m, a, a, b);
    MergeAssociative(solver, sig, p, m, b, b, a);
    MergeTyped(solver, sig, p, m, b, a);
    MergeTyped(solver, sig, p, m, b, c);
    if Leq(p, m, a, c) && Leq(p, m, b, c) {
      MergeAssociative(solver, sig, p, m, a, b, c);
    }
  }

  // ----- updates -----

  /** The own slot, and the whole vector around it, in the type an update expects. */
  lemma ArgTyped(u: Update, m: Model, s: State, self: string, order: seq<string>)
    requires ElemOk(m.elem) && Typed(s, m.elem) && Enumerates(order, WithSelf(s, self, m.elem))
    ensures var full := WithSelf(s, self, m.elem);
      HasType(full[self], VElem(m.elem)) && UpdateArg(u, m.elem, full[self], ArgOf(u, full, self, order))
  {
    hide VElem, ElemOk, Fits;
    ZeroTyped(m.elem);
    var full := WithSelf(s, self, m.elem);
    if u.body.Write? {
      var slots := SlotsIn(full, order);
      assert self in order;
      var i :| 0 <= i < |order| && order[i] == self;
      assert slots[i] == full[self];
      VectorTyped(slots, VElem(m.elem));
    }
  }

  lemma VectorTyped(slots: seq<Val>, t: Type)
    requires forall i :: 0 <= i < |slots| ==> HasType(slots[i], t)
    ensures HasType(VVec(slots), TVector(t))
  {
  }

  /**
    An update whose parameters bind never fails, leaves every other slot alone, stays in
    the element type, and only grows the state.
   */
  lemma UpdateGrows(solver: Solver, sig: Sigs, p: Program, m: Model, s: State, self: string, action: string,
    vs: seq<Payload>, order: seq<string>)
    requires AcceptedTyped(solver, sig, p, m) && Typed(s, m.elem) && Enumerates(order, WithSelf(s, self, m.elem))
    requires action in m.updates && BindParams(m.updates[action].params, vs).Some?
    ensures NextSlot(p, m, s, self, action, vs, order).Ok?
    ensures var s' := AfterApply(p, m, s, self, action, vs, order);
      Typed(s', m.elem) && Leq(p, m, s, s') && s' - {self} == s - {self}
  {
    hide AcceptedTyped, Merged, MergeVals, EvalFn, Fits, VElem, UpdateArg, UpdateVal, Typed;
    ElemAccepted(solver, sig, p, m);
    var u := m.updates[action];
    ArgTyped(u, m, s, self, order);
    BoundTyped(u.params, vs);
    var full := WithSelf(s, self, m.elem);
    UpdateIsTyped(solver, sig, p, m, action, full[self], BindParams(u.params, vs).value,
      ArgOf(u, full, self, order));
    var h := NextSlot(p, m, s, self, action, vs, order).value;
    SlotGrows(solver, sig, p, m, s, self, h);
  }

  lemma SlotGrows(solver: Solver, sig: Sigs, p: Program, m: Model, s: State, self: string, h: Val)
    requires AcceptedTyped(solver, sig, p, m) && Typed(s, m.elem) && HasType(h, VElem(m.elem))
    requires self in s ==> MergeVals(p, m.merge, s[self], h) == Ok(h)
    ensures var s' := s[self := h]; Typed(s', m.elem) && Leq(p, m, s, s') && s' - {self} == s - {self}
  {
    hide AcceptedTyped, Merged, MergeVals, EvalFn, Fits, VElem;
    var s' := s[self := h];
    MergeTyped(solver, sig, p, m, s, s');
    var r := Merged(p, m.merge, s, s').value;
    forall k
      ensures k in r <==> k in s'
      ensures k in r ==> r[k] == s'[k]
    {
      MergedAt(p, m.merge, s, s', r, k);
      if k in s && k != self {
        SlotLaws(solver, sig, p, m, s, s, k);
      }
    }
    assert r == s';
  }

  // ----- runs of one vector -----

  datatype Op =
    | Updating(action: string, payload: seq<Payload>, order: seq<string>)
    | Merging(remote: State)
    | MergingWire(snap: WireSnapshot)

  /** One operation of the class; what is merged in process is the snapshot of a typed vector. */
  ghost predicate StepTo(p: Program, m: Model, self: string, s: State, op: Op, s': State) {
    match op
    case Updating(action, payload, order) =>
      Enumerates(order, WithSelf(s, self, m.elem)) && s' == AfterApply(p, m, s, self, action, payload, order)
    case Merging(remote) => Typed(remote, m.elem) && s' == AfterMerge(p, m, s, remote)
    case MergingWire(snap) => s' == AfterWire(p, m, s, snap)
  }

  ghost predicate Run(p: Program, m: Model, self: string, ops: seq<Op>, states: seq<State>) {
    |states| == |ops| + 1 && states[0] == map[]
    && forall i :: 0 <= i < |ops| ==> StepTo(p, m, self, states[i], ops[i], states[i + 1])
  }

  /** One step keeps every slot in its type and only grows the state. */
  lemma StepInvariant(solver: Solver, sig: Sigs, p: Program, m: Model, self: string, s: State, op: Op, s': State)
    requires AcceptedTyped(solver, sig, p, m) && Typed(s, m.elem) && StepTo(p, m, self, s, op, s')
    ensures Typed(s', m.elem) && Leq(p, m, s, s')
  {
    hide AcceptedTyped, Merged, Fits, VElem, Typed, NextSlot, BindParams, FromWire;
    LeqReflexive(solver, sig, p, m, s);
    match op
    case Updating(action, payload, order) =>
      if action in m.updates && BindParams(m.updates[action].params, payload).Some? {
        UpdateGrows(solver, sig, p, m, s, self, action, payload, order);
      } else {
        Rejected(p, m, s, self, action, payload, order);
      }
    case Merging(remote) => MergeIsLub(solver, sig, p, m, s, remote, s);
    case MergingWire(snap) =>
      if FromWire(snap, m.elem).Some? {
        ElemAccepted(solver, sig, p, m);
        ArrivedTyped(snap, m.elem, FromWire(snap, m.elem).value);
        MergeIsLub(solver, sig, p, m, s, FromWire(snap, m.elem).value, s);
      }
  }

  lemma Rejected(p: Program, m: Model, s: State, self: string, action: string, vs: seq<Payload>, order: seq<string>)
    requires Enumerates(order, WithSelf(s, self, m.elem))
    requires action !in m.updates || BindParams(m.updates[action].params, vs).None?
    ensures NextSlot(p, m, s, self, action, vs, order) == Stuck
  {
  }

  /**
    The state invariant: in every run of updates, in-process merges and wire merges from
    the empty state, whatever is thrown at it, every slot of every state inhabits the
    element type, and states only grow.
   */
  lemma {:induction false} RunInvariant(solver: Solver, sig: Sigs, p: Program, m: Model, self: string, ops: seq<Op>,
    states: seq<State>, i: nat, j: nat)
    requires AcceptedTyped(solver, sig, p, m) && Run(p, m, self, ops, states) && i <= j <= |ops|
    ensures Typed(states[i], m.elem) && Typed(states[j], m.elem) && Leq(p, m, states[i], states[j])
    decreases j
  {
    hide AcceptedTyped, Merged, StepTo, Fits, VElem;
    if i == j {
      if i > 0 {
        RunInvariant(solver, sig, p, m, self, ops, states, i - 1, j - 1);
        StepInvariant(solver, sig, p, m, self, states[i - 1], ops[i - 1], states[i]);
      }
      LeqReflexive(solver, sig, p, m, states[i]);
    } else {
      RunInvariant(solver, sig, p, m, self, ops, states, i, j - 1);
      StepInvariant(solver, sig, p, m, self, states[j - 1], ops[j - 1], states[j]);
      LeqTransitive(solver, sig, p, m, states[i], states[j - 1], states[j]);
    }
  }

  /** Merging a typed state over the wire is merging it in process. */
  lemma WireMergeIsMerge(p: Program, m: Model, s: State, remote: State)
    requires ElemOk(m.elem) && Typed(remote, m.elem)
    ensures AfterWire(p, m, s, SnapshotWireOf(remote)) == AfterMerge(p, m, s, remote)
  {
    SnapshotSurvives(remote, m.elem);
  }

  // ----- queries -----

  /** The type holds a whole vector somewhere. */
  predicate ContainsVector(t: Type) {
    match t
    case TVector(_) => true
    case TStruct(fs) => exists i :: 0 <= i < |fs| && ContainsVector(fs[i].typ)
    case _ => false
  }

  /**
    The body, with the parameters in scope, is a function of the vector to a serializable value.
    Under a table of value types its result is never unknown.
   */
  predicate QueryChecked(sig: Sigs, p: Program, q: Query, elem: ElemT, result: Type) {
    var t := TypeOf(sig, p, q.body, ParamScope(q.params));
    var vec := TVector(VElem(elem));
    t.Some? && t.value.TFunc? && |t.value.params| == 1 && t.value.params[0].TVector? && SubType(vec, t.value.params[0])
    && ApplyArgs(t.value, [vec]) == Some(result) && !result.TFunc? && !ContainsVector(result)
  }

  /** The query is in the scope of type soundness. */
  predicate QuerySafe(signed: bool, sig: Sigs, p: Program, q: Query, elem: ElemT) {
    var t := TypeOf(sig, p, q.body, ParamScope(q.params));
    Safe(signed, sig, p, q.body, ParamScope(q.params))
    && (signed && t.Some? && t.value.TFunc? ==> SafeApply(t.value, [TVector(VElem(elem))]))
  }

  /** Numbers, strings, truth values, and structs of those: what a query can return. */
  predicate Encodable(v: Val) {
    match v
    case VStruct(fs) => forall k :: k in fs ==> Encodable(fs[k])
    case VFunc(_, _) => false
    case VVec(_) => false
    case _ => true
  }

  lemma {:induction false} TypedEncodable(signed: bool, v: Val, t: Type)
    requires ValueType(t) && Fits(signed, v, t) && !ContainsVector(t)
    ensures Encodable(v)
    decreases t
  {
    match t
    case TStruct(fs) =>
      TypedKeys(signed, v, fs);
      forall k | k in v.fields
        ensures Encodable(v.fields[k])
      {
        var i :| 0 <= i < |fs| && fs[i].name == k;
        TypedEncodable(signed, v.fields[k], fs[i].typ);
      }
    case _ =>
  }

  /**
    A checked query on a typed state, whatever the order of its slots, yields a value of its
    declared result type that can be returned, or runs out of depth; nothing else goes wrong.
    The table need list no function but those the query calls.
   */
  lemma QuerySound(signed: bool, sig: Sigs, p: Program, q: Query, elem: ElemT, result: Type, vs: seq<Payload>, s: State,
    order: seq<string>)
    requires ProgramTyped(signed, sig, p) && ElemOk(elem) && Distinct(MethodNames(q.params))
    requires QueryChecked(sig, p, q, elem, result) && QuerySafe(signed, sig, p, q, elem)
    requires Typed(s, elem) && Enumerates(order, s) && BindParams(q.params, vs).Some?
    ensures var r := QueryVal(p, q, vs, s, order);
      r.TooDeep? || (r.Ok? && Fits(signed, r.value, result) && Encodable(r.value))
  {
    hide ProgramTyped, TypeOf, Safe, EnvOk, ScopeOk, Fits, HasFnType, ValueType, SubType, ApplyArgs, SafeApply, BindParams,
      VElem, ElemOk, Eval, Apply, GoodFn, SigsOk, Encodable, ContainsVector;
    var vals := BindParams(q.params, vs).value;
    BoundTyped(q.params, vs);
    var env, scope := Bind(MethodNames(q.params), vals), ParamScope(q.params);
    var t := TypeOf(sig, p, q.body, scope).value;
    var slots := SlotsIn(s, order);
    ParamsFit(signed, q.params, vals);
    TypedSigs(signed, sig, p);
    EvalSound(signed, sig, p, q.body, scope, t, env, 0);
    TypeOfShape(sig, p, q.body, scope, t);
    VectorTyped(slots, VElem(elem));
    TypedFits(signed, VVec(slots), TVector(VElem(elem)));
    ElemVector(elem);
    var f := Eval(p, q.body, env, 0);
    if f.Ok? {
      HasFnTypeArity(signed, sig, p, f.value, t);
      var args, ts := [VVec(slots)], [TVector(VElem(elem))];
      ApplySound(signed, sig, p, f.value, t, args, ts, 0, result);
      ApplyArgsShape(t, ts, result);
      var r := Apply(p, f.value, args, 0);
      if r.Ok? {
        TypedEncodable(signed, r.value, result);
      }
    }
  }

  lemma ElemVector(elem: ElemT)
    requires ElemOk(elem)
    ensures ValueType(TVector(VElem(elem)))
  {
  }

  // ----- version stamps -----

  /**
    A `write` that stamps one more than a recognised maximum over the vector exceeds the
    version of every slot it saw, the default own slot included.
   */
  lemma StampExceedsAll(p: Program, m: Model, s: State, self: string, order: seq<string>, fold: Expr, path: seq<string>,
    init: real)
    requires ParamsDistinct(p) && FoldProjection(p, fold) == Some(Projection(Max, path))
    requires Enumerates(order, WithSelf(s, self, m.elem))
    ensures var full := WithSelf(s, self, m.elem);
      var r := FoldSlots(p, FoldVal(fold), VNum(init), SlotsIn(full, order), 0);
      r.Ok? ==> r.value.VNum? && forall k :: k in full ==>
        var x := ProjectVal(full[k], path); x.Some? && x.value.VNum? && x.value.num < 1.0 + r.value.num
  {
    hide FoldSlots, FoldVal, ParamsDistinct, ProjectVal;
    var full := WithSelf(s, self, m.elem);
    var slots := SlotsIn(full, order);
    ReduceDominates(p, fold, Projection(Max, path), VNum(init), slots, 0);
    assert self in order;
    assert |slots| == |order| > 0;
    var r := FoldSlots(p, FoldVal(fold), VNum(init), slots, 0);
    if r.Ok? {
      forall k | k in full
        ensures var x := ProjectVal(full[k], path); x.Some? && x.value.VNum? && x.value.num < 1.0 + r.value.num
      {
        assert k in order;
        var i :| 0 <= i < |order| && order[i] == k;
        assert slots[i] == full[k];
      }
    }
  }
}
