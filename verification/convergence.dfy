/**
  The central theorem: if the type checker and the prover accept a model, then at
  run time, on slots of the declared element type, merge is a join and every update
  is inflationary, and neither ever fails.
 */
module Convergence {
  import opened Options
  import opened NumTypes
  import opened Syntax
  import opened Interp
  import opened TypeRules
  import opened TypeSound
  import opened Symbolic
  import opened Lowering
  import opened LowerCorrect
  import opened LowerShape
  import opened SlotSymbols
  import opened Prover

  // ----- what the runtime computes -----

  /** One slot merged with another. */
  function MergeVals(p: Program, merge: Expr, x: Val, y: Val): Outcome<Val> {
    var f :- EvalFn(p, merge, map[], 2);
    Apply(p, f, [x, y], 0)
  }

  /** An update's new slot: its function, with the parameters bound, on the own slot or the whole vector. */
  function UpdateVal(p: Program, u: Update, env: map<string, Val>, arg: Val): Outcome<Val> {
    var h :- EvalFn(p, u.body.fn, env, 1);
    Apply(p, h, [arg], 0)
  }

  // ----- acceptance -----

  function ScalarType(t: ScalarT): Type {
    match t
    case ScalarNum(n) => TNum(n)
    case ScalarStr => TString
  }

  function ScalarTypes(ps: seq<MethodParam>): (ts: seq<Type>)
    ensures |ts| == |ps|
  {
    seq(|ps|, i requires 0 <= i < |ps| => ScalarType(ps[i].typ))
  }

  function ParamScope(ps: seq<MethodParam>): Scope {
    Bind(MethodNames(ps), ScalarTypes(ps))
  }

  function Repeat(t: Type, n: nat): (ts: seq<Type>)
    ensures |ts| == n && forall i :: 0 <= i < n ==> ts[i] == t
  {
    seq(n, _ => t)
  }

  /** A combinator function takes `want` arguments of type arg and returns an element. */
  predicate CombinatorOk(sig: Sigs, p: Program, fn: Expr, scope: Scope, arg: Type, want: nat, elem: ElemT) {
    var t := TypeOf(sig, p, fn, scope);
    t.Some? && t.value.TFunc? && |t.value.params| == want
    && var sat := ApplyArgs(t.value, Repeat(arg, want));
      sat.Some? && SubType(sat.value, VElem(elem))
  }

  /** The combinator is in the scope of type soundness. */
  predicate CombinatorSafe(signed: bool, sig: Sigs, p: Program, fn: Expr, scope: Scope, arg: Type, want: nat) {
    Safe(signed, sig, p, fn, scope)
    && (signed ==>
      var t := TypeOf(sig, p, fn, scope);
        t.Some? && t.value.TFunc? ==> SafeApply(t.value, Repeat(arg, want)))
  }

  function UpdateArgType(u: Update, elem: ElemT): Type {
    if u.body.Write? then TVector(VElem(elem)) else VElem(elem)
  }

  predicate UpdateChecked(signed: bool, sig: Sigs, p: Program, u: Update, elem: ElemT) {
    CombinatorOk(sig, p, u.body.fn, ParamScope(u.params), UpdateArgType(u, elem), 1, elem)
    && CombinatorSafe(signed, sig, p, u.body.fn, ParamScope(u.params), UpdateArgType(u, elem), 1)
  }

  /**
    The model type-checks under a table that lists what merge and the updates call, in the scope
    of the reading of type soundness: signed when the signs of what they return matter.
   */
  ghost predicate ModelTyped(signed: bool, sig: Sigs, p: Program, m: Model) {
    ProgramTyped(signed, sig, p) && ElemOk(m.elem)
    && CombinatorOk(sig, p, m.merge, map[], VElem(m.elem), 2, m.elem)
    && CombinatorSafe(signed, sig, p, m.merge, map[], VElem(m.elem), 2)
    && forall name :: name in m.updates ==>
      Distinct(MethodNames(m.updates[name].params)) && UpdateChecked(signed, sig, p, m.updates[name], m.elem)
  }

  /** The builder accepts the model: merge, the updates and what they call type-check, and the prover says yes. */
  ghost predicate Accepted(solver: Solver, sig: Sigs, p: Program, m: Model) {
    ModelTyped(false, sig, p, m) && |p| < MAX_EVAL_DEPTH && SoundSolver(solver) && Proved(solver, p, m)
  }

  /** Acceptance in the signed reading contains the unsigned one. */
  lemma SignedModel(sig: Sigs, p: Program, m: Model)
    requires ModelTyped(true, sig, p, m)
    ensures ModelTyped(false, sig, p, m)
  {
    hide CombinatorOk, Safe, SigsOk, BodyOk, ElemOk, SafeApply;
    forall fn | fn in sig
      ensures fn in p && BodyOk(sig, p, fn) && Safe(false, sig, p, p[fn].body, FnScope(p[fn]))
    {
      SafeWeakens(sig, p, p[fn].body, FnScope(p[fn]));
    }
    SafeWeakens(sig, p, m.merge, map[]);
    forall name | name in m.updates
      ensures UpdateChecked(false, sig, p, m.updates[name], m.elem)
    {
      SafeWeakens(sig, p, m.updates[name].body.fn, ParamScope(m.updates[name].params));
    }
  }

  // ----- function terms: typed and lowered together -----

  /** Lowered function l and runtime function f are the same function of type t. */
  ghost predicate SameFn(sig: Sigs, p: Program, l: Lowered, f: Val, t: Type, n: nat, v: Valuation) {
    l.LFn? && RelLow(l, f, v) && OlderLow(l, n) && ShapeLow(sig, p, l, t) && HasFnType(false, sig, p, f, t) && GoodFn(t)
  }

  /** Symbol s and value x are the same value, of the shape of type t. */
  ghost predicate SameVal(s: Sym, x: Val, t: Type, n: nat, v: Valuation) {
    Rel(s, x, v) && Older(s, n) && Shape(s, t) && Fits(false, x, t)
  }

  lemma SameFnExtends(sig: Sigs, p: Program, l: Lowered, f: Val, t: Type, n: nat, v: Valuation, n': nat, w: Valuation)
    requires SameFn(sig, p, l, f, t, n, v) && Extends(v, w) && |v.reduces| == n <= n'
    ensures SameFn(sig, p, l, f, t, n', w)
  {
    hide Rel, Older, ShapeLow, HasFnType, GoodFn;
    RelAllExtends(l.bound, f.bound, v, w);
    OlderAllGrows(l.bound, n, n');
  }

  lemma SameValExtends(s: Sym, x: Val, t: Type, n: nat, v: Valuation, n': nat, w: Valuation)
    requires SameVal(s, x, t, n, v) && Extends(v, w) && |v.reduces| == n <= n'
    ensures SameVal(s, x, t, n', w)
  {
    hide Rel, Older, Shape, Fits;
    RelExtends(s, x, v, w);
    OlderGrows(s, n, n');
  }

  lemma TypedDistinct(sig: Sigs, p: Program)
    requires ProgramTyped(false, sig, p)
    ensures ParamsDistinct(p)
  {
  }

  lemma EnoughDepth(p: Program)
    requires |p| < MAX_EVAL_DEPTH
    ensures Enough(p, {}, 0)
  {
    assert p.Keys - {} == p.Keys;
  }

  /** A typed function term that lowers evaluates to the same function. */
  lemma FnRuns(solver: Solver, sig: Sigs, p: Program, e: Expr, want: nat, scope: Scope, senv: SymEnv,
    env: map<string, Val>, st: LowState, l: LowResult, v: Valuation, t: Type) returns (f: Val, w: Valuation)
    requires ProgramTyped(false, sig, p) && |p| < MAX_EVAL_DEPTH && ScopeOk(scope) && EnvOk(false, env, scope)
    requires ShapeEnv(senv, scope) && RelEnv(senv, env, v) && OlderEnv(senv, st.count) && StateOk(st, v)
    requires TypeOf(sig, p, e, scope) == Some(t) && t.TFunc? && |t.params| == want && Safe(false, sig, p, e, scope)
    requires LowerFn(solver, p, e, senv, want, st) == Some(l)
    ensures EvalFn(p, e, env, want) == Ok(f) && SameFn(sig, p, l.val, f, t, l.st.count, w)
    ensures Extends(v, w) && StateOk(l.st, w)
  {
    hide Lower, Eval, TypeOf, Safe, ProgramTyped, ScopeOk, EnvOk, ShapeEnv, RelEnv, OlderEnv, StateOk, RelLow, OlderLow,
      ShapeLow, HasFnType, GoodFn, ParamsDistinct, Enough, SigsOk;
    TypedDistinct(sig, p);
    TypedSigs(false, sig, p);
    EnoughDepth(p);
    w := LowerPreserves(solver, p, e, senv, env, {}, st, l, v, 0);
    EvalSound(false, sig, p, e, scope, t, env, 0);
    TypeOfShape(sig, p, e, scope, t);
    LoweredShape(solver, sig, p, e, scope, senv, {}, st, l, t);
    f := Eval(p, e, env, 0).value;
    HasFnTypeArity(false, sig, p, f, t);
  }

  /** Saturating it on the same arguments gives the same typed value. */
  lemma FnApplies(solver: Solver, sig: Sigs, p: Program, l: Lowered, f: Val, t: Type, syms: seq<Sym>, xs: seq<Val>,
    ts: seq<Type>, rt: Type, st: LowState, s: SymResult, v: Valuation) returns (w: Valuation)
    requires ProgramTyped(false, sig, p) && |p| < MAX_EVAL_DEPTH && StateOk(st, v)
    requires SameFn(sig, p, l, f, t, st.count, v)
    requires |syms| == |xs| == |ts| == |t.params|
    requires forall i :: 0 <= i < |ts| ==> SameVal(syms[i], xs[i], ts[i], st.count, v) && ValueType(ts[i])
    requires ApplyArgs(t, ts) == Some(rt)
    requires ApplySym(solver, p, l, syms, st) == Some(s)
    ensures Apply(p, f, xs, 0).Ok? && SameVal(s.sym, Apply(p, f, xs, 0).value, rt, s.st.count, w) && ValueType(rt)
    ensures Extends(v, w) && StateOk(s.st, w)
  {
    hide Rel, Older, Shape, Fits, StateOk, HasFnType, GoodFn, ProgramTyped, ParamsDistinct, Enough, ApplyArgs, SafeApply,
      ValueType, Call, Apply, SigsOk, LowArity;
    TypedDistinct(sig, p);
    TypedSigs(false, sig, p);
    EnoughDepth(p);
    LFnShape(sig, p, l, t);
    SaturatedArity(sig, p, l.callee, l.bound, t);
    assert RelAll(syms, xs, v) && OlderAll(syms, st.count) && Shapes(syms, ts);
    var low := LowResult(LVal(s.sym), s.st);
    assert LowersTo(solver, p, l.callee, l.bound, syms, {}, st, low);
    w := ApplyPreserves(solver, p, l.callee, l.bound, syms, f, xs, {}, st, low, v, 0);
    ApplySound(false, sig, p, f, t, xs, ts, 0, rt);
    ApplyArgsShape(t, ts, rt);
    NotFunc(rt);
    ApplyShape(solver, sig, p, l.callee, l.bound, t, syms, ts, {}, st, low, rt);
  }

  lemma SaturatedArity(sig: Sigs, p: Program, callee: Callee, bound: seq<Sym>, t: Type)
    requires ShapeFn(sig, p, callee, bound, t)
    ensures t.TFunc? && LowArity(p, callee, bound) == |t.params|
  {
  }

  // ----- merge -----

  /** The merge function as a lowered and a runtime function. */
  ghost predicate MergeFn(sig: Sigs, p: Program, m: Model, l: Lowered, f: Val, t: Type, n: nat, v: Valuation) {
    EvalFn(p, m.merge, map[], 2) == Ok(f) && TypeOf(sig, p, m.merge, map[]) == Some(t) && SameFn(sig, p, l, f, t, n, v)
  }

  /** One merge, on both sides: the symbol denotes the merged slot, which is again an element. */
  lemma MergeStep(solver: Solver, sig: Sigs, p: Program, m: Model, l: Lowered, f: Val, t: Type, x: Sym, a: Val,
    y: Sym, b: Val, st: LowState, s: SymResult, v: Valuation) returns (c: Val, w: Valuation)
    requires Accepted(solver, sig, p, m) && StateOk(st, v) && MergeFn(sig, p, m, l, f, t, st.count, v)
    requires SameVal(x, a, VElem(m.elem), st.count, v) && SameVal(y, b, VElem(m.elem), st.count, v)
    requires ApplySym(solver, p, l, [x, y], st) == Some(s)
    ensures MergeVals(p, m.merge, a, b) == Ok(c) && SameVal(s.sym, c, VElem(m.elem), s.st.count, w)
    ensures Extends(v, w) && StateOk(s.st, w) && MergeFn(sig, p, m, l, f, t, s.st.count, w)
    ensures |v.reduces| == st.count <= s.st.count == |w.reduces|
  {
    hide TypeOf, Safe, ProgramTyped, Fits, Rel, Older, Shape, StateOk, SameFn, ValueType, SubType, ApplyArgs, SafeApply,
      SoundSolver, Proved, Apply, ApplySym;
    var elem := VElem(m.elem);
    var ts := Repeat(elem, 2);
    var rt := ApplyArgs(t, ts).value;
    var syms, vals := [x, y], [a, b];
    FnTypeOfSame(sig, p, l, f, t, st.count, v);
    assert forall i :: 0 <= i < 2 ==> SameVal(syms[i], vals[i], ts[i], st.count, v);
    w := FnApplies(solver, sig, p, l, f, t, syms, vals, ts, rt, st, s, v);
    c := Apply(p, f, vals, 0).value;
    SubTypeSound(false, c, rt, elem);
    ShapeSub(s.sym, rt, elem);
    StateCount(st, v);
    StateCount(s.st, w);
    SameFnExtends(sig, p, l, f, t, st.count, v, s.st.count, w);
  }

  lemma FnTypeOfSame(sig: Sigs, p: Program, l: Lowered, f: Val, t: Type, n: nat, v: Valuation)
    requires SameFn(sig, p, l, f, t, n, v)
    ensures t.TFunc? && f.VFunc? && l.LFn?
  {
  }

  /** The symbol of a slot at a root the valuation gives the slot's value. */
  lemma RootSym(root: string, t: ElemT, x: Val, v: Valuation, n: nat)
    requires ElemOk(t) && HasType(x, VElem(t)) && Gives(v, root, [], t, x)
    ensures SameVal(SymOf(root, [], t), x, VElem(t), n, v) && Meets(DeclsOf(root, [], t), v)
  {
    hide Rel, Older, Shape, Fits, Gives, ElemOk;
    TypedFits(false, x, VElem(t));
    SymOfRel(root, [], t, x, v);
    DeclsHold(root, [], t, x, v);
    OlderGrows(SymOf(root, [], t), 0, n);
  }

  lemma GivesExtends(v: Valuation, w: Valuation, root: string, t: ElemT, x: Val)
    requires Gives(v, root, [], t, x) && Extends(v, w)
    ensures Gives(w, root, [], t, x)
  {
    forall rest: seq<nat>
      ensures w.nums(Leaf(root, [] + rest)) == LeafNum(t, x, rest) && w.strs(Leaf(root, [] + rest)) == LeafStr(t, x, rest)
    {
      assert v.nums(Leaf(root, [] + rest)) == LeafNum(t, x, rest);
    }
  }

  lemma MeetsConcat(ds: seq<VarDecl>, es: seq<VarDecl>, v: Valuation)
    requires Meets(ds, v) && Meets(es, v)
    ensures Meets(ds + es, v)
  {
  }

  /** A proved goal without hypotheses makes the two typed values it relates equal. */
  lemma ProvedEquality(solver: Solver, vars: seq<VarDecl>, l: Sym, r: Sym, x: Val, y: Val, t: ElemT, n: nat, v: Valuation)
    requires SoundSolver(solver) && solver(EqualGoal(vars, l, r, [])) && Meets(vars, v) && ElemOk(t)
    requires SameVal(l, x, VElem(t), n, v) && SameVal(r, y, VElem(t), n, v)
    ensures x == y
  {
    hide Rel, Shape, Fits, Older, Meets, ElemOk, LeavesSorted, LeavesEqual;
    var g := EqualGoal(vars, l, r, []);
    assert Valid(g) && Concluded(g, v);
    GoalEquality(l, r, x, y, t, v);
  }

  /** What the three merge laws say of three slots at run time. */
  ghost predicate JoinLaws(p: Program, merge: Expr, t: Type, a: Val, b: Val, c: Val) {
    var ab, ba, bc, aa := MergeVals(p, merge, a, b), MergeVals(p, merge, b, a), MergeVals(p, merge, b, c),
      MergeVals(p, merge, a, a);
    ab.Ok? && Fits(false, ab.value, t) && bc.Ok? && ab == ba && aa == Ok(a)
    && MergeVals(p, merge, a, bc.value).Ok?
    && MergeVals(p, merge, a, bc.value) == MergeVals(p, merge, ab.value, c)
  }

  /**
    Merge is a join: on slots of the element type the runtime merge never fails, stays
    in the type, and is commutative, associative and idempotent.
   */
  lemma MergeIsJoin(solver: Solver, sig: Sigs, p: Program, m: Model, a: Val, b: Val, c: Val)
    requires Accepted(solver, sig, p, m)
    requires HasType(a, VElem(m.elem)) && HasType(b, VElem(m.elem)) && HasType(c, VElem(m.elem))
    ensures JoinLaws(p, m.merge, VElem(m.elem), a, b, c)
  {
    hide *;
    var v := ThreeSlots(m.elem, a, b, c);
    var g, f, fab, fba, fbc, left, fab2, right, faa := MergeSymbols(solver, sig, p, m);
    var t, r, w0 := MergeStarts(solver, sig, p, m, f, v);
    var l := f.val;
    var x, y, z := SymOf("a", [], m.elem), SymOf("b", [], m.elem), SymOf("c", [], m.elem);
    Roots(m.elem, a, b, c, v, w0, f.st.count);
    var ab, w1 := MergeStep(solver, sig, p, m, l, r, t, x, a, y, b, f.st, fab, w0);
    Roots(m.elem, a, b, c, w0, w1, fab.st.count);
    var ba, w2 := MergeStep(solver, sig, p, m, l, r, t, y, b, x, a, fab.st, fba, w1);
    Roots(m.elem, a, b, c, w1, w2, fba.st.count);
    SameValExtends(fab.sym, ab, VElem(m.elem), fab.st.count, w1, fba.st.count, w2);
    ElemDecls(m.elem, a, b, c, w2);
    ProvedEquality(solver, g.comm.vars, fab.sym, fba.sym, ab, ba, m.elem, fba.st.count, w2);
    var bc, w3 := MergeStep(solver, sig, p, m, l, r, t, y, b, z, c, fba.st, fbc, w2);
    Roots(m.elem, a, b, c, w2, w3, fbc.st.count);
    var a_bc, w4 := MergeStep(solver, sig, p, m, l, r, t, x, a, fbc.sym, bc, fbc.st, left, w3);
    Roots(m.elem, a, b, c, w3, w4, left.st.count);
    var ab2, w5 := MergeStep(solver, sig, p, m, l, r, t, x, a, y, b, left.st, fab2, w4);
    Roots(m.elem, a, b, c, w4, w5, fab2.st.count);
    var ab_c, w6 := MergeStep(solver, sig, p, m, l, r, t, fab2.sym, ab2, z, c, fab2.st, right, w5);
    Roots(m.elem, a, b, c, w5, w6, right.st.count);
    SameValExtends(left.sym, a_bc, VElem(m.elem), left.st.count, w4, fab2.st.count, w5);
    SameValExtends(left.sym, a_bc, VElem(m.elem), fab2.st.count, w5, right.st.count, w6);
    ElemDecls(m.elem, a, b, c, w6);
    ProvedEquality(solver, g.assoc.vars, left.sym, right.sym, a_bc, ab_c, m.elem, right.st.count, w6);
    var aa, w7 := MergeStep(solver, sig, p, m, l, r, t, x, a, x, a, right.st, faa, w6);
    Roots(m.elem, a, b, c, w6, w7, faa.st.count);
    ElemDecls(m.elem, a, b, c, w7);
    ProvedEquality(solver, g.idem.vars, faa.sym, x, aa, a, m.elem, faa.st.count, w7);
    LawsFrom(p, m, a, b, c, ab, ba, bc, a_bc, ab_c, aa, faa.st.count, fab.sym, fab.st.count, w1);
  }

  lemma LawsFrom(p: Program, m: Model, a: Val, b: Val, c: Val, ab: Val, ba: Val, bc: Val, a_bc: Val, ab_c: Val, aa: Val,
    n: nat, s: Sym, k: nat, w: Valuation)
    requires MergeVals(p, m.merge, a, b) == Ok(ab) && MergeVals(p, m.merge, b, a) == Ok(ba) && ab == ba
    requires MergeVals(p, m.merge, b, c) == Ok(bc) && MergeVals(p, m.merge, a, bc) == Ok(a_bc)
    requires MergeVals(p, m.merge, ab, c) == Ok(ab_c) && a_bc == ab_c
    requires MergeVals(p, m.merge, a, a) == Ok(aa) && aa == a
    requires SameVal(s, ab, VElem(m.elem), k, w)
    ensures JoinLaws(p, m.merge, VElem(m.elem), a, b, c)
  {
    hide MergeVals, Fits;
  }

  /** A valuation giving three slots. */
  lemma ThreeSlots(t: ElemT, a: Val, b: Val, c: Val) returns (v: Valuation)
    ensures Gives(v, "a", [], t, a) && Gives(v, "b", [], t, b) && Gives(v, "c", [], t, c) && v.reduces == []
  {
    var roots := map["a" := a, "b" := b, "c" := c];
    v := SlotValuation(t, roots, []);
    SlotValuationGives(t, roots, [], "a");
    SlotValuationGives(t, roots, [], "b");
    SlotValuationGives(t, roots, [], "c");
  }

  /** The three slot symbols keep standing for their slots as the valuation grows. */
  lemma Roots(t: ElemT, a: Val, b: Val, c: Val, v: Valuation, w: Valuation, n: nat)
    requires ElemOk(t) && HasType(a, VElem(t)) && HasType(b, VElem(t)) && HasType(c, VElem(t))
    requires Gives(v, "a", [], t, a) && Gives(v, "b", [], t, b) && Gives(v, "c", [], t, c) && Extends(v, w)
    ensures Gives(w, "a", [], t, a) && Gives(w, "b", [], t, b) && Gives(w, "c", [], t, c)
    ensures SameVal(SymOf("a", [], t), a, VElem(t), n, w) && SameVal(SymOf("b", [], t), b, VElem(t), n, w)
    ensures SameVal(SymOf("c", [], t), c, VElem(t), n, w)
  {
    hide *;
    GivesExtends(v, w, "a", t, a);
    GivesExtends(v, w, "b", t, b);
    GivesExtends(v, w, "c", t, c);
    RootSym("a", t, a, w, n);
    RootSym("b", t, b, w, n);
    RootSym("c", t, c, w, n);
  }

  lemma ElemDecls(t: ElemT, a: Val, b: Val, c: Val, v: Valuation)
    requires ElemOk(t) && HasType(a, VElem(t)) && HasType(b, VElem(t)) && HasType(c, VElem(t))
    requires Gives(v, "a", [], t, a) && Gives(v, "b", [], t, b) && Gives(v, "c", [], t, c)
    ensures Meets(DeclsOf("a", [], t), v)
    ensures Meets(DeclsOf("a", [], t) + DeclsOf("b", [], t), v)
    ensures Meets(DeclsOf("a", [], t) + DeclsOf("b", [], t) + DeclsOf("c", [], t), v)
  {
    hide *;
    RootSym("a", t, a, v, 0);
    RootSym("b", t, b, v, 0);
    RootSym("c", t, c, v, 0);
    MeetsConcat(DeclsOf("a", [], t), DeclsOf("b", [], t), v);
    MeetsConcat(DeclsOf("a", [], t) + DeclsOf("b", [], t), DeclsOf("c", [], t), v);
  }

  /** The symbols behind the three merge goals, in the order the prover builds them. */
  lemma MergeSymbols(solver: Solver, sig: Sigs, p: Program, m: Model)
    returns (g: MergeGoals, f: LowResult, fab: SymResult, fba: SymResult, fbc: SymResult, left: SymResult,
      fab2: SymResult, right: SymResult, faa: SymResult)
    requires Accepted(solver, sig, p, m)
    ensures var a, b, c := SymOf("a", [], m.elem), SymOf("b", [], m.elem), SymOf("c", [], m.elem);
      LowerFn(solver, p, m.merge, map[], 2, NO_REDUCES) == Some(f) && ElemOk(m.elem) && SoundSolver(solver)
      && ApplySym(solver, p, f.val, [a, b], f.st) == Some(fab)
      && ApplySym(solver, p, f.val, [b, a], fab.st) == Some(fba)
      && ApplySym(solver, p, f.val, [b, c], fba.st) == Some(fbc)
      && ApplySym(solver, p, f.val, [a, fbc.sym], fbc.st) == Some(left)
      && ApplySym(solver, p, f.val, [a, b], left.st) == Some(fab2)
      && ApplySym(solver, p, f.val, [fab2.sym, c], fab2.st) == Some(right)
      && ApplySym(solver, p, f.val, [a, a], right.st) == Some(faa)
    ensures var da, db, dc := DeclsOf("a", [], m.elem), DeclsOf("b", [], m.elem), DeclsOf("c", [], m.elem);
      g.comm == EqualGoal(da + db, fab.sym, fba.sym, [])
      && g.assoc == EqualGoal(da + db + dc, left.sym, right.sym, [])
      && g.idem == EqualGoal(da, faa.sym, SymOf("a", [], m.elem), [])
      && solver(g.comm) && solver(g.assoc) && solver(g.idem)
  {
    hide ProgramTyped, CombinatorOk, CombinatorSafe, UpdateChecked, SoundSolver, SomeProof, ElemOk, LowerFn, ApplySym,
      SymOf, DeclsOf;
    g := MergeObligations(solver, p, m).value;
    var a, b, c := SymOf("a", [], m.elem), SymOf("b", [], m.elem), SymOf("c", [], m.elem);
    f := LowerFn(solver, p, m.merge, map[], 2, NO_REDUCES).value;
    fab := ApplySym(solver, p, f.val, [a, b], f.st).value;
    fba := ApplySym(solver, p, f.val, [b, a], fab.st).value;
    fbc := ApplySym(solver, p, f.val, [b, c], fba.st).value;
    left := ApplySym(solver, p, f.val, [a, fbc.sym], fbc.st).value;
    fab2 := ApplySym(solver, p, f.val, [a, b], left.st).value;
    right := ApplySym(solver, p, f.val, [fab2.sym, c], fab2.st).value;
    faa := ApplySym(solver, p, f.val, [a, a], right.st).value;
  }

  /** The merge function itself, on both sides. */
  lemma MergeStarts(solver: Solver, sig: Sigs, p: Program, m: Model, l: LowResult, v: Valuation)
    returns (t: Type, f: Val, w: Valuation)
    requires Accepted(solver, sig, p, m) && v.reduces == []
    requires LowerFn(solver, p, m.merge, map[], 2, NO_REDUCES) == Some(l)
    ensures MergeFn(sig, p, m, l.val, f, t, l.st.count, w) && Extends(v, w) && StateOk(l.st, w)
  {
    hide ProgramTyped, UpdateChecked, SoundSolver, Proved, LowerFn, TypeOf, Safe, SameFn, ApplyArgs, SubType, SafeApply;
    t := TypeOf(sig, p, m.merge, map[]).value;
    f, w := FnRuns(solver, sig, p, m.merge, 2, map[], map[], map[], NO_REDUCES, l, v, t);
  }

  // ----- updates -----

  /** The parameter values an update accepts: one per parameter, each of its declared type. */
  ghost predicate ParamsTyped(ps: seq<MethodParam>, vals: seq<Val>) {
    |vals| == |ps| && forall i :: 0 <= i < |ps| ==> HasType(vals[i], ScalarType(ps[i].typ))
  }

  /** What an update is applied to: the own slot x, or a whole vector in which x is one slot. */
  ghost predicate UpdateArg(u: Update, elem: ElemT, x: Val, arg: Val) {
    if u.body.Write? then HasType(arg, TVector(VElem(elem))) && x in arg.slots else arg == x
  }

  /** The parameter symbols stand for the parameter values. */
  lemma ParamsRel(ps: seq<MethodParam>, vals: seq<Val>, v: Valuation, n: nat)
    requires ParamsTyped(ps, vals) && Distinct(MethodNames(ps))
    requires forall i :: 0 <= i < |vals| ==> ParamGiven(vals[i], i, v)
    ensures RelEnv(ParamEnv(ps), Bind(MethodNames(ps), vals), v) && OlderEnv(ParamEnv(ps), n)
    ensures ShapeEnv(ParamEnv(ps), ParamScope(ps)) && EnvOk(false, Bind(MethodNames(ps), vals), ParamScope(ps))
    ensures ScopeOk(ParamScope(ps)) && Meets(ParamDecls(ps), v)
  {
    hide Rel, Older, Shape, Fits, ParamSym, ScalarType, ValueType, DeclHolds, ParamGiven;
    var names, syms := MethodNames(ps), ParamSyms(ps);
    forall i | 0 <= i < |ps|
      ensures SameVal(syms[i], vals[i], ScalarTypes(ps)[i], n, v)
      ensures ValueType(ScalarTypes(ps)[i]) && DeclHolds(ParamDecls(ps)[i], v)
    {
      ParamRel(ps, i, vals[i], v, n);
    }
    BindRel(names, syms, vals, v);
    BindOlder(names, syms, n);
    forall x | x in ParamScope(ps)
      ensures x in ParamEnv(ps) && Shape(ParamEnv(ps)[x], ParamScope(ps)[x])
      ensures x in Bind(names, vals) && Fits(false, Bind(names, vals)[x], ParamScope(ps)[x])
      ensures ValueType(ParamScope(ps)[x])
    {
      var i :| 0 <= i < |ps| && names[i] == x;
      BindAt(names, syms, i);
      BindAt(names, vals, i);
      BindAt(names, ScalarTypes(ps), i);
      assert SameVal(syms[i], vals[i], ScalarTypes(ps)[i], n, v);
    }
  }

  lemma ParamRel(ps: seq<MethodParam>, i: nat, x: Val, v: Valuation, n: nat)
    requires i < |ps| && HasType(x, ScalarType(ps[i].typ)) && ParamGiven(x, i, v)
    ensures SameVal(ParamSym(ps, i), x, ScalarType(ps[i].typ), n, v)
    ensures ValueType(ScalarType(ps[i].typ)) && DeclHolds(ParamDecls(ps)[i], v)
  {
  }

  /** v gives parameter i the value x. */
  predicate ParamGiven(x: Val, i: nat, v: Valuation) {
    (x.VNum? ==> v.nums(ParamVar(i)) == x.num) && (x.VStr? ==> v.strs(ParamVar(i)) == x.str)
  }

  lemma SlotAndParams(elem: ElemT, x: Val, vals: seq<Val>) returns (v: Valuation)
    ensures Gives(v, "slot", [], elem, x) && v.reduces == []
    ensures forall i :: 0 <= i < |vals| ==> ParamGiven(vals[i], i, v)
  {
    var roots := map["slot" := x];
    v := SlotValuation(elem, roots, vals);
    SlotValuationGives(elem, roots, vals, "slot");
  }

  /** The symbol an update's function is applied to. */
  function ArgSym(u: Update, elem: ElemT): Sym {
    var x := SymOf("slot", [], elem);
    if u.body.Write? then SVector(x, elem) else x
  }

  lemma ArgSame(u: Update, elem: ElemT, x: Val, arg: Val, n: nat, v: Valuation)
    requires SameVal(SymOf("slot", [], elem), x, VElem(elem), n, v) && UpdateArg(u, elem, x, arg)
    ensures SameVal(ArgSym(u, elem), arg, UpdateArgType(u, elem), n, v)
  {
    hide SymOf;
    if u.body.Write? {
      TypedFits(false, arg, UpdateArgType(u, elem));
      var i :| 0 <= i < |arg.slots| && arg.slots[i] == x;
      assert Rel(SymOf("slot", [], elem), arg.slots[i], v);
    }
  }

  /** The symbols behind an update's goal. */
  lemma UpdateSymbols(solver: Solver, sig: Sigs, p: Program, m: Model, name: string)
    returns (count: nat, f: Lowered, hl: LowResult, hx: SymResult, fxhx: SymResult)
    requires Accepted(solver, sig, p, m) && name in m.updates
    ensures var u, x, g := m.updates[name], SymOf("slot", [], m.elem), MergeObligations(solver, p, m);
      g.Some? && f == g.value.fn && count >= g.value.st.count
      && LowerFn(solver, p, u.body.fn, ParamEnv(u.params), 1, LowState(count, [], [])) == Some(hl)
      && ApplySym(solver, p, hl.val, [ArgSym(u, m.elem)], LowState(hl.st.count, [], [])) == Some(hx)
      && ApplySym(solver, p, f, [x, hx.sym], hx.st) == Some(fxhx)
      && solver(EqualGoal(DeclsOf("slot", [], m.elem) + ParamDecls(u.params) + fxhx.st.decls, fxhx.sym, hx.sym,
        fxhx.st.hyps))
  {
    hide ProgramTyped, CombinatorOk, CombinatorSafe, UpdateChecked, SoundSolver, ElemOk, LowerFn, ApplySym, SymOf,
      DeclsOf, MergeObligations, ParamEnv, ParamDecls;
    var u := m.updates[name];
    assert SomeProof(solver, p, m, name);
    count :| OneUpdateProved(solver, p, m, name, count);
    f := MergeObligations(solver, p, m).value.fn;
    hl := LowerFn(solver, p, u.body.fn, ParamEnv(u.params), 1, LowState(count, [], [])).value;
    hx := ApplySym(solver, p, hl.val, [ArgSym(u, m.elem)], LowState(hl.st.count, [], [])).value;
    fxhx := ApplySym(solver, p, f, [SymOf("slot", [], m.elem), hx.sym], hx.st).value;
  }

  /** The update's function, applied on both sides. */
  lemma UpdateStep(solver: Solver, sig: Sigs, p: Program, m: Model, u: Update, x: Val, vals: seq<Val>, arg: Val,
    count: nat, hl: LowResult, hx: SymResult, v: Valuation) returns (h: Val, w: Valuation)
    requires ProgramTyped(false, sig, p) && |p| < MAX_EVAL_DEPTH && ElemOk(m.elem)
    requires Distinct(MethodNames(u.params)) && UpdateChecked(false, sig, p, u, m.elem)
    requires HasType(x, VElem(m.elem)) && ParamsTyped(u.params, vals) && UpdateArg(u, m.elem, x, arg)
    requires Gives(v, "slot", [], m.elem, x) && |v.reduces| == count
    requires forall i :: 0 <= i < |vals| ==> ParamGiven(vals[i], i, v)
    requires LowerFn(solver, p, u.body.fn, ParamEnv(u.params), 1, LowState(count, [], [])) == Some(hl)
    requires ApplySym(solver, p, hl.val, [ArgSym(u, m.elem)], LowState(hl.st.count, [], [])) == Some(hx)
    ensures UpdateVal(p, u, Bind(MethodNames(u.params), vals), arg) == Ok(h)
    ensures SameVal(hx.sym, h, VElem(m.elem), hx.st.count, w) && Extends(v, w) && StateOk(hx.st, w)
  {
    hide ProgramTyped, LowerFn, ApplySym, Fits, Shape, Rel, Older, SameFn, SameVal, SymOf, Gives, TypeOf, Safe,
      ApplyArgs, SafeApply, SubType, ParamEnv, ParamScope, RelEnv, OlderEnv, ShapeEnv, EnvOk, ScopeOk, ParamGiven,
      ElemOk, UpdateArg, ArgSym, ValueType, Apply, EvalFn;
    var env, elem := Bind(MethodNames(u.params), vals), VElem(m.elem);
    ParamsRel(u.params, vals, v, count);
    var t := TypeOf(sig, p, u.body.fn, ParamScope(u.params)).value;
    var f, w1 := FnRuns(solver, sig, p, u.body.fn, 1, ParamScope(u.params), ParamEnv(u.params), env,
      LowState(count, [], []), hl, v, t);
    StateCount(hl.st, w1);
    GivesExtends(v, w1, "slot", m.elem, x);
    RootSym("slot", m.elem, x, w1, hl.st.count);
    ArgSame(u, m.elem, x, arg, hl.st.count, w1);
    var ts := Repeat(UpdateArgType(u, m.elem), 1);
    var rt := ApplyArgs(t, ts).value;
    ArgTypeOk(u, m.elem);
    var syms, xs := [ArgSym(u, m.elem)], [arg];
    w := FnApplies(solver, sig, p, hl.val, f, t, syms, xs, ts, rt, LowState(hl.st.count, [], []), hx, w1);
    h := Apply(p, f, xs, 0).value;
    SameValSub(hx.sym, h, rt, elem, hx.st.count, w);
  }

  lemma ArgTypeOk(u: Update, elem: ElemT)
    requires ElemOk(elem)
    ensures ValueType(UpdateArgType(u, elem)) && ValueType(VElem(elem))
  {
  }

  lemma SameValSub(s: Sym, x: Val, a: Type, b: Type, n: nat, v: Valuation)
    requires SameVal(s, x, a, n, v) && SubType(a, b) && ValueType(a) && ValueType(b)
    ensures SameVal(s, x, b, n, v)
  {
    hide Rel, Older, Shape, Fits, SubType, ValueType;
    SubTypeSound(false, x, a, b);
    ShapeSub(s, a, b);
  }

  /** v with zeros for the reduces of earlier updates. */
  lemma PadReduces(v: Valuation, count: nat) returns (w: Valuation)
    requires |v.reduces| <= count
    ensures Extends(v, w) && |w.reduces| == count
  {
    w := v.(reduces := v.reduces + seq(count - |v.reduces|, _ => 0.0));
  }

  /**
    Every update is inflationary: on every slot of the element type, for all
    parameters in their types, and for `write` on every vector that holds the slot,
    the update yields an element h with merge(x, h) == h.
   */
  lemma UpdateIsInflationary(solver: Solver, sig: Sigs, p: Program, m: Model, name: string, x: Val, vals: seq<Val>,
    arg: Val)
    requires Accepted(solver, sig, p, m) && name in m.updates
    requires HasType(x, VElem(m.elem)) && ParamsTyped(m.updates[name].params, vals)
    requires UpdateArg(m.updates[name], m.elem, x, arg)
    ensures var h := UpdateVal(p, m.updates[name], Bind(MethodNames(m.updates[name].params), vals), arg);
      h.Ok? && Fits(false, h.value, VElem(m.elem)) && MergeVals(p, m.merge, x, h.value) == h
  {
    hide *;
    var u := m.updates[name];
    var count, f, hl, hx, fxhx := UpdateSymbols(solver, sig, p, m, name);
    var v := SlotAndParams(m.elem, x, vals);
    AcceptedParts(solver, sig, p, m, name);
    var t, r, w := MergeFnAt(solver, sig, p, m, f, count, v);
    ParamsExtend(vals, v, w);
    GivesExtends(v, w, "slot", m.elem, x);
    var h, w1 := UpdateStep(solver, sig, p, m, u, x, vals, arg, count, hl, hx, w);
    StateCount(hx.st, w1);
    GivesExtends(w, w1, "slot", m.elem, x);
    RootSym("slot", m.elem, x, w1, hx.st.count);
    MergeFnExtends(sig, p, m, f, r, t, count, w, hx.st.count, w1);
    var fh, w2 := MergeStep(solver, sig, p, m, f, r, t, SymOf("slot", [], m.elem), x, hx.sym, h, hx.st, fxhx, w1);
    SameValExtends(hx.sym, h, VElem(m.elem), hx.st.count, w1, fxhx.st.count, w2);
    GivesExtends(w1, w2, "slot", m.elem, x);
    RootSym("slot", m.elem, x, w2, 0);
    ParamsExtend(vals, w, w1);
    ParamsExtend(vals, w1, w2);
    ParamsRel(u.params, vals, w2, 0);
    InflationFrom(solver, m, u, fxhx, hx.sym, fh, h, w2);
  }

  lemma AcceptedParts(solver: Solver, sig: Sigs, p: Program, m: Model, name: string)
    requires Accepted(solver, sig, p, m) && name in m.updates
    ensures ProgramTyped(false, sig, p) && |p| < MAX_EVAL_DEPTH && ElemOk(m.elem) && SoundSolver(solver)
    ensures Distinct(MethodNames(m.updates[name].params)) && UpdateChecked(false, sig, p, m.updates[name], m.elem)
  {
    hide ProgramTyped, ElemOk, SoundSolver, UpdateChecked, Proved, CombinatorOk, CombinatorSafe;
  }

  lemma ParamsExtend(vals: seq<Val>, v: Valuation, w: Valuation)
    requires Extends(v, w) && forall i :: 0 <= i < |vals| ==> ParamGiven(vals[i], i, v)
    ensures forall i :: 0 <= i < |vals| ==> ParamGiven(vals[i], i, w)
  {
  }

  lemma MergeFnExtends(sig: Sigs, p: Program, m: Model, l: Lowered, f: Val, t: Type, n: nat, v: Valuation, n': nat,
    w: Valuation)
    requires MergeFn(sig, p, m, l, f, t, n, v) && Extends(v, w) && |v.reduces| == n <= n'
    ensures MergeFn(sig, p, m, l, f, t, n', w)
  {
    hide SameFn, EvalFn, TypeOf;
    SameFnExtends(sig, p, l, f, t, n, v, n', w);
  }

  /** The merge function relative to a later reduce counter. */
  lemma MergeFnAt(solver: Solver, sig: Sigs, p: Program, m: Model, f: Lowered, count: nat, v: Valuation)
    returns (t: Type, r: Val, w: Valuation)
    requires Accepted(solver, sig, p, m) && v.reduces == []
    requires var g := MergeObligations(solver, p, m); g.Some? && f == g.value.fn && count >= g.value.st.count
    ensures MergeFn(sig, p, m, f, r, t, count, w) && Extends(v, w) && |w.reduces| == count
  {
    hide Accepted, LowerFn, ApplySym, SymOf, DeclsOf, MergeFn, StateOk;
    var l := LowerFn(solver, p, m.merge, map[], 2, NO_REDUCES).value;
    var w0;
    t, r, w0 := MergeStarts(solver, sig, p, m, l, v);
    StateCount(l.st, w0);
    w := PadReduces(w0, count);
    MergeFnExtends(sig, p, m, f, r, t, l.st.count, w0, count, w);
  }

  lemma InflationFrom(solver: Solver, m: Model, u: Update, s: SymResult, hx: Sym, fh: Val, h: Val, v: Valuation)
    requires SoundSolver(solver) && ElemOk(m.elem) && StateOk(s.st, v)
    requires solver(EqualGoal(DeclsOf("slot", [], m.elem) + ParamDecls(u.params) + s.st.decls, s.sym, hx, s.st.hyps))
    requires Meets(DeclsOf("slot", [], m.elem), v) && Meets(ParamDecls(u.params), v)
    requires SameVal(s.sym, fh, VElem(m.elem), s.st.count, v) && SameVal(hx, h, VElem(m.elem), s.st.count, v)
    ensures fh == h && Fits(false, h, VElem(m.elem))
  {
    hide Rel, Shape, Fits, Older, ElemOk, LeavesSorted, LeavesEqual, DeclsOf, Meaning, SortOf;
    var vars := DeclsOf("slot", [], m.elem) + ParamDecls(u.params);
    var g := EqualGoal(vars + s.st.decls, s.sym, hx, s.st.hyps);
    MeetsConcat(DeclsOf("slot", [], m.elem), ParamDecls(u.params), v);
    assert Meets(s.st.decls, v);
    MeetsConcat(vars, s.st.decls, v);
    assert Valid(g) && Concluded(g, v);
    forall i | 0 <= i < |s.st.hyps|
      ensures Meaning(s.st.hyps[i], v) == VBool(true)
    {
      assert HypHolds(s.st.hyps[i], v);
    }
    GoalEquality(s.sym, hx, fh, h, m.elem, v);
  }

  // ----- results in the element type -----

  /** Every number in an element may be any rational. */
  predicate AnyNumbers(t: ElemT) {
    match t
    case ENum(n) => n == NUM_TOP
    case EStr => true
    case EStruct(fs) => forall i :: 0 <= i < |fs| ==> AnyNumbers(fs[i].typ)
  }

  /**
    Accepted, and the numbers merge and the updates return keep the signs their types name: the
    model is in the signed reading of type soundness, or its element type names no sign.
   */
  ghost predicate AcceptedTyped(solver: Solver, sig: Sigs, p: Program, m: Model) {
    Accepted(solver, sig, p, m) && (ModelTyped(true, sig, p, m) || AnyNumbers(m.elem))
  }

  lemma {:induction false} AnyNumbersFit(v: Val, t: ElemT)
    requires AnyNumbers(t) && Fits(false, v, VElem(t))
    ensures HasType(v, VElem(t))
    decreases t
  {
    match t
    case EStruct(fs) =>
      var gs := VElem(t).fields;
      forall i | 0 <= i < |gs|
        ensures HasType(v.fields[gs[i].name], gs[i].typ)
      {
        AnyNumbersFit(v.fields[gs[i].name], fs[i].typ);
      }
    case _ =>
  }

  /** A typed function term applied to typed arguments yields a value of its result type. */
  lemma FnResultTyped(sig: Sigs, p: Program, fn: Expr, scope: Scope, env: map<string, Val>, arg: Type, args: seq<Val>,
    elem: ElemT, f: Val, r: Val)
    requires ProgramTyped(true, sig, p) && ScopeOk(scope) && EnvOk(true, env, scope) && ElemOk(elem) && ValueType(arg)
    requires CombinatorOk(sig, p, fn, scope, arg, |args|, elem) && CombinatorSafe(true, sig, p, fn, scope, arg, |args|)
    requires forall i :: 0 <= i < |args| ==> HasType(args[i], arg)
    requires EvalFn(p, fn, env, |args|) == Ok(f) && Apply(p, f, args, 0) == Ok(r)
    ensures HasType(r, VElem(elem))
  {
    hide ProgramTyped, TypeOf, Safe, EnvOk, ScopeOk, Fits, HasFnType, ValueType, SubType, ApplyArgs, SafeApply, ElemOk,
      Eval, Apply, GoodFn, SigsOk;
    var t, ts := TypeOf(sig, p, fn, scope).value, Repeat(arg, |args|);
    var rt := ApplyArgs(t, ts).value;
    ElemValueType(elem);
    TypedSigs(true, sig, p);
    EvalSound(true, sig, p, fn, scope, t, env, 0);
    TypeOfShape(sig, p, fn, scope, t);
    ApplySound(true, sig, p, f, t, args, ts, 0, rt);
    ApplyArgsShape(t, ts, rt);
    NotFunc(rt);
    SubTypeSound(true, r, rt, VElem(elem));
  }

  lemma ElemValueType(elem: ElemT)
    requires ElemOk(elem)
    ensures ValueType(VElem(elem))
  {
  }

  /** Merge is a join that stays in the element type. */
  lemma MergeIsTypedJoin(solver: Solver, sig: Sigs, p: Program, m: Model, a: Val, b: Val, c: Val)
    requires AcceptedTyped(solver, sig, p, m)
    requires HasType(a, VElem(m.elem)) && HasType(b, VElem(m.elem)) && HasType(c, VElem(m.elem))
    ensures JoinLaws(p, m.merge, VElem(m.elem), a, b, c)
    ensures HasType(MergeVals(p, m.merge, a, b).value, VElem(m.elem))
  {
    hide Accepted, ProgramTyped, UpdateChecked, CombinatorOk, CombinatorSafe, ElemOk, Fits, EvalFn, Apply, AnyNumbers;
    MergeIsJoin(solver, sig, p, m, a, b, c);
    var r := MergeVals(p, m.merge, a, b).value;
    if AnyNumbers(m.elem) {
      AnyNumbersFit(r, m.elem);
    } else {
      var f := EvalFn(p, m.merge, map[], 2).value;
      EmptyScope();
      ElemValueType(m.elem);
      FnResultTyped(sig, p, m.merge, map[], map[], VElem(m.elem), [a, b], m.elem, f, r);
    }
  }

  lemma EmptyScope()
    ensures ScopeOk(map[]) && EnvOk(true, map[], map[])
  {
  }

  /** The parameters of a method, bound to typed values, fit its scope. */
  lemma ParamsFit(signed: bool, ps: seq<MethodParam>, vals: seq<Val>)
    requires ParamsTyped(ps, vals) && Distinct(MethodNames(ps))
    ensures ScopeOk(ParamScope(ps)) && EnvOk(signed, Bind(MethodNames(ps), vals), ParamScope(ps))
  {
    var names := MethodNames(ps);
    forall x | x in ParamScope(ps)
      ensures ValueType(ParamScope(ps)[x])
      ensures x in Bind(names, vals) && Fits(signed, Bind(names, vals)[x], ParamScope(ps)[x])
    {
      var i :| 0 <= i < |ps| && names[i] == x;
      BindAt(names, vals, i);
      BindAt(names, ScalarTypes(ps), i);
      TypedFits(signed, vals[i], ScalarType(ps[i].typ));
    }
  }

  /** Every update is inflationary and stays in the element type. */
  lemma UpdateIsTyped(solver: Solver, sig: Sigs, p: Program, m: Model, name: string, x: Val, vals: seq<Val>, arg: Val)
    requires AcceptedTyped(solver, sig, p, m) && name in m.updates
    requires HasType(x, VElem(m.elem)) && ParamsTyped(m.updates[name].params, vals)
    requires UpdateArg(m.updates[name], m.elem, x, arg)
    ensures var h := UpdateVal(p, m.updates[name], Bind(MethodNames(m.updates[name].params), vals), arg);
      h.Ok? && HasType(h.value, VElem(m.elem)) && MergeVals(p, m.merge, x, h.value) == h
  {
    hide Accepted, ProgramTyped, CombinatorOk, CombinatorSafe, ElemOk, Fits, EvalFn, Apply, AnyNumbers, MergeVals,
      ParamScope, EnvOk, ScopeOk, ValueType;
    UpdateIsInflationary(solver, sig, p, m, name, x, vals, arg);
    var u := m.updates[name];
    var env := Bind(MethodNames(u.params), vals);
    var h := UpdateVal(p, u, env, arg).value;
    if AnyNumbers(m.elem) {
      AnyNumbersFit(h, m.elem);
    } else {
      ParamsFit(true, u.params, vals);
      ArgTypeOk(u, m.elem);
      FnResultTyped(sig, p, u.body.fn, ParamScope(u.params), env, UpdateArgType(u, m.elem), [arg], m.elem,
        EvalFn(p, u.body.fn, env, 1).value, h);
    }
  }
}
