/**
  The builder, from resolved terms to deployable models: resolve the element types, check the
  functions, check merge, queries and updates of every vector type, and prove it convergent.
  What it accepts is accepted in the sense of the convergence theorem, under the part of the
  checker's table that merge and the updates can reach.
 */
module Build {
  import opened Options
  import opened Syntax
  import opened Interp
  import opened TypeRules
  import opened TypeSound
  import opened Calls
  import opened Memos
  import opened Symbolic
  import opened SlotSymbols
  import opened Prover
  import opened Convergence
  import opened Vectors
  import opened ReplicaStates
  import K = Checker
  import T = TypeReg

  // ----- element types -----

  /** Whatever a definition denotes is a well-formed element type: its field names are distinct at every level. */
  lemma {:induction false} UnfoldedOk(defs: T.Defs, name: string, fuel: nat)
    requires name in defs && T.Unfold(defs, name, fuel).Some?
    ensures ElemOk(T.Unfold(defs, name, fuel).value)
    decreases fuel, 2, 0
  {
    match defs[name]
    case StructDef(fs) => UnfoldedFieldsOk(defs, fs, fuel - 1);
    case VectorOfStruct(fs) => UnfoldedFieldsOk(defs, fs, fuel - 1);
    case VectorOf(tok) => UnfoldedTokenOk(defs, tok, fuel - 1);
    case AliasDef(tok) => UnfoldedTokenOk(defs, tok, fuel - 1);
  }

  lemma {:induction false} UnfoldedTokenOk(defs: T.Defs, tok: T.Token, fuel: nat)
    requires T.UnfoldToken(defs, tok, fuel).Some?
    ensures ElemOk(T.UnfoldToken(defs, tok, fuel).value)
    decreases fuel, 3, 0
  {
    if T.Target(defs, tok).Some? {
      UnfoldedOk(defs, T.Target(defs, tok).value, fuel);
    }
  }

  lemma {:induction false} UnfoldedFieldsOk(defs: T.Defs, fs: seq<T.FieldSpec>, fuel: nat)
    requires T.UnfoldFields(defs, fs, fuel).Some?
    ensures var r := T.UnfoldFields(defs, fs, fuel).value;
      |r| == |fs| && (forall i :: 0 <= i < |fs| ==> r[i].name == fs[i].name) && ElemOk(EStruct(r))
    decreases fuel, 4, |fs|
  {
    hide ElemOk, T.UnfoldToken;
    if fs == [] {
      NoFields();
    } else {
      var k := |fs| - 1;
      var init, t := T.UnfoldFields(defs, fs[..k], fuel).value, T.UnfoldToken(defs, fs[k].tok, fuel).value;
      UnfoldedFieldsOk(defs, fs[..k], fuel);
      UnfoldedTokenOk(defs, fs[k].tok, fuel);
      FieldAdded(init, ElemField(fs[k].name, t));
    }
  }

  lemma NoFields()
    ensures ElemOk(EStruct([]))
  {
  }

  lemma FieldAdded(fs: seq<ElemField>, f: ElemField)
    requires ElemOk(EStruct(fs)) && ElemOk(f.typ) && forall i :: 0 <= i < |fs| ==> fs[i].name != f.name
    ensures ElemOk(EStruct(fs + [f]))
  {
    var gs, hs := VElem(EStruct(fs)).fields, VElem(EStruct(fs + [f])).fields;
    assert hs == gs + [TypedField(f.name, VElem(f.typ))];
  }

  /** A resolved element type is fit for the prover. */
  lemma DenotedOk(defs: T.Defs, name: string, t: ElemT)
    requires T.Denotes(defs, name, t)
    ensures ElemOk(t)
  {
    hide ElemOk;
    var fuel: nat :| T.Unfold(defs, name, fuel) == Some(t);
    UnfoldedOk(defs, name, fuel);
  }

  // ----- what merge and the updates reach -----

  /** The functions that merge and the updates mention. */
  function Entries(m: Model): set<string> {
    Refs(m.merge) + set name, f | name in m.updates && f in Refs(m.updates[name].body.fn) :: f
  }

  /** All functions that merge and the updates can reach. */
  function Live(p: Program, m: Model): set<string> {
    Closure(p, Entries(m) * p.Keys)
  }

  /** The part of a table that lists the given functions. */
  function Listed(sig: Sigs, fns: set<string>): Sigs {
    map fn | fn in sig && fn in fns :: sig[fn]
  }

  lemma LiveCalls(p: Program, m: Model, sig: Sigs, fn: string)
    requires sig.Keys == p.Keys && fn in Live(p, m)
    ensures fn in p && Agree(sig, Listed(sig, Live(p, m)), Refs(p[fn].body))
  {
    var live := Live(p, m);
    forall g | g in Refs(p[fn].body) && g in sig
      ensures g in live
    {
      assert CallsTo(p, fn, g);
      ClosureClosed(p, Entries(m) * p.Keys, fn, g);
    }
  }

  /** What the builder checks of a model, under the finished table. */
  predicate ModelChecked(sig: Sigs, p: Program, m: Model) {
    CombinatorOk(sig, p, m.merge, map[], VElem(m.elem), 2, m.elem)
    && forall name :: name in m.updates ==> UpdateOk(sig, p, m.updates[name], m.elem)
  }

  predicate DistinctNames(ps: seq<MethodParam>) {
    forall i, j :: 0 <= i < j < |ps| ==> ps[i].name != ps[j].name
  }

  predicate UpdateOk(sig: Sigs, p: Program, u: Update, elem: ElemT) {
    DistinctNames(u.params)
    && CombinatorOk(sig, p, u.body.fn, ParamScope(u.params), UpdateArgType(u, elem), 1, elem)
  }

  /** Merge, the updates and all they reach are in the scope of type soundness. */
  predicate LiveSafe(signed: bool, sig: Sigs, p: Program, m: Model) {
    (forall fn :: fn in sig && fn in p ==> Safe(signed, sig, p, p[fn].body, FnScope(p[fn])))
    && CombinatorSafe(signed, sig, p, m.merge, map[], VElem(m.elem), 2)
    && forall name :: name in m.updates ==>
      var u := m.updates[name];
      CombinatorSafe(signed, sig, p, u.body.fn, ParamScope(u.params), UpdateArgType(u, m.elem), 1)
  }

  lemma CombinatorMoves(a: Sigs, b: Sigs, p: Program, fn: Expr, scope: Scope, arg: Type, want: nat, elem: ElemT)
    requires CombinatorOk(a, p, fn, scope, arg, want, elem) && Agree(a, b, Refs(fn))
    ensures CombinatorOk(b, p, fn, scope, arg, want, elem)
  {
    hide TypeOf, ApplyArgs, SubType;
    TypeOfMoves(a, b, p, fn, scope, TypeOf(a, p, fn, scope).value);
  }

  /** The live part of a consistent table agrees with every body it lists. */
  lemma LiveBodies(sig: Sigs, p: Program, m: Model, fn: string)
    requires Consistent(sig, p) && sig.Keys == p.Keys && fn in Listed(sig, Live(p, m))
    ensures fn in p && BodyOk(Listed(sig, Live(p, m)), p, fn)
  {
    hide TypeOf, Live, Refs, SubType, Explained, ValueType, SigsOk, Agree;
    LiveCalls(p, m, sig, fn);
    assert BodyOk(sig, p, fn);
    TypeOfMoves(sig, Listed(sig, Live(p, m)), p, p[fn].body, FnScope(p[fn]), TypeOf(sig, p, p[fn].body, FnScope(p[fn])).value);
  }

  lemma LiveSigs(sig: Sigs, p: Program, m: Model)
    requires Consistent(sig, p)
    ensures SigsOk(Listed(sig, Live(p, m)), p)
  {
    hide Live, Explained, BodyOk;
  }

  /** The live part of a consistent table types the live part of the program. */
  lemma LiveTyped(signed: bool, sig: Sigs, p: Program, m: Model)
    requires Consistent(sig, p) && sig.Keys == p.Keys && ElemOk(m.elem) && ModelChecked(sig, p, m)
    requires LiveSafe(signed, Listed(sig, Live(p, m)), p, m)
    ensures ModelTyped(signed, Listed(sig, Live(p, m)), p, m)
  {
    hide Consistent, Safe, CombinatorOk, CombinatorSafe, Live, Refs, ElemOk, Agree, SigsOk, BodyOk, Listed;
    var sub := Listed(sig, Live(p, m));
    LiveSigs(sig, p, m);
    forall fn | fn in sub
      ensures fn in p && BodyOk(sub, p, fn)
    {
      LiveBodies(sig, p, m, fn);
    }
    EntriesLive(sig, p, m);
    CombinatorMoves(sig, sub, p, m.merge, map[], VElem(m.elem), 2, m.elem);
    forall name | name in m.updates
      ensures Distinct(MethodNames(m.updates[name].params)) && UpdateChecked(signed, sub, p, m.updates[name], m.elem)
    {
      var u := m.updates[name];
      assert UpdateOk(sig, p, u, m.elem);
      CombinatorMoves(sig, sub, p, u.body.fn, ParamScope(u.params), UpdateArgType(u, m.elem), 1, m.elem);
    }
  }

  lemma EntriesLive(sig: Sigs, p: Program, m: Model)
    requires sig.Keys == p.Keys
    ensures var sub := Listed(sig, Live(p, m));
      Agree(sig, sub, Refs(m.merge))
      && forall name :: name in m.updates ==> Agree(sig, sub, Refs(m.updates[name].body.fn))
  {
    hide Refs;
    forall name, f | name in m.updates && f in Refs(m.updates[name].body.fn) && f in sig
      ensures f in Live(p, m)
    {
      assert f in Entries(m);
    }
  }

  // ----- the builder -----

  /** What a plan declares for a vector type. */
  datatype Decl = Decl(merge: Expr, updates: map<string, Update>, queries: map<string, Query>)

  /** The type a query answers with, if the checker accepts it. */
  function QueryResult(sig: Sigs, p: Program, q: Query, elem: ElemT): (r: Option<Type>)
    ensures r.Some? ==> QueryChecked(sig, p, q, elem, r.value)
  {
    var t :- TypeOf(sig, p, q.body, ParamScope(q.params));
    var vec := TVector(VElem(elem));
    if t.TFunc? && |t.params| == 1 && t.params[0].TVector? && SubType(vec, t.params[0]) then
      var result :- ApplyArgs(t, [vec]);
      if result.TFunc? || ContainsVector(result) then None else Some(result)
    else None
  }

  predicate QueriesChecked(sig: Sigs, p: Program, queries: map<string, Query>, elem: ElemT) {
    forall name :: name in queries ==>
      DistinctNames(queries[name].params) && QueryResult(sig, p, queries[name], elem).Some?
  }

  /** The model of one vector type is what its definition denotes, checked and proved. */
  ghost predicate BuiltModel(solver: Solver, sig: Sigs, p: Program, defs: T.Defs, name: string, d: Decl, m: Model) {
    T.Denotes(defs, name, m.elem) && m.merge == d.merge && m.updates == d.updates && ModelChecked(sig, p, m)
    && QueriesChecked(sig, p, d.queries, m.elem) && Proved(solver, p, m)
  }

  predicate VectorNamed(defs: T.Defs, name: string) {
    name in defs && T.IsVector(defs[name])
  }

  /**
    Builds every vector type of a plan. Success leaves the checker's table, and every vector
    type with a model that is what was declared, checked under that table and proved.
   */
  method BuildPlan(solver: Solver, defs: T.Defs, typeOrder: seq<string>, p: Program, fnOrder: seq<string>,
    decls: map<string, Decl>) returns (r: Option<map<string, Model>>, sig: Sigs)
    requires (forall n :: n in typeOrder <==> n in defs) && K.Lists(fnOrder, p) && Declared(p)
    ensures r.Some? ==> K.Check(p, fnOrder).val == Some(sig)
    ensures r.Some? ==> forall name :: name in defs ==> T.Finite(defs, name)
    ensures r.Some? ==> forall name :: name in r.value <==> VectorNamed(defs, name)
    ensures r.Some? ==> forall name :: name in r.value ==>
      name in decls && BuiltModel(solver, sig, p, defs, name, decls[name], r.value[name])
  {
    hide ModelChecked, QueriesChecked, Proved, K.Check, T.Denotes, T.Finite;
    sig := map[];
    var resolver := new T.Resolver(defs);
    var types := resolver.ResolveAll(typeOrder);
    if !types.Good? {
      return None, sig;
    }
    var checker := new K.Checker(p);
    var ok := checker.CheckAll(fnOrder);
    if !ok {
      return None, sig;
    }
    sig := checker.result;
    var models: map<string, Model> := map[];
    for i := 0 to |typeOrder|
      invariant forall name :: name in models <==> VectorNamed(defs, name) && name in typeOrder[..i]
      invariant forall name :: name in models ==>
        name in decls && BuiltModel(solver, sig, p, defs, name, decls[name], models[name])
    {
      var name := typeOrder[i];
      assert name in defs && typeOrder[..i + 1] == typeOrder[..i] + [name];
      if T.IsVector(defs[name]) {
        if name !in decls {
          return None, sig;
        }
        var d := decls[name];
        var m := Model(types.value[name], d.merge, d.updates);
        if !ModelChecked(sig, p, m) || !QueriesChecked(sig, p, d.queries, m.elem) {
          return None, sig;
        }
        var proved := Prove(solver, p, m);
        if !proved {
          return None, sig;
        }
        models := models[name := m];
      }
    }
    assert typeOrder[..|typeOrder|] == typeOrder;
    r := Some(models);
  }

  /**
    What the builder accepts is accepted: when no call path returns to an unannotated function,
    a built model whose live functions are in the scope of type soundness meets the convergence
    theorem, signed or not, under the live part of the checker's table. What other functions of
    the plan do is irrelevant.
   */
  lemma BuiltIsAccepted(solver: Solver, defs: T.Defs, p: Program, fnOrder: seq<string>, sig: Sigs, name: string, d: Decl,
    m: Model)
    requires Declared(p) && K.Lists(fnOrder, p) && K.Check(p, fnOrder).val == Some(sig)
    requires forall f :: f in p && p[f].ret.None? ==> !OnCycle(p, f)
    requires BuiltModel(solver, sig, p, defs, name, d, m) && SoundSolver(solver) && |p| < MAX_EVAL_DEPTH
    ensures var sub := Listed(sig, Live(p, m));
      (LiveSafe(false, sub, p, m) ==> Accepted(solver, sub, p, m))
      && (LiveSafe(false, sub, p, m) && (LiveSafe(true, sub, p, m) || AnyNumbers(m.elem)) ==>
        AcceptedTyped(solver, sub, p, m))
  {
    hide Declared, Consistent, K.Check, OnCycle, ModelChecked, ModelTyped, LiveSafe, Proved, SoundSolver, ElemOk, Live,
      QueriesChecked, T.Denotes, AnyNumbers;
    K.CheckedExactly(p, fnOrder);
    DenotedOk(defs, name, m.elem);
    var sub := Listed(sig, Live(p, m));
    if LiveSafe(false, sub, p, m) {
      LiveTyped(false, sig, p, m);
      if LiveSafe(true, sub, p, m) {
        LiveTyped(true, sig, p, m);
      }
    }
  }
}
