/**
  The last-writer-wins register, type-checked: the types of its merge function and of its
  write, under the signatures it declares.
 */
module RegisterTypes {
  import opened Options
  import opened NumTypes
  import opened Syntax
  import opened TypeRules
  import opened TypeSound
  import opened SlotSymbols
  import opened Prover
  import opened Convergence
  import opened LastWriterWins
  import C = Memos

  const SLOT := TStruct([TypedField("version", TNum(INT_NONNEG)), TypedField("value", TString)])

  /** The table of the functions merge and the write call, as declared. */
  const SIGS: Sigs := map["Merge" := SLOT, "maxVer" := TNum(INT_NONNEG), "NextX" := SLOT]

  lemma SlotIs()
    ensures VElem(SLOT_TYPE) == SLOT && ValueType(SLOT) && ElemOk(SLOT_TYPE)
  {
    assert VElem(SLOT_TYPE).fields == SLOT.fields;
  }

  /** The term has the type and is in the signed scope of soundness. */
  ghost predicate Typed(e: Expr, scope: Scope, t: Type) {
    TypeOf(SIGS, Register(), e, scope) == Some(t) && Safe(true, SIGS, Register(), e, scope)
  }

  lemma VarTyped(x: string, scope: Scope)
    requires x in scope
    ensures Typed(Var(x), scope, scope[x])
  {
  }

  lemma RefTyped(fn: string, scope: Scope)
    requires fn in SIGS
    ensures Typed(FnRef(fn), scope, TFunc(ParamTypes(Register()[fn].params), SIGS[fn], None, []))
  {
  }

  lemma LitTyped(q: real, scope: Scope)
    ensures Typed(NumLit(q), scope, LiteralType(q))
  {
  }

  lemma AtTyped(x: string, field: string, scope: Scope)
    requires x in scope && scope[x] == SLOT && field in {"version", "value"}
    ensures Typed(At(x, field), scope, if field == "version" then TNum(INT_NONNEG) else TString)
  {
    VarTyped(x, scope);
    SlotField(field);
  }

  lemma SlotField(field: string)
    requires field in {"version", "value"}
    ensures FindField(SLOT.fields, field) == Some(if field == "version" then TNum(INT_NONNEG) else TString)
  {
    assert SLOT.fields[1..] == [TypedField("value", TString)];
  }

  lemma TwoTyped(x: Expr, y: Expr, scope: Scope, t: Type, u: Type)
    requires Typed(x, scope, t) && Typed(y, scope, u) && !t.TFunc? && !u.TFunc?
    ensures TypesOf(SIGS, Register(), [x, y], scope) == Some([t, u])
  {
    hide TypeOf, Safe;
    C.TypesOfFrom(SIGS, Register(), [x, y], scope, [t, u]);
  }

  /** A term applied to two typed arguments. */
  lemma AppTyped(head: Expr, x: Expr, y: Expr, scope: Scope, f: Type, t: Type, u: Type, r: Type)
    requires Typed(head, scope, f) && f.TFunc? && Typed(x, scope, t) && Typed(y, scope, u) && !t.TFunc? && !u.TFunc?
    requires ApplyArgs(f, [t, u]) == Some(r) && SafeApply(f, [t, u])
    ensures Typed(App(head, [x, y]), scope, r)
  {
    hide ApplyArgs, SafeApply;
    TwoTyped(x, y, scope, t, u);
  }

  lemma PrimTyped(op: Prim, scope: Scope)
    ensures Typed(PrimRef(op), scope, TFunc([TNum(NUM_TOP), TNum(NUM_TOP)], TUnknown, Some(op), []))
  {
  }

  /** A primitive applied to two typed arguments. */
  lemma OpTyped(op: Prim, x: Expr, y: Expr, scope: Scope, t: Type, u: Type, r: Type)
    requires Typed(x, scope, t) && Typed(y, scope, u) && op != Mul
    requires (IsCmp(op) && (t.TString? || t.TNum?) && t == u && r == TBool)
      || (!IsCmp(op) && t.TNum? && u.TNum? && r == TNum(NumBin(op, t.num, u.num)))
    ensures Typed(App(PrimRef(op), [x, y]), scope, r)
  {
    hide TypeOf, Safe;
    var f := TFunc([TNum(NUM_TOP), TNum(NUM_TOP)], TUnknown, Some(op), []);
    PrimTyped(op, scope);
    assert [] + [t, u] == [t, u];
    assert ApplyArgs(f, [t, u]) == Some(r);
    AppTyped(PrimRef(op), x, y, scope, f, t, u, r);
  }

  lemma SameUnifies()
    ensures Unify(SLOT, SLOT) == Some(SLOT) && SafeUnify(SLOT, SLOT)
    ensures Unify(TUnknown, SLOT) == Some(SLOT)
  {
    var fs := SLOT.fields;
    SlotField("version");
    SlotField("value");
    assert fs[1..] == [TypedField("value", TString)] && fs[1..][1..] == [];
    assert UnifyFields([], fs) == Some([]);
    assert [TypedField("value", TString)] + [] == [TypedField("value", TString)];
    assert UnifyFields(fs[1..], fs) == Some(fs[1..]);
    assert [fs[0]] + fs[1..] == fs;
    assert UnifyFields(fs, fs) == Some(fs);
  }

  /** Guards whose results are all slots. */
  ghost predicate CasesTyped(cases: seq<GuardCase>, scope: Scope, acc: Type)
    requires cases != []
  {
    GuardsType(SIGS, Register(), cases, scope, acc) == Some(SLOT) && SafeGuards(true, SIGS, Register(), cases, scope, acc)
  }

  lemma WhenTyped(cases: seq<GuardCase>, scope: Scope, acc: Type)
    requires |cases| > 1 && cases[0].When? && acc in {TUnknown, SLOT}
    requires Typed(cases[0].cond, scope, TBool) && Typed(cases[0].result, scope, SLOT)
    requires CasesTyped(cases[1..], scope, SLOT)
    ensures CasesTyped(cases, scope, acc)
  {
    hide TypeOf, Safe, Unify, SafeUnify;
    SameUnifies();
    NothingClashes();
  }

  lemma NothingClashes()
    ensures SafeUnify(TUnknown, SLOT)
  {
  }

  lemma OtherwiseTyped(cases: seq<GuardCase>, scope: Scope)
    requires |cases| == 1 && cases[0].Otherwise? && Typed(cases[0].result, scope, SLOT)
    ensures CasesTyped(cases, scope, SLOT)
  {
    hide TypeOf, Safe, Unify, SafeUnify;
    SameUnifies();
    assert cases[1..] == [] && SafeGuards(true, SIGS, Register(), cases[1..], scope, SLOT);
  }

  lemma MergeBody(scope: Scope)
    requires "a" in scope && scope["a"] == SLOT && "b" in scope && scope["b"] == SLOT
    ensures Typed(MERGE.body, scope, SLOT)
  {
    hide TypeOf, Safe, GuardsType, SafeGuards;
    var cs := MERGE_CASES;
    forall field | field in {"version", "value"}
      ensures Typed(Cmp(Gt, At("a", field), At("b", field)), scope, TBool)
      ensures Typed(Cmp(Lt, At("a", field), At("b", field)), scope, TBool)
    {
      var t := if field == "version" then TNum(INT_NONNEG) else TString;
      AtTyped("a", field, scope);
      AtTyped("b", field, scope);
      OpTyped(Gt, At("a", field), At("b", field), scope, t, t, TBool);
      OpTyped(Lt, At("a", field), At("b", field), scope, t, t, TBool);
    }
    VarTyped("a", scope);
    VarTyped("b", scope);
    assert cs[1..][1..] == cs[2..] && cs[2..][1..] == cs[3..];
    OtherwiseTyped(cs[3..], scope);
    WhenTyped(cs[2..], scope, SLOT);
    WhenTyped(cs[1..], scope, SLOT);
    WhenTyped(cs, scope, TUnknown);
    GuardsTyped(cs, scope);
  }

  lemma GuardsTyped(cases: seq<GuardCase>, scope: Scope)
    requires cases != [] && CasesTyped(cases, scope, TUnknown)
    ensures Typed(Guards(cases), scope, SLOT)
  {
  }

  // ----- the write -----

  lemma MaxBody(scope: Scope)
    requires "acc" in scope && scope["acc"] == TNum(INT_NONNEG) && "e" in scope && scope["e"] == SLOT
    ensures Typed(MAX_VER.body, scope, TNum(INT_NONNEG))
  {
    hide TypeOf, Safe;
    VarTyped("acc", scope);
    AtTyped("e", "version", scope);
    OpTyped(Max, Var("acc"), At("e", "version"), scope, TNum(INT_NONNEG), TNum(INT_NONNEG), TNum(INT_NONNEG));
  }

  const REDUCE := Reduce(FnRef("maxVer"), NumLit(0.0), Var("v"))

  const MAX_TYPE := TFunc([TNum(INT_NONNEG), SLOT], TNum(INT_NONNEG), None, [])

  /** Zero widens to a non-negative integer in one round, and stays there. */
  lemma ReduceWidens()
    ensures ApplyArgs(MAX_TYPE, [TNum(INT_NONNEG), SLOT]) == Some(TNum(INT_NONNEG))
    ensures ReduceType(MAX_TYPE, TNum(NumType(DInt, SZero)), SLOT, REDUCE_ROUNDS) == Some(TNum(INT_NONNEG))
  {
    var zero, more := TNum(NumType(DInt, SZero)), TNum(INT_NONNEG);
    C.SubTypeReflexive(SLOT);
    SlotIs();
    assert ApplyArgs(MAX_TYPE, [zero, SLOT]) == Some(more);
    assert ApplyArgs(MAX_TYPE, [more, SLOT]) == Some(more);
    assert Unify(zero, more) == Some(more) && Unify(more, more) == Some(more);
    assert ReduceType(MAX_TYPE, more, SLOT, REDUCE_ROUNDS - 1) == Some(more);
  }

  lemma ReduceTyped(scope: Scope)
    requires "v" in scope && scope["v"] == TVector(SLOT)
    ensures Typed(REDUCE, scope, TNum(INT_NONNEG))
  {
    hide ReduceType, ApplyArgs;
    RefTyped("maxVer", scope);
    SlotIs();
    assert ParamTypes(MAX_VER.params) == [TNum(INT_NONNEG), SLOT];
    LitTyped(0.0, scope);
    VarTyped("v", scope);
    ReduceWidens();
  }

  lemma NextBodyTyped(scope: Scope)
    requires "s" in scope && scope["s"] == TString && "v" in scope && scope["v"] == TVector(SLOT)
    ensures Typed(NEXT.body, scope, SLOT)
  {
    hide TypeOf, Safe;
    ReduceTyped(scope);
    LitTyped(1.0, scope);
    VarTyped("s", scope);
    assert IsInt(1.0);
    OpTyped(Add, NumLit(1.0), REDUCE, scope, TNum(INT_NONNEG), TNum(INT_NONNEG), TNum(INT_NONNEG));
    StructTyped(App(PrimRef(Add), [NumLit(1.0), REDUCE]), Var("s"), scope);
  }

  lemma StructTyped(version: Expr, value: Expr, scope: Scope)
    requires Typed(version, scope, TNum(INT_NONNEG)) && Typed(value, scope, TString)
    ensures Typed(StructLit([FieldInit("version", version), FieldInit("value", value)]), scope, SLOT)
  {
    var inits := [FieldInit("version", version), FieldInit("value", value)];
    assert inits[0].value == version && inits[1].value == value;
    C.InitTypesFrom(SIGS, Register(), inits, scope, SLOT.fields);
  }

  // ----- the register -----

  lemma ScopeAt(d: FnDef, i: nat)
    requires i < |d.params| && Distinct(ParamNames(d.params))
    ensures d.params[i].name in FnScope(d) && FnScope(d)[d.params[i].name] == d.params[i].typ
  {
    BindAt(ParamNames(d.params), ParamTypes(d.params), i);
  }

  ghost predicate Listed(fn: string) {
    fn in SIGS && fn in Register() && BodyOk(SIGS, Register(), fn)
    && Safe(true, SIGS, Register(), Register()[fn].body, FnScope(Register()[fn]))
  }

  lemma MergeListed()
    ensures Listed("Merge")
  {
    hide TypeOf, Safe, FnScope;
    SlotIs();
    C.SubTypeReflexive(SLOT);
    ScopeAt(MERGE, 0);
    ScopeAt(MERGE, 1);
    MergeBody(FnScope(MERGE));
  }

  lemma MaxListed()
    ensures Listed("maxVer")
  {
    hide TypeOf, Safe, FnScope;
    SlotIs();
    ScopeAt(MAX_VER, 0);
    ScopeAt(MAX_VER, 1);
    MaxBody(FnScope(MAX_VER));
  }

  lemma NextListed()
    ensures Listed("NextX")
  {
    hide TypeOf, Safe, FnScope;
    SlotIs();
    C.SubTypeReflexive(SLOT);
    ScopeAt(NEXT, 0);
    ScopeAt(NEXT, 1);
    NextBodyTyped(FnScope(NEXT));
  }

  lemma Declared()
    ensures SigsOk(SIGS, Register())
  {
    SlotIs();
    assert ValueType(TNum(INT_NONNEG)) && ValueType(TVector(SLOT)) && ValueType(TString);
  }

  /** Every listed function agrees with its declared type. */
  lemma RegisterTyped()
    ensures ProgramTyped(true, SIGS, Register())
  {
    Declared();
    MergeListed();
    MaxListed();
    NextListed();
    hide BodyOk, Safe, FnScope, SigsOk, Register;
  }

  lemma MergeCombines()
    ensures CombinatorOk(SIGS, Register(), FnRef("Merge"), map[], VElem(SLOT_TYPE), 2, SLOT_TYPE)
    ensures CombinatorSafe(true, SIGS, Register(), FnRef("Merge"), map[], VElem(SLOT_TYPE), 2)
  {
    SlotIs();
    C.SubTypeReflexive(SLOT);
    hide TypeOf, Safe, SubType;
    RefTyped("Merge", map[]);
    assert ParamTypes(MERGE.params) == [SLOT, SLOT] == Repeat(SLOT, 2);
    var f := TFunc([SLOT, SLOT], SLOT, None, []);
    assert ApplyArgs(f, Repeat(SLOT, 2)) == Some(SLOT);
  }

  /** `NextX s`, still expecting the vector. */
  const SET_TYPE := TFunc([TVector(SLOT)], SLOT, None, [TString])

  lemma SetTyped()
    ensures Typed(SET.body.fn, ParamScope(SET.params), SET_TYPE)
  {
    var scope := ParamScope(SET.params);
    assert MethodNames(SET.params) == ["s"] && ScalarTypes(SET.params) == [TString];
    BindAt(["s"], [TString], 0);
    SlotIs();
    hide TypeOf, ParamScope;
    RefTyped("NextX", scope);
    assert ParamTypes(NEXT.params) == [TString, TVector(SLOT)];
    var f := TFunc([TString, TVector(SLOT)], SLOT, None, []);
    VarTyped("s", scope);
    C.OneArg(SIGS, Register(), Var("s"), scope, TString);
    C.AppTypeFrom(SIGS, Register(), SET.body.fn, scope, f, [TString]);
    assert [] + [TString] == [TString] && f.params[1..] == [TVector(SLOT)];
    assert ApplyArgs(f, [TString]) == Some(SET_TYPE);
  }

  lemma SetCombines()
    ensures UpdateChecked(true, SIGS, Register(), SET, SLOT_TYPE)
  {
    SlotIs();
    C.SubTypeReflexive(SLOT);
    C.SubTypeReflexive(TVector(SLOT));
    hide TypeOf, Safe, SubType, ParamScope;
    SetTyped();
    assert Repeat(TVector(SLOT), 1) == [TVector(SLOT)];
    assert ApplyArgs(SET_TYPE, Repeat(TVector(SLOT), 1)) == Some(SLOT);
  }

  /** The register's model type-checks, in the signed reading: versions are kept non-negative integers. */
  lemma ModelIsTyped()
    ensures ModelTyped(true, SIGS, Register(), RegisterModel())
  {
    hide ProgramTyped, CombinatorOk, CombinatorSafe, UpdateChecked;
    RegisterTyped();
    MergeCombines();
    SetCombines();
    SlotIs();
    assert MethodNames(SET.params) == ["s"];
  }
}
