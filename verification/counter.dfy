/**
  The counter of the documentation, from both sides: with max as merge an exact solver
  accepts it, and with + as merge no sound solver does.
 */
module Counter {
  import opened Options
  import opened NumTypes
  import opened Syntax
  import opened Interp
  import opened TypeRules
  import opened TypeSound
  import opened Symbolic
  import opened Lowering
  import opened Prover
  import opened Convergence
  import C = Memos

  const RAT_NONNEG := NumType(DRat, SNonNeg)

  const ADD := Update([MethodParam("k", ScalarNum(RAT_NONNEG))], Local(App(PrimRef(Add), [Var("k")])))

  /** Each node adds to its own slot; slots are non-negative rationals. */
  function CounterModel(merge: Prim): Model {
    Model(ENum(RAT_NONNEG), PrimRef(merge), map["Add" := ADD])
  }

  function Slot(root: string): Sym {
    SVar(Leaf(root, []), SortNum)
  }

  function SlotDecl(root: string): VarDecl {
    NumDecl(Leaf(root, []), RAT_NONNEG)
  }

  lemma PrimCall(solver: Solver, op: Prim, a: Sym, b: Sym, st: LowState)
    requires !IsCmp(op)
    ensures ApplySym(solver, map[], LFn(CalleePrim(op), []), [a, b], st) == Some(SymResult(SBin(op, a, b), st))
  {
    assert [] + [a, b] == [a, b];
  }

  /** The goals of the merge laws. */
  lemma MergeGoalsAre(solver: Solver, op: Prim)
    requires !IsCmp(op)
    ensures var a, b, c := Slot("a"), Slot("b"), Slot("c");
      var da, db, dc := [SlotDecl("a")], [SlotDecl("b")], [SlotDecl("c")];
      MergeObligations(solver, map[], CounterModel(op)) == Some(MergeGoals(
        EqualGoal(da + db, SBin(op, a, b), SBin(op, b, a), []),
        EqualGoal(da + db + dc, SBin(op, a, SBin(op, b, c)), SBin(op, SBin(op, a, b), c), []),
        EqualGoal(da, SBin(op, a, a), a, []),
        LFn(CalleePrim(op), []), NO_REDUCES))
  {
    hide ApplySym;
    var a, b, c := Slot("a"), Slot("b"), Slot("c");
    PrimCall(solver, op, a, b, NO_REDUCES);
    PrimCall(solver, op, b, a, NO_REDUCES);
    PrimCall(solver, op, b, c, NO_REDUCES);
    PrimCall(solver, op, a, SBin(op, b, c), NO_REDUCES);
    PrimCall(solver, op, SBin(op, a, b), c, NO_REDUCES);
    PrimCall(solver, op, a, a, NO_REDUCES);
  }

  lemma MaxGoalsValid()
    ensures var a, b, c := Slot("a"), Slot("b"), Slot("c");
      var da, db, dc := [SlotDecl("a")], [SlotDecl("b")], [SlotDecl("c")];
      Valid(EqualGoal(da + db, SBin(Max, a, b), SBin(Max, b, a), []))
      && Valid(EqualGoal(da + db + dc, SBin(Max, a, SBin(Max, b, c)), SBin(Max, SBin(Max, a, b), c), []))
      && Valid(EqualGoal(da, SBin(Max, a, a), a, []))
  {
    var a, b, c := Slot("a"), Slot("b"), Slot("c");
    var left, right := SBin(Max, a, SBin(Max, b, c)), SBin(Max, SBin(Max, a, b), c);
    assert SortOf(SBin(Max, b, c)) == SortOf(SBin(Max, a, b)) == Some(SortNum);
    forall v: Valuation
      ensures Meaning(left, v) == Meaning(right, v)
    {
      MaxMeaning(b, c, v);
      MaxMeaning(a, b, v);
      MaxMeaning(a, SBin(Max, b, c), v);
      MaxMeaning(SBin(Max, a, b), c, v);
    }
  }

  lemma MaxMeaning(a: Sym, b: Sym, v: Valuation)
    requires Meaning(a, v).VNum? && Meaning(b, v).VNum?
    ensures Meaning(SBin(Max, a, b), v) == VNum(Arith(Max, Meaning(a, v).num, Meaning(b, v).num))
  {
  }

  lemma AddGoal(solver: Solver, st: LowState)
    requires st == NO_REDUCES
    ensures var x, k := Slot("slot"), SVar(ParamVar(0), SortNum);
      UpdateObligation(solver, map[], CounterModel(Max), ADD, LFn(CalleePrim(Max), []), 0)
      == Some(UpdateGoal(
        EqualGoal([SlotDecl("slot")] + [NumDecl(ParamVar(0), RAT_NONNEG)] + [], SBin(Max, x, SBin(Add, k, x)),
          SBin(Add, k, x), []),
        NO_REDUCES))
  {
    hide ApplySym;
    var x, k := Slot("slot"), SVar(ParamVar(0), SortNum);
    AddLowers(solver);
    AddApplies(solver, k, x);
    PrimCall(solver, Max, x, SBin(Add, k, x), NO_REDUCES);
    assert ParamDecls(ADD.params) == [NumDecl(ParamVar(0), RAT_NONNEG)];
  }

  lemma AddLowers(solver: Solver)
    ensures LowerFn(solver, map[], ADD.body.fn, ParamEnv(ADD.params), 1, LowState(0, [], []))
      == Some(LowResult(LFn(CalleePrim(Add), [SVar(ParamVar(0), SortNum)]), NO_REDUCES))
  {
    var k := SVar(ParamVar(0), SortNum);
    var env := ParamEnv(ADD.params);
    assert MethodNames(ADD.params) == ["k"] && ParamSyms(ADD.params) == [k];
    BindAt(["k"], [k], 0);
    var args := [Var("k")];
    assert args[1..] == [];
    assert LowerArgs(solver, map[], args[1..], env, {}, NO_REDUCES) == Some(SymsResult([], NO_REDUCES));
    assert LowerVal(solver, map[], args[0], env, {}, NO_REDUCES) == Some(SymResult(k, NO_REDUCES));
    assert [k] + [] == [k] && [] + [k] == [k];
  }

  lemma AddApplies(solver: Solver, k: Sym, x: Sym)
    ensures ApplySym(solver, map[], LFn(CalleePrim(Add), [k]), [x], LowState(0, [], []))
      == Some(SymResult(SBin(Add, k, x), NO_REDUCES))
  {
    assert [k] + [x] == [k, x];
  }

  lemma AddGoalValid()
    ensures var x, k := Slot("slot"), SVar(ParamVar(0), SortNum);
      Valid(EqualGoal([SlotDecl("slot")] + [NumDecl(ParamVar(0), RAT_NONNEG)] + [], SBin(Max, x, SBin(Add, k, x)),
        SBin(Add, k, x), []))
  {
    var x, k := Slot("slot"), SVar(ParamVar(0), SortNum);
    var vars := [SlotDecl("slot")] + [NumDecl(ParamVar(0), RAT_NONNEG)] + [];
    forall v: Valuation | Meets(vars, v)
      ensures Meaning(SBin(Max, x, SBin(Add, k, x)), v) == Meaning(SBin(Add, k, x), v)
    {
      assert DeclHolds(vars[1], v);
    }
  }

  // ----- typing -----

  lemma MaxTyped()
    ensures CombinatorOk(map[], map[], PrimRef(Max), map[], TNum(RAT_NONNEG), 2, ENum(RAT_NONNEG))
    ensures CombinatorSafe(true, map[], map[], PrimRef(Max), map[], TNum(RAT_NONNEG), 2)
  {
    var t := TFunc([TNum(NUM_TOP), TNum(NUM_TOP)], TUnknown, Some(Max), []);
    assert TypeOf(map[], map[], PrimRef(Max), map[]) == Some(t);
    assert [] + Repeat(TNum(RAT_NONNEG), 2) == Repeat(TNum(RAT_NONNEG), 2);
  }

  const K := TNum(RAT_NONNEG)

  /** `+ k`, still expecting the slot. */
  const ADD_TYPE := TFunc([TNum(NUM_TOP)], TUnknown, Some(Add), [K])

  lemma VarType()
    ensures TypeOf(map[], map[], Var("k"), ParamScope(ADD.params)) == Some(K)
  {
    assert MethodNames(ADD.params) == ["k"] && ScalarTypes(ADD.params) == [K];
    BindAt(["k"], [K], 0);
  }

  lemma AddType()
    ensures var scope := ParamScope(ADD.params);
      TypeOf(map[], map[], ADD.body.fn, scope) == Some(ADD_TYPE) && TypesOf(map[], map[], [Var("k")], scope) == Some([K])
      && TypeOf(map[], map[], Var("k"), scope) == Some(K)
  {
    hide TypeOf, TypesOf, ParamScope;
    var scope := ParamScope(ADD.params);
    var f := TFunc([TNum(NUM_TOP), TNum(NUM_TOP)], TUnknown, Some(Add), []);
    VarType();
    PlusType();
    C.OneArg(map[], map[], Var("k"), scope, K);
    C.AppTypeFrom(map[], map[], ADD.body.fn, scope, f, [K]);
    assert [] + [K] == [K];
    assert ApplyArgs(f, [K]) == Some(ADD_TYPE);
  }

  lemma AddTyped()
    ensures UpdateChecked(true, map[], map[], ADD, ENum(RAT_NONNEG))
  {
    hide TypeOf, TypesOf;
    AddType();
    assert [K] + Repeat(K, 1) == [K, K] && [] + [K] == [K];
    assert ApplyArgs(ADD_TYPE, Repeat(K, 1)) == Some(TNum(RAT_NONNEG));
    AddSafe();
  }

  lemma AddSafe()
    ensures Safe(true, map[], map[], ADD.body.fn, ParamScope(ADD.params))
  {
    hide TypeOf, TypesOf, ApplyArgs;
    AddType();
    PlusType();
  }

  lemma PlusType()
    ensures TypeOf(map[], map[], PrimRef(Add), ParamScope(ADD.params))
      == Some(TFunc([TNum(NUM_TOP), TNum(NUM_TOP)], TUnknown, Some(Add), []))
  {
  }

  /** The documented counter is accepted, with the solver that says yes to exactly the valid goals. */
  lemma CounterAccepted()
    ensures exists solver: Solver :: SoundSolver(solver) && AcceptedTyped(solver, map[], map[], CounterModel(Max))
  {
    hide TypeOf, CombinatorOk, CombinatorSafe, UpdateChecked, MergeObligations, UpdateObligation, Valid, Safe;
    var solver: Solver := g => Valid(g);
    var m := CounterModel(Max);
    MaxTyped();
    AddTyped();
    MergeGoalsAre(solver, Max);
    MaxGoalsValid();
    AddGoal(solver, NO_REDUCES);
    AddGoalValid();
    assert OneUpdateProved(solver, map[], m, "Add", 0);
    assert SomeProof(solver, map[], m, "Add");
    assert MethodNames(ADD.params) == ["k"];
    assert ModelTyped(true, map[], map[], m);
    SignedModel(map[], map[], m);
    assert Accepted(solver, map[], map[], m);
  }

  /** A sum is not a merge: adding a slot to itself changes it, so no sound solver discharges the goals. */
  lemma SumRejected(solver: Solver)
    requires SoundSolver(solver)
    ensures !MergeProved(solver, map[], CounterModel(Add))
  {
    hide MergeObligations;
    MergeGoalsAre(solver, Add);
    var a := Slot("a");
    var g := EqualGoal([SlotDecl("a")], SBin(Add, a, a), a, []);
    var one := Valuation(_ => 1.0, _ => "", []);
    assert Meets(g.vars, one) && Meaning(a, one) == VNum(1.0) && Meaning(SBin(Add, a, a), one) == VNum(2.0);
    assert SortOf(a) == Some(SortNum) && WellSorted(g);
    assert !LeavesEqual(g.lhs, g.rhs, one);
    assert !Concluded(g, one);
  }
}
