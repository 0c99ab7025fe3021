/**
  The last-writer-wins register, deployed: the prover's goals for its merge function and its
  write, and why an exact solver says yes to them.
 */
module RegisterProof {
  import opened Options
  import opened NumTypes
  import opened Syntax
  import opened Interp
  import opened Utf8Order
  import opened Symbolic
  import opened Lowering
  import opened Prover
  import opened Convergence
  import opened LastWriterWins
  import S = SlotLattices
  import T = RegisterTypes

  const ZEROS := Valuation(_ => 0.0, _ => "", [])

  // ----- symbolic slots -----

  /** A symbolic struct with the register's two fields. */
  predicate Fields(x: Sym) {
    x.SStruct? && x.fields.Keys == {"version", "value"}
  }

  /** A symbolic slot of the register: its two fields, well-sorted. */
  predicate IsSlot(x: Sym) {
    Fields(x) && SortOf(x.fields["version"]) == Some(SortNum) && SortOf(x.fields["value"]) == Some(SortStr)
  }

  /** The slot a symbol denotes. */
  function SlotAt(x: Sym, v: Valuation): Stamped
    requires IsSlot(x)
  {
    SortedMeaning(x.fields["version"], v);
    SortedMeaning(x.fields["value"], v);
    Stamped(Meaning(x.fields["version"], v).num, Meaning(x.fields["value"], v).str)
  }

  /** `if cond then x else y` on slots. */
  function Choice(cond: Sym, x: Sym, y: Sym): (s: Sym)
    requires Fields(x) && Fields(y)
    ensures Fields(s)
  {
    SStruct(map["version" := SIte(cond, x.fields["version"], y.fields["version"]),
      "value" := SIte(cond, x.fields["value"], y.fields["value"])])
  }

  lemma ChoiceIs(cond: Sym, x: Sym, y: Sym)
    requires IsSlot(x) && IsSlot(y)
    ensures IteSym(cond, x, y) == Some(Choice(cond, x, y))
  {
    forall k | k in x.fields
      ensures k in y.fields && IteSym(cond, x.fields[k], y.fields[k]) == Some(SIte(cond, x.fields[k], y.fields[k]))
    {
    }
    assert IteSym(cond, x, y).value.fields == Choice(cond, x, y).fields;
  }

  lemma ChoiceMeans(cond: Sym, x: Sym, y: Sym, v: Valuation)
    requires IsSlot(x) && IsSlot(y) && Sorted(cond)
    ensures IsSlot(Choice(cond, x, y))
    ensures SlotAt(Choice(cond, x, y), v) == if Meaning(cond, v) == VBool(true) then SlotAt(x, v) else SlotAt(y, v)
  {
  }

  /** The comparison of one field of two slots. */
  function Compare(op: Prim, field: string, x: Sym, y: Sym): Sym
    requires Fields(x) && Fields(y) && field in {"version", "value"}
  {
    SCmp(op, x.fields[field], y.fields[field])
  }

  lemma CompareMeans(op: Prim, field: string, x: Sym, y: Sym, v: Valuation)
    requires IsSlot(x) && IsSlot(y) && field in {"version", "value"} && op in {Gt, Lt}
    ensures Sorted(Compare(op, field, x, y))
    ensures var a, b := SlotAt(x, v), SlotAt(y, v);
      Meaning(Compare(op, field, x, y), v)
      == VBool(Verdict(op, if field == "version" then CompareNums(a.version, b.version) else CompareBytes(a.value, b.value)))
  {
    SortedMeaning(x.fields[field], v);
    SortedMeaning(y.fields[field], v);
    ByteOrderIsCodePointOrder(SlotAt(x, v).value, SlotAt(y, v).value);
  }

  /** What the merge function lowers to. */
  function MergeSym(x: Sym, y: Sym): (s: Sym)
    requires Fields(x) && Fields(y)
    ensures Fields(s)
  {
    Choice(Compare(Gt, "version", x, y), x,
      Choice(Compare(Lt, "version", x, y), y,
        Choice(Compare(Gt, "value", x, y), x, y)))
  }

  /** The merge symbol denotes the later slot, under every valuation. */
  lemma MergeMeans(x: Sym, y: Sym, v: Valuation)
    requires IsSlot(x) && IsSlot(y)
    ensures IsSlot(MergeSym(x, y)) && SlotAt(MergeSym(x, y), v) == Later(SlotAt(x, v), SlotAt(y, v))
  {
    assert Fields(x) && Fields(y);
    hide CompareBytes, SlotAt, Choice, IsSlot, Compare, Sorted;
    CompareMeans(Gt, "version", x, y, v);
    CompareMeans(Lt, "version", x, y, v);
    CompareMeans(Gt, "value", x, y, v);
    var last := Choice(Compare(Gt, "value", x, y), x, y);
    ChoiceMeans(Compare(Gt, "value", x, y), x, y, v);
    ChoiceMeans(Compare(Lt, "version", x, y), y, last, v);
    ChoiceMeans(Compare(Gt, "version", x, y), x, Choice(Compare(Lt, "version", x, y), y, last), v);
  }

  /** Two slot symbols are leafwise equal exactly when they denote one slot. */
  lemma SlotsEqual(x: Sym, y: Sym, v: Valuation)
    requires IsSlot(x) && IsSlot(y)
    ensures LeavesSorted(x, y) && (LeavesEqual(x, y, v) <==> SlotAt(x, v) == SlotAt(y, v))
  {
    SortedMeaning(x.fields["version"], v);
    SortedMeaning(x.fields["value"], v);
    SortedMeaning(y.fields["version"], v);
    SortedMeaning(y.fields["value"], v);
    assert forall k :: k in x.fields <==> k == "version" || k == "value";
  }

  // ----- lowering the merge function -----

  lemma FieldLowers(solver: Solver, p: Program, x: string, s: Sym, field: string, env: SymEnv, visited: set<string>,
    st: LowState)
    requires x in env && env[x] == s && Fields(s) && field in {"version", "value"}
    ensures LowerVal(solver, p, At(x, field), env, visited, st) == Some(SymResult(s.fields[field], st))
  {
    assert LowerVal(solver, p, Var(x), env, visited, st) == Some(SymResult(s, st));
  }

  lemma VarLowers(solver: Solver, p: Program, x: string, env: SymEnv, visited: set<string>, st: LowState)
    requires x in env
    ensures LowerVal(solver, p, Var(x), env, visited, st) == Some(SymResult(env[x], st))
  {
  }

  lemma TwoArgsLower(solver: Solver, p: Program, args: seq<Expr>, env: SymEnv, visited: set<string>, st: LowState, x: Sym,
    y: Sym, mid: LowState, end: LowState)
    requires |args| == 2 && LowerVal(solver, p, args[0], env, visited, st) == Some(SymResult(x, mid))
    requires LowerVal(solver, p, args[1], env, visited, mid) == Some(SymResult(y, end))
    ensures LowerArgs(solver, p, args, env, visited, st) == Some(SymsResult([x, y], end))
  {
    hide LowerVal;
    var rest := args[1..];
    assert rest[1..] == [];
    assert LowerArgs(solver, p, rest[1..], env, visited, end) == Some(SymsResult([], end));
    assert [y] + [] == [y];
    assert LowerArgs(solver, p, rest, env, visited, mid) == Some(SymsResult([y], end));
    assert [x] + [y] == [x, y];
  }

  /** A primitive applied to two arguments. */
  lemma PrimLowers(solver: Solver, p: Program, op: Prim, args: seq<Expr>, env: SymEnv, visited: set<string>, st: LowState,
    x: Sym, y: Sym, end: LowState)
    requires |args| == 2 && LowerArgs(solver, p, args, env, visited, st) == Some(SymsResult([x, y], end))
    ensures LowerVal(solver, p, App(PrimRef(op), args), env, visited, st)
      == Some(SymResult(if IsCmp(op) then SCmp(op, x, y) else SBin(op, x, y), end))
  {
    hide LowerArgs;
    var r := if IsCmp(op) then SCmp(op, x, y) else SBin(op, x, y);
    assert [] + [x, y] == [x, y];
    assert Lower(solver, p, PrimRef(op), env, visited, st) == Some(LowResult(LFn(CalleePrim(op), []), st));
    assert Call(solver, p, CalleePrim(op), [x, y], visited, end) == Some(SymResult(r, end));
    assert Lower(solver, p, App(PrimRef(op), args), env, visited, st) == Some(LowResult(LVal(r), end));
  }

  lemma CompareLowers(solver: Solver, p: Program, op: Prim, field: string, x: Sym, y: Sym, env: SymEnv,
    visited: set<string>, st: LowState)
    requires IsCmp(op) && field in {"version", "value"} && Fields(x) && Fields(y)
    requires "a" in env && env["a"] == x && "b" in env && env["b"] == y
    ensures LowerVal(solver, p, Cmp(op, At("a", field), At("b", field)), env, visited, st)
      == Some(SymResult(Compare(op, field, x, y), st))
  {
    hide LowerVal, LowerArgs;
    var args := [At("a", field), At("b", field)];
    FieldLowers(solver, p, "a", x, field, env, visited, st);
    FieldLowers(solver, p, "b", y, field, env, visited, st);
    TwoArgsLower(solver, p, args, env, visited, st, x.fields[field], y.fields[field], st, st);
    PrimLowers(solver, p, op, args, env, visited, st, x.fields[field], y.fields[field], st);
  }

  lemma WhenLowers(solver: Solver, p: Program, cases: seq<GuardCase>, env: SymEnv, visited: set<string>, st: LowState,
    cond: Sym, s: Sym, rest: Sym)
    requires |cases| > 1 && cases[0].When?
    requires LowerGuards(solver, p, cases[1..], env, visited, st) == Some(SymResult(rest, st))
    requires LowerVal(solver, p, cases[0].cond, env, visited, st) == Some(SymResult(cond, st))
    requires LowerVal(solver, p, cases[0].result, env, visited, st) == Some(SymResult(s, st))
    requires IsSlot(s) && IsSlot(rest)
    ensures LowerGuards(solver, p, cases, env, visited, st) == Some(SymResult(Choice(cond, s, rest), st))
  {
    hide LowerVal, IteSym;
    ChoiceIs(cond, s, rest);
  }

  lemma LastLowers(solver: Solver, p: Program, cases: seq<GuardCase>, env: SymEnv, visited: set<string>, st: LowState)
    requires |cases| == 1 && cases[0].Otherwise?
    ensures LowerGuards(solver, p, cases, env, visited, st) == LowerVal(solver, p, cases[0].result, env, visited, st)
  {
  }

  /** The guards of the merge function lower to the merge symbol. */
  lemma GuardsLower(solver: Solver, p: Program, x: Sym, y: Sym, env: SymEnv, visited: set<string>, st: LowState)
    requires IsSlot(x) && IsSlot(y) && "a" in env && env["a"] == x && "b" in env && env["b"] == y
    ensures LowerGuards(solver, p, MERGE_CASES, env, visited, st) == Some(SymResult(MergeSym(x, y), st))
  {
    assert Fields(x) && Fields(y);
    hide LowerGuards, LowerVal, IsSlot, Choice, Compare;
    var cs := MERGE_CASES;
    var more, less, text := Compare(Gt, "version", x, y), Compare(Lt, "version", x, y), Compare(Gt, "value", x, y);
    CompareLowers(solver, p, Gt, "version", x, y, env, visited, st);
    CompareLowers(solver, p, Lt, "version", x, y, env, visited, st);
    CompareLowers(solver, p, Gt, "value", x, y, env, visited, st);
    VarLowers(solver, p, "a", env, visited, st);
    VarLowers(solver, p, "b", env, visited, st);
    CompareMeans(Lt, "version", x, y, ZEROS);
    CompareMeans(Gt, "value", x, y, ZEROS);
    ChoiceMeans(text, x, y, ZEROS);
    ChoiceMeans(less, y, Choice(text, x, y), ZEROS);
    assert cs[1..][1..] == cs[2..] && cs[2..][1..] == cs[3..];
    LastLowers(solver, p, cs[3..], env, visited, st);
    WhenLowers(solver, p, cs[2..], env, visited, st, text, x, y);
    WhenLowers(solver, p, cs[1..], env, visited, st, less, y, Choice(text, x, y));
    WhenLowers(solver, p, cs, env, visited, st, more, x, Choice(less, y, Choice(text, x, y)));
  }

  const MERGE_FN := LFn(CalleeFn("Merge"), [])

  /** A saturated function is lowered by lowering its body. */
  lemma InlineFn(solver: Solver, p: Program, fn: string, bound: seq<Sym>, args: seq<Sym>, st: LowState)
    requires fn in p && |p[fn].params| == |bound + args|
    ensures ApplySym(solver, p, LFn(CalleeFn(fn), bound), args, st)
      == LowerVal(solver, p, p[fn].body, Bind(ParamNames(p[fn].params), bound + args), {fn}, st)
  {
    hide LowerVal, Bind, ParamNames;
    assert {} + {fn} == {fn};
  }

  lemma BindTwo<T>(a: string, b: string, x: T, y: T)
    requires a != b
    ensures var env := Bind([a, b], [x, y]); a in env && env[a] == x && b in env && env[b] == y
  {
    BindAt([a, b], [x, y], 0);
    BindAt([a, b], [x, y], 1);
  }

  /** The lowered merge function applied to two slots. */
  lemma MergeApplies(solver: Solver, x: Sym, y: Sym, st: LowState)
    requires IsSlot(x) && IsSlot(y)
    ensures ApplySym(solver, Register(), MERGE_FN, [x, y], st) == Some(SymResult(MergeSym(x, y), st))
  {
    assert Fields(x) && Fields(y);
    var args := [x, y];
    var env := Bind(["a", "b"], args);
    assert Register()["Merge"] == MERGE && ParamNames(MERGE.params) == ["a", "b"] && [] + args == args;
    hide LowerGuards, ApplySym, MergeSym, IsSlot, Register, Bind, ParamNames;
    InlineFn(solver, Register(), "Merge", [], args, st);
    BindTwo("a", "b", x, y);
    GuardsLower(solver, Register(), x, y, env, {"Merge"}, st);
    GuardsTerm(solver, Register(), MERGE_CASES, env, {"Merge"}, st);
  }

  lemma GuardsTerm(solver: Solver, p: Program, cases: seq<GuardCase>, env: SymEnv, visited: set<string>, st: LowState)
    ensures LowerVal(solver, p, Guards(cases), env, visited, st) == LowerGuards(solver, p, cases, env, visited, st)
  {
    hide LowerGuards;
  }

  // ----- the merge goals -----

  function SlotOf(root: string): Sym {
    SymOf(root, [], SLOT_TYPE)
  }

  lemma SlotOfIs(root: string)
    ensures SlotOf(root) == SStruct(map["version" := SVar(Leaf(root, [0]), SortNum), "value" := SVar(Leaf(root, [1]), SortStr)])
    ensures IsSlot(SlotOf(root))
  {
    var fs := SLOT_TYPE.fields;
    var rest := fs[1..];
    assert rest == [ElemField("value", EStr)] && rest[1..] == [];
    assert SymFields(root, [], rest[1..], 2) == map[];
    assert [] + [0] == [0] && [] + [1] == [1];
    assert SymFields(root, [], rest, 1) == map["value" := SVar(Leaf(root, [1]), SortStr)] + map[];
    assert SymFields(root, [], fs, 0) == map["version" := SVar(Leaf(root, [0]), SortNum)] + SymFields(root, [], rest, 1);
    assert SlotOf(root).fields["version"] == SVar(Leaf(root, [0]), SortNum);
    assert SlotOf(root).fields == map["version" := SVar(Leaf(root, [0]), SortNum), "value" := SVar(Leaf(root, [1]), SortStr)];
  }

  ghost predicate HypsHold(hyps: seq<Sym>, v: Valuation) {
    forall i :: 0 <= i < |hyps| ==> Meaning(hyps[i], v) == VBool(true)
  }

  /** Two slot symbols that denote one slot wherever the declarations and hypotheses hold make a valid goal. */
  lemma EqualValid(vars: seq<VarDecl>, l: Sym, r: Sym, hyps: seq<Sym>)
    requires IsSlot(l) && IsSlot(r) && forall i :: 0 <= i < |hyps| ==> Sorted(hyps[i])
    requires forall v :: Meets(vars, v) && HypsHold(hyps, v) ==> SlotAt(l, v) == SlotAt(r, v)
    ensures Valid(EqualGoal(vars, l, r, hyps))
  {
    hide IsSlot, SlotAt, LeavesSorted, LeavesEqual, Meaning, Meets, Sorted;
    var g := EqualGoal(vars, l, r, hyps);
    SlotsEqual(l, r, ZEROS);
    forall v: Valuation | Meets(vars, v)
      ensures Concluded(g, v)
    {
      SlotsEqual(l, r, v);
      assert HypsHold(hyps, v) ==> SlotAt(l, v) == SlotAt(r, v);
    }
  }

  lemma MergeIsSlot(x: Sym, y: Sym)
    requires IsSlot(x) && IsSlot(y)
    ensures IsSlot(MergeSym(x, y))
  {
    MergeMeans(x, y, ZEROS);
  }

  /** The three merge laws are valid goals, whatever the slots. */
  lemma LawsValid(vars: seq<VarDecl>, x: Sym, y: Sym, z: Sym)
    requires IsSlot(x) && IsSlot(y) && IsSlot(z)
    ensures IsSlot(MergeSym(x, y)) && IsSlot(MergeSym(y, z))
    ensures Valid(EqualGoal(vars, MergeSym(x, y), MergeSym(y, x), []))
    ensures Valid(EqualGoal(vars, MergeSym(x, MergeSym(y, z)), MergeSym(MergeSym(x, y), z), []))
    ensures Valid(EqualGoal(vars, MergeSym(x, x), x, []))
  {
    MergeIsSlot(x, y);
    MergeIsSlot(y, x);
    MergeIsSlot(y, z);
    MergeIsSlot(x, x);
    MergeIsSlot(x, MergeSym(y, z));
    MergeIsSlot(MergeSym(x, y), z);
    forall v: Valuation
      ensures SlotAt(MergeSym(x, y), v) == SlotAt(MergeSym(y, x), v)
      ensures SlotAt(MergeSym(x, MergeSym(y, z)), v) == SlotAt(MergeSym(MergeSym(x, y), z), v)
      ensures SlotAt(MergeSym(x, x), v) == SlotAt(x, v)
    {
      SlotLaws(x, y, z, v);
    }
    EqualValid(vars, MergeSym(x, y), MergeSym(y, x), []);
    EqualValid(vars, MergeSym(x, MergeSym(y, z)), MergeSym(MergeSym(x, y), z), []);
    EqualValid(vars, MergeSym(x, x), x, []);
  }

  lemma SlotLaws(x: Sym, y: Sym, z: Sym, v: Valuation)
    requires IsSlot(x) && IsSlot(y) && IsSlot(z)
    ensures IsSlot(MergeSym(x, y)) && IsSlot(MergeSym(y, x)) && IsSlot(MergeSym(y, z)) && IsSlot(MergeSym(x, x))
    ensures IsSlot(MergeSym(x, MergeSym(y, z))) && IsSlot(MergeSym(MergeSym(x, y), z))
    ensures SlotAt(MergeSym(x, y), v) == SlotAt(MergeSym(y, x), v) && SlotAt(MergeSym(x, x), v) == SlotAt(x, v)
    ensures SlotAt(MergeSym(x, MergeSym(y, z)), v) == SlotAt(MergeSym(MergeSym(x, y), z), v)
  {
    MergeMeans(x, y, v);
    MergeMeans(y, x, v);
    MergeMeans(y, z, v);
    MergeMeans(x, x, v);
    MergeMeans(x, MergeSym(y, z), v);
    MergeMeans(MergeSym(x, y), z, v);
    hide IsSlot, MergeSym, SlotAt, Later;
    LaterLaws(SlotAt(x, v), SlotAt(y, v), SlotAt(z, v));
  }

  lemma LaterLaws(a: Stamped, b: Stamped, c: Stamped)
    ensures Later(a, b) == Later(b, a) && Later(a, a) == a && Later(a, Later(b, c)) == Later(Later(a, b), c)
  {
    hide Later;
    LaterIsJoin();
    var l := L.Lattice((_: Stamped) => true, Later);
    assert l.join(a, b) == l.join(b, a) && l.join(a, a) == a && l.join(a, l.join(b, c)) == l.join(l.join(a, b), c);
  }

  lemma MergeLowers(solver: Solver, st: LowState)
    ensures LowerFn(solver, Register(), FnRef("Merge"), map[], 2, st) == Some(LowResult(MERGE_FN, st))
  {
  }

  lemma SlotModel()
    ensures RegisterModel().elem == SLOT_TYPE && RegisterModel().merge == FnRef("Merge")
    ensures forall root :: SlotOf(root) == SymOf(root, [], SLOT_TYPE)
  {
  }

  /** The goals of the merge laws, when lowering merge and its applications leaves the state alone. */
  lemma MergesBuild(solver: Solver, p: Program, m: Model, f: Lowered, ab: Sym, ba: Sym, bc: Sym, left: Sym, right: Sym,
    aa: Sym, st: LowState)
    requires st == NO_REDUCES && LowerFn(solver, p, m.merge, map[], 2, st) == Some(LowResult(f, st))
    requires var a, b, c := SymOf("a", [], m.elem), SymOf("b", [], m.elem), SymOf("c", [], m.elem);
      ApplySym(solver, p, f, [a, b], st) == Some(SymResult(ab, st))
      && ApplySym(solver, p, f, [b, a], st) == Some(SymResult(ba, st))
      && ApplySym(solver, p, f, [b, c], st) == Some(SymResult(bc, st))
      && ApplySym(solver, p, f, [a, bc], st) == Some(SymResult(left, st))
      && ApplySym(solver, p, f, [ab, c], st) == Some(SymResult(right, st))
      && ApplySym(solver, p, f, [a, a], st) == Some(SymResult(aa, st))
    ensures var a := SymOf("a", [], m.elem);
      var da, db, dc := DeclsOf("a", [], m.elem), DeclsOf("b", [], m.elem), DeclsOf("c", [], m.elem);
      MergeObligations(solver, p, m) == Some(MergeGoals(EqualGoal(da + db, ab, ba, []),
        EqualGoal(da + db + dc, left, right, []), EqualGoal(da, aa, a, []), f, st))
  {
    hide ApplySym, LowerFn, SymOf, DeclsOf;
  }

  lemma MergeGoalsAre(solver: Solver)
    ensures var a, b, c := SlotOf("a"), SlotOf("b"), SlotOf("c");
      var da, db, dc := DeclsOf("a", [], SLOT_TYPE), DeclsOf("b", [], SLOT_TYPE), DeclsOf("c", [], SLOT_TYPE);
      IsSlot(a) && IsSlot(b) && IsSlot(c)
      && MergeObligations(solver, Register(), RegisterModel()) == Some(MergeGoals(
        EqualGoal(da + db, MergeSym(a, b), MergeSym(b, a), []),
        EqualGoal(da + db + dc, MergeSym(a, MergeSym(b, c)), MergeSym(MergeSym(a, b), c), []),
        EqualGoal(da, MergeSym(a, a), a, []),
        MERGE_FN, NO_REDUCES))
  {
    SlotOfIs("a");
    SlotOfIs("b");
    SlotOfIs("c");
    var a, b, c, st := SlotOf("a"), SlotOf("b"), SlotOf("c"), NO_REDUCES;
    MergeIsSlot(a, b);
    MergeIsSlot(b, c);
    hide *;
    SlotModel();
    MergeLowers(solver, st);
    MergeApplies(solver, a, b, st);
    MergeApplies(solver, b, a, st);
    MergeApplies(solver, b, c, st);
    MergeApplies(solver, a, MergeSym(b, c), st);
    MergeApplies(solver, MergeSym(a, b), c, st);
    MergeApplies(solver, a, a, st);
    MergesBuild(solver, Register(), RegisterModel(), MERGE_FN, MergeSym(a, b), MergeSym(b, a), MergeSym(b, c),
      MergeSym(a, MergeSym(b, c)), MergeSym(MergeSym(a, b), c), MergeSym(a, a), st);
  }

  /** An exact solver says yes to the merge laws. */
  lemma MergeIsProved(solver: Solver)
    requires forall g :: Valid(g) ==> solver(g)
    ensures MergeProved(solver, Register(), RegisterModel())
  {
    hide IsSlot, MergeSym, MergeObligations, SlotOf, DeclsOf, Valid;
    var a, b, c := SlotOf("a"), SlotOf("b"), SlotOf("c");
    var da, db, dc := DeclsOf("a", [], SLOT_TYPE), DeclsOf("b", [], SLOT_TYPE), DeclsOf("c", [], SLOT_TYPE);
    MergeGoalsAre(solver);
    LawsValid(da + db, a, b, c);
    LawsValid(da + db + dc, a, b, c);
    LawsValid(da, a, b, c);
  }

  // ----- the write -----

  const VERSION := Projection(Max, ["version"])

  /** The greater of two terms is at least each of them, so the two lemmas behind a bound are valid. */
  lemma BoundValid(vars: seq<VarDecl>, x: Sym, y: Sym)
    requires SortOf(x) == SortOf(y) == Some(SortNum)
    ensures Valid(ClaimGoal(vars, SCmp(Ge, SBin(Max, x, y), x))) && Valid(ClaimGoal(vars, SCmp(Ge, SBin(Max, x, y), y)))
  {
    var z := SBin(Max, x, y);
    forall v: Valuation
      ensures Meaning(SCmp(Ge, z, x), v) == VBool(true) && Meaning(SCmp(Ge, z, y), v) == VBool(true)
    {
      SortedMeaning(x, v);
      SortedMeaning(y, v);
      SortedMeaning(z, v);
    }
    var v := ZEROS;
    SortedMeaning(x, v);
    SortedMeaning(y, v);
  }

  lemma VersionBound(solver: Solver)
    requires forall g :: Valid(g) ==> solver(g)
    ensures FoldProjection(Register(), FnRef("maxVer")) == Some(VERSION)
    ensures FoldLemmasHold(solver, Register(), FnRef("maxVer"), SLOT_TYPE, VERSION)
  {
    hide Valid;
    var acc, e := SVar(Leaf("acc", []), SortNum), SlotOf("e");
    SlotOfIs("e");
    VersionFold();
    VersionSym(e);
    BoundValid([NumDecl(Leaf("acc", []), NUM_TOP)] + DeclsOf("e", [], SLOT_TYPE), acc, e.fields["version"]);
  }

  lemma VersionSym(x: Sym)
    requires Fields(x)
    ensures ProjectSym(x, ["version"]) == Some(x.fields["version"])
  {
    assert ["version"][1..] == [];
  }

  /** The reduce in NextX: a fresh number at least zero and at least the own slot's version. */
  function Highest(st: LowState): Sym {
    SVar(ReduceVar(st.count), SortNum)
  }

  lemma ReduceLowers(solver: Solver, x: Sym, env: SymEnv, visited: set<string>, st: LowState)
    requires forall g :: Valid(g) ==> solver(g)
    requires IsSlot(x) && "v" in env && env["v"] == SVector(x, SLOT_TYPE)
    ensures LowerVal(solver, Register(), Reduce(FnRef("maxVer"), NumLit(0.0), Var("v")), env, visited, st)
      == Some(SymResult(Highest(st), Bounded(st, Max, SConst(0.0), x.fields["version"])))
  {
    hide FoldLemmasHold, FoldProjection, Valid, Register;
    var p := Register();
    VersionBound(solver);
    VersionSym(x);
    VarLowers(solver, p, "v", env, visited, st);
    assert LowerVal(solver, p, NumLit(0.0), env, visited, st) == Some(SymResult(SConst(0.0), st));
  }

  /** The written slot: one above the reduce, with the text. */
  function Written(st: LowState, text: Sym): Sym {
    SStruct(map["version" := SBin(Add, SConst(1.0), Highest(st)), "value" := text])
  }

  lemma TwoInitsLower(solver: Solver, p: Program, f: string, x: Expr, g: string, y: Expr, env: SymEnv,
    visited: set<string>, st: LowState, s: Sym, t: Sym, mid: LowState, end: LowState)
    requires f != g && LowerVal(solver, p, x, env, visited, st) == Some(SymResult(s, mid))
    requires LowerVal(solver, p, y, env, visited, mid) == Some(SymResult(t, end))
    ensures LowerVal(solver, p, StructLit([FieldInit(f, x), FieldInit(g, y)]), env, visited, st)
      == Some(SymResult(SStruct(map[f := s, g := t]), end))
  {
    var e := StructLit([FieldInit(f, x), FieldInit(g, y)]);
    var inits := [FieldInit(f, x), FieldInit(g, y)];
    var rest := inits[1..];
    assert rest == [FieldInit(g, y)] && rest[1..] == [];
    assert LowerInits(solver, p, rest[1..], env, visited, end) == Some(FieldsResult(map[], end));
    assert map[g := t] + map[] == map[g := t];
    assert LowerInits(solver, p, rest, env, visited, mid) == Some(FieldsResult(map[g := t], end));
    assert map[f := s] + map[g := t] == map[f := s, g := t];
    assert LowerInits(solver, p, inits, env, visited, st) == Some(FieldsResult(map[f := s, g := t], end));
    assert Lower(solver, p, e, env, visited, st) == Some(LowResult(LVal(SStruct(map[f := s, g := t])), end));
  }

  lemma NextLowers(solver: Solver, x: Sym, text: Sym, env: SymEnv, visited: set<string>, st: LowState)
    requires forall g :: Valid(g) ==> solver(g)
    requires IsSlot(x) && "v" in env && env["v"] == SVector(x, SLOT_TYPE) && "s" in env && env["s"] == text
    ensures LowerVal(solver, Register(), NEXT.body, env, visited, st)
      == Some(SymResult(Written(st, text), Bounded(st, Max, SConst(0.0), x.fields["version"])))
  {
    var end := Bounded(st, Max, SConst(0.0), x.fields["version"]);
    hide Valid, Register, LowerVal, Bounded, IsSlot;
    var p := Register();
    var reduce := Reduce(FnRef("maxVer"), NumLit(0.0), Var("v"));
    var args := [NumLit(1.0), reduce];
    ReduceLowers(solver, x, env, visited, st);
    LitLowers(solver, p, 1.0, env, visited, st);
    TwoArgsLower(solver, p, args, env, visited, st, SConst(1.0), Highest(st), st, end);
    PrimLowers(solver, p, Add, args, env, visited, st, SConst(1.0), Highest(st), end);
    VarLowers(solver, p, "s", env, visited, end);
    TwoInitsLower(solver, p, "version", App(PrimRef(Add), args), "value", Var("s"), env, visited, st,
      SBin(Add, SConst(1.0), Highest(st)), text, end, end);
  }

  lemma LitLowers(solver: Solver, p: Program, q: real, env: SymEnv, visited: set<string>, st: LowState)
    ensures LowerVal(solver, p, NumLit(q), env, visited, st) == Some(SymResult(SConst(q), st))
  {
  }

  const TEXT := SVar(ParamVar(0), SortStr)

  /** `NextX s`, still expecting the vector. */
  lemma SetLowers(solver: Solver, st: LowState)
    ensures LowerFn(solver, Register(), SET.body.fn, ParamEnv(SET.params), 1, st)
      == Some(LowResult(LFn(CalleeFn("NextX"), [TEXT]), st))
  {
    var env, p, args := ParamEnv(SET.params), Register(), [Var("s")];
    assert MethodNames(SET.params) == ["s"] && ParamSyms(SET.params) == [TEXT];
    BindAt(["s"], [TEXT], 0);
    assert args[1..] == [];
    assert LowerArgs(solver, p, args[1..], env, {}, st) == Some(SymsResult([], st));
    VarLowers(solver, p, "s", env, {}, st);
    assert [TEXT] + [] == [TEXT] && [] + [TEXT] == [TEXT];
    assert LowerArgs(solver, p, args, env, {}, st) == Some(SymsResult([TEXT], st));
    assert Lower(solver, p, FnRef("NextX"), env, {}, st) == Some(LowResult(LFn(CalleeFn("NextX"), []), st));
  }

  lemma SetApplies(solver: Solver, x: Sym, st: LowState)
    requires forall g :: Valid(g) ==> solver(g)
    requires IsSlot(x)
    ensures ApplySym(solver, Register(), LFn(CalleeFn("NextX"), [TEXT]), [SVector(x, SLOT_TYPE)], st)
      == Some(SymResult(Written(st, TEXT), Bounded(st, Max, SConst(0.0), x.fields["version"])))
  {
    var vec := SVector(x, SLOT_TYPE);
    assert Register()["NextX"] == NEXT && ParamNames(NEXT.params) == ["s", "v"] && [TEXT] + [vec] == [TEXT, vec];
    hide Valid, ApplySym, LowerVal, Bounded, IsSlot, Register, Bind, ParamNames;
    InlineFn(solver, Register(), "NextX", [TEXT], [vec], st);
    BindTwo("s", "v", TEXT, vec);
    NextLowers(solver, x, TEXT, Bind(["s", "v"], [TEXT, vec]), {"NextX"}, st);
  }

  /** Under the bound of the reduce, the written slot is later than the slot it replaces. */
  lemma WrittenIsLater(x: Sym, st: LowState, v: Valuation)
    requires IsSlot(x) && Meaning(SCmp(Ge, Highest(st), x.fields["version"]), v) == VBool(true)
    ensures IsSlot(Written(st, TEXT)) && SlotAt(Written(st, TEXT), v).version > SlotAt(x, v).version
  {
    var m, h := Highest(st), Written(st, TEXT);
    SortedMeaning(x.fields["version"], v);
    assert Meaning(m, v) == VNum(NumAt(v, ReduceVar(st.count))) && Meaning(SConst(1.0), v) == VNum(1.0);
    assert Meaning(h.fields["version"], v) == VNum(1.0 + NumAt(v, ReduceVar(st.count)));
  }

  lemma HypsSorted(x: Sym, st: LowState)
    requires IsSlot(x)
    ensures Sorted(SCmp(Ge, Highest(st), SConst(0.0))) && Sorted(SCmp(Ge, Highest(st), x.fields["version"]))
    ensures IsSlot(Written(st, TEXT))
  {
    SortedMeaning(x.fields["version"], ZEROS);
    assert SortOf(Highest(st)) == SortOf(SConst(0.0)) == Some(SortNum) && Tag(Highest(st)) == Tag(SConst(0.0)) == SortNum;
  }

  lemma WriteValid(vars: seq<VarDecl>, x: Sym, st: LowState)
    requires IsSlot(x) && st.hyps == []
    ensures IsSlot(Written(st, TEXT))
    ensures Valid(EqualGoal(vars, MergeSym(x, Written(st, TEXT)), Written(st, TEXT),
      Bounded(st, Max, SConst(0.0), x.fields["version"]).hyps))
  {
    var h := Written(st, TEXT);
    var bound := SCmp(Ge, Highest(st), x.fields["version"]);
    var hyps := [SCmp(Ge, Highest(st), SConst(0.0)), bound];
    assert Bounded(st, Max, SConst(0.0), x.fields["version"]).hyps == hyps;
    HypsSorted(x, st);
    hide MergeSym, CompareBytes, IsSlot, SlotAt, Meaning, Sorted, Written, Highest, Meets;
    MergeIsSlot(x, h);
    forall v: Valuation | HypsHold(hyps, v)
      ensures SlotAt(MergeSym(x, h), v) == SlotAt(h, v)
    {
      assert Meaning(hyps[1], v) == VBool(true);
      MergeMeans(x, h, v);
      WrittenIsLater(x, st, v);
    }
    EqualValid(vars, MergeSym(x, h), h, hyps);
  }

  /** An exact solver says yes to the write's obligation. */
  lemma SetIsProved(solver: Solver, count: nat)
    requires forall g :: Valid(g) ==> solver(g)
    ensures UpdateProved(solver, Register(), RegisterModel(), SET, MERGE_FN, count)
  {
    var x, st := SlotOf("slot"), LowState(count, [], []);
    SlotOfIs("slot");
    var h, end := Written(st, TEXT), Bounded(st, Max, SConst(0.0), x.fields["version"]);
    hide LowerFn, ApplySym, Valid, MergeSym, DeclsOf, ParamDecls, SlotOf, IsSlot, Bounded;
    SetLowers(solver, st);
    SetApplies(solver, x, st);
    WriteValid(DeclsOf("slot", [], SLOT_TYPE) + ParamDecls(SET.params) + end.decls, x, st);
    MergeApplies(solver, x, h, end);
  }

  // ----- the verdict -----

  lemma RegisterProved(solver: Solver)
    requires forall g :: Valid(g) ==> solver(g)
    ensures Proved(solver, Register(), RegisterModel())
  {
    hide MergeObligations, UpdateObligation, Valid, Register, IsSlot, MergeSym, SlotOf, DeclsOf;
    var p, m := Register(), RegisterModel();
    MergeIsProved(solver);
    MergeGoalsAre(solver);
    SetIsProved(solver, 0);
    assert OneUpdateProved(solver, p, m, "Set", 0);
    assert SomeProof(solver, p, m, "Set");
  }

  /** The documented register is accepted, with the solver that says yes to exactly the valid goals. */
  lemma RegisterAccepted() returns (solver: Solver)
    ensures SoundSolver(solver) && AcceptedTyped(solver, T.SIGS, Register(), RegisterModel())
  {
    hide ModelTyped, Proved, Valid, RegisterModel;
    solver := g => Valid(g);
    T.ModelIsTyped();
    SignedModel(T.SIGS, Register(), RegisterModel());
    RegisterProved(solver);
  }

  /** So the slots of the register, whatever their versions and text, are a lattice under its merge. */
  lemma RegisterIsJoin()
    ensures L.IsJoin(S.MergeLattice(Register(), RegisterModel()))
  {
    hide AcceptedTyped, Register;
    var solver := RegisterAccepted();
    S.AcceptedIsJoin(solver, T.SIGS, Register(), RegisterModel());
  }
}
