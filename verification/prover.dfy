/**
  The deploy-time prover: the obligations it builds for a vector type, and the loop
  that discharges them with the solver.
 */
module Prover {
  import opened Options
  import opened Syntax
  import opened Symbolic
  import opened Lowering

  const NO_REDUCES := LowState(0, [], [])

  /** A lowered function applied to symbols. */
  function ApplySym(solver: Solver, p: Program, f: Lowered, args: seq<Sym>, st: LowState): (r: Option<SymResult>)
    ensures r.Some? ==> r.value.st.count >= st.count
  {
    if f.LFn? then Call(solver, p, f.callee, f.bound + args, {}, st) else None
  }

  /** The solver constant of parameter i. */
  function ParamSym(ps: seq<MethodParam>, i: nat): Sym
    requires i < |ps|
  {
    SVar(ParamVar(i), if ps[i].typ.ScalarStr? then SortStr else SortNum)
  }

  function MethodNames(ps: seq<MethodParam>): (ns: seq<string>)
    ensures |ns| == |ps|
  {
    seq(|ps|, i requires 0 <= i < |ps| => ps[i].name)
  }

  function ParamSyms(ps: seq<MethodParam>): (ss: seq<Sym>)
    ensures |ss| == |ps|
  {
    seq(|ps|, i requires 0 <= i < |ps| => ParamSym(ps, i))
  }

  function ParamEnv(ps: seq<MethodParam>): SymEnv {
    Bind(MethodNames(ps), ParamSyms(ps))
  }

  function ParamDecls(ps: seq<MethodParam>): (ds: seq<VarDecl>)
    ensures |ds| == |ps|
  {
    seq(|ps|, i requires 0 <= i < |ps| =>
      if ps[i].typ.ScalarStr? then StrDecl(ParamVar(i)) else NumDecl(ParamVar(i), ps[i].typ.num))
  }

  /** The goals of the three merge laws, and the prover state after building them. */
  datatype MergeGoals = MergeGoals(comm: Goal, assoc: Goal, idem: Goal, fn: Lowered, st: LowState)

  function MergeObligations(solver: Solver, p: Program, m: Model): Option<MergeGoals> {
    var a, b, c := SymOf("a", [], m.elem), SymOf("b", [], m.elem), SymOf("c", [], m.elem);
    var da, db, dc := DeclsOf("a", [], m.elem), DeclsOf("b", [], m.elem), DeclsOf("c", [], m.elem);
    var f :- LowerFn(solver, p, m.merge, map[], 2, NO_REDUCES);
    var fab :- ApplySym(solver, p, f.val, [a, b], f.st);
    var fba :- ApplySym(solver, p, f.val, [b, a], fab.st);
    var fbc :- ApplySym(solver, p, f.val, [b, c], fba.st);
    var left :- ApplySym(solver, p, f.val, [a, fbc.sym], fbc.st);
    var fab2 :- ApplySym(solver, p, f.val, [a, b], left.st);
    var right :- ApplySym(solver, p, f.val, [fab2.sym, c], fab2.st);
    var faa :- ApplySym(solver, p, f.val, [a, a], right.st);
    Some(MergeGoals(
      EqualGoal(da + db, fab.sym, fba.sym, []),
      EqualGoal(da + db + dc, left.sym, right.sym, []),
      EqualGoal(da, faa.sym, a, []),
      f.val, faa.st))
  }

  datatype UpdateGoal = UpdateGoal(goal: Goal, st: LowState)

  /**
    merge(x, h(x)) == h(x) for one update. A `write` update is applied to the vector
    marker, whose reduces contribute hypotheses; the accumulators start empty, while
    the reduce counter runs on from the previous update.
   */
  function UpdateObligation(solver: Solver, p: Program, m: Model, u: Update, merge: Lowered, count: nat)
    : (r: Option<UpdateGoal>)
    ensures r.Some? ==> r.value.st.count >= count
  {
    var x := SymOf("slot", [], m.elem);
    var h :- LowerFn(solver, p, u.body.fn, ParamEnv(u.params), 1, LowState(count, [], []));
    var arg := if u.body.Write? then SVector(x, m.elem) else x;
    var hx :- ApplySym(solver, p, h.val, [arg], LowState(h.st.count, [], []));
    var fxhx :- ApplySym(solver, p, merge, [x, hx.sym], hx.st);
    Some(UpdateGoal(
      EqualGoal(DeclsOf("slot", [], m.elem) + ParamDecls(u.params) + fxhx.st.decls, fxhx.sym, hx.sym, fxhx.st.hyps),
      fxhx.st))
  }

  predicate MergeProved(solver: Solver, p: Program, m: Model) {
    var g := MergeObligations(solver, p, m);
    g.Some? && solver(g.value.comm) && solver(g.value.assoc) && solver(g.value.idem)
  }

  predicate UpdateProved(solver: Solver, p: Program, m: Model, u: Update, merge: Lowered, count: nat) {
    var g := UpdateObligation(solver, p, m, u, merge, count);
    g.Some? && solver(g.value.goal)
  }

  /** What an accepting run of Prove has established. */
  ghost predicate Proved(solver: Solver, p: Program, m: Model) {
    MergeProved(solver, p, m)
    && forall name :: name in m.updates ==> SomeProof(solver, p, m, name)
  }

  /** The update's obligation was discharged, from whatever reduce counter the loop had reached. */
  ghost predicate SomeProof(solver: Solver, p: Program, m: Model, name: string)
    requires name in m.updates && MergeProved(solver, p, m)
  {
    exists count: nat :: OneUpdateProved(solver, p, m, name, count)
  }

  ghost predicate OneUpdateProved(solver: Solver, p: Program, m: Model, name: string, count: nat)
    requires name in m.updates && MergeProved(solver, p, m)
  {
    var g := MergeObligations(solver, p, m).value;
    count >= g.st.count && UpdateProved(solver, p, m, m.updates[name], g.fn, count)
  }

  /** Discharges the merge laws, then every update; the reduce counter runs on through the updates. */
  method Prove(solver: Solver, p: Program, m: Model) returns (ok: bool)
    ensures ok ==> Proved(solver, p, m)
    ensures !ok && MergeProved(solver, p, m) ==>
      exists name, count: nat :: name in m.updates && count >= MergeObligations(solver, p, m).value.st.count
        && !OneUpdateProved(solver, p, m, name, count)
  {
    hide UpdateObligation, MergeObligations;
    var g := MergeObligations(solver, p, m);
    if g.None? || !solver(g.value.comm) || !solver(g.value.assoc) || !solver(g.value.idem) {
      return false;
    }
    var count := g.value.st.count;
    var todo := m.updates.Keys;
    ghost var done := {};
    while todo != {}
      invariant count >= g.value.st.count
      invariant todo + done == m.updates.Keys
      invariant forall name :: name in done ==> SomeProof(solver, p, m, name)
      decreases |todo|
    {
      var name :| name in todo;
      var u := UpdateObligation(solver, p, m, m.updates[name], g.value.fn, count);
      if u.None? || !solver(u.value.goal) {
        assert !OneUpdateProved(solver, p, m, name, count);
        return false;
      }
      assert OneUpdateProved(solver, p, m, name, count);
      count := u.value.st.count;
      todo, done := todo - {name}, done + {name};
    }
    return true;
  }
}
