/**
  The prover's lowering of resolved terms to symbolic terms: functions are inlined,
  guards become ite, ite spreads over struct fields, and a reduce over the vector
  marker becomes a fresh number bounded by its initial value and the own slot.
 */
module Lowering {
  import opened Options
  import opened NumTypes
  import opened Syntax
  import opened Interp
  import opened Symbolic

  /** A lowered term: a value symbol, or a callee with the symbols bound so far. */
  datatype Lowered = LVal(sym: Sym) | LFn(callee: Callee, bound: seq<Sym>)

  /** The prover's accumulators: fresh reduce results, their declarations and their hypotheses. */
  datatype LowState = LowState(count: nat, decls: seq<VarDecl>, hyps: seq<Sym>)

  datatype LowResult = LowResult(val: Lowered, st: LowState)

  datatype SymResult = SymResult(sym: Sym, st: LowState)

  datatype SymsResult = SymsResult(syms: seq<Sym>, st: LowState)

  datatype FieldsResult = FieldsResult(fields: map<string, Sym>, st: LowState)

  type SymEnv = map<string, Sym>

  function LowArity(p: Program, callee: Callee, bound: seq<Sym>): int {
    match callee
    case CalleePrim(_) => 2 - |bound|
    case CalleeFn(fn) => if fn in p then |p[fn].params| - |bound| else 0
  }

  /** `if cond then a else b`, spread over the fields when the branches are structs. */
  function IteSym(cond: Sym, a: Sym, b: Sym): Option<Sym>
    decreases a
  {
    if a.SStruct? && b.SStruct? then
      if forall k :: k in a.fields ==> k in b.fields && IteSym(cond, a.fields[k], b.fields[k]).Some? then
        Some(SStruct(map k | k in a.fields :: IteSym(cond, a.fields[k], b.fields[k]).value))
      else None
    else if a.SStruct? || b.SStruct? then None
    else Some(SIte(cond, a, b))
  }

  function ProjectSym(s: Sym, path: seq<string>): Option<Sym> {
    if path == [] then Some(s)
    else if s.SStruct? && path[0] in s.fields then ProjectSym(s.fields[path[0]], path[1..])
    else None
  }

  /** The field path a term navigates from variable root. */
  function ProjectionPath(e: Expr, root: string): Option<seq<string>> {
    match e
    case Var(x) => if x == root then Some([]) else None
    case Field(target, field) =>
      var path :- ProjectionPath(target, root);
      Some(path + [field])
    case _ => None
  }

  datatype Projection = Projection(op: Prim, path: seq<string>)

  /** Recognises the folds the prover trusts: max or min itself, or a function `max acc e.path` / `min acc e.path`. */
  function FoldProjection(p: Program, fold: Expr): (r: Option<Projection>)
    ensures r.Some? ==> r.value.op.Max? || r.value.op.Min?
  {
    match fold
    case PrimRef(op) => if op.Max? || op.Min? then Some(Projection(op, [])) else None
    case FnRef(fn) =>
      if fn !in p || |p[fn].params| != 2 || !p[fn].body.App? then None else
      var acc, elem, head, args := p[fn].params[0].name, p[fn].params[1].name, p[fn].body.head, p[fn].body.args;
      if !head.PrimRef? || !(head.op.Max? || head.op.Min?) || |args| != 2 then None
      else if args[0] == Var(acc) then
        var path :- ProjectionPath(args[1], elem);
        Some(Projection(head.op, path))
      else if args[1] == Var(acc) then
        var path :- ProjectionPath(args[0], elem);
        Some(Projection(head.op, path))
      else None
    case _ => None
  }

  /** The bound a fold puts on its result: at least for max, at most for min. */
  function Bound(op: Prim): Prim {
    if op.Min? then Le else Ge
  }

  /** A recognised fold applied to symbols: its one operator over the accumulator and the projected element. */
  function FoldBody(p: Program, fold: Expr, acc: Sym, elem: Sym): Option<Sym> {
    var proj :- FoldProjection(p, fold);
    var field :- ProjectSym(elem, proj.path);
    if fold.FnRef? && p[fold.fn].body.args[0] != Var(p[fold.fn].params[0].name) then
      Some(SBin(proj.op, field, acc))
    else Some(SBin(proj.op, acc, field))
  }

  /** The two lemmas the solver must confirm before a reduce bound is used. */
  predicate FoldLemmasHold(solver: Solver, p: Program, fold: Expr, elem: ElemT, proj: Projection) {
    var acc, e := SVar(Leaf("acc", []), SortNum), SymOf("e", [], elem);
    var vars := [NumDecl(Leaf("acc", []), NUM_TOP)] + DeclsOf("e", [], elem);
    var body, field := FoldBody(p, fold, acc, e), ProjectSym(e, proj.path);
    body.Some? && field.Some?
    && solver(ClaimGoal(vars, SCmp(Bound(proj.op), body.value, acc)))
    && solver(ClaimGoal(vars, SCmp(Bound(proj.op), body.value, field.value)))
  }

  function Lower(solver: Solver, p: Program, e: Expr, env: SymEnv, visited: set<string>, st: LowState)
    : (r: Option<LowResult>)
    ensures r.Some? ==> r.value.st.count >= st.count
    decreases |p.Keys - visited|, 2, e, 0
  {
    match e
    case NumLit(q) => Some(LowResult(LVal(SConst(q)), st))
    case StrLit(s) => Some(LowResult(LVal(SStrConst(s)), st))
    case Var(x) => if x in env then Some(LowResult(LVal(env[x]), st)) else None
    case PrimRef(op) => Some(LowResult(LFn(CalleePrim(op), []), st))
    case FnRef(fn) => if fn in p then Some(LowResult(LFn(CalleeFn(fn), []), st)) else None
    case App(head, args) =>
      var h :- Lower(solver, p, head, env, visited, st);
      if !h.val.LFn? then None else
      var a :- LowerArgs(solver, p, args, env, visited, h.st);
      var arity := LowArity(p, h.val.callee, h.val.bound);
      if |args| == arity then
        var r :- Call(solver, p, h.val.callee, h.val.bound + a.syms, visited, a.st);
        Some(LowResult(LVal(r.sym), r.st))
      else if |args| < arity then Some(LowResult(LFn(h.val.callee, h.val.bound + a.syms), a.st))
      else None
    case Guards(cases) =>
      var r :- LowerGuards(solver, p, cases, env, visited, st);
      Some(LowResult(LVal(r.sym), r.st))
    case StructLit(inits) =>
      var r :- LowerInits(solver, p, inits, env, visited, st);
      Some(LowResult(LVal(SStruct(r.fields)), r.st))
    case Field(target, field) =>
      var t :- LowerVal(solver, p, target, env, visited, st);
      if t.sym.SStruct? && field in t.sym.fields then Some(LowResult(LVal(t.sym.fields[field]), t.st)) else None
    case Reduce(fold, init, vec) =>
      var v :- LowerVal(solver, p, vec, env, visited, st);
      if !v.sym.SVector? then None else
      var i :- LowerVal(solver, p, init, env, visited, v.st);
      var proj :- FoldProjection(p, fold);
      if !FoldLemmasHold(solver, p, fold, v.sym.elem, proj) then None else
      var own :- ProjectSym(v.sym.self, proj.path);
      var m := SVar(ReduceVar(i.st.count), SortNum);
      Some(LowResult(LVal(m), Bounded(i.st, proj.op, i.sym, own)))
  }

  /** The state after a reduce: one more result, bounded by the initial value and the own slot's projection. */
  function Bounded(st: LowState, op: Prim, init: Sym, own: Sym): LowState {
    var m := SVar(ReduceVar(st.count), SortNum);
    LowState(st.count + 1, st.decls + [NumDecl(ReduceVar(st.count), NUM_TOP)],
      st.hyps + [SCmp(Bound(op), m, init), SCmp(Bound(op), m, own)])
  }

  /** Lowers a term that must be a value. */
  function LowerVal(solver: Solver, p: Program, e: Expr, env: SymEnv, visited: set<string>, st: LowState)
    : (r: Option<SymResult>)
    ensures r.Some? ==> r.value.st.count >= st.count
    decreases |p.Keys - visited|, 2, e, 1
  {
    var r :- Lower(solver, p, e, env, visited, st);
    if r.val.LVal? then Some(SymResult(r.val.sym, r.st)) else None
  }

  function LowerArgs(solver: Solver, p: Program, args: seq<Expr>, env: SymEnv, visited: set<string>, st: LowState)
    : (r: Option<SymsResult>)
    ensures r.Some? ==> |r.value.syms| == |args| && r.value.st.count >= st.count
    decreases |p.Keys - visited|, 2, args
  {
    if args == [] then Some(SymsResult([], st))
    else
      var a :- LowerVal(solver, p, args[0], env, visited, st);
      var rest :- LowerArgs(solver, p, args[1..], env, visited, a.st);
      Some(SymsResult([a.sym] + rest.syms, rest.st))
  }

  /** Builds the ite chain from the back: `otherwise` first, then each earlier case around it. */
  function LowerGuards(solver: Solver, p: Program, cases: seq<GuardCase>, env: SymEnv, visited: set<string>,
    st: LowState): (r: Option<SymResult>)
    ensures r.Some? ==> r.value.st.count >= st.count
    decreases |p.Keys - visited|, 2, cases
  {
    if cases == [] || (cases[0].Otherwise? != (|cases| == 1)) then None
    else
      assert cases[0].result < cases[0];
      if cases[0].Otherwise? then LowerVal(solver, p, cases[0].result, env, visited, st)
      else
        assert cases[0].cond < cases[0];
        var rest :- LowerGuards(solver, p, cases[1..], env, visited, st);
        var c :- LowerVal(solver, p, cases[0].cond, env, visited, rest.st);
        var r :- LowerVal(solver, p, cases[0].result, env, visited, c.st);
        var s :- IteSym(c.sym, r.sym, rest.sym);
        Some(SymResult(s, r.st))
  }

  function LowerInits(solver: Solver, p: Program, inits: seq<FieldInit>, env: SymEnv, visited: set<string>,
    st: LowState): (r: Option<FieldsResult>)
    ensures r.Some? ==> r.value.st.count >= st.count
    decreases |p.Keys - visited|, 2, inits
  {
    if inits == [] then Some(FieldsResult(map[], st))
    else
      var v :- LowerVal(solver, p, inits[0].value, env, visited, st);
      var rest :- LowerInits(solver, p, inits[1..], env, visited, v.st);
      Some(FieldsResult(map[inits[0].name := v.sym] + rest.fields, rest.st))
  }

  /** A saturated call: a primitive builds a node, a user function is inlined unless it is already being inlined. */
  function Call(solver: Solver, p: Program, callee: Callee, args: seq<Sym>, visited: set<string>, st: LowState)
    : (r: Option<SymResult>)
    ensures r.Some? ==> r.value.st.count >= st.count
    decreases |p.Keys - visited|, 0
  {
    match callee
    case CalleePrim(op) =>
      if |args| != 2 then None
      else Some(SymResult(if IsCmp(op) then SCmp(op, args[0], args[1]) else SBin(op, args[0], args[1]), st))
    case CalleeFn(fn) =>
      if fn !in p || fn in visited || |args| != |p[fn].params| then None
      else
        assert p.Keys - visited == (p.Keys - (visited + {fn})) + {fn};
        LowerVal(solver, p, p[fn].body, Bind(ParamNames(p[fn].params), args), visited + {fn}, st)
  }

  /** A term lowered to a function of the wanted arity (evalFn). */
  function LowerFn(solver: Solver, p: Program, e: Expr, env: SymEnv, want: nat, st: LowState): (r: Option<LowResult>)
    ensures r.Some? ==> r.value.val.LFn? && LowArity(p, r.value.val.callee, r.value.val.bound) == want
    ensures r.Some? ==> r.value.st.count >= st.count
  {
    var r :- Lower(solver, p, e, env, {}, st);
    if r.val.LFn? && LowArity(p, r.val.callee, r.val.bound) == want then Some(r) else None
  }
}
