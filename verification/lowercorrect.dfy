/**
  Lowering preserves meaning. Whenever a term lowers and its evaluation yields a
  value, the symbol denotes that value, under a valuation extended by one number
  for each reduce met on the way; those numbers satisfy every hypothesis the
  lowering introduced. An accepted term never runs out of depth.
 */
module LowerCorrect {
  import opened Options
  import opened NumTypes
  import opened Syntax
  import opened Interp
  import opened Utf8Order
  import opened Symbolic
  import opened Lowering

  // ----- symbols and runtime values -----

  /**
    Symbol s stands for runtime value w under v. A scalar symbol promises its
    meaning only if the solver accepts it; a symbol that is no vector marker says
    nothing about a whole-vector value.
   */
  ghost predicate Rel(s: Sym, w: Val, v: Valuation)
    decreases s
  {
    match s
    case SStruct(fs) =>
      w.VStruct? && fs.Keys <= w.fields.Keys && forall k :: k in fs ==> Rel(fs[k], w.fields[k], v)
    case SVector(self, _) =>
      w.VVec? && exists i :: 0 <= i < |w.slots| && Rel(self, w.slots[i], v)
    case _ =>
      w.VVec? || ((w.VNum? || w.VStr? || w.VBool?) && (SortOf(s).Some? ==> Meaning(s, v) == w))
  }

  ghost predicate RelAll(ss: seq<Sym>, ws: seq<Val>, v: Valuation) {
    |ss| == |ws| && forall i :: 0 <= i < |ss| ==> Rel(ss[i], ws[i], v)
  }

  ghost predicate RelLow(l: Lowered, w: Val, v: Valuation) {
    match l
    case LVal(s) => Rel(s, w, v)
    case LFn(callee, bound) => w.VFunc? && w.callee == callee && RelAll(bound, w.bound, v)
  }

  ghost predicate RelEnv(senv: SymEnv, env: map<string, Val>, v: Valuation) {
    forall x :: x in senv ==> x in env && Rel(senv[x], env[x], v)
  }

  /** Every reduce variable of s is older than n. */
  predicate Older(s: Sym, n: nat) {
    match s
    case SVar(name, _) => name.ReduceVar? ==> name.k < n
    case SBin(_, a, b) => Older(a, n) && Older(b, n)
    case SCmp(_, a, b) => Older(a, n) && Older(b, n)
    case SIte(c, a, b) => Older(c, n) && Older(a, n) && Older(b, n)
    case SStruct(fs) => forall k :: k in fs ==> Older(fs[k], n)
    case SVector(self, _) => Older(self, n)
    case _ => true
  }

  predicate OlderAll(ss: seq<Sym>, n: nat) {
    forall i :: 0 <= i < |ss| ==> Older(ss[i], n)
  }

  predicate OlderEnv(senv: SymEnv, n: nat) {
    forall x :: x in senv ==> Older(senv[x], n)
  }

  predicate OlderLow(l: Lowered, n: nat) {
    match l
    case LVal(s) => Older(s, n)
    case LFn(_, bound) => OlderAll(bound, n)
  }

  /** A hypothesis the solver accepts is true. */
  predicate HypHolds(h: Sym, v: Valuation) {
    Sorted(h) ==> Meaning(h, v) == VBool(true)
  }

  predicate HypsHold(hyps: seq<Sym>, v: Valuation) {
    forall i :: 0 <= i < |hyps| ==> HypHolds(hyps[i], v)
  }

  /**
    The state invariant: one value per reduce so far, no younger variable in a
    hypothesis, all hypotheses true, all declarations met.
   */
  predicate StateOk(st: LowState, v: Valuation) {
    |v.reduces| == st.count && OlderAll(st.hyps, st.count) && HypsHold(st.hyps, v) && Unconstrained(st.decls)
  }

  /** Reduce results are declared as unconstrained numbers. */
  predicate Unconstrained(ds: seq<VarDecl>) {
    forall i :: 0 <= i < |ds| ==> ds[i].NumDecl? && ds[i].typ == NUM_TOP
  }

  /** w values the reduces v values, the same way, and possibly more. */
  ghost predicate Extends(v: Valuation, w: Valuation) {
    w == v.(reduces := w.reduces) && v.reduces <= w.reduces
  }

  // ----- younger reduces do not matter -----

  lemma {:induction false} MeaningExtends(s: Sym, v: Valuation, w: Valuation)
    requires Extends(v, w) && Older(s, |v.reduces|)
    ensures Meaning(s, w) == Meaning(s, v)
  {
    match s
    case SBin(_, a, b) =>
      MeaningExtends(a, v, w);
      MeaningExtends(b, v, w);
    case SCmp(_, a, b) =>
      MeaningExtends(a, v, w);
      MeaningExtends(b, v, w);
    case SIte(c, a, b) =>
      MeaningExtends(c, v, w);
      MeaningExtends(a, v, w);
      MeaningExtends(b, v, w);
    case _ =>
  }

  lemma {:induction false} RelExtends(s: Sym, x: Val, v: Valuation, w: Valuation)
    requires Rel(s, x, v) && Extends(v, w) && Older(s, |v.reduces|)
    ensures Rel(s, x, w)
    decreases s
  {
    match s
    case SStruct(fs) =>
      forall k | k in fs
        ensures Rel(fs[k], x.fields[k], w)
      {
        RelExtends(fs[k], x.fields[k], v, w);
      }
    case SVector(self, _) =>
      var i :| 0 <= i < |x.slots| && Rel(self, x.slots[i], v);
      RelExtends(self, x.slots[i], v, w);
    case _ => MeaningExtends(s, v, w);
  }

  lemma RelEnvExtends(senv: SymEnv, env: map<string, Val>, v: Valuation, w: Valuation)
    requires RelEnv(senv, env, v) && Extends(v, w) && OlderEnv(senv, |v.reduces|)
    ensures RelEnv(senv, env, w)
  {
    forall x | x in senv
      ensures Rel(senv[x], env[x], w)
    {
      RelExtends(senv[x], env[x], v, w);
    }
  }

  lemma RelAllExtends(ss: seq<Sym>, ws: seq<Val>, v: Valuation, w: Valuation)
    requires RelAll(ss, ws, v) && Extends(v, w) && OlderAll(ss, |v.reduces|)
    ensures RelAll(ss, ws, w)
  {
    forall i | 0 <= i < |ss|
      ensures Rel(ss[i], ws[i], w)
    {
      RelExtends(ss[i], ws[i], v, w);
    }
  }

  lemma {:induction false} OlderGrows(s: Sym, m: nat, n: nat)
    requires Older(s, m) && m <= n
    ensures Older(s, n)
  {
    match s
    case SBin(_, a, b) =>
      OlderGrows(a, m, n);
      OlderGrows(b, m, n);
    case SCmp(_, a, b) =>
      OlderGrows(a, m, n);
      OlderGrows(b, m, n);
    case SIte(c, a, b) =>
      OlderGrows(c, m, n);
      OlderGrows(a, m, n);
      OlderGrows(b, m, n);
    case SStruct(fs) =>
      forall k | k in fs
        ensures Older(fs[k], n)
      {
        OlderGrows(fs[k], m, n);
      }
    case SVector(self, _) => OlderGrows(self, m, n);
    case _ =>
  }

  lemma OlderAllGrows(ss: seq<Sym>, m: nat, n: nat)
    requires OlderAll(ss, m) && m <= n
    ensures OlderAll(ss, n)
  {
    forall i | 0 <= i < |ss|
      ensures Older(ss[i], n)
    {
      OlderGrows(ss[i], m, n);
    }
  }

  lemma OlderEnvGrows(senv: SymEnv, m: nat, n: nat)
    requires OlderEnv(senv, m) && m <= n
    ensures OlderEnv(senv, n)
  {
    forall x | x in senv
      ensures Older(senv[x], n)
    {
      OlderGrows(senv[x], m, n);
    }
  }

  // ----- primitives, ite and projection -----

  /** A primitive node denotes what the runtime primitive computes; string order agrees with byte order. */
  lemma PrimRel(op: Prim, a: Sym, b: Sym, x: Val, y: Val, v: Valuation)
    requires Rel(a, x, v) && Rel(b, y, v) && PrimOp(op, x, y).Ok?
    ensures Rel(if IsCmp(op) then SCmp(op, a, b) else SBin(op, a, b), PrimOp(op, x, y).value, v)
  {
    var s := if IsCmp(op) then SCmp(op, a, b) else SBin(op, a, b);
    assert SortOf(s).Some? ==> SortOf(a).Some? && SortOf(b).Some?;
    if SortOf(s).Some? {
      assert Meaning(a, v) == x && Meaning(b, v) == y;
      SortedMeaning(a, v);
      SortedMeaning(b, v);
      if x.VStr? && y.VStr? {
        ByteOrderIsCodePointOrder(x.str, y.str);
        CompareIsEquality(x.str, y.str);
      }
    }
  }

  /** An ite stands for the value of the branch its condition selects. */
  lemma {:induction false} IteRel(c: Sym, a: Sym, b: Sym, s: Sym, taken: bool, w: Val, v: Valuation)
    requires IteSym(c, a, b) == Some(s) && Rel(c, VBool(taken), v)
    requires Rel(if taken then a else b, w, v)
    ensures Rel(s, w, v)
    decreases a
  {
    if a.SStruct? {
      forall k | k in s.fields
        ensures k in w.fields && Rel(s.fields[k], w.fields[k], v)
      {
        IteRel(c, a.fields[k], b.fields[k], s.fields[k], taken, w.fields[k], v);
      }
    } else {
      IteScalarRel(c, a, b, taken, w, v);
    }
  }

  lemma IteScalarRel(c: Sym, a: Sym, b: Sym, taken: bool, w: Val, v: Valuation)
    requires !a.SStruct? && !b.SStruct? && Rel(c, VBool(taken), v)
    requires Rel(if taken then a else b, w, v)
    ensures Rel(SIte(c, a, b), w, v)
  {
    if !w.VVec? && SortOf(SIte(c, a, b)).Some? {
      assert Meaning(c, v) == VBool(taken);
      assert Meaning(if taken then a else b, v) == w;
    }
  }

  lemma {:induction false} IteOlder(c: Sym, a: Sym, b: Sym, s: Sym, n: nat)
    requires IteSym(c, a, b) == Some(s) && Older(c, n) && Older(a, n) && Older(b, n)
    ensures Older(s, n)
    decreases a
  {
    if a.SStruct? {
      forall k | k in s.fields
        ensures Older(s.fields[k], n)
      {
        IteOlder(c, a.fields[k], b.fields[k], s.fields[k], n);
      }
    }
  }

  function ProjectVal(w: Val, path: seq<string>): Option<Val> {
    if path == [] then Some(w)
    else if w.VStruct? && path[0] in w.fields then ProjectVal(w.fields[path[0]], path[1..])
    else None
  }

  lemma {:induction false} ProjectRel(s: Sym, path: seq<string>, t: Sym, w: Val, v: Valuation)
    requires ProjectSym(s, path) == Some(t) && Rel(s, w, v)
    ensures ProjectVal(w, path).Some? && Rel(t, ProjectVal(w, path).value, v)
    decreases |path|
  {
    if path != [] {
      ProjectRel(s.fields[path[0]], path[1..], t, w.fields[path[0]], v);
    }
  }

  lemma {:induction false} ProjectOlder(s: Sym, path: seq<string>, t: Sym, n: nat)
    requires ProjectSym(s, path) == Some(t) && Older(s, n)
    ensures Older(t, n)
    decreases |path|
  {
    if path != [] {
      ProjectOlder(s.fields[path[0]], path[1..], t, n);
    }
  }

  lemma {:induction false} BindRel(names: seq<string>, ss: seq<Sym>, ws: seq<Val>, v: Valuation)
    requires |names| == |ss| == |ws| && RelAll(ss, ws, v)
    ensures RelEnv(Bind(names, ss), Bind(names, ws), v)
  {
    hide Rel;
    if names != [] {
      var k := |names| - 1;
      BindRel(names[..k], ss[..k], ws[..k], v);
    }
  }

  lemma {:induction false} BindOlder(names: seq<string>, ss: seq<Sym>, n: nat)
    requires |names| == |ss| && OlderAll(ss, n)
    ensures OlderEnv(Bind(names, ss), n)
  {
    hide Older;
    if names != [] {
      BindOlder(names[..|names| - 1], ss[..|names| - 1], n);
    }
  }

  // ----- reduce -----

  /** Parameter names are distinct, as the builder checks. */
  ghost predicate ParamsDistinct(p: Program) {
    forall fn :: fn in p ==> Distinct(ParamNames(p[fn].params))
  }

  /** m is on the side of x that a fold by op guarantees. */
  predicate Dominates(op: Prim, m: real, x: real) {
    if op.Min? then m <= x else m >= x
  }

  lemma {:induction false} ProjectSnoc(w: Val, path: seq<string>, field: string)
    ensures ProjectVal(w, path + [field])
      == var t := ProjectVal(w, path);
         if t.Some? && t.value.VStruct? && field in t.value.fields then Some(t.value.fields[field]) else None
    decreases |path|
  {
    if path != [] {
      assert (path + [field])[1..] == path[1..] + [field];
      if w.VStruct? && path[0] in w.fields {
        ProjectSnoc(w.fields[path[0]], path[1..], field);
      }
    } else {
      assert path + [field] == [field] && [field][1..] == [];
    }
  }

  /** A projection path is what evaluating the term navigates. */
  lemma {:induction false} PathEval(p: Program, e: Expr, root: string, path: seq<string>, env: map<string, Val>, depth: nat)
    requires ProjectionPath(e, root) == Some(path) && root in env && depth <= MAX_EVAL_DEPTH
    ensures Eval(p, e, env, depth)
      == var t := ProjectVal(env[root], path); if t.Some? then Ok(t.value) else Stuck
    decreases e
  {
    if e.Field? {
      var inner := ProjectionPath(e.target, root).value;
      PathEval(p, e.target, root, inner, env, depth);
      ProjectSnoc(env[root], inner, e.field);
    }
  }

  /** The function value of a recognised fold. */
  function FoldVal(fold: Expr): Val
    requires fold.PrimRef? || fold.FnRef?
  {
    VFunc(if fold.PrimRef? then CalleePrim(fold.op) else CalleeFn(fold.fn), [])
  }

  /** One step of a recognised fold: its operator on two numbers, the second projected from the slot. */
  function FoldResult(proj: Projection, acc: Val, slot: Val): Outcome<Val>
    requires !IsCmp(proj.op)
  {
    var x := ProjectVal(slot, proj.path);
    if acc.VNum? && x.Some? && x.value.VNum? then Ok(VNum(Arith(proj.op, acc.num, x.value.num))) else Stuck
  }

  lemma FoldFnBody(p: Program, fn: string, proj: Projection, env: map<string, Val>, acc: Val, slot: Val, depth: nat)
    requires FoldProjection(p, FnRef(fn)) == Some(proj) && depth <= MAX_EVAL_DEPTH
    requires var ps := p[fn].params;
      ps[0].name in env && env[ps[0].name] == acc && ps[1].name in env && env[ps[1].name] == slot
    ensures Eval(p, p[fn].body, env, depth) == FoldResult(proj, acc, slot)
  {
    hide ProjectVal, ProjectionPath, Apply, EvalArgs;
    var d := p[fn];
    var args := d.body.args;
    var accFirst := args[0] == Var(d.params[0].name);
    PathEval(p, args[if accFirst then 1 else 0], d.params[1].name, proj.path, env, depth);
    assert Eval(p, Var(d.params[0].name), env, depth) == Ok(acc);
    TwoArgs(p, args, env, depth);
    PrimAppEval(p, proj.op, args, env, depth);
  }

  /** A primitive applied to two operands. */
  lemma PrimAppEval(p: Program, op: Prim, args: seq<Expr>, env: map<string, Val>, depth: nat)
    requires |args| == 2 && depth <= MAX_EVAL_DEPTH
    ensures var xs := EvalArgs(p, args, env, depth);
      Eval(p, App(PrimRef(op), args), env, depth)
      == if xs.Ok? then PrimOp(op, xs.value[0], xs.value[1]) else if xs.TooDeep? then TooDeep else Stuck
  {
    hide EvalArgs, PrimOp;
    var f := VFunc(CalleePrim(op), []);
    assert Eval(p, PrimRef(op), env, depth) == Ok(f);
    var xs := EvalArgs(p, args, env, depth);
    if xs.Ok? {
      assert f.bound + xs.value == xs.value;
      assert Apply(p, f, xs.value, depth) == PrimOp(op, xs.value[0], xs.value[1]);
    }
  }

  lemma TwoArgs(p: Program, args: seq<Expr>, env: map<string, Val>, depth: nat)
    requires |args| == 2
    ensures var r0, r1 := Eval(p, args[0], env, depth), Eval(p, args[1], env, depth);
      EvalArgs(p, args, env, depth)
      == if !r0.Ok? then r0.PropagateFailure() else if r0.value.VFunc? then Stuck
         else if !r1.Ok? then r1.PropagateFailure() else if r1.value.VFunc? then Stuck
         else Ok([r0.value, r1.value])
  {
    hide Eval;
    var rest := args[1..];
    assert rest[0] == args[1] && rest[1..] == [];
    assert EvalArgs(p, rest[1..], env, depth) == Ok([]);
    var r1 := Eval(p, args[1], env, depth);
    assert EvalArgs(p, rest, env, depth)
      == if !r1.Ok? then r1.PropagateFailure() else if r1.value.VFunc? then Stuck else Ok([r1.value] + []);
    var r0 := Eval(p, args[0], env, depth);
    if r0.Ok? && r1.Ok? {
      assert [r0.value] + ([r1.value] + []) == [r0.value, r1.value];
    }
  }

  /** One step of a recognised fold applies its operator to the accumulator and the projected slot. */
  lemma FoldStep(p: Program, fold: Expr, proj: Projection, acc: Val, slot: Val, depth: nat)
    requires ParamsDistinct(p) && FoldProjection(p, fold) == Some(proj) && depth < MAX_EVAL_DEPTH
    ensures Apply(p, FoldVal(fold), [acc, slot], depth) == FoldResult(proj, acc, slot)
  {
    hide Eval;
    var f := FoldVal(fold);
    assert f.bound + [acc, slot] == [acc, slot];
    if fold.FnRef? {
      FoldFnStep(p, fold.fn, proj, acc, slot, depth);
    }
  }

  lemma FoldFnStep(p: Program, fn: string, proj: Projection, acc: Val, slot: Val, depth: nat)
    requires ParamsDistinct(p) && FoldProjection(p, FnRef(fn)) == Some(proj) && depth < MAX_EVAL_DEPTH
    ensures Apply(p, FoldVal(FnRef(fn)), [acc, slot], depth) == FoldResult(proj, acc, slot)
  {
    hide Eval, ProjectVal, Bind;
    var names := ParamNames(p[fn].params);
    assert [] + [acc, slot] == [acc, slot];
    BindAt(names, [acc, slot], 0);
    BindAt(names, [acc, slot], 1);
    FoldFnBody(p, fn, proj, Bind(names, [acc, slot]), acc, slot, depth + 1);
    assert Apply(p, FoldVal(FnRef(fn)), [acc, slot], depth) == Eval(p, p[fn].body, Bind(names, [acc, slot]), depth + 1);
  }

  /**
    Reduce domination: folding a recognised fold over any vector, in any order,
    yields a number on the right side of the initial value and of the projected
    field of every slot, and equal to one of them.
   */
  lemma {:induction false} ReduceDominates(p: Program, fold: Expr, proj: Projection, acc: Val, slots: seq<Val>, depth: nat)
    requires ParamsDistinct(p) && FoldProjection(p, fold) == Some(proj) && depth < MAX_EVAL_DEPTH
    ensures var r := FoldSlots(p, FoldVal(fold), acc, slots, depth);
      !r.TooDeep? && (r.Ok? && slots != [] ==>
        acc.VNum? && r.value.VNum? && Dominates(proj.op, r.value.num, acc.num)
        && (forall i :: 0 <= i < |slots| ==>
          var x := ProjectVal(slots[i], proj.path);
          x.Some? && x.value.VNum? && Dominates(proj.op, r.value.num, x.value.num))
        && (r.value == acc || exists i :: 0 <= i < |slots| && ProjectVal(slots[i], proj.path) == Some(r.value)))
    decreases |slots|
  {
    hide Apply, ProjectVal;
    if slots != [] {
      FoldStep(p, fold, proj, acc, slots[0], depth);
      var next := Apply(p, FoldVal(fold), [acc, slots[0]], depth);
      if next.Ok? {
        ReduceDominates(p, fold, proj, next.value, slots[1..], depth);
        var r := FoldSlots(p, FoldVal(fold), acc, slots, depth);
        if r.Ok? && |slots| > 1 {
          assert forall i :: 0 < i < |slots| ==> slots[i] == slots[1..][i - 1];
          if r.value != next.value {
            var i :| 0 <= i < |slots| - 1 && ProjectVal(slots[1..][i], proj.path) == Some(r.value);
            assert ProjectVal(slots[i + 1], proj.path) == Some(r.value);
          }
        }
      }
    }
  }

  // ----- the induction -----

  /** Callers still to be inlined fit in the remaining depth. */
  predicate Enough(p: Program, visited: set<string>, depth: nat) {
    depth + |p.Keys - visited| < MAX_EVAL_DEPTH
  }

  ghost predicate Ready(p: Program, senv: SymEnv, env: map<string, Val>, visited: set<string>, st: LowState,
    v: Valuation, depth: nat)
  {
    ParamsDistinct(p) && StateOk(st, v) && RelEnv(senv, env, v) && OlderEnv(senv, st.count) && Enough(p, visited, depth)
  }

  lemma ReadyExtends(p: Program, senv: SymEnv, env: map<string, Val>, visited: set<string>, st: LowState,
    v: Valuation, depth: nat, st': LowState, w: Valuation)
    requires Ready(p, senv, env, visited, st, v, depth) && Extends(v, w) && StateOk(st', w)
    ensures Ready(p, senv, env, visited, st', w, depth)
  {
    RelEnvExtends(senv, env, v, w);
    OlderEnvGrows(senv, st.count, st'.count);
  }

  /** What lowering to symbol s, state st' and valuation w promises about evaluation r. */
  ghost predicate Preserved(s: Lowered, st': LowState, r: Outcome<Val>, v: Valuation, w: Valuation) {
    Extends(v, w) && StateOk(st', w) && OlderLow(s, st'.count)
    && !r.TooDeep? && (r.Ok? ==> RelLow(s, r.value, w))
  }

  /**
    The lowering theorem. In related environments, if term e lowers to l, then
    evaluation does not run out of depth, and a value it yields is denoted by l
    under a valuation w that extends v and satisfies the new hypotheses.
   */
  lemma {:induction false} LowerPreserves(solver: Solver, p: Program, e: Expr, senv: SymEnv, env: map<string, Val>,
    visited: set<string>, st: LowState, l: LowResult, v: Valuation, depth: nat) returns (w: Valuation)
    requires Ready(p, senv, env, visited, st, v, depth)
    requires Lower(solver, p, e, senv, visited, st) == Some(l)
    ensures Preserved(l.val, l.st, Eval(p, e, env, depth), v, w)
    decreases |p.Keys - visited|, 2, e, 2
  {
    hide *;
    match e
    case NumLit(_) => w := LeafPreserves(solver, p, e, senv, env, visited, st, l, v, depth);
    case StrLit(_) => w := LeafPreserves(solver, p, e, senv, env, visited, st, l, v, depth);
    case Var(_) => w := LeafPreserves(solver, p, e, senv, env, visited, st, l, v, depth);
    case PrimRef(_) => w := LeafPreserves(solver, p, e, senv, env, visited, st, l, v, depth);
    case FnRef(_) => w := LeafPreserves(solver, p, e, senv, env, visited, st, l, v, depth);
    case App(head, args) => w := AppPreserves(solver, p, head, args, senv, env, visited, st, l, v, depth);
    case Guards(cases) =>
      LeafReady(p, senv, env, visited, st, v, depth);
      var r := LowerGuardsOf(solver, p, cases, senv, env, visited, st, l, depth);
      w := GuardsPreserve(solver, p, cases, senv, env, visited, st, r, v, depth);
    case StructLit(inits) =>
      w := StructPreserves(solver, p, inits, senv, env, visited, st, l, v, depth);
    case Field(target, field) =>
      w := FieldPreserves(solver, p, target, field, senv, env, visited, st, l, v, depth);
    case Reduce(fold, init, vec) =>
      w := ReducePreserves(solver, p, fold, init, vec, senv, env, visited, st, l, v, depth);
  }

  lemma LeafPreserves(solver: Solver, p: Program, e: Expr, senv: SymEnv, env: map<string, Val>,
    visited: set<string>, st: LowState, l: LowResult, v: Valuation, depth: nat) returns (w: Valuation)
    requires e.NumLit? || e.StrLit? || e.Var? || e.PrimRef? || e.FnRef?
    requires Ready(p, senv, env, visited, st, v, depth)
    requires Lower(solver, p, e, senv, visited, st) == Some(l)
    ensures Preserved(l.val, l.st, Eval(p, e, env, depth), v, w)
  {
    hide Ready, StateOk, Rel, Older, RelEnv, OlderEnv, ParamsDistinct, Lower, Eval;
    LeafReady(p, senv, env, visited, st, v, depth);
    LeafMeaning(solver, p, e, senv, env, visited, st, l, depth);
    w := v;
    if e.Var? {
      EnvAt(senv, env, st.count, v, e.name);
    } else {
      ConstRel(v, st.count);
    }
  }

  lemma LeafMeaning(solver: Solver, p: Program, e: Expr, senv: SymEnv, env: map<string, Val>,
    visited: set<string>, st: LowState, l: LowResult, depth: nat)
    requires e.NumLit? || e.StrLit? || e.Var? || e.PrimRef? || e.FnRef?
    requires Lower(solver, p, e, senv, visited, st) == Some(l) && depth <= MAX_EVAL_DEPTH
    ensures l.st == st
    ensures match e
      case NumLit(q) => l.val == LVal(SConst(q)) && Eval(p, e, env, depth) == Ok(VNum(q))
      case StrLit(s) => l.val == LVal(SStrConst(s)) && Eval(p, e, env, depth) == Ok(VStr(s))
      case Var(x) => x in senv && l.val == LVal(senv[x])
        && Eval(p, e, env, depth) == if x in env then Ok(env[x]) else Stuck
      case PrimRef(op) => l.val == LFn(CalleePrim(op), []) && Eval(p, e, env, depth) == Ok(VFunc(CalleePrim(op), []))
      case FnRef(fn) => l.val == LFn(CalleeFn(fn), []) && Eval(p, e, env, depth) == Ok(VFunc(CalleeFn(fn), []))
      case _ => true
  {
  }

  lemma LowerGuardsOf(solver: Solver, p: Program, cases: seq<GuardCase>, senv: SymEnv, env: map<string, Val>,
    visited: set<string>, st: LowState, l: LowResult, depth: nat) returns (r: SymResult)
    requires Lower(solver, p, Guards(cases), senv, visited, st) == Some(l) && depth <= MAX_EVAL_DEPTH
    ensures LowerGuards(solver, p, cases, senv, visited, st) == Some(r) && l == LowResult(LVal(r.sym), r.st)
    ensures Eval(p, Guards(cases), env, depth) == EvalGuards(p, cases, env, depth)
  {
    hide LowerGuards, EvalGuards;
    r := LowerGuards(solver, p, cases, senv, visited, st).value;
  }

  lemma {:induction false} StructPreserves(solver: Solver, p: Program, inits: seq<FieldInit>, senv: SymEnv,
    env: map<string, Val>, visited: set<string>, st: LowState, l: LowResult, v: Valuation, depth: nat)
    returns (w: Valuation)
    requires Ready(p, senv, env, visited, st, v, depth)
    requires Lower(solver, p, StructLit(inits), senv, visited, st) == Some(l)
    ensures Preserved(l.val, l.st, Eval(p, StructLit(inits), env, depth), v, w)
    decreases |p.Keys - visited|, 2, StructLit(inits), 1
  {
    hide Ready, StateOk, Rel, Older, Lower, Eval, LowerInits, EvalInits;
    LeafReady(p, senv, env, visited, st, v, depth);
    StructMeaning(solver, p, inits, senv, env, visited, st, l, depth);
    var r := LowerInits(solver, p, inits, senv, visited, st).value;
    w := InitsPreserve(solver, p, inits, senv, env, visited, st, r, v, depth);
    if EvalInits(p, inits, env, depth).Ok? {
      RelFieldsStruct(r.fields, EvalInits(p, inits, env, depth).value, w);
    }
  }

  lemma StructMeaning(solver: Solver, p: Program, inits: seq<FieldInit>, senv: SymEnv, env: map<string, Val>,
    visited: set<string>, st: LowState, l: LowResult, depth: nat)
    requires Lower(solver, p, StructLit(inits), senv, visited, st) == Some(l) && depth <= MAX_EVAL_DEPTH
    ensures var r := LowerInits(solver, p, inits, senv, visited, st);
      r.Some? && l == LowResult(LVal(SStruct(r.value.fields)), r.value.st)
    ensures var r, xs := Eval(p, StructLit(inits), env, depth), EvalInits(p, inits, env, depth);
      r == if xs.Ok? then Ok(VStruct(xs.value)) else if xs.TooDeep? then TooDeep else Stuck
  {
    hide LowerInits, EvalInits;
  }

  lemma {:induction false} FieldPreserves(solver: Solver, p: Program, target: Expr, field: string, senv: SymEnv,
    env: map<string, Val>, visited: set<string>, st: LowState, l: LowResult, v: Valuation, depth: nat)
    returns (w: Valuation)
    requires Ready(p, senv, env, visited, st, v, depth)
    requires Lower(solver, p, Field(target, field), senv, visited, st) == Some(l)
    ensures Preserved(l.val, l.st, Eval(p, Field(target, field), env, depth), v, w)
    decreases |p.Keys - visited|, 2, Field(target, field), 1
  {
    hide Ready, StateOk, Rel, Older, LowerVal, Lower, Eval;
    LeafReady(p, senv, env, visited, st, v, depth);
    FieldMeaning(solver, p, target, field, senv, env, visited, st, l, depth);
    var r := LowerVal(solver, p, target, senv, visited, st).value;
    w := ValPreserves(solver, p, target, senv, env, visited, st, r, v, depth);
    FieldRel(r.sym, field, Eval(p, target, env, depth), r.st.count, w);
  }

  lemma FieldMeaning(solver: Solver, p: Program, target: Expr, field: string, senv: SymEnv, env: map<string, Val>,
    visited: set<string>, st: LowState, l: LowResult, depth: nat)
    requires Lower(solver, p, Field(target, field), senv, visited, st) == Some(l) && depth <= MAX_EVAL_DEPTH
    ensures var r := LowerVal(solver, p, target, senv, visited, st);
      r.Some? && r.value.sym.SStruct? && field in r.value.sym.fields
      && l == LowResult(LVal(r.value.sym.fields[field]), r.value.st)
    ensures var r, x := Eval(p, Field(target, field), env, depth), Eval(p, target, env, depth);
      r == if x.Ok? then
             if x.value.VStruct? && field in x.value.fields then Ok(x.value.fields[field]) else Stuck
           else if x.TooDeep? then TooDeep else Stuck
  {
    hide LowerVal;
  }

  lemma LeafReady(p: Program, senv: SymEnv, env: map<string, Val>, visited: set<string>, st: LowState,
    v: Valuation, depth: nat)
    requires Ready(p, senv, env, visited, st, v, depth)
    ensures ParamsDistinct(p) && StateOk(st, v) && RelEnv(senv, env, v) && OlderEnv(senv, st.count)
    ensures Enough(p, visited, depth) && depth < MAX_EVAL_DEPTH && |v.reduces| == st.count && Extends(v, v)
  {
  }

  lemma ConstRel(v: Valuation, n: nat)
    ensures forall q :: Rel(SConst(q), VNum(q), v) && Older(SConst(q), n)
    ensures forall s :: Rel(SStrConst(s), VStr(s), v) && Older(SStrConst(s), n)
  {
  }

  lemma EnvAt(senv: SymEnv, env: map<string, Val>, n: nat, v: Valuation, x: string)
    requires RelEnv(senv, env, v) && OlderEnv(senv, n) && x in senv
    ensures x in env && Rel(senv[x], env[x], v) && Older(senv[x], n)
  {
  }

  lemma FieldRel(s: Sym, field: string, r: Outcome<Val>, n: nat, v: Valuation)
    requires s.SStruct? && field in s.fields && Older(s, n) && (r.Ok? ==> Rel(s, r.value, v))
    ensures Older(s.fields[field], n)
    ensures r.Ok? ==> r.value.VStruct? && field in r.value.fields && Rel(s.fields[field], r.value.fields[field], v)
  {
  }

  lemma {:induction false} ValPreserves(solver: Solver, p: Program, e: Expr, senv: SymEnv, env: map<string, Val>,
    visited: set<string>, st: LowState, s: SymResult, v: Valuation, depth: nat) returns (w: Valuation)
    requires Ready(p, senv, env, visited, st, v, depth)
    requires LowerVal(solver, p, e, senv, visited, st) == Some(s)
    ensures Preserved(LVal(s.sym), s.st, Eval(p, e, env, depth), v, w)
    decreases |p.Keys - visited|, 2, e, 3
  {
    hide Lower, Eval, Ready, StateOk;
    w := LowerPreserves(solver, p, e, senv, env, visited, st, Lower(solver, p, e, senv, visited, st).value, v, depth);
  }

  lemma {:induction false} AppPreserves(solver: Solver, p: Program, head: Expr, args: seq<Expr>, senv: SymEnv,
    env: map<string, Val>, visited: set<string>, st: LowState, l: LowResult, v: Valuation, depth: nat)
    returns (w: Valuation)
    requires Ready(p, senv, env, visited, st, v, depth)
    requires Lower(solver, p, App(head, args), senv, visited, st) == Some(l)
    ensures Preserved(l.val, l.st, Eval(p, App(head, args), env, depth), v, w)
    decreases |p.Keys - visited|, 2, App(head, args), 1
  {
    hide Ready, StateOk, Rel, Older, Apply, Call, LowerArgs, EvalArgs, RelAll, OlderAll, RelEnv, OlderEnv, ParamsDistinct,
      Enough, LowArity, Lower, Eval;
    LeafReady(p, senv, env, visited, st, v, depth);
    AppMeaning(solver, p, head, args, senv, env, visited, st, l, depth);
    var h := Lower(solver, p, head, senv, visited, st).value;
    var w1 := LowerPreserves(solver, p, head, senv, env, visited, st, h, v, depth);
    ReadyExtends(p, senv, env, visited, st, v, depth, h.st, w1);
    var a := LowerArgs(solver, p, args, senv, visited, h.st).value;
    var w2 := ArgsPreserve(solver, p, args, senv, env, visited, h.st, a, w1, depth);
    ReadyExtends(p, senv, env, visited, h.st, w1, depth, a.st, w2);
    LeafReady(p, senv, env, visited, h.st, w1, depth);
    LeafReady(p, senv, env, visited, a.st, w2, depth);
    OlderAllGrows(h.val.bound, h.st.count, a.st.count);
    var f, xs := Eval(p, head, env, depth), EvalArgs(p, args, env, depth);
    if f.Ok? && xs.Ok? {
      RelAllExtends(h.val.bound, f.value.bound, w1, w2);
      w := ApplyPreserves(solver, p, h.val.callee, h.val.bound, a.syms, f.value, xs.value, visited, a.st, l, w2, depth);
    } else {
      var fw, xw := Witnesses(h.val.bound, w2), Witnesses(a.syms, w2);
      WitnessesRel(h.val.bound, w2);
      WitnessesRel(a.syms, w2);
      w := ApplyPreserves(solver, p, h.val.callee, h.val.bound, a.syms, VFunc(h.val.callee, fw), xw, visited, a.st, l,
        w2, depth);
    }
  }

  lemma AppMeaning(solver: Solver, p: Program, head: Expr, args: seq<Expr>, senv: SymEnv, env: map<string, Val>,
    visited: set<string>, st: LowState, l: LowResult, depth: nat)
    requires Lower(solver, p, App(head, args), senv, visited, st) == Some(l) && depth <= MAX_EVAL_DEPTH
    ensures var h := Lower(solver, p, head, senv, visited, st);
      h.Some? && h.value.val.LFn?
      && var a := LowerArgs(solver, p, args, senv, visited, h.value.st);
        a.Some? && LowersTo(solver, p, h.value.val.callee, h.value.val.bound, a.value.syms, visited, a.value.st, l)
    ensures var r, f, xs := Eval(p, App(head, args), env, depth), Eval(p, head, env, depth), EvalArgs(p, args, env, depth);
      if f.Ok? && xs.Ok? then r == Apply(p, f.value, xs.value, depth)
      else !r.Ok? && (r.TooDeep? ==> f.TooDeep? || xs.TooDeep?)
  {
    hide LowerArgs, EvalArgs, Apply, Call, LowArity;
  }

  /** l is what applying the lowered callee to the lowered arguments gives. */
  predicate LowersTo(solver: Solver, p: Program, callee: Callee, bound: seq<Sym>, syms: seq<Sym>,
    visited: set<string>, st: LowState, l: LowResult)
  {
    var arity := LowArity(p, callee, bound);
    if |syms| == arity then
      var r := Call(solver, p, callee, bound + syms, visited, st);
      r.Some? && l == LowResult(LVal(r.value.sym), r.value.st)
    else |syms| < arity && l == LowResult(LFn(callee, bound + syms), st)
  }

  /** A runtime value any symbol stands for. */
  function Witness(s: Sym, v: Valuation): Val {
    match s
    case SStruct(fs) => VStruct(map k | k in fs :: Witness(fs[k], v))
    case SVector(self, _) => VVec([Witness(self, v)])
    case _ => Meaning(s, v)
  }

  function Witnesses(ss: seq<Sym>, v: Valuation): seq<Val> {
    seq(|ss|, i requires 0 <= i < |ss| => Witness(ss[i], v))
  }

  lemma {:induction false} WitnessRel(s: Sym, v: Valuation)
    ensures Rel(s, Witness(s, v), v)
  {
    match s
    case SStruct(fs) =>
      forall k | k in fs
        ensures Rel(fs[k], Witness(fs[k], v), v)
      {
        WitnessRel(fs[k], v);
      }
    case SVector(self, _) =>
      WitnessRel(self, v);
      assert Rel(self, [Witness(self, v)][0], v);
    case _ => MeaningScalar(s, v);
  }

  lemma MeaningScalar(s: Sym, v: Valuation)
    ensures var w := Meaning(s, v); w.VNum? || w.VStr? || w.VBool?
  {
  }

  lemma WitnessesRel(ss: seq<Sym>, v: Valuation)
    ensures RelAll(ss, Witnesses(ss, v), v)
  {
    forall i | 0 <= i < |ss|
      ensures Rel(ss[i], Witnesses(ss, v)[i], v)
    {
      WitnessRel(ss[i], v);
    }
  }

  lemma {:induction false} ApplyPreserves(solver: Solver, p: Program, callee: Callee, bound: seq<Sym>, syms: seq<Sym>,
    f: Val, xs: seq<Val>, visited: set<string>, st: LowState, l: LowResult, v: Valuation, depth: nat)
    returns (w: Valuation)
    requires ParamsDistinct(p) && StateOk(st, v) && Enough(p, visited, depth)
    requires f.VFunc? && f.callee == callee && RelAll(bound, f.bound, v) && RelAll(syms, xs, v)
    requires OlderAll(bound, st.count) && OlderAll(syms, st.count)
    requires LowersTo(solver, p, callee, bound, syms, visited, st, l)
    ensures Preserved(l.val, l.st, Apply(p, f, xs, depth), v, w)
    decreases |p.Keys - visited|, 1
  {
    hide Rel, Older, RelAll, OlderAll, StateOk, Call, ParamsDistinct, Eval;
    StateCount(st, v);
    var all := bound + syms;
    RelAllConcat(bound, syms, f.bound, xs, v, st.count);
    if |syms| == LowArity(p, callee, bound) {
      w := CallPreserves(solver, p, callee, all, f, xs, visited, st,
        Call(solver, p, callee, all, visited, st).value, v, depth);
    } else {
      w := v;
    }
  }

  lemma RelAllConcat(ss: seq<Sym>, ts: seq<Sym>, xs: seq<Val>, ys: seq<Val>, v: Valuation, n: nat)
    requires RelAll(ss, xs, v) && RelAll(ts, ys, v) && OlderAll(ss, n) && OlderAll(ts, n)
    ensures RelAll(ss + ts, xs + ys, v) && OlderAll(ss + ts, n) && |ss| == |xs| && |ts| == |ys|
  {
    hide Rel, Older;
  }

  lemma RelAllOne(s: Sym, x: Val, v: Valuation, n: nat)
    requires Older(s, n)
    ensures OlderAll([s], n)
    ensures Rel(s, x, v) ==> RelAll([s], [x], v)
  {
    hide Rel, Older;
  }

  lemma RelAllNil(v: Valuation, n: nat)
    ensures RelAll([], [], v) && OlderAll([], n)
  {
  }

  lemma OlderAllConcat(ss: seq<Sym>, ts: seq<Sym>, n: nat)
    requires OlderAll(ss, n) && OlderAll(ts, n)
    ensures OlderAll(ss + ts, n)
  {
    hide Older;
  }

  lemma StateCount(st: LowState, v: Valuation)
    requires StateOk(st, v)
    ensures |v.reduces| == st.count && Extends(v, v)
  {
  }

  /** Calling a related callee on related arguments. */
  lemma {:induction false} CallPreserves(solver: Solver, p: Program, callee: Callee, all: seq<Sym>, f: Val, xs: seq<Val>,
    visited: set<string>, st: LowState, s: SymResult, v: Valuation, depth: nat) returns (w: Valuation)
    requires ParamsDistinct(p) && StateOk(st, v) && Enough(p, visited, depth)
    requires f.VFunc? && f.callee == callee && |xs| == Arity(p, f)
    requires RelAll(all, f.bound + xs, v) && OlderAll(all, st.count)
    requires Call(solver, p, callee, all, visited, st) == Some(s)
    ensures Preserved(LVal(s.sym), s.st, Apply(p, f, xs, depth), v, w)
    decreases |p.Keys - visited|, 0, 1
  {
    hide *;
    match callee
    case CalleePrim(op) =>
      PrimCallPreserves(solver, p, op, all, f, xs, visited, st, s, v, depth);
      w := v;
    case CalleeFn(fn) => w := FnCallPreserves(solver, p, fn, all, f, xs, visited, st, s, v, depth);
  }

  lemma PrimCallPreserves(solver: Solver, p: Program, op: Prim, all: seq<Sym>, f: Val, xs: seq<Val>,
    visited: set<string>, st: LowState, s: SymResult, v: Valuation, depth: nat)
    requires StateOk(st, v) && Enough(p, visited, depth)
    requires f.VFunc? && f.callee == CalleePrim(op) && |xs| == Arity(p, f)
    requires RelAll(all, f.bound + xs, v) && OlderAll(all, st.count)
    requires Call(solver, p, CalleePrim(op), all, visited, st) == Some(s)
    ensures Preserved(LVal(s.sym), s.st, Apply(p, f, xs, depth), v, v)
  {
    hide Rel, Eval, LowerVal, PrimOp, StateOk;
    StateCount(st, v);
    var a, b := (f.bound + xs)[0], (f.bound + xs)[1];
    assert Apply(p, f, xs, depth) == PrimOp(op, a, b);
    PrimOpNotDeep(op, a, b);
    if PrimOp(op, a, b).Ok? {
      PrimRel(op, all[0], all[1], a, b, v);
    }
  }

  lemma PrimOpNotDeep(op: Prim, a: Val, b: Val)
    ensures !PrimOp(op, a, b).TooDeep?
  {
  }

  lemma {:induction false} FnCallPreserves(solver: Solver, p: Program, fn: string, all: seq<Sym>, f: Val, xs: seq<Val>,
    visited: set<string>, st: LowState, s: SymResult, v: Valuation, depth: nat) returns (w: Valuation)
    requires ParamsDistinct(p) && StateOk(st, v) && Enough(p, visited, depth)
    requires f.VFunc? && f.callee == CalleeFn(fn) && |xs| == Arity(p, f)
    requires RelAll(all, f.bound + xs, v) && OlderAll(all, st.count)
    requires Call(solver, p, CalleeFn(fn), all, visited, st) == Some(s)
    ensures Preserved(LVal(s.sym), s.st, Apply(p, f, xs, depth), v, w)
    decreases |p.Keys - visited|, 0, 0
  {
    hide Rel, Older, RelEnv, OlderEnv, RelAll, OlderAll, StateOk, ParamsDistinct, Eval, LowerVal, Preserved;
    StateCount(st, v);
    var names, allXs := ParamNames(p[fn].params), f.bound + xs;
    RelAllLength(all, allXs, v);
    assert p.Keys - visited == (p.Keys - (visited + {fn})) + {fn};
    assert |p.Keys - visited| == |p.Keys - (visited + {fn})| + 1;
    BindRel(names, all, allXs, v);
    BindOlder(names, all, st.count);
    assert Apply(p, f, xs, depth) == Eval(p, p[fn].body, Bind(names, allXs), depth + 1);
    w := ValPreserves(solver, p, p[fn].body, Bind(names, all), Bind(names, allXs), visited + {fn}, st, s, v, depth + 1);
  }

  lemma RelAllLength(ss: seq<Sym>, ws: seq<Val>, v: Valuation)
    requires RelAll(ss, ws, v)
    ensures |ss| == |ws|
  {
  }

  lemma {:induction false} ArgsPreserve(solver: Solver, p: Program, args: seq<Expr>, senv: SymEnv,
    env: map<string, Val>, visited: set<string>, st: LowState, r: SymsResult, v: Valuation, depth: nat)
    returns (w: Valuation)
    requires Ready(p, senv, env, visited, st, v, depth)
    requires LowerArgs(solver, p, args, senv, visited, st) == Some(r)
    ensures Extends(v, w) && StateOk(r.st, w) && OlderAll(r.syms, r.st.count)
    ensures var xs := EvalArgs(p, args, env, depth);
      !xs.TooDeep? && (xs.Ok? ==> RelAll(r.syms, xs.value, w))
    decreases |p.Keys - visited|, 2, args
  {
    hide Ready, StateOk, Rel, Older, LowerVal, Eval, RelAll, OlderAll, RelEnv, OlderEnv, ParamsDistinct, Enough, LowerArgs,
      EvalArgs;
    LeafReady(p, senv, env, visited, st, v, depth);
    ArgsMeaning(solver, p, args, senv, env, visited, st, r, depth);
    if args == [] {
      w := v;
      RelAllNil(v, st.count);
    } else {
      var a := LowerVal(solver, p, args[0], senv, visited, st).value;
      var rest := LowerArgs(solver, p, args[1..], senv, visited, a.st).value;
      var w1 := ValPreserves(solver, p, args[0], senv, env, visited, st, a, v, depth);
      ReadyExtends(p, senv, env, visited, st, v, depth, a.st, w1);
      w := ArgsPreserve(solver, p, args[1..], senv, env, visited, a.st, rest, w1, depth);
      StateCount(a.st, w1);
      StateCount(r.st, w);
      OlderGrows(a.sym, a.st.count, r.st.count);
      RelAllOne(a.sym, VBool(true), w, r.st.count);
      OlderAllConcat([a.sym], rest.syms, r.st.count);
      var x, xs := Eval(p, args[0], env, depth), EvalArgs(p, args[1..], env, depth);
      if x.Ok? && xs.Ok? {
        RelExtends(a.sym, x.value, w1, w);
        RelAllOne(a.sym, x.value, w, r.st.count);
        RelAllConcat([a.sym], rest.syms, [x.value], xs.value, w, r.st.count);
      }
    }
  }

  lemma ArgsMeaning(solver: Solver, p: Program, args: seq<Expr>, senv: SymEnv, env: map<string, Val>,
    visited: set<string>, st: LowState, r: SymsResult, depth: nat)
    requires LowerArgs(solver, p, args, senv, visited, st) == Some(r)
    ensures args == [] ==> r == SymsResult([], st) && EvalArgs(p, args, env, depth) == Ok([])
    ensures args != [] ==>
      var a := LowerVal(solver, p, args[0], senv, visited, st);
      a.Some?
      && var rest := LowerArgs(solver, p, args[1..], senv, visited, a.value.st);
        rest.Some? && r == SymsResult([a.value.sym] + rest.value.syms, rest.value.st)
    ensures args != [] ==>
      var xs, x, ys := EvalArgs(p, args, env, depth), Eval(p, args[0], env, depth), EvalArgs(p, args[1..], env, depth);
      if x.Ok? && !x.value.VFunc? && ys.Ok? then xs == Ok([x.value] + ys.value)
      else !xs.Ok? && (xs.TooDeep? ==> x.TooDeep? || ys.TooDeep?)
  {
    hide LowerVal, Eval;
  }

  ghost predicate RelFields(fs: map<string, Sym>, xs: map<string, Val>, v: Valuation) {
    fs.Keys == xs.Keys && forall k :: k in fs ==> Rel(fs[k], xs[k], v)
  }

  lemma RelFieldsStruct(fs: map<string, Sym>, xs: map<string, Val>, v: Valuation)
    requires RelFields(fs, xs, v)
    ensures Rel(SStruct(fs), VStruct(xs), v)
  {
  }

  lemma {:induction false} InitsPreserve(solver: Solver, p: Program, inits: seq<FieldInit>, senv: SymEnv,
    env: map<string, Val>, visited: set<string>, st: LowState, r: FieldsResult, v: Valuation, depth: nat)
    returns (w: Valuation)
    requires Ready(p, senv, env, visited, st, v, depth)
    requires LowerInits(solver, p, inits, senv, visited, st) == Some(r)
    ensures Extends(v, w) && StateOk(r.st, w) && Older(SStruct(r.fields), r.st.count)
    ensures var xs := EvalInits(p, inits, env, depth);
      !xs.TooDeep? && (xs.Ok? ==> RelFields(r.fields, xs.value, w))
    decreases |p.Keys - visited|, 2, inits
  {
    hide Ready, StateOk, Rel, Older, LowerVal, Eval, RelEnv, OlderEnv, ParamsDistinct, Enough, LowerInits, EvalInits, RelFields;
    LeafReady(p, senv, env, visited, st, v, depth);
    InitsMeaning(solver, p, inits, senv, env, visited, st, r, depth);
    if inits == [] {
      w := v;
      NoFieldsRel(v, st.count);
    } else {
      var a := LowerVal(solver, p, inits[0].value, senv, visited, st).value;
      var rest := LowerInits(solver, p, inits[1..], senv, visited, a.st).value;
      var w1 := ValPreserves(solver, p, inits[0].value, senv, env, visited, st, a, v, depth);
      ReadyExtends(p, senv, env, visited, st, v, depth, a.st, w1);
      w := InitsPreserve(solver, p, inits[1..], senv, env, visited, a.st, rest, w1, depth);
      StateCount(a.st, w1);
      StateCount(r.st, w);
      OlderGrows(a.sym, a.st.count, r.st.count);
      AddFieldOlder(inits[0].name, a.sym, rest.fields, r.st.count);
      var x, xs := Eval(p, inits[0].value, env, depth), EvalInits(p, inits[1..], env, depth);
      if x.Ok? && xs.Ok? {
        RelExtends(a.sym, x.value, w1, w);
        AddFieldRel(inits[0].name, a.sym, rest.fields, x.value, xs.value, w);
      }
    }
  }

  lemma InitsMeaning(solver: Solver, p: Program, inits: seq<FieldInit>, senv: SymEnv, env: map<string, Val>,
    visited: set<string>, st: LowState, r: FieldsResult, depth: nat)
    requires LowerInits(solver, p, inits, senv, visited, st) == Some(r)
    ensures inits == [] ==> r == FieldsResult(map[], st) && EvalInits(p, inits, env, depth) == Ok(map[])
    ensures inits != [] ==>
      var a := LowerVal(solver, p, inits[0].value, senv, visited, st);
      a.Some?
      && var rest := LowerInits(solver, p, inits[1..], senv, visited, a.value.st);
        rest.Some? && r == FieldsResult(map[inits[0].name := a.value.sym] + rest.value.fields, rest.value.st)
    ensures inits != [] ==>
      var xs, x, ys := EvalInits(p, inits, env, depth), Eval(p, inits[0].value, env, depth),
        EvalInits(p, inits[1..], env, depth);
      if x.Ok? && !x.value.VFunc? && ys.Ok? then xs == Ok(map[inits[0].name := x.value] + ys.value)
      else !xs.Ok? && (xs.TooDeep? ==> x.TooDeep? || ys.TooDeep?)
  {
    hide LowerVal, Eval;
  }

  lemma NoFieldsRel(v: Valuation, n: nat)
    ensures RelFields(map[], map[], v) && Older(SStruct(map[]), n)
  {
  }

  lemma AddFieldOlder(x: string, s: Sym, fs: map<string, Sym>, n: nat)
    requires Older(s, n) && Older(SStruct(fs), n)
    ensures Older(SStruct(map[x := s] + fs), n)
  {
  }

  lemma AddFieldRel(x: string, s: Sym, fs: map<string, Sym>, y: Val, ys: map<string, Val>, v: Valuation)
    requires Rel(s, y, v) && RelFields(fs, ys, v)
    ensures RelFields(map[x := s] + fs, map[x := y] + ys, v)
  {
    hide Rel;
  }

  lemma {:induction false} GuardsPreserve(solver: Solver, p: Program, cases: seq<GuardCase>, senv: SymEnv,
    env: map<string, Val>, visited: set<string>, st: LowState, s: SymResult, v: Valuation, depth: nat)
    returns (w: Valuation)
    requires Ready(p, senv, env, visited, st, v, depth)
    requires LowerGuards(solver, p, cases, senv, visited, st) == Some(s)
    ensures Preserved(LVal(s.sym), s.st, EvalGuards(p, cases, env, depth), v, w)
    decreases |p.Keys - visited|, 2, cases
  {
    hide Ready, StateOk, Rel, Older, LowerVal, Eval, IteSym;
    assert cases[0].result < cases[0];
    if cases[0].Otherwise? {
      w := ValPreserves(solver, p, cases[0].result, senv, env, visited, st, s, v, depth);
    } else {
      assert cases[0].cond < cases[0];
      var rest := LowerGuards(solver, p, cases[1..], senv, visited, st).value;
      var c := LowerVal(solver, p, cases[0].cond, senv, visited, rest.st).value;
      var r := LowerVal(solver, p, cases[0].result, senv, visited, c.st).value;
      var w1 := GuardsPreserve(solver, p, cases[1..], senv, env, visited, st, rest, v, depth);
      ReadyExtends(p, senv, env, visited, st, v, depth, rest.st, w1);
      var w2 := ValPreserves(solver, p, cases[0].cond, senv, env, visited, rest.st, c, w1, depth);
      ReadyExtends(p, senv, env, visited, rest.st, w1, depth, c.st, w2);
      w := ValPreserves(solver, p, cases[0].result, senv, env, visited, c.st, r, w2, depth);
      CaseRel(c.sym, r.sym, rest.sym, s.sym, rest.st, c.st, r.st, w1, w2, w,
        Eval(p, cases[0].cond, env, depth), Eval(p, cases[0].result, env, depth), EvalGuards(p, cases[1..], env, depth));
    }
  }

  /** One guard around the rest: whichever branch the runtime takes, the ite denotes its value. */
  lemma CaseRel(c: Sym, r: Sym, rest: Sym, s: Sym, st1: LowState, st2: LowState, st3: LowState,
    w1: Valuation, w2: Valuation, w: Valuation, cv: Outcome<Val>, rv: Outcome<Val>, restV: Outcome<Val>)
    requires IteSym(c, r, rest) == Some(s)
    requires StateOk(st1, w1) && StateOk(st2, w2) && StateOk(st3, w) && Extends(w1, w2) && Extends(w2, w)
    requires Older(rest, st1.count) && Older(c, st2.count) && Older(r, st3.count)
    requires restV.Ok? ==> Rel(rest, restV.value, w1)
    requires cv.Ok? ==> Rel(c, cv.value, w2)
    requires rv.Ok? ==> Rel(r, rv.value, w)
    ensures Older(s, st3.count)
    ensures cv.Ok? && cv.value == VBool(true) && rv.Ok? ==> Rel(s, rv.value, w)
    ensures cv.Ok? && cv.value == VBool(false) && restV.Ok? ==> Rel(s, restV.value, w)
  {
    hide StateOk, Rel, Older, IteSym;
    StateCount(st1, w1);
    StateCount(st2, w2);
    StateCount(st3, w);
    OlderGrows(c, st2.count, st3.count);
    OlderGrows(rest, st1.count, st3.count);
    IteOlder(c, r, rest, s, st3.count);
    if cv.Ok? && cv.value.VBool? {
      RelExtends(c, cv.value, w2, w);
      if cv.value.b && rv.Ok? {
        IteRel(c, r, rest, s, true, rv.value, w);
      } else if !cv.value.b && restV.Ok? {
        RelExtends(rest, restV.value, w1, w);
        IteRel(c, r, rest, s, false, restV.value, w);
      }
    }
  }

  lemma ReduceMeaning(solver: Solver, p: Program, fold: Expr, init: Expr, vec: Expr, senv: SymEnv,
    env: map<string, Val>, visited: set<string>, st: LowState, l: LowResult, depth: nat)
    returns (a: SymResult, i: SymResult, proj: Projection, own: Sym)
    requires Lower(solver, p, Reduce(fold, init, vec), senv, visited, st) == Some(l) && depth <= MAX_EVAL_DEPTH
    ensures LowerVal(solver, p, vec, senv, visited, st) == Some(a) && a.sym.SVector?
    ensures LowerVal(solver, p, init, senv, visited, a.st) == Some(i)
    ensures FoldProjection(p, fold) == Some(proj) && ProjectSym(a.sym.self, proj.path) == Some(own)
    ensures l == LowResult(LVal(SVar(ReduceVar(i.st.count), SortNum)), Bounded(i.st, proj.op, i.sym, own))
    ensures fold.PrimRef? || fold.FnRef?
    ensures var r, x, y := Eval(p, Reduce(fold, init, vec), env, depth), Eval(p, init, env, depth),
        Eval(p, vec, env, depth);
      if x.Ok? && y.Ok? && y.value.VVec? then
        r == Stuck || r == FoldSlots(p, FoldVal(fold), x.value, y.value.slots, depth)
      else !r.Ok? && (r.TooDeep? ==> x.TooDeep? || y.TooDeep?)
  {
    hide LowerVal, FoldSlots, ProjectSym;
    a := LowerVal(solver, p, vec, senv, visited, st).value;
    i := LowerVal(solver, p, init, senv, visited, a.st).value;
    proj := FoldProjection(p, fold).value;
    own := ProjectSym(a.sym.self, proj.path).value;
    assert Eval(p, fold, env, depth) == Ok(FoldVal(fold)) || Eval(p, fold, env, depth) == Stuck;
  }

  lemma {:induction false} ReducePreserves(solver: Solver, p: Program, fold: Expr, init: Expr, vec: Expr, senv: SymEnv,
    env: map<string, Val>, visited: set<string>, st: LowState, l: LowResult, v: Valuation, depth: nat)
    returns (w: Valuation)
    requires Ready(p, senv, env, visited, st, v, depth)
    requires Lower(solver, p, Reduce(fold, init, vec), senv, visited, st) == Some(l)
    ensures Preserved(l.val, l.st, Eval(p, Reduce(fold, init, vec), env, depth), v, w)
    decreases |p.Keys - visited|, 2, Reduce(fold, init, vec), 1
  {
    hide Ready, StateOk, Rel, Older, Lower, Eval, LowerVal, ProjectSym, FoldProjection, FoldSlots, RelEnv, OlderEnv,
      ParamsDistinct, FoldVal, ProjectVal, Between, BoundsSym;
    LeafReady(p, senv, env, visited, st, v, depth);
    var a, i, proj, own := ReduceMeaning(solver, p, fold, init, vec, senv, env, visited, st, l, depth);
    var w1 := ValPreserves(solver, p, vec, senv, env, visited, st, a, v, depth);
    ReadyExtends(p, senv, env, visited, st, v, depth, a.st, w1);
    var w2 := ValPreserves(solver, p, init, senv, env, visited, a.st, i, w1, depth);
    StateCount(a.st, w1);
    StateCount(i.st, w2);
    OwnOlder(a.sym, a.st.count, proj.path, own, i.st.count);
    var r, x, y := Eval(p, Reduce(fold, init, vec), env, depth), Eval(p, init, env, depth), Eval(p, vec, env, depth);
    var m := Between(proj.op, i.sym, own, w2);
    if x.Ok? && y.Ok? && y.value.VVec? {
      ReduceDominates(p, fold, proj, x.value, y.value.slots, depth);
      if r.Ok? {
        RelExtends(a.sym, y.value, w1, w2);
        FoldBounds(p, fold, proj, a.sym, i.sym, own, x.value, y.value, r, w2, depth);
        m := r.value.num;
      }
    }
    w := w2.(reduces := w2.reduces + [m]);
    BoundsHold(i.st, proj.op, i.sym, own, m, w2);
    FreshRel(i.st, m, w2);
  }

  /** A fold that succeeds on the marked vector is a number on the right side of both bounds. */
  lemma FoldBounds(p: Program, fold: Expr, proj: Projection, s: Sym, init: Sym, own: Sym, x: Val, y: Val,
    r: Outcome<Val>, v: Valuation, depth: nat)
    requires ParamsDistinct(p) && FoldProjection(p, fold) == Some(proj) && depth < MAX_EVAL_DEPTH
    requires s.SVector? && Rel(s, y, v) && Rel(init, x, v) && ProjectSym(s.self, proj.path) == Some(own)
    requires y.VVec? && r.Ok? && r == FoldSlots(p, FoldVal(fold), x, y.slots, depth)
    ensures r.value.VNum?
    ensures SortOf(init).Some? ==> BoundsSym(proj.op, r.value.num, init, v)
    ensures SortOf(own).Some? ==> BoundsSym(proj.op, r.value.num, own, v)
  {
    hide Rel, ProjectSym, ProjectVal, FoldSlots, FoldVal, FoldProjection, ParamsDistinct, BoundsSym;
    var k := OwnSlot(s, proj.path, own, y, v);
    ReduceDominates(p, fold, proj, x, y.slots, depth);
    NumberBounds(proj.op, r.value.num, init, x, v);
    NumberBounds(proj.op, r.value.num, own, ProjectVal(y.slots[k], proj.path).value, v);
  }

  lemma OwnOlder(s: Sym, m: nat, path: seq<string>, own: Sym, n: nat)
    requires s.SVector? && Older(s, m) && ProjectSym(s.self, path) == Some(own) && m <= n
    ensures Older(own, n)
  {
    ProjectOlder(s.self, path, own, m);
    OlderGrows(own, m, n);
  }

  /** The slot the vector marker stands for, and its projection. */
  lemma OwnSlot(s: Sym, path: seq<string>, own: Sym, y: Val, v: Valuation) returns (k: nat)
    requires s.SVector? && Rel(s, y, v) && ProjectSym(s.self, path) == Some(own)
    ensures y.VVec? && k < |y.slots|
    ensures ProjectVal(y.slots[k], path).Some? && Rel(own, ProjectVal(y.slots[k], path).value, v)
  {
    k :| 0 <= k < |y.slots| && Rel(s.self, y.slots[k], v);
    ProjectRel(s.self, path, own, y.slots[k], v);
  }

  /** m is on the right side of a symbol the solver takes for a number. */
  predicate BoundsSym(op: Prim, m: real, s: Sym, v: Valuation) {
    Meaning(s, v).VNum? ==> Dominates(op, m, Meaning(s, v).num)
  }

  /** A number on the right side of both symbols. */
  function Between(op: Prim, init: Sym, own: Sym, v: Valuation): (m: real)
    ensures BoundsSym(op, m, init, v) && BoundsSym(op, m, own, v)
  {
    var x, y := Meaning(init, v), Meaning(own, v);
    if !x.VNum? then (if y.VNum? then y.num else 0.0)
    else if !y.VNum? then x.num
    else Arith(if op.Min? then Min else Max, x.num, y.num)
  }

  lemma NumberBounds(op: Prim, m: real, s: Sym, x: Val, v: Valuation)
    requires Rel(s, x, v) && x.VNum? && Dominates(op, m, x.num)
    ensures SortOf(s).Some? ==> BoundsSym(op, m, s, v)
  {
  }

  lemma FreshRel(st: LowState, m: real, v: Valuation)
    requires |v.reduces| == st.count
    ensures var s, w := SVar(ReduceVar(st.count), SortNum), v.(reduces := v.reduces + [m]);
      Rel(s, VNum(m), w) && Older(s, st.count + 1) && Extends(v, w)
  {
  }

  /** The two hypotheses of a reduce hold when its result is m. */
  lemma BoundsHold(st: LowState, op: Prim, init: Sym, own: Sym, m: real, v: Valuation)
    requires StateOk(st, v) && Older(init, st.count) && Older(own, st.count)
    requires SortOf(init).Some? ==> BoundsSym(op, m, init, v)
    requires SortOf(own).Some? ==> BoundsSym(op, m, own, v)
    ensures StateOk(Bounded(st, op, init, own), v.(reduces := v.reduces + [m]))
  {
    hide Older, Meaning, SortOf;
    var w := v.(reduces := v.reduces + [m]);
    var n := st.count;
    var r := SVar(ReduceVar(n), SortNum);
    forall i | 0 <= i < |st.hyps|
      ensures Older(st.hyps[i], n + 1) && HypHolds(st.hyps[i], w)
    {
      assert HypHolds(st.hyps[i], v);
      OlderGrows(st.hyps[i], n, n + 1);
      MeaningExtends(st.hyps[i], v, w);
    }
    BoundHolds(n, op, init, m, v);
    BoundHolds(n, op, own, m, v);
    var hyps := Bounded(st, op, init, own).hyps;
    assert hyps[|st.hyps|] == SCmp(Bound(op), r, init) && hyps[|st.hyps| + 1] == SCmp(Bound(op), r, own);
  }

  lemma BoundHolds(n: nat, op: Prim, s: Sym, m: real, v: Valuation)
    requires Older(s, n) && |v.reduces| == n
    requires SortOf(s).Some? ==> BoundsSym(op, m, s, v)
    ensures var h := SCmp(Bound(op), SVar(ReduceVar(n), SortNum), s);
      Older(h, n + 1) && HypHolds(h, v.(reduces := v.reduces + [m]))
  {
    var r, w := SVar(ReduceVar(n), SortNum), v.(reduces := v.reduces + [m]);
    OlderGrows(s, n, n + 1);
    MeaningExtends(s, v, w);
    if Sorted(SCmp(Bound(op), r, s)) {
      assert SortOf(r) == Some(SortNum) && SortOf(s) == SortOf(r);
      SortedMeaning(s, w);
      var y := Meaning(s, w).num;
      assert Meaning(r, w) == VNum(m) && !OnStrings(r, s);
      assert Verdict(Bound(op), CompareNums(m, y));
      assert Meaning(SCmp(Bound(op), r, s), w) == VBool(Verdict(Bound(op), CompareNums(m, y)));
    }
  }
}
