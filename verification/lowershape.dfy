/**
  The symbol of a typed term has the shape of its type: a struct symbol has exactly
  the fields its type lists. An obligation over an element type therefore compares
  every leaf of it.
 */
module LowerShape {
  import opened Options
  import opened Syntax
  import opened Interp
  import opened TypeRules
  import opened TypeSound
  import opened Symbolic
  import opened Lowering
  import opened LowerCorrect

  ghost predicate Shape(s: Sym, t: Type)
    decreases t
  {
    match t
    case TStruct(fs) =>
      s.SStruct? && s.fields.Keys == FieldNames(fs)
      && forall i :: 0 <= i < |fs| ==> fs[i].name in s.fields && Shape(s.fields[fs[i].name], fs[i].typ)
    case TUnknown => false
    case TFunc(_, _, _, _) => false
    case _ => !s.SStruct?
  }

  ghost predicate Shapes(ss: seq<Sym>, ts: seq<Type>) {
    |ss| == |ts| && forall i :: 0 <= i < |ss| ==> Shape(ss[i], ts[i])
  }

  ghost predicate ShapeEnv(senv: SymEnv, scope: Scope) {
    forall x :: x in scope && x in senv ==> Shape(senv[x], scope[x])
  }

  ghost predicate ShapeFn(sig: Sigs, p: Program, callee: Callee, bound: seq<Sym>, t: Type) {
    t.TFunc? && |t.params| == LowArity(p, callee, bound)
    && match callee
      case CalleePrim(op) => t.op == Some(op)
      case CalleeFn(fn) =>
        t.op.None? && fn in p && fn in sig && t.result == sig[fn] && |bound| <= |p[fn].params|
        && t.params == ParamTypes(p[fn].params)[|bound|..]
        && Shapes(bound, ParamTypes(p[fn].params)[..|bound|])
  }

  ghost predicate ShapeLow(sig: Sigs, p: Program, l: Lowered, t: Type) {
    match l
    case LVal(s) => Shape(s, t)
    case LFn(callee, bound) => ShapeFn(sig, p, callee, bound, t)
  }

  // ----- shapes and types -----

  lemma {:induction false} FieldNamesCard(fs: seq<TypedField>)
    requires forall i, j :: 0 <= i < j < |fs| ==> fs[i].name != fs[j].name
    ensures |FieldNames(fs)| == |fs|
  {
    if fs != [] {
      var k := |fs| - 1;
      FieldNamesCard(fs[..k]);
      assert FieldNames(fs) == FieldNames(fs[..k]) + {fs[k].name};
      assert fs[k].name !in FieldNames(fs[..k]);
    }
  }

  lemma SameNames(fs: seq<TypedField>, gs: seq<TypedField>)
    requires |fs| == |gs| && FieldNames(gs) <= FieldNames(fs)
    requires forall i, j :: 0 <= i < j < |fs| ==> fs[i].name != fs[j].name
    requires forall i, j :: 0 <= i < j < |gs| ==> gs[i].name != gs[j].name
    ensures FieldNames(fs) == FieldNames(gs)
  {
    FieldNamesCard(fs);
    FieldNamesCard(gs);
    SubsetEqual(FieldNames(gs), FieldNames(fs));
  }

  lemma SubsetEqual<T>(a: set<T>, b: set<T>)
    requires a <= b && |a| == |b|
    ensures a == b
  {
    assert b == a + (b - a);
  }

  lemma ShapeAt(s: Sym, fs: seq<TypedField>, name: string)
    requires Shape(s, TStruct(fs)) && FindField(fs, name).Some?
    ensures s.SStruct? && name in s.fields && Shape(s.fields[name], FindField(fs, name).value)
  {
    var i :| 0 <= i < |fs| && fs[i].name == name && fs[i].typ == FindField(fs, name).value;
    assert fs[i].name in s.fields;
  }

  lemma {:induction false} ShapeSub(s: Sym, a: Type, b: Type)
    requires Shape(s, a) && SubType(a, b) && ValueType(a) && ValueType(b)
    ensures Shape(s, b)
    decreases b
  {
    match (a, b)
    case (TStruct(fs), TStruct(gs)) =>
      forall i | 0 <= i < |gs|
        ensures gs[i].name in s.fields && Shape(s.fields[gs[i].name], gs[i].typ)
      {
        ShapeAt(s, fs, gs[i].name);
        FoundValueType(fs, gs[i].name);
        ShapeSub(s.fields[gs[i].name], FindField(fs, gs[i].name).value, gs[i].typ);
      }
      forall x | x in FieldNames(gs)
        ensures x in FieldNames(fs)
      {
        var i :| 0 <= i < |gs| && gs[i].name == x;
        assert FindField(fs, gs[i].name).Some?;
      }
      SameNames(fs, gs);
    case _ =>
  }

  lemma FoundValueType(fs: seq<TypedField>, name: string)
    requires ValueType(TStruct(fs)) && FindField(fs, name).Some?
    ensures ValueType(FindField(fs, name).value)
  {
  }

  lemma UnifyNames(fs: seq<TypedField>, gs: seq<TypedField>, us: seq<TypedField>)
    requires UnifyFields(fs, gs) == Some(us)
    ensures FieldNames(us) == FieldNames(fs) && FieldNames(fs) <= FieldNames(gs)
  {
    assert forall i :: 0 <= i < |fs| ==> us[i].name == fs[i].name;
    forall x | x in FieldNames(fs)
      ensures x in FieldNames(gs)
    {
      var i :| 0 <= i < |fs| && fs[i].name == x;
      UnifyFieldsAt(fs, gs, us, i);
    }
  }

  lemma {:induction false} ShapeUnifyLeft(s: Sym, a: Type, b: Type, u: Type)
    requires Unify(a, b) == Some(u) && Shape(s, a)
    ensures Shape(s, u)
    decreases a
  {
    match (a, b)
    case (TStruct(fs), TStruct(gs)) =>
      UnifyNames(fs, gs, u.fields);
      forall i | 0 <= i < |fs|
        ensures u.fields[i].name in s.fields && Shape(s.fields[u.fields[i].name], u.fields[i].typ)
      {
        UnifyFieldsAt(fs, gs, u.fields, i);
        assert fs[i].name in s.fields;
        ShapeUnifyLeft(s.fields[fs[i].name], fs[i].typ, FindField(gs, fs[i].name).value, u.fields[i].typ);
      }
    case _ =>
  }

  lemma {:induction false} ShapeUnifyRight(s: Sym, a: Type, b: Type, u: Type)
    requires Unify(a, b) == Some(u) && Shape(s, b) && (a.TUnknown? || ValueType(a)) && ValueType(b)
    ensures Shape(s, u)
    decreases a
  {
    match (a, b)
    case (TStruct(fs), TStruct(gs)) =>
      UnifyNames(fs, gs, u.fields);
      SameNames(gs, fs);
      forall i | 0 <= i < |fs|
        ensures u.fields[i].name in s.fields && Shape(s.fields[u.fields[i].name], u.fields[i].typ)
      {
        UnifyFieldsAt(fs, gs, u.fields, i);
        ShapeAt(s, gs, fs[i].name);
        FoundValueType(gs, fs[i].name);
        ShapeUnifyRight(s.fields[fs[i].name], fs[i].typ, FindField(gs, fs[i].name).value, u.fields[i].typ);
      }
    case _ =>
  }

  /** Spreading an ite over two symbols of one shape keeps the shape. */
  lemma {:induction false} ShapeIte(c: Sym, a: Sym, b: Sym, s: Sym, t: Type)
    requires IteSym(c, a, b) == Some(s) && Shape(a, t) && Shape(b, t)
    ensures Shape(s, t)
    decreases t
  {
    match t
    case TStruct(fs) =>
      forall i | 0 <= i < |fs|
        ensures fs[i].name in s.fields && Shape(s.fields[fs[i].name], fs[i].typ)
      {
        var k := fs[i].name;
        assert k in a.fields && k in b.fields;
        ShapeIte(c, a.fields[k], b.fields[k], s.fields[k], fs[i].typ);
      }
    case _ =>
  }

  // ----- the induction -----

  /** In a typed program the lowered symbol has the shape of the term's type. */
  lemma {:induction false} LoweredShape(solver: Solver, sig: Sigs, p: Program, e: Expr, scope: Scope, senv: SymEnv,
    visited: set<string>, st: LowState, l: LowResult, t: Type)
    requires ProgramTyped(false, sig, p) && ScopeOk(scope) && ShapeEnv(senv, scope)
    requires TypeOf(sig, p, e, scope) == Some(t) && Lower(solver, p, e, senv, visited, st) == Some(l)
    ensures ShapeLow(sig, p, l.val, t)
    decreases |p.Keys - visited|, 2, e, 2
  {
    hide *;
    match e
    case NumLit(_) => LeafShape(solver, sig, p, e, scope, senv, visited, st, l, t);
    case StrLit(_) => LeafShape(solver, sig, p, e, scope, senv, visited, st, l, t);
    case Var(_) => LeafShape(solver, sig, p, e, scope, senv, visited, st, l, t);
    case PrimRef(_) => LeafShape(solver, sig, p, e, scope, senv, visited, st, l, t);
    case FnRef(_) => LeafShape(solver, sig, p, e, scope, senv, visited, st, l, t);
    case App(head, args) => AppShape(solver, sig, p, head, args, scope, senv, visited, st, l, t);
    case Guards(cases) =>
      var r := LowerGuardsOf(solver, p, cases, senv, map[], visited, st, l, 0);
      GuardsTyped(sig, p, cases, scope, t);
      GuardShape(solver, sig, p, cases, scope, TUnknown, senv, visited, st, r, t);
      LValShape(sig, p, r.sym, t);
    case StructLit(inits) =>
      StructMeaning(solver, p, inits, senv, map[], visited, st, l, 0);
      StructShape(solver, sig, p, inits, scope, senv, visited, st, l, t);
    case Field(target, field) =>
      FieldMeaning(solver, p, target, field, senv, map[], visited, st, l, 0);
      FieldShape(solver, sig, p, target, field, scope, senv, visited, st, l, t);
    case Reduce(fold, init, vec) =>
      var a, i, proj, own := ReduceMeaning(solver, p, fold, init, vec, senv, map[], visited, st, l, 0);
      ReduceIsNumber(sig, p, fold, init, vec, scope, proj, t);
      VarShape(i.st.count, t);
      LValShape(sig, p, SVar(ReduceVar(i.st.count), SortNum), t);
  }

  lemma VarShape(k: nat, t: Type)
    requires t.TNum?
    ensures Shape(SVar(ReduceVar(k), SortNum), t)
  {
  }

  lemma LValShape(sig: Sigs, p: Program, s: Sym, t: Type)
    requires Shape(s, t)
    ensures ShapeLow(sig, p, LVal(s), t)
  {
  }

  lemma LeafShape(solver: Solver, sig: Sigs, p: Program, e: Expr, scope: Scope, senv: SymEnv,
    visited: set<string>, st: LowState, l: LowResult, t: Type)
    requires e.NumLit? || e.StrLit? || e.Var? || e.PrimRef? || e.FnRef?
    requires ShapeEnv(senv, scope)
    requires TypeOf(sig, p, e, scope) == Some(t) && Lower(solver, p, e, senv, visited, st) == Some(l)
    ensures ShapeLow(sig, p, l.val, t)
  {
    hide Lower, Eval;
    LeafMeaning(solver, p, e, senv, map[], visited, st, l, 0);
  }

  lemma GuardsTyped(sig: Sigs, p: Program, cases: seq<GuardCase>, scope: Scope, t: Type)
    requires TypeOf(sig, p, Guards(cases), scope) == Some(t)
    ensures cases != [] && GuardsType(sig, p, cases, scope, TUnknown) == Some(t)
  {
    hide GuardsType;
  }

  lemma {:induction false} ValShape(solver: Solver, sig: Sigs, p: Program, e: Expr, scope: Scope, senv: SymEnv,
    visited: set<string>, st: LowState, s: SymResult, t: Type)
    requires ProgramTyped(false, sig, p) && ScopeOk(scope) && ShapeEnv(senv, scope)
    requires TypeOf(sig, p, e, scope) == Some(t) && LowerVal(solver, p, e, senv, visited, st) == Some(s)
    ensures Shape(s.sym, t)
    decreases |p.Keys - visited|, 2, e, 3
  {
    hide Lower, TypeOf, ProgramTyped, ScopeOk, ShapeEnv, Shape;
    LoweredShape(solver, sig, p, e, scope, senv, visited, st, Lower(solver, p, e, senv, visited, st).value, t);
  }

  lemma AppTyped(sig: Sigs, p: Program, head: Expr, args: seq<Expr>, scope: Scope, t: Type)
    requires TypeOf(sig, p, App(head, args), scope) == Some(t)
    ensures var f, ts := TypeOf(sig, p, head, scope), TypesOf(sig, p, args, scope);
      f.Some? && f.value.TFunc? && ts.Some? && ApplyArgs(f.value, ts.value) == Some(t)
  {
    hide TypesOf, ApplyArgs;
  }

  lemma {:induction false} AppShape(solver: Solver, sig: Sigs, p: Program, head: Expr, args: seq<Expr>, scope: Scope,
    senv: SymEnv, visited: set<string>, st: LowState, l: LowResult, t: Type)
    requires ProgramTyped(false, sig, p) && ScopeOk(scope) && ShapeEnv(senv, scope)
    requires TypeOf(sig, p, App(head, args), scope) == Some(t)
    requires Lower(solver, p, App(head, args), senv, visited, st) == Some(l)
    ensures ShapeLow(sig, p, l.val, t)
    decreases |p.Keys - visited|, 2, App(head, args), 1
  {
    hide *;
    AppMeaning(solver, p, head, args, senv, map[], visited, st, l, 0);
    AppTyped(sig, p, head, args, scope, t);
    TypedSigs(false, sig, p);
    var f, ts := TypeOf(sig, p, head, scope).value, TypesOf(sig, p, args, scope).value;
    var h := Lower(solver, p, head, senv, visited, st).value;
    var a := LowerArgs(solver, p, args, senv, visited, h.st).value;
    LoweredShape(solver, sig, p, head, scope, senv, visited, st, h, f);
    TypeOfShape(sig, p, head, scope, f);
    LFnShape(sig, p, h.val, f);
    ArgsShape(solver, sig, p, args, scope, senv, visited, h.st, a, ts);
    ApplyShape(solver, sig, p, h.val.callee, h.val.bound, f, a.syms, ts, visited, a.st, l, t);
  }

  lemma LFnShape(sig: Sigs, p: Program, l: Lowered, t: Type)
    requires ShapeLow(sig, p, l, t) && l.LFn?
    ensures ShapeFn(sig, p, l.callee, l.bound, t)
  {
  }

  lemma {:induction false} ArgsShape(solver: Solver, sig: Sigs, p: Program, args: seq<Expr>, scope: Scope, senv: SymEnv,
    visited: set<string>, st: LowState, r: SymsResult, ts: seq<Type>)
    requires ProgramTyped(false, sig, p) && ScopeOk(scope) && ShapeEnv(senv, scope)
    requires TypesOf(sig, p, args, scope) == Some(ts) && LowerArgs(solver, p, args, senv, visited, st) == Some(r)
    ensures Shapes(r.syms, ts) && forall i :: 0 <= i < |ts| ==> ValueType(ts[i])
    decreases |p.Keys - visited|, 2, args
  {
    hide LowerVal, TypeOf, ProgramTyped, ScopeOk, ShapeEnv, Shape, ValueType, SigsOk, GoodFn, EvalArgs;
    if args != [] {
      TypedSigs(false, sig, p);
      TypeOfShape(sig, p, args[0], scope, ts[0]);
      var a := LowerVal(solver, p, args[0], senv, visited, st).value;
      ValShape(solver, sig, p, args[0], scope, senv, visited, st, a, ts[0]);
      ArgsShape(solver, sig, p, args[1..], scope, senv, visited, a.st,
        LowerArgs(solver, p, args[1..], senv, visited, a.st).value, ts[1..]);
    }
  }

  lemma {:induction false} ApplyShape(solver: Solver, sig: Sigs, p: Program, callee: Callee, bound: seq<Sym>, f: Type,
    syms: seq<Sym>, ts: seq<Type>, visited: set<string>, st: LowState, l: LowResult, t: Type)
    requires ProgramTyped(false, sig, p) && ShapeFn(sig, p, callee, bound, f) && GoodFn(f)
    requires Shapes(syms, ts) && (forall i :: 0 <= i < |ts| ==> ValueType(ts[i]))
    requires ApplyArgs(f, ts) == Some(t) && LowersTo(solver, p, callee, bound, syms, visited, st, l)
    ensures ShapeLow(sig, p, l.val, t)
    decreases |p.Keys - visited|, 1
  {
    hide ProgramTyped, Shape, ValueType, SubType, Call;
    if callee.CalleePrim? {
      PrimShape(solver, sig, p, callee.op, bound, f, syms, ts, visited, st, l, t);
    } else {
      FnShape(solver, sig, p, callee.fn, bound, f, syms, ts, visited, st, l, t);
    }
  }

  lemma PrimShape(solver: Solver, sig: Sigs, p: Program, op: Prim, bound: seq<Sym>, f: Type,
    syms: seq<Sym>, ts: seq<Type>, visited: set<string>, st: LowState, l: LowResult, t: Type)
    requires ShapeFn(sig, p, CalleePrim(op), bound, f) && GoodFn(f)
    requires |syms| == |ts| && (forall i :: 0 <= i < |ts| ==> ValueType(ts[i]))
    requires ApplyArgs(f, ts) == Some(t) && LowersTo(solver, p, CalleePrim(op), bound, syms, visited, st, l)
    ensures ShapeLow(sig, p, l.val, t)
  {
    hide Lower, LowerVal, SubType;
    ApplyArgsShape(f, ts, t);
  }

  lemma {:induction false} FnShape(solver: Solver, sig: Sigs, p: Program, fn: string, bound: seq<Sym>, f: Type,
    syms: seq<Sym>, ts: seq<Type>, visited: set<string>, st: LowState, l: LowResult, t: Type)
    requires ProgramTyped(false, sig, p) && ShapeFn(sig, p, CalleeFn(fn), bound, f) && GoodFn(f)
    requires Shapes(syms, ts) && (forall i :: 0 <= i < |ts| ==> ValueType(ts[i]))
    requires ApplyArgs(f, ts) == Some(t) && LowersTo(solver, p, CalleeFn(fn), bound, syms, visited, st, l)
    ensures ShapeLow(sig, p, l.val, t)
    decreases |p.Keys - visited|, 0, 1
  {
    hide ProgramTyped, Shape, ValueType, SubType, Call;
    var all, params := bound + syms, ParamTypes(p[fn].params);
    forall i | 0 <= i < |syms|
      ensures Shape(syms[i], f.params[i])
    {
      assert AcceptsArg(false, ts[i], f.params[i]);
      ShapeSub(syms[i], ts[i], f.params[i]);
    }
    if |syms| == |f.params| {
      assert forall i :: 0 <= i < |all| ==> Shape(all[i], params[i]) by {
        forall i | 0 <= i < |all|
          ensures Shape(all[i], params[i])
        {
          if i < |bound| {
            assert params[i] == params[..|bound|][i];
          } else {
            assert params[i] == f.params[i - |bound|];
          }
        }
      }
      CallShape(solver, sig, p, fn, all, visited, st, Call(solver, p, CalleeFn(fn), all, visited, st).value);
    } else {
      var more := bound + syms;
      assert params[|more|..] == params[|bound|..][|syms|..];
      forall i | 0 <= i < |more|
        ensures Shape(more[i], params[..|more|][i])
      {
        if i < |bound| {
          assert params[..|more|][i] == params[..|bound|][i];
        } else {
          assert params[..|more|][i] == f.params[i - |bound|];
        }
      }
    }
  }

  lemma {:induction false} CallShape(solver: Solver, sig: Sigs, p: Program, fn: string, all: seq<Sym>,
    visited: set<string>, st: LowState, r: SymResult)
    requires ProgramTyped(false, sig, p) && fn in sig && fn in p && Shapes(all, ParamTypes(p[fn].params))
    requires Call(solver, p, CalleeFn(fn), all, visited, st) == Some(r)
    ensures Shape(r.sym, sig[fn])
    decreases |p.Keys - visited|, 0, 0
  {
    hide Lower, LowerVal, TypeOf, Safe, Shape, ValueType, SubType;
    var d := p[fn];
    assert p.Keys - visited == (p.Keys - (visited + {fn})) + {fn};
    assert |p.Keys - visited| == |p.Keys - (visited + {fn})| + 1;
    CallScopeOk(d);
    CallShapeEnv(d, all);
    assert BodyOk(sig, p, fn);
    TypedSigs(false, sig, p);
    var bt := TypeOf(sig, p, d.body, FnScope(d)).value;
    TypeOfShape(sig, p, d.body, FnScope(d), bt);
    ValShape(solver, sig, p, d.body, FnScope(d), Bind(ParamNames(d.params), all), visited + {fn}, st, r, bt);
    ShapeSub(r.sym, bt, sig[fn]);
  }

  lemma CallShapeEnv(d: FnDef, all: seq<Sym>)
    requires Distinct(ParamNames(d.params)) && Shapes(all, ParamTypes(d.params))
    ensures ShapeEnv(Bind(ParamNames(d.params), all), FnScope(d))
  {
    hide Shape;
    forall x | x in FnScope(d)
      ensures x in Bind(ParamNames(d.params), all) && Shape(Bind(ParamNames(d.params), all)[x], FnScope(d)[x])
    {
      var i :| 0 <= i < |d.params| && ParamNames(d.params)[i] == x;
      BindAt(ParamNames(d.params), all, i);
      BindAt(ParamNames(d.params), ParamTypes(d.params), i);
    }
  }

  lemma {:induction false} GuardShape(solver: Solver, sig: Sigs, p: Program, cases: seq<GuardCase>, scope: Scope,
    acc: Type, senv: SymEnv, visited: set<string>, st: LowState, s: SymResult, t: Type)
    requires ProgramTyped(false, sig, p) && ScopeOk(scope) && ShapeEnv(senv, scope) && cases != []
    requires acc.TUnknown? || ValueType(acc)
    requires GuardsType(sig, p, cases, scope, acc) == Some(t)
    requires LowerGuards(solver, p, cases, senv, visited, st) == Some(s)
    ensures Shape(s.sym, t)
    ensures forall x :: Shape(x, acc) ==> Shape(x, t)
    decreases |p.Keys - visited|, 2, cases
  {
    hide LowerVal, TypeOf, ProgramTyped, ScopeOk, ShapeEnv, Shape, ValueType, SigsOk, GoodFn, Unify, IteSym, SubType;
    assert cases[0].result < cases[0];
    TypedSigs(false, sig, p);
    var rt := TypeOf(sig, p, cases[0].result, scope).value;
    TypeOfShape(sig, p, cases[0].result, scope, rt);
    var u := Unify(acc, rt).value;
    UnifyValueType(acc, rt, u);
    forall x | Shape(x, acc)
      ensures Shape(x, u)
    {
      ShapeUnifyLeft(x, acc, rt, u);
    }
    if cases[0].Otherwise? {
      ValShape(solver, sig, p, cases[0].result, scope, senv, visited, st, s, rt);
      ShapeUnifyRight(s.sym, acc, rt, u);
    } else {
      var rest := LowerGuards(solver, p, cases[1..], senv, visited, st).value;
      var c := LowerVal(solver, p, cases[0].cond, senv, visited, rest.st).value;
      var r := LowerVal(solver, p, cases[0].result, senv, visited, c.st).value;
      GuardShape(solver, sig, p, cases[1..], scope, u, senv, visited, st, rest, t);
      ValShape(solver, sig, p, cases[0].result, scope, senv, visited, c.st, r, rt);
      ShapeUnifyRight(r.sym, acc, rt, u);
      ShapeIte(c.sym, r.sym, rest.sym, s.sym, t);
    }
  }

  lemma StructTyped(sig: Sigs, p: Program, inits: seq<FieldInit>, scope: Scope, t: Type)
    requires TypeOf(sig, p, StructLit(inits), scope) == Some(t)
    ensures t.TStruct? && InitTypes(sig, p, inits, scope) == Some(t.fields)
  {
    hide InitTypes;
  }

  lemma {:induction false} StructShape(solver: Solver, sig: Sigs, p: Program, inits: seq<FieldInit>, scope: Scope,
    senv: SymEnv, visited: set<string>, st: LowState, l: LowResult, t: Type)
    requires ProgramTyped(false, sig, p) && ScopeOk(scope) && ShapeEnv(senv, scope)
    requires TypeOf(sig, p, StructLit(inits), scope) == Some(t)
    requires var r := LowerInits(solver, p, inits, senv, visited, st);
      r.Some? && l == LowResult(LVal(SStruct(r.value.fields)), r.value.st)
    ensures ShapeLow(sig, p, l.val, t)
    decreases |p.Keys - visited|, 2, StructLit(inits), 1
  {
    hide TypeOf, LowerInits, InitTypes, ProgramTyped, ScopeOk, ShapeEnv;
    StructTyped(sig, p, inits, scope, t);
    var r := LowerInits(solver, p, inits, senv, visited, st).value;
    InitsShape(solver, sig, p, inits, scope, senv, visited, st, r, t.fields);
  }

  ghost predicate ShapeFields(m: map<string, Sym>, fs: seq<TypedField>) {
    m.Keys == FieldNames(fs) && forall i :: 0 <= i < |fs| ==> fs[i].name in m && Shape(m[fs[i].name], fs[i].typ)
  }

  lemma {:induction false} InitsShape(solver: Solver, sig: Sigs, p: Program, inits: seq<FieldInit>, scope: Scope,
    senv: SymEnv, visited: set<string>, st: LowState, r: FieldsResult, fs: seq<TypedField>)
    requires ProgramTyped(false, sig, p) && ScopeOk(scope) && ShapeEnv(senv, scope)
    requires InitTypes(sig, p, inits, scope) == Some(fs)
    requires LowerInits(solver, p, inits, senv, visited, st) == Some(r)
    ensures ShapeFields(r.fields, fs)
    decreases |p.Keys - visited|, 2, inits
  {
    hide LowerVal, TypeOf, ProgramTyped, ScopeOk, ShapeEnv, Shape, FindField, ShapeFields;
    if inits == [] {
      NoFieldsShape();
    } else {
      InitTypesAt(sig, p, inits, scope, fs, 0);
      var a := LowerVal(solver, p, inits[0].value, senv, visited, st).value;
      var rest := LowerInits(solver, p, inits[1..], senv, visited, a.st).value;
      ValShape(solver, sig, p, inits[0].value, scope, senv, visited, st, a, fs[0].typ);
      InitsShape(solver, sig, p, inits[1..], scope, senv, visited, a.st, rest, fs[1..]);
      AddFieldShape(fs[0], a.sym, rest.fields, fs[1..]);
      assert [fs[0]] + fs[1..] == fs;
    }
  }

  lemma NoFieldsShape()
    ensures ShapeFields(map[], [])
  {
  }

  lemma AddFieldShape(f: TypedField, s: Sym, m: map<string, Sym>, fs: seq<TypedField>)
    requires Shape(s, f.typ) && ShapeFields(m, fs)
    requires forall j :: 0 <= j < |fs| ==> fs[j].name != f.name
    ensures ShapeFields(map[f.name := s] + m, [f] + fs)
  {
    hide Shape;
    var gs, n := [f] + fs, map[f.name := s] + m;
    assert f.name !in m;
    forall i | 0 <= i < |gs|
      ensures gs[i].name in n && Shape(n[gs[i].name], gs[i].typ)
    {
      if i > 0 {
        assert gs[i] == fs[i - 1] && fs[i - 1].name in m;
      }
    }
    assert FieldNames(gs) == {f.name} + FieldNames(fs) by {
      assert gs[0].name in FieldNames(gs);
      forall x | x in FieldNames(fs)
        ensures x in FieldNames(gs)
      {
        var i :| 0 <= i < |fs| && fs[i].name == x;
        assert gs[i + 1].name == x;
      }
    }
  }

  lemma FieldTypedOf(sig: Sigs, p: Program, target: Expr, field: string, scope: Scope, t: Type) returns (tt: Type)
    requires TypeOf(sig, p, Field(target, field), scope) == Some(t)
    ensures TypeOf(sig, p, target, scope) == Some(tt) && tt.TStruct? && FindField(tt.fields, field) == Some(t)
  {
    hide FindField;
    tt := TypeOf(sig, p, target, scope).value;
  }

  lemma {:induction false} FieldShape(solver: Solver, sig: Sigs, p: Program, target: Expr, field: string, scope: Scope,
    senv: SymEnv, visited: set<string>, st: LowState, l: LowResult, t: Type)
    requires ProgramTyped(false, sig, p) && ScopeOk(scope) && ShapeEnv(senv, scope)
    requires TypeOf(sig, p, Field(target, field), scope) == Some(t)
    requires var r := LowerVal(solver, p, target, senv, visited, st);
      r.Some? && r.value.sym.SStruct? && field in r.value.sym.fields
      && l == LowResult(LVal(r.value.sym.fields[field]), r.value.st)
    ensures ShapeLow(sig, p, l.val, t)
    decreases |p.Keys - visited|, 2, Field(target, field), 1
  {
    hide TypeOf, LowerVal, ProgramTyped, ScopeOk, ShapeEnv, Shape, FindField;
    var tt := FieldTypedOf(sig, p, target, field, scope, t);
    var r := LowerVal(solver, p, target, senv, visited, st).value;
    ValShape(solver, sig, p, target, scope, senv, visited, st, r, tt);
    ShapeAt(r.sym, tt.fields, field);
  }

  /** A recognised fold yields numbers only. */
  lemma ReduceIsNumber(sig: Sigs, p: Program, fold: Expr, init: Expr, vec: Expr, scope: Scope, proj: Projection, t: Type)
    requires ProgramTyped(false, sig, p) && ScopeOk(scope) && FoldProjection(p, fold) == Some(proj)
    requires TypeOf(sig, p, Reduce(fold, init, vec), scope) == Some(t)
    ensures t.TNum?
  {
    hide ReduceType, Safe, ProgramTyped, ScopeOk, SigsOk;
    var f, acc := TypeOf(sig, p, fold, scope).value, TypeOf(sig, p, init, scope).value;
    var v := TypeOf(sig, p, vec, scope).value;
    TypedSigs(false, sig, p);
    TypeOfShape(sig, p, fold, scope, f);
    TypeOfShape(sig, p, init, scope, acc);
    TypeOfShape(sig, p, vec, scope, v);
    ReduceTypeSound(true, f, acc, v.elem, REDUCE_ROUNDS, t);
    if fold.PrimRef? {
      PrimFoldNumber(f, t, v.elem);
    } else {
      FoldSignature(sig, p, fold.fn, proj);
      UnifyWithNumber(t, sig[fold.fn]);
    }
  }

  lemma PrimFoldNumber(f: Type, t: Type, elem: Type)
    requires GoodFn(f) && |f.params| == 2 && (f.op == Some(Max) || f.op == Some(Min)) && ValueType(t) && ValueType(elem)
    requires Closed(f, t, elem)
    ensures t.TNum?
  {
    assert f.bound + [t, elem] == [t, elem];
    assert AcceptsArg(false, [t, elem][0], f.params[0]);
  }

  lemma UnifyWithNumber(t: Type, n: Type)
    requires n.TNum? && ValueType(t) && Unify(t, n) == Some(t)
    ensures t.TNum?
  {
  }

  /** The signature of a recognised fold function is numeric, since its body is max or min of something. */
  lemma FoldSignature(sig: Sigs, p: Program, fn: string, proj: Projection)
    requires ProgramTyped(false, sig, p) && fn in sig && FoldProjection(p, FnRef(fn)) == Some(proj)
    ensures sig[fn].TNum?
  {
    hide Safe;
    var d := p[fn];
    assert BodyOk(sig, p, fn);
    var bt := TypeOf(sig, p, d.body, FnScope(d)).value;
    AppTyped(sig, p, d.body.head, d.body.args, FnScope(d), bt);
    CallScopeOk(d);
    TypedSigs(false, sig, p);
    TypeOfShape(sig, p, d.body, FnScope(d), bt);
    MaxIsNumber(TypeOf(sig, p, d.body.head, FnScope(d)).value, TypesOf(sig, p, d.body.args, FnScope(d)).value, bt);
  }

  lemma MaxIsNumber(f: Type, ts: seq<Type>, t: Type)
    requires f.TFunc? && |f.params| == 2 && f.bound == [] && f.op.Some? && !IsCmp(f.op.value)
    requires |ts| == 2 && ApplyArgs(f, ts) == Some(t) && ValueType(t)
    ensures t.TNum?
  {
  }
}
