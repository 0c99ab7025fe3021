/**
  The checker that runs: a class with its memo tables, whose methods make exactly the visits
  that Visits describes, and what checking a whole program decides. When no call path returns
  to an unannotated function, a program is accepted exactly when a consistent table of return
  types exists, and that table is the one computed: the hypothesis of type soundness.
 */
module Checker {
  import opened Options
  import opened NumTypes
  import opened Syntax
  import opened Interp
  import opened TypeRules
  import opened TypeSound
  import opened Calls
  import opened Memos
  import opened Visits

  // ----- checking a program -----

  ghost const FRESH := Memo(map[], {}, {}, false)

  /** Visits the functions of order from the i-th on; success answers the finished table. */
  ghost function CheckFrom(p: Program, m: Memo, order: seq<string>, i: nat): (a: Answer<Sigs>)
    requires i <= |order| && Marks(p, m) && forall fn :: fn in order ==> fn in p
    ensures Kept(m, a.memo)
    decreases |order| - i
  {
    hide Kept, Marks;
    KeptSame(m);
    if i == |order| then Answer(Some(m.result), m)
    else
      var t := VisitFn(p, m, order[i]);
      KeptShrinks(p, m, t.memo);
      if t.val.None? then Answer(None, t.memo)
      else
        var rest := CheckFrom(p, t.memo, order, i + 1);
        KeptThen(m, t.memo, rest.memo);
        rest
  }

  /** What the plan's functions, each once and in the plan's order, check to. */
  ghost function Check(p: Program, order: seq<string>): Answer<Sigs>
    requires Lists(order, p)
  {
    CheckFrom(p, FRESH, order, 0)
  }

  ghost predicate Lists(order: seq<string>, p: Program) {
    forall fn :: fn in order <==> fn in p
  }

  /** A guide whose ranking and target, if they are any good, the rest of the run follows. */
  ghost predicate OnCourse(p: Program, g: Guide, m: Memo) {
    (CyclesAnnotated(p, g.rank) ==> !m.leaked)
    && (CyclesAnnotated(p, g.rank) && Consistent(g.target, p) ==> SubSigs(m.result, g.target))
  }

  lemma {:induction false} CheckFromDone(p: Program, g: Guide, m: Memo, order: seq<string>, i: nat)
    requires ValidMemo(p, m) && Declared(p) && m.busy == {} && m.open == {}
    requires i <= |order| && Lists(order, p) && OnCourse(p, g, m)
    requires !m.leaked ==> forall j :: 0 <= j < i ==> order[j] in m.result
    ensures Marks(p, m)
    ensures var a := CheckFrom(p, m, order, i);
      OnCourse(p, g, a.memo) && (m.leaked ==> a.memo.leaked)
      && (CyclesAnnotated(p, g.rank) && Consistent(g.target, p) ==> a.val.Some?)
      && (a.val.Some? ==> a.val.value == a.memo.result)
      && (a.val.Some? && !a.memo.leaked ==> Consistent(a.val.value, p) && a.val.value.Keys == p.Keys)
    decreases |order| - i
  {
    hide ValidMemo, Done, TypeOf, Declared, Consistent, CyclesAnnotated, VisitFn, RefType;
    ValidMarks(p, m);
    if i == |order| {
      if !m.leaked {
        AllChecked(p, m);
      }
    } else {
      var fn := order[i];
      VisitFnDone(p, Outermost(g, fn), m, fn, map[]);
      var t := VisitFn(p, m, fn);
      OutermostDone(p, g, m, t.memo, fn, t.val);
      if t.val.Some? {
        CheckFromDone(p, g, t.memo, order, i + 1);
      }
    }
  }

  lemma FreshStarts(p: Program, g: Guide)
    requires Declared(p)
    ensures ValidMemo(p, FRESH) && Marks(p, FRESH) && OnCourse(p, g, FRESH)
  {
    FreshValid(p, FRESH);
  }

  /** An accepting run that handed out no unknown leaves a consistent table of all functions. */
  lemma CheckedConsistent(p: Program, order: seq<string>)
    requires Declared(p) && Lists(order, p)
    ensures var a := Check(p, order); a.val.Some? && !a.memo.leaked ==> Consistent(a.val.value, p) && a.val.value.Keys == p.Keys
  {
    hide Declared, Consistent, CheckFrom, CyclesAnnotated;
    var g := Guide(map[], 0, map[]);
    FreshStarts(p, g);
    CheckFromDone(p, g, FRESH, order, 0);
  }

  /**
    When no call path returns to an unannotated function, checking in any order hands out no
    unknown, accepts exactly the programs that have a consistent table of return types, and
    answers that table, which is the only one.
   */
  lemma CheckedExactly(p: Program, order: seq<string>)
    requires Declared(p) && Lists(order, p) && forall f :: f in p && p[f].ret.None? ==> !OnCycle(p, f)
    ensures var a := Check(p, order);
      !a.memo.leaked && (a.val.Some? <==> exists sig: Sigs :: Consistent(sig, p))
      && (a.val.Some? ==>
        Consistent(a.val.value, p) && a.val.value.Keys == p.Keys
        && forall sig: Sigs :: Consistent(sig, p) ==> SubSigs(a.val.value, sig))
  {
    hide Declared, Consistent, CheckFrom, CyclesAnnotated, OnCycle, SubSigs;
    RankExists(p);
    var rank :| CyclesAnnotated(p, rank);
    var a := Check(p, order);
    CheckedConsistent(p, order);
    var g := Guide(rank, 0, map[]);
    FreshStarts(p, g);
    CheckFromDone(p, g, FRESH, order, 0);
    forall sig: Sigs | Consistent(sig, p)
      ensures a.val.Some? && SubSigs(a.val.value, sig)
    {
      var h := Guide(rank, 0, sig);
      FreshStarts(p, h);
      CheckFromDone(p, h, FRESH, order, 0);
    }
  }

  // ----- when an unknown is handed out -----

  /** A table of agreeing bodies is closed under calls. */
  lemma TableClosed(p: Program, sig: Sigs, f: string, g: string)
    requires f in sig && CallsTo(p, f, g) && BodyOk(sig, p, f)
    ensures g in sig
  {
    RefsListed(sig, p, p[f].body, FnScope(p[f]));
  }

  lemma {:induction false} PathInTable(p: Program, sig: Sigs, path: seq<string>, i: nat)
    requires CallPath(p, path) && i < |path| && path[0] in sig
    requires forall f :: f in sig ==> f in p && BodyOk(sig, p, f)
    ensures path[i] in sig
  {
    hide BodyOk;
    if i > 0 {
      PathInTable(p, sig, path, i - 1);
      assert CallsTo(p, path[i - 1], path[i]);
      TableClosed(p, sig, path[i - 1], path[i]);
    }
  }

  /** An unannotated function on a call cycle, visited first, is rejected or has an unknown handed out. */
  lemma FirstLeaks(p: Program, fn: string)
    requires Declared(p) && fn in p && p[fn].ret.None? && OnCycle(p, fn)
    ensures Marks(p, FRESH)
    ensures var a := VisitFn(p, FRESH, fn); a.val.Some? ==> a.memo.leaked
  {
    hide Declared, Visit, BodyOk, TypeOf, Refs, Unvisited, Done, ValidMemo, OnCycle, ContainsUnknown, SubType;
    var g := Guide(map[], 0, map[]);
    FreshStarts(p, g);
    var marked := Marked(FRESH, fn);
    MarkValid(p, FRESH, marked, fn);
    VisitDone(p, g, marked, p[fn].body, FnScope(p[fn]));
    var body := Visit(p, marked, p[fn].body, FnScope(p[fn]));
    if body.val.Some? && !body.memo.leaked {
      FirstDone(p, g, marked, body.memo, fn, body.val);
      CycleListed(p, body.memo.result, fn);
      assert false;
    }
  }

  /** A closed table that types the body of a function on a cycle lists the function itself. */
  lemma CycleListed(p: Program, sig: Sigs, fn: string)
    requires fn in p && OnCycle(p, fn) && TypeOf(sig, p, p[fn].body, FnScope(p[fn])).Some?
    requires forall f :: f in sig ==> f in p && BodyOk(sig, p, f)
    ensures fn in sig
  {
    hide BodyOk, TypeOf, Refs;
    RefsListed(sig, p, p[fn].body, FnScope(p[fn]));
    var next :| CallsTo(p, fn, next) && Reaches(p, next, fn);
    var path :| CallPath(p, path) && path[0] == next && path[|path| - 1] == fn;
    PathInTable(p, sig, path, |path| - 1);
  }

  lemma FirstDone(p: Program, g: Guide, marked: Memo, last: Memo, fn: string, t: Option<Type>)
    requires marked == Marked(FRESH, fn) && fn in p && t.Some? && !last.leaked
    requires Done(p, g, marked, last, p[fn].body, FnScope(p[fn]), t)
    ensures TypeOf(last.result, p, p[fn].body, FnScope(p[fn])).Some? && fn !in last.result
    ensures forall f :: f in last.result ==> f in p && BodyOk(last.result, p, f)
  {
    hide TypeOf, BodyOk, Calm, Reachable, SigsOk, Explained;
  }

  /**
    A program that is accepted in every order is accepted without ever handing out an unknown,
    in every order, exactly when no call path returns to an unannotated function.
   */
  lemma LeaksExactly(p: Program)
    requires Declared(p) && forall order :: Lists(order, p) ==> Check(p, order).val.Some?
    ensures (forall order :: Lists(order, p) ==> !Check(p, order).memo.leaked)
      <==> forall f :: f in p && p[f].ret.None? ==> !OnCycle(p, f)
  {
    hide Declared, OnCycle, Consistent, Check;
    if forall f :: f in p && p[f].ret.None? ==> !OnCycle(p, f) {
      forall order | Lists(order, p)
        ensures !Check(p, order).memo.leaked
      {
        CheckedExactly(p, order);
      }
    }
    if fn :| fn in p && p[fn].ret.None? && OnCycle(p, fn) {
      var rest := Enumerated(p.Keys);
      var order := [fn] + rest;
      assert Lists(order, p);
      FirstLeaks(p, fn);
      CycleLeaks(p, order);
    }
  }

  lemma Enumerated(s: set<string>) returns (order: seq<string>)
    ensures forall x :: x in order <==> x in s
    decreases |s|
  {
    if s == {} {
      order := [];
    } else {
      var x :| x in s;
      var rest := Enumerated(s - {x});
      order := [x] + rest;
    }
  }

  lemma CycleLeaks(p: Program, order: seq<string>)
    requires Declared(p) && Lists(order, p) && order != [] && Marks(p, FRESH)
    requires var t := VisitFn(p, FRESH, order[0]); t.val.Some? ==> t.memo.leaked
    ensures Check(p, order).val.Some? ==> Check(p, order).memo.leaked
  {
    hide Declared, VisitFn;
    var t := VisitFn(p, FRESH, order[0]);
    if t.val.Some? {
      KeptShrinks(p, FRESH, t.memo);
      assert Kept(t.memo, CheckFrom(p, t.memo, order, 1).memo);
    }
  }

  // ----- call cycles without annotations -----

  const ANY_INT := TNum(NumType(DInt, SAny))

  const X_IS_POSITIVE := App(PrimRef(Gt), [Var("x"), NumLit(0.0)])

  /** Two functions that call each other, neither annotated: f is one on positive x, g is minus one on the rest. */
  function CyclicProgram(): Program {
    map[
      "f" := FnDef([Param("x", ANY_INT)],
        Guards([When(X_IS_POSITIVE, NumLit(1.0)), Otherwise(App(FnRef("g"), [Var("x")]))]), None),
      "g" := FnDef([Param("x", ANY_INT)],
        Guards([When(X_IS_POSITIVE, App(FnRef("f"), [Var("x")])), Otherwise(NumLit(-1.0))]), None)]
  }

  const CYCLE_SCOPE: Scope := map["x" := ANY_INT]

  const NON_POS := TNum(NumType(DInt, SNonPos))

  const NON_NEG := TNum(NumType(DInt, SNonNeg))

  lemma PositiveVisited(p: Program, m: Memo)
    requires Marks(p, m)
    ensures Visit(p, m, X_IS_POSITIVE, CYCLE_SCOPE) == Answer(Some(TBool), m)
  {
    hide Visit;
    var e := X_IS_POSITIVE;
    var ts := [ANY_INT, LiteralType(0.0)];
    LeafVisits(p, m, 0.0);
    assert VisitArgs(p, m, e, 2, CYCLE_SCOPE, ts) == Answer(Some(ts), m);
    assert [] + [ANY_INT] == [ANY_INT] && [ANY_INT] + [LiteralType(0.0)] == ts;
    assert VisitArgs(p, m, e, 1, CYCLE_SCOPE, [ANY_INT]) == Answer(Some(ts), m);
    assert VisitArgs(p, m, e, 0, CYCLE_SCOPE, []) == Answer(Some(ts), m);
    assert [] + ts == ts;
    AppVisits(p, m, e, CYCLE_SCOPE);
  }

  lemma LeafVisits(p: Program, m: Memo, q: real)
    requires Marks(p, m)
    ensures Visit(p, m, Var("x"), CYCLE_SCOPE) == Answer(Some(ANY_INT), m)
    ensures Visit(p, m, NumLit(q), CYCLE_SCOPE) == Answer(Some(LiteralType(q)), m)
    ensures Visit(p, m, PrimRef(Gt), CYCLE_SCOPE)
      == Answer(Some(TFunc([TNum(NUM_TOP), TNum(NUM_TOP)], TUnknown, Some(Gt), [])), m)
  {
  }

  lemma AppVisits(p: Program, m: Memo, e: Expr, scope: Scope)
    requires Marks(p, m) && e.App?
    ensures Visit(p, m, e, scope) == VisitApp(p, m, e, scope)
  {
    hide VisitApp;
  }

  /** A call f x answers f's return type. */
  lemma CallVisited(p: Program, m: Memo, fn: string, ret: Type, after: Memo)
    requires Marks(p, m) && fn in p && p[fn].params == [Param("x", ANY_INT)]
    requires VisitFn(p, m, fn) == Answer(Some(ret), after)
    ensures Visit(p, m, App(FnRef(fn), [Var("x")]), CYCLE_SCOPE) == Answer(Some(ret), after)
  {
    hide Visit, VisitFn, VisitArgs, Kept, Marks, ApplyArgs, Unvisited;
    var e := App(FnRef(fn), [Var("x")]);
    KeptShrinks(p, m, after);
    OneVisited(p, after, e);
    RefVisits(p, m, fn);
    assert ParamTypes(p[fn].params) == [ANY_INT];
    AnyIntArg(ret);
    AppVisits(p, m, e, CYCLE_SCOPE);
  }

  lemma OneVisited(p: Program, m: Memo, e: Expr)
    requires Marks(p, m) && e.App? && e.args == [Var("x")]
    ensures VisitArgs(p, m, e, 0, CYCLE_SCOPE, []) == Answer(Some([ANY_INT]), m)
  {
    hide Visit;
    LeafVisits(p, m, 0.0);
    assert VisitArgs(p, m, e, 1, CYCLE_SCOPE, [ANY_INT]) == Answer(Some([ANY_INT]), m);
    assert [] + [ANY_INT] == [ANY_INT];
  }

  lemma AnyIntArg(ret: Type)
    ensures ApplyArgs(TFunc([ANY_INT], ret, None, []), [ANY_INT]) == Some(ret)
  {
  }

  lemma RefVisits(p: Program, m: Memo, fn: string)
    requires Marks(p, m) && fn in p
    ensures var a := VisitFn(p, m, fn); Visit(p, m, FnRef(fn), CYCLE_SCOPE) == Answer(RefType(p, fn, a.val), a.memo)
  {
    hide VisitFn;
  }

  function TwoCases(yes: Expr, no: Expr): Expr {
    Guards([When(X_IS_POSITIVE, yes), Otherwise(no)])
  }

  lemma LastVisited(p: Program, mid: Memo, yes: Expr, no: Expr, s: Type, t: Type, after: Memo)
    requires Marks(p, mid) && !t.TFunc? && Unify(s, t).Some?
    requires Visit(p, mid, no, CYCLE_SCOPE) == Answer(Some(t), after)
    ensures VisitCases(p, mid, TwoCases(yes, no), 1, CYCLE_SCOPE, s) == Answer(Unify(s, t), after)
  {
    hide Visit, Kept, Unify, Marks;
    KeptShrinks(p, mid, after);
    assert VisitCases(p, after, TwoCases(yes, no), 2, CYCLE_SCOPE, Unify(s, t).value) == Answer(Unify(s, t), after);
  }

  lemma FirstVisited(p: Program, m: Memo, yes: Expr, no: Expr, s: Type, mid: Memo)
    requires Marks(p, m) && !s.TFunc? && Visit(p, m, yes, CYCLE_SCOPE) == Answer(Some(s), mid) && Marks(p, mid)
    ensures VisitCases(p, m, TwoCases(yes, no), 0, CYCLE_SCOPE, TUnknown)
      == VisitCases(p, mid, TwoCases(yes, no), 1, CYCLE_SCOPE, s)
  {
    hide Visit, Kept, Unify, Marks;
    PositiveVisited(p, m);
    UnifyUnknown(s);
    assert VisitResult(p, m, TwoCases(yes, no), 0, CYCLE_SCOPE, TUnknown)
      == VisitCases(p, mid, TwoCases(yes, no), 1, CYCLE_SCOPE, s);
  }

  /** Guards of the two functions' form answer the common type of their two results. */
  lemma TwoCasesVisited(p: Program, m: Memo, yes: Expr, no: Expr, s: Type, mid: Memo, t: Type, after: Memo)
    requires Marks(p, m) && Marks(p, mid) && !s.TFunc? && !t.TFunc? && Unify(s, t).Some?
    requires Visit(p, m, yes, CYCLE_SCOPE) == Answer(Some(s), mid)
    requires Visit(p, mid, no, CYCLE_SCOPE) == Answer(Some(t), after)
    ensures Visit(p, m, TwoCases(yes, no), CYCLE_SCOPE) == Answer(Unify(s, t), after)
  {
    hide Visit, VisitCases, Kept, Unify, Marks;
    FirstVisited(p, m, yes, no, s, mid);
    LastVisited(p, mid, yes, no, s, t, after);
    GuardsVisit(p, m, TwoCases(yes, no), CYCLE_SCOPE);
  }

  lemma UnifyUnknown(s: Type)
    ensures Unify(TUnknown, s) == Some(s)
  {
  }

  lemma GuardsVisit(p: Program, m: Memo, e: Expr, scope: Scope)
    requires Marks(p, m) && e.Guards? && e.cases != []
    ensures Visit(p, m, e, scope) == VisitCases(p, m, e, 0, scope, TUnknown)
  {
    hide VisitCases;
  }

  lemma CycleScope(fn: string)
    requires fn in CyclicProgram()
    ensures FnScope(CyclicProgram()[fn]) == CYCLE_SCOPE
  {
    var d := CyclicProgram()[fn];
    assert ParamNames(d.params) == ["x"] && ParamTypes(d.params) == [ANY_INT];
    assert Bind(["x"], [ANY_INT]) == CYCLE_SCOPE;
  }

  /** With f in progress, g is typed non-positive: f's result is taken as unknown and discarded. */
  lemma InnerVisited()
    ensures var p, m := CyclicProgram(), Marked(FRESH, "f");
      Marks(p, m) && VisitFn(p, m, "g") == Answer(Some(NON_POS), Memo(map["g" := NON_POS], {"f"}, {}, true))
  {
    hide Visit, VisitCases, VisitApp;
    var p, m := CyclicProgram(), Marked(FRESH, "f");
    var marked := Marked(m, "g");
    var leaked := marked.(leaked := true);
    assert VisitFn(p, marked, "f") == Answer(Some(TUnknown), leaked);
    CallVisited(p, marked, "f", TUnknown, leaked);
    LeafVisits(p, leaked, -1.0);
    assert IsInt(-1.0);
    TwoCasesVisited(p, marked, App(FnRef("f"), [Var("x")]), NumLit(-1.0), TUnknown, leaked, NON_POS, leaked);
    CycleScope("g");
    assert Visit(p, marked, p["g"].body, CYCLE_SCOPE) == Answer(Some(NON_POS), leaked);
    assert leaked.busy - {"g"} == {"f"};
    assert leaked.(busy := leaked.busy - {"g"}).result["g" := NON_POS] == map["g" := NON_POS];
  }

  /** The checker accepts the cyclic program, and its table says g returns no positive number. */
  lemma CycleAccepted()
    ensures Lists(["f", "g"], CyclicProgram())
    ensures Check(CyclicProgram(), ["f", "g"]).val == Some(map["f" := ANY_INT, "g" := NON_POS])
  {
    hide Visit, VisitCases, VisitApp;
    var p, marked := CyclicProgram(), Marked(FRESH, "f");
    var after := Memo(map["g" := NON_POS], {"f"}, {}, true);
    InnerVisited();
    CallVisited(p, marked, "g", NON_POS, after);
    LeafVisits(p, marked, 1.0);
    assert IsInt(1.0);
    TwoCasesVisited(p, marked, NumLit(1.0), App(FnRef("g"), [Var("x")]), NON_NEG, marked, NON_POS, after);
    CycleScope("f");
    assert Visit(p, marked, p["f"].body, CYCLE_SCOPE) == Answer(Some(ANY_INT), after);
    var last := Memo(map["f" := ANY_INT, "g" := NON_POS], {}, {}, true);
    assert after.busy - {"f"} == {};
    assert VisitFn(p, FRESH, "f") == Answer(Some(ANY_INT), last);
    var order := ["f", "g"];
    assert CheckFrom(p, last, order, 2) == Answer(Some(last.result), last);
    assert CheckFrom(p, last, order, 1) == Answer(Some(last.result), last);
  }

  /**
    Inference through an unannotated cycle is not sound: the checker accepts the program with a
    table by which g returns no positive number, and g of one is one.
   */
  lemma CycleUnsound()
    ensures var p, order := CyclicProgram(), ["f", "g"];
      Lists(order, p) && Check(p, order).val.Some? && Declared(p)
      && var ret := Check(p, order).val.value["g"];
        Eval(p, p["g"].body, map["x" := VNum(1.0)], 0) == Ok(VNum(1.0)) && HasType(VNum(1.0), p["g"].params[0].typ)
        && !HasType(VNum(1.0), ret)
  {
    hide Check;
    CycleAccepted();
    CycleRuns();
    assert IsInt(1.0);
  }

  lemma CycleRuns()
    ensures var p := CyclicProgram(); Eval(p, p["g"].body, map["x" := VNum(1.0)], 0) == Ok(VNum(1.0))
  {
    var p := CyclicProgram();
    var env := map["x" := VNum(1.0)];
    var fx := App(FnRef("f"), [Var("x")]);
    FirstCase(p, NumLit(1.0), App(FnRef("g"), [Var("x")]), env, 1);
    FirstCase(p, fx, NumLit(-1.0), env, 0);
    assert Eval(p, NumLit(1.0), env, 1) == Ok(VNum(1.0));
    assert Eval(p, FnRef("f"), env, 0) == Ok(VFunc(CalleeFn("f"), []));
    OneArgValue(p, Var("x"), env, 0, VNum(1.0));
    assert ParamNames(p["f"].params) == ["x"] && [] + [VNum(1.0)] == [VNum(1.0)];
    assert Bind(["x"], [VNum(1.0)]) == env;
  }

  lemma FirstCase(p: Program, yes: Expr, no: Expr, env: map<string, Val>, depth: nat)
    requires depth <= MAX_EVAL_DEPTH && env == map["x" := VNum(1.0)]
    ensures Eval(p, Guards([When(X_IS_POSITIVE, yes), Otherwise(no)]), env, depth) == Eval(p, yes, env, depth)
  {
    PositiveTrue(p, depth);
  }

  lemma PositiveTrue(p: Program, depth: nat)
    requires depth <= MAX_EVAL_DEPTH
    ensures Eval(p, X_IS_POSITIVE, map["x" := VNum(1.0)], depth) == Ok(VBool(true))
  {
    var env := map["x" := VNum(1.0)];
    var args := [Var("x"), NumLit(0.0)];
    assert Eval(p, args[0], env, depth) == Ok(VNum(1.0)) && Eval(p, args[1], env, depth) == Ok(VNum(0.0));
    OneArgValue(p, args[1], env, depth, VNum(0.0));
    assert args[1..] == [args[1]];
    EvalArgsCons(p, args, env, depth, VNum(1.0), [VNum(0.0)]);
    assert Eval(p, PrimRef(Gt), env, depth) == Ok(VFunc(CalleePrim(Gt), []));
  }

  lemma OneArgValue(p: Program, x: Expr, env: map<string, Val>, depth: nat, v: Val)
    requires Eval(p, x, env, depth) == Ok(v) && !v.VFunc?
    ensures EvalArgs(p, [x], env, depth) == Ok([v])
  {
    assert [x][1..] == [];
    EvalArgsCons(p, [x], env, depth, v, []);
    assert [v] + [] == [v];
  }

  lemma EvalArgsCons(p: Program, args: seq<Expr>, env: map<string, Val>, depth: nat, v: Val, vs: seq<Val>)
    requires args != [] && Eval(p, args[0], env, depth) == Ok(v) && !v.VFunc?
    requires if args[1..] == [] then vs == [] else EvalArgs(p, args[1..], env, depth) == Ok(vs)
    ensures EvalArgs(p, args, env, depth) == Ok([v] + vs)
  {
  }

  // ----- the running checker -----

  /** The accumulator type of a fold: at most sixteen widenings, stopping at a fixpoint or an unknown. */
  method TypeOfFold(f: Type, init: Type, elem: Type) returns (r: Option<Type>)
    requires f.TFunc?
    ensures r == ReduceType(f, init, elem, REDUCE_ROUNDS)
  {
    hide ApplyArgs, Unify, TypeEqual;
    var acc := init;
    for i := 0 to REDUCE_ROUNDS
      invariant ReduceType(f, init, elem, REDUCE_ROUNDS) == ReduceType(f, acc, elem, REDUCE_ROUNDS - i)
    {
      var sat := ApplyArgs(f, [acc, elem]);
      if sat.None? {
        return None;
      }
      if sat.value.TUnknown? {
        break;
      }
      var next := Unify(acc, sat.value);
      if next.None? {
        return None;
      }
      if TypeEqual(next.value, acc) {
        break;
      }
      acc := next.value;
    }
    r := Some(acc);
  }

  class Checker {
    const p: Program
    var result: Sigs
    var inProgress: set<string>
    /** Annotated functions whose bodies are still being visited. */
    ghost var open: set<string>
    /** Whether an unknown type has been handed out for a function in progress. */
    ghost var leaked: bool

    constructor (p: Program)
      ensures this.p == p && Now() == FRESH
    {
      this.p := p;
      result, inProgress, open, leaked := map[], {}, {}, false;
    }

    ghost function Now(): Memo
      reads this
    {
      Memo(result, inProgress, open, leaked)
    }

    /** Types a term. */
    method TypeOfTerm(e: Expr, scope: Scope) returns (r: Option<Type>)
      requires Marks(p, Now())
      modifies this
      ensures Answer(r, Now()) == Visit(p, old(Now()), e, scope)
      decreases Unvisited(p, Now()), 1, e, 1
    {
      hide VisitApp, VisitCases, VisitInits, VisitReduce, VisitFn, Kept, Marks, Unvisited;
      match e
      case NumLit(q) => r := Some(LiteralType(q));
      case StrLit(_) => r := Some(TString);
      case Var(x) => r := if x in scope then Some(scope[x]) else None;
      case PrimRef(op) => r := Some(TFunc([TNum(NUM_TOP), TNum(NUM_TOP)], TUnknown, Some(op), []));
      case FnRef(fn) =>
        if fn !in p {
          return None;
        }
        var t := InferReturn(fn);
        r := RefType(p, fn, t);
      case App(_, _) => r := TypeOfApp(e, scope);
      case Guards(_) => r := TypeOfGuards(e, scope);
      case StructLit(_) => r := TypeOfStruct(e, scope);
      case Field(target, field) =>
        var t := TypeOfTerm(target, scope);
        if t.None? {
          return None;
        }
        r := if t.value.TStruct? then FindField(t.value.fields, field) else None;
      case Reduce(_, _, _) => r := TypeOfReduce(e, scope);
    }

    /** An application: the head, then the arguments from left to right. */
    method TypeOfApp(e: Expr, scope: Scope) returns (r: Option<Type>)
      requires Marks(p, Now()) && e.App?
      modifies this
      ensures Answer(r, Now()) == VisitApp(p, old(Now()), e, scope)
      decreases Unvisited(p, Now()), 1, e, 0
    {
      hide Visit, Kept, Marks, Unvisited, ApplyArgs;
      ghost var start := Now();
      var f := TypeOfTerm(e.head, scope);
      if f.None? || !f.value.TFunc? {
        return None;
      }
      KeptShrinks(p, start, Now());
      ghost var mid := Now();
      var ts: seq<Type> := [];
      for i := 0 to |e.args|
        invariant Marks(p, Now()) && Unvisited(p, Now()) <= Unvisited(p, start)
        invariant VisitArgs(p, mid, e, 0, scope, []) == VisitArgs(p, Now(), e, i, scope, ts)
      {
        ghost var before := Now();
        var t := TypeOfTerm(e.args[i], scope);
        if t.None? || t.value.TFunc? {
          return None;
        }
        KeptShrinks(p, before, Now());
        ts := ts + [t.value];
      }
      r := ApplyArgs(f.value, ts);
    }

    /** Guards: each condition a truth value, the results widened to a common type, `otherwise` last. */
    method TypeOfGuards(e: Expr, scope: Scope) returns (r: Option<Type>)
      requires Marks(p, Now()) && e.Guards?
      modifies this
      ensures Answer(r, Now())
        == if e.cases == [] then Answer(None, old(Now())) else VisitCases(p, old(Now()), e, 0, scope, TUnknown)
      decreases Unvisited(p, Now()), 1, e, 0
    {
      hide Visit, Kept, Marks, Unvisited, Unify;
      ghost var start := Now();
      if e.cases == [] {
        return None;
      }
      var acc: Type := TUnknown;
      for i := 0 to |e.cases|
        invariant Marks(p, Now()) && Unvisited(p, Now()) <= Unvisited(p, start)
        invariant VisitCases(p, start, e, 0, scope, TUnknown) == VisitCases(p, Now(), e, i, scope, acc)
      {
        CaseSmaller(e, i);
        ghost var before := Now();
        if e.cases[i].Otherwise? != (i == |e.cases| - 1) {
          return None;
        }
        if e.cases[i].When? {
          var c := TypeOfTerm(e.cases[i].cond, scope);
          if !CondOk(c) {
            return None;
          }
          KeptShrinks(p, before, Now());
        }
        ghost var mid := Now();
        var t := TypeOfTerm(e.cases[i].result, scope);
        if t.None? || t.value.TFunc? {
          return None;
        }
        var next := Unify(acc, t.value);
        if next.None? {
          return None;
        }
        KeptShrinks(p, mid, Now());
        acc := next.value;
      }
      r := Some(acc);
    }

    /** A struct literal: distinct names, values that are not functions. */
    method TypeOfStruct(e: Expr, scope: Scope) returns (r: Option<Type>)
      requires Marks(p, Now()) && e.StructLit?
      modifies this
      ensures var fs := VisitInits(p, old(Now()), e, 0, scope, []);
        Answer(r, Now()) == Answer(if fs.val.None? then None else Some(TStruct(fs.val.value)), fs.memo)
      decreases Unvisited(p, Now()), 1, e, 0
    {
      hide Visit, Kept, Marks, Unvisited;
      ghost var start := Now();
      var fs: seq<TypedField> := [];
      var seen: set<string> := {};
      for i := 0 to |e.inits|
        invariant Marks(p, Now()) && Unvisited(p, Now()) <= Unvisited(p, start)
        invariant VisitInits(p, start, e, 0, scope, []) == VisitInits(p, Now(), e, i, scope, fs)
        invariant forall x :: x in seen <==> exists j :: 0 <= j < i && e.inits[j].name == x
      {
        InitSmaller(e, i);
        ghost var before := Now();
        assert e.inits[i].name in seen <==> Repeated(e.inits, i);
        if e.inits[i].name in seen {
          return None;
        }
        seen := seen + {e.inits[i].name};
        var t := TypeOfTerm(e.inits[i].value, scope);
        if t.None? || t.value.TFunc? {
          return None;
        }
        KeptShrinks(p, before, Now());
        fs := fs + [TypedField(e.inits[i].name, t.value)];
      }
      r := Some(TStruct(fs));
    }

    /** A fold: a binary function, an initial value, a vector, and the widening loop. */
    method TypeOfReduce(e: Expr, scope: Scope) returns (r: Option<Type>)
      requires Marks(p, Now()) && e.Reduce?
      modifies this
      ensures Answer(r, Now()) == VisitReduce(p, old(Now()), e, scope)
      decreases Unvisited(p, Now()), 1, e, 0
    {
      hide Visit, Kept, Marks, Unvisited, ReduceType;
      ghost var start := Now();
      var f := TypeOfTerm(e.fold, scope);
      if f.None? || !f.value.TFunc? || |f.value.params| != 2 {
        return None;
      }
      KeptShrinks(p, start, Now());
      ghost var mid := Now();
      var acc := TypeOfTerm(e.init, scope);
      if acc.None? || acc.value.TFunc? {
        return None;
      }
      KeptShrinks(p, mid, Now());
      var v := TypeOfTerm(e.vec, scope);
      if v.None? || !v.value.TVector? {
        return None;
      }
      r := TypeOfFold(f.value, acc.value, v.value.elem);
    }

    /** The return type of a function, checking its body on the first visit. */
    method InferReturn(fn: string) returns (r: Option<Type>)
      requires Marks(p, Now()) && fn in p
      modifies this
      ensures Answer(r, Now()) == VisitFn(p, old(Now()), fn)
      decreases Unvisited(p, Now()), 0
    {
      hide Visit, ContainsUnknown, SubType, Unvisited;
      ghost var start := Now();
      if fn in result {
        return Some(result[fn]);
      }
      if p[fn].ret.Some? {
        result, open := result[fn := p[fn].ret.value], open + {fn};
        UnvisitedDrops(p, start, Now(), fn);
        var body := TypeOfTerm(p[fn].body, FnScope(p[fn]));
        open := start.open;
        return if BodyAccepted(p, fn, body) then p[fn].ret else None;
      }
      if fn in inProgress {
        leaked := true;
        return Some(TUnknown);
      }
      inProgress := inProgress + {fn};
      UnvisitedDrops(p, start, Now(), fn);
      var body := TypeOfTerm(p[fn].body, FnScope(p[fn]));
      inProgress := inProgress - {fn};
      if !BodyAccepted(p, fn, body) {
        return None;
      }
      result := result[fn := body.value];
      r := body;
    }

    /** Checks the plan's functions in the plan's order. */
    method CheckAll(order: seq<string>) returns (ok: bool)
      requires Now() == FRESH && Lists(order, p) && Declared(p)
      modifies this
      ensures Answer(if ok then Some(result) else None, Now()) == Check(p, order)
      ensures ok && !leaked ==> Consistent(result, p) && result.Keys == p.Keys
    {
      hide Kept, Marks, VisitFn, Consistent, Declared;
      FreshStarts(p, Guide(map[], 0, map[]));
      CheckedConsistent(p, order);
      for i := 0 to |order|
        invariant Marks(p, Now()) && Check(p, order) == CheckFrom(p, Now(), order, i)
      {
        ghost var before := Now();
        var t := InferReturn(order[i]);
        if t.None? {
          return false;
        }
        KeptShrinks(p, before, Now());
      }
      ok := true;
    }
  }
}
