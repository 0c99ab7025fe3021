/**
  The checker's run as a function of its memo: visiting a term or a function types it and
  extends the memo. A visit on a valid memo types the term, restores its marks, hands out an
  unknown only inside a call cycle, and rejects nothing that a consistent table types.
 */
module Visits {
  import opened Options
  import opened NumTypes
  import opened Syntax
  import opened TypeRules
  import opened TypeSound
  import opened Calls
  import opened Memos

  // ----- the run of the checker as a function of its memo -----

  /** What a visit answers, and the memo it leaves. */
  datatype Answer<+T> = Answer(val: Option<T>, memo: Memo)

  /** Only functions without annotation are marked as in progress. */
  ghost predicate Marks(p: Program, m: Memo) {
    forall h :: h in m.busy ==> h in p && p[h].ret.None?
  }

  /** Entries are only added, the marks are as before, and a leak stays one. */
  ghost predicate Kept(a: Memo, b: Memo) {
    SubSigs(a.result, b.result) && b.busy == a.busy && (a.leaked ==> b.leaked)
  }

  lemma KeptShrinks(p: Program, a: Memo, b: Memo)
    requires Kept(a, b) && Marks(p, a)
    ensures Unvisited(p, b) <= Unvisited(p, a) && Marks(p, b)
  {
    UnvisitedShrinks(p, a, b);
  }

  lemma KeptSame(a: Memo)
    ensures Kept(a, a)
  {
  }

  lemma KeptThen(a: Memo, b: Memo, c: Memo)
    requires Kept(a, b) && Kept(b, c)
    ensures Kept(a, c)
  {
  }

  /** The type of a term and the memo after visiting it, parts from left to right, up to the first error. */
  ghost function Visit(p: Program, m: Memo, e: Expr, scope: Scope): (a: Answer<Type>)
    requires Marks(p, m)
    ensures Kept(m, a.memo)
    decreases Unvisited(p, m), 1, e, 1
  {
    hide Unvisited, FieldRule, Kept, Marks;
    KeptSame(m);
    match e
    case NumLit(q) => Answer(Some(LiteralType(q)), m)
    case StrLit(_) => Answer(Some(TString), m)
    case Var(x) => Answer(if x in scope then Some(scope[x]) else None, m)
    case PrimRef(op) => Answer(Some(TFunc([TNum(NUM_TOP), TNum(NUM_TOP)], TUnknown, Some(op), [])), m)
    case FnRef(fn) =>
      if fn !in p then Answer(None, m)
      else
        var a := VisitFn(p, m, fn);
        Answer(RefType(p, fn, a.val), a.memo)
    case App(_, _) => VisitApp(p, m, e, scope)
    case Guards(cases) => if cases == [] then Answer(None, m) else VisitCases(p, m, e, 0, scope, TUnknown)
    case StructLit(_) =>
      var fs := VisitInits(p, m, e, 0, scope, []);
      Answer(if fs.val.None? then None else Some(TStruct(fs.val.value)), fs.memo)
    case Field(target, field) =>
      var t := Visit(p, m, target, scope);
      Answer(if t.val.None? then None else FieldRule(t.val.value, field), t.memo)
    case Reduce(_, _, _) => VisitReduce(p, m, e, scope)
  }

  ghost function VisitApp(p: Program, m: Memo, e: Expr, scope: Scope): (a: Answer<Type>)
    requires Marks(p, m) && e.App?
    ensures Kept(m, a.memo)
    decreases Unvisited(p, m), 1, e, 0
  {
    hide Unvisited, ApplyArgs, Kept, Marks;
    var f := Visit(p, m, e.head, scope);
    if f.val.None? || !f.val.value.TFunc? then Answer(None, f.memo)
    else
      KeptShrinks(p, m, f.memo);
      var ts := VisitArgs(p, f.memo, e, 0, scope, []);
      KeptThen(m, f.memo, ts.memo);
      Answer(if ts.val.None? then None else ApplyArgs(f.val.value, ts.val.value), ts.memo)
  }

  /** The arguments from the i-th on, after types ts. */
  ghost function VisitArgs(p: Program, m: Memo, e: Expr, i: nat, scope: Scope, ts: seq<Type>): (a: Answer<seq<Type>>)
    requires Marks(p, m) && e.App? && i <= |e.args|
    ensures Kept(m, a.memo)
    decreases Unvisited(p, m), 1, e, 0, |e.args| - i
  {
    hide Unvisited, Kept, Marks;
    KeptSame(m);
    if i == |e.args| then Answer(Some(ts), m)
    else
      var t := Visit(p, m, e.args[i], scope);
      if t.val.None? || t.val.value.TFunc? then Answer(None, t.memo)
      else
        KeptShrinks(p, m, t.memo);
        var rest := VisitArgs(p, t.memo, e, i + 1, scope, ts + [t.val.value]);
        KeptThen(m, t.memo, rest.memo);
        rest
  }

  /** The guard cases from the i-th on, widening acc. */
  ghost function VisitCases(p: Program, m: Memo, e: Expr, i: nat, scope: Scope, acc: Type): (a: Answer<Type>)
    requires Marks(p, m) && e.Guards? && i <= |e.cases|
    ensures Kept(m, a.memo)
    decreases Unvisited(p, m), 1, e, 0, |e.cases| - i, 1
  {
    hide Unvisited, Kept, Marks, Unify;
    KeptSame(m);
    if i == |e.cases| then Answer(Some(acc), m)
    else if e.cases[i].Otherwise? != (i == |e.cases| - 1) then Answer(None, m)
    else if e.cases[i].Otherwise? then VisitResult(p, m, e, i, scope, acc)
    else
      CaseSmaller(e, i);
      var c := Visit(p, m, e.cases[i].cond, scope);
      if !CondOk(c.val) then Answer(None, c.memo)
      else
        KeptShrinks(p, m, c.memo);
        var rest := VisitResult(p, c.memo, e, i, scope, acc);
        KeptThen(m, c.memo, rest.memo);
        rest
  }

  lemma CaseSmaller(e: Expr, i: nat)
    requires e.Guards? && i < |e.cases|
    ensures e.cases[i].result < e && (e.cases[i].When? ==> e.cases[i].cond < e)
  {
    assert e.cases[i] < e;
    assert e.cases[i].result < e.cases[i];
    assert e.cases[i].When? ==> e.cases[i].cond < e.cases[i];
  }

  /** The i-th case's result, then the cases after it. */
  ghost function VisitResult(p: Program, m: Memo, e: Expr, i: nat, scope: Scope, acc: Type): (a: Answer<Type>)
    requires Marks(p, m) && e.Guards? && i < |e.cases|
    ensures Kept(m, a.memo)
    decreases Unvisited(p, m), 1, e, 0, |e.cases| - i, 0
  {
    hide Unvisited, Kept, Marks, Unify;
    CaseSmaller(e, i);
    var r := Visit(p, m, e.cases[i].result, scope);
    if r.val.None? || r.val.value.TFunc? || Unify(acc, r.val.value).None? then Answer(None, r.memo)
    else
      KeptShrinks(p, m, r.memo);
      var rest := VisitCases(p, r.memo, e, i + 1, scope, Unify(acc, r.val.value).value);
      KeptThen(m, r.memo, rest.memo);
      rest
  }

  /** The fields from the i-th on, after fields fs. */
  ghost function VisitInits(p: Program, m: Memo, e: Expr, i: nat, scope: Scope, fs: seq<TypedField>)
    : (a: Answer<seq<TypedField>>)
    requires Marks(p, m) && e.StructLit? && i <= |e.inits|
    ensures Kept(m, a.memo)
    decreases Unvisited(p, m), 1, e, 0, |e.inits| - i
  {
    hide Unvisited, Kept, Marks;
    KeptSame(m);
    if i == |e.inits| then Answer(Some(fs), m)
    else if Repeated(e.inits, i) then Answer(None, m)
    else
      InitSmaller(e, i);
      var t := Visit(p, m, e.inits[i].value, scope);
      if t.val.None? || t.val.value.TFunc? then Answer(None, t.memo)
      else
        KeptShrinks(p, m, t.memo);
        var rest := VisitInits(p, t.memo, e, i + 1, scope, fs + [TypedField(e.inits[i].name, t.val.value)]);
        KeptThen(m, t.memo, rest.memo);
        rest
  }

  /** The i-th field's name stands before it. */
  predicate Repeated(inits: seq<FieldInit>, i: nat)
    requires i < |inits|
  {
    exists j :: 0 <= j < i && inits[j].name == inits[i].name
  }

  lemma InitSmaller(e: Expr, i: nat)
    requires e.StructLit? && i < |e.inits|
    ensures e.inits[i].value < e
  {
    assert e.inits[i] < e;
    assert e.inits[i].value < e.inits[i];
  }

  ghost function VisitReduce(p: Program, m: Memo, e: Expr, scope: Scope): (a: Answer<Type>)
    requires Marks(p, m) && e.Reduce?
    ensures Kept(m, a.memo)
    decreases Unvisited(p, m), 1, e, 0
  {
    hide Unvisited, Kept, Marks, ReduceRule;
    var f := Visit(p, m, e.fold, scope);
    if f.val.None? || !f.val.value.TFunc? || |f.val.value.params| != 2 then Answer(None, f.memo)
    else
      KeptShrinks(p, m, f.memo);
      var acc := Visit(p, f.memo, e.init, scope);
      KeptThen(m, f.memo, acc.memo);
      if acc.val.None? || acc.val.value.TFunc? then Answer(None, acc.memo)
      else
        KeptShrinks(p, f.memo, acc.memo);
        var v := Visit(p, acc.memo, e.vec, scope);
        KeptThen(m, acc.memo, v.memo);
        Answer(if v.val.None? then None else ReduceRule(f.val.value, acc.val.value, v.val.value), v.memo)
  }

  ghost function Seeded(p: Program, m: Memo, fn: string): Memo
    requires fn in p && p[fn].ret.Some?
  {
    m.(result := m.result[fn := p[fn].ret.value], open := m.open + {fn})
  }

  ghost function Marked(m: Memo, fn: string): Memo {
    m.(busy := m.busy + {fn})
  }

  /** A function's return type: known, seeded by its annotation, unknown while in progress, or inferred. */
  ghost function VisitFn(p: Program, m: Memo, fn: string): (a: Answer<Type>)
    requires Marks(p, m) && fn in p
    ensures Kept(m, a.memo)
    decreases Unvisited(p, m), 0
  {
    hide Unvisited, ContainsUnknown, SubType;
    if fn in m.result then Answer(Some(m.result[fn]), m)
    else if p[fn].ret.Some? then
      var seeded := Seeded(p, m, fn);
      UnvisitedDrops(p, m, seeded, fn);
      var body := Visit(p, seeded, p[fn].body, FnScope(p[fn]));
      Answer(if BodyAccepted(p, fn, body.val) then p[fn].ret else None, body.memo.(open := m.open))
    else if fn in m.busy then Answer(Some(TUnknown), m.(leaked := true))
    else
      var marked := Marked(m, fn);
      UnvisitedDrops(p, m, marked, fn);
      var body := Visit(p, marked, p[fn].body, FnScope(p[fn]));
      var last := body.memo.(busy := body.memo.busy - {fn});
      if BodyAccepted(p, fn, body.val) then Answer(body.val, last.(result := last.result[fn := body.val.value]))
      else Answer(None, last)
  }

  // ----- what a visit achieves -----

  lemma ValidMarks(p: Program, m: Memo)
    requires ValidMemo(p, m)
    ensures Marks(p, m)
  {
  }

  /** Every visit does what Done says: it types the term, restores its marks, and rejects nothing typable. */
  lemma {:induction false} VisitDone(p: Program, g: Guide, m: Memo, e: Expr, scope: Scope)
    requires ValidMemo(p, m) && Marks(p, m) && Declared(p)
    ensures var a := Visit(p, m, e, scope); Done(p, g, m, a.memo, e, scope, a.val)
    decreases Unvisited(p, m), 1, e, 1
  {
    hide Done, ValidMemo, Declared, Refs, VisitApp, VisitCases, VisitInits, VisitFn, VisitReduce;
    match e
    case NumLit(_) => LeafDone(p, g, m, e, scope);
    case StrLit(_) => LeafDone(p, g, m, e, scope);
    case Var(_) => LeafDone(p, g, m, e, scope);
    case PrimRef(_) => LeafDone(p, g, m, e, scope);
    case FnRef(fn) =>
      if fn in p {
        VisitFnDone(p, g, m, fn, scope);
      } else {
        UnknownFnDone(p, g, m, e, scope);
      }
    case App(_, _) => VisitAppDone(p, g, m, e, scope);
    case Guards(cases) =>
      Start(p, g, m, e, scope);
      RestTypedStart(p, g, m, e, scope);
      if cases == [] {
        Reject(p, g, m, m, e, scope);
      } else {
        CasesUpToNil(p, m, cases, scope);
        VisitCasesDone(p, g, m, m, e, 0, scope, [TUnknown]);
      }
    case StructLit(inits) =>
      Start(p, g, m, e, scope);
      FieldsUpToNil(p, m, inits, scope);
      VisitInitsDone(p, g, m, m, e, 0, scope, []);
      var fs := VisitInits(p, m, e, 0, scope, []);
      if fs.val.Some? {
        StructTypes(p, fs.memo, e, scope, fs.val.value);
        Accept(p, g, m, fs.memo, e, scope, Some(TStruct(fs.val.value)));
      }
    case Field(target, _) =>
      Start(p, g, m, e, scope);
      PartRefs(e, 0);
      FieldReachable(p, g, m, e, scope);
      VisitDone(p, g, m, target, scope);
      var t := Visit(p, m, target, scope);
      Part(p, g, m, m, t.memo, e, scope, target, t.val);
      if t.val.Some? {
        DoneTypes(p, g, m, t.memo, target, scope, t.val);
        FieldDone(p, g, m, t.memo, e, scope, t.val.value);
      }
    case Reduce(_, _, _) => VisitReduceDone(p, g, m, e, scope);
  }

  lemma {:induction false} VisitAppDone(p: Program, g: Guide, m: Memo, e: Expr, scope: Scope)
    requires ValidMemo(p, m) && Marks(p, m) && Declared(p) && e.App?
    ensures var a := VisitApp(p, m, e, scope); Done(p, g, m, a.memo, e, scope, a.val)
    decreases Unvisited(p, m), 1, e, 0
  {
    hide Done, Going, Reachable, Types, TypesUpTo, ValidMemo, Declared, Refs, TypeOf, ApplyArgs, VisitArgs, Visit,
      Step, Unvisited;
    Start(p, g, m, e, scope);
    PartRefs(e, 0);
    AppReachable(p, g, m, e, scope, 0);
    VisitDone(p, g, m, e.head, scope);
    var f := Visit(p, m, e.head, scope);
    Part(p, g, m, m, f.memo, e, scope, e.head, f.val);
    if f.val.Some? {
      if f.val.value.TFunc? {
        KeptShrinks(p, m, f.memo);
        GoingValid(p, g, m, f.memo, e, scope);
        TypesUpToNil(p, f.memo, e.args, scope);
        DoneTypes(p, g, m, f.memo, e.head, scope, f.val);
        VisitArgsDone(p, g, m, f.memo, e, 0, scope, f.val.value, []);
        var ts := VisitArgs(p, f.memo, e, 0, scope, []);
        if ts.val.Some? {
          AppDone(p, g, m, ts.memo, e, scope, f.val.value, ts.val.value);
        }
      } else {
        Reject(p, g, m, f.memo, e, scope);
      }
    }
  }

  lemma {:induction false} VisitArgsDone(p: Program, g: Guide, start: Memo, m: Memo, e: Expr, i: nat, scope: Scope,
    f: Type, ts: seq<Type>)
    requires e.App? && i <= |e.args| && Declared(p) && Marks(p, m)
    requires Going(p, g, start, m, e, scope) && TypesUpTo(p, m, e.args, i, scope, ts)
    requires Types(p, m, e.head, scope, Some(f))
    ensures var a := VisitArgs(p, m, e, i, scope, ts);
      (a.val.None? ==> Done(p, g, start, a.memo, e, scope, None))
      && (a.val.Some? ==>
        Going(p, g, start, a.memo, e, scope) && TypesUpTo(p, a.memo, e.args, |e.args|, scope, a.val.value)
        && Types(p, a.memo, e.head, scope, Some(f)))
    decreases Unvisited(p, m), 1, e, 0, |e.args| - i
  {
    hide Done, Going, Reachable, Types, ValidMemo, Declared, Refs, TypeOf, Step, Unvisited, Visit;
    if i < |e.args| {
      GoingValid(p, g, start, m, e, scope);
      AppReachable(p, g, start, e, scope, i);
      PartRefs(e, i);
      VisitDone(p, g, m, e.args[i], scope);
      var t := Visit(p, m, e.args[i], scope);
      Part(p, g, start, m, t.memo, e, scope, e.args[i], t.val);
      if t.val.Some? {
        if t.val.value.TFunc? {
          Reject(p, g, start, t.memo, e, scope);
        } else {
          KeptShrinks(p, m, t.memo);
          DoneTypes(p, g, m, t.memo, e.args[i], scope, t.val);
          TypesThen(p, m, t.memo, true, e.head, scope, Some(f));
          TypesUpToNext(p, m, t.memo, e.args, i, scope, ts, t.val.value);
          VisitArgsDone(p, g, start, t.memo, e, i + 1, scope, f, ts + [t.val.value]);
        }
      }
    }
  }

  lemma {:induction false} VisitCasesDone(p: Program, g: Guide, start: Memo, m: Memo, e: Expr, i: nat, scope: Scope,
    accs: seq<Type>)
    requires e.Guards? && i <= |e.cases| && e.cases != [] && Declared(p) && Marks(p, m) && |accs| == i + 1
    requires Going(p, g, start, m, e, scope) && CasesUpTo(p, m, e.cases, i, scope, accs)
    requires RestTyped(p, g, start, e, i, scope, accs[i])
    ensures var a := VisitCases(p, m, e, i, scope, accs[i]); Done(p, g, start, a.memo, e, scope, a.val)
    decreases Unvisited(p, m), 1, e, 0, |e.cases| - i, 1
  {
    hide Done, Going, Reachable, Types, CasesUpTo, RestTyped, ValidMemo, Declared, Refs, TypeOf, Step, Unvisited, Unify,
      Visit;
    if i == |e.cases| {
      GuardsTypes(p, m, e, scope, accs);
      Accept(p, g, start, m, e, scope, Some(accs[i]));
    } else {
      GoingValid(p, g, start, m, e, scope);
      RestTypedNext(p, g, start, e, i, scope, accs[i]);
      PartRefs(e, i);
      CaseSmaller(e, i);
      if e.cases[i].Otherwise? != (i == |e.cases| - 1) {
        Reject(p, g, start, m, e, scope);
      } else if e.cases[i].Otherwise? {
        VisitResultDone(p, g, start, m, e, i, scope, accs, None);
      } else {
        VisitDone(p, g, m, e.cases[i].cond, scope);
        var c := Visit(p, m, e.cases[i].cond, scope);
        Part(p, g, start, m, c.memo, e, scope, e.cases[i].cond, c.val);
        if c.val.Some? {
          if CondOk(c.val) {
            KeptShrinks(p, m, c.memo);
            DoneTypes(p, g, m, c.memo, e.cases[i].cond, scope, c.val);
            CasesUpToThen(p, m, c.memo, true, e.cases, i, scope, accs);
            GoingValid(p, g, start, c.memo, e, scope);
            VisitResultDone(p, g, start, c.memo, e, i, scope, accs, c.val);
          } else {
            Reject(p, g, start, c.memo, e, scope);
          }
        }
      }
    }
  }

  /** The rest of the i-th case once its condition, if it has one, is typed. */
  lemma {:induction false} VisitResultDone(p: Program, g: Guide, start: Memo, m: Memo, e: Expr, i: nat, scope: Scope,
    accs: seq<Type>, c: Option<Type>)
    requires e.Guards? && i < |e.cases| && Declared(p) && Marks(p, m) && |accs| == i + 1
    requires Going(p, g, start, m, e, scope) && ValidMemo(p, m) && CasesUpTo(p, m, e.cases, i, scope, accs)
    requires RestTyped(p, g, start, e, i, scope, accs[i]) && e.cases[i].Otherwise? == (i == |e.cases| - 1)
    requires e.cases[i].When? ==> Types(p, m, e.cases[i].cond, scope, c) && CondOk(c)
    ensures var a := VisitResult(p, m, e, i, scope, accs[i]); Done(p, g, start, a.memo, e, scope, a.val)
    decreases Unvisited(p, m), 1, e, 0, |e.cases| - i, 0
  {
    hide Done, Going, Reachable, Types, CasesUpTo, RestTyped, ValidMemo, Declared, Refs, TypeOf, Step, Unvisited, Unify,
      Visit, VisitCases;
    CaseSmaller(e, i);
    RestTypedNext(p, g, start, e, i, scope, accs[i]);
    PartRefs(e, i);
    VisitDone(p, g, m, e.cases[i].result, scope);
    var r := Visit(p, m, e.cases[i].result, scope);
    Part(p, g, start, m, r.memo, e, scope, e.cases[i].result, r.val);
    if r.val.Some? {
      if r.val.value.TFunc? || Unify(accs[i], r.val.value).None? {
        Reject(p, g, start, r.memo, e, scope);
      } else {
        var next := Unify(accs[i], r.val.value).value;
        KeptShrinks(p, m, r.memo);
        DoneTypes(p, g, m, r.memo, e.cases[i].result, scope, r.val);
        CasesUpToThen(p, m, r.memo, true, e.cases, i, scope, accs);
        if e.cases[i].When? {
          TypesThen(p, m, r.memo, true, e.cases[i].cond, scope, c);
        }
        CasesUpToNext(p, r.memo, e.cases, i, scope, accs, c, r.val.value, next);
        RestTypedStep(p, g, start, e, i, scope, accs[i], r.val.value, next);
        VisitCasesDone(p, g, start, r.memo, e, i + 1, scope, accs + [next]);
      }
    }
  }

  lemma {:induction false} VisitInitsDone(p: Program, g: Guide, start: Memo, m: Memo, e: Expr, i: nat, scope: Scope,
    fs: seq<TypedField>)
    requires e.StructLit? && i <= |e.inits| && Declared(p) && Marks(p, m)
    requires Going(p, g, start, m, e, scope) && FieldsUpTo(p, m, e.inits, i, scope, fs)
    ensures var a := VisitInits(p, m, e, i, scope, fs);
      (a.val.None? ==> Done(p, g, start, a.memo, e, scope, None))
      && (a.val.Some? ==>
        Going(p, g, start, a.memo, e, scope) && FieldsUpTo(p, a.memo, e.inits, |e.inits|, scope, a.val.value))
    decreases Unvisited(p, m), 1, e, 0, |e.inits| - i
  {
    hide Done, Going, Reachable, Types, FieldsUpTo, ValidMemo, Declared, Refs, TypeOf, Step, Unvisited, Visit;
    if i == |e.inits| {
      AllFields(p, m, e.inits, i, scope, fs);
    } else {
      GoingValid(p, g, start, m, e, scope);
      StructReachable(p, g, start, e, scope, i);
      PartRefs(e, i);
      if Repeated(e.inits, i) {
        Reject(p, g, start, m, e, scope);
      } else {
        InitSmaller(e, i);
        VisitDone(p, g, m, e.inits[i].value, scope);
        var t := Visit(p, m, e.inits[i].value, scope);
        Part(p, g, start, m, t.memo, e, scope, e.inits[i].value, t.val);
        if t.val.Some? {
          if t.val.value.TFunc? {
            Reject(p, g, start, t.memo, e, scope);
          } else {
            KeptShrinks(p, m, t.memo);
            DoneTypes(p, g, m, t.memo, e.inits[i].value, scope, t.val);
            FieldsUpToNext(p, m, t.memo, e.inits, i, scope, fs, t.val.value);
            VisitInitsDone(p, g, start, t.memo, e, i + 1, scope, fs + [TypedField(e.inits[i].name, t.val.value)]);
          }
        }
      }
    }
  }

  lemma AllFields(p: Program, m: Memo, inits: seq<FieldInit>, i: nat, scope: Scope, fs: seq<TypedField>)
    requires FieldsUpTo(p, m, inits, i, scope, fs)
    ensures |fs| == i
  {
    hide Types;
  }

  lemma {:induction false} VisitReduceDone(p: Program, g: Guide, m: Memo, e: Expr, scope: Scope)
    requires ValidMemo(p, m) && Marks(p, m) && Declared(p) && e.Reduce?
    ensures var a := VisitReduce(p, m, e, scope); Done(p, g, m, a.memo, e, scope, a.val)
    decreases Unvisited(p, m), 1, e, 0, 1
  {
    hide Done, Going, Reachable, Types, ValidMemo, Declared, Refs, TypeOf, ReduceType, Step, Unvisited, Visit;
    Start(p, g, m, e, scope);
    PartRefs(e, 0);
    ReduceReachable(p, g, m, e, scope);
    VisitDone(p, g, m, e.fold, scope);
    var f := Visit(p, m, e.fold, scope);
    Part(p, g, m, m, f.memo, e, scope, e.fold, f.val);
    if f.val.Some? {
      if !f.val.value.TFunc? || |f.val.value.params| != 2 {
        ReduceRefused(p, g, m, f.memo, e, scope);
      } else {
        DoneTypes(p, g, m, f.memo, e.fold, scope, f.val);
        GoingValid(p, g, m, f.memo, e, scope);
        KeptShrinks(p, m, f.memo);
        VisitInitDone(p, g, m, f.memo, e, scope, f.val.value);
      }
    }
  }

  lemma {:induction false} VisitInitDone(p: Program, g: Guide, start: Memo, m: Memo, e: Expr, scope: Scope, f: Type)
    requires Declared(p) && Marks(p, m) && ValidMemo(p, m) && e.Reduce? && f.TFunc? && |f.params| == 2
    requires Going(p, g, start, m, e, scope) && Types(p, m, e.fold, scope, Some(f))
    requires Reachable(p, g, start, e, scope) ==> TypeOf(g.target, p, e.fold, scope) == Some(f)
    ensures var acc := Visit(p, m, e.init, scope);
      if acc.val.None? || acc.val.value.TFunc? then Done(p, g, start, acc.memo, e, scope, None)
      else
        var v := Visit(p, acc.memo, e.vec, scope);
        Done(p, g, start, v.memo, e, scope, if v.val.None? then None else ReduceRule(f, acc.val.value, v.val.value))
    decreases Unvisited(p, m), 1, e, 0, 0
  {
    hide Done, Going, Reachable, Types, ValidMemo, Declared, Refs, TypeOf, ReduceType, Step, Unvisited, Visit;
    PartRefs(e, 0);
    ReduceReachable(p, g, start, e, scope);
    VisitDone(p, g, m, e.init, scope);
    var acc := Visit(p, m, e.init, scope);
    Part(p, g, start, m, acc.memo, e, scope, e.init, acc.val);
    if acc.val.Some? {
      if acc.val.value.TFunc? {
        ReduceRefused(p, g, start, acc.memo, e, scope);
      } else {
        DoneTypes(p, g, m, acc.memo, e.init, scope, acc.val);
        TypesThen(p, m, acc.memo, true, e.fold, scope, Some(f));
        GoingValid(p, g, start, acc.memo, e, scope);
        KeptShrinks(p, m, acc.memo);
        VisitDone(p, g, acc.memo, e.vec, scope);
        var v := Visit(p, acc.memo, e.vec, scope);
        Part(p, g, start, acc.memo, v.memo, e, scope, e.vec, v.val);
        if v.val.Some? {
          DoneTypes(p, g, acc.memo, v.memo, e.vec, scope, v.val);
          TypesThen(p, acc.memo, v.memo, true, e.fold, scope, Some(f));
          TypesThen(p, acc.memo, v.memo, true, e.init, scope, acc.val);
          ReduceDone(p, g, start, v.memo, e, scope, f, acc.val.value, v.val.value);
        }
      }
    }
  }

  lemma {:induction false} VisitFnDone(p: Program, g: Guide, m: Memo, fn: string, scope: Scope)
    requires ValidMemo(p, m) && Marks(p, m) && Declared(p) && fn in p
    ensures var a := VisitFn(p, m, fn); Done(p, g, m, a.memo, FnRef(fn), scope, RefType(p, fn, a.val))
    decreases Unvisited(p, m), 0
  {
    hide Done, ValidMemo, Declared, Refs, TypeOf, ContainsUnknown, SubType, Within, Unvisited, FnScope, Visit;
    if fn in m.result {
      KnownDone(p, g, m, fn, scope);
    } else if p[fn].ret.Some? {
      var seeded := Seeded(p, m, fn);
      SeedValid(p, m, seeded, fn);
      VisitDone(p, Within(p, g, fn), seeded, p[fn].body, FnScope(p[fn]));
      var body := Visit(p, seeded, p[fn].body, FnScope(p[fn]));
      SeedDone(p, g, m, seeded, body.memo, body.memo.(open := m.open), fn, scope, body.val);
    } else if fn in m.busy {
      LeakDone(p, g, m, m.(leaked := true), fn, scope);
    } else {
      var marked := Marked(m, fn);
      MarkValid(p, m, marked, fn);
      VisitDone(p, Within(p, g, fn), marked, p[fn].body, FnScope(p[fn]));
      var body := Visit(p, marked, p[fn].body, FnScope(p[fn]));
      var last := body.memo.(busy := body.memo.busy - {fn});
      if BodyAccepted(p, fn, body.val) {
        InferAccepted(p, g, m, marked, body.memo, last.(result := last.result[fn := body.val.value]), fn, scope,
          body.val.value);
      } else {
        InferRejected(p, g, m, marked, body.memo, last, fn, scope, body.val);
      }
    }
  }
}
