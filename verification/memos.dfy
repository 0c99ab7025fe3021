/**
  The checker's memo: the return types known so far, what a valid memo says, and what
  visiting a term or a function may do to it.
 */
module Memos {
  import opened Options
  import opened Syntax
  import opened TypeRules
  import opened TypeSound
  import opened Calls

  /** Declared types are concrete value types; parameter names are distinct. */
  ghost predicate Declared(p: Program) {
    forall f :: f in p ==>
      Distinct(ParamNames(p[f].params)) && (p[f].ret.Some? ==> ValueType(p[f].ret.value))
      && forall i :: 0 <= i < |p[f].params| ==> ValueType(p[f].params[i].typ)
  }

  predicate ContainsUnknown(t: Type) {
    match t
    case TUnknown => true
    case TStruct(fs) => exists i :: 0 <= i < |fs| && ContainsUnknown(fs[i].typ)
    case TFunc(params, result, _, _) =>
      (exists i :: 0 <= i < |params| && ContainsUnknown(params[i])) || ContainsUnknown(result)
    case TVector(elem) => ContainsUnknown(elem)
    case _ => false
  }

  // ----- a table that agrees on what a term mentions types it alike -----

  predicate SubSigs(a: Sigs, b: Sigs) {
    forall fn :: fn in a ==> fn in b && b[fn] == a[fn]
  }

  /** b lists what a lists of refs. */
  predicate Agree(a: Sigs, b: Sigs, refs: set<string>) {
    forall fn :: fn in refs && fn in a ==> fn in b && b[fn] == a[fn]
  }

  lemma {:induction false} TypeOfMoves(a: Sigs, b: Sigs, p: Program, e: Expr, scope: Scope, t: Type)
    requires Agree(a, b, Refs(e)) && TypeOf(a, p, e, scope) == Some(t)
    ensures TypeOf(b, p, e, scope) == Some(t)
    decreases e
  {
    hide ApplyArgs, ReduceType, GuardsType, TypesOf, InitTypes, FindField;
    match e
    case App(head, args) =>
      AgreeParts(a, b, e);
      TypeOfMoves(a, b, p, head, scope, TypeOf(a, p, head, scope).value);
      TypesOfMoves(a, b, p, args, scope, TypesOf(a, p, args, scope).value);
    case Guards(cases) =>
      AgreeParts(a, b, e);
      GuardsTypeMoves(a, b, p, cases, scope, TUnknown, t);
    case StructLit(inits) =>
      AgreeParts(a, b, e);
      InitTypesMoves(a, b, p, inits, scope, t.fields);
    case Field(target, _) => TypeOfMoves(a, b, p, target, scope, TypeOf(a, p, target, scope).value);
    case Reduce(fold, init, vec) =>
      AgreeParts(a, b, e);
      TypeOfMoves(a, b, p, fold, scope, TypeOf(a, p, fold, scope).value);
      TypeOfMoves(a, b, p, init, scope, TypeOf(a, p, init, scope).value);
      TypeOfMoves(a, b, p, vec, scope, TypeOf(a, p, vec, scope).value);
    case _ =>
  }

  lemma AgreeParts(a: Sigs, b: Sigs, e: Expr)
    requires Agree(a, b, Refs(e))
    ensures e.App? ==> Agree(a, b, Refs(e.head)) && forall i :: 0 <= i < |e.args| ==> Agree(a, b, Refs(e.args[i]))
    ensures e.Guards? ==> forall i :: 0 <= i < |e.cases| ==> Agree(a, b, CaseRefs(e.cases[i]))
    ensures e.StructLit? ==> forall i :: 0 <= i < |e.inits| ==> Agree(a, b, Refs(e.inits[i].value))
    ensures e.Reduce? ==> Agree(a, b, Refs(e.fold)) && Agree(a, b, Refs(e.init)) && Agree(a, b, Refs(e.vec))
  {
    hide CaseRefs;
  }

  lemma {:induction false} TypesOfMoves(a: Sigs, b: Sigs, p: Program, args: seq<Expr>, scope: Scope, ts: seq<Type>)
    requires forall i :: 0 <= i < |args| ==> Agree(a, b, Refs(args[i]))
    requires TypesOf(a, p, args, scope) == Some(ts)
    ensures TypesOf(b, p, args, scope) == Some(ts)
    decreases args
  {
    hide TypeOf, Refs, Agree;
    if args != [] {
      TypeOfMoves(a, b, p, args[0], scope, ts[0]);
      TypesOfMoves(a, b, p, args[1..], scope, ts[1..]);
    }
  }

  lemma {:induction false} InitTypesMoves(a: Sigs, b: Sigs, p: Program, inits: seq<FieldInit>, scope: Scope,
    fs: seq<TypedField>)
    requires forall i :: 0 <= i < |inits| ==> Agree(a, b, Refs(inits[i].value))
    requires InitTypes(a, p, inits, scope) == Some(fs)
    ensures InitTypes(b, p, inits, scope) == Some(fs)
    decreases inits
  {
    hide TypeOf, FindField, Refs, Agree;
    if inits != [] {
      TypeOfMoves(a, b, p, inits[0].value, scope, fs[0].typ);
      InitTypesMoves(a, b, p, inits[1..], scope, fs[1..]);
    }
  }

  lemma {:induction false} GuardsTypeMoves(a: Sigs, b: Sigs, p: Program, cases: seq<GuardCase>, scope: Scope,
    acc: Type, t: Type)
    requires forall i :: 0 <= i < |cases| ==> Agree(a, b, CaseRefs(cases[i]))
    requires cases != [] && GuardsType(a, p, cases, scope, acc) == Some(t)
    ensures GuardsType(b, p, cases, scope, acc) == Some(t)
    decreases cases
  {
    hide TypeOf, Unify, Refs;
    var c := cases[0];
    assert c.result < c;
    assert Agree(a, b, Refs(c.result));
    TypeOfMoves(a, b, p, c.result, scope, TypeOf(a, p, c.result, scope).value);
    if c.When? {
      assert c.cond < c;
      assert Agree(a, b, Refs(c.cond));
      TypeOfMoves(a, b, p, c.cond, scope, TypeOf(a, p, c.cond, scope).value);
      GuardsTypeMoves(a, b, p, cases[1..], scope, Unify(acc, TypeOf(a, p, c.result, scope).value).value, t);
    }
  }

  /** A larger table types no less. */
  lemma TypeOfGrows(a: Sigs, b: Sigs, p: Program, e: Expr, scope: Scope, t: Type)
    requires SubSigs(a, b) && TypeOf(a, p, e, scope) == Some(t)
    ensures TypeOf(b, p, e, scope) == Some(t)
  {
    TypeOfMoves(a, b, p, e, scope, t);
  }

  /** A typed term mentions only functions of the table. */
  lemma {:induction false} RefsListed(sig: Sigs, p: Program, e: Expr, scope: Scope)
    requires TypeOf(sig, p, e, scope).Some?
    ensures Refs(e) <= sig.Keys
    decreases e
  {
    match e
    case App(head, args) =>
      RefsListed(sig, p, head, scope);
      forall i | 0 <= i < |args|
        ensures Refs(args[i]) <= sig.Keys
      {
        TypesOfAt(sig, p, args, scope, TypesOf(sig, p, args, scope).value, i);
        RefsListed(sig, p, args[i], scope);
      }
    case Guards(cases) => CaseRefsListed(sig, p, cases, scope, TUnknown);
    case StructLit(inits) =>
      forall i | 0 <= i < |inits|
        ensures Refs(inits[i].value) <= sig.Keys
      {
        InitTypesAt(sig, p, inits, scope, InitTypes(sig, p, inits, scope).value, i);
        RefsListed(sig, p, inits[i].value, scope);
      }
    case Field(target, _) => RefsListed(sig, p, target, scope);
    case Reduce(fold, init, vec) =>
      RefsListed(sig, p, fold, scope);
      RefsListed(sig, p, init, scope);
      RefsListed(sig, p, vec, scope);
    case _ =>
  }

  lemma {:induction false} CaseRefsListed(sig: Sigs, p: Program, cases: seq<GuardCase>, scope: Scope, acc: Type)
    requires cases != [] && GuardsType(sig, p, cases, scope, acc).Some?
    ensures forall i :: 0 <= i < |cases| ==> CaseRefs(cases[i]) <= sig.Keys
    decreases cases
  {
    hide TypeOf, Unify, Refs;
    var c := cases[0];
    assert c.result < c;
    RefsListed(sig, p, c.result, scope);
    if c.When? {
      assert c.cond < c;
      RefsListed(sig, p, c.cond, scope);
      CaseRefsListed(sig, p, cases[1..], scope, Unify(acc, TypeOf(sig, p, c.result, scope).value).value);
    }
  }

  // ----- what the loops establish, case by case -----

  lemma TypesOfFrom(sig: Sigs, p: Program, args: seq<Expr>, scope: Scope, ts: seq<Type>)
    requires |ts| == |args|
    requires forall i :: 0 <= i < |args| ==> TypeOf(sig, p, args[i], scope) == Some(ts[i]) && !ts[i].TFunc?
    ensures TypesOf(sig, p, args, scope) == Some(ts)
  {
    hide TypeOf;
    if args != [] {
      TypesOfFrom(sig, p, args[1..], scope, ts[1..]);
      assert ts == [ts[0]] + ts[1..];
    }
  }

  lemma InitTypesFrom(sig: Sigs, p: Program, inits: seq<FieldInit>, scope: Scope, fs: seq<TypedField>)
    requires |fs| == |inits|
    requires forall i :: 0 <= i < |inits| ==>
      fs[i].name == inits[i].name && TypeOf(sig, p, inits[i].value, scope) == Some(fs[i].typ) && !fs[i].typ.TFunc?
    requires forall i, j :: 0 <= i < j < |inits| ==> fs[i].name != fs[j].name
    ensures InitTypes(sig, p, inits, scope) == Some(fs)
  {
    hide TypeOf;
    if inits != [] {
      InitTypesFrom(sig, p, inits[1..], scope, fs[1..]);
      assert fs == [fs[0]] + fs[1..];
    }
  }

  /** The i-th guard case is well-formed and widens acc to next. */
  predicate CaseTyped(sig: Sigs, p: Program, cases: seq<GuardCase>, i: nat, scope: Scope, acc: Type, next: Type)
    requires i < |cases|
  {
    var c := cases[i];
    c.Otherwise? == (i == |cases| - 1)
    && (c.When? ==> var t := TypeOf(sig, p, c.cond, scope); t.Some? && (t.value.TBool? || t.value.TUnknown?))
    && var r := TypeOf(sig, p, c.result, scope);
      r.Some? && !r.value.TFunc? && Unify(acc, r.value) == Some(next)
  }

  lemma CaseTypedGrows(a: Sigs, b: Sigs, p: Program, cases: seq<GuardCase>, i: nat, scope: Scope, acc: Type, next: Type)
    requires SubSigs(a, b) && i < |cases| && CaseTyped(a, p, cases, i, scope, acc, next)
    ensures CaseTyped(b, p, cases, i, scope, acc, next)
  {
    hide TypeOf, Unify;
    var c := cases[i];
    TypeOfGrows(a, b, p, c.result, scope, TypeOf(a, p, c.result, scope).value);
    if c.When? {
      TypeOfGrows(a, b, p, c.cond, scope, TypeOf(a, p, c.cond, scope).value);
    }
  }

  lemma {:induction false} GuardsTypeFrom(sig: Sigs, p: Program, cases: seq<GuardCase>, from: nat, scope: Scope,
    accs: seq<Type>)
    requires from < |cases| && |accs| == |cases| + 1
    requires forall i :: from <= i < |cases| ==> CaseTyped(sig, p, cases, i, scope, accs[i], accs[i + 1])
    ensures GuardsType(sig, p, cases[from..], scope, accs[from]) == Some(accs[|cases|])
    decreases |cases| - from
  {
    hide TypeOf, Unify;
    assert CaseTyped(sig, p, cases, from, scope, accs[from], accs[from + 1]);
    if from + 1 < |cases| {
      GuardsTypeFrom(sig, p, cases, from + 1, scope, accs);
      assert cases[from..][1..] == cases[from + 1..];
    }
  }

  /** A concrete value type is assignable to itself. */
  lemma {:induction false} SubTypeReflexive(t: Type)
    requires ValueType(t)
    ensures SubType(t, t)
    decreases t
  {
    match t
    case TStruct(fs) =>
      forall i | 0 <= i < |fs|
        ensures FindField(fs, fs[i].name) == Some(fs[i].typ) && SubType(fs[i].typ, fs[i].typ)
      {
        FindFieldAt(fs, i);
        SubTypeReflexive(fs[i].typ);
      }
    case TVector(elem) => SubTypeReflexive(elem);
    case _ =>
  }

  // ----- what a finished memo says -----

  /** The memo entry of fn: its annotation, or the type inferred for its body. */
  predicate Explained(sig: Sigs, p: Program, fn: string)
    requires fn in p
  {
    fn in sig
    && match p[fn].ret
      case Some(t) => sig[fn] == t
      case None => TypeOf(sig, p, p[fn].body, FnScope(p[fn])) == Some(sig[fn])
  }

  lemma ExplainedGrows(a: Sigs, b: Sigs, p: Program, fn: string)
    requires SubSigs(a, b) && fn in p && Explained(a, p, fn)
    ensures Explained(b, p, fn)
  {
    hide TypeOf;
    if p[fn].ret.None? {
      TypeOfGrows(a, b, p, p[fn].body, FnScope(p[fn]), a[fn]);
    }
  }

  lemma BodyOkGrows(a: Sigs, b: Sigs, p: Program, fn: string)
    requires SubSigs(a, b) && fn in p && BodyOk(a, p, fn)
    ensures BodyOk(b, p, fn)
  {
    hide TypeOf, SubType;
    TypeOfGrows(a, b, p, p[fn].body, FnScope(p[fn]), TypeOf(a, p, p[fn].body, FnScope(p[fn])).value);
  }

  // ----- the checker's memo -----

  /** Return types known so far, functions in progress, annotated bodies still open, and whether an unknown leaked. */
  datatype Memo = Memo(result: Sigs, busy: set<string>, open: set<string>, leaked: bool)

  /** Every function is explained and its body agrees with its entry. */
  ghost predicate Consistent(sig: Sigs, p: Program) {
    SigsOk(sig, p) && forall fn :: fn in p ==> Explained(sig, p, fn) && BodyOk(sig, p, fn)
  }

  /**
    The memo concerns functions of the program and none in progress. While no unknown has
    been handed out it explains every entry, and every body that is not open agrees with it.
   */
  ghost predicate ValidMemo(p: Program, m: Memo) {
    m.result.Keys <= p.Keys && m.busy <= p.Keys && m.busy !! m.result.Keys
    && (forall h :: h in m.busy ==> p[h].ret.None?)
    && (!m.leaked ==>
      SigsOk(m.result, p)
      && forall fn :: fn in m.result ==> Explained(m.result, p, fn) && (fn in m.open || BodyOk(m.result, p, fn)))
  }

  /** One step: entries are only added, marks are restored, and success keeps the memo valid. */
  ghost predicate Step(p: Program, a: Memo, b: Memo, ok: bool) {
    SubSigs(a.result, b.result) && b.busy == a.busy && (a.leaked ==> b.leaked)
    && (ok ==> ValidMemo(p, b) && b.open == a.open)
  }

  lemma StepThen(p: Program, a: Memo, b: Memo, c: Memo, ok: bool)
    requires Step(p, a, b, true) && Step(p, b, c, ok)
    ensures Step(p, a, c, ok)
  {
    hide ValidMemo;
  }

  /** Unless an unknown leaked, r is the type of e under the memo. */
  ghost predicate Types(p: Program, m: Memo, e: Expr, scope: Scope, r: Option<Type>) {
    r.Some? && !m.leaked ==> TypeOf(m.result, p, e, scope) == r
  }

  lemma TypesThen(p: Program, a: Memo, b: Memo, ok: bool, e: Expr, scope: Scope, r: Option<Type>)
    requires Types(p, a, e, scope, r) && Step(p, a, b, ok)
    ensures Types(p, b, e, scope, r)
  {
    hide TypeOf, ValidMemo;
    if r.Some? && !b.leaked {
      TypeOfGrows(a.result, b.result, p, e, scope, r.value);
    }
  }

  function Unvisited(p: Program, m: Memo): nat {
    |p.Keys - m.result.Keys - m.busy|
  }

  lemma UnvisitedShrinks(p: Program, a: Memo, b: Memo)
    requires SubSigs(a.result, b.result) && a.busy <= b.busy
    ensures Unvisited(p, b) <= Unvisited(p, a)
  {
    var x, y := p.Keys - b.result.Keys - b.busy, p.Keys - a.result.Keys - a.busy;
    assert x <= y && y == x + (y - x);
  }

  lemma UnvisitedDrops(p: Program, a: Memo, b: Memo, fn: string)
    requires SubSigs(a.result, b.result) && a.busy <= b.busy
    requires fn in p && fn !in a.result && fn !in a.busy && (fn in b.result || fn in b.busy)
    ensures Unvisited(p, b) < Unvisited(p, a)
  {
    var x, y := p.Keys - b.result.Keys - b.busy, p.Keys - a.result.Keys - a.busy;
    assert fn in y && fn !in x && x <= y - {fn} && y == x + (y - x);
    assert |y - x| > 0;
  }

  // ----- what one visit achieves -----

  /** A ranking of functions, a bound on what is visited, and a consistent table the run might reach. */
  datatype Guide = Guide(rank: map<string, nat>, bound: nat, target: Sigs)

  /** Visiting refs below the bound meets no function in progress, and no unknown has leaked so far. */
  ghost predicate Calm(p: Program, g: Guide, m: Memo, refs: set<string>) {
    CyclesAnnotated(p, g.rank) && Below(p, g.rank, refs, g.bound) && !m.leaked
    && forall h :: h in m.busy ==> h in g.rank && g.rank[h] >= g.bound
  }

  /** A consistent table extends the memo and types e. */
  ghost predicate Reachable(p: Program, g: Guide, m: Memo, e: Expr, scope: Scope) {
    Calm(p, g, m, Refs(e)) && Consistent(g.target, p) && SubSigs(m.result, g.target)
    && TypeOf(g.target, p, e, scope).Some?
  }

  /** Halfway through visiting e: nothing has been rejected yet. */
  ghost predicate Going(p: Program, g: Guide, start: Memo, now: Memo, e: Expr, scope: Scope) {
    Step(p, start, now, true) && ValidMemo(p, now)
    && (Calm(p, g, start, Refs(e)) ==> !now.leaked)
    && (Reachable(p, g, start, e, scope) ==> SubSigs(now.result, g.target))
  }

  /**
    Visiting e answers r: the answer is the type of e under the new memo, an unknown leaks
    only on a cycle without annotations, and what a consistent table types is not rejected.
   */
  ghost predicate Done(p: Program, g: Guide, start: Memo, now: Memo, e: Expr, scope: Scope, r: Option<Type>) {
    Step(p, start, now, r.Some?) && Types(p, now, e, scope, r)
    && (Calm(p, g, start, Refs(e)) ==> !now.leaked)
    && (Reachable(p, g, start, e, scope) ==> r.Some? && SubSigs(now.result, g.target))
  }

  lemma Start(p: Program, g: Guide, m: Memo, e: Expr, scope: Scope)
    requires ValidMemo(p, m)
    ensures Going(p, g, m, m, e, scope)
  {
    hide ValidMemo, CyclesAnnotated, Below, Refs, Consistent, TypeOf;
  }

  lemma GoingValid(p: Program, g: Guide, start: Memo, now: Memo, e: Expr, scope: Scope)
    requires Going(p, g, start, now, e, scope)
    ensures ValidMemo(p, now) && Step(p, start, now, true) && Unvisited(p, now) <= Unvisited(p, start)
  {
    hide ValidMemo, Calm, Reachable, Unvisited;
    UnvisitedShrinks(p, start, now);
  }

  /** After visiting a part: carry on, or reject the whole. */
  lemma Part(p: Program, g: Guide, start: Memo, mid: Memo, now: Memo, e: Expr, scope: Scope, part: Expr, t: Option<Type>)
    requires Going(p, g, start, mid, e, scope) && Done(p, g, mid, now, part, scope, t) && Refs(part) <= Refs(e)
    requires Reachable(p, g, start, e, scope) ==> TypeOf(g.target, p, part, scope).Some?
    ensures if t.Some? then Going(p, g, start, now, e, scope) else Done(p, g, start, now, e, scope, None)
    ensures Reachable(p, g, start, e, scope) ==> TypeOf(g.target, p, part, scope) == t
  {
    hide ValidMemo, CyclesAnnotated, Refs, Consistent, TypeOf;
    StepThen(p, start, mid, now, t.Some?);
    if Reachable(p, g, start, e, scope) {
      assert Reachable(p, g, mid, part, scope);
      TypeOfGrows(now.result, g.target, p, part, scope, t.value);
    }
  }

  lemma Reject(p: Program, g: Guide, start: Memo, now: Memo, e: Expr, scope: Scope)
    requires Going(p, g, start, now, e, scope) && !Reachable(p, g, start, e, scope)
    ensures Done(p, g, start, now, e, scope, None)
  {
    hide ValidMemo, Calm, Reachable;
  }

  lemma Accept(p: Program, g: Guide, start: Memo, now: Memo, e: Expr, scope: Scope, r: Option<Type>)
    requires Going(p, g, start, now, e, scope) && Types(p, now, e, scope, r)
    requires Reachable(p, g, start, e, scope) ==> r.Some?
    ensures Done(p, g, start, now, e, scope, r)
  {
    hide ValidMemo, Calm, Reachable, Types;
  }

  // ----- applications -----

  lemma AppTypeFrom(sig: Sigs, p: Program, e: Expr, scope: Scope, f: Type, ts: seq<Type>)
    requires e.App? && TypeOf(sig, p, e.head, scope) == Some(f) && f.TFunc? && TypesOf(sig, p, e.args, scope) == Some(ts)
    ensures TypeOf(sig, p, e, scope) == ApplyArgs(f, ts)
  {
  }

  /** The parts of a typed application are typed. */
  lemma AppParts(sig: Sigs, p: Program, e: Expr, scope: Scope, i: nat)
    requires e.App? && TypeOf(sig, p, e, scope).Some?
    ensures TypeOf(sig, p, e.head, scope).Some? && TypeOf(sig, p, e.head, scope).value.TFunc?
    ensures i < |e.args| ==> TypeOf(sig, p, e.args[i], scope).Some? && !TypeOf(sig, p, e.args[i], scope).value.TFunc?
  {
    if i < |e.args| {
      TypesOfAt(sig, p, e.args, scope, TypesOf(sig, p, e.args, scope).value, i);
    }
  }

  /** The first n arguments have the value types ts. */
  ghost predicate TypesUpTo(p: Program, m: Memo, args: seq<Expr>, n: nat, scope: Scope, ts: seq<Type>) {
    n == |ts| <= |args| && forall j :: 0 <= j < n ==> !ts[j].TFunc? && Types(p, m, args[j], scope, Some(ts[j]))
  }

  lemma TypesUpToThen(p: Program, a: Memo, b: Memo, args: seq<Expr>, n: nat, scope: Scope, ts: seq<Type>)
    requires TypesUpTo(p, a, args, n, scope, ts) && Step(p, a, b, false)
    ensures TypesUpTo(p, b, args, n, scope, ts)
  {
    hide Types, Step;
    forall j | 0 <= j < n
      ensures Types(p, b, args[j], scope, Some(ts[j]))
    {
      TypesThen(p, a, b, false, args[j], scope, Some(ts[j]));
    }
  }

  lemma TypesUpToNext(p: Program, a: Memo, b: Memo, args: seq<Expr>, n: nat, scope: Scope, ts: seq<Type>, t: Type)
    requires n < |args| && TypesUpTo(p, a, args, n, scope, ts) && Step(p, a, b, true)
    requires Types(p, b, args[n], scope, Some(t)) && !t.TFunc?
    ensures TypesUpTo(p, b, args, n + 1, scope, ts + [t])
  {
    hide Types, Step;
    forall j | 0 <= j < n
      ensures Types(p, b, args[j], scope, Some(ts[j]))
    {
      TypesThen(p, a, b, true, args[j], scope, Some(ts[j]));
    }
  }

  lemma AppTypes(p: Program, m: Memo, e: Expr, scope: Scope, f: Type, ts: seq<Type>)
    requires e.App? && Types(p, m, e.head, scope, Some(f)) && f.TFunc? && TypesUpTo(p, m, e.args, |e.args|, scope, ts)
    ensures Types(p, m, e, scope, ApplyArgs(f, ts))
    ensures !m.leaked ==> TypeOf(m.result, p, e, scope) == ApplyArgs(f, ts)
  {
    hide TypeOf, TypesOf, ApplyArgs;
    if !m.leaked {
      TypesOfFrom(m.result, p, e.args, scope, ts);
      AppTypeFrom(m.result, p, e, scope, f, ts);
    }
  }

  lemma AppReachable(p: Program, g: Guide, m: Memo, e: Expr, scope: Scope, i: nat)
    requires e.App?
    ensures Reachable(p, g, m, e, scope) ==>
      var h := TypeOf(g.target, p, e.head, scope); h.Some? && h.value.TFunc?
    ensures Reachable(p, g, m, e, scope) && i < |e.args| ==>
      var t := TypeOf(g.target, p, e.args[i], scope); t.Some? && !t.value.TFunc?
  {
    hide TypeOf, Calm, Consistent;
    if Reachable(p, g, m, e, scope) {
      AppParts(g.target, p, e, scope, i);
    }
  }

  lemma TypesUpToNil(p: Program, m: Memo, args: seq<Expr>, scope: Scope)
    ensures TypesUpTo(p, m, args, 0, scope, [])
  {
  }

  lemma DoneTypes(p: Program, g: Guide, start: Memo, now: Memo, e: Expr, scope: Scope, r: Option<Type>)
    requires Done(p, g, start, now, e, scope, r)
    ensures Step(p, start, now, r.Some?) && Types(p, now, e, scope, r)
  {
  }

  /** The memo a run ends with when a consistent table is reachable, as a later memo. */
  lemma LiftMemo(p: Program, g: Guide, start: Memo, now: Memo, e: Expr, scope: Scope) returns (goal: Memo)
    requires Going(p, g, start, now, e, scope) && Reachable(p, g, start, e, scope)
    ensures goal == Memo(g.target, now.busy, now.open, false) && Step(p, now, goal, false)
  {
    hide ValidMemo, CyclesAnnotated, Below, Refs, Consistent, TypeOf;
    goal := Memo(g.target, now.busy, now.open, false);
  }

  /** If a consistent table types the term, so does the rule applied to the parts' types. */
  lemma Settle(p: Program, g: Guide, start: Memo, now: Memo, e: Expr, scope: Scope, r: Option<Type>)
    requires Going(p, g, start, now, e, scope) && Types(p, now, e, scope, r)
    requires Reachable(p, g, start, e, scope) ==> TypeOf(g.target, p, e, scope) == r
    ensures Done(p, g, start, now, e, scope, r)
  {
    hide ValidMemo, Calm, Consistent, Types, TypeOf, Refs;
  }

  lemma AppDone(p: Program, g: Guide, start: Memo, now: Memo, e: Expr, scope: Scope, f: Type, ts: seq<Type>)
    requires e.App? && Going(p, g, start, now, e, scope) && Types(p, now, e.head, scope, Some(f)) && f.TFunc?
    requires TypesUpTo(p, now, e.args, |e.args|, scope, ts)
    ensures Done(p, g, start, now, e, scope, ApplyArgs(f, ts))
  {
    hide TypeOf, Types, ApplyArgs, TypesUpTo;
    AppTypes(p, now, e, scope, f, ts);
    if Reachable(p, g, start, e, scope) {
      var goal := LiftMemo(p, g, start, now, e, scope);
      TypesThen(p, now, goal, false, e.head, scope, Some(f));
      TypesUpToThen(p, now, goal, e.args, |e.args|, scope, ts);
      AppTypes(p, goal, e, scope, f, ts);
    }
    Settle(p, g, start, now, e, scope, ApplyArgs(f, ts));
  }

  // ----- guards -----

  /** The first n cases are typed and widen the accumulator through accs. */
  ghost predicate CasesUpTo(p: Program, m: Memo, cases: seq<GuardCase>, n: nat, scope: Scope, accs: seq<Type>) {
    |accs| == n + 1 && n <= |cases| && accs[0] == TUnknown
    && (!m.leaked ==> forall j :: 0 <= j < n ==> CaseTyped(m.result, p, cases, j, scope, accs[j], accs[j + 1]))
  }

  lemma CasesUpToThen(p: Program, a: Memo, b: Memo, ok: bool, cases: seq<GuardCase>, n: nat, scope: Scope,
    accs: seq<Type>)
    requires CasesUpTo(p, a, cases, n, scope, accs) && Step(p, a, b, ok)
    ensures CasesUpTo(p, b, cases, n, scope, accs)
  {
    hide CaseTyped, ValidMemo;
    if !b.leaked {
      forall j | 0 <= j < n
        ensures CaseTyped(b.result, p, cases, j, scope, accs[j], accs[j + 1])
      {
        CaseTypedGrows(a.result, b.result, p, cases, j, scope, accs[j], accs[j + 1]);
      }
    }
  }

  lemma CasesUpToNil(p: Program, m: Memo, cases: seq<GuardCase>, scope: Scope)
    ensures CasesUpTo(p, m, cases, 0, scope, [TUnknown])
  {
  }

  /** The condition of a case that is not `otherwise` is a truth value. */
  predicate CondOk(t: Option<Type>) {
    t.Some? && (t.value.TBool? || t.value.TUnknown?)
  }

  lemma CasesUpToNext(p: Program, m: Memo, cases: seq<GuardCase>, n: nat, scope: Scope, accs: seq<Type>,
    c: Option<Type>, t: Type, next: Type)
    requires n < |cases| && CasesUpTo(p, m, cases, n, scope, accs)
    requires cases[n].Otherwise? == (n == |cases| - 1)
    requires cases[n].When? ==> Types(p, m, cases[n].cond, scope, c) && CondOk(c)
    requires Types(p, m, cases[n].result, scope, Some(t)) && !t.TFunc? && Unify(accs[n], t) == Some(next)
    ensures CasesUpTo(p, m, cases, n + 1, scope, accs + [next])
  {
    hide TypeOf, Unify;
    var accs' := accs + [next];
    if !m.leaked {
      forall j | 0 <= j < n + 1
        ensures CaseTyped(m.result, p, cases, j, scope, accs'[j], accs'[j + 1])
      {
        assert j < n ==> CaseTyped(m.result, p, cases, j, scope, accs[j], accs[j + 1]);
      }
    }
  }

  lemma GuardsTypes(p: Program, m: Memo, e: Expr, scope: Scope, accs: seq<Type>)
    requires e.Guards? && e.cases != [] && CasesUpTo(p, m, e.cases, |e.cases|, scope, accs)
    ensures Types(p, m, e, scope, Some(accs[|e.cases|]))
  {
    hide CaseTyped, GuardsType;
    if !m.leaked {
      GuardsTypeFrom(m.result, p, e.cases, 0, scope, accs);
      assert e.cases[0..] == e.cases;
    }
  }

  /** A table that types the rest of the guards types the next case. */
  lemma GuardsNext(sig: Sigs, p: Program, cases: seq<GuardCase>, n: nat, scope: Scope, acc: Type)
    requires n < |cases| && GuardsType(sig, p, cases[n..], scope, acc).Some?
    ensures cases[n].Otherwise? == (n == |cases| - 1)
    ensures cases[n].When? ==> CondOk(TypeOf(sig, p, cases[n].cond, scope))
    ensures var t := TypeOf(sig, p, cases[n].result, scope);
      t.Some? && !t.value.TFunc?
      && var u := Unify(acc, t.value);
        u.Some? && (n + 1 < |cases| ==> GuardsType(sig, p, cases[n + 1..], scope, u.value).Some?)
  {
    hide TypeOf, Unify;
    assert cases[n..][1..] == cases[n + 1..];
    assert |cases[n..]| == 1 <==> n == |cases| - 1;
  }

  /** A reachable table types the cases from the n-th on. */
  ghost predicate RestTyped(p: Program, g: Guide, start: Memo, e: Expr, n: nat, scope: Scope, acc: Type)
    requires e.Guards?
  {
    Reachable(p, g, start, e, scope) && n < |e.cases| ==> GuardsType(g.target, p, e.cases[n..], scope, acc).Some?
  }

  lemma RestTypedStart(p: Program, g: Guide, start: Memo, e: Expr, scope: Scope)
    requires e.Guards?
    ensures RestTyped(p, g, start, e, 0, scope, TUnknown)
    ensures e.cases == [] ==> !Reachable(p, g, start, e, scope)
  {
    hide GuardsType, Calm, Consistent;
    assert e.cases[0..] == e.cases;
  }

  lemma RestTypedNext(p: Program, g: Guide, start: Memo, e: Expr, n: nat, scope: Scope, acc: Type)
    requires e.Guards? && n < |e.cases| && RestTyped(p, g, start, e, n, scope, acc)
    ensures Reachable(p, g, start, e, scope) ==>
      e.cases[n].Otherwise? == (n == |e.cases| - 1)
      && (e.cases[n].When? ==>
        TypeOf(g.target, p, e.cases[n].cond, scope).Some? && CondOk(TypeOf(g.target, p, e.cases[n].cond, scope)))
      && var t := TypeOf(g.target, p, e.cases[n].result, scope);
        t.Some? && !t.value.TFunc?
        && var u := Unify(acc, t.value); u.Some? && RestTyped(p, g, start, e, n + 1, scope, u.value)
  {
    hide TypeOf, Unify, GuardsType, Reachable;
    if Reachable(p, g, start, e, scope) {
      GuardsNext(g.target, p, e.cases, n, scope, acc);
    }
  }

  lemma RestTypedStep(p: Program, g: Guide, start: Memo, e: Expr, n: nat, scope: Scope, acc: Type, t: Type, next: Type)
    requires e.Guards? && n < |e.cases| && RestTyped(p, g, start, e, n, scope, acc) && Unify(acc, t) == Some(next)
    requires Reachable(p, g, start, e, scope) ==> TypeOf(g.target, p, e.cases[n].result, scope) == Some(t)
    ensures RestTyped(p, g, start, e, n + 1, scope, next)
  {
    hide TypeOf, Unify, GuardsType, Reachable;
    RestTypedNext(p, g, start, e, n, scope, acc);
  }

  // ----- struct literals -----

  /** The first n fields have distinct names and the value types in fs. */
  ghost predicate FieldsUpTo(p: Program, m: Memo, inits: seq<FieldInit>, n: nat, scope: Scope, fs: seq<TypedField>) {
    n == |fs| <= |inits|
    && (forall i, j :: 0 <= i < j < n ==> inits[i].name != inits[j].name)
    && forall i :: 0 <= i < n ==>
      fs[i].name == inits[i].name && !fs[i].typ.TFunc? && Types(p, m, inits[i].value, scope, Some(fs[i].typ))
  }

  lemma FieldsUpToNil(p: Program, m: Memo, inits: seq<FieldInit>, scope: Scope)
    ensures FieldsUpTo(p, m, inits, 0, scope, [])
  {
  }

  lemma FieldsUpToNext(p: Program, a: Memo, b: Memo, inits: seq<FieldInit>, n: nat, scope: Scope, fs: seq<TypedField>,
    t: Type)
    requires n < |inits| && FieldsUpTo(p, a, inits, n, scope, fs) && Step(p, a, b, true)
    requires forall j :: 0 <= j < n ==> inits[j].name != inits[n].name
    requires Types(p, b, inits[n].value, scope, Some(t)) && !t.TFunc?
    ensures FieldsUpTo(p, b, inits, n + 1, scope, fs + [TypedField(inits[n].name, t)])
  {
    hide Types, Step;
    forall j | 0 <= j < n
      ensures Types(p, b, inits[j].value, scope, Some(fs[j].typ))
    {
      TypesThen(p, a, b, true, inits[j].value, scope, Some(fs[j].typ));
    }
  }

  lemma StructTypes(p: Program, m: Memo, e: Expr, scope: Scope, fs: seq<TypedField>)
    requires e.StructLit? && FieldsUpTo(p, m, e.inits, |e.inits|, scope, fs)
    ensures Types(p, m, e, scope, Some(TStruct(fs)))
  {
    if !m.leaked {
      hide TypeOf;
      assert forall i :: 0 <= i < |e.inits| ==> Types(p, m, e.inits[i].value, scope, Some(fs[i].typ));
      InitTypesFrom(m.result, p, e.inits, scope, fs);
      StructTypeOf(m.result, p, e, scope, fs);
    }
  }

  lemma StructTypeOf(sig: Sigs, p: Program, e: Expr, scope: Scope, fs: seq<TypedField>)
    requires e.StructLit? && InitTypes(sig, p, e.inits, scope) == Some(fs)
    ensures TypeOf(sig, p, e, scope) == Some(TStruct(fs))
  {
  }

  lemma StructReachable(p: Program, g: Guide, m: Memo, e: Expr, scope: Scope, i: nat)
    requires e.StructLit? && i < |e.inits|
    ensures Reachable(p, g, m, e, scope) ==>
      (forall j :: 0 <= j < i ==> e.inits[j].name != e.inits[i].name)
      && var t := TypeOf(g.target, p, e.inits[i].value, scope); t.Some? && !t.value.TFunc?
  {
    hide Calm, Consistent;
    if Reachable(p, g, m, e, scope) {
      var fs := InitTypes(g.target, p, e.inits, scope).value;
      InitTypesAt(g.target, p, e.inits, scope, fs, i);
      forall j | 0 <= j < i
        ensures e.inits[j].name != e.inits[i].name
      {
        InitTypesAt(g.target, p, e.inits, scope, fs, j);
      }
    }
  }

  // ----- field access, folds and references -----

  function FieldRule(t: Type, field: string): Option<Type> {
    if t.TStruct? then FindField(t.fields, field) else None
  }

  lemma FieldDone(p: Program, g: Guide, start: Memo, now: Memo, e: Expr, scope: Scope, t: Type)
    requires e.Field? && Going(p, g, start, now, e, scope) && Types(p, now, e.target, scope, Some(t))
    requires Reachable(p, g, start, e, scope) ==> TypeOf(g.target, p, e.target, scope) == Some(t)
    ensures Done(p, g, start, now, e, scope, FieldRule(t, e.field))
  {
    hide Going, Reachable, Done, FindField;
    Settle(p, g, start, now, e, scope, FieldRule(t, e.field));
  }

  lemma FieldReachable(p: Program, g: Guide, m: Memo, e: Expr, scope: Scope)
    requires e.Field?
    ensures Reachable(p, g, m, e, scope) ==> TypeOf(g.target, p, e.target, scope).Some?
  {
    hide Calm, Consistent;
  }

  function ReduceRule(f: Type, acc: Type, v: Type): Option<Type> {
    if !f.TFunc? || |f.params| != 2 || acc.TFunc? || !v.TVector? then None
    else ReduceType(f, acc, v.elem, REDUCE_ROUNDS)
  }

  lemma ReduceReachable(p: Program, g: Guide, m: Memo, e: Expr, scope: Scope)
    requires e.Reduce?
    ensures Reachable(p, g, m, e, scope) ==>
      TypeOf(g.target, p, e.fold, scope).Some? && TypeOf(g.target, p, e.init, scope).Some?
      && TypeOf(g.target, p, e.vec, scope).Some?
  {
    hide Calm, Consistent, ReduceType;
  }

  lemma ReduceDone(p: Program, g: Guide, start: Memo, now: Memo, e: Expr, scope: Scope, f: Type, acc: Type, v: Type)
    requires e.Reduce? && Going(p, g, start, now, e, scope)
    requires Types(p, now, e.fold, scope, Some(f)) && Types(p, now, e.init, scope, Some(acc))
    requires Types(p, now, e.vec, scope, Some(v))
    requires Reachable(p, g, start, e, scope) ==>
      TypeOf(g.target, p, e.fold, scope) == Some(f) && TypeOf(g.target, p, e.init, scope) == Some(acc)
      && TypeOf(g.target, p, e.vec, scope) == Some(v)
    ensures Done(p, g, start, now, e, scope, ReduceRule(f, acc, v))
  {
    hide Going, Reachable, Done, ReduceType;
    Settle(p, g, start, now, e, scope, ReduceRule(f, acc, v));
  }

  lemma ReduceRefused(p: Program, g: Guide, start: Memo, now: Memo, e: Expr, scope: Scope)
    requires e.Reduce? && Going(p, g, start, now, e, scope)
    requires Reachable(p, g, start, e, scope) ==>
      var f, acc, v := TypeOf(g.target, p, e.fold, scope), TypeOf(g.target, p, e.init, scope),
        TypeOf(g.target, p, e.vec, scope);
      (f.Some? && (!f.value.TFunc? || |f.value.params| != 2)) || (acc.Some? && acc.value.TFunc?)
      || (v.Some? && !v.value.TVector?)
    ensures Done(p, g, start, now, e, scope, None)
  {
    hide ReduceType, Done, Going, Calm, Consistent;
    Reject(p, g, start, now, e, scope);
  }

  /** A term without parts that a visit of no function settles. */
  lemma LeafDone(p: Program, g: Guide, now: Memo, e: Expr, scope: Scope)
    requires ValidMemo(p, now) && (e.NumLit? || e.StrLit? || e.Var? || e.PrimRef?)
    ensures Done(p, g, now, now, e, scope, TypeOf(map[], p, e, scope))
  {
    hide ValidMemo, Calm, Consistent;
    Start(p, g, now, e, scope);
    Settle(p, g, now, now, e, scope, TypeOf(map[], p, e, scope));
  }

  lemma UnknownFnDone(p: Program, g: Guide, now: Memo, e: Expr, scope: Scope)
    requires ValidMemo(p, now) && e.FnRef? && e.fn !in p
    ensures Done(p, g, now, now, e, scope, None)
  {
    hide ValidMemo, Calm, Consistent;
    Start(p, g, now, e, scope);
    Reject(p, g, now, now, e, scope);
  }

  /** The type of a reference to fn when its return type is t. */
  function RefType(p: Program, fn: string, t: Option<Type>): Option<Type>
    requires fn in p
  {
    match t
    case Some(r) => Some(TFunc(ParamTypes(p[fn].params), r, None, []))
    case None => None
  }

  // ----- visiting a function -----

  /** The guide for visiting fn's body: everything it mentions ranks no higher than fn. */
  ghost function Within(p: Program, g: Guide, fn: string): Guide {
    if fn in g.rank then g.(bound := g.rank[fn]) else g
  }

  lemma KnownDone(p: Program, g: Guide, now: Memo, fn: string, scope: Scope)
    requires ValidMemo(p, now) && fn in p && fn in now.result
    ensures Done(p, g, now, now, FnRef(fn), scope, RefType(p, fn, Some(now.result[fn])))
  {
    hide ValidMemo, Calm, Consistent;
    Start(p, g, now, FnRef(fn), scope);
    Accept(p, g, now, now, FnRef(fn), scope, RefType(p, fn, Some(now.result[fn])));
  }

  lemma LeakDone(p: Program, g: Guide, start: Memo, now: Memo, fn: string, scope: Scope)
    requires ValidMemo(p, start) && fn in p && fn in start.busy && now == start.(leaked := true)
    ensures Done(p, g, start, now, FnRef(fn), scope, RefType(p, fn, Some(TUnknown)))
  {
    hide Consistent, CyclesAnnotated, SigsOk, Explained, BodyOk;
    assert fn in Refs(FnRef(fn));
  }

  /** Seeding an annotation keeps the memo valid, with the body open. */
  lemma SeedValid(p: Program, start: Memo, mid: Memo, fn: string)
    requires ValidMemo(p, start) && Declared(p) && fn in p && fn !in start.result && p[fn].ret.Some?
    requires mid == start.(result := start.result[fn := p[fn].ret.value], open := start.open + {fn})
    ensures ValidMemo(p, mid) && Unvisited(p, mid) < Unvisited(p, start)
  {
    hide BodyOk, TypeOf, Unvisited;
    UnvisitedDrops(p, start, mid, fn);
    if !mid.leaked {
      forall f | f in mid.result
        ensures Explained(mid.result, p, f) && (f in mid.open || BodyOk(mid.result, p, f))
      {
        if f != fn {
          ExplainedGrows(start.result, mid.result, p, f);
          if f !in mid.open {
            BodyOkGrows(start.result, mid.result, p, f);
          }
        }
      }
    }
  }

  lemma MarkValid(p: Program, start: Memo, mid: Memo, fn: string)
    requires ValidMemo(p, start) && fn in p && fn !in start.result && fn !in start.busy && p[fn].ret.None?
    requires mid == start.(busy := start.busy + {fn})
    ensures ValidMemo(p, mid) && Unvisited(p, mid) < Unvisited(p, start)
  {
    hide SigsOk, Explained, BodyOk, Unvisited;
    UnvisitedDrops(p, start, mid, fn);
  }

  /** What is mentioned in fn's body is visited calmly, if fn is. */
  lemma CalmBody(p: Program, g: Guide, start: Memo, mid: Memo, fn: string)
    requires fn in p && mid.leaked == start.leaked
    requires mid.busy == if p[fn].ret.Some? then start.busy else start.busy + {fn}
    requires Calm(p, g, start, {fn})
    ensures Calm(p, Within(p, g, fn), mid, Refs(p[fn].body))
  {
    hide Refs;
  }

  /** A consistent table that extends the memo types fn's body by its own entry. */
  lemma ReachableBody(p: Program, g: Guide, start: Memo, mid: Memo, fn: string, scope: Scope)
    requires fn in p && mid.leaked == start.leaked && Reachable(p, g, start, FnRef(fn), scope)
    requires mid.busy == if p[fn].ret.Some? then start.busy else start.busy + {fn}
    requires mid.result == match p[fn].ret { case Some(t) => start.result[fn := t] case None => start.result }
    ensures Reachable(p, Within(p, g, fn), mid, p[fn].body, FnScope(p[fn]))
    ensures Explained(g.target, p, fn) && BodyOk(g.target, p, fn) && SigsOk(g.target, p)
  {
    hide CyclesAnnotated, TypeOf, Below, SigsOk, SubType;
    assert Refs(FnRef(fn)) == {fn};
    assert Explained(g.target, p, fn) && BodyOk(g.target, p, fn);
    CalmBody(p, g, start, mid, fn);
  }

  /** What inferReturn demands of the type of fn's body. */
  predicate BodyAccepted(p: Program, fn: string, t: Option<Type>)
    requires fn in p
  {
    t.Some? && !t.value.TFunc? && !ContainsUnknown(t.value) && (p[fn].ret.Some? ==> SubType(t.value, p[fn].ret.value))
  }

  lemma {:induction false} ConcreteKnown(t: Type)
    requires ValueType(t)
    ensures !ContainsUnknown(t)
    decreases t
  {
    match t
    case TStruct(fs) =>
      forall i | 0 <= i < |fs|
        ensures !ContainsUnknown(fs[i].typ)
      {
        ConcreteKnown(fs[i].typ);
      }
    case TVector(elem) => ConcreteKnown(elem);
    case _ =>
  }

  /** The type of a body under a table of value types is a value type or a function. */
  lemma BodyShape(sig: Sigs, p: Program, fn: string, t: Type)
    requires SigsOk(sig, p) && fn in p && TypeOf(sig, p, p[fn].body, FnScope(p[fn])) == Some(t) && !t.TFunc?
    ensures ValueType(t) && !ContainsUnknown(t)
  {
    hide TypeOf, ValueType, ContainsUnknown;
    CallScopeOk(p[fn]);
    TypeOfShape(sig, p, p[fn].body, FnScope(p[fn]), t);
    ConcreteKnown(t);
  }

  /** The state between marking or seeding fn and the end of the visit of its body. */
  ghost predicate Visited(p: Program, g: Guide, start: Memo, mid: Memo, last: Memo, fn: string, body: Option<Type>) {
    fn in p && fn !in start.result && fn !in start.busy && Declared(p) && ValidMemo(p, start) && ValidMemo(p, mid)
    && (match p[fn].ret
      case Some(t) => mid == start.(result := start.result[fn := t], open := start.open + {fn})
      case None => mid == start.(busy := start.busy + {fn}))
    && Done(p, Within(p, g, fn), mid, last, p[fn].body, FnScope(p[fn]), body)
  }

  /** When a consistent table is reachable, the body is accepted, with the type that table gives it. */
  lemma BodyReached(p: Program, g: Guide, start: Memo, mid: Memo, last: Memo, fn: string, scope: Scope,
    body: Option<Type>)
    requires Visited(p, g, start, mid, last, fn, body) && Reachable(p, g, start, FnRef(fn), scope)
    ensures BodyAccepted(p, fn, body) && SubSigs(last.result, g.target) && Explained(g.target, p, fn)
    ensures TypeOf(g.target, p, p[fn].body, FnScope(p[fn])) == body
  {
    hide ValidMemo, TypeOf, Refs, CyclesAnnotated, SigsOk, Below, SubType, ContainsUnknown;
    ReachableBody(p, g, start, mid, fn, scope);
    TypeOfGrows(last.result, g.target, p, p[fn].body, FnScope(p[fn]), body.value);
    BodyShape(g.target, p, fn, body.value);
  }

  /** A visit never leaks on a calm start, and keeps what was known. */
  lemma VisitKeeps(p: Program, g: Guide, start: Memo, mid: Memo, last: Memo, fn: string, body: Option<Type>)
    requires Visited(p, g, start, mid, last, fn, body)
    ensures SubSigs(start.result, last.result) && last.busy == mid.busy && (start.leaked ==> last.leaked)
    ensures Calm(p, g, start, {fn}) ==> !last.leaked
    ensures body.Some? ==> ValidMemo(p, last) && last.open == mid.open
  {
    hide ValidMemo, TypeOf, Refs, CyclesAnnotated, Below, Reachable;
    if Calm(p, g, start, {fn}) {
      CalmBody(p, g, start, mid, fn);
    }
  }

  lemma VisitRejected(p: Program, g: Guide, start: Memo, mid: Memo, last: Memo, fin: Memo, fn: string, scope: Scope,
    body: Option<Type>)
    requires Visited(p, g, start, mid, last, fn, body) && !BodyAccepted(p, fn, body)
    requires fin.result == last.result && fin.busy == start.busy && fin.leaked == last.leaked
    ensures Done(p, g, start, fin, FnRef(fn), scope, None)
  {
    hide ValidMemo, TypeOf, Calm, Reachable, Visited, BodyAccepted;
    VisitKeeps(p, g, start, mid, last, fn, body);
    assert Refs(FnRef(fn)) == {fn};
    if Reachable(p, g, start, FnRef(fn), scope) {
      BodyReached(p, g, start, mid, last, fn, scope, body);
    }
  }

  lemma SeedChecked(p: Program, g: Guide, start: Memo, mid: Memo, last: Memo, fin: Memo, fn: string, body: Type)
    requires Visited(p, g, start, mid, last, fn, Some(body)) && BodyAccepted(p, fn, Some(body)) && p[fn].ret.Some?
    requires fin == last.(open := start.open)
    ensures ValidMemo(p, fin) && fn in fin.result && fin.result[fn] == p[fn].ret.value
  {
    hide TypeOf, Calm, Reachable, SubType, Refs, SigsOk, Explained, ContainsUnknown;
    VisitKeeps(p, g, start, mid, last, fn, Some(body));
  }

  lemma InferChecked(p: Program, g: Guide, start: Memo, mid: Memo, last: Memo, fin: Memo, fn: string, body: Type)
    requires Visited(p, g, start, mid, last, fn, Some(body)) && BodyAccepted(p, fn, Some(body)) && p[fn].ret.None?
    requires fin == last.(result := last.result[fn := body], busy := start.busy)
    ensures ValidMemo(p, fin) && SubSigs(last.result, fin.result)
  {
    hide TypeOf, Calm, Reachable, SubType, Refs, ContainsUnknown, ValueType;
    VisitKeeps(p, g, start, mid, last, fn, Some(body));
    if !fin.leaked {
      BodyShape(last.result, p, fn, body);
      TypeOfGrows(last.result, fin.result, p, p[fn].body, FnScope(p[fn]), body);
      SubTypeReflexive(body);
      forall f | f in last.result
        ensures Explained(fin.result, p, f) && (f in fin.open || BodyOk(fin.result, p, f))
      {
        ExplainedGrows(last.result, fin.result, p, f);
        if f !in fin.open {
          BodyOkGrows(last.result, fin.result, p, f);
        }
      }
    }
  }

  /** A visit that ends in a valid memo with fn's entry answers the reference to fn. */
  lemma VisitAccepted(p: Program, g: Guide, start: Memo, mid: Memo, last: Memo, fin: Memo, fn: string, scope: Scope,
    body: Type, r: Type)
    requires fn in p && Visited(p, g, start, mid, last, fn, Some(body)) && ValidMemo(p, fin)
    requires SubSigs(last.result, fin.result)
    requires forall f :: f in fin.result ==> f == fn || f in last.result
    requires fin.busy == start.busy && fin.open == start.open && fin.leaked == last.leaked
    requires fn in fin.result && fin.result[fn] == r && (p[fn].ret.None? ==> r == body)
    ensures Done(p, g, start, fin, FnRef(fn), scope, RefType(p, fn, Some(r)))
  {
    hide ValidMemo, Calm, Reachable, Visited;
    VisitKeeps(p, g, start, mid, last, fn, Some(body));
    assert Refs(FnRef(fn)) == {fn};
    if Reachable(p, g, start, FnRef(fn), scope) {
      BodyReached(p, g, start, mid, last, fn, scope, Some(body));
      TargetEntry(p, g, start, mid, last, fn, body);
      assert SubSigs(fin.result, g.target);
    }
    assert Types(p, fin, FnRef(fn), scope, RefType(p, fn, Some(r)));
    assert Step(p, start, fin, true);
    assert Calm(p, g, start, Refs(FnRef(fn))) ==> !fin.leaked;
  }

  /** A table explaining fn agrees with an entry seeded for it. */
  lemma TargetEntry(p: Program, g: Guide, start: Memo, mid: Memo, last: Memo, fn: string, body: Type)
    requires Visited(p, g, start, mid, last, fn, Some(body)) && Explained(g.target, p, fn)
    requires TypeOf(g.target, p, p[fn].body, FnScope(p[fn])) == Some(body)
    ensures fn in g.target
    ensures p[fn].ret.Some? ==> fn in last.result && g.target[fn] == last.result[fn]
    ensures p[fn].ret.None? ==> g.target[fn] == body
  {
    hide ValidMemo, Calm, Reachable, TypeOf;
  }

  /** An annotated function: its body is checked against the seeded annotation. */
  lemma SeedDone(p: Program, g: Guide, start: Memo, mid: Memo, last: Memo, fin: Memo, fn: string, scope: Scope,
    body: Option<Type>)
    requires ValidMemo(p, start) && ValidMemo(p, mid) && Declared(p) && fn in p && fn !in start.result
    requires p[fn].ret.Some? && mid == start.(result := start.result[fn := p[fn].ret.value], open := start.open + {fn})
    requires Done(p, Within(p, g, fn), mid, last, p[fn].body, FnScope(p[fn]), body) && fin == last.(open := start.open)
    ensures Done(p, g, start, fin, FnRef(fn), scope,
      RefType(p, fn, if BodyAccepted(p, fn, body) then p[fn].ret else None))
  {
    hide Done, BodyAccepted, Declared, Explained, BodyOk, SigsOk, Within;
    VisitKeeps(p, g, start, mid, last, fn, body);
    if BodyAccepted(p, fn, body) {
      BodyTyped(p, fn, body);
      SeedChecked(p, g, start, mid, last, fin, fn, body.value);
      VisitAccepted(p, g, start, mid, last, fin, fn, scope, body.value, p[fn].ret.value);
    } else {
      VisitRejected(p, g, start, mid, last, fin, fn, scope, body);
    }
  }

  lemma BodyTyped(p: Program, fn: string, t: Option<Type>)
    requires fn in p && BodyAccepted(p, fn, t)
    ensures t.Some?
  {
  }

  lemma InferRejected(p: Program, g: Guide, start: Memo, mid: Memo, last: Memo, fin: Memo, fn: string, scope: Scope,
    body: Option<Type>)
    requires ValidMemo(p, start) && ValidMemo(p, mid) && Declared(p) && fn in p && fn !in start.result
    requires fn !in start.busy && p[fn].ret.None? && mid == start.(busy := start.busy + {fn})
    requires Done(p, Within(p, g, fn), mid, last, p[fn].body, FnScope(p[fn]), body) && !BodyAccepted(p, fn, body)
    requires fin == last.(busy := last.busy - {fn})
    ensures Done(p, g, start, fin, FnRef(fn), scope, None)
  {
    hide Done, BodyAccepted, Declared, Explained, BodyOk, SigsOk, Within;
    VisitKeeps(p, g, start, mid, last, fn, body);
    assert fin.busy == start.busy;
    VisitRejected(p, g, start, mid, last, fin, fn, scope, body);
  }

  lemma InferAccepted(p: Program, g: Guide, start: Memo, mid: Memo, last: Memo, fin: Memo, fn: string, scope: Scope,
    body: Type)
    requires ValidMemo(p, start) && ValidMemo(p, mid) && Declared(p) && fn in p && fn !in start.result
    requires fn !in start.busy && p[fn].ret.None? && mid == start.(busy := start.busy + {fn})
    requires Done(p, Within(p, g, fn), mid, last, p[fn].body, FnScope(p[fn]), Some(body))
    requires BodyAccepted(p, fn, Some(body))
    requires fin == last.(result := last.result[fn := body], busy := last.busy - {fn})
    ensures Done(p, g, start, fin, FnRef(fn), scope, RefType(p, fn, Some(body)))
  {
    hide Done, BodyAccepted, Declared, Explained, BodyOk, SigsOk, Within;
    VisitKeeps(p, g, start, mid, last, fn, Some(body));
    assert fin.busy == start.busy;
    InferChecked(p, g, start, mid, last, fin, fn, body);
    VisitAccepted(p, g, start, mid, last, fin, fn, scope, body, body);
  }

  // ----- the whole program -----

  lemma FreshValid(p: Program, m: Memo)
    requires m == Memo(map[], {}, {}, false) && Declared(p)
    ensures ValidMemo(p, m)
  {
  }

  ghost function Outermost(g: Guide, fn: string): Guide {
    if fn in g.rank then g.(bound := g.rank[fn] + 1) else g
  }

  lemma OutermostDone(p: Program, g: Guide, start: Memo, now: Memo, fn: string, t: Option<Type>)
    requires fn in p && start.busy == {} && Done(p, Outermost(g, fn), start, now, FnRef(fn), map[], RefType(p, fn, t))
    ensures SubSigs(start.result, now.result) && now.busy == {} && (start.leaked ==> now.leaked)
    ensures t.Some? ==> ValidMemo(p, now) && now.open == start.open && (!now.leaked ==> fn in now.result)
    ensures CyclesAnnotated(p, g.rank) && !start.leaked ==> !now.leaked
    ensures CyclesAnnotated(p, g.rank) && !start.leaked && Consistent(g.target, p) && SubSigs(start.result, g.target) ==>
      t.Some? && SubSigs(now.result, g.target)
  {
    hide ValidMemo, BodyOk, Refs, SigsOk;
    assert Refs(FnRef(fn)) == {fn} by { OnlyItself(fn); }
  }

  lemma AllChecked(p: Program, m: Memo)
    requires ValidMemo(p, m) && !m.leaked && m.open == {} && p.Keys <= m.result.Keys
    ensures Consistent(m.result, p) && m.result.Keys == p.Keys
  {
    hide SigsOk, BodyOk, Explained;
  }

  lemma OneArg(sig: Sigs, p: Program, x: Expr, scope: Scope, t: Type)
    requires TypeOf(sig, p, x, scope) == Some(t) && !t.TFunc?
    ensures TypesOf(sig, p, [x], scope) == Some([t])
  {
    hide TypeOf;
    TypesOfFrom(sig, p, [x], scope, [t]);
  }
}
