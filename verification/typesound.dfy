/**
  Soundness of the type checker against the interpreter: a typed term evaluates to
  a value of its type or runs out of depth, and meets no other error. Every lemma
  comes in two readings: unsigned, which promises the shape of values, so that no
  operation ever fails, and signed, which also promises the signs and domains of
  numbers and for that keeps away from products of two unknown signs.
 */
module TypeSound {
  import opened Options
  import opened NumTypes
  import opened Syntax
  import opened Interp
  import opened TypeRules

  // ----- the scope of the theorem -----

  /** b's values survive unification with a: vectors are kept from the first operand, so they must be subtypes of it. */
  predicate SafeUnify(a: Type, b: Type)
    decreases a
  {
    match (a, b)
    case (TVector(_), TVector(_)) => SubType(b, a)
    case (TStruct(fs), TStruct(gs)) =>
      forall i :: 0 <= i < |fs| ==>
        var g := FindField(gs, fs[i].name); g.Some? ==> SafeUnify(fs[i].typ, g.value)
    case _ => true
  }

  /** Not a product of two operands of unknown sign. */
  predicate SafeApply(f: Type, args: seq<Type>)
    requires f.TFunc?
  {
    var all := f.bound + args;
    f.op == Some(Mul) && |all| == 2 && all[0].TNum? && all[1].TNum?
    ==> !(all[0].num.sign.SAny? && all[1].num.sign.SAny?)
  }

  /** No subterm unifies vectors of unrelated element types nor, when signs matter, multiplies two numbers of unknown sign. */
  predicate Safe(signed: bool, sig: Sigs, p: Program, e: Expr, scope: Scope)
    decreases e
  {
    match e
    case App(head, args) =>
      Safe(signed, sig, p, head, scope) && (forall i :: 0 <= i < |args| ==> Safe(signed, sig, p, args[i], scope))
      && var f, ts := TypeOf(sig, p, head, scope), TypesOf(sig, p, args, scope);
        f.Some? && f.value.TFunc? && signed && ts.Some? ==> SafeApply(f.value, ts.value)
    case Guards(cases) => SafeGuards(signed, sig, p, cases, scope, TUnknown)
    case StructLit(inits) => forall i :: 0 <= i < |inits| ==> Safe(signed, sig, p, inits[i].value, scope)
    case Field(target, _) => Safe(signed, sig, p, target, scope)
    case Reduce(fold, init, vec) =>
      Safe(signed, sig, p, fold, scope) && Safe(signed, sig, p, init, scope) && Safe(signed, sig, p, vec, scope)
      && var f, r, v := TypeOf(sig, p, fold, scope), TypeOf(sig, p, e, scope), TypeOf(sig, p, vec, scope);
        f.Some? && f.value.TFunc? && r.Some? && v.Some? && v.value.TVector? ==>
          var sat := ApplyArgs(f.value, [r.value, v.value.elem]);
          sat.Some? ==> SafeUnify(r.value, sat.value)
    case _ => true
  }

  predicate SafeGuards(signed: bool, sig: Sigs, p: Program, cases: seq<GuardCase>, scope: Scope, acc: Type)
    decreases cases
  {
    if cases == [] then true
    else
      var c := cases[0];
      assert c.result < c;
      (c.When? ==> assert c.cond < c; Safe(signed, sig, p, c.cond, scope))
      && Safe(signed, sig, p, c.result, scope)
      && var r := TypeOf(sig, p, c.result, scope);
        r.Some? ==>
          SafeUnify(acc, r.value)
          && var u := Unify(acc, r.value); u.Some? ==> SafeGuards(signed, sig, p, cases[1..], scope, u.value)
  }

  /** The signed scope is inside the unsigned one. */
  lemma {:induction false} SafeWeakens(sig: Sigs, p: Program, e: Expr, scope: Scope)
    requires Safe(true, sig, p, e, scope)
    ensures Safe(false, sig, p, e, scope)
    decreases e
  {
    hide TypeOf, TypesOf, ApplyArgs, SafeApply, SafeUnify;
    match e
    case App(head, args) =>
      SafeWeakens(sig, p, head, scope);
      forall i | 0 <= i < |args|
        ensures Safe(false, sig, p, args[i], scope)
      {
        SafeWeakens(sig, p, args[i], scope);
      }
    case Guards(cases) => SafeGuardsWeakens(sig, p, cases, scope, TUnknown);
    case StructLit(inits) =>
      forall i | 0 <= i < |inits|
        ensures Safe(false, sig, p, inits[i].value, scope)
      {
        SafeWeakens(sig, p, inits[i].value, scope);
      }
    case Field(target, _) => SafeWeakens(sig, p, target, scope);
    case Reduce(fold, init, vec) =>
      SafeWeakens(sig, p, fold, scope);
      SafeWeakens(sig, p, init, scope);
      SafeWeakens(sig, p, vec, scope);
    case _ =>
  }

  lemma {:induction false} SafeGuardsWeakens(sig: Sigs, p: Program, cases: seq<GuardCase>, scope: Scope, acc: Type)
    requires SafeGuards(true, sig, p, cases, scope, acc)
    ensures SafeGuards(false, sig, p, cases, scope, acc)
    decreases cases
  {
    hide TypeOf, SafeUnify, Unify, Safe;
    if cases != [] {
      var c := cases[0];
      assert c.result < c;
      SafeWeakens(sig, p, c.result, scope);
      if c.When? {
        assert c.cond < c;
        SafeWeakens(sig, p, c.cond, scope);
      }
      var r := TypeOf(sig, p, c.result, scope);
      if r.Some? && Unify(acc, r.value).Some? {
        SafeGuardsWeakens(sig, p, cases[1..], scope, Unify(acc, r.value).value);
      }
    }
  }

  predicate ScopeOk(scope: Scope) {
    forall x :: x in scope ==> ValueType(scope[x])
  }

  function FnScope(d: FnDef): Scope {
    Bind(ParamNames(d.params), ParamTypes(d.params))
  }

  /** Known signatures and parameters are concrete value types; parameter names are distinct. */
  ghost predicate SigsOk(sig: Sigs, p: Program) {
    forall fn :: fn in p ==>
      (fn in sig ==> ValueType(sig[fn])) && Distinct(ParamNames(p[fn].params))
      && forall i :: 0 <= i < |p[fn].params| ==> ValueType(p[fn].params[i].typ)
  }

  /** The body of fn has a value type assignable to its signature. */
  predicate BodyOk(sig: Sigs, p: Program, fn: string)
    requires fn in p
  {
    var t := TypeOf(sig, p, p[fn].body, FnScope(p[fn]));
    fn in sig && t.Some? && !t.value.TFunc? && SubType(t.value, sig[fn])
  }

  /**
    Every function the table lists has a body that agrees with it and is in scope. The table may
    leave functions out; a term it types, and all that term calls, are among those it lists.
   */
  ghost predicate ProgramTyped(signed: bool, sig: Sigs, p: Program) {
    SigsOk(sig, p)
    && forall fn :: fn in sig ==> fn in p && BodyOk(sig, p, fn) && Safe(signed, sig, p, p[fn].body, FnScope(p[fn]))
  }

  ghost predicate EnvOk(signed: bool, env: map<string, Val>, scope: Scope) {
    forall x :: x in scope ==> x in env && Fits(signed, env[x], scope[x])
  }

  // ----- types as sets -----

  lemma {:induction false} SubTypeSound(signed: bool, v: Val, a: Type, b: Type)
    requires Fits(signed, v, a) && SubType(a, b) && ValueType(b)
    ensures Fits(signed, v, b)
    decreases b
  {
    match (a, b)
    case (TNum(_), TNum(_)) =>
    case (TStruct(fs), TStruct(gs)) =>
      forall i | 0 <= i < |gs|
        ensures gs[i].name in v.fields && Fits(signed, v.fields[gs[i].name], gs[i].typ)
      {
        SubTypeSound(signed, v.fields[gs[i].name], FindField(fs, gs[i].name).value, gs[i].typ);
      }
    case (TVector(x), TVector(y)) =>
      forall i | 0 <= i < |v.slots|
        ensures Fits(signed, v.slots[i], y)
      {
        SubTypeSound(signed, v.slots[i], x, y);
      }
    case _ =>
  }

  lemma UnifyFieldsAt(fs: seq<TypedField>, gs: seq<TypedField>, us: seq<TypedField>, i: nat)
    requires UnifyFields(fs, gs) == Some(us) && i < |fs|
    ensures FindField(gs, fs[i].name).Some?
    ensures Unify(fs[i].typ, FindField(gs, fs[i].name).value) == Some(us[i].typ)
  {
    hide Unify, FindField;
    if i > 0 {
      UnifyFieldsAt(fs[1..], gs, us[1..], i - 1);
    }
  }

  /** The unified type contains the values of the first operand. */
  lemma {:induction false} UnifyKeepsLeft(signed: bool, v: Val, a: Type, b: Type, u: Type)
    requires Unify(a, b) == Some(u) && Fits(signed, v, a)
    ensures Fits(signed, v, u)
    decreases a
  {
    match (a, b)
    case (TNum(_), TNum(_)) =>
    case (TStruct(fs), TStruct(gs)) =>
      forall i | 0 <= i < |fs|
        ensures Fits(signed, v.fields[fs[i].name], u.fields[i].typ)
      {
        UnifyFieldsAt(fs, gs, u.fields, i);
        UnifyKeepsLeft(signed, v.fields[fs[i].name], fs[i].typ, FindField(gs, fs[i].name).value, u.fields[i].typ);
      }
    case _ =>
  }

  /** The unified type contains the values of the second operand, vectors of unrelated types apart. */
  lemma {:induction false} UnifyKeepsRight(signed: bool, v: Val, a: Type, b: Type, u: Type)
    requires Unify(a, b) == Some(u) && Fits(signed, v, b) && SafeUnify(a, b) && (a.TUnknown? || ValueType(a))
    ensures Fits(signed, v, u)
    decreases a
  {
    match (a, b)
    case (TNum(_), TNum(_)) =>
    case (TStruct(fs), TStruct(gs)) =>
      forall i | 0 <= i < |fs|
        ensures fs[i].name in v.fields && Fits(signed, v.fields[fs[i].name], u.fields[i].typ)
      {
        UnifyFieldsAt(fs, gs, u.fields, i);
        UnifyKeepsRight(signed, v.fields[fs[i].name], fs[i].typ, FindField(gs, fs[i].name).value, u.fields[i].typ);
      }
    case (TVector(_), TVector(_)) => SubTypeSound(signed, v, b, a);
    case _ =>
  }

  lemma {:induction false} UnifyValueType(a: Type, b: Type, u: Type)
    requires Unify(a, b) == Some(u) && (a.TUnknown? || ValueType(a)) && ValueType(b)
    ensures ValueType(u)
    decreases a
  {
    match (a, b)
    case (TStruct(fs), TStruct(gs)) =>
      forall i | 0 <= i < |fs|
        ensures ValueType(u.fields[i].typ)
      {
        UnifyFieldsAt(fs, gs, u.fields, i);
        UnifyValueType(fs[i].typ, FindField(gs, fs[i].name).value, u.fields[i].typ);
      }
    case _ =>
  }

  lemma FindFieldAt(fs: seq<TypedField>, i: nat)
    requires i < |fs| && forall j, k :: 0 <= j < k < |fs| ==> fs[j].name != fs[k].name
    ensures FindField(fs, fs[i].name) == Some(fs[i].typ)
  {
    if i > 0 {
      FindFieldAt(fs[1..], i - 1);
    }
  }

  /** The fixpoint test of the reduce loop is real equality: a unified type equal to its first operand is that operand. */
  lemma {:induction false} UnifyFixpoint(a: Type, b: Type, u: Type)
    requires Unify(a, b) == Some(u) && ValueType(a) && TypeEqual(u, a)
    ensures u == a
    decreases a
  {
    match (a, b)
    case (TStruct(fs), TStruct(gs)) =>
      forall i | 0 <= i < |fs|
        ensures u.fields[i] == fs[i]
      {
        UnifyFieldsAt(fs, gs, u.fields, i);
        FindFieldAt(fs, i);
        UnifyFixpoint(fs[i].typ, FindField(gs, fs[i].name).value, u.fields[i].typ);
      }
      assert u.fields == fs;
    case _ =>
  }

  lemma {:induction false} TypeEqualReflexive(a: Type)
    requires ValueType(a)
    ensures TypeEqual(a, a)
  {
    match a
    case TStruct(fs) =>
      forall i | 0 <= i < |fs|
        ensures FindField(fs, fs[i].name) == Some(fs[i].typ) && TypeEqual(fs[i].typ, fs[i].typ)
      {
        FindFieldAt(fs, i);
        TypeEqualReflexive(fs[i].typ);
      }
    case TVector(elem) => TypeEqualReflexive(elem);
    case _ =>
  }

  lemma UnifyFieldsFrom(fs: seq<TypedField>, gs: seq<TypedField>, us: seq<TypedField>)
    requires |us| == |fs|
    requires forall i :: 0 <= i < |fs| ==>
      us[i].name == fs[i].name && FindField(gs, fs[i].name).Some?
      && Unify(fs[i].typ, FindField(gs, fs[i].name).value) == Some(us[i].typ)
    ensures UnifyFields(fs, gs) == Some(us)
  {
    hide Unify, FindField;
    if fs != [] {
      UnifyFieldsFrom(fs[1..], gs, us[1..]);
      assert us == [us[0]] + us[1..];
    }
  }

  /** Absorption: unifying again with the same type changes nothing. */
  lemma {:induction false} UnifyAbsorbs(a: Type, b: Type, u: Type)
    requires Unify(a, b) == Some(u) && ValueType(a) && ValueType(b)
    ensures Unify(u, b) == Some(u)
    decreases a
  {
    match (a, b)
    case (TStruct(fs), TStruct(gs)) =>
      forall i | 0 <= i < |fs|
        ensures FindField(gs, fs[i].name).Some?
        ensures Unify(u.fields[i].typ, FindField(gs, fs[i].name).value) == Some(u.fields[i].typ)
      {
        UnifyFieldsAt(fs, gs, u.fields, i);
        UnifyAbsorbs(fs[i].typ, FindField(gs, fs[i].name).value, u.fields[i].typ);
      }
      UnifyFieldsFrom(u.fields, gs, u.fields);
    case _ =>
  }

  // ----- the reduce loop -----

  /** A signature the checker can produce: concrete parameters, and for a primitive the operands already supplied. */
  predicate GoodFn(t: Type) {
    t.TFunc? && (forall i :: 0 <= i < |t.params| ==> ValueType(t.params[i]))
    && match t.op
      case None => ValueType(t.result)
      case Some(op) =>
        |t.params| + |t.bound| == 2 && (forall i :: 0 <= i < |t.params| ==> t.params[i] == TNum(NUM_TOP))
        && forall i :: 0 <= i < |t.bound| ==> t.bound[i].TNum? || (IsCmp(op) && t.bound[i].TString?)
  }

  /** How far a numeric type is below the top of the lattice. */
  function Height(n: NumType): nat {
    (if n.domain.DInt? then 1 else 0) + (if n.sign.SZero? then 2 else if n.sign.SAny? then 0 else 1)
  }

  /** The fold maps the accumulator type into itself. */
  predicate Closed(f: Type, acc: Type, elem: Type)
    requires f.TFunc?
  {
    var sat := ApplyArgs(f, [acc, elem]);
    sat.Some? && Unify(acc, sat.value) == Some(acc)
  }

  lemma {:induction false} ReducePrimSettles(f: Type, acc: Type, elem: Type, rounds: nat, r: Type)
    requires GoodFn(f) && |f.params| == 2 && f.op.Some? && acc.TNum? && ValueType(elem)
    requires ReduceType(f, acc, elem, rounds) == Some(r) && rounds > Height(acc.num)
    ensures r.TNum? && Closed(f, r, elem) && Sub(acc.num, r.num)
    decreases rounds
  {
    hide PrimResult, AcceptsArg, ValueType;
    PrimSatIsScalar(f, acc, elem);
    var sat := ApplyArgs(f, [acc, elem]);
    var next := Unify(acc, sat.value).value;
    if !TypeEqual(next, acc) {
      assert Height(next.num) < Height(acc.num);
      ReducePrimSettles(f, next, elem, rounds - 1, r);
    }
  }

  /** A saturated primitive yields a number or a truth value. */
  lemma PrimSatIsScalar(f: Type, acc: Type, elem: Type)
    requires GoodFn(f) && |f.params| == 2 && f.op.Some? && acc.TNum? && ValueType(elem)
    ensures var sat := ApplyArgs(f, [acc, elem]); sat.Some? ==> sat.value.TNum? || sat.value.TBool?
  {
    assert f.bound + [acc, elem] == [acc, elem];
  }

  /**
    The typing loop of reduce stops at a fixpoint: after at most four rounds, well
    within its cap, the accumulator type is closed under the fold, and it contains
    every value of the initial type.
   */
  lemma ReduceTypeSound(signed: bool, f: Type, acc: Type, elem: Type, rounds: nat, r: Type)
    requires GoodFn(f) && |f.params| == 2 && ValueType(acc) && ValueType(elem)
    requires ReduceType(f, acc, elem, rounds) == Some(r) && rounds >= 4
    ensures Closed(f, r, elem) && ValueType(r)
    ensures forall v :: Fits(signed, v, acc) ==> Fits(signed, v, r)
  {
    if f.op.Some? {
      if acc.TNum? {
        ReducePrimSettles(f, acc, elem, rounds, r);
        NumbersWiden(signed, acc.num, r.num);
      } else {
        PrimNeedsNumber(f, acc, elem);
      }
    } else {
      ReduceFnClosed(signed, f, acc, elem, rounds, r);
    }
  }

  lemma NumbersWiden(signed: bool, m: NumType, n: NumType)
    requires Sub(m, n)
    ensures forall v :: Fits(signed, v, TNum(m)) ==> Fits(signed, v, TNum(n))
  {
  }

  lemma ReduceFnClosed(signed: bool, f: Type, acc: Type, elem: Type, rounds: nat, r: Type)
    requires GoodFn(f) && |f.params| == 2 && f.op.None? && ValueType(acc) && rounds >= 2
    requires ReduceType(f, acc, elem, rounds) == Some(r)
    ensures Closed(f, r, elem) && ValueType(r)
    ensures forall v :: Fits(signed, v, acc) ==> Fits(signed, v, r)
  {
    hide AcceptsArg, ValueType, Unify, TypeEqual, Fits;
    ReduceFnSettles(f, acc, elem, rounds);
    var next := Unify(acc, f.result).value;
    UnifyValueType(acc, f.result, next);
    if TypeEqual(next, acc) {
      UnifyFixpoint(acc, f.result, next);
    } else {
      UnifyAbsorbs(acc, f.result, next);
      forall v | Fits(signed, v, acc)
        ensures Fits(signed, v, next)
      {
        UnifyKeepsLeft(signed, v, acc, f.result, next);
      }
    }
  }

  /** The cap of the typing loop is never what stops it. */
  lemma ReduceCapIrrelevant(f: Type, acc: Type, elem: Type, m: nat, n: nat)
    requires GoodFn(f) && |f.params| == 2 && ValueType(acc) && ValueType(elem) && m >= 4 && n >= 4
    ensures ReduceType(f, acc, elem, m) == ReduceType(f, acc, elem, n)
  {
    if f.op.None? {
      ReduceFnSettles(f, acc, elem, m);
      ReduceFnSettles(f, acc, elem, n);
    } else if acc.TNum? {
      ReducePrimCap(f, acc, elem, m, n);
    } else {
      PrimNeedsNumber(f, acc, elem);
    }
  }

  /** A user function settles after one round: its result type does not depend on the accumulator. */
  lemma ReduceFnSettles(f: Type, acc: Type, elem: Type, rounds: nat)
    requires GoodFn(f) && |f.params| == 2 && f.op.None? && ValueType(acc) && rounds >= 2
    ensures var next := Unify(acc, f.result);
      ReduceType(f, acc, elem, rounds)
      == if !AcceptsArg(false, acc, f.params[0]) || !AcceptsArg(false, elem, f.params[1]) || next.None? then None
         else if TypeEqual(next.value, acc) then Some(acc)
         else if AcceptsArg(false, next.value, f.params[0]) then next
         else None
  {
    hide AcceptsArg, ValueType, Unify, TypeEqual;
    var next := Unify(acc, f.result);
    assert ApplyArgs(f, [acc, elem]).Some? ==> ApplyArgs(f, [acc, elem]) == Some(f.result);
    NotFunc(f.result);
    if next.Some? {
      UnifyValueType(acc, f.result, next.value);
      UnifyAbsorbs(acc, f.result, next.value);
      TypeEqualReflexive(next.value);
      assert ApplyArgs(f, [next.value, elem]).Some? ==> ApplyArgs(f, [next.value, elem]) == Some(f.result);
    }
  }

  /** A primitive cannot fold from a string: the first round already fails. */
  lemma PrimNeedsNumber(f: Type, acc: Type, elem: Type)
    requires GoodFn(f) && |f.params| == 2 && f.op.Some? && ValueType(acc) && !acc.TNum? && ValueType(elem)
    ensures ApplyArgs(f, [acc, elem]).None? || Unify(acc, ApplyArgs(f, [acc, elem]).value).None?
  {
    assert f.bound + [acc, elem] == [acc, elem];
    var cmp := IsCmp(f.op.value);
    if ApplyArgs(f, [acc, elem]).Some? {
      assert AcceptsArg(cmp, [acc, elem][0], f.params[0]) && AcceptsArg(cmp, [acc, elem][1], f.params[1]);
    }
  }

  lemma {:induction false} ReducePrimCap(f: Type, acc: Type, elem: Type, m: nat, n: nat)
    requires GoodFn(f) && |f.params| == 2 && f.op.Some? && acc.TNum? && ValueType(elem)
    requires m > Height(acc.num) && n > Height(acc.num)
    ensures ReduceType(f, acc, elem, m) == ReduceType(f, acc, elem, n)
    decreases m
  {
    hide PrimResult, AcceptsArg, ValueType;
    PrimSatIsScalar(f, acc, elem);
    var sat := ApplyArgs(f, [acc, elem]);
    if sat.Some? && Unify(acc, sat.value).Some? {
      var next := Unify(acc, sat.value).value;
      if !TypeEqual(next, acc) {
        assert Height(next.num) < Height(acc.num);
        ReducePrimCap(f, next, elem, m - 1, n - 1);
      }
    }
  }

  // ----- the types the checker produces -----

  lemma TypesOfAt(sig: Sigs, p: Program, args: seq<Expr>, scope: Scope, ts: seq<Type>, i: nat)
    requires TypesOf(sig, p, args, scope) == Some(ts) && i < |args|
    ensures TypeOf(sig, p, args[i], scope) == Some(ts[i])
  {
    if i > 0 {
      TypesOfAt(sig, p, args[1..], scope, ts[1..], i - 1);
    }
  }

  lemma InitTypesAt(sig: Sigs, p: Program, inits: seq<FieldInit>, scope: Scope, fs: seq<TypedField>, i: nat)
    requires InitTypes(sig, p, inits, scope) == Some(fs) && i < |inits|
    ensures TypeOf(sig, p, inits[i].value, scope) == Some(fs[i].typ) && !fs[i].typ.TFunc?
    ensures forall j :: i < j < |fs| ==> fs[j].name != fs[i].name
  {
    if i > 0 {
      InitTypesAt(sig, p, inits[1..], scope, fs[1..], i - 1);
    } else {
      assert forall j :: 0 < j < |fs| ==> fs[j] == fs[1..][j - 1];
    }
  }

  lemma ApplyArgsShape(f: Type, args: seq<Type>, t: Type)
    requires GoodFn(f) && ApplyArgs(f, args) == Some(t)
    requires forall i :: 0 <= i < |args| ==> ValueType(args[i])
    ensures if |args| < |f.params| then GoodFn(t) && |t.params| == |f.params| - |args| else ValueType(t)
  {
    hide ValueType, SubType;
    if f.op.Some? {
      PrimOperandTypes(f, args, t);
      if |args| == |f.params| {
        PrimResultShape(f.op.value, f.bound + args, t);
      }
    }
  }

  /** The operand types a primitive has accepted: numbers, or strings for a comparison. */
  lemma PrimOperandTypes(f: Type, args: seq<Type>, t: Type)
    requires GoodFn(f) && f.op.Some? && ApplyArgs(f, args) == Some(t)
    requires forall i :: 0 <= i < |args| ==> ValueType(args[i])
    ensures |args| <= |f.params|
    ensures forall i :: 0 <= i < |f.bound + args| ==>
      (f.bound + args)[i].TNum? || (IsCmp(f.op.value) && (f.bound + args)[i].TString?)
  {
    hide PrimResult;
    forall i | 0 <= i < |args|
      ensures args[i].TNum? || (IsCmp(f.op.value) && args[i].TString?)
    {
      assert AcceptsArg(IsCmp(f.op.value), args[i], f.params[i]);
    }
  }

  lemma PrimResultShape(op: Prim, bound: seq<Type>, t: Type)
    requires PrimResult(op, bound) == Some(t)
    requires forall i :: 0 <= i < |bound| ==> bound[i].TNum? || (IsCmp(op) && bound[i].TString?)
    ensures ValueType(t) && |bound| == 2
    ensures if IsCmp(op) then t == TBool && SameKind(bound[0], bound[1])
      else bound[0].TNum? && bound[1].TNum? && t == TNum(NumBin(op, bound[0].num, bound[1].num))
  {
  }

  /**
    What a typed term's type looks like: a concrete value type, or a signature whose
    remaining parameter count is the arity name resolution computed for the term.
   */
  lemma {:induction false} TypeOfShape(sig: Sigs, p: Program, e: Expr, scope: Scope, t: Type)
    requires SigsOk(sig, p) && ScopeOk(scope) && TypeOf(sig, p, e, scope) == Some(t)
    ensures if t.TFunc? then GoodFn(t) else ValueType(t)
    ensures ArityOf(p, e) == if t.TFunc? then |t.params| else 0
    decreases e, 1
  {
    hide ApplyArgs, TypesOf, InitTypes, GuardsType, ReduceType, Closed, Fits;
    match e
    case NumLit(q) => LiteralTypeSound(true, q);
    case App(head, args) => AppTypeShape(sig, p, head, args, scope, t);
    case Guards(cases) =>
      GuardsShape(true, sig, p, cases, scope, TUnknown, t);
      NotFunc(t);
    case StructLit(inits) => StructTypeShape(sig, p, inits, scope, t);
    case Field(target, field) => TypeOfShape(sig, p, target, scope, TypeOf(sig, p, target, scope).value);
    case Reduce(fold, init, vec) =>
      var f, acc, v := TypeOf(sig, p, fold, scope).value, TypeOf(sig, p, init, scope).value,
        TypeOf(sig, p, vec, scope).value;
      TypeOfShape(sig, p, fold, scope, f);
      TypeOfShape(sig, p, init, scope, acc);
      TypeOfShape(sig, p, vec, scope, v);
      ReduceTypeSound(true, f, acc, v.elem, REDUCE_ROUNDS, t);
    case _ =>
  }

  lemma {:induction false} AppTypeShape(sig: Sigs, p: Program, head: Expr, args: seq<Expr>, scope: Scope, t: Type)
    requires SigsOk(sig, p) && ScopeOk(scope) && TypeOf(sig, p, App(head, args), scope) == Some(t)
    ensures if t.TFunc? then GoodFn(t) else ValueType(t)
    ensures ArityOf(p, App(head, args)) == if t.TFunc? then |t.params| else 0
    decreases App(head, args), 0
  {
    hide ApplyArgs, SigsOk, ScopeOk, ValueType, GoodFn;
    var f, ts := TypeOf(sig, p, head, scope).value, TypesOf(sig, p, args, scope).value;
    TypeOfShape(sig, p, head, scope, f);
    forall i | 0 <= i < |args|
      ensures ValueType(ts[i])
    {
      TypesOfAt(sig, p, args, scope, ts, i);
      TypeOfShape(sig, p, args[i], scope, ts[i]);
    }
    ApplyArgsShape(f, ts, t);
    if |args| > |f.params| {
      TooManyArgs(f, ts);
    }
    if |args| < |f.params| {
      GoodIsFn(t);
    } else {
      NotFunc(t);
    }
  }

  lemma TooManyArgs(f: Type, args: seq<Type>)
    requires f.TFunc? && |args| > |f.params|
    ensures ApplyArgs(f, args).None?
  {
  }

  lemma GoodIsFn(t: Type)
    requires GoodFn(t)
    ensures t.TFunc?
  {
  }

  lemma {:induction false} StructTypeShape(sig: Sigs, p: Program, inits: seq<FieldInit>, scope: Scope, t: Type)
    requires SigsOk(sig, p) && ScopeOk(scope) && TypeOf(sig, p, StructLit(inits), scope) == Some(t)
    ensures t.TStruct? && ValueType(t)
    decreases StructLit(inits), 0
  {
    hide SigsOk, ScopeOk, GoodFn, InitTypes;
    forall i | 0 <= i < |inits|
      ensures ValueType(t.fields[i].typ)
      ensures forall j :: i < j < |inits| ==> t.fields[j].name != t.fields[i].name
    {
      InitTypesAt(sig, p, inits, scope, t.fields, i);
      TypeOfShape(sig, p, inits[i].value, scope, t.fields[i].typ);
    }
  }

  lemma {:induction false} GuardsShape(signed: bool, sig: Sigs, p: Program, cases: seq<GuardCase>, scope: Scope,
    acc: Type, t: Type)
    requires SigsOk(sig, p) && ScopeOk(scope) && cases != []
    requires acc.TUnknown? || ValueType(acc)
    requires GuardsType(sig, p, cases, scope, acc) == Some(t)
    ensures ValueType(t)
    ensures forall v :: Fits(signed, v, acc) ==> Fits(signed, v, t)
    decreases cases
  {
    hide TypeOf, SigsOk, ScopeOk, Fits, ValueType, Unify, GoodFn;
    assert cases[0].result < cases[0];
    var r := TypeOf(sig, p, cases[0].result, scope).value;
    TypeOfShape(sig, p, cases[0].result, scope, r);
    var u := Unify(acc, r).value;
    UnifyValueType(acc, r, u);
    forall v | Fits(signed, v, acc)
      ensures Fits(signed, v, u)
    {
      UnifyKeepsLeft(signed, v, acc, r, u);
    }
    if |cases| > 1 {
      GuardsShape(signed, sig, p, cases[1..], scope, u, t);
    }
  }

  // ----- soundness -----

  ghost predicate Inhabits(signed: bool, sig: Sigs, p: Program, v: Val, t: Type) {
    if t.TFunc? then HasFnType(signed, sig, p, v, t) else Fits(signed, v, t)
  }

  /** A typed evaluation: no error but depth, and a value of the type. */
  ghost predicate Sound(signed: bool, sig: Sigs, p: Program, r: Outcome<Val>, t: Type) {
    !r.Stuck? && (r.Ok? ==> Inhabits(signed, sig, p, r.value, t))
  }

  lemma TypedSigs(signed: bool, sig: Sigs, p: Program)
    requires ProgramTyped(signed, sig, p)
    ensures SigsOk(sig, p)
  {
  }

  lemma VarSound(signed: bool, sig: Sigs, p: Program, v: Val, t: Type)
    requires Fits(signed, v, t)
    ensures Inhabits(signed, sig, p, v, t) && !v.VFunc?
  {
  }

  lemma RefSound(signed: bool, sig: Sigs, p: Program, e: Expr, scope: Scope, t: Type, env: map<string, Val>, depth: nat)
    requires (e.PrimRef? || e.FnRef?) && depth <= MAX_EVAL_DEPTH
    requires TypeOf(sig, p, e, scope) == Some(t)
    ensures Sound(signed, sig, p, Eval(p, e, env, depth), t)
  {
  }

  lemma FieldSound(signed: bool, v: Val, t: Type, field: string, ft: Type)
    requires Fits(signed, v, t) && t.TStruct? && FindField(t.fields, field) == Some(ft)
    ensures v.VStruct? && field in v.fields && Fits(signed, v.fields[field], ft)
  {
  }

  /**
    Type soundness: in a typed program and a matching environment, a typed term
    evaluates to a value of its type or runs out of depth.
   */
  lemma {:induction false} EvalSound(signed: bool, sig: Sigs, p: Program, e: Expr, scope: Scope, t: Type,
    env: map<string, Val>, depth: nat)
    requires ProgramTyped(signed, sig, p) && ScopeOk(scope) && EnvOk(signed, env, scope)
    requires TypeOf(sig, p, e, scope) == Some(t) && Safe(signed, sig, p, e, scope)
    ensures Sound(signed, sig, p, Eval(p, e, env, depth), t)
    decreases Budget(depth), 2, e, 1
  {
    hide Fits, HasFnType, ValueType, GoodFn, ProgramTyped, SigsOk, ScopeOk, ApplyArgs, ReduceType, FindField,
      FieldsTyped, Closed, SafeUnify, SafeApply, TypesOf, InitTypes, GuardsType, Apply, FoldSlots;
    if depth <= MAX_EVAL_DEPTH {
      TypedSigs(signed, sig, p);
      TypeOfShape(sig, p, e, scope, t);
      match e
      case NumLit(q) =>
        LiteralTypeSound(signed, q);
        VarSound(signed, sig, p, VNum(q), t);
      case StrLit(s) => StrSound(signed, s);
      case Var(x) => VarSound(signed, sig, p, env[x], t);
      case PrimRef(_) => RefSound(signed, sig, p, e, scope, t, env, depth);
      case FnRef(_) => RefSound(signed, sig, p, e, scope, t, env, depth);
      case App(head, args) => AppSound(signed, sig, p, head, args, scope, t, env, depth);
      case Guards(cases) => GuardsSound(signed, sig, p, cases, scope, TUnknown, t, env, depth);
      case StructLit(inits) =>
        InitsSound(signed, sig, p, inits, scope, t.fields, env, depth);
        var r := EvalInits(p, inits, env, depth);
        if r.Ok? {
          FieldsTypedStruct(signed, r.value, t.fields);
        }
      case Field(target, field) =>
        var tt := TypeOf(sig, p, target, scope).value;
        EvalSound(signed, sig, p, target, scope, tt, env, depth);
        var v := Eval(p, target, env, depth);
        if v.Ok? {
          FieldSound(signed, v.value, tt, field, t);
          VarSound(signed, sig, p, v.value.fields[field], t);
        }
      case Reduce(fold, init, vec) => ReduceSound(signed, sig, p, fold, init, vec, scope, t, env, depth);
    }
  }

  lemma StrSound(signed: bool, s: string)
    ensures Fits(signed, VStr(s), TString)
  {
  }

  lemma {:induction false} AppSound(signed: bool, sig: Sigs, p: Program, head: Expr, args: seq<Expr>, scope: Scope, t: Type,
    env: map<string, Val>, depth: nat)
    requires ProgramTyped(signed, sig, p) && ScopeOk(scope) && EnvOk(signed, env, scope) && depth <= MAX_EVAL_DEPTH
    requires TypeOf(sig, p, App(head, args), scope) == Some(t) && Safe(signed, sig, p, App(head, args), scope)
    ensures Sound(signed, sig, p, Eval(p, App(head, args), env, depth), t)
    decreases Budget(depth), 2, App(head, args), 0
  {
    hide Fits, HasFnType, ValueType, GoodFn, ProgramTyped, SigsOk, ScopeOk, ApplyArgs, ReduceType, FindField,
      SafeApply, TypesOf, InitTypes, GuardsType, Apply, EvalArgs;
    TypedSigs(signed, sig, p);
    var f, ts := TypeOf(sig, p, head, scope).value, TypesOf(sig, p, args, scope).value;
    EvalSound(signed, sig, p, head, scope, f, env, depth);
    TypeOfShape(sig, p, head, scope, f);
    ArgsSound(signed, sig, p, args, scope, ts, env, depth);
    if Eval(p, head, env, depth).Ok? && EvalArgs(p, args, env, depth).Ok? {
      ApplySound(signed, sig, p, Eval(p, head, env, depth).value, f, EvalArgs(p, args, env, depth).value, ts, depth, t);
    }
  }

  lemma {:induction false} ReduceSound(signed: bool, sig: Sigs, p: Program, fold: Expr, init: Expr, vec: Expr,
    scope: Scope, t: Type,
    env: map<string, Val>, depth: nat)
    requires ProgramTyped(signed, sig, p) && ScopeOk(scope) && EnvOk(signed, env, scope) && depth <= MAX_EVAL_DEPTH
    requires TypeOf(sig, p, Reduce(fold, init, vec), scope) == Some(t)
    requires Safe(signed, sig, p, Reduce(fold, init, vec), scope)
    ensures Sound(signed, sig, p, Eval(p, Reduce(fold, init, vec), env, depth), t)
    decreases Budget(depth), 2, Reduce(fold, init, vec), 0
  {
    hide HasFnType, Fits, ValueType, GoodFn, ProgramTyped, SigsOk, ScopeOk, EnvOk, TypeOf, Safe, SafeUnify, Closed,
      ApplyArgs, FoldSlots;
    TypedSigs(signed, sig, p);
    var f, acc, elem := ReduceTyped(signed, sig, p, fold, init, vec, scope, t);
    TypeOfShape(sig, p, fold, scope, f);
    TypeOfShape(sig, p, init, scope, acc);
    TypeOfShape(sig, p, vec, scope, TVector(elem));
    VectorElem(elem);
    EvalSound(signed, sig, p, fold, scope, f, env, depth);
    EvalSound(signed, sig, p, init, scope, acc, env, depth);
    EvalSound(signed, sig, p, vec, scope, TVector(elem), env, depth);
    ReduceTypeSound(signed, f, acc, elem, REDUCE_ROUNDS, t);
    NotFunc(t);
    if Eval(p, fold, env, depth).Ok? && Eval(p, init, env, depth).Ok? && Eval(p, vec, env, depth).Ok? {
      HasFnTypeArity(signed, sig, p, Eval(p, fold, env, depth).value, f);
      HasVectorType(signed, Eval(p, vec, env, depth).value, elem);
      FoldSound(signed, sig, p, Eval(p, fold, env, depth).value, f, Eval(p, init, env, depth).value, t,
        Eval(p, vec, env, depth).value.slots, elem, depth);
    } else if Eval(p, fold, env, depth).Ok? {
      HasFnTypeArity(signed, sig, p, Eval(p, fold, env, depth).value, f);
    }
  }

  /** The pieces of a typed reduce. */
  lemma ReduceTyped(signed: bool, sig: Sigs, p: Program, fold: Expr, init: Expr, vec: Expr, scope: Scope, t: Type)
    returns (f: Type, acc: Type, elem: Type)
    requires TypeOf(sig, p, Reduce(fold, init, vec), scope) == Some(t)
    requires Safe(signed, sig, p, Reduce(fold, init, vec), scope)
    ensures Safe(signed, sig, p, fold, scope) && Safe(signed, sig, p, init, scope) && Safe(signed, sig, p, vec, scope)
    ensures TypeOf(sig, p, fold, scope) == Some(f) && f.TFunc? && |f.params| == 2
    ensures TypeOf(sig, p, init, scope) == Some(acc) && !acc.TFunc?
    ensures TypeOf(sig, p, vec, scope) == Some(TVector(elem))
    ensures ReduceType(f, acc, elem, REDUCE_ROUNDS) == Some(t)
    ensures ApplyArgs(f, [t, elem]).Some? ==> SafeUnify(t, ApplyArgs(f, [t, elem]).value)
  {
    hide ReduceType, ApplyArgs, SafeUnify;
    f, acc := TypeOf(sig, p, fold, scope).value, TypeOf(sig, p, init, scope).value;
    elem := TypeOf(sig, p, vec, scope).value.elem;
  }

  lemma VectorElem(elem: Type)
    requires ValueType(TVector(elem))
    ensures ValueType(elem)
  {
  }

  lemma HasVectorType(signed: bool, v: Val, elem: Type)
    requires Fits(signed, v, TVector(elem))
    ensures v.VVec? && forall i :: 0 <= i < |v.slots| ==> Fits(signed, v.slots[i], elem)
  {
  }

  lemma HasFnTypeArity(signed: bool, sig: Sigs, p: Program, v: Val, t: Type)
    requires HasFnType(signed, sig, p, v, t)
    ensures v.VFunc? && Arity(p, v) == |t.params|
  {
  }

  lemma {:induction false} ArgsSound(signed: bool, sig: Sigs, p: Program, args: seq<Expr>, scope: Scope, ts: seq<Type>,
    env: map<string, Val>, depth: nat)
    requires ProgramTyped(signed, sig, p) && ScopeOk(scope) && EnvOk(signed, env, scope)
    requires TypesOf(sig, p, args, scope) == Some(ts)
    requires forall i :: 0 <= i < |args| ==> Safe(signed, sig, p, args[i], scope)
    ensures forall i :: 0 <= i < |args| ==> ValueType(ts[i])
    ensures var r := EvalArgs(p, args, env, depth);
      !r.Stuck? && (r.Ok? ==> forall i :: 0 <= i < |args| ==> Fits(signed, r.value[i], ts[i]))
    decreases Budget(depth), 2, args
  {
    hide Eval, TypeOf, Safe, ProgramTyped, SigsOk, ScopeOk, EnvOk, ValueType, Fits, HasFnType, GoodFn;
    if args != [] {
      TypedSigs(signed, sig, p);
      EvalSound(signed, sig, p, args[0], scope, ts[0], env, depth);
      TypeOfShape(sig, p, args[0], scope, ts[0]);
      ArgsSound(signed, sig, p, args[1..], scope, ts[1..], env, depth);
      var v, r := Eval(p, args[0], env, depth), EvalArgs(p, args, env, depth);
      if v.Ok? {
        VarSound(signed, sig, p, v.value, ts[0]);
      }
      forall i | 0 <= i < |args|
        ensures ValueType(ts[i]) && (r.Ok? ==> Fits(signed, r.value[i], ts[i]))
      {
        assert i > 0 ==> ts[i] == ts[1..][i - 1];
      }
    }
  }

  lemma {:induction false} InitsSound(signed: bool, sig: Sigs, p: Program, inits: seq<FieldInit>, scope: Scope,
    fs: seq<TypedField>, env: map<string, Val>, depth: nat)
    requires ProgramTyped(signed, sig, p) && ScopeOk(scope) && EnvOk(signed, env, scope)
    requires InitTypes(sig, p, inits, scope) == Some(fs)
    requires forall i :: 0 <= i < |inits| ==> Safe(signed, sig, p, inits[i].value, scope)
    ensures var r := EvalInits(p, inits, env, depth);
      !r.Stuck? && (r.Ok? ==> FieldsTyped(signed, r.value, fs))
    decreases Budget(depth), 2, inits
  {
    hide Eval, TypeOf, Safe, ProgramTyped, SigsOk, ScopeOk, EnvOk, ValueType, Fits, HasFnType, GoodFn, FieldsTyped;
    if inits == [] {
      FieldsTypedNil(signed);
    } else {
      InitTypesAt(sig, p, inits, scope, fs, 0);
      EvalSound(signed, sig, p, inits[0].value, scope, fs[0].typ, env, depth);
      InitsSound(signed, sig, p, inits[1..], scope, fs[1..], env, depth);
      assert fs[0].name !in FieldNames(fs[1..]);
      var v, rest := Eval(p, inits[0].value, env, depth), EvalInits(p, inits[1..], env, depth);
      if v.Ok? {
        VarSound(signed, sig, p, v.value, fs[0].typ);
        if rest.Ok? {
          FieldsTypedCons(signed, fs[0], v.value, rest.value, fs[1..]);
          assert [fs[0]] + fs[1..] == fs;
        }
      }
    }
  }

  lemma FieldsTypedNil(signed: bool)
    ensures FieldsTyped(signed, map[], [])
  {
  }

  /** The fields are exactly the declared ones, each of its type. */
  ghost predicate FieldsTyped(signed: bool, m: map<string, Val>, fs: seq<TypedField>) {
    |m| == |fs|
    && (forall i :: 0 <= i < |fs| ==> FieldTyped(signed, m, fs[i]))
    && forall x :: x in m ==> x in FieldNames(fs)
  }

  ghost predicate FieldTyped(signed: bool, m: map<string, Val>, f: TypedField) {
    f.name in m && Fits(signed, m[f.name], f.typ)
  }

  function FieldNames(fs: seq<TypedField>): set<string> {
    set i | 0 <= i < |fs| :: fs[i].name
  }

  lemma FieldsTypedStruct(signed: bool, m: map<string, Val>, fs: seq<TypedField>)
    requires FieldsTyped(signed, m, fs)
    ensures Fits(signed, VStruct(m), TStruct(fs))
  {
    assert forall i :: 0 <= i < |fs| ==> FieldTyped(signed, m, fs[i]);
  }

  lemma ConsNames(f: TypedField, fs: seq<TypedField>)
    ensures FieldNames([f] + fs) == {f.name} + FieldNames(fs)
  {
    var gs := [f] + fs;
    assert gs[0].name in FieldNames(gs);
    forall x | x in FieldNames(fs)
      ensures x in FieldNames(gs)
    {
      var i :| 0 <= i < |fs| && fs[i].name == x;
      assert gs[i + 1].name == x;
    }
  }

  lemma NameIn(fs: seq<TypedField>, i: nat)
    requires i < |fs|
    ensures fs[i].name in FieldNames(fs)
  {
  }

  lemma FieldsTypedCons(signed: bool, f: TypedField, v: Val, rest: map<string, Val>, fs: seq<TypedField>)
    requires Fits(signed, v, f.typ) && FieldsTyped(signed, rest, fs) && f.name !in FieldNames(fs)
    ensures FieldsTyped(signed, map[f.name := v] + rest, [f] + fs)
  {
    hide Fits, FieldNames;
    var m, gs := map[f.name := v] + rest, [f] + fs;
    ConsNames(f, fs);
    assert m == rest[f.name := v];
    forall i | 0 <= i < |gs|
      ensures FieldTyped(signed, m, gs[i])
    {
      if i > 0 {
        NameIn(fs, i - 1);
        assert FieldTyped(signed, rest, fs[i - 1]) && gs[i] == fs[i - 1];
      }
    }
  }

  lemma {:induction false} GuardsSound(signed: bool, sig: Sigs, p: Program, cases: seq<GuardCase>, scope: Scope,
    acc: Type, t: Type,
    env: map<string, Val>, depth: nat)
    requires ProgramTyped(signed, sig, p) && ScopeOk(scope) && EnvOk(signed, env, scope) && cases != []
    requires acc.TUnknown? || ValueType(acc)
    requires GuardsType(sig, p, cases, scope, acc) == Some(t) && SafeGuards(signed, sig, p, cases, scope, acc)
    ensures Sound(signed, sig, p, EvalGuards(p, cases, env, depth), t) && ValueType(t)
    decreases Budget(depth), 2, cases
  {
    hide Eval, TypeOf, Safe, ProgramTyped, SigsOk, ScopeOk, EnvOk, ValueType, HasFnType, GoodFn, SafeUnify, Unify;
    var c := cases[0];
    assert c.result < c;
    TypedSigs(signed, sig, p);
    GuardsShape(signed, sig, p, cases, scope, acc, t);
    var r := TypeOf(sig, p, c.result, scope).value;
    EvalSound(signed, sig, p, c.result, scope, r, env, depth);
    TypeOfShape(sig, p, c.result, scope, r);
    var u := Unify(acc, r).value;
    UnifyValueType(acc, r, u);
    ResultTypeFlows(signed, sig, p, cases, scope, acc, t);
    NotFunc(t);
    if c.When? {
      assert c.cond < c;
      EvalSound(signed, sig, p, c.cond, scope, TypeOf(sig, p, c.cond, scope).value, env, depth);
      GuardsSound(signed, sig, p, cases[1..], scope, u, t, env, depth);
    }
  }

  lemma NotFunc(t: Type)
    requires ValueType(t)
    ensures !t.TFunc? && !t.TUnknown?
  {
  }

  /** Values of the first case's result type inhabit the type of the whole guarded body. */
  lemma ResultTypeFlows(signed: bool, sig: Sigs, p: Program, cases: seq<GuardCase>, scope: Scope, acc: Type, t: Type)
    requires SigsOk(sig, p) && ScopeOk(scope) && cases != []
    requires acc.TUnknown? || ValueType(acc)
    requires GuardsType(sig, p, cases, scope, acc) == Some(t) && SafeGuards(signed, sig, p, cases, scope, acc)
    ensures forall v :: Fits(signed, v, TypeOf(sig, p, cases[0].result, scope).value) ==> Fits(signed, v, t)
  {
    hide TypeOf, Safe, SigsOk, ScopeOk, ValueType, Fits, SafeUnify, Unify;
    assert cases[0].result < cases[0];
    var r := TypeOf(sig, p, cases[0].result, scope).value;
    TypeOfShape(sig, p, cases[0].result, scope, r);
    var u := Unify(acc, r).value;
    UnifyValueType(acc, r, u);
    if |cases| > 1 {
      GuardsShape(signed, sig, p, cases[1..], scope, u, t);
    }
    forall v | Fits(signed, v, r)
      ensures Fits(signed, v, t)
    {
      UnifyKeepsRight(signed, v, acc, r, u);
    }
  }

  /** Applying a typed function value to typed arguments. */
  lemma {:induction false} ApplySound(signed: bool, sig: Sigs, p: Program, f: Val, ft: Type, args: seq<Val>, ts: seq<Type>,
    depth: nat, t: Type)
    requires ProgramTyped(signed, sig, p) && depth <= MAX_EVAL_DEPTH
    requires HasFnType(signed, sig, p, f, ft) && GoodFn(ft)
    requires |args| == |ts| && forall i :: 0 <= i < |args| ==> Fits(signed, args[i], ts[i]) && ValueType(ts[i])
    requires ApplyArgs(ft, ts) == Some(t) && (signed ==> SafeApply(ft, ts))
    ensures Sound(signed, sig, p, Apply(p, f, args, depth), t)
    decreases Budget(depth), 0, 1
  {
    if f.callee.CalleePrim? {
      PrimApplySound(signed, sig, p, f, ft, args, ts, depth, t);
    } else {
      FnApplySound(signed, sig, p, f, ft, args, ts, depth, t);
    }
  }

  lemma PrimApplySound(signed: bool, sig: Sigs, p: Program, f: Val, ft: Type, args: seq<Val>, ts: seq<Type>, depth: nat, t: Type)
    requires depth <= MAX_EVAL_DEPTH
    requires HasFnType(signed, sig, p, f, ft) && GoodFn(ft) && f.callee.CalleePrim?
    requires |args| == |ts| && forall i :: 0 <= i < |args| ==> Fits(signed, args[i], ts[i]) && ValueType(ts[i])
    requires ApplyArgs(ft, ts) == Some(t) && (signed ==> SafeApply(ft, ts))
    ensures Sound(signed, sig, p, Apply(p, f, args, depth), t)
  {
    hide Eval, Fits, ValueType, PrimOp, SubType, SafeApply;
    var op := f.callee.op;
    var all, allTs := f.bound + args, ft.bound + ts;
    PrimOperandTypes(ft, ts, t);
    if |args| == |ft.params| {
      PrimResultShape(op, allTs, t);
      PrimOpSound(signed, op, all[0], all[1], allTs, t, ft, ts);
      assert Apply(p, f, args, depth) == PrimOp(op, all[0], all[1]);
    }
  }

  /** A primitive on two typed operands. */
  lemma PrimOpSound(signed: bool, op: Prim, x: Val, y: Val, bound: seq<Type>, t: Type, ft: Type, ts: seq<Type>)
    requires |bound| == 2 && Fits(signed, x, bound[0]) && Fits(signed, y, bound[1])
    requires forall i :: 0 <= i < 2 ==> bound[i].TNum? || (IsCmp(op) && bound[i].TString?)
    requires if IsCmp(op) then t == TBool && SameKind(bound[0], bound[1])
      else bound[0].TNum? && bound[1].TNum? && t == TNum(NumBin(op, bound[0].num, bound[1].num))
    requires ft.TFunc? && ft.op == Some(op) && ft.bound + ts == bound && (signed ==> SafeApply(ft, ts))
    ensures PrimOp(op, x, y).Ok? && Fits(signed, PrimOp(op, x, y).value, t)
  {
    if signed && !IsCmp(op) {
      NumBinSound(op, bound[0].num, bound[1].num, x.num, y.num);
    }
  }

  lemma {:induction false} FnApplySound(signed: bool, sig: Sigs, p: Program, f: Val, ft: Type, args: seq<Val>, ts: seq<Type>,
    depth: nat, t: Type)
    requires ProgramTyped(signed, sig, p) && depth <= MAX_EVAL_DEPTH
    requires HasFnType(signed, sig, p, f, ft) && GoodFn(ft) && f.callee.CalleeFn?
    requires |args| == |ts| && forall i :: 0 <= i < |args| ==> Fits(signed, args[i], ts[i]) && ValueType(ts[i])
    requires ApplyArgs(ft, ts) == Some(t)
    ensures Sound(signed, sig, p, Apply(p, f, args, depth), t)
    decreases Budget(depth), 0, 0
  {
    hide Eval, TypeOf, Safe, Fits, ValueType, SubType, ProgramTyped, SigsOk;
    var fn := f.callee.fn;
    var d, all := p[fn], f.bound + args;
    forall i | 0 <= i < |args|
      ensures Fits(signed, args[i], d.params[|f.bound| + i].typ)
    {
      assert AcceptsArg(false, ts[i], ft.params[i]);
      SubTypeSound(signed, args[i], ts[i], ft.params[i]);
    }
    if |args| == |ft.params| {
      CallSound(signed, sig, p, fn, all, depth);
      SigValueType(signed, sig, p, fn);
    }
  }

  lemma SigValueType(signed: bool, sig: Sigs, p: Program, fn: string)
    requires ProgramTyped(signed, sig, p) && fn in sig
    ensures ValueType(sig[fn]) && !sig[fn].TFunc?
  {
  }

  /** A saturated call of a typed function returns a value of its signature's type. */
  lemma {:induction false} CallSound(signed: bool, sig: Sigs, p: Program, fn: string, all: seq<Val>, depth: nat)
    requires ProgramTyped(signed, sig, p) && depth <= MAX_EVAL_DEPTH && fn in sig && fn in p && |all| == |p[fn].params|
    requires forall i :: 0 <= i < |all| ==> Fits(signed, all[i], p[fn].params[i].typ)
    ensures Sound(signed, sig, p, Eval(p, p[fn].body, Bind(ParamNames(p[fn].params), all), depth + 1), sig[fn])
    decreases Budget(depth), 0, 0, 0
  {
    hide Eval, TypeOf, Safe, Fits, ValueType, SubType;
    var d := p[fn];
    CallEnvOk(signed, d, all);
    CallScopeOk(d);
    SigValueType(signed, sig, p, fn);
    assert BodyOk(sig, p, fn);
    EvalSound(signed, sig, p, d.body, FnScope(d), TypeOf(sig, p, d.body, FnScope(d)).value,
      Bind(ParamNames(d.params), all), depth + 1);
    var r := Eval(p, d.body, Bind(ParamNames(d.params), all), depth + 1);
    if r.Ok? {
      SubTypeSound(signed, r.value, TypeOf(sig, p, d.body, FnScope(d)).value, sig[fn]);
    }
  }

  lemma CallEnvOk(signed: bool, d: FnDef, all: seq<Val>)
    requires Distinct(ParamNames(d.params)) && |all| == |d.params|
    requires forall i :: 0 <= i < |all| ==> Fits(signed, all[i], d.params[i].typ)
    ensures EnvOk(signed, Bind(ParamNames(d.params), all), FnScope(d))
  {
    forall x | x in FnScope(d)
      ensures x in Bind(ParamNames(d.params), all) && Fits(signed, Bind(ParamNames(d.params), all)[x], FnScope(d)[x])
    {
      var i :| 0 <= i < |d.params| && ParamNames(d.params)[i] == x;
      BindAt(ParamNames(d.params), all, i);
      BindAt(ParamNames(d.params), ParamTypes(d.params), i);
    }
  }

  lemma CallScopeOk(d: FnDef)
    requires forall i :: 0 <= i < |d.params| ==> ValueType(d.params[i].typ)
    ensures ScopeOk(FnScope(d))
  {
  }

  /** Folding keeps the accumulator in a type closed under the fold. */
  lemma {:induction false} FoldSound(signed: bool, sig: Sigs, p: Program, f: Val, ft: Type, acc: Val, accT: Type,
    slots: seq<Val>, elem: Type, depth: nat)
    requires ProgramTyped(signed, sig, p) && depth <= MAX_EVAL_DEPTH
    requires HasFnType(signed, sig, p, f, ft) && GoodFn(ft) && |ft.params| == 2
    requires ValueType(accT) && ValueType(elem) && Fits(signed, acc, accT)
    requires forall i :: 0 <= i < |slots| ==> Fits(signed, slots[i], elem)
    requires Closed(ft, accT, elem) && SafeUnify(accT, ApplyArgs(ft, [accT, elem]).value)
    ensures Sound(signed, sig, p, FoldSlots(p, f, acc, slots, depth), accT)
    decreases Budget(depth), 1, |slots|
  {
    hide Fits, ValueType, Unify, SafeUnify, ApplyArgs, ProgramTyped, GoodFn, Apply;
    NotFunc(accT);
    if slots != [] {
      var sat := ApplyArgs(ft, [accT, elem]).value;
      var next := Apply(p, f, [acc, slots[0]], depth);
      FoldStepSound(signed, sig, p, f, ft, acc, accT, slots[0], elem, depth);
      if next.Ok? {
        FoldSound(signed, sig, p, f, ft, next.value, accT, slots[1..], elem, depth);
      }
    }
  }

  /** One step of a fold closed on accT stays in accT. */
  lemma {:induction false} FoldStepSound(signed: bool, sig: Sigs, p: Program, f: Val, ft: Type, acc: Val, accT: Type,
    slot: Val, elem: Type, depth: nat)
    requires ProgramTyped(signed, sig, p) && depth <= MAX_EVAL_DEPTH
    requires HasFnType(signed, sig, p, f, ft) && GoodFn(ft) && |ft.params| == 2
    requires ValueType(accT) && ValueType(elem) && Fits(signed, acc, accT) && Fits(signed, slot, elem)
    requires Closed(ft, accT, elem) && SafeUnify(accT, ApplyArgs(ft, [accT, elem]).value)
    ensures Sound(signed, sig, p, Apply(p, f, [acc, slot], depth), accT)
    decreases Budget(depth), 1, 0
  {
    hide ProgramTyped, Eval, ValueType, Unify, SafeUnify;
    NotFunc(accT);
    var sat := ApplyArgs(ft, [accT, elem]).value;
    if !signed || SafeApply(ft, [accT, elem]) {
      ApplySound(signed, sig, p, f, ft, [acc, slot], [accT, elem], depth, sat);
      ApplyArgsShape(ft, [accT, elem], sat);
      NotFunc(sat);
      var next := Apply(p, f, [acc, slot], depth);
      if next.Ok? {
        UnifyKeepsRight(signed, next.value, accT, sat, accT);
      }
    } else {
      AnyProductStep(signed, sig, p, f, ft, acc, accT, slot, elem, depth);
    }
  }

  lemma AnyProductStep(signed: bool, sig: Sigs, p: Program, f: Val, ft: Type, acc: Val, accT: Type, slot: Val,
    elem: Type, depth: nat)
    requires depth <= MAX_EVAL_DEPTH && HasFnType(signed, sig, p, f, ft) && GoodFn(ft) && |ft.params| == 2
    requires Fits(signed, acc, accT) && Fits(signed, slot, elem) && Closed(ft, accT, elem)
    requires signed && !SafeApply(ft, [accT, elem])
    ensures Sound(signed, sig, p, Apply(p, f, [acc, slot], depth), accT)
  {
    hide Eval;
    assert ft.bound + [accT, elem] == [accT, elem] && f.bound + [acc, slot] == [acc, slot];
    FoldAnyProduct(accT.num, elem.num, acc.num, slot.num);
  }

  /** A fold by `*` over numbers of unknown sign stays in its accumulator type, although the product rule is wrong there. */
  lemma FoldAnyProduct(acc: NumType, elem: NumType, x: real, y: real)
    requires acc.sign.SAny? && elem.sign.SAny? && Allows(acc, x) && Allows(elem, y)
    requires Join(acc, NumBin(Mul, acc, elem)) == acc
    ensures Allows(acc, Arith(Mul, x, y))
  {
    if acc.domain.DInt? {
      IntClosed(Mul, x, y);
    }
  }
}
