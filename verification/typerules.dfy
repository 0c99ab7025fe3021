/**
  The type checker's rules as functions of the finished signature table `sig`
  (function name to return type), and what a type means: the set of runtime
  values that inhabit it.
 */
module TypeRules {
  import opened Options
  import opened NumTypes
  import opened Syntax
  import opened Interp

  type Sigs = map<string, Type>

  type Scope = map<string, Type>

  // ----- sign rules -----

  function NegateSign(s: Sign): Sign {
    match s
    case SNonNeg => SNonPos
    case SNonPos => SNonNeg
    case _ => s
  }

  function AddSign(a: Sign, b: Sign): Sign {
    if a.SZero? then b
    else if b.SZero? then a
    else if a.SNonNeg? && b.SNonNeg? then SNonNeg
    else if a.SNonPos? && b.SNonPos? then SNonPos
    else SAny
  }

  function MulSign(a: Sign, b: Sign): Sign {
    if a.SZero? || b.SZero? then SZero
    else if a == b then SNonNeg
    else if a.SAny? || b.SAny? then SAny
    else SNonPos
  }

  function MaxSign(a: Sign, b: Sign): Sign {
    if a.SZero? && b.SZero? then SZero
    else if a.SNonNeg? || b.SNonNeg? || a.SZero? || b.SZero? then SNonNeg
    else if a.SNonPos? && b.SNonPos? then SNonPos
    else SAny
  }

  function MinSign(a: Sign, b: Sign): Sign {
    if a.SZero? && b.SZero? then SZero
    else if a.SNonPos? || b.SNonPos? || a.SZero? || b.SZero? then SNonPos
    else if a.SNonNeg? && b.SNonNeg? then SNonNeg
    else SAny
  }

  function NumBin(op: Prim, a: NumType, b: NumType): NumType
    requires !IsCmp(op)
  {
    var sign := match op
      case Add => AddSign(a.sign, b.sign)
      case Minus => AddSign(a.sign, NegateSign(b.sign))
      case Mul => MulSign(a.sign, b.sign)
      case Max => MaxSign(a.sign, b.sign)
      case Min => MinSign(a.sign, b.sign);
    NumType(JoinDomain(a.domain, b.domain), sign)
  }

  // ----- relations on types -----

  function FindField(fs: seq<TypedField>, name: string): (r: Option<Type>)
    ensures r.Some? ==> exists i :: 0 <= i < |fs| && fs[i].name == name && fs[i].typ == r.value
    ensures r.None? <==> forall i :: 0 <= i < |fs| ==> fs[i].name != name
  {
    if fs == [] then None
    else if fs[0].name == name then Some(fs[0].typ)
    else FindField(fs[1..], name)
  }

  /** Assignability; an unknown type is assignable to and from anything. */
  predicate SubType(a: Type, b: Type)
    decreases b
  {
    if a.TUnknown? || b.TUnknown? then true
    else match (a, b)
      case (TNum(m), TNum(n)) => Sub(m, n)
      case (TStruct(fs), TStruct(gs)) =>
        |fs| == |gs|
        && forall i :: 0 <= i < |gs| ==>
          var f := FindField(fs, gs[i].name); f.Some? && SubType(f.value, gs[i].typ)
      case (TFunc(ps, r, _, _), TFunc(qs, s, _, _)) =>
        |ps| == |qs| && (forall i :: 0 <= i < |qs| ==> SubType(ps[i], qs[i])) && SubType(r, s)
      case (TVector(x), TVector(y)) => SubType(x, y)
      case _ => a == b
  }

  predicate TypeEqual(a: Type, b: Type)
    decreases a
  {
    match (a, b)
    case (TStruct(fs), TStruct(gs)) =>
      |fs| == |gs|
      && forall i :: 0 <= i < |fs| ==>
        var g := FindField(gs, fs[i].name); g.Some? && TypeEqual(fs[i].typ, g.value)
    case (TFunc(ps, r, _, _), TFunc(qs, s, _, _)) =>
      |ps| == |qs| && (forall i :: 0 <= i < |ps| ==> TypeEqual(ps[i], qs[i])) && TypeEqual(r, s)
    case (TVector(x), TVector(y)) => TypeEqual(x, y)
    case _ => a == b
  }

  /** The common type of two guard results; two vectors are not compared, the first one wins. */
  function Unify(a: Type, b: Type): Option<Type>
    decreases a
  {
    if a.TUnknown? then Some(b)
    else if b.TUnknown? then Some(a)
    else match (a, b)
      case (TNum(m), TNum(n)) => Some(TNum(Join(m, n)))
      case (TStruct(fs), TStruct(gs)) =>
        if |fs| != |gs| then None
        else
          var us :- UnifyFields(fs, gs);
          Some(TStruct(us))
      case (TFunc(_, _, _, _), TFunc(_, _, _, _)) => if TypeEqual(a, b) then Some(a) else None
      case (TVector(_), TVector(_)) => Some(a)
      case _ => if a == b then Some(a) else None
  }

  function UnifyFields(fs: seq<TypedField>, gs: seq<TypedField>): (r: Option<seq<TypedField>>)
    ensures r.Some? ==> |r.value| == |fs| && forall i :: 0 <= i < |fs| ==> r.value[i].name == fs[i].name
    decreases fs
  {
    if fs == [] then Some([])
    else
      var g :- FindField(gs, fs[0].name);
      var u :- Unify(fs[0].typ, g);
      var us :- UnifyFields(fs[1..], gs);
      Some([TypedField(fs[0].name, u)] + us)
  }

  // ----- typing terms -----

  function LiteralType(q: real): Type {
    if q == 0.0 then TNum(NumType(DInt, SZero))
    else TNum(NumType(if IsInt(q) then DInt else DRat, if q < 0.0 then SNonPos else SNonNeg))
  }

  predicate Comparable(t: Type) {
    t.TNum? || t.TString? || t.TUnknown?
  }

  predicate SameKind(a: Type, b: Type) {
    (a.TNum? && b.TNum?) || (a.TString? && b.TString?) || a.TUnknown? || b.TUnknown?
  }

  /** A comparison takes numbers or strings; everything else takes subtypes of the parameter. */
  predicate AcceptsArg(cmp: bool, arg: Type, param: Type) {
    if cmp then Comparable(arg) else SubType(arg, param)
  }

  /** Applies a signature to argument types; a saturated primitive is typed by its operands. */
  function ApplyArgs(f: Type, args: seq<Type>): Option<Type>
    requires f.TFunc?
  {
    var cmp := f.op.Some? && IsCmp(f.op.value);
    if |args| > |f.params| then None
    else if !forall i :: 0 <= i < |args| ==> AcceptsArg(cmp, args[i], f.params[i]) then None
    else
      var bound := f.bound + args;
      if |args| < |f.params| then Some(TFunc(f.params[|args|..], f.result, f.op, bound))
      else if f.op.None? then Some(f.result)
      else PrimResult(f.op.value, bound)
  }

  function PrimResult(op: Prim, bound: seq<Type>): Option<Type> {
    if |bound| != 2 || (IsCmp(op) && !SameKind(bound[0], bound[1])) then None
    else if bound[0].TUnknown? || bound[1].TUnknown? then Some(TUnknown)
    else if IsCmp(op) then Some(TBool)
    else if bound[0].TNum? && bound[1].TNum? then Some(TNum(NumBin(op, bound[0].num, bound[1].num)))
    else None
  }

  const REDUCE_ROUNDS: nat := 16

  /** The accumulator type of a fold: widen by one application of the fold until nothing changes. */
  function ReduceType(f: Type, acc: Type, elem: Type, rounds: nat): Option<Type>
    requires f.TFunc?
    decreases rounds
  {
    if rounds == 0 then Some(acc)
    else
      var sat :- ApplyArgs(f, [acc, elem]);
      if sat.TUnknown? then Some(acc)
      else
        var next :- Unify(acc, sat);
        if TypeEqual(next, acc) then Some(acc) else ReduceType(f, next, elem, rounds - 1)
  }

  function TypeOf(sig: Sigs, p: Program, e: Expr, scope: Scope): Option<Type>
    decreases e
  {
    match e
    case NumLit(q) => Some(LiteralType(q))
    case StrLit(_) => Some(TString)
    case Var(x) => if x in scope then Some(scope[x]) else None
    case PrimRef(op) => Some(TFunc([TNum(NUM_TOP), TNum(NUM_TOP)], TUnknown, Some(op), []))
    case FnRef(fn) =>
      if fn in p && fn in sig then Some(TFunc(ParamTypes(p[fn].params), sig[fn], None, [])) else None
    case App(head, args) =>
      var f :- TypeOf(sig, p, head, scope);
      if !f.TFunc? then None else
      var ts :- TypesOf(sig, p, args, scope);
      ApplyArgs(f, ts)
    case Guards(cases) => if cases == [] then None else GuardsType(sig, p, cases, scope, TUnknown)
    case StructLit(inits) =>
      var fields :- InitTypes(sig, p, inits, scope);
      Some(TStruct(fields))
    case Field(target, field) =>
      var t :- TypeOf(sig, p, target, scope);
      if t.TStruct? then FindField(t.fields, field) else None
    case Reduce(fold, init, vec) =>
      var f :- TypeOf(sig, p, fold, scope);
      if !f.TFunc? || |f.params| != 2 then None else
      var acc :- TypeOf(sig, p, init, scope);
      if acc.TFunc? then None else
      var v :- TypeOf(sig, p, vec, scope);
      if !v.TVector? then None else ReduceType(f, acc, v.elem, REDUCE_ROUNDS)
  }

  /** Argument types; a function is not an argument. */
  function TypesOf(sig: Sigs, p: Program, args: seq<Expr>, scope: Scope): (r: Option<seq<Type>>)
    ensures r.Some? ==> |r.value| == |args| && forall i :: 0 <= i < |args| ==> !r.value[i].TFunc?
    decreases args
  {
    if args == [] then Some([])
    else
      var t :- TypeOf(sig, p, args[0], scope);
      if t.TFunc? then None else
      var ts :- TypesOf(sig, p, args[1..], scope);
      Some([t] + ts)
  }

  /** Widens `acc` by each result; `otherwise` stands last, and only last. */
  function GuardsType(sig: Sigs, p: Program, cases: seq<GuardCase>, scope: Scope, acc: Type): Option<Type>
    requires cases != []
    decreases cases
  {
    var c := cases[0];
    assert c.result < c;
    if c.Otherwise? != (|cases| == 1) then None else
    var condOk := c.When? ==>
      assert c.cond < c;
      var t := TypeOf(sig, p, c.cond, scope); t.Some? && (t.value.TBool? || t.value.TUnknown?);
    if !condOk then None else
    var r :- TypeOf(sig, p, c.result, scope);
    if r.TFunc? then None else
    var u :- Unify(acc, r);
    if |cases| == 1 then Some(u) else GuardsType(sig, p, cases[1..], scope, u)
  }

  /** Field types in order; names are distinct and values are not functions. */
  function InitTypes(sig: Sigs, p: Program, inits: seq<FieldInit>, scope: Scope): (r: Option<seq<TypedField>>)
    ensures r.Some? ==> |r.value| == |inits| && forall i :: 0 <= i < |inits| ==> r.value[i].name == inits[i].name
    decreases inits
  {
    if inits == [] then Some([])
    else
      var t :- TypeOf(sig, p, inits[0].value, scope);
      if t.TFunc? then None else
      var rest :- InitTypes(sig, p, inits[1..], scope);
      if FindField(rest, inits[0].name).Some? then None
      else Some([TypedField(inits[0].name, t)] + rest)
  }

  /** How many arguments a resolved term still expects (arityOf). */
  function ArityOf(p: Program, e: Expr): int {
    match e
    case PrimRef(_) => 2
    case FnRef(fn) => if fn in p then |p[fn].params| else 0
    case App(head, args) => ArityOf(p, head) - |args|
    case _ => 0
  }

  // ----- what types mean -----

  /**
    Value v fits value type t: it has t's shape and, when signed, its numbers lie in the numeric types named.
    Nothing fits the unknown type; function values are typed by HasFnType.
   */
  ghost predicate Fits(signed: bool, v: Val, t: Type)
    decreases t
  {
    match t
    case TNum(n) => v.VNum? && (signed ==> Allows(n, v.num))
    case TBool => v.VBool?
    case TString => v.VStr?
    case TStruct(fs) =>
      v.VStruct? && |v.fields| == |fs|
      && forall i :: 0 <= i < |fs| ==> fs[i].name in v.fields && Fits(signed, v.fields[fs[i].name], fs[i].typ)
    case TVector(elem) => v.VVec? && forall i :: 0 <= i < |v.slots| ==> Fits(signed, v.slots[i], elem)
    case _ => false
  }

  /** Value v inhabits value type t. */
  ghost predicate HasType(v: Val, t: Type) {
    Fits(true, v, t)
  }

  /** Signed or not, an inhabitant fits. */
  lemma {:induction false} TypedFits(signed: bool, v: Val, t: Type)
    requires HasType(v, t)
    ensures Fits(signed, v, t)
    decreases t
  {
    match t
    case TStruct(fs) =>
      forall i | 0 <= i < |fs|
        ensures Fits(signed, v.fields[fs[i].name], fs[i].typ)
      {
        TypedFits(signed, v.fields[fs[i].name], fs[i].typ);
      }
    case TVector(elem) =>
      forall i | 0 <= i < |v.slots|
        ensures Fits(signed, v.slots[i], elem)
      {
        TypedFits(signed, v.slots[i], elem);
      }
    case _ =>
  }

  /** A concrete value type: no unknown, no function, and field names distinct at every level. */
  predicate ValueType(t: Type) {
    match t
    case TStruct(fs) =>
      (forall i, j :: 0 <= i < j < |fs| ==> fs[i].name != fs[j].name)
      && forall i :: 0 <= i < |fs| ==> ValueType(fs[i].typ)
    case TVector(elem) => ValueType(elem)
    case TUnknown => false
    case TFunc(_, _, _, _) => false
    case _ => true
  }

  /** A function value behaves as signature t says: same callee, bound arguments of the types already supplied. */
  ghost predicate HasFnType(signed: bool, sig: Sigs, p: Program, v: Val, t: Type) {
    v.VFunc? && t.TFunc?
    && match v.callee
      case CalleePrim(op) =>
        t.op == Some(op) && |t.params| == 2 - |v.bound|
        && (forall i :: 0 <= i < |t.params| ==> t.params[i] == TNum(NUM_TOP))
        && |v.bound| == |t.bound|
        && (forall i :: 0 <= i < |v.bound| ==> Fits(signed, v.bound[i], t.bound[i]))
        && forall i :: 0 <= i < |t.bound| ==> if IsCmp(op) then Comparable(t.bound[i]) else t.bound[i].TNum?
      case CalleeFn(fn) =>
        t.op.None? && fn in p && fn in sig && t.result == sig[fn]
        && |v.bound| <= |p[fn].params|
        && t.params == ParamTypes(p[fn].params)[|v.bound|..]
        && forall i :: 0 <= i < |v.bound| ==> Fits(signed, v.bound[i], p[fn].params[i].typ)
  }

  // ----- sign soundness -----

  /** Integers are closed under the arithmetic primitives. */
  lemma IntClosed(op: Prim, x: real, y: real)
    requires !IsCmp(op) && IsInt(x) && IsInt(y)
    ensures IsInt(Arith(op, x, y))
  {
    match op
    case Add => IntReal(x.Floor + y.Floor);
    case Minus => IntReal(x.Floor - y.Floor);
    case Mul =>
      var i, j := x.Floor, y.Floor;
      assert x == i as real && y == j as real;
      assert Arith(op, x, y) == (i as real) * (j as real);
      IntProduct(i, j);
    case _ =>
  }

  lemma IntReal(i: int)
    ensures IsInt(i as real)
  {
  }

  lemma {:induction false} IntProduct(i: int, j: int)
    ensures (i as real) * (j as real) == (i * j) as real && IsInt((i as real) * (j as real))
    decreases if i < 0 then -i else i
  {
    if i > 0 {
      IntProduct(i - 1, j);
      assert (i as real) * (j as real) == ((i - 1) as real) * (j as real) + j as real;
      assert i * j == (i - 1) * j + j;
    } else if i < 0 {
      IntProduct(i + 1, j);
      assert (i as real) * (j as real) == ((i + 1) as real) * (j as real) - j as real;
      assert i * j == (i + 1) * j - j;
    }
    IntReal(i * j);
  }

  lemma MulSignSound(a: Sign, b: Sign, x: real, y: real)
    requires SignAllows(a, x) && SignAllows(b, y) && !(a.SAny? && b.SAny?)
    ensures SignAllows(MulSign(a, b), x * y)
  {
    if x >= 0.0 && y >= 0.0 {
      assert x * y >= 0.0;
    } else if x <= 0.0 && y <= 0.0 {
      assert x * y == (-x) * (-y) >= 0.0;
    } else if x >= 0.0 {
      assert x * (-y) >= 0.0;
    } else {
      assert (-x) * y >= 0.0;
    }
  }

  lemma NumBinSound(op: Prim, a: NumType, b: NumType, x: real, y: real)
    requires !IsCmp(op) && Allows(a, x) && Allows(b, y)
    requires op.Mul? ==> !(a.sign.SAny? && b.sign.SAny?)
    ensures Allows(NumBin(op, a, b), Arith(op, x, y))
  {
    if a.domain.DInt? && b.domain.DInt? {
      IntClosed(op, x, y);
    }
    if op.Mul? {
      MulSignSound(a.sign, b.sign, x, y);
    }
  }

  /**
    Exactly when the result type of an arithmetic primitive contains every result:
    always, except that the product of two operands of unknown sign is typed
    non-negative although 1 * -1 is not.
   */
  lemma NumBinSoundExactly(op: Prim, a: NumType, b: NumType)
    requires !IsCmp(op)
    ensures (forall x, y :: Allows(a, x) && Allows(b, y) ==> Allows(NumBin(op, a, b), Arith(op, x, y)))
            <==> !(op.Mul? && a.sign.SAny? && b.sign.SAny?)
  {
    if op.Mul? && a.sign.SAny? && b.sign.SAny? {
      assert IsInt(1.0) && IsInt(-1.0);
      assert Allows(a, 1.0) && Allows(b, -1.0);
      assert Arith(op, 1.0, -1.0) == -1.0;
      assert !Allows(NumBin(op, a, b), Arith(op, 1.0, -1.0));
    } else {
      forall x, y | Allows(a, x) && Allows(b, y)
        ensures Allows(NumBin(op, a, b), Arith(op, x, y))
      {
        NumBinSound(op, a, b, x, y);
      }
    }
  }

  lemma LiteralTypeSound(signed: bool, q: real)
    ensures Fits(signed, VNum(q), LiteralType(q)) && ValueType(LiteralType(q))
  {
    assert IsInt(0.0);
  }
}
