/**
  Symbolic terms, the goals built from them, and what the solver's verdict on a
  goal means. A goal is valid when its script is well-sorted and every valuation
  that meets the declarations and the hypotheses satisfies the conclusion.
 */
module Symbolic {
  import opened Options
  import opened NumTypes
  import opened Syntax
  import opened Interp
  import opened Utf8Order

  datatype Sort = SortNum | SortStr | SortBool

  /** A solver constant: a scalar leaf of a symbolic slot, a method parameter, or the result of a reduce. */
  datatype Name =
    | Leaf(root: string, path: seq<nat>)
    | ParamVar(index: nat)
    | ReduceVar(k: nat)

  datatype Sym =
    | SConst(num: real)
    | SStrConst(str: string)
    | SVar(name: Name, sort: Sort)
    | SBin(op: Prim, a: Sym, b: Sym)
    | SCmp(op: Prim, a: Sym, b: Sym)
    | SIte(cond: Sym, a: Sym, b: Sym)
    | SStruct(fields: map<string, Sym>)
    | SVector(self: Sym, elem: ElemT)

  /** The sort a symbolic term is tagged with; it selects the order relation a comparison is printed with. */
  function Tag(s: Sym): Sort {
    match s
    case SStrConst(_) => SortStr
    case SVar(_, sort) => sort
    case SCmp(_, _, _) => SortBool
    case SIte(_, a, _) => Tag(a)
    case _ => SortNum
  }

  predicate OnStrings(a: Sym, b: Sym) {
    Tag(a).SortStr? || Tag(b).SortStr?
  }

  /**
    The sort of the printed term; None if the solver rejects it. max and min print
    as an ite over a comparison, a struct as an undeclared symbol, a vector as 0.
   */
  function SortOf(s: Sym): Option<Sort> {
    match s
    case SConst(_) => Some(SortNum)
    case SStrConst(_) => Some(SortStr)
    case SVar(_, sort) => Some(sort)
    case SBin(op, a, b) =>
      if !IsCmp(op) && SortOf(a) == Some(SortNum) && SortOf(b) == Some(SortNum) then Some(SortNum) else None
    case SCmp(op, a, b) =>
      if !IsCmp(op) || SortOf(a).None? || SortOf(a) != SortOf(b) then None
      else if op.Eq? || op.Ne? then Some(SortBool)
      else if SortOf(a).value == (if OnStrings(a, b) then SortStr else SortNum) then Some(SortBool)
      else None
    case SIte(cond, a, b) =>
      if SortOf(cond) == Some(SortBool) && SortOf(a) == SortOf(b) then SortOf(a) else None
    case SStruct(_) => None
    case SVector(_, _) => Some(SortNum)
  }

  /** An interpretation of the declared constants. */
  datatype Valuation = Valuation(nums: Name -> real, strs: Name -> string, reduces: seq<real>)

  function NumAt(v: Valuation, n: Name): real {
    if n.ReduceVar? then (if n.k < |v.reduces| then v.reduces[n.k] else 0.0) else v.nums(n)
  }

  /** What a well-sorted scalar term denotes; anything else denotes an arbitrary scalar. */
  function Meaning(s: Sym, v: Valuation): Val {
    match s
    case SConst(q) => VNum(q)
    case SStrConst(str) => VStr(str)
    case SVar(n, sort) =>
      (match sort
       case SortNum => VNum(NumAt(v, n))
       case SortStr => VStr(v.strs(n))
       case SortBool => VBool(false))
    case SBin(op, a, b) =>
      var x, y := Meaning(a, v), Meaning(b, v);
      if !IsCmp(op) && x.VNum? && y.VNum? then VNum(Arith(op, x.num, y.num)) else VNum(0.0)
    case SCmp(op, a, b) =>
      var x, y := Meaning(a, v), Meaning(b, v);
      if op.Eq? then VBool(x == y)
      else if op.Ne? then VBool(x != y)
      else if !IsCmp(op) then VBool(false)
      else if OnStrings(a, b) then
        VBool(x.VStr? && y.VStr? && Verdict(op, CompareCodePoints(x.str, y.str)))
      else VBool(x.VNum? && y.VNum? && Verdict(op, CompareNums(x.num, y.num)))
    case SIte(cond, a, b) => if Meaning(cond, v) == VBool(true) then Meaning(a, v) else Meaning(b, v)
    case SStruct(_) => VNum(0.0)
    case SVector(_, _) => VNum(0.0)
  }

  predicate IsOfSort(w: Val, sort: Sort) {
    match sort
    case SortNum => w.VNum?
    case SortStr => w.VStr?
    case SortBool => w.VBool?
  }

  /** A well-sorted term is tagged with its sort and denotes a value of that sort. */
  lemma {:induction false} SortedMeaning(s: Sym, v: Valuation)
    requires SortOf(s).Some?
    ensures Tag(s) == SortOf(s).value && IsOfSort(Meaning(s, v), SortOf(s).value)
  {
    match s
    case SBin(_, a, b) =>
      SortedMeaning(a, v);
      SortedMeaning(b, v);
    case SCmp(_, a, b) =>
      SortedMeaning(a, v);
      SortedMeaning(b, v);
    case SIte(c, a, b) =>
      SortedMeaning(a, v);
      SortedMeaning(b, v);
    case _ =>
  }

  // ----- goals -----

  datatype VarDecl = NumDecl(name: Name, typ: NumType) | StrDecl(name: Name)

  /** Either lhs == rhs leaf by leaf under hypotheses, or a boolean claim. */
  datatype Goal =
    | EqualGoal(vars: seq<VarDecl>, lhs: Sym, rhs: Sym, hyps: seq<Sym>)
    | ClaimGoal(vars: seq<VarDecl>, claim: Sym)

  type Solver = Goal -> bool

  predicate DeclHolds(d: VarDecl, v: Valuation) {
    d.NumDecl? ==> Allows(d.typ, NumAt(v, d.name))
  }

  predicate Meets(vars: seq<VarDecl>, v: Valuation) {
    forall i :: 0 <= i < |vars| ==> DeclHolds(vars[i], v)
  }

  /** The two sides flatten to scalar equalities the solver accepts. */
  predicate LeavesSorted(l: Sym, r: Sym) {
    if l.SStruct? && r.SStruct? then
      forall k :: k in l.fields ==> k in r.fields && LeavesSorted(l.fields[k], r.fields[k])
    else SortOf(l).Some? && SortOf(l) == SortOf(r)
  }

  predicate LeavesEqual(l: Sym, r: Sym, v: Valuation)
    requires LeavesSorted(l, r)
  {
    if l.SStruct? && r.SStruct? then
      forall k :: k in l.fields ==> LeavesEqual(l.fields[k], r.fields[k], v)
    else Meaning(l, v) == Meaning(r, v)
  }

  predicate Sorted(s: Sym) {
    SortOf(s) == Some(SortBool)
  }

  predicate WellSorted(g: Goal) {
    match g
    case EqualGoal(_, lhs, rhs, hyps) =>
      LeavesSorted(lhs, rhs) && forall i :: 0 <= i < |hyps| ==> Sorted(hyps[i])
    case ClaimGoal(_, claim) => Sorted(claim)
  }

  predicate Concluded(g: Goal, v: Valuation)
    requires WellSorted(g)
  {
    match g
    case EqualGoal(_, lhs, rhs, hyps) =>
      (forall i :: 0 <= i < |hyps| ==> Meaning(hyps[i], v) == VBool(true)) ==> LeavesEqual(lhs, rhs, v)
    case ClaimGoal(_, claim) => Meaning(claim, v) == VBool(true)
  }

  ghost predicate Valid(g: Goal) {
    WellSorted(g) && forall v: Valuation :: Meets(g.vars, v) ==> Concluded(g, v)
  }

  /** The solver answers "unsat" only for valid goals; it may give up on any goal. */
  ghost predicate SoundSolver(solver: Solver) {
    forall g :: solver(g) ==> Valid(g)
  }

  // ----- symbolic slots -----

  /** The symbol of an element of type t whose leaves are named by their field positions (symVarOf). */
  function SymOf(root: string, path: seq<nat>, t: ElemT): (s: Sym)
    decreases t
  {
    match t
    case ENum(_) => SVar(Leaf(root, path), SortNum)
    case EStr => SVar(Leaf(root, path), SortStr)
    case EStruct(fs) => SStruct(SymFields(root, path, fs, 0))
  }

  function SymFields(root: string, path: seq<nat>, fs: seq<ElemField>, from: nat): map<string, Sym>
    decreases fs, 0
  {
    if fs == [] then map[]
    else map[fs[0].name := SymOf(root, path + [from], fs[0].typ)] + SymFields(root, path, fs[1..], from + 1)
  }

  /** The declarations symVarOf appends for the same symbol. */
  function DeclsOf(root: string, path: seq<nat>, t: ElemT): seq<VarDecl>
    decreases t
  {
    match t
    case ENum(n) => [NumDecl(Leaf(root, path), n)]
    case EStr => [StrDecl(Leaf(root, path))]
    case EStruct(fs) => DeclFields(root, path, fs, 0)
  }

  function DeclFields(root: string, path: seq<nat>, fs: seq<ElemField>, from: nat): seq<VarDecl>
    decreases fs, 0
  {
    if fs == [] then []
    else DeclsOf(root, path + [from], fs[0].typ) + DeclFields(root, path, fs[1..], from + 1)
  }
}
