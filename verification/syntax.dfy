/**
  Resolved programs: the expression tree the builder emits, the checker's types,
  and the element descriptors of a vector type. Name resolution is done, so every
  leaf is a variable, a primitive or a user function, and the optional pointers of
  the source tree are present (the builder validates that before anything runs).
 */
module Syntax {
  import opened Options
  import opened NumTypes

  datatype Prim = Add | Mul | Minus | Max | Min | Gt | Lt | Ge | Le | Eq | Ne

  predicate IsCmp(op: Prim) {
    op.Gt? || op.Lt? || op.Ge? || op.Le? || op.Eq? || op.Ne?
  }

  datatype Expr =
    | NumLit(num: real)
    | StrLit(str: string)
    | Var(name: string)
    | PrimRef(op: Prim)
    | FnRef(fn: string)
    | App(head: Expr, args: seq<Expr>)
    | Guards(cases: seq<GuardCase>)
    | StructLit(inits: seq<FieldInit>)
    | Field(target: Expr, field: string)
    | Reduce(fold: Expr, init: Expr, vec: Expr)

  datatype GuardCase =
    | When(cond: Expr, result: Expr)
    | Otherwise(result: Expr)

  datatype FieldInit = FieldInit(name: string, value: Expr)

  /** A checker type. TFunc lists the parameters still expected; op is the primitive that drives the result. */
  datatype Type =
    | TUnknown
    | TNum(num: NumType)
    | TBool
    | TString
    | TStruct(fields: seq<TypedField>)
    | TFunc(params: seq<Type>, result: Type, op: Option<Prim>, bound: seq<Type>)
    | TVector(elem: Type)

  datatype TypedField = TypedField(name: string, typ: Type)

  /** The element type of a vector: what one slot stores. */
  datatype ElemT =
    | ENum(num: NumType)
    | EStr
    | EStruct(fields: seq<ElemField>)

  datatype ElemField = ElemField(name: string, typ: ElemT)

  datatype Param = Param(name: string, typ: Type)

  datatype FnDef = FnDef(params: seq<Param>, body: Expr, ret: Option<Type>)

  type Program = map<string, FnDef>

  /** The scalar type of an update or query parameter. */
  datatype ScalarT = ScalarNum(num: NumType) | ScalarStr

  datatype MethodParam = MethodParam(name: string, typ: ScalarT)

  /** `local f` reads the caller's own slot, `write f` the whole vector. */
  datatype UpdateBody = Local(fn: Expr) | Write(fn: Expr)

  datatype Update = Update(params: seq<MethodParam>, body: UpdateBody)

  /** A vector type: its element, its merge function and its updates. */
  datatype Model = Model(elem: ElemT, merge: Expr, updates: map<string, Update>)

  function VElem(t: ElemT): Type {
    match t
    case ENum(n) => TNum(n)
    case EStr => TString
    case EStruct(fs) => TStruct(seq(|fs|, i requires 0 <= i < |fs| => TypedField(fs[i].name, VElem(fs[i].typ))))
  }

  /** Binds names to values position by position; a repeated name keeps its last value. */
  function Bind<T>(names: seq<string>, vals: seq<T>): (env: map<string, T>)
    requires |names| == |vals|
    ensures env.Keys == set i | 0 <= i < |names| :: names[i]
    ensures forall k :: k in env ==> exists i :: 0 <= i < |names| && names[i] == k && env[k] == vals[i]
  {
    if names == [] then map[]
    else
      var init := Bind(names[..|names| - 1], vals[..|names| - 1]);
      init[names[|names| - 1] := vals[|names| - 1]]
  }

  function ParamNames(ps: seq<Param>): (ns: seq<string>)
    ensures |ns| == |ps|
  {
    seq(|ps|, i requires 0 <= i < |ps| => ps[i].name)
  }

  function ParamTypes(ps: seq<Param>): (ts: seq<Type>)
    ensures |ts| == |ps|
  {
    seq(|ps|, i requires 0 <= i < |ps| => ps[i].typ)
  }

  ghost predicate Distinct<T>(s: seq<T>) {
    forall i, j :: 0 <= i < j < |s| ==> s[i] != s[j]
  }

  /** With distinct names every position is bound to its own value. */
  lemma BindAt<T>(names: seq<string>, vals: seq<T>, i: nat)
    requires |names| == |vals| && Distinct(names) && i < |names|
    ensures names[i] in Bind(names, vals) && Bind(names, vals)[names[i]] == vals[i]
  {
    if i < |names| - 1 {
      BindAt(names[..|names| - 1], vals[..|names| - 1], i);
    }
  }
}
