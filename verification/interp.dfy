/**
  The runtime interpreter: it evaluates resolved terms over exact rationals.
  A function value is its callee with the arguments bound so far; it is always
  applied where it was evaluated, so it runs at the depth of that evaluation.
 */
module Interp {
  import opened Syntax
  import opened Utf8Order

  const MAX_EVAL_DEPTH: nat := 10000

  datatype Callee = CalleePrim(op: Prim) | CalleeFn(fn: string)

  /**
    A runtime value. A whole vector lists its slots in the order in which `reduce`
    visits them; that order is arbitrary, and nothing below fixes it.
   */
  datatype Val =
    | VNum(num: real)
    | VStr(str: string)
    | VBool(b: bool)
    | VStruct(fields: map<string, Val>)
    | VFunc(callee: Callee, bound: seq<Val>)
    | VVec(slots: seq<Val>)

  /** An evaluation yields a value, runs out of depth, or meets any other error. */
  datatype Outcome<+T> = Ok(value: T) | TooDeep | Stuck {
    predicate IsFailure() { !Ok? }

    function PropagateFailure<U>(): Outcome<U>
      requires IsFailure()
    {
      if TooDeep? then TooDeep else Stuck
    }

    function Extract(): T
      requires Ok?
    {
      value
    }
  }

  function Arity(p: Program, f: Val): int
    requires f.VFunc?
  {
    match f.callee
    case CalleePrim(_) => 2 - |f.bound|
    case CalleeFn(fn) => if fn in p then |p[fn].params| - |f.bound| else 0
  }

  function Arith(op: Prim, x: real, y: real): real
    requires !IsCmp(op)
  {
    match op
    case Add => x + y
    case Mul => x * y
    case Minus => x - y
    case Max => if x >= y then x else y
    case Min => if x <= y then x else y
  }

  /** The verdict of a comparison from the sign of a three-way comparison. */
  predicate Verdict(op: Prim, c: int)
    requires IsCmp(op)
  {
    match op
    case Gt => c > 0
    case Lt => c < 0
    case Ge => c >= 0
    case Le => c <= 0
    case Eq => c == 0
    case Ne => c != 0
  }

  function CompareNums(x: real, y: real): int {
    if x < y then -1 else if x > y then 1 else 0
  }

  function PrimOp(op: Prim, a: Val, b: Val): Outcome<Val> {
    if IsCmp(op) then
      if a.VNum? && b.VNum? then Ok(VBool(Verdict(op, CompareNums(a.num, b.num))))
      else if a.VStr? && b.VStr? then Ok(VBool(Verdict(op, CompareBytes(a.str, b.str))))
      else Stuck
    else if a.VNum? && b.VNum? then Ok(VNum(Arith(op, a.num, b.num)))
    else Stuck
  }

  /** How many nested calls are still allowed: the first component of every termination measure here. */
  function Budget(depth: nat): nat {
    if depth <= MAX_EVAL_DEPTH then MAX_EVAL_DEPTH + 1 - depth else 0
  }

  function Eval(p: Program, e: Expr, env: map<string, Val>, depth: nat): Outcome<Val>
    decreases Budget(depth), 2, e
  {
    if depth > MAX_EVAL_DEPTH then TooDeep
    else match e
      case NumLit(q) => Ok(VNum(q))
      case StrLit(s) => Ok(VStr(s))
      case Var(x) => if x in env then Ok(env[x]) else Stuck
      case PrimRef(op) => Ok(VFunc(CalleePrim(op), []))
      case FnRef(fn) => if fn in p then Ok(VFunc(CalleeFn(fn), [])) else Stuck
      case App(head, args) =>
        var f :- Eval(p, head, env, depth);
        var vals :- EvalArgs(p, args, env, depth);
        Apply(p, f, vals, depth)
      case Guards(cases) => EvalGuards(p, cases, env, depth)
      case StructLit(inits) =>
        var fields :- EvalInits(p, inits, env, depth);
        Ok(VStruct(fields))
      case Field(target, field) =>
        var v :- Eval(p, target, env, depth);
        if v.VStruct? && field in v.fields then Ok(v.fields[field]) else Stuck
      case Reduce(fold, init, vec) =>
        var f :- Eval(p, fold, env, depth);
        if !f.VFunc? || Arity(p, f) != 2 then Stuck else
        var acc :- Eval(p, init, env, depth);
        var v :- Eval(p, vec, env, depth);
        if v.VVec? then FoldSlots(p, f, acc, v.slots, depth) else Stuck
  }

  function EvalArgs(p: Program, args: seq<Expr>, env: map<string, Val>, depth: nat): (r: Outcome<seq<Val>>)
    ensures r.Ok? ==> |r.value| == |args|
    decreases Budget(depth), 2, args
  {
    if args == [] then Ok([])
    else
      var v :- Eval(p, args[0], env, depth);
      if v.VFunc? then Stuck else
      var vs :- EvalArgs(p, args[1..], env, depth);
      Ok([v] + vs)
  }

  /** The first case whose condition holds; later cases are not evaluated. */
  function EvalGuards(p: Program, cases: seq<GuardCase>, env: map<string, Val>, depth: nat): Outcome<Val>
    decreases Budget(depth), 2, cases
  {
    if cases == [] then Stuck
    else
      assert cases[0].result < cases[0];
      if cases[0].Otherwise? then Eval(p, cases[0].result, env, depth) else
      assert cases[0].cond < cases[0];
      var c :- Eval(p, cases[0].cond, env, depth);
      if !c.VBool? then Stuck
      else if c.b then Eval(p, cases[0].result, env, depth)
      else EvalGuards(p, cases[1..], env, depth)
  }

  function EvalInits(p: Program, inits: seq<FieldInit>, env: map<string, Val>, depth: nat)
    : Outcome<map<string, Val>>
    decreases Budget(depth), 2, inits
  {
    if inits == [] then Ok(map[])
    else
      var v :- Eval(p, inits[0].value, env, depth);
      if v.VFunc? then Stuck else
      var rest :- EvalInits(p, inits[1..], env, depth);
      Ok(map[inits[0].name := v] + rest)
  }

  /** Saturated: call. Fewer arguments: partial application. More: error. */
  function Apply(p: Program, f: Val, args: seq<Val>, depth: nat): Outcome<Val>
    requires depth <= MAX_EVAL_DEPTH
    decreases Budget(depth), 0
  {
    if !f.VFunc? then Stuck
    else if |args| == Arity(p, f) then
      var all := f.bound + args;
      match f.callee
      case CalleePrim(op) => PrimOp(op, all[0], all[1])
      case CalleeFn(fn) =>
        if fn in p then Eval(p, p[fn].body, Bind(ParamNames(p[fn].params), all), depth + 1)
        else Stuck
    else if |args| < Arity(p, f) then Ok(VFunc(f.callee, f.bound + args))
    else Stuck
  }

  function FoldSlots(p: Program, f: Val, acc: Val, slots: seq<Val>, depth: nat): Outcome<Val>
    requires depth <= MAX_EVAL_DEPTH
    decreases Budget(depth), 1, |slots|
  {
    if slots == [] then Ok(acc)
    else
      var next :- Apply(p, f, [acc, slots[0]], depth);
      FoldSlots(p, f, next, slots[1..], depth)
  }

  /** A term evaluated to a function of the wanted arity (evalFuncVal). */
  function EvalFn(p: Program, e: Expr, env: map<string, Val>, want: nat): Outcome<Val> {
    var f :- Eval(p, e, env, 0);
    if f.VFunc? && Arity(p, f) == want then Ok(f) else Stuck
  }
}
