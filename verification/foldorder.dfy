/**
  The order in which `reduce` visits a vector: exactly when it does not matter, and that
  it does not for the arithmetic folds, the folds the prover recognises and proven merges.
 */
module FoldOrder {
  import opened Options
  import opened NumTypes
  import opened Syntax
  import opened Interp
  import opened TypeRules
  import opened TypeSound
  import opened Prover
  import opened Symbolic
  import opened Lowering
  import opened LowerCorrect
  import opened Convergence
  import opened Vectors
  import opened ReplicaStates
  import opened Calls
  import M = Memos
  import K = Checker

  /** Accumulators and slots between which a fold stays. */
  datatype Domain = Domain(accs: Val -> bool, slots: Val -> bool)

  /** Two slots may be visited in either order, from every accumulator. */
  ghost predicate Exchanges(p: Program, f: Val, d: Domain, depth: nat)
    requires depth <= MAX_EVAL_DEPTH
  {
    forall acc, x, y :: d.accs(acc) && d.slots(x) && d.slots(y) ==>
      FoldSlots(p, f, acc, [x, y], depth) == FoldSlots(p, f, acc, [y, x], depth)
  }

  /** Folding a slot leads from accumulators to accumulators. */
  ghost predicate Closed(p: Program, f: Val, d: Domain, depth: nat)
    requires depth <= MAX_EVAL_DEPTH
  {
    forall acc, x :: d.accs(acc) && d.slots(x) ==>
      var r := Apply(p, f, [acc, x], depth); r.Ok? ==> d.accs(r.value)
  }

  ghost predicate AllSlots(d: Domain, slots: seq<Val>) {
    forall i :: 0 <= i < |slots| ==> d.slots(slots[i])
  }

  /** Any two orders of the same slots give the same outcome. */
  ghost predicate OrderFree(p: Program, f: Val, d: Domain, depth: nat)
    requires depth <= MAX_EVAL_DEPTH
  {
    forall acc, s, t :: d.accs(acc) && AllSlots(d, s) && multiset(s) == multiset(t) ==>
      FoldSlots(p, f, acc, s, depth) == FoldSlots(p, f, acc, t, depth)
  }

  lemma {:induction false} FoldAppend(p: Program, f: Val, acc: Val, s: seq<Val>, t: seq<Val>, depth: nat)
    requires depth <= MAX_EVAL_DEPTH
    ensures FoldSlots(p, f, acc, s + t, depth)
      == var r := FoldSlots(p, f, acc, s, depth); if r.Ok? then FoldSlots(p, f, r.value, t, depth) else r
    decreases |s|
  {
    hide Apply;
    if s == [] {
      assert s + t == t;
    } else {
      assert (s + t)[1..] == s[1..] + t;
      var r := Apply(p, f, [acc, s[0]], depth);
      if r.Ok? {
        FoldAppend(p, f, r.value, s[1..], t, depth);
      }
    }
  }

  /** A slot can be moved to the front. */
  lemma {:induction false} MoveToFront(p: Program, f: Val, d: Domain, acc: Val, pre: seq<Val>, x: Val, post: seq<Val>,
    depth: nat)
    requires depth <= MAX_EVAL_DEPTH && Exchanges(p, f, d, depth) && Closed(p, f, d, depth)
    requires d.accs(acc) && AllSlots(d, pre) && d.slots(x)
    ensures FoldSlots(p, f, acc, pre + [x] + post, depth) == FoldSlots(p, f, acc, [x] + pre + post, depth)
    decreases |pre|
  {
    hide Apply, FoldSlots;
    if pre == [] {
      assert pre + [x] + post == [x] + pre + post;
    } else {
      var y, rest := pre[0], pre[1..];
      assert d.slots(y);
      assert pre + [x] + post == [y] + (rest + [x] + post);
      FoldAppend(p, f, acc, [y], rest + [x] + post, depth);
      FoldOne(p, f, acc, y, depth);
      var r := Apply(p, f, [acc, y], depth);
      if r.Ok? {
        MoveToFront(p, f, d, r.value, rest, x, post, depth);
      }
      FoldAppend(p, f, acc, [y], [x] + rest + post, depth);
      SwapFirst(p, f, d, acc, y, x, rest + post, depth);
      assert [y] + ([x] + rest + post) == [y, x] + (rest + post);
      assert [x] + pre + post == [x, y] + (rest + post);
    }
  }

  lemma SwapFirst(p: Program, f: Val, d: Domain, acc: Val, x: Val, y: Val, rest: seq<Val>, depth: nat)
    requires depth <= MAX_EVAL_DEPTH && Exchanges(p, f, d, depth) && d.accs(acc) && d.slots(x) && d.slots(y)
    ensures FoldSlots(p, f, acc, [x, y] + rest, depth) == FoldSlots(p, f, acc, [y, x] + rest, depth)
  {
    hide FoldSlots;
    FoldAppend(p, f, acc, [x, y], rest, depth);
    FoldAppend(p, f, acc, [y, x], rest, depth);
  }

  lemma FoldOne(p: Program, f: Val, acc: Val, x: Val, depth: nat)
    requires depth <= MAX_EVAL_DEPTH
    ensures FoldSlots(p, f, acc, [x], depth) == Apply(p, f, [acc, x], depth)
  {
    hide Apply;
    assert [x][1..] == [];
  }

  lemma {:induction false} SameOutcome(p: Program, f: Val, d: Domain, acc: Val, s: seq<Val>, t: seq<Val>, depth: nat)
    requires depth <= MAX_EVAL_DEPTH && Exchanges(p, f, d, depth) && Closed(p, f, d, depth)
    requires d.accs(acc) && AllSlots(d, s) && multiset(s) == multiset(t)
    ensures FoldSlots(p, f, acc, s, depth) == FoldSlots(p, f, acc, t, depth)
    decreases |s|
  {
    hide Apply, Exchanges, FoldSlots;
    if s == [] {
      NoElements(t);
    } else {
      var x := s[0];
      var i := FindFirst(s, t);
      var pre, post := t[..i], t[i + 1..];
      MoveToFront(p, f, d, acc, pre, x, post, depth);
      assert [x] + pre + post == [x] + (pre + post) && s == [x] + s[1..];
      FoldAppend(p, f, acc, [x], pre + post, depth);
      FoldAppend(p, f, acc, [x], s[1..], depth);
      FoldOne(p, f, acc, x, depth);
      var r := Apply(p, f, [acc, x], depth);
      if r.Ok? {
        assert d.slots(s[0]);
        SameOutcome(p, f, d, r.value, s[1..], pre + post, depth);
      }
    }
  }

  lemma NoElements<T>(t: seq<T>)
    requires multiset(t) == multiset{}
    ensures t == []
  {
    assert |multiset(t)| == |t|;
  }

  /** The first of s within its rearrangement t. */
  lemma FindFirst<T>(s: seq<T>, t: seq<T>) returns (i: nat)
    requires s != [] && multiset(s) == multiset(t)
    ensures i < |t| && t == t[..i] + [s[0]] + t[i + 1..]
    ensures multiset(s[1..]) == multiset(t[..i] + t[i + 1..])
    ensures forall j :: 0 <= j < i ==> t[j] in s
  {
    assert s == [s[0]] + s[1..];
    assert s[0] in multiset(t);
    i :| 0 <= i < |t| && t[i] == s[0];
    var pre, post := t[..i], t[i + 1..];
    assert t == pre + [s[0]] + post;
    calc {
      multiset(s[1..]);
      multiset(s) - multiset{s[0]};
      multiset(pre) + multiset{s[0]} + multiset(post) - multiset{s[0]};
      multiset(pre + post);
    }
    forall j | 0 <= j < i
      ensures t[j] in s
    {
      assert t[j] in multiset(t);
    }
  }

  /** The order of visits never matters exactly when any two visits may be exchanged. */
  lemma OrderFreeExactly(p: Program, f: Val, d: Domain, depth: nat)
    requires depth <= MAX_EVAL_DEPTH && Closed(p, f, d, depth)
    ensures OrderFree(p, f, d, depth) <==> Exchanges(p, f, d, depth)
  {
    hide FoldSlots, Closed;
    if OrderFree(p, f, d, depth) {
      forall acc, x, y | d.accs(acc) && d.slots(x) && d.slots(y)
        ensures FoldSlots(p, f, acc, [x, y], depth) == FoldSlots(p, f, acc, [y, x], depth)
      {
        assert AllSlots(d, [x, y]) && multiset([x, y]) == multiset([y, x]);
      }
    }
    if Exchanges(p, f, d, depth) {
      forall acc, s, t | d.accs(acc) && AllSlots(d, s) && multiset(s) == multiset(t)
        ensures FoldSlots(p, f, acc, s, depth) == FoldSlots(p, f, acc, t, depth)
      {
        SameOutcome(p, f, d, acc, s, t, depth);
      }
    }
  }

  /** Two enumerations of a state visit the same slots. */
  lemma SameSlots(s: State, o1: seq<string>, o2: seq<string>)
    requires Enumerates(o1, s) && Enumerates(o2, s)
    ensures multiset(SlotsIn(s, o1)) == multiset(SlotsIn(s, o2))
  {
    DistinctMultiset(o1);
    DistinctMultiset(o2);
    assert multiset(o1) == multiset(o2) by {
      assert forall k :: multiset(o1)[k] == multiset(o2)[k];
    }
    MapMultiset(s, o1, o2);
  }

  lemma {:induction false} DistinctMultiset(o: seq<string>)
    requires Distinct(o)
    ensures forall k :: multiset(o)[k] == if k in o then 1 else 0
    decreases |o|
  {
    if o != [] {
      var init, last := o[..|o| - 1], o[|o| - 1];
      assert o == init + [last];
      DistinctMultiset(init);
    }
  }

  lemma {:induction false} MapMultiset(s: State, o1: seq<string>, o2: seq<string>)
    requires multiset(o1) == multiset(o2) && forall k :: k in o1 ==> k in s
    requires forall k :: k in o2 ==> k in s
    ensures multiset(SlotsIn(s, o1)) == multiset(SlotsIn(s, o2))
    decreases |o1|
  {
    if o1 == [] {
      NoElements(o2);
    } else {
      var i := FindFirst(o1, o2);
      var pre, post := o2[..i], o2[i + 1..];
      assert forall k :: k in pre + post ==> k in o2;
      MapMultiset(s, o1[1..], pre + post);
      assert SlotsIn(s, o1) == [s[o1[0]]] + SlotsIn(s, o1[1..]);
      assert SlotsIn(s, pre + post) == SlotsIn(s, pre) + SlotsIn(s, post);
      assert SlotsIn(s, o2) == SlotsIn(s, pre) + [s[o1[0]]] + SlotsIn(s, post);
    }
  }

  /** A fold that is free of the order gives every enumeration of a vector the same outcome. */
  lemma EveryOrder(p: Program, f: Val, d: Domain, init: Val, vec: State, o1: seq<string>, o2: seq<string>, depth: nat)
    requires depth <= MAX_EVAL_DEPTH && OrderFree(p, f, d, depth) && d.accs(init)
    requires Enumerates(o1, vec) && Enumerates(o2, vec) && forall k :: k in vec ==> d.slots(vec[k])
    ensures FoldSlots(p, f, init, SlotsIn(vec, o1), depth) == FoldSlots(p, f, init, SlotsIn(vec, o2), depth)
  {
    hide FoldSlots;
    SameSlots(vec, o1, o2);
    assert AllSlots(d, SlotsIn(vec, o1));
  }

  // ----- the loop of reduce -----

  /** Folds the slots of a vector in whatever order the map yields them. */
  method ReduceLoop(p: Program, f: Val, init: Val, vec: State, depth: nat) returns (r: Outcome<Val>)
    requires depth <= MAX_EVAL_DEPTH
    ensures exists order :: Enumerates(order, vec) && r == FoldSlots(p, f, init, SlotsIn(vec, order), depth)
  {
    hide Interp.Apply, FoldSlots;
    var todo := vec.Keys;
    ghost var order: seq<string> := [];
    r := Ok(init);
    NoSlots(p, f, init, depth);
    assert SlotsIn(vec, order) == [];
    while todo != {} && r.Ok?
      invariant todo <= vec.Keys && Distinct(order) && forall k :: k in order <==> k in vec.Keys - todo
      invariant r == FoldSlots(p, f, init, SlotsIn(vec, order), depth)
      decreases |todo|
    {
      var k :| k in todo;
      FoldAppend(p, f, init, SlotsIn(vec, order), [vec[k]], depth);
      FoldOne(p, f, r.value, vec[k], depth);
      assert SlotsIn(vec, order + [k]) == SlotsIn(vec, order) + [vec[k]];
      r := Apply(p, f, [r.value, vec[k]], depth);
      assert k !in order;
      order, todo := order + [k], todo - {k};
    }
    if todo != {} {
      order := FailsAnyway(p, f, init, vec, order, todo, r, depth);
    }
  }

  lemma NoSlots(p: Program, f: Val, acc: Val, depth: nat)
    requires depth <= MAX_EVAL_DEPTH
    ensures FoldSlots(p, f, acc, [], depth) == Ok(acc)
  {
  }

  /** Once a fold has failed, the slots it has not visited make no difference. */
  lemma {:induction false} FailsAnyway(p: Program, f: Val, init: Val, vec: State, order: seq<string>, todo: set<string>,
    r: Outcome<Val>, depth: nat) returns (full: seq<string>)
    requires depth <= MAX_EVAL_DEPTH && todo <= vec.Keys && Distinct(order) && !r.Ok?
    requires forall k :: k in order <==> k in vec.Keys - todo
    requires r == FoldSlots(p, f, init, SlotsIn(vec, order), depth)
    ensures Enumerates(full, vec) && r == FoldSlots(p, f, init, SlotsIn(vec, full), depth)
    decreases |todo|
  {
    hide FoldSlots;
    if todo == {} {
      full := order;
    } else {
      var k :| k in todo;
      assert k !in order;
      FoldAppend(p, f, init, SlotsIn(vec, order), [vec[k]], depth);
      assert SlotsIn(vec, order + [k]) == SlotsIn(vec, order) + [vec[k]];
      full := FailsAnyway(p, f, init, vec, order + [k], todo - {k}, r, depth);
    }
  }

  // ----- folds whose order does not matter -----

  const ANYTHING := Domain(_ => true, _ => true)

  lemma TwoSteps(p: Program, f: Val, acc: Val, x: Val, y: Val, depth: nat)
    requires depth <= MAX_EVAL_DEPTH
    ensures FoldSlots(p, f, acc, [x, y], depth)
      == var r := Apply(p, f, [acc, x], depth); if r.Ok? then Apply(p, f, [r.value, y], depth) else r
  {
    hide Apply, FoldSlots;
    assert [x, y] == [x] + [y];
    FoldAppend(p, f, acc, [x], [y], depth);
    FoldOne(p, f, acc, x, depth);
    var r := Apply(p, f, [acc, x], depth);
    if r.Ok? {
      FoldOne(p, f, r.value, y, depth);
    }
  }

  /** Applying an operator twice does not depend on the order of the second operands. */
  lemma ArithExchanges(op: Prim, a: real, x: real, y: real)
    requires !IsCmp(op)
    ensures Arith(op, Arith(op, a, x), y) == Arith(op, Arith(op, a, y), x)
  {
    if op.Mul? {
      assert (a * x) * y == (a * y) * x;
    }
  }

  /** + - * max and min fold any vector to the same outcome in every order. */
  lemma ArithmeticOrderFree(p: Program, op: Prim, depth: nat)
    requires depth <= MAX_EVAL_DEPTH && !IsCmp(op)
    ensures OrderFree(p, VFunc(CalleePrim(op), []), ANYTHING, depth)
  {
    hide FoldSlots, Apply;
    var f := VFunc(CalleePrim(op), []);
    forall acc, x, y
      ensures FoldSlots(p, f, acc, [x, y], depth) == FoldSlots(p, f, acc, [y, x], depth)
    {
      TwoSteps(p, f, acc, x, y, depth);
      TwoSteps(p, f, acc, y, x, depth);
      PrimStep(p, op, acc, x, depth);
      PrimStep(p, op, acc, y, depth);
      if acc.VNum? && x.VNum? && y.VNum? {
        PrimStep(p, op, VNum(Arith(op, acc.num, x.num)), y, depth);
        PrimStep(p, op, VNum(Arith(op, acc.num, y.num)), x, depth);
        ArithExchanges(op, acc.num, x.num, y.num);
      } else if acc.VNum? && x.VNum? {
        PrimStep(p, op, VNum(Arith(op, acc.num, x.num)), y, depth);
      } else if acc.VNum? && y.VNum? {
        PrimStep(p, op, VNum(Arith(op, acc.num, y.num)), x, depth);
      }
    }
    OrderFreeExactly(p, f, ANYTHING, depth);
  }

  lemma PrimStep(p: Program, op: Prim, acc: Val, x: Val, depth: nat)
    requires depth <= MAX_EVAL_DEPTH && !IsCmp(op)
    ensures Apply(p, VFunc(CalleePrim(op), []), [acc, x], depth)
      == if acc.VNum? && x.VNum? then Ok(VNum(Arith(op, acc.num, x.num))) else Stuck
  {
    assert [] + [acc, x] == [acc, x];
  }

  /** So does every projected maximum or minimum the prover recognises. */
  lemma ProjectedOrderFree(p: Program, fold: Expr, proj: Projection, depth: nat)
    requires ParamsDistinct(p) && FoldProjection(p, fold) == Some(proj) && depth < MAX_EVAL_DEPTH
    ensures OrderFree(p, FoldVal(fold), ANYTHING, depth)
  {
    hide FoldSlots, Apply, ProjectVal, FoldVal;
    var f := FoldVal(fold);
    forall acc, x, y
      ensures FoldSlots(p, f, acc, [x, y], depth) == FoldSlots(p, f, acc, [y, x], depth)
    {
      TwoSteps(p, f, acc, x, y, depth);
      TwoSteps(p, f, acc, y, x, depth);
      FoldStep(p, fold, proj, acc, x, depth);
      FoldStep(p, fold, proj, acc, y, depth);
      var ax, ay := FoldResult(proj, acc, x), FoldResult(proj, acc, y);
      if ax.Ok? {
        FoldStep(p, fold, proj, ax.value, y, depth);
      }
      if ay.Ok? {
        FoldStep(p, fold, proj, ay.value, x, depth);
      }
    }
    OrderFreeExactly(p, f, ANYTHING, depth);
  }

  ghost function SlotsOf(t: ElemT): Domain {
    Domain(v => HasType(v, VElem(t)), v => HasType(v, VElem(t)))
  }

  /** So does a proven merge, on slots of the element type. */
  lemma MergeOrderFree(solver: Solver, sig: Sigs, p: Program, m: Model, f: Val)
    requires AcceptedTyped(solver, sig, p, m) && EvalFn(p, m.merge, map[], 2) == Ok(f)
    ensures OrderFree(p, f, SlotsOf(m.elem), 0)
  {
    hide FoldSlots, Apply, AcceptedTyped, EvalFn, Fits, VElem;
    var slots := SlotsOf(m.elem);
    forall acc, x, y | slots.accs(acc) && slots.slots(x) && slots.slots(y)
      ensures FoldSlots(p, f, acc, [x, y], 0) == FoldSlots(p, f, acc, [y, x], 0)
      ensures Apply(p, f, [acc, x], 0).Ok? && slots.accs(Apply(p, f, [acc, x], 0).value)
    {
      TwoSteps(p, f, acc, x, y, 0);
      TwoSteps(p, f, acc, y, x, 0);
      MergeIsTypedJoin(solver, sig, p, m, acc, x, y);
      MergeIsTypedJoin(solver, sig, p, m, acc, y, x);
      MergeIsTypedJoin(solver, sig, p, m, x, y, acc);
    }
    OrderFreeExactly(p, f, slots, 0);
  }

  // ----- a checked query whose fold keeps the last slot it saw -----

  const ANY := TNum(NUM_TOP)

  /** Folds a vector of numbers by a function that returns its second argument. */
  function LastProgram(): Program {
    map[
      "last" := FnDef([Param("acc", ANY), Param("e", ANY)], Var("e"), None),
      "any" := FnDef([Param("v", TVector(ANY))], Reduce(FnRef("last"), NumLit(0.0), Var("v")), None)]
  }

  const LAST_QUERY := Query([], FnRef("any"))

  const LAST_SIGS: Sigs := map["last" := ANY, "any" := ANY]

  const LAST_FOLD := TFunc([ANY, ANY], ANY, None, [])

  lemma LastFolds()
    ensures ReduceType(LAST_FOLD, LiteralType(0.0), ANY, REDUCE_ROUNDS) == Some(ANY)
  {
    assert ApplyArgs(LAST_FOLD, [LiteralType(0.0), ANY]) == Some(ANY) && ApplyArgs(LAST_FOLD, [ANY, ANY]) == Some(ANY);
    assert ReduceType(LAST_FOLD, ANY, ANY, REDUCE_ROUNDS - 1) == Some(ANY);
  }

  lemma LastScopes()
    ensures var p := LastProgram();
      FnScope(p["last"]) == map["acc" := ANY, "e" := ANY] && FnScope(p["any"]) == map["v" := TVector(ANY)]
  {
    var p := LastProgram();
    var last, any := p["last"], p["any"];
    assert ParamNames(last.params) == ["acc", "e"] && ParamTypes(last.params) == [ANY, ANY];
    assert ParamNames(any.params) == ["v"] && ParamTypes(any.params) == [TVector(ANY)];
    BindAt(["acc", "e"], [ANY, ANY], 0);
    BindAt(["acc", "e"], [ANY, ANY], 1);
    assert Bind(["acc", "e"], [ANY, ANY]).Keys == {"acc", "e"};
    BindAt(["v"], [TVector(ANY)], 0);
  }

  lemma LastBodies()
    ensures var p := LastProgram();
      TypeOf(LAST_SIGS, p, p["last"].body, FnScope(p["last"])) == Some(ANY)
      && TypeOf(LAST_SIGS, p, p["any"].body, FnScope(p["any"])) == Some(ANY)
  {
    hide ReduceType, FnScope, ParamTypes;
    var p := LastProgram();
    LastScopes();
    LastFolds();
    assert TypeOf(LAST_SIGS, p, FnRef("last"), FnScope(p["any"])) == Some(LAST_FOLD) by { LastParams(); }
  }

  lemma LastParams()
    ensures ParamTypes(LastProgram()["last"].params) == [ANY, ANY]
    ensures ParamTypes(LastProgram()["any"].params) == [TVector(ANY)]
  {
  }

  lemma LastConsistent()
    ensures M.Consistent(LAST_SIGS, LastProgram()) && M.Declared(LastProgram())
  {
    hide TypeOf, FnScope;
    LastBodies();
    var p := LastProgram();
    assert ParamNames(p["last"].params) == ["acc", "e"] && ParamNames(p["any"].params) == ["v"];
    assert SubType(ANY, ANY);
  }

  lemma LastQueryChecked()
    ensures QueryChecked(LAST_SIGS, LastProgram(), LAST_QUERY, ENum(NUM_TOP), ANY)
  {
    hide ParamTypes, ParamScope;
    LastParams();
    var f := TFunc([TVector(ANY)], ANY, None, []);
    assert TypeOf(LAST_SIGS, LastProgram(), FnRef("any"), ParamScope([])) == Some(f);
    assert ApplyArgs(f, [TVector(ANY)]) == Some(ANY);
  }

  /** The checker accepts the program and the query. */
  lemma LastAccepted()
    ensures var p, order := LastProgram(), ["last", "any"];
      K.Lists(order, p) && K.Check(p, order).val == Some(LAST_SIGS)
      && QueryChecked(LAST_SIGS, p, LAST_QUERY, ENum(NUM_TOP), ANY)
  {
    hide K.Check, M.Consistent, M.Declared, QueryChecked, OnCycle, CyclesAnnotated;
    var p, order := LastProgram(), ["last", "any"];
    LastConsistent();
    LastRanked();
    RankExists(p);
    K.CheckedExactly(p, order);
    assert K.Check(p, order).val.value == LAST_SIGS;
    LastQueryChecked();
  }

  lemma LastRanked()
    ensures exists rank :: CyclesAnnotated(LastProgram(), rank)
  {
    assert CyclesAnnotated(LastProgram(), map["last" := 0, "any" := 1]);
  }

  lemma LastStep(acc: Val, e: Val)
    ensures Apply(LastProgram(), VFunc(CalleeFn("last"), []), [acc, e], 1) == Ok(e)
  {
    var p := LastProgram();
    var names := ParamNames(p["last"].params);
    assert names == ["acc", "e"] && [] + [acc, e] == [acc, e];
    assert "acc" != "e";
    BindAt(names, [acc, e], 1);
  }

  /** The body of the query's function, on a vector of two slots. */
  lemma AnyBody(x: Val, y: Val)
    ensures Eval(LastProgram(), LastProgram()["any"].body, map["v" := VVec([x, y])], 1) == Ok(y)
  {
    hide FoldSlots, Apply;
    var p, f := LastProgram(), VFunc(CalleeFn("last"), []);
    var zero, env: map<string, Val> := VNum(0.0), map["v" := VVec([x, y])];
    TwoSteps(p, f, zero, x, y, 1);
    LastStep(zero, x);
    LastStep(x, y);
    assert Eval(p, FnRef("last"), env, 1) == Ok(f) && Eval(p, NumLit(0.0), env, 1) == Ok(zero);
    assert Eval(p, Var("v"), env, 1) == Ok(VVec([x, y]));
  }

  /** The query answers the slot visited last. */
  lemma LastAnswers(s: State, order: seq<string>, x: Val, y: Val)
    requires (forall k :: k in order ==> k in s) && SlotsIn(s, order) == [x, y]
    ensures QueryVal(LastProgram(), LAST_QUERY, [], s, order) == Ok(y)
  {
    hide Eval, EvalFn, BindParams;
    var names, vec := ParamNames(LastProgram()["any"].params), VVec([x, y]);
    assert names == ["v"] && [] + [vec] == [vec];
    BindAt(names, [vec], 0);
    assert Bind(names, [vec]) == map["v" := vec];
    AnyBody(x, y);
    NoParams();
  }

  lemma NoParams()
    ensures BindParams([], []) == Some([]) && EvalFn(LastProgram(), FnRef("any"), map[], 1) == Ok(VFunc(CalleeFn("any"), []))
    ensures Bind<Val>(MethodNames([]), []) == map[]
  {
    assert BindParams([], []).value == [];
  }

  /**
    A query's folds are not checked: the checker accepts this one, and on a typed state of two
    slots its answer depends on which the map yields last.
   */
  lemma UncheckedFoldDepends()
    ensures var p, s, ab, ba := LastProgram(), map["a" := VNum(1.0), "b" := VNum(2.0)], ["a", "b"], ["b", "a"];
      K.Lists(["last", "any"], p) && K.Check(p, ["last", "any"]).val == Some(LAST_SIGS)
      && QueryChecked(LAST_SIGS, p, LAST_QUERY, ENum(NUM_TOP), ANY)
      && Typed(s, ENum(NUM_TOP)) && Enumerates(ab, s) && Enumerates(ba, s)
      && QueryVal(p, LAST_QUERY, [], s, ab) == Ok(VNum(2.0)) && QueryVal(p, LAST_QUERY, [], s, ba) == Ok(VNum(1.0))
  {
    hide K.Check, QueryChecked, QueryVal;
    var s: State := map["a" := VNum(1.0), "b" := VNum(2.0)];
    LastAccepted();
    assert SlotsIn(s, ["a", "b"]) == [VNum(1.0), VNum(2.0)] && SlotsIn(s, ["b", "a"]) == [VNum(2.0), VNum(1.0)];
    LastAnswers(s, ["a", "b"], VNum(1.0), VNum(2.0));
    LastAnswers(s, ["b", "a"], VNum(2.0), VNum(1.0));
  }
}
