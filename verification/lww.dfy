/**
  The last-writer-wins register of the documentation, run: its merge picks the slot with
  the highest version, a write stamps a version above all it saw, and the latest write is
  what every read then returns.
 */
module LastWriterWins {
  import opened Options
  import opened NumTypes
  import opened Utf8Order
  import opened Syntax
  import opened Interp
  import opened Lowering
  import opened LowerCorrect
  import opened Prover
  import opened Convergence
  import opened Vectors
  import L = Lattices

  const INT_NONNEG := NumType(DInt, SNonNeg)

  const SLOT_TYPE := EStruct([ElemField("version", ENum(INT_NONNEG)), ElemField("value", EStr)])

  function At(x: string, field: string): Expr {
    Field(Var(x), field)
  }

  function Cmp(op: Prim, a: Expr, b: Expr): Expr {
    App(PrimRef(op), [a, b])
  }

  const MERGE_CASES := [
    When(Cmp(Gt, At("a", "version"), At("b", "version")), Var("a")),
    When(Cmp(Lt, At("a", "version"), At("b", "version")), Var("b")),
    When(Cmp(Gt, At("a", "value"), At("b", "value")), Var("a")),
    Otherwise(Var("b"))]

  const MERGE := FnDef([Param("a", VElem(SLOT_TYPE)), Param("b", VElem(SLOT_TYPE))], Guards(MERGE_CASES), Some(VElem(SLOT_TYPE)))

  const MAX_VER := FnDef([Param("acc", TNum(INT_NONNEG)), Param("e", VElem(SLOT_TYPE))],
    App(PrimRef(Max), [Var("acc"), At("e", "version")]), Some(TNum(INT_NONNEG)))

  const NEXT := FnDef([Param("s", TString), Param("v", TVector(VElem(SLOT_TYPE)))],
    StructLit([
      FieldInit("version", App(PrimRef(Add), [NumLit(1.0), Reduce(FnRef("maxVer"), NumLit(0.0), Var("v"))])),
      FieldInit("value", Var("s"))]),
    Some(VElem(SLOT_TYPE)))

  const LATEST := FnDef([Param("v", TVector(VElem(SLOT_TYPE)))],
    Field(
      Reduce(FnRef("Merge"), StructLit([FieldInit("version", NumLit(0.0)), FieldInit("value", StrLit(""))]), Var("v")),
      "value"),
    Some(TString))

  function Register(): Program {
    map["Merge" := MERGE, "maxVer" := MAX_VER, "NextX" := NEXT, "LatestValue" := LATEST]
  }

  const SET := Update([MethodParam("s", ScalarStr)], Write(App(FnRef("NextX"), [Var("s")])))

  function RegisterModel(): Model {
    Model(SLOT_TYPE, FnRef("Merge"), map["Set" := SET])
  }

  /** A slot of the register. */
  datatype Stamped = Stamped(version: real, value: string)

  function ToVal(x: Stamped): Val {
    VStruct(map["version" := VNum(x.version), "value" := VStr(x.value)])
  }

  /** The later of two slots: the higher version, then the greater text, and the second of two equal ones. */
  function Later(a: Stamped, b: Stamped): Stamped {
    if a.version > b.version then a
    else if a.version < b.version then b
    else if CompareBytes(a.value, b.value) > 0 then a
    else b
  }

  // ----- evaluating the merge function -----

  lemma FieldOf(p: Program, x: string, v: Stamped, field: string, env: map<string, Val>, depth: nat)
    requires depth <= MAX_EVAL_DEPTH && x in env && env[x] == ToVal(v) && field in {"version", "value"}
    ensures Eval(p, At(x, field), env, depth) == Ok(if field == "version" then VNum(v.version) else VStr(v.value))
  {
    assert Eval(p, Var(x), env, depth) == Ok(ToVal(v));
  }

  lemma CmpFields(p: Program, op: Prim, field: string, a: Stamped, b: Stamped, env: map<string, Val>, depth: nat)
    requires depth <= MAX_EVAL_DEPTH && IsCmp(op) && field in {"version", "value"}
    requires "a" in env && env["a"] == ToVal(a) && "b" in env && env["b"] == ToVal(b)
    ensures Eval(p, Cmp(op, At("a", field), At("b", field)), env, depth)
      == Ok(VBool(Verdict(op, if field == "version" then CompareNums(a.version, b.version) else CompareBytes(a.value, b.value))))
  {
    hide Eval, EvalArgs;
    var args := [At("a", field), At("b", field)];
    FieldOf(p, "a", a, field, env, depth);
    FieldOf(p, "b", b, field, env, depth);
    TwoArgs(p, args, env, depth);
    PrimAppEval(p, op, args, env, depth);
  }

  lemma GuardWhen(p: Program, cases: seq<GuardCase>, env: map<string, Val>, depth: nat, holds: bool)
    requires depth <= MAX_EVAL_DEPTH && cases != [] && cases[0].When?
    requires Eval(p, cases[0].cond, env, depth) == Ok(VBool(holds))
    ensures EvalGuards(p, cases, env, depth)
      == if holds then Eval(p, cases[0].result, env, depth) else EvalGuards(p, cases[1..], env, depth)
  {
  }

  lemma GuardOtherwise(p: Program, cases: seq<GuardCase>, env: map<string, Val>, depth: nat)
    requires depth <= MAX_EVAL_DEPTH && cases != [] && cases[0].Otherwise?
    ensures EvalGuards(p, cases, env, depth) == Eval(p, cases[0].result, env, depth)
  {
  }

  /** The guards of the merge function, in an environment that holds both slots. */
  lemma MergeGuards(p: Program, a: Stamped, b: Stamped, env: map<string, Val>, depth: nat)
    requires depth <= MAX_EVAL_DEPTH && "a" in env && env["a"] == ToVal(a) && "b" in env && env["b"] == ToVal(b)
    ensures EvalGuards(p, MERGE_CASES, env, depth) == Ok(ToVal(Later(a, b)))
  {
    hide Eval, EvalGuards, CompareBytes, ToVal;
    var cs := MERGE_CASES;
    CmpFields(p, Gt, "version", a, b, env, depth);
    CmpFields(p, Lt, "version", a, b, env, depth);
    CmpFields(p, Gt, "value", a, b, env, depth);
    VarOf(p, "a", env, depth);
    VarOf(p, "b", env, depth);
    GuardWhen(p, cs, env, depth, a.version > b.version);
    GuardWhen(p, cs[1..], env, depth, a.version < b.version);
    GuardWhen(p, cs[2..], env, depth, CompareBytes(a.value, b.value) > 0);
    GuardOtherwise(p, cs[3..], env, depth);
    assert cs[1..][1..] == cs[2..] && cs[2..][1..] == cs[3..];
  }

  /** The merge function computes the later slot. */
  lemma MergePicksLater(a: Stamped, b: Stamped, depth: nat)
    requires depth < MAX_EVAL_DEPTH
    ensures Apply(Register(), VFunc(CalleeFn("Merge"), []), [ToVal(a), ToVal(b)], depth) == Ok(ToVal(Later(a, b)))
  {
    hide Eval, EvalGuards, Apply, Later, ToVal;
    var args := [ToVal(a), ToVal(b)];
    var env := Bind(ParamNames(MERGE.params), args);
    assert ParamNames(MERGE.params) == ["a", "b"];
    BindAt(["a", "b"], args, 0);
    BindAt(["a", "b"], args, 1);
    MergeGuards(Register(), a, b, env, depth + 1);
    CallGuards(Register(), env, args, depth);
  }

  lemma VarOf(p: Program, x: string, env: map<string, Val>, depth: nat)
    requires depth <= MAX_EVAL_DEPTH && x in env
    ensures Eval(p, Var(x), env, depth) == Ok(env[x])
  {
  }

  lemma CallGuards(p: Program, env: map<string, Val>, args: seq<Val>, depth: nat)
    requires p == Register() && |args| == 2 && env == Bind(ParamNames(MERGE.params), args) && depth < MAX_EVAL_DEPTH
    ensures Apply(p, VFunc(CalleeFn("Merge"), []), args, depth) == EvalGuards(p, MERGE_CASES, env, depth + 1)
  {
    hide EvalGuards;
    assert [] + args == args;
    assert Eval(p, MERGE.body, env, depth + 1) == EvalGuards(p, MERGE_CASES, env, depth + 1);
  }

  // ----- the slots form a lattice -----

  lemma {:induction false} CompareFlips(s: string, t: string)
    ensures CompareCodePoints(s, t) == -CompareCodePoints(t, s)
    decreases |s|
  {
    if s != "" && t != "" && s[0] == t[0] {
      CompareFlips(s[1..], t[1..]);
    }
  }

  lemma {:induction false} CompareChains(s: string, t: string, u: string)
    requires CompareCodePoints(s, t) >= 0 && CompareCodePoints(t, u) >= 0
    ensures CompareCodePoints(s, u) >= 0
    decreases |s|
  {
    if s != "" && t != "" && u != "" && s[0] == t[0] == u[0] {
      CompareChains(s[1..], t[1..], u[1..]);
    }
  }

  /** a is at least as late as b. */
  predicate AtLeast(a: Stamped, b: Stamped) {
    a.version > b.version || (a.version == b.version && CompareBytes(a.value, b.value) >= 0)
  }

  lemma LaterIsGreatest(a: Stamped, b: Stamped)
    ensures AtLeast(Later(a, b), a) && AtLeast(Later(a, b), b) && Later(a, b) in {a, b}
    ensures AtLeast(a, b) && AtLeast(b, a) <==> a == b
    ensures AtLeast(a, b) || AtLeast(b, a)
  {
    hide CompareBytes, CompareCodePoints;
    ByteOrderIsCodePointOrder(a.value, b.value);
    ByteOrderIsCodePointOrder(b.value, a.value);
    ByteOrderIsCodePointOrder(a.value, a.value);
    ByteOrderIsCodePointOrder(b.value, b.value);
    CompareFlips(a.value, b.value);
    CompareIsEquality(a.value, b.value);
    CompareIsEquality(a.value, a.value);
    CompareIsEquality(b.value, b.value);
  }

  lemma AtLeastChains(a: Stamped, b: Stamped, c: Stamped)
    requires AtLeast(a, b) && AtLeast(b, c)
    ensures AtLeast(a, c)
  {
    hide CompareBytes, CompareCodePoints;
    ByteOrderIsCodePointOrder(a.value, b.value);
    ByteOrderIsCodePointOrder(b.value, c.value);
    ByteOrderIsCodePointOrder(a.value, c.value);
    if a.version == b.version == c.version {
      CompareChains(a.value, b.value, c.value);
    }
  }

  /** The register's merge is a join, whatever the versions and the text. */
  lemma LaterIsJoin()
    ensures L.IsJoin(L.Lattice((_: Stamped) => true, Later))
  {
    hide Later, AtLeast;
    forall x, y
      ensures Later(x, y) == Later(y, x)
    {
      LaterIsGreatest(x, y);
      LaterIsGreatest(y, x);
      Unique(x, y, Later(x, y), Later(y, x));
    }
    forall x
      ensures Later(x, x) == x
    {
      LaterIsGreatest(x, x);
    }
    forall x, y, z
      ensures Later(x, Later(y, z)) == Later(Later(x, y), z)
    {
      LaterAssociates(x, y, z);
    }
  }

  /** The greatest of two is unique. */
  lemma Unique(x: Stamped, y: Stamped, a: Stamped, b: Stamped)
    requires a in {x, y} && b in {x, y} && AtLeast(a, x) && AtLeast(a, y) && AtLeast(b, x) && AtLeast(b, y)
    ensures a == b
  {
    hide AtLeast;
    LaterIsGreatest(a, b);
  }

  lemma LaterAssociates(x: Stamped, y: Stamped, z: Stamped)
    ensures Later(x, Later(y, z)) == Later(Later(x, y), z)
  {
    hide Later, AtLeast;
    var yz, xy := Later(y, z), Later(x, y);
    var a, b := Later(x, yz), Later(xy, z);
    LaterIsGreatest(y, z);
    LaterIsGreatest(x, y);
    LaterIsGreatest(x, yz);
    LaterIsGreatest(xy, z);
    AtLeastChains(a, yz, y);
    AtLeastChains(a, yz, z);
    AtLeastChains(b, xy, x);
    AtLeastChains(b, xy, y);
    LaterIsGreatest(a, b);
  }

  // ----- the latest write wins -----

  /** Folding the merge over slots among which w has the highest version yields w. */
  lemma {:induction false} FoldFindsLatest(w: Stamped, acc: Stamped, xs: seq<Stamped>, slots: seq<Val>, depth: nat)
    requires depth < MAX_EVAL_DEPTH && |slots| == |xs| && forall i :: 0 <= i < |xs| ==> slots[i] == ToVal(xs[i])
    requires w in xs || acc == w
    requires acc == w || acc.version < w.version
    requires forall i :: 0 <= i < |xs| ==> xs[i] == w || xs[i].version < w.version
    ensures FoldSlots(Register(), VFunc(CalleeFn("Merge"), []), ToVal(acc), slots, depth) == Ok(ToVal(w))
    decreases |xs|
  {
    hide Apply, CompareBytes, Register;
    if xs != [] {
      MergePicksLater(acc, xs[0], depth);
      FoldFindsLatest(w, Later(acc, xs[0]), xs[1..], slots[1..], depth);
    }
  }

  /** The highest version among slots, or acc. */
  function MaxVersion(acc: real, xs: seq<Stamped>): (m: real)
    ensures m >= acc && forall i :: 0 <= i < |xs| ==> m >= xs[i].version
    decreases |xs|
  {
    if xs == [] then acc else MaxVersion(if acc >= xs[0].version then acc else xs[0].version, xs[1..])
  }

  lemma VersionFold()
    ensures FoldProjection(Register(), FnRef("maxVer")) == Some(Projection(Max, ["version"])) && ParamsDistinct(Register())
  {
    assert [] + ["version"] == ["version"];
  }

  lemma VersionOf(x: Stamped)
    ensures ProjectVal(ToVal(x), ["version"]) == Some(VNum(x.version))
  {
    assert ["version"][1..] == [];
  }

  /** `reduce maxVer` over slots is their highest version. */
  lemma {:induction false} FoldFindsMax(acc: real, xs: seq<Stamped>, slots: seq<Val>, depth: nat)
    requires |slots| == |xs| && forall i :: 0 <= i < |xs| ==> slots[i] == ToVal(xs[i])
    requires depth < MAX_EVAL_DEPTH
    ensures FoldSlots(Register(), VFunc(CalleeFn("maxVer"), []), VNum(acc), slots, depth) == Ok(VNum(MaxVersion(acc, xs)))
    decreases |xs|
  {
    hide Apply, Register, ToVal;
    if xs != [] {
      VersionFold();
      VersionOf(xs[0]);
      FoldStep(Register(), FnRef("maxVer"), Projection(Max, ["version"]), VNum(acc), slots[0], depth);
      FoldFindsMax(if acc >= xs[0].version then acc else xs[0].version, xs[1..], slots[1..], depth);
    }
  }

  lemma ReduceMax(xs: seq<Stamped>, slots: seq<Val>, env: map<string, Val>)
    requires |slots| == |xs| && forall i :: 0 <= i < |xs| ==> slots[i] == ToVal(xs[i])
    requires "v" in env && env["v"] == VVec(slots)
    ensures Eval(Register(), Reduce(FnRef("maxVer"), NumLit(0.0), Var("v")), env, 1) == Ok(VNum(MaxVersion(0.0, xs)))
  {
    hide ToVal, MaxVersion, FoldSlots;
    var p, f := Register(), VFunc(CalleeFn("maxVer"), []);
    FoldFindsMax(0.0, xs, slots, 1);
    VarOf(p, "v", env, 1);
    RefValue(p, "maxVer", env, 1);
    assert Eval(p, NumLit(0.0), env, 1) == Ok(VNum(0.0));
    assert Arity(p, f) == 2;
  }

  lemma RefValue(p: Program, fn: string, env: map<string, Val>, depth: nat)
    requires depth <= MAX_EVAL_DEPTH && fn in p
    ensures Eval(p, FnRef(fn), env, depth) == Ok(VFunc(CalleeFn(fn), []))
  {
  }

  /** The body of NextX: one more than the highest version, with the text. */
  lemma NextBody(xs: seq<Stamped>, slots: seq<Val>, text: string, env: map<string, Val>)
    requires |slots| == |xs| && forall i :: 0 <= i < |xs| ==> slots[i] == ToVal(xs[i])
    requires "v" in env && env["v"] == VVec(slots) && "s" in env && env["s"] == VStr(text)
    ensures Eval(Register(), NEXT.body, env, 1) == Ok(ToVal(Stamped(1.0 + MaxVersion(0.0, xs), text)))
  {
    hide Eval, EvalArgs, MaxVersion, FoldSlots, Register;
    var p := Register();
    var reduce := Reduce(FnRef("maxVer"), NumLit(0.0), Var("v"));
    var args := [NumLit(1.0), reduce];
    ReduceMax(xs, slots, env);
    LitValue(p, 1.0, env, 1);
    TwoArgs(p, args, env, 1);
    PrimAppEval(p, Add, args, env, 1);
    VarOf(p, "s", env, 1);
    TwoInits(p, "version", App(PrimRef(Add), args), "value", Var("s"), env, 1,
      VNum(1.0 + MaxVersion(0.0, xs)), VStr(text));
  }

  lemma LitValue(p: Program, q: real, env: map<string, Val>, depth: nat)
    requires depth <= MAX_EVAL_DEPTH
    ensures Eval(p, NumLit(q), env, depth) == Ok(VNum(q))
  {
  }

  lemma TwoInits(p: Program, f: string, x: Expr, g: string, y: Expr, env: map<string, Val>, depth: nat, v: Val, w: Val)
    requires depth <= MAX_EVAL_DEPTH && f != g && !v.VFunc? && !w.VFunc?
    requires Eval(p, x, env, depth) == Ok(v) && Eval(p, y, env, depth) == Ok(w)
    ensures Eval(p, StructLit([FieldInit(f, x), FieldInit(g, y)]), env, depth) == Ok(VStruct(map[f := v, g := w]))
  {
    var inits := [FieldInit(f, x), FieldInit(g, y)];
    var rest := inits[1..];
    assert rest == [FieldInit(g, y)] && rest[1..] == [];
    assert EvalInits(p, rest[1..], env, depth) == Ok(map[]);
    assert EvalInits(p, rest, env, depth) == Ok(map[g := w]) by { assert map[g := w] + map[] == map[g := w]; }
    assert EvalInits(p, inits, env, depth) == Ok(map[f := v, g := w]) by {
      assert map[f := v] + map[g := w] == map[f := v, g := w];
    }
  }

  /** NextX's parameters, bound. */
  lemma NextEnv(slots: seq<Val>, text: string)
    ensures ParamNames(NEXT.params) == ["s", "v"]
    ensures var env := Bind(["s", "v"], [VStr(text), VVec(slots)]);
      "s" in env && env["s"] == VStr(text) && "v" in env && env["v"] == VVec(slots)
  {
    BindAt(["s", "v"], [VStr(text), VVec(slots)], 0);
    BindAt(["s", "v"], [VStr(text), VVec(slots)], 1);
  }

  /** NextX with its text supplied, applied to the vector. */
  lemma NextApplies(xs: seq<Stamped>, slots: seq<Val>, text: string)
    requires |slots| == |xs| && forall i :: 0 <= i < |xs| ==> slots[i] == ToVal(xs[i])
    ensures Apply(Register(), VFunc(CalleeFn("NextX"), [VStr(text)]), [VVec(slots)], 0)
      == Ok(ToVal(Stamped(1.0 + MaxVersion(0.0, xs), text)))
  {
    hide Eval, MaxVersion, ToVal, Bind, ParamNames;
    NextEnv(slots, text);
    assert [VStr(text)] + [VVec(slots)] == [VStr(text), VVec(slots)];
    NextBody(xs, slots, text, Bind(["s", "v"], [VStr(text), VVec(slots)]));
  }

  /** The update writes the text stamped one above every version it sees. */
  lemma SetStamps(xs: seq<Stamped>, slots: seq<Val>, text: string)
    requires |slots| == |xs| && forall i :: 0 <= i < |xs| ==> slots[i] == ToVal(xs[i])
    ensures UpdateVal(Register(), SET, Bind(["s"], [VStr(text)]), VVec(slots))
      == Ok(ToVal(Stamped(1.0 + MaxVersion(0.0, xs), text)))
  {
    hide EvalFn, Apply, MaxVersion, ToVal, Bind, Register;
    BindAt(["s"], [VStr(text)], 0);
    PartialNext(Register(), Bind(["s"], [VStr(text)]), text);
    NextApplies(xs, slots, text);
  }

  lemma PartialNext(p: Program, env: map<string, Val>, text: string)
    requires p == Register() && "s" in env && env["s"] == VStr(text)
    ensures EvalFn(p, App(FnRef("NextX"), [Var("s")]), env, 1) == Ok(VFunc(CalleeFn("NextX"), [VStr(text)]))
  {
    var args := [Var("s")];
    assert args[1..] == [] && EvalArgs(p, args[1..], env, 0) == Ok([]);
    VarOf(p, "s", env, 0);
    assert EvalArgs(p, args, env, 0) == Ok([VStr(text)] + []);
    assert [VStr(text)] + [] == [VStr(text)] && [] + [VStr(text)] == [VStr(text)];
    RefValue(p, "NextX", env, 0);
  }

  /** Reading a vector in which w has the highest version returns w's text. */
  lemma LatestReads(w: Stamped, xs: seq<Stamped>, slots: seq<Val>)
    requires |slots| == |xs| && forall i :: 0 <= i < |xs| ==> slots[i] == ToVal(xs[i])
    requires w in xs && w.version > 0.0 && forall i :: 0 <= i < |xs| ==> xs[i] == w || xs[i].version < w.version
    ensures Apply(Register(), VFunc(CalleeFn("LatestValue"), []), [VVec(slots)], 0) == Ok(VStr(w.value))
  {
    hide Eval, FoldSlots, ToVal;
    var p := Register();
    var names, all := ParamNames(LATEST.params), [VVec(slots)];
    assert names == ["v"] && [] + all == all;
    var env := Bind(names, all);
    BindAt(names, all, 0);
    FoldFindsLatest(w, Stamped(0.0, ""), xs, slots, 1);
    LatestBody(p, env, slots, w);
  }

  const NO_WRITE := StructLit([FieldInit("version", NumLit(0.0)), FieldInit("value", StrLit(""))])

  lemma NoWriteEval(p: Program, env: map<string, Val>)
    ensures Eval(p, NO_WRITE, env, 1) == Ok(ToVal(Stamped(0.0, "")))
  {
    LitValue(p, 0.0, env, 1);
    assert Eval(p, StrLit(""), env, 1) == Ok(VStr(""));
    TwoInits(p, "version", NumLit(0.0), "value", StrLit(""), env, 1, VNum(0.0), VStr(""));
  }

  /** `reduce` by the merge function, in an environment that holds the vector. */
  lemma ReduceLatest(p: Program, env: map<string, Val>, slots: seq<Val>, w: Stamped)
    requires p == Register() && "v" in env && env["v"] == VVec(slots)
    requires FoldSlots(p, VFunc(CalleeFn("Merge"), []), ToVal(Stamped(0.0, "")), slots, 1) == Ok(ToVal(w))
    ensures Eval(p, Reduce(FnRef("Merge"), NO_WRITE, Var("v")), env, 1) == Ok(ToVal(w))
  {
    hide FoldSlots, EvalInits, ToVal;
    NoWriteEval(p, env);
    VarOf(p, "v", env, 1);
    RefValue(p, "Merge", env, 1);
    assert Arity(p, VFunc(CalleeFn("Merge"), [])) == 2;
  }

  lemma LatestBody(p: Program, env: map<string, Val>, slots: seq<Val>, w: Stamped)
    requires p == Register() && "v" in env && env["v"] == VVec(slots)
    requires FoldSlots(p, VFunc(CalleeFn("Merge"), []), ToVal(Stamped(0.0, "")), slots, 1) == Ok(ToVal(w))
    ensures Eval(p, LATEST.body, env, 1) == Ok(VStr(w.value))
  {
    hide FoldSlots, Register;
    ReduceLatest(p, env, slots, w);
    ValueOf(p, Reduce(FnRef("Merge"), NO_WRITE, Var("v")), env, w);
  }

  lemma ValueOf(p: Program, e: Expr, env: map<string, Val>, w: Stamped)
    requires Eval(p, e, env, 1) == Ok(ToVal(w))
    ensures Eval(p, Field(e, "value"), env, 1) == Ok(VStr(w.value))
  {
  }

  /** A register state, slot by slot. */
  function Slots(xs: map<string, Stamped>): State {
    map k | k in xs :: ToVal(xs[k])
  }

  /** The slots of a register in an order. */
  function InOrder(xs: map<string, Stamped>, order: seq<string>): (r: seq<Stamped>)
    requires forall k :: k in order ==> k in xs
  {
    seq(|order|, i requires 0 <= i < |order| => xs[order[i]])
  }

  lemma EmptySlot()
    ensures ZeroSlot(SLOT_TYPE) == ToVal(Stamped(0.0, ""))
  {
    var fs := SLOT_TYPE.fields;
    var rest := fs[1..];
    assert rest == [ElemField("value", EStr)] && rest[1..] == [];
    assert ZeroFields(rest[1..]) == map[];
    assert ZeroFields(rest) == map["value" := VStr("")] + map[];
    assert ZeroFields(rest) == map["value" := VStr("")];
    assert ZeroFields(fs) == map["version" := VNum(0.0)] + map["value" := VStr("")];
    assert map["version" := VNum(0.0)] + map["value" := VStr("")] == map["version" := VNum(0.0), "value" := VStr("")];
  }

  lemma BindText(text: string, number: Option<real>)
    ensures BindParams(SET.params, [PText(Some(text), number)]) == Some([VStr(text)])
    ensures BindParams([], []) == Some([])
  {
    var vs := [PText(Some(text), number)];
    assert BindParam(SET.params[0].typ, vs[0]) == Some(VStr(text));
    assert BindParams(SET.params, vs).value == [VStr(text)];
    assert BindParams([], []).value == [];
  }

  /** The register with the own slot present. */
  function Full(xs: map<string, Stamped>, self: string): map<string, Stamped> {
    if self in xs then xs else xs[self := Stamped(0.0, "")]
  }

  lemma FullSlots(xs: map<string, Stamped>, self: string)
    ensures WithSelf(Slots(xs), self, SLOT_TYPE) == Slots(Full(xs, self))
  {
    EmptySlot();
  }

  /** What Set writes, on any register, visited in any order. */
  lemma SetWrites(xs: map<string, Stamped>, self: string, text: string, number: Option<real>, order: seq<string>)
    requires Enumerates(order, WithSelf(Slots(xs), self, SLOT_TYPE))
    ensures forall k :: k in order ==> k in Full(xs, self)
    ensures NextSlot(Register(), RegisterModel(), Slots(xs), self, "Set", [PText(Some(text), number)], order)
      == Ok(ToVal(Stamped(1.0 + MaxVersion(0.0, InOrder(Full(xs, self), order)), text)))
  {
    hide UpdateVal, ToVal, MaxVersion;
    FullSlots(xs, self);
    var full := Full(xs, self);
    var slots := SlotsIn(Slots(full), order);
    SetStamps(InOrder(full, order), slots, text);
    assert MethodNames(SET.params) == ["s"];
    BindText(text, number);
  }

  /**
    The latest write wins: whatever the register held, once a node that has seen it sets a
    text, the vector with that write reads as that text, whichever order its slots are visited in.
   */
  lemma LatestWriteWins(xs: map<string, Stamped>, self: string, text: string, number: Option<real>, o1: seq<string>,
    o2: seq<string>)
    requires forall k :: k in xs ==> xs[k].version >= 0.0
    requires Enumerates(o1, WithSelf(Slots(xs), self, SLOT_TYPE))
    requires Enumerates(o2,
      AfterApply(Register(), RegisterModel(), Slots(xs), self, "Set", [PText(Some(text), number)], o1))
    ensures QueryVal(Register(), Query([], FnRef("LatestValue")), [],
      AfterApply(Register(), RegisterModel(), Slots(xs), self, "Set", [PText(Some(text), number)], o1), o2)
      == Ok(VStr(text))
  {
    hide NextSlot, ToVal, Apply, EvalFn, Register, RegisterModel;
    SetWrites(xs, self, text, number, o1);
    var full := Full(xs, self);
    var w := Stamped(1.0 + MaxVersion(0.0, InOrder(full, o1)), text);
    var ys := full[self := w];
    var s' := AfterApply(Register(), RegisterModel(), Slots(xs), self, "Set", [PText(Some(text), number)], o1);
    assert s' == Slots(ys);
    StampIsHighest(xs, self, w, o1, o2);
    LatestReads(w, InOrder(ys, o2), SlotsIn(s', o2));
    ReadValue(SlotsIn(s', o2));
    BindText(text, number);
  }

  lemma ReadValue(slots: seq<Val>)
    ensures EvalFn(Register(), FnRef("LatestValue"), map[], 1) == Ok(VFunc(CalleeFn("LatestValue"), []))
  {
    RefValue(Register(), "LatestValue", map[], 0);
  }

  /** The new stamp is above every other slot, in any order the new vector is visited. */
  lemma StampIsHighest(xs: map<string, Stamped>, self: string, w: Stamped, o1: seq<string>, o2: seq<string>)
    requires forall k :: k in xs ==> xs[k].version >= 0.0
    requires forall k :: k in o1 <==> k in Full(xs, self)
    requires forall k :: k in o2 <==> k in Full(xs, self)
    requires w.version == 1.0 + MaxVersion(0.0, InOrder(Full(xs, self), o1))
    ensures var ys := InOrder(Full(xs, self)[self := w], o2);
      w in ys && w.version > 0.0 && forall i :: 0 <= i < |ys| ==> ys[i] == w || ys[i].version < w.version
  {
    hide MaxVersion;
    var full := Full(xs, self);
    var seen, ys := InOrder(full, o1), InOrder(full[self := w], o2);
    assert self in o2;
    var j :| 0 <= j < |o2| && o2[j] == self;
    assert ys[j] == w;
    forall i | 0 <= i < |ys|
      ensures ys[i] == w || ys[i].version < w.version
    {
      assert o2[i] in o2;
      if o2[i] != self {
        var k :| 0 <= k < |o1| && o1[k] == o2[i];
        assert seen[k] == ys[i];
      }
    }
  }
}
