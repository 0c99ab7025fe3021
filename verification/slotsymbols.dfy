/**
  Symbolic slots against typed runtime slots: the valuation that gives a slot's
  constants its leaves, and how a true obligation becomes equality of values.
 */
module SlotSymbols {
  import opened Syntax
  import opened Interp
  import opened TypeRules
  import opened TypeSound
  import opened Symbolic
  import opened LowerCorrect
  import opened LowerShape

  // ----- symbolic slots and typed values -----

  /** The number at leaf `path` of value w of element type t. */
  function LeafNum(t: ElemT, w: Val, path: seq<nat>): real
    decreases t
  {
    match t
    case ENum(_) => if path == [] && w.VNum? then w.num else 0.0
    case EStr => 0.0
    case EStruct(fs) =>
      if path != [] && path[0] < |fs| && w.VStruct? && fs[path[0]].name in w.fields
      then LeafNum(fs[path[0]].typ, w.fields[fs[path[0]].name], path[1..]) else 0.0
  }

  function LeafStr(t: ElemT, w: Val, path: seq<nat>): string
    decreases t
  {
    match t
    case ENum(_) => ""
    case EStr => if path == [] && w.VStr? then w.str else ""
    case EStruct(fs) =>
      if path != [] && path[0] < |fs| && w.VStruct? && fs[path[0]].name in w.fields
      then LeafStr(fs[path[0]].typ, w.fields[fs[path[0]].name], path[1..]) else ""
  }

  /** The valuation that gives each root its slot value and each parameter its payload. */
  function SlotValuation(t: ElemT, roots: map<string, Val>, params: seq<Val>): Valuation {
    Valuation(
      (n: Name) =>
        match n
        case Leaf(root, path) => if root in roots then LeafNum(t, roots[root], path) else 0.0
        case ParamVar(i) => if i < |params| && params[i].VNum? then params[i].num else 0.0
        case ReduceVar(_) => 0.0,
      (n: Name) =>
        match n
        case Leaf(root, path) => if root in roots then LeafStr(t, roots[root], path) else ""
        case ParamVar(i) => if i < |params| && params[i].VStr? then params[i].str else ""
        case ReduceVar(_) => "",
      [])
  }

  /** v gives the leaves of w to the constants below root/path. */
  ghost predicate Gives(v: Valuation, root: string, path: seq<nat>, t: ElemT, w: Val) {
    forall rest :: v.nums(Leaf(root, path + rest)) == LeafNum(t, w, rest)
      && v.strs(Leaf(root, path + rest)) == LeafStr(t, w, rest)
  }

  predicate ElemOk(t: ElemT) {
    ValueType(VElem(t))
  }

  function ElemNames(fs: seq<ElemField>): set<string> {
    set i | 0 <= i < |fs| :: fs[i].name
  }

  lemma {:induction false} SymFieldsKeys(root: string, path: seq<nat>, fs: seq<ElemField>, from: nat)
    ensures SymFields(root, path, fs, from).Keys == ElemNames(fs)
  {
    hide SymOf;
    if fs != [] {
      SymFieldsKeys(root, path, fs[1..], from + 1);
      assert ElemNames(fs) == {fs[0].name} + ElemNames(fs[1..]) by {
        assert fs[0].name in ElemNames(fs);
        forall x | x in ElemNames(fs[1..])
          ensures x in ElemNames(fs)
        {
          var i :| 0 <= i < |fs| - 1 && fs[1..][i].name == x;
          assert fs[i + 1].name == x;
        }
        forall x | x in ElemNames(fs) && x != fs[0].name
          ensures x in ElemNames(fs[1..])
        {
          var i :| 0 <= i < |fs| && fs[i].name == x;
          assert fs[1..][i - 1].name == x;
        }
      }
    }
  }

  lemma {:induction false} SymFieldsAt(root: string, path: seq<nat>, fs: seq<ElemField>, from: nat, i: nat)
    requires i < |fs| && forall j, k :: 0 <= j < k < |fs| ==> fs[j].name != fs[k].name
    ensures var m := SymFields(root, path, fs, from);
      fs[i].name in m && m[fs[i].name] == SymOf(root, path + [from + i], fs[i].typ)
  {
    hide SymOf, ElemNames;
    SymFieldsKeys(root, path, fs[1..], from + 1);
    if i > 0 {
      SymFieldsAt(root, path, fs[1..], from + 1, i - 1);
      assert fs[i] == fs[1..][i - 1] && from + i == from + 1 + (i - 1);
    } else {
      FirstNameOnce(fs);
    }
  }

  lemma FirstNameOnce(fs: seq<ElemField>)
    requires fs != [] && forall j, k :: 0 <= j < k < |fs| ==> fs[j].name != fs[k].name
    ensures fs[0].name !in ElemNames(fs[1..])
  {
  }

  /** The symbol of a slot stands for the value the valuation gives it, has the element's shape and no reduce in it. */
  lemma {:induction false} SymOfRel(root: string, path: seq<nat>, t: ElemT, w: Val, v: Valuation)
    requires ElemOk(t) && Fits(false, w, VElem(t)) && Gives(v, root, path, t, w)
    ensures Rel(SymOf(root, path, t), w, v) && Shape(SymOf(root, path, t), VElem(t)) && Older(SymOf(root, path, t), 0)
    decreases t
  {
    if t.EStruct? {
      StructSymRel(root, path, t, w, v);
    } else {
      GivesHere(v, root, path, t, w);
    }
  }

  lemma {:induction false} StructSymRel(root: string, path: seq<nat>, t: ElemT, w: Val, v: Valuation)
    requires t.EStruct? && ElemOk(t) && Fits(false, w, VElem(t)) && Gives(v, root, path, t, w)
    ensures Rel(SymOf(root, path, t), w, v) && Shape(SymOf(root, path, t), VElem(t)) && Older(SymOf(root, path, t), 0)
    decreases t, 0
  {
    hide *;
    var fs := t.fields;
    StructElem(false, t, w);
    var s := StructSym(root, path, t);
    forall i | 0 <= i < |fs|
      ensures fs[i].name in s.fields && Rel(s.fields[fs[i].name], w.fields[fs[i].name], v)
      ensures Shape(s.fields[fs[i].name], VElem(fs[i].typ)) && Older(s.fields[fs[i].name], 0)
    {
      GivesField(v, root, path, fs, w, i);
      SymOfRel(root, path + [i], fs[i].typ, w.fields[fs[i].name], v);
    }
    StructRel(s, fs, w, v);
  }

  /** The symbol of a struct slot, field by field. */
  lemma StructSym(root: string, path: seq<nat>, t: ElemT) returns (s: Sym)
    requires t.EStruct? && forall j, k :: 0 <= j < k < |t.fields| ==> t.fields[j].name != t.fields[k].name
    ensures s == SymOf(root, path, t) && s.SStruct? && s.fields.Keys == ElemNames(t.fields)
    ensures forall i :: 0 <= i < |t.fields| ==>
      t.fields[i].name in s.fields && s.fields[t.fields[i].name] == SymOf(root, path + [i], t.fields[i].typ)
  {
    hide SymFields, ElemNames;
    s := SymOf(root, path, t);
    SymFieldsKeys(root, path, t.fields, 0);
    forall i | 0 <= i < |t.fields|
      ensures t.fields[i].name in s.fields && s.fields[t.fields[i].name] == SymOf(root, path + [i], t.fields[i].typ)
    {
      SymFieldsAt(root, path, t.fields, 0, i);
    }
  }

  /** A typed struct value, field by field. */
  lemma StructElem(signed: bool, t: ElemT, w: Val)
    requires t.EStruct? && ElemOk(t) && Fits(signed, w, VElem(t))
    ensures w.VStruct? && |w.fields| == |t.fields|
    ensures forall i :: 0 <= i < |t.fields| ==>
      t.fields[i].name in w.fields && ElemOk(t.fields[i].typ)
      && Fits(signed, w.fields[t.fields[i].name], VElem(t.fields[i].typ))
    ensures forall i, j :: 0 <= i < j < |t.fields| ==> t.fields[i].name != t.fields[j].name
    ensures w.fields.Keys == ElemNames(t.fields)
  {
    var gs := VElem(t).fields;
    assert forall i :: 0 <= i < |t.fields| ==> gs[i] == TypedField(t.fields[i].name, VElem(t.fields[i].typ));
    TypedKeys(signed, w, gs);
    assert FieldNames(gs) == ElemNames(t.fields);
  }

  lemma StructRel(s: Sym, fs: seq<ElemField>, w: Val, v: Valuation)
    requires s.SStruct? && s.fields.Keys == ElemNames(fs) && w.VStruct?
    requires forall i :: 0 <= i < |fs| ==>
      fs[i].name in w.fields && Rel(s.fields[fs[i].name], w.fields[fs[i].name], v)
      && Shape(s.fields[fs[i].name], VElem(fs[i].typ)) && Older(s.fields[fs[i].name], 0)
    ensures Rel(s, w, v) && Shape(s, VElem(EStruct(fs))) && Older(s, 0)
  {
    var gs := VElem(EStruct(fs)).fields;
    assert forall i :: 0 <= i < |fs| ==> gs[i] == TypedField(fs[i].name, VElem(fs[i].typ));
    assert s.fields.Keys == FieldNames(gs);
  }

  lemma GivesHere(v: Valuation, root: string, path: seq<nat>, t: ElemT, w: Val)
    requires Gives(v, root, path, t, w)
    ensures v.nums(Leaf(root, path)) == LeafNum(t, w, []) && v.strs(Leaf(root, path)) == LeafStr(t, w, [])
  {
    var rest: seq<nat> := [];
    assert path + rest == path;
    assert v.nums(Leaf(root, path + rest)) == LeafNum(t, w, rest);
  }

  lemma GivesField(v: Valuation, root: string, path: seq<nat>, fs: seq<ElemField>, w: Val, i: nat)
    requires Gives(v, root, path, EStruct(fs), w) && i < |fs| && w.VStruct? && fs[i].name in w.fields
    ensures Gives(v, root, path + [i], fs[i].typ, w.fields[fs[i].name])
  {
    forall rest: seq<nat>
      ensures v.nums(Leaf(root, path + [i] + rest)) == LeafNum(fs[i].typ, w.fields[fs[i].name], rest)
      ensures v.strs(Leaf(root, path + [i] + rest)) == LeafStr(fs[i].typ, w.fields[fs[i].name], rest)
    {
      var full := [i] + rest;
      assert path + [i] + rest == path + full && full[1..] == rest;
      assert v.nums(Leaf(root, path + full)) == LeafNum(EStruct(fs), w, full);
    }
  }

  /** The declarations of a slot's constants hold when the slot has its type. */
  lemma {:induction false} DeclsHold(root: string, path: seq<nat>, t: ElemT, w: Val, v: Valuation)
    requires ElemOk(t) && HasType(w, VElem(t)) && Gives(v, root, path, t, w)
    ensures Meets(DeclsOf(root, path, t), v)
    decreases t, 1, 0
  {
    match t
    case ENum(_) => GivesHere(v, root, path, t, w);
    case EStr =>
    case EStruct(fs) =>
      StructElem(true, t, w);
      forall i | 0 <= i < |fs|
        ensures Gives(v, root, path + [i], fs[i].typ, w.fields[fs[i].name])
      {
        GivesField(v, root, path, fs, w, i);
      }
      DeclFieldsHold(root, path, t, 0, w, v);
  }

  lemma {:induction false} DeclFieldsHold(root: string, path: seq<nat>, t: ElemT, from: nat, w: Val, v: Valuation)
    requires t.EStruct? && from <= |t.fields| && w.VStruct?
    requires forall i :: 0 <= i < |t.fields| ==>
      ElemOk(t.fields[i].typ) && t.fields[i].name in w.fields
      && HasType(w.fields[t.fields[i].name], VElem(t.fields[i].typ))
      && Gives(v, root, path + [i], t.fields[i].typ, w.fields[t.fields[i].name])
    ensures Meets(DeclFields(root, path, t.fields[from..], from), v)
    decreases t, 0, |t.fields| - from
  {
    var fs := t.fields;
    if from < |fs| {
      assert fs[from..][0] == fs[from] && fs[from..][1..] == fs[from + 1..];
      DeclsHold(root, path + [from], fs[from].typ, w.fields[fs[from].name], v);
      DeclFieldsHold(root, path, t, from + 1, w, v);
    }
  }

  lemma SlotValuationGives(t: ElemT, roots: map<string, Val>, params: seq<Val>, root: string)
    requires root in roots
    ensures Gives(SlotValuation(t, roots, params), root, [], t, roots[root])
  {
    forall rest: seq<nat>
      ensures [] + rest == rest
    {
    }
  }

  // ----- from a goal to runtime equality -----

  /** Two values of the element type's shape that stand for the two sides of a true obligation are equal. */
  lemma {:induction false} GoalEquality(l: Sym, r: Sym, x: Val, y: Val, t: ElemT, v: Valuation)
    requires LeavesSorted(l, r) && LeavesEqual(l, r, v) && Rel(l, x, v) && Rel(r, y, v)
    requires ElemOk(t) && Fits(false, x, VElem(t)) && Fits(false, y, VElem(t)) && Shape(l, VElem(t))
    ensures x == y
    decreases t
  {
    if t.EStruct? {
      StructEquality(l, r, x, y, t, v);
    } else {
      ScalarEquality(l, r, x, y, t, v);
    }
  }

  lemma {:induction false} StructEquality(l: Sym, r: Sym, x: Val, y: Val, t: ElemT, v: Valuation)
    requires LeavesSorted(l, r) && LeavesEqual(l, r, v) && Rel(l, x, v) && Rel(r, y, v) && t.EStruct?
    requires ElemOk(t) && Fits(false, x, VElem(t)) && Fits(false, y, VElem(t)) && Shape(l, VElem(t))
    ensures x == y
    decreases t, 0
  {
    hide Rel, Shape, Fits, LeavesSorted, LeavesEqual, ElemOk, VElem;
    var fs := t.fields;
    StructElem(false, t, x);
    StructElem(false, t, y);
    ShapeElem(l, t);
    LeavesOf(l, r, x, y, fs, v);
    forall k | k in x.fields
      ensures x.fields[k] == y.fields[k]
    {
      var i :| 0 <= i < |fs| && fs[i].name == k;
      GoalEquality(l.fields[k], r.fields[k], x.fields[k], y.fields[k], fs[i].typ, v);
    }
    assert x.fields == y.fields;
  }

  lemma ScalarEquality(l: Sym, r: Sym, x: Val, y: Val, t: ElemT, v: Valuation)
    requires LeavesSorted(l, r) && LeavesEqual(l, r, v) && Rel(l, x, v) && Rel(r, y, v) && !t.EStruct?
    requires Fits(false, x, VElem(t)) && Fits(false, y, VElem(t))
    ensures x == y
  {
  }

  lemma ShapeElem(s: Sym, t: ElemT)
    requires t.EStruct? && Shape(s, VElem(t))
    ensures s.SStruct?
    ensures forall i :: 0 <= i < |t.fields| ==>
      t.fields[i].name in s.fields && Shape(s.fields[t.fields[i].name], VElem(t.fields[i].typ))
  {
    var gs := VElem(t).fields;
    assert forall i :: 0 <= i < |t.fields| ==> gs[i] == TypedField(t.fields[i].name, VElem(t.fields[i].typ));
  }

  lemma LeavesOf(l: Sym, r: Sym, x: Val, y: Val, fs: seq<ElemField>, v: Valuation)
    requires LeavesSorted(l, r) && LeavesEqual(l, r, v) && Rel(l, x, v) && Rel(r, y, v)
    requires l.SStruct? && x.VStruct? && y.VStruct?
    requires forall i :: 0 <= i < |fs| ==> fs[i].name in l.fields
    ensures forall i :: 0 <= i < |fs| ==>
      var k := fs[i].name;
      r.SStruct? && k in r.fields && k in x.fields && k in y.fields && LeavesSorted(l.fields[k], r.fields[k])
      && LeavesEqual(l.fields[k], r.fields[k], v) && Rel(l.fields[k], x.fields[k], v) && Rel(r.fields[k], y.fields[k], v)
  {
  }

  /** A typed struct has exactly the declared fields. */
  lemma TypedKeys(signed: bool, x: Val, gs: seq<TypedField>)
    requires Fits(signed, x, TStruct(gs)) && ValueType(TStruct(gs))
    ensures x.VStruct? && x.fields.Keys == FieldNames(gs)
  {
    FieldNamesCard(gs);
    assert FieldNames(gs) <= x.fields.Keys;
    SubsetEqual(FieldNames(gs), x.fields.Keys);
  }
}
