/**
  Exactly when one checker type contains every value of another, that the checker's own
  assignability decides it, and with it exactly when unifying two vector types, which keeps
  the first, loses no value of the second.
 */
module Inclusion {
  import opened Options
  import opened NumTypes
  import opened Syntax
  import opened Interp
  import opened TypeRules
  import opened TypeSound
  import opened LowerShape
  import opened SlotSymbols

  /** Every value of b is a value of a: field by field, element by element, with zero in every numeric type. */
  predicate Includes(a: Type, b: Type)
    decreases b
  {
    match (a, b)
    case (TNum(n), TNum(m)) => Sub(m, n) || (m.sign.SZero? && SubSign(SZero, n.sign))
    case (TStruct(gs), TStruct(fs)) =>
      |fs| == |gs|
      && forall i :: 0 <= i < |fs| ==>
        var g := FindField(gs, fs[i].name); g.Some? && Includes(g.value, fs[i].typ)
    case (TVector(x), TVector(y)) => Includes(x, y)
    case _ => a == b
  }

  // ----- every value type has a value -----

  function Inhabitant(t: Type): Val {
    match t
    case TNum(_) => VNum(0.0)
    case TBool => VBool(false)
    case TStruct(fs) => VStruct(InhabitantFields(fs))
    case TVector(_) => VVec([])
    case _ => VStr("")
  }

  function InhabitantFields(fs: seq<TypedField>): map<string, Val> {
    if fs == [] then map[]
    else
      assert fs[0].typ < fs[0];
      map[fs[0].name := Inhabitant(fs[0].typ)] + InhabitantFields(fs[1..])
  }

  lemma {:induction false} Inhabited(t: Type)
    requires ValueType(t)
    ensures HasType(Inhabitant(t), t)
    decreases t
  {
    match t
    case TNum(_) => assert IsInt(0.0);
    case TStruct(fs) =>
      FieldsInhabited(fs);
      FieldsTypedStruct(true, InhabitantFields(fs), fs);
    case _ =>
  }

  lemma {:induction false} FieldsInhabited(fs: seq<TypedField>)
    requires ValueType(TStruct(fs))
    ensures FieldsTyped(true, InhabitantFields(fs), fs)
    decreases fs
  {
    hide Fits, Inhabitant;
    if fs == [] {
      FieldsTypedNil(true);
    } else {
      var f, rest := fs[0], fs[1..];
      assert f.typ < f && ValueType(f.typ) && ValueType(TStruct(rest));
      Inhabited(f.typ);
      FieldsInhabited(rest);
      assert forall i :: 0 <= i < |rest| ==> rest[i] == fs[i + 1];
      FieldsTypedCons(true, f, Inhabitant(f.typ), InhabitantFields(rest), rest);
      assert [f] + rest == fs;
    }
  }

  // ----- both directions -----

  lemma {:induction false} IncludedSound(a: Type, b: Type, v: Val)
    requires ValueType(a) && ValueType(b) && Includes(a, b) && HasType(v, b)
    ensures HasType(v, a)
    decreases b
  {
    match (a, b)
    case (TNum(n), TNum(m)) => SubIsInclusion(m, n);
    case (TStruct(gs), TStruct(fs)) => StructIncluded(gs, fs, v);
    case (TVector(x), TVector(y)) =>
      forall i | 0 <= i < |v.slots|
        ensures HasType(v.slots[i], x)
      {
        IncludedSound(x, y, v.slots[i]);
      }
    case _ =>
  }

  lemma {:induction false} StructIncluded(gs: seq<TypedField>, fs: seq<TypedField>, v: Val)
    requires ValueType(TStruct(gs)) && ValueType(TStruct(fs)) && Includes(TStruct(gs), TStruct(fs))
    requires HasType(v, TStruct(fs))
    ensures HasType(v, TStruct(gs))
    decreases TStruct(fs), 0
  {
    IncludedNames(gs, fs);
    forall j | 0 <= j < |gs|
      ensures gs[j].name in v.fields && HasType(v.fields[gs[j].name], gs[j].typ)
    {
      NameIn(gs, j);
      var i :| 0 <= i < |fs| && fs[i].name == gs[j].name;
      FindFieldAt(gs, j);
      IncludedSound(gs[j].typ, fs[i].typ, v.fields[fs[i].name]);
    }
  }

  /** Equally many fields, each of fs found in gs: the names are the same. */
  lemma IncludedNames(gs: seq<TypedField>, fs: seq<TypedField>)
    requires ValueType(TStruct(gs)) && ValueType(TStruct(fs)) && |fs| == |gs|
    requires forall i :: 0 <= i < |fs| ==> FindField(gs, fs[i].name).Some?
    ensures FieldNames(fs) == FieldNames(gs)
  {
    SameNames(gs, fs);
  }

  /** A value of b that is not one of a. */
  lemma {:induction false} Separates(a: Type, b: Type) returns (v: Val)
    requires ValueType(a) && ValueType(b) && !Includes(a, b)
    ensures HasType(v, b) && !HasType(v, a)
    decreases b
  {
    Inhabited(b);
    v := Inhabitant(b);
    if a.TNum? && b.TNum? {
      SubIsInclusion(b.num, a.num);
      var q :| Allows(b.num, q) && !Allows(a.num, q);
      v := VNum(q);
    } else if a.TStruct? && b.TStruct? {
      v := StructSeparates(a.fields, b.fields);
    } else if a.TVector? && b.TVector? {
      var x := Separates(a.elem, b.elem);
      v := VVec([x]);
      assert v.slots[0] == x;
    }
  }

  lemma {:induction false} StructSeparates(gs: seq<TypedField>, fs: seq<TypedField>) returns (v: Val)
    requires ValueType(TStruct(gs)) && ValueType(TStruct(fs)) && !Includes(TStruct(gs), TStruct(fs))
    ensures HasType(v, TStruct(fs)) && !HasType(v, TStruct(gs))
    decreases TStruct(fs), 0
  {
    Inhabited(TStruct(fs));
    v := Inhabitant(TStruct(fs));
    TypedKeys(true, v, fs);
    if |fs| == |gs| {
      var i :| 0 <= i < |fs|
        && !(FindField(gs, fs[i].name).Some? && Includes(FindField(gs, fs[i].name).value, fs[i].typ));
      NameIn(fs, i);
      if FindField(gs, fs[i].name).None? {
        if HasType(v, TStruct(gs)) {
          TypedKeys(true, v, gs);
        }
      } else {
        var j :| 0 <= j < |gs| && gs[j].name == fs[i].name && gs[j].typ == FindField(gs, fs[i].name).value;
        var x := Separates(gs[j].typ, fs[i].typ);
        v := Replaced(fs, v, i, x);
        assert !HasType(v.fields[gs[j].name], gs[j].typ);
      }
    }
  }

  /** Another value of the right type may stand in any field. */
  lemma Replaced(fs: seq<TypedField>, v: Val, i: nat, x: Val) returns (w: Val)
    requires ValueType(TStruct(fs)) && HasType(v, TStruct(fs)) && i < |fs| && HasType(x, fs[i].typ)
    ensures w.VStruct? && HasType(w, TStruct(fs)) && fs[i].name in w.fields && w.fields[fs[i].name] == x
  {
    w := VStruct(v.fields[fs[i].name := x]);
    assert |w.fields| == |v.fields| by {
      assert w.fields.Keys == v.fields.Keys;
      assert |w.fields.Keys| == |w.fields| && |v.fields.Keys| == |v.fields|;
    }
  }

  /** Includes is inclusion of values, in both directions. */
  lemma IncludesExactly(a: Type, b: Type)
    requires ValueType(a) && ValueType(b)
    ensures Includes(a, b) <==> forall v :: HasType(v, b) ==> HasType(v, a)
  {
    hide Includes, Fits, ValueType;
    if Includes(a, b) {
      forall v | HasType(v, b)
        ensures HasType(v, a)
      {
        IncludedSound(a, b, v);
      }
    } else {
      var v := Separates(a, b);
    }
  }

  /** No number in the type is a rational known to be zero: the one type whose values the subtype order misplaces. */
  predicate NoRationalZero(t: Type) {
    match t
    case TNum(n) => n != NumType(DRat, SZero)
    case TStruct(fs) => forall i :: 0 <= i < |fs| ==> NoRationalZero(fs[i].typ)
    case TVector(elem) => NoRationalZero(elem)
    case _ => true
  }

  lemma {:induction false} IncludedSubType(a: Type, b: Type)
    requires ValueType(a) && ValueType(b) && Includes(a, b) && NoRationalZero(b)
    ensures SubType(b, a)
    decreases b
  {
    match (a, b)
    case (TStruct(gs), TStruct(fs)) => IncludedSubStruct(gs, fs);
    case (TVector(x), TVector(y)) => IncludedSubType(x, y);
    case _ =>
  }

  lemma {:induction false} IncludedSubStruct(gs: seq<TypedField>, fs: seq<TypedField>)
    requires ValueType(TStruct(gs)) && ValueType(TStruct(fs)) && Includes(TStruct(gs), TStruct(fs))
    requires NoRationalZero(TStruct(fs))
    ensures SubType(TStruct(fs), TStruct(gs))
    decreases TStruct(fs), 0
  {
    IncludedNames(gs, fs);
    forall j | 0 <= j < |gs|
      ensures FindField(fs, gs[j].name).Some? && SubType(FindField(fs, gs[j].name).value, gs[j].typ)
    {
      NameIn(gs, j);
      var i :| 0 <= i < |fs| && fs[i].name == gs[j].name;
      FindFieldAt(gs, j);
      FindFieldAt(fs, i);
      IncludedSubType(gs[j].typ, fs[i].typ);
    }
  }

  /**
    The checker's assignability is inclusion of values: it never claims too much, and it misses
    an inclusion only where a rational known to be zero is involved.
   */
  lemma SubTypeExactly(a: Type, b: Type)
    requires ValueType(a) && ValueType(b)
    ensures SubType(b, a) ==> forall v :: HasType(v, b) ==> HasType(v, a)
    ensures NoRationalZero(b) ==> (SubType(b, a) <==> forall v :: HasType(v, b) ==> HasType(v, a))
  {
    hide Includes, Fits, ValueType, SubType, NoRationalZero;
    if SubType(b, a) {
      forall v | HasType(v, b)
        ensures HasType(v, a)
      {
        SubTypeSound(true, v, b, a);
      }
    }
    IncludesExactly(a, b);
    if NoRationalZero(b) && Includes(a, b) {
      IncludedSubType(a, b);
    }
  }

  /**
    Unifying two vector types keeps the first unread: the result holds every value of the
    second exactly when the first element type includes the second.
   */
  lemma UnifyVectorsExactly(x: Type, y: Type)
    requires ValueType(x) && ValueType(y)
    ensures Unify(TVector(x), TVector(y)) == Some(TVector(x))
    ensures (forall v :: HasType(v, TVector(y)) ==> HasType(v, TVector(x))) <==> Includes(x, y)
  {
    IncludesExactly(TVector(x), TVector(y));
  }
}
