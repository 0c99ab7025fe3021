/** The lattice replication runs on: the slots of an accepted model under its merge. */
module SlotLattices {
  import opened Syntax
  import opened Interp
  import opened TypeRules
  import opened Symbolic
  import opened Convergence
  import opened Vectors
  import opened ReplicaStates
  import L = Lattices

  /** Slots of the element type under the model's merge. */
  ghost function MergeLattice(p: Program, m: Model): L.Lattice<Val> {
    L.Lattice(
      v => HasType(v, VElem(m.elem)),
      (x, y) => match MergeVals(p, m.merge, x, y) case Ok(v) => v case _ => x)
  }

  /** An accepted model's merge is the join replication asks for. */
  lemma AcceptedIsJoin(solver: Solver, sig: Sigs, p: Program, m: Model)
    requires AcceptedTyped(solver, sig, p, m)
    ensures L.IsJoin(MergeLattice(p, m))
  {
    hide AcceptedTyped, MergeVals, Fits, VElem;
    var l := MergeLattice(p, m);
    forall x, y, z | l.dom(x) && l.dom(y) && l.dom(z)
      ensures l.join(x, l.join(y, z)) == l.join(l.join(x, y), z)
    {
      JoinOfThree(solver, sig, p, m, x, y, z);
    }
    forall x, y | l.dom(x) && l.dom(y)
      ensures l.dom(l.join(x, y)) && l.join(x, y) == l.join(y, x)
    {
      JoinOfThree(solver, sig, p, m, x, y, x);
    }
    forall x | l.dom(x)
      ensures l.join(x, x) == x
    {
      JoinOfThree(solver, sig, p, m, x, x, x);
    }
  }

  lemma JoinOfThree(solver: Solver, sig: Sigs, p: Program, m: Model, x: Val, y: Val, z: Val)
    requires AcceptedTyped(solver, sig, p, m)
    requires HasType(x, VElem(m.elem)) && HasType(y, VElem(m.elem)) && HasType(z, VElem(m.elem))
    ensures var l := MergeLattice(p, m);
      l.dom(l.join(x, y)) && l.join(x, y) == l.join(y, x) && l.join(x, x) == x
      && l.join(x, l.join(y, z)) == l.join(l.join(x, y), z)
  {
    hide AcceptedTyped, MergeVals, Fits, VElem;
    MergeIsTypedJoin(solver, sig, p, m, x, y, z);
  }

  /** Merging typed states slot by slot is joining documents. */
  lemma MergedIsJoin(solver: Solver, sig: Sigs, p: Program, m: Model, a: State, b: State)
    requires AcceptedTyped(solver, sig, p, m) && Typed(a, m.elem) && Typed(b, m.elem)
    ensures Merged(p, m.merge, a, b) == Ok(L.Join(MergeLattice(p, m), a, b))
  {
    hide AcceptedTyped, MergeVals, Fits, Merged;
    MergeTyped(solver, sig, p, m, a, b);
    var r, j := Merged(p, m.merge, a, b).value, L.Join(MergeLattice(p, m), a, b);
    forall k
      ensures k in r <==> k in j
      ensures k in r ==> r[k] == j[k]
    {
      MergedAt(p, m.merge, a, b, r, k);
    }
    assert r == j;
  }

  /** What an accepted update writes is a value the protocol lets a node write. */
  lemma UpdateIsInflationaryStep(solver: Solver, sig: Sigs, p: Program, m: Model, s: State, self: string, action: string,
    vs: seq<Payload>, order: seq<string>)
    requires AcceptedTyped(solver, sig, p, m) && Typed(s, m.elem) && Enumerates(order, WithSelf(s, self, m.elem))
    requires action in m.updates && BindParams(m.updates[action].params, vs).Some?
    ensures var l, h := MergeLattice(p, m), NextSlot(p, m, s, self, action, vs, order);
      h.Ok? && l.dom(h.value) && (self in s ==> L.Leq(l, s[self], h.value))
  {
    hide AcceptedTyped, MergeVals, Fits, Merged, NextSlot, BindParams, VElem;
    UpdateGrows(solver, sig, p, m, s, self, action, vs, order);
    var h := NextSlot(p, m, s, self, action, vs, order).value;
    var s' := s[self := h];
    MergedAt(p, m.merge, s, s', s', self);
  }
}
