/**
  What replication needs of a slot: a join on a domain of values. Documents map node
  ids to slots and are joined slot by slot, an absent slot being below every other.
 */
module Lattices {

  datatype Lattice<!V> = Lattice(dom: V -> bool, join: (V, V) -> V)

  /** On its domain the join is closed, commutative, associative and idempotent. */
  ghost predicate IsJoin<V(!new)>(l: Lattice<V>) {
    (forall x, y :: l.dom(x) && l.dom(y) ==> l.dom(l.join(x, y)) && l.join(x, y) == l.join(y, x))
    && (forall x, y, z :: l.dom(x) && l.dom(y) && l.dom(z) ==> l.join(x, l.join(y, z)) == l.join(l.join(x, y), z))
    && forall x :: l.dom(x) ==> l.join(x, x) == x
  }

  predicate Leq<V(==)>(l: Lattice<V>, x: V, y: V) {
    l.join(x, y) == y
  }

  type Doc<V> = map<string, V>

  predicate InDom<V>(l: Lattice<V>, a: Doc<V>) {
    forall k :: k in a ==> l.dom(a[k])
  }

  function Join<V>(l: Lattice<V>, a: Doc<V>, b: Doc<V>): Doc<V> {
    map k | k in a.Keys + b.Keys ::
      if k !in b then a[k] else if k !in a then b[k] else l.join(a[k], b[k])
  }

  predicate DocLeq<V(==)>(l: Lattice<V>, a: Doc<V>, b: Doc<V>) {
    forall k :: k in a ==> k in b && Leq(l, a[k], b[k])
  }

  lemma LeqReflexive<V(!new)>(l: Lattice<V>, x: V)
    requires IsJoin(l) && l.dom(x)
    ensures Leq(l, x, x)
  {
  }

  lemma LeqTransitive<V(!new)>(l: Lattice<V>, x: V, y: V, z: V)
    requires IsJoin(l) && l.dom(x) && l.dom(y) && l.dom(z) && Leq(l, x, y) && Leq(l, y, z)
    ensures Leq(l, x, z)
  {
    assert l.join(x, l.join(y, z)) == l.join(l.join(x, y), z);
  }

  lemma LeqAntisymmetric<V(!new)>(l: Lattice<V>, x: V, y: V)
    requires IsJoin(l) && l.dom(x) && l.dom(y) && Leq(l, x, y) && Leq(l, y, x)
    ensures x == y
  {
  }

  /** The join of two values is their least upper bound. */
  lemma JoinLub<V(!new)>(l: Lattice<V>, x: V, y: V, z: V)
    requires IsJoin(l) && l.dom(x) && l.dom(y) && l.dom(z)
    ensures Leq(l, x, l.join(x, y)) && Leq(l, y, l.join(x, y))
    ensures Leq(l, x, z) && Leq(l, y, z) ==> Leq(l, l.join(x, y), z)
  {
    assert l.join(x, l.join(x, y)) == l.join(l.join(x, x), y);
    assert l.join(y, l.join(y, x)) == l.join(l.join(y, y), x);
    assert l.join(x, l.join(y, z)) == l.join(l.join(x, y), z);
  }

  // ----- documents -----

  lemma DocLeqReflexive<V(!new)>(l: Lattice<V>, a: Doc<V>)
    requires IsJoin(l) && InDom(l, a)
    ensures DocLeq(l, a, a)
  {
  }

  lemma DocLeqTransitive<V(!new)>(l: Lattice<V>, a: Doc<V>, b: Doc<V>, c: Doc<V>)
    requires IsJoin(l) && InDom(l, a) && InDom(l, b) && InDom(l, c) && DocLeq(l, a, b) && DocLeq(l, b, c)
    ensures DocLeq(l, a, c)
  {
    hide IsJoin, Leq;
    forall k | k in a
      ensures k in c && Leq(l, a[k], c[k])
    {
      LeqTransitive(l, a[k], b[k], c[k]);
    }
  }

  lemma DocLeqAntisymmetric<V(!new)>(l: Lattice<V>, a: Doc<V>, b: Doc<V>)
    requires IsJoin(l) && InDom(l, a) && InDom(l, b) && DocLeq(l, a, b) && DocLeq(l, b, a)
    ensures a == b
  {
    hide IsJoin, Leq;
    forall k | k in a
      ensures k in b && a[k] == b[k]
    {
      LeqAntisymmetric(l, a[k], b[k]);
    }
    assert a.Keys == b.Keys;
  }

  /** The join of two documents is their least upper bound. */
  lemma DocJoinLub<V(!new)>(l: Lattice<V>, a: Doc<V>, b: Doc<V>, c: Doc<V>)
    requires IsJoin(l) && InDom(l, a) && InDom(l, b) && InDom(l, c)
    ensures InDom(l, Join(l, a, b)) && DocLeq(l, a, Join(l, a, b)) && DocLeq(l, b, Join(l, a, b))
    ensures DocLeq(l, a, c) && DocLeq(l, b, c) ==> DocLeq(l, Join(l, a, b), c)
  {
    hide IsJoin, Leq;
    var r := Join(l, a, b);
    forall k | k in r
      ensures l.dom(r[k])
      ensures k in a ==> Leq(l, a[k], r[k])
      ensures k in b ==> Leq(l, b[k], r[k])
      ensures DocLeq(l, a, c) && DocLeq(l, b, c) ==> k in c && Leq(l, r[k], c[k])
    {
      DocJoinAt(l, a, b, c, k);
    }
  }

  lemma DocJoinAt<V(!new)>(l: Lattice<V>, a: Doc<V>, b: Doc<V>, c: Doc<V>, k: string)
    requires IsJoin(l) && InDom(l, a) && InDom(l, b) && InDom(l, c) && (k in a || k in b)
    ensures var r := Join(l, a, b)[k];
      l.dom(r) && (k in a ==> Leq(l, a[k], r)) && (k in b ==> Leq(l, b[k], r))
      && (DocLeq(l, a, c) && DocLeq(l, b, c) ==> k in c && Leq(l, r, c[k]))
  {
    if k in a && k in b {
      JoinLub(l, a[k], b[k], if k in c then c[k] else a[k]);
    }
  }
}
