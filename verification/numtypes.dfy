/**
  The numeric subtype lattice: a domain (integer or rational) paired with a sign.
  Rationals are Dafny reals; a numeric type denotes the set of values it Allows.
 */
module NumTypes {

  datatype Domain = DRat | DInt

  datatype Sign = SAny | SNonNeg | SNonPos | SZero

  datatype NumType = NumType(domain: Domain, sign: Sign)

  const NUM_TOP := NumType(DRat, SAny)

  predicate IsInt(q: real) {
    q.Floor as real == q
  }

  predicate SignAllows(s: Sign, q: real) {
    match s
    case SAny => true
    case SNonNeg => q >= 0.0
    case SNonPos => q <= 0.0
    case SZero => q == 0.0
  }

  predicate Allows(t: NumType, q: real) {
    (t.domain.DInt? ==> IsInt(q)) && SignAllows(t.sign, q)
  }

  predicate SubDomain(a: Domain, b: Domain) {
    a == b || (a.DInt? && b.DRat?)
  }

  predicate SubSign(a: Sign, b: Sign) {
    if a == b then true
    else match b
      case SAny => true
      case SNonNeg => a.SZero?
      case SNonPos => a.SZero?
      case SZero => false
  }

  predicate Sub(a: NumType, b: NumType) {
    SubDomain(a.domain, b.domain) && SubSign(a.sign, b.sign)
  }

  function JoinDomain(a: Domain, b: Domain): Domain {
    if a.DRat? || b.DRat? then DRat else DInt
  }

  function JoinSign(a: Sign, b: Sign): Sign {
    if a == b then a
    else if a.SZero? then b
    else if b.SZero? then a
    else SAny
  }

  function Join(a: NumType, b: NumType): NumType {
    NumType(JoinDomain(a.domain, b.domain), JoinSign(a.sign, b.sign))
  }

  /** Join is the least upper bound of the subtype order. */
  lemma JoinIsLub(a: NumType, b: NumType)
    ensures Sub(a, Join(a, b)) && Sub(b, Join(a, b))
    ensures forall c :: Sub(a, c) && Sub(b, c) ==> Sub(Join(a, b), c)
  {
  }

  /**
    Subtyping is exactly inclusion of the denoted sets, up to one blind spot:
    a rational type of sign SZero denotes {0}, which every integer type above
    SZero also contains although Sub does not say so.
   */
  lemma SubIsInclusion(a: NumType, b: NumType)
    ensures (forall q :: Allows(a, q) ==> Allows(b, q))
            <==> Sub(a, b) || (a.sign.SZero? && SubSign(SZero, b.sign))
  {
    assert Allows(a, 0.0) && IsInt(0.0);
    assert a.sign in {SAny, SNonNeg} ==> Allows(a, 1.0) by { assert IsInt(1.0); }
    assert a.sign in {SAny, SNonPos} ==> Allows(a, -1.0) by { assert IsInt(-1.0); }
    if a.domain.DRat? && b.domain.DInt? && !a.sign.SZero? {
      assert (0.5).Floor == 0 && (-0.5).Floor == -1;
      assert !IsInt(0.5) && !IsInt(-0.5);
      assert Allows(a, 0.5) || Allows(a, -0.5);
    }
  }
}
