/**
  String order. The runtime compares the UTF-8 bytes of two strings; the solver's
  str.< compares their code points. RFC 3629, section 1, promises that the two
  agree; here that is proved for every pair of strings of Unicode scalar values.
 */
module Utf8Order {

  /** The UTF-8 encoding of one scalar value (RFC 3629, section 3). */
  function Encode(c: char): (bytes: seq<int>)
    ensures |bytes| > 0
    ensures forall i :: 0 <= i < |bytes| ==> 0 <= bytes[i] < 256
  {
    var n := c as int;
    if n < 0x80 then [n]
    else if n < 0x800 then [0xC0 + n / 64, 0x80 + n % 64]
    else if n < 0x1_0000 then [0xE0 + n / 64 / 64, 0x80 + n / 64 % 64, 0x80 + n % 64]
    else [0xF0 + n / 64 / 64 / 64, 0x80 + n / 64 / 64 % 64, 0x80 + n / 64 % 64, 0x80 + n % 64]
  }

  function Bytes(s: string): seq<int> {
    if s == "" then [] else Encode(s[0]) + Bytes(s[1..])
  }

  /** Three-way lexicographic comparison: -1, 0 or 1. */
  function CompareInts(a: seq<int>, b: seq<int>): (c: int)
    ensures -1 <= c <= 1
  {
    if a == [] && b == [] then 0
    else if a == [] then -1
    else if b == [] then 1
    else if a[0] < b[0] then -1
    else if a[0] > b[0] then 1
    else CompareInts(a[1..], b[1..])
  }

  /** What the runtime computes (strings.Compare). */
  function CompareBytes(s: string, t: string): (c: int)
    ensures -1 <= c <= 1
  {
    CompareInts(Bytes(s), Bytes(t))
  }

  /** What the solver's string order means: code points, left to right. */
  function CompareCodePoints(s: string, t: string): (c: int)
    ensures -1 <= c <= 1
  {
    if s == "" && t == "" then 0
    else if s == "" then -1
    else if t == "" then 1
    else if s[0] < t[0] then -1
    else if s[0] > t[0] then 1
    else CompareCodePoints(s[1..], t[1..])
  }

  lemma {:induction false} SkipCommonPrefix(p: seq<int>, a: seq<int>, b: seq<int>)
    ensures CompareInts(p + a, p + b) == CompareInts(a, b)
  {
    if p == [] {
      assert p + a == a && p + b == b;
    } else {
      assert (p + a)[1..] == p[1..] + a && (p + b)[1..] == p[1..] + b;
      SkipCommonPrefix(p[1..], a, b);
    }
  }

  /** A first difference at position i decides the comparison. */
  lemma {:induction false} FirstDifference(a: seq<int>, b: seq<int>, i: nat)
    requires i < |a| && i < |b| && a[..i] == b[..i] && a[i] < b[i]
    ensures CompareInts(a, b) == -1 && CompareInts(b, a) == 1
  {
    if i > 0 {
      assert a[0] == a[..i][0] && b[0] == b[..i][0];
      assert a[1..][..i - 1] == a[..i][1..] && b[1..][..i - 1] == b[..i][1..];
      FirstDifference(a[1..], b[1..], i - 1);
    }
  }

  /** Encodings of a smaller scalar differ first at a smaller byte, within both encodings. */
  lemma EncodeOrdered(c: char, d: char) returns (i: nat)
    requires c < d
    ensures i < |Encode(c)| && i < |Encode(d)|
    ensures Encode(c)[..i] == Encode(d)[..i] && Encode(c)[i] < Encode(d)[i]
  {
    if |Encode(c)| == |Encode(d)| {
      var k := |Encode(c)|;
      EncodeIsNumeral(c);
      EncodeIsNumeral(d);
      i := NumeralOrdered(c as int, d as int, k);
      forall j | 0 <= j < i
        ensures Encode(c)[j] == Encode(d)[j]
      {
        assert Numeral(c as int, k)[j] == Numeral(c as int, k)[..i][j];
        assert Numeral(d as int, k)[j] == Numeral(d as int, k)[..i][j];
      }
    } else {
      i := 0;
      LeadGrows(c, d);
    }
  }

  /** The lead byte tells the length of an encoding. */
  lemma LeadGrows(c: char, d: char)
    requires c < d && |Encode(c)| != |Encode(d)|
    ensures Encode(c)[0] < Encode(d)[0]
  {
    LeadByte(c);
    LeadByte(d);
  }

  lemma LeadByte(c: char)
    ensures var b := Encode(c)[0];
      match |Encode(c)|
      case 1 => b < 0x80
      case 2 => 0xC0 <= b < 0xE0
      case 3 => 0xE0 <= b < 0xF0
      case _ => 0xF0 <= b
  {
  }

  /** The base-64 numeral of n with k digits, most significant first; the first digit may exceed 63. */
  function Numeral(n: nat, k: nat): (ds: seq<int>)
    requires k > 0
    ensures |ds| == k
  {
    if k == 1 then [n] else Numeral(n / 64, k - 1) + [n % 64]
  }

  /** What the encoding adds to digit j of k. */
  function Mark(k: nat, j: nat): int {
    if j > 0 then 0x80 else if k == 1 then 0 else if k == 2 then 0xC0 else if k == 3 then 0xE0 else 0xF0
  }

  lemma EncodeIsNumeral(c: char)
    ensures var k := |Encode(c)|;
      forall j :: 0 <= j < k ==> Encode(c)[j] == Mark(k, j) + Numeral(c as int, k)[j]
  {
    var n := c as int;
    var k := |Encode(c)|;
    if k > 1 {
      assert Numeral(n, k) == Numeral(n / 64, k - 1) + [n % 64];
      if k > 2 {
        assert Numeral(n / 64, k - 1) == Numeral(n / 64 / 64, k - 2) + [n / 64 % 64];
        if k > 3 {
          assert Numeral(n / 64 / 64, 2) == [n / 64 / 64 / 64] + [n / 64 / 64 % 64];
        }
      }
    }
  }

  /** Numerals of equal length differ first where the smaller number has the smaller digit. */
  lemma {:induction false} NumeralOrdered(m: nat, n: nat, k: nat) returns (i: nat)
    requires m < n && k > 0
    ensures i < k && Numeral(m, k)[..i] == Numeral(n, k)[..i] && Numeral(m, k)[i] < Numeral(n, k)[i]
  {
    if k == 1 {
      i := 0;
    } else if m / 64 < n / 64 {
      i := NumeralOrdered(m / 64, n / 64, k - 1);
      assert Numeral(m, k)[..i] == Numeral(m / 64, k - 1)[..i];
      assert Numeral(n, k)[..i] == Numeral(n / 64, k - 1)[..i];
    } else {
      i := k - 1;
      assert m / 64 == n / 64;
      assert Numeral(m, k)[..i] == Numeral(m / 64, i) && Numeral(n, k)[..i] == Numeral(n / 64, i);
    }
  }

  /** Bytewise order of the encodings is code-point order. */
  lemma {:induction false} ByteOrderIsCodePointOrder(s: string, t: string)
    ensures CompareBytes(s, t) == CompareCodePoints(s, t)
  {
    if s != "" && t != "" {
      if s[0] == t[0] {
        SkipCommonPrefix(Encode(s[0]), Bytes(s[1..]), Bytes(t[1..]));
        ByteOrderIsCodePointOrder(s[1..], t[1..]);
      } else if s[0] < t[0] {
        EncodingDecides(s, t);
      } else {
        EncodingDecides(t, s);
      }
    }
  }

  lemma EncodingDecides(s: string, t: string)
    requires s != "" && t != "" && s[0] < t[0]
    ensures CompareBytes(s, t) == -1 && CompareBytes(t, s) == 1
  {
    var i := EncodeOrdered(s[0], t[0]);
    assert Bytes(s)[..i] == Encode(s[0])[..i] && Bytes(t)[..i] == Encode(t[0])[..i];
    FirstDifference(Bytes(s), Bytes(t), i);
  }

  /** Zero exactly on equal strings. */
  lemma {:induction false} CompareIsEquality(s: string, t: string)
    ensures CompareCodePoints(s, t) == 0 <==> s == t
  {
    if s != "" && t != "" && s[0] == t[0] {
      CompareIsEquality(s[1..], t[1..]);
      assert s == [s[0]] + s[1..] && t == [t[0]] + t[1..];
    }
  }
}
