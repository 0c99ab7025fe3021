/**
  Document keys: a finite decimal is normalised to one canonical spelling, which keeps
  its value, is a fixed point, and is the same for two spellings exactly when they denote
  the same rational.
 */
module Decimals {
  import opened Options
  import opened NumTypes
  import opened Syntax

  // ----- spellings -----

  predicate Digit(c: char) {
    '0' <= c <= '9'
  }

  predicate Digits(s: string) {
    forall i :: 0 <= i < |s| ==> Digit(s[i])
  }

  function DigitVal(c: char): (d: int)
    requires Digit(c)
    ensures 0 <= d <= 9
  {
    c as int - '0' as int
  }

  /** The position of the first dot, or the length. */
  function DotAt(s: string): (i: nat)
    ensures i <= |s| && (i < |s| ==> s[i] == '.') && forall j :: 0 <= j < i ==> s[j] != '.'
  {
    if s == [] || s[0] == '.' then 0 else 1 + DotAt(s[1..])
  }

  /** What strings.Cut at the first dot gives: before, after, and whether there was a dot. */
  function Whole(s: string): string {
    s[..DotAt(s)]
  }

  function Frac(s: string): string {
    if DotAt(s) < |s| then s[DotAt(s) + 1..] else ""
  }

  function Unsigned(s: string): string {
    if s != "" && s[0] == '-' then s[1..] else s
  }

  predicate Negative(s: string) {
    s != "" && s[0] == '-'
  }

  /** The accepted spellings: an optional minus, digits, and optionally a dot and digits. */
  predicate Accepted(s: string) {
    var u := Unsigned(s);
    Whole(u) != "" && Digits(Whole(u)) && Digits(Frac(u)) && (DotAt(u) < |u| ==> Frac(u) != "")
  }

  function TrimLeft(s: string): (r: string)
    ensures Digits(s) ==> Digits(r)
    ensures r == "" || r[0] != '0'
    decreases |s|
  {
    if s != "" && s[0] == '0' then TrimLeft(s[1..]) else s
  }

  function TrimRight(s: string): (r: string)
    ensures Digits(s) ==> Digits(r)
    ensures r == "" || r[|r| - 1] != '0'
    decreases |s|
  {
    if s != "" && s[|s| - 1] == '0' then TrimRight(s[..|s| - 1]) else s
  }

  /** canonicalDecimal: no leading zeros, no trailing fraction zeros, no dot without a fraction, no negative zero. */
  function Canonical(raw: string): string {
    var u := Unsigned(raw);
    var trimmed := TrimLeft(Whole(u));
    var whole := if trimmed == "" then "0" else trimmed;
    var frac := TrimRight(Frac(u));
    var out := if frac == "" then whole else whole + "." + frac;
    if Negative(raw) && out != "0" then "-" + out else out
  }

  // ----- what a spelling denotes -----

  function WholeVal(s: string): (v: nat)
    requires Digits(s)
    decreases |s|
  {
    if s == "" then 0 else 10 * WholeVal(s[..|s| - 1]) + DigitVal(s[|s| - 1])
  }

  function FracVal(s: string): (v: real)
    requires Digits(s)
    ensures 0.0 <= v < 1.0
    decreases |s|
  {
    if s == "" then 0.0 else (DigitVal(s[0]) as real + FracVal(s[1..])) / 10.0
  }

  /** The rational an accepted spelling denotes. */
  function Value(s: string): real
    requires Accepted(s)
  {
    var u := Unsigned(s);
    var v := WholeVal(Whole(u)) as real + FracVal(Frac(u));
    if Negative(s) then -v else v
  }

  // ----- trimming keeps the value -----

  lemma {:induction false} TrimLeftValue(s: string)
    requires Digits(s)
    ensures WholeVal(TrimLeft(s)) == WholeVal(s)
    decreases |s|
  {
    if s != "" && s[0] == '0' {
      LeadingZero(s);
      TrimLeftValue(s[1..]);
    }
  }

  lemma {:induction false} LeadingZero(s: string)
    requires Digits(s) && s != "" && s[0] == '0'
    ensures WholeVal(s) == WholeVal(s[1..])
    decreases |s|
  {
    if |s| > 1 {
      var init := s[..|s| - 1];
      assert s[1..][..|s| - 2] == init[1..];
      LeadingZero(init);
    }
  }

  lemma {:induction false} TrimRightValue(s: string)
    requires Digits(s)
    ensures FracVal(TrimRight(s)) == FracVal(s)
    decreases |s|
  {
    if s != "" && s[|s| - 1] == '0' {
      TrailingZero(s);
      TrimRightValue(s[..|s| - 1]);
    }
  }

  lemma {:induction false} TrailingZero(s: string)
    requires Digits(s) && s != "" && s[|s| - 1] == '0'
    ensures FracVal(s) == FracVal(s[..|s| - 1])
    decreases |s|
  {
    if |s| > 1 {
      var init := s[..|s| - 1];
      assert s[1..][..|s| - 2] == init[1..];
      TrailingZero(s[1..]);
    }
  }

  // ----- trimmed digits are determined by their value -----

  lemma {:induction false} WholePositive(s: string)
    requires Digits(s) && s != "" && s[0] != '0'
    ensures WholeVal(s) > 0
    decreases |s|
  {
    if |s| > 1 {
      WholePositive(s[..|s| - 1]);
    }
  }

  lemma {:induction false} WholeUnique(s: string, t: string)
    requires Digits(s) && Digits(t) && WholeVal(s) == WholeVal(t)
    requires (s == "" || s[0] != '0') && (t == "" || t[0] != '0')
    ensures s == t
    decreases |s|
  {
    if s == "" {
      if t != "" {
        WholePositive(t);
      }
    } else if t == "" {
      WholePositive(s);
    } else {
      var a, b := s[|s| - 1], t[|t| - 1];
      assert WholeVal(s) % 10 == DigitVal(a) && WholeVal(t) % 10 == DigitVal(b);
      WholeUnique(s[..|s| - 1], t[..|t| - 1]);
      assert s == s[..|s| - 1] + [a] && t == t[..|t| - 1] + [b];
    }
  }

  lemma {:induction false} FracPositive(s: string)
    requires Digits(s) && s != "" && s[|s| - 1] != '0'
    ensures FracVal(s) > 0.0
    decreases |s|
  {
    if |s| > 1 {
      FracPositive(s[1..]);
    }
  }

  /** An integer part and a fraction below one are determined by their sum. */
  lemma PartsUnique(a: int, b: int, x: real, y: real)
    requires a as real + x == b as real + y && 0.0 <= x < 1.0 && 0.0 <= y < 1.0
    ensures a == b && x == y
  {
  }

  lemma {:induction false} FracUnique(s: string, t: string)
    requires Digits(s) && Digits(t) && FracVal(s) == FracVal(t)
    requires (s == "" || s[|s| - 1] != '0') && (t == "" || t[|t| - 1] != '0')
    ensures s == t
    decreases |s|
  {
    if s == "" {
      if t != "" {
        FracPositive(t);
      }
    } else if t == "" {
      FracPositive(s);
    } else {
      PartsUnique(DigitVal(s[0]), DigitVal(t[0]), FracVal(s[1..]), FracVal(t[1..]));
      FracUnique(s[1..], t[1..]);
      assert s == [s[0]] + s[1..] && t == [t[0]] + t[1..];
    }
  }

  // ----- the shape of a canonical spelling -----

  /** The trimmed parts of a spelling. */
  function WholePart(raw: string): string {
    TrimLeft(Whole(Unsigned(raw)))
  }

  function FracPart(raw: string): string {
    TrimRight(Frac(Unsigned(raw)))
  }

  function Spell(neg: bool, whole: string, frac: string): string {
    var w := if whole == "" then "0" else whole;
    var out := if frac == "" then w else w + "." + frac;
    if neg && out != "0" then "-" + out else out
  }

  lemma CanonicalSpells(raw: string)
    ensures Canonical(raw) == Spell(Negative(raw), WholePart(raw), FracPart(raw))
  {
  }

  lemma {:induction false} DotAfter(s: string, t: string)
    requires Digits(s)
    ensures DotAt(s) == |s| && DotAt(s + "." + t) == |s|
    decreases |s|
  {
    if s == "" {
      assert s + "." + t == "." + t;
    } else {
      assert (s + "." + t)[1..] == s[1..] + "." + t;
      DotAfter(s[1..], t);
    }
  }

  /** The unsigned part of a spelling. */
  function Out(whole: string, frac: string): string {
    var w := if whole == "" then "0" else whole;
    if frac == "" then w else w + "." + frac
  }

  lemma OutParts(whole: string, frac: string)
    requires Digits(whole) && Digits(frac) && (whole == "" || whole[0] != '0')
    ensures var out, w := Out(whole, frac), if whole == "" then "0" else whole;
      out != "" && out[0] != '-' && Whole(out) == w && Frac(out) == frac && (DotAt(out) < |out| <==> frac != "")
      && Digits(w) && (out == "0" <==> whole == "" && frac == "")
  {
    var w := if whole == "" then "0" else whole;
    DotAfter(w, frac);
    assert frac != "" ==> |w + "." + frac| > 1;
  }

  /** Reading a spelling back gives its parts. */
  lemma SpellParts(neg: bool, whole: string, frac: string)
    requires Digits(whole) && Digits(frac) && (whole == "" || whole[0] != '0')
    requires frac == "" || frac[|frac| - 1] != '0'
    ensures var s := Spell(neg, whole, frac);
      Accepted(s) && Negative(s) == (neg && (whole != "" || frac != ""))
      && WholePart(s) == whole && Frac(Unsigned(s)) == frac && Whole(Unsigned(s)) == if whole == "" then "0" else whole
  {
    hide DotAt, Whole, Frac;
    OutParts(whole, frac);
    var out, s := Out(whole, frac), Spell(neg, whole, frac);
    assert Unsigned(s) == out;
    assert TrimLeft("0") == "" by { assert "0"[1..] == ""; }
  }

  lemma TrimRightSame(s: string)
    requires s == "" || s[|s| - 1] != '0'
    ensures TrimRight(s) == s
  {
  }

  /** The canonical spelling is accepted, denotes the same rational, and is its own canonical spelling. */
  lemma CanonicalKeepsValue(raw: string)
    requires Accepted(raw)
    ensures Accepted(Canonical(raw)) && Value(Canonical(raw)) == Value(raw)
    ensures Canonical(Canonical(raw)) == Canonical(raw)
  {
    hide TrimLeft, TrimRight, Spell, DotAt;
    var u := Unsigned(raw);
    var whole, frac := WholePart(raw), FracPart(raw);
    var c := Canonical(raw);
    CanonicalSpells(raw);
    SpellParts(Negative(raw), whole, frac);
    TrimLeftValue(Whole(u));
    TrimRightValue(Frac(u));
    ZeroWhole();
    TrimRightSame(frac);
    CanonicalSpells(c);
    SpellSign(Negative(raw), whole, frac);
  }

  lemma ZeroWhole()
    ensures WholeVal("") == 0 && WholeVal("0") == 0 && FracVal("") == 0.0
  {
  }

  lemma SpellSign(neg: bool, whole: string, frac: string)
    ensures Spell(neg && (whole != "" || frac != ""), whole, frac) == Spell(neg, whole, frac)
  {
  }

  /** Two accepted spellings have the same canonical spelling exactly when they denote the same rational. */
  lemma CanonicalExactly(a: string, b: string)
    requires Accepted(a) && Accepted(b)
    ensures Canonical(a) == Canonical(b) <==> Value(a) == Value(b)
  {
    hide Canonical, Value;
    CanonicalKeepsValue(a);
    CanonicalKeepsValue(b);
    if Value(a) == Value(b) {
      SameSpelling(a, b);
    }
  }

  lemma SameSpelling(a: string, b: string)
    requires Accepted(a) && Accepted(b) && Value(a) == Value(b)
    ensures Canonical(a) == Canonical(b)
  {
    hide TrimLeft, TrimRight, Canonical, WholeVal, FracVal, Spell;
    var m, n := Magnitude(a), Magnitude(b);
    if m == n {
      SameParts(a, b);
      CanonicalSpells(a);
      CanonicalSpells(b);
      if Negative(a) != Negative(b) {
        ZeroParts(a);
        ZeroSpell();
      }
    }
  }

  function Magnitude(s: string): (v: real)
    requires Accepted(s)
    ensures v >= 0.0 && Value(s) == if Negative(s) then -v else v
  {
    var u := Unsigned(s);
    WholeVal(Whole(u)) as real + FracVal(Frac(u))
  }

  lemma SameParts(a: string, b: string)
    requires Accepted(a) && Accepted(b) && Magnitude(a) == Magnitude(b)
    ensures WholePart(a) == WholePart(b) && FracPart(a) == FracPart(b)
  {
    hide WholeVal, FracVal;
    var u, v := Unsigned(a), Unsigned(b);
    PartsUnique(WholeVal(Whole(u)), WholeVal(Whole(v)), FracVal(Frac(u)), FracVal(Frac(v)));
    TrimLeftValue(Whole(u));
    TrimLeftValue(Whole(v));
    TrimRightValue(Frac(u));
    TrimRightValue(Frac(v));
    WholeUnique(WholePart(a), WholePart(b));
    FracUnique(FracPart(a), FracPart(b));
  }

  lemma ZeroParts(a: string)
    requires Accepted(a) && Magnitude(a) == 0.0
    ensures WholePart(a) == "" && FracPart(a) == ""
  {
    var u := Unsigned(a);
    TrimLeftValue(Whole(u));
    TrimRightValue(Frac(u));
    if WholePart(a) != "" {
      WholePositive(WholePart(a));
    }
    if FracPart(a) != "" {
      FracPositive(FracPart(a));
    }
  }

  lemma ZeroSpell()
    ensures Spell(true, "", "") == Spell(false, "", "")
  {
  }

  // ----- document keys -----

  /** normalizeDocumentKey on a key that is valid UTF-8: text is kept, numbers are checked and made canonical. */
  function NormalizeKey(t: ScalarT, raw: string): Option<string> {
    if raw == "" || '/' in raw then None
    else match t
      case ScalarStr => Some(raw)
      case ScalarNum(n) => if Accepted(raw) && Allows(n, Value(raw)) then Some(Canonical(raw)) else None
  }

  lemma CanonicalNoSlash(raw: string)
    requires Accepted(raw)
    ensures Canonical(raw) != "" && '/' !in Canonical(raw)
  {
    hide TrimLeft, TrimRight, DotAt;
    CanonicalSpells(raw);
    var whole, frac := WholePart(raw), FracPart(raw);
    assert Digits(whole) && Digits(frac);
  }

  /**
    A key a coordinator has resolved resolves to itself at every receiver, so its messages
    always pass the receiver's check; and two raw keys name the same document exactly when
    they are the same text, or the same rational.
   */
  lemma KeysAgree(t: ScalarT, a: string, b: string)
    requires NormalizeKey(t, a).Some? && NormalizeKey(t, b).Some?
    ensures NormalizeKey(t, NormalizeKey(t, a).value) == NormalizeKey(t, a)
    ensures NormalizeKey(t, a) == NormalizeKey(t, b) <==> if t.ScalarStr? then a == b else Value(a) == Value(b)
  {
    hide Canonical, Accepted, Value;
    if t.ScalarNum? {
      CanonicalKeepsValue(a);
      CanonicalNoSlash(a);
      CanonicalExactly(a, b);
    }
  }
}
