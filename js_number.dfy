/**
  The part of JavaScript's `Number(text)` conversion the core relies on: surrounding
  whitespace is ignored, the empty (or all-blank) text is 0, and an optionally signed
  decimal literal with an optional fraction is read exactly. Every other text is NaN.
  Values are exact reals, so floating-point rounding is not modelled.
*/
module JsNumber {
  import opened Text

  datatype JsNum = NaN | Num(value: real)

  /** JavaScript truthiness of a number: NaN and 0 are falsy. */
  predicate Truthy(n: JsNum) { n.Num? && n.value != 0.0 }

  function Pow10(k: nat): (p: nat)
    ensures p >= 1
  {
    if k == 0 then 1 else 10 * Pow10(k - 1)
  }

  /** An unsigned decimal literal: digits, optionally a point and more digits, at least one digit. */
  function ParseUnsigned(u: string): (r: JsNum)
    ensures r.Num? ==> r.value >= 0.0
  {
    var dot := IndexOf(u, '.');
    if dot < 0 then
      if u != [] && AllDigits(u) then Num(DigitsValue(u) as real) else NaN
    else
      var ip, fp := u[..dot], u[dot + 1..];
      if (ip != [] || fp != []) && AllDigits(ip) && AllDigits(fp)
      then
        QuotientNonNegative(DigitsValue(fp), Pow10(|fp|));
        Num(DigitsValue(ip) as real + DigitsValue(fp) as real / Pow10(|fp|) as real)
      else NaN
  }

  lemma QuotientNonNegative(a: nat, b: nat)
    requires b >= 1
    ensures a as real / b as real >= 0.0
  {
  }

  /** `Number(s)` for a string s. */
  function ParseNumber(s: string): (r: JsNum)
  {
    var t := Trim(s);
    if t == [] then Num(0.0)
    else if t[0] == '-' then
      match ParseUnsigned(t[1..])
      case Num(v) => Num(-v)
      case NaN => NaN
    else if t[0] == '+' then ParseUnsigned(t[1..])
    else ParseUnsigned(t)
  }

  lemma DigitsHaveNoDot(s: string)
    requires AllDigits(s)
    ensures IndexOf(s, '.') == -1
  {
  }

  /** A plain run of digits is read as the number it denotes. */
  lemma ParseDigits(s: string)
    requires s != [] && AllDigits(s)
    ensures ParseNumber(s) == Num(DigitsValue(s) as real)
  {
    TrimOfTrimmed(s);
    DigitsHaveNoDot(s);
    assert IsDigit(s[0]);
  }

  /** `Number(String(n))` is n for every integer n. */
  lemma ParseIntToString(n: int)
    ensures ParseNumber(IntToString(n)) == Num(n as real)
  {
    if n < 0 {
      ParseNegativeToString(n);
    } else {
      ParseDigits(IntToString(n));
      DigitsValueOfNatToString(n);
    }
  }

  lemma ParseNegativeToString(n: int)
    requires n < 0
    ensures ParseNumber(IntToString(n)) == Num(n as real)
  {
    var m: nat := -n;
    var s := IntToString(n);
    assert s[1..] == NatToString(m);
    DigitsValueOfNatToString(m);
    ParseNegativeDigits(s, m);
  }

  /** A minus sign followed by digits is read as the negated number. */
  lemma ParseNegativeDigits(s: string, m: nat)
    requires |s| >= 2 && s[0] == '-' && AllDigits(s[1..]) && DigitsValue(s[1..]) == m
    ensures ParseNumber(s) == Num(-(m as real))
  {
    var u := s[1..];
    assert !IsJsWhitespace(s[0]);
    assert s[|s| - 1] == u[|u| - 1] && IsDigit(u[|u| - 1]);
    TrimOfTrimmed(s);
    DigitsHaveNoDot(u);
  }

  /** ECMAScript's ToIntegerOrInfinity on a finite value: truncation toward zero. */
  function Trunc(x: real): (i: int)
    ensures x >= 0.0 ==> i as real <= x < i as real + 1.0
    ensures x < 0.0 ==> i as real - 1.0 < x <= i as real
  {
    if x >= 0.0 then x.Floor else -((-x).Floor)
  }
}
