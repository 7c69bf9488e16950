/** Decimal text: the integer and float literals `convert_token_to_value`
    recognises (src/expr.rs:154-155), Rust's `str::parse::<i32>` and
    `i32::to_string`, and the one fact about `str::parse::<f64>` the model
    needs: whether the parsed double is zero. */
module Numerals {
  import opened Ascii

  // ----- digits -----

  function DigitValue(c: char): (d: nat)
    requires IsDigit(c)
    ensures d < 10
  {
    c as int - '0' as int
  }

  function DigitChar(d: nat): (c: char)
    requires d < 10
    ensures IsDigit(c) && DigitValue(c) == d
  {
    ('0' as int + d) as char
  }

  predicate AllDigits(s: string) {
    forall i :: 0 <= i < |s| ==> IsDigit(s[i])
  }

  /** The value of a string of decimal digits (leading zeros allowed). */
  function DigitsValue(s: string): nat
    requires AllDigits(s)
    decreases |s|
  {
    if s == [] then 0 else 10 * DigitsValue(s[..|s| - 1]) + DigitValue(s[|s| - 1])
  }

  function Pow(b: nat, e: nat): (p: nat)
    ensures b > 0 ==> p > 0
  {
    if e == 0 then 1 else b * Pow(b, e - 1)
  }

  lemma {:induction false} DigitsValueBound(s: string)
    requires AllDigits(s)
    ensures DigitsValue(s) < Pow(10, |s|)
    decreases |s|
  {
    if s != [] {
      DigitsValueBound(s[..|s| - 1]);
    }
  }

  /** Appending digits shifts the value of the prefix. */
  lemma {:induction false} DigitsValueAppend(a: string, b: string)
    requires AllDigits(a) && AllDigits(b)
    ensures AllDigits(a + b)
    ensures DigitsValue(a + b) == DigitsValue(a) * Pow(10, |b|) + DigitsValue(b)
    decreases |b|
  {
    if b == [] {
      assert a + b == a;
    } else {
      var b' := b[..|b| - 1];
      assert (a + b)[..|a + b| - 1] == a + b';
      DigitsValueAppend(a, b');
      var x, p, y, d := DigitsValue(a), Pow(10, |b'|), DigitsValue(b'), DigitValue(b[|b| - 1]);
      assert DigitsValue(a + b) == 10 * (x * p + y) + d;
      ShiftDigit(x, p, y, d);
    }
  }

  lemma ShiftDigit(x: nat, p: nat, y: nat, d: nat)
    ensures 10 * (x * p + y) + d == x * (10 * p) + (10 * y + d)
  {
  }

  /** The shortest decimal digits of `n`: no leading zero unless `n` is 0. */
  function NatToDigits(n: nat): (s: string)
    ensures IsDigits(s) && AllDigits(s)
    ensures s[0] == '0' <==> n == 0
    decreases n
  {
    if n < 10 then [DigitChar(n)] else NatToDigits(n / 10) + [DigitChar(n % 10)]
  }

  lemma {:induction false} DigitsRoundTrip(n: nat)
    ensures DigitsValue(NatToDigits(n)) == n
    decreases n
  {
    if n >= 10 {
      DigitsRoundTrip(n / 10);
      var s := NatToDigits(n);
      assert s[..|s| - 1] == NatToDigits(n / 10);
    }
  }

  // ----- integers -----

  /** `^(\d+\b|-\d+\b)$`: an optional minus sign and one or more digits. */
  predicate IsIntText(s: string) {
    IsDigits(s) || (|s| > 1 && s[0] == '-' && IsDigits(s[1..]))
  }

  /** The mathematical value of an integer text; `parse::<i32>` succeeds
      exactly when it lies in the `i32` range. */
  function ParseInt(s: string): (n: int)
    requires IsIntText(s)
  {
    if s[0] == '-' then -(DigitsValue(s[1..]) as int) else DigitsValue(s)
  }

  /** `i32::to_string` (and `i64`'s): a minus sign for negatives, then the
      shortest digits. */
  function IntToString(n: int): (s: string)
    ensures IsIntText(s)
  {
    if n < 0 then "-" + NatToDigits(-n) else NatToDigits(n)
  }

  /** Rendering an integer and parsing the text back gives the integer. */
  lemma IntRoundTrip(n: int)
    ensures ParseInt(IntToString(n)) == n
  {
    if n < 0 {
      DigitsRoundTrip(-n);
      assert IntToString(n)[1..] == NatToDigits(-n);
    } else {
      DigitsRoundTrip(n);
    }
  }

  /** Distinct integers render as distinct texts. */
  lemma IntToStringInjective(m: int, n: int)
    requires IntToString(m) == IntToString(n)
    ensures m == n
  {
    IntRoundTrip(m);
    IntRoundTrip(n);
  }

  // ----- float literals -----

  /** The text after an optional leading minus sign. */
  function Unsigned(s: string): (u: string)
    ensures |u| <= |s|
  {
    if |s| > 0 && s[0] == '-' then s[1..] else s
  }

  /** The index of the first `.` in `u`, or `|u|`. */
  function DotIndex(u: string): (k: nat)
    ensures k <= |u|
    ensures forall i :: 0 <= i < k ==> u[i] != '.'
    ensures k < |u| ==> u[k] == '.'
  {
    if u == [] then 0 else if u[0] == '.' then 0 else 1 + DotIndex(u[1..])
  }

  /** `^(\d+\.\d+\b|-\d+\.\d+\b)$`: an optional minus sign, digits, a dot and
      digits. */
  predicate IsFloatText(s: string) {
    var u := Unsigned(s);
    var k := DotIndex(u);
    k < |u| && IsDigits(u[..k]) && IsDigits(u[k + 1..])
  }

  function IntegerPart(s: string): (d: string)
    requires IsFloatText(s)
    ensures IsDigits(d) && AllDigits(d)
  {
    var u := Unsigned(s);
    u[..DotIndex(u)]
  }

  function FractionPart(s: string): (d: string)
    requires IsFloatText(s)
    ensures IsDigits(d) && AllDigits(d)
  {
    var u := Unsigned(s);
    u[DotIndex(u) + 1..]
  }

  /** Half the least subnormal double is 2^-1075. */
  const HalfSubnormalExponent: nat := 1075

  /** `parse::<f64>` rounds to nearest, ties to even, so a decimal of
      magnitude m / 10^k parses to zero exactly when m / 10^k is at most half
      the least subnormal double, 2^-1075. */
  predicate ParsesToZero(s: string)
    requires IsFloatText(s)
  {
    var digits := IntegerPart(s) + FractionPart(s);
    DigitsValueAppend(IntegerPart(s), FractionPart(s));
    DigitsValue(digits) * Pow(2, HalfSubnormalExponent) <= Pow(10, |FractionPart(s)|)
  }

  /** A float literal whose digits are all zero parses to zero. */
  lemma ZeroDigitsParseToZero(s: string)
    requires IsFloatText(s)
    requires DigitsValue(IntegerPart(s)) == 0 && DigitsValue(FractionPart(s)) == 0
    ensures ParsesToZero(s)
  {
    DigitsValueAppend(IntegerPart(s), FractionPart(s));
  }

  /** A float literal with a non-zero integer part does not. */
  lemma IntegerPartNonzero(s: string)
    requires IsFloatText(s) && DigitsValue(IntegerPart(s)) > 0
    ensures !ParsesToZero(s)
  {
    var f := FractionPart(s);
    DigitsValueAppend(IntegerPart(s), f);
    var q := Pow(10, |f|);
    AtLeastScale(DigitsValue(IntegerPart(s)), q, DigitsValue(f));
    ScaledAbove(DigitsValue(IntegerPart(s) + f), q, HalfSubnormalExponent);
  }

  lemma AtLeastScale(x: nat, q: nat, y: nat)
    requires x >= 1
    ensures x * q + y >= q
  {
    MultiplyMonotone(q, 1, x);
  }

  /** Scaling a positive number up by a power of two leaves it above
      anything it was at least. */
  lemma ScaledAbove(m: nat, q: nat, e: nat)
    requires m >= q > 0 && e > 0
    ensures m * Pow(2, e) > q
  {
    PowAboveOne(2, e);
    MultiplyMonotone(m, 2, Pow(2, e));
  }

  lemma MultiplyMonotone(a: nat, b: nat, c: nat)
    requires b <= c
    ensures a * b <= a * c
  {
  }

  lemma {:induction false} PowAboveOne(b: nat, e: nat)
    requires b > 1 && e > 0
    ensures Pow(b, e) > 1
  {
    if e > 1 {
      PowAboveOne(b, e - 1);
    }
  }

  /** The integer and float literal classes are disjoint. */
  lemma IntNotFloat(s: string)
    requires IsIntText(s)
    ensures !IsFloatText(s)
  {
    var u := Unsigned(s);
    assert IsDigits(u);
  }
}
