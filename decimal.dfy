/**
 * Decimal text for set-points and readings: the fixed three-decimal encoding
 * that `std::fixed` with precision 3 produces, and a decoder for the decimal
 * forms `std::stod` accepts (leading space, a sign, digits with an optional
 * point, an optional exponent; the longest such prefix is read and the rest
 * ignored). Values are exact rationals, not doubles.
 */
module Decimal {
  import opened Wrappers

  predicate IsDigit(c: char) {
    '0' <= c <= '9'
  }

  predicate AllDigits(s: string) {
    forall k :: 0 <= k < |s| ==> IsDigit(s[k])
  }

  function DigitChar(d: nat): (c: char)
    requires d < 10
    ensures IsDigit(c)
  {
    ('0' as int + d) as char
  }

  function DigitValue(c: char): (d: nat)
    requires IsDigit(c)
    ensures d < 10
  {
    c as int - '0' as int
  }

  function Pow10(n: nat): (p: nat)
    ensures p >= 1
  {
    if n == 0 then 1 else 10 * Pow10(n - 1)
  }

  /** The number a string of decimal digits denotes, most significant first. */
  function DigitsValue(ds: string): nat
    requires AllDigits(ds)
  {
    if ds == [] then 0 else DigitsValue(ds[..|ds| - 1]) * 10 + DigitValue(ds[|ds| - 1])
  }

  /** The decimal numeral of n, without leading zeros; it denotes n. */
  function NatDigits(n: nat): (s: string)
    ensures |s| >= 1 && AllDigits(s)
    ensures DigitsValue(s) == n
  {
    if n < 10 then
      [DigitChar(n)]
    else
      var s := NatDigits(n / 10) + [DigitChar(n % 10)];
      assert s[..|s| - 1] == NatDigits(n / 10);
      s
  }

  /** f as exactly three digits, with leading zeros; it denotes f. */
  function Pad3(f: nat): (s: string)
    requires f < 1000
    ensures |s| == 3 && AllDigits(s)
    ensures DigitsValue(s) == f
  {
    var h, r := f / 100, f % 100;
    var t, u := r / 10, r % 10;
    var s := [DigitChar(h), DigitChar(t), DigitChar(u)];
    assert s[..2] == [DigitChar(h), DigitChar(t)] && s[..2][..1] == [DigitChar(h)];
    assert [DigitChar(h)][..0] == [];
    assert DigitsValue([DigitChar(h)]) == h;
    assert DigitsValue(s[..2]) == h * 10 + t;
    assert DigitsValue(s) == (h * 10 + t) * 10 + u;
    s
  }

  function Abs(x: real): real {
    if x < 0.0 then -x else x
  }

  /** Rounding to the nearest integer, ties to the even neighbour (printf's rounding). */
  function RoundHalfEven(y: real): (m: int)
    ensures y - 0.5 <= m as real <= y + 0.5
    ensures (m as real == y - 0.5 || m as real == y + 0.5) ==> m % 2 == 0
    ensures y == y.Floor as real ==> m == y.Floor
  {
    var fl := y.Floor;
    var fr := y - fl as real;
    if fr > 0.5 then fl + 1
    else if fr < 0.5 then fl
    else if fl % 2 == 0 then fl
    else fl + 1
  }

  /** |x| in thousandths, rounded as the three-decimal encoding rounds it. */
  function Milli(x: real): nat {
    RoundHalfEven(Abs(x) * 1000.0)
  }

  /** x rounded to three decimals: the value the three-decimal encoding of x denotes. */
  function Round3(x: real): real {
    SignedMilli(x < 0.0, Milli(x))
  }

  /**
   * The "%.3f" text of x: '-' exactly when x is negative, then the whole
   * thousandths of |x| (rounded) as integer digits, '.', and exactly three
   * fraction digits. FormatThenParse states the value it denotes.
   */
  function FormatFixed3(x: real): (s: string)
    ensures |s| >= 5 && (s[0] == '-' <==> x < 0.0)
    ensures s[|s| - 4] == '.' && AllDigits(s[|s| - 3..])
  {
    var sign := if x < 0.0 then "-" else "";
    var w, f := NatDigits(Milli(x) / 1000), Pad3(Milli(x) % 1000);
    var s := SignedFixed(x < 0.0, Milli(x));
    assert s == sign + w + "." + f;
    assert s[|s| - 3..] == f;
    assert IsDigit(w[0]);
    s
  }

  /** m thousandths, negated when negative holds. */
  function SignedMilli(negative: bool, m: nat): real {
    if negative then -(m as real / 1000.0) else m as real / 1000.0
  }

  /** The text of m thousandths, with a leading '-' when negative holds. */
  function SignedFixed(negative: bool, m: nat): string {
    (if negative then "-" else "") + FixedDigits(m)
  }

  /** m thousandths as integer digits, '.', and three fraction digits. */
  function FixedDigits(m: nat): string {
    NatDigits(m / 1000) + "." + Pad3(m % 1000)
  }

  /** The characters strtod skips before a number (isspace in the C locale). */
  predicate IsCSpace(c: char) {
    c == ' ' || c == '\t' || c == '\n' || c == '\U{B}' || c == '\U{C}' || c == '\r'
  }

  /** s without its leading white space. */
  function SkipSpace(s: string): (t: string)
    ensures |t| <= |s| && t == s[|s| - |t|..]
    ensures t == [] || !IsCSpace(t[0])
  {
    if |s| > 0 && IsCSpace(s[0]) then SkipSpace(s[1..]) else s
  }

  /** The length of the run of digits s starts with. */
  function DigitRun(s: string): (n: nat)
    ensures n <= |s| && AllDigits(s[..n])
    ensures n < |s| ==> !IsDigit(s[n])
  {
    if |s| > 0 && IsDigit(s[0]) then
      var n := 1 + DigitRun(s[1..]);
      assert s[..n] == [s[0]] + s[1..][..n - 1];
      n
    else
      0
  }

  /** The decimal exponent an exponent part ("e", optional sign, digits) denotes; 0 when absent. */
  function Exponent(rest: string): int {
    if |rest| > 0 && (rest[0] == 'e' || rest[0] == 'E') then
      var signed := |rest| > 1 && (rest[1] == '+' || rest[1] == '-');
      var d := if signed then rest[2..] else rest[1..];
      var n := DigitRun(d);
      var e: int := DigitsValue(d[..n]);
      if signed && rest[1] == '-' then -e else e
    else
      0
  }

  /** A decimal numeral as strtod reads it: sign, integer digits, fraction digits, decimal exponent. */
  datatype Numeral = Numeral(negative: bool, whole: string, fraction: string, exponent: int)

  predicate WellFormed(n: Numeral) {
    AllDigits(n.whole) && AllDigits(n.fraction)
  }

  /** x * 10^e, one power of ten at a time. */
  function Shift(x: real, e: int): real
    decreases if e < 0 then -e else e
  {
    if e == 0 then x
    else if e > 0 then Shift(x, e - 1) * 10.0
    else Shift(x, e + 1) / 10.0
  }

  /** The number a numeral denotes: its digits as an integer, shifted by the exponent less the fraction length. */
  function NumeralValue(n: Numeral): real
    requires WellFormed(n)
  {
    DigitsValueAppend(n.whole, n.fraction);
    var magnitude := Shift(DigitsValue(n.whole + n.fraction) as real, n.exponent - |n.fraction|);
    if n.negative then -magnitude else magnitude
  }

  /** The numeral at the start of s after white space and an optional sign; None where std::stod throws invalid_argument. */
  function Lex(s: string): (r: Option<Numeral>)
    ensures r.Some? ==> WellFormed(r.value) && |r.value.whole| + |r.value.fraction| > 0
  {
    var t := SkipSpace(s);
    if |t| > 0 && (t[0] == '+' || t[0] == '-') then LexUnsigned(t[0] == '-', t[1..])
    else LexUnsigned(false, t)
  }

  /** Digits, then either a point and fraction digits or neither; an exponent part may follow. At least one digit is needed. */
  function LexUnsigned(negative: bool, u: string): (r: Option<Numeral>)
    ensures r.Some? ==> WellFormed(r.value) && |r.value.whole| + |r.value.fraction| > 0
    ensures r.Some? ==> r.value.negative == negative
  {
    var i := DigitRun(u);
    if i < |u| && u[i] == '.' then
      var after := u[i + 1..];
      var f := DigitRun(after);
      if i + f == 0 then None
      else Some(Numeral(negative, u[..i], after[..f], Exponent(after[f..])))
    else if i == 0 then None
    else Some(Numeral(negative, u[..i], "", Exponent(u[i..])))
  }

  /** std::stod on its decimal forms: the value of the leading numeral, None where it throws. */
  function ParseNumber(s: string): (r: Option<real>)
    ensures r.Some? <==> Lex(s).Some?
  {
    match Lex(s)
    case None => None
    case Some(n) => Some(NumeralValue(n))
  }

  lemma {:induction false} DigitsValueAppend(a: string, b: string)
    requires AllDigits(a) && AllDigits(b)
    ensures AllDigits(a + b)
    ensures DigitsValue(a + b) == DigitsValue(a) * Pow10(|b|) + DigitsValue(b)
    decreases |b|
  {
    if b == [] {
      assert a + b == a;
    } else {
      var b' := b[..|b| - 1];
      assert (a + b)[..|a + b| - 1] == a + b';
      DigitsValueAppend(a, b');
      var va, p, vb, d := DigitsValue(a), Pow10(|b'|), DigitsValue(b'), DigitValue(b[|b| - 1]);
      assert DigitsValue(a + b) == DigitsValue(a + b') * 10 + d;
      assert DigitsValue(b) == vb * 10 + d;
      assert Pow10(|b|) == p * 10;
      ShiftDigit(va, p, vb, d);
    }
  }

  lemma ShiftDigit(va: int, p: int, vb: int, d: int)
    ensures (va * p + vb) * 10 + d == va * (p * 10) + (vb * 10 + d)
  {
    calc {
      (va * p + vb) * 10 + d;
      (va * p) * 10 + vb * 10 + d;
      { assert (va * p) * 10 == va * (p * 10); }
      va * (p * 10) + (vb * 10 + d);
    }
  }

  lemma {:induction false} DigitRunStops(a: string, rest: string)
    requires AllDigits(a)
    requires rest == [] || !IsDigit(rest[0])
    ensures DigitRun(a + rest) == |a|
    decreases |a|
  {
    if a == [] {
      assert a + rest == rest;
    } else {
      assert (a + rest)[1..] == a[1..] + rest;
      DigitRunStops(a[1..], rest);
    }
  }

  lemma DigitRunAll(a: string)
    requires AllDigits(a)
    ensures DigitRun(a) == |a|
  {
    DigitRunStops(a, "");
    assert a + "" == a;
  }

  lemma ShiftThree(x: real)
    ensures Shift(x, -3) == x / 1000.0
  {
    assert Shift(x, 0) == x;
    assert Shift(x, -1) == x / 10.0;
    assert Shift(x, -2) == x / 100.0;
  }

  /** The unsigned part of the three-decimal encoding lexes as its integer digits and its three fraction digits. */
  lemma LexFixed(negative: bool, digits: string, three: string)
    requires AllDigits(digits) && |digits| >= 1 && AllDigits(three) && |three| == 3
    ensures LexUnsigned(negative, digits + "." + three) == Some(Numeral(negative, digits, three, 0))
  {
    var u := digits + "." + three;
    assert u == digits + ("." + three);
    DigitRunStops(digits, "." + three);
    assert u[..|digits|] == digits && u[|digits|] == '.' && u[|digits| + 1..] == three;
    DigitRunAll(three);
    assert three[..3] == three && three[3..] == "";
  }

  /** The numeral of the three-decimal encoding of m thousandths. */
  function FixedNumeral(negative: bool, m: nat): (n: Numeral)
    ensures WellFormed(n)
  {
    Numeral(negative, NatDigits(m / 1000), Pad3(m % 1000), 0)
  }

  /** The signed three-decimal text lexes as its sign, integer digits and three fraction digits. */
  lemma LexSignedFixed(negative: bool, m: nat)
    ensures Lex(SignedFixed(negative, m)) == Some(FixedNumeral(negative, m))
  {
    LexFixed(negative, NatDigits(m / 1000), Pad3(m % 1000));
    if negative {
      LexMinus(FixedDigits(m));
    } else {
      FixedDigitsDigitLed(m);
      LexDigitLed(FixedDigits(m));
      assert SignedFixed(negative, m) == FixedDigits(m) by { assert "" + FixedDigits(m) == FixedDigits(m); }
    }
  }

  lemma FixedDigitsDigitLed(m: nat)
    ensures |FixedDigits(m)| > 0 && IsDigit(FixedDigits(m)[0])
  {
    var w := NatDigits(m / 1000);
    assert FixedDigits(m) == w + ("." + Pad3(m % 1000));
    assert IsDigit(w[0]);
  }

  /** A text that starts with a digit has no sign to read. */
  lemma LexDigitLed(body: string)
    requires |body| > 0 && IsDigit(body[0])
    ensures Lex(body) == LexUnsigned(false, body)
  {
    assert SkipSpace(body) == body by {
      assert !IsCSpace(body[0]);
    }
    assert body[0] != '+' && body[0] != '-';
  }

  /** A leading '-' is read as the sign of what follows. */
  lemma LexMinus(body: string)
    ensures Lex("-" + body) == LexUnsigned(true, body)
  {
    var s := "-" + body;
    assert s[0] == '-' && s[1..] == body;
    assert SkipSpace(s) == s;
  }

  /** The numeral of m thousandths denotes m / 1000, with its sign. */
  lemma FixedNumeralValue(negative: bool, m: nat)
    ensures NumeralValue(FixedNumeral(negative, m)) == SignedMilli(negative, m)
  {
    var w, f := NatDigits(m / 1000), Pad3(m % 1000);
    DigitsValueAppend(w, f);
    Pow10Of3();
    assert DigitsValue(w + f) == (m / 1000) * 1000 + m % 1000 == m;
    ShiftThree(m as real);
  }

  lemma Pow10Of3()
    ensures Pow10(3) == 1000
  {
    assert Pow10(0) == 1;
    assert Pow10(1) == 10;
    assert Pow10(2) == 100;
  }

  predicate IsLetter(c: char) {
    ('A' <= c <= 'Z') || ('a' <= c <= 'z')
  }

  /** Text that starts with a letter holds no number: std::stod throws on it. */
  lemma LetterLedIsNotANumber(t: string)
    requires |t| > 0 && IsLetter(t[0])
    ensures ParseNumber(t) == None
  {
    assert SkipSpace(t) == t;
    assert DigitRun(t) == 0;
  }

  /** The signed text of m thousandths reads back as m / 1000 with its sign. */
  lemma FixedRoundTrip(negative: bool, m: nat)
    ensures ParseNumber(SignedFixed(negative, m)) == Some(SignedMilli(negative, m))
  {
    LexSignedFixed(negative, m);
    FixedNumeralValue(negative, m);
  }

  /** The decoder reads back the three-decimal encoding of x as x rounded to three decimals. */
  lemma FormatThenParse(x: real)
    ensures ParseNumber(FormatFixed3(x)) == Some(Round3(x))
  {
    FixedRoundTrip(x < 0.0, Milli(x));
  }
}
