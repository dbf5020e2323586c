/**
 * Numbers as the two halves of the system see them: JavaScript numbers
 * (finite values idealised as reals, plus NaN and the infinities), the
 * `Number(text)` conversion, `Math.round` and `Math.trunc`; Go's
 * `strconv.Atoi` on 64-bit integers; and the decimal text of an integer
 * (JS `String(n)`, Go `%d`).
 */
module Numbers {
  import opened Wrappers
  import opened Text

  /** A JavaScript number. Finite values are idealised as reals (no IEEE rounding). */
  datatype JsNum = Finite(r: real) | NaN | PosInf | NegInf

  const MaxInt64: int := 0x7FFF_FFFF_FFFF_FFFF
  const MinInt64: int := -0x8000_0000_0000_0000

  predicate IsDigit(c: char) { '0' <= c <= '9' }

  predicate AllDigits(s: string) {
    forall k :: 0 <= k < |s| ==> IsDigit(s[k])
  }

  function DigitValue(c: char): (d: nat)
    requires IsDigit(c)
    ensures d < 10
  {
    c as int - '0' as int
  }

  function DigitChar(d: nat): (c: char)
    requires d < 10
    ensures IsDigit(c) && DigitValue(c) == d
  {
    ('0' as int + d) as char
  }

  /** The value of a string of decimal digits, most significant first. */
  function DigitsValue(s: string): nat
    requires AllDigits(s)
  {
    if s == [] then 0 else DigitsValue(s[..|s| - 1]) * 10 + DigitValue(s[|s| - 1])
  }

  function Pow10(k: nat): (p: nat)
    ensures p >= 1
  {
    if k == 0 then 1 else 10 * Pow10(k - 1)
  }

  /** The shortest decimal digits of n: the digits denote n. */
  function NatToDigits(n: nat): (r: string)
    ensures |r| >= 1 && AllDigits(r) && DigitsValue(r) == n
  {
    if n < 10 then [DigitChar(n)]
    else
      var p := NatToDigits(n / 10);
      var r := p + [DigitChar(n % 10)];
      assert r[..|r| - 1] == p;
      r
  }

  /** JS `String(n)` and Go `%d` / `strconv.Itoa` for an integer n. */
  function IntToDecimal(n: int): (r: string)
    ensures |r| >= 1
    ensures n >= 0 ==> r == NatToDigits(n)
    ensures n < 0 ==> r == "-" + NatToDigits(-n)
  {
    if n < 0 then "-" + NatToDigits(-n) else NatToDigits(n)
  }

  lemma DecimalNoSpace(n: int)
    ensures NoSpace(IntToDecimal(n))
  {
    var r := IntToDecimal(n);
    forall k | 0 <= k < |r| ensures !IsSpace(r[k]) {
      if n < 0 && k > 0 {
        assert r[k] == NatToDigits(-n)[k - 1];
      }
    }
  }

  /** Go `strconv.Atoi`: an optional sign, then one or more ASCII digits, within 64 bits. */
  function Atoi(s: string): (r: Option<int>)
    ensures r.Some? ==> MinInt64 <= r.value <= MaxInt64
  {
    if s == [] then None
    else
      var body := if s[0] == '+' || s[0] == '-' then s[1..] else s;
      if body == [] || !AllDigits(body) then None
      else
        var v: int := if s[0] == '-' then -(DigitsValue(body) as int) else DigitsValue(body);
        if MinInt64 <= v <= MaxInt64 then Some(v) else None
  }

  /** Atoi reads back every 64-bit integer from its decimal text. */
  lemma AtoiOfDecimal(n: int)
    requires MinInt64 <= n <= MaxInt64
    ensures Atoi(IntToDecimal(n)) == Some(n)
  {
    var s := IntToDecimal(n);
    if n < 0 {
      assert s[1..] == NatToDigits(-n);
    } else {
      assert IsDigit(s[0]);
    }
  }

  /** Atoi on plain digits: their value, when it fits in 64 bits. */
  lemma AtoiOfDigits(d: string)
    requires AllDigits(d)
    ensures |d| > 0 && DigitsValue(d) <= MaxInt64 ==> Atoi(d) == Some(DigitsValue(d))
    ensures |d| > 0 && DigitsValue(d) > MaxInt64 ==> Atoi(d) == None
  {
    if |d| > 0 {
      assert IsDigit(d[0]);
    }
  }

  /** Length of the run of digits at the start of u. */
  function DigitPrefix(u: string): (k: nat)
    ensures k <= |u| && AllDigits(u[..k])
    ensures k < |u| ==> !IsDigit(u[k])
  {
    if u != [] && IsDigit(u[0]) then
      var k := 1 + DigitPrefix(u[1..]);
      assert u[..k] == [u[0]] + u[1..][..k - 1];
      k
    else 0
  }

  /** The digit run of digits followed by a non-digit is the digits. */
  lemma {:induction false} DigitPrefixConcat(u: string, v: string)
    requires AllDigits(u) && (v == [] || !IsDigit(v[0]))
    ensures DigitPrefix(u + v) == |u|
  {
    if u != [] {
      assert (u + v)[1..] == u[1..] + v;
      DigitPrefixConcat(u[1..], v);
    }
  }

  lemma {:induction false} DigitPrefixAll(u: string)
    requires AllDigits(u)
    ensures DigitPrefix(u) == |u|
  {
    if u != [] {
      DigitPrefixAll(u[1..]);
    }
  }

  function Fraction(f: string): real
    requires AllDigits(f)
  {
    DigitsValue(f) as real / Pow10(|f|) as real
  }

  /** A decimal literal without sign: digits, optionally a point and more digits, at least one digit. */
  function ParseDecimal(u: string): JsNum
  {
    var k := DigitPrefix(u);
    if k == |u| then
      (if k > 0 then Finite(DigitsValue(u) as real) else NaN)
    else if u[k] == '.' && AllDigits(u[k + 1..]) && (k > 0 || k + 1 < |u|) then
      Finite(DigitsValue(u[..k]) as real + Fraction(u[k + 1..]))
    else NaN
  }

  function ParseUnsigned(u: string): JsNum {
    if u == "Infinity" then PosInf else ParseDecimal(u)
  }

  function Negate(x: JsNum): JsNum {
    match x
    case Finite(r) => Finite(-r)
    case NaN => NaN
    case PosInf => NegInf
    case NegInf => PosInf
  }

  /** JS `Number(text)`: surrounding white space is ignored, blank text is 0. */
  function ParseNumber(s: string): JsNum {
    var t := Trim(s);
    if t == [] then Finite(0.0)
    else if t[0] == '+' then ParseUnsigned(t[1..])
    else if t[0] == '-' then Negate(ParseUnsigned(t[1..]))
    else ParseUnsigned(t)
  }

  lemma ParseDigits(d: string)
    requires |d| >= 1 && AllDigits(d)
    ensures ParseUnsigned(d) == Finite(DigitsValue(d) as real)
  {
    assert d != "Infinity" by { assert IsDigit(d[0]); }
    DigitPrefixAll(d);
  }

  /** `Number(String(n))` is n for every integer n. */
  lemma {:induction false} ParseNumberOfDecimal(n: int)
    ensures ParseNumber(IntToDecimal(n)) == Finite(n as real)
  {
    var s := IntToDecimal(n);
    DecimalNoSpace(n);
    TrimNoSpace(s);
    if n < 0 {
      var d := NatToDigits(-n);
      assert s == "-" + d && s[0] == '-' && s[1..] == d;
      ParseDigits(d);
      assert ParseNumber(s) == Negate(ParseUnsigned(d));
    } else {
      assert IsDigit(s[0]);
      ParseDigits(s);
      assert ParseNumber(s) == ParseUnsigned(s);
    }
  }

  /** `Number("+" + String(n))` is n for every natural n. */
  lemma {:induction false} ParseNumberOfSigned(n: nat)
    ensures ParseNumber("+" + NatToDigits(n)) == Finite(n as real)
  {
    var d := NatToDigits(n);
    var s := "+" + d;
    assert NoSpace(s) by {
      forall k | 0 <= k < |s| ensures !IsSpace(s[k]) {
        if k > 0 { assert s[k] == d[k - 1]; }
      }
    }
    TrimNoSpace(s);
    assert s[0] == '+' && s[1..] == d;
    ParseDigits(d);
    assert ParseNumber(s) == ParseUnsigned(d);
  }

  /** JS `Math.round`: nearest integer, halves rounded up. */
  function JsRound(x: real): (r: int)
    ensures x - 0.5 < r as real <= x + 0.5
  {
    (x + 0.5).Floor
  }

  /** JS `Math.trunc` on a finite value: towards zero. */
  function Trunc(x: real): (r: int)
    ensures x >= 0.0 ==> 0 <= r && r as real <= x < r as real + 1.0
    ensures x < 0.0 ==> r <= 0 && r as real - 1.0 < x <= r as real
  {
    if x >= 0.0 then x.Floor else -((-x).Floor)
  }

  function Abs(n: int): nat {
    if n < 0 then -n else n
  }

  function Min(a: int, b: int): int { if a <= b then a else b }

  function Max(a: int, b: int): int { if a >= b then a else b }
}
