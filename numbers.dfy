/**
 * JavaScript numbers as the bridge uses them: exact reals, or NaN (what unary
 * plus yields for text that is not a number). Infinity does not arise in the
 * modelled code except through a division by a zero range, which callers
 * exclude.
 */
module Numbers {
  import opened Wrappers

  datatype Number = Finite(r: real) | NaN

  /** Math.round: the nearest integer, with halves rounded up. */
  function Round(x: real): (n: int)
    ensures n as real - 0.5 <= x < n as real + 0.5
  {
    (x + 0.5).Floor
  }

  predicate IsIntegral(x: real) {
    x == x.Floor as real
  }

  predicate IsDigit(c: char) {
    '0' <= c <= '9'
  }

  predicate AllDigits(s: string) {
    forall i :: 0 <= i < |s| ==> IsDigit(s[i])
  }

  /** The value of a string of decimal digits, most significant first. */
  function DigitsValue(s: string): nat
    requires AllDigits(s)
  {
    if s == [] then 0 else DigitsValue(s[..|s| - 1]) * 10 + (s[|s| - 1] as int - '0' as int)
  }

  function Pow10(n: nat): (p: nat)
    ensures p >= 1
  {
    if n == 0 then 1 else 10 * Pow10(n - 1)
  }

  /** The position of the first occurrence of c in s. */
  function IndexOf(s: string, c: char): (k: Option<nat>)
    ensures k.Some? ==> k.value < |s| && s[k.value] == c && c !in s[..k.value]
    ensures k.None? ==> c !in s
  {
    if s == [] then None
    else if s[0] == c then Some(0)
    else match IndexOf(s[1..], c)
      case None => None
      case Some(i) => Some(i + 1)
  }

  /** An unsigned decimal literal: digits, optionally a point and more digits, at least one digit in all. */
  function UnsignedDecimal(s: string): Option<real> {
    match IndexOf(s, '.')
    case None =>
      if s != [] && AllDigits(s) then Some(DigitsValue(s) as real) else None
    case Some(i) =>
      var whole, fraction := s[..i], s[i + 1..];
      if AllDigits(whole) && AllDigits(fraction) && |whole| + |fraction| > 0 then
        Some(DigitsValue(whole) as real + DigitsValue(fraction) as real / Pow10(|fraction|) as real)
      else None
  }

  /**
   * Unary plus applied to a string: the empty string is 0, an optionally
   * signed decimal literal is its value, anything else is NaN.
   */
  function StringToNumber(s: string): Number {
    if s == "" then Finite(0.0)
    else
      var negative := s[0] == '-';
      var body := if s[0] == '-' || s[0] == '+' then s[1..] else s;
      match UnsignedDecimal(body)
      case None => NaN
      case Some(v) => Finite(if negative then -v else v)
  }

  function DigitChar(d: nat): char
    requires d < 10
  {
    ('0' as int + d) as char
  }

  /** The decimal text of a natural number, without leading zeros. */
  function NatText(n: nat): string {
    if n < 10 then [DigitChar(n)] else NatText(n / 10) + [DigitChar(n % 10)]
  }

  /** The text a template literal gives an integer. */
  function IntText(i: int): string {
    if i < 0 then "-" + NatText(-i) else NatText(i)
  }

  /**
   * The text a template literal gives a number, where the model fixes it:
   * integers and NaN. The shortest round-trip rendering of other reals is
   * not modelled.
   */
  function NumberText(n: Number): Option<string> {
    match n
    case NaN => Some("NaN")
    case Finite(r) => if IsIntegral(r) then Some(IntText(r.Floor)) else None
  }

  lemma {:induction false} NatTextDigits(n: nat)
    ensures |NatText(n)| > 0 && AllDigits(NatText(n)) && DigitsValue(NatText(n)) == n
    ensures NatText(n)[0] != '-' && NatText(n)[0] != '+' && '.' !in NatText(n)
  {
    if n >= 10 {
      NatTextDigits(n / 10);
      var t := NatText(n);
      assert t[..|t| - 1] == NatText(n / 10);
    }
  }

  /** Reading back the text of an integer gives the integer. */
  lemma IntTextRoundTrip(i: int)
    ensures StringToNumber(IntText(i)) == Finite(i as real)
  {
    if i < 0 {
      NatTextDigits(-i);
      assert IntText(i)[1..] == NatText(-i);
    } else {
      NatTextDigits(i);
    }
  }

  /** Every number whose text the model fixes reads back as itself. */
  lemma NumberTextRoundTrip(n: Number)
    requires NumberText(n).Some?
    ensures StringToNumber(NumberText(n).value) == n
  {
    if n.Finite? {
      IntTextRoundTrip(n.r.Floor);
    } else {
      assert IndexOf("NaN", '.') == None;
    }
  }
}
