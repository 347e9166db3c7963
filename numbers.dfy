/**
 * JavaScript numbers as the adapter prints them with `String(x)` and
 * `x.toString()`. A number is kept in the shortest decimal form that names it,
 * units / 10^scale with no trailing fractional zero, which is the form
 * JavaScript prints for magnitudes between 1e-6 and 1e21.
 */
module JsNumber {
  import opened Options

  function Pow10(n: nat): (r: nat)
    ensures r >= 1
  {
    if n == 0 then 1 else 10 * Pow10(n - 1)
  }

  datatype Decimal = Decimal(units: int, scale: nat)

  /** No trailing zero after the decimal point. */
  predicate Shortest(d: Decimal)
  {
    d.scale == 0 || d.units % 10 != 0
  }

  type Number = d: Decimal | Shortest(d) witness Decimal(0, 0)

  /** A whole number of the given value. */
  function Whole(n: int): Number
  {
    Decimal(n, 0)
  }

  predicate IsDigit(c: char)
  {
    '0' <= c <= '9'
  }

  predicate AllDigits(s: string)
  {
    forall i :: 0 <= i < |s| ==> IsDigit(s[i])
  }

  function DigitChar(d: nat): (c: char)
    requires d < 10
    ensures IsDigit(c) && c as int - '0' as int == d
  {
    (d + '0' as int) as char
  }

  /** The decimal digits of `n`, without leading zeros ("0" for zero). */
  function NatToString(n: nat): (s: string)
    ensures |s| >= 1 && AllDigits(s)
  {
    if n < 10 then [DigitChar(n)] else NatToString(n / 10) + [DigitChar(n % 10)]
  }

  /** The last `width` decimal digits of `n`, with leading zeros. */
  function PaddedDigits(n: nat, width: nat): (s: string)
    ensures |s| == width && AllDigits(s)
  {
    if width == 0 then [] else PaddedDigits(n / 10, width - 1) + [DigitChar(n % 10)]
  }

  /** The value of a string of decimal digits (zero for the empty string). */
  function DigitsValue(s: string): nat
    requires AllDigits(s)
  {
    if s == [] then 0 else DigitsValue(s[..|s| - 1]) * 10 + (s[|s| - 1] as int - '0' as int)
  }

  lemma {:induction false} NatToStringValue(n: nat)
    ensures DigitsValue(NatToString(n)) == n
  {
    if n >= 10 {
      var s := NatToString(n);
      assert s[..|s| - 1] == NatToString(n / 10);
      NatToStringValue(n / 10);
    }
  }

  lemma {:induction false} PaddedDigitsValue(n: nat, width: nat)
    requires n < Pow10(width)
    ensures DigitsValue(PaddedDigits(n, width)) == n
  {
    if width > 0 {
      var s := PaddedDigits(n, width);
      assert s[..|s| - 1] == PaddedDigits(n / 10, width - 1);
      PaddedDigitsValue(n / 10, width - 1);
    }
  }

  function Abs(x: int): nat
  {
    if x < 0 then -x else x
  }

  /** `String(x)`: an optional minus sign, the whole part, and the fraction when there is one. */
  function ToString(x: Number): (s: string)
    ensures |s| > 0 && (s[0] == '-' <==> x.units < 0)
  {
    (if x.units < 0 then "-" else "") + Unsigned(Abs(x.units), x.scale)
  }

  /** The printed form of the magnitude units / 10^scale. */
  function Unsigned(m: nat, scale: nat): (s: string)
    ensures |s| > 0 && IsDigit(s[0])
  {
    var p := Pow10(scale);
    DivMod(m, p);
    NatToString(m / p) + (if scale == 0 then "" else "." + PaddedDigits(m % p, scale))
  }

  /** Euclidean division by a positive divisor, kept apart so the arithmetic is proved once. */
  lemma DivMod(m: nat, p: nat)
    requires p >= 1
    ensures m / p >= 0 && 0 <= m % p < p && m == (m / p) * p + m % p
  {
  }

  /** The position of the first '.', or the length of the string when there is none. */
  function FirstDot(s: string): (k: nat)
    ensures k <= |s|
    ensures k < |s| ==> s[k] == '.'
    ensures forall i :: 0 <= i < k ==> s[i] != '.'
  {
    if s == [] || s[0] == '.' then 0 else 1 + FirstDot(s[1..])
  }

  /** Reads back an unsigned decimal literal such as "12" or "0.05". */
  function ParseUnsigned(s: string): Option<Decimal>
  {
    var k := FirstDot(s);
    ParseParts(s[..k], if k < |s| then s[k + 1..] else "", k < |s|)
  }

  /** The value of a whole part and a fraction part, both non-empty digits when a '.' separates them. */
  function ParseParts(whole: string, fraction: string, hasDot: bool): Option<Decimal>
  {
    if whole != [] && AllDigits(whole) && AllDigits(fraction) && (hasDot ==> fraction != []) then
      Some(Decimal(DigitsValue(whole) * Pow10(|fraction|) + DigitsValue(fraction), |fraction|))
    else
      None
  }

  /** Reads back a decimal literal, with an optional leading minus sign. */
  function Parse(s: string): Option<Decimal>
  {
    if |s| > 0 && s[0] == '-' then
      match ParseUnsigned(s[1..])
      case None => None
      case Some(d) => Some(Decimal(-d.units, d.scale))
    else
      ParseUnsigned(s)
  }

  /** In digits followed by nothing or by a '.', the first '.' is where the digits end. */
  lemma DotAfterDigits(head: string, tail: string)
    requires AllDigits(head) && (tail == [] || tail[0] == '.')
    ensures FirstDot(head + tail) == |head|
  {
    var s := head + tail;
    assert s[..|head|] == head;
    if tail != [] {
      assert s[|head|] == '.';
    }
  }

  /** A literal with a fraction reads back digit group by digit group. */
  lemma ParseWithFraction(head: string, fraction: string)
    requires head != [] && AllDigits(head) && fraction != [] && AllDigits(fraction)
    ensures ParseUnsigned(head + "." + fraction) == ParseParts(head, fraction, true)
  {
    var s := head + ("." + fraction);
    assert head + "." + fraction == s;
    DotAfterDigits(head, "." + fraction);
    var k := |head|;
    assert s[..k] == head;
    assert s[k + 1..] == fraction;
    assert ParseUnsigned(s) == ParseParts(head, fraction, true);
  }

  /** A literal without a fraction reads back as a whole number. */
  lemma ParseWithoutFraction(head: string)
    requires head != [] && AllDigits(head)
    ensures ParseUnsigned(head) == Some(Decimal(DigitsValue(head), 0))
  {
    DotAfterDigits(head, "");
    assert head + "" == head;
    assert head[..|head|] == head;
  }

  /** The unsigned part of `ToString` reads back as the magnitude. */
  lemma UnsignedRoundTrip(m: nat, scale: nat)
    ensures ParseUnsigned(Unsigned(m, scale)) == Some(Decimal(m, scale))
  {
    var p := Pow10(scale);
    DivMod(m, p);
    var head := NatToString(m / p);
    NatToStringValue(m / p);
    if scale > 0 {
      var fraction := PaddedDigits(m % p, scale);
      PaddedDigitsValue(m % p, scale);
      assert Unsigned(m, scale) == head + "." + fraction;
      ParseWithFraction(head, fraction);
      assert ParseParts(head, fraction, true) == Some(Decimal((m / p) * p + m % p, scale));
    } else {
      assert Unsigned(m, scale) == head;
      ParseWithoutFraction(head);
    }
  }

  /** `String(x)` loses nothing: reading the string back gives the same number. */
  lemma ParseToString(x: Number)
    ensures Parse(ToString(x)) == Some(x)
  {
    var body := Unsigned(Abs(x.units), x.scale);
    UnsignedRoundTrip(Abs(x.units), x.scale);
    if x.units < 0 {
      assert ToString(x)[1..] == body;
    } else {
      assert ToString(x) == body;
      assert IsDigit(body[0]);
    }
  }

  /** One and a half prints as "1.5", with no drift from the literal. */
  lemma OneAndAHalf()
    ensures ToString(Decimal(15, 1)) == "1.5"
  {
    assert Pow10(1) == 10;
    assert NatToString(1) == "1";
    assert PaddedDigits(5, 1) == "5";
  }

  /** Different numbers print differently. */
  lemma ToStringInjective(x: Number, y: Number)
    requires ToString(x) == ToString(y)
    ensures x == y
  {
    ParseToString(x);
    ParseToString(y);
  }
}
