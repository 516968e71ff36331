/** Amounts are the source's two-decimal fixed-point values (`DecimalField`
    with `decimal_places=2`), held exactly as whole cents. This module gives
    Python's `f"{x:.2f}"` and the report's `"s/ "` currency cells, together
    with a reader that recovers the amount from a cell. */
module Money {
  import opened Wrappers

  predicate IsDigit(c: char)
  {
    '0' <= c <= '9'
  }

  predicate AllDigits(s: string)
  {
    forall i :: 0 <= i < |s| ==> IsDigit(s[i])
  }

  function Digit(n: nat): (c: char)
    requires n < 10
    ensures IsDigit(c) && c as int - '0' as int == n
  {
    (n + '0' as int) as char
  }

  function DigitValue(c: char): (n: nat)
    requires IsDigit(c)
    ensures n < 10 && Digit(n) == c
  {
    c as int - '0' as int
  }

  /** Decimal digits of `n`, most significant first, with no leading zero
      (`str(n)`). */
  function NatToString(n: nat): (s: string)
    ensures |s| >= 1 && AllDigits(s)
    ensures n > 0 ==> s[0] != '0'
    ensures |s| > 1 ==> s[0] != '0'
  {
    if n < 10 then [Digit(n)] else NatToString(n / 10) + [Digit(n % 10)]
  }

  /** The value of a string of decimal digits (`int(s)`). */
  function StringToNat(s: string): nat
    requires AllDigits(s)
  {
    if s == [] then 0 else StringToNat(s[..|s| - 1]) * 10 + DigitValue(s[|s| - 1])
  }

  lemma {:induction false} NatToStringRoundTrip(n: nat)
    ensures StringToNat(NatToString(n)) == n
  {
    var s := NatToString(n);
    if n >= 10 {
      assert s[..|s| - 1] == NatToString(n / 10);
      NatToStringRoundTrip(n / 10);
    }
  }

  /** `f"{x:.2f}"` for the amount of `cents` hundredths: an optional minus
      sign, the whole part, a point and exactly two decimals. */
  function Fixed2(cents: int): string
  {
    var a := if cents < 0 then -cents else cents;
    var c := a % 100;
    (if cents < 0 then "-" else "") + NatToString(a / 100) + "." + [Digit(c / 10), Digit(c % 10)]
  }

  /** A money cell of the report: `f"s/ {x:.2f}"`. */
  function Soles(cents: int): string
  {
    "s/ " + Fixed2(cents)
  }

  /** Reads a money cell back into cents; None when the text is not of the
      form `s/ [-]D+.DD`. */
  function ParseSoles(s: string): Option<int>
  {
    if |s| >= 7 && s[..3] == "s/ " && s[|s| - 3] == '.' then ParseSigned(s[3..|s| - 3], s[|s| - 2..])
    else None
  }

  function ParseSigned(body: string, frac: string): Option<int>
  {
    if |body| > 0 && body[0] == '-' then
      match ParseUnsigned(body[1..], frac)
      case None => None
      case Some(v) => Some(-v)
    else ParseUnsigned(body, frac)
  }

  function ParseUnsigned(whole: string, frac: string): Option<int>
  {
    if whole != [] && AllDigits(whole) && |frac| == 2 && AllDigits(frac) then
      Some(StringToNat(whole) * 100 + StringToNat(frac))
    else None
  }

  lemma TwoDigitsValue(hi: nat, lo: nat)
    requires hi < 10 && lo < 10
    ensures StringToNat([Digit(hi), Digit(lo)]) == hi * 10 + lo
  {
    var f := [Digit(hi), Digit(lo)];
    assert f[..1] == [Digit(hi)] && f[..1][..0] == [];
    assert StringToNat(f[..1]) == hi;
  }

  /** The reader strips the "s/ " prefix and splits at the point before the
      last two characters. */
  lemma ParseSolesSplit(body: string, frac: string)
    requires |body| >= 1 && |frac| == 2
    ensures ParseSoles("s/ " + body + "." + frac) == ParseSigned(body, frac)
  {
    var s := "s/ " + body + "." + frac;
    assert |s| == |body| + 6;
    assert s[..3] == "s/ ";
    assert s[|s| - 3] == '.';
    assert s[3..|s| - 3] == body;
    assert s[|s| - 2..] == frac;
  }

  lemma ParseSignedNegative(whole: string, frac: string)
    ensures ParseSigned("-" + whole, frac)
            == match ParseUnsigned(whole, frac) case None => None case Some(v) => Some(-v)
  {
    var body := "-" + whole;
    assert body[0] == '-' && body[1..] == whole;
  }

  lemma ParseSignedPositive(whole: string, frac: string)
    requires |whole| >= 1 && IsDigit(whole[0])
    ensures ParseSigned(whole, frac) == ParseUnsigned(whole, frac)
  {
  }

  /** The whole part and the two decimals together give back the magnitude. */
  lemma MagnitudeRoundTrip(a: nat)
    ensures ParseUnsigned(NatToString(a / 100), [Digit(a % 100 / 10), Digit(a % 100 % 10)]) == Some(a)
  {
    var q, c := a / 100, a % 100;
    NatToStringRoundTrip(q);
    TwoDigitsValue(c / 10, c % 10);
    assert c / 10 * 10 + c % 10 == c;
    assert q * 100 + c == a;
  }

  /** Every money cell reads back as the amount it shows. */
  lemma SolesRoundTrip(cents: int)
    ensures ParseSoles(Soles(cents)) == Some(cents)
  {
    var a: nat := if cents < 0 then -cents else cents;
    var whole := NatToString(a / 100);
    var frac := [Digit(a % 100 / 10), Digit(a % 100 % 10)];
    MagnitudeRoundTrip(a);
    if cents < 0 {
      assert Soles(cents) == "s/ " + ("-" + whole) + "." + frac;
      ParseSolesSplit("-" + whole, frac);
      ParseSignedNegative(whole, frac);
    } else {
      assert Soles(cents) == "s/ " + whole + "." + frac;
      ParseSolesSplit(whole, frac);
      ParseSignedPositive(whole, frac);
    }
  }

  /** `f"{x:.2f}"` is a minus sign exactly for negative amounts, then the
      digits of the whole part, a point and exactly two decimals. */
  lemma Fixed2Forma(cents: int)
    ensures var s, k := Fixed2(cents), if cents < 0 then 1 else 0;
      && |s| >= k + 4
      && (cents < 0 ==> s[0] == '-')
      && IsDigit(s[k]) && AllDigits(s[k..|s| - 3])
      && s[|s| - 3] == '.'
      && AllDigits(s[|s| - 2..])
  {
    var a: nat := if cents < 0 then -cents else cents;
    var signo := if cents < 0 then "-" else "";
    var whole := NatToString(a / 100);
    var frac := [Digit(a % 100 / 10), Digit(a % 100 % 10)];
    var s := Fixed2(cents);
    assert s == signo + whole + "." + frac;
    assert s[|signo|..|s| - 3] == whole;
    assert s[|s| - 2..] == frac;
    assert s[|signo|] == whole[0];
  }

  /** Money cells as the report shows them. */
  lemma SolesEjemplos()
    ensures Soles(15000) == "s/ 150.00"
    ensures Soles(-5) == "s/ -0.05"
  {
    assert NatToString(1) == "1";
    assert NatToString(15) == "15";
    assert NatToString(150) == "150";
    assert Fixed2(15000) == "150" + "." + "00";
    assert NatToString(0) == "0";
    assert Fixed2(-5) == "-" + "0" + "." + "05";
  }

  /** The zero amount, as shown by an empty breakdown's totals. */
  lemma SolesZero()
    ensures Soles(0) == "s/ 0.00"
  {
    assert NatToString(0) == "0";
  }
}
