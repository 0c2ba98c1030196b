/**
 * The face-value text of a unit in the breakdown ("£20", "£2", "50p").
 * A face of at least £1 is written in pounds the way a JavaScript number
 * prints (no trailing zeros, no decimal point when whole); a smaller face is
 * written in whole pence.
 */
module Format {
  import opened Denominations

  predicate IsDigit(c: char)
  {
    '0' <= c <= '9'
  }

  predicate AllDigits(s: string)
  {
    forall k :: 0 <= k < |s| ==> IsDigit(s[k])
  }

  function Digit(d: nat): (c: char)
    requires d < 10
    ensures IsDigit(c)
  {
    ('0' as int + d) as char
  }

  function DigitValue(c: char): (d: nat)
    requires IsDigit(c)
    ensures d < 10
  {
    c as int - '0' as int
  }

  /** The decimal text of a natural number, without leading zeros. */
  function NatText(n: nat): (s: string)
    ensures |s| > 0 && AllDigits(s)
    ensures |s| > 1 ==> s[0] != '0'
    decreases n
  {
    if n < 10 then [Digit(n)] else NatText(n / 10) + [Digit(n % 10)]
  }

  /** The number a string of digits spells. */
  function DigitsValue(s: string): nat
    requires AllDigits(s)
    decreases |s|
  {
    if |s| == 0 then 0 else DigitsValue(s[..|s| - 1]) * 10 + DigitValue(s[|s| - 1])
  }

  lemma {:induction false} NatTextRoundTrip(n: nat)
    ensures DigitsValue(NatText(n)) == n
    decreases n
  {
    if n >= 10 {
      var s := NatText(n);
      assert s[..|s| - 1] == NatText(n / 10);
      NatTextRoundTrip(n / 10);
    }
  }

  /** The pence of a face of at least £1, after the point: nothing when whole
      pounds, one digit when a multiple of 10p, otherwise two. */
  function FractionText(f: nat): (s: string)
    requires f < 100
    ensures s == "" || (s[0] == '.' && AllDigits(s[1..]))
    ensures s != "" ==> s[|s| - 1] != '0'
  {
    if f == 0 then ""
    else if f % 10 == 0 then "." + [Digit(f / 10)]
    else "." + [Digit(f / 10), Digit(f % 10)]
  }

  /** The face-value text of a unit, from its face in pence. */
  function FormatDenomination(face: pos): (s: string)
    ensures |s| >= 2 && (s[0] == '£' <==> face >= 100)
    ensures face < 100 ==> s[|s| - 1] == 'p' && AllDigits(s[..|s| - 1])
  {
    if face >= 100 then "£" + NatText(face / 100) + FractionText(face % 100)
    else NatText(face) + "p"
  }

  /** Index of the first decimal point of s, or |s| when it has none. */
  function FindDot(s: string): (k: nat)
    ensures k <= |s| && (k < |s| ==> s[k] == '.')
    ensures forall j :: 0 <= j < k ==> s[j] != '.'
    decreases |s|
  {
    if |s| == 0 then 0 else if s[0] == '.' then 0 else 1 + FindDot(s[1..])
  }

  /** The pence an after-the-point text stands for. */
  function ParseFraction(s: string): Option<nat>
  {
    if s == "" then Some(0)
    else if |s| == 2 && s[0] == '.' && IsDigit(s[1]) then Some(10 * DigitValue(s[1]))
    else if |s| == 3 && s[0] == '.' && IsDigit(s[1]) && IsDigit(s[2]) then
      Some(10 * DigitValue(s[1]) + DigitValue(s[2]))
    else None
  }

  /** Reads a face-value text back to pence; None when it is not one. */
  function ParseDenomination(s: string): (r: Option<pos>)
    ensures r.Some? && |s| > 0 && s[0] == '£' ==> r.value >= 100
    ensures r.Some? && !(|s| > 0 && s[0] == '£') ==> r.value < 100
  {
    if |s| > 0 && s[0] == '£' then
      var body := s[1..];
      var k := FindDot(body);
      var whole := body[..k];
      if |whole| > 0 && AllDigits(whole) then
        match ParseFraction(body[k..])
        case Some(f) =>
          var value := DigitsValue(whole) * 100 + f;
          if value >= 100 then Some(value) else None
        case None => None
      else None
    else if |s| > 1 && s[|s| - 1] == 'p' && AllDigits(s[..|s| - 1]) then
      var value := DigitsValue(s[..|s| - 1]);
      if 0 < value < 100 then Some(value) else None
    else None
  }

  /** The first decimal point of a digit string followed by a fraction text
      is where the fraction starts. */
  lemma FindDotAfterDigits(a: string, b: string)
    requires AllDigits(a) && (b == "" || b[0] == '.')
    ensures FindDot(a + b) == |a|
  {
    assert forall j :: 0 <= j < |a| ==> (a + b)[j] == a[j];
    assert b != "" ==> (a + b)[|a|] == b[0];
  }

  lemma PoundsRoundTrip(face: pos)
    requires face >= 100
    ensures ParseDenomination(FormatDenomination(face)) == Some(face)
  {
    var s := FormatDenomination(face);
    var w := NatText(face / 100);
    var f := FractionText(face % 100);
    assert s[1..] == w + f;
    FindDotAfterDigits(w, f);
    assert s[1..][..|w|] == w && s[1..][|w|..] == f;
    NatTextRoundTrip(face / 100);
  }

  lemma PenceRoundTrip(face: pos)
    requires face < 100
    ensures ParseDenomination(FormatDenomination(face)) == Some(face)
  {
    var s := FormatDenomination(face);
    assert s[..|s| - 1] == NatText(face);
    NatTextRoundTrip(face);
  }

  /** The text of every face reads back to that face, so no two units share
      a text. */
  lemma FormatRoundTrip(face: pos)
    ensures ParseDenomination(FormatDenomination(face)) == Some(face)
  {
    if face >= 100 {
      PoundsRoundTrip(face);
    } else {
      PenceRoundTrip(face);
    }
  }

  lemma FormatInjective(a: pos, b: pos)
    requires FormatDenomination(a) == FormatDenomination(b)
    ensures a == b
  {
    FormatRoundTrip(a);
    FormatRoundTrip(b);
  }

  /** The texts of the twelve units of the till. */
  lemma UnitTexts()
    ensures FormatDenomination(5000) == "£50" && FormatDenomination(2000) == "£20"
    ensures FormatDenomination(1000) == "£10" && FormatDenomination(500) == "£5"
    ensures FormatDenomination(200) == "£2" && FormatDenomination(100) == "£1"
    ensures FormatDenomination(50) == "50p" && FormatDenomination(20) == "20p"
    ensures FormatDenomination(10) == "10p" && FormatDenomination(5) == "5p"
    ensures FormatDenomination(2) == "2p" && FormatDenomination(1) == "1p"
  {
  }

  /** A face with pence beyond whole pounds keeps only significant digits. */
  lemma FractionTexts()
    ensures FormatDenomination(150) == "£1.5" && FormatDenomination(105) == "£1.05"
  {
  }
}
