/** GnuCash amounts: numerator/denominator pairs of 64-bit integers, their exact
    decimal value, the two-place display string, and the debit/credit sign rule
    (backend/pkg/gnucash/rational.go).

    Decimals are exact rationals (`real`); the display string is what the
    decimal library's `StringFixed(2)` prints: round half away from zero to
    hundredths, an optional minus sign, the integer part and two digits. */
module Rational {
  import opened Wrappers
  import opened Text

  const MinInt64: int := -0x8000_0000_0000_0000
  const MaxInt64: int := 0x7fff_ffff_ffff_ffff
  const TwoTo64: int := 0x1_0000_0000_0000_0000

  /** Go's `int64`. */
  type Int64 = x: int | MinInt64 <= x <= MaxInt64

  /** The int64 that keeps the low 64 bits of `x` (two's complement), which is
      what a Go conversion of an out-of-range big integer yields. */
  function Wrap64(x: int): (r: Int64)
    ensures (r - x) % TwoTo64 == 0
    ensures MinInt64 <= x <= MaxInt64 ==> r == x
  {
    (x - MinInt64) % TwoTo64 + MinInt64
  }

  /** Go's `-v` on an int64: negation, except that the most negative value is its own negation. */
  function Negate64(v: Int64): (r: Int64)
    ensures v != MinInt64 ==> r + v == 0
    ensures v == MinInt64 ==> r == MinInt64
  {
    if v == MinInt64 then MinInt64 else -v
  }

  /** RationalToDecimal (rational.go:8-13): the exact quotient, and zero for a zero denominator. */
  function RationalToDecimal(numerator: Int64, denominator: Int64): (r: real)
    ensures denominator == 0 ==> r == 0.0
    ensures denominator != 0 ==> r * denominator as real == numerator as real
  {
    if denominator == 0 then 0.0 else numerator as real / denominator as real
  }

  /** Truncation toward zero (the decimal library's `IntPart`). */
  function Trunc(x: real): (r: int)
    ensures x >= 0.0 ==> 0 <= r && r as real <= x < r as real + 1.0
    ensures x < 0.0 ==> r <= 0 && r as real - 1.0 < x <= r as real
  {
    if x >= 0.0 then x.Floor else -((-x).Floor)
  }

  /** DecimalToRational (rational.go:16-19): the denominator is passed through and the
      numerator is `d * denominator` truncated toward zero, kept to 64 bits. */
  function DecimalToRational(d: real, denominator: Int64): (r: (Int64, Int64))
    ensures r.1 == denominator
    ensures (r.0 - Trunc(d * denominator as real)) % TwoTo64 == 0
    ensures MinInt64 <= Trunc(d * denominator as real) <= MaxInt64 ==> r.0 == Trunc(d * denominator as real)
  {
    (Wrap64(Trunc(d * denominator as real)), denominator)
  }

  /** Rounding to the nearest integer, ties away from zero (the decimal library's `Round`). */
  function RoundHalfAway(x: real): int {
    if x >= 0.0 then (x + 0.5).Floor else -((-x + 0.5).Floor)
  }

  /** `RoundHalfAway` gives the nearest integer, and on a tie the one farther from zero. */
  lemma RoundHalfAwayNearest(x: real)
    ensures x >= 0.0 ==> RoundHalfAway(x) as real - 0.5 <= x < RoundHalfAway(x) as real + 0.5
    ensures x < 0.0 ==> RoundHalfAway(x) as real - 0.5 < x <= RoundHalfAway(x) as real + 0.5
  {
  }

  function Abs(c: int): nat {
    if c < 0 then -c else c
  }

  /** The display form of a whole number of hundredths: "-" when negative, the
      integer part, ".", and exactly two fraction digits. */
  function FormatCents(c: int): (s: string)
    ensures |s| >= 4 && s[|s| - 3] == '.'
  {
    (if c < 0 then "-" else "") + Unsigned(Abs(c))
  }

  /** The display form of a non-negative number of hundredths. */
  function Unsigned(a: nat): (s: string)
    ensures |s| >= 4 && s[|s| - 3] == '.' && IsDigit(s[0])
  {
    NatToString(a / 100) + "." + [DigitChar(a % 100 / 10), DigitChar(a % 10)]
  }

  /** Reads a display string of the form `[-]digits.dd` back as hundredths. */
  function ParseCents(s: string): Option<int> {
    var neg := |s| > 0 && s[0] == '-';
    var body := if neg then s[1..] else s;
    if |body| < 4 || body[|body| - 3] != '.' || !AllDigits(body[..|body| - 3])
       || !IsDigit(body[|body| - 2]) || !IsDigit(body[|body| - 1]) then None
    else
      var v := DigitsValue(body[..|body| - 3]) * 100 + DigitValue(body[|body| - 2]) * 10 + DigitValue(body[|body| - 1]);
      Some(if neg then -v else v)
  }

  /** An unsigned string of the display form reads back as its digits' value. */
  lemma ParseUnsigned(body: string, digits: string, d1: nat, d2: nat)
    requires AllDigits(digits) && |digits| >= 1 && d1 < 10 && d2 < 10
    requires body == digits + "." + [DigitChar(d1), DigitChar(d2)]
    ensures ParseCents(body) == Some(DigitsValue(digits) * 100 + d1 * 10 + d2)
  {
    DisplayShape(body, digits, DigitChar(d1), DigitChar(d2));
    assert DigitValue(DigitChar(d1)) == d1 && DigitValue(DigitChar(d2)) == d2;
    ParseCentsFields(body);
  }

  lemma DisplayShape(body: string, digits: string, c1: char, c2: char)
    requires |digits| >= 1 && body == digits + "." + [c1, c2]
    ensures |body| >= 4 && body[0] == digits[0] && body[..|body| - 3] == digits
    ensures body[|body| - 3] == '.' && body[|body| - 2] == c1 && body[|body| - 1] == c2
  {
    assert body[..|body| - 3] == digits;
  }

  /** How `ParseCents` reads an unsigned string of the display form. */
  lemma ParseCentsFields(s: string)
    requires |s| >= 4 && s[0] != '-' && s[|s| - 3] == '.'
    requires AllDigits(s[..|s| - 3]) && IsDigit(s[|s| - 2]) && IsDigit(s[|s| - 1])
    ensures ParseCents(s) == Some(DigitsValue(s[..|s| - 3]) * 100 + DigitValue(s[|s| - 2]) * 10 + DigitValue(s[|s| - 1]))
  {
  }

  /** A leading "-" negates what the rest reads as. */
  lemma ParseNegated(body: string)
    requires |body| > 0 && body[0] != '-'
    ensures ParseCents("-" + body) == match ParseCents(body) case None => None case Some(v) => Some(-v)
  {
    assert ("-" + body)[1..] == body;
  }

  lemma HundredthsDigits(a: nat)
    ensures (a / 100) * 100 + (a % 100 / 10) * 10 + a % 10 == a
  {
  }

  /** Every display string reads back as the hundredths it was made from, so two
      different amounts of hundredths never share a display string. */
  lemma CentsRoundTrip(c: int)
    ensures ParseCents(FormatCents(c)) == Some(c)
  {
    var body := Unsigned(Abs(c));
    UnsignedRoundTrip(Abs(c));
    if c < 0 {
      assert FormatCents(c) == "-" + body;
      ParseNegated(body);
    } else {
      assert FormatCents(c) == body;
    }
  }

  lemma UnsignedRoundTrip(a: nat)
    ensures ParseCents(Unsigned(a)) == Some(a)
  {
    var digits := NatToString(a / 100);
    ParseUnsigned(Unsigned(a), digits, a % 100 / 10, a % 10);
    NatToStringRoundTrip(a / 100);
    HundredthsDigits(a);
  }

  /** `StringFixed(2)`: the display string of the hundredths nearest to `x`. */
  function StringFixed2(x: real): string {
    FormatCents(RoundHalfAway(x * 100.0))
  }

  /** The display string of `x` reads back as the hundredths nearest to `x`. */
  lemma StringFixed2Reads(x: real)
    ensures ParseCents(StringFixed2(x)) == Some(RoundHalfAway(x * 100.0))
  {
    CentsRoundTrip(RoundHalfAway(x * 100.0));
  }

  /** FormatAmount (rational.go:22-25): the amount's display string. */
  function FormatAmount(numerator: Int64, denominator: Int64): string {
    StringFixed2(RationalToDecimal(numerator, denominator))
  }

  /** The amount's display string reads back as the hundredths nearest to the
      amount's value; a zero denominator displays as "0.00". */
  lemma FormatAmountReads(numerator: Int64, denominator: Int64)
    ensures ParseCents(FormatAmount(numerator, denominator)) == Some(RoundHalfAway(RationalToDecimal(numerator, denominator) * 100.0))
    ensures denominator == 0 ==> FormatAmount(numerator, denominator) == "0.00"
  {
    StringFixed2Reads(RationalToDecimal(numerator, denominator));
    StringFixed2Sign(0.0);
  }

  /** NormalizeSign (rational.go:30-35): debit accounts keep the raw value, credit
      accounts get its (64-bit) negation. */
  function NormalizeSign(value: Int64, isDebitAccount: bool): (r: Int64)
    ensures isDebitAccount ==> r == value
    ensures !isDebitAccount && value != MinInt64 ==> r == -value
    ensures !isDebitAccount && value == MinInt64 ==> r == MinInt64
  {
    if isDebitAccount then value else Negate64(value)
  }

  /** Equal fractions have equal decimal values, e.g. 150/100 and 15/10. */
  lemma EquivalentFractions(n1: Int64, d1: Int64, n2: Int64, d2: Int64)
    requires d1 != 0 && d2 != 0
    requires n1 * d2 == n2 * d1
    ensures RationalToDecimal(n1, d1) == RationalToDecimal(n2, d2)
  {
    var x1, x2 := RationalToDecimal(n1, d1), RationalToDecimal(n2, d2);
    assert (n1 * d2) as real == n1 as real * d2 as real;
    assert (n2 * d1) as real == n2 as real * d1 as real;
    calc {
      x1 * (d1 as real * d2 as real);
      (x1 * d1 as real) * d2 as real;
      n1 as real * d2 as real;
      n2 as real * d1 as real;
      (x2 * d2 as real) * d1 as real;
      x2 * (d1 as real * d2 as real);
    }
    assert d1 as real * d2 as real != 0.0;
  }

  /** Converting to a decimal and back with the same non-zero denominator
      returns the original pair: the decimal is exact. */
  lemma DecimalRoundTrip(n: Int64, d: Int64)
    requires d != 0
    ensures DecimalToRational(RationalToDecimal(n, d), d) == (n, d)
  {
    var x := RationalToDecimal(n, d);
    assert x * d as real == n as real;
    assert (n as real).Floor == n;
    assert (-(n as real)).Floor == -(n as int);
    assert Trunc(x * d as real) == n;
  }

  /** Applying the sign rule twice with the same polarity gives the raw value back. */
  lemma NormalizeSignInvolution(v: Int64, isDebitAccount: bool)
    ensures NormalizeSign(NormalizeSign(v, isDebitAccount), isDebitAccount) == v
  {
  }

  /** The sign rule is not idempotent for credit accounts: 500 becomes -500 and then 500 again. */
  lemma NormalizeSignNotIdempotent()
    ensures NormalizeSign(500, true) == 500 && NormalizeSign(500, false) == -500
    ensures NormalizeSign(NormalizeSign(500, false), false) != NormalizeSign(500, false)
  {
  }

  /** Worked display values: 150/100 and 15/10 both show "1.50". */
  lemma FormatAmountOneFifty()
    ensures FormatAmount(150, 100) == "1.50"
    ensures FormatAmount(15, 10) == "1.50"
  {
    assert RationalToDecimal(150, 100) == 1.5;
    assert RationalToDecimal(15, 10) == 1.5;
    assert RoundHalfAway(150.0) == 150;
    assert NatToString(1) == "1";
    assert FormatCents(150) == "1.50";
  }

  /** A negative amount keeps its minus sign; a zero denominator shows "0.00",
      and so does a negative amount under half a hundredth (no "-0.00"). */
  lemma FormatAmountSigns()
    ensures FormatAmount(-150, 100) == "-1.50"
    ensures FormatAmount(7, 0) == "0.00"
    ensures FormatAmount(-4, 1000) == "0.00"
  {
    assert RationalToDecimal(-150, 100) == -1.5;
    assert RoundHalfAway(-150.0) == -150;
    assert NatToString(1) == "1";
    assert FormatCents(-150) == "-1.50";
    assert RationalToDecimal(-4, 1000) == -0.004;
    assert RoundHalfAway(-0.4) == 0;
    assert NatToString(0) == "0";
    assert FormatCents(0) == "0.00";
  }

  /** A non-negative amount is shown without a minus sign; zero is shown "0.00". */
  lemma StringFixed2Sign(x: real)
    ensures x >= 0.0 ==> StringFixed2(x)[0] != '-'
    ensures StringFixed2(0.0) == "0.00"
  {
    assert RoundHalfAway(0.0 * 100.0) == 0;
    assert NatToString(0) == "0";
    assert FormatCents(0) == "0.00";
    if x >= 0.0 {
      var c := RoundHalfAway(x * 100.0);
      assert c >= 0;
      assert FormatCents(c) == Unsigned(c);
    }
  }
}
