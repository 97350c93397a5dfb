/** Text: ASCII letter case, spaces, and numbers written in digits. */
module Text {

  // ---------- case ----------

  function LowerChar(c: char): char {
    if 'A' <= c <= 'Z' then (c as int + 32) as char else c
  }

  function Lower(s: string): (r: string)
    ensures |r| == |s| && forall i | 0 <= i < |s| :: r[i] == LowerChar(s[i])
  {
    seq(|s|, i requires 0 <= i < |s| => LowerChar(s[i]))
  }

  lemma LowerTwice(s: string)
    ensures Lower(Lower(s)) == Lower(s)
  {
  }

  lemma LowerConcat(a: string, b: string)
    ensures Lower(a + b) == Lower(a) + Lower(b)
  {
  }

  // ---------- digits ----------

  const DIGITS: string := "0123456789abcdef"

  function DigitChar(d: nat): char
    requires d < 16
  {
    DIGITS[d]
  }

  type Radix = r: nat | r == 10 || r == 16 witness 10

  predicate IsDigit(c: char, radix: Radix) {
    ('0' <= c <= '9' && (c as int) - 48 < radix) || ('a' <= c <= 'f' && (c as int) - 87 < radix)
  }

  function DigitValue(c: char): (d: nat)
    requires IsDigit(c, 16)
    ensures d < 16
  {
    if c <= '9' then (c as int) - 48 else (c as int) - 87
  }

  predicate AllDigits(s: string, radix: Radix) {
    forall i | 0 <= i < |s| :: IsDigit(s[i], radix)
  }

  function Shifted(n: nat, radix: Radix): nat {
    if radix == 10 then 10 * n else 16 * n
  }

  function Quotient(n: nat, radix: Radix): nat {
    if radix == 10 then n / 10 else n / 16
  }

  function LastDigit(n: nat, radix: Radix): (d: nat)
    ensures d < radix
  {
    if radix == 10 then n % 10 else n % 16
  }

  function Pow(radix: Radix, n: nat): (p: nat)
    ensures p > 0
  {
    if n == 0 then 1 else Shifted(Pow(radix, n - 1), radix)
  }

  function ValueOf(s: string, radix: Radix): nat
    requires AllDigits(s, radix)
  {
    if s == "" then 0 else Shifted(ValueOf(s[..|s| - 1], radix), radix) + DigitValue(s[|s| - 1])
  }

  /** Fixed width: the low digits, with leading zeros. */
  function Digits(n: nat, radix: Radix, width: nat): (s: string)
    ensures |s| == width
  {
    if width == 0 then "" else Digits(Quotient(n, radix), radix, width - 1) + [DigitChar(LastDigit(n, radix))]
  }

  /** As many decimal digits as the number needs. */
  function Decimal(n: nat): (s: string)
    ensures s != ""
  {
    if n < 10 then [DigitChar(n)] else Decimal(n / 10) + [DigitChar(n % 10)]
  }

  lemma DigitCharValue(d: nat, radix: Radix)
    requires d < radix
    ensures IsDigit(DigitChar(d), radix) && DigitValue(DigitChar(d)) == d
  {
    assert |DIGITS| == 16;
    assert forall k | 0 <= k < 10 :: DIGITS[k] as int == 48 + k;
    assert forall k | 10 <= k < 16 :: DIGITS[k] as int == 87 + k;
  }

  lemma DigitValueChar(c: char, radix: Radix)
    requires IsDigit(c, radix)
    ensures DigitValue(c) < radix && DigitChar(DigitValue(c)) == c
  {
    DigitCharValue(DigitValue(c), 16);
  }

  lemma SplitNumber(n: nat, radix: Radix, p: nat)
    ensures n == Shifted(Quotient(n, radix), radix) + LastDigit(n, radix)
    ensures n < Shifted(p, radix) <==> Quotient(n, radix) < p
  {
  }

  lemma JoinNumber(high: nat, d: nat, radix: Radix)
    requires d < radix
    ensures Quotient(Shifted(high, radix) + d, radix) == high && LastDigit(Shifted(high, radix) + d, radix) == d
  {
  }

  lemma ValueOfLast(s: string, c: char, radix: Radix)
    requires AllDigits(s, radix) && IsDigit(c, radix)
    ensures AllDigits(s + [c], radix) && ValueOf(s + [c], radix) == Shifted(ValueOf(s, radix), radix) + DigitValue(c)
  {
    assert (s + [c])[..|s|] == s;
  }

  lemma {:induction false} DigitsAreDigits(n: nat, radix: Radix, width: nat)
    ensures AllDigits(Digits(n, radix, width), radix)
  {
    if width > 0 {
      DigitsAreDigits(Quotient(n, radix), radix, width - 1);
      DigitCharValue(LastDigit(n, radix), radix);
    }
  }

  lemma {:induction false} ValueOfDigits(n: nat, radix: Radix, width: nat)
    requires n < Pow(radix, width)
    ensures AllDigits(Digits(n, radix, width), radix) && ValueOf(Digits(n, radix, width), radix) == n
  {
    if width > 0 {
      var high, d := Quotient(n, radix), LastDigit(n, radix);
      SplitNumber(n, radix, Pow(radix, width - 1));
      ValueOfDigits(high, radix, width - 1);
      DigitCharValue(d, radix);
      ValueOfLast(Digits(high, radix, width - 1), DigitChar(d), radix);
    }
  }

  lemma {:induction false} ValueFitsWidth(s: string, radix: Radix)
    requires AllDigits(s, radix)
    ensures ValueOf(s, radix) < Pow(radix, |s|)
  {
    if s != "" {
      var init, last := s[..|s| - 1], s[|s| - 1];
      ValueFitsWidth(init, radix);
      DigitValueChar(last, radix);
      assert ValueOf(init, radix) + 1 <= Pow(radix, |init|);
    }
  }

  lemma DigitsOneMore(high: nat, c: char, radix: Radix, width: nat)
    requires IsDigit(c, radix)
    ensures Digits(Shifted(high, radix) + DigitValue(c), radix, width + 1) == Digits(high, radix, width) + [c]
  {
    DigitValueChar(c, radix);
    JoinNumber(high, DigitValue(c), radix);
  }

  lemma DigitsOfJoined(value: nat, high: nat, init: string, c: char, radix: Radix)
    requires IsDigit(c, radix) && value == Shifted(high, radix) + DigitValue(c)
    requires Digits(high, radix, |init|) == init
    ensures Digits(value, radix, |init| + 1) == init + [c]
  {
    DigitsOneMore(high, c, radix, |init|);
  }

  lemma ValueSplits(s: string, radix: Radix)
    requires AllDigits(s, radix) && s != ""
    ensures var init, last := s[..|s| - 1], s[|s| - 1];
            AllDigits(init, radix) && ValueOf(s, radix) == Shifted(ValueOf(init, radix), radix) + DigitValue(last)
  {
  }

  lemma {:induction false} DigitsBack(s: string, radix: Radix)
    requires AllDigits(s, radix)
    ensures Digits(ValueOf(s, radix), radix, |s|) == s
  {
    if s != "" {
      var init, last := s[..|s| - 1], s[|s| - 1];
      ValueSplits(s, radix);
      DigitsBack(init, radix);
      DigitsOfJoined(ValueOf(s, radix), ValueOf(init, radix), init, last, radix);
      assert s == init + [last];
    }
  }

  /** Digits of a fixed width and numbers below the radix to that width name each other. */
  lemma DigitsOfValue(s: string, radix: Radix)
    requires AllDigits(s, radix)
    ensures ValueOf(s, radix) < Pow(radix, |s|) && Digits(ValueOf(s, radix), radix, |s|) == s
  {
    ValueFitsWidth(s, radix);
    DigitsBack(s, radix);
  }

  lemma {:induction false} ValueOfDecimal(n: nat)
    ensures AllDigits(Decimal(n), 10) && ValueOf(Decimal(n), 10) == n
  {
    DigitCharValue(n % 10, 10);
    if n < 10 {
      assert Decimal(n)[..0] == "";
    } else {
      ValueOfDecimal(n / 10);
      assert Decimal(n)[..|Decimal(n)| - 1] == Decimal(n / 10);
    }
  }
}
