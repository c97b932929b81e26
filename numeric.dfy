/**
 * Fixed-width unsigned integers and the canonical decimal text form of a `u64`
 * (what `u64::to_string` / `itoa` print and what `str::parse::<u64>` / `lexical::parse` read).
 */
module Numeric {
  import opened Wrappers

  const TWO_8: int := 0x100
  const TWO_16: int := 0x1_0000
  const TWO_32: int := 0x1_0000_0000
  const TWO_64: int := 0x1_0000_0000_0000_0000

  type U8 = n: nat | n < TWO_8
  type U16 = n: nat | n < TWO_16
  type U32 = n: nat | n < TWO_32
  type U64 = n: nat | n < TWO_64

  predicate IsDigit(c: char) {
    '0' <= c <= '9'
  }

  predicate AllDigits(s: string) {
    forall i :: 0 <= i < |s| ==> IsDigit(s[i])
  }

  /** A canonical decimal numeral: at least one digit and no leading zero unless it is "0". */
  predicate IsCanonical(s: string) {
    |s| > 0 && AllDigits(s) && (|s| > 1 ==> s[0] != '0')
  }

  function DigitChar(d: nat): (c: char)
    requires d < 10
    ensures IsDigit(c) && c as int - '0' as int == d
  {
    (d + '0' as int) as char
  }

  function DigitValue(c: char): (d: nat)
    requires IsDigit(c)
    ensures d < 10 && DigitChar(d) == c
  {
    c as int - '0' as int
  }

  /** The decimal digits of `n`, most significant first. */
  function ToDecimal(n: nat): (s: string)
    ensures IsCanonical(s)
    ensures s[0] == '0' <==> n == 0
    decreases n
  {
    if n < 10 then [DigitChar(n)] else ToDecimal(n / 10) + [DigitChar(n % 10)]
  }

  /** The value of a string of decimal digits (leading zeros allowed). */
  function DigitsValue(s: string): nat
    requires AllDigits(s)
  {
    if s == [] then 0 else DigitsValue(s[..|s| - 1]) * 10 + DigitValue(s[|s| - 1])
  }

  /**
   * Reading a `u64` from text: an optional '+' sign, then one or more decimal digits
   * whose value fits in 64 bits. Anything else (empty, a '-' sign, a non-digit,
   * overflow) is a parse error.
   */
  function ParseU64(s: string): (r: Option<U64>)
    ensures r.Some? ==> |s| > 0
  {
    var body := if |s| > 0 && s[0] == '+' then s[1..] else s;
    if |body| == 0 || !AllDigits(body) then None
    else
      var v := DigitsValue(body);
      if v < TWO_64 then Some(v) else None
  }

  lemma {:induction false} ToDecimalCanonical(n: nat)
    ensures IsCanonical(ToDecimal(n))
    ensures DigitsValue(ToDecimal(n)) == n
    decreases n
  {
    if n >= 10 {
      ToDecimalCanonical(n / 10);
      var p := ToDecimal(n / 10);
      var s := ToDecimal(n);
      assert s == p + [DigitChar(n % 10)];
      assert s[..|s| - 1] == p;
      assert |p| > 1 ==> p[0] != '0';
      assert |p| == 1 ==> p[0] != '0' by {
        if |p| == 1 {
          assert DigitsValue(p) == DigitValue(p[0]) by { assert p[..0] == []; }
        }
      }
    }
  }

  /** Printing a `u64` and reading it back gives the same value. */
  lemma DecimalRoundTrip(n: U64)
    ensures ParseU64(ToDecimal(n)) == Some(n)
  {
    ToDecimalCanonical(n);
  }

  lemma {:induction false} LeadingDigitPositive(s: string)
    requires |s| > 0 && AllDigits(s) && s[0] != '0'
    ensures DigitsValue(s) >= 1
    decreases |s|
  {
    if |s| > 1 {
      LeadingDigitPositive(s[..|s| - 1]);
    } else {
      assert s[..0] == [];
    }
  }

  /** Every canonical numeral is what `ToDecimal` prints for its value: the form is unique. */
  lemma {:induction false} CanonicalIsToDecimal(s: string)
    requires IsCanonical(s)
    ensures ToDecimal(DigitsValue(s)) == s
    decreases |s|
  {
    var v := DigitsValue(s);
    if |s| == 1 {
      assert s[..0] == [] && DigitsValue(s[..0]) == 0;
      assert v == DigitValue(s[0]);
      assert ToDecimal(v) == [s[0]];
    } else {
      var p := s[..|s| - 1];
      var d := DigitValue(s[|s| - 1]);
      assert p[0] == s[0];
      LeadingDigitPositive(p);
      CanonicalIsToDecimal(p);
      assert v == DigitsValue(p) * 10 + d;
      assert v >= 10 && v / 10 == DigitsValue(p) && v % 10 == d;
      assert s == p + [s[|s| - 1]];
    }
  }

  /** Two distinct values never print alike. */
  lemma ToDecimalInjective(m: nat, n: nat)
    requires ToDecimal(m) == ToDecimal(n)
    ensures m == n
  {
    ToDecimalCanonical(m);
    ToDecimalCanonical(n);
  }
}
