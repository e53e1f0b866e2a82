/**
 * Fixed-width integers and the two decimal conversions the model needs:
 * Rust's `u16::from_str` (used for EDE codes) and `format!("{n}")` (used for
 * the dig timeout).
 */
module Numbers {
  import opened Basics

  newtype u8 = x: int | 0 <= x < 0x100
  newtype u16 = x: int | 0 <= x < 0x1_0000
  newtype u32 = x: int | 0 <= x < 0x1_0000_0000

  const U16_MAX: nat := 0xFFFF

  /** `core::num::IntErrorKind`, restricted to what an unsigned parse can report. */
  datatype IntErrorKind = Empty | InvalidDigit | PosOverflow

  predicate IsDigit(c: char)
  {
    '0' <= c <= '9'
  }

  function DigitValue(c: char): nat
    requires IsDigit(c)
  {
    (c as int) - ('0' as int)
  }

  predicate AllDigits(s: string)
  {
    forall k :: 0 <= k < |s| ==> IsDigit(s[k])
  }

  /** The value of a run of decimal digits, read left to right. */
  function Value(s: string): nat
    requires AllDigits(s)
  {
    if s == [] then 0 else Value(s[..|s| - 1]) * 10 + DigitValue(s[|s| - 1])
  }

  /** What an unsigned Rust parse takes as the digits: everything after one optional leading `+`. */
  function Digits(s: string): string
  {
    if s != [] && s[0] == '+' then s[1..] else s
  }

  /** A numeral `u16::from_str` can read when the value fits: an optional `+`, then one or more digits. */
  predicate IsNumeral(s: string)
  {
    Digits(s) != [] && AllDigits(Digits(s))
  }

  /** The digit loop of `from_str_radix`: `acc` holds the value of `s[..i]`; overflow is checked digit by digit. */
  function Accumulate(s: string, i: nat, acc: u16): (r: Result<u16, IntErrorKind>)
    requires i <= |s| && AllDigits(s[..i]) && acc as int == Value(s[..i])
    ensures r.Ok? <==> AllDigits(s) && Value(s) <= U16_MAX
    ensures r.Ok? ==> r.value as int == Value(s)
    decreases |s| - i
  {
    if i == |s| then
      assert s[..i] == s;
      Ok(acc)
    else if !IsDigit(s[i]) then
      assert !AllDigits(s);
      Err(InvalidDigit)
    else
      assert s[..i + 1][..i] == s[..i];
      var next := acc as int * 10 + DigitValue(s[i]);
      if next > U16_MAX then
        OverflowStays(s, i + 1);
        Err(PosOverflow)
      else
        Accumulate(s, i + 1, next as u16)
  }

  /** Once a prefix of the digits exceeds the maximum, the whole numeral does. */
  lemma {:induction false} OverflowStays(s: string, i: nat)
    requires i <= |s| && AllDigits(s[..i]) && Value(s[..i]) > U16_MAX
    ensures AllDigits(s) ==> Value(s) > U16_MAX
    decreases |s| - i
  {
    if i == |s| {
      assert s[..i] == s;
    } else if AllDigits(s) {
      assert s[..i + 1][..i] == s[..i];
      assert Value(s[..i + 1]) >= Value(s[..i]);
      OverflowStays(s, i + 1);
    }
  }

  /** `<u16 as FromStr>::from_str`. */
  function ParseU16(s: string): (r: Result<u16, IntErrorKind>)
    ensures r.Ok? <==> IsNumeral(s) && Value(Digits(s)) <= U16_MAX
    ensures r.Ok? ==> r.value as int == Value(Digits(s))
    ensures s == [] ==> r == Err(Empty)
  {
    if s == [] then Err(Empty)
    else if (s[0] == '+' || s[0] == '-') && |s| == 1 then Err(InvalidDigit)
    else
      var d := Digits(s);
      assert d[..0] == [];
      Accumulate(d, 0, 0)
  }

  function DigitChar(d: nat): (c: char)
    requires d < 10
    ensures IsDigit(c) && DigitValue(c) == d
  {
    ('0' as int + d) as char
  }

  /** A numeral as `format!` writes one: digits only, and no leading zero unless it is `0` itself. */
  predicate Canonical(s: string)
  {
    s != [] && AllDigits(s) && (|s| == 1 || s[0] != '0')
  }

  /** `format!("{n}")` for a natural number: decimal, no sign, no leading zeros. */
  function Decimal(n: nat): (s: string)
    ensures Canonical(s)
    ensures n > 0 ==> s[0] != '0'
    ensures n == 0 ==> s == "0"
  {
    if n < 10 then [DigitChar(n)] else Decimal(n / 10) + [DigitChar(n % 10)]
  }

  /** Digits that start with a non-zero digit have a positive value. */
  lemma {:induction false} LeadingDigitPositive(s: string)
    requires s != [] && AllDigits(s) && s[0] != '0'
    ensures Value(s) > 0
    decreases |s|
  {
    if |s| > 1 {
      var init := s[..|s| - 1];
      assert init[0] == s[0];
      LeadingDigitPositive(init);
    }
  }

  /** `Decimal` writes every canonical numeral: it is the only one for its value. */
  lemma {:induction false} DecimalUnique(s: string)
    requires Canonical(s)
    ensures Decimal(Value(s)) == s
    decreases |s|
  {
    var last := s[|s| - 1];
    if |s| == 1 {
      assert s == [last];
      assert DigitChar(DigitValue(last)) == last;
    } else {
      var init := s[..|s| - 1];
      assert init[0] == s[0];
      assert forall k :: 0 <= k < |init| ==> init[k] == s[k];
      LeadingDigitPositive(init);
      DecimalUnique(init);
      var n := Value(s);
      assert n == Value(init) * 10 + DigitValue(last);
      assert n / 10 == Value(init) && n % 10 == DigitValue(last);
      assert DigitChar(DigitValue(last)) == last;
      assert s == init + [last];
    }
  }

  /** Reading back what `Decimal` writes gives the number again. */
  lemma {:induction false} ValueOfDecimal(n: nat)
    ensures Value(Decimal(n)) == n
  {
    var s := Decimal(n);
    if n < 10 {
      assert s[..|s| - 1] == [];
    } else {
      assert s[..|s| - 1] == Decimal(n / 10);
      ValueOfDecimal(n / 10);
    }
  }

  /** `u16::from_str` accepts every decimal rendering of a `u16` and returns that number. */
  lemma ParseDecimal(n: u16)
    ensures ParseU16(Decimal(n as nat)) == Ok(n)
  {
    var s := Decimal(n as nat);
    ValueOfDecimal(n as nat);
    assert s[0] != '+';
    assert Digits(s) == s;
  }
}
