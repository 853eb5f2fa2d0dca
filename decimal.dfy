/**
 * Decimal text of numbers: the `{}` rendering of a `usize` count and
 * `str::parse::<u32>`, which reads the fetch-correlation header back.
 */
module Decimal {
  import opened Wrappers

  /** Exclusive upper bound of `u32`. */
  const U32_LIMIT: int := 0x1_0000_0000

  newtype u32 = x: int | 0 <= x < 0x1_0000_0000

  predicate IsDigit(c: char) {
    '0' <= c <= '9'
  }

  predicate AllDigits(s: string) {
    forall i :: 0 <= i < |s| ==> IsDigit(s[i])
  }

  function DigitValue(c: char): (d: nat)
    requires IsDigit(c)
    ensures d < 10
  {
    c as int - '0' as int
  }

  function DigitChar(d: nat): (c: char)
    requires d < 10
    ensures IsDigit(c) && DigitValue(c) == d
  {
    ('0' as int + d) as char
  }

  /** The number a string of decimal digits denotes, most significant digit first. */
  function Value(s: string): nat
    requires AllDigits(s)
  {
    if s == [] then 0 else Value(s[..|s| - 1]) * 10 + DigitValue(s[|s| - 1])
  }

  /** `format!("{}", n)`: shortest decimal digits, no sign, no leading zero. */
  function NatToString(n: nat): (s: string)
    ensures |s| > 0 && AllDigits(s)
    ensures s[0] == '0' <==> n == 0
    ensures n == 0 ==> s == "0"
  {
    if n < 10 then [DigitChar(n)] else NatToString(n / 10) + [DigitChar(n % 10)]
  }

  lemma {:induction false} NatToStringValue(n: nat)
    ensures Value(NatToString(n)) == n
  {
    if n >= 10 {
      var s := NatToString(n);
      assert s[..|s| - 1] == NatToString(n / 10);
      NatToStringValue(n / 10);
    }
  }

  /** Distinct counts are printed as distinct texts. */
  lemma NatToStringInjective(m: nat, n: nat)
    requires NatToString(m) == NatToString(n)
    ensures m == n
  {
    NatToStringValue(m);
    NatToStringValue(n);
  }

  /** The digits that follow the optional leading `+` of an unsigned literal. */
  function UnsignedDigits(s: string): string {
    if |s| > 0 && s[0] == '+' then s[1..] else s
  }

  /**
   * `s.parse::<u32>()` turned into an Option (`.ok()`): one optional `+`,
   * then at least one ASCII digit and nothing else, with a value that fits
   * in 32 bits. A `-` sign, an empty digit string and an overflow all fail.
   */
  function ParseU32(s: string): (r: Option<u32>)
    ensures r.Some? ==> s != "" && s != "+"
    ensures r.Some? ==> forall i :: 0 <= i < |s| ==> IsDigit(s[i]) || (i == 0 && s[i] == '+')
  {
    var d := UnsignedDigits(s);
    if |d| > 0 && AllDigits(d) && Value(d) < U32_LIMIT then Some(Value(d) as u32) else None
  }

  /**
   * The decimal text of every `u32` parses back to the same number, also
   * with a leading `+` or a leading zero.
   */
  lemma ParseU32RoundTrip(n: u32)
    ensures ParseU32(NatToString(n as nat)) == Some(n)
    ensures ParseU32("+" + NatToString(n as nat)) == Some(n)
    ensures ParseU32("0" + NatToString(n as nat)) == Some(n)
  {
    var s := NatToString(n as nat);
    NatToStringValue(n as nat);
    assert UnsignedDigits(s) == s;
    assert ("+" + s)[1..] == s;
    LeadingZero(s);
    assert UnsignedDigits("0" + s) == "0" + s;
  }

  /** A leading zero does not change the value of a digit string. */
  lemma {:induction false} LeadingZero(s: string)
    requires AllDigits(s)
    ensures AllDigits("0" + s) && Value("0" + s) == Value(s)
  {
    if s != [] {
      var init := s[..|s| - 1];
      assert ("0" + s)[..|s|] == "0" + init;
      LeadingZero(init);
    }
  }

  /** `k` zero digits. */
  function Zeros(k: nat): (z: string)
    ensures |z| == k && forall i :: 0 <= i < k ==> z[i] == '0'
  {
    if k == 0 then [] else "0" + Zeros(k - 1)
  }

  /** Any number of leading zeros leaves the value of a digit string unchanged. */
  lemma {:induction false} PaddedValue(k: nat, s: string)
    requires AllDigits(s)
    ensures AllDigits(Zeros(k) + s) && Value(Zeros(k) + s) == Value(s)
  {
    if k > 0 {
      PaddedValue(k - 1, s);
      LeadingZero(Zeros(k - 1) + s);
      assert Zeros(k) == "0" + Zeros(k - 1);
      assert Zeros(k) + s == "0" + (Zeros(k - 1) + s);
    } else {
      assert Zeros(k) + s == s;
    }
  }

  /**
   * Zero-padded decimal text of a `u32`, with or without a leading `+`,
   * parses back to the same number: `"007"` and `"+007"` both read as 7.
   */
  lemma ParseU32Padded(n: u32, k: nat)
    ensures ParseU32(Zeros(k) + NatToString(n as nat)) == Some(n)
    ensures ParseU32("+" + Zeros(k) + NatToString(n as nat)) == Some(n)
  {
    var s := NatToString(n as nat);
    var p := Zeros(k) + s;
    NatToStringValue(n as nat);
    PaddedValue(k, s);
    assert p[|p| - 1] == s[|s| - 1];
    assert UnsignedDigits(p) == p;
    assert ("+" + Zeros(k) + s)[1..] == p;
  }

  /** Numbers that do not fit in 32 bits are rejected, as are the sign-only and empty texts. */
  lemma ParseU32Rejects(n: nat, s: string)
    ensures n >= U32_LIMIT ==> ParseU32(NatToString(n)) == None
    ensures ParseU32("") == None && ParseU32("+") == None
    ensures ParseU32("-" + s) == None
  {
    NatToStringValue(n);
    assert !IsDigit(("-" + s)[0]);
  }

  /** Leading zeros, with or without a leading `+`, do not make an overflowing number fit. */
  lemma ParseU32RejectsPadded(n: nat, k: nat)
    requires n >= U32_LIMIT
    ensures ParseU32(Zeros(k) + NatToString(n)) == None
    ensures ParseU32("+" + Zeros(k) + NatToString(n)) == None
  {
    var s := NatToString(n);
    NatToStringValue(n);
    PaddedValue(k, s);
    var d := Zeros(k) + s;
    assert d[|d| - 1] == s[|s| - 1];
    RejectsOverflowingDigits(d);
    assert "+" + Zeros(k) + s == "+" + d;
  }

  lemma RejectsOverflowingDigits(d: string)
    requires |d| > 0 && AllDigits(d) && Value(d) >= U32_LIMIT
    ensures ParseU32(d) == None && ParseU32("+" + d) == None
  {
    assert UnsignedDigits(d) == d;
    assert UnsignedDigits("+" + d) == d;
  }
}
