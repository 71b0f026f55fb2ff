/**
 * Java's fixed-width integers and `Integer.toHexString`, which renders an
 * `int` as the unsigned 32-bit number it stands for, in lower-case base 16
 * without leading zeros.
 */
module Integers {

  type int32 = x: int | -0x8000_0000 <= x < 0x8000_0000
  type int64 = x: int | -0x8000_0000_0000_0000 <= x < 0x8000_0000_0000_0000

  const HexDigits := "0123456789abcdef"

  predicate IsHexDigit(c: char) {
    c in HexDigits
  }

  function HexDigit(d: nat): (c: char)
    requires d < 16
    ensures IsHexDigit(c)
  {
    HexDigits[d]
  }

  /** The value of one lower-case hex digit. */
  function DigitValue(c: char): (d: nat)
    ensures d < 16
  {
    if '0' <= c <= '9' then (c as int - '0' as int)
    else if 'a' <= c <= 'f' then (c as int - 'a' as int + 10)
    else 0
  }

  /** The base-16 numeral of `n`, most significant digit first. */
  function HexString(n: nat): (r: string)
    ensures |r| > 0
  {
    if n < 16 then [HexDigit(n)] else HexString(n / 16) + [HexDigit(n % 16)]
  }

  /** The number a base-16 numeral denotes (the inverse of `HexString`). */
  function HexValue(s: string): nat {
    if s == [] then 0 else HexValue(s[..|s| - 1]) * 16 + DigitValue(s[|s| - 1])
  }

  /** The two's-complement reinterpretation of an `int` as an unsigned number. */
  function Unsigned32(h: int32): (u: nat)
    ensures u < 0x1_0000_0000
    ensures u % 0x1_0000_0000 == h % 0x1_0000_0000
  {
    if h < 0 then h + 0x1_0000_0000 else h
  }

  /** `Integer.toHexString`. */
  function ToHexString(h: int32): string {
    HexString(Unsigned32(h))
  }

  lemma DigitRoundTrip(d: nat)
    requires d < 16
    ensures DigitValue(HexDigit(d)) == d
  {
  }

  /** Reading back the numeral gives the number it was made from. */
  lemma {:induction false} HexRoundTrip(n: nat)
    ensures HexValue(HexString(n)) == n
  {
    DigitRoundTrip(n % 16);
    if n >= 16 {
      var q, r := n / 16, n % 16;
      HexRoundTrip(q);
      HexValueSnoc(HexString(q), HexDigit(r));
    }
  }

  lemma HexValueSnoc(s: string, c: char)
    ensures HexValue(s + [c]) == HexValue(s) * 16 + DigitValue(c)
  {
    assert (s + [c])[..|s|] == s;
  }

  /** The numeral uses lower-case hex digits only and has no leading zero. */
  lemma {:induction false} HexCanonical(n: nat)
    ensures forall i :: 0 <= i < |HexString(n)| ==> IsHexDigit(HexString(n)[i])
    ensures HexString(n)[0] == '0' <==> n == 0
  {
    if n >= 16 {
      HexCanonical(n / 16);
      assert HexString(n)[0] == HexString(n / 16)[0];
    }
  }

  /** A number below 16^k has at most k digits. */
  lemma {:induction false} HexLength(n: nat, k: nat)
    requires n < Pow16(k)
    ensures |HexString(n)| <= if k == 0 then 1 else k
  {
    if n >= 16 {
      assert k >= 2 && n / 16 < Pow16(k - 1);
      HexLength(n / 16, k - 1);
    }
  }

  function Pow16(k: nat): (p: nat)
    ensures p > 0
  {
    if k == 0 then 1 else 16 * Pow16(k - 1)
  }

  /** `Integer.toHexString` prints between one and eight digits. */
  lemma ToHexStringLength(h: int32)
    ensures 1 <= |ToHexString(h)| <= 8
  {
    assert Pow16(8) == 0x1_0000_0000;
    HexLength(Unsigned32(h), 8);
  }

  /** Distinct identity hashes give distinct `toString` suffixes. */
  lemma ToHexStringInjective(a: int32, b: int32)
    ensures ToHexString(a) == ToHexString(b) <==> a == b
  {
    if ToHexString(a) == ToHexString(b) {
      HexRoundTrip(Unsigned32(a));
      HexRoundTrip(Unsigned32(b));
    }
  }
}
