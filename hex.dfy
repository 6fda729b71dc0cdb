/** `strconv.FormatUint(v, 16)`: base-16 rendering of an unsigned 64-bit value,
    lower-case digits, no leading zeros, "0" for zero. */
module Hex {
  import opened Wrappers

  predicate IsHexDigit(c: char) {
    '0' <= c <= '9' || 'a' <= c <= 'f'
  }

  function DigitChar(d: nat): (c: char)
    requires d < 16
    ensures IsHexDigit(c)
  {
    if d < 10 then ('0' as int + d) as char else ('a' as int + d - 10) as char
  }

  function DigitValue(c: char): (d: nat)
    requires IsHexDigit(c)
    ensures d < 16
  {
    if '0' <= c <= '9' then c as int - '0' as int else c as int - 'a' as int + 10
  }

  lemma DigitRoundTrip(d: nat)
    requires d < 16
    ensures DigitValue(DigitChar(d)) == d
  {
  }

  /** Digits of `n`, most significant first. */
  function Digits(n: nat): (s: string)
    ensures |s| > 0
    ensures forall i :: 0 <= i < |s| ==> IsHexDigit(s[i])
    ensures |s| > 1 ==> s[0] != '0'
  {
    if n < 16 then [DigitChar(n)] else Digits(n / 16) + [DigitChar(n % 16)]
  }

  function FormatUint(v: uint64): string {
    Digits(v as nat)
  }

  predicate IsHexString(s: string) {
    forall i :: 0 <= i < |s| ==> IsHexDigit(s[i])
  }

  /** Reads a base-16 string back (`strconv.ParseUint(s, 16, 64)` on well-formed input). */
  function ParseDigits(s: string): nat
    requires IsHexString(s)
  {
    if |s| == 0 then 0 else 16 * ParseDigits(s[..|s| - 1]) + DigitValue(s[|s| - 1])
  }

  /** Rendering then reading gives the value back. */
  lemma {:induction false} ParseFormat(n: nat)
    ensures ParseDigits(Digits(n)) == n
  {
    var s := Digits(n);
    if n < 16 {
      DigitRoundTrip(n);
    } else {
      ParseFormat(n / 16);
      DigitRoundTrip(n % 16);
      assert s[..|s| - 1] == Digits(n / 16);
    }
  }

  /** The rendering is a non-empty string of lower-case hex digits that reads back to `v`;
      so it is injective. */
  lemma FormatUintSound(v: uint64)
    ensures FormatUint(v) != []
    ensures IsHexString(FormatUint(v))
    ensures ParseDigits(FormatUint(v)) == v as nat
  {
    ParseFormat(v as nat);
  }

  lemma FormatUintInjective(a: uint64, b: uint64)
    ensures FormatUint(a) == FormatUint(b) <==> a == b
  {
    FormatUintSound(a);
    FormatUintSound(b);
  }
}
