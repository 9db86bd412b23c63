/** The operand format of read requests: a natural number written in
    lower-case hexadecimal with no `0x` prefix (the `"%x" % n` format),
    and the decoder that reads such a string back. */
module Hex {
  import opened Wrappers

  predicate IsHexDigit(c: char) {
    '0' <= c <= '9' || 'a' <= c <= 'f'
  }

  predicate AllHexDigits(s: string) {
    forall i :: 0 <= i < |s| ==> IsHexDigit(s[i])
  }

  function DigitValue(c: char): (d: nat)
    requires IsHexDigit(c)
    ensures d < 16
    ensures d == 0 <==> c == '0'
  {
    if c <= '9' then c as int - '0' as int else c as int - 'a' as int + 10
  }

  function Digit(d: nat): (c: char)
    requires d < 16
    ensures IsHexDigit(c) && DigitValue(c) == d
  {
    if d < 10 then ('0' as int + d) as char else ('a' as int + d - 10) as char
  }

  /** `"%x" % n`: at least one digit, every digit lower-case, and a leading
      `0` only for the number zero itself, so there is never a `0x`
      prefix or any other padding. */
  function ToHex(n: nat): (s: string)
    ensures |s| > 0 && AllHexDigits(s)
    ensures s[0] == '0' <==> n == 0
    decreases n
  {
    if n < 16 then [Digit(n)] else ToHex(n / 16) + [Digit(n % 16)]
  }

  /** The value of a non-empty string of hexadecimal digits, most
      significant digit first. */
  function HexValue(s: string): nat
    requires |s| > 0 && AllHexDigits(s)
  {
    if |s| == 1 then DigitValue(s[0])
    else HexValue(s[..|s| - 1]) * 16 + DigitValue(s[|s| - 1])
  }

  /** Reads a hexadecimal operand back; anything that is not a non-empty
      run of lower-case hexadecimal digits is rejected. */
  function FromHex(s: string): (r: Option<nat>)
    ensures r.Some? <==> |s| > 0 && AllHexDigits(s)
  {
    if |s| > 0 && AllHexDigits(s) then Some(HexValue(s)) else None
  }

  /** Decoding an encoded operand gives back the number. */
  lemma {:induction false} HexRoundTrip(n: nat)
    ensures FromHex(ToHex(n)) == Some(n)
    decreases n
  {
    if n >= 16 {
      HexRoundTrip(n / 16);
      var s := ToHex(n);
      assert s[..|s| - 1] == ToHex(n / 16);
    }
  }

  /** A string with a non-zero leading digit denotes a positive number. */
  lemma {:induction false} LeadingDigitPositive(s: string)
    requires |s| > 0 && AllHexDigits(s) && s[0] != '0'
    ensures HexValue(s) > 0
    decreases |s|
  {
    if |s| > 1 {
      LeadingDigitPositive(s[..|s| - 1]);
    }
  }

  /** Every canonical operand (no leading zero, or the single digit `0`) is
      the encoding of the number it decodes to, so the encoding is the only
      spelling the decoder accepts without leading zeros. */
  lemma {:induction false} CanonicalHexRoundTrip(s: string)
    requires FromHex(s).Some?
    requires s[0] != '0' || s == "0"
    ensures ToHex(FromHex(s).value) == s
    decreases |s|
  {
    if |s| > 1 {
      var init := s[..|s| - 1];
      LeadingDigitPositive(init);
      CanonicalHexRoundTrip(init);
      var n := HexValue(s);
      assert n / 16 == HexValue(init) && n % 16 == DigitValue(s[|s| - 1]);
      assert s == init + [s[|s| - 1]];
    }
  }
}
