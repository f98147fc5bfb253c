/** Bytes, and the lower-case hexadecimal rendering `format!("{:x}", digest)`
    that the token generator applies to a SHA-256 digest: every byte becomes
    exactly two digits from `0123456789abcdef`, most significant nibble first. */
module Hex {
  import opened Wrappers

  newtype byte = x: int | 0 <= x < 256

  const Digits: string := "0123456789abcdef"

  predicate IsLowerHexChar(c: char) {
    '0' <= c <= '9' || 'a' <= c <= 'f'
  }

  predicate IsLowerHex(s: string) {
    forall i :: 0 <= i < |s| ==> IsLowerHexChar(s[i])
  }

  /** The digit for a nibble. */
  function Digit(n: int): (c: char)
    requires 0 <= n < 16
    ensures IsLowerHexChar(c)
    ensures n < 10 ==> c as int == '0' as int + n
    ensures 10 <= n ==> c as int == 'a' as int + (n - 10)
  {
    Digits[n]
  }

  /** The nibble a digit stands for; the inverse of `Digit`. */
  function DigitValue(c: char): (n: int)
    requires IsLowerHexChar(c)
    ensures 0 <= n < 16 && Digit(n) == c
  {
    if c <= '9' then c as int - '0' as int else c as int - 'a' as int + 10
  }

  /** `{:x}` on a byte sequence. */
  function LowerHex(bs: seq<byte>): (s: string)
    ensures |s| == 2 * |bs|
    ensures IsLowerHex(s)
  {
    if bs == [] then []
    else [Digit(bs[0] as int / 16), Digit(bs[0] as int % 16)] + LowerHex(bs[1..])
  }

  /** Reads a string of digit pairs back into bytes; `None` when the length is
      odd or a character is not a lower-case hex digit. */
  function ParseHex(s: string): (r: Option<seq<byte>>)
    ensures r.Some? ==> 2 * |r.value| == |s|
    decreases |s|
  {
    if s == [] then Some([])
    else if |s| < 2 || !IsLowerHexChar(s[0]) || !IsLowerHexChar(s[1]) then None
    else
      match ParseHex(s[2..])
      case None => None
      case Some(rest) => Some([(16 * DigitValue(s[0]) + DigitValue(s[1])) as byte] + rest)
  }

  /** The rendering loses nothing: parsing it gives the bytes back. */
  lemma {:induction false} ParseLowerHex(bs: seq<byte>)
    ensures ParseHex(LowerHex(bs)) == Some(bs)
  {
    if bs != [] {
      var s := LowerHex(bs);
      var hi, lo := bs[0] as int / 16, bs[0] as int % 16;
      assert s[0] == Digit(hi) && s[1] == Digit(lo);
      assert s[2..] == LowerHex(bs[1..]);
      ParseLowerHex(bs[1..]);
      assert DigitValue(s[0]) == hi && DigitValue(s[1]) == lo;
      assert bs == [bs[0]] + bs[1..];
    }
  }

  /** Two different byte strings never render to the same text. */
  lemma LowerHexInjective(a: seq<byte>, b: seq<byte>)
    ensures LowerHex(a) == LowerHex(b) ==> a == b
  {
    ParseLowerHex(a);
    ParseLowerHex(b);
  }

  predicate IsAscii(s: string) {
    forall i :: 0 <= i < |s| ==> s[i] as int < 128
  }

  /** `str::as_bytes` on an ASCII string: UTF-8 encodes each such character
      as the one byte of its code point. */
  function AsciiBytes(s: string): (bs: seq<byte>)
    requires IsAscii(s)
    ensures |bs| == |s|
    ensures forall i :: 0 <= i < |s| ==> bs[i] as int == s[i] as int
  {
    seq(|s|, i requires 0 <= i < |s| => s[i] as int as byte)
  }

  lemma LowerHexIsAscii(s: string)
    requires IsLowerHex(s)
    ensures IsAscii(s)
  {
    forall i | 0 <= i < |s| ensures s[i] as int < 128 {
      assert IsLowerHexChar(s[i]);
    }
  }
}
