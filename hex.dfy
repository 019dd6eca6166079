/** The `%x` rendering of a byte slice: two lower-case hexadecimal digits per byte, high nibble first. */
module Hex {

  newtype byte = x: int | 0 <= x < 256

  predicate IsHexDigit(c: char) {
    '0' <= c <= '9' || 'a' <= c <= 'f'
  }

  /** Every character is one of `0-9a-f`. */
  predicate IsLowerHex(s: string) {
    forall i :: 0 <= i < |s| ==> IsHexDigit(s[i])
  }

  function Digit(n: int): (c: char)
    requires 0 <= n < 16
    ensures IsHexDigit(c)
  {
    if n < 10 then ('0' as int + n) as char else ('a' as int + n - 10) as char
  }

  function DigitValue(c: char): (n: int)
    requires IsHexDigit(c)
    ensures 0 <= n < 16 && Digit(n) == c
  {
    if c <= '9' then c as int - '0' as int else c as int - 'a' as int + 10
  }

  lemma DigitValueOfDigit(n: int)
    requires 0 <= n < 16
    ensures DigitValue(Digit(n)) == n
  {
  }

  /** `fmt.Sprintf("%x", bs)` */
  function Encode(bs: seq<byte>): (s: string)
    ensures |s| == 2 * |bs|
    ensures IsLowerHex(s)
  {
    if bs == [] then ""
    else [Digit(bs[0] as int / 16), Digit(bs[0] as int % 16)] + Encode(bs[1..])
  }

  /** Reads back what Encode writes; the reference against which Encode is shown lossless. */
  function Decode(s: string): (bs: seq<byte>)
    requires |s| % 2 == 0 && IsLowerHex(s)
    ensures |bs| == |s| / 2
  {
    if s == "" then []
    else [(DigitValue(s[0]) * 16 + DigitValue(s[1])) as byte] + Decode(s[2..])
  }

  lemma {:induction false} DecodeEncode(bs: seq<byte>)
    ensures Decode(Encode(bs)) == bs
  {
    if bs != [] {
      var b := bs[0] as int;
      var s := Encode(bs);
      assert s[2..] == Encode(bs[1..]);
      DigitValueOfDigit(b / 16);
      DigitValueOfDigit(b % 16);
      DecodeEncode(bs[1..]);
      assert Decode(s) == [bs[0]] + bs[1..];
    }
  }

  /** Distinct byte strings render as distinct hex strings. */
  lemma EncodeInjective(a: seq<byte>, b: seq<byte>)
    requires a != b
    ensures Encode(a) != Encode(b)
  {
    DecodeEncode(a);
    DecodeEncode(b);
  }
}
