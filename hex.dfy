/**
 * Go's encoding/hex EncodeToString, which GenConsumer uses to turn a random
 * hash into a user id: two lower-case hexadecimal digits per byte, high
 * nibble first.
 */
module Hex {
  import opened GoTypes

  /** The digit for a nibble, as in Go's table "0123456789abcdef". */
  function Digit(nibble: int): (c: char)
    requires 0 <= nibble < 16
  {
    if nibble < 10 then ('0' as int + nibble) as char else ('a' as int + nibble - 10) as char
  }

  predicate IsLowerHexDigit(c: char)
  {
    '0' <= c <= '9' || 'a' <= c <= 'f'
  }

  function EncodeToString(src: Bytes): (s: string)
    ensures |s| == 2 * |src|
    ensures forall i :: 0 <= i < |s| ==> IsLowerHexDigit(s[i])
  {
    if src == [] then ""
    else [Digit(src[0] as int / 16), Digit(src[0] as int % 16)] + EncodeToString(src[1..])
  }

  /** Different digits stand for different nibbles. */
  lemma DigitInjective(a: int, b: int)
    requires 0 <= a < 16 && 0 <= b < 16
    ensures Digit(a) == Digit(b) ==> a == b
  {
  }

  /** Different byte strings encode to different strings: the encoding loses nothing. */
  lemma {:induction false} EncodeToStringInjective(a: Bytes, b: Bytes)
    ensures EncodeToString(a) == EncodeToString(b) ==> a == b
  {
    if EncodeToString(a) == EncodeToString(b) && a != [] && b != [] {
      var ea, eb := EncodeToString(a), EncodeToString(b);
      assert ea[0] == eb[0] && ea[1] == eb[1];
      DigitInjective(a[0] as int / 16, b[0] as int / 16);
      DigitInjective(a[0] as int % 16, b[0] as int % 16);
      assert a[0] == b[0];
      assert ea[2..] == EncodeToString(a[1..]) && eb[2..] == EncodeToString(b[1..]);
      EncodeToStringInjective(a[1..], b[1..]);
      assert a == [a[0]] + a[1..] && b == [b[0]] + b[1..];
    }
  }
}
