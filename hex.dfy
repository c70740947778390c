/** Lower-case hexadecimal text of a byte string, as `hex::encode` writes it:
    two characters per byte, high nibble first. */
module Hex {
  import opened Basics

  /** A digit of lower-case hexadecimal. */
  predicate IsLowerHexDigit(c: char)
  {
    '0' <= c <= '9' || 'a' <= c <= 'f'
  }

  function NibbleChar(v: int): (c: char)
    requires 0 <= v < 16
    ensures IsLowerHexDigit(c)
  {
    if v < 10 then ('0' as int + v) as char else ('a' as int + (v - 10)) as char
  }

  function Encode(b: seq<byte>): (s: string)
    ensures |s| == 2 * |b|
    decreases |b|
  {
    if b == [] then [] else [NibbleChar(b[0] / 16), NibbleChar(b[0] % 16)] + Encode(b[1..])
  }

  /** The first `2k` characters of the text are the text of the first `k` bytes. */
  lemma {:induction false} EncodePrefix(b: seq<byte>, k: nat)
    requires k <= |b|
    ensures Encode(b)[..2 * k] == Encode(b[..k])
    decreases k
  {
    if k > 0 {
      var head := [NibbleChar(b[0] / 16), NibbleChar(b[0] % 16)];
      var rest := Encode(b[1..]);
      EncodePrefix(b[1..], k - 1);
      assert Encode(b) == head + rest;
      assert (head + rest)[..2 * k] == head + rest[..2 * (k - 1)];
      assert b[..k][0] == b[0] && b[..k][1..] == b[1..][..k - 1];
      assert Encode(b[..k]) == head + Encode(b[..k][1..]);
    }
  }

  /** Every character of the text is a lower-case hexadecimal digit. */
  lemma {:induction false} EncodeLowerHex(b: seq<byte>)
    ensures forall i :: 0 <= i < |Encode(b)| ==> IsLowerHexDigit(Encode(b)[i])
    decreases |b|
  {
    if b != [] {
      EncodeLowerHex(b[1..]);
    }
  }
}
