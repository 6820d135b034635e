/** Bytes as Go sees them: `byte` values, the truncating `byte(n)` conversion,
    and the bytes of an ASCII string literal. */
module Bytes {

  /** Go's `byte`. */
  newtype uint8 = x: int | 0 <= x < 0x100

  /** Go's conversion `byte(n)` of a non-negative length: it keeps only the low
      eight bits, so it agrees with `n` exactly when `n` fits in a byte. */
  function LengthByte(n: nat): (b: uint8)
    ensures b as int == n % 0x100
    ensures b as int == n <==> n < 0x100
  {
    (n % 0x100) as uint8
  }

  predicate IsAscii(s: string) {
    forall i :: 0 <= i < |s| ==> s[i] as int < 0x80
  }

  /** The bytes Go's `append(b, s...)` adds for an ASCII string `s`: one byte
      per character, holding the character's code. */
  function AsciiBytes(s: string): (r: seq<uint8>)
    requires IsAscii(s)
    ensures |r| == |s|
    ensures forall i :: 0 <= i < |s| ==> r[i] as int == s[i] as int
  {
    seq(|s|, i requires 0 <= i < |s| => s[i] as int as uint8)
  }
}
