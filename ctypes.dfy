/** The fixed-width C integer types the firmware uses (sensit_types.h is not part
    of this model; the widths follow the type names u8, s8, u16 and s16). */
module CTypes {

  type u8 = x: int | 0 <= x < 0x100
  type s8 = x: int | -0x80 <= x < 0x80
  type u16 = x: int | 0 <= x < 0x1_0000
  type s16 = x: int | -0x8000 <= x < 0x8000

  /** C's conversion of an integer to `u8`: reduction modulo 256. */
  function ToU8(x: int): (r: u8)
    ensures (x - r) % 0x100 == 0
    ensures 0 <= x < 0x100 ==> r == x
  {
    x % 0x100
  }

  /** Storing an `s8` into a `u8` slot: the value's two's-complement byte. */
  function SignedToByte(v: s8): (r: u8)
    ensures r == ToU8(v)
    ensures (r < 0x80) == (v >= 0)
  {
    if v < 0 then v + 0x100 else v
  }

  /** Reading a `u8` slot back as an `s8`: the inverse of `SignedToByte`. */
  function ByteToSigned(x: u8): s8
  {
    if x < 0x80 then x else x - 0x100
  }

  lemma SignedByteRoundTrip(v: s8, x: u8)
    ensures ByteToSigned(SignedToByte(v)) == v
    ensures SignedToByte(ByteToSigned(x)) == x
  {
  }
}
