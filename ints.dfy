/** Go's fixed-width integers used for pet identifiers, and the conversions between them. */
module Ints {

  /** Go's int32. */
  newtype int32 = x: int | -0x8000_0000 <= x < 0x8000_0000

  /** Go's uint32. */
  newtype uint32 = x: int | 0 <= x < 0x1_0000_0000

  predicate InInt32Range(x: int) {
    -0x8000_0000 <= x < 0x8000_0000
  }

  /** Go's conversion uint32(x): keeps the 32 low bits, so a negative value wraps modulo 2^32. */
  function ToUint32(x: int32): (u: uint32)
    ensures x >= 0 ==> u as int == x as int
    ensures x < 0 ==> u as int == x as int + 0x1_0000_0000
  {
    ((x as int) % 0x1_0000_0000) as uint32
  }

  /** Go's conversion int32(u): the same 32 bits read back as a two's-complement value. */
  function ToInt32(u: uint32): int32 {
    if u < 0x8000_0000 then u as int as int32 else (u as int - 0x1_0000_0000) as int32
  }

  /** Reading the wrapped bits back as int32 recovers the original value. */
  lemma Int32RoundTrip(x: int32)
    ensures ToInt32(ToUint32(x)) == x
  {
  }

  /** The wrap is a bijection: every uint32 is the image of exactly one int32. */
  lemma Uint32RoundTrip(u: uint32)
    ensures ToUint32(ToInt32(u)) == u
  {
  }

  /** Distinct signed identifiers stay distinct after the wrap. */
  lemma ToUint32Injective(x: int32, y: int32)
    ensures ToUint32(x) == ToUint32(y) <==> x == y
  {
    Int32RoundTrip(x);
    Int32RoundTrip(y);
  }
}
