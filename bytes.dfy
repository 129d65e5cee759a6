/** Machine words of the RP2040 firmware: bytes, little-endian half-words and words,
    and unsigned 32-bit arithmetic as the C compiler performs it.

    Buffer contents are integers in range rather than bit-vectors. A C shift or mask on
    a non-negative value is written as the arithmetic it performs: `x >> k` is
    `x / 2^k`, `x & (2^k - 1)` is `x % 2^k`, and `a | b` on operands whose set bits do
    not overlap is `a + b`. */
module Bytes {

  /** `uint8_t` */
  type Byte = x: int | 0 <= x < 0x100

  /** `uint16_t` */
  type U16 = x: int | 0 <= x < 0x1_0000

  /** C `unsigned` / `uint32_t` on the RP2040 (32 bits). */
  type U32 = x: int | 0 <= x < 0x1_0000_0000

  const TWO_32: int := 0x1_0000_0000

  /** Reduction modulo 2^32: the value an unsigned 32-bit result wraps to. */
  function Wrap32(x: int): (r: U32)
    ensures (r - x) % TWO_32 == 0
  {
    x % TWO_32
  }

  /** Reducing modulo 2^32 before a further addition does not change the result. */
  lemma Wrap32Shift(x: int, y: int)
    ensures Wrap32(Wrap32(x) + y) == Wrap32(x + y)
  {
    var q := x / TWO_32;
    assert x == TWO_32 * q + Wrap32(x);
    ModMultiple(Wrap32(x) + y, q);
  }

  lemma ModMultiple(z: int, q: int)
    ensures (z + TWO_32 * q) % TWO_32 == z % TWO_32
  {
  }

  /** `a - b` on two `unsigned` operands. */
  function Sub32(a: U32, b: U32): (r: U32)
    ensures a >= b ==> r == a - b
    ensures a < b ==> r == a - b + TWO_32
  {
    Wrap32(a - b)
  }

  /** `a + b` on two `unsigned` operands. */
  function Add32(a: U32, b: U32): (r: U32)
    ensures a + b < TWO_32 ==> r == a + b
    ensures a + b >= TWO_32 ==> r == a + b - TWO_32
  {
    Wrap32(a + b)
  }

  /** The conversion of a C integer to `uint8_t`: its low byte in two's complement. */
  function Lo8(x: int): (b: Byte)
    ensures 0 <= x < 0x100 ==> b == x
  {
    x % 0x100
  }

  /** `(uint8_t)(x >> 8)` for a 16-bit value: its high byte. */
  function Hi8(x: U16): (b: Byte)
    ensures b * 0x100 + Lo8(x) == x
  {
    x / 0x100
  }

  /** The `uint16_t` stored little-endian at two consecutive bytes. */
  function Le16(lo: Byte, hi: Byte): U16
  {
    lo + 0x100 * hi
  }

  /** The `uint32_t` stored little-endian at four consecutive bytes. */
  function Le32(b0: Byte, b1: Byte, b2: Byte, b3: Byte): U32
  {
    b0 + 0x100 * b1 + 0x1_0000 * b2 + 0x100_0000 * b3
  }

  /** Reading a little-endian half-word and sending it high byte first gives back
      the two stored bytes in swapped order. */
  lemma Le16Bytes(lo: Byte, hi: Byte)
    ensures Hi8(Le16(lo, hi)) == hi
    ensures Lo8(Le16(lo, hi)) == lo
  {
  }

  /** The four byte lanes of a little-endian word, as the C code masks them out:
      `w & 0xff`, `(w >> 8) & 0xff`, `(w >> 16) & 0xff` and `(w >> 24) & 0xff`. */
  lemma Le32Lanes(b0: Byte, b1: Byte, b2: Byte, b3: Byte)
    ensures Lo8(Le32(b0, b1, b2, b3)) == b0
    ensures Lo8(Le32(b0, b1, b2, b3) / 0x100) == b1
    ensures Lo8(Le32(b0, b1, b2, b3) / 0x1_0000) == b2
    ensures Lo8(Le32(b0, b1, b2, b3) / 0x100_0000) == b3
  {
    var w := Le32(b0, b1, b2, b3);
    assert w == b0 + 0x100 * (b1 + 0x100 * b2 + 0x1_0000 * b3);
    assert w / 0x100 == b1 + 0x100 * (b2 + 0x100 * b3);
    assert w / 0x1_0000 == b2 + 0x100 * b3;
    assert w / 0x100_0000 == b3;
  }

  /** The low and high half-words of a little-endian word, `w & 0xffff` and
      `(w >> 16) & 0xffff`, are the pixels stored at its first and last two bytes. */
  lemma Le32Halves(b0: Byte, b1: Byte, b2: Byte, b3: Byte)
    ensures Le32(b0, b1, b2, b3) % 0x1_0000 == Le16(b0, b1)
    ensures (Le32(b0, b1, b2, b3) / 0x1_0000) % 0x1_0000 == Le16(b2, b3)
  {
    var w := Le32(b0, b1, b2, b3);
    assert w == Le16(b0, b1) + 0x1_0000 * Le16(b2, b3);
  }

  datatype Option<+T> = None | Some(value: T)
}
