/** Byte arithmetic behind the handlers: what the bit manipulations of
    cpu.c compute, stated as ordinary arithmetic modulo 256. */
module Alu {

  /** Bit 7 of a byte is its sign. */
  lemma SignBit(v: bv8)
    ensures (v & 0x80 != 0) == (v >= 0x80)
  {
  }

  /** Shifting left and masking bit 0 doubles a byte modulo 256. */
  lemma ShiftLeftDoubles(m: bv8)
    ensures (m << 1) & 0xFE == m * 2
  {
  }

  /** Shifting right and masking bit 7 halves a byte; bit 0 is its parity,
      and the half is zero exactly for 0 and 1. */
  lemma ShiftRightHalves(m: bv8)
    ensures (m >> 1) & 0x7F == m / 2
    ensures (m & 0x01 != 0) == (m % 2 == 1)
    ensures (m / 2 == 0) == (m < 2)
  {
  }

  /** Or-ing a carry of 0 or 1 into a doubled byte adds it. */
  lemma RotateLeftBits(m: bv8, c: bv8)
    requires c == 0 || c == 1
    ensures ((m << 1) & 0xFE) | c == m * 2 + c
  {
  }

  /** Or-ing a carry of 0 or 1 into bit 7 of a halved byte adds 0x80 times
      it. */
  lemma RotateRightBits(m: bv8, c: bv8)
    requires c == 0 || c == 1
    ensures ((m >> 1) & 0x7F) | (c << 7) == m / 2 + c * 0x80
  {
  }

  /** The unsigned sum a + m + c, for a carry c of 0 or 1, exceeds 255:
      m exceeds 255 - a - c, where `!a` is 255 - a. */
  predicate Carries(a: bv8, m: bv8, c: bv8)
  {
    if c == 0 then m > !a else m >= !a
  }

  /** Two's-complement overflow of a sum: the addends share a sign that the
      result `res` does not. */
  predicate SignedOverflow(a: bv8, m: bv8, res: bv8)
  {
    (a >= 0x80) == (m >= 0x80) && (res >= 0x80) != (a >= 0x80)
  }

  /** The carry-out of ADC computed as on the 6502: the 16-bit sum of the
      operands exceeds 0xFF. */
  function AddCarry(a: bv8, m: bv8, c: bv8): (b: bool)
    requires c == 0 || c == 1
    ensures b == Carries(a, m, c)
  {
    a as bv16 + m as bv16 + c as bv16 > 0x00FF
  }

  /** The overflow of ADC computed as on the 6502: bit 7 of
      ~(a ^ m) & (a ^ res). */
  function AddSigned(a: bv8, m: bv8, res: bv8): (b: bool)
    ensures b == SignedOverflow(a, m, res)
  {
    (!(a ^ m) & (a ^ res)) & 0x80 != 0
  }

  /** The 16-bit sum of two bytes and a carry is the carry-out times 0x100
      plus the 8-bit sum: `Carries` is the ninth bit of the sum. */
  lemma CarryIsNinthBit(a: bv8, m: bv8, c: bv8)
    requires c == 0 || c == 1
    ensures a as bv16 + m as bv16 + c as bv16
         == (if Carries(a, m, c) then 0x100 else 0) + (a + m + c) as bv16
  {
  }

  /** The low byte of the 16-bit sum is the 8-bit sum. */
  lemma LowByteOfSum(a: bv8, m: bv8, c: bv8)
    requires c == 0 || c == 1
    ensures ((a as bv16 + m as bv16 + c as bv16) & 0x00FF) as bv8 == a + m + c
  {
  }
}
