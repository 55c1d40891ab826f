/** The 6502 processor status register: eight named single-bit flags in one
    byte, bit 0 (carry) through bit 7 (negative). */
module Status {

  /** One flag per bit of the status byte, listed from bit 0 to bit 7:
      carry, zero, interrupt-disable, decimal, break, unused, overflow,
      negative. */
  datatype Flag = C | Z | I | D | B | U | V | N

  /** The single bit of the status byte that holds flag `f`. */
  function Mask(f: Flag): bv8
  {
    match f
    case C => 0x01
    case Z => 0x02
    case I => 0x04
    case D => 0x08
    case B => 0x10
    case U => 0x20
    case V => 0x40
    case N => 0x80
  }

  /** Bit position of each flag, an independent description of `Mask`. */
  function Position(f: Flag): nat
  {
    match f
    case C => 0
    case Z => 1
    case I => 2
    case D => 3
    case B => 4
    case U => 5
    case V => 6
    case N => 7
  }

  /** True iff flag `f` is raised in `status`. */
  predicate Has(status: bv8, f: Flag)
  {
    status & Mask(f) != 0
  }

  /** `after` agrees with `before` on every bit outside `mask`. */
  predicate AgreeOutside(before: bv8, after: bv8, mask: bv8)
  {
    after & !mask == before & !mask
  }

  /** Flag `f` of `status` as the number 0 or 1. */
  function Bit(status: bv8, f: Flag): (r: bv8)
    ensures r == 0 || r == 1
    ensures r == 1 <==> Has(status, f)
  {
    if status & Mask(f) > 0 then 1 else 0
  }

  /** The N and Z flags of `status` describe the byte `v`: N is its sign bit
      and Z says whether it is zero. */
  predicate SignZero(status: bv8, v: bv8)
  {
    Has(status, N) == (v >= 0x80) && Has(status, Z) == (v == 0)
  }

  /** `status` with flag `f` raised when `b` holds and cleared otherwise. */
  function Assign(status: bv8, f: Flag, b: bool): (r: bv8)
    ensures Has(r, f) == b
    ensures AgreeOutside(status, r, Mask(f))
  {
    if b then status | Mask(f) else status & !Mask(f)
  }

  /** Sets N and Z from the byte `v`: the flag tail shared by every
      instruction that produces a value. */
  function AssignNZ(status: bv8, v: bv8): (r: bv8)
    ensures SignZero(r, v)
    ensures AgreeOutside(status, r, Mask(N) | Mask(Z))
  {
    Assign(Assign(status, Z, v == 0x00), N, v & 0x80 != 0)
  }

  /** Sets C to `c`, then N and Z from `v`: the flag tail of the shifts and
      rotates. */
  function AssignCNZ(status: bv8, c: bool, v: bv8): (r: bv8)
    ensures Has(r, C) == c && SignZero(r, v)
    ensures AgreeOutside(status, r, Mask(C) | Mask(N) | Mask(Z))
  {
    AssignNZ(Assign(status, C, c), v)
  }

  /** Sets N, C and Z to the given values: the flag tail of the compares
      and of LSR. */
  function AssignNCZ(status: bv8, n: bool, c: bool, z: bool): (r: bv8)
    ensures Has(r, N) == n && Has(r, C) == c && Has(r, Z) == z
    ensures AgreeOutside(status, r, Mask(N) | Mask(C) | Mask(Z))
  {
    Assign(Assign(Assign(status, C, c), Z, z), N, n)
  }

  /** Sets C and V, then N and Z from `v`: the flag tail of ADC. */
  function AssignCVNZ(status: bv8, c: bool, o: bool, v: bv8): (r: bv8)
    ensures Has(r, C) == c && Has(r, V) == o && SignZero(r, v)
    ensures AgreeOutside(status, r, Mask(C) | Mask(V) | Mask(N) | Mask(Z))
  {
    AssignNZ(Assign(Assign(status, C, c), V, o), v)
  }

  /** Agreeing outside a mask means agreeing on every flag whose bit lies
      outside it. */
  lemma AgreeOutsideFlags(before: bv8, after: bv8, mask: bv8, g: Flag)
    requires AgreeOutside(before, after, mask)
    requires Mask(g) & mask == 0
    ensures Has(after, g) == Has(before, g)
  {
  }

  /** Each mask is the one-bit byte 2^Position(f), so distinct flags never
      share a bit. */
  lemma MaskIsOneBit(f: Flag)
    ensures Mask(f) == 1 << Position(f)
    ensures Mask(f) != 0
    ensures forall g :: g != f ==> Mask(g) & Mask(f) == 0
  {
  }

  /** A status byte is determined by its eight flags: no bit of the byte lies
      outside the named flags. */
  lemma {:induction false} FlagsDetermineStatus(x: bv8, y: bv8)
    requires forall g :: Has(x, g) == Has(y, g)
    ensures x == y
  {
    assert Has(x, C) == Has(y, C);
    assert Has(x, Z) == Has(y, Z);
    assert Has(x, I) == Has(y, I);
    assert Has(x, D) == Has(y, D);
    assert Has(x, B) == Has(y, B);
    assert Has(x, U) == Has(y, U);
    assert Has(x, V) == Has(y, V);
    assert Has(x, N) == Has(y, N);
  }
}
