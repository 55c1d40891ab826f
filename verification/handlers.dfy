/** The operation handlers of cpu.c (lines 113-732), one function per
    mnemonic. Each takes the state left by the addressing-mode resolver and
    returns the new state together with whether it may need an extra cycle.
    Handlers that fetch their operand also take `mode`, the table's
    addressing mode for the current opcode, which is all cpu_fetch consults;
    they work on `Operand(s, mode)`, the byte that cpu_fetch leaves in
    `fetched`. */
module Handlers {
  import opened Status
  import opened Bus
  import opened Alu
  import opened Cpu

  /** The carry flag as the number 0 or 1 that the arithmetic adds in. */
  function CarryIn(s: State): bv8
  {
    GetFlag(s, C)
  }

  /** `t` holds the result `v` of a read-modify-write instruction, written
      back to where the operand came from: the accumulator in the implied
      mode, the byte at `addrAbs` otherwise. `fetched` holds `v` as well, and
      apart from the status nothing else differs from `s`. */
  ghost predicate StoredBack(s: State, mode: AddrMode, v: bv8, t: State)
  {
    if mode == Implied then
      t == s.(a := v, fetched := v, status := t.status)
    else
      t == s.(fetched := v, mem := Write(s.mem, s.addrAbs, v), status := t.status)
  }

  /** A written-back state keeps the program counter, the opcode and the
      cycle count. */
  lemma StoredBackKeepsControl(s: State, mode: AddrMode, v: bv8, t: State)
    requires StoredBack(s, mode, v, t)
    ensures t.pc == s.pc && t.opcode == s.opcode && t.cycles == s.cycles
  {
    if mode == Implied {
      assert t == s.(a := v, fetched := v, status := t.status);
    } else {
      assert t == s.(fetched := v, mem := Write(s.mem, s.addrAbs, v), status := t.status);
    }
  }

  /** A write-back changes no byte of memory other than the one at
      `addrAbs`, and none at all in the implied mode. */
  lemma StoredBackWritesOnlyOperand(s: State, mode: AddrMode, v: bv8, t: State)
    requires StoredBack(s, mode, v, t)
    ensures forall b :: b != s.addrAbs ==> t.mem(b) == s.mem(b)
    ensures mode == Implied ==> t.mem == s.mem
  {
    if mode == Implied {
      assert t == s.(a := v, fetched := v, status := t.status);
    } else {
      assert t == s.(fetched := v, mem := Write(s.mem, s.addrAbs, v), status := t.status);
    }
  }

  /** A written-back result is what the next handler on the same operand
      reads: `Operand` of the new state is `v`, and the resolved address is
      unchanged. */
  lemma StoredBackReadsBack(s: State, mode: AddrMode, v: bv8, t: State)
    requires StoredBack(s, mode, v, t)
    ensures Operand(t, mode) == v && t.addrAbs == s.addrAbs
    ensures mode == Implied ==> t.a == v
    ensures mode != Implied ==> t.mem(s.addrAbs) == v && t.a == s.a
  {
    if mode == Implied {
      assert t == s.(a := v, fetched := v, status := t.status);
    } else {
      assert t == s.(fetched := v, mem := Write(s.mem, s.addrAbs, v), status := t.status);
    }
  }

  /** Writes a read-modify-write result `v` back to its origin, with the new
      status byte `status`. */
  function WriteBack(s: State, mode: AddrMode, v: bv8, status: bv8): (r: State)
    ensures StoredBack(s, mode, v, r) && r.status == status
  {
    if mode == Implied then s.(a := v, fetched := v, status := status)
    else s.(fetched := v, mem := Write(s.mem, s.addrAbs, v), status := status)
  }

  // ---------------------------------------------------------------------
  // Arithmetic and logic on the accumulator

  /** ADC: A := A + M + C, C := the carry out of bit 7, V := signed
      overflow, N and Z from the sum. Decimal mode is not modelled. */
  function Adc(s: State, mode: AddrMode): (r: Step)
    ensures var m := Operand(s, mode);
      var res := s.a + m + CarryIn(s);
      && r.state == s.(a := res, fetched := m, status := r.state.status)
      && Has(r.state.status, C) == Carries(s.a, m, CarryIn(s))
      && Has(r.state.status, V) == SignedOverflow(s.a, m, res)
      && SignZero(r.state.status, res)
      && AgreeOutside(s.status, r.state.status, Mask(C) | Mask(V) | Mask(N) | Mask(Z))
    ensures r.extra
  {
    Step(Fetch(s, mode).(
      a := s.a + Operand(s, mode) + CarryIn(s),
      status := AssignCVNZ(s.status,
        AddCarry(s.a, Operand(s, mode), CarryIn(s)),
        AddSigned(s.a, Operand(s, mode), s.a + Operand(s, mode) + CarryIn(s)),
        s.a + Operand(s, mode) + CarryIn(s))), true)
  }

  /** AND: A := A & M. */
  function And(s: State, mode: AddrMode): (r: Step)
    ensures var m := Operand(s, mode);
      && r.state == s.(a := s.a & m, fetched := m, status := r.state.status)
      && SignZero(r.state.status, s.a & m)
      && AgreeOutside(s.status, r.state.status, Mask(N) | Mask(Z))
    ensures r.extra
  {
    Step(Fetch(s, mode).(a := s.a & Operand(s, mode), status := AssignNZ(s.status, s.a & Operand(s, mode))), true)
  }

  /** ORA: A := A | M. */
  function Ora(s: State, mode: AddrMode): (r: Step)
    ensures var m := Operand(s, mode);
      && r.state == s.(a := s.a | m, fetched := m, status := r.state.status)
      && SignZero(r.state.status, s.a | m)
      && AgreeOutside(s.status, r.state.status, Mask(N) | Mask(Z))
    ensures r.extra
  {
    Step(Fetch(s, mode).(a := s.a | Operand(s, mode), status := AssignNZ(s.status, s.a | Operand(s, mode))), true)
  }

  /** EOR: A := A ^ M, with the operand fetched first. */
  function Eor(s: State, mode: AddrMode): (r: Step)
    ensures var m := Operand(s, mode);
      && r.state == s.(a := s.a ^ m, fetched := m, status := r.state.status)
      && SignZero(r.state.status, s.a ^ m)
      && AgreeOutside(s.status, r.state.status, Mask(N) | Mask(Z))
    ensures r.extra
  {
    Step(Fetch(s, mode).(a := s.a ^ Operand(s, mode), status := AssignNZ(s.status, s.a ^ Operand(s, mode))), true)
  }

  // ---------------------------------------------------------------------
  // Shifts and rotates; the result is written back to A or to memory

  /** ASL: the operand doubled (mod 256); the bit shifted out goes to C. */
  function Asl(s: State, mode: AddrMode): (r: Step)
    ensures var m := Operand(s, mode);
      && StoredBack(s, mode, m * 2, r.state)
      && Has(r.state.status, C) == (m >= 0x80)
      && SignZero(r.state.status, m * 2)
      && AgreeOutside(s.status, r.state.status, Mask(C) | Mask(N) | Mask(Z))
    ensures !r.extra
  {
    SignBit(Operand(s, mode));
    ShiftLeftDoubles(Operand(s, mode));
    Step(WriteBack(s, mode, (Operand(s, mode) << 1) & 0xFE,
      AssignCNZ(s.status, Operand(s, mode) & 0x80 != 0, (Operand(s, mode) << 1) & 0xFE)), false)
  }

  /** LSR: the operand halved; the bit shifted out goes to C and N is
      cleared. */
  function Lsr(s: State, mode: AddrMode): (r: Step)
    ensures var m := Operand(s, mode);
      && StoredBack(s, mode, m / 2, r.state)
      && Has(r.state.status, C) == (m % 2 == 1)
      && !Has(r.state.status, N)
      && Has(r.state.status, Z) == (m < 2)
      && AgreeOutside(s.status, r.state.status, Mask(N) | Mask(C) | Mask(Z))
    ensures !r.extra
  {
    ShiftRightHalves(Operand(s, mode));
    Step(WriteBack(s, mode, (Operand(s, mode) >> 1) & 0x7F,
      AssignNCZ(s.status, false, Operand(s, mode) & 0x01 != 0, (Operand(s, mode) >> 1) & 0x7F == 0x00)), false)
  }

  /** ROL: the operand doubled plus the old carry; C gets the old bit 7. */
  function Rol(s: State, mode: AddrMode): (r: Step)
    ensures var m := Operand(s, mode);
      var res := m * 2 + CarryIn(s);
      && StoredBack(s, mode, res, r.state)
      && Has(r.state.status, C) == (m >= 0x80)
      && SignZero(r.state.status, res)
      && AgreeOutside(s.status, r.state.status, Mask(C) | Mask(N) | Mask(Z))
    ensures !r.extra
  {
    SignBit(Operand(s, mode));
    RotateLeftBits(Operand(s, mode), CarryIn(s));
    Step(WriteBack(s, mode, ((Operand(s, mode) << 1) & 0xFE) | CarryIn(s),
      AssignCNZ(s.status, Operand(s, mode) & 0x80 != 0, ((Operand(s, mode) << 1) & 0xFE) | CarryIn(s))), false)
  }

  /** ROR as on the 6502: the operand halved with the old carry entering
      bit 7; C gets the old bit 0. */
  function Ror(s: State, mode: AddrMode): (r: Step)
    ensures var m := Operand(s, mode);
      var res := m / 2 + CarryIn(s) * 0x80;
      && StoredBack(s, mode, res, r.state)
      && Has(r.state.status, C) == (m % 2 == 1)
      && SignZero(r.state.status, res)
      && AgreeOutside(s.status, r.state.status, Mask(C) | Mask(N) | Mask(Z))
    ensures !r.extra
  {
    ShiftRightHalves(Operand(s, mode));
    RotateRightBits(Operand(s, mode), CarryIn(s));
    Step(WriteBack(s, mode, ((Operand(s, mode) >> 1) & 0x7F) | (CarryIn(s) << 7),
      AssignCNZ(s.status, Operand(s, mode) & 0x01 != 0, ((Operand(s, mode) >> 1) & 0x7F) | (CarryIn(s) << 7))), false)
  }

  // ---------------------------------------------------------------------
  // Increments and decrements

  /** INC: the operand plus one (mod 256), written back. */
  function Inc(s: State, mode: AddrMode): (r: Step)
    ensures var m := Operand(s, mode);
      && StoredBack(s, mode, m + 1, r.state)
      && SignZero(r.state.status, m + 1)
      && AgreeOutside(s.status, r.state.status, Mask(N) | Mask(Z))
    ensures !r.extra
  {
    Step(WriteBack(s, mode, (Operand(s, mode) + 1) & 0xFF, AssignNZ(s.status, (Operand(s, mode) + 1) & 0xFF)), false)
  }

  /** DEC: the operand minus one (mod 256), written back. */
  function Dec(s: State, mode: AddrMode): (r: Step)
    ensures var m := Operand(s, mode);
      && StoredBack(s, mode, m - 1, r.state)
      && SignZero(r.state.status, m - 1)
      && AgreeOutside(s.status, r.state.status, Mask(N) | Mask(Z))
    ensures !r.extra
  {
    Step(WriteBack(s, mode, (Operand(s, mode) - 1) & 0xFF, AssignNZ(s.status, (Operand(s, mode) - 1) & 0xFF)), false)
  }

  /** INX: X := X + 1 (mod 256). */
  function Inx(s: State): (r: Step)
    ensures r.state == s.(x := s.x + 1, status := r.state.status)
    ensures SignZero(r.state.status, s.x + 1)
    ensures AgreeOutside(s.status, r.state.status, Mask(N) | Mask(Z))
    ensures !r.extra
  {
    Step(s.(x := s.x + 1, status := AssignNZ(s.status, s.x + 1)), false)
  }

  /** INY: Y := Y + 1 (mod 256). */
  function Iny(s: State): (r: Step)
    ensures r.state == s.(y := s.y + 1, status := r.state.status)
    ensures SignZero(r.state.status, s.y + 1)
    ensures AgreeOutside(s.status, r.state.status, Mask(N) | Mask(Z))
    ensures !r.extra
  {
    Step(s.(y := s.y + 1, status := AssignNZ(s.status, s.y + 1)), false)
  }

  /** DEX: X := X - 1 (mod 256). */
  function Dex(s: State): (r: Step)
    ensures r.state == s.(x := s.x - 1, status := r.state.status)
    ensures SignZero(r.state.status, s.x - 1)
    ensures AgreeOutside(s.status, r.state.status, Mask(N) | Mask(Z))
    ensures !r.extra
  {
    Step(s.(x := s.x - 1, status := AssignNZ(s.status, s.x - 1)), false)
  }

  /** DEY: Y := Y - 1 (mod 256). */
  function Dey(s: State): (r: Step)
    ensures r.state == s.(y := s.y - 1, status := r.state.status)
    ensures SignZero(r.state.status, s.y - 1)
    ensures AgreeOutside(s.status, r.state.status, Mask(N) | Mask(Z))
    ensures !r.extra
  {
    Step(s.(y := s.y - 1, status := AssignNZ(s.status, s.y - 1)), false)
  }

  // ---------------------------------------------------------------------
  // Compare

  /** The flags of a compare of register value `reg` with operand `m`:
      C iff reg >= m unsigned, Z iff they are equal, N the sign bit of the
      difference mod 256; all other flags kept. */
  ghost predicate Compared(before: bv8, after: bv8, reg: bv8, m: bv8)
  {
    && Has(after, C) == (reg >= m)
    && Has(after, Z) == (reg == m)
    && Has(after, N) == (reg - m >= 0x80)
    && AgreeOutside(before, after, Mask(N) | Mask(C) | Mask(Z))
  }

  /** The status after comparing `reg` with `m`, shared by CMP, CPX and
      CPY: N from the difference, C from the unsigned order, Z from the
      difference being zero. */
  function CompareFlags(status: bv8, reg: bv8, m: bv8): (r: bv8)
    ensures Compared(status, r, reg, m)
  {
    SignBit(reg - m);
    AssignNCZ(status, (reg - m) & 0x80 != 0, reg >= m, reg - m == 0x00)
  }

  /** CMP: compares A with the operand. */
  function Cmp(s: State, mode: AddrMode): (r: Step)
    ensures r.state == s.(fetched := Operand(s, mode), status := r.state.status)
    ensures Compared(s.status, r.state.status, s.a, Operand(s, mode))
    ensures r.extra
  {
    Step(Fetch(s, mode).(status := CompareFlags(s.status, s.a, Operand(s, mode))), true)
  }

  /** CPX: compares X with the operand. */
  function Cpx(s: State, mode: AddrMode): (r: Step)
    ensures r.state == s.(fetched := Operand(s, mode), status := r.state.status)
    ensures Compared(s.status, r.state.status, s.x, Operand(s, mode))
    ensures !r.extra
  {
    Step(Fetch(s, mode).(status := CompareFlags(s.status, s.x, Operand(s, mode))), false)
  }

  /** CPY: compares Y with the operand. */
  function Cpy(s: State, mode: AddrMode): (r: Step)
    ensures r.state == s.(fetched := Operand(s, mode), status := r.state.status)
    ensures Compared(s.status, r.state.status, s.y, Operand(s, mode))
    ensures !r.extra
  {
    Step(Fetch(s, mode).(status := CompareFlags(s.status, s.y, Operand(s, mode))), false)
  }

  // ---------------------------------------------------------------------
  // Branches

  /** The extra cycles a taken branch costs: one, plus one more when the
      target lies on another page than the program counter. */
  function TakenCost(s: State): nat
  {
    if Page(s.pc + s.addrRel) != Page(s.pc) then 2 else 1
  }

  /** Shared body of the branches: when `taken`, pay a cycle, jump to
      pc + addrRel (mod 2^16), and pay another cycle on a page change. */
  function Branch(s: State, taken: bool): (r: Step)
    ensures !taken ==> r.state == s
    ensures taken ==> r.state == s.(pc := s.pc + s.addrRel, addrAbs := s.pc + s.addrRel,
                                    cycles := s.cycles + TakenCost(s))
    ensures !r.extra
  {
    if taken then
      var t := s.(cycles := s.cycles + 1, addrAbs := s.pc + s.addrRel);
      PageMask(t.addrAbs, t.pc);
      var t1 := if t.addrAbs & 0xFF00 != t.pc & 0xFF00 then t.(cycles := t.cycles + 1) else t;
      Step(t1.(pc := t1.addrAbs), false)
    else
      Step(s, false)
  }

  /** BCC: branch when the carry is clear. */
  function Bcc(s: State): (r: Step)
    ensures Has(s.status, C) ==> r.state == s
    ensures !Has(s.status, C) ==>
      && r.state == s.(pc := r.state.pc, addrAbs := r.state.pc, cycles := r.state.cycles)
      && r.state.pc == s.pc + s.addrRel
      && r.state.cycles - s.cycles == (if Page(r.state.pc) == Page(s.pc) then 1 else 2)
    ensures !r.extra
  {
    Branch(s, GetFlag(s, C) == 0)
  }

  /** BCS: branch when the carry is set. */
  function Bcs(s: State): (r: Step)
    ensures !Has(s.status, C) ==> r.state == s
    ensures Has(s.status, C) ==>
      && r.state == s.(pc := r.state.pc, addrAbs := r.state.pc, cycles := r.state.cycles)
      && r.state.pc == s.pc + s.addrRel
      && r.state.cycles - s.cycles == (if Page(r.state.pc) == Page(s.pc) then 1 else 2)
    ensures !r.extra
  {
    Branch(s, GetFlag(s, C) == 1)
  }

  // ---------------------------------------------------------------------
  // Flag instructions

  /** CLC: clears the carry flag. */
  function Clc(s: State): (r: Step)
    ensures r.state == s.(status := r.state.status)
    ensures !Has(r.state.status, C) && AgreeOutside(s.status, r.state.status, Mask(C))
    ensures !r.extra
  {
    Step(SetFlag(s, C, false), false)
  }

  /** CLD: clears the decimal flag. */
  function Cld(s: State): (r: Step)
    ensures r.state == s.(status := r.state.status)
    ensures !Has(r.state.status, D) && AgreeOutside(s.status, r.state.status, Mask(D))
    ensures !r.extra
  {
    Step(SetFlag(s, D, false), false)
  }

  /** CLI: clears the interrupt-disable flag. */
  function Cli(s: State): (r: Step)
    ensures r.state == s.(status := r.state.status)
    ensures !Has(r.state.status, I) && AgreeOutside(s.status, r.state.status, Mask(I))
    ensures !r.extra
  {
    Step(SetFlag(s, I, false), false)
  }

  /** CLV: clears the overflow flag. */
  function Clv(s: State): (r: Step)
    ensures r.state == s.(status := r.state.status)
    ensures !Has(r.state.status, V) && AgreeOutside(s.status, r.state.status, Mask(V))
    ensures !r.extra
  {
    Step(SetFlag(s, V, false), false)
  }

  /** SEC: sets the carry flag. */
  function Sec(s: State): (r: Step)
    ensures r.state == s.(status := r.state.status)
    ensures Has(r.state.status, C) && AgreeOutside(s.status, r.state.status, Mask(C))
    ensures !r.extra
  {
    Step(SetFlag(s, C, true), false)
  }

  /** SED: sets the decimal flag. */
  function Sed(s: State): (r: Step)
    ensures r.state == s.(status := r.state.status)
    ensures Has(r.state.status, D) && AgreeOutside(s.status, r.state.status, Mask(D))
    ensures !r.extra
  {
    Step(SetFlag(s, D, true), false)
  }

  /** SEI: sets the interrupt-disable flag. */
  function Sei(s: State): (r: Step)
    ensures r.state == s.(status := r.state.status)
    ensures Has(r.state.status, I) && AgreeOutside(s.status, r.state.status, Mask(I))
    ensures !r.extra
  {
    Step(SetFlag(s, I, true), false)
  }

  // ---------------------------------------------------------------------
  // Jumps

  /** JMP: continues at the resolved address `addrAbs`. */
  function Jmp(s: State, mode: AddrMode): (r: Step)
    ensures r.state == s.(fetched := Operand(s, mode), pc := s.addrAbs)
    ensures !r.extra
  {
    Step(Fetch(s, mode).(pc := s.addrAbs), false)
  }

  /** JSR: pushes pc - 1, high byte first, onto the stack page and
      continues at `addrAbs`. */
  function Jsr(s: State): (r: Step)
    ensures var ret := s.pc - 1;
      && r.state == s.(mem := r.state.mem, stkp := s.stkp - 2, pc := s.addrAbs)
      && r.state.mem(StackAddr(s.stkp)) == Hi(ret)
      && r.state.mem(StackAddr(s.stkp - 1)) == Lo(ret)
      && forall b :: b != StackAddr(s.stkp) && b != StackAddr(s.stkp - 1) ==>
           r.state.mem(b) == s.mem(b)
    ensures !r.extra
  {
    var progCounter := s.pc - 1;
    var m1 := Write(s.mem, StackAddr(s.stkp), Hi(progCounter));
    var sp := s.stkp - 1;
    StackAddrInjective(s.stkp, sp);
    var m2 := Write(m1, StackAddr(sp), Lo(progCounter));
    Step(s.(mem := m2, stkp := sp - 1, pc := s.addrAbs), false)
  }

  // ---------------------------------------------------------------------
  // Loads and stores

  /** LDA: A := M. */
  function Lda(s: State, mode: AddrMode): (r: Step)
    ensures var m := Operand(s, mode);
      && r.state == s.(a := m, fetched := m, status := r.state.status)
      && SignZero(r.state.status, m)
      && AgreeOutside(s.status, r.state.status, Mask(N) | Mask(Z))
    ensures r.extra
  {
    Step(Fetch(s, mode).(a := Operand(s, mode), status := AssignNZ(s.status, Operand(s, mode))), true)
  }

  /** LDX: X := M. */
  function Ldx(s: State, mode: AddrMode): (r: Step)
    ensures var m := Operand(s, mode);
      && r.state == s.(x := m, fetched := m, status := r.state.status)
      && SignZero(r.state.status, m)
      && AgreeOutside(s.status, r.state.status, Mask(N) | Mask(Z))
    ensures r.extra
  {
    Step(Fetch(s, mode).(x := Operand(s, mode), status := AssignNZ(s.status, Operand(s, mode))), true)
  }

  /** LDY: Y := M. */
  function Ldy(s: State, mode: AddrMode): (r: Step)
    ensures var m := Operand(s, mode);
      && r.state == s.(y := m, fetched := m, status := r.state.status)
      && SignZero(r.state.status, m)
      && AgreeOutside(s.status, r.state.status, Mask(N) | Mask(Z))
    ensures r.extra
  {
    Step(Fetch(s, mode).(y := Operand(s, mode), status := AssignNZ(s.status, Operand(s, mode))), true)
  }

  /** `t` is `s` with `v` written to `addrAbs` (and kept in `fetched`);
      every other address and register is untouched. */
  ghost predicate Stored(s: State, v: bv8, t: State)
  {
    && t == s.(fetched := v, mem := t.mem)
    && t.mem(s.addrAbs) == v
    && forall b :: b != s.addrAbs ==> t.mem(b) == s.mem(b)
  }

  /** STA: writes A to `addrAbs`. */
  function Sta(s: State): (r: Step)
    ensures Stored(s, s.a, r.state)
    ensures r.extra
  {
    Step(s.(fetched := s.a, mem := Write(s.mem, s.addrAbs, s.a)), true)
  }

  /** STX: writes X to `addrAbs`. */
  function Stx(s: State): (r: Step)
    ensures Stored(s, s.x, r.state)
    ensures r.extra
  {
    Step(s.(fetched := s.x, mem := Write(s.mem, s.addrAbs, s.x)), true)
  }

  /** STY: writes Y to `addrAbs`. */
  function Sty(s: State): (r: Step)
    ensures Stored(s, s.y, r.state)
    ensures r.extra
  {
    Step(s.(fetched := s.y, mem := Write(s.mem, s.addrAbs, s.y)), true)
  }

  // ---------------------------------------------------------------------
  // Transfers

  /** TAX: X := A. */
  function Tax(s: State): (r: Step)
    ensures r.state == s.(x := s.a, status := r.state.status)
    ensures SignZero(r.state.status, s.a) && AgreeOutside(s.status, r.state.status, Mask(N) | Mask(Z))
    ensures !r.extra
  {
    Step(s.(x := s.a, status := AssignNZ(s.status, s.a)), false)
  }

  /** TAY: Y := A. */
  function Tay(s: State): (r: Step)
    ensures r.state == s.(y := s.a, status := r.state.status)
    ensures SignZero(r.state.status, s.a) && AgreeOutside(s.status, r.state.status, Mask(N) | Mask(Z))
    ensures !r.extra
  {
    Step(s.(y := s.a, status := AssignNZ(s.status, s.a)), false)
  }

  /** TSX: X := the stack pointer. */
  function Tsx(s: State): (r: Step)
    ensures r.state == s.(x := s.stkp, status := r.state.status)
    ensures SignZero(r.state.status, s.stkp) && AgreeOutside(s.status, r.state.status, Mask(N) | Mask(Z))
    ensures !r.extra
  {
    Step(s.(x := s.stkp, status := AssignNZ(s.status, s.stkp)), false)
  }

  /** TXA: A := X. */
  function Txa(s: State): (r: Step)
    ensures r.state == s.(a := s.x, status := r.state.status)
    ensures SignZero(r.state.status, s.x) && AgreeOutside(s.status, r.state.status, Mask(N) | Mask(Z))
    ensures !r.extra
  {
    Step(s.(a := s.x, status := AssignNZ(s.status, s.x)), false)
  }

  /** TYA: A := Y. */
  function Tya(s: State): (r: Step)
    ensures r.state == s.(a := s.y, status := r.state.status)
    ensures SignZero(r.state.status, s.y) && AgreeOutside(s.status, r.state.status, Mask(N) | Mask(Z))
    ensures !r.extra
  {
    Step(s.(a := s.y, status := AssignNZ(s.status, s.y)), false)
  }

  /** TXS: stack pointer := X; no flag changes. */
  function Txs(s: State): (r: Step)
    ensures r.state == s.(stkp := s.x)
    ensures !r.extra
  {
    Step(s.(stkp := s.x), false)
  }

  // ---------------------------------------------------------------------
  // No operation

  /** NOP: changes nothing. */
  function Nop(s: State): (r: Step)
    ensures r.state == s && !r.extra
  {
    Step(s, false)
  }

  /** The illegal-opcode sink: behaves as a no-operation. */
  function Xxx(s: State): (r: Step)
    ensures r.state == s && !r.extra
  {
    Step(s, false)
  }
}
