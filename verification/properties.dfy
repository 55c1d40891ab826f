/** Properties that relate several handlers: inverse pairs, round trips
    through memory and registers, and the stack image that JSR leaves. */
module Properties {
  import opened Status
  import opened Bus
  import opened Cpu
  import opened Handlers

  // ---------------------------------------------------------------------
  // Round trips through memory and registers

  /** A store followed by a load from the same resolved address reads back
      the stored register, and the load's N and Z describe it. */
  lemma StoreThenLoad(s: State, mode: AddrMode)
    requires mode != Implied
    ensures Lda(Sta(s).state, mode).state.a == s.a
    ensures Ldx(Stx(s).state, mode).state.x == s.x
    ensures Ldy(Sty(s).state, mode).state.y == s.y
    ensures SignZero(Lda(Sta(s).state, mode).state.status, s.a)
    ensures SignZero(Ldx(Stx(s).state, mode).state.status, s.x)
    ensures SignZero(Ldy(Sty(s).state, mode).state.status, s.y)
  {
  }

  /** A transfer and its reverse leave the source register unchanged and
      the destination equal to it. */
  lemma TransferRoundTrips(s: State)
    ensures Txa(Tax(s).state).state.a == s.a && Txa(Tax(s).state).state.x == s.a
    ensures Tya(Tay(s).state).state.a == s.a && Tya(Tay(s).state).state.y == s.a
    ensures Tsx(Txs(s).state).state.x == s.x && Tsx(Txs(s).state).state.stkp == s.x
  {
  }

  // ---------------------------------------------------------------------
  // Inverse pairs

  /** INX and DEX undo each other: only N and Z may differ from the
      starting state. */
  lemma {:induction false} InxThenDex(s: State)
    ensures var t := Dex(Inx(s).state).state;
      t == s.(status := t.status) && AgreeOutside(s.status, t.status, Mask(N) | Mask(Z))
  {
    var t1 := Inx(s).state;
    var t2 := Dex(t1).state;
    assert t1 == s.(x := s.x + 1, status := t1.status);
    assert t2 == t1.(x := t1.x - 1, status := t2.status);
    assert t1.x - 1 == s.x;
  }

  /** INY and DEY undo each other: only N and Z may differ from the
      starting state. */
  lemma {:induction false} InyThenDey(s: State)
    ensures var t := Dey(Iny(s).state).state;
      t == s.(status := t.status) && AgreeOutside(s.status, t.status, Mask(N) | Mask(Z))
  {
    var t1 := Iny(s).state;
    var t2 := Dey(t1).state;
    assert t1 == s.(y := s.y + 1, status := t1.status);
    assert t2 == t1.(y := t1.y - 1, status := t2.status);
    assert t1.y - 1 == s.y;
  }

  /** INC then DEC of a byte in memory restores it. */
  lemma {:induction false} IncThenDecRestoresMemory(s: State, mode: AddrMode)
    requires mode != Implied
    ensures var t := Dec(Inc(s, mode).state, mode).state;
      t.mem(s.addrAbs) == s.mem(s.addrAbs)
  {
    var t1 := Inc(s, mode).state;
    StoredBackReadsBack(s, mode, Operand(s, mode) + 1, t1);
    var t2 := Dec(t1, mode).state;
    StoredBackReadsBack(t1, mode, Operand(t1, mode) - 1, t2);
  }

  /** Two EORs with the same operand restore the accumulator. */
  lemma EorTwiceRestores(s: State, mode: AddrMode)
    ensures Eor(Eor(s, mode).state, mode).state.a == s.a
  {
    var t1 := Eor(s, mode).state;
    assert Operand(t1, mode) == Operand(s, mode);
  }

  /** What a handler after ROL reads: the rotated byte at the same
      operand, with C holding the old bit 7. */
  lemma RolReadsBack(s: State, mode: AddrMode)
    ensures var t := Rol(s, mode).state;
      && Operand(t, mode) == Operand(s, mode) * 2 + CarryIn(s)
      && (mode == Implied ==> t.a == Operand(t, mode))
      && t.addrAbs == s.addrAbs
      && CarryIn(t) == (if Operand(s, mode) >= 0x80 then 1 else 0)
  {
    StoredBackReadsBack(s, mode, Operand(s, mode) * 2 + CarryIn(s), Rol(s, mode).state);
  }

  /** What a handler after ROR reads: the rotated byte at the same
      operand, with C holding the old bit 0. */
  lemma RorReadsBack(s: State, mode: AddrMode)
    ensures var t := Ror(s, mode).state;
      && Operand(t, mode) == Operand(s, mode) / 2 + CarryIn(s) * 0x80
      && (mode == Implied ==> t.a == Operand(t, mode))
      && t.addrAbs == s.addrAbs
      && CarryIn(t) == (if Operand(s, mode) % 2 == 1 then 1 else 0)
  {
    StoredBackReadsBack(s, mode, Operand(s, mode) / 2 + CarryIn(s) * 0x80, Ror(s, mode).state);
  }

  /** ROL followed by ROR of the accumulator (each through the implied
      resolver) restores both the accumulator and the carry: the bit ROL
      moves out through C is the one ROR moves back in. */
  lemma {:induction false} RotateLeftThenRight(s: State)
    ensures var t := Ror(Imp(Rol(Imp(s).state, Implied).state).state, Implied).state;
      t.a == s.a && Has(t.status, C) == Has(s.status, C)
  {
    var t0 := Imp(s).state;
    RolReadsBack(t0, Implied);
    var t2 := Imp(Rol(t0, Implied).state).state;
    RorReadsBack(t2, Implied);
    RotateBack(s.a, CarryIn(s));
  }

  /** Byte arithmetic behind `RotateLeftThenRight`: halving the doubled
      byte plus carry and putting the old bit 7 back on top gives the byte,
      and the new bit 0 is the carry. */
  lemma RotateBack(m: bv8, c: bv8)
    requires c == 0 || c == 1
    ensures (m * 2 + c) / 2 + (if m >= 0x80 then 1 else 0) * 0x80 == m
    ensures ((m * 2 + c) % 2 == 1) == (c == 1)
  {
  }

  /** ROR followed by ROL of a byte in memory restores the byte and the
      carry. */
  lemma {:induction false} RotateRightThenLeftInMemory(s: State, mode: AddrMode)
    requires mode != Implied
    ensures var t := Rol(Ror(s, mode).state, mode).state;
      t.mem(s.addrAbs) == s.mem(s.addrAbs) && Has(t.status, C) == Has(s.status, C)
  {
    RorReadsBack(s, mode);
    RolReadsBack(Ror(s, mode).state, mode);
    RotateForth(s.mem(s.addrAbs), CarryIn(s));
  }

  /** Byte arithmetic behind `RotateRightThenLeftInMemory`. */
  lemma RotateForth(m: bv8, c: bv8)
    requires c == 0 || c == 1
    ensures (m / 2 + c * 0x80) * 2 + (if m % 2 == 1 then 1 else 0) == m
    ensures (m / 2 + c * 0x80 >= 0x80) == (c == 1)
  {
  }

  /** ASL followed by LSR of the accumulator clears bit 7 and keeps the
      other seven; C then holds 0, the bit ASL brought in. */
  lemma ShiftLeftThenRight(s: State)
    ensures var t := Lsr(Imp(Asl(Imp(s).state, Implied).state).state, Implied).state;
      t.a == s.a & 0x7F && !Has(t.status, C) && !Has(t.status, N)
  {
    var t1 := Asl(Imp(s).state, Implied).state;
    assert t1.a == s.a * 2;
    ShiftBack(s.a);
  }

  /** Byte arithmetic behind `ShiftLeftThenRight`. */
  lemma ShiftBack(m: bv8)
    ensures (m * 2) / 2 == m & 0x7F
    ensures (m * 2) % 2 == 0
  {
  }

  // ---------------------------------------------------------------------
  // Flag instructions

  /** A clear undoes a set of the same flag when the flag started clear,
      and the second of two flag instructions on the same flag decides it:
      CLC after SEC is CLC, SEC after CLC is SEC. */
  lemma {:induction false} CarryInstructionsLastWins(s: State)
    ensures Clc(Sec(s).state).state == Clc(s).state
    ensures Sec(Clc(s).state).state == Sec(s).state
    ensures !Has(s.status, C) ==> Clc(Sec(s).state).state == s
  {
    SetFlagLastWins(s, C, true, false);
    SetFlagLastWins(s, C, false, true);
    if !Has(s.status, C) {
      ClearingAClearFlag(s.status);
    }
  }

  /** Clearing the carry of a status byte whose carry is clear changes
      nothing. */
  lemma ClearingAClearFlag(status: bv8)
    requires !Has(status, C)
    ensures Assign(status, C, false) == status
  {
  }

  // ---------------------------------------------------------------------
  // Subroutine call

  /** The two bytes JSR leaves just above the new stack pointer form, low
      byte first, the address of the call's last byte: pc - 1, one less than
      where execution resumes. */
  lemma {:induction false} JsrPushesReturnAddress(s: State)
    ensures var t := Jsr(s).state;
      Word(t.mem(StackAddr(t.stkp + 2)), t.mem(StackAddr(t.stkp + 1))) + 1 == s.pc
  {
    var t := Jsr(s).state;
    assert t.stkp + 2 == s.stkp;
    assert t.stkp + 1 == s.stkp - 1;
    WordSplit(s.pc - 1);
  }

  // ---------------------------------------------------------------------
  // Worked cases

  /** INX wraps 0xFF to 0x00 with Z set and N clear; DEY wraps 0x00 to
      0xFF with N set and Z clear. */
  lemma IndexRegistersWrap(s: State)
    ensures s.x == 0xFF ==>
      Inx(s).state.x == 0x00 && Has(Inx(s).state.status, Z) && !Has(Inx(s).state.status, N)
    ensures s.y == 0x00 ==>
      Dey(s).state.y == 0xFF && Has(Dey(s).state.status, N) && !Has(Dey(s).state.status, Z)
  {
  }

  /** A taken BCC from 0x10F0 by +0x20 lands on 0x1110, on the next page,
      and costs two cycles; by +0x02 it stays on the page and costs one. */
  lemma {:induction false} BccPageCrossing(s: State)
    requires !Has(s.status, C) && s.pc == 0x10F0
    ensures s.addrRel == 0x0020 ==>
      Bcc(s).state.pc == 0x1110 && Bcc(s).state.cycles == s.cycles + 2
    ensures s.addrRel == 0x0002 ==>
      Bcc(s).state.pc == 0x10F2 && Bcc(s).state.cycles == s.cycles + 1
  {
    assert Page(0x1110) != Page(0x10F0);
    assert Page(0x10F2) == Page(0x10F0);
  }

  /** CMP of 0x10 with 0x20: C clear (A is below), Z clear, and N set (the
      difference 0xF0 has bit 7 set). */
  lemma CompareBelow(s: State, mode: AddrMode)
    requires s.a == 0x10 && Operand(s, mode) == 0x20
    ensures var t := Cmp(s, mode).state;
      !Has(t.status, C) && !Has(t.status, Z) && Has(t.status, N) && t.a == 0x10
  {
  }
}
