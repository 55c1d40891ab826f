/** The handlers of cpu.c whose code does not do what its comments and the
    6502 instruction set say, modelled exactly as the code is written, each
    beside a lemma that exhibits an input on which it differs from the
    corrected handler of `Handlers` or `Cpu`. Each as-written member keeps
    one defect and is otherwise built from the corrected parts, so that the
    lemma isolates that defect. */
module AsWritten {
  import opened Status
  import opened Bus
  import opened Alu
  import opened Cpu
  import opened Handlers

  // ---------------------------------------------------------------------
  // The flag accessor

  /** cpu_setFlag as written: it computes the new status byte in a local
      variable and never stores it, so the state comes back unchanged. */
  function SetFlagAsWritten(s: State, f: Flag, b: bool): (r: State)
    ensures r.status == s.status
    ensures r == s
  {
    var status := Assign(s.status, f, b);
    s
  }

  /** Raising a clear flag through the accessor as written leaves it clear,
      where the corrected accessor raises it. */
  lemma SetFlagAsWrittenLosesTheWrite(s: State, f: Flag)
    requires !Has(s.status, f)
    ensures GetFlag(SetFlagAsWritten(s, f, true), f) == 0
    ensures GetFlag(SetFlag(s, f, true), f) == 1
  {
  }

  // ---------------------------------------------------------------------
  // BCC

  /** BCC as written: it tests for the carry being SET, so it is BCS. */
  function BccAsWritten(s: State): (r: Step)
    ensures r == Bcs(s)
    ensures !Has(s.status, C) ==> r.state == s
  {
    Branch(s, GetFlag(s, C) == 1)
  }

  /** With the carry clear and a non-zero displacement, BCC as written
      falls through where BCC branches. */
  lemma BccAsWrittenIgnoresClearCarry(s: State)
    requires !Has(s.status, C) && s.addrRel != 0
    ensures BccAsWritten(s).state.pc == s.pc
    ensures Bcc(s).state.pc == s.pc + s.addrRel
    ensures Bcc(s).state.pc != s.pc
  {
    var t := Bcc(s).state;
    assert t.pc == s.pc + s.addrRel;
    DisplacementMoves(s.pc, s.addrRel);
  }

  /** Adding a non-zero displacement moves the program counter. */
  lemma DisplacementMoves(pc: bv16, rel: bv16)
    requires rel != 0
    ensures pc + rel != pc
  {
  }

  // ---------------------------------------------------------------------
  // EOR

  /** EOR as written: no cpu_fetch, so it uses whatever `fetched` holds. */
  function EorAsWritten(s: State): (r: Step)
    ensures r.state == s.(a := s.a ^ s.fetched, status := r.state.status)
    ensures SignZero(r.state.status, s.a ^ s.fetched)
    ensures r.extra
  {
    Step(s.(a := s.a ^ s.fetched, status := AssignNZ(s.status, s.a ^ s.fetched)), true)
  }

  /** When `fetched` is stale (it differs from the byte at the resolved
      address), EOR as written computes a different accumulator. */
  lemma EorAsWrittenUsesStaleOperand(s: State, mode: AddrMode)
    requires mode != Implied && s.fetched != s.mem(s.addrAbs)
    ensures EorAsWritten(s).state.a != Eor(s, mode).state.a
  {
    XorCancels(s.a, s.fetched, s.mem(s.addrAbs));
  }

  /** Exclusive or with a fixed byte is injective. */
  lemma XorCancels(a: bv8, p: bv8, q: bv8)
    requires p != q
    ensures a ^ p != a ^ q
  {
    assert (a ^ p) ^ a == p;
  }

  // ---------------------------------------------------------------------
  // JMP

  /** JMP as written: pc := fetched, a byte widened to 16 bits. */
  function JmpAsWritten(s: State, mode: AddrMode): (r: Step)
    ensures r.state == s.(fetched := Operand(s, mode), pc := r.state.pc)
    ensures Page(r.state.pc) == 0 && Lo(r.state.pc) == Operand(s, mode)
    ensures !r.extra
  {
    Step(Fetch(s, mode).(pc := Operand(s, mode) as bv16), false)
  }

  /** JMP as written can only reach page 0: a target on any other page is
      missed. */
  lemma JmpAsWrittenStaysOnPageZero(s: State, mode: AddrMode)
    requires Page(s.addrAbs) != 0
    ensures JmpAsWritten(s, mode).state.pc != Jmp(s, mode).state.pc
  {
  }

  // ---------------------------------------------------------------------
  // Stores

  /** STA, STX and STY as written: the register is copied into `fetched`
      and memory is never written. */
  function StoreAsWritten(s: State, v: bv8): (r: Step)
    ensures r.state == s.(fetched := v)
    ensures r.state.mem == s.mem
    ensures r.extra
  {
    Step(s.(fetched := v), true)
  }

  /** After STA as written, a load from the same address reads the old
      byte, not A; after the corrected STA it reads A. */
  lemma StoreAsWrittenIsNotLoaded(s: State, mode: AddrMode)
    requires mode != Implied && s.mem(s.addrAbs) != s.a
    ensures Lda(StoreAsWritten(s, s.a).state, mode).state.a == s.mem(s.addrAbs) != s.a
    ensures Lda(Sta(s).state, mode).state.a == s.a
  {
  }

  // ---------------------------------------------------------------------
  // Read-modify-write handlers: the result stays in `fetched`

  /** ASL as written: the doubled byte is left in `fetched` only. */
  function AslAsWritten(s: State, mode: AddrMode): (r: Step)
    ensures var m := Operand(s, mode);
      && r.state == s.(fetched := m * 2, status := r.state.status)
      && Has(r.state.status, C) == (m >= 0x80) && SignZero(r.state.status, m * 2)
    ensures !r.extra
  {
    SignBit(Operand(s, mode));
    ShiftLeftDoubles(Operand(s, mode));
    Step(s.(fetched := (Operand(s, mode) << 1) & 0xFE,
      status := AssignCNZ(s.status, Operand(s, mode) & 0x80 != 0, (Operand(s, mode) << 1) & 0xFE)), false)
  }

  /** LSR as written: the halved byte is left in `fetched` only. */
  function LsrAsWritten(s: State, mode: AddrMode): (r: Step)
    ensures var m := Operand(s, mode);
      && r.state == s.(fetched := m / 2, status := r.state.status)
      && Has(r.state.status, C) == (m % 2 == 1) && !Has(r.state.status, N)
      && Has(r.state.status, Z) == (m < 2)
    ensures !r.extra
  {
    ShiftRightHalves(Operand(s, mode));
    Step(s.(fetched := (Operand(s, mode) >> 1) & 0x7F,
      status := AssignNCZ(s.status, false, Operand(s, mode) & 0x01 != 0, (Operand(s, mode) >> 1) & 0x7F == 0x00)), false)
  }

  /** ROL as written: the rotated byte is left in `fetched` only. */
  function RolAsWritten(s: State, mode: AddrMode): (r: Step)
    ensures var m := Operand(s, mode);
      && r.state == s.(fetched := m * 2 + CarryIn(s), status := r.state.status)
      && Has(r.state.status, C) == (m >= 0x80) && SignZero(r.state.status, m * 2 + CarryIn(s))
    ensures !r.extra
  {
    SignBit(Operand(s, mode));
    RotateLeftBits(Operand(s, mode), CarryIn(s));
    Step(s.(fetched := ((Operand(s, mode) << 1) & 0xFE) | CarryIn(s),
      status := AssignCNZ(s.status, Operand(s, mode) & 0x80 != 0, ((Operand(s, mode) << 1) & 0xFE) | CarryIn(s))), false)
  }

  /** ROR as written: the old carry is or-ed into bit 0 instead of bit 7,
      and the result is left in `fetched` only. */
  function RorAsWritten(s: State, mode: AddrMode): (r: Step)
    ensures var m := Operand(s, mode);
      && r.state == s.(fetched := (m / 2) | CarryIn(s), status := r.state.status)
      && Has(r.state.status, C) == (m % 2 == 1) && SignZero(r.state.status, (m / 2) | CarryIn(s))
    ensures !r.extra
  {
    ShiftRightHalves(Operand(s, mode));
    Step(s.(fetched := ((Operand(s, mode) >> 1) & 0x7F) | CarryIn(s),
      status := AssignCNZ(s.status, Operand(s, mode) & 0x01 != 0, ((Operand(s, mode) >> 1) & 0x7F) | CarryIn(s))), false)
  }

  /** INC as written: the incremented byte is left in `fetched` only. */
  function IncAsWritten(s: State, mode: AddrMode): (r: Step)
    ensures r.state == s.(fetched := Operand(s, mode) + 1, status := r.state.status)
    ensures SignZero(r.state.status, Operand(s, mode) + 1)
    ensures !r.extra
  {
    Step(s.(fetched := (Operand(s, mode) + 1) & 0xFF, status := AssignNZ(s.status, (Operand(s, mode) + 1) & 0xFF)), false)
  }

  /** DEC as written: the decremented byte is left in `fetched` only. */
  function DecAsWritten(s: State, mode: AddrMode): (r: Step)
    ensures r.state == s.(fetched := Operand(s, mode) - 1, status := r.state.status)
    ensures SignZero(r.state.status, Operand(s, mode) - 1)
    ensures !r.extra
  {
    Step(s.(fetched := (Operand(s, mode) - 1) & 0xFF, status := AssignNZ(s.status, (Operand(s, mode) - 1) & 0xFF)), false)
  }

  /** On the accumulator holding 0x01 (implied mode), every read-modify-
      write handler as written leaves A at 0x01, while each corrected
      handler changes it. */
  lemma {:induction false} ModifyAsWrittenLeavesAccumulator(s: State)
    requires s.a == 0x01
    ensures var t := Imp(s).state;
      && AslAsWritten(t, Implied).state.a == 0x01 && Asl(t, Implied).state.a == 0x02
      && LsrAsWritten(t, Implied).state.a == 0x01 && Lsr(t, Implied).state.a == 0x00
      && RolAsWritten(t, Implied).state.a == 0x01 && Rol(t, Implied).state.a != 0x01
      && IncAsWritten(t, Implied).state.a == 0x01 && Inc(t, Implied).state.a == 0x02
      && DecAsWritten(t, Implied).state.a == 0x01 && Dec(t, Implied).state.a == 0x00
  {
    var t := Imp(s).state;
    StoredBackReadsBack(t, Implied, 0x02, Asl(t, Implied).state);
    StoredBackReadsBack(t, Implied, 0x00, Lsr(t, Implied).state);
    StoredBackReadsBack(t, Implied, 0x02 + CarryIn(t), Rol(t, Implied).state);
    StoredBackReadsBack(t, Implied, 0x02, Inc(t, Implied).state);
    StoredBackReadsBack(t, Implied, 0x00, Dec(t, Implied).state);
  }

  /** ROR of 0x00 with the carry set: as written the carry lands in bit 0
      (0x01, and A is not even updated); the 6502 puts it in bit 7 (0x80). */
  lemma {:induction false} RorAsWrittenRotatesIntoBitZero(s: State)
    requires s.a == 0x00 && Has(s.status, C)
    ensures RorAsWritten(Imp(s).state, Implied).state.fetched == 0x01
    ensures RorAsWritten(Imp(s).state, Implied).state.a == 0x00
    ensures Ror(Imp(s).state, Implied).state.a == 0x80
  {
    var t := Imp(s).state;
    StoredBackReadsBack(t, Implied, 0x80, Ror(t, Implied).state);
  }

  // ---------------------------------------------------------------------
  // ADC

  /** The flag tail of ADC as written: V, then N, then Z. */
  function AssignVNZ(status: bv8, o: bool, n: bool, z: bool): (r: bv8)
    ensures Has(r, V) == o && Has(r, N) == n && Has(r, Z) == z
    ensures AgreeOutside(status, r, Mask(V) | Mask(N) | Mask(Z))
  {
    Assign(Assign(Assign(status, V, o), N, n), Z, z)
  }

  /** ADC as written (marked unfinished in the source): the sum is
      computed but never stored in A, C is never set, V compares the sign
      of the old A with that of the sum, and N is the sign of the old A. */
  function AdcAsWritten(s: State, mode: AddrMode): (r: Step)
    ensures var m := Operand(s, mode);
      var res := s.a + m + CarryIn(s);
      && r.state == s.(fetched := m, status := r.state.status)
      && Has(r.state.status, V) == ((s.a >= 0x80) != (res >= 0x80))
      && Has(r.state.status, N) == (s.a >= 0x80)
      && Has(r.state.status, Z) == (res == 0)
      && AgreeOutside(s.status, r.state.status, Mask(V) | Mask(N) | Mask(Z))
    ensures r.extra
  {
    SignBit(s.a);
    SignBit(s.a + Operand(s, mode) + CarryIn(s));
    Step(Fetch(s, mode).(status := AssignVNZ(s.status,
      (s.a & 0x80) != ((s.a + Operand(s, mode) + CarryIn(s)) & 0x80),
      s.a & 0x80 != 0,
      s.a + Operand(s, mode) + CarryIn(s) == 0x00)), true)
  }

  /** 0x50 + 0x50 with the carry clear: as written A stays 0x50 and N is
      clear; the corrected ADC leaves 0xA0 with N and V set and C clear. */
  lemma {:induction false} AdcAsWrittenDropsTheSum(s: State, mode: AddrMode)
    requires s.a == 0x50 && Operand(s, mode) == 0x50 && !Has(s.status, C)
    ensures var t := AdcAsWritten(s, mode).state;
      t.a == 0x50 && !Has(t.status, N) && Has(t.status, V)
    ensures var t := Adc(s, mode).state;
      t.a == 0xA0 && Has(t.status, N) && Has(t.status, V) && !Has(t.status, C)
  {
    assert CarryIn(s) == 0;
  }

  /** 0xFF + 0x01 with the carry clear: as written the carry stays clear;
      the corrected ADC sets it and leaves 0x00 with Z set. */
  lemma {:induction false} AdcAsWrittenLosesTheCarry(s: State, mode: AddrMode)
    requires s.a == 0xFF && Operand(s, mode) == 0x01 && !Has(s.status, C)
    ensures !Has(AdcAsWritten(s, mode).state.status, C)
    ensures var t := Adc(s, mode).state;
      t.a == 0x00 && Has(t.status, C) && Has(t.status, Z)
  {
    assert CarryIn(s) == 0;
    MaskIsOneBit(C);
    AgreeOutsideFlags(s.status, AdcAsWritten(s, mode).state.status, Mask(V) | Mask(N) | Mask(Z), C);
  }
}
