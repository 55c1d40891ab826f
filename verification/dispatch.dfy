/** The opcode dispatch and the clock driver (cpu_clock, cpu.c lines 24-44).
    The 256-entry lookup table and the eleven addressing-mode resolvers other
    than IMP are not part of this model: the table is a parameter mapping each
    opcode byte to an entry, and the resolvers are a parameter that computes
    the program counter and scratch addresses from the state. */
module Dispatch {
  import opened Status
  import opened Cpu
  import opened Handlers
  import opened Timing

  /** The operation mnemonics of cpu.c; `XXX` is the illegal-opcode sink. */
  datatype Op =
    | ADC | AND | ASL | BCC | BCS | CLC | CLD | CLI | CLV | CMP | CPX | CPY
    | DEC | DEX | DEY | EOR | INC | INX | INY | JMP | JSR | LDA | LDX | LDY
    | LSR | NOP | ORA | ROL | ROR | SEC | SED | SEI | STA | STX | STY | TAX
    | TAY | TSX | TXA | TXS | TYA | XXX

  /** A base cycle count of a table entry. */
  type BaseCycles = n: nat | 1 <= n <= 7 witness 1

  /** One row of the opcode table: addressing mode, operation, base cycles. */
  datatype Entry = Entry(mode: AddrMode, op: Op, cycles: BaseCycles)

  /** The opcode table: total over all 256 opcode bytes. */
  type Table = bv8 -> Entry

  /** What an addressing-mode resolver computes: the program counter after
      its operand bytes, the scratch addresses, and whether it asks for an
      extra cycle. */
  datatype Resolved = Resolved(pc: bv16, addrAbs: bv16, addrRel: bv16, extra: bool)

  /** The addressing-mode resolvers other than IMP, which read the state
      (memory and registers) and produce a `Resolved`. */
  type Resolver = (AddrMode, State) -> Resolved

  /** Runs the addressing mode of the current instruction: IMP for the
      implied mode, the supplied resolver for every other mode. */
  function Resolve(mode: AddrMode, s: State, ext: Resolver): (r: Step)
    ensures mode == Implied ==> r == Imp(s)
    ensures mode != Implied ==>
      && r.state == s.(pc := ext(mode, s).pc, addrAbs := ext(mode, s).addrAbs,
                       addrRel := ext(mode, s).addrRel)
      && r.extra == ext(mode, s).extra
  {
    if mode == Implied then Imp(s)
    else
      Step(s.(pc := ext(mode, s).pc, addrAbs := ext(mode, s).addrAbs,
              addrRel := ext(mode, s).addrRel), ext(mode, s).extra)
  }

  /** The operations whose handler asks for the extra cycle (returns 1). */
  predicate OpExtra(op: Op)
  {
    op in {ADC, AND, CMP, EOR, LDA, LDX, LDY, ORA, STA, STX, STY}
  }

  /** The cycles a handler itself adds: only a taken branch adds any. */
  function BranchCycles(op: Op, s: State): nat
  {
    match op
    case BCC => if Has(s.status, C) then 0 else TakenCost(s)
    case BCS => if Has(s.status, C) then TakenCost(s) else 0
    case _ => 0
  }

  /** The operations that may set the program counter. */
  predicate Jumps(op: Op)
  {
    op in {BCC, BCS, JMP, JSR}
  }

  /** The handler families, by what the handler touches. */
  datatype Family =
    | Arithmetic | Compare | Load | Store | Shift | Count | Index | Transfer | ClearFlag | SetsFlag | Branches | Jump | Idle

  /** The family of each operation. */
  function FamilyOf(op: Op): Family
  {
    match op
    case ADC | AND | EOR | ORA => Arithmetic
    case CMP | CPX | CPY => Compare
    case LDA | LDX | LDY => Load
    case STA | STX | STY => Store
    case ASL | LSR | ROL | ROR => Shift
    case DEC | INC => Count
    case DEX | DEY | INX | INY => Index
    case TAX | TAY | TSX | TXA | TXS | TYA => Transfer
    case CLC | CLD | CLI | CLV => ClearFlag
    case SEC | SED | SEI => SetsFlag
    case BCC | BCS => Branches
    case JMP | JSR => Jump
    case NOP | XXX => Idle
  }

  /** What dispatching `op` on `s` promises of the handler's step `r`: the
      extra-cycle request is the operation's, only a taken branch adds
      cycles, the opcode is kept, and only branches and jumps move pc. */
  predicate Dispatched(op: Op, s: State, r: Step)
  {
    && r.extra == OpExtra(op)
    && r.state.cycles == s.cycles + BranchCycles(op, s)
    && r.state.opcode == s.opcode
    && (!Jumps(op) ==> r.state.pc == s.pc)
  }

  /** The operations whose handler writes no memory: all but the stores,
      the read-modify-write handlers and JSR. */
  predicate KeepsMemory(op: Op)
  {
    FamilyOf(op) in {Arithmetic, Compare, Load, Index, Transfer, ClearFlag, SetsFlag, Branches, Idle}
      || op == JMP
  }

  /** Calls the handler of `op` on the resolved state. */
  function Operate(op: Op, s: State, mode: AddrMode): (r: Step)
    ensures Dispatched(op, s, r)
    ensures KeepsMemory(op) ==> r.state.mem == s.mem
  {
    match FamilyOf(op)
    case Arithmetic => OperateArithmetic(op, s, mode)
    case Compare => OperateCompare(op, s, mode)
    case Load => OperateLoad(op, s, mode)
    case Store => OperateStore(op, s, mode)
    case Shift => OperateShift(op, s, mode)
    case Count => OperateCount(op, s, mode)
    case Index => OperateIndex(op, s, mode)
    case Transfer => OperateTransfer(op, s, mode)
    case ClearFlag => OperateClearFlag(op, s, mode)
    case SetsFlag => OperateSetFlag(op, s, mode)
    case Branches => OperateBranch(op, s, mode)
    case Jump => OperateJump(op, s, mode)
    case Idle => OperateIdle(op, s, mode)
  }

  /** The handlers of the accumulator arithmetic and logic. */
  function OperateArithmetic(op: Op, s: State, mode: AddrMode): (r: Step)
    requires FamilyOf(op) == Arithmetic
    ensures Dispatched(op, s, r)
    ensures r.state.mem == s.mem
  {
    match op
    case ADC => Adc(s, mode)
    case AND => And(s, mode)
    case EOR => Eor(s, mode)
    case ORA => Ora(s, mode)
  }

  /** The handlers of the compares. */
  function OperateCompare(op: Op, s: State, mode: AddrMode): (r: Step)
    requires FamilyOf(op) == Compare
    ensures Dispatched(op, s, r)
    ensures r.state.mem == s.mem
  {
    match op
    case CMP => Cmp(s, mode)
    case CPX => Cpx(s, mode)
    case CPY => Cpy(s, mode)
  }

  /** The handlers of the loads. */
  function OperateLoad(op: Op, s: State, mode: AddrMode): (r: Step)
    requires FamilyOf(op) == Load
    ensures Dispatched(op, s, r)
    ensures r.state.mem == s.mem
  {
    match op
    case LDA => Lda(s, mode)
    case LDX => Ldx(s, mode)
    case LDY => Ldy(s, mode)
  }

  /** The handlers of the stores. */
  function OperateStore(op: Op, s: State, mode: AddrMode): (r: Step)
    requires FamilyOf(op) == Store
    ensures Dispatched(op, s, r)
  {
    match op
    case STA => Sta(s)
    case STX => Stx(s)
    case STY => Sty(s)
  }

  /** The handlers of the read-modify-write shifts and rotates. */
  function OperateShift(op: Op, s: State, mode: AddrMode): (r: Step)
    requires FamilyOf(op) == Shift
    ensures Dispatched(op, s, r)
    ensures forall b :: b != s.addrAbs ==> r.state.mem(b) == s.mem(b)
    ensures mode == Implied ==> r.state.mem == s.mem
  {
    match op
    case ASL =>
      var r := Asl(s, mode);
      StoredBackKeepsControl(s, mode, Operand(s, mode) * 2, r.state);
      StoredBackWritesOnlyOperand(s, mode, Operand(s, mode) * 2, r.state);
      r
    case LSR =>
      var r := Lsr(s, mode);
      StoredBackKeepsControl(s, mode, Operand(s, mode) / 2, r.state);
      StoredBackWritesOnlyOperand(s, mode, Operand(s, mode) / 2, r.state);
      r
    case ROL =>
      var r := Rol(s, mode);
      StoredBackKeepsControl(s, mode, Operand(s, mode) * 2 + CarryIn(s), r.state);
      StoredBackWritesOnlyOperand(s, mode, Operand(s, mode) * 2 + CarryIn(s), r.state);
      r
    case ROR =>
      var r := Ror(s, mode);
      StoredBackKeepsControl(s, mode, Operand(s, mode) / 2 + CarryIn(s) * 0x80, r.state);
      StoredBackWritesOnlyOperand(s, mode, Operand(s, mode) / 2 + CarryIn(s) * 0x80, r.state);
      r
  }

  /** The handlers of the read-modify-write increment and decrement. */
  function OperateCount(op: Op, s: State, mode: AddrMode): (r: Step)
    requires FamilyOf(op) == Count
    ensures Dispatched(op, s, r)
    ensures forall b :: b != s.addrAbs ==> r.state.mem(b) == s.mem(b)
    ensures mode == Implied ==> r.state.mem == s.mem
  {
    match op
    case DEC =>
      var r := Dec(s, mode);
      StoredBackKeepsControl(s, mode, Operand(s, mode) - 1, r.state);
      StoredBackWritesOnlyOperand(s, mode, Operand(s, mode) - 1, r.state);
      r
    case INC =>
      var r := Inc(s, mode);
      StoredBackKeepsControl(s, mode, Operand(s, mode) + 1, r.state);
      StoredBackWritesOnlyOperand(s, mode, Operand(s, mode) + 1, r.state);
      r
  }

  /** The handlers of the index register increments and decrements. */
  function OperateIndex(op: Op, s: State, mode: AddrMode): (r: Step)
    requires FamilyOf(op) == Index
    ensures Dispatched(op, s, r)
    ensures r.state.mem == s.mem
  {
    match op
    case DEX => Dex(s)
    case DEY => Dey(s)
    case INX => Inx(s)
    case INY => Iny(s)
  }

  /** The handlers of the register transfers. */
  function OperateTransfer(op: Op, s: State, mode: AddrMode): (r: Step)
    requires FamilyOf(op) == Transfer
    ensures Dispatched(op, s, r)
    ensures r.state.mem == s.mem
  {
    match op
    case TAX => Tax(s)
    case TAY => Tay(s)
    case TSX => Tsx(s)
    case TXA => Txa(s)
    case TXS => Txs(s)
    case TYA => Tya(s)
  }

  /** The handlers of the flag clears. */
  function OperateClearFlag(op: Op, s: State, mode: AddrMode): (r: Step)
    requires FamilyOf(op) == ClearFlag
    ensures Dispatched(op, s, r)
    ensures r.state.mem == s.mem
  {
    match op
    case CLC => Clc(s)
    case CLD => Cld(s)
    case CLI => Cli(s)
    case CLV => Clv(s)
  }

  /** The handlers of the flag sets. */
  function OperateSetFlag(op: Op, s: State, mode: AddrMode): (r: Step)
    requires FamilyOf(op) == SetsFlag
    ensures Dispatched(op, s, r)
    ensures r.state.mem == s.mem
  {
    match op
    case SEC => Sec(s)
    case SED => Sed(s)
    case SEI => Sei(s)
  }

  /** The handlers of the branches. */
  function OperateBranch(op: Op, s: State, mode: AddrMode): (r: Step)
    requires FamilyOf(op) == Branches
    ensures Dispatched(op, s, r)
    ensures r.state.mem == s.mem
  {
    match op
    case BCC => Bcc(s)
    case BCS => Bcs(s)
  }

  /** The handlers of the jumps. */
  function OperateJump(op: Op, s: State, mode: AddrMode): (r: Step)
    requires FamilyOf(op) == Jump
    ensures Dispatched(op, s, r)
    ensures op == JMP ==> r.state.mem == s.mem
  {
    match op
    case JMP => Jmp(s, mode)
    case JSR => Jsr(s)
  }

  /** The handlers of the no-operations. */
  function OperateIdle(op: Op, s: State, mode: AddrMode): (r: Step)
    requires FamilyOf(op) == Idle
    ensures Dispatched(op, s, r)
    ensures r.state.mem == s.mem
  {
    match op
    case NOP => Nop(s)
    case XXX => Xxx(s)
  }

  // ---------------------------------------------------------------------
  // Memory frames of the dispatch

  /** A store writes the byte at `addrAbs` and no other. */
  lemma StoreWritesOnlyTarget(op: Op, s: State, mode: AddrMode)
    requires FamilyOf(op) == Store
    ensures var t := Operate(op, s, mode).state;
      forall b :: b != s.addrAbs ==> t.mem(b) == s.mem(b)
  {
  }

  /** A shift or rotate writes at most the byte at `addrAbs`, and in the
      implied mode it writes no memory at all. */
  lemma ShiftWritesOnlyOperand(op: Op, s: State, mode: AddrMode)
    requires FamilyOf(op) == Shift
    ensures var t := Operate(op, s, mode).state;
      && (forall b :: b != s.addrAbs ==> t.mem(b) == s.mem(b))
      && (mode == Implied ==> t.mem == s.mem)
  {
    assert Operate(op, s, mode) == OperateShift(op, s, mode);
  }

  /** An increment or decrement writes at most the byte at `addrAbs`, and
      in the implied mode it writes no memory at all. */
  lemma CountWritesOnlyOperand(op: Op, s: State, mode: AddrMode)
    requires FamilyOf(op) == Count
    ensures var t := Operate(op, s, mode).state;
      && (forall b :: b != s.addrAbs ==> t.mem(b) == s.mem(b))
      && (mode == Implied ==> t.mem == s.mem)
  {
    assert Operate(op, s, mode) == OperateCount(op, s, mode);
  }

  /** The state after the opcode read of a fetch pulse: the opcode byte at
      pc, pc advanced past it, and the base cycles of its table entry. */
  function Decode(s: State, table: Table): State
  {
    s.(opcode := s.mem(s.pc), pc := s.pc + 1, cycles := table(s.mem(s.pc)).cycles)
  }

  /** The total number of pulses the instruction at pc costs: the base
      cycles, one more when both the addressing mode and the operation ask
      for it, and the cycles a taken branch adds. */
  function Cost(s: State, table: Table, ext: Resolver): nat
  {
    table(s.mem(s.pc)).cycles
    + (if Resolve(table(s.mem(s.pc)).mode, Decode(s, table), ext).extra
          && OpExtra(table(s.mem(s.pc)).op) then 1 else 0)
    + BranchCycles(table(s.mem(s.pc)).op,
                   Resolve(table(s.mem(s.pc)).mode, Decode(s, table), ext).state)
  }

  /** The pulse that starts an instruction: it reads the opcode at pc,
      advances pc, runs the addressing mode and the handler, and leaves the
      instruction's remaining cycles owed. */
  function Execute(s: State, table: Table, ext: Resolver): (r: State)
    ensures r.opcode == s.mem(s.pc)
    ensures r.cycles + 1 == Cost(s, table, ext)
    ensures var e := table(s.mem(s.pc));
      e.mode == Implied && !Jumps(e.op) ==> r.pc == s.pc + 1
    ensures var e := table(s.mem(s.pc));
      e.mode != Implied && !Jumps(e.op) ==> r.pc == ext(e.mode, Decode(s, table)).pc
  {
    var e := table(s.mem(s.pc));
    var resolved := Resolve(e.mode, Decode(s, table), ext);
    var operated := Operate(e.op, resolved.state, e.mode);
    var extra: nat := if resolved.extra && operated.extra then 1 else 0;
    operated.state.(cycles := operated.state.cycles + extra - 1)
  }

  /** The implied mode never asks for the extra cycle, and neither does an
      operation outside `OpExtra`: then an instruction costs its base cycles
      plus what a taken branch adds. */
  lemma ExtraCycleNeedsBoth(s: State, table: Table, ext: Resolver)
    ensures var e := table(s.mem(s.pc));
      e.mode == Implied || !OpExtra(e.op) ==>
        Cost(s, table, ext)
          == e.cycles + BranchCycles(e.op, Resolve(e.mode, Decode(s, table), ext).state)
    ensures var e := table(s.mem(s.pc));
      e.mode != Implied && OpExtra(e.op) ==>
        Cost(s, table, ext) == e.cycles + (if ext(e.mode, Decode(s, table)).extra then 1 else 0)
  {
  }

  /** One clock pulse (cpu_clock): with no cycles owed it starts the next
      instruction; otherwise it only pays one owed cycle. */
  function Clock(s: State, table: Table, ext: Resolver): (r: State)
    ensures s.cycles > 0 ==> r == s.(cycles := s.cycles - 1)
    ensures s.cycles == 0 ==> r.opcode == s.mem(s.pc) && r.cycles + 1 == Cost(s, table, ext)
  {
    if s.cycles == 0 then Execute(s, table, ext) else s.(cycles := s.cycles - 1)
  }

  /** The clock as a pulse function, for a fixed table and resolver. */
  function Pulse(table: Table, ext: Resolver): State -> State
  {
    t => Clock(t, table, ext)
  }

  /** `n` successive clock pulses. */
  function Run(s: State, table: Table, ext: Resolver, n: nat): State
  {
    Pulses(Pulse(table, ext), s, n)
  }

  /** The clock pays owed cycles and does nothing else. */
  lemma ClockCountsDown(table: Table, ext: Resolver)
    ensures CountsDown(Pulse(table, ext))
  {
  }

  /** An instruction started at an instruction boundary keeps the clock
      busy for exactly `Cost` pulses: its effects all happen on the first
      one, the cycles owed then fall by one per pulse, and they reach 0 on
      pulse `Cost` and no earlier, so the next opcode is read on the pulse
      after. */
  lemma InstructionTakesCostPulses(s: State, table: Table, ext: Resolver)
    requires s.cycles == 0
    ensures forall k :: 0 < k <= Cost(s, table, ext) ==>
      Run(s, table, ext, k) == Execute(s, table, ext).(cycles := Cost(s, table, ext) - k)
  {
    ClockCountsDown(table, ext);
    CountsDownAfterStart(Pulse(table, ext), s, Cost(s, table, ext));
  }

  // ---------------------------------------------------------------------
  // End to end: the first pulse applies the table's handler

  /** The resolved state a pulse at an instruction boundary hands to the
      handler. */
  function HandedOver(s: State, table: Table, ext: Resolver): State
  {
    Resolve(table(s.mem(s.pc)).mode, Decode(s, table), ext).state
  }

  /** The first pulse of an instruction applies the handler the table names
      for the opcode at pc, to the state its addressing mode resolved; only
      the cycle count then differs from the handler's result. */
  lemma ExecuteRunsHandler(s: State, table: Table, ext: Resolver)
    ensures var e := table(s.mem(s.pc));
      Execute(s, table, ext)
        == Operate(e.op, HandedOver(s, table, ext), e.mode).state.(cycles := Execute(s, table, ext).cycles)
  {
  }

  /** The table's LDA, STA and TAX dispatch to their handlers. */
  lemma DispatchesLda(s: State, mode: AddrMode)
    ensures Operate(LDA, s, mode) == Lda(s, mode)
  {
    assert FamilyOf(LDA) == Load;
    assert Operate(LDA, s, mode) == OperateLoad(LDA, s, mode);
  }

  lemma DispatchesSta(s: State, mode: AddrMode)
    ensures Operate(STA, s, mode) == Sta(s)
  {
    assert FamilyOf(STA) == Store;
    assert Operate(STA, s, mode) == OperateStore(STA, s, mode);
  }

  lemma DispatchesTax(s: State, mode: AddrMode)
    ensures Operate(TAX, s, mode) == Tax(s)
  {
    assert FamilyOf(TAX) == Transfer;
    assert Operate(TAX, s, mode) == OperateTransfer(TAX, s, mode);
  }

  /** An LDA in a memory mode loads A with the byte at the address its
      addressing mode resolved, and sets N and Z from it. */
  lemma ClockLoadsAccumulator(s: State, table: Table, ext: Resolver)
    requires s.cycles == 0
    requires table(s.mem(s.pc)).op == LDA && table(s.mem(s.pc)).mode != Implied
    ensures var t := HandedOver(s, table, ext);
      Clock(s, table, ext).a == t.mem(t.addrAbs)
      && SignZero(Clock(s, table, ext).status, t.mem(t.addrAbs))
  {
    ExecuteRunsHandler(s, table, ext);
    var t := HandedOver(s, table, ext);
    DispatchesLda(t, table(s.mem(s.pc)).mode);
    var r := Clock(s, table, ext);
    assert r == Execute(s, table, ext);
    assert r == Lda(t, table(s.mem(s.pc)).mode).state.(cycles := r.cycles);
  }

  /** An STA writes A, as it was before the pulse, to the address its
      addressing mode resolved, and changes no register. */
  lemma ClockStoresAccumulator(s: State, table: Table, ext: Resolver)
    requires s.cycles == 0
    requires table(s.mem(s.pc)).op == STA
    ensures var t := HandedOver(s, table, ext);
      && Clock(s, table, ext).mem(t.addrAbs) == s.a
      && Clock(s, table, ext).a == s.a && Clock(s, table, ext).x == s.x
      && Clock(s, table, ext).y == s.y && Clock(s, table, ext).status == s.status
  {
    ExecuteRunsHandler(s, table, ext);
    var t := HandedOver(s, table, ext);
    DispatchesSta(t, table(s.mem(s.pc)).mode);
    var r := Clock(s, table, ext);
    assert r == Execute(s, table, ext);
    assert r == Sta(t).state.(cycles := r.cycles);
  }

  /** An implied-mode TAX copies A into X and leaves pc just past the
      opcode. */
  lemma ClockTransfersAccumulator(s: State, table: Table, ext: Resolver)
    requires s.cycles == 0
    requires table(s.mem(s.pc)).op == TAX && table(s.mem(s.pc)).mode == Implied
    ensures Clock(s, table, ext).x == s.a && Clock(s, table, ext).a == s.a
    ensures Clock(s, table, ext).pc == s.pc + 1 && Clock(s, table, ext).mem == s.mem
  {
    ExecuteRunsHandler(s, table, ext);
    var t := HandedOver(s, table, ext);
    DispatchesTax(t, Implied);
    var r := Clock(s, table, ext);
    assert r == Execute(s, table, ext);
    assert r == Tax(t).state.(cycles := r.cycles);
  }
}
