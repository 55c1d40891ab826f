/** The register file of the processor, the flag accessor, the operand fetch
    and the implied addressing mode (cpu.c lines 24-98). */
module Cpu {
  import opened Status
  import opened Bus

  /** The twelve 6502 addressing modes. Only `Implied` is defined in this
      model; the others are resolved by a caller-supplied resolver. */
  datatype AddrMode =
    | Implied | Immediate | ZeroPage | ZeroPageX | ZeroPageY | Relative
    | Absolute | AbsoluteX | AbsoluteY | Indirect | IndexedIndirect | IndirectIndexed

  /** The processor state: the registers, the per-instruction scratch
      (`opcode`, `fetched`, `addrAbs`, `addrRel`), the cycles still owed by
      the current instruction, and the memory behind the bus. */
  datatype State = State(
    a: bv8, x: bv8, y: bv8, stkp: bv8, status: bv8, opcode: bv8, fetched: bv8,
    pc: bv16, addrAbs: bv16, addrRel: bv16,
    cycles: nat,
    mem: Memory)

  /** What a handler or a resolver returns: the new state, and whether it
      asks for one extra cycle. */
  datatype Step = Step(state: State, extra: bool)

  /** Reads flag `f` as the byte 0 or 1 (cpu_getFlag). */
  function GetFlag(s: State, f: Flag): (r: bv8)
    ensures r == 0 || r == 1
    ensures r == 1 <==> Has(s.status, f)
  {
    Bit(s.status, f)
  }

  /** Raises or clears flag `f`, writing the new status back into the state
      (cpu_setFlag). */
  function SetFlag(s: State, f: Flag, b: bool): (r: State)
    ensures r == s.(status := r.status)
    ensures Has(r.status, f) == b
    ensures GetFlag(r, f) == if b then 1 else 0
    ensures AgreeOutside(s.status, r.status, Mask(f))
  {
    s.(status := Assign(s.status, f, b))
  }

  /** Setting one flag leaves every other flag as it was. */
  lemma SetFlagKeepsOtherFlags(s: State, f: Flag, b: bool, g: Flag)
    requires g != f
    ensures GetFlag(SetFlag(s, f, b), g) == GetFlag(s, g)
  {
    MaskIsOneBit(f);
    AgreeOutsideFlags(s.status, SetFlag(s, f, b).status, Mask(f), g);
  }

  /** Setting a flag twice is setting it once with the second value: the
      accessor writes the whole status byte and keeps nothing of the first
      write. */
  lemma {:induction false} SetFlagLastWins(s: State, f: Flag, b: bool, b2: bool)
    ensures SetFlag(SetFlag(s, f, b), f, b2) == SetFlag(s, f, b2)
  {
    var t1 := SetFlag(SetFlag(s, f, b), f, b2);
    var t2 := SetFlag(s, f, b2);
    forall g
      ensures Has(t1.status, g) == Has(t2.status, g)
    {
      if g != f {
        SetFlagKeepsOtherFlags(SetFlag(s, f, b), f, b2, g);
        SetFlagKeepsOtherFlags(s, f, b, g);
        SetFlagKeepsOtherFlags(s, f, b2, g);
      }
    }
    FlagsDetermineStatus(t1.status, t2.status);
  }

  /** The operand a handler works on once it has fetched: the byte at
      `addrAbs`, or for the implied mode the accumulator copy already held
      in `fetched`. */
  function Operand(s: State, mode: AddrMode): bv8
  {
    if mode == Implied then s.fetched else s.mem(s.addrAbs)
  }

  /** Loads `fetched` from `addrAbs` unless the current mode is implied
      (cpu_fetch); `mode` is the table's mode for the current opcode. In the
      implied mode `Operand` is `fetched` itself, so nothing changes. */
  function Fetch(s: State, mode: AddrMode): (r: State)
    ensures mode == Implied ==> r == s
    ensures mode != Implied ==> r == s.(fetched := s.mem(s.addrAbs))
  {
    s.(fetched := Operand(s, mode))
  }

  /** The implied addressing mode: the operand is the accumulator, no
      operand bytes are consumed and no extra cycle is requested. */
  function Imp(s: State): (r: Step)
    ensures r.state == s.(fetched := s.a)
    ensures !r.extra
  {
    Step(s.(fetched := s.a), false)
  }

  /** After the implied resolver, the operand every handler sees is the
      accumulator. */
  lemma ImpliedOperandIsAccumulator(s: State)
    ensures Operand(Imp(s).state, Implied) == s.a
    ensures Fetch(Imp(s).state, Implied).fetched == s.a
  {
  }
}
