# 6502 instruction core of the NES emulator, in Dafny

This project models the processor core of an NES emulator (`cpu.c`), which
implements part of the MOS 6502 instruction set. The model covers:

- the register file and the status register with its eight flags;
- the flag accessors `cpu_getFlag` and `cpu_setFlag`;
- the operand fetch `cpu_fetch` and the implied addressing mode `IMP`;
- every operation handler in the file (ADC through TYA, plus the
  illegal-opcode sink XXX);
- the clock driver `cpu_clock`. It reads the opcode, looks up the table
  entry, runs the addressing mode and then the handler, and adds one extra
  cycle only when both of them ask for it. After that it counts the
  instruction's cycles down, one per pulse.

Modules, in dependency order:

- `Status`: flags, masks, and the byte-level flag assignments the handlers
  share.
- `Bus`: memory as a total map from 16-bit addresses to bytes, words, pages
  and the stack page.
- `Alu`: what the bit manipulations of the handlers compute, as arithmetic
  modulo 256.
- `Cpu`: the processor state, `GetFlag`, `SetFlag`, `Fetch` and `Imp`.
- `Handlers`: one function per mnemonic. Each returns the new state and
  whether it asks for the extra cycle.
- `Timing`: what repeated pulses do to the cycles owed, for any pulse that
  only counts down while cycles are owed.
- `Dispatch`: the opcode table entry, the resolver for the other addressing
  modes, the dispatch to handlers, one clock pulse, and runs of pulses.
- `Properties`: lemmas that relate several handlers. They cover round trips
  through memory and registers, inverse pairs, flag instructions and the
  JSR stack image.
- `AsWritten`: the handlers whose code does not do what their comments and
  the 6502 say. Each as-written member keeps only its own defect and is
  otherwise built from the corrected parts. In particular, the as-written
  handlers set flags through the corrected `cpu_setFlag`. As written, that
  accessor stores no flag at all, a defect modelled on its own by
  `AsWritten.SetFlagAsWritten`. Each member comes with a lemma that
  exhibits an input on which it differs from the corrected handler.
  Everything else in the project uses the corrected handlers (see
  "## Findings").

Every register is a bit-vector of the source's width: `bv8` for A, X, Y, the
stack pointer, the status byte, the opcode and `fetched`, and `bv16` for
the program counter and the scratch addresses. So every wrap-around in the
source (INX at 0xFF, a branch past 0xFFFF, the stack pointer below 0) is
the bit-vector's own arithmetic.

## Model

| member | source | states |
|---|---|---|
| Status.Bit | cpu.c:47-57 | flag `f` of a status byte read as the number 0 or 1, and it is 1 exactly when the flag's bit is raised |
| Status.Assign | cpu.c:63-73 | the status with flag `f` raised when `set` holds and cleared otherwise; every other bit of the byte is kept |
| Status.AssignNZ | cpu.c:143-145 | the N/Z tail that every value-producing handler shares: N is the value's sign bit, Z says whether it is zero, and no other flag changes |
| Status.AssignCNZ | cpu.c:158-163 | the C/N/Z tail of the shifts and rotates: C as given, N and Z from the result, and no other flag changes |
| Status.AssignNCZ | cpu.c:264-268 | N, C and Z set to the given values and nothing else changed, as the compares and LSR do |
| Status.AssignCVNZ | cpu.c:119-133 | the ADC flag tail: C and V as given, N and Z from the sum, and no other flag changes |
| Status.AgreeOutsideFlags | cpu.c:63-73 | a flag whose bit lies outside the written mask keeps its value |
| Status.MaskIsOneBit | cpu.c:47-57 | each flag occupies exactly one bit, and no two flags share a bit |
| Status.FlagsDetermineStatus | cpu.c:47-57 | two status bytes that agree on all eight flags are equal |
| Bus.Write | cpu.c:13-17 | a write changes the byte at its address and no other byte |
| Bus.Word | cpu.c:428-439 | the word built from two bytes has them as its high and low byte |
| Bus.StackAddr | cpu.c:431-433 | stack offset `sp` names an address on page 0x01 whose low byte is `sp` |
| Bus.WordSplit | cpu.c:429-433 | splitting a word into its high and low byte and joining them again gives the word back |
| Bus.StackAddrInjective | cpu.c:431-433 | two stack offsets name the same address only when they are equal, so JSR's two pushes never overlap |
| Bus.PageMask | cpu.c:180 | two addresses have the same high byte exactly when they lie on the same page |
| Alu.SignBit | cpu.c:144 | testing bit 7 of a byte is testing that it is at least 0x80 |
| Alu.ShiftLeftDoubles | cpu.c:160 | shifting left and masking bit 0 doubles the byte modulo 256 |
| Alu.ShiftRightHalves | cpu.c:499-501 | shifting right and masking bit 7 halves the byte; bit 0 is its parity; the half is zero only for 0 and 1 |
| Alu.RotateLeftBits | cpu.c:545-546 | or-ing a carry of 0 or 1 into the doubled byte adds the carry |
| Alu.RotateRightBits | cpu.c:565-566 | or-ing the carry into bit 7 of the halved byte adds 0x80 times the carry |
| Alu.AddCarry | cpu.c:123 | the 16-bit test "sum exceeds 0xFF" is the byte-level carry predicate `Carries` |
| Alu.AddSigned | cpu.c:125 | the 6502 overflow formula is true exactly when both addends share a sign that the sum does not |
| Alu.CarryIsNinthBit | cpu.c:123 | the 16-bit sum of A, the operand and the carry is 0x100 times `Carries` plus the 8-bit sum |
| Alu.LowByteOfSum | cpu.c:123 | truncating the 16-bit sum to a byte gives the 8-bit sum |
| Cpu.GetFlag | cpu.c:47-57 | the flag read is 0 or 1, and it is 1 exactly when the flag is raised |
| Cpu.SetFlag | cpu.c:63-73 | afterwards flag `f` reads as `set`; only the status changes, and within it only the bit of `f` |
| Cpu.SetFlagKeepsOtherFlags | cpu.c:63-73 | setting one flag leaves every other flag reading as before |
| Cpu.SetFlagLastWins | cpu.c:63-73 | two writes of the same flag equal the second write alone |
| Cpu.Fetch | cpu.c:75-81 | outside the implied mode `fetched` becomes the byte at `addr_abs` and nothing else changes; in the implied mode nothing changes |
| Cpu.Imp | cpu.c:93-98 | the implied mode copies A into `fetched`, changes nothing else and asks for no extra cycle |
| Cpu.ImpliedOperandIsAccumulator | cpu.c:75-98 | after IMP, the operand a handler fetches is the accumulator |
| Handlers.WriteBack | cpu.c:154-166 | a read-modify-write result goes to A in the implied mode and to the byte at `addr_abs` otherwise, with the new status |
| Handlers.StoredBackKeepsControl | cpu.c:154-166 | a written-back result leaves the program counter, the opcode and the cycle count alone |
| Handlers.StoredBackWritesOnlyOperand | cpu.c:154-166 | a write-back changes no byte other than the one at `addr_abs`, and in the implied mode no memory at all |
| Handlers.StoredBackReadsBack | cpu.c:154-166 | after a write-back the next fetch from the same operand reads the result; in memory mode A is untouched |
| Handlers.Adc | cpu.c:119-133 | A becomes A + M + C modulo 256; C is the carry out; V is signed overflow; N and Z come from the sum; the extra cycle is requested |
| Handlers.And | cpu.c:140-147 | A becomes A & M; N and Z describe it; no other flag changes; the extra cycle is requested |
| Handlers.Ora | cpu.c:523-533 | A becomes A or M (bitwise); N and Z describe it; no other flag changes; the extra cycle is requested |
| Handlers.Eor | cpu.c:356-364 | A becomes A ^ M of the fetched operand; N and Z describe it; the extra cycle is requested |
| Handlers.Asl | cpu.c:154-166 | the operand doubled modulo 256 is written back; C is the old bit 7; N and Z come from the result |
| Handlers.Lsr | cpu.c:494-506 | the operand halved is written back; C is the old bit 0; N is cleared; Z is set exactly when the operand was 0 or 1 |
| Handlers.Rol | cpu.c:540-553 | the operand doubled plus the old carry is written back; C is the old bit 7; N and Z come from the result |
| Handlers.Ror | cpu.c:560-573 | the operand halved, with the old carry entering bit 7, is written back; C is the old bit 0; N and Z come from the result |
| Handlers.Inc | cpu.c:370-380 | the operand plus one modulo 256 is written back; N and Z describe it; no other flag changes |
| Handlers.Dec | cpu.c:311-321 | the operand minus one modulo 256 is written back; N and Z describe it; no other flag changes |
| Handlers.Inx | cpu.c:386-394 | X is incremented modulo 256 with N and Z from the new X, and nothing else changes |
| Handlers.Iny | cpu.c:400-408 | Y is incremented modulo 256 with N and Z from the new Y, and nothing else changes |
| Handlers.Dex | cpu.c:327-335 | X is decremented modulo 256 with N and Z from the new X, and nothing else changes |
| Handlers.Dey | cpu.c:341-349 | Y is decremented modulo 256 with N and Z from the new Y, and nothing else changes |
| Handlers.CompareFlags | cpu.c:260-271 | after a compare: C iff the register is at least the operand (unsigned); Z iff they are equal; N is bit 7 of the difference; all other flags kept |
| Handlers.Cmp | cpu.c:260-271 | compares A with the operand (flags as in `CompareFlags`) without changing any register; the extra cycle is requested |
| Handlers.Cpx | cpu.c:277-288 | compares X with the operand without changing any register; no extra cycle |
| Handlers.Cpy | cpu.c:294-305 | compares Y with the operand without changing any register; no extra cycle |
| Handlers.Branch | cpu.c:173-210 | an untaken branch changes nothing; a taken one jumps to pc + addr_rel and pays one cycle, plus one more when the target is on another page |
| Handlers.Bcc | cpu.c:173-188 | with C set nothing changes; with C clear pc becomes pc + addr_rel, at a cost of 1 cycle on the same page and 2 across a page |
| Handlers.Bcs | cpu.c:195-210 | with C clear nothing changes; with C set pc becomes pc + addr_rel, at a cost of 1 cycle on the same page and 2 across a page |
| Handlers.Clc | cpu.c:216-221 | C is clear afterwards, and only C changed |
| Handlers.Cld | cpu.c:227-232 | D is clear afterwards, and only D changed |
| Handlers.Cli | cpu.c:238-243 | I is clear afterwards, and only I changed |
| Handlers.Clv | cpu.c:249-254 | V is clear afterwards, and only V changed |
| Handlers.Sec | cpu.c:579-584 | C is set afterwards, and only C changed |
| Handlers.Sed | cpu.c:590-595 | D is set afterwards, and only D changed |
| Handlers.Sei | cpu.c:601-606 | I is set afterwards, and only I changed |
| Handlers.Jmp | cpu.c:414-421 | execution continues at the resolved address `addr_abs`, and nothing but `fetched` and pc changes |
| Handlers.Jsr | cpu.c:428-439 | pc - 1 is pushed high byte first at 0x0100 + SP; SP falls by 2; pc becomes `addr_abs`; every other byte of memory is kept |
| Handlers.Lda | cpu.c:445-455 | A becomes the operand; N and Z describe it; the extra cycle is requested |
| Handlers.Ldx | cpu.c:461-471 | X becomes the operand; N and Z describe it; the extra cycle is requested |
| Handlers.Ldy | cpu.c:477-487 | Y becomes the operand; N and Z describe it; the extra cycle is requested |
| Handlers.Sta | cpu.c:612-617 | A is written to `addr_abs`, every other byte is kept, and no register changes |
| Handlers.Stx | cpu.c:623-628 | X is written to `addr_abs`, every other byte is kept, and no register changes |
| Handlers.Sty | cpu.c:634-639 | Y is written to `addr_abs`, every other byte is kept, and no register changes |
| Handlers.Tax | cpu.c:645-653 | X becomes A with N and Z from it, and nothing else changes |
| Handlers.Tay | cpu.c:659-667 | Y becomes A with N and Z from it, and nothing else changes |
| Handlers.Tsx | cpu.c:673-681 | X becomes the stack pointer with N and Z from it, and nothing else changes |
| Handlers.Txa | cpu.c:687-695 | A becomes X with N and Z from it, and nothing else changes |
| Handlers.Tya | cpu.c:712-720 | A becomes Y with N and Z from it, and nothing else changes |
| Handlers.Txs | cpu.c:701-706 | the stack pointer becomes X and no flag changes |
| Handlers.Nop | cpu.c:512-516 | the state is unchanged and no extra cycle is requested |
| Handlers.Xxx | cpu.c:722-731 | an illegal opcode leaves the state unchanged and requests no extra cycle |
| Dispatch.Resolve | cpu.c:37 | the implied mode runs IMP; any other mode takes pc, `addr_abs`, `addr_rel` and the extra-cycle request from the resolver |
| Dispatch.Operate | cpu.c:38 | each handler requests the extra cycle exactly for ADC AND CMP EOR LDA LDX LDY ORA STA STX STY; only a taken branch adds cycles; only branches and jumps move pc; the opcode is kept; every handler other than the stores, the read-modify-write handlers and JSR leaves memory as it was |
| Dispatch.Execute | cpu.c:24-44 | the first pulse of an instruction sets the opcode to the byte at pc; it leaves `Cost - 1` cycles owed; outside jumps it leaves pc one past the opcode (implied) or where the resolver left it |
| Dispatch.ExtraCycleNeedsBoth | cpu.c:37-40 | the extra cycle is charged only when the addressing mode and the handler both ask for it |
| Dispatch.Clock | cpu.c:24-44 | with cycles owed a pulse only pays one; with none owed it starts the next instruction |
| Dispatch.ClockCountsDown | cpu.c:27-43 | while cycles are owed, the clock decrements them and changes nothing else |
| Dispatch.StoreWritesOnlyTarget | cpu.c:612-639 | a store dispatched from the table changes no byte other than the one at `addr_abs` |
| Dispatch.ShiftWritesOnlyOperand | cpu.c:154-166 | an ASL, LSR, ROL or ROR dispatched from the table changes no byte other than the one at `addr_abs`, and in the implied mode no memory at all |
| Dispatch.CountWritesOnlyOperand | cpu.c:311-323 | an INC or DEC dispatched from the table changes no byte other than the one at `addr_abs`, and in the implied mode no memory at all |
| Dispatch.ExecuteRunsHandler | cpu.c:28-40 | the first pulse of an instruction is the effect of the table's handler for the opcode byte at pc, run on the state its addressing mode resolved; only the cycle count differs |
| Dispatch.ClockLoadsAccumulator | cpu.c:445-455 | a pulse on an instruction boundary that reads an LDA in a memory mode leaves A holding the byte at the resolved address, with N and Z describing it |
| Dispatch.ClockStoresAccumulator | cpu.c:612-617 | a pulse on an instruction boundary that reads an STA writes the old A at the resolved address and leaves A, X, Y and the status as they were |
| Dispatch.ClockTransfersAccumulator | cpu.c:645-653 | a pulse on an instruction boundary that reads an implied TAX copies A into X, keeps A and memory, and leaves pc one past the opcode |
| Dispatch.InstructionTakesCostPulses | cpu.c:24-44 | started on an instruction boundary, after k pulses (0 < k <= Cost) the state is the instruction's effect with Cost - k cycles owed, so the next opcode is read on pulse Cost + 1 |
| Timing.PaysOwedCycles | cpu.c:43 | k pulses with at least k cycles owed only subtract k from the count |
| Timing.CountsDownAfterStart | cpu.c:24-44 | if the first pulse leaves n - 1 cycles owed, then after k of n pulses n - k are owed and nothing else has moved |
| Properties.StoreThenLoad | cpu.c:445-487 | LDA/LDX/LDY from the address a STA/STX/STY just wrote read back the stored register, with N and Z describing it |
| Properties.TransferRoundTrips | cpu.c:645-720 | TAX then TXA, TAY then TYA, and TXS then TSX each leave both registers equal to the source |
| Properties.InxThenDex | cpu.c:327-394 | INX followed by DEX restores every register and memory byte; only N and Z may differ |
| Properties.InyThenDey | cpu.c:341-408 | INY followed by DEY restores every register and memory byte; only N and Z may differ |
| Properties.IncThenDecRestoresMemory | cpu.c:311-380 | INC then DEC on a memory operand restores the byte |
| Properties.EorTwiceRestores | cpu.c:356-364 | two EORs with the same operand restore A |
| Properties.RolReadsBack | cpu.c:540-553 | after ROL the next fetch reads the rotated byte, and C is the old bit 7 |
| Properties.RorReadsBack | cpu.c:560-573 | after ROR the next fetch reads the rotated byte, and C is the old bit 0 |
| Properties.RotateLeftThenRight | cpu.c:540-573 | ROL A then ROR A restores both A and the carry |
| Properties.RotateRightThenLeftInMemory | cpu.c:540-573 | ROR then ROL of a byte in memory restores the byte and the carry |
| Properties.ShiftLeftThenRight | cpu.c:154-166 | ASL A then LSR A leaves A with bit 7 cleared and the other bits kept, with C and N clear |
| Properties.CarryInstructionsLastWins | cpu.c:216-221 | of CLC and SEC in sequence the second decides C; SEC then CLC restores a state whose C was clear |
| Properties.JsrPushesReturnAddress | cpu.c:428-439 | the two bytes JSR leaves just above the new stack pointer read, low byte first, as one less than the pc at the call |
| Properties.IndexRegistersWrap | cpu.c:386-394 | INX wraps 0xFF to 0x00 with Z set and N clear; DEY wraps 0x00 to 0xFF with N set and Z clear |
| Properties.BccPageCrossing | cpu.c:173-188 | a taken BCC from 0x10F0 costs 2 cycles when it lands on 0x1110 and 1 cycle when it lands on 0x10F2 |
| Properties.CompareBelow | cpu.c:260-271 | CMP of 0x10 with 0x20 clears C and Z, sets N, and keeps A |
| AsWritten.SetFlagAsWritten | cpu.c:63-73 | the accessor as written returns the state unchanged: the computed status byte is never stored |
| AsWritten.SetFlagAsWrittenLosesTheWrite | cpu.c:63-73 | raising a clear flag through the accessor as written leaves it reading 0; the corrected one reads 1 |
| AsWritten.BccAsWritten | cpu.c:173-188 | BCC as written is BCS: with the carry clear it never branches |
| AsWritten.BccAsWrittenIgnoresClearCarry | cpu.c:176 | with C clear and a non-zero displacement BCC as written falls through, while the corrected BCC moves pc |
| AsWritten.EorAsWritten | cpu.c:356-364 | EOR as written xors A with whatever `fetched` already held |
| AsWritten.EorAsWrittenUsesStaleOperand | cpu.c:358 | when `fetched` differs from the byte at `addr_abs`, EOR as written and the corrected EOR give different A |
| AsWritten.JmpAsWritten | cpu.c:414-421 | JMP as written always lands on page 0, at the fetched byte |
| AsWritten.JmpAsWrittenStaysOnPageZero | cpu.c:418 | for a target outside page 0, JMP as written misses it |
| AsWritten.StoreAsWritten | cpu.c:612-639 | STA/STX/STY as written copy the register into `fetched` and leave memory unchanged |
| AsWritten.StoreAsWrittenIsNotLoaded | cpu.c:614 | after STA as written, LDA from the same address reads the old byte; after the corrected STA it reads A |
| AsWritten.AslAsWritten | cpu.c:154-166 | ASL as written computes the doubled byte and its flags but leaves the byte only in `fetched` |
| AsWritten.LsrAsWritten | cpu.c:494-506 | LSR as written computes the halved byte and its flags but leaves the byte only in `fetched` |
| AsWritten.RolAsWritten | cpu.c:540-553 | ROL as written computes the rotated byte and its flags but leaves the byte only in `fetched` |
| AsWritten.RorAsWritten | cpu.c:560-573 | ROR as written or-s the old carry into bit 0 of the halved byte and leaves the byte only in `fetched` |
| AsWritten.IncAsWritten | cpu.c:370-380 | INC as written leaves the incremented byte only in `fetched` |
| AsWritten.DecAsWritten | cpu.c:311-321 | DEC as written leaves the decremented byte only in `fetched` |
| AsWritten.ModifyAsWrittenLeavesAccumulator | cpu.c:154-553 | with A = 0x01, ASL/LSR/ROL/INC/DEC as written leave A at 0x01 while each corrected handler changes it |
| AsWritten.RorAsWrittenRotatesIntoBitZero | cpu.c:566 | ROR of 0x00 with C set gives 0x01 as written (A untouched) and 0x80 when corrected |
| AsWritten.AssignVNZ | cpu.c:125-127 | the as-written ADC flag tail: V, N and Z as given, and no other flag changes |
| AsWritten.AdcAsWritten | cpu.c:119-133 | ADC as written keeps A; V compares the sign of the old A with the sum's; N is the sign of the old A; C is untouched |
| AsWritten.AdcAsWrittenDropsTheSum | cpu.c:123-127 | 0x50 + 0x50: as written A stays 0x50 with N clear; corrected, A is 0xA0 with N and V set and C clear |
| AsWritten.AdcAsWrittenLosesTheCarry | cpu.c:123-127 | 0xFF + 0x01: as written C stays clear; corrected, A is 0x00 with C and Z set |

## Left out

- cpu_read and cpu_write (cpu.c:5-17) forward to the bus. Memory is modelled as a total map from 16-bit addresses to bytes. Mapped devices, mirroring and read side effects are not part of this model.
- The 256-entry opcode table is a parameter (`Dispatch.Table`), because cpu.c only uses the table and does not define it. So are the eleven addressing modes other than IMP (`Dispatch.Resolver`), which compute pc, `addr_abs`, `addr_rel` and the extra-cycle request. Neither is part of this model.
- Other instructions (RTS, RTI, BRK, the stack pushes and pulls, BIT, SBC, the other branches) and the interrupt and reset entry points have no handler in cpu.c. They are not part of this model.
- Decimal mode. The source leaves it out on purpose (NES), and so does the model; D is only set and cleared.
- Illegal opcodes: as in the source, they behave as no-operation (`Handlers.Xxx`); what a real 6502 does with them is not modelled.
- The flag bit positions and the `cycles` field come from cpu.h, which is not part of this model. The model uses the 6502 layout (C at bit 0 through N at bit 7) and an unbounded `nat` for the cycles owed, which never exceed 10 here.
- The comparison written `1=` in BCC and BCS (cpu.c:180, cpu.c:202) does not compile. It is read as `!=`, the page-change test it evidently is.
- Where `cpu_fetch` compares the table's addressing-mode function pointer with IMP (cpu.c:78), the model compares the entry's `AddrMode` with `Implied`.
- Dispatch.Execute: does not state the program counter after BCC, BCS, JMP and JSR. That is stated by the handlers' own contracts (`Handlers.Bcc`, `Handlers.Jmp`, ...), because repeating it through the dispatch costs more than the verifier's budget.
- Dispatch.Operate: the `Operate…` functions it calls, one per handler family, are a split of one dispatch. They share the `Dispatched` contract and the memory frames, and have no rows of their own.
- AsWritten.AdcAsWritten, AsWritten.EorAsWritten, AsWritten.AslAsWritten, AsWritten.LsrAsWritten, AsWritten.RolAsWritten, AsWritten.RorAsWritten, AsWritten.IncAsWritten, AsWritten.DecAsWritten: the flags they compute are what the corrected `cpu_setFlag` would store. As written in cpu.c, every one of these handlers changes no flag at all, because `cpu_setFlag` never stores its result (cpu.c:63-73, `AsWritten.SetFlagAsWritten`). Each member keeps only its own defect, so that the two defects can be told apart.
- Dispatch.ClockLoadsAccumulator, Dispatch.ClockStoresAccumulator, Dispatch.ClockTransfersAccumulator: the end-to-end effect of a pulse is stated for LDA, STA and TAX, one of each kind of handler (a load, a store, a transfer). The other handlers' effects follow in the same way from `Dispatch.ExecuteRunsHandler` and their own contracts, but they are not stated end to end, because each costs its own proof.

## Findings

The flag effects given in the ADC, EOR, ASL, LSR, ROL, ROR, INC and DEC
rows are those of the corrected `cpu_setFlag`. As written, none of these
handlers changes any flag (the first row).

| source | as written | input that shows it | evidently intended | confidence | as-written member | corrected member |
|---|---|---|---|---|---|---|
| cpu.c:63-73 | `cpu_setFlag` computes the new status in a local variable and never stores it, so no handler changes any flag | any flag raise on a clear flag: it still reads 0 afterwards | store the new byte in the status register | high, not executed | AsWritten.SetFlagAsWritten, AsWritten.SetFlagAsWrittenLosesTheWrite | Cpu.SetFlag, Cpu.SetFlagKeepsOtherFlags, Cpu.SetFlagLastWins |
| cpu.c:176 | BCC branches when `getFlag(C) == 1`, the same test as BCS | C clear, addr_rel = 0x0020: BCC as written falls through | branch when the carry is clear | high, not executed | AsWritten.BccAsWritten, AsWritten.BccAsWrittenIgnoresClearCarry | Handlers.Bcc, Properties.BccPageCrossing |
| cpu.c:358 | EOR never calls `cpu_fetch`, so it xors A with a stale `fetched` | `fetched` = 0x00, byte at addr_abs = 0xFF: A is unchanged instead of inverted | fetch the operand first, like AND and ORA | high, not executed | AsWritten.EorAsWritten, AsWritten.EorAsWrittenUsesStaleOperand | Handlers.Eor, Properties.EorTwiceRestores |
| cpu.c:418 | JMP sets pc to `fetched`, the byte stored at the target, widened to 16 bits | JMP $1234: pc becomes the byte at $1234, on page 0 | pc := addr_abs, the resolved target (as JSR does) | high, not executed | AsWritten.JmpAsWritten, AsWritten.JmpAsWrittenStaysOnPageZero | Handlers.Jmp |
| cpu.c:612-639 | STA, STX and STY only copy the register into `fetched`; nothing is written to memory | A = 0x42, byte at addr_abs = 0x00: a following LDA reads 0x00 | write the register to addr_abs | high, not executed | AsWritten.StoreAsWritten, AsWritten.StoreAsWrittenIsNotLoaded | Handlers.Sta, Handlers.Stx, Handlers.Sty, Properties.StoreThenLoad |
| cpu.c:160 | ASL leaves the shifted byte in `fetched` only; neither A nor memory changes | ASL A with A = 0x01: A stays 0x01 | write the result back to A (implied) or to addr_abs | high, not executed | AsWritten.AslAsWritten, AsWritten.ModifyAsWrittenLeavesAccumulator | Handlers.Asl, Properties.ShiftLeftThenRight |
| cpu.c:501 | LSR leaves the shifted byte in `fetched` only | LSR A with A = 0x01: A stays 0x01 | write the result back | high, not executed | AsWritten.LsrAsWritten, AsWritten.ModifyAsWrittenLeavesAccumulator | Handlers.Lsr, Properties.ShiftLeftThenRight |
| cpu.c:545-546 | ROL leaves the rotated byte in `fetched` only | ROL A with A = 0x01: A stays 0x01 | write the result back | high, not executed | AsWritten.RolAsWritten, AsWritten.ModifyAsWrittenLeavesAccumulator | Handlers.Rol, Properties.RotateLeftThenRight |
| cpu.c:566 | ROR or-s the old carry into bit 0 and leaves the result in `fetched` only | ROR A with A = 0x00 and C set: `fetched` 0x01 and A stays 0x00 | carry enters bit 7 (0x80), result written back | high, not executed | AsWritten.RorAsWritten, AsWritten.RorAsWrittenRotatesIntoBitZero | Handlers.Ror, Properties.RotateLeftThenRight, Properties.RotateRightThenLeftInMemory |
| cpu.c:374 | INC leaves the incremented byte in `fetched` only | INC A with A = 0x01: A stays 0x01 | write the result back | high, not executed | AsWritten.IncAsWritten, AsWritten.ModifyAsWrittenLeavesAccumulator | Handlers.Inc, Properties.IncThenDecRestoresMemory |
| cpu.c:315 | DEC leaves the decremented byte in `fetched` only | DEC A with A = 0x01: A stays 0x01 | write the result back | high, not executed | AsWritten.DecAsWritten, AsWritten.ModifyAsWrittenLeavesAccumulator | Handlers.Dec, Properties.IncThenDecRestoresMemory |
| cpu.c:119-133 | ADC (marked unfinished) never stores the sum in A and never sets C; V compares the signs of the old A and the sum; N is the sign of the old A | 0x50 + 0x50: A stays 0x50 with N clear; 0xFF + 0x01: C stays clear | A := A + M + C, with C, V, N and Z as on the 6502 | high, not executed | AsWritten.AdcAsWritten, AsWritten.AdcAsWrittenDropsTheSum, AsWritten.AdcAsWrittenLosesTheCarry | Handlers.Adc, Alu.CarryIsNinthBit |
