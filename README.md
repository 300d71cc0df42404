# lib6502 in Dafny

A model of lib6502, an instruction-level emulator of the NMOS MOS 6502
written in Rust, with proofs of what its operations compute. The crate
holds two generations of CPU code and the model keeps both apart.

The primary design has these parts:

- **Register file** (`registers.dfy`, module `RegisterFile`). The
  registers, and a status record of eight flags that packs to and unpacks
  from a byte.
- **CPU** (`cpu.dfy`, modules `Cpu` and `DispatchTable`). A class `CPU`
  with the registers, a 64 KiB bus and a cycle counter, updated in place.
  Its methods are fetch, stack push and pop, the zero and negative flag
  update, branch, reset, and IRQ/NMI entry. Each method is proved equal to
  a member function of the value `State`. The dispatch table is a function
  from opcode to an optional `(handler, mode, base cycles)` entry.
- **Stack runs** (`stack.dfy`, module `Stack`). Pushes and pops chained
  as JSR/RTS, BRK/RTI and interrupt entry chain them: up to 256 pushed
  bytes come back last in, first out, with SP restored.
- **Addressing modes** (`addressing_modes.dfy`). The thirteen resolvers
  are methods on the CPU. Each is proved against `Resolve`, which returns
  the new state, the effective address and the page-cross penalty.
- **Instruction handlers** (`semantics.dfy`, `instructions.dfy`, `alu.dfy`).
  `InstructionSemantics` gives each handler as a function on `State`.
  `Instructions` holds the handlers as methods on the CPU, each proved
  equal to its function. `Alu` holds the byte arithmetic, with lemmas
  saying what it computes.
- **Step** (`engine.dfy`). `Step` fetches, decodes, resolves the address,
  runs the handler and counts cycles. It returns `Ok(cycles)`. Where the
  Rust code panics, it returns `Fail(byte)` instead.
- **Facts** (`instruction_facts.dfy`). The properties of the handlers:
  - round trips (JSR/RTS, BRK/RTI, interrupt/RTI, INC/DEC, EOR twice);
  - arithmetic meaning (binary and BCD ADC and SBC);
  - flag effects;
  - branch encoding;
  - the extra cycles each handler can return.

The earlier design is two more files:

- **`legacy_cpu.dfy`** models `src/lib.rs`. It is a flat `Cpu` with a
  status byte and an `array` of 65,536 bytes, plus the `StatusFlags` bit
  constants.
- **`legacy_addressing.dfy`** models `src/addressing.rs`. It is the
  enum-driven resolver, which assigns the scratch fields `addrAbs`,
  `addrRel` and `fetchedData`. Those fields are not part of `src/lib.rs`'s
  `Cpu`, so the model adds them to it.

Bytes and words are the integer newtypes `u8` and `u16`. Every wrapping
operation is written out explicitly (`Add8`, `Sub8`, `Add16`, `Sub16`).
The status record is packed through `bv8` only where the source shifts or
masks bits.

The bus is a total 64 KiB memory, like the repository's test bus. Reads
have no side effects.

The model keeps these quirks of the source as written:

- Opcode 0x0A (ASL A) pairs `asl` with the accumulator mode. That mode
  yields address 0, so the instruction shifts memory byte 0 and not A.
- Indexed stores and read-modify-write instructions also pay the
  page-cross cycle.
- Decimal ADC returns one extra cycle.
- RTI copies bits 4 and 5 of the popped byte into B and U.
- ORA, PHA, PHP, PLA, PLP and ROL are stubs that fail. The ROL opcodes
  name handlers that do not exist in `src/instructions.rs`; here they map
  to the ROL stub.

## Model

| member | source | states |
|---|---|---|
| RegisterFile.NewRegisters | src/registers.rs:21-30 | A, X and Y are 0, SP is 0xFD, PC is 0, and the flags pack to 0x20 |
| RegisterFile.NewStatusFlags | src/registers.rs:55-66 | only the unused flag is set, so the packed byte is 0x20 |
| RegisterFile.Contains | src/registers.rs:77-86 | holds exactly when all eight fields are equal: it is equality, not a subset test |
| RegisterFile.ToByte | src/registers.rs:102-111 | bit k of the byte is flag k, with N V U B D I Z C at bits 7 down to 0 |
| RegisterFile.FromByte | src/registers.rs:118-127 | flag k is bit k of the byte, including B and U as given; packing the result gives the same byte back |
| RegisterFile.FromByteOfToByte | src/registers.rs:102-127 | unpacking a packed record restores all eight flags |
| Cpu.Write | src/tests/mod.rs:29-31 | after a bus write the address holds the value and no other byte changed |
| Cpu.StackAddress | src/cpu.rs:154-174 | every stack slot lies in 0x0100..0x01FF: high byte 1, low byte SP |
| Cpu.CPU.constructor | src/cpu.rs:58-68 | a new CPU has the fresh registers, the given bus and zero cycles |
| Cpu.CPU.Reset | src/cpu.rs:75-91 | the new state is `State.Reset` of the old one, whose effects ResetEffects states |
| Cpu.CPU.FetchByte | src/cpu.rs:127-131 | the new state and the byte are `State.FetchByte` of the old state, which FetchByteReadsAtPc characterises |
| Cpu.CPU.FetchWord | src/cpu.rs:137-144 | the new state and the word are `State.FetchWord` of the old state, which FetchWordLittleEndian characterises |
| Cpu.CPU.StackPush | src/cpu.rs:154-159 | the new state is `State.StackPush` of the old state; PushThenPop and ThreePushes give its meaning |
| Cpu.CPU.StackPop | src/cpu.rs:169-174 | the new state and the byte are `State.StackPop` of the old state; PushThenPop and PopThenPushBack give its meaning |
| Cpu.CPU.UpdateZeroAndNegativeFlags | src/cpu.rs:184-189 | the new state is `State.UpdateZeroAndNegativeFlags`, which ZeroAndNegativeOnly characterises |
| Cpu.CPU.Branch | src/cpu.rs:204-217 | the new state and penalty are `State.Branch`, which BranchPenalty characterises |
| Cpu.CPU.Interrupt | src/cpu.rs:227-248 | the new state is `State.Interrupt(nmi)`, which MaskedIrqIgnored and InterruptEntry characterise |
| Cpu.CPU.Irq | src/cpu.rs:253-255 | an IRQ is the interrupt entry with `nmi` false |
| Cpu.CPU.Nmi | src/cpu.rs:260-262 | an NMI is the interrupt entry with `nmi` true |
| Cpu.FetchByteReadsAtPc | src/cpu.rs:127-131 | the fetched byte is mem[PC]; PC advances by 1 mod 2^16; nothing else changes |
| Cpu.FetchWordLittleEndian | src/cpu.rs:137-144 | the low byte is at PC and the high byte at PC+1 mod 2^16; PC advances by 2 mod 2^16; nothing else changes |
| Cpu.PushThenPop | src/cpu.rs:154-174 | a push then a pop returns the pushed byte and restores every register; the slot keeps the byte |
| Stack.PushAllEffect | src/cpu.rs:154-159 | pushing up to 256 bytes lowers SP by their number mod 256, leaves the j-th byte j slots below the old SP, and changes no other register and no byte outside the stack page |
| Stack.PopManyEffect | src/cpu.rs:169-174 | popping n bytes raises SP by n mod 256, yields the bytes of the n slots above the old SP nearest first, and changes nothing else |
| Stack.PushAllThenPopMany | src/cpu.rs:154-174 | pushing up to 256 bytes and popping as many returns them in reverse order and restores every register, SP included |
| Cpu.PopThenPushBack | src/cpu.rs:154-174 | popping a byte and pushing it back restores the whole state |
| Cpu.ZeroAndNegativeOnly | src/cpu.rs:184-189 | Z is set iff the result is 0 and N iff its bit 7 is set; the other six status bits, the registers and the bus are unchanged |
| Cpu.BranchPenalty | src/cpu.rs:204-217 | PC becomes the target; the penalty is 2 iff the high bytes of the old PC and the target differ, else 1 |
| Cpu.ResetEffects | src/cpu.rs:75-91 | PC is loaded little-endian from 0xFFFC/0xFFFD, SP is 0xFD, status packs to 0x20 and cycles are 0; A, X, Y and the bus are unchanged |
| Cpu.MaskedIrqIgnored | src/cpu.rs:227-230 | an IRQ while I is set leaves the state exactly as it was |
| Cpu.InterruptEntry | src/cpu.rs:227-248 | PC high, PC low, then status with B clear and U set go to three consecutive stack slots; SP falls by 3 mod 256; I is set; PC comes from 0xFFFA (NMI) or 0xFFFE (IRQ); A, X, Y, the other flags and the cycles are unchanged |
| Cpu.ThreePushes | src/cpu.rs:232-239 | three pushes fill three consecutive slots going down, lower SP by 3 and leave the bus above page one alone |
| Cpu.InterruptStatusByte | src/cpu.rs:236-238 | the byte `to_byte() & !0x10 \| 0x20` is the packed form of the flags with B clear and U set |
| Cpu.InstructionTable | src/cpu.rs:286-516 | every entry has 2 to 7 base cycles, the branch handlers come exactly with the relative mode, and LSR/ROR accumulator and memory forms have matching modes |
| DispatchTable.TableExamples | src/cpu.rs:334-494 | 0x00 is BRK implied 7, 0x6C is JMP indirect 5, 0x9D is STA absolute,X 5 |
| DispatchTable.AslAccumulatorEntry | src/cpu.rs:313 | opcode 0x0A is ASL with the accumulator mode and 2 cycles |
| DispatchTable.RolOpcodes | src/cpu.rs:458-462 | the five ROL opcodes all name the ROL handler |
| AddressingModes.Accumulator | src/addressing_modes.rs:22-24 | yields `Resolve(Accumulator)`: address 0, no penalty, no state change (NoOperandModes) |
| AddressingModes.Absolute | src/addressing_modes.rs:33-36 | new state, address and penalty are `Resolve(Absolute)` of the old state |
| AddressingModes.AbsoluteX | src/addressing_modes.rs:45-56 | new state, address and penalty are `Resolve(AbsoluteX)` of the old state (AbsoluteIndexedPenalty) |
| AddressingModes.AbsoluteY | src/addressing_modes.rs:65-76 | new state, address and penalty are `Resolve(AbsoluteY)` of the old state (AbsoluteIndexedPenalty) |
| AddressingModes.Immediate | src/addressing_modes.rs:85-92 | new state, address and penalty are `Resolve(Immediate)` of the old state (ImmediateAddressesOperand) |
| AddressingModes.Implied | src/addressing_modes.rs:101-105 | yields `Resolve(Implied)`: address 0, no penalty, no state change (NoOperandModes) |
| AddressingModes.Indirect | src/addressing_modes.rs:113-131 | new state, address and penalty are `Resolve(Indirect)` of the old state (IndirectPageBug) |
| AddressingModes.IndirectX | src/addressing_modes.rs:140-151 | new state, address and penalty are `Resolve(IndirectX)` of the old state (IndirectXPointerInPageZero) |
| AddressingModes.IndirectY | src/addressing_modes.rs:161-178 | new state, address and penalty are `Resolve(IndirectY)` of the old state (IndirectYPenalty) |
| AddressingModes.Relative | src/addressing_modes.rs:187-195 | new state, address and penalty are `Resolve(Relative)` of the old state (RelativeTarget) |
| AddressingModes.ZeroPage | src/addressing_modes.rs:204-209 | new state, address and penalty are `Resolve(ZeroPage)` of the old state (ZeroPageStaysInPageZero) |
| AddressingModes.ZeroPageX | src/addressing_modes.rs:219-224 | new state, address and penalty are `Resolve(ZeroPageX)` of the old state (ZeroPageStaysInPageZero) |
| AddressingModes.ZeroPageY | src/addressing_modes.rs:234-239 | new state, address and penalty are `Resolve(ZeroPageY)` of the old state (ZeroPageStaysInPageZero) |
| AddressingModes.CallAddressingMode | src/cpu.rs:107 | calling the entry's mode function is `Resolve` of that mode |
| AddressingModeFacts.OnlyOperandBytesConsumed | src/addressing_modes.rs:22-239 | PC advances by 0, 1 or 2 operand bytes mod 2^16, depending on the mode; no other register, bus byte or cycle changes |
| AddressingModeFacts.NoOperandModes | src/addressing_modes.rs:22-24 | accumulator and implied yield address 0 and penalty 0 and leave the state alone |
| AddressingModeFacts.ImmediateAddressesOperand | src/addressing_modes.rs:85-92 | immediate's address is the PC of the operand byte, with no penalty |
| AddressingModeFacts.ZeroPageStaysInPageZero | src/addressing_modes.rs:204-239 | the zero-page forms yield (operand + index) mod 256, always below 0x100, with no penalty |
| AddressingModeFacts.AbsoluteIndexedPenalty | src/addressing_modes.rs:45-76 | absolute,X/Y yield (base + index) mod 2^16, with penalty 1 iff the high bytes of base and address differ, else 0 |
| AddressingModeFacts.IndirectYPenalty | src/addressing_modes.rs:161-178 | (indirect),Y adds Y mod 2^16 to the zero-page word at the operand, with penalty 1 iff the page changes, else 0 |
| AddressingModeFacts.IndirectXPointerInPageZero | src/addressing_modes.rs:140-151 | (indirect,X) reads its pointer at (operand + X) mod 256 and the next byte mod 256, so never outside page zero |
| AddressingModeFacts.ZeroPagePointerWraps | src/addressing_modes.rs:161-178 | a zero-page pointer at 0xFF takes its high byte from 0x0000 |
| AddressingModeFacts.IndirectPageBug | src/addressing_modes.rs:113-131 | when the pointer's low byte is 0xFF, the high byte is read from the start of the same page |
| AddressingModeFacts.JmpIndirectAcrossPage | src/tests/mod.rs:434-455 | JMP ($10FF) reads $10FF and $1000 |
| AddressingModeFacts.RelativeTarget | src/addressing_modes.rs:187-195 | the target is the PC after the offset byte plus the signed offset, mod 2^16, with no penalty |
| AddressingModeFacts.PenaltyAtMostOne | src/addressing_modes.rs:45-178 | the penalty is at most 1, and only absolute,X, absolute,Y and (indirect),Y can charge it |
| Bits.SignExtend | src/addressing_modes.rs:187-195 | the word keeps the byte as its low half and has high half 0xFF iff bit 7 is set; numerically it is the signed byte mod 2^16 |
| Bits.MaskTests | src/instructions.rs:218-225 | the masks `& 0x80`, `& 0x40`, `& 0x01` test bits 7, 6 and 0 |
| Alu.DecimalDifference | src/instructions.rs:1057 | decimal SBC's `i16` difference lies in -256..255 |
| Alu.AddOverflowSigns | src/instructions.rs:74 | ADC's overflow mask holds iff both operands have one sign and the result the other |
| Alu.SubOverflowSigns | src/instructions.rs:1089 | SBC's overflow mask holds iff the operands differ in sign and the result's sign differs from A's |
| Alu.BinaryAddIsSum | src/instructions.rs:66-76 | the result is (a + m + C) mod 256, the carry is set iff the sum reaches 256, and V is set iff the signed sum leaves -128..127 |
| Alu.DecimalAddIsBcd | src/instructions.rs:33-64 | for BCD operands the result is BCD, its value is (a + m + C) mod 100, and the carry is set iff the decimal sum reaches 100 |
| Alu.BinarySubtractIsDifference | src/instructions.rs:1077-1089 | the low byte is (a - m - borrow) mod 256, "temp < 0x100" holds iff there is no borrow, and V is set iff the signed difference leaves -128..127 |
| Alu.DecimalSubtractIsBcd | src/instructions.rs:1057-1076 | for BCD operands the result is BCD with value (a - m - borrow) mod 100, and the uncorrected difference is non-negative iff the decimal one is |
| Alu.DecimalFlagsAreBinary | src/instructions.rs:1057-1065 | the uncorrected decimal difference agrees with the binary one mod 256 and in its sign |
| Alu.ShiftLeftDoubles | src/instructions.rs:109-122 | shift left plus bit 7 as the ninth bit is twice the byte |
| Alu.ShiftRightHalves | src/instructions.rs:829-875 | twice the shifted byte plus bit 0 is the byte, and bit 7 of the result is clear |
| Alu.RotateRightNineBits | src/instructions.rs:935-983 | rotating right through the carry is a nine-bit rotation: bit 0 goes out, the carry comes in at bit 7 |
| Instructions.CallInstruction | src/cpu.rs:110 | running the entry's handler completes with `Sem.Execute`'s state and extra cycles, or aborts with its byte and changes nothing |
| Instructions.Stub | src/instructions.rs:889-923 | a stub returns the byte it reads, which is the value `Execute` aborts with |
| Instructions.Handle | src/cpu.rs:110 | an implemented handler leaves the state and returns the extra cycles that `Sem.Handle` gives |
| Instructions.Adc | src/instructions.rs:27-79 | the new state and extra cycles are `Sem.Adc`, whose meaning AdcBinary and AdcDecimal state |
| Instructions.AddDecimalDigits | src/instructions.rs:35-61 | the step-by-step nibble correction computes `Alu.DecimalAdd`, whose meaning DecimalAddIsBcd states |
| Instructions.Sbc | src/instructions.rs:1051-1092 | the new state and extra cycles are `Sem.Sbc`, whose meaning SbcBinary and SbcDecimal state |
| Instructions.SubtractDecimalDigits | src/instructions.rs:1057-1076 | the corrected difference is `Alu.DecimalSubtract`, whose meaning DecimalSubtractIsBcd states |
| Instructions.And | src/instructions.rs:90-95 | the new state is `Sem.And` (AndTwice) |
| Instructions.Eor | src/instructions.rs:622-633 | the new state is `Sem.Eor` (EorTwice) |
| Instructions.Bit | src/instructions.rs:218-225 | the new state is `Sem.Bit` (BitTest) |
| Instructions.Compare | src/instructions.rs:466-537 | the comparison the three compare handlers share is `Sem.Compare` (CompareFlags) |
| Instructions.Cmp | src/instructions.rs:466-479 | the new state is `Sem.Cmp` (CompareFlags) |
| Instructions.Cpx | src/instructions.rs:495-508 | the new state is `Sem.Cpx` (CompareFlags) |
| Instructions.Cpy | src/instructions.rs:524-537 | the new state is `Sem.Cpy` (CompareFlags) |
| Instructions.Asl | src/instructions.rs:109-122 | the new state is `Sem.Asl` (AslDoubles) |
| Instructions.LsrAccumulator | src/instructions.rs:829-844 | the new state is `Sem.LsrAccumulator` (LsrHalves) |
| Instructions.LsrMemory | src/instructions.rs:862-875 | the new state is `Sem.LsrMemory` (LsrHalves) |
| Instructions.RorAccumulator | src/instructions.rs:935-952 | the new state is `Sem.RorAccumulator` (RorRotates) |
| Instructions.RorMemory | src/instructions.rs:968-983 | the new state is `Sem.RorMemory` (RorRotates) |
| Instructions.Dec | src/instructions.rs:551-562 | the new state is `Sem.Dec` (IncThenDec, DecThenInc) |
| Instructions.Inc | src/instructions.rs:647-658 | the new state is `Sem.Inc` (IncThenDec, DecThenInc) |
| Instructions.Dex | src/instructions.rs:577-584 | the new state is `Sem.Dex` (IndexRegistersStep) |
| Instructions.Dey | src/instructions.rs:599-606 | the new state is `Sem.Dey` (IndexRegistersStep) |
| Instructions.Inx | src/instructions.rs:673-680 | the new state is `Sem.Inx` (IndexRegistersStep) |
| Instructions.Iny | src/instructions.rs:695-702 | the new state is `Sem.Iny` (IndexRegistersStep) |
| Instructions.BranchIf | src/instructions.rs:139-148 | the shared branch is `Sem.BranchIf`: taken iff the condition holds (BranchEncoding) |
| Instructions.Bcc | src/instructions.rs:139-148 | the new state and extra cycles are `Sem.Bcc` (BranchEncoding) |
| Instructions.Bcs | src/instructions.rs:165-174 | the new state and extra cycles are `Sem.Bcs` (BranchEncoding) |
| Instructions.Beq | src/instructions.rs:191-200 | the new state and extra cycles are `Sem.Beq` (BranchEncoding) |
| Instructions.Bmi | src/instructions.rs:242-251 | the new state and extra cycles are `Sem.Bmi` (BranchEncoding) |
| Instructions.Bne | src/instructions.rs:268-277 | the new state and extra cycles are `Sem.Bne` (BranchEncoding) |
| Instructions.Bpl | src/instructions.rs:294-303 | the new state and extra cycles are `Sem.Bpl` (BranchEncoding) |
| Instructions.Bvc | src/instructions.rs:361-369 | the new state and extra cycles are `Sem.Bvc` (BranchEncoding) |
| Instructions.Bvs | src/instructions.rs:386-394 | the new state and extra cycles are `Sem.Bvs` (BranchEncoding) |
| Instructions.Clc | src/instructions.rs:403-408 | the new state is `Sem.Clc` (FlagInstructions) |
| Instructions.Cld | src/instructions.rs:417-422 | the new state is `Sem.Cld` (FlagInstructions) |
| Instructions.Cli | src/instructions.rs:431-436 | the new state is `Sem.Cli` (FlagInstructions) |
| Instructions.Clv | src/instructions.rs:445-450 | the new state is `Sem.Clv` (FlagInstructions) |
| Instructions.Sec | src/instructions.rs:1102-1107 | the new state is `Sem.Sec` (FlagInstructions) |
| Instructions.Sed | src/instructions.rs:1119-1124 | the new state is `Sem.Sed` (FlagInstructions) |
| Instructions.Sei | src/instructions.rs:1135-1140 | the new state is `Sem.Sei` (FlagInstructions) |
| Instructions.Lda | src/instructions.rs:754-763 | the new state is `Sem.Lda` (LoadsAndTransfersCopy) |
| Instructions.Ldx | src/instructions.rs:778-787 | the new state is `Sem.Ldx` (LoadsAndTransfersCopy) |
| Instructions.Ldy | src/instructions.rs:802-811 | the new state is `Sem.Ldy` (LoadsAndTransfersCopy) |
| Instructions.Sta | src/instructions.rs:1151-1156 | the new state is `Sem.Sta` (StoresWriteOnly) |
| Instructions.Stx | src/instructions.rs:1167-1172 | the new state is `Sem.Stx` (StoresWriteOnly) |
| Instructions.Sty | src/instructions.rs:1182-1187 | the new state is `Sem.Sty` (StoresWriteOnly) |
| Instructions.Tax | src/instructions.rs:1203-1210 | the new state is `Sem.Tax` (LoadsAndTransfersCopy) |
| Instructions.Tay | src/instructions.rs:1226-1233 | the new state is `Sem.Tay` (LoadsAndTransfersCopy) |
| Instructions.Tsx | src/instructions.rs:1249-1256 | the new state is `Sem.Tsx` (LoadsAndTransfersCopy) |
| Instructions.Txa | src/instructions.rs:1271-1278 | the new state is `Sem.Txa` (LoadsAndTransfersCopy) |
| Instructions.Txs | src/instructions.rs:1293-1298 | the new state is `Sem.Txs` (LoadsAndTransfersCopy) |
| Instructions.Tya | src/instructions.rs:1313-1320 | the new state is `Sem.Tya` (LoadsAndTransfersCopy) |
| Instructions.Nop | src/instructions.rs:884-887 | changes nothing and returns `Sem.Nop`'s 0 extra cycles (NopDoesNothing) |
| Instructions.Jmp | src/instructions.rs:712-717 | the new state is `Sem.Jmp`: PC becomes the effective address |
| Instructions.Jsr | src/instructions.rs:728-739 | the new state is `Sem.Jsr` (JsrThenRts) |
| Instructions.Rts | src/instructions.rs:1022-1033 | the new state is `Sem.Rts` (JsrThenRts) |
| Instructions.Brk | src/instructions.rs:320-344 | the new state is `Sem.Brk` (BrkEntry, BrkThenRti) |
| Instructions.Rti | src/instructions.rs:994-1010 | the new state is `Sem.Rti` (RtiPops, BrkThenRti, InterruptThenRti) |
| InstructionFacts.JsrThenRts | src/instructions.rs:728-739 | JSR pushes PC-1 high then low and jumps; RTS then restores every register, including SP, and PC resumes just after the JSR operand |
| InstructionFacts.BreakStatusByte | src/instructions.rs:320-344 | `to_byte() \| 0x10 \| 0x20` is the packed form of the flags with B and U set |
| InstructionFacts.BrkEntry | src/instructions.rs:320-344 | BRK pushes PC+1 high, PC+1 low and status with B and U set; SP falls by 3; I is set; PC comes from 0xFFFE/0xFFFF; other registers are unchanged |
| InstructionFacts.RtiPops | src/instructions.rs:994-1010 | RTI pops the status byte as given (bits 4 and 5 included), then PC low and high; SP rises by 3 and the bus is unchanged |
| InstructionFacts.BrkThenRti | src/instructions.rs:320-344 | RTI after BRK resumes at PC+1 with every register and flag restored, except that B and U come back set |
| InstructionFacts.InterruptThenRti | src/cpu.rs:227-248 | RTI after an accepted IRQ or NMI resumes at the interrupted PC with every register restored, B clear and U set |
| InstructionFacts.AdcBinary | src/instructions.rs:66-78 | binary ADC: A is (a + m + C) mod 256, C is set iff the sum reaches 256, V is the signed overflow, Z and N come from A, and nothing else changes |
| InstructionFacts.AdcDecimal | src/instructions.rs:33-65 | decimal ADC on BCD operands: A is the BCD form of (a + m + C) mod 100, C is set iff the sum reaches 100, Z and N come from A, V, I, D, B and U are untouched, the other registers and the bus are unchanged, and it takes 1 extra cycle |
| InstructionFacts.SbcBinary | src/instructions.rs:1077-1090 | binary SBC: A is (a - m - borrow) mod 256, C is set iff there is no borrow, V is the signed overflow, and Z and N come from A; I, D, B, U, the other registers and the bus are unchanged |
| InstructionFacts.SbcDecimal | src/instructions.rs:1056-1076 | decimal SBC on BCD operands: A is the BCD form of the difference mod 100, and C, Z, N and V are those of the uncorrected binary difference; the other registers and the bus are unchanged |
| InstructionFacts.CompareFlags | src/instructions.rs:466-537 | C iff reg >= m, Z iff reg == m, N is bit 7 of (reg - m) mod 256, C and not Z iff reg > m; registers and bus unchanged |
| InstructionFacts.BitTest | src/instructions.rs:218-225 | Z iff A & m is 0, V is bit 6 of m, N is bit 7 of m; A, every other register, C, D, I, B, U and the bus are unchanged |
| InstructionFacts.AndTwice | src/instructions.rs:90-95 | AND leaves A & m with Z from it, and AND with the same operand again changes nothing |
| InstructionFacts.EorTwice | src/instructions.rs:622-633 | EOR with the same operand twice gives A back |
| InstructionFacts.AslDoubles | src/instructions.rs:109-122 | ASL writes the doubled byte mod 256 back to the bus, with bit 7 going to C and Z and N from the result; every register, V, D, I, B, U and every other bus byte are unchanged |
| InstructionFacts.LsrHalves | src/instructions.rs:829-875 | LSR halves its operand, bit 0 goes to C, N is always clear and Z comes from the result; the accumulator form leaves the bus alone, the memory form leaves A alone and writes only `addr`; X, Y, SP, PC, V, D, I, B and U are unchanged |
| InstructionFacts.RorRotates | src/instructions.rs:935-983 | ROR moves the old C into bit 7 and the old bit 0 into C; N is the old C and Z comes from the result; the accumulator form leaves the bus alone, the memory form leaves A alone and writes only `addr`; X, Y, SP, PC, V, D, I, B and U are unchanged |
| InstructionFacts.IncThenDec | src/instructions.rs:551-658 | INC then DEC at the same address restores the bus |
| InstructionFacts.DecThenInc | src/instructions.rs:551-658 | DEC then INC at the same address restores the bus |
| InstructionFacts.IndexRegistersStep | src/instructions.rs:577-702 | INX/DEX and INY/DEY step X and Y by one mod 256 and undo each other |
| InstructionFacts.FlagInstructions | src/instructions.rs:403-450 | each of CLC, CLD, CLI, CLV, SEC, SED and SEI changes exactly its own flag, to clear or set |
| InstructionFacts.BranchEncoding | src/instructions.rs:139-394 | the opcodes xxy10000 are the eight branches, relative with 2 base cycles; a branch is taken iff flag xx equals y; taken, PC becomes the target at 1 extra cycle, 2 across a page; not taken, nothing changes |
| InstructionFacts.StoresWriteOnly | src/instructions.rs:1151-1187 | STA, STX and STY write their register at the address and change no other byte, no register and no flag |
| InstructionFacts.LoadsAndTransfersCopy | src/instructions.rs:754-1320 | each load or transfer copies one value into its destination register only; Z and N come from the value, except that TXS leaves the flags alone |
| InstructionFacts.NopDoesNothing | src/instructions.rs:884-887 | NOP leaves the state unchanged and takes no extra cycle |
| InstructionFacts.ExtraCycles | src/instructions.rs:27-1320 | a handler returns at most 2 extra cycles, only ADC and the branches return any, ADC exactly 1 in decimal mode, and no handler touches the cycle counter |
| InstructionFacts.StraightLineKeepsPc | src/instructions.rs:27-1320 | every handler other than the branches, jumps, returns and BRK leaves PC alone, and all but TXS leave SP alone |
| Engine.Step | src/cpu.rs:97-121 | the new state and result are `Next` of the old state: fetch, decode, resolve, run the handler, add base + mode + handler cycles |
| Engine.Run | src/cpu.rs:110-116 | running the handler and counting cycles is `Dispatch` |
| Engine.UnmappedOpcodeFails | src/cpu.rs:117-120 | an unmapped opcode fails with that opcode after PC has advanced by 1, and adds no cycles |
| Engine.StubOpcodeFails | src/instructions.rs:889-923 | a stub opcode fails with the byte at the effective address, leaves the bus alone and adds no cycles |
| Engine.StepCycles | src/cpu.rs:100-116 | a completed step takes between the base cycles and 2 more, 2 to 9 in all, and adds exactly that to the counter |
| Engine.StraightLineAdvancesPc | src/cpu.rs:97-116 | a straight-line instruction completes, with PC advanced by 1 plus its operand length, mod 2^16 |
| Engine.AslAccumulatorShiftsAddressZero | src/cpu.rs:313 | opcode 0x0A doubles bus byte 0 mod 256 with bit 7 into C, leaves A alone and takes 2 cycles |
| LegacyCpu.FlagsMatchPackedStatus | src/lib.rs:27-57 | the eight flag constants are the single bits 1 << 0 up to 1 << 7 from Carry to Negative, rising strictly; each one masks out exactly its flag of the later design's packed byte (src/registers.rs:102-111), and the reset status 0x24 unpacks to the later fresh flags with I set |
| LegacyCpu.ResetStatus | src/lib.rs:80 | `None \| Unused \| InterruptDisable` is 0x24: U and I set, every other flag clear |
| LegacyCpu.WordAt | src/lib.rs:89-93 | the word's low half is the byte at the address and its high half the byte after it |
| LegacyCpu.Cpu.constructor | src/lib.rs:61-71 | all registers 0, status None, and 65,536 zero bytes of memory |
| LegacyCpu.Cpu.ReadU16 | src/lib.rs:89-93 | little-endian word at the address; the address must be below 0xFFFF |
| LegacyCpu.Cpu.Write | src/lib.rs:96-98 | after a write, reading the address gives the value and no other byte has changed |
| LegacyCpu.Cpu.Reset | src/lib.rs:74-81 | A, X, Y are 0, SP is 0xFD, PC is the word at the reset vector and status is 0x24; memory is unchanged |
| LegacyAddressing.AddressingMode.Execute | src/addressing.rs:44-143 | the new registers and the extra-cycle flag are `Effect` of the old registers over the unchanged memory |
| LegacyAddressing.ExecuteAbsolute | src/addressing.rs:47-52 | the Absolute arm is `Effect(Absolute)` |
| LegacyAddressing.ExecuteAbsoluteIndexed | src/addressing.rs:53-74 | the AbsoluteX and AbsoluteY arms are `Effect` of their mode |
| LegacyAddressing.ExecuteIndirect | src/addressing.rs:84-97 | the Indirect arm is `Effect(Indirect)` |
| LegacyAddressing.ExecuteZeroPagePointer | src/addressing.rs:98-118 | the IndexedIndirect and IndirectIndexed arms are `Effect` of their mode |
| LegacyAddressing.ExecuteByteOperand | src/addressing.rs:119-141 | the Relative and zero-page arms are `Effect` of their mode |
| LegacyAddressingFacts.OnlyScratchFieldsChange | src/addressing.rs:44-143 | PC advances by the operand length without wrapping; only `addr_abs`, `addr_rel` (Relative only) and `fetched_data` (Implied only) change besides |
| LegacyAddressingFacts.ExtraCycleOnPageCross | src/addressing.rs:53-74 | AbsoluteX/Y add the index to the base word and return true iff the high bytes differ; only they can return true |
| LegacyAddressingFacts.ZeroPageStaysInPageZero | src/addressing.rs:127-141 | the zero-page arms give (operand + index) mod 256, below 0x100, and return false |
| LegacyAddressingFacts.OperandFreeModes | src/addressing.rs:46-83 | Immediate sets `addr_abs` to PC and advances PC by 1; Implied copies A into `fetched_data`; None changes nothing; all return false |
| LegacyAddressingFacts.IndirectPageBug | src/addressing.rs:84-97 | a pointer with low byte 0xFF takes its high byte from the start of its page |
| LegacyAddressingFacts.RelativeSignExtends | src/addressing.rs:119-126 | `addr_rel` is the offset sign-extended to 16 bits, the signed offset mod 2^16, and the arm returns false |
| LegacyAddressingFacts.IndirectIndexedIgnoresY | src/addressing.rs:106-118 | as written, the address is the pointer word without Y and the arm returns false; with Y = 1 and pointer 0x10 holding 0x1234 the address is 0x1234 |
| LegacyAddressingFacts.IndexedIndirectLeavesPageZero | src/addressing.rs:98-105 | as written, the pointer is operand + X without wrapping; operand 0xFF with X = 1 reads 0x0100 and 0x0101 |

## Left out

- The bus is modelled as a plain 64 KiB memory, as the repository's test bus is. `src/bus.rs` is only a trait, so devices and read side effects are not modelled.
- Panic messages and the `Display` implementation of the earlier addressing modes are not modelled. A panic becomes the `Fail` result of `Step`.
- The `HashMap` behind the dispatch table is modelled as a pure function from opcode to entry; `map_opcode` is the table itself.
- Engine.Step: it is a module-level method taking the CPU rather than a method of `CPU`, because `step` needs the handlers and the handlers need the CPU.
- The cycle counter is unbounded (`nat`) rather than a `u64`, so its wrap-around after 2^64 cycles is not modelled.
- Instructions.Sbc: the binary path's `u16` subtraction wraps mod 2^16, as a release build does. A debug build panics there instead, and that panic is not modelled.
- LegacyCpu.Cpu.ReadU16: the source's `address + 1` does not wrap, so address 0xFFFF is excluded by a precondition rather than modelled as a panic.
- LegacyAddressing.AddressingMode.Execute: the source's non-wrapping `+` on PC and on the absolute, X and Y address sums is excluded by a precondition (`InRange`) rather than modelled as a panic.
- LegacyCpu.Cpu.Reset: the `RESET_VECTOR` constant belongs to a module that is not part of this model, so it is a parameter.
- The scratch fields `addr_abs`, `addr_rel` and `fetched_data` are added to the earlier `Cpu`, which lacks them. The constructor sets them to 0.
- Opcodes the table does not map (the 6502's undocumented instructions) are not given any meaning; `Step` fails on them, as the source does.

## Findings

| source | as written | input that shows it | evidently intended | confidence | as-written member | corrected member |
|---|---|---|---|---|---|---|
| src/addressing.rs:106-118 | IndirectIndexed sets `addr_abs` to the zero-page pointer word and never adds Y, so its page-cross test compares the page with itself | Y = 1, operand 0x10, memory 0x10/0x11 = 0x34/0x12: the address is 0x1234, not 0x1235 | the address is the pointer word plus Y, with a penalty when that crosses a page, as the later `indirect_y` does | not executed | LegacyAddressingFacts.IndirectIndexedIgnoresY | AddressingModeFacts.IndirectYPenalty |
| src/addressing.rs:98-105 | IndexedIndirect reads its pointer at operand + X and operand + X + 1 without wrapping within page zero | operand 0xFF, X = 1: the pointer is read from 0x0100 and 0x0101, outside page zero | the pointer is read at (operand + X) mod 256 and the following byte mod 256, as the later `indirect_x` does | not executed | LegacyAddressingFacts.IndexedIndirectLeavesPageZero | AddressingModeFacts.IndirectXPointerInPageZero |
