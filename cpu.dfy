/** The execution engine of the primary design (src/cpu.rs): the CPU state,
    fetching, the stack, flag updates, branching, interrupts, reset and the
    opcode dispatch table. The `step` function itself is in module Engine,
    which can see the addressing modes and the instruction handlers. */
module Cpu {
  import opened Bits
  import opened RegisterFile

  datatype Option<T> = None | Some(value: T)

  /** The bus, a total 64 KiB memory as the test bus is: `read` returns the
      last byte written at an address and has no side effects. */
  const MemorySize: int := 0x10000
  type Memory = m: seq<u8> | |m| == MemorySize witness seq(MemorySize, _ => 0)

  /** `bus.read(addr)`. */
  function Read(mem: Memory, addr: u16): u8 {
    mem[addr as int]
  }

  /** `bus.write(addr, value)`. */
  function Write(mem: Memory, addr: u16, value: u8): (m: Memory)
    ensures Read(m, addr) == value
    ensures forall i | 0 <= i < MemorySize && i != addr as int :: m[i] == mem[i]
  {
    mem[addr as int := value]
  }

  /** The bus address of stack slot `sp`, `0x0100 + sp as u16`: always in page one. */
  function StackAddress(sp: u8): (addr: u16)
    ensures 0x0100 <= addr <= 0x01FF
    ensures Hi(addr) == 0x01 && Lo(addr) == sp
  {
    (0x0100 + sp as int) as u16
  }

  /** The little-endian word stored at page-zero address `ptr`; the high byte
      comes from `ptr.wrapping_add(1)`, so it never leaves page zero. */
  function ZeroPageWord(mem: Memory, ptr: u8): u16 {
    var lo := Read(mem, ptr as u16);
    var hi := Read(mem, Add8(ptr, 1) as u16);
    Word(lo, hi)
  }

  /** The state of a `CPU` as a value: registers, bus contents and the cycle
      counter. Its member functions give the meaning of the `CPU` methods of
      the same names. */
  datatype State = State(registers: Registers, mem: Memory, cycles: nat)
  {
    /** `fetch_byte`: the byte at PC, and PC moved on by one (wrapping). */
    function FetchByte(): (State, u8) {
      (this.(registers := registers.(pc := Add16(registers.pc, 1))), Read(mem, registers.pc))
    }

    /** `fetch_word`: two `fetch_byte`s, low byte first. */
    function FetchWord(): (State, u16) {
      var (s1, lo) := FetchByte();
      var (s2, hi) := s1.FetchByte();
      (s2, Word(lo, hi))
    }

    /** `stack_push`: write at the current slot, then SP goes down by one (wrapping). */
    function StackPush(data: u8): State {
      this.(mem := Write(mem, StackAddress(registers.sp), data),
            registers := registers.(sp := Sub8(registers.sp, 1)))
    }

    /** `stack_pop`: SP goes up by one (wrapping), then the byte at the new slot is read. */
    function StackPop(): (State, u8) {
      var sp := Add8(registers.sp, 1);
      (this.(registers := registers.(sp := sp)), Read(mem, StackAddress(sp)))
    }

    /** `update_zero_and_negative_flags`: Z from `result == 0`, N from bit 7 of `result`. */
    function UpdateZeroAndNegativeFlags(result: u8): State {
      this.(registers := registers.(status := registers.status.(zero := result == 0, negative := Bit7(result))))
    }

    /** `branch`: PC becomes `addr`; the penalty is 2 when the page changes, else 1. */
    function Branch(addr: u16): (State, u8) {
      var penalty: u8 := if Page(registers.pc) != Page(addr) then 2 else 1;
      (this.(registers := registers.(pc := addr)), penalty)
    }

    /** `interrupt`: an IRQ while I is set does nothing; otherwise push PC
        (high byte first) and the status byte with B clear and U set, set I
        and load PC from the NMI (0xFFFA) or IRQ (0xFFFE) vector. */
    function Interrupt(nmi: bool): State {
      if registers.status.interruptDisable && !nmi then this
      else
        var pushed := (ToByte(registers.status) & 0xEF) | 0x20;
        var s1 := StackPush(Hi(registers.pc)).StackPush(Lo(registers.pc)).StackPush(pushed as u8);
        var vector: u16 := if nmi then 0xFFFA else 0xFFFE;
        var target := Word(Read(s1.mem, vector), Read(s1.mem, vector + 1));
        s1.(registers := s1.registers.(status := s1.registers.status.(interruptDisable := true), pc := target))
    }

    /** `reset`: PC from the reset vector at 0xFFFC, SP = 0xFD, fresh flags,
        cycle count zero; A, X, Y and the bus are left alone. */
    function Reset(): State {
      var target := Word(Read(mem, 0xFFFC), Read(mem, 0xFFFD));
      this.(registers := registers.(pc := target, sp := 0xFD, status := NewStatusFlags()), cycles := 0)
    }
  }

  /** `CPU`: registers, the bus it owns and the cycle counter, updated in place. */
  class CPU {
    var registers: Registers
    var bus: Memory
    var cycles: nat

    /** The current state as a value. */
    function Snapshot(): State
      reads this
    {
      State(registers, bus, cycles)
    }

    /** `CPU::new`: default registers and a zero cycle count over the given bus. */
    constructor (bus: Memory)
      ensures Snapshot() == State(NewRegisters(), bus, 0)
    {
      registers := NewRegisters();
      this.bus := bus;
      cycles := 0;
    }

    /** `cycles()`: the number of cycles counted since the last reset. */
    function Cycles(): (n: nat)
      reads this
      ensures n == Snapshot().cycles
    {
      cycles
    }

    method Reset()
      modifies this
      ensures Snapshot() == old(Snapshot()).Reset()
    {
      var lo := Read(bus, 0xFFFC);
      var hi := Read(bus, 0xFFFD);
      registers := registers.(pc := Word(lo, hi));
      registers := registers.(sp := 0xFD);
      registers := registers.(status := NewStatusFlags());
      cycles := 0;
    }

    method FetchByte() returns (byte: u8)
      modifies this
      ensures var (next, b) := old(Snapshot()).FetchByte(); Snapshot() == next && byte == b
    {
      byte := Read(bus, registers.pc);
      registers := registers.(pc := Add16(registers.pc, 1));
    }

    method FetchWord() returns (word: u16)
      modifies this
      ensures var (next, w) := old(Snapshot()).FetchWord(); Snapshot() == next && word == w
    {
      var lo := FetchByte();
      var hi := FetchByte();
      word := Word(lo, hi);
    }

    method StackPush(data: u8)
      modifies this
      ensures Snapshot() == old(Snapshot()).StackPush(data)
    {
      bus := Write(bus, StackAddress(registers.sp), data);
      registers := registers.(sp := Sub8(registers.sp, 1));
    }

    method StackPop() returns (data: u8)
      modifies this
      ensures var (next, b) := old(Snapshot()).StackPop(); Snapshot() == next && data == b
    {
      registers := registers.(sp := Add8(registers.sp, 1));
      data := Read(bus, StackAddress(registers.sp));
    }

    method UpdateZeroAndNegativeFlags(result: u8)
      modifies this
      ensures Snapshot() == old(Snapshot()).UpdateZeroAndNegativeFlags(result)
    {
      registers := registers.(status := registers.status.(zero := result == 0));
      registers := registers.(status := registers.status.(negative := Bit7(result)));
    }

    method Branch(addr: u16) returns (penalty: u8)
      modifies this
      ensures var (next, p) := old(Snapshot()).Branch(addr); Snapshot() == next && penalty == p
    {
      var oldPc := registers.pc;
      registers := registers.(pc := addr);
      var pageCross := Page(oldPc) != Page(addr);
      if pageCross {
        penalty := 2;
      } else {
        penalty := 1;
      }
    }

    method Interrupt(nmi: bool)
      modifies this
      ensures Snapshot() == old(Snapshot()).Interrupt(nmi)
    {
      if registers.status.interruptDisable && !nmi {
        return;
      }
      StackPush(Hi(registers.pc));
      StackPush(Lo(registers.pc));
      var status := ToByte(registers.status);
      status := status & 0xEF;
      status := status | 0x20;
      StackPush(status as u8);
      registers := registers.(status := registers.status.(interruptDisable := true));
      var vectorAddress: u16 := if nmi then 0xFFFA else 0xFFFE;
      var lo := Read(bus, vectorAddress);
      var hi := Read(bus, vectorAddress + 1);
      registers := registers.(pc := Word(lo, hi));
    }

    /** `irq`: a maskable interrupt request. */
    method Irq()
      modifies this
      ensures Snapshot() == old(Snapshot()).Interrupt(false)
    {
      Interrupt(false);
    }

    /** `nmi`: a non-maskable interrupt. */
    method Nmi()
      modifies this
      ensures Snapshot() == old(Snapshot()).Interrupt(true)
    {
      Interrupt(true);
    }
  }

  /** `fetch_byte` returns the byte at PC, moves PC on by one (0xFFFF wraps
      to 0x0000) and changes nothing else. */
  lemma FetchByteReadsAtPc(s: State)
    ensures var (next, b) := s.FetchByte();
      && b == Read(s.mem, s.registers.pc)
      && next.registers.pc as int == (s.registers.pc as int + 1) % 0x10000
      && next.registers.(pc := s.registers.pc) == s.registers
      && next.mem == s.mem && next.cycles == s.cycles
  {
  }

  /** `fetch_word` is little-endian: the low byte of the word is the byte at PC,
      the high byte the one after it, and PC moves on by two. */
  lemma FetchWordLittleEndian(s: State)
    ensures var (next, w) := s.FetchWord();
      && Lo(w) == Read(s.mem, s.registers.pc)
      && Hi(w) == Read(s.mem, Add16(s.registers.pc, 1))
      && next.registers.pc as int == (s.registers.pc as int + 2) % 0x10000
      && next.registers.(pc := s.registers.pc) == s.registers
      && next.mem == s.mem && next.cycles == s.cycles
  {
  }

  /** A push followed by a pop returns the pushed byte and restores SP; the
      only trace left is the byte in the stack slot. */
  lemma PushThenPop(s: State, data: u8)
    ensures var (next, b) := s.StackPush(data).StackPop();
      && b == data
      && next.registers == s.registers
      && next.mem == Write(s.mem, StackAddress(s.registers.sp), data)
      && next.cycles == s.cycles
  {
  }

  /** A pop followed by pushing the popped byte back gives the original state. */
  lemma PopThenPushBack(s: State)
    ensures var (next, b) := s.StackPop(); next.StackPush(b) == s
  {
    var (next, b) := s.StackPop();
    var addr := StackAddress(next.registers.sp);
    assert Write(next.mem, addr, b) == s.mem;
  }

  /** `update_zero_and_negative_flags` changes only bits 1 (Z) and 7 (N) of the
      packed status: Z is set exactly when the result is zero and N is bit 7
      of the result. */
  lemma ZeroAndNegativeOnly(s: State, result: u8)
    ensures var next := s.UpdateZeroAndNegativeFlags(result);
      var before := ToByte(s.registers.status);
      var after := ToByte(next.registers.status);
      && (forall k | 0 <= k < 8 && k != 1 && k != 7 :: BitSet(after, k) == BitSet(before, k))
      && (BitSet(after, 1) <==> result == 0)
      && (BitSet(after, 7) <==> Bit7(result))
      && next.registers.(status := s.registers.status) == s.registers
      && next.mem == s.mem && next.cycles == s.cycles
  {
  }

  /** `branch` moves PC to the target and costs 2 cycles when the target's high
      byte differs from the current PC's, 1 otherwise. */
  lemma BranchPenalty(s: State, addr: u16)
    ensures var (next, penalty) := s.Branch(addr);
      && next.registers == s.registers.(pc := addr)
      && next.mem == s.mem && next.cycles == s.cycles
      && (penalty == 2 <==> Hi(s.registers.pc) != Hi(addr))
      && (penalty == 1 <==> Hi(s.registers.pc) == Hi(addr))
  {
  }

  /** `reset` loads PC little-endian from 0xFFFC/0xFFFD, sets SP to 0xFD and
      the status byte to 0x20, zeroes the cycle count, and keeps A, X, Y and
      the bus. */
  lemma ResetEffects(s: State)
    ensures var next := s.Reset();
      && Lo(next.registers.pc) == Read(s.mem, 0xFFFC)
      && Hi(next.registers.pc) == Read(s.mem, 0xFFFD)
      && next.registers.sp == 0xFD
      && ToByte(next.registers.status) == 0x20
      && next.cycles == 0
      && next.registers.a == s.registers.a && next.registers.x == s.registers.x
      && next.registers.y == s.registers.y
      && next.mem == s.mem
  {
  }

  /** An IRQ while I is set is ignored entirely. */
  lemma MaskedIrqIgnored(s: State)
    requires s.registers.status.interruptDisable
    ensures s.Interrupt(false) == s
  {
  }

  /** An NMI, or an IRQ while I is clear, pushes PC high, PC low and the status
      byte with B clear and U set in three consecutive stack slots going down,
      lowers SP by three, sets I, takes PC from the vector, and leaves every
      other register, every other flag and the cycle count alone. */
  lemma InterruptEntry(s: State, nmi: bool)
    requires nmi || !s.registers.status.interruptDisable
    ensures var next := s.Interrupt(nmi);
      var sp := s.registers.sp;
      var vector: u16 := if nmi then 0xFFFA else 0xFFFE;
      && Read(next.mem, StackAddress(sp)) == Hi(s.registers.pc)
      && Read(next.mem, StackAddress(Sub8(sp, 1))) == Lo(s.registers.pc)
      && Read(next.mem, StackAddress(Sub8(sp, 2)))
         == ToByte(s.registers.status.(breakMode := false, unused := true)) as u8
      && next.registers.sp as int == (sp as int - 3) % 0x100
      && next.registers.pc == Word(Read(s.mem, vector), Read(s.mem, vector + 1))
      && next.registers.status == s.registers.status.(interruptDisable := true)
      && next.registers.a == s.registers.a && next.registers.x == s.registers.x
      && next.registers.y == s.registers.y
      && next.cycles == s.cycles
  {
    var sp := s.registers.sp;
    var pushed := (ToByte(s.registers.status) & 0xEF) | 0x20;
    InterruptStatusByte(s.registers.status);
    var s3 := s.StackPush(Hi(s.registers.pc)).StackPush(Lo(s.registers.pc)).StackPush(pushed as u8);
    ThreePushes(s, Hi(s.registers.pc), Lo(s.registers.pc), pushed as u8);
    var vector: u16 := if nmi then 0xFFFA else 0xFFFE;
    assert Read(s3.mem, vector) == Read(s.mem, vector);
    assert Read(s3.mem, vector + 1) == Read(s.mem, vector + 1);
  }

  /** Three pushes fill three consecutive stack slots going down, lower SP by
      three and leave the bus outside page one alone. */
  lemma ThreePushes(s: State, first: u8, second: u8, third: u8)
    ensures var next := s.StackPush(first).StackPush(second).StackPush(third);
      var sp := s.registers.sp;
      && Read(next.mem, StackAddress(sp)) == first
      && Read(next.mem, StackAddress(Sub8(sp, 1))) == second
      && Read(next.mem, StackAddress(Sub8(sp, 2))) == third
      && next.registers == s.registers.(sp := Sub8(sp, 3))
      && next.cycles == s.cycles
      && forall i | 0x0200 <= i < MemorySize :: next.mem[i] == s.mem[i]
  {
    var sp := s.registers.sp;
    StackSlotsDistinct(sp);
    assert Sub8(Sub8(sp, 1), 1) == Sub8(sp, 2);
    assert Sub8(Sub8(sp, 2), 1) == Sub8(sp, 3);
  }

  /** Three consecutive stack slots are three different bus addresses, none of
      them an interrupt vector. */
  lemma StackSlotsDistinct(sp: u8)
    ensures StackAddress(sp) != StackAddress(Sub8(sp, 1))
    ensures StackAddress(sp) != StackAddress(Sub8(sp, 2))
    ensures StackAddress(Sub8(sp, 1)) != StackAddress(Sub8(sp, 2))
  {
  }

  /** The byte `interrupt` pushes, `to_byte()` with bit 4 cleared and bit 5
      set, is the packed form of the flags with B clear and U set. */
  lemma InterruptStatusByte(f: StatusFlags)
    ensures (ToByte(f) & 0xEF) | 0x20 == ToByte(f.(breakMode := false, unused := true))
  {
  }

  /** The instruction handlers, one per handler function of src/instructions.rs.
      `Rol` stands for the handler that the ROL opcodes name. */
  datatype Op =
    | Adc | And | Asl | Bcc | Bcs | Beq | Bit | Bmi | Bne | Bpl | Brk | Bvc | Bvs
    | Clc | Cld | Cli | Clv | Cmp | Cpx | Cpy | Dec | Dex | Dey | Eor | Inc | Inx | Iny
    | Jmp | Jsr | Lda | Ldx | Ldy | LsrAccumulator | LsrMemory | Nop
    | Ora | Pha | Php | Pla | Plp | Rol | RorAccumulator | RorMemory | Rti | Rts
    | Sbc | Sec | Sed | Sei | Sta | Stx | Sty | Tax | Tay | Tsx | Txa | Txs | Tya
  {
    /** The handlers that only abort: ORA, PHA, PHP, PLA, PLP and ROL. */
    predicate IsStub() {
      Ora? || Pha? || Php? || Pla? || Plp? || Rol?
    }
  }

  /** The thirteen addressing mode functions of src/addressing_modes.rs. */
  datatype Mode =
    | Accumulator | Absolute | AbsoluteX | AbsoluteY | Immediate | Implied | Indirect
    | IndirectX | IndirectY | Relative | ZeroPage | ZeroPageX | ZeroPageY

  /** `DecodedInstruction`: handler, addressing mode and base cycle count. */
  datatype Entry = Entry(op: Op, mode: Mode, cycles: u8)

  /** The dispatch table that `init_instruction_table` fills through
      `map_opcode`: the entry for each opcode it maps, None for every other
      byte. It is laid out as the 6502 opcode matrix, one function per high
      nibble, each indexed by the low nibble. */
  function InstructionTable(opcode: u8): (r: Option<Entry>)
    ensures r.Some? ==> WellFormed(r.value)
  {
    var low := opcode % 0x10;
    match opcode / 0x10
    case 0x0 => Row0(low)
    case 0x1 => Row1(low)
    case 0x2 => Row2(low)
    case 0x3 => Row3(low)
    case 0x4 => Row4(low)
    case 0x5 => Row5(low)
    case 0x6 => Row6(low)
    case 0x7 => Row7(low)
    case 0x8 => Row8(low)
    case 0x9 => Row9(low)
    case 0xA => RowA(low)
    case 0xB => RowB(low)
    case 0xC => RowC(low)
    case 0xD => RowD(low)
    case 0xE => RowE(low)
    case _ => RowF(low)
  }

  /** What every table entry satisfies: a base cycle count of 2 to 7, branch
      handlers exactly with the relative mode, the accumulator forms of LSR
      and ROR with the accumulator mode and their memory forms without it. */
  predicate WellFormed(e: Entry) {
    && 2 <= e.cycles <= 7
    && (e.op in {Op.Bcc, Op.Bcs, Op.Beq, Op.Bmi, Op.Bne, Op.Bpl, Op.Bvc, Op.Bvs} <==> e.mode == Mode.Relative)
    && (e.op in {Op.LsrAccumulator, Op.RorAccumulator} ==> e.mode == Mode.Accumulator)
    && (e.op in {Op.LsrMemory, Op.RorMemory} ==> e.mode != Mode.Accumulator)
  }

  /** Opcodes 0x00 to 0x0F. */
  function Row0(low: u8): (r: Option<Entry>)
    ensures r.Some? ==> WellFormed(r.value)
  {
    match low
    case 0x0 => Some(Entry(Op.Brk, Mode.Implied, 7))
    case 0x1 => Some(Entry(Op.Ora, Mode.IndirectX, 6))
    case 0x5 => Some(Entry(Op.Ora, Mode.ZeroPage, 3))
    case 0x6 => Some(Entry(Op.Asl, Mode.ZeroPage, 5))
    case 0x8 => Some(Entry(Op.Php, Mode.Implied, 3))
    case 0x9 => Some(Entry(Op.Ora, Mode.Immediate, 2))
    case 0xA => Some(Entry(Op.Asl, Mode.Accumulator, 2))
    case 0xD => Some(Entry(Op.Ora, Mode.Absolute, 4))
    case 0xE => Some(Entry(Op.Asl, Mode.Absolute, 6))
    case _ => None
  }

  /** Opcodes 0x10 to 0x1F. */
  function Row1(low: u8): (r: Option<Entry>)
    ensures r.Some? ==> WellFormed(r.value)
  {
    match low
    case 0x0 => Some(Entry(Op.Bpl, Mode.Relative, 2))
    case 0x1 => Some(Entry(Op.Ora, Mode.IndirectY, 5))
    case 0x5 => Some(Entry(Op.Ora, Mode.ZeroPageX, 4))
    case 0x6 => Some(Entry(Op.Asl, Mode.ZeroPageX, 6))
    case 0x8 => Some(Entry(Op.Clc, Mode.Implied, 2))
    case 0x9 => Some(Entry(Op.Ora, Mode.AbsoluteY, 4))
    case 0xD => Some(Entry(Op.Ora, Mode.AbsoluteX, 4))
    case 0xE => Some(Entry(Op.Asl, Mode.AbsoluteX, 7))
    case _ => None
  }

  /** Opcodes 0x20 to 0x2F. */
  function Row2(low: u8): (r: Option<Entry>)
    ensures r.Some? ==> WellFormed(r.value)
  {
    match low
    case 0x0 => Some(Entry(Op.Jsr, Mode.Absolute, 6))
    case 0x1 => Some(Entry(Op.And, Mode.IndirectX, 6))
    case 0x4 => Some(Entry(Op.Bit, Mode.ZeroPage, 3))
    case 0x5 => Some(Entry(Op.And, Mode.ZeroPage, 3))
    case 0x6 => Some(Entry(Op.Rol, Mode.ZeroPage, 5))
    case 0x8 => Some(Entry(Op.Plp, Mode.Implied, 4))
    case 0x9 => Some(Entry(Op.And, Mode.Immediate, 2))
    case 0xA => Some(Entry(Op.Rol, Mode.Accumulator, 2))
    case 0xC => Some(Entry(Op.Bit, Mode.Absolute, 4))
    case 0xD => Some(Entry(Op.And, Mode.Absolute, 4))
    case 0xE => Some(Entry(Op.Rol, Mode.Absolute, 6))
    case _ => None
  }

  /** Opcodes 0x30 to 0x3F. */
  function Row3(low: u8): (r: Option<Entry>)
    ensures r.Some? ==> WellFormed(r.value)
  {
    match low
    case 0x0 => Some(Entry(Op.Bmi, Mode.Relative, 2))
    case 0x1 => Some(Entry(Op.And, Mode.IndirectY, 5))
    case 0x5 => Some(Entry(Op.And, Mode.ZeroPageX, 4))
    case 0x6 => Some(Entry(Op.Rol, Mode.ZeroPageX, 6))
    case 0x8 => Some(Entry(Op.Sec, Mode.Implied, 2))
    case 0x9 => Some(Entry(Op.And, Mode.AbsoluteY, 4))
    case 0xD => Some(Entry(Op.And, Mode.AbsoluteX, 4))
    case 0xE => Some(Entry(Op.Rol, Mode.AbsoluteX, 7))
    case _ => None
  }

  /** Opcodes 0x40 to 0x4F. */
  function Row4(low: u8): (r: Option<Entry>)
    ensures r.Some? ==> WellFormed(r.value)
  {
    match low
    case 0x0 => Some(Entry(Op.Rti, Mode.Implied, 6))
    case 0x1 => Some(Entry(Op.Eor, Mode.IndirectX, 6))
    case 0x5 => Some(Entry(Op.Eor, Mode.ZeroPage, 3))
    case 0x6 => Some(Entry(Op.LsrMemory, Mode.ZeroPage, 5))
    case 0x8 => Some(Entry(Op.Pha, Mode.Implied, 3))
    case 0x9 => Some(Entry(Op.Eor, Mode.Immediate, 2))
    case 0xA => Some(Entry(Op.LsrAccumulator, Mode.Accumulator, 2))
    case 0xC => Some(Entry(Op.Jmp, Mode.Absolute, 3))
    case 0xD => Some(Entry(Op.Eor, Mode.Absolute, 4))
    case 0xE => Some(Entry(Op.LsrMemory, Mode.Absolute, 6))
    case _ => None
  }

  /** Opcodes 0x50 to 0x5F. */
  function Row5(low: u8): (r: Option<Entry>)
    ensures r.Some? ==> WellFormed(r.value)
  {
    match low
    case 0x0 => Some(Entry(Op.Bvc, Mode.Relative, 2))
    case 0x1 => Some(Entry(Op.Eor, Mode.IndirectY, 5))
    case 0x5 => Some(Entry(Op.Eor, Mode.ZeroPageX, 4))
    case 0x6 => Some(Entry(Op.LsrMemory, Mode.ZeroPageX, 6))
    case 0x8 => Some(Entry(Op.Cli, Mode.Implied, 2))
    case 0x9 => Some(Entry(Op.Eor, Mode.AbsoluteY, 4))
    case 0xD => Some(Entry(Op.Eor, Mode.AbsoluteX, 4))
    case 0xE => Some(Entry(Op.LsrMemory, Mode.AbsoluteX, 7))
    case _ => None
  }

  /** Opcodes 0x60 to 0x6F. */
  function Row6(low: u8): (r: Option<Entry>)
    ensures r.Some? ==> WellFormed(r.value)
  {
    match low
    case 0x0 => Some(Entry(Op.Rts, Mode.Implied, 6))
    case 0x1 => Some(Entry(Op.Adc, Mode.IndirectX, 6))
    case 0x5 => Some(Entry(Op.Adc, Mode.ZeroPage, 3))
    case 0x6 => Some(Entry(Op.RorMemory, Mode.ZeroPage, 5))
    case 0x8 => Some(Entry(Op.Pla, Mode.Implied, 4))
    case 0x9 => Some(Entry(Op.Adc, Mode.Immediate, 2))
    case 0xA => Some(Entry(Op.RorAccumulator, Mode.Accumulator, 2))
    case 0xC => Some(Entry(Op.Jmp, Mode.Indirect, 5))
    case 0xD => Some(Entry(Op.Adc, Mode.Absolute, 4))
    case 0xE => Some(Entry(Op.RorMemory, Mode.Absolute, 6))
    case _ => None
  }

  /** Opcodes 0x70 to 0x7F. */
  function Row7(low: u8): (r: Option<Entry>)
    ensures r.Some? ==> WellFormed(r.value)
  {
    match low
    case 0x0 => Some(Entry(Op.Bvs, Mode.Relative, 2))
    case 0x1 => Some(Entry(Op.Adc, Mode.IndirectY, 5))
    case 0x5 => Some(Entry(Op.Adc, Mode.ZeroPageX, 4))
    case 0x6 => Some(Entry(Op.RorMemory, Mode.ZeroPageX, 6))
    case 0x8 => Some(Entry(Op.Sei, Mode.Implied, 2))
    case 0x9 => Some(Entry(Op.Adc, Mode.AbsoluteY, 4))
    case 0xD => Some(Entry(Op.Adc, Mode.AbsoluteX, 4))
    case 0xE => Some(Entry(Op.RorMemory, Mode.AbsoluteX, 7))
    case _ => None
  }

  /** Opcodes 0x80 to 0x8F. */
  function Row8(low: u8): (r: Option<Entry>)
    ensures r.Some? ==> WellFormed(r.value)
  {
    match low
    case 0x1 => Some(Entry(Op.Sta, Mode.IndirectX, 6))
    case 0x4 => Some(Entry(Op.Sty, Mode.ZeroPage, 3))
    case 0x5 => Some(Entry(Op.Sta, Mode.ZeroPage, 3))
    case 0x6 => Some(Entry(Op.Stx, Mode.ZeroPage, 3))
    case 0x8 => Some(Entry(Op.Dey, Mode.Implied, 2))
    case 0xA => Some(Entry(Op.Txa, Mode.Implied, 2))
    case 0xC => Some(Entry(Op.Sty, Mode.Absolute, 4))
    case 0xD => Some(Entry(Op.Sta, Mode.Absolute, 4))
    case 0xE => Some(Entry(Op.Stx, Mode.Absolute, 4))
    case _ => None
  }

  /** Opcodes 0x90 to 0x9F. */
  function Row9(low: u8): (r: Option<Entry>)
    ensures r.Some? ==> WellFormed(r.value)
  {
    match low
    case 0x0 => Some(Entry(Op.Bcc, Mode.Relative, 2))
    case 0x1 => Some(Entry(Op.Sta, Mode.IndirectY, 6))
    case 0x4 => Some(Entry(Op.Sty, Mode.ZeroPageX, 4))
    case 0x5 => Some(Entry(Op.Sta, Mode.ZeroPageX, 4))
    case 0x6 => Some(Entry(Op.Stx, Mode.ZeroPageY, 4))
    case 0x8 => Some(Entry(Op.Tya, Mode.Implied, 2))
    case 0x9 => Some(Entry(Op.Sta, Mode.AbsoluteY, 5))
    case 0xA => Some(Entry(Op.Txs, Mode.Implied, 2))
    case 0xD => Some(Entry(Op.Sta, Mode.AbsoluteX, 5))
    case _ => None
  }

  /** Opcodes 0xA0 to 0xAF. */
  function RowA(low: u8): (r: Option<Entry>)
    ensures r.Some? ==> WellFormed(r.value)
  {
    match low
    case 0x0 => Some(Entry(Op.Ldy, Mode.Immediate, 2))
    case 0x1 => Some(Entry(Op.Lda, Mode.IndirectX, 6))
    case 0x2 => Some(Entry(Op.Ldx, Mode.Immediate, 2))
    case 0x4 => Some(Entry(Op.Ldy, Mode.ZeroPage, 3))
    case 0x5 => Some(Entry(Op.Lda, Mode.ZeroPage, 3))
    case 0x6 => Some(Entry(Op.Ldx, Mode.ZeroPage, 3))
    case 0x8 => Some(Entry(Op.Tay, Mode.Implied, 2))
    case 0x9 => Some(Entry(Op.Lda, Mode.Immediate, 2))
    case 0xA => Some(Entry(Op.Tax, Mode.Implied, 2))
    case 0xC => Some(Entry(Op.Ldy, Mode.Absolute, 4))
    case 0xD => Some(Entry(Op.Lda, Mode.Absolute, 4))
    case 0xE => Some(Entry(Op.Ldx, Mode.Absolute, 4))
    case _ => None
  }

  /** Opcodes 0xB0 to 0xBF. */
  function RowB(low: u8): (r: Option<Entry>)
    ensures r.Some? ==> WellFormed(r.value)
  {
    match low
    case 0x0 => Some(Entry(Op.Bcs, Mode.Relative, 2))
    case 0x1 => Some(Entry(Op.Lda, Mode.IndirectY, 5))
    case 0x4 => Some(Entry(Op.Ldy, Mode.ZeroPageX, 4))
    case 0x5 => Some(Entry(Op.Lda, Mode.ZeroPageX, 4))
    case 0x6 => Some(Entry(Op.Ldx, Mode.ZeroPageY, 4))
    case 0x8 => Some(Entry(Op.Clv, Mode.Implied, 2))
    case 0x9 => Some(Entry(Op.Lda, Mode.AbsoluteY, 4))
    case 0xA => Some(Entry(Op.Tsx, Mode.Implied, 2))
    case 0xC => Some(Entry(Op.Ldy, Mode.AbsoluteX, 4))
    case 0xD => Some(Entry(Op.Lda, Mode.AbsoluteX, 4))
    case 0xE => Some(Entry(Op.Ldx, Mode.AbsoluteY, 4))
    case _ => None
  }

  /** Opcodes 0xC0 to 0xCF. */
  function RowC(low: u8): (r: Option<Entry>)
    ensures r.Some? ==> WellFormed(r.value)
  {
    match low
    case 0x0 => Some(Entry(Op.Cpy, Mode.Immediate, 2))
    case 0x1 => Some(Entry(Op.Cmp, Mode.IndirectX, 6))
    case 0x4 => Some(Entry(Op.Cpy, Mode.ZeroPage, 3))
    case 0x5 => Some(Entry(Op.Cmp, Mode.ZeroPage, 3))
    case 0x6 => Some(Entry(Op.Dec, Mode.ZeroPage, 5))
    case 0x8 => Some(Entry(Op.Iny, Mode.Implied, 2))
    case 0x9 => Some(Entry(Op.Cmp, Mode.Immediate, 2))
    case 0xA => Some(Entry(Op.Dex, Mode.Implied, 2))
    case 0xC => Some(Entry(Op.Cpy, Mode.Absolute, 4))
    case 0xD => Some(Entry(Op.Cmp, Mode.Absolute, 4))
    case 0xE => Some(Entry(Op.Dec, Mode.Absolute, 6))
    case _ => None
  }

  /** Opcodes 0xD0 to 0xDF. */
  function RowD(low: u8): (r: Option<Entry>)
    ensures r.Some? ==> WellFormed(r.value)
  {
    match low
    case 0x0 => Some(Entry(Op.Bne, Mode.Relative, 2))
    case 0x1 => Some(Entry(Op.Cmp, Mode.IndirectY, 5))
    case 0x5 => Some(Entry(Op.Cmp, Mode.ZeroPageX, 4))
    case 0x6 => Some(Entry(Op.Dec, Mode.ZeroPageX, 6))
    case 0x8 => Some(Entry(Op.Cld, Mode.Implied, 2))
    case 0x9 => Some(Entry(Op.Cmp, Mode.AbsoluteY, 4))
    case 0xD => Some(Entry(Op.Cmp, Mode.AbsoluteX, 4))
    case 0xE => Some(Entry(Op.Dec, Mode.AbsoluteX, 7))
    case _ => None
  }

  /** Opcodes 0xE0 to 0xEF. */
  function RowE(low: u8): (r: Option<Entry>)
    ensures r.Some? ==> WellFormed(r.value)
  {
    match low
    case 0x0 => Some(Entry(Op.Cpx, Mode.Immediate, 2))
    case 0x1 => Some(Entry(Op.Sbc, Mode.IndirectX, 6))
    case 0x4 => Some(Entry(Op.Cpx, Mode.ZeroPage, 3))
    case 0x5 => Some(Entry(Op.Sbc, Mode.ZeroPage, 3))
    case 0x6 => Some(Entry(Op.Inc, Mode.ZeroPage, 5))
    case 0x8 => Some(Entry(Op.Inx, Mode.Implied, 2))
    case 0x9 => Some(Entry(Op.Sbc, Mode.Immediate, 2))
    case 0xA => Some(Entry(Op.Nop, Mode.Implied, 2))
    case 0xC => Some(Entry(Op.Cpx, Mode.Absolute, 4))
    case 0xD => Some(Entry(Op.Sbc, Mode.Absolute, 4))
    case 0xE => Some(Entry(Op.Inc, Mode.Absolute, 6))
    case _ => None
  }

  /** Opcodes 0xF0 to 0xFF. */
  function RowF(low: u8): (r: Option<Entry>)
    ensures r.Some? ==> WellFormed(r.value)
  {
    match low
    case 0x0 => Some(Entry(Op.Beq, Mode.Relative, 2))
    case 0x1 => Some(Entry(Op.Sbc, Mode.IndirectY, 5))
    case 0x5 => Some(Entry(Op.Sbc, Mode.ZeroPageX, 4))
    case 0x6 => Some(Entry(Op.Inc, Mode.ZeroPageX, 6))
    case 0x8 => Some(Entry(Op.Sed, Mode.Implied, 2))
    case 0x9 => Some(Entry(Op.Sbc, Mode.AbsoluteY, 4))
    case 0xD => Some(Entry(Op.Sbc, Mode.AbsoluteX, 4))
    case 0xE => Some(Entry(Op.Inc, Mode.AbsoluteX, 7))
    case _ => None
  }
}

/** Facts about the dispatch table. */
module DispatchTable {
  import opened Bits
  import opened Cpu

  /** Three entries as `init_instruction_table` lists them. */
  lemma TableExamples()
    ensures InstructionTable(0x00) == Some(Entry(Op.Brk, Mode.Implied, 7))
    ensures InstructionTable(0x6C) == Some(Entry(Op.Jmp, Mode.Indirect, 5))
    ensures InstructionTable(0x9D) == Some(Entry(Op.Sta, Mode.AbsoluteX, 5))
  {
  }

  /** ASL A is ASL paired with the accumulator mode, whose address is 0. */
  lemma AslAccumulatorEntry()
    ensures InstructionTable(0x0A) == Some(Entry(Op.Asl, Mode.Accumulator, 2))
  {
  }

  /** The five ROL opcodes name the ROL handler. */
  lemma RolOpcodes()
    ensures forall opcode: u8 | opcode in {0x2A, 0x26, 0x36, 0x2E, 0x3E} ::
      InstructionTable(opcode).Some? && InstructionTable(opcode).value.op == Op.Rol
  {
  }
}
