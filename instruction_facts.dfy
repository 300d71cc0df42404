/** What the instruction handlers promise, stated about module
    InstructionSemantics: round trips through the stack, the meaning of the
    arithmetic, which flags each instruction touches, and which instructions
    undo each other. */
module InstructionFacts {
  import opened Bits
  import opened RegisterFile
  import opened Cpu
  import opened Alu
  import Sem = InstructionSemantics

  // ---------------------------------------------------------------------
  // Round trips through the stack
  // ---------------------------------------------------------------------

  /** JSR followed by RTS returns to the address after JSR's operand: JSR
      pushes PC - 1 and RTS adds the 1 back. SP and every other register
      are as before; the two stack slots keep the pushed return address. */
  lemma {:induction false} JsrThenRts(s: State, target: u16, addr: u16)
    ensures var (called, _) := Sem.Jsr(s, target);
            var (returned, extra) := Sem.Rts(called, addr);
            var ret := Sub16(s.registers.pc, 1);
            && called.registers.pc == target
            && Read(called.mem, StackAddress(s.registers.sp)) == Hi(ret)
            && Read(called.mem, StackAddress(Sub8(s.registers.sp, 1))) == Lo(ret)
            && returned.registers == s.registers
            && returned.mem == called.mem
            && extra == 0
  {
    var sp := s.registers.sp;
    var ret := Sub16(s.registers.pc, 1);
    StackSlotsDistinct(sp);
    var (called, _) := Sem.Jsr(s, target);
    assert Add8(Sub8(Sub8(sp, 1), 1), 1) == Sub8(sp, 1);
    assert Add8(Sub8(sp, 1), 1) == sp;
    WordOfHalves(ret);
    SubThenAdd16(s.registers.pc, 1);
  }

  /** The byte BRK pushes, `to_byte() | 0x10 | 0x20`, is the packed form of
      the flags with B and U set. */
  lemma BreakStatusByte(f: StatusFlags)
    ensures (ToByte(f) | 0x10) | 0x20 == ToByte(f.(breakMode := true, unused := true))
  {
  }

  /** BRK skips the padding byte, pushes the high and the low byte of that
      PC and then the flags with B and U set, sets I and jumps through the
      vector at 0xFFFE. */
  lemma BrkEntry(s: State, addr: u16)
    ensures var (handler, extra) := Sem.Brk(s, addr);
            var sp := s.registers.sp;
            var pc := Add16(s.registers.pc, 1);
            && Read(handler.mem, StackAddress(sp)) == Hi(pc)
            && Read(handler.mem, StackAddress(Sub8(sp, 1))) == Lo(pc)
            && Read(handler.mem, StackAddress(Sub8(sp, 2)))
               == ToByte(s.registers.status.(breakMode := true, unused := true)) as u8
            && handler.registers.sp == Sub8(sp, 3)
            && handler.registers.pc == Word(Read(s.mem, 0xFFFE), Read(s.mem, 0xFFFF))
            && handler.registers.status == s.registers.status.(interruptDisable := true)
            && handler.registers.(sp := sp, pc := s.registers.pc, status := s.registers.status) == s.registers
            && extra == 0
  {
    var pc := Add16(s.registers.pc, 1);
    var pushed := (ToByte(s.registers.status) | 0x10) | 0x20;
    BreakStatusByte(s.registers.status);
    var s1 := s.(registers := s.registers.(pc := pc));
    ThreePushes(s1, Hi(pc), Lo(pc), pushed as u8);
    var s2 := s1.StackPush(Hi(pc)).StackPush(Lo(pc)).StackPush(pushed as u8);
    assert Read(s2.mem, 0xFFFE) == Read(s.mem, 0xFFFE);
    assert Read(s2.mem, 0xFFFF) == Read(s.mem, 0xFFFF);
  }

  /** RTI pops the status byte and unpacks it into all eight flags, then pops
      the low and the high byte of the return address; SP ends three slots
      up, and nothing else changes. */
  lemma RtiPops(h: State, addr: u16)
    ensures var (returned, extra) := Sem.Rti(h, addr);
            var sp1 := Add8(h.registers.sp, 1);
            var sp2 := Add8(sp1, 1);
            var sp3 := Add8(sp2, 1);
            && returned.registers.status == FromByte(Read(h.mem, StackAddress(sp1)) as bv8)
            && returned.registers.pc == Word(Read(h.mem, StackAddress(sp2)), Read(h.mem, StackAddress(sp3)))
            && returned.registers.(sp := h.registers.sp, pc := h.registers.pc, status := h.registers.status) == h.registers
            && returned.registers.sp == sp3
            && returned.mem == h.mem
            && extra == 0
  {
  }

  /** BRK followed by RTI resumes two bytes after the BRK opcode (BRK skips a
      padding byte) with SP, A, X and Y as before and every flag restored,
      except that B and U come back set because BRK pushed them set. */
  lemma {:induction false} BrkThenRti(s: State, addr: u16, addr2: u16)
    ensures var (handler, _) := Sem.Brk(s, addr);
            var (returned, extra) := Sem.Rti(handler, addr2);
            && handler.registers.status.interruptDisable
            && returned.registers.pc == Add16(s.registers.pc, 1)
            && returned.registers.status == s.registers.status.(breakMode := true, unused := true)
            && returned.registers.(pc := s.registers.pc, status := s.registers.status) == s.registers
            && extra == 0
  {
    var f := s.registers.status.(breakMode := true, unused := true);
    BrkEntry(s, addr);
    var (handler, _) := Sem.Brk(s, addr);
    RtiPops(handler, addr2);
    StackPopsAfterThreePushes(s.registers.sp);
    BitsOfByte(ToByte(f));
    FromByteOfToByte(f);
    WordOfHalves(Add16(s.registers.pc, 1));
  }

  /** Popping three times from SP - 3 visits the slots SP - 2, SP - 1 and SP
      and leaves SP where it was. */
  lemma StackPopsAfterThreePushes(sp: u8)
    ensures Add8(Sub8(sp, 3), 1) == Sub8(sp, 2)
    ensures Add8(Sub8(sp, 2), 1) == Sub8(sp, 1)
    ensures Add8(Sub8(sp, 1), 1) == sp
  {
  }

  /** An interrupt followed by RTI resumes at the interrupted PC with SP, A,
      X and Y as before and every flag restored, except that B comes back
      clear and U set, as the interrupt pushed them. */
  lemma {:induction false} InterruptThenRti(s: State, nmi: bool, addr: u16)
    requires nmi || !s.registers.status.interruptDisable
    ensures var (returned, extra) := Sem.Rti(s.Interrupt(nmi), addr);
            && returned.registers.pc == s.registers.pc
            && returned.registers.status == s.registers.status.(breakMode := false, unused := true)
            && returned.registers.(status := s.registers.status) == s.registers
            && extra == 0
  {
    var sp := s.registers.sp;
    var f := s.registers.status.(breakMode := false, unused := true);
    InterruptEntry(s, nmi);
    RtiPops(s.Interrupt(nmi), addr);
    assert s.Interrupt(nmi).registers.sp == Sub8(sp, 3);
    StackPopsAfterThreePushes(sp);
    BitsOfByte(ToByte(f));
    FromByteOfToByte(f);
    WordOfHalves(s.registers.pc);
  }

  // ---------------------------------------------------------------------
  // The meaning of the arithmetic
  // ---------------------------------------------------------------------

  /** Binary ADC stores `A + M + C` mod 256, carries exactly when that sum
      passes 0xFF, sets V exactly when the signed sum leaves -128..127, sets
      Z and N from the result, and touches no other flag or register. */
  lemma AdcBinary(s: State, addr: u16)
    requires !s.registers.status.decimalMode
    ensures var (next, extra) := Sem.Adc(s, addr);
            var m := Read(s.mem, addr);
            var c := CarryValue(s.registers.status.carry);
            var sum := s.registers.a as int + m as int + c;
            var r := next.registers.a;
            && r as int == sum % 0x100
            && (next.registers.status.carry <==> sum >= 0x100)
            && (next.registers.status.overflow <==> !(-0x80 <= Signed(s.registers.a) + Signed(m) + c < 0x80))
            && (next.registers.status.zero <==> r == 0)
            && (next.registers.status.negative <==> Bit7(r))
            && next.registers.status.(carry := s.registers.status.carry, overflow := s.registers.status.overflow,
                 zero := s.registers.status.zero, negative := s.registers.status.negative) == s.registers.status
            && next.registers.(a := s.registers.a, status := s.registers.status) == s.registers
            && next.mem == s.mem
            && extra == 0
  {
    BinaryAddIsSum(s.registers.a, Read(s.mem, addr), s.registers.status.carry);
  }

  /** Decimal ADC on BCD operands stores the BCD form of their decimal sum
      plus C, mod 100, carries exactly when that sum reaches 100, sets Z and
      N from the result, leaves V, I, D, B, U, the other registers and the
      bus alone and costs one extra cycle. */
  lemma AdcDecimal(s: State, addr: u16)
    requires s.registers.status.decimalMode
    requires IsBcd(s.registers.a) && IsBcd(Read(s.mem, addr))
    ensures var (next, extra) := Sem.Adc(s, addr);
            var n := BcdValue(s.registers.a) + BcdValue(Read(s.mem, addr)) + CarryValue(s.registers.status.carry);
            var r := next.registers.a;
            && IsBcd(r)
            && BcdValue(r) == n % 100
            && (next.registers.status.carry <==> n >= 100)
            && (next.registers.status.zero <==> r == 0)
            && (next.registers.status.negative <==> Bit7(r))
            && next.registers.status.(carry := s.registers.status.carry, zero := s.registers.status.zero,
                 negative := s.registers.status.negative) == s.registers.status
            && next.registers.(a := s.registers.a, status := s.registers.status) == s.registers
            && next.mem == s.mem
            && extra == 1
  {
    DecimalAddIsBcd(s.registers.a, Read(s.mem, addr), s.registers.status.carry);
  }

  /** Binary SBC stores `A - M - (1 - C)` mod 256, keeps C (no borrow)
      exactly when that difference is not negative, sets V exactly when the
      signed difference leaves -128..127, and Z and N from the result. */
  lemma SbcBinary(s: State, addr: u16)
    requires !s.registers.status.decimalMode
    ensures var (next, extra) := Sem.Sbc(s, addr);
            var m := Read(s.mem, addr);
            var borrow := 1 - CarryValue(s.registers.status.carry);
            var diff := s.registers.a as int - m as int - borrow;
            var r := next.registers.a;
            && r as int == diff % 0x100
            && (next.registers.status.carry <==> diff >= 0)
            && (next.registers.status.overflow <==> !(-0x80 <= Signed(s.registers.a) - Signed(m) - borrow < 0x80))
            && (next.registers.status.zero <==> r == 0)
            && (next.registers.status.negative <==> Bit7(r))
            && next.registers.status.(carry := s.registers.status.carry, overflow := s.registers.status.overflow,
                 zero := s.registers.status.zero, negative := s.registers.status.negative) == s.registers.status
            && next.registers.(a := s.registers.a, status := s.registers.status) == s.registers
            && next.mem == s.mem
            && extra == 0
  {
    BinarySubtractIsDifference(s.registers.a, Read(s.mem, addr), s.registers.status.carry);
  }

  /** Decimal SBC on BCD operands stores the BCD form of their decimal
      difference less the borrow, mod 100, and keeps C exactly when that
      difference is not negative; its C, Z, N and V are the ones binary SBC
      would set on the same operands, as on the NMOS 6502. */
  lemma SbcDecimal(s: State, addr: u16)
    requires s.registers.status.decimalMode
    requires IsBcd(s.registers.a) && IsBcd(Read(s.mem, addr))
    ensures var (next, extra) := Sem.Sbc(s, addr);
            var n := BcdValue(s.registers.a) - BcdValue(Read(s.mem, addr)) - (1 - CarryValue(s.registers.status.carry));
            var binary := Sem.Sbc(Sem.WithStatus(s, s.registers.status.(decimalMode := false)), addr).0;
            && IsBcd(next.registers.a)
            && BcdValue(next.registers.a) == n % 100
            && (next.registers.status.carry <==> n >= 0)
            && next.registers.status == binary.registers.status.(decimalMode := true)
            && next.registers.(a := s.registers.a, status := s.registers.status) == s.registers
            && next.mem == s.mem
            && extra == 0
  {
    var a := s.registers.a;
    var m := Read(s.mem, addr);
    var c := s.registers.status.carry;
    DecimalSubtractIsBcd(a, m, c);
    DecimalFlagsAreBinary(a, m, c);
  }

  /** CMP, CPX and CPY compare a register with memory as unsigned bytes: C
      exactly when the register is at least the operand, Z exactly when they
      are equal, N from bit 7 of their difference mod 256. Nothing but C, Z
      and N changes. */
  lemma CompareFlags(op: Op, s: State, addr: u16)
    requires op in {Op.Cmp, Op.Cpx, Op.Cpy}
    ensures var (next, extra) := Sem.Handle(op, s, addr);
            var register := if op == Op.Cmp then s.registers.a else if op == Op.Cpx then s.registers.x else s.registers.y;
            var m := Read(s.mem, addr);
            && (next.registers.status.carry <==> register >= m)
            && (next.registers.status.zero <==> register == m)
            && (next.registers.status.negative <==> (register as int - m as int) % 0x100 >= 0x80)
            && (next.registers.status.carry && !next.registers.status.zero <==> register > m)
            && next.registers.status.(carry := s.registers.status.carry, zero := s.registers.status.zero,
                 negative := s.registers.status.negative) == s.registers.status
            && next.registers.(status := s.registers.status) == s.registers
            && next.mem == s.mem
            && extra == 0
  {
  }

  /** BIT leaves A alone, sets Z exactly when A and the operand share no set
      bit, and copies the operand's bits 6 and 7, `m & 0x40` and `m & 0x80`,
      into V and N. */
  lemma BitTest(s: State, addr: u16)
    ensures var (next, extra) := Sem.Bit(s, addr);
            var m := Read(s.mem, addr);
            && (next.registers.status.zero <==> And8(s.registers.a, m) == 0)
            && (next.registers.status.overflow <==> And8(m, 0x40) != 0)
            && (next.registers.status.negative <==> And8(m, 0x80) != 0)
            && next.registers.status.(zero := s.registers.status.zero, overflow := s.registers.status.overflow,
                 negative := s.registers.status.negative) == s.registers.status
            && next.registers.(status := s.registers.status) == s.registers
            && next.mem == s.mem
            && extra == 0
  {
    MaskTests(Read(s.mem, addr));
  }

  /** AND with the same operand twice is AND once: A, the flags and
      everything else end as after the first. */
  lemma AndTwice(s: State, addr: u16)
    ensures var once := Sem.And(s, addr).0;
            && Sem.And(once, addr) == (once, 0)
            && once.registers.a == And8(s.registers.a, Read(s.mem, addr))
            && (once.registers.status.zero <==> once.registers.a == 0)
  {
    Bits.AndTwice(s.registers.a, Read(s.mem, addr));
  }

  /** EOR with the same operand twice gives A back. */
  lemma EorTwice(s: State, addr: u16)
    ensures Sem.Eor(Sem.Eor(s, addr).0, addr).0.registers.a == s.registers.a
  {
    XorTwice(s.registers.a, Read(s.mem, addr));
  }

  // ---------------------------------------------------------------------
  // Shifts and rotations
  // ---------------------------------------------------------------------

  /** ASL doubles the byte at `addr` in memory, bit 7 going to C; A is not
      touched, even for opcode 0x0A, whose accumulator mode hands it address 0. */
  lemma AslDoubles(s: State, addr: u16)
    ensures var (next, extra) := Sem.Asl(s, addr);
            var m := Read(s.mem, addr);
            var r := Read(next.mem, addr);
            && r as int + (if next.registers.status.carry then 0x100 else 0) == 2 * m as int
            && (next.registers.status.zero <==> r == 0)
            && (next.registers.status.negative <==> Bit7(r))
            && next.registers.status.(carry := s.registers.status.carry, zero := s.registers.status.zero,
                 negative := s.registers.status.negative) == s.registers.status
            && next.registers.(status := s.registers.status) == s.registers
            && (forall i | 0 <= i < MemorySize && i != addr as int :: next.mem[i] == s.mem[i])
            && extra == 0
  {
    ShiftLeftDoubles(Read(s.mem, addr));
  }

  /** LSR halves its operand, bit 0 going to C, and always clears N. The
      accumulator form leaves the bus alone and the memory form leaves A
      alone; neither touches any other register, V, D, I, B or U. */
  lemma LsrHalves(op: Op, s: State, addr: u16)
    requires op in {Op.LsrAccumulator, Op.LsrMemory}
    ensures var (next, extra) := Sem.Handle(op, s, addr);
            var m := if op == Op.LsrAccumulator then s.registers.a else Read(s.mem, addr);
            var r := if op == Op.LsrAccumulator then next.registers.a else Read(next.mem, addr);
            && 2 * r as int + (if next.registers.status.carry then 1 else 0) == m as int
            && !next.registers.status.negative
            && (next.registers.status.zero <==> r == 0)
            && next.registers.status.(carry := s.registers.status.carry, zero := s.registers.status.zero,
                 negative := s.registers.status.negative) == s.registers.status
            && next.registers.(a := s.registers.a, status := s.registers.status) == s.registers
            && (op == Op.LsrAccumulator ==> next.mem == s.mem)
            && (op == Op.LsrMemory ==> next.registers.a == s.registers.a)
            && (forall i | 0 <= i < MemorySize && i != addr as int :: next.mem[i] == s.mem[i])
            && extra == 0
  {
    if op == Op.LsrAccumulator {
      ShiftRightHalves(s.registers.a);
    } else {
      ShiftRightHalves(Read(s.mem, addr));
    }
  }

  /** ROR rotates the nine bits C:operand right by one: the old C becomes
      bit 7 (and so N), bit 0 becomes the new C. It keeps the same frame as
      LSR. */
  lemma RorRotates(op: Op, s: State, addr: u16)
    requires op in {Op.RorAccumulator, Op.RorMemory}
    ensures var (next, extra) := Sem.Handle(op, s, addr);
            var m := if op == Op.RorAccumulator then s.registers.a else Read(s.mem, addr);
            var r := if op == Op.RorAccumulator then next.registers.a else Read(next.mem, addr);
            && 2 * r as int + (if next.registers.status.carry then 1 else 0)
               == m as int + (if s.registers.status.carry then 0x100 else 0)
            && (next.registers.status.negative <==> s.registers.status.carry)
            && (next.registers.status.zero <==> r == 0)
            && next.registers.status.(carry := s.registers.status.carry, zero := s.registers.status.zero,
                 negative := s.registers.status.negative) == s.registers.status
            && next.registers.(a := s.registers.a, status := s.registers.status) == s.registers
            && (op == Op.RorAccumulator ==> next.mem == s.mem)
            && (op == Op.RorMemory ==> next.registers.a == s.registers.a)
            && (forall i | 0 <= i < MemorySize && i != addr as int :: next.mem[i] == s.mem[i])
            && extra == 0
  {
    if op == Op.RorAccumulator {
      RotateRightNineBits(s.registers.a, s.registers.status.carry);
    } else {
      RotateRightNineBits(Read(s.mem, addr), s.registers.status.carry);
    }
  }

  // ---------------------------------------------------------------------
  // Increments and decrements undo each other
  // ---------------------------------------------------------------------

  /** DEC after INC on the same address gives the bus back unchanged. */
  lemma IncThenDec(s: State, addr: u16)
    ensures Sem.Dec(Sem.Inc(s, addr).0, addr).0.mem == s.mem
  {
    var m := Read(s.mem, addr);
    var mem1 := Write(s.mem, addr, Add8(m, 1));
    var mem2 := Write(mem1, addr, Sub8(Add8(m, 1), 1));
    assert mem2 == s.mem;
  }

  /** INC after DEC on the same address gives the bus back unchanged. */
  lemma DecThenInc(s: State, addr: u16)
    ensures Sem.Inc(Sem.Dec(s, addr).0, addr).0.mem == s.mem
  {
    var m := Read(s.mem, addr);
    var mem1 := Write(s.mem, addr, Sub8(m, 1));
    var mem2 := Write(mem1, addr, Add8(Sub8(m, 1), 1));
    assert mem2 == s.mem;
  }

  /** DEX undoes INX and DEY undoes INY, flags aside. */
  lemma IndexRegistersStep(s: State, addr: u16)
    ensures Sem.Dex(Sem.Inx(s, addr).0, addr).0.registers.x == s.registers.x
    ensures Sem.Dey(Sem.Iny(s, addr).0, addr).0.registers.y == s.registers.y
    ensures Sem.Inx(s, addr).0.registers.x as int == (s.registers.x as int + 1) % 0x100
    ensures Sem.Dey(s, addr).0.registers.y as int == (s.registers.y as int - 1) % 0x100
  {
  }

  // ---------------------------------------------------------------------
  // Flags, branches, loads, stores and transfers
  // ---------------------------------------------------------------------

  /** The bit of the status byte each flag instruction writes. */
  function FlagIndex(op: Op): nat
    requires op in {Op.Clc, Op.Cld, Op.Cli, Op.Clv, Op.Sec, Op.Sed, Op.Sei}
  {
    if op in {Op.Clc, Op.Sec} then 0
    else if op in {Op.Cli, Op.Sei} then 2
    else if op in {Op.Cld, Op.Sed} then 3
    else 6
  }

  /** CLC, CLD, CLI, CLV, SEC, SED and SEI each write one bit of the status
      byte, clearing it (CL*) or setting it (SE*), and change nothing else. */
  lemma FlagInstructions(op: Op, s: State, addr: u16)
    requires op in {Op.Clc, Op.Cld, Op.Cli, Op.Clv, Op.Sec, Op.Sed, Op.Sei}
    ensures var (next, extra) := Sem.Handle(op, s, addr);
            var k := FlagIndex(op);
            && FlagAt(next.registers.status, k) == (op in {Op.Sec, Op.Sed, Op.Sei})
            && (forall j | 0 <= j < 8 && j != k :: FlagAt(next.registers.status, j) == FlagAt(s.registers.status, j))
            && next.registers.(status := s.registers.status) == s.registers
            && next.mem == s.mem
            && extra == 0
  {
  }

  /** The flag a branch opcode tests is chosen by its two top bits (N, V, C,
      Z in that order) and the value it wants by bit 5. */
  function BranchFlag(opcode: u8): nat {
    var selector := opcode / 0x40;
    if selector == 0 then 7 else if selector == 1 then 6 else if selector == 2 then 0 else 1
  }

  /** The eight opcodes `xxy10000` are the branches: relative mode, two base
      cycles, and the branch is taken exactly when the flag `xx` selects
      equals `y`. A taken branch jumps to the target at one extra cycle, two
      when the page changes; otherwise nothing changes and nothing is added. */
  lemma BranchEncoding(opcode: u8, s: State, addr: u16)
    requires opcode % 0x20 == 0x10
    ensures var e := InstructionTable(opcode);
            && e.Some? && e.value.mode == Mode.Relative && e.value.cycles == 2 && !e.value.op.IsStub()
            && var (next, extra) := Sem.Handle(e.value.op, s, addr);
               if FlagAt(s.registers.status, BranchFlag(opcode)) == ((opcode / 0x20) % 2 == 1) then
                 && next == s.(registers := s.registers.(pc := addr))
                 && extra == (if Hi(s.registers.pc) != Hi(addr) then 2 else 1)
               else
                 next == s && extra == 0
  {
    SamePage(s.registers.pc, addr);
    assert opcode == 0x20 * (opcode / 0x20) + 0x10;
    if opcode < 0x40 {
      assert opcode == 0x10 || opcode == 0x30;
    } else if opcode < 0x80 {
      assert opcode == 0x50 || opcode == 0x70;
    } else if opcode < 0xC0 {
      assert opcode == 0x90 || opcode == 0xB0;
    } else {
      assert opcode == 0xD0 || opcode == 0xF0;
    }
  }

  /** STA, STX and STY write their register at `addr` and change nothing
      else: no register, no flag, no other address. */
  lemma StoresWriteOnly(op: Op, s: State, addr: u16)
    requires op in {Op.Sta, Op.Stx, Op.Sty}
    ensures var (next, extra) := Sem.Handle(op, s, addr);
            var register := if op == Op.Sta then s.registers.a else if op == Op.Stx then s.registers.x else s.registers.y;
            && Read(next.mem, addr) == register
            && (forall i | 0 <= i < MemorySize && i != addr as int :: next.mem[i] == s.mem[i])
            && next.registers == s.registers
            && extra == 0
  {
  }

  /** The registers that loads and transfers write. */
  datatype RegisterName = A | X | Y | SP

  function Get(r: Registers, name: RegisterName): u8 {
    match name
    case A => r.a
    case X => r.x
    case Y => r.y
    case SP => r.sp
  }

  /** The register each load and transfer writes. */
  function Destination(op: Op): RegisterName
    requires op in {Op.Lda, Op.Ldx, Op.Ldy, Op.Tax, Op.Tay, Op.Tsx, Op.Txa, Op.Txs, Op.Tya}
  {
    if op in {Op.Lda, Op.Txa, Op.Tya} then A
    else if op in {Op.Ldx, Op.Tax, Op.Tsx} then X
    else if op == Op.Txs then SP
    else Y
  }

  /** The value each load and transfer copies: the operand for a load, the
      source register for a transfer. */
  function Source(op: Op, s: State, addr: u16): u8
    requires op in {Op.Lda, Op.Ldx, Op.Ldy, Op.Tax, Op.Tay, Op.Tsx, Op.Txa, Op.Txs, Op.Tya}
  {
    if op in {Op.Lda, Op.Ldx, Op.Ldy} then Read(s.mem, addr)
    else if op in {Op.Tax, Op.Tay} then s.registers.a
    else if op == Op.Tsx then s.registers.sp
    else if op in {Op.Txa, Op.Txs} then s.registers.x
    else s.registers.y
  }

  /** Loads and transfers copy their source into their destination register
      and leave the other registers and the bus alone; all but TXS then set
      Z and N from the copied value, and TXS leaves every flag as it was. */
  lemma LoadsAndTransfersCopy(op: Op, s: State, addr: u16)
    requires op in {Op.Lda, Op.Ldx, Op.Ldy, Op.Tax, Op.Tay, Op.Tsx, Op.Txa, Op.Txs, Op.Tya}
    ensures var (next, extra) := Sem.Handle(op, s, addr);
            var v := Source(op, s, addr);
            && (forall name :: Get(next.registers, name) == if name == Destination(op) then v else Get(s.registers, name))
            && next.registers.pc == s.registers.pc
            && next.registers.status == (if op == Op.Txs then s.registers.status
                                         else s.registers.status.(zero := v == 0, negative := Bit7(v)))
            && next.mem == s.mem
            && extra == 0
  {
    if op.Lda? {
    } else if op.Ldx? {
    } else if op.Ldy? {
    } else if op.Tax? {
    } else if op.Tay? {
    } else if op.Tsx? {
    } else if op.Txa? {
    } else if op.Txs? {
    } else {
      assert op.Tya?;
    }
  }

  /** NOP changes nothing. */
  lemma NopDoesNothing(s: State, addr: u16)
    ensures Sem.Handle(Op.Nop, s, addr) == (s, 0)
  {
  }

  // ---------------------------------------------------------------------
  // Extra cycles
  // ---------------------------------------------------------------------

  /** Only two handlers ever add cycles: decimal-mode ADC adds one, and a
      taken branch adds one or two. Every other handler adds none, and no
      handler touches the cycle counter itself. */
  lemma ExtraCycles(op: Op, s: State, addr: u16)
    requires !op.IsStub()
    ensures var extra := Sem.Handle(op, s, addr).1;
            && extra <= 2
            && (op == Op.Adc ==> extra == (if s.registers.status.decimalMode then 1 else 0))
            && (extra > 0 ==> op == Op.Adc || op in {Op.Bcc, Op.Bcs, Op.Beq, Op.Bmi, Op.Bne, Op.Bpl, Op.Bvc, Op.Bvs})
            && Sem.Handle(op, s, addr).0.cycles == s.cycles
  {
    if op.Adc? || op.Sbc? || op.And? || op.Eor? || op.Bit? || op.Cmp? || op.Cpx? || op.Cpy? {
    } else if op.Asl? || op.LsrAccumulator? || op.LsrMemory? || op.RorAccumulator? || op.RorMemory? {
    } else if op.Dec? || op.Inc? || op.Dex? || op.Dey? || op.Inx? || op.Iny? {
    } else if op.Bcc? || op.Bcs? || op.Beq? || op.Bmi? || op.Bne? || op.Bpl? || op.Bvc? || op.Bvs? {
    } else if op.Clc? || op.Cld? || op.Cli? || op.Clv? || op.Sec? || op.Sed? || op.Sei? {
    } else if op.Lda? || op.Ldx? || op.Ldy? || op.Sta? || op.Stx? || op.Sty? {
    } else if op.Tax? || op.Tay? || op.Tsx? || op.Txa? || op.Txs? || op.Tya? || op.Nop? {
    } else {
      assert op.Brk? || op.Jmp? || op.Jsr? || op.Rti? || op.Rts?;
    }
  }

  /** The instructions that do not transfer control: every handler except
      the branches, JMP, JSR, RTS, BRK and RTI. */
  predicate StraightLine(op: Op) {
    !op.IsStub() && !(op in {Op.Bcc, Op.Bcs, Op.Beq, Op.Bmi, Op.Bne, Op.Bpl, Op.Bvc, Op.Bvs,
                             Op.Jmp, Op.Jsr, Op.Rts, Op.Brk, Op.Rti})
  }

  /** A handler that does not transfer control leaves PC and SP where the
      addressing mode left them. */
  lemma StraightLineKeepsPc(op: Op, s: State, addr: u16)
    requires StraightLine(op)
    ensures Sem.Handle(op, s, addr).0.registers.pc == s.registers.pc
    ensures op != Op.Txs ==> Sem.Handle(op, s, addr).0.registers.sp == s.registers.sp
  {
    if op.Adc? || op.Sbc? || op.And? || op.Eor? || op.Bit? || op.Cmp? || op.Cpx? || op.Cpy? {
    } else if op.Asl? || op.LsrAccumulator? || op.LsrMemory? || op.RorAccumulator? || op.RorMemory? {
    } else if op.Dec? || op.Inc? || op.Dex? || op.Dey? || op.Inx? || op.Iny? {
    } else if op.Clc? || op.Cld? || op.Cli? || op.Clv? || op.Sec? || op.Sed? || op.Sei? {
    } else if op.Lda? || op.Ldx? || op.Ldy? || op.Sta? || op.Stx? || op.Sty? {
    } else {
      assert op.Tax? || op.Tay? || op.Tsx? || op.Txa? || op.Txs? || op.Tya? || op.Nop?;
    }
  }
}
