/** What each instruction handler of src/instructions.rs does to a CPU in
    state `s`, given the effective address `addr` its addressing mode
    produced: the state it leaves and the extra cycles it returns. The
    handlers that are stubs in the source only read the byte at `addr` and
    hand it to `unimplemented_instruction`; `Execute` reports that byte. */
module InstructionSemantics {
  import opened Bits
  import opened RegisterFile
  import opened Cpu
  import opened Alu

  /** The outcome of running a handler: it finished with a state and extra
      cycles, or it was a stub and aborted with the byte it read. */
  datatype Effect = Done(next: State, extra: u8) | Unimplemented(value: u8)

  /** The handler that `op` names, run on `s` with effective address `addr`. */
  function Execute(op: Op, s: State, addr: u16): (e: Effect)
    ensures e.Unimplemented? <==> op.IsStub()
    ensures op.IsStub() ==> e.value == Read(s.mem, addr)
  {
    if op.IsStub() then Unimplemented(Read(s.mem, addr))
    else
      var (next, extra) := Handle(op, s, addr);
      Done(next, extra)
  }

  /** The handlers that are implemented. */
  function Handle(op: Op, s: State, addr: u16): (State, u8)
    requires !op.IsStub()
  {
    match op
    case Adc => Adc(s, addr)
    case And => And(s, addr)
    case Asl => Asl(s, addr)
    case Bcc => Bcc(s, addr)
    case Bcs => Bcs(s, addr)
    case Beq => Beq(s, addr)
    case Bit => Bit(s, addr)
    case Bmi => Bmi(s, addr)
    case Bne => Bne(s, addr)
    case Bpl => Bpl(s, addr)
    case Brk => Brk(s, addr)
    case Bvc => Bvc(s, addr)
    case Bvs => Bvs(s, addr)
    case Clc => Clc(s, addr)
    case Cld => Cld(s, addr)
    case Cli => Cli(s, addr)
    case Clv => Clv(s, addr)
    case Cmp => Cmp(s, addr)
    case Cpx => Cpx(s, addr)
    case Cpy => Cpy(s, addr)
    case Dec => Dec(s, addr)
    case Dex => Dex(s, addr)
    case Dey => Dey(s, addr)
    case Eor => Eor(s, addr)
    case Inc => Inc(s, addr)
    case Inx => Inx(s, addr)
    case Iny => Iny(s, addr)
    case Jmp => Jmp(s, addr)
    case Jsr => Jsr(s, addr)
    case Lda => Lda(s, addr)
    case Ldx => Ldx(s, addr)
    case Ldy => Ldy(s, addr)
    case LsrAccumulator => LsrAccumulator(s, addr)
    case LsrMemory => LsrMemory(s, addr)
    case Nop => Nop(s, addr)
    case RorAccumulator => RorAccumulator(s, addr)
    case RorMemory => RorMemory(s, addr)
    case Rti => Rti(s, addr)
    case Rts => Rts(s, addr)
    case Sbc => Sbc(s, addr)
    case Sec => Sec(s, addr)
    case Sed => Sed(s, addr)
    case Sei => Sei(s, addr)
    case Sta => Sta(s, addr)
    case Stx => Stx(s, addr)
    case Sty => Sty(s, addr)
    case Tax => Tax(s, addr)
    case Tay => Tay(s, addr)
    case Tsx => Tsx(s, addr)
    case Txa => Txa(s, addr)
    case Txs => Txs(s, addr)
    case Tya => Tya(s, addr)
    case Ora | Pha | Php | Pla | Plp | Rol => assert false; Nop(s, addr)
  }

  /** `s` with status flags `f`. */
  function WithStatus(s: State, f: StatusFlags): State {
    s.(registers := s.registers.(status := f))
  }

  // ---------------------------------------------------------------------
  // Arithmetic and logic
  // ---------------------------------------------------------------------

  /** ADC: decimal mode adds BCD digits, sets C, Z and N (V is left alone)
      and costs one extra cycle; binary mode adds with carry and sets C, Z, N and V. */
  function Adc(s: State, addr: u16): (State, u8) {
    var value := Read(s.mem, addr);
    var a := s.registers.a;
    var flags := s.registers.status;
    if flags.decimalMode then
      var (result, carry) := DecimalAdd(a, value, flags.carry);
      (s.(registers := s.registers.(a := result,
         status := flags.(carry := carry, zero := result == 0, negative := Bit7(result)))), 1)
    else
      var (result, carry) := BinaryAdd(a, value, flags.carry);
      (s.(registers := s.registers.(a := result,
         status := flags.(carry := carry, zero := result == 0, negative := Bit7(result),
                          overflow := AddOverflow(a, value, result)))), 0)
  }

  /** SBC: decimal mode sets C, Z, N and V from the raw difference and
      stores the BCD-corrected one; binary mode subtracts with borrow in
      16 bits and sets the flags from the byte it keeps. Neither costs extra. */
  function Sbc(s: State, addr: u16): (State, u8) {
    var value := Read(s.mem, addr);
    var a := s.registers.a;
    var flags := s.registers.status;
    if flags.decimalMode then
      var temp := DecimalDifference(a, value, flags.carry);
      var low := (temp % 0x100) as u8;
      var result := DecimalSubtract(a, value, flags.carry);
      (s.(registers := s.registers.(a := result,
         status := flags.(carry := temp >= 0, zero := low == 0, negative := Bit7(low),
                          overflow := SubOverflow(a, value, low)))), 0)
    else
      var temp := BinarySubtract(a, value, flags.carry);
      var result := Lo(temp);
      (s.(registers := s.registers.(a := result,
         status := flags.(carry := temp < 0x100, zero := result == 0, negative := Bit7(result),
                          overflow := SubOverflow(a, value, result)))), 0)
  }

  /** AND: `a &= value`, then Z and N from A. */
  function And(s: State, addr: u16): (State, u8) {
    var result := And8(s.registers.a, Read(s.mem, addr));
    (s.(registers := s.registers.(a := result)).UpdateZeroAndNegativeFlags(result), 0)
  }

  /** EOR: `a ^= value`, then Z and N from A. */
  function Eor(s: State, addr: u16): (State, u8) {
    var result := Xor8(s.registers.a, Read(s.mem, addr));
    (s.(registers := s.registers.(a := result)).UpdateZeroAndNegativeFlags(result), 0)
  }

  /** BIT: Z from `a & value`, V and N copied from bits 6 and 7 of the value; A is untouched. */
  function Bit(s: State, addr: u16): (State, u8) {
    var value := Read(s.mem, addr);
    var result := And8(s.registers.a, value);
    (WithStatus(s, s.registers.status.(zero := result == 0, overflow := Bit6(value), negative := Bit7(value))), 0)
  }

  /** The comparison CMP, CPX and CPY share: C when `register >= value`, Z
      when they are equal, N from bit 7 of the wrapping difference. */
  function Compare(s: State, register: u8, addr: u16): (State, u8) {
    var m := Read(s.mem, addr);
    var result := Sub8(register, m);
    (WithStatus(s, s.registers.status.(carry := register >= m, zero := register == m, negative := Bit7(result))), 0)
  }

  function Cmp(s: State, addr: u16): (State, u8) {
    Compare(s, s.registers.a, addr)
  }

  function Cpx(s: State, addr: u16): (State, u8) {
    Compare(s, s.registers.x, addr)
  }

  function Cpy(s: State, addr: u16): (State, u8) {
    Compare(s, s.registers.y, addr)
  }

  // ---------------------------------------------------------------------
  // Shifts and rotations
  // ---------------------------------------------------------------------

  /** ASL: shifts the byte at `addr` left in memory (every opcode, 0x0A
      included, goes through the address), C from the bit shifted out. */
  function Asl(s: State, addr: u16): (State, u8) {
    var value := Read(s.mem, addr);
    var result := ShiftLeft(value);
    var s1 := s.(mem := Write(s.mem, addr, result));
    (WithStatus(s1, s1.registers.status.(carry := Bit7(value))).UpdateZeroAndNegativeFlags(result), 0)
  }

  /** LSR on the accumulator. */
  function LsrAccumulator(s: State, addr: u16): (State, u8) {
    var m := s.registers.a;
    var result := ShiftRight(m);
    var s1 := s.(registers := s.registers.(status := s.registers.status.(carry := Bit0(m)), a := result));
    (s1.UpdateZeroAndNegativeFlags(result), 0)
  }

  /** LSR on the byte at `addr`. */
  function LsrMemory(s: State, addr: u16): (State, u8) {
    var m := Read(s.mem, addr);
    var result := ShiftRight(m);
    var s1 := WithStatus(s, s.registers.status.(carry := Bit0(m))).(mem := Write(s.mem, addr, result));
    (s1.UpdateZeroAndNegativeFlags(result), 0)
  }

  /** ROR on the accumulator: the old carry enters at bit 7, bit 0 becomes C. */
  function RorAccumulator(s: State, addr: u16): (State, u8) {
    var m := s.registers.a;
    var result := RotateRight(m, s.registers.status.carry);
    var s1 := s.(registers := s.registers.(status := s.registers.status.(carry := Bit0(m)), a := result));
    (s1.UpdateZeroAndNegativeFlags(result), 0)
  }

  /** ROR on the byte at `addr`. */
  function RorMemory(s: State, addr: u16): (State, u8) {
    var m := Read(s.mem, addr);
    var result := RotateRight(m, s.registers.status.carry);
    var s1 := WithStatus(s, s.registers.status.(carry := Bit0(m))).(mem := Write(s.mem, addr, result));
    (s1.UpdateZeroAndNegativeFlags(result), 0)
  }

  // ---------------------------------------------------------------------
  // Increments and decrements
  // ---------------------------------------------------------------------

  function Dec(s: State, addr: u16): (State, u8) {
    var result := Sub8(Read(s.mem, addr), 1);
    (s.(mem := Write(s.mem, addr, result)).UpdateZeroAndNegativeFlags(result), 0)
  }

  function Inc(s: State, addr: u16): (State, u8) {
    var result := Add8(Read(s.mem, addr), 1);
    (s.(mem := Write(s.mem, addr, result)).UpdateZeroAndNegativeFlags(result), 0)
  }

  function Dex(s: State, addr: u16): (State, u8) {
    var result := Sub8(s.registers.x, 1);
    (s.(registers := s.registers.(x := result)).UpdateZeroAndNegativeFlags(result), 0)
  }

  function Dey(s: State, addr: u16): (State, u8) {
    var result := Sub8(s.registers.y, 1);
    (s.(registers := s.registers.(y := result)).UpdateZeroAndNegativeFlags(result), 0)
  }

  function Inx(s: State, addr: u16): (State, u8) {
    var result := Add8(s.registers.x, 1);
    (s.(registers := s.registers.(x := result)).UpdateZeroAndNegativeFlags(result), 0)
  }

  function Iny(s: State, addr: u16): (State, u8) {
    var result := Add8(s.registers.y, 1);
    (s.(registers := s.registers.(y := result)).UpdateZeroAndNegativeFlags(result), 0)
  }

  // ---------------------------------------------------------------------
  // Branches
  // ---------------------------------------------------------------------

  /** A conditional branch: `branch(addr)` and its penalty when the
      condition holds, nothing and 0 otherwise. */
  function BranchIf(s: State, condition: bool, addr: u16): (State, u8) {
    if condition then s.Branch(addr) else (s, 0)
  }

  function Bcc(s: State, addr: u16): (State, u8) {
    BranchIf(s, !s.registers.status.carry, addr)
  }

  function Bcs(s: State, addr: u16): (State, u8) {
    BranchIf(s, s.registers.status.carry, addr)
  }

  function Beq(s: State, addr: u16): (State, u8) {
    BranchIf(s, s.registers.status.zero, addr)
  }

  function Bmi(s: State, addr: u16): (State, u8) {
    BranchIf(s, s.registers.status.negative, addr)
  }

  function Bne(s: State, addr: u16): (State, u8) {
    BranchIf(s, !s.registers.status.zero, addr)
  }

  function Bpl(s: State, addr: u16): (State, u8) {
    BranchIf(s, !s.registers.status.negative, addr)
  }

  function Bvc(s: State, addr: u16): (State, u8) {
    BranchIf(s, !s.registers.status.overflow, addr)
  }

  function Bvs(s: State, addr: u16): (State, u8) {
    BranchIf(s, s.registers.status.overflow, addr)
  }

  // ---------------------------------------------------------------------
  // Flag instructions
  // ---------------------------------------------------------------------

  function Clc(s: State, addr: u16): (State, u8) {
    (WithStatus(s, s.registers.status.(carry := false)), 0)
  }

  function Cld(s: State, addr: u16): (State, u8) {
    (WithStatus(s, s.registers.status.(decimalMode := false)), 0)
  }

  function Cli(s: State, addr: u16): (State, u8) {
    (WithStatus(s, s.registers.status.(interruptDisable := false)), 0)
  }

  function Clv(s: State, addr: u16): (State, u8) {
    (WithStatus(s, s.registers.status.(overflow := false)), 0)
  }

  function Sec(s: State, addr: u16): (State, u8) {
    (WithStatus(s, s.registers.status.(carry := true)), 0)
  }

  function Sed(s: State, addr: u16): (State, u8) {
    (WithStatus(s, s.registers.status.(decimalMode := true)), 0)
  }

  function Sei(s: State, addr: u16): (State, u8) {
    (WithStatus(s, s.registers.status.(interruptDisable := true)), 0)
  }

  // ---------------------------------------------------------------------
  // Loads, stores and transfers
  // ---------------------------------------------------------------------

  function Lda(s: State, addr: u16): (State, u8) {
    var value := Read(s.mem, addr);
    (s.(registers := s.registers.(a := value)).UpdateZeroAndNegativeFlags(value), 0)
  }

  function Ldx(s: State, addr: u16): (State, u8) {
    var value := Read(s.mem, addr);
    (s.(registers := s.registers.(x := value)).UpdateZeroAndNegativeFlags(value), 0)
  }

  function Ldy(s: State, addr: u16): (State, u8) {
    var value := Read(s.mem, addr);
    (s.(registers := s.registers.(y := value)).UpdateZeroAndNegativeFlags(value), 0)
  }

  function Sta(s: State, addr: u16): (State, u8) {
    (s.(mem := Write(s.mem, addr, s.registers.a)), 0)
  }

  function Stx(s: State, addr: u16): (State, u8) {
    (s.(mem := Write(s.mem, addr, s.registers.x)), 0)
  }

  function Sty(s: State, addr: u16): (State, u8) {
    (s.(mem := Write(s.mem, addr, s.registers.y)), 0)
  }

  function Tax(s: State, addr: u16): (State, u8) {
    (s.(registers := s.registers.(x := s.registers.a)).UpdateZeroAndNegativeFlags(s.registers.a), 0)
  }

  function Tay(s: State, addr: u16): (State, u8) {
    (s.(registers := s.registers.(y := s.registers.a)).UpdateZeroAndNegativeFlags(s.registers.a), 0)
  }

  function Tsx(s: State, addr: u16): (State, u8) {
    (s.(registers := s.registers.(x := s.registers.sp)).UpdateZeroAndNegativeFlags(s.registers.sp), 0)
  }

  function Txa(s: State, addr: u16): (State, u8) {
    (s.(registers := s.registers.(a := s.registers.x)).UpdateZeroAndNegativeFlags(s.registers.x), 0)
  }

  /** TXS: the one transfer that leaves the flags alone. */
  function Txs(s: State, addr: u16): (State, u8) {
    (s.(registers := s.registers.(sp := s.registers.x)), 0)
  }

  function Tya(s: State, addr: u16): (State, u8) {
    (s.(registers := s.registers.(a := s.registers.y)).UpdateZeroAndNegativeFlags(s.registers.y), 0)
  }

  function Nop(s: State, addr: u16): (State, u8) {
    (s, 0)
  }

  // ---------------------------------------------------------------------
  // Jumps, subroutines and interrupts
  // ---------------------------------------------------------------------

  function Jmp(s: State, addr: u16): (State, u8) {
    (s.(registers := s.registers.(pc := addr)), 0)
  }

  /** JSR: push PC - 1 (high byte first), then jump. */
  function Jsr(s: State, addr: u16): (State, u8) {
    var ret := Sub16(s.registers.pc, 1);
    var s1 := s.StackPush(Hi(ret)).StackPush(Lo(ret));
    (s1.(registers := s1.registers.(pc := addr)), 0)
  }

  /** RTS: pop the low and then the high byte and continue one past that address. */
  function Rts(s: State, addr: u16): (State, u8) {
    var (s1, lo) := s.StackPop();
    var (s2, hi) := s1.StackPop();
    (s2.(registers := s2.registers.(pc := Add16(Word(lo, hi), 1))), 0)
  }

  /** BRK: skip one byte, push PC (high byte first) and the status byte with
      B and U set, set I and continue at the vector in 0xFFFE/0xFFFF. */
  function Brk(s: State, addr: u16): (State, u8) {
    var s1 := s.(registers := s.registers.(pc := Add16(s.registers.pc, 1)));
    var pc := s1.registers.pc;
    var status := (ToByte(s1.registers.status) | 0x10) | 0x20;
    var s2 := s1.StackPush(Hi(pc)).StackPush(Lo(pc)).StackPush(status as u8);
    var s3 := WithStatus(s2, s2.registers.status.(interruptDisable := true));
    var target := Word(Read(s3.mem, 0xFFFE), Read(s3.mem, 0xFFFF));
    (s3.(registers := s3.registers.(pc := target)), 0)
  }

  /** RTI: pop the status byte and unpack all eight flags from it, then pop
      the low and the high byte of PC. */
  function Rti(s: State, addr: u16): (State, u8) {
    var (s1, status) := s.StackPop();
    var s2 := WithStatus(s1, FromByte(status as bv8));
    var (s3, lo) := s2.StackPop();
    var (s4, hi) := s3.StackPop();
    (s4.(registers := s4.registers.(pc := Word(lo, hi))), 0)
  }
}
