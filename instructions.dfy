/** The instruction handlers of src/instructions.rs as methods on a `CPU`,
    each updating the registers and the bus step by step as its handler
    does and returning the extra cycles; each is proved to leave the state
    that module InstructionSemantics gives it. The stubs read their operand
    and abort with it. */
module Instructions {
  import opened Bits
  import opened RegisterFile
  import opened Cpu
  import opened Alu
  import Sem = InstructionSemantics

  /** How a handler ended: with its extra cycles, or aborted by
      `unimplemented_instruction` with the byte it was given. */
  datatype Completion = Completed(extra: u8) | Aborted(value: u8)

  /** Runs the handler `op` names, as `step` does through the table's
      function pointer. */
  method CallInstruction(cpu: CPU, op: Op, addr: u16) returns (r: Completion)
    modifies cpu
    ensures match Sem.Execute(op, old(cpu.Snapshot()), addr)
            case Done(next, extra) => cpu.Snapshot() == next && r == Completed(extra)
            case Unimplemented(value) => cpu.Snapshot() == old(cpu.Snapshot()) && r == Aborted(value)
  {
    if op.IsStub() {
      var value := Stub(cpu, op, addr);
      return Aborted(value);
    }
    var extra := Handle(cpu, op, addr);
    return Completed(extra);
  }

  /** The handlers that are stubs: `ora`, `pha`, `php`, `pla`, `plp` and
      `rol` read the byte at `addr` and pass it to `unimplemented_instruction`. */
  method Stub(cpu: CPU, op: Op, addr: u16) returns (value: u8)
    requires op.IsStub()
    ensures Sem.Execute(op, cpu.Snapshot(), addr) == Sem.Unimplemented(value)
  {
    value := Read(cpu.bus, addr);
  }

  /** Runs an implemented handler, through the group it belongs to. */
  method Handle(cpu: CPU, op: Op, addr: u16) returns (extra: u8)
    requires !op.IsStub()
    modifies cpu
    ensures (cpu.Snapshot(), extra) == Sem.Handle(op, old(cpu.Snapshot()), addr)
  {
    match op
    case Adc | Sbc | And | Eor | Bit | Cmp | Cpx | Cpy => extra := HandleArithmetic(cpu, op, addr);
    case Asl | LsrAccumulator | LsrMemory | RorAccumulator | RorMemory | Dec | Inc | Dex | Dey | Inx | Iny => extra := HandleShift(cpu, op, addr);
    case Bcc | Bcs | Beq | Bmi | Bne | Bpl | Bvc | Bvs => extra := HandleBranch(cpu, op, addr);
    case Clc | Cld | Cli | Clv | Sec | Sed | Sei => extra := HandleFlag(cpu, op, addr);
    case Lda | Ldx | Ldy | Sta | Stx | Sty => extra := HandleLoadStore(cpu, op, addr);
    case Tax | Tay | Tsx | Txa | Txs | Tya | Nop => extra := HandleTransfer(cpu, op, addr);
    case Brk | Jmp | Jsr | Rti | Rts => extra := HandleControl(cpu, op, addr);
    case Ora | Pha | Php | Pla | Plp | Rol => assert false;
  }

  /** ADC, SBC, AND, EOR, BIT and the comparisons. */
  method HandleArithmetic(cpu: CPU, op: Op, addr: u16) returns (extra: u8)
    requires op.Adc? || op.Sbc? || op.And? || op.Eor? || op.Bit? || op.Cmp? || op.Cpx? || op.Cpy?
    modifies cpu
    ensures (cpu.Snapshot(), extra) == Sem.Handle(op, old(cpu.Snapshot()), addr)
  {
    match op
    case Adc => extra := Adc(cpu, addr);
    case Sbc => extra := Sbc(cpu, addr);
    case And => extra := And(cpu, addr);
    case Eor => extra := Eor(cpu, addr);
    case Bit => extra := Bit(cpu, addr);
    case Cmp => extra := Cmp(cpu, addr);
    case Cpx => extra := Cpx(cpu, addr);
    case Cpy => extra := Cpy(cpu, addr);
    case _ => assert false;
  }

  /** The shifts, rotations, increments and decrements. */
  method HandleShift(cpu: CPU, op: Op, addr: u16) returns (extra: u8)
    requires op.Asl? || op.LsrAccumulator? || op.LsrMemory? || op.RorAccumulator? || op.RorMemory? || op.Dec? || op.Inc? || op.Dex? || op.Dey? || op.Inx? || op.Iny?
    modifies cpu
    ensures (cpu.Snapshot(), extra) == Sem.Handle(op, old(cpu.Snapshot()), addr)
  {
    match op
    case Asl => extra := Asl(cpu, addr);
    case LsrAccumulator => extra := LsrAccumulator(cpu, addr);
    case LsrMemory => extra := LsrMemory(cpu, addr);
    case RorAccumulator => extra := RorAccumulator(cpu, addr);
    case RorMemory => extra := RorMemory(cpu, addr);
    case Dec => extra := Dec(cpu, addr);
    case Inc => extra := Inc(cpu, addr);
    case Dex => extra := Dex(cpu, addr);
    case Dey => extra := Dey(cpu, addr);
    case Inx => extra := Inx(cpu, addr);
    case Iny => extra := Iny(cpu, addr);
    case _ => assert false;
  }

  /** The conditional branches. */
  method HandleBranch(cpu: CPU, op: Op, addr: u16) returns (extra: u8)
    requires op.Bcc? || op.Bcs? || op.Beq? || op.Bmi? || op.Bne? || op.Bpl? || op.Bvc? || op.Bvs?
    modifies cpu
    ensures (cpu.Snapshot(), extra) == Sem.Handle(op, old(cpu.Snapshot()), addr)
  {
    match op
    case Bcc => extra := Bcc(cpu, addr);
    case Bcs => extra := Bcs(cpu, addr);
    case Beq => extra := Beq(cpu, addr);
    case Bmi => extra := Bmi(cpu, addr);
    case Bne => extra := Bne(cpu, addr);
    case Bpl => extra := Bpl(cpu, addr);
    case Bvc => extra := Bvc(cpu, addr);
    case Bvs => extra := Bvs(cpu, addr);
    case _ => assert false;
  }

  /** The flag instructions. */
  method HandleFlag(cpu: CPU, op: Op, addr: u16) returns (extra: u8)
    requires op.Clc? || op.Cld? || op.Cli? || op.Clv? || op.Sec? || op.Sed? || op.Sei?
    modifies cpu
    ensures (cpu.Snapshot(), extra) == Sem.Handle(op, old(cpu.Snapshot()), addr)
  {
    match op
    case Clc => extra := Clc(cpu, addr);
    case Cld => extra := Cld(cpu, addr);
    case Cli => extra := Cli(cpu, addr);
    case Clv => extra := Clv(cpu, addr);
    case Sec => extra := Sec(cpu, addr);
    case Sed => extra := Sed(cpu, addr);
    case Sei => extra := Sei(cpu, addr);
    case _ => assert false;
  }

  /** Loads and stores. */
  method HandleLoadStore(cpu: CPU, op: Op, addr: u16) returns (extra: u8)
    requires op.Lda? || op.Ldx? || op.Ldy? || op.Sta? || op.Stx? || op.Sty?
    modifies cpu
    ensures (cpu.Snapshot(), extra) == Sem.Handle(op, old(cpu.Snapshot()), addr)
  {
    match op
    case Lda => extra := Lda(cpu, addr);
    case Ldx => extra := Ldx(cpu, addr);
    case Ldy => extra := Ldy(cpu, addr);
    case Sta => extra := Sta(cpu, addr);
    case Stx => extra := Stx(cpu, addr);
    case Sty => extra := Sty(cpu, addr);
    case _ => assert false;
  }

  /** Register transfers and NOP. */
  method HandleTransfer(cpu: CPU, op: Op, addr: u16) returns (extra: u8)
    requires op.Tax? || op.Tay? || op.Tsx? || op.Txa? || op.Txs? || op.Tya? || op.Nop?
    modifies cpu
    ensures (cpu.Snapshot(), extra) == Sem.Handle(op, old(cpu.Snapshot()), addr)
  {
    match op
    case Tax => extra := Tax(cpu, addr);
    case Tay => extra := Tay(cpu, addr);
    case Tsx => extra := Tsx(cpu, addr);
    case Txa => extra := Txa(cpu, addr);
    case Txs => extra := Txs(cpu, addr);
    case Tya => extra := Tya(cpu, addr);
    case Nop => extra := Nop(cpu, addr);
    case _ => assert false;
  }

  /** Jumps, subroutine calls and returns, BRK and RTI. */
  method HandleControl(cpu: CPU, op: Op, addr: u16) returns (extra: u8)
    requires op.Brk? || op.Jmp? || op.Jsr? || op.Rti? || op.Rts?
    modifies cpu
    ensures (cpu.Snapshot(), extra) == Sem.Handle(op, old(cpu.Snapshot()), addr)
  {
    match op
    case Brk => extra := Brk(cpu, addr);
    case Jmp => extra := Jmp(cpu, addr);
    case Jsr => extra := Jsr(cpu, addr);
    case Rti => extra := Rti(cpu, addr);
    case Rts => extra := Rts(cpu, addr);
    case _ => assert false;
  }

  // ---------------------------------------------------------------------
  // Arithmetic and logic
  // ---------------------------------------------------------------------

  method Adc(cpu: CPU, addr: u16) returns (extra: u8)
    modifies cpu
    ensures var (next, e) := Sem.Adc(old(cpu.Snapshot()), addr); cpu.Snapshot() == next && extra == e
  {
    var value := Read(cpu.bus, addr);
    var a := cpu.registers.a;
    var status := cpu.registers.status;
    extra := 0;
    if status.decimalMode {
      var result, carry := AddDecimalDigits(a, value, status.carry);
      status := status.(carry := carry);
      status := status.(zero := result == 0);
      status := status.(negative := Bit7(result));
      cpu.registers := cpu.registers.(status := status, a := result);
      extra := 1;
    } else {
      var sum := a as int + value as int + CarryValue(status.carry);
      var result := (sum % 0x100) as u8;
      status := status.(carry := sum > 0xFF);
      status := status.(zero := result == 0);
      status := status.(negative := Bit7(result));
      status := status.(overflow := AddOverflow(a, value, result));
      cpu.registers := cpu.registers.(status := status, a := result);
    }
  }

  /** The digit-by-digit addition of ADC's decimal mode. */
  method AddDecimalDigits(a: u8, value: u8, carryIn: bool) returns (result: u8, carry: bool)
    ensures (result, carry) == DecimalAdd(a, value, carryIn)
  {
    var al := (a % 0x10) as int + (value % 0x10) as int + CarryValue(carryIn);
    var ah := (a / 0x10) as int + (value / 0x10) as int;
    if al > 9 {
      al := al + 6;
    }
    if al > 0x0F {
      ah := ah + 1;
      al := al % 0x10;
    }
    if ah > 9 {
      ah := ah + 6;
    }
    result := ((ah % 0x10) * 0x10 + al % 0x10) as u8;
    carry := ah > 0x0F;
  }

  method Sbc(cpu: CPU, addr: u16) returns (extra: u8)
    modifies cpu
    ensures var (next, e) := Sem.Sbc(old(cpu.Snapshot()), addr); cpu.Snapshot() == next && extra == e
  {
    var value := Read(cpu.bus, addr);
    var carryIn := cpu.registers.status.carry;
    var a := cpu.registers.a;
    var status := cpu.registers.status;
    if status.decimalMode {
      var temp := DecimalDifference(a, value, carryIn);
      var low := (temp % 0x100) as u8;
      status := status.(carry := temp >= 0);
      status := status.(zero := low == 0);
      status := status.(negative := Bit7(low));
      status := status.(overflow := SubOverflow(a, value, low));
      var result := SubtractDecimalDigits(a, value, carryIn);
      cpu.registers := cpu.registers.(status := status, a := result);
    } else {
      var temp := BinarySubtract(a, value, carryIn);
      var result := Lo(temp);
      status := status.(carry := temp < 0x100);
      status := status.(zero := result == 0);
      status := status.(negative := Bit7(result));
      status := status.(overflow := SubOverflow(a, value, result));
      cpu.registers := cpu.registers.(status := status, a := result);
    }
    extra := 0;
  }

  /** The decimal correction of SBC's difference. */
  method SubtractDecimalDigits(a: u8, value: u8, carryIn: bool) returns (result: u8)
    ensures result == DecimalSubtract(a, value, carryIn)
  {
    var carry := CarryValue(carryIn);
    var temp := a as int - value as int - (1 - carry);
    if (a % 0x10) as int < (value % 0x10) as int + (1 - carry) {
      temp := temp - 6;
    }
    if temp < 0 {
      temp := temp - 0x60;
    }
    result := (temp % 0x100) as u8;
  }

  method And(cpu: CPU, addr: u16) returns (extra: u8)
    modifies cpu
    ensures var (next, e) := Sem.And(old(cpu.Snapshot()), addr); cpu.Snapshot() == next && extra == e
  {
    var value := Read(cpu.bus, addr);
    cpu.registers := cpu.registers.(a := And8(cpu.registers.a, value));
    cpu.UpdateZeroAndNegativeFlags(cpu.registers.a);
    extra := 0;
  }

  method Eor(cpu: CPU, addr: u16) returns (extra: u8)
    modifies cpu
    ensures var (next, e) := Sem.Eor(old(cpu.Snapshot()), addr); cpu.Snapshot() == next && extra == e
  {
    var m := Read(cpu.bus, addr);
    var result := Xor8(cpu.registers.a, m);
    cpu.registers := cpu.registers.(a := result);
    cpu.UpdateZeroAndNegativeFlags(result);
    extra := 0;
  }

  method Bit(cpu: CPU, addr: u16) returns (extra: u8)
    modifies cpu
    ensures var (next, e) := Sem.Bit(old(cpu.Snapshot()), addr); cpu.Snapshot() == next && extra == e
  {
    var value := Read(cpu.bus, addr);
    var result := And8(cpu.registers.a, value);
    cpu.registers := cpu.registers.(status := cpu.registers.status.(zero := result == 0));
    cpu.registers := cpu.registers.(status := cpu.registers.status.(overflow := Bit6(value)));
    cpu.registers := cpu.registers.(status := cpu.registers.status.(negative := Bit7(value)));
    extra := 0;
  }

  /** The comparison CMP, CPX and CPY share, against `register`. */
  method Compare(cpu: CPU, register: u8, addr: u16) returns (extra: u8)
    modifies cpu
    ensures var (next, e) := Sem.Compare(old(cpu.Snapshot()), register, addr); cpu.Snapshot() == next && extra == e
  {
    var m := Read(cpu.bus, addr);
    var result := Sub8(register, m);
    cpu.registers := cpu.registers.(status := cpu.registers.status.(carry := register >= m));
    cpu.registers := cpu.registers.(status := cpu.registers.status.(zero := register == m));
    cpu.registers := cpu.registers.(status := cpu.registers.status.(negative := Bit7(result)));
    extra := 0;
  }

  method Cmp(cpu: CPU, addr: u16) returns (extra: u8)
    modifies cpu
    ensures var (next, e) := Sem.Cmp(old(cpu.Snapshot()), addr); cpu.Snapshot() == next && extra == e
  {
    extra := Compare(cpu, cpu.registers.a, addr);
  }

  method Cpx(cpu: CPU, addr: u16) returns (extra: u8)
    modifies cpu
    ensures var (next, e) := Sem.Cpx(old(cpu.Snapshot()), addr); cpu.Snapshot() == next && extra == e
  {
    extra := Compare(cpu, cpu.registers.x, addr);
  }

  method Cpy(cpu: CPU, addr: u16) returns (extra: u8)
    modifies cpu
    ensures var (next, e) := Sem.Cpy(old(cpu.Snapshot()), addr); cpu.Snapshot() == next && extra == e
  {
    extra := Compare(cpu, cpu.registers.y, addr);
  }

  // ---------------------------------------------------------------------
  // Shifts and rotations
  // ---------------------------------------------------------------------

  method Asl(cpu: CPU, addr: u16) returns (extra: u8)
    modifies cpu
    ensures var (next, e) := Sem.Asl(old(cpu.Snapshot()), addr); cpu.Snapshot() == next && extra == e
  {
    var value := Read(cpu.bus, addr);
    var result := ShiftLeft(value);
    cpu.bus := Write(cpu.bus, addr, result);
    cpu.registers := cpu.registers.(status := cpu.registers.status.(carry := Bit7(value)));
    cpu.UpdateZeroAndNegativeFlags(result);
    extra := 0;
  }

  method LsrAccumulator(cpu: CPU, addr: u16) returns (extra: u8)
    modifies cpu
    ensures var (next, e) := Sem.LsrAccumulator(old(cpu.Snapshot()), addr); cpu.Snapshot() == next && extra == e
  {
    var m := cpu.registers.a;
    var result := ShiftRight(m);
    cpu.registers := cpu.registers.(status := cpu.registers.status.(carry := Bit0(m)));
    cpu.registers := cpu.registers.(a := result);
    cpu.UpdateZeroAndNegativeFlags(result);
    extra := 0;
  }

  method LsrMemory(cpu: CPU, addr: u16) returns (extra: u8)
    modifies cpu
    ensures var (next, e) := Sem.LsrMemory(old(cpu.Snapshot()), addr); cpu.Snapshot() == next && extra == e
  {
    var m := Read(cpu.bus, addr);
    var result := ShiftRight(m);
    cpu.registers := cpu.registers.(status := cpu.registers.status.(carry := Bit0(m)));
    cpu.bus := Write(cpu.bus, addr, result);
    cpu.UpdateZeroAndNegativeFlags(result);
    extra := 0;
  }

  method RorAccumulator(cpu: CPU, addr: u16) returns (extra: u8)
    modifies cpu
    ensures var (next, e) := Sem.RorAccumulator(old(cpu.Snapshot()), addr); cpu.Snapshot() == next && extra == e
  {
    var m := cpu.registers.a;
    var oldCarry := cpu.registers.status.carry;
    cpu.registers := cpu.registers.(status := cpu.registers.status.(carry := Bit0(m)));
    var result := RotateRight(m, oldCarry);
    cpu.registers := cpu.registers.(a := result);
    cpu.UpdateZeroAndNegativeFlags(result);
    extra := 0;
  }

  method RorMemory(cpu: CPU, addr: u16) returns (extra: u8)
    modifies cpu
    ensures var (next, e) := Sem.RorMemory(old(cpu.Snapshot()), addr); cpu.Snapshot() == next && extra == e
  {
    var m := Read(cpu.bus, addr);
    var oldCarry := cpu.registers.status.carry;
    cpu.registers := cpu.registers.(status := cpu.registers.status.(carry := Bit0(m)));
    var result := RotateRight(m, oldCarry);
    cpu.bus := Write(cpu.bus, addr, result);
    cpu.UpdateZeroAndNegativeFlags(result);
    extra := 0;
  }

  // ---------------------------------------------------------------------
  // Increments and decrements
  // ---------------------------------------------------------------------

  method Dec(cpu: CPU, addr: u16) returns (extra: u8)
    modifies cpu
    ensures var (next, e) := Sem.Dec(old(cpu.Snapshot()), addr); cpu.Snapshot() == next && extra == e
  {
    var m := Read(cpu.bus, addr);
    var result := Sub8(m, 1);
    cpu.bus := Write(cpu.bus, addr, result);
    cpu.UpdateZeroAndNegativeFlags(result);
    extra := 0;
  }

  method Inc(cpu: CPU, addr: u16) returns (extra: u8)
    modifies cpu
    ensures var (next, e) := Sem.Inc(old(cpu.Snapshot()), addr); cpu.Snapshot() == next && extra == e
  {
    var m := Read(cpu.bus, addr);
    var result := Add8(m, 1);
    cpu.bus := Write(cpu.bus, addr, result);
    cpu.UpdateZeroAndNegativeFlags(result);
    extra := 0;
  }

  method Dex(cpu: CPU, addr: u16) returns (extra: u8)
    modifies cpu
    ensures var (next, e) := Sem.Dex(old(cpu.Snapshot()), addr); cpu.Snapshot() == next && extra == e
  {
    cpu.registers := cpu.registers.(x := Sub8(cpu.registers.x, 1));
    cpu.UpdateZeroAndNegativeFlags(cpu.registers.x);
    extra := 0;
  }

  method Dey(cpu: CPU, addr: u16) returns (extra: u8)
    modifies cpu
    ensures var (next, e) := Sem.Dey(old(cpu.Snapshot()), addr); cpu.Snapshot() == next && extra == e
  {
    cpu.registers := cpu.registers.(y := Sub8(cpu.registers.y, 1));
    cpu.UpdateZeroAndNegativeFlags(cpu.registers.y);
    extra := 0;
  }

  method Inx(cpu: CPU, addr: u16) returns (extra: u8)
    modifies cpu
    ensures var (next, e) := Sem.Inx(old(cpu.Snapshot()), addr); cpu.Snapshot() == next && extra == e
  {
    cpu.registers := cpu.registers.(x := Add8(cpu.registers.x, 1));
    cpu.UpdateZeroAndNegativeFlags(cpu.registers.x);
    extra := 0;
  }

  method Iny(cpu: CPU, addr: u16) returns (extra: u8)
    modifies cpu
    ensures var (next, e) := Sem.Iny(old(cpu.Snapshot()), addr); cpu.Snapshot() == next && extra == e
  {
    cpu.registers := cpu.registers.(y := Add8(cpu.registers.y, 1));
    cpu.UpdateZeroAndNegativeFlags(cpu.registers.y);
    extra := 0;
  }

  // ---------------------------------------------------------------------
  // Branches
  // ---------------------------------------------------------------------

  /** The shape every branch handler has: `branch(addr)` when the condition holds, else 0. */
  method BranchIf(cpu: CPU, condition: bool, addr: u16) returns (extra: u8)
    modifies cpu
    ensures var (next, e) := Sem.BranchIf(old(cpu.Snapshot()), condition, addr); cpu.Snapshot() == next && extra == e
  {
    if condition {
      extra := cpu.Branch(addr);
    } else {
      extra := 0;
    }
  }

  method Bcc(cpu: CPU, addr: u16) returns (extra: u8)
    modifies cpu
    ensures var (next, e) := Sem.Bcc(old(cpu.Snapshot()), addr); cpu.Snapshot() == next && extra == e
  {
    extra := BranchIf(cpu, !cpu.registers.status.carry, addr);
  }

  method Bcs(cpu: CPU, addr: u16) returns (extra: u8)
    modifies cpu
    ensures var (next, e) := Sem.Bcs(old(cpu.Snapshot()), addr); cpu.Snapshot() == next && extra == e
  {
    extra := BranchIf(cpu, cpu.registers.status.carry, addr);
  }

  method Beq(cpu: CPU, addr: u16) returns (extra: u8)
    modifies cpu
    ensures var (next, e) := Sem.Beq(old(cpu.Snapshot()), addr); cpu.Snapshot() == next && extra == e
  {
    extra := BranchIf(cpu, cpu.registers.status.zero, addr);
  }

  method Bmi(cpu: CPU, addr: u16) returns (extra: u8)
    modifies cpu
    ensures var (next, e) := Sem.Bmi(old(cpu.Snapshot()), addr); cpu.Snapshot() == next && extra == e
  {
    extra := BranchIf(cpu, cpu.registers.status.negative, addr);
  }

  method Bne(cpu: CPU, addr: u16) returns (extra: u8)
    modifies cpu
    ensures var (next, e) := Sem.Bne(old(cpu.Snapshot()), addr); cpu.Snapshot() == next && extra == e
  {
    extra := BranchIf(cpu, !cpu.registers.status.zero, addr);
  }

  method Bpl(cpu: CPU, addr: u16) returns (extra: u8)
    modifies cpu
    ensures var (next, e) := Sem.Bpl(old(cpu.Snapshot()), addr); cpu.Snapshot() == next && extra == e
  {
    extra := BranchIf(cpu, !cpu.registers.status.negative, addr);
  }

  method Bvc(cpu: CPU, addr: u16) returns (extra: u8)
    modifies cpu
    ensures var (next, e) := Sem.Bvc(old(cpu.Snapshot()), addr); cpu.Snapshot() == next && extra == e
  {
    extra := BranchIf(cpu, !cpu.registers.status.overflow, addr);
  }

  method Bvs(cpu: CPU, addr: u16) returns (extra: u8)
    modifies cpu
    ensures var (next, e) := Sem.Bvs(old(cpu.Snapshot()), addr); cpu.Snapshot() == next && extra == e
  {
    extra := BranchIf(cpu, cpu.registers.status.overflow, addr);
  }

  // ---------------------------------------------------------------------
  // Flag instructions
  // ---------------------------------------------------------------------

  method Clc(cpu: CPU, addr: u16) returns (extra: u8)
    modifies cpu
    ensures var (next, e) := Sem.Clc(old(cpu.Snapshot()), addr); cpu.Snapshot() == next && extra == e
  {
    cpu.registers := cpu.registers.(status := cpu.registers.status.(carry := false));
    extra := 0;
  }

  method Cld(cpu: CPU, addr: u16) returns (extra: u8)
    modifies cpu
    ensures var (next, e) := Sem.Cld(old(cpu.Snapshot()), addr); cpu.Snapshot() == next && extra == e
  {
    cpu.registers := cpu.registers.(status := cpu.registers.status.(decimalMode := false));
    extra := 0;
  }

  method Cli(cpu: CPU, addr: u16) returns (extra: u8)
    modifies cpu
    ensures var (next, e) := Sem.Cli(old(cpu.Snapshot()), addr); cpu.Snapshot() == next && extra == e
  {
    cpu.registers := cpu.registers.(status := cpu.registers.status.(interruptDisable := false));
    extra := 0;
  }

  method Clv(cpu: CPU, addr: u16) returns (extra: u8)
    modifies cpu
    ensures var (next, e) := Sem.Clv(old(cpu.Snapshot()), addr); cpu.Snapshot() == next && extra == e
  {
    cpu.registers := cpu.registers.(status := cpu.registers.status.(overflow := false));
    extra := 0;
  }

  method Sec(cpu: CPU, addr: u16) returns (extra: u8)
    modifies cpu
    ensures var (next, e) := Sem.Sec(old(cpu.Snapshot()), addr); cpu.Snapshot() == next && extra == e
  {
    cpu.registers := cpu.registers.(status := cpu.registers.status.(carry := true));
    extra := 0;
  }

  method Sed(cpu: CPU, addr: u16) returns (extra: u8)
    modifies cpu
    ensures var (next, e) := Sem.Sed(old(cpu.Snapshot()), addr); cpu.Snapshot() == next && extra == e
  {
    cpu.registers := cpu.registers.(status := cpu.registers.status.(decimalMode := true));
    extra := 0;
  }

  method Sei(cpu: CPU, addr: u16) returns (extra: u8)
    modifies cpu
    ensures var (next, e) := Sem.Sei(old(cpu.Snapshot()), addr); cpu.Snapshot() == next && extra == e
  {
    cpu.registers := cpu.registers.(status := cpu.registers.status.(interruptDisable := true));
    extra := 0;
  }

  // ---------------------------------------------------------------------
  // Loads, stores and transfers
  // ---------------------------------------------------------------------

  method Lda(cpu: CPU, addr: u16) returns (extra: u8)
    modifies cpu
    ensures var (next, e) := Sem.Lda(old(cpu.Snapshot()), addr); cpu.Snapshot() == next && extra == e
  {
    var value := Read(cpu.bus, addr);
    cpu.registers := cpu.registers.(a := value);
    cpu.UpdateZeroAndNegativeFlags(cpu.registers.a);
    extra := 0;
  }

  method Ldx(cpu: CPU, addr: u16) returns (extra: u8)
    modifies cpu
    ensures var (next, e) := Sem.Ldx(old(cpu.Snapshot()), addr); cpu.Snapshot() == next && extra == e
  {
    var value := Read(cpu.bus, addr);
    cpu.registers := cpu.registers.(x := value);
    cpu.UpdateZeroAndNegativeFlags(cpu.registers.x);
    extra := 0;
  }

  method Ldy(cpu: CPU, addr: u16) returns (extra: u8)
    modifies cpu
    ensures var (next, e) := Sem.Ldy(old(cpu.Snapshot()), addr); cpu.Snapshot() == next && extra == e
  {
    var value := Read(cpu.bus, addr);
    cpu.registers := cpu.registers.(y := value);
    cpu.UpdateZeroAndNegativeFlags(cpu.registers.y);
    extra := 0;
  }

  method Sta(cpu: CPU, addr: u16) returns (extra: u8)
    modifies cpu
    ensures var (next, e) := Sem.Sta(old(cpu.Snapshot()), addr); cpu.Snapshot() == next && extra == e
  {
    cpu.bus := Write(cpu.bus, addr, cpu.registers.a);
    extra := 0;
  }

  method Stx(cpu: CPU, addr: u16) returns (extra: u8)
    modifies cpu
    ensures var (next, e) := Sem.Stx(old(cpu.Snapshot()), addr); cpu.Snapshot() == next && extra == e
  {
    cpu.bus := Write(cpu.bus, addr, cpu.registers.x);
    extra := 0;
  }

  method Sty(cpu: CPU, addr: u16) returns (extra: u8)
    modifies cpu
    ensures var (next, e) := Sem.Sty(old(cpu.Snapshot()), addr); cpu.Snapshot() == next && extra == e
  {
    cpu.bus := Write(cpu.bus, addr, cpu.registers.y);
    extra := 0;
  }

  method Tax(cpu: CPU, addr: u16) returns (extra: u8)
    modifies cpu
    ensures var (next, e) := Sem.Tax(old(cpu.Snapshot()), addr); cpu.Snapshot() == next && extra == e
  {
    cpu.registers := cpu.registers.(x := cpu.registers.a);
    cpu.UpdateZeroAndNegativeFlags(cpu.registers.x);
    extra := 0;
  }

  method Tay(cpu: CPU, addr: u16) returns (extra: u8)
    modifies cpu
    ensures var (next, e) := Sem.Tay(old(cpu.Snapshot()), addr); cpu.Snapshot() == next && extra == e
  {
    cpu.registers := cpu.registers.(y := cpu.registers.a);
    cpu.UpdateZeroAndNegativeFlags(cpu.registers.y);
    extra := 0;
  }

  method Tsx(cpu: CPU, addr: u16) returns (extra: u8)
    modifies cpu
    ensures var (next, e) := Sem.Tsx(old(cpu.Snapshot()), addr); cpu.Snapshot() == next && extra == e
  {
    cpu.registers := cpu.registers.(x := cpu.registers.sp);
    cpu.UpdateZeroAndNegativeFlags(cpu.registers.x);
    extra := 0;
  }

  method Txa(cpu: CPU, addr: u16) returns (extra: u8)
    modifies cpu
    ensures var (next, e) := Sem.Txa(old(cpu.Snapshot()), addr); cpu.Snapshot() == next && extra == e
  {
    cpu.registers := cpu.registers.(a := cpu.registers.x);
    cpu.UpdateZeroAndNegativeFlags(cpu.registers.a);
    extra := 0;
  }

  method Txs(cpu: CPU, addr: u16) returns (extra: u8)
    modifies cpu
    ensures var (next, e) := Sem.Txs(old(cpu.Snapshot()), addr); cpu.Snapshot() == next && extra == e
  {
    cpu.registers := cpu.registers.(sp := cpu.registers.x);
    extra := 0;
  }

  method Tya(cpu: CPU, addr: u16) returns (extra: u8)
    modifies cpu
    ensures var (next, e) := Sem.Tya(old(cpu.Snapshot()), addr); cpu.Snapshot() == next && extra == e
  {
    cpu.registers := cpu.registers.(a := cpu.registers.y);
    cpu.UpdateZeroAndNegativeFlags(cpu.registers.a);
    extra := 0;
  }

  method Nop(cpu: CPU, addr: u16) returns (extra: u8)
    ensures var (next, e) := Sem.Nop(cpu.Snapshot(), addr); cpu.Snapshot() == next && extra == e
  {
    extra := 0;
  }

  // ---------------------------------------------------------------------
  // Jumps, subroutines and interrupts
  // ---------------------------------------------------------------------

  method Jmp(cpu: CPU, addr: u16) returns (extra: u8)
    modifies cpu
    ensures var (next, e) := Sem.Jmp(old(cpu.Snapshot()), addr); cpu.Snapshot() == next && extra == e
  {
    cpu.registers := cpu.registers.(pc := addr);
    extra := 0;
  }

  method Jsr(cpu: CPU, addr: u16) returns (extra: u8)
    modifies cpu
    ensures var (next, e) := Sem.Jsr(old(cpu.Snapshot()), addr); cpu.Snapshot() == next && extra == e
  {
    var pc := Sub16(cpu.registers.pc, 1);
    var hi := Hi(pc);
    var lo := Lo(pc);
    cpu.StackPush(hi);
    cpu.StackPush(lo);
    cpu.registers := cpu.registers.(pc := addr);
    extra := 0;
  }

  method Rts(cpu: CPU, addr: u16) returns (extra: u8)
    modifies cpu
    ensures var (next, e) := Sem.Rts(old(cpu.Snapshot()), addr); cpu.Snapshot() == next && extra == e
  {
    var lo := cpu.StackPop();
    var hi := cpu.StackPop();
    var pc := Word(lo, hi);
    cpu.registers := cpu.registers.(pc := Add16(pc, 1));
    extra := 0;
  }

  method Brk(cpu: CPU, addr: u16) returns (extra: u8)
    modifies cpu
    ensures var (next, e) := Sem.Brk(old(cpu.Snapshot()), addr); cpu.Snapshot() == next && extra == e
  {
    cpu.registers := cpu.registers.(pc := Add16(cpu.registers.pc, 1));
    cpu.StackPush(Hi(cpu.registers.pc));
    cpu.StackPush(Lo(cpu.registers.pc));
    var status := ToByte(cpu.registers.status);
    status := status | 0x10;
    status := status | 0x20;
    cpu.StackPush(status as u8);
    cpu.registers := cpu.registers.(status := cpu.registers.status.(interruptDisable := true));
    var lo := Read(cpu.bus, 0xFFFE);
    var hi := Read(cpu.bus, 0xFFFF);
    cpu.registers := cpu.registers.(pc := Word(lo, hi));
    extra := 0;
  }

  method Rti(cpu: CPU, addr: u16) returns (extra: u8)
    modifies cpu
    ensures var (next, e) := Sem.Rti(old(cpu.Snapshot()), addr); cpu.Snapshot() == next && extra == e
  {
    var status := cpu.StackPop();
    cpu.registers := cpu.registers.(status := FromByte(status as bv8));
    var lo := cpu.StackPop();
    var hi := cpu.StackPop();
    cpu.registers := cpu.registers.(pc := Word(lo, hi));
    extra := 0;
  }
}
