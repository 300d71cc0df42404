/** `CPU::step`: fetch an opcode, look it up in the dispatch table, run the
    entry's addressing mode and then its handler, and add the base cycles
    and both penalties to the cycle counter. */
module Engine {
  import opened Bits
  import opened RegisterFile
  import opened Cpu
  import opened AddressingModes
  import Sem = InstructionSemantics
  import Instructions
  import InstructionFacts
  import AddressingModeFacts
  import DispatchTable

  /** How a step ends: with the number of cycles the instruction took, or
      with the panic `unimplemented_instruction` raises, carrying the byte
      it reports (the opcode for an unmapped opcode; for a handler that is
      only a stub, the byte at the effective address). */
  datatype StepResult = Ok(cycles: nat) | Fail(code: u8)

  /** The effect of `step` on a CPU in state `s`. After a failure the state
      is the one at the moment of the panic. */
  function Next(s: State): (State, StepResult) {
    var (fetched, opcode) := s.FetchByte();
    match InstructionTable(opcode)
    case None => (fetched, Fail(opcode))
    case Some(entry) => Dispatch(entry, Resolve(entry.mode, fetched))
  }

  /** The second half of `step`: run the decoded handler at the resolved
      address and count the base cycles and both penalties. */
  function Dispatch(entry: Entry, resolved: Resolved): (State, StepResult) {
    match Sem.Execute(entry.op, resolved.next, resolved.addr)
    case Unimplemented(value) => (resolved.next, Fail(value))
    case Done(next, extra) =>
      var total := entry.cycles as nat + resolved.extra as nat + extra as nat;
      (next.(cycles := next.cycles + total), Ok(total))
  }

  /** `step` on the CPU object. */
  method Step(cpu: Cpu.CPU) returns (r: StepResult)
    modifies cpu
    ensures (cpu.Snapshot(), r) == Next(old(cpu.Snapshot()))
  {
    var opcode := cpu.FetchByte();
    var decoded := InstructionTable(opcode);
    if decoded.None? {
      return Fail(opcode);
    }
    var entry := decoded.value;
    ghost var fetched := cpu.Snapshot();
    var addr, addrExtra := CallAddressingMode(cpu, entry.mode);
    ghost var resolved := Resolved(cpu.Snapshot(), addr, addrExtra);
    assert Next(old(cpu.Snapshot())) == Dispatch(entry, resolved);
    r := Run(cpu, entry, addr, addrExtra);
  }

  /** Runs the handler of `entry` and counts the cycles. */
  method Run(cpu: Cpu.CPU, entry: Entry, addr: u16, addrExtra: u8) returns (r: StepResult)
    modifies cpu
    ensures (cpu.Snapshot(), r) == Dispatch(entry, Resolved(old(cpu.Snapshot()), addr, addrExtra))
  {
    var completion := Instructions.CallInstruction(cpu, entry.op, addr);
    match completion
    case Aborted(value) =>
      return Fail(value);
    case Completed(instrExtra) =>
      var total := entry.cycles as nat + addrExtra as nat + instrExtra as nat;
      cpu.cycles := cpu.cycles + total;
      return Ok(total);
  }

  /** An opcode the table does not map panics with that opcode, after the
      fetch has moved PC past it; the cycle counter is not touched. */
  lemma UnmappedOpcodeFails(s: State)
    requires InstructionTable(Read(s.mem, s.registers.pc)).None?
    ensures var (next, r) := Next(s);
            && r == Fail(Read(s.mem, s.registers.pc))
            && next.registers == s.registers.(pc := Add16(s.registers.pc, 1))
            && next.mem == s.mem
            && next.cycles == s.cycles
  {
  }

  /** A mapped opcode whose handler is a stub (ORA, PHA, PHP, PLA, PLP,
      ROL) panics after its operand has been fetched, with the byte at the
      effective address, and no cycle is counted. */
  lemma StubOpcodeFails(s: State)
    requires var e := InstructionTable(Read(s.mem, s.registers.pc)); e.Some? && e.value.op.IsStub()
    ensures var (fetched, opcode) := s.FetchByte();
            var entry := InstructionTable(opcode).value;
            var resolved := Resolve(entry.mode, fetched);
            var (next, r) := Next(s);
            && r == Fail(Read(resolved.next.mem, resolved.addr))
            && next.mem == s.mem
            && next.cycles == s.cycles
  {
    var (fetched, opcode) := s.FetchByte();
    var entry := InstructionTable(opcode).value;
    AddressingModeFacts.OnlyOperandBytesConsumed(entry.mode, fetched);
  }

  /** A step that completes takes at least the entry's base cycles and at
      most two more (a page crossing plus decimal ADC, or a taken branch to
      another page), so between 2 and 9 in all, and adds exactly that to
      the counter. */
  lemma {:induction false} StepCycles(s: State)
    ensures var (next, r) := Next(s);
            var opcode := Read(s.mem, s.registers.pc);
            r.Ok? ==>
              && InstructionTable(opcode).Some?
              && InstructionTable(opcode).value.cycles as nat <= r.cycles <= InstructionTable(opcode).value.cycles as nat + 2
              && 2 <= r.cycles <= 9
              && next.cycles == s.cycles + r.cycles
  {
    var (fetched, opcode) := s.FetchByte();
    match InstructionTable(opcode)
    case None =>
    case Some(entry) =>
      var resolved := Resolve(entry.mode, fetched);
      AddressingModeFacts.OnlyOperandBytesConsumed(entry.mode, fetched);
      AddressingModeFacts.PenaltyAtMostOne(entry.mode, fetched);
      if !entry.op.IsStub() {
        InstructionFacts.ExtraCycles(entry.op, resolved.next, resolved.addr);
        var extra := Sem.Handle(entry.op, resolved.next, resolved.addr).1;
        if entry.op.Adc? {
          assert extra <= 1;
        } else if extra > 0 {
          assert entry.mode == Mode.Relative;
          assert resolved.extra == 0;
        }
      }
  }

  /** An instruction that does not transfer control completes with PC just
      past its opcode and operand bytes. */
  lemma {:induction false} StraightLineAdvancesPc(s: State, entry: Entry)
    requires InstructionTable(Read(s.mem, s.registers.pc)) == Some(entry)
    requires InstructionFacts.StraightLine(entry.op)
    ensures Next(s).1.Ok?
    ensures Next(s).0.registers.pc as int == (s.registers.pc as int + 1 + OperandLength(entry.mode) as int) % 0x10000
  {
    var fetched := s.FetchByte().0;
    var resolved := Resolve(entry.mode, fetched);
    assert Next(s) == Dispatch(entry, resolved) by {
      NextOfMapped(s);
    }
    StraightLineDispatch(entry, resolved);
    ResolvedPc(s, fetched, entry.mode);
  }

  /** After the fetch and the addressing mode, PC is `1 + OperandLength`
      past where the opcode was, modulo 2^16. */
  lemma ResolvedPc(s: State, fetched: State, mode: Mode)
    requires fetched == s.FetchByte().0
    ensures Resolve(mode, fetched).next.registers.pc as int
            == (s.registers.pc as int + 1 + OperandLength(mode) as int) % 0x10000
  {
    AddressingModeFacts.OnlyOperandBytesConsumed(mode, fetched);
    WrapTwice(s.registers.pc as int, OperandLength(mode) as int);
  }

  /** Adding 1 mod 2^16 and then `n` mod 2^16 is adding `1 + n` mod 2^16. */
  lemma WrapTwice(pc: int, n: int)
    ensures ((pc + 1) % 0x10000 + n) % 0x10000 == (pc + 1 + n) % 0x10000
  {
  }

  /** For a mapped opcode, `step` is the dispatch of its entry at the
      address its addressing mode resolves. */
  lemma NextOfMapped(s: State)
    requires InstructionTable(Read(s.mem, s.registers.pc)).Some?
    ensures var (fetched, opcode) := s.FetchByte();
            var entry := InstructionTable(opcode).value;
            Next(s) == Dispatch(entry, Resolve(entry.mode, fetched))
  {
  }

  /** Dispatching a handler that does not transfer control completes and
      leaves PC where the addressing mode put it. */
  lemma StraightLineDispatch(entry: Entry, resolved: Resolved)
    requires InstructionFacts.StraightLine(entry.op)
    ensures Dispatch(entry, resolved).1.Ok?
    ensures Dispatch(entry, resolved).0.registers.pc == resolved.next.registers.pc
  {
    InstructionFacts.StraightLineKeepsPc(entry.op, resolved.next, resolved.addr);
  }

  /** Opcode 0x0A, ASL in accumulator mode, shifts the byte at address 0 and
      not A, because the accumulator mode hands the handler address 0 and
      the handler always works on memory; it takes two cycles. */
  lemma AslAccumulatorShiftsAddressZero(s: State)
    requires Read(s.mem, s.registers.pc) == 0x0A
    ensures var (next, r) := Next(s);
            var m := Read(s.mem, 0);
            && r == Ok(2)
            && Read(next.mem, 0) as int == (2 * m as int) % 0x100
            && next.registers.status.carry == Bit7(m)
            && next.registers.a == s.registers.a
            && next.registers.pc == Add16(s.registers.pc, 1)
  {
    DispatchTable.AslAccumulatorEntry();
    var (fetched, _) := s.FetchByte();
    AddressingModeFacts.NoOperandModes(fetched);
    InstructionFacts.AslDoubles(fetched, 0);
  }
}
