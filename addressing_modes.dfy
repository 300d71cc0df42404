/** The thirteen addressing mode functions of the primary design
    (src/addressing_modes.rs). Each turns the operand bytes after the opcode
    into an effective address and a page-cross penalty. */
module AddressingModes {
  import opened Bits
  import opened RegisterFile
  import opened Cpu

  /** What an addressing mode function hands back: the effective address and
      the extra cycles, together with the state it leaves behind. */
  datatype Resolved = Resolved(next: State, addr: u16, extra: u8)

  /** The effect of each addressing mode function on a CPU in state `s`. */
  function Resolve(mode: Mode, s: State): Resolved {
    match mode
    case Accumulator => Resolved(s, 0, 0)
    case Implied => Resolved(s, 0, 0)
    case Immediate =>
      Resolved(s.(registers := s.registers.(pc := Add16(s.registers.pc, 1))), s.registers.pc, 0)
    case Absolute =>
      var (s1, addr) := s.FetchWord();
      Resolved(s1, addr, 0)
    case AbsoluteX =>
      var (s1, base) := s.FetchWord();
      var addr := Offset(base, s1.registers.x);
      Resolved(s1, addr, PageCrossPenalty(base, addr))
    case AbsoluteY =>
      var (s1, base) := s.FetchWord();
      var addr := Offset(base, s1.registers.y);
      Resolved(s1, addr, PageCrossPenalty(base, addr))
    case Indirect =>
      var (s1, ptr) := s.FetchWord();
      var lo := Read(s1.mem, ptr);
      var hiAddress := if Lo(ptr) == 0xFF then Page(ptr) else ptr + 1;
      var hi := Read(s1.mem, hiAddress);
      Resolved(s1, Word(lo, hi), 0)
    case IndirectX =>
      var (s1, operand) := s.FetchByte();
      var ptr := Add8(operand, s1.registers.x);
      Resolved(s1, ZeroPageWord(s1.mem, ptr), 0)
    case IndirectY =>
      var (s1, ptr) := s.FetchByte();
      var base := ZeroPageWord(s1.mem, ptr);
      var addr := Offset(base, s1.registers.y);
      Resolved(s1, addr, PageCrossPenalty(base, addr))
    case Relative =>
      var (s1, offset) := s.FetchByte();
      Resolved(s1, Add16(s1.registers.pc, SignExtend(offset)), 0)
    case ZeroPage =>
      var (s1, operand) := s.FetchByte();
      Resolved(s1, operand as u16, 0)
    case ZeroPageX =>
      var (s1, operand) := s.FetchByte();
      Resolved(s1, Add8(operand, s1.registers.x) as u16, 0)
    case ZeroPageY =>
      var (s1, operand) := s.FetchByte();
      Resolved(s1, Add8(operand, s1.registers.y) as u16, 0)
  }

  /** The extra cycle an indexed mode charges when indexing leaves the page of the base address. */
  function PageCrossPenalty(base: u16, addr: u16): u8 {
    if Page(base) != Page(addr) then 1 else 0
  }

  /** The number of operand bytes each mode takes from the instruction stream. */
  function OperandLength(mode: Mode): nat {
    match mode
    case Accumulator | Implied => 0
    case Immediate | IndirectX | IndirectY | Relative | ZeroPage | ZeroPageX | ZeroPageY => 1
    case Absolute | AbsoluteX | AbsoluteY | Indirect => 2
  }

  method Accumulator(cpu: CPU) returns (addr: u16, extra: u8)
    ensures Resolve(Mode.Accumulator, cpu.Snapshot()) == Resolved(cpu.Snapshot(), addr, extra)
  {
    addr, extra := 0, 0;
  }

  method Absolute(cpu: CPU) returns (addr: u16, extra: u8)
    modifies cpu
    ensures Resolve(Mode.Absolute, old(cpu.Snapshot())) == Resolved(cpu.Snapshot(), addr, extra)
  {
    addr := cpu.FetchWord();
    extra := 0;
  }

  method AbsoluteX(cpu: CPU) returns (addr: u16, extra: u8)
    modifies cpu
    ensures Resolve(Mode.AbsoluteX, old(cpu.Snapshot())) == Resolved(cpu.Snapshot(), addr, extra)
  {
    var base := cpu.FetchWord();
    addr := Offset(base, cpu.registers.x);
    extra := PageCrossPenalty(base, addr);
  }

  method AbsoluteY(cpu: CPU) returns (addr: u16, extra: u8)
    modifies cpu
    ensures Resolve(Mode.AbsoluteY, old(cpu.Snapshot())) == Resolved(cpu.Snapshot(), addr, extra)
  {
    var base := cpu.FetchWord();
    addr := Offset(base, cpu.registers.y);
    extra := PageCrossPenalty(base, addr);
  }

  method Immediate(cpu: CPU) returns (addr: u16, extra: u8)
    modifies cpu
    ensures Resolve(Mode.Immediate, old(cpu.Snapshot())) == Resolved(cpu.Snapshot(), addr, extra)
  {
    addr := cpu.registers.pc;
    cpu.registers := cpu.registers.(pc := Add16(cpu.registers.pc, 1));
    extra := 0;
  }

  method Implied(cpu: CPU) returns (addr: u16, extra: u8)
    ensures Resolve(Mode.Implied, cpu.Snapshot()) == Resolved(cpu.Snapshot(), addr, extra)
  {
    addr, extra := 0, 0;
  }

  method Indirect(cpu: CPU) returns (addr: u16, extra: u8)
    modifies cpu
    ensures Resolve(Mode.Indirect, old(cpu.Snapshot())) == Resolved(cpu.Snapshot(), addr, extra)
  {
    var ptr := cpu.FetchWord();
    var lo := Read(cpu.bus, ptr);
    var hiAddress := if Lo(ptr) == 0xFF then Page(ptr) else ptr + 1;
    var hi := Read(cpu.bus, hiAddress);
    addr := Word(lo, hi);
    extra := 0;
  }

  method IndirectX(cpu: CPU) returns (addr: u16, extra: u8)
    modifies cpu
    ensures Resolve(Mode.IndirectX, old(cpu.Snapshot())) == Resolved(cpu.Snapshot(), addr, extra)
  {
    var operand := cpu.FetchByte();
    var ptr := Add8(operand, cpu.registers.x);
    addr := ZeroPageWord(cpu.bus, ptr);
    extra := 0;
  }

  method IndirectY(cpu: CPU) returns (addr: u16, extra: u8)
    modifies cpu
    ensures Resolve(Mode.IndirectY, old(cpu.Snapshot())) == Resolved(cpu.Snapshot(), addr, extra)
  {
    var ptr := cpu.FetchByte();
    var base := ZeroPageWord(cpu.bus, ptr);
    addr := Offset(base, cpu.registers.y);
    extra := PageCrossPenalty(base, addr);
  }

  method Relative(cpu: CPU) returns (addr: u16, extra: u8)
    modifies cpu
    ensures Resolve(Mode.Relative, old(cpu.Snapshot())) == Resolved(cpu.Snapshot(), addr, extra)
  {
    var offset := cpu.FetchByte();
    var pc := cpu.registers.pc;
    addr := Add16(pc, SignExtend(offset));
    extra := 0;
  }

  method ZeroPage(cpu: CPU) returns (addr: u16, extra: u8)
    modifies cpu
    ensures Resolve(Mode.ZeroPage, old(cpu.Snapshot())) == Resolved(cpu.Snapshot(), addr, extra)
  {
    var operand := cpu.FetchByte();
    addr := operand as u16;
    extra := 0;
  }

  method ZeroPageX(cpu: CPU) returns (addr: u16, extra: u8)
    modifies cpu
    ensures Resolve(Mode.ZeroPageX, old(cpu.Snapshot())) == Resolved(cpu.Snapshot(), addr, extra)
  {
    var operand := cpu.FetchByte();
    addr := Add8(operand, cpu.registers.x) as u16;
    extra := 0;
  }

  method ZeroPageY(cpu: CPU) returns (addr: u16, extra: u8)
    modifies cpu
    ensures Resolve(Mode.ZeroPageY, old(cpu.Snapshot())) == Resolved(cpu.Snapshot(), addr, extra)
  {
    var operand := cpu.FetchByte();
    addr := Add8(operand, cpu.registers.y) as u16;
    extra := 0;
  }

  /** Runs the addressing mode function that `mode` names, as `step` does
      through the table's function pointer. */
  method CallAddressingMode(cpu: CPU, mode: Mode) returns (addr: u16, extra: u8)
    modifies cpu
    ensures Resolve(mode, old(cpu.Snapshot())) == Resolved(cpu.Snapshot(), addr, extra)
  {
    match mode
    case Accumulator => addr, extra := Accumulator(cpu);
    case Absolute => addr, extra := Absolute(cpu);
    case AbsoluteX => addr, extra := AbsoluteX(cpu);
    case AbsoluteY => addr, extra := AbsoluteY(cpu);
    case Immediate => addr, extra := Immediate(cpu);
    case Implied => addr, extra := Implied(cpu);
    case Indirect => addr, extra := Indirect(cpu);
    case IndirectX => addr, extra := IndirectX(cpu);
    case IndirectY => addr, extra := IndirectY(cpu);
    case Relative => addr, extra := Relative(cpu);
    case ZeroPage => addr, extra := ZeroPage(cpu);
    case ZeroPageX => addr, extra := ZeroPageX(cpu);
    case ZeroPageY => addr, extra := ZeroPageY(cpu);
  }
}

/** What the addressing modes promise, stated about `Resolve`. */
module AddressingModeFacts {
  import opened Bits
  import opened RegisterFile
  import opened Cpu
  import opened AddressingModes

  /** Every mode consumes exactly its operand bytes: PC moves on by the
      mode's operand length, mod 2^16, and nothing else in the CPU changes. */
  lemma OnlyOperandBytesConsumed(mode: Mode, s: State)
    ensures var next := Resolve(mode, s).next;
      && next.registers.pc as int == (s.registers.pc as int + OperandLength(mode) as int) % 0x10000
      && next.registers.(pc := s.registers.pc) == s.registers
      && next.mem == s.mem && next.cycles == s.cycles
  {
    match mode
    case Accumulator | Implied | Immediate =>
    case Absolute | AbsoluteX | AbsoluteY | Indirect =>
      FetchWordLittleEndian(s);
    case IndirectX | IndirectY | Relative | ZeroPage | ZeroPageX | ZeroPageY =>
      FetchByteReadsAtPc(s);
  }

  /** `accumulator` and `implied` return address 0 with no extra cycle and
      leave the CPU as it was. */
  lemma NoOperandModes(s: State)
    ensures Resolve(Mode.Accumulator, s) == Resolved(s, 0, 0)
    ensures Resolve(Mode.Implied, s) == Resolved(s, 0, 0)
  {
  }

  /** `immediate` addresses the operand byte itself, at the current PC. */
  lemma ImmediateAddressesOperand(s: State)
    ensures Resolve(Mode.Immediate, s).addr == s.registers.pc
    ensures Resolve(Mode.Immediate, s).extra == 0
  {
  }

  /** The zero-page modes always stay in page zero: the index is added to the
      operand byte mod 256, so 0xFF + 1 gives address 0x0000. */
  lemma ZeroPageStaysInPageZero(mode: Mode, s: State)
    requires mode in {Mode.ZeroPage, Mode.ZeroPageX, Mode.ZeroPageY}
    ensures var r := Resolve(mode, s);
      var operand := Read(s.mem, s.registers.pc);
      var index := if mode == Mode.ZeroPageX then s.registers.x
                   else if mode == Mode.ZeroPageY then s.registers.y else 0;
      && r.addr < 0x100
      && r.addr as int == (operand as int + index as int) % 0x100
      && r.extra == 0
  {
  }

  /** `absolute_x` and `absolute_y` add the index to the little-endian operand
      word mod 2^16, and charge one extra cycle exactly when that changes the
      high byte. */
  lemma AbsoluteIndexedPenalty(mode: Mode, s: State)
    requires mode in {Mode.AbsoluteX, Mode.AbsoluteY}
    ensures var r := Resolve(mode, s);
      var base := Word(Read(s.mem, s.registers.pc), Read(s.mem, Add16(s.registers.pc, 1)));
      var index := if mode == Mode.AbsoluteX then s.registers.x else s.registers.y;
      && r.addr as int == (base as int + index as int) % 0x10000
      && (r.extra == 1 <==> Hi(base) != Hi(r.addr))
      && (r.extra == 0 <==> Hi(base) == Hi(r.addr))
  {
    FetchWordLittleEndian(s);
    var r := Resolve(mode, s);
    var (_, base) := s.FetchWord();
    WordOfHalves(base);
    SamePage(base, r.addr);
  }

  /** `indirect_y` reads a pointer in page zero, adds Y to it mod 2^16 and
      charges one extra cycle exactly when that changes the high byte. */
  lemma IndirectYPenalty(s: State)
    ensures var r := Resolve(Mode.IndirectY, s);
      var base := ZeroPageWord(s.mem, Read(s.mem, s.registers.pc));
      && r.addr as int == (base as int + s.registers.y as int) % 0x10000
      && (r.extra == 1 <==> Hi(base) != Hi(r.addr))
      && (r.extra == 0 <==> Hi(base) == Hi(r.addr))
  {
    var r := Resolve(Mode.IndirectY, s);
    var base := ZeroPageWord(s.mem, Read(s.mem, s.registers.pc));
    SamePage(base, r.addr);
  }

  /** `indirect_x` reads its pointer at the operand plus X, mod 256, and the
      pointer's high byte at the next address, again mod 256. */
  lemma IndirectXPointerInPageZero(s: State)
    ensures var operand := Read(s.mem, s.registers.pc);
      var lo := (operand as int + s.registers.x as int) % 0x100;
      var hi := (lo + 1) % 0x100;
      && Resolve(Mode.IndirectX, s).addr == Word(Read(s.mem, lo as u16), Read(s.mem, hi as u16))
      && Resolve(Mode.IndirectX, s).extra == 0
  {
  }

  /** A page-zero pointer at 0xFF takes its high byte from 0x0000, not 0x0100. */
  lemma ZeroPagePointerWraps(mem: Memory)
    ensures ZeroPageWord(mem, 0xFF) == Word(Read(mem, 0x00FF), Read(mem, 0x0000))
  {
  }

  /** `indirect` reproduces the 6502 page bug: a pointer ending in 0xFF takes
      its high byte from the start of the same page instead of the next page. */
  lemma IndirectPageBug(s: State)
    ensures var ptr := Word(Read(s.mem, s.registers.pc), Read(s.mem, Add16(s.registers.pc, 1)));
      var hiAddress := if Lo(ptr) == 0xFF then Word(0x00, Hi(ptr)) else Add16(ptr, 1);
      && Resolve(Mode.Indirect, s).addr == Word(Read(s.mem, ptr), Read(s.mem, hiAddress))
      && Resolve(Mode.Indirect, s).extra == 0
  {
    FetchWordLittleEndian(s);
    var (_, ptr) := s.FetchWord();
    WordOfHalves(ptr);
  }

  /** JMP ($10FF): the target's low byte comes from 0x10FF and its high byte
      from 0x1000. */
  lemma JmpIndirectAcrossPage(s: State)
    requires Read(s.mem, s.registers.pc) == 0xFF && Read(s.mem, Add16(s.registers.pc, 1)) == 0x10
    ensures Resolve(Mode.Indirect, s).addr == Word(Read(s.mem, 0x10FF), Read(s.mem, 0x1000))
  {
    IndirectPageBug(s);
  }

  /** `relative` adds the offset, read as a signed byte, to the PC after the
      offset byte, mod 2^16, with no extra cycle. */
  lemma RelativeTarget(s: State)
    ensures var r := Resolve(Mode.Relative, s);
      var offset := Read(s.mem, s.registers.pc);
      && r.addr as int == (s.registers.pc as int + 1 + Signed(offset)) % 0x10000
      && r.extra == 0
  {
  }

  /** Only the indexed absolute modes and `(zp),Y` ever charge the page-cross
      cycle, and never more than one. */
  lemma PenaltyAtMostOne(mode: Mode, s: State)
    ensures Resolve(mode, s).extra <= 1
    ensures Resolve(mode, s).extra == 1 ==> mode in {Mode.AbsoluteX, Mode.AbsoluteY, Mode.IndirectY}
  {
  }
}
