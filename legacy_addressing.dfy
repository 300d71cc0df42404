/** The earlier design's addressing modes: one `execute` over an enum of
    thirteen modes, which leaves the effective address in `addrAbs` (or the
    branch offset in `addrRel`, or the operand in `fetchedData`), moves PC
    past the operand and answers whether the mode costs an extra cycle.
    Its `+` operators do not wrap, so each mode requires the operands that
    keep them in range. */
module LegacyAddressing {
  import opened Bits
  import LegacyCpu

  datatype AddressingMode =
    | None
    | Absolute
    | AbsoluteX
    | AbsoluteY
    | Immediate
    | Implied
    | Indirect
    | IndexedIndirect
    | IndirectIndexed
    | Relative
    | ZeroPage
    | ZeroPageX
    | ZeroPageY
  {
    /** `execute` on a CPU object. */
    method Execute(cpu: LegacyCpu.Cpu) returns (extra: bool)
      requires cpu.Valid()
      requires InRange(this, cpu.State(), cpu.memory[..])
      modifies cpu
      ensures cpu.memory == old(cpu.memory)
      ensures (cpu.State(), extra) == Effect(this, old(cpu.State()), cpu.memory[..])
    {
      match this
      case None =>
        return false;
      case Immediate =>
        cpu.addrAbs := cpu.pc;
        cpu.pc := cpu.pc + 1;
        return false;
      case Implied =>
        cpu.fetchedData := cpu.a;
        return false;
      case Absolute =>
        extra := ExecuteAbsolute(cpu);
      case AbsoluteX | AbsoluteY =>
        extra := ExecuteAbsoluteIndexed(this, cpu);
      case Indirect =>
        extra := ExecuteIndirect(cpu);
      case IndexedIndirect | IndirectIndexed =>
        extra := ExecuteZeroPagePointer(this, cpu);
      case Relative | ZeroPage | ZeroPageX | ZeroPageY =>
        extra := ExecuteByteOperand(this, cpu);
    }
  }

  /** The absolute arm of `execute`: the operand word is the address. */
  method ExecuteAbsolute(cpu: LegacyCpu.Cpu) returns (extra: bool)
    requires cpu.Valid()
    requires InRange(Absolute, cpu.State(), cpu.memory[..])
    modifies cpu
    ensures cpu.memory == old(cpu.memory)
    ensures (cpu.State(), extra) == Effect(Absolute, old(cpu.State()), cpu.memory[..])
  {
    var address := cpu.ReadU16(cpu.pc);
    cpu.addrAbs := address;
    cpu.pc := cpu.pc + 2;
    return false;
  }

  /** The indexed absolute arms of `execute`: the operand word plus X or Y,
      with an extra cycle when the sum lies on another page. */
  method ExecuteAbsoluteIndexed(mode: AddressingMode, cpu: LegacyCpu.Cpu) returns (extra: bool)
    requires mode.AbsoluteX? || mode.AbsoluteY?
    requires cpu.Valid()
    requires InRange(mode, cpu.State(), cpu.memory[..])
    modifies cpu
    ensures cpu.memory == old(cpu.memory)
    ensures (cpu.State(), extra) == Effect(mode, old(cpu.State()), cpu.memory[..])
  {
    var address := cpu.ReadU16(cpu.pc);
    var index := if mode.AbsoluteX? then cpu.x else cpu.y;
    cpu.addrAbs := address + index as u16;
    cpu.pc := cpu.pc + 2;
    if Page(cpu.addrAbs) != Page(address) {
      return true;
    }
    return false;
  }

  /** The indirect arm of `execute`, with the page bug. */
  method ExecuteIndirect(cpu: LegacyCpu.Cpu) returns (extra: bool)
    requires cpu.Valid()
    requires InRange(Indirect, cpu.State(), cpu.memory[..])
    modifies cpu
    ensures cpu.memory == old(cpu.memory)
    ensures (cpu.State(), extra) == Effect(Indirect, old(cpu.State()), cpu.memory[..])
  {
    var addrLo := cpu.Read(cpu.pc);
    var addrHi := cpu.Read(cpu.pc + 1);
    var addr := Word(addrLo, addrHi);
    if addrLo == 0xFF {
      cpu.addrAbs := Word(cpu.Read(addr), cpu.Read(Page(addr)));
    } else {
      cpu.addrAbs := Word(cpu.Read(addr), cpu.Read(addr + 1));
    }
    cpu.pc := cpu.pc + 2;
    return false;
  }

  /** The arms of `execute` that read a pointer from page zero. */
  method ExecuteZeroPagePointer(mode: AddressingMode, cpu: LegacyCpu.Cpu) returns (extra: bool)
    requires mode.IndexedIndirect? || mode.IndirectIndexed?
    requires cpu.Valid()
    requires InRange(mode, cpu.State(), cpu.memory[..])
    modifies cpu
    ensures cpu.memory == old(cpu.memory)
    ensures (cpu.State(), extra) == Effect(mode, old(cpu.State()), cpu.memory[..])
  {
    if mode.IndexedIndirect? {
      var temp := cpu.Read(cpu.pc);
      var lo := cpu.Read(temp as u16 + cpu.x as u16);
      var hi := cpu.Read(temp as u16 + cpu.x as u16 + 1);
      cpu.addrAbs := Word(lo, hi);
      cpu.pc := cpu.pc + 1;
      return false;
    } else {
      var temp := cpu.Read(cpu.pc);
      var lo := cpu.Read(temp as u16);
      var hi := cpu.Read(temp as u16 + 1);
      cpu.addrAbs := Word(lo, hi);
      cpu.pc := cpu.pc + 1;
      if Page(cpu.addrAbs) != Word(0, hi) {
        return true;
      }
      return false;
    }
  }

  /** The arms of `execute` whose operand is one byte used directly. */
  method ExecuteByteOperand(mode: AddressingMode, cpu: LegacyCpu.Cpu) returns (extra: bool)
    requires mode.Relative? || mode.ZeroPage? || mode.ZeroPageX? || mode.ZeroPageY?
    requires cpu.Valid()
    requires InRange(mode, cpu.State(), cpu.memory[..])
    modifies cpu
    ensures cpu.memory == old(cpu.memory)
    ensures (cpu.State(), extra) == Effect(mode, old(cpu.State()), cpu.memory[..])
  {
    match mode
    case Relative =>
      cpu.addrRel := cpu.Read(cpu.pc) as u16;
      cpu.pc := cpu.pc + 1;
      if Bit7(Lo(cpu.addrRel)) {
        cpu.addrRel := Word(Lo(cpu.addrRel), 0xFF);
      }
      return false;
    case ZeroPage =>
      cpu.addrAbs := LowByte(cpu.Read(cpu.pc) as u16);
      cpu.pc := cpu.pc + 1;
      return false;
    case ZeroPageX =>
      cpu.addrAbs := LowByte(cpu.Read(cpu.pc) as u16 + cpu.x as u16);
      cpu.pc := cpu.pc + 1;
      return false;
    case ZeroPageY =>
      cpu.addrAbs := LowByte(cpu.Read(cpu.pc) as u16 + cpu.y as u16);
      cpu.pc := cpu.pc + 1;
      return false;
    case _ =>
      assert false;
  }

  /** `w & 0x00FF`: the low byte of `w`, always below 0x100. */
  function LowByte(w: u16): (r: u16)
    ensures r < 0x100 && r as int == w as int % 0x100
  {
    Lo(w) as u16
  }

  /** What each mode needs so that none of its non-wrapping additions
      overflows: PC plus the operand length, the base word plus the index,
      and the `pc + 1` that `read_u16` performs. */
  predicate InRange(mode: AddressingMode, s: LegacyCpu.Snapshot, mem: seq<u8>)
    requires |mem| == LegacyCpu.MemorySize
  {
    match mode
    case None | Implied => true
    case Immediate | IndexedIndirect | IndirectIndexed | Relative | ZeroPage | ZeroPageX | ZeroPageY =>
      s.pc < 0xFFFF
    case Absolute | Indirect => s.pc < 0xFFFE
    case AbsoluteX => s.pc < 0xFFFE && LegacyCpu.WordAt(mem, s.pc) as int + s.x as int < 0x10000
    case AbsoluteY => s.pc < 0xFFFE && LegacyCpu.WordAt(mem, s.pc) as int + s.y as int < 0x10000
  }

  /** The effect of `execute` on registers `s` over memory `mem`: the new
      registers and whether an extra cycle is due. */
  function Effect(mode: AddressingMode, s: LegacyCpu.Snapshot, mem: seq<u8>): (LegacyCpu.Snapshot, bool)
    requires |mem| == LegacyCpu.MemorySize
    requires InRange(mode, s, mem)
  {
    match mode
    case None => (s, false)
    case Absolute =>
      (s.(addrAbs := LegacyCpu.WordAt(mem, s.pc), pc := s.pc + 2), false)
    case AbsoluteX =>
      var base := LegacyCpu.WordAt(mem, s.pc);
      var target := base + s.x as u16;
      (s.(addrAbs := target, pc := s.pc + 2), Page(target) != Page(base))
    case AbsoluteY =>
      var base := LegacyCpu.WordAt(mem, s.pc);
      var target := base + s.y as u16;
      (s.(addrAbs := target, pc := s.pc + 2), Page(target) != Page(base))
    case Immediate =>
      (s.(addrAbs := s.pc, pc := s.pc + 1), false)
    case Implied =>
      (s.(fetchedData := s.a), false)
    case Indirect =>
      var ptr := Word(mem[s.pc], mem[s.pc + 1]);
      var target :=
        if mem[s.pc] == 0xFF then Word(mem[ptr], mem[Page(ptr)])
        else Word(mem[ptr], mem[ptr + 1]);
      (s.(addrAbs := target, pc := s.pc + 2), false)
    case IndexedIndirect =>
      var pointer := mem[s.pc] as int + s.x as int;
      (s.(addrAbs := Word(mem[pointer], mem[pointer + 1]), pc := s.pc + 1), false)
    case IndirectIndexed =>
      var pointer := mem[s.pc];
      var hi := mem[pointer as int + 1];
      var target := Word(mem[pointer], hi);
      (s.(addrAbs := target, pc := s.pc + 1), Page(target) != Word(0, hi))
    case Relative =>
      var offset := mem[s.pc];
      (s.(addrRel := if Bit7(offset) then Word(offset, 0xFF) else offset as u16, pc := s.pc + 1), false)
    case ZeroPage =>
      (s.(addrAbs := LowByte(mem[s.pc] as u16), pc := s.pc + 1), false)
    case ZeroPageX =>
      (s.(addrAbs := LowByte(mem[s.pc] as u16 + s.x as u16), pc := s.pc + 1), false)
    case ZeroPageY =>
      (s.(addrAbs := LowByte(mem[s.pc] as u16 + s.y as u16), pc := s.pc + 1), false)
  }

  /** The number of operand bytes each mode consumes. */
  function OperandLength(mode: AddressingMode): nat {
    match mode
    case None | Implied => 0
    case Absolute | AbsoluteX | AbsoluteY | Indirect => 2
    case _ => 1
  }
}

/** What the earlier addressing modes promise, stated about `Effect`. */
module LegacyAddressingFacts {
  import opened Bits
  import LegacyCpu
  import opened LegacyAddressing

  /** Every mode moves PC past exactly its operand bytes, writes at most one
      of `addrAbs`, `addrRel` and `fetchedData`, and leaves A, X, Y, SP and
      the status byte alone. */
  lemma OnlyScratchFieldsChange(mode: AddressingMode, s: LegacyCpu.Snapshot, mem: seq<u8>)
    requires |mem| == LegacyCpu.MemorySize && InRange(mode, s, mem)
    ensures var (next, _) := Effect(mode, s, mem);
            && next.pc as int == s.pc as int + OperandLength(mode)
            && next.(pc := s.pc, addrAbs := s.addrAbs, addrRel := s.addrRel, fetchedData := s.fetchedData) == s
            && (next.addrRel != s.addrRel ==> mode == Relative)
            && (next.fetchedData != s.fetchedData ==> mode == Implied)
  {
  }

  /** Only the two absolute indexed modes ever report an extra cycle, and
      they do exactly when the index moves the address to another page. */
  lemma ExtraCycleOnPageCross(mode: AddressingMode, s: LegacyCpu.Snapshot, mem: seq<u8>)
    requires |mem| == LegacyCpu.MemorySize && InRange(mode, s, mem)
    ensures var (next, extra) := Effect(mode, s, mem);
            && (mode in {AbsoluteX, AbsoluteY} ==>
                  var base := LegacyCpu.WordAt(mem, s.pc);
                  var index := if mode == AbsoluteX then s.x else s.y;
                  && next.addrAbs as int == base as int + index as int
                  && (extra <==> Hi(next.addrAbs) != Hi(base)))
            && (extra ==> mode in {AbsoluteX, AbsoluteY})
  {
    if mode in {AbsoluteX, AbsoluteY} {
      var (next, _) := Effect(mode, s, mem);
      SamePage(next.addrAbs, LegacyCpu.WordAt(mem, s.pc));
    } else if mode == IndirectIndexed {
      var pointer := mem[s.pc];
      var hi := mem[pointer as int + 1];
      var target := Word(mem[pointer], hi);
      assert Page(target) == Word(0, hi);
    }
  }

  /** The zero-page modes always produce an address in page zero: the
      operand plus the index, mod 256. */
  lemma ZeroPageStaysInPageZero(mode: AddressingMode, s: LegacyCpu.Snapshot, mem: seq<u8>)
    requires mode in {ZeroPage, ZeroPageX, ZeroPageY}
    requires |mem| == LegacyCpu.MemorySize && InRange(mode, s, mem)
    ensures var (next, extra) := Effect(mode, s, mem);
            var index := if mode == ZeroPage then 0 else if mode == ZeroPageX then s.x as int else s.y as int;
            && next.addrAbs < 0x100
            && next.addrAbs as int == (mem[s.pc] as int + index) % 0x100
            && !extra
  {
  }

  /** `Immediate` addresses the operand byte itself, `Implied` copies A into
      `fetchedData`, and `None` changes nothing. */
  lemma OperandFreeModes(s: LegacyCpu.Snapshot, mem: seq<u8>)
    requires |mem| == LegacyCpu.MemorySize && s.pc < 0xFFFF
    ensures Effect(Immediate, s, mem) == (s.(addrAbs := s.pc, pc := s.pc + 1), false)
    ensures Effect(Implied, s, mem).0.fetchedData == s.a
    ensures Effect(None, s, mem) == (s, false)
  {
  }

  /** `Indirect` reproduces the 6502 page bug: a pointer ending in 0xFF takes
      its high byte from the start of the same page. */
  lemma IndirectPageBug(s: LegacyCpu.Snapshot, mem: seq<u8>)
    requires |mem| == LegacyCpu.MemorySize && s.pc < 0xFFFE
    ensures var ptr := LegacyCpu.WordAt(mem, s.pc);
            var hiAddress := if Lo(ptr) == 0xFF then Word(0, Hi(ptr)) else ptr + 1;
            Effect(Indirect, s, mem).0.addrAbs == Word(mem[ptr], mem[hiAddress])
  {
  }

  /** `Relative` leaves the offset sign-extended to 16 bits in `addrRel`: OR-ing
      0xFF00 into a byte with bit 7 set is the same as sign extension. */
  lemma RelativeSignExtends(s: LegacyCpu.Snapshot, mem: seq<u8>)
    requires |mem| == LegacyCpu.MemorySize && s.pc < 0xFFFF
    ensures var (next, extra) := Effect(Relative, s, mem);
            && next.addrRel == SignExtend(mem[s.pc])
            && next.addrRel as int == Signed(mem[s.pc]) % 0x10000
            && !extra
  {
  }

  /** As written, `IndirectIndexed` never adds Y: the effective address is
      the page-zero pointer itself, and the page test compares that address
      with its own high byte, so it never reports an extra cycle. With
      Y = 1 and the pointer at 0x10 holding 0x1234, the address is 0x1234,
      not 0x1235. */
  lemma IndirectIndexedIgnoresY(s: LegacyCpu.Snapshot, mem: seq<u8>)
    requires |mem| == LegacyCpu.MemorySize && s.pc < 0xFFFF
    ensures var pointer := mem[s.pc];
            var (next, extra) := Effect(IndirectIndexed, s, mem);
            && next.addrAbs == Word(mem[pointer], mem[pointer as int + 1])
            && !extra
    ensures s.y == 1 && mem[s.pc] == 0x10 && mem[0x10] == 0x34 && mem[0x11] == 0x12 ==>
            Effect(IndirectIndexed, s, mem).0.addrAbs == 0x1234
  {
    var pointer := mem[s.pc];
    var hi := mem[pointer as int + 1];
    assert Page(Word(mem[pointer], hi)) == Word(0, hi);
  }

  /** As written, `IndexedIndirect` does not wrap the pointer within page
      zero: with operand 0xFF and X = 1 it reads the pointer from 0x0100 and
      0x0101 instead of 0x0000 and 0x0001. */
  lemma IndexedIndirectLeavesPageZero(s: LegacyCpu.Snapshot, mem: seq<u8>)
    requires |mem| == LegacyCpu.MemorySize && s.pc < 0xFFFF
    ensures var pointer := mem[s.pc] as int + s.x as int;
            Effect(IndexedIndirect, s, mem).0.addrAbs == Word(mem[pointer], mem[pointer + 1])
    ensures mem[s.pc] == 0xFF && s.x == 1 ==>
            Effect(IndexedIndirect, s, mem).0.addrAbs == Word(mem[0x100], mem[0x101])
  {
  }
}
