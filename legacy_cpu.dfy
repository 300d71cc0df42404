/** The earlier, self-contained design of the crate root: a CPU whose
    registers, status byte and 64 KiB memory are plain fields, with
    `new`, `reset`, `read`, `read_u16` and `write`. The status register is
    a raw byte here and the flags are bit constants. The fields `addrAbs`,
    `addrRel` and `fetchedData`, which the earlier addressing modes assign,
    belong to the same CPU. */
module LegacyCpu {
  import opened Bits
  import opened RegisterFile

  /** The `StatusFlags` bit constants. */
  const None: u8 := 0x00
  const Carry: u8 := 0x01
  const Zero: u8 := 0x02
  const InterruptDisable: u8 := 0x04
  const Decimal: u8 := 0x08
  const Break: u8 := 0x10
  const Unused: u8 := 0x20
  const Overflow: u8 := 0x40
  const Negative: u8 := 0x80

  /** The eight flag constants from bit 0 (Carry) up to bit 7 (Negative). */
  function FlagBit(k: nat): u8
    requires k < 8
  {
    [Carry, Zero, InterruptDisable, Decimal, Break, Unused, Overflow, Negative][k]
  }

  /** Each flag constant is the single bit `k` of the status byte, rising
      strictly from Carry to Negative, and it sits where the later design's
      `to_byte` packs the same flag: masking a packed status byte with it
      tests exactly that flag. The byte `reset` installs unpacks to the later
      design's fresh flags with I set. */
  lemma {:induction false} FlagsMatchPackedStatus()
    ensures forall k | 0 <= k < 8 :: FlagBit(k) as bv8 == 1 << k
    ensures forall j, k | 0 <= j < k < 8 :: FlagBit(j) < FlagBit(k)
    ensures forall f: StatusFlags, k | 0 <= k < 8 :: (ToByte(f) & FlagBit(k) as bv8 != 0) == FlagAt(f, k)
    ensures FromByte(ResetStatus() as bv8) == NewStatusFlags().(interruptDisable := true)
  {
    forall k | 0 <= k < 8
      ensures FlagBit(k) as bv8 == 1 << k
    {
      if k == 0 {
      } else if k == 1 {
      } else if k == 2 {
      } else if k == 3 {
      } else if k == 4 {
      } else if k == 5 {
      } else if k == 6 {
      } else {
      }
    }
  }

  /** The status byte `reset` installs: `None | Unused | InterruptDisable`. */
  function ResetStatus(): (b: u8)
    ensures b == 0x24
    ensures And8(b, Unused) == Unused && And8(b, InterruptDisable) == InterruptDisable
    ensures forall k | 0 <= k < 8 && k != 2 && k != 5 :: And8(b, FlagBit(k)) == None
  {
    Or8(Or8(None, Unused), InterruptDisable)
  }

  /** The register values of the earlier CPU, taken together. */
  datatype Snapshot = Snapshot(
    a: u8, x: u8, y: u8, sp: u8, pc: u16, status: u8,
    addrAbs: u16, addrRel: u16, fetchedData: u8)

  const MemorySize: nat := 0x10000

  /** `read_u16` on a memory image: the byte at `address` is the low half,
      the byte at `address + 1` the high half. The `+ 1` does not wrap, so
      the last address is outside the contract. */
  function WordAt(memory: seq<u8>, address: u16): (w: u16)
    requires |memory| == MemorySize
    requires address < 0xFFFF
    ensures Lo(w) == memory[address] && Hi(w) == memory[address as int + 1]
    ensures w as int == memory[address] as int + 0x100 * memory[address as int + 1] as int
  {
    Word(memory[address], memory[address as int + 1])
  }

  class Cpu {
    var a: u8
    var x: u8
    var y: u8
    var sp: u8
    var pc: u16
    var status: u8
    var memory: array<u8>
    var addrAbs: u16
    var addrRel: u16
    var fetchedData: u8

    /** The memory is always exactly 64 KiB. */
    predicate Valid()
      reads this
    {
      memory.Length == MemorySize
    }

    /** The registers as a value. */
    function State(): Snapshot
      reads this
    {
      Snapshot(a, x, y, sp, pc, status, addrAbs, addrRel, fetchedData)
    }

    /** `Cpu::new`: every register zero, status `None`, 65,536 zero bytes. */
    constructor ()
      ensures Valid() && fresh(memory)
      ensures State() == Snapshot(0, 0, 0, 0, 0, None, 0, 0, 0)
      ensures forall i | 0 <= i < MemorySize :: memory[i] == 0
    {
      a, x, y, sp, pc, status := 0, 0, 0, 0, 0, None;
      memory := new u8[MemorySize](_ => 0);
      addrAbs, addrRel, fetchedData := 0, 0, 0;
    }

    /** `read`: the byte stored at `address`. */
    function Read(address: u16): u8
      requires Valid()
      reads this, memory
    {
      memory[address]
    }

    /** `read_u16`: the little-endian word at `address`; `address + 1` must
      not overflow. */
    function ReadU16(address: u16): (w: u16)
      requires Valid()
      requires address < 0xFFFF
      reads this, memory
      ensures Lo(w) == Read(address) && Hi(w) == Read(address + 1)
    {
      WordAt(memory[..], address)
    }

    /** `write`: after it `address` holds `value` and no other byte changed. */
    method Write(address: u16, value: u8)
      requires Valid()
      modifies memory
      ensures Read(address) == value
      ensures forall i | 0 <= i < MemorySize && i != address as int :: memory[i] == old(memory[i])
    {
      memory[address] := value;
    }

    /** `reset`: A, X and Y cleared, SP 0xFD, status Unused | InterruptDisable
      and PC loaded from the reset vector, which is a constant of a module
      outside this model and so a parameter here. */
    method Reset(resetVector: u16)
      requires Valid()
      requires resetVector < 0xFFFF
      modifies this
      ensures Valid() && memory == old(memory)
      ensures State() == old(State()).(a := 0, x := 0, y := 0, sp := 0xFD,
                                       pc := WordAt(memory[..], resetVector), status := ResetStatus())
    {
      a := 0;
      x := 0;
      y := 0;
      sp := 0xFD;
      pc := ReadU16(resetVector);
      status := Or8(Or8(None, Unused), InterruptDisable);
    }
  }
}
