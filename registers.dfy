/** The register file of the primary design (src/registers.rs): the five
    registers and the status flags, kept as eight named booleans that are
    packed into a byte only when they go to or come from the stack. */
module RegisterFile {
  import opened Bits

  /** `StatusFlags`: one boolean per bit of the packed status byte. */
  datatype StatusFlags = StatusFlags(
    negative: bool,          // N, bit 7
    overflow: bool,          // V, bit 6
    unused: bool,            // U, bit 5
    breakMode: bool,         // B, bit 4
    decimalMode: bool,       // D, bit 3
    interruptDisable: bool,  // I, bit 2
    zero: bool,              // Z, bit 1
    carry: bool              // C, bit 0
  )

  /** `Registers`: accumulator, index registers, stack pointer, program counter and status. */
  datatype Registers = Registers(a: u8, x: u8, y: u8, sp: u8, pc: u16, status: StatusFlags)

  /** The flag that the packed byte holds at bit `k`: N V U B D I Z C from bit 7 down to bit 0. */
  function FlagAt(f: StatusFlags, k: nat): bool
    requires k < 8
  {
    if k == 7 then f.negative
    else if k == 6 then f.overflow
    else if k == 5 then f.unused
    else if k == 4 then f.breakMode
    else if k == 3 then f.decimalMode
    else if k == 2 then f.interruptDisable
    else if k == 1 then f.zero
    else f.carry
  }

  /** Whether bit `k` of `b` is set, `b & (1 << k) != 0`. */
  predicate BitSet(b: bv8, k: nat)
    requires k < 8
  {
    b & (1 << k) != 0
  }

  /** `StatusFlags::new`: every flag clear except U, so the packed byte is 0x20. */
  function NewStatusFlags(): (f: StatusFlags)
    ensures ToByte(f) == 0x20
    ensures forall k | 0 <= k < 8 :: FlagAt(f, k) == (k == 5)
  {
    StatusFlags(false, false, true, false, false, false, false, false)
  }

  /** `Registers::new`: A = X = Y = 0, SP = 0xFD, PC = 0 and fresh flags. */
  function NewRegisters(): (r: Registers)
    ensures r.a == 0 && r.x == 0 && r.y == 0 && r.sp == 0xFD && r.pc == 0
    ensures ToByte(r.status) == 0x20
  {
    Registers(0, 0, 0, 0xFD, 0, NewStatusFlags())
  }

  /** `StatusFlags::contains`: despite its name it compares all eight flags,
      so it is equality and not a subset test. */
  function Contains(self: StatusFlags, flag: StatusFlags): (r: bool)
    ensures r <==> self == flag
  {
    && self.negative == flag.negative
    && self.overflow == flag.overflow
    && self.unused == flag.unused
    && self.breakMode == flag.breakMode
    && self.decimalMode == flag.decimalMode
    && self.interruptDisable == flag.interruptDisable
    && self.zero == flag.zero
    && self.carry == flag.carry
  }

  /** `StatusFlags::to_byte`: each flag becomes the bit that `FlagAt` assigns
      it. The packed byte is kept as a bit pattern, the form in which the
      source masks it. */
  function ToByte(f: StatusFlags): (b: bv8)
    ensures forall k | 0 <= k < 8 :: BitSet(b, k) == FlagAt(f, k)
  {
    (if f.negative then 0x80 else 0)
    | (if f.overflow then 0x40 else 0)
    | (if f.unused then 0x20 else 0)
    | (if f.breakMode then 0x10 else 0)
    | (if f.decimalMode then 0x08 else 0)
    | (if f.interruptDisable then 0x04 else 0)
    | (if f.zero then 0x02 else 0)
    | (if f.carry then 0x01 else 0)
  }

  /** `StatusFlags::from_byte`: every flag is overwritten from its bit.
      Bits 4 and 5 are copied as given, not forced, so packing the result
      gives the same byte back. */
  function FromByte(b: bv8): (f: StatusFlags)
    ensures forall k | 0 <= k < 8 :: FlagAt(f, k) == BitSet(b, k)
    ensures ToByte(f) == b
  {
    StatusFlags(
      b & 0x80 != 0,
      b & 0x40 != 0,
      b & 0x20 != 0,
      b & 0x10 != 0,
      b & 0x08 != 0,
      b & 0x04 != 0,
      b & 0x02 != 0,
      b & 0x01 != 0)
  }

  /** Unpacking a packed status byte restores all eight flags. */
  lemma FromByteOfToByte(f: StatusFlags)
    ensures FromByte(ToByte(f)) == f
  {
  }
}
