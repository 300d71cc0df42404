/** The one fact about bit patterns that needs a solver context of its own:
    a number in 0..255 survives the trip to its 8-bit pattern and back. */
module BitPatterns {
  lemma NumberOfBits(n: int)
    requires 0 <= n < 0x100
    ensures (n as bv8) as int == n
  {
  }
}

/** Byte and word arithmetic shared by both CPU designs. Rust's `u8` and
    `u16` become bounded integer types, and every wrapping operation the
    source relies on (`wrapping_add`, `wrapping_sub`, `as u8` truncation) is
    written out, with its meaning as a remainder stated beside it. The bitwise operators `&`, `|` and `^` on
    whole bytes go through Dafny's 8-bit bit-vectors. */
module Bits {
  import BitPatterns

  newtype u8 = x: int | 0 <= x < 0x100
  newtype u16 = x: int | 0 <= x < 0x10000

  /** `a.wrapping_add(b)` on bytes. */
  function Add8(a: u8, b: u8): (r: u8)
    ensures r as int == (a as int + b as int) % 0x100
  {
    if a as int + b as int < 0x100 then a + b else (a as int + b as int - 0x100) as u8
  }

  /** `a.wrapping_sub(b)` on bytes. */
  function Sub8(a: u8, b: u8): (r: u8)
    ensures r as int == (a as int - b as int) % 0x100
  {
    if a >= b then a - b else (a as int - b as int + 0x100) as u8
  }

  /** `a.wrapping_add(b)` on words. */
  function Add16(a: u16, b: u16): (r: u16)
    ensures r as int == (a as int + b as int) % 0x10000
  {
    if a as int + b as int < 0x10000 then a + b else (a as int + b as int - 0x10000) as u16
  }

  /** `a.wrapping_sub(b)` on words. */
  function Sub16(a: u16, b: u16): (r: u16)
    ensures r as int == (a as int - b as int) % 0x10000
  {
    if a >= b then a - b else (a as int - b as int + 0x10000) as u16
  }

  /** Wrapping addition undoes wrapping subtraction. */
  lemma SubThenAdd16(a: u16, b: u16)
    ensures Add16(Sub16(a, b), b) == a
  {
  }

  /** The low byte of a word: `w as u8`, or `(w & 0xFF) as u8`. */
  function Lo(w: u16): u8 {
    (w % 0x100) as u8
  }

  /** The high byte of a word: `(w >> 8) as u8`. */
  function Hi(w: u16): u8 {
    (w / 0x100) as u8
  }

  /** The little-endian word `(hi as u16) << 8 | lo as u16`; the two bytes
      occupy disjoint bits, so the `|` is a sum. */
  function Word(lo: u8, hi: u8): (w: u16)
    ensures Lo(w) == lo && Hi(w) == hi
  {
    (hi as int * 0x100 + lo as int) as u16
  }

  /** Splitting a word into its bytes and joining them again gives the word back. */
  lemma WordOfHalves(w: u16)
    ensures Word(Lo(w), Hi(w)) == w
  {
  }

  /** `base.wrapping_add(index as u16)`: a byte index added to a word, mod 2^16. */
  function Offset(base: u16, index: u8): u16 {
    Add16(base, index as u16)
  }

  /** The page of an address, `addr & 0xFF00`: the address with its low byte cleared. */
  function Page(w: u16): u16 {
    (Hi(w) as int * 0x100) as u16
  }

  /** Two addresses are on the same page exactly when their high bytes agree. */
  lemma SamePage(v: u16, w: u16)
    ensures Page(v) == Page(w) <==> Hi(v) == Hi(w)
  {
  }

  /** Bit 7 of a byte, its sign bit: `b & 0x80 != 0`. */
  predicate Bit7(b: u8) {
    b >= 0x80
  }

  /** Bit 6 of a byte: `b & 0x40 != 0`. */
  predicate Bit6(b: u8) {
    b % 0x80 >= 0x40
  }

  /** Bit 0 of a byte: `b & 0x01 != 0`. */
  predicate Bit0(b: u8) {
    b % 2 == 1
  }

  /** The value of a byte read as two's complement, `b as i8`. */
  function Signed(b: u8): (v: int)
    ensures -0x80 <= v < 0x80
    ensures v % 0x100 == b as int
    ensures v < 0 <==> Bit7(b)
  {
    if b < 0x80 then b as int else b as int - 0x100
  }

  /** `b as i8 as u16`: the byte sign-extended to a word. The low byte is
      kept and the high byte repeats the sign bit, so as a number it is the
      byte's signed value mod 2^16. */
  function SignExtend(b: u8): (w: u16)
    ensures Lo(w) == b
    ensures Hi(w) == if Bit7(b) then 0xFF else 0x00
    ensures w as int == Signed(b) % 0x10000
  {
    if Bit7(b) then (0xFF00 + b as int) as u16 else b as u16
  }

  /** `a & b` on bytes. */
  function And8(a: u8, b: u8): u8 {
    ((a as bv8) & (b as bv8)) as u8
  }

  /** `a | b` on bytes. */
  function Or8(a: u8, b: u8): u8 {
    ((a as bv8) | (b as bv8)) as u8
  }

  /** `a ^ b` on bytes. */
  function Xor8(a: u8, b: u8): u8 {
    ((a as bv8) ^ (b as bv8)) as u8
  }

  /** A bit pattern read as a number and turned back into bits is unchanged. */
  lemma BitsOfByte(b: bv8)
    ensures (b as u8) as bv8 == b
  {
  }

  /** A byte turned into its bit pattern and read back as a number is unchanged. */
  lemma ByteOfBits(u: u8)
    ensures (u as bv8) as u8 == u
  {
    BitPatterns.NumberOfBits(u as int);
  }

  /** The arithmetic bit tests agree with the masks the source writes:
      `b & 0x80`, `b & 0x40` and `b & 0x01`. */
  lemma MaskTests(b: u8)
    ensures And8(b, 0x80) != 0 <==> Bit7(b)
    ensures And8(b, 0x40) != 0 <==> Bit6(b)
    ensures And8(b, 0x01) != 0 <==> Bit0(b)
  {
  }

  lemma AndAbsorbs(a: bv8, m: bv8)
    ensures (a & m) & m == a & m
  {
  }

  /** Masking a byte twice with the same mask is masking it once. */
  lemma AndTwice(a: u8, m: u8)
    ensures And8(And8(a, m), m) == And8(a, m)
  {
    var bits := (a as bv8) & (m as bv8);
    BitsOfByte(bits);
    AndAbsorbs(a as bv8, m as bv8);
  }

  lemma XorCancels(a: bv8, m: bv8)
    ensures (a ^ m) ^ m == a
  {
  }

  /** Exclusive or with the same byte twice gives the byte back. */
  lemma XorTwice(a: u8, m: u8)
    ensures Xor8(Xor8(a, m), m) == a
  {
    var bits := (a as bv8) ^ (m as bv8);
    BitsOfByte(bits);
    XorCancels(a as bv8, m as bv8);
    ByteOfBits(a);
  }
}
