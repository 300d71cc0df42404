/** The byte arithmetic of the instruction handlers in src/instructions.rs:
    binary and decimal addition and subtraction, the overflow tests they
    write with masks, and the shifts and rotations. Each is stated the way
    the handler computes it, and the lemmas of this module say what it
    computes: a sum mod 256 with its carry, a signed overflow, a BCD sum or
    difference, a nine-bit rotation. */
module Alu {
  import opened Bits

  /** The carry flag as the number the handlers add: 1 when set. */
  function CarryValue(c: bool): int {
    if c then 1 else 0
  }

  /** `((!(a ^ m) & (a ^ r)) & 0x80) != 0`, ADC's overflow test. */
  predicate AddOverflow(a: u8, m: u8, r: u8) {
    (!((a as bv8) ^ (m as bv8)) & ((a as bv8) ^ (r as bv8)) & 0x80) != 0
  }

  /** `((a ^ r) & (a ^ m) & 0x80) != 0`, SBC's overflow test. */
  predicate SubOverflow(a: u8, m: u8, r: u8) {
    (((a as bv8) ^ (r as bv8)) & ((a as bv8) ^ (m as bv8)) & 0x80) != 0
  }

  /** Binary ADC: the `u16` sum `a + m + carry`, truncated to a byte, and the carry out `sum > 0xFF`. */
  function BinaryAdd(a: u8, m: u8, carryIn: bool): (u8, bool) {
    var sum := a as int + m as int + CarryValue(carryIn);
    ((sum % 0x100) as u8, sum > 0xFF)
  }

  /** Decimal ADC as the handler computes it: the low digits are added with
      the carry and corrected by 6 past 9, the correction carries into the
      high digits, which are corrected by 6 past 9 in turn; the result is
      `(ah << 4) | (al & 0x0F)` in a byte, where the shift keeps only the low
      four bits of `ah`, and the carry out is `ah > 0x0F`. */
  function DecimalAdd(a: u8, m: u8, carryIn: bool): (u8, bool) {
    DecimalAdjust((a % 0x10) as int + (m % 0x10) as int + CarryValue(carryIn), (a / 0x10) as int + (m / 0x10) as int)
  }

  /** The corrections DecimalAdd applies to the low digit sum `al` and the
      high digit sum `ah`. */
  function DecimalAdjust(al: int, ah: int): (u8, bool)
    requires 0 <= al <= 0x1F && 0 <= ah <= 0x1E
  {
    var al1 := if al > 9 then al + 6 else al;
    var ah1 := if al1 > 0x0F then ah + 1 else ah;
    var al2 := if al1 > 0x0F then al1 % 0x10 else al1;
    var ah2 := if ah1 > 9 then ah1 + 6 else ah1;
    (((ah2 % 0x10) * 0x10 + al2 % 0x10) as u8, ah2 > 0x0F)
  }

  /** Binary SBC: the `u16` difference `a - m - (1 - carry)`, wrapping. */
  function BinarySubtract(a: u8, m: u8, carryIn: bool): u16 {
    Sub16(Sub16(a as u16, m as u16), (1 - CarryValue(carryIn)) as u16)
  }

  /** Decimal SBC's `i16` difference `a - m - (1 - carry)`, before any correction. */
  function DecimalDifference(a: u8, m: u8, carryIn: bool): (d: int)
    ensures -0x100 <= d < 0x100
  {
    a as int - m as int - (1 - CarryValue(carryIn))
  }

  /** Decimal SBC's accumulator: the difference less 6 when the low digit
      borrows, less 0x60 more when it is then negative, taken `& 0xFF`. */
  function DecimalSubtract(a: u8, m: u8, carryIn: bool): u8 {
    var t0 := DecimalDifference(a, m, carryIn);
    var t1 := if (a % 0x10) as int < (m % 0x10) as int + (1 - CarryValue(carryIn)) then t0 - 6 else t0;
    var t2 := if t1 < 0 then t1 - 0x60 else t1;
    (t2 % 0x100) as u8
  }

  /** `value << 1` on a byte: bit 7 falls off. */
  function ShiftLeft(v: u8): u8 {
    ((v as int * 2) % 0x100) as u8
  }

  /** `value >> 1` on a byte. */
  function ShiftRight(v: u8): u8 {
    v / 2
  }

  /** `(m >> 1) | (old_carry << 7)`: the two parts occupy disjoint bits. */
  function RotateRight(v: u8, carryIn: bool): u8 {
    v / 2 + (if carryIn then 0x80 else 0)
  }

  // ---------------------------------------------------------------------
  // What the computations mean
  // ---------------------------------------------------------------------

  /** A byte holding two decimal digits. */
  predicate IsBcd(b: u8) {
    b % 0x10 <= 9 && b / 0x10 <= 9
  }

  /** The number 0..99 that a BCD byte holds. */
  function BcdValue(b: u8): int {
    (b / 0x10) as int * 10 + (b % 0x10) as int
  }

  /** The overflow test reads the sign bits: operands of one sign and a
      result of the other. */
  lemma AddOverflowSigns(a: u8, m: u8, r: u8)
    ensures AddOverflow(a, m, r) <==> (Bit7(a) == Bit7(m) && Bit7(r) != Bit7(a))
  {
    SignBit(a);
    SignBit(m);
    SignBit(r);
    AddOverflowBits(a as bv8, m as bv8, r as bv8);
  }

  lemma AddOverflowBits(a: bv8, m: bv8, r: bv8)
    ensures ((!(a ^ m) & (a ^ r) & 0x80) != 0)
            <==> ((a & 0x80 != 0) == (m & 0x80 != 0) && (r & 0x80 != 0) != (a & 0x80 != 0))
  {
  }

  /** SBC's overflow test reads the sign bits: operands of different signs
      and a result whose sign differs from the minuend's. */
  lemma SubOverflowSigns(a: u8, m: u8, r: u8)
    ensures SubOverflow(a, m, r) <==> (Bit7(a) != Bit7(m) && Bit7(r) != Bit7(a))
  {
    SignBit(a);
    SignBit(m);
    SignBit(r);
    SubOverflowBits(a as bv8, m as bv8, r as bv8);
  }

  lemma SubOverflowBits(a: bv8, m: bv8, r: bv8)
    ensures (((a ^ r) & (a ^ m) & 0x80) != 0)
            <==> ((a & 0x80 != 0) != (m & 0x80 != 0) && (r & 0x80 != 0) != (a & 0x80 != 0))
  {
  }

  lemma SignBit(b: u8)
    ensures ((b as bv8) & 0x80 != 0) <==> Bit7(b)
  {
  }

  /** Binary ADC adds modulo 256, carries exactly when the unsigned sum
      exceeds a byte, and sets V exactly when the signed sum leaves -128..127. */
  lemma BinaryAddIsSum(a: u8, m: u8, carryIn: bool)
    ensures var (r, carry) := BinaryAdd(a, m, carryIn);
            var sum := a as int + m as int + CarryValue(carryIn);
            && r as int == sum % 0x100
            && (carry <==> sum >= 0x100)
            && (AddOverflow(a, m, r) <==> !(-0x80 <= Signed(a) + Signed(m) + CarryValue(carryIn) < 0x80))
  {
    var (r, carry) := BinaryAdd(a, m, carryIn);
    AddOverflowSigns(a, m, r);
    AddSignRule(a, m, CarryValue(carryIn), r);
  }

  /** The sign-bit form of the overflow test for a byte sum `r`. */
  lemma AddSignRule(a: u8, m: u8, c: int, r: u8)
    requires 0 <= c <= 1 && r as int == (a as int + m as int + c) % 0x100
    ensures (Bit7(a) == Bit7(m) && Bit7(r) != Bit7(a)) <==> !(-0x80 <= Signed(a) + Signed(m) + c < 0x80)
  {
  }

  /** Decimal ADC on two BCD bytes gives the BCD form of their decimal sum
      mod 100 and carries exactly when that sum reaches 100. */
  lemma {:induction false} DecimalAddIsBcd(a: u8, m: u8, carryIn: bool)
    requires IsBcd(a) && IsBcd(m)
    ensures var (r, carry) := DecimalAdd(a, m, carryIn);
            var n := BcdValue(a) + BcdValue(m) + CarryValue(carryIn);
            && IsBcd(r)
            && BcdValue(r) == n % 100
            && (carry <==> n >= 100)
  {
    var c := CarryValue(carryIn);
    var lowSum := (a % 0x10) as int + (m % 0x10) as int + c;
    var highSum := (a / 0x10) as int + (m / 0x10) as int;
    var h := if lowSum > 9 then highSum + 1 else highSum;
    var l := if lowSum > 9 then lowSum - 10 else lowSum;
    DecimalAdjustCarriesDigit(lowSum, highSum);
    var (r, carry) := DecimalAdjust(lowSum, highSum);
    DecimalDigits(r, h, l);
    assert BcdValue(a) + BcdValue(m) + c == h * 10 + l;
  }

  /** On decimal digit sums, a low sum past 9 leaves its units digit and
      carries one into the high digits. */
  lemma DecimalAdjustCarriesDigit(al: int, ah: int)
    requires 0 <= al <= 19 && 0 <= ah <= 18
    ensures var h := if al > 9 then ah + 1 else ah;
            var l := if al > 9 then al - 10 else al;
            var (r, carry) := DecimalAdjust(al, ah);
            && 0 <= h <= 19 && 0 <= l <= 9
            && r as int == ((if h > 9 then h + 6 else h) % 0x10) * 0x10 + l
            && (carry <==> h > 9)
  {
    if al > 9 {
      assert (al + 6) % 0x10 == al - 10;
    } else {
      assert al % 0x10 == al;
    }
  }

  /** The packing of DecimalAdd seen digit by digit: high digit `h` (corrected
      past 9) and low digit `l`. */
  lemma DecimalDigits(r: u8, h: int, l: int)
    requires 0 <= h <= 19 && 0 <= l <= 9
    requires r as int == ((if h > 9 then h + 6 else h) % 0x10) * 0x10 + l
    ensures IsBcd(r) && BcdValue(r) == (h * 10 + l) % 100
    ensures h > 9 <==> h * 10 + l >= 100
  {
    if h > 9 {
      assert r as int == (h - 10) * 0x10 + l;
    } else {
      assert r as int == h * 0x10 + l;
    }
  }

  /** Binary SBC subtracts the operand and the borrow modulo 256, keeps the
      carry (no borrow) exactly when the minuend is large enough, and sets
      V exactly when the signed difference leaves -128..127. */
  lemma BinarySubtractIsDifference(a: u8, m: u8, carryIn: bool)
    ensures var t := BinarySubtract(a, m, carryIn);
            var diff := a as int - m as int - (1 - CarryValue(carryIn));
            && Lo(t) as int == diff % 0x100
            && (t < 0x100 <==> diff >= 0)
            && (SubOverflow(a, m, Lo(t)) <==> !(-0x80 <= Signed(a) - Signed(m) - (1 - CarryValue(carryIn)) < 0x80))
  {
    var t := BinarySubtract(a, m, carryIn);
    var diff := a as int - m as int - (1 - CarryValue(carryIn));
    WrappedDifference(diff, t);
    SubOverflowSigns(a, m, Lo(t));
    SubSignRule(a, m, 1 - CarryValue(carryIn), Lo(t));
  }

  /** A difference of bytes wrapped to 16 bits: its low byte is the
      difference mod 256 and it stays below 0x100 exactly when it did not wrap. */
  lemma WrappedDifference(diff: int, t: u16)
    requires -0x100 <= diff < 0x100 && t as int == diff % 0x10000
    ensures Lo(t) as int == diff % 0x100
    ensures t < 0x100 <==> diff >= 0
  {
    if diff < 0 {
      assert t as int == diff + 0x10000;
    }
  }

  /** The sign-bit form of the overflow test for a byte difference `r`. */
  lemma SubSignRule(a: u8, m: u8, b: int, r: u8)
    requires 0 <= b <= 1 && r as int == (a as int - m as int - b) % 0x100
    ensures (Bit7(a) != Bit7(m) && Bit7(r) != Bit7(a)) <==> !(-0x80 <= Signed(a) - Signed(m) - b < 0x80)
  {
  }

  /** Decimal SBC on two BCD bytes gives the BCD form of their decimal
      difference mod 100, and its raw difference, from which it sets the
      carry, is non-negative exactly when the decimal difference is. */
  lemma {:induction false} DecimalSubtractIsBcd(a: u8, m: u8, carryIn: bool)
    requires IsBcd(a) && IsBcd(m)
    ensures var n := BcdValue(a) - BcdValue(m) - (1 - CarryValue(carryIn));
            var r := DecimalSubtract(a, m, carryIn);
            && IsBcd(r)
            && BcdValue(r) == n % 100
            && (DecimalDifference(a, m, carryIn) >= 0 <==> n >= 0)
  {
    var borrow := 1 - CarryValue(carryIn);
    var low := (a % 0x10) as int - (m % 0x10) as int - borrow;
    var high := (a / 0x10) as int - (m / 0x10) as int;
    var t0 := DecimalDifference(a, m, carryIn);
    assert t0 == high * 0x10 + low;
    var r := DecimalSubtract(a, m, carryIn);
    if low < 0 {
      CorrectedDifference(high - 1, low + 10, t0 - 6, r);
    } else {
      CorrectedDifference(high, low, t0, r);
    }
  }

  /** The corrections of DecimalSubtract once the low digit is settled: `t`
      is high digit difference `h` times 16 plus low digit `l`. */
  lemma CorrectedDifference(h: int, l: int, t: int, r: u8)
    requires -10 <= h <= 9 && 0 <= l <= 9 && t == h * 0x10 + l
    requires r as int == (if t < 0 then t - 0x60 else t) % 0x100
    ensures IsBcd(r) && BcdValue(r) == (h * 10 + l) % 100
  {
    if t < 0 {
      assert r as int == (h + 10) * 0x10 + l;
    }
    DecimalBorrowDigits(r, h, l);
  }

  /** The result of DecimalSubtract seen digit by digit: high digit
      difference `h` (-10..9) and low digit `l` (0..9). */
  lemma DecimalBorrowDigits(r: u8, h: int, l: int)
    requires -10 <= h <= 9 && 0 <= l <= 9
    requires r as int == (if h < 0 then (h + 10) * 0x10 + l else h * 0x10 + l)
    ensures IsBcd(r) && BcdValue(r) == (h * 10 + l) % 100
  {
  }

  /** In decimal mode SBC sets Z, N, V and C from the uncorrected
      difference, which is exactly the difference binary SBC computes. */
  lemma DecimalFlagsAreBinary(a: u8, m: u8, carryIn: bool)
    ensures DecimalDifference(a, m, carryIn) % 0x100 == Lo(BinarySubtract(a, m, carryIn)) as int
    ensures DecimalDifference(a, m, carryIn) >= 0 <==> BinarySubtract(a, m, carryIn) < 0x100
  {
    BinarySubtractIsDifference(a, m, carryIn);
  }

  /** `value << 1` is the doubled byte with bit 7 moved out. */
  lemma ShiftLeftDoubles(v: u8)
    ensures ShiftLeft(v) as int + (if Bit7(v) then 0x100 else 0) == 2 * v as int
  {
  }

  /** `value >> 1` halves the byte, dropping bit 0, and never sets bit 7. */
  lemma ShiftRightHalves(v: u8)
    ensures 2 * ShiftRight(v) as int + (if Bit0(v) then 1 else 0) == v as int
    ensures !Bit7(ShiftRight(v))
  {
  }

  /** ROR is a rotation of the nine bits carry:byte: the carry goes in at
      the top and bit 0 comes out. */
  lemma RotateRightNineBits(v: u8, carryIn: bool)
    ensures 2 * RotateRight(v, carryIn) as int + (if Bit0(v) then 1 else 0)
            == v as int + (if carryIn then 0x100 else 0)
    ensures Bit7(RotateRight(v, carryIn)) <==> carryIn
  {
  }
}
