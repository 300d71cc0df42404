/** Runs of `stack_push` and `stack_pop` (src/cpu.rs), as JSR/RTS, BRK/RTI
    and interrupt entry chain them: the one-page stack gives back up to 256
    pushed bytes last in, first out, and SP returns to where it started. */
module Stack {
  import opened Bits
  import opened RegisterFile
  import opened Cpu

  /** `stack_push` of each byte in turn, `bytes[0]` first. */
  function PushAll(s: State, bytes: seq<u8>): State {
    if |bytes| == 0 then s
    else PushAll(s, bytes[..|bytes| - 1]).StackPush(bytes[|bytes| - 1])
  }

  /** `n` calls of `stack_pop`, with the bytes in the order they come off. */
  function PopMany(s: State, n: nat): (State, seq<u8>)
    decreases n
  {
    if n == 0 then (s, [])
    else
      var (s1, b) := s.StackPop();
      var (s2, rest) := PopMany(s1, n - 1);
      (s2, [b] + rest)
  }

  /** The stack pointer `offset` places above `sp`, wrapping mod 256. */
  function Offset(sp: u8, offset: int): u8 {
    ((sp as int + offset) % 0x100) as u8
  }

  /** The stack slot `offset` places above slot `sp`, wrapping within page one. */
  function Slot(sp: u8, offset: int): u16 {
    StackAddress(Offset(sp, offset))
  }

  /** Moving an offset by `d` moves the stack pointer by `d`, whichever way
      the first offset wrapped. */
  lemma OffsetShift(sp: u8, offset: int, d: int)
    ensures Offset(Offset(sp, offset), d) == Offset(sp, offset + d)
  {
  }

  /** No offset, no move. */
  lemma OffsetZero(sp: u8)
    ensures Offset(sp, 0) == sp
  {
  }

  /** Fewer than 256 pushes apart, two slots are different bus addresses. */
  lemma SlotsDistinct(sp: u8, j: int, k: int)
    requires 0 <= j < k < 0x100
    ensures Slot(sp, -j) != Slot(sp, -k)
  {
    assert Lo(Slot(sp, -j)) as int == (sp as int - j) % 0x100;
    assert Lo(Slot(sp, -k)) as int == (sp as int - k) % 0x100;
  }

  /** Pushing up to 256 bytes lowers SP by their number (wrapping) and leaves
      `bytes[j]` in the slot `j` below the starting SP; only the stack page
      of the bus changes. */
  lemma {:induction false} PushAllEffect(s: State, bytes: seq<u8>)
    requires |bytes| <= 0x100
    ensures var t := PushAll(s, bytes);
      && t.registers == s.registers.(sp := Offset(s.registers.sp, -|bytes|))
      && t.cycles == s.cycles
      && (forall j | 0 <= j < |bytes| :: Read(t.mem, Slot(s.registers.sp, -j)) == bytes[j])
      && (forall i | 0 <= i < MemorySize && !(0x100 <= i < 0x200) :: t.mem[i] == s.mem[i])
  {
    if |bytes| > 0 {
      var n := |bytes|;
      var prefix := bytes[..n - 1];
      PushAllEffect(s, prefix);
      var u := PushAll(s, prefix);
      var t := u.StackPush(bytes[n - 1]);
      assert t == PushAll(s, bytes);
      var sp := s.registers.sp;
      assert StackAddress(u.registers.sp) == Slot(sp, -(n - 1)) by {
        OffsetShift(sp, -(n - 1), 0);
      }
      assert t.registers.sp == Offset(sp, -n) by {
        OffsetShift(sp, -(n - 1), -1);
      }
      forall j | 0 <= j < n
        ensures Read(t.mem, Slot(sp, -j)) == bytes[j]
      {
        if j < n - 1 {
          SlotsDistinct(sp, j, n - 1);
          assert prefix[j] == bytes[j];
        }
      }
    }
  }

  /** Popping `n` bytes raises SP by `n` (wrapping), changes nothing else, and
      yields the bytes of the `n` slots above the starting SP, nearest first. */
  lemma {:induction false} PopManyEffect(s: State, n: nat)
    decreases n
    ensures var (t, popped) := PopMany(s, n);
      && t.registers == s.registers.(sp := Offset(s.registers.sp, n))
      && t.mem == s.mem && t.cycles == s.cycles
      && |popped| == n
      && forall i | 0 <= i < n :: popped[i] == Read(s.mem, Slot(s.registers.sp, i + 1))
  {
    if n > 0 {
      var (s1, b) := s.StackPop();
      PopManyEffect(s1, n - 1);
      var sp := s.registers.sp;
      assert s1.registers.sp == Offset(sp, 1);
      var (s2, rest) := PopMany(s1, n - 1);
      forall i | 0 <= i < n - 1
        ensures rest[i] == Read(s.mem, Slot(sp, i + 2))
      {
        OffsetShift(sp, 1, i + 1);
      }
      assert Offset(s1.registers.sp, n - 1) == Offset(sp, n) by {
        OffsetShift(sp, 1, n - 1);
      }
    }
  }

  /** Reading upwards from where `|bytes|` pushes left SP meets the pushed
      bytes last first. */
  lemma ReadBackReversed(sp: u8, mem: Memory, bytes: seq<u8>, popped: seq<u8>)
    requires |popped| == |bytes| <= 0x100
    requires forall j | 0 <= j < |bytes| :: Read(mem, Slot(sp, -j)) == bytes[j]
    requires forall i | 0 <= i < |popped| :: popped[i] == Read(mem, Slot(Offset(sp, -|bytes|), i + 1))
    ensures forall i | 0 <= i < |bytes| :: popped[i] == bytes[|bytes| - 1 - i]
  {
    var n := |bytes|;
    forall i | 0 <= i < n
      ensures popped[i] == bytes[n - 1 - i]
    {
      OffsetShift(sp, -n, i + 1);
      assert Slot(Offset(sp, -n), i + 1) == Slot(sp, -(n - 1 - i));
    }
  }

  /** Pushing up to 256 bytes and popping as many gives them back in reverse
      order and restores every register, SP included. */
  lemma PushAllThenPopMany(s: State, bytes: seq<u8>)
    requires |bytes| <= 0x100
    ensures var (t, popped) := PopMany(PushAll(s, bytes), |bytes|);
      && t.registers == s.registers
      && t.cycles == s.cycles
      && |popped| == |bytes|
      && forall i | 0 <= i < |bytes| :: popped[i] == bytes[|bytes| - 1 - i]
  {
    var n := |bytes|;
    var sp := s.registers.sp;
    PushAllEffect(s, bytes);
    var u := PushAll(s, bytes);
    PopManyEffect(u, n);
    var (t, popped) := PopMany(u, n);
    ReadBackReversed(sp, u.mem, bytes, popped);
    assert t.registers.sp == Offset(u.registers.sp, n);
    OffsetShift(sp, -n, n);
    OffsetZero(sp);
  }
}
