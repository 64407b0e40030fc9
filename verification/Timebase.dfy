// Unsigned 32-bit words and the millisecond clock built on them
// (include/services/timebase.h, src/services/timebase.c).

module Timebase {
  const WORD: int := 0x1_0000_0000
  const HALF: int := 0x8000_0000
  const U32_MAX: int := 0xFFFF_FFFF

  type u8 = x: int | 0 <= x < 0x100
  type u16 = x: int | 0 <= x < 0x1_0000
  type u32 = x: int | 0 <= x < 0x1_0000_0000

  // The word a counter that never wrapped would show.
  function Wrap(t: int): u32 {
    t % WORD
  }

  function Add32(a: u32, b: u32): u32 {
    Wrap(a + b)
  }

  function Sub32(a: u32, b: u32): u32 {
    Wrap(a - b)
  }

  // (int32_t)(a - b).
  function TimeDiff(a: u32, b: u32): (d: int)
    ensures -HALF <= d < HALF
    ensures Wrap(b + d) == a
  {
    var d := Sub32(a, b);
    if d < HALF then d else d - WORD
  }

  lemma WrapShift(x: int, k: int)
    ensures Wrap(x + k * WORD) == Wrap(x)
  {}

  // Subtraction commutes with wrapping.
  lemma SubWrap(a: int, b: int)
    ensures Sub32(Wrap(a), Wrap(b)) == Wrap(a - b)
  {
    var k := b / WORD - a / WORD;
    assert Wrap(a) - Wrap(b) == a - b + k * WORD;
    WrapShift(a - b, k);
  }

  lemma WrapNear(x: int)
    ensures 0 <= x < WORD ==> Wrap(x) == x
    ensures -WORD <= x < 0 ==> Wrap(x) == x + WORD
  {}

  // The signed difference is exact for instants less than 2^31 ms apart.
  lemma TimeDiffExact(t: int, u: int)
    requires -HALF <= t - u < HALF
    ensures TimeDiff(Wrap(t), Wrap(u)) == t - u
  {
    SubWrap(t, u);
    WrapNear(t - u);
  }
}
