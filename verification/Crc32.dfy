// The checksum of stored records (src/storage/storage_journal.c, crc32_update), on
// words taken as their values.

module Crc32 {
  import opened Timebase

  const POLYNOMIAL: u32 := 0xedb88320
  const START: u32 := 0xffffffff
  const BYTE_BITS: nat := 8
  const WORD_BITS: nat := 32

  function Pow2(n: nat): (r: nat)
    ensures r > 0
  {
    if n == 0 then 1 else 2 * Pow2(n - 1)
  }

  // Exclusive or of the lowest bits.
  function XorBits(a: nat, b: nat, bits: nat): nat {
    if bits == 0 then 0
    else (if a % 2 != b % 2 then 1 else 0) + 2 * XorBits(a / 2, b / 2, bits - 1)
  }

  lemma {:induction false} XorBound(a: nat, b: nat, bits: nat)
    ensures XorBits(a, b, bits) < Pow2(bits)
  {
    if bits > 0 {
      XorBound(a / 2, b / 2, bits - 1);
    }
  }

  lemma WordRange()
    ensures Pow2(WORD_BITS) == WORD
  {
    assert Pow2(8) == 256;
    assert Pow2(16) == 0x1_0000;
    assert Pow2(24) == 0x100_0000;
    assert Pow2(32) == 0x1_0000_0000;
  }

  function Xor(a: u32, b: u32): u32 {
    WordRange();
    XorBound(a, b, WORD_BITS);
    XorBits(a, b, WORD_BITS)
  }

  // One bit of the remainder.
  function Shift(c: u32): u32 {
    if c % 2 == 1 then Xor(c / 2, POLYNOMIAL) else c / 2
  }

  function Shifts(c: u32, n: nat): u32 {
    if n == 0 then c else Shift(Shifts(c, n - 1))
  }

  function Byte(c: u32, b: u8): u32 {
    Shifts(Xor(c, b), BYTE_BITS)
  }

  function Update(c: u32, data: seq<u8>): u32 {
    if data == [] then c else Byte(Update(c, data[..|data| - 1]), data[|data| - 1])
  }

  function Crc(data: seq<u8>): u32 {
    Xor(Update(START, data), START)
  }

  // Checking in pieces gives the checksum of the whole.
  lemma {:induction false} UpdateConcat(c: u32, a: seq<u8>, b: seq<u8>)
    ensures Update(c, a + b) == Update(Update(c, a), b)
  {
    if b == [] {
      assert a + b == a;
    } else {
      assert (a + b)[..|a + b| - 1] == a + b[..|b| - 1];
      UpdateConcat(c, a, b[..|b| - 1]);
    }
  }

  method UpdateLoop(start: u32, data: seq<u8>) returns (c: u32)
    ensures c == Update(start, data)
  {
    c := start;
    assert data[..0] == [];
    for i := 0 to |data|
      invariant c == Update(start, data[..i])
    {
      assert data[..i + 1][..i] == data[..i];
      c := Xor(c, data[i]);
      ghost var before: u32 := c;
      for bit := 0 to BYTE_BITS
        invariant c == Shifts(before, bit)
      {
        c := if c % 2 == 1 then Xor(c / 2, POLYNOMIAL) else c / 2;
      }
    }
    assert data[..|data|] == data;
  }
}
