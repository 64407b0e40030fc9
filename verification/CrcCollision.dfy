// Two messages of five bytes with one checksum: they differ by the generator itself,
// so one reduction tells their remainders apart and the last byte joins them again.

module CrcCollision {
  import opened Timebase
  import opened Crc32

  // --- Exclusive or, in parts ---

  lemma {:induction false} XorZero(a: nat, n: nat)
    requires a < Pow2(n)
    ensures XorBits(a, 0, n) == a && XorBits(0, a, n) == a
  {
    if n > 0 {
      XorZero(a / 2, n - 1);
    }
  }

  lemma {:induction false} XorSelf(a: nat, n: nat)
    ensures XorBits(a, a, n) == 0
  {
    if n > 0 {
      XorSelf(a / 2, n - 1);
    }
  }

  lemma XorHalves(x: nat, a: nat, y: nat, b: nat, bits: nat)
    requires bits > 0
    ensures XorBits(2 * x + a, 2 * y + b, bits) ==
      (if a % 2 != b % 2 then 1 else 0) + 2 * XorBits(x + a / 2, y + b / 2, bits - 1)
  {
    assert (2 * x + a) / 2 == x + a / 2 && (2 * y + b) / 2 == y + b / 2;
  }

  lemma Doubled(a: nat, k: nat)
    requires k > 0
    ensures a * Pow2(k) == 2 * (a * Pow2(k - 1)) && Pow2(k) * a == 2 * (Pow2(k - 1) * a)
  {}

  lemma {:induction false} XorSplit(a1: nat, a0: nat, b1: nat, b0: nat, k: nat, n: nat)
    requires a0 < Pow2(k) && b0 < Pow2(k)
    ensures XorBits(a1 * Pow2(k) + a0, b1 * Pow2(k) + b0, k + n) == XorBits(a0, b0, k) + Pow2(k) * XorBits(a1, b1, n)
  {
    if k > 0 {
      Doubled(a1, k);
      Doubled(b1, k);
      Doubled(XorBits(a1, b1, n), k);
      XorHalves(a1 * Pow2(k - 1), a0, b1 * Pow2(k - 1), b0, k + n);
      XorHalves(0, a0, 0, b0, k);
      XorSplit(a1, a0 / 2, b1, b0 / 2, k - 1, n);
    }
  }

  const DIGIT: nat := 4

  lemma Pow2Byte()
    ensures Pow2(BYTE_BITS) == 256
  {
    assert Pow2(8) == 256;
  }

  lemma Pow2Rest()
    ensures Pow2(WORD_BITS - BYTE_BITS) == 0x100_0000
  {
    assert Pow2(8) == 256;
    assert Pow2(16) == 0x1_0000;
    assert Pow2(24) == 0x100_0000;
  }

  // A byte changes the lowest byte only.
  lemma XorByte(c: u32, b: u8)
    ensures Xor(c, b) == c / 256 * 256 + XorBits(c % 256, b, BYTE_BITS)
  {
    Pow2Byte();
    Pow2Rest();
    XorSplit(c / 256, c % 256, 0, b, BYTE_BITS, WORD_BITS - BYTE_BITS);
    XorZero(c / 256, WORD_BITS - BYTE_BITS);
  }

  // --- Shifting out zeros ---

  lemma {:induction false} ShiftFirst(c: u32, n: nat)
    ensures Shifts(c, n + 1) == Shifts(Shift(c), n)
  {
    if n > 0 {
      ShiftFirst(c, n - 1);
    }
  }

  lemma EvenShift(x: nat)
    requires 2 * x < WORD
    ensures Shift(2 * x) == x
  {}

  lemma {:induction false} ZerosShiftOut(h: nat, n: nat)
    requires h * Pow2(n) < WORD
    ensures h < WORD && Shifts(h * Pow2(n), n) == h
  {
    if n > 0 {
      Doubled(h, n);
      ShiftFirst(h * Pow2(n), n - 1);
      EvenShift(h * Pow2(n - 1));
      ZerosShiftOut(h, n - 1);
    }
  }

  // A byte equal to the lowest byte of the remainder shifts it out.
  lemma ByteCancels(c: u32, b: u8)
    requires b == c % 256
    ensures Byte(c, b) == c / 256
  {
    XorByte(c, b);
    XorSelf(b, BYTE_BITS);
    Pow2Byte();
    ZerosShiftOut(c / 256, BYTE_BITS);
  }

  // --- The two remainders ---

  // Four bytes, remainder by remainder.
  // After a byte that leaves c, the bytes of c drain all of it but its highest byte.
  lemma Drained(start: u32, first: u8, c: u32, d: seq<u8>)
    requires Byte(start, first) == c && d == [first, c % 256, c / 256 % 256, c / 0x1_0000 % 256]
    ensures Update(start, d) == c / 0x100_0000
  {
    FourBytes(start, d[0], d[1], d[2], d[3]);
    assert d == [d[0], d[1], d[2], d[3]];
    ByteCancels(c, d[1]);
    ByteCancels(c / 256, d[2]);
    ByteCancels(c / 0x1_0000, d[3]);
    assert c / 256 / 256 == c / 0x1_0000 && c / 0x1_0000 / 256 == c / 0x100_0000;
  }

  lemma FourBytes(c: u32, w: u8, x: u8, y: u8, z: u8)
    ensures Update(c, [w, x, y, z]) == Byte(Byte(Byte(Byte(c, w), x), y), z)
  {
    OneByte(c, [], w);
    OneByte(c, [w], x);
    OneByte(c, [w, x], y);
    OneByte(c, [w, x, y], z);
    assert [] + [w] == [w] && [w] + [x] == [w, x] && [w, x] + [y] == [w, x, y] && [w, x, y] + [z] == [w, x, y, z];
  }

  lemma OneByte(c: u32, d: seq<u8>, b: u8)
    ensures Update(c, d + [b]) == Byte(Update(c, d), b)
  {
    assert (d + [b])[..|d|] == d;
  }

  // The digits that do not cancel.
  lemma Digits1()
    ensures XorBits(15, 14, DIGIT) == 1 && XorBits(15, 11, DIGIT) == 4
  {
    assert XorBits(15, 14, 4) == 1 && XorBits(15, 11, 4) == 4;
  }

  lemma Digits2()
    ensures XorBits(1, 14, DIGIT) == 15 && XorBits(0, 15, DIGIT) == 15
  {
    assert XorBits(1, 14, 4) == 15 && XorBits(0, 15, 4) == 15;
  }

  lemma Digits3()
    ensures XorBits(10, 2, DIGIT) == 8 && XorBits(15, 3, DIGIT) == 12
  {
    assert XorBits(10, 2, 4) == 8 && XorBits(15, 3, 4) == 12;
  }

  lemma Digits4()
    ensures XorBits(15, 8, DIGIT) == 7 && XorBits(15, 13, DIGIT) == 2
  {
    assert XorBits(15, 8, 4) == 7 && XorBits(15, 13, 4) == 2;
  }

  lemma Digits5()
    ensures XorBits(7, 14, DIGIT) == 9 && XorBits(0, 0, DIGIT) == 0
  {
    assert XorBits(7, 14, 4) == 9 && XorBits(0, 0, 4) == 0;
  }

  // One more digit at the end.
  lemma NextDigit(a: nat, a0: nat, b: nat, b0: nat, bits: nat, low: nat, rest: nat)
    requires a0 < 16 && b0 < 16 && bits >= DIGIT
    requires XorBits(a0, b0, DIGIT) == low && XorBits(a, b, bits - DIGIT) == rest
    ensures XorBits(16 * a + a0, 16 * b + b0, bits) == low + 16 * rest
  {
    assert Pow2(4) == 16;
    XorSplit(a, a0, b, b0, DIGIT, bits - DIGIT);
  }

  lemma LowByte(a: nat, b: nat)
    requires a == 255 && b == 190
    ensures XorBits(a, b, BYTE_BITS) == 0x41
  {
    Digits1();
    NextDigit(15, 15, 11, 14, BYTE_BITS, 1, 4);
  }

  lemma DigitOf(x: nat, y: nat)
    ensures (x, y) == (15, 8) ==> XorBits(x, y, DIGIT) == 7
    ensures (x, y) == (15, 13) ==> XorBits(x, y, DIGIT) == 2
    ensures (x, y) == (15, 11) ==> XorBits(x, y, DIGIT) == 4
    ensures (x, y) == (15, 3) ==> XorBits(x, y, DIGIT) == 12
    ensures (x, y) == (10, 2) ==> XorBits(x, y, DIGIT) == 8
    ensures (x, y) == (0, 0) ==> XorBits(x, y, DIGIT) == 0
  {
    Digits1();
    Digits3();
    Digits4();
    Digits5();
  }

  // The generator against the half of the first remainder, digit by digit.
  lemma TopDigit(w: nat)
    requires w == WORD_BITS
    ensures XorBits(0x7, 0xe, w - 28) == 0x9
  {
    Digits5();
  }

  lemma Leading2(w: nat)
    requires w == WORD_BITS
    ensures XorBits(0x7f, 0xed, w - 24) == 0x92
  {
    TopDigit(w);
    DigitOf(15, 13);
    NextDigit(0x7, 15, 0xe, 13, w - 24, 2, 0x9);
  }

  lemma Leading3(w: nat)
    requires w == WORD_BITS
    ensures XorBits(0x7ff, 0xedb, w - 20) == 0x924
  {
    Leading2(w);
    DigitOf(15, 11);
    NextDigit(0x7f, 15, 0xed, 11, w - 20, 4, 0x92);
  }

  lemma Leading4(w: nat)
    requires w == WORD_BITS
    ensures XorBits(0x7fff, 0xedb8, w - 16) == 0x9247
  {
    Leading3(w);
    DigitOf(15, 8);
    NextDigit(0x7ff, 15, 0xedb, 8, w - 16, 7, 0x924);
  }

  lemma Leading5(w: nat)
    requires w == WORD_BITS
    ensures XorBits(0x7ffff, 0xedb88, w - 12) == 0x92477
  {
    Leading4(w);
    DigitOf(15, 8);
    NextDigit(0x7fff, 15, 0xedb8, 8, w - 12, 7, 0x9247);
  }

  lemma Leading6(w: nat)
    requires w == WORD_BITS
    ensures XorBits(0x7fffff, 0xedb883, w - 8) == 0x92477c
  {
    Leading5(w);
    DigitOf(15, 3);
    NextDigit(0x7ffff, 15, 0xedb88, 3, w - 8, 12, 0x92477);
  }

  lemma Leading7(w: nat)
    requires w == WORD_BITS
    ensures XorBits(0x7fffffa, 0xedb8832, w - 4) == 0x92477c8
  {
    Leading6(w);
    DigitOf(10, 2);
    NextDigit(0x7fffff, 10, 0xedb883, 2, w - 4, 8, 0x92477c);
  }

  lemma Leading8(w: nat)
    requires w == WORD_BITS
    ensures XorBits(0x7fffffa0, 0xedb88320, w - 0) == 0x92477c80
  {
    Leading7(w);
    DigitOf(0, 0);
    NextDigit(0x7fffffa, 0, 0xedb8832, 0, w - 0, 0, 0x92477c8);
  }

  lemma LastByte(a: nat, b: nat)
    requires a == 1 && b == 254
    ensures XorBits(a, b, BYTE_BITS) == 255
  {
    Digits2();
    NextDigit(0, 1, 15, 14, BYTE_BITS, 15, 15);
  }

  // The lowest byte of a remainder with a byte, whatever stands above it.
  lemma XorLow(c: u32, h: nat, l: nat, b: u8, x: nat)
    requires c == 256 * h + l && l < 256 && XorBits(l, b, BYTE_BITS) == x
    ensures Xor(c, b) == 256 * h + x
  {
    XorByte(c, b);
    assert c / 256 == h && c % 256 == l;
  }

  lemma FirstShift(x: u32)
    requires x == 0xffff_ff41
    ensures Shift(x) == 0x0124_8ef9 * 128
  {
    Leading8(WORD_BITS);
  }

  lemma FirstShifts(x: u32, h: nat)
    requires x == 0xffff_ff41 && h == 0x0124_8ef9
    ensures Shifts(x, BYTE_BITS) == h
  {
    assert Pow2(7) == 128;
    FirstShift(x);
    ShiftFirst(x, BYTE_BITS - 1);
    ZerosShiftOut(h, BYTE_BITS - 1);
  }

  lemma ByteOf(c: u32, b: u8, x: u32)
    requires Xor(c, b) == x
    ensures Byte(c, b) == Shifts(x, BYTE_BITS)
  {}

  lemma FirstByte(c: u32, b: u8)
    requires c == 0xffff_ffff && b == 190
    ensures Byte(c, b) == 0x0124_8ef9
  {
    LowByte(255, b);
    XorLow(c, 0x00ff_ffff, 255, b, 0x41);
    ByteOf(c, b, 0xffff_ff41);
    FirstShifts(0xffff_ff41, 0x0124_8ef9);
  }

  // From the two remainders the last bytes lead to one.
  lemma SameLastByte(c: u32, d: u32, b: u8, e: u8)
    requires c == 1 && d == 0 && b == 254 && e == 255
    ensures Byte(c, b) == Byte(d, e)
  {
    LastByte(c, b);
    XorLow(c, 0, c, b, 255);
    Pow2Byte();
    XorZero(e, BYTE_BITS);
    XorLow(d, 0, d, e, 255);
    ByteOf(c, b, 255);
    ByteOf(d, e, 255);
  }

  lemma UnnoticedRemainder(c: u32, d: seq<u8>)
    requires d == [190, 249, 142, 36] && Byte(c, d[0]) == 0x0124_8ef9
    ensures Update(c, d) == 1
  {
    Drained(c, d[0], 0x0124_8ef9, d);
  }

  lemma ErasedRemainder(c: u32, d: seq<u8>)
    requires d == [255, 255, 255, 255] && Byte(c, d[0]) == 0x00ff_ffff
    ensures Update(c, d) == 0
  {
    Drained(c, d[0], 0x00ff_ffff, d);
  }

  // Two messages of five bytes, from a remainder that takes their first bytes there.
  lemma JoinedByLast(c: u32, v: seq<u8>, e: seq<u8>)
    requires v == [190, 249, 142, 36, 254] && e == [255, 255, 255, 255, 255]
    requires Byte(c, v[0]) == 0x0124_8ef9 && Byte(c, e[0]) == 0x00ff_ffff
    ensures Update(c, v) == Update(c, e)
  {
    UnnoticedRemainder(c, v[..4]);
    ErasedRemainder(c, e[..4]);
    SameLastByte(Update(c, v[..4]), Update(c, e[..4]), v[4], e[4]);
  }

  lemma FirstErased(c: u32, e: u8)
    requires c == 0xffff_ffff && e == 255
    ensures Byte(c, e) == 0x00ff_ffff
  {
    ByteCancels(c, e);
  }

  // Five bytes and five erased ones have the same checksum.
  lemma SameChecksum(v: seq<u8>, e: seq<u8>)
    requires v == [190, 249, 142, 36, 254] && e == [255, 255, 255, 255, 255]
    ensures Crc(v) == Crc(e)
  {
    FirstByte(START, v[0]);
    FirstErased(START, e[0]);
    JoinedByLast(START, v, e);
  }
}
