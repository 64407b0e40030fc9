// What a power cut can do to the journal: after any number of cut writes the newest
// record read is the last one that got through, unless the checksum of a torn payload
// happens to match.

module JournalSafety {
  import opened Wrappers
  import opened Timebase
  import opened Crc32
  import opened Journal
  import opened CrcCollision

  // --- Words ---

  lemma Le32Reads(v: u32)
    ensures |Le32(v)| == 4 && Word32(Le32(v), 0) == v
  {
    var low, mid := v / 256, v / 0x1_0000;
    assert v == 256 * low + v % 256 && low == 256 * mid + low % 256;
    assert mid == 256 * (v / 0x100_0000) + mid % 256;
  }

  lemma Word32At(s: seq<u8>, at: nat, v: u32)
    requires at + 4 <= |s| && forall k | 0 <= k < 4 :: s[at + k] == Le32(v)[k]
    ensures Word32(s, at) == v
  {
    Le32Reads(v);
    assert s[at + 0] == Le32(v)[0] && s[at + 1] == Le32(v)[1] && s[at + 2] == Le32(v)[2] && s[at + 3] == Le32(v)[3];
  }

  lemma Word16At(s: seq<u8>, at: nat, v: u16)
    requires at + 2 <= |s| && s[at] == v % 256 && s[at + 1] == v / 256
    ensures Word16(s, at) == v
  {}

  // --- An image, field by field ---

  // What the first n bytes of a record's image say.
  predicate Fields(s: seq<u8>, unit: u16, r: Record, n: nat)
    requires |s| >= HEADER && |r.payload| < WORD
  {
    && (n >= 4 ==> Word32(s, 0) == MAGIC)
    && (n >= 6 ==> Word16(s, 4) == VERSION)
    && (n >= 8 ==> Word16(s, 6) == HEADER)
    && (n >= 10 ==> Word16(s, 8) == unit)
    && (n >= 16 ==> Word32(s, 12) == r.sequence)
    && (n >= 20 ==> Word32(s, 16) == |r.payload|)
    && (n >= 24 ==> Word32(s, 20) == Crc(r.payload))
    && (n >= 28 ==> Word32(s, 24) == COMMITTED)
  }

  lemma PutReads(s: seq<u8>, at: nat, v: u32)
    requires at + 4 <= |s|
    ensures Word32(Put(s, at, Le32(v)), at) == v
  {
    Word32At(Put(s, at, Le32(v)), at, v);
  }

  lemma PutElsewhere(s: seq<u8>, at: nat, bytes: seq<u8>, w: nat)
    requires at + |bytes| <= |s| && w + 4 <= |s| && (w + 4 <= at || at + |bytes| <= w)
    ensures Word32(Put(s, at, bytes), w) == Word32(s, w)
  {}

  lemma HeaderSays(unit: u16, r: Record, blank: seq<u8>)
    requires |blank| >= HEADER && |r.payload| < WORD
    ensures Fields(HeaderOf(unit, r, blank), unit, r, 28)
  {
    var a1 := Put(blank, 0, Le32(MAGIC));
    var a2 := Put(a1, 4, Le16(VERSION));
    var a3 := Put(a2, 6, Le16(HEADER));
    var b1 := Put(a3, 8, Le16(unit));
    var b2 := Put(b1, 10, Le16(0));
    var b3 := Put(b2, 12, Le32(r.sequence));
    var c1 := Put(b3, 16, Le32(|r.payload|));
    var c2 := Put(c1, 20, Le32(Crc(r.payload)));
    var c3 := Put(c2, 24, Le32(COMMITTED));
    var c4 := Put(c3, 28, Le32(U32_MAX));
    PutReads(b2, 12, r.sequence);
    PutReads(b3, 16, |r.payload|);
    PutReads(c1, 20, Crc(r.payload));
    PutReads(c2, 24, COMMITTED);
    PutElsewhere(b3, 16, Le32(|r.payload|), 12);
    PutElsewhere(c1, 20, Le32(Crc(r.payload)), 12);
    PutElsewhere(c1, 20, Le32(Crc(r.payload)), 16);
    PutElsewhere(c2, 24, Le32(COMMITTED), 12);
    PutElsewhere(c2, 24, Le32(COMMITTED), 16);
    PutElsewhere(c2, 24, Le32(COMMITTED), 20);
    PutElsewhere(c3, 28, Le32(U32_MAX), 12);
    PutElsewhere(c3, 28, Le32(U32_MAX), 16);
    PutElsewhere(c3, 28, Le32(U32_MAX), 20);
    PutElsewhere(c3, 28, Le32(U32_MAX), 24);
    assert c4 == HeaderOf(unit, r, blank);
    assert forall k | 0 <= k < 10 :: c4[k] == b1[k];
    Word32At(c4, 0, MAGIC);
    Word16At(c4, 4, VERSION);
    Word16At(c4, 6, HEADER);
    Word16At(c4, 8, unit);
  }

  // The first n bytes of an image settle the fields that end there.
  lemma StartSays(s: seq<u8>, unit: u16, r: Record, n: nat)
    requires Journal.Fits(r, |s|) && n <= HEADER
    requires forall k | 0 <= k < n :: s[k] == Image(unit, r, |s|)[k]
    ensures Fields(s, unit, r, n)
  {
    HeaderSays(unit, r, Blank(|s|));
    var h, image := HeaderOf(unit, r, Blank(|s|)), Image(unit, r, |s|);
    assert forall k | 0 <= k < n :: s[k] == h[k];
  }

  // --- A torn write over an erased slot ---

  // How much of the payload a write of this many bytes brings.
  function Kept(payload: seq<u8>, cut: nat): (n: nat)
    ensures n <= |payload|
  {
    if cut <= HEADER then 0 else if cut - HEADER < |payload| then cut - HEADER else |payload|
  }

  // The payload as the slot then holds it.
  function TornPayload(payload: seq<u8>, cut: nat): (torn: seq<u8>)
    ensures |torn| == |payload|
  {
    payload[..Kept(payload, cut)] + Blank(|payload| - Kept(payload, cut))
  }

  // The header got through and the checksum does not notice what is missing.
  predicate PassesAsWhole(payload: seq<u8>, cut: nat) {
    cut >= 28 && Crc(TornPayload(payload, cut)) == Crc(payload)
  }

  lemma UncommittedReads(s: seq<u8>, unit: u16)
    requires |s| >= HEADER && s[27] == ERASED
    ensures Read(s, unit) == None
  {
    assert Word32(s, 24) >= 0x100_0000 * 0xff;
  }

  lemma TornHolds(was: seq<u8>, unit: u16, r: Record, cut: nat)
    requires Journal.Fits(r, |was|) && cut >= 28
    ensures var s := Torn(was, Image(unit, r, |was|), cut, true);
      Fields(s, unit, r, 28) && s[HEADER..HEADER + |r.payload|] == TornPayload(r.payload, cut)
  {
    var image := Image(unit, r, |was|);
    var s := Torn(was, image, cut, true);
    assert forall k | 0 <= k < 28 :: s[k] == image[k];
    StartSays(s, unit, r, 28);
    forall i | 0 <= i < |r.payload|
      ensures s[HEADER..HEADER + |r.payload|][i] == TornPayload(r.payload, cut)[i]
    {
      assert image[HEADER + i] == r.payload[i];
    }
  }

  // What a slot reads as after a write cut at any byte.
  lemma TornReads(was: seq<u8>, unit: u16, r: Record, cut: nat)
    requires Journal.Fits(r, |was|)
    ensures Read(Torn(was, Image(unit, r, |was|), cut, true), unit) ==
      if PassesAsWhole(r.payload, cut) then Some(Record(r.sequence, TornPayload(r.payload, cut))) else None
  {
    var s := Torn(was, Image(unit, r, |was|), cut, true);
    if cut < 28 {
      UncommittedReads(s, unit);
    } else {
      TornHolds(was, unit, r, cut);
    }
  }

  // --- The newest record after it ---

  lemma NextIsAfter(n: u32)
    ensures After(NextSequence(n), n) && !After(n, NextSequence(n))
  {}

  // Over an erased slot a write cut at any byte leaves the newest record as it was, or
  // makes it the torn payload under the next number when that passes as whole.
  lemma CutWrite(a: seq<u8>, b: seq<u8>, unit: u16, payload: seq<u8>, cut: nat)
    requires |a| == |b| && HEADER <= |a| <= MAX_SLOT && |payload| <= |a| - HEADER
    ensures var before := Latest(Read(a, unit), Read(b, unit));
      var sequence := Target(Read(a, unit), Read(b, unit)).1;
      var (a', b') := Written(a, b, unit, payload, cut, true);
      Latest(Read(a', unit), Read(b', unit)) ==
        if PassesAsWhole(payload, cut) then Some(Record(sequence, TornPayload(payload, cut))) else before
  {
    var first, second := Read(a, unit), Read(b, unit);
    var (slot, sequence) := Target(first, second);
    TornReads(if slot == 0 then a else b, unit, Record(sequence, payload), cut);
    if first.Some? {
      NextIsAfter(first.value.sequence);
    }
    if second.Some? {
      NextIsAfter(second.value.sequence);
    }
  }

  // A torn payload with the checksum of the whole one.
  predicate Collides(payload: seq<u8>, cut: nat) {
    cut >= 28 && TornPayload(payload, cut) != payload && Crc(TornPayload(payload, cut)) == Crc(payload)
  }

  lemma NextIsOther(n: u32)
    ensures NextSequence(n) != n
  {}

  // So the newest record is the old one or the new one exactly when there is none.
  lemma OldOrNew(a: seq<u8>, b: seq<u8>, unit: u16, payload: seq<u8>, cut: nat)
    requires |a| == |b| && HEADER <= |a| <= MAX_SLOT && |payload| <= |a| - HEADER
    ensures var before := Latest(Read(a, unit), Read(b, unit));
      var sequence := Target(Read(a, unit), Read(b, unit)).1;
      var (a', b') := Written(a, b, unit, payload, cut, true);
      var newest := Latest(Read(a', unit), Read(b', unit));
      (newest == before || newest == Some(Record(sequence, payload))) <==> !Collides(payload, cut)
  {
    var first, second := Read(a, unit), Read(b, unit);
    CutWrite(a, b, unit, payload, cut);
    if first.Some? {
      NextIsOther(first.value.sequence);
    }
    if second.Some? {
      NextIsOther(second.value.sequence);
    }
  }

  // A whole write is read back.
  lemma WholeWrite(a: seq<u8>, b: seq<u8>, unit: u16, payload: seq<u8>, cut: nat)
    requires |a| == |b| && HEADER <= |a| <= MAX_SLOT && |payload| <= |a| - HEADER && cut >= HEADER + |payload|
    ensures var (a', b') := Written(a, b, unit, payload, cut, true);
      Latest(Read(a', unit), Read(b', unit)) == Some(Record(Target(Read(a, unit), Read(b, unit)).1, payload))
  {
    CutWrite(a, b, unit, payload, cut);
    assert TornPayload(payload, cut) == payload;
  }

  // --- Runs ---

  datatype Attempt = Attempt(payload: seq<u8>, cut: nat)

  function WriteAll(a: seq<u8>, b: seq<u8>, unit: u16, ws: seq<Attempt>): (r: (seq<u8>, seq<u8>))
    requires |a| == |b| && HEADER <= |a| <= MAX_SLOT
    requires forall w | w in ws :: |w.payload| <= |a| - HEADER
    ensures |r.0| == |a| && |r.1| == |a|
  {
    if ws == [] then (a, b)
    else
      var w := ws[|ws| - 1];
      var before := WriteAll(a, b, unit, ws[..|ws| - 1]);
      Written(before.0, before.1, unit, w.payload, w.cut, true)
  }

  // The last payload that got through, or what was there.
  function LastThrough(was: Option<seq<u8>>, ws: seq<Attempt>): Option<seq<u8>> {
    if ws == [] then was
    else
      var w := ws[|ws| - 1];
      if w.cut >= 28 && TornPayload(w.payload, w.cut) == w.payload then Some(w.payload)
      else LastThrough(was, ws[..|ws| - 1])
  }

  function PayloadRead(a: seq<u8>, b: seq<u8>, unit: u16): Option<seq<u8>>
    requires |a| >= HEADER && |b| >= HEADER
  {
    var newest := Latest(Read(a, unit), Read(b, unit));
    if newest.None? then None else Some(newest.value.payload)
  }

  // From any contents of the two slots and over any number of writes, each cut at any
  // byte, what is read is the last payload that got through.
  lemma {:induction false} ReadsLastThrough(a: seq<u8>, b: seq<u8>, unit: u16, ws: seq<Attempt>)
    requires |a| == |b| && HEADER <= |a| <= MAX_SLOT
    requires forall w | w in ws :: |w.payload| <= |a| - HEADER && !Collides(w.payload, w.cut)
    ensures var (x, y) := WriteAll(a, b, unit, ws);
      PayloadRead(x, y, unit) == LastThrough(PayloadRead(a, b, unit), ws)
  {
    if ws != [] {
      var w := ws[|ws| - 1];
      ReadsLastThrough(a, b, unit, ws[..|ws| - 1]);
      var (x, y) := WriteAll(a, b, unit, ws[..|ws| - 1]);
      CutWrite(x, y, unit, w.payload, w.cut);
    }
  }

  // --- A checksum that does not notice ---

  const UNNOTICED: seq<u8> := [190, 249, 142, 36, 254]

  // Five bytes whose checksum is that of five erased ones: a write of them cut right
  // after its header reads as a new record that was never written.
  lemma CollisionExists(cut: nat)
    requires 28 <= cut <= HEADER
    ensures Collides(UNNOTICED, cut)
  {
    var torn := TornPayload(UNNOTICED, cut);
    assert torn == [255, 255, 255, 255, 255];
    SameChecksum(UNNOTICED, torn);
    assert torn[0] != UNNOTICED[0];
  }

  // --- A device that does not erase ---

  // The sequence word with its first bytes new and the others old.
  function MixedSequence(next: u32, was: u32, cut: nat): u32 {
    var n := if cut <= 12 then 0 else if cut >= 16 then 4 else cut - 12;
    Word32(Le32(next)[..n] + Le32(was)[n..], 0)
  }

  lemma WordBytes(s: seq<u8>, at: nat, v: u32)
    requires at + 4 <= |s| && Word32(s, at) == v
    ensures s[at] == Le32(v)[0] && s[at + 1] == Le32(v)[1] && s[at + 2] == Le32(v)[2] && s[at + 3] == Le32(v)[3]
  {
    FourBytes(s[at] as int, s[at + 1] as int, s[at + 2] as int, s[at + 3] as int);
  }

  lemma FourBytes(a: nat, b: nat, c: nat, d: nat)
    requires a < 256 && b < 256 && c < 256 && d < 256
    ensures var v := a + 256 * b + 0x1_0000 * c + 0x100_0000 * d;
      v % 256 == a && v / 256 % 256 == b && v / 0x1_0000 % 256 == c && v / 0x100_0000 == d
  {
    var v := a + 256 * b + 0x1_0000 * c + 0x100_0000 * d;
    assert v == 256 * (b + 256 * c + 0x1_0000 * d) + a;
    assert v == 0x1_0000 * (c + 256 * d) + (a + 256 * b);
    assert v == 0x100_0000 * d + (a + 256 * b + 0x1_0000 * c);
  }

  lemma HalfBytes(s: seq<u8>, at: nat, v: u16)
    requires at + 2 <= |s| && Word16(s, at) == v
    ensures s[at] == v % 256 && s[at + 1] == v / 256
  {}

  // A slot with a valid header reads as the same record after any change to its
  // reserved bytes and its sequence word.
  predicate SameButSequence(was: seq<u8>, s: seq<u8>) {
    |s| == |was| && |was| >= HEADER && forall k | 0 <= k < |s| && !(10 <= k < 16) :: s[k] == was[k]
  }

  lemma ResequencedReads(was: seq<u8>, s: seq<u8>, unit: u16)
    requires SameButSequence(was, s) && Read(was, unit).Some?
    ensures Read(s, unit) == Some(Record(Word32(s, 12), Read(was, unit).value.payload))
  {
    assert forall w | w in {0, 16, 20, 24} :: Word32(s, w) == Word32(was, w);
    assert forall w | w in {4, 6, 8} :: Word16(s, w) == Word16(was, w);
    var n := Word32(was, 16);
    assert s[HEADER..HEADER + n] == was[HEADER..HEADER + n];
  }

  // The bytes before the sequence word are those of every record of this unit.
  lemma CommonStart(was: seq<u8>, unit: u16, r: Record, k: nat)
    requires Journal.Fits(r, |was|) && Read(was, unit).Some? && k < 10
    ensures Image(unit, r, |was|)[k] == was[k]
  {
    var image := Image(unit, r, |was|);
    StartSays(image, unit, r, HEADER);
    if k < 4 {
      WordBytes(was, 0, MAGIC);
      WordBytes(image, 0, MAGIC);
    } else if k < 6 {
      HalfBytes(was, 4, VERSION);
      HalfBytes(image, 4, VERSION);
    } else if k < 8 {
      HalfBytes(was, 6, HEADER);
      HalfBytes(image, 6, HEADER);
    } else {
      HalfBytes(was, 8, unit);
      HalfBytes(image, 8, unit);
    }
  }

  lemma TornKeeps(was: seq<u8>, unit: u16, r: Record, cut: nat)
    requires Journal.Fits(r, |was|) && Read(was, unit).Some? && cut <= 16
    ensures SameButSequence(was, Torn(was, Image(unit, r, |was|), cut, false))
  {
    var s := Torn(was, Image(unit, r, |was|), cut, false);
    forall k | 0 <= k < |s| && !(10 <= k < 16) ensures s[k] == was[k] {
      if k < 10 {
        CommonStart(was, unit, r, k);
      }
    }
  }

  // Without erasing, a write over a valid record that stops inside the sequence word
  // leaves that record readable under a number mixed of both.
  lemma TornOverOld(was: seq<u8>, unit: u16, r: Record, cut: nat)
    requires Journal.Fits(r, |was|) && Read(was, unit).Some? && cut <= 16
    ensures var stale := Read(was, unit).value;
      Read(Torn(was, Image(unit, r, |was|), cut, false), unit) ==
        Some(Record(MixedSequence(r.sequence, stale.sequence, cut), stale.payload))
  {
    var image := Image(unit, r, |was|);
    var s := Torn(was, image, cut, false);
    TornKeeps(was, unit, r, cut);
    ResequencedReads(was, s, unit);
    StartSays(image, unit, r, HEADER);
    MixedWord(was, image, cut, false);
  }

  lemma MixedWord(was: seq<u8>, image: seq<u8>, cut: nat, erase: bool)
    requires |was| == |image| && |was| >= HEADER && cut <= 16 && !erase
    ensures Word32(Torn(was, image, cut, erase), 12) == MixedSequence(Word32(image, 12), Word32(was, 12), cut)
  {
    WordBytes(image, 12, Word32(image, 12));
    WordBytes(was, 12, Word32(was, 12));
  }

  // So the older of two records comes back as the newest one exactly when the mixed
  // number is after the newer's.
  lemma StaleComesBack(a: seq<u8>, b: seq<u8>, unit: u16, payload: seq<u8>, cut: nat)
    requires |a| == |b| && HEADER <= |a| <= MAX_SLOT && |payload| <= |a| - HEADER && cut <= 16
    requires Read(a, unit).Some? && Read(b, unit).Some?
    ensures var first, second := Read(a, unit).value, Read(b, unit).value;
      var (slot, sequence) := Target(Some(first), Some(second));
      var (stale, newest) := if slot == 0 then (first, second) else (second, first);
      var mixed := MixedSequence(sequence, stale.sequence, cut);
      var back := if slot == 0 then !After(newest.sequence, mixed) else After(mixed, newest.sequence);
      var (a', b') := Written(a, b, unit, payload, cut, false);
      Latest(Read(a', unit), Read(b', unit)) ==
        Some(if back then Record(mixed, stale.payload) else newest)
  {
    var (slot, sequence) := Target(Read(a, unit), Read(b, unit));
    TornOverOld(if slot == 0 then a else b, unit, Record(sequence, payload), cut);
  }

  // Records 5 and 6, and a write of number 7 cut after the first byte of that number:
  // record 5 is read as number 7.
  lemma StaleExample(a: seq<u8>, b: seq<u8>, unit: u16, payload: seq<u8>)
    requires |a| == |b| && HEADER <= |a| <= MAX_SLOT && |payload| <= |a| - HEADER
    requires Read(a, unit).Some? && Read(a, unit).value.sequence == 5
    requires Read(b, unit).Some? && Read(b, unit).value.sequence == 6
    ensures var (a', b') := Written(a, b, unit, payload, 13, false);
      Latest(Read(a', unit), Read(b', unit)) == Some(Record(7, Read(a, unit).value.payload))
  {
    StaleComesBack(a, b, unit, payload, 13);
    MixedExample();
    NumbersExample(Read(a, unit).value, Read(b, unit).value);
  }

  lemma MixedExample()
    ensures MixedSequence(7, 5, 13) == 7
  {
    assert Le32(7)[..1] + Le32(5)[1..] == [7, 0, 0, 0];
  }

  lemma NumbersExample(first: Record, second: Record)
    requires first.sequence == 5 && second.sequence == 6
    ensures Target(Some(first), Some(second)) == (0, 7) && !After(6, 7)
  {}
}
