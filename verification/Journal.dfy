// The two-slot journal (src/storage/storage_journal.c): a record's image, reading a
// slot, the newer of two, and the write, which the power may cut short.

module Journal {
  import opened Wrappers
  import opened Timebase
  import opened Crc32

  const MAGIC: u32 := 0x4e333231
  const VERSION: u16 := 1
  const COMMITTED: u32 := 0x43544d21
  const HEADER: nat := 32
  const MAX_SLOT: nat := 4096
  const ERASED: u8 := 0xff

  // --- Little-endian words ---

  function Le16(v: u16): seq<u8> {
    [v % 256, v / 256]
  }

  function Le32(v: u32): seq<u8> {
    [v % 256, v / 256 % 256, v / 0x1_0000 % 256, v / 0x100_0000]
  }

  function Word16(s: seq<u8>, at: nat): u16
    requires at + 2 <= |s|
  {
    s[at] as int + 256 * s[at + 1] as int
  }

  function Word32(s: seq<u8>, at: nat): u32
    requires at + 4 <= |s|
  {
    s[at] as int + 256 * s[at + 1] as int + 0x1_0000 * s[at + 2] as int + 0x100_0000 * s[at + 3] as int
  }

  // s with these bytes put in at a place.
  function Put(s: seq<u8>, at: nat, bytes: seq<u8>): (r: seq<u8>)
    requires at + |bytes| <= |s|
    ensures |r| == |s|
    ensures forall i | 0 <= i < |s| :: r[i] == if at <= i < at + |bytes| then bytes[i - at] else s[i]
  {
    s[..at] + bytes + s[at + |bytes|..]
  }

  function Blank(n: nat): (r: seq<u8>)
    ensures |r| == n
  {
    seq(n, _ => ERASED)
  }

  // --- Records ---

  datatype Record = Record(sequence: u32, payload: seq<u8>)

  function HeaderOf(unit: u16, r: Record, blank: seq<u8>): seq<u8>
    requires |blank| >= HEADER && |r.payload| < WORD
  {
    var a := Put(Put(Put(blank, 0, Le32(MAGIC)), 4, Le16(VERSION)), 6, Le16(HEADER));
    var b := Put(Put(Put(a, 8, Le16(unit)), 10, Le16(0)), 12, Le32(r.sequence));
    Put(Put(Put(Put(b, 16, Le32(|r.payload|)), 20, Le32(Crc(r.payload))), 24, Le32(COMMITTED)), 28, Le32(U32_MAX))
  }

  predicate Fits(r: Record, size: nat) {
    HEADER <= size <= MAX_SLOT && |r.payload| <= size - HEADER
  }

  // The whole slot as it is written.
  function Image(unit: u16, r: Record, size: nat): (image: seq<u8>)
    requires Fits(r, size)
    ensures |image| == size
  {
    Put(HeaderOf(unit, r, Blank(size)), HEADER, r.payload)
  }

  predicate HeaderValid(slot: seq<u8>, unit: u16)
    requires |slot| >= HEADER
  {
    && Word32(slot, 0) == MAGIC && Word16(slot, 4) == VERSION && Word16(slot, 6) == HEADER
    && Word16(slot, 8) == unit && Word32(slot, 24) == COMMITTED
    && Word32(slot, 16) <= |slot| - HEADER
  }

  function PayloadOf(slot: seq<u8>, unit: u16): seq<u8>
    requires |slot| >= HEADER && HeaderValid(slot, unit)
  {
    slot[HEADER..HEADER + Word32(slot, 16)]
  }

  function Read(slot: seq<u8>, unit: u16): Option<Record>
    requires |slot| >= HEADER
  {
    if HeaderValid(slot, unit) && Crc(PayloadOf(slot, unit)) == Word32(slot, 20)
    then Some(Record(Word32(slot, 12), PayloadOf(slot, unit))) else None
  }

  // --- The newer of two ---

  predicate After(x: u32, y: u32) {
    TimeDiff(x, y) > 0
  }

  predicate SecondIsNewer(a: Option<Record>, b: Option<Record>) {
    a.None? || (b.Some? && After(b.value.sequence, a.value.sequence))
  }

  function Latest(a: Option<Record>, b: Option<Record>): Option<Record> {
    if SecondIsNewer(a, b) then b else a
  }

  function NextSequence(n: u32): u32 {
    if Add32(n, 1) == 0 then 1 else Add32(n, 1)
  }

  // The slot a write goes to, and its sequence number.
  function Target(a: Option<Record>, b: Option<Record>): (nat, u32) {
    if a.Some? && !(b.Some? && After(b.value.sequence, a.value.sequence)) then (1, NextSequence(a.value.sequence))
    else if b.Some? then (0, NextSequence(b.value.sequence))
    else (0, 1)
  }

  // A slot after the first cut bytes of an image, over what the slot held or
  // an erased slot.
  function Torn(was: seq<u8>, image: seq<u8>, cut: nat, erase: bool): (r: seq<u8>)
    requires |was| == |image|
    ensures |r| == |image|
  {
    if cut >= |image| then image
    else image[..cut] + if erase then Blank(|image| - cut) else was[cut..]
  }

  // The two slots after a write that gets through this many bytes.
  function Written(a: seq<u8>, b: seq<u8>, unit: u16, payload: seq<u8>, cut: nat, erase: bool): (seq<u8>, seq<u8>)
    requires |a| == |b| && HEADER <= |a| <= MAX_SLOT && |payload| <= |a| - HEADER
  {
    var (slot, sequence) := Target(Read(a, unit), Read(b, unit));
    var image := Image(unit, Record(sequence, payload), |a|);
    if slot == 0 then (Torn(a, image, cut, erase), b) else (a, Torn(b, image, cut, erase))
  }

  datatype WriteResult = WriteOk | WriteError

  // The device, as its two slots.
  class Device {
    const first: array<u8>
    const second: array<u8>
    const size: nat
    const unit: u16
    const eraseRequired: bool

    predicate Valid() {
      HEADER <= size <= MAX_SLOT && first.Length == size && second.Length == size && first != second
    }

    constructor (size: nat, unit: u16, eraseRequired: bool)
      requires HEADER <= size <= MAX_SLOT
      ensures Valid() && fresh(first) && fresh(second)
      ensures this.size == size && this.unit == unit && this.eraseRequired == eraseRequired
    {
      this.size, this.unit, this.eraseRequired := size, unit, eraseRequired;
      first := new u8[size](_ => ERASED);
      second := new u8[size](_ => ERASED);
    }

    // The payload is checked in pieces of 64 bytes.
    method CheckPayload(slot: array<u8>, len: nat) returns (crc: u32)
      requires HEADER + len <= slot.Length
      ensures crc == Crc(slot[HEADER..HEADER + len])
    {
      var c := START;
      var done := 0;
      assert slot[HEADER..HEADER] == [];
      while done < len
        invariant done <= len && c == Update(START, slot[HEADER..HEADER + done])
        decreases len - done
      {
        var chunk := if len - done > 64 then 64 else len - done;
        c := UpdateLoop(c, slot[HEADER + done..HEADER + done + chunk]);
        PieceAdded(slot[..], HEADER + done, HEADER + done + chunk);
        done := done + chunk;
      }
      crc := Xor(c, START);
    }

    method ReadSlot(slot: array<u8>) returns (r: Option<Record>)
      requires Valid() && slot.Length == size
      ensures r == Read(slot[..], unit)
    {
      var header := slot[..HEADER];
      if Word32(header, 0) != MAGIC || Word16(header, 4) != VERSION || Word16(header, 6) != HEADER ||
         Word16(header, 8) != unit || Word32(header, 24) != COMMITTED {
        return None;
      }
      var len := Word32(header, 16);
      if len > size - HEADER {
        return None;
      }
      var crc := CheckPayload(slot, len);
      assert slot[..][HEADER..HEADER + len] == slot[HEADER..HEADER + len];
      if crc != Word32(header, 20) {
        return None;
      }
      r := Some(Record(Word32(header, 12), slot[HEADER..HEADER + len]));
    }

    // The newest record that fits a destination of cap bytes.
    method ReadLatest(cap: nat) returns (r: Option<Record>)
      requires Valid()
      ensures var newest := Latest(Read(first[..], unit), Read(second[..], unit));
        r == if newest.Some? && |newest.value.payload| <= cap then newest else None
    {
      var a := ReadSlot(first);
      var b := ReadSlot(second);
      if a.None? && b.None? {
        return None;
      }
      var slot := first;
      if a.None? || (b.Some? && After(b.value.sequence, a.value.sequence)) {
        slot := second;
      }
      var state := ReadSlot(slot);
      if state.None? || |state.value.payload| > cap {
        return None;
      }
      return state;
    }

    method PutBytes(buffer: array<u8>, at: nat, bytes: seq<u8>)
      requires at + |bytes| <= buffer.Length
      modifies buffer
      ensures buffer[..] == Put(old(buffer[..]), at, bytes)
    {
      for i := 0 to |bytes|
        invariant buffer[..] == Put(old(buffer[..]), at, bytes[..i])
      {
        buffer[at + i] := bytes[i];
        assert bytes[..i + 1] == bytes[..i] + [bytes[i]];
      }
      assert bytes[..|bytes|] == bytes;
    }

    method BuildImage(r: Record) returns (buffer: array<u8>)
      requires Fits(r, size)
      ensures fresh(buffer) && buffer[..] == Image(unit, r, size)
    {
      buffer := new u8[size](_ => ERASED);
      assert buffer[..] == Blank(size);
      PutBytes(buffer, 0, Le32(MAGIC));
      PutBytes(buffer, 4, Le16(VERSION));
      PutBytes(buffer, 6, Le16(HEADER));
      PutBytes(buffer, 8, Le16(unit));
      PutBytes(buffer, 10, Le16(0));
      PutBytes(buffer, 12, Le32(r.sequence));
      PutBytes(buffer, 16, Le32(|r.payload|));
      var c := UpdateLoop(START, r.payload);
      PutBytes(buffer, 20, Le32(Xor(c, START)));
      PutBytes(buffer, 24, Le32(COMMITTED));
      PutBytes(buffer, 28, Le32(U32_MAX));
      PutBytes(buffer, HEADER, r.payload);
    }

    method Erase(slot: array<u8>)
      modifies slot
      ensures slot[..] == Blank(slot.Length)
    {
      for i := 0 to slot.Length
        invariant forall k | 0 <= k < i :: slot[k] == ERASED
      {
        slot[i] := ERASED;
      }
    }

    // The device erases the slot if it must, then programs the first power bytes.
    method Program(slot: array<u8>, image: seq<u8>, power: nat)
      requires |image| == slot.Length
      modifies slot
      ensures slot[..] == Torn(old(slot[..]), image, power, eraseRequired)
    {
      if eraseRequired {
        Erase(slot);
      }
      ghost var base := slot[..];
      var n := if power < slot.Length then power else slot.Length;
      for i := 0 to n
        invariant forall k | 0 <= k < slot.Length :: slot[k] == if k < i then image[k] else base[k]
      {
        slot[i] := image[i];
      }
      assert slot[..] == image[..n] + base[n..];
    }

    // The older slot, and the number after the newer one's.
    method ChooseTarget() returns (slot: array<u8>, sequence: u32)
      requires Valid()
      ensures slot == first || slot == second
      ensures (if slot == first then 0 else 1, sequence) == Target(Read(first[..], unit), Read(second[..], unit))
    {
      var a := ReadSlot(first);
      var b := ReadSlot(second);
      slot, sequence := first, 1;
      if a.Some? && (b.None? || !After(b.value.sequence, a.value.sequence)) {
        slot, sequence := second, Add32(a.value.sequence, 1);
      } else if b.Some? {
        slot, sequence := first, Add32(b.value.sequence, 1);
      }
      if sequence == 0 {
        sequence := 1;
      }
    }

    // power is how many bytes of the record reach the slot.
    method Write(payload: seq<u8>, power: nat) returns (result: WriteResult)
      requires Valid()
      modifies first, second
      ensures |payload| > size - HEADER ==>
        result == WriteError && first[..] == old(first[..]) && second[..] == old(second[..])
      ensures |payload| <= size - HEADER ==>
        (first[..], second[..]) == Written(old(first[..]), old(second[..]), unit, payload, power, eraseRequired)
      ensures |payload| <= size - HEADER ==>
        var (slot, sequence) := Target(Read(old(first[..]), unit), Read(old(second[..]), unit));
        var back := Read(if slot == 0 then first[..] else second[..], unit);
        (result == WriteOk <==> back.Some? && back.value.sequence == sequence)
    {
      if |payload| > size - HEADER {
        return WriteError;
      }
      var target, sequence := ChooseTarget();
      var buffer := BuildImage(Record(sequence, payload));
      Program(target, buffer[..], power);
      var verify := ReadSlot(target);
      result := if verify.Some? && verify.value.sequence == sequence then WriteOk else WriteError;
    }
  }

  lemma PieceAdded(slot: seq<u8>, mid: nat, end: nat)
    requires HEADER <= mid <= end <= |slot|
    ensures Update(START, slot[HEADER..end]) == Update(Update(START, slot[HEADER..mid]), slot[mid..end])
  {
    UpdateConcat(START, slot[HEADER..mid], slot[mid..end]);
    assert slot[HEADER..end] == slot[HEADER..mid] + slot[mid..end];
  }
}
