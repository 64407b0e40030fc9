// Rows of the current-call list, +CLCC of section 7.18 of 3GPP TS 27.007
// (include/services/modem_call_at.h).

module Clcc {
  import opened CStrings
  import opened Decimals
  import opened Wrappers

  // The C unsigned: going outside it is an error.
  newtype uint = x: int | 0 <= x < 0x1_0000_0000

  const CALL_ID_MAX: nat := 7
  const PHONE_MAX: nat := 32
  const PREFIX := "+CLCC:"

  // --- One number field ---

  datatype Parsed<T> = Accepted(value: T, next: nat) | Rejected

  // A digit run, spaces around it, and what must follow.
  function Uint(s: string, cursor: nat, max: nat, comma: bool): (r: Parsed<nat>)
    requires cursor <= |s|
    ensures r.Accepted? ==> cursor < r.next <= |s| && r.value <= max
    ensures r.Accepted? && !comma ==> r.next == |s| || s[r.next] == ','
  {
    var b := SkipSpaces(s, cursor);
    var e := RunEnd(s, b);
    var q := SkipSpaces(s, e);
    if e == b || Value(s[b..e]) > max then Rejected
    else if comma then (if q < |s| && s[q] == ',' then Accepted(Value(s[b..e]), q + 1) else Rejected)
    else if q == |s| || s[q] == ',' then Accepted(Value(s[b..e]), q)
    else Rejected
  }

  lemma {:induction false} ValueOfPrefix(d: string, k: nat)
    requires k <= |d| && AllDigits(d)
    ensures Value(d[..k]) <= Value(d)
  {
    if k == |d| {
      assert d[..k] == d;
    } else {
      ValueOfPrefix(d[..|d| - 1], k);
      assert d[..|d| - 1][..k] == d[..k];
    }
  }

  lemma PrefixStep(run: string, k: nat)
    requires k < |run| && AllDigits(run)
    ensures Value(run[..k + 1]) == Value(run[..k]) * 10 + DigitValue(run[k]) <= Value(run)
  {
    assert run[..k + 1] == run[..k] + [run[k]];
    ValueAppend(run[..k], run[k]);
    ValueOfPrefix(run, k + 1);
  }

  // One digit more, unless that passes the limit or 32 bits.
  method AppendDigit(value: uint, digit: uint, max: uint) returns (ok: bool, next: uint)
    requires digit < 10
    ensures ok <==> value as int * 10 + digit as int <= max as int
    ensures next as int == if ok then value as int * 10 + digit as int else value as int
  {
    if digit > max || value > (max - digit) / 10 {
      return false, value;
    }
    return true, value * 10 + digit;
  }

  // The digit loop, in 32 bits: it stops at the first digit that passes the limit.
  method UintDigits(s: CString, b: nat, max: uint) returns (ok: bool, value: uint, p: nat)
    requires b < |s| && IsDigit(s[b])
    ensures ok <==> Value(s[b..RunEnd(s, b)]) <= max as int
    ensures ok ==> value as int == Value(s[b..RunEnd(s, b)]) && p == RunEnd(s, b)
  {
    ghost var run := s[b..RunEnd(s, b)];
    p, value, ok := b, 0, true;
    assert run[..0] == "";
    while p < |s| && IsDigit(s[p])
      invariant ok && b <= p <= RunEnd(s, b) && RunEnd(s, p) == RunEnd(s, b)
      invariant value as int == Value(run[..p - b]) && value <= max
    {
      assert s[p] == run[p - b];
      PrefixStep(run, p - b);
      ok, value := AppendDigit(value, DigitValue(s[p]) as uint, max);
      if !ok {
        return;
      }
      p := p + 1;
    }
    assert run[..p - b] == run;
  }

  method ParseUint(s: CString, cursor: nat, max: uint, comma: bool) returns (ok: bool, next: nat, value: uint)
    requires cursor <= |s|
    ensures ok <==> Uint(s, cursor, max as int, comma).Accepted?
    ensures ok ==> Uint(s, cursor, max as int, comma) == Accepted(value as int, next)
    ensures !ok ==> next == cursor
  {
    next, value := cursor, 0;
    var b := SkipLoop(s, cursor);
    if b == |s| || !IsDigit(s[b]) {
      return false, next, value;
    }
    var fits, v, e := UintDigits(s, b, max);
    if !fits {
      return false, next, value;
    }
    var q := SkipLoop(s, e);
    if comma {
      if q == |s| || s[q] != ',' {
        return false, next, value;
      }
      q := q + 1;
    } else if q < |s| && s[q] != ',' {
      return false, next, value;
    }
    return true, q, v;
  }

  // --- The phone number and its type ---

  // s[a..e] without the spaces at its end.
  function TrimEnd(s: string, a: nat, e: nat): (r: nat)
    requires a <= e <= |s|
    ensures a <= r <= e && (r > a ==> s[r - 1] != ' ')
    ensures forall i | r <= i < e :: s[i] == ' '
  {
    if e > a && s[e - 1] == ' ' then TrimEnd(s, a, e - 1) else e
  }

  // A number in quotes, and the comma before its type.
  function Quoted(s: string, first: nat): (r: Parsed<string>)
    requires first <= |s|
    ensures r.Accepted? ==> first < r.next < |s|
  {
    var e := Find(s, first, '"');
    if e == |s| then Rejected
    else
      var q := SkipSpaces(s, e + 1);
      if q == |s| || s[q] != ',' then Rejected else Accepted(s[first..e], q)
  }

  // A number without them.
  function Bare(s: string, first: nat): (r: Parsed<string>)
    requires first <= |s|
    ensures r.Accepted? ==> first <= r.next < |s|
  {
    var e := Find(s, first, ',');
    if e == |s| then Rejected else Accepted(s[first..TrimEnd(s, first, e)], e)
  }

  function NumberText(s: string, cursor: nat): (r: Parsed<string>)
    requires cursor <= |s|
    ensures r.Accepted? ==> cursor < r.next < |s|
  {
    if cursor == |s| || s[cursor] != ',' then Rejected
    else
      var a := SkipSpaces(s, cursor + 1);
      if a < |s| && s[a] == '"' then Quoted(s, a + 1) else Bare(s, a)
  }

  function Number(s: string, cursor: nat): (r: Parsed<string>)
    requires cursor <= |s|
    ensures r.Accepted? ==> cursor < r.next <= |s| && (r.next == |s| || s[r.next] == ',')
  {
    var t := NumberText(s, cursor);
    if t.Rejected? then Rejected
    else
      var u := Uint(s, t.next + 1, 255, false);
      if u.Rejected? then Rejected else Accepted(t.value, u.next)
  }

  // Copies s[first..end], as much as fits.
  method CopyClipped(s: CString, first: nat, end: nat, out: array<char>)
    requires first <= end <= |s| && out.Length > 0
    modifies out
    ensures Holds(out[..], Clip(s[first..end], out.Length))
  {
    var p, len := first, 0;
    while p < end
      invariant first <= p <= end && len < out.Length
      invariant len == if p - first < out.Length then p - first else out.Length - 1
      invariant out[..len] == s[first..first + len]
    {
      assert len + 1 < out.Length ==> s[first..first + len + 1] == s[first..first + len] + [s[p]];
      len := Keep(out, len, s[p]);
      p := p + 1;
    }
    out[len] := '\0';
    assert out[..][..len] == s[first..first + len];
    assert s[first..end][..len] == s[first..first + len];
    assert s[first..end][..end - first] == s[first..end];
  }

  method FindLoop(s: CString, from: nat, c: char) returns (p: nat)
    requires from <= |s|
    ensures p == Find(s, from, c)
  {
    p := from;
    while p < |s| && s[p] != c
      invariant from <= p <= |s| && Find(s, from, c) == Find(s, p, c)
    {
      p := p + 1;
    }
  }

  method TrimLoop(s: CString, a: nat, from: nat) returns (e: nat)
    requires a <= from <= |s|
    ensures e == TrimEnd(s, a, from)
  {
    e := from;
    while e > a && s[e - 1] == ' '
      invariant a <= e <= from && TrimEnd(s, a, from) == TrimEnd(s, a, e)
    {
      e := e - 1;
    }
  }

  method ParseQuoted(s: CString, first: nat, out: array<char>) returns (ok: bool, comma: nat)
    requires first <= |s| && out.Length > 0
    modifies out
    ensures ok <==> Quoted(s, first).Accepted?
    ensures ok ==> comma == Quoted(s, first).next && Holds(out[..], Clip(Quoted(s, first).value, out.Length))
  {
    var e := FindLoop(s, first, '"');
    CopyClipped(s, first, e, out);
    if e == |s| {
      return false, 0;
    }
    var q := SkipLoop(s, e + 1);
    return q < |s| && s[q] == ',', q;
  }

  method ParseBare(s: CString, first: nat, out: array<char>) returns (ok: bool, comma: nat)
    requires first <= |s| && out.Length > 0
    modifies out
    ensures ok <==> Bare(s, first).Accepted?
    ensures ok ==> comma == Bare(s, first).next && Holds(out[..], Clip(Bare(s, first).value, out.Length))
  {
    var e := FindLoop(s, first, ',');
    if e == |s| {
      return false, 0;
    }
    var end := TrimLoop(s, first, e);
    CopyClipped(s, first, end, out);
    return true, e;
  }

  method ParseNumberText(s: CString, cursor: nat, out: array<char>) returns (ok: bool, comma: nat)
    requires cursor <= |s| && out.Length > 0
    modifies out
    ensures ok <==> NumberText(s, cursor).Accepted?
    ensures ok ==>
      comma == NumberText(s, cursor).next && Holds(out[..], Clip(NumberText(s, cursor).value, out.Length))
  {
    if cursor == |s| || s[cursor] != ',' {
      return false, 0;
    }
    var a := SkipLoop(s, cursor + 1);
    if a < |s| && s[a] == '"' {
      ok, comma := ParseQuoted(s, a + 1, out);
    } else {
      ok, comma := ParseBare(s, a, out);
    }
  }

  method ParseNumber(s: CString, cursor: nat, out: array<char>) returns (ok: bool, next: nat)
    requires cursor <= |s|
    modifies out
    ensures ok <==> out.Length > 0 && Number(s, cursor).Accepted?
    ensures ok ==> next == Number(s, cursor).next && Holds(out[..], Clip(Number(s, cursor).value, out.Length))
    ensures !ok ==> next == cursor
  {
    if out.Length == 0 {
      return false, cursor;
    }
    var found, comma := ParseNumberText(s, cursor, out);
    if !found {
      return false, cursor;
    }
    var typed, p, _ := ParseUint(s, comma + 1, 255, false);
    if !typed {
      return false, cursor;
    }
    return true, p;
  }

  // --- A row ---

  datatype Direction = MobileOriginated | MobileTerminated
  datatype Mode = Voice | Data | UnknownMode
  datatype LegState = Active | Held | Dialing | Alerting | Incoming | Waiting

  datatype Row = Row(id: nat, dir: Direction, mode: Mode, mpty: bool, state: LegState, number: string)

  function StateOf(stat: nat): LegState
    requires stat < 6
  {
    [Active, Held, Dialing, Alerting, Incoming, Waiting][stat]
  }

  predicate KnownMode(mode: nat) {
    mode == 0 || mode == 1 || mode == 2 || mode == 9
  }

  function ModeOf(mode: nat): Mode {
    if mode == 0 then Voice else if mode == 1 || mode == 2 then Data else UnknownMode
  }

  // The five numbers every row starts with.
  datatype Head = Head(id: nat, dir: nat, stat: nat, mode: nat, mpty: nat)

  predicate ValidHead(h: Head) {
    1 <= h.id <= CALL_ID_MAX && h.dir <= 1 && h.stat <= 5 && KnownMode(h.mode) && h.mpty <= 1
  }

  function Heading(s: string, cursor: nat): (r: Parsed<Head>)
    requires cursor <= |s|
    ensures r.Accepted? ==> cursor < r.next <= |s| && ValidHead(r.value)
    ensures r.Accepted? ==> r.next == |s| || s[r.next] == ','
  {
    var id := Uint(s, cursor, CALL_ID_MAX, true);
    if id.Rejected? || id.value == 0 then Rejected else
    var dir := Uint(s, id.next, 1, true);
    if dir.Rejected? then Rejected else
    var stat := Uint(s, dir.next, 5, true);
    if stat.Rejected? then Rejected else
    var mode := Uint(s, stat.next, 9, true);
    if mode.Rejected? then Rejected else
    var mpty := Uint(s, mode.next, 1, false);
    if mpty.Rejected? || !KnownMode(mode.value) then Rejected
    else Accepted(Head(id.value, dir.value, stat.value, mode.value, mpty.value), mpty.next)
  }

  function Normalized(h: Head, number: string): Row
    requires ValidHead(h)
  {
    Row(h.id, if h.dir == 0 then MobileOriginated else MobileTerminated, ModeOf(h.mode), h.mpty != 0,
        StateOf(h.stat), number)
  }

  function RowOf(h: Head, number: string): Row
    requires ValidHead(h)
  {
    Normalized(h, Clip(number, PHONE_MAX + 1))
  }

  function ParseRow(line: string): Option<Row> {
    if !(PREFIX <= line) then None
    else
      var h := Heading(line, |PREFIX|);
      if h.Rejected? then None else WithNumber(line, h.next, h.value)
  }

  // The row, when what follows its heading is the end or a number.
  function WithNumber(line: string, cursor: nat, h: Head): Option<Row>
    requires cursor <= |line| && ValidHead(h)
  {
    if cursor == |line| then Some(RowOf(h, ""))
    else
      var n := Number(line, cursor);
      if n.Rejected? then None else Some(RowOf(h, n.value))
  }

  method StartsWith(line: CString, prefix: string) returns (ok: bool)
    ensures ok <==> prefix <= line
  {
    ok := |prefix| <= |line| && line[..|prefix|] == prefix;
  }

  method ParseHeading(s: CString, cursor: nat) returns (ok: bool, h: Head, next: nat)
    requires cursor <= |s|
    ensures ok <==> Heading(s, cursor).Accepted?
    ensures ok ==> Heading(s, cursor) == Accepted(h, next)
  {
    var p := cursor;
    var id, dir, stat, mode, mpty: uint;
    h, next := Head(0, 0, 0, 0, 0), cursor;
    ok, p, id := ParseUint(s, p, CALL_ID_MAX as uint, true);
    if !ok || id == 0 {
      return false, h, next;
    }
    ok, p, dir := ParseUint(s, p, 1, true);
    if !ok {
      return;
    }
    ok, p, stat := ParseUint(s, p, 5, true);
    if !ok {
      return;
    }
    ok, p, mode := ParseUint(s, p, 9, true);
    if !ok {
      return;
    }
    ok, p, mpty := ParseUint(s, p, 1, false);
    if !ok {
      return;
    }
    if mode != 0 && mode != 1 && mode != 2 && mode != 9 {
      return false, h, next;
    }
    return true, Head(id as int, dir as int, stat as int, mode as int, mpty as int), p;
  }

  // The caller's row, written only by a row that parses.
  class RowSlot {
    var row: Row

    constructor (row: Row)
      ensures this.row == row
    {
      this.row := row;
    }

    method ReadNumber(line: CString, cursor: nat) returns (ok: bool, next: nat, written: string)
      requires cursor <= |line|
      ensures ok <==> Number(line, cursor).Accepted?
      ensures ok ==>
        next == Number(line, cursor).next && written == Clip(Number(line, cursor).value, PHONE_MAX + 1)
      ensures !ok ==> next == cursor
    {
      var number := new char[PHONE_MAX + 1](_ => '\0');
      written := "";
      ok, next := ParseNumber(line, cursor, number);
      if ok {
        ghost var text := Clip(Number(line, cursor).value, PHONE_MAX + 1);
        var n := StrLen(number, text);
        written := number[..n];
        assert written == number[..][..n] == text;
      }
    }

    method TakeRow(line: CString, cursor: nat, h: Head) returns (ok: bool)
      requires cursor <= |line| && ValidHead(h) && (cursor == |line| || line[cursor] == ',')
      modifies this
      ensures ok <==> WithNumber(line, cursor, h).Some?
      ensures row == if ok then WithNumber(line, cursor, h).value else old(row)
    {
      var p, written := cursor, "";
      if p < |line| && line[p] == ',' {
        ok, p, written := ReadNumber(line, p);
        if !ok {
          return;
        }
      }
      if p < |line| && line[p] != ',' {
        return false;
      }
      row := Normalized(h, written);
      ok := true;
    }

    method ParseClccRow(line: CString) returns (ok: bool)
      modifies this
      ensures ok <==> ParseRow(line).Some?
      ensures row == if ok then ParseRow(line).value else old(row)
    {
      ok := StartsWith(line, PREFIX);
      if !ok {
        return;
      }
      var h, p;
      ok, h, p := ParseHeading(line, |PREFIX|);
      if ok {
        ok := TakeRow(line, p, h);
      }
    }
  }
}
