// What the numbers of a call-list row say, by the codes of section 7.18 of 3GPP TS
// 27.007: rows printed by their fields read back, and accepted lines read field by field.

module ClccRows {
  import opened CStrings
  import opened Decimals
  import opened Wrappers
  import opened Clcc
  import opened ClccRoundTrip

  // --- The codes ---

  function DirectionCode(d: Direction): nat {
    match d
    case MobileOriginated => 0
    case MobileTerminated => 1
  }

  function StateCode(s: LegState): nat {
    match s
    case Active => 0
    case Held => 1
    case Dialing => 2
    case Alerting => 3
    case Incoming => 4
    case Waiting => 5
  }

  // Both data bearers are data; a call of neither kind is written 9.
  function ModeCode(m: Mode, alternate: bool): nat {
    match m
    case Voice => 0
    case Data => if alternate then 2 else 1
    case UnknownMode => 9
  }

  function FlagCode(b: bool): nat {
    if b then 1 else 0
  }

  function Codes(row: Row, alternate: bool): Head {
    Head(row.id, DirectionCode(row.dir), StateCode(row.state), ModeCode(row.mode, alternate), FlagCode(row.mpty))
  }

  // --- Printing a row and reading it ---

  function PrintRow(row: Row, alternate: bool, p: Party, more: string): string {
    Print(Codes(row, alternate), p, more)
  }

  lemma CodesSay(row: Row, alternate: bool, number: string)
    requires 1 <= row.id <= CALL_ID_MAX
    ensures ValidHead(Codes(row, alternate)) && Normalized(Codes(row, alternate), number) == row.(number := number)
  {}

  // A row printed by its codes parses to that row, its number cut to 32 characters.
  lemma RowReads(row: Row, alternate: bool, p: Party, more: string)
    requires 1 <= row.id <= 7 && row.number == WrittenNumber(p) && Writable(p) && MoreFields(p, more)
    ensures ParseRow(PrintRow(row, alternate, p, more)) ==
      Some(row.(number := if |row.number| <= 32 then row.number else row.number[..32]))
  {
    CodesSay(row, alternate, Clip(row.number, PHONE_MAX + 1));
    RowRoundTrip(Codes(row, alternate), p, more);
  }

  // --- Reading any accepted line ---

  predicate Spaces(t: string) {
    forall i | 0 <= i < |t| :: t[i] == ' '
  }

  // The text is this number, with any spaces around it and any zeros before it.
  ghost predicate Says(t: string, v: nat) {
    exists a, b | 0 <= a < b <= |t| :: SaysAt(t, a, b, v)
  }

  predicate SaysAt(t: string, a: nat, b: nat, v: nat)
    requires a < b <= |t|
  {
    Spaces(t[..a]) && AllDigits(t[a..b]) && Value(t[a..b]) == v && Spaces(t[b..])
  }

  lemma Slice(s: string, p: nat, q: nat, i: nat, j: nat)
    requires p <= q <= |s| && i <= j <= q - p
    ensures s[p..q][i..j] == s[p + i..p + j]
  {
    var t := s[p..q];
    assert forall k | 0 <= k < j - i :: t[i..j][k] == t[i + k] == s[p + (i + k)] == s[p + i..p + j][k];
  }

  lemma SaysBetween(s: string, p: nat, b: nat, r: nat, q: nat)
    requires p <= b < r <= q <= |s| && Spaces(s[p..b]) && AllDigits(s[b..r]) && Spaces(s[r..q])
    ensures Says(s[p..q], Value(s[b..r]))
  {
    var t := s[p..q];
    Slice(s, p, q, 0, b - p);
    Slice(s, p, q, b - p, r - p);
    Slice(s, p, q, r - p, q - p);
    assert t[r - p..] == t[r - p..q - p] && t[..b - p] == t[0..b - p];
    assert SaysAt(t, b - p, r - p, Value(s[b..r]));
  }

  // Where each field ends.
  datatype Stops = Stops(id: nat, dir: nat, stat: nat, mode: nat, mpty: nat)

  // This number and a comma stand between these places.
  ghost predicate Field(s: string, p: nat, v: nat, next: nat) {
    p < next <= |s| && Says(s[p..next - 1], v) && s[next - 1] == ','
  }

  // A field and its comma.
  lemma FieldSays(s: string, p: nat, max: nat)
    requires p <= |s| && Uint(s, p, max, true).Accepted?
    ensures var u := Uint(s, p, max, true); Field(s, p, u.value, u.next)
  {
    var b := SkipSpaces(s, p);
    var r := RunEnd(s, b);
    SaysBetween(s, p, b, r, SkipSpaces(s, r));
  }

  lemma LastSays(s: string, p: nat, max: nat)
    requires p <= |s| && Uint(s, p, max, false).Accepted?
    ensures var u := Uint(s, p, max, false); p < u.next <= |s| && Says(s[p..u.next], u.value)
  {
    var b := SkipSpaces(s, p);
    var r := RunEnd(s, b);
    SaysBetween(s, p, b, r, SkipSpaces(s, r));
  }

  lemma HeadingStops(s: string) returns (e: Stops)
    requires PREFIX <= s && Heading(s, |PREFIX|).Accepted?
    ensures var h := Heading(s, |PREFIX|).value;
      && Field(s, |PREFIX|, h.id, e.id) && Field(s, e.id, h.dir, e.dir) && Field(s, e.dir, h.stat, e.stat)
      && Field(s, e.stat, h.mode, e.mode) && e.mode < e.mpty <= |s| && Says(s[e.mode..e.mpty], h.mpty)
    ensures Heading(s, |PREFIX|).next == e.mpty
  {
    var id := Uint(s, |PREFIX|, CALL_ID_MAX, true).next;
    FieldSays(s, |PREFIX|, CALL_ID_MAX);
    var dir := Uint(s, id, 1, true).next;
    FieldSays(s, id, 1);
    var stat := Uint(s, dir, 5, true).next;
    FieldSays(s, dir, 5);
    var mode := Uint(s, stat, 9, true).next;
    FieldSays(s, stat, 9);
    var mpty := Uint(s, mode, 1, false).next;
    LastSays(s, mode, 1);
    e := Stops(id, dir, stat, mode, mpty);
  }

  // The row of an accepted line, by the numbers of its heading.
  lemma AcceptedHead(line: string) returns (number: string)
    requires ParseRow(line).Some?
    ensures PREFIX <= line && Heading(line, |PREFIX|).Accepted?
    ensures ParseRow(line).value == Normalized(Heading(line, |PREFIX|).value, number)
    ensures |number| <= 32 && (Heading(line, |PREFIX|).next == |line| ==> number == "")
  {
    number := ParseRow(line).value.number;
  }

  lemma CodesOf(h: Head, alternate: bool, number: string)
    requires ValidHead(h) && alternate == (h.mode == 2)
    ensures Codes(Normalized(h, number), alternate) == h
  {}

  // An accepted line is the prefix, five numbers with commas between them and then the
  // end or a comma, and its row says what the numbers mean.
  lemma AcceptedFields(line: string) returns (e: Stops, alternate: bool)
    requires ParseRow(line).Some?
    ensures var row := ParseRow(line).value;
      && PREFIX <= line && 1 <= row.id <= 7 && |row.number| <= 32
      && Field(line, |PREFIX|, row.id, e.id)
      && Field(line, e.id, DirectionCode(row.dir), e.dir)
      && Field(line, e.dir, StateCode(row.state), e.stat)
      && Field(line, e.stat, ModeCode(row.mode, alternate), e.mode)
      && e.mode < e.mpty <= |line| && Says(line[e.mode..e.mpty], FlagCode(row.mpty))
      && if e.mpty == |line| then row.number == "" else line[e.mpty] == ','
  {
    var number := AcceptedHead(line);
    var h := Heading(line, |PREFIX|).value;
    e := HeadingStops(line);
    alternate := h.mode == 2;
    CodesOf(h, alternate, number);
  }
}
