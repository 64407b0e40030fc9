// Call-list rows as section 7.18 of 3GPP TS 27.007 writes them, and that the parser
// gives back what they say.

module ClccRoundTrip {
  import opened CStrings
  import opened Decimals
  import opened Wrappers
  import opened Clcc

  // The optional number of a row: in quotes, or bare.
  datatype Party = NoParty | QuotedParty(number: string, kind: nat) | BareParty(number: string, kind: nat)

  predicate Writable(p: Party) {
    match p
    case NoParty => true
    case QuotedParty(number, kind) => kind <= 255 && '"' !in number
    case BareParty(number, kind) =>
      && kind <= 255 && ',' !in number
      && (number != "" ==> number[0] != ' ' && number[0] != '"' && number[|number| - 1] != ' ')
  }

  function PrintParty(p: Party): string {
    match p
    case NoParty => ""
    case QuotedParty(number, kind) => ",\"" + number + "\"," + Digits(kind)
    case BareParty(number, kind) => "," + number + "," + Digits(kind)
  }

  function PrintHead(h: Head): string {
    " " + Digits(h.id) + "," + Digits(h.dir) + "," + Digits(h.stat) + "," + Digits(h.mode) + "," + Digits(h.mpty)
  }

  // more is whatever fields come after the type.
  function Print(h: Head, p: Party, more: string): string {
    PREFIX + PrintHead(h) + PrintParty(p) + more
  }

  predicate MoreFields(p: Party, more: string) {
    more == "" || (!p.NoParty? && more[0] == ',')
  }

  function WrittenNumber(p: Party): string {
    if p.NoParty? then "" else p.number
  }

  // --- One field ---

  // rest is what s holds from p on.
  predicate At(s: string, p: nat, rest: string) {
    p <= |s| && s[p..] == rest
  }

  lemma Past(s: string, p: nat, a: string, rest: string)
    requires At(s, p, a + rest)
    ensures p + |a| <= |s| && s[p..p + |a|] == a && At(s, p + |a|, rest)
  {
    var u := s[p..];
    assert u[..|a|] == a && u[|a|..] == rest;
  }

  lemma PastChar(s: string, p: nat, c: char, rest: string)
    requires At(s, p, [c] + rest)
    ensures p < |s| && s[p] == c && At(s, p + 1, rest)
  {
    Past(s, p, [c], rest);
    assert s[p..p + 1][0] == s[p];
  }

  // What was read, and what is left.
  predicate Reads<T(==)>(r: Parsed<T>, value: T, s: string, rest: string) {
    r.Accepted? && r.value == value && At(s, r.next, rest)
  }

  predicate Ends(rest: string) {
    rest == "" || rest[0] == ','
  }

  // Digits from b on, after spaces from p on.
  lemma DigitsAt(s: string, p: nat, b: nat, v: nat, rest: string)
    requires p <= b && At(s, b, Digits(v) + rest) && (forall i | p <= i < b :: s[i] == ' ') && Ends(rest)
    ensures SkipSpaces(s, p) == b && Value(s[b..RunEnd(s, b)]) == v
    ensures RunEnd(s, b) > b && At(s, RunEnd(s, b), rest) && SkipSpaces(s, RunEnd(s, b)) == RunEnd(s, b)
  {
    var e := b + |Digits(v)|;
    Past(s, b, Digits(v), rest);
    assert s[b] == s[b..e][0];
    SkipIs(s, p, b);
    assert rest != "" ==> s[e] == s[e..][0];
    RunOf(s, b, e);
    ValueDigits(v);
    SkipIs(s, e, e);
  }

  lemma FieldReads(s: string, p: nat, b: nat, v: nat, max: nat, rest: string)
    requires p <= b && At(s, b, Digits(v) + ("," + rest)) && (forall i | p <= i < b :: s[i] == ' ') && v <= max
    ensures Reads(Uint(s, p, max, true), v, s, rest)
  {
    DigitsAt(s, p, b, v, "," + rest);
    PastChar(s, RunEnd(s, b), ',', rest);
  }

  lemma LastFieldReads(s: string, p: nat, v: nat, max: nat, rest: string)
    requires At(s, p, Digits(v) + rest) && v <= max && Ends(rest)
    ensures Reads(Uint(s, p, max, false), v, s, rest)
  {
    DigitsAt(s, p, p, v, rest);
    assert rest != "" ==> s[RunEnd(s, p)] == s[RunEnd(s, p)..][0];
  }

  // --- The heading ---

  function AfterMode(h: Head, rest: string): string {
    Digits(h.mpty) + rest
  }

  function AfterStat(h: Head, rest: string): string {
    Digits(h.mode) + ("," + AfterMode(h, rest))
  }

  function AfterDir(h: Head, rest: string): string {
    Digits(h.stat) + ("," + AfterStat(h, rest))
  }

  function AfterId(h: Head, rest: string): string {
    Digits(h.dir) + ("," + AfterDir(h, rest))
  }

  lemma HeadFields(h: Head, rest: string)
    ensures PrintHead(h) + rest == " " + Digits(h.id) + ("," + AfterId(h, rest))
  {
    var a, b, c, d, e := Digits(h.id), Digits(h.dir), Digits(h.stat), Digits(h.mode), Digits(h.mpty);
    assert PrintHead(h) + rest == " " + a + "," + b + "," + c + "," + d + "," + (e + rest);
    assert " " + a + "," + b + "," + c + "," + d + "," + (e + rest) ==
           " " + a + "," + b + "," + c + "," + (d + ("," + (e + rest)));
    assert " " + a + "," + b + "," + c + "," + AfterStat(h, rest) == " " + a + "," + b + "," + AfterDir(h, rest);
    assert " " + a + "," + b + "," + AfterDir(h, rest) == " " + a + "," + AfterId(h, rest);
    assert " " + a + "," + AfterId(h, rest) == " " + a + ("," + AfterId(h, rest));
  }

  lemma HeadingReads(s: string, p: nat, h: Head, rest: string)
    requires At(s, p, PrintHead(h) + rest) && ValidHead(h) && Ends(rest)
    ensures Reads(Heading(s, p), h, s, rest)
  {
    HeadFields(h, rest);
    assert PrintHead(h) + rest == " " + (Digits(h.id) + ("," + AfterId(h, rest)));
    PastChar(s, p, ' ', Digits(h.id) + ("," + AfterId(h, rest)));
    FieldReads(s, p, p + 1, h.id, CALL_ID_MAX, AfterId(h, rest));
    TailReads(s, Uint(s, p, CALL_ID_MAX, true).next, h, rest);
  }

  // The four numbers after the id.
  lemma TailReads(s: string, p: nat, h: Head, rest: string)
    requires At(s, p, AfterId(h, rest)) && ValidHead(h) && Ends(rest)
    ensures var dir := Uint(s, p, 1, true);
      && Reads(dir, h.dir, s, AfterDir(h, rest))
      && var stat := Uint(s, dir.next, 5, true);
      && Reads(stat, h.stat, s, AfterStat(h, rest))
      && var mode := Uint(s, stat.next, 9, true);
      && Reads(mode, h.mode, s, AfterMode(h, rest))
      && Reads(Uint(s, mode.next, 1, false), h.mpty, s, rest)
  {
    FieldReads(s, p, p, h.dir, 1, AfterDir(h, rest));
    var dir := Uint(s, p, 1, true).next;
    FieldReads(s, dir, dir, h.stat, 5, AfterStat(h, rest));
    var stat := Uint(s, dir, 5, true).next;
    FieldReads(s, stat, stat, h.mode, 9, AfterMode(h, rest));
    LastFieldReads(s, Uint(s, stat, 9, true).next, h.mpty, 1, rest);
  }

  // --- The number ---

  lemma QuotedReads(s: string, p: nat, number: string, rest: string)
    requires At(s, p, "," + ("\"" + (number + ("\"" + ("," + rest))))) && '"' !in number
    ensures var r := NumberText(s, p); r.Accepted? && r.value == number && At(s, r.next + 1, rest)
  {
    var e := p + 2 + |number|;
    PastChar(s, p, ',', "\"" + (number + ("\"" + ("," + rest))));
    PastChar(s, p + 1, '"', number + ("\"" + ("," + rest)));
    Past(s, p + 2, number, "\"" + ("," + rest));
    PastChar(s, e, '"', "," + rest);
    PastChar(s, e + 1, ',', rest);
    SkipIs(s, p + 1, p + 1);
    FindIs(s, p + 2, '"', e);
    SkipIs(s, e + 1, e + 1);
  }

  lemma TrimIs(s: string, a: nat, e: nat)
    requires a <= e <= |s| && (e > a ==> s[e - 1] != ' ')
    ensures TrimEnd(s, a, e) == e
  {}

  lemma BareReads(s: string, p: nat, number: string, rest: string)
    requires At(s, p, "," + (number + ("," + rest))) && ',' !in number
    requires number != "" ==> number[0] != ' ' && number[0] != '"' && number[|number| - 1] != ' '
    ensures var r := NumberText(s, p); r.Accepted? && r.value == number && At(s, r.next + 1, rest)
  {
    var a, e := p + 1, p + 1 + |number|;
    PastChar(s, p, ',', number + ("," + rest));
    Past(s, a, number, "," + rest);
    PastChar(s, e, ',', rest);
    assert number != "" ==> s[a] == s[a..e][0] && s[e - 1] == s[a..e][|number| - 1];
    SkipIs(s, a, a);
    FindIs(s, a, ',', e);
    TrimIs(s, a, e);
  }

  lemma PartyTextReads(s: string, p: nat, party: Party, more: string)
    requires At(s, p, PrintParty(party) + more) && !party.NoParty? && Writable(party)
    ensures var r := NumberText(s, p);
      r.Accepted? && r.value == party.number && At(s, r.next + 1, Digits(party.kind) + more)
  {
    PartyFields(party, more);
    if party.QuotedParty? {
      QuotedReads(s, p, party.number, Digits(party.kind) + more);
    } else {
      BareReads(s, p, party.number, Digits(party.kind) + more);
    }
  }

  lemma PartyReads(s: string, p: nat, party: Party, more: string)
    requires At(s, p, PrintParty(party) + more)
    requires !party.NoParty? && Writable(party) && MoreFields(party, more)
    ensures var r := Number(s, p); r.Accepted? && r.value == party.number
  {
    PartyTextReads(s, p, party, more);
    KindReads(s, p, party.kind, more);
  }

  lemma KindReads(s: string, p: nat, kind: nat, more: string)
    requires p <= |s| && NumberText(s, p).Accepted? && kind <= 255 && Ends(more)
    requires At(s, NumberText(s, p).next + 1, Digits(kind) + more)
    ensures Number(s, p).Accepted? && Number(s, p).value == NumberText(s, p).value
  {
    LastFieldReads(s, NumberText(s, p).next + 1, kind, 255, more);
  }

  lemma PartyFields(party: Party, more: string)
    requires !party.NoParty?
    ensures var number, rest := party.number, Digits(party.kind) + more;
      PrintParty(party) + more ==
        if party.QuotedParty? then "," + ("\"" + (number + ("\"" + ("," + rest)))) else "," + (number + ("," + rest))
  {
    var number, kind := party.number, Digits(party.kind);
    if party.QuotedParty? {
      assert ",\"" == "," + "\"" && "\"," == "\"" + ",";
      Associate(",", "\"", number, "\"", ",", kind, more);
    } else {
      assert "," + number + "," + kind + more == "," + (number + ("," + (kind + more)));
    }
  }

  lemma Associate(a: string, b: string, c: string, d: string, e: string, f: string, g: string)
    ensures (a + b) + c + (d + e) + f + g == a + (b + (c + (d + (e + (f + g)))))
  {}

  // --- The row ---

  // Every row that can be written, with or without a number and with any fields after
  // it, parses to what it says, the number cut to 32 characters.
  lemma RowRoundTrip(h: Head, p: Party, more: string)
    requires ValidHead(h) && Writable(p) && MoreFields(p, more)
    ensures ParseRow(Print(h, p, more)) == Some(RowOf(h, WrittenNumber(p)))
  {
    var line, rest := Print(h, p, more), PrintParty(p) + more;
    PrintParts(h, p, more);
    HeadingReads(line, |PREFIX|, h, rest);
    PartyOrEnd(line, Heading(line, |PREFIX|).next, p, more);
    RowFromParts(line, h, p);
  }

  lemma PrintParts(h: Head, p: Party, more: string)
    requires MoreFields(p, more)
    ensures var line, rest := Print(h, p, more), PrintParty(p) + more;
      PREFIX <= line && At(line, |PREFIX|, PrintHead(h) + rest) && Ends(rest)
  {
    FourParts(PREFIX, PrintHead(h), PrintParty(p), more);
    StartsWithComma(p, more);
  }

  lemma FourParts(a: string, b: string, c: string, d: string)
    ensures a <= a + b + c + d && At(a + b + c + d, |a|, b + (c + d))
  {
    assert a + b + c + d == a + (b + (c + d));
  }

  lemma StartsWithComma(p: Party, more: string)
    requires MoreFields(p, more)
    ensures Ends(PrintParty(p) + more)
  {}

  lemma RowFromParts(line: string, h: Head, p: Party)
    requires PREFIX <= line && ValidHead(h)
    requires var r := Heading(line, |PREFIX|);
      && r.Accepted? && r.value == h
      && (r.next == |line| <==> p.NoParty?)
      && (!p.NoParty? ==> var n := Number(line, r.next); n.Accepted? && n.value == p.number)
    ensures ParseRow(line) == Some(RowOf(h, WrittenNumber(p)))
  {}

  lemma PartyOrEnd(s: string, p: nat, party: Party, more: string)
    requires At(s, p, PrintParty(party) + more) && Writable(party) && MoreFields(party, more)
    ensures p == |s| <==> party.NoParty?
    ensures !party.NoParty? ==> var r := Number(s, p); r.Accepted? && r.value == party.number
  {
    if !party.NoParty? {
      PartyReads(s, p, party, more);
    }
  }

  // Whatever line is accepted, its row is in the protocol's range.
  lemma AcceptedRow(line: string)
    requires ParseRow(line).Some?
    ensures var r := ParseRow(line).value;
      && PREFIX <= line && 1 <= r.id <= CALL_ID_MAX && |r.number| <= PHONE_MAX
  {}

  // A digit run of any length is accepted exactly when its number is in range.
  lemma UintAcceptsByValue(t: string, max: nat)
    requires t != "" && AllDigits(t)
    ensures Uint(t, 0, max, false) == if Value(t) <= max then Accepted(Value(t), |t|) else Rejected
  {
    assert t[0..|t|] == t;
    SkipIs(t, 0, 0);
    RunOf(t, 0, |t|);
  }
}
