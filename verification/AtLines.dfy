// Lines as a modem writes them: quoted and bare fields mixed, with spaces around them.

module AtLines {
  import opened CStrings
  import opened ClccRoundTrip
  import opened AtCsv

  // lead spaces stand before the field, pad spaces after a closing quote.
  datatype Cell = Quoted(text: string, lead: nat, pad: nat) | Bare(text: string, lead: nat)

  predicate Writable(c: Cell) {
    match c
    case Quoted(text, _, _) => '"' !in text
    case Bare(text, _) => ',' !in text && (text != "" ==> text[0] != ' ' && text[0] != '"')
  }

  function Blanks(n: nat): (r: string)
    ensures |r| == n
  {
    seq(n, _ => ' ')
  }

  function Body(c: Cell): string {
    match c
    case Quoted(text, _, pad) => "\"" + (text + ("\"" + Blanks(pad)))
    case Bare(text, _) => text
  }

  // The cells with commas between them.
  function Line(cells: seq<Cell>): string {
    if cells == [] then ""
    else Blanks(cells[0].lead) + (Body(cells[0]) + if |cells| == 1 then "" else "," + Line(cells[1..]))
  }

  function Texts(cells: seq<Cell>): seq<string> {
    if cells == [] then [] else [cells[0].text] + Texts(cells[1..])
  }

  predicate Rest(rest: string) {
    rest == "" || rest[0] == ','
  }

  function Tail(rest: string): string
    requires Rest(rest)
  {
    if rest == "" then "" else rest[1..]
  }

  lemma PastBlanks(s: string, p: nat, n: nat, rest: string)
    requires At(s, p, Blanks(n) + rest) && (rest != "" ==> rest[0] != ' ')
    ensures p + n <= |s| && At(s, p + n, rest) && SkipSpaces(s, p) == p + n
  {
    Past(s, p, Blanks(n), rest);
    assert forall i | p <= i < p + n :: s[i] == s[p..p + n][i - p];
    assert rest != "" ==> s[p + n] == s[p + n..][0];
    SkipIs(s, p, p + n);
  }

  predicate ReadsAs(s: string, p: nat, text: string, rest: string)
    requires p <= |s| && Rest(rest)
  {
    HasField(s, p) && FieldText(s, p) == text && At(s, FieldNext(s, p), Tail(rest))
  }

  // Past the comma when there is one.
  lemma PastComma(s: string, q: nat, rest: string)
    requires At(s, q, rest) && Rest(rest)
    ensures At(s, if q < |s| && s[q] == ',' then q + 1 else q, Tail(rest))
  {
    if rest != "" {
      assert rest == "," + Tail(rest);
      PastChar(s, q, ',', Tail(rest));
    }
  }

  // u is a quoted text and the spaces after it.
  predicate QuotedBody(u: string, text: string, pad: nat) {
    var n := 1 + |text|;
    && |u| == n + 1 + pad && u[0] == '"' && u[1..n] == text && u[n] == '"' && (forall i | n < i < |u| :: u[i] == ' ')
    && '"' !in text
  }

  lemma BodyIsQuoted(text: string, pad: nat)
    requires '"' !in text
    ensures QuotedBody("\"" + (text + ("\"" + Blanks(pad))), text, pad)
  {}

  lemma Slice(s: string, b: nat, q: nat, u: string, n: nat)
    requires b <= q <= |s| && s[b..q] == u && 0 < n <= |u|
    ensures s[b + 1..b + n] == u[1..n] && forall i | 0 <= i < |u| :: s[b + i] == u[i]
  {
    assert forall i | 0 <= i < |u| :: s[b + i] == s[b..q][i];
  }

  lemma QuotedPlaces(s: string, p: nat, b: nat, e: nat, q: nat)
    requires p <= |s| && SkipSpaces(s, p) == b < |s| && s[b] == '"'
    requires Find(s, b + 1, '"') == e < |s| && SkipSpaces(s, e + 1) == q
    ensures HasField(s, p) && FieldText(s, p) == s[b + 1..e]
    ensures FieldNext(s, p) == if q < |s| && s[q] == ',' then q + 1 else q
  {}

  // Where a quoted field at p begins and ends, and where the spaces after it end.
  predicate QuotedAt(s: string, p: nat, b: nat, e: nat, q: nat) {
    && p <= |s| && SkipSpaces(s, p) == b < |s| && s[b] == '"'
    && Find(s, b + 1, '"') == e < |s| && SkipSpaces(s, e + 1) == q
  }

  lemma BodyPlaced(s: string, p: nat, lead: nat, u: string, rest: string)
    requires At(s, p, Blanks(lead) + (u + rest)) && u != "" && u[0] != ' '
    ensures var b, q := p + lead, p + lead + |u|;
      SkipSpaces(s, p) == b && q <= |s| && s[b..q] == u && At(s, q, rest)
  {
    assert (u + rest)[0] == u[0];
    PastBlanks(s, p, lead, u + rest);
    Past(s, p + lead, u, rest);
  }

  lemma QuotedSpots(s: string, p: nat, b: nat, u: string, text: string, pad: nat, rest: string)
    requires p <= |s| && SkipSpaces(s, p) == b && b + |u| <= |s| && s[b..b + |u|] == u && At(s, b + |u|, rest)
    requires QuotedBody(u, text, pad) && Rest(rest)
    ensures var e := b + 1 + |text|;
      QuotedAt(s, p, b, e, e + 1 + pad) && s[b + 1..e] == text
  {
    var e, q := b + 1 + |text|, b + |u|;
    Slice(s, b, q, u, 1 + |text|);
    assert s[b + 0] == u[0] && s[b + (1 + |text|)] == u[1 + |text|];
    forall i | e < i < q ensures s[i] == ' ' {
      assert s[b + (i - b)] == u[i - b];
    }
    QuoteFound(s, b, e, q, text, rest);
  }

  lemma QuoteFound(s: string, b: nat, e: nat, q: nat, text: string, rest: string)
    requires b < e < q && At(s, q, rest) && s[b + 1..e] == text && s[e] == '"' && '"' !in text && Rest(rest)
    requires forall i | e < i < q :: s[i] == ' '
    ensures Find(s, b + 1, '"') == e && SkipSpaces(s, e + 1) == q
  {
    FindIs(s, b + 1, '"', e);
    assert rest != "" ==> s[q] == s[q..][0];
    SkipIs(s, e + 1, q);
  }

  lemma SpotsRead(s: string, p: nat, b: nat, e: nat, q: nat, rest: string)
    requires QuotedAt(s, p, b, e, q) && At(s, q, rest) && Rest(rest)
    ensures ReadsAs(s, p, s[b + 1..e], rest)
  {
    QuotedPlaces(s, p, b, e, q);
    PastComma(s, q, rest);
  }

  lemma PlacedReads(s: string, p: nat, b: nat, u: string, text: string, pad: nat, rest: string)
    requires p <= |s| && SkipSpaces(s, p) == b && b + |u| <= |s| && s[b..b + |u|] == u && At(s, b + |u|, rest)
    requires QuotedBody(u, text, pad) && Rest(rest)
    ensures ReadsAs(s, p, text, rest)
  {
    var e := b + 1 + |text|;
    QuotedSpots(s, p, b, u, text, pad, rest);
    SpotsRead(s, p, b, e, e + 1 + pad, rest);
  }

  lemma QuotedReads(s: string, p: nat, lead: nat, u: string, text: string, pad: nat, rest: string)
    requires At(s, p, Blanks(lead) + (u + rest)) && QuotedBody(u, text, pad) && Rest(rest)
    ensures ReadsAs(s, p, text, rest)
  {
    BodyPlaced(s, p, lead, u, rest);
    PlacedReads(s, p, p + lead, u, text, pad, rest);
  }

  lemma BareFinds(s: string, b: nat, text: string, rest: string)
    requires At(s, b, text + rest) && ',' !in text && Rest(rest)
    ensures var e := b + |text|;
      && Find(s, b, ',') == e <= |s| && s[b..e] == text && SkipSpaces(s, e) == e && At(s, e, rest)
  {
    var e := b + |text|;
    Past(s, b, text, rest);
    assert rest != "" ==> s[e] == s[e..][0];
    FindIs(s, b, ',', e);
    SkipIs(s, e, e);
  }

  lemma BarePlaces(s: string, p: nat, b: nat, e: nat)
    requires p <= |s| && SkipSpaces(s, p) == b < |s| && s[b] != '"'
    requires Find(s, b, ',') == e && SkipSpaces(s, e) == e
    ensures HasField(s, p) && FieldText(s, p) == s[b..e]
    ensures FieldNext(s, p) == if e < |s| && s[e] == ',' then e + 1 else e
  {}

  lemma BareReads(s: string, p: nat, c: Cell, rest: string)
    requires c.Bare? && Writable(c) && Rest(rest) && (rest == "" ==> c.text != "")
    requires At(s, p, Blanks(c.lead) + (c.text + rest))
    ensures ReadsAs(s, p, c.text, rest)
  {
    BareBegins(s, p, c.lead, c.text + rest);
    BareReadsAt(s, p, p + c.lead, c.text, rest);
  }

  lemma BareReadsAt(s: string, p: nat, b: nat, text: string, rest: string)
    requires p <= |s| && SkipSpaces(s, p) == b < |s| && s[b] != '"' && At(s, b, text + rest)
    requires ',' !in text && Rest(rest)
    ensures ReadsAs(s, p, text, rest)
  {
    BareFinds(s, b, text, rest);
    BarePlaces(s, p, b, b + |text|);
    PastComma(s, b + |text|, rest);
  }

  lemma BareBegins(s: string, p: nat, lead: nat, body: string)
    requires At(s, p, Blanks(lead) + body) && body != "" && body[0] != ' ' && body[0] != '"'
    ensures var b := p + lead; SkipSpaces(s, p) == b < |s| && s[b] != '"' && At(s, b, body)
  {
    PastBlanks(s, p, lead, body);
    assert s[p + lead] == s[p + lead..][0];
  }

  lemma CellReads(s: string, p: nat, c: Cell, rest: string)
    requires Writable(c) && Rest(rest) && (rest == "" && c.Bare? ==> c.text != "")
    requires At(s, p, Blanks(c.lead) + (Body(c) + rest))
    ensures ReadsAs(s, p, c.text, rest)
  {
    if c.Quoted? {
      BodyIsQuoted(c.text, c.pad);
      QuotedReads(s, p, c.lead, Body(c), c.text, c.pad, rest);
    } else {
      BareReads(s, p, c, rest);
    }
  }

  // Every field can be written, and an empty bare one is not the last.
  predicate Legible(cells: seq<Cell>) {
    && (forall c | c in cells :: Writable(c))
    && (cells != [] && cells[|cells| - 1].Bare? ==> cells[|cells| - 1].text != "")
  }

  lemma FirstReads(s: string, p: nat, cells: seq<Cell>)
    requires cells != [] && At(s, p, Line(cells)) && Legible(cells)
    ensures HasField(s, p) && FieldText(s, p) == cells[0].text && At(s, FieldNext(s, p), Line(cells[1..]))
  {
    var rest := if |cells| == 1 then "" else "," + Line(cells[1..]);
    CellReads(s, p, cells[0], rest);
    assert Tail(rest) == Line(cells[1..]);
  }

  lemma {:induction false} LineReadsFrom(s: string, p: nat, cells: seq<Cell>)
    requires At(s, p, Line(cells)) && Legible(cells)
    ensures Fields(s, p) == Texts(cells)
    decreases |cells|
  {
    if cells != [] {
      FirstReads(s, p, cells);
      LineReadsFrom(s, FieldNext(s, p), cells[1..]);
    }
  }

  // A line of quoted and bare fields, with any spaces before a field and after a closing
  // quote, reads as the texts between the quotes and the commas.
  lemma LineReads(cells: seq<Cell>)
    requires Legible(cells)
    ensures Fields(Line(cells), 0) == Texts(cells)
  {
    assert Line(cells)[0..] == Line(cells);
    LineReadsFrom(Line(cells), 0, cells);
  }

  // An empty bare field at the very end is not read at all.
  lemma LastEmptyLost(cells: seq<Cell>, lead: nat)
    requires cells != [] && Legible(cells)
    ensures Fields(Line(cells + [Bare("", lead)]), 0) == Texts(cells)
  {
    var all := cells + [Bare("", lead)];
    assert Line(all)[0..] == Line(all);
    LostFrom(Line(all), 0, cells, lead);
  }

  lemma {:induction false} LostFrom(s: string, p: nat, cells: seq<Cell>, lead: nat)
    requires At(s, p, Line(cells + [Bare("", lead)])) && Legible(cells)
    ensures Fields(s, p) == Texts(cells)
    decreases |cells|
  {
    var all := cells + [Bare("", lead)];
    if cells == [] {
      assert Line(all) == Blanks(lead) + "";
      PastBlanks(s, p, lead, "");
    } else {
      assert all[0] == cells[0] && all[1..] == cells[1..] + [Bare("", lead)];
      CellReads(s, p, cells[0], "," + Line(all[1..]));
      LostFrom(s, FieldNext(s, p), cells[1..], lead);
    }
  }
}
