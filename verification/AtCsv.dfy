// Comma-separated fields of AT responses (include/services/modem_at_util.h): the
// field reader, the quoter, and reading back what was quoted.

module AtCsv {
  import opened CStrings

  // --- The reader ---

  predicate HasField(s: string, cursor: nat)
    requires cursor <= |s|
  {
    SkipSpaces(s, cursor) < |s|
  }

  predicate IsQuoted(s: string, cursor: nat)
    requires cursor <= |s| && HasField(s, cursor)
  {
    s[SkipSpaces(s, cursor)] == '"'
  }

  // Where the characters of the field are.
  function FieldStart(s: string, cursor: nat): (b: nat)
    requires cursor <= |s| && HasField(s, cursor)
    ensures b <= |s|
  {
    SkipSpaces(s, cursor) + if IsQuoted(s, cursor) then 1 else 0
  }

  function FieldEnd(s: string, cursor: nat): (e: nat)
    requires cursor <= |s| && HasField(s, cursor)
    ensures FieldStart(s, cursor) <= e <= |s|
  {
    Find(s, FieldStart(s, cursor), if IsQuoted(s, cursor) then '"' else ',')
  }

  function FieldText(s: string, cursor: nat): string
    requires cursor <= |s| && HasField(s, cursor)
  {
    s[FieldStart(s, cursor)..FieldEnd(s, cursor)]
  }

  // Past the field, its closing quote, spaces, and the comma when there is one.
  function FieldNext(s: string, cursor: nat): (next: nat)
    requires cursor <= |s| && HasField(s, cursor)
    ensures cursor < next <= |s|
  {
    var e := FieldEnd(s, cursor);
    var q := SkipSpaces(s, if IsQuoted(s, cursor) && e < |s| then e + 1 else e);
    if q < |s| && s[q] == ',' then q + 1 else q
  }

  // The copying loop, up to and past the character that ends the field.
  method CopyField(s: CString, first: nat, quoted: bool, out: array<char>) returns (p: nat)
    requires first <= |s| && out.Length > 0
    modifies out
    ensures var e := Find(s, first, if quoted then '"' else ',');
      && p == (if quoted && e < |s| then e + 1 else e)
      && Holds(out[..], Clip(s[first..e], out.Length))
  {
    var stop := if quoted then '"' else ',';
    ghost var e := Find(s, first, stop);
    p := first;
    var len := 0;
    var closed := false;
    while p < |s| && !closed
      invariant first <= p <= |s| && len < out.Length
      invariant if closed then quoted && p == e + 1 && e < |s| else p <= e && e == Find(s, p, stop)
      invariant var read := (if closed then e else p) - first;
        len == (if read < out.Length then read else out.Length - 1)
      invariant out[..len] == s[first..first + len]
      decreases |s| - p, !closed
    {
      if quoted {
        if s[p] == '"' {
          p := p + 1;
          closed := true;
          break;
        }
      } else if s[p] == ',' {
        break;
      }
      assert len + 1 < out.Length ==> s[first..first + len + 1] == s[first..first + len] + [s[p]];
      len := Keep(out, len, s[p]);
      p := p + 1;
    }
    out[len] := '\0';
    assert out[..][..len] == s[first..first + len];
    assert s[first..e][..len] == s[first..first + len];
    assert s[first..e][..|s[first..e]|] == s[first..e];
  }

  method NextField(s: CString, cursor: nat, out: array<char>) returns (ok: bool, next: nat)
    requires cursor <= |s|
    modifies out
    ensures ok <==> out.Length > 0 && HasField(s, cursor)
    ensures ok ==> Holds(out[..], Clip(FieldText(s, cursor), out.Length)) && next == FieldNext(s, cursor)
    ensures ok ==> cursor < next <= |s|
    ensures !ok ==> out[..] == old(out[..]) && next == if out.Length == 0 then cursor else |s|
  {
    if out.Length == 0 {
      return false, cursor;
    }
    var p := SkipLoop(s, cursor);
    if p == |s| {
      return false, p;
    }
    var quoted := false;
    if s[p] == '"' {
      quoted := true;
      p := p + 1;
    }
    assert p == FieldStart(s, cursor) && quoted == IsQuoted(s, cursor);
    p := CopyField(s, p, quoted, out);
    assert Holds(out[..], Clip(FieldText(s, cursor), out.Length));
    p := SkipLoop(s, p);
    if p < |s| && s[p] == ',' {
      p := p + 1;
    }
    return true, p;
  }

  // --- The quoter ---

  // Double quotes cannot be written inside a quoted field.
  function Soft(t: string): (r: string)
    ensures |r| == |t| && '"' !in r
    ensures forall i | 0 <= i < |t| :: r[i] == if t[i] == '"' then '\'' else t[i]
  {
    seq(|t|, i requires 0 <= i < |t| => if t[i] == '"' then '\'' else t[i])
  }

  // What fits of "src" in quotes in a buffer of cap characters.
  function QuotedText(src: string, cap: nat): (r: string)
    requires cap > 0
    ensures |r| < cap
  {
    if cap == 1 then ""
    else if cap == 2 then "\""
    else "\"" + Soft(if |src| <= cap - 3 then src else src[..cap - 3]) + "\""
  }

  method AppendQuoted(dst: array<char>, src: CString)
    modifies dst
    ensures dst.Length > 0 ==> Holds(dst[..], QuotedText(src, dst.Length))
  {
    if dst.Length == 0 {
      return;
    }
    var pos := 1;
    dst[0] := '"';
    var i := 0;
    ghost var soft := Soft(src);
    while i < |src| && pos + 2 < dst.Length
      invariant pos == i + 1 && i <= |src| && (i > 0 ==> pos + 2 <= dst.Length)
      invariant dst[..pos] == "\"" + soft[..i]
      invariant pos <= dst.Length
    {
      dst[pos] := if src[i] == '"' then '\'' else src[i];
      assert soft[..i + 1] == soft[..i] + [dst[pos]];
      assert dst[..pos + 1] == dst[..pos] + [dst[pos]];
      pos := pos + 1;
      i := i + 1;
    }
    if pos + 1 < dst.Length {
      dst[pos] := '"';
      assert dst[..pos + 1] == dst[..pos] + [dst[pos]];
      pos := pos + 1;
    }
    if pos >= dst.Length {
      pos := dst.Length - 1;
    }
    dst[pos] := '\0';
    QuotedIs(src, dst.Length, i);
    assert dst[..][..pos] == QuotedText(src, dst.Length);
  }

  lemma QuotedIs(src: CString, cap: nat, i: nat)
    requires cap > 0 && i == (if |src| + 3 <= cap then |src| else if cap >= 3 then cap - 3 else 0)
    ensures '\0' !in QuotedText(src, cap)
    ensures cap >= 3 ==> QuotedText(src, cap) == "\"" + Soft(src)[..i] + "\""
  {
    if cap >= 3 {
      var kept := if |src| <= cap - 3 then src else src[..cap - 3];
      assert Soft(kept) == Soft(src)[..i];
    }
  }

  // --- Reading back ---

  // All fields from the cursor on, as a caller that asks until it is refused gets them.
  function Fields(s: string, cursor: nat): seq<string>
    requires cursor <= |s|
    decreases |s| - cursor
  {
    if !HasField(s, cursor) then [] else [FieldText(s, cursor)] + Fields(s, FieldNext(s, cursor))
  }

  // Each field quoted in a buffer large enough for it, joined by commas.
  function Joined(fields: seq<string>): string
    decreases |fields|, 1
  {
    if fields == [] then "" else QuotedText(fields[0], |fields[0]| + 3) + Following(fields)
  }

  function Following(fields: seq<string>): string
    requires fields != []
    decreases |fields|, 0
  {
    if |fields| == 1 then "" else "," + Joined(fields[1..])
  }

  function SoftAll(fields: seq<string>): (r: seq<string>)
    ensures |r| == |fields| && forall i | 0 <= i < |r| :: r[i] == Soft(fields[i])
  {
    seq(|fields|, i requires 0 <= i < |fields| => Soft(fields[i]))
  }

  lemma QuotedParts(s: string, p: nat, t: string, rest: string)
    requires p <= |s| && s[p..] == "\"" + t + "\"" + rest
    ensures var e := p + 1 + |t|;
      && |s| == e + 1 + |rest| && s[p] == '"' && s[e] == '"' && s[p + 1..e] == t && s[e + 1..] == rest
      && (rest != "" ==> s[e + 1] == rest[0])
  {
    var e, u := p + 1 + |t|, s[p..];
    assert |s| == e + 1 + |rest|;
    assert s[p] == u[0] && s[e] == u[1 + |t|];
    assert u[1..1 + |t|] == t;
    assert s[p + 1..e] == u[1..1 + |t|];
    assert s[e + 1..] == u[2 + |t|..] == rest;
  }

  // A quoted field at p, followed by the end or by a comma.
  lemma QuotedFieldReads(s: string, p: nat, t: string, rest: string)
    requires p <= |s| && s[p..] == "\"" + t + "\"" + rest && '"' !in t
    requires rest == "" || rest[0] == ','
    ensures HasField(s, p) && FieldText(s, p) == t
    ensures s[FieldNext(s, p)..] == if rest == "" then "" else rest[1..]
  {
    var e := p + 1 + |t|;
    QuotedParts(s, p, t, rest);
    FindIs(s, p + 1, '"', e);
    assert FieldNext(s, p) == e + 1 + if rest == "" then 0 else 1;
  }

  lemma QuotedWhole(t: string)
    ensures QuotedText(t, |t| + 3) == "\"" + Soft(t) + "\""
  {}

  lemma OneField(s: string, p: nat, fields: seq<string>)
    requires p <= |s| && fields != [] && s[p..] == Joined(fields)
    ensures HasField(s, p) && FieldText(s, p) == Soft(fields[0])
    ensures s[FieldNext(s, p)..] == Joined(fields[1..])
  {
    QuotedWhole(fields[0]);
    QuotedFieldReads(s, p, Soft(fields[0]), Following(fields));
  }

  lemma SoftAllSplit(fields: seq<string>)
    requires fields != []
    ensures SoftAll(fields) == [Soft(fields[0])] + SoftAll(fields[1..])
  {}

  lemma {:induction false} FieldsOfJoined(s: string, p: nat, fields: seq<string>)
    requires p <= |s| && s[p..] == Joined(fields)
    ensures Fields(s, p) == SoftAll(fields)
    decreases |fields|
  {
    if fields != [] {
      OneField(s, p, fields);
      FieldsOfJoined(s, FieldNext(s, p), fields[1..]);
      SoftAllSplit(fields);
    }
  }

  // Any list of fields that was quoted and joined reads back, double quotes made
  // single, and then the reader reports the end.
  lemma CsvRoundTrip(fields: seq<string>)
    ensures Fields(Joined(fields), 0) == SoftAll(fields)
  {
    assert Joined(fields)[0..] == Joined(fields);
    FieldsOfJoined(Joined(fields), 0, fields);
  }

  // --- The same through buffers ---

  lemma {:induction false} JoinedIsCString(fields: seq<CString>)
    ensures '\0' !in Joined(fields)
  {
    if fields != [] {
      QuotedIs(fields[0], |fields[0]| + 3, |fields[0]|);
      if |fields| > 1 {
        JoinedIsCString(fields[1..]);
      }
    }
  }

  lemma Regroup(a: string, b: string, c: string)
    ensures a + ("," + (b + "," + c)) == (a + ("," + b)) + "," + c
    ensures a + ("," + (c + "")) == (a + "") + "," + c
  {}

  lemma JoinedMany(fields: seq<string>)
    requires |fields| > 1
    ensures Joined(fields) == QuotedText(fields[0], |fields[0]| + 3) + ("," + Joined(fields[1..]))
  {}

  lemma JoinedOne(f: string)
    ensures Joined([f]) == QuotedText(f, |f| + 3) + ""
  {}

  lemma {:induction false} JoinedAppend(fields: seq<string>, f: string)
    requires fields != []
    ensures Joined(fields + [f]) == Joined(fields) + "," + QuotedText(f, |f| + 3)
  {
    var first, last := QuotedText(fields[0], |fields[0]| + 3), QuotedText(f, |f| + 3);
    assert (fields + [f])[1..] == fields[1..] + [f];
    JoinedMany(fields + [f]);
    if |fields| == 1 {
      assert fields[1..] + [f] == [f] && fields == [fields[0]];
      JoinedOne(f);
      JoinedOne(fields[0]);
      Regroup(first, "", last);
    } else {
      JoinedMany(fields);
      JoinedAppend(fields[1..], f);
      Regroup(first, Joined(fields[1..]), last);
    }
  }

  lemma JoinedNext(fields: seq<string>, f: string)
    ensures Joined(fields + [f]) ==
      (if fields == [] then "" else Joined(fields) + ",") + QuotedText(f, |f| + 3)
  {
    if fields == [] {
      JoinedOne(f);
      assert fields + [f] == [f];
    } else {
      JoinedAppend(fields, f);
    }
  }

  method WriteField(f: CString) returns (quoted: string)
    ensures quoted == QuotedText(f, |f| + 3)
  {
    var buffer := new char[|f| + 3](_ => '\0');
    AppendQuoted(buffer, f);
    var n := StrLen(buffer, QuotedText(f, |f| + 3));
    quoted := buffer[..n];
    assert quoted == buffer[..][..n];
  }

  method AppendField(line: string, ghost done: seq<string>, f: CString, first: bool) returns (r: string)
    requires line == Joined(done) && (first <==> done == [])
    ensures r == Joined(done + [f])
  {
    JoinedNext(done, f);
    var quoted := WriteField(f);
    r := if first then quoted else line + "," + quoted;
  }

  // Writes each field with the quoter into a buffer of its own size.
  method WriteFields(fields: seq<CString>) returns (line: string)
    ensures line == Joined(fields)
  {
    line := "";
    var n := 0;
    while n < |fields|
      invariant n <= |fields| && line == Joined(fields[..n])
    {
      line := AppendField(line, fields[..n], fields[n], n == 0);
      n := n + 1;
      OneMoreTaken(fields, n);
    }
    OneMoreTaken(fields, n);
  }

  lemma OneMoreTaken(fields: seq<string>, n: nat)
    requires n <= |fields|
    ensures n > 0 ==> fields[..n - 1] + [fields[n - 1]] == fields[..n]
    ensures n == |fields| ==> fields[..n] == fields
  {}

  // The fields as buffers of cap characters keep them.
  function ClipAll(fields: seq<string>, cap: nat): (r: seq<string>)
    requires cap > 0
    ensures |r| == |fields| && forall i | 0 <= i < |r| :: r[i] == Clip(fields[i], cap)
  {
    seq(|fields|, i requires 0 <= i < |fields| => Clip(fields[i], cap))
  }

  // Asks the reader for fields until it says there are no more.
  method ReadFields(s: CString, cap: nat) returns (fields: seq<string>)
    requires cap > 0
    ensures fields == ClipAll(Fields(s, 0), cap)
  {
    fields := [];
    var cursor := 0;
    var buffer := new char[cap](_ => '\0');
    ghost var done: seq<string> := [];
    while true
      invariant cursor <= |s| && fields == ClipAll(done, cap) && Fields(s, 0) == done + Fields(s, cursor)
      decreases |s| - cursor
    {
      var ok, next := NextField(s, cursor, buffer);
      if !ok {
        assert done + [] == done;
        return;
      }
      var n := StrLen(buffer, Clip(FieldText(s, cursor), cap));
      assert buffer[..n] == buffer[..][..n] == Clip(FieldText(s, cursor), cap);
      fields := fields + [buffer[..n]];
      OneFieldMore(done, FieldText(s, cursor), Fields(s, next), cap);
      done := done + [FieldText(s, cursor)];
      cursor := next;
    }
  }

  lemma OneFieldMore(done: seq<string>, f: string, rest: seq<string>, cap: nat)
    requires cap > 0
    ensures done + ([f] + rest) == (done + [f]) + rest
    ensures ClipAll(done + [f], cap) == ClipAll(done, cap) + [Clip(f, cap)]
  {}

  // What the quoter wrote, the reader gives back from buffers that hold the longest
  // field: exactly those fields, and then nothing more.
  method WriteAndRead(fields: seq<CString>, cap: nat) returns (back: seq<string>)
    requires cap > 0 && forall f | f in fields :: |f| < cap
    ensures back == SoftAll(fields)
  {
    var line := WriteFields(fields);
    JoinedIsCString(fields);
    back := ReadFields(line, cap);
    CsvRoundTrip(fields);
    assert ClipAll(SoftAll(fields), cap) == SoftAll(fields);
  }
}
