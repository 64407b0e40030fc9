// NUL-terminated C strings: as texts, and in buffers.

module CStrings {
  // The characters before the terminator; reading past them finds it.
  type CString = s: string | '\0' !in s witness ""

  // a holds the n characters t and the terminator after them.
  predicate Holds(a: seq<char>, t: string) {
    |t| < |a| && a[..|t|] == t && a[|t|] == '\0' && '\0' !in t
  }

  lemma HoldsAt(a: seq<char>, t: string)
    requires Holds(a, t)
    ensures forall i | 0 <= i < |t| :: a[i] == t[i] && a[i] != '\0'
  {
    assert forall i | 0 <= i < |t| :: a[i] == a[..|t|][i];
  }

  method StrLen(a: array<char>, ghost t: string) returns (n: nat)
    requires Holds(a[..], t)
    ensures n == |t|
  {
    HoldsAt(a[..], t);
    n := 0;
    while a[n] != '\0'
      invariant n <= |t|
      decreases |t| - n
    {
      n := n + 1;
    }
  }

  method SkipLoop(s: CString, from: nat) returns (p: nat)
    requires from <= |s|
    ensures p == SkipSpaces(s, from)
  {
    p := from;
    while p < |s| && s[p] == ' '
      invariant from <= p <= |s| && SkipSpaces(s, from) == SkipSpaces(s, p)
    {
      p := p + 1;
    }
  }

  // Appends a character while there is room for it and the terminator.
  method Keep(out: array<char>, len: nat, c: char) returns (n: nat)
    requires len < out.Length
    modifies out
    ensures n == if len + 1 < out.Length then len + 1 else len
    ensures out[..n] == old(out[..len]) + if len + 1 < out.Length then [c] else []
  {
    n := len;
    if len + 1 < out.Length {
      out[len] := c;
      n := len + 1;
    }
  }

  method FillBuffer(a: array<char>, t: string)
    requires |t| < a.Length && '\0' !in t
    modifies a
    ensures Holds(a[..], t)
  {
    for i := 0 to |t|
      invariant a[..i] == t[..i]
    {
      a[i] := t[i];
      assert a[..i + 1] == t[..i + 1];
    }
    a[|t|] := '\0';
    assert a[..][..|t|] == t;
  }

  // The first index at or after p that holds c, or the end.
  function Find(s: string, p: nat, c: char): (e: nat)
    requires p <= |s|
    ensures p <= e <= |s| && c !in s[p..e] && (e < |s| ==> s[e] == c)
    decreases |s| - p
  {
    if p == |s| || s[p] == c then p else Find(s, p + 1, c)
  }

  // The first index at or after p that holds no space, or the end.
  function SkipSpaces(s: string, p: nat): (e: nat)
    requires p <= |s|
    ensures p <= e <= |s| && (forall i | p <= i < e :: s[i] == ' ') && (e < |s| ==> s[e] != ' ')
    decreases |s| - p
  {
    if p < |s| && s[p] == ' ' then SkipSpaces(s, p + 1) else p
  }

  lemma FindIs(s: string, p: nat, c: char, e: nat)
    requires p <= e <= |s| && c !in s[p..e] && (e < |s| ==> s[e] == c)
    ensures Find(s, p, c) == e
    decreases e - p
  {
    if p < e {
      assert s[p] == s[p..e][0] && s[p + 1..e] == s[p..e][1..];
      FindIs(s, p + 1, c, e);
    }
  }

  lemma SkipIs(s: string, p: nat, e: nat)
    requires p <= e <= |s| && (forall i | p <= i < e :: s[i] == ' ') && (e < |s| ==> s[e] != ' ')
    ensures SkipSpaces(s, p) == e
  {}

  // What copying into a buffer of cap characters keeps.
  function Clip(t: string, cap: nat): string
    requires cap > 0
  {
    if |t| < cap then t else t[..cap - 1]
  }
}
