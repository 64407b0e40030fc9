// The calculator's decimal numerals as texts: printing m / 10^p, cutting a text
// to nine characters with the carry run back through it, and trimming zeros.

module CalculatorText {
  import opened Decimals

  const DISPLAY_CHARS: nat := 9

  // m without its last j digits.
  function Cut(m: nat, j: nat): nat {
    if j == 0 then m else Cut(m / 10, j - 1)
  }

  // m / 10^p with all p decimals and the point always shown.
  function Fixed(m: nat, p: nat): string {
    if p == 0 then Digits(m) + "." else Fixed(m / 10, p - 1) + [DigitChar(m % 10)]
  }

  function Plain(m: nat, p: nat): string {
    if p == 0 then Digits(m) else Fixed(m, p)
  }

  // m / 10^p with no trailing decimal zero and no bare point.
  function Canon(m: nat, p: nat): string {
    if p > 0 && m % 10 == 0 then Canon(m / 10, p - 1) else Plain(m, p)
  }

  function Zeros(n: nat): (s: string)
    ensures |s| == n && AllDigits(s)
  {
    seq(n, _ => '0')
  }

  // --- What the two text functions do ---

  function StripZeros(t: string): (r: string)
    ensures r <= t
  {
    if t != "" && t[|t| - 1] == '0' then StripZeros(t[..|t| - 1]) else t
  }

  function Trimmed(t: string): string {
    if '.' !in t then t
    else
      var u := StripZeros(t);
      var w := if u != "" && u[|u| - 1] == '.' then u[..|u| - 1] else u;
      if w == "" then "0" else w
  }

  predicate IsNumeral(t: string) {
    forall i | 0 <= i < |t| :: IsDigit(t[i]) || t[i] == '.'
  }

  // The text after the carry loop has run from its end; left says the point was passed.
  function CarryUp(t: string, left: bool): string
    requires IsNumeral(t)
  {
    if t == "" then "1"
    else
      var init, c := t[..|t| - 1], t[|t| - 1];
      if c == '.' then CarryUp(init, true)
      else if c == '9' then (if left then CarryUp(init, true) + "0" else CarryUp(init, false))
      else init + [DigitChar(DigitValue(c) + 1)]
  }

  function Rounded(t: string): string
    requires IsNumeral(t)
  {
    var clip := if |t| > DISPLAY_CHARS then t[..DISPLAY_CHARS + 1] else t;
    if '.' !in clip || |clip| <= DISPLAY_CHARS then clip
    else if clip[DISPLAY_CHARS] < '5' then clip[..DISPLAY_CHARS]
    else CarryUp(clip[..DISPLAY_CHARS], false)
  }

  // --- Printing ---

  lemma {:induction false} CutCut(m: nat, i: nat, j: nat)
    ensures Cut(Cut(m, i), j) == Cut(m, i + j)
  {
    if i > 0 {
      CutCut(m / 10, i - 1, j);
    }
  }

  lemma TenTimes(m: nat, z: nat)
    ensures var x := m * Pow10(z);
      && m * Pow10(z + 1) == 10 * x && (10 * x) % 10 == 0 && (10 * x) / 10 == x && (10 * x + 5) / 10 == x
  {
    var x := m * Pow10(z);
    assert m * Pow10(z + 1) == m * (10 * Pow10(z)) == 10 * x;
    TenDivides(x);
  }

  lemma TenDivides(x: nat)
    ensures (10 * x) % 10 == 0 && (10 * x) / 10 == x && (10 * x + 5) / 10 == x
  {}

  lemma {:induction false} CutScaled(m: nat, z: nat, j: nat)
    requires j <= z
    ensures Cut(m * Pow10(z), j) == m * Pow10(z - j)
  {
    if j > 0 {
      TenTimes(m, z - 1);
      CutScaled(m, z - 1, j - 1);
    }
  }

  lemma {:induction false} FixedShape(m: nat, p: nat)
    ensures IsNumeral(Fixed(m, p))
    ensures var n := |Digits(Cut(m, p))|;
      && |Fixed(m, p)| == n + 1 + p
      && Fixed(m, p)[..n + 1] == Digits(Cut(m, p)) + "."
      && AllDigits(Fixed(m, p)[n + 1..])
  {
    if p > 0 {
      FixedShape(m / 10, p - 1);
    }
  }

  // Dropping characters from the end drops decimals.
  lemma {:induction false} FixedPrefix(m: nat, p: nat, j: nat)
    requires j <= p
    ensures |Fixed(m, p)| >= j && Fixed(m, p)[..|Fixed(m, p)| - j] == Fixed(Cut(m, j), p - j)
  {
    if j > 0 {
      FixedPrefix(m / 10, p - 1, j - 1);
      var t, u := Fixed(m, p), Fixed(m / 10, p - 1);
      assert t[..|t| - j] == u[..|u| - (j - 1)];
    } else {
      assert Fixed(m, p)[..|Fixed(m, p)|] == Fixed(m, p);
    }
  }

  // How the code builds the text: the digits split at the point, zero-padded.
  function Pointed(d: string, p: nat): string {
    if |d| <= p then "0." + Zeros(p - |d|) + d else d[..|d| - p] + "." + d[|d| - p..]
  }

  // One more digit lengthens the assembled text at its end.
  lemma PointedStep(m: nat, p: nat)
    requires p > 0
    ensures Pointed(Digits(m), p) == Pointed(Digits(m / 10), p - 1) + [DigitChar(m % 10)]
  {
    if m < 10 {
      PointedOne(p, [DigitChar(m)]);
    } else {
      PointAppended(Digits(m / 10), [DigitChar(m % 10)], p);
    }
  }

  // The point of u + last, seen from the end, sits where that of u did.
  lemma PointAppended(u: string, last: string, p: nat)
    requires p > 0 && |last| == 1
    ensures Pointed(u + last, p) == Pointed(u, p - 1) + last
  {
    var d := u + last;
    if |d| > p {
      assert d[..|d| - p] == u[..|u| - (p - 1)];
      assert d[|d| - p..] == u[|u| - (p - 1)..] + last;
    }
  }

  lemma PointedOne(p: nat, last: string)
    requires p > 0 && |last| == 1
    ensures Pointed(last, p) == Pointed("0", p - 1) + last
  {
    if p == 1 {
      assert Zeros(0) == "";
      assert "0"[..1] == "0" && "0"[1..] == "";
    } else {
      assert Zeros(p - 2) + "0" == Zeros(p - 1);
    }
  }

  lemma {:induction false} FixedAssembled(m: nat, p: nat)
    ensures Fixed(m, p) == Pointed(Digits(m), p)
  {
    if p > 0 {
      FixedAssembled(m / 10, p - 1);
      PointedStep(m, p);
    } else {
      var d := Digits(m);
      assert d[..|d|] == d && d[|d|..] == "";
    }
  }

  // --- Trimming ---

  lemma DotInFixed(m: nat, p: nat)
    ensures '.' in Fixed(m, p)
  {
    FixedShape(m, p);
    var n := |Digits(Cut(m, p))|;
    assert Fixed(m, p)[..n + 1][n] == '.';
  }

  lemma NoDotInDigits(s: string)
    requires AllDigits(s)
    ensures '.' !in s && IsNumeral(s)
  {}

  lemma StripAppend(t: string, c: char)
    ensures StripZeros(t + [c]) == if c == '0' then StripZeros(t) else t + [c]
  {
    assert (t + [c])[..|t|] == t;
  }

  lemma TrimAppend(t: string, c: char)
    requires '.' in t && IsDigit(c)
    ensures Trimmed(t + [c]) == if c == '0' then Trimmed(t) else t + [c]
  {
    StripAppend(t, c);
  }

  lemma TrimPoint(d: string)
    requires AllDigits(d) && d != ""
    ensures Trimmed(d + ".") == d
  {
    StripAppend(d, '.');
    assert (d + ".")[|d|] == '.';
    assert (d + ".")[..|d|] == d;
  }

  lemma {:induction false} TrimFixed(m: nat, p: nat)
    ensures Trimmed(Fixed(m, p)) == Canon(m, p)
  {
    if p == 0 {
      TrimPoint(Digits(m));
    } else {
      DotInFixed(m / 10, p - 1);
      TrimAppend(Fixed(m / 10, p - 1), DigitChar(m % 10));
      TrimFixed(m / 10, p - 1);
    }
  }

  lemma TrimPlain(m: nat, p: nat)
    ensures IsNumeral(Plain(m, p)) && Trimmed(Plain(m, p)) == Canon(m, p)
  {
    TrimFixed(m, p);
    FixedShape(m, p);
    NoDotInDigits(Digits(m));
  }

  // --- Rounding ---

  lemma CarryAppend(t: string, c: char, left: bool)
    requires IsNumeral(t) && (IsDigit(c) || c == '.')
    ensures IsNumeral(t + [c])
    ensures CarryUp(t + [c], left) ==
      if c == '.' then CarryUp(t, true)
      else if c == '9' then (if left then CarryUp(t, true) + "0" else CarryUp(t, false))
      else t + [DigitChar(DigitValue(c) + 1)]
  {
    assert (t + [c])[..|t|] == t;
  }

  lemma CarryOneDigit(a: nat)
    requires a < 10
    ensures IsNumeral(Digits(a)) && CarryUp(Digits(a), true) == Digits(a + 1)
  {
    CarryAppend("", DigitChar(a), true);
    assert "" + [DigitChar(a)] == Digits(a);
    assert a == 9 ==> Digits(10) == Digits(1) + [DigitChar(0)] && CarryUp("", true) == "1";
  }

  lemma {:induction false} CarryDigits(a: nat)
    ensures IsNumeral(Digits(a)) && CarryUp(Digits(a), true) == Digits(a + 1)
  {
    if a >= 10 {
      CarryDigits(a / 10);
      CarryAppend(Digits(a / 10), DigitChar(a % 10), true);
      NextDigit(a);
    } else {
      CarryOneDigit(a);
    }
  }

  lemma NextDigit(a: nat)
    ensures a % 10 == 9 ==> (a + 1) % 10 == 0 && (a + 1) / 10 == a / 10 + 1
    ensures a % 10 != 9 ==> (a + 1) % 10 == a % 10 + 1 && (a + 1) / 10 == a / 10
  {}

  lemma CarryPoint(a: nat)
    ensures IsNumeral(Fixed(a, 0)) && Trimmed(CarryUp(Fixed(a, 0), false)) == Canon(a + 1, 0)
  {
    CarryDigits(a);
    CarryAppend(Digits(a), '.', false);
    NoDotInDigits(Digits(a + 1));
  }

  lemma CarryStep(a: nat, p: nat)
    requires p > 0 && IsNumeral(Fixed(a / 10, p - 1))
    ensures IsNumeral(Fixed(a, p))
    ensures CarryUp(Fixed(a, p), false) ==
      if a % 10 == 9 then CarryUp(Fixed(a / 10, p - 1), false) else Fixed(a + 1, p)
  {
    CarryAppend(Fixed(a / 10, p - 1), DigitChar(a % 10), false);
    NextDigit(a);
  }

  lemma {:induction false} CarryFixed(a: nat, p: nat)
    ensures IsNumeral(Fixed(a, p)) && Trimmed(CarryUp(Fixed(a, p), false)) == Canon(a + 1, p)
  {
    if p == 0 {
      CarryPoint(a);
    } else {
      CarryFixed(a / 10, p - 1);
      CarryInto(a, p);
    }
  }

  lemma CarryInto(a: nat, p: nat)
    requires p > 0 && IsNumeral(Fixed(a / 10, p - 1))
    requires Trimmed(CarryUp(Fixed(a / 10, p - 1), false)) == Canon(a / 10 + 1, p - 1)
    ensures IsNumeral(Fixed(a, p)) && Trimmed(CarryUp(Fixed(a, p), false)) == Canon(a + 1, p)
  {
    CarryStep(a, p);
    if a % 10 == 9 {
      CanonNext(a, p);
    } else {
      TrimFixed(a + 1, p);
    }
  }

  lemma CanonNext(a: nat, p: nat)
    requires p > 0 && a % 10 == 9
    ensures Canon(a + 1, p) == Canon(a / 10 + 1, p - 1)
  {
    NextDigit(a);
  }

  // Ten characters whose tenth is a digit: nine of them, rounded half up.
  lemma RoundTen(b: nat, places: nat)
    requires |Fixed(b, places + 1)| == DISPLAY_CHARS + 1
    ensures IsNumeral(Fixed(b, places + 1))
    ensures Trimmed(Rounded(Fixed(b, places + 1))) == Canon((b + 5) / 10, places)
  {
    TenthDigit(b / 10, b % 10, places);
    HalfUp(b);
  }

  lemma TenthDigit(a: nat, d: nat, places: nat)
    requires d < 10 && |Fixed(a, places)| == DISPLAY_CHARS
    ensures IsNumeral(Fixed(a, places) + [DigitChar(d)])
    ensures Trimmed(Rounded(Fixed(a, places) + [DigitChar(d)])) == Canon(if d < 5 then a else a + 1, places)
  {
    FixedShape(a, places);
    DotInFixed(a, places);
    RoundedTen(Fixed(a, places), DigitChar(d));
    KeptOrCarried(a, places, d < 5);
  }

  lemma KeptOrCarried(a: nat, places: nat, kept: bool)
    ensures IsNumeral(Fixed(a, places))
    ensures Trimmed(if kept then Fixed(a, places) else CarryUp(Fixed(a, places), false)) ==
            Canon(if kept then a else a + 1, places)
  {
    CarryFixed(a, places);
    TrimFixed(a, places);
  }

  lemma HalfUp(b: nat)
    ensures (b + 5) / 10 == if b % 10 < 5 then b / 10 else b / 10 + 1
  {}

  lemma RoundedTen(kept: string, c: char)
    requires |kept| == DISPLAY_CHARS && IsNumeral(kept) && IsDigit(c) && '.' in kept + [c]
    ensures IsNumeral(kept + [c])
    ensures Rounded(kept + [c]) == if c < '5' then kept else CarryUp(kept, false)
  {
    var t := kept + [c];
    assert t[..DISPLAY_CHARS + 1] == t && t[..DISPLAY_CHARS] == kept;
  }

  lemma RoundedClip(t: string)
    requires IsNumeral(t) && |t| > DISPLAY_CHARS
    ensures IsNumeral(t[..DISPLAY_CHARS + 1]) && Rounded(t) == Rounded(t[..DISPLAY_CHARS + 1])
  {
    var clip := t[..DISPLAY_CHARS + 1];
    assert clip[..DISPLAY_CHARS + 1] == clip;
  }

  // A text too long for the display, with its point in the first nine characters.
  lemma RoundLong(m: nat, p: nat, places: nat)
    requires |Digits(Cut(m, p))| + places == DISPLAY_CHARS - 1 && p > places
    ensures IsNumeral(Fixed(m, p))
    ensures Trimmed(Rounded(Fixed(m, p))) == Canon((Cut(m, p - places - 1) + 5) / 10, places)
  {
    FixedShape(m, p);
    FixedPrefix(m, p, p - places - 1);
    RoundedClip(Fixed(m, p));
    RoundTen(Cut(m, p - places - 1), places);
  }

  // Nine integer digits leave no room for the point, which ends the text.
  lemma RoundNineDigits(m: nat, p: nat)
    requires |Digits(Cut(m, p))| == DISPLAY_CHARS
    ensures IsNumeral(Plain(m, p))
    ensures Trimmed(Rounded(Plain(m, p))) == Digits(Cut(m, p))
  {
    var i := Digits(Cut(m, p));
    NoDotInDigits(i);
    FixedShape(m, p);
    if p > 0 {
      var clip := Fixed(m, p)[..DISPLAY_CHARS + 1];
      assert clip == i + ".";
      assert clip[..DISPLAY_CHARS] == i;
    } else {
      NoDotInDigits(Digits(m));
    }
  }

  lemma RoundShort(m: nat, p: nat)
    requires |Plain(m, p)| <= DISPLAY_CHARS
    ensures IsNumeral(Plain(m, p)) && Trimmed(Rounded(Plain(m, p))) == Canon(m, p)
  {
    TrimPlain(m, p);
  }

  // Zeros at the end of m do not change the numeral.
  lemma {:induction false} CanonScaled(m: nat, p: nat, z: nat)
    ensures Canon(m * Pow10(z), p + z) == Canon(m, p)
  {
    if z > 0 {
      TenTimes(m, z - 1);
      CanonScaled(m, p, z - 1);
    }
  }

  // Fewer decimals than the display has room for: nothing to round.
  lemma RoundRoomy(m: nat, k: nat, m': nat, p': nat, places: nat)
    requires p' <= places < k && m == m' * Pow10(k - p')
    requires |Digits(Cut(m', p'))| + places == DISPLAY_CHARS - 1
    ensures IsNumeral(Plain(m', p'))
    ensures Trimmed(Rounded(Plain(m', p'))) == Canon((Cut(m, k - places - 1) + 5) / 10, places)
  {
    FixedShape(m', p');
    RoundShort(m', p');
    RoomyUnits(m, k, m', p', places);
  }

  lemma RoomyUnits(m: nat, k: nat, m': nat, p': nat, places: nat)
    requires p' <= places < k && m == m' * Pow10(k - p')
    ensures Canon((Cut(m, k - places - 1) + 5) / 10, places) == Canon(m', p')
  {
    CutScaled(m', k - p', k - places - 1);
    TenTimes(m', places - p');
    CanonScaled(m', p', places - p');
  }

  // m' / 10^p' is m / 10^k with zeros dropped.
  lemma CutStripped(m: nat, k: nat, m': nat, p': nat, j: nat)
    requires p' <= k && m == m' * Pow10(k - p') && j <= p'
    ensures Cut(m, k - p' + j) == Cut(m', j)
  {
    CutCut(m, k - p', j);
    CutScaled(m', k - p', k - p');
    assert m' * Pow10(0) == m';
  }

  // The whole text pipeline on m' / 10^p', which is m / 10^k with zeros dropped:
  // the eight digits around the point are kept and the next one rounds half up.
  lemma PipelineText(m: nat, k: nat, m': nat, p': nat)
    requires p' <= k && m == m' * Pow10(k - p')
    requires var n := |Digits(Cut(m, k))|; n <= DISPLAY_CHARS && (n < DISPLAY_CHARS ==> k > DISPLAY_CHARS - 1 - n)
    ensures IsNumeral(Plain(m', p'))
    ensures var n := |Digits(Cut(m, k))|;
      Trimmed(Rounded(Plain(m', p'))) ==
        if n == DISPLAY_CHARS then Digits(Cut(m, k))
        else Canon((Cut(m, k - (DISPLAY_CHARS - 1 - n) - 1) + 5) / 10, DISPLAY_CHARS - 1 - n)
  {
    var n := |Digits(Cut(m, k))|;
    CutStripped(m, k, m', p', p');
    if n == DISPLAY_CHARS {
      RoundNineDigits(m', p');
    } else {
      PipelineRoom(m, k, m', p', DISPLAY_CHARS - 1 - n);
    }
  }

  lemma PipelineRoom(m: nat, k: nat, m': nat, p': nat, places: nat)
    requires p' <= k && m == m' * Pow10(k - p') && places < k
    requires |Digits(Cut(m', p'))| + places == DISPLAY_CHARS - 1
    ensures IsNumeral(Plain(m', p'))
    ensures Trimmed(Rounded(Plain(m', p'))) == Canon((Cut(m, k - places - 1) + 5) / 10, places)
  {
    if p' > places {
      CutStripped(m, k, m', p', p' - places - 1);
      RoundLong(m', p', places);
    } else {
      RoundRoomy(m, k, m', p', places);
    }
  }
}
