// What the calculator's printed texts denote: the error of printing, the shape of
// the text, and reading back what was printed.

module CalculatorRoundTrip {
  import opened Decimals
  import opened CalculatorText
  import opened Calculator
  import opened CalculatorFormat

  // --- Reading a printed text ---

  // The digits of Fixed(m, p) without the point.
  function Unpointed(m: nat, p: nat): (s: string)
    ensures AllDigits(s)
  {
    if p == 0 then Digits(m) else Unpointed(m / 10, p - 1) + [DigitChar(m % 10)]
  }

  lemma {:induction false} UnpointedValue(m: nat, p: nat)
    ensures Value(Unpointed(m, p)) == m
  {
    if p == 0 {
      ValueDigits(m);
    } else {
      UnpointedValue(m / 10, p - 1);
      ValueAppend(Unpointed(m / 10, p - 1), DigitChar(m % 10));
    }
  }

  lemma {:induction false} FixedIsUnpointed(m: nat, p: nat)
    ensures var t, n := Fixed(m, p), |Digits(Cut(m, p))|;
      |t| == n + 1 + p && Unpointed(m, p) == t[..n] + t[n + 1..]
  {
    FixedShape(m, p);
    if p > 0 {
      FixedIsUnpointed(m / 10, p - 1);
      FixedShape(m / 10, p - 1);
      var t, u, n := Fixed(m, p), Fixed(m / 10, p - 1), |Digits(Cut(m, p))|;
      assert t[..n] == u[..n] && t[n + 1..] == u[n + 1..] + [DigitChar(m % 10)];
    } else {
      var t, d := Fixed(m, 0), Digits(m);
      assert t[..|d|] == d && t[|d| + 1..] == "";
    }
  }

  lemma PlainParts(m: nat, p: nat)
    ensures var t := Plain(m, p);
      && |FractionPart(t, 0)| == p
      && WholePart(t, 0) == Digits(Cut(m, p))
      && WholePart(t, 0) + FractionPart(t, 0) == Unpointed(m, p)
  {
    var t, n := Plain(m, p), |Digits(Cut(m, p))|;
    if p == 0 {
      assert t[0..|t|] == t;
      RunOf(t, 0, |t|);
    } else {
      FixedShape(m, p);
      FixedIsUnpointed(m, p);
      assert t[..n + 1][n] == '.' && t[0..n] == t[..n + 1][..n] == Digits(Cut(m, p));
      RunOf(t, 0, n);
      assert t[n + 1..|t|] == t[n + 1..];
      RunOf(t, n + 1, |t|);
    }
  }

  lemma PlainReads(m: nat, p: nat)
    ensures Magnitude(Plain(m, p), 0) == m as real / Pow10(p) as real
  {
    PlainParts(m, p);
    UnpointedValue(m, p);
  }

  lemma TenfoldRatio(m: nat, p: nat)
    requires p > 0 && m % 10 == 0
    ensures (m / 10) as real / Pow10(p - 1) as real == m as real / Pow10(p) as real
  {
    var a, q := (m / 10) as real, Pow10(p - 1) as real;
    assert m as real == 10.0 * a && Pow10(p) as real == 10.0 * q;
    var r := a / q;
    assert r * q == a;
    assert r * (10.0 * q) == 10.0 * a;
  }

  lemma {:induction false} CanonReads(m: nat, p: nat)
    ensures Magnitude(Canon(m, p), 0) == m as real / Pow10(p) as real
  {
    if p > 0 && m % 10 == 0 {
      CanonReads(m / 10, p - 1);
      TenfoldRatio(m, p);
    } else {
      PlainReads(m, p);
    }
  }

  // Trimming keeps the value.
  lemma TrimKeepsValue(m: nat, p: nat)
    ensures Magnitude(Trimmed(Fixed(m, p)), 0) == m as real / Pow10(p) as real
    ensures p > 0 ==> Magnitude(Trimmed(Fixed(m, p)), 0) == Magnitude(Fixed(m, p), 0)
  {
    TrimFixed(m, p);
    CanonReads(m, p);
    PlainReads(m, p);
  }

  lemma {:induction false} RunShift(t: string, i: nat)
    requires i <= |t|
    ensures RunEnd("-" + t, i + 1) == RunEnd(t, i) + 1
    decreases |t| - i
  {
    if i < |t| && IsDigit(t[i]) {
      RunShift(t, i + 1);
    }
  }

  lemma SignedReads(t: string)
    requires t != "" && t[0] != '-'
    ensures NumberValue(t) == Magnitude(t, 0)
    ensures NumberValue("-" + t) == -Magnitude(t, 0)
  {
    WholeShift(t);
    FractionShift(t);
  }

  lemma WholeShift(t: string)
    ensures WholePart("-" + t, 1) == WholePart(t, 0)
  {
    RunShift(t, 0);
    var i := RunEnd(t, 0);
    assert ("-" + t)[1..i + 1] == t[0..i];
  }

  lemma FractionShift(t: string)
    ensures FractionPart("-" + t, 1) == FractionPart(t, 0)
  {
    RunShift(t, 0);
    var i := RunEnd(t, 0);
    if i < |t| && t[i] == '.' {
      RunShift(t, i + 1);
      var j := RunEnd(t, i + 1);
      assert ("-" + t)[i + 2..j + 1] == t[i + 1..j];
    }
  }

  // --- The printed number ---

  // The number MagnitudeText(x) denotes.
  function Printed(x: real): real
    requires x >= 0.0
  {
    if Places(x) >= 0 then Units(x) as real / Pow10(Places(x)) as real else x.Floor as real
  }

  lemma {:induction false} CanonStart(m: nat, p: nat)
    ensures Canon(m, p) != "" && IsDigit(Canon(m, p)[0])
  {
    if p > 0 && m % 10 == 0 {
      CanonStart(m / 10, p - 1);
    } else if p > 0 {
      FixedShape(m, p);
      assert Fixed(m, p)[0] == Fixed(m, p)[..|Digits(Cut(m, p))| + 1][0] == Digits(Cut(m, p))[0];
    }
  }

  lemma TextReads(x: real)
    requires x >= 0.0
    ensures var t := MagnitudeText(x);
      && t != "" && IsDigit(t[0])
      && NumberValue(t) == Printed(x) && NumberValue("-" + t) == -Printed(x)
  {
    if Places(x) >= 0 {
      CanonReads(Units(x), Places(x));
      CanonStart(Units(x), Places(x));
    } else {
      PlainReads(x.Floor, 0);
      assert Pow10(0) as real == 1.0;
    }
    SignedReads(MagnitudeText(x));
  }

  lemma KeepsDecimals(x: real)
    requires x >= 0.0
    ensures Places(x) >= 0 <==> x < 100000000.0
  {
    assert Pow10(8) == 100000000;
    BelowPow10(x, 8);
  }

  // Half a unit of the last kept decimal below 10^8, truncation from there on.
  lemma PrintingError(x: real)
    requires 0.0 <= x <= RANGE_MAX
    ensures Places(x) >= 0 <==> x < 100000000.0
    ensures Places(x) >= 0 ==>
      -0.5 < Scaled(Printed(x), Places(x)) - Scaled(x, Places(x)) <= 0.5
    ensures Places(x) < 0 ==> 0.0 <= x - Printed(x) < 1.0
  {
    KeepsDecimals(x);
    if Places(x) >= 0 {
      ScaledRatio(Printed(x), Places(x), Units(x));
    }
  }

  lemma UnitRatio(u: nat, q: nat)
    requires q > 0
    ensures u as real / q as real * q as real == u as real
  {}

  // --- Printing what was printed ---

  lemma ScaleOrder(a: real, b: real, q: real)
    requires q > 0.0
    ensures a <= b ==> a * q <= b * q
    ensures a < b ==> a * q < b * q
  {
    assert b * q - a * q == (b - a) * q;
  }

  lemma NearestInteger(y: real, f: int)
    ensures f as real <= y ==> f <= (y + 0.5).Floor
    ensures y < f as real ==> (y + 0.5).Floor <= f
    ensures y == f as real ==> (y + 0.5).Floor == f
  {}

  lemma ProductAsReal(f: int, q: int)
    ensures (f * q) as real == f as real * q as real
  {}

  // y rounded half up, between what its integer part and its bound come to.
  lemma RoundedBetween(x: real, f: int, q: nat, y: real, top: int)
    requires q > 0 && f as real <= x && y == x * q as real && y < top as real
    ensures f * q <= (y + 0.5).Floor <= top
  {
    ProductAsReal(f, q);
    ScaleOrder(f as real, x, q as real);
    NearestInteger(y, f * q);
    NearestInteger(y, top);
  }

  // The integer part never gets shorter by rounding, and the units never exceed 10^8.
  lemma UnitsRange(x: real)
    requires 0.0 <= x <= RANGE_MAX && Places(x) >= 0
    ensures x.Floor * Pow10(Places(x)) <= Units(x) <= Pow10(8)
  {
    var p, n := Places(x), |Digits(x.Floor)|;
    ScaledByPow10(x, p);
    BelowPow10(x, n);
    ScaledBelow(x, n, p);
    assert n + p == 8;
    RoundedBetween(x, x.Floor, Pow10(p), Scaled(x, p), Pow10(8));
  }

  lemma QuotientIs(u: nat, q: nat, f: int)
    requires q > 0 && f * q <= u < f * q + q
    ensures u / q == f
  {
    var d := u / q;
    assert d * q <= u < d * q + q;
    OrderMultiples(d + 1, f, q);
    OrderMultiples(f + 1, d, q);
    NextMultiple(d, q);
    NextMultiple(f, q);
  }

  lemma OrderMultiples(a: int, b: int, q: nat)
    ensures a <= b ==> a * q <= b * q
  {
    if a <= b {
      assert (b - a) * q >= 0;
    }
  }

  lemma FloorOfRatio(u: nat, q: nat)
    requires q > 0
    ensures (u as real / q as real).Floor == u / q
  {
    var r := u as real / q as real;
    UnitRatio(u, q);
    FloorTimes(r, q, u, r.Floor);
    QuotientIs(u, q, r.Floor);
  }

  lemma FloorTimes(r: real, q: nat, u: int, f: int)
    requires q > 0 && f as real <= r < f as real + 1.0 && r * q as real == u as real
    ensures f * q <= u < f * q + q
  {
    OrderTimes(f, r, q);
    OrderTimes(f + 1, r, q);
    NextMultiple(f, q);
  }

  lemma NextMultiple(f: int, q: int)
    ensures (f + 1) * q == f * q + q
  {}

  lemma OrderTimes(f: int, r: real, q: nat)
    requires q > 0
    ensures f as real <= r ==> (f * q) as real <= r * q as real
    ensures r < f as real ==> r * q as real < (f * q) as real
  {
    ScaleOrder(f as real, r, q as real);
    ScaleOrder(r, f as real, q as real);
    ProductAsReal(f, q);
  }

  lemma AtLeastQuotient(u: nat, q: nat, f: nat)
    requires q > 0 && f * q <= u
    ensures f <= u / q
  {
    var d := u / q;
    assert u < d * q + q;
    OrderMultiples(d + 1, f, q);
    NextMultiple(d, q);
  }

  lemma QuotientReaches(u: nat, q: nat, f: nat)
    requires q > 0 && f <= u / q
    ensures f * q <= u
  {
    var d := u / q;
    assert d * q <= u;
    assert (d - f) * q >= 0;
  }

  lemma UnitsOfRatio(w: real, p: nat, u: nat)
    requires w >= 0.0 && Places(w) == p && w == u as real / Pow10(p) as real
    ensures Units(w) == u
  {
    ScaledRatio(w, p, u);
    NearestInteger(Scaled(w, p), u);
  }

  lemma ScaledRatio(w: real, p: nat, u: nat)
    requires w == u as real / Pow10(p) as real
    ensures Scaled(w, p) == u as real
  {
    ScaledByPow10(w, p);
    UnitRatio(u, Pow10(p));
  }

  // No carry into a new digit: the same decimals are kept again.
  lemma ReprintSameWidth(x: real, w: real)
    requires 0.0 <= x && Places(x) >= 0 && w == Printed(x) && w >= 0.0 && Places(w) == Places(x)
    ensures MagnitudeText(w) == MagnitudeText(x)
  {
    UnitsOfRatio(w, Places(x), Units(x));
  }

  // The carry made a new integer digit: what is printed is a power of ten.
  lemma WiderIsPowerOfTen(x: real, w: real)
    requires 0.0 <= x <= RANGE_MAX && Places(x) >= 0 && w == Printed(x) && w >= 0.0
    requires |Digits(w.Floor)| > |Digits(x.Floor)|
    ensures Units(x) == Pow10(8) && w == Pow10(|Digits(x.Floor)|) as real
  {
    var p, n, u := Places(x), |Digits(x.Floor)|, Units(x);
    FloorOfRatio(u, Pow10(p));
    UnitsRange(x);
    DigitsCount(w.Floor, n);
    QuotientReaches(u, Pow10(p), Pow10(n));
    Pow10Add(n, p);
    ExactRatio(Pow10(n), Pow10(p));
  }

  lemma ExactRatio(a: nat, q: nat)
    requires q > 0
    ensures (a * q) as real / q as real == a as real
  {
    ProductAsReal(a, q);
    var r := (a as real * q as real) / q as real;
    assert r * q as real == a as real * q as real;
  }

  lemma PowerOfTenDigits(n: nat)
    ensures |Digits(Pow10(n))| == n + 1
  {
    assert Pow10(n + 1) == 10 * Pow10(n);
    DigitsCount(Pow10(n), n + 1);
    DigitsCount(Pow10(n), n);
  }

  lemma PrintSmallPower(n: nat, w: real)
    requires 0 < n < 8 && w == Pow10(n) as real
    ensures MagnitudeText(w) == Canon(Pow10(7), 7 - n)
  {
    var p := 7 - n;
    PowerOfTenDigits(n);
    assert w.Floor == Pow10(n) && Places(w) == p;
    Pow10Add(n, p);
    ExactRatio(Pow10(n), Pow10(p));
    UnitsOfRatio(w, p, Pow10(7));
  }

  lemma PrintPowerOfTen(n: nat, w: real)
    requires 0 < n <= 8 && w == Pow10(n) as real
    ensures MagnitudeText(w) == Canon(Pow10(8), 8 - n)
  {
    if n == 8 {
      PowerOfTenDigits(8);
      assert w.Floor == Pow10(8) && Places(w) == -1;
    } else {
      PrintSmallPower(n, w);
      SevenAndOne();
      CanonScaled(Pow10(7), 7 - n, 1);
    }
  }

  lemma SevenAndOne()
    ensures Pow10(7) * Pow10(1) == Pow10(8)
  {
    Pow10Add(7, 1);
  }

  lemma ReprintMagnitude(x: real)
    requires 0.0 <= x <= RANGE_MAX
    ensures Printed(x) >= 0.0 && MagnitudeText(Printed(x)) == MagnitudeText(x)
  {
    var w := Printed(x);
    if Places(x) >= 0 {
      var q := Pow10(Places(x));
      UnitRatio(Units(x), q);
      FloorOfRatio(Units(x), q);
      UnitsRange(x);
      AtLeastQuotient(Units(x), q, x.Floor);
      DigitsMonotone(x.Floor, w.Floor);
      if |Digits(w.Floor)| == |Digits(x.Floor)| {
        ReprintSameWidth(x, w);
      } else {
        WiderIsPowerOfTen(x, w);
        PrintPowerOfTen(|Digits(x.Floor)|, w);
      }
    }
  }

  lemma ZeroText(x: real)
    requires x >= 0.0 && MagnitudeText(x) != "0"
    ensures x != 0.0
  {
    if x == 0.0 {
      TinyPrintsZero(x);
    }
  }

  // Reading a printed text and printing it again gives exactly that text.
  lemma FormatRoundTrip(v: real)
    requires Abs(v) <= RANGE_MAX
    ensures FormatText(NumberValue(FormatText(v))) == FormatText(v)
  {
    var x := Abs(v);
    TextReads(x);
    ReprintMagnitude(x);
    if MagnitudeText(x) != "0" {
      ZeroText(Printed(x));
    }
  }

  // --- The shape of a printed text ---

  lemma {:induction false} CanonIsReduced(m: nat, p: nat) returns (m': nat, p': nat)
    ensures p' <= p && Canon(m, p) == Plain(m', p') && (p' > 0 ==> m' % 10 != 0)
    ensures Cut(m, p) == Cut(m', p')
  {
    if p > 0 && m % 10 == 0 {
      m', p' := CanonIsReduced(m / 10, p - 1);
    } else {
      m', p' := m, p;
    }
  }

  // Digits with no leading zero, then at most a point and decimals not ending in 0.
  predicate Canonical(t: string) {
    && t != "" && IsNumeral(t)
    && (t[0] == '0' ==> |t| == 1 || t[1] == '.')
    && t[0] != '.' && t[|t| - 1] != '.'
    && ('.' in t ==> t[|t| - 1] != '0')
  }

  lemma {:induction false} NoLeadingZero(m: nat)
    ensures Digits(m)[0] == '0' ==> m == 0
  {
    if m >= 10 {
      NoLeadingZero(m / 10);
    }
  }

  lemma PlainCanonical(m: nat, p: nat)
    requires p > 0 ==> m % 10 != 0
    ensures Canonical(Plain(m, p))
  {
    var t, d := Plain(m, p), Digits(Cut(m, p));
    NoLeadingZero(Cut(m, p));
    NoDotInDigits(Digits(m));
    if p > 0 {
      FixedShape(m, p);
      assert t[..|d| + 1][0] == d[0] && t[..|d| + 1][|d|] == '.';
    }
  }

  // Every printed magnitude is canonical and has at most nine characters.
  lemma MagnitudeShape(x: real)
    requires 0.0 <= x <= RANGE_MAX
    ensures Canonical(MagnitudeText(x)) && |MagnitudeText(x)| <= DISPLAY_CHARS
  {
    if Places(x) < 0 {
      PlainCanonical(x.Floor, 0);
      assert Pow10(9) == 1000000000;
      BelowPow10(x, 9);
    } else {
      var u, p := Units(x), Places(x);
      var m', p' := CanonIsReduced(u, p);
      PlainCanonical(m', p');
      FixedShape(m', p');
      ReprintMagnitude(x);
      FloorOfRatio(u, Pow10(p));
      UnitsRange(x);
      if |Digits(Printed(x).Floor)| > |Digits(x.Floor)| {
        WiderIsPowerOfTen(x, Printed(x));
        PowerOfTenText(8, p);
      } else {
        CutQuotient(u, p);
      }
    }
  }

  lemma {:induction false} CutQuotient(m: nat, p: nat)
    ensures Cut(m, p) == m / Pow10(p)
  {
    if p > 0 {
      CutQuotient(m / 10, p - 1);
      TwoDivisions(m, Pow10(p - 1));
    }
  }

  lemma TwoDivisions(m: nat, q: nat)
    requires q > 0
    ensures m / 10 / q == m / (10 * q)
  {
    var d := m / 10 / q;
    assert d * q <= m / 10 < d * q + q;
    assert 10 * (d * q) <= m < 10 * (d * q) + 10 * q;
    assert 10 * (d * q) == d * (10 * q);
    QuotientIs(m, 10 * q, d);
  }

  lemma PowerOfTenText(n: nat, p: nat)
    requires p <= n
    ensures |Canon(Pow10(n), p)| == n + 1 - p
  {
    Pow10Add(n - p, p);
    CanonScaled(Pow10(n - p), 0, p);
    PowerOfTenDigits(n - p);
  }

  // A sign stands only before a number other than 0.
  lemma FormatShape(v: real)
    requires Abs(v) <= RANGE_MAX
    ensures var t := FormatText(v);
      && t != "-0"
      && (Canonical(t) || (v < 0.0 && |t| > 1 && t[0] == '-' && Canonical(t[1..])))
      && |t| <= DISPLAY_CHARS + if v < 0.0 then 1 else 0
  {
    MagnitudeShape(Abs(v));
    var t := MagnitudeText(Abs(v));
    assert ("-" + t)[1..] == t;
  }

  // --- The signed number ---

  // What reading the printed text of v gives.
  function ReadBack(v: real): real {
    NumberValue(FormatText(v))
  }

  lemma ZeroReads()
    ensures NumberValue("0") == 0.0
  {
    PlainReads(0, 0);
    SignedReads("0");
    assert Plain(0, 0) == "0" && Pow10(0) as real == 1.0;
  }

  lemma ReadBackIs(v: real)
    ensures ReadBack(v) == if v < 0.0 then -Printed(Abs(v)) else Printed(Abs(v))
  {
    TextReads(Abs(v));
    ZeroReads();
  }

  lemma {:induction false} ScaledNegative(x: real, k: nat)
    ensures Scaled(-x, k) == -Scaled(x, k)
  {
    if k > 0 {
      ScaledNegative(x, k - 1);
    }
  }

  // w is v rounded to its kept decimals, or cut when it has no room for any.
  predicate Close(v: real, w: real) {
    var p := Places(Abs(v));
    if p >= 0 then Abs(Scaled(w, p) - Scaled(v, p)) <= 0.5 else Abs(w) <= Abs(v) && Abs(w - v) < 1.0
  }

  // For every number in range: what is printed and read back is off by at most half a
  // unit of the last kept decimal below 10^8, and is the number cut to its integer part
  // from there on.
  lemma ReadBackError(v: real)
    requires Abs(v) <= RANGE_MAX
    ensures Places(Abs(v)) >= 0 <==> Abs(v) < 100000000.0
    ensures Close(v, ReadBack(v))
    ensures (v >= 0.0 ==> ReadBack(v) >= 0.0) && (v <= 0.0 ==> ReadBack(v) <= 0.0)
  {
    var x := Abs(v);
    PrintingError(x);
    ReadBackIs(v);
    ReprintMagnitude(x);
    if v < 0.0 {
      CloseNegative(x, Printed(x));
    } else if v == 0.0 {
      TinyPrintsZero(x);
      ZeroReads();
    }
  }

  lemma CloseNegative(x: real, w: real)
    requires x > 0.0 && Close(x, w)
    ensures Close(-x, -w)
  {
    if Places(x) >= 0 {
      ScaledNegative(w, Places(x));
      ScaledNegative(x, Places(x));
    }
  }

  // The printer and the reader together, over a buffer of at least eleven characters.
  method PrintAndRead(v: real, cap: nat) returns (ok: bool, text: string, back: real)
    requires cap >= DISPLAY_CHARS + 2
    ensures ok <==> Abs(v) <= RANGE_MAX
    ensures ok ==> text == FormatText(v) && back == ReadBack(v)
    ensures ok ==> Close(v, back) && FormatText(back) == text
  {
    back := 0.0;
    ok, text := FormatNumber(v, cap);
    if ok {
      FormatShape(v);
      back := CalculatorNumber(text);
      ReadBackError(v);
      FormatRoundTrip(v);
    }
  }
}
