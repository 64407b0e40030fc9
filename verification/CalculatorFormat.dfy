// calculator_format_number (src/apps/calculator_app.c): what it prints, how far
// that is from the number, and that printed texts read back and print the same.

module CalculatorFormat {
  import opened Decimals
  import opened CalculatorText
  import opened Calculator
  import opened CStrings

  function Abs(v: real): real {
    if v < 0.0 then -v else v
  }

  // x * 10^k, one factor at a time.
  function Scaled(x: real, k: nat): (r: real)
    ensures x >= 0.0 ==> r >= 0.0
  {
    if k == 0 then x else Scaled(x, k - 1) * 10.0
  }

  lemma {:induction false} ScaledByPow10(x: real, k: nat)
    ensures Scaled(x, k) == x * Pow10(k) as real
  {
    if k > 0 {
      ScaledByPow10(x, k - 1);
      assert Pow10(k) as real == 10.0 * Pow10(k - 1) as real;
    }
  }

  // Decimals kept: eight digits in all around the point.
  function Places(x: real): int
    requires x >= 0.0
  {
    DISPLAY_CHARS - 1 - |Digits(x.Floor)|
  }

  // x rounded half up to the last kept decimal, as a whole number of such units.
  function Units(x: real): nat
    requires x >= 0.0 && Places(x) >= 0
  {
    (Scaled(x, Places(x)) + 0.5).Floor
  }

  function MagnitudeText(x: real): string
    requires x >= 0.0
  {
    if Places(x) >= 0 then Canon(Units(x), Places(x)) else Digits(x.Floor)
  }

  // The text for v, before it is copied out.
  function FormatText(v: real): string {
    var t := MagnitudeText(Abs(v));
    if v < 0.0 && t != "0" then "-" + t else t
  }

  // --- The scaling loop ---

  lemma FloorTenth(y: real)
    requires y >= 0.0
    ensures (y * 10.0).Floor / 10 == y.Floor
    ensures ((y * 10.0).Floor + 5) / 10 == (y + 0.5).Floor
  {
    var f := y.Floor;
    assert f as real <= y < f as real + 1.0;
    var g := (y * 10.0).Floor;
    assert g as real <= y * 10.0 < g as real + 1.0;
    assert 10 * f <= g < 10 * f + 10;
    var h := (y + 0.5).Floor;
    assert h as real <= y + 0.5 < h as real + 1.0;
    assert 10 * h <= g + 5 < 10 * h + 10;
  }

  // Cutting digits off the scaled integer undoes scaling steps.
  lemma {:induction false} CutFloor(x: real, k: nat, j: nat)
    requires x >= 0.0 && j <= k
    ensures Cut(Scaled(x, k).Floor, j) == Scaled(x, k - j).Floor
  {
    if j > 0 {
      FloorTenth(Scaled(x, k - 1));
      CutFloor(x, k - 1, j - 1);
    }
  }

  lemma BelowPow10(x: real, n: nat)
    requires x >= 0.0 && n > 0
    ensures |Digits(x.Floor)| <= n <==> x < Pow10(n) as real
  {
    DigitsCount(x.Floor, n);
    if x.Floor < Pow10(n) {
      assert x < x.Floor as real + 1.0 <= Pow10(n) as real;
    }
  }

  lemma {:induction false} ScaledBelow(x: real, n: nat, k: nat)
    requires 0.0 <= x < Pow10(n) as real
    ensures Scaled(x, k) < Pow10(n + k) as real
  {
    if k > 0 {
      ScaledBelow(x, n, k - 1);
      assert Pow10(n + k) == 10 * Pow10(n + k - 1);
    }
  }

  // Where the loop stops, there are more decimals than the display keeps.
  lemma ScaleReaches(x: real, k: nat)
    requires 0.0 < x <= RANGE_MAX && k <= GUARD
    requires Scaled(x, k) >= SCALE_THRESHOLD || k == GUARD
    ensures Places(x) >= -1 && (Places(x) >= 0 ==> k > Places(x))
  {
    var n := |Digits(x.Floor)|;
    assert Pow10(9) == 1000000000 && Pow10(8) == 100000000;
    BelowPow10(x, 9);
    if n <= 8 && k <= 8 - n {
      BelowPow10(x, n);
      ScaledBelow(x, n, k);
      Pow10Monotone(n + k, 8);
    }
  }

  method ScaleUp(x: real) returns (magnitude: real, k: nat)
    requires x > 0.0
    ensures k <= GUARD && magnitude == Scaled(x, k)
    ensures magnitude >= SCALE_THRESHOLD || k == GUARD
  {
    magnitude, k := x, 0;
    var guard := GUARD;
    while magnitude < SCALE_THRESHOLD && guard > 0
      invariant k + guard == GUARD && magnitude == Scaled(x, k)
      decreases guard
    {
      magnitude := magnitude * 10.0;
      k := k + 1;
      guard := guard - 1;
    }
  }

  method StripIntegerZeros(m: nat, k: nat) returns (integer: nat, places: nat)
    requires m > 0
    ensures places <= k && m == integer * Pow10(k - places)
  {
    integer, places := m, k;
    assert m * Pow10(0) == m;
    while places > 0 && integer % 10 == 0
      invariant places <= k && integer > 0 && m == integer * Pow10(k - places)
    {
      var next := integer / 10;
      assert integer == 10 * next;
      TenTimes(next, k - places);
      integer := next;
      places := places - 1;
    }
  }

  // The raw text: the digits with the point put in, or "0." and zeros before them.
  method AssembleRaw(integer: nat, places: nat) returns (raw: string)
    ensures raw == Plain(integer, places)
  {
    var digits := Digits(integer);
    if places == 0 {
      return digits;
    }
    FixedAssembled(integer, places);
    var split := |digits| - places;
    if split <= 0 {
      raw := "0.";
      for i := 0 to -split
        invariant raw == "0." + Zeros(i)
      {
        assert Zeros(i) + "0" == Zeros(i + 1);
        raw := raw + "0";
      }
      raw := raw + digits;
    } else {
      raw := digits[..split] + "." + digits[split..];
    }
  }

  lemma PlainOnePoint(m: nat, p: nat)
    ensures OnePoint(Plain(m, p)) && '\0' !in Plain(m, p)
  {
    NoDotInDigits(Digits(m));
    FixedShape(m, p);
    var t, n := Fixed(m, p), |Digits(Cut(m, p))|;
    if p > 0 {
      forall i | 0 <= i < |t| && i != n ensures t[i] != '.' {
        if i < n {
          assert t[i] == t[..n + 1][i] == Digits(Cut(m, p))[i];
        } else {
          assert t[i] == t[n + 1..][i - n - 1];
        }
      }
    }
  }

  lemma {:induction false} NumeralsHaveNoNul(t: string, left: bool)
    requires IsNumeral(t)
    ensures '\0' !in CarryUp(t, left)
  {
    if t != "" {
      var init := t[..|t| - 1];
      NumeralsHaveNoNul(init, true);
      NumeralsHaveNoNul(init, false);
    }
  }

  lemma {:induction false} CarryLength(t: string, left: bool)
    requires IsNumeral(t)
    ensures |CarryUp(t, left)| <= |t| + 1
  {
    if t != "" {
      CarryLength(t[..|t| - 1], true);
      CarryLength(t[..|t| - 1], false);
    }
  }

  lemma RoundedFits(t: string)
    requires IsNumeral(t)
    ensures '\0' !in Rounded(t) && |Rounded(t)| <= DISPLAY_CHARS + 1
  {
    if |t| > DISPLAY_CHARS {
      NumeralsHaveNoNul(t[..DISPLAY_CHARS + 1][..DISPLAY_CHARS], false);
      CarryLength(t[..DISPLAY_CHARS + 1][..DISPLAY_CHARS], false);
    }
  }

  // The ninth digit and the one after it, as halves of a unit.
  lemma RoundedUnits(x: real, k: nat)
    requires x >= 0.0 && 0 <= Places(x) < k
    ensures (Cut(Scaled(x, k).Floor, k - Places(x) - 1) + 5) / 10 == Units(x)
  {
    CutFloor(x, k, k - Places(x) - 1);
    FloorTenth(Scaled(x, Places(x)));
  }

  // The printed magnitude of x, from the scaled integer on.
  lemma MagnitudePrinted(x: real, k: nat, integer: nat, places: nat)
    requires 0.0 < x <= RANGE_MAX && k <= GUARD
    requires Scaled(x, k) >= SCALE_THRESHOLD || k == GUARD
    requires places <= k && Scaled(x, k).Floor == integer * Pow10(k - places)
    ensures OnePoint(Plain(integer, places))
    ensures Trimmed(Rounded(Plain(integer, places))) == MagnitudeText(x)
  {
    ScaleReaches(x, k);
    CutFloor(x, k, k);
    PlainOnePoint(integer, places);
    PipelineText(Scaled(x, k).Floor, k, integer, places);
    if Places(x) >= 0 {
      RoundedUnits(x, k);
    }
  }

  lemma {:induction false} CanonZero(p: nat)
    ensures Canon(0, p) == "0"
  {
    if p > 0 { CanonZero(p - 1); }
  }

  // Too small for any kept decimal.
  lemma TinyPrintsZero(x: real)
    requires 0.0 <= x && Scaled(x, GUARD) < 1.0
    ensures MagnitudeText(x) == "0"
  {
    ScaledByPow10(x, 9);
    ScaledByPow10(x, 7);
    assert Pow10(9) == 1000000000 && Pow10(7) == 10000000;
    assert x.Floor == 0 && Places(x) == 7;
    assert Units(x) == 0;
    CanonZero(7);
  }

  method FormatNumber(value: real, cap: nat) returns (ok: bool, dst: string)
    ensures ok <==> cap > 0 && Abs(value) <= RANGE_MAX
    ensures ok ==> dst == Clip(FormatText(value), cap)
  {
    dst := "";
    if cap == 0 {
      return false, dst;
    }
    var negative := value < 0.0;
    var x := if negative then -value else value;
    if x > RANGE_MAX {
      return false, dst;
    }
    ok := true;
    if x == 0.0 {
      TinyPrintsZero(x);
      return true, Clip("0", cap);
    }
    var magnitude, k := ScaleUp(x);
    var m := magnitude.Floor;
    if m == 0 {
      TinyPrintsZero(x);
      return true, Clip("0", cap);
    }
    var integer, places := StripIntegerZeros(m, k);
    var raw := AssembleRaw(integer, places);
    MagnitudePrinted(x, k, integer, places);
    var rounded := RoundDisplayText(raw);
    RoundedFits(raw);
    var buffer := new char[BUFFER];
    FillBuffer(buffer, rounded);
    TrimDecimalText(buffer, rounded);
    var n := StrLen(buffer, Trimmed(rounded));
    var text := buffer[..n];
    assert text == buffer[..][..n] == MagnitudeText(x);
    dst := Clip(if negative && text != "0" then "-" + text else text, cap);
  }
}
