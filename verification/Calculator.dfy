// The calculator's number printer and reader (src/apps/calculator_app.c), with
// double taken as an exact real.

module Calculator {
  import opened Decimals
  import opened CalculatorText
  import opened CStrings

  const RANGE_MAX: real := 999999999.0
  const SCALE_THRESHOLD: real := 214748364.0
  const GUARD: nat := 9
  const BUFFER: nat := 32

  // --- calculator_trim_decimal_text ---

  method TrimDecimalText(text: array<char>, ghost t: string)
    requires text.Length >= 2 && Holds(text[..], t)
    modifies text
    ensures Holds(text[..], Trimmed(t))
  {
    var n := StrLen(text, t);
    if '.' !in text[..n] {
      return;
    }
    var len := n;
    while len > 0 && text[len - 1] == '0'
      invariant len <= n && Holds(text[..], t[..len])
      invariant StripZeros(t) == StripZeros(t[..len])
    {
      assert text[len - 1] == text[..][..len][len - 1];
      len := len - 1;
      text[len] := '\0';
      assert t[..len + 1][..len] == t[..len];
      assert text[..][..len] == t[..len];
    }
    var u := t[..len];
    assert StripZeros(u) == u by {
      if len > 0 { assert text[len - 1] == text[..][..len][len - 1]; }
    }
    if len > 0 && text[len - 1] == '.' {
      assert text[len - 1] == text[..][..len][len - 1];
      len := len - 1;
      text[len] := '\0';
      assert text[..][..len] == u[..|u| - 1];
    } else if len > 0 {
      assert text[len - 1] == text[..][..len][len - 1];
    }
    HoldsAt(text[..], t[..len]);
    if text[0] == '\0' {
      assert text[..][0] == text[0];
      text[0], text[1] := '0', '\0';
      assert text[..][..1] == "0";
    }
  }

  // --- calculator_round_display_text ---

  predicate OnePoint(t: string) {
    IsNumeral(t) && forall i, j | 0 <= i < j < |t| :: !(t[i] == '.' && t[j] == '.')
  }

  // What the carry loop has made of the characters t: the first n untouched, then
  // k zeros, then the end of the text.
  predicate Carrying(chars: seq<char>, t: string, n: nat, k: nat, left: bool)
    requires IsNumeral(t) && n <= |t|
  {
    && n + k <= |t| < |chars|
    && chars[..n] == t[..n]
    && (forall j | n <= j < n + k :: chars[j] == '0') && chars[n + k] == '\0'
    && (!left ==> k == 0) && (left ==> '.' !in t[..n])
    && CarryUp(t, false) == CarryUp(t[..n], left) + Zeros(k)
  }

  lemma OneMoreZero(s: string, k: nat)
    ensures (s + "0") + Zeros(k) == s + Zeros(k + 1)
  {
    assert "0" + Zeros(k) == Zeros(k + 1);
  }

  // One turn of the loop that does not end it.
  lemma CarryTurn(before: seq<char>, after: seq<char>, t: string, n: nat, k: nat, left: bool)
    requires OnePoint(t) && 0 < n <= |t| && Carrying(before, t, n, k, left)
    requires t[n - 1] == '.' || t[n - 1] == '9'
    requires after == before[n - 1 := if t[n - 1] == '9' && left then '0' else '\0']
    ensures var nine := t[n - 1] == '9';
      Carrying(after, t, n - 1, if nine && left then k + 1 else 0, left || !nine)
  {
    var init := t[..n - 1];
    assert t[..n] == init + [t[n - 1]];
    CarryAppend(init, t[n - 1], left);
    OneMoreZero(CarryUp(init, true), k);
    assert after[..n - 1] == before[..n][..n - 1];
    assert Zeros(0) == "";
    if t[n - 1] == '.' {
      assert t[..n][n - 1] == '.';
      forall i | 0 <= i < n - 1 ensures t[i] != '.' {}
    }
  }

  // head then zeros then the terminator, read as a text.
  lemma HoldsPieces(a: seq<char>, head: string, k: nat)
    requires |head| + k < |a| && a[..|head|] == head && '\0' !in head
    requires (forall j | |head| <= j < |head| + k :: a[j] == '0') && a[|head| + k] == '\0'
    ensures Holds(a, head + Zeros(k))
  {
    assert a[..|head| + k] == head + Zeros(k);
  }

  // before with one character replaced, read as a text that ends in k zeros.
  lemma AbsorbedBuffer(before: seq<char>, init: string, c: char, k: nat)
    requires |init| + 1 + k < |before| && before[..|init|] == init && '\0' !in init && c != '\0'
    requires (forall j | |init| + 1 <= j < |init| + 1 + k :: before[j] == '0') && before[|init| + 1 + k] == '\0'
    ensures Holds(before[|init| := c], init + [c] + Zeros(k))
  {
    var after := before[|init| := c];
    assert after[..|init| + 1] == init + [c];
    HoldsPieces(after, init + [c], k);
  }

  lemma AbsorbedText(t: string, n: nat, left: bool)
    requires IsNumeral(t) && 0 < n <= |t| && IsDigit(t[n - 1]) && t[n - 1] != '9'
    ensures CarryUp(t[..n], left) == t[..n - 1] + [DigitChar(DigitValue(t[n - 1]) + 1)]
  {
    assert t[..n] == t[..n - 1] + [t[n - 1]];
    CarryAppend(t[..n - 1], t[n - 1], left);
  }

  // The turn that ends it.
  lemma CarryAbsorbed(before: seq<char>, t: string, n: nat, k: nat, left: bool)
    requires IsNumeral(t) && 0 < n <= |t| && '\0' !in t && Carrying(before, t, n, k, left)
    requires IsDigit(t[n - 1]) && t[n - 1] != '9'
    ensures Holds(before[n - 1 := DigitChar(DigitValue(t[n - 1]) + 1)], CarryUp(t, false))
  {
    assert before[..n - 1] == before[..n][..n - 1] == t[..n - 1];
    AbsorbedText(t, n, left);
    AbsorbedBuffer(before, t[..n - 1], DigitChar(DigitValue(t[n - 1]) + 1), k);
  }

  // One turn: a nine is cleared, a point passed, any other digit absorbs the carry.
  method CarryCharacter(chars: array<char>, ghost t: string, index: nat, left: bool, ghost k: nat)
    returns (incremented: bool, left': bool, ghost k': nat)
    requires OnePoint(t) && '\0' !in t && index < |t| && Carrying(chars[..], t, index + 1, k, left)
    modifies chars
    ensures !incremented ==> Carrying(chars[..], t, index, k', left')
    ensures incremented ==> Holds(chars[..], CarryUp(t, false))
  {
    incremented, left', k' := false, left, 0;
    var ch := chars[index];
    ghost var before := chars[..];
    assert ch == before[..index + 1][index] == t[index];
    if ch == '.' {
      chars[index] := '\0';
      CarryTurn(before, chars[..], t, index + 1, k, left);
      left' := true;
    } else if ch == '9' {
      chars[index] := if left then '0' else '\0';
      CarryTurn(before, chars[..], t, index + 1, k, left);
      k' := if left then k + 1 else 0;
    } else {
      chars[index] := DigitChar(DigitValue(ch) + 1);
      incremented := true;
      CarryAbsorbed(before, t, index + 1, k, left);
      assert chars[..] == before[index := DigitChar(DigitValue(ch) + 1)];
    }
  }

  // Runs the carry back through t; true when a digit absorbed it.
  method CarryBack(chars: array<char>, t: string) returns (incremented: bool, ghost zeros: string)
    requires OnePoint(t) && Holds(chars[..], t)
    modifies chars
    ensures incremented ==> Holds(chars[..], CarryUp(t, false))
    ensures !incremented ==> Holds(chars[..], zeros) && CarryUp(t, false) == "1" + zeros
  {
    var index := |t| - 1;
    var left := false;
    incremented, zeros := false, "";
    ghost var k: nat := 0;
    assert t[..|t|] == t && Zeros(0) == "";
    while index >= 0 && !incremented
      invariant -1 <= index < |t|
      invariant !incremented ==> Carrying(chars[..], t, index + 1, k, left)
      invariant incremented ==> Holds(chars[..], CarryUp(t, false))
      decreases index, !incremented
    {
      incremented, left, k := CarryCharacter(chars, t, index, left, k);
      index := index - 1;
    }
    if !incremented {
      zeros := Zeros(k);
      assert chars[..][..k] == Zeros(k);
    }
  }

  method RoundDisplayText(text: string) returns (dst: string)
    requires OnePoint(text)
    ensures dst == Rounded(text)
  {
    var sawDecimal := false;
    var end, count := |text|, 0;
    var i := 0;
    while i < |text| && count < DISPLAY_CHARS + 1
      invariant i == count <= |text| && count <= DISPLAY_CHARS + 1
      invariant sawDecimal <==> '.' in text[..i]
      invariant end == if count == DISPLAY_CHARS + 1 then i else |text|
    {
      assert text[..i + 1] == text[..i] + [text[i]];
      if text[i] == '.' {
        sawDecimal := true;
      }
      count := count + 1;
      i := i + 1;
      if count == DISPLAY_CHARS + 1 {
        end := i;
      }
    }
    assert text[..|text|] == text;
    var clipped := text[..end];
    if !sawDecimal || count <= DISPLAY_CHARS || |clipped| <= DISPLAY_CHARS {
      return clipped;
    }
    var base := clipped[..DISPLAY_CHARS];
    if clipped[DISPLAY_CHARS] < '5' {
      return base;
    }
    var chars := new char[BUFFER];
    FillBuffer(chars, base);
    var incremented, zeros := CarryBack(chars, base);
    var n := StrLen(chars, if incremented then CarryUp(base, false) else zeros);
    dst := if incremented then chars[..n] else "1" + chars[..n];
    assert chars[..n] == chars[..][..n];
  }

  // --- calculator_number ---

  // The digits of an unsigned numeral around its point, ignoring what follows.
  function WholePart(t: string, start: nat): string
    requires start <= |t|
  {
    t[start..RunEnd(t, start)]
  }

  function FractionPart(t: string, start: nat): string
    requires start <= |t|
  {
    var i := RunEnd(t, start);
    if i < |t| && t[i] == '.' then t[i + 1..RunEnd(t, i + 1)] else ""
  }

  // digits as a number with this many decimals.
  function Decimal(digits: string, places: nat): real
    requires AllDigits(digits)
  {
    Value(digits) as real / Pow10(places) as real
  }

  function Magnitude(t: string, start: nat): real
    requires start <= |t|
  {
    var whole, fraction := WholePart(t, start), FractionPart(t, start);
    assert AllDigits(whole + fraction);
    Decimal(whole + fraction, |fraction|)
  }

  function NumberValue(t: string): real {
    if t != "" && t[0] == '-' then -Magnitude(t, 1) else Magnitude(t, 0)
  }

  // Adding one more decimal digit.
  lemma NextDecimal(v: nat, d: nat, p: nat)
    ensures (v * 10 + d) as real / (10 * p + 10) as real ==
            v as real / (p + 1) as real + d as real * (0.1 / (p + 1) as real)
  {
    var x, q := v as real, (p + 1) as real;
    assert (10 * p + 10) as real == 10.0 * q;
    assert x / q + d as real * (0.1 / q) == (10.0 * x + d as real) / (10.0 * q) by {
      DecimalAlgebra(x, d as real, q);
    }
  }

  lemma DecimalAlgebra(x: real, d: real, q: real)
    requires q > 0.0
    ensures x / q + d * (0.1 / q) == (10.0 * x + d) / (10.0 * q)
  {
    var u := 1.0 / q;
    assert u * q == 1.0;
    var r := x / q + d * (0.1 / q);
    assert x / q == x * u && 0.1 / q == 0.1 * u;
    assert r == x * u + d * (0.1 * u);
    assert r * (10.0 * q) == 10.0 * x * (u * q) + d * (u * q);
  }

  // The loop over the digits before the point.
  method ReadWhole(text: string, start: nat) returns (value: real, p: nat)
    requires start <= |text|
    ensures p == RunEnd(text, start) && value == Value(WholePart(text, start)) as real
  {
    p, value := start, 0.0;
    assert text[start..p] == "";
    while p < |text| && IsDigit(text[p])
      invariant start <= p <= |text| && RunEnd(text, start) == RunEnd(text, p)
      invariant AllDigits(text[start..p]) && value == Value(text[start..p]) as real
    {
      assert text[start..p + 1] == text[start..p] + [text[p]];
      ValueAppend(text[start..p], text[p]);
      value := value * 10.0 + DigitValue(text[p]) as real;
      p := p + 1;
    }
  }

  lemma FractionStep(digits: string, n: nat, c: char)
    requires AllDigits(digits) && IsDigit(c)
    ensures AllDigits(digits + [c])
    ensures Decimal(digits + [c], n + 1) ==
            Decimal(digits, n) + DigitValue(c) as real * (0.1 / Pow10(n) as real)
    ensures 0.1 / Pow10(n) as real * 0.1 == 0.1 / Pow10(n + 1) as real
  {
    ValueAppend(digits, c);
    NextDecimal(Value(digits), DigitValue(c), Pow10(n) - 1);
    NextScale(Pow10(n));
  }

  lemma OneMoreDecimal(digits: string, text: string, first: nat, p: nat)
    requires first <= p < |text| && IsDigit(text[p]) && AllDigits(digits + text[first..p])
    ensures AllDigits(digits + text[first..p + 1])
    ensures Decimal(digits + text[first..p + 1], p + 1 - first) ==
            Decimal(digits + text[first..p], p - first) +
            DigitValue(text[p]) as real * (0.1 / Pow10(p - first) as real)
    ensures 0.1 / Pow10(p - first) as real * 0.1 == 0.1 / Pow10(p + 1 - first) as real
  {
    FractionStep(digits + text[first..p], p - first, text[p]);
    assert digits + text[first..p + 1] == digits + text[first..p] + [text[p]];
  }

  // The loop over the digits after it.
  method ReadFraction(text: string, first: nat, whole: real, ghost digits: string) returns (value: real)
    requires first <= |text| && AllDigits(digits) && whole == Value(digits) as real
    ensures var fraction := text[first..RunEnd(text, first)];
      AllDigits(digits + fraction) && value == Decimal(digits + fraction, |fraction|)
  {
    value := whole;
    var scale, p := 0.1, first;
    assert digits + text[first..p] == digits;
    while p < |text| && IsDigit(text[p])
      invariant first <= p <= |text| && RunEnd(text, first) == RunEnd(text, p)
      invariant AllDigits(digits + text[first..p])
      invariant scale == 0.1 / Pow10(p - first) as real
      invariant value == Decimal(digits + text[first..p], p - first)
    {
      OneMoreDecimal(digits, text, first, p);
      value := value + DigitValue(text[p]) as real * scale;
      scale := scale * 0.1;
      p := p + 1;
    }
  }

  method CalculatorNumber(text: string) returns (value: real)
    ensures value == NumberValue(text)
  {
    var negative := text != "" && text[0] == '-';
    var start := if negative then 1 else 0;
    var p;
    value, p := ReadWhole(text, start);
    ghost var whole := WholePart(text, start);
    if p < |text| && text[p] == '.' {
      value := ReadFraction(text, p + 1, value, whole);
      assert FractionPart(text, start) == text[p + 1..RunEnd(text, p + 1)];
    } else {
      assert FractionPart(text, start) == "" && whole + "" == whole;
    }
    assert value == Magnitude(text, start);
    return if negative then -value else value;
  }

  lemma NextScale(q: nat)
    requires q > 0
    ensures 0.1 / q as real * 0.1 == 0.1 / (10 * q) as real
  {
    var r := q as real;
    assert (10 * q) as real == 10.0 * r;
    var u := 0.1 / r;
    assert u * r == 0.1;
    assert u * 0.1 * (10.0 * r) == 0.1;
  }
}
