// The fixed-point reader of AT responses (include/services/modem_at_util.h,
// modem_at_parse_decimal_x100), in 32-bit arithmetic.

module DecimalX100 {
  import opened Decimals
  import opened Calculator

  // The C int: going outside it is an error.
  newtype i32 = x: int | -0x8000_0000 <= x < 0x8000_0000

  const SATURATED: nat := 32767
  const WHOLE_BOUND: nat := 327679

  function Start(text: string): (s: nat)
    ensures s <= |text|
  {
    if text != "" && text[0] == '-' then 1 else 0
  }

  // A hundred times the number a text starts with, cut to whole units.
  function Hundredths(text: string): int {
    (Magnitude(text, Start(text)) * 100.0).Floor
  }

  function Saturating(text: string): int {
    var h := if Hundredths(text) > SATURATED then SATURATED else Hundredths(text);
    if Start(text) == 1 then -h else h
  }

  // The first two fraction digits, 0 for those not there.
  function TwoDigits(fraction: string): (v: nat)
    requires AllDigits(fraction)
    ensures v < 100
  {
    var kept := if |fraction| > 2 then fraction[..2] else fraction;
    ValueBound(kept);
    assert Pow10(2) == 100 && Pow10(1) == 10 && Pow10(0) == 1;
    Value(kept) * Pow10(2 - |kept|)
  }

  lemma ScaleCut(m: nat, q: nat, rest: nat)
    requires rest < q
    ensures ((m * q + rest) as real / (100 * q) as real * 100.0).Floor == m
  {
    var x := (m * q + rest) as real / (100 * q) as real * 100.0;
    RatioTimes(m * q + rest, q);
    assert x * q as real == (m * q + rest) as real;
    BetweenMultiples(x, m, q, rest);
  }

  lemma RatioTimes(n: nat, q: nat)
    requires q > 0
    ensures n as real / (100 * q) as real * 100.0 * q as real == n as real
  {
    var d := (100 * q) as real;
    var r := n as real / d;
    assert r * d == n as real;
    assert d == 100.0 * q as real;
  }

  lemma StrictlyScaled(a: real, b: real, p: real)
    requires a < b && p > 0.0
    ensures a * p < b * p
  {
    assert (b - a) * p > 0.0;
  }

  lemma FloorBetween(x: real, p: real, m: int)
    requires p > 0.0 && m as real * p <= x * p < (m + 1) as real * p
    ensures x.Floor == m
  {
    if x < m as real {
      StrictlyScaled(x, m as real, p);
    } else if (m + 1) as real < x {
      StrictlyScaled((m + 1) as real, x, p);
    }
  }

  lemma MultipleAsReal(m: nat, q: nat, rest: nat)
    ensures (m * q + rest) as real == m as real * q as real + rest as real
    ensures (m + 1) as real * q as real == m as real * q as real + q as real
  {}

  lemma BetweenMultiples(x: real, m: nat, q: nat, rest: nat)
    requires rest < q && x * q as real == (m * q + rest) as real
    ensures x.Floor == m
  {
    MultipleAsReal(m, q, rest);
    FloorBetween(x, q as real, m);
  }

  lemma LongFraction(v: nat, fraction: string)
    requires AllDigits(fraction) && |fraction| > 2
    ensures ((v * Pow10(|fraction|) + Value(fraction)) as real / Pow10(|fraction|) as real * 100.0).Floor ==
            v * 100 + TwoDigits(fraction)
  {
    var kept, rest, q := fraction[..2], fraction[2..], Pow10(|fraction| - 2);
    assert fraction == kept + rest;
    ValueConcat(kept, rest);
    ValueBound(rest);
    assert Pow10(2) == 100 && Pow10(0) == 1;
    Pow10Add(2, |fraction| - 2);
    Regroup(v, q, Value(kept), Value(rest));
    ScaleCut(v * 100 + Value(kept), q, Value(rest));
  }

  lemma ShortFraction(v: nat, fraction: string)
    requires AllDigits(fraction) && |fraction| <= 2
    ensures ((v * Pow10(|fraction|) + Value(fraction)) as real / Pow10(|fraction|) as real * 100.0).Floor ==
            v * 100 + TwoDigits(fraction)
  {
    assert Pow10(2) == 100 && Pow10(1) == 10 && Pow10(0) == 1;
    var q, spare := Pow10(|fraction|), Pow10(2 - |fraction|);
    ExactHundredths(v * q + Value(fraction), q, spare);
  }

  lemma ExactHundredths(n: nat, q: nat, spare: nat)
    requires (q == 1 && spare == 100) || (q == 10 && spare == 10) || (q == 100 && spare == 1)
    ensures (n as real / q as real * 100.0).Floor == n * spare
  {
    if q == 1 {
      assert n as real / 1.0 * 100.0 == (n * 100) as real;
    } else if q == 10 {
      assert n as real / 10.0 * 100.0 == (n * 10) as real;
    } else {
      assert n as real / 100.0 * 100.0 == n as real;
    }
  }

  // Whatever the length of the fraction, two of its digits are all that matter.
  lemma HundredthsSplit(whole: string, fraction: string)
    requires AllDigits(whole) && AllDigits(fraction)
    ensures AllDigits(whole + fraction)
    ensures (Decimal(whole + fraction, |fraction|) * 100.0).Floor == Value(whole) * 100 + TwoDigits(fraction)
  {
    ValueConcat(whole, fraction);
    if |fraction| > 2 {
      LongFraction(Value(whole), fraction);
    } else {
      ShortFraction(Value(whole), fraction);
    }
  }

  lemma Regroup(v: nat, q: nat, k: nat, r: nat)
    ensures v * (100 * q) + (k * q + r) == (v * 100 + k) * q + r
  {}

  method ParseWhole(text: string, start: nat) returns (whole: i32, p: nat)
    requires start <= |text|
    ensures p == RunEnd(text, start) && 0 <= whole as int <= WHOLE_BOUND
    ensures var v := Value(WholePart(text, start));
      whole as int <= v && (whole as int <= SATURATED ==> whole as int == v)
  {
    whole, p := 0, start;
    assert text[start..p] == "";
    while p < |text| && IsDigit(text[p])
      invariant start <= p <= |text| && RunEnd(text, start) == RunEnd(text, p)
      invariant AllDigits(text[start..p]) && 0 <= whole as int <= WHOLE_BOUND
      invariant whole as int <= Value(text[start..p])
      invariant whole as int <= SATURATED ==> whole as int == Value(text[start..p])
    {
      assert text[start..p + 1] == text[start..p] + [text[p]];
      ValueAppend(text[start..p], text[p]);
      if whole <= 32767 {
        whole := whole * 10 + DigitValue(text[p]) as i32;
      }
      p := p + 1;
    }
  }

  method ParseFraction(text: string, first: nat) returns (frac: i32)
    requires first <= |text|
    ensures frac as int == TwoDigits(text[first..RunEnd(text, first)])
  {
    frac := 0;
    var p, digits := first, 0;
    ghost var run := text[first..RunEnd(text, first)];
    assert run[..0] == "";
    while p < |text| && IsDigit(text[p]) && digits < 2
      invariant p == first + digits <= RunEnd(text, first) && digits <= 2
      invariant RunEnd(text, first) == RunEnd(text, p)
      invariant AllDigits(run[..digits]) && frac as int == Value(run[..digits]) < Pow10(digits) <= 100
    {
      assert run[..digits + 1] == run[..digits] + [text[p]];
      ValueAppend(run[..digits], text[p]);
      ValueBound(run[..digits + 1]);
      assert Pow10(2) == 100 && Pow10(1) == 10;
      frac := frac * 10 + DigitValue(text[p]) as i32;
      digits := digits + 1;
      p := p + 1;
    }
    assert digits < 2 ==> digits == |run|;
    assert run[..digits] == if |run| > 2 then run[..2] else run;
    frac := PadFraction(frac, digits);
  }

  method PadFraction(f: i32, n: nat) returns (frac: i32)
    requires n <= 2 && 0 <= f as int < Pow10(n) <= 100
    ensures frac as int == f as int * Pow10(2 - n)
  {
    assert Pow10(2) == 100 && Pow10(1) == 10 && Pow10(0) == 1;
    frac := f;
    var digits := n;
    while digits < 2
      invariant n <= digits <= 2 && frac as int == f as int * Pow10(digits - n)
    {
      frac := frac * 10;
      digits := digits + 1;
    }
  }

  lemma HundredthsAre(text: string)
    ensures var s := Start(text);
      Hundredths(text) == Value(WholePart(text, s)) * 100 + TwoDigits(FractionPart(text, s))
  {
    HundredthsSplit(WholePart(text, Start(text)), FractionPart(text, Start(text)));
  }

  method ParseDecimalX100(text: string) returns (r: i32)
    ensures r as int == Saturating(text)
    ensures -32767 <= r <= 32767
  {
    var start := if text != "" && text[0] == '-' then 1 else 0;
    var whole, p := ParseWhole(text, start);
    var frac: i32 := 0;
    if p < |text| && text[p] == '.' {
      frac := ParseFraction(text, p + 1);
    }
    assert TwoDigits("") == 0;
    assert frac as int == TwoDigits(FractionPart(text, start));
    HundredthsAre(text);
    var value := whole * 100 + frac;
    if value > 32767 {
      value := 32767;
    }
    r := if start == 1 then -value else value;
  }
}
