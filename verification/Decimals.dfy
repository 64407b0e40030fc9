// Decimal digit strings and what they denote.

module Decimals {
  function Pow10(n: nat): (r: nat)
    ensures r > 0
  {
    if n == 0 then 1 else 10 * Pow10(n - 1)
  }

  lemma {:induction false} Pow10Add(a: nat, b: nat)
    ensures Pow10(a + b) == Pow10(a) * Pow10(b)
  {
    if a > 0 {
      Pow10Add(a - 1, b);
    }
  }

  lemma {:induction false} Pow10Monotone(a: nat, b: nat)
    requires a <= b
    ensures Pow10(a) <= Pow10(b)
  {
    if a < b {
      Pow10Monotone(a, b - 1);
    }
  }

  predicate IsDigit(c: char) {
    '0' <= c <= '9'
  }

  predicate AllDigits(s: string) {
    forall i | 0 <= i < |s| :: IsDigit(s[i])
  }

  function DigitValue(c: char): (d: nat)
    requires IsDigit(c)
    ensures d < 10
  {
    c as int - '0' as int
  }

  function DigitChar(d: nat): (c: char)
    requires d < 10
    ensures IsDigit(c) && DigitValue(c) == d
    ensures (c == '0' <==> d == 0) && (c == '9' <==> d == 9) && (c < '5' <==> d < 5)
  {
    ('0' as int + d) as char
  }

  // The number a digit string denotes; 0 when it is empty.
  function Value(s: string): nat
    requires AllDigits(s)
  {
    if s == "" then 0 else Value(s[..|s| - 1]) * 10 + DigitValue(s[|s| - 1])
  }

  lemma ValueAppend(s: string, c: char)
    requires AllDigits(s) && IsDigit(c)
    ensures AllDigits(s + [c]) && Value(s + [c]) == Value(s) * 10 + DigitValue(c)
  {
    assert (s + [c])[..|s|] == s;
  }

  lemma {:induction false} ValueConcat(a: string, b: string)
    requires AllDigits(a) && AllDigits(b)
    ensures AllDigits(a + b) && Value(a + b) == Value(a) * Pow10(|b|) + Value(b)
  {
    if b == "" {
      assert a + b == a;
    } else {
      var init, last := b[..|b| - 1], b[|b| - 1];
      ValueConcat(a, init);
      assert a + b == (a + init) + [last];
      ValueAppend(a + init, last);
      TimesTen(Value(a), Pow10(|init|), Value(init), DigitValue(last));
    }
  }

  lemma TimesTen(x: nat, y: nat, z: nat, d: nat)
    ensures (x * y + z) * 10 + d == x * (10 * y) + (z * 10 + d)
  {}

  lemma {:induction false} ValueBound(s: string)
    requires AllDigits(s)
    ensures Value(s) < Pow10(|s|)
  {
    if s != "" {
      ValueBound(s[..|s| - 1]);
    }
  }

  // The shortest numeral.
  function Digits(m: nat): (s: string)
    ensures AllDigits(s) && |s| > 0
  {
    if m < 10 then [DigitChar(m)] else Digits(m / 10) + [DigitChar(m % 10)]
  }

  lemma {:induction false} ValueDigits(m: nat)
    ensures Value(Digits(m)) == m
  {
    if m >= 10 {
      ValueDigits(m / 10);
      ValueAppend(Digits(m / 10), DigitChar(m % 10));
    } else {
      ValueAppend("", DigitChar(m));
      assert "" + [DigitChar(m)] == [DigitChar(m)];
    }
  }

  lemma {:induction false} DigitsCount(m: nat, n: nat)
    ensures n > 0 ==> (|Digits(m)| <= n <==> m < Pow10(n))
  {
    if n > 1 && m >= 10 {
      DigitsCount(m / 10, n - 1);
    } else if n == 1 {
      assert Pow10(1) == 10;
    } else if n > 1 {
      Pow10Monotone(1, n);
      assert Pow10(1) == 10;
    }
  }

  lemma DigitsMonotone(a: nat, b: nat)
    requires a <= b
    ensures |Digits(a)| <= |Digits(b)|
  {
    DigitsCount(b, |Digits(b)|);
    DigitsCount(a, |Digits(b)|);
  }

  // The index just past the run of digits that starts at i.
  function RunEnd(s: string, i: nat): (j: nat)
    requires i <= |s|
    ensures i <= j <= |s| && AllDigits(s[i..j]) && (j < |s| ==> !IsDigit(s[j]))
    decreases |s| - i
  {
    if i < |s| && IsDigit(s[i]) then RunEnd(s, i + 1) else i
  }

  // A digit string followed by anything else but a digit is exactly the run.
  lemma {:induction false} RunOf(s: string, i: nat, j: nat)
    requires i <= j <= |s| && AllDigits(s[i..j]) && (j < |s| ==> !IsDigit(s[j]))
    ensures RunEnd(s, i) == j
    decreases |s| - i
  {
    if i < j {
      assert s[i..j][0] == s[i];
      assert s[i + 1..j] == s[i..j][1..];
      RunOf(s, i + 1, j);
    }
  }
}
