/** Python's order on strings, and decimal numerals. */
module Strings {

  /** Code point by code point; a proper prefix comes first. */
  predicate Less(a: string, b: string)
  {
    b != "" && (a == "" || a[0] < b[0] || (a[0] == b[0] && Less(a[1..], b[1..])))
  }

  predicate AtMost(a: string, b: string)
  {
    !Less(b, a)
  }

  lemma {:induction false} LessTrichotomy(a: string, b: string)
    ensures Less(a, b) || Less(b, a) || a == b
    ensures !(Less(a, b) && Less(b, a)) && (a == b ==> !Less(a, b))
  {
    if a != "" && b != "" {
      LessTrichotomy(a[1..], b[1..]);
      if a[0] == b[0] && a[1..] == b[1..] { assert a == [a[0]] + a[1..] && b == [b[0]] + b[1..]; }
    }
  }

  lemma {:induction false} LessTransitive(a: string, b: string, c: string)
    requires Less(a, b) && Less(b, c)
    ensures Less(a, c)
  {
    if a != "" && a[0] == b[0] && b[0] == c[0] { LessTransitive(a[1..], b[1..], c[1..]); }
  }

  lemma AtMostTransitive(a: string, b: string, c: string)
    requires AtMost(a, b) && AtMost(b, c)
    ensures AtMost(a, c)
  {
    LessTrichotomy(a, b);
    LessTrichotomy(b, c);
    LessTrichotomy(a, c);
    if Less(a, b) && Less(b, c) { LessTransitive(a, b, c); }
  }

  /** Between strings that differ within a common length, what follows does not matter. */
  lemma {:induction false} LessIgnoresSuffix(a: string, b: string, x: string, y: string)
    requires |a| == |b| && a != b
    ensures Less(a + x, b + y) <==> Less(a, b)
  {
    assert a != "" && b != "";
    assert (a + x)[1..] == a[1..] + x && (b + y)[1..] == b[1..] + y;
    if a[0] == b[0] {
      assert a == [a[0]] + a[1..] && b == [b[0]] + b[1..];
      LessIgnoresSuffix(a[1..], b[1..], x, y);
    }
  }

  // ---------------------------------------------------------------- numerals

  function Digit(d: nat): char
    requires d < 10
  {
    '0' + d as char
  }

  predicate IsDigit(c: char)
  {
    '0' <= c <= '9'
  }

  function DigitValue(c: char): (d: nat)
    requires IsDigit(c)
    ensures d < 10
  {
    (c - '0') as nat
  }

  predicate Numeral(s: string)
  {
    forall i | 0 <= i < |s| :: IsDigit(s[i])
  }

  function Pow10(k: nat): (p: nat)
    ensures p > 0
  {
    if k == 0 then 1 else 10 * Pow10(k - 1)
  }

  /** `str(n)` */
  function Decimal(n: nat): (s: string)
    ensures s != "" && Numeral(s)
  {
    if n < 10 then [Digit(n)] else Decimal(n / 10) + [Digit(n % 10)]
  }

  /** `int(s)` of a numeral. */
  function Value(s: string): nat
    requires Numeral(s)
  {
    if s == "" then 0 else 10 * Value(s[..|s| - 1]) + DigitValue(s[|s| - 1])
  }

  lemma {:induction false} ValueOfDecimal(n: nat)
    ensures Value(Decimal(n)) == n
  {
    if n >= 10 {
      ValueOfDecimal(n / 10);
      assert Decimal(n)[..|Decimal(n)| - 1] == Decimal(n / 10);
    } else {
      assert Decimal(n)[..0] == "";
    }
  }

  /** The width of a numeral is what its magnitude needs. */
  lemma {:induction false} DecimalWidth(n: nat)
    ensures n < Pow10(|Decimal(n)|)
    ensures n > 0 ==> Pow10(|Decimal(n)| - 1) <= n
  {
    if n >= 10 { DecimalWidth(n / 10); }
  }

  lemma {:induction false} ValueBound(s: string)
    requires Numeral(s)
    ensures Value(s) < Pow10(|s|)
  {
    if s != "" { ValueBound(s[..|s| - 1]); }
  }

  /** Reading a numeral from the front. */
  lemma {:induction false} ValueFromFront(s: string)
    requires Numeral(s) && s != ""
    ensures Numeral(s[1..]) && Value(s) == DigitValue(s[0]) * Pow10(|s| - 1) + Value(s[1..])
  {
    if |s| == 1 {
      assert s[..0] == "" && s[1..] == "";
    } else {
      var init, rest := s[..|s| - 1], s[1..];
      ValueFromFront(init);
      assert init[1..] == rest[..|rest| - 1] && rest[|rest| - 1] == s[|s| - 1];
      assert Value(rest) == 10 * Value(init[1..]) + DigitValue(s[|s| - 1]);
      ShiftLeft(DigitValue(s[0]), Pow10(|s| - 2), Value(init[1..]));
    }
  }

  lemma ShiftLeft(d: nat, p: nat, v: nat)
    ensures 10 * (d * p + v) == d * (10 * p) + 10 * v
  {
  }

  /** Among numerals of one width, string order is numeric order. */
  lemma {:induction false} NumeralOrder(a: string, b: string)
    requires |a| == |b| && Numeral(a) && Numeral(b)
    ensures Less(a, b) <==> Value(a) < Value(b)
  {
    if a != "" {
      ValueFromFront(a);
      ValueFromFront(b);
      ValueBound(a[1..]);
      ValueBound(b[1..]);
      var p := Pow10(|a| - 1);
      var x, y := DigitValue(a[0]), DigitValue(b[0]);
      if x == y {
        NumeralOrder(a[1..], b[1..]);
      } else if x < y {
        LeadingDigit(x, y, p);
      } else {
        LeadingDigit(y, x, p);
      }
    }
  }

  lemma LeadingDigit(x: nat, y: nat, p: nat)
    requires x < y
    ensures x * p + p <= y * p
  {
    assert x * p + p == (x + 1) * p;
  }

  // ---------------------------------------------------------------- padding

  function Zeros(n: nat): (s: string)
    ensures |s| == n && Numeral(s)
  {
    seq(n, _ => '0')
  }

  /** `f"{n:0width}"` */
  function Padded(n: nat, width: nat): (s: string)
    ensures Numeral(s) && |s| == if |Decimal(n)| < width then width else |Decimal(n)|
  {
    if |Decimal(n)| < width then Zeros(width - |Decimal(n)|) + Decimal(n) else Decimal(n)
  }

  lemma {:induction false} ZerosAddNothing(k: nat, s: string)
    requires Numeral(s)
    ensures Numeral(Zeros(k) + s) && Value(Zeros(k) + s) == Value(s)
  {
    if s == "" {
      assert Zeros(k) + s == Zeros(k);
      ZerosAreZero(k);
    } else {
      ZerosAddNothing(k, s[..|s| - 1]);
      assert (Zeros(k) + s)[..|Zeros(k) + s| - 1] == Zeros(k) + s[..|s| - 1];
    }
  }

  lemma {:induction false} ZerosAreZero(k: nat)
    ensures Value(Zeros(k)) == 0
  {
    if k > 0 {
      assert Zeros(k)[..k - 1] == Zeros(k - 1);
      ZerosAreZero(k - 1);
    }
  }

  lemma ValueOfPadded(n: nat, width: nat)
    ensures Value(Padded(n, width)) == n
  {
    ValueOfDecimal(n);
    if |Decimal(n)| < width { ZerosAddNothing(width - |Decimal(n)|, Decimal(n)); }
  }

  lemma {:induction false} Pow10Monotone(i: nat, j: nat)
    requires i <= j
    ensures Pow10(i) <= Pow10(j)
  {
    if i < j { Pow10Monotone(i, j - 1); }
  }

  /** A number fits a width exactly when it is below that power of ten. */
  lemma FitsWidth(n: nat, width: nat)
    requires width > 0
    ensures |Decimal(n)| <= width <==> n < Pow10(width)
  {
    DecimalWidth(n);
    if |Decimal(n)| <= width {
      Pow10Monotone(|Decimal(n)|, width);
    } else if n > 0 {
      Pow10Monotone(width, |Decimal(n)| - 1);
    }
  }
}
