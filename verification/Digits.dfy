/** Decimal digit strings and the natural numbers they denote. */
module Digits {
  import opened Arith
  import opened Text

  predicate IsDigit(c: char) { '0' <= c <= '9' }

  predicate AllDigits(s: string) { forall i :: 0 <= i < |s| ==> IsDigit(s[i]) }

  function DigitValue(c: char): (d: nat)
    requires IsDigit(c)
    ensures d <= 9
  {
    c as int - '0' as int
  }

  function DigitChar(d: nat): (c: char)
    requires d <= 9
    ensures IsDigit(c) && DigitValue(c) == d
  {
    ('0' as int + d) as char
  }

  function Pow10(n: nat): (r: nat)
    ensures r > 0
  {
    if n == 0 then 1 else 10 * Pow10(n - 1)
  }

  /** The number a digit string denotes, most significant digit first. */
  function Value(s: string): (v: nat)
    requires AllDigits(s)
  {
    if s == [] then 0 else 10 * Value(s[..|s| - 1]) + DigitValue(s[|s| - 1])
  }

  lemma {:induction false} Pow10Add(a: nat, b: nat)
    ensures Pow10(a + b) == Pow10(a) * Pow10(b)
  {
    if a > 0 {
      Pow10Add(a - 1, b);
      assert 10 * (Pow10(a - 1) * Pow10(b)) == (10 * Pow10(a - 1)) * Pow10(b);
    }
  }

  lemma {:induction false} Pow10Mono(a: nat, b: nat)
    requires a <= b
    ensures Pow10(a) <= Pow10(b)
  {
    if a < b {
      Pow10Mono(a, b - 1);
    }
  }

  lemma {:induction false} ValueAppend(a: string, b: string)
    requires AllDigits(a) && AllDigits(b)
    ensures AllDigits(a + b) && Value(a + b) == Value(a) * Pow10(|b|) + Value(b)
  {
    if b == [] {
      assert a + b == a;
    } else {
      var init := b[..|b| - 1];
      ValueAppend(a, init);
      assert (a + b)[..|a + b| - 1] == a + init;
      assert 10 * (Value(a) * Pow10(|init|)) == Value(a) * (10 * Pow10(|init|));
    }
  }

  lemma {:induction false} ValueBound(s: string)
    requires AllDigits(s)
    ensures Value(s) < Pow10(|s|)
  {
    if s != [] {
      ValueBound(s[..|s| - 1]);
    }
  }

  lemma {:induction false} ValueAtLeast(s: string)
    requires AllDigits(s) && s != [] && s[0] != '0'
    ensures Value(s) >= Pow10(|s| - 1)
  {
    if |s| > 1 {
      ValueAtLeast(s[..|s| - 1]);
    }
  }

  /** Same length and same number: same digits. */
  lemma {:induction false} ValueInjective(a: string, b: string)
    requires AllDigits(a) && AllDigits(b) && |a| == |b| && Value(a) == Value(b)
    ensures a == b
  {
    if a != [] {
      var x, y := a[..|a| - 1], b[..|b| - 1];
      ValueInjective(x, y);
      assert a == x + [a[|a| - 1]] && b == y + [b[|b| - 1]];
    }
  }

  // ----- Leading zeros -----

  function TrimZeros(s: string): (r: string)
    requires AllDigits(s)
    ensures AllDigits(r) && |r| <= |s|
    ensures r != [] ==> r[0] != '0'
  {
    if s != [] && s[0] == '0' then TrimZeros(s[1..]) else s
  }

  lemma {:induction false} TrimZerosValue(s: string)
    requires AllDigits(s)
    ensures Value(TrimZeros(s)) == Value(s)
  {
    if s != [] && s[0] == '0' {
      TrimZerosValue(s[1..]);
      ValueAppend(['0'], s[1..]);
      assert s == ['0'] + s[1..];
      assert ['0'][..0] == [] && Value(['0']) == 0;
    }
  }

  /** Without leading zeros the number of digits is determined by the number. */
  lemma {:induction false} TrimmedLength(s: string, n: nat)
    requires AllDigits(s) && (s != [] ==> s[0] != '0')
    ensures |s| <= n <==> Value(s) < Pow10(n)
  {
    ValueBound(s);
    if |s| <= n {
      Pow10Mono(|s|, n);
    } else {
      ValueAtLeast(s);
      Pow10Mono(n, |s| - 1);
    }
  }

  lemma {:induction false} TrimmedUnique(a: string, b: string)
    requires AllDigits(a) && (a != [] ==> a[0] != '0')
    requires AllDigits(b) && (b != [] ==> b[0] != '0')
    requires Value(a) == Value(b)
    ensures a == b
  {
    TrimmedLength(a, |b|);
    TrimmedLength(b, |a|);
    TrimmedLength(a, |a|);
    TrimmedLength(b, |b|);
    ValueInjective(a, b);
  }

  // ----- Printing numbers -----

  /** Decimal digits without leading zeros; empty for zero. */
  function Significant(n: nat): (s: string)
    ensures AllDigits(s) && (s != [] ==> s[0] != '0')
    ensures s == [] <==> n == 0
  {
    if n == 0 then [] else Significant(n / 10) + [DigitChar(n % 10)]
  }

  lemma {:induction false} SignificantValue(n: nat)
    ensures Value(Significant(n)) == n
  {
    if n > 0 {
      SignificantValue(n / 10);
      var s := Significant(n);
      assert s[..|s| - 1] == Significant(n / 10);
    }
  }

  /** The usual decimal text of a number. */
  function ToText(n: nat): (s: string)
    ensures AllDigits(s) && s != []
  {
    if n == 0 then "0" else Significant(n)
  }

  lemma {:induction false} ToTextValue(n: nat, k: nat)
    requires k > 0
    ensures Value(ToText(n)) == n && (|ToText(n)| <= k <==> n < Pow10(k))
  {
    SignificantValue(n);
    TrimmedLength(Significant(n), k);
    assert "0"[..0] == [] && Value("0") == 0;
  }

  function Zeros(n: nat): (s: string)
    ensures |s| == n && AllDigits(s)
  {
    if n == 0 then [] else Zeros(n - 1) + ['0']
  }

  lemma {:induction false} ZerosValue(n: nat)
    ensures Value(Zeros(n)) == 0
  {
    if n > 0 {
      ZerosValue(n - 1);
      assert Zeros(n)[..n - 1] == Zeros(n - 1);
    }
  }

  /** Digits filled up with leading zeros to a width. */
  function PadLeft(s: string, width: nat): (r: string)
    requires AllDigits(s)
    ensures AllDigits(r) && |r| == if |s| < width then width else |s|
  {
    if |s| < width then Zeros(width - |s|) + s else s
  }

  lemma {:induction false} PadLeftValue(s: string, width: nat)
    requires AllDigits(s)
    ensures Value(PadLeft(s, width)) == Value(s)
  {
    if |s| < width {
      var zeros := Zeros(width - |s|);
      ZerosValue(width - |s|);
      ValueAppend(zeros, s);
      assert Value(zeros) * Pow10(|s|) == 0;
    }
  }

  // ----- Order -----

  /** For equal lengths, text order is number order. */
  lemma {:induction false} TextOrderIsValueOrder(a: string, b: string)
    requires AllDigits(a) && AllDigits(b) && |a| == |b|
    ensures Less(a, b) <==> Value(a) < Value(b)
  {
    if a != [] {
      var x, y, p := a[1..], b[1..], Pow10(|a| - 1);
      TextOrderIsValueOrder(x, y);
      ValueHead(a);
      ValueHead(b);
      ValueBound(x);
      ValueBound(y);
      var d, e := DigitValue(a[0]), DigitValue(b[0]);
      if d < e {
        MulMonoStrict(d, e, p);
      } else if e < d {
        MulMonoStrict(e, d, p);
      }
    }
  }

  lemma {:induction false} ValueHead(s: string)
    requires AllDigits(s) && s != []
    ensures Value(s) == DigitValue(s[0]) * Pow10(|s| - 1) + Value(s[1..])
  {
    ValueAppend([s[0]], s[1..]);
    assert s == [s[0]] + s[1..] && [s[0]][..0] == [];
    assert Value([s[0]]) == DigitValue(s[0]);
  }
}
