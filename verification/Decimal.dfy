/** Decimal text as Go's strconv reads and writes it: Itoa, Atoi, ParseUint and the int64 range. */
module Decimal {

  datatype Option<+T> = None | Some(value: T)

  const MAX_INT64: int := 0x7fff_ffff_ffff_ffff
  const MIN_INT64: int := -0x8000_0000_0000_0000

  predicate IsInt64(n: int) {
    MIN_INT64 <= n <= MAX_INT64
  }

  predicate IsDigit(c: char) {
    '0' <= c <= '9'
  }

  predicate OnlyDigits(s: string) {
    forall i :: 0 <= i < |s| ==> IsDigit(s[i])
  }

  /** A non-empty run of digits (isDigits in the FIX codec). */
  predicate AllDigits(s: string) {
    s != "" && OnlyDigits(s)
  }

  function Digit(d: nat): (c: char)
    requires d < 10
    ensures IsDigit(c) && DigitValue(c) == d
  {
    '0' + (d as char)
  }

  function DigitValue(c: char): nat
    requires IsDigit(c)
  {
    (c - '0') as nat
  }

  /** The number a run of digits denotes; leading zeros are allowed. */
  function Value(s: string): nat
    requires OnlyDigits(s)
  {
    if s == "" then 0 else 10 * Value(s[..|s| - 1]) + DigitValue(s[|s| - 1])
  }

  /** The digits of n without leading zeros. */
  function Text(n: nat): (s: string)
    ensures AllDigits(s)
  {
    if n < 10 then [Digit(n)] else Text(n / 10) + [Digit(n % 10)]
  }

  function Itoa(n: int): string {
    if n < 0 then "-" + Text(-n) else Text(n)
  }

  /** strconv.Atoi: an optional sign, at least one digit, the result within int64. */
  function Atoi(s: string): Option<int> {
    var signed := s != "" && (s[0] == '-' || s[0] == '+');
    var digits := if signed then s[1..] else s;
    if !AllDigits(digits) then None
    else
      var n := if s[0] == '-' then 0 - Value(digits) else Value(digits);
      if IsInt64(n) then Some(n) else None
  }

  function Pow10(n: nat): (p: nat)
    ensures p >= 1
  {
    if n == 0 then 1 else 10 * Pow10(n - 1)
  }

  lemma {:induction false} Pow10Add(a: nat, b: nat)
    ensures Pow10(a + b) == Pow10(a) * Pow10(b)
  {
    if b == 0 {
    } else {
      Pow10Add(a, b - 1);
      assert Pow10(a) * (10 * Pow10(b - 1)) == 10 * (Pow10(a) * Pow10(b - 1));
    }
  }

  /** Printing and reading back a natural number gives the number. */
  lemma {:induction false} ValueOfText(n: nat)
    ensures Value(Text(n)) == n
    ensures n > 0 ==> Text(n)[0] != '0'
  {
    if n < 10 {
      assert Text(n)[..0] == "";
    } else {
      ValueOfText(n / 10);
      assert Text(n)[..|Text(n)| - 1] == Text(n / 10);
    }
  }

  /** Digits without a superfluous leading zero are exactly what printing their value gives. */
  lemma {:induction false} TextOfValue(s: string)
    requires AllDigits(s)
    requires |s| > 1 ==> s[0] != '0'
    ensures Text(Value(s)) == s
    ensures |s| > 1 ==> Value(s) >= 10
  {
    if |s| == 1 {
      assert s[..0] == "";
      assert Value(s) == DigitValue(s[0]);
    } else {
      var init := s[..|s| - 1];
      TextOfValue(init);
      assert Value(init) >= 1 by {
        if |init| == 1 {
          assert init[..0] == "";
          assert Value(init) == DigitValue(init[0]);
        }
      }
      assert Value(s) / 10 == Value(init) && Value(s) % 10 == DigitValue(s[|s| - 1]);
      assert s == init + [s[|s| - 1]];
    }
  }

  /** Reading back what Itoa printed gives the number, for every int64. */
  lemma AtoiOfItoa(n: int)
    requires IsInt64(n)
    ensures Atoi(Itoa(n)) == Some(n)
  {
    if n < 0 {
      ValueOfText(-n);
      assert Itoa(n)[1..] == Text(-n);
    } else {
      ValueOfText(n);
    }
  }

  lemma TimesTen(a: int, b: int)
    ensures a * (10 * b) == 10 * (a * b)
  {
  }

  lemma {:induction false} ValueConcat(a: string, b: string)
    requires OnlyDigits(a) && OnlyDigits(b)
    ensures OnlyDigits(a + b)
    ensures Value(a + b) == Value(a) * Pow10(|b|) + Value(b)
  {
    if b == "" {
      assert a + b == a;
    } else {
      var init := b[..|b| - 1];
      ValueConcat(a, init);
      assert (a + b)[..|a + b| - 1] == a + init;
      TimesTen(Value(a), Pow10(|init|));
    }
  }

  lemma {:induction false} ValueBound(s: string)
    requires OnlyDigits(s)
    ensures Value(s) < Pow10(|s|)
  {
    if s == "" {
    } else {
      ValueBound(s[..|s| - 1]);
    }
  }
}
