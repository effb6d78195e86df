/** Decimal price text to integer minor units and back: exact, rounded half away from zero, or refused. */
module Prices {
  import opened Arithmetic
  import opened Decimal

  // ── Text ───────────────────────────────────────────────────────────────────

  /** Unicode white space. */
  predicate IsSpace(c: char) {
    c == ' ' || ('\t' <= c <= '\r') || (c > '\U{7F}' && IsWideSpace(c))
  }

  predicate IsWideSpace(c: char) {
    c == '\U{85}' || c == '\U{A0}' || c == '\U{1680}' || '\U{2000}' <= c <= '\U{200A}' || c == '\U{2028}'
    || c == '\U{2029}' || c == '\U{202F}' || c == '\U{205F}' || c == '\U{3000}'
  }

  function TrimLeft(s: string): string {
    if s != "" && IsSpace(s[0]) then TrimLeft(s[1..]) else s
  }

  function TrimRight(s: string): string {
    if s != "" && IsSpace(s[|s| - 1]) then TrimRight(s[..|s| - 1]) else s
  }

  /** Where c first occurs; the length when it does not. */
  function Find(s: string, c: char): (k: nat)
    ensures k <= |s| && (k < |s| ==> s[k] == c) && c !in s[..k]
  {
    if s == "" || s[0] == c then 0 else 1 + Find(s[1..], c)
  }

  function StripZeros(s: string): string {
    if |s| > 1 && s[0] == '0' then StripZeros(s[1..]) else s
  }

  function Zeros(n: nat): (z: string)
    ensures |z| == n && OnlyDigits(z)
  {
    if n == 0 then "" else "0" + Zeros(n - 1)
  }

  predicate AllZero(s: string) {
    forall i :: 0 <= i < |s| ==> s[i] == '0'
  }

  /** An optional sign, digits, and optionally a point and more digits. */
  datatype Parts = Parts(negative: bool, whole: string, fraction: string)

  function SplitPrice(text: string): Option<Parts> {
    SplitTrimmed(TrimRight(TrimLeft(text)))
  }

  function SplitTrimmed(t: string): Option<Parts> {
    if t != "" && t[0] == '-' then SplitDigits(true, t[1..]) else SplitDigits(false, t)
  }

  function SplitDigits(negative: bool, u: string): Option<Parts> {
    var k := Find(u, '.');
    if k == |u| then if AllDigits(u) then Some(Parts(negative, u, "")) else None
    else
      var w, f := u[..k], u[k + 1..];
      if AllDigits(w) && AllDigits(f) then Some(Parts(negative, w, f)) else None
  }

  // ── Parsing ────────────────────────────────────────────────────────────────

  /** The digits of the result before rounding up, or None when digits would be lost and may not be. */
  function Cut(f: string, scale: nat, round: bool): Option<(string, bool)>
    requires OnlyDigits(f)
  {
    if |f| <= scale then Some((f + Zeros(scale - |f|), false))
    else if !round && !AllZero(f[scale..]) then None
    else Some((f[..scale], round && f[scale] >= '5'))
  }

  function ParsePrice(text: string, scale: nat, round: bool): Option<int> {
    match SplitPrice(text)
    case None => None
    case Some(p) => ParseParts(p, scale, round)
  }

  function ParseParts(p: Parts, scale: nat, round: bool): Option<int>
    requires AllDigits(p.whole) && OnlyDigits(p.fraction)
  {
    match Cut(p.fraction, scale, round)
    case None => None
    case Some((digits, up)) =>
      var whole := StripZeros(p.whole);
      StripKeeps(p.whole);
      if |whole| > 19 || !OnlyDigits(whole + digits) then None
      else
        var m := Value(whole + digits) + if up then 1 else 0;
        var n := if p.negative then 0 - m else m;
        if IsInt64(n) then Some(n) else None
  }

  lemma {:induction false} StripKeeps(s: string)
    requires AllDigits(s)
    ensures AllDigits(StripZeros(s)) && Value(StripZeros(s)) == Value(s)
    ensures |StripZeros(s)| > 1 ==> StripZeros(s)[0] != '0'
  {
    if |s| > 1 && s[0] == '0' {
      StripKeeps(s[1..]);
      assert s == "0" + s[1..];
      assert "0"[..0] == "" && Value("0") == 0;
      ValueConcat("0", s[1..]);
    }
  }

  // ── The number a text denotes ──────────────────────────────────────────────

  /** num / den in units of 10^-scale, to the nearest integer, halves up. */
  function Rounded(num: nat, den: nat, scale: nat): nat
    requires den > 0
  {
    (2 * (num * Pow10(scale)) + den) / (2 * den)
  }

  function Numerator(p: Parts): nat
    requires AllDigits(p.whole) && OnlyDigits(p.fraction)
  {
    Value(p.whole + p.fraction)
  }

  function Denominator(p: Parts): (d: nat)
    ensures d >= 1
  {
    Pow10(|p.fraction|)
  }

  function Signed(negative: bool, m: nat): int {
    if negative then 0 - m else m
  }

  function Fit(n: int): Option<int> {
    if IsInt64(n) then Some(n) else None
  }

  // ── Arithmetic ─────────────────────────────────────────────────────────────

  /** An exact multiple is its own rounding. */
  lemma RoundedExact(num: nat, den: nat, scale: nat, m: nat)
    requires den > 0 && num * Pow10(scale) == m * den
    ensures Rounded(num, den, scale) == m
  {
    assert m * (2 * den) == 2 * (m * den);
    DivIs(2 * (num * Pow10(scale)) + den, 2 * den, m);
  }

  /** Otherwise the remainder decides. */
  lemma RoundedSplit(num: nat, den: nat, scale: nat, m: nat, r: nat)
    requires den > 0 && num * Pow10(scale) == m * den + r && r < den
    ensures Rounded(num, den, scale) == m + if 2 * r >= den then 1 else 0
  {
    var x := 2 * (num * Pow10(scale)) + den;
    assert m * (2 * den) == 2 * (m * den) && (m + 1) * (2 * den) == 2 * (m * den) + 2 * den;
    DivIs(x, 2 * den, if 2 * r >= den then m + 1 else m);
  }

  lemma {:induction false} ZerosValue(n: nat)
    ensures Value(Zeros(n)) == 0
  {
    if n > 0 {
      ZerosValue(n - 1);
      assert Value("0") == 0 by { assert "0"[..0] == ""; }
      ValueConcat("0", Zeros(n - 1));
    }
  }

  lemma {:induction false} AllZeroValue(s: string)
    requires OnlyDigits(s)
    ensures AllZero(s) <==> Value(s) == 0
  {
    if s != "" {
      AllZeroValue(s[..|s| - 1]);
      var init, c := s[..|s| - 1], s[|s| - 1];
      assert AllZero(s) <==> AllZero(init) && c == '0' by {
        if AllZero(init) && c == '0' {
          forall i | 0 <= i < |s| ensures s[i] == '0' { if i < |init| { assert init[i] == '0'; } }
        }
        if AllZero(s) { forall i | 0 <= i < |init| ensures init[i] == '0' { assert s[i] == '0'; } }
      }
    }
  }

  lemma OneDigit(c: string)
    requires |c| == 1 && OnlyDigits(c)
    ensures Value(c) == DigitValue(c[0])
  {
    assert c[..0] == "";
  }

  lemma SplitFirst(b: string)
    requires AllDigits(b)
    ensures OnlyDigits(b[1..]) && Value(b) == DigitValue(b[0]) * Pow10(|b| - 1) + Value(b[1..])
  {
    assert b == b[..1] + b[1..];
    OneDigit(b[..1]);
    ValueConcat(b[..1], b[1..]);
  }

  lemma HalfDecides(d: nat, p: nat, v: nat, x: nat)
    requires d < 10 && v < p && x == d * p + v
    ensures x < 10 * p && (d >= 5 <==> 2 * x >= 10 * p)
  {
    if d >= 5 { assert d * p >= 5 * p; } else { assert d * p <= 4 * p; }
    assert d * p <= 9 * p;
  }

  /** Half a unit or more exactly when the first dropped digit is 5 or more. */
  lemma FirstDigitDecides(b: string)
    requires AllDigits(b)
    ensures b[0] >= '5' <==> 2 * Value(b) >= Pow10(|b|)
    ensures Value(b) < Pow10(|b|)
  {
    SplitFirst(b);
    ValueBound(b[1..]);
    HalfDecides(DigitValue(b[0]), Pow10(|b| - 1), Value(b[1..]), Value(b));
  }

  /** A number v / p beside m whole units, scaled by c. */
  lemma Scaled(x: nat, m: nat, p: nat, v: nat, c: nat, d: nat)
    requires x == m * p + v && d == p * c && v < p && c >= 1
    ensures x * c == m * d + v * c && v * c < d && (2 * (v * c) >= d <==> 2 * v >= p) && (v * c == 0 <==> v == 0)
  {
    ScaledSum(m, p, v, c);
    Below(v, p, c);
    Below(0, v, c);
    Below(2 * v, p, c);
    Below(p, 2 * v, c);
    assert (2 * v) * c == 2 * (v * c);
  }

  lemma ScaledSum(m: nat, p: nat, v: nat, c: nat)
    ensures (m * p + v) * c == m * (p * c) + v * c
  {
    assert (m * p + v) * c == m * p * c + v * c;
  }

  lemma Below(a: nat, b: nat, c: nat)
    requires c >= 1
    ensures a < b ==> a * c < b * c
  {
    if a < b { assert b * c == a * c + (b - a) * c; }
  }

  lemma Lengthened(x: nat, y: nat, e: nat, d: nat, c: nat)
    requires y == x * e && c == e * d
    ensures x * c == y * d
  {
    assert x * (e * d) == x * e * d;
  }

  // ── What parsing computes ──────────────────────────────────────────────────

  lemma ShortParts(w: string, f: string, scale: nat)
    requires AllDigits(w) && OnlyDigits(f) && |f| <= scale
    ensures OnlyDigits(w + (f + Zeros(scale - |f|))) && OnlyDigits(w + f)
    ensures Value(w + (f + Zeros(scale - |f|))) == Value(w + f) * Pow10(scale - |f|)
    ensures Pow10(scale) == Pow10(scale - |f|) * Pow10(|f|)
  {
    var e := scale - |f|;
    ValueConcat(w, f);
    ZerosValue(e);
    ValueConcat(w + f, Zeros(e));
    assert w + f + Zeros(e) == w + (f + Zeros(e));
    Pow10Add(e, |f|);
  }

  lemma ShortFraction(w: string, f: string, scale: nat)
    requires AllDigits(w) && OnlyDigits(f) && |f| <= scale
    ensures OnlyDigits(w + (f + Zeros(scale - |f|))) && OnlyDigits(w + f)
    ensures Value(w + f) * Pow10(scale) == Value(w + (f + Zeros(scale - |f|))) * Pow10(|f|)
  {
    ShortParts(w, f, scale);
    Lengthened(Value(w + f), Value(w + (f + Zeros(scale - |f|))), Pow10(scale - |f|), Pow10(|f|), Pow10(scale));
  }

  lemma DigitsConcat(a: string, b: string)
    requires OnlyDigits(a) && OnlyDigits(b)
    ensures OnlyDigits(a + b)
  {
  }

  lemma Assoc(a: string, b: string, c: string)
    ensures a + b + c == a + (b + c)
  {
  }

  lemma PowConcat(a: string, b: string)
    ensures Pow10(|a + b|) == Pow10(|b|) * Pow10(|a|)
  {
    Pow10Add(|b|, |a|);
  }

  lemma LongParts(w: string, a: string, b: string)
    requires AllDigits(w) && OnlyDigits(a) && AllDigits(b)
    ensures OnlyDigits(w + a) && OnlyDigits(w + (a + b))
    ensures Value(w + (a + b)) == Value(w + a) * Pow10(|b|) + Value(b)
  {
    DigitsConcat(w, a);
    ValueConcat(w + a, b);
    Assoc(w, a, b);
  }

  /** A fraction a kept and b dropped: the remainder in units of the last kept digit. */
  lemma LongFraction(w: string, a: string, b: string)
    requires AllDigits(w) && OnlyDigits(a) && AllDigits(b)
    ensures OnlyDigits(w + a) && OnlyDigits(w + (a + b))
    ensures var r := Value(b) * Pow10(|a|);
            Value(w + (a + b)) * Pow10(|a|) == Value(w + a) * Pow10(|a + b|) + r && r < Pow10(|a + b|)
            && (2 * r >= Pow10(|a + b|) <==> b[0] >= '5') && (r == 0 <==> AllZero(b))
  {
    LongParts(w, a, b);
    PowConcat(a, b);
    FirstDigitDecides(b);
    AllZeroValue(b);
    Scaled(Value(w + (a + b)), Value(w + a), Pow10(|b|), Value(b), Pow10(|a|), Pow10(|a + b|));
  }

  lemma {:induction false} LongRounds(w: string, a: string, b: string)
    requires AllDigits(w) && OnlyDigits(a) && AllDigits(b)
    ensures OnlyDigits(w + a) && OnlyDigits(w + (a + b))
    ensures Value(w + a) + (if b[0] >= '5' then 1 else 0) == Rounded(Value(w + (a + b)), Pow10(|a + b|), |a|)
  {
    LongFraction(w, a, b);
    RoundedSplit(Value(w + (a + b)), Pow10(|a + b|), |a|, Value(w + a), Value(b) * Pow10(|a|));
  }

  lemma {:induction false} LongExact(w: string, a: string, b: string)
    requires AllDigits(w) && OnlyDigits(a) && AllDigits(b)
    ensures OnlyDigits(w + a) && OnlyDigits(w + (a + b))
    ensures AllZero(b) <==> Value(w + (a + b)) * Pow10(|a|) % Pow10(|a + b|) == 0
    ensures AllZero(b) ==> Value(w + a) * Pow10(|a + b|) == Value(w + (a + b)) * Pow10(|a|)
  {
    LongFraction(w, a, b);
    ExactBy(Value(w + (a + b)) * Pow10(|a|), Value(w + a), Pow10(|a + b|), Value(b) * Pow10(|a|));
  }

  lemma ExactBy(x: nat, m: nat, d: nat, r: nat)
    requires r < d && x == m * d + r
    ensures (r == 0 <==> x % d == 0) && (r == 0 ==> m * d == x)
  {
    Divides(x, m, d, r);
  }

  lemma {:induction false} ShortRounds(w: string, f: string, scale: nat)
    requires AllDigits(w) && OnlyDigits(f) && |f| <= scale
    ensures OnlyDigits(w + (f + Zeros(scale - |f|))) && OnlyDigits(w + f)
    ensures Value(w + (f + Zeros(scale - |f|))) == Rounded(Value(w + f), Pow10(|f|), scale)
  {
    ShortFraction(w, f, scale);
    RoundedExact(Value(w + f), Pow10(|f|), scale, Value(w + (f + Zeros(scale - |f|))));
  }

  lemma {:induction false} ShortExact(w: string, f: string, scale: nat)
    requires AllDigits(w) && OnlyDigits(f) && |f| <= scale
    ensures OnlyDigits(w + (f + Zeros(scale - |f|))) && OnlyDigits(w + f)
    ensures Value(w + f) * Pow10(scale) % Pow10(|f|) == 0
    ensures Value(w + (f + Zeros(scale - |f|))) * Pow10(|f|) == Value(w + f) * Pow10(scale)
  {
    ShortFraction(w, f, scale);
    Divides(Value(w + f) * Pow10(scale), Value(w + (f + Zeros(scale - |f|))), Pow10(|f|), 0);
  }

  /** The kept digits give the rounding down; the flag adds the half. */
  lemma {:induction false} CutRounds(w: string, f: string, scale: nat)
    requires AllDigits(w) && OnlyDigits(f)
    ensures var c := Cut(f, scale, true);
            c.Some? && OnlyDigits(w + c.value.0) && OnlyDigits(w + f) && |c.value.0| == scale
            && Value(w + c.value.0) + (if c.value.1 then 1 else 0) == Rounded(Value(w + f), Pow10(|f|), scale)
  {
    if |f| <= scale {
      ShortRounds(w, f, scale);
    } else {
      assert f == f[..scale] + f[scale..];
      LongRounds(w, f[..scale], f[scale..]);
    }
  }

  /** Strict cutting succeeds exactly on multiples of the unit. */
  lemma {:induction false} CutExact(w: string, f: string, scale: nat)
    requires AllDigits(w) && OnlyDigits(f)
    ensures OnlyDigits(w + f)
    ensures var c := Cut(f, scale, false);
            (c.Some? <==> Value(w + f) * Pow10(scale) % Pow10(|f|) == 0)
            && (c.Some? ==> !c.value.1 && |c.value.0| == scale && OnlyDigits(w + c.value.0)
                            && Value(w + c.value.0) * Pow10(|f|) == Value(w + f) * Pow10(scale))
  {
    if |f| <= scale {
      ShortExact(w, f, scale);
    } else {
      assert f == f[..scale] + f[scale..];
      LongExact(w, f[..scale], f[scale..]);
    }
  }

  // ── Main results ───────────────────────────────────────────────────────────

  lemma Pow10Of19()
    ensures Pow10(19) == 10_000_000_000_000_000_000
  {
    assert Pow10(5) == 100_000;
    Pow10Add(5, 5);
    Pow10Add(10, 5);
    Pow10Add(15, 4);
    assert Pow10(4) == 10_000;
  }

  lemma {:induction false} Pow10Grows(a: nat, b: nat)
    requires a <= b
    ensures Pow10(a) <= Pow10(b)
    decreases b - a
  {
    if a < b { Pow10Grows(a, b - 1); }
  }

  /** More than 19 significant digits are beyond int64. */
  lemma TooLong(w: string)
    requires AllDigits(w) && |w| > 19 && w[0] != '0'
    ensures Value(w) >= 10_000_000_000_000_000_000
  {
    SplitFirst(w);
    Pow10Of19();
    Pow10Grows(19, |w| - 1);
    AtLeastOnce(DigitValue(w[0]), Pow10(|w| - 1));
  }

  lemma AtLeastOnce(d: nat, p: nat)
    requires d >= 1
    ensures d * p >= p
  {
  }

  lemma Bigger(w: string, digits: string)
    requires AllDigits(w) && OnlyDigits(digits)
    ensures OnlyDigits(w + digits) && Value(w + digits) >= Value(w)
  {
    ValueConcat(w, digits);
    AtLeast(Value(w), Pow10(|digits|), Value(digits), Value(w + digits));
  }

  lemma AtLeast(v: nat, p: nat, y: nat, x: nat)
    requires p >= 1 && x == v * p + y
    ensures x >= v
  {
    TimesMono(1, p, v);
  }

  lemma SameDigits(w: string, v: string, digits: string)
    requires AllDigits(w) && AllDigits(v) && OnlyDigits(digits) && Value(w) == Value(v)
    ensures OnlyDigits(w + digits) && OnlyDigits(v + digits) && Value(w + digits) == Value(v + digits)
  {
    ValueConcat(w, digits);
    ValueConcat(v, digits);
  }

  /** What is computed once the digits are cut. */
  lemma ParseCut(p: Parts, digits: string, up: bool)
    requires AllDigits(p.whole) && OnlyDigits(digits)
    ensures OnlyDigits(p.whole + digits)
    ensures var whole := StripZeros(p.whole);
            AllDigits(whole) && OnlyDigits(whole + digits)
            && (if |whole| > 19 then None else Fit(Signed(p.negative, Value(whole + digits) + if up then 1 else 0)))
               == Fit(Signed(p.negative, Value(p.whole + digits) + if up then 1 else 0))
  {
    var whole := StripZeros(p.whole);
    StripKeeps(p.whole);
    SameDigits(whole, p.whole, digits);
    if |whole| > 19 {
      TooLong(whole);
      Bigger(whole, digits);
    }
  }

  /** In rounding mode a well-formed text is the number it denotes, rounded half away from zero; it is
      refused exactly when that is beyond int64. */
  lemma ParseRounds(p: Parts, scale: nat)
    requires AllDigits(p.whole) && OnlyDigits(p.fraction)
    ensures ParseParts(p, scale, true) == Fit(Signed(p.negative, Rounded(Numerator(p), Denominator(p), scale)))
  {
    CutRounds(p.whole, p.fraction, scale);
    var (digits, up) := Cut(p.fraction, scale, true).value;
    ParseCut(p, digits, up);
  }

  /** In strict mode a text is accepted exactly when it is a whole number of units that fits int64, and
      then its value is exact. */
  lemma ParseIsStrict(p: Parts, scale: nat)
    requires AllDigits(p.whole) && OnlyDigits(p.fraction)
    ensures var num, den := Numerator(p) * Pow10(scale), Denominator(p);
            if num % den != 0 then ParseParts(p, scale, false) == None
            else exists m: nat :: m * den == num && ParseParts(p, scale, false) == Fit(Signed(p.negative, m))
  {
    CutExact(p.whole, p.fraction, scale);
    var c := Cut(p.fraction, scale, false);
    if c.Some? {
      ParseCut(p, c.value.0, c.value.1);
      var m := Value(p.whole + c.value.0);
      assert m * Denominator(p) == Numerator(p) * Pow10(scale);
    }
  }

  /** Rounding is never more than half a unit away, and halves go up. */
  lemma RoundedIsNearest(num: nat, den: nat, scale: nat)
    requires den > 0
    ensures var x, m := num * Pow10(scale), Rounded(num, den, scale);
            2 * x < (2 * m + 1) * den && (2 * m - 1) * den <= 2 * x
  {
    var x := num * Pow10(scale);
    Quotient(2 * x + den, 2 * den);
    var m := Rounded(num, den, scale);
    assert m * (2 * den) == 2 * m * den && (2 * m + 1) * den == 2 * m * den + den
      && (2 * m - 1) * den == 2 * m * den - den;
  }

  /** A larger number never rounds to a smaller one. */
  lemma RoundedIsMonotone(a: nat, b: nat, c: nat, d: nat, scale: nat)
    requires b > 0 && d > 0 && a * d <= c * b
    ensures Rounded(a, b, scale) <= Rounded(c, d, scale)
  {
    RoundedIsNearest(a, b, scale);
    RoundedIsNearest(c, d, scale);
    CrossCompare(a, b, c, d, Pow10(scale), Rounded(a, b, scale), Rounded(c, d, scale));
  }

  lemma CrossCompare(a: nat, b: nat, c: nat, d: nat, s: nat, m: nat, n: nat)
    requires b > 0 && d > 0 && a * d <= c * b
    requires (2 * m - 1) * b <= 2 * (a * s) && 2 * (c * s) < (2 * n + 1) * d
    ensures m <= n
  {
    TimesMono((2 * m - 1) * b, 2 * (a * s), d);
    TimesMono(a * d, c * b, 2 * s);
    Steps(2 * (c * s), (2 * n + 1) * d, b);
    Swap(2 * m - 1, b, d);
    Swap(2 * n + 1, d, b);
    Spread(a, s, d);
    Spread(c, s, b);
    Product(b, d);
    Steps(2 * n, 2 * m - 1, b * d);
  }

  lemma Swap(k: int, a: nat, b: nat)
    ensures k * a * b == k * (a * b) && a * b == b * a
  {
  }

  lemma Spread(a: nat, s: nat, d: nat)
    ensures 2 * (a * s) * d == a * d * (2 * s)
  {
  }

  lemma Product(a: nat, b: nat)
    requires a > 0 && b > 0
    ensures a * b > 0
  {
  }

  /** Changing the sign of a text changes the sign of the result. */
  lemma ParseIsOdd(p: Parts, scale: nat, round: bool)
    requires AllDigits(p.whole) && OnlyDigits(p.fraction)
    ensures var n, m := ParseParts(p.(negative := false), scale, round), ParseParts(p.(negative := true), scale, round);
            (n.Some? ==> m == Some(0 - n.value)) && (m.Some? && m.value != MIN_INT64 ==> n == Some(0 - m.value))
  {
    StripKeeps(p.whole);
  }

  // ── Formatting ─────────────────────────────────────────────────────────────

  function Magnitude(v: int): nat {
    if v < 0 then 0 - v else v
  }

  /** At least one digit before the point. */
  function Pad(s: string, scale: nat): (r: string)
    requires AllDigits(s)
    ensures AllDigits(r) && |r| > scale
  {
    if |s| <= scale then Zeros(scale + 1 - |s|) + s else s
  }

  function Padded(v: int, scale: nat): string {
    Pad(Text(Magnitude(v)), scale)
  }

  function Format(v: int, scale: nat): string {
    var s, sign := Padded(v, scale), if v < 0 then "-" else "";
    if scale == 0 then sign + s else sign + (s[..|s| - scale] + ("." + s[|s| - scale..]))
  }

  lemma {:induction false} PadValue(s: string, scale: nat)
    requires AllDigits(s)
    ensures Value(Pad(s, scale)) == Value(s)
  {
    if |s| <= scale {
      var z := Zeros(scale + 1 - |s|);
      ZerosValue(scale + 1 - |s|);
      ValueConcat(z, s);
    }
  }

  /** The digits before and after the point. */
  lemma {:induction false} PaddedParts(v: int, scale: nat) returns (w: string, f: string)
    ensures Padded(v, scale) == w + f && AllDigits(w) && OnlyDigits(f) && |f| == scale && Value(w + f) == Magnitude(v)
  {
    var s := Padded(v, scale);
    w, f := s[..|s| - scale], s[|s| - scale..];
    assert s == w + f;
    ValueOfText(Magnitude(v));
    PadValue(Text(Magnitude(v)), scale);
  }

  lemma {:induction false} FindPast(w: string, rest: string)
    requires OnlyDigits(w)
    ensures Find(w + rest, '.') == |w| + Find(rest, '.')
  {
    if w == "" {
      assert w + rest == rest;
    } else {
      assert (w + rest)[1..] == w[1..] + rest;
      FindPast(w[1..], rest);
    }
  }

  lemma {:induction false} Untrimmed(t: string)
    requires t != "" && !IsSpace(t[0]) && !IsSpace(t[|t| - 1])
    ensures TrimRight(TrimLeft(t)) == t
  {
  }

  /** A text that begins and ends with a digit, with or without a sign. */
  lemma {:induction false} SplitSigned(negative: bool, u: string)
    requires u != "" && IsDigit(u[0])
    ensures SplitTrimmed(Sign(negative) + u) == SplitDigits(negative, u)
  {
    var t := Sign(negative) + u;
    assert if negative then t[0] == '-' && t[1..] == u else t == u;
  }

  function Sign(negative: bool): string {
    if negative then "-" else ""
  }

  /** The text of the parts: no point without digits after it. */
  function Written(p: Parts): string {
    Sign(p.negative) + (p.whole + if p.fraction == "" then "" else "." + p.fraction)
  }

  predicate Decimals(p: Parts) {
    AllDigits(p.whole) && OnlyDigits(p.fraction)
  }

  lemma {:induction false} WrittenSplits(p: Parts)
    requires Decimals(p)
    ensures SplitTrimmed(Written(p)) == Some(p)
  {
    if p.fraction == "" {
      assert p.whole + "" == p.whole;
      SplitWhole(p.negative, p.whole);
      SplitSigned(p.negative, p.whole);
    } else {
      SplitJoined(p.negative, p.whole, p.fraction);
      SplitSigned(p.negative, p.whole + ("." + p.fraction));
    }
  }

  lemma {:induction false} DigitsWritten(negative: bool, u: string)
    ensures match SplitDigits(negative, u)
            case None => true
            case Some(p) =>
              Decimals(p) && p.negative == negative && u == p.whole + if p.fraction == "" then "" else "." + p.fraction
  {
    var k := Find(u, '.');
    if k < |u| { assert u == u[..k] + ("." + u[k + 1..]); } else { assert u == u + ""; }
  }

  lemma {:induction false} SplitWritten(t: string)
    ensures match SplitTrimmed(t) case None => true case Some(p) => Decimals(p) && t == Written(p)
  {
    if t != "" && t[0] == '-' {
      DigitsWritten(true, t[1..]);
      assert t == "-" + t[1..];
    } else {
      DigitsWritten(false, t);
      assert t == "" + t;
    }
  }

  /** A text is a price exactly when, white space trimmed, it is the written form of its parts. */
  lemma {:induction false} SplitsExactly(text: string, p: Parts)
    ensures SplitPrice(text) == Some(p) <==> Decimals(p) && TrimRight(TrimLeft(text)) == Written(p)
  {
    SplitWritten(TrimRight(TrimLeft(text)));
    if Decimals(p) { WrittenSplits(p); }
  }

  lemma {:induction false} WrittenTrimmed(p: Parts)
    requires Decimals(p)
    ensures TrimRight(TrimLeft(Written(p))) == Written(p)
  {
    Untrimmed(Written(p));
  }

  lemma JoinedSlices(w: string, f: string)
    ensures var u := w + ("." + f); u[..|w|] == w && u[|w|] == '.' && u[|w| + 1..] == f
  {
  }

  /** Digits, a point and a fraction are split where they were joined. */
  lemma SplitJoined(negative: bool, w: string, f: string)
    requires AllDigits(w) && AllDigits(f)
    ensures SplitDigits(negative, w + ("." + f)) == Some(Parts(negative, w, f))
  {
    FindPast(w, "." + f);
    JoinedSlices(w, f);
  }

  lemma SplitWhole(negative: bool, w: string)
    requires AllDigits(w)
    ensures SplitDigits(negative, w) == Some(Parts(negative, w, ""))
  {
    FindPast(w, "");
    assert w + "" == w;
  }

  lemma {:induction false} FormatSplits(v: int, scale: nat, w: string, f: string)
    requires Padded(v, scale) == w + f && AllDigits(w) && OnlyDigits(f) && |f| == scale
    ensures SplitPrice(Format(v, scale)) == Some(Parts(v < 0, w, f))
  {
    var p := Parts(v < 0, w, f);
    assert (w + f)[..|w|] == w && (w + f)[|w|..] == f && w + "" == w;
    assert Format(v, scale) == Written(p);
    WrittenTrimmed(p);
    WrittenSplits(p);
  }

  lemma ParseWhole(p: Parts, m: nat, round: bool)
    requires AllDigits(p.whole) && OnlyDigits(p.fraction) && Numerator(p) == m && IsInt64(Signed(p.negative, m))
    ensures ParseParts(p, |p.fraction|, round) == Some(Signed(p.negative, m))
  {
    ParseRounds(p, |p.fraction|);
    ParseIsStrict(p, |p.fraction|);
    RoundedExact(m, Denominator(p), |p.fraction|, m);
    OwnMultiple(m, Denominator(p));
  }

  /** Parsing the formatted form of any int64 at any scale gives it back, in both modes. */
  lemma {:induction false} FormatThenParse(v: int, scale: nat, round: bool)
    requires IsInt64(v)
    ensures ParsePrice(Format(v, scale), scale, round) == Some(v)
  {
    var w, f := PaddedParts(v, scale);
    FormatSplits(v, scale, w, f);
    ParseWhole(Parts(v < 0, w, f), Magnitude(v), round);
  }

  // ── Order ──────────────────────────────────────────────────────────────────

  /** The number p denotes is at most the number q denotes. */
  predicate AtMost(p: Parts, q: Parts)
    requires Decimals(p) && Decimals(q)
  {
    Signed(p.negative, Numerator(p)) * Denominator(q) <= Signed(q.negative, Numerator(q)) * Denominator(p)
  }

  lemma {:induction false} SignedMonotone(p: Parts, q: Parts, scale: nat)
    requires Decimals(p) && Decimals(q) && AtMost(p, q)
    ensures Signed(p.negative, Rounded(Numerator(p), Denominator(p), scale))
            <= Signed(q.negative, Rounded(Numerator(q), Denominator(q), scale))
  {
    SignedRounds(p.negative, Numerator(p), Denominator(p), q.negative, Numerator(q), Denominator(q), scale);
  }

  lemma SignedRounds(n1: bool, a: nat, b: nat, n2: bool, c: nat, d: nat, scale: nat)
    requires b > 0 && d > 0 && Signed(n1, a) * d <= Signed(n2, c) * b
    ensures Signed(n1, Rounded(a, b, scale)) <= Signed(n2, Rounded(c, d, scale))
  {
    Negated(a, d);
    Negated(c, b);
    if n1 && n2 {
      RoundedIsMonotone(c, d, a, b, scale);
    } else if !n1 && !n2 {
      RoundedIsMonotone(a, b, c, d, scale);
    } else if !n1 {
      NoneLeft(a, d);
      NoneLeft(c, b);
      RoundedExact(0, b, scale, 0);
      RoundedExact(0, d, scale, 0);
    }
  }

  lemma Negated(a: nat, d: nat)
    ensures (0 - a) * d == 0 - a * d && a * d >= 0
  {
  }

  lemma NoneLeft(a: nat, d: nat)
    requires d > 0
    ensures a * d == 0 ==> a == 0
  {
    Steps(0, a, d);
  }

  /** In rounding mode a text that denotes a larger number never parses to a smaller price. */
  lemma {:induction false} ParseIsMonotone(t: string, u: string, p: Parts, q: Parts, scale: nat)
    requires Decimals(p) && TrimRight(TrimLeft(t)) == Written(p)
    requires Decimals(q) && TrimRight(TrimLeft(u)) == Written(q) && AtMost(p, q)
    ensures var x, y := ParsePrice(t, scale, true), ParsePrice(u, scale, true);
            x.Some? && y.Some? ==> x.value <= y.value
  {
    SplitsExactly(t, p);
    SplitsExactly(u, q);
    ParseRounds(p, scale);
    ParseRounds(q, scale);
    SignedMonotone(p, q, scale);
  }

  lemma OwnMultiple(m: nat, d: nat)
    requires d > 0
    ensures m * d % d == 0 && forall k: nat :: k * d == m * d ==> k == m
  {
    Divides(m * d, m, d, 0);
    forall k: nat | k * d == m * d ensures k == m {
      DivIs(m * d, d, m);
      DivIs(m * d, d, k);
    }
  }
}
