/**
 Decimal numerals as (coefficient, exponent) pairs, their exact comparison, and rounding half
 to even to a coarser exponent, as the `quantize` operation of the General Decimal Arithmetic
 Specification does it (ties as in roundTiesToEven, section 4.3.1 of IEEE 754-2008).
 */
module Decimals {
  import opened Sequences
  import opened Scanner

  datatype Decimal = Decimal(coefficient: int, exponent: int)

  /** The digits of a coefficient that the decimal context can hold. */
  const PRECISION: nat := 28

  function Pow10(k: nat): (p: nat)
    ensures p >= 1
  {
    if k == 0 then 1 else 10 * Pow10(k - 1)
  }

  function Abs(x: int): nat { if x < 0 then -x else x }

  // ----- reading a numeral -----

  predicate AllDigits(s: string) { forall i :: 0 <= i < |s| ==> IsDigit(s[i]) }

  function DigitsValue(s: string): nat
    requires AllDigits(s)
  {
    if s == "" then 0 else 10 * DigitsValue(s[..|s| - 1]) + (s[|s| - 1] as int - '0' as int)
  }

  function PointIndex(s: string): (k: nat)
    ensures k <= |s|
    ensures k < |s| ==> s[k] == '.'
    ensures forall i :: 0 <= i < k ==> s[i] != '.'
  {
    if s == "" || s[0] == '.' then 0 else 1 + PointIndex(s[1..])
  }

  function Unsigned(s: string): string {
    if s != "" && (s[0] == '+' || s[0] == '-') then s[1..] else s
  }

  function WholePart(body: string): string { body[..PointIndex(body)] }

  function FractionPart(body: string): string {
    if PointIndex(body) < |body| then body[PointIndex(body) + 1..] else ""
  }

  /** An optional sign, digits, and at most one point; anything else is not a number. */
  function Parse(s: string): Option<Decimal> {
    var body := Unsigned(s);
    var digits := WholePart(body) + FractionPart(body);
    if digits == "" || !AllDigits(digits) then None
    else
      var magnitude: int := DigitsValue(digits);
      Some(Decimal(if s[0] == '-' then -magnitude else magnitude, -|FractionPart(body)|))
  }

  // ----- exact comparison -----

  /** How many times `d` contains ten to the power `m`. */
  function Units(d: Decimal, m: int): int
    requires m <= d.exponent
  {
    d.coefficient * Pow10(d.exponent - m)
  }

  predicate Equal(a: Decimal, b: Decimal) {
    var m := if a.exponent < b.exponent then a.exponent else b.exponent;
    Units(a, m) == Units(b, m)
  }

  lemma {:induction false} Pow10Add(j: nat, k: nat)
    ensures Pow10(j + k) == Pow10(j) * Pow10(k)
  {
    if j > 0 {
      Pow10Add(j - 1, k);
      TenTimes(Pow10(j - 1), Pow10(k));
    }
  }

  lemma TenTimes(p: nat, q: nat)
    ensures 10 * (p * q) == (10 * p) * q
  {}

  lemma FinerUnits(d: Decimal, m: int, n: int)
    requires n <= m <= d.exponent
    ensures Units(d, n) == Units(d, m) * Pow10(m - n)
  {
    Pow10Add(d.exponent - m, m - n);
    Associate(d.coefficient, Pow10(d.exponent - m), Pow10(m - n));
  }

  lemma Associate(x: int, y: int, z: int)
    ensures x * (y * z) == (x * y) * z
  {}

  lemma Cancel(x: int, y: int, z: int)
    requires z > 0
    ensures x * z == y * z <==> x == y
  {
    if x < y {
      assert (y - x) * z > 0;
    } else if x > y {
      assert (x - y) * z > 0;
    }
  }

  /** Equality does not depend on the unit in which two numbers are compared. */
  lemma EqualInAnyUnit(a: Decimal, b: Decimal, n: int)
    requires n <= a.exponent && n <= b.exponent
    ensures Equal(a, b) <==> Units(a, n) == Units(b, n)
  {
    var m := if a.exponent < b.exponent then a.exponent else b.exponent;
    FinerUnits(a, m, n);
    FinerUnits(b, m, n);
    Cancel(Units(a, m), Units(b, m), Pow10(m - n));
  }

  // ----- rounding half to even -----

  function HalfEven(n: nat, d: nat): nat
    requires d > 0
  {
    var q, r := n / d, n % d;
    if 2 * r < d || (2 * r == d && q % 2 == 0) then q else q + 1
  }

  function RoundCoefficient(c: int, d: nat): int
    requires d > 0
  {
    if c < 0 then 0 - HalfEven(-c, d) else HalfEven(c, d)
  }

  /** `r` is nearest to `c / d`, and even when `c / d` lies midway between two integers. */
  predicate NearestEven(c: int, d: nat, r: int) {
    var distance := 2 * Abs(c - r * d);
    distance <= d && (distance == d ==> r % 2 == 0)
  }

  lemma NearestEvenUnique(c: int, d: nat, r: int, r': int)
    requires d > 0 && NearestEven(c, d, r) && NearestEven(c, d, r')
    ensures r == r'
  {
    if r < r' {
      MultiplesApart(d, r, r');
    } else if r' < r {
      MultiplesApart(d, r', r);
    }
  }

  lemma MultiplesApart(d: nat, r: int, r': int)
    requires r < r'
    ensures r' * d - r * d >= d
    ensures r' != r + 1 ==> r' * d - r * d >= 2 * d
  {
    var gap := r' - r;
    assert r' * d - r * d == gap * d;
    assert gap * d == d + (gap - 1) * d;
    if gap >= 2 {
      assert (gap - 1) * d == d + (gap - 2) * d;
    }
  }

  lemma HalfEvenIsNearest(n: nat, d: nat)
    requires d > 0
    ensures NearestEven(n, d, HalfEven(n, d))
  {
    var q, m := n / d, n % d;
    assert n == q * d + m;
    assert (q + 1) * d == q * d + d;
  }

  lemma NearestEvenNegated(c: int, d: nat, r: int)
    requires NearestEven(c, d, r)
    ensures NearestEven(-c, d, -r)
  {
    assert -c - (-r) * d == -(c - r * d);
  }

  /** The rounding computed by quotient and remainder is exactly the nearest-even integer. */
  lemma RoundingIsNearestEven(c: int, d: nat, r: int)
    requires d > 0
    ensures RoundCoefficient(c, d) == r <==> NearestEven(c, d, r)
  {
    HalfEvenIsNearest(Abs(c), d);
    if c < 0 {
      NearestEvenNegated(-c, d, HalfEven(-c, d));
    }
    if NearestEven(c, d, r) {
      NearestEvenUnique(c, d, RoundCoefficient(c, d), r);
    }
  }

  /** The nearest integer, the even one on a tie, has at least the given magnitude. */
  ghost predicate RoundsBeyond(c: int, d: nat, limit: nat)
    requires d > 0
  {
    exists n :: NearestEven(c, d, n) && Abs(n) >= limit
  }

  lemma RoundsBeyondDecides(c: int, d: nat, limit: nat)
    requires d > 0
    ensures RoundsBeyond(c, d, limit) <==> Abs(RoundCoefficient(c, d)) >= limit
  {
    RoundingIsNearestEven(c, d, RoundCoefficient(c, d));
    forall n | NearestEven(c, d, n) ensures n == RoundCoefficient(c, d) {
      RoundingIsNearestEven(c, d, n);
    }
  }

  /** `source.quantize(Decimal(1).scaleb(e))`; nothing when the result exceeds the precision. */
  function Quantize(source: Decimal, e: int): (r: Option<Decimal>)
    requires source.exponent < e
  {
    var c := RoundCoefficient(source.coefficient, Pow10(e - source.exponent));
    if Abs(c) < Pow10(PRECISION) then Some(Decimal(c, e)) else None
  }

  /** `r` is `source` rounded half to even at the exponent of `r`. */
  predicate Rounds(source: Decimal, r: Decimal) {
    source.exponent < r.exponent
    && NearestEven(source.coefficient, Pow10(r.exponent - source.exponent), r.coefficient)
  }

  lemma QuantizeRounds(source: Decimal, r: Decimal)
    requires source.exponent < r.exponent && Quantize(source, r.exponent).Some?
    ensures Quantize(source, r.exponent) == Some(r) <==> Rounds(source, r)
  {
    RoundingIsNearestEven(source.coefficient, Pow10(r.exponent - source.exponent), r.coefficient);
  }

  lemma RoundsUnique(source: Decimal, r: Decimal, r': Decimal)
    requires Rounds(source, r) && Rounds(source, r') && r.exponent == r'.exponent
    ensures r == r'
  {
    NearestEvenUnique(source.coefficient, Pow10(r.exponent - source.exponent), r.coefficient, r'.coefficient);
  }

  // ----- relative error -----

  /** The error is at most five millionths of `r`. */
  predicate RelativelyClose(source: Decimal, r: Decimal)
    requires source.exponent <= r.exponent
  {
    200000 * Abs(source.coefficient - Units(r, source.exponent)) <= Abs(Units(r, source.exponent))
  }

  lemma SixDigitsClose(source: Decimal, r: Decimal)
    requires Rounds(source, r) && Abs(r.coefficient) >= 100000
    ensures RelativelyClose(source, r)
  {
    LargeMultiple(r.coefficient, Pow10(r.exponent - source.exponent));
  }

  lemma LargeMultiple(c: int, d: nat)
    requires Abs(c) >= 100000
    ensures Abs(c * d) >= 100000 * d
  {
    if c > 0 {
      assert c * d == 100000 * d + (c - 100000) * d;
    } else {
      assert -c * d == 100000 * d + (-c - 100000) * d;
    }
  }

  /** The source almost half a unit above `r`. */
  function AlmostMidway(r: Decimal): Decimal {
    Decimal(1000000 * r.coefficient + 499999, r.exponent - 6)
  }

  lemma AlmostMidwayFar(r: Decimal)
    ensures Rounds(AlmostMidway(r), r)
    ensures Abs(r.coefficient) < 100000 ==> !RelativelyClose(AlmostMidway(r), r)
  {
    assert Pow10(6) == 1000000;
  }

  /** Every source that rounds to `r` is within five millionths of it exactly when `r` has six digits. */
  lemma RelativeErrorBound(r: Decimal)
    ensures (forall source :: Rounds(source, r) ==> RelativelyClose(source, r)) <==> Abs(r.coefficient) >= 100000
  {
    if Abs(r.coefficient) >= 100000 {
      forall source | Rounds(source, r) ensures RelativelyClose(source, r) {
        SixDigitsClose(source, r);
      }
    } else {
      AlmostMidwayFar(r);
    }
  }

  // ----- digits of a numeral of magnitude at least one -----

  function LeadingStripped(s: string): string {
    if s != "" && (s[0] == '+' || s[0] == '-' || s[0] == '0') then LeadingStripped(s[1..]) else s
  }

  function WithoutPoints(s: string): string {
    if s == "" then "" else (if s[0] == '.' then "" else [s[0]]) + WithoutPoints(s[1..])
  }

  lemma TimesTen(x: int, y: int)
    ensures x * (10 * y) == 10 * (x * y)
  {}

  lemma DigitsSnoc(s: string, c: char)
    requires AllDigits(s) && IsDigit(c)
    ensures AllDigits(s + [c]) && DigitsValue(s + [c]) == 10 * DigitsValue(s) + (c as int - '0' as int)
  {
    assert (s + [c])[..|s|] == s;
  }

  lemma {:induction false} DigitsConcat(a: string, b: string)
    requires AllDigits(a) && AllDigits(b)
    ensures AllDigits(a + b)
    ensures DigitsValue(a + b) == DigitsValue(a) * Pow10(|b|) + DigitsValue(b)
    ensures DigitsValue(b) < Pow10(|b|)
  {
    if b == "" {
      assert a + b == a;
    } else {
      var init := b[..|b| - 1];
      var c := b[|b| - 1];
      DigitsConcat(a, init);
      DigitsSnoc(init, c);
      DigitsSnoc(a + init, c);
      assert b == init + [c] && a + b == (a + init) + [c];
      TimesTen(DigitsValue(a), Pow10(|init|));
    }
  }

  lemma {:induction false} PointFree(s: string)
    requires AllDigits(s)
    ensures WithoutPoints(s) == s
  {
    if s != "" {
      PointFree(s[1..]);
    }
  }

  lemma {:induction false} PointRemoved(a: string, b: string)
    requires AllDigits(a) && AllDigits(b)
    ensures WithoutPoints(a + "." + b) == a + b
  {
    if a == "" {
      PointFree(b);
      assert (a + "." + b)[1..] == b;
    } else {
      PointRemoved(a[1..], b);
      assert (a + "." + b)[1..] == a[1..] + "." + b;
    }
  }

  /** After the leading zeros, a numeral with a non-zero whole part has as many digits as its value. */
  lemma {:induction false} StrippedMagnitude(whole: string, fraction: string)
    requires AllDigits(whole) && AllDigits(fraction) && DigitsValue(whole) > 0
    ensures AllDigits(whole + fraction)
    ensures var n := |WithoutPoints(LeadingStripped(whole + "." + fraction))|;
            n > 0 && DigitsValue(whole + fraction) >= Pow10(n - 1)
  {
    DigitsConcat(whole, fraction);
    LeadingDigit(whole);
    LeadingDigit(whole + fraction);
    if whole[0] == '0' {
      LeadingZero(whole, fraction);
      StrippedMagnitude(whole[1..], fraction);
    } else {
      PointRemoved(whole, fraction);
    }
  }

  lemma LeadingZero(whole: string, fraction: string)
    requires whole != "" && whole[0] == '0'
    ensures LeadingStripped(whole + "." + fraction) == LeadingStripped(whole[1..] + "." + fraction)
    ensures (whole + fraction)[1..] == whole[1..] + fraction
  {
    assert (whole + "." + fraction)[1..] == whole[1..] + "." + fraction;
  }

  lemma {:induction false} LeadingDigit(s: string)
    requires AllDigits(s) && s != ""
    ensures s[0] == '0' ==> DigitsValue(s) == DigitsValue(s[1..])
    ensures s[0] != '0' ==> DigitsValue(s) >= Pow10(|s| - 1)
  {
    if |s| > 1 {
      var init := s[..|s| - 1];
      LeadingDigit(init);
      assert s[1..][..|s[1..]| - 1] == init[1..];
    }
  }
}
