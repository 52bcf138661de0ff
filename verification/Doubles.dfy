/**
Double-precision numbers as section 3.3 of IEEE 754-2008 lists them, and
rounding to the nearest as section 4.3.1 defines it, on the real numbers.
*/
module Doubles {

  function Two(e: int): real
    decreases if e < 0 then -e else e
  {
    if e == 0 then 1.0 else if e > 0 then 2.0 * Two(e - 1) else Two(e + 1) / 2.0
  }

  const FULL: int := 0x10_0000_0000_0000
  const SIGNIFICANDS: int := 0x20_0000_0000_0000

  function Mul(a: real, b: real): real {
    a * b
  }

  function Div(a: real, b: real): real
    requires b > 0.0
  {
    a / b
  }

  /** `m` units of the last place at exponent `e`. */
  function Units(m: int, e: int): real {
    Mul(m as real, Two(e))
  }

  /** A finite double: 53 bits of significand, exponents from -1074 to 971. */
  ghost predicate IsDouble(x: real) {
    exists m: int, e: int :: Made(x, m, e)
  }

  predicate Made(x: real, m: int, e: int) {
    -SIGNIFICANDS < m < SIGNIFICANDS && -1074 <= e <= 971 && x == Units(m, e)
  }

  function Distance(x: real, y: real): real {
    if x < y then y - x else x - y
  }

  /** No double is nearer to `x` than `y`. */
  ghost predicate Nearest(x: real, y: real) {
    IsDouble(y) && forall z | IsDouble(z) :: Distance(x, y) <= Distance(x, z)
  }

  // ----- products

  lemma Commutes(a: real, b: real)
    ensures Mul(a, b) == Mul(b, a)
  {
  }

  lemma Twice(a: real, b: real)
    ensures Mul(a, 2.0 * b) == 2.0 * Mul(a, b) == Mul(2.0 * a, b)
  {
  }

  lemma Associates(a: real, b: real, c: real)
    ensures Mul(a, Mul(b, c)) == Mul(Mul(a, b), c)
  {
    assert a * (b * c) == (a * b) * c;
  }

  lemma LessBy(a: real, b: real, t: real)
    requires t > 0.0
    ensures a < b <==> Mul(a, t) < Mul(b, t)
    ensures Mul(b, t) - Mul(a, t) == Mul(b - a, t)
  {
    assert b * t - a * t == (b - a) * t;
    if a < b { assert (b - a) * t > 0.0; }
    if b < a { assert (a - b) * t > 0.0; }
  }

  lemma DivBack(a: real, t: real)
    requires t > 0.0
    ensures Mul(Div(a, t), t) == a
  {
  }

  lemma {:induction false} RealProduct(m: int, p: nat)
    ensures (m * p) as real == Mul(m as real, p as real)
  {
    if p > 0 {
      RealProduct(m, p - 1);
      assert m * p == m * (p - 1) + m;
      var a, b := m as real, (p - 1) as real;
      assert a * (b + 1.0) == a * b + a;
    }
  }

  // ----- powers of two

  lemma {:induction false} TwoPositive(e: int)
    ensures Two(e) > 0.0
    decreases if e < 0 then -e else e
  {
    if e > 0 { TwoPositive(e - 1); }
    if e < 0 { TwoPositive(e + 1); }
  }

  lemma TwoNext(e: int)
    ensures Two(e + 1) == 2.0 * Two(e)
  {
  }

  lemma {:induction false} TwoAdd(a: int, b: int)
    ensures Two(a + b) == Mul(Two(a), Two(b))
    decreases if b < 0 then -b else b
  {
    if b > 0 {
      TwoAdd(a, b - 1);
      TwoNext(a + b - 1);
      Twice(Two(a), Two(b - 1));
    } else if b < 0 {
      TwoAdd(a, b + 1);
      TwoNext(a + b);
      TwoNext(b);
      Twice(Two(a), Two(b));
    }
  }

  lemma {:induction false} TwoMonotone(a: int, b: int)
    requires a <= b
    ensures Two(a) <= Two(b)
    decreases b - a
  {
    if a < b {
      TwoMonotone(a, b - 1);
      TwoNext(b - 1);
      TwoPositive(b - 1);
    }
  }

  /** A power of two as an integer. */
  function Pow(k: nat): (p: nat) {
    if k == 0 then 1 else 2 * Pow(k - 1)
  }

  lemma {:induction false} TwoIsPow(k: nat)
    ensures Two(k) == Pow(k) as real
  {
    if k > 0 { TwoIsPow(k - 1); }
  }

  lemma TwoSignificands()
    ensures Two(52) == FULL as real && Two(53) == SIGNIFICANDS as real
  {
    assert Pow(13) == 8192;
    PowAdd(13, 13);
    PowAdd(26, 26);
    TwoIsPow(52);
    TwoNext(52);
  }

  lemma {:induction false} PowAdd(a: nat, b: nat)
    ensures Pow(a + b) == Pow(a) * Pow(b)
  {
    if b > 0 {
      PowAdd(a, b - 1);
      DoubledProduct(Pow(a), Pow(b - 1));
    }
  }

  lemma DoubledProduct(x: int, y: int)
    ensures x * (2 * y) == 2 * (x * y)
  {
  }

  // ----- doubles

  /** Every integer up to 2^53 is a double. */
  lemma IntegersAreDoubles(n: int)
    requires -SIGNIFICANDS <= n <= SIGNIFICANDS
    ensures IsDouble(n as real)
  {
    if -SIGNIFICANDS < n < SIGNIFICANDS {
      assert Made(n as real, n, 0);
    } else {
      var half := n / 2;
      assert n == 2 * half;
      assert Two(1) == 2.0;
      assert Made(n as real, half, 1);
    }
  }

  lemma Negated(x: real)
    requires IsDouble(x)
    ensures IsDouble(-x)
  {
    var m: int, e: int :| Made(x, m, e);
    assert (-m) as real * Two(e) == -(m as real * Two(e));
    assert Made(-x, -m, e);
  }

  /** A nearest double lies between any doubles around. */
  lemma Between(x: real, y: real, low: real, high: real)
    requires Nearest(x, y) && IsDouble(low) && IsDouble(high) && low <= x <= high
    ensures low <= y <= high
  {
    assert Distance(x, y) <= Distance(x, low) && Distance(x, y) <= Distance(x, high);
  }

  /** What is a double rounds to itself. */
  lemma DoubleStays(x: real, y: real)
    requires Nearest(x, y) && IsDouble(x)
    ensures y == x
  {
    assert Distance(x, y) <= Distance(x, x);
  }

  // ----- rounding

  /** The nearest integer, and the even one of two. */
  function RoundHalfEven(u: real): int {
    var f := u.Floor;
    var part := u - f as real;
    if part < 0.5 then f else if part > 0.5 then f + 1 else if f % 2 == 0 then f else f + 1
  }

  lemma RoundsNearest(u: real, k: int)
    ensures Distance(u, RoundHalfEven(u) as real) <= Distance(u, k as real)
    ensures Distance(u, RoundHalfEven(u) as real) == Distance(u, k as real) && k != RoundHalfEven(u)
            ==> RoundHalfEven(u) % 2 == 0
  {
    var f := u.Floor;
    assert f as real <= u < (f + 1) as real;
    if k <= f { assert k as real <= f as real; } else { assert k as real >= (f + 1) as real; }
  }

  /** The exponent at which `x` has a full significand. */
  predicate Binade(x: real, e: int) {
    Units(FULL, e) <= x < Units(SIGNIFICANDS, e)
  }

  lemma NextBinade(e: int)
    ensures Units(SIGNIFICANDS, e) == Units(FULL, e + 1)
  {
    TwoNext(e);
    Twice(FULL as real, Two(e));
  }

  lemma {:induction false} HasBinade(x: real, low: int, high: int)
    requires low <= high && Units(FULL, low) <= x < Units(SIGNIFICANDS, high)
    ensures exists e :: low <= e <= high && Binade(x, e)
    decreases high - low
  {
    if low < high && x < Units(FULL, high) {
      NextBinade(high - 1);
      HasBinade(x, low, high - 1);
      var e :| low <= e <= high - 1 && Binade(x, e);
      assert low <= e <= high && Binade(x, e);
    } else {
      assert Binade(x, high);
    }
  }

  /** The numbers whose rounding this needs: no overflow and no subnormals. */
  predicate InRange(x: real) {
    Units(FULL, -106) <= x < Units(SIGNIFICANDS, 0)
  }

  ghost function ExponentOf(x: real): (e: int)
    requires InRange(x)
    ensures -106 <= e <= 0 && Binade(x, e)
  {
    HasBinade(x, -106, 0);
    var e :| -106 <= e <= 0 && Binade(x, e);
    e
  }

  /** How many units of its binade a number is. */
  function UnitsIn(x: real, e: int): real {
    TwoPositive(e);
    Div(x, Two(e))
  }

  /** Rounding to nearest, ties to even, of a positive number. */
  ghost function RoundPositive(x: real): real
    requires InRange(x)
  {
    Units(RoundHalfEven(UnitsIn(x, ExponentOf(x))), ExponentOf(x))
  }

  ghost function Round(x: real): real
    requires x == 0.0 || InRange(x) || InRange(-x)
  {
    if x == 0.0 then 0.0 else if InRange(x) then RoundPositive(x) else -RoundPositive(-x)
  }

  /** What is nearer in units is nearer. */
  lemma {:induction false} DistanceInUnits(x: real, e: int, k: int)
    ensures Distance(x, Units(k, e)) == Mul(Distance(UnitsIn(x, e), k as real), Two(e))
    ensures Units(k, e) <= x <==> k as real <= UnitsIn(x, e)
  {
    TwoPositive(e);
    var u := UnitsIn(x, e);
    DivBack(x, Two(e));
    LessBy(u, k as real, Two(e));
    LessBy(k as real, u, Two(e));
  }

  lemma NearerInUnits(x: real, e: int, m: int, k: int)
    requires m == RoundHalfEven(UnitsIn(x, e))
    ensures Distance(x, Units(m, e)) <= Distance(x, Units(k, e))
  {
    TwoPositive(e);
    var u := UnitsIn(x, e);
    RoundsNearest(u, k);
    DistanceInUnits(x, e, m);
    DistanceInUnits(x, e, k);
    LessBy(Distance(u, k as real), Distance(u, m as real), Two(e));
  }

  lemma Significand(x: real, e: int)
    requires Binade(x, e)
    ensures FULL <= RoundHalfEven(UnitsIn(x, e)) <= SIGNIFICANDS
  {
    var u := UnitsIn(x, e);
    DistanceInUnits(x, e, FULL);
    DistanceInUnits(x, e, SIGNIFICANDS);
    var f := u.Floor;
    assert f as real <= u < (f + 1) as real;
  }

  lemma FullSignificandIsDouble(m: int, e: int)
    requires FULL <= m <= SIGNIFICANDS && -1074 <= e < 971
    ensures IsDouble(Units(m, e))
  {
    if m < SIGNIFICANDS {
      assert Made(Units(m, e), m, e);
    } else {
      NextBinade(e);
      assert Made(Units(m, e), FULL, e + 1);
    }
  }

  /** A double with a coarser exponent is a whole number of units. */
  lemma CoarserIsWhole(m: int, f: int, e: int)
    requires e <= f
    ensures Units(m, f) == Units(m * Pow(f - e), e)
  {
    var p := Pow(f - e);
    TwoAdd(e, f - e);
    TwoIsPow(f - e);
    RealProduct(m, p);
    Commutes(Two(e), p as real);
    Associates(m as real, p as real, Two(e));
  }

  /** One with a finer exponent is below the binade. */
  lemma FinerIsBelow(m: int, f: int, e: int)
    requires m < SIGNIFICANDS && f < e
    ensures Units(m, f) < Units(FULL, e)
  {
    TwoPositive(f);
    TwoMonotone(f, e - 1);
    NextBinade(e - 1);
    LessBy(m as real, SIGNIFICANDS as real, Two(f));
    assert Mul(SIGNIFICANDS as real, Two(f)) <= Mul(SIGNIFICANDS as real, Two(e - 1));
  }

  lemma NoneNearer(x: real, e: int, m: int, n: int, f: int)
    requires Binade(x, e) && m == RoundHalfEven(UnitsIn(x, e)) && n < SIGNIFICANDS
    ensures Distance(x, Units(m, e)) <= Distance(x, Units(n, f))
  {
    if e <= f {
      CoarserIsWhole(n, f, e);
      NearerInUnits(x, e, m, n * Pow(f - e));
    } else {
      NearerInUnits(x, e, m, FULL);
      FinerIsBelow(n, f, e);
    }
  }

  lemma NearestAt(x: real, e: int, m: int)
    requires Binade(x, e) && -106 <= e <= 0 && m == RoundHalfEven(UnitsIn(x, e))
    ensures Nearest(x, Units(m, e))
  {
    Significand(x, e);
    FullSignificandIsDouble(m, e);
    forall z | IsDouble(z) ensures Distance(x, Units(m, e)) <= Distance(x, z) {
      var n: int, f: int :| Made(z, n, f);
      NoneNearer(x, e, m, n, f);
    }
  }

  /** Rounding gives a nearest double. */
  lemma RoundNearest(x: real)
    requires x == 0.0 || InRange(x) || InRange(-x)
    ensures Nearest(x, Round(x))
  {
    if x == 0.0 {
      IntegersAreDoubles(0);
    } else if InRange(x) {
      NearestAt(x, ExponentOf(x), RoundHalfEven(UnitsIn(x, ExponentOf(x))));
    } else {
      NearestAt(-x, ExponentOf(-x), RoundHalfEven(UnitsIn(-x, ExponentOf(-x))));
      NegatedNearest(-x, RoundPositive(-x));
    }
  }

  lemma NegatedNearest(x: real, y: real)
    requires Nearest(x, y)
    ensures Nearest(-x, -y)
  {
    Negated(y);
    forall z | IsDouble(z) ensures Distance(-x, -y) <= Distance(-x, z) {
      Negated(z);
      assert Distance(x, y) <= Distance(x, -z);
    }
  }

  // ----- floors

  /** `x` is a fraction of integers below 2^53 whose divisor is `d` in magnitude:
      far enough from the next integer, and not too large. */
  predicate Fraction(x: real, d: real, next: int) {
    && d >= 1.0 && x < next as real <= x + 1.0
    && -SIGNIFICANDS < next <= SIGNIFICANDS
    && Mul(next as real - x, d) >= 1.0
    && Mul(if x < 0.0 then -x else x, d) < SIGNIFICANDS as real
  }

  lemma {:induction false} GapBeatsHalf(gap: real, d: real, size: real, e: int)
    requires d >= 1.0 && Mul(gap, d) >= 1.0 && Mul(size, d) < SIGNIFICANDS as real && size >= Units(FULL, e)
    ensures gap > Two(e) / 2.0
  {
    TwoPositive(e);
    var t := Two(e);
    LessBy(size, Units(FULL, e), d);
    Associates(FULL as real, t, d);
    assert Mul(FULL as real, Mul(t, d)) < SIGNIFICANDS as real;
    assert Mul(t, d) < 2.0;
    assert Mul(t / 2.0, d) == Mul(t, d) / 2.0;
    LessBy(t / 2.0, gap, d);
  }

  /** Integers have a place on the grid of any finer exponent. */
  lemma OnGrid(n: int, e: int)
    requires e <= 0
    ensures n as real == Units(n * Pow(-e), e)
  {
    CoarserIsWhole(n, 0, e);
  }

  lemma {:induction false} NextOnGrid(k: int, e: int)
    ensures Units(k + 1, e) == Units(k, e) + Two(e)
  {
    var a := k as real;
    assert (k + 1) as real == a + 1.0;
    assert (a + 1.0) * Two(e) == a * Two(e) + Two(e);
  }

  lemma OneInRange()
    ensures Units(FULL, -52) == 1.0 && Units(SIGNIFICANDS, -53) == 1.0
  {
    TwoSignificands();
    TwoAdd(52, -52);
    TwoAdd(53, -53);
  }

  /** Below a positive integer there is a double nearer to `x`. */
  lemma NearerBelowPositive(x: real, d: real, next: int) returns (z: real)
    requires Fraction(x, d, next) && next >= 1
    ensures IsDouble(z) && Distance(x, z) < next as real - x
  {
    OneInRange();
    var n := next as real;
    var e := BinadeBelow(n, -53, 0);
    var k := next * Pow(-e);
    OnGrid(next, e);
    NextOnGrid(k - 1, e);
    z := Units(k - 1, e);
    TwoPositive(e);
    LessBy(FULL as real, k as real, Two(e));
    LessBy(SIGNIFICANDS as real, k as real, Two(e));
    FullSignificandIsDouble(k - 1, e);
    if x > z {
      LessBy((k - 1) as real, FULL as real, Two(e));
      GapBeatsHalf(n - x, d, x, e);
    }
  }

  /** An exponent whose binade ends at or after `x` and starts before it. */
  lemma {:induction false} BinadeBelow(x: real, low: int, high: int) returns (e: int)
    requires low <= high && Units(FULL, low) < x <= Units(SIGNIFICANDS, high)
    ensures low <= e <= high && Units(FULL, e) < x <= Units(SIGNIFICANDS, e)
    decreases high - low
  {
    if low < high && x <= Units(FULL, high) {
      NextBinade(high - 1);
      e := BinadeBelow(x, low, high - 1);
    } else {
      e := high;
    }
  }

  /** Below a negative integer too. */
  lemma NearerBelowNegative(x: real, d: real, next: int) returns (z: real)
    requires Fraction(x, d, next) && next <= -1
    ensures IsDouble(z) && Distance(x, z) < next as real - x
  {
    OneInRange();
    var size := (-next) as real;
    HasBinade(size, -52, 0);
    var e :| -52 <= e <= 0 && Binade(size, e);
    var k := -next * Pow(-e);
    OnGrid(-next, e);
    NextOnGrid(k, e);
    TwoPositive(e);
    LessBy(k as real, FULL as real, Two(e));
    LessBy(k as real, SIGNIFICANDS as real, Two(e));
    FullSignificandIsDouble(k + 1, e);
    Negated(Units(k + 1, e));
    z := -Units(k + 1, e);
    if x > z { GapBeatsHalf(next as real - x, d, -x, e); }
  }

  /** And below zero, where doubles crowd. */
  lemma NearerBelowZero(x: real, d: real) returns (z: real)
    requires Fraction(x, d, 0) && d < SIGNIFICANDS as real
    ensures IsDouble(z) && Distance(x, z) < -x
  {
    TinyInRange(-x, d);
    var e := ExponentOf(-x);
    NextBinade(e);
    TwoPositive(e);
    Twice(FULL as real, Two(e));
    FullSignificandIsDouble(FULL, e);
    Negated(Units(FULL, e));
    z := -Units(FULL, e);
    LessBy(0.0, FULL as real, Two(e));
    assert Mul(0.0, Two(e)) == 0.0;
  }

  lemma {:induction false} UnitsShift(m: int, e: int, f: int)
    ensures Units(m, e + f) == Mul(Units(m, e), Two(f))
  {
    TwoAdd(e, f);
    Associates(m as real, Two(e), Two(f));
  }

  /** The smallest fraction is far from being subnormal. */
  lemma TinyInRange(x: real, d: real)
    requires 1.0 <= d < SIGNIFICANDS as real && Mul(x, d) >= 1.0 && 0.0 < x <= 1.0
    ensures InRange(x)
  {
    OneInRange();
    AboveTiny(x, d, -53);
    UnitsShift(SIGNIFICANDS, -53, -53);
    HalfUnits(-106);
    assert Units(SIGNIFICANDS, 0) == SIGNIFICANDS as real;
  }

  lemma HalfUnits(e: int)
    ensures 0.0 < Units(FULL, e) < Units(SIGNIFICANDS, e)
  {
    TwoPositive(e);
    Twice(FULL as real, Two(e));
    LessBy(0.0, FULL as real, Two(e));
  }

  lemma {:induction false} AboveTiny(x: real, d: real, e: int)
    requires 1.0 <= d < SIGNIFICANDS as real && Mul(x, d) >= 1.0 && Units(SIGNIFICANDS, e) == 1.0
    ensures x > Two(e) && Mul(1.0, Two(e)) == Two(e)
  {
    TwoPositive(e);
    LessBy(d, SIGNIFICANDS as real, Two(e));
    Commutes(d, Two(e));
    LessBy(Two(e), x, d);
  }

  /** A nearest double of such a fraction never reaches the next integer, so its
      floor is the fraction's. */
  lemma FloorStays(x: real, d: real, next: int, y: real)
    requires Fraction(x, d, next) && d < SIGNIFICANDS as real && Nearest(x, y)
    ensures (next - 1) as real <= y < next as real && y.Floor == next - 1
  {
    IntegersAreDoubles(next);
    IntegersAreDoubles(next - 1);
    Between(x, y, (next - 1) as real, next as real);
    var z;
    if next >= 1 {
      z := NearerBelowPositive(x, d, next);
    } else if next <= -1 {
      z := NearerBelowNegative(x, d, next);
    } else {
      z := NearerBelowZero(x, d);
    }
    assert Distance(x, y) <= Distance(x, z);
  }
}
