/**
Lua 5.1 arithmetic on exact integers (crates/tpf3mp-canon/src/lua.rs and
crates/tpf3mp-canon/src/lib.rs): integer code that either answers what Lua's
doubles give or refuses.
*/
module LuaNumbers {
  import opened Protocol
  import opened Doubles

  const I64_MIN: int := -0x8000_0000_0000_0000
  const I64_MAX: int := 0x7FFF_FFFF_FFFF_FFFF
  const MAX_EXACT: int := 0x1F_FFFF_FFFF_FFFF

  type I64 = n: int | -0x8000_0000_0000_0000 <= n <= 0x7FFF_FFFF_FFFF_FFFF

  function Checked(n: int): Option<I64> {
    if I64_MIN <= n <= I64_MAX then Some(n) else None
  }

  function Abs(n: int): nat {
    if n < 0 then -n else n
  }

  predicate Exactly(n: int) {
    Abs(n) <= MAX_EXACT
  }

  function Exact(n: I64): Option<I64> {
    if Exactly(n) then Some(n) else None
  }

  function Divided(x: nat, y: nat): int
    requires y > 0
  {
    x / y
  }

  function Left(x: nat, y: nat): int
    requires y > 0
  {
    x % y
  }

  /** Division that truncates toward zero, as the machine divides. */
  function Quotient(a: int, b: int): int
    requires b != 0
  {
    if (a < 0) == (b < 0) then Divided(Abs(a), Abs(b)) else -Divided(Abs(a), Abs(b))
  }

  function Remainder(a: int, b: int): int
    requires b != 0
  {
    if a < 0 then -Left(Abs(a), Abs(b)) else Left(Abs(a), Abs(b))
  }

  function CheckedDiv(a: I64, b: I64): Option<I64> {
    if b == 0 then None else Checked(Quotient(a, b))
  }

  /** The remainder is refused where the quotient overflows. */
  function CheckedRem(a: I64, b: I64): Option<I64> {
    if b == 0 || Checked(Quotient(a, b)).None? then None else Checked(Remainder(a, b))
  }

  function Add(a: I64, b: I64): Option<I64> {
    if Exact(a).None? || Exact(b).None? then None
    else match Checked(a + b) case None => None case Some(n) => Exact(n)
  }

  function Sub(a: I64, b: I64): Option<I64> {
    if Exact(a).None? || Exact(b).None? then None
    else match Checked(a - b) case None => None case Some(n) => Exact(n)
  }

  function Mul64(a: I64, b: I64): Option<I64> {
    if Exact(a).None? || Exact(b).None? then None
    else match Checked(a * b) case None => None case Some(n) => Exact(n)
  }

  function FloorDivAny(a: I64, b: I64): Option<I64> {
    var quotient, remainder := CheckedDiv(a, b), CheckedRem(a, b);
    if quotient.None? || remainder.None? then None
    else if remainder.value != 0 && (remainder.value < 0) != (b < 0) then Checked(quotient.value - 1)
    else Some(quotient.value)
  }

  function FloorDiv(a: I64, b: I64): Option<I64> {
    if Exact(a).None? || Exact(b).None? then None else FloorDivAny(a, b)
  }

  function Modulo(a: I64, b: I64): Option<I64> {
    if Exact(a).None? || Exact(b).None? then None
    else
      var sum := Checked(Abs(a) + Abs(b));
      if sum.None? || Exact(sum.value).None? then None
      else
        var remainder := CheckedRem(a, b);
        if remainder.None? then None
        // A remainder is smaller than the divisor, so adding it cannot overflow.
        else if remainder.value != 0 && (remainder.value < 0) != (b < 0) then Checked(remainder.value + b)
        else Some(remainder.value)
  }

  function MulDivFloor(amount: I64, numerator: I64, denominator: I64): Option<I64> {
    if denominator == 0 then None
    else
      var product := amount * numerator;
      var quotient := Quotient(product, denominator);
      Checked(if Remainder(product, denominator) != 0 && (product < 0) != (denominator < 0) then quotient - 1
              else quotient)
  }

  // ----- floors

  /** `q` is the floor of `a` over `b`, said without dividing. */
  predicate IsFloor(a: int, b: int, q: int) {
    if b > 0 then q * b <= a < q * b + b else q * b >= a > q * b + b
  }

  function Times(a: int, b: int): int {
    a * b
  }

  lemma DivMod(a: int, b: int)
    requires b != 0
    ensures a == Times(Quotient(a, b), b) + Remainder(a, b)
    ensures Abs(Remainder(a, b)) < Abs(b) && (Remainder(a, b) != 0 ==> (Remainder(a, b) < 0) == (a < 0))
  {
    var x, y := Abs(a), Abs(b);
    DivModNat(x, y);
    TimesSigns(Divided(x, y), y);
  }

  lemma DivModNat(x: nat, y: nat)
    requires y > 0
    ensures x == Times(Divided(x, y), y) + Left(x, y) && 0 <= Left(x, y) < y
  {
  }

  lemma TimesSigns(q: int, y: int)
    ensures Times(-q, y) == -Times(q, y) == Times(q, -y) && Times(-q, -y) == Times(q, y)
  {
  }

  /** The code's correction of truncation is flooring. */
  lemma Corrected(a: int, b: int)
    requires b != 0
    ensures var q, r := Quotient(a, b), Remainder(a, b);
            && IsFloor(a, b, if r != 0 && (r < 0) != (b < 0) then q - 1 else q)
            && (r != 0 ==> ((r < 0) != (b < 0) <==> (a < 0) != (b < 0)))
  {
    DivMod(a, b);
    var q := Quotient(a, b);
    assert (q - 1) * b == q * b - b;
  }

  lemma FloorUnique(a: int, b: int, p: int, q: int)
    requires b != 0 && IsFloor(a, b, p) && IsFloor(a, b, q)
    ensures p == q
  {
    var d := p - q;
    assert p * b - q * b == d * b && (-d) * b == -(d * b);
    if d >= 1 { AtLeastOnce(d, b); }
    if d <= -1 { AtLeastOnce(-d, b); }
  }

  lemma AtLeastOnce(d: int, b: int)
    requires d >= 1 && b != 0
    ensures if b > 0 then d * b >= b else d * b <= b
  {
    var more := d - 1;
    assert d * b == more * b + b;
    if b > 0 { assert more * b >= 0; } else { assert more * b <= 0; }
  }

  lemma QuotientSmall(a: int, b: int)
    requires b != 0
    ensures Abs(Quotient(a, b)) <= Abs(a)
  {
    var x, y := Abs(a), Abs(b);
    var q := x / y;
    assert x == q * y + x % y;
    if q >= 1 { AtLeastOnce(y, q); assert y * q == q * y; }
  }

  /** Division is refused only for a zero divisor, or where the quotient overflows;
      and is the floor otherwise. */
  lemma FloorDivAnyIs(a: I64, b: I64)
    ensures FloorDivAny(a, b).None? <==> b == 0 || (a == I64_MIN && b == -1)
    ensures FloorDivAny(a, b).Some? ==> IsFloor(a, b, FloorDivAny(a, b).value)
  {
    if b != 0 {
      Corrected(a, b);
      DivMod(a, b);
      QuotientSmall(a, b);
      if b == -1 || b == 1 { UnitQuotient(a, b); } else { HalvedQuotient(a, b); }
    }
  }

  lemma UnitQuotient(a: int, b: int)
    requires b == 1 || b == -1
    ensures Quotient(a, b) == a * b && Remainder(a, b) == 0
  {
    assert Abs(a) / 1 == Abs(a) && Abs(a) % 1 == 0;
  }

  lemma HalvedQuotient(a: int, b: int)
    requires Abs(b) >= 2
    ensures 2 * Abs(Quotient(a, b)) <= Abs(a)
  {
    var x, y := Abs(a), Abs(b);
    var q := x / y;
    TwiceAtMost(q, y);
    assert x == q * y + x % y;
  }

  lemma TwiceAtMost(q: nat, y: nat)
    requires y >= 2
    ensures 2 * q <= q * y
  {
    var more := y - 2;
    assert q * y == q * 2 + q * more;
  }

  // ----- Lua

  /** The fraction of two exact integers, as a real number. */
  function Ratio(a: int, b: int): real
    requires b != 0
  {
    Div(if b > 0 then a as real else -(a as real), Abs(b) as real)
  }

  lemma RatioIsFraction(a: int, b: int, q: int)
    requires Exactly(a) && Exactly(b) && b != 0 && IsFloor(a, b, q)
    ensures Fraction(Ratio(a, b), Abs(b) as real, q + 1)
  {
    var n, y := if b > 0 then a else -a, Abs(b);
    TimesSigns(q, b);
    assert IsFloor(n, y, q);
    DivBack(n as real, y as real);
    FractionOf(Ratio(a, b), n, y, q);
  }

  lemma FractionOf(x: real, n: int, y: int, q: int)
    requires Exactly(n) && 1 <= y <= MAX_EXACT && IsFloor(n, y, q) && Doubles.Mul(x, y as real) == n as real
    ensures Fraction(x, y as real, q + 1)
  {
    var d := y as real;
    FloorBounds(x, n, y, q);
    FloorSmall(n, y, q);
    NegatedProduct(x, d);
    LessBy(0.0, x, d);
    assert Doubles.Mul(0.0, d) == 0.0;
  }

  lemma FloorBounds(x: real, n: int, y: int, q: int)
    requires y >= 1 && IsFloor(n, y, q) && Doubles.Mul(x, y as real) == n as real
    ensures q as real <= x < (q + 1) as real && Doubles.Mul((q + 1) as real - x, y as real) >= 1.0
  {
    var d := y as real;
    RealProduct(q, y);
    RealProduct(q + 1, y);
    assert (q + 1) * y == q * y + y;
    LessBy(x, (q + 1) as real, d);
    LessBy(x, q as real, d);
  }

  lemma NegatedProduct(x: real, d: real)
    ensures Doubles.Mul(-x, d) == -Doubles.Mul(x, d)
  {
  }

  lemma FloorSmall(n: int, y: int, q: int)
    requires y >= 1 && IsFloor(n, y, q)
    ensures if n >= 0 then 0 <= q <= n else n <= q < 0
  {
    if q >= 1 { AtLeastOnce(y, q); assert y * q == q * y; }
    if q <= -1 { AtLeastOnce(y, q); assert y * q == q * y; }
    if q + 1 <= 0 {
      assert (q + 1) * y == q * y + y;
      assert (q + 1) * y <= 0;
      if q + 1 <= -1 { AtLeastOnce(y, q + 1); assert y * (q + 1) == (q + 1) * y; }
    }
  }

  /** Whatever nearest double Lua's division gives, its floor is the integer code's
      answer; and there is one. */
  lemma FloorDivIsLua(a: I64, b: I64, y: real)
    requires Exactly(a) && Exactly(b) && b != 0 && Nearest(Ratio(a, b), y)
    ensures FloorDiv(a, b) == Some(y.Floor)
  {
    FloorDivAnyIs(a, b);
    var q := FloorDivAny(a, b).value;
    RatioIsFraction(a, b, q);
    FloorStays(Ratio(a, b), Abs(b) as real, q + 1, y);
  }

  lemma RatioRounds(a: int, b: int)
    requires Exactly(a) && Exactly(b) && b != 0
    ensures var x := Ratio(a, b); x == 0.0 || InRange(x) || InRange(-x)
  {
    var n, y := if b > 0 then a else -a, Abs(b);
    var x, d := Ratio(a, b), y as real;
    DivBack(n as real, d);
    NegatedProduct(x, d);
    var m := if n < 0 then -x else x;
    assert Doubles.Mul(m, d) == Abs(n) as real;
    assert Doubles.Mul(0.0, d) == 0.0;
    LessBy(0.0, m, d);
    LessBy(m, 0.0, d);
    if n == 0 {
      assert x == 0.0;
    } else {
      SizeInRange(m, d, Abs(n));
    }
  }

  lemma SizeInRange(m: real, d: real, n: int)
    requires 1.0 <= d < SIGNIFICANDS as real && 1 <= n < SIGNIFICANDS && Doubles.Mul(m, d) == n as real && m > 0.0
    ensures InRange(m)
  {
    OneInRange();
    AboveTiny(m, d, -53);
    UnitsShift(SIGNIFICANDS, -53, -53);
    HalfUnits(-106);
    assert Units(SIGNIFICANDS, 0) == SIGNIFICANDS as real;
    assert m <= Doubles.Mul(m, d) by { LessBy(d, 1.0, m); Commutes(d, m); assert Doubles.Mul(1.0, m) == m; }
  }

  /** Lua's `math.floor(a / b)`, rounding to nearest with ties to even. */
  lemma FloorDivIsLuaRounded(a: I64, b: I64)
    requires Exactly(a) && Exactly(b) && b != 0
    ensures var x := Ratio(a, b);
            && (x == 0.0 || InRange(x) || InRange(-x))
            && FloorDiv(a, b) == Some(Round(x).Floor)
  {
    RatioRounds(a, b);
    RoundNearest(Ratio(a, b));
    FloorDivIsLua(a, b, Round(Ratio(a, b)));
  }

  /** Sums, differences and products are answered exactly when they and their
      operands are exact, and then are what Lua's rounding leaves. */
  lemma ExactIsLua(a: I64, b: I64, y: real)
    ensures Add(a, b) == if Exactly(a) && Exactly(b) && Exactly(a + b) then Some(a + b) else None
    ensures Sub(a, b) == if Exactly(a) && Exactly(b) && Exactly(a - b) then Some(a - b) else None
    ensures Mul64(a, b) == if Exactly(a) && Exactly(b) && Exactly(a * b) then Some(a * b) else None
    ensures Add(a, b).Some? && Nearest((a + b) as real, y) ==> y == (a + b) as real
    ensures Sub(a, b).Some? && Nearest((a - b) as real, y) ==> y == (a - b) as real
    ensures Mul64(a, b).Some? && Nearest((a * b) as real, y) ==> y == (a * b) as real
  {
    ExactStays(a + b, y);
    ExactStays(a - b, y);
    ExactStays(a * b, y);
  }

  lemma ExactStays(n: int, y: real)
    ensures Exactly(n) && Nearest(n as real, y) ==> y == n as real
  {
    if Exactly(n) && Nearest(n as real, y) {
      IntegersAreDoubles(n);
      DoubleStays(n as real, y);
    }
  }

  /** What the code's correction makes of a remainder. */
  function Corrects(r: int, b: int): int {
    if r != 0 && (r < 0) != (b < 0) then r + b else r
  }

  lemma CorrectsIs(a: int, b: int, q: int)
    requires b != 0 && IsFloor(a, b, q)
    ensures Corrects(Remainder(a, b), b) == a - q * b && Abs(a - q * b) < Abs(b)
  {
    Corrected(a, b);
    DivMod(a, b);
    var p, r := Quotient(a, b), Remainder(a, b);
    FloorUnique(a, b, q, if r != 0 && (r < 0) != (b < 0) then p - 1 else p);
    assert (p - 1) * b == p * b - b;
  }

  lemma ModuloCorrects(a: I64, b: I64)
    ensures Modulo(a, b)
            == if b != 0 && Abs(a) + Abs(b) <= MAX_EXACT then Some(Corrects(Remainder(a, b), b)) else None
  {
    if b != 0 && Abs(a) + Abs(b) <= MAX_EXACT {
      DivMod(a, b);
      QuotientSmall(a, b);
    }
  }

  /** The remainder is answered exactly when the magnitudes together are exact and
      the divisor is not zero, and is `a - floor(a / b) * b`. */
  lemma ModuloIs(a: I64, b: I64)
    ensures Modulo(a, b).Some? <==> b != 0 && Abs(a) + Abs(b) <= MAX_EXACT
    ensures Modulo(a, b).Some?
            ==> FloorDiv(a, b).Some? && Modulo(a, b).value == a - FloorDiv(a, b).value * b
                && Exactly(FloorDiv(a, b).value * b) && Exactly(Modulo(a, b).value)
                && Abs(Modulo(a, b).value) < Abs(b)
  {
    ModuloCorrects(a, b);
    if b != 0 && Abs(a) + Abs(b) <= MAX_EXACT {
      FloorDivAnyIs(a, b);
      CorrectsIs(a, b, FloorDivAny(a, b).value);
    }
  }

  /** Lua's `a % b`: rounding the quotient, the product and the difference, in any
      way that is nearest, gives the integer code's answer. */
  lemma ModuloIsLua(a: I64, b: I64, quotient: real, product: real, difference: real)
    requires Modulo(a, b).Some?
    requires b != 0 && Nearest(Ratio(a, b), quotient)
    requires Nearest((quotient.Floor * b) as real, product)
    requires Nearest(a as real - product, difference)
    ensures difference == Modulo(a, b).value as real
  {
    ModuloIs(a, b);
    FloorDivIsLua(a, b, quotient);
    var p := quotient.Floor * b;
    ExactStays(p, product);
    assert a as real - product == (a - p) as real;
    ExactStays(a - p, difference);
  }

  /** Money times a fraction: refused only for a zero denominator or a result that
      does not fit, and the floor otherwise, however large the product. */
  lemma MulDivFloorIs(amount: I64, numerator: I64, denominator: I64)
    ensures MulDivFloor(amount, numerator, denominator).Some?
            ==> denominator != 0
                && IsFloor(amount * numerator, denominator, MulDivFloor(amount, numerator, denominator).value)
    ensures MulDivFloor(amount, numerator, denominator).None?
            ==> denominator == 0
                || forall q | IsFloor(amount * numerator, denominator, q) :: q < I64_MIN || q > I64_MAX
  {
    if denominator != 0 {
      var product := amount * numerator;
      Corrected(product, denominator);
      var q, r := Quotient(product, denominator), Remainder(product, denominator);
      var floor := if r != 0 && (product < 0) != (denominator < 0) then q - 1 else q;
      assert IsFloor(product, denominator, floor);
      forall p | IsFloor(product, denominator, p) ensures p == floor {
        FloorUnique(product, denominator, p, floor);
      }
    }
  }
}
