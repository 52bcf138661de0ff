/**
Machine words as the code uses them: 32-bit counters that wrap, masks, and
little-endian length prefixes.
*/
module Words {
  import opened Protocol

  /** Where a 32-bit counter wraps. */
  const WRAP: nat := 0x1_0000_0000

  function WrappingAdd(a: nat, b: nat): nat {
    (a + b) % WRAP
  }

  function WrappingSub(a: nat, b: nat): nat
    requires b < WRAP
  {
    (a + WRAP - b) % WRAP
  }

  /** Bit by bit, as the machine masks. */
  function And(a: nat, b: nat): nat
    decreases a
  {
    if a == 0 || b == 0 then 0
    else (if a % 2 == 1 && b % 2 == 1 then 1 else 0) + 2 * And(a / 2, b / 2)
  }

  function Pow2(k: nat): nat {
    if k == 0 then 1 else 2 * Pow2(k - 1)
  }

  lemma {:induction false} Pow2Positive(k: nat)
    ensures Pow2(k) >= 1
  {
    if k > 0 { Pow2Positive(k - 1); }
  }

  /** Masking with a power of two less one is the remainder by it. */
  lemma {:induction false} MaskIsRemainder(a: nat, k: nat)
    ensures Pow2(k) >= 1 && And(a, Pow2(k) - 1) == a % Pow2(k)
    decreases k
  {
    Pow2Positive(k);
    if k == 0 {
      RemainderIs(a, 1, a, 0);
    } else if a == 0 {
      RemainderIs(a, Pow2(k), 0, 0);
    } else {
      MaskIsRemainder(a / 2, k - 1);
      MaskStep(a, Pow2(k - 1));
    }
  }

  lemma {:induction false} MaskStep(a: nat, half: nat)
    requires a > 0 && half >= 1 && And(a / 2, half - 1) == (a / 2) % half
    ensures And(a, 2 * half - 1) == a % (2 * half)
  {
    HalfRemainder(a, half);
    AndOdd(a, half);
  }

  lemma AndOdd(a: nat, half: nat)
    requires a > 0 && half >= 1
    ensures And(a, 2 * half - 1) == a % 2 + 2 * And(a / 2, half - 1)
  {
    assert (2 * half - 1) / 2 == half - 1 && (2 * half - 1) % 2 == 1;
  }

  lemma HalfRemainder(a: nat, half: nat)
    requires half >= 1
    ensures a % (2 * half) == a % 2 + 2 * ((a / 2) % half)
  {
    var q, r := (a / 2) / half, (a / 2) % half;
    assert a / 2 == half * q + r;
    assert a == (2 * half) * q + (a % 2 + 2 * r);
    RemainderIs(a, 2 * half, q, a % 2 + 2 * r);
  }

  lemma AtLeast(c: int, d: int)
    requires c > 0 && d >= 1
    ensures c * d >= c
  {
  }

  lemma Subtract(c: int, x: int, y: int)
    ensures c * x - c * y == c * (x - y)
  {
  }

  lemma RemainderIs(a: int, c: int, q: int, r: int)
    requires c > 0 && a == c * q + r && 0 <= r < c
    ensures a % c == r && a / c == q
  {
    var x, s := a / c, a % c;
    assert a == c * x + s;
    Subtract(c, q, x);
    Subtract(c, x, q);
    if q > x { AtLeast(c, q - x); }
    if x > q { AtLeast(c, x - q); }
  }

  lemma {:induction false} Pow2Divides(k: nat, n: nat)
    requires k <= n
    ensures Pow2(n) == Pow2(k) * Pow2(n - k)
    decreases n
  {
    if k < n {
      Pow2Divides(k, n - 1);
      assert Pow2(n) == Pow2(k) * (2 * Pow2(n - 1 - k));
    }
  }

  /** A remainder by a multiple forgets nothing the remainder keeps. */
  lemma RemainderOfRemainder(a: nat, c: nat, m: nat)
    requires c > 0 && m > 0
    ensures (a % (c * m)) % c == a % c
  {
    var w := c * m;
    var q, r := a / w, a % w;
    assert a == w * q + r;
    assert a == c * (m * q + r / c) + r % c;
    RemainderIs(a, c, m * q + r / c, r % c);
  }

  /** Where byte `a` of an endless stream goes in a buffer: as often around as it
      takes. */
  function Place(a: nat, capacity: nat): (p: nat)
    requires capacity > 0
    ensures p < capacity
  {
    if a < capacity then a else Place(a - capacity, capacity)
  }

  lemma {:induction false} PlaceIs(a: nat, capacity: nat)
    requires capacity > 0
    ensures Place(a, capacity) == a % capacity
    decreases a
  {
    if a >= capacity {
      PlaceIs(a - capacity, capacity);
      var q, r := (a - capacity) / capacity, (a - capacity) % capacity;
      assert a == capacity * (q + 1) + r;
      RemainderIs(a, capacity, q + 1, r);
    } else {
      RemainderIs(a, capacity, 0, a);
    }
  }

  /** Going on from a place, once around at most. */
  lemma {:induction false} PlaceOn(a: nat, capacity: nat, i: nat)
    requires capacity > 0 && i <= capacity
    ensures Place(a + i, capacity)
            == var p := Place(a, capacity); if p + i < capacity then p + i else p + i - capacity
    decreases a
  {
    if a >= capacity {
      PlaceOn(a - capacity, capacity, i);
      assert a - capacity + i == a + i - capacity;
    } else if a + i >= capacity {
      assert Place(a + i - capacity, capacity) == a + i - capacity;
    }
  }

  lemma {:induction false} Apart(a: nat, b: nat, capacity: nat)
    requires capacity > 0 && b < a < b + capacity
    ensures Place(a, capacity) != Place(b, capacity)
  {
    PlaceOn(b, capacity, a - b);
  }

  /** Counters that run freely still tell how far they are apart. */
  lemma Distance(t: nat, h: nat)
    requires h <= t < h + WRAP
    ensures WrappingSub(t % WRAP, h % WRAP) == t - h
  {
    var d := t % WRAP + WRAP - h % WRAP;
    assert d == (t - h) + WRAP * (h / WRAP - t / WRAP + 1);
    RemainderIs(d, WRAP, h / WRAP - t / WRAP + 1, t - h);
  }

  lemma AddWraps(a: nat, b: nat)
    ensures WrappingAdd(a % WRAP, b) == (a + b) % WRAP
  {
    var s := a % WRAP + b;
    RemainderIs(a + b, WRAP, a / WRAP + s / WRAP, s % WRAP);
  }

  // ----- little-endian

  function Le32(n: nat): (b: Bytes)
    requires n < WRAP
    ensures |b| == 4
  {
    seq(4, i requires 0 <= i < 4 => Digit(n, i))
  }

  /** The `i`th byte of a number, the lowest first. */
  function Digit(n: nat, i: nat): Byte
    requires n < WRAP && i < 4
  {
    if i == 0 then n % 256 else if i == 1 then n / 256 % 256 else if i == 2 then n / 65536 % 256 else n / 16777216
  }

  function FromLe32(bytes: Bytes): (n: nat)
    requires |bytes| == 4
    ensures n < WRAP
  {
    var a: int, b: int, c: int, d: int := bytes[0], bytes[1], bytes[2], bytes[3];
    a + 256 * b + 65536 * c + 16777216 * d
  }

  lemma LittleEndianBack(n: nat)
    requires n < WRAP
    ensures FromLe32(Le32(n)) == n
  {
    var b := Le32(n);
    assert b[0] == Digit(n, 0) && b[1] == Digit(n, 1) && b[2] == Digit(n, 2) && b[3] == Digit(n, 3);
    assert n / 65536 == n / 256 / 256 && n / 16777216 == n / 65536 / 256;
  }

  lemma LittleEndianForth(bytes: Bytes)
    requires |bytes| == 4
    ensures Le32(FromLe32(bytes)) == bytes
  {
    var a: int, b: int, c: int, d: int := bytes[0], bytes[1], bytes[2], bytes[3];
    var n := FromLe32(bytes);
    assert n / 256 == b + 256 * c + 65536 * d;
    assert n / 65536 == c + 256 * d;
    assert n / 16777216 == d;
    assert Digit(n, 0) == a && Digit(n, 1) == b && Digit(n, 2) == c && Digit(n, 3) == d;
  }
}
