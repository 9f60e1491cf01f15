/** Python's unbounded integers as two's-complement bit strings. */
module Bits {
  function Pow2(n: nat): (r: nat)
    ensures r > 0
  {
    if n == 0 then 1 else 2 * Pow2(n - 1)
  }

  /** Bit i of x; negative numbers have ones all the way up. */
  predicate Bit(x: int, i: nat)
    decreases i
  {
    if i == 0 then x % 2 == 1 else Bit(x / 2, i - 1)
  }

  function Abs(x: int): nat { if x < 0 then -x else x }

  function Not(x: int): int { -x - 1 }

  function And(x: int, y: int): int
    decreases Abs(x)
  {
    if x == 0 || y == 0 then 0
    else if x == -1 then y
    else if y == -1 then x
    else 2 * And(x / 2, y / 2) + (if x % 2 == 1 && y % 2 == 1 then 1 else 0)
  }

  function Or(x: int, y: int): int { Not(And(Not(x), Not(y))) }

  lemma {:induction false} BitZero(i: nat)
    ensures !Bit(0, i) && Bit(-1, i)
    decreases i
  {
    if i > 0 { BitZero(i - 1); }
  }

  lemma {:induction false} BitNot(x: int, i: nat)
    ensures Bit(Not(x), i) == !Bit(x, i)
    decreases i
  {
    if i > 0 {
      BitNot(x / 2, i - 1);
      assert Not(x) / 2 == Not(x / 2);
    }
  }

  lemma {:induction false} BitAnd(x: int, y: int, i: nat)
    ensures Bit(And(x, y), i) == (Bit(x, i) && Bit(y, i))
    decreases i
  {
    BitZero(i);
    if x != 0 && y != 0 && x != -1 && y != -1 {
      assert And(x, y) / 2 == And(x / 2, y / 2);
      if i > 0 { BitAnd(x / 2, y / 2, i - 1); }
    }
  }

  lemma BitOr(x: int, y: int, i: nat)
    ensures Bit(Or(x, y), i) == (Bit(x, i) || Bit(y, i))
  {
    BitNot(x, i);
    BitNot(y, i);
    BitAnd(Not(x), Not(y), i);
    BitNot(And(Not(x), Not(y)), i);
  }

  lemma {:induction false} BitPow2(k: nat, i: nat)
    ensures Bit(Pow2(k), i) <==> i == k
    decreases i
  {
    if k == 0 {
      if i > 0 { BitZero(i - 1); }
    } else {
      assert Pow2(k) / 2 == Pow2(k - 1) && Pow2(k) % 2 == 0;
      if i > 0 { BitPow2(k - 1, i - 1); }
    }
  }

  /** Integers with the same bits are equal. */
  lemma {:induction false} SameBits(x: int, y: int)
    requires forall i: nat :: Bit(x, i) == Bit(y, i)
    ensures x == y
    decreases Abs(x) + Abs(y)
  {
    assert Bit(x, 0) == Bit(y, 0);
    forall i: nat ensures Bit(x / 2, i) == Bit(y / 2, i) { assert Bit(x, i + 1) == Bit(y, i + 1); }
    if Abs(x / 2) + Abs(y / 2) < Abs(x) + Abs(y) {
      SameBits(x / 2, y / 2);
    }
  }

  lemma {:induction false} AndNonNegative(x: int, y: int)
    requires x >= 0
    ensures 0 <= And(x, y) <= x
    decreases x
  {
    if x > 0 && y != 0 && y != -1 { AndNonNegative(x / 2, y / 2); }
  }

  lemma OrNonNegative(x: int, y: int)
    requires x >= 0 && y >= 0
    ensures Or(x, y) >= 0
  {
    AndNegative(Not(x), Not(y));
  }

  lemma {:induction false} AndNegative(x: int, y: int)
    requires x < 0 && y < 0
    ensures And(x, y) < 0
    decreases Abs(x)
  {
    if x != -1 && y != -1 { AndNegative(x / 2, y / 2); }
  }

  /** The bits of a non-negative integer as a set. */
  function Ones(m: int): set<nat> { set i: nat | i < m && Bit(m, i) }

  lemma {:induction false} BitBound(m: int, i: nat)
    requires m >= 0 && Bit(m, i)
    ensures i < m
    decreases i
  {
    if i > 0 { BitBound(m / 2, i - 1); }
  }

  lemma InOnes(m: int, i: nat)
    requires m >= 0
    ensures i in Ones(m) <==> Bit(m, i)
  {
    if Bit(m, i) { BitBound(m, i); }
  }

  /** Non-negative integers are their bit sets. */
  lemma OnesDetermine(x: int, y: int)
    requires x >= 0 && y >= 0 && Ones(x) == Ones(y)
    ensures x == y
  {
    forall i: nat ensures Bit(x, i) == Bit(y, i) {
      InOnes(x, i);
      InOnes(y, i);
    }
    SameBits(x, y);
  }

  /** int.bit_length of a non-negative integer. */
  function BitLength(m: nat): nat { if m == 0 then 0 else 1 + BitLength(m / 2) }

  lemma {:induction false} BitLengthPow2(k: nat)
    ensures BitLength(Pow2(k)) == k + 1
  {
    if k > 0 {
      assert Pow2(k) / 2 == Pow2(k - 1);
      BitLengthPow2(k - 1);
    } else {
      assert BitLength(0) == 0;
    }
  }

  /** The position of the lowest set bit. */
  function Lowest(m: int): nat
    requires m > 0
  {
    if m % 2 == 1 then 0 else 1 + Lowest(m / 2)
  }

  lemma {:induction false} LowestIsLeast(m: int)
    requires m > 0
    ensures Bit(m, Lowest(m)) && forall i: nat :: i < Lowest(m) ==> !Bit(m, i)
  {
    if m % 2 == 0 {
      LowestIsLeast(m / 2);
      forall i: nat | i < Lowest(m) ensures !Bit(m, i) {
        if i > 0 { assert !Bit(m / 2, i - 1); }
      }
    }
  }

  lemma AndNot(x: int)
    ensures And(x, Not(x)) == 0
  {
    forall i: nat ensures Bit(And(x, Not(x)), i) == Bit(0, i) {
      BitAnd(x, Not(x), i);
      BitNot(x, i);
      BitZero(i);
    }
    SameBits(And(x, Not(x)), 0);
  }

  /** mask & -mask is the lowest set bit alone. */
  lemma {:induction false} AndNegation(m: int)
    requires m > 0
    ensures And(m, -m) == Pow2(Lowest(m))
  {
    if m % 2 == 1 {
      if m > 1 {
        assert (-m) / 2 == Not(m / 2);
        AndNot(m / 2);
      }
    } else {
      assert (-m) / 2 == -(m / 2);
      AndNegation(m / 2);
    }
  }

  /** m & (2^k - 1) and m >> k are remainder and quotient. */
  lemma {:induction false} AndLow(m: int, k: nat)
    requires m >= 0
    ensures And(m, Pow2(k) - 1) == m % Pow2(k)
    decreases k
  {
    hide And;
    if k == 0 {
      AndZero(m);
    } else {
      var p := Pow2(k - 1);
      AndLow(m / 2, k - 1);
      LowOnes(p);
      HalfMod(m, p);
      AndStep(m, 2 * p - 1);
    }
  }

  lemma AndZero(m: int)
    ensures And(m, 0) == 0 == m % 1
  {
  }

  lemma LowOnes(p: int)
    requires p > 0
    ensures (2 * p - 1) / 2 == p - 1 && (2 * p - 1) % 2 == 1
  {
  }

  /** One bit of And, for a mask whose lowest bit is set. */
  lemma AndStep(m: int, n: int)
    requires m >= 0 && n > 0 && n % 2 == 1
    ensures And(m, n) == 2 * And(m / 2, n / 2) + m % 2
  {
  }

  lemma HalfMod(m: int, p: int)
    requires m >= 0 && p > 0
    ensures m % (2 * p) == 2 * ((m / 2) % p) + m % 2
  {
    var q, r := (m / 2) / p, (m / 2) % p;
    assert m == (2 * p) * q + (2 * r + m % 2);
    Remainder(m, 2 * p, q, 2 * r + m % 2);
  }

  lemma Remainder(m: int, d: int, q: int, r: int)
    requires d > 0 && 0 <= r < d && m == d * q + r
    ensures m % d == r && m / d == q
  {
    var k, s := m / d, m % d;
    assert m == d * k + s && 0 <= s < d;
    Multiple(d, q, k, s - r);
  }

  lemma Multiple(d: int, q: int, k: int, e: int)
    requires d > 0 && -d < e < d && d * q == d * k + e
    ensures q == k
  {
    assert d * (q - k) == e;
    AtLeast(d, q - k);
    AtLeast(d, k - q);
  }

  lemma AtLeast(d: int, j: int)
    requires d > 0
    ensures j >= 1 ==> d * j >= d
  {
  }
}
