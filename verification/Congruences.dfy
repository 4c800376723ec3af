/** Integers modulo `m`: sums, products, powers and inverses. */
module Congruences {

  /** `a` and `b` differ by a multiple of `m`. */
  ghost predicate Cong(a: int, b: int, m: int) {
    exists k :: a - b == k * m
  }

  lemma CongBy(a: int, b: int, m: int, k: int)
    requires a - b == k * m
    ensures Cong(a, b, m)
  {
  }

  lemma CongRefl(a: int, m: int)
    ensures Cong(a, a, m)
  {
    CongBy(a, a, m, 0);
  }

  lemma CongSym(a: int, b: int, m: int)
    requires Cong(a, b, m)
    ensures Cong(b, a, m)
  {
    var k :| a - b == k * m;
    assert b - a == (-k) * m;
  }

  lemma CongTrans(a: int, b: int, c: int, m: int)
    requires Cong(a, b, m) && Cong(b, c, m)
    ensures Cong(a, c, m)
  {
    var k :| a - b == k * m;
    var l :| b - c == l * m;
    assert a - c == (k + l) * m;
  }

  lemma CongAdd(a: int, b: int, c: int, d: int, m: int)
    requires Cong(a, b, m) && Cong(c, d, m)
    ensures Cong(a + c, b + d, m)
  {
    var k :| a - b == k * m;
    var l :| c - d == l * m;
    assert (a + c) - (b + d) == (k + l) * m;
  }

  lemma CongMul(a: int, b: int, c: int, d: int, m: int)
    requires Cong(a, b, m) && Cong(c, d, m)
    ensures Cong(a * c, b * d, m)
  {
    var k :| a - b == k * m;
    var l :| c - d == l * m;
    calc {
      a * c - b * d;
      (a - b) * c + b * (c - d);
      (k * m) * c + b * (l * m);
      (k * c + b * l) * m;
    }
  }

  lemma ModCong(a: int, m: int)
    requires m > 0
    ensures Cong(a % m, a, m)
  {
    assert a == (a / m) * m + a % m;
    CongBy(a % m, a, m, -(a / m));
  }

  /** Congruent numbers have one remainder. */
  lemma CongMod(a: int, b: int, m: int)
    requires m > 0 && Cong(a, b, m)
    ensures a % m == b % m
  {
    var k :| a - b == k * m;
    var x, y := a / m, b / m;
    assert a == x * m + a % m && b == y * m + b % m;
    assert a % m - b % m == (k - x + y) * m by {
      assert (k - x + y) * m == k * m - x * m + y * m;
    }
    SmallMultiple(a % m - b % m, k - x + y, m);
  }

  lemma SmallMultiple(d: int, t: int, m: int)
    requires m > 0 && d == t * m && -m < d < m
    ensures d == 0
  {
    assert t >= 1 ==> t * m >= m;
    assert t <= -1 ==> t * m <= -m;
  }

  lemma ModMod(a: int, b: int, m: int)
    requires m > 0 && a % m == b % m
    ensures Cong(a, b, m)
  {
    ModCong(a, m);
    ModCong(b, m);
    CongSym(a % m, a, m);
    CongTrans(a, a % m, b, m);
  }

  // ---- powers

  function Pow(b: int, e: nat): int {
    if e == 0 then 1 else b * Pow(b, e - 1)
  }

  lemma {:induction false} PowAdd(b: int, d: nat, e: nat)
    ensures Pow(b, d + e) == Pow(b, d) * Pow(b, e)
  {
    if d > 0 {
      PowAdd(b, d - 1, e);
      assert b * (Pow(b, d - 1) * Pow(b, e)) == (b * Pow(b, d - 1)) * Pow(b, e);
    }
  }

  lemma {:induction false} PowMul(b: int, d: nat, e: nat)
    ensures d * e >= 0 && Pow(b, d * e) == Pow(Pow(b, d), e)
  {
    if e == 0 {
      assert d * e == 0;
    } else {
      PowMul(b, d, e - 1);
      assert d * e == d + d * (e - 1);
      PowAdd(b, d, d * (e - 1));
    }
  }

  lemma {:induction false} PowSquare(b: int, e: nat)
    ensures Pow(b * b, e) == Pow(b, 2 * e)
  {
    if e > 0 {
      PowSquare(b, e - 1);
      assert Pow(b, 2 * e) == b * (b * Pow(b, 2 * e - 2));
      assert b * (b * Pow(b, 2 * e - 2)) == (b * b) * Pow(b, 2 * e - 2);
    }
  }

  lemma {:induction false} PowCong(a: int, b: int, e: nat, m: int)
    requires Cong(a, b, m)
    ensures Cong(Pow(a, e), Pow(b, e), m)
  {
    if e == 0 {
      CongRefl(1, m);
    } else {
      PowCong(a, b, e - 1, m);
      CongMul(a, b, Pow(a, e - 1), Pow(b, e - 1), m);
    }
  }

  lemma {:induction false} PowOne(e: nat)
    ensures Pow(1, e) == 1
  {
    if e > 0 { PowOne(e - 1); }
  }

  /** When `g` to the `q` is 1 modulo `p`, exponents matter only modulo `q`. */
  lemma PowPeriodic(g: int, q: nat, p: int, e: nat)
    requires q > 0 && Cong(Pow(g, q), 1, p)
    ensures Cong(Pow(g, e), Pow(g, e % q), p)
  {
    var t := e / q;
    assert e == q * t + e % q;
    PowMul(g, q, t);
    PowAdd(g, q * t, e % q);
    PowCong(Pow(g, q), 1, t, p);
    PowOne(t);
    CongRefl(Pow(g, e % q), p);
    CongMul(Pow(g, q * t), 1, Pow(g, e % q), Pow(g, e % q), p);
  }

  // ---- greatest common divisors

  function Gcd(a: nat, b: nat): nat
    decreases b
  {
    if b == 0 then a else Gcd(b, a % b)
  }
}
