/** The DSA arithmetic of `syslog-sign.ts`, section 4.7 of FIPS 186-4: `modPow`, `modInv` and `dsaVerify`. */
module Dsa {
  import opened Bytes
  import opened Congruences

  datatype DsaKey = DsaKey(p: nat, q: nat, g: nat, y: nat)

  /** JavaScript's `%`: the remainder takes the sign of the dividend. */
  function TruncMod(a: int, m: int): int
    requires m > 0
  {
    if a >= 0 then a % m else -((-a) % m)
  }

  lemma Normalised(a: int, m: int)
    requires m > 0
    ensures 0 < TruncMod(a, m) + m && (TruncMod(a, m) + m) % m == a % m
  {
    var t := TruncMod(a, m) + m;
    if a >= 0 {
      CongBy(t, a, m, 1 - a / m);
      assert a == (a / m) * m + a % m;
    } else {
      var b := -a;
      assert b == (b / m) * m + b % m;
      CongBy(t, a, m, 1 + b / m);
    }
    CongMod(t, a, m);
  }

  lemma PowNone(b: int)
    ensures Pow(b, 0) == 1
  {
  }

  /** Before the first turn: nothing is multiplied yet, and `b` may be reduced. */
  lemma PowStart(b: nat, e: nat, m: nat)
    requires m > 0
    ensures Cong(1 * Pow(b % m, e), Pow(b, e), m)
  {
    ModCong(b, m);
    PowCong(b % m, b, e, m);
  }

  /** After the last turn: what is left of the power is 1. */
  lemma PowEnd(r: nat, c: nat, b: nat, e: nat, m: nat)
    requires m > 0 && r < m && Cong(r * Pow(c, 0), Pow(b, e), m)
    ensures r == Pow(b, e) % m
  {
    hide Pow, Cong;
    PowNone(c);
    CongMod(r, Pow(b, e), m);
    Reduced(r, m);
  }

  lemma Reduced(r: nat, m: nat)
    requires r < m
    ensures r % m == r
  {
  }

  function MulMod(a: int, b: int, m: int): (r: nat)
    requires m > 0
    ensures r < m
  {
    (a * b) % m
  }

  method ModPow(b: nat, e: nat, m: nat) returns (r: nat)
    requires m > 0
    ensures r == if e == 0 then 1 else Pow(b, e) % m
  {
    hide Cong, Pow, MulMod;
    r := 1;
    var c: nat, f: nat := b % m, e;
    PowStart(b, e, m);
    while f > 0
      invariant Cong(r * Pow(c, f), Pow(b, e), m)
      invariant if e == 0 then r == 1 && f == 0 else f == 0 ==> r < m
    {
      ghost var r0: nat, c0: nat, f0: nat := r, c, f;
      if f % 2 == 1 { r := MulMod(r, c, m); }
      c := MulMod(c, c, m);
      f := f / 2;
      SquareStep(r0, c0, f0, r, c, m);
      CongTrans(r * Pow(c, f), r0 * Pow(c0, f0), Pow(b, e), m);
    }
    if e > 0 { PowEnd(r, c, b, e, m); }
  }


  /** One squaring step keeps `r` times the power still to be taken. */
  lemma SquareStep(r0: nat, c0: nat, f0: nat, r: nat, c: nat, m: nat)
    requires m > 0 && f0 > 0 && c == MulMod(c0, c0, m)
    requires r == if f0 % 2 == 1 then MulMod(r0, c0, m) else r0
    ensures Cong(r * Pow(c, f0 / 2), r0 * Pow(c0, f0), m)
  {
    var h := f0 / 2;
    ModCong(c0 * c0, m);
    PowCong(c, c0 * c0, h, m);
    PowSquare(c0, h);
    if f0 % 2 == 1 {
      ModCong(r0 * c0, m);
      CongMul(r, r0 * c0, Pow(c, h), Pow(c0, 2 * h), m);
      assert f0 == 2 * h + 1;
      assert (r0 * c0) * Pow(c0, 2 * h) == r0 * Pow(c0, f0);
    } else {
      CongRefl(r0, m);
      CongMul(r, r0, Pow(c, h), Pow(c0, 2 * h), m);
      assert f0 == 2 * h;
    }
  }

  /** Each remainder is its coefficient times `a`, and the remainders keep the common divisor. */
  ghost predicate Euclid(a: int, m: nat, r0: nat, r1: nat, s0: int, s1: int)
    requires m > 0
  {
    Cong(s0 * a, r0, m) && Cong(s1 * a, r1, m) && Gcd(r0, r1) == Gcd(a % m, m)
  }

  lemma EuclidStarts(a: int, m: nat)
    requires m > 0
    ensures Euclid(a, m, a % m, m, 1, 0)
  {
    ModCong(a, m);
    CongSym(a % m, a, m);
    CongBy(0 * a, m, m, -1);
  }

  lemma EuclidStep(a: int, m: nat, r0: nat, r1: nat, s0: int, s1: int)
    requires m > 0 && r1 > 0 && Euclid(a, m, r0, r1, s0, s1)
    ensures r0 - (r0 / r1) * r1 == r0 % r1
    ensures Euclid(a, m, r1, r0 % r1, s1, s0 - (r0 / r1) * s1)
  {
    var k := r0 / r1;
    CongRefl(-k, m);
    CongMul(-k, -k, s1 * a, r1, m);
    CongAdd(s0 * a, r0, (-k) * (s1 * a), (-k) * r1, m);
    assert (-k) * (s1 * a) == -((k * s1) * a);
    assert s0 * a + (-k) * (s1 * a) == (s0 - k * s1) * a;
    assert r0 + (-k) * r1 == r0 % r1;
  }

  lemma EuclidEnds(a: int, m: nat, r0: nat, s0: int, s1: int, w: nat)
    requires m > 0 && Euclid(a, m, r0, 0, s0, s1) && w == s0 % m
    ensures MulMod(w, a, m) == Gcd(a % m, m) % m
  {
    ModCong(s0, m);
    CongRefl(a, m);
    CongMul(w, s0, a, a, m);
    CongTrans(w * a, s0 * a, r0, m);
    CongMod(w * a, r0, m);
  }

  method ModInv(a: int, m: nat) returns (w: nat)
    requires m > 0
    ensures w < m && MulMod(w, a, m) == Gcd(a % m, m) % m
  {
    hide Euclid, Gcd, MulMod;
    var r0: nat, r1: nat := (TruncMod(a, m) + m) % m, m;
    var s0, s1 := 1, 0;
    Normalised(a, m);
    EuclidStarts(a, m);
    while r1 != 0
      invariant Euclid(a, m, r0, r1, s0, s1)
      decreases r1
    {
      var k := r0 / r1;
      EuclidStep(a, m, r0, r1, s0, s1);
      r0, r1 := r1, r0 - k * r1;
      s0, s1 := s1, s0 - k * s1;
    }
    w := (TruncMod(s0, m) + m) % m;
    Normalised(s0, m);
    EuclidEnds(a, m, r0, s0, s1, w);
  }

  function BitLength(n: nat): nat {
    if n == 0 then 0 else 1 + BitLength(n / 2)
  }

  /** The digest's leftmost bits, as many as `q` has. */
  function Leftmost(digest: seq<byte>, q: nat): nat {
    var n, outlen := BitLength(q), 8 * |digest|;
    if outlen > n then (PowPositive(2, outlen - n); FromBytes(digest) / Pow(2, outlen - n)) else FromBytes(digest)
  }

  lemma {:induction false} PowPositive(b: nat, e: nat)
    requires b > 0
    ensures Pow(b, e) > 0
  {
    if e > 0 { PowPositive(b, e - 1); }
  }

  lemma PowGrows(d: nat, e: nat)
    ensures Pow(2, d) <= Pow(2, d + e)
  {
    hide Pow;
    PowAdd(2, d, e);
    PowPositive(2, d);
    PowPositive(2, e);
    assert Pow(2, d) * Pow(2, e) >= Pow(2, d);
  }

  /**
   * `z` is what the digest's leading bits spell, as many as `q` has and no more than there are: `q` has `n` bits when it lies
   * between the powers of two around it.
   */
  ghost predicate LeadingBits(digest: seq<byte>, q: nat, z: nat) {
    exists n: nat :: Bits(q, n) && SpelledBy(digest, n, z)
  }

  ghost predicate Bits(q: nat, n: nat) { q < Pow(2, n) && (n > 0 ==> Pow(2, n - 1) <= q) }

  ghost predicate SpelledBy(digest: seq<byte>, n: nat, z: nat) {
    if 8 * |digest| > n then
      z * Pow(2, 8 * |digest| - n) <= FromBytes(digest) < (z + 1) * Pow(2, 8 * |digest| - n)
    else z == FromBytes(digest)
  }

  lemma {:induction false} BitLengthIs(q: nat)
    ensures Bits(q, BitLength(q))
  {
    if q > 0 {
      BitLengthIs(q / 2);
      var n := BitLength(q / 2);
      assert Pow(2, n + 1) == 2 * Pow(2, n);
      if n > 0 { assert Pow(2, n) == 2 * Pow(2, n - 1); } else { assert Pow(2, 0) == 1; }
    }
  }

  lemma PowLess(d: nat, e: nat)
    requires d < e
    ensures Pow(2, d) <= Pow(2, e - 1)
  {
    PowGrows(d, e - 1 - d);
  }

  lemma BitsOnce(q: nat, m: nat, n: nat)
    requires Bits(q, m) && Bits(q, n)
    ensures m == n
  {
    hide Pow;
    if m < n { PowLess(m, n); }
    if n < m { PowLess(n, m); }
  }

  lemma QuotientIs(x: nat, b: nat, z: nat)
    requires b > 0
    ensures z * b <= x < (z + 1) * b <==> z == x / b
  {
    var t := x / b;
    assert x == t * b + x % b;
    assert (t + 1) * b == t * b + b && (z + 1) * b == z * b + b;
    if z < t { assert (z + 1) * b <= t * b; }
    if t < z { assert (t + 1) * b <= z * b; }
  }

  /** The leading bits spell one number, the one the digest is shifted to. */
  lemma LeadingBitsAre(digest: seq<byte>, q: nat, z: nat)
    ensures LeadingBits(digest, q, z) <==> z == Leftmost(digest, q)
  {
    hide Pow, BitLength, FromBytes, Bits;
    var n, outlen := BitLength(q), 8 * |digest|;
    BitLengthIs(q);
    forall m: nat | Bits(q, m) ensures m == n { BitsOnce(q, m, n); }
    if outlen > n {
      PowPositive(2, outlen - n);
      QuotientIs(FromBytes(digest), Pow(2, outlen - n), z);
    }
    assert SpelledBy(digest, n, z) <==> z == Leftmost(digest, q);
  }

  /** The signature equation holds with `w` in the place of the inverse of `s`. */
  ghost predicate HoldsWith(key: DsaKey, z: nat, r: nat, w: nat)
    requires key.p > 0 && key.q > 0
  {
    r == MulMod(Pow(key.g, MulMod(z, w, key.q)), Pow(key.y, MulMod(r, w, key.q)), key.p) % key.q
  }

  /** `w` inverts `s`, and the signature equation holds with it. */
  ghost predicate AcceptsWith(key: DsaKey, z: nat, r: nat, s: nat, w: nat)
    requires key.p > 0 && key.q > 0
  {
    w < key.q && MulMod(w, s, key.q) == 1 && HoldsWith(key, z, r, w)
  }

  /** What a signer who knows `x` makes with the secret `k`. */
  ghost predicate Honest(key: DsaKey, z: nat, r: nat, s: nat, x: nat, k: nat)
    requires key.p > 0 && key.q > 0
  {
    && Pow(key.g, key.q) % key.p == 1 % key.p
    && key.y % key.p == Pow(key.g, x) % key.p
    && r == (Pow(key.g, k) % key.p) % key.q
    && (s * k) % key.q == (z + x * r) % key.q
    && Gcd(s % key.q, key.q) == 1
  }

  lemma InversesMeet(s: int, q: int, v: int, w: int)
    requires Cong(v * s, 1, q) && Cong(w * s, 1, q)
    ensures Cong(v, w, q)
  {
    var k :| v * s - 1 == k * q;
    var l :| w * s - 1 == l * q;
    calc {
      v - w;
      v * (w * s - l * q) - w * (v * s - k * q);
      (w * k - v * l) * q;
    }
  }

  lemma MulModOne(a: int, b: int, q: int)
    requires q > 0 && MulMod(a, b, q) == 1
    ensures Cong(a * b, 1, q)
  {
    hide Cong;
    ModCong(a * b, q);
    CongSym(1, a * b, q);
  }

  lemma OneInverse(s: int, q: nat, v: nat, w: nat)
    requires q > 0 && v < q && w < q && MulMod(v, s, q) == 1 && MulMod(w, s, q) == 1
    ensures v == w
  {
    hide Cong, MulMod;
    MulModOne(v, s, q);
    MulModOne(w, s, q);
    InversesMeet(s, q, v, w);
    CongMod(v, w, q);
  }

  /** `u` is the product `a * w` modulo `q`, where `w` inverts `s`. */
  lemma UnderInverse(q: nat, a: int, w: int, u: int)
    requires q > 0 && u == MulMod(a, w, q)
    ensures Cong(u, a * w, q)
  {
    hide Cong;
    ModCong(a * w, q);
  }

  lemma Regroup(z: int, w: int, x: int, r: int)
    ensures z * w + x * (r * w) == w * (z + x * r)
  {
    assert x * (r * w) == w * (x * r);
  }

  lemma Reassociate(w: int, s: int, k: int)
    ensures w * (s * k) == (w * s) * k
  {
  }

  /** With the exponents of the check, the signer's equation gives back `k`. */
  lemma ExponentsAdd(q: nat, z: int, r: int, s: int, x: int, k: int, w: int, u1: int, u2: int)
    requires Cong(w * s, 1, q) && Cong(s * k, z + x * r, q) && Cong(u1, z * w, q) && Cong(u2, r * w, q)
    ensures Cong(u1 + x * u2, k, q)
  {
    hide Cong;
    CongRefl(x, q);
    CongMul(x, x, u2, r * w, q);
    CongAdd(u1, z * w, x * u2, x * (r * w), q);
    Regroup(z, w, x, r);
    CongSym(s * k, z + x * r, q);
    CongRefl(w, q);
    CongMul(w, w, z + x * r, s * k, q);
    CongTrans(u1 + x * u2, w * (z + x * r), w * (s * k), q);
    Reassociate(w, s, k);
    CongRefl(k, q);
    CongMul(w * s, 1, k, k, q);
    CongTrans(u1 + x * u2, w * (s * k), 1 * k, q);
  }

  lemma PowersMeet(g: int, y: int, x: nat, u1: nat, u2: nat, p: int)
    requires Cong(y, Pow(g, x), p)
    ensures x * u2 >= 0 && Cong(Pow(g, u1) * Pow(y, u2), Pow(g, u1 + x * u2), p)
  {
    hide Cong, Pow;
    PowMul(g, x, u2);
    PowCong(y, Pow(g, x), u2, p);
    CongRefl(Pow(g, u1), p);
    CongMul(Pow(g, u1), Pow(g, u1), Pow(y, u2), Pow(g, x * u2), p);
    PowAdd(g, u1, x * u2);
  }

  lemma PowersSame(g: int, q: nat, p: int, e: nat, k: nat)
    requires q > 0 && Cong(Pow(g, q), 1, p) && Cong(e, k, q)
    ensures Cong(Pow(g, e), Pow(g, k), p)
  {
    hide Cong, Pow;
    CongMod(e, k, q);
    PowPeriodic(g, q, p, e);
    PowPeriodic(g, q, p, k);
    CongSym(Pow(g, k), Pow(g, k % q), p);
    CongTrans(Pow(g, e), Pow(g, k % q), Pow(g, k), p);
  }

  /** An honest signature satisfies the check, whatever the digest and the secrets. */
  lemma HonestAccepted(key: DsaKey, z: nat, r: nat, s: nat, x: nat, k: nat, w: nat)
    requires key.p > 1 && key.q > 1 && Honest(key, z, r, s, x, k)
    requires w < key.q && MulMod(w, s, key.q) == 1
    ensures AcceptsWith(key, z, r, s, w)
  {
    hide Cong, Pow, MulMod, Gcd;
    var p, q, g := key.p, key.q, key.g;
    var u1, u2 := MulMod(z, w, q), MulMod(r, w, q);
    HonestCongs(key, z, r, s, x, k, w);
    UnderInverse(q, z, w, u1);
    UnderInverse(q, r, w, u2);
    ExponentsAdd(q, z, r, s, x, k, w, u1, u2);
    PowersMeet(g, key.y, x, u1, u2, p);
    PowersSame(g, q, p, u1 + x * u2, k);
    CongTrans(Pow(g, u1) * Pow(key.y, u2), Pow(g, u1 + x * u2), Pow(g, k), p);
    CongMod(Pow(g, u1) * Pow(key.y, u2), Pow(g, k), p);
    MulModIs(Pow(g, u1), Pow(key.y, u2), p);
  }

  lemma MulModIs(a: int, b: int, m: int)
    requires m > 0
    ensures MulMod(a, b, m) == (a * b) % m
  {
  }

  lemma HonestCongs(key: DsaKey, z: nat, r: nat, s: nat, x: nat, k: nat, w: nat)
    requires key.p > 1 && key.q > 1 && Honest(key, z, r, s, x, k) && MulMod(w, s, key.q) == 1
    ensures Cong(w * s, 1, key.q) && Cong(s * k, z + x * r, key.q)
    ensures Cong(Pow(key.g, key.q), 1, key.p) && Cong(key.y, Pow(key.g, x), key.p)
  {
    hide Cong, Pow, Gcd, MulMod;
    MulModOne(w, s, key.q);
    SignersEquation(key, z, r, s, x, k);
    ModMod(Pow(key.g, key.q), 1, key.p);
    ModMod(key.y, Pow(key.g, x), key.p);
  }

  lemma SignersEquation(key: DsaKey, z: nat, r: nat, s: nat, x: nat, k: nat)
    requires key.p > 0 && key.q > 0 && Honest(key, z, r, s, x, k)
    ensures Cong(s * k, z + x * r, key.q)
  {
    hide Cong, Pow, Gcd;
    ModMod(s * k, z + x * r, key.q);
  }

  /** What `dsaVerify` compares, in terms of whole powers. */
  lemma Compares(key: DsaKey, z: nat, r: nat, w: nat, gu: nat, yu: nat)
    requires key.p > 1 && key.q > 1 && w < key.q
    requires gu == (if MulMod(z, w, key.q) == 0 then 1 else Pow(key.g, MulMod(z, w, key.q)) % key.p)
    requires yu == (if MulMod(r, w, key.q) == 0 then 1 else Pow(key.y, MulMod(r, w, key.q)) % key.p)
    ensures MulMod(gu, yu, key.p) % key.q == r <==> HoldsWith(key, z, r, w)
  {
    hide Pow, MulMod;
    var a, b := Pow(key.g, MulMod(z, w, key.q)), Pow(key.y, MulMod(r, w, key.q));
    PowZero(key.g);
    PowZero(key.y);
    assert gu == a % key.p && yu == b % key.p;
    Unlinked(a, b, gu, yu, key.p);
  }

  lemma PowZero(b: int)
    ensures Pow(b, 0) == 1
  {
  }

  lemma Unlinked(a: int, b: int, c: int, d: int, m: int)
    requires m > 0 && c == a % m && d == b % m
    ensures MulMod(c, d, m) == MulMod(a, b, m)
  {
    hide Cong;
    ModCong(a, m);
    ModCong(b, m);
    CongMul(c, a, d, b, m);
    CongMod(c * d, a * b, m);
  }

  predicate InRange(key: DsaKey, r: nat, s: nat) {
    key.q >= 2 && key.p >= 2 && 0 < r < key.q && 0 < s < key.q
  }

  /** What follows about the verdict once the inverse has been found. */
  lemma WitnessDecides(key: DsaKey, z: nat, r: nat, s: nat, w: nat)
    requires InRange(key, r, s) && w < key.q && MulMod(w, s, key.q) == 1
    ensures AcceptsWith(key, z, r, s, w) <==> exists v :: AcceptsWith(key, z, r, s, v)
  {
    hide Pow, Gcd, AcceptsWith, MulMod;
    forall v | AcceptsWith(key, z, r, s, v) ensures v == w {
      AcceptsInverse(key, z, r, s, v);
      OneInverse(s, key.q, v, w);
    }
  }

  lemma VerdictMeans(key: DsaKey, z: nat, r: nat, s: nat, w: nat, ok: bool)
    requires InRange(key, r, s) && w < key.q && MulMod(w, s, key.q) == Gcd(s % key.q, key.q) % key.q
    requires MulMod(w, s, key.q) == 1 ==> (ok <==> AcceptsWith(key, z, r, s, w))
    ensures Gcd(s % key.q, key.q) == 1 ==> (ok <==> exists v :: AcceptsWith(key, z, r, s, v))
    ensures forall x, k :: Honest(key, z, r, s, x, k) ==> ok
  {
    hide Pow, Gcd, AcceptsWith, Honest, MulMod;
    if Gcd(s % key.q, key.q) == 1 { WitnessDecides(key, z, r, s, w); }
    forall x, k | Honest(key, z, r, s, x, k) ensures ok {
      HonestInvertible(key, z, r, s, x, k);
      HonestAccepted(key, z, r, s, x, k, w);
    }
  }

  lemma AcceptsInverse(key: DsaKey, z: nat, r: nat, s: nat, v: nat)
    requires key.p > 0 && key.q > 0 && AcceptsWith(key, z, r, s, v)
    ensures v < key.q && MulMod(v, s, key.q) == 1
  {
    hide Pow, MulMod;
  }

  lemma HonestInvertible(key: DsaKey, z: nat, r: nat, s: nat, x: nat, k: nat)
    requires key.p > 0 && key.q > 0 && Honest(key, z, r, s, x, k)
    ensures Gcd(s % key.q, key.q) == 1
  {
    hide Pow, Gcd;
  }

  /** `w` is the inverse of `s` where it has one, and else what the extended Euclidean algorithm gives for it. */
  ghost predicate Inverts(q: nat, s: nat, w: nat)
    requires q > 0
  {
    w < q && MulMod(w, s, q) == Gcd(s % q, q) % q
  }

  /**
   * `dsaVerify`, in terms of the number the digest's leading bits spell: out-of-range signatures are refused; for the rest,
   * when `s` is invertible the answer is whether the check holds with its inverse, and an honest signature is accepted. Whatever
   * is accepted meets the signature equation.
   */
  method DsaVerify(key: DsaKey, digest: seq<byte>, r: nat, s: nat) returns (ok: bool)
    ensures ok ==> InRange(key, r, s)
    ensures forall z :: LeadingBits(digest, key.q, z) && InRange(key, r, s) ==>
              && (ok ==> exists w :: Inverts(key.q, s, w) && HoldsWith(key, z, r, w))
              && (Gcd(s % key.q, key.q) == 1 ==> (ok <==> exists w :: AcceptsWith(key, z, r, s, w)))
              && forall x, k :: Honest(key, z, r, s, x, k) ==> ok
  {
    hide AcceptsWith, HoldsWith, Honest, Gcd, Pow, MulMod, LeadingBits;
    if key.q < 2 || key.p < 2 { return false; }
    if r <= 0 || r >= key.q || s <= 0 || s >= key.q { return false; }
    var z := FromBytes(digest);
    var n, outlen := BitLength(key.q), 8 * |digest|;
    if outlen > n {
      PowPositive(2, outlen - n);
      z := z / Pow(2, outlen - n);
    }
    forall y ensures LeadingBits(digest, key.q, y) <==> y == z { LeadingBitsAre(digest, key.q, y); }
    var w := ModInv(s, key.q);
    var u1 := MulMod(z, w, key.q);
    var u2 := MulMod(r, w, key.q);
    var gu := ModPow(key.g, u1, key.p);
    var yu := ModPow(key.y, u2, key.p);
    var v := MulMod(gu, yu, key.p) % key.q;
    Compares(key, z, r, w, gu, yu);
    ok := v == r;
    if MulMod(w, s, key.q) == 1 { AcceptsIs(key, z, r, s, w); }
    assert Inverts(key.q, s, w);
    VerdictMeans(key, z, r, s, w, ok);
  }

  lemma AcceptsIs(key: DsaKey, z: nat, r: nat, s: nat, w: nat)
    requires key.p > 0 && key.q > 0 && w < key.q && MulMod(w, s, key.q) == 1
    ensures AcceptsWith(key, z, r, s, w) <==> HoldsWith(key, z, r, w)
  {
    hide MulMod, HoldsWith;
  }
}
