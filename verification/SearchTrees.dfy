/** The implicit search tree's frontier and the binary ladder of `alias-transparency.ts`. */
module SearchTrees {
  import opened Powers

  // ---- bits

  function Xor(a: nat, b: nat): nat {
    if a == 0 then b else if b == 0 then a
    else 2 * Xor(a / 2, b / 2) + (a % 2 + b % 2) % 2
  }

  /** How many ones a number ends with, in binary. */
  function Level(x: nat): nat {
    if x % 2 == 1 then 1 + Level(x / 2) else 0
  }

  function Ones(n: nat): nat {
    if n == 0 then 0 else n % 2 + Ones(n / 2)
  }

  /** The highest power of two in `n`. */
  function HighBit(n: nat): (h: nat)
    requires n > 0
    ensures 0 < h <= n < 2 * h
  {
    if n == 1 then 1 else 2 * HighBit(n / 2)
  }

  /** `n` with all but its `i` highest set bits cleared. */
  function TopBits(n: nat, i: nat): (t: nat)
    ensures t <= n
    decreases n
  {
    if i == 0 || n == 0 then 0 else HighBit(n) + TopBits(n - HighBit(n), i - 1)
  }

  lemma {:induction false} HighBitIs(n: nat, k: nat)
    requires Two(k) <= n < Two(k + 1)
    ensures HighBit(n) == Two(k)
  {
    if k > 0 { HighBitIs(n / 2, k - 1); }
  }

  /** Dropping the highest bit drops one set bit. */
  lemma {:induction false} OnesHigh(n: nat)
    requires n > 0
    ensures Ones(n) == 1 + Ones(n - HighBit(n))
  {
    if n > 1 {
      OnesHigh(n / 2);
      var h := HighBit(n / 2);
      assert n - 2 * h == 2 * (n / 2 - h) + n % 2;
      assert (n - 2 * h) / 2 == n / 2 - h && (n - 2 * h) % 2 == n % 2;
    }
  }

  /** Exactly as many bits as there are keep the number; fewer leave some out. */
  lemma {:induction false} TopBitsAll(n: nat, i: nat)
    ensures TopBits(n, i) == n <==> Ones(n) <= i
    decreases n
  {
    if n > 0 {
      OnesHigh(n);
      if i > 0 { TopBitsAll(n - HighBit(n), i - 1); }
    }
  }

  /** The next kept bit is the highest of what is left. */
  lemma {:induction false} TopBitsNext(n: nat, i: nat)
    requires TopBits(n, i) < n
    ensures TopBits(n, i + 1) == TopBits(n, i) + HighBit(n - TopBits(n, i))
    decreases n
  {
    var h := HighBit(n);
    if i == 0 {
      assert TopBits(n, 1) == h + TopBits(n - h, 0);
    } else {
      TopBitsNext(n - h, i - 1);
      assert TopBits(n, i) == h + TopBits(n - h, i - 1);
      assert TopBits(n, i + 1) == h + TopBits(n - h, i);
    }
  }

  // ---- flipping bits

  /** The number that reads as `m`, a zero, and `l` ones. */
  function Ending(m: nat, l: nat): nat {
    if l == 0 then 2 * m else 2 * Ending(m, l - 1) + 1
  }

  lemma {:induction false} LevelOf(m: nat, l: nat)
    ensures Level(Ending(m, l)) == l
  {
    if l > 0 { LevelOf(m, l - 1); }
  }

  lemma {:induction false} AllOnes(k: nat)
    ensures Ending(0, k) == Two(k) - 1
  {
    if k > 0 { AllOnes(k - 1); }
  }

  lemma XorDoubled(a: nat, b: nat)
    requires b > 0
    ensures Xor(2 * a + 1, 2 * b) == 2 * Xor(a, b) + 1
  {
  }

  /** Flipping the highest of the trailing ones clears it. */
  lemma {:induction false} Clears(m: nat, l: nat)
    requires l > 0
    ensures Xor(Ending(m, l), Two(l - 1)) == Ending(2 * m, l - 1) && Ending(2 * m, l - 1) == Ending(m, l) - Two(l - 1)
  {
    if l == 1 {
      assert Ending(m, 0) == 2 * m && Ending(m, 1) == 4 * m + 1 && Two(0) == 1;
      assert Xor(2 * m, 0) == 2 * m;
    } else {
      hide Xor;
      Clears(m, l - 1);
      XorDoubled(Ending(m, l - 1), Two(l - 2));
    }
  }

  /** Flipping it together with the zero above moves it up. */
  lemma {:induction false} Moves(m: nat, l: nat)
    requires l > 0
    ensures Xor(Ending(m, l), 3 * Two(l - 1)) == Ending(2 * m + 1, l - 1) && Ending(2 * m + 1, l - 1) == Ending(m, l) + Two(l - 1)
  {
    if l == 1 {
      assert Ending(m, 0) == 2 * m && Ending(m, 1) == 4 * m + 1 && Two(0) == 1;
      assert Xor(2 * m, 1) == 2 * m + 1 by { if m > 0 { assert Xor(m, 0) == m; } }
    } else {
      hide Xor;
      Moves(m, l - 1);
      assert 3 * Two(l - 1) == 2 * (3 * Two(l - 2));
      XorDoubled(Ending(m, l - 1), 3 * Two(l - 2));
    }
  }

  // ---- the frontier

  function Left(x: nat): nat
    requires Level(x) > 0
  {
    Xor(x, Two(Level(x) - 1))
  }

  /** What is left of `n` past `x` is smaller than the last bit of `x + 1`. */
  ghost predicate OnFrontier(n: nat, x: nat, m: nat, l: nat) {
    x == Ending(m, l) && x < n && n - (x + 1) < Two(l)
  }

  /** The right child that lies in the tree: the next bit of `n` is added. */
  method Right(n: nat, x: nat, ghost m: nat, ghost l: nat) returns (y: nat, ghost k: nat, ghost j: nat)
    requires OnFrontier(n, x, m, l) && x + 1 < n
    ensures y + 1 == x + 1 + HighBit(n - (x + 1)) && OnFrontier(n, y, k, j)
  {
    hide Ending, Level, Xor, Two, HighBit;
    LevelOf(m, l);
    TwoNext(0);
    assert l > 0;
    Moves(m, l);
    y := Xor(x, 3 * Two(Level(x) - 1));
    k, j := 2 * m + 1, l - 1;
    while y >= n
      invariant y == Ending(k, j) && y == x + Two(j) && n - (x + 1) < Two(j + 1)
      decreases y
    {
      LevelOf(k, j);
      assert j > 0;
      Clears(k, j);
      TwoNext(j - 1);
      y := Left(y);
      k, j := 2 * k, j - 1;
    }
    TwoNext(j);
    HighBitIs(n - (x + 1), j);
  }

  lemma FirstBit(n: nat)
    requires n > 0
    ensures TopBits(n, 0) == 0 && TopBits(n, 1) == HighBit(n)
  {
    assert TopBits(n - HighBit(n), 0) == 0;
  }

  /** The root is the highest bit less one, and each further frontier element adds the next bit, down to the last entry. */
  method SearchTree(n: nat) returns (root: nat, frontier: seq<nat>)
    requires n >= 1
    ensures |frontier| == Ones(n) && frontier != [] && frontier[0] == root && frontier[|frontier| - 1] == n - 1
    ensures forall i :: 0 <= i < |frontier| ==> frontier[i] + 1 == TopBits(n, i + 1)
    ensures forall i :: 0 <= i < |frontier| - 1 ==> frontier[i] < frontier[i + 1]
  {
    hide Ending, Two, HighBit, TopBits, Ones;
    root := 1;
    ghost var l: nat := 0;
    TwoNext(0);
    while root * 2 <= n
      invariant root == Two(l) <= n
      decreases n - root
    {
      TwoNext(l);
      root := root * 2;
      l := l + 1;
    }
    TwoNext(l);
    HighBitIs(n, l);
    AllOnes(l);
    FirstBit(n);
    root := root - 1;
    frontier := [root];
    ghost var m: nat := 0;
    while frontier[|frontier| - 1] != n - 1
      invariant frontier != [] && frontier[0] == root && OnFrontier(n, frontier[|frontier| - 1], m, l)
      invariant forall i :: 0 <= i < |frontier| ==> frontier[i] + 1 == TopBits(n, i + 1)
      invariant forall i :: 0 <= i < |frontier| - 1 ==> frontier[i] < frontier[i + 1]
      decreases n - frontier[|frontier| - 1]
    {
      var x := frontier[|frontier| - 1];
      var y;
      y, m, l := Right(n, x, m, l);
      TopBitsNext(n, |frontier|);
      frontier := frontier + [y];
    }
    TopBitsAll(n, |frontier|);
    TopBitsAll(n, |frontier| - 1);
    FirstBit(n);
    if |frontier| > 1 {
      var i := |frontier| - 2;
      assert frontier[i] < frontier[i + 1] && frontier[i] + 1 == TopBits(n, i + 1);
    }
  }

  // ---- the ladder

  predicate Distinct(s: seq<nat>) {
    forall i, j :: 0 <= i < j < |s| ==> s[i] != s[j]
  }

  /** `t` answers "is the rung at most you?" as `version` does, on every rung. */
  ghost predicate AnswersAlike(out: seq<nat>, t: int, version: int) {
    forall i :: 0 <= i < |out| ==> (out[i] <= t <==> out[i] <= version)
  }

  /** Rungs one below a power of two, up to the first above the version. */
  ghost predicate Climbed(out: seq<nat>, m: nat) {
    |out| == m + 1 && forall i :: 0 <= i <= m ==> out[i] == Two(i) - 1
  }

  /** What the halving keeps: the ends are rungs, and no rung lies between them. */
  ghost predicate Halving(out: seq<nat>, lo: nat, hi: nat) {
    lo in out && hi in out && Distinct(out) && forall i :: 0 <= i < |out| ==> !(lo < out[i] < hi)
  }

  lemma ClimbedHalving(out: seq<nat>, m: nat)
    requires Climbed(out, m) && m > 0
    ensures Halving(out, out[m - 1], out[m])
  {
    forall i, j | 0 <= i < j < |out| ensures out[i] != out[j] { TwoGrows(i, j); }
    forall i | 0 <= i < |out| ensures !(out[m - 1] < out[i] < out[m]) {
      if i < m - 1 { TwoGrows(i, m - 1); }
    }
  }

  lemma HalvingStep(out: seq<nat>, lo: nat, hi: nat, mid: nat)
    requires Halving(out, lo, hi) && lo < mid < hi
    ensures Halving(out + [mid], lo, mid) && Halving(out + [mid], mid, hi)
  {
    var more := out + [mid];
    assert forall i :: 0 <= i < |out| ==> more[i] == out[i] && out[i] != mid;
    assert lo in more && hi in more && more[|out|] == mid;
  }

  /**
   * The ladder of a version holds it and its successor, has no repeats, has length 2m for the m whose powers enclose
   * it, and a version that answers alike on every rung is the same version.
   */
  method Ladder(version: nat) returns (out: seq<nat>, ghost m: nat)
    ensures Two(m) - 1 > version && m > 0 && Two(m - 1) - 1 <= version && |out| == 2 * m
    ensures Distinct(out) && version in out && version + 1 in out
    ensures forall t :: AnswersAlike(out, t, version) ==> t == version
  {
    hide Two, Distinct, Halving;
    out := [0];
    m := 0;
    TwoNext(0);
    while out[|out| - 1] <= version
      invariant Climbed(out, m) && (m > 0 ==> out[m - 1] <= version)
      decreases version + 1 - out[|out| - 1]
    {
      m := m + 1;
      TwoGrows(m - 1, m);
      out := out + [Two(|out|) - 1];
    }
    assert m > 0;
    var lo := out[|out| - 2];
    var hi := out[|out| - 1];
    ClimbedHalving(out, m);
    ghost var k: nat := m - 1;
    TwoNext(k);
    hide Climbed;
    while lo + 1 < hi
      invariant hi - lo == Two(k) && lo <= version < hi && |out| == 2 * m - k && k < m && Halving(out, lo, hi)
      decreases hi - lo
    {
      var mid := (lo + hi) / 2;
      assert k > 0 by { TwoNext(0); }
      TwoNext(k - 1);
      HalvingStep(out, lo, hi, mid);
      out := out + [mid];
      if mid <= version { lo := mid; } else { hi := mid; }
      k := k - 1;
    }
    if k > 0 { TwoNext(0); TwoGrows(0, k); }
    HalvingEnds(out, lo, hi);
    SameAnswers(out, version);
  }

  lemma HalvingEnds(out: seq<nat>, lo: nat, hi: nat)
    requires Halving(out, lo, hi)
    ensures lo in out && hi in out && Distinct(out)
  {
  }

  lemma SameAnswers(out: seq<nat>, version: nat)
    requires version in out && version + 1 in out
    ensures forall t :: AnswersAlike(out, t, version) ==> t == version
  {
    var a :| 0 <= a < |out| && out[a] == version;
    var b :| 0 <= b < |out| && out[b] == version + 1;
    forall t | AnswersAlike(out, t, version) ensures t == version {
      assert out[a] <= t <==> out[a] <= version;
      assert out[b] <= t <==> out[b] <= version;
    }
  }
}
