/** The log tree of `alias-transparency.ts`: its value binds the leaf values, their order and their number. */
module LogTree {
  import opened Bytes

  type Octets = seq<byte>

  /** The first of `k`, 2`k`, 4`k`, ... that is at least half of `n`. */
  function SplitFrom(k: nat, n: nat): (r: nat)
    requires 0 < k < n
    ensures k <= r < n <= 2 * r
    decreases n - k
  {
    if 2 * k < n then SplitFrom(2 * k, n) else k
  }

  function Tag(n: nat): Octets { [if n == 1 then 0 else 1] }

  function NodeInput(n: nat, left: Octets, m: nat, right: Octets): Octets {
    Tag(n) + left + Tag(m) + right
  }

  function LogValue(h: Octets -> Octets, leaves: seq<Octets>): Octets
    requires leaves != []
    decreases |leaves|
  {
    if |leaves| == 1 then leaves[0]
    else
      var l, r := Left(leaves), Right(leaves);
      h(NodeInput(|l|, LogValue(h, l), |r|, LogValue(h, r)))
  }

  function Left(leaves: seq<Octets>): (l: seq<Octets>)
    requires |leaves| > 1
    ensures 0 < |l| < |leaves|
  {
    leaves[..SplitFrom(1, |leaves|)]
  }

  function Right(leaves: seq<Octets>): (r: seq<Octets>)
    requires |leaves| > 1
    ensures 0 < |r| < |leaves|
  {
    leaves[SplitFrom(1, |leaves|)..]
  }

  lemma WholeValue(h: Octets -> Octets, leaves: seq<Octets>)
    requires |leaves| > 1
    ensures var l, r := Left(leaves), Right(leaves);
      LogValue(h, leaves) == h(NodeInput(|l|, LogValue(h, l), |r|, LogValue(h, r)))
  {
  }

  lemma NodeValue(h: Octets -> Octets, leaves: seq<Octets>, lo: nat, hi: nat)
    requires lo + 1 < hi <= |leaves|
    ensures var k := SplitFrom(1, hi - lo);
      LogValue(h, leaves[lo..hi]) ==
      h(NodeInput(k, LogValue(h, leaves[lo..lo + k]), hi - lo - k, LogValue(h, leaves[lo + k..hi])))
  {
    hide LogValue, NodeInput;
    var all := leaves[lo..hi];
    var k := SplitFrom(1, |all|);
    var l, r := Left(all), Right(all);
    assert l == leaves[lo..lo + k] && r == leaves[lo + k..hi] && |l| == k && |r| == hi - lo - k;
    WholeValue(h, all);
  }

  lemma LeafValue(h: Octets -> Octets, leaves: seq<Octets>, lo: nat)
    requires lo < |leaves|
    ensures LogValue(h, leaves[lo..lo + 1]) == leaves[lo]
  {
  }

  /** The largest power of two below `n`. */
  method Split(n: nat) returns (k: nat)
    requires n > 1
    ensures k == SplitFrom(1, n)
  {
    k := 1;
    while k * 2 < n
      invariant 0 < k < n && SplitFrom(k, n) == SplitFrom(1, n)
      decreases n - k
    {
      k := k * 2;
    }
  }

  /** The value over the leaves from `lo` to `hi`, as the source computes it. */
  method LogRoot(h: Octets -> Octets, leaves: seq<Octets>, lo: nat, hi: nat) returns (value: Octets)
    requires lo < hi <= |leaves|
    ensures value == LogValue(h, leaves[lo..hi])
    decreases hi - lo
  {
    hide *;
    if hi - lo == 1 {
      LeafValue(h, leaves, lo);
      return leaves[lo];
    }
    var k := Split(hi - lo);
    NodeValue(h, leaves, lo, hi);
    var left := LogRoot(h, leaves, lo, lo + k);
    var right := LogRoot(h, leaves, lo + k, hi);
    value := h(NodeInput(k, left, hi - lo - k, right));
  }

  /** Everything hashed for a value. */
  ghost function Hashed(h: Octets -> Octets, leaves: seq<Octets>): set<Octets>
    requires leaves != []
    decreases |leaves|
  {
    if |leaves| == 1 then {}
    else
      var l, r := Left(leaves), Right(leaves);
      {NodeInput(|l|, LogValue(h, l), |r|, LogValue(h, r))} + Hashed(h, l) + Hashed(h, r)
  }

  ghost predicate Collisionless(h: Octets -> Octets, x: set<Octets>) {
    && (forall i :: i in x ==> |h(i)| == 32)
    && (forall i, j :: i in x && j in x && h(i) == h(j) ==> i == j)
  }

  predicate LeafSized(leaves: seq<Octets>) { forall i :: 0 <= i < |leaves| ==> |leaves[i]| == 32 }

  lemma ValueSized(h: Octets -> Octets, leaves: seq<Octets>)
    requires leaves != [] && LeafSized(leaves) && Collisionless(h, Hashed(h, leaves))
    ensures |LogValue(h, leaves)| == 32
  {
  }

  lemma NodeInputInjective(n: nat, a: Octets, m: nat, b: Octets, n': nat, c: Octets, m': nat, d: Octets)
    requires NodeInput(n, a, m, b) == NodeInput(n', c, m', d) && |a| == |c|
    ensures a == c && b == d && (n == 1 <==> n' == 1) && (m == 1 <==> m' == 1)
  {
    var x, y := NodeInput(n, a, m, b), NodeInput(n', c, m', d);
    assert x[0] == Tag(n)[0] && y[0] == Tag(n')[0];
    assert x[1..1 + |a|] == a && y[1..1 + |a|] == c;
    assert x[1 + |a|] == Tag(m)[0] && y[1 + |a|] == Tag(m')[0];
    assert x[2 + |a|..] == b && y[2 + |a|..] == d;
  }

  lemma Narrower(h: Octets -> Octets, x: set<Octets>, y: set<Octets>)
    requires Collisionless(h, x) && y <= x
    ensures Collisionless(h, y)
  {
  }

  /** A node's tags say which of its sides is a single leaf, so the lengths need not be known to be equal. */
  lemma {:induction false} SameShapeCommits(h: Octets -> Octets, a: seq<Octets>, b: seq<Octets>)
    requires a != [] && b != [] && (|a| == 1 <==> |b| == 1) && LeafSized(a) && LeafSized(b)
    requires Collisionless(h, Hashed(h, a) + Hashed(h, b)) && LogValue(h, a) == LogValue(h, b)
    ensures a == b
    decreases |a|
  {
    if |a| > 1 {
      hide LogValue, Hashed, NodeInput, Left, Right;
      var l, r, m, s := Left(a), Right(a), Left(b), Right(b);
      var all := Hashed(h, a) + Hashed(h, b);
      NodeHashed(h, a);
      NodeHashed(h, b);
      Narrower(h, all, Hashed(h, l));
      Narrower(h, all, Hashed(h, m));
      ValueSized(h, l);
      ValueSized(h, m);
      NodeInputInjective(|l|, LogValue(h, l), |r|, LogValue(h, r), |m|, LogValue(h, m), |s|, LogValue(h, s));
      Narrower(h, all, Hashed(h, l) + Hashed(h, m));
      Narrower(h, all, Hashed(h, r) + Hashed(h, s));
      SameShapeCommits(h, l, m);
      SameShapeCommits(h, r, s);
    }
  }

  lemma NodeHashed(h: Octets -> Octets, a: seq<Octets>)
    requires |a| > 1
    ensures a == Left(a) + Right(a) && (LeafSized(a) ==> LeafSized(Left(a)) && LeafSized(Right(a)))
    ensures Hashed(h, Left(a)) <= Hashed(h, a) && Hashed(h, Right(a)) <= Hashed(h, a)
    ensures var l, r := Left(a), Right(a); var node := NodeInput(|l|, LogValue(h, l), |r|, LogValue(h, r));
      node in Hashed(h, a) && LogValue(h, a) == h(node)
  {
    hide NodeInput;
  }

  /**
   * Two logs have equal values exactly if they are the same leaves in the same order, or one is the single leaf that is
   * the other's value.
   */
  lemma ValueCommits(h: Octets -> Octets, a: seq<Octets>, b: seq<Octets>)
    requires a != [] && b != [] && LeafSized(a) && LeafSized(b) && Collisionless(h, Hashed(h, a) + Hashed(h, b))
    ensures LogValue(h, a) == LogValue(h, b) <==>
              || a == b
              || (|a| == 1 < |b| && a[0] == LogValue(h, b))
              || (|b| == 1 < |a| && b[0] == LogValue(h, a))
  {
    if LogValue(h, a) == LogValue(h, b) && (|a| == 1 <==> |b| == 1) { SameShapeCommits(h, a, b); }
  }

  /** A log whose one leaf is another log's value has that value. */
  lemma OneLeafForMany(h: Octets -> Octets, b: seq<Octets>)
    requires |b| > 1
    ensures LogValue(h, [LogValue(h, b)]) == LogValue(h, b) && [LogValue(h, b)] != b
  {
  }

  // ---- leaves that are entries

  datatype Entry = Entry(timestamp: nat, prefixRoot: Octets)

  function Span(width: nat): nat { if width == 0 then 1 else 256 * Span(width - 1) }

  /** A number in `width` octets, most significant first. */
  function Fixed(n: nat, width: nat): (r: Octets)
    requires n < Span(width)
    ensures |r| == width
  {
    if width == 0 then [] else Fixed(n / 256, width - 1) + [(n % 256) as byte]
  }

  lemma {:induction false} FixedInjective(n: nat, m: nat, width: nat)
    requires n < Span(width) && m < Span(width) && Fixed(n, width) == Fixed(m, width)
    ensures n == m
  {
    if width > 0 {
      var a, b := Fixed(n / 256, width - 1), Fixed(m / 256, width - 1);
      var x, y := a + [(n % 256) as byte], b + [(m % 256) as byte];
      assert x[..width - 1] == a && y[..width - 1] == b;
      assert x[width - 1] == (n % 256) as byte && y[width - 1] == (m % 256) as byte;
      FixedInjective(n / 256, m / 256, width - 1);
    }
  }

  /** The timestamp fits its eight octets. */
  predicate Storable(e: Entry) { e.timestamp < Span(8) }

  predicate AllStorable(es: seq<Entry>) { forall i :: 0 <= i < |es| ==> Storable(es[i]) }

  function EntryInput(e: Entry): (r: Octets)
    requires Storable(e)
    ensures |r| == 8 + |e.prefixRoot|
  {
    Fixed(e.timestamp, 8) + e.prefixRoot
  }

  lemma EntryInputInjective(e: Entry, f: Entry)
    requires Storable(e) && Storable(f) && EntryInput(e) == EntryInput(f)
    ensures e == f
  {
    hide Fixed;
    assert EntryInput(e)[..8] == Fixed(e.timestamp, 8) && EntryInput(f)[..8] == Fixed(f.timestamp, 8);
    assert EntryInput(e)[8..] == e.prefixRoot && EntryInput(f)[8..] == f.prefixRoot;
    FixedInjective(e.timestamp, f.timestamp, 8);
  }

  function Leaves(h: Octets -> Octets, es: seq<Entry>): (r: seq<Octets>)
    requires AllStorable(es)
    ensures |r| == |es| && forall i :: 0 <= i < |es| ==> r[i] == h(EntryInput(es[i]))
  {
    seq(|es|, i requires 0 <= i < |es| => h(EntryInput(es[i])))
  }

  /** Everything hashed for the root of a log of entries. */
  ghost function HashedFor(h: Octets -> Octets, es: seq<Entry>): set<Octets>
    requires es != [] && AllStorable(es)
  {
    (set i | 0 <= i < |es| :: EntryInput(es[i])) + Hashed(h, Leaves(h, es))
  }

  lemma LeavesSized(h: Octets -> Octets, es: seq<Entry>)
    requires es != [] && AllStorable(es) && Collisionless(h, HashedFor(h, es))
    ensures LeafSized(Leaves(h, es))
  {
    hide EntryInput, Hashed;
    forall i | 0 <= i < |es| ensures |Leaves(h, es)[i]| == 32 { assert EntryInput(es[i]) in HashedFor(h, es); }
  }

  /** What is hashed last for a log of several leaves. */
  function TopInput(h: Octets -> Octets, leaves: seq<Octets>): Octets
    requires |leaves| > 1
  {
    var l, r := Left(leaves), Right(leaves);
    NodeInput(|l|, LogValue(h, l), |r|, LogValue(h, r))
  }

  lemma OneEntryOrMany(h: Octets -> Octets, e: Entry, fs: seq<Entry>, all: set<Octets>)
    requires Storable(e) && |fs| > 1 && AllStorable(fs) && Collisionless(h, all)
    requires EntryInput(e) in all && HashedFor(h, fs) <= all
    ensures h(EntryInput(e)) == LogValue(h, Leaves(h, fs)) <==> EntryInput(e) == TopInput(h, Leaves(h, fs))
  {
    hide Hashed, LogValue, EntryInput, NodeInput;
    NodeHashed(h, Leaves(h, fs));
    assert TopInput(h, Leaves(h, fs)) in all;
  }

  lemma TopSized(h: Octets -> Octets, fs: seq<Entry>)
    requires |fs| > 1 && AllStorable(fs) && Collisionless(h, HashedFor(h, fs))
    ensures |TopInput(h, Leaves(h, fs))| == 66
  {
    hide Hashed, LogValue;
    var b := Leaves(h, fs);
    NodeHashed(h, b);
    LeavesSized(h, fs);
    Narrower(h, HashedFor(h, fs), Hashed(h, Left(b)));
    Narrower(h, HashedFor(h, fs), Hashed(h, Right(b)));
    ValueSized(h, Left(b));
    ValueSized(h, Right(b));
  }

  /**
   * With no collision among what two roots hash, they are equal exactly if the logs are, or if the one entry of a log is
   * spelled as the last input of the other.
   */
  lemma RootCommits(h: Octets -> Octets, es: seq<Entry>, fs: seq<Entry>)
    requires es != [] && fs != [] && AllStorable(es) && AllStorable(fs)
    requires Collisionless(h, HashedFor(h, es) + HashedFor(h, fs))
    ensures LogValue(h, Leaves(h, es)) == LogValue(h, Leaves(h, fs)) <==>
              || es == fs
              || (|es| == 1 < |fs| && EntryInput(es[0]) == TopInput(h, Leaves(h, fs)))
              || (|fs| == 1 < |es| && EntryInput(fs[0]) == TopInput(h, Leaves(h, es)))
  {
    hide Hashed, LogValue, EntryInput, LeafSized, TopInput;
    var all := HashedFor(h, es) + HashedFor(h, fs);
    var a, b := Leaves(h, es), Leaves(h, fs);
    Narrower(h, all, HashedFor(h, es));
    Narrower(h, all, HashedFor(h, fs));
    LeavesSized(h, es);
    LeavesSized(h, fs);
    Narrower(h, all, Hashed(h, a) + Hashed(h, b));
    ValueCommits(h, a, b);
    assert EntryInput(es[0]) in all && EntryInput(fs[0]) in all;
    if |es| == 1 < |fs| { OneEntryOrMany(h, es[0], fs, all); }
    if |fs| == 1 < |es| { OneEntryOrMany(h, fs[0], es, all); }
    if a == b {
      forall i | 0 <= i < |es| ensures es[i] == fs[i] {
        assert EntryInput(es[i]) in all && EntryInput(fs[i]) in all;
        assert h(EntryInput(es[i])) == a[i] == b[i] == h(EntryInput(fs[i]));
        EntryInputInjective(es[i], fs[i]);
      }
    }
  }

  /** Over prefix roots of a hash's length, equal roots stand over equal logs, whatever their numbers of entries. */
  lemma RootsTellLogs(h: Octets -> Octets, es: seq<Entry>, fs: seq<Entry>)
    requires es != [] && fs != [] && AllStorable(es) && AllStorable(fs)
    requires forall e :: e in es + fs ==> |e.prefixRoot| == 32
    requires Collisionless(h, HashedFor(h, es) + HashedFor(h, fs))
    ensures LogValue(h, Leaves(h, es)) == LogValue(h, Leaves(h, fs)) <==> es == fs
  {
    hide Hashed, LogValue, TopInput;
    var all := HashedFor(h, es) + HashedFor(h, fs);
    RootCommits(h, es, fs);
    Narrower(h, all, HashedFor(h, es));
    Narrower(h, all, HashedFor(h, fs));
    assert es[0] in es + fs && fs[0] in es + fs;
    if |es| == 1 < |fs| { TopSized(h, fs); }
    if |fs| == 1 < |es| { TopSized(h, es); }
  }
}
