/**
 * The prefix tree's root of `alias-transparency.ts`: it never looks past the last bit of an index, does not depend
 * on the order of its leaves, and commits to them.
 */
module PrefixTree {
  import opened Bytes
  import opened Powers
  import opened Prelude

  type Octets = seq<byte>

  datatype Leaf = Leaf(index: Octets, commitment: Octets)

  function Zero32(): (z: Octets)
    ensures |z| == 32
  {
    [0, 0, 0, 0, 0, 0, 0, 0, 0, 0, 0, 0, 0, 0, 0, 0, 0, 0, 0, 0, 0, 0, 0, 0, 0, 0, 0, 0, 0, 0, 0, 0]
  }

  function Shifted(b: int, k: nat): int
    requires b >= 0
  {
    if k == 0 then b else Shifted(b / 2, k - 1)
  }

  /** The binary digit of weight 2^`k`. */
  function Digit(b: int, k: nat): int
    requires b >= 0
  {
    Shifted(b, k) % 2
  }

  /** Bit `depth` of an index, the highest bit of the first octet first. */
  function Bit(index: Octets, depth: nat): int
    requires |index| == 32 && depth < 256
  {
    Digit(index[depth / 8] as int, 7 - depth % 8)
  }

  function Side(leaves: seq<Leaf>, depth: nat, v: int): (r: seq<Leaf>)
    requires Shaped(leaves) && depth < 256
    ensures forall l :: l in r <==> l in leaves && Bit(l.index, depth) == v
    ensures Shaped(r)
  {
    if leaves == [] then []
    else
      assert forall l :: l in leaves[1..] ==> l in leaves;
      (if Bit(leaves[0].index, depth) == v then [leaves[0]] else []) + Side(leaves[1..], depth, v)
  }

  predicate Shaped(leaves: seq<Leaf>) {
    forall i :: 0 <= i < |leaves| ==> |leaves[i].index| == 32 && |leaves[i].commitment| == 32
  }

  predicate DistinctIndexes(leaves: seq<Leaf>) {
    forall i, j :: 0 <= i < j < |leaves| ==> leaves[i].index != leaves[j].index
  }

  /** The leaves of a subtree share the bits above it. */
  predicate Alike(leaves: seq<Leaf>, depth: nat)
    requires Shaped(leaves) && depth <= 256
  {
    forall i, d :: 0 < i < |leaves| && 0 <= d < depth ==> Bit(leaves[i].index, d) == Bit(leaves[0].index, d)
  }

  predicate Subtree(leaves: seq<Leaf>, depth: nat) {
    depth <= 256 && leaves != [] && Shaped(leaves) && DistinctIndexes(leaves) && Alike(leaves, depth)
  }

  // ---- 256 bits tell indexes apart

  lemma {:induction false} SameDigits(b: int, c: int, k: nat)
    requires 0 <= b && 0 <= c && Shifted(b, k) == Shifted(c, k)
    requires forall j: nat :: j < k ==> Digit(b, j) == Digit(c, j)
    ensures b == c
    decreases k
  {
    if k > 0 {
      assert Digit(b, 0) == Digit(c, 0);
      forall j: nat | j < k - 1 ensures Digit(b / 2, j) == Digit(c / 2, j) {
        assert Digit(b, j + 1) == Digit(c, j + 1);
      }
      SameDigits(b / 2, c / 2, k - 1);
    }
  }

  lemma {:induction false} ShiftedSmall(b: int, k: nat, bound: int)
    requires 0 <= b < bound && bound == Two(k)
    ensures Shifted(b, k) == 0
    decreases k
  {
    if k > 0 { ShiftedSmall(b / 2, k - 1, bound / 2); }
  }

  lemma SameBitsSameIndex(a: Octets, b: Octets)
    requires |a| == 32 && |b| == 32 && forall d :: 0 <= d < 256 ==> Bit(a, d) == Bit(b, d)
    ensures a == b
  {
    forall i | 0 <= i < 32 ensures a[i] == b[i] {
      var x, y := a[i] as int, b[i] as int;
      forall j: nat | j < 8 ensures Digit(x, j) == Digit(y, j) {
        var d := 8 * i + (7 - j);
        assert d / 8 == i && 7 - d % 8 == j;
        assert Bit(a, d) == Bit(b, d);
      }
      TwoSmall();
      ShiftedSmall(x, 8, 256);
      ShiftedSmall(y, 8, 256);
      SameDigits(x, y, 8);
    }
  }

  /** Two leaves always part by bit 255, so a subtree of more than one never reaches past it. */
  lemma PartInTime(leaves: seq<Leaf>, depth: nat)
    requires Subtree(leaves, depth) && |leaves| > 1
    ensures depth < 256
  {
    if depth == 256 {
      forall d | 0 <= d < 256 ensures Bit(leaves[0].index, d) == Bit(leaves[1].index, d) { }
      SameBitsSameIndex(leaves[0].index, leaves[1].index);
    }
  }

  lemma {:induction false} SideDistinct(leaves: seq<Leaf>, depth: nat, v: int)
    requires Shaped(leaves) && DistinctIndexes(leaves) && depth < 256
    ensures DistinctIndexes(Side(leaves, depth, v))
  {
    if leaves != [] {
      var rest := leaves[1..];
      SideDistinct(rest, depth, v);
      var s := Side(rest, depth, v);
      forall i | 0 <= i < |s| ensures s[i].index != leaves[0].index {
        assert s[i] in s;
        assert s[i] in rest;
      }
    }
  }

  lemma SideSubtree(leaves: seq<Leaf>, depth: nat, v: int)
    requires Subtree(leaves, depth) && depth < 256 && Side(leaves, depth, v) != []
    ensures Subtree(Side(leaves, depth, v), depth + 1)
  {
    hide Bit;
    var s := Side(leaves, depth, v);
    SideDistinct(leaves, depth, v);
    forall i, d | 0 < i < |s| && 0 <= d < depth + 1 ensures Bit(s[i].index, d) == Bit(s[0].index, d) {
      assert s[i] in s && s[0] in s;
      var j :| 0 <= j < |leaves| && leaves[j] == s[i];
      var k :| 0 <= k < |leaves| && leaves[k] == s[0];
      if d < depth {
        assert Bit(leaves[j].index, d) == Bit(leaves[0].index, d);
        assert Bit(leaves[k].index, d) == Bit(leaves[0].index, d);
      }
    }
  }

  // ---- the root

  function LeafInput(l: Leaf): Octets { [2] + l.index + l.commitment }

  function NodeInput(left: Octets, right: Octets): Octets { [3] + left + right }

  function Root(h: Octets -> Octets, leaves: seq<Leaf>, depth: nat): Octets
    requires Subtree(leaves, depth)
    decreases 256 - depth, 1
  {
    if |leaves| == 1 then h(LeafInput(leaves[0]))
    else
      PartInTime(leaves, depth);
      h(NodeInput(SideRoot(h, leaves, depth, 0), SideRoot(h, leaves, depth, 1)))
  }

  function SideRoot(h: Octets -> Octets, leaves: seq<Leaf>, depth: nat, v: int): Octets
    requires Subtree(leaves, depth) && depth < 256
    decreases 256 - depth, 0
  {
    var s := Side(leaves, depth, v);
    if s == [] then Zero32() else (SideSubtree(leaves, depth, v); Root(h, s, depth + 1))
  }

  /** The root as it is answered: nothing for leaves that are not shaped, not distinct or not there at all. */
  function PrefixRoot(h: Octets -> Octets, leaves: seq<Leaf>): Option<Octets> {
    if leaves == [] || !Shaped(leaves) || !DistinctIndexes(leaves) then None else Some(Root(h, leaves, 0))
  }

  // ---- the order of the leaves

  ghost predicate SameLeaves(a: seq<Leaf>, b: seq<Leaf>) {
    forall l :: l in a <==> l in b
  }

  lemma SameLeavesSameCount(a: seq<Leaf>, b: seq<Leaf>)
    requires SameLeaves(a, b) && Shaped(b) && DistinctIndexes(b) && |a| == 1 && b != []
    ensures a == b
  {
    forall i | 0 <= i < |b| ensures b[i] == a[0] {
      assert b[i] in b;
    }
    assert |b| > 1 ==> b[0].index != b[1].index;
  }

  lemma SameSides(a: seq<Leaf>, b: seq<Leaf>, depth: nat, v: int)
    requires SameLeaves(a, b) && Shaped(a) && Shaped(b) && depth < 256
    ensures SameLeaves(Side(a, depth, v), Side(b, depth, v))
    ensures Side(a, depth, v) == [] <==> Side(b, depth, v) == []
  {
    var s, t := Side(a, depth, v), Side(b, depth, v);
    if s != [] { assert s[0] in t; }
    if t != [] { assert t[0] in s; }
  }

  /** The root is a function of the set of leaves. */
  lemma {:induction false} RootIgnoresOrder(h: Octets -> Octets, a: seq<Leaf>, b: seq<Leaf>, depth: nat)
    requires Subtree(a, depth) && Subtree(b, depth) && SameLeaves(a, b)
    ensures Root(h, a, depth) == Root(h, b, depth)
    decreases 256 - depth, 1
  {
    if |a| == 1 {
      SameLeavesSameCount(a, b);
    } else if |b| == 1 {
      SameLeavesSameCount(b, a);
    } else {
      PartInTime(a, depth);
      PartInTime(b, depth);
      SideIgnoresOrder(h, a, b, depth, 0);
      SideIgnoresOrder(h, a, b, depth, 1);
    }
  }

  lemma {:induction false} SideIgnoresOrder(h: Octets -> Octets, a: seq<Leaf>, b: seq<Leaf>, depth: nat, v: int)
    requires Subtree(a, depth) && Subtree(b, depth) && SameLeaves(a, b) && depth < 256
    ensures SideRoot(h, a, depth, v) == SideRoot(h, b, depth, v)
    decreases 256 - depth, 0
  {
    SameSides(a, b, depth, v);
    if Side(a, depth, v) != [] {
      SideSubtree(a, depth, v);
      SideSubtree(b, depth, v);
      RootIgnoresOrder(h, Side(a, depth, v), Side(b, depth, v), depth + 1);
    }
  }

  // ---- the root commits to its leaves

  /** Everything that is hashed on the way to a root. */
  ghost function Hashed(h: Octets -> Octets, leaves: seq<Leaf>, depth: nat): set<Octets>
    requires Subtree(leaves, depth)
    decreases 256 - depth, 1
  {
    if |leaves| == 1 then {LeafInput(leaves[0])}
    else
      PartInTime(leaves, depth);
      {NodeInput(SideRoot(h, leaves, depth, 0), SideRoot(h, leaves, depth, 1))} +
      SideHashed(h, leaves, depth, 0) + SideHashed(h, leaves, depth, 1)
  }

  ghost function SideHashed(h: Octets -> Octets, leaves: seq<Leaf>, depth: nat, v: int): set<Octets>
    requires Subtree(leaves, depth) && depth < 256
    decreases 256 - depth, 0
  {
    var s := Side(leaves, depth, v);
    if s == [] then {} else (SideSubtree(leaves, depth, v); Hashed(h, s, depth + 1))
  }

  /** A 32-octet hash with neither a collision nor 32 zeros among the inputs `x`. */
  ghost predicate Collisionless(h: Octets -> Octets, x: set<Octets>) {
    && (forall i :: i in x ==> |h(i)| == 32 && h(i) != Zero32())
    && (forall i, j :: i in x && j in x && h(i) == h(j) ==> i == j)
  }

  lemma Narrower(h: Octets -> Octets, x: set<Octets>, y: set<Octets>)
    requires Collisionless(h, x) && y <= x
    ensures Collisionless(h, y)
  {
  }

  lemma RootIsHashed(h: Octets -> Octets, leaves: seq<Leaf>, depth: nat)
    requires Subtree(leaves, depth)
    ensures |leaves| == 1 ==> LeafInput(leaves[0]) in Hashed(h, leaves, depth)
    ensures exists i :: i in Hashed(h, leaves, depth) && h(i) == Root(h, leaves, depth)
  {
    if |leaves| == 1 {
      assert LeafInput(leaves[0]) in Hashed(h, leaves, depth);
    } else {
      PartInTime(leaves, depth);
      assert NodeInput(SideRoot(h, leaves, depth, 0), SideRoot(h, leaves, depth, 1)) in Hashed(h, leaves, depth);
    }
  }

  lemma SideRootShaped(h: Octets -> Octets, leaves: seq<Leaf>, depth: nat, v: int)
    requires Subtree(leaves, depth) && depth < 256 && Collisionless(h, SideHashed(h, leaves, depth, v))
    ensures |SideRoot(h, leaves, depth, v)| == 32
    ensures SideRoot(h, leaves, depth, v) == Zero32() <==> Side(leaves, depth, v) == []
  {
    var s := Side(leaves, depth, v);
    if s != [] {
      SideSubtree(leaves, depth, v);
      RootIsHashed(h, s, depth + 1);
    }
  }

  lemma NodeInputInjective(a: Octets, b: Octets, c: Octets, d: Octets)
    requires NodeInput(a, b) == NodeInput(c, d) && |a| == |c|
    ensures a == c && b == d
  {
    assert NodeInput(a, b)[1..][..|a|] == a && NodeInput(c, d)[1..][..|a|] == c;
    assert NodeInput(a, b)[1 + |a|..] == b && NodeInput(c, d)[1 + |a|..] == d;
  }

  lemma LeafInputInjective(a: Leaf, b: Leaf)
    requires LeafInput(a) == LeafInput(b) && |a.index| == |b.index|
    ensures a == b
  {
    assert LeafInput(a)[1..][..|a.index|] == a.index && LeafInput(b)[1..][..|a.index|] == b.index;
    assert LeafInput(a)[1 + |a.index|..] == a.commitment && LeafInput(b)[1 + |a.index|..] == b.commitment;
  }

  /** A leaf is on the side its bit says, so two subtrees with the same sides have the same leaves. */
  lemma SidesMakeLeaves(a: seq<Leaf>, b: seq<Leaf>, depth: nat)
    requires Shaped(a) && Shaped(b) && depth < 256
    requires SameLeaves(Side(a, depth, 0), Side(b, depth, 0)) && SameLeaves(Side(a, depth, 1), Side(b, depth, 1))
    ensures SameLeaves(a, b)
  {
    forall l ensures l in a <==> l in b {
      if l in a || l in b {
        var v := Bit(l.index, depth);
        assert l in a <==> l in Side(a, depth, v);
        assert l in b <==> l in Side(b, depth, v);
      }
    }
  }

  /** Two equal roots stand over the same leaves, when nothing hashed under either collides. */
  lemma {:induction false} RootCommits(h: Octets -> Octets, a: seq<Leaf>, b: seq<Leaf>, depth: nat)
    requires Subtree(a, depth) && Subtree(b, depth)
    requires Collisionless(h, Hashed(h, a, depth) + Hashed(h, b, depth))
    requires Root(h, a, depth) == Root(h, b, depth)
    ensures SameLeaves(a, b)
    decreases 256 - depth, 1
  {
    var all := Hashed(h, a, depth) + Hashed(h, b, depth);
    if |a| == 1 && |b| == 1 {
      assert LeafInput(a[0]) in all && LeafInput(b[0]) in all;
      LeafInputInjective(a[0], b[0]);
      assert a == [a[0]] && b == [b[0]];
    } else if |a| > 1 && |b| > 1 {
      PartInTime(a, depth);
      PartInTime(b, depth);
      var l, r := SideRoot(h, a, depth, 0), SideRoot(h, a, depth, 1);
      var m, s := SideRoot(h, b, depth, 0), SideRoot(h, b, depth, 1);
      assert NodeInput(l, r) in all && NodeInput(m, s) in all;
      Narrower(h, all, SideHashed(h, a, depth, 0));
      Narrower(h, all, SideHashed(h, b, depth, 0));
      SideRootShaped(h, a, depth, 0);
      SideRootShaped(h, b, depth, 0);
      NodeInputInjective(l, r, m, s);
      Narrower(h, all, SideHashed(h, a, depth, 0) + SideHashed(h, b, depth, 0));
      Narrower(h, all, SideHashed(h, a, depth, 1) + SideHashed(h, b, depth, 1));
      SideCommits(h, a, b, depth, 0);
      SideCommits(h, a, b, depth, 1);
      SidesMakeLeaves(a, b, depth);
    } else {
      LeafIsNoNode(h, a, b, depth);
    }
  }

  /** The tag in front keeps a leaf's hash apart from a node's. */
  lemma LeafIsNoNode(h: Octets -> Octets, a: seq<Leaf>, b: seq<Leaf>, depth: nat)
    requires Subtree(a, depth) && Subtree(b, depth) && (|a| == 1) != (|b| == 1)
    requires Collisionless(h, Hashed(h, a, depth) + Hashed(h, b, depth))
    ensures Root(h, a, depth) != Root(h, b, depth)
  {
    var one, more := if |a| == 1 then a else b, if |a| == 1 then b else a;
    PartInTime(more, depth);
    var node := NodeInput(SideRoot(h, more, depth, 0), SideRoot(h, more, depth, 1));
    assert node in Hashed(h, more, depth) && LeafInput(one[0]) in Hashed(h, one, depth);
    assert node[0] == 3 && LeafInput(one[0])[0] == 2;
  }

  lemma {:induction false} SideCommits(h: Octets -> Octets, a: seq<Leaf>, b: seq<Leaf>, depth: nat, v: int)
    requires Subtree(a, depth) && Subtree(b, depth) && depth < 256
    requires Collisionless(h, SideHashed(h, a, depth, v) + SideHashed(h, b, depth, v))
    requires SideRoot(h, a, depth, v) == SideRoot(h, b, depth, v)
    ensures SameLeaves(Side(a, depth, v), Side(b, depth, v))
    decreases 256 - depth, 0
  {
    var all := SideHashed(h, a, depth, v) + SideHashed(h, b, depth, v);
    Narrower(h, all, SideHashed(h, a, depth, v));
    Narrower(h, all, SideHashed(h, b, depth, v));
    SideRootShaped(h, a, depth, v);
    SideRootShaped(h, b, depth, v);
    if Side(a, depth, v) != [] {
      SideSubtree(a, depth, v);
      SideSubtree(b, depth, v);
      RootCommits(h, Side(a, depth, v), Side(b, depth, v), depth + 1);
    }
  }

  /** Two answered roots are equal exactly when the leaves are the same ones, in whatever order. */
  lemma RootsTellLeaves(h: Octets -> Octets, a: seq<Leaf>, b: seq<Leaf>)
    requires PrefixRoot(h, a).Some? && PrefixRoot(h, b).Some?
    requires Collisionless(h, Hashed(h, a, 0) + Hashed(h, b, 0))
    ensures PrefixRoot(h, a) == PrefixRoot(h, b) <==> SameLeaves(a, b)
  {
    if Root(h, a, 0) == Root(h, b, 0) { RootCommits(h, a, b, 0); }
    if SameLeaves(a, b) { RootIgnoresOrder(h, a, b, 0); }
  }
}
