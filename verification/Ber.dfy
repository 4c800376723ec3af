/** BER as the gateway writes it (`snmp-answer.ts`) and reads it (`usm.ts`), and that reading gives back what was written. */
module Ber {
  import opened Prelude
  import opened Bytes

  type Octets = seq<byte>

  // ---- writing

  /** The octets of `n`, most significant first, none for 0. */
  function ToBytes(n: nat): (r: Octets)
    ensures n == 0 <==> r == []
    ensures r != [] ==> r[0] != 0
  {
    if n == 0 then [] else ToBytes(n / 256) + [(n % 256) as byte]
  }

  /** A definite length in its shortest form. */
  function Len(n: nat): (r: Octets)
    ensures r != []
  {
    if n < 128 then [n as byte] else [(128 + |ToBytes(n)| % 128) as byte] + ToBytes(n)
  }

  function Enc(tag: byte, body: Octets): Octets {
    [tag] + Len(|body|) + body
  }

  // ---- reading

  datatype Tlv = Tlv(tag: byte, start: nat, end: nat)

  /** One element at `pos`, within `limit`. */
  function ReadTlv(b: Octets, pos: nat, limit: nat): (r: Option<Tlv>)
    requires limit <= |b|
    ensures r.Some? ==> pos + 2 <= r.value.start <= r.value.end <= limit
  {
    if pos >= limit || b[pos] as int % 32 == 31 || pos + 1 >= limit then None
    else
      var first := b[pos + 1] as int;
      if first < 128 then
        if pos + 2 + first > limit then None else Some(Tlv(b[pos], pos + 2, pos + 2 + first))
      else
        var n := first - 128;
        if n < 1 || n > 4 || pos + 2 + n > limit then None
        else
          var len := FromBytes(b[pos + 2..pos + 2 + n]);
          if pos + 2 + n + len > limit then None else Some(Tlv(b[pos], pos + 2 + n, pos + 2 + n + len))
  }

  /** The elements that exactly fill a span. */
  function Children(b: Octets, start: nat, end: nat): (r: Option<seq<Tlv>>)
    requires end <= |b|
    ensures r.Some? ==> forall i :: 0 <= i < |r.value| ==> start + 2 <= r.value[i].start <= r.value[i].end <= end
    decreases end - start
  {
    if start >= end then Some([])
    else
      var t := ReadTlv(b, start, end);
      if t.None? then None
      else
        var rest := Children(b, t.value.end, end);
        if rest.None? then None else Some([t.value] + rest.value)
  }

  function Content(b: Octets, t: Tlv): Octets
    requires t.start <= t.end <= |b|
  {
    b[t.start..t.end]
  }

  // ---- reading what was written

  lemma {:induction false} FromToBytes(n: nat)
    ensures FromBytes(ToBytes(n)) == n
  {
    if n > 0 {
      FromToBytes(n / 256);
      assert ToBytes(n)[..|ToBytes(n)| - 1] == ToBytes(n / 256);
    }
  }

  function Pow256(k: nat): nat {
    if k == 0 then 1 else 256 * Pow256(k - 1)
  }

  lemma {:induction false} ToBytesShort(n: nat, k: nat)
    requires n < Pow256(k)
    ensures |ToBytes(n)| <= k
  {
    if n > 0 { ToBytesShort(n / 256, k - 1); }
  }

  /** One-octet tags, contents short enough for a four-octet length. */
  predicate Writable(tag: byte, body: Octets) {
    tag as int % 32 != 31 && |body| < 0x1_0000_0000
  }

  /** The octets written at a place. */
  predicate At(b: Octets, pos: nat, w: Octets) {
    pos + |w| <= |b| && b[pos..pos + |w|] == w
  }

  lemma AtParts(b: Octets, pos: nat, u: Octets, v: Octets)
    requires At(b, pos, u + v)
    ensures At(b, pos, u) && At(b, pos + |u|, v)
  {
    var s := b[pos..pos + |u + v|];
    assert u == s[..|u|] && v == s[|u|..];
  }

  lemma LenReads(b: Octets, pos: nat, n: nat)
    requires n < 0x1_0000_0000 && At(b, pos, Len(n))
    ensures var first := b[pos] as int;
            if n < 128 then first == n && |Len(n)| == 1
            else 129 <= first <= 132 && |Len(n)| == first - 127 && FromBytes(b[pos + 1..pos + 1 + (first - 128)]) == n
  {
    assert b[pos] == Len(n)[0];
    if n >= 128 {
      var w := ToBytes(n);
      assert n < Pow256(4) by { assert Pow256(1) == 256 && Pow256(2) == 0x1_0000 && Pow256(3) == 0x100_0000 && Pow256(4) == 0x1_0000_0000; }
      ToBytesShort(n, 4);
      FromToBytes(n);
      AtParts(b, pos, [(128 + |w| % 128) as byte], w);
    }
  }

  /** An element written at `pos` is read there, with its content where it was put. */
  lemma ReadsEnc(b: Octets, pos: nat, limit: nat, tag: byte, body: Octets)
    requires Writable(tag, body) && limit <= |b| && pos + |Enc(tag, body)| <= limit && At(b, pos, Enc(tag, body))
    ensures var start := pos + 1 + |Len(|body|)|;
            && pos + |Enc(tag, body)| == start + |body| && At(b, start, body)
            && ReadTlv(b, pos, limit) == Some(Tlv(tag, start, start + |body|))
  {
    hide ToBytes, FromBytes, Len;
    AtParts(b, pos, [tag] + Len(|body|), body);
    AtParts(b, pos, [tag], Len(|body|));
    assert b[pos] == tag by { assert b[pos..pos + 1][0] == tag; }
    LenReads(b, pos + 1, |body|);
  }

  /** ... and is the first child of a span it starts. */
  lemma ReadsNext(b: Octets, pos: nat, limit: nat, tag: byte, body: Octets)
    requires Writable(tag, body) && limit <= |b| && pos + |Enc(tag, body)| <= limit && At(b, pos, Enc(tag, body))
    ensures var start, end := pos + 1 + |Len(|body|)|, pos + |Enc(tag, body)|;
            && end == start + |body| && At(b, start, body)
            && (Children(b, end, limit).Some? ==> Children(b, pos, limit) == Some([Tlv(tag, start, end)] + Children(b, end, limit).value))
  {
    hide Len;
    ReadsEnc(b, pos, limit, tag, body);
    hide ReadTlv;
  }

  // ---- integers

  /** An INTEGER's content in its shortest two's complement form. */
  function IntBytes(v: int): (r: Octets)
    ensures r != []
    decreases if v >= 0 then v else -v
  {
    var lo, x := v % 256, v / 256;
    if (x == 0 && lo < 128) || (x == -1 && lo >= 128) then [lo as byte] else IntBytes(x) + [lo as byte]
  }

  /** Two's complement. */
  function SignedOf(c: Octets): int
    requires c != []
  {
    FromBytes(c) - if c[0] as int >= 128 then Pow256(|c|) else 0
  }

  lemma SignedMore(c: Octets, lo: byte)
    requires c != []
    ensures SignedOf(c + [lo]) == SignedOf(c) * 256 + lo as int
  {
    assert (c + [lo])[..|c|] == c;
  }

  lemma {:induction false} IntReads(v: int)
    ensures SignedOf(IntBytes(v)) == v
    decreases if v >= 0 then v else -v
  {
    var lo, x := v % 256, v / 256;
    assert v == 256 * x + lo;
    if (x == 0 && lo < 128) || (x == -1 && lo >= 128) {
      assert [lo as byte][..0] == [];
      assert FromBytes([]) == 0 && Pow256(1) == 256 by { assert Pow256(0) == 1; }
      assert FromBytes([lo as byte]) == lo;
    } else {
      IntReads(x);
      SignedMore(IntBytes(x), lo as byte);
    }
  }

  lemma {:induction false} IntShort(v: int, k: nat)
    requires k >= 1 && -128 * Pow256(k - 1) <= v < 128 * Pow256(k - 1)
    ensures |IntBytes(v)| <= k
    decreases k
  {
    var x := v / 256;
    assert v == 256 * x + v % 256;
    if k > 1 {
      assert Pow256(k - 1) == 256 * Pow256(k - 2);
      IntShort(x, k - 1);
    } else {
      assert Pow256(0) == 1;
    }
  }

  /** An unsigned content in its shortest form, with a leading 0 where the top bit would be set. */
  function UintBytes(v: nat): Octets {
    var w := if v == 0 then [0] else ToBytes(v);
    if w[0] as int >= 128 then [0] + w else w
  }

  lemma {:induction false} LeadingZero(w: Octets)
    ensures FromBytes([0] + w) == FromBytes(w)
  {
    if w == [] {
      assert [0] + w == [0] && [0 as byte][..0] == [];
    } else {
      assert ([0] + w)[..|[0] + w| - 1] == [0] + w[..|w| - 1];
      LeadingZero(w[..|w| - 1]);
    }
  }

  lemma UintReads(v: nat)
    ensures FromBytes(UintBytes(v)) == v && UintBytes(v) != []
    ensures v < 0x1_0000_0000 ==> |UintBytes(v)| <= 5
  {
    FromToBytes(v);
    LeadingZero([0]);
    LeadingZero(ToBytes(v));
    assert FromBytes([0]) == 0 by { LeadingZero([]); assert [0] + [] == [0 as byte]; }
    if v < 0x1_0000_0000 {
      assert v < Pow256(4) by { assert Pow256(1) == 256 && Pow256(2) == 0x1_0000 && Pow256(3) == 0x100_0000; }
      ToBytesShort(v, 4);
    }
  }

  // ---- object identifiers

  const SUB_MAX := 0xFFFF_FFFF_FFFF_FFFF

  function High(x: nat): Octets {
    if x == 0 then [] else High(x / 128) + [(128 + x % 128) as byte]
  }

  function SubBytes(sub: nat): Octets {
    High(sub / 128) + [(sub % 128) as byte]
  }

  function AllSubBytes(subs: seq<nat>): Octets {
    if subs == [] then [] else SubBytes(subs[0]) + AllSubBytes(subs[1..])
  }

  /** The first two arcs share a subidentifier. */
  function OidBytes(arcs: seq<nat>): Octets
    requires |arcs| >= 2
  {
    AllSubBytes([arcs[0] * 40 + arcs[1]] + arcs[2..])
  }

  /** Base-128 subidentifiers from the octets left, with `v` gathered of one that is still open. */
  function Subs(c: Octets, v: nat, open: bool): Option<seq<nat>> {
    if c == [] then (if open then None else Some([]))
    else
      var w := v * 128 + c[0] as int % 128;
      if w > SUB_MAX then None
      else if c[0] as int >= 128 then Subs(c[1..], w, true)
      else
        var rest := Subs(c[1..], 0, false);
        if rest.None? then None else Some([w] + rest.value)
  }

  function OidOf(c: Octets): Option<seq<nat>> {
    var subs := Subs(c, 0, false);
    if c == [] || subs.None? || subs.value == [] then None
    else
      var x := subs.value[0];
      var head := if x < 40 then [0, x] else if x < 80 then [1, x - 40] else [2, x - 80];
      Some(head + subs.value[1..])
  }

  /** An octet that says more is to come. */
  lemma SubsMore(b: byte, tail: Octets, v: nat, open: bool)
    requires b as int >= 128 && v * 128 + b as int % 128 <= SUB_MAX
    ensures Subs([b] + tail, v, open) == Subs(tail, v * 128 + b as int % 128, true)
  {
    assert ([b] + tail)[1..] == tail;
  }

  lemma {:induction false} HighReads(x: nat, tail: Octets)
    requires x <= SUB_MAX
    ensures Subs(High(x) + tail, 0, false) == Subs(tail, x, x > 0)
    decreases x
  {
    hide Subs;
    if x == 0 {
      assert High(x) + tail == tail;
    } else {
      var b := (128 + x % 128) as byte;
      assert x == x / 128 * 128 + x % 128 && b as int % 128 == x % 128;
      HighReads(x / 128, [b] + tail);
      assert High(x) + tail == High(x / 128) + ([b] + tail);
      SubsMore(b, tail, x / 128, x / 128 > 0);
    }
  }

  /** One subidentifier and what follows it. */
  lemma SubReads(s: nat, tail: Octets)
    requires s <= SUB_MAX && Subs(tail, 0, false).Some?
    ensures Subs(SubBytes(s) + tail, 0, false) == Some([s] + Subs(tail, 0, false).value)
  {
    hide High;
    var b := (s % 128) as byte;
    HighReads(s / 128, [b] + tail);
    assert SubBytes(s) + tail == High(s / 128) + ([b] + tail);
    assert ([b] + tail)[1..] == tail;
    assert s == s / 128 * 128 + s % 128;
  }

  lemma {:induction false} SubsRead(subs: seq<nat>)
    requires forall i :: 0 <= i < |subs| ==> subs[i] <= SUB_MAX
    ensures Subs(AllSubBytes(subs), 0, false) == Some(subs)
  {
    if subs != [] {
      hide Subs, SubBytes;
      SubsRead(subs[1..]);
      SubReads(subs[0], AllSubBytes(subs[1..]));
      assert [subs[0]] + subs[1..] == subs;
    }
  }

  /** An object identifier proper: the first arc is 0, 1 or 2, and only under 2 may the second exceed 39. */
  predicate IsOid(arcs: seq<nat>) {
    && |arcs| >= 2 && arcs[0] <= 2 && (arcs[0] < 2 ==> arcs[1] < 40)
    && arcs[0] * 40 + arcs[1] <= SUB_MAX && forall i :: 2 <= i < |arcs| ==> arcs[i] <= SUB_MAX
  }

  lemma OidReads(arcs: seq<nat>)
    requires IsOid(arcs)
    ensures OidOf(OidBytes(arcs)) == Some(arcs)
  {
    var subs := [arcs[0] * 40 + arcs[1]] + arcs[2..];
    SubsRead(subs);
    assert AllSubBytes(subs) != [];
    assert subs[1..] == arcs[2..];
    assert arcs == [arcs[0], arcs[1]] + arcs[2..];
  }
}
