/**
 * The loops by which `snmp-answer.ts` writes BER and `usm.ts` reads it, each against the function of `Ber` or `Snmp`
 * it computes; the digest is copied into the built message in place, and zeroed again in a copy of a received one.
 */
module BerLoops {
  import opened Prelude
  import opened Bytes
  import opened Ber
  import opened Snmp

  // ---- writing

  method LenOctets(n: nat) returns (r: Octets)
    ensures r == Len(n)
  {
    if n < 128 { return [n as byte]; }
    var octets: Octets, v := [], n;
    assert ToBytes(n) + [] == ToBytes(n);
    while v > 0
      invariant v >= 0 && ToBytes(n) == ToBytes(v) + octets
    {
      assert ToBytes(v / 256) + ([(v % 256) as byte] + octets) == ToBytes(v / 256) + [(v % 256) as byte] + octets;
      octets := [(v % 256) as byte] + octets;
      v := v / 256;
    }
    assert ToBytes(0) + octets == octets;
    r := [(128 + |octets| % 128) as byte] + octets;
  }

  method IntOctets(v: int) returns (r: Octets)
    ensures r == IntBytes(v)
  {
    r := [];
    var x := v;
    assert IntBytes(v) + [] == IntBytes(v);
    while true
      invariant IntBytes(v) == IntBytes(x) + r
      decreases if x >= 0 then x else -x
    {
      var lo := x % 256;
      assert IntBytes(x / 256) + ([lo as byte] + r) == IntBytes(x / 256) + [lo as byte] + r;
      r := [lo as byte] + r;
      x := x / 256;
      if (x == 0 && lo < 128) || (x == -1 && lo >= 128) { return; }
    }
  }

  method UintOctets(v: nat) returns (r: Octets)
    ensures r == UintBytes(v)
  {
    r := [];
    var x, first := v, true;
    assert ToBytes(v) + [] == ToBytes(v);
    while first || x > 0
      invariant x >= 0 && (first ==> x == v && r == [])
      invariant !first ==> r != [] && (if v == 0 then x == 0 && r == [0] else ToBytes(v) == ToBytes(x) + r)
      decreases x, first
    {
      assert ToBytes(x / 256) + ([(x % 256) as byte] + r) == ToBytes(x / 256) + [(x % 256) as byte] + r;
      r := [(x % 256) as byte] + r;
      x := x / 256;
      first := false;
    }
    assert ToBytes(0) + r == r;
    if r[0] as int >= 128 { r := [0] + r; }
  }

  method SubOctets(sub: nat) returns (r: Octets)
    ensures r == SubBytes(sub)
  {
    r := [(sub % 128) as byte];
    var x := sub / 128;
    while x > 0
      invariant x >= 0 && SubBytes(sub) == High(x) + r
    {
      var b := (128 + x % 128) as byte;
      assert High(x / 128) + ([b] + r) == High(x / 128) + [b] + r;
      r := [b] + r;
      x := x / 128;
    }
    assert High(0) + r == r;
  }

  method OidOctets(arcs: seq<nat>) returns (r: Octets)
    requires |arcs| >= 2
    ensures r == OidBytes(arcs)
  {
    var subs := [arcs[0] * 40 + arcs[1]] + arcs[2..];
    r := [];
    assert subs[0..] == subs;
    for i := 0 to |subs|
      invariant AllSubBytes(subs) == r + AllSubBytes(subs[i..])
    {
      assert subs[i..][0] == subs[i] && subs[i..][1..] == subs[i + 1..];
      var chunk := SubOctets(subs[i]);
      assert r + (chunk + AllSubBytes(subs[i + 1..])) == r + chunk + AllSubBytes(subs[i + 1..]);
      r := r + chunk;
    }
    assert r + [] == r;
  }

  /** A message of the gateway's with its digest copied over the zeros it was computed over. */
  method BuildUsm(mac: Octets -> Octets, size: nat, msgId: int, flags: byte, local: Clock, user: Octets, salt: Octets, data: Octets)
    returns (msg: array<byte>)
    requires size < 128 && forall x :: |mac(x)| == size
    ensures fresh(msg)
    ensures var unsigned := Snmp.Signed(msgId, flags, local, user, Zeros(size), salt, data);
      msg[..] == Snmp.Signed(msgId, flags, local, user, mac(unsigned), salt, data)
  {
    hide Snmp.Signed, DigestAt;
    var unsigned := Snmp.Signed(msgId, flags, local, user, Zeros(size), salt, data);
    var at := DigestAt(msgId, flags, local, user, size, salt, data);
    msg := new byte[|unsigned|](i requires 0 <= i < |unsigned| => unsigned[i]);
    assert msg[..] == unsigned;
    var digest := mac(unsigned);
    DigestInPlace(msgId, flags, local, user, digest, salt, data);
    CopyIn(msg, at, digest);
  }

  method CopyIn(a: array<byte>, at: nat, w: Octets)
    requires at + |w| <= a.Length
    modifies a
    ensures a[..] == Patched(old(a[..]), at, w)
  {
    for k := 0 to |w|
      invariant a[..] == old(a[..])[..at] + w[..k] + old(a[..])[at + k..]
    {
      a[at + k] := w[k];
    }
  }

  // ---- reading

  method TlvAt(b: Octets, start: nat, limit: nat) returns (r: Option<Tlv>)
    requires limit <= |b|
    ensures r == ReadTlv(b, start, limit)
  {
    var pos := start;
    if pos >= limit { return None; }
    var tag := b[pos];
    if tag as int % 32 == 31 { return None; }
    pos := pos + 1;
    if pos >= limit { return None; }
    var first := b[pos] as nat;
    pos := pos + 1;
    var len: nat := first;
    if first >= 128 {
      var n := first - 128;
      if n < 1 || n > 4 || pos + n > limit { return None; }
      len := Number(b, pos, pos + n);
      pos := pos + n;
    }
    if pos + len > limit { return None; }
    r := Some(Tlv(tag, pos, pos + len));
  }

  /** The number its octets spell. */
  method Number(b: Octets, start: nat, end: nat) returns (v: nat)
    requires start <= end <= |b|
    ensures v == FromBytes(b[start..end])
  {
    v := 0;
    for i := start to end
      invariant v == FromBytes(b[start..i])
    {
      assert b[start..i + 1][..i - start] == b[start..i];
      v := v * 256 + b[i] as nat;
    }
  }

  method ChildrenOf(b: Octets, t: Tlv) returns (r: Option<seq<Tlv>>)
    requires t.start <= t.end <= |b|
    ensures r == Children(b, t.start, t.end)
  {
    var out: seq<Tlv>, p := [], t.start;
    ghost var whole := Children(b, t.start, t.end);
    assert whole.Some? ==> [] + whole.value == whole.value;
    while p < t.end
      invariant whole == Joined(out, Children(b, p, t.end))
      decreases t.end - p
    {
      var c := TlvAt(b, p, t.end);
      if c.None? { return None; }
      JoinedStep(out, c.value, Children(b, c.value.end, t.end));
      out := out + [c.value];
      p := c.value.end;
    }
    assert out + [] == out;
    r := Some(out);
  }

  function Joined<T>(done: seq<T>, rest: Option<seq<T>>): Option<seq<T>> {
    if rest.None? then None else Some(done + rest.value)
  }

  lemma JoinedStep<T>(done: seq<T>, x: T, rest: Option<seq<T>>)
    ensures Joined(done, if rest.None? then None else Some([x] + rest.value)) == Joined(done + [x], rest)
  {
    if rest.Some? { assert done + ([x] + rest.value) == done + [x] + rest.value; }
  }

  method SeqOf(b: Octets, t: Tlv, n: nat) returns (r: Option<seq<Tlv>>)
    requires t.start <= t.end <= |b|
    ensures r == ReadSeq(b, t, n)
  {
    if t.tag != 0x30 { return None; }
    r := ChildrenOf(b, t);
    if r.Some? && |r.value| != n { r := None; }
  }

  method IntOf(b: Octets, t: Tlv) returns (r: Option<int>)
    requires t.start <= t.end <= |b|
    ensures r == ReadInt(b, t)
  {
    var n := t.end - t.start;
    if t.tag != 2 || n < 1 || n > 8 { return None; }
    var v: int := Number(b, t.start, t.end);
    if b[t.start] as int >= 128 { v := v - Pow256(n); }
    r := Some(v);
  }

  method OidFrom(c: Octets) returns (r: Option<seq<nat>>)
    ensures r == OidOf(c)
  {
    if c == [] { return None; }
    var subs: seq<nat>, v: nat, open := [], 0, false;
    ghost var whole := Subs(c, 0, false);
    assert c[0..] == c;
    assert whole.Some? ==> [] + whole.value == whole.value;
    for i := 0 to |c|
      invariant whole == Joined(subs, Subs(c[i..], v, open))
      invariant i > 0 && !open ==> subs != []
    {
      assert c[i..][0] == c[i] && c[i..][1..] == c[i + 1..];
      v := v * 128 + c[i] as int % 128;
      if v > SUB_MAX { return None; }
      open := c[i] as int >= 128;
      if !open {
        JoinedStep(subs, v, Subs(c[i + 1..], 0, false));
        subs := subs + [v];
        v := 0;
      }
    }
    if open { return None; }
    assert subs + [] == subs;
    var x := subs[0];
    var head := if x < 40 then [0, x] else if x < 80 then [1, x - 40] else [2, x - 80];
    r := Some(head + subs[1..]);
  }

  method ValueOf(b: Octets, t: Tlv) returns (r: Option<Value>)
    requires t.start <= t.end <= |b|
    ensures r == ReadValue(b, t)
  {
    hide OidOf, FromBytes, SignedOf;
    var c := b[t.start..t.end];
    if t.tag == 2 {
      var v := IntOf(b, t);
      return if v.Some? && -0x8000_0000 <= v.value <= MAX31 then Some(IntegerValue(v.value)) else None;
    }
    if t.tag == 4 { return Some(OctetsValue(c)); }
    if t.tag == 5 { return if |c| != 0 then None else Some(NullValue); }
    if t.tag == 6 {
      var o := OidFrom(c);
      return if o.Some? then Some(OidValue(o.value)) else None;
    }
    if t.tag == 0x40 { return if |c| != 4 then None else Some(IpValue(c)); }
    if t.tag == 0x44 { return Some(OpaqueValue(c)); }
    if !IsUnsigned(t.tag) { return None; }
    if |c| < 1 || |c| > 9 || (|c| == 9 && c[0] != 0) { return None; }
    var v := Number(b, t.start, t.end);
    if t.tag != 0x46 && v > 0xFFFF_FFFF { return None; }
    r := Some(UnsignedValue(t.tag, v));
  }

  method VarbindOf(b: Octets, t: Tlv) returns (r: Option<Varbind>)
    requires t.start <= t.end <= |b|
    ensures r == ReadVarbind(b, t)
  {
    hide OidOf, ReadValue, ReadSeq;
    var c := SeqOf(b, t, 2);
    if c.None? || c.value[0].tag != 6 { return None; }
    var o := OidFrom(b[c.value[0].start..c.value[0].end]);
    if o.None? { return None; }
    var v := ValueOf(b, c.value[1]);
    if v.None? { return None; }
    r := Some(Varbind(o.value, v.value));
  }

  method VarbindsOf(b: Octets, list: Tlv) returns (r: Option<seq<Varbind>>)
    requires list.start <= list.end <= |b|
    ensures r == ReadList(b, list)
  {
    hide ReadVarbind, Children;
    if list.tag != 0x30 { return None; }
    var ts := ChildrenOf(b, list);
    if ts.None? { return None; }
    var out: seq<Varbind> := [];
    ghost var whole := ReadVarbinds(b, ts.value);
    assert ts.value[0..] == ts.value;
    assert whole.Some? ==> [] + whole.value == whole.value;
    for i := 0 to |ts.value|
      invariant whole == Joined(out, ReadVarbinds(b, ts.value[i..]))
    {
      assert ts.value[i..][0] == ts.value[i] && ts.value[i..][1..] == ts.value[i + 1..];
      var v := VarbindOf(b, ts.value[i]);
      if v.None? { return None; }
      JoinedStep(out, v.value, ReadVarbinds(b, ts.value[i + 1..]));
      out := out + [v.value];
    }
    assert out + [] == out;
    r := Some(out);
  }

  method ScopedPduOf(b: Octets, outer: Tlv) returns (r: Option<Pdu>)
    requires outer.start <= outer.end <= |b|
    ensures r == ReadPdu(b, outer)
  {
    hide ReadSeq, Children, ReadInt, ReadList;
    var c := SeqOf(b, outer, 3);
    if c.None? || c.value[0].tag != 4 || c.value[1].tag != 4 { return None; }
    var pdu := c.value[2];
    var parts := ChildrenOf(b, pdu);
    if parts.None? || |parts.value| != 4 { return None; }
    var p := parts.value;
    var rid := IntOf(b, p[0]);
    if rid.None? || !(-0x8000_0000 <= rid.value <= MAX31) { return None; }
    var status := IntOf(b, p[1]);
    var index := IntOf(b, p[2]);
    if status.None? || index.None? { return None; }
    var list := VarbindsOf(b, p[3]);
    if list.None? { return None; }
    r := Some(Pdu(pdu.tag, b[c.value[0].start..c.value[0].end], rid.value, list.value));
  }

  method GlobalOf(b: Octets, t: Tlv) returns (r: Option<Global>)
    requires t.start <= t.end <= |b|
    ensures r == ReadGlobal(b, t)
  {
    hide ReadSeq, ReadInt;
    var c := SeqOf(b, t, 4);
    if c.None? { return None; }
    var p := c.value;
    var id := IntOf(b, p[0]);
    var max := IntOf(b, p[1]);
    if id.None? || !(0 <= id.value <= MAX31) || max.None? || !(484 <= max.value <= MAX31) { return None; }
    if p[2].tag != 4 || p[2].end - p[2].start != 1 { return None; }
    var flags := b[p[2].start] as int;
    assert Content(b, p[2]) == [b[p[2].start]];
    if Bit(flags, 2) && !Bit(flags, 1) { return None; }
    var model := IntOf(b, p[3]);
    if model.None? || !(0 <= model.value <= MAX31) { return None; }
    r := Some(Global(model.value, flags));
  }

  method SecurityOfSpan(b: Octets, sp: Tlv) returns (r: Option<Security>)
    requires sp.start <= sp.end <= |b|
    ensures r == ReadSecurity(b, sp)
  {
    hide ReadSeq, ReadInt, ReadTlv;
    var inner := TlvAt(b, sp.start, sp.end);
    if inner.None? || inner.value.end != sp.end { return None; }
    var c := SeqOf(b, inner.value, 6);
    if c.None? { return None; }
    var p := c.value;
    if p[0].tag != 4 { return None; }
    var engine := b[p[0].start..p[0].end];
    if |engine| != 0 && (|engine| < 5 || |engine| > 32) { return None; }
    var boots := IntOf(b, p[1]);
    if boots.None? || !(0 <= boots.value <= MAX31) { return None; }
    var time := IntOf(b, p[2]);
    if time.None? || !(0 <= time.value <= MAX31) { return None; }
    if p[3].tag != 4 { return None; }
    var user := b[p[3].start..p[3].end];
    if |user| > 32 || p[4].tag != 4 || p[5].tag != 4 { return None; }
    r := Some(Security(engine, boots.value, time.value, user, p[4], b[p[5].start..p[5].end]));
  }

  method DataOf(b: Octets, t: Tlv, priv: bool) returns (r: Option<Data>)
    requires t.start <= t.end <= |b|
    ensures r == if priv then (if t.tag == 4 then Some(Encrypted(Content(b, t))) else None)
                 else var pdu := ReadPdu(b, t); if pdu.Some? then Some(Plain(pdu.value)) else None
  {
    hide ReadPdu;
    if priv { return if t.tag == 4 then Some(Encrypted(b[t.start..t.end])) else None; }
    var pdu := ScopedPduOf(b, t);
    return if pdu.Some? then Some(Plain(pdu.value)) else None;
  }

  method Parse(b: Octets) returns (r: Option<Message>)
    ensures r == ParseMessage(b)
  {
    hide ReadSeq, ReadInt, ReadTlv, ReadGlobal, ReadSecurity, ReadPdu;
    var outer := TlvAt(b, 0, |b|);
    if outer.None? || outer.value.end != |b| { return None; }
    var c := SeqOf(b, outer.value, 4);
    if c.None? { return None; }
    var version := IntOf(b, c.value[0]);
    if version != Some(3) { return None; }
    var g := GlobalOf(b, c.value[1]);
    if g.None? || c.value[2].tag != 4 { return None; }
    var s := SecurityOfSpan(b, c.value[2]);
    if s.None? { return None; }
    var priv := Bit(g.value.flags, 2);
    var data := DataOf(b, c.value[3], priv);
    if data.None? { return None; }
    var x := s.value;
    r := Some(Message(g.value.model, Bit(g.value.flags, 1), priv, Bit(g.value.flags, 4), x.engineId, x.boots, x.time, x.userName,
                      x.authParams, x.privParams, data.value));
  }

  /** The received octets with authParams zeroed, in a copy of them. */
  method Zeroed(b: Octets, ap: Tlv) returns (r: Octets)
    requires ap.start <= ap.end <= |b|
    ensures r == Patched(b, ap.start, Zeros(ap.end - ap.start))
  {
    var copy := new byte[|b|](i requires 0 <= i < |b| => b[i]);
    assert copy[..] == b;
    for k := ap.start to ap.end
      invariant copy[..ap.start] == b[..ap.start] && copy[k..] == b[k..]
      invariant forall j :: ap.start <= j < k ==> copy[j] == 0
    {
      copy[k] := 0;
      assert copy[k + 1..] == b[k..][1..];
    }
    assert copy[ap.start..ap.end] == Zeros(ap.end - ap.start);
    assert copy[..] == copy[..ap.start] + copy[ap.start..ap.end] + copy[ap.end..];
    r := copy[..];
  }
}
