/**
 * SNMPv3 messages as the gateway builds them (`snmp-answer.ts`) and as its receiver parses them (`usm.ts`): a built
 * message reads back, and zeroing the digest where the reader finds it restores the octets that were authenticated.
 */
module Snmp {
  import opened Prelude
  import opened Bytes
  import opened Ber

  const MAX_SIZE := 65507
  const MAX31 := 0x7FFF_FFFF

  // ---- values and PDUs, as read

  datatype Value =
    | IntegerValue(n: int)
    | OctetsValue(octets: Octets)
    | NullValue
    | OidValue(oid: seq<nat>)
    | IpValue(address: Octets)
    | OpaqueValue(octets: Octets)
    | UnsignedValue(tag: byte, u: nat)

  datatype Varbind = Varbind(oid: seq<nat>, value: Value)

  datatype Pdu = Pdu(tag: byte, contextEngine: Octets, requestId: int, varbinds: seq<Varbind>)

  function IntIn(b: Octets, t: Tlv, lo: int, hi: int): Option<int>
    requires t.start <= t.end <= |b|
  {
    var v := ReadInt(b, t);
    if v.Some? && lo <= v.value <= hi then v else None
  }

  /** INTEGER content of 1 to 8 octets. */
  function ReadInt(b: Octets, t: Tlv): Option<int>
    requires t.start <= t.end <= |b|
  {
    if t.tag != 2 || !(1 <= t.end - t.start <= 8) then None else Some(SignedOf(Content(b, t)))
  }

  function ReadOctets(b: Octets, t: Tlv): Option<Octets>
    requires t.start <= t.end <= |b|
  {
    if t.tag != 4 then None else Some(Content(b, t))
  }

  predicate IsUnsigned(tag: byte) { tag == 0x41 || tag == 0x42 || tag == 0x43 || tag == 0x46 }

  function ReadValue(b: Octets, t: Tlv): Option<Value>
    requires t.start <= t.end <= |b|
  {
    var c := Content(b, t);
    if t.tag == 2 then
      var v := IntIn(b, t, -0x8000_0000, MAX31);
      if v.Some? then Some(IntegerValue(v.value)) else None
    else if t.tag == 4 then Some(OctetsValue(c))
    else if t.tag == 5 then (if c == [] then Some(NullValue) else None)
    else if t.tag == 6 then
      var o := OidOf(c);
      if o.Some? then Some(OidValue(o.value)) else None
    else if t.tag == 0x40 then (if |c| == 4 then Some(IpValue(c)) else None)
    else if t.tag == 0x44 then Some(OpaqueValue(c))
    else if !IsUnsigned(t.tag) || |c| < 1 || |c| > 9 || (|c| == 9 && c[0] != 0) then None
    else if t.tag != 0x46 && FromBytes(c) > 0xFFFF_FFFF then None
    else Some(UnsignedValue(t.tag, FromBytes(c)))
  }

  /** A SEQUENCE of exactly `n` elements. */
  function ReadSeq(b: Octets, t: Tlv, n: nat): (r: Option<seq<Tlv>>)
    requires t.start <= t.end <= |b|
    ensures r.Some? ==> |r.value| == n && forall i :: 0 <= i < n ==> t.start <= r.value[i].start <= r.value[i].end <= t.end
  {
    if t.tag != 0x30 then None
    else
      var c := Children(b, t.start, t.end);
      if c.Some? && |c.value| == n then c else None
  }

  function ReadVarbind(b: Octets, t: Tlv): Option<Varbind>
    requires t.start <= t.end <= |b|
  {
    var c := ReadSeq(b, t, 2);
    if c.None? || c.value[0].tag != 6 then None
    else
      var o := OidOf(Content(b, c.value[0]));
      var v := ReadValue(b, c.value[1]);
      if o.None? || v.None? then None else Some(Varbind(o.value, v.value))
  }

  predicate Within(b: Octets, ts: seq<Tlv>) {
    forall i :: 0 <= i < |ts| ==> ts[i].start <= ts[i].end <= |b|
  }

  function ReadVarbinds(b: Octets, ts: seq<Tlv>): Option<seq<Varbind>>
    requires Within(b, ts)
  {
    if ts == [] then Some([])
    else
      var v := ReadVarbind(b, ts[0]);
      if v.None? then None
      else
        var rest := ReadVarbinds(b, ts[1..]);
        if rest.None? then None else Some([v.value] + rest.value)
  }

  /** A VarBindList element. */
  function ReadList(b: Octets, t: Tlv): Option<seq<Varbind>>
    requires t.start <= t.end <= |b|
  {
    if t.tag != 0x30 then None
    else
      var c := Children(b, t.start, t.end);
      if c.None? then None else ReadVarbinds(b, c.value)
  }

  function ReadPdu(b: Octets, outer: Tlv): Option<Pdu>
    requires outer.start <= outer.end <= |b|
  {
    var c := ReadSeq(b, outer, 3);
    if c.None? then None
    else
      var engine, name, pdu := ReadOctets(b, c.value[0]), ReadOctets(b, c.value[1]), c.value[2];
      var parts := Children(b, pdu.start, pdu.end);
      if engine.None? || name.None? || parts.None? || |parts.value| != 4 then None
      else
        var p := parts.value;
        var rid := IntIn(b, p[0], -0x8000_0000, MAX31);
        if rid.None? || ReadInt(b, p[1]).None? || ReadInt(b, p[2]).None? then None
        else
          var list := ReadList(b, p[3]);
          if list.None? then None else Some(Pdu(pdu.tag, engine.value, rid.value, list.value))
  }

  // ---- messages, as read

  datatype Data = Plain(pdu: Pdu) | Encrypted(octets: Octets)

  datatype Message = Message(
    model: int, auth: bool, priv: bool, reportable: bool,
    engineId: Octets, boots: int, time: int, userName: Octets, authParams: Tlv, privParams: Octets, data: Data)

  datatype Security = Security(engineId: Octets, boots: int, time: int, userName: Octets, authParams: Tlv, privParams: Octets)

  function ReadSecurity(b: Octets, sp: Tlv): (r: Option<Security>)
    requires sp.start <= sp.end <= |b|
    ensures r.Some? ==> r.value.authParams.start <= r.value.authParams.end <= |b|
  {
    var inner := ReadTlv(b, sp.start, sp.end);
    if inner.None? || inner.value.end != sp.end then None
    else
      var c := ReadSeq(b, inner.value, 6);
      if c.None? then None
      else
        var p := c.value;
        var engine, boots, time, user := ReadOctets(b, p[0]), IntIn(b, p[1], 0, MAX31), IntIn(b, p[2], 0, MAX31), ReadOctets(b, p[3]);
        if engine.None? || boots.None? || time.None? || user.None? || p[4].tag != 4 || p[5].tag != 4 then None
        else if (engine.value != [] && !(5 <= |engine.value| <= 32)) || |user.value| > 32 then None
        else Some(Security(engine.value, boots.value, time.value, user.value, p[4], Content(b, p[5])))
  }

  function Bit(n: int, k: nat): bool
    requires k > 0
  {
    n / k % 2 == 1
  }

  datatype Global = Global(model: int, flags: int)

  function ReadGlobal(b: Octets, t: Tlv): Option<Global>
    requires t.start <= t.end <= |b|
  {
    var c := ReadSeq(b, t, 4);
    if c.None? then None
    else
      var p := c.value;
      var flags := ReadOctets(b, p[2]);
      var model := IntIn(b, p[3], 0, MAX31);
      if IntIn(b, p[0], 0, MAX31).None? || IntIn(b, p[1], 484, MAX31).None? || flags.None? || model.None? || |flags.value| != 1 then None
      else if Bit(flags.value[0] as int, 2) && !Bit(flags.value[0] as int, 1) then None
      else Some(Global(model.value, flags.value[0] as int))
  }

  function ParseMessage(b: Octets): (r: Option<Message>)
    ensures r.Some? ==> r.value.authParams.start <= r.value.authParams.end <= |b|
  {
    var outer := ReadTlv(b, 0, |b|);
    if outer.None? || outer.value.end != |b| then None
    else
      var c := ReadSeq(b, outer.value, 4);
      if c.None? || ReadInt(b, c.value[0]) != Some(3) then None
      else
        var g := ReadGlobal(b, c.value[1]);
        if g.None? || c.value[2].tag != 4 then None
        else
          var s := ReadSecurity(b, c.value[2]);
          var priv := Bit(g.value.flags, 2);
          if s.None? then None
          else
            var data :=
              if priv then (if c.value[3].tag == 4 then Some(Encrypted(Content(b, c.value[3]))) else None)
              else var pdu := ReadPdu(b, c.value[3]); if pdu.Some? then Some(Plain(pdu.value)) else None;
            if data.None? then None
            else
              var x := s.value;
              Some(Message(g.value.model, Bit(g.value.flags, 1), priv, Bit(g.value.flags, 4), x.engineId, x.boots, x.time, x.userName,
                           x.authParams, x.privParams, data.value))
  }

  // ---- messages, as written

  function Int(v: int): Octets { Enc(2, IntBytes(v)) }

  function Octs(c: Octets): Octets { Enc(4, c) }

  function Scoped(engine: Octets, name: Octets, tag: byte, rid: int, vbl: Octets): Octets {
    Enc(0x30, Octs(engine) + Octs(name) + Enc(tag, Int(rid) + Int(0) + Int(0) + vbl))
  }

  function GlobalData(msgId: int, flags: byte, model: int): Octets {
    Enc(0x30, Int(msgId) + Int(MAX_SIZE) + Octs([flags]) + Int(model))
  }

  function MessageBody(msgId: int, flags: byte, model: int, sec: Octets, data: Octets): Octets {
    Int(3) + GlobalData(msgId, flags, model) + Octs(sec) + data
  }

  function Whole(msgId: int, flags: byte, model: int, sec: Octets, data: Octets): Octets {
    Enc(0x30, MessageBody(msgId, flags, model, sec, data))
  }

  /** Where `securityParameters`' content starts in the whole message. */
  function SecurityAt(msgId: int, flags: byte, model: int, sec: Octets, data: Octets): nat {
    1 + |Len(|MessageBody(msgId, flags, model, sec, data)|)| + |Int(3) + GlobalData(msgId, flags, model)| + 1 + |Len(|sec|)|
  }

  datatype Clock = Clock(engineId: Octets, boots: int, time: int)

  function SecurityHead(local: Clock, user: Octets): Octets {
    Octs(local.engineId) + Int(local.boots) + Int(local.time) + Octs(user)
  }

  /** The USM security parameters with `digest` as authParams. */
  function SecurityContent(local: Clock, user: Octets, digest: Octets, salt: Octets): Octets {
    SecurityHead(local, user) + Octs(digest) + Octs(salt)
  }

  /** The whole message with `digest` in place. */
  function Signed(msgId: int, flags: byte, local: Clock, user: Octets, digest: Octets, salt: Octets, data: Octets): Octets {
    Whole(msgId, flags, 3, Enc(0x30, SecurityContent(local, user, digest, salt)), data)
  }

  function Zeros(n: nat): Octets { seq(n, _ => 0) }

  /** Where the writer puts the digest: past the SEQUENCE's tag and length, the fields before it, and its own tag and length. */
  function DigestAt(msgId: int, flags: byte, local: Clock, user: Octets, size: nat, salt: Octets, data: Octets): nat {
    var content := SecurityContent(local, user, Zeros(size), salt);
    SecurityAt(msgId, flags, 3, Enc(0x30, content), data) + 1 + |Len(|content|)| + |SecurityHead(local, user)| + 2
  }

  function Patched(b: Octets, at: nat, w: Octets): Octets
    requires at + |w| <= |b|
  {
    b[..at] + w + b[at + |w|..]
  }

  // ---- one field after another

  /** The element of `tag` and `body` written at `pos`. */
  function Spot(pos: nat, tag: byte, body: Octets): Tlv {
    var start := pos + 1 + |Len(|body|)|;
    Tlv(tag, start, start + |body|)
  }

  /** The first child is the one written at the start, and the rest follow it. */
  ghost predicate Leads(b: Octets, pos: nat, limit: nat, t: Tlv) {
    limit <= |b| && pos <= t.start <= t.end <= limit
    && (Children(b, t.end, limit).Some? ==> Children(b, pos, limit) == Some([t] + Children(b, t.end, limit).value))
  }

  lemma Next(b: Octets, pos: nat, limit: nat, tag: byte, body: Octets)
    requires Writable(tag, body) && limit <= |b| && pos + |Enc(tag, body)| <= limit && At(b, pos, Enc(tag, body))
    ensures var t := Spot(pos, tag, body);
            t.end == pos + |Enc(tag, body)| && Leads(b, pos, limit, t) && Content(b, t) == body
  {
    hide Len, Children;
    ReadsNext(b, pos, limit, tag, body);
  }

  lemma NextInt(b: Octets, pos: nat, limit: nat, v: int)
    requires -0x8000_0000 <= v <= MAX31 && limit <= |b| && pos + |Int(v)| <= limit && At(b, pos, Int(v))
    ensures var t := Spot(pos, 2, IntBytes(v));
            t.end == pos + |Int(v)| && Leads(b, pos, limit, t) && ReadInt(b, t) == Some(v)
  {
    assert Pow256(3) == 0x100_0000 by { assert Pow256(0) == 1 && Pow256(1) == 256 && Pow256(2) == 0x1_0000; }
    IntShort(v, 4);
    IntReads(v);
    Next(b, pos, limit, 2, IntBytes(v));
  }

  lemma NextOctets(b: Octets, pos: nat, limit: nat, c: Octets)
    requires |c| < 0x1_0000_0000 && limit <= |b| && pos + |Octs(c)| <= limit && At(b, pos, Octs(c))
    ensures var t := Spot(pos, 4, c);
            t.end == pos + |Octs(c)| && Leads(b, pos, limit, t) && ReadOctets(b, t) == Some(c)
  {
    hide Len;
    Next(b, pos, limit, 4, c);
  }

  lemma NoMore(b: Octets, limit: nat)
    requires limit <= |b|
    ensures Children(b, limit, limit) == Some([])
  {
  }

  /** Four fields that fill a span. */
  lemma Four(b: Octets, pos: nat, limit: nat, t: Tlv, u: Tlv, v: Tlv, w: Tlv)
    requires Leads(b, pos, limit, t) && Leads(b, t.end, limit, u) && Leads(b, u.end, limit, v) && Leads(b, v.end, limit, w) && w.end == limit
    ensures Children(b, pos, limit) == Some([t, u, v, w])
  {
    hide Children;
    NoMore(b, limit);
    assert [w] + [] == [w] && [v] + [w] == [v, w] && [u] + [v, w] == [u, v, w] && [t] + [u, v, w] == [t, u, v, w];
  }

  predicate SmallInt(v: int) { -0x8000_0000 <= v <= MAX31 }

  lemma LenSize(n: nat)
    requires n < 0x1_0000_0000
    ensures 1 <= |Len(n)| <= 5
  {
    assert n < Pow256(4) by { assert Pow256(0) == 1 && Pow256(1) == 256 && Pow256(2) == 0x1_0000 && Pow256(3) == 0x100_0000; }
    ToBytesShort(n, 4);
  }

  lemma AtFour(b: Octets, pos: nat, i: Octets, j: Octets, k: Octets, l: Octets)
    requires At(b, pos, i + j + k + l)
    ensures At(b, pos, i) && At(b, pos + |i|, j) && At(b, pos + |i| + |j|, k) && At(b, pos + |i| + |j| + |k|, l)
  {
    hide At;
    AtParts(b, pos, i + j + k, l);
    AtParts(b, pos, i + j, k);
    AtParts(b, pos, i, j);
  }

  lemma AtSix(b: Octets, pos: nat, g: Octets, h: Octets, i: Octets, j: Octets, k: Octets, l: Octets)
    requires At(b, pos, g + h + i + j + k + l)
    ensures At(b, pos, g) && At(b, pos + |g|, h) && At(b, pos + |g| + |h|, i) && At(b, pos + |g| + |h| + |i|, j)
    ensures At(b, pos + |g| + |h| + |i| + |j|, k) && At(b, pos + |g| + |h| + |i| + |j| + |k|, l)
  {
    hide At;
    assert g + h + i + j + k + l == (g + h + i) + j + k + l;
    AtFour(b, pos, g + h + i, j, k, l);
    AtParts(b, pos, g + h, i);
    AtParts(b, pos, g, h);
  }

  lemma GlobalChildren(b: Octets, start: nat, end: nat, msgId: int, flags: byte, model: int) returns (t: Tlv, u: Tlv, v: Tlv, w: Tlv)
    requires 0 <= msgId <= MAX31 && 0 <= model <= MAX31 && end <= |b|
    requires var body := Int(msgId) + Int(MAX_SIZE) + Octs([flags]) + Int(model); end == start + |body| && At(b, start, body)
    ensures Children(b, start, end) == Some([t, u, v, w])
    ensures t.start <= t.end <= |b| && u.start <= u.end <= |b| && v.start <= v.end <= |b| && w.start <= w.end <= |b|
    ensures ReadInt(b, t) == Some(msgId) && ReadInt(b, u) == Some(MAX_SIZE) && ReadOctets(b, v) == Some([flags]) && ReadInt(b, w) == Some(model)
  {
    hide Int, Octs, At, Children, ReadInt, ReadOctets;
    var i, j, k, l := Int(msgId), Int(MAX_SIZE), Octs([flags]), Int(model);
    AtFour(b, start, i, j, k, l);
    NextInt(b, start, end, msgId);
    NextInt(b, start + |i|, end, MAX_SIZE);
    NextOctets(b, start + |i| + |j|, end, [flags]);
    NextInt(b, start + |i| + |j| + |k|, end, model);
    t, u := Spot(start, 2, IntBytes(msgId)), Spot(start + |i|, 2, IntBytes(MAX_SIZE));
    v, w := Spot(start + |i| + |j|, 4, [flags]), Spot(start + |i| + |j| + |k|, 2, IntBytes(model));
    Four(b, start, end, t, u, v, w);
  }

  lemma GlobalReads(b: Octets, pos: nat, msgId: int, flags: byte, model: int)
    requires 0 <= msgId <= MAX31 && 0 <= model <= MAX31 && (Bit(flags as int, 2) ==> Bit(flags as int, 1))
    requires var body := Int(msgId) + Int(MAX_SIZE) + Octs([flags]) + Int(model);
             |body| < 0x1_0000_0000 && At(b, pos, Enc(0x30, body))
    ensures var t := Spot(pos, 0x30, Int(msgId) + Int(MAX_SIZE) + Octs([flags]) + Int(model));
            t.start <= t.end <= |b| && ReadGlobal(b, t) == Some(Global(model, flags as int))
  {
    hide Int, Octs, At, Children, ReadInt, Bit, Enc, Len;
    var body := Int(msgId) + Int(MAX_SIZE) + Octs([flags]) + Int(model);
    AtBounds(b, pos, Enc(0x30, body));
    ReadsEnc(b, pos, |b|, 0x30, body);
    var t := Spot(pos, 0x30, body);
    var m, u, v, w := GlobalChildren(b, t.start, t.end, msgId, flags, model);
  }

  lemma AtBounds(b: Octets, pos: nat, w: Octets)
    requires At(b, pos, w)
    ensures pos + |w| <= |b|
  {
  }

  predicate ClockOk(c: Clock) {
    (c.engineId == [] || 5 <= |c.engineId| <= 32) && 0 <= c.boots <= MAX31 && 0 <= c.time <= MAX31
  }

  /** Six fields that fill a span. */
  lemma Six(b: Octets, pos: nat, limit: nat, q: Tlv, r: Tlv, t: Tlv, u: Tlv, v: Tlv, w: Tlv)
    requires Leads(b, pos, limit, q) && Leads(b, q.end, limit, r) && Leads(b, r.end, limit, t)
    requires Leads(b, t.end, limit, u) && Leads(b, u.end, limit, v) && Leads(b, v.end, limit, w) && w.end == limit
    ensures Children(b, pos, limit) == Some([q, r, t, u, v, w])
  {
    hide Children;
    Four(b, r.end, limit, t, u, v, w);
    assert [r] + [t, u, v, w] == [r, t, u, v, w] && [q] + [r, t, u, v, w] == [q, r, t, u, v, w];
  }

  lemma SecurityChildren(b: Octets, start: nat, end: nat, local: Clock, user: Octets, digest: Octets, salt: Octets)
      returns (q: Tlv, r: Tlv, t: Tlv, u: Tlv, v: Tlv, w: Tlv)
    requires ClockOk(local) && |user| <= 32 && |digest| < 128 && |salt| <= 255 && end <= |b|
    requires end == start + |SecurityContent(local, user, digest, salt)| && At(b, start, SecurityContent(local, user, digest, salt))
    ensures Children(b, start, end) == Some([q, r, t, u, v, w])
    ensures q.start <= q.end <= |b| && r.start <= r.end <= |b| && t.start <= t.end <= |b| && u.start <= u.end <= |b|
    ensures v.start <= v.end <= |b| && w.start <= w.end <= |b|
    ensures ReadOctets(b, q) == Some(local.engineId) && ReadInt(b, r) == Some(local.boots) && ReadInt(b, t) == Some(local.time)
    ensures ReadOctets(b, u) == Some(user) && ReadOctets(b, w) == Some(salt)
    ensures v == Tlv(4, start + |SecurityHead(local, user)| + 2, start + |SecurityHead(local, user)| + 2 + |digest|)
  {
    hide Int, IntBytes, Octs, At, Children, ReadInt, ReadOctets;
    var e, i, j, x, a := Octs(local.engineId), Int(local.boots), Int(local.time), Octs(user), Octs(digest);
    assert SecurityContent(local, user, digest, salt) == e + i + j + x + a + Octs(salt);
    AtSix(b, start, e, i, j, x, a, Octs(salt));
    NextOctets(b, start, end, local.engineId);
    NextInt(b, start + |e|, end, local.boots);
    NextInt(b, start + |e| + |i|, end, local.time);
    NextOctets(b, start + |e| + |i| + |j|, end, user);
    NextOctets(b, start + |e| + |i| + |j| + |x|, end, digest);
    NextOctets(b, start + |e| + |i| + |j| + |x| + |a|, end, salt);
    q, r, t := Spot(start, 4, local.engineId), Spot(start + |e|, 2, IntBytes(local.boots)), Spot(start + |e| + |i|, 2, IntBytes(local.time));
    u, v := Spot(start + |e| + |i| + |j|, 4, user), Spot(start + |e| + |i| + |j| + |x|, 4, digest);
    w := Spot(start + |e| + |i| + |j| + |x| + |a|, 4, salt);
    Six(b, start, end, q, r, t, u, v, w);
    ShortLen(|digest|);
  }

  lemma SecurityReads(b: Octets, pos: nat, sp: Tlv, local: Clock, user: Octets, digest: Octets, salt: Octets)
    requires ClockOk(local) && |user| <= 32 && |digest| < 128 && |salt| <= 255
    requires var content := SecurityContent(local, user, digest, salt);
             && |content| < 0x1_0000_0000 && At(b, pos, Enc(0x30, content))
             && sp.start == pos && sp.end == pos + |Enc(0x30, content)|
    ensures var content := SecurityContent(local, user, digest, salt);
            var at := pos + 1 + |Len(|content|)| + |SecurityHead(local, user)| + 2;
            sp.start <= sp.end <= |b|
            && ReadSecurity(b, sp) == Some(Security(local.engineId, local.boots, local.time, user, Tlv(4, at, at + |digest|), salt))
  {
    hide Int, Octs, At, Children, ReadInt, Enc, Len, SecurityContent, SecurityHead, ReadTlv;
    var content := SecurityContent(local, user, digest, salt);
    AtBounds(b, pos, Enc(0x30, content));
    ReadsEnc(b, pos, sp.end, 0x30, content);
    var s := Spot(pos, 0x30, content);
    var q, r, t, u, v, w := SecurityChildren(b, s.start, s.end, local, user, digest, salt);
    SecurityOf(b, sp, s, q, r, t, u, v, w);
  }

  /** What six read fields make. */
  lemma SecurityOf(b: Octets, sp: Tlv, s: Tlv, q: Tlv, r: Tlv, t: Tlv, u: Tlv, v: Tlv, w: Tlv)
    requires sp.start <= sp.end <= |b| && ReadTlv(b, sp.start, sp.end) == Some(s) && s.end == sp.end && s.tag == 0x30
    requires Children(b, s.start, s.end) == Some([q, r, t, u, v, w])
    requires q.start <= q.end <= |b| && r.start <= r.end <= |b| && t.start <= t.end <= |b| && u.start <= u.end <= |b|
    requires v.start <= v.end <= |b| && w.start <= w.end <= |b|
    requires var e := ReadOctets(b, q); e.Some? && (e.value == [] || 5 <= |e.value| <= 32)
    requires var boots, time := ReadInt(b, r), ReadInt(b, t);
             boots.Some? && 0 <= boots.value <= MAX31 && time.Some? && 0 <= time.value <= MAX31
    requires var user := ReadOctets(b, u); user.Some? && |user.value| <= 32
    requires v.tag == 4 && ReadOctets(b, w).Some?
    ensures ReadSecurity(b, sp) == Some(Security(ReadOctets(b, q).value, ReadInt(b, r).value, ReadInt(b, t).value, ReadOctets(b, u).value,
                                                 v, ReadOctets(b, w).value))
  {
    hide ReadInt, Children, ReadTlv;
  }

  lemma ShortLen(n: nat)
    requires n < 128
    ensures |Len(n)| == 1
  {
  }

  // ---- octets copied as received read the same where they are copied to

  function Shift(t: Tlv, off: nat): Tlv { Tlv(t.tag, t.start + off, t.end + off) }

  function ShiftAll(ts: seq<Tlv>, off: nat): (r: seq<Tlv>)
    ensures |r| == |ts| && forall i :: 0 <= i < |ts| ==> r[i] == Shift(ts[i], off)
  {
    seq(|ts|, i requires 0 <= i < |ts| => Shift(ts[i], off))
  }

  lemma TlvShift(b: Octets, off: nat, c: Octets, pos: nat, limit: nat)
    requires At(b, off, c) && limit <= |c|
    ensures var r := ReadTlv(c, pos, limit);
            ReadTlv(b, off + pos, off + limit) == if r.Some? then Some(Shift(r.value, off)) else None
  {
    forall i | 0 <= i < |c| ensures b[off + i] == c[i] { assert b[off..off + |c|][i] == b[off + i]; }
    if pos + 1 < limit {
      var n := c[pos + 1] as int - 128;
      if 1 <= n <= 4 && pos + 2 + n <= limit {
        assert b[off + pos + 2..off + pos + 2 + n] == c[pos + 2..pos + 2 + n];
      }
    }
  }

  lemma {:induction false} ChildrenShift(b: Octets, off: nat, c: Octets, start: nat, end: nat)
    requires At(b, off, c) && end <= |c|
    ensures var r := Children(c, start, end);
            Children(b, off + start, off + end) == if r.Some? then Some(ShiftAll(r.value, off)) else None
    decreases end - start
  {
    hide ReadTlv;
    if start < end {
      TlvShift(b, off, c, start, end);
      var t := ReadTlv(c, start, end);
      if t.Some? {
        ChildrenShift(b, off, c, t.value.end, end);
        var rest := Children(c, t.value.end, end);
        if rest.Some? { assert ShiftAll([t.value] + rest.value, off) == [Shift(t.value, off)] + ShiftAll(rest.value, off); }
      }
    } else {
      assert ShiftAll([], off) == [];
    }
  }

  lemma ContentShift(b: Octets, off: nat, c: Octets, t: Tlv)
    requires At(b, off, c) && t.start <= t.end <= |c|
    ensures Content(b, Shift(t, off)) == Content(c, t)
  {
    var x, y := Content(b, Shift(t, off)), Content(c, t);
    forall i | 0 <= i < |y| ensures x[i] == y[i] { assert b[off..off + |c|][t.start + i] == c[t.start + i]; }
  }

  lemma VarbindShift(b: Octets, off: nat, c: Octets, t: Tlv)
    requires At(b, off, c) && t.start <= t.end <= |c|
    ensures ReadVarbind(b, Shift(t, off)) == ReadVarbind(c, t)
  {
    hide Children, OidOf, SignedOf, At;
    ChildrenShift(b, off, c, t.start, t.end);
    AtBounds(b, off, c);
    var r := ReadSeq(c, t, 2);
    if r.Some? {
      ContentShift(b, off, c, r.value[0]);
      ContentShift(b, off, c, r.value[1]);
    }
  }

  lemma {:induction false} VarbindsShift(b: Octets, off: nat, c: Octets, ts: seq<Tlv>)
    requires At(b, off, c) && Within(c, ts)
    ensures Within(b, ShiftAll(ts, off)) && ReadVarbinds(b, ShiftAll(ts, off)) == ReadVarbinds(c, ts)
  {
    hide ReadVarbind;
    if ts != [] {
      VarbindShift(b, off, c, ts[0]);
      VarbindsShift(b, off, c, ts[1..]);
      assert ShiftAll(ts, off)[1..] == ShiftAll(ts[1..], off);
    }
  }

  /** Octets that are one VarBindList, read on their own. */
  ghost predicate ListReads(vbl: Octets, vbs: seq<Varbind>) {
    var t := ReadTlv(vbl, 0, |vbl|);
    t.Some? && t.value.end == |vbl| && ReadList(vbl, t.value) == Some(vbs)
  }

  lemma ListShift(b: Octets, off: nat, vbl: Octets, vbs: seq<Varbind>)
    requires At(b, off, vbl) && ListReads(vbl, vbs)
    ensures var t := ReadTlv(b, off, off + |vbl|);
            && off + |vbl| <= |b| && t.Some? && t.value.end == off + |vbl| && ReadList(b, t.value) == Some(vbs)
  {
    hide At, ReadVarbinds;
    AtBounds(b, off, vbl);
    TlvShift(b, off, vbl, 0, |vbl|);
    var t := ReadTlv(vbl, 0, |vbl|).value;
    ChildrenShift(b, off, vbl, t.start, t.end);
    VarbindsShift(b, off, vbl, Children(vbl, t.start, t.end).value);
  }

  // ---- a scoped PDU reads back

  /** Three fields that fill a span. */
  lemma Three(b: Octets, pos: nat, limit: nat, t: Tlv, u: Tlv, v: Tlv)
    requires Leads(b, pos, limit, t) && Leads(b, t.end, limit, u) && Leads(b, u.end, limit, v) && v.end == limit
    ensures Children(b, pos, limit) == Some([t, u, v])
  {
    hide Children;
    NoMore(b, limit);
    assert [v] + [] == [v] && [u] + [v] == [u, v] && [t] + [u, v] == [t, u, v];
  }

  lemma NextRaw(b: Octets, pos: nat, limit: nat, t: Tlv)
    requires limit <= |b| && ReadTlv(b, pos, limit) == Some(t)
    ensures Leads(b, pos, limit, t)
  {
    hide ReadTlv;
  }

  lemma PduParts(b: Octets, start: nat, end: nat, rid: int, vbl: Octets, vbs: seq<Varbind>) returns (t: Tlv, u: Tlv, v: Tlv, w: Tlv)
    requires SmallInt(rid) && ListReads(vbl, vbs) && end <= |b|
    requires var body := Int(rid) + Int(0) + Int(0) + vbl; end == start + |body| && At(b, start, body)
    ensures Children(b, start, end) == Some([t, u, v, w])
    ensures t.start <= t.end <= |b| && u.start <= u.end <= |b| && v.start <= v.end <= |b| && w.start <= w.end <= |b|
    ensures ReadInt(b, t) == Some(rid) && ReadInt(b, u) == Some(0) && ReadInt(b, v) == Some(0) && ReadList(b, w) == Some(vbs)
  {
    hide Int, At, Children, ReadInt, ReadList, ListReads, ReadTlv;
    var i, z := Int(rid), Int(0);
    AtFour(b, start, i, z, z, vbl);
    NextInt(b, start, end, rid);
    NextInt(b, start + |i|, end, 0);
    NextInt(b, start + |i| + |z|, end, 0);
    ListShift(b, start + |i| + |z| + |z|, vbl, vbs);
    t, u, v := Spot(start, 2, IntBytes(rid)), Spot(start + |i|, 2, IntBytes(0)), Spot(start + |i| + |z|, 2, IntBytes(0));
    w := ReadTlv(b, start + |i| + |z| + |z|, end).value;
    NextRaw(b, start + |i| + |z| + |z|, end, w);
    Four(b, start, end, t, u, v, w);
  }

  lemma ScopedParts(b: Octets, start: nat, end: nat, engine: Octets, name: Octets, tag: byte, body: Octets) returns (t: Tlv, u: Tlv, v: Tlv)
    requires |engine| < 0x1_0000_0000 && |name| < 0x1_0000_0000 && Writable(tag, body) && end <= |b|
    requires var all := Octs(engine) + Octs(name) + Enc(tag, body); end == start + |all| && At(b, start, all)
    ensures Children(b, start, end) == Some([t, u, v]) && v == Spot(start + |Octs(engine)| + |Octs(name)|, tag, body)
    ensures t.start <= t.end <= |b| && u.start <= u.end <= |b| && v.start <= v.end <= |b|
    ensures ReadOctets(b, t) == Some(engine) && ReadOctets(b, u) == Some(name) && At(b, v.start, body)
  {
    hide Octs, At, Children, ReadOctets, Enc;
    var e, n := Octs(engine), Octs(name);
    AtParts(b, start, e + n, Enc(tag, body));
    AtParts(b, start, e, n);
    NextOctets(b, start, end, engine);
    NextOctets(b, start + |e|, end, name);
    Next(b, start + |e| + |n|, end, tag, body);
    ReadsEnc(b, start + |e| + |n|, end, tag, body);
    t, u, v := Spot(start, 4, engine), Spot(start + |e|, 4, name), Spot(start + |e| + |n|, tag, body);
    Three(b, start, end, t, u, v);
  }

  /** A scoped PDU of the gateway's, wherever it is written, reads back with its request-id and its varbinds. */
  lemma ScopedReads(b: Octets, pos: nat, engine: Octets, name: Octets, tag: byte, rid: int, vbl: Octets, vbs: seq<Varbind>)
    requires SmallInt(rid) && ListReads(vbl, vbs) && tag as int % 32 != 31
    requires |Scoped(engine, name, tag, rid, vbl)| < 0x1_0000_0000 && At(b, pos, Scoped(engine, name, tag, rid, vbl))
    ensures var body := Octs(engine) + Octs(name) + Enc(tag, Int(rid) + Int(0) + Int(0) + vbl);
            var t := Spot(pos, 0x30, body);
            t.end == pos + |Scoped(engine, name, tag, rid, vbl)| <= |b| && ReadPdu(b, t) == Some(Pdu(tag, engine, rid, vbs))
  {
    hide Int, At, Children, ReadInt, ReadList, ReadOctets, ListReads, ReadTlv, Len;
    var pdu := Int(rid) + Int(0) + Int(0) + vbl;
    var body := Octs(engine) + Octs(name) + Enc(tag, pdu);
    AtBounds(b, pos, Enc(0x30, body));
    ReadsEnc(b, pos, |b|, 0x30, body);
    var s := Spot(pos, 0x30, body);
    var t, u, v := ScopedParts(b, s.start, s.end, engine, name, tag, pdu);
    var p, q, r, w := PduParts(b, v.start, v.end, rid, vbl, vbs);
  }

  // ---- the whole message reads back

  /** What the writer is given for a message of the gateway's engine. */
  ghost predicate Sendable(msgId: int, flags: byte, local: Clock, user: Octets, digest: Octets, salt: Octets) {
    && 0 <= msgId <= MAX31 && (Bit(flags as int, 2) ==> Bit(flags as int, 1))
    && ClockOk(local) && |user| <= 32 && |digest| < 128 && |salt| <= 255
  }

  lemma WholeParts(b: Octets, start: nat, end: nat, msgId: int, flags: byte, sec: Octets, data: Octets, last: Tlv)
      returns (t: Tlv, u: Tlv, v: Tlv)
    requires 0 <= msgId <= MAX31 && (Bit(flags as int, 2) ==> Bit(flags as int, 1)) && end <= |b| && end < 0x1_0000_0000
    requires var body := MessageBody(msgId, flags, 3, sec, data); end == start + |body| && At(b, start, body)
    requires Leads(b, end - |data|, end, last) && last.end == end
    ensures Children(b, start, end) == Some([t, u, v, last])
    ensures t.start <= t.end <= |b| && u.start <= u.end <= |b| && v.start <= v.end <= |b|
    ensures ReadInt(b, t) == Some(3) && ReadGlobal(b, u) == Some(Global(3, flags as int))
    ensures v == Spot(start + |Int(3) + GlobalData(msgId, flags, 3)|, 4, sec) && At(b, v.start, sec)
  {
    hide At, Children, ReadInt, ReadOctets, Enc, Bit, IntBytes;
    var i, g, o := Int(3), GlobalData(msgId, flags, 3), Octs(sec);
    AtFour(b, start, i, g, o, data);
    NextInt(b, start, end, 3);
    var body := Int(msgId) + Int(MAX_SIZE) + Octs([flags]) + Int(3);
    BodyShorter(0x30, body);
    BodyShorter(4, sec);
    Next(b, start + |i|, end, 0x30, body);
    GlobalReads(b, start + |i|, msgId, flags, 3);
    NextOctets(b, start + |i| + |g|, end, sec);
    ReadsEnc(b, start + |i| + |g|, end, 4, sec);
    t, u, v := Spot(start, 2, IntBytes(3)), Spot(start + |i|, 0x30, body), Spot(start + |i| + |g|, 4, sec);
    Four(b, start, end, t, u, v, last);
  }

  lemma BodyShorter(tag: byte, body: Octets)
    ensures |body| < |Enc(tag, body)|
  {
  }

  /** Where the pieces of the whole message lie. */
  lemma WholeLies(msgId: int, flags: byte, sec: Octets, data: Octets) returns (s: Tlv)
    requires |Whole(msgId, flags, 3, sec, data)| < 0x1_0000_0000
    ensures var b := Whole(msgId, flags, 3, sec, data);
            var body := MessageBody(msgId, flags, 3, sec, data);
            && s == Spot(0, 0x30, body) && ReadTlv(b, 0, |b|) == Some(s) && s.end == |b| && At(b, s.start, body)
            && |data| <= |body| && At(b, |b| - |data|, data)
  {
    hide Enc, At, Len;
    var b := Whole(msgId, flags, 3, sec, data);
    var body := MessageBody(msgId, flags, 3, sec, data);
    BodyShorter(0x30, body);
    WholeAt(b);
    ReadsEnc(b, 0, |b|, 0x30, body);
    s := Spot(0, 0x30, body);
    AtParts(b, s.start, Int(3) + GlobalData(msgId, flags, 3) + Octs(sec), data);
  }

  lemma WholeAt(b: Octets)
    ensures At(b, 0, b)
  {
    assert b[0..0 + |b|] == b;
  }

  /** The message without its data: whatever the data, the header and the security parameters read back. */
  lemma HeaderReads(msgId: int, flags: byte, local: Clock, user: Octets, digest: Octets, salt: Octets, data: Octets, last: Tlv)
      returns (s: Tlv, t: Tlv, u: Tlv, v: Tlv)
    requires Sendable(msgId, flags, local, user, digest, salt)
    requires |Signed(msgId, flags, local, user, digest, salt, data)| < 0x1_0000_0000
    requires var b := Signed(msgId, flags, local, user, digest, salt, data);
             |data| <= |b| && Leads(b, |b| - |data|, |b|, last) && last.end == |b|
    ensures var b := Signed(msgId, flags, local, user, digest, salt, data);
            && ReadTlv(b, 0, |b|) == Some(s) && s.tag == 0x30 && s.start <= s.end == |b|
            && Children(b, s.start, s.end) == Some([t, u, v, last])
            && t.start <= t.end <= |b| && u.start <= u.end <= |b| && v.start <= v.end <= |b| && v.tag == 4
            && ReadInt(b, t) == Some(3) && ReadGlobal(b, u) == Some(Global(3, flags as int))
    ensures var b := Signed(msgId, flags, local, user, digest, salt, data);
            var at := DigestAt(msgId, flags, local, user, |digest|, salt, data);
            v.start <= v.end <= |b|
            && ReadSecurity(b, v) == Some(Security(local.engineId, local.boots, local.time, user, Tlv(4, at, at + |digest|), salt))
  {
    hide At, Children, ReadInt, Enc, Bit, IntBytes, ReadTlv, ReadSecurity, ReadGlobal, Len, SecurityContent, SecurityHead, GlobalData,
      MessageBody, DigestAt, Leads, Int;
    var content := SecurityContent(local, user, digest, salt);
    var sec := Enc(0x30, content);
    var b := Signed(msgId, flags, local, user, digest, salt, data);
    s := WholeLies(msgId, flags, sec, data);
    t, u, v := WholeParts(b, s.start, s.end, msgId, flags, sec, data, last);
    SecuritySize(msgId, flags, local, user, digest, salt, data);
    SecurityReads(b, v.start, v, local, user, digest, salt);
    DigestPlace(msgId, flags, local, user, digest, salt, data);
  }

  lemma SecuritySize(msgId: int, flags: byte, local: Clock, user: Octets, digest: Octets, salt: Octets, data: Octets)
    ensures |SecurityContent(local, user, digest, salt)| < |Signed(msgId, flags, local, user, digest, salt, data)|
  {
    var content := SecurityContent(local, user, digest, salt);
    BodyShorter(0x30, content);
    BodyShorter(4, Enc(0x30, content));
    BodyShorter(0x30, MessageBody(msgId, flags, 3, Enc(0x30, content), data));
    hide Enc, SecurityContent, Int, GlobalData;
  }

  /** Lengths do not depend on what the digest is. */
  lemma SameSizes(local: Clock, user: Octets, digest: Octets, salt: Octets)
    ensures |SecurityContent(local, user, digest, salt)| == |SecurityContent(local, user, Zeros(|digest|), salt)|
  {
    hide Len, SecurityHead;
  }

  lemma EncSize(tag: byte, a: Octets, c: Octets)
    requires |a| == |c|
    ensures |Enc(tag, a)| == |Enc(tag, c)|
  {
  }

  /** Where the writer puts the digest is where the reader finds it. */
  lemma DigestPlace(msgId: int, flags: byte, local: Clock, user: Octets, digest: Octets, salt: Octets, data: Octets)
    ensures var content := SecurityContent(local, user, digest, salt);
            var body := MessageBody(msgId, flags, 3, Enc(0x30, content), data);
            var v := Spot(Spot(0, 0x30, body).start + |Int(3) + GlobalData(msgId, flags, 3)|, 4, Enc(0x30, content));
            v.start + 1 + |Len(|content|)| + |SecurityHead(local, user)| + 2 == DigestAt(msgId, flags, local, user, |digest|, salt, data)
  {
    hide Len, SecurityHead, Enc, GlobalData, Int, SecurityContent;
    var content, zeroed := SecurityContent(local, user, digest, salt), SecurityContent(local, user, Zeros(|digest|), salt);
    SameSizes(local, user, digest, salt);
    EncSize(0x30, content, zeroed);
    EncSize(4, Enc(0x30, content), Enc(0x30, zeroed));
    assert |MessageBody(msgId, flags, 3, Enc(0x30, content), data)| == |MessageBody(msgId, flags, 3, Enc(0x30, zeroed), data)|;
  }

  /** What the four read fields of a message make. */
  lemma ParsesTo(b: Octets, s: Tlv, t: Tlv, u: Tlv, v: Tlv, last: Tlv, flags: int, x: Security, data: Data)
    requires ReadTlv(b, 0, |b|) == Some(s) && s.tag == 0x30 && s.start <= s.end == |b| && Children(b, s.start, s.end) == Some([t, u, v, last])
    requires t.start <= t.end <= |b| && u.start <= u.end <= |b| && v.start <= v.end <= |b| && v.tag == 4 && last.start <= last.end <= |b|
    requires ReadInt(b, t) == Some(3) && ReadGlobal(b, u) == Some(Global(3, flags)) && ReadSecurity(b, v) == Some(x)
    requires if Bit(flags, 2) then last.tag == 4 && data == Encrypted(Content(b, last))
             else exists pdu :: ReadPdu(b, last) == Some(pdu) && data == Plain(pdu)
    ensures ParseMessage(b) == Some(Message(3, Bit(flags, 1), Bit(flags, 2), Bit(flags, 4), x.engineId, x.boots, x.time, x.userName,
                                            x.authParams, x.privParams, data))
  {
    hide ReadTlv, Children, ReadInt, ReadGlobal, ReadSecurity, ReadPdu, Bit;
  }

  /**
   * A plaintext message the gateway builds parses, to the same engine, clock, user, request-id and varbinds, with
   * authParams exactly where the writer put the digest.
   */
  lemma PlainMessageReads(msgId: int, flags: byte, local: Clock, user: Octets, digest: Octets, salt: Octets,
                          engine: Octets, name: Octets, tag: byte, rid: int, vbl: Octets, vbs: seq<Varbind>)
    requires Sendable(msgId, flags, local, user, digest, salt) && !Bit(flags as int, 2)
    requires SmallInt(rid) && ListReads(vbl, vbs) && tag as int % 32 != 31
    requires |Signed(msgId, flags, local, user, digest, salt, Scoped(engine, name, tag, rid, vbl))| < 0x1_0000_0000
    ensures var data := Scoped(engine, name, tag, rid, vbl);
            var at := DigestAt(msgId, flags, local, user, |digest|, salt, data);
            ParseMessage(Signed(msgId, flags, local, user, digest, salt, data))
            == Some(Message(3, Bit(flags as int, 1), false, Bit(flags as int, 4), local.engineId, local.boots, local.time, user,
                            Tlv(4, at, at + |digest|), salt, Plain(Pdu(tag, engine, rid, vbs))))
  {
    hide At, Children, ReadInt, Enc, Bit, ReadTlv, ReadSecurity, ReadGlobal, ReadPdu, ListReads, DigestAt, SecurityContent, Scoped, MessageBody,
      Signed, ParseMessage, Leads;
    var data := Scoped(engine, name, tag, rid, vbl);
    var b := Signed(msgId, flags, local, user, digest, salt, data);
    var last := DataLies(msgId, flags, local, user, digest, salt, engine, name, tag, rid, vbl, vbs);
    var s, t, u, v := HeaderReads(msgId, flags, local, user, digest, salt, data, last);
    var at := DigestAt(msgId, flags, local, user, |digest|, salt, data);
    ParsesTo(b, s, t, u, v, last, flags as int, Security(local.engineId, local.boots, local.time, user, Tlv(4, at, at + |digest|), salt),
             Plain(Pdu(tag, engine, rid, vbs)));
  }

  lemma DataLies(msgId: int, flags: byte, local: Clock, user: Octets, digest: Octets, salt: Octets,
                 engine: Octets, name: Octets, tag: byte, rid: int, vbl: Octets, vbs: seq<Varbind>) returns (last: Tlv)
    requires SmallInt(rid) && ListReads(vbl, vbs) && tag as int % 32 != 31
    requires |Signed(msgId, flags, local, user, digest, salt, Scoped(engine, name, tag, rid, vbl))| < 0x1_0000_0000
    ensures var data := Scoped(engine, name, tag, rid, vbl);
            var b := Signed(msgId, flags, local, user, digest, salt, data);
            && |data| <= |b| && Leads(b, |b| - |data|, |b|, last) && last.start <= last.end == |b|
            && ReadPdu(b, last) == Some(Pdu(tag, engine, rid, vbs))
  {
    hide At, Children, ReadInt, ReadTlv, ReadPdu, ListReads, SecurityContent, MessageBody, Len;
    var data := Scoped(engine, name, tag, rid, vbl);
    var b := Signed(msgId, flags, local, user, digest, salt, data);
    var s := WholeLies(msgId, flags, Enc(0x30, SecurityContent(local, user, digest, salt)), data);
    var body := Octs(engine) + Octs(name) + Enc(tag, Int(rid) + Int(0) + Int(0) + vbl);
    BodyShorter(0x30, body);
    ScopedReads(b, |b| - |data|, engine, name, tag, rid, vbl, vbs);
    Next(b, |b| - |data|, |b|, 0x30, body);
    last := Spot(|b| - |data|, 0x30, body);
  }

  /** An encrypted message parses too, to the same encrypted octets. */
  lemma EncryptedMessageReads(msgId: int, flags: byte, local: Clock, user: Octets, digest: Octets, salt: Octets, cipher: Octets)
    requires Sendable(msgId, flags, local, user, digest, salt) && Bit(flags as int, 2)
    requires |Signed(msgId, flags, local, user, digest, salt, Octs(cipher))| < 0x1_0000_0000
    ensures var at := DigestAt(msgId, flags, local, user, |digest|, salt, Octs(cipher));
            ParseMessage(Signed(msgId, flags, local, user, digest, salt, Octs(cipher)))
            == Some(Message(3, true, true, Bit(flags as int, 4), local.engineId, local.boots, local.time, user,
                            Tlv(4, at, at + |digest|), salt, Encrypted(cipher)))
  {
    hide At, Children, ReadInt, Enc, Bit, ReadTlv, ReadSecurity, ReadGlobal, ReadPdu, DigestAt, SecurityContent, MessageBody, Signed,
      ParseMessage, Leads;
    var data := Octs(cipher);
    var b := Signed(msgId, flags, local, user, digest, salt, data);
    var last := CipherLies(msgId, flags, local, user, digest, salt, cipher);
    var s, t, u, v := HeaderReads(msgId, flags, local, user, digest, salt, data, last);
    var at := DigestAt(msgId, flags, local, user, |digest|, salt, data);
    ParsesTo(b, s, t, u, v, last, flags as int, Security(local.engineId, local.boots, local.time, user, Tlv(4, at, at + |digest|), salt),
             Encrypted(cipher));
  }

  lemma CipherLies(msgId: int, flags: byte, local: Clock, user: Octets, digest: Octets, salt: Octets, cipher: Octets) returns (last: Tlv)
    requires |Signed(msgId, flags, local, user, digest, salt, Octs(cipher))| < 0x1_0000_0000
    ensures var data := Octs(cipher);
            var b := Signed(msgId, flags, local, user, digest, salt, data);
            && |data| <= |b| && Leads(b, |b| - |data|, |b|, last) && last.end == |b| && last.start <= last.end && last.tag == 4
            && Content(b, last) == cipher
  {
    hide At, Children, ReadTlv, SecurityContent, MessageBody, Len;
    var data := Octs(cipher);
    var b := Signed(msgId, flags, local, user, digest, salt, data);
    var s := WholeLies(msgId, flags, Enc(0x30, SecurityContent(local, user, digest, salt)), data);
    BodyShorter(4, cipher);
    Next(b, |b| - |data|, |b|, 4, cipher);
    last := Spot(|b| - |data|, 4, cipher);
  }

  // ---- the digest

  lemma {:induction false} EncPatched(tag: byte, u: Octets, w: Octets, w': Octets, v: Octets)
    requires |w| == |w'|
    ensures |Enc(tag, u + w + v)| >= 1 + |Len(|u + w + v|)| + |u| + |w|
    ensures Enc(tag, u + w' + v) == Patched(Enc(tag, u + w + v), 1 + |Len(|u + w + v|)| + |u|, w')
  {
    hide Len;
    var l := [tag] + Len(|u + w + v|);
    assert |u + w + v| == |u + w' + v|;
    assert Enc(tag, u + w + v) == l + u + w + v;
    assert (l + u + w + v)[..|l| + |u|] == l + u;
    assert (l + u + w + v)[|l| + |u| + |w|..] == v;
  }

  /** Writing the digest over the zeros gives the message with the digest in place. */
  lemma DigestInPlace(msgId: int, flags: byte, local: Clock, user: Octets, digest: Octets, salt: Octets, data: Octets)
    requires |digest| < 128
    ensures var b := Signed(msgId, flags, local, user, Zeros(|digest|), salt, data);
            var at := DigestAt(msgId, flags, local, user, |digest|, salt, data);
            at + |digest| <= |b| && Signed(msgId, flags, local, user, digest, salt, data) == Patched(b, at, digest)
  {
    hide Len, Enc, SecurityHead, GlobalData, Int, IntBytes;
    var z, e: Octets := Zeros(|digest|), [];
    var h, o, front := SecurityHead(local, user), Octs(salt), Int(3) + GlobalData(msgId, flags, 3);
    SecurityContentIs(local, user, z, salt);
    SecurityContentIs(local, user, digest, salt);
    // authParams, then the SEQUENCE of parameters around it, then their OCTET STRING, then the message
    PatchIn(4, z, digest);
    PatchOut(0x30, h, Octs(z), Octs(digest), o, 2, z, digest);
    var c, c' := Enc(0x30, h + Octs(z) + o), Enc(0x30, h + Octs(digest) + o);
    var at := 1 + |Len(|h + Octs(z) + o|)| + |h| + 2;
    PatchOut(4, e, c, c', e, at, z, digest);
    assert e + c + e == c && e + c' + e == c';
    PatchOut(0x30, front, Octs(c), Octs(c'), data, 1 + |Len(|c|)| + at, z, digest);
  }

  lemma SecurityContentIs(local: Clock, user: Octets, digest: Octets, salt: Octets)
    ensures SecurityContent(local, user, digest, salt) == SecurityHead(local, user) + Octs(digest) + Octs(salt)
  {
  }

  lemma PatchIn(tag: byte, z: Octets, d: Octets)
    requires |z| == |d| < 128
    ensures |Enc(tag, z)| == 2 + |z| && Enc(tag, d) == Patched(Enc(tag, z), 2, d)
  {
    var e: Octets := [];
    ShortLen(|z|);
    EncPatched(tag, e, z, d, e);
    assert e + z + e == z && e + d + e == d;
  }

  /** A piece inside a field, patched there, is patched in the element around the field. */
  lemma PatchOut(tag: byte, u: Octets, w: Octets, w': Octets, v: Octets, at: nat, z: Octets, d: Octets)
    requires |z| == |d| && at + |z| <= |w| && w' == Patched(w, at, d)
    ensures var off := 1 + |Len(|u + w + v|)| + |u| + at;
            off + |d| <= |Enc(tag, u + w + v)| && Enc(tag, u + w' + v) == Patched(Enc(tag, u + w + v), off, d)
  {
    hide Len;
    var pre, post := w[..at], w[at + |d|..];
    var mid := w[at..at + |d|];
    assert w == pre + mid + post;
    EncPatched(tag, u + pre, mid, d, post + v);
    assert u + w + v == (u + pre) + mid + (post + v);
    assert u + w' + v == (u + pre) + d + (post + v);
  }

  /**
   * The receiver's digest check on a message of the gateway's: zeroing authParams as the reader finds them restores
   * exactly the octets the writer authenticated, so the digest recomputed over them is the one received.
   */
  lemma DigestChecks(mac: Octets -> Octets, size: nat, msgId: int, flags: byte, local: Clock, user: Octets, salt: Octets, data: Octets)
    requires size < 128 && forall x :: |mac(x)| == size
    ensures var unsigned := Signed(msgId, flags, local, user, Zeros(size), salt, data);
            var at := DigestAt(msgId, flags, local, user, size, salt, data);
            && at + size <= |unsigned|
            && (var sent := Patched(unsigned, at, mac(unsigned));
                && sent == Signed(msgId, flags, local, user, mac(unsigned), salt, data)
                && Patched(sent, at, Zeros(size)) == unsigned
                && mac(Patched(sent, at, Zeros(size))) == sent[at..at + size])
  {
    hide Signed, DigestAt;
    var unsigned := Signed(msgId, flags, local, user, Zeros(size), salt, data);
    var at := DigestAt(msgId, flags, local, user, size, salt, data);
    var d := mac(unsigned);
    DigestInPlace(msgId, flags, local, user, d, salt, data);
    DigestInPlace(msgId, flags, local, user, Zeros(size), salt, data);
    var sent := Patched(unsigned, at, d);
    assert Patched(sent, at, Zeros(size)) == Patched(unsigned, at, Zeros(size));
    assert sent[at..at + size] == d;
  }

  /** One element that fills a span. */
  lemma One(b: Octets, pos: nat, limit: nat, t: Tlv)
    requires Leads(b, pos, limit, t) && t.end == limit
    ensures Children(b, pos, limit) == Some([t])
  {
    hide Children;
    NoMore(b, limit);
    assert [t] + [] == [t];
  }

  /** The counter a Report carries reads back, so what a Report is built from satisfies the above. */
  lemma CounterListReads(oid: seq<nat>, count: nat)
    requires IsOid(oid) && count <= 0xFFFF_FFFF && |OidBytes(oid)| < 0x1000_0000
    ensures ListReads(Enc(0x30, Enc(0x30, Enc(6, OidBytes(oid)) + Enc(0x41, UintBytes(count)))), [Varbind(oid, UnsignedValue(0x41, count))])
  {
    hide OidBytes, UintBytes, OidOf, Len, Children, ReadTlv, ReadVarbind, At, Enc;
    var body := Enc(6, OidBytes(oid)) + Enc(0x41, UintBytes(count));
    var v := Enc(0x30, body);
    var b := Enc(0x30, v);
    CounterSizes(oid, count);
    WholeAt(b);
    ReadsEnc(b, 0, |b|, 0x30, v);
    var outer := Spot(0, 0x30, v);
    Next(b, outer.start, outer.end, 0x30, body);
    ReadsEnc(b, outer.start, outer.end, 0x30, body);
    var vb := Spot(outer.start, 0x30, body);
    One(b, outer.start, outer.end, vb);
    CounterReads(b, vb, oid, count);
    assert [vb][1..] == [];
    assert ReadVarbinds(b, []) == Some([]);
    assert [Varbind(oid, UnsignedValue(0x41, count))] + [] == [Varbind(oid, UnsignedValue(0x41, count))];
  }

  lemma CounterReads(b: Octets, vb: Tlv, oid: seq<nat>, count: nat)
    requires IsOid(oid) && count <= 0xFFFF_FFFF && |OidBytes(oid)| < 0x1000_0000
    requires var body := Enc(6, OidBytes(oid)) + Enc(0x41, UintBytes(count));
             vb.tag == 0x30 && vb.end <= |b| && vb.end == vb.start + |body| && At(b, vb.start, body)
    ensures ReadVarbind(b, vb) == Some(Varbind(oid, UnsignedValue(0x41, count)))
  {
    hide OidBytes, UintBytes, OidOf, Len, Children, ReadVarbind, At, Enc;
    OidReads(oid);
    UintReads(count);
    var o := Enc(6, OidBytes(oid));
    AtParts(b, vb.start, o, Enc(0x41, UintBytes(count)));
    Next(b, vb.start, vb.end, 6, OidBytes(oid));
    Next(b, vb.start + |o|, vb.end, 0x41, UintBytes(count));
    var x, y := Spot(vb.start, 6, OidBytes(oid)), Spot(vb.start + |o|, 0x41, UintBytes(count));
    One(b, vb.start + |o|, vb.end, y);
    assert [x] + [y] == [x, y];
    CounterVarbind(b, vb, x, y, oid, count);
  }

  lemma CounterVarbind(b: Octets, vb: Tlv, x: Tlv, y: Tlv, oid: seq<nat>, count: nat)
    requires vb.tag == 0x30 && vb.start <= vb.end <= |b| && Children(b, vb.start, vb.end) == Some([x, y])
    requires x.tag == 6 && x.start <= x.end <= |b| && OidOf(Content(b, x)) == Some(oid)
    requires y.tag == 0x41 && y.start <= y.end <= |b| && Content(b, y) == UintBytes(count) && count <= 0xFFFF_FFFF
    ensures ReadVarbind(b, vb) == Some(Varbind(oid, UnsignedValue(0x41, count)))
  {
    hide OidOf, UintBytes, Children;
    UintReads(count);
  }

  lemma CounterSizes(oid: seq<nat>, count: nat)
    requires |oid| >= 2 && count <= 0xFFFF_FFFF && |OidBytes(oid)| < 0x1000_0000
    ensures |Enc(0x30, Enc(6, OidBytes(oid)) + Enc(0x41, UintBytes(count)))| < 0x1_0000_0000
    ensures |Enc(6, OidBytes(oid)) + Enc(0x41, UintBytes(count))| < 0x1_0000_0000
  {
    hide OidBytes, UintBytes, Len;
    UintReads(count);
    LenSize(|OidBytes(oid)|);
    LenSize(|UintBytes(count)|);
    LenSize(|Enc(6, OidBytes(oid)) + Enc(0x41, UintBytes(count))|);
  }
}
