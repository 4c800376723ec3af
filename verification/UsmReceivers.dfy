/**
 * The gateway's SNMPv3 receiver (`UsmReceiver` of `usm.ts`): the ten checks in their order, and the cache of engine
 * clocks by which a recorded message is refused once its engine's clock has moved on.
 */
module UsmReceivers {
  import opened Prelude
  import opened Bytes
  import opened Ber
  import opened Snmp
  import opened BerLoops

  const WINDOW := 150

  datatype User = User(name: Octets, macSize: Option<nat>, priv: bool)

  /** The configured users by engine and name, the keyed digest cut to its length, and decryption to a ScopedPDU's octets. */
  datatype Outside = Outside(
    userOf: (Octets, Octets) -> Option<User>,
    mac: (User, Octets, Octets) -> Octets,
    unlock: (User, Message) -> Option<Octets>)

  datatype Engine = Engine(boots: int, time: int, latest: int, at: int)

  datatype Local = Local(engineId: Octets, boots: int, time: int)

  datatype Receiver = Receiver(now: int, start: int, local: Local, engines: map<Octets, Engine>)

  datatype Outcome =
    | Refused(reason: string, report: bool)
    | Accepted(varbinds: seq<Varbind>, inform: Option<int>, engine: Octets, user: Octets, priv: bool)

  datatype Result = Result(c: Receiver, out: Outcome)

  // ---- steps 1 to 6: who sent it

  datatype Verdict = Bad(out: Outcome) | Good(m: Message, user: User)

  /** The digest recomputed over the received octets, with authParams zeroed, is the one received. */
  function Authentic(o: Outside, b: Octets, m: Message, user: User): bool
    requires m.authParams.start <= m.authParams.end <= |b|
  {
    var ap := m.authParams;
    && user.macSize.Some? && ap.end - ap.start == user.macSize.value
    && o.mac(user, m.engineId, Patched(b, ap.start, Zeros(ap.end - ap.start))) == b[ap.start..ap.end]
  }

  function Identify(o: Outside, b: Octets): (v: Verdict)
    ensures v.Bad? ==> v.out.Refused?
    ensures v.Good? ==> ParseMessage(b) == Some(v.m) && v.m.authParams.start <= v.m.authParams.end <= |b| && Authentic(o, b, v.m, v.user)
  {
    match ParseMessage(b)
    case None => Bad(Refused("malformed", false))
    case Some(m) =>
      if m.model != 3 then Bad(Refused("unsupported-security-model", false))
      else if m.engineId == [] then Bad(Refused("unknown-engine-id", m.reportable))
      else
        match o.userOf(m.engineId, m.userName)
        case None => Bad(Refused("unknown-user", false))
        case Some(user) =>
          if !m.auth || (m.priv && !user.priv) then Bad(Refused("unsupported-security-level", false))
          else if !Authentic(o, b, m, user) then Bad(Refused("wrong-digest", false))
          else Good(m, user)
  }

  // ---- step 7: when it was sent

  function Abs(x: int): int { if x < 0 then -x else x }

  /** The gateway's own clock. */
  predicate InOwnWindow(c: Receiver, m: Message) {
    c.local.boots != MAX31 && m.boots == c.local.boots && Abs(m.time - (c.local.time + (c.now - c.start))) <= WINDOW
  }

  predicate Newer(c: Receiver, m: Message) {
    m.engineId in c.engines ==>
      m.boots > c.engines[m.engineId].boots || (m.boots == c.engines[m.engineId].boots && m.time > c.engines[m.engineId].latest)
  }

  /** A message ahead of what is cached of its engine moves the cache on. */
  function Noted(c: Receiver, m: Message): (d: Receiver)
    ensures m.engineId in d.engines
  {
    if Newer(c, m) then c.(engines := c.engines[m.engineId := Engine(m.boots, m.time, m.time, c.now)]) else c
  }

  predicate InCachedWindow(c: Receiver, m: Message)
    requires m.engineId in c.engines
  {
    var e := c.engines[m.engineId];
    e.boots != MAX31 && e.boots <= m.boots && (m.boots == e.boots ==> e.time + (c.now - e.at) - WINDOW <= m.time)
  }

  // ---- steps 8 to 10: what it says

  function Opened(o: Outside, m: Message, user: User): Option<Pdu> {
    match m.data
    case Plain(pdu) => Some(pdu)
    case Encrypted(_) =>
      if |m.privParams| != 8 then None
      else
        match o.unlock(user, m)
        case None => None
        case Some(plain) =>
          var t := ReadTlv(plain, 0, |plain|);
          if t.None? || t.value.end != |plain| then None else ReadPdu(plain, t.value)
  }

  function Judge(o: Outside, c: Receiver, m: Message, user: User): Outcome {
    var own := m.engineId == c.local.engineId;
    match Opened(o, m, user)
    case None => Refused("decryption-error", false)
    case Some(pdu) =>
      if pdu.tag != 0xa7 && pdu.tag != 0xa6 then Refused("not-a-notification", false)
      else if (pdu.tag == 0xa6) != own then Refused("engine-id-mismatch", false)
      else Accepted(pdu.varbinds, if own then Some(pdu.requestId) else None, m.engineId, user.name, m.priv)
  }

  function OnReceive(o: Outside, c: Receiver, b: Octets): Result {
    match Identify(o, b)
    case Bad(out) => Result(c, out)
    case Good(m, user) =>
      if m.engineId == c.local.engineId then
        if !InOwnWindow(c, m) then Result(c, Refused("not-in-time-window", m.reportable)) else Result(c, Judge(o, c, m, user))
      else
        var d := Noted(c, m);
        if !InCachedWindow(d, m) then Result(d, Refused("not-in-time-window", false)) else Result(d, Judge(o, d, m, user))
  }

  function Elapsed(c: Receiver, seconds: nat): Receiver { c.(now := c.now + seconds) }

  // ---- the object

  class UsmReceiver {
    const o: Outside
    const start: int
    const local: Local
    var now: int
    var engines: map<Octets, Engine>

    ghost function View(): Receiver
      reads this
    {
      Receiver(now, start, local, engines)
    }

    constructor (o: Outside, now: int, local: Local)
      ensures this.o == o && View() == Receiver(now, now, local, map[])
    {
      this.o, this.start, this.local, this.now, engines := o, now, local, now, map[];
    }

    method CheckDigest(b: Octets, m: Message, user: User) returns (ok: bool)
      requires m.authParams.start <= m.authParams.end <= |b|
      ensures ok == Authentic(o, b, m, user)
    {
      var ap := m.authParams;
      if user.macSize.None? || ap.end - ap.start != user.macSize.value { return false; }
      var zeroed := Zeroed(b, ap);
      ok := o.mac(user, m.engineId, zeroed) == b[ap.start..ap.end];
    }

    method Sender(b: Octets) returns (v: Verdict)
      ensures v == Identify(o, b)
    {
      hide ParseMessage, Authentic;
      var parsed := Parse(b);
      if parsed.None? { return Bad(Refused("malformed", false)); }
      var m := parsed.value;
      if m.model != 3 { return Bad(Refused("unsupported-security-model", false)); }
      if |m.engineId| == 0 { return Bad(Refused("unknown-engine-id", m.reportable)); }
      var user := o.userOf(m.engineId, m.userName);
      if user.None? { return Bad(Refused("unknown-user", false)); }
      if !m.auth || (m.priv && !user.value.priv) { return Bad(Refused("unsupported-security-level", false)); }
      var ok := CheckDigest(b, m, user.value);
      if !ok { return Bad(Refused("wrong-digest", false)); }
      v := Good(m, user.value);
    }

    method InTime(m: Message) returns (ok: bool)
      modifies this`engines
      ensures View() == if m.engineId == local.engineId then old(View()) else Noted(old(View()), m)
      ensures ok == if m.engineId == local.engineId then InOwnWindow(View(), m) else InCachedWindow(View(), m)
    {
      if m.engineId == local.engineId {
        var localTime := local.time + (now - start);
        return !(local.boots == MAX31 || m.boots != local.boots || Abs(m.time - localTime) > WINDOW);
      }
      if m.engineId !in engines || m.boots > engines[m.engineId].boots
         || (m.boots == engines[m.engineId].boots && m.time > engines[m.engineId].latest) {
        engines := engines[m.engineId := Engine(m.boots, m.time, m.time, now)];
      }
      var e := engines[m.engineId];
      var cachedNow := e.time + (now - e.at);
      ok := !(e.boots == MAX31 || m.boots < e.boots || (m.boots == e.boots && m.time < cachedNow - WINDOW));
    }

    method Open(m: Message, user: User) returns (pdu: Option<Pdu>)
      ensures pdu == Opened(o, m, user)
    {
      hide ReadPdu;
      if m.data.Plain? { return Some(m.data.pdu); }
      if |m.privParams| != 8 { return None; }
      var plain := o.unlock(user, m);
      if plain.None? { return None; }
      var t := TlvAt(plain.value, 0, |plain.value|);
      if t.None? || t.value.end != |plain.value| { return None; }
      pdu := ScopedPduOf(plain.value, t.value);
    }

    method Receive(b: Octets) returns (out: Outcome)
      modifies this
      ensures Result(View(), out) == OnReceive(o, old(View()), b)
    {
      hide Identify, Opened, Noted, InCachedWindow, InOwnWindow;
      var v := Sender(b);
      if v.Bad? { return v.out; }
      var own := v.m.engineId == local.engineId;
      var ok := InTime(v.m);
      if !ok { return Refused("not-in-time-window", if own then v.m.reportable else false); }
      var pdu := Open(v.m, v.user);
      if pdu.None? { return Refused("decryption-error", false); }
      var inform := pdu.value.tag == 0xa6;
      if pdu.value.tag != 0xa7 && !inform { return Refused("not-a-notification", false); }
      if inform != own { return Refused("engine-id-mismatch", false); }
      out := Accepted(pdu.value.varbinds, if inform then Some(pdu.value.requestId) else None, v.m.engineId, v.user.name, v.m.priv);
    }

    method Elapse(seconds: nat)
      modifies this`now
      ensures View() == Elapsed(old(View()), seconds)
    {
      now := now + seconds;
    }
  }

  // ---- the gateway's own messages pass the digest check

  /** A plaintext message built for a user of this engine is authentic to a receiver that knows the user. */
  lemma OwnMessageAuthentic(o: Outside, u: User, size: nat, msgId: int, flags: byte, local: Clock, salt: Octets,
                            engine: Octets, name: Octets, tag: byte, rid: int, vbl: Octets, vbs: seq<Varbind>)
    requires size < 128 && u.macSize == Some(size) && forall x :: |o.mac(u, local.engineId, x)| == size
    requires Sendable(msgId, flags, local, u.name, Zeros(size), salt) && !Bit(flags as int, 2) && Bit(flags as int, 1)
    requires SmallInt(rid) && ListReads(vbl, vbs) && tag as int % 32 != 31 && local.engineId != []
    requires o.userOf(local.engineId, u.name) == Some(u)
    requires forall d: Octets :: |d| == size ==>
      |Snmp.Signed(msgId, flags, local, u.name, d, salt, Scoped(engine, name, tag, rid, vbl))| < 0x1_0000_0000
    ensures var data := Scoped(engine, name, tag, rid, vbl);
      var digest := o.mac(u, local.engineId, Snmp.Signed(msgId, flags, local, u.name, Zeros(size), salt, data));
      var b := Snmp.Signed(msgId, flags, local, u.name, digest, salt, data);
      && ParseMessage(b).Some?
      && Identify(o, b) == Good(ParseMessage(b).value, u)
  {
    hide Snmp.Signed, ParseMessage, Scoped, DigestAt, Bit, ListReads;
    var data := Scoped(engine, name, tag, rid, vbl);
    var mac := x => o.mac(u, local.engineId, x);
    DigestChecks(mac, size, msgId, flags, local, u.name, salt, data);
    var digest := mac(Snmp.Signed(msgId, flags, local, u.name, Zeros(size), salt, data));
    PlainMessageReads(msgId, flags, local, u.name, digest, salt, engine, name, tag, rid, vbl, vbs);
  }

  // ---- only an authentic message moves the cache

  lemma CacheNeedsDigest(o: Outside, c: Receiver, b: Octets)
    requires OnReceive(o, c, b).c != c
    ensures ParseMessage(b).Some? && o.userOf(ParseMessage(b).value.engineId, ParseMessage(b).value.userName).Some?
    ensures var m := ParseMessage(b).value; Authentic(o, b, m, o.userOf(m.engineId, m.userName).value) && Newer(c, m)
  {
  }

  // ---- what is accepted, and what is refused for what

  /** Later than anything cached of its engine. */
  predicate Ahead(c: Receiver, m: Message) {
    m.engineId in c.engines ==> c.engines[m.engineId].boots < m.boots || (c.engines[m.engineId].boots == m.boots && c.engines[m.engineId].latest < m.time)
  }

  /**
   * Sent in time: within 150 seconds of the gateway's own clock in its own start, or for another engine ahead of all cached of it or
   * in its latest start at most 150 seconds behind its clock; and in no start numbered 2^31 - 1.
   */
  predicate SentInTime(c: Receiver, m: Message) {
    if m.engineId == c.local.engineId then
      var clock := c.local.time + (c.now - c.start);
      m.boots == c.local.boots && m.boots != 0x7fff_ffff && clock - 150 <= m.time <= clock + 150
    else
      && m.boots != 0x7fff_ffff
      && (Ahead(c, m) || (m.boots == c.engines[m.engineId].boots && c.engines[m.engineId].time + (c.now - c.engines[m.engineId].at) - 150 <= m.time))
  }

  /** What each of the ten checks finds wrong, its reason, and whether a report is owed, in their order. */
  ghost function Findings(o: Outside, c: Receiver, b: Octets): seq<(bool, string, bool)> {
    if ParseMessage(b).None? then [(true, "malformed", false)]
    else
      var m := ParseMessage(b).value;
      var own, user := m.engineId == c.local.engineId, o.userOf(m.engineId, m.userName);
      [(m.model != 3, "unsupported-security-model", false), (m.engineId == [], "unknown-engine-id", m.reportable), (user.None?, "unknown-user", false)]
      + if user.None? then []
        else
          var pdu := Opened(o, m, user.value);
          [(!m.auth || (m.priv && !user.value.priv), "unsupported-security-level", false), (!RightDigest(o, b, m, user.value), "wrong-digest", false),
           (!SentInTime(c, m), "not-in-time-window", own && m.reportable), (pdu.None?, "decryption-error", false)]
          + if pdu.None? then []
            else [(pdu.value.tag != 0xa6 && pdu.value.tag != 0xa7, "not-a-notification", false),
                  (if own then pdu.value.tag != 0xa6 else pdu.value.tag == 0xa6, "engine-id-mismatch", false)]
  }

  /** The digest is as long as the user's, and that of the message as it was before the digest took the place of zeros. */
  predicate RightDigest(o: Outside, b: Octets, m: Message, user: User) {
    var from, to := m.authParams.start, m.authParams.end;
    && from <= to <= |b| && user.macSize == Some(to - from)
    && o.mac(user, m.engineId, b[..from] + seq(to - from, _ => 0) + b[to..]) == b[from..to]
  }

  lemma DigestIs(o: Outside, b: Octets, m: Message, user: User)
    requires m.authParams.start <= m.authParams.end <= |b|
    ensures Authentic(o, b, m, user) <==> RightDigest(o, b, m, user)
  {
    var ap := m.authParams;
    var n: nat := ap.end - ap.start;
    assert Zeros(n) == seq(n, _ => 0);
    assert Patched(b, ap.start, Zeros(n)) == b[..ap.start] + seq(n, _ => 0) + b[ap.end..];
  }

  lemma TimeIs(c: Receiver, m: Message)
    ensures SentInTime(c, m) <==> if m.engineId == c.local.engineId then InOwnWindow(c, m) else InCachedWindow(Noted(c, m), m)
  {
  }

  ghost predicate FoundWrong(findings: seq<(bool, string, bool)>, why: string, report: bool) {
    exists i :: 0 <= i < |findings| && findings[i] == (true, why, report) && forall j :: 0 <= j < i ==> !findings[j].0
  }

  /**
   * A message is refused for the first thing found wrong, and otherwise taken for what it says: a trap of another engine or an inform
   * of the gateway's own. The cache moves on with any message of another engine that is ahead and whose digest is right.
   */
  ghost predicate ReceivedSo(o: Outside, c: Receiver, b: Octets, r: Result) {
    var findings := Findings(o, c, b);
    && (match r.out
        case Refused(why, report) => FoundWrong(findings, why, report)
        case Accepted(varbinds, inform, engine, name, priv) =>
          && (forall i :: 0 <= i < |findings| ==> !findings[i].0) && ParseMessage(b).Some?
          && (var m := ParseMessage(b).value;
              && o.userOf(m.engineId, m.userName).Some? && engine == m.engineId && name == o.userOf(m.engineId, m.userName).value.name && priv == m.priv
              && Opened(o, m, o.userOf(m.engineId, m.userName).value).Some?
              && (var pdu := Opened(o, m, o.userOf(m.engineId, m.userName).value).value;
                  varbinds == pdu.varbinds && inform == if m.engineId == c.local.engineId then Some(pdu.requestId) else None)))
    && (if |findings| >= 5 && (forall i :: 0 <= i < 5 ==> !findings[i].0) && ParseMessage(b).Some? && ParseMessage(b).value.engineId != c.local.engineId
           && Ahead(c, ParseMessage(b).value)
        then var m := ParseMessage(b).value; r.c == c.(engines := c.engines[m.engineId := Engine(m.boots, m.time, m.time, c.now)])
        else r.c == c)
  }

  /** The first five findings are about who sent it. */
  lemma SenderFinds(o: Outside, c: Receiver, b: Octets)
    ensures var f := Findings(o, c, b);
            match Identify(o, b)
            case Bad(out) => out.Refused? && FoundWrong(f, out.reason, out.report) && !(|f| >= 5 && forall i :: 0 <= i < 5 ==> !f[i].0)
            case Good(m, user) => |f| >= 7 && (forall i :: 0 <= i < 5 ==> !f[i].0) && ParseMessage(b) == Some(m) && o.userOf(m.engineId, m.userName) == Some(user)
  {
    hide Authentic, RightDigest, Opened, SentInTime, ParseMessage;
    var f := Findings(o, c, b);
    if ParseMessage(b).None? {
      assert f[0] == (true, "malformed", false);
    } else {
      var m := ParseMessage(b).value;
      var user := o.userOf(m.engineId, m.userName);
      if m.model != 3 { assert f[0].0; }
      else if m.engineId == [] { assert f[1].0; }
      else if user.None? { assert f[2].0; }
      else {
        ParsedSpan(b);
        DigestIs(o, b, m, user.value);
        if !m.auth || (m.priv && !user.value.priv) { assert f[3].0; } else if !RightDigest(o, b, m, user.value) { assert f[4].0; }
      }
    }
  }

  lemma ParsedSpan(b: Octets)
    requires ParseMessage(b).Some?
    ensures var ap := ParseMessage(b).value.authParams; ap.start <= ap.end <= |b|
  {
    hide ReadPdu;
  }

  /** The others are about when it was sent and what it says. */
  lemma ContentFinds(o: Outside, c: Receiver, b: Octets, m: Message, user: User)
    requires ParseMessage(b) == Some(m) && o.userOf(m.engineId, m.userName) == Some(user) && |Findings(o, c, b)| >= 7
    requires forall i :: 0 <= i < 5 ==> !Findings(o, c, b)[i].0
    ensures var f, own, pdu := Findings(o, c, b), m.engineId == c.local.engineId, Opened(o, m, user);
            && (!SentInTime(c, m) ==> FoundWrong(f, "not-in-time-window", own && m.reportable))
            && (SentInTime(c, m) ==>
                  && (pdu.None? ==> FoundWrong(f, "decryption-error", false))
                  && (pdu.Some? && pdu.value.tag != 0xa6 && pdu.value.tag != 0xa7 ==> FoundWrong(f, "not-a-notification", false))
                  && (pdu.Some? && (pdu.value.tag == 0xa6 || pdu.value.tag == 0xa7) ==>
                        if (pdu.value.tag == 0xa6) != own then FoundWrong(f, "engine-id-mismatch", false) else forall i :: 0 <= i < |f| ==> !f[i].0))
  {
    hide RightDigest, Opened, SentInTime, ParseMessage;
    var f, pdu := Findings(o, c, b), Opened(o, m, user);
    if !SentInTime(c, m) {
      assert f[5] == (true, "not-in-time-window", m.engineId == c.local.engineId && m.reportable);
    } else if pdu.None? {
      assert f[6] == (true, "decryption-error", false);
    } else {
      assert |f| == 9;
      if pdu.value.tag != 0xa6 && pdu.value.tag != 0xa7 { assert f[7].0; } else if (pdu.value.tag == 0xa6) != (m.engineId == c.local.engineId) { assert f[8].0; }
    }
  }

  lemma EveryMessageJudged(o: Outside, c: Receiver, b: Octets)
    ensures ReceivedSo(o, c, b, OnReceive(o, c, b))
  {
    hide Findings, FoundWrong, Opened, SentInTime, InOwnWindow, InCachedWindow, ParseMessage, Identify;
    SenderFinds(o, c, b);
    var v := Identify(o, b);
    if v.Good? {
      ContentFinds(o, c, b, v.m, v.user);
      TimeIs(c, v.m);
    }
  }

  // ---- every run

  datatype Event = Receive(b: Octets) | Advance(seconds: nat)

  /** A message taken from an engine other than the gateway's. */
  datatype Taken = Taken(engine: Octets, boots: int, time: int)

  datatype State = State(c: Receiver, taken: seq<Taken>)

  function Next(o: Outside, s: State, ev: Event): State {
    match ev
    case Advance(seconds) => State(Elapsed(s.c, seconds), s.taken)
    case Receive(b) =>
      var r := OnReceive(o, s.c, b);
      var m := ParseMessage(b);
      State(r.c, if r.out.Accepted? && m.Some? && m.value.engineId != s.c.local.engineId
                 then s.taken + [Taken(m.value.engineId, m.value.boots, m.value.time)] else s.taken)
  }

  function Run(o: Outside, c: Receiver, evs: seq<Event>): State {
    if evs == [] then State(c, []) else Next(o, Run(o, c, evs[..|evs| - 1]), evs[|evs| - 1])
  }

  /** The cache is at or past the message. */
  predicate Covers(c: Receiver, t: Taken) {
    && t.engine in c.engines
    && (t.boots < c.engines[t.engine].boots || (t.boots == c.engines[t.engine].boots && t.time <= c.engines[t.engine].latest))
  }

  /** The later one is of the same start of its engine and at most the window behind, or of a later start. */
  predicate Follows(a: Taken, b: Taken) {
    a.engine == b.engine ==> a.boots < b.boots || (a.boots == b.boots && a.time - WINDOW <= b.time)
  }

  predicate EnginesOk(c: Receiver) {
    forall e :: e in c.engines ==> c.engines[e].time == c.engines[e].latest && c.engines[e].at <= c.now
  }

  ghost predicate StateOk(s: State) {
    && EnginesOk(s.c)
    && (forall i :: 0 <= i < |s.taken| ==> Covers(s.c, s.taken[i]) && s.taken[i].boots != MAX31)
    && (forall i, j :: 0 <= i < j < |s.taken| ==> Follows(s.taken[i], s.taken[j]))
  }

  lemma NotedCovers(c: Receiver, m: Message, t: Taken)
    requires EnginesOk(c)
    ensures EnginesOk(Noted(c, m))
    ensures Covers(c, t) ==> Covers(Noted(c, m), t)
  {
  }

  lemma NextOk(o: Outside, s: State, ev: Event)
    requires StateOk(s)
    ensures StateOk(Next(o, s, ev))
  {
    hide Identify, Judge, ParseMessage;
    match ev
    case Advance(_) =>
    case Receive(b) =>
      var v := Identify(o, b);
      if v.Good? && v.m.engineId != s.c.local.engineId {
        var d := Noted(s.c, v.m);
        NotedCovers(s.c, v.m, Taken([], 0, 0));
        forall i | 0 <= i < |s.taken| ensures Covers(d, s.taken[i]) { NotedCovers(s.c, v.m, s.taken[i]); }
        if InCachedWindow(d, v.m) { TakenFollows(s, d, v.m); }
      }
  }

  /** A message in the window follows everything taken before it, and the cache covers it. */
  lemma TakenFollows(s: State, d: Receiver, m: Message)
    requires StateOk(s) && d == Noted(s.c, m) && InCachedWindow(d, m) && EnginesOk(d)
    requires forall i :: 0 <= i < |s.taken| ==> Covers(d, s.taken[i])
    ensures var t := Taken(m.engineId, m.boots, m.time);
      Covers(d, t) && t.boots != MAX31 && forall i :: 0 <= i < |s.taken| ==> Follows(s.taken[i], t)
  {
    var e := d.engines[m.engineId];
    assert e.boots <= m.boots && (m.boots == e.boots ==> e.latest - WINDOW <= m.time);
    assert m.boots == e.boots;
  }

  /**
   * In every run, of two messages accepted from one engine the later is never of an earlier start of that engine, nor
   * more than the window behind the earlier: a recorded message comes too late once a newer one has been accepted.
   */
  lemma {:induction false} AcceptedInOrder(o: Outside, c: Receiver, evs: seq<Event>)
    requires c.engines == map[]
    ensures var s := Run(o, c, evs);
      && (forall i, j :: 0 <= i < j < |s.taken| ==> Follows(s.taken[i], s.taken[j]))
      && (forall i :: 0 <= i < |s.taken| ==> s.taken[i].boots != MAX31)
      && StateOk(s)
  {
    if evs != [] {
      AcceptedInOrder(o, c, evs[..|evs| - 1]);
      NextOk(o, Run(o, c, evs[..|evs| - 1]), evs[|evs| - 1]);
    }
  }
}
