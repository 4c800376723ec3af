/**
 * The signed-syslog collector of `syslog-sign.ts`: messages held for their signature, signed hashes waiting for
 * their message, the sessions a signer's Certificate Blocks establish, and the gaps reported.
 */
module SignedSyslog {
  import opened Prelude
  import opened Bytes
  import Orders

  datatype Algorithm = Sha1 | Sha256

  type Octets = seq<byte>

  datatype SessionKey = SessionKey(host: string, app: Option<string>, procid: Option<string>, rsid: nat)

  datatype GroupId = GroupId(sg: nat, spri: nat)

  datatype GroupKey = GroupKey(session: SessionKey, id: GroupId)

  datatype Signed = Signed(group: GroupKey, number: nat, key: string)

  datatype Signer = Signer(host: string, key: string, gaps: bool)

  datatype Held = Held(msg: Octets, due: int)

  datatype Waiting = Waiting(group: GroupKey, number: nat, alg: Algorithm, digest: Octets, due: int, gaps: bool, key: string)

  datatype Group = Group(auth: set<nat>, covered: nat)

  datatype Fragment = Fragment(index: nat, octets: Octets)

  datatype Session = Session(payload: Option<Octets>, groups: map<GroupId, Group>, tpbl: Option<nat>, frags: seq<Fragment>)

  datatype Collector = Collector(
    now: int, holdS: int, held: seq<Held>, waiting: seq<Waiting>,
    sessions: map<SessionKey, Session>, highest: map<(string, Option<string>), nat>)

  /** A block that read as one, with the version's algorithm, its signer if configured, and whether its signature verified. */
  datatype Header = Header(session: SessionKey, alg: Option<Algorithm>, signer: Option<Signer>, verified: bool)

  datatype Block =
    | Malformed
    | Certificate(h: Header, tpbl: nat, frag: Fragment)
    | Signature(h: Header, id: GroupId, fmn: nat, digests: seq<Octets>)

  /** What a received message is: of no configured signer, of a configured one, or a block. */
  datatype Arrival = Foreign(msg: Octets) | Ours(msg: Octets) | ABlock(b: Block)

  datatype Emission =
    | Deposit(msg: Octets, signed: Option<Signed>)
    | Gap(group: GroupKey, first: nat, last: nat)
    | Established(session: SessionKey, key: string)
    | Refused(reason: string)

  datatype Result = Result(c: Collector, emit: seq<Emission>)

  /** The digests of a version, and what a complete payload is refused for, if anything. */
  datatype Outside = Outside(digest: (Algorithm, Octets) -> Octets, payloadFault: (Signer, Octets) -> Option<string>)

  datatype Event = Receive(a: Arrival) | Advance(seconds: nat, lost: seq<(GroupKey, nat)>)

  // ---- matching

  predicate Matches(o: Outside, w: Waiting, msg: Octets) {
    o.digest(w.alg, msg) == w.digest
  }

  /** The earliest waiting entry a message matches. */
  function FindWaiting(o: Outside, ws: seq<Waiting>, msg: Octets): (i: Option<nat>)
    ensures i.Some? ==> i.value < |ws| && Matches(o, ws[i.value], msg) && forall j :: 0 <= j < i.value ==> !Matches(o, ws[j], msg)
    ensures i.None? ==> forall j :: 0 <= j < |ws| ==> !Matches(o, ws[j], msg)
  {
    if ws == [] then None
    else
      var i := FindWaiting(o, ws[..|ws| - 1], msg);
      if i.Some? then i else if Matches(o, ws[|ws| - 1], msg) then Some(|ws| - 1) else None
  }

  /** The earliest held message with a digest. */
  function FindHeld(o: Outside, hs: seq<Held>, alg: Algorithm, digest: Octets): (i: Option<nat>)
    ensures i.Some? ==> i.value < |hs| && o.digest(alg, hs[i.value].msg) == digest
                        && forall j :: 0 <= j < i.value ==> o.digest(alg, hs[j].msg) != digest
    ensures i.None? ==> forall j :: 0 <= j < |hs| ==> o.digest(alg, hs[j].msg) != digest
  {
    if hs == [] then None
    else
      var i := FindHeld(o, hs[..|hs| - 1], alg, digest);
      if i.Some? then i else if o.digest(alg, hs[|hs| - 1].msg) == digest then Some(|hs| - 1) else None
  }

  function Cut<T>(s: seq<T>, i: nat): seq<T>
    requires i < |s|
  {
    s[..i] + s[i + 1..]
  }

  /** A number of a group becomes authenticated. */
  function Authenticated(c: Collector, g: GroupKey, number: nat): Collector {
    if g.session in c.sessions && g.id in c.sessions[g.session].groups then
      var s := c.sessions[g.session];
      var q := s.groups[g.id];
      c.(sessions := c.sessions[g.session := s.(groups := s.groups[g.id := q.(auth := q.auth + {number})])])
    else c
  }

  function OnOurs(o: Outside, c: Collector, msg: Octets): Result {
    var i := FindWaiting(o, c.waiting, msg);
    if i.Some? then
      var w := c.waiting[i.value];
      Result(Authenticated(c.(waiting := Cut(c.waiting, i.value)), w.group, w.number), [Deposit(msg, Some(Signed(w.group, w.number, w.key)))])
    else Result(c.(held := c.held + [Held(msg, c.now + c.holdS)]), [])
  }

  predicate IsAuthenticated(c: Collector, g: GroupKey, number: nat) {
    g.session in c.sessions && g.id in c.sessions[g.session].groups && number in c.sessions[g.session].groups[g.id].auth
  }

  predicate AlreadyWaits(ws: seq<Waiting>, g: GroupKey, number: nat) {
    exists i :: 0 <= i < |ws| && ws[i].group == g && ws[i].number == number
  }

  /** One hash of a Signature Block: skipped, deposited with the earliest held message it signs, or left to wait. */
  function SignOne(o: Outside, c: Collector, signer: Signer, alg: Algorithm, g: GroupKey, number: nat, digest: Octets): Result {
    if IsAuthenticated(c, g, number) then Result(c, [])
    else
      var k := FindHeld(o, c.held, alg, digest);
      if k.Some? then
        Result(Authenticated(c.(held := Cut(c.held, k.value)), g, number),
               [Deposit(c.held[k.value].msg, Some(Signed(g, number, signer.key)))])
      else if AlreadyWaits(c.waiting, g, number) then Result(c, [])
      else Result(c.(waiting := c.waiting + [Waiting(g, number, alg, digest, c.now + c.holdS, signer.gaps, signer.key)]), [])
  }

  function SignEach(o: Outside, c: Collector, signer: Signer, alg: Algorithm, g: GroupKey, fmn: nat, digests: seq<Octets>): Result {
    if digests == [] then Result(c, [])
    else
      var n := |digests| - 1;
      var r := SignEach(o, c, signer, alg, g, fmn, digests[..n]);
      var s := SignOne(o, r.c, signer, alg, g, fmn + n, digests[n]);
      Result(s.c, r.emit + s.emit)
  }

  function MaxOf(a: nat, b: nat): nat { if a < b then b else a }

  function OnSignature(o: Outside, c: Collector, signer: Signer, alg: Algorithm, key: SessionKey, id: GroupId, fmn: nat, digests: seq<Octets>): Result
    requires digests != []
  {
    if key !in c.sessions || c.sessions[key].payload.None? then Result(c, [Refused("no-session")])
    else
      var s := c.sessions[key];
      var q := if id in s.groups then s.groups[id] else Group({}, 0);
      var b := c.(sessions := c.sessions[key := s.(groups := s.groups[id := q.(covered := MaxOf(q.covered, fmn + |digests| - 1))])]);
      var gap := if signer.gaps && q.covered > 0 && fmn > q.covered + 1 then [Gap(GroupKey(key, id), q.covered + 1, fmn - 1)] else [];
      var r := SignEach(o, b, signer, alg, GroupKey(key, id), fmn, digests);
      Result(r.c, gap + r.emit)
  }

  // ---- certificates

  function NewSession(): Session { Session(None, map[], None, []) }

  predicate Repeats(payload: Octets, tpbl: nat, f: Fragment) {
    && tpbl == |payload| && 1 <= f.index && f.index - 1 + |f.octets| <= |payload|
    && payload[f.index - 1..f.index - 1 + |f.octets|] == f.octets
  }

  predicate Has(f: Fragment, position: nat) {
    f.index <= position < f.index + |f.octets|
  }

  /** Two fragments that place different octets at one position. */
  predicate Conflict(f: Fragment, g: Fragment) {
    exists k :: f.index <= k < f.index + |f.octets| && Has(g, k) && f.octets[k - f.index] != g.octets[k - g.index]
  }

  predicate Covers(frags: seq<Fragment>, position: nat) {
    exists i :: 0 <= i < |frags| && Has(frags[i], position)
  }

  predicate Complete(frags: seq<Fragment>, tpbl: nat) {
    forall position :: 1 <= position <= tpbl ==> Covers(frags, position)
  }

  predicate Placed(f: Fragment, tpbl: nat) {
    1 <= f.index && f.index - 1 + |f.octets| <= tpbl
  }

  predicate AllPlaced(frags: seq<Fragment>, tpbl: nat) {
    forall i :: 0 <= i < |frags| ==> Placed(frags[i], tpbl)
  }

  /** The fragments copied in order into a buffer of `tpbl` octets. */
  function Assembled(frags: seq<Fragment>, tpbl: nat): (r: Octets)
    requires AllPlaced(frags, tpbl)
    ensures |r| == tpbl
  {
    if frags == [] then seq(tpbl, _ => 0)
    else
      assert Placed(frags[|frags| - 1], tpbl);
      var r := Assembled(frags[..|frags| - 1], tpbl);
      var f := frags[|frags| - 1];
      r[..f.index - 1] + f.octets + r[f.index - 1 + |f.octets|..]
  }

  function Ended(c: Collector, key: SessionKey): Collector {
    c.(sessions := c.sessions[key := NewSession()], waiting := NotOf(c.waiting, key))
  }

  function NotOf(ws: seq<Waiting>, key: SessionKey): seq<Waiting> {
    if ws == [] then []
    else NotOf(ws[..|ws| - 1], key) + if ws[|ws| - 1].group.session == key then [] else [ws[|ws| - 1]]
  }

  /** A complete payload establishes its session, or is refused and its fragments dropped. */
  function Establish(o: Outside, c: Collector, signer: Signer, key: SessionKey, s: Session, payload: Octets): Result {
    var done := s.(tpbl := None, frags := []);
    var fault := o.payloadFault(signer, payload);
    if fault.Some? then Result(c.(sessions := c.sessions[key := done]), [Refused(fault.value)])
    else
      var top := (key.host, key.app);
      Result(c.(sessions := c.sessions[key := done.(payload := Some(payload), groups := map[])],
                highest := c.highest[top := MaxOf(if top in c.highest then c.highest[top] else 0, key.rsid)]),
             [Established(key, signer.key)])
  }

  /** A fragment joins those of its session; the last one missing completes the payload. */
  function AddFragment(o: Outside, c: Collector, signer: Signer, key: SessionKey, tpbl: nat, f: Fragment): Result
    requires key in c.sessions
  {
    var s := c.sessions[key];
    if s.tpbl.Some? && s.tpbl.value != tpbl then Result(c, [Refused("fragment-mismatch")])
    else if exists i :: 0 <= i < |s.frags| && Conflict(s.frags[i], f) then Result(c, [Refused("fragment-mismatch")])
    else
      var frags := s.frags + [f];
      if !AllPlaced(frags, tpbl) || !Complete(frags, tpbl) then
        Result(c.(sessions := c.sessions[key := s.(tpbl := Some(tpbl), frags := frags)]), [])
      else Establish(o, c, signer, key, s, Assembled(frags, tpbl))
  }

  function OnCertificate(o: Outside, c: Collector, signer: Signer, key: SessionKey, tpbl: nat, f: Fragment): Result {
    var s := if key in c.sessions then c.sessions[key] else NewSession();
    var c0 := c.(sessions := c.sessions[key := s]);
    if s.payload.Some? && Repeats(s.payload.value, tpbl, f) then Result(c0, [])
    else AddFragment(o, if s.payload.Some? then Ended(c0, key) else c0, signer, key, tpbl, f)
  }

  /** The numeric checks of a block: a fragment lies within its payload, and a Signature Block lists hashes from number 1 on. */
  predicate ReadsAsBlock(b: Block) {
    match b
    case Malformed => false
    case Certificate(_, tpbl, frag) => Placed(frag, tpbl) && frag.octets != []
    case Signature(_, _, fmn, digests) => 1 <= fmn && 1 <= |digests| <= 99
  }

  function OnBlock(o: Outside, c: Collector, b: Block): Result {
    if !ReadsAsBlock(b) then Result(c, [Refused("malformed-block")])
    else
      var h := b.h;
      var top := (h.session.host, h.session.app);
      if h.alg.None? then Result(c, [Refused("unsupported-version")])
      else if h.signer.None? then Result(c, [Refused("unknown-signer")])
      else if !h.verified then Result(c, [Refused("bad-signature")])
      else if h.session.rsid > 0 && top in c.highest && h.session.rsid < c.highest[top] then Result(c, [Refused("old-session")])
      else if b.Certificate? then OnCertificate(o, c, h.signer.value, h.session, b.tpbl, b.frag)
      else OnSignature(o, c, h.signer.value, h.alg.value, h.session, b.id, b.fmn, b.digests)
  }

  function OnReceive(o: Outside, c: Collector, a: Arrival): Result {
    match a
    case Foreign(msg) => Result(c, [Deposit(msg, None)])
    case Ours(msg) => OnOurs(o, c, msg)
    case ABlock(b) => OnBlock(o, c, b)
  }

  // ---- the clock

  function DueHeld(hs: seq<Held>, now: int): seq<Emission> {
    if hs == [] then []
    else DueHeld(hs[..|hs| - 1], now) + if hs[|hs| - 1].due <= now then [Deposit(hs[|hs| - 1].msg, None)] else []
  }

  function KeptHeld(hs: seq<Held>, now: int): seq<Held> {
    if hs == [] then [] else KeptHeld(hs[..|hs| - 1], now) + if hs[|hs| - 1].due <= now then [] else [hs[|hs| - 1]]
  }

  function KeptWaiting(ws: seq<Waiting>, now: int): seq<Waiting> {
    if ws == [] then [] else KeptWaiting(ws[..|ws| - 1], now) + if now < ws[|ws| - 1].due then [ws[|ws| - 1]] else []
  }

  function Lost(ws: seq<Waiting>, now: int): set<(GroupKey, nat)> {
    set i | 0 <= i < |ws| && ws[i].due <= now && ws[i].gaps :: (ws[i].group, ws[i].number)
  }

  /** Consecutive lost numbers of one group, merged into ranges. */
  function Ranges(lost: seq<(GroupKey, nat)>): seq<Emission> {
    if lost == [] then []
    else
      var before := Ranges(lost[..|lost| - 1]);
      var (g, n) := lost[|lost| - 1];
      if before != [] && before[|before| - 1].Gap? && before[|before| - 1].group == g && n == before[|before| - 1].last + 1
      then before[..|before| - 1] + [before[|before| - 1].(last := n)]
      else before + [Gap(g, n, n)]
  }

  function ProcidText(k: SessionKey): string { match k.procid case Some(p) => p case None => "" }

  function AppText(k: SessionKey): string { match k.app case Some(p) => p case None => "" }

  /** By hostname, APP-NAME, PROCID, RSID, SG, SPRI and number. */
  predicate Earlier(a: (GroupKey, nat), b: (GroupKey, nat)) {
    var s, t := a.0.session, b.0.session;
    if s.host != t.host then Less(s.host, t.host)
    else if AppText(s) != AppText(t) then Less(AppText(s), AppText(t))
    else if ProcidText(s) != ProcidText(t) then Less(ProcidText(s), ProcidText(t))
    else if s.rsid != t.rsid then s.rsid < t.rsid
    else if a.0.id.sg != b.0.id.sg then a.0.id.sg < b.0.id.sg
    else if a.0.id.spri != b.0.id.spri then a.0.id.spri < b.0.id.spri
    else a.1 < b.1
  }

  /** Lost numbers in order: sorted, each once. */
  ghost predicate Listing(q: seq<(GroupKey, nat)>, lost: set<(GroupKey, nat)>) {
    && (forall x :: x in q <==> x in lost)
    && forall i, j :: 0 <= i < j < |q| ==> Earlier(q[i], q[j])
  }

  /** What an advance does, given the listing of what it lost. */
  function OnAdvance(c: Collector, seconds: nat, listing: seq<(GroupKey, nat)>): Result {
    var now := c.now + seconds;
    Result(c.(now := now, held := KeptHeld(c.held, now), waiting := KeptWaiting(c.waiting, now)), DueHeld(c.held, now) + Ranges(listing))
  }

  // ---- what every collector keeps

  /** No held message has a hash that is waited for. */
  ghost predicate Clean(o: Outside, hs: seq<Held>, ws: seq<Waiting>) {
    forall i, j :: 0 <= i < |hs| && 0 <= j < |ws| ==> !Matches(o, ws[j], hs[i].msg)
  }

  ghost predicate OneEach(ws: seq<Waiting>) {
    forall i, j :: 0 <= i < j < |ws| ==> ws[i].group != ws[j].group || ws[i].number != ws[j].number
  }

  predicate HasGroup(sessions: map<SessionKey, Session>, g: GroupKey) {
    g.session in sessions && sessions[g.session].payload.Some? && g.id in sessions[g.session].groups
  }

  /** A hash waits only in a group of an established session. */
  ghost predicate Rooted(sessions: map<SessionKey, Session>, ws: seq<Waiting>) {
    forall i :: 0 <= i < |ws| ==> HasGroup(sessions, ws[i].group)
  }

  ghost predicate CollectorOk(o: Outside, c: Collector) {
    Clean(o, c.held, c.waiting) && OneEach(c.waiting) && Rooted(c.sessions, c.waiting)
  }

  function Messages(hs: seq<Held>): multiset<Octets> {
    if hs == [] then multiset{} else Messages(hs[..|hs| - 1]) + multiset{hs[|hs| - 1].msg}
  }

  function Deposited(emit: seq<Emission>): multiset<Octets> {
    if emit == [] then multiset{}
    else Deposited(emit[..|emit| - 1]) + match emit[|emit| - 1] case Deposit(m, _) => multiset{m} case _ => multiset{}
  }

  function Brought(a: Arrival): multiset<Octets> {
    match a case Foreign(m) => multiset{m} case Ours(m) => multiset{m} case ABlock(_) => multiset{}
  }

  lemma {:induction false} DepositedAppend(a: seq<Emission>, b: seq<Emission>)
    ensures Deposited(a + b) == Deposited(a) + Deposited(b)
  {
    if b == [] {
      assert a + b == a;
    } else {
      assert (a + b)[..|a + b| - 1] == a + b[..|b| - 1];
      DepositedAppend(a, b[..|b| - 1]);
    }
  }

  lemma DepositedOne(e: Emission)
    ensures Deposited([e]) == match e case Deposit(m, _) => multiset{m} case _ => multiset{}
    ensures Deposited([]) == multiset{}
  {
    assert [e][..0] == [];
  }

  lemma {:induction false} MessagesAppend(a: seq<Held>, b: seq<Held>)
    ensures Messages(a + b) == Messages(a) + Messages(b)
  {
    if b == [] {
      assert a + b == a;
    } else {
      assert (a + b)[..|a + b| - 1] == a + b[..|b| - 1];
      MessagesAppend(a, b[..|b| - 1]);
    }
  }

  lemma MessagesOne(h: Held)
    ensures Messages([h]) == multiset{h.msg} && Messages([]) == multiset{}
  {
    assert [h][..0] == [];
  }

  lemma MessagesCut(hs: seq<Held>, i: nat)
    requires i < |hs|
    ensures Messages(hs) == Messages(Cut(hs, i)) + multiset{hs[i].msg}
  {
    hide Messages;
    assert hs == hs[..i] + ([hs[i]] + hs[i + 1..]);
    MessagesAppend(hs[..i], [hs[i]] + hs[i + 1..]);
    MessagesAppend([hs[i]], hs[i + 1..]);
    MessagesAppend(hs[..i], hs[i + 1..]);
    MessagesOne(hs[i]);
  }

  /** Taking entries out keeps what holds of every pair. */
  lemma CutKeeps(o: Outside, hs: seq<Held>, ws: seq<Waiting>, i: nat, j: nat)
    requires Clean(o, hs, ws) && OneEach(ws)
    ensures i < |hs| ==> Clean(o, Cut(hs, i), ws)
    ensures j < |ws| ==> Clean(o, hs, Cut(ws, j)) && OneEach(Cut(ws, j))
  {
  }

  lemma AuthenticatedKeeps(c: Collector, g: GroupKey, number: nat)
    ensures var d := Authenticated(c, g, number);
            && d.held == c.held && d.waiting == c.waiting && d.now == c.now && d.holdS == c.holdS
            && (Rooted(c.sessions, c.waiting) ==> Rooted(d.sessions, d.waiting))
            && (forall x :: HasGroup(c.sessions, x) ==> HasGroup(d.sessions, x))
            && (HasGroup(c.sessions, g) ==> IsAuthenticated(d, g, number))
  {
  }

  /** What one step keeps and conserves. */
  ghost predicate Conserves(o: Outside, c: Collector, brought: multiset<Octets>, r: Result) {
    CollectorOk(o, r.c) && brought + Messages(c.held) == Messages(r.c.held) + Deposited(r.emit)
  }

  lemma OursKeeps(o: Outside, c: Collector, msg: Octets)
    requires CollectorOk(o, c)
    ensures Conserves(o, c, multiset{msg}, OnOurs(o, c, msg))
  {
    hide Authenticated, Deposited, Messages;
    var i := FindWaiting(o, c.waiting, msg);
    if i.Some? {
      var w := c.waiting[i.value];
      var d := c.(waiting := Cut(c.waiting, i.value));
      CutKeeps(o, c.held, c.waiting, 0, i.value);
      assert Rooted(d.sessions, d.waiting);
      AuthenticatedKeeps(d, w.group, w.number);
      DepositedOne(Deposit(msg, Some(Signed(w.group, w.number, w.key))));
    } else {
      var h := Held(msg, c.now + c.holdS);
      MessagesAppend(c.held, [h]);
      MessagesOne(h);
      DepositedOne(Gap(GroupKey(SessionKey("", None, None, 0), GroupId(0, 0)), 0, 0));
      HeldClean(o, c.held, c.waiting, h);
    }
  }

  lemma HeldClean(o: Outside, hs: seq<Held>, ws: seq<Waiting>, h: Held)
    requires Clean(o, hs, ws) && forall j :: 0 <= j < |ws| ==> !Matches(o, ws[j], h.msg)
    ensures Clean(o, hs + [h], ws)
  {
  }

  lemma WaitingClean(o: Outside, hs: seq<Held>, ws: seq<Waiting>, w: Waiting)
    requires Clean(o, hs, ws) && OneEach(ws) && !AlreadyWaits(ws, w.group, w.number)
    requires forall j :: 0 <= j < |hs| ==> o.digest(w.alg, hs[j].msg) != w.digest
    ensures Clean(o, hs, ws + [w]) && OneEach(ws + [w])
  {
  }

  lemma SignOneKeeps(o: Outside, c: Collector, signer: Signer, alg: Algorithm, g: GroupKey, number: nat, digest: Octets)
    requires CollectorOk(o, c) && HasGroup(c.sessions, g)
    ensures var r := SignOne(o, c, signer, alg, g, number, digest); Conserves(o, c, multiset{}, r) && HasGroup(r.c.sessions, g)
  {
    hide Authenticated, Deposited, Messages;
    NothingDeposited();
    var k := FindHeld(o, c.held, alg, digest);
    if IsAuthenticated(c, g, number) {
    } else if k.Some? {
      var d := c.(held := Cut(c.held, k.value));
      CutKeeps(o, c.held, c.waiting, k.value, 0);
      AuthenticatedKeeps(d, g, number);
      MessagesCut(c.held, k.value);
      DepositedOne(Deposit(c.held[k.value].msg, Some(Signed(g, number, signer.key))));
    } else if !AlreadyWaits(c.waiting, g, number) {
      WaitingClean(o, c.held, c.waiting, Waiting(g, number, alg, digest, c.now + c.holdS, signer.gaps, signer.key));
    }
  }

  lemma NothingDeposited()
    ensures Deposited([]) == multiset{}
  {
  }

  lemma {:induction false} SignEachKeeps(o: Outside, c: Collector, signer: Signer, alg: Algorithm, g: GroupKey, fmn: nat, digests: seq<Octets>)
    requires CollectorOk(o, c) && HasGroup(c.sessions, g)
    ensures var r := SignEach(o, c, signer, alg, g, fmn, digests); Conserves(o, c, multiset{}, r) && HasGroup(r.c.sessions, g)
  {
    hide CollectorOk, SignOne, Deposited, Messages;
    if digests == [] {
      NothingDeposited();
    } else {
      var n := |digests| - 1;
      SignEachKeeps(o, c, signer, alg, g, fmn, digests[..n]);
      var r := SignEach(o, c, signer, alg, g, fmn, digests[..n]);
      SignOneKeeps(o, r.c, signer, alg, g, fmn + n, digests[n]);
      var t := SignOne(o, r.c, signer, alg, g, fmn + n, digests[n]);
      DepositedAppend(r.emit, t.emit);
      Balance(Messages(c.held), Messages(r.c.held), Messages(t.c.held), Deposited(r.emit), Deposited(t.emit));
    }
  }

  lemma Balance(before: multiset<Octets>, between: multiset<Octets>, after: multiset<Octets>, first: multiset<Octets>, second: multiset<Octets>)
    requires multiset{} + before == between + first && multiset{} + between == after + second
    ensures multiset{} + before == after + (first + second)
  {
    assert before == multiset{} + before && between == multiset{} + between;
    assert (after + second) + first == after + (first + second);
  }

  lemma SignatureKeeps(o: Outside, c: Collector, signer: Signer, alg: Algorithm, key: SessionKey, id: GroupId, fmn: nat, digests: seq<Octets>)
    requires CollectorOk(o, c) && digests != []
    ensures Conserves(o, c, multiset{}, OnSignature(o, c, signer, alg, key, id, fmn, digests))
  {
    hide SignEach, Deposited, Messages, Clean, OneEach;
    NothingDeposited();
    if key !in c.sessions || c.sessions[key].payload.None? {
      DepositedOne(Refused("no-session"));
    } else {
      var s := c.sessions[key];
      var q := if id in s.groups then s.groups[id] else Group({}, 0);
      var b := c.(sessions := c.sessions[key := s.(groups := s.groups[id := q.(covered := MaxOf(q.covered, fmn + |digests| - 1))])]);
      assert Rooted(b.sessions, b.waiting);
      SignEachKeeps(o, b, signer, alg, GroupKey(key, id), fmn, digests);
      var r := SignEach(o, b, signer, alg, GroupKey(key, id), fmn, digests);
      var gap := if signer.gaps && q.covered > 0 && fmn > q.covered + 1 then [Gap(GroupKey(key, id), q.covered + 1, fmn - 1)] else [];
      DepositedAppend(gap, r.emit);
      if gap != [] { DepositedOne(gap[0]); }
    }
  }

  lemma {:induction false} NotOfKeeps(o: Outside, hs: seq<Held>, ws: seq<Waiting>, key: SessionKey)
    requires Clean(o, hs, ws) && OneEach(ws)
    ensures var v := NotOf(ws, key);
            && Clean(o, hs, v) && OneEach(v)
            && (forall i :: 0 <= i < |v| ==> v[i] in ws && v[i].group.session != key)
  {
    if ws != [] {
      var front, last := ws[..|ws| - 1], ws[|ws| - 1];
      assert Clean(o, hs, front) && OneEach(front);
      NotOfKeeps(o, hs, front, key);
      var v := NotOf(front, key);
      if last.group.session != key {
        assert !AlreadyWaits(v, last.group, last.number) by {
          forall i | 0 <= i < |v| ensures v[i].group != last.group || v[i].number != last.number {
            var j :| 0 <= j < |front| && front[j] == v[i];
            assert ws[j] == front[j];
          }
        }
        assert forall j :: 0 <= j < |hs| ==> !Matches(o, last, hs[j].msg);
        WaitingClean(o, hs, v, last);
      }
    }
  }

  lemma EndedKeeps(o: Outside, c: Collector, key: SessionKey)
    requires CollectorOk(o, c)
    ensures CollectorOk(o, Ended(c, key)) && forall i :: 0 <= i < |Ended(c, key).waiting| ==> Ended(c, key).waiting[i].group.session != key
  {
    NotOfKeeps(o, c.held, c.waiting, key);
    var v := NotOf(c.waiting, key);
    forall i | 0 <= i < |v| ensures HasGroup(Ended(c, key).sessions, v[i].group) {
      var j :| 0 <= j < |c.waiting| && c.waiting[j] == v[i];
      assert HasGroup(c.sessions, c.waiting[j].group);
    }
  }

  /** A session nothing waits in may change freely. */
  lemma SessionChanges(o: Outside, c: Collector, key: SessionKey, s: Session)
    requires CollectorOk(o, c) && forall i :: 0 <= i < |c.waiting| ==> c.waiting[i].group.session != key
    ensures CollectorOk(o, c.(sessions := c.sessions[key := s]))
  {
    hide Clean, OneEach;
    forall i | 0 <= i < |c.waiting| ensures HasGroup(c.sessions[key := s], c.waiting[i].group) {
      assert HasGroup(c.sessions, c.waiting[i].group);
    }
  }

  /** Nothing waits in a session that is not established. */
  lemma NoneWaits(o: Outside, c: Collector, key: SessionKey)
    requires CollectorOk(o, c) && (key !in c.sessions || c.sessions[key].payload.None?)
    ensures forall i :: 0 <= i < |c.waiting| ==> c.waiting[i].group.session != key
  {
    forall i | 0 <= i < |c.waiting| ensures c.waiting[i].group.session != key { assert HasGroup(c.sessions, c.waiting[i].group); }
  }

  lemma NoDeposit(c: Collector, r: Result)
    requires r.c.held == c.held && (r.emit == [] || (|r.emit| == 1 && !r.emit[0].Deposit?))
    ensures multiset{} + Messages(c.held) == Messages(r.c.held) + Deposited(r.emit)
  {
    NothingDeposited();
    if r.emit != [] {
      DepositedOne(r.emit[0]);
      assert r.emit == [r.emit[0]];
    }
    assert multiset{} + Messages(c.held) == Messages(c.held) + multiset{};
  }

  lemma CertificateKeeps(o: Outside, c: Collector, signer: Signer, key: SessionKey, tpbl: nat, f: Fragment)
    requires CollectorOk(o, c)
    ensures Conserves(o, c, multiset{}, OnCertificate(o, c, signer, key, tpbl, f))
  {
    hide CollectorOk, Repeats, Conflict, Complete, Assembled, NotOf, Messages, Deposited, Placed;
    var s0 := if key in c.sessions then c.sessions[key] else NewSession();
    var c0 := c.(sessions := c.sessions[key := s0]);
    if key in c.sessions { assert c0 == c; } else { NoneWaits(o, c, key); SessionChanges(o, c, key, s0); }
    var r := OnCertificate(o, c, signer, key, tpbl, f);
    if s0.payload.Some? && Repeats(s0.payload.value, tpbl, f) {
      NoDeposit(c, r);
    } else {
      var b := if s0.payload.Some? then Ended(c0, key) else c0;
      if s0.payload.Some? { EndedKeeps(o, c0, key); } else { NoneWaits(o, c0, key); }
      SessionChanges(o, b, key, r.c.sessions[key]);
      assert b.sessions[key := b.sessions[key]] == b.sessions;
      CertificateAside(o, c, signer, key, tpbl, f);
      HighestAside(o, b.(sessions := b.sessions[key := r.c.sessions[key]]), r.c);
      NoDeposit(c, r);
    }
  }

  lemma HighestAside(o: Outside, c: Collector, d: Collector)
    requires CollectorOk(o, c) && d == c.(highest := d.highest)
    ensures CollectorOk(o, d)
  {
  }

  /** Past a repeated fragment, a certificate touches its own session and the highest RSIDs, and deposits nothing. */
  lemma CertificateAside(o: Outside, c: Collector, signer: Signer, key: SessionKey, tpbl: nat, f: Fragment)
    ensures var s0 := if key in c.sessions then c.sessions[key] else NewSession();
            var c0 := c.(sessions := c.sessions[key := s0]);
            var b := if s0.payload.Some? then Ended(c0, key) else c0;
            var r := OnCertificate(o, c, signer, key, tpbl, f);
            && key in r.c.sessions && (r.emit == [] || (|r.emit| == 1 && !r.emit[0].Deposit?)) && r.c.held == c.held
            && (!(s0.payload.Some? && Repeats(s0.payload.value, tpbl, f)) ==>
                  r.c == b.(sessions := b.sessions[key := r.c.sessions[key]], highest := r.c.highest))
  {
    hide Repeats, Conflict, Complete, Assembled, NotOf, Placed;
    var s0 := if key in c.sessions then c.sessions[key] else NewSession();
    var c0 := c.(sessions := c.sessions[key := s0]);
    var b := if s0.payload.Some? then Ended(c0, key) else c0;
    var s := b.sessions[key];
    assert b.sessions[key := s] == b.sessions;
    if s0.payload.Some? && Repeats(s0.payload.value, tpbl, f) {
    } else if s.tpbl.Some? && s.tpbl.value != tpbl {
    } else if exists i :: 0 <= i < |s.frags| && Conflict(s.frags[i], f) {
    } else if !AllPlaced(s.frags + [f], tpbl) || !Complete(s.frags + [f], tpbl) {
    } else {
      if o.payloadFault(signer, Assembled(s.frags + [f], tpbl)).Some? {
      } else {
      }
    }
  }

  lemma BlockKeeps(o: Outside, c: Collector, b: Block)
    requires CollectorOk(o, c)
    ensures Conserves(o, c, multiset{}, OnBlock(o, c, b))
  {
    hide CollectorOk, OnCertificate, OnSignature, Messages, Deposited, Placed;
    var r := OnBlock(o, c, b);
    if ReadsAsBlock(b) && b.h.signer.Some? && b.h.alg.Some? {
      if b.Certificate? { CertificateKeeps(o, c, b.h.signer.value, b.h.session, b.tpbl, b.frag); }
      else { SignatureKeeps(o, c, b.h.signer.value, b.h.alg.value, b.h.session, b.id, b.fmn, b.digests); }
    }
    if r.c == c && |r.emit| == 1 && r.emit[0].Refused? { NoDeposit(c, r); }
  }

  // ---- the clock keeps

  lemma {:induction false} KeptHeldIn(hs: seq<Held>, now: int)
    ensures forall h :: h in KeptHeld(hs, now) ==> h in hs
  {
    if hs != [] { KeptHeldIn(hs[..|hs| - 1], now); }
  }

  /** What falls due is deposited and the rest stays. */
  lemma {:induction false} KeptHeldBalance(hs: seq<Held>, now: int)
    ensures Messages(hs) == Messages(KeptHeld(hs, now)) + Deposited(DueHeld(hs, now))
  {
    hide Messages, Deposited;
    if hs == [] {
      NothingDeposited();
      MessagesOne(Held([], 0));
    } else {
      var front, last := hs[..|hs| - 1], hs[|hs| - 1];
      KeptHeldBalance(front, now);
      assert hs == front + [last];
      MessagesAppend(front, [last]);
      MessagesOne(last);
      if last.due <= now {
        var e := Deposit(last.msg, None);
        DepositedAppend(DueHeld(front, now), [e]);
        DepositedOne(e);
        assert KeptHeld(hs, now) == KeptHeld(front, now);
      } else {
        MessagesAppend(KeptHeld(front, now), [last]);
        assert DueHeld(hs, now) == DueHeld(front, now);
      }
    }
  }

  lemma {:induction false} KeptWaitingIn(ws: seq<Waiting>, now: int)
    ensures forall w :: w in KeptWaiting(ws, now) ==> w in ws && now < w.due
  {
    if ws != [] { KeptWaitingIn(ws[..|ws| - 1], now); }
  }

  lemma {:induction false} KeptWaitingOnce(ws: seq<Waiting>, now: int)
    requires OneEach(ws)
    ensures OneEach(KeptWaiting(ws, now))
  {
    if ws != [] {
      var front, last := ws[..|ws| - 1], ws[|ws| - 1];
      assert forall i :: 0 <= i < |front| ==> ws[i] == front[i] && (front[i].group != last.group || front[i].number != last.number);
      KeptWaitingOnce(front, now);
      KeptWaitingIn(front, now);
      var v := KeptWaiting(front, now);
      forall i | 0 <= i < |v| ensures v[i].group != last.group || v[i].number != last.number {
        assert v[i] in v;
      }
      assert v + [] == v;
    }
  }

  lemma SubsetClean(o: Outside, hs: seq<Held>, ws: seq<Waiting>, gs: seq<Held>, vs: seq<Waiting>)
    requires Clean(o, hs, ws) && (forall h :: h in gs ==> h in hs) && (forall w :: w in vs ==> w in ws)
    ensures Clean(o, gs, vs)
  {
    hide Matches;
    forall i, j | 0 <= i < |gs| && 0 <= j < |vs| ensures !Matches(o, vs[j], gs[i].msg) {
      assert gs[i] in gs && vs[j] in vs;
      assert gs[i] in hs && vs[j] in ws;
    }
  }

  lemma SubsetRooted(sessions: map<SessionKey, Session>, ws: seq<Waiting>, vs: seq<Waiting>)
    requires Rooted(sessions, ws) && forall w :: w in vs ==> w in ws
    ensures Rooted(sessions, vs)
  {
    hide HasGroup;
    forall j | 0 <= j < |vs| ensures HasGroup(sessions, vs[j].group) {
      assert vs[j] in vs && vs[j] in ws;
    }
  }

  lemma AdvanceKeeps(o: Outside, c: Collector, seconds: nat, listing: seq<(GroupKey, nat)>)
    requires CollectorOk(o, c)
    ensures Conserves(o, c, multiset{}, OnAdvance(c, seconds, listing))
  {
    hide Ranges, Clean, Rooted, OneEach, Messages, Deposited, KeptHeld, KeptWaiting, DueHeld;
    var now := c.now + seconds;
    KeptHeldIn(c.held, now);
    KeptHeldBalance(c.held, now);
    KeptWaitingIn(c.waiting, now);
    KeptWaitingOnce(c.waiting, now);
    SubsetClean(o, c.held, c.waiting, KeptHeld(c.held, now), KeptWaiting(c.waiting, now));
    SubsetRooted(c.sessions, c.waiting, KeptWaiting(c.waiting, now));
    RangesSay(listing);
    NoDeposits(Ranges(listing));
    DepositedAppend(DueHeld(c.held, now), Ranges(listing));
    assert multiset{} + Messages(c.held) == Messages(c.held);
    assert Deposited(DueHeld(c.held, now)) + multiset{} == Deposited(DueHeld(c.held, now));
  }

  lemma {:induction false} NoDeposits(emit: seq<Emission>)
    requires forall e :: e in emit ==> !e.Deposit?
    ensures Deposited(emit) == multiset{}
  {
    if emit != [] {
      assert emit[|emit| - 1] in emit;
      NoDeposits(emit[..|emit| - 1]);
    }
  }

  predicate InGap(e: Emission, g: GroupKey, n: int) {
    e.Gap? && e.group == g && e.first <= n <= e.last
  }

  /** The ranges reported hold exactly the numbers that were lost, whatever their order. */
  lemma {:induction false} RangesSay(lost: seq<(GroupKey, nat)>)
    ensures forall e :: e in Ranges(lost) ==> e.Gap? && e.first <= e.last
    ensures forall g: GroupKey, n: nat :: (exists e :: e in Ranges(lost) && InGap(e, g, n)) <==> (g, n) in lost
  {
    if lost != [] {
      var front, x := lost[..|lost| - 1], lost[|lost| - 1];
      RangesSay(front);
      RangesMore(front, x);
      assert lost == front + [x];
    }
  }

  lemma RangesMore(front: seq<(GroupKey, nat)>, x: (GroupKey, nat))
    requires forall e :: e in Ranges(front) ==> e.Gap? && e.first <= e.last
    requires forall g: GroupKey, n: nat :: (exists e :: e in Ranges(front) && InGap(e, g, n)) <==> (g, n) in front
    ensures forall e :: e in Ranges(front + [x]) ==> e.Gap? && e.first <= e.last
    ensures forall g: GroupKey, n: nat :: (exists e :: e in Ranges(front + [x]) && InGap(e, g, n)) <==> (g, n) in front + [x]
  {
    var before, after := Ranges(front), Ranges(front + [x]);
    assert (front + [x])[..|front|] == front;
    if before != [] && before[|before| - 1].group == x.0 && x.1 == before[|before| - 1].last + 1 {
      var keep, e := before[..|before| - 1], before[|before| - 1];
      assert before == keep + [e];
      assert after == keep + [e.(last := x.1)];
      forall g: GroupKey, n: nat ensures (exists a :: a in after && InGap(a, g, n)) <==> (exists b :: b in before && InGap(b, g, n)) || (g, n) == x {
        if a :| a in after && InGap(a, g, n) {
          assert a in keep || a == e.(last := x.1);
          if a !in keep && (g, n) != x { assert e in before && InGap(e, g, n); }
        }
        if b :| b in before && InGap(b, g, n) {
          assert b in keep || b == e;
          assert (b in keep && b in after) || InGap(e.(last := x.1), g, n);
          assert e.(last := x.1) in after;
        }
        assert e.(last := x.1) in after && InGap(e.(last := x.1), x.0, x.1);
      }
    } else {
      var e := Gap(x.0, x.1, x.1);
      assert after == before + [e];
      assert e in after && InGap(e, x.0, x.1);
      forall g: GroupKey, n: nat ensures (exists a :: a in after && InGap(a, g, n)) <==> (exists b :: b in before && InGap(b, g, n)) || (g, n) == x {
        if b :| b in before && InGap(b, g, n) { assert b in after; }
      }
    }
  }

  // ---- every run

  function Step(o: Outside, c: Collector, ev: Event): Result {
    match ev
    case Receive(a) => OnReceive(o, c, a)
    case Advance(seconds, lost) => OnAdvance(c, seconds, lost)
  }

  function BroughtBy(ev: Event): multiset<Octets> {
    match ev case Receive(a) => Brought(a) case Advance(_, _) => multiset{}
  }

  /** Each step keeps the collector matched and loses or repeats no message. */
  lemma StepKeeps(o: Outside, c: Collector, ev: Event)
    requires CollectorOk(o, c)
    ensures Conserves(o, c, BroughtBy(ev), Step(o, c, ev))
  {
    hide CollectorOk, OnOurs, OnBlock, OnAdvance, Messages;
    match ev
    case Receive(a) =>
      match a {
        case Foreign(msg) => DepositedOne(Deposit(msg, None));
        case Ours(msg) => OursKeeps(o, c, msg);
        case ABlock(b) => BlockKeeps(o, c, b);
      }
    case Advance(seconds, lost) => AdvanceKeeps(o, c, seconds, lost);
  }

  function Run(o: Outside, c: Collector, evs: seq<Event>): Result {
    if evs == [] then Result(c, [])
    else
      var r := Run(o, c, evs[..|evs| - 1]);
      var s := Step(o, r.c, evs[|evs| - 1]);
      Result(s.c, r.emit + s.emit)
  }

  function BroughtIn(evs: seq<Event>): multiset<Octets> {
    if evs == [] then multiset{} else BroughtIn(evs[..|evs| - 1]) + BroughtBy(evs[|evs| - 1])
  }

  /**
   * In every run no held message has a hash that is waited for, no number of a group is waited for twice, and the
   * messages received that are no blocks are, each as often as it was received, the ones held and the ones deposited.
   */
  lemma {:induction false} NothingLostOrRepeated(o: Outside, c: Collector, evs: seq<Event>)
    requires c.held == [] && c.waiting == []
    ensures var r := Run(o, c, evs);
            && CollectorOk(o, r.c)
            && BroughtIn(evs) == Messages(r.c.held) + Deposited(r.emit)
  {
    hide CollectorOk, Step, Messages, Deposited, BroughtBy;
    if evs == [] {
      StartsOk(o, c);
      NothingDeposited();
      MessagesOne(Held([], 0));
    } else {
      var front, ev := evs[..|evs| - 1], evs[|evs| - 1];
      NothingLostOrRepeated(o, c, front);
      var r := Run(o, c, front);
      StepKeeps(o, r.c, ev);
      var s := Step(o, r.c, ev);
      DepositedAppend(r.emit, s.emit);
      Totals(BroughtIn(front), Messages(r.c.held), Deposited(r.emit), BroughtBy(ev), Messages(s.c.held), Deposited(s.emit));
    }
  }

  lemma StartsOk(o: Outside, c: Collector)
    requires c.held == [] && c.waiting == []
    ensures CollectorOk(o, c)
  {
  }

  lemma Totals(b: multiset<Octets>, h: multiset<Octets>, d: multiset<Octets>, b': multiset<Octets>, h': multiset<Octets>, d': multiset<Octets>)
    requires b == h + d && b' + h == h' + d'
    ensures b + b' == h' + (d + d')
  {
    assert b + b' == (b' + h) + d;
    assert (h' + d') + d == h' + (d + d');
  }

  // ---- what is deposited signed was signed

  /** A hash listed for a number of a group, under a key. */
  datatype Listed = Listed(group: GroupKey, number: nat, alg: Algorithm, digest: Octets, key: string)

  /** What a verified Signature Block lists: its i-th hash is for number FMN + i. */
  function Lists(ev: Event): set<Listed> {
    match ev
    case Receive(ABlock(Signature(h, id, fmn, digests))) =>
      if h.verified && h.alg.Some? && h.signer.Some? then
        set i | 0 <= i < |digests| :: Listed(GroupKey(h.session, id), fmn + i, h.alg.value, digests[i], h.signer.value.key)
      else {}
    case _ => {}
  }

  predicate ListsWaiting(listed: set<Listed>, w: Waiting) {
    Listed(w.group, w.number, w.alg, w.digest, w.key) in listed
  }

  ghost predicate AllListed(listed: set<Listed>, ws: seq<Waiting>) {
    forall i :: 0 <= i < |ws| ==> ListsWaiting(listed, ws[i])
  }

  predicate SignedBy(o: Outside, l: Listed, e: Emission) {
    e.Deposit? && e.signed == Some(Signed(l.group, l.number, l.key)) && o.digest(l.alg, e.msg) == l.digest
  }

  ghost predicate Vouched(o: Outside, listed: set<Listed>, emit: seq<Emission>) {
    forall e :: e in emit && e.Deposit? && e.signed.Some? ==> exists l :: l in listed && SignedBy(o, l, e)
  }

  lemma SignOneVouched(o: Outside, c: Collector, signer: Signer, alg: Algorithm, g: GroupKey, number: nat, digest: Octets, listed: set<Listed>)
    requires AllListed(listed, c.waiting) && Listed(g, number, alg, digest, signer.key) in listed
    ensures var r := SignOne(o, c, signer, alg, g, number, digest); AllListed(listed, r.c.waiting) && Vouched(o, listed, r.emit)
  {
    var r := SignOne(o, c, signer, alg, g, number, digest);
    var k := FindHeld(o, c.held, alg, digest);
    if !IsAuthenticated(c, g, number) && k.Some? {
      var d := c.(held := Cut(c.held, k.value));
      AuthenticatedKeeps(d, g, number);
      assert SignedBy(o, Listed(g, number, alg, digest, signer.key), r.emit[0]);
    }
  }

  lemma {:induction false} SignEachVouched(o: Outside, c: Collector, signer: Signer, alg: Algorithm, g: GroupKey, fmn: nat, digests: seq<Octets>, listed: set<Listed>)
    requires AllListed(listed, c.waiting)
    requires forall i :: 0 <= i < |digests| ==> Listed(g, fmn + i, alg, digests[i], signer.key) in listed
    ensures var r := SignEach(o, c, signer, alg, g, fmn, digests); AllListed(listed, r.c.waiting) && Vouched(o, listed, r.emit)
  {
    hide SignOne, SignedBy, ListsWaiting;
    if digests != [] {
      var n := |digests| - 1;
      assert forall i :: 0 <= i < n ==> digests[..n][i] == digests[i];
      SignEachVouched(o, c, signer, alg, g, fmn, digests[..n], listed);
      SignOneVouched(o, SignEach(o, c, signer, alg, g, fmn, digests[..n]).c, signer, alg, g, fmn + n, digests[n], listed);
    }
  }

  lemma {:induction false} NotOfIn(ws: seq<Waiting>, key: SessionKey)
    ensures forall w :: w in NotOf(ws, key) ==> w in ws
  {
    if ws != [] { NotOfIn(ws[..|ws| - 1], key); }
  }

  lemma SubsetListed(listed: set<Listed>, ws: seq<Waiting>, vs: seq<Waiting>)
    requires AllListed(listed, ws) && forall w :: w in vs ==> w in ws
    ensures AllListed(listed, vs)
  {
    hide ListsWaiting;
    forall j | 0 <= j < |vs| ensures ListsWaiting(listed, vs[j]) { assert vs[j] in vs && vs[j] in ws; }
  }

  lemma OursVouched(o: Outside, c: Collector, msg: Octets, listed: set<Listed>)
    requires AllListed(listed, c.waiting)
    ensures var r := OnOurs(o, c, msg); AllListed(listed, r.c.waiting) && Vouched(o, listed, r.emit)
  {
    var i := FindWaiting(o, c.waiting, msg);
    if i.Some? {
      var w := c.waiting[i.value];
      AuthenticatedKeeps(c.(waiting := Cut(c.waiting, i.value)), w.group, w.number);
      assert ListsWaiting(listed, w);
      assert SignedBy(o, Listed(w.group, w.number, w.alg, w.digest, w.key), OnOurs(o, c, msg).emit[0]);
    }
  }

  lemma SignatureVouched(o: Outside, c: Collector, signer: Signer, alg: Algorithm, key: SessionKey, id: GroupId, fmn: nat, digests: seq<Octets>, listed: set<Listed>)
    requires AllListed(listed, c.waiting) && digests != []
    requires forall i :: 0 <= i < |digests| ==> Listed(GroupKey(key, id), fmn + i, alg, digests[i], signer.key) in listed
    ensures var r := OnSignature(o, c, signer, alg, key, id, fmn, digests); AllListed(listed, r.c.waiting) && Vouched(o, listed, r.emit)
  {
    hide SignEach, SignedBy, ListsWaiting;
    if key in c.sessions && c.sessions[key].payload.Some? {
      var s := c.sessions[key];
      var q := if id in s.groups then s.groups[id] else Group({}, 0);
      var b := c.(sessions := c.sessions[key := s.(groups := s.groups[id := q.(covered := MaxOf(q.covered, fmn + |digests| - 1))])]);
      SignEachVouched(o, b, signer, alg, GroupKey(key, id), fmn, digests, listed);
    }
  }

  lemma CertificateVouched(o: Outside, c: Collector, signer: Signer, key: SessionKey, tpbl: nat, f: Fragment, listed: set<Listed>)
    requires AllListed(listed, c.waiting)
    ensures var r := OnCertificate(o, c, signer, key, tpbl, f); AllListed(listed, r.c.waiting) && Vouched(o, listed, r.emit)
  {
    hide AllListed, Repeats, SignedBy;
    CertificateAside(o, c, signer, key, tpbl, f);
    NotOfIn(c.waiting, key);
    SubsetListed(listed, c.waiting, NotOf(c.waiting, key));
    CertificateWaiting(o, c, signer, key, tpbl, f);
  }

  lemma CertificateWaiting(o: Outside, c: Collector, signer: Signer, key: SessionKey, tpbl: nat, f: Fragment)
    ensures var w := OnCertificate(o, c, signer, key, tpbl, f).c.waiting; w == c.waiting || w == NotOf(c.waiting, key)
  {
    hide Repeats, NotOf;
    CertificateAside(o, c, signer, key, tpbl, f);
    hide OnCertificate;
    var s0 := if key in c.sessions then c.sessions[key] else NewSession();
    if s0.payload.Some? && Repeats(s0.payload.value, tpbl, f) { RepeatedWaiting(o, c, signer, key, tpbl, f); }
  }

  lemma RepeatedWaiting(o: Outside, c: Collector, signer: Signer, key: SessionKey, tpbl: nat, f: Fragment)
    requires key in c.sessions && c.sessions[key].payload.Some? && Repeats(c.sessions[key].payload.value, tpbl, f)
    ensures OnCertificate(o, c, signer, key, tpbl, f).c.waiting == c.waiting
  {
    hide Repeats;
  }

  lemma StepVouched(o: Outside, c: Collector, ev: Event, listed: set<Listed>)
    requires AllListed(listed, c.waiting)
    ensures var r := Step(o, c, ev); AllListed(listed + Lists(ev), r.c.waiting) && Vouched(o, listed + Lists(ev), r.emit)
  {
    hide OnCertificate, OnSignature, OnOurs, Placed, Ranges, KeptWaiting, KeptHeld, DueHeld;
    var all := listed + Lists(ev);
    assert AllListed(all, c.waiting);
    match ev
    case Advance(seconds, lost) =>
      var now := c.now + seconds;
      KeptWaitingIn(c.waiting, now);
      SubsetListed(all, c.waiting, KeptWaiting(c.waiting, now));
      RangesSay(lost);
      DueUnsigned(c.held, now);
    case Receive(a) =>
      match a {
        case Foreign(msg) =>
        case Ours(msg) => OursVouched(o, c, msg, all);
        case ABlock(b) => BlockVouched(o, c, b, all, Lists(ev));
      }
  }

  lemma {:induction false} DueUnsigned(hs: seq<Held>, now: int)
    ensures forall e :: e in DueHeld(hs, now) ==> e.Deposit? && e.signed.None?
  {
    if hs != [] { DueUnsigned(hs[..|hs| - 1], now); }
  }

  lemma BlockVouched(o: Outside, c: Collector, b: Block, all: set<Listed>, lists: set<Listed>)
    requires AllListed(all, c.waiting) && lists == Lists(Receive(ABlock(b))) && lists <= all
    ensures var r := OnBlock(o, c, b); AllListed(all, r.c.waiting) && Vouched(o, all, r.emit)
  {
    hide OnCertificate, OnSignature, Placed, AllListed, SignedBy;
    if ReadsAsBlock(b) && b.h.signer.Some? && b.h.alg.Some? && b.h.verified {
      if b.Certificate? {
        CertificateVouched(o, c, b.h.signer.value, b.h.session, b.tpbl, b.frag, all);
      } else {
        forall i | 0 <= i < |b.digests|
          ensures Listed(GroupKey(b.h.session, b.id), b.fmn + i, b.h.alg.value, b.digests[i], b.h.signer.value.key) in all
        {
          assert Listed(GroupKey(b.h.session, b.id), b.fmn + i, b.h.alg.value, b.digests[i], b.h.signer.value.key) in lists;
        }
        SignatureVouched(o, c, b.h.signer.value, b.h.alg.value, b.h.session, b.id, b.fmn, b.digests, all);
      }
    }
  }

  function ListedIn(evs: seq<Event>): set<Listed> {
    if evs == [] then {} else ListedIn(evs[..|evs| - 1]) + Lists(evs[|evs| - 1])
  }

  /** In every run, a message deposited as number n of a group has a hash that a verified Signature Block lists for n. */
  lemma {:induction false} SignedMeansListed(o: Outside, c: Collector, evs: seq<Event>)
    requires c.waiting == []
    ensures AllListed(ListedIn(evs), Run(o, c, evs).c.waiting) && Vouched(o, ListedIn(evs), Run(o, c, evs).emit)
  {
    hide Step, SignedBy, ListsWaiting, Lists;
    if evs != [] {
      var front, ev := evs[..|evs| - 1], evs[|evs| - 1];
      SignedMeansListed(o, c, front);
      StepVouched(o, Run(o, c, front).c, ev, ListedIn(front));
    }
  }

  // ---- fragments

  ghost predicate Agreeing(frags: seq<Fragment>) {
    forall i, j :: 0 <= i < j < |frags| ==> !Conflict(frags[i], frags[j])
  }

  /** One position of what is assembled, from any fragment that has it. */
  lemma {:induction false} AssembledAt(frags: seq<Fragment>, tpbl: nat, i: nat, p: nat)
    requires AllPlaced(frags, tpbl) && Agreeing(frags) && i < |frags| && Has(frags[i], p)
    ensures 1 <= p <= tpbl && Assembled(frags, tpbl)[p - 1] == frags[i].octets[p - frags[i].index]
  {
    hide Conflict;
    var n := |frags| - 1;
    var front, f, g := frags[..n], frags[n], frags[i];
    assert Placed(f, tpbl) && Placed(g, tpbl);
    if i < n {
      AssembledAt(front, tpbl, i, p);
      if Has(f, p) { AgreeAt(frags, i, n, p); }
    }
  }

  lemma AgreeAt(frags: seq<Fragment>, i: nat, j: nat, p: nat)
    requires Agreeing(frags) && i < j < |frags| && Has(frags[i], p) && Has(frags[j], p)
    ensures frags[i].octets[p - frags[i].index] == frags[j].octets[p - frags[j].index]
  {
    assert !Conflict(frags[i], frags[j]);
  }

  /** Fragments that nowhere conflict are all found in what they assemble to, whatever order they came in. */
  lemma AssembledHolds(frags: seq<Fragment>, tpbl: nat, i: nat)
    requires AllPlaced(frags, tpbl) && Agreeing(frags) && i < |frags| && Placed(frags[i], tpbl)
    ensures Assembled(frags, tpbl)[frags[i].index - 1..frags[i].index - 1 + |frags[i].octets|] == frags[i].octets
  {
    hide Assembled, Conflict, AllPlaced, Agreeing;
    var f := frags[i];
    forall k | 0 <= k < |f.octets| ensures Assembled(frags, tpbl)[f.index - 1 + k] == f.octets[k] {
      AssembledAt(frags, tpbl, i, f.index + k);
    }
  }

  /** What is kept while a payload is assembled: each fragment was checked against those before it. */
  lemma AgreeingGrows(frags: seq<Fragment>, f: Fragment)
    requires Agreeing(frags) && !(exists i :: 0 <= i < |frags| && Conflict(frags[i], f))
    ensures Agreeing(frags + [f])
  {
    hide Conflict;
    var all := frags + [f];
    forall i, j | 0 <= i < j < |all| ensures !Conflict(all[i], all[j]) {
      assert all[i] == frags[i];
    }
  }
}
