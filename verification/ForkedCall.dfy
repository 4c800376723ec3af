/**
 * One initiator, the forking relay and any number of legs, joined by FIFO links: who ends up in the call.
 * The parties are the session functions of `Calls` and the attempt functions of `Relays`; any party may take its
 * next step at any time, so a property of every run holds whatever the delays.
 */
module ForkedCall {
  import opened Prelude
  import opened TimerTable
  import opened Calls
  import Relays

  const RELAY := "relay"

  /** A body on the way to or from `peer`. */
  datatype Mail = Mail(peer: string, body: Body)

  datatype Party = Party(s: Session, run: set<Name>)

  /**
   * `up` runs from each leg to the relay, `home` from the relay to the initiator, `out` from the initiator to the
   * relay and `down` from the relay to each leg. `sent` and `told` record which legs have answered, and which
   * answers the initiator has met with a `bye`.
   */
  datatype Net = Net(
    id: string,
    self: string,
    boss: Party,
    relay: Relays.Attempt,
    legs: map<string, Party>,
    up: map<string, seq<Body>>,
    home: seq<Mail>,
    out: seq<Mail>,
    down: map<string, seq<Body>>,
    sent: set<string>,
    told: set<string>)

  datatype Event =
    | BossRequests(cx: Context, now: int, v: Verb)
    | BossFires(name: Name)
    | BossYields
    | BossReceives(cx: Context)
    | LegRequests(d: string, cx: Context, now: int, v: Verb)
    | LegFires(d: string)
    | LegReceives(d: string, refusal: Option<string>)
    | RelayFromBoss(now: int)
    | RelayFromLeg(d: string, now: int)
    | RelayExpires(now: int)
    | RelayLegExpired(d: string)
    | LegBinds(d: string, now: int)

  function Queue(m: map<string, seq<Body>>, d: string): seq<Body> {
    if d in m then m[d] else []
  }

  function Sends(ops: seq<Op>): seq<Mail> {
    if ops == [] then []
    else
      var last := ops[|ops| - 1];
      Sends(ops[..|ops| - 1]) + if last.Send? then [Mail(last.to, last.body)] else []
  }

  function Bodies(ms: seq<Mail>): seq<Body> {
    seq(|ms|, i requires 0 <= i < |ms| => ms[i].body)
  }

  predicate IsAnswer(b: Body) {
    b.Answer? && b.inReplyTo.None?
  }

  // ---- the steps

  function BossTakes(n: Net, run: set<Name>, o: Outcome): Net {
    n.(boss := Party(o.s, RunAfter(run, o.ops)), out := n.out + Sends(o.ops))
  }

  function LegTakes(n: Net, d: string, run: set<Name>, o: Outcome): Net {
    var bodies := Bodies(Sends(o.ops));
    n.(legs := n.legs[d := Party(o.s, RunAfter(run, o.ops))],
       up := n.up[d := Queue(n.up, d) + bodies],
       sent := if exists b :: b in bodies && IsAnswer(b) then n.sent + {d} else n.sent)
  }

  function Heard(n: Net, cx: Context): Outcome
    requires n.home != [] && !n.home[0].body.Invite?
  {
    Received(cx, n.id, n.boss.s, n.boss.run, Message(n.home[0].peer, "", n.id, n.home[0].body))
  }

  function BossHears(n: Net, cx: Context): Net
    requires n.home != []
  {
    var m := n.home[0];
    var rest := n.(home := n.home[1..]);
    if m.body.Invite? then rest
    else
      var o := Heard(n, cx);
      var next := BossTakes(rest, n.boss.run, o);
      if IsAnswer(m.body) && (exists x :: x in Sends(o.ops) && x.peer == m.peer && x.body.Bye?)
      then next.(told := n.told + {m.peer}) else next
  }

  /** What a device makes of the invite or of a message; a refusal stands for the checks an invite can fail. */
  function LegHears(n: Net, d: string, refusal: Option<string>): Net
    requires Queue(n.down, d) != []
  {
    var b := Queue(n.down, d)[0];
    var rest := n.(down := n.down[d := Queue(n.down, d)[1..]]);
    var m := Message(n.self, "", n.id, b);
    if d !in n.legs then
      if b.Invite? then
        if refusal.Some? then
          LegTakes(rest, d, {}, Outcome(NewOffer(ENDED, n.self, b.expiresAt), [Send(n.self, n.id, Reject(refusal.value, None))]))
        else LegTakes(rest, d, {}, Outcome(NewOffer(OFFERED, n.self, b.expiresAt), [Ui("offered", "")]))
      else if b.Error? then rest
      else rest.(up := rest.up[d := Queue(rest.up, d) + [Error("session.unknown-session", "")]])
    else if b.Invite? then
      LegTakes(rest, d, n.legs[d].run, Outcome(n.legs[d].s, [if n.legs[d].s.phase == ENDED then Drop("ended-session") else InvalidState(m)]))
    else LegTakes(rest, d, n.legs[d].run, Received(Context(d, map[], None, None, None, false, {}), n.id, n.legs[d].s, n.legs[d].run, m))
  }

  /** What the relay delivers or forwards joins the link it goes out on. */
  function Post(n: Net, e: Relays.Emission): Net {
    match e
    case DeliverInvite(leg, _) => n.(down := n.down[leg := Queue(n.down, leg) + [Invite(n.relay.to, n.relay.expires)]])
    case DeliverCancel(leg, _, reason) => n.(down := n.down[leg := Queue(n.down, leg) + [Cancel(reason)]])
    case Forward(_, _, from, body) => n.(home := n.home + [Mail(from, body)])
    case NoResponse(_, _) => n.(home := n.home + [Mail(RELAY, Error("transport.no-response", n.id))])
    case Deliver(to, env) =>
      if env.Introduction? then n
      else if to == n.self then n.(home := n.home + [Mail(env.m.from, env.m.body)])
      else n.(down := n.down[to := Queue(n.down, to) + [env.m.body]])
    case _ => n
  }

  function PostAll(n: Net, emit: seq<Relays.Emission>): Net {
    if emit == [] then n else Post(PostAll(n, emit[..|emit| - 1]), emit[|emit| - 1])
  }

  function RelayTakes(n: Net, s: Relays.AttemptStep): Net {
    PostAll(n.(relay := s.a), s.emit)
  }

  ghost function RelayHearsBoss(n: Net, now: int): Net
    requires n.out != []
  {
    var m := n.out[0];
    var rest := n.(out := n.out[1..]);
    if m.body.Cancel? && (m.peer == n.relay.to || m.peer in n.relay.legs) then
      RelayTakes(rest, Relays.CancelAttempt(n.id, n.relay, now, Some(m.peer), m.body.reason))
    else rest.(down := n.down[m.peer := Queue(n.down, m.peer) + [m.body]])
  }

  function RelayHearsLeg(n: Net, d: string, now: int): Net
    requires Queue(n.up, d) != []
  {
    var b := Queue(n.up, d)[0];
    var rest := n.(up := n.up[d := Queue(n.up, d)[1..]]);
    if d in n.relay.legs && Relays.LegSpeaks(b) then
      RelayTakes(rest, Relays.FromLeg(n.id, n.relay, now, Message(d, "", n.id, b)))
    else rest.(home := n.home + [Mail(d, b)])
  }

  predicate Enabled(n: Net, ev: Event) {
    match ev
    case BossRequests(_, _, _) => true
    case BossFires(name) => name in n.boss.run
    case BossYields => OwnAttempt(n.boss.s)
    case BossReceives(_) => n.home != []
    case LegRequests(d, _, _, _) => d in n.legs
    case LegFires(d) => d in n.legs && TRingLocal in n.legs[d].run
    case LegReceives(d, _) => Queue(n.down, d) != []
    case RelayFromBoss(_) => n.out != []
    case RelayFromLeg(d, _) => Queue(n.up, d) != []
    case RelayExpires(_) => true
    case RelayLegExpired(d) => true
    case LegBinds(d, now) => Relays.Joins(n.relay, now, d, n.relay.to)
  }

  ghost function Step(n: Net, ev: Event): Net
    requires Enabled(n, ev)
  {
    match ev
    case BossRequests(cx, now, v) => BossTakes(n, n.boss.run, Requested(cx, now, n.id, n.boss.s, n.boss.run, v))
    case BossFires(name) => BossTakes(n, n.boss.run - {name}, Fired(name, n.id, n.boss.s))
    case BossYields => BossTakes(n, n.boss.run, Yielded(n.id, n.boss.s, n.boss.run))
    case BossReceives(cx) => BossHears(n, cx)
    case LegRequests(d, cx, now, v) => LegTakes(n, d, n.legs[d].run, Requested(cx, now, n.id, n.legs[d].s, n.legs[d].run, v))
    case LegFires(d) => LegTakes(n, d, n.legs[d].run - {TRingLocal}, Fired(TRingLocal, n.id, n.legs[d].s))
    case LegReceives(d, refusal) => LegHears(n, d, refusal)
    case RelayFromBoss(now) => RelayHearsBoss(n, now)
    case RelayFromLeg(d, now) => RelayHearsLeg(n, d, now)
    case RelayExpires(now) => RelayTakes(n, Relays.ExpireAttempt(n.id, n.relay, now))
    case RelayLegExpired(d) => RelayTakes(n, Relays.LegEnded(n.id, n.relay, d, Relays.LegExpired))
    case LegBinds(d, now) =>
      RelayTakes(n, Relays.AttemptStep(Relays.WithLeg(n.relay, d, now), [Relays.DeliverInvite(d, n.id)]))
  }

  // ---- what is in flight

  datatype Kind = KAnswer | KBye | KInvite | KCancel

  /** `KCancel` is a cancel that ends a leg which has already answered. */
  predicate Is(k: Kind, b: Body) {
    match k
    case KAnswer => IsAnswer(b)
    case KBye => b.Bye?
    case KInvite => b.Invite?
    case KCancel => b.Cancel? && EffectiveReason(b.reason) != ELSEWHERE
  }

  function Count(q: seq<Body>, k: Kind): nat {
    if q == [] then 0 else Count(q[..|q| - 1], k) + if Is(k, q[|q| - 1]) then 1 else 0
  }

  /** A cancel goes to every leg, anything else to the one it names. */
  predicate Concerns(m: Mail, d: string) {
    m.peer == d || m.body.Cancel?
  }

  function CountMail(ms: seq<Mail>, d: string, k: Kind): nat {
    if ms == [] then 0
    else CountMail(ms[..|ms| - 1], d, k)
         + if Concerns(ms[|ms| - 1], d) && Is(k, ms[|ms| - 1].body) then 1 else 0
  }

  /** What a leg has said that bears on who is in the call, in order. */
  function Talk(q: seq<Body>): seq<Kind> {
    if q == [] then [] else Talk(q[..|q| - 1]) + Word(q[|q| - 1])
  }

  function Word(b: Body): seq<Kind> {
    if Is(KAnswer, b) then [KAnswer] else if Is(KBye, b) then [KBye] else if Is(KInvite, b) then [KInvite] else []
  }

  function TalkOf(ms: seq<Mail>, d: string): seq<Kind> {
    if ms == [] then []
    else TalkOf(ms[..|ms| - 1], d) + if ms[|ms| - 1].peer == d then Word(ms[|ms| - 1].body) else []
  }

  /** From the leg, what it said; to the leg, how many byes and cancels. */
  datatype Flight = Flight(line: seq<Kind>, farewells: nat, cancels: nat)

  function ToLeg(n: Net, d: string, k: Kind): nat {
    Count(Queue(n.down, d), k) + CountMail(n.out, d, k)
  }

  function FlightOf(n: Net, d: string): Flight {
    Flight(TalkOf(n.home, d) + Talk(Queue(n.up, d)), ToLeg(n, d, KBye), ToLeg(n, d, KCancel))
  }

  function LegOf(n: Net, d: string): Option<Session> {
    if d in n.legs then Some(n.legs[d].s) else None
  }

  function Shape(answer: bool, bye: bool): seq<Kind> {
    (if answer then [KAnswer] else []) + (if bye then [KBye] else [])
  }

  /**
   * Where one leg stands. An answer it sent is in exactly one place: in flight, applied, or met with a `bye`. A leg
   * still in a call that is not (or no longer) the initiator's has a `bye` on its way.
   */
  ghost predicate LegFits(boss: Session, d: string, leg: Option<Session>, c: Flight, sent: bool, told: bool) {
    var active := leg.Some? && leg.value.phase == ACTIVE;
    var ended := leg.Some? && leg.value.phase == ENDED;
    var applied := boss.peer == Some(d);
    && !(applied && told) && (applied || told ==> sent)
    && c.line == Shape(sent && !applied && !told, KBye in c.line)
    && (active ==> sent)
    && (sent ==> active || ended)
    && (KBye in c.line ==> sent && ended)
    && (active && (told || (applied && boss.phase == ENDED)) ==> c.farewells > 0)
    && (boss.phase == ACTIVE && applied ==> c.farewells == 0 && (active || KBye in c.line))
    && (Pending(boss) ==> c.farewells == 0 && !told && (sent ==> active || KBye in c.line))
    && (boss.phase != ENDED ==> c.cancels == 0)
  }

  ghost predicate LegAgrees(n: Net, d: string) {
    LegFits(n.boss.s, d, LegOf(n, d), FlightOf(n, d), d in n.sent, d in n.told)
  }

  ghost predicate BossOk(p: Party) {
    p.s.role == Initiator && SessionOk(p.s) && TimersFit(p.s, p.run)
  }

  ghost predicate LegOk(self: string, p: Party) {
    p.s.role == Responder && p.s.to == self && SessionOk(p.s) && TimersFit(p.s, p.run)
  }

  ghost predicate Agreement(n: Net) {
    && BossOk(n.boss)
    && (forall d :: d in n.legs ==> LegOk(n.self, n.legs[d]))
    && (forall d :: LegAgrees(n, d))
  }

  // ---- counting

  lemma {:induction false} CountAppend(a: seq<Body>, b: seq<Body>, k: Kind)
    ensures Count(a + b, k) == Count(a, k) + Count(b, k)
  {
    if b == [] {
      assert a + b == a;
    } else {
      assert (a + b)[..|a + b| - 1] == a + b[..|b| - 1];
      CountAppend(a, b[..|b| - 1], k);
    }
  }

  lemma CountOne(b: Body, k: Kind)
    ensures Count([b], k) == if Is(k, b) then 1 else 0
  {
    assert [b][..0] == [];
  }

  lemma CountHead(q: seq<Body>, k: Kind)
    requires q != []
    ensures Count(q, k) == Count(q[1..], k) + if Is(k, q[0]) then 1 else 0
  {
    assert q == [q[0]] + q[1..];
    CountAppend([q[0]], q[1..], k);
    CountOne(q[0], k);
  }

  lemma {:induction false} CountNone(q: seq<Body>, k: Kind)
    ensures Count(q, k) > 0 <==> exists b :: b in q && Is(k, b)
  {
    if q != [] {
      var front, last := q[..|q| - 1], q[|q| - 1];
      CountNone(front, k);
      assert q == front + [last];
      if Is(k, last) { assert last in q; }
    }
  }

  lemma {:induction false} TalkAppend(a: seq<Body>, b: seq<Body>)
    ensures Talk(a + b) == Talk(a) + Talk(b)
  {
    if b == [] {
      assert a + b == a;
    } else {
      assert (a + b)[..|a + b| - 1] == a + b[..|b| - 1];
      TalkAppend(a, b[..|b| - 1]);
    }
  }

  lemma TalkOne(b: Body)
    ensures Talk([b]) == Word(b)
  {
    assert [b][..0] == [];
  }

  lemma {:induction false} TalkOfAppend(a: seq<Mail>, b: seq<Mail>, d: string)
    ensures TalkOf(a + b, d) == TalkOf(a, d) + TalkOf(b, d)
  {
    if b == [] {
      assert a + b == a;
    } else {
      assert (a + b)[..|a + b| - 1] == a + b[..|b| - 1];
      TalkOfAppend(a, b[..|b| - 1], d);
    }
  }

  lemma TalkOfHead(ms: seq<Mail>, d: string)
    requires ms != []
    ensures TalkOf(ms, d) == (if ms[0].peer == d then Word(ms[0].body) else []) + TalkOf(ms[1..], d)
  {
    assert ms == [ms[0]] + ms[1..];
    TalkOfAppend([ms[0]], ms[1..], d);
    assert [ms[0]][..0] == [];
  }

  /** Dropping the first word of a line. */
  lemma ShapeHead(answer: bool, bye: bool, k: Kind, line: seq<Kind>, rest: seq<Kind>)
    requires line == [k] + rest && line == Shape(answer, bye)
    ensures answer ==> k == KAnswer && rest == Shape(false, bye)
    ensures !answer ==> bye && k == KBye && rest == []
    ensures KBye in line <==> bye
  {
    assert rest == line[1..];
    assert line[0] == k;
  }

  lemma ShapeBye(answer: bool, bye: bool)
    ensures KBye in Shape(answer, bye) <==> bye
  {
  }

  lemma {:induction false} MailAppend(a: seq<Mail>, b: seq<Mail>, d: string, k: Kind)
    ensures CountMail(a + b, d, k) == CountMail(a, d, k) + CountMail(b, d, k)
  {
    if b == [] {
      assert a + b == a;
    } else {
      assert (a + b)[..|a + b| - 1] == a + b[..|b| - 1];
      MailAppend(a, b[..|b| - 1], d, k);
    }
  }

  lemma MailOne(m: Mail, d: string, k: Kind)
    ensures CountMail([m], d, k) == if Concerns(m, d) && Is(k, m.body) then 1 else 0
  {
    assert [m][..0] == [];
  }

  lemma MailHead(ms: seq<Mail>, d: string, k: Kind)
    requires ms != []
    ensures CountMail(ms, d, k) == CountMail(ms[1..], d, k) + if Concerns(ms[0], d) && Is(k, ms[0].body) then 1 else 0
  {
    assert ms == [ms[0]] + ms[1..];
    MailAppend([ms[0]], ms[1..], d, k);
    MailOne(ms[0], d, k);
  }

  lemma {:induction false} MailNone(ms: seq<Mail>, d: string, k: Kind)
    ensures CountMail(ms, d, k) > 0 <==> exists m :: m in ms && Concerns(m, d) && Is(k, m.body)
  {
    if ms != [] {
      var front, last := ms[..|ms| - 1], ms[|ms| - 1];
      MailNone(front, d, k);
      assert ms == front + [last];
      if Concerns(last, d) && Is(k, last.body) { assert last in ms; }
    }
  }

  lemma {:induction false} SendsIn(ops: seq<Op>, m: Mail)
    ensures m in Sends(ops) <==> exists o :: o in ops && o.Send? && o.to == m.peer && o.body == m.body
  {
    if ops != [] {
      var front, last := ops[..|ops| - 1], ops[|ops| - 1];
      SendsIn(front, m);
      assert ops == front + [last];
      if last.Send? && last.to == m.peer && last.body == m.body { assert last in ops; }
    }
  }

  // ---- the initiator's own moves

  /** What a request, a timer or a withdrawal does: it ends at most, and says so with a bye to its peer or a cancel. */
  ghost predicate Moves(s: Session, t: Session, sends: seq<Mail>) {
    && t.peer == s.peer && (t.phase == s.phase || t.phase == ENDED)
    && (forall m :: m in sends && m.body.Bye? ==> s.phase == ACTIVE && t.phase == ENDED && s.peer == Some(m.peer))
    && (forall m :: m in sends && m.body.Cancel? ==> t.phase == ENDED)
    && (s.phase == ACTIVE && t.phase == ENDED ==> exists m :: m in sends && m.body.Bye? && s.peer == Some(m.peer))
  }

  lemma MovesAgree(n: Net, p: Party, sends: seq<Mail>, d: string)
    requires LegAgrees(n, d) && BossOk(n.boss) && Moves(n.boss.s, p.s, sends)
    ensures LegAgrees(n.(boss := p, out := n.out + sends), d)
  {
    MailAppend(n.out, sends, d, KBye);
    MailAppend(n.out, sends, d, KCancel);
    MailNone(sends, d, KBye);
    MailNone(sends, d, KCancel);
    if n.boss.s.phase == ACTIVE && p.s.phase == ENDED && n.boss.s.peer == Some(d) {
      var m :| m in sends && m.body.Bye? && n.boss.s.peer == Some(m.peer);
      assert Concerns(m, d) && Is(KBye, m.body);
    }
  }

  lemma OpsMove(s: Session, t: Session, ops: seq<Op>)
    requires t.peer == s.peer && (t.phase == s.phase || t.phase == ENDED)
    requires forall op :: op in ops && op.Send? && op.body.Bye? ==> s.phase == ACTIVE && t.phase == ENDED && s.peer == Some(op.to)
    requires forall op :: op in ops && op.Send? && op.body.Cancel? ==> t.phase == ENDED
    requires s.phase == ACTIVE && t.phase == ENDED ==> exists op :: op in ops && op.Send? && op.body.Bye?
    ensures Moves(s, t, Sends(ops))
  {
    forall m | m in Sends(ops) ensures exists op :: op in ops && op.Send? && op.to == m.peer && op.body == m.body {
      SendsIn(ops, m);
    }
    if s.phase == ACTIVE && t.phase == ENDED {
      var op :| op in ops && op.Send? && op.body.Bye?;
      SendsIn(ops, Mail(op.to, op.body));
      assert Mail(op.to, op.body) in Sends(ops);
    }
  }

  lemma RequestMoves(cx: Context, now: int, id: string, s: Session, run: set<Name>, v: Verb)
    requires SessionOk(s) && s.role == Initiator
    ensures var o := Requested(cx, now, id, s, run, v); Moves(s, o.s, Sends(o.ops)) && o.s.role == Initiator
  {
    var o := Requested(cx, now, id, s, run, v);
    if v.HangUp? && s.phase == ACTIVE {
      assert o.ops[0] == Send(PeerOf(s), id, Bye(Or(v.byeReason, "user.hangup")));
      assert o.ops[0] in o.ops;
    }
    hide Sends, Moves;
    OpsMove(s, o.s, o.ops);
  }

  lemma FiresMove(name: Name, id: string, s: Session)
    requires SessionOk(s) && OwnAttempt(s) && name != TRingLocal
    ensures var o := Fired(name, id, s); Moves(s, o.s, Sends(o.ops)) && o.s.role == Initiator
  {
    OpsMove(s, Fired(name, id, s).s, Fired(name, id, s).ops);
  }

  lemma YieldMoves(id: string, s: Session, run: set<Name>)
    requires SessionOk(s) && OwnAttempt(s)
    ensures var o := Yielded(id, s, run); Moves(s, o.s, Sends(o.ops)) && o.s.role == Initiator
  {
    OpsMove(s, Yielded(id, s, run).s, Yielded(id, s, run).ops);
  }

  // ---- what the initiator hears

  /** An answer is applied, or, too late, met with a bye; nothing else speaks of byes, and only an end cancels a leg. */
  ghost predicate Hears(s: Session, t: Session, m: Mail, sends: seq<Mail>) {
    if IsAnswer(m.body) && Pending(s) then
      && t.phase == ACTIVE && t.peer == Some(m.peer)
      && (forall x :: x in sends ==> !x.body.Bye? && !Is(KCancel, x.body))
    else if IsAnswer(m.body) && s.peer != Some(m.peer) then
      && t.phase == s.phase && t.peer == s.peer
      && sends != [] && sends[0].peer == m.peer && sends[0].body.Bye? && |sends| == 1
    else if IsAnswer(m.body) then true
    else
      && t.peer == s.peer
      && (t.phase == s.phase || (Pending(s) && t.phase == PROCEEDING) || (Pending(s) && t.phase == ENDED)
          || (s.phase == ACTIVE && t.phase == ENDED && m.body.Bye?))
      && (s.phase == ACTIVE && m.body.Bye? ==> t.phase == ENDED)
      && (forall x :: x in sends ==> !x.body.Bye? && (x.body.Cancel? ==> t.phase == ENDED))
  }

  lemma {:induction false} SendsKinds(ops: seq<Op>)
    ensures forall x :: x in Sends(ops) ==> exists op :: op in ops && op.Send? && op.to == x.peer && op.body == x.body
  {
    forall x | x in Sends(ops) ensures exists op :: op in ops && op.Send? && op.to == x.peer && op.body == x.body {
      SendsIn(ops, x);
    }
  }

  lemma {:induction false} NoSends(ops: seq<Op>, more: seq<Op>)
    requires forall op :: op in ops ==> !op.Send?
    ensures Sends(ops + more) == Sends(more)
  {
    if more == [] {
      assert ops + more == ops;
      if ops != [] {
        assert ops[..|ops| - 1] + [] == ops[..|ops| - 1];
        NoSends(ops[..|ops| - 1], []);
      }
    } else {
      assert (ops + more)[..|ops + more| - 1] == ops + more[..|more| - 1];
      NoSends(ops, more[..|more| - 1]);
    }
  }

  lemma SendsOne(op: Op)
    ensures Sends([op]) == if op.Send? then [Mail(op.to, op.body)] else []
  {
    assert [op][..0] == [];
  }

  lemma AnswerApplied(cx: Context, id: string, s: Session, run: set<Name>, m: Message)
    requires s.role == Initiator && Pending(s) && IsAnswer(m.body)
    ensures var o := Received(cx, id, s, run, m); Hears(s, o.s, Mail(m.from, m.body), Sends(o.ops)) && o.s.role == Initiator
  {
    hide Sends, EffectiveReason, EffectiveAnsweredBy;
    var o := Received(cx, id, s, run, m);
    ElsewhereStands();
    assert forall op :: op in o.ops && op.Send? ==> op.body == Cancel(ELSEWHERE);
    SendsKinds(o.ops);
  }

  lemma AnswerRefused(cx: Context, id: string, s: Session, run: set<Name>, m: Message)
    requires SessionOk(s) && s.role == Initiator && IsAnswer(m.body) && !Pending(s)
    ensures var o := Received(cx, id, s, run, m); Hears(s, o.s, Mail(m.from, m.body), Sends(o.ops)) && o.s.role == Initiator
  {
    hide EffectiveReason, EffectiveAnsweredBy;
    var o := Received(cx, id, s, run, m);
    if s.peer != Some(m.from) {
      assert s.phase == ACTIVE || s.phase == ENDED;
      assert |o.ops| == 1 && o.ops == [o.ops[0]];
      SendsOne(o.ops[0]);
    }
  }

  lemma AnswerHeard(cx: Context, id: string, s: Session, run: set<Name>, m: Message)
    requires SessionOk(s) && s.role == Initiator && IsAnswer(m.body)
    ensures var o := Received(cx, id, s, run, m); Hears(s, o.s, Mail(m.from, m.body), Sends(o.ops)) && o.s.role == Initiator
  {
    hide *;
    if Pending(s) { AnswerApplied(cx, id, s, run, m); } else { AnswerRefused(cx, id, s, run, m); }
  }

  /** The same for every other message, in terms of the operations. */
  ghost predicate HeardQuietly(s: Session, b: Body, o: Outcome) {
    && o.s.peer == s.peer && o.s.role == s.role
    && (o.s.phase == s.phase || (Pending(s) && o.s.phase == PROCEEDING) || (Pending(s) && o.s.phase == ENDED)
        || (s.phase == ACTIVE && o.s.phase == ENDED && b.Bye?))
    && (s.phase == ACTIVE && b.Bye? ==> o.s.phase == ENDED)
    && (forall op :: op in o.ops && op.Send? ==> !op.body.Bye? && (op.body.Cancel? ==> o.s.phase == ENDED))
  }

  lemma ProgressHeard(cx: Context, id: string, s: Session, run: set<Name>, m: Message)
    requires OwnAttempt(s) && m.body.Progress?
    ensures HeardQuietly(s, m.body, OnProgress(cx, id, s, run, m))
  {
    hide EffectiveStatus, Clamp;
  }

  lemma ActiveHeard(id: string, s: Session, m: Message)
    requires s.phase == ACTIVE && ForActive(m.body)
    ensures HeardQuietly(s, m.body, OnActive(id, s, m))
  {
    hide EffectiveReason, EffectiveAnsweredBy, Less;
  }

  lemma OthersQuiet(cx: Context, id: string, s: Session, run: set<Name>, m: Message)
    requires SessionOk(s) && s.role == Initiator && !IsAnswer(m.body) && !m.body.Invite?
    ensures HeardQuietly(s, m.body, Received(cx, id, s, run, m))
  {
    hide EffectiveReason, EffectiveAnsweredBy, OnProgress, OnActive;
    if OwnAttempt(s) && m.body.Progress? { ProgressHeard(cx, id, s, run, m); }
    else if s.phase == ACTIVE && ForActive(m.body) { ActiveHeard(id, s, m); }
  }

  lemma OthersHeard(cx: Context, id: string, s: Session, run: set<Name>, m: Message)
    requires SessionOk(s) && s.role == Initiator && !IsAnswer(m.body) && !m.body.Invite?
    ensures var o := Received(cx, id, s, run, m); Hears(s, o.s, Mail(m.from, m.body), Sends(o.ops)) && o.s.role == Initiator
  {
    hide Received, Sends, SessionOk;
    var o := Received(cx, id, s, run, m);
    OthersQuiet(cx, id, s, run, m);
    SendsKinds(o.ops);
  }

  /** A bye from a leg that is not the peer, taken while the peer is still in the call. */
  predicate StrayBye(n: Net, ev: Event) {
    && ev.BossReceives? && n.home != [] && n.home[0].body.Bye?
    && n.boss.s.phase == ACTIVE && n.boss.s.peer.Some? && n.boss.s.peer != Some(n.home[0].peer)
    && n.boss.s.peer.value in n.legs && n.legs[n.boss.s.peer.value].s.phase == ACTIVE
  }

  /** Taking one mail off the front of `home` and putting `sends` on the end of `out`. */
  lemma HearsFlight(n: Net, sends: seq<Mail>, n': Net, d: string)
    requires n.home != [] && n'.home == n.home[1..] && n'.out == n.out + sends && n'.up == n.up && n'.down == n.down
    ensures var m := n.home[0];
            && FlightOf(n, d).line == (if m.peer == d then Word(m.body) else []) + FlightOf(n', d).line
            && FlightOf(n', d).farewells >= FlightOf(n, d).farewells
            && FlightOf(n', d).cancels >= FlightOf(n, d).cancels
            && (FlightOf(n', d).farewells > FlightOf(n, d).farewells <==> exists x :: x in sends && Concerns(x, d) && Is(KBye, x.body))
            && (FlightOf(n', d).cancels > FlightOf(n, d).cancels <==> exists x :: x in sends && Concerns(x, d) && Is(KCancel, x.body))
  {
    hide Talk, TalkOf, CountMail, Count, Is, Concerns, Word;
    TalkOfHead(n.home, d);
    MailAppend(n.out, sends, d, KBye);
    MailAppend(n.out, sends, d, KCancel);
    MailNone(sends, d, KBye);
    MailNone(sends, d, KCancel);
  }

  /** How taking `m` and sending `sends` changes what is in flight for leg `d`. */
  ghost predicate Taken(m: Mail, sends: seq<Mail>, d: string, c: Flight, c': Flight, told: bool, told': bool) {
    && !m.body.Invite?
    && c.line == (if m.peer == d then Word(m.body) else []) + c'.line
    && c'.farewells >= c.farewells && c'.cancels >= c.cancels
    && (c'.farewells > c.farewells <==> exists x :: x in sends && Concerns(x, d) && Is(KBye, x.body))
    && (c'.cancels > c.cancels <==> exists x :: x in sends && Concerns(x, d) && Is(KCancel, x.body))
    && (told' <==> told || (m.peer == d && IsAnswer(m.body) && exists x :: x in sends && x.peer == m.peer && x.body.Bye?))
  }

  lemma AppliedFits(s: Session, t: Session, m: Mail, sends: seq<Mail>, d: string, leg: Option<Session>, c: Flight, c': Flight,
                    sent: bool, told: bool, told': bool)
    requires Pending(s) && s.peer == None && IsAnswer(m.body)
    requires LegFits(s, d, leg, c, sent, told) && Hears(s, t, m, sends) && Taken(m, sends, d, c, c', told, told')
    ensures LegFits(t, d, leg, c', sent, told')
  {
    hide EffectiveReason;
    ShapeBye(sent, KBye in c.line);
    if m.peer == d { ShapeHead(sent, KBye in c.line, KAnswer, c.line, c'.line); } else { assert c.line == c'.line; }
  }

  lemma RefusedFits(s: Session, t: Session, m: Mail, sends: seq<Mail>, d: string, leg: Option<Session>, c: Flight, c': Flight,
                    sent: bool, told: bool, told': bool)
    requires !Pending(s) && IsAnswer(m.body) && s.peer != Some(m.peer)
    requires LegFits(s, d, leg, c, sent, told) && Hears(s, t, m, sends) && Taken(m, sends, d, c, c', told, told')
    ensures LegFits(t, d, leg, c', sent, told')
  {
    hide EffectiveReason;
    var answer := sent && s.peer != Some(d) && !told;
    ShapeBye(answer, KBye in c.line);
    assert forall x :: x in sends <==> x == sends[0];
    if m.peer == d { ShapeHead(answer, KBye in c.line, KAnswer, c.line, c'.line); } else { assert c.line == c'.line; }
  }

  lemma OtherFits(s: Session, t: Session, m: Mail, sends: seq<Mail>, d: string, leg: Option<Session>, c: Flight, c': Flight,
                  sent: bool, told: bool, told': bool)
    requires !IsAnswer(m.body) && (Pending(s) ==> s.peer == None)
    requires LegFits(s, d, leg, c, sent, told) && Hears(s, t, m, sends) && Taken(m, sends, d, c, c', told, told')
    ensures var stray := s.phase == ACTIVE && m.body.Bye? && s.peer == Some(d) && m.peer != d && leg.Some? && leg.value.phase == ACTIVE;
            LegFits(t, d, leg, c', sent, told') <==> !stray
  {
    hide EffectiveReason;
    var answer := sent && s.peer != Some(d) && !told;
    ShapeBye(answer, KBye in c.line);
    if m.peer == d && m.body.Bye? {
      ShapeHead(answer, KBye in c.line, KBye, c.line, c'.line);
    } else {
      assert Word(m.body) == [] || m.peer != d;
      assert c.line == c'.line;
    }
    assert c'.farewells == c.farewells;
  }

  lemma PendingAlone(s: Session)
    requires SessionOk(s) && Pending(s)
    ensures s.peer == None
  {
  }

  lemma HearsTaken(n: Net, cx: Context, d: string)
    requires n.home != [] && !n.home[0].body.Invite?
    ensures var n', o := BossHears(n, cx), Heard(n, cx);
            && n'.boss.s == o.s && n'.legs == n.legs && n'.sent == n.sent && LegOf(n', d) == LegOf(n, d)
            && Taken(n.home[0], Sends(o.ops), d, FlightOf(n, d), FlightOf(n', d), d in n.told, d in n'.told)
  {
    hide Received, Sends, RunAfter, FlightOf, Word, Is, Concerns;
    HearsFlight(n, Sends(Heard(n, cx).ops), BossHears(n, cx), d);
  }

  lemma HearsAgree(n: Net, cx: Context, d: string)
    requires BossOk(n.boss) && n.home != [] && LegAgrees(n, d) && LegAgrees(n, n.home[0].peer)
    ensures LegAgrees(BossHears(n, cx), d) <==> !(StrayBye(n, BossReceives(cx)) && n.boss.s.peer == Some(d))
  {
    hide Received, Sends, RunAfter, FlightOf, TimersFit, Hears, TalkOf, Talk, LegFits, SessionOk, EffectiveReason, Taken;
    var m := n.home[0];
    HeadSaid(n);
    if !m.body.Invite? {
      var o := Heard(n, cx);
      var sends := Sends(o.ops);
      if IsAnswer(m.body) { AnswerHeard(cx, n.id, n.boss.s, n.boss.run, Message(m.peer, "", n.id, m.body)); }
      else { OthersHeard(cx, n.id, n.boss.s, n.boss.run, Message(m.peer, "", n.id, m.body)); }
      HearsTaken(n, cx, d);
      var n' := BossHears(n, cx);
      hide BossHears, Heard;
      var s, leg, c, c' := n.boss.s, LegOf(n, d), FlightOf(n, d), FlightOf(n', d);
      if Pending(s) { PendingAlone(s); }
      if !IsAnswer(m.body) { OtherFits(s, o.s, m, sends, d, leg, c, c', d in n.sent, d in n.told, d in n'.told); }
      else if Pending(s) { AppliedFits(s, o.s, m, sends, d, leg, c, c', d in n.sent, d in n.told, d in n'.told); }
      else { RefusedFits(s, o.s, m, sends, d, leg, c, c', d in n.sent, d in n.told, d in n'.told); }
    }
  }

  /** The first mail home is no invite, and an answer there is not yet applied. */
  lemma HeadSaid(n: Net)
    requires n.home != [] && LegAgrees(n, n.home[0].peer)
    ensures !n.home[0].body.Invite?
    ensures IsAnswer(n.home[0].body) ==> n.boss.s.peer != Some(n.home[0].peer) && n.home[0].peer !in n.told && n.home[0].peer in n.sent
  {
    hide TalkOf, Talk, CountMail, Count;
    var m := n.home[0];
    TalkOfHead(n.home, m.peer);
    var line := FlightOf(n, m.peer).line;
    if IsAnswer(m.body) || m.body.Invite? { assert line[0] == Word(m.body)[0]; }
  }

  // ---- what a leg does

  /** A leg answers once, on entering the call, and leaves it with a bye or because it was told to. */
  ghost predicate LegMoves(s: Session, t: Session, talk: seq<Kind>, b: Option<Body>) {
    && t.role == s.role
    && (t.phase == ACTIVE && s.phase != ACTIVE ==> s.phase == ALERTING && talk == [KAnswer])
    && (t.phase == ACTIVE && s.phase == ACTIVE ==> talk == [])
    && (t.phase != ACTIVE && s.phase != ACTIVE ==> talk == [])
    && (s.phase == ACTIVE && t.phase != ACTIVE ==>
          t.phase == ENDED && (talk == [KBye] || (talk == [] && b.Some? && (Is(KBye, b.value) || Is(KCancel, b.value)))))
    && (s.phase == ACTIVE && b.Some? && b.value.Bye? ==> t.phase == ENDED)
    && (s.phase == ENDED ==> t.phase == ENDED)
  }

  lemma LegFitsAfter(boss: Session, d: string, s: Session, t: Session, talk: seq<Kind>, b: Option<Body>, c: Flight, c': Flight,
                     sent: bool, told: bool, sent': bool)
    requires SessionOk(boss) && SessionOk(s)
    requires LegFits(boss, d, Some(s), c, sent, told) && LegMoves(s, t, talk, b)
    requires c'.line == c.line + talk
    requires c.farewells == c'.farewells + if b.Some? && Is(KBye, b.value) then 1 else 0
    requires c.cancels == c'.cancels + if b.Some? && Is(KCancel, b.value) then 1 else 0
    requires sent' <==> sent || KAnswer in talk
    ensures LegFits(boss, d, Some(t), c', sent', told)
  {
    hide SessionOk, EffectiveReason;
    var answer := sent && boss.peer != Some(d) && !told;
    ShapeBye(answer, KBye in c.line);
    if talk == [] {
      assert c'.line == c.line;
    } else if talk == [KAnswer] {
      assert !sent;
      assert c.line == [];
      assert c'.line == [KAnswer];
    } else {
      assert talk == [KBye];
      assert KBye !in c.line;
      assert c'.line == Shape(answer, true);
      assert KBye in talk;
    }
  }

  /** `n'` is `n` with `bodies` added to what leg `d` said and perhaps the head of its own link taken. */
  ghost predicate LegLinks(n: Net, n': Net, d: string, bodies: seq<Body>, b: Option<Body>) {
    && n'.boss == n.boss && n'.home == n.home && n'.out == n.out && n'.told == n.told && n'.self == n.self
    && Queue(n'.up, d) == Queue(n.up, d) + bodies
    && (if b.Some? then Queue(n.down, d) != [] && Queue(n.down, d)[0] == b.value && Queue(n'.down, d) == Queue(n.down, d)[1..]
        else Queue(n'.down, d) == Queue(n.down, d))
    && (forall x :: x != d ==> Queue(n'.up, x) == Queue(n.up, x) && Queue(n'.down, x) == Queue(n.down, x))
    && (forall x :: x != d ==> (x in n'.sent <==> x in n.sent))
  }

  lemma LegFlight(n: Net, n': Net, d: string, bodies: seq<Body>, b: Option<Body>)
    requires LegLinks(n, n', d, bodies, b)
    ensures FlightOf(n', d).line == FlightOf(n, d).line + Talk(bodies)
    ensures FlightOf(n, d).farewells == FlightOf(n', d).farewells + if b.Some? && Is(KBye, b.value) then 1 else 0
    ensures FlightOf(n, d).cancels == FlightOf(n', d).cancels + if b.Some? && Is(KCancel, b.value) then 1 else 0
    ensures forall x :: x != d ==> FlightOf(n', x) == FlightOf(n, x)
  {
    hide Talk, TalkOf, Count, CountMail, Is, EffectiveReason;
    TalkAppend(Queue(n.up, d), bodies);
    if b.Some? {
      CountHead(Queue(n.down, d), KBye);
      CountHead(Queue(n.down, d), KCancel);
    }
  }

  lemma {:induction false} TalkIn(q: seq<Body>)
    ensures KAnswer in Talk(q) <==> exists b :: b in q && IsAnswer(b)
  {
    if q != [] {
      var front, last := q[..|q| - 1], q[|q| - 1];
      TalkIn(front);
      assert q == front + [last];
      assert IsAnswer(last) <==> KAnswer in Word(last);
      if IsAnswer(last) { assert last in q; }
    }
  }

  /** A leg takes an outcome up. */
  lemma LegTakesAgrees(n: Net, r: Net, d: string, run: set<Name>, o: Outcome, b: Option<Body>, x: string)
    requires LegAgrees(n, x) && BossOk(n.boss) && d in n.legs && SessionOk(n.legs[d].s)
    requires LegLinks(n, r, d, [], b) && r.legs == n.legs && r.sent == n.sent
    requires LegMoves(n.legs[d].s, o.s, Talk(Bodies(Sends(o.ops))), b)
    ensures LegAgrees(LegTakes(r, d, run, o), x)
  {
    hide LegFits, FlightOf, LegMoves, RunAfter, Talk, Sends, SessionOk, TimersFit;
    var n' := LegTakes(r, d, run, o);
    var bodies := Bodies(Sends(o.ops));
    assert Queue(r.up, d) + bodies == Queue(n.up, d) + bodies by { assert Queue(n.up, d) + [] == Queue(n.up, d); }
    LegFlight(n, n', d, bodies, b);
    TalkIn(bodies);
    if x == d {
      LegFitsAfter(n.boss.s, d, n.legs[d].s, o.s, Talk(bodies), b, FlightOf(n, d), FlightOf(n', d),
                   d in n.sent, d in n.told, d in n'.sent);
    }
  }

  function TalkOps(ops: seq<Op>): seq<Kind> {
    Talk(Bodies(Sends(ops)))
  }

  /** What operations say is what their sends say, in order. */
  lemma {:induction false} TalkOpsAppend(a: seq<Op>, b: seq<Op>)
    ensures TalkOps(a + b) == TalkOps(a) + TalkOps(b)
  {
    SendsAppend(a, b);
    assert Bodies(Sends(a) + Sends(b)) == Bodies(Sends(a)) + Bodies(Sends(b));
    TalkAppend(Bodies(Sends(a)), Bodies(Sends(b)));
  }

  lemma {:induction false} SendsAppend(a: seq<Op>, b: seq<Op>)
    ensures Sends(a + b) == Sends(a) + Sends(b)
  {
    if b == [] {
      assert a + b == a;
    } else {
      assert (a + b)[..|a + b| - 1] == a + b[..|b| - 1];
      SendsAppend(a, b[..|b| - 1]);
    }
  }

  lemma TalkOpsOne(op: Op)
    ensures TalkOps([op]) == if op.Send? then Word(op.body) else []
  {
    SendsOne(op);
    if op.Send? {
      assert Bodies([Mail(op.to, op.body)]) == [op.body];
      TalkOne(op.body);
    }
  }

  predicate Mute(ops: seq<Op>) {
    forall op :: op in ops && op.Send? ==> Word(op.body) == []
  }

  lemma {:induction false} MuteSays(ops: seq<Op>)
    requires Mute(ops)
    ensures TalkOps(ops) == []
  {
    if ops != [] {
      var front, last := ops[..|ops| - 1], ops[|ops| - 1];
      MuteSays(front);
      TalkOpsAppend(front, [last]);
      TalkOpsOne(last);
      assert ops == front + [last];
    }
  }

  lemma LegAcceptTalk(id: string, s: Session, run: set<Name>, v: Verb)
    requires v.Accept?
    ensures TalkOps(StopIf(run, TRingLocal) + [Send(s.to, id, Answer(v.answeredBy, None)), MediaStart]) == [KAnswer]
  {
    hide TalkOps, Talk, Sends;
    var ops := StopIf(run, TRingLocal);
    var answer := Send(s.to, id, Answer(v.answeredBy, None));
    MuteSays(ops);
    MuteSays([MediaStart]);
    TalkOpsOne(answer);
    TalkOpsAppend([answer], [MediaStart]);
    TalkOpsAppend(ops, [answer] + [MediaStart]);
    assert [answer] + [MediaStart] == [answer, MediaStart];
  }

  lemma LegHangUpTalk(id: string, s: Session, v: Verb)
    requires v.HangUp?
    ensures TalkOps([Send(PeerOf(s), id, Bye(Or(v.byeReason, "user.hangup")))] + EndOps(s, None)) == [KBye]
  {
    hide TalkOps, Talk, Sends;
    var bye := Send(PeerOf(s), id, Bye(Or(v.byeReason, "user.hangup")));
    MuteSays(EndOps(s, None));
    TalkOpsOne(bye);
    TalkOpsAppend([bye], EndOps(s, None));
  }

  lemma LegRequestMoves(cx: Context, now: int, id: string, s: Session, run: set<Name>, v: Verb)
    requires SessionOk(s) && s.role == Responder
    ensures var o := Requested(cx, now, id, s, run, v); LegMoves(s, o.s, TalkOps(o.ops), None)
  {
    hide TalkOps, Talk, Sends;
    var o := Requested(cx, now, id, s, run, v);
    if v.Accept? && s.phase == ALERTING {
      LegAcceptTalk(id, s, run, v);
    } else if v.HangUp? && s.phase == ACTIVE {
      LegHangUpTalk(id, s, v);
    } else {
      MuteSays(o.ops);
    }
  }

  lemma LegFiresMove(id: string, s: Session)
    requires SessionOk(s) && s.phase == ALERTING
    ensures var o := Fired(TRingLocal, id, s); LegMoves(s, o.s, TalkOps(o.ops), None)
  {
    hide TalkOps;
    MuteSays(Fired(TRingLocal, id, s).ops);
  }

  lemma LegReceiveMoves(cx: Context, id: string, s: Session, run: set<Name>, m: Message)
    requires SessionOk(s) && s.role == Responder && !m.body.Invite?
    ensures var o := Received(cx, id, s, run, m); LegMoves(s, o.s, TalkOps(o.ops), Some(m.body))
  {
    hide TalkOps, EffectiveReason, EffectiveAnsweredBy, Less;
    MuteSays(Received(cx, id, s, run, m).ops);
  }

  // ---- the leg steps keep agreement

  lemma LegPartyKeeps(self: string, p: Party, run: set<Name>, o: Outcome)
    requires LegOk(self, p) && StepKeeps(p.s, run, o)
    ensures LegOk(self, Party(o.s, RunAfter(run, o.ops)))
  {
  }

  lemma LegStepAgrees(n: Net, r: Net, d: string, run: set<Name>, o: Outcome, b: Option<Body>)
    requires Agreement(n) && d in n.legs
    requires LegLinks(n, r, d, [], b) && r.legs == n.legs && r.sent == n.sent && r.boss == n.boss && r.self == n.self
    requires LegMoves(n.legs[d].s, o.s, TalkOps(o.ops), b) && StepKeeps(n.legs[d].s, run, o)
    ensures Agreement(LegTakes(r, d, run, o))
  {
    hide LegAgrees, LegMoves, StepKeeps, RunAfter, SessionOk, TimersFit, LegLinks;
    var n' := LegTakes(r, d, run, o);
    assert LegOk(n.self, n.legs[d]);
    LegPartyKeeps(n.self, n.legs[d], run, o);
    forall x ensures LegAgrees(n', x) {
      LegTakesAgrees(n, r, d, run, o, b, x);
    }
  }

  /** A device that had no session takes one up without having answered. */
  lemma LegJoinsAgrees(n: Net, r: Net, d: string, o: Outcome, b: Body)
    requires Agreement(n) && d !in n.legs && !b.Bye? && !b.Cancel?
    requires LegLinks(n, r, d, [], Some(b)) && r.legs == n.legs && r.sent == n.sent && r.boss == n.boss && r.self == n.self
    requires o.s.phase == OFFERED || o.s.phase == ENDED
    requires LegOk(n.self, Party(o.s, {})) && TalkOps(o.ops) == [] && RunAfter({}, o.ops) == {}
    ensures Agreement(LegTakes(r, d, {}, o))
  {
    hide LegFits, FlightOf, RunAfter, Talk, Sends, SessionOk, TimersFit;
    var n' := LegTakes(r, d, {}, o);
    var bodies := Bodies(Sends(o.ops));
    assert Queue(r.up, d) == Queue(n.up, d) by { assert Queue(n.up, d) + [] == Queue(n.up, d); }
    assert n'.sent == n.sent by { TalkIn(bodies); }
    assert LegLinks(n, n', d, bodies, Some(b));
    LegFlight(n, n', d, bodies, Some(b));
    assert FlightOf(n', d).line == FlightOf(n, d).line;
    forall x ensures LegAgrees(n', x) {
      assert LegAgrees(n, x);
      if x == d { JoinedFits(n.boss.s, d, o.s, FlightOf(n, d), FlightOf(n', d), d in n.sent, d in n.told); }
    }
  }

  lemma JoinedFits(boss: Session, d: string, t: Session, c: Flight, c': Flight, sent: bool, told: bool)
    requires LegFits(boss, d, None, c, sent, told) && (t.phase == OFFERED || t.phase == ENDED)
    requires c'.line == c.line && c'.farewells == c.farewells && c'.cancels == c.cancels
    ensures LegFits(boss, d, Some(t), c', sent, told)
  {
  }

  lemma LegHearsAgrees(n: Net, d: string, refusal: Option<string>)
    requires Agreement(n) && Queue(n.down, d) != []
    ensures Agreement(LegHears(n, d, refusal))
  {
    hide LegAgrees, LegMoves, StepKeeps, SessionOk, TimersFit, TalkOps, RunAfter;
    var b := Queue(n.down, d)[0];
    var r := n.(down := n.down[d := Queue(n.down, d)[1..]]);
    assert LegLinks(n, r, d, [], Some(b)) by { assert Queue(n.up, d) + [] == Queue(n.up, d); }
    hide LegLinks;
    var m := Message(n.self, "", n.id, b);
    if d !in n.legs {
      if b.Invite? {
        NewLegOps(n, refusal, b.expiresAt);
        if refusal.Some? {
          LegJoinsAgrees(n, r, d, Outcome(NewOffer(ENDED, n.self, b.expiresAt), [Send(n.self, n.id, Reject(refusal.value, None))]), b);
        } else {
          LegJoinsAgrees(n, r, d, Outcome(NewOffer(OFFERED, n.self, b.expiresAt), [Ui("offered", "")]), b);
        }
      } else {
        StrangerAgrees(n, d);
      }
    } else {
      var s, run := n.legs[d].s, n.legs[d].run;
      assert LegOk(n.self, n.legs[d]);
      if b.Invite? {
        var o := Outcome(s, [if s.phase == ENDED then Drop("ended-session") else InvalidState(m)]);
        SecondInviteMoves(s, run, m);
        LegStepAgrees(n, r, d, run, o, Some(b));
      } else {
        var cx := Context(d, map[], None, None, None, false, {});
        ReceivedKeeps(cx, n.id, s, run, m);
        LegReceiveMoves(cx, n.id, s, run, m);
        LegStepAgrees(n, r, d, run, Received(cx, n.id, s, run, m), Some(b));
      }
    }
  }

  lemma NewLegOps(n: Net, refusal: Option<string>, expires: Option<int>)
    ensures LegOk(n.self, Party(NewOffer(OFFERED, n.self, expires), {})) && LegOk(n.self, Party(NewOffer(ENDED, n.self, expires), {}))
    ensures TalkOps([Ui("offered", "")]) == [] && RunAfter({}, [Ui("offered", "")]) == {}
    ensures refusal.Some? ==>
              var ops := [Send(n.self, n.id, Reject(refusal.value, None))]; TalkOps(ops) == [] && RunAfter({}, ops) == {}
  {
    MuteSays([Ui("offered", "")]);
    OneRun({}, Ui("offered", ""));
    if refusal.Some? {
      MuteSays([Send(n.self, n.id, Reject(refusal.value, None))]);
      OneRun({}, Send(n.self, n.id, Reject(refusal.value, None)));
    }
  }

  lemma SecondInviteMoves(s: Session, run: set<Name>, m: Message)
    requires SessionOk(s) && TimersFit(s, run) && m.body.Invite?
    ensures var o := Outcome(s, [if s.phase == ENDED then Drop("ended-session") else InvalidState(m)]);
            LegMoves(s, o.s, TalkOps(o.ops), Some(m.body)) && StepKeeps(s, run, o)
  {
    var o := Outcome(s, [if s.phase == ENDED then Drop("ended-session") else InvalidState(m)]);
    MuteSays(o.ops);
    OneRun(run, o.ops[0]);
  }

  /** A message other than the invite to a device with no session is refused at most. */
  lemma StrangerAgrees(n: Net, d: string)
    requires Agreement(n) && Queue(n.down, d) != [] && d !in n.legs && !Queue(n.down, d)[0].Invite?
    ensures Agreement(LegHears(n, d, None))
    ensures forall refusal :: LegHears(n, d, refusal) == LegHears(n, d, None)
  {
    hide LegFits, FlightOf, BossOk, LegOk;
    var b := Queue(n.down, d)[0];
    var n' := LegHears(n, d, None);
    var bodies := if b.Error? then [] else [Error("session.unknown-session", "")];
    assert LegLinks(n, n', d, bodies, Some(b)) by { assert Queue(n.up, d) + [] == Queue(n.up, d); }
    LegFlight(n, n', d, bodies, Some(b));
    assert Talk(bodies) == [] by { if bodies != [] { TalkOne(bodies[0]); } }
    forall x ensures LegAgrees(n', x) {
      assert LegAgrees(n, x);
      if x == d { StrangerFits(n.boss.s, d, FlightOf(n, d), FlightOf(n', d), d in n.sent, d in n.told); }
    }
  }

  lemma StrangerFits(boss: Session, d: string, c: Flight, c': Flight, sent: bool, told: bool)
    requires LegFits(boss, d, None, c, sent, told)
    requires c'.line == c.line + [] && c'.farewells <= c.farewells && c'.cancels <= c.cancels
    ensures LegFits(boss, d, None, c', sent, told)
  {
    assert c'.line == c.line;
  }

  // ---- what the relay passes on

  /** An emission that neither answers nor hangs up for a leg, nor ends a leg the initiator still wants. */
  predicate Harmless(boss: Session, e: Relays.Emission) {
    && !e.Deliver?
    && (e.Forward? ==> Word(e.body) == [])
    && (e.DeliverCancel? ==> boss.phase == ENDED || !Is(KCancel, Cancel(e.reason)))
  }

  lemma PostAgrees(n: Net, e: Relays.Emission, d: string)
    requires LegAgrees(n, d) && Harmless(n.boss.s, e)
    ensures LegAgrees(Post(n, e), d)
  {
    hide Count, CountMail, Talk, TalkOf, EffectiveReason;
    var n' := Post(n, e);
    var mails := if e.Forward? then [Mail(e.from, e.body)]
                 else if e.NoResponse? then [Mail(RELAY, Error("transport.no-response", n.id))] else [];
    var bodies := if e.DeliverInvite? && e.leg == d then [Invite(n.relay.to, n.relay.expires)]
                  else if e.DeliverCancel? && e.leg == d then [Cancel(e.reason)] else [];
    assert n'.home == n.home + mails;
    assert Queue(n'.down, d) == Queue(n.down, d) + bodies;
    TalkOfAppend(n.home, mails, d);
    assert TalkOf(mails, d) == [] by { if mails != [] { TalkOfHead(mails, d); assert mails[1..] == []; EmptyCounts(d); } EmptyCounts(d); }
    CountAppend(Queue(n.down, d), bodies, KBye);
    CountAppend(Queue(n.down, d), bodies, KCancel);
    EmptyCounts(d);
    if bodies != [] { CountOne(bodies[0], KBye); CountOne(bodies[0], KCancel); }
    assert TalkOf(n.home, d) + [] == TalkOf(n.home, d);
  }

  lemma EmptyCounts(d: string)
    ensures TalkOf([], d) == [] && Count([], KBye) == 0 && Count([], KCancel) == 0 && Talk([]) == []
  {
  }

  lemma PostFrame(n: Net, e: Relays.Emission)
    ensures var n' := Post(n, e); n'.boss == n.boss && n'.legs == n.legs && n'.self == n.self && n'.relay == n.relay
  {
    hide Queue;
  }

  lemma {:induction false} PostAllAgrees(n: Net, emit: seq<Relays.Emission>)
    requires Agreement(n) && forall e :: e in emit ==> Harmless(n.boss.s, e)
    ensures Agreement(PostAll(n, emit)) && PostAll(n, emit).boss == n.boss && PostAll(n, emit).relay == n.relay
  {
    hide Harmless, LegAgrees, BossOk, LegOk, Post;
    if emit != [] {
      PostAllAgrees(n, emit[..|emit| - 1]);
      var m := PostAll(n, emit[..|emit| - 1]);
      PostFrame(m, emit[|emit| - 1]);
      forall d ensures LegAgrees(PostAll(n, emit), d) { PostAgrees(m, emit[|emit| - 1], d); }
    }
  }

  /** A relay step that says only harmless things. */
  lemma RelayTakesAgrees(n: Net, s: Relays.AttemptStep)
    requires Agreement(n) && forall e :: e in s.emit ==> Harmless(n.boss.s, e)
    ensures Agreement(RelayTakes(n, s))
  {
    hide LegFits, FlightOf, BossOk, LegOk, Harmless;
    var m := n.(relay := s.a);
    forall d ensures LegAgrees(m, d) {
      assert LegAgrees(n, d);
      SameFlight(n, m, d);
    }
    PostAllAgrees(m, s.emit);
  }

  lemma SameFlight(n: Net, m: Net, d: string)
    requires m.home == n.home && m.up == n.up && m.down == n.down && m.out == n.out
    ensures FlightOf(m, d) == FlightOf(n, d)
  {
  }

  lemma EndsHarmlessly(boss: Session, session: string, a: Relays.Attempt, leg: string, state: Relays.LegState)
    ensures forall e :: e in Relays.LegEnded(session, a, leg, state).emit ==> Harmless(boss, e)
  {
  }

  lemma {:induction false} ExpiresHarmlessly(boss: Session, session: string, a: Relays.Attempt, legs: seq<string>)
    ensures forall e :: e in Relays.ExpireEach(session, a, legs).emit ==> Harmless(boss, e)
  {
    if legs != [] {
      ExpiresHarmlessly(boss, session, a, legs[..|legs| - 1]);
      var r := Relays.ExpireEach(session, a, legs[..|legs| - 1]);
      EndsHarmlessly(boss, session, r.a, legs[|legs| - 1], Relays.LegExpired);
    }
  }

  /** Passing the head of `out` on, or letting it go when it is a cancel, leaves every leg where it stands. */
  lemma OutHeadAgrees(n: Net, n': Net, d: string, passed: bool)
    requires LegAgrees(n, d) && n.out != []
    requires n'.boss == n.boss && n'.legs == n.legs && n'.sent == n.sent && n'.told == n.told
    requires n'.home == n.home && n'.up == n.up && n'.out == n.out[1..]
    requires Queue(n'.down, d) == Queue(n.down, d) + (if passed then [n.out[0].body] else [])
    requires passed ==> Concerns(n.out[0], d)
    requires !passed ==> n.out[0].body.Cancel? || n.out[0].peer != d
    ensures LegAgrees(n', d)
  {
    hide Count, CountMail, Talk, TalkOf, EffectiveReason;
    MailHead(n.out, d, KBye);
    MailHead(n.out, d, KCancel);
    if passed {
      CountAppend(Queue(n.down, d), [n.out[0].body], KBye);
      CountAppend(Queue(n.down, d), [n.out[0].body], KCancel);
      CountOne(n.out[0].body, KBye);
      CountOne(n.out[0].body, KCancel);
    } else {
      assert Queue(n.down, d) + [] == Queue(n.down, d);
    }
  }

  lemma FromBossAgrees(n: Net, now: int)
    requires Agreement(n) && n.out != []
    ensures Agreement(RelayHearsBoss(n, now))
  {
    hide LegAgrees, BossOk, LegOk, RelayTakes;
    var m := n.out[0];
    var rest := n.(out := n.out[1..]);
    if m.body.Cancel? && (m.peer == n.relay.to || m.peer in n.relay.legs) {
      forall d ensures LegAgrees(rest, d) {
        assert Queue(n.down, d) + [] == Queue(n.down, d);
        OutHeadAgrees(n, rest, d, false);
      }
      var s := Relays.CancelAttempt(n.id, n.relay, now, Some(m.peer), m.body.reason);
      CancelsHarmlessly(n, now, m);
      RelayTakesAgrees(rest, s);
    } else {
      var n' := rest.(down := n.down[m.peer := Queue(n.down, m.peer) + [m.body]]);
      forall d ensures LegAgrees(n', d) {
        assert Queue(n.down, d) + [] == Queue(n.down, d);
        OutHeadAgrees(n, n', d, d == m.peer);
      }
    }
  }

  lemma CancelsHarmlessly(n: Net, now: int, m: Mail)
    requires Agreement(n) && n.out != [] && m == n.out[0] && m.body.Cancel?
    ensures forall e :: e in Relays.CancelAttempt(n.id, n.relay, now, Some(m.peer), m.body.reason).emit ==> Harmless(n.boss.s, e)
  {
    hide BossOk, LegOk, Relays.Cancels, Talk, TalkOf, CountMail, Count;
    assert LegAgrees(n, "");
    MailHead(n.out, "", KCancel);
    Relays.CancelEachEffect(n.id, n.relay.(touched := now), Some(m.peer), m.body.reason, Sorted(n.relay.legs.Keys));
  }

  /** What a leg said last reaches the initiator's link, or is left out if it is of no account. */
  lemma HeadMoves(home: seq<Mail>, q: seq<Body>, d: string, moved: bool)
    requires q != [] && (!moved ==> Word(q[0]) == [])
    ensures TalkOf(if moved then home + [Mail(d, q[0])] else home, d) + Talk(q[1..]) == TalkOf(home, d) + Talk(q)
  {
    hide Talk, TalkOf, Word;
    var b, tail := q[0], q[1..];
    assert q == [b] + tail;
    TalkAppend([b], tail);
    TalkOne(b);
    var said := TalkOf(home, d);
    if moved {
      MailTalk(home, d, b, d);
      assert said + (Word(b) + Talk(tail)) == (said + Word(b)) + Talk(tail);
    } else {
      assert [] + Talk(tail) == Talk(tail);
    }
  }

  lemma MailTalk(home: seq<Mail>, d: string, b: Body, x: string)
    ensures TalkOf(home + [Mail(d, b)], x) == TalkOf(home, x) + if x == d then Word(b) else []
  {
    hide Word;
    assert (home + [Mail(d, b)])[..|home|] == home;
  }

  /** A leg's word moves from its own link to the initiator's. */
  lemma UpHeadAgrees(n: Net, n': Net, d: string, moved: bool, x: string)
    requires LegAgrees(n, x) && Queue(n.up, d) != []
    requires n'.boss == n.boss && n'.legs == n.legs && n'.sent == n.sent && n'.told == n.told
    requires n'.down == n.down && n'.out == n.out
    requires n'.up == n.up[d := Queue(n.up, d)[1..]]
    requires n'.home == if moved then n.home + [Mail(d, Queue(n.up, d)[0])] else n.home
    requires !moved ==> Word(Queue(n.up, d)[0]) == []
    ensures LegAgrees(n', x)
  {
    hide Count, CountMail, Talk, TalkOf, Is, Word, LegFits;
    if x == d {
      HeadMoves(n.home, Queue(n.up, d), d, moved);
    } else if moved {
      MailTalk(n.home, d, Queue(n.up, d)[0], x);
      assert TalkOf(n.home, x) + [] == TalkOf(n.home, x);
    }
    assert Queue(n'.up, x) == if x == d then Queue(n.up, d)[1..] else Queue(n.up, x);
    assert FlightOf(n', x) == FlightOf(n, x);
  }

  lemma FromLegAgrees(n: Net, d: string, now: int)
    requires Agreement(n) && Queue(n.up, d) != []
    ensures Agreement(RelayHearsLeg(n, d, now))
  {
    hide LegAgrees, BossOk, LegOk, Relays.LegEnded;
    var b := Queue(n.up, d)[0];
    var rest := n.(up := n.up[d := Queue(n.up, d)[1..]]);
    var n' := RelayHearsLeg(n, d, now);
    if d in n.relay.legs && Relays.LegSpeaks(b) {
      var s := Relays.FromLeg(n.id, n.relay, now, Message(d, "", n.id, b));
      if b.Answer? {
        AnswerForwarded(n, d, now);
        forall x ensures LegAgrees(n', x) { UpHeadAgrees(n, n', d, true, x); }
      } else {
        forall x ensures LegAgrees(rest, x) { UpHeadAgrees(n, rest, d, false, x); }
        if b.Reject? && n.relay.legs[d] == Relays.Delivered {
          var h := n.relay.(touched := now, heard := n.relay.heard + {d});
          EndsHarmlessly(n.boss.s, n.id, h.(rejections := h.rejections + [Relays.Rejection(d, b.reason)]), d, Relays.LegRejected);
        }
        RelayTakesAgrees(rest, s);
      }
    } else {
      forall x ensures LegAgrees(n', x) { UpHeadAgrees(n, n', d, true, x); }
    }
  }

  lemma PostOne(n: Net, e: Relays.Emission)
    ensures PostAll(n, [e]) == Post(n, e)
  {
    assert [e][..0] == [];
    assert PostAll(n, []) == n;
  }

  /** An answer is never withheld. */
  lemma AnswerForwarded(n: Net, d: string, now: int)
    requires Queue(n.up, d) != [] && d in n.relay.legs && IsAnswer(Queue(n.up, d)[0])
    ensures var n' := RelayHearsLeg(n, d, now);
            n' == n.(up := n.up[d := Queue(n.up, d)[1..]], home := n.home + [Mail(d, Queue(n.up, d)[0])], relay := n'.relay)
  {
    var s := Relays.FromLeg(n.id, n.relay, now, Message(d, "", n.id, Queue(n.up, d)[0]));
    PostOne(n.(up := n.up[d := Queue(n.up, d)[1..]], relay := s.a), s.emit[0]);
  }

  // ---- the composition

  lemma BossKeeps(p: Party, run: set<Name>, o: Outcome)
    requires BossOk(p) && StepKeeps(p.s, run, o)
    ensures BossOk(Party(o.s, RunAfter(run, o.ops)))
  {
  }

  lemma BossMovesAgree(n: Net, run: set<Name>, o: Outcome)
    requires Agreement(n) && Moves(n.boss.s, o.s, Sends(o.ops)) && StepKeeps(n.boss.s, run, o)
    ensures Agreement(BossTakes(n, run, o))
  {
    hide LegAgrees, LegOk, Moves, StepKeeps, RunAfter, Sends, BossOk;
    BossKeeps(n.boss, run, o);
    forall d ensures LegAgrees(BossTakes(n, run, o), d) {
      MovesAgree(n, Party(o.s, RunAfter(run, o.ops)), Sends(o.ops), d);
    }
  }

  lemma YieldKeeps(id: string, s: Session, run: set<Name>)
    requires SessionOk(s) && OwnAttempt(s)
    ensures StepKeeps(s, run, Yielded(id, s, run))
  {
    hide StopAll, RunAfter;
    var cancel := [Send(s.to, id, Cancel("session.glare"))];
    StopAllRuns(run);
    QuietRuns(run, StopAll(run), cancel);
    FinishKeeps(s, s.(endedBy := ByCancel), run, StopAll(run) + cancel, Some("session.glare"));
  }

  lemma BossFiresAgrees(n: Net, name: Name)
    requires Agreement(n) && name in n.boss.run
    ensures Agreement(BossTakes(n, n.boss.run - {name}, Fired(name, n.id, n.boss.s)))
  {
    hide LegAgrees, LegOk, Moves, StepKeeps, RunAfter, Sends;
    assert OwnAttempt(n.boss.s) && name != TRingLocal;
    FiredKeeps(name, n.id, n.boss.s, n.boss.run);
    FiresMove(name, n.id, n.boss.s);
    BossMovesAgree(n, n.boss.run - {name}, Fired(name, n.id, n.boss.s));
  }

  lemma BossHearsAgrees(n: Net, cx: Context)
    requires Agreement(n) && n.home != []
    ensures Agreement(BossHears(n, cx)) <==> !StrayBye(n, BossReceives(cx))
  {
    hide LegAgrees, LegOk, StepKeeps, RunAfter, Sends, Received, Hears, TimersFit;
    var n' := BossHears(n, cx);
    var m := n.home[0];
    assert LegAgrees(n, m.peer);
    HeadSaid(n);
    ReceivedKeeps(cx, n.id, n.boss.s, n.boss.run, Message(m.peer, "", n.id, m.body));
    BossKeeps(n.boss, n.boss.run, Heard(n, cx));
    assert BossOk(n'.boss);
    forall d ensures LegAgrees(n', d) <==> !(StrayBye(n, BossReceives(cx)) && n.boss.s.peer == Some(d)) {
      HearsAgree(n, cx, d);
    }
    if StrayBye(n, BossReceives(cx)) { assert !LegAgrees(n', n.boss.s.peer.value); }
  }

  /** Every step keeps agreement, except one: the initiator taking a bye from a leg that lost while its peer is in the call. */
  lemma StepAgrees(n: Net, ev: Event)
    requires Agreement(n) && Enabled(n, ev)
    ensures Agreement(Step(n, ev)) <==> !StrayBye(n, ev)
  {
    hide Agreement, StepKeeps, Moves, LegMoves, TalkOps, LegLinks, RunAfter, RelayTakes, Harmless, LegTakes, BossTakes;
    match ev
    case BossRequests(cx, now, v) =>
      AgreementGives(n);
      RequestedKeeps(cx, now, n.id, n.boss.s, n.boss.run, v);
      RequestMoves(cx, now, n.id, n.boss.s, n.boss.run, v);
      BossMovesAgree(n, n.boss.run, Requested(cx, now, n.id, n.boss.s, n.boss.run, v));
    case BossFires(name) => BossFiresAgrees(n, name);
    case BossYields =>
      AgreementGives(n);
      YieldKeeps(n.id, n.boss.s, n.boss.run);
      YieldMoves(n.id, n.boss.s, n.boss.run);
      BossMovesAgree(n, n.boss.run, Yielded(n.id, n.boss.s, n.boss.run));
    case BossReceives(cx) => BossHearsAgrees(n, cx);
    case LegRequests(d, cx, now, v) => LegRequestsAgrees(n, d, cx, now, v);
    case LegFires(d) => LegFiresAgrees(n, d);
    case LegReceives(d, refusal) => LegHearsAgrees(n, d, refusal);
    case RelayFromBoss(now) => FromBossAgrees(n, now);
    case RelayFromLeg(d, now) => FromLegAgrees(n, d, now);
    case RelayExpires(now) =>
      ExpiresHarmlessly(n.boss.s, n.id, n.relay, Sorted(n.relay.legs.Keys));
      RelayTakesAgrees(n, Relays.ExpireAttempt(n.id, n.relay, now));
    case RelayLegExpired(d) =>
      EndsHarmlessly(n.boss.s, n.id, n.relay, d, Relays.LegExpired);
      RelayTakesAgrees(n, Relays.LegEnded(n.id, n.relay, d, Relays.LegExpired));
    case LegBinds(d, now) =>
      InviteHarmless(n, d);
      RelayTakesAgrees(n, Relays.AttemptStep(Relays.WithLeg(n.relay, d, now), [Relays.DeliverInvite(d, n.id)]));
  }

  lemma InviteHarmless(n: Net, d: string)
    ensures Harmless(n.boss.s, Relays.DeliverInvite(d, n.id))
  {
  }

  lemma AgreementGives(n: Net)
    requires Agreement(n)
    ensures BossOk(n.boss) && forall d :: d in n.legs ==> LegOk(n.self, n.legs[d])
  {
  }

  lemma LegRequestsAgrees(n: Net, d: string, cx: Context, now: int, v: Verb)
    requires Agreement(n) && d in n.legs
    ensures Agreement(Step(n, LegRequests(d, cx, now, v)))
  {
    hide Agreement, StepKeeps, LegMoves, TalkOps, RunAfter, LegTakes, Requested;
    AgreementGives(n);
    var s, run := n.legs[d].s, n.legs[d].run;
    assert LegLinks(n, n, d, [], None) by { assert Queue(n.up, d) + [] == Queue(n.up, d); }
    RequestedKeeps(cx, now, n.id, s, run, v);
    LegRequestMoves(cx, now, n.id, s, run, v);
    LegStepAgrees(n, n, d, run, Requested(cx, now, n.id, s, run, v), None);
  }

  lemma LegFiresAgrees(n: Net, d: string)
    requires Agreement(n) && d in n.legs && TRingLocal in n.legs[d].run
    ensures Agreement(Step(n, LegFires(d)))
  {
    hide Agreement, StepKeeps, LegMoves, TalkOps, RunAfter, LegTakes;
    AgreementGives(n);
    var s, run := n.legs[d].s, n.legs[d].run;
    assert LegLinks(n, n, d, [], None) by { assert Queue(n.up, d) + [] == Queue(n.up, d); }
    assert s.phase == ALERTING;
    FiredKeeps(TRingLocal, n.id, s, run);
    LegFiresMove(n.id, s);
    LegStepAgrees(n, n, d, run - {TRingLocal}, Fired(TRingLocal, n.id, s), None);
  }

  // ---- every run

  /** The relay has just forked the invite: every leg has it on its way, and nobody has said anything. */
  ghost predicate Forked(n: Net) {
    && BossOk(n.boss) && Pending(n.boss.s)
    && n.legs == map[] && n.up == map[] && n.home == [] && n.out == [] && n.sent == {} && n.told == {}
    && forall d, i :: d in n.down && 0 <= i < |n.down[d]| ==> n.down[d][i].Invite?
  }

  lemma ForkedAgrees(n: Net)
    requires Forked(n)
    ensures Agreement(n)
  {
    forall d ensures LegAgrees(n, d) {
      CountNone(Queue(n.down, d), KBye);
      CountNone(Queue(n.down, d), KCancel);
      EmptyCounts(d);
      assert CountMail(n.out, d, KBye) == 0 && CountMail(n.out, d, KCancel) == 0;
      assert FlightOf(n, d).line == [];
    }
  }

  ghost predicate Legal(n: Net, evs: seq<Event>)
    decreases |evs|
  {
    evs == [] || (Enabled(n, evs[0]) && Legal(Step(n, evs[0]), evs[1..]))
  }

  ghost predicate NoStray(n: Net, evs: seq<Event>)
    requires Legal(n, evs)
    decreases |evs|
  {
    evs == [] || (!StrayBye(n, evs[0]) && NoStray(Step(n, evs[0]), evs[1..]))
  }

  ghost function Run(n: Net, evs: seq<Event>): Net
    requires Legal(n, evs)
    decreases |evs|
  {
    if evs == [] then n else Run(Step(n, evs[0]), evs[1..])
  }

  lemma {:induction false} RunAgrees(n: Net, evs: seq<Event>)
    requires Agreement(n) && Legal(n, evs) && NoStray(n, evs)
    ensures Agreement(Run(n, evs))
    decreases |evs|
  {
    hide Agreement, StrayBye, Enabled, Step;
    if evs != [] {
      StepAgrees(n, evs[0]);
      RunAgrees(Step(n, evs[0]), evs[1..]);
    }
  }

  ghost predicate Drained(n: Net) {
    n.home == [] && n.out == [] && forall d :: Queue(n.up, d) == [] && Queue(n.down, d) == []
  }

  predicate InCall(n: Net, d: string) {
    d in n.legs && n.legs[d].s.phase == ACTIVE
  }

  /**
   * Once every link is empty, a leg is in the call exactly when the initiator is in a call with it, and each answer
   * a leg ever sent was either the one applied or met with a bye, never both and never neither.
   */
  lemma DrainedAgree(n: Net)
    requires Agreement(n) && Drained(n)
    ensures forall d :: InCall(n, d) <==> n.boss.s.phase == ACTIVE && n.boss.s.peer == Some(d)
    ensures forall d :: d in n.sent <==> (n.boss.s.peer == Some(d)) != (d in n.told)
  {
    forall d ensures InCall(n, d) <==> n.boss.s.phase == ACTIVE && n.boss.s.peer == Some(d)
             ensures d in n.sent <==> (n.boss.s.peer == Some(d)) != (d in n.told)
    {
      assert LegAgrees(n, d);
      assert Queue(n.up, d) == [] && Queue(n.down, d) == [];
      EmptyCounts(d);
      assert CountMail(n.out, d, KBye) == 0;
      assert FlightOf(n, d).line == [];
      assert !(d in n.sent && n.boss.s.peer != Some(d) && d !in n.told);
    }
  }

  /** The same for every run from the fork in which no stray bye is taken. */
  lemma EveryRunAgrees(n: Net, evs: seq<Event>)
    requires Forked(n) && Legal(n, evs) && NoStray(n, evs) && Drained(Run(n, evs))
    ensures var m := Run(n, evs);
            && (forall d :: InCall(m, d) <==> m.boss.s.phase == ACTIVE && m.boss.s.peer == Some(d))
            && (forall d :: d in m.sent <==> (m.boss.s.peer == Some(d)) != (d in m.told))
  {
    ForkedAgrees(n);
    RunAgrees(n, evs);
    DrainedAgree(Run(n, evs));
  }

  /** An answer reaching the initiator is applied, when it is the first, or met with a bye to the leg that sent it. */
  lemma AnswerMet(n: Net, cx: Context)
    requires Agreement(n) && n.home != [] && IsAnswer(n.home[0].body)
    ensures var n' := BossHears(n, cx);
            var d := n.home[0].peer;
            if Pending(n.boss.s) then n'.boss.s.phase == ACTIVE && n'.boss.s.peer == Some(d) && n'.told == n.told
            else n'.boss.s == n.boss.s && n'.told == n.told + {d} && d !in n.told && n.boss.s.peer != Some(d)
                 && |n'.out| == |n.out| + 1 && n'.out[|n.out|].peer == d && n'.out[|n.out|].body.Bye?
  {
    hide LegAgrees, LegOk, RunAfter, Sends, TimersFit;
    var m := n.home[0];
    assert LegAgrees(n, m.peer);
    HeadSaid(n);
    AnswerHeard(cx, n.id, n.boss.s, n.boss.run, Message(m.peer, "", n.id, m.body));
    if !Pending(n.boss.s) {
      var sends := Sends(Heard(n, cx).ops);
      assert sends[0] in sends;
    }
  }

  // ---- the relay's part is the relay's own `recv`

  function Enveloped(n: Net, from: string, to: string, b: Body): Relays.Envelope {
    Relays.CallEnvelope(Some(to), None, Message(from, "", n.id, b))
  }

  /** `r` holds the attempt, and the initiator and every leg are bound. */
  ghost predicate Holds(n: Net, r: Relays.Relay) {
    && n.id in r.attempts && r.attempts[n.id] == n.relay && n.relay.from == n.self
    && n.self in r.bound && n.self !in n.relay.legs && n.relay.legs.Keys <= r.bound.Keys
  }

  lemma RelayHearsLegAsRecv(n: Net, r: Relays.Relay, d: string)
    requires Holds(n, r) && Queue(n.up, d) != [] && d != n.self
    requires var b := Queue(n.up, d)[0]; !b.Invite? && !b.Cancel?
    ensures var b := Queue(n.up, d)[0];
            var s := Relays.OnCall(r, Enveloped(n, d, n.self, b));
            && n.id in s.r.attempts
            && RelayHearsLeg(n, d, r.now)
               == RelayTakes(n.(up := n.up[d := Queue(n.up, d)[1..]]), Relays.AttemptStep(s.r.attempts[n.id], s.emit))
  {
    var b := Queue(n.up, d)[0];
    var rest := n.(up := n.up[d := Queue(n.up, d)[1..]]);
    if !(d in n.relay.legs && Relays.LegSpeaks(b)) {
      PostOne(rest, Relays.Deliver(n.self, Enveloped(n, d, n.self, b)));
    }
  }

  lemma RelayHearsBossAsRecv(n: Net, r: Relays.Relay)
    requires Holds(n, r) && n.out != [] && !n.out[0].body.Invite?
    requires if n.out[0].body.Cancel? then n.out[0].peer == n.relay.to else n.out[0].peer in n.relay.legs
    ensures var m := n.out[0];
            var s := Relays.OnCall(r, Enveloped(n, n.self, m.peer, m.body));
            && n.id in s.r.attempts
            && RelayHearsBoss(n, r.now) == RelayTakes(n.(out := n.out[1..]), Relays.AttemptStep(s.r.attempts[n.id], s.emit))
  {
    var m := n.out[0];
    var rest := n.(out := n.out[1..]);
    if !m.body.Cancel? {
      PostOne(rest, Relays.Deliver(m.peer, Enveloped(n, n.self, m.peer, m.body)));
    }
  }
}
