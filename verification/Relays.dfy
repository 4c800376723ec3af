/**
 * The forking relay of `relay.ts`: an attempt's legs and outcome, binding, store-and-forward, and what the relay
 * signals to the initiator about an attempt.
 */
module Relays {
  import opened Prelude
  import opened Calls

  const ATTEMPT_IDLE_CAP := 1800

  datatype LegState = Delivered | LegAnswered | LegRejected | LegExpired | LegCancelled

  datatype Verdict = Open | OfAnswer | OfReject | OfCancel | OfSilence

  datatype Rejection = Rejection(leg: string, reason: string)

  datatype Attempt = Attempt(
    from: string,
    to: string,
    expires: Option<int>,
    legs: map<string, LegState>,
    outcome: Verdict,
    rejections: seq<Rejection>,
    touched: int,
    heard: set<string>)

  /** What the relay receives: a call message or an introduction, with its routing address. */
  datatype Envelope =
    | CallEnvelope(to: Option<string>, expiresAt: Option<int>, m: Message)
    | Introduction(to: Option<string>, expiresAt: Option<int>, from: string, id: string)

  datatype Queued = Parked(to: string, env: Envelope, until: int)

  datatype Relay = Relay(
    now: int,
    retention: int,
    bound: map<string, string>,
    known: set<string>,
    lastUnbound: map<string, int>,
    attempts: map<string, Attempt>,
    queue: seq<Queued>)

  datatype Emission =
    | DeliverInvite(leg: string, session: string)
    | DeliverCancel(leg: string, session: string, reason: string)
    | Deliver(leg: string, env: Envelope)
    | Forward(to: string, session: string, from: string, body: Body)
    | NoResponse(to: string, session: string)
    | UnknownRecipient(to: string, inReplyTo: string)
    | QueuedFor(to: string, env: Envelope)
    | Dequeued(to: string, env: Envelope, why: string)
    | DropTerminated

  datatype AttemptStep = AttemptStep(a: Attempt, emit: seq<Emission>)

  datatype RelayStep = RelayStep(r: Relay, emit: seq<Emission>)

  function Sender(env: Envelope): string {
    if env.CallEnvelope? then env.m.from else env.from
  }

  function EnvelopeId(env: Envelope): string {
    if env.CallEnvelope? then env.m.id else env.id
  }

  predicate IsInvite(env: Envelope) {
    env.CallEnvelope? && env.m.body.Invite?
  }

  // ---- one attempt

  predicate SomeLeg(legs: map<string, LegState>, s: LegState) {
    exists l :: l in legs && legs[l] == s
  }

  function NewAttemptFor(from: string, to: string, expires: Option<int>, now: int): Attempt {
    Attempt(from, to, expires, map[], Open, [], now, {})
  }

  function WithLeg(a: Attempt, leg: string, now: int): Attempt {
    a.(legs := a.legs[leg := Delivered], touched := now)
  }

  /** Most informative first; tokens outside the order rank last, by arrival. */
  function InformRank(reason: string): nat {
    if reason == "user.declined" then 0
    else if reason == "user.no-answer" then 1
    else if reason == "endpoint.busy" then 2
    else if reason == "endpoint.unavailable" then 3
    else 4
  }

  /** The earliest of the lowest-ranked rejections: the head of the stable sort. */
  function Best(rs: seq<Rejection>): (i: nat)
    requires rs != []
    ensures i < |rs|
    ensures forall j :: 0 <= j < |rs| ==> InformRank(rs[i].reason) <= InformRank(rs[j].reason)
    ensures forall j :: 0 <= j < i ==> InformRank(rs[i].reason) < InformRank(rs[j].reason)
  {
    if |rs| == 1 then 0
    else
      var i := Best(rs[..|rs| - 1]);
      if InformRank(rs[|rs| - 1].reason) < InformRank(rs[i].reason) then |rs| - 1 else i
  }

  /** A leg ends; when the last outstanding one does without an answer, the attempt's outcome is signalled. */
  function LegEnded(session: string, a: Attempt, leg: string, state: LegState): AttemptStep {
    if leg !in a.legs || a.legs[leg] != Delivered then AttemptStep(a, [])
    else
      var b := a.(legs := a.legs[leg := state]);
      if b.outcome != Open || SomeLeg(b.legs, Delivered) then AttemptStep(b, [])
      else if b.rejections != [] then
        var best := b.rejections[Best(b.rejections)];
        AttemptStep(b.(outcome := OfReject), [Forward(b.from, session, best.leg, Reject(best.reason, None))])
      else AttemptStep(b.(outcome := OfSilence), [NoResponse(b.from, session)])
  }

  predicate LegSpeaks(b: Body) {
    b.Progress? || ((b.Answer? || b.Reject?) && b.inReplyTo.None?)
  }

  /** A leg's own progress, answer or reject. An answer is never withheld. */
  function FromLeg(session: string, a: Attempt, now: int, m: Message): AttemptStep
    requires m.from in a.legs && LegSpeaks(m.body)
  {
    var leg := m.from;
    var h := a.(touched := now, heard := a.heard + {leg});
    match m.body
    case Answer(_, _) =>
      AttemptStep(
        if h.legs[leg] == Delivered then
          h.(legs := h.legs[leg := LegAnswered], outcome := if h.outcome == Open then OfAnswer else h.outcome)
        else h,
        [Forward(h.from, session, leg, m.body)])
    case Progress(_, _, _) =>
      AttemptStep(h, if h.legs[leg] != Delivered then [DropTerminated] else [Forward(h.from, session, leg, m.body)])
    case Reject(reason, _) =>
      if h.legs[leg] != Delivered then AttemptStep(h, [DropTerminated])
      else LegEnded(session, h.(rejections := h.rejections + [Rejection(leg, reason)]), leg, LegRejected)
  }

  predicate Cancels(a: Attempt, target: Option<string>, leg: string) {
    leg in a.legs && a.legs[leg] == Delivered && (target.None? || target.value == a.to || target.value == leg)
  }

  function CancelEach(session: string, a: Attempt, target: Option<string>, reason: string, legs: seq<string>): AttemptStep {
    if legs == [] then AttemptStep(a, [])
    else
      var r := CancelEach(session, a, target, reason, legs[..|legs| - 1]);
      var leg := legs[|legs| - 1];
      if Cancels(r.a, target, leg) then
        AttemptStep(r.a.(legs := r.a.legs[leg := LegCancelled]), r.emit + [DeliverCancel(leg, session, reason)])
      else r
  }

  /** The initiator's cancel, to every leg not yet done or to one of them. */
  ghost function CancelAttempt(session: string, a: Attempt, now: int, target: Option<string>, reason: string): AttemptStep {
    var r := CancelEach(session, a.(touched := now), target, reason, Sorted(a.legs.Keys));
    if r.a.outcome == Open && !SomeLeg(r.a.legs, Delivered) then AttemptStep(r.a.(outcome := OfCancel), r.emit) else r
  }

  predicate Silent(a: Attempt, leg: string) {
    leg in a.legs && a.legs[leg] == Delivered && leg !in a.heard
  }

  function ExpireEach(session: string, a: Attempt, legs: seq<string>): AttemptStep {
    if legs == [] then AttemptStep(a, [])
    else
      var r := ExpireEach(session, a, legs[..|legs| - 1]);
      var leg := legs[|legs| - 1];
      if Silent(r.a, leg) then
        var e := LegEnded(session, r.a, leg, LegExpired);
        AttemptStep(e.a, r.emit + e.emit)
      else r
  }

  /** Silent legs expire with the invite. */
  ghost function ExpireAttempt(session: string, a: Attempt, now: int): AttemptStep {
    if a.expires.None? || now < a.expires.value then AttemptStep(a, [])
    else ExpireEach(session, a, Sorted(a.legs.Keys))
  }

  // ---- what every attempt keeps

  /** The outcome is exactly what the legs say while one is outstanding or one answered. */
  ghost predicate AttemptOk(a: Attempt) {
    && a.legs != map[]
    && (a.outcome == Open <==> SomeLeg(a.legs, Delivered) && !SomeLeg(a.legs, LegAnswered))
    && (a.outcome == OfAnswer <==> SomeLeg(a.legs, LegAnswered))
  }

  /** Terminal legs stay, legs are never dropped, and an outcome once written stays. */
  ghost predicate Settles(a: Attempt, b: Attempt) {
    && b.from == a.from && b.to == a.to && b.expires == a.expires
    && (forall l :: l in a.legs ==> l in b.legs && (a.legs[l] != Delivered ==> b.legs[l] == a.legs[l]))
    && (a.outcome != Open ==> b.outcome == a.outcome)
    && a.heard <= b.heard
  }

  predicate Signals(e: Emission, session: string) {
    (e.Forward? && e.session == session && e.body.Reject?) || (e.NoResponse? && e.session == session)
  }

  function CountSignals(emit: seq<Emission>, session: string): nat {
    if emit == [] then 0
    else CountSignals(emit[..|emit| - 1], session) + if Signals(emit[|emit| - 1], session) then 1 else 0
  }

  predicate Completed(v: Verdict) {
    v == OfReject || v == OfSilence
  }

  /** The outcome is signalled exactly when it becomes a reject or silence, and nothing else is signalled. */
  ghost predicate SignalsFit(session: string, a: Attempt, s: AttemptStep) {
    && CountSignals(s.emit, session) == (if a.outcome == Open && Completed(s.a.outcome) then 1 else 0)
    && forall e, other :: e in s.emit && other != session ==> !Signals(e, other)
  }

  ghost predicate AttemptKeeps(session: string, a: Attempt, s: AttemptStep) {
    AttemptOk(s.a) && Settles(a, s.a) && SignalsFit(session, a, s)
  }

  lemma OneSignal(e: Emission, session: string)
    ensures CountSignals([e], session) == if Signals(e, session) then 1 else 0
    ensures CountSignals([], session) == 0
  {
    assert [e][..0] == [];
  }

  lemma {:induction false} CountAppend(a: seq<Emission>, b: seq<Emission>, session: string)
    ensures CountSignals(a + b, session) == CountSignals(a, session) + CountSignals(b, session)
  {
    if b == [] {
      assert a + b == a;
    } else {
      assert (a + b)[..|a + b| - 1] == a + b[..|b| - 1];
      CountAppend(a, b[..|b| - 1], session);
    }
  }

  lemma LegEndedKeeps(session: string, a: Attempt, leg: string, state: LegState)
    requires AttemptOk(a) && state in {LegRejected, LegExpired}
    ensures AttemptKeeps(session, a, LegEnded(session, a, leg, state))
  {
    var s := LegEnded(session, a, leg, state);
    if s.emit != [] { OneSignal(s.emit[0], session); }
    if leg in a.legs && a.legs[leg] == Delivered {
      var legs := a.legs[leg := state];
      assert SomeLeg(legs, LegAnswered) <==> SomeLeg(a.legs, LegAnswered) by {
        forall l | l in a.legs && a.legs[l] == LegAnswered ensures legs[l] == LegAnswered { }
      }
      assert leg in legs;
    }
  }

  lemma FromLegKeeps(session: string, a: Attempt, now: int, m: Message)
    requires AttemptOk(a) && m.from in a.legs && LegSpeaks(m.body)
    ensures AttemptKeeps(session, a, FromLeg(session, a, now, m))
  {
    var leg := m.from;
    var h := a.(touched := now, heard := a.heard + {leg});
    var s := FromLeg(session, a, now, m);
    if m.body.Reject? && a.legs[leg] == Delivered {
      var p := h.(rejections := h.rejections + [Rejection(leg, m.body.reason)]);
      assert AttemptOk(p);
      LegEndedKeeps(session, p, leg, LegRejected);
    } else {
      OneSignal(s.emit[0], session);
      if m.body.Answer? && a.legs[leg] == Delivered {
        assert s.a.legs[leg] == LegAnswered;
        assert SomeLeg(s.a.legs, LegAnswered);
      }
    }
  }

  predicate CancelTold(e: Emission, session: string, a: Attempt, target: Option<string>, reason: string, legs: seq<string>) {
    e.DeliverCancel? && e.session == session && e.reason == reason && e.leg in legs && Cancels(a, target, e.leg)
  }

  /** The legs a cancel walks over: delivered matching ones are cancelled, each told once, others stay. */
  lemma {:induction false} CancelEachEffect(session: string, a: Attempt, target: Option<string>, reason: string, legs: seq<string>)
    ensures var s := CancelEach(session, a, target, reason, legs);
            && s.a == a.(legs := s.a.legs)
            && s.a.legs.Keys == a.legs.Keys
            && (forall l :: l in a.legs ==> s.a.legs[l] == if l in legs && Cancels(a, target, l) then LegCancelled else a.legs[l])
            && (forall e :: e in s.emit <==> CancelTold(e, session, a, target, reason, legs))
            && CountSignals(s.emit, session) == 0
  {
    if legs != [] {
      var front, leg := legs[..|legs| - 1], legs[|legs| - 1];
      assert legs == front + [leg];
      CancelEachEffect(session, a, target, reason, front);
      var r := CancelEach(session, a, target, reason, front);
      if Cancels(r.a, target, leg) {
        OneSignal(DeliverCancel(leg, session, reason), session);
        CountAppend(r.emit, [DeliverCancel(leg, session, reason)], session);
      }
    }
  }

  lemma CancelKeeps(session: string, a: Attempt, now: int, target: Option<string>, reason: string)
    requires AttemptOk(a)
    ensures AttemptKeeps(session, a, CancelAttempt(session, a, now, target, reason))
  {
    var t := a.(touched := now);
    CancelEachEffect(session, t, target, reason, Sorted(a.legs.Keys));
    var s := CancelAttempt(session, a, now, target, reason);
    assert SomeLeg(s.a.legs, LegAnswered) <==> SomeLeg(a.legs, LegAnswered) by {
      forall l | l in a.legs && a.legs[l] == LegAnswered ensures s.a.legs[l] == LegAnswered { }
    }
    if SomeLeg(s.a.legs, Delivered) {
      var l :| l in s.a.legs && s.a.legs[l] == Delivered;
      assert a.legs[l] == Delivered;
    }
    assert s.a.legs.Keys == a.legs.Keys;
  }

  lemma {:induction false} ExpireEachKeeps(session: string, a: Attempt, legs: seq<string>)
    requires AttemptOk(a)
    ensures AttemptKeeps(session, a, ExpireEach(session, a, legs))
  {
    if legs == [] {
      assert CountSignals([], session) == 0;
    } else {
      var front, leg := legs[..|legs| - 1], legs[|legs| - 1];
      ExpireEachKeeps(session, a, front);
      var r := ExpireEach(session, a, front);
      if Silent(r.a, leg) {
        LegEndedKeeps(session, r.a, leg, LegExpired);
        ChainKeeps(session, a, r, LegEnded(session, r.a, leg, LegExpired));
      }
    }
  }

  lemma ChainKeeps(session: string, a: Attempt, r: AttemptStep, e: AttemptStep)
    requires AttemptKeeps(session, a, r) && AttemptKeeps(session, r.a, e)
    ensures AttemptKeeps(session, a, AttemptStep(e.a, r.emit + e.emit))
  {
    CountAppend(r.emit, e.emit, session);
  }

  lemma {:induction false} ExpireEachEffect(session: string, a: Attempt, legs: seq<string>)
    ensures var b := ExpireEach(session, a, legs).a;
            && b.heard == a.heard && b.legs.Keys == a.legs.Keys && b.touched == a.touched
            && (forall l :: l in a.legs ==> b.legs[l] == if l in legs && Silent(a, l) then LegExpired else a.legs[l])
  {
    if legs != [] {
      var front, leg := legs[..|legs| - 1], legs[|legs| - 1];
      assert legs == front + [leg];
      ExpireEachEffect(session, a, front);
    }
  }

  /** Past its expiry, an attempt has no silent outstanding leg left. */
  lemma ExpireKeeps(session: string, a: Attempt, now: int)
    requires AttemptOk(a)
    ensures AttemptKeeps(session, a, ExpireAttempt(session, a, now))
    ensures var b := ExpireAttempt(session, a, now).a;
            && (b.expires.Some? && b.expires.value <= now ==> forall l :: !Silent(b, l))
            && b.legs.Keys == a.legs.Keys && b.touched == a.touched
            && (forall l :: l in a.legs && b.legs[l] != a.legs[l] ==> Silent(a, l) && b.legs[l] == LegExpired)
  {
    if a.expires.None? || now < a.expires.value {
      assert CountSignals([], session) == 0;
    } else {
      ExpireEachKeeps(session, a, Sorted(a.legs.Keys));
      ExpireEachEffect(session, a, Sorted(a.legs.Keys));
    }
  }

  // ---- the relay

  function DevicesOf(r: Relay, identity: string): set<string> {
    set d | d in r.bound && r.bound[d] == identity
  }

  function ForkLegs(session: string, a: Attempt, legs: seq<string>, now: int): AttemptStep {
    if legs == [] then AttemptStep(a, [])
    else
      var s := ForkLegs(session, a, legs[..|legs| - 1], now);
      AttemptStep(WithLeg(s.a, legs[|legs| - 1], now), s.emit + [DeliverInvite(legs[|legs| - 1], session)])
  }

  function Fork(r: Relay, session: string, from: string, to: string, legs: seq<string>, expires: Option<int>): RelayStep {
    var s := ForkLegs(session, NewAttemptFor(from, to, expires, r.now), legs, r.now);
    RelayStep(r.(attempts := r.attempts[session := s.a]), s.emit)
  }

  function HoldUntil(r: Relay, env: Envelope): int {
    if env.expiresAt.Some? then Min(env.expiresAt.value, r.now + r.retention) else r.now + r.retention
  }

  /** Held for a recipient that is not connected, until it expires or retention runs out. */
  function Hold(r: Relay, to: string, env: Envelope): RelayStep {
    RelayStep(r.(queue := r.queue + [Parked(to, env, HoldUntil(r, env))]), [QueuedFor(to, env)])
  }

  function DeliverEach(env: Envelope, legs: seq<string>): seq<Emission> {
    seq(|legs|, i requires 0 <= i < |legs| => Deliver(legs[i], env))
  }

  function ToOf(env: Envelope): string { Or(env.to, "") }

  /** Plain routing by address: delivered, held for a known recipient, or refused to its sender. */
  ghost function Route(r: Relay, env: Envelope): RelayStep {
    var to := ToOf(env);
    if to in r.bound then RelayStep(r, [Deliver(to, env)])
    else if DevicesOf(r, to) != {} then RelayStep(r, DeliverEach(env, Sorted(DevicesOf(r, to))))
    else if to in r.known then Hold(r, to, env)
    else RelayStep(r, [UnknownRecipient(Sender(env), EnvelopeId(env))])
  }

  ghost function OnInvite(r: Relay, env: Envelope): RelayStep
    requires IsInvite(env)
  {
    var to := ToOf(env);
    if DevicesOf(r, to) != {} then
      Fork(r, env.m.session, env.m.from, to, Sorted(DevicesOf(r, to)), env.expiresAt)
    else if to in r.known then Hold(r, to, env)
    else RelayStep(r, [UnknownRecipient(env.m.from, env.m.id)])
  }

  /** An introduction is accepted without a routing response whether or not its recipient is known. */
  ghost function OnIntroduction(r: Relay, env: Envelope): RelayStep {
    var to := ToOf(env);
    if DevicesOf(r, to) == {} then Hold(r, to, env)
    else RelayStep(r, DeliverEach(env, Sorted(DevicesOf(r, to))))
  }

  predicate WithdrawnBy(q: Queued, env: Envelope)
    requires env.CallEnvelope?
  {
    IsInvite(q.env) && q.env.m.session == env.m.session && Some(q.to) == env.to
  }

  /** The queue without the invites a cancel withdraws, each reported. */
  function DropWithdrawn(queue: seq<Queued>, env: Envelope): (seq<Queued>, seq<Emission>)
    requires env.CallEnvelope?
  {
    if queue == [] then ([], [])
    else
      var (kept, told) := DropWithdrawn(queue[..|queue| - 1], env);
      var q := queue[|queue| - 1];
      if WithdrawnBy(q, env) then (kept, told + [Dequeued(q.to, q.env, "cancelled")]) else (kept + [q], told)
  }

  predicate CancelIsFor(a: Attempt, env: Envelope) {
    env.to.None? || env.to.value == a.to || env.to.value in a.legs
  }

  ghost function OnCall(r: Relay, env: Envelope): RelayStep
    requires env.CallEnvelope? && !IsInvite(env)
  {
    var m := env.m;
    if m.session in r.attempts && m.body.Cancel? && m.from == r.attempts[m.session].from then
      if CancelIsFor(r.attempts[m.session], env) then
        var s := CancelAttempt(m.session, r.attempts[m.session], r.now, env.to, m.body.reason);
        RelayStep(r.(attempts := r.attempts[m.session := s.a]), s.emit)
      else Route(r, env)
    else if m.body.Cancel? && (exists q :: q in r.queue && WithdrawnBy(q, env)) then
      var (kept, told) := DropWithdrawn(r.queue, env);
      RelayStep(r.(queue := kept), told)
    else if m.session in r.attempts && m.from in r.attempts[m.session].legs && LegSpeaks(m.body) then
      var s := FromLeg(m.session, r.attempts[m.session], r.now, m);
      RelayStep(r.(attempts := r.attempts[m.session := s.a]), s.emit)
    else Route(r, env)
  }

  ghost function OnEnvelope(r: Relay, env: Envelope): RelayStep {
    if env.Introduction? then OnIntroduction(r, env)
    else if IsInvite(env) then OnInvite(r, env)
    else OnCall(r, env)
  }

  // ---- binding

  predicate Mine(q: Queued, device: string, identity: string) {
    q.to == identity || q.to == device
  }

  function QueueFor(queue: seq<Queued>, device: string, identity: string, mine: bool): seq<Queued> {
    if queue == [] then []
    else QueueFor(queue[..|queue| - 1], device, identity, mine)
         + if Mine(queue[|queue| - 1], device, identity) == mine then [queue[|queue| - 1]] else []
  }

  function FlushEach(r: Relay, device: string, identity: string, mine: seq<Queued>): RelayStep {
    if mine == [] then RelayStep(r, [])
    else
      var s := FlushEach(r, device, identity, mine[..|mine| - 1]);
      var env := mine[|mine| - 1].env;
      if IsInvite(env) then
        var f := Fork(s.r, env.m.session, env.m.from, identity, [device], env.expiresAt);
        RelayStep(f.r, s.emit + f.emit)
      else RelayStep(s.r, s.emit + [Deliver(device, env)])
  }

  function Flushed(mine: seq<Queued>): set<string> {
    set i | 0 <= i < |mine| && IsInvite(mine[i].env) :: mine[i].env.m.session
  }

  /** A live attempt to `identity` that has no leg for `device` yet. */
  predicate Joins(a: Attempt, now: int, device: string, identity: string) {
    && a.outcome == Open && (a.expires.None? || now < a.expires.value)
    && a.to == identity && device !in a.legs
  }

  function JoinEach(r: Relay, device: string, identity: string, flushed: set<string>, ids: seq<string>): RelayStep {
    if ids == [] then RelayStep(r, [])
    else
      var s := JoinEach(r, device, identity, flushed, ids[..|ids| - 1]);
      var id := ids[|ids| - 1];
      if id in s.r.attempts && id !in flushed && Joins(s.r.attempts[id], s.r.now, device, identity) then
        RelayStep(s.r.(attempts := s.r.attempts[id := WithLeg(s.r.attempts[id], device, s.r.now)]),
                  s.emit + [DeliverInvite(device, id)])
      else s
  }

  ghost function Bind(r: Relay, device: string, identity: string): RelayStep {
    var mine := QueueFor(r.queue, device, identity, true);
    var b := r.(bound := r.bound[device := identity], known := r.known + {device, identity},
                queue := QueueFor(r.queue, device, identity, false));
    var f := FlushEach(b, device, identity, mine);
    var j := JoinEach(f.r, device, identity, Flushed(mine), Sorted(f.r.attempts.Keys));
    RelayStep(j.r, f.emit + j.emit)
  }

  function Unbind(r: Relay, device: string): Relay {
    if device !in r.bound then r
    else
      var identity := r.bound[device];
      var u := r.(bound := r.bound - {device}, lastUnbound := r.lastUnbound[device := r.now]);
      if DevicesOf(u, identity) == {} then u.(lastUnbound := u.lastUnbound[identity := r.now]) else u
  }

  // ---- the clock

  function StillQueued(queue: seq<Queued>, now: int): seq<Queued> {
    if queue == [] then []
    else StillQueued(queue[..|queue| - 1], now) + if now < queue[|queue| - 1].until then [queue[|queue| - 1]] else []
  }

  function ExpiredFor(queue: seq<Queued>, now: int, to: string): seq<Emission> {
    if queue == [] then []
    else ExpiredFor(queue[..|queue| - 1], now, to)
         + if queue[|queue| - 1].until <= now && queue[|queue| - 1].to == to then [Dequeued(to, queue[|queue| - 1].env, "expired")] else []
  }

  function ExpiredByRecipient(queue: seq<Queued>, now: int, tos: seq<string>): seq<Emission> {
    if tos == [] then []
    else ExpiredByRecipient(queue, now, tos[..|tos| - 1]) + ExpiredFor(queue, now, tos[|tos| - 1])
  }

  ghost function ExpireAttempts(r: Relay, ids: seq<string>): RelayStep {
    if ids == [] then RelayStep(r, [])
    else
      var s := ExpireAttempts(r, ids[..|ids| - 1]);
      var id := ids[|ids| - 1];
      if id in s.r.attempts then
        var e := ExpireAttempt(id, s.r.attempts[id], r.now);
        RelayStep(s.r.(attempts := s.r.attempts[id := e.a]), s.emit + e.emit)
      else s
  }

  predicate Idle(a: Attempt, now: int) {
    ATTEMPT_IDLE_CAP < now - a.touched
  }

  /** A recipient known only through a binding that ended longer ago than retention, with nothing queued for it. */
  predicate Forgettable(r: Relay, x: string) {
    && x !in r.bound && x !in r.bound.Values
    && (forall i :: 0 <= i < |r.queue| ==> r.queue[i].to != x)
    && x in r.lastUnbound && r.retention < r.now - r.lastUnbound[x]
  }

  function Forget(r: Relay): Relay {
    r.(attempts := (map id | id in r.attempts && !Idle(r.attempts[id], r.now) :: r.attempts[id]),
       known := (set x | x in r.known && !Forgettable(r, x)),
       lastUnbound := (map x | x in r.lastUnbound && !(x in r.known && Forgettable(r, x)) :: r.lastUnbound[x]))
  }

  ghost function Elapse(r: Relay, seconds: nat): RelayStep {
    var t := r.(now := r.now + seconds);
    var tos := Sorted(set i | 0 <= i < |r.queue| :: r.queue[i].to);
    var q := t.(queue := StillQueued(r.queue, t.now));
    var e := ExpireAttempts(q, Sorted(q.attempts.Keys));
    RelayStep(Forget(e.r), ExpiredByRecipient(r.queue, t.now, tos) + e.emit)
  }

  datatype Event =
    | Elapsed(seconds: nat)
    | Received(env: Envelope)
    | InviteEvent(session: string, from: string, to: string, legs: seq<string>)
    | LegExpiredEvent(session: string, leg: string)
    | BindEvent(device: string, identity: string)
    | UnbindEvent(device: string)

  ghost function Step(r: Relay, ev: Event): RelayStep {
    match ev
    case Elapsed(seconds) => Elapse(r, seconds)
    case Received(env) => OnEnvelope(r, env)
    case InviteEvent(session, from, to, legs) => Fork(r, session, from, to, legs, None)
    case LegExpiredEvent(session, leg) =>
      if session !in r.attempts then RelayStep(r, [])
      else
        var s := LegEnded(session, r.attempts[session], leg, LegExpired);
        RelayStep(r.(attempts := r.attempts[session := s.a]), s.emit)
    case BindEvent(device, identity) => Bind(r, device, identity)
    case UnbindEvent(device) => RelayStep(Unbind(r, device), [])
  }

  // ---- what every relay keeps

  predicate QueuesInvite(q: Queued, id: string) {
    IsInvite(q.env) && q.env.m.session == id
  }

  predicate InviteQueued(queue: seq<Queued>, id: string) {
    queue != [] && (QueuesInvite(queue[|queue| - 1], id) || InviteQueued(queue[..|queue| - 1], id))
  }

  predicate Unreachable(bound: map<string, string>, identity: string) {
    forall d :: d in bound ==> bound[d] != identity
  }

  /** Nothing is held for an identity with a bound device, and held invites have ids of their own. */
  ghost predicate QueueOk(bound: map<string, string>, attempts: set<string>, queue: seq<Queued>) {
    queue != [] ==>
      var front, q := queue[..|queue| - 1], queue[|queue| - 1];
      && QueueOk(bound, attempts, front)
      && Unreachable(bound, q.to)
      && (IsInvite(q.env) ==> q.env.m.session !in attempts && !InviteQueued(front, q.env.m.session))
  }

  ghost predicate AttemptsOk(attempts: map<string, Attempt>) {
    forall id :: id in attempts ==> AttemptOk(attempts[id])
  }

  ghost predicate RelayOk(r: Relay) {
    AttemptsOk(r.attempts) && QueueOk(r.bound, r.attempts.Keys, r.queue)
  }

  /** How many outcome signals are still possible for a session. */
  ghost function Budget(r: Relay, used: set<string>, session: string): nat {
    if session in r.attempts then (if r.attempts[session].outcome == Open then 1 else 0)
    else if InviteQueued(r.queue, session) || session !in used then 1
    else 0
  }

  ghost predicate OneStep(r: Relay, s: RelayStep, session: string) {
    && (session in r.attempts && session in s.r.attempts ==> Settles(r.attempts[session], s.r.attempts[session]))
    && (session in r.attempts ==>
          CountSignals(s.emit, session)
          + (if session in s.r.attempts && s.r.attempts[session].outcome == Open then 1 else 0)
          <= (if r.attempts[session].outcome == Open then 1 else 0))
    && (session in r.attempts && session in s.r.attempts ==>
          CountSignals(s.emit, session)
          == if r.attempts[session].outcome == Open && Completed(s.r.attempts[session].outcome) then 1 else 0)
    && (session !in r.attempts ==> CountSignals(s.emit, session) == 0)
    && (session !in r.attempts && session in s.r.attempts ==> s.r.attempts[session].outcome == Open)
  }

  lemma {:induction false} FilteredQueueOk(bound: map<string, string>, attempts: set<string>, queue: seq<Queued>, now: int)
    requires QueueOk(bound, attempts, queue)
    ensures QueueOk(bound, attempts, StillQueued(queue, now))
    ensures forall id :: InviteQueued(StillQueued(queue, now), id) ==> InviteQueued(queue, id)
  {
    if queue != [] {
      var front := queue[..|queue| - 1];
      FilteredQueueOk(bound, attempts, front, now);
      var kept := StillQueued(front, now);
      assert (kept + [queue[|queue| - 1]])[..|kept|] == kept;
      assert kept + [] == kept;
    }
  }

  /** A smaller bound relation or fewer attempts only make the queue safer. */
  lemma {:induction false} QueueOkWeaker(bound: map<string, string>, attempts: set<string>, queue: seq<Queued>,
                                         bound': map<string, string>, attempts': set<string>)
    requires QueueOk(bound, attempts, queue)
    requires forall d :: d in bound' ==> d in bound && bound'[d] == bound[d]
    requires forall id :: id in attempts' && id !in attempts ==> !InviteQueued(queue, id)
    ensures QueueOk(bound', attempts', queue)
  {
    if queue != [] {
      QueueOkWeaker(bound, attempts, queue[..|queue| - 1], bound', attempts');
    }
  }

  lemma HoldKeeps(r: Relay, to: string, env: Envelope)
    requires RelayOk(r) && Unreachable(r.bound, to)
    requires IsInvite(env) ==> env.m.session !in r.attempts && !InviteQueued(r.queue, env.m.session)
    ensures RelayOk(Hold(r, to, env).r) && Hold(r, to, env).r.attempts == r.attempts
    ensures forall id :: CountSignals(Hold(r, to, env).emit, id) == 0
    ensures forall id :: InviteQueued(Hold(r, to, env).r.queue, id) <==> InviteQueued(r.queue, id) || (IsInvite(env) && env.m.session == id)
  {
    var q := Parked(to, env, HoldUntil(r, env));
    assert (r.queue + [q])[..|r.queue|] == r.queue;
    forall id ensures CountSignals([QueuedFor(to, env)], id) == 0 { OneSignal(QueuedFor(to, env), id); }
  }

  lemma {:induction false} NoSignals(emit: seq<Emission>, id: string)
    requires forall e :: e in emit ==> !Signals(e, id)
    ensures CountSignals(emit, id) == 0
  {
    if emit != [] { NoSignals(emit[..|emit| - 1], id); }
  }

  lemma Devices(r: Relay, to: string)
    ensures DevicesOf(r, to) == {} <==> Unreachable(r.bound, to)
  {
    if !Unreachable(r.bound, to) {
      var d :| d in r.bound && r.bound[d] == to;
      assert d in DevicesOf(r, to);
    }
  }

  lemma RouteKeeps(r: Relay, env: Envelope)
    requires RelayOk(r) && !IsInvite(env)
    ensures RelayOk(Route(r, env).r) && Route(r, env).r.attempts == r.attempts
    ensures forall id :: CountSignals(Route(r, env).emit, id) == 0
    ensures forall id :: InviteQueued(Route(r, env).r.queue, id) <==> InviteQueued(r.queue, id)
  {
    var to := ToOf(env);
    Devices(r, to);
    if to !in r.bound && DevicesOf(r, to) == {} && to in r.known {
      HoldKeeps(r, to, env);
    } else {
      forall id ensures CountSignals(Route(r, env).emit, id) == 0 { NoSignals(Route(r, env).emit, id); }
    }
  }

  lemma {:induction false} ForkLegsKeeps(session: string, a: Attempt, legs: seq<string>, now: int)
    requires a.outcome == Open && (forall l :: l in a.legs ==> a.legs[l] == Delivered)
    ensures var s := ForkLegs(session, a, legs, now);
            && s.a.outcome == Open && s.a.from == a.from && s.a.to == a.to && s.a.expires == a.expires
            && s.a.heard == a.heard && s.a.rejections == a.rejections
            && (forall l :: l in s.a.legs <==> l in a.legs || l in legs)
            && (forall l :: l in s.a.legs ==> s.a.legs[l] == Delivered)
            && (forall e :: e in s.emit ==> e.DeliverInvite? && e.session == session && e.leg in legs)
  {
    if legs != [] {
      assert legs == legs[..|legs| - 1] + [legs[|legs| - 1]];
      ForkLegsKeeps(session, a, legs[..|legs| - 1], now);
    }
  }

  lemma ForkKeeps(r: Relay, session: string, from: string, to: string, legs: seq<string>, expires: Option<int>)
    requires RelayOk(r) && legs != [] && session !in r.attempts && !InviteQueued(r.queue, session)
    ensures var s := Fork(r, session, from, to, legs, expires);
            && RelayOk(s.r) && s.r == r.(attempts := r.attempts[session := s.r.attempts[session]]) && session in s.r.attempts
            && s.r.attempts[session].outcome == Open
            && (forall id :: CountSignals(s.emit, id) == 0)
  {
    var n := NewAttemptFor(from, to, expires, r.now);
    ForkLegsKeeps(session, n, legs, r.now);
    var s := Fork(r, session, from, to, legs, expires);
    var a := s.r.attempts[session];
    assert legs[0] in a.legs;
    assert SomeLeg(a.legs, Delivered);
    QueueOkWeaker(r.bound, r.attempts.Keys, r.queue, r.bound, s.r.attempts.Keys);
    forall id ensures CountSignals(s.emit, id) == 0 { NoSignals(s.emit, id); }
  }

  /** Replacing one attempt by what a step makes of it. */
  lemma PutKeeps(r: Relay, session: string, s: AttemptStep)
    requires RelayOk(r) && session in r.attempts && AttemptKeeps(session, r.attempts[session], s)
    ensures var t := RelayStep(r.(attempts := r.attempts[session := s.a]), s.emit);
            RelayOk(t.r) && (forall id :: OneStep(r, t, id)) && t.r.attempts.Keys == r.attempts.Keys
  {
    var t := RelayStep(r.(attempts := r.attempts[session := s.a]), s.emit);
    assert t.r.attempts.Keys == r.attempts.Keys;
    forall id ensures OneStep(r, t, id) {
      if id != session { NoSignals(s.emit, id); }
    }
  }

  lemma {:induction false} DropWithdrawnKeeps(bound: map<string, string>, attempts: set<string>, queue: seq<Queued>, env: Envelope)
    requires env.CallEnvelope? && QueueOk(bound, attempts, queue)
    ensures QueueOk(bound, attempts, DropWithdrawn(queue, env).0)
    ensures forall id :: InviteQueued(DropWithdrawn(queue, env).0, id) ==> InviteQueued(queue, id)
    ensures forall e :: e in DropWithdrawn(queue, env).1 ==> e.Dequeued?
  {
    if queue != [] {
      var front, q := queue[..|queue| - 1], queue[|queue| - 1];
      DropWithdrawnKeeps(bound, attempts, front, env);
      var kept := DropWithdrawn(front, env).0;
      assert (kept + [q])[..|kept|] == kept;
    }
  }

  lemma SameAttempts(r: Relay, s: RelayStep)
    requires s.r.attempts == r.attempts && forall id :: CountSignals(s.emit, id) == 0
    ensures forall id :: OneStep(r, s, id)
  {
  }

  lemma CallKeeps(r: Relay, env: Envelope)
    requires RelayOk(r) && env.CallEnvelope? && !IsInvite(env)
    ensures RelayOk(OnCall(r, env).r) && forall id :: OneStep(r, OnCall(r, env), id)
    ensures OnCall(r, env).r.attempts.Keys == r.attempts.Keys
    ensures forall id :: InviteQueued(OnCall(r, env).r.queue, id) ==> InviteQueued(r.queue, id)
  {
    var m := env.m;
    if m.session in r.attempts && m.body.Cancel? && m.from == r.attempts[m.session].from && CancelIsFor(r.attempts[m.session], env) {
      CancelKeeps(m.session, r.attempts[m.session], r.now, env.to, m.body.reason);
      PutKeeps(r, m.session, CancelAttempt(m.session, r.attempts[m.session], r.now, env.to, m.body.reason));
    } else if m.session in r.attempts && m.body.Cancel? && m.from == r.attempts[m.session].from {
      RouteKeeps(r, env);
      SameAttempts(r, Route(r, env));
    } else if m.body.Cancel? && (exists q :: q in r.queue && WithdrawnBy(q, env)) {
      DropWithdrawnKeeps(r.bound, r.attempts.Keys, r.queue, env);
      forall id ensures CountSignals(OnCall(r, env).emit, id) == 0 { NoSignals(OnCall(r, env).emit, id); }
      SameAttempts(r, OnCall(r, env));
    } else if m.session in r.attempts && m.from in r.attempts[m.session].legs && LegSpeaks(m.body) {
      FromLegKeeps(m.session, r.attempts[m.session], r.now, m);
      PutKeeps(r, m.session, FromLeg(m.session, r.attempts[m.session], r.now, m));
    } else {
      RouteKeeps(r, env);
      SameAttempts(r, Route(r, env));
    }
  }

  lemma InviteKeeps(r: Relay, env: Envelope)
    requires RelayOk(r) && IsInvite(env) && env.m.session !in r.attempts && !InviteQueued(r.queue, env.m.session)
    ensures RelayOk(OnInvite(r, env).r) && forall id :: OneStep(r, OnInvite(r, env), id)
    ensures forall id :: InviteQueued(OnInvite(r, env).r.queue, id) ==> InviteQueued(r.queue, id) || id == env.m.session
    ensures forall id :: id in OnInvite(r, env).r.attempts ==> id in r.attempts || id == env.m.session
  {
    var to := ToOf(env);
    Devices(r, to);
    var s := OnInvite(r, env);
    if DevicesOf(r, to) != {} {
      ForkKeeps(r, env.m.session, env.m.from, to, Sorted(DevicesOf(r, to)), env.expiresAt);
      forall id ensures OneStep(r, s, id) { }
    } else if to in r.known {
      HoldKeeps(r, to, env);
      SameAttempts(r, s);
    } else {
      forall id ensures CountSignals(s.emit, id) == 0 { NoSignals(s.emit, id); }
      SameAttempts(r, s);
    }
  }

  lemma IntroductionKeeps(r: Relay, env: Envelope)
    requires RelayOk(r) && env.Introduction?
    ensures RelayOk(OnIntroduction(r, env).r) && forall id :: OneStep(r, OnIntroduction(r, env), id)
    ensures forall id :: InviteQueued(OnIntroduction(r, env).r.queue, id) ==> InviteQueued(r.queue, id)
    ensures OnIntroduction(r, env).r.attempts == r.attempts
  {
    var to := ToOf(env);
    Devices(r, to);
    var s := OnIntroduction(r, env);
    if DevicesOf(r, to) == {} {
      HoldKeeps(r, to, env);
    } else {
      forall id ensures CountSignals(s.emit, id) == 0 { NoSignals(s.emit, id); }
    }
    SameAttempts(r, s);
  }

  // ---- binding keeps

  lemma {:induction false} QueueForHas(queue: seq<Queued>, device: string, identity: string, mine: bool, id: string)
    ensures InviteQueued(QueueFor(queue, device, identity, mine), id) ==> InviteQueued(queue, id)
  {
    if queue != [] {
      var front, q := queue[..|queue| - 1], queue[|queue| - 1];
      QueueForHas(front, device, identity, mine, id);
      var kept := QueueFor(front, device, identity, mine);
      assert (kept + [q])[..|kept|] == kept;
      assert kept + [] == kept;
    }
  }

  lemma {:induction false} QueueForApart(bound: map<string, string>, attempts: set<string>, queue: seq<Queued>,
                                         device: string, identity: string, id: string)
    requires QueueOk(bound, attempts, queue)
    ensures InviteQueued(QueueFor(queue, device, identity, true), id) ==>
              !InviteQueued(QueueFor(queue, device, identity, false), id)
  {
    if queue != [] {
      var front, q := queue[..|queue| - 1], queue[|queue| - 1];
      QueueForApart(bound, attempts, front, device, identity, id);
      QueueForHas(front, device, identity, true, id);
      QueueForHas(front, device, identity, false, id);
      var kept, mine := QueueFor(front, device, identity, false), QueueFor(front, device, identity, true);
      assert (kept + [q])[..|kept|] == kept && (mine + [q])[..|mine|] == mine;
      assert kept + [] == kept && mine + [] == mine;
    }
  }

  lemma {:induction false} QueueForKeeps(bound: map<string, string>, attempts: set<string>, queue: seq<Queued>,
                                         device: string, identity: string)
    requires QueueOk(bound, attempts, queue)
    ensures QueueOk(bound[device := identity], attempts, QueueFor(queue, device, identity, false))
  {
    if queue != [] {
      var front, q := queue[..|queue| - 1], queue[|queue| - 1];
      QueueForKeeps(bound, attempts, front, device, identity);
      var kept := QueueFor(front, device, identity, false);
      if Mine(q, device, identity) {
        assert kept + [] == kept;
      } else {
        assert (kept + [q])[..|kept|] == kept && (kept + [q])[|kept|] == q;
        assert Unreachable(bound[device := identity], q.to);
        if IsInvite(q.env) { QueueForHas(front, device, identity, false, q.env.m.session); }
      }
    }
  }

  lemma {:induction false} MineDistinct(bound: map<string, string>, attempts: set<string>, queue: seq<Queued>,
                                        device: string, identity: string)
    requires QueueOk(bound, attempts, queue)
    ensures InvitesOnce(attempts, QueueFor(queue, device, identity, true))
  {
    if queue != [] {
      var front, q := queue[..|queue| - 1], queue[|queue| - 1];
      MineDistinct(bound, attempts, front, device, identity);
      if IsInvite(q.env) { QueueForHas(front, device, identity, true, q.env.m.session); }
      var mine := QueueFor(front, device, identity, true);
      assert (mine + [q])[..|mine|] == mine;
      assert mine + [] == mine;
    }
  }

  /** The held invites have ids that no attempt has, each once. */
  ghost predicate InvitesOnce(attempts: set<string>, mine: seq<Queued>) {
    mine != [] ==>
      var front, q := mine[..|mine| - 1], mine[|mine| - 1];
      InvitesOnce(attempts, front) && (IsInvite(q.env) ==> q.env.m.session !in attempts && !InviteQueued(front, q.env.m.session))
  }

  /** What delivering the held messages leaves: the attempts of before, one open attempt for each held invite, and no signal. */
  ghost predicate HandedOver(r: Relay, mine: seq<Queued>, s: RelayStep) {
    && RelayOk(s.r) && s.r.queue == r.queue && s.r.bound == r.bound
    && (forall id :: id in s.r.attempts <==> id in r.attempts || InviteQueued(mine, id))
    && (forall id :: id in r.attempts ==> s.r.attempts[id] == r.attempts[id])
    && (forall id :: id in s.r.attempts && id !in r.attempts ==> s.r.attempts[id].outcome == Open)
    && (forall id :: CountSignals(s.emit, id) == 0)
  }

  lemma HandsFork(r: Relay, device: string, identity: string, front: seq<Queued>, q: Queued, s: RelayStep)
    requires HandedOver(r, front, s) && IsInvite(q.env) && q.env.m.session !in s.r.attempts && !InviteQueued(r.queue, q.env.m.session)
    ensures var f := Fork(s.r, q.env.m.session, q.env.m.from, identity, [device], q.env.expiresAt);
            HandedOver(r, front + [q], RelayStep(f.r, s.emit + f.emit))
  {
    hide CountSignals, RelayOk, Fork;
    var id := q.env.m.session;
    ForkKeeps(s.r, id, q.env.m.from, identity, [device], q.env.expiresAt);
    var f := Fork(s.r, id, q.env.m.from, identity, [device], q.env.expiresAt);
    assert (front + [q])[..|front|] == front;
    forall x ensures CountSignals(s.emit + f.emit, x) == 0 { CountAppend(s.emit, f.emit, x); }
  }

  lemma HandsDeliver(r: Relay, device: string, front: seq<Queued>, q: Queued, s: RelayStep)
    requires HandedOver(r, front, s) && !IsInvite(q.env)
    ensures HandedOver(r, front + [q], RelayStep(s.r, s.emit + [Deliver(device, q.env)]))
  {
    hide CountSignals, RelayOk;
    var d := Deliver(device, q.env);
    assert (front + [q])[..|front|] == front;
    forall x ensures CountSignals(s.emit + [d], x) == 0 { CountAppend(s.emit, [d], x); OneSignal(d, x); }
  }

  lemma {:induction false} FlushKeeps(r: Relay, device: string, identity: string, mine: seq<Queued>)
    requires RelayOk(r) && InvitesOnce(r.attempts.Keys, mine)
    requires forall id :: InviteQueued(mine, id) ==> !InviteQueued(r.queue, id)
    ensures HandedOver(r, mine, FlushEach(r, device, identity, mine))
  {
    hide RelayOk;
    if mine == [] {
      forall id ensures CountSignals([], id) == 0 { }
    } else {
      var front, q := mine[..|mine| - 1], mine[|mine| - 1];
      assert mine == front + [q];
      assert forall id :: InviteQueued(front, id) ==> InviteQueued(mine, id);
      FlushKeeps(r, device, identity, front);
      var s := FlushEach(r, device, identity, front);
      if IsInvite(q.env) {
        assert InviteQueued(mine, q.env.m.session);
        HandsFork(r, device, identity, front, q, s);
      } else {
        HandsDeliver(r, device, front, q, s);
      }
    }
  }

  ghost predicate Joined(a: Attempt, b: Attempt) {
    Settles(a, b) && b.outcome == a.outcome
  }

  lemma JoinOneKeeps(a: Attempt, device: string, identity: string, now: int)
    requires AttemptOk(a) && Joins(a, now, device, identity)
    ensures AttemptOk(WithLeg(a, device, now)) && Joined(a, WithLeg(a, device, now))
  {
    var b := WithLeg(a, device, now);
    assert b.legs[device] == Delivered;
    assert SomeLeg(b.legs, Delivered);
    forall l | l in b.legs ensures b.legs[l] != LegAnswered {
      if l != device { assert b.legs[l] == a.legs[l]; }
    }
  }

  lemma JoinedTrans(a: Attempt, b: Attempt, c: Attempt)
    requires Joined(a, b) && Joined(b, c)
    ensures Joined(a, c)
  {
  }

  lemma JoinedSelf(a: Attempt)
    ensures Joined(a, a)
  {
  }

  lemma {:induction false} JoinKeeps(r: Relay, device: string, identity: string, flushed: set<string>, ids: seq<string>)
    requires RelayOk(r)
    ensures var s := JoinEach(r, device, identity, flushed, ids);
            && RelayOk(s.r) && s.r.queue == r.queue && s.r.bound == r.bound && s.r.now == r.now
            && s.r.attempts.Keys == r.attempts.Keys
            && (forall id :: id in r.attempts ==> Joined(r.attempts[id], s.r.attempts[id]))
            && (forall id :: CountSignals(s.emit, id) == 0)
  {
    hide Joined, Settles, AttemptOk, QueueOk, SomeLeg, Joins, WithLeg;
    if ids == [] {
      forall id ensures CountSignals([], id) == 0 { }
      forall id | id in r.attempts ensures Joined(r.attempts[id], r.attempts[id]) { JoinedSelf(r.attempts[id]); }
    } else {
      var front, id := ids[..|ids| - 1], ids[|ids| - 1];
      JoinKeeps(r, device, identity, flushed, front);
      var s := JoinEach(r, device, identity, flushed, front);
      if id in s.r.attempts && id !in flushed && Joins(s.r.attempts[id], s.r.now, device, identity) {
        var b := WithLeg(s.r.attempts[id], device, s.r.now);
        JoinOneKeeps(s.r.attempts[id], device, identity, s.r.now);
        JoinedTrans(r.attempts[id], s.r.attempts[id], b);
        var d := DeliverInvite(device, id);
        forall x ensures CountSignals(s.emit + [d], x) == 0 { CountAppend(s.emit, [d], x); OneSignal(d, x); }
        assert s.r.attempts[id := b].Keys == s.r.attempts.Keys;
      }
    }
  }

  /** Attempts forked for what was held, then live attempts joined: each existing attempt only settles. */
  lemma BindOneStep(r: Relay, f: RelayStep, j: RelayStep, id: string)
    requires id in r.attempts ==> id in f.r.attempts && f.r.attempts[id] == r.attempts[id]
    requires id in f.r.attempts && id !in r.attempts ==> f.r.attempts[id].outcome == Open
    requires j.r.attempts.Keys == f.r.attempts.Keys
    requires id in f.r.attempts ==> Joined(f.r.attempts[id], j.r.attempts[id])
    requires CountSignals(f.emit, id) == 0 && CountSignals(j.emit, id) == 0
    ensures OneStep(r, RelayStep(j.r, f.emit + j.emit), id)
  {
    CountAppend(f.emit, j.emit, id);
    if id in f.r.attempts { assert id in j.r.attempts; }
    assert id in j.r.attempts <==> id in f.r.attempts;
  }

  lemma BindKeeps(r: Relay, device: string, identity: string)
    requires RelayOk(r)
    ensures RelayOk(Bind(r, device, identity).r) && forall id :: OneStep(r, Bind(r, device, identity), id)
    ensures forall id :: InviteQueued(Bind(r, device, identity).r.queue, id) ==> InviteQueued(r.queue, id)
    ensures forall id :: id in Bind(r, device, identity).r.attempts ==> id in r.attempts || InviteQueued(r.queue, id)
  {
    hide Joined, Settles, AttemptsOk, QueueOk, QueueFor, InviteQueued, InvitesOnce, FlushEach, JoinEach, CountSignals, OneStep;
    var mine := QueueFor(r.queue, device, identity, true);
    var b := r.(bound := r.bound[device := identity], known := r.known + {device, identity},
                queue := QueueFor(r.queue, device, identity, false));
    QueueForKeeps(r.bound, r.attempts.Keys, r.queue, device, identity);
    MineDistinct(r.bound, r.attempts.Keys, r.queue, device, identity);
    forall id ensures InviteQueued(mine, id) ==> InviteQueued(r.queue, id)
              ensures InviteQueued(b.queue, id) ==> InviteQueued(r.queue, id)
              ensures InviteQueued(mine, id) ==> !InviteQueued(b.queue, id)
    {
      QueueForHas(r.queue, device, identity, true, id);
      QueueForHas(r.queue, device, identity, false, id);
      QueueForApart(r.bound, r.attempts.Keys, r.queue, device, identity, id);
    }
    FlushKeeps(b, device, identity, mine);
    var f := FlushEach(b, device, identity, mine);
    JoinKeeps(f.r, device, identity, Flushed(mine), Sorted(f.r.attempts.Keys));
    var j := JoinEach(f.r, device, identity, Flushed(mine), Sorted(f.r.attempts.Keys));
    forall id ensures OneStep(r, Bind(r, device, identity), id) {
      BindOneStep(r, f, j, id);
    }
    forall id | id in j.r.attempts ensures id in r.attempts || InviteQueued(r.queue, id) {
      assert id in f.r.attempts.Keys;
    }
  }

  // ---- the clock keeps

  lemma ExpireQuiet(id: string, a: Attempt, now: int, other: string)
    requires AttemptOk(a)
    ensures AttemptOk(ExpireAttempt(id, a, now).a)
    ensures other != id ==> CountSignals(ExpireAttempt(id, a, now).emit, other) == 0
  {
    ExpireKeeps(id, a, now);
    if other != id { NoSignals(ExpireAttempt(id, a, now).emit, other); }
  }

  /** What expiring a list of attempts does to one of them, and how often its outcome is signalled meanwhile. */
  ghost predicate ExpiredIn(ids: seq<string>, id: string, a: Attempt, b: Attempt, now: int, signals: nat) {
    if id in ids then b == ExpireAttempt(id, a, now).a && signals == CountSignals(ExpireAttempt(id, a, now).emit, id)
    else b == a && signals == 0
  }

  lemma {:induction false} ExpireAttemptsKeeps(r: Relay, ids: seq<string>)
    requires AttemptsOk(r.attempts)
    requires forall i, j :: 0 <= i < j < |ids| ==> ids[i] != ids[j]
    ensures var s := ExpireAttempts(r, ids);
            && AttemptsOk(s.r.attempts) && s.r == r.(attempts := s.r.attempts) && s.r.attempts.Keys == r.attempts.Keys
            && (forall id :: id in r.attempts ==>
                  ExpiredIn(ids, id, r.attempts[id], s.r.attempts[id], r.now, CountSignals(s.emit, id)))
            && (forall id :: id !in r.attempts ==> CountSignals(s.emit, id) == 0)
  {
    hide AttemptOk, ExpireAttempt, Signals;
    if ids == [] {
      forall id ensures CountSignals([], id) == 0 { }
    } else {
      var front, id := ids[..|ids| - 1], ids[|ids| - 1];
      assert ids == front + [id];
      assert id !in front;
      ExpireAttemptsKeeps(r, front);
      var s := ExpireAttempts(r, front);
      if id in s.r.attempts {
        ExpireOneMore(r, front, id, s);
      } else {
        forall x | x in r.attempts
          ensures ExpiredIn(ids, x, r.attempts[x], s.r.attempts[x], r.now, CountSignals(s.emit, x))
        {
          assert x in ids <==> x in front;
        }
      }
    }
  }

  lemma ExpireOneMore(r: Relay, front: seq<string>, id: string, s: RelayStep)
    requires AttemptsOk(r.attempts) && id in r.attempts && id !in front
    requires AttemptsOk(s.r.attempts) && s.r.attempts.Keys == r.attempts.Keys
    requires forall x :: x in r.attempts ==>
               ExpiredIn(front, x, r.attempts[x], s.r.attempts[x], r.now, CountSignals(s.emit, x))
    requires forall x :: x !in r.attempts ==> CountSignals(s.emit, x) == 0
    ensures var e := ExpireAttempt(id, s.r.attempts[id], r.now);
            var t := s.r.attempts[id := e.a];
            && AttemptsOk(t) && t.Keys == r.attempts.Keys
            && (forall x :: x in r.attempts ==>
                  ExpiredIn(front + [id], x, r.attempts[x], t[x], r.now, CountSignals(s.emit + e.emit, x)))
            && (forall x :: x !in r.attempts ==> CountSignals(s.emit + e.emit, x) == 0)
  {
    hide AttemptOk, ExpireAttempt, Signals, CountSignals;
    var e := ExpireAttempt(id, s.r.attempts[id], r.now);
    var t := s.r.attempts[id := e.a];
    ExpireQuiet(id, s.r.attempts[id], r.now, "");
    assert t.Keys == r.attempts.Keys;
    forall x ensures CountSignals(s.emit + e.emit, x) == CountSignals(s.emit, x) + CountSignals(e.emit, x)
             ensures x != id ==> CountSignals(e.emit, x) == 0
    {
      CountAppend(s.emit, e.emit, x);
      ExpireQuiet(id, s.r.attempts[id], r.now, x);
    }
    forall x | x in r.attempts
      ensures ExpiredIn(front + [id], x, r.attempts[x], t[x], r.now, CountSignals(s.emit + e.emit, x))
    {
      assert x in front + [id] <==> x in front || x == id;
      if x == id { assert s.r.attempts[id] == r.attempts[id]; }
    }
  }

  lemma {:induction false} ExpiredForQuiet(queue: seq<Queued>, now: int, to: string)
    ensures forall e :: e in ExpiredFor(queue, now, to) ==> e.Dequeued?
  {
    if queue != [] { ExpiredForQuiet(queue[..|queue| - 1], now, to); }
  }

  lemma {:induction false} ExpiredQuiet(queue: seq<Queued>, now: int, tos: seq<string>)
    ensures forall e :: e in ExpiredByRecipient(queue, now, tos) ==> e.Dequeued?
  {
    if tos != [] {
      ExpiredQuiet(queue, now, tos[..|tos| - 1]);
      ExpiredForQuiet(queue, now, tos[|tos| - 1]);
    }
  }

  lemma {:induction false} SortedDistinct(s: set<string>)
    ensures forall i, j :: 0 <= i < j < |Sorted(s)| ==> Sorted(s)[i] != Sorted(s)[j]
  {
    if s != {} { SortedDistinct(s - {Least(s)}); }
  }

  lemma ElapseOneStep(r: Relay, now: int, ids: seq<string>, dequeued: seq<Emission>, e: RelayStep, t: Relay, id: string)
    requires AttemptsOk(r.attempts)
    requires forall x :: x in dequeued ==> x.Dequeued?
    requires e.r.attempts.Keys == r.attempts.Keys
    requires id in r.attempts ==>
               id in ids && ExpiredIn(ids, id, r.attempts[id], e.r.attempts[id], now, CountSignals(e.emit, id))
    requires id !in r.attempts ==> CountSignals(e.emit, id) == 0
    requires id in t.attempts ==> id in e.r.attempts && t.attempts[id] == e.r.attempts[id]
    ensures OneStep(r, RelayStep(t, dequeued + e.emit), id)
  {
    hide ExpireAttempt, AttemptOk;
    CountAppend(dequeued, e.emit, id);
    NoSignals(dequeued, id);
    assert id in e.r.attempts <==> id in r.attempts;
    if id in r.attempts { ExpireKeeps(id, r.attempts[id], now); }
  }

  ghost predicate NoSilentLegs(a: Attempt, now: int) {
    a.expires.Some? && a.expires.value <= now ==> forall leg :: !Silent(a, leg)
  }

  /** After any advance, an attempt past its invite's expiry has no outstanding leg that never spoke. */
  lemma ElapseKeeps(r: Relay, seconds: nat)
    requires RelayOk(r)
    ensures RelayOk(Elapse(r, seconds).r) && forall id :: OneStep(r, Elapse(r, seconds), id)
    ensures var t := Elapse(r, seconds).r; forall id :: id in t.attempts ==> NoSilentLegs(t.attempts[id], t.now)
    ensures forall id :: InviteQueued(Elapse(r, seconds).r.queue, id) ==> InviteQueued(r.queue, id)
    ensures forall id :: id in Elapse(r, seconds).r.attempts ==> id in r.attempts
  {
    hide QueueOk, AttemptOk, OneStep, Settles, SignalsFit, ExpireAttempt, StillQueued, InviteQueued, ExpireAttempts,
      ExpiredByRecipient, CountSignals, Forgettable;
    var now := r.now + seconds;
    var q := r.(now := now, queue := StillQueued(r.queue, now));
    FilteredQueueOk(r.bound, r.attempts.Keys, r.queue, now);
    var ids := Sorted(q.attempts.Keys);
    SortedDistinct(q.attempts.Keys);
    ExpireAttemptsKeeps(q, ids);
    var e := ExpireAttempts(q, ids);
    var s := Elapse(r, seconds);
    QueueOkWeaker(r.bound, r.attempts.Keys, q.queue, r.bound, s.r.attempts.Keys);
    var tos := Sorted(set i | 0 <= i < |r.queue| :: r.queue[i].to);
    var dequeued := ExpiredByRecipient(r.queue, now, tos);
    ExpiredQuiet(r.queue, now, tos);
    forall id ensures OneStep(r, s, id) {
      ElapseOneStep(r, now, ids, dequeued, e, s.r, id);
    }
    forall id | id in s.r.attempts ensures NoSilentLegs(s.r.attempts[id], now) {
      assert id in ids;
      ExpireKeeps(id, r.attempts[id], now);
      assert s.r.attempts[id] == ExpireAttempt(id, r.attempts[id], now).a;
    }
  }

  // ---- every run

  ghost predicate UsedOk(r: Relay, used: set<string>) {
    && r.attempts.Keys <= used
    && forall id :: InviteQueued(r.queue, id) ==> id in used
  }

  function NewIds(ev: Event): set<string> {
    match ev
    case Received(env) => if IsInvite(env) then {env.m.session} else {}
    case InviteEvent(session, _, _, _) => {session}
    case _ => {}
  }

  /** Ids are used once over the whole run, and an attempt is forked with legs. */
  ghost predicate Permitted(used: set<string>, ev: Event) {
    NewIds(ev) !! used && (ev.InviteEvent? ==> ev.legs != [])
  }

  ghost predicate Spends(r: Relay, used: set<string>, s: RelayStep, used': set<string>, id: string) {
    CountSignals(s.emit, id) + Budget(s.r, used', id) <= Budget(r, used, id)
  }

  lemma SpendsOne(r: Relay, used: set<string>, s: RelayStep, added: set<string>, id: string)
    requires UsedOk(r, used) && OneStep(r, s, id) && added !! used
    requires InviteQueued(s.r.queue, id) ==> InviteQueued(r.queue, id) || id in added
    requires id in s.r.attempts ==> id in r.attempts || InviteQueued(r.queue, id) || id in added
    requires RelayOk(r) && RelayOk(s.r)
    ensures Spends(r, used, s, used + added, id)
  {
    hide QueueOk, AttemptsOk, Settles;
    NotBoth(r.bound, r.attempts.Keys, r.queue, id);
    NotBoth(s.r.bound, s.r.attempts.Keys, s.r.queue, id);
  }

  lemma {:induction false} NotBoth(bound: map<string, string>, attempts: set<string>, queue: seq<Queued>, id: string)
    requires QueueOk(bound, attempts, queue)
    ensures !(id in attempts && InviteQueued(queue, id))
  {
    if queue != [] { NotBoth(bound, attempts, queue[..|queue| - 1], id); }
  }

  /** One event: the relay stays well-formed, every attempt settles, and ids come only from invites. */
  lemma StepSettles(r: Relay, ev: Event)
    requires RelayOk(r)
    requires forall id :: id in NewIds(ev) ==> id !in r.attempts && !InviteQueued(r.queue, id)
    requires ev.InviteEvent? ==> ev.legs != []
    ensures RelayOk(Step(r, ev).r) && forall id :: OneStep(r, Step(r, ev), id)
    ensures forall id :: InviteQueued(Step(r, ev).r.queue, id) ==> InviteQueued(r.queue, id) || id in NewIds(ev)
    ensures forall id :: id in Step(r, ev).r.attempts ==> id in r.attempts || InviteQueued(r.queue, id) || id in NewIds(ev)
  {
    hide QueueOk, AttemptOk, Settles, InviteQueued, CountSignals, Elapse, Bind, OnInvite, OnIntroduction, OnCall, LegEnded, Route;
    match ev
    case Elapsed(seconds) => ElapseKeeps(r, seconds);
    case Received(env) =>
      if env.Introduction? { IntroductionKeeps(r, env); }
      else if IsInvite(env) { assert env.m.session in NewIds(ev); InviteKeeps(r, env); }
      else {
        CallKeeps(r, env);
        forall id | id in Step(r, ev).r.attempts ensures id in r.attempts { assert id in OnCall(r, env).r.attempts.Keys; }
      }
    case InviteEvent(session, from, to, legs) =>
      assert session in NewIds(ev);
      ForkKeeps(r, session, from, to, legs, None);
      forall id ensures OneStep(r, Fork(r, session, from, to, legs, None), id) {
        if id in r.attempts { JoinedSelf(r.attempts[id]); }
      }
    case LegExpiredEvent(session, leg) =>
      if session in r.attempts {
        LegEndedKeeps(session, r.attempts[session], leg, LegExpired);
        PutKeeps(r, session, LegEnded(session, r.attempts[session], leg, LegExpired));
      } else {
        forall id ensures CountSignals([], id) == 0 { OneSignal(DropTerminated, id); }
        SameAttempts(r, Step(r, ev));
      }
    case BindEvent(device, identity) => BindKeeps(r, device, identity);
    case UnbindEvent(device) =>
      QueueOkWeaker(r.bound, r.attempts.Keys, r.queue, Unbind(r, device).bound, r.attempts.Keys);
      forall id ensures CountSignals([], id) == 0 { OneSignal(DropTerminated, id); }
      SameAttempts(r, Step(r, ev));
  }

  /** One event of a run: everything above, and outcome signals are spent from a budget of one per session. */
  lemma StepKeeps(r: Relay, used: set<string>, ev: Event)
    requires RelayOk(r) && UsedOk(r, used) && Permitted(used, ev)
    ensures RelayOk(Step(r, ev).r) && UsedOk(Step(r, ev).r, used + NewIds(ev))
    ensures forall id :: OneStep(r, Step(r, ev), id)
    ensures forall id :: Spends(r, used, Step(r, ev), used + NewIds(ev), id)
  {
    hide Step, OneStep, RelayOk, InviteQueued, Spends, CountSignals;
    StepSettles(r, ev);
    forall id ensures Spends(r, used, Step(r, ev), used + NewIds(ev), id) {
      SpendsOne(r, used, Step(r, ev), NewIds(ev), id);
    }
  }

  ghost predicate Legal(used: set<string>, evs: seq<Event>)
    decreases |evs|
  {
    evs == [] || (Permitted(used, evs[0]) && Legal(used + NewIds(evs[0]), evs[1..]))
  }

  ghost function Run(r: Relay, evs: seq<Event>): RelayStep
    decreases |evs|
  {
    if evs == [] then RelayStep(r, [])
    else
      var one := Step(r, evs[0]);
      var rest := Run(one.r, evs[1..]);
      RelayStep(rest.r, one.emit + rest.emit)
  }

  /** In every run at most one reject or no-response outcome is signalled per session. */
  lemma {:induction false} AtMostOneSignal(r: Relay, used: set<string>, evs: seq<Event>, session: string)
    requires RelayOk(r) && UsedOk(r, used) && Legal(used, evs)
    ensures RelayOk(Run(r, evs).r)
    ensures CountSignals(Run(r, evs).emit, session) <= Budget(r, used, session) <= 1
    decreases |evs|
  {
    hide RelayOk, UsedOk, Permitted, Step, OneStep, InviteQueued;
    if evs == [] {
      assert CountSignals([], session) == 0;
    } else {
      StepKeeps(r, used, evs[0]);
      var one := Step(r, evs[0]);
      assert Spends(r, used, one, used + NewIds(evs[0]), session);
      AtMostOneSignal(one.r, used + NewIds(evs[0]), evs[1..], session);
      CountAppend(one.emit, Run(one.r, evs[1..]).emit, session);
    }
  }
}
