/**
 * One call session of `endpoint.ts`: what each received message, local request and timer does to it.
 * Everything an endpoint does about a session is a function of that session, the names of its running
 * timers and the message; the endpoint, the relay composition and the update protocol all share it.
 */
module Calls {
  import opened Prelude
  import opened TimerTable

  const T_ESTABLISH := 15
  const T_RING := 120
  const T_RING_MIN := 30
  const T_RING_MAX := 300
  const T_QUEUE_CAP := 1800
  const MAX_REQUEUES := 3

  datatype Role = Initiator | Responder

  datatype Phase = INVITING | PROCEEDING | OFFERED | ALERTING | ACTIVE | ENDED

  datatype Outstanding = NoUpdate | Outbound(id: string) | Inbound(id: string)

  datatype Cause = Unset | ByCancel | ByOther

  datatype Session = Session(
    role: Role,
    phase: Phase,
    to: string,
    peer: Option<string>,
    inviteExpires: Option<int>,
    outstanding: Outstanding,
    media: bool,
    requeues: nat,
    endedBy: Cause,
    answered: bool,
    initiatorSpoke: bool)

  /** `progress` statuses; a token outside the registry reads as trying. */
  datatype Status = Trying | Ringing | Queued | Forwarded | Unregistered(token: string)

  datatype Body =
    | Invite(to: string, expiresAt: Option<int>)
    | Progress(status: Status, ringTimeout: Option<int>, queueTimeout: int)
    | Answer(answeredBy: string, inReplyTo: Option<string>)
    | Reject(reason: string, inReplyTo: Option<string>)
    | Cancel(reason: string)
    | Bye(reason: string)
    | Update(uid: string, who: Option<string>)
    | Info(about: string)
    | Error(reason: string, about: string)

  /** A verified envelope; an invite's session is its own id, an update's `uid` its envelope's id. */
  datatype Message = Message(from: string, id: string, session: string, body: Body)

  datatype Op =
    | Send(to: string, session: string, body: Body)
    | StartTimer(name: Name, seconds: int)
    | StopTimer(name: Name)
    | FireTimer(name: Name)
    | MediaStart
    | MediaStop
    | ApplyUpdate
    | UiProgress(status: Status)
    | Ui(what: string, detail: string)
    | Refused(why: string)
    | Drop(why: string)
    | Handover(about: string)

  datatype Outcome = Outcome(s: Session, ops: seq<Op>)

  datatype Verb =
    | CancelCall
    | HangUp(byeReason: Option<string>)
    | Alert(ringTimeout: Option<int>)
    | AutoReject(why: string)
    | Accept(answeredBy: string)
    | Decline(declined: Option<string>)
    | SendUpdate(uid: string, who: Option<string>)
    | AnswerUpdate(inReplyTo: string, replyBy: Option<string>)
    | RejectUpdate(inReplyTo: string, why: string)
    | SendInfo

  /** What the trace context fixes for an endpoint. */
  datatype Context = Context(
    device: string,
    identities: map<string, string>,
    tEstablish: Option<int>,
    tRing: Option<int>,
    tRingLocal: Option<int>,
    firstContactRequired: bool,
    allow: set<string>)

  function Min(a: int, b: int): int { if a <= b then a else b }

  function Clamp(v: int, lo: int, hi: int): int {
    Min(hi, if lo <= v then v else lo)
  }

  // ---- registry fallbacks

  function CategoryOf(token: string): string {
    if token == "" || token[0] == '.' then "" else [token[0]] + CategoryOf(token[1..])
  }

  function EffectiveReason(token: string): string {
    if CategoryOf(token) in {"user", "endpoint", "identity", "session", "media", "policy", "transport",
                             "gateway", "mailbox", "presence"}
    then token else "session.failed"
  }

  function EffectiveStatus(status: Status): Status {
    if status.Unregistered? then Trying else status
  }

  function EffectiveAnsweredBy(who: string): string {
    if who in {"user", "service", "screening", "gateway"} then who else "service"
  }

  /** What an initiator cancels the other devices with once one has answered. */
  const ELSEWHERE := "session.answered-elsewhere"

  lemma {:induction false} CategoryStops(head: string, rest: string)
    requires '.' !in head && (rest == "" || rest[0] == '.')
    ensures CategoryOf(head + rest) == head
  {
    if head == "" {
      assert head + rest == rest;
    } else {
      assert (head + rest)[1..] == head[1..] + rest;
      CategoryStops(head[1..], rest);
      assert head == [head[0]] + head[1..];
    }
  }

  lemma ElsewhereStands()
    ensures EffectiveReason(ELSEWHERE) == ELSEWHERE
  {
    assert ELSEWHERE == "session" + ".answered-elsewhere";
    CategoryStops("session", ".answered-elsewhere");
  }

  // ---- pieces

  function PeerOf(s: Session): string { Or(s.peer, "") }

  predicate Pending(s: Session) {
    s.phase == INVITING || s.phase == PROCEEDING
  }

  predicate OwnAttempt(s: Session) {
    s.role == Initiator && Pending(s)
  }

  function StopIf(run: set<Name>, n: Name): seq<Op> {
    if n in run then [StopTimer(n)] else []
  }

  function StopAll(run: set<Name>): seq<Op> {
    StopIf(run, TEstablish) + StopIf(run, TRing) + StopIf(run, TQueue) + StopIf(run, TRingLocal)
  }

  function EndedSession(s: Session): Session {
    s.(phase := ENDED, outstanding := NoUpdate, media := false)
  }

  function EndOps(s: Session, surface: Option<string>): seq<Op> {
    (if s.media then [MediaStop] else []) + (match surface case Some(r) => [Ui("ended", r)] case None => [])
  }

  /** `end`: media stops before the end is surfaced; a pending update is discarded. */
  function Finish(s: Session, before: seq<Op>, surface: Option<string>): Outcome {
    Outcome(EndedSession(s), before + EndOps(s, surface))
  }

  function InvalidState(m: Message): Op {
    Send(m.from, m.session, Error("session.invalid-state", m.id))
  }

  function TimeoutCancel(id: string, s: Session, before: seq<Op>): Outcome {
    Finish(s.(endedBy := ByCancel), before + [Send(s.to, id, Cancel("session.timeout"))], Some("session.timeout"))
  }

  /** A fired timer; the table no longer runs it. */
  function Fired(name: Name, id: string, s: Session): Outcome {
    if name == TRingLocal then
      Finish(s, [FireTimer(name), Send(s.to, id, Reject("user.no-answer", None))], Some("user.no-answer"))
    else
      TimeoutCancel(id, s, [FireTimer(name)])
  }

  /** An attempt of ours that gives way to a smaller one is withdrawn. */
  function Yielded(id: string, s: Session, run: set<Name>): Outcome {
    Finish(s.(endedBy := ByCancel), StopAll(run) + [Send(s.to, id, Cancel("session.glare"))], Some("session.glare"))
  }

  // ---- local requests about a session held

  function Requested(cx: Context, now: int, id: string, s: Session, run: set<Name>, v: Verb): Outcome {
    var invalid := Outcome(s, [Refused("invalid-state")]);
    match v
    case CancelCall =>
      if !Pending(s) then invalid
      else Finish(s.(endedBy := ByCancel), StopAll(run) + [Send(s.to, id, Cancel("user.cancelled"))], None)
    case HangUp(reason) =>
      if s.phase != ACTIVE then invalid
      else Finish(s, [Send(PeerOf(s), id, Bye(Or(reason, "user.hangup")))], None)
    case Alert(advertised) =>
      if s.phase != OFFERED then invalid
      else if s.inviteExpires.Some? && s.inviteExpires.value <= now then
        Finish(s, [Send(s.to, id, Reject("session.expired", None))], None)
      else
        Outcome(s.(phase := ALERTING),
                [Send(s.to, id, Progress(Ringing, advertised, 0)),
                 StartTimer(TRingLocal, Or(advertised, Or(cx.tRingLocal, T_RING)))])
    case AutoReject(reason) =>
      if s.phase != OFFERED then invalid
      else Finish(s, [Send(s.to, id, Reject(reason, None))], None)
    case Accept(who) =>
      if s.phase != ALERTING then invalid
      else Outcome(s.(phase := ACTIVE, peer := Some(s.to), media := true),
                   StopIf(run, TRingLocal) + [Send(s.to, id, Answer(who, None)), MediaStart])
    case Decline(reason) =>
      if s.phase != ALERTING then invalid
      else Finish(s, StopIf(run, TRingLocal) + [Send(s.to, id, Reject(Or(reason, "user.declined"), None))], None)
    case SendUpdate(uid, who) =>
      if s.phase != ACTIVE then invalid
      else if s.outstanding != NoUpdate then Outcome(s, [Refused("update-pending")])
      else Outcome(s.(outstanding := Outbound(uid)), [Send(PeerOf(s), id, Update(uid, who))])
    case AnswerUpdate(ref, who) =>
      if s.outstanding != Inbound(ref) then Outcome(s, [Refused("no-pending-update")])
      else Outcome(s.(outstanding := NoUpdate),
                   [Send(PeerOf(s), id, Answer(Or(who, "user"), Some(ref))), ApplyUpdate])
    case RejectUpdate(ref, reason) =>
      if s.outstanding != Inbound(ref) then Outcome(s, [Refused("no-pending-update")])
      else Outcome(s.(outstanding := NoUpdate), [Send(PeerOf(s), id, Reject(reason, Some(ref)))])
    case SendInfo =>
      if s.phase != ACTIVE then invalid
      else Outcome(s, [Send(PeerOf(s), id, Info(""))])
  }

  // ---- received messages about a session held

  /** The operations a `progress` starts with: T-Establish ends and the status is surfaced. */
  function Noted(run: set<Name>, status: Status): seq<Op> {
    StopIf(run, TEstablish) + [UiProgress(status)]
  }

  function OnProgress(cx: Context, id: string, s: Session, run: set<Name>, m: Message): Outcome
    requires m.body.Progress?
  {
    var status := EffectiveStatus(m.body.status);
    var s1 := s.(phase := PROCEEDING);
    var run1 := run - {TEstablish};
    var seen := Noted(run, status);
    if status == Queued then
      var s2 := s1.(requeues := s1.requeues + 1);
      if s2.requeues > MAX_REQUEUES then
        TimeoutCancel(id, s2, seen + StopAll(run1))
      else
        Outcome(s2, seen + StopIf(run1, TRing) + [StartTimer(TQueue, Min(m.body.queueTimeout, T_QUEUE_CAP))])
    else if status == Ringing then
      var stopped := seen + StopIf(run1, TQueue);
      Outcome(s1.(requeues := 0),
        match m.body.ringTimeout
        case Some(secs) => stopped + [StartTimer(TRing, Clamp(secs, T_RING_MIN, T_RING_MAX))]
        case None => if TRing in run1 then stopped else stopped + [StartTimer(TRing, Or(cx.tRing, T_RING))])
    else
      Outcome(s1, if TRing in run1 || TQueue in run1 then seen else seen + [StartTimer(TRing, Or(cx.tRing, T_RING))])
  }

  /** Valid in ACTIVE for either role: `bye`, `update` and its replies, `info`. */
  predicate ForActive(b: Body) {
    b.Bye? || b.Info? || b.Update? || ((b.Answer? || b.Reject?) && b.inReplyTo.Some?)
  }

  function OnActive(id: string, s: Session, m: Message): Outcome
    requires ForActive(m.body)
  {
    match m.body
    case Bye(reason) => Finish(s, [], Some(EffectiveReason(reason)))
    case Info(about) =>
      Outcome(s, [if about in {"transport:webrtc", "media:dtmf"} then Handover(about) else Drop("unknown-about")])
    case Update(theirs, who) =>
      if s.outstanding.Inbound? then
        Outcome(s.(outstanding := NoUpdate), [Send(m.from, id, Error("session.update-pending", theirs))])
      else if s.outstanding.Outbound? && Less(s.outstanding.id, theirs) then
        Outcome(s, [Send(m.from, id, Reject("session.glare", Some(theirs)))])
      else
        Outcome(s.(outstanding := Inbound(theirs)),
                (if s.outstanding.Outbound? then [Ui("update_rejected", "session.glare")] else [])
                + [Ui("update_offered", "")]
                + (match who case Some(w) => [Ui("answered", EffectiveAnsweredBy(w))] case None => []))
    case Answer(_, ref) =>
      if s.outstanding != Outbound(ref.value) then Outcome(s, [Drop("stale-update-reply")])
      else Outcome(s.(outstanding := NoUpdate), [ApplyUpdate])
    case Reject(reason, ref) =>
      if s.outstanding != Outbound(ref.value) then Outcome(s, [Drop("stale-update-reply")])
      else Outcome(s.(outstanding := NoUpdate), [Ui("update_rejected", EffectiveReason(reason))])
  }

  function OnInitiator(cx: Context, id: string, s: Session, run: set<Name>, m: Message): Outcome {
    if m.body.Progress? && Pending(s) then OnProgress(cx, id, s, run, m)
    else if m.body.Answer? && Pending(s) && m.body.inReplyTo.None? then
      Outcome(s.(phase := ACTIVE, answered := true, peer := Some(m.from), media := true),
              StopAll(run) + [MediaStart, Ui("answered", EffectiveAnsweredBy(m.body.answeredBy))]
              + if m.from != s.to then [Send(s.to, id, Cancel(ELSEWHERE))] else [])
    else if m.body.Reject? && Pending(s) && m.body.inReplyTo.None? then
      Finish(s.(endedBy := ByOther), StopAll(run), Some(EffectiveReason(m.body.reason)))
    else if s.phase == ACTIVE && m.body.Answer? && m.body.inReplyTo.None? && Some(m.from) != s.peer then
      Outcome(s, [Send(m.from, id, Bye("session.already-answered"))])
    else if s.phase == ACTIVE && ForActive(m.body) then OnActive(id, s, m)
    else Outcome(s, [InvalidState(m)])
  }

  function OnResponder(id: string, s: Session, run: set<Name>, m: Message): Outcome {
    if m.body.Cancel? then
      var reason := EffectiveReason(m.body.reason);
      if s.phase == OFFERED then Finish(s, [], Some(reason))
      else if s.phase == ALERTING then
        Finish(s, StopIf(run, TRingLocal) + (if reason != ELSEWHERE then [Ui("missed_call", "")] else []),
               Some(reason))
      else if s.phase == ACTIVE && !s.initiatorSpoke && reason != ELSEWHERE then
        Finish(s, [], Some(reason))
      else Outcome(s, [InvalidState(m)])
    else if s.phase == ACTIVE then
      var s1 := s.(initiatorSpoke := true);
      if ForActive(m.body) then OnActive(id, s1, m) else Outcome(s1, [InvalidState(m)])
    else Outcome(s, [InvalidState(m)])
  }

  /** An ended session: only a late answer is spoken to. */
  function OnEnded(id: string, s: Session, m: Message): Outcome {
    if m.body.Answer? && s.role == Initiator && m.body.inReplyTo.None? then
      Outcome(s, [Send(m.from, id, Bye(if s.endedBy == ByCancel then "session.cancelled"
                                       else if s.answered then "session.already-answered" else "session.failed"))])
    else Outcome(s, [Drop("ended-session")])
  }

  /** A received `error`: only the relay's own no-response outcome ends an attempt. */
  function OnError(id: string, s: Session, run: set<Name>, m: Message): Outcome
    requires m.body.Error?
  {
    if m.body.reason != "transport.no-response" || !OwnAttempt(s) then Outcome(s, [Ui("error", m.body.reason)])
    else Finish(s.(endedBy := ByOther), StopAll(run), Some("transport.no-response"))
  }

  function Received(cx: Context, id: string, s: Session, run: set<Name>, m: Message): Outcome
    requires !m.body.Invite?
  {
    if m.body.Error? then OnError(id, s, run, m)
    else if s.phase == ENDED then OnEnded(id, s, m)
    else if s.role == Initiator then OnInitiator(cx, id, s, run, m)
    else OnResponder(id, s, run, m)
  }

  function NewAttempt(to: string): Session {
    Session(Initiator, INVITING, to, None, None, NoUpdate, false, 0, Unset, false, false)
  }

  function NewOffer(phase: Phase, from: string, expires: Option<int>): Session {
    Session(Responder, phase, from, Some(from), expires, NoUpdate, false, 0, Unset, false, false)
  }

  // ---- what every session keeps

  function RunAfter(run: set<Name>, ops: seq<Op>): set<Name> {
    if ops == [] then run
    else
      var before := RunAfter(run, ops[..|ops| - 1]);
      match ops[|ops| - 1]
      case StartTimer(n, _) => before + {n}
      case StopTimer(n) => before - {n}
      case _ => before
  }

  /** Exactly the timer its phase calls for is running. */
  ghost predicate TimersFit(s: Session, run: set<Name>) {
    match s.phase
    case INVITING => run == {TEstablish}
    case PROCEEDING => run == {TRing} || run == {TQueue}
    case ALERTING => run == {TRingLocal}
    case _ => run == {}
  }

  ghost predicate SessionOk(s: Session) {
    && (s.media <==> s.phase == ACTIVE)
    && (s.outstanding != NoUpdate ==> s.phase == ACTIVE)
    && (s.phase in {INVITING, PROCEEDING} ==> s.role == Initiator && s.peer == None && !s.answered)
    && (s.phase in {OFFERED, ALERTING} ==> s.role == Responder)
    && (s.phase == ACTIVE ==> s.peer.Some? && (s.role == Initiator ==> s.answered))
    && (s.endedBy != Unset ==> s.phase == ENDED)
    && (s.role == Initiator && s.phase == ENDED ==> (s.answered <==> s.endedBy == Unset))
    && (s.role == Responder ==> s.peer == Some(s.to) && s.endedBy == Unset && !s.answered)
  }

  function Rank(p: Phase): nat {
    match p
    case INVITING => 0 case OFFERED => 0
    case PROCEEDING => 1 case ALERTING => 1
    case ACTIVE => 2 case ENDED => 3
  }

  /** Phases only move forward, ENDED is final, and an answered peer never changes. */
  ghost predicate Forward(s: Session, t: Session) {
    && t.role == s.role && t.to == s.to && t.inviteExpires == s.inviteExpires
    && Rank(s.phase) <= Rank(t.phase)
    && (s.phase == ENDED ==> t == s)
    && (s.phase == ACTIVE ==> t.peer == s.peer && t.answered == s.answered)
  }

  /** Media is started exactly on entering ACTIVE and stopped exactly on leaving it. */
  ghost predicate MediaFits(s: Session, t: Session, ops: seq<Op>) {
    && (MediaStart in ops <==> s.phase != ACTIVE && t.phase == ACTIVE)
    && (MediaStop in ops <==> s.phase == ACTIVE && t.phase != ACTIVE)
  }

  ghost predicate StepKeeps(s: Session, run: set<Name>, o: Outcome) {
    && SessionOk(o.s) && TimersFit(o.s, RunAfter(run, o.ops)) && Forward(s, o.s) && MediaFits(s, o.s, o.ops)
  }

  lemma {:induction false} RunAfterAppend(run: set<Name>, a: seq<Op>, b: seq<Op>)
    ensures RunAfter(run, a + b) == RunAfter(RunAfter(run, a), b)
  {
    if b == [] {
      assert a + b == a;
    } else {
      var front := b[..|b| - 1];
      RunAfterAppend(run, a, front);
      assert (a + b)[..|a + b| - 1] == a + front;
    }
  }

  ghost predicate Quiet(ops: seq<Op>) {
    forall o :: o in ops ==> !o.StartTimer? && !o.StopTimer?
  }

  lemma {:induction false} QuietRuns(run: set<Name>, a: seq<Op>, b: seq<Op>)
    requires Quiet(b)
    ensures RunAfter(run, a + b) == RunAfter(run, a)
  {
    if b == [] {
      assert a + b == a;
    } else {
      var front := b[..|b| - 1];
      QuietRuns(run, a, front);
      assert (a + b)[..|a + b| - 1] == a + front;
    }
  }

  lemma StopRuns(run: set<Name>, n: Name)
    ensures RunAfter(run, StopIf(run, n)) == run - {n}
  {
    assert RunAfter(run, []) == run;
    assert [StopTimer(n)][..0] == [];
  }

  lemma StopAllRuns(run: set<Name>)
    ensures RunAfter(run, StopAll(run)) == {}
    ensures MediaStart !in StopAll(run) && MediaStop !in StopAll(run)
  {
    StopRuns(run, TEstablish);
    RunAfterAppend(run, StopIf(run, TEstablish), StopIf(run, TRing));
    assert StopIf(run, TRing) == StopIf(run - {TEstablish}, TRing);
    StopRuns(run - {TEstablish}, TRing);
    var two := StopIf(run, TEstablish) + StopIf(run, TRing);
    RunAfterAppend(run, two, StopIf(run, TQueue));
    assert StopIf(run, TQueue) == StopIf(run - {TEstablish} - {TRing}, TQueue);
    StopRuns(run - {TEstablish} - {TRing}, TQueue);
    RunAfterAppend(run, two + StopIf(run, TQueue), StopIf(run, TRingLocal));
    assert StopIf(run, TRingLocal) == StopIf(run - {TEstablish} - {TRing} - {TQueue}, TRingLocal);
    StopRuns(run - {TEstablish} - {TRing} - {TQueue}, TRingLocal);
    forall n: Name ensures n !in run - {TEstablish} - {TRing} - {TQueue} - {TRingLocal} {
      match n case TEstablish => case TRing => case TQueue => case TRingLocal =>
    }
    assert run - {TEstablish} - {TRing} - {TQueue} - {TRingLocal} == {};
  }

  lemma StartRuns(run: set<Name>, a: seq<Op>, n: Name, secs: int)
    ensures RunAfter(run, a + [StartTimer(n, secs)]) == RunAfter(run, a) + {n}
  {
    assert (a + [StartTimer(n, secs)])[..|a|] == a;
  }

  /** Finishing a session runs no timer and stops media if it ran. */
  lemma FinishKeeps(s: Session, u: Session, run: set<Name>, before: seq<Op>, surface: Option<string>)
    requires SessionOk(s) && s.phase != ENDED && RunAfter(run, before) == {}
    requires MediaStart !in before && MediaStop !in before
    requires u == s || u == s.(endedBy := ByCancel) || u == s.(endedBy := ByOther)
          || (s.phase == ACTIVE && u == s.(initiatorSpoke := true)) || u == s.(phase := PROCEEDING, endedBy := ByCancel, requeues := u.requeues)
    requires s.role == Initiator && Pending(s) <==> u.endedBy != Unset
    ensures StepKeeps(s, run, Finish(u, before, surface))
  {
    hide RunAfter;
    var tail := EndOps(u, surface);
    QuietRuns(run, before, tail);
    assert MediaStart !in tail && (MediaStop in tail <==> s.media) by { hide SessionOk; }
    assert MediaFits(s, EndedSession(u), before + tail) by { hide EndOps; }
    hide MediaFits, EndOps;
  }

  lemma FiredKeeps(name: Name, id: string, s: Session, run: set<Name>)
    requires SessionOk(s) && TimersFit(s, run) && name in run
    ensures StepKeeps(s, run - {name}, Fired(name, id, s))
    ensures Fired(name, id, s).s.phase == ENDED
  {
    var empty: set<Name> := {};
    assert run - {name} == empty;
    var ops := if name == TRingLocal then [FireTimer(name), Send(s.to, id, Reject("user.no-answer", None))]
               else [FireTimer(name)] + [Send(s.to, id, Cancel("session.timeout"))];
    assert [] + ops == ops;
    QuietRuns(empty, [], ops);
    if name == TRingLocal {
      FinishKeeps(s, s, empty, ops, Some("user.no-answer"));
    } else {
      FinishKeeps(s, s.(endedBy := ByCancel), empty, ops, Some("session.timeout"));
    }
  }

  lemma QuietKeeps(s: Session, run: set<Name>, o: Outcome)
    requires SessionOk(s) && TimersFit(s, run) && Quiet(o.ops)
    requires SessionOk(o.s) && o.s.phase == s.phase && Forward(s, o.s) && MediaStart !in o.ops && MediaStop !in o.ops
    ensures StepKeeps(s, run, o)
  {
    assert [] + o.ops == o.ops;
    QuietRuns(run, [], o.ops);
  }

  lemma OneRun(run: set<Name>, o: Op)
    ensures Quiet([o]) ==> RunAfter(run, [o]) == run
  {
    assert [o][..0] == [];
  }

  lemma RequestedKeeps(cx: Context, now: int, id: string, s: Session, run: set<Name>, v: Verb)
    requires SessionOk(s) && TimersFit(s, run)
    ensures StepKeeps(s, run, Requested(cx, now, id, s, run, v))
  {
    hide RunAfter, StopAll, EndOps;
    var o := Requested(cx, now, id, s, run, v);
    StopAllRuns(run);
    StopRuns(run, TRingLocal);
    if o.s == s {
      QuietKeeps(s, run, o);
    } else {
      match v
      case CancelCall =>
        var ops := StopAll(run) + [Send(s.to, id, Cancel("user.cancelled"))];
        QuietRuns(run, StopAll(run), [Send(s.to, id, Cancel("user.cancelled"))]);
        FinishKeeps(s, s.(endedBy := ByCancel), run, ops, None);
      case HangUp(reason) =>
        var ops := [Send(PeerOf(s), id, Bye(Or(reason, "user.hangup")))];
        OneRun(run, ops[0]);
        FinishKeeps(s, s, run, ops, None);
      case Alert(advertised) =>
        if s.inviteExpires.Some? && s.inviteExpires.value <= now {
          var ops := [Send(s.to, id, Reject("session.expired", None))];
          OneRun(run, ops[0]);
          FinishKeeps(s, s, run, ops, None);
        } else {
          var first := [Send(s.to, id, Progress(Ringing, advertised, 0))];
          OneRun(run, first[0]);
          StartRuns(run, first, TRingLocal, Or(advertised, Or(cx.tRingLocal, T_RING)));
          assert o.ops == first + [StartTimer(TRingLocal, Or(advertised, Or(cx.tRingLocal, T_RING)))];
        }
      case AutoReject(reason) =>
        var ops := [Send(s.to, id, Reject(reason, None))];
        OneRun(run, ops[0]);
        FinishKeeps(s, s, run, ops, None);
      case Accept(who) =>
        QuietRuns(run, StopIf(run, TRingLocal), [Send(s.to, id, Answer(who, None)), MediaStart]);
      case Decline(reason) =>
        var reject := [Send(s.to, id, Reject(Or(reason, "user.declined"), None))];
        QuietRuns(run, StopIf(run, TRingLocal), reject);
        FinishKeeps(s, s, run, StopIf(run, TRingLocal) + reject, None);
      case _ =>
        QuietKeeps(s, run, o);
    }
  }

  lemma NotedRuns(run: set<Name>, status: Status)
    ensures RunAfter(run, Noted(run, status)) == run - {TEstablish}
    ensures MediaStart !in Noted(run, status) && MediaStop !in Noted(run, status)
  {
    StopRuns(run, TEstablish);
    QuietRuns(run, StopIf(run, TEstablish), [UiProgress(status)]);
  }

  lemma OverQueuedKeeps(id: string, s: Session, run: set<Name>, status: Status)
    requires SessionOk(s) && OwnAttempt(s)
    ensures StepKeeps(s, run, TimeoutCancel(id, s.(phase := PROCEEDING, requeues := s.requeues + 1),
                                            Noted(run, status) + StopAll(run - {TEstablish})))
  {
    var run1 := run - {TEstablish};
    var stopped := Noted(run, status) + StopAll(run1);
    NotedRuns(run, status);
    StopAllRuns(run1);
    RunAfterAppend(run, Noted(run, status), StopAll(run1));
    var cancel := [Send(s.to, id, Cancel("session.timeout"))];
    QuietRuns(run, stopped, cancel);
    FinishKeeps(s, s.(phase := PROCEEDING, requeues := s.requeues + 1, endedBy := ByCancel), run,
                stopped + cancel, Some("session.timeout"));
  }

  ghost predicate NoMedia(ops: seq<Op>) {
    MediaStart !in ops && MediaStop !in ops
  }

  lemma QueuedRuns(run: set<Name>, status: Status, secs: int)
    requires run <= {TEstablish, TRing, TQueue}
    ensures var ops := Noted(run, status) + StopIf(run - {TEstablish}, TRing) + [StartTimer(TQueue, secs)];
            RunAfter(run, ops) == {TQueue} && NoMedia(ops)
  {
    var run1 := run - {TEstablish};
    NotedRuns(run, status);
    RunAfterAppend(run, Noted(run, status), StopIf(run1, TRing));
    StopRuns(run1, TRing);
    StartRuns(run, Noted(run, status) + StopIf(run1, TRing), TQueue, secs);
  }

  lemma RingingRuns(run: set<Name>, status: Status, secs: int)
    requires run <= {TEstablish, TRing, TQueue}
    ensures var stopped := Noted(run, status) + StopIf(run - {TEstablish}, TQueue);
            && RunAfter(run, stopped + [StartTimer(TRing, secs)]) == {TRing} && (TRing in run ==> RunAfter(run, stopped) == {TRing})
            && NoMedia(stopped) && NoMedia(stopped + [StartTimer(TRing, secs)])
  {
    var run1 := run - {TEstablish};
    NotedRuns(run, status);
    RunAfterAppend(run, Noted(run, status), StopIf(run1, TQueue));
    StopRuns(run1, TQueue);
    StartRuns(run, Noted(run, status) + StopIf(run1, TQueue), TRing, secs);
  }

  lemma ProceedKeeps(s: Session, requeues: nat, run: set<Name>, ops: seq<Op>)
    requires SessionOk(s) && OwnAttempt(s) && NoMedia(ops)
    requires RunAfter(run, ops) == {TRing} || RunAfter(run, ops) == {TQueue}
    ensures StepKeeps(s, run, Outcome(s.(phase := PROCEEDING, requeues := requeues), ops))
  {
  }

  lemma QueuedKeeps(cx: Context, id: string, s: Session, run: set<Name>, m: Message)
    requires SessionOk(s) && TimersFit(s, run) && OwnAttempt(s) && m.body.Progress? && EffectiveStatus(m.body.status) == Queued
    ensures StepKeeps(s, run, OnProgress(cx, id, s, run, m))
  {
    if s.requeues + 1 > MAX_REQUEUES {
      OverQueuedKeeps(id, s, run, Queued);
    } else {
      QueuedRuns(run, Queued, Min(m.body.queueTimeout, T_QUEUE_CAP));
      ProceedKeeps(s, s.requeues + 1, run, OnProgress(cx, id, s, run, m).ops);
    }
  }

  lemma RingingKeeps(cx: Context, id: string, s: Session, run: set<Name>, m: Message)
    requires SessionOk(s) && TimersFit(s, run) && OwnAttempt(s) && m.body.Progress? && EffectiveStatus(m.body.status) == Ringing
    ensures StepKeeps(s, run, OnProgress(cx, id, s, run, m))
  {
    RingingRuns(run, Ringing,
      if m.body.ringTimeout.Some? then Clamp(m.body.ringTimeout.value, T_RING_MIN, T_RING_MAX) else Or(cx.tRing, T_RING));
    ProceedKeeps(s, 0, run, OnProgress(cx, id, s, run, m).ops);
  }

  lemma TryingKeeps(cx: Context, id: string, s: Session, run: set<Name>, m: Message)
    requires SessionOk(s) && TimersFit(s, run) && OwnAttempt(s) && m.body.Progress?
    requires EffectiveStatus(m.body.status) != Queued && EffectiveStatus(m.body.status) != Ringing
    ensures StepKeeps(s, run, OnProgress(cx, id, s, run, m))
  {
    var status := EffectiveStatus(m.body.status);
    NotedRuns(run, status);
    StartRuns(run, Noted(run, status), TRing, Or(cx.tRing, T_RING));
    ProceedKeeps(s, s.requeues, run, OnProgress(cx, id, s, run, m).ops);
  }

  lemma ProgressKeeps(cx: Context, id: string, s: Session, run: set<Name>, m: Message)
    requires SessionOk(s) && TimersFit(s, run) && OwnAttempt(s) && m.body.Progress?
    ensures StepKeeps(s, run, OnProgress(cx, id, s, run, m))
  {
    var status := EffectiveStatus(m.body.status);
    if status == Queued {
      QueuedKeeps(cx, id, s, run, m);
    } else if status == Ringing {
      RingingKeeps(cx, id, s, run, m);
    } else {
      TryingKeeps(cx, id, s, run, m);
    }
  }

  lemma ActiveKeeps(id: string, s: Session, t: Session, run: set<Name>, m: Message)
    requires SessionOk(s) && TimersFit(s, run) && s.phase == ACTIVE && ForActive(m.body)
    requires t == s || t == s.(initiatorSpoke := true)
    ensures StepKeeps(s, run, OnActive(id, t, m))
  {
    var o := OnActive(id, t, m);
    if m.body.Bye? {
      FinishKeeps(s, t, run, [], Some(EffectiveReason(m.body.reason)));
    } else {
      QuietKeeps(s, run, o);
    }
  }

  lemma AnsweredKeeps(cx: Context, id: string, s: Session, run: set<Name>, m: Message)
    requires SessionOk(s) && OwnAttempt(s) && m.body.Answer? && m.body.inReplyTo.None?
    ensures StepKeeps(s, run, OnInitiator(cx, id, s, run, m))
  {
    StopAllRuns(run);
    var media := [MediaStart, Ui("answered", EffectiveAnsweredBy(m.body.answeredBy))];
    var cancel := if m.from != s.to then [Send(s.to, id, Cancel(ELSEWHERE))] else [];
    QuietRuns(run, StopAll(run), media);
    QuietRuns(run, StopAll(run) + media, cancel);
  }

  lemma InitiatorKeeps(cx: Context, id: string, s: Session, run: set<Name>, m: Message)
    requires SessionOk(s) && TimersFit(s, run) && s.role == Initiator && s.phase != ENDED && !m.body.Error? && !m.body.Invite?
    ensures StepKeeps(s, run, OnInitiator(cx, id, s, run, m))
  {
    var o := OnInitiator(cx, id, s, run, m);
    StopAllRuns(run);
    if m.body.Progress? && Pending(s) {
      ProgressKeeps(cx, id, s, run, m);
    } else if m.body.Answer? && Pending(s) && m.body.inReplyTo.None? {
      AnsweredKeeps(cx, id, s, run, m);
    } else if m.body.Reject? && Pending(s) && m.body.inReplyTo.None? {
      FinishKeeps(s, s.(endedBy := ByOther), run, StopAll(run), Some(EffectiveReason(m.body.reason)));
    } else if s.phase == ACTIVE && ForActive(m.body) && !(m.body.Answer? && m.body.inReplyTo.None?) {
      ActiveKeeps(id, s, s, run, m);
    } else {
      QuietKeeps(s, run, o);
    }
  }

  lemma ResponderKeeps(id: string, s: Session, run: set<Name>, m: Message)
    requires SessionOk(s) && TimersFit(s, run) && s.role == Responder && s.phase != ENDED && !m.body.Error?
    ensures StepKeeps(s, run, OnResponder(id, s, run, m))
  {
    var o := OnResponder(id, s, run, m);
    if m.body.Cancel? {
      var reason := EffectiveReason(m.body.reason);
      if s.phase == ALERTING {
        StopRuns(run, TRingLocal);
        var missed := if reason != ELSEWHERE then [Ui("missed_call", "")] else [];
        QuietRuns(run, StopIf(run, TRingLocal), missed);
        FinishKeeps(s, s, run, StopIf(run, TRingLocal) + missed, Some(reason));
      } else if o.s == s {
        QuietKeeps(s, run, o);
      } else {
        FinishKeeps(s, s, run, [], Some(reason));
      }
    } else if s.phase == ACTIVE && ForActive(m.body) {
      ActiveKeeps(id, s, s.(initiatorSpoke := true), run, m);
    } else {
      QuietKeeps(s, run, o);
    }
  }

  /** Every received message keeps the session's shape, its timer and its direction. */
  lemma ReceivedKeeps(cx: Context, id: string, s: Session, run: set<Name>, m: Message)
    requires SessionOk(s) && TimersFit(s, run) && !m.body.Invite?
    ensures StepKeeps(s, run, Received(cx, id, s, run, m))
  {
    if m.body.Error? {
      if OnError(id, s, run, m).s == s {
        QuietKeeps(s, run, OnError(id, s, run, m));
      } else {
        StopAllRuns(run);
        FinishKeeps(s, s.(endedBy := ByOther), run, StopAll(run), Some("transport.no-response"));
      }
    } else if s.phase == ENDED {
      QuietKeeps(s, run, OnEnded(id, s, m));
    } else if s.role == Initiator {
      InitiatorKeeps(cx, id, s, run, m);
    } else {
      ResponderKeeps(id, s, run, m);
    }
  }
}
