/**
 * The `Endpoint` object of `endpoint.ts`: its sessions, its `Timers` and its keys are updated in place, branch by
 * branch as the source does it, and each method is proved to do what the functions of `Calls`, `Endpoints` and
 * `EndpointClock` say, so what is proved of every run of those holds of every run of this object.
 */
module EndpointObject {
  import opened Prelude
  import opened TimerTable
  import opened Calls
  import opened Endpoints
  import opened KeyRings
  import P = PresenceKeys
  import EC = EndpointClock

  lemma EmitsEnd(ops: seq<Op>, more: seq<Op>)
    ensures CallEmits(ops + more) == CallEmits(ops) + CallEmits(more)
  {
  }

  lemma {:induction false} ApplyMore(t: Table, id: string, a: seq<Op>, b: seq<Op>)
    ensures ApplyOps(t, id, a + b) == ApplyOps(ApplyOps(t, id, a), id, b)
    decreases |b|
  {
    if b == [] {
      assert a + b == a;
    } else {
      var front := b[..|b| - 1];
      ApplyMore(t, id, a, front);
      assert (a + b)[..|a + b| - 1] == a + front;
    }
  }

  class EndpointObject {
    const cx: Context
    const clock: Timers
    const ring: KeyRing
    var sessions: map<string, Session>
    var emit: seq<Emit>

    // The operations done so far about one session, and the timers and emissions they started from.
    ghost var done: seq<Op>
    ghost var running: set<Name>
    ghost var timersBefore: Table
    ghost var emitBefore: seq<Emit>

    ghost predicate Valid()
      reads this, clock
    {
      clock.Valid()
    }

    /** The endpoint as a value. */
    ghost function View(): Endpoint
      reads this, clock, ring
    {
      Endpoint(cx, sessions, clock.Contents(), ring.Contents())
    }

    constructor (cx: Context, start: int, configured: bool, sealed: set<string>, tRotate: nat, supply: seq<string>)
      ensures Valid() && fresh(clock) && fresh(ring) && emit == []
      ensures View() == EC.Initial(cx, start, configured, sealed, tRotate, supply)
    {
      this.cx := cx;
      clock := new Timers(start);
      ring := new KeyRing(configured, sealed, tRotate, supply);
      sessions, emit := map[], [];
    }

    // ---- single operations

    ghost predicate Following(id: string)
      reads this, clock
    {
      && clock.Valid()
      && clock.Contents() == ApplyOps(timersBefore, id, done)
      && emit == emitBefore + CallEmits(done)
      && running == RunningOf(clock.Contents(), id)
    }

    /** Nothing done yet about a session that is held. */
    ghost predicate Ready(id: string)
      reads this, clock
    {
      Following(id) && done == [] && id in sessions
    }

    /** The session has come out as `o` says, and everything else about the calls is as it was. */
    twostate predicate Took(id: string, o: Outcome)
      reads this, clock
    {
      Following(id) && sessions == old(sessions)[id := o.s] && done == o.ops
    }

    ghost method Begin(id: string)
      requires Valid()
      modifies this`done, this`running, this`timersBefore, this`emitBefore
      ensures Following(id) && done == []
      ensures timersBefore == clock.Contents() && emitBefore == emit && running == RunningOf(clock.Contents(), id)
    {
      done, timersBefore, emitBefore := [], clock.Contents(), emit;
      running := RunningOf(clock.Contents(), id);
      assert emit == emit + CallEmits([]);
    }

    method Push(id: string, op: Op)
      requires Following(id) && !op.StartTimer? && !op.StopTimer?
      modifies this`emit, this`done
      ensures Following(id) && done == old(done) + [op]
    {
      EmitsEnd(done, [op]);
      ApplyMore(timersBefore, id, done, [op]);
      emit := emit + [OfCall(op)];
      done := done + [op];
    }

    method Stop(name: Name, id: string)
      requires Following(id)
      modifies this`emit, this`done, this`running, clock
      ensures Following(id) && done == old(done) + StopIf(old(running), name) && running == old(running) - {name}
    {
      AnyName(name);
      StoppedRunning(clock.Contents(), name, id);
      EmitsEnd(done, [StopTimer(name)]);
      ApplyMore(timersBefore, id, done, [StopTimer(name)]);
      var was := clock.Stop(name, id);
      if was {
        emit := emit + [OfCall(StopTimer(name))];
        done := done + [StopTimer(name)];
      } else {
        assert old(clock.Contents()).running - {Key(name, id)} == old(clock.Contents()).running;
      }
      running := running - {name};
    }

    method Start(name: Name, id: string, seconds: int)
      requires Following(id)
      modifies this`emit, this`done, this`running, clock
      ensures Following(id) && done == old(done) + [StartTimer(name, seconds)] && running == old(running) + {name}
    {
      StartedRunning(clock.Contents(), name, id, seconds);
      EmitsEnd(done, [StartTimer(name, seconds)]);
      ApplyMore(timersBefore, id, done, [StartTimer(name, seconds)]);
      clock.Start(name, id, seconds);
      emit := emit + [OfCall(StartTimer(name, seconds))];
      done := done + [StartTimer(name, seconds)];
      running := running + {name};
    }

    lemma StoppedOrNot(t: Table, name: Name, id: string, seconds: int)
      ensures Started(Stopped(t, name, id), name, id, seconds) == Started(t, name, id, seconds)
    {
    }

    /** A restart says nothing about the stop. */
    method Restart(name: Name, id: string, seconds: int)
      requires Following(id)
      modifies this`emit, this`done, this`running, clock
      ensures Following(id) && done == old(done) + [StartTimer(name, seconds)] && running == old(running) + {name}
    {
      ghost var t := clock.Contents();
      StartedRunning(t, name, id, seconds);
      EmitsEnd(done, [StartTimer(name, seconds)]);
      ApplyMore(timersBefore, id, done, [StartTimer(name, seconds)]);
      var _ := clock.Stop(name, id);
      StoppedOrNot(t, name, id, seconds);
      clock.Start(name, id, seconds);
      emit := emit + [OfCall(StartTimer(name, seconds))];
      done := done + [StartTimer(name, seconds)];
      running := running + {name};
    }

    method StopAllTimers(id: string)
      requires Following(id)
      modifies this`emit, this`done, this`running, clock
      ensures Following(id) && done == old(done) + StopAll(old(running)) && running == {}
    {
      hide ApplyOps, RunningOf;
      Stop(TEstablish, id);
      Stop(TRing, id);
      Stop(TQueue, id);
      Stop(TRingLocal, id);
      forall n: Name ensures n !in running { AnyName(n); }
    }

    /** Media stops before the end is surfaced; a pending update is discarded. */
    method End(id: string, s: Session, surface: Option<string>)
      requires Following(id)
      modifies this`sessions, this`emit, this`done
      ensures Following(id) && done == old(done) + EndOps(s, surface) && sessions == old(sessions)[id := EndedSession(s)]
    {
      hide ApplyOps, RunningOf;
      if s.media { Push(id, MediaStop); }
      if surface.Some? { Push(id, Ui("ended", surface.value)); }
      sessions := sessions[id := s.(phase := ENDED, outstanding := NoUpdate, media := false)];
    }
 
    method Timeout(id: string, s: Session)
      requires Following(id)
      modifies this`sessions, this`emit, this`done
      ensures Following(id) && sessions == old(sessions)[id := EndedSession(s.(endedBy := ByCancel))]
      ensures done == TimeoutCancel(id, s, old(done)).ops
    {
      hide ApplyOps, RunningOf;
      Push(id, Send(s.to, id, Cancel("session.timeout")));
      End(id, s.(endedBy := ByCancel), Some("session.timeout"));
    }

    // ---- timers

    method Fire(name: Name, id: string)
      requires Ready(id)
      modifies this`sessions, this`emit, this`done
      ensures Took(id, Fired(name, id, old(sessions[id])))
    {
      hide ApplyOps, RunningOf;
      var s := sessions[id];
      Push(id, FireTimer(name));
      if name == TRingLocal {
        Push(id, Send(s.to, id, Reject("user.no-answer", None)));
        End(id, s, Some("user.no-answer"));
      } else {
        Timeout(id, s);
      }
    }

    // ---- local requests about a session held

    method Refuse(id: string, why: string)
      requires Ready(id)
      modifies this`emit, this`done
      ensures Took(id, Outcome(old(sessions[id]), [Refused(why)]))
    {
      hide ApplyOps, RunningOf;
      Push(id, Refused(why));
    }

    method LocalCancel(id: string)
      requires Ready(id)
      modifies this`sessions, this`emit, this`done, this`running, clock
      ensures Took(id, Requested(cx, old(clock.now), id, old(sessions[id]), old(running), CancelCall))
    {
      hide ApplyOps, RunningOf;
      var s := sessions[id];
      if !Pending(s) {
        Refuse(id, "invalid-state");
        return;
      }
      StopAllTimers(id);
      Push(id, Send(s.to, id, Cancel("user.cancelled")));
      End(id, s.(endedBy := ByCancel), None);
    }

    method LocalHangUp(id: string, reason: Option<string>)
      requires Ready(id)
      modifies this`sessions, this`emit, this`done
      ensures Took(id, Requested(cx, old(clock.now), id, old(sessions[id]), old(running), HangUp(reason)))
    {
      hide ApplyOps, RunningOf;
      var s := sessions[id];
      if s.phase != ACTIVE {
        Refuse(id, "invalid-state");
        return;
      }
      Push(id, Send(PeerOf(s), id, Bye(Or(reason, "user.hangup"))));
      End(id, s, None);
    }

    method LocalAlert(id: string, advertised: Option<int>)
      requires Ready(id)
      modifies this`sessions, this`emit, this`done, this`running, clock
      ensures Took(id, Requested(cx, old(clock.now), id, old(sessions[id]), old(running), Alert(advertised)))
    {
      hide ApplyOps, RunningOf;
      var s := sessions[id];
      if s.phase != OFFERED {
        Refuse(id, "invalid-state");
        return;
      }
      if s.inviteExpires.Some? && s.inviteExpires.value <= clock.now {
        Push(id, Send(s.to, id, Reject("session.expired", None)));
        End(id, s, None);
        return;
      }
      sessions := sessions[id := s.(phase := ALERTING)];
      Push(id, Send(s.to, id, Progress(Ringing, advertised, 0)));
      Start(TRingLocal, id, Or(advertised, Or(cx.tRingLocal, T_RING)));
    }

    method LocalAutoReject(id: string, why: string)
      requires Ready(id)
      modifies this`sessions, this`emit, this`done
      ensures Took(id, Requested(cx, old(clock.now), id, old(sessions[id]), old(running), AutoReject(why)))
    {
      hide ApplyOps, RunningOf;
      var s := sessions[id];
      if s.phase != OFFERED {
        Refuse(id, "invalid-state");
        return;
      }
      Push(id, Send(s.to, id, Reject(why, None)));
      End(id, s, None);
    }

    method LocalAccept(id: string, who: string)
      requires Ready(id)
      modifies this`sessions, this`emit, this`done, this`running, clock
      ensures Took(id, Requested(cx, old(clock.now), id, old(sessions[id]), old(running), Accept(who)))
    {
      hide ApplyOps, RunningOf;
      var s := sessions[id];
      if s.phase != ALERTING {
        Refuse(id, "invalid-state");
        return;
      }
      Stop(TRingLocal, id);
      Push(id, Send(s.to, id, Answer(who, None)));
      sessions := sessions[id := s.(phase := ACTIVE, peer := Some(s.to), media := true)];
      Push(id, MediaStart);
    }

    method LocalDecline(id: string, reason: Option<string>)
      requires Ready(id)
      modifies this`sessions, this`emit, this`done, this`running, clock
      ensures Took(id, Requested(cx, old(clock.now), id, old(sessions[id]), old(running), Decline(reason)))
    {
      hide ApplyOps, RunningOf;
      var s := sessions[id];
      if s.phase != ALERTING {
        Refuse(id, "invalid-state");
        return;
      }
      Stop(TRingLocal, id);
      Push(id, Send(s.to, id, Reject(Or(reason, "user.declined"), None)));
      End(id, s, None);
    }

    method LocalUpdate(id: string, uid: string, who: Option<string>)
      requires Ready(id)
      modifies this`sessions, this`emit, this`done
      ensures Took(id, Requested(cx, old(clock.now), id, old(sessions[id]), old(running), SendUpdate(uid, who)))
    {
      hide ApplyOps, RunningOf;
      var s := sessions[id];
      if s.phase != ACTIVE {
        Refuse(id, "invalid-state");
      } else if s.outstanding != NoUpdate {
        Refuse(id, "update-pending");
      } else {
        sessions := sessions[id := s.(outstanding := Outbound(uid))];
        Push(id, Send(PeerOf(s), id, Update(uid, who)));
      }
    }

    method LocalAnswerUpdate(id: string, ref: string, who: Option<string>)
      requires Ready(id)
      modifies this`sessions, this`emit, this`done
      ensures Took(id, Requested(cx, old(clock.now), id, old(sessions[id]), old(running), AnswerUpdate(ref, who)))
    {
      hide ApplyOps, RunningOf;
      var s := sessions[id];
      if s.outstanding != Inbound(ref) {
        Refuse(id, "no-pending-update");
        return;
      }
      sessions := sessions[id := s.(outstanding := NoUpdate)];
      Push(id, Send(PeerOf(s), id, Answer(Or(who, "user"), Some(ref))));
      Push(id, ApplyUpdate);
    }

    method LocalRejectUpdate(id: string, ref: string, why: string)
      requires Ready(id)
      modifies this`sessions, this`emit, this`done
      ensures Took(id, Requested(cx, old(clock.now), id, old(sessions[id]), old(running), RejectUpdate(ref, why)))
    {
      hide ApplyOps, RunningOf;
      var s := sessions[id];
      if s.outstanding != Inbound(ref) {
        Refuse(id, "no-pending-update");
        return;
      }
      sessions := sessions[id := s.(outstanding := NoUpdate)];
      Push(id, Send(PeerOf(s), id, Reject(why, Some(ref))));
    }

    method LocalInfo(id: string)
      requires Ready(id)
      modifies this`emit, this`done
      ensures Took(id, Requested(cx, old(clock.now), id, old(sessions[id]), old(running), SendInfo))
    {
      hide ApplyOps, RunningOf;
      var s := sessions[id];
      if s.phase != ACTIVE {
        Refuse(id, "invalid-state");
      } else {
        Push(id, Send(PeerOf(s), id, Info("")));
      }
    }

    // ---- received messages about a session held

    method RecvQueued(id: string, s: Session, seconds: int)
      requires Following(id)
      modifies this`sessions, this`emit, this`done, this`running, clock
      ensures Following(id)
      ensures var again := s.(requeues := s.requeues + 1);
        if again.requeues > MAX_REQUEUES then
          var o := TimeoutCancel(id, again, old(done) + StopAll(old(running)));
          sessions == old(sessions)[id := o.s] && done == o.ops
        else
          && sessions == old(sessions)[id := again]
          && done == old(done) + StopIf(old(running), TRing) + [StartTimer(TQueue, Min(seconds, T_QUEUE_CAP))]
    {
      hide ApplyOps, RunningOf;
      var again := s.(requeues := s.requeues + 1);
      if again.requeues > MAX_REQUEUES {
        StopAllTimers(id);
        Timeout(id, again);
      } else {
        Stop(TRing, id);
        Restart(TQueue, id, Min(seconds, T_QUEUE_CAP));
        sessions := sessions[id := again];
      }
    }

    method RecvRinging(id: string, ringTimeout: Option<int>)
      requires Following(id)
      modifies this`emit, this`done, this`running, clock
      ensures Following(id)
      ensures done == old(done) + StopIf(old(running), TQueue) +
        match ringTimeout
        case Some(secs) => [StartTimer(TRing, Clamp(secs, T_RING_MIN, T_RING_MAX))]
        case None => if TRing in old(running) then [] else [StartTimer(TRing, Or(cx.tRing, T_RING))]
    {
      hide ApplyOps, RunningOf;
      var ringRunning := clock.IsRunning(TRing, id);
      RunningIs(TRing, id);
      Stop(TQueue, id);
      if ringTimeout.Some? {
        Restart(TRing, id, Clamp(ringTimeout.value, T_RING_MIN, T_RING_MAX));
      } else if !ringRunning {
        Start(TRing, id, Or(cx.tRing, T_RING));
      }
    }

    method RecvProgress(id: string, m: Message)
      requires Ready(id) && m.body.Progress?
      modifies this`sessions, this`emit, this`done, this`running, clock
      ensures Took(id, OnProgress(cx, id, old(sessions[id]), old(running), m))
    {
      hide ApplyOps, RunningOf, StopAll, TimeoutCancel;
      var s := sessions[id].(phase := PROCEEDING);
      var status := EffectiveStatus(m.body.status);
      Stop(TEstablish, id);
      Push(id, UiProgress(status));
      assert done == Noted(old(running), status);
      if status == Queued {
        RecvQueued(id, s, m.body.queueTimeout);
      } else if status == Ringing {
        sessions := sessions[id := s.(requeues := 0)];
        RecvRinging(id, m.body.ringTimeout);
      } else {
        var ringRunning := clock.IsRunning(TRing, id);
        var queueRunning := clock.IsRunning(TQueue, id);
        RunningIs(TRing, id);
        RunningIs(TQueue, id);
        sessions := sessions[id := s];
        if !ringRunning && !queueRunning { Start(TRing, id, Or(cx.tRing, T_RING)); }
      }
    }

    lemma RunningIs(name: Name, id: string)
      requires Following(id)
      ensures Running(clock.Contents(), name, id) <==> name in running
    {
      AnyName(name);
    }

    method RecvActive(id: string, m: Message)
      requires Ready(id) && ForActive(m.body)
      modifies this`sessions, this`emit, this`done
      ensures Took(id, OnActive(id, old(sessions[id]), m))
    {
      hide ApplyOps, RunningOf;
      var s := sessions[id];
      match m.body
      case Bye(reason) => End(id, s, Some(EffectiveReason(reason)));
      case Info(about) =>
        if about in {"transport:webrtc", "media:dtmf"} { Push(id, Handover(about)); } else { Push(id, Drop("unknown-about")); }
      case Update(theirs, who) =>
        RecvUpdate(id, m);
      case Answer(_, ref) =>
        if s.outstanding != Outbound(ref.value) {
          Push(id, Drop("stale-update-reply"));
        } else {
          sessions := sessions[id := s.(outstanding := NoUpdate)];
          Push(id, ApplyUpdate);
        }
      case Reject(reason, ref) =>
        if s.outstanding != Outbound(ref.value) {
          Push(id, Drop("stale-update-reply"));
        } else {
          sessions := sessions[id := s.(outstanding := NoUpdate)];
          Push(id, Ui("update_rejected", EffectiveReason(reason)));
        }
    }

    method RecvUpdate(id: string, m: Message)
      requires Ready(id) && m.body.Update?
      modifies this`sessions, this`emit, this`done
      ensures Took(id, OnActive(id, old(sessions[id]), m))
    {
      hide ApplyOps, RunningOf;
      var s := sessions[id];
      var theirs := m.body.uid;
      if s.outstanding.Inbound? {
        sessions := sessions[id := s.(outstanding := NoUpdate)];
        Push(id, Send(m.from, id, Error("session.update-pending", theirs)));
      } else if s.outstanding.Outbound? && Less(s.outstanding.id, theirs) {
        Push(id, Send(m.from, id, Reject("session.glare", Some(theirs))));
      } else {
        if s.outstanding.Outbound? { Push(id, Ui("update_rejected", "session.glare")); }
        sessions := sessions[id := s.(outstanding := Inbound(theirs))];
        Push(id, Ui("update_offered", ""));
        if m.body.who.Some? { Push(id, Ui("answered", EffectiveAnsweredBy(m.body.who.value))); }
      }
    }

    method RecvAnswer(id: string, m: Message)
      requires Ready(id) && m.body.Answer? && Pending(sessions[id]) && m.body.inReplyTo.None?
      modifies this`sessions, this`emit, this`done, this`running, clock
      ensures Took(id, OnInitiator(cx, id, old(sessions[id]), old(running), m))
    {
      hide ApplyOps, RunningOf, OnProgress, OnActive;
      var s := sessions[id];
      StopAllTimers(id);
      s := s.(phase := ACTIVE, answered := true, peer := Some(m.from), media := true);
      sessions := sessions[id := s];
      Push(id, MediaStart);
      Push(id, Ui("answered", EffectiveAnsweredBy(m.body.answeredBy)));
      if m.from != s.to { Push(id, Send(s.to, id, Cancel(ELSEWHERE))); }
    }

    method RecvAsInitiator(id: string, m: Message)
      requires Ready(id)
      modifies this`sessions, this`emit, this`done, this`running, clock
      ensures Took(id, OnInitiator(cx, id, old(sessions[id]), old(running), m))
    {
      hide ApplyOps, RunningOf, OnProgress, OnActive;
      var s := sessions[id];
      if m.body.Progress? && Pending(s) {
        RecvProgress(id, m);
      } else if m.body.Answer? && Pending(s) && m.body.inReplyTo.None? {
        RecvAnswer(id, m);
      } else if m.body.Reject? && Pending(s) && m.body.inReplyTo.None? {
        StopAllTimers(id);
        End(id, s.(endedBy := ByOther), Some(EffectiveReason(m.body.reason)));
      } else if s.phase == ACTIVE && m.body.Answer? && m.body.inReplyTo.None? && Some(m.from) != s.peer {
        Push(id, Send(m.from, id, Bye("session.already-answered")));
      } else if s.phase == ACTIVE && ForActive(m.body) {
        RecvActive(id, m);
      } else {
        Push(id, InvalidState(m));
      }
    }

    method RecvCancel(id: string, m: Message)
      requires Ready(id) && m.body.Cancel?
      modifies this`sessions, this`emit, this`done, this`running, clock
      ensures Took(id, OnResponder(id, old(sessions[id]), old(running), m))
    {
      hide ApplyOps, RunningOf, EffectiveReason;
      var s := sessions[id];
      var reason := EffectiveReason(m.body.reason);
      if s.phase == OFFERED {
        End(id, s, Some(reason));
      } else if s.phase == ALERTING {
        Stop(TRingLocal, id);
        if reason != ELSEWHERE { Push(id, Ui("missed_call", "")); }
        End(id, s, Some(reason));
      } else if s.phase == ACTIVE && !s.initiatorSpoke && reason != ELSEWHERE {
        End(id, s, Some(reason));
      } else {
        Push(id, InvalidState(m));
      }
    }

    method RecvAsResponder(id: string, m: Message)
      requires Ready(id)
      modifies this`sessions, this`emit, this`done, this`running, clock
      ensures Took(id, OnResponder(id, old(sessions[id]), old(running), m))
    {
      hide ApplyOps, RunningOf, OnActive;
      var s := sessions[id];
      if m.body.Cancel? {
        RecvCancel(id, m);
      } else if s.phase == ACTIVE {
        sessions := sessions[id := s.(initiatorSpoke := true)];
        if ForActive(m.body) { RecvActive(id, m); } else { Push(id, InvalidState(m)); }
      } else {
        Push(id, InvalidState(m));
      }
    }

    method RecvEnded(id: string, m: Message)
      requires Ready(id)
      modifies this`emit, this`done
      ensures Took(id, OnEnded(id, old(sessions[id]), m))
    {
      hide ApplyOps, RunningOf;
      var s := sessions[id];
      if m.body.Answer? && s.role == Initiator && m.body.inReplyTo.None? {
        var reason := if s.endedBy == ByCancel then "session.cancelled"
                      else if s.answered then "session.already-answered" else "session.failed";
        Push(id, Send(m.from, id, Bye(reason)));
      } else {
        Push(id, Drop("ended-session"));
      }
    }

    method RecvError(id: string, m: Message)
      requires Ready(id) && m.body.Error?
      modifies this`sessions, this`emit, this`done, this`running, clock
      ensures Took(id, OnError(id, old(sessions[id]), old(running), m))
    {
      hide ApplyOps, RunningOf;
      var s := sessions[id];
      if m.body.reason != "transport.no-response" || !OwnAttempt(s) {
        Push(id, Ui("error", m.body.reason));
        return;
      }
      StopAllTimers(id);
      End(id, s.(endedBy := ByOther), Some("transport.no-response"));
    }

    method RecvHeld(id: string, m: Message)
      requires Ready(id) && !m.body.Invite?
      modifies this`sessions, this`emit, this`done, this`running, clock
      ensures Took(id, Received(cx, id, old(sessions[id]), old(running), m))
    {
      hide ApplyOps, RunningOf, OnError, OnEnded, OnInitiator, OnResponder;
      var s := sessions[id];
      if m.body.Error? {
        RecvError(id, m);
      } else if s.phase == ENDED {
        RecvEnded(id, m);
      } else if s.role == Initiator {
        RecvAsInitiator(id, m);
      } else {
        RecvAsResponder(id, m);
      }
    }
 
    // ---- whole events

    method Refer(op: Op)
      modifies this`emit
      ensures emit == old(emit) + [OfCall(op)]
    {
      emit := emit + [OfCall(op)];
    }

    method LocalHeld(id: string, v: Verb)
      requires Ready(id)
      modifies this`sessions, this`emit, this`done, this`running, clock
      ensures Took(id, Requested(cx, old(clock.now), id, old(sessions[id]), old(running), v))
    {
      hide ApplyOps, RunningOf, Requested;
      match v
      case CancelCall => LocalCancel(id);
      case HangUp(reason) => LocalHangUp(id, reason);
      case Alert(ringTimeout) => LocalAlert(id, ringTimeout);
      case AutoReject(why) => LocalAutoReject(id, why);
      case Accept(who) => LocalAccept(id, who);
      case Decline(reason) => LocalDecline(id, reason);
      case SendUpdate(uid, who) => LocalUpdate(id, uid, who);
      case AnswerUpdate(ref, who) => LocalAnswerUpdate(id, ref, who);
      case RejectUpdate(ref, why) => LocalRejectUpdate(id, ref, why);
      case SendInfo => LocalInfo(id);
    }

    /** The endpoint and what was emitted since, as one result. */
    twostate predicate Became(r: Result)
      reads this, clock, ring
    {
      Valid() && View() == r.e && emit == old(emit) + r.emit
    }

    method LocalRequest(id: string, v: Verb)
      requires Valid()
      modifies this, clock
      ensures Became(OnLocal(old(View()), id, v))
    {
      hide ApplyOps, RunningOf, Requested;
      if id !in sessions {
        Refer(Refused("unknown-session"));
        return;
      }
      Begin(id);
      LocalHeld(id, v);
    }

    method PlaceCall(id: string, to: string)
      requires Valid()
      modifies this, clock
      ensures Became(OnPlaceCall(old(View()), id, to))
    {
      hide ApplyOps, RunningOf;
      if id in sessions {
        Refer(Refused("invalid-state"));
        return;
      }
      Begin(id);
      sessions := sessions[id := Session(Initiator, INVITING, to, None, None, NoUpdate, false, 0, Unset, false, false)];
      Push(id, Send(to, id, Invite(to, None)));
      Start(TEstablish, id, Or(cx.tEstablish, T_ESTABLISH));
      assert done == PlaceOps(cx, id, to);
    }

    method IsAdmitted(from: string) returns (yes: bool)
      ensures yes == Admitted(View(), from)
    {
      var identity := IdentityOf(cx, from);
      if identity in cx.allow { return true; }
      yes := exists id :: id in ring.grants && ring.grants[id].grantee == identity
                       && clock.now < ring.grants[id].validUntil && "dsip.invite" in ring.grants[id].scope;
    }

    method TurnDown(m: Message, reason: string)
      requires Valid() && m.body.Invite?
      modifies this`sessions, this`emit
      ensures Became(Declined(old(View()), m, m.body.expiresAt, reason))
    {
      sessions := sessions[m.session := NewOffer(ENDED, m.from, m.body.expiresAt)];
      Refer(Send(m.from, m.session, Reject(reason, None)));
    }

    /** One of our invites lost to glare. */
    method WithdrawOne(id: string)
      requires Valid() && id in sessions
      modifies this, clock
      ensures var o := Withdrawn(old(View()), id); Became(Result(Take(old(View()), id, o), CallEmits(o.ops)))
    {
      hide ApplyOps, RunningOf;
      Begin(id);
      var s := sessions[id];
      StopAllTimers(id);
      Push(id, Send(s.to, id, Cancel("session.glare")));
      End(id, s.(endedBy := ByCancel), Some("session.glare"));
      assert done == Withdrawn(old(View()), id).ops;
    }

    method WithdrawRivals(ids: seq<string>)
      requires Valid()
      modifies this, clock
      ensures Became(WithdrawEach(old(View()), ids))
    {
      hide Take, Withdrawn;
      for i := 0 to |ids|
        invariant Became(WithdrawEach(old(View()), ids[..i]))
      {
        assert ids[..i + 1][..i] == ids[..i];
        if ids[i] in sessions { WithdrawOne(ids[i]); }
      }
      assert ids[..|ids|] == ids;
    }

    method RecvInvite(m: Message)
      requires Valid() && m.body.Invite?
      modifies this, clock
      ensures Became(OnInvite(old(View()), m))
    {
      hide Contended, Admitted;
      var id := m.session;
      if id in sessions && !OwnAttempt(sessions[id]) {
        if sessions[id].phase == ENDED { Refer(Drop("ended-session")); } else { Refer(InvalidState(m)); }
        return;
      }
      if m.body.expiresAt.Some? && m.body.expiresAt.value <= clock.now {
        TurnDown(m, "session.expired");
        return;
      }
      if cx.firstContactRequired {
        var admitted := IsAdmitted(m.from);
        if !admitted {
          TurnDown(m, "policy.first-contact-required");
          return;
        }
      }
      MeetRivals(m);
    }

    /** Our own live invites to the inviting identity, in id order. */
    method RivalsOf(from: string) returns (ids: seq<string>)
      ensures ids == Sorted(Rivals(View(), IdentityOf(cx, from)))
    {
      var inviter := IdentityOf(cx, from);
      var rivals := set x | x in sessions && OwnAttempt(sessions[x]) && IdentityOf(cx, sessions[x].to) == inviter;
      assert rivals == Rivals(View(), inviter);
      ids := SortKeys(rivals);
    }

    method Offer(m: Message)
      requires Valid() && m.body.Invite?
      modifies this`sessions, this`emit
      ensures Became(Result(Offered(old(View()), m, m.body.expiresAt), [OfCall(Ui("offered", ""))]))
    {
      sessions := sessions[m.session := NewOffer(OFFERED, m.from, m.body.expiresAt)];
      Refer(Ui("offered", ""));
    }

    /** Glare with our own live invites to the same identity: the smallest id among all of them wins. */
    method MeetRivals(m: Message)
      requires Valid() && m.body.Invite?
      modifies this, clock
      ensures Became(Contended(old(View()), m))
    {
      hide Rivals, WithdrawEach, Less, Offered, Declined, IdentityOf, Sorted, Least;
      var rivals := RivalsOf(m.from);
      SortedFirst(Rivals(View(), IdentityOf(cx, m.from)));
      if rivals == [] {
        Offer(m);
        return;
      }
      var first := rivals[0];
      if Less(first, m.session) {
        TurnDown(m, "session.glare");
        return;
      }
      WithdrawRivals(rivals);
      if first == m.session {
        Refer(Send(m.from, m.session, Reject("session.glare", None)));
        Refer(Ui("glare_retry", ""));
      } else {
        Offer(m);
      }
    }

    method Recv(m: Message)
      requires Valid()
      modifies this, clock
      ensures Became(if m.body.Invite? then OnInvite(old(View()), m) else OnMessage(old(View()), m))
    {
      hide ApplyOps, RunningOf, Received, OnInvite;
      if m.body.Invite? {
        RecvInvite(m);
      } else if m.session !in sessions {
        if m.body.Error? {
          Refer(Ui("error", m.body.reason));
        } else {
          Refer(Send(m.from, m.session, Error("session.unknown-session", m.id)));
        }
      } else {
        Begin(m.session);
        RecvHeld(m.session, m);
      }
    }
 
    // ---- the clock

    method FireOne(name: Name, id: string)
      requires Valid()
      modifies this`sessions, this`emit, this`done, this`running, this`timersBefore, this`emitBefore
      ensures clock.Contents() == old(clock.Contents())
      ensures Became(if id !in old(sessions) then Result(old(View()), [])
                     else var o := Fired(name, id, old(sessions[id])); Result(Take(old(View()), id, o), CallEmits(o.ops)))
    {
      hide ApplyOps, RunningOf, Fired;
      if id in sessions {
        ghost var s := sessions[id];
        ghost var t := clock.Contents();
        Begin(id);
        Fire(name, id);
        EC.FiredQuiet(t, name, id, s);
      }
    }

    /** The timer that is first to fire now, if one is due. */
    method FireNext() returns (fired: bool)
      requires Valid() && CallsOk(View())
      modifies this, clock
      ensures fired <==> AnyDue(old(View()).timers)
      ensures Became(if fired then EC.FireOne(old(View()), FirstDue(old(View()).timers)) else Result(old(View()), []))
    {
      hide CallsOk, Take, Fired, CallEmits;
      var due := clock.TakeDue();
      fired := due.Some?;
      if fired { FireOne(due.value.name, due.value.session); }
    }

    /** The timers due now fire, the first to fire first. */
    method FireDue()
      requires Valid() && CallsOk(View())
      modifies this, clock
      ensures Became(EC.FireAll(old(View())))
    {
      hide CallsOk, EC.FireOne, EC.FireAll, EC.AllFired, CallEmits, AnyDue, WellFormed, FirstDue, After;
      NothingAfter(EC.FireAll(View()));
      ghost var e, out: seq<Emit>, whole := View(), [], EC.FireAll(View());
      var fired := true;
      while fired
        invariant Valid() && View() == e && CallsOk(e) && emit == old(emit) + out
        invariant whole == if fired then After(out, EC.FireAll(e)) else Result(e, out)
        decreases fired, |e.timers.running|
      {
        FireAllUnfolds(e);
        AfterIs(out, EC.FireAll(e));
        fired := FireNext();
        if fired {
          ghost var one := EC.FireOne(e, FirstDue(e.timers));
          AfterStep(out, one.emit, EC.FireAll(one.e));
          e, out := one.e, out + one.emit;
        }
        assert emit == old(emit) + out;
      }
    }

    ghost function After(out: seq<Emit>, r: Result): Result {
      Result(r.e, out + r.emit)
    }

    lemma NothingAfter(r: Result)
      ensures After([], r) == r
    {
      assert [] + r.emit == r.emit;
    }

    lemma AfterIs(out: seq<Emit>, r: Result)
      ensures After(out, r) == Result(r.e, out + r.emit)
    {
    }

    lemma AfterStep(out: seq<Emit>, more: seq<Emit>, r: Result)
      ensures After(out, Result(r.e, more + r.emit)) == After(out + more, r)
    {
      assert out + (more + r.emit) == out + more + r.emit;
    }

    lemma FireAllUnfolds(e: Endpoint)
      requires CallsOk(e)
      ensures !AnyDue(e.timers) ==> EC.FireAll(e) == Result(e, [])
      ensures AnyDue(e.timers) ==>
        var one := EC.FireOne(e, FirstDue(e.timers));
        && CallsOk(one.e) && |one.e.timers.running| < |e.timers.running|
        && EC.FireAll(e) == Result(EC.FireAll(one.e).e, one.emit + EC.FireAll(one.e).emit)
    {
      if AnyDue(e.timers) {
        var k := FirstDue(e.timers);
        EC.FireOneKeeps(e, k);
        var one := EC.FireOne(e, k);
        assert one.e.timers.running.Keys == e.timers.running.Keys - {k};
        assert |one.e.timers.running.Keys| < |e.timers.running.Keys|;
      }
    }

    /** The first instant at which a timer, a keyed grant or a due scope has work. */
    method NextInstant() returns (next: Option<int>)
      requires Valid()
      ensures next == if EC.Instants(View()) == {} then None else Some(EC.LeastInt(EC.Instants(View())))
    {
      var deadlines := set i | 0 <= i < |clock.timers| :: clock.timers[i].deadline;
      var ends := set id | id in ring.grants && EC.Ending(ring.grants[id]) :: ring.grants[id].validUntil;
      var dues := set sc | sc in ring.due :: ring.due[sc];
      assert deadlines == EC.Deadlines(View()) by {
        forall k | k in clock.Contents().running ensures clock.Contents().running[k].deadline in deadlines {
          var i := RunningIsListed(clock.timers, k);
        }
        forall i | 0 <= i < |clock.timers| ensures clock.timers[i].deadline in EC.Deadlines(View()) {
          ListedIsRunning(clock.timers, i);
        }
      }
      next := MinOf(deadlines + ends + dues);
    }

    /** The clock stands at an instant; nothing else has moved. */
    method MoveTo(now: int)
      requires Valid() && CallsOk(View())
      modifies clock
      ensures Valid() && View() == EC.At(old(View()), now) && emit == old(emit)
    {
      hide CallsOk;
      ghost var e := View();
      EC.AtKeeps(e, now);
      clock.now := now;
      assert clock.Contents() == EC.At(e, now).timers;
      ClockValid();
    }

    /** What an instant is made of. */
    lemma InstantIs(e: Endpoint, i: int)
      requires CallsOk(e)
      ensures var now := if e.timers.now <= i then i else e.timers.now;
        CallsOk(EC.At(e, now)) &&
        var fired := EC.FireAll(EC.At(e, now));
        var keys := P.AtInstant(fired.e.keys, now);
        EC.Instant(e, i) == Result(fired.e.(keys := keys.k), fired.emit + KeyEmits(keys.ops))
    {
      hide CallsOk, EC.AllFired, EC.FireAll;
      EC.AtKeeps(e, if e.timers.now <= i then i else e.timers.now);
    }

    /** One instant with work: the timers due fire, then grants end and keys rotate. */
    method DoInstant(i: int)
      requires Valid() && CallsOk(View())
      modifies this, clock, ring
      ensures Became(EC.Instant(old(View()), i))
    {
      hide CallsOk, EC.FireAll, EC.AllFired, EC.Instant, EC.At, P.AtInstant, KeyEmits;
      var now := if clock.now <= i then i else clock.now;
      ghost var e := View();
      InstantIs(e, i);
      MoveTo(now);
      FireDue();
      var ops := ring.Tick(now);
      emit := emit + KeyEmits(ops);
    }

    lemma ClockValid()
      requires NoRepeats(clock.timers) && CallsOk(View())
      ensures clock.Valid()
    {
    }

    /** Instant after instant until none is left by the target; the clock is then at the target. */
    method Advance(seconds: nat)
      requires Valid() && EC.EndpointOk(View())
      modifies this, clock, ring
      ensures Became(EC.RunTo(old(View()), old(clock.now) + seconds))
    {
      hide EC.EndpointOk, EC.RunTo, EC.Instant, EC.Instants, EC.HasWork, EC.GrantsLeft, EC.DuesLeft, EC.TimersLeft, AllForward;
      var target := clock.now + seconds;
      ghost var e, out: seq<Emit>, whole := View(), [], EC.RunTo(View(), target);
      assert After(out, EC.RunTo(e, target)) == whole;
      while !ring.exhausted
        invariant Valid() && View() == e && EC.EndpointOk(e) && e.timers.now <= target && emit == old(emit) + out
        invariant whole == After(out, EC.RunTo(e, target))
        decreases |EC.GrantsLeft(e.keys, target)|, |EC.DuesLeft(e.keys, target)| + |EC.TimersLeft(e.timers, target)|
      {
        RunToUnfolds(e, target);
        var next := NextInstant();
        if next.None? || next.value > target { break; }
        assert CallsOk(View());
        DoInstant(next.value);
        ghost var one := EC.Instant(e, next.value);
        AfterStep(out, one.emit, EC.RunTo(one.e, target));
        e, out := one.e, out + one.emit;
      }
      RunToUnfolds(e, target);
      assert out + [] == out;
      if !ring.exhausted { clock.now := target; }
    }

    lemma RunToUnfolds(e: Endpoint, target: int)
      requires EC.EndpointOk(e) && e.timers.now <= target
      ensures CallsOk(e)
      ensures e.keys.exhausted ==> EC.RunTo(e, target) == Result(e, [])
      ensures var work := EC.Instants(e);
        !e.keys.exhausted ==>
          if work == {} || target < EC.LeastInt(work) then EC.RunTo(e, target) == Result(EC.At(e, target), [])
          else
            var one := EC.Instant(e, EC.LeastInt(work));
            && EC.EndpointOk(one.e) && one.e.timers.now <= target
            && EC.RunTo(e, target) == Result(EC.RunTo(one.e, target).e, one.emit + EC.RunTo(one.e, target).emit)
            && (|EC.GrantsLeft(one.e.keys, target)| < |EC.GrantsLeft(e.keys, target)|
                || (|EC.GrantsLeft(one.e.keys, target)| == |EC.GrantsLeft(e.keys, target)|
                    && |EC.DuesLeft(one.e.keys, target)| + |EC.TimersLeft(one.e.timers, target)|
                       < |EC.DuesLeft(e.keys, target)| + |EC.TimersLeft(e.timers, target)|))
    {
      hide CallsOk, P.KeysOk, EC.Instant, EC.Instants, EC.GrantsLeft, EC.DuesLeft, EC.TimersLeft;
      var work := EC.Instants(e);
      if !e.keys.exhausted && EC.HasWork(e, target) {
        var i := EC.LeastInt(work);
        EC.InstantKeeps(e, i);
        EC.InstantShrinks(e, i, target);
      }
    }

    // ---- runs

    /** One trace event and what it emits. */
    method Step(ev: EC.Event) returns (out: seq<Emit>)
      requires Valid() && EC.Reached(View())
      modifies this, clock, ring
      ensures Valid() && Result(View(), out) == EC.Step(old(View()), ev)
    {
      hide CallsOk, P.KeysOk, P.NothingDue, EC.RunTo, P.Answer, OnInvite, OnMessage, OnLocal, OnPlaceCall;
      emit := [];
      if ring.exhausted { return []; }
      match ev {
        case Advance(seconds) => Advance(seconds);
        case Recv(m) => Recv(m);
        case Local(id, v) => LocalRequest(id, v);
        case PlaceCall(id, to) => PlaceCall(id, to);
        case KeyRequest(q) =>
          var ops := ring.Serve(clock.now, q);
          emit := emit + KeyEmits(ops);
      }
      out := emit;
    }

    /** Every run of the object is a run of the value, and ends where each call and every lost key is as promised. */
    method Play(evs: seq<EC.Event>)
      requires Valid() && EC.Reached(View()) && EC.Legal(View(), evs)
      modifies this, clock, ring
      ensures Valid() && View() == EC.Run(old(View()), evs)
      ensures forall id :: id in View().sessions ==> EC.CallLaw(old(View()), View(), id)
      ensures EC.KeyLaw(View().keys, View().timers.now)
    {
      EC.EveryLostKeyRotates(View(), evs);
      forall id | id in EC.Run(View(), evs).sessions ensures EC.CallLaw(View(), EC.Run(View(), evs), id) { EC.EverySessionFits(View(), evs, id); }
      hide EC.CallLaw, EC.KeyLaw;
      hide EC.EndpointOk, P.NothingDue, EC.Allowed, EC.Step;
      ghost var e := View();
      assert evs[0..] == evs;
      for i := 0 to |evs|
        invariant Valid() && View() == e && EC.Reached(e) && EC.Legal(e, evs[i..])
        invariant EC.Run(e, evs[i..]) == EC.Run(old(View()), evs)
      {
        assert evs[i..][0] == evs[i] && evs[i..][1..] == evs[i + 1..];
        EC.StepKeeps(e, evs[i]);
        var _ := Step(evs[i]);
        e := EC.Step(e, evs[i]).e;
      }
    }
  }

  method MinOf(s: set<int>) returns (m: Option<int>)
    ensures m == if s == {} then None else Some(EC.LeastInt(s))
  {
    m := None;
    var scan := s;
    while scan != {}
      invariant scan <= s
      invariant m.None? ==> scan == s
      invariant m.Some? ==> m.value in s && forall y :: y in s && y !in scan ==> m.value <= y
      decreases scan
    {
      assert exists y :: y in scan by { var _ := EC.Member(scan); }
      var y :| y in scan;
      if m.None? || y < m.value { m := Some(y); }
      scan := scan - {y};
    }
  }
}
