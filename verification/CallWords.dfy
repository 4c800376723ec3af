/**
 * What a session of `endpoint.ts` tells as it moves: how an end is told to the other end and to the user, what each request
 * sends, what each message draws in reply, and which timers are started.
 */
module CallWords {
  import opened Prelude
  import opened TimerTable
  import opened Calls

  /** What goes to the other end, what the user is shown, and the timers started. */
  datatype Part = Words | Shows | Starts

  predicate In(part: Part, op: Op) {
    match part
    case Words => op.Send?
    case Shows => op.Ui? || op.UiProgress?
    case Starts => op.StartTimer?
  }

  function Of(part: Part, ops: seq<Op>): seq<Op> {
    if ops == [] then [] else Of(part, ops[..|ops| - 1]) + if In(part, ops[|ops| - 1]) then [ops[|ops| - 1]] else []
  }

  predicate Lacks(part: Part, ops: seq<Op>) { forall op :: op in ops ==> !In(part, op) }

  predicate Hushed(ops: seq<Op>) { Lacks(Words, ops) }

  function Spoken(ops: seq<Op>): seq<Op> { Of(Words, ops) }

  lemma {:induction false} OfAppend(part: Part, a: seq<Op>, b: seq<Op>)
    ensures Of(part, a + b) == Of(part, a) + Of(part, b)
  {
    if b == [] {
      assert a + b == a;
    } else {
      assert (a + b)[..|a + b| - 1] == a + b[..|b| - 1];
      OfAppend(part, a, b[..|b| - 1]);
    }
  }

  lemma {:induction false} LacksOf(part: Part, ops: seq<Op>)
    requires Lacks(part, ops)
    ensures Of(part, ops) == []
  {
    if ops != [] { LacksOf(part, ops[..|ops| - 1]); }
  }

  lemma {:induction false} InOf(part: Part, ops: seq<Op>, op: Op)
    ensures op in Of(part, ops) <==> op in ops && In(part, op)
  {
    if ops != [] {
      InOf(part, ops[..|ops| - 1], op);
      assert ops == ops[..|ops| - 1] + [ops[|ops| - 1]];
    }
  }

  lemma OfOne(part: Part, op: Op)
    ensures Of(part, [op]) == if In(part, op) then [op] else []
    ensures Of(part, []) == []
  {
    assert [op][..0] == [];
  }

  lemma OfTwo(part: Part, a: Op, b: Op)
    ensures Of(part, [a, b]) == Of(part, [a]) + Of(part, [b])
  {
    assert [a, b] == [a] + [b];
    OfAppend(part, [a], [b]);
  }

  lemma SpokenOnce(before: seq<Op>, op: Op, after: seq<Op>)
    requires op.Send? && Hushed(before) && Hushed(after)
    ensures Spoken(before + [op] + after) == [op]
  {
    hide Lacks;
    OfAppend(Words, before + [op], after);
    OfAppend(Words, before, [op]);
    LacksOf(Words, before);
    LacksOf(Words, after);
    OfOne(Words, op);
  }

  lemma StopsHushed(run: set<Name>)
    ensures Hushed(StopAll(run))
  {
  }

  /** Stopping timers tells nobody anything. */
  lemma StopsTellNothing(part: Part, run: set<Name>, name: Name)
    ensures Of(part, StopAll(run)) == [] && Of(part, StopIf(run, name)) == []
  {
    LacksOf(part, StopAll(run));
    LacksOf(part, StopIf(run, name));
  }

  // ---- the ways a session moves

  datatype Move =
    | Asked(now: int, v: Verb)
    | TimedOut(name: Name)
    | Hearing(m: Message)
    | GaveWay

  /** A request, a timer that runs, a message about the session, or a smaller invite in its place. */
  ghost predicate Possible(s: Session, run: set<Name>, c: Move) {
    && SessionOk(s) && TimersFit(s, run)
    && (c.TimedOut? ==> c.name in run) && (c.Hearing? ==> !c.m.body.Invite?) && (c.GaveWay? ==> OwnAttempt(s))
  }

  function Moved(cx: Context, id: string, s: Session, run: set<Name>, c: Move): Outcome
    requires c.Hearing? ==> !c.m.body.Invite?
  {
    match c
    case Asked(now, v) => Requested(cx, now, id, s, run, v)
    case TimedOut(name) => Fired(name, id, s)
    case Hearing(m) => Received(cx, id, s, run, m)
    case GaveWay => Yielded(id, s, run)
  }

  // ---- how an end is told

  lemma EndOpsTell(part: Part, s: Session, surface: Option<string>)
    ensures Of(part, EndOps(s, surface)) == if part.Shows? && surface.Some? then [Ui("ended", surface.value)] else []
  {
    OfOne(part, MediaStop);
    if surface.Some? {
      OfOne(part, Ui("ended", surface.value));
      OfTwo(part, MediaStop, Ui("ended", surface.value));
      assert EndOps(s, surface) == [Ui("ended", surface.value)] || EndOps(s, surface) == [MediaStop, Ui("ended", surface.value)];
    }
  }

  /** Ending tells what was to be told before, and the reason when there is one to show. */
  lemma FinishTells(s: Session, before: seq<Op>, surface: Option<string>)
    ensures forall part :: Of(part, Finish(s, before, surface).ops)
                           == Of(part, before) + if part.Shows? && surface.Some? then [Ui("ended", surface.value)] else []
  {
    forall part ensures Of(part, Finish(s, before, surface).ops)
                        == Of(part, before) + if part.Shows? && surface.Some? then [Ui("ended", surface.value)] else []
    {
      OfAppend(part, before, EndOps(s, surface));
      EndOpsTell(part, s, surface);
    }
  }

  /** Why an attempt is withdrawn. */
  function WhyWithdrawn(c: Move): string {
    match c
    case Asked(_, _) => "user.cancelled"
    case GaveWay => "session.glare"
    case _ => "session.timeout"
  }

  /**
   * An attempt of ours that ends is withdrawn by exactly one cancel to the address it was made to, unless the other side
   * ended it: by its reject, or by the relay's word that nobody answered. The user is shown the reason, but for a cancel
   * of its own.
   */
  lemma AttemptEnds(cx: Context, id: string, s: Session, run: set<Name>, c: Move)
    requires Possible(s, run, c) && OwnAttempt(s) && Moved(cx, id, s, run, c).s.phase == ENDED
    ensures var ops := Moved(cx, id, s, run, c).ops;
            if c.Hearing? && !c.m.body.Progress? then
              && ((c.m.body.Reject? && c.m.body.inReplyTo.None?) || (c.m.body.Error? && c.m.body.reason == "transport.no-response"))
              && Of(Words, ops) == [] && Of(Starts, ops) == []
              && Of(Shows, ops) == [Ui("ended", if c.m.body.Reject? then EffectiveReason(c.m.body.reason) else c.m.body.reason)]
            else
              && Of(Words, ops) == [Send(s.to, id, Cancel(WhyWithdrawn(c)))] && Of(Starts, ops) == []
              && Of(Shows, ops) == (if c.Hearing? then [UiProgress(Queued)] else []) + (if c.Asked? then [] else [Ui("ended", WhyWithdrawn(c))])
  {
    hide EffectiveReason, Of, StopAll;
    match c {
      case Asked(now, v) => WithdrawnByUs(id, s, run, [], "user.cancelled", None);
      case GaveWay => WithdrawnByUs(id, s, run, [], "session.glare", Some("session.glare"));
      case TimedOut(name) => TimedOutTells(id, s, name);
      case Hearing(m) =>
        if m.body.Progress? { QueuedOutTells(cx, id, s, run, m); } else { OtherEndsAttempt(cx, id, s, run, m); }
    }
  }

  /** What the three ways of withdrawing say: stops, the cancel, and the end. */
  lemma WithdrawnByUs(id: string, s: Session, run: set<Name>, before: seq<Op>, why: string, surface: Option<string>)
    requires OwnAttempt(s)
    ensures var o := Finish(s.(endedBy := ByCancel), StopAll(run) + [Send(s.to, id, Cancel(why))], surface);
            && Of(Words, o.ops) == [Send(s.to, id, Cancel(why))] && Of(Starts, o.ops) == []
            && Of(Shows, o.ops) == if surface.Some? then [Ui("ended", surface.value)] else []
  {
    hide Of, StopAll, Finish;
    var cancel := Send(s.to, id, Cancel(why));
    forall part ensures Of(part, StopAll(run) + [cancel]) == if part.Words? then [cancel] else [] {
      OfAppend(part, StopAll(run), [cancel]);
      StopsTellNothing(part, run, TRing);
      OfOne(part, cancel);
    }
    FinishTells(s.(endedBy := ByCancel), StopAll(run) + [cancel], surface);
  }

  lemma TimedOutTells(id: string, s: Session, name: Name)
    requires name != TRingLocal
    ensures var o := Fired(name, id, s);
            && Of(Words, o.ops) == [Send(s.to, id, Cancel("session.timeout"))] && Of(Starts, o.ops) == []
            && Of(Shows, o.ops) == [Ui("ended", "session.timeout")]
  {
    hide Of, Finish;
    var before := [FireTimer(name)] + [Send(s.to, id, Cancel("session.timeout"))];
    forall part ensures Of(part, before) == if part.Words? then [before[1]] else [] {
      OfAppend(part, [FireTimer(name)], [before[1]]);
      OfOne(part, FireTimer(name));
      OfOne(part, before[1]);
    }
    FinishTells(s.(endedBy := ByCancel), before, Some("session.timeout"));
  }

  lemma QueuedOutTells(cx: Context, id: string, s: Session, run: set<Name>, m: Message)
    requires OwnAttempt(s) && m.body.Progress? && Received(cx, id, s, run, m).s.phase == ENDED
    ensures var o := Received(cx, id, s, run, m);
            && Of(Words, o.ops) == [Send(s.to, id, Cancel("session.timeout"))] && Of(Starts, o.ops) == []
            && Of(Shows, o.ops) == [UiProgress(Queued), Ui("ended", "session.timeout")]
  {
    hide Of, Finish, StopAll, StopIf, Clamp;
    var o := Received(cx, id, s, run, m);
    var t := s.(phase := PROCEEDING, requeues := s.requeues + 1, endedBy := ByCancel);
    var stops, all, cancel := StopIf(run, TEstablish), StopAll(run - {TEstablish}), Send(s.to, id, Cancel("session.timeout"));
    var before := stops + [UiProgress(Queued)] + all + [cancel];
    assert o == Finish(t, before, Some("session.timeout"));
    forall part ensures Of(part, before) == if part.Words? then [cancel] else if part.Shows? then [UiProgress(Queued)] else [] {
      OfAppend(part, stops + [UiProgress(Queued)] + all, [cancel]);
      OfAppend(part, stops + [UiProgress(Queued)], all);
      OfAppend(part, stops, [UiProgress(Queued)]);
      StopsTellNothing(part, run, TEstablish);
      StopsTellNothing(part, run - {TEstablish}, TRing);
      OfOne(part, UiProgress(Queued));
      OfOne(part, cancel);
    }
    FinishTells(t, before, Some("session.timeout"));
  }

  lemma OtherEndsAttempt(cx: Context, id: string, s: Session, run: set<Name>, m: Message)
    requires SessionOk(s) && OwnAttempt(s) && !m.body.Progress? && !m.body.Invite? && Received(cx, id, s, run, m).s.phase == ENDED
    ensures var ops := Received(cx, id, s, run, m).ops;
            && ((m.body.Reject? && m.body.inReplyTo.None?) || (m.body.Error? && m.body.reason == "transport.no-response"))
            && Of(Words, ops) == [] && Of(Starts, ops) == []
            && Of(Shows, ops) == [Ui("ended", if m.body.Reject? then EffectiveReason(m.body.reason) else m.body.reason)]
  {
    hide Of, EffectiveReason, EffectiveAnsweredBy, StopAll, Finish;
    var why := if m.body.Reject? then EffectiveReason(m.body.reason) else "transport.no-response";
    assert Received(cx, id, s, run, m) == Finish(s.(endedBy := ByOther), StopAll(run), Some(why)) by { OnlyTheseEnd(cx, id, s, run, m); }
    forall part ensures Of(part, StopAll(run)) == [] { StopsTellNothing(part, run, TRing); }
    FinishTells(s.(endedBy := ByOther), StopAll(run), Some(why));
  }

  lemma OnlyTheseEnd(cx: Context, id: string, s: Session, run: set<Name>, m: Message)
    requires SessionOk(s) && OwnAttempt(s) && !m.body.Progress? && !m.body.Invite? && Received(cx, id, s, run, m).s.phase == ENDED
    ensures (m.body.Reject? && m.body.inReplyTo.None?) || (m.body.Error? && m.body.reason == "transport.no-response")
    ensures Received(cx, id, s, run, m) == Finish(s.(endedBy := ByOther), StopAll(run),
              Some(if m.body.Reject? then EffectiveReason(m.body.reason) else "transport.no-response"))
  {
    hide EffectiveReason, EffectiveAnsweredBy, StopAll;
  }

  /**
   * A call offered to us that ends is rejected by exactly one reject to its initiator, unless the initiator withdrew it;
   * the user is shown the reason, and a missed call if it rang and was not answered elsewhere, but not its own refusal.
   */
  lemma OfferEnds(cx: Context, id: string, s: Session, run: set<Name>, c: Move)
    requires Possible(s, run, c) && (s.phase == OFFERED || s.phase == ALERTING) && Moved(cx, id, s, run, c).s.phase == ENDED
    ensures var ops := Moved(cx, id, s, run, c).ops;
            && Of(Starts, ops) == []
            && match c
               case Hearing(m) =>
                 && m.body.Cancel? && Of(Words, ops) == []
                 && Of(Shows, ops) == (if s.phase == ALERTING && EffectiveReason(m.body.reason) != ELSEWHERE then [Ui("missed_call", "")] else [])
                                      + [Ui("ended", EffectiveReason(m.body.reason))]
               case TimedOut(name) =>
                 && s.phase == ALERTING && Of(Words, ops) == [Send(s.to, id, Reject("user.no-answer", None))]
                 && Of(Shows, ops) == [Ui("ended", "user.no-answer")]
               case Asked(now, v) =>
                 && Of(Shows, ops) == [] && |Of(Words, ops)| == 1
                 && Of(Words, ops)[0] == Send(s.to, id, Reject(if v.Alert? then "session.expired" else if v.AutoReject? then v.why
                                                               else if v.Decline? then Or(v.declined, "user.declined") else "", None))
                 && (v.Alert? ==> s.inviteExpires.Some? && s.inviteExpires.value <= now) && (v.Alert? || v.AutoReject? || v.Decline?)
               case GaveWay => false
  {
    hide EffectiveReason, Of;
    match c {
      case Hearing(m) => CancelTells(cx, id, s, run, m);
      case TimedOut(name) =>
        var before := [FireTimer(name)] + [Send(s.to, id, Reject("user.no-answer", None))];
        forall part ensures Of(part, before) == if part.Words? then [before[1]] else [] {
          OfAppend(part, [FireTimer(name)], [before[1]]);
          OfOne(part, FireTimer(name));
          OfOne(part, before[1]);
        }
        assert name == TRingLocal && before == [FireTimer(name), Send(s.to, id, Reject("user.no-answer", None))];
        FinishTells(s, before, Some("user.no-answer"));
      case Asked(now, v) =>
        var why := if v.Alert? then "session.expired" else if v.AutoReject? then v.why else if v.Decline? then Or(v.declined, "user.declined") else "";
        RefusedByUs(id, s, if v.Decline? then StopIf(run, TRingLocal) else [], why, run);
      case GaveWay => assert false;
    }
  }

  lemma RefusedByUs(id: string, s: Session, stops: seq<Op>, why: string, run: set<Name>)
    requires stops == [] || stops == StopIf(run, TRingLocal)
    ensures var o := Finish(s, stops + [Send(s.to, id, Reject(why, None))], None);
            && Of(Words, o.ops) == [Send(s.to, id, Reject(why, None))] && Of(Starts, o.ops) == [] && Of(Shows, o.ops) == []
    ensures [] + [Send(s.to, id, Reject(why, None))] == [Send(s.to, id, Reject(why, None))]
  {
    hide Of, Finish, StopIf;
    var reject := Send(s.to, id, Reject(why, None));
    forall part ensures Of(part, stops + [reject]) == if part.Words? then [reject] else [] {
      OfAppend(part, stops, [reject]);
      StopsTellNothing(part, run, TRingLocal);
      OfOne(part, reject);
    }
    FinishTells(s, stops + [reject], None);
  }

  lemma CancelTells(cx: Context, id: string, s: Session, run: set<Name>, m: Message)
    requires SessionOk(s) && (s.phase == OFFERED || s.phase == ALERTING) && !m.body.Invite? && Received(cx, id, s, run, m).s.phase == ENDED
    ensures var ops := Received(cx, id, s, run, m).ops;
            && m.body.Cancel? && Of(Words, ops) == [] && Of(Starts, ops) == []
            && Of(Shows, ops) == (if s.phase == ALERTING && EffectiveReason(m.body.reason) != ELSEWHERE then [Ui("missed_call", "")] else [])
                                 + [Ui("ended", EffectiveReason(m.body.reason))]
  {
    hide EffectiveReason, EffectiveAnsweredBy, Of, StopIf, Finish;
    assert m.body.Cancel? by { OnlyCancelEnds(cx, id, s, run, m); }
    var reason := EffectiveReason(m.body.reason);
    var missed := if reason != ELSEWHERE then [Ui("missed_call", "")] else [];
    forall part ensures Of(part, []) == [] && Of(part, StopIf(run, TRingLocal) + missed) == if part.Shows? then missed else [] {
      OfAppend(part, StopIf(run, TRingLocal), missed);
      StopsTellNothing(part, run, TRingLocal);
      OfOne(part, Ui("missed_call", ""));
    }
    FinishTells(s, if s.phase == OFFERED then [] else StopIf(run, TRingLocal) + missed, Some(reason));
    assert [] + [Ui("ended", reason)] == [Ui("ended", reason)];
  }

  lemma OnlyCancelEnds(cx: Context, id: string, s: Session, run: set<Name>, m: Message)
    requires SessionOk(s) && (s.phase == OFFERED || s.phase == ALERTING) && !m.body.Invite? && Received(cx, id, s, run, m).s.phase == ENDED
    ensures m.body.Cancel?
  {
    hide EffectiveReason, EffectiveAnsweredBy;
  }

  /** A call that ends is ended by exactly one bye to its peer, unless the peer's bye or its crossed cancel ended it. */
  lemma CallEnds(cx: Context, id: string, s: Session, run: set<Name>, c: Move)
    requires Possible(s, run, c) && s.phase == ACTIVE && Moved(cx, id, s, run, c).s.phase == ENDED
    ensures var ops := Moved(cx, id, s, run, c).ops;
            && Of(Starts, ops) == []
            && match c
               case Hearing(m) =>
                 && (m.body.Bye? || (m.body.Cancel? && s.role == Responder && !s.initiatorSpoke && EffectiveReason(m.body.reason) != ELSEWHERE))
                 && Of(Words, ops) == [] && Of(Shows, ops) == [Ui("ended", EffectiveReason(m.body.reason))]
               case Asked(now, v) =>
                 && v.HangUp? && Of(Words, ops) == [Send(s.peer.value, id, Bye(Or(v.byeReason, "user.hangup")))] && Of(Shows, ops) == []
               case _ => false
  {
    hide EffectiveReason, Of, Finish;
    match c {
      case Hearing(m) =>
        OnlyTheseHangUp(cx, id, s, run, m);
        forall part ensures Of(part, []) == [] { OfOne(part, MediaStop); }
        FinishTells(s, [], Some(EffectiveReason(m.body.reason)));
        FinishTells(s.(initiatorSpoke := true), [], Some(EffectiveReason(m.body.reason)));
      case Asked(now, v) =>
        var bye := Send(s.peer.value, id, Bye(Or(v.byeReason, "user.hangup")));
        forall part ensures Of(part, [bye]) == if part.Words? then [bye] else [] { OfOne(part, bye); }
        FinishTells(s, [bye], None);
      case TimedOut(name) => assert false;
      case GaveWay => assert false;
    }
  }

  lemma OnlyTheseHangUp(cx: Context, id: string, s: Session, run: set<Name>, m: Message)
    requires SessionOk(s) && s.phase == ACTIVE && !m.body.Invite? && Received(cx, id, s, run, m).s.phase == ENDED
    ensures m.body.Bye? || (m.body.Cancel? && s.role == Responder && !s.initiatorSpoke && EffectiveReason(m.body.reason) != ELSEWHERE)
    ensures var why := Some(EffectiveReason(m.body.reason));
            Received(cx, id, s, run, m).ops == Finish(s, [], why).ops
  {
    hide EffectiveReason, EffectiveAnsweredBy, Less;
  }

  // ---- requests that do not end the session

  /** Whether the session can be asked this. */
  predicate Askable(s: Session, v: Verb) {
    match v
    case CancelCall => s.phase == INVITING || s.phase == PROCEEDING
    case Alert(_) => s.phase == OFFERED
    case AutoReject(_) => s.phase == OFFERED
    case Accept(_) => s.phase == ALERTING
    case Decline(_) => s.phase == ALERTING
    case HangUp(_) => s.phase == ACTIVE
    case SendInfo => s.phase == ACTIVE
    case SendUpdate(_, _) => s.phase == ACTIVE && s.outstanding == NoUpdate
    case AnswerUpdate(ref, _) => s.outstanding == Inbound(ref)
    case RejectUpdate(ref, _) => s.outstanding == Inbound(ref)
  }

  /** What the other end is told of a request that goes through. */
  predicate Says(v: Verb, b: Body) {
    match v
    case CancelCall => b == Cancel("user.cancelled")
    case Alert(t) => b == Progress(Ringing, t, 0) || b == Reject("session.expired", None)
    case AutoReject(why) => b == Reject(why, None)
    case Accept(who) => b == Answer(who, None)
    case Decline(why) => b == Reject(Or(why, "user.declined"), None)
    case HangUp(why) => b == Bye(Or(why, "user.hangup"))
    case SendInfo => b.Info?
    case SendUpdate(uid, who) => b == Update(uid, who)
    case AnswerUpdate(ref, who) => b == Answer(Or(who, "user"), Some(ref))
    case RejectUpdate(ref, why) => b == Reject(why, Some(ref))
  }

  predicate SaysOne(words: seq<Op>, to: string, id: string, v: Verb) {
    |words| == 1 && words[0].Send? && words[0].to == to && words[0].session == id && Says(v, words[0].body)
  }

  /**
   * A request either cannot be asked, and then changes and tells nothing but its refusal, or tells the other end exactly
   * one thing: the address invited or inviting while no call is up, the peer from then on.
   */
  lemma RequestSaysOne(cx: Context, now: int, id: string, s: Session, run: set<Name>, v: Verb)
    requires SessionOk(s)
    ensures var o := Requested(cx, now, id, s, run, v);
            if !Askable(s, v) then o.s == s && |o.ops| == 1 && o.ops[0].Refused?
            else && SaysOne(Spoken(o.ops), if s.phase == ACTIVE then Or(s.peer, "") else s.to, id, v)
                 && (forall op :: op in o.ops ==> !op.Refused?)
                 && (o.s.phase == ENDED <==> v.CancelCall? || v.HangUp? || v.AutoReject? || v.Decline?
                                             || (v.Alert? && s.inviteExpires.Some? && s.inviteExpires.value <= now))
                 && (o.s.phase == ENDED || o.s.phase == if v.Alert? then ALERTING else ACTIVE)
                 && Of(Starts, o.ops) == if v.Alert? && o.s.phase == ALERTING
                      then [StartTimer(TRingLocal, if v.ringTimeout.Some? then v.ringTimeout.value else if cx.tRingLocal.Some? then cx.tRingLocal.value else 120)] else []
  {
    hide Of;
    if Askable(s, v) {
      var o := Requested(cx, now, id, s, run, v);
      if o.s.phase == ENDED { AskedEnds(cx, now, id, s, run, v); } else { AskedTells(cx, now, id, s, run, v); }
    }
  }

  lemma AskedEnds(cx: Context, now: int, id: string, s: Session, run: set<Name>, v: Verb)
    requires SessionOk(s) && Askable(s, v) && Requested(cx, now, id, s, run, v).s.phase == ENDED
    ensures var o := Requested(cx, now, id, s, run, v);
            && SaysOne(Of(Words, o.ops), if s.phase == ACTIVE then Or(s.peer, "") else s.to, id, v) && Of(Starts, o.ops) == []
            && forall op :: op in o.ops ==> !op.Refused?
  {
    hide Of, Finish, StopAll, StopIf;
    assert !(v.SendInfo? || v.Accept? || v.SendUpdate? || v.AnswerUpdate? || v.RejectUpdate?);
    EndedUnrefused(cx, now, id, s, run, v);
    match v {
      case CancelCall => WithdrawnByUs(id, s, run, [], "user.cancelled", None);
      case HangUp(why) =>
        var bye := Send(PeerOf(s), id, Bye(Or(why, "user.hangup")));
        forall part ensures Of(part, [bye]) == if part.Words? then [bye] else [] { OfOne(part, bye); }
        FinishTells(s, [bye], None);
      case Alert(_) => RefusedByUs(id, s, [], "session.expired", run);
      case AutoReject(why) => RefusedByUs(id, s, [], why, run);
      case Decline(why) => RefusedByUs(id, s, StopIf(run, TRingLocal), Or(why, "user.declined"), run);
      case _ =>
    }
  }

  lemma EndedUnrefused(cx: Context, now: int, id: string, s: Session, run: set<Name>, v: Verb)
    requires Askable(s, v)
    ensures forall op :: op in Requested(cx, now, id, s, run, v).ops ==> !op.Refused?
  {
    hide StopAll, StopIf, EndOps;
    StopsUnrefused(run, s, None);
    StopsUnrefused(run, s.(endedBy := ByCancel), None);
  }

  lemma StopsUnrefused(run: set<Name>, s: Session, surface: Option<string>)
    ensures forall op :: op in StopAll(run) || op in StopIf(run, TRingLocal) || op in EndOps(s, surface) ==> !op.Refused?
  {
  }

  lemma AskedTells(cx: Context, now: int, id: string, s: Session, run: set<Name>, v: Verb)
    requires SessionOk(s) && Askable(s, v) && Requested(cx, now, id, s, run, v).s.phase != ENDED
    ensures var o := Requested(cx, now, id, s, run, v);
            && SaysOne(Of(Words, o.ops), if s.phase == ACTIVE then Or(s.peer, "") else s.to, id, v)
            && (forall op :: op in o.ops ==> !op.Refused?)
            && Of(Starts, o.ops) == if v.Alert?
                 then [StartTimer(TRingLocal, if v.ringTimeout.Some? then v.ringTimeout.value else if cx.tRingLocal.Some? then cx.tRingLocal.value else 120)] else []
  {
    hide Of, StopIf;
    EndedUnrefused(cx, now, id, s, run, v);
    var ops := Requested(cx, now, id, s, run, v).ops;
    if v.Accept? {
      var answer := Send(s.to, id, Answer(v.answeredBy, None));
      forall part ensures Of(part, ops) == if part.Words? then [answer] else [] {
        assert ops == StopIf(run, TRingLocal) + [answer, MediaStart];
        OfAppend(part, StopIf(run, TRingLocal), [answer, MediaStart]);
        StopsTellNothing(part, run, TRingLocal);
        OfTwo(part, answer, MediaStart);
        OfOne(part, answer);
        OfOne(part, MediaStart);
      }
    } else if |ops| == 1 {
      OfOne(Words, ops[0]);
      OfOne(Starts, ops[0]);
      assert ops == [ops[0]];
    } else {
      assert ops == [ops[0], ops[1]];
      OfTwo(Words, ops[0], ops[1]);
      OfTwo(Starts, ops[0], ops[1]);
      OfOne(Words, ops[0]);
      OfOne(Words, ops[1]);
      OfOne(Starts, ops[0]);
      OfOne(Starts, ops[1]);
    }
  }

  // ---- what a message draws

  /** Messages a session takes where it stands. */
  predicate ForPhase(s: Session, m: Message) {
    match s.phase
    case ENDED => true
    case ACTIVE =>
      || m.body.Error? || m.body.Bye? || m.body.Info? || m.body.Update?
      || ((m.body.Answer? || m.body.Reject?) && m.body.inReplyTo.Some?)
      || (s.role == Initiator && m.body.Answer? && Some(m.from) != s.peer)
      || (s.role == Responder && m.body.Cancel? && !s.initiatorSpoke && EffectiveReason(m.body.reason) != ELSEWHERE)
    case INVITING => m.body.Error? || m.body.Progress? || ((m.body.Answer? || m.body.Reject?) && m.body.inReplyTo.None?)
    case PROCEEDING => m.body.Error? || m.body.Progress? || ((m.body.Answer? || m.body.Reject?) && m.body.inReplyTo.None?)
    case OFFERED => m.body.Error? || m.body.Cancel?
    case ALERTING => m.body.Error? || m.body.Cancel?
  }

  /** What a session does not take where it stands is answered as such and changes nothing, but that the other end has spoken. */
  lemma OutOfPhase(cx: Context, id: string, s: Session, run: set<Name>, m: Message)
    requires SessionOk(s) && !m.body.Invite? && !ForPhase(s, m)
    ensures var o := Received(cx, id, s, run, m);
            && o.ops == [Send(m.from, m.session, Error("session.invalid-state", m.id))]
            && o.s == s.(initiatorSpoke := s.initiatorSpoke || (s.phase == ACTIVE && s.role == Responder && !m.body.Cancel?))
  {
    hide EffectiveReason, EffectiveAnsweredBy, OnProgress, OnActive, StopAll;
  }

  /** Why an answer comes too late. */
  function WhyTooLate(s: Session): string {
    if s.endedBy == ByCancel then "session.cancelled" else if s.answered then "session.already-answered" else "session.failed"
  }

  /**
   * Whatever else a message draws: a late answer exactly one bye to the leg that sent it; the first answer, a cancel for the
   * callee's other devices when it is not from the address invited; one of two colliding updates a refusal; and otherwise
   * nothing, while the session goes on.
   */
  lemma InPhaseDraws(cx: Context, id: string, s: Session, run: set<Name>, m: Message)
    requires SessionOk(s) && !m.body.Invite? && ForPhase(s, m) && (s.phase == ENDED || Received(cx, id, s, run, m).s.phase != ENDED)
    ensures Spoken(Received(cx, id, s, run, m).ops) ==
              if m.body.Answer? && m.body.inReplyTo.None? && s.role == Initiator then
                if s.phase == ACTIVE || s.phase == ENDED then [Send(m.from, id, Bye(WhyTooLate(s)))]
                else if m.from == s.to then [] else [Send(s.to, id, Cancel(ELSEWHERE))]
              else if m.body.Update? && s.phase == ACTIVE then
                match s.outstanding
                case Inbound(_) => [Send(m.from, id, Error("session.update-pending", m.body.uid))]
                case Outbound(ours) => if Less(ours, m.body.uid) then [Send(m.from, id, Reject("session.glare", Some(m.body.uid)))] else []
                case NoUpdate => []
              else []
  {
    hide EffectiveReason, EffectiveAnsweredBy, OnProgress, Of, StopAll, Less;
    var o := Received(cx, id, s, run, m);
    if OwnAttempt(s) && m.body.Progress? {
      ProgressQuiet(cx, id, s, run, m);
    } else if OwnAttempt(s) && m.body.Answer? {
      AnswerDraws(cx, id, s, run, m);
    } else if |o.ops| == 1 {
      OfOne(Words, o.ops[0]);
      assert o.ops == [o.ops[0]];
    } else {
      LacksOf(Words, o.ops);
    }
  }

  lemma AnswerDraws(cx: Context, id: string, s: Session, run: set<Name>, m: Message)
    requires OwnAttempt(s) && m.body.Answer? && m.body.inReplyTo.None?
    ensures var ops := Received(cx, id, s, run, m).ops;
            && Of(Words, ops) == (if m.from == s.to then [] else [Send(s.to, id, Cancel(ELSEWHERE))])
            && Of(Shows, ops) == [Ui("answered", EffectiveAnsweredBy(m.body.answeredBy))] && Of(Starts, ops) == []
  {
    hide Of, StopAll, EffectiveAnsweredBy;
    var up := [MediaStart, Ui("answered", EffectiveAnsweredBy(m.body.answeredBy))];
    var more := if m.from == s.to then [] else [Send(s.to, id, Cancel(ELSEWHERE))];
    assert Received(cx, id, s, run, m).ops == StopAll(run) + up + more;
    forall part ensures Of(part, StopAll(run) + up + more) == if part.Words? then more else if part.Shows? then [up[1]] else [] {
      OfAppend(part, StopAll(run) + up, more);
      OfAppend(part, StopAll(run), up);
      StopsTellNothing(part, run, TRing);
      OfTwo(part, up[0], up[1]);
      OfOne(part, up[0]);
      OfOne(part, up[1]);
      OfOne(part, Send(s.to, id, Cancel(ELSEWHERE)));
    }
  }

  lemma ProgressQuiet(cx: Context, id: string, s: Session, run: set<Name>, m: Message)
    requires OwnAttempt(s) && m.body.Progress? && Received(cx, id, s, run, m).s.phase != ENDED
    ensures var ops := Received(cx, id, s, run, m).ops;
            Of(Words, ops) == [] && Of(Shows, ops) == [UiProgress(if m.body.status.Unregistered? then Trying else m.body.status)]
  {
    hide Of, StopIf, Clamp;
    var status := EffectiveStatus(m.body.status);
    var o := Received(cx, id, s, run, m);
    var seen := StopIf(run, TEstablish) + [UiProgress(status)];
    var rest := o.ops[|seen|..];
    assert o.ops == seen + rest && Lacks(Words, rest) && Lacks(Shows, rest) by { ProgressOps(cx, id, s, run, m); }
    forall part | part != Starts ensures Of(part, o.ops) == if part.Shows? then [UiProgress(status)] else [] {
      OfAppend(part, seen, rest);
      LacksOf(part, rest);
      OfAppend(part, StopIf(run, TEstablish), [UiProgress(status)]);
      StopsTellNothing(part, run, TEstablish);
      OfOne(part, UiProgress(status));
    }
  }

  lemma ProgressOps(cx: Context, id: string, s: Session, run: set<Name>, m: Message)
    requires OwnAttempt(s) && m.body.Progress? && Received(cx, id, s, run, m).s.phase != ENDED
    ensures var o := Received(cx, id, s, run, m);
            var seen := StopIf(run, TEstablish) + [UiProgress(EffectiveStatus(m.body.status))];
            |seen| <= |o.ops| && o.ops[..|seen|] == seen && Lacks(Words, o.ops[|seen|..]) && Lacks(Shows, o.ops[|seen|..])
  {
    hide Received, ProgressRest;
    ProgressIs(cx, id, s, run, m);
  }

  /** What follows the status shown: a timer stopped, and one started. */
  function ProgressRest(cx: Context, s: Session, run: set<Name>, m: Message): (rest: seq<Op>)
    requires m.body.Progress?
    ensures Lacks(Words, rest) && Lacks(Shows, rest)
  {
    var status, left := EffectiveStatus(m.body.status), run - {TEstablish};
    var usual := [StartTimer(TRing, Or(cx.tRing, T_RING))];
    if status == Queued then StopIf(left, TRing) + [StartTimer(TQueue, Min(m.body.queueTimeout, T_QUEUE_CAP))]
    else if status == Ringing then
      StopIf(left, TQueue)
      + (match m.body.ringTimeout
         case Some(secs) => [StartTimer(TRing, Clamp(secs, T_RING_MIN, T_RING_MAX))]
         case None => if TRing in left then [] else usual)
    else if TRing in left || TQueue in left then [] else usual
  }

  /** How long a `progress` lets the attempt go on: at least 30 and at most 300 seconds of ringing, at most 1800 queued. */
  lemma ProgressStarts(cx: Context, id: string, s: Session, run: set<Name>, m: Message)
    requires OwnAttempt(s) && m.body.Progress? && Received(cx, id, s, run, m).s.phase != ENDED
    ensures var usual := if cx.tRing.Some? then cx.tRing.value else 120;
            Of(Starts, Received(cx, id, s, run, m).ops) ==
              match m.body.status
              case Queued => [StartTimer(TQueue, if m.body.queueTimeout <= 1800 then m.body.queueTimeout else 1800)]
              case Ringing =>
                (match m.body.ringTimeout
                 case Some(secs) => [StartTimer(TRing, if secs < 30 then 30 else if secs <= 300 then secs else 300)]
                 case None => if TRing in run then [] else [StartTimer(TRing, usual)])
              case _ => if TRing in run || TQueue in run then [] else [StartTimer(TRing, usual)]
  {
    hide Of, StopIf, Received;
    var status, left := EffectiveStatus(m.body.status), run - {TEstablish};
    var rest := ProgressRest(cx, s, run, m);
    var seen := StopIf(run, TEstablish) + [UiProgress(status)];
    ProgressIs(cx, id, s, run, m);
    OfAppend(Starts, seen, rest);
    OfAppend(Starts, StopIf(run, TEstablish), [UiProgress(status)]);
    OfOne(Starts, UiProgress(status));
    StopsTellNothing(Starts, run, TEstablish);
    var stop := if status == Queued then StopIf(left, TRing) else if status == Ringing then StopIf(left, TQueue) else [];
    StopsTellNothing(Starts, left, TRing);
    StopsTellNothing(Starts, left, TQueue);
    var start := rest[|stop|..];
    assert rest == stop + start && |start| <= 1;
    OfAppend(Starts, stop, start);
    OfOne(Starts, UiProgress(status));
    if start != [] { OfOne(Starts, start[0]); assert start == [start[0]]; }
  }

  lemma ProgressIs(cx: Context, id: string, s: Session, run: set<Name>, m: Message)
    requires OwnAttempt(s) && m.body.Progress? && Received(cx, id, s, run, m).s.phase != ENDED
    ensures Received(cx, id, s, run, m).ops == StopIf(run, TEstablish) + [UiProgress(EffectiveStatus(m.body.status))] + ProgressRest(cx, s, run, m)
  {
    hide Clamp, StopAll, StopIf;
  }

  /** The session after hearing messages one by one. */
  function HeardAll(cx: Context, id: string, s: Session, run: set<Name>, ms: seq<Message>): Outcome
    requires forall m :: m in ms ==> !m.body.Invite?
  {
    if ms == [] then Outcome(s, [])
    else
      var o := HeardAll(cx, id, s, run, ms[..|ms| - 1]);
      var p := Received(cx, id, o.s, RunAfter(run, o.ops), ms[|ms| - 1]);
      Outcome(p.s, o.ops + p.ops)
  }

  /** An attempt told to queue is ended by the fourth time in a row and by none before. */
  lemma {:induction false} FourthQueueEnds(cx: Context, id: string, s: Session, run: set<Name>, ms: seq<Message>)
    requires OwnAttempt(s) && s.requeues == 0
    requires forall m :: m in ms ==> m.body.Progress? && m.body.status == Queued
    ensures var t := HeardAll(cx, id, s, run, ms).s;
            if |ms| <= 3 then OwnAttempt(t) && t.requeues == |ms| else t.phase == ENDED && t.endedBy == ByCancel
  {
    hide Clamp, StopAll, StopIf, Min;
    if ms != [] {
      var front, last := ms[..|ms| - 1], ms[|ms| - 1];
      FourthQueueEnds(cx, id, s, run, front);
      assert last in ms;
    }
  }

  /** What the user is shown of a message the session takes. */
  lemma MessageShows(cx: Context, id: string, s: Session, run: set<Name>, m: Message)
    requires SessionOk(s) && !m.body.Invite? && ForPhase(s, m) && (s.phase == ENDED || Received(cx, id, s, run, m).s.phase != ENDED)
    ensures var ops := Received(cx, id, s, run, m).ops;
            && (!m.body.Progress? || s.phase == ENDED ==> Of(Starts, ops) == [])
            && Of(Shows, ops) ==
                 if m.body.Error? then [Ui("error", m.body.reason)]
                 else if s.phase == ENDED then []
                 else if m.body.Progress? then [UiProgress(if m.body.status.Unregistered? then Trying else m.body.status)]
                 else if m.body.Answer? && m.body.inReplyTo.None? && s.phase != ACTIVE then [Ui("answered", EffectiveAnsweredBy(m.body.answeredBy))]
                 else if m.body.Update? && !s.outstanding.Inbound? && !(s.outstanding.Outbound? && Less(s.outstanding.id, m.body.uid)) then
                   (if s.outstanding.Outbound? then [Ui("update_rejected", "session.glare")] else []) + [Ui("update_offered", "")]
                   + (if m.body.who.Some? then [Ui("answered", EffectiveAnsweredBy(m.body.who.value))] else [])
                 else if m.body.Reject? && s.outstanding == Outbound(Or(m.body.inReplyTo, "")) && m.body.inReplyTo.Some? then
                   [Ui("update_rejected", EffectiveReason(m.body.reason))]
                 else []
  {
    hide EffectiveReason, EffectiveAnsweredBy, OnProgress, Of, StopAll, Less;
    var o := Received(cx, id, s, run, m);
    if OwnAttempt(s) && m.body.Progress? {
      ProgressQuiet(cx, id, s, run, m);
    } else if OwnAttempt(s) && m.body.Answer? {
      AnswerDraws(cx, id, s, run, m);
    } else if |o.ops| == 1 {
      OfOne(Shows, o.ops[0]);
      OfOne(Starts, o.ops[0]);
      assert o.ops == [o.ops[0]];
    } else {
      UpdateShows(cx, id, s, run, m);
    }
  }

  lemma UpdateShows(cx: Context, id: string, s: Session, run: set<Name>, m: Message)
    requires SessionOk(s) && s.phase == ACTIVE && m.body.Update? && |Received(cx, id, s, run, m).ops| != 1
    ensures var ops := Received(cx, id, s, run, m).ops;
            && Of(Starts, ops) == [] && !s.outstanding.Inbound? && !(s.outstanding.Outbound? && Less(s.outstanding.id, m.body.uid))
            && Of(Shows, ops) == (if s.outstanding.Outbound? then [Ui("update_rejected", "session.glare")] else []) + [Ui("update_offered", "")]
                                 + (if m.body.who.Some? then [Ui("answered", EffectiveAnsweredBy(m.body.who.value))] else [])
  {
    hide EffectiveAnsweredBy, Of, Less;
    var ops := Received(cx, id, s, run, m).ops;
    AllShown(ops);
    LacksOf(Starts, ops);
  }

  lemma {:induction false} AllShown(ops: seq<Op>)
    requires forall op :: op in ops ==> op.Ui?
    ensures Of(Shows, ops) == ops
  {
    if ops != [] {
      AllShown(ops[..|ops| - 1]);
      assert ops == ops[..|ops| - 1] + [ops[|ops| - 1]];
    }
  }

  /** Once the initiator has said anything in the call, no cancel of its ends it any more. */
  lemma InitiatorHasSpoken(cx: Context, id: string, s: Session, run: set<Name>, m: Message, cancel: Message)
    requires SessionOk(s) && s.role == Responder && s.phase == ACTIVE && !m.body.Invite? && !m.body.Cancel? && !m.body.Error?
    requires cancel.body.Cancel? && Received(cx, id, s, run, m).s.phase == ACTIVE
    ensures var t := Received(cx, id, s, run, m).s;
            var o := Received(cx, id, t, run, cancel);
            o.s == t && o.ops == [Send(cancel.from, cancel.session, Error("session.invalid-state", cancel.id))]
  {
    hide EffectiveReason, EffectiveAnsweredBy, Less;
  }

  /** Information about the transport or about tones is handed over, and about anything else let go. */
  lemma InfoHandedOver(cx: Context, id: string, s: Session, run: set<Name>, m: Message)
    requires s.phase == ACTIVE && m.body.Info?
    ensures var o := Received(cx, id, s, run, m);
            && o.s.phase == ACTIVE && o.s.outstanding == s.outstanding
            && (Handover(m.body.about) in o.ops <==> m.body.about == "transport:webrtc" || m.body.about == "media:dtmf")
            && (forall op :: op in o.ops ==> op.Handover? || op.Drop?)
  {
    assert Received(cx, id, s, run, m).ops == [Received(cx, id, s, run, m).ops[0]];
  }
}
