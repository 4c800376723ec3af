/**
 * Who is left ringing: in every run of a forked call, once the initiator's attempt is over and everything has arrived, a device
 * still rings only if the relay had given it up as expired; and a device that only rang still does so exactly then.
 */
module RingingLegs {
  import opened Prelude
  import opened TimerTable
  import opened Calls
  import opened CallWords
  import Relays
  import opened ForkedCall

  predicate Rings(s: Session) { s.phase == OFFERED || s.phase == ALERTING }

  predicate HasInvite(q: seq<Body>) { exists b :: b in q && b.Invite? }

  /** The device rings, or will when its invite reaches it. */
  predicate Waiting(n: Net, d: string) {
    if d in n.legs then Rings(n.legs[d].s) else HasInvite(Queue(n.down, d))
  }

  /** A cancel on its way to a device that rings, or behind the invite that will make it ring. */
  predicate CancelComing(n: Net, d: string) {
    var q := Queue(n.down, d);
    if d in n.legs then exists b :: b in q && b.Cancel?
    else exists i, j :: 0 <= i < j < |q| && q[i].Invite? && q[j].Cancel?
  }

  predicate Final(b: Body) { (b.Answer? || b.Reject?) && b.inReplyTo.None? }

  predicate NoResponse(b: Body) { b.Error? && b.reason == "transport.no-response" }

  /** What the relay holds of one device, against where the device is. */
  predicate Tracked(n: Net, d: string) {
    && (d in n.legs || HasInvite(Queue(n.down, d)) ==> d in n.relay.legs)
    && (Waiting(n, d) ==>
          || n.relay.legs[d] == Relays.Delivered || n.relay.legs[d] == Relays.LegExpired
          || (n.relay.legs[d] == Relays.LegCancelled && CancelComing(n, d)))
    && (forall b :: b in Queue(n.up, d) ==> !NoResponse(b) && (Final(b) ==> d in n.legs && !Rings(n.legs[d].s)))
  }

  predicate Closed(a: Relays.Attempt) { !Relays.SomeLeg(a.legs, Relays.Delivered) }

  /** The attempt is over for the initiator only if it is for the relay, or will be when the cancel on its way reaches it. */
  predicate CloseComing(n: Net) {
    || Pending(n.boss.s) || Closed(n.relay) || n.boss.s.peer == Some(n.relay.to)
    || exists m :: m in n.out && m.peer == n.relay.to && m.body.Cancel?
  }

  ghost predicate RingOk(n: Net) {
    && BossOk(n.boss) && n.boss.s.to == n.relay.to && Relays.AttemptOk(n.relay)
    && (forall d :: d in n.legs ==> LegOk(n.self, n.legs[d]))
    && (forall d :: Tracked(n, d))
    && (forall m :: m in n.out ==> !m.body.Invite? && (m.body.Cancel? ==> m.peer == n.relay.to))
    && (forall m :: m in n.home && ((m.body.Reject? && m.body.inReplyTo.None?) || NoResponse(m.body)) ==> Closed(n.relay))
    && CloseComing(n)
  }

  // ---- the initiator's moves

  /** Every cancel of the initiator's goes to the address it invited, and nothing it says of a session is an invite. */
  lemma BossCancels(cx: Context, id: string, s: Session, run: set<Name>, c: Move, op: Op)
    requires Possible(s, run, c) && s.role == Initiator && op in Moved(cx, id, s, run, c).ops && op.Send?
    ensures !op.body.Invite? && (op.body.Cancel? ==> op.to == s.to)
  {
    hide Of, EffectiveReason, EffectiveAnsweredBy;
    var o := Moved(cx, id, s, run, c);
    InOf(Words, o.ops, op);
    if s.phase != ENDED && o.s.phase == ENDED {
      if OwnAttempt(s) { AttemptEnds(cx, id, s, run, c); } else { CallEnds(cx, id, s, run, c); }
    } else {
      match c {
        case Asked(now, v) => RequestSaysOne(cx, now, id, s, run, v);
        case Hearing(m) => if ForPhase(s, m) { InPhaseDraws(cx, id, s, run, m); } else { OutOfPhase(cx, id, s, run, m); }
        case TimedOut(name) =>
        case GaveWay =>
      }
    }
  }

  /** An attempt left behind was withdrawn, rejected, given up by the relay, or answered from the very address invited. */
  lemma AttemptLeft(cx: Context, id: string, s: Session, run: set<Name>, c: Move)
    requires Possible(s, run, c) && OwnAttempt(s) && !Pending(Moved(cx, id, s, run, c).s)
    ensures var o := Moved(cx, id, s, run, c);
            || o.s.peer == Some(s.to)
            || (c.Hearing? && ((c.m.body.Reject? && c.m.body.inReplyTo.None?) || NoResponse(c.m.body)))
            || exists op :: op in o.ops && op.Send? && op.to == s.to && op.body.Cancel?
  {
    hide Of, EffectiveReason, EffectiveAnsweredBy;
    var o := Moved(cx, id, s, run, c);
    if o.s.phase == ENDED {
      AttemptEnds(cx, id, s, run, c);
      if !(c.Hearing? && !c.m.body.Progress?) {
        var op := Send(s.to, id, Cancel(WhyWithdrawn(c)));
        InOf(Words, o.ops, op);
        assert op in o.ops;
      }
    } else {
      AnsweredThen(cx, id, s, run, c);
      AnswerDraws(cx, id, s, run, c.m);
      var op := Send(s.to, id, Cancel(ELSEWHERE));
      InOf(Words, o.ops, op);
      assert o.s.peer == Some(s.to) || op in o.ops;
    }
  }

  lemma AnsweredThen(cx: Context, id: string, s: Session, run: set<Name>, c: Move)
    requires Possible(s, run, c) && OwnAttempt(s) && !Pending(Moved(cx, id, s, run, c).s) && Moved(cx, id, s, run, c).s.phase != ENDED
    ensures c.Hearing? && c.m.body.Answer? && c.m.body.inReplyTo.None? && Moved(cx, id, s, run, c).s.peer == Some(c.m.from)
  {
    hide EffectiveReason, EffectiveAnsweredBy, StopAll;
  }

  lemma BossRings(n: Net, n': Net, cx: Context, c: Move)
    requires RingOk(n) && Possible(n.boss.s, n.boss.run, c)
    requires c.Hearing? ==> n.home != [] && c.m.body == n.home[0].body && n'.home == n.home[1..]
    requires !c.Hearing? ==> n'.home == n.home
    requires var o := Moved(cx, n.id, n.boss.s, n.boss.run, c);
             n'.boss.s == o.s && Forward(n.boss.s, o.s) && n'.out == n.out + Sends(o.ops)
    requires n' == n.(boss := n'.boss, out := n'.out, home := n'.home, told := n'.told) && BossOk(n'.boss)
    ensures RingOk(n')
  {
    hide Tracked, LegOk, Relays.AttemptOk, Closed, Sends, Moved;
    var s, o := n.boss.s, Moved(cx, n.id, n.boss.s, n.boss.run, c);
    forall m | m in n'.out ensures !m.body.Invite? && (m.body.Cancel? ==> m.peer == n.relay.to) {
      if m !in n.out {
        SendsIn(o.ops, m);
        var op :| op in o.ops && op.Send? && op.to == m.peer && op.body == m.body;
        BossCancels(cx, n.id, s, n.boss.run, c, op);
      }
    }
    forall d ensures Tracked(n', d) { SameTrack(n, n', d); }
    if Pending(s) && !Pending(o.s) {
      AttemptLeft(cx, n.id, s, n.boss.run, c);
      if op :| op in o.ops && op.Send? && op.to == s.to && op.body.Cancel? {
        SendsIn(o.ops, Mail(op.to, op.body));
        assert Mail(op.to, op.body) in n'.out;
      } else if c.Hearing? && o.s.peer != Some(s.to) {
        assert n.home[0] in n.home;
      }
    } else if !Pending(s) && exists m :: m in n.out && m.peer == n.relay.to && m.body.Cancel? {
      var m :| m in n.out && m.peer == n.relay.to && m.body.Cancel?;
      assert m in n'.out;
    }
  }

  lemma SameTrack(n: Net, n': Net, d: string)
    requires Tracked(n, d) && n'.legs == n.legs && n'.relay == n.relay && n'.up == n.up && n'.down == n.down
    ensures Tracked(n', d)
  {
  }

  // ---- a device's moves

  /** A device answers or rejects only as it stops ringing, and a cancel stops it. */
  lemma LegStopsRinging(cx: Context, id: string, s: Session, run: set<Name>, c: Move)
    requires Possible(s, run, c) && s.role == Responder
    ensures var o := Moved(cx, id, s, run, c);
            && (Rings(o.s) ==> Rings(s))
            && (forall op :: op in o.ops && op.Send? ==> !NoResponse(op.body) && (Final(op.body) ==> !Rings(o.s)))
            && (c.Hearing? && c.m.body.Cancel? ==> !Rings(o.s))
  {
    hide Of, EffectiveReason, EffectiveAnsweredBy, Moved;
    var o := Moved(cx, id, s, run, c);
    LegForward(cx, id, s, run, c);
    forall op | op in o.ops && op.Send? ensures !NoResponse(op.body) && (Final(op.body) ==> !Rings(o.s)) {
      LegWord(cx, id, s, run, c, op);
    }
  }

  lemma LegForward(cx: Context, id: string, s: Session, run: set<Name>, c: Move)
    requires Possible(s, run, c) && s.role == Responder
    ensures var o := Moved(cx, id, s, run, c);
            (Rings(o.s) ==> Rings(s)) && (c.Hearing? && c.m.body.Cancel? ==> !Rings(o.s))
  {
    hide EffectiveReason, EffectiveAnsweredBy, Less, RunAfter;
    match c
    case Asked(now, v) => RequestedKeeps(cx, now, id, s, run, v);
    case TimedOut(name) =>
    case Hearing(m) => ReceivedKeeps(cx, id, s, run, m);
    case GaveWay =>
  }

  lemma LegWord(cx: Context, id: string, s: Session, run: set<Name>, c: Move, op: Op)
    requires Possible(s, run, c) && s.role == Responder && op in Moved(cx, id, s, run, c).ops && op.Send?
    ensures !NoResponse(op.body) && (Final(op.body) ==> !Rings(Moved(cx, id, s, run, c).s))
  {
    hide Of, EffectiveReason, EffectiveAnsweredBy;
    var o := Moved(cx, id, s, run, c);
    InOf(Words, o.ops, op);
    if s.phase != ENDED && o.s.phase == ENDED {
      if s.phase == ACTIVE { CallEnds(cx, id, s, run, c); } else { OfferEnds(cx, id, s, run, c); }
    } else {
      match c {
        case Asked(now, v) => RequestSaysOne(cx, now, id, s, run, v);
        case Hearing(m) => if ForPhase(s, m) { InPhaseDraws(cx, id, s, run, m); } else { OutOfPhase(cx, id, s, run, m); }
        case TimedOut(name) =>
        case GaveWay =>
      }
    }
  }

  /** A device takes an outcome up, having perhaps taken the head off its link. */
  lemma LegTakesRings(n: Net, r: Net, d: string, run: set<Name>, o: Outcome, b: Option<Body>)
    requires RingOk(n) && LegLinks(n, r, d, [], b) && r == n.(down := r.down) && d in n.relay.legs
    requires LegOk(n.self, Party(o.s, RunAfter(run, o.ops)))
    requires Rings(o.s) ==>
               if d in n.legs then Rings(n.legs[d].s) && (b.Some? ==> !b.value.Cancel?) else b.Some? && b.value.Invite?
    requires d in n.legs && Rings(o.s) ==> Rings(n.legs[d].s)
    requires d in n.legs && !Rings(n.legs[d].s) ==> !Rings(o.s)
    requires forall op :: op in o.ops && op.Send? ==> !NoResponse(op.body) && (Final(op.body) ==> !Rings(o.s))
    ensures RingOk(LegTakes(r, d, run, o))
  {
    hide LegOk, BossOk, Relays.AttemptOk, Closed, CloseComing, RunAfter, Sends, Tracked;
    var n' := LegTakes(r, d, run, o);
    forall x ensures Tracked(n', x) {
      assert Tracked(n, x);
      if x == d { TakerTracked(n, r, d, run, o, b); } else { OtherTracked(n, n', x); }
    }
    SameClose(n, n');
  }

  lemma SameClose(n: Net, n': Net)
    requires CloseComing(n) && n'.boss == n.boss && n'.relay == n.relay && n'.out == n.out
    ensures CloseComing(n')
  {
  }

  lemma OtherTracked(n: Net, n': Net, x: string)
    requires Tracked(n, x) && n'.relay.legs == n.relay.legs && LegOf(n', x) == LegOf(n, x)
    requires Queue(n'.up, x) == Queue(n.up, x) && Queue(n'.down, x) == Queue(n.down, x)
    ensures Tracked(n', x)
  {
  }

  lemma BodiesIn(ops: seq<Op>, b: Body)
    requires b in Bodies(Sends(ops))
    ensures exists op :: op in ops && op.Send? && op.body == b
  {
    var i :| 0 <= i < |Sends(ops)| && Sends(ops)[i].body == b;
    SendsIn(ops, Sends(ops)[i]);
  }

  lemma TakerTracked(n: Net, r: Net, d: string, run: set<Name>, o: Outcome, b: Option<Body>)
    requires Tracked(n, d) && LegLinks(n, r, d, [], b) && r == n.(down := r.down) && d in n.relay.legs
    requires Rings(o.s) ==>
               if d in n.legs then Rings(n.legs[d].s) && (b.Some? ==> !b.value.Cancel?) else b.Some? && b.value.Invite?
    requires d in n.legs && !Rings(n.legs[d].s) ==> !Rings(o.s)
    requires forall op :: op in o.ops && op.Send? ==> !NoResponse(op.body) && (Final(op.body) ==> !Rings(o.s))
    ensures Tracked(LegTakes(r, d, run, o), d)
  {
    hide Sends, RunAfter;
    var n' := LegTakes(r, d, run, o);
    var bodies := Bodies(Sends(o.ops));
    forall y | y in Queue(n'.up, d) ensures !NoResponse(y) && (Final(y) ==> !Rings(o.s)) {
      if y !in Queue(n.up, d) { assert y in bodies; BodiesIn(o.ops, y); }
    }
    if Rings(o.s) {
      HeadKept(Queue(n.down, d), Queue(r.down, d), b);
      assert Waiting(n, d);
    }
  }

  /** Taking what is no cancel off a link leaves the cancels on it. */
  lemma HeadKept(q: seq<Body>, rest: seq<Body>, b: Option<Body>)
    requires if b.Some? then q != [] && q[0] == b.value && rest == q[1..] else rest == q
    ensures b.Some? && !b.value.Cancel? && (exists x :: x in q && x.Cancel?) ==> exists x :: x in rest && x.Cancel?
    ensures b.Some? && (exists i, j :: 0 <= i < j < |q| && q[i].Invite? && q[j].Cancel?) ==> exists x :: x in rest && x.Cancel?
    ensures b.Some? && b.value.Invite? ==> HasInvite(q)
  {
    if b.Some? {
      if i, j :| 0 <= i < j < |q| && q[i].Invite? && q[j].Cancel? { assert rest[j - 1] == q[j]; }
      if x :| x in q && x.Cancel? && !b.value.Cancel? {
        var j :| 0 <= j < |q| && q[j] == x;
        assert rest[j - 1] == x;
      }
    }
  }

  lemma LegAskedRings(n: Net, d: string, cx: Context, now: int, v: Verb)
    requires RingOk(n) && d in n.legs
    ensures RingOk(Step(n, LegRequests(d, cx, now, v)))
  {
    assert LegLinks(n, n, d, [], None) by { assert Queue(n.up, d) + [] == Queue(n.up, d); }
    var s, run := n.legs[d].s, n.legs[d].run;
    assert Step(n, LegRequests(d, cx, now, v)) == LegTakes(n, d, run, Requested(cx, now, n.id, s, run, v));
    hide RingOk, Step, StepKeeps, LegLinks, RunAfter, LegTakes, Requested;
    RingGives(n, d);
    RequestedKeeps(cx, now, n.id, s, run, v);
    LegPartyKeeps(n.self, n.legs[d], run, Requested(cx, now, n.id, s, run, v));
    LegStopsRinging(cx, n.id, s, run, Asked(now, v));
    assert n == n.(down := n.down);
    LegTakesRings(n, n, d, run, Requested(cx, now, n.id, s, run, v), None);
  }

  lemma RingGives(n: Net, d: string)
    requires RingOk(n)
    ensures BossOk(n.boss) && Tracked(n, d) && (d in n.legs ==> LegOk(n.self, n.legs[d]) && d in n.relay.legs)
  {
    hide BossOk, LegOk, Relays.AttemptOk, CloseComing;
  }

  lemma LegFiredRings(n: Net, d: string)
    requires RingOk(n) && d in n.legs && TRingLocal in n.legs[d].run
    ensures RingOk(Step(n, LegFires(d)))
  {
    assert LegLinks(n, n, d, [], None) by { assert Queue(n.up, d) + [] == Queue(n.up, d); }
    var s, run := n.legs[d].s, n.legs[d].run;
    var o := Fired(TRingLocal, n.id, s);
    assert Step(n, LegFires(d)) == LegTakes(n, d, run - {TRingLocal}, o);
    hide RingOk, Step, StepKeeps, LegLinks, RunAfter, LegTakes, Fired;
    RingGives(n, d);
    LegFiredParty(n, d);
    assert n == n.(down := n.down);
    LegTakesRings(n, n, d, run - {TRingLocal}, o, None);
  }

  lemma LegFiredParty(n: Net, d: string)
    requires d in n.legs && LegOk(n.self, n.legs[d]) && TRingLocal in n.legs[d].run
    ensures var s, o := n.legs[d].s, Fired(TRingLocal, n.id, n.legs[d].s);
            && LegOk(n.self, Party(o.s, RunAfter(n.legs[d].run - {TRingLocal}, o.ops)))
            && (Rings(o.s) ==> Rings(s))
            && (forall op :: op in o.ops && op.Send? ==> !NoResponse(op.body) && (Final(op.body) ==> !Rings(o.s)))
  {
    var s, run := n.legs[d].s, n.legs[d].run;
    var cx := Context(d, map[], None, None, None, false, {});
    hide RunAfter;
    assert Possible(s, run, TimedOut(TRingLocal));
    LegStopsRinging(cx, n.id, s, run, TimedOut(TRingLocal));
    FiredKeeps(TRingLocal, n.id, s, run);
    hide Fired, SessionOk, TimersFit;
    LegPartyKeeps(n.self, n.legs[d], run - {TRingLocal}, Fired(TRingLocal, n.id, s));
  }

  lemma LegHeardRings(n: Net, d: string, refusal: Option<string>)
    requires RingOk(n) && Queue(n.down, d) != []
    ensures RingOk(LegHears(n, d, refusal))
  {
    hide RingOk, StepKeeps, RunAfter, LegTakes, Received;
    var b := Queue(n.down, d)[0];
    var r := n.(down := n.down[d := Queue(n.down, d)[1..]]);
    assert LegLinks(n, r, d, [], Some(b)) by { assert Queue(n.up, d) + [] == Queue(n.up, d); }
    hide LegLinks;
    RingGives(n, d);
    if d !in n.legs {
      if b.Invite? { NewcomerRings(n, r, d, refusal, b); } else { StrangerRings(n, d, refusal); }
    } else {
      var s, run, m := n.legs[d].s, n.legs[d].run, Message(n.self, "", n.id, b);
      if b.Invite? {
        var o := Outcome(s, [if s.phase == ENDED then Drop("ended-session") else InvalidState(m)]);
        SecondInviteMoves(s, run, m);
        LegPartyKeeps(n.self, n.legs[d], run, o);
        LegTakesRings(n, r, d, run, o, Some(b));
      } else {
        var cx := Context(d, map[], None, None, None, false, {});
        ReceivedKeeps(cx, n.id, s, run, m);
        LegPartyKeeps(n.self, n.legs[d], run, Received(cx, n.id, s, run, m));
        LegStopsRinging(cx, n.id, s, run, Hearing(m));
        LegTakesRings(n, r, d, run, Received(cx, n.id, s, run, m), Some(b));
      }
    }
  }

  lemma NewcomerRings(n: Net, r: Net, d: string, refusal: Option<string>, b: Body)
    requires RingOk(n) && d !in n.legs && b.Invite? && Queue(n.down, d) != [] && Queue(n.down, d)[0] == b
    requires r == n.(down := n.down[d := Queue(n.down, d)[1..]]) && LegLinks(n, r, d, [], Some(b))
    ensures RingOk(LegHears(n, d, refusal))
  {
    hide RingOk, LegLinks, RunAfter, LegTakes;
    RingGives(n, d);
    assert HasInvite(Queue(n.down, d));
    NewLegOps(n, refusal, b.expiresAt);
    if refusal.Some? {
      LegTakesRings(n, r, d, {}, Outcome(NewOffer(ENDED, n.self, b.expiresAt), [Send(n.self, n.id, Reject(refusal.value, None))]), Some(b));
    } else {
      LegTakesRings(n, r, d, {}, Outcome(NewOffer(OFFERED, n.self, b.expiresAt), [Ui("offered", "")]), Some(b));
    }
  }

  /** A message before the invite is refused at most. */
  lemma StrangerRings(n: Net, d: string, refusal: Option<string>)
    requires RingOk(n) && Queue(n.down, d) != [] && d !in n.legs && !Queue(n.down, d)[0].Invite?
    ensures RingOk(LegHears(n, d, refusal))
  {
    hide LegOk, BossOk, Relays.AttemptOk, Closed, CloseComing, Tracked;
    var n' := LegHears(n, d, refusal);
    SameClose(n, n');
    forall x ensures Tracked(n', x) {
      assert Tracked(n, x);
      if x == d { StrangerTracked(n, d, refusal); } else { OtherTracked(n, n', x); }
    }
  }

  lemma StrangerTracked(n: Net, d: string, refusal: Option<string>)
    requires Tracked(n, d) && Queue(n.down, d) != [] && d !in n.legs && !Queue(n.down, d)[0].Invite?
    ensures Tracked(LegHears(n, d, refusal), d)
  {
    var q, n' := Queue(n.down, d), LegHears(n, d, refusal);
    assert Queue(n'.down, d) == q[1..];
    assert forall b :: b in q[1..] ==> b in q;
    if HasInvite(q[1..]) {
      if i, j :| 0 <= i < j < |q| && q[i].Invite? && q[j].Cancel? { assert q[1..][i - 1] == q[i] && q[1..][j - 1] == q[j]; }
    }
  }

  // ---- the relay's moves

  /** What an emission puts on a device's link and on the initiator's. */
  function DownOf(n: Net, e: Relays.Emission, d: string): seq<Body> {
    if e.DeliverInvite? && e.leg == d then [Invite(n.relay.to, n.relay.expires)]
    else if e.DeliverCancel? && e.leg == d then [Cancel(e.reason)] else []
  }

  function HomeOf(n: Net, e: Relays.Emission): seq<Mail> {
    if e.Forward? then [Mail(e.from, e.body)]
    else if e.NoResponse? then [Mail(RELAY, Error("transport.no-response", n.id))] else []
  }

  function DownFor(n: Net, emit: seq<Relays.Emission>, d: string): seq<Body> {
    if emit == [] then [] else DownFor(n, emit[..|emit| - 1], d) + DownOf(n, emit[|emit| - 1], d)
  }

  function HomeFor(n: Net, emit: seq<Relays.Emission>): seq<Mail> {
    if emit == [] then [] else HomeFor(n, emit[..|emit| - 1]) + HomeOf(n, emit[|emit| - 1])
  }

  lemma {:induction false} PostedWhere(n: Net, emit: seq<Relays.Emission>)
    requires forall e :: e in emit ==> !e.Deliver?
    ensures var n' := PostAll(n, emit);
            && n' == n.(home := n'.home, down := n'.down) && n'.home == n.home + HomeFor(n, emit)
            && forall d :: Queue(n'.down, d) == Queue(n.down, d) + DownFor(n, emit, d)
  {
    if emit == [] {
      NonePosted(n);
    } else {
      hide Post, HomeFor, DownFor, Queue;
      var front, e := emit[..|emit| - 1], emit[|emit| - 1];
      PostedWhere(n, front);
      OnePosted(n, PostAll(n, front), front, e);
      assert emit == front + [e];
    }
  }

  lemma NonePosted(n: Net)
    ensures PostAll(n, []) == n && n.home + HomeFor(n, []) == n.home && forall d :: Queue(n.down, d) + DownFor(n, [], d) == Queue(n.down, d)
  {
  }

  lemma OnePosted(n: Net, m: Net, front: seq<Relays.Emission>, e: Relays.Emission)
    requires m == n.(home := m.home, down := m.down) && m.home == n.home + HomeFor(n, front) && !e.Deliver?
    requires forall d :: Queue(m.down, d) == Queue(n.down, d) + DownFor(n, front, d)
    ensures var n' := Post(m, e);
            && n' == n.(home := n'.home, down := n'.down) && n'.home == n.home + HomeFor(n, front + [e])
            && forall d :: Queue(n'.down, d) == Queue(n.down, d) + DownFor(n, front + [e], d)
  {
    PostAdds(m, e);
    hide Post, Queue, DownOf, HomeOf, DownFor, HomeFor;
    PiecesSame(n, m, e);
    HomeOneMore(n, m, front, e);
    forall d ensures Queue(Post(m, e).down, d) == Queue(n.down, d) + DownFor(n, front + [e], d) { DownOneMore(n, m, front, e, d); }
  }

  lemma HomeOneMore(n: Net, m: Net, front: seq<Relays.Emission>, e: Relays.Emission)
    requires m.home == n.home + HomeFor(n, front)
    ensures m.home + HomeOf(n, e) == n.home + HomeFor(n, front + [e])
  {
    assert (front + [e])[..|front|] == front && (front + [e])[|front|] == e;
    hide HomeOf;
    assert (n.home + HomeFor(n, front)) + HomeOf(n, e) == n.home + (HomeFor(n, front) + HomeOf(n, e));
  }

  lemma DownOneMore(n: Net, m: Net, front: seq<Relays.Emission>, e: Relays.Emission, d: string)
    requires Queue(m.down, d) == Queue(n.down, d) + DownFor(n, front, d)
    ensures Queue(m.down, d) + DownOf(n, e, d) == Queue(n.down, d) + DownFor(n, front + [e], d)
  {
    assert (front + [e])[..|front|] == front && (front + [e])[|front|] == e;
    hide DownOf, Queue;
    assert (Queue(n.down, d) + DownFor(n, front, d)) + DownOf(n, e, d) == Queue(n.down, d) + (DownFor(n, front, d) + DownOf(n, e, d));
  }

  lemma PiecesSame(n: Net, m: Net, e: Relays.Emission)
    requires m.relay == n.relay && m.id == n.id
    ensures HomeOf(m, e) == HomeOf(n, e) && forall d :: DownOf(m, e, d) == DownOf(n, e, d)
  {
  }

  lemma PostAdds(m: Net, e: Relays.Emission)
    requires !e.Deliver?
    ensures var n' := Post(m, e);
            && n' == m.(home := n'.home, down := n'.down) && n'.home == m.home + HomeOf(m, e)
            && forall d :: Queue(n'.down, d) == Queue(m.down, d) + DownOf(m, e, d)
  {
    assert m.home + [] == m.home;
    forall d ensures Queue(Post(m, e).down, d) == Queue(m.down, d) + DownOf(m, e, d) {
      assert Queue(m.down, d) + [] == Queue(m.down, d);
    }
  }

  lemma {:induction false} DownIn(n: Net, emit: seq<Relays.Emission>, d: string, b: Body)
    ensures b in DownFor(n, emit, d) ==>
              (exists e :: e in emit && e.DeliverInvite? && e.leg == d && b == Invite(n.relay.to, n.relay.expires))
              || (exists e :: e in emit && e.DeliverCancel? && e.leg == d && b == Cancel(e.reason))
    ensures forall e :: e in emit && e.DeliverCancel? && e.leg == d ==> Cancel(e.reason) in DownFor(n, emit, d)
  {
    if emit != [] {
      DownIn(n, emit[..|emit| - 1], d, b);
      assert emit == emit[..|emit| - 1] + [emit[|emit| - 1]];
    }
  }

  lemma {:induction false} HomeIn(n: Net, emit: seq<Relays.Emission>, m: Mail)
    ensures m in HomeFor(n, emit) ==>
              (exists e :: e in emit && e.Forward? && m == Mail(e.from, e.body))
              || (exists e :: e in emit && e.NoResponse? && m == Mail(RELAY, Error("transport.no-response", n.id)))
  {
    if emit != [] {
      HomeIn(n, emit[..|emit| - 1], m);
      assert emit == emit[..|emit| - 1] + [emit[|emit| - 1]];
    }
  }

  /** How a relay step may move the legs it holds: only outstanding ones end, cancelled ones being told, and new ones are invited. */
  ghost predicate RelayMoves(a: Relays.Attempt, s: Relays.AttemptStep, spoke: set<string>) {
    && Relays.AttemptOk(s.a) && s.a.to == a.to
    && (forall e :: e in s.emit ==> !e.Deliver? && (e.DeliverInvite? ==> e.leg !in a.legs && e.leg in s.a.legs && s.a.legs[e.leg] == Relays.Delivered))
    && (forall e :: e in s.emit && ((e.Forward? && e.body.Reject? && e.body.inReplyTo.None?) || e.NoResponse?) ==> Closed(s.a))
    && (forall e :: e in s.emit && e.Forward? ==> !NoResponse(e.body))
    && (forall e :: e in s.emit && e.DeliverCancel? ==> e.leg in s.a.legs && s.a.legs[e.leg] == Relays.LegCancelled)
    && (Closed(a) ==> Closed(s.a))
    && (forall l :: l in a.legs ==> l in s.a.legs)
    && (forall l :: l in a.legs && s.a.legs[l] != a.legs[l] ==>
          && a.legs[l] == Relays.Delivered
          && match s.a.legs[l]
             case LegCancelled => exists e :: e in s.emit && e.DeliverCancel? && e.leg == l
             case LegExpired => true
             case _ => l in spoke)
  }

  lemma RelayRings(n: Net, s: Relays.AttemptStep, spoke: set<string>)
    requires RingOk(n) && RelayMoves(n.relay, s, spoke)
    requires forall l :: l in spoke ==> !Waiting(n, l)
    ensures RingOk(RelayTakes(n, s))
  {
    hide LegOk, BossOk, Relays.AttemptOk, Tracked, DownFor, HomeFor, Closed, PostAll;
    var m := n.(relay := s.a);
    PostedWhere(m, s.emit);
    var n' := RelayTakes(n, s);
    forall x | x in n'.home && ((x.body.Reject? && x.body.inReplyTo.None?) || NoResponse(x.body)) ensures Closed(s.a) {
      if x !in n.home { HomeIn(m, s.emit, x); }
    }
    forall d ensures Tracked(n', d) {
      assert Tracked(n, d);
      RelayTracked(n, s, spoke, d);
    }
    assert CloseComing(n');
  }

  lemma RelayTracked(n: Net, s: Relays.AttemptStep, spoke: set<string>, d: string)
    requires Tracked(n, d) && RelayMoves(n.relay, s, spoke) && (forall l :: l in spoke ==> !Waiting(n, l))
    ensures Tracked(RelayTakes(n, s), d)
  {
    hide DownFor, HomeFor, Closed, PostAll, Relays.AttemptOk;
    var m, n' := n.(relay := s.a), RelayTakes(n, s);
    PostedWhere(m, s.emit);
    var q, more := Queue(n.down, d), DownFor(m, s.emit, d);
    assert Queue(n'.down, d) == q + more;
    if b :| b in more && b.Invite? {
      DownIn(m, s.emit, d, b);
      assert d in s.a.legs;
    }
    if Waiting(n', d) {
      if !Waiting(n, d) {
        var b :| b in q + more && b.Invite?;
        assert b in more;
        DownIn(m, s.emit, d, b);
      } else if s.a.legs[d] == Relays.LegCancelled {
        CancelledTracked(n, s, d, q, more);
      }
    }
  }

  lemma CancelledTracked(n: Net, s: Relays.AttemptStep, d: string, q: seq<Body>, more: seq<Body>)
    requires Tracked(n, d) && Waiting(n, d) && q == Queue(n.down, d) && d in n.relay.legs && d in s.a.legs && s.a.legs[d] == Relays.LegCancelled
    requires more == DownFor(n.(relay := s.a), s.emit, d)
    requires n.relay.legs[d] == Relays.LegCancelled || exists e :: e in s.emit && e.DeliverCancel? && e.leg == d
    ensures if d in n.legs then exists b :: b in q + more && b.Cancel?
            else exists i, j :: 0 <= i < j < |q + more| && (q + more)[i].Invite? && (q + more)[j].Cancel?
  {
    hide DownFor;
    if n.relay.legs[d] == Relays.LegCancelled {
      if d in n.legs {
        var b :| b in q && b.Cancel?;
        assert b in q + more;
      } else {
        var i, j :| 0 <= i < j < |q| && q[i].Invite? && q[j].Cancel?;
        assert (q + more)[i] == q[i] && (q + more)[j] == q[j];
      }
    } else {
      var e :| e in s.emit && e.DeliverCancel? && e.leg == d;
      DownIn(n.(relay := s.a), s.emit, d, Cancel(e.reason));
      var j :| 0 <= j < |more| && more[j] == Cancel(e.reason);
      assert (q + more)[|q| + j] == Cancel(e.reason) && (q + more)[|q| + j] in q + more;
      if d !in n.legs {
        var b :| b in q && b.Invite?;
        var i :| 0 <= i < |q| && q[i] == b;
        assert (q + more)[i] == q[i];
      }
    }
  }

  lemma LegEndedMoves(session: string, a: Relays.Attempt, leg: string, state: Relays.LegState, spoke: set<string>)
    requires Relays.AttemptOk(a) && (state == Relays.LegExpired || (state == Relays.LegRejected && leg in spoke))
    ensures RelayMoves(a, Relays.LegEnded(session, a, leg, state), spoke)
  {
    Relays.LegEndedKeeps(session, a, leg, state);
  }

  lemma ChainMoves(a: Relays.Attempt, s: Relays.AttemptStep, t: Relays.AttemptStep, spoke: set<string>)
    requires RelayMoves(a, s, spoke) && RelayMoves(s.a, t, spoke) && (forall e :: e in s.emit ==> !e.DeliverInvite?)
    ensures RelayMoves(a, Relays.AttemptStep(t.a, s.emit + t.emit), spoke)
  {
    hide Relays.AttemptOk, Closed;
    forall l | l in a.legs && t.a.legs[l] != a.legs[l] && t.a.legs[l] == Relays.LegCancelled
      ensures exists e :: e in s.emit + t.emit && e.DeliverCancel? && e.leg == l
    {
      if s.a.legs[l] != a.legs[l] {
        var e :| e in s.emit && e.DeliverCancel? && e.leg == l;
        assert e in s.emit + t.emit;
      } else {
        var e :| e in t.emit && e.DeliverCancel? && e.leg == l;
        assert e in s.emit + t.emit;
      }
    }
  }

  lemma StillMoves(a: Relays.Attempt, spoke: set<string>)
    requires Relays.AttemptOk(a)
    ensures RelayMoves(a, Relays.AttemptStep(a, []), spoke)
  {
  }

  lemma {:induction false} ExpireEachMoves(session: string, a: Relays.Attempt, legs: seq<string>)
    requires Relays.AttemptOk(a)
    ensures RelayMoves(a, Relays.ExpireEach(session, a, legs), {})
    ensures forall e :: e in Relays.ExpireEach(session, a, legs).emit ==> !e.DeliverInvite?
  {
    hide RelayMoves, Relays.AttemptOk, Relays.LegEnded;
    if legs == [] {
      StillMoves(a, {});
    } else {
      var front, leg := legs[..|legs| - 1], legs[|legs| - 1];
      ExpireEachMoves(session, a, front);
      var s := Relays.ExpireEach(session, a, front);
      if Relays.Silent(s.a, leg) {
        assert Relays.AttemptOk(s.a) by { MovesOk(a, s, {}); }
        LegEndedMoves(session, s.a, leg, Relays.LegExpired, {});
        EndedInvitesNone(session, s.a, leg, Relays.LegExpired);
        ChainMoves(a, s, Relays.LegEnded(session, s.a, leg, Relays.LegExpired), {});
      }
    }
  }

  lemma MovesOk(a: Relays.Attempt, s: Relays.AttemptStep, spoke: set<string>)
    requires RelayMoves(a, s, spoke)
    ensures Relays.AttemptOk(s.a)
  {
  }

  lemma EndedInvitesNone(session: string, a: Relays.Attempt, leg: string, state: Relays.LegState)
    ensures forall e :: e in Relays.LegEnded(session, a, leg, state).emit ==> !e.DeliverInvite?
  {
  }

  /** A cancel ends the outstanding legs it is for, each of them told, and no other. */
  predicate CancelShaped(session: string, a: Relays.Attempt, target: Option<string>, reason: string, s: Relays.AttemptStep) {
    && s.a.to == a.to && s.a.legs.Keys == a.legs.Keys
    && (forall e :: e in s.emit ==> e.DeliverCancel? && e.leg in s.a.legs && s.a.legs[e.leg] == Relays.LegCancelled)
    && forall l :: l in a.legs ==>
         if a.legs[l] == Relays.Delivered && (target.None? || target == Some(a.to) || target == Some(l))
         then s.a.legs[l] == Relays.LegCancelled && Relays.DeliverCancel(l, session, reason) in s.emit
         else s.a.legs[l] == a.legs[l]
  }

  lemma CancelShape(session: string, a: Relays.Attempt, now: int, target: Option<string>, reason: string)
    ensures CancelShaped(session, a, target, reason, Relays.CancelAttempt(session, a, now, target, reason))
  {
    var t, ids := a.(touched := now), Sorted(a.legs.Keys);
    Relays.CancelEachEffect(session, t, target, reason, ids);
    var r := Relays.CancelEach(session, t, target, reason, ids);
    forall l | l in a.legs && Relays.Cancels(t, target, l) ensures Relays.DeliverCancel(l, session, reason) in r.emit {
      assert Relays.CancelTold(Relays.DeliverCancel(l, session, reason), session, t, target, reason, ids);
    }
  }

  lemma ShapeMoves(session: string, a: Relays.Attempt, target: Option<string>, reason: string, s: Relays.AttemptStep)
    requires Relays.AttemptOk(s.a) && CancelShaped(session, a, target, reason, s)
    ensures RelayMoves(a, s, {})
    ensures target == Some(a.to) ==> Closed(s.a)
  {
    hide Relays.AttemptOk;
    forall l | l in a.legs && s.a.legs[l] != a.legs[l] ensures exists e :: e in s.emit && e.DeliverCancel? && e.leg == l {
      assert Relays.DeliverCancel(l, session, reason) in s.emit;
    }
    assert forall l :: l in s.a.legs <==> l in a.legs;
  }

  lemma CancelMoves(session: string, a: Relays.Attempt, now: int, target: Option<string>, reason: string)
    requires Relays.AttemptOk(a)
    ensures RelayMoves(a, Relays.CancelAttempt(session, a, now, target, reason), {})
    ensures target == Some(a.to) ==> Closed(Relays.CancelAttempt(session, a, now, target, reason).a)
  {
    hide Relays.AttemptOk, Relays.CancelAttempt, CancelShaped, RelayMoves, Closed;
    assert Relays.AttemptOk(Relays.CancelAttempt(session, a, now, target, reason).a) by { Relays.CancelKeeps(session, a, now, target, reason); }
    CancelShape(session, a, now, target, reason);
    ShapeMoves(session, a, target, reason, Relays.CancelAttempt(session, a, now, target, reason));
  }

  lemma AnswerMoves(session: string, a: Relays.Attempt, now: int, m: Message)
    requires Relays.AttemptOk(a) && m.from in a.legs && m.body.Answer? && Final(m.body)
    ensures RelayMoves(a, Relays.FromLeg(session, a, now, m), {m.from})
  {
    Relays.FromLegKeeps(session, a, now, m);
    hide Relays.AttemptOk;
  }

  lemma ProgressMoves(session: string, a: Relays.Attempt, now: int, m: Message)
    requires Relays.AttemptOk(a) && m.from in a.legs && m.body.Progress?
    ensures RelayMoves(a, Relays.FromLeg(session, a, now, m), {})
  {
    Relays.FromLegKeeps(session, a, now, m);
    hide Relays.AttemptOk;
  }

  lemma RejectMoves(session: string, a: Relays.Attempt, now: int, m: Message)
    requires Relays.AttemptOk(a) && m.from in a.legs && m.body.Reject? && Final(m.body)
    ensures RelayMoves(a, Relays.FromLeg(session, a, now, m), {m.from})
  {
    hide Relays.LegEnded;
    var h := a.(touched := now, heard := a.heard + {m.from});
    var p := h.(rejections := h.rejections + [Relays.Rejection(m.from, m.body.reason)]);
    if a.legs[m.from] == Relays.Delivered { LegEndedMoves(session, p, m.from, Relays.LegRejected, {m.from}); }
  }

  /** Whoever has spoken up rings no more. */
  lemma FromLegMoves(n: Net, d: string, now: int)
    requires RingOk(n) && Queue(n.up, d) != [] && d in n.relay.legs && Relays.LegSpeaks(Queue(n.up, d)[0])
    ensures var b := Queue(n.up, d)[0];
            RelayMoves(n.relay, Relays.FromLeg(n.id, n.relay, now, Message(d, "", n.id, b)), if b.Progress? then {} else {d})
    ensures !Queue(n.up, d)[0].Progress? ==> d in n.legs && !Rings(n.legs[d].s)
  {
    var b := Queue(n.up, d)[0];
    var m := Message(d, "", n.id, b);
    RingGives(n, d);
    AttemptFits(n);
    hide RingOk, RelayMoves, Relays.FromLeg;
    assert b in Queue(n.up, d);
    if b.Progress? { ProgressMoves(n.id, n.relay, now, m); }
    else if b.Answer? { AnswerMoves(n.id, n.relay, now, m); }
    else { RejectMoves(n.id, n.relay, now, m); }
  }

  /** The head of a device's link reaches the relay, and the initiator's link if it is passed on. */
  lemma UpTaken(n: Net, d: string, home: seq<Mail>)
    requires RingOk(n) && Queue(n.up, d) != [] && (home == n.home || home == n.home + [Mail(d, Queue(n.up, d)[0])])
    requires home != n.home ==> !Queue(n.up, d)[0].Reject? || Queue(n.up, d)[0].inReplyTo.Some?
    ensures RingOk(n.(up := n.up[d := Queue(n.up, d)[1..]], home := home))
  {
    hide LegOk, BossOk, Relays.AttemptOk, Closed, CloseComing, Tracked;
    var n' := n.(up := n.up[d := Queue(n.up, d)[1..]], home := home);
    SameClose(n, n');
    assert Tracked(n, d) && Queue(n.up, d)[0] in Queue(n.up, d);
    HeadHarmless(n, d);
    forall x ensures Tracked(n', x) {
      assert Tracked(n, x);
      UpTracked(n, n', d, x);
    }
  }

  lemma HeadHarmless(n: Net, d: string)
    requires Tracked(n, d) && Queue(n.up, d) != []
    ensures !NoResponse(Queue(n.up, d)[0])
  {
    assert Queue(n.up, d)[0] in Queue(n.up, d);
  }

  lemma UpTracked(n: Net, n': Net, d: string, x: string)
    requires Tracked(n, x) && Queue(n.up, d) != [] && n' == n.(up := n.up[d := Queue(n.up, d)[1..]], home := n'.home)
    ensures Tracked(n', x)
  {
    var q := Queue(n.up, d);
    assert forall b :: b in q[1..] ==> b in q;
  }

  lemma FromLegRings(n: Net, d: string, now: int)
    requires RingOk(n) && Queue(n.up, d) != []
    ensures RingOk(RelayHearsLeg(n, d, now))
  {
    hide RingOk, Relays.FromLeg, PostAll, Tracked;
    var b := Queue(n.up, d)[0];
    RingGives(n, d);
    if d in n.relay.legs && Relays.LegSpeaks(b) {
      FromLegMoves(n, d, now);
      UpTaken(n, d, n.home);
      var rest := n.(up := n.up[d := Queue(n.up, d)[1..]]);
      assert rest == n.(up := n.up[d := Queue(n.up, d)[1..]], home := n.home);
      RelayRings(rest, Relays.FromLeg(n.id, n.relay, now, Message(d, "", n.id, b)), if b.Progress? then {} else {d});
    } else {
      assert Tracked(n, d);
      RejectsKnown(n, d);
      UpTaken(n, d, n.home + [Mail(d, b)]);
    }
  }

  lemma RejectsKnown(n: Net, d: string)
    requires Tracked(n, d) && Queue(n.up, d) != [] && !(d in n.relay.legs && Relays.LegSpeaks(Queue(n.up, d)[0]))
    ensures !Queue(n.up, d)[0].Reject? || Queue(n.up, d)[0].inReplyTo.Some?
  {
    assert Queue(n.up, d)[0] in Queue(n.up, d);
  }

  lemma FromBossRings(n: Net, now: int)
    requires RingOk(n) && n.out != []
    ensures RingOk(RelayHearsBoss(n, now))
  {
    hide LegOk, BossOk, Relays.AttemptOk, Closed, Tracked, PostAll, Relays.CancelAttempt, CloseComing;
    var m := n.out[0];
    assert m in n.out;
    if m.body.Cancel? && (m.peer == n.relay.to || m.peer in n.relay.legs) {
      var s := Relays.CancelAttempt(n.id, n.relay, now, Some(m.peer), m.body.reason);
      CancelMoves(n.id, n.relay, now, Some(m.peer), m.body.reason);
      CancelHeard(n, s);
    } else {
      OutPassed(n, RelayHearsBoss(n, now), m);
    }
  }

  lemma CancelHeard(n: Net, s: Relays.AttemptStep)
    requires RingOk(n) && n.out != [] && RelayMoves(n.relay, s, {}) && Closed(s.a)
    ensures RingOk(RelayTakes(n.(out := n.out[1..]), s))
  {
    hide RingOk, Tracked, PostAll, RelayMoves, Closed;
    RelayRings(n, s, {});
    PostAllRest(n.(relay := s.a), n.out[1..], s.emit);
    assert n.(out := n.out[1..]).(relay := s.a) == n.(relay := s.a).(out := n.out[1..]);
    OutShorter(RelayTakes(n, s), n.out[1..]);
  }

  /** What the relay posts does not depend on what the initiator has yet to send. */
  lemma {:induction false} PostAllRest(n: Net, out: seq<Mail>, emit: seq<Relays.Emission>)
    ensures PostAll(n.(out := out), emit) == PostAll(n, emit).(out := out)
    ensures PostAll(n, emit).relay == n.relay && PostAll(n, emit).out == n.out
  {
    hide Post;
    if emit != [] {
      PostAllRest(n, out, emit[..|emit| - 1]);
      PostRest(PostAll(n, emit[..|emit| - 1]), out, emit[|emit| - 1]);
    }
  }

  lemma PostRest(n: Net, out: seq<Mail>, e: Relays.Emission)
    ensures Post(n.(out := out), e) == Post(n, e).(out := out) && Post(n, e).relay == n.relay && Post(n, e).out == n.out
  {
    hide Queue;
  }

  lemma OutShorter(n: Net, out: seq<Mail>)
    requires RingOk(n) && Closed(n.relay) && forall m :: m in out ==> m in n.out
    ensures RingOk(n.(out := out))
  {
    hide LegOk, BossOk, Relays.AttemptOk, Tracked, Closed;
    forall d ensures Tracked(n.(out := out), d) {
      assert Tracked(n, d);
      OtherTracked(n, n.(out := out), d);
    }
  }

  /** The relay passes on what is no cancel of the attempt. */
  lemma OutPassed(n: Net, n': Net, m: Mail)
    requires RingOk(n) && n.out != [] && m == n.out[0] && !m.body.Cancel? && !m.body.Invite?
    requires n' == n.(out := n.out[1..], down := n.down[m.peer := Queue(n.down, m.peer) + [m.body]])
    ensures RingOk(n')
  {
    hide LegOk, BossOk, Relays.AttemptOk, Tracked, Closed;
    forall d ensures Tracked(n', d) {
      assert Tracked(n, d);
      PassedTracked(n, n', m, d);
    }
    if !Pending(n.boss.s) && !Closed(n.relay) && n.boss.s.peer != Some(n.relay.to) {
      var x :| x in n.out && x.peer == n.relay.to && x.body.Cancel?;
      assert x in n'.out;
    }
  }

  lemma PassedTracked(n: Net, n': Net, m: Mail, d: string)
    requires Tracked(n, d) && !m.body.Invite?
    requires n' == n.(out := n'.out, down := n.down[m.peer := Queue(n.down, m.peer) + [m.body]])
    ensures Tracked(n', d)
  {
    var q := Queue(n.down, d);
    assert forall b :: b in q ==> b in q + [m.body];
    if i, j :| 0 <= i < j < |q| && q[i].Invite? && q[j].Cancel? {
      assert (q + [m.body])[i] == q[i] && (q + [m.body])[j] == q[j];
    }
  }

  // ---- every run

  /** The relay has just forked the invite to the address invited: every leg is outstanding and has it on its way. */
  ghost predicate ForkedOut(n: Net) {
    && Forked(n) && n.boss.s.to == n.relay.to && Relays.AttemptOk(n.relay)
    && forall d :: HasInvite(Queue(n.down, d)) ==> d in n.relay.legs && n.relay.legs[d] == Relays.Delivered
  }

  lemma ForkedRings(n: Net)
    requires ForkedOut(n)
    ensures RingOk(n)
  {
  }

  lemma BindsRings(n: Net, d: string, now: int)
    requires RingOk(n) && Relays.Joins(n.relay, now, d, n.relay.to)
    ensures RingOk(Step(n, LegBinds(d, now)))
  {
    var s := Relays.AttemptStep(Relays.WithLeg(n.relay, d, now), [Relays.DeliverInvite(d, n.id)]);
    assert RelayMoves(n.relay, s, {}) by { Relays.JoinOneKeeps(n.relay, d, n.relay.to, now); }
    hide RingOk, RelayMoves, Relays.Joins;
    RelayRings(n, s, {});
  }

  lemma BossStepRings(n: Net, ev: Event)
    requires RingOk(n) && Enabled(n, ev) && (ev.BossRequests? || ev.BossFires? || ev.BossYields? || ev.BossReceives?)
    ensures RingOk(Step(n, ev))
  {
    hide RingOk, Sends, RunAfter, Received, Requested, Fired, Yielded, Forward, LegOk;
    var cx0 := Context("", map[], None, None, None, false, {});
    RingGives(n, "");
    var s, run := n.boss.s, n.boss.run;
    match ev {
      case BossRequests(cx, now, v) =>
        RequestedKeeps(cx, now, n.id, s, run, v);
        BossKeeps(n.boss, run, Requested(cx, now, n.id, s, run, v));
        BossRings(n, Step(n, ev), cx, Asked(now, v));
      case BossFires(name) =>
        assert OwnAttempt(s) && name != TRingLocal;
        FiredKeeps(name, n.id, s, run);
        BossKeeps(n.boss, run - {name}, Fired(name, n.id, s));
        BossRings(n, Step(n, ev), cx0, TimedOut(name));
      case BossYields =>
        YieldKeeps(n.id, s, run);
        BossKeeps(n.boss, run, Yielded(n.id, s, run));
        BossRings(n, Step(n, ev), cx0, GaveWay);
      case BossReceives(cx) => BossHeardRings(n, cx);
    }
  }

  lemma BossHeardRings(n: Net, cx: Context)
    requires RingOk(n) && n.home != []
    ensures RingOk(BossHears(n, cx))
  {
    hide RingOk, Sends, RunAfter, Received, Forward, LegOk;
    RingGives(n, "");
    var m := n.home[0];
    if m.body.Invite? {
      HomeShorter(n);
    } else {
      var x := Message(m.peer, "", n.id, m.body);
      ReceivedKeeps(cx, n.id, n.boss.s, n.boss.run, x);
      BossKeeps(n.boss, n.boss.run, Heard(n, cx));
      BossRings(n, BossHears(n, cx), cx, Hearing(x));
    }
  }

  lemma HomeShorter(n: Net)
    requires RingOk(n) && n.home != []
    ensures RingOk(n.(home := n.home[1..]))
  {
    hide LegOk, BossOk, Relays.AttemptOk, Tracked, Closed;
    var n' := n.(home := n.home[1..]);
    SameClose(n, n');
    forall d ensures Tracked(n', d) {
      assert Tracked(n, d);
      OtherTracked(n, n', d);
    }
  }

  lemma StepRings(n: Net, ev: Event)
    requires RingOk(n) && Enabled(n, ev)
    ensures RingOk(Step(n, ev))
  {
    hide RingOk, BossTakes, LegTakes, RelayTakes, LegHears, RelayHearsBoss, RelayHearsLeg, BossHears;
    match ev
    case BossRequests(cx, now, v) => BossStepRings(n, ev);
    case BossFires(name) => BossStepRings(n, ev);
    case BossYields => BossStepRings(n, ev);
    case BossReceives(cx) => BossStepRings(n, ev);
    case LegRequests(d, cx, now, v) => LegAskedRings(n, d, cx, now, v);
    case LegFires(d) => LegFiredRings(n, d);
    case LegReceives(d, refusal) => LegHeardRings(n, d, refusal);
    case RelayFromBoss(now) => FromBossRings(n, now);
    case RelayFromLeg(d, now) => FromLegRings(n, d, now);
    case RelayExpires(now) =>
      AttemptFits(n);
      StillMoves(n.relay, {});
      ExpireEachMoves(n.id, n.relay, Sorted(n.relay.legs.Keys));
      RelayRings(n, Relays.ExpireAttempt(n.id, n.relay, now), {});
    case RelayLegExpired(d) =>
      AttemptFits(n);
      LegEndedMoves(n.id, n.relay, d, Relays.LegExpired, {});
      RelayRings(n, Relays.LegEnded(n.id, n.relay, d, Relays.LegExpired), {});
    case LegBinds(d, now) => BindsRings(n, d, now);
  }

  lemma AttemptFits(n: Net)
    requires RingOk(n)
    ensures Relays.AttemptOk(n.relay)
  {
  }

  lemma {:induction false} RunRings(n: Net, evs: seq<Event>)
    requires RingOk(n) && Legal(n, evs)
    ensures RingOk(Run(n, evs))
    decreases |evs|
  {
    hide RingOk, Step, Enabled;
    if evs != [] {
      StepRings(n, evs[0]);
      RunRings(Step(n, evs[0]), evs[1..]);
    }
  }

  /**
   * In every run from the fork, once the attempt is over for the initiator and all links are empty, a device still rings only
   * if the relay gave its leg up as expired before it had heard anything from it. (An answer from the very address invited,
   * which is no leg's, draws no cancel for the others.)
   */
  lemma OnlyExpiredRing(n: Net, evs: seq<Event>, d: string)
    requires ForkedOut(n) && Legal(n, evs) && Drained(Run(n, evs))
    requires var m := Run(n, evs);
             !Pending(m.boss.s) && m.boss.s.peer != Some(m.relay.to) && d in m.legs && Rings(m.legs[d].s)
    ensures var m := Run(n, evs); d in m.relay.legs && m.relay.legs[d] == Relays.LegExpired
  {
    hide Forked, LegOk, BossOk, Relays.AttemptOk;
    ForkedRings(n);
    RunRings(n, evs);
    var m := Run(n, evs);
    assert Tracked(m, d);
    assert Queue(m.down, d) == [];
  }

  // ---- a device that only rings

  /** The device ends its own part: it answers, declines, refuses, rings too late or for too long. */
  predicate Acts(n: Net, ev: Event, d: string) {
    match ev
    case LegRequests(x, _, now, v) =>
      x == d && d in n.legs && !(v.Alert? && (n.legs[d].s.inviteExpires.None? || now < n.legs[d].s.inviteExpires.value))
    case LegFires(x) => x == d
    case LegReceives(x, refusal) => x == d && refusal.Some?
    case _ => false
  }

  ghost predicate ActsIn(n: Net, evs: seq<Event>, d: string)
    requires Legal(n, evs)
    decreases |evs|
  {
    evs != [] && (Acts(n, evs[0], d) || ActsIn(Step(n, evs[0]), evs[1..], d))
  }

  /** Only a cancel the relay has sent ends what a device that only rings has begun. */
  predicate OnlyRings(n: Net, d: string) {
    && (d in n.legs ==> Rings(n.legs[d].s) || (n.legs[d].s.phase == ENDED && d in n.relay.legs && n.relay.legs[d] == Relays.LegCancelled))
    && ((exists b :: b in Queue(n.down, d) && b.Cancel?) ==> d in n.relay.legs && n.relay.legs[d] == Relays.LegCancelled)
  }

  lemma SameOnly(n: Net, n': Net, d: string)
    requires OnlyRings(n, d) && n'.relay.legs == n.relay.legs && LegOf(n', d) == LegOf(n, d)
    requires forall b :: b in Queue(n'.down, d) ==> b in Queue(n.down, d) || !b.Cancel?
    ensures OnlyRings(n', d)
  {
  }

  lemma RelayOnly(n: Net, s: Relays.AttemptStep, spoke: set<string>, d: string)
    requires OnlyRings(n, d) && RelayMoves(n.relay, s, spoke)
    ensures OnlyRings(RelayTakes(n, s), d)
  {
    hide DownFor, HomeFor, Closed, PostAll, Relays.AttemptOk;
    var m, n' := n.(relay := s.a), RelayTakes(n, s);
    PostedWhere(m, s.emit);
    if b :| b in Queue(n'.down, d) && b.Cancel? {
      if b !in Queue(n.down, d) { DownIn(m, s.emit, d, b); }
    }
  }

  lemma LegOnly(n: Net, n': Net, d: string)
    requires OnlyRings(n, d) && n'.relay.legs == n.relay.legs && d in n'.legs
    requires forall b :: b in Queue(n'.down, d) ==> b in Queue(n.down, d)
    requires if d in n.legs then n.legs[d].s.phase == ENDED ==> n'.legs[d].s == n.legs[d].s else Rings(n'.legs[d].s)
    requires d in n.legs && Rings(n.legs[d].s) ==>
               Rings(n'.legs[d].s) || (n'.legs[d].s.phase == ENDED && exists b :: b in Queue(n.down, d) && b.Cancel?)
    ensures OnlyRings(n', d)
  {
  }

  /** Hearing anything but a cancel, or being asked to ring in time, keeps a device ringing. */
  lemma KeepsRinging(cx: Context, id: string, s: Session, run: set<Name>, c: Move)
    requires Possible(s, run, c) && s.role == Responder && Rings(s)
    requires if c.Asked? then c.v.Alert? && (s.inviteExpires.None? || c.now < s.inviteExpires.value) else c.Hearing?
    ensures var t := Moved(cx, id, s, run, c).s; Rings(t) || (t.phase == ENDED && c.Hearing? && c.m.body.Cancel?)
  {
    hide EffectiveReason, EffectiveAnsweredBy;
  }

  lemma EndedStays(cx: Context, id: string, s: Session, run: set<Name>, c: Move)
    requires Possible(s, run, c) && s.phase == ENDED
    ensures Moved(cx, id, s, run, c).s == s
  {
    hide RunAfter;
    match c
    case Asked(now, v) => RequestedKeeps(cx, now, id, s, run, v);
    case TimedOut(name) =>
    case Hearing(m) => ReceivedKeeps(cx, id, s, run, m);
    case GaveWay =>
  }

  lemma OnlyPhases(n: Net, d: string)
    requires RingOk(n) && OnlyRings(n, d) && d in n.legs
    ensures LegOk(n.self, n.legs[d]) && (Rings(n.legs[d].s) || n.legs[d].s.phase == ENDED)
  {
    RingGives(n, d);
  }

  lemma LegStepOnly(n: Net, ev: Event, d: string)
    requires RingOk(n) && OnlyRings(n, d) && Enabled(n, ev) && !Acts(n, ev, d)
    requires (ev.LegRequests? && ev.d == d) || (ev.LegReceives? && ev.d == d)
    ensures OnlyRings(Step(n, ev), d)
  {
    hide RingOk, OnlyRings, Received, Requested, RunAfter, Sends, LegOk;
    match ev {
      case LegRequests(x, cx, now, v) =>
        OnlyPhases(n, d);
        AskedOnly(n, cx, now, v, d);
      case LegReceives(x, refusal) =>
        HeadsDown(n, d);
        if d in n.legs { OnlyPhases(n, d); HeardOnly(n, d); } else { FirstOnly(n, d); }
    }
  }

  lemma HeadsDown(n: Net, d: string)
    requires Queue(n.down, d) != []
    ensures forall b :: b in Queue(n.down, d)[1..] ==> b in Queue(n.down, d)
  {
  }

  lemma AskedOnly(n: Net, cx: Context, now: int, v: Verb, d: string)
    requires OnlyRings(n, d) && d in n.legs && LegOk(n.self, n.legs[d]) && !Acts(n, LegRequests(d, cx, now, v), d)
    requires Rings(n.legs[d].s) || n.legs[d].s.phase == ENDED
    ensures OnlyRings(Step(n, LegRequests(d, cx, now, v)), d)
  {
    hide OnlyRings, Requested, RunAfter, Sends;
    var s, run := n.legs[d].s, n.legs[d].run;
    if s.phase == ENDED { EndedStays(cx, n.id, s, run, Asked(now, v)); } else { KeepsRinging(cx, n.id, s, run, Asked(now, v)); }
    LegOnly(n, Step(n, LegRequests(d, cx, now, v)), d);
  }

  lemma HeardOnly(n: Net, d: string)
    requires OnlyRings(n, d) && d in n.legs && LegOk(n.self, n.legs[d]) && Queue(n.down, d) != []
    requires Rings(n.legs[d].s) || n.legs[d].s.phase == ENDED
    ensures OnlyRings(LegHears(n, d, None), d)
  {
    hide OnlyRings, Received, RunAfter, Sends;
    var s, run, b := n.legs[d].s, n.legs[d].run, Queue(n.down, d)[0];
    var cx, m := Context(d, map[], None, None, None, false, {}), Message(n.self, "", n.id, b);
    HeadsDown(n, d);
    assert b in Queue(n.down, d);
    if !b.Invite? {
      if s.phase == ENDED { EndedStays(cx, n.id, s, run, Hearing(m)); } else { KeepsRinging(cx, n.id, s, run, Hearing(m)); }
    }
    LegOnly(n, LegHears(n, d, None), d);
  }

  lemma FirstOnly(n: Net, d: string)
    requires OnlyRings(n, d) && d !in n.legs && Queue(n.down, d) != []
    ensures OnlyRings(LegHears(n, d, None), d)
  {
    hide RunAfter, Sends;
    HeadsDown(n, d);
  }

  lemma StepOnly(n: Net, ev: Event, d: string)
    requires RingOk(n) && OnlyRings(n, d) && Enabled(n, ev) && !Acts(n, ev, d)
    ensures OnlyRings(Step(n, ev), d)
  {
    hide RingOk, OnlyRings, BossTakes, LegTakes, RelayTakes, LegHears, RelayHearsBoss, RelayHearsLeg, BossHears, RelayMoves;
    AttemptFits(n);
    match ev
    case BossRequests(cx, now, v) => BossOnly(n, ev, d);
    case BossFires(name) => BossOnly(n, ev, d);
    case BossYields => BossOnly(n, ev, d);
    case BossReceives(cx) => BossOnly(n, ev, d);
    case LegRequests(x, cx, now, v) => if x == d { LegStepOnly(n, ev, d); } else { OtherLegOnly(n, ev, x, d); }
    case LegFires(x) => OtherLegOnly(n, ev, x, d);
    case LegReceives(x, refusal) => if x == d { LegStepOnly(n, ev, d); } else { OtherLegOnly(n, ev, x, d); }
    case RelayFromBoss(now) => OutOnly(n, now, d);
    case RelayFromLeg(x, now) => UpOnly(n, x, now, d);
    case RelayExpires(now) =>
      StillMoves(n.relay, {});
      ExpireEachMoves(n.id, n.relay, Sorted(n.relay.legs.Keys));
      RelayOnly(n, Relays.ExpireAttempt(n.id, n.relay, now), {}, d);
    case RelayLegExpired(x) =>
      LegEndedMoves(n.id, n.relay, x, Relays.LegExpired, {});
      RelayOnly(n, Relays.LegEnded(n.id, n.relay, x, Relays.LegExpired), {}, d);
    case LegBinds(x, now) => BindsOnly(n, x, now, d);
  }

  lemma BindsOnly(n: Net, x: string, now: int, d: string)
    requires RingOk(n) && OnlyRings(n, d) && Relays.Joins(n.relay, now, x, n.relay.to)
    ensures OnlyRings(Step(n, LegBinds(x, now)), d)
  {
    AttemptFits(n);
    var s := Relays.AttemptStep(Relays.WithLeg(n.relay, x, now), [Relays.DeliverInvite(x, n.id)]);
    assert RelayMoves(n.relay, s, {}) by { Relays.JoinOneKeeps(n.relay, x, n.relay.to, now); }
    hide OnlyRings, RelayMoves;
    RelayOnly(n, s, {}, d);
  }

  lemma BossOnly(n: Net, ev: Event, d: string)
    requires OnlyRings(n, d) && Enabled(n, ev) && (ev.BossRequests? || ev.BossFires? || ev.BossYields? || ev.BossReceives?)
    ensures OnlyRings(Step(n, ev), d)
  {
    hide OnlyRings, Sends, RunAfter, Received, Requested, Fired, Yielded;
    SameOnly(n, Step(n, ev), d);
  }

  lemma OtherLegOnly(n: Net, ev: Event, x: string, d: string)
    requires OnlyRings(n, d) && Enabled(n, ev) && x != d
    requires (ev.LegRequests? && ev.d == x) || (ev.LegReceives? && ev.d == x) || (ev.LegFires? && ev.d == x)
    ensures OnlyRings(Step(n, ev), d)
  {
    hide OnlyRings, Sends, RunAfter, Received, Requested, Fired, Bodies;
    SameOnly(n, Step(n, ev), d);
  }

  lemma OutOnly(n: Net, now: int, d: string)
    requires RingOk(n) && OnlyRings(n, d) && n.out != []
    ensures OnlyRings(RelayHearsBoss(n, now), d)
  {
    AttemptFits(n);
    var m := n.out[0];
    assert m in n.out && (m.body.Cancel? ==> m.peer == n.relay.to);
    hide RingOk, OnlyRings, RelayMoves, PostAll, Relays.CancelAttempt;
    var rest := n.(out := n.out[1..]);
    if m.body.Cancel? {
      CancelMoves(n.id, n.relay, now, Some(m.peer), m.body.reason);
      SameOnly(n, rest, d);
      RelayOnly(rest, Relays.CancelAttempt(n.id, n.relay, now, Some(m.peer), m.body.reason), {}, d);
    } else {
      SameOnly(n, RelayHearsBoss(n, now), d);
    }
  }

  lemma UpOnly(n: Net, x: string, now: int, d: string)
    requires RingOk(n) && OnlyRings(n, d) && Queue(n.up, x) != []
    ensures OnlyRings(RelayHearsLeg(n, x, now), d)
  {
    hide RingOk, OnlyRings, RelayMoves, PostAll, Relays.FromLeg;
    var b := Queue(n.up, x)[0];
    var rest := n.(up := n.up[x := Queue(n.up, x)[1..]]);
    SameOnly(n, rest, d);
    if x in n.relay.legs && Relays.LegSpeaks(b) {
      FromLegMoves(n, x, now);
      RelayOnly(rest, Relays.FromLeg(n.id, n.relay, now, Message(x, "", n.id, b)), if b.Progress? then {} else {x}, d);
    } else {
      SameOnly(n, RelayHearsLeg(n, x, now), d);
    }
  }

  lemma {:induction false} RunOnly(n: Net, evs: seq<Event>, d: string)
    requires RingOk(n) && OnlyRings(n, d) && Legal(n, evs) && !ActsIn(n, evs, d)
    ensures OnlyRings(Run(n, evs), d)
    decreases |evs|
  {
    hide RingOk, OnlyRings, Step, Enabled, Acts;
    if evs != [] {
      StepOnly(n, evs[0], d);
      StepRings(n, evs[0]);
      RunOnly(Step(n, evs[0]), evs[1..], d);
    }
  }

  /** A device that has done nothing but ring is left ringing exactly if the relay gave its leg up as expired. */
  lemma LeftRingingExactly(n: Net, evs: seq<Event>, d: string)
    requires ForkedOut(n) && Legal(n, evs) && Drained(Run(n, evs)) && !ActsIn(n, evs, d)
    requires var m := Run(n, evs); !Pending(m.boss.s) && m.boss.s.peer != Some(m.relay.to) && d in m.legs
    ensures var m := Run(n, evs); Rings(m.legs[d].s) <==> d in m.relay.legs && m.relay.legs[d] == Relays.LegExpired
  {
    ForkedRings(n);
    assert OnlyRings(n, d);
    RunOnly(n, evs, d);
    if Rings(Run(n, evs).legs[d].s) { OnlyExpiredRing(n, evs, d); }
  }

  /** A call to one device, which rings on after the relay has given it up and the caller has been told that nobody answered. */
  function OneDevice(): Net {
    Net("call", "alice", Party(NewAttempt("bob"), {TEstablish}),
        Relays.Attempt("alice", "bob", None, map["phone" := Relays.Delivered], Relays.Open, [], 0, {}),
        map[], map[], [], [], map["phone" := [Invite("bob", None)]], {}, {})
  }

  function GivenUp(cx: Context): seq<Event> {
    [LegReceives("phone", None), RelayLegExpired("phone"), BossReceives(cx)]
  }

  /** The three states it goes through. */
  lemma GivenUpSteps(cx: Context)
    ensures var n, evs := OneDevice(), GivenUp(cx);
            var n1 := Step(n, evs[0]);
            && Enabled(n, evs[0]) && Enabled(n1, evs[1])
            && n1 == n.(legs := map["phone" := Party(NewOffer(OFFERED, "alice", None), {})], down := map["phone" := []], up := map["phone" := []])
            && Step(n1, evs[1]) == n1.(relay := Relays.Attempt("alice", "bob", None, map["phone" := Relays.LegExpired], Relays.OfSilence, [], 0, {}),
                                       home := [Mail(RELAY, Error("transport.no-response", "call"))])
  {
    var n, evs := OneDevice(), GivenUp(cx);
    var n1 := Step(n, evs[0]);
    var ui := Ui("offered", "");
    assert [ui][..0] == [] && Sends([ui]) == [] && RunAfter({}, [ui]) == {};
    assert Bodies([]) == [] && [] + Bodies([]) == [];
    var s := Relays.LegEnded("call", n1.relay, "phone", Relays.LegExpired);
    assert s == Relays.AttemptStep(Relays.Attempt("alice", "bob", None, map["phone" := Relays.LegExpired], Relays.OfSilence, [], 0, {}),
                                   [Relays.NoResponse("alice", "call")]);
    PostOne(n1.(relay := s.a), Relays.NoResponse("alice", "call"));
    assert [] + [Mail(RELAY, Error("transport.no-response", "call"))] == [Mail(RELAY, Error("transport.no-response", "call"))];
  }

  lemma NoResponseEnds(cx: Context)
    ensures var o := Received(cx, "call", NewAttempt("bob"), {TEstablish}, Message(RELAY, "", "call", Error("transport.no-response", "call")));
            o.s.phase == ENDED && o.ops == [StopTimer(TEstablish), Ui("ended", "transport.no-response")]
  {
    OtherEndsAttempt(cx, "call", NewAttempt("bob"), {TEstablish}, Message(RELAY, "", "call", Error("transport.no-response", "call")));
  }

  lemma GivenUpEnds(cx: Context, n: Net)
    requires n.id == "call" && n.boss == Party(NewAttempt("bob"), {TEstablish}) && n.home == [Mail(RELAY, Error("transport.no-response", "call"))]
    ensures var m := Step(n, BossReceives(cx));
            m.boss.s.phase == ENDED && m.home == [] && m.out == n.out && m.up == n.up && m.down == n.down && m.legs == n.legs
  {
    NoResponseEnds(cx);
    hide Received, RunAfter;
    var ops := [StopTimer(TEstablish), Ui("ended", "transport.no-response")];
    NoSends(ops, []);
    assert ops + [] == ops && n.out + [] == n.out;
  }

  lemma OneDeviceForked()
    ensures ForkedOut(OneDevice())
  {
    var n := OneDevice();
    assert n.relay.legs["phone"] == Relays.Delivered;
    assert Relays.SomeLeg(n.relay.legs, Relays.Delivered);
    assert forall l :: l in n.relay.legs ==> n.relay.legs[l] == Relays.Delivered;
  }

  /** Nobody ended the device's part, and it is left offering a call that is over. */
  lemma SomeoneIsLeftRinging(cx: Context)
    ensures ForkedOut(OneDevice()) && Legal(OneDevice(), GivenUp(cx)) && !ActsIn(OneDevice(), GivenUp(cx), "phone")
    ensures var m := Run(OneDevice(), GivenUp(cx));
            Drained(m) && m.boss.s.phase == ENDED && "phone" in m.legs && m.legs["phone"].s.phase == OFFERED
  {
    hide Step, ForkedOut;
    var n, evs := OneDevice(), GivenUp(cx);
    OneDeviceForked();
    GivenUpSteps(cx);
    var n1 := Step(n, evs[0]);
    var n2 := Step(n1, evs[1]);
    GivenUpEnds(cx, n2);
    var n3 := Step(n2, evs[2]);
    assert evs[1..] == [evs[1], evs[2]] && evs[2..] == [evs[2]] && evs[1..][1..] == [evs[2]] && [evs[2]][1..] == [];
    assert Legal(n3, []) && Run(n3, []) == n3;
    assert Legal(n2, [evs[2]]) && Run(n2, [evs[2]]) == n3;
    assert Legal(n1, evs[1..]) && Run(n1, evs[1..]) == n3;
    assert !ActsIn(n3, [], "phone") && !ActsIn(n2, [evs[2]], "phone") && !ActsIn(n1, evs[1..], "phone");
  }
}
