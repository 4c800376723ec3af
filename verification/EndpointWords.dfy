/** What an endpoint of `endpoint.ts` says about each of its sessions, event by event: every end is told, every invite answered. */
module EndpointWords {
  import opened Prelude
  import opened TimerTable
  import opened Calls
  import opened CallWords
  import opened Endpoints
  import opened EndpointClock
  import P = PresenceKeys

  /** What goes out about one session. */
  function Said(emit: seq<Emit>, id: string): seq<Op> {
    if emit == [] then []
    else
      var e := emit[|emit| - 1];
      Said(emit[..|emit| - 1], id) + if e.OfCall? && e.op.Send? && e.op.session == id then [e.op] else []
  }

  lemma {:induction false} SaidAppend(a: seq<Emit>, b: seq<Emit>, id: string)
    ensures Said(a + b, id) == Said(a, id) + Said(b, id)
  {
    if b == [] {
      assert a + b == a;
    } else {
      assert (a + b)[..|a + b| - 1] == a + b[..|b| - 1];
      SaidAppend(a, b[..|b| - 1], id);
    }
  }

  lemma {:induction false} KeysSayNothing(ops: seq<P.KeyOp>, id: string)
    ensures Said(KeyEmits(ops), id) == []
  {
    if ops != [] {
      assert KeyEmits(ops)[..|ops| - 1] == KeyEmits(ops[..|ops| - 1]);
      KeysSayNothing(ops[..|ops| - 1], id);
    }
  }

  /** Sends about one session are said about it, and nothing else is. */
  lemma {:induction false} OpsSay(ops: seq<Op>, id: string, other: string)
    requires Own(ops, id)
    ensures Said(CallEmits(ops), other) == if other == id then Spoken(ops) else []
  {
    if ops != [] {
      assert CallEmits(ops)[..|ops| - 1] == CallEmits(ops[..|ops| - 1]);
      OpsSay(ops[..|ops| - 1], id, other);
    }
  }

  /** A session speaks of itself alone. */
  predicate Own(ops: seq<Op>, id: string) { forall op :: op in ops && op.Send? ==> op.session == id }

  lemma QuietEnds(s: Session, surface: Option<string>, run: set<Name>, id: string)
    ensures Own(EndOps(s, surface), id) && Own(StopAll(run), id)
  {
  }

  lemma OwnWords(cx: Context, id: string, s: Session, run: set<Name>, c: Move)
    requires c.Hearing? ==> !c.m.body.Invite? && c.m.session == id
    ensures Own(Moved(cx, id, s, run, c).ops, id)
  {
    hide Requested, Fired, Received, Yielded;
    match c
    case Asked(now, v) => AskedWords(cx, now, id, s, run, v);
    case TimedOut(name) => FiredWords(id, s, run, name);
    case Hearing(m) => MessageWords(cx, id, s, run, m);
    case GaveWay => FiredWords(id, s, run, TRing);
  }

  lemma AskedWords(cx: Context, now: int, id: string, s: Session, run: set<Name>, v: Verb)
    ensures Own(Requested(cx, now, id, s, run, v).ops, id)
  {
    hide StopAll, EndOps;
    forall surface ensures Own(EndOps(s, surface), id) && Own(EndOps(s.(endedBy := ByCancel), surface), id) && Own(StopAll(run), id) {
      QuietEnds(s, surface, run, id);
      QuietEnds(s.(endedBy := ByCancel), surface, run, id);
    }
  }

  lemma FiredWords(id: string, s: Session, run: set<Name>, name: Name)
    ensures Own(Fired(name, id, s).ops, id) && Own(Yielded(id, s, run).ops, id)
  {
    hide StopAll, EndOps;
    QuietEnds(s, Some("user.no-answer"), run, id);
    QuietEnds(s.(endedBy := ByCancel), Some("session.timeout"), run, id);
    QuietEnds(s.(endedBy := ByCancel), Some("session.glare"), run, id);
  }

  lemma ActiveWords(id: string, s: Session, m: Message)
    requires ForActive(m.body)
    ensures Own(OnActive(id, s, m).ops, id)
  {
    hide EffectiveReason, EffectiveAnsweredBy, Less;
  }

  lemma InitiatorWords(cx: Context, id: string, s: Session, run: set<Name>, m: Message)
    requires !m.body.Invite? && m.session == id
    ensures Own(OnInitiator(cx, id, s, run, m).ops, id)
  {
    hide EffectiveReason, EffectiveAnsweredBy, OnProgress, OnActive, StopAll;
    QuietEnds(s, None, run, id);
    if m.body.Progress? { ProgressWords(cx, id, s, run, m); }
    if ForActive(m.body) { ActiveWords(id, s, m); }
  }

  lemma ResponderWords(id: string, s: Session, run: set<Name>, m: Message)
    requires !m.body.Invite? && m.session == id
    ensures Own(OnResponder(id, s, run, m).ops, id)
  {
    hide EffectiveReason, EffectiveAnsweredBy, OnActive;
    if ForActive(m.body) { ActiveWords(id, s.(initiatorSpoke := true), m); }
  }

  lemma MessageWords(cx: Context, id: string, s: Session, run: set<Name>, m: Message)
    requires !m.body.Invite? && m.session == id
    ensures Own(Received(cx, id, s, run, m).ops, id)
  {
    hide OnInitiator, OnResponder, StopAll;
    QuietEnds(s, None, run, id);
    InitiatorWords(cx, id, s, run, m);
    ResponderWords(id, s, run, m);
  }

  lemma ProgressWords(cx: Context, id: string, s: Session, run: set<Name>, m: Message)
    requires m.body.Progress?
    ensures Own(OnProgress(cx, id, s, run, m).ops, id)
  {
    hide EffectiveStatus, Clamp, StopAll;
    StopsHushed(run - {TEstablish});
  }

  /** One farewell to the other end: a cancel while we call, a reject while we are called, a bye in the call. */
  predicate TellsEnd(s: Session, id: string, words: seq<Op>) {
    && |words| == 1 && words[0].Send? && words[0].session == id
    && words[0].to == (if s.phase == ACTIVE then Or(s.peer, "") else s.to)
    && (if s.phase == ACTIVE then words[0].body.Bye?
        else if s.phase == OFFERED || s.phase == ALERTING then words[0].body.Reject? && words[0].body.inReplyTo.None?
        else words[0].body.Cancel? && words[0].body.reason != ELSEWHERE)
  }

  lemma MoveTells(cx: Context, id: string, s: Session, run: set<Name>, c: Move)
    requires Possible(s, run, c) && s.phase != ENDED && Moved(cx, id, s, run, c).s.phase == ENDED
    ensures var words := Spoken(Moved(cx, id, s, run, c).ops);
            if c.Hearing? && !c.m.body.Progress? then words == [] else TellsEnd(s, id, words)
  {
    hide Of, EffectiveReason, Possible, Moved;
    if OwnAttempt(s) { AttemptEnds(cx, id, s, run, c); }
    else if s.phase == ACTIVE { CallEnds(cx, id, s, run, c); NoProgressThen(cx, id, s, run, c); }
    else { AttemptPhases(s, run, c); OfferEnds(cx, id, s, run, c); NoProgressThen(cx, id, s, run, c); }
  }

  lemma AttemptPhases(s: Session, run: set<Name>, c: Move)
    requires Possible(s, run, c) && s.phase != ENDED && !OwnAttempt(s) && s.phase != ACTIVE
    ensures s.phase == OFFERED || s.phase == ALERTING
  {
  }

  lemma NoProgressThen(cx: Context, id: string, s: Session, run: set<Name>, c: Move)
    requires Possible(s, run, c) && s.phase != ENDED && !OwnAttempt(s) && Moved(cx, id, s, run, c).s.phase == ENDED
    ensures c.Hearing? ==> !c.m.body.Progress?
    ensures s.phase == ACTIVE ==> s.peer.Some?
  {
    hide EffectiveReason, EffectiveAnsweredBy;
  }

  // ---- one session through an event

  /** Between two states of the endpoint a session stayed as it was and nothing was said of it, or ended and that was told. */
  ghost predicate StayedOrTold(e: Endpoint, f: Endpoint, emit: seq<Emit>, id: string)
    requires id in e.sessions
  {
    && id in f.sessions
    && (|| (f.sessions[id] == e.sessions[id] && Said(emit, id) == [])
        || (e.sessions[id].phase != ENDED && f.sessions[id].phase == ENDED && TellsEnd(e.sessions[id], id, Said(emit, id))))
  }

  lemma StayedOrToldOn(e: Endpoint, f: Endpoint, g: Endpoint, a: seq<Emit>, b: seq<Emit>, id: string)
    requires id in e.sessions && StayedOrTold(e, f, a, id) && StayedOrTold(f, g, b, id)
    ensures StayedOrTold(e, g, a + b, id)
  {
    hide Said, TellsEnd;
    SaidAppend(a, b, id);
    assert Said(a, id) + [] == Said(a, id) && [] + Said(b, id) == Said(b, id);
  }

  /** Taking up what one move makes of a session says that and nothing else. */
  lemma TakeSays(e: Endpoint, id: string, c: Move, other: string)
    requires id in e.sessions && Possible(e.sessions[id], RunningOf(e.timers, id), c) && (c.Hearing? ==> c.m.session == id)
    ensures var o := Moved(e.cx, id, e.sessions[id], RunningOf(e.timers, id), c);
            && Said(CallEmits(o.ops), other) == (if other == id then Spoken(o.ops) else [])
            && (e.sessions[id].phase != ENDED && o.s.phase == ENDED ==>
                  if c.Hearing? && !c.m.body.Progress? then Spoken(o.ops) == [] else TellsEnd(e.sessions[id], id, Spoken(o.ops)))
  {
    hide Said, TellsEnd, Of, Moved, SessionOk, TimersFit;
    var s, run := e.sessions[id], RunningOf(e.timers, id);
    OwnWords(e.cx, id, s, run, c);
    OpsSay(Moved(e.cx, id, s, run, c).ops, id, other);
    if s.phase != ENDED && Moved(e.cx, id, s, run, c).s.phase == ENDED { MoveTells(e.cx, id, s, run, c); }
  }

  // ---- the clock

  lemma FireOneTells(e: Endpoint, k: Key, id: string)
    requires CallsOk(e) && k in e.timers.running && id in e.sessions
    ensures StayedOrTold(e, FireOne(e, k).e, FireOne(e, k).emit, id)
  {
    hide Said, TellsEnd, Of, Take;
    assert SessionFits(e, k.session);
    AnyName(k.name);
    assert k == Key(k.name, k.session);
    assert k.name in RunningOf(e.timers, k.session);
    FiredEnds(k.name, k.session, e.sessions[k.session]);
    TakeSays(e, k.session, TimedOut(k.name), id);
    TakeKeepsOthers(e.(timers := Stopped(e.timers, k.name, k.session)), k.session, Fired(k.name, k.session, e.sessions[k.session]), id);
    RunsLive(e, k.session, k.name);
  }

  lemma RunsLive(e: Endpoint, id: string, name: Name)
    requires id in e.sessions && SessionFits(e, id) && name in RunningOf(e.timers, id)
    ensures e.sessions[id].phase != ENDED
  {
  }

  lemma FiredEnds(name: Name, id: string, s: Session)
    ensures Fired(name, id, s).s.phase == ENDED
  {
  }

  lemma TakeKeepsOthers(e: Endpoint, id: string, o: Outcome, other: string)
    ensures var f := Take(e, id, o); f.sessions == e.sessions[id := o.s] && f.cx == e.cx
  {
    hide ApplyOps;
  }

  lemma {:induction false} FireAllTells(e: Endpoint, id: string)
    requires CallsOk(e) && id in e.sessions
    ensures StayedOrTold(e, FireAll(e).e, FireAll(e).emit, id)
    decreases |e.timers.running|
  {
    hide StayedOrTold, SessionFits, FireOne;
    if AnyDue(e.timers) {
      var k := FirstDue(e.timers);
      FireOneKeeps(e, k);
      OneLess(e.timers, k, FireOne(e, k).e.timers);
      var one := FireOne(e, k);
      FireOneTells(e, k, id);
      assert id in one.e.sessions by { StayedIn(e, one.e, one.emit, id); }
      FireAllTells(one.e, id);
      StayedOrToldOn(e, one.e, FireAll(one.e).e, one.emit, FireAll(one.e).emit, id);
    } else {
      NothingTold(e, id);
    }
  }

  lemma StayedIn(e: Endpoint, f: Endpoint, emit: seq<Emit>, id: string)
    requires id in e.sessions && StayedOrTold(e, f, emit, id)
    ensures id in f.sessions
  {
  }

  lemma NothingTold(e: Endpoint, id: string)
    requires id in e.sessions
    ensures StayedOrTold(e, e, [], id)
  {
  }

  lemma InstantTells(e: Endpoint, i: int, id: string)
    requires CallsOk(e) && id in e.sessions
    ensures StayedOrTold(e, Instant(e, i).e, Instant(e, i).emit, id)
  {
    hide CallsOk, FireAll, Said, TellsEnd, P.AtInstant;
    var now := if e.timers.now <= i then i else e.timers.now;
    AtKeeps(e, now);
    var fired := FireAll(EndpointClock.At(e, now));
    FireAllTells(EndpointClock.At(e, now), id);
    var ops := P.AtInstant(fired.e.keys, now).ops;
    SaidAppend(fired.emit, KeyEmits(ops), id);
    KeysSayNothing(ops, id);
    assert Said(fired.emit, id) + [] == Said(fired.emit, id);
  }

  lemma {:induction false} RunToTells(e: Endpoint, target: int, id: string)
    requires EndpointOk(e) && e.timers.now <= target && id in e.sessions
    ensures StayedOrTold(e, RunTo(e, target).e, RunTo(e, target).emit, id)
    decreases |GrantsLeft(e.keys, target)|, |DuesLeft(e.keys, target)| + |TimersLeft(e.timers, target)|
  {
    hide StayedOrTold, CallsOk, P.KeysOk, Instant;
    if !e.keys.exhausted && HasWork(e, target) {
      var i := LeastInt(Instants(e));
      InstantKeeps(e, i);
      InstantShrinks(e, i, target);
      var one := Instant(e, i);
      InstantTells(e, i, id);
      StayedIn(e, one.e, one.emit, id);
      RunToTells(one.e, target, id);
      StayedOrToldOn(e, one.e, RunTo(one.e, target).e, one.emit, RunTo(one.e, target).emit, id);
    } else {
      NothingTold(e, id);
      SameSessions(e, EndpointClock.At(e, target), id);
    }
  }

  lemma SameSessions(e: Endpoint, f: Endpoint, id: string)
    requires id in e.sessions && f.sessions == e.sessions
    ensures StayedOrTold(e, f, [], id)
  {
  }

  // ---- an invite

  lemma WithdrawsOne(e: Endpoint, id: string, other: string)
    requires CallsOk(e) && ReusesOwn(e, id) && other in e.sessions
    ensures var o := Withdrawn(e, id); StayedOrTold(e, Take(e, id, o), CallEmits(o.ops), other)
  {
    hide Said, TellsEnd, Of, Take, Yielded;
    assert SessionFits(e, id);
    TakeSays(e, id, GaveWay, other);
    TakeKeepsOthers(e, id, Withdrawn(e, id), other);
    YieldedEnds(id, e.sessions[id], RunningOf(e.timers, id));
  }

  lemma YieldedEnds(id: string, s: Session, run: set<Name>)
    ensures Yielded(id, s, run).s.phase == ENDED
  {
  }

  lemma {:induction false} WithdrawEachTells(e: Endpoint, ids: seq<string>, id: string)
    requires CallsOk(e) && Distinct(ids) && (forall x :: x in ids ==> ReusesOwn(e, x)) && id in e.sessions
    ensures var w := WithdrawEach(e, ids); StayedOrTold(e, w.e, w.emit, id) && (id in ids ==> w.e.sessions[id].phase == ENDED)
  {
    hide StayedOrTold, CallsOk, Withdrawn, Take;
    if ids == [] {
      NothingTold(e, id);
    } else {
      var front, last := ids[..|ids| - 1], ids[|ids| - 1];
      assert ids == front + [last];
      WithdrawEachTells(e, front, id);
      WithdrawEachKeeps(e, front);
      WithdrawEachKeeps(e, ids);
      var w := WithdrawEach(e, front);
      assert ReusesOwn(e, last) && ReusesOwn(w.e, last);
      StayedIn(e, w.e, w.emit, id);
      WithdrawsOne(w.e, last, id);
      StayedOrToldOn(e, w.e, WithdrawEach(e, ids).e, w.emit, CallEmits(Withdrawn(w.e, last).ops), id);
    }
  }

  /** Our own live attempts to the inviting identity. */
  ghost predicate Rival(e: Endpoint, id: string, from: string) {
    && id in e.sessions && e.sessions[id].role == Initiator && (e.sessions[id].phase == INVITING || e.sessions[id].phase == PROCEEDING)
    && IdentityOf(e.cx, e.sessions[id].to) == IdentityOf(e.cx, from)
  }

  /** Why an invite under a new id is refused, if it is. */
  ghost predicate RefusedAs(e: Endpoint, m: Message, reason: string)
    requires m.body.Invite?
  {
    var late := m.body.expiresAt.Some? && m.body.expiresAt.value <= e.timers.now;
    var who := IdentityOf(e.cx, m.from);
    var known := who in e.cx.allow
                 || exists id :: id in e.keys.grants && e.keys.grants[id].grantee == who && e.timers.now < e.keys.grants[id].validUntil
                              && "dsip.invite" in e.keys.grants[id].scope;
    match reason
    case "session.expired" => late
    case "policy.first-contact-required" => !late && e.cx.firstContactRequired && !known
    case "session.glare" => !late && (e.cx.firstContactRequired ==> known) && exists id :: Rival(e, id, m.from) && Less(id, m.session)
    case _ => false
  }

  lemma RivalsAre(e: Endpoint, from: string)
    ensures forall id :: id in Rivals(e, IdentityOf(e.cx, from)) <==> Rival(e, id, from)
  {
  }

  /** An invite under a new id that is refused is answered by exactly one reject, and nothing else changes. */
  lemma InviteRefused(e: Endpoint, m: Message, reason: string)
    requires m.body.Invite? && m.session !in e.sessions && RefusedAs(e, m, reason)
    ensures var r := OnInvite(e, m);
            && r.emit == [OfCall(Send(m.from, m.session, Reject(reason, None)))] && r.e == e.(sessions := r.e.sessions)
            && r.e.sessions == e.sessions[m.session := NewOffer(ENDED, m.from, m.body.expiresAt)]
  {
    hide WithdrawEach, Less, Rivals;
    if reason == "session.glare" {
      RivalsAre(e, m.from);
      var rivals := Rivals(e, IdentityOf(e.cx, m.from));
      var id :| Rival(e, id, m.from) && Less(id, m.session);
      if Least(rivals) != id { LessTransitive(Least(rivals), id, m.session); }
    }
  }

  /** A rival has ended and been withdrawn; any other session is as it was. */
  ghost predicate Outrivalled(e: Endpoint, f: Endpoint, emit: seq<Emit>, from: string, id: string)
    requires id in e.sessions
  {
    && id in f.sessions
    && if Rival(e, id, from) then f.sessions[id].phase == ENDED && TellsEnd(e.sessions[id], id, Said(emit, id))
       else f.sessions[id] == e.sessions[id]
  }

  lemma OneOutrivalled(e: Endpoint, m: Message, id: string)
    requires CallsOk(e) && id in e.sessions && m.body.Invite? && m.session !in e.sessions
    ensures var w := WithdrawEach(e, Sorted(Rivals(e, IdentityOf(e.cx, m.from))));
            Outrivalled(e, Offered(w.e, m, m.body.expiresAt), w.emit + [OfCall(Ui("offered", ""))], m.from, id)
  {
    hide Said, WithdrawEach, Rivals, CallsOk, TellsEnd;
    var rivals := Rivals(e, IdentityOf(e.cx, m.from));
    var ids := Sorted(rivals);
    RivalsAre(e, m.from);
    SortedDistinct(rivals);
    assert forall x :: x in ids ==> ReusesOwn(e, x);
    WithdrawEachKeeps(e, ids);
    WithdrawEachTells(e, ids, id);
    var w := WithdrawEach(e, ids);
    SaidAppend(w.emit, [OfCall(Ui("offered", ""))], id);
    OneOffered(id);
    assert Said(w.emit, id) + [] == Said(w.emit, id);
  }

  /** An invite under a new id that nothing refuses is offered to the user, and every rival of it is withdrawn. */
  lemma InviteOffered(e: Endpoint, m: Message)
    requires CallsOk(e) && m.body.Invite? && m.session !in e.sessions && forall reason :: !RefusedAs(e, m, reason)
    ensures var r := OnInvite(e, m);
            && m.session in r.e.sessions && r.e.sessions[m.session] == NewOffer(OFFERED, m.from, m.body.expiresAt)
            && Said(r.emit, m.session) == [] && r.emit != [] && r.emit[|r.emit| - 1] == OfCall(Ui("offered", ""))
            && forall id :: id in e.sessions ==> Outrivalled(e, r.e, r.emit, m.from, id)
  {
    hide Said, WithdrawEach, Less, Rivals, Outrivalled, OnInvite, RefusedAs;
    var ids := Sorted(Rivals(e, IdentityOf(e.cx, m.from)));
    var w := WithdrawEach(e, ids);
    OfferedIs(e, m);
    assert m.session !in ids by { RivalsAre(e, m.from); }
    NewQuiet(e, ids, m.session);
    forall id | id in e.sessions ensures Outrivalled(e, OnInvite(e, m).e, OnInvite(e, m).emit, m.from, id) { OneOutrivalled(e, m, id); }
    SaidAppend(w.emit, [OfCall(Ui("offered", ""))], m.session);
    OneOffered(m.session);
  }

  lemma OneOffered(id: string)
    ensures Said([OfCall(Ui("offered", ""))], id) == []
  {
    assert [OfCall(Ui("offered", ""))][..0] == [];
  }

  lemma OfferedIs(e: Endpoint, m: Message)
    requires m.body.Invite? && m.session !in e.sessions && forall reason :: !RefusedAs(e, m, reason)
    ensures var w := WithdrawEach(e, Sorted(Rivals(e, IdentityOf(e.cx, m.from))));
            OnInvite(e, m) == Result(Offered(w.e, m, m.body.expiresAt), w.emit + [OfCall(Ui("offered", ""))])
  {
    hide Less, Rivals;
    var rivals := Rivals(e, IdentityOf(e.cx, m.from));
    assert !RefusedAs(e, m, "session.expired") && !RefusedAs(e, m, "policy.first-contact-required") && !RefusedAs(e, m, "session.glare");
    RivalsAre(e, m.from);
    if rivals == {} {
      assert Sorted(rivals) == [];
      assert [] + [OfCall(Ui("offered", ""))] == [OfCall(Ui("offered", ""))];
    } else {
      LessTotal(Least(rivals), m.session);
      assert Rival(e, Least(rivals), m.from);
    }
  }

  /** Withdrawing others says nothing of a session not among them. */
  lemma {:induction false} NewQuiet(e: Endpoint, ids: seq<string>, id: string)
    requires id !in ids
    ensures Said(WithdrawEach(e, ids).emit, id) == [] && (id !in e.sessions ==> id !in WithdrawEach(e, ids).e.sessions)
  {
    hide Take;
    if ids != [] {
      var front, last := ids[..|ids| - 1], ids[|ids| - 1];
      assert ids == front + [last];
      NewQuiet(e, front, id);
      var w := WithdrawEach(e, front);
      if last in w.e.sessions {
        var s, run := w.e.sessions[last], RunningOf(w.e.timers, last);
        OwnWords(w.e.cx, last, s, run, GaveWay);
        OpsSay(Withdrawn(w.e, last).ops, last, id);
        SaidAppend(w.emit, CallEmits(Withdrawn(w.e, last).ops), id);
        TakeKeepsOthers(w.e, last, Withdrawn(w.e, last), id);
      }
    }
  }

  // ---- every event

  lemma LocalTells(e: Endpoint, id: string, v: Verb, other: string)
    requires CallsOk(e) && other in e.sessions && e.sessions[other].phase != ENDED
    ensures var r := OnLocal(e, id, v);
            && other in r.e.sessions && (r.e.sessions[other].phase == ENDED ==> TellsEnd(e.sessions[other], other, Said(r.emit, other)))
  {
    hide Said, TellsEnd, Of, Take, Requested;
    if id in e.sessions {
      assert SessionFits(e, id);
      TakeSays(e, id, Asked(e.timers.now, v), other);
      TakeKeepsOthers(e, id, Requested(e.cx, e.timers.now, id, e.sessions[id], RunningOf(e.timers, id), v), other);
    }
  }

  lemma MessageTells(e: Endpoint, m: Message, other: string)
    requires CallsOk(e) && !m.body.Invite? && other in e.sessions && e.sessions[other].phase != ENDED
    ensures var r := OnMessage(e, m);
            && other in r.e.sessions
            && (r.e.sessions[other].phase == ENDED ==>
                  && m.session == other
                  && if m.body.Progress? then TellsEnd(e.sessions[other], other, Said(r.emit, other)) else Said(r.emit, other) == [])
  {
    hide Said, TellsEnd, Of, Take, Received;
    if m.session in e.sessions {
      assert SessionFits(e, m.session);
      TakeSays(e, m.session, Hearing(m), other);
      TakeKeepsOthers(e, m.session, Received(e.cx, m.session, e.sessions[m.session], RunningOf(e.timers, m.session), m), other);
    }
  }

  /** An invite under the id of our own live attempt, met as glare: the attempt is withdrawn and the invite rejected. */
  lemma SameIdTells(e: Endpoint, m: Message, id: string)
    requires CallsOk(e) && m.body.Invite? && ReusesOwn(e, m.session) && SameIdGlare(e, m) && id in e.sessions
    ensures var r := OnInvite(e, m);
            && id in r.e.sessions
            && (if id == m.session then
                  && r.e.sessions[id].phase == ENDED && |Said(r.emit, id)| == 2 && TellsEnd(e.sessions[id], id, Said(r.emit, id)[..1])
                  && Said(r.emit, id)[1] == Send(m.from, id, Reject("session.glare", None))
                else StayedOrTold(e, r.e, r.emit, id))
  {
    hide Said, WithdrawEach, Rivals, CallsOk, TellsEnd, Admitted, Less;
    var rivals := Rivals(e, IdentityOf(e.cx, m.from));
    var ids := Sorted(rivals);
    var w := WithdrawEach(e, ids);
    var said := [OfCall(Send(m.from, m.session, Reject("session.glare", None))), OfCall(Ui("glare_retry", ""))];
    RivalsAre(e, m.from);
    SortedDistinct(rivals);
    LessTotal(m.session, m.session);
    assert OnInvite(e, m) == Result(w.e, w.emit + said);
    assert forall x :: x in ids ==> ReusesOwn(e, x);
    WithdrawEachTells(e, ids, id);
    SaidAppend(w.emit, said, id);
    TwoSaid(said[0].op, id);
    assert Said(w.emit, id) + [] == Said(w.emit, id);
    if id == m.session { assert (Said(w.emit, id) + [said[0].op])[..1] == Said(w.emit, id) by { OneWord(e.sessions[id], id, Said(w.emit, id)); LiveRival(e, id); } }
  }

  lemma LiveRival(e: Endpoint, id: string)
    requires ReusesOwn(e, id)
    ensures e.sessions[id].phase != ENDED
  {
  }

  lemma OneWord(s: Session, id: string, words: seq<Op>)
    ensures TellsEnd(s, id, words) ==> |words| == 1
  {
  }

  lemma TwoSaid(op: Op, id: string)
    requires op.Send?
    ensures Said([OfCall(op), OfCall(Ui("glare_retry", ""))], id) == if op.session == id then [op] else []
  {
    var two := [OfCall(op), OfCall(Ui("glare_retry", ""))];
    assert two[..1] == [OfCall(op)] && [OfCall(op)][..0] == [];
    assert Said([], id) == [];
    assert Said([OfCall(op)], id) == if op.session == id then [op] else [];
  }

  lemma HeldInvite(e: Endpoint, m: Message)
    requires m.body.Invite? && m.session in e.sessions && !ReusesOwn(e, m.session)
    ensures OnInvite(e, m).e == e
  {
  }

  /**
   * Whatever event ends a session, of itself, by its timer, by a request or by an invite that takes precedence, the other end
   * is told so exactly once; only when it was the other end's own word that ended it is nothing said. An invite under the very
   * id of the attempt it ends is rejected besides.
   */
  lemma EveryEndIsTold(e: Endpoint, ev: Event, id: string)
    requires Reached(e) && Allowed(e, ev) && id in e.sessions && e.sessions[id].phase != ENDED
    ensures var r := Step(e, ev);
            && id in r.e.sessions
            && (r.e.sessions[id].phase == ENDED ==>
                  var s, words := e.sessions[id], Said(r.emit, id);
                  if ev.Recv? && ev.m.session == id && !ev.m.body.Progress? then
                    if ev.m.body.Invite? then |words| == 2 && TellsEnd(s, id, words[..1]) && words[1] == Send(ev.m.from, id, Reject("session.glare", None))
                    else words == []
                  else TellsEnd(s, id, words))
  {
    hide CallsOk, P.KeysOk, P.NothingDue, RunTo, P.Answer, OnInvite, OnMessage, OnLocal, OnPlaceCall, Said, TellsEnd, Less;
    if !e.keys.exhausted {
      match ev
      case Advance(seconds) => RunToTells(e, e.timers.now + seconds, id);
      case Recv(m) => if m.body.Invite? { InviteTells(e, m, id); } else { MessageTells(e, m, id); }
      case Local(x, v) => LocalTells(e, x, v, id);
      case PlaceCall(x, to) => PlacesOnly(e, x, to, id);
      case KeyRequest(q) =>
    }
  }

  lemma PlacesOnly(e: Endpoint, x: string, to: string, id: string)
    requires id in e.sessions
    ensures id in OnPlaceCall(e, x, to).e.sessions && OnPlaceCall(e, x, to).e.sessions[id] == e.sessions[id]
  {
    hide ApplyOps;
  }

  lemma InviteTells(e: Endpoint, m: Message, id: string)
    requires CallsOk(e) && m.body.Invite? && (!ReusesOwn(e, m.session) || SameIdGlare(e, m)) && id in e.sessions && e.sessions[id].phase != ENDED
    ensures var r := OnInvite(e, m);
            && id in r.e.sessions
            && (r.e.sessions[id].phase == ENDED ==>
                  if m.session == id then
                    && |Said(r.emit, id)| == 2 && TellsEnd(e.sessions[id], id, Said(r.emit, id)[..1])
                    && Said(r.emit, id)[1] == Send(m.from, id, Reject("session.glare", None))
                  else TellsEnd(e.sessions[id], id, Said(r.emit, id)))
  {
    hide CallsOk, OnInvite, Said, TellsEnd, SameIdGlare, RefusedAs, Rival;
    if m.session in e.sessions {
      if ReusesOwn(e, m.session) { SameIdTells(e, m, id); } else { HeldInvite(e, m); }
    } else if exists reason :: RefusedAs(e, m, reason) {
      var reason :| RefusedAs(e, m, reason);
      InviteRefused(e, m, reason);
    } else {
      InviteOffered(e, m);
    }
  }
}
