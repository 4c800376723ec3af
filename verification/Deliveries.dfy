/**
 * What becomes of every envelope the relay of `relay.ts` receives: it is the business of an attempt, or delivered once to each
 * device it is for, or held, or refused to its sender; and whatever is held is later delivered, reported as dropped, or still
 * held. Each is said of the events and the emissions, without the relay's own functions.
 */
module Deliveries {
  import opened Prelude
  import opened Calls
  import opened Relays

  // ---- what an event takes out of the queue and puts in

  datatype Leaving = ForDevice(device: string, identity: string) | Overdue(now: int) | Withdrawn(session: string, to: Option<string>) | Staying

  predicate Leaves(q: Queued, w: Leaving) {
    match w
    case ForDevice(device, identity) => q.to == device || q.to == identity
    case Overdue(now) => q.until <= now
    case Withdrawn(session, to) => Invites(q.env) && q.env.m.session == session && to == Some(q.to)
    case Staying => false
  }

  /** Those of a queue that leave, and those that stay, each in the queue's order. */
  function Those(queue: seq<Queued>, w: Leaving): seq<Queued> {
    if queue == [] then [] else (if Leaves(queue[0], w) then [queue[0]] else []) + Those(queue[1..], w)
  }

  function Others(queue: seq<Queued>, w: Leaving): seq<Queued> {
    if queue == [] then [] else (if Leaves(queue[0], w) then [] else [queue[0]]) + Others(queue[1..], w)
  }

  lemma {:induction false} Parted(queue: seq<Queued>, w: Leaving)
    ensures multiset(queue) == multiset(Those(queue, w)) + multiset(Others(queue, w))
    ensures forall q :: q in Those(queue, w) <==> q in queue && Leaves(q, w)
    ensures forall q :: q in Others(queue, w) <==> q in queue && !Leaves(q, w)
  {
    hide Leaves;
    if queue != [] {
      Parted(queue[1..], w);
      assert queue == [queue[0]] + queue[1..];
    }
  }

  lemma {:induction false} OneMore(queue: seq<Queued>, q: Queued, w: Leaving)
    ensures Those(queue + [q], w) == Those(queue, w) + if Leaves(q, w) then [q] else []
    ensures Others(queue + [q], w) == Others(queue, w) + if Leaves(q, w) then [] else [q]
  {
    hide Leaves;
    if queue == [] {
      assert [q][1..] == [] && [] + [q] == [q];
    } else {
      OneMore(queue[1..], q, w);
      assert (queue + [q])[1..] == queue[1..] + [q] && (queue + [q])[0] == queue[0];
      var this0, other0 := if Leaves(queue[0], w) then [queue[0]] else [], if Leaves(queue[0], w) then [] else [queue[0]];
      var this1, other1 := if Leaves(q, w) then [q] else [], if Leaves(q, w) then [] else [q];
      assert this0 + (Those(queue[1..], w) + this1) == this0 + Those(queue[1..], w) + this1;
      assert other0 + (Others(queue[1..], w) + other1) == other0 + Others(queue[1..], w) + other1;
    }
  }

  // ---- who a message is for

  predicate Invites(env: Envelope) { env.CallEnvelope? && env.m.body.Invite? }

  function Address(env: Envelope): string { if env.to.Some? then env.to.value else "" }

  predicate Reaches(r: Relay, env: Envelope, d: string) {
    d in r.bound &&
    if Address(env) in r.bound && !env.Introduction? && !Invites(env) then d == Address(env) else r.bound[d] == Address(env)
  }

  ghost predicate Reached(r: Relay, env: Envelope) { exists d :: Reaches(r, env, d) }

  /** One emission for each device there is, by device. */
  ghost predicate ToEach(r: Relay, env: Envelope, emit: seq<Emission>) {
    exists legs :: OneEach(r, env, legs) && |emit| == |legs| && forall i :: 0 <= i < |emit| ==> emit[i] == Carrying(env, legs[i])
  }

  ghost predicate OneEach(r: Relay, env: Envelope, legs: seq<string>) {
    && (forall d :: d in legs <==> Reaches(r, env, d))
    && (forall i, j :: 0 <= i < j < |legs| ==> Less(legs[i], legs[j]))
  }

  /** An invite is delivered as its session's, anything else as it came. */
  function Carrying(env: Envelope, d: string): Emission {
    if Invites(env) then DeliverInvite(d, env.m.session) else Deliver(d, env)
  }

  /** What a leg says of itself. */
  predicate Speaks(b: Body) {
    b.Progress? || (b.Answer? && b.inReplyTo.None?) || (b.Reject? && b.inReplyTo.None?)
  }

  /** An attempt's own business: its initiator's cancel, to the identity called or to a leg, or what a leg says. */
  predicate OfAttempt(r: Relay, env: Envelope) {
    && env.CallEnvelope? && !Invites(env) && env.m.session in r.attempts
    && var a := r.attempts[env.m.session];
       if env.m.body.Cancel? then env.m.from == a.from && (env.to.None? || env.to == Some(a.to) || env.to.value in a.legs)
       else env.m.from in a.legs && Speaks(env.m.body)
  }

  /** A cancel, not by the initiator of an attempt held, of an invite held where it is addressed. */
  ghost predicate Withdraws(r: Relay, env: Envelope) {
    && env.CallEnvelope? && env.m.body.Cancel? && !(env.m.session in r.attempts && env.m.from == r.attempts[env.m.session].from)
    && exists q :: q in r.queue && Leaves(q, Withdrawn(env.m.session, env.to))
  }

  /** Until it expires or retention has passed, whichever is first. */
  ghost predicate HeldFor(r: Relay, env: Envelope, until: int) {
    && until <= r.now + r.retention && (env.expiresAt.Some? ==> until <= env.expiresAt.value)
    && (until == r.now + r.retention || env.expiresAt == Some(until))
  }

  /** What becomes of an envelope that is to be routed. */
  ghost predicate RoutedSo(r: Relay, env: Envelope, s: RelayStep) {
    if Reached(r, env) then
      && ToEach(r, env, s.emit)
      && s.r == r.(attempts := s.r.attempts)
      && if Invites(env) then
           && s.r.attempts.Keys == r.attempts.Keys + {env.m.session} && (forall id :: id in r.attempts && id != env.m.session ==> s.r.attempts[id] == r.attempts[id])
           && Outset(s.r.attempts[env.m.session], env.m.from, Address(env), env.expiresAt, r.now)
           && forall d :: d in s.r.attempts[env.m.session].legs <==> Reaches(r, env, d)
         else s.r.attempts == r.attempts
    else if env.Introduction? || Address(env) in r.known then
      && s.emit == [QueuedFor(Address(env), env)]
      && exists until :: HeldFor(r, env, until) && s.r == r.(queue := r.queue + [Parked(Address(env), env, until)])
    else s == RelayStep(r, [UnknownRecipient(env.m.from, env.m.id)])
  }

  /** An attempt as it is set out: every leg outstanding and nothing heard. */
  ghost predicate Outset(a: Attempt, from: string, to: string, expires: Option<int>, now: int) {
    && a.from == from && a.to == to && a.expires == expires && a.touched == now && a.outcome == Open && a.rejections == [] && a.heard == {}
    && forall d :: d in a.legs ==> a.legs[d] == Delivered
  }

  /** The withdrawn are reported in the queue's order. */
  ghost predicate WithdrawnSo(r: Relay, env: Envelope, s: RelayStep)
    requires env.CallEnvelope?
  {
    var gone := Those(r.queue, Withdrawn(env.m.session, env.to));
    && s.r == r.(queue := Others(r.queue, Withdrawn(env.m.session, env.to)))
    && |s.emit| == |gone| && forall i :: 0 <= i < |gone| ==> s.emit[i] == Dequeued(gone[i].to, gone[i].env, "cancelled")
  }

  // ---- an attempt's own business

  /** A cancel ends the outstanding legs it is for, telling each of them once, by device. */
  ghost predicate CancelledSo(session: string, a: Attempt, now: int, target: Option<string>, reason: string, s: AttemptStep) {
    && s.a == a.(touched := now, legs := s.a.legs, outcome := s.a.outcome) && s.a.legs.Keys == a.legs.Keys
    && (forall l :: l in a.legs ==> s.a.legs[l] == if IsCancelled(a, target, l) then LegCancelled else a.legs[l])
    && (exists told :: ToldCancel(session, a, target, reason, told, s.emit))
    && s.a.outcome == if a.outcome == Open && (forall l :: l in a.legs ==> a.legs[l] != Delivered || IsCancelled(a, target, l)) then OfCancel else a.outcome
  }

  predicate IsCancelled(a: Attempt, target: Option<string>, l: string)
    requires l in a.legs
  {
    a.legs[l] == Delivered && (target.None? || target == Some(a.to) || target == Some(l))
  }

  /** Reasons by how much they tell the caller, most first; any other tells least. */
  const TELLING: seq<string> := ["user.declined", "user.no-answer", "endpoint.busy", "endpoint.unavailable"]

  predicate TellsMore(x: string, y: string) {
    exists i :: 0 <= i < |TELLING| && TELLING[i] == x && y !in TELLING[..i + 1]
  }

  lemma RankTells(x: string, y: string)
    ensures InformRank(x) < InformRank(y) <==> TellsMore(x, y)
  {
    assert TELLING[..1] == [TELLING[0]] && TELLING[..2] == [TELLING[0], TELLING[1]] && TELLING[..3] == [TELLING[0], TELLING[1], TELLING[2]] && TELLING[..4] == TELLING;
    if InformRank(x) < InformRank(y) { assert TELLING[InformRank(x)] == x && y !in TELLING[..InformRank(x) + 1]; }
  }

  /** The first of those that none tells more than. */
  ghost predicate MostTelling(rs: seq<Rejection>, b: Rejection) {
    exists i :: 0 <= i < |rs| && rs[i] == b && (forall j :: 0 <= j < |rs| ==> !TellsMore(rs[j].reason, b.reason))
                && forall j :: 0 <= j < i ==> TellsMore(b.reason, rs[j].reason)
  }

  /** No other leg is outstanding. */
  predicate LastOut(a: Attempt, leg: string) { forall l :: l in a.legs && l != leg ==> a.legs[l] != Delivered }

  /** An outstanding leg ends without an answer: if it was the last of an open attempt, the caller gets the most telling reject, or is told that nobody answered. */
  ghost predicate EndedSo(session: string, a: Attempt, leg: string, state: LegState, s: AttemptStep)
    requires leg in a.legs
  {
    && s.a == a.(legs := a.legs[leg := state], outcome := s.a.outcome)
    && if a.outcome != Open || !LastOut(a, leg) then s.a.outcome == a.outcome && s.emit == []
       else if a.rejections == [] then s.a.outcome == OfSilence && s.emit == [NoResponse(a.from, session)]
       else s.a.outcome == OfReject && exists b :: MostTelling(a.rejections, b) && s.emit == [Forward(a.from, session, b.leg, Reject(b.reason, None))]
  }

  lemma EndsSo(session: string, a: Attempt, leg: string, state: LegState)
    requires leg in a.legs && a.legs[leg] == Delivered && state != Delivered
    ensures EndedSo(session, a, leg, state, LegEnded(session, a, leg, state))
  {
    var b := a.(legs := a.legs[leg := state]);
    assert SomeLeg(b.legs, Delivered) <==> !LastOut(a, leg) by {
      if l :| l in a.legs && l != leg && a.legs[l] == Delivered { assert l in b.legs && b.legs[l] == Delivered; }
    }
    if a.outcome == Open && LastOut(a, leg) && a.rejections != [] {
      var i := Best(a.rejections);
      forall j | 0 <= j < |a.rejections|
        ensures !TellsMore(a.rejections[j].reason, a.rejections[i].reason) && (j < i ==> TellsMore(a.rejections[i].reason, a.rejections[j].reason))
      {
        RankTells(a.rejections[j].reason, a.rejections[i].reason);
        RankTells(a.rejections[i].reason, a.rejections[j].reason);
      }
      assert MostTelling(a.rejections, a.rejections[i]);
    }
  }

  /** What a leg says: an answer always reaches the caller, anything else only from a leg still outstanding. */
  ghost predicate SaidSo(session: string, a: Attempt, now: int, m: Message, s: AttemptStep)
    requires m.from in a.legs
  {
    var leg, out := m.from, a.legs[m.from] == Delivered;
    var h := a.(touched := now, heard := a.heard + {leg});
    if m.body.Answer? then
      && s.emit == [Forward(a.from, session, leg, m.body)]
      && s.a == if out then h.(legs := a.legs[leg := LegAnswered], outcome := if a.outcome == Open then OfAnswer else a.outcome) else h
    else if !out then s == AttemptStep(h, [DropTerminated])
    else if m.body.Progress? then s == AttemptStep(h, [Forward(a.from, session, leg, m.body)])
    else m.body.Reject? && EndedSo(session, h.(rejections := a.rejections + [Rejection(leg, m.body.reason)]), leg, LegRejected, s)
  }

  lemma SaysSo(session: string, a: Attempt, now: int, m: Message)
    requires m.from in a.legs && LegSpeaks(m.body)
    ensures SaidSo(session, a, now, m, FromLeg(session, a, now, m))
  {
    hide EndedSo, LegEnded;
    if m.body.Reject? && a.legs[m.from] == Delivered {
      EndsSo(session, a.(touched := now, heard := a.heard + {m.from}, rejections := a.rejections + [Rejection(m.from, m.body.reason)]), m.from, LegRejected);
    }
  }

  /** Each of the legs cancelled, by device, and nothing else. */
  ghost predicate ToldCancel(session: string, a: Attempt, target: Option<string>, reason: string, told: seq<string>, emit: seq<Emission>) {
    && (forall l :: l in told <==> l in a.legs && IsCancelled(a, target, l)) && (forall i, j :: 0 <= i < j < |told| ==> Less(told[i], told[j]))
    && |emit| == |told| && forall i :: 0 <= i < |told| ==> emit[i] == DeliverCancel(told[i], session, reason)
  }

  function Picked(a: Attempt, target: Option<string>, legs: seq<string>): seq<string> {
    if legs == [] then []
    else Picked(a, target, legs[..|legs| - 1])
         + if legs[|legs| - 1] in a.legs && IsCancelled(a, target, legs[|legs| - 1]) then [legs[|legs| - 1]] else []
  }

  lemma {:induction false} PickedAscend(a: Attempt, target: Option<string>, legs: seq<string>)
    requires forall i, j :: 0 <= i < j < |legs| ==> Less(legs[i], legs[j])
    ensures var p := Picked(a, target, legs);
            && (forall l :: l in p <==> l in legs && l in a.legs && IsCancelled(a, target, l))
            && forall i, j :: 0 <= i < j < |p| ==> Less(p[i], p[j])
  {
    hide IsCancelled, Less;
    if legs != [] {
      var front, leg := legs[..|legs| - 1], legs[|legs| - 1];
      PickedAscend(a, target, front);
      assert legs == front + [leg];
      forall l | l in front ensures Less(l, leg) {
        var i :| 0 <= i < |front| && front[i] == l;
        assert legs[i] == l;
      }
    }
  }

  lemma {:induction false} CancelEachSo(session: string, a: Attempt, target: Option<string>, reason: string, legs: seq<string>)
    requires forall i, j :: 0 <= i < j < |legs| ==> legs[i] != legs[j]
    ensures var s, p := CancelEach(session, a, target, reason, legs), Picked(a, target, legs);
            && s.a == a.(legs := s.a.legs) && s.a.legs.Keys == a.legs.Keys
            && (forall l :: l in a.legs ==> s.a.legs[l] == if l in legs && IsCancelled(a, target, l) then LegCancelled else a.legs[l])
            && |s.emit| == |p| && forall i :: 0 <= i < |p| ==> s.emit[i] == DeliverCancel(p[i], session, reason)
  {
    if legs != [] {
      var front, leg := legs[..|legs| - 1], legs[|legs| - 1];
      CancelEachSo(session, a, target, reason, front);
      assert legs == front + [leg];
      assert forall i :: 0 <= i < |front| ==> front[i] == legs[i];
      var r := CancelEach(session, a, target, reason, front);
      assert r.a.to == a.to && (leg in a.legs ==> r.a.legs[leg] == a.legs[leg]);
      assert Cancels(r.a, target, leg) <==> leg in a.legs && IsCancelled(a, target, leg);
    }
  }

  /** What cancelling each leg in the order of the devices comes to. */
  lemma CancelAllSo(session: string, a: Attempt, now: int, target: Option<string>, reason: string)
    ensures var r := CancelEach(session, a.(touched := now), target, reason, Sorted(a.legs.Keys));
            && r.a == a.(touched := now, legs := r.a.legs) && r.a.legs.Keys == a.legs.Keys
            && (forall l :: l in a.legs ==> r.a.legs[l] == if IsCancelled(a, target, l) then LegCancelled else a.legs[l])
            && exists told :: ToldCancel(session, a, target, reason, told, r.emit)
  {
    hide CancelEach, Picked, IsCancelled, Less;
    var t, ids := a.(touched := now), Sorted(a.legs.Keys);
    SortedAscends(a.legs.Keys);
    SortedDistinct(a.legs.Keys);
    CancelEachSo(session, t, target, reason, ids);
    PickedAscend(t, target, ids);
    SameTargets(a, t, target);
    assert ToldCancel(session, a, target, reason, Picked(t, target, ids), CancelEach(session, t, target, reason, ids).emit);
  }

  lemma CancelsSo(session: string, a: Attempt, now: int, target: Option<string>, reason: string)
    ensures CancelledSo(session, a, now, target, reason, CancelAttempt(session, a, now, target, reason))
  {
    hide CancelEach, IsCancelled, SomeLeg, ToldCancel;
    CancelAllSo(session, a, now, target, reason);
    StillOut(a, target, CancelEach(session, a.(touched := now), target, reason, Sorted(a.legs.Keys)).a.legs);
  }

  lemma StillOut(a: Attempt, target: Option<string>, legs: map<string, LegState>)
    requires legs.Keys == a.legs.Keys && forall l :: l in a.legs ==> legs[l] == if IsCancelled(a, target, l) then LegCancelled else a.legs[l]
    ensures SomeLeg(legs, Delivered) <==> !forall l :: l in a.legs ==> a.legs[l] != Delivered || IsCancelled(a, target, l)
  {
    hide IsCancelled;
    if l :| l in a.legs && a.legs[l] == Delivered && !IsCancelled(a, target, l) { assert legs[l] == Delivered; }
  }

  lemma SameTargets(a: Attempt, t: Attempt, target: Option<string>)
    requires t.legs == a.legs && t.to == a.to
    ensures forall l :: l in a.legs ==> (IsCancelled(t, target, l) <==> IsCancelled(a, target, l))
  {
  }

  // ---- everything received is dealt with

  ghost predicate DealtWith(r: Relay, env: Envelope, s: RelayStep) {
    if OfAttempt(r, env) then
      var id := env.m.session;
      && OnlyAttempt(r, id, s.r)
      && var t := AttemptStep(s.r.attempts[id], s.emit);
         if env.m.body.Cancel? then CancelledSo(id, r.attempts[id], r.now, env.to, env.m.body.reason, t) else SaidSo(id, r.attempts[id], r.now, env.m, t)
    else if Withdraws(r, env) then WithdrawnSo(r, env, s)
    else RoutedSo(r, env, s)
  }

  ghost predicate OnlyAttempt(r: Relay, id: string, s: Relay)
    requires id in r.attempts
  {
    && s == r.(attempts := s.attempts) && s.attempts.Keys == r.attempts.Keys
    && forall x :: x in r.attempts && x != id ==> s.attempts[x] == r.attempts[x]
  }

  lemma {:induction false} ForkLegsSo(session: string, a: Attempt, legs: seq<string>, now: int)
    requires a.touched == now
    ensures var s := ForkLegs(session, a, legs, now);
            && s.a == a.(legs := s.a.legs) && (forall l :: l in s.a.legs <==> l in a.legs || l in legs)
            && (forall l :: l in s.a.legs ==> s.a.legs[l] == if l in legs then Delivered else a.legs[l])
            && |s.emit| == |legs| && forall i :: 0 <= i < |legs| ==> s.emit[i] == DeliverInvite(legs[i], session)
  {
    if legs != [] {
      assert legs == legs[..|legs| - 1] + [legs[|legs| - 1]];
      ForkLegsSo(session, a, legs[..|legs| - 1], now);
    }
  }

  lemma DevicesReached(r: Relay, env: Envelope, ds: set<string>)
    requires forall d :: d in ds <==> Reaches(r, env, d)
    ensures OneEach(r, env, Sorted(ds))
    ensures Sorted(ds) == [] <==> !Reached(r, env)
  {
    hide Less, Reaches;
    SortedAscends(ds);
    if Reached(r, env) {
      var d :| Reaches(r, env, d);
      assert d in Sorted(ds);
    }
    if Sorted(ds) != [] { assert Sorted(ds)[0] in ds; }
  }

  /** The devices bound for the identity addressed are those reached, except where a device itself is addressed. */
  lemma DevicesAre(r: Relay, env: Envelope)
    requires env.Introduction? || IsInvite(env) || ToOf(env) !in r.bound
    ensures OneEach(r, env, Sorted(DevicesOf(r, ToOf(env)))) && (DevicesOf(r, ToOf(env)) == {} <==> !Reached(r, env))
  {
    var ds := DevicesOf(r, ToOf(env));
    assert forall d :: d in ds <==> Reaches(r, env, d);
    hide Reaches, DevicesOf, OneEach, Reached;
    DevicesReached(r, env, ds);
    assert Sorted(ds) == [] <==> ds == {};
  }

  lemma InviteSo(r: Relay, env: Envelope)
    requires IsInvite(env)
    ensures RoutedSo(r, env, OnInvite(r, env))
  {
    hide DevicesOf, OneEach, Fork, Outset, Reached, Reaches, ToEach;
    DevicesAre(r, env);
    if DevicesOf(r, ToOf(env)) != {} {
      InvitedEach(r, env, Sorted(DevicesOf(r, ToOf(env))));
    } else {
      HeldSo(r, env);
    }
  }

  lemma InvitedEach(r: Relay, env: Envelope, legs: seq<string>)
    requires IsInvite(env) && OneEach(r, env, legs)
    ensures var s := Fork(r, env.m.session, env.m.from, Address(env), legs, env.expiresAt);
            && ToEach(r, env, s.emit) && s.r == r.(attempts := s.r.attempts)
            && s.r.attempts.Keys == r.attempts.Keys + {env.m.session} && (forall id :: id in r.attempts && id != env.m.session ==> s.r.attempts[id] == r.attempts[id])
            && Outset(s.r.attempts[env.m.session], env.m.from, Address(env), env.expiresAt, r.now)
            && forall d :: d in s.r.attempts[env.m.session].legs <==> Reaches(r, env, d)
  {
    hide Reaches, ForkLegs, Less;
    ForkLegsSo(env.m.session, NewAttemptFor(env.m.from, Address(env), env.expiresAt, r.now), legs, r.now);
    var s := Fork(r, env.m.session, env.m.from, Address(env), legs, env.expiresAt);
    assert forall i :: 0 <= i < |s.emit| ==> s.emit[i] == Carrying(env, legs[i]);
  }

  lemma HeldSo(r: Relay, env: Envelope)
    ensures HeldFor(r, env, HoldUntil(r, env))
  {
  }

  lemma RouteSo(r: Relay, env: Envelope)
    requires env.CallEnvelope? && !IsInvite(env)
    ensures RoutedSo(r, env, Route(r, env))
  {
    var to := ToOf(env);
    HeldSo(r, env);
    if to in r.bound {
      assert Reaches(r, env, to);
      assert OneEach(r, env, [to]);
      assert [Deliver(to, env)][0] == Carrying(env, [to][0]);
      assert ToEach(r, env, [Deliver(to, env)]);
    } else {
      hide DevicesOf, OneEach, Reached, Reaches, ToEach;
      DevicesAre(r, env);
      if DevicesOf(r, to) != {} { DeliveredEach(r, env, DevicesOf(r, to)); }
    }
  }

  lemma DeliveredEach(r: Relay, env: Envelope, ds: set<string>)
    requires OneEach(r, env, Sorted(ds)) && !IsInvite(env)
    ensures ToEach(r, env, DeliverEach(env, Sorted(ds)))
  {
    hide OneEach;
    var legs := Sorted(ds);
    assert forall i :: 0 <= i < |legs| ==> DeliverEach(env, legs)[i] == Carrying(env, legs[i]);
  }

  lemma IntroductionSo(r: Relay, env: Envelope)
    requires env.Introduction?
    ensures RoutedSo(r, env, OnIntroduction(r, env))
  {
    var to := ToOf(env);
    HeldSo(r, env);
    hide DevicesOf, OneEach, Reached, Reaches, ToEach;
    DevicesAre(r, env);
    if DevicesOf(r, to) != {} { DeliveredEach(r, env, DevicesOf(r, to)); }
  }

  lemma {:induction false} DropSo(queue: seq<Queued>, env: Envelope)
    requires env.CallEnvelope?
    ensures var (kept, told) := DropWithdrawn(queue, env);
            var gone := Those(queue, Withdrawn(env.m.session, env.to));
            && kept == Others(queue, Withdrawn(env.m.session, env.to))
            && |told| == |gone| && forall i :: 0 <= i < |gone| ==> told[i] == Dequeued(gone[i].to, gone[i].env, "cancelled")
  {
    if queue != [] {
      var front, q := queue[..|queue| - 1], queue[|queue| - 1];
      DropSo(front, env);
      OneMore(front, q, Withdrawn(env.m.session, env.to));
      assert queue == front + [q];
      assert WithdrawnBy(q, env) <==> Leaves(q, Withdrawn(env.m.session, env.to));
      hide Leaves, WithdrawnBy, Those, Others;
    }
  }

  /** Nothing the relay receives is dropped in silence. */
  lemma EveryEnvelopeIsDealtWith(r: Relay, env: Envelope)
    ensures DealtWith(r, env, OnEnvelope(r, env))
  {
    hide RoutedSo, CancelledSo, SaidSo, CancelAttempt, FromLeg, Route, OnInvite, OnIntroduction, Those, Others, DropWithdrawn;
    if env.Introduction? {
      IntroductionSo(r, env);
    } else if IsInvite(env) {
      InviteSo(r, env);
    } else {
      var m := env.m;
      RouteSo(r, env);
      if m.session in r.attempts {
        CancelsSo(m.session, r.attempts[m.session], r.now, env.to, if m.body.Cancel? then m.body.reason else "");
        if m.from in r.attempts[m.session].legs && LegSpeaks(m.body) { SaysSo(m.session, r.attempts[m.session], r.now, m); }
      }
      assert (exists q :: q in r.queue && WithdrawnBy(q, env)) <==> exists q :: q in r.queue && Leaves(q, Withdrawn(m.session, env.to)) by {
        if q :| q in r.queue && WithdrawnBy(q, env) { assert Leaves(q, Withdrawn(m.session, env.to)); }
        if q :| q in r.queue && Leaves(q, Withdrawn(m.session, env.to)) { assert WithdrawnBy(q, env); }
      }
      DropSo(r.queue, env);
    }
  }

  // ---- binding

  /** What a device is given for something held. */
  function Handing(q: Queued, device: string): Emission {
    if Invites(q.env) then DeliverInvite(device, q.env.m.session) else Deliver(device, q.env)
  }

  predicate InviteFor(q: Queued, id: string) { Invites(q.env) && q.env.m.session == id }

  ghost predicate InvitedIn(held: seq<Queued>, id: string) { exists q :: q in held && InviteFor(q, id) }

  /** A live attempt to the identity that the device has no part in yet. */
  predicate Unjoined(a: Attempt, now: int, device: string, identity: string) {
    a.to == identity && a.outcome == Open && (a.expires.Some? ==> now < a.expires.value) && device !in a.legs
  }

  ghost predicate Joining(r: Relay, held: seq<Queued>, device: string, identity: string, id: string) {
    id in r.attempts && !InvitedIn(held, id) && Unjoined(r.attempts[id], r.now, device, identity)
  }

  /** The attempt under an id once the held invites are delivered: as the last of them has it, or as it was. */
  ghost predicate GivenSo(r: Relay, held: seq<Queued>, device: string, identity: string, id: string, a: Attempt) {
    if InvitedIn(held, id) then
      exists i :: 0 <= i < |held| && InviteFor(held[i], id) && (forall j :: i < j < |held| ==> !InviteFor(held[j], id))
                  && Outset(a, held[i].env.m.from, identity, held[i].env.expiresAt, r.now) && a.legs.Keys == {device}
    else id in r.attempts && a == r.attempts[id]
  }

  /**
   * A device that binds gets whatever is held for it or its identity, each thing once and in the order it came, and then the
   * invites of the live attempts to its identity, by their ids.
   */
  ghost predicate BoundSo(r: Relay, device: string, identity: string, s: RelayStep) {
    var held := Those(r.queue, ForDevice(device, identity));
    && s.r == r.(bound := r.bound[device := identity], known := r.known + {device, identity},
                 queue := Others(r.queue, ForDevice(device, identity)), attempts := s.r.attempts)
    && |held| <= |s.emit| && (forall i :: 0 <= i < |held| ==> s.emit[i] == Handing(held[i], device))
    && (exists joined :: ToldInvites(r, held, device, identity, joined, s.emit[|held|..]))
    && (forall id :: id in s.r.attempts <==> id in r.attempts || InvitedIn(held, id))
    && forall id :: id in s.r.attempts ==> JoinedSo(r, held, device, identity, id, s.r.attempts[id])
  }

  ghost predicate JoinedSo(r: Relay, held: seq<Queued>, device: string, identity: string, id: string, a: Attempt) {
    if Joining(r, held, device, identity, id) then a == r.attempts[id].(legs := r.attempts[id].legs[device := Delivered], touched := r.now)
    else GivenSo(r, held, device, identity, id, a)
  }

  ghost predicate ToldInvites(r: Relay, held: seq<Queued>, device: string, identity: string, joined: seq<string>, emit: seq<Emission>) {
    && (forall id :: id in joined <==> Joining(r, held, device, identity, id)) && (forall i, j :: 0 <= i < j < |joined| ==> Less(joined[i], joined[j]))
    && |emit| == |joined| && forall i :: 0 <= i < |joined| ==> emit[i] == DeliverInvite(device, joined[i])
  }

  lemma {:induction false} QueueForIs(queue: seq<Queued>, device: string, identity: string)
    ensures QueueFor(queue, device, identity, true) == Those(queue, ForDevice(device, identity))
    ensures QueueFor(queue, device, identity, false) == Others(queue, ForDevice(device, identity))
  {
    if queue != [] {
      var front, q := queue[..|queue| - 1], queue[|queue| - 1];
      QueueForIs(front, device, identity);
      OneMore(front, q, ForDevice(device, identity));
      assert queue == front + [q];
      assert Mine(q, device, identity) <==> Leaves(q, ForDevice(device, identity));
      hide Leaves, Mine, Those, Others;
    }
  }

  lemma GivenOneMore(r: Relay, front: seq<Queued>, q: Queued, device: string, identity: string, id: string, a: Attempt)
    requires GivenSo(r, front, device, identity, id, a) && !InviteFor(q, id)
    ensures GivenSo(r, front + [q], device, identity, id, a)
    ensures InvitedIn(front + [q], id) <==> InvitedIn(front, id)
  {
    if InvitedIn(front, id) {
      var i :| 0 <= i < |front| && InviteFor(front[i], id) && (forall j :: i < j < |front| ==> !InviteFor(front[j], id))
                  && Outset(a, front[i].env.m.from, identity, front[i].env.expiresAt, r.now) && a.legs.Keys == {device};
      assert (front + [q])[i] == front[i];
      assert front[i] in front + [q];
    }
  }

  lemma GivenLast(r: Relay, front: seq<Queued>, q: Queued, device: string, identity: string, a: Attempt)
    requires Invites(q.env) && Outset(a, q.env.m.from, identity, q.env.expiresAt, r.now) && a.legs.Keys == {device}
    ensures GivenSo(r, front + [q], device, identity, q.env.m.session, a) && InvitedIn(front + [q], q.env.m.session)
  {
    assert (front + [q])[|front|] == q && q in front + [q] && InviteFor(q, q.env.m.session);
  }

  lemma {:induction false} FlushSo(r: Relay, device: string, identity: string, mine: seq<Queued>)
    ensures var s := FlushEach(r, device, identity, mine);
            && s.r == r.(attempts := s.r.attempts)
            && |s.emit| == |mine| && (forall i :: 0 <= i < |mine| ==> s.emit[i] == Handing(mine[i], device))
            && (forall id :: id in s.r.attempts <==> id in r.attempts || InvitedIn(mine, id))
            && forall id :: id in s.r.attempts ==> GivenSo(r, mine, device, identity, id, s.r.attempts[id])
  {
    hide GivenSo, InvitedIn, Outset;
    if mine == [] {
      forall id ensures !InvitedIn([], id) { NoneIn(id); }
      forall id | id in r.attempts ensures GivenSo(r, [], device, identity, id, r.attempts[id]) { GivenNone(r, device, identity, id); }
    } else {
      var front, q := mine[..|mine| - 1], mine[|mine| - 1];
      FlushSo(r, device, identity, front);
      assert mine == front + [q];
      var t, s := FlushEach(r, device, identity, front), FlushEach(r, device, identity, mine);
      if Invites(q.env) { OneForked(t.r, q.env.m.session, q.env.m.from, identity, device, q.env.expiresAt); }
      forall id ensures InvitedIn(mine, id) <==> InvitedIn(front, id) || InviteFor(q, id) { InOneMore(front, q, id); }
      forall id | id in s.r.attempts ensures GivenSo(r, mine, device, identity, id, s.r.attempts[id]) {
        if InviteFor(q, id) {
          GivenLast(r, front, q, device, identity, s.r.attempts[id]);
        } else {
          GivenOneMore(r, front, q, device, identity, id, s.r.attempts[id]);
        }
      }
    }
  }

  lemma NoneIn(id: string)
    ensures !InvitedIn([], id)
  {
  }

  lemma InOneMore(front: seq<Queued>, q: Queued, id: string)
    ensures InvitedIn(front + [q], id) <==> InvitedIn(front, id) || InviteFor(q, id)
  {
    if x :| x in front && InviteFor(x, id) { assert x in front + [q]; }
    if InviteFor(q, id) { assert q in front + [q]; }
  }

  lemma GivenNone(r: Relay, device: string, identity: string, id: string)
    requires id in r.attempts
    ensures GivenSo(r, [], device, identity, id, r.attempts[id])
  {
  }

  lemma OneForked(r: Relay, session: string, from: string, to: string, device: string, expires: Option<int>)
    ensures var f := Fork(r, session, from, to, [device], expires);
            && f.r == r.(attempts := f.r.attempts) && f.emit == [DeliverInvite(device, session)]
            && f.r.attempts.Keys == r.attempts.Keys + {session} && (forall id :: id in r.attempts && id != session ==> f.r.attempts[id] == r.attempts[id])
            && Outset(f.r.attempts[session], from, to, expires, r.now) && f.r.attempts[session].legs.Keys == {device}
  {
    ForkLegsSo(session, NewAttemptFor(from, to, expires, r.now), [device], r.now);
  }

  function Joiners(r: Relay, device: string, identity: string, flushed: set<string>, ids: seq<string>): seq<string> {
    if ids == [] then []
    else Joiners(r, device, identity, flushed, ids[..|ids| - 1])
         + if Taken(r, device, identity, flushed, ids[|ids| - 1]) then [ids[|ids| - 1]] else []
  }

  lemma {:induction false} JoinersAscend(r: Relay, device: string, identity: string, flushed: set<string>, ids: seq<string>)
    requires forall i, j :: 0 <= i < j < |ids| ==> Less(ids[i], ids[j])
    ensures var p := Joiners(r, device, identity, flushed, ids);
            && (forall id :: id in p <==> id in ids && Taken(r, device, identity, flushed, id))
            && forall i, j :: 0 <= i < j < |p| ==> Less(p[i], p[j])
  {
    hide Taken, Less;
    if ids != [] {
      var front, id := ids[..|ids| - 1], ids[|ids| - 1];
      JoinersAscend(r, device, identity, flushed, front);
      assert ids == front + [id];
      forall x | x in front ensures Less(x, id) {
        var i :| 0 <= i < |front| && front[i] == x;
        assert ids[i] == x;
      }
    }
  }

  lemma {:induction false} JoinSo(r: Relay, device: string, identity: string, flushed: set<string>, ids: seq<string>)
    requires forall i, j :: 0 <= i < j < |ids| ==> ids[i] != ids[j]
    ensures var s, p := JoinEach(r, device, identity, flushed, ids), Joiners(r, device, identity, flushed, ids);
            && s.r == r.(attempts := s.r.attempts) && s.r.attempts.Keys == r.attempts.Keys
            && (forall id :: id in r.attempts ==>
                  s.r.attempts[id] == if id in ids && Taken(r, device, identity, flushed, id)
                                      then r.attempts[id].(legs := r.attempts[id].legs[device := Delivered], touched := r.now) else r.attempts[id])
            && |s.emit| == |p| && forall i :: 0 <= i < |p| ==> s.emit[i] == DeliverInvite(device, p[i])
  {
    if ids != [] {
      var front, id := ids[..|ids| - 1], ids[|ids| - 1];
      JoinSo(r, device, identity, flushed, front);
      assert ids == front + [id];
      assert forall i :: 0 <= i < |front| ==> front[i] == ids[i];
      var t := JoinEach(r, device, identity, flushed, front);
      assert id in r.attempts ==> t.r.attempts[id] == r.attempts[id];
      assert Taken(r, device, identity, flushed, id) <==> id in t.r.attempts && id !in flushed && Joins(t.r.attempts[id], t.r.now, device, identity);
      hide Taken, Joins, Joined;
    }
  }

  predicate Taken(r: Relay, device: string, identity: string, flushed: set<string>, id: string) {
    id in r.attempts && id !in flushed && Unjoined(r.attempts[id], r.now, device, identity)
  }

  lemma FlushedIs(mine: seq<Queued>, id: string)
    ensures id in Flushed(mine) <==> InvitedIn(mine, id)
  {
    if id in Flushed(mine) {
      var i :| 0 <= i < |mine| && IsInvite(mine[i].env) && mine[i].env.m.session == id;
      assert InviteFor(mine[i], id);
    }
    if q :| q in mine && InviteFor(q, id) {
      var i :| 0 <= i < |mine| && mine[i] == q;
    }
  }

  /** Binding is handing over what is held and then joining the live attempts. */
  lemma BindIs(r: Relay, device: string, identity: string)
    ensures var held := Those(r.queue, ForDevice(device, identity));
            var b := Bare(r, device, identity);
            var f := FlushEach(b, device, identity, held);
            var j := JoinEach(f.r, device, identity, Flushed(held), Sorted(f.r.attempts.Keys));
            Bind(r, device, identity) == RelayStep(j.r, f.emit + j.emit)
  {
    hide QueueFor, FlushEach, JoinEach, Flushed;
    QueueForIs(r.queue, device, identity);
  }

  function Bare(r: Relay, device: string, identity: string): Relay {
    r.(bound := r.bound[device := identity], known := r.known + {device, identity}, queue := Others(r.queue, ForDevice(device, identity)))
  }

  /** What joining the live attempts comes to, after the handing over. */
  lemma JoinsAfter(r: Relay, f: Relay, held: seq<Queued>, device: string, identity: string) returns (joined: seq<string>)
    requires f.now == r.now && forall id :: id in f.attempts <==> id in r.attempts || InvitedIn(held, id)
    requires forall id :: id in f.attempts ==> GivenSo(r, held, device, identity, id, f.attempts[id])
    ensures var j := JoinEach(f, device, identity, Flushed(held), Sorted(f.attempts.Keys));
            && j.r == f.(attempts := j.r.attempts) && j.r.attempts.Keys == f.attempts.Keys && ToldInvites(r, held, device, identity, joined, j.emit)
            && forall id :: id in j.r.attempts ==> JoinedSo(r, held, device, identity, id, j.r.attempts[id])
  {
    hide GivenSo, InvitedIn, Less, Flushed, JoinEach, Joiners, Taken, Joining;
    var ids := Sorted(f.attempts.Keys);
    SortedAscends(f.attempts.Keys);
    SortedDistinct(f.attempts.Keys);
    JoinSo(f, device, identity, Flushed(held), ids);
    JoinersAscend(f, device, identity, Flushed(held), ids);
    joined := Joiners(f, device, identity, Flushed(held), ids);
    forall id ensures id in joined <==> Joining(r, held, device, identity, id) {
      TakenIs(r, r, f, held, device, identity, id);
      if Joining(r, held, device, identity, id) { JoiningIs(r, held, device, identity, id); }
    }
    forall id | id in f.attempts && Joining(r, held, device, identity, id) ensures id in r.attempts && f.attempts[id] == r.attempts[id] {
      JoiningIs(r, held, device, identity, id);
      NotInvited(r, held, device, identity, id, f.attempts[id]);
    }
  }

  lemma BindingHands(r: Relay, device: string, identity: string)
    ensures BoundSo(r, device, identity, Bind(r, device, identity))
  {
    hide GivenSo, InvitedIn, Those, Others, Flushed, Bind, FlushEach, JoinEach, JoinedSo, ToldInvites;
    var held := Those(r.queue, ForDevice(device, identity));
    BindIs(r, device, identity);
    var b := Bare(r, device, identity);
    FlushSo(b, device, identity, held);
    var f := FlushEach(b, device, identity, held);
    forall id | id in f.r.attempts ensures GivenSo(r, held, device, identity, id, f.r.attempts[id]) {
      SameGiven(r, b, held, device, identity, id, f.r.attempts[id]);
    }
    var joined := JoinsAfter(r, f.r, held, device, identity);
    var j := JoinEach(f.r, device, identity, Flushed(held), Sorted(f.r.attempts.Keys));
    assert (f.emit + j.emit)[|held|..] == j.emit;
  }

  lemma JoiningIs(r: Relay, held: seq<Queued>, device: string, identity: string, id: string)
    requires Joining(r, held, device, identity, id)
    ensures id in r.attempts && !InvitedIn(held, id)
  {
  }

  lemma TakenIs(r: Relay, b: Relay, f: Relay, held: seq<Queued>, device: string, identity: string, id: string)
    requires b.attempts == r.attempts && f.now == r.now
    requires id in f.attempts <==> id in b.attempts || InvitedIn(held, id)
    requires id in f.attempts ==> GivenSo(b, held, device, identity, id, f.attempts[id])
    ensures Taken(f, device, identity, Flushed(held), id) <==> Joining(r, held, device, identity, id)
  {
    hide Flushed, InvitedIn, Outset;
    FlushedIs(held, id);
  }

  lemma NotInvited(r: Relay, held: seq<Queued>, device: string, identity: string, id: string, a: Attempt)
    requires !InvitedIn(held, id) && GivenSo(r, held, device, identity, id, a)
    ensures id in r.attempts && a == r.attempts[id]
  {
  }

  lemma SameGiven(r: Relay, b: Relay, held: seq<Queued>, device: string, identity: string, id: string, a: Attempt)
    requires b.attempts == r.attempts && b.now == r.now && GivenSo(b, held, device, identity, id, a)
    ensures GivenSo(r, held, device, identity, id, a)
  {
  }
}
