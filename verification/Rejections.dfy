/**
 * The rejects of a forked call over whole runs of the relay of `relay.ts`: an attempt records those it received from its
 * outstanding legs, in order, and the one it forwards is the earliest of the most informative of them.
 */
module Rejections {
  import opened Prelude
  import opened Calls
  import opened Relays

  /** A forwarded reject is the earliest of the most informative of `rs`. */
  ghost predicate IsBest(e: Emission, rs: seq<Rejection>) {
    e.Forward? &&
    exists i ::
      && 0 <= i < |rs| && e.from == rs[i].leg && e.body == Reject(rs[i].reason, None)
      && (forall j :: 0 <= j < |rs| ==> InformRank(rs[i].reason) <= InformRank(rs[j].reason))
      && (forall j :: 0 <= j < i ==> InformRank(rs[i].reason) < InformRank(rs[j].reason))
  }

  predicate Rejects(e: Emission, id: string) { e.Forward? && e.session == id && e.body.Reject? }

  /** Whatever rejects of `id` are forwarded are the best of `rs`. */
  ghost predicate OnlyBest(emit: seq<Emission>, id: string, rs: seq<Rejection>) {
    forall e :: e in emit && Rejects(e, id) ==> IsBest(e, rs)
  }

  function RejectionsOf(r: Relay, id: string): seq<Rejection> {
    if id in r.attempts then r.attempts[id].rejections else []
  }

  /** What an event adds to an attempt's rejections: the reject of a leg still outstanding. */
  function Rejected(r: Relay, ev: Event, id: string): seq<Rejection> {
    if ev.Received? && ev.env.CallEnvelope? && ev.env.m.body.Reject? && ev.env.m.body.inReplyTo.None? && ev.env.m.session == id
       && id in r.attempts && ev.env.m.from in r.attempts[id].legs && r.attempts[id].legs[ev.env.m.from] == Delivered
    then [Rejection(ev.env.m.from, ev.env.m.body.reason)] else []
  }

  // ---- one attempt

  lemma LegEndedBest(session: string, a: Attempt, leg: string, state: LegState)
    ensures var s := LegEnded(session, a, leg, state);
            s.a.rejections == a.rejections && OnlyBest(s.emit, session, a.rejections) && forall e :: e in s.emit && e.Forward? ==> e.session == session
  {
    if leg in a.legs && a.legs[leg] == Delivered && a.rejections != [] {
      var i := Best(a.rejections);
      assert IsBest(Forward(a.from, session, a.rejections[i].leg, Reject(a.rejections[i].reason, None)), a.rejections);
    }
  }

  lemma {:induction false} ExpireEachBest(session: string, a: Attempt, legs: seq<string>)
    ensures var s := ExpireEach(session, a, legs);
            s.a.rejections == a.rejections && OnlyBest(s.emit, session, a.rejections) && forall e :: e in s.emit && e.Forward? ==> e.session == session
  {
    hide LegEnded, IsBest;
    if legs != [] {
      var front, leg := legs[..|legs| - 1], legs[|legs| - 1];
      ExpireEachBest(session, a, front);
      LegEndedBest(session, ExpireEach(session, a, front).a, leg, LegExpired);
    }
  }

  lemma {:induction false} CancelEachRejects(session: string, a: Attempt, target: Option<string>, reason: string, legs: seq<string>)
    ensures var s := CancelEach(session, a, target, reason, legs);
            s.a.rejections == a.rejections && forall e :: e in s.emit ==> !e.Forward?
  {
    if legs != [] { CancelEachRejects(session, a, target, reason, legs[..|legs| - 1]); }
  }

  lemma {:induction false} ForkLegsRejects(session: string, a: Attempt, legs: seq<string>, now: int)
    ensures var s := ForkLegs(session, a, legs, now); s.a.rejections == a.rejections && forall e :: e in s.emit ==> !e.Forward?
  {
    if legs != [] { ForkLegsRejects(session, a, legs[..|legs| - 1], now); }
  }

  lemma FromLegRejects(session: string, a: Attempt, now: int, m: Message)
    requires m.from in a.legs && LegSpeaks(m.body)
    ensures var s := FromLeg(session, a, now, m);
            var rs := a.rejections + if m.body.Reject? && a.legs[m.from] == Delivered then [Rejection(m.from, m.body.reason)] else [];
            s.a.rejections == rs && OnlyBest(s.emit, session, rs) && forall e :: e in s.emit && e.Forward? ==> e.session == session
  {
    hide LegEnded, IsBest;
    var h := a.(touched := now, heard := a.heard + {m.from});
    if m.body.Reject? && a.legs[m.from] == Delivered {
      LegEndedBest(session, h.(rejections := h.rejections + [Rejection(m.from, m.body.reason)]), m.from, LegRejected);
    } else {
      assert a.rejections + [] == a.rejections;
    }
  }

  // ---- the relay

  /** The relay after a step has for each attempt the rejections it had and what the event added, and forwards the best of them. */
  ghost predicate Records(r: Relay, s: RelayStep, id: string, added: seq<Rejection>) {
    && (id in s.r.attempts ==> s.r.attempts[id].rejections == RejectionsOf(r, id) + added)
    && OnlyBest(s.emit, id, RejectionsOf(r, id) + added)
  }

  ghost predicate Forwardless(emit: seq<Emission>) { forall e :: e in emit ==> !e.Forward? }

  lemma SameRecords(r: Relay, s: RelayStep, id: string)
    requires Forwardless(s.emit) && (id in s.r.attempts ==> s.r.attempts[id].rejections == RejectionsOf(r, id))
    ensures Records(r, s, id, [])
  {
    assert RejectionsOf(r, id) + [] == RejectionsOf(r, id);
  }

  lemma ForkRecords(r: Relay, session: string, from: string, to: string, legs: seq<string>, expires: Option<int>, id: string)
    requires session !in r.attempts
    ensures var s := Fork(r, session, from, to, legs, expires); Records(r, s, id, []) && Forwardless(s.emit)
  {
    hide ForkLegs, Records;
    ForkLegsRejects(session, NewAttemptFor(from, to, expires, r.now), legs, r.now);
    SameRecords(r, Fork(r, session, from, to, legs, expires), id);
  }

  lemma {:induction false} FlushRejects(r: Relay, device: string, identity: string, mine: seq<Queued>)
    ensures var s := FlushEach(r, device, identity, mine);
            && Forwardless(s.emit)
            && forall id :: id in s.r.attempts ==> (id in r.attempts && s.r.attempts[id] == r.attempts[id]) || s.r.attempts[id].rejections == []
  {
    hide ForkLegs;
    if mine != [] {
      var front, env := mine[..|mine| - 1], mine[|mine| - 1].env;
      FlushRejects(r, device, identity, front);
      var s := FlushEach(r, device, identity, front);
      if IsInvite(env) {
        ForkLegsRejects(env.m.session, NewAttemptFor(env.m.from, identity, env.expiresAt, s.r.now), [device], s.r.now);
      }
    }
  }

  lemma {:induction false} JoinRejects(r: Relay, device: string, identity: string, flushed: set<string>, ids: seq<string>)
    ensures var s := JoinEach(r, device, identity, flushed, ids);
            && Forwardless(s.emit) && s.r.attempts.Keys == r.attempts.Keys
            && forall id :: id in r.attempts ==> s.r.attempts[id].rejections == r.attempts[id].rejections
  {
    if ids != [] { JoinRejects(r, device, identity, flushed, ids[..|ids| - 1]); }
  }

  lemma BindRecords(r: Relay, device: string, identity: string, id: string)
    requires RelayOk(r)
    ensures Records(r, Bind(r, device, identity), id, [])
  {
    hide FlushEach, JoinEach, QueueFor, Flushed, RelayOk, Records;
    var mine := QueueFor(r.queue, device, identity, true);
    var b := r.(bound := r.bound[device := identity], known := r.known + {device, identity},
                queue := QueueFor(r.queue, device, identity, false));
    FlushRejects(b, device, identity, mine);
    FlushedStay(r, b, device, identity, mine);
    var f := FlushEach(b, device, identity, mine);
    JoinRejects(f.r, device, identity, Flushed(mine), Sorted(f.r.attempts.Keys));
    SameRecords(r, Bind(r, device, identity), id);
  }

  /** Held invites have ids of their own, so delivering them replaces no attempt. */
  lemma FlushedStay(r: Relay, b: Relay, device: string, identity: string, mine: seq<Queued>)
    requires RelayOk(r) && mine == QueueFor(r.queue, device, identity, true)
    requires b == r.(bound := b.bound, known := b.known, queue := QueueFor(r.queue, device, identity, false))
    ensures forall id :: id in r.attempts ==> id in FlushEach(b, device, identity, mine).r.attempts
                                              && FlushEach(b, device, identity, mine).r.attempts[id] == r.attempts[id]
  {
    hide Fork;
    NoneReplaced(r, device, identity, r.queue, b);
  }

  lemma {:induction false} NoneReplaced(r: Relay, device: string, identity: string, queue: seq<Queued>, b: Relay)
    requires QueueOk(r.bound, r.attempts.Keys, queue) && b.attempts == r.attempts
    ensures var s := FlushEach(b, device, identity, QueueFor(queue, device, identity, true));
            forall id :: id in r.attempts ==> id in s.r.attempts && s.r.attempts[id] == r.attempts[id]
  {
    hide ForkLegs;
    if queue != [] {
      var front, q := queue[..|queue| - 1], queue[|queue| - 1];
      NoneReplaced(r, device, identity, front, b);
      var mine := QueueFor(front, device, identity, true);
      if Mine(q, device, identity) {
        assert (mine + [q])[..|mine|] == mine;
      } else {
        assert mine + [] == mine;
      }
    }
  }

  lemma {:induction false} ExpireAttemptsBest(r: Relay, ids: seq<string>)
    ensures var s := ExpireAttempts(r, ids);
            && s.r.attempts.Keys == r.attempts.Keys
            && (forall id :: id in r.attempts ==> s.r.attempts[id].rejections == r.attempts[id].rejections)
            && (forall id :: OnlyBest(s.emit, id, RejectionsOf(r, id)))
  {
    hide ExpireEach, IsBest, Sorted;
    if ids != [] {
      var front, id := ids[..|ids| - 1], ids[|ids| - 1];
      ExpireAttemptsBest(r, front);
      var s := ExpireAttempts(r, front);
      if id in s.r.attempts { ExpireEachBest(id, s.r.attempts[id], Sorted(s.r.attempts[id].legs.Keys)); }
    }
  }

  lemma ElapseRecords(r: Relay, seconds: nat, id: string)
    ensures Records(r, Elapse(r, seconds), id, [])
  {
    hide ExpireAttempts, ExpiredByRecipient, StillQueued, Sorted, IsBest, Forgettable;
    var t := r.(now := r.now + seconds);
    var tos := Sorted(set i | 0 <= i < |r.queue| :: r.queue[i].to);
    var q := t.(queue := StillQueued(r.queue, t.now));
    ExpireAttemptsBest(q, Sorted(q.attempts.Keys));
    ExpiredQuiet(r.queue, t.now, tos);
    assert RejectionsOf(r, id) + [] == RejectionsOf(r, id);
    assert RejectionsOf(q, id) == RejectionsOf(r, id);
  }

  lemma {:induction false} WithdrawnRejects(queue: seq<Queued>, env: Envelope)
    requires env.CallEnvelope?
    ensures Forwardless(DropWithdrawn(queue, env).1)
  {
    if queue != [] { WithdrawnRejects(queue[..|queue| - 1], env); }
  }

  lemma RouteRecords(r: Relay, env: Envelope, id: string)
    ensures Records(r, Route(r, env), id, []) && Route(r, env).r.attempts == r.attempts
  {
    hide Records, Sorted;
    SameRecords(r, Route(r, env), id);
  }

  lemma CallRecords(r: Relay, env: Envelope, id: string)
    requires env.CallEnvelope? && !IsInvite(env)
    ensures Records(r, OnCall(r, env), id, Rejected(r, Received(env), id))
  {
    hide Route, DropWithdrawn, FromLeg, CancelEach, Sorted, IsBest, Records;
    var m := env.m;
    var s := OnCall(r, env);
    if m.session in r.attempts && m.body.Cancel? && m.from == r.attempts[m.session].from {
      if CancelIsFor(r.attempts[m.session], env) {
        var a := r.attempts[m.session];
        CancelEachRejects(m.session, a.(touched := r.now), env.to, m.body.reason, Sorted(a.legs.Keys));
        SameRecords(r, s, id);
      } else {
        RouteRecords(r, env, id);
      }
    } else if m.body.Cancel? && (exists q :: q in r.queue && WithdrawnBy(q, env)) {
      WithdrawnRejects(r.queue, env);
      SameRecords(r, s, id);
    } else if m.session in r.attempts && m.from in r.attempts[m.session].legs && LegSpeaks(m.body) {
      FromLegRejects(m.session, r.attempts[m.session], r.now, m);
      LegRecords(r, env, id);
    } else {
      RouteRecords(r, env, id);
    }
  }

  lemma LegRecords(r: Relay, env: Envelope, id: string)
    requires env.CallEnvelope? && !env.m.body.Cancel? && env.m.session in r.attempts
    requires env.m.from in r.attempts[env.m.session].legs && LegSpeaks(env.m.body)
    ensures Records(r, OnCall(r, env), id, Rejected(r, Received(env), id))
  {
    hide FromLeg, IsBest;
    FromLegRejects(env.m.session, r.attempts[env.m.session], r.now, env.m);
    assert RejectionsOf(r, id) + [] == RejectionsOf(r, id);
  }

  /** Each event adds to an attempt's rejections exactly the reject it brings from an outstanding leg, and forwards the best. */
  lemma StepRecords(r: Relay, ev: Event, id: string)
    requires RelayOk(r) && forall x :: x in NewIds(ev) ==> x !in r.attempts
    ensures Records(r, Step(r, ev), id, Rejected(r, ev, id))
  {
    hide RelayOk, Records, Elapse, Bind, OnCall, Route, Fork, LegEnded, Sorted;
    match ev
    case Elapsed(seconds) => ElapseRecords(r, seconds, id);
    case Received(env) =>
      if env.Introduction? {
        SameRecords(r, OnIntroduction(r, env), id);
      } else if IsInvite(env) {
        assert env.m.session in NewIds(ev);
        InviteRecords(r, env, id);
      } else {
        CallRecords(r, env, id);
      }
    case InviteEvent(session, from, to, legs) =>
      assert session in NewIds(ev);
      ForkRecords(r, session, from, to, legs, None, id);
    case LegExpiredEvent(session, leg) => LegExpiredRecords(r, session, leg, id);
    case BindEvent(device, identity) => BindRecords(r, device, identity, id);
    case UnbindEvent(device) => SameRecords(r, Step(r, ev), id);
  }

  lemma InviteRecords(r: Relay, env: Envelope, id: string)
    requires IsInvite(env) && env.m.session !in r.attempts
    ensures Records(r, OnInvite(r, env), id, [])
  {
    hide Records, Fork, Sorted;
    var to := ToOf(env);
    if DevicesOf(r, to) != {} {
      ForkRecords(r, env.m.session, env.m.from, to, Sorted(DevicesOf(r, to)), env.expiresAt, id);
    } else {
      SameRecords(r, OnInvite(r, env), id);
    }
  }

  lemma LegExpiredRecords(r: Relay, session: string, leg: string, id: string)
    ensures Records(r, Step(r, LegExpiredEvent(session, leg)), id, [])
  {
    hide LegEnded, IsBest;
    assert RejectionsOf(r, id) + [] == RejectionsOf(r, id);
    if session in r.attempts { LegEndedBest(session, r.attempts[session], leg, LegExpired); }
  }

  // ---- every run

  /** The rejects a run brings to an attempt from its outstanding legs, in order. */
  ghost function RejectsIn(r: Relay, evs: seq<Event>, id: string): seq<Rejection>
    decreases |evs|
  {
    if evs == [] then [] else Rejected(r, evs[0], id) + RejectsIn(Step(r, evs[0]).r, evs[1..], id)
  }

  /** An id that was used and is gone does not come back. */
  lemma {:induction false} GoneStays(r: Relay, used: set<string>, evs: seq<Event>, id: string)
    requires RelayOk(r) && UsedOk(r, used) && Legal(used, evs)
    requires id in used && id !in r.attempts && !InviteQueued(r.queue, id)
    ensures id !in Run(r, evs).r.attempts
    decreases |evs|
  {
    hide RelayOk, UsedOk, Step, OneStep, InviteQueued, Spends, CountSignals;
    if evs != [] {
      StepIds(r, used, evs[0]);
      GoneStays(Step(r, evs[0]).r, used + NewIds(evs[0]), evs[1..], id);
    }
  }

  /** What one event of a run does to ids. */
  lemma StepIds(r: Relay, used: set<string>, ev: Event)
    requires RelayOk(r) && UsedOk(r, used) && Permitted(used, ev)
    ensures RelayOk(Step(r, ev).r) && UsedOk(Step(r, ev).r, used + NewIds(ev))
    ensures forall x :: x in NewIds(ev) ==> x !in r.attempts && x !in used && !InviteQueued(r.queue, x)
    ensures forall x :: InviteQueued(Step(r, ev).r.queue, x) ==> InviteQueued(r.queue, x) || x in NewIds(ev)
    ensures forall x :: x in Step(r, ev).r.attempts ==> x in r.attempts || InviteQueued(r.queue, x) || x in NewIds(ev)
  {
    hide Step, OneStep, RelayOk, InviteQueued, Spends, CountSignals;
    Relays.StepKeeps(r, used, ev);
    assert forall x :: x in NewIds(ev) ==> x !in used;
    StepSettles(r, ev);
  }

  /**
   * In every run the rejections of an attempt are the ones it had and the rejects received since from its outstanding
   * legs, in order.
   */
  lemma {:induction false} RejectionsAreReceived(r: Relay, used: set<string>, evs: seq<Event>, id: string)
    requires RelayOk(r) && UsedOk(r, used) && Legal(used, evs)
    ensures RelayOk(Run(r, evs).r)
    ensures id in Run(r, evs).r.attempts ==> Run(r, evs).r.attempts[id].rejections == RejectionsOf(r, id) + RejectsIn(r, evs, id)
    decreases |evs|
  {
    hide RelayOk, UsedOk, Step, InviteQueued, Records, Rejected, QueueOk, AttemptsOk;
    if evs == [] {
      assert RejectionsOf(r, id) + [] == RejectionsOf(r, id);
    } else {
      var ev := evs[0];
      StepIds(r, used, ev);
      StepRecords(r, ev, id);
      var one := Step(r, ev);
      RejectionsAreReceived(one.r, used + NewIds(ev), evs[1..], id);
      RecordsGive(r, one, id, Rejected(r, ev, id));
      if id in r.attempts && id !in one.r.attempts {
        UsedHas(r, used, id);
        assert id !in NewIds(ev);
        GoneStays(one.r, used + NewIds(ev), evs[1..], id);
      } else if id !in one.r.attempts {
        NothingRejected(r, ev, id);
      }
      assert (RejectionsOf(r, id) + Rejected(r, ev, id)) + RejectsIn(one.r, evs[1..], id)
          == RejectionsOf(r, id) + (Rejected(r, ev, id) + RejectsIn(one.r, evs[1..], id));
    }
  }

  lemma NothingRejected(r: Relay, ev: Event, id: string)
    requires id !in r.attempts
    ensures Rejected(r, ev, id) == [] && RejectionsOf(r, id) == []
  {
  }

  lemma UsedHas(r: Relay, used: set<string>, id: string)
    requires RelayOk(r) && UsedOk(r, used) && id in r.attempts
    ensures id in used && !InviteQueued(r.queue, id)
  {
    NotBoth(r.bound, r.attempts.Keys, r.queue, id);
  }

  lemma RecordsGive(r: Relay, s: RelayStep, id: string, added: seq<Rejection>)
    requires Records(r, s, id, added)
    ensures id in s.r.attempts ==> RejectionsOf(s.r, id) == RejectionsOf(r, id) + added
  {
  }

  lemma {:induction false} LegalSplit(used: set<string>, r: Relay, evs: seq<Event>, ev: Event, id: string) returns (after: set<string>)
    requires RelayOk(r) && UsedOk(r, used) && Legal(used, evs + [ev])
    ensures RelayOk(Run(r, evs).r) && UsedOk(Run(r, evs).r, after) && Permitted(after, ev) && Legal(used, evs)
    ensures RejectsIn(r, evs + [ev], id) == RejectsIn(r, evs, id) + Rejected(Run(r, evs).r, ev, id)
    decreases |evs|
  {
    hide RelayOk, UsedOk, Step, InviteQueued, Rejected, Permitted;
    if evs == [] {
      assert [] + [ev] == [ev] && [ev][1..] == [];
      assert RejectsIn(r, [ev], id) == Rejected(r, ev, id) + [];
      after := used;
    } else {
      assert (evs + [ev])[1..] == evs[1..] + [ev];
      StepIds(r, used, evs[0]);
      after := LegalSplit(used + NewIds(evs[0]), Step(r, evs[0]).r, evs[1..], ev, id);
    }
  }

  /**
   * In every run with fresh ids, whatever reject of a session the relay forwards at any event is the earliest of the most
   * informative of all the rejects the session's attempt received from its outstanding legs up to then.
   */
  lemma ForwardedIsBestReceived(r: Relay, used: set<string>, evs: seq<Event>, ev: Event, id: string, e: Emission)
    requires RelayOk(r) && UsedOk(r, used) && Legal(used, evs + [ev]) && id !in r.attempts
    requires e in Step(Run(r, evs).r, ev).emit && Rejects(e, id)
    ensures IsBest(e, RejectsIn(r, evs + [ev], id))
  {
    hide RelayOk, UsedOk, Step, InviteQueued, Rejected, IsBest;
    var after := LegalSplit(used, r, evs, ev, id);
    var q := Run(r, evs).r;
    RejectionsAreReceived(r, used, evs, id);
    StepIds(q, after, ev);
    StepRecords(q, ev, id);
    assert IsBest(e, RejectionsOf(q, id) + Rejected(q, ev, id));
    if id in q.attempts {
      assert [] + RejectsIn(r, evs, id) == RejectsIn(r, evs, id);
    } else {
      NothingRejected(q, ev, id);
      BestOfSome(e, [] + []);
    }
  }

  lemma BestOfSome(e: Emission, rs: seq<Rejection>)
    ensures IsBest(e, rs) ==> rs != []
  {
  }

  /**
   * What a run with fresh ids leaves: every outcome is what the legs say, each session was signalled at most once, and
   * every attempt has the rejections it had and the rejects received since.
   */
  ghost predicate RunLaw(r: Relay, evs: seq<Event>, s: RelayStep) {
    && RelayOk(s.r) && (forall id :: CountSignals(s.emit, id) <= 1)
    && forall id :: id in s.r.attempts ==> s.r.attempts[id].rejections == RejectionsOf(r, id) + RejectsIn(r, evs, id)
  }

  lemma EveryRunLawful(r: Relay, used: set<string>, evs: seq<Event>)
    requires RelayOk(r) && UsedOk(r, used) && Relays.Legal(used, evs)
    ensures RunLaw(r, evs, Run(r, evs))
  {
    hide RelayOk, UsedOk, Relays.Legal, Run, RejectsIn, CountSignals, RejectionsOf;
    AtMostOneSignal(r, used, evs, "");
    forall id ensures CountSignals(Run(r, evs).emit, id) <= 1 { AtMostOneSignal(r, used, evs, id); }
    forall id | id in Run(r, evs).r.attempts
      ensures Run(r, evs).r.attempts[id].rejections == RejectionsOf(r, id) + RejectsIn(r, evs, id)
    {
      RejectionsAreReceived(r, used, evs, id);
    }
  }
}
