/**
 * The `Relay` object of `relay.ts`: bindings, attempts and the held queue updated in place, loop by loop, each method
 * against the function of `Relays` that says what it does to the relay as a value.
 */
module RelayObject {
  import opened Prelude
  import opened Calls
  import opened Relays
  import Rejections

  class RelayObject {
    const retention: int
    var now: int
    var bound: map<string, string>
    var known: set<string>
    var lastUnbound: map<string, int>
    var attempts: map<string, Attempt>
    var queue: seq<Queued>
    var emit: seq<Emission>

    /** The relay as a value. */
    ghost function View(): Relay
      reads this
    {
      Relay(now, retention, bound, known, lastUnbound, attempts, queue)
    }

    /** The relay and what was emitted since, as one result. */
    twostate predicate Became(s: RelayStep)
      reads this
    {
      View() == s.r && emit == old(emit) + s.emit
    }

    constructor (start: int, retention: int)
      ensures View() == Relay(start, retention, map[], {}, map[], map[], []) && emit == []
    {
      now, this.retention := start, retention;
      bound, known, lastUnbound, attempts, queue, emit := map[], {}, map[], map[], [], [];
    }

    method Say(e: Emission)
      modifies this`emit
      ensures emit == old(emit) + [e]
    {
      emit := emit + [e];
    }

    // ---- attempts

    /** The attempt has come out as `s` says, and everything else is as it was. */
    twostate predicate Took(session: string, s: AttemptStep)
      reads this
    {
      attempts == old(attempts)[session := s.a] && emit == old(emit) + s.emit
    }

    method AddLeg(session: string, leg: string)
      requires session in attempts
      modifies this`attempts, this`emit
      ensures Took(session, AttemptStep(WithLeg(old(attempts[session]), leg, now), [DeliverInvite(leg, session)]))
    {
      var a := attempts[session];
      attempts := attempts[session := a.(legs := a.legs[leg := Delivered], touched := now)];
      Say(DeliverInvite(leg, session));
    }

    method ForkTo(session: string, from: string, to: string, legs: seq<string>, expires: Option<int>)
      modifies this`attempts, this`emit
      ensures Became(Fork(old(View()), session, from, to, legs, expires))
    {
      var a := Attempt(from, to, expires, map[], Open, [], now, {});
      attempts := attempts[session := a];
      for i := 0 to |legs|
        invariant session in attempts && Took(session, ForkLegs(session, a, legs[..i], now))
      {
        assert legs[..i + 1][..i] == legs[..i];
        AddLeg(session, legs[i]);
      }
      assert legs[..|legs|] == legs;
    }

    method BestOf(rs: seq<Rejection>) returns (best: nat)
      requires rs != []
      ensures best == Best(rs)
    {
      best := 0;
      for i := 1 to |rs|
        invariant best == Best(rs[..i])
      {
        assert rs[..i + 1][..i] == rs[..i];
        if InformRank(rs[i].reason) < InformRank(rs[best].reason) { best := i; }
      }
      assert rs[..|rs|] == rs;
    }

    /** When the last outstanding leg ends without an answer, the attempt's outcome is signalled. */
    method EndLeg(session: string, leg: string, state: LegState)
      requires session in attempts
      modifies this`attempts, this`emit
      ensures Took(session, LegEnded(session, old(attempts[session]), leg, state))
    {
      var a := attempts[session];
      if leg !in a.legs || a.legs[leg] != Delivered { return; }
      a := a.(legs := a.legs[leg := state]);
      attempts := attempts[session := a];
      if a.outcome != Open || SomeLeg(a.legs, Delivered) { return; }
      if a.rejections != [] {
        var i := BestOf(a.rejections);
        var best := a.rejections[i];
        attempts := attempts[session := a.(outcome := OfReject)];
        Say(Forward(a.from, session, best.leg, Reject(best.reason, None)));
      } else {
        attempts := attempts[session := a.(outcome := OfSilence)];
        Say(NoResponse(a.from, session));
      }
    }

    method OnLeg(session: string, m: Message)
      requires session in attempts && m.from in attempts[session].legs && LegSpeaks(m.body)
      modifies this`attempts, this`emit
      ensures Took(session, FromLeg(session, old(attempts[session]), now, m))
    {
      hide LegEnded;
      var leg := m.from;
      var a := attempts[session];
      a := a.(touched := now, heard := a.heard + {leg});
      attempts := attempts[session := a];
      var state := a.legs[leg];
      if m.body.Answer? {
        if state == Delivered {
          a := a.(legs := a.legs[leg := LegAnswered]);
          if a.outcome == Open { a := a.(outcome := OfAnswer); }
          attempts := attempts[session := a];
        }
        Say(Forward(a.from, session, leg, m.body));
      } else if state != Delivered {
        Say(DropTerminated);
      } else if m.body.Progress? {
        Say(Forward(a.from, session, leg, m.body));
      } else {
        attempts := attempts[session := a.(rejections := a.rejections + [Rejection(leg, m.body.reason)])];
        EndLeg(session, leg, LegRejected);
      }
    }

    method CancelLegs(session: string, a0: Attempt, target: Option<string>, reason: string, legs: seq<string>)
      returns (a: Attempt)
      modifies this`emit
      ensures var s := CancelEach(session, a0, target, reason, legs); a == s.a && emit == old(emit) + s.emit
    {
      hide Cancels;
      a := a0;
      ghost var told: seq<Emission> := [];
      for i := 0 to |legs|
        invariant AttemptStep(a, told) == CancelEach(session, a0, target, reason, legs[..i]) && emit == old(emit) + told
        invariant a.legs.Keys == a0.legs.Keys
      {
        assert legs[..i + 1][..i] == legs[..i];
        if Cancels(a, target, legs[i]) {
          CancelsHeld(a, target, legs[i]);
          a := a.(legs := a.legs[legs[i] := LegCancelled]);
          Say(DeliverCancel(legs[i], session, reason));
          told := told + [DeliverCancel(legs[i], session, reason)];
        }
      }
      assert legs[..|legs|] == legs;
    }

    lemma CancelsHeld(a: Attempt, target: Option<string>, leg: string)
      requires Cancels(a, target, leg)
      ensures leg in a.legs
    {
    }

    /** The cancel goes to every leg that has not terminated, in device order. */
    method Withdraw(session: string, target: Option<string>, reason: string)
      requires session in attempts
      modifies this`attempts, this`emit
      ensures Took(session, CancelAttempt(session, old(attempts[session]), now, target, reason))
    {
      hide CancelEach;
      var a := attempts[session].(touched := now);
      var legs := SortKeys(a.legs.Keys);
      a := CancelLegs(session, a, target, reason, legs);
      if a.outcome == Open && !SomeLeg(a.legs, Delivered) { a := a.(outcome := OfCancel); }
      attempts := attempts[session := a];
    }

    method ExpireLeg(session: string, leg: string)
      requires session in attempts
      modifies this`attempts, this`emit
      ensures Took(session, if Silent(old(attempts[session]), leg) then LegEnded(session, old(attempts[session]), leg, LegExpired)
                            else AttemptStep(old(attempts[session]), []))
    {
      hide LegEnded, Silent;
      if Silent(attempts[session], leg) { EndLeg(session, leg, LegExpired); }
    }

    lemma ExpireNext(session: string, a0: Attempt, legs: seq<string>, i: nat)
      requires i < |legs|
      ensures var r := ExpireEach(session, a0, legs[..i]);
        var e := if Silent(r.a, legs[i]) then LegEnded(session, r.a, legs[i], LegExpired) else AttemptStep(r.a, []);
        ExpireEach(session, a0, legs[..i + 1]) == AttemptStep(e.a, r.emit + e.emit)
    {
      assert legs[..i + 1][..i] == legs[..i];
    }

    method ExpireLegs(session: string, legs: seq<string>)
      requires session in attempts
      modifies this`attempts, this`emit
      ensures Took(session, ExpireEach(session, old(attempts[session]), legs))
    {
      hide LegEnded, Silent, ExpireEach;
      ghost var a0 := attempts[session];
      ghost var r := AttemptStep(a0, []);
      assert r == ExpireEach(session, a0, legs[..0]) by { NoneExpired(session, a0); }
      for i := 0 to |legs|
        invariant session in attempts && Took(session, r) && attempts[session] == r.a
        invariant r == ExpireEach(session, a0, legs[..i])
      {
        ExpireNext(session, a0, legs, i);
        ghost var e := if Silent(r.a, legs[i]) then LegEnded(session, r.a, legs[i], LegExpired) else AttemptStep(r.a, []);
        ExpireLeg(session, legs[i]);
        r := AttemptStep(e.a, r.emit + e.emit);
      }
      assert legs[..|legs|] == legs;
    }

    lemma NoneExpired(session: string, a: Attempt)
      ensures ExpireEach(session, a, []) == AttemptStep(a, [])
    {
    }

    /** Silent legs expire with the invite, in device order. */
    method ExpireSilent(session: string)
      requires session in attempts
      modifies this`attempts, this`emit
      ensures Took(session, Relays.ExpireAttempt(session, old(attempts[session]), now))
    {
      hide ExpireEach;
      var a := attempts[session];
      if a.expires.None? || now < a.expires.value { return; }
      var legs := SortKeys(a.legs.Keys);
      ExpireLegs(session, legs);
    }

    // ---- routing

    method DevicesFor(identity: string) returns (devices: seq<string>)
      ensures devices == Sorted(DevicesOf(View(), identity))
      ensures devices == [] <==> DevicesOf(View(), identity) == {}
    {
      var s := set d | d in bound && bound[d] == identity;
      assert s == DevicesOf(View(), identity);
      devices := SortKeys(s);
    }

    method Park(to: string, env: Envelope)
      modifies this`queue, this`emit
      ensures Became(Hold(old(View()), to, env))
    {
      var until := now + retention;
      if env.expiresAt.Some? { until := Min(env.expiresAt.value, until); }
      queue := queue + [Parked(to, env, until)];
      Say(QueuedFor(to, env));
    }

    method DeliverAll(env: Envelope, legs: seq<string>)
      modifies this`emit
      ensures Became(RelayStep(old(View()), DeliverEach(env, legs)))
    {
      for i := 0 to |legs|
        invariant emit == old(emit) + DeliverEach(env, legs[..i])
      {
        assert DeliverEach(env, legs[..i + 1]) == DeliverEach(env, legs[..i]) + [Deliver(legs[i], env)];
        Say(Deliver(legs[i], env));
      }
      assert legs[..|legs|] == legs;
    }

    method RouteOn(env: Envelope)
      modifies this`queue, this`emit
      ensures Became(Route(old(View()), env))
    {
      var to := ToOf(env);
      if to in bound {
        Say(Deliver(to, env));
        return;
      }
      var devices := DevicesFor(to);
      if devices != [] {
        DeliverAll(env, devices);
      } else if to in known {
        Park(to, env);
      } else {
        Say(UnknownRecipient(Sender(env), EnvelopeId(env)));
      }
    }

    method RecvInvite(env: Envelope)
      requires IsInvite(env)
      modifies this
      ensures Became(Relays.OnInvite(old(View()), env))
    {
      var to := ToOf(env);
      var devices := DevicesFor(to);
      if devices != [] {
        ForkTo(env.m.session, env.m.from, to, devices, env.expiresAt);
      } else if to in known {
        Park(to, env);
      } else {
        Say(UnknownRecipient(env.m.from, env.m.id));
      }
    }

    method RecvIntroduction(env: Envelope)
      modifies this
      ensures Became(OnIntroduction(old(View()), env))
    {
      var devices := DevicesFor(ToOf(env));
      if devices == [] { Park(ToOf(env), env); } else { DeliverAll(env, devices); }
    }

    /** A withdrawn invite that was never delivered leaves the queue, and so does its cancel. */
    method Unqueue(env: Envelope)
      requires env.CallEnvelope?
      modifies this`queue, this`emit
      ensures queue == DropWithdrawn(old(queue), env).0 && emit == old(emit) + DropWithdrawn(old(queue), env).1
    {
      var all, kept := queue, [];
      for i := 0 to |all|
        invariant kept == DropWithdrawn(all[..i], env).0 && emit == old(emit) + DropWithdrawn(all[..i], env).1
      {
        assert all[..i + 1][..i] == all[..i];
        if WithdrawnBy(all[i], env) { Say(Dequeued(all[i].to, all[i].env, "cancelled")); } else { kept := kept + [all[i]]; }
      }
      assert all[..|all|] == all;
      queue := kept;
    }

    method RecvCall(env: Envelope)
      requires env.CallEnvelope? && !IsInvite(env)
      modifies this
      ensures Became(OnCall(old(View()), env))
    {
      hide FromLeg, Route, DropWithdrawn, WithdrawnBy;
      var m := env.m;
      if m.session in attempts && m.body.Cancel? && m.from == attempts[m.session].from {
        if CancelIsFor(attempts[m.session], env) {
          Withdraw(m.session, env.to, m.body.reason);
        } else {
          RouteOn(env);
        }
      } else if m.body.Cancel? && (exists q :: q in queue && WithdrawnBy(q, env)) {
        Unqueue(env);
      } else if m.session in attempts && m.from in attempts[m.session].legs && LegSpeaks(m.body) {
        OnLeg(m.session, m);
      } else {
        RouteOn(env);
      }
    }

    method Recv(env: Envelope)
      modifies this
      ensures Became(OnEnvelope(old(View()), env))
    {
      hide OnIntroduction, Relays.OnInvite, OnCall;
      if env.Introduction? {
        RecvIntroduction(env);
      } else if IsInvite(env) {
        RecvInvite(env);
      } else {
        RecvCall(env);
      }
    }

    // ---- binding

    /** Takes what was held for the identity or the device out of the queue. */
    method TakeMine(device: string, identity: string) returns (mine: seq<Queued>)
      modifies this`queue
      ensures mine == QueueFor(old(queue), device, identity, true) && queue == QueueFor(old(queue), device, identity, false)
    {
      var all, rest: seq<Queued> := queue, [];
      mine := [];
      for i := 0 to |all|
        invariant mine == QueueFor(all[..i], device, identity, true) && rest == QueueFor(all[..i], device, identity, false)
      {
        assert all[..i + 1][..i] == all[..i];
        if Mine(all[i], device, identity) { mine := mine + [all[i]]; } else { rest := rest + [all[i]]; }
      }
      assert all[..|all|] == all;
      queue := rest;
    }

    method FlushOne(device: string, identity: string, env: Envelope)
      modifies this`attempts, this`emit
      ensures Became(if IsInvite(env) then Fork(old(View()), env.m.session, env.m.from, identity, [device], env.expiresAt)
                     else RelayStep(old(View()), [Deliver(device, env)]))
    {
      if IsInvite(env) {
        ForkTo(env.m.session, env.m.from, identity, [device], env.expiresAt);
      } else {
        Say(Deliver(device, env));
      }
    }

    method Flush(device: string, identity: string, mine: seq<Queued>) returns (flushed: set<string>)
      modifies this`attempts, this`emit
      ensures Became(FlushEach(old(View()), device, identity, mine)) && flushed == Flushed(mine)
    {
      hide Fork;
      flushed := {};
      for i := 0 to |mine|
        invariant Became(FlushEach(old(View()), device, identity, mine[..i])) && flushed == Flushed(mine[..i])
      {
        assert mine[..i + 1][..i] == mine[..i];
        var env := mine[i].env;
        FlushOne(device, identity, env);
        FlushedOneMore(mine, i);
        if IsInvite(env) { flushed := flushed + {env.m.session}; }
      }
      assert mine[..|mine|] == mine;
    }

    lemma FlushedOneMore(mine: seq<Queued>, i: nat)
      requires i < |mine|
      ensures Flushed(mine[..i + 1]) ==
        Flushed(mine[..i]) + if IsInvite(mine[i].env) then {mine[i].env.m.session} else {}
    {
      var one, more := Flushed(mine[..i]), Flushed(mine[..i + 1]);
      forall x | x in more ensures x in one || (IsInvite(mine[i].env) && x == mine[i].env.m.session) {
        var j :| 0 <= j < i + 1 && IsInvite(mine[..i + 1][j].env) && mine[..i + 1][j].env.m.session == x;
        assert j < i ==> mine[..i][j] == mine[j];
      }
      forall x | x in one ensures x in more {
        var j :| 0 <= j < i && IsInvite(mine[..i][j].env) && mine[..i][j].env.m.session == x;
        assert mine[..i + 1][j] == mine[j];
      }
      assert mine[..i + 1][i] == mine[i];
    }

    ghost function JoinedOne(r: Relay, device: string, identity: string, flushed: set<string>, id: string): RelayStep {
      if id in r.attempts && id !in flushed && Joins(r.attempts[id], r.now, device, identity) then
        RelayStep(r.(attempts := r.attempts[id := WithLeg(r.attempts[id], device, r.now)]), [DeliverInvite(device, id)])
      else RelayStep(r, [])
    }

    method JoinOne(device: string, identity: string, flushed: set<string>, id: string)
      modifies this`attempts, this`emit
      ensures Became(JoinedOne(old(View()), device, identity, flushed, id))
    {
      hide WithLeg;
      if id in attempts && id !in flushed && Joins(attempts[id], now, device, identity) { AddLeg(id, device); }
    }

    ghost function Followed(s: RelayStep, t: RelayStep): RelayStep {
      RelayStep(t.r, s.emit + t.emit)
    }

    lemma JoinNext(r: Relay, device: string, identity: string, flushed: set<string>, ids: seq<string>, i: nat)
      requires i < |ids|
      ensures var s := JoinEach(r, device, identity, flushed, ids[..i]);
        JoinEach(r, device, identity, flushed, ids[..i + 1]) ==
        Followed(s, JoinedOne(s.r, device, identity, flushed, ids[i]))
    {
      hide WithLeg, Joins;
      assert ids[..i + 1][..i] == ids[..i];
    }

    lemma NoneJoined(r: Relay, device: string, identity: string, flushed: set<string>)
      ensures JoinEach(r, device, identity, flushed, []) == RelayStep(r, [])
    {
    }

    method JoinThese(device: string, identity: string, flushed: set<string>, ids: seq<string>)
      modifies this`attempts, this`emit
      ensures Became(JoinEach(old(View()), device, identity, flushed, ids))
    {
      hide JoinedOne, JoinEach;
      ghost var r := View();
      ghost var s := RelayStep(r, []);
      NoneJoined(r, device, identity, flushed);
      for i := 0 to |ids|
        invariant Became(s) && s == JoinEach(r, device, identity, flushed, ids[..i])
      {
        JoinNext(r, device, identity, flushed, ids, i);
        JoinOne(device, identity, flushed, ids[i]);
        s := Followed(s, JoinedOne(s.r, device, identity, flushed, ids[i]));
      }
      assert ids[..|ids|] == ids;
    }

    /** A device that binds while an attempt is live becomes a leg of it; several live attempts in id order. */
    method JoinLive(device: string, identity: string, flushed: set<string>)
      modifies this`attempts, this`emit
      ensures Became(JoinEach(old(View()), device, identity, flushed, Sorted(old(attempts).Keys)))
    {
      var ids := SortKeys(attempts.Keys);
      JoinThese(device, identity, flushed, ids);
    }

    /** The binding is in place and what was held has been flushed. */
    method BindAndFlush(device: string, identity: string) returns (flushed: set<string>)
      modifies this
      ensures var mine, r := QueueFor(old(queue), device, identity, true), old(View());
        && flushed == Flushed(mine)
        && Became(FlushEach(r.(bound := r.bound[device := identity], known := r.known + {device, identity},
                               queue := QueueFor(r.queue, device, identity, false)), device, identity, mine))
    {
      hide FlushEach, Flushed, QueueFor;
      bound, known := bound[device := identity], known + {device, identity};
      var mine := TakeMine(device, identity);
      flushed := Flush(device, identity, mine);
    }

    method BindDevice(device: string, identity: string)
      modifies this
      ensures Became(Bind(old(View()), device, identity))
    {
      hide FlushEach, JoinEach, Flushed, QueueFor;
      var flushed := BindAndFlush(device, identity);
      JoinLive(device, identity, flushed);
    }

    method UnbindDevice(device: string)
      modifies this
      ensures Became(RelayStep(Unbind(old(View()), device), []))
    {
      if device !in bound { return; }
      var identity := bound[device];
      bound, lastUnbound := bound - {device}, lastUnbound[device := now];
      var left := DevicesFor(identity);
      if left == [] { lastUnbound := lastUnbound[identity := now]; }
    }

    // ---- the clock

    method SayExpired(all: seq<Queued>, to: string)
      modifies this`emit
      ensures emit == old(emit) + ExpiredFor(all, now, to)
    {
      for i := 0 to |all|
        invariant emit == old(emit) + ExpiredFor(all[..i], now, to)
      {
        assert all[..i + 1][..i] == all[..i];
        if all[i].until <= now && all[i].to == to { Say(Dequeued(to, all[i].env, "expired")); }
      }
      assert all[..|all|] == all;
    }

    method DropExpired()
      modifies this`queue
      ensures queue == StillQueued(old(queue), now)
    {
      var all, left: seq<Queued> := queue, [];
      for i := 0 to |all|
        invariant left == StillQueued(all[..i], now)
      {
        assert all[..i + 1][..i] == all[..i];
        if now < all[i].until { left := left + [all[i]]; }
      }
      assert all[..|all|] == all;
      queue := left;
    }

    method SayEach(all: seq<Queued>, tos: seq<string>)
      modifies this`emit
      ensures emit == old(emit) + ExpiredByRecipient(all, now, tos)
    {
      hide ExpiredFor;
      for i := 0 to |tos|
        invariant emit == old(emit) + ExpiredByRecipient(all, now, tos[..i])
      {
        assert tos[..i + 1][..i] == tos[..i];
        SayExpired(all, tos[i]);
      }
      assert tos[..|tos|] == tos;
    }

    /** What has expired leaves the queue, reported in recipient order and then in the order it was queued. */
    method ExpireQueue()
      modifies this`queue, this`emit
      ensures queue == StillQueued(old(queue), now)
      ensures emit == old(emit) + ExpiredByRecipient(old(queue), now, Sorted(set i | 0 <= i < |old(queue)| :: old(queue)[i].to))
    {
      hide StillQueued, ExpiredByRecipient;
      var all := queue;
      DropExpired();
      var tos := SortKeys(set i | 0 <= i < |all| :: all[i].to);
      SayEach(all, tos);
    }

    ghost function ExpiredOne(r: Relay, id: string): RelayStep {
      if id in r.attempts then
        var e := Relays.ExpireAttempt(id, r.attempts[id], r.now);
        RelayStep(r.(attempts := r.attempts[id := e.a]), e.emit)
      else RelayStep(r, [])
    }

    lemma ExpireSame(r: Relay, ids: seq<string>)
      ensures ExpireAttempts(r, ids).r.now == r.now
    {
      if ids != [] { ExpireSame(r, ids[..|ids| - 1]); }
    }

    lemma ExpireNextAttempt(r: Relay, ids: seq<string>, i: nat)
      requires i < |ids|
      ensures var s := ExpireAttempts(r, ids[..i]); ExpireAttempts(r, ids[..i + 1]) == Followed(s, ExpiredOne(s.r, ids[i]))
    {
      hide Relays.ExpireAttempt;
      assert ids[..i + 1][..i] == ids[..i];
      ExpireSame(r, ids[..i]);
    }

    method ExpireOne(id: string)
      modifies this`attempts, this`emit
      ensures Became(ExpiredOne(old(View()), id))
    {
      hide Relays.ExpireAttempt;
      if id in attempts { ExpireSilent(id); }
    }

    lemma NoneExpiredYet(r: Relay)
      ensures ExpireAttempts(r, []) == RelayStep(r, [])
    {
    }

    method ExpireThese(ids: seq<string>)
      modifies this`attempts, this`emit
      ensures Became(ExpireAttempts(old(View()), ids))
    {
      hide ExpiredOne, ExpireAttempts;
      ghost var r := View();
      ghost var s := RelayStep(r, []);
      NoneExpiredYet(r);
      for i := 0 to |ids|
        invariant Became(s) && s == ExpireAttempts(r, ids[..i])
      {
        ExpireNextAttempt(r, ids, i);
        ExpireOne(ids[i]);
        s := Followed(s, ExpiredOne(s.r, ids[i]));
      }
      assert ids[..|ids|] == ids;
    }

    method ExpireAll()
      modifies this`attempts, this`emit
      ensures Became(ExpireAttempts(old(View()), Sorted(old(attempts).Keys)))
    {
      var ids := SortKeys(attempts.Keys);
      ExpireThese(ids);
    }

    method ForgetAttempts()
      modifies this`attempts
      ensures attempts == Relays.Forget(old(View())).attempts
    {
      var todo := attempts.Keys;
      while todo != {}
        invariant todo <= attempts.Keys <= old(attempts).Keys
        invariant forall id :: id in attempts ==> attempts[id] == old(attempts)[id]
        invariant forall id :: id in old(attempts) && id !in todo ==> (id in attempts <==> !Idle(old(attempts)[id], now))
        decreases todo
      {
        var id :| id in todo;
        if Idle(attempts[id], now) { attempts := attempts - {id}; }
        todo := todo - {id};
      }
    }

    method ForgetRecipients()
      modifies this`known, this`lastUnbound
      ensures known == Relays.Forget(old(View())).known && lastUnbound == Relays.Forget(old(View())).lastUnbound
    {
      ghost var r := View();
      var todo := known;
      while todo != {}
        invariant todo <= known <= r.known && lastUnbound.Keys <= r.lastUnbound.Keys
        invariant forall x :: x in lastUnbound ==> lastUnbound[x] == r.lastUnbound[x]
        invariant forall x :: x in todo ==> (x in lastUnbound <==> x in r.lastUnbound)
        invariant forall x :: x in r.known && x !in todo ==> (x in known <==> !Forgettable(r, x))
        invariant forall x :: x in r.lastUnbound && x !in todo ==>
                    (x in lastUnbound <==> !(x in r.known && Forgettable(r, x)))
        decreases todo
      {
        var x :| x in todo;
        var inUse := x in bound || x in bound.Values || (exists i :: 0 <= i < |queue| && queue[i].to == x);
        if !inUse && x in lastUnbound && retention < now - lastUnbound[x] {
          known := known - {x};
          lastUnbound := lastUnbound - {x};
        }
        todo := todo - {x};
      }
    }

    method ForgetAll()
      modifies this`attempts, this`known, this`lastUnbound
      ensures View() == Relays.Forget(old(View()))
    {
      ghost var r := View();
      ForgetAttempts();
      ForgetElsewhere(r, View());
      hide Forgettable;
      ForgetRecipients();
    }

    method Advance(seconds: nat)
      modifies this
      ensures Became(Elapse(old(View()), seconds))
    {
      hide StillQueued, ExpiredByRecipient, ExpireAttempts, Relays.Forget, Sorted;
      now := now + seconds;
      ExpireQueue();
      ExpireAll();
      ForgetAll();
    }

    /** What is forgotten of recipients does not depend on what was forgotten of attempts. */
    lemma ForgetElsewhere(r: Relay, s: Relay)
      requires s == r.(attempts := s.attempts)
      ensures Relays.Forget(s).known == Relays.Forget(r).known && Relays.Forget(s).lastUnbound == Relays.Forget(r).lastUnbound
    {
      assert forall x :: Forgettable(s, x) == Forgettable(r, x);
    }

    // ---- runs

    method LegExpiry(session: string, leg: string)
      modifies this`attempts, this`emit
      ensures Became(Relays.Step(old(View()), LegExpiredEvent(session, leg)))
    {
      hide LegEnded;
      if session in attempts { EndLeg(session, leg, LegExpired); }
    }

    /** One trace event and what it emits. */
    method Step(ev: Event) returns (out: seq<Emission>)
      modifies this
      ensures RelayStep(View(), out) == Relays.Step(old(View()), ev)
    {
      hide Elapse, OnEnvelope, Fork, Bind, Unbind, LegEnded;
      emit := [];
      match ev {
        case Elapsed(seconds) => Advance(seconds);
        case Received(env) => Recv(env);
        case InviteEvent(session, from, to, legs) => ForkTo(session, from, to, legs, None);
        case LegExpiredEvent(session, leg) => LegExpiry(session, leg);
        case BindEvent(device, identity) => BindDevice(device, identity);
        case UnbindEvent(device) => UnbindDevice(device);
      }
      out := emit;
    }

    lemma NoRun(r: Relay, evs: seq<Event>)
      requires evs == []
      ensures Relays.Run(r, evs) == RelayStep(r, [])
    {
    }

    lemma RunUnfolds(r: Relay, evs: seq<Event>, i: nat, out: seq<Emission>)
      requires i < |evs|
      ensures var s := Relays.Step(r, evs[i]);
        && Relays.Run(r, evs[i..]).r == Relays.Run(s.r, evs[i + 1..]).r
        && out + Relays.Run(r, evs[i..]).emit == (out + s.emit) + Relays.Run(s.r, evs[i + 1..]).emit
    {
      hide Relays.Step;
      assert evs[i..][0] == evs[i] && evs[i..][1..] == evs[i + 1..];
    }

    /**
     * Every run of the object is a run of the value: with fresh ids, each attempt's outcome is what its legs say, at most
     * one outcome is signalled per session, and an attempt's rejections are the rejects received from outstanding legs.
     */
    method Play(evs: seq<Event>, ghost used: set<string>) returns (out: seq<Emission>)
      requires RelayOk(View()) && UsedOk(View(), used) && Legal(used, evs)
      modifies this
      ensures RelayStep(View(), out) == Relays.Run(old(View()), evs)
      ensures Rejections.RunLaw(old(View()), evs, RelayStep(View(), out))
    {
      hide Relays.Step, Relays.Run, RelayOk, UsedOk, Legal, Rejections.RunLaw;
      Rejections.EveryRunLawful(View(), used, evs);
      out := [];
      ghost var r := View();
      assert evs[0..] == evs;
      assert [] + Relays.Run(r, evs).emit == Relays.Run(r, evs).emit;
      for i := 0 to |evs|
        invariant View() == r
        invariant Relays.Run(old(View()), evs) == RelayStep(Relays.Run(r, evs[i..]).r, out + Relays.Run(r, evs[i..]).emit)
      {
        RunUnfolds(r, evs, i, out);
        var one := Step(evs[i]);
        r := Relays.Step(r, evs[i]).r;
        out := out + one;
      }
      NoRun(r, evs[|evs|..]);
      assert out + [] == out;
    }
  }
}
