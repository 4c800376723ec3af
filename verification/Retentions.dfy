/**
 * What time does to the relay of `relay.ts`, and what holds over its runs: everything held is delivered, reported or still held,
 * and a recipient is known for as long as something is bound or held for it and retention has not passed since.
 */
module Retentions {
  import opened Prelude
  import opened Calls
  import opened Relays
  import opened Deliveries

  // ---- what is reported as expired

  /** Those reports that name a recipient. */
  function OnlyTo(told: seq<Emission>, to: string): seq<Emission>
    requires forall e :: e in told ==> e.Dequeued?
  {
    if told == [] then [] else (if told[0].to == to then [told[0]] else []) + OnlyTo(told[1..], to)
  }

  /** A recipient's reports, in the order its envelopes were held. */
  function ReportsTo(gone: seq<Queued>, to: string): seq<Emission> {
    if gone == [] then []
    else (if gone[0].to == to then [Dequeued(to, gone[0].env, "expired")] else []) + ReportsTo(gone[1..], to)
  }

  /** Everything overdue is reported, by recipient and in the queue's order. */
  ghost predicate ReportedSo(gone: seq<Queued>, told: seq<Emission>) {
    && (forall e :: e in told ==> e.Dequeued?)
    && (forall i, j :: 0 <= i < j < |told| ==> told[i].to == told[j].to || Less(told[i].to, told[j].to))
    && forall to :: OnlyTo(told, to) == ReportsTo(gone, to)
  }

  lemma {:induction false} ReportsAppend(a: seq<Queued>, b: seq<Queued>, to: string)
    ensures ReportsTo(a + b, to) == ReportsTo(a, to) + ReportsTo(b, to)
  {
    if a == [] {
      assert a + b == b;
    } else {
      ReportsAppend(a[1..], b, to);
      assert (a + b)[1..] == a[1..] + b;
      var first := if a[0].to == to then [Dequeued(to, a[0].env, "expired")] else [];
      assert first + (ReportsTo(a[1..], to) + ReportsTo(b, to)) == first + ReportsTo(a[1..], to) + ReportsTo(b, to);
    }
  }

  lemma {:induction false} OnlyAppend(a: seq<Emission>, b: seq<Emission>, to: string)
    requires (forall e :: e in a ==> e.Dequeued?) && forall e :: e in b ==> e.Dequeued?
    ensures OnlyTo(a + b, to) == OnlyTo(a, to) + OnlyTo(b, to)
  {
    if a == [] {
      assert a + b == b;
    } else {
      OnlyAppend(a[1..], b, to);
      assert (a + b)[1..] == a[1..] + b;
    }
  }

  lemma {:induction false} ExpiredForIs(queue: seq<Queued>, now: int, to: string)
    ensures ExpiredFor(queue, now, to) == ReportsTo(Those(queue, Overdue(now)), to)
    ensures forall e :: e in ExpiredFor(queue, now, to) ==> e.Dequeued? && e.to == to
  {
    if queue != [] {
      var front, q := queue[..|queue| - 1], queue[|queue| - 1];
      ExpiredForIs(front, now, to);
      OneMore(front, q, Overdue(now));
      assert queue == front + [q];
      ReportsAppend(Those(front, Overdue(now)), if q.until <= now then [q] else [], to);
      OneReport(q, to);
    }
  }

  lemma OneReport(q: Queued, to: string)
    ensures ReportsTo([q], to) == (if q.to == to then [Dequeued(to, q.env, "expired")] else []) && ReportsTo([], to) == []
  {
  }

  lemma {:induction false} OnlySame(told: seq<Emission>, to: string, x: string)
    requires forall e :: e in told ==> e.Dequeued? && e.to == to
    ensures OnlyTo(told, x) == if x == to then told else []
  {
    if told != [] { OnlySame(told[1..], to, x); }
  }

  lemma {:induction false} ExpiredListFor(queue: seq<Queued>, now: int, tos: seq<string>)
    requires forall i, j :: 0 <= i < j < |tos| ==> Less(tos[i], tos[j])
    ensures var told := ExpiredByRecipient(queue, now, tos);
            && (forall e :: e in told ==> e.Dequeued? && e.to in tos)
            && (forall i, j :: 0 <= i < j < |told| ==> told[i].to == told[j].to || Less(told[i].to, told[j].to))
  {
    hide Less, ExpiredFor;
    if tos != [] {
      var front, to := tos[..|tos| - 1], tos[|tos| - 1];
      assert tos == front + [to];
      ExpiredListFor(queue, now, front);
      ExpiredForIs(queue, now, to);
      forall x | x in front ensures Less(x, to) {
        var i :| 0 <= i < |front| && front[i] == x;
        assert tos[i] == x;
      }
    }
  }

  lemma {:induction false} ExpiredListIs(queue: seq<Queued>, now: int, tos: seq<string>, x: string)
    requires forall i, j :: 0 <= i < j < |tos| ==> Less(tos[i], tos[j])
    ensures var told := ExpiredByRecipient(queue, now, tos);
            && (forall e :: e in told ==> e.Dequeued?) && OnlyTo(told, x) == if x in tos then ReportsTo(Those(queue, Overdue(now)), x) else []
  {
    hide Less, ReportsTo, Those, ExpiredFor, OnlyTo;
    ExpiredListFor(queue, now, tos);
    if tos == [] {
      OnlySame([], x, x);
    } else {
      var front, to := tos[..|tos| - 1], tos[|tos| - 1];
      assert tos == front + [to];
      LastIsNew(tos);
      ExpiredListIs(queue, now, front, x);
      var a, b := ExpiredByRecipient(queue, now, front), ExpiredFor(queue, now, to);
      ExpiredForIs(queue, now, to);
      OnlyAppend(a, b, x);
      OnlySame(b, to, x);
      assert OnlyTo(a, x) + [] == OnlyTo(a, x) && [] + OnlyTo(b, x) == OnlyTo(b, x);
    }
  }

  lemma LastIsNew(tos: seq<string>)
    requires tos != [] && forall i, j :: 0 <= i < j < |tos| ==> Less(tos[i], tos[j])
    ensures tos[|tos| - 1] !in tos[..|tos| - 1]
  {
    forall i | 0 <= i < |tos| - 1 ensures tos[i] != tos[|tos| - 1] { LessTotal(tos[i], tos[|tos| - 1]); }
  }

  lemma {:induction false} NoReports(gone: seq<Queued>, to: string)
    requires forall q :: q in gone ==> q.to != to
    ensures ReportsTo(gone, to) == []
  {
    if gone != [] { NoReports(gone[1..], to); }
  }

  lemma ReportsSo(queue: seq<Queued>, now: int)
    ensures ReportedSo(Those(queue, Overdue(now)), ExpiredByRecipient(queue, now, Sorted(set i | 0 <= i < |queue| :: queue[i].to)))
  {
    hide Less, ReportsTo, Those, ExpiredFor, ExpiredByRecipient, OnlyTo;
    var tos := set i | 0 <= i < |queue| :: queue[i].to;
    SortedAscends(tos);
    ExpiredListFor(queue, now, Sorted(tos));
    forall to ensures OnlyTo(ExpiredByRecipient(queue, now, Sorted(tos)), to) == ReportsTo(Those(queue, Overdue(now)), to) {
      ExpiredListIs(queue, now, Sorted(tos), to);
      if to !in tos {
        Parted(queue, Overdue(now));
        NoReports(Those(queue, Overdue(now)), to);
      }
    }
  }

  // ---- silent legs

  predicate Past(a: Attempt, now: int) { a.expires.Some? && a.expires.value <= now }

  /** A leg that never said anything, in an attempt whose invite has expired. */
  predicate Expires(a: Attempt, now: int, l: string) { l in a.legs && Past(a, now) && a.legs[l] == Delivered && l !in a.heard }

  /** The attempt's last outstanding legs expire, nothing having been decided. */
  ghost predicate Completes(a: Attempt, now: int) {
    a.outcome == Open && (exists l :: Expires(a, now, l)) && forall l :: l in a.legs && a.legs[l] == Delivered ==> Expires(a, now, l)
  }

  ghost predicate ExpiredSo(a: Attempt, now: int, b: Attempt) {
    && b == a.(legs := b.legs, outcome := b.outcome) && b.legs.Keys == a.legs.Keys
    && (forall l :: l in a.legs ==> b.legs[l] == if Expires(a, now, l) then LegExpired else a.legs[l])
    && b.outcome == if !Completes(a, now) then a.outcome else if a.rejections == [] then OfSilence else OfReject
  }

  /** What the caller is told of an attempt so completed. */
  ghost predicate TellsOutcome(id: string, a: Attempt, e: Emission) {
    if a.rejections == [] then e == NoResponse(a.from, id)
    else exists b :: MostTelling(a.rejections, b) && e == Forward(a.from, id, b.leg, Reject(b.reason, None))
  }

  /** The same with only some of the legs looked at. */
  ghost predicate CompletesIn(a: Attempt, legs: seq<string>) {
    a.outcome == Open && (exists l :: l in legs && Silent(a, l)) && forall l :: l in a.legs && a.legs[l] == Delivered ==> l in legs && Silent(a, l)
  }

  ghost predicate ExpiredEachSo(session: string, a: Attempt, legs: seq<string>, s: AttemptStep) {
    && s.a == a.(legs := s.a.legs, outcome := s.a.outcome) && s.a.legs.Keys == a.legs.Keys
    && (forall l :: l in a.legs ==> s.a.legs[l] == if l in legs && Silent(a, l) then LegExpired else a.legs[l])
    && if CompletesIn(a, legs) then
         s.a.outcome == (if a.rejections == [] then OfSilence else OfReject) && |s.emit| == 1 && TellsOutcome(session, a, s.emit[0])
       else s.a.outcome == a.outcome && s.emit == []
  }

  lemma ExpireOneSo(session: string, a: Attempt, front: seq<string>, leg: string, r: AttemptStep)
    requires ExpiredEachSo(session, a, front, r) && leg !in front && Silent(a, leg)
    ensures var e := LegEnded(session, r.a, leg, LegExpired);
            ExpiredEachSo(session, a, front + [leg], AttemptStep(e.a, r.emit + e.emit))
  {
    hide LegEnded, MostTelling;
    assert !CompletesIn(a, front);
    EndsSo(session, r.a, leg, LegExpired);
    var e := LegEnded(session, r.a, leg, LegExpired);
    assert r.emit + e.emit == e.emit;
    assert a.outcome == Open ==> (LastOut(r.a, leg) <==> CompletesIn(a, front + [leg])) by {
      assert leg in front + [leg];
      if LastOut(r.a, leg) {
        forall l | l in a.legs && a.legs[l] == Delivered ensures l in front + [leg] && Silent(a, l) {
          if l != leg { assert r.a.legs[l] != Delivered; }
        }
      }
    }
  }

  lemma {:induction false} ExpireEachSo(session: string, a: Attempt, legs: seq<string>)
    requires forall i, j :: 0 <= i < j < |legs| ==> legs[i] != legs[j]
    ensures ExpiredEachSo(session, a, legs, ExpireEach(session, a, legs))
  {
    if legs != [] {
      var front, leg := legs[..|legs| - 1], legs[|legs| - 1];
      assert legs == front + [leg];
      assert forall i :: 0 <= i < |front| ==> front[i] == legs[i];
      ExpireEachSo(session, a, front);
      var r := ExpireEach(session, a, front);
      assert Silent(r.a, leg) <==> Silent(a, leg);
      if Silent(a, leg) {
        ExpireOneSo(session, a, front, leg, r);
      } else {
        StillNot(session, a, front, leg, r);
      }
    }
  }

  lemma StillNot(session: string, a: Attempt, front: seq<string>, leg: string, r: AttemptStep)
    requires ExpiredEachSo(session, a, front, r) && !Silent(a, leg)
    ensures ExpiredEachSo(session, a, front + [leg], r)
  {
    hide TellsOutcome;
    assert CompletesIn(a, front) <==> CompletesIn(a, front + [leg]) by {
      if l :| l in front && Silent(a, l) { assert l in front + [leg]; }
    }
  }

  lemma ExpireSo(session: string, a: Attempt, now: int)
    ensures var s := ExpireAttempt(session, a, now);
            ExpiredSo(a, now, s.a) && if Completes(a, now) then |s.emit| == 1 && TellsOutcome(session, a, s.emit[0]) else s.emit == []
  {
    hide ExpireEach, TellsOutcome, Completes, CompletesIn, Expires;
    var legs := Sorted(a.legs.Keys);
    SortedDistinct(a.legs.Keys);
    CompletesIs(a, now, legs);
    if Past(a, now) { ExpireEachSo(session, a, legs); }
  }

  lemma CompletesIs(a: Attempt, now: int, legs: seq<string>)
    requires forall l :: l in a.legs ==> l in legs
    ensures forall l :: Expires(a, now, l) <==> Past(a, now) && Silent(a, l)
    ensures Completes(a, now) <==> Past(a, now) && CompletesIn(a, legs)
  {
    assert forall l :: Expires(a, now, l) <==> Past(a, now) && Silent(a, l);
    hide Expires;
    if Completes(a, now) {
      var l :| Expires(a, now, l);
      assert l in legs;
    }
    if Past(a, now) && CompletesIn(a, legs) {
      var l :| l in legs && Silent(a, l);
      assert Expires(a, now, l);
    }
  }

  // ---- and the attempts, in the order of their ids

  /** The outcomes told, one for each attempt that completes. */
  ghost predicate OutcomesTold(attempts: map<string, Attempt>, now: int, ids: seq<string>, told: seq<Emission>) {
    && (forall id :: id in ids <==> id in attempts && Completes(attempts[id], now))
    && (forall i, j :: 0 <= i < j < |ids| ==> Less(ids[i], ids[j]))
    && |told| == |ids| && forall i :: 0 <= i < |ids| ==> ids[i] in attempts && TellsOutcome(ids[i], attempts[ids[i]], told[i])
  }

  /** As far as some of the attempts have been looked at. */
  ghost predicate OutcomesAmong(attempts: map<string, Attempt>, now: int, among: seq<string>, ids: seq<string>, told: seq<Emission>) {
    && (forall id :: id in ids <==> id in among && id in attempts && Completes(attempts[id], now))
    && (forall i, j :: 0 <= i < j < |ids| ==> Less(ids[i], ids[j]))
    && |told| == |ids| && forall i :: 0 <= i < |ids| ==> ids[i] in attempts && TellsOutcome(ids[i], attempts[ids[i]], told[i])
  }

  lemma {:induction false} ExpireAttemptsSo(r: Relay, among: seq<string>) returns (ids: seq<string>)
    requires forall i, j :: 0 <= i < j < |among| ==> Less(among[i], among[j])
    ensures var s := ExpireAttempts(r, among);
            && s.r == r.(attempts := s.r.attempts) && s.r.attempts.Keys == r.attempts.Keys
            && (forall id :: id in r.attempts ==> if id in among then ExpiredSo(r.attempts[id], r.now, s.r.attempts[id]) else s.r.attempts[id] == r.attempts[id])
            && OutcomesAmong(r.attempts, r.now, among, ids, s.emit)
  {
    hide Less, ExpireAttempt, ExpiredSo, TellsOutcome, Completes;
    ids := [];
    if among != [] {
      var front, id := among[..|among| - 1], among[|among| - 1];
      assert among == front + [id];
      assert forall i :: 0 <= i < |front| ==> front[i] == among[i];
      ids := ExpireAttemptsSo(r, front);
      var t := ExpireAttempts(r, front);
      forall x | x in front ensures Less(x, id) && x != id {
        var i :| 0 <= i < |front| && front[i] == x;
        assert among[i] == x;
        LessTotal(x, id);
      }
      if id in r.attempts { ids := OutcomeOneMore(r, front, id, ids, t); }
    }
  }

  lemma OutcomeOneMore(r: Relay, front: seq<string>, id: string, before: seq<string>, t: RelayStep) returns (ids: seq<string>)
    requires OutcomesAmong(r.attempts, r.now, front, before, t.emit) && id in r.attempts && forall x :: x in front ==> Less(x, id) && x != id
    requires t.r.attempts.Keys == r.attempts.Keys && t.r.attempts[id] == r.attempts[id]
    ensures var e := ExpireAttempt(id, r.attempts[id], r.now);
            OutcomesAmong(r.attempts, r.now, front + [id], ids, t.emit + e.emit) && ExpiredSo(r.attempts[id], r.now, e.a)
  {
    hide Less, ExpireAttempt, ExpiredSo, TellsOutcome, Completes;
    ExpireSo(id, r.attempts[id], r.now);
    if Completes(r.attempts[id], r.now) {
      ids := before + [id];
    } else {
      ids := before;
      assert t.emit + [] == t.emit;
    }
  }

  // ---- time passes

  ghost predicate BoundFor(r: Relay, x: string) { x in r.bound || exists d :: d in r.bound && r.bound[d] == x }

  predicate HeldIn(queue: seq<Queued>, x: string) { exists q :: q in queue && q.to == x }

  /** Nothing is bound or held for it, and its binding is recorded to have ended longer ago than retention. */
  ghost predicate Outlived(r: Relay, queue: seq<Queued>, now: int, x: string) {
    !BoundFor(r, x) && !HeldIn(queue, x) && x in r.lastUnbound && r.retention < now - r.lastUnbound[x]
  }

  /** What is told: each thing overdue, and each outcome. */
  ghost predicate TellsSo(r: Relay, now: int, emit: seq<Emission>) {
    exists told, ids, outcomes ::
      emit == told + outcomes && ReportedSo(Those(r.queue, Overdue(now)), told) && OutcomesTold(r.attempts, now, ids, outcomes)
  }

  /** Attempts nothing was done for in 1800 seconds are forgotten, and the silent legs of the others expire with their invites. */
  ghost predicate AttemptsSo(r: Relay, now: int, attempts: map<string, Attempt>) {
    && (forall id :: id in attempts <==> id in r.attempts && now - r.attempts[id].touched <= 1800)
    && (forall id :: id in attempts ==> ExpiredSo(r.attempts[id], now, attempts[id]))
  }

  /** Recipients that have outlived their retention are forgotten, and when their bindings ended. */
  ghost predicate KnownSo(r: Relay, queue: seq<Queued>, now: int, t: Relay) {
    && (forall x :: x in t.known <==> x in r.known && !Outlived(r, queue, now, x))
    && (forall x :: x in t.lastUnbound <==> x in r.lastUnbound && !(x in r.known && Outlived(r, queue, now, x)))
    && (forall x :: x in t.lastUnbound ==> t.lastUnbound[x] == r.lastUnbound[x])
  }

  ghost predicate ElapsedSo(r: Relay, seconds: nat, s: RelayStep) {
    var now := r.now + seconds;
    var kept := Others(r.queue, Overdue(now));
    && s.r == r.(now := now, queue := kept, attempts := s.r.attempts, known := s.r.known, lastUnbound := s.r.lastUnbound)
    && TellsSo(r, now, s.emit) && AttemptsSo(r, now, s.r.attempts) && KnownSo(r, kept, now, s.r)
  }

  lemma {:induction false} StillQueuedIs(queue: seq<Queued>, now: int)
    ensures StillQueued(queue, now) == Others(queue, Overdue(now))
  {
    if queue != [] {
      var front, q := queue[..|queue| - 1], queue[|queue| - 1];
      StillQueuedIs(front, now);
      OneMore(front, q, Overdue(now));
      assert queue == front + [q];
      hide Others, Those;
    }
  }

  lemma ForgettableIs(r: Relay, x: string)
    ensures Forgettable(r, x) <==> Outlived(r, r.queue, r.now, x)
  {
    if HeldIn(r.queue, x) {
      var q :| q in r.queue && q.to == x;
      var i :| 0 <= i < |r.queue| && r.queue[i] == q;
    }
  }

  lemma ForgetSo(r: Relay)
    ensures var f := Forget(r);
            && f == r.(attempts := f.attempts, known := f.known, lastUnbound := f.lastUnbound) && KnownSo(r, r.queue, r.now, f)
            && (forall id :: id in f.attempts <==> id in r.attempts && r.now - r.attempts[id].touched <= 1800)
            && (forall id :: id in f.attempts ==> f.attempts[id] == r.attempts[id])
  {
    forall x ensures Forgettable(r, x) <==> Outlived(r, r.queue, r.now, x) { ForgettableIs(r, x); }
    hide Forgettable, Outlived;
  }

  lemma SameKnown(r: Relay, e: Relay, queue: seq<Queued>, now: int, t: Relay)
    requires e.bound == r.bound && e.lastUnbound == r.lastUnbound && e.retention == r.retention && e.known == r.known && KnownSo(e, queue, now, t)
    ensures KnownSo(r, queue, now, t)
  {
    forall x ensures Outlived(e, queue, now, x) <==> Outlived(r, queue, now, x) { SameOutlived(r, e, queue, now, x); }
    hide Outlived;
  }

  lemma SameOutlived(r: Relay, t: Relay, queue: seq<Queued>, now: int, x: string)
    requires t.bound == r.bound && t.lastUnbound == r.lastUnbound && t.retention == r.retention
    ensures Outlived(t, queue, now, x) <==> Outlived(r, queue, now, x)
  {
  }

  /** What is reported and told, and what becomes of the attempts before any is forgotten. */
  lemma TimeTells(r: Relay, now: int) returns (ids: seq<string>)
    ensures var e := ExpireAttempts(r.(now := now, queue := Others(r.queue, Overdue(now))), Sorted(r.attempts.Keys));
            && e.r == r.(now := now, queue := Others(r.queue, Overdue(now)), attempts := e.r.attempts) && e.r.attempts.Keys == r.attempts.Keys
            && (forall id :: id in r.attempts ==> ExpiredSo(r.attempts[id], now, e.r.attempts[id]) && e.r.attempts[id].touched == r.attempts[id].touched)
            && OutcomesTold(r.attempts, now, ids, e.emit)
  {
    hide Less, Others, OutcomesTold, ExpiredSo, ExpireAttempts, Completes, TellsOutcome, OutcomesAmong;
    var q := r.(now := now, queue := Others(r.queue, Overdue(now)));
    SortedAscends(q.attempts.Keys);
    ids := ExpireAttemptsSo(q, Sorted(q.attempts.Keys));
    var e := ExpireAttempts(q, Sorted(q.attempts.Keys));
    AllAmong(r.attempts, now, Sorted(q.attempts.Keys), ids, e.emit);
    forall id | id in r.attempts ensures ExpiredSo(r.attempts[id], now, e.r.attempts[id]) && e.r.attempts[id].touched == r.attempts[id].touched {
      SameTouched(r.attempts[id], now, e.r.attempts[id]);
    }
  }

  /** Advancing is expiring and then forgetting. */
  lemma ElapseIs(r: Relay, seconds: nat)
    ensures var now := r.now + seconds;
            var q := r.(now := now, queue := Others(r.queue, Overdue(now)));
            var e := ExpireAttempts(q, Sorted(r.attempts.Keys));
            Elapse(r, seconds) == RelayStep(Forget(e.r), ExpiredByRecipient(r.queue, now, Sorted(set i | 0 <= i < |r.queue| :: r.queue[i].to)) + e.emit)
  {
    hide Others, StillQueued, ExpireAttempts, ExpiredByRecipient, Forget;
    StillQueuedIs(r.queue, r.now + seconds);
  }

  lemma TimePasses(r: Relay, seconds: nat)
    ensures ElapsedSo(r, seconds, Elapse(r, seconds))
  {
    hide Less, Those, Others, ReportedSo, OutcomesTold, ExpiredSo, KnownSo, Forget, ExpireAttempts, ExpiredByRecipient, Elapse;
    var now := r.now + seconds;
    var kept := Others(r.queue, Overdue(now));
    ElapseIs(r, seconds);
    var ids := TimeTells(r, now);
    var e := ExpireAttempts(r.(now := now, queue := kept), Sorted(r.attempts.Keys));
    ReportsSo(r.queue, now);
    var s := Elapse(r, seconds);
    ForgetSo(e.r);
    SameKnown(r, e.r, kept, now, s.r);
  }

  lemma SameTouched(a: Attempt, now: int, b: Attempt)
    requires ExpiredSo(a, now, b)
    ensures b.touched == a.touched
  {
  }

  lemma AllAmong(attempts: map<string, Attempt>, now: int, among: seq<string>, ids: seq<string>, told: seq<Emission>)
    requires OutcomesAmong(attempts, now, among, ids, told) && forall id :: id in attempts ==> id in among
    ensures OutcomesTold(attempts, now, ids, told)
  {
    hide Less, Completes, TellsOutcome;
  }

  // ---- every event

  ghost predicate ForkedSo(r: Relay, session: string, from: string, to: string, legs: seq<string>, s: RelayStep) {
    && s.r == r.(attempts := s.r.attempts) && s.r.attempts.Keys == r.attempts.Keys + {session}
    && (forall id :: id in r.attempts && id != session ==> s.r.attempts[id] == r.attempts[id])
    && Outset(s.r.attempts[session], from, to, None, r.now) && (forall d :: d in s.r.attempts[session].legs <==> d in legs)
    && |s.emit| == |legs| && forall i :: 0 <= i < |legs| ==> s.emit[i] == DeliverInvite(legs[i], session)
  }

  ghost predicate LegGoneSo(r: Relay, session: string, leg: string, s: RelayStep) {
    if session in r.attempts && leg in r.attempts[session].legs && r.attempts[session].legs[leg] == Delivered then
      OnlyAttempt(r, session, s.r) && EndedSo(session, r.attempts[session], leg, LegExpired, AttemptStep(s.r.attempts[session], s.emit))
    else s == RelayStep(r, [])
  }

  /** A binding ends now, and with its last device that of the identity. */
  ghost predicate UnboundSo(r: Relay, device: string, s: RelayStep) {
    && s.emit == []
    && if device !in r.bound then s.r == r
       else
         && s.r == r.(bound := s.r.bound, lastUnbound := s.r.lastUnbound)
         && (forall d :: d in s.r.bound <==> d in r.bound && d != device) && (forall d :: d in s.r.bound ==> s.r.bound[d] == r.bound[d])
         && (forall x :: x in s.r.lastUnbound <==> x in r.lastUnbound || EndsWith(r, device, x))
         && forall x :: x in s.r.lastUnbound ==> s.r.lastUnbound[x] == if EndsWith(r, device, x) then r.now else r.lastUnbound[x]
  }

  predicate EndsWith(r: Relay, device: string, x: string)
    requires device in r.bound
  {
    x == device || (x == r.bound[device] && forall d :: d in r.bound && r.bound[d] == x ==> d == device)
  }

  ghost predicate StepSo(r: Relay, ev: Event, s: RelayStep) {
    match ev
    case Elapsed(seconds) => ElapsedSo(r, seconds, s)
    case Received(env) => DealtWith(r, env, s)
    case InviteEvent(session, from, to, legs) => ForkedSo(r, session, from, to, legs, s)
    case LegExpiredEvent(session, leg) => LegGoneSo(r, session, leg, s)
    case BindEvent(device, identity) => BoundSo(r, device, identity, s)
    case UnbindEvent(device) => UnboundSo(r, device, s)
  }

  lemma UnbindsSo(r: Relay, device: string)
    ensures UnboundSo(r, device, RelayStep(Unbind(r, device), []))
  {
    if device in r.bound {
      var identity := r.bound[device];
      var u := r.(bound := r.bound - {device}, lastUnbound := r.lastUnbound[device := r.now]);
      assert DevicesOf(u, identity) == {} <==> forall d :: d in r.bound && r.bound[d] == identity ==> d == device by {
        if d :| d in r.bound && r.bound[d] == identity && d != device { assert d in DevicesOf(u, identity); }
      }
    }
  }

  /** What every event does, whatever the relay's state. */
  lemma EveryEventDoes(r: Relay, ev: Event)
    ensures StepSo(r, ev, Step(r, ev))
  {
    hide ElapsedSo, DealtWith, BoundSo, UnboundSo, EndedSo, Elapse, OnEnvelope, Bind, Unbind, LegEnded, Outset;
    match ev
    case Elapsed(seconds) => TimePasses(r, seconds);
    case Received(env) => EveryEnvelopeIsDealtWith(r, env);
    case InviteEvent(session, from, to, legs) => SetOut(r, session, from, to, legs);
    case LegExpiredEvent(session, leg) => LegGoes(r, session, leg);
    case BindEvent(device, identity) => BindingHands(r, device, identity);
    case UnbindEvent(device) => UnbindsSo(r, device);
  }

  lemma SetOut(r: Relay, session: string, from: string, to: string, legs: seq<string>)
    ensures ForkedSo(r, session, from, to, legs, Fork(r, session, from, to, legs, None))
  {
    ForkLegsSo(session, NewAttemptFor(from, to, None, r.now), legs, r.now);
  }

  lemma LegGoes(r: Relay, session: string, leg: string)
    ensures LegGoneSo(r, session, leg, Step(r, LegExpiredEvent(session, leg)))
  {
    hide EndedSo;
    if session in r.attempts {
      if leg in r.attempts[session].legs && r.attempts[session].legs[leg] == Delivered {
        hide LegEnded;
        EndsSo(session, r.attempts[session], leg, LegExpired);
      } else {
        assert r.attempts[session := r.attempts[session]] == r.attempts;
      }
    }
  }

  // ---- nothing held is lost

  /** How often an envelope is held for a recipient. */
  function CountIn(queue: seq<Queued>, to: string, env: Envelope): nat {
    if queue == [] then 0 else (if queue[0].to == to && queue[0].env == env then 1 else 0) + CountIn(queue[1..], to, env)
  }

  lemma {:induction false} CountParted(queue: seq<Queued>, w: Leaving, to: string, env: Envelope)
    ensures CountIn(queue, to, env) == CountIn(Those(queue, w), to, env) + CountIn(Others(queue, w), to, env)
    ensures w.ForDevice? ==> CountIn(Those(queue, w), to, env) == if to == w.device || to == w.identity then CountIn(queue, to, env) else 0
  {
    hide Leaves;
    if queue != [] {
      CountParted(queue[1..], w, to, env);
      var q := queue[0];
      CountFirst(q, Those(queue[1..], w), to, env);
      CountFirst(q, Others(queue[1..], w), to, env);
      assert [] + Those(queue[1..], w) == Those(queue[1..], w) && [] + Others(queue[1..], w) == Others(queue[1..], w);
      LeavesFor(q, w);
    }
  }

  lemma LeavesFor(q: Queued, w: Leaving)
    ensures w.ForDevice? ==> (Leaves(q, w) <==> q.to == w.device || q.to == w.identity)
  {
  }

  lemma CountFirst(q: Queued, queue: seq<Queued>, to: string, env: Envelope)
    ensures CountIn([q] + queue, to, env) == CountIn(queue, to, env) + if q.to == to && q.env == env then 1 else 0
  {
    assert ([q] + queue)[1..] == queue;
  }

  lemma {:induction false} CountOneMore(queue: seq<Queued>, q: Queued, to: string, env: Envelope)
    ensures CountIn(queue + [q], to, env) == CountIn(queue, to, env) + if q.to == to && q.env == env then 1 else 0
  {
    if queue == [] {
      assert [] + [q] == [q] && [q][1..] == [];
    } else {
      CountOneMore(queue[1..], q, to, env);
      assert (queue + [q])[1..] == queue[1..] + [q];
    }
  }

  /** How often an emission is made. */
  function Times(emit: seq<Emission>, e: Emission): nat { multiset(emit)[e] }

  lemma TimesAppend(a: seq<Emission>, b: seq<Emission>, e: Emission)
    ensures Times(a + b, e) == Times(a, e) + Times(b, e)
  {
    assert multiset(a + b) == multiset(a) + multiset(b);
  }

  lemma NeverIn(emit: seq<Emission>, e: Emission)
    requires forall i :: 0 <= i < |emit| ==> emit[i] != e
    ensures Times(emit, e) == 0
  {
  }

  lemma {:induction false} TimesOnly(told: seq<Emission>, e: Emission)
    requires (forall x :: x in told ==> x.Dequeued?) && e.Dequeued?
    ensures Times(told, e) == Times(OnlyTo(told, e.to), e)
  {
    if told != [] {
      TimesOnly(told[1..], e);
      assert told == [told[0]] + told[1..];
      TimesAppend([told[0]], told[1..], e);
      TimesAppend(if told[0].to == e.to then [told[0]] else [], OnlyTo(told[1..], e.to), e);
    }
  }

  lemma {:induction false} TimesReported(gone: seq<Queued>, to: string, env: Envelope)
    ensures Times(ReportsTo(gone, to), Dequeued(to, env, "expired")) == CountIn(gone, to, env)
  {
    if gone != [] {
      TimesReported(gone[1..], to, env);
      TimesAppend(if gone[0].to == to then [Dequeued(to, gone[0].env, "expired")] else [], ReportsTo(gone[1..], to), Dequeued(to, env, "expired"));
    }
  }

  lemma {:induction false} TimesDropped(gone: seq<Queued>, emit: seq<Emission>, to: string, env: Envelope)
    requires |emit| == |gone| && forall i :: 0 <= i < |gone| ==> emit[i] == Dequeued(gone[i].to, gone[i].env, "cancelled")
    ensures Times(emit, Dequeued(to, env, "cancelled")) == CountIn(gone, to, env)
  {
    if gone != [] {
      TimesDropped(gone[1..], emit[1..], to, env);
      assert emit == [emit[0]] + emit[1..];
      TimesAppend([emit[0]], emit[1..], Dequeued(to, env, "cancelled"));
    }
  }

  /** An emission about the queue. */
  predicate OfQueue(e: Emission) { e.QueuedFor? || e.Dequeued? }

  /** How much of it a binding hands over. */
  function Handed(r: Relay, ev: Event, to: string, env: Envelope): nat {
    if ev.BindEvent? && (to == ev.device || to == ev.identity) then CountIn(r.queue, to, env) else 0
  }

  /** What was held and what comes to be held is handed over, reported as dropped, or still held. */
  ghost predicate Kept(r: Relay, ev: Event, s: RelayStep, to: string, env: Envelope) {
    CountIn(r.queue, to, env) + Times(s.emit, QueuedFor(to, env))
    == Handed(r, ev, to, env) + Times(s.emit, Dequeued(to, env, "expired")) + Times(s.emit, Dequeued(to, env, "cancelled")) + CountIn(s.r.queue, to, env)
  }

  lemma QuietKeeps(r: Relay, ev: Event, s: RelayStep, to: string, env: Envelope)
    requires s.r.queue == r.queue && !ev.BindEvent? && forall i :: 0 <= i < |s.emit| ==> !OfQueue(s.emit[i])
    ensures Kept(r, ev, s, to, env)
  {
    NeverIn(s.emit, QueuedFor(to, env));
    NeverIn(s.emit, Dequeued(to, env, "expired"));
    NeverIn(s.emit, Dequeued(to, env, "cancelled"));
  }

  lemma ElapsedKept(r: Relay, seconds: nat, s: RelayStep, to: string, env: Envelope)
    requires ElapsedSo(r, seconds, s)
    ensures Kept(r, Elapsed(seconds), s, to, env)
  {
    hide KnownSo, AttemptsSo, Those, Others, OnlyTo, ReportsTo, Times, Less, TellsOutcome;
    var now := r.now + seconds;
    var gone := Those(r.queue, Overdue(now));
    var told, ids, outcomes :| s.emit == told + outcomes && ReportedSo(gone, told) && OutcomesTold(r.attempts, now, ids, outcomes);
    CountParted(r.queue, Overdue(now), to, env);
    TimesOnly(told, Dequeued(to, env, "expired"));
    TimesReported(gone, to, env);
    forall i | 0 <= i < |outcomes| ensures !OfQueue(outcomes[i]) { OutcomeIsNone(ids[i], r.attempts[ids[i]], outcomes[i]); }
    NeverIn(outcomes, QueuedFor(to, env));
    NeverIn(outcomes, Dequeued(to, env, "expired"));
    NeverIn(outcomes, Dequeued(to, env, "cancelled"));
    assert forall i :: 0 <= i < |told| ==> told[i] in told;
    NeverIn(told, QueuedFor(to, env));
    OnlyExpired(gone, told, to, env);
    TimesAppend(told, outcomes, QueuedFor(to, env));
    TimesAppend(told, outcomes, Dequeued(to, env, "expired"));
    TimesAppend(told, outcomes, Dequeued(to, env, "cancelled"));
  }

  lemma OutcomeIsNone(id: string, a: Attempt, e: Emission)
    requires TellsOutcome(id, a, e)
    ensures !OfQueue(e)
  {
  }

  lemma OnlyExpired(gone: seq<Queued>, told: seq<Emission>, to: string, env: Envelope)
    requires ReportedSo(gone, told)
    ensures Times(told, Dequeued(to, env, "cancelled")) == 0
  {
    hide Times;
    TimesOnly(told, Dequeued(to, env, "cancelled"));
    ReportsExpired(gone, to);
    NeverIn(ReportsTo(gone, to), Dequeued(to, env, "cancelled"));
  }

  lemma {:induction false} ReportsExpired(gone: seq<Queued>, to: string)
    ensures forall e :: e in ReportsTo(gone, to) ==> e.Dequeued? && e.why == "expired"
  {
    if gone != [] { ReportsExpired(gone[1..], to); }
  }

  lemma RoutedKept(r: Relay, env0: Envelope, s: RelayStep, to: string, env: Envelope)
    requires RoutedSo(r, env0, s)
    ensures Kept(r, Received(env0), s, to, env)
  {
    hide Less, Outset, Reaches, OneEach, HeldFor;
    if !Reached(r, env0) && (env0.Introduction? || Address(env0) in r.known) {
      var until :| HeldFor(r, env0, until) && s.r == r.(queue := r.queue + [Parked(Address(env0), env0, until)]);
      CountOneMore(r.queue, Parked(Address(env0), env0, until), to, env);
    } else {
      if Reached(r, env0) {
        var legs :| OneEach(r, env0, legs) && |s.emit| == |legs| && forall i :: 0 <= i < |s.emit| ==> s.emit[i] == Carrying(env0, legs[i]);
      }
      QuietKeeps(r, Received(env0), s, to, env);
    }
  }

  lemma WithdrawnKept(r: Relay, env0: Envelope, s: RelayStep, to: string, env: Envelope)
    requires env0.CallEnvelope? && WithdrawnSo(r, env0, s)
    ensures Kept(r, Received(env0), s, to, env)
  {
    var w := Withdrawn(env0.m.session, env0.to);
    var gone := Those(r.queue, w);
    CountParted(r.queue, w, to, env);
    TimesDropped(gone, s.emit, to, env);
    hide Those, Others, Times;
    NeverIn(s.emit, QueuedFor(to, env));
    NeverIn(s.emit, Dequeued(to, env, "expired"));
  }

  lemma AttemptKept(r: Relay, env0: Envelope, s: RelayStep, to: string, env: Envelope)
    requires OfAttempt(r, env0) && DealtWith(r, env0, s)
    ensures Kept(r, Received(env0), s, to, env)
  {
    hide MostTelling, LastOut, Less, Kept, IsCancelled;
    var id := env0.m.session;
    var a, t := r.attempts[id], AttemptStep(s.r.attempts[id], s.emit);
    if env0.m.body.Cancel? {
      var told :| ToldCancel(id, a, env0.to, env0.m.body.reason, told, t.emit);
    } else {
      assert SaidSo(id, a, r.now, env0.m, t);
    }
    QuietKeeps(r, Received(env0), s, to, env);
  }

  lemma BoundKept(r: Relay, device: string, identity: string, s: RelayStep, to: string, env: Envelope)
    requires BoundSo(r, device, identity, s)
    ensures Kept(r, BindEvent(device, identity), s, to, env)
  {
    hide Those, Others, Less, Joining, GivenSo, InvitedIn;
    var held := Those(r.queue, ForDevice(device, identity));
    CountParted(r.queue, ForDevice(device, identity), to, env);
    var joined :| ToldInvites(r, held, device, identity, joined, s.emit[|held|..]);
    forall i | 0 <= i < |s.emit| ensures !OfQueue(s.emit[i]) {
      if i >= |held| { assert s.emit[i] == s.emit[|held|..][i - |held|]; }
    }
    NeverIn(s.emit, QueuedFor(to, env));
    NeverIn(s.emit, Dequeued(to, env, "expired"));
    NeverIn(s.emit, Dequeued(to, env, "cancelled"));
  }

  lemma StepKept(r: Relay, ev: Event, to: string, env: Envelope)
    ensures Kept(r, ev, Step(r, ev), to, env)
  {
    hide Step, Kept, ElapsedSo, BoundSo, RoutedSo, WithdrawnSo, OfAttempt, Withdraws, MostTelling, LastOut;
    EveryEventDoes(r, ev);
    var s := Step(r, ev);
    match ev
    case Elapsed(seconds) => ElapsedKept(r, seconds, s, to, env);
    case Received(env0) =>
      if OfAttempt(r, env0) { AttemptKept(r, env0, s, to, env); }
      else if Withdraws(r, env0) { WithdrawsCall(r, env0); WithdrawnKept(r, env0, s, to, env); }
      else { RoutedKept(r, env0, s, to, env); }
    case BindEvent(device, identity) => BoundKept(r, device, identity, s, to, env);
    case InviteEvent(_, _, _, _) => QuietKeeps(r, ev, s, to, env);
    case LegExpiredEvent(_, _) => QuietKeeps(r, ev, s, to, env);
    case UnbindEvent(_) => QuietKeeps(r, ev, s, to, env);
  }

  lemma WithdrawsCall(r: Relay, env: Envelope)
    requires Withdraws(r, env)
    ensures env.CallEnvelope?
  {
  }

  ghost function HandedInAll(r: Relay, evs: seq<Event>, to: string, env: Envelope): nat
    decreases |evs|
  {
    if evs == [] then 0 else Handed(r, evs[0], to, env) + HandedInAll(Step(r, evs[0]).r, evs[1..], to, env)
  }

  /** Over every run, whatever was held or came to be held was handed over, reported as dropped, or is still held. */
  lemma {:induction false} NothingHeldIsLost(r: Relay, evs: seq<Event>, to: string, env: Envelope)
    ensures var s := Run(r, evs);
            CountIn(r.queue, to, env) + Times(s.emit, QueuedFor(to, env))
            == HandedInAll(r, evs, to, env) + Times(s.emit, Dequeued(to, env, "expired")) + Times(s.emit, Dequeued(to, env, "cancelled"))
               + CountIn(s.r.queue, to, env)
    decreases |evs|
  {
    hide Step, CountIn, Times, Handed;
    if evs == [] {
      NeverIn([], QueuedFor(to, env));
      NeverIn([], Dequeued(to, env, "expired"));
      NeverIn([], Dequeued(to, env, "cancelled"));
    } else {
      var one := Step(r, evs[0]);
      var rest := Run(one.r, evs[1..]);
      StepKept(r, evs[0], to, env);
      NothingHeldIsLost(one.r, evs[1..], to, env);
      TimesAppend(one.emit, rest.emit, QueuedFor(to, env));
      TimesAppend(one.emit, rest.emit, Dequeued(to, env, "expired"));
      TimesAppend(one.emit, rest.emit, Dequeued(to, env, "cancelled"));
    }
  }

  // ---- for how long a recipient is known

  /** When its last binding ended, from the bindings before and after each event. */
  ghost function EndedAfter(r: Relay, ev: Event, x: string, ended: Option<int>): Option<int> {
    if BoundFor(r, x) && !BoundFor(Step(r, ev).r, x) then Some(r.now) else ended
  }

  ghost function EndedIn(r: Relay, evs: seq<Event>, x: string, ended: Option<int>): Option<int>
    decreases |evs|
  {
    if evs == [] then ended else EndedIn(Step(r, evs[0]).r, evs[1..], x, EndedAfter(r, evs[0], x, ended))
  }

  /** The event binds elsewhere the one device that is bound for it. */
  predicate MovesFrom(r: Relay, ev: Event, x: string) {
    && ev.BindEvent? && ev.device in r.bound && r.bound[ev.device] == x && ev.identity != x && ev.device != x
    && x !in r.bound && forall d :: d in r.bound && r.bound[d] == x ==> d == ev.device
  }

  ghost predicate NeverMoved(r: Relay, evs: seq<Event>, x: string)
    decreases |evs|
  {
    evs == [] || (!MovesFrom(r, evs[0], x) && NeverMoved(Step(r, evs[0]).r, evs[1..], x))
  }

  function UnboundAt(r: Relay, x: string): Option<int> { if x in r.lastUnbound then Some(r.lastUnbound[x]) else None }

  /** The relay has it right when the binding ended. */
  ghost predicate Recorded(r: Relay, x: string, ended: Option<int>) {
    !BoundFor(r, x) && x in r.known ==> UnboundAt(r, x) == ended
  }

  ghost predicate BoundKnown(r: Relay) { forall x :: BoundFor(r, x) ==> x in r.known }

  /** What an event does to the bindings and to what is remembered of one recipient. */
  lemma BindingSteps(r: Relay, ev: Event, x: string)
    ensures var t := Step(r, ev).r;
            && (BoundFor(t, x) <==>
                  match ev
                  case BindEvent(device, identity) => x == device || x == identity || x in r.bound || exists d :: d in r.bound && d != device && r.bound[d] == x
                  case UnbindEvent(device) => (x in r.bound && x != device) || exists d :: d in r.bound && d != device && r.bound[d] == x
                  case _ => BoundFor(r, x))
            && (match ev
                case Elapsed(seconds) => t.now == r.now + seconds && (x in t.known <==> x in r.known && !Outlived(r, t.queue, t.now, x))
                                         && (x in t.known ==> UnboundAt(t, x) == UnboundAt(r, x))
                case BindEvent(device, identity) => t.now == r.now && UnboundAt(t, x) == UnboundAt(r, x) && (x in t.known <==> x in r.known || x == device || x == identity)
                case UnbindEvent(device) => t.now == r.now && (x in t.known <==> x in r.known)
                                            && UnboundAt(t, x) == if device in r.bound && EndsWith(r, device, x) then Some(r.now) else UnboundAt(r, x)
                case _ => t.now == r.now && UnboundAt(t, x) == UnboundAt(r, x) && (x in t.known <==> x in r.known))
            && t.retention == r.retention
  {
    hide Step, MostTelling, LastOut, TellsSo, AttemptsSo, Outlived, Others, Those, Outset, ToEach, HeldFor, CancelledSo, SaidSo, OfAttempt, Withdraws, GivenSo, ToldInvites, Joining, EndsWith, EndedSo;
    EveryEventDoes(r, ev);
    var t := Step(r, ev).r;
    match ev
    case BindEvent(device, identity) => BoundAfterBind(r, device, identity, t, x);
    case UnbindEvent(device) => BoundAfterUnbind(r, device, t, x);
    case _ =>
  }

  lemma BoundAfterBind(r: Relay, device: string, identity: string, t: Relay, x: string)
    requires t.bound == r.bound[device := identity]
    ensures BoundFor(t, x) <==> x == device || x == identity || x in r.bound || exists d :: d in r.bound && d != device && r.bound[d] == x
  {
    if d :| d in t.bound && t.bound[d] == x { assert d == device || d in r.bound; }
    if x == identity { assert t.bound[device] == x; }
    if d :| d in r.bound && d != device && r.bound[d] == x { assert t.bound[d] == x; }
  }

  lemma BoundAfterUnbind(r: Relay, device: string, t: Relay, x: string)
    requires if device in r.bound then (forall d :: d in t.bound <==> d in r.bound && d != device) && (forall d :: d in t.bound ==> t.bound[d] == r.bound[d])
             else t.bound == r.bound
    ensures BoundFor(t, x) <==> (x in r.bound && x != device) || exists d :: d in r.bound && d != device && r.bound[d] == x
  {
    if d :| d in t.bound && t.bound[d] == x { assert d in r.bound && d != device && r.bound[d] == x; }
    if d :| d in r.bound && d != device && r.bound[d] == x { assert d in t.bound && t.bound[d] == x; }
  }

  /** Its record of when a binding ended goes wrong exactly when a device is bound elsewhere without being unbound first. */
  lemma RecordedExactly(r: Relay, ev: Event, x: string, ended: Option<int>)
    requires BoundKnown(r) && Recorded(r, x, ended)
    ensures Recorded(Step(r, ev).r, x, EndedAfter(r, ev, x, ended)) <==> !MovesFrom(r, ev, x) || UnboundAt(r, x) == Some(r.now)
  {
    hide Step, Outlived;
    BindingSteps(r, ev, x);
  }

  /** Known while bound and until retention has passed since; `ended` says when that was. */
  ghost predicate KnownRight(r: Relay, x: string, ended: Option<int>) {
    && BoundKnown(r) && Recorded(r, x, ended)
    && (x in r.known ==> BoundFor(r, x) || ended.Some?)
    && (ended.Some? && r.now - ended.value <= r.retention ==> x in r.known)
  }

  ghost predicate NoLongerThan(r: Relay, x: string, ended: Option<int>) {
    x in r.known ==> BoundFor(r, x) || HeldIn(r.queue, x) || (ended.Some? && r.now - ended.value <= r.retention)
  }

  lemma BoundKnownStep(r: Relay, ev: Event)
    requires BoundKnown(r)
    ensures BoundKnown(Step(r, ev).r)
  {
    hide Step;
    forall x | BoundFor(Step(r, ev).r, x) ensures x in Step(r, ev).r.known { BindingSteps(r, ev, x); }
  }

  lemma KnownStep(r: Relay, ev: Event, x: string, ended: Option<int>)
    requires KnownRight(r, x, ended) && !MovesFrom(r, ev, x)
    ensures KnownRight(Step(r, ev).r, x, EndedAfter(r, ev, x, ended))
    ensures ev.Elapsed? ==> NoLongerThan(Step(r, ev).r, x, EndedAfter(r, ev, x, ended))
  {
    hide Step, HeldIn;
    BoundKnownStep(r, ev);
    RecordedExactly(r, ev, x, ended);
    BindingSteps(r, ev, x);
  }

  /**
   * Where no device bound for it is bound elsewhere without unbinding, a recipient is known as long as it is bound and until
   * retention has passed since, and once time has passed no longer than that unless something is held for it.
   */
  lemma {:induction false} KnownForRetention(r: Relay, evs: seq<Event>, x: string, ended: Option<int>)
    requires KnownRight(r, x, ended) && NeverMoved(r, evs, x)
    ensures var t, e := Run(r, evs).r, EndedIn(r, evs, x, ended);
            && KnownRight(t, x, e)
            && (evs != [] && evs[|evs| - 1].Elapsed? ==> NoLongerThan(t, x, e))
    decreases |evs|
  {
    hide Step, KnownRight, NoLongerThan, MovesFrom;
    if evs != [] {
      KnownStep(r, evs[0], x, ended);
      KnownForRetention(Step(r, evs[0]).r, evs[1..], x, EndedAfter(r, evs[0], x, ended));
      if |evs| > 1 { assert evs[1..][|evs| - 2] == evs[|evs| - 1]; }
    }
  }

  function NewRelay(now: int, retention: int): Relay { Relay(now, retention, map[], {}, map[], map[], []) }

  /** The bindings after an event that receives nothing, with nothing held. */
  lemma BindingsAre(r: Relay, ev: Event)
    requires r.queue == [] && (ev.BindEvent? || ev.UnbindEvent? || ev.Elapsed?)
    ensures var t := Step(r, ev).r;
            && t.queue == []
            && t.bound == match ev case BindEvent(device, identity) => r.bound[device := identity] case UnbindEvent(device) => r.bound - {device} case _ => r.bound
  {
    hide Step, TellsSo, AttemptsSo, KnownSo, GivenSo, ToldInvites, Joining, EndsWith;
    EveryEventDoes(r, ev);
    var t := Step(r, ev).r;
    if ev.UnbindEvent? { assert t.bound == r.bound - {ev.device}; }
  }

  /** Bound a second time, long after it was unbound. */
  ghost predicate Rebound(r: Relay, now: int, retention: nat) {
    && r.queue == [] && r.retention == retention && r.now == now + retention + 1 && r.bound == map["d" := "i"]
    && "i" in r.known && UnboundAt(r, "i") == Some(now)
  }

  lemma ReboundIs(now: int, retention: nat)
    ensures var r1 := Step(NewRelay(now, retention), BindEvent("d", "i")).r;
            var r3 := Step(Step(r1, UnbindEvent("d")).r, BindEvent("d", "i")).r;
            Rebound(Step(r3, Elapsed(retention + 1)).r, now, retention)
  {
    hide Step;
    var r0 := NewRelay(now, retention);
    var r1 := Step(r0, BindEvent("d", "i")).r;
    BindingsAre(r0, BindEvent("d", "i"));
    BindingSteps(r0, BindEvent("d", "i"), "i");
    assert r1.bound == map["d" := "i"] && r1.bound["d"] == "i";
    var r2 := Step(r1, UnbindEvent("d")).r;
    BindingsAre(r1, UnbindEvent("d"));
    BindingSteps(r1, UnbindEvent("d"), "i");
    assert r2.bound == map[];
    var r3 := Step(r2, BindEvent("d", "i")).r;
    BindingsAre(r2, BindEvent("d", "i"));
    BindingSteps(r2, BindEvent("d", "i"), "i");
    BindingsAre(r3, Elapsed(retention + 1));
    BindingSteps(r3, Elapsed(retention + 1), "i");
    assert r3.bound == map["d" := "i"] && r3.bound["d"] == "i" && BoundFor(r3, "i");
  }

  lemma ReboundThenMoved(r: Relay, now: int, retention: nat)
    requires Rebound(r, now, retention)
    ensures var r5 := Step(r, BindEvent("d", "j")).r;
            var t := Step(r5, Elapsed(0)).r;
            && "i" !in t.known && t.now == r.now
            && forall e :: EndedAfter(r5, Elapsed(0), "i", EndedAfter(r, BindEvent("d", "j"), "i", e)) == Some(t.now)
  {
    hide Step;
    var r5 := Step(r, BindEvent("d", "j")).r;
    BindingsAre(r, BindEvent("d", "j"));
    BindingsAre(r5, Elapsed(0));
    assert r.bound["d"] == "i" && BoundFor(r, "i");
    NoneBound(r5);
    BindingSteps(r, BindEvent("d", "j"), "i");
    BindingSteps(r5, Elapsed(0), "i");
    OutlivedNow(r5, "i");
    hide Outlived;
  }

  function TwiceBound(retention: nat): seq<Event> {
    [BindEvent("d", "i"), UnbindEvent("d"), BindEvent("d", "i"), Elapsed(retention + 1), BindEvent("d", "j"), Elapsed(0)]
  }

  /** Its device bound elsewhere: forgotten at once, if it was unbound long enough before it was last bound. */
  lemma ForgottenAtOnce(now: int, retention: nat)
    ensures var t := Run(NewRelay(now, retention), TwiceBound(retention)).r;
            && EndedIn(NewRelay(now, retention), TwiceBound(retention), "i", None) == Some(t.now) && "i" !in t.known
  {
    hide Step, EndedAfter, Rebound, NewRelay;
    var r0, evs := NewRelay(now, retention), TwiceBound(retention);
    ReboundIs(now, retention);
    var r4 := Step(Step(Step(Step(r0, evs[0]).r, evs[1]).r, evs[2]).r, evs[3]).r;
    ReboundThenMoved(r4, now, retention);
    SixEvents(r0, evs, "i", None);
  }

  lemma SixEvents(r: Relay, evs: seq<Event>, x: string, ended: Option<int>)
    requires |evs| == 6
    ensures var r4 := Step(Step(Step(Step(r, evs[0]).r, evs[1]).r, evs[2]).r, evs[3]).r;
            var r5 := Step(r4, evs[4]).r;
            && Run(r, evs).r == Step(r5, evs[5]).r
            && exists e :: EndedIn(r, evs, x, ended) == EndedAfter(r5, evs[5], x, EndedAfter(r4, evs[4], x, e))
  {
    hide Step, EndedAfter, Run, EndedIn;
    OneMoreEvent(r, [], evs[0], x, ended);
    OneMoreEvent(r, evs[..1], evs[1], x, ended);
    OneMoreEvent(r, evs[..2], evs[2], x, ended);
    OneMoreEvent(r, evs[..3], evs[3], x, ended);
    OneMoreEvent(r, evs[..4], evs[4], x, ended);
    OneMoreEvent(r, evs[..5], evs[5], x, ended);
    NoEvents(r);
    assert evs[..1] == [] + [evs[0]] && evs[..2] == evs[..1] + [evs[1]] && evs[..3] == evs[..2] + [evs[2]] && evs[..4] == evs[..3] + [evs[3]]
        && evs[..5] == evs[..4] + [evs[4]] && evs == evs[..5] + [evs[5]];
  }

  lemma NoEvents(r: Relay)
    ensures Run(r, []).r == r
  {
  }

  lemma OutlivedNow(r: Relay, x: string)
    requires !BoundFor(r, x) && x in r.lastUnbound && r.retention < r.now - r.lastUnbound[x]
    ensures Outlived(r, [], r.now, x)
  {
  }

  lemma {:induction false} OneMoreEvent(r: Relay, evs: seq<Event>, ev: Event, x: string, ended: Option<int>)
    ensures Run(r, evs + [ev]).r == Step(Run(r, evs).r, ev).r
    ensures EndedIn(r, evs + [ev], x, ended) == EndedAfter(Run(r, evs).r, ev, x, EndedIn(r, evs, x, ended))
    decreases |evs|
  {
    hide Step, EndedAfter;
    if evs == [] {
      assert [] + [ev] == [ev] && [ev][1..] == [];
      assert Run(Step(r, ev).r, []).r == Step(r, ev).r;
    } else {
      OneMoreEvent(Step(r, evs[0]).r, evs[1..], ev, x, EndedAfter(r, evs[0], x, ended));
      assert (evs + [ev])[1..] == evs[1..] + [ev] && (evs + [ev])[0] == evs[0];
    }
  }

  /** Or else never: known without a record of an end, it stays so until it is bound again. */
  lemma {:induction false} NeverForgotten(r: Relay, evs: seq<Event>, x: string)
    requires x in r.known && !BoundFor(r, x) && x !in r.lastUnbound
    requires forall i :: 0 <= i < |evs| && evs[i].BindEvent? ==> evs[i].device != x && evs[i].identity != x
    ensures var t := Run(r, evs).r; x in t.known && !BoundFor(t, x)
    decreases |evs|
  {
    hide Step, BoundFor;
    if evs != [] {
      assert evs[0].BindEvent? ==> evs[0].device != x && evs[0].identity != x;
      NotBoundYet(r, evs[0], x);
      NeverForgotten(Step(r, evs[0]).r, evs[1..], x);
    }
  }

  lemma NotBoundYet(r: Relay, ev: Event, x: string)
    requires x in r.known && !BoundFor(r, x) && x !in r.lastUnbound
    requires ev.BindEvent? ==> ev.device != x && ev.identity != x
    ensures var t := Step(r, ev).r; x in t.known && !BoundFor(t, x) && x !in t.lastUnbound
  {
    hide Step;
    BindingSteps(r, ev, x);
    assert UnboundAt(r, x) == None;
  }

  lemma NeverForgottenRun(now: int, retention: int, evs: seq<Event>)
    requires forall i :: 0 <= i < |evs| && evs[i].BindEvent? ==> evs[i].device != "i" && evs[i].identity != "i"
    ensures var t := Run(NewRelay(now, retention), [BindEvent("d", "i"), BindEvent("d", "j")] + evs).r;
            "i" in t.known && !BoundFor(t, "i")
  {
    var r0, all := NewRelay(now, retention), [BindEvent("d", "i"), BindEvent("d", "j")] + evs;
    var r1 := Step(r0, all[0]).r;
    var r2 := Step(r1, all[1]).r;
    assert all[1..] == [BindEvent("d", "j")] + evs && all[1..][1..] == evs && all[1..][0] == all[1];
    hide Step, BoundFor;
    assert Run(r0, all).r == Run(r1, all[1..]).r && Run(r1, all[1..]).r == Run(r2, evs).r;
    hide Run;
    BindingsAre(r0, all[0]);
    BindingsAre(r1, all[1]);
    NoneBound(r2);
    BindingSteps(r0, all[0], "i");
    BindingSteps(r1, all[1], "i");
    NeverForgotten(r2, evs, "i");
  }

  lemma NoneBound(r: Relay)
    requires r.bound == map["d" := "j"]
    ensures !BoundFor(r, "i")
  {
  }
}
