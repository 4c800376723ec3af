/**
 * What every event does to the alarm list and the hold-down of `device-events.ts`, alarm by alarm, and when an alarm escalates: at
 * the first advance that reaches the policy's time after it last came to be eligible, and in no run later.
 */
module Escalations {
  import opened Prelude
  import opened DeviceEvents
  import Orders

  // ---- severities and timers

  const SEVERITIES: seq<string> := ["warning", "minor", "major", "critical"]

  /** As severe as the other or more, by their places in the list; anything not listed is below it. */
  predicate AtLeast(a: Option<string>, b: string) {
    forall i :: 0 <= i < |SEVERITIES| && SEVERITIES[i] == b ==> exists j :: i <= j < |SEVERITIES| && a == Some(SEVERITIES[j])
  }

  lemma RankIs(a: Option<string>, b: string)
    ensures Rank(Some(b)) <= Rank(a) <==> AtLeast(a, b)
  {
    if Rank(Some(b)) > 0 && Rank(Some(b)) <= Rank(a) { assert a == Some(SEVERITIES[Rank(a) - 1]); }
    if Rank(Some(b)) > 0 { assert SEVERITIES[Rank(Some(b)) - 1] == b; }
  }

  /** It is active, nobody has dealt with it, it has not escalated since it was raised, and it is severe enough. */
  predicate May(a: Alarm, policy: Option<Policy>) {
    policy.Some? && !a.cleared && a.operator.Untouched? && !a.escalated && AtLeast(a.severity, policy.value.minSeverity)
  }

  lemma MayIs(a: Alarm, policy: Option<Policy>)
    ensures Eligible(a, policy) <==> May(a, policy)
  {
    if policy.Some? { RankIs(a.severity, policy.value.minSeverity); }
  }

  /** A timer runs while an alarm may escalate: the one that ran already, or one from now. */
  function TimerOf(a: Alarm, before: Option<int>, policy: Option<Policy>, now: int): Option<int> {
    if !May(a, policy) then None else if before.Some? then before else Some(now + policy.value.after)
  }

  // ---- what a report makes of its alarm

  /** New, reopened, cleared, changed or only counted. */
  function AfterReport(a: Option<Alarm>, r: Report, policy: Option<Policy>, now: int): Option<Alarm> {
    match a
    case None =>
      if r.cleared then None
      else var b := Alarm(r.severity, false, Untouched, 1, false, None); Some(b.(due := TimerOf(b, None, policy, now)))
    case Some(x) =>
      var b := x.(count := x.count + 1, cleared := r.cleared,
                  severity := if r.cleared then x.severity else r.severity,
                  operator := if x.cleared && !r.cleared then Untouched else x.operator,
                  escalated := x.escalated && (r.cleared || !x.cleared));
      Some(b.(due := TimerOf(b, x.due, policy, now)))
  }

  /** What is announced of it. */
  function Announced(a: Option<Alarm>, r: Report): seq<Emission> {
    if r.cleared then (if a.Some? && !a.value.cleared then [Cleared(r.key)] else [])
    else if a.None? || a.value.cleared then [Raised(r.key, r.severity, a.Some?)]
    else if a.value.severity != r.severity then [Changed(r.key, r.severity)] else []
  }

  function AlarmAt(l: Alarms, k: Key): Option<Alarm> { if k in l.alarms then Some(l.alarms[k]) else None }

  ghost predicate ReportedSo(l: Alarms, r: Report, z: Result) {
    && z.l == l.(alarms := z.l.alarms) && z.emit == Announced(AlarmAt(l, r.key), r)
    && forall k :: AlarmAt(z.l, k) == if k == r.key then AfterReport(AlarmAt(l, k), r, l.policy, l.now) else AlarmAt(l, k)
  }

  lemma RetimedOthers(l: Alarms, k: Key, a: Alarm)
    requires Timed(l) && (k in l.alarms ==> a.due == l.alarms[k].due) && (k !in l.alarms ==> a.due == None)
    ensures var z := RetimeAll(Put(l, k, a));
            && z == l.(alarms := z.alarms) && Timed(z)
            && forall x :: AlarmAt(z, x) == if x == k then Some(a.(due := TimerOf(a, a.due, l.policy, l.now))) else AlarmAt(l, x)
  {
    MayIs(a, l.policy);
    RetimePays(Put(l, k, a));
    hide Eligible, May;
  }

  lemma ReportsSo(l: Alarms, r: Report)
    requires Timed(l)
    ensures ReportedSo(l, r, OnReport(l, r)) && Timed(OnReport(l, r).l)
  {
    hide RetimeAll, May, Eligible;
    var k := r.key;
    if k !in l.alarms {
      RetimedOthers(l, k, Alarm(r.severity, false, Untouched, 1, false, None));
    } else {
      var x := l.alarms[k];
      var a := x.(count := x.count + 1);
      MayIs(x, l.policy);
      if x.cleared && r.cleared {
        CountedOnly(l, k);
      } else if x.cleared {
        RetimedOthers(l, k, a.(cleared := false, severity := r.severity, operator := Untouched, escalated := false));
      } else if r.cleared {
        RetimedOthers(l, k, a.(cleared := true));
      } else if r.severity != x.severity {
        RetimedOthers(l, k, a.(severity := r.severity));
      } else {
        RetimedOthers(l, k, a);
      }
    }
  }

  lemma CountedOnly(l: Alarms, k: Key)
    requires Timed(l) && k in l.alarms && l.alarms[k].cleared
    ensures var a := l.alarms[k].(count := l.alarms[k].count + 1); Timed(Put(l, k, a)) && a.due == None && !May(a, l.policy)
  {
  }

  /** Retiming a list whose timers are right changes nothing. */
  lemma RetimedAlready(l: Alarms)
    requires Timed(l)
    ensures RetimeAll(l) == l
  {
    hide Eligible;
    assert RetimeAll(l).alarms == l.alarms;
  }

  // ---- acknowledgement, heartbeats

  /** Only `ack` and `closed` count; closed is final, and neither is said twice. */
  ghost predicate AckedSo(l: Alarms, k: Key, state: Option<Operator>, who: Option<string>, z: Result) {
    if state.Some? && !state.value.Untouched? && k in l.alarms && !l.alarms[k].operator.Closed? && l.alarms[k].operator != state.value then
      && z.emit == [OperatorSet(k, state.value, who)] && z.l == l.(alarms := z.l.alarms)
      && forall x :: AlarmAt(z.l, x) == if x == k then Some(l.alarms[k].(operator := state.value, due := None)) else AlarmAt(l, x)
    else z == Result(l, [])
  }

  lemma AcksSo(l: Alarms, k: Key, state: Option<Operator>, who: Option<string>)
    requires Timed(l)
    ensures AckedSo(l, k, state, who, Step(l, Ack(k, state, who))) && Timed(Step(l, Ack(k, state, who)).l)
  {
    hide Eligible;
    RetimedAlready(l);
    if state.Some? && !state.value.Untouched? && k in l.alarms && !l.alarms[k].operator.Closed? && l.alarms[k].operator != state.value {
      var a := l.alarms[k].(operator := state.value);
      RetimedOthers(l, k, a);
    }
  }

  ghost predicate BeatSo(l: Alarms, gateway: string, interval: int, z: Result) {
    var h, k := l.(gateways := l.gateways[gateway := Gateway(interval, l.now)]), Key(gateway, "dsip-gateway-silent", "");
    if k in l.alarms && !l.alarms[k].cleared then ReportedSo(h, Report(k, None, true), z) else z == Result(h, [])
  }

  lemma BeatsSo(l: Alarms, gateway: string, interval: int)
    requires Timed(l)
    ensures BeatSo(l, gateway, interval, Step(l, Heartbeat(gateway, interval))) && Timed(Step(l, Heartbeat(gateway, interval)).l)
  {
    hide Eligible, RetimeAll, ReportedSo, OnReport;
    var h := l.(gateways := l.gateways[gateway := Gateway(interval, l.now)]);
    assert Timed(h);
    ReportsSo(h, Report(SilentKey(gateway), None, true));
    RetimedAlready(h);
    RetimedAlready(OnReport(h, Report(SilentKey(gateway), None, true)).l);
  }

  // ---- time passing

  /** More than twice its interval has passed since it was last heard, and its silence is not already raised. */
  predicate Silent(l: Alarms, g: string) {
    && g in l.gateways && l.gateways[g].last + 2 * l.gateways[g].interval < l.now
    && var k := Key(g, "dsip-gateway-silent", ""); k in l.alarms ==> l.alarms[k].cleared
  }

  function SilenceOf(g: string): Report { Report(Key(g, "dsip-gateway-silent", ""), Some("major"), false) }

  predicate IsSilence(k: Key, gs: seq<string>) { k.resource in gs && k == Key(k.resource, "dsip-gateway-silent", "") }

  /** The silence of each of some gateways is raised. */
  ghost predicate SilencedSo(l: Alarms, gs: seq<string>, z: Result) {
    && z.l == l.(alarms := z.l.alarms)
    && (forall k :: AlarmAt(z.l, k) == if IsSilence(k, gs) then AfterReport(AlarmAt(l, k), SilenceOf(k.resource), l.policy, l.now) else AlarmAt(l, k))
    && |z.emit| == |gs| && forall i :: 0 <= i < |gs| ==> z.emit[i] == Raised(Key(gs[i], "dsip-gateway-silent", ""), Some("major"), SilenceOf(gs[i]).key in l.alarms)
  }

  function SilentIn(l: Alarms, gs: seq<string>): seq<string> {
    if gs == [] then [] else SilentIn(l, gs[..|gs| - 1]) + if Silent(l, gs[|gs| - 1]) then [gs[|gs| - 1]] else []
  }

  predicate Rising(ids: seq<string>) { forall i, j :: 0 <= i < j < |ids| ==> Less(ids[i], ids[j]) }

  lemma {:induction false} SilentRises(l: Alarms, gs: seq<string>)
    requires Rising(gs)
    ensures Rising(SilentIn(l, gs)) && forall g :: g in SilentIn(l, gs) <==> g in gs && Silent(l, g)
  {
    hide Silent, Less;
    if gs != [] {
      var front, g := gs[..|gs| - 1], gs[|gs| - 1];
      SilentRises(l, front);
      assert gs == front + [g];
      forall x | x in front ensures Less(x, g) {
        var i :| 0 <= i < |front| && front[i] == x;
        assert gs[i] == x;
      }
    }
  }

  lemma {:induction false} SilencesSo(l: Alarms, gs: seq<string>)
    requires Timed(l) && forall i, j :: 0 <= i < j < |gs| ==> gs[i] != gs[j]
    ensures SilencedSo(l, SilentIn(l, gs), SilenceEach(l, gs)) && Timed(SilenceEach(l, gs).l)
    ensures forall g :: g in SilentIn(l, gs) ==> g in gs
  {
    hide Timed, OnReport, Silent, FallsSilent, AfterReport, SilencedSo;
    if gs == [] {
      NoneSilenced(l);
    } else {
      var front, g := gs[..|gs| - 1], gs[|gs| - 1];
      assert gs == front + [g];
      assert forall i :: 0 <= i < |front| ==> gs[i] == front[i];
      SilencesSo(l, front);
      var done, b := SilentIn(l, front), SilenceEach(l, front);
      StillSilent(l, done, g, b);
      if Silent(l, g) {
        var report := Report(SilentKey(g), Some("major"), false);
        ReportsSo(b.l, report);
        OneSilenced(l, done, g, b, OnReport(b.l, report));
      } else {
        assert done + [] == done;
      }
    }
  }

  lemma NoneSilenced(l: Alarms)
    ensures SilencedSo(l, [], Result(l, []))
  {
  }

  lemma StillSilent(l: Alarms, done: seq<string>, g: string, b: Result)
    requires SilencedSo(l, done, b) && g !in done
    ensures FallsSilent(b.l, g) <==> Silent(l, g)
    ensures AlarmAt(b.l, SilentKey(g)) == AlarmAt(l, SilentKey(g))
  {
    hide AfterReport;
    assert AlarmAt(b.l, SilentKey(g)) == AlarmAt(l, SilentKey(g));
  }

  lemma OneSilenced(l: Alarms, done: seq<string>, g: string, b: Result, s: Result)
    requires SilencedSo(l, done, b) && g !in done && Silent(l, g) && ReportedSo(b.l, SilenceOf(g), s)
    requires AlarmAt(b.l, SilenceOf(g).key) == AlarmAt(l, SilenceOf(g).key)
    ensures SilencedSo(l, done + [g], Result(s.l, b.emit + s.emit))
  {
    hide AfterReport;
    var k := SilenceOf(g).key;
    assert s.emit == [Raised(k, Some("major"), k in l.alarms)];
    forall x ensures IsSilence(x, done + [g]) <==> IsSilence(x, done) || x == k { }
  }

  /** By resource, then by type, then by qualifier. */
  predicate ByKey(a: Key, b: Key) {
    || Less(a.resource, b.resource)
    || (a.resource == b.resource && (Less(a.kind, b.kind) || (a.kind == b.kind && Less(a.qualifier, b.qualifier))))
  }

  lemma ByKeyIs(a: Key, b: Key)
    ensures KeyLess(a, b) <==> ByKey(a, b)
  {
    LessTotal(a.resource, b.resource);
    LessTotal(a.kind, b.kind);
  }

  /** What is due by now, by when and then by key. */
  ghost predicate DueList(l: Alarms, ks: seq<Key>) {
    && (forall k :: k in ks <==> k in l.alarms && l.alarms[k].due.Some? && l.alarms[k].due.value <= l.now)
    && (forall i, j :: 0 <= i < j < |ks| ==> DueBefore(l, ks[i], ks[j]))
  }

  predicate DueBefore(l: Alarms, a: Key, b: Key) {
    && a in l.alarms && b in l.alarms && l.alarms[a].due.Some? && l.alarms[b].due.Some?
    && (l.alarms[a].due.value < l.alarms[b].due.value || (l.alarms[a].due == l.alarms[b].due && ByKey(a, b)))
  }

  /** Each of some escalates, and that is all. */
  ghost predicate EscalatedSo(l: Alarms, ks: seq<Key>, z: Result) {
    && z.l == l.(alarms := z.l.alarms)
    && (forall k :: AlarmAt(z.l, k) == if k in ks && k in l.alarms then Some(l.alarms[k].(escalated := true, due := None)) else AlarmAt(l, k))
    && |z.emit| == |ks| && forall i :: 0 <= i < |ks| ==> ks[i] in l.alarms && z.emit[i] == Escalated(ks[i], l.alarms[ks[i]].severity)
  }

  lemma {:induction false} EscalatesSo(l: Alarms, ks: seq<Key>)
    requires (forall i, j :: 0 <= i < j < |ks| ==> ks[i] != ks[j]) && forall k :: k in ks ==> k in l.alarms
    ensures EscalatedSo(l, ks, EscalateEach(l, ks))
  {
    if ks != [] {
      var front, k := ks[..|ks| - 1], ks[|ks| - 1];
      assert ks == front + [k];
      assert forall i :: 0 <= i < |front| ==> ks[i] == front[i];
      EscalatesSo(l, front);
      var b := EscalateEach(l, front);
      assert AlarmAt(b.l, k) == AlarmAt(l, k);
    }
  }

  lemma DueListed(l: Alarms)
    ensures DueList(l, DueOrder(DueEscalations(l)))
  {
    hide ByKey, KeyLess;
    var due := DueEscalations(l);
    SoonerOrders(due);
    Orders.InOrderAscends((a, b) => Sooner(due, a, b), due.Keys);
    var q := DueOrder(due);
    forall i, j | 0 <= i < j < |q| ensures DueBefore(l, q[i], q[j]) {
      assert Sooner(due, q[i], q[j]);
      ByKeyIs(q[i], q[j]);
    }
  }

  lemma EscalatedTimed(l: Alarms, ks: seq<Key>, z: Result)
    requires Timed(l) && EscalatedSo(l, ks, z)
    ensures Timed(z.l)
  {
    forall k | k in z.l.alarms ensures z.l.alarms[k].due.Some? <==> Eligible(z.l.alarms[k], z.l.policy) {
      assert AlarmAt(z.l, k) == if k in ks && k in l.alarms then Some(l.alarms[k].(escalated := true, due := None)) else AlarmAt(l, k);
    }
  }

  ghost predicate SilentList(l: Alarms, gs: seq<string>) { Rising(gs) && forall g :: g in gs <==> Silent(l, g) }

  /** Silent gateways are raised by their ids, and then what is due escalates. */
  ghost predicate AdvancedSo(l: Alarms, seconds: nat, z: Result) {
    exists t: Alarms, gs: seq<string>, s: Result, ks: seq<Key>, e: Result ::
      && t == l.(now := l.now + seconds) && SilentList(t, gs) && SilencedSo(t, gs, s) && DueList(s.l, ks) && EscalatedSo(s.l, ks, e)
      && z == Result(e.l, s.emit + e.emit)
  }

  lemma SilentListed(l: Alarms)
    ensures SilentList(l, SilentIn(l, Sorted(l.gateways.Keys)))
  {
    hide Silent, Less;
    SortedAscends(l.gateways.Keys);
    SilentRises(l, Sorted(l.gateways.Keys));
    forall g | Silent(l, g) ensures g in Sorted(l.gateways.Keys) { SilentKnown(l, g); }
  }

  lemma SilencesAll(l: Alarms) returns (gs: seq<string>)
    requires Timed(l)
    ensures SilentList(l, gs) && SilencedSo(l, gs, SilenceEach(l, Sorted(l.gateways.Keys))) && Timed(SilenceEach(l, Sorted(l.gateways.Keys)).l)
  {
    hide Timed, SilenceEach, SilentList, SilencedSo;
    SortedDistinct(l.gateways.Keys);
    SilencesSo(l, Sorted(l.gateways.Keys));
    SilentListed(l);
    gs := SilentIn(l, Sorted(l.gateways.Keys));
  }

  lemma SortedDistinct(s: set<string>)
    ensures forall i, j :: 0 <= i < j < |Sorted(s)| ==> Sorted(s)[i] != Sorted(s)[j]
  {
    hide Less;
    SortedAscends(s);
    forall i, j | 0 <= i < j < |Sorted(s)| ensures Sorted(s)[i] != Sorted(s)[j] { LessTotal(Sorted(s)[i], Sorted(s)[j]); }
  }

  lemma EscalatesAll(l: Alarms) returns (ks: seq<Key>)
    requires Timed(l)
    ensures var e := EscalateEach(l, DueOrder(DueEscalations(l))); DueList(l, ks) && EscalatedSo(l, ks, e) && Timed(e.l) && RetimeAll(e.l) == e.l
  {
    hide Timed, EscalateEach, DueList, EscalatedSo, RetimeAll, DueOrder, DueEscalations;
    ks := DueOrder(DueEscalations(l));
    DueListed(l);
    DueOrderDistinct(DueEscalations(l));
    DueKnown(l, ks);
    EscalatesSo(l, ks);
    EscalatedTimed(l, ks, EscalateEach(l, ks));
    RetimedAlready(EscalateEach(l, ks).l);
  }

  lemma AdvanceParts(l: Alarms, seconds: nat) returns (t: Alarms, gs: seq<string>, s: Result, ks: seq<Key>, e: Result)
    requires Timed(l)
    ensures t == l.(now := l.now + seconds) && SilentList(t, gs) && SilencedSo(t, gs, s) && DueList(s.l, ks) && EscalatedSo(s.l, ks, e)
    ensures Step(l, Advance(seconds)) == Result(e.l, s.emit + e.emit) && Timed(s.l) && Timed(e.l)
  {
    t := l.(now := l.now + seconds);
    assert Timed(t) by { hide Eligible; }
    hide Timed, SilenceEach, EscalateEach, SilentList, SilencedSo, EscalatedSo, DueList, RetimeAll, DueEscalations, DueOrder, Sorted;
    hide OnAdvance, Settled, Step;
    gs := SilencesAll(t);
    s := SilenceEach(t, Sorted(t.gateways.Keys));
    ks := EscalatesAll(s.l);
    e := EscalateEach(s.l, DueOrder(DueEscalations(s.l)));
    AdvanceIs(l, seconds);
  }

  lemma AdvanceIs(l: Alarms, seconds: nat)
    ensures var t := l.(now := l.now + seconds);
            var s := SilenceEach(t, Sorted(t.gateways.Keys));
            var e := EscalateEach(s.l, DueOrder(DueEscalations(s.l)));
            Step(l, Advance(seconds)) == Result(RetimeAll(e.l), s.emit + e.emit)
  {
    hide SilenceEach, EscalateEach, RetimeAll, DueEscalations, DueOrder, Sorted;
    assert Step(l, Advance(seconds)) == Settled(OnAdvance(l, seconds));
  }

  lemma SilentKnown(l: Alarms, g: string)
    requires Silent(l, g)
    ensures g in l.gateways
  {
  }

  lemma DueKnown(l: Alarms, ks: seq<Key>)
    requires DueList(l, ks)
    ensures forall k :: k in ks ==> k in l.alarms
  {
  }

  // ---- every event

  ghost predicate StepSo(l: Alarms, i: Input, z: Result) {
    match i
    case Told(r) => ReportedSo(l, r, z)
    case Ack(k, state, who) => AckedSo(l, k, state, who, z)
    case Heartbeat(g, interval) => BeatSo(l, g, interval, z)
    case Advance(seconds) => AdvancedSo(l, seconds, z)
  }

  /** What every event does to a list whose timers are right, as they are in every run. */
  lemma EveryEventAlarms(l: Alarms, i: Input)
    requires Timed(l)
    ensures StepSo(l, i, Step(l, i)) && Timed(Step(l, i).l)
  {
    hide Timed, ReportedSo, AckedSo, BeatSo, OnReport, OnAck, OnHeartbeat, OnAdvance, RetimeAll;
    match i
    case Told(r) => ReportsSo(l, r); RetimedAlready(OnReport(l, r).l);
    case Ack(k, state, who) => AcksSo(l, k, state, who);
    case Heartbeat(g, interval) => BeatsSo(l, g, interval);
    case Advance(seconds) => var t, gs, s, ks, e := AdvanceParts(l, seconds);
  }

  // ---- when an alarm escalates

  predicate MayNow(l: Alarms, k: Key) { k in l.alarms && May(l.alarms[k], l.policy) }

  /** Since when it has been eligible without a break, over a run from an empty list. */
  ghost function SinceIn(l: Alarms, inputs: seq<Input>, k: Key): Option<int> {
    if inputs == [] then None
    else
      var front := inputs[..|inputs| - 1];
      var b, z := Run(l, front).l, Run(l, inputs).l;
      if !MayNow(z, k) then None else if MayNow(b, k) then SinceIn(l, front, k) else Some(z.now)
  }

  /** Its timer says so. */
  ghost predicate TimedSince(l: Alarms, k: Key, since: Option<int>) {
    if MayNow(l, k) then since.Some? && l.alarms[k].due == Some(since.value + l.policy.value.after) else since == None
  }

  /** What a step leaves of an eligible alarm's timer. */
  predicate TimedOn(l: Alarms, k: Key, z: Alarms, passed: bool) {
    && z.policy == l.policy
    && (MayNow(z, k) ==> z.alarms[k].due == if MayNow(l, k) then l.alarms[k].due else Some(z.now + z.policy.value.after))
    && (passed && MayNow(z, k) ==> z.alarms[k].due.Some? && z.now < z.alarms[k].due.value)
  }

  lemma StepTimes(l: Alarms, i: Input, k: Key)
    requires Timed(l)
    ensures TimedOn(l, k, Step(l, i).l, i.Advance?)
  {
    var z := Step(l, i);
    EveryEventAlarms(l, i);
    hide Step, Timed, TimedOn, AdvancedSo, ReportedSo, AckedSo, BeatSo;
    match i
    case Told(r) => ReportTimesOne(l, r, z, k);
    case Ack(_, _, _) => AckTimesOne(l, i, z, k);
    case Heartbeat(g, interval) => BeatTimesOne(l, g, interval, z, k);
    case Advance(seconds) => AdvanceTimesOne(l, seconds, k);
  }

  lemma UntimedMay(l: Alarms, k: Key)
    requires Timed(l) && k in l.alarms
    ensures l.alarms[k].due.Some? <==> May(l.alarms[k], l.policy)
  {
    MayIs(l.alarms[k], l.policy);
    hide Eligible, May;
  }

  lemma ReportTimesOne(l: Alarms, r: Report, z: Result, k: Key)
    requires Timed(l) && ReportedSo(l, r, z)
    ensures TimedOn(l, k, z.l, false)
  {
    assert AlarmAt(z.l, k) == if k == r.key then AfterReport(AlarmAt(l, k), r, l.policy, l.now) else AlarmAt(l, k);
    if k in l.alarms { UntimedMay(l, k); }
    hide May, Timed;
  }

  lemma AckTimesOne(l: Alarms, i: Input, z: Result, k: Key)
    requires Timed(l) && i.Ack? && AckedSo(l, i.key, i.state, i.who, z)
    ensures TimedOn(l, k, z.l, false)
  {
    hide Timed;
    if k == i.key && k in z.l.alarms && z.emit != [] {
      assert AlarmAt(z.l, k) == Some(l.alarms[k].(operator := i.state.value, due := None));
      assert !May(z.l.alarms[k], l.policy);
    } else if z.emit != [] {
      assert AlarmAt(z.l, k) == AlarmAt(l, k);
    }
  }

  lemma BeatTimesOne(l: Alarms, g: string, interval: int, z: Result, k: Key)
    requires Timed(l) && BeatSo(l, g, interval, z)
    ensures TimedOn(l, k, z.l, false)
  {
    var h := l.(gateways := l.gateways[g := Gateway(interval, l.now)]);
    assert Timed(h) by { hide Eligible; }
    if k in l.alarms { UntimedMay(l, k); }
    hide Timed, May, ReportedSo;
    var silence := Key(g, "dsip-gateway-silent", "");
    if silence in l.alarms && !l.alarms[silence].cleared { ReportTimesOne(h, Report(silence, None, true), z, k); }
  }

  lemma AdvanceTimesOne(l: Alarms, seconds: nat, k: Key)
    requires Timed(l)
    ensures TimedOn(l, k, Step(l, Advance(seconds)).l, true)
  {
    hide Step;
    var t, gs, s, ks, e := AdvanceParts(l, seconds);
    assert AlarmAt(s.l, k) == if IsSilence(k, gs) then AfterReport(AlarmAt(t, k), SilenceOf(k.resource), t.policy, t.now) else AlarmAt(t, k);
    assert AlarmAt(e.l, k) == if k in ks && k in s.l.alarms then Some(s.l.alarms[k].(escalated := true, due := None)) else AlarmAt(s.l, k);
    if k in l.alarms { UntimedMay(l, k); }
    if k in s.l.alarms { UntimedMay(s.l, k); }
    if k in e.l.alarms { UntimedMay(e.l, k); }
    if IsSilence(k, gs) { assert Silent(t, k.resource); }
    hide Timed, SilencedSo, EscalatedSo;
  }

  /**
   * In every run from an empty list, an eligible alarm's timer runs to the policy's time after it last became eligible, and once
   * time has passed none is overdue: it has escalated.
   */
  lemma {:induction false} EscalatesInTime(l: Alarms, inputs: seq<Input>, k: Key)
    requires l.alarms == map[]
    ensures var z := Run(l, inputs).l;
            && Timed(z) && z.policy == l.policy && TimedSince(z, k, SinceIn(l, inputs, k))
            && (inputs != [] && inputs[|inputs| - 1].Advance? && MayNow(z, k) ==> z.now < SinceIn(l, inputs, k).value + z.policy.value.after)
  {
    hide Step, Timed, May;
    OneEscalationPerRaise(l, inputs, k);
    if inputs != [] {
      var front, i := inputs[..|inputs| - 1], inputs[|inputs| - 1];
      EscalatesInTime(l, front, k);
      var b := Run(l, front).l;
      StepTimes(b, i, k);
    }
  }

  /** And it escalates at no other time: at an advance that reaches its timer, or one that raises it with no time to wait. */
  lemma EscalatesExactly(l: Alarms, i: Input, k: Key)
    requires Timed(l)
    ensures (exists severity :: Escalated(k, severity) in Step(l, i).emit)
       <==> i.Advance?
            && var t := l.(now := l.now + i.seconds);
               || (MayNow(l, k) && l.alarms[k].due.Some? && l.alarms[k].due.value <= t.now)
               || (k == SilenceOf(k.resource).key && Silent(t, k.resource) && t.policy.Some? && t.policy.value.after <= 0 && AtLeast(Some("major"), t.policy.value.minSeverity))
  {
    EveryEventAlarms(l, i);
    if i.Advance? {
      AdvanceEscalates(l, i.seconds, k);
    } else {
      NoneEscalates(l, i, Step(l, i));
    }
  }

  lemma NoneEscalates(l: Alarms, i: Input, z: Result)
    requires !i.Advance? && StepSo(l, i, z)
    ensures forall e :: e in z.emit ==> !e.Escalated?
  {
  }

  lemma AdvanceEscalates(l: Alarms, seconds: nat, k: Key)
    requires Timed(l)
    ensures var t := l.(now := l.now + seconds);
            (exists severity :: Escalated(k, severity) in Step(l, Advance(seconds)).emit)
            <==> (MayNow(l, k) && l.alarms[k].due.Some? && l.alarms[k].due.value <= t.now)
                 || (k == SilenceOf(k.resource).key && Silent(t, k.resource) && t.policy.Some? && t.policy.value.after <= 0 && AtLeast(Some("major"), t.policy.value.minSeverity))
  {
    hide Step;
    var t, gs, s, ks, e := AdvanceParts(l, seconds);
    assert AlarmAt(s.l, k) == if IsSilence(k, gs) then AfterReport(AlarmAt(t, k), SilenceOf(k.resource), t.policy, t.now) else AlarmAt(t, k);
    if k in l.alarms { UntimedMay(l, k); }
    if k in s.l.alarms { UntimedMay(s.l, k); }
    assert IsSilence(k, gs) <==> k == SilenceOf(k.resource).key && Silent(t, k.resource);
    EmittedFor(s.emit, e.emit, ks, k, s.l, gs, t);
    hide Timed, SilencedSo, EscalatedSo;
  }

  lemma EmittedFor(raised: seq<Emission>, told: seq<Emission>, ks: seq<Key>, k: Key, m: Alarms, gs: seq<string>, t: Alarms)
    requires |raised| == |gs| && forall i :: 0 <= i < |gs| ==> raised[i] == Raised(Key(gs[i], "dsip-gateway-silent", ""), Some("major"), SilenceOf(gs[i]).key in t.alarms)
    requires |told| == |ks| && forall i :: 0 <= i < |ks| ==> ks[i] in m.alarms && told[i] == Escalated(ks[i], m.alarms[ks[i]].severity)
    ensures (exists severity :: Escalated(k, severity) in raised + told) <==> k in ks
  {
    if k in ks {
      var i :| 0 <= i < |ks| && ks[i] == k;
      assert (raised + told)[|raised| + i] == Escalated(k, m.alarms[k].severity);
    }
    if severity :| Escalated(k, severity) in raised + told {
      var j :| 0 <= j < |raised + told| && (raised + told)[j] == Escalated(k, severity);
      assert j >= |raised| && told[j - |raised|] == Escalated(k, severity);
    }
  }

  // ---- the hold-down

  /** A raise, or an inform, goes through and takes back what is held of its alarm; a clear waits, unless it need not or one does. */
  ghost predicate HeldSo(h: Hold, r: Report, inform: bool, p: Passed) {
    if inform || !r.cleared then
      && p.deposits == [r] && p.h == h.(held := p.h.held)
      && (forall k :: k in p.h.held <==> k in h.held && k != r.key) && (forall k :: k in p.h.held ==> p.h.held[k] == h.held[k])
    else if h.holdS <= 0 then p == Passed(h, [r])
    else p == Passed(if r.key in h.held then h else h.(held := h.held[r.key := HeldClear(h.now + h.holdS, r)]), [])
  }

  predicate ReleasedBefore(h: Hold, a: Key, b: Key) {
    a in h.held && b in h.held && (h.held[a].due < h.held[b].due || (h.held[a].due == h.held[b].due && ByKey(a, b)))
  }

  /** Exactly the clears whose time has come are deposited, by when and then by key, and no longer held. */
  ghost predicate ReleasedSo(h: Hold, seconds: nat, p: Passed) {
    var now := h.now + seconds;
    && p.h == h.(now := now, held := p.h.held)
    && (forall k :: k in p.h.held <==> k in h.held && now < h.held[k].due) && (forall k :: k in p.h.held ==> p.h.held[k] == h.held[k])
    && exists ks: seq<Key> :: ReleaseList(h, now, ks) && |p.deposits| == |ks| && forall i :: 0 <= i < |ks| ==> ks[i] in h.held && p.deposits[i] == h.held[ks[i]].report
  }

  ghost predicate ReleaseList(h: Hold, now: int, ks: seq<Key>) {
    && (forall k :: k in ks <==> k in h.held && h.held[k].due <= now)
    && forall i, j :: 0 <= i < j < |ks| ==> ReleasedBefore(h, ks[i], ks[j])
  }

  lemma HoldDoes(h: Hold, r: Report, inform: bool)
    ensures HeldSo(h, r, inform, HoldReport(h, r, inform))
  {
  }

  lemma ReleaseListed(h: Hold)
    ensures ReleaseList(h, h.now, DueOrder(DueClears(h)))
  {
    hide ByKey, KeyLess;
    var due := DueClears(h);
    SoonerOrders(due);
    Orders.InOrderAscends((a, b) => Sooner(due, a, b), due.Keys);
    var ks := DueOrder(due);
    forall i, j | 0 <= i < j < |ks| ensures ReleasedBefore(h, ks[i], ks[j]) {
      assert Sooner(due, ks[i], ks[j]);
      ByKeyIs(ks[i], ks[j]);
    }
  }

  lemma ReleaseDoes(h: Hold, seconds: nat)
    ensures ReleasedSo(h, seconds, HoldAdvance(h, seconds))
  {
    var t := h.(now := h.now + seconds);
    var ks := DueOrder(DueClears(t));
    ReleaseListed(t);
    DueOrderDistinct(DueClears(t));
    hide DueOrder, DueClears, ReleaseEach, ReleasedBefore;
    ReleaseEachEffect(t, ks);
    SameList(t, h, t.now, ks);
  }

  lemma SameList(t: Hold, h: Hold, now: int, ks: seq<Key>)
    requires t.held == h.held && ReleaseList(t, now, ks)
    ensures ReleaseList(h, now, ks)
  {
    hide ByKey, KeyLess;
  }
}
