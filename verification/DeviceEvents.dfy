/**
 * The gateway's hold-down and the members' alarm list of `device-events.ts`: what holding clears back may change in
 * the list that members compute, and how often an alarm may escalate.
 */
module DeviceEvents {
  import opened Prelude
  import Orders

  const GATEWAY_SILENT := "dsip-gateway-silent"

  datatype Key = Key(resource: string, kind: string, qualifier: string)

  datatype Report = Report(key: Key, severity: Option<string>, cleared: bool)

  datatype Operator = Untouched | Acked | Closed

  datatype Alarm = Alarm(severity: Option<string>, cleared: bool, operator: Operator, count: nat, escalated: bool, due: Option<int>)

  datatype Policy = Policy(minSeverity: string, after: int)

  datatype Gateway = Gateway(interval: int, last: int)

  datatype Alarms = Alarms(now: int, policy: Option<Policy>, alarms: map<Key, Alarm>, gateways: map<string, Gateway>)

  datatype Emission =
    | Raised(key: Key, severity: Option<string>, reopened: bool)
    | Cleared(key: Key)
    | Changed(key: Key, severity: Option<string>)
    | OperatorSet(key: Key, operator: Operator, who: Option<string>)
    | Escalated(key: Key, severity: Option<string>)

  datatype Result = Result(l: Alarms, emit: seq<Emission>)

  datatype Input =
    | Told(r: Report)
    | Ack(key: Key, state: Option<Operator>, who: Option<string>)
    | Heartbeat(gateway: string, interval: int)
    | Advance(seconds: nat)

  // ---- the alarm list

  function Rank(severity: Option<string>): nat {
    if severity == Some("warning") then 1
    else if severity == Some("minor") then 2
    else if severity == Some("major") then 3
    else if severity == Some("critical") then 4
    else 0
  }

  predicate Eligible(a: Alarm, policy: Option<Policy>) {
    policy.Some? && !a.cleared && a.operator == Untouched && !a.escalated && Rank(Some(policy.value.minSeverity)) <= Rank(a.severity)
  }

  /** A running escalation timer is kept while its alarm stays eligible; an ineligible one loses it. */
  function Retimed(a: Alarm, policy: Option<Policy>, now: int): Alarm {
    if !Eligible(a, policy) then a.(due := None)
    else if a.due.None? then a.(due := Some(now + policy.value.after))
    else a
  }

  function RetimeAll(l: Alarms): Alarms {
    l.(alarms := map k | k in l.alarms :: Retimed(l.alarms[k], l.policy, l.now))
  }

  function Put(l: Alarms, k: Key, a: Alarm): Alarms {
    l.(alarms := l.alarms[k := a])
  }

  function OnReport(l: Alarms, r: Report): Result {
    var k := r.key;
    if k !in l.alarms then
      if r.cleared then Result(l, [])
      else Result(RetimeAll(Put(l, k, Alarm(r.severity, false, Untouched, 1, false, None))), [Raised(k, r.severity, false)])
    else
      var a := l.alarms[k].(count := l.alarms[k].count + 1);
      if a.cleared then
        if r.cleared then Result(Put(l, k, a), [])
        else Result(RetimeAll(Put(l, k, a.(cleared := false, severity := r.severity, operator := Untouched, escalated := false))),
                    [Raised(k, r.severity, true)])
      else if r.cleared then Result(RetimeAll(Put(l, k, a.(cleared := true))), [Cleared(k)])
      else if r.severity != a.severity then Result(RetimeAll(Put(l, k, a.(severity := r.severity))), [Changed(k, r.severity)])
      else Result(RetimeAll(Put(l, k, a)), [])
  }

  function OnAck(l: Alarms, k: Key, state: Option<Operator>, who: Option<string>): Result {
    if state.None? || state.value == Untouched then Result(l, [])
    else if k !in l.alarms || l.alarms[k].operator == Closed || l.alarms[k].operator == state.value then Result(l, [])
    else Result(Put(l, k, l.alarms[k].(operator := state.value)), [OperatorSet(k, state.value, who)])
  }

  function SilentKey(gateway: string): Key {
    Key(gateway, GATEWAY_SILENT, "")
  }

  function OnHeartbeat(l: Alarms, gateway: string, interval: int): Result {
    var h := l.(gateways := l.gateways[gateway := Gateway(interval, l.now)]);
    var k := SilentKey(gateway);
    if k in h.alarms && !h.alarms[k].cleared then OnReport(h, Report(k, None, true)) else Result(h, [])
  }

  /** A key the list raises and clears by itself. */
  predicate OwnSilence(k: Key) { k == SilentKey(k.resource) }

  predicate FallsSilent(l: Alarms, gateway: string) {
    var k := SilentKey(gateway);
    && gateway in l.gateways && (k !in l.alarms || l.alarms[k].cleared)
    && 2 * l.gateways[gateway].interval < l.now - l.gateways[gateway].last
  }

  function SilenceEach(l: Alarms, gateways: seq<string>): Result {
    if gateways == [] then Result(l, [])
    else
      var r := SilenceEach(l, gateways[..|gateways| - 1]);
      var g := gateways[|gateways| - 1];
      if FallsSilent(r.l, g) then
        var s := OnReport(r.l, Report(SilentKey(g), Some("major"), false));
        Result(s.l, r.emit + s.emit)
      else r
  }

  function KeyLess(a: Key, b: Key): bool {
    if a.resource != b.resource then Less(a.resource, b.resource)
    else if a.kind != b.kind then Less(a.kind, b.kind)
    else Less(a.qualifier, b.qualifier)
  }

  /** By due time, then by key. */
  predicate Sooner(due: map<Key, int>, a: Key, b: Key) {
    a in due && b in due && (due[a] < due[b] || (due[a] == due[b] && KeyLess(a, b)))
  }

  lemma KeyLessTotal(a: Key, b: Key)
    ensures a == b || KeyLess(a, b) || KeyLess(b, a)
    ensures !(KeyLess(a, b) && KeyLess(b, a)) && !KeyLess(a, a)
  {
    LessTotal(a.resource, b.resource);
    LessTotal(a.kind, b.kind);
    LessTotal(a.qualifier, b.qualifier);
    LessTotal(a.qualifier, a.qualifier);
  }

  lemma KeyLessTransitive(a: Key, b: Key, c: Key)
    requires KeyLess(a, b) && KeyLess(b, c)
    ensures KeyLess(a, c)
  {
    if a.resource != b.resource && b.resource != c.resource { LessTransitive(a.resource, b.resource, c.resource); LessTotal(a.resource, c.resource); }
    if a.resource == b.resource == c.resource {
      if a.kind != b.kind && b.kind != c.kind { LessTransitive(a.kind, b.kind, c.kind); LessTotal(a.kind, c.kind); }
      if a.kind == b.kind == c.kind { LessTransitive(a.qualifier, b.qualifier, c.qualifier); }
    }
  }

  lemma SoonerOrders(due: map<Key, int>)
    ensures Orders.Total((a, b) => Sooner(due, a, b), due.Keys)
  {
    var before := (a, b) => Sooner(due, a, b);
    forall a, b | a in due && b in due ensures a != b ==> before(a, b) != before(b, a)
                                       ensures !before(a, a)
    {
      KeyLessTotal(a, b);
      KeyLessTotal(a, a);
    }
    forall a, b, c | a in due && b in due && c in due && before(a, b) && before(b, c) ensures before(a, c) {
      if due[a] == due[b] == due[c] { KeyLessTransitive(a, b, c); }
    }
  }

  ghost function DueOrder(due: map<Key, int>): (q: seq<Key>)
    ensures |q| == |due.Keys| && forall k :: k in q <==> k in due
  {
    SoonerOrders(due);
    Orders.InOrder((a, b) => Sooner(due, a, b), due.Keys)
  }

  function DueEscalations(l: Alarms): map<Key, int> {
    map k | k in l.alarms && l.alarms[k].due.Some? && l.alarms[k].due.value <= l.now :: l.alarms[k].due.value
  }

  function EscalateEach(l: Alarms, keys: seq<Key>): Result {
    if keys == [] then Result(l, [])
    else
      var r := EscalateEach(l, keys[..|keys| - 1]);
      var k := keys[|keys| - 1];
      if k in r.l.alarms then
        Result(Put(r.l, k, r.l.alarms[k].(escalated := true, due := None)), r.emit + [Escalated(k, r.l.alarms[k].severity)])
      else r
  }

  ghost function OnAdvance(l: Alarms, seconds: nat): Result {
    var t := l.(now := l.now + seconds);
    var s := SilenceEach(t, Sorted(t.gateways.Keys));
    var e := EscalateEach(s.l, DueOrder(DueEscalations(s.l)));
    Result(e.l, s.emit + e.emit)
  }

  /** Every event ends by re-evaluating the escalation timers. */
  function Settled(r: Result): Result {
    Result(RetimeAll(r.l), r.emit)
  }

  ghost function Step(l: Alarms, i: Input): Result {
    match i
    case Told(r) => Settled(OnReport(l, r))
    case Ack(k, state, who) => Settled(OnAck(l, k, state, who))
    case Heartbeat(g, interval) => Settled(OnHeartbeat(l, g, interval))
    case Advance(seconds) => Settled(OnAdvance(l, seconds))
  }

  // ---- the hold-down

  datatype HeldClear = HeldClear(due: int, report: Report)

  datatype Hold = Hold(now: int, holdS: int, held: map<Key, HeldClear>)

  datatype Passed = Passed(h: Hold, deposits: seq<Report>)

  function HoldReport(h: Hold, r: Report, inform: bool): Passed {
    if inform then Passed(h.(held := h.held - {r.key}), [r])
    else if r.cleared then
      if h.holdS <= 0 then Passed(h, [r])
      else if r.key !in h.held then Passed(h.(held := h.held[r.key := HeldClear(h.now + h.holdS, r)]), [])
      else Passed(h, [])
    else Passed(h.(held := h.held - {r.key}), [r])
  }

  function DueClears(h: Hold): map<Key, int> {
    map k | k in h.held && h.held[k].due <= h.now :: h.held[k].due
  }

  function ReleaseEach(h: Hold, keys: seq<Key>): Passed {
    if keys == [] then Passed(h, [])
    else
      var p := ReleaseEach(h, keys[..|keys| - 1]);
      var k := keys[|keys| - 1];
      if k in p.h.held then Passed(p.h.(held := p.h.held - {k}), p.deposits + [p.h.held[k].report]) else p
  }

  ghost function HoldAdvance(h: Hold, seconds: nat): Passed {
    var t := h.(now := h.now + seconds);
    ReleaseEach(t, DueOrder(DueClears(t)))
  }

  // ---- the list of raw reports beside the list of what the gateway deposits

  datatype Pair = Pair(raw: Alarms, gate: Hold, stored: Alarms)

  datatype Event =
    | Reported(r: Report, inform: bool)
    | Acknowledged(key: Key, state: Option<Operator>, who: Option<string>)
    | Beaten(gateway: string, interval: int)
    | Elapsed(seconds: nat)

  ghost function Feed(l: Alarms, deposits: seq<Report>): Alarms {
    if deposits == [] then l else Step(Feed(l, deposits[..|deposits| - 1]), Told(deposits[|deposits| - 1])).l
  }

  ghost function Both(p: Pair, ev: Event): Pair {
    match ev
    case Reported(r, inform) =>
      var g := HoldReport(p.gate, r, inform);
      Pair(Step(p.raw, Told(r)).l, g.h, Feed(p.stored, g.deposits))
    case Acknowledged(k, state, who) => p.(raw := Step(p.raw, Ack(k, state, who)).l, stored := Step(p.stored, Ack(k, state, who)).l)
    case Beaten(g, interval) => p.(raw := Step(p.raw, Heartbeat(g, interval)).l, stored := Step(p.stored, Heartbeat(g, interval)).l)
    case Elapsed(s) =>
      var g := HoldAdvance(p.gate, s);
      Pair(Step(p.raw, Advance(s)).l, g.h, Feed(Step(p.stored, Advance(s)).l, g.deposits))
  }

  /** What a list says of one alarm. */
  datatype Said = Nothing | Says(severity: Option<string>, cleared: bool)

  function SaidOf(l: Alarms, k: Key): Said {
    if k in l.alarms then Says(l.alarms[k].severity, l.alarms[k].cleared) else Nothing
  }

  /** The two lists name the same alarms with the same severities, and differ only on a clear that is held back. */
  predicate AgreesOn(p: Pair, k: Key) {
    match SaidOf(p.raw, k)
    case Nothing => SaidOf(p.stored, k) == Nothing
    case Says(severity, cleared) =>
      SaidOf(p.stored, k).Says? && SaidOf(p.stored, k).severity == severity && cleared == (SaidOf(p.stored, k).cleared || k in p.gate.held)
  }

  /** What is held are clears, each under its own key, and the two lists hear the same of the gateways and the clock. */
  ghost predicate HoldOk(p: Pair) {
    && (forall k :: k in p.gate.held ==> p.gate.held[k].report.key == k && p.gate.held[k].report.cleared)
    && p.raw.gateways == p.stored.gateways && p.raw.now == p.stored.now
  }

  ghost predicate PairOk(p: Pair) {
    HoldOk(p) && forall k :: AgreesOn(p, k)
  }

  /** What one report does to what is said of its alarm. */
  function SaidAfter(s: Said, r: Report): Said {
    match s
    case Nothing => if r.cleared then Nothing else Says(r.severity, false)
    case Says(severity, cleared) => if r.cleared then Says(severity, true) else Says(r.severity, false)
  }

  /** Nothing but the alarms of a list differ. */
  predicate SameAside(l: Alarms, m: Alarms) {
    m.gateways == l.gateways && m.now == l.now && m.policy == l.policy
  }

  lemma RetimeSays(l: Alarms)
    ensures SameAside(l, RetimeAll(l)) && forall k :: SaidOf(RetimeAll(l), k) == SaidOf(l, k)
  {
  }

  lemma ReportSays(l: Alarms, r: Report)
    ensures var m := OnReport(l, r).l;
            SameAside(l, m) && forall k :: SaidOf(m, k) == if k == r.key then SaidAfter(SaidOf(l, k), r) else SaidOf(l, k)
  {
    hide RetimeAll;
    var k := r.key;
    if k !in l.alarms {
      RetimeSays(Put(l, k, Alarm(r.severity, false, Untouched, 1, false, None)));
    } else {
      var a := l.alarms[k].(count := l.alarms[k].count + 1);
      if a.cleared {
        RetimeSays(Put(l, k, a.(cleared := false, severity := r.severity, operator := Untouched, escalated := false)));
      } else if r.cleared {
        RetimeSays(Put(l, k, a.(cleared := true)));
      } else if r.severity != a.severity {
        RetimeSays(Put(l, k, a.(severity := r.severity)));
      } else {
        RetimeSays(Put(l, k, a));
      }
    }
  }

  lemma ToldSays(l: Alarms, r: Report)
    ensures var m := Step(l, Told(r)).l;
            SameAside(l, m) && forall k :: SaidOf(m, k) == if k == r.key then SaidAfter(SaidOf(l, k), r) else SaidOf(l, k)
  {
    hide RetimeAll, OnReport;
    ReportSays(l, r);
    RetimeSays(OnReport(l, r).l);
  }

  lemma AckSays(l: Alarms, k: Key, state: Option<Operator>, who: Option<string>)
    ensures var m := Step(l, Ack(k, state, who)).l; SameAside(l, m) && forall x :: SaidOf(m, x) == SaidOf(l, x)
  {
    hide RetimeAll;
    RetimeSays(OnAck(l, k, state, who).l);
  }

  /** Whether a heartbeat or the clock changes what is said of a silence alarm depends only on what is said of it. */
  lemma HeartbeatSays(l: Alarms, g: string, interval: int)
    ensures var m := Step(l, Heartbeat(g, interval)).l;
            && m.now == l.now && m.policy == l.policy && m.gateways == l.gateways[g := Gateway(interval, l.now)]
            && forall k :: SaidOf(m, k) == if k == SilentKey(g) && SaidOf(l, k).Says? && !SaidOf(l, k).cleared
                                           then SaidAfter(SaidOf(l, k), Report(k, None, true)) else SaidOf(l, k)
  {
    hide RetimeAll, OnReport;
    var h := l.(gateways := l.gateways[g := Gateway(interval, l.now)]);
    ReportSays(h, Report(SilentKey(g), None, true));
    RetimeSays(OnHeartbeat(l, g, interval).l);
  }

  lemma {:induction false} EscalateEachSays(l: Alarms, keys: seq<Key>)
    ensures var m := EscalateEach(l, keys).l; SameAside(l, m) && forall k :: SaidOf(m, k) == SaidOf(l, k)
  {
    if keys != [] { EscalateEachSays(l, keys[..|keys| - 1]); }
  }

  /** What a pass over the gateways says: an overdue gateway whose silence is not raised has it raised, and nothing else changes. */
  function SilenceSaid(l: Alarms, gateways: seq<string>, k: Key): Said {
    if OwnSilence(k) && k.resource in gateways && FallsSilent(l, k.resource) then Says(Some("major"), false) else SaidOf(l, k)
  }

  lemma {:induction false} SilenceEachSays(l: Alarms, gateways: seq<string>)
    ensures var x := SilenceEach(l, gateways).l; SameAside(l, x) && forall k :: SaidOf(x, k) == SilenceSaid(l, gateways, k)
  {
    hide OnReport, SaidOf, FallsSilent;
    if gateways != [] {
      var front, g := gateways[..|gateways| - 1], gateways[|gateways| - 1];
      assert gateways == front + [g];
      SilenceEachSays(l, front);
      var x := SilenceEach(l, front).l;
      FallsSilentSaid(l, g);
      FallsSilentSaid(x, g);
      ReportSays(x, Report(SilentKey(g), Some("major"), false));
      forall k ensures SaidOf(SilenceEach(l, gateways).l, k) == SilenceSaid(l, gateways, k) {
        if OwnSilence(k) && k.resource == g { assert k == SilentKey(g); }
      }
    }
  }

  lemma FallsSilentSaid(l: Alarms, g: string)
    ensures FallsSilent(l, g) <==>
              && g in l.gateways && (SaidOf(l, SilentKey(g)) == Nothing || SaidOf(l, SilentKey(g)).cleared)
              && 2 * l.gateways[g].interval < l.now - l.gateways[g].last
  {
  }

  /** Escalating changes nothing that is said: what an advance changes is the silences. */
  lemma AdvanceIsSilence(l: Alarms, seconds: nat)
    ensures var t := l.(now := l.now + seconds);
            var v := SilenceEach(t, Sorted(t.gateways.Keys)).l;
            SameAside(v, Step(l, Advance(seconds)).l) && forall k :: SaidOf(Step(l, Advance(seconds)).l, k) == SaidOf(v, k)
  {
    hide *;
    var t := l.(now := l.now + seconds);
    var v := SilenceEach(t, Sorted(t.gateways.Keys)).l;
    var e := EscalateEach(v, DueOrder(DueEscalations(v))).l;
    EscalateEachSays(v, DueOrder(DueEscalations(v)));
    RetimeSays(e);
    StepAdvances(l, seconds);
    SameAsideTrans(v, e, RetimeAll(e));
  }

  lemma StepAdvances(l: Alarms, seconds: nat)
    ensures var t := l.(now := l.now + seconds);
            var v := SilenceEach(t, Sorted(t.gateways.Keys)).l;
            Step(l, Advance(seconds)).l == RetimeAll(EscalateEach(v, DueOrder(DueEscalations(v))).l)
  {
    hide RetimeAll, SilenceEach, EscalateEach, DueEscalations, DueOrder, FallsSilent, Sorted;
    assert Step(l, Advance(seconds)) == Settled(OnAdvance(l, seconds));
  }

  lemma SameAsideTrans(l: Alarms, m: Alarms, n: Alarms)
    requires SameAside(l, m) && SameAside(m, n)
    ensures SameAside(l, n)
  {
  }

  lemma AdvanceSays(l: Alarms, seconds: nat)
    ensures var t, x := l.(now := l.now + seconds), Step(l, Advance(seconds)).l;
            && SameAside(t, x)
            && forall k :: SaidOf(x, k) == if OwnSilence(k) && FallsSilent(t, k.resource) then Says(Some("major"), false) else SaidOf(l, k)
  {
    hide Step, SilenceEach, SaidOf;
    var t := l.(now := l.now + seconds);
    NowSays(l, t);
    SilenceEachSays(t, Sorted(t.gateways.Keys));
    AdvanceIsSilence(l, seconds);
  }

  lemma NowSays(l: Alarms, t: Alarms)
    requires t.alarms == l.alarms
    ensures forall k :: SaidOf(t, k) == SaidOf(l, k)
  {
  }

  // ---- what the hold-down lets through

  /** Releasing a clear of an alarm already cleared, or cleared in the raw list, brings the lists together on it. */
  lemma {:induction false} FeedSays(l: Alarms, deposits: seq<Report>)
    requires forall i, j :: 0 <= i < j < |deposits| ==> deposits[i].key != deposits[j].key
    ensures var m := Feed(l, deposits);
            && SameAside(l, m)
            && (forall i :: 0 <= i < |deposits| ==> SaidOf(m, deposits[i].key) == SaidAfter(SaidOf(l, deposits[i].key), deposits[i]))
            && (forall k :: (forall i :: 0 <= i < |deposits| ==> deposits[i].key != k) ==> SaidOf(m, k) == SaidOf(l, k))
  {
    hide Step, SaidOf, SaidAfter;
    if deposits != [] {
      var front, last := deposits[..|deposits| - 1], deposits[|deposits| - 1];
      FeedSays(l, front);
      ToldSays(Feed(l, front), last);
      assert forall i :: 0 <= i < |front| ==> deposits[i] == front[i] && deposits[i].key != last.key;
    }
  }

  lemma {:induction false} ReleaseEachEffect(h: Hold, keys: seq<Key>)
    requires forall i, j :: 0 <= i < j < |keys| ==> keys[i] != keys[j]
    requires forall k :: k in keys ==> k in h.held
    ensures var p := ReleaseEach(h, keys);
            && |p.deposits| == |keys| && (forall i :: 0 <= i < |keys| ==> p.deposits[i] == h.held[keys[i]].report)
            && p.h == h.(held := p.h.held)
            && (forall k :: k in p.h.held <==> k in h.held && k !in keys) && (forall k :: k in p.h.held ==> p.h.held[k] == h.held[k])
  {
    if keys != [] {
      var front, last := keys[..|keys| - 1], keys[|keys| - 1];
      assert keys == front + [last];
      assert forall i :: 0 <= i < |front| ==> keys[i] == front[i] && keys[i] != last;
      assert last !in front;
      ReleaseEachEffect(h, front);
    }
  }

  lemma DueOrderDistinct(due: map<Key, int>)
    ensures forall i, j :: 0 <= i < j < |DueOrder(due)| ==> DueOrder(due)[i] != DueOrder(due)[j]
  {
    SoonerOrders(due);
    Orders.InOrderAscends((a, b) => Sooner(due, a, b), due.Keys);
    var q := DueOrder(due);
    forall i, j | 0 <= i < j < |q| ensures q[i] != q[j] {
      assert Sooner(due, q[i], q[j]);
      KeyLessTotal(q[i], q[j]);
    }
  }

  /** The silence of a gateway is held back as cleared just when the raw list raises it. */
  predicate RaisedWhileHeld(p: Pair, seconds: nat, k: Key) {
    OwnSilence(k) && k in p.gate.held && FallsSilent(p.raw.(now := p.raw.now + seconds), k.resource)
  }

  /** One alarm across an advance, where `x` and `y` are the lists after their own advance and before the deposits. */
  lemma ElapsedAgrees(p: Pair, seconds: nat, q: Pair, y: Alarms, k: Key)
    requires PairOk(p)
    requires SaidOf(q.raw, k) == if OwnSilence(k) && FallsSilent(p.raw.(now := p.raw.now + seconds), k.resource)
                                 then Says(Some("major"), false) else SaidOf(p.raw, k)
    requires SaidOf(y, k) == if OwnSilence(k) && FallsSilent(p.stored.(now := p.stored.now + seconds), k.resource)
                             then Says(Some("major"), false) else SaidOf(p.stored, k)
    requires k in q.gate.held ==> k in p.gate.held
    requires SaidOf(q.stored, k) == if k in p.gate.held && k !in q.gate.held then SaidAfter(SaidOf(y, k), p.gate.held[k].report) else SaidOf(y, k)
    ensures AgreesOn(q, k) <==> !RaisedWhileHeld(p, seconds, k)
  {
    hide SaidOf, FallsSilent;
    assert AgreesOn(p, k);
    if OwnSilence(k) {
      assert k == SilentKey(k.resource);
      FallsSilentSaid(p.raw.(now := p.raw.now + seconds), k.resource);
      FallsSilentSaid(p.stored.(now := p.stored.now + seconds), k.resource);
      NowSays(p.raw, p.raw.(now := p.raw.now + seconds));
      NowSays(p.stored, p.stored.(now := p.stored.now + seconds));
    }
  }

  /** The clears a wait releases, each deposited with what it makes the stored list say of its key. */
  lemma ReleasedSays(h: Hold, y: Alarms, keys: seq<Key>)
    requires forall i, j :: 0 <= i < j < |keys| ==> keys[i] != keys[j]
    requires forall k :: k in keys ==> k in h.held && h.held[k].report.key == k
    ensures var z := Feed(y, ReleaseEach(h, keys).deposits);
            && SameAside(y, z)
            && (forall k :: SaidOf(z, k) == if k in keys then SaidAfter(SaidOf(y, k), h.held[k].report) else SaidOf(y, k))
  {
    hide Step, SaidOf, SaidAfter, ReleaseEach, Feed;
    ReleaseEachEffect(h, keys);
    var g := ReleaseEach(h, keys);
    assert forall i :: 0 <= i < |keys| ==> keys[i] in keys && g.deposits[i].key == keys[i];
    FeedSays(y, g.deposits);
    forall k ensures SaidOf(Feed(y, g.deposits), k) == if k in keys then SaidAfter(SaidOf(y, k), h.held[k].report) else SaidOf(y, k) {
      if k in keys {
        var i :| 0 <= i < |keys| && keys[i] == k;
        assert g.deposits[i].key == k;
      }
    }
  }

  /** Over a wait, an alarm on which the lists agreed stays so exactly if it is not a silence raised while its clear is held. */
  lemma ElapsedAgreesExactly(p: Pair, seconds: nat)
    requires PairOk(p)
    ensures var q := Both(p, Elapsed(seconds));
            && HoldOk(q) && forall k :: AgreesOn(q, k) <==> !RaisedWhileHeld(p, seconds, k)
  {
    hide Step, SaidOf, SaidAfter, ReleaseEach, Feed, AgreesOn, RaisedWhileHeld, FallsSilent;
    var t := p.gate.(now := p.gate.now + seconds);
    var keys := DueOrder(DueClears(t));
    DueOrderDistinct(DueClears(t));
    ReleaseEachEffect(t, keys);
    AdvanceSays(p.raw, seconds);
    AdvanceSays(p.stored, seconds);
    var y := Step(p.stored, Advance(seconds)).l;
    ReleasedSays(t, y, keys);
    var q := Both(p, Elapsed(seconds));
    forall k ensures AgreesOn(q, k) <==> !RaisedWhileHeld(p, seconds, k) { ElapsedAgrees(p, seconds, q, y, k); }
  }

  lemma SaidSame(p: Pair, k: Key)
    requires AgreesOn(p, k) && k !in p.gate.held
    ensures SaidOf(p.raw, k) == SaidOf(p.stored, k)
  {
  }

  lemma ReportedKeeps(p: Pair, r: Report, inform: bool)
    requires PairOk(p)
    ensures PairOk(Both(p, Reported(r, inform)))
  {
    hide Step, SaidOf;
    var g := HoldReport(p.gate, r, inform);
    ToldSays(p.raw, r);
    assert g.deposits == [] || g.deposits == [r];
    FeedSays(p.stored, g.deposits);
    var q := Both(p, Reported(r, inform));
    forall k ensures AgreesOn(q, k) {
      assert AgreesOn(p, k);
      if g.deposits != [] { assert g.deposits[0] == r; }
    }
  }

  lemma BeatenKeeps(p: Pair, gateway: string, interval: int)
    requires PairOk(p)
    ensures PairOk(Both(p, Beaten(gateway, interval)))
  {
    hide Step, SaidOf;
    HeartbeatSays(p.raw, gateway, interval);
    HeartbeatSays(p.stored, gateway, interval);
    var q := Both(p, Beaten(gateway, interval));
    forall k ensures AgreesOn(q, k) {
      assert AgreesOn(p, k);
    }
  }

  /** The clock moves on past a watched gateway's time while a clear of that gateway's silence is held back. */
  ghost predicate Hides(p: Pair, ev: Event) {
    ev.Elapsed? && exists k :: RaisedWhileHeld(p, ev.seconds, k)
  }

  /** Lists that agree go on agreeing exactly if no silence is raised while its clear is held. */
  lemma BothKeepsExactly(p: Pair, ev: Event)
    requires PairOk(p)
    ensures PairOk(Both(p, ev)) <==> !Hides(p, ev)
  {
    hide Step, AgreesOn, RaisedWhileHeld, HoldOk;
    match ev
    case Reported(r, inform) => ReportedKeeps(p, r, inform);
    case Acknowledged(k, state, who) => AcknowledgedKeeps(p, k, state, who);
    case Beaten(g, interval) => BeatenKeeps(p, g, interval);
    case Elapsed(s) => ElapsedAgreesExactly(p, s);
  }

  lemma AcknowledgedKeeps(p: Pair, k: Key, state: Option<Operator>, who: Option<string>)
    requires PairOk(p)
    ensures PairOk(Both(p, Acknowledged(k, state, who)))
  {
    hide Step, SaidOf;
    AckSays(p.raw, k, state, who);
    AckSays(p.stored, k, state, who);
    var q := Both(p, Acknowledged(k, state, who));
    forall x ensures AgreesOn(q, x) { assert AgreesOn(p, x); }
  }

  ghost function RunBoth(p: Pair, evs: seq<Event>): Pair {
    if evs == [] then p else Both(RunBoth(p, evs[..|evs| - 1]), evs[|evs| - 1])
  }

  ghost predicate Started(p: Pair) {
    p.raw.alarms == map[] && p.stored.alarms == map[] && p.gate.held == map[] && p.raw.gateways == p.stored.gateways && p.raw.now == p.stored.now
  }

  ghost predicate NeverHides(p: Pair, evs: seq<Event>) {
    forall i :: 0 <= i < |evs| ==> !Hides(RunBoth(p, evs[..i]), evs[i])
  }

  /** Up to every point of a run the two lists agree. */
  ghost predicate AgreesThroughout(p: Pair, evs: seq<Event>) {
    forall i :: 0 <= i <= |evs| ==> PairOk(RunBoth(p, evs[..i]))
  }

  lemma ThroughoutNext(p: Pair, front: seq<Event>, ev: Event)
    ensures AgreesThroughout(p, front + [ev]) <==> AgreesThroughout(p, front) && PairOk(RunBoth(p, front + [ev]))
    ensures RunBoth(p, front + [ev]) == Both(RunBoth(p, front), ev)
  {
    hide Both, PairOk;
    var evs, n := front + [ev], |front|;
    assert forall i :: 0 <= i <= n ==> evs[..i] == front[..i];
    assert evs[..n + 1] == evs && evs[..n] == front;
    if AgreesThroughout(p, evs) {
      forall i | 0 <= i <= n ensures PairOk(RunBoth(p, front[..i])) { assert PairOk(RunBoth(p, evs[..i])); }
      assert PairOk(RunBoth(p, evs[..n + 1]));
    }
  }

  lemma NeverHidesNext(p: Pair, front: seq<Event>, ev: Event)
    ensures NeverHides(p, front + [ev]) <==> NeverHides(p, front) && !Hides(RunBoth(p, front), ev)
  {
    hide RunBoth, Hides;
    var evs, n := front + [ev], |front|;
    assert forall i :: 0 <= i <= n ==> evs[..i] == front[..i];
    assert evs[n] == ev && front[..n] == front;
    assert forall i :: 0 <= i < n ==> evs[i] == front[i];
    if NeverHides(p, evs) {
      forall i | 0 <= i < n ensures !Hides(RunBoth(p, front[..i]), front[i]) { assert !Hides(RunBoth(p, evs[..i]), evs[i]); }
      assert !Hides(RunBoth(p, evs[..n]), evs[n]);
    }
  }

  lemma ThroughoutEnd(p: Pair, evs: seq<Event>)
    requires AgreesThroughout(p, evs)
    ensures PairOk(RunBoth(p, evs))
  {
    hide RunBoth, PairOk;
    assert evs[..|evs|] == evs;
  }

  /** The two lists agree at every point of a run exactly if the run raises no silence while its clear is held. */
  lemma {:induction false} HoldDownKeepsMeaningExactly(p: Pair, evs: seq<Event>)
    requires Started(p)
    ensures AgreesThroughout(p, evs) <==> NeverHides(p, evs)
  {
    hide Both, PairOk, Hides;
    if evs == [] {
      StartAgrees(p);
    } else {
      hide AgreesThroughout, NeverHides, RunBoth;
      var front, ev := evs[..|evs| - 1], evs[|evs| - 1];
      assert evs == front + [ev];
      HoldDownKeepsMeaningExactly(p, front);
      ThroughoutNext(p, front, ev);
      NeverHidesNext(p, front, ev);
      if AgreesThroughout(p, front) {
        ThroughoutEnd(p, front);
        BothKeepsExactly(RunBoth(p, front), ev);
      }
    }
  }

  lemma StartAgrees(p: Pair)
    requires Started(p)
    ensures PairOk(p)
  {
  }

  /**
   * Whatever is reported and however clears are held back, unless a silence is raised while its clear is held, at every
   * point the raw list and the deposited list name the same alarms with the same severities; an alarm cleared in the raw
   * list is cleared in the other or its clear is held; and once nothing is held the two say the same.
   */
  lemma HoldDownKeepsMeaning(p: Pair, evs: seq<Event>)
    requires Started(p) && NeverHides(p, evs)
    ensures var q := RunBoth(p, evs);
            && (forall k :: k in q.raw.alarms <==> k in q.stored.alarms)
            && (forall k :: k in q.raw.alarms ==>
                  q.raw.alarms[k].severity == q.stored.alarms[k].severity
                  && q.raw.alarms[k].cleared == (q.stored.alarms[k].cleared || k in q.gate.held))
            && (q.gate.held == map[] ==> forall k :: SaidOf(q.raw, k) == SaidOf(q.stored, k))
  {
    hide Both, NeverHides, RunBoth, AgreesThroughout;
    HoldDownKeepsMeaningExactly(p, evs);
    ThroughoutEnd(p, evs);
    var q := RunBoth(p, evs);
    forall k ensures k in q.raw.alarms <==> k in q.stored.alarms { assert AgreesOn(q, k); }
    forall k | k in q.raw.alarms
      ensures q.raw.alarms[k].severity == q.stored.alarms[k].severity
              && q.raw.alarms[k].cleared == (q.stored.alarms[k].cleared || k in q.gate.held)
    {
      assert AgreesOn(q, k);
    }
    if q.gate.held == map[] {
      forall k ensures SaidOf(q.raw, k) == SaidOf(q.stored, k) { assert AgreesOn(q, k); SaidSame(q, k); }
    }
  }

  /** A report that is no clear, by trap, of a gateway's silence: the only word the hold-down would hold of it. */
  predicate FromDevices(ev: Event) {
    ev.Reported? && ev.r.cleared && !ev.inform ==> !OwnSilence(ev.r.key)
  }

  lemma HeldFromDevices(p: Pair, ev: Event)
    requires FromDevices(ev) && forall k :: k in p.gate.held ==> !OwnSilence(k)
    ensures forall k :: k in Both(p, ev).gate.held ==> !OwnSilence(k)
    ensures !Hides(p, ev)
  {
    hide Step, Feed, FallsSilent;
    if ev.Elapsed? {
      hide Both, HoldAdvance;
      ElapsedHolds(p, ev.seconds);
    }
  }

  lemma ElapsedHolds(p: Pair, seconds: nat)
    ensures forall k :: k in Both(p, Elapsed(seconds)).gate.held ==> k in p.gate.held
  {
    hide Step, Feed, HoldAdvance;
    AdvanceHolds(p.gate, seconds);
  }

  lemma AdvanceHolds(h: Hold, seconds: nat)
    ensures forall k :: k in HoldAdvance(h, seconds).h.held ==> k in h.held
  {
    hide ReleaseEach, DueOrder;
    var t := h.(now := h.now + seconds);
    DueOrderDistinct(DueClears(t));
    ReleaseEachEffect(t, DueOrder(DueClears(t)));
  }

  /** While no device traps a clear under the list's own silence type, the lists agree throughout. */
  lemma {:induction false} DevicesNeverHide(p: Pair, evs: seq<Event>)
    requires Started(p) && forall i :: 0 <= i < |evs| ==> FromDevices(evs[i])
    ensures NeverHides(p, evs) && forall k :: k in RunBoth(p, evs).gate.held ==> !OwnSilence(k)
  {
    hide Both, Hides, OwnSilence;
    if evs != [] {
      hide NeverHides;
      var front, ev := evs[..|evs| - 1], evs[|evs| - 1];
      assert evs == front + [ev];
      assert forall i :: 0 <= i < |front| ==> front[i] == evs[i];
      DevicesNeverHide(p, front);
      NeverHidesNext(p, front, ev);
      HeldFromDevices(RunBoth(p, front), ev);
    }
  }

  // ---- a clear under the list's own type

  /** One gateway is watched, nothing was heard, and clears are held for ten seconds. */
  function Watched(): Pair {
    var l := Alarms(0, None, map[], map["gw" := Gateway(1, 0)]);
    Pair(l, Hold(0, 10, map[]), l)
  }

  /** A clear of the gateway's silence is trapped, and then the gateway is silent. */
  function ClearThenSilence(): seq<Event> {
    [Reported(Report(SilentKey("gw"), None, true), false), Elapsed(3)]
  }

  /** The raw list raises the silence that the other list takes as cleared, or will when the held clear is released. */
  lemma OwnTypeDisagrees()
    ensures Started(Watched()) && !AgreesOn(RunBoth(Watched(), ClearThenSilence()), SilentKey("gw"))
  {
    hide Both;
    var p, clear := Watched(), Report(SilentKey("gw"), None, true);
    assert ClearThenSilence()[..1] == [Reported(clear, false)] && [Reported(clear, false)][..0] == [];
    var q := Both(p, Reported(clear, false));
    StartAgrees(p);
    ReportedKeeps(p, clear, false);
    ClearHeld(p, clear);
    assert RaisedWhileHeld(q, 3, SilentKey("gw"));
    ElapsedAgreesExactly(q, 3);
  }

  lemma ClearHeld(p: Pair, r: Report)
    requires r.cleared && r.key !in p.raw.alarms && r.key !in p.gate.held && 0 < p.gate.holdS
    ensures var q := Both(p, Reported(r, false)); q.raw == RetimeAll(p.raw) && r.key in q.gate.held
  {
  }

  // ---- escalation

  predicate Escalates(e: Emission, k: Key) { e.Escalated? && e.key == k }

  predicate Raises(e: Emission, k: Key) { e.Raised? && e.key == k }

  function CountEscalated(emit: seq<Emission>, k: Key): nat {
    if emit == [] then 0 else CountEscalated(emit[..|emit| - 1], k) + if Escalates(emit[|emit| - 1], k) then 1 else 0
  }

  function CountRaised(emit: seq<Emission>, k: Key): nat {
    if emit == [] then 0 else CountRaised(emit[..|emit| - 1], k) + if Raises(emit[|emit| - 1], k) then 1 else 0
  }

  lemma {:induction false} CountsAppend(a: seq<Emission>, b: seq<Emission>, k: Key)
    ensures CountEscalated(a + b, k) == CountEscalated(a, k) + CountEscalated(b, k)
    ensures CountRaised(a + b, k) == CountRaised(a, k) + CountRaised(b, k)
  {
    if b == [] {
      assert a + b == a;
    } else {
      assert (a + b)[..|a + b| - 1] == a + b[..|b| - 1];
      CountsAppend(a, b[..|b| - 1], k);
    }
  }

  lemma CountsOne(e: Emission, k: Key)
    ensures CountEscalated([e], k) == (if Escalates(e, k) then 1 else 0) && CountRaised([e], k) == (if Raises(e, k) then 1 else 0)
    ensures CountEscalated([], k) == 0 && CountRaised([], k) == 0
  {
    assert [e][..0] == [];
  }

  /** An alarm that may still escalate. */
  function Credit(l: Alarms, k: Key): nat {
    if k in l.alarms && !l.alarms[k].escalated then 1 else 0
  }

  /** A timer runs exactly for the alarms that may escalate now. */
  ghost predicate Timed(l: Alarms) {
    forall k :: k in l.alarms ==> (l.alarms[k].due.Some? <==> Eligible(l.alarms[k], l.policy))
  }

  /** Every escalation uses up a credit, and only a raise gives one. */
  predicate Pays(l: Alarms, r: Result, k: Key) {
    CountEscalated(r.emit, k) + Credit(r.l, k) <= Credit(l, k) + CountRaised(r.emit, k)
  }

  lemma RetimePays(l: Alarms)
    ensures Timed(RetimeAll(l)) && forall k :: Credit(RetimeAll(l), k) == Credit(l, k)
  {
  }

  lemma ReportPays(l: Alarms, r: Report, k: Key)
    ensures Pays(l, OnReport(l, r), k)
  {
    hide RetimeAll;
    var s := OnReport(l, r);
    CountsOne(Raised(r.key, r.severity, false), k);
    CountsOne(Raised(r.key, r.severity, true), k);
    CountsOne(Cleared(r.key), k);
    CountsOne(Changed(r.key, r.severity), k);
    if r.key !in l.alarms {
      RetimePays(Put(l, r.key, Alarm(r.severity, false, Untouched, 1, false, None)));
    } else {
      var a := l.alarms[r.key].(count := l.alarms[r.key].count + 1);
      if a.cleared {
        RetimePays(Put(l, r.key, a.(cleared := false, severity := r.severity, operator := Untouched, escalated := false)));
      } else if r.cleared {
        RetimePays(Put(l, r.key, a.(cleared := true)));
      } else if r.severity != a.severity {
        RetimePays(Put(l, r.key, a.(severity := r.severity)));
      } else {
        RetimePays(Put(l, r.key, a));
      }
    }
  }

  lemma ReportTimes(l: Alarms, r: Report)
    requires Timed(l) && !r.cleared
    ensures Timed(OnReport(l, r).l)
  {
    hide RetimeAll;
    if r.key !in l.alarms {
      RetimePays(Put(l, r.key, Alarm(r.severity, false, Untouched, 1, false, None)));
    } else {
      var a := l.alarms[r.key].(count := l.alarms[r.key].count + 1);
      if a.cleared {
        RetimePays(Put(l, r.key, a.(cleared := false, severity := r.severity, operator := Untouched, escalated := false)));
      } else if r.severity != a.severity {
        RetimePays(Put(l, r.key, a.(severity := r.severity)));
      } else {
        RetimePays(Put(l, r.key, a));
      }
    }
  }

  lemma {:induction false} SilenceEachPays(l: Alarms, gateways: seq<string>, k: Key)
    requires Timed(l)
    ensures Pays(l, SilenceEach(l, gateways), k) && Timed(SilenceEach(l, gateways).l)
  {
    hide OnReport, Timed;
    if gateways == [] {
      CountsOne(Cleared(k), k);
    } else {
      SilenceEachPays(l, gateways[..|gateways| - 1], k);
      var r := SilenceEach(l, gateways[..|gateways| - 1]);
      var report := Report(SilentKey(gateways[|gateways| - 1]), Some("major"), false);
      ReportPays(r.l, report, k);
      ReportTimes(r.l, report);
      CountsAppend(r.emit, OnReport(r.l, report).emit, k);
    }
  }

  /** Escalating keeps every alarm and touches only those it escalates. */
  lemma {:induction false} EscalateEachTouches(l: Alarms, keys: seq<Key>)
    ensures EscalateEach(l, keys).l.alarms.Keys == l.alarms.Keys
    ensures forall x :: x in l.alarms && x !in keys ==> EscalateEach(l, keys).l.alarms[x] == l.alarms[x]
  {
    if keys != [] {
      var front, last := keys[..|keys| - 1], keys[|keys| - 1];
      assert keys == front + [last];
      EscalateEachTouches(l, front);
    }
  }

  lemma EscalateOnePays(l: Alarms, k: Key, x: Key)
    requires x in l.alarms && !l.alarms[x].escalated
    ensures Pays(l, Result(Put(l, x, l.alarms[x].(escalated := true, due := None)), [Escalated(x, l.alarms[x].severity)]), k)
  {
    CountsOne(Escalated(x, l.alarms[x].severity), k);
  }

  lemma PaysOn(l: Alarms, r: Result, s: Result, k: Key)
    requires Pays(l, r, k) && Pays(r.l, s, k)
    ensures Pays(l, Result(s.l, r.emit + s.emit), k)
  {
    CountsAppend(r.emit, s.emit, k);
  }

  lemma {:induction false} EscalateEachPays(l: Alarms, keys: seq<Key>, k: Key)
    requires forall i, j :: 0 <= i < j < |keys| ==> keys[i] != keys[j]
    requires forall x :: x in keys ==> x in l.alarms && !l.alarms[x].escalated
    ensures Pays(l, EscalateEach(l, keys), k)
  {
    hide Pays;
    if keys == [] {
      NonePays(l, k);
    } else {
      var front, last := keys[..|keys| - 1], keys[|keys| - 1];
      assert forall i :: 0 <= i < |front| ==> keys[i] == front[i] && keys[i] != last;
      assert last !in front && last in keys;
      EscalateEachPays(l, front, k);
      EscalateEachTouches(l, front);
      var r := EscalateEach(l, front);
      EscalateOnePays(r.l, k, last);
      PaysOn(l, r, Result(Put(r.l, last, r.l.alarms[last].(escalated := true, due := None)), [Escalated(last, r.l.alarms[last].severity)]), k);
    }
  }

  lemma NonePays(l: Alarms, k: Key)
    ensures Pays(l, Result(l, []), k)
  {
    CountsOne(Cleared(k), k);
  }

  lemma AdvancePays(l: Alarms, seconds: nat, k: Key)
    requires Timed(l)
    ensures Pays(l, OnAdvance(l, seconds), k)
  {
    hide SilenceEach, EscalateEach, Sorted, DueOrder, Eligible;
    var t := l.(now := l.now + seconds);
    assert Timed(t);
    var gs := Sorted(t.gateways.Keys);
    SilenceEachPays(t, gs, k);
    var v := SilenceEach(t, gs);
    var due := DueEscalations(v.l);
    DueOrderDistinct(due);
    DueUnspent(v.l);
    EscalateEachPays(v.l, DueOrder(due), k);
    CountsAppend(v.emit, EscalateEach(v.l, DueOrder(due)).emit, k);
  }

  lemma DueUnspent(l: Alarms)
    requires Timed(l)
    ensures forall k :: k in DueEscalations(l) ==> k in l.alarms && !l.alarms[k].escalated
  {
  }

  lemma StepPays(l: Alarms, i: Input, k: Key)
    requires Timed(l)
    ensures Pays(l, Step(l, i), k) && Timed(Step(l, i).l)
  {
    hide RetimeAll, OnReport, OnAdvance, Timed;
    match i
    case Told(r) => ReportPays(l, r, k); RetimePays(OnReport(l, r).l);
    case Ack(key, state, who) =>
      if state.Some? { CountsOne(OperatorSet(key, state.value, who), k); }
      CountsOne(Cleared(k), k);
      RetimePays(OnAck(l, key, state, who).l);
    case Heartbeat(g, interval) =>
      var h := l.(gateways := l.gateways[g := Gateway(interval, l.now)]);
      ReportPays(h, Report(SilentKey(g), None, true), k);
      CountsOne(Cleared(k), k);
      RetimePays(OnHeartbeat(l, g, interval).l);
    case Advance(seconds) => AdvancePays(l, seconds, k); RetimePays(OnAdvance(l, seconds).l);
  }

  ghost function Run(l: Alarms, inputs: seq<Input>): Result {
    if inputs == [] then Result(l, [])
    else
      var r := Run(l, inputs[..|inputs| - 1]);
      var s := Step(r.l, inputs[|inputs| - 1]);
      Result(s.l, r.emit + s.emit)
  }

  /** In every run an alarm escalates at most once for each time it was raised, and timers run exactly where one may. */
  lemma {:induction false} OneEscalationPerRaise(l: Alarms, inputs: seq<Input>, k: Key)
    requires l.alarms == map[]
    ensures CountEscalated(Run(l, inputs).emit, k) + Credit(Run(l, inputs).l, k) <= CountRaised(Run(l, inputs).emit, k)
    ensures Timed(Run(l, inputs).l)
  {
    hide Step;
    if inputs == [] {
      CountsOne(Cleared(k), k);
    } else {
      OneEscalationPerRaise(l, inputs[..|inputs| - 1], k);
      var r := Run(l, inputs[..|inputs| - 1]);
      StepPays(r.l, inputs[|inputs| - 1], k);
      CountsAppend(r.emit, Step(r.l, inputs[|inputs| - 1]).emit, k);
    }
  }
}
