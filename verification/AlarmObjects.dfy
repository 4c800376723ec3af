/**
 * The `AlarmList` and `HoldDown` objects of `device-events.ts`, updated in place, each method against the function of
 * `DeviceEvents` that says what it does, and the two run side by side as a gateway and its member run them.
 */
module AlarmObjects {
  import opened Prelude
  import opened DeviceEvents
  import Orders

  method FirstByDue(due: map<Key, int>, s: set<Key>) returns (m: Key)
    requires s != {} && s <= due.Keys
    ensures m in s && forall x :: x in s && x != m ==> Sooner(due, m, x)
  {
    hide KeyLess;
    m :| m in s;
    var scan := s - {m};
    while scan != {}
      invariant m in s && scan <= s && m !in scan
      invariant forall y :: y in s && y !in scan && y != m ==> Sooner(due, m, y)
      decreases scan
    {
      var y :| y in scan;
      KeyLessTotal(m, y);
      var sooner := Sooner(due, m, y);
      if !sooner {
        forall z | z in s && z !in scan - {y} && z != y ensures Sooner(due, y, z) {
          if z != m && due[y] == due[m] == due[z] { KeyLessTransitive(y, m, z); }
        }
        m := y;
      }
      scan := scan - {y};
    }
  }

  /** Keys by due time, then by key. */
  method SortByDue(due: map<Key, int>) returns (q: seq<Key>)
    ensures q == DueOrder(due)
  {
    hide Sooner, DueOrder;
    q := [];
    var left := due.Keys;
    while left != {}
      invariant left <= due.Keys && Orders.Ascending((a, b) => Sooner(due, a, b), q)
      invariant forall k :: k in due <==> k in left || k in q
      invariant forall k, x :: k in q && x in left ==> Sooner(due, k, x)
      decreases left
    {
      var m := FirstByDue(due, left);
      q := q + [m];
      left := left - {m};
    }
    SortedIsDueOrder(due, q);
  }

  lemma SortedIsDueOrder(due: map<Key, int>, q: seq<Key>)
    requires Orders.Ascending((a, b) => Sooner(due, a, b), q) && forall k :: k in q <==> k in due.Keys
    ensures q == DueOrder(due)
  {
    SoonerOrders(due);
    Orders.OrderIsUnique((a, b) => Sooner(due, a, b), due.Keys, q);
  }

  class AlarmList {
    const policy: Option<Policy>
    var now: int
    var alarms: map<Key, Alarm>
    var gateways: map<string, Gateway>
    var emit: seq<Emission>

    ghost function View(): Alarms
      reads this
    {
      Alarms(now, policy, alarms, gateways)
    }

    /** The list and what was emitted since, as one result. */
    twostate predicate Became(r: Result)
      reads this
    {
      View() == r.l && emit == old(emit) + r.emit
    }

    constructor (now: int, policy: Option<Policy>)
      ensures View() == Alarms(now, policy, map[], map[]) && emit == []
    {
      this.now, this.policy, alarms, gateways, emit := now, policy, map[], map[], [];
    }

    /** Re-evaluates every escalation timer. */
    method Retime()
      modifies this`alarms
      ensures View() == RetimeAll(old(View()))
    {
      hide Rank;
      var before := alarms;
      var todo := alarms.Keys;
      while todo != {}
        invariant todo <= alarms.Keys == before.Keys
        invariant forall k :: k in todo ==> alarms[k] == before[k]
        invariant forall k :: k in before && k !in todo ==> alarms[k] == Retimed(before[k], policy, now)
        decreases todo
      {
        var k :| k in todo;
        var a := alarms[k];
        if !Eligible(a, policy) {
          alarms := alarms[k := a.(due := None)];
        } else if a.due.None? {
          alarms := alarms[k := a.(due := Some(now + policy.value.after))];
        }
        todo := todo - {k};
      }
    }

    method Say(e: Emission)
      modifies this`emit
      ensures emit == old(emit) + [e]
    {
      emit := emit + [e];
    }

    method Report(r: DeviceEvents.Report)
      modifies this`alarms, this`emit
      ensures Became(OnReport(old(View()), r))
    {
      hide RetimeAll;
      var k := r.key;
      if k !in alarms {
        if r.cleared { return; }
        alarms := alarms[k := Alarm(r.severity, false, Untouched, 1, false, None)];
        Say(Raised(k, r.severity, false));
      } else {
        var a := alarms[k].(count := alarms[k].count + 1);
        if a.cleared && r.cleared {
          alarms := alarms[k := a];
          return;
        } else if a.cleared {
          a := a.(cleared := false, severity := r.severity, operator := Untouched, escalated := false);
          Say(Raised(k, r.severity, true));
        } else if r.cleared {
          a := a.(cleared := true);
          Say(Cleared(k));
        } else if r.severity != a.severity {
          a := a.(severity := r.severity);
          Say(Changed(k, r.severity));
        }
        alarms := alarms[k := a];
      }
      Retime();
    }

    method Acknowledge(k: Key, state: Option<Operator>, who: Option<string>)
      modifies this`alarms, this`emit
      ensures Became(OnAck(old(View()), k, state, who))
    {
      if state.None? || state.value == Untouched { return; }
      if k !in alarms || alarms[k].operator == Closed || alarms[k].operator == state.value { return; }
      alarms := alarms[k := alarms[k].(operator := state.value)];
      Say(OperatorSet(k, state.value, who));
    }

    method Beat(gateway: string, interval: int)
      modifies this`alarms, this`gateways, this`emit
      ensures Became(OnHeartbeat(old(View()), gateway, interval))
    {
      hide OnReport;
      gateways := gateways[gateway := Gateway(interval, now)];
      var k := SilentKey(gateway);
      if k in alarms && !alarms[k].cleared { Report(DeviceEvents.Report(k, None, true)); }
    }

    ghost function SilencedOne(l: Alarms, g: string): Result {
      if FallsSilent(l, g) then OnReport(l, DeviceEvents.Report(SilentKey(g), Some("major"), false)) else Result(l, [])
    }

    ghost function Then(r: Result, s: Result): Result { Result(s.l, r.emit + s.emit) }

    lemma SilenceNext(l: Alarms, gs: seq<string>, i: nat)
      requires i < |gs|
      ensures var r := SilenceEach(l, gs[..i]); SilenceEach(l, gs[..i + 1]) == Then(r, SilencedOne(r.l, gs[i]))
    {
      hide OnReport, FallsSilent;
      assert gs[..i + 1][..i] == gs[..i];
    }

    lemma NoneSilent(l: Alarms)
      ensures SilenceEach(l, []) == Result(l, [])
    {
    }

    method SilenceOne(g: string)
      modifies this`alarms, this`emit
      ensures Became(SilencedOne(old(View()), g))
    {
      hide OnReport;
      var k := SilentKey(g);
      if g in gateways && (k !in alarms || alarms[k].cleared) && 2 * gateways[g].interval < now - gateways[g].last {
        Report(DeviceEvents.Report(k, Some("major"), false));
      }
    }

    method SilenceThese(gs: seq<string>)
      modifies this`alarms, this`emit
      ensures Became(SilenceEach(old(View()), gs))
    {
      hide SilenceEach, SilencedOne;
      ghost var l := View();
      ghost var r := Result(l, []);
      NoneSilent(l);
      for i := 0 to |gs|
        invariant Became(r) && r == SilenceEach(l, gs[..i])
      {
        SilenceNext(l, gs, i);
        SilenceOne(gs[i]);
        r := Then(r, SilencedOne(r.l, gs[i]));
      }
      assert gs[..|gs|] == gs;
    }

    method EscalateThese(keys: seq<Key>)
      modifies this`alarms, this`emit
      ensures Became(EscalateEach(old(View()), keys))
    {
      ghost var r := Result(View(), []);
      for i := 0 to |keys|
        invariant Became(r) && r == EscalateEach(old(View()), keys[..i])
      {
        assert keys[..i + 1][..i] == keys[..i];
        var k := keys[i];
        if k in alarms {
          Say(Escalated(k, alarms[k].severity));
          r := Result(Put(r.l, k, r.l.alarms[k].(escalated := true, due := None)), r.emit + [Escalated(k, alarms[k].severity)]);
          alarms := alarms[k := alarms[k].(escalated := true, due := None)];
        }
      }
      assert keys[..|keys|] == keys;
    }

    /** Silent gateways are raised in id order, then due escalations go out by due time and key. */
    method Elapse(seconds: nat)
      modifies this
      ensures Became(OnAdvance(old(View()), seconds))
    {
      hide SilenceEach, EscalateEach, DueOrder, Sorted;
      now := now + seconds;
      var gs := SortKeys(gateways.Keys);
      SilenceThese(gs);
      var due := map k | k in alarms && alarms[k].due.Some? && alarms[k].due.value <= now :: alarms[k].due.value;
      assert due == DueEscalations(View());
      var keys := SortByDue(due);
      EscalateThese(keys);
    }

    method Take(i: Input) returns (out: seq<Emission>)
      modifies this
      ensures Result(View(), out) == DeviceEvents.Step(old(View()), i)
    {
      hide OnReport, OnAck, OnHeartbeat, OnAdvance, RetimeAll;
      emit := [];
      match i {
        case Told(r) => Report(r);
        case Ack(k, state, who) => Acknowledge(k, state, who);
        case Heartbeat(g, interval) => Beat(g, interval);
        case Advance(seconds) => Elapse(seconds);
      }
      Retime();
      out := emit;
    }
  }

  class HoldDown {
    const holdS: int
    var now: int
    var held: map<Key, HeldClear>

    ghost function View(): Hold
      reads this
    {
      Hold(now, holdS, held)
    }

    constructor (now: int, holdS: int)
      ensures View() == Hold(now, holdS, map[])
    {
      this.now, this.holdS, held := now, holdS, map[];
    }

    method Report(r: DeviceEvents.Report, inform: bool) returns (deposits: seq<DeviceEvents.Report>)
      modifies this`held
      ensures Passed(View(), deposits) == HoldReport(old(View()), r, inform)
    {
      if inform {
        held := held - {r.key};
        return [r];
      }
      if r.cleared {
        if holdS <= 0 { return [r]; }
        if r.key !in held { held := held[r.key := HeldClear(now + holdS, r)]; }
        return [];
      }
      held := held - {r.key};
      return [r];
    }

    /** Clears whose time has come are deposited by due time, then by key. */
    method Elapse(seconds: nat) returns (deposits: seq<DeviceEvents.Report>)
      modifies this
      ensures Passed(View(), deposits) == HoldAdvance(old(View()), seconds)
    {
      hide DueOrder;
      now := now + seconds;
      var due := map k | k in held && held[k].due <= now :: held[k].due;
      assert due == DueClears(View());
      var keys := SortByDue(due);
      deposits := [];
      ghost var t := View();
      for i := 0 to |keys|
        invariant Passed(View(), deposits) == ReleaseEach(t, keys[..i])
      {
        assert keys[..i + 1][..i] == keys[..i];
        if keys[i] in held {
          deposits := deposits + [held[keys[i]].report];
          held := held - {keys[i]};
        }
      }
      assert keys[..|keys|] == keys;
    }
  }

  /** A list fed the raw reports, and beside it a hold-down feeding another list. */
  class Watch {
    const raw: AlarmList
    const gate: HoldDown
    const stored: AlarmList

    ghost predicate Valid() { raw != stored }

    ghost function View(): Pair
      reads this, raw, stored, gate
    {
      Pair(raw.View(), gate.View(), stored.View())
    }

    constructor (now: int, policy: Option<Policy>, holdS: int)
      ensures Valid() && fresh(raw) && fresh(gate) && fresh(stored) && PairOk(View())
    {
      raw := new AlarmList(now, policy);
      gate := new HoldDown(now, holdS);
      stored := new AlarmList(now, policy);
    }

    method Deposit(deposits: seq<DeviceEvents.Report>)
      requires raw != stored
      modifies stored
      ensures stored.View() == Feed(old(stored.View()), deposits)
    {
      hide DeviceEvents.Step;
      for i := 0 to |deposits|
        invariant stored.View() == Feed(old(stored.View()), deposits[..i])
      {
        assert deposits[..i + 1][..i] == deposits[..i];
        var _ := stored.Take(Told(deposits[i]));
      }
      assert deposits[..|deposits|] == deposits;
    }

    /** While the two lists mean the same, they go on doing so exactly if no silence is raised while its clear is held. */
    method Take(ev: Event)
      requires Valid()
      modifies raw, gate, stored
      ensures View() == Both(old(View()), ev)
      ensures old(PairOk(View())) ==> (PairOk(View()) <==> !Hides(old(View()), ev))
    {
      hide DeviceEvents.Step, PairOk, Hides, Feed, HoldReport, HoldAdvance;
      ghost var p := View();
      match ev {
        case Reported(r, inform) =>
          var _ := raw.Take(Told(r));
          var deposits := gate.Report(r, inform);
          Deposit(deposits);
        case Acknowledged(k, state, who) =>
          var _ := raw.Take(Ack(k, state, who));
          var _ := stored.Take(Ack(k, state, who));
        case Beaten(g, interval) =>
          var _ := raw.Take(Heartbeat(g, interval));
          var _ := stored.Take(Heartbeat(g, interval));
        case Elapsed(s) =>
          var _ := raw.Take(Advance(s));
          var _ := stored.Take(Advance(s));
          var deposits := gate.Elapse(s);
          Deposit(deposits);
      }
      if PairOk(p) { BothKeepsExactly(p, ev); }
    }
  }
}
