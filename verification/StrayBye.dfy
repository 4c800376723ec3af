/** A run in which the initiator takes a bye from a leg that lost, and the peer is left in the call alone. */
module StrayBye {
  import opened Prelude
  import opened TimerTable
  import opened Calls
  import Relays
  import opened ForkedCall

  const BOB := "bob"
  const FIRST := "a"
  const SECOND := "b"

  /** Two devices of one identity have just been sent the invite. */
  function TwoLegs(): Net {
    Net("s", "boss", Party(NewAttempt(BOB), {TEstablish}),
        Relays.Attempt("boss", BOB, None, map[FIRST := Relays.Delivered, SECOND := Relays.Delivered], Relays.Open, [], 0, {}),
        map[], map[], [], [], map[FIRST := [Invite(BOB, None)], SECOND := [Invite(BOB, None)]], {}, {})
  }

  function Plain(): Context {
    Context("", map[], None, None, None, false, {})
  }

  function InLeg(phase: Phase): Session {
    NewOffer(phase, "boss", None).(media := phase == ACTIVE)
  }

  const RINGS := Progress(Ringing, None, 0)
  const ANSWERS := Answer("user", None)
  const LEAVES := Bye("user.hangup")

  lemma {:induction false} Extend(n: Net, evs: seq<Event>, ev: Event)
    requires Legal(n, evs) && Enabled(Run(n, evs), ev)
    ensures Legal(n, evs + [ev]) && Run(n, evs + [ev]) == Step(Run(n, evs), ev)
    decreases |evs|
  {
    hide Step, Enabled;
    if evs == [] {
      assert [] + [ev] == [ev] && [ev][1..] == [];
    } else {
      assert (evs + [ev])[1..] == evs[1..] + [ev];
      Extend(Step(n, evs[0]), evs[1..], ev);
    }
  }

  /** What a step of leg `d` leaves: its session, what it adds to its own link, and everything else as it was. */
  ghost predicate LegWent(n: Net, n': Net, d: string, s: Session, said: seq<Body>, heard: nat) {
    && heard <= |Queue(n.down, d)|
    && d in n'.legs && n'.legs == n.legs[d := n'.legs[d]] && n'.legs[d].s == s
    && Queue(n'.up, d) == Queue(n.up, d) + said && Queue(n'.down, d) == Queue(n.down, d)[heard..]
    && (forall x :: x != d ==> Queue(n'.up, x) == Queue(n.up, x) && Queue(n'.down, x) == Queue(n.down, x))
    && n'.home == n.home && n'.out == n.out && n'.boss == n.boss && n'.relay == n.relay && n'.self == n.self && n'.id == n.id
  }

  lemma TakesInvite(n: Net, d: string)
    requires n.self == "boss" && d !in n.legs && Queue(n.down, d) == [Invite(BOB, None)]
    ensures LegWent(n, Step(n, LegReceives(d, None)), d, InLeg(OFFERED), [], 1)
  {
    SendsOne(Ui("offered", ""));
  }

  lemma AlertOps(n: Net, s: Session, run: set<Name>)
    requires s == InLeg(OFFERED)
    ensures var o := Requested(Plain(), 0, n.id, s, run, Alert(None));
            o.s == InLeg(ALERTING) && Sends(o.ops) == [Mail("boss", RINGS)]
  {
    var o := Requested(Plain(), 0, n.id, s, run, Alert(None));
    SendsAppend([o.ops[0]], [o.ops[1]]);
    SendsOne(o.ops[0]);
    SendsOne(o.ops[1]);
    assert o.ops == [o.ops[0]] + [o.ops[1]];
  }

  lemma Alerts(n: Net, d: string)
    requires d in n.legs && n.legs[d].s == InLeg(OFFERED)
    ensures LegWent(n, Step(n, LegRequests(d, Plain(), 0, Alert(None))), d, InLeg(ALERTING), [RINGS], 0)
  {
    hide Requested, Sends, RunAfter;
    AlertOps(n, n.legs[d].s, n.legs[d].run);
    assert Bodies([Mail("boss", RINGS)]) == [RINGS];
  }

  lemma StopsOne(run: set<Name>)
    ensures forall op :: op in StopIf(run, TRingLocal) ==> !op.Send?
  {
  }

  lemma AcceptOps(id: string, s: Session, run: set<Name>)
    requires s == InLeg(ALERTING)
    ensures var o := Requested(Plain(), 0, id, s, run, Accept("user"));
            o.s == InLeg(ACTIVE) && Sends(o.ops) == [Mail("boss", ANSWERS)]
  {
    hide Sends, StopIf;
    var answer := Send("boss", id, ANSWERS);
    assert forall op :: op in StopIf(run, TRingLocal) ==> !op.Send? by { StopsOne(run); }
    NoSends(StopIf(run, TRingLocal), [answer, MediaStart]);
    SendsAppend([answer], [MediaStart]);
    SendsOne(answer);
    SendsOne(MediaStart);
    assert [answer, MediaStart] == [answer] + [MediaStart];
  }

  lemma Accepts(n: Net, d: string)
    requires d in n.legs && n.legs[d].s == InLeg(ALERTING)
    ensures LegWent(n, Step(n, LegRequests(d, Plain(), 0, Accept("user"))), d, InLeg(ACTIVE), [ANSWERS], 0)
  {
    hide Requested, Sends, RunAfter;
    AcceptOps(n.id, n.legs[d].s, n.legs[d].run);
    assert Bodies([Mail("boss", ANSWERS)]) == [ANSWERS];
  }

  lemma HangUpOps(id: string, s: Session, run: set<Name>)
    requires s == InLeg(ACTIVE)
    ensures var o := Requested(Plain(), 0, id, s, run, HangUp(None));
            o.s == InLeg(ENDED) && Sends(o.ops) == [Mail("boss", LEAVES)]
  {
    var bye := Send("boss", id, LEAVES);
    SendsAppend([bye], [MediaStop]);
    SendsOne(bye);
    SendsOne(MediaStop);
    assert Requested(Plain(), 0, id, s, run, HangUp(None)).ops == [bye] + [MediaStop];
  }

  lemma HangsUp(n: Net, d: string)
    requires d in n.legs && n.legs[d].s == InLeg(ACTIVE)
    ensures LegWent(n, Step(n, LegRequests(d, Plain(), 0, HangUp(None))), d, InLeg(ENDED), [LEAVES], 0)
  {
    hide Requested, Sends, RunAfter;
    HangUpOps(n.id, n.legs[d].s, n.legs[d].run);
    assert Bodies([Mail("boss", LEAVES)]) == [LEAVES];
  }

  /** What the relay taking a leg's word leaves: the word is at the end of the initiator's link. */
  ghost predicate Passed(n: Net, n': Net, d: string) {
    && Queue(n.up, d) != []
    && n'.home == n.home + [Mail(d, Queue(n.up, d)[0])] && Queue(n'.up, d) == Queue(n.up, d)[1..]
    && (forall x :: x != d ==> Queue(n'.up, x) == Queue(n.up, x))
    && n'.legs == n.legs && n'.down == n.down && n'.out == n.out && n'.boss == n.boss && n'.self == n.self && n'.id == n.id
    && n'.relay.to == n.relay.to
  }

  lemma PassesRinging(n: Net, d: string)
    requires Queue(n.up, d) != [] && Queue(n.up, d)[0] == RINGS && d in n.relay.legs && n.relay.legs[d] == Relays.Delivered
    ensures var n' := Step(n, RelayFromLeg(d, 0)); Passed(n, n', d) && n'.relay.legs == n.relay.legs
  {
    var s := Relays.FromLeg(n.id, n.relay, 0, Message(d, "", n.id, RINGS));
    PostOne(n.(up := n.up[d := Queue(n.up, d)[1..]], relay := s.a), Relays.Forward(n.relay.from, n.id, d, RINGS));
  }

  lemma PassesAnswer(n: Net, d: string)
    requires Queue(n.up, d) != [] && Queue(n.up, d)[0] == ANSWERS && d in n.relay.legs && n.relay.legs[d] == Relays.Delivered
    ensures var n' := Step(n, RelayFromLeg(d, 0));
            Passed(n, n', d) && n'.relay.legs == n.relay.legs[d := Relays.LegAnswered]
  {
    var s := Relays.FromLeg(n.id, n.relay, 0, Message(d, "", n.id, ANSWERS));
    PostOne(n.(up := n.up[d := Queue(n.up, d)[1..]], relay := s.a), Relays.Forward(n.relay.from, n.id, d, ANSWERS));
  }

  lemma PassesBye(n: Net, d: string)
    requires Queue(n.up, d) != [] && Queue(n.up, d)[0] == LEAVES
    ensures var n' := Step(n, RelayFromLeg(d, 0)); Passed(n, n', d) && n'.relay == n.relay
  {
  }

  /** What the initiator taking a mail leaves. */
  ghost predicate BossWent(n: Net, n': Net, s: Session, said: seq<Mail>) {
    && n.home != [] && n'.home == n.home[1..] && n'.boss.s == s && n'.out == n.out + said
    && n'.legs == n.legs && n'.up == n.up && n'.down == n.down && n'.relay == n.relay && n'.self == n.self && n'.id == n.id
  }

  function Attempting(): Session { NewAttempt(BOB).(phase := PROCEEDING) }

  function Talking(): Session {
    NewAttempt(BOB).(phase := ACTIVE, answered := true, peer := Some(FIRST), media := true)
  }

  lemma HearsRinging(n: Net)
    requires n.home != [] && n.home[0].body == RINGS && n.boss.s == NewAttempt(BOB)
    ensures BossWent(n, Step(n, BossReceives(Plain())), Attempting(), [])
  {
    var o := Heard(n, Plain());
    NoSends(o.ops, []);
    assert o.ops + [] == o.ops;
  }

  lemma AnswerOps(id: string, run: set<Name>)
    ensures var o := Received(Plain(), id, Attempting(), run, Message(FIRST, "", id, ANSWERS));
            o.s == Talking() && Sends(o.ops) == [Mail(BOB, Cancel(ELSEWHERE))]
  {
    hide StopIf, EffectiveAnsweredBy;
    var o := Received(Plain(), id, Attempting(), run, Message(FIRST, "", id, ANSWERS));
    var front := StopAll(run) + [MediaStart, Ui("answered", EffectiveAnsweredBy("user"))];
    var cancel := Send(BOB, id, Cancel(ELSEWHERE));
    assert |FIRST| != |BOB|;
    assert o.ops == front + [cancel];
    assert forall op :: op in front ==> !op.Send? by { StopsOnly(run); }
    NoSends(front, [cancel]);
    SendsOne(cancel);
  }

  lemma StopsOnly(run: set<Name>)
    ensures forall op :: op in StopAll(run) ==> op.StopTimer?
  {
  }

  lemma HearsAnswer(n: Net)
    requires n.home != [] && n.home[0] == Mail(FIRST, ANSWERS) && n.boss.s == Attempting()
    ensures BossWent(n, Step(n, BossReceives(Plain())), Talking(), [Mail(BOB, Cancel(ELSEWHERE))])
  {
    hide Received, Sends, RunAfter;
    AnswerOps(n.id, n.boss.run);
  }

  lemma HearsLateRinging(n: Net)
    requires n.home != [] && n.home[0] == Mail(SECOND, RINGS) && n.boss.s == Talking()
    ensures BossWent(n, Step(n, BossReceives(Plain())), Talking(), [Mail(SECOND, Error("session.invalid-state", ""))])
  {
    SendsOne(Heard(n, Plain()).ops[0]);
  }

  lemma HearsLateAnswer(n: Net)
    requires n.home != [] && n.home[0] == Mail(SECOND, ANSWERS) && n.boss.s == Talking()
    ensures BossWent(n, Step(n, BossReceives(Plain())), Talking(), [Mail(SECOND, Bye("session.already-answered"))])
  {
    SendsOne(Heard(n, Plain()).ops[0]);
  }

  lemma HearsBye(n: Net)
    requires n.home != [] && n.home[0] == Mail(SECOND, LEAVES) && n.boss.s == Talking()
    ensures BossWent(n, Step(n, BossReceives(Plain())), EndedSession(Talking()), [])
  {
    hide Sends, RunAfter, EffectiveReason;
    var o := Heard(n, Plain());
    assert o.ops == [] + ([MediaStop] + [Ui("ended", EffectiveReason("user.hangup"))]);
    NoSends(o.ops, []);
    assert o.ops + [] == o.ops;
    EmptySends();
  }

  lemma EmptySends()
    ensures Sends([]) == []
  {
  }

  /** When both legs have answered, the relay delivers a cancel to neither. */
  lemma CancelReachesNone(a: Relays.Attempt, id: string, reason: string)
    requires a.legs == map[FIRST := Relays.LegAnswered, SECOND := Relays.LegAnswered]
    ensures var s := Relays.CancelAttempt(id, a, 0, Some(BOB), reason); s.emit == [] && s.a.legs == a.legs && s.a.to == a.to
  {
    hide Relays.CancelEach, Sorted, Relays.CountSignals;
    var t := a.(touched := 0);
    var s := Relays.CancelEach(id, t, Some(BOB), reason, Sorted(t.legs.Keys));
    assert s.emit == [] || s.emit[0] in s.emit;
    Relays.CancelEachEffect(id, t, Some(BOB), reason, Sorted(t.legs.Keys));
    assert s.a.legs == a.legs;
  }

  /** What the relay taking one of the initiator's mails leaves, when both legs have answered. */
  lemma RelayPasses(n: Net)
    requires n.out != [] && n.relay.legs == map[FIRST := Relays.LegAnswered, SECOND := Relays.LegAnswered] && n.relay.to == BOB
    requires n.out[0].body.Cancel? ==> n.out[0].peer == BOB
    ensures var n' := Step(n, RelayFromBoss(0));
            var m := n.out[0];
            && n'.out == n.out[1..] && n'.home == n.home && n'.legs == n.legs && n'.up == n.up && n'.boss == n.boss
            && n'.self == n.self && n'.id == n.id && n'.relay.legs == n.relay.legs && n'.relay.to == n.relay.to
            && (if m.body.Cancel? then n'.down == n.down
                else Queue(n'.down, m.peer) == Queue(n.down, m.peer) + [m.body]
                     && forall x :: x != m.peer ==> Queue(n'.down, x) == Queue(n.down, x))
  {
    hide Relays.CancelAttempt;
    if n.out[0].body.Cancel? { CancelReachesNone(n.relay, n.id, n.out[0].body.reason); }
  }

  lemma EndedHears(n: Net, d: string)
    requires d in n.legs && n.legs[d].s == InLeg(ENDED) && Queue(n.down, d) != []
    requires !Queue(n.down, d)[0].Invite?
    ensures LegWent(n, Step(n, LegReceives(d, None)), d, InLeg(ENDED), [], 1)
  {
    var b := Queue(n.down, d)[0];
    var m := Message(n.self, "", n.id, b);
    var o := Received(Context(d, map[], None, None, None, false, {}), n.id, n.legs[d].s, n.legs[d].run, m);
    SendsOne(o.ops[0]);
    assert o.ops == [o.ops[0]];
  }

  /** Nothing is on a link of any other device. */
  ghost predicate Only(n: Net) {
    forall x :: x != FIRST && x != SECOND ==> Queue(n.up, x) == [] && Queue(n.down, x) == []
  }

  lemma BothAnswer() returns (evs: seq<Event>)
    ensures Legal(TwoLegs(), evs)
    ensures var n := Run(TwoLegs(), evs);
            && Only(n) && n.self == "boss" && n.relay == TwoLegs().relay && n.boss == TwoLegs().boss && n.home == [] && n.out == []
            && n.legs.Keys == {FIRST, SECOND} && n.legs[FIRST].s == InLeg(ACTIVE) && n.legs[SECOND].s == InLeg(ENDED)
            && Queue(n.up, FIRST) == [RINGS, ANSWERS] && Queue(n.up, SECOND) == [RINGS, ANSWERS, LEAVES]
            && Queue(n.down, FIRST) == [] && Queue(n.down, SECOND) == []
  {
    hide Step, Run, Legal;
    var n0 := TwoLegs();
    evs := [];
    assert Legal(n0, []) && Run(n0, []) == n0 by { EmptyRun(n0); }
    TakesInvite(n0, FIRST);
    var n1 := Step(n0, LegReceives(FIRST, None));
    Extend(n0, [], LegReceives(FIRST, None));
    evs := [] + [LegReceives(FIRST, None)];
    Alerts(n1, FIRST);
    var e2 := LegRequests(FIRST, Plain(), 0, Alert(None));
    var n2 := Step(n1, e2);
    Extend(n0, evs, e2);
    evs := evs + [e2];
    Accepts(n2, FIRST);
    var e3 := LegRequests(FIRST, Plain(), 0, Accept("user"));
    var n3 := Step(n2, e3);
    Extend(n0, evs, e3);
    evs := evs + [e3];
    TakesInvite(n3, SECOND);
    var e4 := LegReceives(SECOND, None);
    var n4 := Step(n3, e4);
    Extend(n0, evs, e4);
    evs := evs + [e4];
    Alerts(n4, SECOND);
    var e5 := LegRequests(SECOND, Plain(), 0, Alert(None));
    var n5 := Step(n4, e5);
    Extend(n0, evs, e5);
    evs := evs + [e5];
    Accepts(n5, SECOND);
    var e6 := LegRequests(SECOND, Plain(), 0, Accept("user"));
    var n6 := Step(n5, e6);
    Extend(n0, evs, e6);
    evs := evs + [e6];
    HangsUp(n6, SECOND);
    var e7 := LegRequests(SECOND, Plain(), 0, HangUp(None));
    Extend(n0, evs, e7);
    evs := evs + [e7];
  }

  lemma EmptyRun(n: Net)
    ensures Legal(n, []) && Run(n, []) == n
  {
  }

  /** The relay passes the first leg's ringing and answer, then the second's ringing, answer and bye. */
  lemma AllPassed() returns (evs: seq<Event>)
    ensures Legal(TwoLegs(), evs)
    ensures var n := Run(TwoLegs(), evs);
            && Only(n) && n.self == "boss" && n.boss == TwoLegs().boss && n.out == [] && n.relay.to == BOB
            && n.relay.legs == map[FIRST := Relays.LegAnswered, SECOND := Relays.LegAnswered]
            && n.home == [Mail(FIRST, RINGS), Mail(FIRST, ANSWERS), Mail(SECOND, RINGS), Mail(SECOND, ANSWERS), Mail(SECOND, LEAVES)]
            && n.legs.Keys == {FIRST, SECOND} && n.legs[FIRST].s == InLeg(ACTIVE) && n.legs[SECOND].s == InLeg(ENDED)
            && Queue(n.up, FIRST) == [] && Queue(n.up, SECOND) == [] && Queue(n.down, FIRST) == [] && Queue(n.down, SECOND) == []
  {
    hide Step, Run, Legal, Queue;
    evs := BothAnswer();
    var n0 := TwoLegs();
    var n := Run(n0, evs);
    var f, g := RelayFromLeg(FIRST, 0), RelayFromLeg(SECOND, 0);
    PassesRinging(n, FIRST);
    EnabledFrom(n, FIRST);
    Extend(n0, evs, f);
    evs, n := evs + [f], Step(n, f);
    PassesAnswer(n, FIRST);
    EnabledFrom(n, FIRST);
    Extend(n0, evs, f);
    evs, n := evs + [f], Step(n, f);
    PassesRinging(n, SECOND);
    EnabledFrom(n, SECOND);
    Extend(n0, evs, g);
    evs, n := evs + [g], Step(n, g);
    PassesAnswer(n, SECOND);
    EnabledFrom(n, SECOND);
    Extend(n0, evs, g);
    evs, n := evs + [g], Step(n, g);
    PassesBye(n, SECOND);
    EnabledFrom(n, SECOND);
    Extend(n0, evs, g);
    evs := evs + [g];
  }

  lemma EnabledFrom(n: Net, d: string)
    requires Queue(n.up, d) != []
    ensures Enabled(n, RelayFromLeg(d, 0))
  {
  }

  /** The initiator takes all five: it applies the first answer, refuses the second, and ends on the bye. */
  lemma AllHeard() returns (evs: seq<Event>)
    ensures Legal(TwoLegs(), evs)
    ensures var n := Run(TwoLegs(), evs);
            && Only(n) && n.boss.s == EndedSession(Talking()) && n.home == [] && n.relay.to == BOB
            && n.relay.legs == map[FIRST := Relays.LegAnswered, SECOND := Relays.LegAnswered]
            && n.out == [Mail(BOB, Cancel(ELSEWHERE)), Mail(SECOND, Error("session.invalid-state", "")), Mail(SECOND, Bye("session.already-answered"))]
            && n.legs.Keys == {FIRST, SECOND} && n.legs[FIRST].s == InLeg(ACTIVE) && n.legs[SECOND].s == InLeg(ENDED)
            && Queue(n.up, FIRST) == [] && Queue(n.up, SECOND) == [] && Queue(n.down, FIRST) == [] && Queue(n.down, SECOND) == []
  {
    hide Step, Run, Legal, Queue;
    evs := AllPassed();
    var n0 := TwoLegs();
    var n := Run(n0, evs);
    var e := BossReceives(Plain());
    HearsRinging(n);
    Extend(n0, evs, e);
    evs, n := evs + [e], Step(n, e);
    HearsAnswer(n);
    Extend(n0, evs, e);
    evs, n := evs + [e], Step(n, e);
    HearsLateRinging(n);
    Extend(n0, evs, e);
    evs, n := evs + [e], Step(n, e);
    HearsLateAnswer(n);
    Extend(n0, evs, e);
    evs, n := evs + [e], Step(n, e);
    HearsBye(n);
    Extend(n0, evs, e);
    evs := evs + [e];
  }

  /** The relay has passed on everything, and only what it told the second leg is still to be heard. */
  lemma AllSent() returns (evs: seq<Event>)
    ensures Legal(TwoLegs(), evs)
    ensures var n := Run(TwoLegs(), evs);
            && Only(n) && n.boss.s == EndedSession(Talking()) && n.home == [] && n.out == []
            && n.legs.Keys == {FIRST, SECOND} && n.legs[FIRST].s == InLeg(ACTIVE) && n.legs[SECOND].s == InLeg(ENDED)
            && Queue(n.up, FIRST) == [] && Queue(n.up, SECOND) == [] && Queue(n.down, FIRST) == []
            && Queue(n.down, SECOND) == [Error("session.invalid-state", ""), Bye("session.already-answered")]
  {
    hide Step, Run, Legal, Queue;
    evs := AllHeard();
    var n0 := TwoLegs();
    var n := Run(n0, evs);
    var e := RelayFromBoss(0);
    RelayPasses(n);
    Extend(n0, evs, e);
    evs, n := evs + [e], Step(n, e);
    RelayPasses(n);
    Extend(n0, evs, e);
    evs, n := evs + [e], Step(n, e);
    RelayPasses(n);
    Extend(n0, evs, e);
    evs, n := evs + [e], Step(n, e);
  }

  /** The rest drains, and the first leg is still in a call its initiator has left. */
  lemma PeerStranded() returns (evs: seq<Event>)
    ensures Forked(TwoLegs()) && Legal(TwoLegs(), evs)
    ensures var n := Run(TwoLegs(), evs);
            Drained(n) && InCall(n, FIRST) && n.boss.s.phase == ENDED && n.boss.s.peer == Some(FIRST)
  {
    hide Step, Run, Legal, Queue;
    evs := AllSent();
    var n0 := TwoLegs();
    var n := Run(n0, evs);
    var f := LegReceives(SECOND, None);
    EndedHears(n, SECOND);
    Extend(n0, evs, f);
    evs, n := evs + [f], Step(n, f);
    EndedHears(n, SECOND);
    Extend(n0, evs, f);
    evs, n := evs + [f], Step(n, f);
    forall d ensures Queue(n.up, d) == [] && Queue(n.down, d) == [] { assert d == FIRST || d == SECOND || Only(n); }
  }
}
