/**
 * Every run of a forked call, also those in which the initiator takes a bye from a leg that lost: then its peer alone can
 * be left in the call, and each answer is still applied or met with a bye.
 */
module StrayRuns {
  import opened Prelude
  import opened TimerTable
  import opened Calls
  import Relays
  import opened ForkedCall

  /** The net as it would be had the initiator said farewell to its peer. */
  function Farewell(n: Net): Net
    requires n.boss.s.peer.Some?
  {
    n.(out := n.out + [Mail(n.boss.s.peer.value, Bye(""))])
  }

  /** The call is over for the initiator, and only a bye to its peer is missing for all to agree. */
  ghost predicate Stranded(n: Net) {
    n.boss.s.phase == ENDED && n.boss.s.peer.Some? && Agreement(Farewell(n))
  }

  // ---- only what is in flight matters, not in which order

  ghost predicate SameMail(a: seq<Mail>, b: seq<Mail>) {
    forall d, k :: CountMail(a, d, k) == CountMail(b, d, k)
  }

  lemma SwapMail(a: seq<Mail>, b: seq<Mail>, c: seq<Mail>)
    ensures SameMail((a + b) + c, (a + c) + b)
  {
    hide CountMail;
    forall d, k ensures CountMail((a + b) + c, d, k) == CountMail((a + c) + b, d, k) {
      MailAppend(a + b, c, d, k);
      MailAppend(a, b, d, k);
      MailAppend(a + c, b, d, k);
      MailAppend(a, c, d, k);
    }
  }

  lemma MailAgrees(n: Net, out: seq<Mail>)
    requires Agreement(n) && SameMail(n.out, out)
    ensures Agreement(n.(out := out))
  {
    hide LegFits, LegOk, BossOk, CountMail, Count, Talk, TalkOf;
    var n' := n.(out := out);
    forall d ensures LegAgrees(n', d) {
      assert LegAgrees(n, d);
      assert FlightOf(n', d) == FlightOf(n, d);
    }
  }

  // ---- the step that strands

  lemma ByeCounts(out: seq<Mail>, p: string, d: string)
    ensures CountMail(out + [Mail(p, Bye(""))], d, KBye) == CountMail(out, d, KBye) + (if p == d then 1 else 0)
    ensures CountMail(out + [Mail(p, Bye(""))], d, KCancel) == CountMail(out, d, KCancel)
  {
    var m := Mail(p, Bye(""));
    assert [m][..0] == [];
    MailAppend(out, [m], d, KBye);
    MailAppend(out, [m], d, KCancel);
    assert CountMail([], d, KBye) == 0 && CountMail([], d, KCancel) == 0;
  }

  lemma FarewellFlight(n: Net, d: string)
    requires n.boss.s.peer.Some?
    ensures FlightOf(Farewell(n), d) ==
              FlightOf(n, d).(farewells := FlightOf(n, d).farewells + if n.boss.s.peer == Some(d) then 1 else 0)
  {
    hide CountMail, Count, Talk, TalkOf;
    ByeCounts(n.out, n.boss.s.peer.value, d);
  }

  /** Only the initiator's phase and what is on its way to the peer change when a stray bye is taken. */
  lemma StrayFits(s: Session, t: Session, d: string, leg: Option<Session>, c: Flight, c': Flight, sent: bool, told: bool)
    requires LegFits(s, d, leg, c, sent, told) && s.phase == ACTIVE && s.peer == Some(d) && t.phase == ENDED && t.peer == s.peer
    requires c'.line == c.line && c'.farewells > 0
    ensures LegFits(t, d, leg, c', sent, told)
  {
  }

  lemma StrayStrands(n: Net, ev: Event)
    requires Agreement(n) && Enabled(n, ev) && StrayBye(n, ev)
    ensures Stranded(Step(n, ev))
  {
    hide LegFits, LegOk, CountMail, Count, Talk, TalkOf, Received, RunAfter, TimersFit, SessionOk;
    var n' := Step(n, ev);
    StrayEnds(n, ev.cx);
    BossHearsKeepsOthers(n, ev.cx);
    var p := n.boss.s.peer.value;
    forall d ensures LegAgrees(Farewell(n'), d) {
      FarewellFlight(n', d);
      if d == p {
        assert LegAgrees(n, d);
        HeardFlight(n, ev.cx, d);
        StrayFits(n.boss.s, n'.boss.s, d, LegOf(n, d), FlightOf(n, d), FlightOf(Farewell(n'), d), d in n.sent, d in n.told);
      } else {
        assert LegAgrees(n', d);
      }
    }
  }

  lemma StrayEnds(n: Net, cx: Context)
    requires Agreement(n) && StrayBye(n, BossReceives(cx))
    ensures var n' := Step(n, BossReceives(cx));
            && n'.boss.s.phase == ENDED && n'.boss.s.peer == n.boss.s.peer && n'.legs == n.legs && n'.sent == n.sent && n'.told == n.told
            && n'.home == n.home[1..] && n'.up == n.up && n'.down == n.down && n'.out == n.out + Sends(Heard(n, cx).ops)
  {
    hide EffectiveReason, LegAgrees, RunAfter, TimersFit, Sends;
    assert BossOk(n.boss);
  }

  lemma HeardFlight(n: Net, cx: Context, d: string)
    requires Agreement(n) && StrayBye(n, BossReceives(cx)) && d != n.home[0].peer
    ensures FlightOf(Step(n, BossReceives(cx)), d).line == FlightOf(n, d).line
  {
    hide Talk, TalkOf, CountMail, Count, Is, Word, Agreement, Received;
    StrayEnds(n, cx);
    HearsFlight(n, Sends(Heard(n, cx).ops), Step(n, BossReceives(cx)), d);
  }

  /** Taking the stray bye, all but the peer agree as before. */
  lemma BossHearsKeepsOthers(n: Net, cx: Context)
    requires Agreement(n) && StrayBye(n, BossReceives(cx))
    ensures var n' := Step(n, BossReceives(cx));
            && BossOk(n'.boss) && (forall d :: d in n'.legs ==> LegOk(n'.self, n'.legs[d]))
            && forall d :: n.boss.s.peer != Some(d) ==> LegAgrees(n', d)
  {
    hide LegAgrees, LegOk, RunAfter, Sends, TimersFit, Received, SessionOk;
    var m := n.home[0];
    assert LegAgrees(n, m.peer);
    HeadSaid(n);
    ReceivedKeeps(cx, n.id, n.boss.s, n.boss.run, Message(m.peer, "", n.id, m.body));
    BossKeeps(n.boss, n.boss.run, Heard(n, cx));
    forall d | n.boss.s.peer != Some(d) ensures LegAgrees(Step(n, BossReceives(cx)), d) { HearsAgree(n, cx, d); }
  }

  // ---- every step after it

  /** What goes from the relay or a leg does not depend on the initiator, nor on what it has sent. */
  lemma PostOut(n: Net, boss: Party, out: seq<Mail>, e: Relays.Emission)
    ensures Post(n.(boss := boss, out := out), e) == Post(n, e).(boss := boss, out := out)
    ensures Post(n, e).out == n.out && Post(n, e).boss == n.boss && Post(n, e).legs == n.legs
  {
    hide Queue;
  }

  lemma {:induction false} PostAllOut(n: Net, boss: Party, out: seq<Mail>, emit: seq<Relays.Emission>)
    ensures PostAll(n.(boss := boss, out := out), emit) == PostAll(n, emit).(boss := boss, out := out)
    ensures PostAll(n, emit).out == n.out && PostAll(n, emit).boss == n.boss && PostAll(n, emit).legs == n.legs
  {
    hide Post;
    if emit != [] {
      var front := emit[..|emit| - 1];
      PostAllOut(n, boss, out, front);
      PostOut(PostAll(n, front), boss, out, emit[|emit| - 1]);
    }
  }

  /** A farewell on its way changes a step only by being there, somewhere among what the initiator sends. */
  ghost predicate Passes(n: Net, ev: Event)
    requires n.boss.s.peer.Some? && Enabled(n, ev)
  {
    var f, n' := Farewell(n), Step(n, ev);
    && Enabled(f, ev) && n'.boss.s == n.boss.s
    && Step(f, ev) == Farewell(n').(out := Step(f, ev).out) && SameMail(Step(f, ev).out, Farewell(n').out)
  }

  lemma BossPasses(n: Net, ev: Event)
    requires n.boss.s.phase == ENDED && n.boss.s.peer.Some? && BossOk(n.boss) && Enabled(n, ev)
    requires ev.BossRequests? || ev.BossFires? || ev.BossYields? || ev.BossReceives?
    ensures Passes(n, ev)
  {
    hide Received, Requested, PostAll, Relays.CancelAttempt, Relays.FromLeg, Relays.ExpireAttempt, Relays.LegEnded, SameMail, RunAfter, Sends,
      BossOk, Fired, Bodies;
    var bye := [Mail(n.boss.s.peer.value, Bye(""))];
    match ev {
      case BossRequests(cx, now, v) =>
        EndedRequests(cx, now, n.id, n.boss, v);
        SwapMail(n.out, bye, Sends(Requested(cx, now, n.id, n.boss.s, n.boss.run, v).ops));
      case BossFires(name) => EndedRuns(n.boss);
      case BossYields =>
      case BossReceives(cx) =>
        if n.home[0].body.Invite? {
          SameMailSelf(Farewell(Step(n, ev)).out);
        } else {
          EndedHears(cx, n.id, n.boss, Message(n.home[0].peer, "", n.id, n.home[0].body));
          SwapMail(n.out, bye, Sends(Heard(n, cx).ops));
        }
    }
  }

  lemma LegTakesOut(n: Net, boss: Party, out: seq<Mail>, d: string, run: set<Name>, o: Outcome)
    ensures LegTakes(n.(boss := boss, out := out), d, run, o) == LegTakes(n, d, run, o).(boss := boss, out := out)
    ensures LegTakes(n, d, run, o).out == n.out && LegTakes(n, d, run, o).boss == n.boss
  {
    hide Bodies, Sends, RunAfter, Queue;
  }

  lemma LegHearsOut(n: Net, boss: Party, out: seq<Mail>, d: string, refusal: Option<string>)
    requires Queue(n.down, d) != []
    ensures LegHears(n.(boss := boss, out := out), d, refusal) == LegHears(n, d, refusal).(boss := boss, out := out)
    ensures LegHears(n, d, refusal).out == n.out && LegHears(n, d, refusal).boss == n.boss
  {
    hide LegTakes, Received, Queue;
    var b, q := Queue(n.down, d)[0], n.down[d := Queue(n.down, d)[1..]];
    var rest, m := n.(down := q), Message(n.self, "", n.id, b);
    if d !in n.legs {
      if b.Invite? {
        if refusal.Some? {
          LegTakesOut(rest, boss, out, d, {}, Outcome(NewOffer(ENDED, n.self, b.expiresAt), [Send(n.self, n.id, Reject(refusal.value, None))]));
        } else {
          LegTakesOut(rest, boss, out, d, {}, Outcome(NewOffer(OFFERED, n.self, b.expiresAt), [Ui("offered", "")]));
        }
      }
    } else if b.Invite? {
      LegTakesOut(rest, boss, out, d, n.legs[d].run, Outcome(n.legs[d].s, [if n.legs[d].s.phase == ENDED then Drop("ended-session") else InvalidState(m)]));
    } else {
      LegTakesOut(rest, boss, out, d, n.legs[d].run, Received(Context(d, map[], None, None, None, false, {}), n.id, n.legs[d].s, n.legs[d].run, m));
    }
  }

  lemma LegPasses(n: Net, ev: Event)
    requires n.boss.s.peer.Some? && Enabled(n, ev) && (ev.LegRequests? || ev.LegFires? || ev.LegReceives?)
    ensures Passes(n, ev)
  {
    hide Received, Requested, Fired, SameMail, BossOk, LegTakes, LegHears;
    var out := Farewell(n).out;
    match ev {
      case LegRequests(d, cx, now, v) =>
        LegTakesOut(n, n.boss, out, d, n.legs[d].run, Requested(cx, now, n.id, n.legs[d].s, n.legs[d].run, v));
      case LegFires(d) => LegTakesOut(n, n.boss, out, d, n.legs[d].run - {TRingLocal}, Fired(TRingLocal, n.id, n.legs[d].s));
      case LegReceives(d, refusal) => LegHearsOut(n, n.boss, out, d, refusal);
    }
    SameMailSelf(Farewell(Step(n, ev)).out);
  }

  lemma RelayHearsLegOut(n: Net, boss: Party, out: seq<Mail>, d: string, now: int)
    requires Queue(n.up, d) != []
    ensures RelayHearsLeg(n.(boss := boss, out := out), d, now) == RelayHearsLeg(n, d, now).(boss := boss, out := out)
    ensures RelayHearsLeg(n, d, now).out == n.out && RelayHearsLeg(n, d, now).boss == n.boss && RelayHearsLeg(n, d, now).legs == n.legs
  {
    hide PostAll, Relays.FromLeg, Relays.LegSpeaks, Queue;
    var b := Queue(n.up, d)[0];
    var rest := n.(up := n.up[d := Queue(n.up, d)[1..]]);
    if d in n.relay.legs && Relays.LegSpeaks(b) {
      var s := Relays.FromLeg(n.id, n.relay, now, Message(d, "", n.id, b));
      PostAllOut(rest.(relay := s.a), boss, out, s.emit);
    }
  }

  lemma RelayPasses(n: Net, ev: Event)
    requires n.boss.s.peer.Some? && Enabled(n, ev)
    requires ev.RelayFromBoss? || ev.RelayFromLeg? || ev.RelayExpires? || ev.RelayLegExpired? || ev.LegBinds?
    ensures Passes(n, ev)
  {
    hide PostAll, Relays.CancelAttempt, Relays.FromLeg, Relays.ExpireAttempt, Relays.LegEnded, RelayHearsLeg, RelayHearsBoss, SameMail;
    var f := Farewell(n);
    match ev {
      case RelayFromBoss(now) => FarewellToRelay(n, now);
      case RelayFromLeg(d, now) =>
        RelayHearsLegOut(n, n.boss, f.out, d, now);
      case RelayExpires(now) =>
        var s := Relays.ExpireAttempt(n.id, n.relay, now);
        PostAllOut(n.(relay := s.a), n.boss, f.out, s.emit);
      case RelayLegExpired(d) =>
        var s := Relays.LegEnded(n.id, n.relay, d, Relays.LegExpired);
        PostAllOut(n.(relay := s.a), n.boss, f.out, s.emit);
      case LegBinds(d, now) =>
        PostAllOut(n.(relay := Relays.WithLeg(n.relay, d, now)), n.boss, f.out, [Relays.DeliverInvite(d, n.id)]);
    }
    SameMailSelf(Farewell(Step(n, ev)).out);
  }

  lemma FarewellPasses(n: Net, ev: Event)
    requires n.boss.s.phase == ENDED && n.boss.s.peer.Some? && BossOk(n.boss) && Enabled(n, ev)
    ensures Passes(n, ev)
  {
    hide Passes, BossOk;
    if ev.BossRequests? || ev.BossFires? || ev.BossYields? || ev.BossReceives? { BossPasses(n, ev); }
    else if ev.LegRequests? || ev.LegFires? || ev.LegReceives? { LegPasses(n, ev); }
    else { RelayPasses(n, ev); }
  }

  lemma FarewellToRelay(n: Net, now: int)
    requires n.boss.s.peer.Some? && n.out != []
    ensures var f, n' := Farewell(n), Step(n, RelayFromBoss(now));
            && n'.boss == n.boss && Step(f, RelayFromBoss(now)) == Farewell(n')
  {
    hide PostAll, Relays.CancelAttempt;
    var f, m := Farewell(n), n.out[0];
    var rest := n.(out := n.out[1..]);
    assert f.out[0] == m && f.out[1..] == n.out[1..] + [Mail(n.boss.s.peer.value, Bye(""))];
    if m.body.Cancel? && (m.peer == n.relay.to || m.peer in n.relay.legs) {
      var s := Relays.CancelAttempt(n.id, n.relay, now, Some(m.peer), m.body.reason);
      PostAllOut(rest.(relay := s.a), n.boss, f.out[1..], s.emit);
    }
  }

  lemma SameMailSelf(a: seq<Mail>)
    ensures SameMail(a, a)
  {
  }

  lemma EndedRequests(cx: Context, now: int, id: string, p: Party, v: Verb)
    requires p.s.phase == ENDED && BossOk(p)
    ensures Requested(cx, now, id, p.s, p.run, v).s == p.s
  {
    hide SessionOk, TimersFit;
    RequestedKeeps(cx, now, id, p.s, p.run, v);
  }

  lemma EndedHears(cx: Context, id: string, p: Party, m: Message)
    requires p.s.phase == ENDED && BossOk(p) && !m.body.Invite?
    ensures Received(cx, id, p.s, p.run, m).s == p.s
  {
    hide SessionOk, TimersFit;
    ReceivedKeeps(cx, id, p.s, p.run, m);
  }

  lemma EndedRuns(p: Party)
    requires p.s.phase == ENDED && BossOk(p)
    ensures p.run == {}
  {
  }

  lemma StrandedStays(n: Net, ev: Event)
    requires Stranded(n) && Enabled(n, ev)
    ensures Stranded(Step(n, ev)) && Step(n, ev).boss.s == n.boss.s
  {
    hide Agreement, Step, SameMail, StrayBye;
    AgreementGives(Farewell(n));
    FarewellPasses(n, ev);
    NoStrayEnded(Farewell(n), ev);
    StepAgrees(Farewell(n), ev);
    MailAgrees(Step(Farewell(n), ev), Farewell(Step(n, ev)).out);
  }

  lemma NoStrayEnded(n: Net, ev: Event)
    requires n.boss.s.phase == ENDED
    ensures !StrayBye(n, ev)
  {
  }

  // ---- what the stranded peer does

  /** The net as it would be had the initiator let the stray bye go by. */
  function Unheard(n: Net): Net {
    n.(boss := Party(n.boss.s.(phase := ACTIVE, media := true), {}))
  }

  /** The initiator has left the call and `p` is in it, with nothing on its way that would tell it so. */
  ghost predicate Waits(n: Net, p: string) {
    && n.boss.s.phase == ENDED && n.boss.s.endedBy == Unset && n.boss.s.peer == Some(p) && BossOk(n.boss)
    && InCall(n, p) && Agreement(Unheard(n))
  }

  /** Letting go of what is no answer leaves a leg where it stood, unless it is the peer's own bye. */
  lemma LetGoFits(s: Session, t: Session, m: Mail, d: string, leg: Option<Session>, c: Flight, c': Flight, sent: bool, told: bool)
    requires LegFits(s, d, leg, c, sent, told) && s.phase == ACTIVE && t.phase == ACTIVE && t.peer == s.peer
    requires !IsAnswer(m.body) && !m.body.Invite? && (m.body.Bye? && m.peer == d ==> s.peer != Some(d))
    requires c'.farewells == c.farewells && c'.cancels == c.cancels
    requires c.line == (if m.peer == d then Word(m.body) else []) + c'.line
    ensures LegFits(t, d, leg, c', sent, told)
  {
    var answer := sent && s.peer != Some(d) && !told;
    ShapeBye(answer, KBye in c.line);
    if m.peer == d && m.body.Bye? {
      ShapeHead(answer, KBye in c.line, KBye, c.line, c'.line);
    } else {
      assert c.line == c'.line;
    }
  }

  lemma ByeOnItsWay(n: Net)
    requires n.home != [] && n.home[0].body.Bye?
    ensures KBye in FlightOf(n, n.home[0].peer).line
  {
    hide TalkOf, Talk, CountMail, Count;
    TalkOfHead(n.home, n.home[0].peer);
    assert FlightOf(n, n.home[0].peer).line[0] == KBye;
  }

  /** The peer's own bye is not on its way while it is in the call. */
  lemma NoByeWaits(n: Net, p: string)
    requires n.home != [] && LegAgrees(n, p) && InCall(n, p)
    ensures n.home[0].body.Bye? ==> n.home[0].peer != p
  {
    hide FlightOf;
    if n.home[0].body.Bye? { ByeOnItsWay(n); }
  }

  /** The head of `home` is let go of and nothing is sent for it. */
  lemma LetsGoAgrees(n: Net, n': Net)
    requires Agreement(n) && n.boss.s.phase == ACTIVE && n.home != [] && !IsAnswer(n.home[0].body)
    requires n.home[0].body.Bye? ==> n.boss.s.peer != Some(n.home[0].peer)
    requires n' == n.(home := n.home[1..], boss := n'.boss) && BossOk(n'.boss)
    requires n'.boss.s.phase == ACTIVE && n'.boss.s.peer == n.boss.s.peer
    ensures Agreement(n')
  {
    hide LegFits, CountMail, Count, Talk, TalkOf, Word, Is, BossOk, LegOk;
    assert LegAgrees(n, n.home[0].peer);
    HeadSaid(n);
    assert n.out + [] == n.out;
    forall d ensures LegAgrees(n', d) {
      assert LegAgrees(n, d);
      HearsFlight(n, [], n', d);
      assert FlightOf(n', d).farewells == FlightOf(n, d).farewells && FlightOf(n', d).cancels == FlightOf(n, d).cancels;
      LetGoFits(n.boss.s, n'.boss.s, n.home[0], d, LegOf(n, d), FlightOf(n, d), FlightOf(n', d), d in n.sent, d in n.told);
    }
  }

  lemma StrayWaits(n: Net, ev: Event)
    requires Agreement(n) && Enabled(n, ev) && StrayBye(n, ev)
    ensures Waits(Step(n, ev), n.boss.s.peer.value)
  {
    hide LegFits, LegOk, LegAgrees, CountMail, Count, Talk, TalkOf, Agreement, RunAfter;
    AgreementGives(n);
    var n' := Step(n, ev);
    StrayEnds(n, ev.cx);
    StraySays(n, ev.cx);
    BossHearsKeepsOthers(n, ev.cx);
    LetsGoAgrees(n, Unheard(n'));
  }

  lemma StraySays(n: Net, cx: Context)
    requires BossOk(n.boss) && StrayBye(n, BossReceives(cx))
    ensures var n' := Step(n, BossReceives(cx));
            && n'.boss.s == EndedSession(n.boss.s) && n'.out == n.out && n'.told == n.told && n'.home == n.home[1..]
            && n' == n.(home := n.home[1..], boss := n'.boss)
  {
    hide EffectiveReason, RunAfter;
    var o := Heard(n, cx);
    NoSends(o.ops, []);
    assert o.ops + [] == o.ops;
    assert n.out + [] == n.out;
  }

  predicate BossActs(ev: Event) {
    ev.BossRequests? || ev.BossFires? || ev.BossYields? || ev.BossReceives?
  }

  /** Neither the relay nor a leg looks at the initiator. */
  lemma OthersUnheard(n: Net, ev: Event)
    requires Enabled(n, ev) && !BossActs(ev)
    ensures Enabled(Unheard(n), ev) && Step(Unheard(n), ev) == Unheard(Step(n, ev)) && Step(n, ev).boss == n.boss
  {
    hide Received, Requested, Fired, LegTakes, LegHears, PostAll, RelayHearsLeg, Relays.CancelAttempt, Relays.FromLeg,
      Relays.ExpireAttempt, Relays.LegEnded;
    var b := Unheard(n).boss;
    match ev {
      case LegRequests(d, cx, now, v) =>
        LegTakesOut(n, b, n.out, d, n.legs[d].run, Requested(cx, now, n.id, n.legs[d].s, n.legs[d].run, v));
      case LegFires(d) => LegTakesOut(n, b, n.out, d, n.legs[d].run - {TRingLocal}, Fired(TRingLocal, n.id, n.legs[d].s));
      case LegReceives(d, refusal) => LegHearsOut(n, b, n.out, d, refusal);
      case RelayFromBoss(now) =>
        var m := n.out[0];
        if m.body.Cancel? {
          var s := Relays.CancelAttempt(n.id, n.relay, now, Some(m.peer), m.body.reason);
          PostAllOut(n.(out := n.out[1..], relay := s.a), b, n.out[1..], s.emit);
        }
      case RelayFromLeg(d, now) => RelayHearsLegOut(n, b, n.out, d, now);
      case RelayExpires(now) =>
        var s := Relays.ExpireAttempt(n.id, n.relay, now);
        PostAllOut(n.(relay := s.a), b, n.out, s.emit);
      case RelayLegExpired(d) =>
        var s := Relays.LegEnded(n.id, n.relay, d, Relays.LegExpired);
        PostAllOut(n.(relay := s.a), b, n.out, s.emit);
      case LegBinds(d, now) =>
        PostAllOut(n.(relay := Relays.WithLeg(n.relay, d, now)), b, n.out, [Relays.DeliverInvite(d, n.id)]);
    }
  }

  /** A leg changes only by what it is asked, what it hears and its own timer. */
  predicate ActsOn(ev: Event, p: string) {
    match ev
    case LegRequests(d, _, _, _) => d == p
    case LegFires(d) => d == p
    case LegReceives(d, _) => d == p
    case _ => false
  }

  lemma OthersKeepLeg(n: Net, ev: Event, p: string)
    requires Enabled(n, ev) && !ActsOn(ev, p) && p in n.legs
    ensures p in Step(n, ev).legs && Step(n, ev).legs[p] == n.legs[p]
  {
    hide Received, Requested, Fired, PostAll, RunAfter, Sends, Relays.CancelAttempt, Relays.FromLeg, Relays.ExpireAttempt,
      Relays.LegEnded, Yielded, Bodies;
    match ev {
      case RelayFromBoss(now) =>
        var m := n.out[0];
        if m.body.Cancel? {
          var s := Relays.CancelAttempt(n.id, n.relay, now, Some(m.peer), m.body.reason);
          PostAllOut(n.(out := n.out[1..], relay := s.a), n.boss, n.out[1..], s.emit);
        }
      case RelayFromLeg(d, now) => RelayHearsLegOut(n, n.boss, n.out, d, now);
      case RelayExpires(now) =>
        var s := Relays.ExpireAttempt(n.id, n.relay, now);
        PostAllOut(n.(relay := s.a), n.boss, n.out, s.emit);
      case RelayLegExpired(d) =>
        var s := Relays.LegEnded(n.id, n.relay, d, Relays.LegExpired);
        PostAllOut(n.(relay := s.a), n.boss, n.out, s.emit);
      case LegBinds(d, now) =>
        PostAllOut(n.(relay := Relays.WithLeg(n.relay, d, now)), n.boss, n.out, [Relays.DeliverInvite(d, n.id)]);
      case _ =>
    }
  }

  lemma EndedAnswers(n: Net, cx: Context, p: string)
    requires Waits(n, p) && n.home != [] && IsAnswer(n.home[0].body)
    ensures Waits(Step(n, BossReceives(cx)), p)
  {
    hide LegFits, LegOk, LegAgrees, Agreement, RunAfter;
    var m, u := n.home[0], Unheard(n);
    AgreementGives(u);
    assert LegAgrees(u, m.peer) by { WaitsFits(n, p, m.peer); }
    HeadSaid(u);
    var said := [Send(m.peer, n.id, Bye("session.already-answered"))];
    assert Heard(n, cx) == Outcome(n.boss.s, said) && Heard(u, cx) == Outcome(u.boss.s, said);
    OneRun(n.boss.run, said[0]);
    OneRun({}, said[0]);
    EndedRuns(n.boss);
    BossHearsAgrees(u, cx);
    assert Step(u, BossReceives(cx)) == Unheard(Step(n, BossReceives(cx)));
  }

  lemma WaitsFits(n: Net, p: string, d: string)
    requires Waits(n, p)
    ensures LegAgrees(Unheard(n), d)
  {
    hide LegFits, BossOk, LegOk;
  }

  lemma EndedLetsGo(n: Net, cx: Context, p: string)
    requires Waits(n, p) && n.home != [] && !IsAnswer(n.home[0].body)
    ensures Waits(Step(n, BossReceives(cx)), p)
  {
    hide LegFits, LegOk, LegAgrees, Agreement, RunAfter, SessionOk, TimersFit;
    var m, u := n.home[0], Unheard(n);
    AgreementGives(u);
    WaitsFits(n, p, p);
    WaitsFits(n, p, m.peer);
    HeadSaid(u);
    NoByeWaits(u, p);
    var o := Heard(n, cx);
    EndedHears(cx, n.id, n.boss, Message(m.peer, "", n.id, m.body));
    OneRun(n.boss.run, o.ops[0]);
    SendsOne(o.ops[0]);
    assert o.ops == [o.ops[0]];
    assert n.out + [] == n.out;
    LetsGoAgrees(u, Unheard(Step(n, BossReceives(cx))));
  }

  lemma EndedAsks(n: Net, cx: Context, now: int, v: Verb, p: string)
    requires Waits(n, p)
    ensures Waits(Step(n, BossRequests(cx, now, v)), p)
  {
    hide LegAgrees, LegOk, Agreement, RunAfter;
    var o := Requested(cx, now, n.id, n.boss.s, n.boss.run, v);
    assert o.ops == [o.ops[0]];
    OneRun(n.boss.run, o.ops[0]);
    SendsOne(o.ops[0]);
    assert n.out + [] == n.out;
    assert Unheard(Step(n, BossRequests(cx, now, v))) == Unheard(n);
  }

  lemma BossWaits(n: Net, ev: Event, p: string)
    requires Waits(n, p) && Enabled(n, ev) && BossActs(ev)
    ensures Waits(Step(n, ev), p)
  {
    hide Agreement, Step;
    match ev {
      case BossRequests(cx, now, v) => EndedAsks(n, cx, now, v, p);
      case BossReceives(cx) => if IsAnswer(n.home[0].body) { EndedAnswers(n, cx, p); } else { EndedLetsGo(n, cx, p); }
      case BossFires(name) => EndedRuns(n.boss);
      case BossYields =>
    }
  }

  predicate HangsUp(ev: Event, p: string) {
    ev.LegRequests? && ev.d == p && ev.v.HangUp?
  }

  lemma ActiveStays(cx: Context, id: string, s: Session, run: set<Name>, m: Message)
    requires SessionOk(s) && s.role == Responder && s.phase == ACTIVE
    requires !m.body.Invite? && !m.body.Bye? && !Is(KCancel, m.body)
    ensures Received(cx, id, s, run, m).s.phase == ACTIVE
  {
    hide EffectiveReason, EffectiveAnsweredBy, Less;
  }

  /** Nothing that comes to the waiting peer ends its call. */
  lemma HeadWaits(n: Net, p: string)
    requires LegAgrees(n, p) && n.boss.s.phase == ACTIVE && n.boss.s.peer == Some(p) && Queue(n.down, p) != []
    ensures var b := Queue(n.down, p)[0]; !b.Bye? && !Is(KCancel, b)
  {
    hide Count, CountMail, Talk, TalkOf, EffectiveReason;
    CountHead(Queue(n.down, p), KBye);
    CountHead(Queue(n.down, p), KCancel);
  }

  lemma PeerWaits(n: Net, ev: Event, p: string)
    requires Waits(n, p) && Enabled(n, ev) && ActsOn(ev, p) && !HangsUp(ev, p)
    ensures InCall(Step(n, ev), p)
  {
    hide LegFits, FlightOf, Received, Queue, RunAfter, Sends;
    assert LegOk(n.self, n.legs[p]) by { AgreementGives(Unheard(n)); }
    match ev {
      case LegRequests(d, cx, now, v) =>
      case LegFires(d) =>
      case LegReceives(d, refusal) =>
        WaitsFits(n, p, p);
        HeadWaits(Unheard(n), p);
        var b := Queue(n.down, p)[0];
        if !b.Invite? {
          ActiveStays(Context(p, map[], None, None, None, false, {}), n.id, n.legs[p].s, n.legs[p].run, Message(n.self, "", n.id, b));
        }
    }
  }

  lemma OthersWait(n: Net, ev: Event, p: string)
    requires Waits(n, p) && Enabled(n, ev) && !BossActs(ev) && !HangsUp(ev, p)
    ensures Waits(Step(n, ev), p)
  {
    hide Agreement, Step, BossOk, Enabled;
    OthersUnheard(n, ev);
    StepAgrees(Unheard(n), ev);
    if ActsOn(ev, p) { PeerWaits(n, ev, p); } else { OthersKeepLeg(n, ev, p); }
  }

  /** A leg that has left stays so. */
  lemma GoneStays(n: Net, ev: Event, p: string)
    requires Enabled(n, ev) && p in n.legs && LegOk(n.self, n.legs[p]) && n.legs[p].s.phase == ENDED
    ensures p in Step(n, ev).legs && Step(n, ev).legs[p].s.phase == ENDED
  {
    hide LegFits, Queue, RunAfter, Sends;
    if ActsOn(ev, p) {
      match ev {
        case LegRequests(d, cx, now, v) =>
        case LegFires(d) =>
        case LegReceives(d, refusal) =>
      }
    } else {
      OthersKeepLeg(n, ev, p);
    }
  }

  // ---- every run

  lemma {:induction false} RunAgreesOrStrands(n: Net, evs: seq<Event>)
    requires Legal(n, evs) && (Agreement(n) || Stranded(n))
    ensures var m := Run(n, evs); Agreement(m) || Stranded(m)
    ensures Stranded(n) ==> Stranded(Run(n, evs)) && Run(n, evs).boss.s == n.boss.s
    decreases |evs|
  {
    hide Agreement, Stranded, StrayBye, Enabled, Step;
    if evs != [] {
      var ev := evs[0];
      if Stranded(n) { StrandedStays(n, ev); }
      else if StrayBye(n, ev) { StrayStrands(n, ev); }
      else { StepAgrees(n, ev); }
      RunAgreesOrStrands(Step(n, ev), evs[1..]);
    }
  }

  lemma StrandedDrained(n: Net)
    requires Stranded(n) && Drained(n)
    ensures forall d :: InCall(n, d) ==> n.boss.s.peer == Some(d)
    ensures forall d :: d in n.sent <==> (n.boss.s.peer == Some(d)) != (d in n.told)
  {
    hide CountMail, Count, Talk, TalkOf;
    forall d ensures InCall(n, d) ==> n.boss.s.peer == Some(d)
             ensures d in n.sent <==> (n.boss.s.peer == Some(d)) != (d in n.told)
    {
      assert LegAgrees(Farewell(n), d);
      FarewellFlight(n, d);
      assert Queue(n.up, d) == [] && Queue(n.down, d) == [];
      EmptyCounts(d);
      NothingOut(n, d);
    }
  }

  lemma NothingOut(n: Net, d: string)
    requires Drained(n)
    ensures FlightOf(n, d) == Flight([], 0, 0)
  {
    assert Queue(n.up, d) == [] && Queue(n.down, d) == [];
    EmptyCounts(d);
  }

  /**
   * In every run from the fork, once every link is empty, at most the initiator's peer is in the call, each answer a leg
   * ever sent was either the one applied or met with a bye, and the peer is in the call without the initiator only if the
   * initiator took a stray bye.
   */
  lemma EveryRunDrained(n: Net, evs: seq<Event>)
    requires Forked(n) && Legal(n, evs) && Drained(Run(n, evs))
    ensures var m := Run(n, evs);
            && (forall d :: InCall(m, d) ==> m.boss.s.peer == Some(d))
            && (forall d :: d in m.sent <==> (m.boss.s.peer == Some(d)) != (d in m.told))
            && (forall d :: InCall(m, d) && m.boss.s.phase != ACTIVE ==> !NoStray(n, evs))
  {
    hide Agreement, Forked, Stranded;
    ForkedAgrees(n);
    RunAgreesOrStrands(n, evs);
    var m := Run(n, evs);
    if Agreement(m) { DrainedAgree(m); } else { StrandedDrained(m); }
    if NoStray(n, evs) { EveryRunAgrees(n, evs); }
  }

  ghost predicate HungUp(evs: seq<Event>, p: string) { exists ev :: ev in evs && HangsUp(ev, p) }

  lemma StrandedLegs(n: Net, p: string)
    requires Stranded(n) && p in n.legs
    ensures LegOk(n.self, n.legs[p])
  {
    AgreementGives(Farewell(n));
  }

  lemma {:induction false} GoneForGood(n: Net, evs: seq<Event>, p: string)
    requires Stranded(n) && Legal(n, evs) && p in n.legs && n.legs[p].s.phase == ENDED
    ensures p in Run(n, evs).legs && Run(n, evs).legs[p].s.phase == ENDED
    decreases |evs|
  {
    hide Stranded, Step, Enabled, LegOk;
    if evs != [] {
      StrandedLegs(n, p);
      GoneStays(n, evs[0], p);
      StrandedStays(n, evs[0]);
      GoneForGood(Step(n, evs[0]), evs[1..], p);
    }
  }

  lemma LeavesAtOnce(n: Net, ev: Event, p: string)
    requires Waits(n, p) && Enabled(n, ev) && HangsUp(ev, p)
    ensures p in Step(n, ev).legs && Step(n, ev).legs[p].s.phase == ENDED
  {
    hide Agreement, BossOk, RunAfter, Sends, Queue;
  }

  lemma {:induction false} WaitsUntilItHangsUp(n: Net, evs: seq<Event>, p: string)
    requires Stranded(n) && Waits(n, p) && Legal(n, evs)
    ensures InCall(Run(n, evs), p) <==> !HungUp(evs, p)
    decreases |evs|
  {
    hide Stranded, Agreement, BossOk, Step, Enabled, HangsUp;
    if evs != [] {
      var ev := evs[0];
      StrandedStays(n, ev);
      if HangsUp(ev, p) {
        LeavesAtOnce(n, ev, p);
        GoneForGood(Step(n, ev), evs[1..], p);
      } else {
        if BossActs(ev) { BossWaits(n, ev, p); } else { OthersWait(n, ev, p); }
        WaitsUntilItHangsUp(Step(n, ev), evs[1..], p);
        assert HungUp(evs, p) <==> HungUp(evs[1..], p) by { assert evs == [ev] + evs[1..]; }
      }
    }
  }

  /**
   * Once the initiator has taken a stray bye it is out of the call for good, and its peer is left in it: whatever else
   * happens, and however long, the peer is still in the call unless it has itself hung up since.
   */
  lemma StrandedUntilItHangsUp(n: Net, before: seq<Event>, ev: Event, after: seq<Event>)
    requires Forked(n) && Legal(n, before) && NoStray(n, before)
    requires var m := Run(n, before); Enabled(m, ev) && StrayBye(m, ev) && Legal(Step(m, ev), after)
    ensures var m := Run(n, before);
            var e := Run(Step(m, ev), after);
            e.boss.s.phase == ENDED && (InCall(e, m.boss.s.peer.value) <==> !HungUp(after, m.boss.s.peer.value))
  {
    hide Agreement, Forked, Stranded, Waits, Step, Enabled;
    ForkedAgrees(n);
    RunAgrees(n, before);
    var m := Run(n, before);
    StrayStrands(m, ev);
    StrayWaits(m, ev);
    WaitsUntilItHangsUp(Step(m, ev), after, m.boss.s.peer.value);
    RunAgreesOrStrands(Step(m, ev), after);
    StrandedEnded(Step(m, ev));
  }

  lemma StrandedEnded(n: Net)
    requires Stranded(n)
    ensures n.boss.s.phase == ENDED
  {
    hide Agreement;
  }
}
