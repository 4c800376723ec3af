/**
 * Who may see what at the authority of `broadcast-state.ts`, stated record by record: what a presence body holds, what it cannot
 * depend on, and that nothing a subscription is ever told in a run goes beyond it.
 */
module Audiences {
  import opened Prelude
  import opened Authorities
  import Orders
  import Subscribers

  type Records = map<string, map<string, Record>>

  /** `r` is held for the subscription's target and meant for it: of no audience or its own, and unsealed unless it asked. */
  predicate MeantFor(records: Records, s: Subscription, r: Record) {
    && s.target in records && (exists k :: k in records[s.target] && records[s.target][k] == r)
    && (s.own || r.audience == None || r.audience == s.audience)
    && (r.form.Plain? || s.wantsSealed)
  }

  /**
   * What a subscription is shown: exactly the records meant for it, each once, by device and then by audience, none first; and
   * the subject is available exactly if one of its bound devices has none of them.
   */
  ghost predicate Shows(records: Records, bound: map<string, string>, s: Subscription, b: Body) {
    && b.PresenceBody? && (forall r :: r in b.records <==> MeantFor(records, s, r))
    && (forall i, j :: 0 <= i < j < |b.records| ==>
          var x, y := b.records[i], b.records[j];
          || Less(x.device, y.device)
          || (x.device == y.device && y.audience.Some? && (x.audience.None? || Less(x.audience.value, y.audience.value))))
    && (b.available <==> exists d :: d in bound && bound[d] == s.target && forall r :: r in b.records ==> r.device != d)
  }

  lemma BodyRecords(records: Records, bound: map<string, string>, s: Subscription)
    requires KeyedRight(records)
    ensures var b := BodyFor(records, bound, s);
            && b.PresenceBody? && (forall r :: r in b.records <==> MeantFor(records, s, r))
            && (forall i, j :: 0 <= i < j < |b.records| ==> Precedes(b.records[i], b.records[j]))
  {
    hide Less, Precedes, MeantFor;
    var visible := Visible(records, s);
    VisibleApart(records, s);
    PrecedesOrders(visible);
    Orders.InOrderAscends(Precedes, visible);
    forall r ensures r in visible <==> MeantFor(records, s, r) { VisibleIs(records, s, r); }
  }

  lemma AssertedAs(bound: map<string, string>, target: string, visible: set<Record>, list: seq<Record>)
    requires forall r :: r in visible <==> r in list
    ensures Asserted(bound, target, visible) <==> exists d :: d in bound && bound[d] == target && forall r :: r in list ==> r.device != d
  {
    if d :| d in bound && bound[d] == target && forall r :: r in list ==> r.device != d {
      assert forall r :: r in visible ==> r in list;
    }
    if d :| d in bound && bound[d] == target && forall r :: r in visible ==> r.device != d {
      assert forall r :: r in list ==> r in visible;
    }
  }

  lemma BodyShows(records: Records, bound: map<string, string>, s: Subscription)
    requires KeyedRight(records)
    ensures Shows(records, bound, s, BodyFor(records, bound, s))
  {
    hide Less, MeantFor, KeyedRight, Visible, InOrder, Asserted;
    BodyRecords(records, bound, s);
    var visible, b := Visible(records, s), BodyFor(records, bound, s);
    forall r ensures r in visible <==> r in b.records { VisibleIs(records, s, r); }
    AssertedAs(bound, s.target, visible, b.records);
    hide BodyFor;
  }

  lemma VisibleIs(records: Records, s: Subscription, r: Record)
    ensures r in Visible(records, s) <==> MeantFor(records, s, r)
  {
  }

  /** Neither a record not meant for a subscription nor a device of someone else changes anything it is told. */
  lemma OthersMakeNoDifference(records: Records, records': Records, bound: map<string, string>, bound': map<string, string>, s: Subscription)
    requires forall r :: MeantFor(records, s, r) <==> MeantFor(records', s, r)
    requires forall d :: (d in bound && bound[d] == s.target) <==> (d in bound' && bound'[d] == s.target)
    ensures BodyFor(records, bound, s) == BodyFor(records', bound', s)
  {
    forall r ensures r in Visible(records, s) <==> r in Visible(records', s) {
      VisibleIs(records, s, r);
      VisibleIs(records', s, r);
    }
    assert Visible(records, s) == Visible(records', s);
  }

  // ---- every word of presence

  /** A word of presence is for a subscription held, goes to its device, and has the body computed for it. */
  ghost predicate Right(e: Emission, records: Records, bound: map<string, string>, subs: map<string, Subscription>) {
    e.Notify? && e.body.PresenceBody? ==>
      e.subscription in subs && e.to == subs[e.subscription].device && e.body == BodyFor(records, bound, subs[e.subscription])
  }

  ghost predicate AllRight(emit: seq<Emission>, records: Records, bound: map<string, string>, subs: map<string, Subscription>) {
    forall e :: e in emit ==> Right(e, records, bound, subs)
  }

  /** `b` is `a` after words and ends: records and bindings are the same, and fewer subscriptions, told more. */
  ghost predicate Narrower(a: State, b: State) {
    b.records == a.records && b.bound == a.bound && forall id :: id in b.subs ==> id in a.subs && SameRight(a.subs[id], b.subs[id])
  }

  ghost predicate Tells(a: State, r: Result) {
    Narrower(a, r.a) && AllRight(r.emit, a.records, a.bound, a.subs)
  }

  lemma RightBefore(a: State, b: State, emit: seq<Emission>)
    requires Narrower(a, b) && AllRight(emit, b.records, b.bound, b.subs)
    ensures AllRight(emit, a.records, a.bound, a.subs)
  {
    hide BodyFor, SameRight;
    forall e | e in emit ensures Right(e, a.records, a.bound, a.subs) {
      assert Right(e, b.records, b.bound, b.subs);
      if e.Notify? && e.body.PresenceBody? {
        SameRightBody(a.records, a.bound, a.subs[e.subscription], b.subs[e.subscription]);
        SameDevice(a.subs[e.subscription], b.subs[e.subscription]);
      }
    }
  }

  lemma SameDevice(s: Subscription, t: Subscription)
    requires SameRight(s, t)
    ensures s.device == t.device
  {
  }

  lemma NarrowerTrans(a: State, b: State, c: State)
    requires Narrower(a, b) && Narrower(b, c)
    ensures Narrower(a, c)
  {
  }

  lemma TellsThen(a: State, r: Result, t: Result)
    requires Tells(a, r) && Tells(r.a, t)
    ensures Tells(a, Then(r, t))
  {
    hide Right, SameRight;
    NarrowerTrans(a, r.a, t.a);
    RightBefore(a, r.a, t.emit);
  }

  lemma TellsNothing(a: State)
    ensures Tells(a, Result(a, []))
  {
  }

  lemma ToldRight(a: State, id: string, t: Topic, ended: Option<string>)
    requires id in a.subs
    ensures Tells(a, Told(a, id, t, ended))
  {
  }

  lemma EndedRight(a: State, id: string, reason: string)
    requires id in a.subs && a.subs[id].events != []
    ensures Tells(a, Ended(a, id, reason))
  {
    hide BodyOn, WithoutId;
    ToldRight(a, id, a.subs[id].events[0], Some(reason));
  }

  lemma {:induction false} TellAllRight(a: State, ids: seq<string>, target: string, t: Topic)
    ensures Tells(a, TellAll(a, ids, target, t))
  {
    hide Tells, Told;
    if ids == [] {
      TellsNothing(a);
    } else {
      var r, id := TellAll(a, ids[..|ids| - 1], target, t), ids[|ids| - 1];
      TellAllRight(a, ids[..|ids| - 1], target, t);
      if id in r.a.subs { ToldRight(r.a, id, t, None); TellsThen(a, r, Told(r.a, id, t, None)); }
    }
  }

  lemma {:induction false} TellChangedRight(a: State, ids: seq<string>)
    ensures Tells(a, TellChanged(a, ids))
  {
    hide Tells, Told, BodyFor;
    if ids == [] {
      TellsNothing(a);
    } else {
      var r, id := TellChanged(a, ids[..|ids| - 1]), ids[|ids| - 1];
      TellChangedRight(a, ids[..|ids| - 1]);
      if id in r.a.subs { ToldRight(r.a, id, OnPresence, None); TellsThen(a, r, Told(r.a, id, OnPresence, None)); }
    }
  }

  lemma {:induction false} TellEachRight(a: State, id: string, topics: seq<Topic>)
    requires id in a.subs
    ensures Tells(a, TellEach(a, id, topics))
  {
    hide Tells, Told;
    if topics == [] {
      TellsNothing(a);
    } else {
      var r, t := TellEach(a, id, topics[..|topics| - 1]), topics[|topics| - 1];
      TellEachRight(a, id, topics[..|topics| - 1]);
      ToldRight(r.a, id, t, None);
      TellsThen(a, r, Told(r.a, id, t, None));
    }
  }

  lemma {:induction false} EndEachRight(a: State, ids: seq<string>, reason: string)
    ensures Tells(a, EndEach(a, ids, reason))
  {
    hide Tells, Ended;
    if ids == [] {
      TellsNothing(a);
    } else {
      var r, id := EndEach(a, ids[..|ids| - 1], reason), ids[|ids| - 1];
      EndEachRight(a, ids[..|ids| - 1], reason);
      if id in r.a.subs && r.a.subs[id].events != [] { EndedRight(r.a, id, reason); TellsThen(a, r, Ended(r.a, id, reason)); }
    }
  }

  lemma {:induction false} LapseEachRight(a: State, ids: seq<string>)
    ensures Tells(a, LapseEach(a, ids))
  {
    hide Tells, Ended, LapseReason;
    if ids == [] {
      TellsNothing(a);
    } else {
      var r, id := LapseEach(a, ids[..|ids| - 1]), ids[|ids| - 1];
      LapseEachRight(a, ids[..|ids| - 1]);
      if id in r.a.subs && r.a.subs[id].events != [] && LapseReason(r.a.subs[id], r.a.now).Some? {
        EndedRight(r.a, id, LapseReason(r.a.subs[id], r.a.now).value);
        TellsThen(a, r, Ended(r.a, id, LapseReason(r.a.subs[id], r.a.now).value));
      }
    }
  }

  lemma WithStateRight(a: State, stream: string, p: Publication, state: string)
    ensures Tells(a, WithState(a, stream, p, state))
  {
    hide TellAll;
    var b := a.(pubs := a.pubs[stream := p.(state := state)],
                streams := if stream in a.streams then a.streams else a.streams + [stream]);
    TellAllRight(b, b.listed, stream, OnPublication);
  }

  lemma {:induction false} ExpireEachRight(a: State, streams: seq<string>)
    ensures Tells(a, ExpireEach(a, streams))
  {
    hide Tells, WithState;
    if streams == [] {
      TellsNothing(a);
    } else {
      var r, stream := ExpireEach(a, streams[..|streams| - 1]), streams[|streams| - 1];
      ExpireEachRight(a, streams[..|streams| - 1]);
      if stream in r.a.pubs {
        WithStateRight(r.a, stream, r.a.pubs[stream], "expired");
        TellsThen(a, r, WithState(r.a, stream, r.a.pubs[stream], "expired"));
      }
    }
  }

  // ---- every event

  lemma RightSubs(emit: seq<Emission>, records: Records, bound: map<string, string>, subs: map<string, Subscription>, subs': map<string, Subscription>)
    requires AllRight(emit, records, bound, subs) && forall id :: id in subs ==> id in subs' && SameRight(subs'[id], subs[id])
    ensures AllRight(emit, records, bound, subs')
  {
    hide BodyFor, SameRight;
    forall e | e in emit ensures Right(e, records, bound, subs') {
      assert Right(e, records, bound, subs);
      if e.Notify? && e.body.PresenceBody? {
        SameRightBody(records, bound, subs'[e.subscription], subs[e.subscription]);
        SameDevice(subs'[e.subscription], subs[e.subscription]);
      }
    }
  }

  /** A word is right by the subscriptions and records before the event, or by those after it. */
  ghost predicate RightAround(a: State, z: State, e: Emission) {
    || Right(e, a.records, a.bound, a.subs)
    || Right(e, z.records, z.bound, a.subs)
    || Right(e, z.records, z.bound, z.subs)
  }

  lemma AdvanceRight(a: State, seconds: nat, e: Emission)
    requires e in OnAdvance(a, seconds).emit
    ensures RightAround(a, OnAdvance(a, seconds).a, e)
  {
    hide ExpireEach, LapseEach, TellChanged, TellingOrder, KeptOf, Still, Right, SameRight, Sorted;
    var b := a.(now := a.now + seconds);
    var x := ExpireEach(b, b.streams);
    ExpireEachRight(b, b.streams);
    var l := LapseEach(x.a, Sorted(x.a.subs.Keys));
    LapseEachRight(x.a, Sorted(x.a.subs.Keys));
    TellsThen(b, x, l);
    var c := Cleaned(l.a);
    TellChangedRight(c, TellingOrder(c.subs));
    RightSubs(NotifyChanged(c).emit, c.records, c.bound, c.subs, a.subs);
  }

  lemma ChangedRight(a: State, b: State, e: Emission)
    requires b.subs == a.subs && e in NotifyChanged(b).emit
    ensures RightAround(a, NotifyChanged(b).a, e)
  {
    hide TellChanged, TellingOrder, Right, SameRight;
    TellChangedRight(b, TellingOrder(b.subs));
  }

  lemma SubscribeRight(a: State, q: Request, e: Emission)
    requires e in OnSubscribe(a, q).emit
    ensures RightAround(a, OnSubscribe(a, q).a, e)
  {
    hide TellEach, Admit, PriorOf, WithoutId, NewSubscription, BodyFor;
    var m := Admit(a, q);
    if q.expiresIn != 0 && m.Admitted? && e.Notify? {
      var c := WithSubscription(Without(a, PriorOf(a, a.listed, q)), q.id, NewSubscription(a, q, m));
      TellEachRight(c, q.id, q.events);
      TellEachHolds(c, q.id, q.events);
      assert Right(e, c.records, c.bound, c.subs);
      if e.body.PresenceBody? {
        var z := OnSubscribe(a, q).a;
        SameRightBody(z.records, z.bound, c.subs[e.subscription], z.subs[e.subscription]);
      }
    }
  }

  lemma {:induction false} TellEachHolds(a: State, id: string, topics: seq<Topic>)
    requires id in a.subs
    ensures TellEach(a, id, topics).a.subs.Keys == a.subs.Keys
  {
    hide BodyOn;
    if topics != [] { TellEachHolds(a, id, topics[..|topics| - 1]); }
  }

  lemma PublishedRight(a: State, ev: Event, e: Emission)
    requires (ev.Publish? || ev.Unpublish? || ev.Attest?) && e in Step(a, ev).emit
    ensures RightAround(a, Step(a, ev).a, e)
  {
    hide TellAll, StreamOf, StartsWith, Less, IdentityOf, Right, SameRight;
    match ev
    case Publish(from, publisher, stream, id, state, variants, expires) =>
      WithStateRight(a, stream, Publication(id, IdentityOf(a, from), "", variants, expires, []), state);
      NoWord(e);
    case Unpublish(from, publisher, stream, publication) =>
      if stream in a.pubs { WithStateRight(a, stream, a.pubs[stream], "withdrawn"); }
      NoWord(e);
    case Attest(from, processor, stream, publication, variant) =>
      if stream in a.pubs {
        var p := a.pubs[stream];
        var b := a.(pubs := a.pubs[stream := p.(provenance := p.provenance + [processor])]);
        TellAllRight(b, b.listed, stream, OnPublication);
      }
      NoWord(e);
  }

  lemma NoWord(e: Emission)
    ensures !e.Notify? ==> forall records, bound, subs :: Right(e, records, bound, subs)
  {
  }

  lemma StepRight(a: State, ev: Event, e: Emission)
    requires e in Step(a, ev).emit
    ensures RightAround(a, Step(a, ev).a, e)
  {
    hide RightAround, OnAdvance, OnSubscribe, NotifyChanged, OnPublish, OnUnpublish, OnAttest, RefusalOf, RecordsAfter, GraceAfter, RecordKey, RevokeKey,
      EndEach, Sorted, IdentityOf;
    match ev
    case Advance(seconds) => AdvanceRight(a, seconds, e);
    case SetPolicy(_, _) =>
    case IssueCapability(_, _) =>
    case Bind(device, identity) =>
      ChangedRight(a, a.(bound := a.bound[device := identity], seen := a.seen + {identity}, graceUntil := a.graceUntil - {device}), e);
    case Unbind(device, identity) => ChangedRight(a, Unbound(a, device, identity), e);
    case Publish(_, _, _, _, _, _, _) => PublishedRight(a, ev, e);
    case Unpublish(_, _, _, _) => PublishedRight(a, ev, e);
    case Attest(_, _, _, _, _) => PublishedRight(a, ev, e);
    case Subscribe(q) => SubscribeRight(a, q, e);
    case PutRecord(from, subject, signed, issuedAt, r) =>
      if RefusalOf(a, from, subject, signed, issuedAt, r).Some? { WordlessRight(a, Step(a, ev).a, e); }
      else { ChangedRight(a, Accepted(a, from, subject, r), e); }
    case RevokeGrant(from, grant, validUntil) => RevokedRight(a, from, grant, validUntil, e);
  }

  lemma WordlessRight(a: State, z: State, e: Emission)
    requires !e.Notify?
    ensures RightAround(a, z, e)
  {
  }

  lemma RevokedRight(a: State, from: string, grant: string, validUntil: int, e: Emission)
    requires e in OnRevocation(a, from, grant, validUntil).emit
    ensures RightAround(a, OnRevocation(a, from, grant, validUntil).a, e)
  {
    hide EndEach, Sorted, Right, SameRight, RevokeKey, IdentityOf;
    var identity := IdentityOf(a, from);
    var b := if a.now < validUntil then a.(revoked := a.revoked[RevokeKey(identity, grant) := validUntil]) else a;
    EndEachRight(b, Sorted(AdmittedBy(b, identity, grant)), "policy.terminated");
  }

  /** A word of presence to a subscription held before or after the event, with what it is shown before or after it. */
  ghost predicate MeantWord(a: State, z: State, e: Emission)
    requires e.Notify?
  {
    || (e.subscription in a.subs && e.to == a.subs[e.subscription].device && Shows(a.records, a.bound, a.subs[e.subscription], e.body))
    || (e.subscription in a.subs && e.to == a.subs[e.subscription].device && Shows(z.records, z.bound, a.subs[e.subscription], e.body))
    || (e.subscription in z.subs && e.to == z.subs[e.subscription].device && Shows(z.records, z.bound, z.subs[e.subscription], e.body))
  }

  lemma WordIsMeant(a: State, ev: Event, e: Emission)
    requires AuthorityOk(a) && Permitted(a, ev) && e in Step(a, ev).emit && e.Notify? && e.body.PresenceBody?
    ensures MeantWord(a, Step(a, ev).a, e)
  {
    hide AuthorityOk, Step, BodyFor, Shows, ToldExactly, ToldOnSubscribe;
    var z := Step(a, ev).a;
    StepKeeps(a, ev);
    StepRight(a, ev, e);
    OkKeyedRight(a);
    OkKeyedRight(z);
    if e.subscription in a.subs {
      BodyShows(a.records, a.bound, a.subs[e.subscription]);
      BodyShows(z.records, z.bound, a.subs[e.subscription]);
    }
    if e.subscription in z.subs { BodyShows(z.records, z.bound, z.subs[e.subscription]); }
  }

  lemma OkKeyedRight(a: State)
    requires AuthorityOk(a)
    ensures KeyedRight(a.records)
  {
  }

  // ---- every run

  /** Events the authority is promised. */
  ghost predicate Legal(a: State, evs: seq<Event>) {
    evs == [] ||
      var front := evs[..|evs| - 1];
      Legal(a, front) && Permitted(Subscribers.Run(a, front).a, evs[|evs| - 1])
  }

  lemma {:induction false} RunOk(a: State, evs: seq<Event>)
    requires AuthorityOk(a) && Legal(a, evs)
    ensures AuthorityOk(Subscribers.Run(a, evs).a)
  {
    hide AuthorityOk, Step, Permitted, ToldExactly, ToldOnSubscribe;
    if evs != [] {
      var front := evs[..|evs| - 1];
      RunOk(a, front);
      StepKeeps(Subscribers.Run(a, front).a, evs[|evs| - 1]);
    }
  }

  /** Every word of presence told in a run was told by some event, to its subscriber, with exactly what was meant for it. */
  lemma {:induction false} EveryWordIsMeant(a: State, evs: seq<Event>, e: Emission)
    requires AuthorityOk(a) && Legal(a, evs) && e in Subscribers.Run(a, evs).emit && e.Notify? && e.body.PresenceBody?
    ensures exists i :: 0 <= i < |evs| && MeantWord(Subscribers.Run(a, evs[..i]).a, Subscribers.Run(a, evs[..i + 1]).a, e)
  {
    hide AuthorityOk, Step, Permitted, MeantWord;
    var n := |evs| - 1;
    var front := evs[..n];
    var b := Subscribers.Run(a, front).a;
    if e in Subscribers.Run(a, front).emit {
      EveryWordIsMeant(a, front, e);
      var i :| 0 <= i < |front| && MeantWord(Subscribers.Run(a, front[..i]).a, Subscribers.Run(a, front[..i + 1]).a, e);
      assert front[..i] == evs[..i] && front[..i + 1] == evs[..i + 1];
    } else {
      RunOk(a, front);
      WordIsMeant(b, evs[n], e);
      assert evs[..n + 1] == evs;
    }
  }

  /** At the end of every run, each presence subscription was last told exactly what is meant for it now. */
  lemma LastToldIsMeant(a: State, evs: seq<Event>, id: string)
    requires AuthorityOk(a) && Legal(a, evs)
    ensures var z := Subscribers.Run(a, evs).a;
            id in z.subs && OnPresence in z.subs[id].events ==>
              z.subs[id].lastBody.Some? && Shows(z.records, z.bound, z.subs[id], z.subs[id].lastBody.value)
  {
    hide Step, Permitted, BodyFor, Shows, Subscribers.Run;
    RunOk(a, evs);
    var z := Subscribers.Run(a, evs).a;
    if id in z.subs {
      assert Current(z, id);
      BodyShows(z.records, z.bound, z.subs[id]);
    }
  }
}
