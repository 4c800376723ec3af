/**
 * What the authority of `broadcast-state.ts` never forgets or confuses over its runs: every subscription is as it was admitted, and
 * a stream is its publisher's exactly until an identity that its name begins with publishes a newer record.
 */
module Standings {
  import opened Prelude
  import opened Authorities
  import opened Audiences
  import opened Rulings
  import Subscribers

  // ---- subscriptions are as they were admitted

  /** Everything that decides what a subscription is told, as it was made by a request admitted as `m`. */
  ghost predicate AsAdmitted(s: Subscription, a: State, q: Request) {
    exists m: Admission ::
      && AdmittedAs(a, q, m) && m.Admitted?
      && s.own == m.own && s.grant == m.grant && s.audience == m.audience && s.wantsSealed == q.wantsSealed
      && s.device == q.from && s.subscriber == Speaker(a, q.from) && s.target == q.target && s.events == q.events && s.expiresAt == a.now + q.expiresIn
  }

  /** No subscription but a new one, admitted now, or one of before as it was. */
  ghost predicate From(a: State, ev: Event, z: State, id: string) {
    id in z.subs ==>
      || (id in a.subs && SameRight(a.subs[id], z.subs[id]))
      || (ev.Subscribe? && ev.request.id == id && AsAdmitted(z.subs[id], a, ev.request))
  }

  lemma NarrowerFrom(a: State, ev: Event, z: State, id: string)
    requires forall x :: x in z.subs ==> x in a.subs && SameRight(a.subs[x], z.subs[x])
    ensures From(a, ev, z, id)
  {
    hide SameRight;
  }

  lemma AdvanceFrom(a: State, seconds: nat, id: string)
    ensures From(a, Advance(seconds), OnAdvance(a, seconds).a, id)
  {
    hide ExpireEach, LapseEach, TellChanged, TellingOrder, KeptOf, Still, SameRight, AllRight, Sorted;
    var b := a.(now := a.now + seconds);
    var e := ExpireEach(b, b.streams);
    ExpireEachRight(b, b.streams);
    var l := LapseEach(e.a, Sorted(e.a.subs.Keys));
    LapseEachRight(e.a, Sorted(e.a.subs.Keys));
    NarrowerTrans(b, e.a, l.a);
    var c := Cleaned(l.a);
    TellChangedRight(c, TellingOrder(c.subs));
    var z := OnAdvance(a, seconds).a;
    forall x | x in z.subs ensures x in a.subs && SameRight(a.subs[x], z.subs[x]) { SameRightTrans(b.subs[x], c.subs[x], z.subs[x]); }
    NarrowerFrom(a, Advance(seconds), z, id);
  }

  lemma ChangedFrom(a: State, ev: Event, b: State, id: string)
    requires b.subs == a.subs
    ensures From(a, ev, NotifyChanged(b).a, id)
  {
    hide TellChanged, TellingOrder, AllRight, SameRight;
    TellChangedRight(b, TellingOrder(b.subs));
    NarrowerFrom(a, ev, NotifyChanged(b).a, id);
  }

  lemma PublishedFrom(a: State, ev: Event, id: string)
    requires ev.Publish? || ev.Unpublish? || ev.Attest?
    ensures From(a, ev, Step(a, ev).a, id)
  {
    hide TellAll, StreamOf, StartsWith, Less, IdentityOf, AllRight, WithState;
    SelfNarrower(a);
    match ev
    case Publish(from, publisher, stream, pid, state, variants, expires) =>
      WithStateRight(a, stream, Publication(pid, IdentityOf(a, from), "", variants, expires, []), state);
    case Unpublish(from, publisher, stream, publication) =>
      if stream in a.pubs { WithStateRight(a, stream, a.pubs[stream], "withdrawn"); }
    case Attest(from, processor, stream, publication, variant) =>
      if stream in a.pubs {
        var p := a.pubs[stream];
        var b := a.(pubs := a.pubs[stream := p.(provenance := p.provenance + [processor])]);
        TellAllRight(b, b.listed, stream, OnPublication);
      }
  }

  lemma SelfNarrower(a: State)
    ensures Narrower(a, a)
  {
  }

  lemma SubscribeFrom(a: State, q: Request, id: string)
    requires Wf(a)
    ensures From(a, Subscribe(q), OnSubscribe(a, q).a, id)
  {
    hide TellEach, Admit, PriorOf, WithoutId, AdmittedAs, AllRight;
    SelfNarrower(a);
    var m := Admit(a, q);
    AdmitsAs(a, q);
    if q.expiresIn != 0 && m.Admitted? {
      var s := NewSubscription(a, q, m);
      var c := WithSubscription(Without(a, PriorOf(a, a.listed, q)), q.id, s);
      TellEachRight(c, q.id, q.events);
      var z := OnSubscribe(a, q).a;
      if id in z.subs && id == q.id { assert SameRight(s, z.subs[id]) && AsAdmitted(z.subs[id], a, q); }
    }
  }

  lemma RevokedFrom(a: State, from: string, grant: string, validUntil: int, id: string)
    ensures From(a, RevokeGrant(from, grant, validUntil), OnRevocation(a, from, grant, validUntil).a, id)
  {
    hide EndEach, Sorted, AllRight, RevokeKey, IdentityOf;
    var identity := IdentityOf(a, from);
    var b := if a.now < validUntil then a.(revoked := a.revoked[RevokeKey(identity, grant) := validUntil]) else a;
    EndEachRight(b, Sorted(AdmittedBy(b, identity, grant)), "policy.terminated");
  }

  lemma StepFrom(a: State, ev: Event, id: string)
    requires Wf(a)
    ensures From(a, ev, Step(a, ev).a, id)
  {
    hide From, OnAdvance, OnSubscribe, NotifyChanged, OnPublish, OnUnpublish, OnAttest, RefusalOf, RecordsAfter, GraceAfter, RecordKey, OnRevocation, Wf;
    SelfFrom(a, ev, id);
    match ev
    case Advance(seconds) => AdvanceFrom(a, seconds, id);
    case SetPolicy(_, _) => SameFrom(a, ev, Step(a, ev).a, id);
    case IssueCapability(_, _) => SameFrom(a, ev, Step(a, ev).a, id);
    case Bind(device, identity) =>
      ChangedFrom(a, ev, a.(bound := a.bound[device := identity], seen := a.seen + {identity}, graceUntil := a.graceUntil - {device}), id);
    case Unbind(device, identity) => ChangedFrom(a, ev, Unbound(a, device, identity), id);
    case Publish(_, _, _, _, _, _, _) => PublishedFrom(a, ev, id);
    case Unpublish(_, _, _, _) => PublishedFrom(a, ev, id);
    case Attest(_, _, _, _, _) => PublishedFrom(a, ev, id);
    case Subscribe(q) => SubscribeFrom(a, q, id);
    case PutRecord(from, subject, signed, issuedAt, r) =>
      if RefusalOf(a, from, subject, signed, issuedAt, r).None? { ChangedFrom(a, ev, Accepted(a, from, subject, r), id); }
    case RevokeGrant(from, grant, validUntil) => RevokedFrom(a, from, grant, validUntil, id);
  }

  lemma SelfFrom(a: State, ev: Event, id: string)
    ensures From(a, ev, a, id)
  {
  }

  lemma SameFrom(a: State, ev: Event, z: State, id: string)
    requires z.subs == a.subs
    ensures From(a, ev, z, id)
  {
  }

  ghost predicate MadeIn(a: State, evs: seq<Event>, i: int, s: Subscription, id: string) {
    && 0 <= i < |evs| && evs[i].Subscribe? && evs[i].request.id == id
    && AsAdmitted(s, Subscribers.Run(a, evs[..i]).a, evs[i].request)
  }

  /** In every run from an authority that holds none, each subscription is as the request that made it was admitted. */
  lemma {:induction false} EverySubscriptionWasAdmitted(a: State, evs: seq<Event>, id: string)
    requires AuthorityOk(a) && a.subs == map[] && Legal(a, evs) && id in Subscribers.Run(a, evs).a.subs
    ensures exists i :: MadeIn(a, evs, i, Subscribers.Run(a, evs).a.subs[id], id)
  {
    hide AuthorityOk, Step, Permitted, AsAdmitted, SameRight;
    if evs != [] {
      var n := |evs| - 1;
      var front := evs[..n];
      var b := Subscribers.Run(a, front).a;
      RunOk(a, front);
      OkWf(b);
      StepFrom(b, evs[n], id);
      var z := Subscribers.Run(a, evs).a;
      if id in b.subs && SameRight(b.subs[id], z.subs[id]) {
        EverySubscriptionWasAdmitted(a, front, id);
        var i :| MadeIn(a, front, i, b.subs[id], id);
        assert front[..i] == evs[..i];
        StillAdmitted(b.subs[id], z.subs[id], Subscribers.Run(a, evs[..i]).a, evs[i].request);
        assert MadeIn(a, evs, i, z.subs[id], id);
      } else {
        assert MadeIn(a, evs, n, z.subs[id], id);
      }
    }
  }

  lemma OkWf(a: State)
    requires AuthorityOk(a)
    ensures Wf(a)
  {
  }

  lemma StillAdmitted(s: Subscription, t: Subscription, a: State, q: Request)
    requires AsAdmitted(s, a, q) && SameRight(s, t)
    ensures AsAdmitted(t, a, q)
  {
    hide AdmittedAs;
    var m: Admission :|
      && AdmittedAs(a, q, m) && m.Admitted?
      && s.own == m.own && s.grant == m.grant && s.audience == m.audience && s.wantsSealed == q.wantsSealed
      && s.device == q.from && s.subscriber == Speaker(a, q.from) && s.target == q.target && s.events == q.events && s.expiresAt == a.now + q.expiresIn;
  }

  // ---- whose a stream is

  /** Someone whose name and a colon begin the stream's publishes a newer record of it. */
  predicate TakesOver(a: State, ev: Event, stream: string) {
    && ev.Publish? && ev.stream == stream && ev.publisher == Speaker(a, ev.from) && Under(stream, ev.publisher)
    && stream in a.pubs && Less(a.pubs[stream].id, ev.id) && ev.publisher != a.pubs[stream].publisher
  }

  lemma {:induction false} HearingKeepsPubs(a: State, ids: seq<string>, t: Topic, r: Result)
    requires AllHear(a, ids, t, r)
    ensures r.a.pubs == a.pubs
    decreases |ids|
  {
    hide Says;
    if ids != [] {
      var first, rest := FirstHears(a, ids, t, r);
      HearingKeepsPubs(first.a, ids[1..], t, rest);
    }
  }

  lemma {:induction false} EndingKeepsPubs(a: State, ids: seq<string>, why: map<string, string>, r: Result)
    requires AllEnd(a, ids, why, r)
    ensures r.a.pubs == a.pubs
    decreases |ids|
  {
    hide Says;
    if ids != [] {
      var id := ids[|ids| - 1];
      var before: Result, one: Result :|
        AllEnd(a, ids[..|ids| - 1], why, before) && id in why && EndsSo(before.a, id, why[id], one) && r == Result(one.a, before.emit + one.emit);
      EndingKeepsPubs(a, ids[..|ids| - 1], why, before);
    }
  }

  lemma SettingPubs(a: State, stream: string, p: Publication, state: string, r: Result)
    requires SetSo(a, stream, p, state, r)
    ensures r.a.pubs == a.pubs[stream := p.(state := state)]
  {
    hide AllHear, Followers;
    var b: State, told: Result :|
      && b == a.(pubs := a.pubs[stream := p.(state := state)], streams := if stream in a.streams then a.streams else a.streams + [stream])
      && AllHear(b, Followers(b.subs, b.listed, stream, OnPublication), OnPublication, told)
      && r == Result(told.a, [PublicationState(stream, state)] + told.emit);
    HearingKeepsPubs(b, Followers(b.subs, b.listed, stream, OnPublication), OnPublication, told);
  }

  /** A stream still held, by the same publisher. */
  predicate SamePublisher(a: State, b: State) {
    forall x :: x in a.pubs ==> x in b.pubs && b.pubs[x].publisher == a.pubs[x].publisher
  }

  lemma {:induction false} ExpiringKeeps(a: State, streams: seq<string>, r: Result)
    requires StreamsExpire(a, streams, r)
    ensures SamePublisher(a, r.a)
    decreases |streams|
  {
    hide SetSo;
    if streams != [] {
      var stream := streams[|streams| - 1];
      var before: Result :| StreamsExpire(a, streams[..|streams| - 1], before)
        && if Overdue(before.a, stream) then
             exists one: Result :: SetSo(before.a, stream, before.a.pubs[stream], "expired", one) && r == Result(one.a, before.emit + one.emit)
           else r == before;
      ExpiringKeeps(a, streams[..|streams| - 1], before);
      if Overdue(before.a, stream) {
        var one: Result :| SetSo(before.a, stream, before.a.pubs[stream], "expired", one) && r == Result(one.a, before.emit + one.emit);
        SettingPubs(before.a, stream, before.a.pubs[stream], "expired", one);
      }
    }
  }

  lemma ChangesKeepPubs(a: State, r: Result)
    requires ChangesHeard(a, r)
    ensures r.a.pubs == a.pubs
  {
    hide AllHear, Changed, ByTargetThenId;
    var who: seq<string> :| (forall id :: id in who <==> Changed(a, id)) && ByTargetThenId(a.subs, who) && AllHear(a, who, OnPresence, r);
    HearingKeepsPubs(a, who, OnPresence, r);
  }

  lemma AdvanceKeepsPublishers(a: State, seconds: nat, r: Result)
    requires AdvancedSo(a, seconds, r)
    ensures SamePublisher(a, r.a)
  {
    hide StreamsExpire, LapseList, AllEnd, ChangesHeard, Reasons, StaysSo;
    var e: Result, ids: seq<string>, l: Result, c: State, n: Result :| AdvancedBy(Rulings.After(a, seconds), e, ids, l, c, n, r);
    ExpiringKeeps(Rulings.After(a, seconds), Rulings.After(a, seconds).streams, e);
    EndingKeepsPubs(e.a, ids, Reasons(e.a, ids), l);
    ChangesKeepPubs(c, n);
  }

  lemma {:induction false} TopicsKeepPubs(a: State, id: string, topics: seq<Topic>, r: Result)
    requires TopicsHeard(a, id, topics, r)
    ensures r.a.pubs == a.pubs
    decreases |topics|
  {
    hide Says;
    if topics != [] {
      var before: Result, one: Result :|
        TopicsHeard(a, id, topics[..|topics| - 1], before) && Hears(before.a, id, topics[|topics| - 1], None, one) && r == Result(one.a, before.emit + one.emit);
      TopicsKeepPubs(a, id, topics[..|topics| - 1], before);
    }
  }

  lemma TakenUpKeepsPubs(a: State, q: Request, prior: Option<string>, m: Admission, b: State, s: Subscription, told: Result, r: Result)
    requires TakenUp(a, q, prior, m, b, s, told, r)
    ensures r.a.pubs == a.pubs
  {
    hide TopicsHeard, Except, MadeSo;
    TopicsKeepPubs(b.(subs := b.subs[q.id := s], listed := b.listed + [q.id]), q.id, q.events, told);
  }

  lemma SubscribeKeepsPubs(a: State, q: Request, r: Result)
    requires SubscribedSo(a, q, r)
    ensures r.a.pubs == a.pubs
  {
    hide PriorSo, AdmittedAs, TakenUp, Except;
    var prior: Option<string>, m: Admission :| PriorSo(a, q, prior) && AdmittedAs(a, q, m) && SubscribedAs(a, q, prior, m, r);
    if q.expiresIn != 0 && m.Admitted? {
      var b: State, s: Subscription, told: Result :| TakenUp(a, q, prior, m, b, s, told, r);
      TakenUpKeepsPubs(a, q, prior, m, b, s, told, r);
    }
  }

  lemma AttestKeepsPublishers(a: State, ev: Event, r: Result)
    requires ev.Attest? && AttestedSo(a, ev.from, ev.processor, ev.stream, ev.publication, ev.variant, r)
    ensures SamePublisher(a, r.a)
  {
    hide AllHear, Followers, FirstWith;
    if b: State, told: Result :|
        && ev.stream in a.pubs
        && b == a.(pubs := a.pubs[ev.stream := a.pubs[ev.stream].(provenance := a.pubs[ev.stream].provenance + [ev.processor])])
        && AllHear(b, Followers(b.subs, b.listed, ev.stream, OnPublication), OnPublication, told)
        && r == Result(told.a, [Provenance(ev.stream, ev.processor)] + told.emit)
    {
      HearingKeepsPubs(b, Followers(b.subs, b.listed, ev.stream, OnPublication), OnPublication, told);
    }
  }

  lemma RecordKeepsPubs(a: State, ev: Event, r: Result)
    requires ev.PutRecord? && PutSo(a, ev.from, ev.subject, ev.signed, ev.issuedAt, ev.r, r)
    ensures r.a.pubs == a.pubs
  {
    hide ChangesHeard, RefusedFor, Grounds;
    if b: State :|
        && b == a.(records := b.records, lastAccepted := a.lastAccepted[(if ev.r.audience.None? then ev.from else ev.from + "/" + ev.r.audience.value) := a.now])
        && ChangesHeard(b, r)
    {
      ChangesKeepPubs(b, r);
    }
  }

  lemma BindKeepsPubs(a: State, ev: Event, r: Result)
    requires (ev.Bind? && BoundSo(a, ev.device, ev.identity, r)) || (ev.Unbind? && UnboundSo(a, ev.device, ev.identity, r))
    ensures r.a.pubs == a.pubs
  {
    hide ChangesHeard, WithoutDevice, HasRecord;
    var b: State :| b == a.(bound := b.bound, seen := b.seen, records := b.records, graceUntil := b.graceUntil) && ChangesHeard(b, r);
    ChangesKeepPubs(b, r);
  }

  lemma RevokeKeepsPubs(a: State, ev: Event, r: Result)
    requires ev.RevokeGrant? && RevokedSo(a, ev.from, ev.grant, ev.validUntil, r)
    ensures r.a.pubs == a.pubs
  {
    hide AllEnd, AdmittedList;
    var issuer := Speaker(a, ev.from);
    var b := Withdrawn(a, issuer, ev.grant, ev.validUntil);
    var ids: seq<string> :| AdmittedList(a, issuer, ev.grant, ids) && AllEnd(b, ids, Terminated(ids), r);
    EndingKeepsPubs(b, ids, Terminated(ids), r);
  }

  /** What a publication does to the publisher of a stream. */
  lemma PublishTakes(a: State, ev: Event, stream: string, r: Result)
    requires ev.Publish? && stream in a.pubs && PublishedSo(a, ev.from, ev.publisher, ev.stream, ev.id, ev.state, ev.variants, ev.expires, r)
    ensures stream in r.a.pubs && r.a.pubs[stream].publisher == if TakesOver(a, ev, stream) then ev.publisher else a.pubs[stream].publisher
  {
    hide SetSo, Under, Less;
    LessTotal(ev.id, a.pubs[stream].id);
    var p := Publication(ev.id, ev.publisher, "", ev.variants, ev.expires, []);
    if SetSo(a, ev.stream, p, ev.state, r) { SettingPubs(a, ev.stream, p, ev.state, r); }
  }

  lemma UnpublishKeepsPublishers(a: State, ev: Event, r: Result)
    requires ev.Unpublish? && UnpublishedSo(a, ev.from, ev.publisher, ev.stream, ev.publication, r)
    ensures SamePublisher(a, r.a)
  {
    hide SetSo;
    if ev.stream in a.pubs && SetSo(a, ev.stream, a.pubs[ev.stream], "withdrawn", r) { SettingPubs(a, ev.stream, a.pubs[ev.stream], "withdrawn", r); }
  }

  /** A stream, once published, is held for good, and its publisher changes exactly when another takes it over. */
  lemma PublisherChangesExactly(a: State, ev: Event, stream: string)
    requires Wf(a) && stream in a.pubs
    ensures var z := Step(a, ev).a;
            stream in z.pubs && z.pubs[stream].publisher == if TakesOver(a, ev, stream) then ev.publisher else a.pubs[stream].publisher
  {
    EveryEventRules(a, ev);
    var r := Step(a, ev);
    hide Step, Wf, AdvancedSo, BoundSo, UnboundSo, AttestedSo, SubscribedSo, PutSo, RevokedSo, PublishedSo, UnpublishedSo, Under, Less;
    match ev
    case Advance(seconds) => AdvanceKeepsPublishers(a, seconds, r);
    case SetPolicy(_, _) =>
    case IssueCapability(_, _) =>
    case Bind(_, _) => BindKeepsPubs(a, ev, r);
    case Unbind(_, _) => BindKeepsPubs(a, ev, r);
    case Publish(_, _, _, _, _, _, _) => PublishTakes(a, ev, stream, r);
    case Unpublish(_, _, _, _) => UnpublishKeepsPublishers(a, ev, r);
    case Attest(_, _, _, _, _) => AttestKeepsPublishers(a, ev, r);
    case Subscribe(q) => SubscribeKeepsPubs(a, q, r);
    case PutRecord(_, _, _, _, _) => RecordKeepsPubs(a, ev, r);
    case RevokeGrant(_, _, _) => RevokeKeepsPubs(a, ev, r);
  }

  function PublishAs(who: string, stream: string, id: string): Event { Publish(who, who, stream, id, "live", {}, None) }

  /** A stream published under a longer name passes to the shorter name it begins with. */
  lemma AnotherTakesOver(a: State)
    requires AuthorityOk(a) && a.identities == map[] && "did:e:bob:news" !in a.pubs
    ensures var one := Step(a, PublishAs("did:e:bob", "did:e:bob:news", "1")).a;
            var two := Step(one, PublishAs("did:e", "did:e:bob:news", "2")).a;
            && "did:e:bob:news" in one.pubs && one.pubs["did:e:bob:news"].publisher == "did:e:bob"
            && "did:e:bob:news" in two.pubs && two.pubs["did:e:bob:news"].publisher == "did:e"
  {
    hide AuthorityOk, Step, SetSo, ToldExactly, ToldOnSubscribe;
    var stream := "did:e:bob:news";
    var first, second := PublishAs("did:e:bob", stream, "1"), PublishAs("did:e", stream, "2");
    OkWf(a);
    EveryEventRules(a, first);
    StepKeeps(a, first);
    var r := Step(a, first);
    assert stream[..9] == "did:e:bob" && stream[..5] == "did:e";
    assert Under(stream, "did:e:bob") && Under(stream, "did:e");
    SettingPubs(a, stream, Publication("1", "did:e:bob", "", {}, None, []), "live", r);
    OkWf(r.a);
    SameNames(a, first);
    assert Less("1", "2");
    assert TakesOver(r.a, second, stream);
    PublisherChangesExactly(r.a, second, stream);
  }

  lemma SameNames(a: State, ev: Event)
    requires ev.Publish?
    ensures Step(a, ev).a.identities == a.identities
  {
    hide WithState, StartsWith, Less;
    var sender := IdentityOf(a, ev.from);
    var p := Publication(ev.id, sender, "", ev.variants, ev.expires, []);
    WithStateNames(a, ev.stream, p, ev.state);
  }

  lemma WithStateNames(a: State, stream: string, p: Publication, state: string)
    ensures WithState(a, stream, p, state).a.identities == a.identities
  {
    hide TellAll;
    var b := a.(pubs := a.pubs[stream := p.(state := state)], streams := if stream in a.streams then a.streams else a.streams + [stream]);
    TellAllNames(b, b.listed, stream, OnPublication);
  }

  lemma {:induction false} TellAllNames(a: State, ids: seq<string>, target: string, t: Topic)
    ensures TellAll(a, ids, target, t).a.identities == a.identities
  {
    hide BodyOn;
    if ids != [] { TellAllNames(a, ids[..|ids| - 1], target, t); }
  }
}
