/**
 * Revoked shares over whole runs of the authority of `broadcast-state.ts`: a revoked grant admits no subscription until it
 * would have ended, exactly if the revocation is not forgotten before, which takes one given again with an earlier end.
 */
module Revocations {
  import opened Prelude
  import opened Authorities
  import Subscribers

  // ---- what becomes of the revocations held

  ghost predicate Aside(a: State, b: State) {
    b.revoked == a.revoked && b.now == a.now && b.seen == a.seen && b.identities == a.identities
  }

  lemma {:induction false} TellAllAside(a: State, ids: seq<string>, target: string, t: Topic)
    ensures Aside(a, TellAll(a, ids, target, t).a)
  {
    hide BodyOn;
    if ids != [] { TellAllAside(a, ids[..|ids| - 1], target, t); }
  }

  lemma {:induction false} TellChangedAside(a: State, ids: seq<string>)
    ensures Aside(a, TellChanged(a, ids).a)
  {
    hide BodyOn, BodyFor;
    if ids != [] { TellChangedAside(a, ids[..|ids| - 1]); }
  }

  lemma {:induction false} TellEachAside(a: State, id: string, topics: seq<Topic>)
    requires id in a.subs
    ensures Aside(a, TellEach(a, id, topics).a)
  {
    hide BodyOn;
    if topics != [] { TellEachAside(a, id, topics[..|topics| - 1]); }
  }

  lemma {:induction false} EndEachAside(a: State, ids: seq<string>, reason: string)
    ensures Aside(a, EndEach(a, ids, reason).a)
  {
    hide BodyOn, WithoutId;
    if ids != [] { EndEachAside(a, ids[..|ids| - 1], reason); }
  }

  lemma {:induction false} LapseEachAside(a: State, ids: seq<string>)
    ensures Aside(a, LapseEach(a, ids).a)
  {
    hide BodyOn, WithoutId, LapseReason;
    if ids != [] { LapseEachAside(a, ids[..|ids| - 1]); }
  }

  lemma WithStateAside(a: State, stream: string, p: Publication, state: string)
    ensures Aside(a, WithState(a, stream, p, state).a)
  {
    hide TellAll;
    var b := a.(pubs := a.pubs[stream := p.(state := state)],
                streams := if stream in a.streams then a.streams else a.streams + [stream]);
    TellAllAside(b, b.listed, stream, OnPublication);
  }

  lemma {:induction false} ExpireEachAside(a: State, streams: seq<string>)
    ensures Aside(a, ExpireEach(a, streams).a)
  {
    hide WithState;
    if streams != [] {
      var front, stream := streams[..|streams| - 1], streams[|streams| - 1];
      ExpireEachAside(a, front);
      var r := ExpireEach(a, front);
      if stream in r.a.pubs { WithStateAside(r.a, stream, r.a.pubs[stream], "expired"); }
    }
  }

  lemma SubscribeAside(a: State, q: Request)
    ensures Aside(a, OnSubscribe(a, q).a)
  {
    hide TellEach, Admit, PriorOf, WithoutId, NewSubscription;
    var m := Admit(a, q);
    if q.expiresIn != 0 && !m.Refused? {
      TellEachAside(WithSubscription(Without(a, PriorOf(a, a.listed, q)), q.id, NewSubscription(a, q, m)), q.id, q.events);
    }
  }

  lemma PublicationsAside(a: State, ev: Event)
    requires ev.Publish? || ev.Unpublish? || ev.Attest?
    ensures Aside(a, Step(a, ev).a)
  {
    hide TellAll, WithState, StreamOf, StartsWith, Less, IdentityOf;
    match ev
    case Publish(from, publisher, stream, id, state, variants, expires) =>
      WithStateAside(a, stream, Publication(id, IdentityOf(a, from), "", variants, expires, []), state);
    case Unpublish(from, publisher, stream, publication) =>
      if stream in a.pubs { WithStateAside(a, stream, a.pubs[stream], "withdrawn"); }
    case Attest(from, processor, stream, publication, variant) =>
      if stream in a.pubs {
        var p := a.pubs[stream];
        var b := a.(pubs := a.pubs[stream := p.(provenance := p.provenance + [processor])]);
        TellAllAside(b, b.listed, stream, OnPublication);
      }
  }

  /** The revocations after an event: the clock drops those whose grant has ended by itself, and only a revocation adds one. */
  function RevokedAfter(a: State, ev: Event): map<string, int> {
    match ev
    case Advance(seconds) => Still(a.revoked, a.now + seconds)
    case RevokeGrant(from, grant, validUntil) =>
      if a.now < validUntil then a.revoked[RevokeKey(IdentityOf(a, from), grant) := validUntil] else a.revoked
    case _ => a.revoked
  }

  lemma StepRevoked(a: State, ev: Event)
    ensures Step(a, ev).a.revoked == RevokedAfter(a, ev) && Step(a, ev).a.now == if ev.Advance? then a.now + ev.seconds else a.now
    ensures a.seen <= Step(a, ev).a.seen && Step(a, ev).a.identities == a.identities
  {
    hide ExpireEach, LapseEach, TellChanged, TellingOrder, OnSubscribe, OnPublish, OnUnpublish, OnAttest, EndEach, Sorted, RefusalOf, RecordsAfter,
      GraceAfter, KeptOf, RecordKey;
    match ev
    case Advance(seconds) =>
      var b := a.(now := a.now + seconds);
      ExpireEachAside(b, b.streams);
      var e := ExpireEach(b, b.streams);
      LapseEachAside(e.a, Sorted(e.a.subs.Keys));
      var c := Cleaned(LapseEach(e.a, Sorted(e.a.subs.Keys)).a);
      TellChangedAside(c, TellingOrder(c.subs));
    case Bind(device, identity) =>
      var c := a.(bound := a.bound[device := identity], seen := a.seen + {identity}, graceUntil := a.graceUntil - {device});
      TellChangedAside(c, TellingOrder(c.subs));
    case Unbind(device, identity) => TellChangedAside(Unbound(a, device, identity), TellingOrder(a.subs));
    case PutRecord(from, subject, signed, issuedAt, r) => TellChangedAside(Accepted(a, from, subject, r), TellingOrder(a.subs));
    case Subscribe(q) => SubscribeAside(a, q);
    case RevokeGrant(from, grant, validUntil) =>
      var b := a.(revoked := RevokedAfter(a, ev));
      EndEachAside(b, Sorted(AdmittedBy(b, IdentityOf(a, from), grant)), "policy.terminated");
    case Publish(_, _, _, _, _, _, _) => PublicationsAside(a, ev);
    case Unpublish(_, _, _, _) => PublicationsAside(a, ev);
    case Attest(_, _, _, _, _) => PublicationsAside(a, ev);
    case SetPolicy(_, _) =>
    case IssueCapability(_, _) =>
  }

  // ---- what holds at every point of a run

  ghost predicate Always(p: State -> bool, a: State, evs: seq<Event>) {
    forall i :: 0 <= i <= |evs| ==> p(Subscribers.Run(a, evs[..i]).a)
  }

  ghost predicate Never(bad: (State, Event) -> bool, a: State, evs: seq<Event>) {
    forall i :: 0 <= i < |evs| ==> !bad(Subscribers.Run(a, evs[..i]).a, evs[i])
  }

  lemma AlwaysNext(p: State -> bool, a: State, front: seq<Event>, ev: Event)
    ensures Always(p, a, front + [ev]) <==> Always(p, a, front) && p(Subscribers.Run(a, front + [ev]).a)
  {
    hide Subscribers.Run;
    var evs, n := front + [ev], |front|;
    assert forall i :: 0 <= i <= n ==> evs[..i] == front[..i];
    assert evs[..n + 1] == evs;
    if Always(p, a, evs) {
      forall i | 0 <= i <= n ensures p(Subscribers.Run(a, front[..i]).a) { assert p(Subscribers.Run(a, evs[..i]).a); }
      assert p(Subscribers.Run(a, evs[..n + 1]).a);
    }
  }

  lemma NeverNext(bad: (State, Event) -> bool, a: State, front: seq<Event>, ev: Event)
    ensures Never(bad, a, front + [ev]) <==> Never(bad, a, front) && !bad(Subscribers.Run(a, front).a, ev)
  {
    hide Subscribers.Run;
    var evs, n := front + [ev], |front|;
    assert forall i :: 0 <= i <= n ==> evs[..i] == front[..i];
    assert evs[n] == ev && front[..n] == front;
    assert forall i :: 0 <= i < n ==> evs[i] == front[i];
    if Never(bad, a, evs) {
      forall i | 0 <= i < n ensures !bad(Subscribers.Run(a, front[..i]).a, front[i]) { assert !bad(Subscribers.Run(a, evs[..i]).a, evs[i]); }
      assert !bad(Subscribers.Run(a, evs[..n]).a, evs[n]);
    }
  }

  lemma AlwaysEnds(p: State -> bool, a: State, evs: seq<Event>)
    requires Always(p, a, evs)
    ensures p(Subscribers.Run(a, evs).a)
  {
    hide Subscribers.Run;
    assert evs[..|evs|] == evs;
  }

  lemma RunNext(a: State, front: seq<Event>, ev: Event)
    ensures Subscribers.Run(a, front + [ev]).a == Step(Subscribers.Run(a, front).a, ev).a
  {
    hide Step;
    assert (front + [ev])[..|front|] == front;
  }

  /** What each event keeps exactly if it is not bad holds throughout a run exactly if no event of it is. */
  lemma {:induction false} AlwaysExactly(p: State -> bool, bad: (State, Event) -> bool, a: State, evs: seq<Event>)
    requires p(a) && forall b: State, ev: Event :: p(b) ==> (p(Step(b, ev).a) <==> !bad(b, ev))
    ensures Always(p, a, evs) <==> Never(bad, a, evs)
  {
    if evs == [] {
    } else {
      hide Always, Never, Subscribers.Run, Step;
      var front, ev := evs[..|evs| - 1], evs[|evs| - 1];
      assert evs == front + [ev];
      AlwaysExactly(p, bad, a, front);
      AlwaysNext(p, a, front, ev);
      NeverNext(bad, a, front, ev);
      RunNext(a, front, ev);
      if Always(p, a, front) {
        AlwaysEnds(p, a, front);
        assert p(Step(Subscribers.Run(a, front).a, ev).a) <==> !bad(Subscribers.Run(a, front).a, ev);
      }
    }
  }

  // ---- how long a revocation is held

  /** The revocation is given again with an earlier end. */
  predicate Shortens(a: State, ev: Event, key: string, until: int) {
    ev.RevokeGrant? && RevokeKey(IdentityOf(a, ev.from), ev.grant) == key && a.now < ev.validUntil < until
  }

  /** The clock passes the end the revocation is held under, but not that of the grant. */
  predicate Forgets(a: State, ev: Event, key: string, until: int) {
    ev.Advance? && a.now + ev.seconds < until && key in a.revoked && a.revoked[key] <= a.now + ev.seconds
  }

  /** The revocation is held, and until the grant ends at least. */
  ghost predicate Holds(a: State, key: string, until: int) {
    a.now < until ==> key in a.revoked && until <= a.revoked[key]
  }

  /** The revocation is held while the grant would be valid. */
  ghost predicate Kept(a: State, key: string, until: int) {
    a.now < until ==> key in a.revoked
  }

  lemma StepHolds(a: State, ev: Event, key: string, until: int)
    requires Holds(a, key, until)
    ensures Holds(Step(a, ev).a, key, until) <==> !Shortens(a, ev, key, until)
    ensures !Forgets(a, ev, key, until)
  {
    hide Step, RevokeKey;
    StepRevoked(a, ev);
  }

  lemma StepKeptExactly(a: State, ev: Event, key: string, until: int)
    requires Kept(a, key, until)
    ensures Kept(Step(a, ev).a, key, until) <==> !Forgets(a, ev, key, until)
  {
    hide Step, RevokeKey;
    StepRevoked(a, ev);
  }

  ghost predicate NeverShortens(a: State, evs: seq<Event>, key: string, until: int) {
    Never((b, ev) => Shortens(b, ev, key, until), a, evs)
  }

  ghost predicate NeverForgets(a: State, evs: seq<Event>, key: string, until: int) {
    Never((b, ev) => Forgets(b, ev, key, until), a, evs)
  }

  /** Throughout a run a revocation is held until its grant would have ended exactly if it is never given with an earlier end. */
  lemma HoldsExactly(a: State, evs: seq<Event>, key: string, until: int)
    requires Holds(a, key, until)
    ensures Always(b => Holds(b, key, until), a, evs) <==> NeverShortens(a, evs, key, until)
  {
    hide Always, Never, Step, Holds, Shortens;
    var p, bad := (b: State) => Holds(b, key, until), (b, ev) => Shortens(b, ev, key, until);
    forall b: State, ev: Event | p(b) ensures p(Step(b, ev).a) <==> !bad(b, ev) { StepHolds(b, ev, key, until); }
    AlwaysExactly(p, bad, a, evs);
  }

  /** Throughout a run it is there while the grant would be valid exactly if no wait passes the end it is held under first. */
  lemma KeptExactly(a: State, evs: seq<Event>, key: string, until: int)
    requires Kept(a, key, until)
    ensures Always(b => Kept(b, key, until), a, evs) <==> NeverForgets(a, evs, key, until)
  {
    hide Always, Never, Step, Kept, Forgets;
    var p, bad := (b: State) => Kept(b, key, until), (b, ev) => Forgets(b, ev, key, until);
    forall b: State, ev: Event | p(b) ensures p(Step(b, ev).a) <==> !bad(b, ev) { StepKeptExactly(b, ev, key, until); }
    AlwaysExactly(p, bad, a, evs);
  }

  /** Only a revocation given again with an earlier end is ever forgotten too soon. */
  lemma UnshortenedIsKept(a: State, evs: seq<Event>, key: string, until: int)
    requires Holds(a, key, until) && NeverShortens(a, evs, key, until)
    ensures NeverForgets(a, evs, key, until)
  {
    hide Step, Holds, Shortens, Forgets, Subscribers.Run;
    HoldsExactly(a, evs, key, until);
    forall i | 0 <= i < |evs| ensures !Forgets(Subscribers.Run(a, evs[..i]).a, evs[i], key, until) {
      StepHolds(Subscribers.Run(a, evs[..i]).a, evs[i], key, until);
    }
  }

  // ---- every run

  /** Every event is one the authority is promised, and names are DIDs. */
  ghost predicate Legal(a: State, evs: seq<Event>) {
    evs == [] ||
      var front, ev := evs[..|evs| - 1], evs[|evs| - 1];
      var b := Subscribers.Run(a, front).a;
      Legal(a, front) && Permitted(b, ev) && PlainNames(b, ev)
  }

  /** In every run no subscription rests on a grant whose revocation is held. */
  lemma {:induction false} RevokedStaysOutOfRuns(a: State, evs: seq<Event>)
    requires AuthorityOk(a) && NoneRevoked(a) && Legal(a, evs)
    ensures var z := Subscribers.Run(a, evs).a; AuthorityOk(z) && NoneRevoked(z)
  {
    hide AuthorityOk, NoneRevoked, Step, Permitted, PlainNames, ToldExactly, ToldOnSubscribe;
    if evs != [] {
      var front, ev := evs[..|evs| - 1], evs[|evs| - 1];
      RevokedStaysOutOfRuns(a, front);
      var b := Subscribers.Run(a, front).a;
      StepKeeps(b, ev);
      RevokedStaysOut(b, ev);
    }
  }

  /** The grant's own claim, as its grantee presents it. */
  function ClaimOf(identity: string, grantee: string, grant: string, until: int): Claim {
    GrantClaim(true, identity, grantee, {"dsip.subscribe"}, Some(until), grant, None)
  }

  /** At one point of a run: the grant would be valid, and it is refused when presented and admits no subscription. */
  ghost predicate ShutOut(z: State, identity: string, grantee: string, grant: string, until: int) {
    z.now < until ==> !Admits(z, ClaimOf(identity, grantee, grant, until), grantee, identity) && AdmittedBy(z, identity, grant) == {}
  }

  lemma ShutOutExactly(z: State, identity: string, grantee: string, grant: string, until: int)
    requires NoneRevoked(z)
    ensures ShutOut(z, identity, grantee, grant, until) <==> Kept(z, RevokeKey(identity, grant), until)
  {
    if z.now < until && RevokeKey(identity, grant) in z.revoked { NoneAdmitted(z, identity, grant); }
  }

  lemma NoneAdmitted(z: State, identity: string, grant: string)
    requires NoneRevoked(z) && RevokeKey(identity, grant) in z.revoked
    ensures AdmittedBy(z, identity, grant) == {}
  {
  }

  lemma LegalBefore(a: State, evs: seq<Event>, i: nat)
    requires Legal(a, evs) && i <= |evs|
    ensures Legal(a, evs[..i])
    decreases |evs|
  {
    hide Subscribers.Run, Permitted, PlainNames;
    if i < |evs| {
      assert evs[..|evs| - 1][..i] == evs[..i];
      LegalBefore(a, evs[..|evs| - 1], i);
    } else {
      assert evs[..i] == evs;
    }
  }

  /**
   * From its revocation on, throughout any run, a grant is shut out while it would be valid, exactly if no wait passes the
   * end its revocation is held under before the grant's own.
   */
  lemma RevokedGrantShutOutExactly(a: State, from: string, grantee: string, grant: string, until: int, evs: seq<Event>)
    requires AuthorityOk(a) && NoneRevoked(a) && a.now < until && '\n' !in IdentityOf(a, from)
    requires Legal(Step(a, RevokeGrant(from, grant, until)).a, evs)
    ensures var b, key := Step(a, RevokeGrant(from, grant, until)).a, RevokeKey(IdentityOf(a, from), grant);
            && (Always(z => ShutOut(z, IdentityOf(a, from), grantee, grant, until), b, evs) <==> NeverForgets(b, evs, key, until))
            && (NeverShortens(b, evs, key, until) ==> NeverForgets(b, evs, key, until))
  {
    hide AuthorityOk, NoneRevoked, Step, ToldExactly, Subscribers.Run, Legal, RevokeKey, ShutOut, Kept, NeverForgets, NeverShortens, PlainNames;
    var ev, identity := RevokeGrant(from, grant, until), IdentityOf(a, from);
    var b, key := Step(a, ev).a, RevokeKey(identity, grant);
    RevokedHolds(a, from, grant, until);
    KeptExactly(b, evs, key, until);
    forall i | 0 <= i <= |evs|
      ensures ShutOut(Subscribers.Run(b, evs[..i]).a, identity, grantee, grant, until) <==> Kept(Subscribers.Run(b, evs[..i]).a, key, until)
    {
      LegalBefore(b, evs, i);
      RevokedStaysOutOfRuns(b, evs[..i]);
      ShutOutExactly(Subscribers.Run(b, evs[..i]).a, identity, grantee, grant, until);
    }
    if NeverShortens(b, evs, key, until) { UnshortenedIsKept(b, evs, key, until); }
  }

  lemma RevokedHolds(a: State, from: string, grant: string, until: int)
    requires AuthorityOk(a) && NoneRevoked(a) && a.now < until && '\n' !in IdentityOf(a, from)
    ensures var b, key := Step(a, RevokeGrant(from, grant, until)).a, RevokeKey(IdentityOf(a, from), grant);
            AuthorityOk(b) && NoneRevoked(b) && Holds(b, key, until) && Kept(b, key, until)
  {
    hide AuthorityOk, NoneRevoked, Step, ToldExactly, ToldOnSubscribe, RevokeKey;
    var ev := RevokeGrant(from, grant, until);
    assert Permitted(a, ev) && PlainNames(a, ev);
    StepKeeps(a, ev);
    RevokedStaysOut(a, ev);
    StepRevoked(a, ev);
  }

  // ---- a revocation given again with an earlier end

  /** A grant is revoked until its end, then again until an earlier time, and that time comes. */
  function RevokedTwice(a: State, from: string, grant: string, until: int, early: int): seq<Event>
    requires a.now <= early
  {
    [RevokeGrant(from, grant, until), RevokeGrant(from, grant, early), Advance(early - a.now)]
  }

  lemma RunsThree(a: State, e: Event, f: Event, g: Event)
    ensures Subscribers.Run(a, [e, f, g]).a == Step(Step(Step(a, e).a, f).a, g).a
  {
    hide Step;
    assert Subscribers.Run(a, []).a == a;
    RunNext(a, [], e);
    RunNext(a, [e], f);
    RunNext(a, [e, f], g);
    assert [] + [e] == [e] && [e] + [f] == [e, f] && [e, f] + [g] == [e, f, g];
  }

  lemma StillShortened(m: map<string, int>, key: string, until: int, early: int)
    requires early < until
    ensures Still(m[key := until][key := early], early) == Still(m, early) - {key}
  {
  }

  /** The revocation is gone though the grant has not ended. */
  lemma ShortenedIsForgotten(a: State, from: string, grant: string, until: int, early: int)
    requires a.now < early < until
    ensures var z, key := Subscribers.Run(a, RevokedTwice(a, from, grant, until, early)).a, RevokeKey(IdentityOf(a, from), grant);
            && z.now == early && z.revoked == Still(a.revoked, early) - {key} && a.seen <= z.seen && z.identities == a.identities
  {
    hide Step, RevokeKey, Subscribers.Run, Still;
    var e, f, g := RevokeGrant(from, grant, until), RevokeGrant(from, grant, early), Advance(early - a.now);
    RunsThree(a, e, f, g);
    StepRevoked(a, e);
    var b := Step(a, e).a;
    StepRevoked(b, f);
    var c := Step(b, f).a;
    StepRevoked(c, g);
    var key := RevokeKey(IdentityOf(a, from), grant);
    StillShortened(a.revoked, key, until, early);
  }

  /** What the grantee asks for. */
  predicate Presents(a: State, q: Request, identity: string, grant: string, until: int) {
    && q.target == identity && q.events == [OnPresence] && q.expiresIn > 0
    && q.claims == [ClaimOf(identity, IdentityOf(a, q.from), grant, until)] && IdentityOf(a, q.from) != identity
  }

  /** From any state: the grant, revoked twice, is presented and makes a subscription again. */
  lemma ShortenedGrantAdmits(a: State, from: string, grant: string, until: int, early: int, q: Request)
    requires AuthorityOk(a) && a.now < early < until && IdentityOf(a, from) in a.seen
    requires Presents(a, q, IdentityOf(a, from), grant, until) && q.id !in a.subs
    ensures var z := Subscribers.Run(a, RevokedTwice(a, from, grant, until, early)).a;
            z.now < until && q.id in AdmittedBy(Step(z, Subscribe(q)).a, IdentityOf(a, from), grant)
  {
    hide AuthorityOk, Step, RevokeKey, ToldExactly, ToldOnSubscribe;
    var identity := IdentityOf(a, from);
    var evs := RevokedTwice(a, from, grant, until, early);
    var z := Subscribers.Run(a, evs).a;
    ShortenedIsForgotten(a, from, grant, until, early);
    StaysAuthority(a, evs[0], evs[1], evs[2], q.id);
    assert Admits(z, q.claims[0], IdentityOf(z, q.from), identity);
    assert AdmittingGrant(z, q.claims, IdentityOf(z, q.from), identity) == q.claims[0];
    assert TakesUp(z, q) && Admit(z, q).grant == Some(Grant(grant, until));
    SubscribeAdds(z, q);
    Subscribers.StepSubscribes(z, q);
  }

  lemma StaysAuthority(a: State, e: Event, f: Event, g: Event, id: string)
    requires AuthorityOk(a) && id !in a.subs && !e.Subscribe? && !f.Subscribe? && !g.Subscribe?
    ensures var z := Subscribers.Run(a, [e, f, g]).a; AuthorityOk(z) && id !in z.subs
  {
    hide AuthorityOk, Step, ToldExactly, TakesUp;
    RunsThree(a, e, f, g);
    StepKeeps(a, e);
    Subscribers.StepAddsNone(a, e, id);
    var b := Step(a, e).a;
    StepKeeps(b, f);
    Subscribers.StepAddsNone(b, f, id);
    var c := Step(b, f).a;
    StepKeeps(c, g);
    Subscribers.StepAddsNone(c, g, id);
  }

  const ALICE := "did:web:alice.example"

  const BOB := "did:web:bob.example"

  /** An authority that has seen Alice's devices and holds nothing. */
  function Quietly(): State {
    State(0, 60, map[], map[], map[], map[], [], map[], [], map[], {ALICE}, map[], map[], map[], map[])
  }

  function BobAsks(): Request {
    Request(BOB, "subscription", ALICE, [OnPresence], 100, None, [ClaimOf(ALICE, BOB, "grant", 1000)], false)
  }

  /** Alice revokes a grant until its end at 1000 and again until 10; at 10 Bob presents it and is subscribed. */
  lemma RevokedAndAdmitted()
    ensures AuthorityOk(Quietly()) && NoneRevoked(Quietly())
    ensures var z := Subscribers.Run(Quietly(), RevokedTwice(Quietly(), ALICE, "grant", 1000, 10)).a;
            z.now == 10 && z.revoked == map[] && BobAsks().id in AdmittedBy(Step(z, Subscribe(BobAsks())).a, ALICE, "grant")
  {
    hide Step, Subscribers.Run, RevokeKey;
    assert ALICE[8] != BOB[8];
    ShortenedIsForgotten(Quietly(), ALICE, "grant", 1000, 10);
    ShortenedGrantAdmits(Quietly(), ALICE, "grant", 1000, 10, BobAsks());
  }
}
