/**
 * The subscribing side of `broadcast-state.ts`, and the two sides together: the authority numbers what it tells one
 * subscription without a gap, so a subscriber that hears it in order surfaces every word of it.
 */
module Subscribers {
  import opened Prelude
  import opened Authorities

  // ---- what the authority tells one subscription

  predicate To(e: Emission, id: string) { e.Notify? && e.subscription == id }

  /** The notifies to one subscription, in order. */
  function Words(emit: seq<Emission>, id: string): seq<Emission> {
    if emit == [] then []
    else Words(emit[..|emit| - 1], id) + if To(emit[|emit| - 1], id) then [emit[|emit| - 1]] else []
  }

  lemma {:induction false} WordsAppend(a: seq<Emission>, b: seq<Emission>, id: string)
    ensures Words(a + b, id) == Words(a, id) + Words(b, id)
    decreases |b|
  {
    if b == [] {
      assert a + b == a;
    } else {
      assert (a + b)[..|a + b| - 1] == a + b[..|b| - 1];
      WordsAppend(a, b[..|b| - 1], id);
    }
  }

  lemma WordsOne(e: Emission, id: string)
    ensures Words([e], id) == if To(e, id) then [e] else []
    ensures Words([], id) == []
  {
    assert [e][..0] == [];
  }

  function Last(a: State, id: string): nat { if id in a.subs then a.subs[id].seqNo else 0 }

  /** Notifies numbered on from `from` without a gap, none of them terminal but perhaps the last. */
  predicate Orderly(ws: seq<Emission>, from: nat) {
    forall i :: 0 <= i < |ws| ==>
      ws[i].Notify? && ws[i].seqNo == from + 1 + i && (i < |ws| - 1 ==> ws[i].ended.None?)
  }

  predicate Terminal(ws: seq<Emission>) {
    ws != [] && ws[|ws| - 1].Notify? && ws[|ws| - 1].ended.Some?
  }

  /** What was told to `id` follows on from its last number, and a terminal word leaves no subscription behind it. */
  ghost predicate Numbered(a: State, b: State, emit: seq<Emission>, id: string) {
    var ws := Words(emit, id);
    && Orderly(ws, Last(a, id))
    && (id in b.subs ==> b.subs[id].seqNo == Last(a, id) + |ws| && !Terminal(ws))
    && (id !in a.subs && id !in b.subs ==> ws == [])
  }

  /** A subscription only ever leaves. */
  predicate NoneAdded(a: State, b: State) { b.subs.Keys <= a.subs.Keys }

  lemma OrderlyJoin(u: seq<Emission>, v: seq<Emission>, from: nat)
    requires Orderly(u, from) && Orderly(v, from + |u|) && !Terminal(u)
    ensures Orderly(u + v, from) && (Terminal(u + v) <==> Terminal(v))
  {
    assert u != [] ==> u[|u| - 1].Notify? && u[|u| - 1].ended.None?;
    if v == [] { assert u + v == u; } else { assert (u + v)[|u + v| - 1] == v[|v| - 1]; }
  }

  lemma Chain(a: State, b: State, c: State, e: seq<Emission>, f: seq<Emission>, id: string)
    requires Numbered(a, b, e, id) && Numbered(b, c, f, id)
    requires id in a.subs && id !in b.subs ==> id !in c.subs
    requires id !in a.subs && id in b.subs ==> id in c.subs
    ensures Numbered(a, c, e + f, id)
  {
    hide Words, Orderly, Terminal;
    WordsAppend(e, f, id);
    var u, v := Words(e, id), Words(f, id);
    if id in b.subs {
      OrderlyJoin(u, v, Last(a, id));
    } else if id in a.subs {
      assert u + [] == u;
    } else {
      assert [] + v == v;
    }
  }

  /** A step that adds nobody: numbers and keys. */
  ghost predicate Tidy(a: State, r: Result) {
    NoneAdded(a, r.a) && forall id :: Numbered(a, r.a, r.emit, id)
  }

  lemma TidyThen(a: State, r: Result, s: Result)
    requires Tidy(a, r) && Tidy(r.a, s)
    ensures Tidy(a, Then(r, s))
  {
    forall id ensures Numbered(a, s.a, r.emit + s.emit, id) {
      assert Numbered(a, r.a, r.emit, id) && Numbered(r.a, s.a, s.emit, id);
      Chain(a, r.a, s.a, r.emit, s.emit, id);
    }
  }

  /** Nothing told, and each subscription that is left as far as it was. */
  lemma TidyQuiet(a: State, b: State, emit: seq<Emission>)
    requires NoneAdded(a, b) && (forall id :: id in b.subs ==> b.subs[id].seqNo == a.subs[id].seqNo)
    requires forall e :: e in emit ==> !e.Notify?
    ensures Tidy(a, Result(b, emit))
  {
    forall id ensures Numbered(a, b, emit, id) { NoWords(emit, id); }
  }

  lemma {:induction false} NoWords(emit: seq<Emission>, id: string)
    requires forall e :: e in emit ==> !e.Notify?
    ensures Words(emit, id) == []
  {
    if emit != [] { NoWords(emit[..|emit| - 1], id); }
  }

  lemma ToldTidy(a: State, id: string, t: Topic)
    requires id in a.subs
    ensures Tidy(a, Told(a, id, t, None))
  {
    hide BodyOn;
    var r := Told(a, id, t, None);
    forall x ensures Numbered(a, r.a, r.emit, x) { WordsOne(r.emit[0], x); }
  }

  lemma EndedTidy(a: State, id: string, reason: string)
    requires id in a.subs && a.subs[id].events != []
    ensures Tidy(a, Ended(a, id, reason))
  {
    hide WithoutId, BodyOn;
    var e := Ended(a, id, reason);
    forall x ensures Numbered(a, e.a, e.emit, x) { WordsOne(e.emit[0], x); }
  }

  lemma {:induction false} TellAllTidy(a: State, ids: seq<string>, target: string, t: Topic)
    ensures Tidy(a, TellAll(a, ids, target, t))
  {
    hide Told, Tidy;
    if ids == [] {
      TidyQuiet(a, a, []);
    } else {
      var front, id := ids[..|ids| - 1], ids[|ids| - 1];
      TellAllTidy(a, front, target, t);
      var r := TellAll(a, front, target, t);
      if id in r.a.subs && r.a.subs[id].target == target && t in r.a.subs[id].events {
        ToldTidy(r.a, id, t);
        TidyThen(a, r, Told(r.a, id, t, None));
      }
    }
  }

  lemma {:induction false} TellChangedTidy(a: State, ids: seq<string>)
    ensures Tidy(a, TellChanged(a, ids))
  {
    hide Told, Tidy, BodyFor;
    if ids == [] {
      TidyQuiet(a, a, []);
    } else {
      var front, id := ids[..|ids| - 1], ids[|ids| - 1];
      TellChangedTidy(a, front);
      var r := TellChanged(a, front);
      if id in r.a.subs && OnPresence in r.a.subs[id].events
         && r.a.subs[id].lastBody != Some(BodyFor(r.a.records, r.a.bound, r.a.subs[id])) {
        ToldTidy(r.a, id, OnPresence);
        TidyThen(a, r, Told(r.a, id, OnPresence, None));
      }
    }
  }

  lemma {:induction false} EndEachTidy(a: State, ids: seq<string>, reason: string)
    ensures Tidy(a, EndEach(a, ids, reason))
  {
    hide Ended, Tidy;
    if ids == [] {
      TidyQuiet(a, a, []);
    } else {
      var front, id := ids[..|ids| - 1], ids[|ids| - 1];
      EndEachTidy(a, front, reason);
      var r := EndEach(a, front, reason);
      if id in r.a.subs && r.a.subs[id].events != [] {
        EndedTidy(r.a, id, reason);
        TidyThen(a, r, Ended(r.a, id, reason));
      }
    }
  }

  lemma {:induction false} LapseEachTidy(a: State, ids: seq<string>)
    ensures Tidy(a, LapseEach(a, ids))
  {
    hide Ended, Tidy, LapseReason;
    if ids == [] {
      TidyQuiet(a, a, []);
    } else {
      var front, id := ids[..|ids| - 1], ids[|ids| - 1];
      LapseEachTidy(a, front);
      var r := LapseEach(a, front);
      if id in r.a.subs && r.a.subs[id].events != [] && LapseReason(r.a.subs[id], r.a.now).Some? {
        EndedTidy(r.a, id, LapseReason(r.a.subs[id], r.a.now).value);
        TidyThen(a, r, Ended(r.a, id, LapseReason(r.a.subs[id], r.a.now).value));
      }
    }
  }

  lemma WithStateTidy(a: State, stream: string, p: Publication, state: string)
    ensures Tidy(a, WithState(a, stream, p, state))
  {
    hide TellAll, Tidy;
    var b := a.(pubs := a.pubs[stream := p.(state := state)],
                streams := if stream in a.streams then a.streams else a.streams + [stream]);
    TidyQuiet(a, b, [PublicationState(stream, state)]);
    TellAllTidy(b, b.listed, stream, OnPublication);
    TidyThen(a, Result(b, [PublicationState(stream, state)]), TellAll(b, b.listed, stream, OnPublication));
  }

  lemma {:induction false} ExpireEachTidy(a: State, streams: seq<string>)
    ensures Tidy(a, ExpireEach(a, streams))
  {
    hide WithState, Tidy;
    if streams == [] {
      TidyQuiet(a, a, []);
    } else {
      var front, stream := streams[..|streams| - 1], streams[|streams| - 1];
      ExpireEachTidy(a, front);
      var r := ExpireEach(a, front);
      if stream in r.a.pubs && r.a.pubs[stream].state == "live" && r.a.pubs[stream].expires.Some?
         && r.a.pubs[stream].expires.value <= r.a.now {
        WithStateTidy(r.a, stream, r.a.pubs[stream], "expired");
        TidyThen(a, r, WithState(r.a, stream, r.a.pubs[stream], "expired"));
      }
    }
  }

  /** A change of something other than the subscriptions, then telling whom it concerns. */
  lemma NotifyTidy(a: State, b: State)
    requires b.subs == a.subs
    ensures Tidy(a, NotifyChanged(b))
  {
    hide TellChanged, TellingOrder, Tidy;
    TellChangedTidy(b, TellingOrder(b.subs));
    TidyQuiet(a, b, []);
    TidyThen(a, Result(b, []), NotifyChanged(b));
    assert Then(Result(b, []), NotifyChanged(b)) == NotifyChanged(b);
  }

  lemma AdvanceTidy(a: State, seconds: nat)
    ensures Tidy(a, OnAdvance(a, seconds))
  {
    hide ExpireEach, LapseEach, NotifyChanged, Tidy, Sorted;
    var b := a.(now := a.now + seconds);
    var e := ExpireEach(b, b.streams);
    var l := LapseEach(e.a, Sorted(e.a.subs.Keys));
    TidyQuiet(a, b, []);
    ExpireEachTidy(b, b.streams);
    TidyThen(a, Result(b, []), e);
    assert Then(Result(b, []), e) == e;
    LapseEachTidy(e.a, Sorted(e.a.subs.Keys));
    TidyThen(a, e, l);
    NotifyTidy(l.a, Cleaned(l.a));
    TidyThen(a, Then(e, l), NotifyChanged(Cleaned(l.a)));
  }

  lemma PublishTidy(a: State, from: string, publisher: string, stream: string, id: string, state: string,
                    variants: set<string>, expires: Option<int>)
    ensures Tidy(a, OnPublish(a, from, publisher, stream, id, state, variants, expires))
  {
    hide WithState, Tidy, StartsWith, Less;
    var sender := IdentityOf(a, from);
    if publisher != sender {
      TidyQuiet(a, a, [Drop("publisher-mismatch")]);
    } else if !StartsWith(stream, sender + ":") {
      TidyQuiet(a, a, [Drop("stream-id-namespace")]);
    } else if stream in a.pubs && !Less(a.pubs[stream].id, id) {
      TidyQuiet(a, a, [Drop("stale-publication")]);
    } else {
      WithStateTidy(a, stream, Publication(id, sender, "", variants, expires, []), state);
    }
  }

  lemma UnpublishTidy(a: State, from: string, publisher: string, stream: string, publication: string)
    ensures Tidy(a, OnUnpublish(a, from, publisher, stream, publication))
  {
    hide WithState, Tidy;
    var sender := IdentityOf(a, from);
    if publisher != sender || (stream in a.pubs && a.pubs[stream].publisher != sender) {
      TidyQuiet(a, a, [Drop("publisher-mismatch")]);
    } else if stream !in a.pubs || a.pubs[stream].id != publication {
      TidyQuiet(a, a, [Drop("unknown-publication")]);
    } else {
      WithStateTidy(a, stream, a.pubs[stream], "withdrawn");
    }
  }

  lemma AttestTidy(a: State, from: string, processor: string, stream: string, publication: string, variant: Option<string>)
    ensures Tidy(a, OnAttest(a, from, processor, stream, publication, variant))
  {
    hide TellAll, Tidy, StreamOf;
    var r := OnAttest(a, from, processor, stream, publication, variant);
    if |r.emit| == 1 && r.emit[0].Drop? {
      TidyQuiet(a, a, r.emit);
    } else {
      var p := a.pubs[stream];
      var b := a.(pubs := a.pubs[stream := p.(provenance := p.provenance + [processor])]);
      TidyQuiet(a, b, [Provenance(stream, processor)]);
      TellAllTidy(b, b.listed, stream, OnPublication);
      TidyThen(a, Result(b, [Provenance(stream, processor)]), TellAll(b, b.listed, stream, OnPublication));
    }
  }

  // ---- a new subscription

  lemma {:induction false} TellEachTidy(a: State, id: string, topics: seq<Topic>)
    requires id in a.subs
    ensures Tidy(a, TellEach(a, id, topics))
  {
    hide Told, Tidy;
    if topics == [] {
      TidyQuiet(a, a, []);
    } else {
      var front := topics[..|topics| - 1];
      TellEachTidy(a, id, front);
      var r := TellEach(a, id, front);
      ToldTidy(r.a, id, topics[|topics| - 1]);
      TidyThen(a, r, Told(r.a, id, topics[|topics| - 1], None));
    }
  }

  /** A subscription is renewed under its own id, and its numbers start anew. */
  predicate Renews(a: State, ev: Event, id: string) {
    ev.Subscribe? && TakesUp(a, ev.request) && ev.request.id == id && id in a.subs
  }

  lemma SubscribeNumbered(a: State, q: Request, id: string)
    requires !Renews(a, Subscribe(q), id)
    ensures Numbered(a, OnSubscribe(a, q).a, OnSubscribe(a, q).emit, id)
  {
    hide TellEach, Admit, PriorOf, NewSubscription, Numbered, WithSubscription, Without, Removed, TellEach;
    if q.expiresIn == 0 || Admit(a, q).Refused? { RefusedNumbered(a, q, id); } else { TakenNumbered(a, q, id); }
  }

  lemma RefusedNumbered(a: State, q: Request, id: string)
    requires q.expiresIn == 0 || Admit(a, q).Refused?
    ensures Numbered(a, OnSubscribe(a, q).a, OnSubscribe(a, q).emit, id)
  {
    hide Admit, PriorOf, Numbered, WithSubscription, Without, TellEach, WithoutId, Tidy;
    var r := OnSubscribe(a, q);
    TidyQuiet(a, r.a, r.emit);
    TidyGives(a, r, id);
  }

  lemma TakenSubs(a: State, prior: Option<string>, id: string, s: Subscription)
    ensures var c := WithSubscription(Without(a, prior), id, s);
            && id in c.subs && c.subs[id] == s && forall x :: x in c.subs && x != id ==> x in a.subs && c.subs[x] == a.subs[x]
  {
    hide WithoutId;
  }

  lemma TakenNumbered(a: State, q: Request, id: string)
    requires TakesUp(a, q) && (id == q.id ==> q.id !in a.subs)
    ensures Numbered(a, OnSubscribe(a, q).a, OnSubscribe(a, q).emit, id)
  {
    hide Admit, PriorOf, NewSubscription, Numbered, Tidy, WithSubscription, Without, TellEach;
    var prior, m := PriorOf(a, a.listed, q), Admit(a, q);
    var s := NewSubscription(a, q, m);
    StartsAtNothing(a, q, m);
    TakenSubs(a, prior, q.id, s);
    var c := WithSubscription(Without(a, prior), q.id, s);
    var said := if prior.Some? then [SubscriptionEnd(prior.value, true)] else [];
    NoWords(said, id);
    AddedNumbered(a, c, said, q.id, id);
    TellEachTidy(c, q.id, q.events);
    var t := TellEach(c, q.id, q.events);
    TidyGives(c, t, id);
    TidyAddsNone(c, t);
    Chain(a, c, t.a, said, t.emit, id);
  }

  /** What the subscription taken up is told by that very event: numbers from 1, none terminal. */
  ghost predicate TakenFresh(r: Result, id: string) {
    var ws := Words(r.emit, id);
    Orderly(ws, 0) && !Terminal(ws) && id in r.a.subs && r.a.subs[id].seqNo == |ws|
  }

  lemma TakenStartsAtOne(a: State, q: Request)
    requires TakesUp(a, q)
    ensures TakenFresh(OnSubscribe(a, q), q.id)
  {
    hide Admit, PriorOf, NewSubscription, Tidy, WithSubscription, Without, TellEach, Words, Orderly;
    var prior, m := PriorOf(a, a.listed, q), Admit(a, q);
    var s := NewSubscription(a, q, m);
    StartsAtNothing(a, q, m);
    TakenSubs(a, prior, q.id, s);
    var c := WithSubscription(Without(a, prior), q.id, s);
    var said := if prior.Some? then [SubscriptionEnd(prior.value, true)] else [];
    NoWords(said, q.id);
    TellEachTidy(c, q.id, q.events);
    var t := TellEach(c, q.id, q.events);
    TidyGives(c, t, q.id);
    WordsAppend(said, t.emit, q.id);
    assert [] + Words(t.emit, q.id) == Words(t.emit, q.id);
  }

  /** Taking up one subscription and telling nothing. */
  lemma AddedNumbered(a: State, c: State, emit: seq<Emission>, added: string, id: string)
    requires Words(emit, id) == [] && (id == added ==> added !in a.subs) && c.subs.Keys <= a.subs.Keys + {added}
    requires forall x :: x in c.subs ==> c.subs[x].seqNo == if x == added then 0 else Last(a, x)
    ensures Numbered(a, c, emit, id)
  {
  }

  lemma TidyAddsNone(a: State, r: Result)
    requires Tidy(a, r)
    ensures forall id :: id in r.a.subs ==> id in a.subs
  {
  }

  lemma StartsAtNothing(a: State, q: Request, m: Admission)
    requires m.Admitted?
    ensures NewSubscription(a, q, m).seqNo == 0
  {
  }

  /** Every event tells each subscription the numbers that follow its last one, without a gap. */
  lemma StepNumbered(a: State, ev: Event, id: string)
    requires !Renews(a, ev, id)
    ensures Numbered(a, Step(a, ev).a, Step(a, ev).emit, id)
  {
    hide Tidy, OnAdvance, NotifyChanged, WithState, OnAttest, OnSubscribe, EndEach, RefusalOf, Unbound, Numbered;
    var r := Step(a, ev);
    match ev {
      case Advance(seconds) => AdvanceTidy(a, seconds); TidyGives(a, r, id);
      case SetPolicy(_, _) => TidyQuiet(a, r.a, r.emit); TidyGives(a, r, id);
      case IssueCapability(_, _) => TidyQuiet(a, r.a, r.emit); TidyGives(a, r, id);
      case Bind(device, identity) =>
        NotifyTidy(a, a.(bound := a.bound[device := identity], seen := a.seen + {identity}, graceUntil := a.graceUntil - {device}));
        TidyGives(a, r, id);
      case Unbind(device, identity) =>
        UnboundSubs(a, device, identity);
        NotifyTidy(a, Unbound(a, device, identity));
        TidyGives(a, r, id);
      case Publish(from, publisher, stream, pid, state, variants, expires) =>
        PublishTidy(a, from, publisher, stream, pid, state, variants, expires);
        TidyGives(a, r, id);
      case Unpublish(from, publisher, stream, publication) =>
        UnpublishTidy(a, from, publisher, stream, publication);
        TidyGives(a, r, id);
      case Attest(from, processor, stream, publication, variant) =>
        AttestTidy(a, from, processor, stream, publication, variant);
        TidyGives(a, r, id);
      case Subscribe(q) => SubscribeNumbered(a, q, id);
      case PutRecord(from, subject, signed, issuedAt, x) =>
        if RefusalOf(a, from, subject, signed, issuedAt, x).Some? { TidyQuiet(a, a, r.emit); }
        else { NotifyTidy(a, Accepted(a, from, subject, x)); }
        TidyGives(a, r, id);
      case RevokeGrant(from, grant, validUntil) =>
        RevocationTidy(a, from, grant, validUntil);
        TidyGives(a, r, id);
    }
  }

  lemma TidyGives(a: State, r: Result, id: string)
    requires Tidy(a, r)
    ensures Numbered(a, r.a, r.emit, id)
  {
  }

  lemma UnboundSubs(a: State, device: string, identity: string)
    ensures Unbound(a, device, identity).subs == a.subs
  {
  }

  lemma RevocationTidy(a: State, from: string, grant: string, validUntil: int)
    ensures Tidy(a, OnRevocation(a, from, grant, validUntil))
  {
    hide EndEach, Tidy, Sorted;
    var identity := IdentityOf(a, from);
    var b := if a.now < validUntil then a.(revoked := a.revoked[RevokeKey(identity, grant) := validUntil]) else a;
    var ids := Sorted(AdmittedBy(b, identity, grant));
    var r := EndEach(b, ids, "policy.terminated");
    TidyQuiet(a, b, []);
    EndEachTidy(b, ids, "policy.terminated");
    TidyThen(a, Result(b, []), r);
    assert Then(Result(b, []), r) == r;
  }

  // ---- a subscription over a whole run of the authority

  lemma StepAddsNone(a: State, ev: Event, id: string)
    requires id !in a.subs && (ev.Subscribe? && TakesUp(a, ev.request) ==> ev.request.id != id)
    ensures id !in Step(a, ev).a.subs
  {
    hide Step;
    if ev.Subscribe? { SubscribeAddsOne(a, ev.request, id); } else { OthersAddNone(a, ev); }
  }

  lemma SubscribeAddsOne(a: State, q: Request, id: string)
    requires id !in a.subs && (TakesUp(a, q) ==> id != q.id)
    ensures id !in OnSubscribe(a, q).a.subs && Step(a, Subscribe(q)) == OnSubscribe(a, q)
  {
    hide TellEach, Admit, PriorOf, WithoutId, NewSubscription;
    var m := Admit(a, q);
    if q.expiresIn != 0 && !m.Refused? {
      var c := WithSubscription(Without(a, PriorOf(a, a.listed, q)), q.id, NewSubscription(a, q, m));
      TellEachTidy(c, q.id, q.events);
    }
  }

  lemma OthersAddNone(a: State, ev: Event)
    requires !ev.Subscribe?
    ensures NoneAdded(a, Step(a, ev).a)
  {
    hide Numbered, OnAdvance, NotifyChanged, WithState, OnAttest, OnPublish, OnUnpublish, EndEach, RefusalOf, Unbound, OnRevocation;
    match ev {
      case Advance(seconds) => AdvanceTidy(a, seconds);
      case SetPolicy(_, _) =>
      case IssueCapability(_, _) =>
      case Bind(device, identity) =>
        NotifyTidy(a, a.(bound := a.bound[device := identity], seen := a.seen + {identity}, graceUntil := a.graceUntil - {device}));
      case Unbind(device, identity) => UnboundSubs(a, device, identity); NotifyTidy(a, Unbound(a, device, identity));
      case Publish(from, publisher, stream, pid, state, variants, expires) =>
        PublishTidy(a, from, publisher, stream, pid, state, variants, expires);
      case Unpublish(from, publisher, stream, publication) => UnpublishTidy(a, from, publisher, stream, publication);
      case Attest(from, processor, stream, publication, variant) => AttestTidy(a, from, processor, stream, publication, variant);
      case PutRecord(from, subject, signed, issuedAt, x) =>
        if RefusalOf(a, from, subject, signed, issuedAt, x).None? { NotifyTidy(a, Accepted(a, from, subject, x)); }
      case RevokeGrant(from, grant, validUntil) => RevocationTidy(a, from, grant, validUntil);
    }
  }

  ghost function Run(a: State, evs: seq<Event>): Result {
    if evs == [] then Result(a, [])
    else
      var r := Run(a, evs[..|evs| - 1]);
      Then(r, Step(r.a, evs[|evs| - 1]))
  }

  /** Events the authority is promised, none of which makes a subscription under `id`. */
  ghost predicate Legal(a: State, evs: seq<Event>, id: string) {
    evs == [] ||
      var front, ev := evs[..|evs| - 1], evs[|evs| - 1];
      && Legal(a, front, id) && Permitted(Run(a, front).a, ev)
      && (ev.Subscribe? && TakesUp(Run(a, front).a, ev.request) ==> ev.request.id != id)
  }

  lemma {:induction false} RunNumbered(a: State, evs: seq<Event>, id: string)
    requires Legal(a, evs, id)
    ensures Numbered(a, Run(a, evs).a, Run(a, evs).emit, id)
    ensures id !in a.subs ==> id !in Run(a, evs).a.subs
  {
    hide Step, Permitted, TakesUp;
    if evs != [] {
      var front, ev := evs[..|evs| - 1], evs[|evs| - 1];
      RunNumbered(a, front, id);
      var r := Run(a, front);
      StepNumbered(r.a, ev, id);
      if id !in r.a.subs { StepAddsNone(r.a, ev, id); }
      var s := Step(r.a, ev);
      Chain(a, r.a, s.a, r.emit, s.emit, id);
    } else {
      assert Words([], id) == [];
    }
  }

  lemma StepSubscribes(a: State, q: Request)
    ensures Step(a, Subscribe(q)) == OnSubscribe(a, q)
  {
    hide OnSubscribe;
  }

  /** From the event that takes a subscription up, in every run, what it is told is numbered from 1 and ends at most once. */
  lemma ToldInOrder(a: State, q: Request, evs: seq<Event>)
    requires (TakesUp(a, q) || q.id !in a.subs) && Legal(Step(a, Subscribe(q)).a, evs, q.id)
    ensures var one := Step(a, Subscribe(q)); var r := Then(one, Run(one.a, evs));
      Orderly(Words(r.emit, q.id), 0) && (q.id in r.a.subs ==> !Terminal(Words(r.emit, q.id)))
  {
    hide Step, Words, Orderly, Terminal, Run, TakesUp, Legal;
    var one := Step(a, Subscribe(q));
    FirstWords(a, q);
    RunNumbered(one.a, evs, q.id);
    var r := Run(one.a, evs);
    WordsAppend(one.emit, r.emit, q.id);
    var u, v := Words(one.emit, q.id), Words(r.emit, q.id);
    if q.id in one.a.subs { OrderlyJoin(u, v, 0); } else { assert u + [] == u; }
  }

  /** The event that takes a subscription up tells it from 1 on; one that does not tells it nothing. */
  lemma FirstWords(a: State, q: Request)
    requires TakesUp(a, q) || q.id !in a.subs
    ensures var r := Step(a, Subscribe(q)); var ws := Words(r.emit, q.id);
      && Orderly(ws, 0) && (if q.id in r.a.subs then r.a.subs[q.id].seqNo == |ws| && !Terminal(ws) else ws == [])
  {
    hide OnSubscribe, Words, Orderly, Terminal, TakesUp;
    StepSubscribes(a, q);
    if TakesUp(a, q) { TakenStartsAtOne(a, q); } else { StepNumbered(a, Subscribe(q), q.id); }
  }

  // ---- the subscriber

  datatype Standing = Asked | Active | Rejected | Terminated | Lapsed

  datatype Mine = Mine(target: string, standing: Standing, seqNo: nat, expiresAt: int)

  /** What a subscriber holds, and in which order it first asked for it. */
  datatype Side = Side(now: int, held: map<string, Mine>, order: seq<string>)

  datatype Heard = Word(e: Emission) | Reject(session: string, reason: string)

  datatype Shown =
    | ShowNotify(id: string, body: Body)
    | ShowEnded(id: string, reason: string)
    | ShowRejected(reason: string)
    | ShowLapsed(id: string)
    | Ignored(why: string)

  datatype Outcome = Outcome(s: Side, shown: seq<Shown>)

  function Ask(s: Side, id: string, target: string, expiresIn: int): Side {
    s.(held := s.held[id := Mine(target, Asked, 0, s.now + expiresIn)], order := if id in s.held then s.order else s.order + [id])
  }

  function Hear(s: Side, h: Heard): Outcome {
    match h
    case Reject(id, reason) =>
      if id !in s.held then Outcome(s, [Ignored("unknown-subscription")])
      else Outcome(s.(held := s.held[id := s.held[id].(standing := Rejected)]), [ShowRejected(reason)])
    case Word(e) =>
      if !e.Notify? || e.subscription !in s.held then Outcome(s, [Ignored("unknown-subscription")])
      else
        var m := s.held[e.subscription];
        if m.standing == Terminated then Outcome(s, [Ignored("terminated-subscription")])
        else if e.seqNo <= m.seqNo then Outcome(s, [Ignored("stale-seq")])
        else if e.ended.Some? then
          Outcome(s.(held := s.held[e.subscription := m.(seqNo := e.seqNo, standing := Terminated)]), [ShowEnded(e.subscription, e.ended.value)])
        else Outcome(s.(held := s.held[e.subscription := m.(seqNo := e.seqNo, standing := Active)]), [ShowNotify(e.subscription, e.body)])
  }

  predicate Lapses(m: Mine, now: int) { m.standing in {Active, Asked} && m.expiresAt <= now }

  function LapseIn(s: Side, ids: seq<string>): Outcome {
    if ids == [] then Outcome(s, [])
    else
      var r := LapseIn(s, ids[..|ids| - 1]);
      var id := ids[|ids| - 1];
      if id in r.s.held && Lapses(r.s.held[id], r.s.now) then
        Outcome(r.s.(held := r.s.held[id := r.s.held[id].(standing := Lapsed)]), r.shown + [ShowLapsed(id)])
      else r
  }

  /** Soft state: what is not renewed in time has lapsed, without waiting to be told. */
  function Pass(s: Side, seconds: nat): Outcome {
    LapseIn(s.(now := s.now + seconds), s.order)
  }

  class Subscriber {
    var now: int
    var held: map<string, Mine>
    var order: seq<string>

    ghost function View(): Side
      reads this
    {
      Side(now, held, order)
    }

    constructor (start: int)
      ensures View() == Side(start, map[], [])
    {
      now, held, order := start, map[], [];
    }

    method Send(id: string, target: string, expiresIn: int)
      modifies this`held, this`order
      ensures View() == Ask(old(View()), id, target, expiresIn)
    {
      if id !in held { order := order + [id]; }
      held := held[id := Mine(target, Asked, 0, now + expiresIn)];
    }

    method Recv(h: Heard) returns (shown: seq<Shown>)
      modifies this`held
      ensures Outcome(View(), shown) == Hear(old(View()), h)
    {
      match h
      case Reject(id, reason) =>
        if id !in held { return [Ignored("unknown-subscription")]; }
        held := held[id := held[id].(standing := Rejected)];
        return [ShowRejected(reason)];
      case Word(e) =>
        if !e.Notify? || e.subscription !in held { return [Ignored("unknown-subscription")]; }
        var m := held[e.subscription];
        if m.standing == Terminated { return [Ignored("terminated-subscription")]; }
        if e.seqNo <= m.seqNo { return [Ignored("stale-seq")]; }
        m := m.(seqNo := e.seqNo);
        if e.ended.Some? {
          held := held[e.subscription := m.(standing := Terminated)];
          return [ShowEnded(e.subscription, e.ended.value)];
        }
        held := held[e.subscription := m.(standing := Active)];
        return [ShowNotify(e.subscription, e.body)];
    }

    method Elapse(seconds: nat) returns (shown: seq<Shown>)
      modifies this`now, this`held
      ensures Outcome(View(), shown) == Pass(old(View()), seconds)
    {
      now := now + seconds;
      shown := [];
      ghost var s := View();
      for i := 0 to |order|
        invariant Outcome(View(), shown) == LapseIn(s, order[..i])
      {
        assert order[..i + 1][..i] == order[..i];
        var id := order[i];
        if id in held && (held[id].standing == Active || held[id].standing == Asked) && held[id].expiresAt <= now {
          held := held[id := held[id].(standing := Lapsed)];
          shown := shown + [ShowLapsed(id)];
        }
      }
      assert order[..|order|] == order;
    }
  }

  /** What a pass shows: each held subscription whose time has come, once, and nothing else lapses. */
  lemma {:induction false} PassLapses(s: Side, ids: seq<string>)
    ensures var r := LapseIn(s, ids);
            && r.s == s.(held := r.s.held) && r.s.held.Keys == s.held.Keys
            && (forall id :: id in s.held ==>
                  r.s.held[id] == if id in ids && Lapses(s.held[id], s.now) then s.held[id].(standing := Lapsed) else s.held[id])
            && (forall x :: x in r.shown <==> x.ShowLapsed? && x.id in ids && x.id in s.held && Lapses(s.held[x.id], s.now))
            && (forall i, j :: 0 <= i < j < |r.shown| ==> r.shown[i] != r.shown[j])
  {
    if ids != [] {
      var front, id := ids[..|ids| - 1], ids[|ids| - 1];
      assert ids == front + [id];
      PassLapses(s, front);
      var r := LapseIn(s, front);
      if id in r.s.held && Lapses(r.s.held[id], r.s.now) {
        assert id !in front;
        assert forall i :: 0 <= i < |r.shown| ==> r.shown[i] in r.shown && r.shown[i] != ShowLapsed(id);
      }
    }
  }

  // ---- a subscriber over a whole run of its own

  datatype Happening =
    | Hears(h: Heard)
    | Passes(seconds: nat)
    | Asks(id: string, target: string, expiresIn: int)

  function Happen(s: Side, x: Happening): Outcome {
    match x
    case Hears(h) => Hear(s, h)
    case Passes(seconds) => Pass(s, seconds)
    case Asks(id, target, expiresIn) => Outcome(Ask(s, id, target, expiresIn), [])
  }

  function HappenAll(s: Side, xs: seq<Happening>): Outcome {
    if xs == [] then Outcome(s, [])
    else
      var r := HappenAll(s, xs[..|xs| - 1]);
      var o := Happen(r.s, xs[|xs| - 1]);
      Outcome(o.s, r.shown + o.shown)
  }

  /** The words of one subscription among what happens. */
  function Heeded(xs: seq<Happening>, id: string): seq<Emission> {
    if xs == [] then []
    else
      var x := xs[|xs| - 1];
      Heeded(xs[..|xs| - 1], id) + if x.Hears? && x.h.Word? && To(x.h.e, id) then [x.h.e] else []
  }

  /** What is shown of one subscription's words. */
  function ShownOf(shown: seq<Shown>, id: string): seq<Shown> {
    if shown == [] then []
    else
      var x := shown[|shown| - 1];
      ShownOf(shown[..|shown| - 1], id) + if (x.ShowNotify? || x.ShowEnded?) && x.id == id then [x] else []
  }

  lemma {:induction false} ShownOfAppend(a: seq<Shown>, b: seq<Shown>, id: string)
    ensures ShownOf(a + b, id) == ShownOf(a, id) + ShownOf(b, id)
    decreases |b|
  {
    if b == [] {
      assert a + b == a;
    } else {
      assert (a + b)[..|a + b| - 1] == a + b[..|b| - 1];
      ShownOfAppend(a, b[..|b| - 1], id);
    }
  }

  lemma ShownOfOne(x: Shown, id: string)
    ensures ShownOf([x], id) == if (x.ShowNotify? || x.ShowEnded?) && x.id == id then [x] else []
    ensures ShownOf([], id) == []
  {
    assert [x][..0] == [];
  }

  lemma {:induction false} NoneShownOf(shown: seq<Shown>, id: string)
    requires forall x :: x in shown ==> x.ShowLapsed?
    ensures ShownOf(shown, id) == []
  {
    if shown != [] {
      assert shown[|shown| - 1] in shown;
      NoneShownOf(shown[..|shown| - 1], id);
    }
  }

  predicate Shows(shown: Shown, e: Emission)
    requires e.Notify?
  {
    match e.ended
    case None => shown == ShowNotify(e.subscription, e.body)
    case Some(reason) => shown == ShowEnded(e.subscription, reason)
  }

  /** Each word, in order, is shown, and nothing else is shown of the subscription. */
  predicate AllShown(shown: seq<Shown>, ws: seq<Emission>) {
    |shown| == |ws| && forall i :: 0 <= i < |ws| ==> ws[i].Notify? && Shows(shown[i], ws[i])
  }

  /** What happens besides the words of a subscription leaves it open, and as far as it was unless it is asked for again. */
  lemma AsideKeeps(s: Side, id: string, x: Happening)
    requires id in s.held && !(x.Hears? && x.h.Word? && To(x.h.e, id))
    ensures var o := Happen(s, x);
            && id in o.s.held && o.s.held[id].seqNo == (if x.Asks? && x.id == id then 0 else s.held[id].seqNo)
            && (s.held[id].standing != Terminated || (x.Asks? && x.id == id) ==> o.s.held[id].standing != Terminated)
            && ShownOf(o.shown, id) == []
  {
    hide ShownOf;
    var o := Happen(s, x);
    match x
    case Hears(h) => ShownOfOne(o.shown[0], id); assert o.shown == [o.shown[0]];
    case Passes(seconds) =>
      hide LapseIn;
      PassLapses(s.(now := s.now + seconds), s.order);
      NoneShownOf(o.shown, id);
    case Asks(_, _, _) => ShownOfOne(ShowLapsed(id), id);
  }

  lemma WordShown(s: Side, id: string, e: Emission)
    requires id in s.held && To(e, id) && s.held[id].standing != Terminated && s.held[id].seqNo < e.seqNo
    ensures var o := Happen(s, Hears(Word(e)));
            && id in o.s.held && o.s.held[id].seqNo == e.seqNo
            && (o.s.held[id].standing == Terminated <==> e.ended.Some?)
            && |ShownOf(o.shown, id)| == 1 && Shows(ShownOf(o.shown, id)[0], e)
  {
    var o := Happen(s, Hears(Word(e)));
    ShownOfOne(o.shown[0], id);
    assert o.shown == [o.shown[0]];
  }

  lemma AllShownMore(shown: seq<Shown>, ws: seq<Emission>, x: Shown, e: Emission)
    requires AllShown(shown, ws) && e.Notify? && Shows(x, e)
    ensures AllShown(shown + [x], ws + [e])
  {
  }

  /** The last of orderly words, and that none before it is terminal. */
  lemma OrderlyLast(us: seq<Emission>, e: Emission, from: nat)
    requires Orderly(us + [e], from)
    ensures e.Notify? && e.seqNo == from + |us| + 1 && !Terminal(us)
  {
    var ws := us + [e];
    assert ws[|us|] == e;
    if us != [] { assert ws[|us| - 1] == us[|us| - 1]; }
  }

  lemma OrderlyPrefix(us: seq<Emission>, ws: seq<Emission>, from: nat)
    requires Orderly(ws, from) && us <= ws
    ensures Orderly(us, from)
  {
  }

  predicate AsksAgain(xs: seq<Happening>, id: string) {
    exists i :: 0 <= i < |xs| && xs[i].Asks? && xs[i].id == id
  }

  /**
   * Words that follow on from what a subscriber has heard are each shown, in order, whatever else it hears, however
   * time passes and whatever it asks for meanwhile.
   */
  lemma {:induction false} HeededShown(s: Side, id: string, xs: seq<Happening>)
    requires id in s.held && s.held[id].standing != Terminated
    requires Orderly(Heeded(xs, id), s.held[id].seqNo)
    ensures var r, ws := HappenAll(s, xs), Heeded(xs, id);
      && AllShown(ShownOf(r.shown, id), ws)
      && id in r.s.held && r.s.held[id].seqNo <= s.held[id].seqNo + |ws|
      && (!AsksAgain(xs, id) ==> r.s.held[id].seqNo == s.held[id].seqNo + |ws|)
      && (r.s.held[id].standing == Terminated ==> Terminal(ws))
  {
    hide Happen, Orderly, AllShown, Terminal, ShownOf, AsksAgain;
    if xs == [] {
      ShownOfOne(ShowLapsed(id), id);
      NothingShown();
      assert Heeded([], id) == [];
    } else {
      var front, x := xs[..|xs| - 1], xs[|xs| - 1];
      var us, from := Heeded(front, id), s.held[id].seqNo;
      OrderlyPrefix(us, Heeded(xs, id), from);
      HeededShown(s, id, front);
      assert xs == front + [x];
      AsksOn(front, x, id);
      var r, o := HappenAll(s, front), Happen(HappenAll(s, front).s, x);
      ShownOfAppend(r.shown, o.shown, id);
      if x.Hears? && x.h.Word? && To(x.h.e, id) {
        OrderlyLast(us, x.h.e, from);
        WordShown(r.s, id, x.h.e);
        AllShownMore(ShownOf(r.shown, id), us, ShownOf(o.shown, id)[0], x.h.e);
        assert ShownOf(o.shown, id) == [ShownOf(o.shown, id)[0]];
        EndsTerminal(us, x.h.e);
      } else {
        AsideKeeps(r.s, id, x);
        assert us + [] == us && ShownOf(r.shown, id) + [] == ShownOf(r.shown, id);
      }
    }
  }

  lemma AsksOn(front: seq<Happening>, x: Happening, id: string)
    ensures AsksAgain(front + [x], id) <==> AsksAgain(front, id) || (x.Asks? && x.id == id)
  {
    var xs := front + [x];
    assert xs[|front|] == x && forall i :: 0 <= i < |front| ==> xs[i] == front[i];
  }

  lemma NothingShown()
    ensures AllShown([], [])
  {
  }

  lemma EndsTerminal(us: seq<Emission>, e: Emission)
    requires e.Notify?
    ensures Terminal(us + [e]) <==> e.ended.Some?
  {
  }

  /**
   * A subscriber that asked and hears what the authority tells it, as far as that has come and in order, is shown every
   * word and no other of that subscription: nothing is stale, nothing comes after the end. Rejects, the words of other
   * subscriptions, its clock and what it asks for, this again included, come between the words as they like.
   */
  lemma EveryWordShown(a: State, q: Request, evs: seq<Event>, s: Side, xs: seq<Happening>)
    requires (TakesUp(a, q) || q.id !in a.subs) && Legal(Step(a, Subscribe(q)).a, evs, q.id)
    requires var one := Step(a, Subscribe(q)); Heeded(xs, q.id) <= Words(Then(one, Run(one.a, evs)).emit, q.id)
    ensures var r := HappenAll(Ask(s, q.id, q.target, q.expiresIn), xs);
            && AllShown(ShownOf(r.shown, q.id), Heeded(xs, q.id))
            && q.id in r.s.held && (!AsksAgain(xs, q.id) ==> r.s.held[q.id].seqNo == |Heeded(xs, q.id)|)
  {
    hide Step, Run, Words, Orderly, HappenAll, AllShown, AsksAgain, TakesUp;
    var one := Step(a, Subscribe(q));
    ToldInOrder(a, q, evs);
    OrderlyPrefix(Heeded(xs, q.id), Words(Then(one, Run(one.a, evs)).emit, q.id), 0);
    HeededShown(Ask(s, q.id, q.target, q.expiresIn), q.id, xs);
  }
}
