/**
 * The `Authority` object of `broadcast-state.ts`: records, bindings, publications and subscriptions updated in place,
 * loop by loop, each method against the function of `Authorities` that says what it does to the authority as a value.
 */
module AuthorityObject {
  import opened Prelude
  import opened Authorities
  import Orders

  method FirstRecord(s: set<Record>) returns (m: Record)
    requires s != {} && Apart(s)
    ensures m in s && forall x :: x in s && x != m ==> Precedes(m, x)
  {
    m :| m in s;
    var scan := s - {m};
    while scan != {}
      invariant m in s && scan <= s && m !in scan
      invariant forall y :: y in s && y !in scan && y != m ==> Precedes(m, y)
      decreases scan
    {
      var y :| y in scan;
      PrecedesTotal(m, y);
      var later := Precedes(m, y);
      if !later {
        forall z | z in s && z !in scan - {y} && z != y ensures Precedes(y, z) {
          if z != m { PrecedesTransitive(y, m, z); }
        }
        m := y;
      }
      scan := scan - {y};
    }
  }

  /** Sorts records by device, then by audience, one without an audience first. */
  method SortRecords(s: set<Record>) returns (q: seq<Record>)
    requires Apart(s)
    ensures q == InOrder(s)
  {
    hide Precedes, Authorities.InOrder;
    q := [];
    var left := s;
    while left != {}
      invariant left <= s && Orders.Ascending(Precedes, q)
      invariant forall r :: r in s <==> r in left || r in q
      invariant forall r, x :: r in q && x in left ==> Precedes(r, x)
      decreases left
    {
      var m := FirstRecord(left);
      q := q + [m];
      left := left - {m};
    }
    OrderIsUnique(s, q);
  }

  class AuthorityObject {
    const grace: int
    const identities: map<string, string>
    var now: int
    var policy: map<string, Policy>
    var capabilities: map<string, string>
    var pubs: map<string, Publication>
    var streams: seq<string>
    var subs: map<string, Subscription>
    var listed: seq<string>
    var bound: map<string, string>
    var seen: set<string>
    var records: map<string, map<string, Record>>
    var graceUntil: map<string, int>
    var lastAccepted: map<string, int>
    var revoked: map<string, int>
    var emit: seq<Emission>

    /** The authority as a value. */
    ghost function View(): State
      reads this
    {
      State(now, grace, identities, policy, capabilities, pubs, streams, subs, listed, bound, seen, records, graceUntil,
            lastAccepted, revoked)
    }

    /** The authority and what was emitted since, as one result. */
    twostate predicate Became(r: Result)
      reads this
    {
      View() == r.a && emit == old(emit) + r.emit
    }

    constructor (start: int, grace: int, identities: map<string, string>)
      ensures View() == State(start, grace, identities, map[], map[], map[], [], map[], [], map[], {}, map[], map[], map[], map[])
      ensures emit == []
    {
      now, this.grace, this.identities := start, grace, identities;
      policy, capabilities, pubs, streams, subs, listed := map[], map[], map[], [], map[], [];
      bound, seen, records, graceUntil, lastAccepted, revoked := map[], {}, map[], map[], map[], map[];
      emit := [];
    }

    method Say(e: Emission)
      modifies this`emit
      ensures emit == old(emit) + [e]
    {
      emit := emit + [e];
    }

    function Identity(did: string): (r: string)
    {
      if did in identities then identities[did] else did
    }

    // ---- telling subscribers

    method PresenceBodyOf(s: Subscription) returns (body: Body)
      requires KeyedRight(records)
      ensures body == BodyFor(records, bound, s)
    {
      var held := if s.target in records then records[s.target] else map[];
      var visible := set k | k in held && Sees(s, held[k]) :: held[k];
      assert visible == Visible(records, s);
      VisibleApart(records, s);
      var sorted := SortRecords(visible);
      var asserted := exists d :: d in bound && bound[d] == s.target && forall r :: r in visible ==> r.device != d;
      body := PresenceBody(asserted, sorted);
    }

    method Notify(id: string, t: Topic, ended: Option<string>)
      requires id in subs && KeyedRight(records)
      modifies this`subs, this`emit
      ensures Became(Told(old(View()), id, t, ended))
    {
      hide BodyFor, KeyedRight;
      var s := subs[id];
      s := s.(seqNo := s.seqNo + 1);
      var body := PublicationBody("", "", []);
      if t == OnPresence {
        body := PresenceBodyOf(s);
        SameRightBody(records, bound, subs[id], s);
        s := s.(lastBody := Some(body));
      } else if s.target in pubs {
        var p := pubs[s.target];
        body := PublicationBody(p.state, p.id, p.provenance);
      }
      subs := subs[id := s];
      Say(Authorities.Notify(s.device, id, s.seqNo, ended, body));
    }

    ghost function ChangedOne(a: State, id: string): Result {
      if id in a.subs && OnPresence in a.subs[id].events
         && a.subs[id].lastBody != Some(BodyFor(a.records, a.bound, a.subs[id]))
      then Told(a, id, OnPresence, None) else Result(a, [])
    }

    lemma NoneChanged(a: State)
      ensures TellChanged(a, []) == Result(a, [])
    {
    }

    lemma ChangedNext(a: State, ids: seq<string>, i: nat)
      requires i < |ids|
      ensures var r := TellChanged(a, ids[..i]); TellChanged(a, ids[..i + 1]) == Then(r, ChangedOne(r.a, ids[i]))
    {
      hide BodyFor, Told;
      assert ids[..i + 1][..i] == ids[..i];
    }

    method NotifyIfChanged(id: string)
      requires KeyedRight(records)
      modifies this`subs, this`emit
      ensures Became(ChangedOne(old(View()), id))
    {
      hide BodyFor, Told, KeyedRight;
      if id in subs && OnPresence in subs[id].events {
        var body := PresenceBodyOf(subs[id]);
        if subs[id].lastBody != Some(body) { Notify(id, OnPresence, None); }
      }
    }

    method NotifyThese(ids: seq<string>)
      requires KeyedRight(records)
      modifies this`subs, this`emit
      ensures Became(TellChanged(old(View()), ids))
    {
      hide TellChanged, ChangedOne, KeyedRight;
      ghost var a := View();
      ghost var r := Result(a, []);
      NoneChanged(a);
      for i := 0 to |ids|
        invariant KeyedRight(records) && Became(r) && r == TellChanged(a, ids[..i])
      {
        ChangedNext(a, ids, i);
        NotifyIfChanged(ids[i]);
        r := Then(r, ChangedOne(r.a, ids[i]));
      }
      assert ids[..|ids|] == ids;
    }

    /** Presence subscriptions by target, then by id. */
    method TellingIds() returns (ids: seq<string>)
      ensures ids == TellingOrder(subs)
    {
      var targets := SortKeys(set id | id in subs :: subs[id].target);
      ids := [];
      for i := 0 to |targets|
        invariant ids == ByTarget(subs, targets[..i])
      {
        assert targets[..i + 1][..i] == targets[..i];
        var these := SortKeys(IdsFor(subs, targets[i]));
        ids := ids + these;
      }
      assert targets[..|targets|] == targets;
    }

    /** Every presence subscription whose own body changed since its last notify gets one. */
    method NotifyAllChanged()
      requires KeyedRight(records)
      modifies this`subs, this`emit
      ensures Became(NotifyChanged(old(View())))
    {
      hide TellChanged, TellingOrder, KeyedRight;
      var ids := TellingIds();
      NotifyThese(ids);
    }

    ghost function ToldOne(a: State, id: string, target: string, t: Topic): Result {
      if id in a.subs && a.subs[id].target == target && t in a.subs[id].events then Told(a, id, t, None) else Result(a, [])
    }

    lemma ToldNext(a: State, ids: seq<string>, target: string, t: Topic, i: nat)
      requires i < |ids|
      ensures var r := TellAll(a, ids[..i], target, t); TellAll(a, ids[..i + 1], target, t) == Then(r, ToldOne(r.a, ids[i], target, t))
    {
      hide Told;
      assert ids[..i + 1][..i] == ids[..i];
    }

    lemma NoneTold(a: State, target: string, t: Topic)
      ensures TellAll(a, [], target, t) == Result(a, [])
    {
    }

    method NotifyOne(id: string, target: string, t: Topic)
      requires KeyedRight(records)
      modifies this`subs, this`emit
      ensures Became(ToldOne(old(View()), id, target, t))
    {
      hide Told, KeyedRight;
      if id in subs && subs[id].target == target && t in subs[id].events { Notify(id, t, None); }
    }

    method NotifyEvery(target: string, t: Topic)
      requires KeyedRight(records)
      modifies this`subs, this`emit
      ensures Became(TellAll(old(View()), old(listed), target, t))
    {
      hide TellAll, ToldOne, KeyedRight;
      ghost var a := View();
      ghost var r := Result(a, []);
      NoneTold(a, target, t);
      var ids := listed;
      for i := 0 to |ids|
        invariant KeyedRight(records) && Became(r) && r == TellAll(a, ids[..i], target, t)
      {
        ToldNext(a, ids, target, t, i);
        NotifyOne(ids[i], target, t);
        r := Then(r, ToldOne(r.a, ids[i], target, t));
      }
      assert ids[..|ids|] == ids;
    }

    method SetState(stream: string, p: Publication, state: string)
      requires KeyedRight(records)
      modifies this`pubs, this`streams, this`subs, this`emit
      ensures Became(WithState(old(View()), stream, p, state))
    {
      hide TellAll, KeyedRight;
      pubs := pubs[stream := p.(state := state)];
      if stream !in streams { streams := streams + [stream]; }
      Say(PublicationState(stream, state));
      NotifyEvery(stream, OnPublication);
    }

    // ---- ending subscriptions

    method Unlist(id: string)
      modifies this`subs, this`listed
      ensures View() == Removed(old(View()), id)
    {
      var all, kept := listed, [];
      for i := 0 to |all|
        invariant kept == WithoutId(all[..i], id)
      {
        assert all[..i + 1][..i] == all[..i];
        if all[i] != id { kept := kept + [all[i]]; }
      }
      assert all[..|all|] == all;
      listed, subs := kept, subs - {id};
    }

    method End(id: string, reason: string)
      requires id in subs && subs[id].events != [] && KeyedRight(records)
      modifies this`subs, this`listed, this`emit
      ensures Became(Ended(old(View()), id, reason))
    {
      hide Told, Removed, KeyedRight;
      Notify(id, subs[id].events[0], Some(reason));
      Unlist(id);
    }

    ghost function EndedOne(a: State, id: string, reason: Option<string>): Result {
      if reason.Some? && id in a.subs && a.subs[id].events != [] then Ended(a, id, reason.value) else Result(a, [])
    }

    method EndOne(id: string, reason: string)
      requires KeyedRight(records)
      modifies this`subs, this`listed, this`emit
      ensures Became(EndedOne(old(View()), id, Some(reason)))
    {
      hide Ended, KeyedRight;
      if id in subs && subs[id].events != [] { End(id, reason); }
    }

    lemma EndedNext(a: State, ids: seq<string>, reason: string, i: nat)
      requires i < |ids|
      ensures var r := EndEach(a, ids[..i], reason); EndEach(a, ids[..i + 1], reason) == Then(r, EndedOne(r.a, ids[i], Some(reason)))
    {
      hide Ended;
      assert ids[..i + 1][..i] == ids[..i];
    }

    lemma NoneEnded(a: State, reason: string)
      ensures EndEach(a, [], reason) == Result(a, [])
    {
    }

    /** Ends subscriptions with a terminal notify each, in id order. */
    method Terminate(ids: seq<string>, reason: string)
      requires KeyedRight(records)
      modifies this`subs, this`listed, this`emit
      ensures Became(EndEach(old(View()), ids, reason))
    {
      hide EndEach, EndedOne, KeyedRight;
      ghost var a := View();
      ghost var r := Result(a, []);
      NoneEnded(a, reason);
      for i := 0 to |ids|
        invariant KeyedRight(records) && Became(r) && r == EndEach(a, ids[..i], reason)
      {
        EndedNext(a, ids, reason, i);
        EndOne(ids[i], reason);
        r := Then(r, EndedOne(r.a, ids[i], Some(reason)));
      }
      assert ids[..|ids|] == ids;
    }

    // ---- the clock

    ghost function ExpiredOne(a: State, stream: string): Result {
      if stream in a.pubs && a.pubs[stream].state == "live" && a.pubs[stream].expires.Some? && a.pubs[stream].expires.value <= a.now
      then WithState(a, stream, a.pubs[stream], "expired") else Result(a, [])
    }

    method ExpireOne(stream: string)
      requires KeyedRight(records)
      modifies this`pubs, this`streams, this`subs, this`emit
      ensures Became(ExpiredOne(old(View()), stream))
    {
      hide WithState, KeyedRight;
      if stream in pubs && pubs[stream].state == "live" && pubs[stream].expires.Some? && pubs[stream].expires.value <= now {
        SetState(stream, pubs[stream], "expired");
      }
    }

    lemma ExpiredNext(a: State, ids: seq<string>, i: nat)
      requires i < |ids|
      ensures var r := ExpireEach(a, ids[..i]); ExpireEach(a, ids[..i + 1]) == Then(r, ExpiredOne(r.a, ids[i]))
    {
      hide WithState;
      assert ids[..i + 1][..i] == ids[..i];
    }

    lemma NoneExpired(a: State)
      ensures ExpireEach(a, []) == Result(a, [])
    {
    }

    method ExpirePublications()
      requires KeyedRight(records)
      modifies this`pubs, this`streams, this`subs, this`emit
      ensures Became(ExpireEach(old(View()), old(streams)))
    {
      hide ExpireEach, ExpiredOne, KeyedRight;
      ghost var a := View();
      ghost var r := Result(a, []);
      NoneExpired(a);
      var ids := streams;
      for i := 0 to |ids|
        invariant KeyedRight(records) && Became(r) && r == ExpireEach(a, ids[..i])
      {
        ExpiredNext(a, ids, i);
        ExpireOne(ids[i]);
        r := Then(r, ExpiredOne(r.a, ids[i]));
      }
      assert ids[..|ids|] == ids;
    }

    ghost function LapsedOne(a: State, id: string): Result {
      EndedOne(a, id, if id in a.subs then LapseReason(a.subs[id], a.now) else None)
    }

    method LapseOne(id: string)
      requires KeyedRight(records)
      modifies this`subs, this`listed, this`emit
      ensures Became(LapsedOne(old(View()), id))
    {
      hide Ended, KeyedRight;
      if id in subs {
        var reason := LapseReason(subs[id], now);
        if reason.Some? && subs[id].events != [] { End(id, reason.value); }
      }
    }

    lemma LapsedNext(a: State, ids: seq<string>, i: nat)
      requires i < |ids|
      ensures var r := LapseEach(a, ids[..i]); LapseEach(a, ids[..i + 1]) == Then(r, LapsedOne(r.a, ids[i]))
    {
      hide Ended, LapseReason;
      assert ids[..i + 1][..i] == ids[..i];
    }

    lemma NoneLapsed(a: State)
      ensures LapseEach(a, []) == Result(a, [])
    {
    }

    method LapseThese(ids: seq<string>)
      requires KeyedRight(records)
      modifies this`subs, this`listed, this`emit
      ensures Became(LapseEach(old(View()), ids))
    {
      hide LapseEach, LapsedOne, KeyedRight;
      ghost var a := View();
      ghost var r := Result(a, []);
      NoneLapsed(a);
      for i := 0 to |ids|
        invariant KeyedRight(records) && Became(r) && r == LapseEach(a, ids[..i])
      {
        LapsedNext(a, ids, i);
        LapseOne(ids[i]);
        r := Then(r, LapsedOne(r.a, ids[i]));
      }
      assert ids[..|ids|] == ids;
    }

    /** The entries of a table of deadlines that have not come. */
    static method Unexpired(m: map<string, int>, now: int) returns (left: map<string, int>)
      ensures left == Still(m, now)
    {
      left := m;
      var todo := m.Keys;
      while todo != {}
        invariant todo <= left.Keys <= m.Keys
        invariant forall k :: k in left ==> left[k] == m[k]
        invariant forall k :: k in m && k !in todo ==> (k in left <==> now < m[k])
        decreases todo
      {
        var k :| k in todo;
        if m[k] <= now { left := left - {k}; }
        todo := todo - {k};
      }
    }

    static method CleanHeld(held: map<string, Record>, graceUntil: map<string, int>, now: int) returns (left: map<string, Record>)
      ensures left == KeptOf(held, graceUntil, now)
    {
      left := held;
      var todo := held.Keys;
      while todo != {}
        invariant todo <= left.Keys <= held.Keys
        invariant forall k :: k in left ==> left[k] == held[k]
        invariant forall k :: k in held && k !in todo ==> (k in left <==> Kept(held[k], graceUntil, now))
        decreases todo
      {
        var k :| k in todo;
        var r := held[k];
        if r.expiresAt <= now || (r.device in graceUntil && graceUntil[r.device] <= now) { left := left - {k}; }
        todo := todo - {k};
      }
    }

    /** Revocations, records and graces whose time has come are dropped; records are judged by the graces still there. */
    method Clean()
      modifies this`revoked, this`records, this`graceUntil
      ensures View() == Cleaned(old(View()))
    {
      hide KeptOf, Still;
      revoked := Unexpired(revoked, now);
      var before := records;
      var todo := records.Keys;
      while todo != {}
        invariant todo <= records.Keys == before.Keys && graceUntil == old(graceUntil) && revoked == Still(old(revoked), now)
        invariant forall t :: t in todo ==> records[t] == before[t]
        invariant forall t :: t in before && t !in todo ==> records[t] == KeptOf(before[t], graceUntil, now)
        decreases todo
      {
        var t :| t in todo;
        var left := CleanHeld(records[t], graceUntil, now);
        records := records[t := left];
        todo := todo - {t};
      }
      assert records == Cleaned(old(View())).records;
      graceUntil := Unexpired(graceUntil, now);
    }

    method Lapse()
      requires KeyedRight(records)
      modifies this`subs, this`listed, this`emit
      ensures Became(LapseEach(old(View()), Sorted(old(subs).Keys)))
    {
      hide LapseEach, KeyedRight;
      var ids := SortKeys(subs.Keys);
      LapseThese(ids);
    }

    /** Publications past their time expire, then subscriptions lapse or lose the grant they rest on. */
    method EndWhatEnds()
      requires KeyedRight(records)
      modifies this`pubs, this`streams, this`subs, this`listed, this`emit
      ensures var e := ExpireEach(old(View()), old(streams)); Became(Then(e, LapseEach(e.a, Sorted(e.a.subs.Keys))))
    {
      hide ExpireEach, LapseEach, KeyedRight, Sorted;
      ExpirePublications();
      Lapse();
    }

    method Elapse(seconds: nat)
      requires KeyedRight(records)
      modifies this
      ensures Became(OnAdvance(old(View()), seconds))
    {
      hide ExpireEach, LapseEach, Cleaned, NotifyChanged, KeyedRight, Sorted;
      now := now + seconds;
      EndWhatEnds();
      CleanedKeyed(View());
      Clean();
      NotifyAllChanged();
    }

    // ---- bindings and records

    method BindDevice(device: string, identity: string)
      requires KeyedRight(records)
      modifies this
      ensures Became(OnBind(old(View()), device, identity))
    {
      hide NotifyChanged, KeyedRight;
      bound, seen, graceUntil := bound[device := identity], seen + {identity}, graceUntil - {device};
      NotifyAllChanged();
    }

    static method Without(held: map<string, Record>, device: string) returns (left: map<string, Record>)
      ensures left == DropDevice(held, device)
    {
      left := held;
      var todo := held.Keys;
      while todo != {}
        invariant todo <= left.Keys <= held.Keys
        invariant forall k :: k in left ==> left[k] == held[k]
        invariant forall k :: k in held && k !in todo ==> (k in left <==> held[k].device != device)
        decreases todo
      {
        var k :| k in todo;
        if held[k].device == device { left := left - {k}; }
        todo := todo - {k};
      }
    }

    method Leave(device: string, identity: string)
      modifies this`bound, this`records, this`graceUntil
      ensures View() == Unbound(old(View()), device, identity)
    {
      hide DropDevice;
      var held := if identity in records then records[identity] else map[];
      var holds := exists k :: k in held && held[k].device == device;
      bound := bound - {device};
      if holds && device !in graceUntil {
        if grace == 0 {
          var left := Without(held, device);
          records := records[identity := left];
        } else {
          graceUntil := graceUntil[device := now + grace];
        }
      }
    }

    method UnbindDevice(device: string, identity: string)
      requires KeyedRight(records)
      modifies this
      ensures Became(OnUnbind(old(View()), device, identity))
    {
      hide NotifyChanged, Unbound, KeyedRight;
      UnboundKeyed(View(), device, identity);
      Leave(device, identity);
      NotifyAllChanged();
    }

    /** The checks of a published record, first reason first. */
    method Judge(from: string, subject: string, device: Option<string>, issuedAt: int, r: Record)
      returns (refusal: Option<(string, Option<int>)>)
      ensures refusal == RefusalOf(View(), from, subject, device, issuedAt, r)
    {
      if device != Some(from) || subject != Identity(from) { return Some(("presence.signer-mismatch", None)); }
      var lifetime := r.expiresAt - issuedAt;
      if lifetime < LIFETIME_MIN || LIFETIME_MAX < lifetime { return Some(("presence.lifetime", None)); }
      var key := RecordKey(from, r.audience);
      var held := if subject in records then records[subject] else map[];
      if key in held && r.seqNo <= held[key].seqNo { return Some(("presence.stale", None)); }
      if key in lastAccepted && now - lastAccepted[key] < PUBLISH_INTERVAL {
        return Some(("policy.rate-limited", Some(PUBLISH_INTERVAL - (now - lastAccepted[key]))));
      }
      return None;
    }

    method RecvRecord(from: string, subject: string, device: Option<string>, issuedAt: int, r: Record)
      requires KeyedRight(records)
      modifies this
      ensures Became(OnRecord(old(View()), from, subject, device, issuedAt, r))
    {
      hide NotifyChanged, RefusalOf, KeyedRight;
      var refusal := Judge(from, subject, device, issuedAt, r);
      if refusal.Some? {
        Say(Refuse(from, r.id, refusal.value.0, refusal.value.1));
        return;
      }
      AcceptedKeyed(View(), from, subject, r);
      var key := RecordKey(from, r.audience);
      var held := if subject in records then records[subject] else map[];
      records := records[subject := held[key := r.(device := from)]];
      lastAccepted := lastAccepted[key := now];
      NotifyAllChanged();
    }

    method RecvRevocation(from: string, grant: string, validUntil: int)
      requires KeyedRight(records)
      modifies this
      ensures Became(OnRevocation(old(View()), from, grant, validUntil))
    {
      hide EndEach, KeyedRight;
      var identity := Identity(from);
      if now < validUntil { revoked := revoked[RevokeKey(identity, grant) := validUntil]; }
      var ended := set id | id in subs && subs[id].grant.Some? && subs[id].grant.value.id == grant && subs[id].target == identity;
      assert ended == AdmittedBy(View(), identity, grant);
      var ids := SortKeys(ended);
      Terminate(ids, "policy.terminated");
    }

    // ---- publications

    method RecvPublish(from: string, publisher: string, stream: string, id: string, state: string, variants: set<string>,
                       expires: Option<int>)
      requires KeyedRight(records)
      modifies this
      ensures Became(OnPublish(old(View()), from, publisher, stream, id, state, variants, expires))
    {
      hide WithState, KeyedRight;
      var sender := Identity(from);
      if publisher != sender {
        Say(Drop("publisher-mismatch"));
      } else if !StartsWith(stream, sender + ":") {
        Say(Drop("stream-id-namespace"));
      } else if stream in pubs && !Less(pubs[stream].id, id) {
        Say(Drop("stale-publication"));
      } else {
        SetState(stream, Publication(id, sender, "", variants, expires, []), state);
      }
    }

    method RecvUnpublish(from: string, publisher: string, stream: string, publication: string)
      requires KeyedRight(records)
      modifies this
      ensures Became(OnUnpublish(old(View()), from, publisher, stream, publication))
    {
      hide WithState, KeyedRight;
      var sender := Identity(from);
      if publisher != sender || (stream in pubs && pubs[stream].publisher != sender) {
        Say(Drop("publisher-mismatch"));
      } else if stream !in pubs || pubs[stream].id != publication {
        Say(Drop("unknown-publication"));
      } else {
        SetState(stream, pubs[stream], "withdrawn");
      }
    }

    method FindStream(publication: string) returns (found: Option<string>)
      ensures found == StreamOf(View(), streams, publication)
    {
      ghost var a := View();
      assert streams[0..] == streams;
      for i := 0 to |streams|
        invariant StreamOf(a, streams, publication) == StreamOf(a, streams[i..], publication)
      {
        assert streams[i..][1..] == streams[i + 1..];
        if streams[i] in pubs && pubs[streams[i]].id == publication { return Some(streams[i]); }
      }
      return None;
    }

    method RecvProvenance(from: string, processor: string, stream: string, publication: string, variant: Option<string>)
      requires KeyedRight(records)
      modifies this
      ensures Became(OnAttest(old(View()), from, processor, stream, publication, variant))
    {
      hide TellAll, KeyedRight, StreamOf;
      var found := FindStream(publication);
      if found.None? {
        Say(Drop("provenance-unknown-publication"));
      } else if found.value != stream {
        Say(Drop("provenance-stream-mismatch"));
      } else if processor != Identity(from) {
        Say(Drop("provenance-processor-mismatch"));
      } else if stream !in pubs || (variant.Some? && variant.value !in pubs[stream].variants) {
        Say(Drop("provenance-variant-unknown"));
      } else {
        var p := pubs[stream];
        pubs := pubs[stream := p.(provenance := p.provenance + [processor])];
        Say(Provenance(stream, processor));
        NotifyEvery(stream, OnPublication);
      }
    }

    // ---- subscribing

    method FindGrant(claims: seq<Claim>, subscriber: string, target: string) returns (c: Claim)
      ensures c == AdmittingGrant(View(), claims, subscriber, target)
    {
      ghost var a := View();
      assert claims[0..] == claims;
      for i := 0 to |claims|
        invariant AdmittingGrant(a, claims, subscriber, target) == AdmittingGrant(a, claims[i..], subscriber, target)
      {
        assert claims[i..][1..] == claims[i + 1..];
        c := claims[i];
        if c.GrantClaim? && c.verified && c.identity == target && c.grantee == subscriber && "dsip.subscribe" in c.scope
           && c.validUntil.Some? && now < c.validUntil.value && RevokeKey(target, c.id) !in revoked {
          return;
        }
      }
      return OtherClaim;
    }

    /** Own devices, then a presented grant, then a capability, then the policy. */
    method Decide(q: Request) returns (m: Admission)
      ensures m == Admit(View(), q)
    {
      hide AdmittingGrant;
      var subscriber := Identity(q.from);
      var capability := q.capability.Some? && q.capability.value in capabilities && capabilities[q.capability.value] == q.target;
      var named := q.target in policy || q.target in seen || q.target in identities.Values || q.target in capabilities.Values;
      if !named || (OnPublication in q.events && q.target !in pubs) { return Refused; }
      var byPolicy := q.target in policy && (policy[q.target].isPublic || subscriber in policy[q.target].allow);
      if OnPresence !in q.events {
        return if q.target in policy && (byPolicy || capability) then Admitted(false, None, None) else Refused;
      }
      if subscriber == q.target { return Admitted(true, None, None); }
      var g := FindGrant(q.claims, subscriber, q.target);
      if g.GrantClaim? { return Admitted(false, Some(Grant(g.id, Or(g.validUntil, 0))), g.audience); }
      if capability { return Admitted(false, None, None); }
      if byPolicy { return Admitted(false, None, policy[q.target].audience); }
      return Refused;
    }

    method FindPrior(q: Request) returns (p: Option<string>)
      ensures p == PriorOf(View(), listed, q)
    {
      ghost var a := View();
      assert listed[0..] == listed;
      for i := 0 to |listed|
        invariant PriorOf(a, listed, q) == PriorOf(a, listed[i..], q)
      {
        assert listed[i..][1..] == listed[i + 1..];
        if listed[i] in subs && SameAs(subs[listed[i]], q) { return Some(listed[i]); }
      }
      return None;
    }

    lemma TopicsNext(a: State, id: string, topics: seq<Topic>, i: nat)
      requires id in a.subs && i < |topics|
      ensures var r := TellEach(a, id, topics[..i]); TellEach(a, id, topics[..i + 1]) == Then(r, Told(r.a, id, topics[i], None))
    {
      hide Told;
      assert topics[..i + 1][..i] == topics[..i];
    }

    method NotifyTopics(id: string, topics: seq<Topic>)
      requires id in subs && KeyedRight(records)
      modifies this`subs, this`emit
      ensures Became(TellEach(old(View()), id, topics))
    {
      hide Told, TellEach, KeyedRight;
      ghost var a := View();
      ghost var r := Result(a, []);
      NoTopics(a, id);
      for i := 0 to |topics|
        invariant id in subs && KeyedRight(records) && Became(r) && r == TellEach(a, id, topics[..i])
      {
        TopicsNext(a, id, topics, i);
        Notify(id, topics[i], None);
        r := Then(r, Told(r.a, id, topics[i], None));
        ToldStays(r, a, id, topics, i);
      }
      assert topics[..|topics|] == topics;
    }

    lemma NoTopics(a: State, id: string)
      requires id in a.subs
      ensures TellEach(a, id, []) == Result(a, [])
    {
    }

    lemma ToldStays(r: Result, a: State, id: string, topics: seq<Topic>, i: nat)
      requires id in a.subs && i < |topics| && r == TellEach(a, id, topics[..i + 1])
      ensures id in r.a.subs
    {
    }

    /** A renewal replaces the subscription it renews; the first notifies carry current state. */
    method Enlist(prior: Option<string>, q: Request, m: Admission)
      requires KeyedRight(records) && m.Admitted?
      modifies this
      ensures var c := WithSubscription(Authorities.Without(old(View()), prior), q.id, NewSubscription(old(View()), q, m));
        Became(Then(Result(c, if prior.Some? then [SubscriptionEnd(prior.value, true)] else []), TellEach(c, q.id, q.events)))
    {
      hide TellEach, KeyedRight, Removed;
      if prior.Some? {
        Unlist(prior.value);
        Say(SubscriptionEnd(prior.value, true));
      }
      var s := Subscription(q.from, Identity(q.from), q.target, q.events, 0, now + q.expiresIn, m.own, m.grant, m.audience,
                            q.wantsSealed, None);
      subs, listed := subs[q.id := s], listed + [q.id];
      NotifyTopics(q.id, q.events);
    }

    method RecvSubscribe(q: Request)
      requires KeyedRight(records)
      modifies this
      ensures Became(OnSubscribe(old(View()), q))
    {
      hide TellEach, KeyedRight, Removed, Admit, PriorOf, WithSubscription, NewSubscription, Authorities.Without;
      var prior := FindPrior(q);
      if q.expiresIn == 0 {
        if prior.None? {
          Say(Drop("no-matching-subscription"));
        } else {
          Unlist(prior.value);
          Say(SubscriptionEnd(prior.value, false));
        }
        return;
      }
      var m := Decide(q);
      if m.Refused? { Say(Blocked(q.from, q.id)); } else { Enlist(prior, q, m); }
    }

    // ---- runs

    /** One trace event and what it emits. */
    method Step(ev: Event) returns (out: seq<Emission>)
      requires KeyedRight(records)
      modifies this
      ensures Result(View(), out) == Authorities.Step(old(View()), ev)
    {
      hide OnAdvance, OnBind, OnUnbind, OnPublish, OnUnpublish, OnAttest, OnSubscribe, OnRecord, OnRevocation, KeyedRight;
      emit := [];
      match ev {
        case Advance(seconds) => Elapse(seconds);
        case SetPolicy(target, p) => policy := policy[target := p];
        case IssueCapability(token, target) => capabilities := capabilities[token := target];
        case Bind(device, identity) => BindDevice(device, identity);
        case Unbind(device, identity) => UnbindDevice(device, identity);
        case Publish(from, publisher, stream, id, state, variants, expires) =>
          RecvPublish(from, publisher, stream, id, state, variants, expires);
        case Unpublish(from, publisher, stream, publication) => RecvUnpublish(from, publisher, stream, publication);
        case Attest(from, processor, stream, publication, variant) => RecvProvenance(from, processor, stream, publication, variant);
        case Subscribe(q) => RecvSubscribe(q);
        case PutRecord(from, subject, signed, issuedAt, r) => RecvRecord(from, subject, signed, issuedAt, r);
        case RevokeGrant(from, grant, validUntil) => RecvRevocation(from, grant, validUntil);
      }
      out := emit;
    }

    /**
     * After every event of a run, every presence subscription was last told what would be computed for it now, and just
     * those the event concerned were told.
     */
    method Play(evs: seq<Event>) returns (ghost states: seq<State>)
      requires AuthorityOk(View()) && Legal(View(), evs)
      modifies this
      ensures AuthorityOk(View()) && |states| == |evs| + 1 && states[0] == old(View()) && states[|evs|] == View()
      ensures forall i :: 0 <= i < |evs| ==> AuthorityOk(states[i]) && states[i + 1] == Authorities.Step(states[i], evs[i]).a
      ensures forall i :: 0 <= i < |evs| ==> Concerned(states[i], evs[i])
    {
      hide AuthorityOk, Permitted, Authorities.Step, Concerned;
      ghost var a := View();
      states := [a];
      assert evs[0..] == evs;
      for i := 0 to |evs|
        invariant View() == a && AuthorityOk(a) && Legal(a, evs[i..])
        invariant |states| == i + 1 && states[0] == old(View()) && states[i] == a
        invariant forall j :: 0 <= j < i ==> AuthorityOk(states[j]) && states[j + 1] == Authorities.Step(states[j], evs[j]).a
        invariant forall j :: 0 <= j < i ==> Concerned(states[j], evs[j])
      {
        assert evs[i..][0] == evs[i] && evs[i..][1..] == evs[i + 1..];
        OkKeyed(a);
        StepKeeps(a, evs[i]);
        StepConcerns(a, evs[i]);
        var _ := Step(evs[i]);
        a := Authorities.Step(a, evs[i]).a;
        states := states + [a];
      }
    }
  }

  /** An event tells each subscription what it should: all its topics if taken up, else a presence body that changed. */
  ghost predicate Concerned(a: State, ev: Event) {
    var r := Authorities.Step(a, ev);
    forall id :: if ev.Subscribe? then ToldOnSubscribe(a, ev.request, r, id) else ToldExactly(a, r, id)
  }

  lemma StepConcerns(a: State, ev: Event)
    requires AuthorityOk(a) && Permitted(a, ev)
    ensures Concerned(a, ev)
  {
    hide AuthorityOk, Permitted, Authorities.Step, ToldOnSubscribe, ToldExactly;
    StepKeeps(a, ev);
  }

  lemma OkKeyed(a: State)
    requires AuthorityOk(a)
    ensures KeyedRight(a.records)
  {
  }

  /** Each event of a run is one the authority is promised. */
  ghost predicate Legal(a: State, evs: seq<Event>)
    decreases |evs|
  {
    evs == [] || (Permitted(a, evs[0]) && Legal(Authorities.Step(a, evs[0]).a, evs[1..]))
  }
}
