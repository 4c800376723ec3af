/**
 * What every event at the authority of `broadcast-state.ts` does, said of the state before and after: who is admitted and as what,
 * which records are taken and for how long they stay, how a stream changes and by whom, and who hears of it.
 */
module Rulings {
  import opened Prelude
  import opened Authorities
  import opened Audiences
  import Orders

  // ---- hearing

  /** What a subscription hears on a topic: presence as meant for it, or the state of the stream. */
  ghost predicate Says(a: State, s: Subscription, t: Topic, b: Body) {
    match t
    case OnPresence => Shows(a.records, a.bound, s, b)
    case OnPublication =>
      if s.target in a.pubs then b == PublicationBody(a.pubs[s.target].state, a.pubs[s.target].id, a.pubs[s.target].provenance)
      else b == PublicationBody("", "", [])
  }

  /** One subscription hears its next number; a presence body is remembered. */
  ghost predicate Hears(a: State, id: string, t: Topic, ended: Option<string>, r: Result) {
    id in a.subs && exists b: Body ::
      && Says(a, a.subs[id], t, b)
      && r.emit == [Notify(a.subs[id].device, id, a.subs[id].seqNo + 1, ended, b)]
      && r.a == a.(subs := a.subs[id := a.subs[id].(seqNo := a.subs[id].seqNo + 1, lastBody := if t == OnPresence then Some(b) else a.subs[id].lastBody)])
  }

  /** Each of some subscriptions hears, in turn. */
  ghost predicate AllHear(a: State, ids: seq<string>, t: Topic, r: Result)
    decreases |ids|
  {
    if ids == [] then r == Result(a, [])
    else exists one: Result, rest: Result :: Hears(a, ids[0], t, None, one) && AllHear(one.a, ids[1..], t, rest) && r == Result(rest.a, one.emit + rest.emit)
  }

  lemma HearsOne(a: State, id: string, t: Topic, one: Result)
    requires Hears(a, id, t, None, one)
    ensures AllHear(a, [id], t, one)
  {
    hide Hears;
    assert [id][1..] == [] && one.emit + [] == one.emit;
    assert AllHear(one.a, [], t, Result(one.a, []));
    assert one == Result(one.a, one.emit + Result(one.a, []).emit);
  }

  lemma FirstHears(a: State, ids: seq<string>, t: Topic, r: Result) returns (first: Result, rest: Result)
    requires ids != [] && AllHear(a, ids, t, r)
    ensures Hears(a, ids[0], t, None, first) && AllHear(first.a, ids[1..], t, rest) && r == Result(rest.a, first.emit + rest.emit)
  {
    hide Hears;
    first, rest :| Hears(a, ids[0], t, None, first) && AllHear(first.a, ids[1..], t, rest) && r == Result(rest.a, first.emit + rest.emit);
  }

  lemma NoneHear(a: State, t: Topic, r: Result)
    requires AllHear(a, [], t, r)
    ensures r == Result(a, [])
  {
  }

  lemma {:induction false} OneMoreHears(a: State, ids: seq<string>, id: string, t: Topic, r: Result, one: Result)
    requires AllHear(a, ids, t, r) && Hears(r.a, id, t, None, one)
    ensures AllHear(a, ids + [id], t, Result(one.a, r.emit + one.emit))
    decreases |ids|
  {
    hide Hears, AllHear;
    if ids == [] {
      NoneHear(a, t, r);
      assert [] + [id] == [id] && [] + one.emit == one.emit;
      HearsOne(a, id, t, one);
    } else {
      var first, rest := FirstHears(a, ids, t, r);
      OneMoreHears(first.a, ids[1..], id, t, rest, one);
      assert (ids + [id])[1..] == ids[1..] + [id] && (ids + [id])[0] == ids[0];
      Regroup(first.emit, rest.emit, one.emit);
      HearFirst(a, ids + [id], t, first, Result(one.a, rest.emit + one.emit));
    }
  }

  lemma HearFirst(a: State, ids: seq<string>, t: Topic, first: Result, rest: Result)
    requires ids != [] && Hears(a, ids[0], t, None, first) && AllHear(first.a, ids[1..], t, rest)
    ensures AllHear(a, ids, t, Result(rest.a, first.emit + rest.emit))
  {
    hide Hears;
  }

  lemma Regroup(a: seq<Emission>, b: seq<Emission>, c: seq<Emission>)
    ensures (a + b) + c == a + (b + c)
  {
  }

  lemma ToldHears(a: State, id: string, t: Topic, ended: Option<string>)
    requires id in a.subs && KeyedRight(a.records)
    ensures Hears(a, id, t, ended, Told(a, id, t, ended))
  {
    hide Shows, BodyFor;
    BodyShows(a.records, a.bound, a.subs[id]);
    assert Says(a, a.subs[id], t, BodyOn(a, a.subs[id], t));
  }

  /** The subscriptions to a topic of a target, in the order they were made. */
  function Followers(subs: map<string, Subscription>, listed: seq<string>, target: string, t: Topic): seq<string> {
    if listed == [] then []
    else (if listed[0] in subs && subs[listed[0]].target == target && t in subs[listed[0]].events then [listed[0]] else []) + Followers(subs, listed[1..], target, t)
  }

  lemma {:induction false} OneMoreFollower(subs: map<string, Subscription>, listed: seq<string>, id: string, target: string, t: Topic)
    ensures Followers(subs, listed + [id], target, t)
         == Followers(subs, listed, target, t) + if id in subs && subs[id].target == target && t in subs[id].events then [id] else []
  {
    if listed == [] {
      assert [] + [id] == [id] && [id][1..] == [];
    } else {
      OneMoreFollower(subs, listed[1..], id, target, t);
      assert (listed + [id])[1..] == listed[1..] + [id] && (listed + [id])[0] == listed[0];
      var x := if listed[0] in subs && subs[listed[0]].target == target && t in subs[listed[0]].events then [listed[0]] else [];
      var y := if id in subs && subs[id].target == target && t in subs[id].events then [id] else [];
      assert x + (Followers(subs, listed[1..], target, t) + y) == x + Followers(subs, listed[1..], target, t) + y;
    }
  }

  lemma {:induction false} TellAllHear(a: State, ids: seq<string>, target: string, t: Topic)
    requires KeyedRight(a.records)
    ensures AllHear(a, Followers(a.subs, ids, target, t), t, TellAll(a, ids, target, t))
    ensures OnlyTold(a, TellAll(a, ids, target, t).a)
  {
    hide Told, KeyedRight, SameRight;
    if ids == [] {
      SelfTold(a);
    } else {
      var front, id := ids[..|ids| - 1], ids[|ids| - 1];
      assert ids == front + [id];
      TellAllHear(a, front, target, t);
      OneMoreFollower(a.subs, front, id, target, t);
      var r := TellAll(a, front, target, t);
      var who := Followers(a.subs, front, target, t);
      if id in a.subs { SameAsk(a.subs[id], r.a.subs[id]); }
      if id in r.a.subs && r.a.subs[id].target == target && t in r.a.subs[id].events {
        ToldHears(r.a, id, t, None);
        OneMoreHears(a, who, id, t, r, Told(r.a, id, t, None));
        ToldEffect(r.a, id, t, None);
        OnlyToldTrans(a, r.a, Told(r.a, id, t, None).a);
      } else {
        assert who + [] == who;
      }
    }
  }

  lemma SelfTold(a: State)
    ensures OnlyTold(a, a)
  {
  }

  lemma SameAsk(s: Subscription, t: Subscription)
    requires SameRight(s, t)
    ensures t.target == s.target && t.events == s.events && t.device == s.device
  {
  }

  // ---- hearing what changed

  /** A presence subscription not last told what is meant for it now. */
  ghost predicate Changed(a: State, id: string) {
    && id in a.subs && OnPresence in a.subs[id].events
    && !(a.subs[id].lastBody.Some? && Shows(a.records, a.bound, a.subs[id], a.subs[id].lastBody.value))
  }

  /** By target, then by id. */
  ghost predicate ByTargetThenId(subs: map<string, Subscription>, ids: seq<string>) {
    && (forall i :: 0 <= i < |ids| ==> ids[i] in subs)
    && forall i, j :: 0 <= i < j < |ids| ==>
         Less(subs[ids[i]].target, subs[ids[j]].target) || (subs[ids[i]].target == subs[ids[j]].target && Less(ids[i], ids[j]))
  }

  /** Everyone for whom presence changed hears of it, by target and id, and nobody else. */
  ghost predicate ChangesHeard(a: State, r: Result) {
    exists who: seq<string> :: (forall id :: id in who <==> Changed(a, id)) && ByTargetThenId(a.subs, who) && AllHear(a, who, OnPresence, r)
  }

  lemma OneBody(records: Records, bound: map<string, string>, s: Subscription, b: Body)
    requires KeyedRight(records) && Shows(records, bound, s, b)
    ensures b == BodyFor(records, bound, s)
  {
    hide MeantFor, Less, KeyedRight, Visible, InOrder;
    BodyShows(records, bound, s);
    var c, visible := BodyFor(records, bound, s), Visible(records, s);
    VisibleApart(records, s);
    forall r ensures r in visible <==> MeantFor(records, s, r) { VisibleIs(records, s, r); }
    assert Orders.Ascending(Precedes, b.records);
    OrderIsUnique(visible, b.records);
    assert Orders.Ascending(Precedes, c.records);
    OrderIsUnique(visible, c.records);
  }

  lemma ChangedIs(a: State, id: string)
    requires KeyedRight(a.records) && id in a.subs
    ensures Changed(a, id) <==> OnPresence in a.subs[id].events && a.subs[id].lastBody != Some(BodyFor(a.records, a.bound, a.subs[id]))
  {
    hide BodyFor, Shows, KeyedRight;
    BodyShows(a.records, a.bound, a.subs[id]);
    if a.subs[id].lastBody.Some? && Shows(a.records, a.bound, a.subs[id], a.subs[id].lastBody.value) {
      OneBody(a.records, a.bound, a.subs[id], a.subs[id].lastBody.value);
    }
  }

  /** Those of a list for whom it changed. */
  ghost function ChangedIn(a: State, ids: seq<string>): seq<string> {
    if ids == [] then [] else ChangedIn(a, ids[..|ids| - 1]) + if Changed(a, ids[|ids| - 1]) then [ids[|ids| - 1]] else []
  }

  lemma {:induction false} ChangedInOrder(a: State, ids: seq<string>)
    requires ByTargetThenId(a.subs, ids)
    ensures ByTargetThenId(a.subs, ChangedIn(a, ids)) && forall id :: id in ChangedIn(a, ids) <==> id in ids && Changed(a, id)
  {
    hide Changed, Less;
    if ids != [] {
      var front, id := ids[..|ids| - 1], ids[|ids| - 1];
      assert ids == front + [id];
      assert forall i :: 0 <= i < |front| ==> front[i] == ids[i];
      ChangedInOrder(a, front);
      forall x | x in front ensures x in a.subs && (Less(a.subs[x].target, a.subs[id].target) || (a.subs[x].target == a.subs[id].target && Less(x, id))) {
        var i :| 0 <= i < |front| && front[i] == x;
        assert ids[i] == x;
      }
    }
  }

  lemma {:induction false} TellChangedHear(a: State, ids: seq<string>)
    requires KeyedRight(a.records) && NoRepeat(ids)
    ensures AllHear(a, ChangedIn(a, ids), OnPresence, TellChanged(a, ids))
  {
    hide Told, KeyedRight, SameRight, Changed, BodyFor, Current, OnlyTold;
    if ids != [] {
      var front, id := ids[..|ids| - 1], ids[|ids| - 1];
      assert ids == front + [id];
      assert NoRepeat(front) && id !in front by { forall i | 0 <= i < |front| ensures ids[i] == front[i] && front[i] != id { } }
      TellChangedHear(a, front);
      TellChangedEffect(a, front);
      var r, who := TellChanged(a, front), ChangedIn(a, front);
      SameWorld(a, r.a);
      if id in a.subs {
        ChangedIs(a, id);
        assert r.a.subs[id] == a.subs[id];
        if Changed(a, id) {
          ToldHears(r.a, id, OnPresence, None);
          OneMoreHears(a, who, id, OnPresence, r, Told(r.a, id, OnPresence, None));
        } else {
          assert who + [] == who;
        }
      } else {
        NotChanged(a, id);
        assert who + [] == who;
      }
    }
  }

  lemma NotChanged(a: State, id: string)
    requires id !in a.subs
    ensures !Changed(a, id)
  {
  }

  lemma SameWorld(a: State, b: State)
    requires OnlyTold(a, b)
    ensures b == a.(subs := b.subs) && b.subs.Keys == a.subs.Keys
  {
  }

  lemma {:induction false} ByTargetOrdered(subs: map<string, Subscription>, targets: seq<string>)
    requires forall i, j :: 0 <= i < j < |targets| ==> Less(targets[i], targets[j])
    ensures ByTargetThenId(subs, ByTarget(subs, targets))
  {
    hide Less;
    if targets != [] {
      var front, t := targets[..|targets| - 1], targets[|targets| - 1];
      assert targets == front + [t];
      ByTargetOrdered(subs, front);
      var a, b := ByTarget(subs, front), Sorted(IdsFor(subs, t));
      OneTargetOrdered(subs, t);
      hide ByTargetThenId;
      forall x | x in a ensures x in subs && Less(subs[x].target, t) {
        ByTargetHas(subs, front, x);
        var i :| 0 <= i < |front| && front[i] == subs[x].target;
        assert targets[i] == front[i];
      }
      OrderedThen(subs, a, b);
    }
  }

  lemma OneTargetOrdered(subs: map<string, Subscription>, t: string)
    ensures ByTargetThenId(subs, Sorted(IdsFor(subs, t))) && forall x :: x in Sorted(IdsFor(subs, t)) ==> x in subs && subs[x].target == t
  {
    hide Less;
    SortedAscends(IdsFor(subs, t));
    var ids := Sorted(IdsFor(subs, t));
    assert forall i :: 0 <= i < |ids| ==> ids[i] in ids;
  }

  lemma OrderedThen(subs: map<string, Subscription>, a: seq<string>, b: seq<string>)
    requires ByTargetThenId(subs, a) && ByTargetThenId(subs, b)
    requires forall x, y :: x in a && y in b ==> x in subs && y in subs && Less(subs[x].target, subs[y].target)
    ensures ByTargetThenId(subs, a + b)
  {
    hide Less;
    forall i, j | 0 <= i < j < |a + b|
      ensures var x, y := (a + b)[i], (a + b)[j]; Less(subs[x].target, subs[y].target) || (subs[x].target == subs[y].target && Less(x, y))
    {
      if i < |a| && j >= |a| { assert a[i] in a && b[j - |a|] in b; }
    }
  }

  lemma ChangesAreHeard(a: State)
    requires KeyedRight(a.records)
    ensures ChangesHeard(a, NotifyChanged(a))
  {
    hide KeyedRight, Changed, Less, TellChanged, AllHear, ByTarget;
    var order := TellingOrder(a.subs);
    var targets := set id | id in a.subs :: a.subs[id].target;
    SortedAscends(targets);
    ByTargetOrdered(a.subs, Sorted(targets));
    TellingOrderHas(a.subs);
    TellChangedHear(a, order);
    ChangedInOrder(a, order);
    forall id | Changed(a, id) ensures id in order { if id !in a.subs { NotChanged(a, id); } }
  }

  // ---- binding, and records

  function HeldBy(a: State, identity: string): map<string, Record> { if identity in a.records then a.records[identity] else map[] }

  predicate HasRecord(a: State, device: string, identity: string) { exists k :: k in HeldBy(a, identity) && HeldBy(a, identity)[k].device == device }

  /** A device that binds is bound, its identity known, and no grace runs for it. */
  ghost predicate BoundSo(a: State, device: string, identity: string, r: Result) {
    exists b: State ::
      && b == a.(bound := a.bound[device := identity], seen := a.seen + {identity}, graceUntil := b.graceUntil)
      && (forall d :: d in b.graceUntil <==> d in a.graceUntil && d != device) && (forall d :: d in b.graceUntil ==> b.graceUntil[d] == a.graceUntil[d])
      && ChangesHeard(b, r)
  }

  /** A device that unbinds with records keeps them for the grace, counted from its first unbind; with none allowed they go at once. */
  ghost predicate UnboundSo(a: State, device: string, identity: string, r: Result) {
    exists b: State ::
      && b == a.(bound := b.bound, records := b.records, graceUntil := b.graceUntil)
      && (forall d :: d in b.bound <==> d in a.bound && d != device) && (forall d :: d in b.bound ==> b.bound[d] == a.bound[d])
      && (if HasRecord(a, device, identity) && device !in a.graceUntil then
            if a.grace == 0 then b.graceUntil == a.graceUntil && WithoutDevice(a, device, identity, b.records)
            else b.records == a.records && b.graceUntil == a.graceUntil[device := a.now + a.grace]
          else b.records == a.records && b.graceUntil == a.graceUntil)
      && ChangesHeard(b, r)
  }

  ghost predicate WithoutDevice(a: State, device: string, identity: string, records: Records) {
    && records.Keys == a.records.Keys && (forall t :: t in records && t != identity ==> records[t] == a.records[t])
    && identity in records && forall k :: (k in records[identity] <==> k in HeldBy(a, identity) && HeldBy(a, identity)[k].device != device)
                                          && (k in records[identity] ==> records[identity][k] == HeldBy(a, identity)[k])
  }

  /** Why a record is refused: the first of these that applies. */
  function Grounds(a: State, from: string, subject: string, signed: Option<string>, issuedAt: int, r: Record): seq<(bool, string)> {
    var key := if r.audience.None? then from else from + "/" + r.audience.value;
    [(signed.None? || signed.value != from || subject != (if from in a.identities then a.identities[from] else from), "presence.signer-mismatch"),
     (r.expiresAt < issuedAt + 60 || issuedAt + 3600 < r.expiresAt, "presence.lifetime"),
     (key in HeldBy(a, subject) && r.seqNo <= HeldBy(a, subject)[key].seqNo, "presence.stale"),
     (key in a.lastAccepted && a.now < a.lastAccepted[key] + 5, "policy.rate-limited")]
  }

  ghost predicate RefusedFor(grounds: seq<(bool, string)>, why: string) {
    exists i :: 0 <= i < |grounds| && grounds[i] == (true, why) && forall j :: 0 <= j < i ==> !grounds[j].0
  }

  /** A record is refused, saying why and for a rate how many seconds are left, or takes the place of the device's last for that audience. */
  ghost predicate PutSo(a: State, from: string, subject: string, signed: Option<string>, issuedAt: int, r: Record, z: Result) {
    var grounds, key := Grounds(a, from, subject, signed, issuedAt, r), if r.audience.None? then from else from + "/" + r.audience.value;
    if exists why :: RefusedFor(grounds, why) then
      exists why: string, left: Option<int> ::
        && RefusedFor(grounds, why) && z == Result(a, [Refuse(from, r.id, why, left)])
        && (left.Some? <==> why == "policy.rate-limited") && (left.Some? ==> key in a.lastAccepted && left.value + a.now == a.lastAccepted[key] + 5)
    else
      exists b: State ::
        && b == a.(records := b.records, lastAccepted := a.lastAccepted[key := a.now])
        && b.records.Keys == a.records.Keys + {subject} && (forall t :: t in a.records && t != subject ==> b.records[t] == a.records[t])
        && b.records[subject] == HeldBy(a, subject)[key := r.(device := from)]
        && ChangesHeard(b, z)
  }

  lemma BindsSo(a: State, device: string, identity: string)
    requires KeyedRight(a.records)
    ensures BoundSo(a, device, identity, OnBind(a, device, identity))
  {
    hide ChangesHeard, NotifyChanged;
    var b := a.(bound := a.bound[device := identity], seen := a.seen + {identity}, graceUntil := a.graceUntil - {device});
    ChangesAreHeard(b);
  }

  lemma UnbindsSo(a: State, device: string, identity: string)
    requires KeyedRight(a.records)
    ensures UnboundSo(a, device, identity, OnUnbind(a, device, identity))
  {
    UnboundKeyed(a, device, identity);
    hide ChangesHeard, NotifyChanged, KeyedRight;
    var b := Unbound(a, device, identity);
    ChangesAreHeard(b);
    assert HoldsOf(Held(a.records, identity), device) <==> HasRecord(a, device, identity) by { HoldsIs(a, device, identity); }
    assert Leaves(a, device, identity) <==> HasRecord(a, device, identity) && device !in a.graceUntil;
    if Leaves(a, device, identity) && a.grace == 0 { DroppedSo(a, device, identity); }
  }

  lemma HoldsIs(a: State, device: string, identity: string)
    ensures HoldsOf(Held(a.records, identity), device) <==> HasRecord(a, device, identity)
  {
    assert Held(a.records, identity) == HeldBy(a, identity);
    if k :| k in Held(a.records, identity) && Held(a.records, identity)[k].device == device { assert k in HeldBy(a, identity); }
    if k :| k in HeldBy(a, identity) && HeldBy(a, identity)[k].device == device { assert k in Held(a.records, identity); }
  }

  lemma DroppedSo(a: State, device: string, identity: string)
    requires HasRecord(a, device, identity)
    ensures WithoutDevice(a, device, identity, a.records[identity := DropDevice(Held(a.records, identity), device)])
  {
    var records := a.records[identity := DropDevice(Held(a.records, identity), device)];
    assert identity in a.records;
    assert records.Keys == a.records.Keys;
  }

  lemma PutsSo(a: State, from: string, subject: string, signed: Option<string>, issuedAt: int, r: Record)
    requires KeyedRight(a.records)
    ensures PutSo(a, from, subject, signed, issuedAt, r, OnRecord(a, from, subject, signed, issuedAt, r))
  {
    hide ChangesHeard, NotifyChanged;
    var grounds := Grounds(a, from, subject, signed, issuedAt, r);
    var refusal := RefusalOf(a, from, subject, signed, issuedAt, r);
    GroundsAre(a, from, subject, signed, issuedAt, r);
    if refusal.Some? {
      assert RefusedFor(grounds, refusal.value.0);
    } else {
      var b := Accepted(a, from, subject, r);
      AcceptedKeyed(a, from, subject, r);
      ChangesAreHeard(b);
      assert b.records.Keys == a.records.Keys + {subject};
    }
  }

  lemma GroundsAre(a: State, from: string, subject: string, signed: Option<string>, issuedAt: int, r: Record)
    ensures var grounds, refusal := Grounds(a, from, subject, signed, issuedAt, r), RefusalOf(a, from, subject, signed, issuedAt, r);
            && (forall why :: RefusedFor(grounds, why) <==> refusal.Some? && why == refusal.value.0)
            && (refusal.Some? ==> (refusal.value.1.Some? <==> refusal.value.0 == "policy.rate-limited"))
            && (refusal.Some? && refusal.value.1.Some? ==>
                  var key := RecordKey(from, r.audience); key in a.lastAccepted && refusal.value.1.value + a.now == a.lastAccepted[key] + 5)
  {
    var grounds, refusal := Grounds(a, from, subject, signed, issuedAt, r), RefusalOf(a, from, subject, signed, issuedAt, r);
    var i := if refusal.None? then 4 else if refusal.value.0 == "presence.signer-mismatch" then 0 else if refusal.value.0 == "presence.lifetime" then 1
             else if refusal.value.0 == "presence.stale" then 2 else 3;
    assert forall j :: 0 <= j < i ==> !grounds[j].0;
    assert i < 4 ==> grounds[i] == (true, refusal.value.0);
  }

  // ---- subscriptions ending

  function Speaker(a: State, from: string): string { if from in a.identities then a.identities[from] else from }

  function Except(listed: seq<string>, id: string): seq<string> {
    if listed == [] then [] else (if listed[0] == id then [] else [listed[0]]) + Except(listed[1..], id)
  }

  /** A subscription hears the reason it ends, on the first topic it asked for, and is no longer held. */
  ghost predicate EndsSo(a: State, id: string, why: string, r: Result) {
    && id in a.subs && a.subs[id].events != []
    && exists one: Result :: Hears(a, id, a.subs[id].events[0], Some(why), one) && r == Result(one.a.(subs := one.a.subs - {id}, listed := Except(a.listed, id)), one.emit)
  }

  /** Each of some, for its own reason. */
  ghost predicate AllEnd(a: State, ids: seq<string>, why: map<string, string>, r: Result)
    decreases |ids|
  {
    if ids == [] then r == Result(a, [])
    else
      var id := ids[|ids| - 1];
      exists before: Result, one: Result ::
        && AllEnd(a, ids[..|ids| - 1], why, before) && id in why && EndsSo(before.a, id, why[id], one) && r == Result(one.a, before.emit + one.emit)
  }

  lemma {:induction false} ExceptIs(listed: seq<string>, id: string)
    ensures WithoutId(listed, id) == Except(listed, id)
  {
    if listed != [] {
      var front, last := listed[..|listed| - 1], listed[|listed| - 1];
      ExceptIs(front, id);
      ExceptOneMore(front, last, id);
      assert listed == front + [last];
    }
  }

  lemma {:induction false} ExceptOneMore(listed: seq<string>, last: string, id: string)
    ensures Except(listed + [last], id) == Except(listed, id) + if last == id then [] else [last]
  {
    if listed == [] {
      assert [] + [last] == [last] && [last][1..] == [];
    } else {
      ExceptOneMore(listed[1..], last, id);
      assert (listed + [last])[1..] == listed[1..] + [last];
      var x, y := if listed[0] == id then [] else [listed[0]], if last == id then [] else [last];
      assert x + (Except(listed[1..], id) + y) == x + Except(listed[1..], id) + y;
    }
  }

  lemma EndedSo(a: State, id: string, why: string)
    requires id in a.subs && a.subs[id].events != [] && KeyedRight(a.records)
    ensures EndsSo(a, id, why, Ended(a, id, why))
  {
    hide KeyedRight, Hears;
    ToldHears(a, id, a.subs[id].events[0], Some(why));
    ExceptIs(a.listed, id);
  }

  /** What ending some leaves of the others. */
  ghost predicate Beyond(a: State, ids: seq<string>, b: State) {
    && b == a.(subs := b.subs, listed := b.listed)
    && (forall id :: id in b.subs <==> id in a.subs && id !in ids) && forall id :: id in b.subs ==> b.subs[id] == a.subs[id]
  }

  lemma OneMoreBeyond(a: State, ids: seq<string>, id: string, why: string, b: State)
    requires Beyond(a, ids, b) && id in b.subs && b.subs[id].events != []
    ensures Beyond(a, ids + [id], Ended(b, id, why).a)
  {
    hide BodyOn, WithoutId;
  }

  lemma EndOneMore(a: State, front: seq<string>, id: string, why: map<string, string>, b: Result, one: Result)
    requires AllEnd(a, front, why, b) && id in why && EndsSo(b.a, id, why[id], one)
    ensures AllEnd(a, front + [id], why, Result(one.a, b.emit + one.emit))
  {
    hide EndsSo;
    assert (front + [id])[..|front|] == front && (front + [id])[|front|] == id;
  }

  lemma {:induction false} EndEachSo(a: State, ids: seq<string>, why: map<string, string>, reason: string)
    requires KeyedRight(a.records) && NoRepeat(ids) && forall id :: id in ids ==> id in a.subs && a.subs[id].events != []
    requires forall id :: id in ids ==> id in why && why[id] == reason
    ensures AllEnd(a, ids, why, EndEach(a, ids, reason)) && Beyond(a, ids, EndEach(a, ids, reason).a)
  {
    hide KeyedRight, Ended, EndsSo;
    if ids != [] {
      var front, id := ids[..|ids| - 1], ids[|ids| - 1];
      assert ids == front + [id];
      assert NoRepeat(front) && id !in front by { forall i | 0 <= i < |front| ensures ids[i] == front[i] && front[i] != id { } }
      EndEachSo(a, front, why, reason);
      var b := EndEach(a, front, reason);
      assert id in b.a.subs && b.a.subs[id].events != [];
      EndedSo(b.a, id, reason);
      OneMoreBeyond(a, front, id, reason, b.a);
      assert EndEach(a, ids, reason) == Then(b, Ended(b.a, id, reason));
      hide EndEach, AllEnd, Beyond;
      EndOneMore(a, front, id, why, b, Ended(b.a, id, reason));
    }
  }

  predicate Rising(ids: seq<string>) { forall i, j :: 0 <= i < j < |ids| ==> Less(ids[i], ids[j]) }

  /** The subscriptions a grant of its issuer admitted, by their ids. */
  ghost predicate AdmittedList(a: State, issuer: string, grant: string, ids: seq<string>) {
    && (forall id :: id in ids <==> id in a.subs && a.subs[id].target == issuer && a.subs[id].grant.Some? && a.subs[id].grant.value.id == grant)
    && Rising(ids)
  }

  /** A grant withdrawn by its issuer is remembered until it would have ended, and every subscription it admitted ends. */
  ghost predicate RevokedSo(a: State, from: string, grant: string, validUntil: int, r: Result) {
    exists ids: seq<string> ::
      AdmittedList(a, Speaker(a, from), grant, ids) && AllEnd(Withdrawn(a, Speaker(a, from), grant, validUntil), ids, Terminated(ids), r)
  }

  /** The withdrawal is kept if the grant has not ended anyway. */
  function Withdrawn(a: State, issuer: string, grant: string, validUntil: int): State {
    if validUntil <= a.now then a else a.(revoked := a.revoked[issuer + "\n" + grant := validUntil])
  }

  function Terminated(ids: seq<string>): map<string, string> { map id | id in ids :: "policy.terminated" }

  lemma RisingDistinct(ids: seq<string>)
    requires Rising(ids)
    ensures NoRepeat(ids)
  {
    forall i, j | 0 <= i < j < |ids| ensures ids[i] != ids[j] { LessTotal(ids[i], ids[j]); }
  }

  lemma RevokesSo(a: State, from: string, grant: string, validUntil: int)
    requires Wf(a)
    ensures RevokedSo(a, from, grant, validUntil, OnRevocation(a, from, grant, validUntil))
  {
    hide KeyedRight, AllEnd, EndEach, Less;
    var identity := IdentityOf(a, from);
    var b := if a.now < validUntil then a.(revoked := a.revoked[RevokeKey(identity, grant) := validUntil]) else a;
    var ids := Sorted(AdmittedBy(b, identity, grant));
    SortedAscends(AdmittedBy(b, identity, grant));
    RisingDistinct(ids);
    assert AdmittedList(a, identity, grant, ids) && AdmittedList(b, identity, grant, ids);
    hide AdmittedList;
    EndEachSo(b, ids, Terminated(ids), "policy.terminated");
  }

  // ---- streams

  /** A stream takes a state, which is announced and then heard by those who follow it. */
  ghost predicate SetSo(a: State, stream: string, p: Publication, state: string, r: Result) {
    exists b: State, told: Result ::
      && b == a.(pubs := a.pubs[stream := p.(state := state)], streams := if stream in a.streams then a.streams else a.streams + [stream])
      && AllHear(b, Followers(b.subs, b.listed, stream, OnPublication), OnPublication, told)
      && r == Result(told.a, [PublicationState(stream, state)] + told.emit)
  }

  lemma SetsSo(a: State, stream: string, p: Publication, state: string)
    requires KeyedRight(a.records)
    ensures SetSo(a, stream, p, state, WithState(a, stream, p, state))
  {
    hide KeyedRight, AllHear, TellAll, Followers;
    var b := a.(pubs := a.pubs[stream := p.(state := state)], streams := if stream in a.streams then a.streams else a.streams + [stream]);
    TellAllHear(b, b.listed, stream, OnPublication);
  }

  /** Past its time, still live. */
  predicate Overdue(a: State, stream: string) {
    stream in a.pubs && a.pubs[stream].state == "live" && a.pubs[stream].expires.Some? && a.pubs[stream].expires.value <= a.now
  }

  ghost predicate StreamsExpire(a: State, streams: seq<string>, r: Result)
    decreases |streams|
  {
    if streams == [] then r == Result(a, [])
    else
      var stream := streams[|streams| - 1];
      exists before: Result :: StreamsExpire(a, streams[..|streams| - 1], before)
        && if Overdue(before.a, stream) then
             exists one: Result :: SetSo(before.a, stream, before.a.pubs[stream], "expired", one) && r == Result(one.a, before.emit + one.emit)
           else r == before
  }

  lemma {:induction false} ExpiresSo(a: State, streams: seq<string>)
    requires KeyedRight(a.records)
    ensures StreamsExpire(a, streams, ExpireEach(a, streams)) && ExpireEach(a, streams).a.records == a.records
  {
    hide KeyedRight, SetSo, WithState;
    if streams != [] {
      var front, stream := streams[..|streams| - 1], streams[|streams| - 1];
      ExpiresSo(a, front);
      var b := ExpireEach(a, front);
      if Overdue(b.a, stream) {
        SetsSo(b.a, stream, b.a.pubs[stream], "expired");
        SetRecords(b.a, stream, b.a.pubs[stream], "expired");
      }
    }
  }

  lemma SetRecords(a: State, stream: string, p: Publication, state: string)
    requires KeyedRight(a.records)
    ensures WithState(a, stream, p, state).a.records == a.records
  {
    hide KeyedRight, TellAll;
    var b := a.(pubs := a.pubs[stream := p.(state := state)], streams := if stream in a.streams then a.streams else a.streams + [stream]);
    TellAllHear(b, b.listed, stream, OnPublication);
  }

  ghost predicate Drops(a: State, why: string, r: Result) { r == Result(a, [Drop(why)]) }

  /** Whose stream it is: its name begins with theirs and a colon. */
  predicate Under(stream: string, identity: string) { |identity| < |stream| && stream[..|identity|] == identity && stream[|identity|] == ':' }

  /** A newer record by the one it names, of a stream of theirs, is the stream's, whoever published it last. */
  ghost predicate PublishedSo(a: State, from: string, publisher: string, stream: string, id: string, state: string, variants: set<string>, expires: Option<int>, r: Result) {
    if publisher != Speaker(a, from) then Drops(a, "publisher-mismatch", r)
    else if !Under(stream, publisher) then Drops(a, "stream-id-namespace", r)
    else if stream in a.pubs && (id == a.pubs[stream].id || Less(id, a.pubs[stream].id)) then Drops(a, "stale-publication", r)
    else SetSo(a, stream, Publication(id, publisher, "", variants, expires, []), state, r)
  }

  ghost predicate UnpublishedSo(a: State, from: string, publisher: string, stream: string, publication: string, r: Result) {
    if publisher != Speaker(a, from) || (stream in a.pubs && a.pubs[stream].publisher != publisher) then Drops(a, "publisher-mismatch", r)
    else if stream in a.pubs && a.pubs[stream].id == publication then SetSo(a, stream, a.pubs[stream], "withdrawn", r)
    else Drops(a, "unknown-publication", r)
  }

  /** The stream first published of those whose record has the id. */
  ghost predicate FirstWith(a: State, publication: string, stream: string) {
    exists i :: 0 <= i < |a.streams| && a.streams[i] == stream && stream in a.pubs && a.pubs[stream].id == publication
                && forall j :: 0 <= j < i ==> !(a.streams[j] in a.pubs && a.pubs[a.streams[j]].id == publication)
  }

  ghost predicate AttestedSo(a: State, from: string, processor: string, stream: string, publication: string, variant: Option<string>, r: Result) {
    if forall x :: !FirstWith(a, publication, x) then Drops(a, "provenance-unknown-publication", r)
    else if !FirstWith(a, publication, stream) then Drops(a, "provenance-stream-mismatch", r)
    else if processor != Speaker(a, from) then Drops(a, "provenance-processor-mismatch", r)
    else if stream !in a.pubs || (variant.Some? && variant.value !in a.pubs[stream].variants) then Drops(a, "provenance-variant-unknown", r)
    else
      exists b: State, told: Result ::
        && b == a.(pubs := a.pubs[stream := a.pubs[stream].(provenance := a.pubs[stream].provenance + [processor])])
        && AllHear(b, Followers(b.subs, b.listed, stream, OnPublication), OnPublication, told)
        && r == Result(told.a, [Provenance(stream, processor)] + told.emit)
  }

  lemma PublishesSo(a: State, from: string, publisher: string, stream: string, id: string, state: string, variants: set<string>, expires: Option<int>)
    requires KeyedRight(a.records)
    ensures PublishedSo(a, from, publisher, stream, id, state, variants, expires, OnPublish(a, from, publisher, stream, id, state, variants, expires))
  {
    hide KeyedRight, SetSo, WithState;
    var sender := IdentityOf(a, from);
    UnderIs(stream, sender);
    if stream in a.pubs { LessTotal(a.pubs[stream].id, id); }
    hide Less, Under, StartsWith;
    SetsSo(a, stream, Publication(id, sender, "", variants, expires, []), state);
  }

  lemma UnderIs(stream: string, identity: string)
    ensures Under(stream, identity) <==> StartsWith(stream, identity + ":")
  {
    var prefix := identity + ":";
    if StartsWith(stream, prefix) {
      assert stream[..|identity|] == stream[..|prefix|][..|identity|];
      assert stream[|identity|] == stream[..|prefix|][|identity|];
    }
    if Under(stream, identity) { assert stream[..|prefix|] == stream[..|identity|] + [stream[|identity|]]; }
  }

  lemma UnpublishesSo(a: State, from: string, publisher: string, stream: string, publication: string)
    requires KeyedRight(a.records)
    ensures UnpublishedSo(a, from, publisher, stream, publication, OnUnpublish(a, from, publisher, stream, publication))
  {
    hide KeyedRight, SetSo, WithState;
    if stream in a.pubs { SetsSo(a, stream, a.pubs[stream], "withdrawn"); }
  }

  lemma {:induction false} StreamOfIs(a: State, n: nat, publication: string)
    requires n <= |a.streams| && forall j :: 0 <= j < n ==> !(a.streams[j] in a.pubs && a.pubs[a.streams[j]].id == publication)
    ensures var found := StreamOf(a, a.streams[n..], publication);
            forall x :: FirstWith(a, publication, x) <==> found == Some(x)
    decreases |a.streams| - n
  {
    if n < |a.streams| {
      assert a.streams[n..][0] == a.streams[n] && a.streams[n..][1..] == a.streams[n + 1..];
      if a.streams[n] in a.pubs && a.pubs[a.streams[n]].id == publication {
        assert FirstWith(a, publication, a.streams[n]);
      } else {
        StreamOfIs(a, n + 1, publication);
      }
    }
  }

  lemma AttestsSo(a: State, from: string, processor: string, stream: string, publication: string, variant: Option<string>)
    requires KeyedRight(a.records)
    ensures AttestedSo(a, from, processor, stream, publication, variant, OnAttest(a, from, processor, stream, publication, variant))
  {
    hide KeyedRight, AllHear, TellAll, Followers, FirstWith;
    StreamOfIs(a, 0, publication);
    assert a.streams[0..] == a.streams;
    if stream in a.pubs {
      var b := a.(pubs := a.pubs[stream := a.pubs[stream].(provenance := a.pubs[stream].provenance + [processor])]);
      TellAllHear(b, b.listed, stream, OnPublication);
    }
  }

  // ---- time passing

  /** Why a subscription lapses: it was not renewed, or the grant that admitted it has ended. */
  predicate Lapses(a: State, id: string) {
    id in a.subs && (a.subs[id].expiresAt <= a.now || (a.subs[id].grant.Some? && a.subs[id].grant.value.validUntil <= a.now))
  }

  function WhyLapsed(a: State, id: string): string {
    if id in a.subs && a.subs[id].expiresAt <= a.now then "session.expired" else "policy.terminated"
  }

  ghost predicate LapseList(a: State, ids: seq<string>) { (forall id :: id in ids <==> Lapses(a, id)) && Rising(ids) }

  function LapsingIn(a: State, ids: seq<string>): seq<string> {
    if ids == [] then [] else LapsingIn(a, ids[..|ids| - 1]) + if Lapses(a, ids[|ids| - 1]) then [ids[|ids| - 1]] else []
  }

  lemma {:induction false} LapsingRises(a: State, ids: seq<string>)
    requires Rising(ids)
    ensures Rising(LapsingIn(a, ids)) && forall id :: id in LapsingIn(a, ids) <==> id in ids && Lapses(a, id)
  {
    hide Lapses, Less;
    if ids != [] {
      var front, id := ids[..|ids| - 1], ids[|ids| - 1];
      LapsingRises(a, front);
      assert ids == front + [id];
      forall x | x in front ensures Less(x, id) {
        var i :| 0 <= i < |front| && front[i] == x;
        assert ids[i] == x;
      }
    }
  }

  lemma LapseIs(a: State, id: string)
    requires id in a.subs
    ensures Lapses(a, id) <==> LapseReason(a.subs[id], a.now).Some?
    ensures Lapses(a, id) ==> LapseReason(a.subs[id], a.now) == Some(WhyLapsed(a, id))
  {
  }

  lemma {:induction false} LapseEachSo(a: State, ids: seq<string>, why: map<string, string>)
    requires KeyedRight(a.records) && NoRepeat(ids) && forall id :: id in ids ==> id in a.subs && a.subs[id].events != []
    requires forall id :: id in ids && Lapses(a, id) ==> id in why && why[id] == WhyLapsed(a, id)
    ensures AllEnd(a, LapsingIn(a, ids), why, LapseEach(a, ids)) && Beyond(a, LapsingIn(a, ids), LapseEach(a, ids).a)
    ensures forall id :: id in LapsingIn(a, ids) ==> id in ids
  {
    hide KeyedRight, Ended, EndsSo, Lapses, WhyLapsed, LapseReason;
    if ids != [] {
      var front, id := ids[..|ids| - 1], ids[|ids| - 1];
      assert ids == front + [id];
      assert NoRepeat(front) && id !in front by { forall i | 0 <= i < |front| ensures ids[i] == front[i] && front[i] != id { } }
      LapseEachSo(a, front, why);
      var b, who := LapseEach(a, front), LapsingIn(a, front);
      assert id in b.a.subs && b.a.subs[id] == a.subs[id] && b.a.now == a.now;
      LapseIs(a, id);
      if Lapses(a, id) {
        EndedSo(b.a, id, why[id]);
        OneMoreBeyond(a, who, id, why[id], b.a);
        assert LapseEach(a, ids) == Then(b, Ended(b.a, id, why[id]));
        hide LapseEach, AllEnd, Beyond;
        EndOneMore(a, who, id, why, b, Ended(b.a, id, why[id]));
      } else {
        assert who + [] == who;
      }
    }
  }

  /** A record stays until it expires or its device's grace runs out; graces and revocations until they end. */
  ghost predicate CleanedSo(a: State, b: State) {
    && b == a.(revoked := b.revoked, records := b.records, graceUntil := b.graceUntil)
    && (forall x :: x in b.revoked <==> x in a.revoked && a.now < a.revoked[x]) && (forall x :: x in b.revoked ==> b.revoked[x] == a.revoked[x])
    && (forall d :: d in b.graceUntil <==> d in a.graceUntil && a.now < a.graceUntil[d]) && (forall d :: d in b.graceUntil ==> b.graceUntil[d] == a.graceUntil[d])
    && (forall t :: t in b.records <==> t in a.records)
    && forall t :: t in b.records ==> StaysSo(a, t, b.records[t])
  }

  ghost predicate StaysSo(a: State, t: string, held: map<string, Record>)
    requires t in a.records
  {
    && (forall k :: k in held <==> k in a.records[t] && a.now < a.records[t][k].expiresAt
                                   && !(a.records[t][k].device in a.graceUntil && a.graceUntil[a.records[t][k].device] <= a.now))
    && forall k :: k in held ==> held[k] == a.records[t][k]
  }

  /** Streams past their time expire, then subscriptions lapse by their ids, then records go, and last the changes are heard. */
  ghost predicate AdvancedBy(b: State, e: Result, ids: seq<string>, l: Result, c: State, n: Result, r: Result) {
    && StreamsExpire(b, b.streams, e) && LapseList(e.a, ids) && AllEnd(e.a, ids, Reasons(e.a, ids), l)
    && CleanedSo(l.a, c) && ChangesHeard(c, n) && r == Result(n.a, e.emit + l.emit + n.emit)
  }

  function After(a: State, seconds: nat): State { a.(now := a.now + seconds) }

  ghost predicate AdvancedSo(a: State, seconds: nat, r: Result) {
    exists e: Result, ids: seq<string>, l: Result, c: State, n: Result ::
      AdvancedBy(After(a, seconds), e, ids, l, c, n, r)
  }

  function Reasons(a: State, ids: seq<string>): map<string, string> { map id | id in ids :: WhyLapsed(a, id) }

  lemma CleansSo(a: State)
    ensures CleanedSo(a, Cleaned(a))
  {
  }

  lemma ExpireOnlyTells(a: State, streams: seq<string>)
    requires Wf(a)
    ensures Wf(ExpireEach(a, streams).a)
  {
    ExpireEachQuiet(a, streams);
  }

  lemma LapseListed(a: State)
    ensures LapseList(a, LapsingIn(a, Sorted(a.subs.Keys)))
  {
    hide Less, Lapses;
    SortedAscends(a.subs.Keys);
    LapsingRises(a, Sorted(a.subs.Keys));
    forall id | Lapses(a, id) ensures id in Sorted(a.subs.Keys) { LapsingHeld(a, id); }
  }

  lemma LapsesAll(a: State) returns (ids: seq<string>)
    requires Wf(a)
    ensures LapseList(a, ids) && AllEnd(a, ids, Reasons(a, ids), LapseEach(a, Sorted(a.subs.Keys)))
    ensures LapseEach(a, Sorted(a.subs.Keys)).a.records == a.records
  {
    var all := Sorted(a.subs.Keys);
    assert forall id :: id in all ==> id in a.subs && a.subs[id].events != [];
    hide KeyedRight, AllEnd, LapseEach, Less, Lapses, WhyLapsed, LapseList, Wf;
    SortedAscends(a.subs.Keys);
    RisingDistinct(all);
    LapseListed(a);
    ids := LapsingIn(a, all);
    LapsingRises(a, all);
    WfKeyed(a);
    LapseEachSo(a, all, Reasons(a, ids));
  }

  lemma LapsingHeld(a: State, id: string)
    requires Lapses(a, id)
    ensures id in a.subs
  {
  }

  lemma AdvancesSo(a: State, seconds: nat)
    requires Wf(a)
    ensures AdvancedSo(a, seconds, OnAdvance(a, seconds))
  {
    hide AdvancedBy, OnAdvance, ExpireEach, LapseEach, Cleaned, NotifyChanged;
    var b := a.(now := a.now + seconds);
    NowWf(a, b);
    AdvanceIs(a, seconds);
    var ids := AdvancesBy(b);
    assert b == After(a, seconds);
    var e := ExpireEach(b, b.streams);
    var l := LapseEach(e.a, Sorted(e.a.subs.Keys));
    assert AdvancedBy(After(a, seconds), e, ids, l, Cleaned(l.a), NotifyChanged(Cleaned(l.a)), OnAdvance(a, seconds));
  }

  lemma AdvanceIs(a: State, seconds: nat)
    ensures var b := a.(now := a.now + seconds);
            var e := ExpireEach(b, b.streams);
            var l := LapseEach(e.a, Sorted(e.a.subs.Keys));
            var n := NotifyChanged(Cleaned(l.a));
            OnAdvance(a, seconds) == Result(n.a, e.emit + l.emit + n.emit)
  {
    hide ExpireEach, LapseEach, Cleaned, NotifyChanged, Sorted;
    var b := a.(now := a.now + seconds);
    var e := ExpireEach(b, b.streams);
    var l := LapseEach(e.a, Sorted(e.a.subs.Keys));
    var n := NotifyChanged(Cleaned(l.a));
    assert OnAdvance(a, seconds) == Then(Then(e, l), n);
  }

  lemma AdvancesBy(b: State) returns (ids: seq<string>)
    requires Wf(b)
    ensures var e := ExpireEach(b, b.streams);
            var l := LapseEach(e.a, Sorted(e.a.subs.Keys));
            var n := NotifyChanged(Cleaned(l.a));
            AdvancedBy(b, e, ids, l, Cleaned(l.a), n, Result(n.a, e.emit + l.emit + n.emit))
  {
    hide StreamsExpire, LapseList, AllEnd, CleanedSo, ChangesHeard, ExpireEach, LapseEach, Cleaned, NotifyChanged, Reasons, KeyedRight;
    WfKeyed(b);
    ExpiresSo(b, b.streams);
    ExpireOnlyTells(b, b.streams);
    var e := ExpireEach(b, b.streams);
    WfKeyed(e.a);
    hide Wf;
    ids := LapsesAll(e.a);
    var l := LapseEach(e.a, Sorted(e.a.subs.Keys));
    CleansSo(l.a);
    CleanedKeyed(l.a);
    ChangesAreHeard(Cleaned(l.a));
  }

  // ---- subscribing

  /** A target the authority has heard of, and where its publications are asked for, one that has any. */
  ghost predicate Known(a: State, q: Request) {
    && (q.target in a.policy || q.target in a.seen || (exists d :: d in a.identities && a.identities[d] == q.target)
        || exists c :: c in a.capabilities && a.capabilities[c] == q.target)
    && (OnPublication in q.events ==> q.target in a.pubs)
  }

  /** The grant claimed is the target's, to the subscriber, to subscribe, of now, and not withdrawn. */
  predicate Grants(a: State, q: Request, c: Claim) {
    && c.GrantClaim? && c.verified && c.identity == q.target && c.grantee == Speaker(a, q.from) && "dsip.subscribe" in c.scope
    && c.validUntil.Some? && c.validUntil.value > a.now && q.target + "\n" + c.id !in a.revoked
  }

  ghost predicate FirstGrant(a: State, q: Request, c: Claim) {
    exists i :: 0 <= i < |q.claims| && q.claims[i] == c && Grants(a, q, c) && forall j :: 0 <= j < i ==> !Grants(a, q, q.claims[j])
  }

  predicate Capable(a: State, q: Request) { q.capability.Some? && q.capability.value in a.capabilities && a.capabilities[q.capability.value] == q.target }

  predicate ByPolicy(a: State, q: Request) {
    q.target in a.policy && (a.policy[q.target].isPublic || Speaker(a, q.from) in a.policy[q.target].allow)
  }

  /**
   * Who is admitted and as what. To presence: the target's own devices, to everything; the holder of a grant, to its audience; the
   * holder of a capability, to no audience; whom the policy names, to the policy's audience. To publications alone: under a policy,
   * whom it names or the holder of a capability.
   */
  ghost predicate AdmittedAs(a: State, q: Request, m: Admission) {
    if !Known(a, q) then m == Refused
    else if OnPresence !in q.events then
      m == if q.target in a.policy && (ByPolicy(a, q) || Capable(a, q)) then Admitted(false, None, None) else Refused
    else if Speaker(a, q.from) == q.target then m == Admitted(true, None, None)
    else if exists c :: FirstGrant(a, q, c) then
      exists c: Claim :: FirstGrant(a, q, c) && c.GrantClaim? && c.validUntil.Some? && m == Admitted(false, Some(Grant(c.id, c.validUntil.value)), c.audience)
    else if Capable(a, q) then m == Admitted(false, None, None)
    else m == if ByPolicy(a, q) then Admitted(false, None, a.policy[q.target].audience) else Refused
  }

  lemma {:induction false} GrantIs(a: State, q: Request, n: nat)
    requires n <= |q.claims| && forall j :: 0 <= j < n ==> !Grants(a, q, q.claims[j])
    ensures var c := AdmittingGrant(a, q.claims[n..], Speaker(a, q.from), q.target);
            if c.GrantClaim? then FirstGrant(a, q, c) && Grants(a, q, c) else forall j :: 0 <= j < |q.claims| ==> !Grants(a, q, q.claims[j])
    decreases |q.claims| - n
  {
    if n < |q.claims| {
      assert q.claims[n..][0] == q.claims[n] && q.claims[n..][1..] == q.claims[n + 1..];
      assert Admits(a, q.claims[n], Speaker(a, q.from), q.target) <==> Grants(a, q, q.claims[n]);
      if !Grants(a, q, q.claims[n]) { GrantIs(a, q, n + 1); }
    }
  }

  lemma AdmitsAs(a: State, q: Request)
    ensures AdmittedAs(a, q, Admit(a, q))
  {
    hide Grants;
    GrantIs(a, q, 0);
    assert q.claims[0..] == q.claims;
    KnownIs(a, q);
    var c := AdmittingGrant(a, q.claims, Speaker(a, q.from), q.target);
    if c.GrantClaim? { GrantEnds(a, q, c); }
  }

  lemma GrantEnds(a: State, q: Request, c: Claim)
    requires Grants(a, q, c)
    ensures c.GrantClaim? && c.validUntil.Some?
  {
  }

  lemma KnownIs(a: State, q: Request)
    ensures Known(a, q)
       <==> (q.target in a.policy || q.target in a.seen || q.target in a.identities.Values || q.target in a.capabilities.Values)
            && !(OnPublication in q.events && q.target !in a.pubs)
  {
  }

  predicate Renews(a: State, q: Request, id: string) {
    id in a.subs && a.subs[id].device == q.from && a.subs[id].target == q.target && a.subs[id].events == q.events
  }

  /** The first held that the request is about. */
  ghost predicate FirstRenewed(a: State, q: Request, id: string) {
    exists i :: 0 <= i < |a.listed| && a.listed[i] == id && Renews(a, q, id) && forall j :: 0 <= j < i ==> !Renews(a, q, a.listed[j])
  }

  lemma {:induction false} PriorIs(a: State, q: Request, n: nat)
    requires n <= |a.listed| && forall j :: 0 <= j < n ==> !Renews(a, q, a.listed[j])
    ensures forall id :: FirstRenewed(a, q, id) <==> PriorOf(a, a.listed[n..], q) == Some(id)
    decreases |a.listed| - n
  {
    if n < |a.listed| {
      assert a.listed[n..][0] == a.listed[n] && a.listed[n..][1..] == a.listed[n + 1..];
      if Renews(a, q, a.listed[n]) { assert FirstRenewed(a, q, a.listed[n]); } else { PriorIs(a, q, n + 1); }
    }
  }

  /** Each topic asked for is heard, in the order asked. */
  ghost predicate TopicsHeard(a: State, id: string, topics: seq<Topic>, r: Result)
    decreases |topics|
  {
    if topics == [] then r == Result(a, [])
    else exists before: Result, one: Result ::
           TopicsHeard(a, id, topics[..|topics| - 1], before) && Hears(before.a, id, topics[|topics| - 1], None, one) && r == Result(one.a, before.emit + one.emit)
  }

  lemma {:induction false} TopicsAreHeard(a: State, id: string, topics: seq<Topic>)
    requires id in a.subs && KeyedRight(a.records)
    ensures TopicsHeard(a, id, topics, TellEach(a, id, topics)) && TellEach(a, id, topics).a.records == a.records
  {
    hide KeyedRight, Told, Hears;
    if topics != [] {
      var front, t := topics[..|topics| - 1], topics[|topics| - 1];
      TopicsAreHeard(a, id, front);
      var b := TellEach(a, id, front);
      ToldHears(b.a, id, t, None);
      ToldEffect(b.a, id, t, None);
    }
  }

  /** A subscription as it is made: for the device, to what it asked for, as it was admitted, told nothing yet. */
  ghost predicate MadeSo(a: State, q: Request, m: Admission, s: Subscription)
    requires m.Admitted?
  {
    && s.device == q.from && s.subscriber == Speaker(a, q.from) && s.target == q.target && s.events == q.events
    && s.seqNo == 0 && s.lastBody == None && s.expiresAt == a.now + q.expiresIn
    && s.own == m.own && s.grant == m.grant && s.audience == m.audience && s.wantsSealed == q.wantsSealed
  }

  predicate Dropped(a: State, id: Option<string>, b: State) {
    b == if id.None? then a else a.(subs := a.subs - {id.value}, listed := Except(a.listed, id.value))
  }

  ghost predicate PriorSo(a: State, q: Request, prior: Option<string>) { forall id :: FirstRenewed(a, q, id) <==> prior == Some(id) }

  ghost predicate TakenUp(a: State, q: Request, prior: Option<string>, m: Admission, b: State, s: Subscription, told: Result, r: Result) {
    && m.Admitted? && Dropped(a, prior, b) && MadeSo(a, q, m, s)
    && TopicsHeard(b.(subs := b.subs[q.id := s], listed := b.listed + [q.id]), q.id, q.events, told)
    && r == Result(told.a, (if prior.Some? then [SubscriptionEnd(prior.value, true)] else []) + told.emit)
  }

  /** A request ends what it is about, or is refused in one way whatever the reason, or takes its place and hears each topic. */
  ghost predicate SubscribedSo(a: State, q: Request, r: Result) {
    exists prior: Option<string>, m: Admission :: PriorSo(a, q, prior) && AdmittedAs(a, q, m) && SubscribedAs(a, q, prior, m, r)
  }

  ghost predicate SubscribedAs(a: State, q: Request, prior: Option<string>, m: Admission, r: Result) {
    if q.expiresIn == 0 then
      if prior.None? then Drops(a, "no-matching-subscription", r)
      else exists b: State :: Dropped(a, prior, b) && r == Result(b, [SubscriptionEnd(prior.value, false)])
    else if m.Refused? then r == Result(a, [Blocked(q.from, q.id)])
    else exists b: State, s: Subscription, told: Result :: TakenUp(a, q, prior, m, b, s, told, r)
  }

  lemma SubscribesSo(a: State, q: Request)
    requires Wf(a)
    ensures SubscribedSo(a, q, OnSubscribe(a, q))
  {
    WfKeyed(a);
    hide Wf, KeyedRight, AdmittedAs, PriorSo, SubscribedAs, OnSubscribe;
    var prior, m := PriorOf(a, a.listed, q), Admit(a, q);
    PriorFound(a, q);
    AdmitsAs(a, q);
    SubscribesAs(a, q, prior, m);
  }

  lemma SubscribesAs(a: State, q: Request, prior: Option<string>, m: Admission)
    requires KeyedRight(a.records) && prior == PriorOf(a, a.listed, q) && m == Admit(a, q)
    ensures SubscribedAs(a, q, prior, m, OnSubscribe(a, q))
  {
    hide KeyedRight, TakenUp, TellEach, Admit, PriorOf, NewSubscription, Except, WithoutId;
    if prior.Some? { ExceptIs(a.listed, prior.value); }
    var b := Without(a, prior);
    assert Dropped(a, prior, b);
    if q.expiresIn != 0 && m.Admitted? {
      TakesUpSo(a, q, prior, m);
      var s := NewSubscription(a, q, m);
      var told := TellEach(WithSubscription(b, q.id, s), q.id, q.events);
      assert OnSubscribe(a, q) == Result(told.a, (if prior.Some? then [SubscriptionEnd(prior.value, true)] else []) + told.emit);
      hide OnSubscribe, Dropped;
    }
  }

  lemma PriorFound(a: State, q: Request)
    ensures PriorSo(a, q, PriorOf(a, a.listed, q))
  {
    PriorIs(a, q, 0);
    assert a.listed[0..] == a.listed;
  }

  lemma TakesUpSo(a: State, q: Request, prior: Option<string>, m: Admission)
    requires KeyedRight(a.records) && m.Admitted? && Dropped(a, prior, Without(a, prior))
    ensures var b, s := Without(a, prior), NewSubscription(a, q, m);
            var told := TellEach(WithSubscription(b, q.id, s), q.id, q.events);
            TakenUp(a, q, prior, m, b, s, told, Result(told.a, (if prior.Some? then [SubscriptionEnd(prior.value, true)] else []) + told.emit))
  {
    hide KeyedRight, TopicsHeard, TellEach, Except, WithoutId;
    var b, s := Without(a, prior), NewSubscription(a, q, m);
    TopicsAreHeard(WithSubscription(b, q.id, s), q.id, q.events);
  }

  // ---- every event

  ghost predicate StepSo(a: State, ev: Event, r: Result) {
    match ev
    case Advance(seconds) => AdvancedSo(a, seconds, r)
    case SetPolicy(target, policy) => r == Result(a.(policy := a.policy[target := policy]), [])
    case IssueCapability(token, target) => r == Result(a.(capabilities := a.capabilities[token := target]), [])
    case Bind(device, identity) => BoundSo(a, device, identity, r)
    case Unbind(device, identity) => UnboundSo(a, device, identity, r)
    case Publish(from, publisher, stream, id, state, variants, expires) => PublishedSo(a, from, publisher, stream, id, state, variants, expires, r)
    case Unpublish(from, publisher, stream, publication) => UnpublishedSo(a, from, publisher, stream, publication, r)
    case Attest(from, processor, stream, publication, variant) => AttestedSo(a, from, processor, stream, publication, variant, r)
    case Subscribe(q) => SubscribedSo(a, q, r)
    case PutRecord(from, subject, signed, issuedAt, rec) => PutSo(a, from, subject, signed, issuedAt, rec, r)
    case RevokeGrant(from, grant, validUntil) => RevokedSo(a, from, grant, validUntil, r)
  }

  /** What every event does. */
  lemma EveryEventRules(a: State, ev: Event)
    requires Wf(a)
    ensures StepSo(a, ev, Step(a, ev))
  {
    WfKeyed(a);
    hide AdvancedSo, BoundSo, UnboundSo, PublishedSo, UnpublishedSo, AttestedSo, SubscribedSo, PutSo, RevokedSo, OnAdvance, OnBind, OnUnbind, OnPublish,
      OnUnpublish, OnAttest, OnSubscribe, OnRecord, OnRevocation, Wf, KeyedRight;
    match ev
    case Advance(seconds) => AdvancesSo(a, seconds);
    case SetPolicy(_, _) =>
    case IssueCapability(_, _) =>
    case Bind(device, identity) => BindsSo(a, device, identity);
    case Unbind(device, identity) => UnbindsSo(a, device, identity);
    case Publish(from, publisher, stream, id, state, variants, expires) => PublishesSo(a, from, publisher, stream, id, state, variants, expires);
    case Unpublish(from, publisher, stream, publication) => UnpublishesSo(a, from, publisher, stream, publication);
    case Attest(from, processor, stream, publication, variant) => AttestsSo(a, from, processor, stream, publication, variant);
    case Subscribe(q) => SubscribesSo(a, q);
    case PutRecord(from, subject, signed, issuedAt, rec) => PutsSo(a, from, subject, signed, issuedAt, rec);
    case RevokeGrant(from, grant, validUntil) => RevokesSo(a, from, grant, validUntil);
  }
}
