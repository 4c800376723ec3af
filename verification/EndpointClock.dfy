/**
 * The endpoint's clock: at every instant with work the due timers fire, grants reaching their end are ended and
 * due keys rotate; and every run of events, from which what holds of all reachable endpoints follows.
 */
module EndpointClock {
  import opened Prelude
  import opened TimerTable
  import opened Calls
  import opened Endpoints
  import P = PresenceKeys

  /** Everything a reachable endpoint satisfies at any point of a step. */
  ghost predicate EndpointOk(e: Endpoint) {
    CallsOk(e) && P.KeysOk(e.keys, e.timers.now)
  }

  function At(e: Endpoint, now: int): Endpoint {
    e.(timers := e.timers.(now := now))
  }

  // ---- one instant

  function FireOne(e: Endpoint, k: Key): Result {
    var stopped := e.(timers := Stopped(e.timers, k.name, k.session));
    if k.session !in e.sessions then Result(stopped, [])
    else
      var o := Fired(k.name, k.session, e.sessions[k.session]);
      Result(Take(stopped, k.session, o), CallEmits(o.ops))
  }

  lemma FireOneKeeps(e: Endpoint, k: Key)
    requires CallsOk(e) && k in e.timers.running
    ensures var f := FireOne(e, k).e;
            && CallsOk(f) && AllForward(e, f) && f.cx == e.cx && f.keys == e.keys
            && f.timers == Stopped(e.timers, k.name, k.session)
  {
    var id := k.session;
    assert SessionFits(e, id);
    assert k == Key(k.name, id);
    AnyName(k.name);
    var run := RunningOf(e.timers, id);
    FiredKeeps(k.name, id, e.sessions[id], run);
    var o := Fired(k.name, id, e.sessions[id]);
    var stopped := e.(timers := Stopped(e.timers, k.name, id));
    StoppedRunning(e.timers, k.name, id);
    FiredQuiet(stopped.timers, k.name, id, e.sessions[id]);
    var f := FireOne(e, k).e;
    forall x | x in f.sessions ensures SessionFits(f, x) {
      if x != id {
        OtherRuns(e.timers, f.timers, id, x);
        assert SessionFits(e, x);
      }
    }
  }

  lemma FiredQuiet(t: Table, name: Name, id: string, s: Session)
    ensures var o := Fired(name, id, s); ApplyOps(t, id, o.ops) == t && RunAfter(RunningOf(t, id), o.ops) == RunningOf(t, id)
  {
    var o := Fired(name, id, s);
    assert Quiet(o.ops);
    QuietApply(t, id, o.ops);
    assert [] + o.ops == o.ops;
    QuietRuns(RunningOf(t, id), [], o.ops);
  }

  lemma {:induction false} QuietApply(t: Table, id: string, ops: seq<Op>)
    requires Quiet(ops)
    ensures ApplyOps(t, id, ops) == t
  {
    if ops != [] {
      QuietApply(t, id, ops[..|ops| - 1]);
    }
  }

  /** Exactly the timers due by now are gone, and every session went forward. */
  ghost predicate AllFired(e: Endpoint, f: Endpoint) {
    && CallsOk(f) && AllForward(e, f) && f.cx == e.cx && f.keys == e.keys
    && f.timers.now == e.timers.now && !AnyDue(f.timers)
    && (forall k :: k in f.timers.running <==> k in e.timers.running && e.timers.now < e.timers.running[k].deadline)
    && (forall k :: k in f.timers.running ==> f.timers.running[k] == e.timers.running[k])
  }

  lemma AllFiredOn(e: Endpoint, k: Key, g: Endpoint)
    requires CallsOk(e) && k in e.timers.running && e.timers.running[k].deadline <= e.timers.now && AllFired(FireOne(e, k).e, g)
    ensures AllFired(e, g)
  {
    hide CallsOk, AllForward, FireOne, AnyDue;
    var f := FireOne(e, k).e;
    FireOneKeeps(e, k);
    OneLess(e.timers, k, f.timers);
    ForwardTransitive(e, f, g);
  }

  lemma NoneFired(e: Endpoint)
    requires CallsOk(e) && !AnyDue(e.timers)
    ensures AllFired(e, e)
  {
    ForwardReflexive(e);
  }

  /** Fire every timer due by now, first to fire first. */
  ghost function FireAll(e: Endpoint): (r: Result)
    requires CallsOk(e)
    ensures AllFired(e, r.e)
    decreases |e.timers.running|
  {
    hide AllFired, AllForward, FireOne, SessionFits;
    if AnyDue(e.timers) then
      var k := FirstDue(e.timers);
      FireOneKeeps(e, k);
      OneLess(e.timers, k, FireOne(e, k).e.timers);
      var one := FireOne(e, k);
      var rest := FireAll(one.e);
      AllFiredOn(e, k, rest.e);
      Result(rest.e, one.emit + rest.emit)
    else NoneFired(e); Result(e, [])
  }

  lemma OneLess(t: Table, k: Key, u: Table)
    requires k in t.running && u == Stopped(t, k.name, k.session)
    ensures u.now == t.now && |u.running| < |t.running|
    ensures forall x :: x in u.running <==> x in t.running && x != k
    ensures forall x :: x in u.running ==> u.running[x] == t.running[x]
  {
    assert k == Key(k.name, k.session);
    assert u.running.Keys == t.running.Keys - {k};
    assert |u.running.Keys| < |t.running.Keys|;
  }

  lemma ForwardTransitive(e: Endpoint, f: Endpoint, g: Endpoint)
    requires AllForward(e, f) && AllForward(f, g)
    ensures AllForward(e, g)
  {
    forall id | id in e.sessions ensures id in g.sessions && Forward(e.sessions[id], g.sessions[id]) {
      assert Forward(e.sessions[id], f.sessions[id]);
    }
  }

  /** The work of instant `i`: the clock reaches it, timers fire, then grants end and keys rotate. */
  ghost function Instant(e: Endpoint, i: int): Result
    requires CallsOk(e)
  {
    hide CallsOk;
    var now := if e.timers.now <= i then i else e.timers.now;
    AtKeeps(e, now);
    var fired := FireAll(At(e, now));
    var keys := P.AtInstant(fired.e.keys, now);
    Result(fired.e.(keys := keys.k), fired.emit + KeyEmits(keys.ops))
  }

  lemma InstantKeeps(e: Endpoint, i: int)
    requires EndpointOk(e)
    ensures EndpointOk(Instant(e, i).e) && AllForward(e, Instant(e, i).e)
    ensures P.NothingDue(Instant(e, i).e.keys, Instant(e, i).e.timers.now)
    ensures Instant(e, i).e.timers.now == if e.timers.now <= i then i else e.timers.now
  {
    var now := if e.timers.now <= i then i else e.timers.now;
    AtKeeps(e, now);
    P.LaterKeeps(e.keys, e.timers.now, now);
    var fired := FireAll(At(e, now));
    P.AtInstantKeeps(fired.e.keys, now);
    SameCalls(fired.e, P.AtInstant(fired.e.keys, now).k);
  }

  lemma AtKeeps(e: Endpoint, now: int)
    requires CallsOk(e)
    ensures CallsOk(At(e, now)) && AllForward(e, At(e, now))
  {
    forall id | id in e.sessions ensures SessionFits(At(e, now), id) {
      assert SessionFits(e, id);
      assert RunningOf(At(e, now).timers, id) == RunningOf(e.timers, id);
    }
  }

  lemma SameCalls(e: Endpoint, keys: P.Keys)
    requires CallsOk(e)
    ensures CallsOk(e.(keys := keys)) && AllForward(e, e.(keys := keys))
  {
    forall id | id in e.sessions ensures SessionFits(e.(keys := keys), id) {
      assert SessionFits(e, id);
    }
  }

  // ---- the instants with work

  function Deadlines(e: Endpoint): set<int> {
    set k | k in e.timers.running :: e.timers.running[k].deadline
  }

  predicate Ending(g: P.Grant) {
    g.keyScopes != [] && !g.ended
  }

  function GrantEnds(k: P.Keys): set<int> {
    set id | id in k.grants && Ending(k.grants[id]) :: k.grants[id].validUntil
  }

  function Dues(k: P.Keys): set<int> {
    set sc | sc in k.due :: k.due[sc]
  }

  function Instants(e: Endpoint): set<int> {
    Deadlines(e) + GrantEnds(e.keys) + Dues(e.keys)
  }

  ghost predicate HasWork(e: Endpoint, until: int) {
    exists i :: i in Instants(e) && i <= until
  }

  lemma Member<T>(s: set<T>) returns (x: T)
    requires s != {}
    ensures x in s
  {
    x :| x in s;
  }

  lemma {:induction false} LeastIntExists(s: set<int>)
    requires s != {}
    ensures exists m :: m in s && forall x :: x in s ==> m <= x
    decreases |s|
  {
    var x := Member(s);
    if s - {x} == {} {
      assert s == {x};
    } else {
      LeastIntExists(s - {x});
      var m :| m in s - {x} && forall y :: y in s - {x} ==> m <= y;
      var least := if m <= x then m else x;
      forall y | y in s ensures least <= y {
        if y != x { assert y in s - {x}; }
      }
    }
  }

  ghost function LeastInt(s: set<int>): (m: int)
    requires s != {}
    ensures m in s && forall x :: x in s ==> m <= x
  {
    LeastIntExists(s);
    var m :| m in s && forall x :: x in s ==> m <= x; m
  }

  // ---- the clock terminates

  ghost function GrantsLeft(k: P.Keys, until: int): set<string> {
    set id | id in k.grants && Ending(k.grants[id]) && k.grants[id].validUntil <= until
  }

  ghost function DuesLeft(k: P.Keys, until: int): set<string> {
    set sc | sc in k.due && k.due[sc] <= until
  }

  ghost function TimersLeft(t: Table, until: int): set<Key> {
    set k | k in t.running && t.running[k].deadline <= until
  }

  lemma SmallerSet<T>(a: set<T>, b: set<T>)
    requires a <= b
    ensures |a| <= |b|
    ensures a != b ==> |a| < |b|
  {
    assert a + (b - a) == b;
    if a != b { assert b - a != {}; }
  }

  lemma RegrantOneShape(k: P.Keys, now: int, scopes: set<string>, id: string)
    requires P.GrantsOk(k, now)
    requires P.RegrantOne(k, now, scopes, id).k.grants != k.grants
    ensures id in k.grants && now < k.grants[id].validUntil && !k.grants[id].ended && k.supply != []
    ensures exists g: P.Grant :: P.RegrantOne(k, now, scopes, id).k.grants == (k.grants - {id})[k.supply[0] := g]
                        && !g.ended && g.keyScopes == k.grants[id].keyScopes && g.validUntil == k.grants[id].validUntil
  {
    hide P.KeyScopes, P.WithEpochs, P.Carried, P.KeyList;
    assert P.GrantOk(k, now, id, k.grants[id]);
    var k' := P.RegrantOne(k, now, scopes, id).k;
    var g := k'.grants[k.supply[0]];
    assert k'.grants == (k.grants - {id})[k.supply[0] := g];
  }

  /** Following a live grant by another leaves as many keyed grants to end. */
  lemma RegrantOneLeft(k: P.Keys, now: int, scopes: set<string>, id: string, until: int)
    requires P.KeysOk(k, now)
    ensures |GrantsLeft(P.RegrantOne(k, now, scopes, id).k, until)| <= |GrantsLeft(k, until)|
  {
    hide P.KeyScopes, P.EpochsCover, P.GrantsOk, P.DueOk, P.TurnsOk, P.SupplyOk, P.EndsOk, P.Settled, P.RegrantOne;
    var k' := P.RegrantOne(k, now, scopes, id).k;
    var left := GrantsLeft(k, until);
    if k'.grants == k.grants {
      assert GrantsLeft(k', until) == left;
    } else {
      RegrantOneShape(k, now, scopes, id);
      var next := k.supply[0];
      var g: P.Grant :| k'.grants == (k.grants - {id})[next := g]
                        && !g.ended && g.keyScopes == k.grants[id].keyScopes && g.validUntil == k.grants[id].validUntil;
      if id in left {
        SmallerSet(GrantsLeft(k', until), (left - {id}) + {next});
        assert |left - {id}| == |left| - 1;
      } else {
        SmallerSet(GrantsLeft(k', until), left);
      }
    }
  }

  lemma {:induction false} RegrantEachLeft(k: P.Keys, now: int, scopes: set<string>, ids: seq<string>, until: int)
    requires P.KeysOk(k, now)
    ensures |GrantsLeft(P.RegrantEach(k, now, scopes, ids).k, until)| <= |GrantsLeft(k, until)|
  {
    if ids != [] {
      var front := ids[..|ids| - 1];
      RegrantEachLeft(k, now, scopes, front, until);
      P.RegrantEachKeeps(k, now, scopes, front);
      RegrantOneLeft(P.RegrantEach(k, now, scopes, front).k, now, scopes, ids[|ids| - 1], until);
    }
  }

  lemma {:induction false} RotateEachGrants(k: P.Keys, now: int, scopes: seq<string>)
    ensures P.RotateEach(k, now, scopes).k.grants == k.grants
    ensures forall sc :: sc in P.RotateEach(k, now, scopes).k.due <==> sc in k.due && sc !in scopes
    ensures forall sc :: sc in P.RotateEach(k, now, scopes).k.due ==> P.RotateEach(k, now, scopes).k.due[sc] == k.due[sc]
  {
    if scopes != [] {
      RotateEachGrants(k, now, scopes[..|scopes| - 1]);
      assert scopes == scopes[..|scopes| - 1] + [scopes[|scopes| - 1]];
    }
  }

  lemma SameDues(k: P.Keys, k': P.Keys, until: int)
    requires k'.due == k.due
    ensures DuesLeft(k', until) == DuesLeft(k, until)
  {
  }

  /** Rotating the scopes due takes just their dues away. */
  lemma TurnedLeft(k: P.Keys, now: int, order: seq<string>, until: int)
    requires now <= until && forall sc :: sc in order <==> sc in P.DueNow(k, now)
    ensures var r := P.RotateEach(k, now, order).k;
            GrantsLeft(r, until) == GrantsLeft(k, until) && DuesLeft(r, until) == DuesLeft(k, until) - DuesLeft(k, now)
  {
    hide P.RotateEach;
    RotateEachGrants(k, now, order);
  }

  lemma RotateDueLeft(k: P.Keys, now: int, until: int)
    requires P.KeysOk(k, now) && now <= until
    ensures |GrantsLeft(P.RotateDue(k, now).k, until)| <= |GrantsLeft(k, until)|
    ensures DuesLeft(P.RotateDue(k, now).k, until) == DuesLeft(k, until) - DuesLeft(k, now)
  {
    hide P.KeyScopes, P.KeysOk, P.RotateEach, P.RegrantEach, P.MainFirst, GrantsLeft, DuesLeft, Sorted;
    var due := P.DueNow(k, now);
    var order := P.MainFirst(due);
    assert forall sc :: sc in order <==> sc in due;
    P.MainFirstDistinct(due);
    P.RotateEachKeeps(k, now, order);
    var r := P.RotateEach(k, now, order).k;
    TurnedLeft(k, now, order, until);
    SameDues(r, P.RotateDue(k, now).k, until) by { P.RegrantEachKeeps(r, now, due, Sorted(r.grants.Keys)); }
    RegrantEachLeft(r, now, due, Sorted(r.grants.Keys), until);
    P.RegrantEachKeeps(r, now, due, Sorted(r.grants.Keys));
  }

  /** After the ids of `ids` have been looked at, none of them is left to end now. */
  lemma {:induction false} ExpireEachLeft(k: P.Keys, now: int, ids: seq<string>, until: int)
    requires now <= until
    ensures var k' := P.ExpireEach(k, now, ids);
            && GrantsLeft(k', until) <= GrantsLeft(k, until)
            && (forall id :: id in ids ==> id !in GrantsLeft(k', now))
            && (GrantsLeft(k, now) == {} ==> k' == k)
            && k'.grants.Keys == k.grants.Keys
            && (forall id :: id in k.grants ==> k'.grants[id].validUntil == k.grants[id].validUntil)
  {
    if ids != [] {
      var front, id := ids[..|ids| - 1], ids[|ids| - 1];
      assert ids == front + [id];
      ExpireEachLeft(k, now, front, until);
      var r := P.ExpireEach(k, now, front);
      if id in r.grants && P.Expiring(r.grants[id], now) {
        assert id in GrantsLeft(r, now);
      }
    }
  }

  /** Ending and rotating at `now` shrinks what the keys have left, if they had anything left by now. */
  lemma KeysShrink(k: P.Keys, now: int, until: int)
    requires P.KeysOk(k, now) && now <= until
    ensures var k' := P.AtInstant(k, now).k;
            && |GrantsLeft(k', until)| <= |GrantsLeft(k, until)|
            && (GrantsLeft(k, now) != {} ==> |GrantsLeft(k', until)| < |GrantsLeft(k, until)|)
            && (GrantsLeft(k, now) == {} ==> DuesLeft(k', until) == DuesLeft(k, until) - DuesLeft(k, now))
  {
    hide P.KeyScopes, P.KeysOk, P.RotateDue, P.ExpireEach;
    var ids := Sorted(k.grants.Keys);
    var x := P.ExpireEach(k, now, ids);
    P.ExpireEachKeeps(k, now, ids);
    ExpireEachLeft(k, now, ids, until);
    RotateDueLeft(x, now, until);
    SmallerSet(GrantsLeft(x, until), GrantsLeft(k, until));
    if GrantsLeft(k, now) != {} {
      var id :| id in GrantsLeft(k, now);
      assert id in ids;
      assert id in GrantsLeft(k, until) && id !in GrantsLeft(x, now);
      assert id !in GrantsLeft(x, until);
    }
  }

  /** One instant's work strictly shrinks what is left by any later time. */
  lemma InstantShrinks(e: Endpoint, i: int, until: int)
    requires EndpointOk(e) && i in Instants(e) && i <= until && e.timers.now <= until
    ensures var f := Instant(e, i).e;
            var g, g' := |GrantsLeft(e.keys, until)|, |GrantsLeft(f.keys, until)|;
            g' < g || (g' == g && |DuesLeft(f.keys, until)| + |TimersLeft(f.timers, until)|
                               < |DuesLeft(e.keys, until)| + |TimersLeft(e.timers, until)|)
  {
    hide P.KeysOk, P.AtInstant;
    var now := if e.timers.now <= i then i else e.timers.now;
    AtKeeps(e, now);
    P.LaterKeeps(e.keys, e.timers.now, now);
    var k := e.keys;
    KeysShrink(k, now, until);
    var f := Instant(e, i).e;
    TimersShrink(e, i, until);
    if GrantsLeft(k, now) == {} {
      SmallerSet(DuesLeft(f.keys, until), DuesLeft(k, until));
      SmallerSet(TimersLeft(f.timers, until), TimersLeft(e.timers, until));
      if i in Deadlines(e) {
        var t :| t in e.timers.running && e.timers.running[t].deadline == i;
        assert t in TimersLeft(e.timers, now) && t in TimersLeft(e.timers, until);
      } else if i in Dues(k) {
        var sc :| sc in k.due && k.due[sc] == i;
        assert sc in DuesLeft(k, now) && sc in DuesLeft(k, until);
      } else {
        var id :| id in k.grants && Ending(k.grants[id]) && k.grants[id].validUntil == i;
        assert id in GrantsLeft(k, now);
      }
    }
  }

  lemma TimersShrink(e: Endpoint, i: int, until: int)
    requires CallsOk(e) && i <= until && e.timers.now <= until
    ensures var now := if e.timers.now <= i then i else e.timers.now;
            TimersLeft(Instant(e, i).e.timers, until) == TimersLeft(e.timers, until) - TimersLeft(e.timers, now)
  {
    hide P.AtInstant;
    var now := if e.timers.now <= i then i else e.timers.now;
    AtKeeps(e, now);
    var fired := FireAll(At(e, now));
  }

  lemma NoneDueBy(e: Endpoint, target: int)
    requires !HasWork(e, target)
    ensures P.NothingDue(e.keys, target) && !HasWork(At(e, target), target)
  {
    assert Instants(At(e, target)) == Instants(e);
    forall sc | sc in e.keys.due ensures target < e.keys.due[sc] {
      assert e.keys.due[sc] in Dues(e.keys);
    }
  }

  /** `advance`: instant after instant until none is left by `target`; then the clock is there. */
  ghost function RunTo(e: Endpoint, target: int): (r: Result)
    requires EndpointOk(e) && e.timers.now <= target
    ensures EndpointOk(r.e) && AllForward(e, r.e) && r.e.timers.now <= target
    ensures P.NothingDue(e.keys, e.timers.now) ==> P.NothingDue(r.e.keys, r.e.timers.now)
    ensures !r.e.keys.exhausted ==> r.e.timers.now == target && !HasWork(r.e, target)
    decreases |GrantsLeft(e.keys, target)|, |DuesLeft(e.keys, target)| + |TimersLeft(e.timers, target)|
  {
    if e.keys.exhausted then Result(e, [])
    else if HasWork(e, target) then
      assert Instants(e) != {};
      var i := LeastInt(Instants(e));
      InstantKeeps(e, i);
      InstantShrinks(e, i, target);
      var one := Instant(e, i);
      var rest := RunTo(one.e, target);
      ForwardTransitive(e, one.e, rest.e);
      Result(rest.e, one.emit + rest.emit)
    else
      AtKeeps(e, target);
      P.LaterKeeps(e.keys, e.timers.now, target);
      NoneDueBy(e, target);
      Result(At(e, target), [])
  }

  lemma SplitIdle(e: Endpoint, mid: int, target: int)
    requires EndpointOk(e) && e.timers.now <= mid <= target && !e.keys.exhausted && !HasWork(e, mid)
    ensures EndpointOk(At(e, mid)) && RunTo(e, mid) == Result(At(e, mid), [])
    ensures RunTo(e, target) == RunTo(At(e, mid), target)
  {
    hide CallsOk, P.KeysOk, Instant;
    AtKeeps(e, mid);
    P.LaterKeeps(e.keys, e.timers.now, mid);
    var f := At(e, mid);
    assert Instants(f) == Instants(e);
    assert HasWork(f, target) == HasWork(e, target);
    if HasWork(e, target) {
      var i := LeastInt(Instants(e));
      assert mid < i;
      SameInstant(e, mid, i);
    } else {
      assert At(f, target) == At(e, target);
    }
  }

  lemma SameInstant(e: Endpoint, mid: int, i: int)
    requires CallsOk(e) && CallsOk(At(e, mid)) && e.timers.now <= mid < i
    ensures Instant(At(e, mid), i) == Instant(e, i)
  {
    AtKeeps(e, i);
    assert At(At(e, mid), i) == At(e, i);
  }

  /** Advancing in two legs is advancing once: same emissions, same endpoint. */
  lemma {:induction false} RunToSplit(e: Endpoint, mid: int, target: int)
    requires EndpointOk(e) && e.timers.now <= mid <= target
    ensures RunTo(e, target)
         == Result(RunTo(RunTo(e, mid).e, target).e, RunTo(e, mid).emit + RunTo(RunTo(e, mid).e, target).emit)
    decreases |GrantsLeft(e.keys, mid)|, |DuesLeft(e.keys, mid)| + |TimersLeft(e.timers, mid)|
  {
    hide CallsOk, P.KeysOk, Instant;
    if e.keys.exhausted {
    } else if HasWork(e, mid) {
      var i := LeastInt(Instants(e));
      assert HasWork(e, target);
      InstantKeeps(e, i);
      InstantShrinks(e, i, mid);
      var one := Instant(e, i);
      RunToSplit(one.e, mid, target);
      var b := RunTo(one.e, mid);
      assert one.emit + (b.emit + RunTo(b.e, target).emit) == (one.emit + b.emit) + RunTo(b.e, target).emit;
    } else {
      SplitIdle(e, mid, target);
      assert [] + RunTo(At(e, mid), target).emit == RunTo(At(e, mid), target).emit;
    }
  }

  // ---- runs

  datatype Event =
    | Advance(seconds: nat)
    | Recv(m: Message)
    | Local(id: string, v: Verb)
    | PlaceCall(id: string, to: string)
    | KeyRequest(q: P.Request)

  /** Invite ids are not those of our own live attempts, and grant ids are new. */
  ghost predicate Allowed(e: Endpoint, ev: Event) {
    match ev
    case Recv(m) => m.body.Invite? ==> !ReusesOwn(e, m.session) || SameIdGlare(e, m)
    case KeyRequest(q) => P.Fresh(e.keys, q)
    case _ => true
  }

  /** One event. An endpoint whose grant ids ran out has thrown and does nothing more. */
  ghost function Step(e: Endpoint, ev: Event): Result
    requires EndpointOk(e)
  {
    if e.keys.exhausted then Result(e, [])
    else match ev
      case Advance(seconds) => RunTo(e, e.timers.now + seconds)
      case Recv(m) => if m.body.Invite? then OnInvite(e, m) else OnMessage(e, m)
      case Local(id, v) => OnLocal(e, id, v)
      case PlaceCall(id, to) => OnPlaceCall(e, id, to)
      case KeyRequest(q) =>
        var k := P.Answer(e.keys, e.timers.now, q);
        Result(e.(keys := k.k), KeyEmits(k.ops))
  }

  ghost predicate Reached(e: Endpoint) {
    EndpointOk(e) && P.NothingDue(e.keys, e.timers.now)
  }

  lemma StepKeeps(e: Endpoint, ev: Event)
    requires Reached(e) && Allowed(e, ev)
    ensures Reached(Step(e, ev).e) && AllForward(e, Step(e, ev).e)
  {
    hide CallsOk, P.KeysOk, P.NothingDue, AllForward, RunTo, P.Answer, OnInvite, OnMessage, OnLocal, OnPlaceCall;
    if e.keys.exhausted {
      assert AllForward(e, e) by { ForwardReflexive(e); }
    } else {
      match ev
      case Advance(seconds) =>
      case Recv(m) =>
        if m.body.Invite? { InviteKeepsExactly(e, m); InviteSame(e, m); } else { MessageKeeps(e, m); }
      case Local(id, v) => LocalKeeps(e, id, v);
      case PlaceCall(id, to) => PlaceCallKeeps(e, id, to);
      case KeyRequest(q) =>
        P.AnswerKeeps(e.keys, e.timers.now, q);
        SameCalls(e, P.Answer(e.keys, e.timers.now, q).k);
    }
  }

  lemma ForwardReflexive(e: Endpoint)
    ensures AllForward(e, e)
  {
  }

  ghost predicate Legal(e: Endpoint, evs: seq<Event>)
    requires Reached(e)
    decreases |evs|
  {
    evs == [] || (Allowed(e, evs[0]) && (StepKeeps(e, evs[0]); Legal(Step(e, evs[0]).e, evs[1..])))
  }

  ghost function Run(e: Endpoint, evs: seq<Event>): (r: Endpoint)
    requires Reached(e) && Legal(e, evs)
    ensures Reached(r) && AllForward(e, r)
    decreases |evs|
  {
    if evs == [] then e
    else
      StepKeeps(e, evs[0]);
      var r := Run(Step(e, evs[0]).e, evs[1..]);
      ForwardTransitive(e, Step(e, evs[0]).e, r);
      r
  }

  function Initial(cx: Context, start: int, configured: bool, sealed: set<string>, tRotate: nat, supply: seq<string>): Endpoint {
    Endpoint(cx, map[], Table(map[], 0, start),
             P.Keys(configured, sealed, tRotate, map[], if configured then map sc | sc in sealed + {"main"} :: 0 else map[],
                    map[], map[], supply, false, P.Book(map[], [], [])))
  }

  lemma InitialReached(cx: Context, start: int, configured: bool, sealed: set<string>, tRotate: nat, supply: seq<string>)
    requires P.Distinct(supply)
    ensures Reached(Initial(cx, start, configured, sealed, tRotate, supply))
  {
  }

  /**
   * A session runs exactly the timer its phase calls for, has media exactly while ACTIVE and an update outstanding only
   * then; since `e` it went forward, and if it had ended, nowhere.
   */
  ghost predicate CallLaw(e: Endpoint, f: Endpoint, id: string)
    requires id in f.sessions
  {
    var s, run := f.sessions[id], RunningOf(f.timers, id);
    && (s.phase == INVITING ==> run == {TEstablish})
    && (s.phase == PROCEEDING ==> run == {TRing} || run == {TQueue})
    && (s.phase == ALERTING ==> run == {TRingLocal})
    && (s.phase in {OFFERED, ACTIVE, ENDED} ==> run == {})
    && (s.media <==> s.phase == ACTIVE)
    && (s.outstanding != NoUpdate ==> s.phase == ACTIVE)
    && (id in e.sessions ==> Rank(e.sessions[id].phase) <= Rank(s.phase) && (e.sessions[id].phase == ENDED ==> s == e.sessions[id]))
  }

  lemma EverySessionFits(e: Endpoint, evs: seq<Event>, id: string)
    requires Reached(e) && Legal(e, evs) && id in Run(e, evs).sessions
    ensures CallLaw(e, Run(e, evs), id)
  {
    var f := Run(e, evs);
    assert SessionFits(f, id);
    if id in e.sessions {
      assert Forward(e.sessions[id], f.sessions[id]);
    }
  }

  /** `id`, the `i`th ended grant or one of its chain, carried its lost scope `sc`, and `tRotate` has passed since. */
  ghost predicate CarriedInTime(k: P.Keys, now: int, i: int, sc: string, id: string) {
    && 0 <= i < |k.book.ends|
    && k.book.ends[i].at + k.tRotate <= now && sc in k.book.ends[i].lost
    && (id == k.book.ends[i].id || id in k.book.ends[i].chain)
    && id in k.book.carried && sc in k.book.carried[id]
  }

  ghost predicate Overtaken(k: P.Keys, sc: string, id: string) {
    && id in k.book.carried && sc in k.book.carried[id] && sc in k.epochs
    && k.book.carried[id][sc] <= k.epochs[sc] && (P.Raises(k.book.carried[id][sc]) ==> k.book.carried[id][sc] < k.epochs[sc])
  }

  /**
   * Once `tRotate` has passed since a keyed grant ended, each scope it lost is past every epoch the grant or its chain
   * carried that double arithmetic can raise; no grant ended twice; rotations of a scope kept `tRotate` apart.
   */
  ghost predicate KeyLaw(k: P.Keys, now: int) {
    && (forall i, sc, id :: CarriedInTime(k, now, i, sc, id) ==> Overtaken(k, sc, id))
    && (forall i, j :: 0 <= i < j < |k.book.ends| ==> k.book.ends[i].id != k.book.ends[j].id)
    && (forall i, j :: 0 <= i < j < |k.book.turns| && k.book.turns[i].scope == k.book.turns[j].scope ==>
          k.book.turns[i].at + k.tRotate <= k.book.turns[j].at)
  }

  lemma EveryLostKeyRotates(e: Endpoint, evs: seq<Event>)
    requires Reached(e) && Legal(e, evs)
    ensures KeyLaw(Run(e, evs).keys, Run(e, evs).timers.now)
  {
    hide CallsOk, AllForward;
    var k, now := Run(e, evs).keys, Run(e, evs).timers.now;
    forall i, sc, id | CarriedInTime(k, now, i, sc, id) ensures Overtaken(k, sc, id) {
      assert P.SettledOrDue(k, k.book.ends[i], sc);
      assert P.Above(k, sc, id);
    }
  }

  // ---- an epoch that cannot be raised

  /** A sibling's record sets the epoch of `main`, a keyed grant carries it, is revoked, and `tRotate` passes. */
  function RevokedAt(epoch: nat, tRotate: nat): seq<Event> {
    [KeyRequest(P.OwnRecord("main", epoch)),
     KeyRequest(P.GrantIntro("session", "did:web:bob", "grant", ["dsip.subscribe"], 1000, None)),
     KeyRequest(P.Revoke("grant")),
     Advance(tRotate)]
  }

  function Book3(epoch: nat): P.Book {
    P.Book(map["grant" := map["main" := epoch]], [P.End("grant", [], ["main"], 0)], [P.Turn("main", 0)])
  }

  function Before(epoch: nat, tRotate: nat): P.Keys {
    P.Keys(true, {"main"}, tRotate, map[], map["main" := epoch], map[], map[], [], false, P.Book(map[], [], []))
  }

  function Issued(epoch: nat, tRotate: nat): P.Keys {
    Before(epoch, tRotate).(grants := map["grant" := P.Grant("grant", "did:web:bob", ["dsip.subscribe"], 1000, None, ["main"], [], false)],
                            book := P.Book(map["grant" := map["main" := epoch]], [], []))
  }

  function After(epoch: nat, tRotate: nat): P.Keys {
    Before(epoch, tRotate).(epochs := map["main" := P.NextEpoch(epoch)], lastRotated := map["main" := 0], book := Book3(epoch))
  }

  lemma NoGrants(k: P.Keys, now: int, scopes: set<string>)
    requires k.grants == map[]
    ensures P.Regrant(k, now, scopes) == P.Step(k, [])
  {
    assert k.grants.Keys == {};
    assert Sorted(k.grants.Keys) == [];
  }

  lemma AdoptsRecord(epoch: nat, tRotate: nat)
    requires 0 < epoch
    ensures P.Answer(Before(0, tRotate), 0, P.OwnRecord("main", epoch)).k == Before(epoch, tRotate)
  {
    var k := Before(0, tRotate);
    assert k.epochs["main" := epoch] == map["main" := epoch];
    NoGrants(Before(epoch, tRotate), 0, {"main"});
  }

  lemma IssuesKeyed(epoch: nat, tRotate: nat)
    ensures P.Answer(Before(epoch, tRotate), 0, P.GrantIntro("session", "did:web:bob", "grant", ["dsip.subscribe"], 1000, None)).k == Issued(epoch, tRotate)
  {
    var k := Before(epoch, tRotate);
    var scopes := P.KeyScopes(true, {"main"}, ["dsip.subscribe"], None);
    assert scopes == ["main"];
    assert ["main"][..0] == [];
    assert P.WithEpochs(k.epochs, []) == k.epochs;
    assert P.WithEpochs(k.epochs, ["main"]) == k.epochs;
    assert P.Carried(k.epochs, ["main"]) == map["main" := epoch];
  }

  lemma RevokeRotates(epoch: nat, tRotate: nat)
    ensures P.Answer(Issued(epoch, tRotate), 0, P.Revoke("grant")).k == After(epoch, tRotate)
  {
    var k := Issued(epoch, tRotate);
    var g := k.grants["grant"];
    var d := k.(grants := k.grants - {"grant"});
    assert d.grants == map[];
    assert ["main"][..0] == [];
    assert P.MakeDue(d, 0, [], []) == map[];
    assert P.MakeDue(d, 0, ["main"], []) == map["main" := 0];
    assert P.Lost([], []) == [];
    assert P.Lost(["main"], []) == ["main"];
    var e := P.EndGrant(d, 0, g, []);
    assert e == d.(due := map["main" := 0], book := d.book.(ends := [P.End("grant", [], ["main"], 0)]));
    MainRotates(e);
    var r := P.RotateOne(e, 0, "main");
    assert r == After(epoch, tRotate) by {
      assert e.due - {"main"} == map[];
      assert e.epochs["main" := P.NextEpoch(epoch)] == map["main" := P.NextEpoch(epoch)];
      assert [] + [P.Turn("main", 0)] == [P.Turn("main", 0)];
    }
    NoGrants(r, 0, {"main"});
  }

  lemma MainRotates(e: P.Keys)
    requires e.due == map["main" := 0]
    ensures P.DueNow(e, 0) == {"main"} && P.RotateEach(e, 0, P.MainFirst(P.DueNow(e, 0))).k == P.RotateOne(e, 0, "main")
  {
    assert P.DueNow(e, 0) == {"main"};
    assert {"main"} - {"main"} == {};
    assert Sorted({"main"} - {"main"}) == [];
    assert P.MainFirst({"main"}) == ["main"];
    assert ["main"][..0] == [];
    assert P.RotateEach(e, 0, []) == P.Step(e, []);
  }

  lemma QuietAdvance(e: Endpoint, seconds: nat)
    requires EndpointOk(e) && !e.keys.exhausted && e.timers.running == map[] && e.keys.grants == map[] && e.keys.due == map[]
    ensures RunTo(e, e.timers.now + seconds) == Result(At(e, e.timers.now + seconds), [])
  {
    hide P.KeysOk, CallsOk;
    assert Instants(e) == {};
  }

  lemma RunsOn(e: Endpoint, ev: Event, rest: seq<Event>)
    requires Reached(e) && Allowed(e, ev)
    requires Reached(Step(e, ev).e) ==> Legal(Step(e, ev).e, rest)
    ensures Reached(Step(e, ev).e) && Legal(e, [ev] + rest) && Run(e, [ev] + rest) == Run(Step(e, ev).e, rest)
  {
    hide Reached, Allowed, Step, AllForward;
    StepKeeps(e, ev);
    assert ([ev] + rest)[1..] == rest;
  }

  lemma RunsFour(e: Endpoint, evs: seq<Event>, f: Endpoint, g: Endpoint, h: Endpoint, i: Endpoint)
    requires |evs| == 4
    requires Reached(e) && Allowed(e, evs[0]) && Step(e, evs[0]).e == f
    requires Reached(f) ==> Allowed(f, evs[1]) && Step(f, evs[1]).e == g
    requires Reached(g) ==> Allowed(g, evs[2]) && Step(g, evs[2]).e == h
    requires Reached(h) ==> Allowed(h, evs[3]) && Step(h, evs[3]).e == i
    ensures Legal(e, evs) && Run(e, evs) == i
  {
    hide Reached, Allowed, Step, AllForward;
    StepKeeps(e, evs[0]);
    StepKeeps(f, evs[1]);
    StepKeeps(g, evs[2]);
    StepKeeps(h, evs[3]);
    RunsOn(h, evs[3], []);
    RunsOn(g, evs[2], [evs[3]] + []);
    RunsOn(f, evs[1], [evs[2]] + ([evs[3]] + []));
    RunsOn(e, evs[0], [evs[1]] + ([evs[2]] + ([evs[3]] + [])));
    assert evs == [evs[0]] + ([evs[1]] + ([evs[2]] + ([evs[3]] + [])));
  }

  /**
   * An epoch double arithmetic cannot raise is not raised: for every such epoch there is a run in which a grant that
   * carried it ended `tRotate` ago and the scope it lost is at that very epoch.
   */
  lemma UnraisedEpochStays(cx: Context, epoch: nat, tRotate: nat)
    requires !P.Raises(epoch)
    ensures var e, evs := Initial(cx, 0, true, {"main"}, tRotate, []), RevokedAt(epoch, tRotate);
            && Reached(e) && Legal(e, evs)
            && var k, now := Run(e, evs).keys, Run(e, evs).timers.now;
               CarriedInTime(k, now, 0, "main", "grant") && k.book.carried["grant"]["main"] == epoch == k.epochs["main"]
  {
    hide Reached, Run, Legal, P.Answer, RunTo, CallsOk, P.KeysOk;
    var e := Initial(cx, 0, true, {"main"}, tRotate, []);
    InitialReached(cx, 0, true, {"main"}, tRotate, []);
    assert e.keys == Before(0, tRotate) by { assert {"main"} + {"main"} == {"main"}; assert e.keys.epochs == map["main" := 0]; }
    AdoptsRecord(epoch, tRotate);
    IssuesKeyed(epoch, tRotate);
    RevokeRotates(epoch, tRotate);
    var f, g, h := e.(keys := Before(epoch, tRotate)), e.(keys := Issued(epoch, tRotate)), e.(keys := After(epoch, tRotate));
    if Reached(h) { ReachedOk(h); QuietAdvance(h, tRotate); }
    if Reached(f) { ReachedOk(f); }
    if Reached(g) { ReachedOk(g); }
    ReachedOk(e);
    var q := RevokedAt(epoch, tRotate);
    RunsFour(e, q, f, g, h, At(h, tRotate));
  }

  lemma ReachedOk(e: Endpoint)
    requires Reached(e)
    ensures EndpointOk(e)
  {
  }
}
