/**
 * What ending, rotating and following come to (`endpoint.ts`), said of the grants and epochs before and after: which scopes a
 * grant carries the keys of, which become due and when, which turn and which grants are followed by which; and that in every run
 * every live grant with keys has those in force, until the configured ids run out.
 */
module KeyTurns {
  import opened Prelude
  import opened PresenceKeys

  // ---- what a grant carries

  /** A grant to subscribe carries keys if `main` or its audience is sealed. */
  predicate Keyed(k: Keys, scope: seq<string>, audience: Option<string>) {
    k.configured && "dsip.subscribe" in scope && ("main" in k.sealed || (audience.Some? && audience.value in k.sealed))
  }

  /** Those of `main` and of its audience. */
  predicate ScopesSo(k: Keys, scope: seq<string>, audience: Option<string>, scopes: seq<string>) {
    if !Keyed(k, scope, audience) then scopes == []
    else if audience.None? then |scopes| == 1 && scopes[0] == "main"
    else |scopes| == 2 && scopes[0] == "main" && scopes[1] == audience.value
  }

  lemma ScopesAre(k: Keys, scope: seq<string>, audience: Option<string>)
    ensures ScopesSo(k, scope, audience, KeyScopes(k.configured, k.sealed, scope, audience))
  {
  }

  /** A grant is sent with the keys of its scopes as they are now. */
  predicate SentWith(epochs: map<string, nat>, session: string, g: Grant, op: KeyOp) {
    && op.GrantSent? && op.session == session && op.grantee == g.grantee && op.id == g.id
    && op.purposes == g.scope && op.validUntil == g.validUntil && op.audience == g.audience
    && |op.keys| == |g.keyScopes| && forall i :: 0 <= i < |op.keys| ==> op.keys[i].0 == g.keyScopes[i] && g.keyScopes[i] in epochs && op.keys[i].1 == epochs[g.keyScopes[i]]
  }

  /** What the endpoint's own book says a grant carried is what it was sent with. */
  ghost predicate OnRecord(k: Keys, g: Grant, epochs: map<string, nat>) {
    && g.id in k.book.carried && (forall sc :: sc in k.book.carried[g.id] <==> sc in g.keyScopes)
    && forall sc :: sc in k.book.carried[g.id] ==> sc in epochs && k.book.carried[g.id][sc] == epochs[sc]
  }

  /** A new grant, its scopes starting at epoch 0 if they have none. */
  ghost predicate IssuedSo(k: Keys, session: string, g: Grant, s: Step) {
    && ScopesSo(k, g.scope, g.audience, g.keyScopes) && !g.ended
    && s.k == k.(grants := k.grants[g.id := g], epochs := s.k.epochs, book := k.book.(carried := s.k.book.carried))
    && (forall sc :: sc in s.k.epochs <==> sc in k.epochs || sc in g.keyScopes)
    && (forall sc :: sc in s.k.epochs ==> s.k.epochs[sc] == if sc in k.epochs then k.epochs[sc] else 0)
    && |s.ops| == 1 && SentWith(s.k.epochs, session, g, s.ops[0]) && OnRecord(s.k, g, s.k.epochs)
    && (forall id :: id in k.book.carried && id != g.id ==> id in s.k.book.carried && s.k.book.carried[id] == k.book.carried[id])
    && s.k.book.carried.Keys == k.book.carried.Keys + {g.id}
  }

  lemma IssuesSo(k: Keys, session: string, grantee: string, id: string, scope: seq<string>, validUntil: int, audience: Option<string>, chain: seq<string>)
    returns (g: Grant)
    ensures g == Grant(id, grantee, scope, validUntil, audience, g.keyScopes, chain, false)
    ensures IssuedSo(k, session, g, Issue(k, session, grantee, id, scope, validUntil, audience, chain))
  {
    hide KeyScopes;
    ScopesAre(k, scope, audience);
    var s := Issue(k, session, grantee, id, scope, validUntil, audience, chain);
    g := s.k.grants[id];
  }

  // ---- scopes becoming due, and turning

  /** When a scope lost now may turn: `tRotate` after its last turn, or at once. */
  function Earliest(k: Keys, now: int, sc: string): int {
    if sc !in k.lastRotated || k.lastRotated[sc] + k.tRotate <= now then now else k.lastRotated[sc] + k.tRotate
  }

  /** Scopes lost become due, those already due when they were. */
  ghost predicate MadeDue(k: Keys, now: int, lost: set<string>, due: map<string, int>) {
    && (forall sc :: sc in due <==> sc in k.due || sc in lost)
    && forall sc :: sc in due ==> due[sc] == if sc in k.due then k.due[sc] else Earliest(k, now, sc)
  }

  lemma EndsSo(k: Keys, now: int, g: Grant, keep: seq<string>)
    requires !g.ended
    ensures var t, lost := EndGrant(k, now, g, keep), (set sc | sc in g.keyScopes && sc !in keep);
            && MadeDue(k, now, lost, t.due) && t == k.(due := t.due, book := k.book.(ends := t.book.ends))
            && |t.book.ends| == |k.book.ends| + 1 && t.book.ends[..|k.book.ends|] == k.book.ends
            && EndIs(t.book.ends[|k.book.ends|], g, lost, now)
  {
  }

  ghost predicate EndIs(e: End, g: Grant, lost: set<string>, now: int) {
    e.id == g.id && e.chain == g.chain && e.at == now && forall sc :: sc in e.lost <==> sc in lost
  }

  /** `main` first, then by name. */
  ghost predicate TurnOrder(order: seq<string>, scopes: set<string>) {
    && (forall sc :: sc in order <==> sc in scopes)
    && (forall i, j :: 0 <= i < j < |order| ==> order[j] != "main" && (order[i] == "main" || Less(order[i], order[j])))
  }

  /** Each of the scopes turns to its next epoch, now. */
  ghost predicate Turned(k: Keys, now: int, order: seq<string>, t: Keys) {
    && t == k.(due := t.due, epochs := t.epochs, lastRotated := t.lastRotated, book := k.book.(turns := t.book.turns))
    && (forall sc :: sc in t.due <==> sc in k.due && sc !in order) && (forall sc :: sc in t.due ==> t.due[sc] == k.due[sc])
    && (forall sc :: sc in t.epochs <==> sc in k.epochs || sc in order)
    && (forall sc :: sc in t.epochs ==> t.epochs[sc] == if sc in order then NextEpoch(if sc in k.epochs then k.epochs[sc] else 0) else k.epochs[sc])
    && (forall sc :: sc in t.lastRotated <==> sc in k.lastRotated || sc in order)
    && (forall sc :: sc in t.lastRotated ==> t.lastRotated[sc] == if sc in order then now else k.lastRotated[sc])
  }

  /** Each turn is told and recorded, in their order. */
  ghost predicate TurnsTold(k: Keys, now: int, order: seq<string>, s: Step) {
    && |s.ops| == |order| && (forall i :: 0 <= i < |order| ==> order[i] in s.k.epochs && s.ops[i] == KeyRotated(order[i], s.k.epochs[order[i]]))
    && |s.k.book.turns| == |k.book.turns| + |order| && s.k.book.turns[..|k.book.turns|] == k.book.turns
    && forall i :: 0 <= i < |order| ==> s.k.book.turns[|k.book.turns| + i] == Turn(order[i], now)
  }

  lemma {:induction false} TurnsSo(k: Keys, now: int, order: seq<string>)
    requires forall i, j :: 0 <= i < j < |order| ==> order[i] != order[j]
    ensures Turned(k, now, order, RotateEach(k, now, order).k) && TurnsTold(k, now, order, RotateEach(k, now, order))
  {
    hide NextEpoch, Turned, TurnsTold, RotateOne;
    if order == [] {
      NoneTurned(k, now);
    } else {
      var front, sc := order[..|order| - 1], order[|order| - 1];
      assert order == front + [sc];
      assert forall i :: 0 <= i < |front| ==> front[i] == order[i];
      TurnsSo(k, now, front);
      OneTurned(k, now, front, sc, RotateEach(k, now, front));
      assert sc in RotateOne(RotateEach(k, now, front).k, now, sc).epochs;
      OneTold(k, now, front, sc, RotateEach(k, now, front));
    }
  }

  lemma NoneTurned(k: Keys, now: int)
    ensures Turned(k, now, [], k) && TurnsTold(k, now, [], Step(k, []))
  {
  }

  lemma OneTurned(k: Keys, now: int, front: seq<string>, sc: string, s: Step)
    requires Turned(k, now, front, s.k) && sc !in front
    ensures Turned(k, now, front + [sc], RotateOne(s.k, now, sc)) && sc in RotateOne(s.k, now, sc).epochs
  {
    hide NextEpoch;
    assert forall x :: x in front + [sc] <==> x in front || x == sc;
  }

  lemma OneTold(k: Keys, now: int, front: seq<string>, sc: string, s: Step)
    requires TurnsTold(k, now, front, s) && sc !in front && sc in RotateOne(s.k, now, sc).epochs
    ensures var t := RotateOne(s.k, now, sc); TurnsTold(k, now, front + [sc], Step(t, s.ops + [KeyRotated(sc, t.epochs[sc])]))
  {
    hide NextEpoch;
    var t := RotateOne(s.k, now, sc);
    assert t.book.turns[..|k.book.turns|] == s.k.book.turns[..|k.book.turns|];
    assert forall i :: 0 <= i < |front| ==> t.epochs[front[i]] == s.k.epochs[front[i]];
  }

  lemma MainFirstSo(s: set<string>)
    ensures TurnOrder(MainFirst(s), s)
  {
    hide Less;
    SortedAscends(s);
    SortedAscends(s - {"main"});
  }

  // ---- live grants being followed

  predicate Live(g: Grant, now: int) { now < g.validUntil }

  /** A live grant with the key of some scope that turned. */
  predicate Affected(k: Keys, now: int, scopes: set<string>, id: string) {
    id in k.grants && Live(k.grants[id], now) && exists sc :: sc in k.grants[id].keyScopes && sc in scopes
  }

  /** One grant followed by another: to the same grantee for the same purposes, until the same time, heading its chain. */
  ghost predicate FollowedBy(k: Keys, id: string, next: string, t: Keys, op: KeyOp) {
    && id in k.grants && next in t.grants
    && t.grants[next] == k.grants[id].(id := next, chain := [id] + k.grants[id].chain, ended := false)
    && SentWith(k.epochs, id, t.grants[next], op) && OnRecord(t, t.grants[next], k.epochs)
  }

  /** The table without those followed and with those following, and the book with what these carried. */
  ghost predicate TableSo(k: Keys, olds: seq<string>, news: seq<string>, t: Keys) {
    && (forall id :: id in t.grants <==> (id in k.grants && id !in olds) || id in news)
    && (forall id :: id in k.grants && id !in olds ==> t.grants[id] == k.grants[id])
  }

  ghost predicate CarriedSo(k: Keys, news: seq<string>, t: Keys) {
    && (forall id :: id in t.book.carried <==> id in k.book.carried || id in news)
    && forall id :: id in k.book.carried ==> t.book.carried[id] == k.book.carried[id]
  }

  ghost predicate EachFollowed(k: Keys, olds: seq<string>, news: seq<string>, s: Step) {
    |s.ops| == |olds| == |news| && forall i :: 0 <= i < |olds| ==> FollowedBy(k, olds[i], news[i], s.k, s.ops[i])
  }

  /** So many of them as there are ids left are followed, in the order of their own ids. */
  ghost predicate FollowedSo(k: Keys, olds: seq<string>, s: Step) {
    var n := if |olds| <= |k.supply| then |olds| else |k.supply|;
    && s.k == k.(grants := s.k.grants, supply := k.supply[n..], exhausted := |k.supply| < |olds|, book := k.book.(carried := s.k.book.carried))
    && TableSo(k, olds[..n], k.supply[..n], s.k) && CarriedSo(k, k.supply[..n], s.k) && EachFollowed(k, olds[..n], k.supply[..n], s)
  }

  /** The affected grants among some, in their order. */
  function AffectedIn(k: Keys, now: int, scopes: set<string>, ids: seq<string>): seq<string> {
    if ids == [] then []
    else AffectedIn(k, now, scopes, ids[..|ids| - 1]) + if Affected(k, now, scopes, ids[|ids| - 1]) then [ids[|ids| - 1]] else []
  }

  lemma {:induction false} AffectedAscend(k: Keys, now: int, scopes: set<string>, ids: seq<string>)
    requires forall i, j :: 0 <= i < j < |ids| ==> Less(ids[i], ids[j])
    ensures var p := AffectedIn(k, now, scopes, ids);
            && (forall id :: id in p <==> id in ids && Affected(k, now, scopes, id))
            && forall i, j :: 0 <= i < j < |p| ==> Less(p[i], p[j])
  {
    hide Affected, Less;
    if ids != [] {
      var front, id := ids[..|ids| - 1], ids[|ids| - 1];
      AffectedAscend(k, now, scopes, front);
      assert ids == front + [id];
      forall x | x in front ensures Less(x, id) {
        var i :| 0 <= i < |front| && front[i] == x;
        assert ids[i] == x;
      }
    }
  }

  /** The grants on the table are as issued, and the ids to come are new. */
  ghost predicate TableOk(k: Keys) {
    && (forall id :: id in k.grants ==> k.grants[id].id == id && id in k.book.carried)
    && (forall id :: id in k.grants ==> ScopesSo(k, k.grants[id].scope, k.grants[id].audience, k.grants[id].keyScopes))
    && (forall id :: id in k.grants ==> forall sc :: sc in k.grants[id].keyScopes ==> sc in k.epochs)
    && SupplyOk(k.supply, k.book.carried)
  }

  lemma KeysAreOk(k: Keys, now: int)
    requires KeysOk(k, now)
    ensures TableOk(k)
  {
    hide KeyScopes, ScopesSo;
    forall id | id in k.grants ensures k.grants[id].id == id && ScopesSo(k, k.grants[id].scope, k.grants[id].audience, k.grants[id].keyScopes) {
      assert GrantOk(k, now, id, k.grants[id]);
      ScopesAre(k, k.grants[id].scope, k.grants[id].audience);
    }
  }

  lemma NoneFollowed(k: Keys)
    requires !k.exhausted
    ensures FollowedSo(k, [], Step(k, []))
  {
    assert k.supply[0..] == k.supply && k.supply[..0] == [];
    var none: seq<string> := [];
    assert none[..0] == none;
    assert TableSo(k, [], [], k) && CarriedSo(k, [], k) && EachFollowed(k, [], [], Step(k, []));
  }

  /** An affected grant not yet come to is as it was, and the next id the next. */
  lemma StillThere(k: Keys, olds: seq<string>, id: string, s: Step)
    requires TableOk(k) && FollowedSo(k, olds, s) && id !in olds && id in k.grants && |olds| < |k.supply|
    ensures id in s.k.grants && s.k.grants[id] == k.grants[id] && s.k.supply == k.supply[|olds|..] && s.k.supply[0] == k.supply[|olds|]
    ensures s.k == k.(grants := s.k.grants, supply := s.k.supply, exhausted := false, book := s.k.book)
  {
    hide ScopesSo, FollowedBy, CarriedSo, EachFollowed;
    assert olds[..|olds|] == olds;
    NextIsNew(k, |olds|);
  }

  lemma SameEpochs(k: Keys, session: string, g: Grant, i: Step)
    requires IssuedSo(k, session, g, i) && forall sc :: sc in g.keyScopes ==> sc in k.epochs
    ensures i.k.epochs == k.epochs
  {
    hide ScopesSo, SentWith, OnRecord;
  }

  /** One more affected grant, while ids last. */
  lemma OneFollowed(k: Keys, now: int, scopes: set<string>, olds: seq<string>, id: string, s: Step)
    requires TableOk(k) && FollowedSo(k, olds, s) && id !in olds && Affected(k, now, scopes, id)
    requires (forall x :: x in olds ==> x in k.grants) && |olds| < |k.supply|
    ensures var o := RegrantOne(s.k, now, scopes, id); FollowedSo(k, olds + [id], Step(o.k, s.ops + o.ops))
  {
    StillThere(k, olds, id, s);
    var g, next := k.grants[id], k.supply[|olds|];
    assert Carries(g, scopes) by { var sc :| sc in g.keyScopes && sc in scopes; }
    hide FollowedSo, Carries, ScopesSo;
    var b := s.k.(grants := s.k.grants - {id}, supply := s.k.supply[1..]);
    var h := IssuesSo(b, id, g.grantee, next, g.scope, g.validUntil, g.audience, [id] + g.chain);
    var i := Issue(b, id, g.grantee, next, g.scope, g.validUntil, g.audience, [id] + g.chain);
    assert RegrantOne(s.k, now, scopes, id) == i;
    hide Issue, RegrantOne, Affected;
    SameScopes(k, b, g, h);
    hide IssuedSo;
    SameEpochs(b, id, h, i);
    OneFollowedTable(k, olds, id, s, h, i);
  }

  lemma SameScopes(k: Keys, b: Keys, g: Grant, h: Grant)
    requires ScopesSo(k, g.scope, g.audience, g.keyScopes) && b.configured == k.configured && b.sealed == k.sealed
    requires h.scope == g.scope && h.audience == g.audience && ScopesSo(b, h.scope, h.audience, h.keyScopes)
    ensures h.keyScopes == g.keyScopes
  {
  }

  lemma OneFollowedTable(k: Keys, olds: seq<string>, id: string, s: Step, h: Grant, i: Step)
    requires TableOk(k) && FollowedSo(k, olds, s) && id !in olds && id in k.grants && |olds| < |k.supply|
    requires forall x :: x in olds ==> x in k.grants
    requires h == k.grants[id].(id := k.supply[|olds|], chain := [id] + k.grants[id].chain, ended := false)
    requires IssuedSo(s.k.(grants := s.k.grants - {id}, supply := s.k.supply[1..]), id, h, i) && i.k.epochs == k.epochs
    ensures FollowedSo(k, olds + [id], Step(i.k, s.ops + i.ops))
  {
    hide ScopesSo, SentWith, FollowedBy, TableSo, CarriedSo, EachFollowed, OnRecord, TableOk;
    var n := |olds|;
    var next := k.supply[n];
    assert olds[..n] == olds && (olds + [id])[..n + 1] == olds + [id];
    NextIsNew(k, n);
    assert s.k.supply[1..] == k.supply[n + 1..];
    OneInTable(k, olds, k.supply[..n], id, next, s.k, h, i.k);
    OneCarried(k, k.supply[..n], next, s.k, i.k);
    OneMoreFollowed(k, olds, k.supply[..n], id, h, s, i);
  }

  lemma OneInTable(k: Keys, olds: seq<string>, news: seq<string>, id: string, next: string, t: Keys, h: Grant, u: Keys)
    requires TableSo(k, olds, news, t) && next !in k.grants && id in k.grants && id !in olds && id !in news && u.grants == (t.grants - {id})[next := h]
    ensures TableSo(k, olds + [id], news + [next], u)
  {
  }

  lemma OneCarried(k: Keys, news: seq<string>, next: string, t: Keys, u: Keys)
    requires CarriedSo(k, news, t) && next !in k.book.carried && u.book.carried.Keys == t.book.carried.Keys + {next}
    requires forall x :: x in t.book.carried && x != next ==> x in u.book.carried && u.book.carried[x] == t.book.carried[x]
    ensures CarriedSo(k, news + [next], u)
  {
    forall x ensures x in u.book.carried <==> x in k.book.carried || x in news + [next] {
      assert x in u.book.carried <==> x in u.book.carried.Keys;
    }
  }

  lemma OneMoreFollowed(k: Keys, olds: seq<string>, news: seq<string>, id: string, h: Grant, s: Step, i: Step)
    requires EachFollowed(k, olds, news, s) && id in k.grants && h.id !in news
    requires h == k.grants[id].(id := h.id, chain := [id] + k.grants[id].chain, ended := false)
    requires i.k.grants == (s.k.grants - {id})[h.id := h] && id !in news && |i.ops| == 1 && SentWith(k.epochs, id, h, i.ops[0]) && OnRecord(i.k, h, k.epochs)
    requires forall x :: x in s.k.book.carried && x != h.id ==> x in i.k.book.carried && i.k.book.carried[x] == s.k.book.carried[x]
    ensures EachFollowed(k, olds + [id], news + [h.id], Step(i.k, s.ops + i.ops))
  {
    hide SentWith, FollowedBy, OnRecord;
    var t := Step(i.k, s.ops + i.ops);
    forall j | 0 <= j < |olds| + 1 ensures FollowedBy(k, (olds + [id])[j], (news + [h.id])[j], t.k, t.ops[j]) {
      if j < |olds| {
        assert FollowedBy(k, olds[j], news[j], s.k, s.ops[j]);
        assert news[j] in news && news[j] != h.id && news[j] != id;
        InTable(k, olds[j], news[j], s.k, s.ops[j]);
        FollowedStill(k, olds[j], news[j], s.k, t.k, s.ops[j]);
      } else {
        FollowedNow(k, id, h, t.k, i.ops[0]);
      }
    }
  }

  lemma InTable(k: Keys, id: string, next: string, t: Keys, op: KeyOp)
    requires FollowedBy(k, id, next, t, op)
    ensures next in t.grants
  {
  }

  lemma NextIsNew(k: Keys, n: nat)
    requires TableOk(k) && n < |k.supply|
    ensures var next := k.supply[n];
            && next !in k.supply[..n] && next !in k.book.carried && next !in k.grants && k.supply[..n + 1] == k.supply[..n] + [next]
            && (forall x :: x in k.supply[..n] ==> x !in k.grants)
  {
    hide ScopesSo;
  }

  lemma FollowedStill(k: Keys, id: string, next: string, t: Keys, u: Keys, op: KeyOp)
    requires FollowedBy(k, id, next, t, op) && next in u.grants && u.grants[next] == t.grants[next]
    requires next in t.book.carried ==> next in u.book.carried && u.book.carried[next] == t.book.carried[next]
    ensures FollowedBy(k, id, next, u, op)
  {
    hide SentWith;
  }

  lemma FollowedNow(k: Keys, id: string, h: Grant, t: Keys, op: KeyOp)
    requires id in k.grants && h.id in t.grants && t.grants[h.id] == h && h == k.grants[id].(id := h.id, chain := [id] + k.grants[id].chain, ended := false)
    requires SentWith(k.epochs, id, h, op) && OnRecord(t, h, k.epochs)
    ensures FollowedBy(k, id, h.id, t, op)
  {
  }

  lemma {:induction false} RegrantsSo(k: Keys, now: int, scopes: set<string>, ids: seq<string>)
    requires TableOk(k) && !k.exhausted && (forall i, j :: 0 <= i < j < |ids| ==> Less(ids[i], ids[j])) && forall id :: id in ids ==> id in k.grants
    ensures FollowedSo(k, AffectedIn(k, now, scopes, ids), RegrantEach(k, now, scopes, ids))
  {
    hide FollowedSo, TableOk, RegrantOne, Affected, Less;
    if ids == [] {
      NoneFollowed(k);
    } else {
      var front, id := ids[..|ids| - 1], ids[|ids| - 1];
      assert ids == front + [id];
      assert forall i, j :: 0 <= i < j < |front| ==> Less(front[i], front[j]) by {
        forall i, j | 0 <= i < j < |front| ensures Less(front[i], front[j]) { assert front[i] == ids[i] && front[j] == ids[j]; }
      }
      RegrantsSo(k, now, scopes, front);
      AffectedAscend(k, now, scopes, front);
      var olds, s := AffectedIn(k, now, scopes, front), RegrantEach(k, now, scopes, front);
      assert id !in olds by {
        forall i | 0 <= i < |front| ensures front[i] != id { assert Less(ids[i], ids[|ids| - 1]); LessTotal(ids[i], id); }
      }
      forall x | x in olds ensures x in k.grants { AffectedIn1(k, now, scopes, x); }
      if !Affected(k, now, scopes, id) {
        NotAffected(k, now, scopes, olds, id, s);
        assert olds + [] == olds && s.ops + [] == s.ops;
      } else {
        AffectedIn1(k, now, scopes, id);
        if |olds| < |k.supply| {
          OneFollowed(k, now, scopes, olds, id, s);
        } else {
          NoIdLeft(k, now, scopes, olds, id, s);
        }
      }
    }
  }

  lemma AffectedIn1(k: Keys, now: int, scopes: set<string>, id: string)
    requires Affected(k, now, scopes, id)
    ensures id in k.grants
  {
  }

  /** A grant not affected stays as it is, and one just issued is not looked at. */
  lemma NotAffected(k: Keys, now: int, scopes: set<string>, olds: seq<string>, id: string, s: Step)
    requires TableOk(k) && FollowedSo(k, olds, s) && !Affected(k, now, scopes, id) && id !in olds
    requires id in k.grants
    ensures RegrantOne(s.k, now, scopes, id) == Step(s.k, [])
  {
    hide ScopesSo, FollowedBy, CarriedSo, EachFollowed;
    NextAll(k, id);
    if !s.k.exhausted {
      assert olds[..|olds|] == olds && id in s.k.grants && s.k.grants[id] == k.grants[id];
      assert Carries(k.grants[id], scopes) <==> exists sc :: sc in k.grants[id].keyScopes && sc in scopes;
    }
  }

  lemma NoIdLeft(k: Keys, now: int, scopes: set<string>, olds: seq<string>, id: string, s: Step)
    requires TableOk(k) && FollowedSo(k, olds, s) && Affected(k, now, scopes, id) && id !in olds && |k.supply| <= |olds|
    ensures var o := RegrantOne(s.k, now, scopes, id); FollowedSo(k, olds + [id], Step(o.k, s.ops + o.ops))
  {
    hide ScopesSo, FollowedBy, CarriedSo, EachFollowed;
    var n := |k.supply|;
    assert (olds + [id])[..n] == olds[..n];
    assert k.supply[n..] == [] && s.k.supply == [];
    assert id !in k.supply by { NextAll(k, id); }
    assert id in s.k.grants && s.k.grants[id] == k.grants[id];
    assert Carries(k.grants[id], scopes) by { var sc :| sc in k.grants[id].keyScopes && sc in scopes; }
    assert s.ops + [] == s.ops;
    StillFollowed(k, olds[..n], k.supply[..n], s, Step(s.k.(exhausted := true), s.ops));
  }

  lemma StillFollowed(k: Keys, olds: seq<string>, news: seq<string>, s: Step, t: Step)
    requires t.k.grants == s.k.grants && t.k.book == s.k.book && t.ops == s.ops
    ensures TableSo(k, olds, news, s.k) ==> TableSo(k, olds, news, t.k)
    ensures CarriedSo(k, news, s.k) ==> CarriedSo(k, news, t.k)
    ensures EachFollowed(k, olds, news, s) ==> EachFollowed(k, olds, news, t)
  {
    hide SentWith;
  }

  lemma NextAll(k: Keys, id: string)
    requires TableOk(k) && id in k.grants
    ensures id !in k.supply
  {
    hide ScopesSo;
  }

  // ---- what is due by now turns, and what it affects is followed

  ghost predicate AffectedList(k: Keys, now: int, scopes: set<string>, olds: seq<string>) {
    && (forall id :: id in olds <==> Affected(k, now, scopes, id))
    && forall i, j :: 0 <= i < j < |olds| ==> Less(olds[i], olds[j])
  }

  ghost predicate DueBy(k: Keys, now: int, scopes: set<string>) {
    forall sc :: sc in scopes <==> sc in k.due && k.due[sc] <= now
  }

  ghost predicate RotatedSo(k: Keys, now: int, s: Step) {
    exists scopes: set<string>, order: seq<string>, mid: Step, olds: seq<string>, f: Step ::
      && DueBy(k, now, scopes) && TurnOrder(order, scopes) && Turned(k, now, order, mid.k) && TurnsTold(k, now, order, mid)
      && AffectedList(mid.k, now, scopes, olds) && FollowedSo(mid.k, olds, f) && s == Step(f.k, mid.ops + f.ops)
  }

  lemma OrderDistinct(order: seq<string>, scopes: set<string>)
    requires TurnOrder(order, scopes)
    ensures forall i, j :: 0 <= i < j < |order| ==> order[i] != order[j]
  {
    forall i, j | 0 <= i < j < |order| ensures order[i] != order[j] { LessTotal(order[i], order[j]); }
  }

  lemma {:induction false} TurnedTable(k: Keys, now: int, order: seq<string>, t: Keys)
    requires Turned(k, now, order, t) && TableOk(k)
    ensures TableOk(t)
  {
    hide NextEpoch;
  }

  /** The affected grants, by their ids. */
  lemma AffectedAll(k: Keys, now: int, scopes: set<string>)
    ensures AffectedList(k, now, scopes, AffectedIn(k, now, scopes, Sorted(k.grants.Keys)))
  {
    hide Affected, Less;
    var ids := Sorted(k.grants.Keys);
    SortedAscends(k.grants.Keys);
    AffectedAscend(k, now, scopes, ids);
    forall id | Affected(k, now, scopes, id) ensures id in ids { AffectedIn1(k, now, scopes, id); }
  }

  lemma RegrantSo(k: Keys, now: int, scopes: set<string>) returns (olds: seq<string>)
    requires TableOk(k) && !k.exhausted
    ensures AffectedList(k, now, scopes, olds) && FollowedSo(k, olds, Regrant(k, now, scopes))
  {
    hide FollowedSo, TableOk, AffectedList, Less, RegrantEach, AffectedIn;
    var ids := Sorted(k.grants.Keys);
    SortedAscends(k.grants.Keys);
    AffectedAll(k, now, scopes);
    olds := AffectedIn(k, now, scopes, ids);
    if scopes == {} {
      NoneAffected(k, now, ids);
      NoneFollowed(k);
    } else {
      RegrantsSo(k, now, scopes, ids);
    }
  }

  lemma {:induction false} NoneAffected(k: Keys, now: int, ids: seq<string>)
    ensures AffectedIn(k, now, {}, ids) == []
  {
    if ids != [] {
      NoneAffected(k, now, ids[..|ids| - 1]);
      NoScope(k, now, ids[|ids| - 1]);
    }
  }

  lemma NoScope(k: Keys, now: int, id: string)
    ensures !Affected(k, now, {}, id)
  {
  }

  lemma RotatesSo(k: Keys, now: int)
    requires TableOk(k) && !k.exhausted
    ensures RotatedSo(k, now, RotateDue(k, now))
  {
    hide FollowedSo, TableOk, Turned, TurnsTold, TurnOrder, AffectedList, Regrant, RotateEach;
    var scopes := DueNow(k, now);
    var order := MainFirst(scopes);
    MainFirstSo(scopes);
    OrderDistinct(order, scopes);
    TurnsSo(k, now, order);
    var mid := RotateEach(k, now, order);
    TurnedTable(k, now, order, mid.k);
    StillRunning(k, now, order, mid.k);
    var olds := RegrantSo(mid.k, now, scopes);
  }

  lemma StillRunning(k: Keys, now: int, order: seq<string>, t: Keys)
    requires Turned(k, now, order, t)
    ensures t.exhausted == k.exhausted && t.grants == k.grants && t.supply == k.supply
  {
  }

  // ---- an instant: grants reaching their end, then what is due

  predicate Ends(k: Keys, now: int, id: string) {
    id in k.grants && k.grants[id].keyScopes != [] && !k.grants[id].ended && k.grants[id].validUntil <= now
  }

  predicate LostAt(k: Keys, now: int, ids: seq<string>, sc: string) {
    exists id :: id in ids && id in k.grants && sc in k.grants[id].keyScopes
  }

  ghost predicate Marked(k: Keys, ids: seq<string>, grants: map<string, Grant>) {
    && (forall id :: id in grants <==> id in k.grants)
    && forall id :: id in grants ==> grants[id] == if id in ids then k.grants[id].(ended := true) else k.grants[id]
  }

  ghost predicate AllMadeDue(k: Keys, now: int, ids: seq<string>, due: map<string, int>) {
    && (forall sc :: sc in due <==> sc in k.due || LostAt(k, now, ids, sc))
    && (forall sc :: sc in due ==> due[sc] == if sc in k.due then k.due[sc] else Earliest(k, now, sc))
  }

  ghost predicate EndsRecorded(k: Keys, now: int, ids: seq<string>, ends: seq<End>) {
    && |ends| == |k.book.ends| + |ids| && ends[..|k.book.ends|] == k.book.ends
    && forall i :: 0 <= i < |ids| ==> ids[i] in k.grants && EndIs(ends[|k.book.ends| + i], k.grants[ids[i]], (set sc | sc in k.grants[ids[i]].keyScopes), now)
  }

  /** Each of some grants ends: marked, its scopes due, its end recorded with all of them lost. */
  ghost predicate EndedAll(k: Keys, now: int, ids: seq<string>, t: Keys) {
    && t == k.(grants := t.grants, due := t.due, book := k.book.(ends := t.book.ends))
    && Marked(k, ids, t.grants) && AllMadeDue(k, now, ids, t.due) && EndsRecorded(k, now, ids, t.book.ends)
  }

  function EndingIn(k: Keys, now: int, ids: seq<string>): seq<string> {
    if ids == [] then [] else EndingIn(k, now, ids[..|ids| - 1]) + if Ends(k, now, ids[|ids| - 1]) then [ids[|ids| - 1]] else []
  }

  lemma {:induction false} EndingAscend(k: Keys, now: int, ids: seq<string>)
    requires forall i, j :: 0 <= i < j < |ids| ==> Less(ids[i], ids[j])
    ensures var p := EndingIn(k, now, ids);
            && (forall id :: id in p <==> id in ids && Ends(k, now, id))
            && forall i, j :: 0 <= i < j < |p| ==> Less(p[i], p[j])
  {
    hide Ends, Less;
    if ids != [] {
      var front, id := ids[..|ids| - 1], ids[|ids| - 1];
      EndingAscend(k, now, front);
      assert ids == front + [id];
      forall x | x in front ensures Less(x, id) {
        var i :| 0 <= i < |front| && front[i] == x;
        assert ids[i] == x;
      }
    }
  }

  lemma {:induction false} ExpiresSo(k: Keys, now: int, ids: seq<string>)
    requires forall i, j :: 0 <= i < j < |ids| ==> ids[i] != ids[j]
    ensures EndedAll(k, now, EndingIn(k, now, ids), ExpireEach(k, now, ids))
    ensures forall id :: id in EndingIn(k, now, ids) ==> id in ids
  {
    hide EndedAll, EndGrant;
    if ids == [] {
      NoneEnded(k, now);
    } else {
      var front, id := ids[..|ids| - 1], ids[|ids| - 1];
      assert ids == front + [id];
      assert forall i :: 0 <= i < |front| ==> front[i] == ids[i];
      ExpiresSo(k, now, front);
      var done, r := EndingIn(k, now, front), ExpireEach(k, now, front);
      SameGrant(k, now, done, id, r);
      if Ends(k, now, id) {
        OneEnded(k, now, done, id, r);
      } else {
        assert done + [] == done;
      }
    }
  }

  lemma NoneEnded(k: Keys, now: int)
    ensures EndedAll(k, now, [], k)
  {
  }

  lemma SameGrant(k: Keys, now: int, done: seq<string>, id: string, r: Keys)
    requires EndedAll(k, now, done, r) && id !in done
    ensures id in r.grants <==> id in k.grants
    ensures id in r.grants ==> r.grants[id] == k.grants[id]
  {
  }

  lemma OneEnded(k: Keys, now: int, done: seq<string>, id: string, r: Keys)
    requires EndedAll(k, now, done, r) && id !in done && Ends(k, now, id)
    ensures EndedAll(k, now, done + [id], EndGrant(r.(grants := r.grants[id := r.grants[id].(ended := true)]), now, r.grants[id], []))
  {
    var g := k.grants[id];
    assert r.grants[id] == g;
    var m := r.(grants := r.grants[id := g.(ended := true)]);
    EndsSo(m, now, g, []);
    var t := EndGrant(m, now, g, []);
    hide EndGrant, EndIs, Ends, EndsRecorded, AllMadeDue, Marked, MadeDue;
    assert (set sc | sc in g.keyScopes && sc !in []) == set sc | sc in g.keyScopes;
    OneMarked(k, done, id, r.grants);
    OneDue(k, now, done, id, r, t.due);
    OneRecorded(k, now, done, id, r.book.ends, t.book.ends);
  }

  lemma OneMarked(k: Keys, done: seq<string>, id: string, grants: map<string, Grant>)
    requires Marked(k, done, grants) && id !in done && id in k.grants
    ensures id in grants && Marked(k, done + [id], grants[id := k.grants[id].(ended := true)])
  {
  }

  lemma OneDue(k: Keys, now: int, done: seq<string>, id: string, r: Keys, due: map<string, int>)
    requires AllMadeDue(k, now, done, r.due) && id in k.grants && r.lastRotated == k.lastRotated && r.tRotate == k.tRotate
    requires MadeDue(r.(grants := r.grants[id := k.grants[id].(ended := true)]), now, (set sc | sc in k.grants[id].keyScopes), due)
    ensures AllMadeDue(k, now, done + [id], due)
  {
    hide LostAt;
    forall sc ensures LostAt(k, now, done + [id], sc) <==> LostAt(k, now, done, sc) || sc in k.grants[id].keyScopes { LostOneMore(k, now, done, id, sc); }
  }

  lemma OneRecorded(k: Keys, now: int, done: seq<string>, id: string, ends: seq<End>, more: seq<End>)
    requires EndsRecorded(k, now, done, ends) && id in k.grants && |more| == |ends| + 1 && more[..|ends|] == ends
    requires EndIs(more[|ends|], k.grants[id], (set sc | sc in k.grants[id].keyScopes), now)
    ensures EndsRecorded(k, now, done + [id], more)
  {
    hide EndIs;
    assert more[..|k.book.ends|] == ends[..|k.book.ends|];
    assert forall i :: 0 <= i < |ends| ==> more[i] == ends[i];
  }

  lemma LostOneMore(k: Keys, now: int, done: seq<string>, id: string, sc: string)
    requires id in k.grants
    ensures LostAt(k, now, done + [id], sc) <==> LostAt(k, now, done, sc) || sc in k.grants[id].keyScopes
  {
    if x :| x in done && x in k.grants && sc in k.grants[x].keyScopes { assert x in done + [id]; }
    if sc in k.grants[id].keyScopes { assert id in done + [id]; }
  }

  /** At an instant the grants with keys whose time has come end, by their ids, and then what is due turns. */
  ghost predicate InstantSo(k: Keys, now: int, s: Step) {
    exists ids: seq<string>, t: Keys :: EndingList(k, now, ids) && EndedAll(k, now, ids, t) && RotatedSo(t, now, s)
  }

  ghost predicate EndingList(k: Keys, now: int, ids: seq<string>) {
    (forall id :: id in ids <==> Ends(k, now, id)) && forall i, j :: 0 <= i < j < |ids| ==> Less(ids[i], ids[j])
  }

  lemma EndedTable(k: Keys, now: int, ids: seq<string>, t: Keys)
    requires EndedAll(k, now, ids, t) && TableOk(k)
    ensures TableOk(t) && t.exhausted == k.exhausted
  {
  }

  /** The grants that end, by their ids. */
  lemma EndingListed(k: Keys, now: int)
    ensures EndingList(k, now, EndingIn(k, now, Sorted(k.grants.Keys)))
  {
    hide Ends, Less;
    var all := Sorted(k.grants.Keys);
    SortedAscends(k.grants.Keys);
    EndingAscend(k, now, all);
    forall id | Ends(k, now, id) ensures id in all { EndsThere(k, now, id); }
  }

  lemma EndsAll(k: Keys, now: int) returns (ids: seq<string>)
    ensures EndingList(k, now, ids) && EndedAll(k, now, ids, ExpireEach(k, now, Sorted(k.grants.Keys)))
  {
    hide EndedAll, ExpireEach, EndingList, EndingIn, Less;
    var all := Sorted(k.grants.Keys);
    SortedAscends(k.grants.Keys);
    forall i, j | 0 <= i < j < |all| ensures all[i] != all[j] { LessTotal(all[i], all[j]); }
    ExpiresSo(k, now, all);
    EndingListed(k, now);
    ids := EndingIn(k, now, all);
  }

  lemma EveryInstantDoes(k: Keys, now: int)
    requires KeysOk(k, now) && !k.exhausted
    ensures InstantSo(k, now, AtInstant(k, now))
  {
    KeysAreOk(k, now);
    hide KeysOk, TableOk, EndedAll, RotatedSo, RotateDue, ExpireEach, EndingList;
    var ids := EndsAll(k, now);
    var t := ExpireEach(k, now, Sorted(k.grants.Keys));
    EndedTable(k, now, ids, t);
    RotatesSo(t, now);
    assert AtInstant(k, now) == RotateDue(t, now);
  }

  lemma EndsThere(k: Keys, now: int, id: string)
    requires Ends(k, now, id)
    ensures id in k.grants
  {
  }
}
