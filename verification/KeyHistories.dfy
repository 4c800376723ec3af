/**
 * What each request about grants does (`endpoint.ts`), and what holds of them over every run: a live grant with keys has those
 * in force, and a grant that once carried keys is on the table, in the chain of one that is, or among the ended.
 */
module KeyHistories {
  import opened Prelude
  import opened PresenceKeys
  import opened KeyTurns
  import C = EndpointClock
  import E = Endpoints

  // ---- every request

  /** A lower-case letter and then up to 63 letters, digits or hyphens. */
  predicate IsAudience(a: string) {
    && 0 < |a| < 65 && 'a' <= a[0] && a[0] <= 'z'
    && forall i :: 0 < i < |a| ==> ('a' <= a[i] && a[i] <= 'z') || ('0' <= a[i] && a[i] <= '9') || a[i] == '-'
  }

  predicate Unlike(audience: Option<string>) { audience.Some? && !IsAudience(audience.value) }

  predicate Refuses(k: Keys, why: string, s: Step) { s == Step(k, [KeyRefused(why)]) }

  /** Without the grant, its end recorded unless it had ended, with the scopes lost that are not kept. */
  ghost predicate Ended1(k: Keys, now: int, g: Grant, keep: seq<string>, t: Keys) {
    if g.ended then t == k
    else
      var lost := set sc | sc in g.keyScopes && sc !in keep;
      && t == k.(due := t.due, book := k.book.(ends := t.book.ends)) && MadeDue(k, now, lost, t.due)
      && |t.book.ends| == |k.book.ends| + 1 && t.book.ends[..|k.book.ends|] == k.book.ends && EndIs(t.book.ends[|k.book.ends|], g, lost, now)
  }

  lemma EndsOne(k: Keys, now: int, g: Grant, keep: seq<string>)
    ensures Ended1(k, now, g, keep, EndGrant(k, now, g, keep))
  {
    if !g.ended { EndsSo(k, now, g, keep); }
  }

  /** A grant following another: that is revoked with its whole chain, and what the new one does not carry is lost. */
  ghost predicate FollowsSo(k: Keys, now: int, q: Request, s: Step)
    requires q.Follow?
  {
    if q.followed !in k.grants || k.grants[q.followed].validUntil <= now then Refuses(k, "unknown-grant", s)
    else if Unlike(q.audience) then Refuses(k, "invalid-audience", s)
    else
      var prior := k.grants[q.followed];
      exists g: Grant, i: Step, e: Keys, r: Step :: FollowsBy(k, now, q, prior, g, i, e, r, s)
  }

  ghost predicate FollowsBy(k: Keys, now: int, q: Request, prior: Grant, g: Grant, i: Step, e: Keys, r: Step, s: Step)
    requires q.Follow?
  {
    && g == Grant(q.id, prior.grantee, q.scope, q.validUntil, q.audience, g.keyScopes, [], false)
    && IssuedSo(k.(grants := k.grants - {q.followed}), q.followed, g, i)
    && Ended1(i.k, now, prior, g.keyScopes, e) && RotatedSo(e, now, r)
    && s == Step(r.k, [RevokeSent([q.followed] + prior.chain)] + i.ops + r.ops)
  }

  /** A grant revoked, with its whole chain; every scope it carried is lost. */
  ghost predicate RevokesSo(k: Keys, now: int, id: string, s: Step) {
    if id !in k.grants then Refuses(k, "unknown-grant", s)
    else
      var g := k.grants[id];
      exists e: Keys, r: Step ::
        && Ended1(k.(grants := k.grants - {id}), now, g, [], e) && RotatedSo(e, now, r)
        && s == Step(r.k, [RevokeSent([id] + g.chain)] + r.ops)
  }

  /** A sibling's record: an epoch above our own becomes ours, and the grants it affects are followed. */
  ghost predicate AdoptsSo(k: Keys, now: int, scope: string, epoch: nat, s: Step) {
    if !k.configured || (scope in k.epochs && epoch <= k.epochs[scope]) then s == Step(k, [])
    else
      exists olds: seq<string>, f: Step ::
        && AffectedList(k, now, {scope}, olds) && FollowedSo(k.(epochs := k.epochs[scope := epoch]), olds, f)
        && s == Step(f.k, [KeySeen(scope, epoch)] + f.ops)
  }

  ghost predicate AnsweredSo(k: Keys, now: int, q: Request, s: Step) {
    match q
    case GrantIntro(session, grantee, id, scope, validUntil, audience) =>
      if Unlike(audience) then Refuses(k, "invalid-audience", s)
      else exists g: Grant :: g == Grant(id, grantee, scope, validUntil, audience, g.keyScopes, [], false) && IssuedSo(k, session, g, s)
    case Follow(_, _, _, _, _) => FollowsSo(k, now, q, s)
    case Revoke(id) => RevokesSo(k, now, id, s)
    case OwnRecord(scope, epoch) => AdoptsSo(k, now, scope, epoch, s)
  }

  lemma FollowsDone(k: Keys, now: int, q: Request)
    requires KeysOk(k, now) && !k.exhausted && q.Follow? && Fresh(k, q)
    ensures FollowsSo(k, now, q, Followed(k, now, q.followed, q.id, q.scope, q.validUntil, q.audience))
  {
    KeysAreOk(k, now);
    hide KeysOk, FollowsBy, TableOk;
    if q.followed in k.grants && k.grants[q.followed].validUntil > now && !Unlike(q.audience) {
      hide Followed;
      var g, i, e, r := FollowsByIs(k, now, q);
    }
  }

  lemma FollowsByIs(k: Keys, now: int, q: Request) returns (g: Grant, i: Step, e: Keys, r: Step)
    requires TableOk(k) && !k.exhausted && q.Follow? && Fresh(k, q)
    requires q.followed in k.grants && k.grants[q.followed].validUntil > now && !Unlike(q.audience)
    ensures FollowsBy(k, now, q, k.grants[q.followed], g, i, e, r, Followed(k, now, q.followed, q.id, q.scope, q.validUntil, q.audience))
  {
    hide IssuedSo, Ended1, RotatedSo, RotateDue, EndGrant, TableOk;
    var prior := k.grants[q.followed];
    var d := k.(grants := k.grants - {q.followed});
    g := IssuesSo(d, q.followed, prior.grantee, q.id, q.scope, q.validUntil, q.audience, []);
    i := Issue(d, q.followed, prior.grantee, q.id, q.scope, q.validUntil, q.audience, []);
    hide Issue;
    IssuedThere(d, q.followed, g, i);
    e := EndGrant(i.k, now, prior, g.keyScopes);
    EndsOne(i.k, now, prior, g.keyScopes);
    WithoutTable(k, q.followed);
    IssueTable(d, q.followed, g, i);
    EndTable(i.k, now, prior, g.keyScopes, e);
    r := RotateDue(e, now);
    RotatesSo(e, now);
  }

  lemma IssuedThere(k: Keys, session: string, g: Grant, i: Step)
    requires IssuedSo(k, session, g, i)
    ensures g.id in i.k.grants && i.k.grants[g.id] == g
  {
    hide ScopesSo, SentWith, OnRecord;
  }

  /** The table after a grant is issued under a new id. */
  lemma IssueTable(k: Keys, session: string, g: Grant, i: Step)
    requires TableOk(k) && IssuedSo(k, session, g, i) && g.id !in k.supply
    ensures TableOk(i.k) && i.k.exhausted == k.exhausted
  {
    hide ScopesSo, SentWith;
    assert forall x :: x in i.k.book.carried <==> x in i.k.book.carried.Keys;
    forall x | x in i.k.grants ensures ScopesSo(i.k, i.k.grants[x].scope, i.k.grants[x].audience, i.k.grants[x].keyScopes) {
      ScopesStill(k, i.k, i.k.grants[x]);
    }
  }

  lemma EndTable(k: Keys, now: int, g: Grant, keep: seq<string>, e: Keys)
    requires TableOk(k) && Ended1(k, now, g, keep, e)
    ensures TableOk(e) && e.exhausted == k.exhausted
  {
    hide MadeDue, EndIs;
  }

  lemma WithoutTable(k: Keys, id: string)
    requires TableOk(k)
    ensures TableOk(k.(grants := k.grants - {id}))
  {
  }

  lemma ScopesStill(k: Keys, t: Keys, g: Grant)
    requires t.configured == k.configured && t.sealed == k.sealed && ScopesSo(k, g.scope, g.audience, g.keyScopes)
    ensures ScopesSo(t, g.scope, g.audience, g.keyScopes)
  {
  }

  lemma RevokesDone(k: Keys, now: int, id: string)
    requires KeysOk(k, now) && !k.exhausted
    ensures RevokesSo(k, now, id, Revoked(k, now, id))
  {
    KeysAreOk(k, now);
    hide KeysOk, Ended1, RotatedSo, RotateDue, EndGrant, TableOk;
    if id in k.grants {
      var d := k.(grants := k.grants - {id});
      EndsOne(d, now, k.grants[id], []);
      WithoutTable(k, id);
      EndTable(d, now, k.grants[id], [], EndGrant(d, now, k.grants[id], []));
      RotatesSo(EndGrant(d, now, k.grants[id], []), now);
    }
  }

  lemma AdoptsDone(k: Keys, now: int, scope: string, epoch: nat)
    requires KeysOk(k, now) && !k.exhausted
    ensures AdoptsSo(k, now, scope, epoch, Adopted(k, now, scope, epoch))
  {
    KeysAreOk(k, now);
    hide KeysOk, TableOk, FollowedSo, Regrant, AffectedList;
    if k.configured && !(scope in k.epochs && epoch <= k.epochs[scope]) {
      var a := k.(epochs := k.epochs[scope := epoch]);
      AdoptTable(k, scope, epoch);
      var olds := RegrantSo(a, now, {scope});
      SameAffected(k, a, now, scope, olds);
      var f := Regrant(a, now, {scope});
      assert Adopted(k, now, scope, epoch) == Step(f.k, [KeySeen(scope, epoch)] + f.ops);
      hide Adopted;
    }
  }

  lemma AdoptTable(k: Keys, scope: string, epoch: nat)
    requires TableOk(k)
    ensures TableOk(k.(epochs := k.epochs[scope := epoch]))
  {
  }

  lemma SameAffected(k: Keys, a: Keys, now: int, scope: string, olds: seq<string>)
    requires a.grants == k.grants && AffectedList(a, now, {scope}, olds)
    ensures AffectedList(k, now, {scope}, olds)
  {
    assert forall id :: Affected(a, now, {scope}, id) <==> Affected(k, now, {scope}, id);
  }

  /** What every request does, while ids last. */
  lemma EveryRequestDoes(k: Keys, now: int, q: Request)
    requires KeysOk(k, now) && Fresh(k, q) && !k.exhausted
    ensures AnsweredSo(k, now, q, Answer(k, now, q))
  {
    hide KeysOk, FollowsSo, RevokesSo, AdoptsSo, Followed, Revoked, Adopted, IssuedSo, Issue;
    match q
    case GrantIntro(session, grantee, id, scope, validUntil, audience) =>
      var g := IssuesSo(k, session, grantee, id, scope, validUntil, audience, []);
    case Follow(_, _, _, _, _) => FollowsDone(k, now, q);
    case Revoke(id) => RevokesDone(k, now, id);
    case OwnRecord(scope, epoch) => AdoptsDone(k, now, scope, epoch);
  }

  // ---- what every run keeps

  /** Every live grant was sent with the keys in force. */
  ghost predicate InForce(k: Keys, now: int) {
    forall id :: id in k.grants && Live(k.grants[id], now) ==> OnRecord(k, k.grants[id], k.epochs)
  }

  ghost predicate AmongEnds(k: Keys, id: string) {
    exists i :: 0 <= i < |k.book.ends| && (k.book.ends[i].id == id || id in k.book.ends[i].chain)
  }

  ghost predicate OnTable(k: Keys, id: string) {
    exists x :: x in k.grants && (x == id || id in k.grants[x].chain)
  }

  /** Every grant ever issued is on the table, in the chain of one that is, or among the ended or the chain of one. */
  ghost predicate Accounted(k: Keys) {
    && (forall id :: id in k.book.carried ==> OnTable(k, id) || AmongEnds(k, id))
    && forall id :: id in k.grants && k.grants[id].ended ==> EndedAs(k, k.grants[id])
  }

  ghost predicate EndedAs(k: Keys, g: Grant) {
    exists i :: 0 <= i < |k.book.ends| && k.book.ends[i].id == g.id && k.book.ends[i].chain == g.chain
  }

  lemma IssueInForce(k: Keys, now: int, session: string, g: Grant, i: Step)
    requires TableOk(k) && InForce(k, now) && IssuedSo(k, session, g, i) && g.id !in k.book.carried
    ensures InForce(i.k, now)
  {
    hide ScopesSo, SentWith;
    forall id | id in i.k.grants && Live(i.k.grants[id], now) ensures OnRecord(i.k, i.k.grants[id], i.k.epochs) {
      if id != g.id { assert OnRecord(k, k.grants[id], k.epochs); }
    }
  }

  lemma EndInForce(k: Keys, now: int, g: Grant, keep: seq<string>, e: Keys)
    requires InForce(k, now) && Ended1(k, now, g, keep, e)
    ensures InForce(e, now)
  {
    hide MadeDue, EndIs;
    forall id | id in e.grants && Live(e.grants[id], now) ensures OnRecord(e, e.grants[id], e.epochs) { assert OnRecord(k, k.grants[id], k.epochs); }
  }

  lemma MarkInForce(k: Keys, now: int, ids: seq<string>, t: Keys)
    requires InForce(k, now) && EndedAll(k, now, ids, t)
    ensures InForce(t, now)
  {
    hide AllMadeDue, EndsRecorded;
    forall id | id in t.grants && Live(t.grants[id], now) ensures OnRecord(t, t.grants[id], t.epochs) { assert OnRecord(k, k.grants[id], k.epochs); }
  }

  /** Where only some scopes have other epochs than were sent, following the grants they affect puts all in force. */
  lemma FollowInForce(k: Keys, now: int, scopes: set<string>, olds: seq<string>, f: Step)
    requires TableOk(k) && AffectedList(k, now, scopes, olds) && FollowedSo(k, olds, f) && !f.k.exhausted
    requires forall id :: id in k.grants && Live(k.grants[id], now) && !Affected(k, now, scopes, id) ==> OnRecord(k, k.grants[id], k.epochs)
    ensures InForce(f.k, now)
  {
    hide ScopesSo, SentWith, Affected;
    assert olds[..|olds|] == olds;
    forall id | id in f.k.grants && Live(f.k.grants[id], now) ensures OnRecord(f.k, f.k.grants[id], f.k.epochs) {
      if id in k.supply[..|olds|] {
        var i :| 0 <= i < |olds| && k.supply[i] == id;
        assert FollowedBy(k, olds[i], k.supply[..|olds|][i], f.k, f.ops[i]);
      } else {
        assert OnRecord(k, k.grants[id], k.epochs);
      }
    }
  }

  lemma RotateInForce(k: Keys, now: int, s: Step)
    requires TableOk(k) && InForce(k, now) && RotatedSo(k, now, s) && !s.k.exhausted
    ensures InForce(s.k, now)
  {
    hide FollowedSo, AffectedList, TurnsTold, TurnOrder, TableOk, DueBy, Turned, InForce;
    var scopes: set<string>, order: seq<string>, mid: Step, olds: seq<string>, f: Step :|
      && DueBy(k, now, scopes) && TurnOrder(order, scopes) && Turned(k, now, order, mid.k) && TurnsTold(k, now, order, mid)
      && AffectedList(mid.k, now, scopes, olds) && FollowedSo(mid.k, olds, f) && s == Step(f.k, mid.ops + f.ops);
    TurnedTable(k, now, order, mid.k);
    forall id | id in mid.k.grants && Live(mid.k.grants[id], now) && !Affected(mid.k, now, scopes, id) ensures OnRecord(mid.k, mid.k.grants[id], mid.k.epochs) {
      Unaffected(k, now, scopes, order, mid.k, id);
    }
    FollowInForce(mid.k, now, scopes, olds, f);
  }

  lemma Unaffected(k: Keys, now: int, scopes: set<string>, order: seq<string>, t: Keys, id: string)
    requires InForce(k, now) && Turned(k, now, order, t) && TurnOrder(order, scopes) && id in t.grants && Live(t.grants[id], now) && !Affected(t, now, scopes, id)
    ensures OnRecord(t, t.grants[id], t.epochs)
  {
    hide NextEpoch, Less;
    assert OnRecord(k, k.grants[id], k.epochs);
  }

  lemma FollowsInForce(k: Keys, now: int, q: Request, s: Step)
    requires TableOk(k) && InForce(k, now) && q.Follow? && q.id !in k.book.carried && q.id !in k.supply && FollowsSo(k, now, q, s)
    ensures s.k.exhausted || InForce(s.k, now)
  {
    hide InForce, TableOk, IssuedSo, Ended1, RotatedSo;
    if q.followed in k.grants && k.grants[q.followed].validUntil > now && !Unlike(q.audience) {
      var prior := k.grants[q.followed];
      var g: Grant, i: Step, e: Keys, r: Step :| FollowsBy(k, now, q, prior, g, i, e, r, s);
      WithoutTable(k, q.followed);
      WithoutInForce(k, now, q.followed);
      var d := k.(grants := k.grants - {q.followed});
      IssueTable(d, q.followed, g, i);
      IssueInForce(d, now, q.followed, g, i);
      EndTable(i.k, now, prior, g.keyScopes, e);
      EndInForce(i.k, now, prior, g.keyScopes, e);
      if !r.k.exhausted { RotateInForce(e, now, r); }
    }
  }

  lemma RevokesInForce(k: Keys, now: int, id: string, s: Step)
    requires TableOk(k) && InForce(k, now) && RevokesSo(k, now, id, s)
    ensures s.k.exhausted || InForce(s.k, now)
  {
    hide InForce, TableOk, Ended1, RotatedSo;
    if id in k.grants {
      var g := k.grants[id];
      var e: Keys, r: Step :| Ended1(k.(grants := k.grants - {id}), now, g, [], e) && RotatedSo(e, now, r)
                              && s == Step(r.k, [RevokeSent([id] + g.chain)] + r.ops);
      WithoutTable(k, id);
      WithoutInForce(k, now, id);
      var d := k.(grants := k.grants - {id});
      EndTable(d, now, g, [], e);
      EndInForce(d, now, g, [], e);
      if !r.k.exhausted { RotateInForce(e, now, r); }
    }
  }

  lemma AnswerInForce(k: Keys, now: int, q: Request)
    requires KeysOk(k, now) && Fresh(k, q) && !k.exhausted && InForce(k, now)
    ensures var t := Answer(k, now, q).k; t.exhausted || InForce(t, now)
  {
    EveryRequestDoes(k, now, q);
    KeysAreOk(k, now);
    var s := Answer(k, now, q);
    hide KeysOk, Answer, InForce, TableOk, IssuedSo, FollowsSo, RevokesSo, AdoptsSo;
    match q
    case GrantIntro(session, grantee, id, scope, validUntil, audience) =>
      if !Unlike(audience) {
        var g: Grant :| g == Grant(id, grantee, scope, validUntil, audience, g.keyScopes, [], false) && IssuedSo(k, session, g, s);
        IssueInForce(k, now, session, g, s);
      }
    case Follow(_, _, _, _, _) => FollowsInForce(k, now, q, s);
    case Revoke(id) => RevokesInForce(k, now, id, s);
    case OwnRecord(scope, epoch) => AdoptInForce(k, now, scope, epoch, s);
  }

  lemma WithoutInForce(k: Keys, now: int, id: string)
    requires InForce(k, now)
    ensures InForce(k.(grants := k.grants - {id}), now)
  {
    var d := k.(grants := k.grants - {id});
    forall x | x in d.grants && Live(d.grants[x], now) ensures OnRecord(d, d.grants[x], d.epochs) { assert OnRecord(k, k.grants[x], k.epochs); }
  }

  lemma AdoptInForce(k: Keys, now: int, scope: string, epoch: nat, s: Step)
    requires TableOk(k) && InForce(k, now) && AdoptsSo(k, now, scope, epoch, s)
    ensures s.k.exhausted || InForce(s.k, now)
  {
    hide FollowedSo, TableOk, AffectedList, InForce;
    if k.configured && !(scope in k.epochs && epoch <= k.epochs[scope]) {
      var a := k.(epochs := k.epochs[scope := epoch]);
      var olds: seq<string>, f: Step :| AffectedList(k, now, {scope}, olds) && FollowedSo(a, olds, f) && s == Step(f.k, [KeySeen(scope, epoch)] + f.ops);
      AdoptTable(k, scope, epoch);
      SameAffected(a, k, now, scope, olds);
      forall id | id in a.grants && Live(a.grants[id], now) && !Affected(a, now, {scope}, id) ensures OnRecord(a, a.grants[id], a.epochs) {
        UnaffectedAdopt(k, now, scope, epoch, id);
      }
      if !f.k.exhausted { FollowInForce(a, now, {scope}, olds, f); }
    }
  }

  lemma UnaffectedAdopt(k: Keys, now: int, scope: string, epoch: nat, id: string)
    requires InForce(k, now) && id in k.grants && Live(k.grants[id], now) && !Affected(k.(epochs := k.epochs[scope := epoch]), now, {scope}, id)
    ensures var a := k.(epochs := k.epochs[scope := epoch]); OnRecord(a, a.grants[id], a.epochs)
  {
    assert OnRecord(k, k.grants[id], k.epochs);
  }

  lemma InstantInForce(k: Keys, now: int)
    requires KeysOk(k, now) && !k.exhausted && InForce(k, now)
    ensures var t := AtInstant(k, now).k; t.exhausted || InForce(t, now)
  {
    EveryInstantDoes(k, now);
    KeysAreOk(k, now);
    var s := AtInstant(k, now);
    hide KeysOk, AtInstant, InForce, TableOk, EndingList, EndedAll, RotatedSo;
    var ids: seq<string>, t: Keys :| EndingList(k, now, ids) && EndedAll(k, now, ids, t) && RotatedSo(t, now, s);
    EndedTable(k, now, ids, t);
    MarkInForce(k, now, ids, t);
    if !s.k.exhausted { RotateInForce(t, now, s); }
  }

  // ---- and where every grant went

  lemma IssueAccounted(k: Keys, session: string, g: Grant, i: Step)
    requires TableOk(k) && Accounted(k) && IssuedSo(k, session, g, i) && g.id !in k.book.carried
    ensures Accounted(i.k)
  {
    hide ScopesSo, SentWith, OnRecord;
    assert forall x :: x in i.k.book.carried <==> x in i.k.book.carried.Keys;
    forall id | id in i.k.book.carried ensures OnTable(i.k, id) || AmongEnds(i.k, id) {
      if id == g.id {
        assert id in i.k.grants;
      } else {
        assert OnTable(k, id) || AmongEnds(k, id);
        if x :| x in k.grants && (x == id || id in k.grants[x].chain) { assert i.k.grants[x] == k.grants[x]; }
      }
    }
    forall id | id in i.k.grants && i.k.grants[id].ended ensures EndedAs(i.k, i.k.grants[id]) { assert EndedAs(k, k.grants[id]); }
  }

  /** Taken off the table and its end recorded, a grant and its chain are among the ended. */
  lemma EndAccounted(k: Keys, now: int, g: Grant, keep: seq<string>, d: Keys, e: Keys)
    requires Accounted(k) && g.id in k.grants && k.grants[g.id] == g && TableOk(k)
    requires d.book == k.book || (d.book.ends == k.book.ends && forall id :: id in d.book.carried ==> id in k.book.carried || id in d.grants)
    requires (forall id :: id in k.grants && id != g.id ==> id in d.grants && d.grants[id] == k.grants[id])
    requires forall id :: id in d.grants && id !in k.grants ==> !d.grants[id].ended
    requires g.id !in d.grants && Ended1(d, now, g, keep, e)
    ensures Accounted(e)
  {
    hide MadeDue, ScopesSo;
    assert AmongEnds(e, g.id) && forall c :: c in g.chain ==> AmongEnds(e, c) by {
      if g.ended {
        assert EndedAs(k, g);
        var i :| 0 <= i < |k.book.ends| && k.book.ends[i].id == g.id && k.book.ends[i].chain == g.chain;
        assert e.book.ends[i].id == g.id;
        forall c | c in g.chain ensures AmongEnds(e, c) { assert c in e.book.ends[i].chain; }
      } else {
        var n := |d.book.ends|;
        assert e.book.ends[n].id == g.id;
        forall c | c in g.chain ensures AmongEnds(e, c) { assert c in e.book.ends[n].chain; }
      }
    }
    forall id | id in e.book.carried ensures OnTable(e, id) || AmongEnds(e, id) {
      if id in k.book.carried { StillAccounted(k, g, e, id); } else { assert id in e.grants; }
    }
    forall id | id in e.grants && e.grants[id].ended ensures EndedAs(e, e.grants[id]) {
      assert EndedAs(k, k.grants[id]);
      var i :| 0 <= i < |k.book.ends| && k.book.ends[i].id == k.grants[id].id && k.book.ends[i].chain == k.grants[id].chain;
      assert e.book.ends[i] == k.book.ends[i];
    }
  }

  lemma StillAccounted(k: Keys, g: Grant, e: Keys, id: string)
    requires OnTable(k, id) || AmongEnds(k, id)
    requires |k.book.ends| <= |e.book.ends| && e.book.ends[..|k.book.ends|] == k.book.ends
    requires forall x :: x in k.grants && x != g.id ==> x in e.grants && e.grants[x] == k.grants[x]
    requires g.id in k.grants ==> k.grants[g.id] == g && AmongEnds(e, g.id) && forall c :: c in g.chain ==> AmongEnds(e, c)
    ensures OnTable(e, id) || AmongEnds(e, id)
  {
    if x :| x in k.grants && (x == id || id in k.grants[x].chain) {
      if x != g.id { assert x in e.grants; }
    } else {
      var i :| 0 <= i < |k.book.ends| && (k.book.ends[i].id == id || id in k.book.ends[i].chain);
      assert e.book.ends[i] == k.book.ends[i];
    }
  }

  lemma MarkAccounted(k: Keys, now: int, ids: seq<string>, t: Keys)
    requires Accounted(k) && EndedAll(k, now, ids, t) && forall id :: id in k.grants ==> k.grants[id].id == id
    ensures Accounted(t)
  {
    hide AllMadeDue;
    forall id | id in t.book.carried ensures OnTable(t, id) || AmongEnds(t, id) {
      assert OnTable(k, id) || AmongEnds(k, id);
      if x :| x in k.grants && (x == id || id in k.grants[x].chain) {
        assert t.grants[x].chain == k.grants[x].chain;
      } else {
        var i :| 0 <= i < |k.book.ends| && (k.book.ends[i].id == id || id in k.book.ends[i].chain);
        assert t.book.ends[i] == k.book.ends[i];
      }
    }
    forall id | id in t.grants && t.grants[id].ended ensures EndedAs(t, t.grants[id]) {
      if id in ids {
        var i :| 0 <= i < |ids| && ids[i] == id;
        assert t.book.ends[|k.book.ends| + i].id == id;
      } else {
        assert EndedAs(k, k.grants[id]);
        var i :| 0 <= i < |k.book.ends| && k.book.ends[i].id == k.grants[id].id && k.book.ends[i].chain == k.grants[id].chain;
        assert t.book.ends[i] == k.book.ends[i];
      }
    }
  }

  lemma FollowAccounted(k: Keys, olds: seq<string>, f: Step)
    requires TableOk(k) && Accounted(k) && FollowedSo(k, olds, f) && forall x :: x in olds ==> x in k.grants
    ensures Accounted(f.k)
  {
    hide ScopesSo, SentWith, OnRecord;
    var n := if |olds| <= |k.supply| then |olds| else |k.supply|;
    forall id | id in f.k.book.carried ensures OnTable(f.k, id) || AmongEnds(f.k, id) {
      if id in k.book.carried {
        assert OnTable(k, id) || AmongEnds(k, id);
        if x :| x in k.grants && (x == id || id in k.grants[x].chain) {
          if x in olds[..n] {
            var i :| 0 <= i < n && olds[..n][i] == x;
            assert FollowedBy(k, olds[..n][i], k.supply[..n][i], f.k, f.ops[i]);
            assert id in f.k.grants[k.supply[..n][i]].chain;
          } else {
            assert x in f.k.grants && f.k.grants[x] == k.grants[x];
          }
        }
      } else {
        assert id in k.supply[..n] && id in f.k.grants;
      }
    }
    forall id | id in k.supply[..n] ensures id in f.k.grants && !f.k.grants[id].ended {
      var i :| 0 <= i < n && k.supply[..n][i] == id;
      assert FollowedBy(k, olds[..n][i], k.supply[..n][i], f.k, f.ops[i]);
    }
    forall id | id in f.k.grants && f.k.grants[id].ended ensures EndedAs(f.k, f.k.grants[id]) {
      assert f.k.grants[id] == k.grants[id] && EndedAs(k, k.grants[id]);
    }
  }

  lemma RotateAccounted(k: Keys, now: int, s: Step)
    requires TableOk(k) && Accounted(k) && RotatedSo(k, now, s)
    ensures Accounted(s.k)
  {
    hide FollowedSo, TurnsTold, TurnOrder, TableOk, DueBy, Affected, Accounted;
    var scopes: set<string>, order: seq<string>, mid: Step, olds: seq<string>, f: Step :|
      && DueBy(k, now, scopes) && TurnOrder(order, scopes) && Turned(k, now, order, mid.k) && TurnsTold(k, now, order, mid)
      && AffectedList(mid.k, now, scopes, olds) && FollowedSo(mid.k, olds, f) && s == Step(f.k, mid.ops + f.ops);
    TurnedTable(k, now, order, mid.k);
    SameAccounted(k, mid.k);
    forall x | x in olds ensures x in mid.k.grants { AffectedIn1(mid.k, now, scopes, x); }
    FollowAccounted(mid.k, olds, f);
  }

  lemma SameAccounted(k: Keys, t: Keys)
    requires Accounted(k) && t.grants == k.grants && t.book.carried == k.book.carried && t.book.ends == k.book.ends
    ensures Accounted(t)
  {
    forall id | id in t.book.carried ensures OnTable(t, id) || AmongEnds(t, id) { assert OnTable(k, id) || AmongEnds(k, id); }
    forall id | id in t.grants && t.grants[id].ended ensures EndedAs(t, t.grants[id]) { assert EndedAs(k, k.grants[id]); }
  }

  lemma InstantAccounted(k: Keys, now: int)
    requires KeysOk(k, now) && !k.exhausted && Accounted(k)
    ensures Accounted(AtInstant(k, now).k)
  {
    EveryInstantDoes(k, now);
    KeysAreOk(k, now);
    var s := AtInstant(k, now);
    hide KeysOk, AtInstant, Accounted, EndingList, EndedAll, RotatedSo, ScopesSo;
    var ids: seq<string>, t: Keys :| EndingList(k, now, ids) && EndedAll(k, now, ids, t) && RotatedSo(t, now, s);
    EndedTable(k, now, ids, t);
    MarkAccounted(k, now, ids, t);
    RotateAccounted(t, now, s);
  }

  lemma FollowsAccounted(k: Keys, now: int, q: Request, s: Step)
    requires TableOk(k) && Accounted(k) && q.Follow? && q.id !in k.book.carried && q.id !in k.supply && FollowsSo(k, now, q, s)
    ensures Accounted(s.k)
  {
    hide Accounted, TableOk, IssuedSo, Ended1, RotatedSo;
    if q.followed in k.grants && k.grants[q.followed].validUntil > now && !Unlike(q.audience) {
      var prior := k.grants[q.followed];
      var g: Grant, i: Step, e: Keys, r: Step :| FollowsBy(k, now, q, prior, g, i, e, r, s);
      WithoutTable(k, q.followed);
      IssueTable(k.(grants := k.grants - {q.followed}), q.followed, g, i);
      EndTable(i.k, now, prior, g.keyScopes, e);
      FollowedAccounted(k, now, q.followed, g, i, e);
      RotateAccounted(e, now, r);
    }
  }

  lemma RevokesAccounted(k: Keys, now: int, id: string, s: Step)
    requires TableOk(k) && Accounted(k) && RevokesSo(k, now, id, s)
    ensures Accounted(s.k)
  {
    hide Accounted, TableOk, Ended1, RotatedSo;
    if id in k.grants {
      var g := k.grants[id];
      var e: Keys, r: Step :| Ended1(k.(grants := k.grants - {id}), now, g, [], e) && RotatedSo(e, now, r)
                              && s == Step(r.k, [RevokeSent([id] + g.chain)] + r.ops);
      WithoutTable(k, id);
      EndTable(k.(grants := k.grants - {id}), now, g, [], e);
      TableIds(k, id);
      EndAccounted(k, now, g, [], k.(grants := k.grants - {id}), e);
      RotateAccounted(e, now, r);
    }
  }

  lemma AdoptsAccounted(k: Keys, now: int, scope: string, epoch: nat, s: Step)
    requires TableOk(k) && Accounted(k) && AdoptsSo(k, now, scope, epoch, s)
    ensures Accounted(s.k)
  {
    hide Accounted, TableOk, FollowedSo, Affected;
    if k.configured && !(scope in k.epochs && epoch <= k.epochs[scope]) {
      var a := k.(epochs := k.epochs[scope := epoch]);
      var olds: seq<string>, f: Step :| AffectedList(k, now, {scope}, olds) && FollowedSo(a, olds, f) && s == Step(f.k, [KeySeen(scope, epoch)] + f.ops);
      AdoptTable(k, scope, epoch);
      SameAccounted(k, a);
      forall x | x in olds ensures x in k.grants { AffectedIn1(k, now, {scope}, x); }
      FollowAccounted(a, olds, f);
    }
  }

  lemma AnswerAccounted(k: Keys, now: int, q: Request)
    requires KeysOk(k, now) && Fresh(k, q) && !k.exhausted && Accounted(k)
    ensures Accounted(Answer(k, now, q).k)
  {
    EveryRequestDoes(k, now, q);
    KeysAreOk(k, now);
    var s := Answer(k, now, q);
    hide KeysOk, Answer, Accounted, TableOk, IssuedSo, FollowsSo, RevokesSo, AdoptsSo;
    match q
    case GrantIntro(session, grantee, id, scope, validUntil, audience) =>
      if !Unlike(audience) {
        var g: Grant :| g == Grant(id, grantee, scope, validUntil, audience, g.keyScopes, [], false) && IssuedSo(k, session, g, s);
        IssueAccounted(k, session, g, s);
      }
    case Follow(_, _, _, _, _) => FollowsAccounted(k, now, q, s);
    case Revoke(id) => RevokesAccounted(k, now, id, s);
    case OwnRecord(scope, epoch) => AdoptsAccounted(k, now, scope, epoch, s);
  }

  lemma TableIds(k: Keys, id: string)
    requires TableOk(k) && id in k.grants
    ensures k.grants[id].id == id && id in k.book.carried
  {
  }

  lemma FollowedAccounted(k: Keys, now: int, followed: string, g: Grant, i: Step, e: Keys)
    requires TableOk(k) && Accounted(k) && followed in k.grants && g.id !in k.book.carried && !g.ended
    requires IssuedSo(k.(grants := k.grants - {followed}), followed, g, i) && Ended1(i.k, now, k.grants[followed], g.keyScopes, e)
    ensures Accounted(e)
  {
    TableIds(k, followed);
    hide ScopesSo, SentWith, OnRecord, Ended1, Accounted;
    assert forall x :: x in i.k.book.carried <==> x in i.k.book.carried.Keys;
    assert g.id !in k.grants;
    EndAccounted(k, now, k.grants[followed], g.keyScopes, i.k, e);
  }

  // ---- over every run

  /** Every grant is accounted for, and unless the ids have run out every live one was sent with the keys in force. */
  ghost predicate GrantsRight(k: Keys, now: int) { Accounted(k) && (k.exhausted || InForce(k, now)) }

  lemma LaterInForce(k: Keys, now: int, later: int)
    requires InForce(k, now) && now <= later
    ensures InForce(k, later)
  {
    forall id | id in k.grants && Live(k.grants[id], later) ensures OnRecord(k, k.grants[id], k.epochs) { assert Live(k.grants[id], now); }
  }

  lemma InstantRight(e: E.Endpoint, i: int)
    requires C.EndpointOk(e) && !e.keys.exhausted && GrantsRight(e.keys, e.timers.now)
    ensures var f := C.Instant(e, i).e; GrantsRight(f.keys, f.timers.now)
  {
    var now := if e.timers.now <= i then i else e.timers.now;
    LaterKeeps(e.keys, e.timers.now, now);
    LaterInForce(e.keys, e.timers.now, now);
    C.AtKeeps(e, now);
    hide KeysOk, InForce, Accounted, E.CallsOk, AtInstant;
    InstantAccounted(e.keys, now);
    InstantInForce(e.keys, now);
    assert C.FireAll(C.At(e, now)).e.keys == e.keys;
  }

  lemma {:induction false} RunToRight(e: E.Endpoint, target: int)
    requires C.EndpointOk(e) && e.timers.now <= target && GrantsRight(e.keys, e.timers.now)
    ensures var f := C.RunTo(e, target).e; GrantsRight(f.keys, f.timers.now)
    decreases |C.GrantsLeft(e.keys, target)|, |C.DuesLeft(e.keys, target)| + |C.TimersLeft(e.timers, target)|
  {
    hide E.CallsOk, KeysOk, InForce, Accounted, C.Instant;
    if !e.keys.exhausted {
      if C.HasWork(e, target) {
        var i := C.LeastInt(C.Instants(e));
        C.InstantKeeps(e, i);
        C.InstantShrinks(e, i, target);
        InstantRight(e, i);
        RunToRight(C.Instant(e, i).e, target);
      } else {
        LaterInForce(e.keys, e.timers.now, target);
      }
    }
  }

  lemma StepRight(e: E.Endpoint, ev: C.Event)
    requires C.Reached(e) && C.Allowed(e, ev) && GrantsRight(e.keys, e.timers.now)
    ensures var f := C.Step(e, ev).e; GrantsRight(f.keys, f.timers.now)
  {
    hide E.CallsOk, KeysOk, InForce, Accounted, Answer, C.RunTo, E.OnInvite, E.OnMessage, E.OnLocal, E.OnPlaceCall;
    if !e.keys.exhausted {
      match ev
      case Advance(seconds) => RunToRight(e, e.timers.now + seconds);
      case Recv(m) => if m.body.Invite? { E.InviteSame(e, m); } else { E.MessageKeeps(e, m); }
      case Local(id, v) => E.LocalKeeps(e, id, v);
      case PlaceCall(id, to) => E.PlaceCallKeeps(e, id, to);
      case KeyRequest(q) =>
        AnswerAccounted(e.keys, e.timers.now, q);
        AnswerInForce(e.keys, e.timers.now, q);
    }
  }

  /** In every run, every grant ever sent is accounted for, and every live one was sent with the keys in force. */
  lemma {:induction false} EveryGrantIsRight(e: E.Endpoint, evs: seq<C.Event>)
    requires C.Reached(e) && C.Legal(e, evs) && GrantsRight(e.keys, e.timers.now)
    ensures GrantsRight(C.Run(e, evs).keys, C.Run(e, evs).timers.now)
    decreases |evs|
  {
    hide GrantsRight, C.Step, C.EndpointOk, C.Allowed;
    if evs != [] {
      C.StepKeeps(e, evs[0]);
      StepRight(e, evs[0]);
      EveryGrantIsRight(C.Step(e, evs[0]).e, evs[1..]);
    }
  }
}
