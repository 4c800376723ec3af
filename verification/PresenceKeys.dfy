/**
 * Grants issued with presence keys, and the rotation of those keys (`endpoint.ts`): a keyed grant that ends
 * makes the scopes it carried due, a due scope rotates to a new epoch, and every live grant carrying a
 * rotated scope is followed by one with the current keys.
 */
module PresenceKeys {
  import opened Prelude

  /** Epochs are JavaScript numbers: exact below 2^53. */
  const EXACT := 0x20_0000_0000_0000

  /** `epoch + 1` in double precision, round-to-even above 2^53. */
  function NextEpoch(e: nat): (n: nat)
    ensures e <= n
    ensures e < EXACT ==> n == e + 1
  {
    if e < EXACT then e + 1
    else if e < 2 * EXACT && e % 4 == 2 then e + 2
    else e
  }

  /** The number after an epoch is another double: below 2^53, and now and then up to 2^54. */
  predicate Raises(e: nat) { e < NextEpoch(e) }

  datatype Grant = Grant(
    id: string,
    grantee: string,
    scope: seq<string>,
    validUntil: int,
    audience: Option<string>,
    keyScopes: seq<string>,
    chain: seq<string>,
    ended: bool)

  datatype KeyOp =
    | GrantSent(session: string, grantee: string, id: string, purposes: seq<string>, validUntil: int, audience: Option<string>,
                keys: seq<(string, nat)>)
    | KeyRotated(scope: string, epoch: nat)
    | KeySeen(scope: string, epoch: nat)
    | RevokeSent(ids: seq<string>)
    | KeyRefused(why: string)

  /** One grant's end: when, which chain it headed, and the scopes no following grant kept. */
  datatype End = End(id: string, chain: seq<string>, lost: seq<string>, at: int)

  datatype Turn = Turn(scope: string, at: int)

  /** What has happened: the epochs each grant ever carried, the ends, and this endpoint's own rotations. */
  datatype Book = Book(carried: map<string, map<string, nat>>, ends: seq<End>, turns: seq<Turn>)

  datatype Keys = Keys(
    configured: bool,
    sealed: set<string>,
    tRotate: nat,
    grants: map<string, Grant>,
    epochs: map<string, nat>,
    lastRotated: map<string, int>,
    due: map<string, int>,
    supply: seq<string>,
    exhausted: bool,
    book: Book)

  datatype Step = Step(k: Keys, ops: seq<KeyOp>)

  // ---- issuing

  function KeyScopes(configured: bool, sealed: set<string>, scope: seq<string>, audience: Option<string>): seq<string> {
    var keyed := configured && "dsip.subscribe" in scope
                 && ("main" in sealed || (audience.Some? && audience.value in sealed));
    if !keyed then []
    else ["main"] + (match audience case Some(a) => [a] case None => [])
  }

  /** Scopes without an epoch start at 0. */
  function WithEpochs(epochs: map<string, nat>, scopes: seq<string>): (r: map<string, nat>)
    ensures forall sc :: sc in epochs ==> sc in r && r[sc] == epochs[sc]
    ensures forall sc :: sc in scopes ==> sc in r
    ensures forall sc :: sc in r ==> sc in epochs || (sc in scopes && r[sc] == 0)
  {
    if scopes == [] then epochs
    else
      var m := WithEpochs(epochs, scopes[..|scopes| - 1]);
      var sc := scopes[|scopes| - 1];
      if sc in m then m else m[sc := 0]
  }

  function Carried(epochs: map<string, nat>, scopes: seq<string>): map<string, nat> {
    map sc | sc in scopes && sc in epochs :: epochs[sc]
  }

  function KeyList(epochs: map<string, nat>, scopes: seq<string>): seq<(string, nat)>
    requires forall sc :: sc in scopes ==> sc in epochs
  {
    seq(|scopes|, i requires 0 <= i < |scopes| => (scopes[i], epochs[scopes[i]]))
  }

  function Issue(k: Keys, session: string, grantee: string, id: string, scope: seq<string>, validUntil: int,
                 audience: Option<string>, chain: seq<string>): Step
  {
    var scopes := KeyScopes(k.configured, k.sealed, scope, audience);
    var epochs := WithEpochs(k.epochs, scopes);
    Step(k.(epochs := epochs,
            grants := k.grants[id := Grant(id, grantee, scope, validUntil, audience, scopes, chain, false)],
            book := k.book.(carried := k.book.carried[id := Carried(epochs, scopes)])),
         [GrantSent(session, grantee, id, scope, validUntil, audience, KeyList(epochs, scopes))])
  }

  // ---- ending and rotating

  function DueAt(k: Keys, now: int, sc: string): int {
    if sc in k.lastRotated && now < k.lastRotated[sc] + k.tRotate then k.lastRotated[sc] + k.tRotate else now
  }

  /** The scopes of `scopes` not kept become due, once each. */
  function MakeDue(k: Keys, now: int, scopes: seq<string>, keep: seq<string>): (due: map<string, int>)
    ensures forall sc :: sc in k.due ==> sc in due && due[sc] == k.due[sc]
    ensures forall sc :: sc in scopes && sc !in keep ==> sc in due
    ensures forall sc :: sc in due ==> sc in k.due || (sc in scopes && sc !in keep && due[sc] == DueAt(k, now, sc))
  {
    if scopes == [] then k.due
    else
      var due := MakeDue(k, now, scopes[..|scopes| - 1], keep);
      var sc := scopes[|scopes| - 1];
      if sc in keep || sc in due then due else due[sc := DueAt(k, now, sc)]
  }

  function Lost(scopes: seq<string>, keep: seq<string>): (r: seq<string>)
    ensures forall sc :: sc in r <==> sc in scopes && sc !in keep
  {
    if scopes == [] then []
    else Lost(scopes[..|scopes| - 1], keep)
         + if scopes[|scopes| - 1] in keep then [] else [scopes[|scopes| - 1]]
  }

  /** `endGrant` for a grant no longer in the table, or whose entry the caller marks ended. */
  function EndGrant(k: Keys, now: int, g: Grant, keep: seq<string>): Keys {
    if g.ended then k
    else k.(due := MakeDue(k, now, g.keyScopes, keep),
            book := k.book.(ends := k.book.ends + [End(g.id, g.chain, Lost(g.keyScopes, keep), now)]))
  }

  ghost function MainFirst(s: set<string>): (r: seq<string>)
    ensures forall x :: x in r <==> x in s
  {
    if "main" in s then ["main"] + Sorted(s - {"main"}) else Sorted(s)
  }

  function RotateOne(k: Keys, now: int, sc: string): Keys {
    k.(due := k.due - {sc},
       epochs := k.epochs[sc := NextEpoch(if sc in k.epochs then k.epochs[sc] else 0)],
       lastRotated := k.lastRotated[sc := now],
       book := k.book.(turns := k.book.turns + [Turn(sc, now)]))
  }

  function RotateEach(k: Keys, now: int, scopes: seq<string>): Step {
    if scopes == [] then Step(k, [])
    else
      var r := RotateEach(k, now, scopes[..|scopes| - 1]);
      var sc := scopes[|scopes| - 1];
      var k' := RotateOne(r.k, now, sc);
      Step(k', r.ops + [KeyRotated(sc, k'.epochs[sc])])
  }

  predicate Carries(g: Grant, scopes: set<string>) {
    exists sc :: sc in g.keyScopes && sc in scopes
  }

  /** One live grant followed by one with the current keys; the old one heads the new one's chain. */
  function RegrantOne(k: Keys, now: int, scopes: set<string>, id: string): Step {
    if k.exhausted || id !in k.grants then Step(k, [])
    else
      var g := k.grants[id];
      if g.validUntil <= now || !Carries(g, scopes) then Step(k, [])
      else if k.supply == [] then Step(k.(exhausted := true), [])
      else Issue(k.(grants := k.grants - {id}, supply := k.supply[1..]), id, g.grantee, k.supply[0], g.scope,
                 g.validUntil, g.audience, [id] + g.chain)
  }

  function RegrantEach(k: Keys, now: int, scopes: set<string>, ids: seq<string>): Step {
    if ids == [] then Step(k, [])
    else
      var r := RegrantEach(k, now, scopes, ids[..|ids| - 1]);
      var o := RegrantOne(r.k, now, scopes, ids[|ids| - 1]);
      Step(o.k, r.ops + o.ops)
  }

  ghost function Regrant(k: Keys, now: int, scopes: set<string>): Step {
    if scopes == {} then Step(k, []) else RegrantEach(k, now, scopes, Sorted(k.grants.Keys))
  }

  function DueNow(k: Keys, now: int): set<string> {
    set sc | sc in k.due && k.due[sc] <= now
  }

  ghost function RotateDue(k: Keys, now: int): Step {
    var r := RotateEach(k, now, MainFirst(DueNow(k, now)));
    var g := Regrant(r.k, now, DueNow(k, now));
    Step(g.k, r.ops + g.ops)
  }

  /** A keyed grant whose valid_until has come and that has not ended. */
  predicate Expiring(g: Grant, now: int) {
    g.keyScopes != [] && !g.ended && g.validUntil <= now
  }

  function ExpireEach(k: Keys, now: int, ids: seq<string>): Keys {
    if ids == [] then k
    else
      var r := ExpireEach(k, now, ids[..|ids| - 1]);
      var id := ids[|ids| - 1];
      if id in r.grants && Expiring(r.grants[id], now) then
        EndGrant(r.(grants := r.grants[id := r.grants[id].(ended := true)]), now, r.grants[id], [])
      else r
  }

  /** The grant and rotation work of one clock instant. */
  ghost function AtInstant(k: Keys, now: int): Step {
    RotateDue(ExpireEach(k, now, Sorted(k.grants.Keys)), now)
  }

  // ---- requests

  predicate ValidAudience(a: string) {
    && 1 <= |a| <= 64
    && 'a' <= a[0] <= 'z'
    && forall i :: 1 <= i < |a| ==> 'a' <= a[i] <= 'z' || '0' <= a[i] <= '9' || a[i] == '-'
  }

  datatype Request =
    | GrantIntro(session: string, grantee: string, id: string, scope: seq<string>, validUntil: int, audience: Option<string>)
    | Follow(followed: string, id: string, scope: seq<string>, validUntil: int, audience: Option<string>)
    | Revoke(id: string)
    | OwnRecord(scope1: string, epoch: nat)

  function Granted(k: Keys, session: string, grantee: string, id: string, scope: seq<string>, validUntil: int,
                   audience: Option<string>): Step
  {
    if audience.Some? && !ValidAudience(audience.value) then Step(k, [KeyRefused("invalid-audience")])
    else Issue(k, session, grantee, id, scope, validUntil, audience, [])
  }

  ghost function Followed(k: Keys, now: int, followed: string, id: string, scope: seq<string>, validUntil: int,
                          audience: Option<string>): Step
  {
    if followed !in k.grants || k.grants[followed].validUntil <= now then Step(k, [KeyRefused("unknown-grant")])
    else if audience.Some? && !ValidAudience(audience.value) then Step(k, [KeyRefused("invalid-audience")])
    else
      var prior := k.grants[followed];
      var i := Issue(k.(grants := k.grants - {followed}), followed, prior.grantee, id, scope, validUntil, audience, []);
      var e := EndGrant(i.k, now, prior, i.k.grants[id].keyScopes);
      var r := RotateDue(e, now);
      Step(r.k, [RevokeSent([followed] + prior.chain)] + i.ops + r.ops)
  }

  ghost function Revoked(k: Keys, now: int, id: string): Step {
    if id !in k.grants then Step(k, [KeyRefused("unknown-grant")])
    else
      var g := k.grants[id];
      var r := RotateDue(EndGrant(k.(grants := k.grants - {id}), now, g, []), now);
      Step(r.k, [RevokeSent([id] + g.chain)] + r.ops)
  }

  /** A sibling's record of our own identity: a higher epoch is adopted. */
  ghost function Adopted(k: Keys, now: int, scope: string, epoch: nat): Step {
    if !k.configured || (scope in k.epochs && epoch <= k.epochs[scope]) then Step(k, [])
    else
      var r := Regrant(k.(epochs := k.epochs[scope := epoch]), now, {scope});
      Step(r.k, [KeySeen(scope, epoch)] + r.ops)
  }

  ghost function Answer(k: Keys, now: int, q: Request): Step {
    if k.exhausted then Step(k, [])
    else match q
      case GrantIntro(session, grantee, id, scope, validUntil, audience) =>
        Granted(k, session, grantee, id, scope, validUntil, audience)
      case Follow(followed, id, scope, validUntil, audience) => Followed(k, now, followed, id, scope, validUntil, audience)
      case Revoke(id) => Revoked(k, now, id)
      case OwnRecord(scope, epoch) => Adopted(k, now, scope, epoch)
  }

  // ---- what every run keeps

  /** The scope's epoch is past the one `id` carried, if it carried one that a rotation raises. */
  ghost predicate Above(k: Keys, sc: string, id: string) {
    && sc in k.epochs
    && (id in k.book.carried && sc in k.book.carried[id] && Raises(k.book.carried[id][sc]) ==> k.book.carried[id][sc] < k.epochs[sc])
  }

  ghost predicate AllAbove(k: Keys, e: End, sc: string) {
    Above(k, sc, e.id) && forall c :: c in e.chain ==> Above(k, sc, c)
  }

  /** A lost scope has rotated past everything the grant and its chain carried, or will within `tRotate`. */
  ghost predicate SettledOrDue(k: Keys, e: End, sc: string) {
    (sc in k.due && k.due[sc] <= e.at + k.tRotate) || AllAbove(k, e, sc)
  }

  ghost predicate Settled(k: Keys) {
    forall i, sc :: 0 <= i < |k.book.ends| && sc in k.book.ends[i].lost ==> SettledOrDue(k, k.book.ends[i], sc)
  }

  ghost predicate EpochsCover(carried: map<string, map<string, nat>>, epochs: map<string, nat>) {
    forall id, sc :: id in carried && sc in carried[id] ==> sc in epochs && carried[id][sc] <= epochs[sc]
  }

  ghost predicate GrantOk(k: Keys, now: int, id: string, g: Grant) {
    && g.id == id
    && id in k.book.carried
    && (forall c :: c in g.chain ==> c in k.book.carried)
    && (forall sc :: sc in g.keyScopes ==> sc in k.epochs)
    && (g.ended ==> g.validUntil <= now)
    && g.keyScopes == KeyScopes(k.configured, k.sealed, g.scope, g.audience)
  }

  ghost predicate GrantsOk(k: Keys, now: int) {
    forall id :: id in k.grants ==> GrantOk(k, now, id, k.grants[id])
  }

  ghost predicate DueOk(due: map<string, int>, epochs: map<string, nat>, lastRotated: map<string, int>, tRotate: nat, now: int) {
    && (forall sc :: sc in lastRotated ==> lastRotated[sc] <= now)
    && (forall sc :: sc in due ==> sc in epochs && due[sc] <= now + tRotate)
    && (forall sc :: sc in due && sc in lastRotated ==> lastRotated[sc] + tRotate <= due[sc])
  }

  ghost predicate EndOk(carried: map<string, map<string, nat>>, grants: map<string, Grant>, e: End) {
    && e.id in carried
    && (forall c :: c in e.chain ==> c in carried)
    && (e.id in grants ==> grants[e.id].ended)
  }

  ghost predicate EndsDiffer(ends: seq<End>) {
    forall i, j :: 0 <= i < j < |ends| ==> ends[i].id != ends[j].id
  }

  ghost predicate EndsOk(carried: map<string, map<string, nat>>, grants: map<string, Grant>, ends: seq<End>) {
    forall i :: 0 <= i < |ends| ==> EndOk(carried, grants, ends[i])
  }

  ghost predicate TurnsOk(turns: seq<Turn>, lastRotated: map<string, int>, tRotate: nat) {
    && (forall i, j :: 0 <= i < j < |turns| && turns[i].scope == turns[j].scope ==> turns[i].at + tRotate <= turns[j].at)
    && (forall i :: 0 <= i < |turns| ==> turns[i].scope in lastRotated && turns[i].at <= lastRotated[turns[i].scope])
  }

  /** The ids still to be drawn are new, and drawn once. */
  ghost predicate SupplyOk(supply: seq<string>, carried: map<string, map<string, nat>>) {
    && (forall i :: 0 <= i < |supply| ==> supply[i] !in carried)
    && (forall i, j :: 0 <= i < j < |supply| ==> supply[i] != supply[j])
  }

  ghost predicate KeysOk(k: Keys, now: int) {
    && EpochsCover(k.book.carried, k.epochs)
    && GrantsOk(k, now)
    && DueOk(k.due, k.epochs, k.lastRotated, k.tRotate, now)
    && EndsDiffer(k.book.ends) && EndsOk(k.book.carried, k.grants, k.book.ends)
    && TurnsOk(k.book.turns, k.lastRotated, k.tRotate)
    && SupplyOk(k.supply, k.book.carried)
    && Settled(k)
  }

  /** Nothing is left due by now. */
  ghost predicate NothingDue(k: Keys, now: int) {
    forall sc :: sc in k.due ==> now < k.due[sc]
  }

  ghost predicate Fresh(k: Keys, q: Request) {
    (q.GrantIntro? || q.Follow?) ==> q.id !in k.book.carried && q.id !in k.supply
  }

  /** Epochs only rise, what was carried stays on record, and a scope leaves `due` only by rotating. */
  ghost predicate Onward(k: Keys, k': Keys) {
    && k'.tRotate == k.tRotate && k'.configured == k.configured && k'.sealed == k.sealed
    && (forall id :: id in k.book.carried ==> id in k'.book.carried && k'.book.carried[id] == k.book.carried[id])
    && (forall sc :: sc in k.epochs ==> sc in k'.epochs && k.epochs[sc] <= k'.epochs[sc])
    && (forall sc :: sc in k.due && sc in k.epochs ==>
          (sc in k'.due && k'.due[sc] == k.due[sc]) || !Raises(k.epochs[sc]) || k.epochs[sc] < k'.epochs[sc])
  }

  lemma SettledOnward(k: Keys, k': Keys, now: int, i: nat)
    requires KeysOk(k, now) && Onward(k, k')
    requires i < |k.book.ends|
    ensures forall sc :: sc in k.book.ends[i].lost ==> SettledOrDue(k', k.book.ends[i], sc)
  {
    var e := k.book.ends[i];
    forall sc | sc in e.lost ensures SettledOrDue(k', e, sc) {
      assert SettledOrDue(k, e, sc);
      if sc in k.due && k.due[sc] <= e.at + k.tRotate && !(sc in k'.due && k'.due[sc] == k.due[sc]) {
        assert Above(k', sc, e.id);
        forall c | c in e.chain ensures Above(k', sc, c) { }
      } else if !(sc in k.due && k.due[sc] <= e.at + k.tRotate) {
        assert Above(k, sc, e.id);
        forall c | c in e.chain ensures Above(k', sc, c) {
          assert Above(k, sc, c);
        }
      }
    }
  }

  lemma AllSettledOnward(k: Keys, k': Keys, now: int)
    requires KeysOk(k, now) && Onward(k, k')
    requires k'.book.ends == k.book.ends
    ensures Settled(k')
  {
    forall i | 0 <= i < |k.book.ends|
      ensures forall sc :: sc in k.book.ends[i].lost ==> SettledOrDue(k', k.book.ends[i], sc)
    {
      SettledOnward(k, k', now, i);
    }
  }

  /** Whatever moves a state onward without new grants or ends keeps its grants, ends and what they settle. */
  lemma CarryOver(k: Keys, k': Keys, now: int)
    requires KeysOk(k, now) && Onward(k, k') && k'.book.ends == k.book.ends
    requires forall id :: id in k'.grants ==>
               id in k.grants
               && (k'.grants[id] == k.grants[id] || (k'.grants[id] == k.grants[id].(ended := true) && k.grants[id].validUntil <= now))
    ensures Settled(k') && EndsOk(k'.book.carried, k'.grants, k'.book.ends) && GrantsOk(k', now)
  {
    AllSettledOnward(k, k', now);
    forall i | 0 <= i < |k'.book.ends| ensures EndOk(k'.book.carried, k'.grants, k'.book.ends[i]) {
      assert EndOk(k.book.carried, k.grants, k.book.ends[i]);
    }
    forall x | x in k'.grants ensures GrantOk(k', now, x, k'.grants[x]) {
      assert GrantOk(k, now, x, k.grants[x]);
    }
  }

  lemma EpochsGrow(carried: map<string, map<string, nat>>, e: map<string, nat>, f: map<string, nat>)
    requires EpochsCover(carried, e) && forall sc :: sc in e ==> sc in f && e[sc] <= f[sc]
    ensures EpochsCover(carried, f)
  {
  }

  lemma DueGrows(k: Keys, f: map<string, nat>, now: int)
    requires DueOk(k.due, k.epochs, k.lastRotated, k.tRotate, now) && forall sc :: sc in k.epochs ==> sc in f
    ensures DueOk(k.due, f, k.lastRotated, k.tRotate, now)
  {
  }

  /** Scopes new to this endpoint start at epoch 0. */
  lemma EpochsKeep(k: Keys, now: int, scopes: seq<string>)
    requires KeysOk(k, now)
    ensures KeysOk(k.(epochs := WithEpochs(k.epochs, scopes)), now) && Onward(k, k.(epochs := WithEpochs(k.epochs, scopes)))
  {
    hide KeyScopes, EpochsCover, DueOk, TurnsOk, SupplyOk, EndsOk, GrantsOk, EndsDiffer, Settled, WithEpochs;
    var k' := k.(epochs := WithEpochs(k.epochs, scopes));
    EpochsGrow(k.book.carried, k.epochs, k'.epochs);
    DueGrows(k, k'.epochs, now);
    CarryOver(k, k', now);
  }

  /** Recording a new grant with the epochs it carries. */
  lemma PutKeeps(k: Keys, now: int, g: Grant)
    requires KeysOk(k, now) && g.id !in k.book.carried && g.id !in k.supply
    requires GrantOk(k.(book := k.book.(carried := k.book.carried[g.id := map[]])), now, g.id, g)
    ensures var k' := k.(grants := k.grants[g.id := g],
                         book := k.book.(carried := k.book.carried[g.id := Carried(k.epochs, g.keyScopes)]));
            KeysOk(k', now) && Onward(k, k')
  {
    hide KeyScopes, EpochsCover, DueOk, TurnsOk, SupplyOk, EndsOk, EndOk, EndsDiffer, Settled, GrantsOk, Carried;
    var k' := k.(grants := k.grants[g.id := g],
                 book := k.book.(carried := k.book.carried[g.id := Carried(k.epochs, g.keyScopes)]));
    AllSettledOnward(k, k', now);
    PutCarried(k, g);
    PutEndsOk(k.book.carried, k.grants, k.book.ends, g, Carried(k.epochs, g.keyScopes));
    PutGrantsOk(k, k', now, g);
  }

  lemma PutCarried(k: Keys, g: Grant)
    requires EpochsCover(k.book.carried, k.epochs) && SupplyOk(k.supply, k.book.carried) && g.id !in k.supply
    ensures var c := k.book.carried[g.id := Carried(k.epochs, g.keyScopes)]; EpochsCover(c, k.epochs) && SupplyOk(k.supply, c)
  {
  }

  lemma PutGrantsOk(k: Keys, k': Keys, now: int, g: Grant)
    requires GrantsOk(k, now) && g.id !in k.book.carried
    requires GrantOk(k.(book := k.book.(carried := k.book.carried[g.id := map[]])), now, g.id, g)
    requires k' == k.(grants := k.grants[g.id := g], book := k'.book) && k'.book.carried.Keys == k.book.carried.Keys + {g.id}
    ensures GrantsOk(k', now)
  {
    hide KeyScopes;
    assert forall x :: x in k'.book.carried <==> x in k'.book.carried.Keys;
    forall x | x in k'.grants ensures GrantOk(k', now, x, k'.grants[x]) {
      if x != g.id { assert GrantOk(k, now, x, k.grants[x]); }
    }
  }

  lemma PutEndsOk(carried: map<string, map<string, nat>>, grants: map<string, Grant>, ends: seq<End>, g: Grant, c: map<string, nat>)
    requires EndsOk(carried, grants, ends) && g.id !in carried
    ensures EndsOk(carried[g.id := c], grants[g.id := g], ends)
  {
    forall i | 0 <= i < |ends| ensures EndOk(carried[g.id := c], grants[g.id := g], ends[i]) {
      assert EndOk(carried, grants, ends[i]);
    }
  }

  lemma {:induction false} IssueKeeps(k: Keys, now: int, session: string, grantee: string, id: string, scope: seq<string>,
                   validUntil: int, audience: Option<string>, chain: seq<string>)
    requires KeysOk(k, now) && id !in k.book.carried && id !in k.supply
    requires forall c :: c in chain ==> c in k.book.carried
    ensures var k' := Issue(k, session, grantee, id, scope, validUntil, audience, chain).k;
            KeysOk(k', now) && Onward(k, k') && k'.due == k.due && k'.book.ends == k.book.ends
            && id in k'.grants && k'.grants == k.grants[id := k'.grants[id]]
  {
    hide KeyScopes, EpochsCover, DueOk, TurnsOk, SupplyOk, EndsOk, Settled, GrantsOk, Carried;
    var k' := Issue(k, session, grantee, id, scope, validUntil, audience, chain).k;
    EpochsKeep(k, now, k'.grants[id].keyScopes);
    PutKeeps(k.(epochs := k'.epochs), now, k'.grants[id]);
  }

  /** Dropping grants, drawing ids or failing to keeps everything else. */
  lemma LessKeeps(k: Keys, now: int, k': Keys)
    requires KeysOk(k, now)
    requires k' == k.(grants := k'.grants, supply := k'.supply, exhausted := k'.exhausted)
    requires k'.grants.Keys <= k.grants.Keys && forall id :: id in k'.grants ==> k'.grants[id] == k.grants[id]
    requires k'.supply == k.supply || (k.supply != [] && k'.supply == k.supply[1..])
    ensures KeysOk(k', now) && Onward(k, k')
  {
    CarryOver(k, k', now);
  }

  lemma {:induction false} RegrantOneKeeps(k: Keys, now: int, scopes: set<string>, id: string)
    requires KeysOk(k, now)
    ensures var k' := RegrantOne(k, now, scopes, id).k; KeysOk(k', now) && k'.due == k.due
  {
    if !k.exhausted && id in k.grants && k.grants[id].validUntil > now && Carries(k.grants[id], scopes) {
      if k.supply == [] {
        LessKeeps(k, now, k.(exhausted := true));
      } else {
        var g := k.grants[id];
        assert GrantOk(k, now, id, g);
        var d := k.(grants := k.grants - {id}, supply := k.supply[1..]);
        LessKeeps(k, now, d);
        IssueKeeps(d, now, id, g.grantee, k.supply[0], g.scope, g.validUntil, g.audience, [id] + g.chain);
      }
    }
  }

  lemma {:induction false} RegrantEachKeeps(k: Keys, now: int, scopes: set<string>, ids: seq<string>)
    requires KeysOk(k, now)
    ensures var k' := RegrantEach(k, now, scopes, ids).k; KeysOk(k', now) && k'.due == k.due
  {
    if ids != [] {
      RegrantEachKeeps(k, now, scopes, ids[..|ids| - 1]);
      RegrantOneKeeps(RegrantEach(k, now, scopes, ids[..|ids| - 1]).k, now, scopes, ids[|ids| - 1]);
    }
  }

  lemma RotateOneKeeps(k: Keys, now: int, sc: string)
    requires KeysOk(k, now) && sc in k.due && k.due[sc] <= now
    ensures KeysOk(RotateOne(k, now, sc), now)
  {
    var k' := RotateOne(k, now, sc);
    assert Onward(k, k');
    CarryOver(k, k', now);
    assert TurnsOk(k'.book.turns, k'.lastRotated, k'.tRotate) by {
      forall i, j | 0 <= i < j < |k'.book.turns| && k'.book.turns[i].scope == k'.book.turns[j].scope
        ensures k'.book.turns[i].at + k.tRotate <= k'.book.turns[j].at
      {
        if j == |k.book.turns| {
          assert k.book.turns[i].scope in k.lastRotated;
        }
      }
    }
  }

  ghost predicate Distinct(xs: seq<string>) {
    forall i, j :: 0 <= i < j < |xs| ==> xs[i] != xs[j]
  }

  lemma {:induction false} RotateEachKeeps(k: Keys, now: int, scopes: seq<string>)
    requires KeysOk(k, now) && Distinct(scopes)
    requires forall sc :: sc in scopes ==> sc in k.due && k.due[sc] <= now
    ensures var k' := RotateEach(k, now, scopes).k;
            KeysOk(k', now) && forall sc :: sc in k'.due <==> sc in k.due && sc !in scopes
    ensures forall sc :: sc in RotateEach(k, now, scopes).k.due ==> RotateEach(k, now, scopes).k.due[sc] == k.due[sc]
  {
    if scopes != [] {
      var front := scopes[..|scopes| - 1];
      var sc := scopes[|scopes| - 1];
      assert scopes == front + [sc];
      RotateEachKeeps(k, now, front);
      RotateOneKeeps(RotateEach(k, now, front).k, now, sc);
    }
  }

  lemma SortedDistinct(s: set<string>)
    ensures Distinct(Sorted(s))
  {
    if s != {} {
      SortedDistinct(s - {Least(s)});
    }
  }

  lemma MainFirstDistinct(s: set<string>)
    ensures Distinct(MainFirst(s))
  {
    SortedDistinct(s);
    SortedDistinct(s - {"main"});
  }

  /** Rotating leaves nothing due by now. */
  lemma {:induction false} RotateDueKeeps(k: Keys, now: int)
    requires KeysOk(k, now)
    ensures var k' := RotateDue(k, now).k; KeysOk(k', now) && NothingDue(k', now)
  {
    var due := DueNow(k, now);
    MainFirstDistinct(due);
    assert forall sc :: sc in MainFirst(due) ==> sc in due;
    RotateEachKeeps(k, now, MainFirst(due));
    var r := RotateEach(k, now, MainFirst(due));
    assert NothingDue(r.k, now);
    RegrantEachKeeps(r.k, now, due, Sorted(r.k.grants.Keys));
  }

  /** Ending a withdrawn grant records what it lost and makes it due within `tRotate`. */
  lemma EndKeeps(k: Keys, now: int, g: Grant, keep: seq<string>)
    requires KeysOk(k, now)
    requires g.id in k.book.carried && (forall c :: c in g.chain ==> c in k.book.carried)
    requires g.id in k.grants ==> k.grants[g.id].ended
    requires !g.ended ==> forall i :: 0 <= i < |k.book.ends| ==> k.book.ends[i].id != g.id
    requires forall sc :: sc in g.keyScopes ==> sc in k.epochs
    ensures KeysOk(EndGrant(k, now, g, keep), now)
  {
    if !g.ended {
      var d := k.(due := MakeDue(k, now, g.keyScopes, keep));
      assert Onward(k, d);
      CarryOver(k, d, now);
      assert DueOk(d.due, d.epochs, d.lastRotated, d.tRotate, now);
      AppendEnd(d, now, End(g.id, g.chain, Lost(g.keyScopes, keep), now));
    }
  }

  lemma AppendEnd(k: Keys, now: int, e: End)
    requires KeysOk(k, now) && EndOk(k.book.carried, k.grants, e) && forall i :: 0 <= i < |k.book.ends| ==> k.book.ends[i].id != e.id
    requires forall sc :: sc in e.lost ==> SettledOrDue(k, e, sc)
    ensures KeysOk(k.(book := k.book.(ends := k.book.ends + [e])), now)
  {
    var k' := k.(book := k.book.(ends := k.book.ends + [e]));
    forall i | 0 <= i < |k.book.ends|
      ensures forall sc :: sc in k.book.ends[i].lost ==> SettledOrDue(k', k.book.ends[i], sc)
    {
      SettledOnward(k, k', now, i);
    }
    forall i | 0 <= i < |k'.book.ends| ensures EndOk(k'.book.carried, k'.grants, k'.book.ends[i]) {
      assert EndOk(k.book.carried, k.grants, if i < |k.book.ends| then k.book.ends[i] else e);
    }
    forall sc | sc in e.lost ensures SettledOrDue(k', e, sc) {
      if !(sc in k.due && k.due[sc] <= e.at + k.tRotate) {
        assert Above(k', sc, e.id);
        forall c | c in e.chain ensures Above(k', sc, c) { assert Above(k, sc, c); }
      }
    }
    forall x | x in k'.grants ensures GrantOk(k', now, x, k'.grants[x]) {
      assert GrantOk(k, now, x, k.grants[x]);
    }
  }

  lemma NotYetEnded(k: Keys, now: int, id: string)
    requires KeysOk(k, now) && id in k.grants && !k.grants[id].ended
    ensures forall i :: 0 <= i < |k.book.ends| ==> k.book.ends[i].id != id
  {
    forall i | 0 <= i < |k.book.ends| ensures k.book.ends[i].id != id {
      assert EndOk(k.book.carried, k.grants, k.book.ends[i]);
    }
  }

  lemma MarkKeeps(k: Keys, now: int, id: string)
    requires KeysOk(k, now) && id in k.grants && k.grants[id].validUntil <= now
    ensures KeysOk(k.(grants := k.grants[id := k.grants[id].(ended := true)]), now)
  {
    var k' := k.(grants := k.grants[id := k.grants[id].(ended := true)]);
    CarryOver(k, k', now);
  }

  lemma {:induction false} ExpireEachKeeps(k: Keys, now: int, ids: seq<string>)
    requires KeysOk(k, now)
    ensures KeysOk(ExpireEach(k, now, ids), now)
  {
    if ids != [] {
      ExpireEachKeeps(k, now, ids[..|ids| - 1]);
      var r := ExpireEach(k, now, ids[..|ids| - 1]);
      var id := ids[|ids| - 1];
      if id in r.grants && Expiring(r.grants[id], now) {
        NotYetEnded(r, now, id);
        assert GrantOk(r, now, id, r.grants[id]);
        MarkKeeps(r, now, id);
        EndKeeps(r.(grants := r.grants[id := r.grants[id].(ended := true)]), now, r.grants[id], []);
      }
    }
  }

  lemma AtInstantKeeps(k: Keys, now: int)
    requires KeysOk(k, now)
    ensures KeysOk(AtInstant(k, now).k, now) && NothingDue(AtInstant(k, now).k, now)
  {
    ExpireEachKeeps(k, now, Sorted(k.grants.Keys));
    RotateDueKeeps(ExpireEach(k, now, Sorted(k.grants.Keys)), now);
  }

  lemma LaterKeeps(k: Keys, now: int, later: int)
    requires KeysOk(k, now) && now <= later
    ensures KeysOk(k, later)
  {
    forall x | x in k.grants ensures GrantOk(k, later, x, k.grants[x]) {
      assert GrantOk(k, now, x, k.grants[x]);
    }
  }

  lemma FollowedKeeps(k: Keys, now: int, followed: string, id: string, scope: seq<string>, validUntil: int, audience: Option<string>)
    requires KeysOk(k, now) && NothingDue(k, now) && id !in k.book.carried && id !in k.supply
    ensures var k' := Followed(k, now, followed, id, scope, validUntil, audience).k; KeysOk(k', now) && NothingDue(k', now)
  {
    hide KeyScopes, Onward, RotateDue, EpochsCover, DueOk, TurnsOk, SupplyOk, Settled;
    if followed in k.grants && k.grants[followed].validUntil > now && (audience.Some? ==> ValidAudience(audience.value)) {
      var prior := k.grants[followed];
      assert GrantOk(k, now, followed, prior);
      NotYetEnded(k, now, followed);
      var d := k.(grants := k.grants - {followed});
      LessKeeps(k, now, d);
      IssueKeeps(d, now, followed, prior.grantee, id, scope, validUntil, audience, []);
      var i := Issue(d, followed, prior.grantee, id, scope, validUntil, audience, []).k;
      EndKeeps(i, now, prior, i.grants[id].keyScopes);
      RotateDueKeeps(EndGrant(i, now, prior, i.grants[id].keyScopes), now);
    }
  }

  lemma RevokedKeeps(k: Keys, now: int, id: string)
    requires KeysOk(k, now) && NothingDue(k, now)
    ensures var k' := Revoked(k, now, id).k; KeysOk(k', now) && NothingDue(k', now)
  {
    if id in k.grants {
      var g := k.grants[id];
      assert GrantOk(k, now, id, g);
      if !g.ended { NotYetEnded(k, now, id); }
      var d := k.(grants := k.grants - {id});
      LessKeeps(k, now, d);
      EndKeeps(d, now, g, []);
      RotateDueKeeps(EndGrant(d, now, g, []), now);
    }
  }

  lemma AdoptedKeeps(k: Keys, now: int, scope: string, epoch: nat)
    requires KeysOk(k, now) && NothingDue(k, now)
    ensures var k' := Adopted(k, now, scope, epoch).k; KeysOk(k', now) && NothingDue(k', now)
  {
    hide KeyScopes, Onward, RegrantEach, EpochsCover, DueOk, TurnsOk, SupplyOk, Settled, EndsOk, GrantsOk;
    if k.configured && !(scope in k.epochs && epoch <= k.epochs[scope]) {
      AdoptKeeps(k, now, scope, epoch);
      RegrantEachKeeps(k.(epochs := k.epochs[scope := epoch]), now, {scope}, Sorted(k.grants.Keys));
    }
  }

  lemma AdoptKeeps(k: Keys, now: int, scope: string, epoch: nat)
    requires KeysOk(k, now) && (scope in k.epochs ==> k.epochs[scope] < epoch)
    ensures KeysOk(k.(epochs := k.epochs[scope := epoch]), now)
  {
    var a := k.(epochs := k.epochs[scope := epoch]);
    assert Onward(k, a);
    CarryOver(k, a, now);
  }

  /** Every request of a run with fresh ids keeps the rotation invariant. */
  lemma AnswerKeeps(k: Keys, now: int, q: Request)
    requires KeysOk(k, now) && NothingDue(k, now) && Fresh(k, q)
    ensures KeysOk(Answer(k, now, q).k, now) && NothingDue(Answer(k, now, q).k, now)
  {
    if !k.exhausted {
      match q
      case GrantIntro(session, grantee, id, scope, validUntil, audience) =>
        IssueKeeps(k, now, session, grantee, id, scope, validUntil, audience, []);
      case Follow(followed, id, scope, validUntil, audience) => FollowedKeeps(k, now, followed, id, scope, validUntil, audience);
      case Revoke(id) => RevokedKeeps(k, now, id);
      case OwnRecord(scope, epoch) => AdoptedKeeps(k, now, scope, epoch);
    }
  }
}
