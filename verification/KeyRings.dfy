/**
 * The fields and loops by which `endpoint.ts` keeps its grants, epochs, due scopes and rotations, each method against
 * the function of `PresenceKeys` that says what it does to them.
 */
module KeyRings {
  import opened Prelude
  import opened PresenceKeys

  class KeyRing {
    const configured: bool
    const sealed: set<string>
    const tRotate: nat
    var grants: map<string, Grant>
    var epochs: map<string, nat>
    var lastRotated: map<string, int>
    var due: map<string, int>
    var supply: seq<string>
    /** Set where the source throws because the configured grant ids are used up. */
    var exhausted: bool
    ghost var book: Book

    ghost function Contents(): Keys
      reads this
    {
      Keys(configured, sealed, tRotate, grants, epochs, lastRotated, due, supply, exhausted, book)
    }

    constructor (configured: bool, sealed: set<string>, tRotate: nat, supply: seq<string>)
      ensures Contents() == Keys(configured, sealed, tRotate, map[],
                                 if configured then map sc | sc in sealed + {"main"} :: 0 else map[],
                                 map[], map[], supply, false, Book(map[], [], []))
    {
      this.configured, this.sealed, this.tRotate := configured, sealed, tRotate;
      grants, lastRotated, due := map[], map[], map[];
      epochs := if configured then map sc | sc in sealed + {"main"} :: 0 else map[];
      this.supply, exhausted := supply, false;
      book := Book(map[], [], []);
    }

    method IssueGrant(session: string, grantee: string, id: string, scope: seq<string>, validUntil: int,
                      audience: Option<string>, chain: seq<string>)
      returns (ops: seq<KeyOp>)
      modifies this
      ensures Step(Contents(), ops) == Issue(old(Contents()), session, grantee, id, scope, validUntil, audience, chain)
    {
      var scopes := KeyScopes(configured, sealed, scope, audience);
      for i := 0 to |scopes|
        invariant Contents() == old(Contents()).(epochs := WithEpochs(old(epochs), scopes[..i]))
      {
        assert scopes[..i + 1][..i] == scopes[..i];
        if scopes[i] !in epochs { epochs := epochs[scopes[i] := 0]; }
      }
      assert scopes[..|scopes|] == scopes;
      grants := grants[id := Grant(id, grantee, scope, validUntil, audience, scopes, chain, false)];
      book := book.(carried := book.carried[id := Carried(epochs, scopes)]);
      ops := [GrantSent(session, grantee, id, scope, validUntil, audience, KeyList(epochs, scopes))];
    }

    /** The due times a grant's end adds. */
    method End(now: int, g: Grant, keep: seq<string>)
      modifies this`due, this`book
      ensures Contents() == EndGrant(old(Contents()), now, g, keep)
    {
      if g.ended { return; }
      for i := 0 to |g.keyScopes|
        invariant due == MakeDue(old(Contents()), now, g.keyScopes[..i], keep)
        invariant book == old(book)
      {
        var sc := g.keyScopes[i];
        assert g.keyScopes[..i + 1][..i] == g.keyScopes[..i];
        if sc !in keep && sc !in due {
          var at := if sc in lastRotated && now < lastRotated[sc] + tRotate then lastRotated[sc] + tRotate else now;
          due := due[sc := at];
        }
      }
      assert g.keyScopes[..|g.keyScopes|] == g.keyScopes;
      book := book.(ends := book.ends + [PresenceKeys.End(g.id, g.chain, Lost(g.keyScopes, keep), now)]);
    }

    /** The scopes due, `main` before the others. */
    method DueScopes(now: int) returns (scopes: seq<string>)
      ensures scopes == MainFirst(DueNow(Contents(), now))
    {
      var s := set sc | sc in due && due[sc] <= now;
      assert s == DueNow(Contents(), now);
      scopes := SortKeys(s - {"main"});
      if "main" in s {
        scopes := ["main"] + scopes;
      } else {
        assert s - {"main"} == s;
      }
    }

    method Turn(now: int, sc: string)
      modifies this
      ensures Contents() == RotateOne(old(Contents()), now, sc) && sc in epochs
    {
      due := due - {sc};
      epochs := epochs[sc := NextEpoch(if sc in epochs then epochs[sc] else 0)];
      lastRotated := lastRotated[sc := now];
      book := book.(turns := book.turns + [PresenceKeys.Turn(sc, now)]);
    }

    lemma NoTurns(k: Keys, now: int)
      ensures RotateEach(k, now, []) == Step(k, [])
    {
    }

    lemma RotateNext(k: Keys, now: int, scopes: seq<string>, i: nat)
      requires i < |scopes|
      ensures var r := RotateEach(k, now, scopes[..i]);
              var t := RotateOne(r.k, now, scopes[i]);
              scopes[i] in t.epochs
              && RotateEach(k, now, scopes[..i + 1]) == Step(t, r.ops + [KeyRotated(scopes[i], t.epochs[scopes[i]])])
    {
      hide NextEpoch;
      assert scopes[..i + 1][..i] == scopes[..i];
    }

    method Rotate(now: int) returns (ops: seq<KeyOp>)
      modifies this
      ensures Step(Contents(), ops) == RotateDue(old(Contents()), now)
    {
      hide RotateEach, RotateOne, MainFirst, Regrant;
      var scopes := DueScopes(now);
      ops := [];
      NoTurns(Contents(), now);
      for i := 0 to |scopes|
        invariant Step(Contents(), ops) == RotateEach(old(Contents()), now, scopes[..i])
      {
        RotateNext(old(Contents()), now, scopes, i);
        Turn(now, scopes[i]);
        ops := ops + [KeyRotated(scopes[i], epochs[scopes[i]])];
      }
      assert scopes[..|scopes|] == scopes;
      var turned := set sc | sc in scopes;
      assert turned == DueNow(old(Contents()), now);
      var more := FollowLive(now, turned);
      ops := ops + more;
    }

    /** Each live grant carrying a key of `scopes` is followed by one with the current keys, in id order. */
    method FollowLive(now: int, scopes: set<string>) returns (ops: seq<KeyOp>)
      modifies this
      ensures Step(Contents(), ops) == Regrant(old(Contents()), now, scopes)
    {
      ops := [];
      if scopes == {} { return; }
      var ids := SortKeys(grants.Keys);
      for i := 0 to |ids|
        invariant Step(Contents(), ops) == RegrantEach(old(Contents()), now, scopes, ids[..i])
      {
        assert ids[..i + 1][..i] == ids[..i];
        var one := FollowOne(now, scopes, ids[i]);
        ops := ops + one;
      }
      assert ids[..|ids|] == ids;
    }

    method FollowOne(now: int, scopes: set<string>, id: string) returns (ops: seq<KeyOp>)
      modifies this
      ensures Step(Contents(), ops) == RegrantOne(old(Contents()), now, scopes, id)
    {
      ops := [];
      if exhausted || id !in grants { return; }
      var g := grants[id];
      if g.validUntil <= now || !Carries(g, scopes) { return; }
      if supply == [] {
        exhausted := true;
        return;
      }
      var next := supply[0];
      supply := supply[1..];
      grants := grants - {id};
      ops := IssueGrant(id, g.grantee, next, g.scope, g.validUntil, g.audience, [id] + g.chain);
    }

    method Expire(now: int, id: string)
      modifies this`grants, this`due, this`book
      ensures Contents() == if id in old(grants) && Expiring(old(grants)[id], now) then
        EndGrant(old(Contents()).(grants := old(grants)[id := old(grants)[id].(ended := true)]), now, old(grants)[id], [])
      else old(Contents())
    {
      if id in grants && Expiring(grants[id], now) {
        var g := grants[id];
        grants := grants[id := g.(ended := true)];
        End(now, g, []);
      }
    }

    /** What the clock does to the keys at an instant: shares reaching their end, in id order, then rotation. */
    method Tick(now: int) returns (ops: seq<KeyOp>)
      modifies this
      ensures Step(Contents(), ops) == AtInstant(old(Contents()), now)
    {
      hide EndGrant;
      var ids := SortKeys(grants.Keys);
      for i := 0 to |ids|
        invariant Contents() == ExpireEach(old(Contents()), now, ids[..i])
      {
        assert ids[..i + 1][..i] == ids[..i];
        Expire(now, ids[i]);
      }
      assert ids[..|ids|] == ids;
      ops := Rotate(now);
    }

    // ---- requests

    method Follow(now: int, followed: string, id: string, scope: seq<string>, validUntil: int, audience: Option<string>)
      returns (ops: seq<KeyOp>)
      modifies this
      ensures Step(Contents(), ops) == Followed(old(Contents()), now, followed, id, scope, validUntil, audience)
    {
      if followed !in grants || grants[followed].validUntil <= now { return [KeyRefused("unknown-grant")]; }
      if audience.Some? && !ValidAudience(audience.value) { return [KeyRefused("invalid-audience")]; }
      var prior := grants[followed];
      grants := grants - {followed};
      var issued := IssueGrant(followed, prior.grantee, id, scope, validUntil, audience, []);
      End(now, prior, grants[id].keyScopes);
      var rotated := Rotate(now);
      ops := [RevokeSent([followed] + prior.chain)] + issued + rotated;
    }

    method Withdraw(now: int, id: string) returns (ops: seq<KeyOp>)
      modifies this
      ensures Step(Contents(), ops) == Revoked(old(Contents()), now, id)
    {
      if id !in grants { return [KeyRefused("unknown-grant")]; }
      var g := grants[id];
      grants := grants - {id};
      End(now, g, []);
      var rotated := Rotate(now);
      ops := [RevokeSent([id] + g.chain)] + rotated;
    }

    method Adopt(now: int, scope: string, epoch: nat) returns (ops: seq<KeyOp>)
      modifies this
      ensures Step(Contents(), ops) == Adopted(old(Contents()), now, scope, epoch)
    {
      if !configured || (scope in epochs && epoch <= epochs[scope]) { return []; }
      epochs := epochs[scope := epoch];
      var more := FollowLive(now, {scope});
      ops := [KeySeen(scope, epoch)] + more;
    }

    method Serve(now: int, q: Request) returns (ops: seq<KeyOp>)
      modifies this
      ensures Step(Contents(), ops) == Answer(old(Contents()), now, q)
    {
      if exhausted { return []; }
      match q
      case GrantIntro(session, grantee, id, scope, validUntil, audience) =>
        if audience.Some? && !ValidAudience(audience.value) { return [KeyRefused("invalid-audience")]; }
        ops := IssueGrant(session, grantee, id, scope, validUntil, audience, []);
      case Follow(followed, id, scope, validUntil, audience) =>
        ops := Follow(now, followed, id, scope, validUntil, audience);
      case Revoke(id) => ops := Withdraw(now, id);
      case OwnRecord(scope, epoch) => ops := Adopt(now, scope, epoch);
    }
  }
}
