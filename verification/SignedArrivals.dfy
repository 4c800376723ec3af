/**
 * What every message, block and advance does at the signed-syslog collector of `syslog-sign.ts`: which message a hash signs and when,
 * what is held, waited for and reported lost, which block is refused for what, and what establishes a session or ends it.
 */
module SignedArrivals {
  import opened Prelude
  import opened Bytes
  import opened SignedSyslog

  // ---- messages and hashes

  /** The number counts as authenticated, and nothing else of its session changes. */
  ghost predicate Marked(c: Collector, g: GroupKey, number: nat, d: Collector) {
    if g.session in c.sessions && g.id in c.sessions[g.session].groups then
      var s := c.sessions[g.session];
      && d == c.(sessions := d.sessions) && d.sessions.Keys == c.sessions.Keys && (forall k :: k in c.sessions && k != g.session ==> d.sessions[k] == c.sessions[k])
      && d.sessions[g.session] == s.(groups := d.sessions[g.session].groups)
      && d.sessions[g.session].groups.Keys == s.groups.Keys
      && (forall x :: x in s.groups && x != g.id ==> d.sessions[g.session].groups[x] == s.groups[x])
      && d.sessions[g.session].groups[g.id].covered == s.groups[g.id].covered
      && forall n :: n in d.sessions[g.session].groups[g.id].auth <==> n in s.groups[g.id].auth || n == number
    else d == c
  }

  lemma MarksSo(c: Collector, g: GroupKey, number: nat)
    ensures Marked(c, g, number, Authenticated(c, g, number))
  {
  }

  /** The i-th is the first of a list the digest of whose message is wanted. */
  predicate FirstMessage(o: Outside, hs: seq<Held>, alg: Algorithm, digest: Octets, i: nat) {
    i < |hs| && o.digest(alg, hs[i].msg) == digest && forall j :: 0 <= j < i ==> o.digest(alg, hs[j].msg) != digest
  }

  predicate FirstWait(o: Outside, ws: seq<Waiting>, msg: Octets, i: nat) {
    i < |ws| && o.digest(ws[i].alg, msg) == ws[i].digest && forall j :: 0 <= j < i ==> o.digest(ws[j].alg, msg) != ws[j].digest
  }

  /** A signer's message is deposited as signed by the first hash that waits for it, or held for as long as messages are. */
  ghost predicate OursSo(o: Outside, c: Collector, msg: Octets, r: Result) {
    || (exists i: nat :: FirstWait(o, c.waiting, msg, i) && MetBy(c, msg, i, r))
    || ((forall i: nat :: !FirstWait(o, c.waiting, msg, i)) && r == Result(c.(held := c.held + [Held(msg, c.now + c.holdS)]), []))
  }

  ghost predicate MetBy(c: Collector, msg: Octets, i: nat, r: Result)
    requires i < |c.waiting|
  {
    var w := c.waiting[i];
    && r.emit == [Deposit(msg, Some(Signed(w.group, w.number, w.key)))]
    && Marked(c.(waiting := c.waiting[..i] + c.waiting[i + 1..]), w.group, w.number, r.c)
  }

  lemma ArrivesSo(o: Outside, c: Collector, msg: Octets)
    ensures OursSo(o, c, msg, OnOurs(o, c, msg))
  {
    hide Marked, Authenticated;
    var i := FindWaiting(o, c.waiting, msg);
    if i.Some? {
      var w := c.waiting[i.value];
      MarksSo(c.(waiting := Cut(c.waiting, i.value)), w.group, w.number);
      assert FirstWait(o, c.waiting, msg, i.value) && MetBy(c, msg, i.value, OnOurs(o, c, msg));
    } else {
      assert forall j: nat :: !FirstWait(o, c.waiting, msg, j);
    }
  }

  predicate IsDone(c: Collector, g: GroupKey, number: nat) {
    g.session in c.sessions && g.id in c.sessions[g.session].groups && number in c.sessions[g.session].groups[g.id].auth
  }

  /** A hash for a number: nothing if that is done; or the first held message it signs is deposited as signed; or it waits, once. */
  ghost predicate HashSo(o: Outside, c: Collector, signer: Signer, alg: Algorithm, g: GroupKey, number: nat, digest: Octets, r: Result) {
    if IsDone(c, g, number) then r == Result(c, [])
    else
      || (exists i: nat :: FirstMessage(o, c.held, alg, digest, i) && SignsHeld(c, signer, g, number, i, r))
      || ((forall i: nat :: !FirstMessage(o, c.held, alg, digest, i))
          && if exists w :: w in c.waiting && w.group == g && w.number == number then r == Result(c, [])
             else r == Result(c.(waiting := c.waiting + [Waiting(g, number, alg, digest, c.now + c.holdS, signer.gaps, signer.key)]), []))
  }

  ghost predicate SignsHeld(c: Collector, signer: Signer, g: GroupKey, number: nat, i: nat, r: Result)
    requires i < |c.held|
  {
    && r.emit == [Deposit(c.held[i].msg, Some(Signed(g, number, signer.key)))]
    && Marked(c.(held := c.held[..i] + c.held[i + 1..]), g, number, r.c)
  }

  lemma HashesSo(o: Outside, c: Collector, signer: Signer, alg: Algorithm, g: GroupKey, number: nat, digest: Octets)
    ensures HashSo(o, c, signer, alg, g, number, digest, SignOne(o, c, signer, alg, g, number, digest))
  {
    hide Marked, Authenticated;
    var k := FindHeld(o, c.held, alg, digest);
    assert AlreadyWaits(c.waiting, g, number) <==> exists w :: w in c.waiting && w.group == g && w.number == number by {
      if w :| w in c.waiting && w.group == g && w.number == number { var i :| 0 <= i < |c.waiting| && c.waiting[i] == w; }
    }
    if k.Some? {
      MarksSo(c.(held := Cut(c.held, k.value)), g, number);
      assert FirstMessage(o, c.held, alg, digest, k.value);
    } else {
      assert forall j: nat :: !FirstMessage(o, c.held, alg, digest, j);
    }
  }

  ghost predicate OneHash(o: Outside, signer: Signer, alg: Algorithm, g: GroupKey, number: nat, digest: Octets, before: Result, after: Result) {
    exists one: Result :: HashSo(o, before.c, signer, alg, g, number, digest, one) && after == Result(one.c, before.emit + one.emit)
  }

  ghost predicate InTurn(o: Outside, c: Collector, signer: Signer, alg: Algorithm, g: GroupKey, fmn: nat, digests: seq<Octets>, steps: seq<Result>) {
    && |steps| == |digests| + 1 && steps[0] == Result(c, [])
    && forall i :: 0 <= i < |digests| ==> OneHash(o, signer, alg, g, fmn + i, digests[i], steps[i], steps[i + 1])
  }

  /** The hashes of a block in turn, the i-th for number `fmn` + i. */
  ghost predicate HashesInTurn(o: Outside, c: Collector, signer: Signer, alg: Algorithm, g: GroupKey, fmn: nat, digests: seq<Octets>, r: Result) {
    exists steps: seq<Result> :: InTurn(o, c, signer, alg, g, fmn, digests, steps) && steps[|digests|] == r
  }

  lemma OneInTurn(o: Outside, c: Collector, signer: Signer, alg: Algorithm, g: GroupKey, fmn: nat, digests: seq<Octets>, i: nat)
    requires i < |digests|
    ensures OneHash(o, signer, alg, g, fmn + i, digests[i], SignEach(o, c, signer, alg, g, fmn, digests[..i]), SignEach(o, c, signer, alg, g, fmn, digests[..i + 1]))
  {
    hide SignOne, HashSo;
    assert digests[..i + 1][..i] == digests[..i];
    HashesSo(o, SignEach(o, c, signer, alg, g, fmn, digests[..i]).c, signer, alg, g, fmn + i, digests[i]);
  }

  lemma EachInTurn(o: Outside, c: Collector, signer: Signer, alg: Algorithm, g: GroupKey, fmn: nat, digests: seq<Octets>)
    ensures HashesInTurn(o, c, signer, alg, g, fmn, digests, SignEach(o, c, signer, alg, g, fmn, digests))
  {
    hide OneHash;
    var steps := seq(|digests| + 1, k requires 0 <= k < |digests| + 1 => SignEach(o, c, signer, alg, g, fmn, digests[..k]));
    forall i | 0 <= i < |digests| ensures OneHash(o, signer, alg, g, fmn + i, digests[i], steps[i], steps[i + 1]) {
      OneInTurn(o, c, signer, alg, g, fmn, digests, i);
    }
    assert digests[..|digests|] == digests && digests[..0] == [];
    assert InTurn(o, c, signer, alg, g, fmn, digests, steps);
  }

  /** What a signature block does in its group: the numbers it skips are reported, it counts as covered, and its hashes follow. */
  ghost predicate SignatureSo(o: Outside, c: Collector, signer: Signer, alg: Algorithm, key: SessionKey, id: GroupId, fmn: nat, digests: seq<Octets>, r: Result) {
    if key !in c.sessions || c.sessions[key].payload.None? then r == Result(c, [Refused("no-session")])
    else
      var s, last := c.sessions[key], fmn + |digests| - 1;
      var covered, auth := if id in s.groups then s.groups[id].covered else 0, if id in s.groups then s.groups[id].auth else {};
      var group := Group(auth, if covered <= last then last else covered);
      exists signed: Result ::
        && HashesInTurn(o, c.(sessions := c.sessions[key := s.(groups := s.groups[id := group])]), signer, alg, GroupKey(key, id), fmn, digests, signed)
        && r == Result(signed.c, (if signer.gaps && 0 < covered < fmn - 1 then [Gap(GroupKey(key, id), covered + 1, fmn - 1)] else []) + signed.emit)
  }

  lemma SignaturesSo(o: Outside, c: Collector, signer: Signer, alg: Algorithm, key: SessionKey, id: GroupId, fmn: nat, digests: seq<Octets>)
    requires fmn > 0 && digests != []
    ensures SignatureSo(o, c, signer, alg, key, id, fmn, digests, OnSignature(o, c, signer, alg, key, id, fmn, digests))
  {
    hide HashesInTurn, SignEach;
    if key in c.sessions && c.sessions[key].payload.Some? {
      var s := c.sessions[key];
      var q := if id in s.groups then s.groups[id] else Group({}, 0);
      var b := c.(sessions := c.sessions[key := s.(groups := s.groups[id := q.(covered := MaxOf(q.covered, fmn + |digests| - 1))])]);
      EachInTurn(o, b, signer, alg, GroupKey(key, id), fmn, digests);
    }
  }

  // ---- certificates

  predicate SameAt(payload: Octets, f: Fragment) {
    1 <= f.index && f.index - 1 + |f.octets| <= |payload| && forall k :: 0 <= k < |f.octets| ==> payload[f.index - 1 + k] == f.octets[k]
  }

  /** The session over, with its groups, its fragments and whatever waits in it. */
  ghost predicate SessionEnded(c: Collector, key: SessionKey, d: Collector) {
    && d == c.(sessions := c.sessions[key := Session(None, map[], None, [])], waiting := d.waiting)
    && d.waiting == Elsewhere(c.waiting, key)
  }

  function Elsewhere(ws: seq<Waiting>, key: SessionKey): seq<Waiting> {
    if ws == [] then [] else (if ws[0].group.session == key then [] else [ws[0]]) + Elsewhere(ws[1..], key)
  }

  lemma {:induction false} OneMoreElsewhere(ws: seq<Waiting>, w: Waiting, key: SessionKey)
    ensures Elsewhere(ws + [w], key) == Elsewhere(ws, key) + if w.group.session == key then [] else [w]
  {
    if ws == [] {
      assert [] + [w] == [w] && [w][1..] == [];
    } else {
      OneMoreElsewhere(ws[1..], w, key);
      assert (ws + [w])[1..] == ws[1..] + [w];
      var x, y := if ws[0].group.session == key then [] else [ws[0]], if w.group.session == key then [] else [w];
      assert x + (Elsewhere(ws[1..], key) + y) == x + Elsewhere(ws[1..], key) + y;
    }
  }

  lemma {:induction false} ElsewhereIs(ws: seq<Waiting>, key: SessionKey)
    ensures NotOf(ws, key) == Elsewhere(ws, key)
  {
    if ws != [] {
      ElsewhereIs(ws[..|ws| - 1], key);
      OneMoreElsewhere(ws[..|ws| - 1], ws[|ws| - 1], key);
      assert ws == ws[..|ws| - 1] + [ws[|ws| - 1]];
    }
  }

  /** What a fragment has at a position. */
  predicate At(f: Fragment, p: nat, x: byte) { f.index <= p < f.index + |f.octets| && f.octets[p - f.index] == x }

  /** Some position both fragments have, and have differently. */
  ghost predicate Differ(f: Fragment, g: Fragment) { exists p: nat, x: byte, y: byte :: At(f, p, x) && At(g, p, y) && x != y }

  ghost predicate There(frags: seq<Fragment>, p: nat) { exists i, x: byte :: 0 <= i < |frags| && At(frags[i], p, x) }

  /** At every position stands what some fragment has there. */
  ghost predicate PutTogether(frags: seq<Fragment>, payload: Octets) {
    forall k :: 0 <= k < |payload| ==> StandsIn(frags, k + 1, payload[k])
  }

  ghost predicate StandsIn(frags: seq<Fragment>, p: nat, x: byte) { exists i :: 0 <= i < |frags| && At(frags[i], p, x) }

  /** Every position is covered. */
  ghost predicate AllThere(frags: seq<Fragment>, tpbl: nat) { forall p :: 1 <= p <= tpbl ==> There(frags, p) }

  /** A fragment in a session not established: refused if it does not fit the others, kept until all are there, and then their payload tried. */
  ghost predicate FragmentSo(o: Outside, c: Collector, signer: Signer, key: SessionKey, tpbl: nat, f: Fragment, r: Result)
    requires key in c.sessions
  {
    var s := c.sessions[key];
    if (s.tpbl.Some? && s.tpbl.value != tpbl) || exists i :: 0 <= i < |s.frags| && Differ(s.frags[i], f) then r == Result(c, [Refused("fragment-mismatch")])
    else if !AllPlaced(s.frags + [f], tpbl) || !AllThere(s.frags + [f], tpbl) then
      r == Result(c.(sessions := c.sessions[key := s.(tpbl := Some(tpbl), frags := s.frags + [f])]), [])
    else exists payload: Octets :: |payload| == tpbl && PutTogether(s.frags + [f], payload) && TriedSo(o, c, signer, key, payload, r)
  }

  /** A complete payload establishes its session afresh and raises the floor for older ones, or is refused and dropped. */
  ghost predicate TriedSo(o: Outside, c: Collector, signer: Signer, key: SessionKey, payload: Octets, r: Result)
    requires key in c.sessions
  {
    var fault, s, top := o.payloadFault(signer, payload), c.sessions[key], (key.host, key.app);
    if fault.Some? then r == Result(c.(sessions := c.sessions[key := s.(tpbl := None, frags := [])]), [Refused(fault.value)])
    else
      && r.emit == [Established(key, signer.key)]
      && r.c == c.(sessions := c.sessions[key := Session(Some(payload), map[], None, [])], highest := r.c.highest)
      && (forall t :: t in r.c.highest <==> t in c.highest || t == top) && (forall t :: t in c.highest && t != top ==> r.c.highest[t] == c.highest[t])
      && key.rsid <= r.c.highest[top] && (top in c.highest ==> c.highest[top] <= r.c.highest[top])
      && (r.c.highest[top] == key.rsid || (top in c.highest && r.c.highest[top] == c.highest[top]))
  }

  ghost predicate CertificateSo(o: Outside, c: Collector, signer: Signer, key: SessionKey, tpbl: nat, f: Fragment, r: Result) {
    if key in c.sessions && c.sessions[key].payload.Some? then
      if |c.sessions[key].payload.value| == tpbl && SameAt(c.sessions[key].payload.value, f) then r == Result(c, [])
      else exists d: Collector :: SessionEnded(c, key, d) && FragmentSo(o, d, signer, key, tpbl, f, r)
    else if key in c.sessions then FragmentSo(o, c, signer, key, tpbl, f, r)
    else FragmentSo(o, c.(sessions := c.sessions[key := Session(None, map[], None, [])]), signer, key, tpbl, f, r)
  }

  lemma DiffersIs(f: Fragment, g: Fragment)
    ensures Conflict(f, g) <==> Differ(f, g)
  {
    if Conflict(f, g) {
      var k :| f.index <= k < f.index + |f.octets| && Has(g, k) && f.octets[k - f.index] != g.octets[k - g.index];
      assert At(f, k, f.octets[k - f.index]) && At(g, k, g.octets[k - g.index]);
    }
    if Differ(f, g) {
      var p: nat, x: byte, y: byte :| At(f, p, x) && At(g, p, y) && x != y;
      assert Has(g, p);
    }
  }

  lemma ThereAt(frags: seq<Fragment>, p: nat)
    ensures Covers(frags, p) <==> There(frags, p)
  {
    if Covers(frags, p) {
      var i :| 0 <= i < |frags| && Has(frags[i], p);
      assert At(frags[i], p, frags[i].octets[p - frags[i].index]);
    }
    if There(frags, p) {
      var i, x: byte :| 0 <= i < |frags| && At(frags[i], p, x);
      assert Has(frags[i], p);
    }
  }

  lemma ThereIs(frags: seq<Fragment>, tpbl: nat)
    ensures Complete(frags, tpbl) <==> AllThere(frags, tpbl)
  {
    hide Covers, There;
    forall p | 1 <= p <= tpbl ensures Covers(frags, p) <==> There(frags, p) { ThereAt(frags, p); }
  }

  lemma {:induction false} TogetherAt(frags: seq<Fragment>, tpbl: nat, k: nat)
    requires AllPlaced(frags, tpbl) && k < tpbl && Covers(frags, k + 1)
    ensures StandsIn(frags, k + 1, Assembled(frags, tpbl)[k])
  {
    var n := |frags| - 1;
    var f := frags[n];
    assert Placed(f, tpbl);
    if Has(f, k + 1) {
      assert At(frags[n], k + 1, Assembled(frags, tpbl)[k]);
    } else {
      assert Covers(frags[..n], k + 1) by {
        var i :| 0 <= i < |frags| && Has(frags[i], k + 1);
        assert frags[..n][i] == frags[i];
      }
      TogetherAt(frags[..n], tpbl, k);
      var i :| 0 <= i < n && At(frags[..n][i], k + 1, Assembled(frags[..n], tpbl)[k]);
      assert At(frags[i], k + 1, Assembled(frags, tpbl)[k]);
    }
  }

  lemma Together(frags: seq<Fragment>, tpbl: nat)
    requires AllPlaced(frags, tpbl) && Complete(frags, tpbl)
    ensures PutTogether(frags, Assembled(frags, tpbl))
  {
    hide Assembled, Covers, StandsIn, AllPlaced;
    assert |Assembled(frags, tpbl)| == tpbl;
    forall k | 0 <= k < |Assembled(frags, tpbl)| ensures StandsIn(frags, k + 1, Assembled(frags, tpbl)[k]) {
      assert Covers(frags, k + 1);
      TogetherAt(frags, tpbl, k);
    }
  }

  lemma FragmentsSo(o: Outside, c: Collector, signer: Signer, key: SessionKey, tpbl: nat, f: Fragment)
    requires key in c.sessions
    ensures FragmentSo(o, c, signer, key, tpbl, f, AddFragment(o, c, signer, key, tpbl, f))
  {
    hide Conflict, Differ, Complete, AllThere, Assembled, PutTogether, AllPlaced, Establish, TriedSo;
    var s := c.sessions[key];
    forall i | 0 <= i < |s.frags| ensures Conflict(s.frags[i], f) <==> Differ(s.frags[i], f) { DiffersIs(s.frags[i], f); }
    ThereIs(s.frags + [f], tpbl);
    if AllPlaced(s.frags + [f], tpbl) && Complete(s.frags + [f], tpbl) {
      var payload := Assembled(s.frags + [f], tpbl);
      Together(s.frags + [f], tpbl);
      TriesSo(o, c, signer, key, payload);
    }
  }

  lemma TriesSo(o: Outside, c: Collector, signer: Signer, key: SessionKey, payload: Octets)
    requires key in c.sessions
    ensures TriedSo(o, c, signer, key, payload, Establish(o, c, signer, key, c.sessions[key], payload))
  {
  }

  lemma CertificatesSo(o: Outside, c: Collector, signer: Signer, key: SessionKey, tpbl: nat, f: Fragment)
    ensures CertificateSo(o, c, signer, key, tpbl, f, OnCertificate(o, c, signer, key, tpbl, f))
  {
    hide AddFragment, FragmentSo, NotOf, Elsewhere, SameAt, Repeats;
    ElsewhereIs(c.waiting, key);
    if key in c.sessions {
      assert c.sessions[key := c.sessions[key]] == c.sessions;
      if c.sessions[key].payload.Some? {
        RepeatsIs(c.sessions[key].payload.value, tpbl, f);
        var d := Ended(c, key);
        assert SessionEnded(c, key, d);
        FragmentsSo(o, d, signer, key, tpbl, f);
      } else {
        FragmentsSo(o, c, signer, key, tpbl, f);
      }
    } else {
      FragmentsSo(o, c.(sessions := c.sessions[key := NewSession()]), signer, key, tpbl, f);
    }
  }

  lemma RepeatsIs(payload: Octets, tpbl: nat, f: Fragment)
    ensures Repeats(payload, tpbl, f) <==> |payload| == tpbl && SameAt(payload, f)
  {
    if 1 <= f.index && f.index - 1 + |f.octets| <= |payload| {
      var part := payload[f.index - 1..f.index - 1 + |f.octets|];
      assert forall k :: 0 <= k < |f.octets| ==> part[k] == payload[f.index - 1 + k];
      if SameAt(payload, f) { assert part == f.octets; }
    }
  }

  // ---- blocks

  /** What a block may be refused for, in the order it is looked at. */
  ghost function Faults(c: Collector, b: Block): seq<(bool, string)> {
    if b.Malformed? then [(true, "malformed-block")]
    else
      var top := (b.h.session.host, b.h.session.app);
      [(if b.Certificate? then b.frag.octets == [] || b.frag.index < 1 || b.tpbl < b.frag.index - 1 + |b.frag.octets|
        else b.fmn < 1 || |b.digests| < 1 || 99 < |b.digests|, "malformed-block"),
       (b.h.alg.None?, "unsupported-version"), (b.h.signer.None?, "unknown-signer"), (!b.h.verified, "bad-signature"),
       (0 < b.h.session.rsid && top in c.highest && b.h.session.rsid < c.highest[top], "old-session")]
  }

  ghost predicate FaultOf(faults: seq<(bool, string)>, why: string) {
    exists i :: 0 <= i < |faults| && faults[i] == (true, why) && forall j :: 0 <= j < i ==> !faults[j].0
  }

  ghost predicate BlockSo(o: Outside, c: Collector, b: Block, r: Result) {
    var faults := Faults(c, b);
    || (exists why :: FaultOf(faults, why) && r == Result(c, [Refused(why)]))
    || ((forall i :: 0 <= i < |faults| ==> !faults[i].0) && !b.Malformed? && b.h.signer.Some? && b.h.alg.Some?
        && if b.Certificate? then CertificateSo(o, c, b.h.signer.value, b.h.session, b.tpbl, b.frag, r)
           else SignatureSo(o, c, b.h.signer.value, b.h.alg.value, b.h.session, b.id, b.fmn, b.digests, r))
  }

  lemma BlocksSo(o: Outside, c: Collector, b: Block)
    ensures BlockSo(o, c, b, OnBlock(o, c, b))
  {
    hide CertificateSo, SignatureSo, OnCertificate, OnSignature;
    var faults := Faults(c, b);
    if b.Malformed? || faults[0].0 {
      assert faults[0] == (true, "malformed-block") && FaultOf(faults, "malformed-block");
    } else if faults[1].0 {
      assert FaultOf(faults, "unsupported-version");
    } else if faults[2].0 {
      assert FaultOf(faults, "unknown-signer");
    } else if faults[3].0 {
      assert FaultOf(faults, "bad-signature");
    } else if faults[4].0 {
      assert FaultOf(faults, "old-session");
    } else if b.Certificate? {
      CertificatesSo(o, c, b.h.signer.value, b.h.session, b.tpbl, b.frag);
    } else {
      SignaturesSo(o, c, b.h.signer.value, b.h.alg.value, b.h.session, b.id, b.fmn, b.digests);
    }
  }

  // ---- time passing

  function Only<T>(s: seq<T>, p: T -> bool): seq<T> {
    if s == [] then [] else (if p(s[0]) then [s[0]] else []) + Only(s[1..], p)
  }

  lemma {:induction false} OnlyOneMore<T>(s: seq<T>, x: T, p: T -> bool)
    ensures Only(s + [x], p) == Only(s, p) + if p(x) then [x] else []
  {
    if s == [] {
      assert [] + [x] == [x] && [x][1..] == [];
    } else {
      OnlyOneMore(s[1..], x, p);
      assert (s + [x])[1..] == s[1..] + [x];
      var a, b := if p(s[0]) then [s[0]] else [], if p(x) then [x] else [];
      assert a + (Only(s[1..], p) + b) == a + Only(s[1..], p) + b;
    }
  }

  function HeldOn(now: int): Held -> bool { (h: Held) => now < h.due }

  function HeldUp(now: int): Held -> bool { (h: Held) => h.due <= now }

  function WaitsOn(now: int): Waiting -> bool { (w: Waiting) => now < w.due }

  lemma {:induction false} HeldParts(hs: seq<Held>, now: int)
    ensures KeptHeld(hs, now) == Only(hs, HeldOn(now))
    ensures var up := Only(hs, HeldUp(now)); |DueHeld(hs, now)| == |up| && forall i :: 0 <= i < |up| ==> DueHeld(hs, now)[i] == Deposit(up[i].msg, None)
  {
    if hs != [] {
      var front, h := hs[..|hs| - 1], hs[|hs| - 1];
      HeldParts(front, now);
      OnlyOneMore(front, h, HeldOn(now));
      OnlyOneMore(front, h, HeldUp(now));
      assert hs == front + [h];
    }
  }

  lemma {:induction false} WaitsParts(ws: seq<Waiting>, now: int)
    ensures KeptWaiting(ws, now) == Only(ws, WaitsOn(now))
  {
    if ws != [] {
      var front, w := ws[..|ws| - 1], ws[|ws| - 1];
      WaitsParts(front, now);
      OnlyOneMore(front, w, WaitsOn(now));
      assert ws == front + [w];
    }
  }

  /** The number's hash waited until now, for a signer whose gaps are reported. */
  ghost predicate LostNow(c: Collector, now: int, g: GroupKey, n: nat) {
    exists w :: w in c.waiting && w.due <= now && w.gaps && w.group == g && w.number == n
  }

  /** The gaps name exactly the numbers lost, and no two neighbouring ones could be one. */
  ghost predicate GapsSo(c: Collector, now: int, gaps: seq<Emission>) {
    Apart(gaps) && forall g: GroupKey, n: nat :: (exists e :: e in gaps && InGap(e, g, n)) <==> LostNow(c, now, g, n)
  }

  /** Messages held as long as they may be are deposited unsigned in the order they came, and then what is lost is reported. */
  ghost predicate AdvancedSo(c: Collector, seconds: nat, r: Result) {
    var now := c.now + seconds;
    var up := Only(c.held, HeldUp(now));
    && r.c == c.(now := now, held := Only(c.held, HeldOn(now)), waiting := Only(c.waiting, WaitsOn(now)))
    && |up| <= |r.emit| && (forall i :: 0 <= i < |up| ==> r.emit[i] == Deposit(up[i].msg, None))
    && GapsSo(c, now, r.emit[|up|..])
  }

  ghost predicate Apart(gaps: seq<Emission>) {
    && (forall i :: 0 <= i < |gaps| ==> gaps[i].Gap? && gaps[i].first <= gaps[i].last)
    && forall i :: 0 < i < |gaps| ==> gaps[i - 1].group != gaps[i].group || gaps[i].first != gaps[i - 1].last + 1
  }

  lemma {:induction false} RangesApart(lost: seq<(GroupKey, nat)>)
    ensures Apart(Ranges(lost))
  {
    hide Apart;
    if lost == [] {
      NoneApart();
    } else {
      var before := Ranges(lost[..|lost| - 1]);
      var (g, n) := lost[|lost| - 1];
      RangesApart(lost[..|lost| - 1]);
      ApartGives(before);
      if before != [] && before[|before| - 1].group == g && n == before[|before| - 1].last + 1 {
        LastGrows(before, n);
      } else {
        OneMoreApart(before, g, n);
      }
    }
  }

  lemma NoneApart()
    ensures Apart([])
  {
  }

  lemma ApartGives(gaps: seq<Emission>)
    requires Apart(gaps)
    ensures gaps != [] ==> gaps[|gaps| - 1].Gap?
  {
  }

  lemma LastGrows(gaps: seq<Emission>, n: nat)
    requires Apart(gaps) && gaps != [] && gaps[|gaps| - 1].Gap? && n == gaps[|gaps| - 1].last + 1
    ensures Apart(gaps[..|gaps| - 1] + [gaps[|gaps| - 1].(last := n)])
  {
  }

  lemma OneMoreApart(gaps: seq<Emission>, g: GroupKey, n: nat)
    requires Apart(gaps) && !(gaps != [] && gaps[|gaps| - 1].Gap? && gaps[|gaps| - 1].group == g && n == gaps[|gaps| - 1].last + 1)
    ensures Apart(gaps + [Gap(g, n, n)])
  {
  }

  lemma AdvancesSo(c: Collector, seconds: nat, lost: seq<(GroupKey, nat)>)
    requires Listing(lost, Lost(c.waiting, c.now + seconds))
    ensures AdvancedSo(c, seconds, OnAdvance(c, seconds, lost))
  {
    hide KeptHeld, DueHeld, KeptWaiting, Ranges, Only, Earlier;
    var now := c.now + seconds;
    HeldParts(c.held, now);
    WaitsParts(c.waiting, now);
    RangesSay(lost);
    RangesApart(lost);
    var r := OnAdvance(c, seconds, lost);
    assert r.emit[|DueHeld(c.held, now)|..] == Ranges(lost);
    forall g: GroupKey, n: nat ensures (g, n) in lost <==> LostNow(c, now, g, n) { LostIs(c, now, g, n, lost); }
  }

  lemma LostIs(c: Collector, now: int, g: GroupKey, n: nat, lost: seq<(GroupKey, nat)>)
    requires forall x :: x in lost <==> x in Lost(c.waiting, now)
    ensures (g, n) in lost <==> LostNow(c, now, g, n)
  {
    if (g, n) in lost {
      assert (g, n) in Lost(c.waiting, now);
      var i :| 0 <= i < |c.waiting| && c.waiting[i].due <= now && c.waiting[i].gaps && (c.waiting[i].group, c.waiting[i].number) == (g, n);
      assert c.waiting[i] in c.waiting;
    }
    if LostNow(c, now, g, n) {
      var w :| w in c.waiting && w.due <= now && w.gaps && w.group == g && w.number == n;
      var i :| 0 <= i < |c.waiting| && c.waiting[i] == w;
      assert (c.waiting[i].group, c.waiting[i].number) in Lost(c.waiting, now);
    }
  }

  // ---- every event

  ghost predicate StepSo(o: Outside, c: Collector, ev: Event, r: Result) {
    match ev
    case Receive(Foreign(msg)) => r == Result(c, [Deposit(msg, None)])
    case Receive(Ours(msg)) => OursSo(o, c, msg, r)
    case Receive(ABlock(b)) => BlockSo(o, c, b, r)
    case Advance(seconds, _) => AdvancedSo(c, seconds, r)
  }

  /** What every event does, an advance being given what it loses in order. */
  lemma EveryArrivalDoes(o: Outside, c: Collector, ev: Event)
    requires ev.Advance? ==> Listing(ev.lost, Lost(c.waiting, c.now + ev.seconds))
    ensures StepSo(o, c, ev, Step(o, c, ev))
  {
    hide OursSo, BlockSo, AdvancedSo, OnOurs, OnBlock, OnAdvance, Listing, Lost;
    match ev
    case Receive(Foreign(_)) =>
    case Receive(Ours(msg)) => ArrivesSo(o, c, msg);
    case Receive(ABlock(b)) => BlocksSo(o, c, b);
    case Advance(seconds, lost) => AdvancesSo(c, seconds, lost);
  }

  // ---- a number listed is settled

  /** Its message has been deposited as signed, or its hash waits. */
  ghost predicate Settled(c: Collector, g: GroupKey, number: nat) { IsDone(c, g, number) || AlreadyWaits(c.waiting, g, number) }

  lemma HashSettles(o: Outside, c: Collector, signer: Signer, alg: Algorithm, g: GroupKey, number: nat, digest: Octets, n: nat)
    requires HasGroup(c.sessions, g)
    ensures var d := SignOne(o, c, signer, alg, g, number, digest).c;
            HasGroup(d.sessions, g) && (Settled(c, g, n) || n == number ==> Settled(d, g, n))
  {
    hide FindHeld;
    var d := SignOne(o, c, signer, alg, g, number, digest).c;
    if AlreadyWaits(c.waiting, g, n) {
      var i :| 0 <= i < |c.waiting| && c.waiting[i].group == g && c.waiting[i].number == n;
      assert d.waiting[i] == c.waiting[i];
    }
    if d.waiting != c.waiting {
      assert d.waiting[|c.waiting|].group == g && d.waiting[|c.waiting|].number == number;
    }
  }

  /** Once a block has been taken up, every number it lists is signed or its hash waits, and no held message has a hash that waits. */
  lemma {:induction false} ListedIsSettled(o: Outside, c: Collector, signer: Signer, alg: Algorithm, g: GroupKey, fmn: nat, digests: seq<Octets>, i: nat)
    requires CollectorOk(o, c) && HasGroup(c.sessions, g) && i < |digests|
    ensures var d := SignEach(o, c, signer, alg, g, fmn, digests).c;
            Settled(d, g, fmn + i) && HasGroup(d.sessions, g) && Clean(o, d.held, d.waiting)
  {
    hide SignOne, Settled;
    SignEachKeeps(o, c, signer, alg, g, fmn, digests);
    var n := |digests| - 1;
    var b := SignEach(o, c, signer, alg, g, fmn, digests[..n]).c;
    SignEachKeeps(o, c, signer, alg, g, fmn, digests[..n]);
    if i < n { ListedIsSettled(o, c, signer, alg, g, fmn, digests[..n], i); }
    HashSettles(o, b, signer, alg, g, fmn + n, digests[n], fmn + i);
  }
}
