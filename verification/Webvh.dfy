/**
 * Resolving a `did:webvh` from its hash-chained log (`webvh.ts`): the checks in order, and what they force on any
 * two logs that share a version.
 */
module Webvh {
  import opened Prelude
  import opened Canonical

  datatype Instant = Instant(seconds: int, nanos: int)

  /** What the resolver takes from elsewhere: digests, keys, signatures, times and DID syntax. */
  datatype Outside = Outside(
    hash: Text -> Text,
    isHash: Text -> bool,
    keyHash: Text -> Text,
    isKey: Text -> bool,
    time: Text -> Option<Instant>,
    scidOf: Text -> Option<Text>,
    signer: Json -> Option<Text>,
    verifies: (Json, Text, Json) -> bool,
    scidHolds: (Json, Text) -> bool)

  type Members = map<Text, Json>

  function T(s: string): (t: Text)
    ensures |t| == |s|
  {
    seq(|s|, i requires 0 <= i < |s| => if s[i] as int < 0x10000 then (s[i] as int) as unit else 0)
  }

  /** A log line: what it parsed to, if it is I-JSON. */
  type Line = Option<Json>

  // ---- small readings of JSON

  function TextAt(m: Members, k: Text): Option<Text> {
    if k in m && m[k].Str? then Some(m[k].s) else None
  }

  predicate IsTrue(m: Members, k: Text) { k in m && m[k] == Bool(true) }

  predicate AllStrings(v: Json) { v.Arr? && forall i :: 0 <= i < |v.items| ==> v.items[i].Str? }

  predicate Holds(v: Json, s: Text) { v.Arr? && Str(s) in v.items }

  // ---- versions

  predicate IsBase58(c: unit) {
    49 <= c <= 57 || (65 <= c <= 72) || (74 <= c <= 78) || (80 <= c <= 90) || (97 <= c <= 107) || (109 <= c <= 122)
  }

  /** The hash of a versionId whose number is `n`. */
  function HashPart(v: Text, n: nat): Option<Text> {
    var lead := Digits(n) + [MINUS];
    if |lead| < |v| && v[..|lead|] == lead && (forall i :: |lead| <= i < |v| ==> IsBase58(v[i])) then Some(v[|lead|..]) else None
  }

  /** The number of a cached versionId, if it has the form `<n>-<something>`. */
  function CachedNumber(v: Text): Option<nat> {
    var k := Run(v);
    if k > 0 && k <= |v| && v[0] != 48 && k + 1 < |v| && v[k] == MINUS then
      (RunDigits(v); Some(ValueOf(v[..k])))
    else None
  }

  lemma {:induction false} RunDigits(x: Text)
    ensures Run(x) <= |x| && forall i :: 0 <= i < Run(x) ==> IsDigit(x[i])
  {
    if x != [] && IsDigit(x[0]) {
      RunDigits(x[1..]);
      assert forall i :: 1 <= i < Run(x) ==> x[i] == x[1..][i - 1];
    }
  }

  predicate Later(a: Instant, b: Instant) {
    a.seconds > b.seconds || (a.seconds == b.seconds && a.nanos > b.nanos)
  }

  // ---- one entry

  predicate IsEntry(l: Line) {
    && l.Some? && l.value.Obj?
    && l.value.members.Keys == {T("parameters"), T("proof"), T("state"), T("versionId"), T("versionTime")}
    && l.value.members[T("state")].Obj?
    && l.value.members[T("proof")].Arr? && l.value.members[T("proof")].items != []
    && l.value.members[T("versionId")].Str?
  }

  function EntryOf(l: Line): Members
    requires IsEntry(l)
  {
    l.value.members
  }

  function VersionId(l: Line): Text
    requires IsEntry(l)
  {
    EntryOf(l)[T("versionId")].s
  }

  function WithoutProof(m: Members): Members {
    m - {T("proof")}
  }

  /** What an entry's hash covers: the entry without its proof, with the version it follows in place of its own. */
  function Hashed(m: Members, previous: Text): Json {
    Obj(WithoutProof(m)[T("versionId") := Str(previous)])
  }

  const PARAMETERS := ["method", "scid", "updateKeys", "nextKeyHashes", "witness", "watchers", "portable", "deactivated", "ttl"]

  predicate IsParameter(k: Text) {
    exists i :: 0 <= i < |PARAMETERS| && k == T(PARAMETERS[i])
  }

  predicate IsBool(p: Members, k: Text) { k in p ==> p[k].Bool? }

  predicate IsStrings(p: Members, k: Text) { k in p ==> AllStrings(p[k]) }

  /** A witness configuration: empty, or a threshold of a list of distinct keys. */
  predicate WitnessFits(o: Outside, w: Json) {
    && w.Obj?
    && (w.members == map[] || WitnessListFits(o, w.members))
  }

  predicate WitnessListFits(o: Outside, w: Members) {
    && w.Keys == {T("threshold"), T("witnesses")}
    && w[T("witnesses")].Arr? && w[T("witnesses")].items != []
    && (var list := w[T("witnesses")].items;
        && (forall i :: 0 <= i < |list| ==> WitnessKey(o, list[i]))
        && (forall i, j :: 0 <= i < j < |list| ==> list[i].members[T("id")] != list[j].members[T("id")])
        && w[T("threshold")].Int? && 1 <= w[T("threshold")].n <= |list|)
  }

  predicate WitnessKey(o: Outside, e: Json) {
    && e.Obj? && T("id") in e.members && e.members[T("id")].Str?
    && (var id := e.members[T("id")].s; |id| >= 8 && id[..8] == T("did:key:") && o.isKey(id[8..]))
  }

  predicate ParametersFit(o: Outside, v: Json, n: nat) {
    && v.Obj?
    && (var p := v.members;
        && (forall k :: k in p ==> IsParameter(k))
        && (n == 1 ==> T("method") in p && T("scid") in p && T("updateKeys") in p)
        && (n > 1 ==> T("scid") !in p)
        && (T("method") in p ==> p[T("method")] == Str(T("did:webvh:1.0")))
        && (T("scid") in p ==> p[T("scid")].Str? && o.isHash(p[T("scid")].s))
        && IsStrings(p, T("updateKeys")) && IsStrings(p, T("nextKeyHashes")) && IsStrings(p, T("watchers"))
        && (T("updateKeys") in p ==> forall i :: 0 <= i < |p[T("updateKeys")].items| ==> p[T("updateKeys")].items[i].Str? && o.isKey(p[T("updateKeys")].items[i].s))
        && IsBool(p, T("portable")) && IsBool(p, T("deactivated"))
        && (T("ttl") in p ==> p[T("ttl")].Int? && 0 <= p[T("ttl")].n <= 0x8000_0000)
        && !(n > 1 && IsTrue(p, T("portable")))
        && (T("witness") in p ==> WitnessFits(o, p[T("witness")])))
  }

  const DEFAULTS: Members := map[
    T("nextKeyHashes") := Arr([]), T("witness") := Obj(map[]), T("watchers") := Arr([]),
    T("portable") := Bool(false), T("deactivated") := Bool(false), T("ttl") := Int(3600)]

  /** What is known after the entries so far. */
  datatype Known = Known(actives: seq<Members>, scid: Text, time: Option<Instant>)

  datatype Verdict = Rejected(reason: string) | Accepted(k: Known)

  function ActiveBefore(k: Known): Members {
    if k.actives == [] then DEFAULTS else k.actives[|k.actives| - 1]
  }

  predicate PreRotated(before: Members) {
    T("nextKeyHashes") in before && before[T("nextKeyHashes")].Arr? && before[T("nextKeyHashes")].items != []
  }

  predicate KeyCommitted(o: Outside, before: Members, key: Json) {
    key.Str? && T("nextKeyHashes") in before && Holds(before[T("nextKeyHashes")], o.keyHash(key.s))
  }

  /** Every new key is one the previous entry committed to. */
  predicate Committed(o: Outside, before: Members, p: Members) {
    && T("updateKeys") in p && T("nextKeyHashes") in p && p[T("updateKeys")].Arr?
    && forall key :: key in p[T("updateKeys")].items ==> KeyCommitted(o, before, key)
  }

  /** Every proof has a key; those by an authorised key all verify. */
  predicate ProofsFit(o: Outside, proofs: seq<Json>, authorised: Json, document: Json) {
    forall i :: 0 <= i < |proofs| ==>
      o.signer(proofs[i]).Some? && (Holds(authorised, o.signer(proofs[i]).value) ==> o.verifies(proofs[i], o.signer(proofs[i]).value, document))
  }

  predicate SomeAuthorised(o: Outside, proofs: seq<Json>, authorised: Json) {
    exists i :: 0 <= i < |proofs| && o.signer(proofs[i]).Some? && Holds(authorised, o.signer(proofs[i]).value)
  }

  function StateId(m: Members): Option<Text>
    requires T("state") in m && m[T("state")].Obj?
  {
    TextAt(m[T("state")].members, T("id"))
  }

  /** Checks 3 to 11 on the last line, given what the lines before it established. */
  ghost function CheckLine(o: Outside, now: int, log: seq<Line>, k: Known): Verdict
    requires log != [] && (forall i :: 0 <= i < |log| - 1 ==> IsEntry(log[i]))
  {
    var n := |log|;
    var l := log[n - 1];
    var before := ActiveBefore(k);
    if !IsEntry(l) then Rejected("log-malformed")
    else
      var e := EntryOf(l);
      var h := HashPart(VersionId(l), n);
      var time := if e[T("versionTime")].Str? then o.time(e[T("versionTime")].s) else None;
      if h.None? then Rejected("version-number")
      else if !o.isHash(h.value) then Rejected("entry-hash")
      else if time.None? || (k.time.Some? && !Later(time.value, k.time.value)) || Later(time.value, Instant(now + 300, 0)) then Rejected("version-time")
      else if IsTrue(before, T("deactivated")) then Rejected("after-deactivation")
      else if !ParametersFit(o, e[T("parameters")], n) then Rejected("parameters")
      else
        var p := e[T("parameters")].members;
        var scid := if n == 1 then p[T("scid")].s else k.scid;
        var active := before + p;
        var rotated := n > 1 && PreRotated(before);
        var keys := if n == 1 || rotated then p else before;
        var authorised := if T("updateKeys") in keys then keys[T("updateKeys")] else Null;
        var document := Obj(WithoutProof(e));
        var previous := if n == 1 then scid else VersionId(log[n - 2]);
        if n == 1 && !o.scidHolds(Obj(WithoutProof(e)[T("versionId") := Str(T("{SCID}"))]), scid) then Rejected("scid")
        else if !HashIs(o, e, previous, h.value) then Rejected("entry-hash")
        else if rotated && !Committed(o, before, p) then Rejected("pre-rotation")
        else if !ProofsFit(o, e[T("proof")].items, authorised, document) then Rejected("proof")
        else if !SomeAuthorised(o, e[T("proof")].items, authorised) then Rejected("unauthorized-key")
        else if !IdentityFits(o, log, scid, active) then Rejected("identity")
        else Accepted(Known(k.actives + [active], scid, time))
  }

  /** The entry's hash is that of its canonical form. */
  ghost predicate HashIs(o: Outside, e: Members, previous: Text, h: Text) {
    o.hash(Jcs(Hashed(e, previous))) == h
  }

  /** The state names the log's own identity, unchanged or moved as a portable one may be. */
  predicate IdentityFits(o: Outside, log: seq<Line>, scid: Text, active: Members)
    requires log != [] && forall i :: 0 <= i < |log| ==> IsEntry(log[i])
  {
    var n := |log|;
    var state := EntryOf(log[n - 1])[T("state")].members;
    var id := TextAt(state, T("id"));
    && id.Some? && o.scidOf(id.value) == Some(scid)
    && (n > 1 ==>
          var previous := StateId(EntryOf(log[n - 2]));
          || id == previous
          || (IsTrue(active, T("portable")) && previous.Some? && T("alsoKnownAs") in state && Holds(state[T("alsoKnownAs")], previous.value)))
  }

  ghost function CheckAll(o: Outside, now: int, log: seq<Line>): (v: Verdict)
    ensures v.Accepted? ==> |v.k.actives| == |log| && forall i :: 0 <= i < |log| ==> IsEntry(log[i])
  {
    if log == [] then Accepted(Known([], [], None))
    else
      var r := CheckAll(o, now, log[..|log| - 1]);
      if r.Rejected? then r
      else
        assert forall i :: 0 <= i < |log| - 1 ==> log[i] == log[..|log| - 1][i];
        CheckLine(o, now, log, r.k)
  }

  // ---- witnesses

  function WitnessOf(active: Members): Members {
    if T("witness") in active && active[T("witness")].Obj? then active[T("witness")].members else map[]
  }

  /** The configuration an entry is witnessed under: the one before it, or its own where there was none. */
  function WitnessConfig(actives: seq<Members>, i: nat): Members
    requires i < |actives|
  {
    if i == 0 || WitnessOf(actives[i - 1]) == map[] then WitnessOf(actives[i]) else WitnessOf(actives[i - 1])
  }

  /** A record holds a valid proof by `id` for a version. */
  predicate Evidence(o: Outside, record: Json, version: Text, id: Text) {
    && record.Obj? && TextAt(record.members, T("versionId")) == Some(version)
    && T("proof") in record.members && record.members[T("proof")].Arr?
    && exists q :: 0 <= q < |record.members[T("proof")].items| && ProofBy(o, record.members[T("proof")].items[q], version, id)
  }

  predicate ProofBy(o: Outside, proof: Json, version: Text, id: Text) {
    var key := o.signer(proof);
    && proof.Obj? && key.Some? && o.isKey(key.value) && id == T("did:key:") + key.value
    && o.verifies(proof, key.value, Obj(map[T("versionId") := Str(version)]))
  }

  /** Some record proves the entry itself or a later one. */
  predicate Approves(o: Outside, log: seq<Line>, records: seq<Json>, i: nat, id: Text)
    requires forall x :: 0 <= x < |log| ==> IsEntry(log[x])
  {
    exists j, r :: i <= j < |log| && 0 <= r < |records| && Evidence(o, records[r], VersionId(log[j]), id)
  }

  predicate IsMember(config: Members, id: Text) {
    && T("witnesses") in config && config[T("witnesses")].Arr?
    && exists i :: 0 <= i < |config[T("witnesses")].items| && Named(config[T("witnesses")].items[i], id)
  }

  predicate Named(entry: Json, id: Text) {
    entry.Obj? && TextAt(entry.members, T("id")) == Some(id)
  }

  /** As many of the configured witnesses as it asks for, each approving the entry. */
  predicate Enough(o: Outside, log: seq<Line>, config: Members, records: seq<Json>, i: nat, approving: set<Text>)
    requires forall x :: 0 <= x < |log| ==> IsEntry(log[x])
  {
    && (forall id :: id in approving ==> IsMember(config, id) && Approves(o, log, records, i, id))
    && T("threshold") in config && config[T("threshold")].Int? && config[T("threshold")].n <= |approving|
  }

  ghost predicate EntryWitnessed(o: Outside, log: seq<Line>, config: Members, records: seq<Json>, i: nat)
    requires forall x :: 0 <= x < |log| ==> IsEntry(log[x])
  {
    config == map[] || exists approving :: Enough(o, log, config, records, i, approving)
  }

  ghost predicate Witnessed(o: Outside, log: seq<Line>, actives: seq<Members>, evidence: Option<Json>)
    requires |actives| == |log| && forall x :: 0 <= x < |log| ==> IsEntry(log[x])
  {
    || (forall i :: 0 <= i < |log| ==> WitnessConfig(actives, i) == map[])
    || (evidence.Some?
        && forall i :: 0 <= i < |log| ==>
             EntryWitnessed(o, log, WitnessConfig(actives, i), if evidence.value.Arr? then evidence.value.items else [], i))
  }

  // ---- resolving

  datatype Outcome = Refused(reason: string) | Deactivated(version: Text) | Resolved(version: Text, time: Json, state: Json, ttl: Option<Json>)

  ghost function Resolve(o: Outside, did: Text, log: seq<Line>, evidence: Option<Json>, cache: Option<Text>, now: int): Outcome {
    var requested := o.scidOf(did);
    if requested.None? then Refused("invalid-did")
    else if log == [] then Refused("log-malformed")
    else
      var v := CheckAll(o, now, log);
      if v.Rejected? then Refused(v.reason)
      else if requested.value != v.k.scid || !(exists i :: 0 <= i < |log| && StateId(EntryOf(log[i])) == Some(did)) then Refused("identity")
      else if !Witnessed(o, log, v.k.actives, evidence) then Refused("witness")
      else
        var k := if cache.Some? then CachedNumber(cache.value) else None;
        if k.Some? && |log| < k.value then Refused("rollback")
        else if k.Some? && k.value > 0 && VersionId(log[k.value - 1]) != cache.value then Refused("fork")
        else
          var last := log[|log| - 1];
          var active := v.k.actives[|log| - 1];
          if IsTrue(active, T("deactivated")) then Deactivated(VersionId(last))
          else Resolved(VersionId(last), EntryOf(last)[T("versionTime")], EntryOf(last)[T("state")], if T("ttl") in active then Some(active[T("ttl")]) else None)
  }

  predicate Succeeds(r: Outcome) { !r.Refused? }

  // ---- what acceptance forces

  /** The version an entry follows: the one before it, or the log's own identifier. */
  function Previous(log: seq<Line>, scid: Text, i: nat): Text
    requires i < |log| && forall x :: 0 <= x < |log| ==> IsEntry(log[x])
  {
    if i == 0 then scid else VersionId(log[i - 1])
  }

  /** An entry's version is its number and the hash of its content after the version it follows. */
  ghost predicate Linked(o: Outside, log: seq<Line>, scid: Text, i: nat)
    requires i < |log| && forall x :: 0 <= x < |log| ==> IsEntry(log[x])
  {
    VersionId(log[i]) == Digits(i + 1) + [MINUS] + o.hash(Jcs(Hashed(EntryOf(log[i]), Previous(log, scid, i))))
  }

  lemma LineLinked(o: Outside, now: int, log: seq<Line>, k: Known)
    requires log != [] && (forall i :: 0 <= i < |log| - 1 ==> IsEntry(log[i])) && CheckLine(o, now, log, k).Accepted?
    ensures var v := CheckLine(o, now, log, k); Linked(o, log, v.k.scid, |log| - 1) && (|log| > 1 ==> v.k.scid == k.scid)
  {
    hide Jcs, Hashed, ParametersFit, ProofsFit, SomeAuthorised, Committed, IdentityFits, IsBase58, Digits, T;
    var n := |log|;
    var lead := Digits(n) + [MINUS];
    var version := VersionId(log[n - 1]);
    assert version == version[..|lead|] + version[|lead|..];
  }

  lemma {:induction false} AllLinked(o: Outside, now: int, log: seq<Line>, i: nat)
    requires CheckAll(o, now, log).Accepted? && i < |log|
    ensures Linked(o, log, CheckAll(o, now, log).k.scid, i)
  {
    hide CheckLine, Linked;
    var front := log[..|log| - 1];
    var r := CheckAll(o, now, front);
    LineLinked(o, now, log, r.k);
    if i < |log| - 1 {
      AllLinked(o, now, front, i);
      LinkedOn(o, front, log, r.k.scid, i);
    }
  }

  lemma LinkedOn(o: Outside, front: seq<Line>, log: seq<Line>, scid: Text, i: nat)
    requires i < |front| <= |log| && front == log[..|front|] && forall x :: 0 <= x < |log| ==> IsEntry(log[x])
    requires (forall x :: 0 <= x < |front| ==> IsEntry(front[x])) && Linked(o, front, scid, i)
    ensures Linked(o, log, scid, i)
  {
    hide Jcs, Hashed, IsEntry, Digits;
    assert log[i] == front[i] && (i > 0 ==> log[i - 1] == front[i - 1]);
  }

  /** No two of the contents hashed along the two logs collide. */
  ghost predicate NoCollision(o: Outside, a: seq<Line>, s: Text, b: seq<Line>, t: Text)
    requires (forall x :: 0 <= x < |a| ==> IsEntry(a[x])) && (forall x :: 0 <= x < |b| ==> IsEntry(b[x]))
  {
    forall i :: 0 <= i < |a| && i < |b| ==>
      var x, y := Jcs(Hashed(EntryOf(a[i]), Previous(a, s, i))), Jcs(Hashed(EntryOf(b[i]), Previous(b, t, i)));
      o.hash(x) == o.hash(y) ==> x == y
  }

  lemma HashedSame(a: Members, b: Members, p: Text, q: Text)
    requires Hashed(a, p) == Hashed(b, q) && T("versionId") in a && T("versionId") in b && a[T("versionId")] == b[T("versionId")]
    ensures p == q && WithoutProof(a) == WithoutProof(b)
  {
    var v := T("versionId");
    var x, y := WithoutProof(a)[v := Str(p)], WithoutProof(b)[v := Str(q)];
    assert x[v] == Str(p) && y[v] == Str(q);
    assert |T("proof")| != |v|;
    forall k ensures k in WithoutProof(a) <==> k in WithoutProof(b) { assert k in x <==> k in y; }
    forall k | k in WithoutProof(a) ensures WithoutProof(a)[k] == WithoutProof(b)[k] {
      if k != v { assert x[k] == y[k]; }
    }
  }

  /** Two linked entries with one version are the same apart from their proofs, and follow the same version. */
  lemma SameVersionSameEntry(o: Outside, a: seq<Line>, s: Text, b: seq<Line>, t: Text, i: nat)
    requires i < |a| && i < |b| && (forall x :: 0 <= x < |a| ==> IsEntry(a[x])) && (forall x :: 0 <= x < |b| ==> IsEntry(b[x]))
    requires Linked(o, a, s, i) && Linked(o, b, t, i) && NoCollision(o, a, s, b, t)
    requires VersionId(a[i]) == VersionId(b[i])
    ensures WithoutProof(EntryOf(a[i])) == WithoutProof(EntryOf(b[i])) && Previous(a, s, i) == Previous(b, t, i)
  {
    hide Jcs, Hashed, Digits, WithoutProof;
    var x, y := Hashed(EntryOf(a[i]), Previous(a, s, i)), Hashed(EntryOf(b[i]), Previous(b, t, i));
    DropLead(Digits(i + 1) + [MINUS], o.hash(Jcs(x)), o.hash(Jcs(y)));
    JcsInjective(x, y);
    HashedSame(EntryOf(a[i]), EntryOf(b[i]), Previous(a, s, i), Previous(b, t, i));
  }

  /** Two accepted logs that share version k share every entry up to it, apart from proofs. */
  lemma {:induction false} SharedVersionSharedHistory(o: Outside, a: seq<Line>, s: Text, b: seq<Line>, t: Text, k: nat, i: nat)
    requires 0 < k <= |a| && k <= |b| && (forall x :: 0 <= x < |a| ==> IsEntry(a[x])) && (forall x :: 0 <= x < |b| ==> IsEntry(b[x]))
    requires (forall x :: 0 <= x < |a| ==> Linked(o, a, s, x)) && (forall x :: 0 <= x < |b| ==> Linked(o, b, t, x)) && NoCollision(o, a, s, b, t)
    requires VersionId(a[k - 1]) == VersionId(b[k - 1]) && i < k
    ensures WithoutProof(EntryOf(a[i])) == WithoutProof(EntryOf(b[i])) && s == t
    decreases k
  {
    hide Linked, NoCollision, IsEntry, WithoutProof;
    assert Linked(o, a, s, k - 1) && Linked(o, b, t, k - 1);
    SameVersionSameEntry(o, a, s, b, t, k - 1);
    if k > 1 {
      SharedVersionSharedHistory(o, a, s, b, t, k - 1, if i < k - 1 then i else 0);
    }
  }

  lemma {:induction false} DigitsLead(n: nat)
    requires n > 0
    ensures Digits(n)[0] != 48
  {
    if n >= 10 {
      DigitsLead(n / 10);
      assert Digits(n)[0] == Digits(n / 10)[0];
    }
  }

  /** The number in a cached version is the place it was taken from. */
  lemma CachedNumberIs(v: Text, n: nat)
    requires n > 0 && HashPart(v, n).Some?
    ensures CachedNumber(v) == Some(n)
  {
    var d := Digits(n);
    var lead := d + [MINUS];
    assert v == d + ([MINUS] + v[|lead|..]) by { assert v == v[..|lead|] + v[|lead|..]; }
    RunOf(d, [MINUS] + v[|lead|..]);
    DigitsLead(n);
    DigitsSpell(n);
    assert v[..|d|] == d && v[|d|] == MINUS;
  }

  lemma {:induction false} RunOf(d: Text, r: Text)
    requires r != [] && !IsDigit(r[0]) && forall i :: 0 <= i < |d| ==> IsDigit(d[i])
    ensures Run(d + r) == |d|
  {
    if d == [] {
      assert d + r == r;
    } else {
      assert (d + r)[1..] == d[1..] + r;
      RunOf(d[1..], r);
    }
  }

  lemma {:induction false} NumberedRight(o: Outside, now: int, log: seq<Line>, i: nat)
    requires CheckAll(o, now, log).Accepted? && i < |log|
    ensures HashPart(VersionId(log[i]), i + 1).Some?
  {
    hide HashPart, ParametersFit, IdentityFits, ProofsFit, SomeAuthorised, Committed, HashIs, T;
    var front := log[..|log| - 1];
    if i < |log| - 1 {
      NumberedRight(o, now, front, i);
      assert front[i] == log[i];
    }
  }

  /**
   * Rollback and fork are refused: when a log resolves against a version cached from an earlier accepted log, its
   * entries up to that version are that log's, apart from their proofs.
   */
  lemma CacheHoldsHistory(o: Outside, did: Text, log: seq<Line>, evidence: Option<Json>, now: int, earlier: seq<Line>, past: int, k: nat, i: nat)
    requires CheckAll(o, past, earlier).Accepted? && 0 < k <= |earlier| && i < k
    requires Succeeds(Resolve(o, did, log, evidence, Some(VersionId(earlier[k - 1])), now))
    requires CheckAll(o, now, log).Accepted? ==> NoCollision(o, earlier, CheckAll(o, past, earlier).k.scid, log, CheckAll(o, now, log).k.scid)
    ensures k <= |log| && IsEntry(log[i]) && WithoutProof(EntryOf(log[i])) == WithoutProof(EntryOf(earlier[i]))
  {
    hide CheckAll, Witnessed, NoCollision, Linked, HashPart, CachedNumber, WithoutProof, T;
    NumberedRight(o, past, earlier, k - 1);
    CachedNumberIs(VersionId(earlier[k - 1]), k);
    var s, t := CheckAll(o, past, earlier).k.scid, CheckAll(o, now, log).k.scid;
    forall x | 0 <= x < |earlier| ensures Linked(o, earlier, s, x) { AllLinked(o, past, earlier, x); }
    forall x | 0 <= x < |log| ensures Linked(o, log, t, x) { AllLinked(o, now, log, x); }
    SharedVersionSharedHistory(o, earlier, s, log, t, k, i);
  }

  // ---- who may write the next entry

  /** The parameters in force before entry `i`. */
  function InForce(actives: seq<Members>, i: nat): Members
    requires i <= |actives|
  {
    if i == 0 then DEFAULTS else actives[i - 1]
  }

  /** The keys that may sign entry `i`: the ones before it, or its own where it is the first or its keys were committed to. */
  function MaySign(before: Members, p: Members, i: nat): Json {
    var keys := if i == 0 || PreRotated(before) then p else before;
    if T("updateKeys") in keys then keys[T("updateKeys")] else Null
  }

  /** Entry `i` follows no deactivation, its keys were committed to where that is asked for, and one who may sign it did. */
  ghost predicate HandedOn(o: Outside, m: Members, before: Members, i: nat)
    requires T("parameters") in m && T("proof") in m
  {
    && m[T("parameters")].Obj? && m[T("proof")].Arr?
    && (var p, proofs := m[T("parameters")].members, m[T("proof")].items;
        && !IsTrue(before, T("deactivated"))
        && (i > 0 && PreRotated(before) ==> Committed(o, before, p))
        && exists j :: 0 <= j < |proofs| && o.signer(proofs[j]).Some? && Holds(MaySign(before, p, i), o.signer(proofs[j]).value)
                       && o.verifies(proofs[j], o.signer(proofs[j]).value, Obj(WithoutProof(m))))
  }

  lemma LineHandedOn(o: Outside, now: int, log: seq<Line>, k: Known)
    requires log != [] && (forall i :: 0 <= i < |log| - 1 ==> IsEntry(log[i])) && CheckLine(o, now, log, k).Accepted?
    requires |k.actives| == |log| - 1
    ensures HandedOn(o, EntryOf(log[|log| - 1]), InForce(k.actives, |log| - 1), |log| - 1)
    ensures CheckLine(o, now, log, k).k.actives[..|log| - 1] == k.actives
  {
    hide Jcs, Hashed, ParametersFit, Committed, IdentityFits, HashPart, T, HashIs, Later;
    var m := EntryOf(log[|log| - 1]);
    var before := InForce(k.actives, |log| - 1);
    ParametersObject(o, m[T("parameters")], |log|);
  }

  lemma ParametersObject(o: Outside, v: Json, n: nat)
    requires ParametersFit(o, v, n)
    ensures v.Obj?
  {
  }

  /** In an accepted log every entry was handed on: nothing follows a deactivation, and control passes only by signature. */
  lemma {:induction false} EveryEntryHandedOn(o: Outside, now: int, log: seq<Line>, i: nat)
    requires CheckAll(o, now, log).Accepted? && i < |log|
    ensures HandedOn(o, EntryOf(log[i]), InForce(CheckAll(o, now, log).k.actives, i), i)
  {
    hide CheckLine, HandedOn, T;
    var front := log[..|log| - 1];
    var r := CheckAll(o, now, front);
    LineHandedOn(o, now, log, r.k);
    if i < |log| - 1 {
      EveryEntryHandedOn(o, now, front, i);
      assert front[i] == log[i];
      assert InForce(CheckAll(o, now, log).k.actives, i) == InForce(r.k.actives, i);
    }
  }
}
