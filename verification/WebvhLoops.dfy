/**
 * The loops of `webvh.ts`: writing canonical JSON, walking the log line by line, and counting witnesses, each against
 * the function of `Canonical` or `Webvh` it computes.
 */
module WebvhLoops {
  import opened Prelude
  import opened Canonical
  import opened Webvh
  import Orders
  import WebvhHistory

  // ---- canonical JSON

  method FirstName(s: set<Text>) returns (m: Text)
    requires s != {}
    ensures m in s && forall x :: x in s && x != m ==> Before(m, x)
  {
    m :| m in s;
    var scan := s - {m};
    while scan != {}
      invariant m in s && scan <= s && m !in scan
      invariant forall y :: y in s && y !in scan && y != m ==> Before(m, y)
      decreases scan
    {
      hide Before;
      var y :| y in scan;
      BeforeTotal(m, y);
      var later := Before(m, y);
      if !later {
        forall z | z in s && z !in scan - {y} && z != y ensures Before(y, z) {
          if z != m { BeforeTransitive(y, m, z); }
        }
        m := y;
      }
      scan := scan - {y};
    }
  }

  /** Member names by code unit. */
  method SortNames(m: map<Text, Json>) returns (q: seq<Text>)
    ensures q == Names(m)
  {
    hide Before;
    q := [];
    var left := m.Keys;
    while left != {}
      invariant left <= m.Keys && Orders.Ascending(Before, q)
      invariant forall k :: k in m <==> k in left || k in q
      invariant forall k, x :: k in q && x in left ==> Before(k, x)
      decreases left
    {
      var n := FirstName(left);
      q := q + [n];
      left := left - {n};
    }
    NamesTotal(m.Keys);
    Orders.OrderIsUnique(Before, m.Keys, q);
  }

  method JcsString(s: Text) returns (out: Text)
    ensures out == Quoted(s)
  {
    out := [QUOTE];
    assert s[0..] == s;
    for i := 0 to |s|
      invariant [QUOTE] + EscapeAll(s) == out + EscapeAll(s[i..])
    {
      assert s[i..][0] == s[i] && s[i..][1..] == s[i + 1..];
      assert out + (Escape(s[i]) + EscapeAll(s[i + 1..])) == out + Escape(s[i]) + EscapeAll(s[i + 1..]);
      out := out + Escape(s[i]);
    }
    assert out + [] == out;
    out := out + [QUOTE];
  }

  method Write(v: Json) returns (out: Text)
    ensures out == Jcs(v)
    decreases v, 1
  {
    match v
    case Null => out := NULL_TEXT;
    case Bool(b) => out := if b then TRUE_TEXT else FALSE_TEXT;
    case Int(n) => out := Number(n);
    case Str(s) => out := JcsString(s);
    case Arr(_) => out := WriteItems(v);
    case Obj(_) => out := WriteMembers(v);
  }

  method WriteItems(v: Json) returns (out: Text)
    requires v.Arr?
    ensures out == Jcs(v)
    decreases v, 0
  {
    hide Jcs, Items;
    out := [91];
    ArrayStarts(v);
    for i := 0 to |v.items|
      invariant Jcs(v) == out + Items(v, i)
    {
      ItemsNext(v, i);
      var item := Write(v.items[i]);
      var comma := if i == 0 then [] else [COMMA];
      assert out + (comma + item + Items(v, i + 1)) == out + comma + item + Items(v, i + 1);
      out := out + comma + item;
    }
    ArrayStarts(v);
    out := out + [93];
  }

  lemma ArrayStarts(v: Json)
    requires v.Arr?
    ensures Jcs(v) == [91] + Items(v, 0) && Items(v, |v.items|) == [93]
  {
  }

  lemma ItemsNext(v: Json, i: nat)
    requires v.Arr? && i < |v.items|
    ensures Items(v, i) == (if i == 0 then [] else [COMMA]) + Jcs(v.items[i]) + Items(v, i + 1)
  {
    hide Jcs;
  }

  method WriteMembers(v: Json) returns (out: Text)
    requires v.Obj?
    ensures out == Jcs(v)
    decreases v, 0
  {
    hide Jcs, Canonical.Members, Quoted;
    var names := SortNames(v.members);
    out := [123];
    ObjectStarts(v, names);
    for i := 0 to |names|
      invariant Jcs(v) == out + Canonical.Members(v, names, i)
    {
      assert names[i] in names;
      MembersNext(v, names, i);
      var name := JcsString(names[i]);
      var value := Write(v.members[names[i]]);
      var comma := if i == 0 then [] else [COMMA];
      var piece := comma + name + [COLON] + value;
      assert out + (piece + Canonical.Members(v, names, i + 1)) == out + piece + Canonical.Members(v, names, i + 1);
      out := out + piece;
    }
    ObjectStarts(v, names);
    out := out + [125];
  }

  lemma ObjectStarts(v: Json, names: seq<Text>)
    requires v.Obj? && names == Names(v.members)
    ensures Jcs(v) == [123] + Canonical.Members(v, names, 0) && Canonical.Members(v, names, |names|) == [125]
  {
  }

  lemma MembersNext(v: Json, names: seq<Text>, i: nat)
    requires v.Obj? && i < |names| && forall k :: k in names ==> k in v.members
    ensures Canonical.Members(v, names, i)
         == (if i == 0 then [] else [COMMA]) + Quoted(names[i]) + [COLON] + Jcs(v.members[names[i]]) + Canonical.Members(v, names, i + 1)
  {
    hide Jcs, Quoted;
  }

  // ---- one line

  /** The proofs one by one: each must have a key, and those by an authorised key must verify. */
  method CheckProofs(o: Outside, proofs: seq<Json>, authorised: Json, document: Json) returns (fault: Option<string>)
    ensures fault == if !ProofsFit(o, proofs, authorised, document) then Some("proof")
                     else if !SomeAuthorised(o, proofs, authorised) then Some("unauthorized-key") else None
  {
    var signed := false;
    for i := 0 to |proofs|
      invariant forall j :: 0 <= j < i ==>
        o.signer(proofs[j]).Some? &&
        (Holds(authorised, o.signer(proofs[j]).value) ==> o.verifies(proofs[j], o.signer(proofs[j]).value, document))
      invariant signed <==> exists j :: 0 <= j < i && o.signer(proofs[j]).Some? && Holds(authorised, o.signer(proofs[j]).value)
    {
      var key := o.signer(proofs[i]);
      if key.None? { return Some("proof"); }
      if Holds(authorised, key.value) {
        if !o.verifies(proofs[i], key.value, document) { return Some("proof"); }
        signed := true;
      }
    }
    fault := if signed then None else Some("unauthorized-key");
  }

  /** Pre-rotation: every new key is one committed to. */
  method CheckCommitted(o: Outside, before: Webvh.Members, p: Webvh.Members) returns (ok: bool)
    ensures ok == Committed(o, before, p)
  {
    hide T, KeyCommitted;
    if !(T("updateKeys") in p && T("nextKeyHashes") in p) || !p[T("updateKeys")].Arr? { return false; }
    var keys := p[T("updateKeys")].items;
    for i := 0 to |keys|
      invariant forall j :: 0 <= j < i ==> KeyCommitted(o, before, keys[j])
    {
      if !KeyCommitted(o, before, keys[i]) { return false; }
    }
    return true;
  }

  /** Checks 3 to 6: the line's form, its number, its time, and its parameters. */
  method CheckForm(o: Outside, now: int, log: seq<Line>, k: Known) returns (fault: Option<string>)
    requires log != [] && (forall i :: 0 <= i < |log| - 1 ==> IsEntry(log[i]))
    ensures fault == FormFault(o, now, log, k)
  {
    hide IsEntry, ParametersFit;
    var n := |log|;
    var l := log[n - 1];
    if !IsEntry(l) { return Some("log-malformed"); }
    EntryHas(l);
    var e := EntryOf(l);
    var h := HashPart(VersionId(l), n);
    if h.None? { return Some("version-number"); }
    if !o.isHash(h.value) { return Some("entry-hash"); }
    if !e[T("versionTime")].Str? { return Some("version-time"); }
    var time := o.time(e[T("versionTime")].s);
    if time.None? { return Some("version-time"); }
    if k.time.Some? && !Later(time.value, k.time.value) { return Some("version-time"); }
    if Later(time.value, Instant(now + 300, 0)) { return Some("version-time"); }
    if IsTrue(ActiveBefore(k), T("deactivated")) { return Some("after-deactivation"); }
    if !ParametersFit(o, e[T("parameters")], n) { return Some("parameters"); }
    return None;
  }

  lemma EntryHas(l: Line)
    requires IsEntry(l)
    ensures var e := EntryOf(l);
      T("versionTime") in e && T("parameters") in e && T("proof") in e && e[T("proof")].Arr? && T("state") in e && e[T("state")].Obj?
  {
  }

  /** What checks 3 to 6 find. */
  function FormFault(o: Outside, now: int, log: seq<Line>, k: Known): Option<string>
    requires log != []
  {
    var n := |log|;
    var l := log[n - 1];
    if !IsEntry(l) then Some("log-malformed")
    else
      EntryHas(l);
      var e := EntryOf(l);
      var h := HashPart(VersionId(l), n);
      var time := if e[T("versionTime")].Str? then o.time(e[T("versionTime")].s) else None;
      if h.None? then Some("version-number")
      else if !o.isHash(h.value) then Some("entry-hash")
      else if time.None? || (k.time.Some? && !Later(time.value, k.time.value)) || Later(time.value, Instant(now + 300, 0)) then Some("version-time")
      else if IsTrue(ActiveBefore(k), T("deactivated")) then Some("after-deactivation")
      else if !ParametersFit(o, e[T("parameters")], n) then Some("parameters")
      else None
  }

  lemma FormFaultRejects(o: Outside, now: int, log: seq<Line>, k: Known)
    requires log != [] && (forall i :: 0 <= i < |log| - 1 ==> IsEntry(log[i])) && FormFault(o, now, log, k).Some?
    ensures CheckLine(o, now, log, k) == Rejected(FormFault(o, now, log, k).value)
  {
    hide ParametersFit, T, Later, HashPart, ProofsFit, SomeAuthorised, Committed, IdentityFits, HashIs;
  }

  /** Checks 7 to 11, on a line whose form is right. */
  method CheckSigned(o: Outside, now: int, log: seq<Line>, k: Known) returns (v: Verdict)
    requires log != [] && (forall i :: 0 <= i < |log| ==> IsEntry(log[i])) && FormFault(o, now, log, k).None?
    ensures v == CheckLine(o, now, log, k)
  {
    hide ParametersFit, T, Later, HashPart, ProofsFit, SomeAuthorised, Committed, IdentityFits, Jcs, IsEntry;
    var n := |log|;
    var before := ActiveBefore(k);
    EntryHas(log[n - 1]);
    var e := EntryOf(log[n - 1]);
    FirstHasScid(o, e[T("parameters")], n);
    var time := o.time(e[T("versionTime")].s);
    var p := e[T("parameters")].members;
    var scid := if n == 1 then p[T("scid")].s else k.scid;
    var active := before + p;
    if n == 1 && !o.scidHolds(Obj(WithoutProof(e)[T("versionId") := Str(T("{SCID}"))]), scid) { return Rejected("scid"); }
    var previous := if n == 1 then scid else VersionId(log[n - 2]);
    var text := Write(Hashed(e, previous));
    if o.hash(text) != HashPart(VersionId(log[n - 1]), n).value { return Rejected("entry-hash"); }
    var rotated := n > 1 && PreRotated(before);
    if rotated {
      var ok := CheckCommitted(o, before, p);
      if !ok { return Rejected("pre-rotation"); }
    }
    var keys := if n == 1 || rotated then p else before;
    var authorised := if T("updateKeys") in keys then keys[T("updateKeys")] else Null;
    var fault := CheckProofs(o, e[T("proof")].items, authorised, Obj(WithoutProof(e)));
    if fault.Some? { return Rejected(fault.value); }
    if !IdentityFits(o, log, scid, active) { return Rejected("identity"); }
    v := Accepted(Known(k.actives + [active], scid, time));
  }

  lemma FirstHasScid(o: Outside, v: Json, n: nat)
    requires ParametersFit(o, v, n)
    ensures v.Obj? && (n == 1 ==> T("scid") in v.members && v.members[T("scid")].Str?)
  {
  }

  method CheckEntry(o: Outside, now: int, log: seq<Line>, k: Known) returns (v: Verdict)
    requires log != [] && (forall i :: 0 <= i < |log| - 1 ==> IsEntry(log[i]))
    ensures v == CheckLine(o, now, log, k)
  {
    hide CheckLine;
    var fault := CheckForm(o, now, log, k);
    if fault.Some? {
      FormFaultRejects(o, now, log, k);
      return Rejected(fault.value);
    }
    assert IsEntry(log[|log| - 1]);
    v := CheckSigned(o, now, log, k);
  }

  // ---- the log

  lemma {:induction false} RejectedStays(o: Outside, now: int, log: seq<Line>, i: nat)
    requires i <= |log| && CheckAll(o, now, log[..i]).Rejected?
    ensures CheckAll(o, now, log) == CheckAll(o, now, log[..i])
    decreases |log|
  {
    hide CheckLine;
    if i == |log| {
      assert log[..i] == log;
    } else {
      var front := log[..|log| - 1];
      assert front[..i] == log[..i];
      RejectedStays(o, now, front, i);
    }
  }

  method WalkLog(o: Outside, now: int, log: seq<Line>) returns (v: Verdict)
    ensures v == CheckAll(o, now, log)
  {
    hide CheckLine;
    var k := Known([], [], None);
    for i := 0 to |log|
      invariant CheckAll(o, now, log[..i]) == Accepted(k)
    {
      var sofar := log[..i + 1];
      assert sofar[..i] == log[..i];
      assert forall j :: 0 <= j < i ==> IsEntry(sofar[j]) by {
        forall j | 0 <= j < i ensures IsEntry(sofar[j]) { assert IsEntry(log[..i][j]); }
      }
      v := CheckEntry(o, now, sofar, k);
      assert CheckAll(o, now, sofar) == v;
      if v.Rejected? {
        RejectedStays(o, now, log, i + 1);
        return;
      }
      k := v.k;
    }
    assert log[..|log|] == log;
    v := Accepted(k);
  }

  // ---- witnesses

  predicate ProofAmong(o: Outside, proofs: seq<Json>, version: Text, id: Text) {
    exists q :: 0 <= q < |proofs| && ProofBy(o, proofs[q], version, id)
  }

  /** The witnesses whose proof of a version is among these. */
  method ProofIds(o: Outside, proofs: seq<Json>, version: Text) returns (ids: set<Text>)
    ensures forall id :: id in ids <==> ProofAmong(o, proofs, version, id)
  {
    ids := {};
    for q := 0 to |proofs|
      invariant forall id :: id in ids <==> exists x :: 0 <= x < q && ProofBy(o, proofs[x], version, id)
    {
      hide T;
      var key := o.signer(proofs[q]);
      if proofs[q].Obj? && key.Some? && o.isKey(key.value)
         && o.verifies(proofs[q], key.value, Obj(map[T("versionId") := Str(version)])) {
        ids := ids + {T("did:key:") + key.value};
      }
    }
  }

  predicate SomeEvidence(o: Outside, records: seq<Json>, version: Text, id: Text) {
    exists r :: 0 <= r < |records| && Evidence(o, records[r], version, id)
  }

  /** The witnesses one record proves a version for. */
  method RecordIds(o: Outside, record: Json, version: Text) returns (ids: set<Text>)
    ensures forall id :: id in ids <==> Evidence(o, record, version, id)
  {
    hide T, ProofBy;
    ids := {};
    if record.Obj? && TextAt(record.members, T("versionId")) == Some(version)
       && T("proof") in record.members && record.members[T("proof")].Arr? {
      ids := ProofIds(o, record.members[T("proof")].items, version);
    }
  }

  method Approvals(o: Outside, records: seq<Json>, version: Text) returns (ids: set<Text>)
    ensures forall id :: id in ids <==> SomeEvidence(o, records, version, id)
  {
    hide Evidence;
    ids := {};
    for r := 0 to |records|
      invariant forall id :: id in ids <==> SomeEvidence(o, records[..r], version, id)
    {
      var more := RecordIds(o, records[r], version);
      forall id ensures SomeEvidence(o, records[..r + 1], version, id) <==>
                          SomeEvidence(o, records[..r], version, id) || Evidence(o, records[r], version, id)
      {
        EvidenceMore(o, records, r, version, id);
      }
      ids := ids + more;
    }
    assert records[..|records|] == records;
  }

  lemma EvidenceMore(o: Outside, records: seq<Json>, r: nat, version: Text, id: Text)
    requires r < |records|
    ensures SomeEvidence(o, records[..r + 1], version, id) <==>
              SomeEvidence(o, records[..r], version, id) || Evidence(o, records[r], version, id)
  {
    hide Evidence;
    var a, b := records[..r], records[..r + 1];
    if SomeEvidence(o, a, version, id) {
      var x :| 0 <= x < |a| && Evidence(o, a[x], version, id);
      assert b[x] == a[x];
    }
    if SomeEvidence(o, b, version, id) {
      var x :| 0 <= x < |b| && Evidence(o, b[x], version, id);
      if x < r { assert a[x] == b[x]; }
    }
    assert b[r] == records[r];
  }

  /** Those of `ids` that a configuration names. */
  method MembersAmong(config: Webvh.Members, ids: set<Text>) returns (some: set<Text>)
    ensures forall id :: id in some <==> id in ids && IsMember(config, id)
  {
    hide IsMember;
    some := {};
    var todo := ids;
    while todo != {}
      invariant todo <= ids
      invariant forall id :: id in some <==> id in ids && id !in todo && IsMember(config, id)
      decreases todo
    {
      var id :| id in todo;
      if IsMember(config, id) { some := some + {id}; }
      todo := todo - {id};
    }
  }

  /** The members of a configuration that approve entry `i` or a later one. */
  method Approving(o: Outside, log: seq<Line>, config: Webvh.Members, records: seq<Json>, i: nat) returns (ids: set<Text>)
    requires (forall x :: 0 <= x < |log| ==> IsEntry(log[x])) && i <= |log|
    ensures forall id :: id in ids <==> IsMember(config, id) && Approves(o, log, records, i, id)
  {
    hide T, IsEntry, SomeEvidence, IsMember, ApprovesUpTo, Approves;
    ids := {};
    assert forall id :: !ApprovesUpTo(o, log, records, i, i, id) by { NoneApproves(o, log, records, i); }
    for j := i to |log|
      invariant forall id :: id in ids <==> IsMember(config, id) && ApprovesUpTo(o, log, records, i, j, id)
    {
      var these := Approvals(o, records, VersionId(log[j]));
      var some := MembersAmong(config, these);
      forall id ensures ApprovesUpTo(o, log, records, i, j + 1, id) <==>
                          ApprovesUpTo(o, log, records, i, j, id) || SomeEvidence(o, records, VersionId(log[j]), id)
      {
        ApprovesMore(o, log, records, i, j, id);
      }
      ids := ids + some;
    }
    forall id ensures ApprovesUpTo(o, log, records, i, |log|, id) <==> Approves(o, log, records, i, id) {
      ApprovesAll(o, log, records, i, id);
    }
  }

  lemma NoneApproves(o: Outside, log: seq<Line>, records: seq<Json>, i: nat)
    requires (forall x :: 0 <= x < |log| ==> IsEntry(log[x])) && i <= |log|
    ensures forall id :: !ApprovesUpTo(o, log, records, i, i, id)
  {
  }

  lemma ApprovesMore(o: Outside, log: seq<Line>, records: seq<Json>, i: nat, j: nat, id: Text)
    requires (forall x :: 0 <= x < |log| ==> IsEntry(log[x])) && i <= j < |log|
    ensures ApprovesUpTo(o, log, records, i, j + 1, id) <==>
              ApprovesUpTo(o, log, records, i, j, id) || SomeEvidence(o, records, VersionId(log[j]), id)
  {
    hide IsEntry, SomeEvidence;
  }

  lemma ApprovesAll(o: Outside, log: seq<Line>, records: seq<Json>, i: nat, id: Text)
    requires (forall x :: 0 <= x < |log| ==> IsEntry(log[x])) && i <= |log|
    ensures ApprovesUpTo(o, log, records, i, |log|, id) <==> Approves(o, log, records, i, id)
  {
    hide IsEntry, Evidence;
    if Approves(o, log, records, i, id) {
      var j, r :| i <= j < |log| && 0 <= r < |records| && Evidence(o, records[r], VersionId(log[j]), id);
      assert SomeEvidence(o, records, VersionId(log[j]), id);
    }
  }

  predicate ApprovesUpTo(o: Outside, log: seq<Line>, records: seq<Json>, i: nat, end: nat, id: Text)
    requires (forall x :: 0 <= x < |log| ==> IsEntry(log[x])) && end <= |log|
  {
    exists j :: i <= j < end && SomeEvidence(o, records, VersionId(log[j]), id)
  }

  lemma Subset<X>(a: set<X>, b: set<X>)
    requires a <= b
    ensures |a| <= |b|
  {
    assert b == a + (b - a);
  }

  method CheckEntryWitnesses(o: Outside, log: seq<Line>, config: Webvh.Members, records: seq<Json>, i: nat) returns (ok: bool)
    requires (forall x :: 0 <= x < |log| ==> IsEntry(log[x])) && i <= |log|
    ensures ok == EntryWitnessed(o, log, config, records, i)
  {
    hide T, IsEntry, Approves, IsMember;
    if config == map[] { return true; }
    var ids := Approving(o, log, config, records, i);
    ok := T("threshold") in config && config[T("threshold")].Int? && config[T("threshold")].n <= |ids|;
    if EntryWitnessed(o, log, config, records, i) {
      var approving :| Enough(o, log, config, records, i, approving);
      Subset(approving, ids);
    }
    assert ok ==> Enough(o, log, config, records, i, ids);
  }

  method CheckWitnesses(o: Outside, log: seq<Line>, actives: seq<Webvh.Members>, evidence: Option<Json>) returns (ok: bool)
    requires |actives| == |log| && forall x :: 0 <= x < |log| ==> IsEntry(log[x])
    ensures ok == Witnessed(o, log, actives, evidence)
  {
    hide IsEntry, EntryWitnessed, WitnessConfig;
    if forall i :: 0 <= i < |log| ==> WitnessConfig(actives, i) == map[] { return true; }
    if evidence.None? { return false; }
    var records := if evidence.value.Arr? then evidence.value.items else [];
    for i := 0 to |log|
      invariant forall j :: 0 <= j < i ==> EntryWitnessed(o, log, WitnessConfig(actives, j), records, j)
    {
      var good := CheckEntryWitnesses(o, log, WitnessConfig(actives, i), records, i);
      if !good { return false; }
    }
    return true;
  }

  // ---- resolving

  method ResolveLog(o: Outside, did: Text, log: seq<Line>, evidence: Option<Json>, cache: Option<Text>, now: int) returns (r: Outcome)
    ensures r == Resolve(o, did, log, evidence, cache, now)
    ensures !r.Refused? <==> WebvhHistory.Resolvable(o, did, log, evidence, cache, now)
    ensures WebvhHistory.OfLast(log, r)
  {
    hide CheckAll, Witnessed, T, CachedNumber, IsEntry, WebvhHistory.Resolvable, WebvhHistory.OfLast;
    WebvhHistory.ResolvesExactly(o, did, log, evidence, cache, now);
    WebvhHistory.ResolvedIsLast(o, did, log, evidence, cache, now);
    var requested := o.scidOf(did);
    if requested.None? { return Webvh.Refused("invalid-did"); }
    if |log| == 0 { return Webvh.Refused("log-malformed"); }
    var v := WalkLog(o, now, log);
    if v.Rejected? { return Webvh.Refused(v.reason); }
    assert |v.k.actives| == |log|;
    AllHaveStates(log);
    if requested.value != v.k.scid || !(exists i :: 0 <= i < |log| && StateId(EntryOf(log[i])) == Some(did)) {
      return Webvh.Refused("identity");
    }
    var witnessed := CheckWitnesses(o, log, v.k.actives, evidence);
    if !witnessed { return Webvh.Refused("witness"); }
    var k := if cache.Some? then CachedNumber(cache.value) else None;
    if k.Some? {
      if |log| < k.value { return Webvh.Refused("rollback"); }
      if k.value > 0 && VersionId(log[k.value - 1]) != cache.value { return Webvh.Refused("fork"); }
    }
    var last := log[|log| - 1];
    var active := v.k.actives[|log| - 1];
    if IsTrue(active, T("deactivated")) { return Deactivated(VersionId(last)); }
    r := Resolved(VersionId(last), EntryOf(last)[T("versionTime")], EntryOf(last)[T("state")], if T("ttl") in active then Some(active[T("ttl")]) else None);
  }

  lemma AllHaveStates(log: seq<Line>)
    requires forall i :: 0 <= i < |log| ==> IsEntry(log[i])
    ensures forall i :: 0 <= i < |log| ==> T("state") in EntryOf(log[i]) && T("versionTime") in EntryOf(log[i]) && EntryOf(log[i])[T("state")].Obj?
  {
    forall i | 0 <= i < |log|
      ensures T("state") in EntryOf(log[i]) && T("versionTime") in EntryOf(log[i]) && EntryOf(log[i])[T("state")].Obj?
    {
      EntryHas(log[i]);
    }
  }
}
