/**
 * What a `did:webvh` log means, read off its lines: which entries make it acceptable, what its parameters are at any point, and
 * what resolving it gives. Nothing here is carried from line to line; a parameter is what it was last set to.
 */
module WebvhHistory {
  import opened Prelude
  import opened Canonical
  import opened Webvh

  // ---- parameters as they were last set

  function Get(m: Members, k: Text): Option<Json> { if k in m then Some(m[k]) else None }

  /** What an entry sets a parameter to. */
  function Sets(l: Line, k: string): Option<Json> {
    if l.Some? && l.value.Obj? && T("parameters") in l.value.members && l.value.members[T("parameters")].Obj?
    then Get(l.value.members[T("parameters")].members, T(k)) else None
  }

  /** What it is as long as nothing has set it. */
  function Unset(k: string): Option<Json> {
    match k
    case "nextKeyHashes" => Some(Arr([]))
    case "watchers" => Some(Arr([]))
    case "witness" => Some(Obj(map[]))
    case "portable" => Some(Bool(false))
    case "deactivated" => Some(Bool(false))
    case "ttl" => Some(Int(3600))
    case _ => None
  }

  /** What the first `n` entries leave a parameter at. */
  function Setting(log: seq<Line>, n: nat, k: string): Option<Json>
    requires n <= |log|
  {
    if n == 0 then Unset(k) else if Sets(log[n - 1], k).Some? then Sets(log[n - 1], k) else Setting(log, n - 1, k)
  }

  /** That is what the last of them to set it sets it to, or its value when none does. */
  lemma {:induction false} SettingIsLast(log: seq<Line>, n: nat, k: string)
    requires n <= |log|
    ensures || (exists i :: 0 <= i < n && Sets(log[i], k).Some? && Setting(log, n, k) == Sets(log[i], k)
                            && forall j :: i < j < n ==> Sets(log[j], k).None?)
            || ((forall i :: 0 <= i < n ==> Sets(log[i], k).None?) && Setting(log, n, k) == Unset(k))
  {
    if n > 0 && Sets(log[n - 1], k).None? { SettingIsLast(log, n - 1, k); }
  }

  predicate IsName(k: string) { k in PARAMETERS }

  /** Two texts of different strings differ; these are the strings in question. */
  lemma NamesDiffer(k: string, j: string)
    requires IsName(k) && IsName(j)
    ensures T(k) == T(j) <==> k == j
  {
    if k != j && |k| == |j| {
      assert k[0] != j[0];
      assert T(k)[0] == (k[0] as int) as unit && T(j)[0] == (j[0] as int) as unit;
    }
  }

  lemma DefaultIs(k: string)
    requires IsName(k)
    ensures Get(DEFAULTS, T(k)) == Unset(k)
  {
    NamesDiffer(k, "nextKeyHashes");
    NamesDiffer(k, "watchers");
    NamesDiffer(k, "witness");
    NamesDiffer(k, "portable");
    NamesDiffer(k, "deactivated");
    NamesDiffer(k, "ttl");
  }

  lemma LineActive(o: Outside, now: int, log: seq<Line>, k: Known)
    requires log != [] && (forall i :: 0 <= i < |log| - 1 ==> IsEntry(log[i])) && CheckLine(o, now, log, k).Accepted?
    ensures var l, v := log[|log| - 1], CheckLine(o, now, log, k);
            && IsEntry(l) && T("parameters") in EntryOf(l) && EntryOf(l)[T("parameters")].Obj?
            && v.k.actives == k.actives + [ActiveBefore(k) + EntryOf(l)[T("parameters")].members]
            && forall x :: Sets(l, x) == Get(EntryOf(l)[T("parameters")].members, T(x))
  {
    hide Jcs, Hashed, HashPart, ProofsFit, SomeAuthorised, Committed, IdentityFits, HashIs, T, Later, IsParameter, WitnessFits, IsStrings, IsBool;
  }

  lemma {:induction false} SettingOf(a: seq<Line>, b: seq<Line>, n: nat, k: string)
    requires n <= |a| && n <= |b| && a[..n] == b[..n]
    ensures Setting(a, n, k) == Setting(b, n, k)
  {
    hide Sets;
    if n > 0 {
      assert a[n - 1] == a[..n][n - 1] && b[n - 1] == b[..n][n - 1];
      assert a[..n - 1] == a[..n][..n - 1] && b[..n - 1] == b[..n][..n - 1];
      SettingOf(a, b, n - 1, k);
    }
  }

  /** The parameters carried along the log are those last set. */
  lemma {:induction false} ActiveIs(o: Outside, now: int, log: seq<Line>, n: nat, k: string)
    requires CheckAll(o, now, log).Accepted? && n <= |log| && IsName(k)
    ensures Get(InForce(CheckAll(o, now, log).k.actives, n), T(k)) == Setting(log, n, k)
    decreases |log|, n
  {
    hide CheckLine, T, IsEntry, PARAMETERS, DEFAULTS;
    if n == 0 {
      DefaultIs(k);
    } else {
      var front := log[..|log| - 1];
      var r := CheckAll(o, now, front);
      LineActive(o, now, log, r.k);
      if n < |log| {
        ActiveIs(o, now, front, n, k);
        SettingOf(log, front, n, k);
        assert InForce(CheckAll(o, now, log).k.actives, n) == InForce(r.k.actives, n);
      } else {
        ActiveIs(o, now, front, n - 1, k);
        SettingOf(log, front, n - 1, k);
        assert ActiveBefore(r.k) == InForce(r.k.actives, n - 1);
        assert InForce(CheckAll(o, now, log).k.actives, n) == ActiveBefore(r.k) + EntryOf(log[n - 1])[T("parameters")].members;
      }
    }
  }

  // ---- resolving

  lemma TrueIs(m: Members, k: Text)
    ensures IsTrue(m, k) <==> Get(m, k) == Some(Bool(true))
  {
  }

  /**
   * An answer that is the last entry's: the version and the document are of that one entry. It says deactivated exactly if the
   * last entry to say whether it is says so, and the ttl is the one last set, 3600 seconds when none is.
   */
  predicate OfLast(log: seq<Line>, r: Outcome) {
    !r.Refused? ==>
      && log != [] && log[|log| - 1].Some? && log[|log| - 1].value.Obj?
      && (var last := log[|log| - 1].value.members;
          && Get(last, T("versionId")) == Some(Str(r.version))
          && (r.Deactivated? <==> Setting(log, |log|, "deactivated") == Some(Bool(true)))
          && (r.Resolved? ==> Get(last, T("versionTime")) == Some(r.time) && Get(last, T("state")) == Some(r.state) && r.ttl == Setting(log, |log|, "ttl")))
  }

  lemma ResolvedIsLast(o: Outside, did: Text, log: seq<Line>, evidence: Option<Json>, cache: Option<Text>, now: int)
    ensures OfLast(log, Resolve(o, did, log, evidence, cache, now))
  {
    hide Resolve, CheckAll, T, Setting, IsEntry, EntryOf, VersionId, IsTrue;
    if !Resolve(o, did, log, evidence, cache, now).Refused? {
      ResolveEnds(o, did, log, evidence, cache, now);
      var active := CheckAll(o, now, log).k.actives[|log| - 1];
      ActiveIs(o, now, log, |log|, "deactivated");
      ActiveIs(o, now, log, |log|, "ttl");
      TrueIs(active, T("deactivated"));
      LastShape(log[|log| - 1]);
    }
  }

  lemma ResolveEnds(o: Outside, did: Text, log: seq<Line>, evidence: Option<Json>, cache: Option<Text>, now: int)
    requires !Resolve(o, did, log, evidence, cache, now).Refused?
    ensures log != [] && CheckAll(o, now, log).Accepted?
    ensures var last, active := log[|log| - 1], CheckAll(o, now, log).k.actives[|log| - 1];
            && IsEntry(last) && T("state") in EntryOf(last) && T("versionTime") in EntryOf(last)
            && Resolve(o, did, log, evidence, cache, now)
               == if IsTrue(active, T("deactivated")) then Deactivated(VersionId(last))
                  else Resolved(VersionId(last), EntryOf(last)[T("versionTime")], EntryOf(last)[T("state")], Get(active, T("ttl")))
  {
    hide CheckAll, Witnessed, CachedNumber, T, IsTrue, StateId;
  }

  lemma LastShape(l: Line)
    requires IsEntry(l)
    ensures l.Some? && l.value.Obj? && EntryOf(l) == l.value.members && T("state") in l.value.members && T("versionTime") in l.value.members
    ensures Get(l.value.members, T("versionId")) == Some(Str(VersionId(l)))
  {
    hide T;
  }

  // ---- witnesses

  /** The witnesses an entry is held to: those configured before it, or where there were none those it leaves configured. */
  function WitnessesFor(log: seq<Line>, i: nat): Members
    requires i < |log|
  {
    var before, after := Setting(log, i, "witness"), Setting(log, i + 1, "witness");
    if before.Some? && before.value.Obj? && before.value.members != map[] then before.value.members
    else if after.Some? && after.value.Obj? then after.value.members else map[]
  }

  /** A witness with a valid proof, in one of the records given, of the entry's version or a later one. */
  ghost predicate Vouches(o: Outside, log: seq<Line>, records: seq<Json>, i: nat, id: Text) {
    exists j, r, q :: i <= j < |log| && 0 <= r < |records| && records[r].Obj? && VouchesIn(o, log[j], records[r].members, q, id)
  }

  predicate VouchesIn(o: Outside, l: Line, record: Members, q: nat, id: Text) {
    && l.Some? && l.value.Obj? && Get(record, T("versionId")).Some? && Get(record, T("versionId")) == Get(l.value.members, T("versionId"))
    && T("proof") in record && record[T("proof")].Arr? && q < |record[T("proof")].items|
    && (var proof := record[T("proof")].items[q];
        && proof.Obj? && o.signer(proof).Some? && o.isKey(o.signer(proof).value) && id == T("did:key:") + o.signer(proof).value
        && o.verifies(proof, o.signer(proof).value, Obj(map[T("versionId") := record[T("versionId")]])))
  }

  function Threshold(w: Members): int {
    if T("threshold") in w && w[T("threshold")].Int? then w[T("threshold")].n else 0
  }

  predicate Listed(w: Members, id: Text) {
    && T("witnesses") in w && w[T("witnesses")].Arr?
    && exists i :: 0 <= i < |w[T("witnesses")].items| && w[T("witnesses")].items[i].Obj? && Get(w[T("witnesses")].items[i].members, T("id")) == Some(Str(id))
  }

  /** As many of the witnesses listed as the configuration asks for. */
  ghost predicate VouchedEnough(o: Outside, log: seq<Line>, records: seq<Json>, i: nat, w: Members, ids: set<Text>) {
    (forall id :: id in ids ==> Listed(w, id) && Vouches(o, log, records, i, id)) && Threshold(w) <= |ids|
  }

  ghost predicate Vouched(o: Outside, log: seq<Line>, records: seq<Json>, i: nat)
    requires i < |log|
  {
    exists ids :: VouchedEnough(o, log, records, i, WitnessesFor(log, i), ids)
  }

  lemma ConfigIs(o: Outside, now: int, log: seq<Line>, i: nat)
    requires CheckAll(o, now, log).Accepted? && i < |log|
    ensures WitnessConfig(CheckAll(o, now, log).k.actives, i) == WitnessesFor(log, i)
  {
    hide CheckAll, T, Setting;
    var actives := CheckAll(o, now, log).k.actives;
    ActiveIs(o, now, log, i, "witness");
    ActiveIs(o, now, log, i + 1, "witness");
    if i == 0 { FirstUnset(log); }
  }

  lemma FirstUnset(log: seq<Line>)
    ensures Setting(log, 0, "witness") == Some(Obj(map[]))
  {
  }

  lemma EvidenceVouches(o: Outside, log: seq<Line>, records: seq<Json>, i: nat, id: Text)
    requires (forall x :: 0 <= x < |log| ==> IsEntry(log[x])) && Approves(o, log, records, i, id)
    ensures Vouches(o, log, records, i, id)
  {
    hide T;
    var j, r :| i <= j < |log| && 0 <= r < |records| && Evidence(o, records[r], VersionId(log[j]), id);
    var proofs := records[r].members[T("proof")].items;
    var q :| 0 <= q < |proofs| && ProofBy(o, proofs[q], VersionId(log[j]), id);
    assert VouchesIn(o, log[j], records[r].members, q, id);
  }

  /** A log resolves only if every entry is vouched for by as many of its witnesses as it asks for. */
  lemma TooFewWitnessesNeverResolve(o: Outside, did: Text, log: seq<Line>, evidence: Option<Json>, cache: Option<Text>, now: int, i: nat)
    requires !Resolve(o, did, log, evidence, cache, now).Refused? && i < |log| && WitnessesFor(log, i) != map[]
    ensures evidence.Some?
    ensures Vouched(o, log, if evidence.value.Arr? then evidence.value.items else [], i)
  {
    hide CheckAll, T, Setting, WitnessesFor, WitnessConfig, CachedNumber, Vouches, Approves, IsEntry;
    var actives, w := CheckAll(o, now, log).k.actives, WitnessesFor(log, i);
    ConfigIs(o, now, log, i);
    var records := if evidence.value.Arr? then evidence.value.items else [];
    var ids :| Enough(o, log, w, records, i, ids);
    forall id | id in ids ensures Listed(w, id) && Vouches(o, log, records, i, id) { EvidenceVouches(o, log, records, i, id); }
    assert VouchedEnough(o, log, records, i, w, ids);
  }

  // ---- what an entry may set

  predicate Strings(v: Option<Json>) { v.Some? ==> v.value.Arr? && forall i :: 0 <= i < |v.value.items| ==> v.value.items[i].Str? }

  predicate Flag(v: Option<Json>) { v.Some? ==> v.value.Bool? }

  /** No witnesses, or a threshold of at least one and at most all of a list of distinct keys. */
  predicate WitnessesRight(o: Outside, w: Json) {
    && w.Obj?
    && (w.members != map[] ==>
          && w.members.Keys == {T("threshold"), T("witnesses")} && Get(w.members, T("witnesses")).value.Arr? && Get(w.members, T("threshold")).value.Int?
          && (var list, t := Get(w.members, T("witnesses")).value.items, Get(w.members, T("threshold")).value.n;
              && 1 <= t <= |list|
              && (forall i :: 0 <= i < |list| ==>
                    list[i].Obj? && TextOf(Get(list[i].members, T("id"))).Some?
                    && (var id := TextOf(Get(list[i].members, T("id"))).value; |id| >= 8 && id[..8] == T("did:key:") && o.isKey(id[8..])))
              && (forall i, j :: 0 <= i < j < |list| ==> Get(MembersIn(Some(list[i])), T("id")) != Get(MembersIn(Some(list[j])), T("id")))))
  }

  /** The parameters an entry may set: the `n`th of a log. */
  predicate ParametersRight(o: Outside, p: Members, n: nat) {
    && (forall x :: x in p ==> x in {T("method"), T("scid"), T("updateKeys"), T("nextKeyHashes"), T("witness"), T("watchers"), T("portable"), T("deactivated"), T("ttl")})
    && (if n == 1 then Get(p, T("method")).Some? && Get(p, T("scid")).Some? && Get(p, T("updateKeys")).Some?
        else Get(p, T("scid")).None? && Get(p, T("portable")) != Some(Bool(true)))
    && (Get(p, T("method")).Some? ==> Get(p, T("method")).value == Str(T("did:webvh:1.0")))
    && (Get(p, T("scid")).Some? ==> TextOf(Get(p, T("scid"))).Some? && o.isHash(TextOf(Get(p, T("scid"))).value))
    && Strings(Get(p, T("updateKeys"))) && Strings(Get(p, T("nextKeyHashes"))) && Strings(Get(p, T("watchers")))
    && (forall k :: k in ItemsIn(Get(p, T("updateKeys"))) ==> k.Str? && o.isKey(k.s))
    && Flag(Get(p, T("portable"))) && Flag(Get(p, T("deactivated")))
    && (Get(p, T("ttl")).Some? ==> Get(p, T("ttl")).value.Int? && 0 <= Get(p, T("ttl")).value.n <= 2147483648)
    && (Get(p, T("witness")).Some? ==> WitnessesRight(o, Get(p, T("witness")).value))
  }

  lemma WitnessesAre(o: Outside, w: Json)
    ensures WitnessFits(o, w) <==> WitnessesRight(o, w)
  {
    hide T;
  }

  lemma NamesAre(k: Text)
    ensures IsParameter(k) <==> k in {T("method"), T("scid"), T("updateKeys"), T("nextKeyHashes"), T("witness"), T("watchers"), T("portable"), T("deactivated"), T("ttl")}
  {
    hide T;
    assert PARAMETERS[0] == "method" && PARAMETERS[1] == "scid" && PARAMETERS[2] == "updateKeys" && PARAMETERS[3] == "nextKeyHashes" && PARAMETERS[4] == "witness"
        && PARAMETERS[5] == "watchers" && PARAMETERS[6] == "portable" && PARAMETERS[7] == "deactivated" && PARAMETERS[8] == "ttl";
  }

  lemma ListsAre(o: Outside, p: Members)
    ensures IsStrings(p, T("updateKeys")) <==> Strings(Get(p, T("updateKeys")))
    ensures IsStrings(p, T("nextKeyHashes")) <==> Strings(Get(p, T("nextKeyHashes")))
    ensures IsStrings(p, T("watchers")) <==> Strings(Get(p, T("watchers")))
    ensures IsBool(p, T("portable")) <==> Flag(Get(p, T("portable")))
    ensures IsBool(p, T("deactivated")) <==> Flag(Get(p, T("deactivated")))
    ensures IsStrings(p, T("updateKeys")) && T("updateKeys") in p ==>
              && p[T("updateKeys")].Arr?
              && ((forall i :: 0 <= i < |p[T("updateKeys")].items| ==> p[T("updateKeys")].items[i].Str? && o.isKey(p[T("updateKeys")].items[i].s))
                  <==> forall k :: k in ItemsIn(Get(p, T("updateKeys"))) ==> k.Str? && o.isKey(k.s))
  {
    hide T;
  }

  lemma ParametersAre(o: Outside, v: Json, n: nat)
    requires n > 0
    ensures ParametersFit(o, v, n) <==> v.Obj? && ParametersRight(o, v.members, n)
  {
    hide T, IsParameter, WitnessFits, WitnessesRight, IsStrings, IsBool, Strings, Flag;
    forall k ensures IsParameter(k) <==> k in {T("method"), T("scid"), T("updateKeys"), T("nextKeyHashes"), T("witness"), T("watchers"), T("portable"), T("deactivated"), T("ttl")} {
      NamesAre(k);
    }
    if v.Obj? {
      ListsAre(o, v.members);
      if T("witness") in v.members { WitnessesAre(o, v.members[T("witness")]); }
    }
  }

  // ---- which logs are accepted

  function At(l: Line, k: string): Option<Json> {
    if l.Some? && l.value.Obj? then Get(l.value.members, T(k)) else None
  }

  /** A line with exactly the five members of an entry, three of them of the right kind. */
  predicate Shaped(l: Line) {
    && l.Some? && l.value.Obj? && l.value.members.Keys == {T("parameters"), T("proof"), T("state"), T("versionId"), T("versionTime")}
    && At(l, "state").value.Obj? && At(l, "versionId").value.Str? && At(l, "proof").value.Arr? && At(l, "proof").value.items != []
  }

  function TextOf(v: Option<Json>): Option<Text> { if v.Some? && v.value.Str? then Some(v.value.s) else None }

  function MembersIn(v: Option<Json>): Members { if v.Some? && v.value.Obj? then v.value.members else map[] }

  function ItemsIn(v: Option<Json>): seq<Json> { if v.Some? && v.value.Arr? then v.value.items else [] }

  /** The identifier the first entry gives the log. */
  function Scid(log: seq<Line>): Option<Text> { if log == [] then None else TextOf(Sets(log[0], "scid")) }

  /** The version an entry must follow: the one before it, or the log's own identifier. */
  function Follows(log: seq<Line>, i: nat): Option<Text>
    requires i < |log|
  {
    if i == 0 then Scid(log) else TextOf(At(log[i - 1], "versionId"))
  }

  /** Its version is its number and the hash of what it says after the version it follows. */
  ghost predicate Numbered(o: Outside, log: seq<Line>, i: nat)
    requires i < |log|
  {
    && Follows(log, i).Some?
    && (var m := MembersIn(log[i]) - {T("proof")};
        var h := o.hash(Jcs(Obj(m[T("versionId") := Str(Follows(log, i).value)])));
        && TextOf(At(log[i], "versionId")) == Some(Digits(i + 1) + [MINUS] + h)
        && o.isHash(h) && h != [] && forall j :: 0 <= j < |h| ==> IsBase58(h[j]))
  }

  function TimeOf(o: Outside, l: Line): Option<Instant> {
    if TextOf(At(l, "versionTime")).Some? then o.time(TextOf(At(l, "versionTime")).value) else None
  }

  /** Its time is one, after that of the entry before, and at most 300 seconds ahead. */
  predicate Timely(o: Outside, now: int, log: seq<Line>, i: nat)
    requires i < |log|
  {
    && TimeOf(o, log[i]).Some?
    && (var t := TimeOf(o, log[i]).value;
        && (t.seconds < now + 300 || (t.seconds == now + 300 && t.nanos <= 0))
        && (i > 0 && TimeOf(o, log[i - 1]).Some? ==>
              var p := TimeOf(o, log[i - 1]).value; p.seconds < t.seconds || (p.seconds == t.seconds && p.nanos < t.nanos)))
  }

  /** The hashes the entries before have committed the next keys to. */
  function Committing(log: seq<Line>, i: nat): seq<Json>
    requires i < |log|
  {
    if i == 0 then [] else ItemsIn(Setting(log, i, "nextKeyHashes"))
  }

  /** Where keys were committed to, it sets keys, all of them among those, and commits anew. */
  predicate KeysKept(o: Outside, log: seq<Line>, i: nat)
    requires i < |log|
  {
    Committing(log, i) != [] ==>
      && Sets(log[i], "updateKeys").Some? && Sets(log[i], "nextKeyHashes").Some? && Sets(log[i], "updateKeys").value.Arr?
      && forall k :: k in Sets(log[i], "updateKeys").value.items ==> k.Str? && Str(o.keyHash(k.s)) in Committing(log, i)
  }

  /** Who may sign it: its own keys where it is the first or they were committed to, and else the keys before. */
  function Signers(log: seq<Line>, i: nat): seq<Json>
    requires i < |log|
  {
    ItemsIn(if i == 0 || Committing(log, i) != [] then Sets(log[i], "updateKeys") else Setting(log, i, "updateKeys"))
  }

  /** Every proof is by some key, those by a key that may sign all verify, and there is one. */
  predicate Signed(o: Outside, log: seq<Line>, i: nat)
    requires i < |log|
  {
    var proofs, document := ItemsIn(At(log[i], "proof")), Obj(MembersIn(log[i]) - {T("proof")});
    && (forall j :: 0 <= j < |proofs| ==>
          && o.signer(proofs[j]).Some?
          && (Str(o.signer(proofs[j]).value) in Signers(log, i) ==> o.verifies(proofs[j], o.signer(proofs[j]).value, document)))
    && exists j :: 0 <= j < |proofs| && Str(o.signer(proofs[j]).value) in Signers(log, i)
  }

  function IdOf(l: Line): Option<Text> { TextOf(Get(MembersIn(At(l, "state")), T("id"))) }

  /** It names the log's own identity, the one named before unless that is portable and mentioned. */
  predicate Identified(o: Outside, log: seq<Line>, i: nat)
    requires i < |log|
  {
    && IdOf(log[i]).Some? && Scid(log).Some? && o.scidOf(IdOf(log[i]).value) == Scid(log)
    && (i > 0 && IdOf(log[i]) != IdOf(log[i - 1]) ==>
          && Setting(log, i + 1, "portable") == Some(Bool(true)) && IdOf(log[i - 1]).Some?
          && Str(IdOf(log[i - 1]).value) in ItemsIn(Get(MembersIn(At(log[i], "state")), T("alsoKnownAs"))))
  }

  /** The first entry's identifier is that of its own content. */
  predicate Rooted(o: Outside, log: seq<Line>)
    requires log != []
  {
    Scid(log).Some? && o.scidHolds(Obj((MembersIn(log[0]) - {T("proof")})[T("versionId") := Str(T("{SCID}"))]), Scid(log).value)
  }

  /** An entry as it may stand in a log, by itself and the entries before it. */
  ghost predicate Lawful(o: Outside, now: int, log: seq<Line>, i: nat)
    requires i < |log|
  {
    && Shaped(log[i]) && Numbered(o, log, i) && Timely(o, now, log, i)
    && Setting(log, i, "deactivated") != Some(Bool(true))
    && At(log[i], "parameters").Some? && At(log[i], "parameters").value.Obj? && ParametersRight(o, MembersIn(At(log[i], "parameters")), i + 1)
    && (i == 0 ==> Rooted(o, log)) && KeysKept(o, log, i) && Signed(o, log, i) && Identified(o, log, i)
  }

  // ---- and those are the ones

  lemma ShapedIs(l: Line)
    ensures Shaped(l) <==> IsEntry(l)
    ensures IsEntry(l) ==> && EntryOf(l) == l.value.members && At(l, "versionId") == Some(Str(VersionId(l)))
                           && At(l, "versionTime").Some? && At(l, "parameters").Some? && At(l, "proof").Some? && At(l, "state").Some?
  {
    hide T;
  }

  /** The parameters the checks look at are what the lines leave them at. */
  predicate AsSet(log: seq<Line>, active: Members) {
    && Get(active, T("deactivated")) == Setting(log, |log|, "deactivated")
    && Get(active, T("nextKeyHashes")) == Setting(log, |log|, "nextKeyHashes")
    && Get(active, T("updateKeys")) == Setting(log, |log|, "updateKeys")
    && Get(active, T("portable")) == Setting(log, |log|, "portable")
  }

  /** What is known along an accepted log is read off its lines. */
  predicate KnownIs(o: Outside, log: seq<Line>, k: Known) {
    && (forall i :: 0 <= i < |log| ==> IsEntry(log[i]))
    && (if log == [] then k.time.None? else Scid(log) == Some(k.scid) && k.time.Some? && k.time == TimeOf(o, log[|log| - 1]))
    && AsSet(log, ActiveBefore(k))
  }

  lemma NumberedIs(o: Outside, log: seq<Line>, previous: Text)
    requires log != [] && IsEntry(log[|log| - 1]) && Follows(log, |log| - 1) == Some(previous)
    ensures var l, n := log[|log| - 1], |log|;
            var h := HashPart(VersionId(l), n);
            Numbered(o, log, n - 1) <==> h.Some? && o.isHash(h.value) && HashIs(o, EntryOf(l), previous, h.value)
  {
    hide T, Jcs, Digits, IsBase58, IsEntry;
    var l, n := log[|log| - 1], |log|;
    ShapedIs(l);
    var v, lead := VersionId(l), Digits(n) + [MINUS];
    var x := o.hash(Jcs(Hashed(EntryOf(l), previous)));
    assert MembersIn(l) - {T("proof")} == WithoutProof(EntryOf(l));
    if HashPart(v, n).Some? {
      assert v == lead + v[|lead|..] by { assert v == v[..|lead|] + v[|lead|..]; }
      if HashPart(v, n).value == x { assert forall j :: 0 <= j < |x| ==> x[j] == v[|lead| + j]; }
      if v == lead + x { assert v[|lead|..] == x; }
    }
    if v == lead + x && x != [] && (forall j :: 0 <= j < |x| ==> IsBase58(x[j])) {
      assert v[..|lead|] == lead && v[|lead|..] == x;
      assert forall i :: |lead| <= i < |v| ==> v[i] == x[i - |lead|];
    }
  }

  lemma TimelyIs(o: Outside, now: int, log: seq<Line>, time: Option<Instant>, before: Option<Instant>)
    requires log != [] && time == TimeOf(o, log[|log| - 1]) && (if |log| == 1 then before.None? else before.Some? && before == TimeOf(o, log[|log| - 2]))
    ensures Timely(o, now, log, |log| - 1)
       <==> !(time.None? || (before.Some? && !Later(time.value, before.value)) || Later(time.value, Instant(now + 300, 0)))
  {
    hide T;
  }

  lemma TimeIs(o: Outside, l: Line)
    requires IsEntry(l)
    ensures T("versionTime") in EntryOf(l)
    ensures TimeOf(o, l) == if EntryOf(l)[T("versionTime")].Str? then o.time(EntryOf(l)[T("versionTime")].s) else None
  {
    hide T;
  }

  lemma RotatedIs(log: seq<Line>, before: Members)
    requires log != [] && Get(before, T("nextKeyHashes")) == Setting(log, |log| - 1, "nextKeyHashes")
    ensures |log| > 1 && PreRotated(before) <==> Committing(log, |log| - 1) != []
    ensures |log| > 1 && PreRotated(before) ==> before[T("nextKeyHashes")].items == Committing(log, |log| - 1)
  {
    hide T, Setting;
  }

  lemma KeysKeptIs(o: Outside, log: seq<Line>, before: Members, p: Members)
    requires log != [] && Get(before, T("nextKeyHashes")) == Setting(log, |log| - 1, "nextKeyHashes")
    requires Sets(log[|log| - 1], "updateKeys") == Get(p, T("updateKeys")) && Sets(log[|log| - 1], "nextKeyHashes") == Get(p, T("nextKeyHashes"))
    ensures KeysKept(o, log, |log| - 1) <==> (|log| > 1 && PreRotated(before) ==> Committed(o, before, p))
  {
    hide T, Setting, Sets, Committing;
    RotatedIs(log, before);
    if |log| > 1 && PreRotated(before) {
      var committed := Committing(log, |log| - 1);
      forall k: Json ensures KeyCommitted(o, before, k) <==> k.Str? && Str(o.keyHash(k.s)) in committed { }
    }
  }

  lemma SignersAre(log: seq<Line>, before: Members, p: Members, authorised: Json)
    requires log != [] && Get(before, T("nextKeyHashes")) == Setting(log, |log| - 1, "nextKeyHashes")
    requires Get(before, T("updateKeys")) == Setting(log, |log| - 1, "updateKeys")
    requires Sets(log[|log| - 1], "updateKeys") == Get(p, T("updateKeys"))
    requires var keys := if |log| == 1 || (|log| > 1 && PreRotated(before)) then p else before;
             authorised == if T("updateKeys") in keys then keys[T("updateKeys")] else Null
    ensures forall x :: Holds(authorised, x) <==> Str(x) in Signers(log, |log| - 1)
  {
    hide T, Setting, Sets, Committing, PreRotated;
    RotatedIs(log, before);
    assert Signers(log, |log| - 1) == if authorised.Arr? then authorised.items else [];
  }

  lemma SignedIs(o: Outside, log: seq<Line>, authorised: Json)
    requires log != [] && IsEntry(log[|log| - 1]) && forall x :: Holds(authorised, x) <==> Str(x) in Signers(log, |log| - 1)
    ensures var e := EntryOf(log[|log| - 1]);
            && T("proof") in e && e[T("proof")].Arr?
            && (Signed(o, log, |log| - 1)
                <==> ProofsFit(o, e[T("proof")].items, authorised, Obj(WithoutProof(e))) && SomeAuthorised(o, e[T("proof")].items, authorised))
  {
    hide T, Signers, IsEntry, Holds;
    var l := log[|log| - 1];
    ShapedIs(l);
    EntryProof(l);
    assert MembersIn(l) - {T("proof")} == WithoutProof(EntryOf(l));
    var proofs := EntryOf(l)[T("proof")].items;
    assert ItemsIn(At(l, "proof")) == proofs;
    if j :| 0 <= j < |proofs| && o.signer(proofs[j]).Some? && Holds(authorised, o.signer(proofs[j]).value) {
      assert Str(o.signer(proofs[j]).value) in Signers(log, |log| - 1);
    }
  }

  lemma EntryProof(l: Line)
    requires IsEntry(l)
    ensures T("proof") in EntryOf(l) && EntryOf(l)[T("proof")].Arr? && T("state") in EntryOf(l) && EntryOf(l)[T("state")].Obj? && T("parameters") in EntryOf(l)
  {
    hide T;
  }

  lemma IdentifiedIs(o: Outside, log: seq<Line>, scid: Text, active: Members)
    requires log != [] && (forall i :: 0 <= i < |log| ==> IsEntry(log[i])) && Scid(log) == Some(scid)
    requires Get(active, T("portable")) == Setting(log, |log|, "portable")
    ensures Identified(o, log, |log| - 1) <==> IdentityFits(o, log, scid, active)
  {
    hide T, Setting, IsEntry, Scid;
    forall i | 0 <= i < |log|
      ensures T("state") in EntryOf(log[i]) && EntryOf(log[i])[T("state")].Obj? && IdOf(log[i]) == StateId(EntryOf(log[i]))
      ensures MembersIn(At(log[i], "state")) == EntryOf(log[i])[T("state")].members
    {
      ShapedIs(log[i]);
      EntryProof(log[i]);
    }
    TrueIs(active, T("portable"));
  }

  /** What the last line sets, once its parameters are found right. */
  lemma LineSets(o: Outside, log: seq<Line>)
    requires log != [] && IsEntry(log[|log| - 1]) && ParametersFit(o, EntryParameters(log[|log| - 1]), |log|)
    ensures var p := EntryParameters(log[|log| - 1]);
            && p.Obj? && (forall x :: Sets(log[|log| - 1], x) == Get(p.members, T(x)))
            && (|log| == 1 ==> T("scid") in p.members && p.members[T("scid")].Str?)
  {
    hide T, IsParameter, IsStrings, IsBool, WitnessFits;
    EntryProof(log[|log| - 1]);
  }

  function EntryParameters(l: Line): Json
    requires IsEntry(l)
  {
    EntryProof(l);
    EntryOf(l)[T("parameters")]
  }

  lemma ScidIs(log: seq<Line>, scid: Text)
    requires log != [] && IsEntry(log[0]) && Sets(log[0], "scid") == Some(Str(scid))
    ensures Scid(log) == Some(scid) && Follows(log, 0) == Some(scid)
  {
    hide T, Sets;
  }

  lemma FollowsIs(log: seq<Line>)
    requires |log| > 1 && IsEntry(log[|log| - 2])
    ensures Follows(log, |log| - 1) == Some(VersionId(log[|log| - 2]))
  {
    hide T;
    ShapedIs(log[|log| - 2]);
  }

  lemma ScidPrefix(log: seq<Line>, front: seq<Line>)
    requires front != [] && |front| <= |log| && front == log[..|front|]
    ensures Scid(log) == Scid(front)
  {
    hide T, Sets;
  }

  /** The line is an entry whose number, time and parameters pass (checks 3 to 6). */
  predicate FormPasses(o: Outside, now: int, log: seq<Line>, k: Known)
    requires log != []
  {
    var n, l := |log|, log[|log| - 1];
    && IsEntry(l)
    && (EntryProof(l); TimeIs(o, l);
        var e, h, time := EntryOf(l), HashPart(VersionId(l), n), TimeOf(o, l);
        && h.Some? && o.isHash(h.value)
        && !(time.None? || (k.time.Some? && !Later(time.value, k.time.value)) || Later(time.value, Instant(now + 300, 0)))
        && !IsTrue(ActiveBefore(k), T("deactivated")) && ParametersFit(o, e[T("parameters")], n))
  }

  /** Its identifier, hash, keys, proofs and identity pass (checks 7 to 11). */
  ghost predicate RestPasses(o: Outside, log: seq<Line>, k: Known)
    requires log != [] && (forall i :: 0 <= i < |log| ==> IsEntry(log[i])) && ParametersFit(o, EntryParameters(log[|log| - 1]), |log|)
    requires HashPart(VersionId(log[|log| - 1]), |log|).Some?
  {
    var n, l, before := |log|, log[|log| - 1], ActiveBefore(k);
    LineSets(o, log);
    EntryProof(l);
    var e, p := EntryOf(l), EntryParameters(l).members;
    var scid := if n == 1 then p[T("scid")].s else k.scid;
    var keys := if n == 1 || (n > 1 && PreRotated(before)) then p else before;
    var authorised := if T("updateKeys") in keys then keys[T("updateKeys")] else Null;
    && (n == 1 ==> o.scidHolds(Obj(WithoutProof(e)[T("versionId") := Str(T("{SCID}"))]), scid))
    && HashIs(o, e, if n == 1 then scid else VersionId(log[n - 2]), HashPart(VersionId(l), n).value)
    && (n > 1 && PreRotated(before) ==> Committed(o, before, p))
    && ProofsFit(o, e[T("proof")].items, authorised, Obj(WithoutProof(e))) && SomeAuthorised(o, e[T("proof")].items, authorised)
    && IdentityFits(o, log, scid, before + p)
  }

  lemma FormFails(o: Outside, now: int, log: seq<Line>, k: Known)
    requires log != [] && (forall i :: 0 <= i < |log| - 1 ==> IsEntry(log[i])) && !FormPasses(o, now, log, k)
    ensures CheckLine(o, now, log, k).Rejected?
  {
    hide T, IsEntry, HashPart, Later, ParametersFit, ProofsFit, SomeAuthorised, Committed, IdentityFits, HashIs, IsTrue, PreRotated, TimeOf,
      ActiveBefore, WithoutProof;
    if IsEntry(log[|log| - 1]) {
      EntryProof(log[|log| - 1]);
      TimeIs(o, log[|log| - 1]);
    }
  }

  /** What is known after a line accepted. */
  function KnownAfter(o: Outside, log: seq<Line>, k: Known): Known
    requires log != [] && IsEntry(log[|log| - 1]) && ParametersFit(o, EntryParameters(log[|log| - 1]), |log|)
  {
    LineSets(o, log);
    var p := EntryParameters(log[|log| - 1]).members;
    Known(k.actives + [ActiveBefore(k) + p], if |log| == 1 then p[T("scid")].s else k.scid, TimeOf(o, log[|log| - 1]))
  }

  lemma FormThenRest(o: Outside, now: int, log: seq<Line>, k: Known)
    requires log != [] && (forall i :: 0 <= i < |log| - 1 ==> IsEntry(log[i])) && FormPasses(o, now, log, k)
    ensures CheckLine(o, now, log, k).Accepted? <==> RestPasses(o, log, k)
    ensures CheckLine(o, now, log, k).Accepted? ==> CheckLine(o, now, log, k).k == KnownAfter(o, log, k)
  {
    hide T, IsEntry, HashPart, Later, ParametersFit, ProofsFit, SomeAuthorised, Committed, IdentityFits, HashIs, IsTrue, PreRotated, TimeOf,
      ActiveBefore, WithoutProof;
    EntryProof(log[|log| - 1]);
    TimeIs(o, log[|log| - 1]);
    LineSets(o, log);
  }

  lemma PassesIs(o: Outside, now: int, log: seq<Line>, k: Known)
    requires log != [] && forall i :: 0 <= i < |log| - 1 ==> IsEntry(log[i])
    ensures CheckLine(o, now, log, k).Accepted? <==> FormPasses(o, now, log, k) && RestPasses(o, log, k)
    ensures CheckLine(o, now, log, k).Accepted? ==> CheckLine(o, now, log, k).k == KnownAfter(o, log, k)
  {
    hide CheckLine, RestPasses, T, HashPart, Later, ParametersFit, IsTrue, IsEntry, KnownAfter;
    if FormPasses(o, now, log, k) { FormThenRest(o, now, log, k); } else { FormFails(o, now, log, k); }
  }

  lemma AsSetBefore(log: seq<Line>, active: Members)
    requires log != [] && AsSet(log[..|log| - 1], active)
    ensures Get(active, T("deactivated")) == Setting(log, |log| - 1, "deactivated")
    ensures Get(active, T("nextKeyHashes")) == Setting(log, |log| - 1, "nextKeyHashes")
    ensures Get(active, T("updateKeys")) == Setting(log, |log| - 1, "updateKeys")
  {
    hide T, Setting, Get;
    var front, n := log[..|log| - 1], |log| - 1;
    SettingOf(log, front, n, "deactivated");
    SettingOf(log, front, n, "nextKeyHashes");
    SettingOf(log, front, n, "updateKeys");
  }

  lemma SetNext(log: seq<Line>, active: Members, p: Members, k: string)
    requires log != [] && Get(active, T(k)) == Setting(log[..|log| - 1], |log| - 1, k) && Sets(log[|log| - 1], k) == Get(p, T(k))
    ensures Get(active + p, T(k)) == Setting(log, |log|, k)
  {
    hide T, Sets;
    SettingOf(log, log[..|log| - 1], |log| - 1, k);
  }

  lemma AsSetNext(log: seq<Line>, active: Members, p: Members)
    requires log != [] && AsSet(log[..|log| - 1], active) && forall x :: Sets(log[|log| - 1], x) == Get(p, T(x))
    ensures AsSet(log, active + p)
  {
    hide T, Setting, Get, Sets;
    SetNext(log, active, p, "deactivated");
    SetNext(log, active, p, "nextKeyHashes");
    SetNext(log, active, p, "updateKeys");
    SetNext(log, active, p, "portable");
  }

  lemma FormLawful(o: Outside, now: int, log: seq<Line>, k: Known)
    requires log != [] && KnownIs(o, log[..|log| - 1], k)
    ensures var n, l := |log|, log[|log| - 1];
            FormPasses(o, now, log, k)
            <==> IsEntry(l) && HashPart(VersionId(l), n).Some? && o.isHash(HashPart(VersionId(l), n).value) && Timely(o, now, log, n - 1)
                 && Setting(log, n - 1, "deactivated") != Some(Bool(true)) && ParametersFit(o, EntryParameters(l), n)
  {
    hide T, IsEntry, HashPart, Later, ParametersFit, Timely, Setting, IsTrue, Scid, TimeOf, AsSet, Get;
    var n, l := |log|, log[|log| - 1];
    var front := log[..n - 1];
    AsSetBefore(log, ActiveBefore(k));
    TrueIs(ActiveBefore(k), T("deactivated"));
    if IsEntry(l) {
      if n > 1 { assert front[n - 2] == log[n - 2]; }
      TimelyIs(o, now, log, TimeOf(o, l), k.time);
    }
  }

  /** The identifier the line goes by, in terms of what is known before it. */
  lemma LineScid(o: Outside, log: seq<Line>, k: Known)
    requires log != [] && KnownIs(o, log[..|log| - 1], k) && IsEntry(log[|log| - 1]) && ParametersFit(o, EntryParameters(log[|log| - 1]), |log|)
    ensures var n, p := |log|, EntryParameters(log[|log| - 1]);
            && p.Obj? && (n == 1 ==> T("scid") in p.members && p.members[T("scid")].Str?)
            && (var scid := if n == 1 then p.members[T("scid")].s else k.scid;
                Scid(log) == Some(scid) && Follows(log, n - 1) == Some(if n == 1 then scid else VersionId(log[n - 2])))
  {
    hide T, IsEntry, ParametersFit, Sets, Scid, Follows, AsSet, TimeOf;
    var n, l := |log|, log[|log| - 1];
    var front := log[..n - 1];
    LineSets(o, log);
    var p := EntryParameters(l).members;
    if n == 1 {
      assert Sets(log[0], "scid") == Get(p, T("scid"));
      ScidIs(log, p[T("scid")].s);
    } else {
      assert front[n - 2] == log[n - 2];
      FollowsIs(log);
      ScidPrefix(log, front);
    }
  }

  lemma RestLawful(o: Outside, log: seq<Line>, k: Known)
    requires log != [] && KnownIs(o, log[..|log| - 1], k) && (forall i :: 0 <= i < |log| ==> IsEntry(log[i]))
    requires ParametersFit(o, EntryParameters(log[|log| - 1]), |log|)
    requires HashPart(VersionId(log[|log| - 1]), |log|).Some? && o.isHash(HashPart(VersionId(log[|log| - 1]), |log|).value)
    ensures var i := |log| - 1;
            RestPasses(o, log, k)
            <==> Numbered(o, log, i) && (i == 0 ==> Rooted(o, log)) && KeysKept(o, log, i) && Signed(o, log, i) && Identified(o, log, i)
  {
    hide T, IsEntry, HashPart, ParametersFit, ProofsFit, SomeAuthorised, Committed, IdentityFits, HashIs, Numbered, KeysKept, Signed, Identified,
      Scid, Follows, Setting, Sets, Signers, Holds, PreRotated, Hashed, Get, AsSet, TimeOf, Rooted;
    var n, l, before := |log|, log[|log| - 1], ActiveBefore(k);
    LineScid(o, log, k);
    LineSets(o, log);
    EntryProof(l);
    var p := EntryParameters(l).members;
    var scid := if n == 1 then p[T("scid")].s else k.scid;
    var keys := if n == 1 || (n > 1 && PreRotated(before)) then p else before;
    var authorised := if T("updateKeys") in keys then keys[T("updateKeys")] else Null;
    assert Sets(l, "updateKeys") == Get(p, T("updateKeys")) && Sets(l, "nextKeyHashes") == Get(p, T("nextKeyHashes"));
    AsSetBefore(log, before);
    AsSetNext(log, before, p);
    NumberedIs(o, log, if n == 1 then scid else VersionId(log[n - 2]));
    KeysKeptIs(o, log, before, p);
    SignersAre(log, before, p, authorised);
    SignedIs(o, log, authorised);
    PortableIs(log, before + p);
    IdentifiedIs(o, log, scid, before + p);
    if n == 1 { RootedIs(o, log, scid); }
  }

  lemma PortableIs(log: seq<Line>, active: Members)
    requires AsSet(log, active)
    ensures Get(active, T("portable")) == Setting(log, |log|, "portable")
  {
  }

  lemma RootedIs(o: Outside, log: seq<Line>, scid: Text)
    requires |log| == 1 && IsEntry(log[0]) && Scid(log) == Some(scid)
    ensures Rooted(o, log) <==> o.scidHolds(Obj(WithoutProof(EntryOf(log[0]))[T("versionId") := Str(T("{SCID}"))]), scid)
  {
    hide T, Scid;
    ShapedIs(log[0]);
    assert MembersIn(log[0]) - {T("proof")} == WithoutProof(EntryOf(log[0]));
  }

  lemma ParametersAt(l: Line)
    requires IsEntry(l)
    ensures At(l, "parameters") == Some(EntryParameters(l))
  {
    hide T;
    ShapedIs(l);
  }

  lemma LineAccepted(o: Outside, now: int, log: seq<Line>, k: Known)
    requires log != [] && KnownIs(o, log[..|log| - 1], k)
    ensures (forall i :: 0 <= i < |log| - 1 ==> IsEntry(log[i]))
    ensures CheckLine(o, now, log, k).Accepted? <==> Lawful(o, now, log, |log| - 1)
  {
    hide T, IsEntry, HashPart, ParametersFit, Timely, Setting, FormPasses, RestPasses, CheckLine, Numbered, Rooted, KeysKept, Signed, Identified,
      Shaped, Scid, EntryOf, TimeOf, AsSet, HashIs, Get, Follows, ParametersRight;
    var n, l := |log|, log[|log| - 1];
    var front := log[..n - 1];
    forall i | 0 <= i < n - 1 ensures IsEntry(log[i]) { assert front[i] == log[i]; }
    PassesIs(o, now, log, k);
    FormLawful(o, now, log, k);
    ShapedIs(l);
    if IsEntry(l) {
      ParametersAt(l);
      ParametersAre(o, EntryParameters(l), n);
      if ParametersFit(o, EntryParameters(l), n) {
        LineScid(o, log, k);
        NumberedIs(o, log, Follows(log, n - 1).value);
        if HashPart(VersionId(l), n).Some? && o.isHash(HashPart(VersionId(l), n).value) { RestLawful(o, log, k); }
      }
    }
  }

  lemma LineKnown(o: Outside, now: int, log: seq<Line>, k: Known)
    requires log != [] && KnownIs(o, log[..|log| - 1], k) && CheckLine(o, now, log, k).Accepted?
    ensures KnownIs(o, log, CheckLine(o, now, log, k).k)
  {
    hide T, ParametersFit, Setting, RestPasses, CheckLine, Scid, AsSet, HashPart, Later, IsTrue;
    var n, l := |log|, log[|log| - 1];
    var front := log[..n - 1];
    forall i | 0 <= i < n - 1 ensures IsEntry(log[i]) { assert front[i] == log[i]; }
    PassesIs(o, now, log, k);
    hide IsEntry, TimeOf, Get, Sets;
    LineScid(o, log, k);
    LineSets(o, log);
    AsSetNext(log, ActiveBefore(k), EntryParameters(l).members);
    assert ActiveBefore(KnownAfter(o, log, k)) == ActiveBefore(k) + EntryParameters(l).members;
  }

  lemma NothingKnown(o: Outside)
    ensures KnownIs(o, [], Known([], [], None))
  {
    hide T, DEFAULTS, PARAMETERS;
    assert IsName("deactivated") && IsName("nextKeyHashes") && IsName("updateKeys") && IsName("portable") by { SomeNames(); }
    DefaultIs("deactivated");
    DefaultIs("nextKeyHashes");
    DefaultIs("updateKeys");
    DefaultIs("portable");
  }

  lemma SomeNames()
    ensures IsName("deactivated") && IsName("nextKeyHashes") && IsName("updateKeys") && IsName("portable")
  {
  }

  lemma LawfulBefore(o: Outside, now: int, log: seq<Line>, front: seq<Line>, i: nat)
    requires i < |front| <= |log| && front == log[..|front|]
    ensures Lawful(o, now, log, i) <==> Lawful(o, now, front, i)
  {
    hide T, Jcs, Digits, ParametersRight, Setting, Shaped, At, Sets, TextOf, TimeOf, IdOf, MembersIn, ItemsIn, IsBase58, Get;
    assert log[i] == front[i] && (i > 0 ==> log[i - 1] == front[i - 1]) && log[0] == front[0];
    assert log[..i] == front[..i] && log[..i + 1] == front[..i + 1];
    SettingOf(log, front, i, "deactivated");
    SettingOf(log, front, i, "nextKeyHashes");
    SettingOf(log, front, i, "updateKeys");
    SettingOf(log, front, i + 1, "portable");
    assert Numbered(o, log, i) <==> Numbered(o, front, i);
    assert Timely(o, now, log, i) <==> Timely(o, now, front, i);
    assert KeysKept(o, log, i) <==> KeysKept(o, front, i);
    assert Signers(log, i) == Signers(front, i);
    assert Signed(o, log, i) <==> Signed(o, front, i) by { hide Signers; }
    assert Identified(o, log, i) <==> Identified(o, front, i);
    assert Rooted(o, log) <==> Rooted(o, front);
  }

  /** A log is accepted exactly if each of its entries may stand where it does. */
  lemma {:induction false} AcceptedExactly(o: Outside, now: int, log: seq<Line>)
    ensures CheckAll(o, now, log).Accepted? <==> forall i :: 0 <= i < |log| ==> Lawful(o, now, log, i)
    ensures CheckAll(o, now, log).Accepted? ==> KnownIs(o, log, CheckAll(o, now, log).k)
  {
    hide CheckLine, Lawful, KnownIs, IsEntry;
    if log == [] {
      NothingKnown(o);
    } else {
      var front := log[..|log| - 1];
      AcceptedExactly(o, now, front);
      var r := CheckAll(o, now, front);
      forall i | 0 <= i < |front| ensures Lawful(o, now, log, i) <==> Lawful(o, now, front, i) { LawfulBefore(o, now, log, front, i); }
      if r.Accepted? {
        LineAccepted(o, now, log, r.k);
        if CheckLine(o, now, log, r.k).Accepted? { LineKnown(o, now, log, r.k); }
      }
    }
  }

  // ---- what resolving takes

  lemma {:induction false} ValueDigits(d: Text)
    requires d != [] && d[0] != 48 && forall i :: 0 <= i < |d| ==> IsDigit(d[i])
    ensures ValueOf(d) > 0 && Digits(ValueOf(d)) == d
  {
    var front, x := d[..|d| - 1], d[|d| - 1];
    assert IsDigit(d[0]) && IsDigit(x);
    if front == [] {
      assert d == [x];
    } else {
      assert front[0] == d[0];
      ValueDigits(front);
      assert d == front + [x];
      assert ValueOf(d) == ValueOf(front) * 10 + (x as int - 48);
      assert ValueOf(d) / 10 == ValueOf(front) && ValueOf(d) % 10 == x as int - 48;
    }
  }

  /** A version remembered has a number exactly if it is that number and something more. */
  lemma CachedAs(v: Text, n: nat)
    ensures CachedNumber(v) == Some(n) <==> n > 0 && exists rest: Text :: rest != [] && v == Digits(n) + [MINUS] + rest
  {
    hide Digits;
    if CachedNumber(v) == Some(n) {
      RunDigits(v);
      var k := Run(v);
      ValueDigits(v[..k]);
      assert v == v[..k] + [MINUS] + v[k + 1..];
    }
    if rest: Text :| n > 0 && rest != [] && v == Digits(n) + [MINUS] + rest {
      var d := Digits(n);
      assert v == d + ([MINUS] + rest);
      RunOf(d, [MINUS] + rest);
      DigitsLead(n);
      DigitsSpell(n);
      assert v[..|d|] == d && v[|d|] == MINUS;
    }
  }

  /** A version remembered that is some entry's number and something more is that entry's version. */
  ghost predicate Remembered(log: seq<Line>, cache: Option<Text>) {
    forall n: nat, rest: Text :: n > 0 && rest != [] && cache == Some(Digits(n) + [MINUS] + rest) ==>
      n <= |log| && TextOf(At(log[n - 1], "versionId")) == cache
  }

  lemma RememberedIs(log: seq<Line>, cache: Option<Text>)
    requires forall i :: 0 <= i < |log| ==> IsEntry(log[i])
    ensures var k := if cache.Some? then CachedNumber(cache.value) else None;
            Remembered(log, cache) <==> !(k.Some? && |log| < k.value) && !(k.Some? && 0 < k.value <= |log| && Some(VersionId(log[k.value - 1])) != cache)
  {
    hide Digits, T, IsEntry, CachedNumber;
    if cache.Some? {
      forall n: nat ensures CachedNumber(cache.value) == Some(n) <==> n > 0 && exists rest: Text :: rest != [] && cache.value == Digits(n) + [MINUS] + rest {
        CachedAs(cache.value, n);
      }
      forall i | 0 <= i < |log| ensures TextOf(At(log[i], "versionId")) == Some(VersionId(log[i])) { ShapedIs(log[i]); }
    }
  }

  /** Every entry with witnesses to answer to is vouched for. */
  ghost predicate VouchedThrough(o: Outside, log: seq<Line>, evidence: Option<Json>) {
    || (forall i :: 0 <= i < |log| ==> WitnessesFor(log, i) == map[])
    || (evidence.Some? && forall i :: 0 <= i < |log| && WitnessesFor(log, i) != map[] ==> Vouched(o, log, ItemsIn(evidence), i))
  }

  lemma EntryVouched(o: Outside, log: seq<Line>, records: seq<Json>, i: nat)
    requires i < |log| && (forall x :: 0 <= x < |log| ==> IsEntry(log[x])) && WitnessesFor(log, i) != map[]
    ensures EntryWitnessed(o, log, WitnessesFor(log, i), records, i) <==> HasThreshold(WitnessesFor(log, i)) && Vouched(o, log, records, i)
  {
    hide T, IsEntry, WitnessesFor, Vouches, Approves;
    var w := WitnessesFor(log, i);
    forall id ensures IsMember(w, id) <==> Listed(w, id) { MemberListed(w, id); }
    forall id ensures Approves(o, log, records, i, id) <==> Vouches(o, log, records, i, id) {
      if Approves(o, log, records, i, id) { EvidenceVouches(o, log, records, i, id); }
      if Vouches(o, log, records, i, id) { VouchesApproves(o, log, records, i, id); }
    }
    if EntryWitnessed(o, log, w, records, i) {
      var ids :| Enough(o, log, w, records, i, ids);
      assert VouchedEnough(o, log, records, i, w, ids);
    }
    if HasThreshold(w) && Vouched(o, log, records, i) {
      var ids :| VouchedEnough(o, log, records, i, w, ids);
      assert Enough(o, log, w, records, i, ids);
    }
  }

  predicate HasThreshold(w: Members) { T("threshold") in w && w[T("threshold")].Int? }

  lemma MemberListed(w: Members, id: Text)
    ensures IsMember(w, id) <==> Listed(w, id)
  {
    hide T;
    if IsMember(w, id) {
      var items := w[T("witnesses")].items;
      var i :| 0 <= i < |items| && Named(items[i], id);
      assert Get(items[i].members, T("id")) == Some(Str(id));
    }
    if Listed(w, id) {
      var items := w[T("witnesses")].items;
      var i :| 0 <= i < |items| && items[i].Obj? && Get(items[i].members, T("id")) == Some(Str(id));
      assert Named(items[i], id);
    }
  }

  lemma VouchesApproves(o: Outside, log: seq<Line>, records: seq<Json>, i: nat, id: Text)
    requires (forall x :: 0 <= x < |log| ==> IsEntry(log[x])) && Vouches(o, log, records, i, id)
    ensures Approves(o, log, records, i, id)
  {
    hide T, IsEntry;
    var j: int, r: int, q: nat :| i <= j < |log| && 0 <= r < |records| && records[r].Obj? && VouchesIn(o, log[j], records[r].members, q, id);
    ShapedIs(log[j]);
    assert VouchesIn(o, log[j], records[r].members, q, id) && records[r].members[T("versionId")] == Str(VersionId(log[j]));
    assert ProofBy(o, records[r].members[T("proof")].items[q], VersionId(log[j]), id);
    assert Evidence(o, records[r], VersionId(log[j]), id);
  }

  /** Witnesses that an accepted log configures come with a threshold. */
  lemma HasThresholdIn(o: Outside, now: int, log: seq<Line>, n: nat)
    requires n <= |log| && forall i :: 0 <= i < |log| ==> Lawful(o, now, log, i)
    ensures var v := Setting(log, n, "witness"); v.Some? && v.value.Obj? && v.value.members != map[] ==> HasThreshold(v.value.members)
  {
    hide T, Setting, Lawful;
    SettingIsLast(log, n, "witness");
    var v := Setting(log, n, "witness");
    if v.Some? && v.value.Obj? && v.value.members != map[] {
      if i :| 0 <= i < n && Sets(log[i], "witness").Some? && v == Sets(log[i], "witness") {
        WitnessLawful(o, now, log, i);
      } else {
        NoWitness();
      }
    }
  }

  lemma NoWitness()
    ensures Unset("witness") == Some(Obj(map[]))
  {
  }

  lemma WitnessLawful(o: Outside, now: int, log: seq<Line>, i: nat)
    requires i < |log| && Lawful(o, now, log, i) && Sets(log[i], "witness").Some?
    ensures WitnessesRight(o, Sets(log[i], "witness").value)
    ensures var v := Sets(log[i], "witness").value; v.Obj? && v.members != map[] ==> HasThreshold(v.members)
  {
    hide T, Numbered, Timely, KeysKept, Signed, Identified, Rooted, Setting;
  }

  lemma WitnessedIs(o: Outside, now: int, log: seq<Line>, evidence: Option<Json>)
    requires CheckAll(o, now, log).Accepted?
    ensures Witnessed(o, log, CheckAll(o, now, log).k.actives, evidence) <==> VouchedThrough(o, log, evidence)
  {
    hide CheckAll, Lawful, T, WitnessesFor, WitnessConfig, EntryWitnessed, Vouched, IsEntry, KnownIs;
    AcceptedExactly(o, now, log);
    var actives, records := CheckAll(o, now, log).k.actives, if evidence.Some? && evidence.value.Arr? then evidence.value.items else [];
    forall i | 0 <= i < |log|
      ensures WitnessConfig(actives, i) == WitnessesFor(log, i)
      ensures EntryWitnessed(o, log, WitnessesFor(log, i), records, i) <==> WitnessesFor(log, i) == map[] || Vouched(o, log, records, i)
    {
      ConfigIs(o, now, log, i);
      if WitnessesFor(log, i) == map[] {
        NoneAsked(o, log, records, i);
      } else {
        ThresholdFor(o, now, log, i);
        EntryVouched(o, log, records, i);
      }
    }
  }

  lemma NoneAsked(o: Outside, log: seq<Line>, records: seq<Json>, i: nat)
    requires forall x :: 0 <= x < |log| ==> IsEntry(log[x])
    ensures EntryWitnessed(o, log, map[], records, i)
  {
  }

  lemma ThresholdFor(o: Outside, now: int, log: seq<Line>, i: nat)
    requires i < |log| && WitnessesFor(log, i) != map[] && forall i :: 0 <= i < |log| ==> Lawful(o, now, log, i)
    ensures HasThreshold(WitnessesFor(log, i))
  {
    hide T, Lawful, Setting, HasThreshold;
    HasThresholdIn(o, now, log, i);
    HasThresholdIn(o, now, log, i + 1);
  }

  /**
   * It has entries and each may stand where it does, the identifier asked for is the log's own and one of its entries is for it,
   * every entry is vouched for, and it holds the version remembered.
   */
  ghost predicate Resolvable(o: Outside, did: Text, log: seq<Line>, evidence: Option<Json>, cache: Option<Text>, now: int) {
    && log != [] && o.scidOf(did).Some? && o.scidOf(did) == Scid(log) && (forall i :: 0 <= i < |log| ==> Lawful(o, now, log, i))
    && (exists i :: 0 <= i < |log| && IdOf(log[i]) == Some(did)) && VouchedThrough(o, log, evidence) && Remembered(log, cache)
  }

  lemma ResolvesExactly(o: Outside, did: Text, log: seq<Line>, evidence: Option<Json>, cache: Option<Text>, now: int)
    ensures !Resolve(o, did, log, evidence, cache, now).Refused? <==> Resolvable(o, did, log, evidence, cache, now)
  {
    hide CheckAll, Lawful, T, Witnessed, VouchedThrough, Remembered, CachedNumber, IsEntry, StateId, IdOf, Scid, IsTrue, VersionId, AsSet;
    AcceptedExactly(o, now, log);
    if CheckAll(o, now, log).Accepted? && log != [] {
      WitnessedIs(o, now, log, evidence);
      RememberedIs(log, cache);
      forall i | 0 <= i < |log|
        ensures T("state") in EntryOf(log[i]) && EntryOf(log[i])[T("state")].Obj? && IdOf(log[i]) == StateId(EntryOf(log[i]))
      {
        EntryProof(log[i]);
        IdOfEntry(log[i]);
      }
    }
  }

  lemma IdOfEntry(l: Line)
    requires IsEntry(l)
    ensures IdOf(l) == StateId(EntryOf(l))
  {
    hide T;
    ShapedIs(l);
    EntryProof(l);
  }
}
