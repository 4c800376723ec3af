/**
 * The answer section of a DNS message and the records a publisher carries over from its previous packet
 * (`pkarr.ts`). A packet that holds just the carried records is read back and carried over unchanged.
 */
module DnsPackets {
  import opened Bytes
  import opened Prelude
  import opened DnsNames

  datatype Record = Record(labels: seq<Octets>, kind: nat, class_: nat, ttl: nat, start: nat, end: nat)

  datatype Found = Found(records: seq<Record>, end: nat)

  function U16(msg: Octets, i: nat): (n: nat)
    requires i + 2 <= |msg|
    ensures n < 0x1_0000
  {
    msg[i] as nat * 256 + msg[i + 1] as nat
  }

  function U32(msg: Octets, i: nat): (n: nat)
    requires i + 4 <= |msg|
    ensures n < 0x1_0000_0000
  {
    U16(msg, i) * 0x1_0000 + U16(msg, i + 2)
  }

  // ---- reading

  /** Past `n` questions. */
  function Questions(msg: Octets, pos: nat, n: nat): Option<nat>
    decreases n
  {
    if n == 0 then Some(pos)
    else
      match NameAt(msg, pos, pos)
      case None => None
      case Some(name) => if name.end + 4 > |msg| then None else Questions(msg, name.end + 4, n - 1)
  }

  function RecordAt(msg: Octets, pos: nat): (r: Option<Record>)
    ensures r.Some? ==> pos < r.value.start <= r.value.end <= |msg|
  {
    match NameAt(msg, pos, pos)
    case None => None
    case Some(n) =>
      NameIsShaped(msg, pos, pos);
      if n.end + 10 > |msg| then None
      else
        var end := n.end + 10 + U16(msg, n.end + 8);
        if end > |msg| then None
        else Some(Record(n.labels, U16(msg, n.end), U16(msg, n.end + 2), U32(msg, n.end + 4), n.end + 10, end))
  }

  /** The next `n` records. */
  function Records(msg: Octets, pos: nat, n: nat): Option<Found>
    decreases n
  {
    if n == 0 then Some(Found([], pos))
    else
      match RecordAt(msg, pos)
      case None => None
      case Some(r) =>
        match Records(msg, r.end, n - 1)
        case None => None
        case Some(f) => Some(Found([r] + f.records, f.end))
  }

  lemma {:induction false} RecordsCount(msg: Octets, pos: nat, n: nat)
    requires Records(msg, pos, n).Some?
    ensures |Records(msg, pos, n).value.records| == n
    decreases n
  {
    if n > 0 { RecordsCount(msg, RecordAt(msg, pos).value.end, n - 1); }
  }

  /** The answers of a message whose every section parses and which ends where its last record does. */
  function Answers(msg: Octets): Option<seq<Record>>
  {
    if |msg| < 12 then None
    else
      match Questions(msg, 12, U16(msg, 4))
      case None => None
      case Some(pos) =>
        var an := U16(msg, 6);
        var all := an + U16(msg, 8) + U16(msg, 10);
        match Records(msg, pos, all)
        case None => None
        case Some(f) => RecordsCount(msg, pos, all); if f.end != |msg| then None else Some(f.records[..an])
  }

  function Grown(done: seq<Record>, rest: Option<Found>): Option<Found> {
    match rest
    case None => None
    case Some(f) => Some(Found(done + f.records, f.end))
  }

  method ReadRecord(msg: Octets, pos: nat) returns (r: Option<Record>)
    ensures r == RecordAt(msg, pos)
  {
    var name := ReadName(msg, pos);
    if name.None? { return None; }
    NameIsShaped(msg, pos, pos);
    var end := name.value.end;
    if end + 10 > |msg| { return None; }
    var rdEnd := end + 10 + U16(msg, end + 8);
    if rdEnd > |msg| { return None; }
    r := Some(Record(name.value.labels, U16(msg, end), U16(msg, end + 2), U32(msg, end + 4), end + 10, rdEnd));
  }

  method ReadQuestions(msg: Octets, n: nat) returns (r: Option<nat>)
    ensures r == Questions(msg, 12, n)
  {
    var pos: nat, i := 12, 0;
    while i < n
      invariant 0 <= i <= n
      invariant Questions(msg, 12, n) == Questions(msg, pos, n - i)
    {
      var name := ReadName(msg, pos);
      if name.None? { return None; }
      pos := name.value.end + 4;
      if pos > |msg| { return None; }
      i := i + 1;
    }
    r := Some(pos);
  }

  lemma GrownStep(done: seq<Record>, r: Record, rest: Option<Found>)
    ensures rest.Some? ==> Grown(done, Some(Found([r] + rest.value.records, rest.value.end))) == Grown(done + [r], rest)
  {
    if rest.Some? { assert done + ([r] + rest.value.records) == done + [r] + rest.value.records; }
  }

  /** Reads `all` records and holds on to the first `an` of them. */
  method ReadRecords(msg: Octets, start: nat, an: nat, all: nat) returns (r: Option<Found>)
    requires an <= all
    ensures r.None? <==> Records(msg, start, all).None?
    ensures r.Some? ==> |Records(msg, start, all).value.records| == all && r.value.end == Records(msg, start, all).value.end
    ensures r.Some? ==> r.value.records == Records(msg, start, all).value.records[..an]
  {
    hide RecordAt;
    var answers: seq<Record>, pos, i := [], start, 0;
    ghost var done: seq<Record> := [];
    ghost var whole := Records(msg, start, all);
    assert whole.Some? ==> [] + whole.value.records == whole.value.records;
    while i < all
      invariant 0 <= i <= all && |done| == i
      invariant whole == Grown(done, Records(msg, pos, all - i))
      invariant answers == if i <= an then done else done[..an]
    {
      var record := ReadRecord(msg, pos);
      if record.None? { return None; }
      if i < an { answers := answers + [record.value]; }
      GrownStep(done, record.value, Records(msg, record.value.end, all - i - 1));
      done := done + [record.value];
      pos := record.value.end;
      i := i + 1;
    }
    assert done + [] == done;
    r := Some(Found(answers, pos));
  }

  method ParseAnswers(msg: Octets) returns (r: Option<seq<Record>>)
    ensures r == Answers(msg)
  {
    if |msg| < 12 { return None; }
    var pos := ReadQuestions(msg, U16(msg, 4));
    if pos.None? { return None; }
    var an := U16(msg, 6);
    var found := ReadRecords(msg, pos.value, an, an + U16(msg, 8) + U16(msg, 10));
    if found.None? || found.value.end != |msg| { return None; }
    r := Some(found.value.records);
  }

  // ---- carrying

  /** A carried record: the owner's name and the data in wire form, nothing shortened. */
  datatype Kept = Kept(name: Octets, kind: nat, ttl: nat, data: Octets)

  function Lower(l: Octets): (r: Octets)
    ensures |r| == |l|
  {
    if l == [] then [] else [if 65 <= l[0] <= 90 then l[0] + 32 else l[0]] + Lower(l[1..])
  }

  /** The owners a publisher writes itself: one of `owners` under the zone, whatever the case of its letters. */
  predicate Ours(owners: set<Octets>, zone: Octets, labels: seq<Octets>) {
    |labels| == 2 && Lower(labels[0]) in owners && Lower(labels[1]) == Lower(zone)
  }

  predicate Foreign(owners: set<Octets>, zone: Octets, r: Record) {
    r.class_ == 1 && !Ours(owners, zone, r.labels)
  }

  predicate Shaped(msg: Octets, r: Record) {
    r.start <= r.end <= |msg| && Labels(r.labels) && r.kind < 0x1_0000 && r.class_ < 0x1_0000 && r.ttl < 0x1_0000_0000
  }

  predicate AllShaped(msg: Octets, rs: seq<Record>) { forall r :: r in rs ==> Shaped(msg, r) }

  function KeptOf(msg: Octets, r: Record): Option<Kept>
    requires Shaped(msg, r)
  {
    match Expanded(msg, r.kind, r.start, r.end)
    case None => None
    case Some(data) => Some(Kept(WireName(r.labels), r.kind, r.ttl, data))
  }

  function Keep(owners: set<Octets>, zone: Octets, msg: Octets, rs: seq<Record>): Option<seq<Kept>>
    requires AllShaped(msg, rs)
  {
    if rs == [] then Some([])
    else if !Foreign(owners, zone, rs[0]) then Keep(owners, zone, msg, rs[1..])
    else
      match KeptOf(msg, rs[0])
      case None => None
      case Some(k) =>
        match Keep(owners, zone, msg, rs[1..])
        case None => None
        case Some(ks) => Some([k] + ks)
  }

  lemma {:induction false} RecordsAreShaped(msg: Octets, pos: nat, n: nat)
    requires Records(msg, pos, n).Some?
    ensures AllShaped(msg, Records(msg, pos, n).value.records)
    decreases n
  {
    if n > 0 {
      NameIsShaped(msg, pos, pos);
      RecordsAreShaped(msg, RecordAt(msg, pos).value.end, n - 1);
    }
  }

  lemma AnswersAreShaped(msg: Octets)
    requires Answers(msg).Some?
    ensures AllShaped(msg, Answers(msg).value)
  {
    var pos := Questions(msg, 12, U16(msg, 4)).value;
    var all := U16(msg, 6) + U16(msg, 8) + U16(msg, 10);
    RecordsAreShaped(msg, pos, all);
    RecordsCount(msg, pos, all);
    var rs := Records(msg, pos, all).value.records;
    assert forall r :: r in rs[..U16(msg, 6)] ==> r in rs;
  }

  /** Every foreign IN answer, in message order; nothing when any part of the message or of a kept record is malformed. */
  function Carried(owners: set<Octets>, zone: Octets, msg: Octets): Option<seq<Kept>> {
    match Answers(msg)
    case None => None
    case Some(rs) => AnswersAreShaped(msg); Keep(owners, zone, msg, rs)
  }

  method Carry(owners: set<Octets>, zone: Octets, msg: Octets) returns (r: Option<seq<Kept>>)
    ensures r == Carried(owners, zone, msg)
  {
    var answers := ParseAnswers(msg);
    if answers.None? { return None; }
    AnswersAreShaped(msg);
    var keep: seq<Kept> := [];
    var i := 0;
    ghost var whole := Keep(owners, zone, msg, answers.value);
    assert whole.Some? ==> [] + whole.value == whole.value;
    assert answers.value[0..] == answers.value;
    while i < |answers.value|
      invariant 0 <= i <= |answers.value|
      invariant whole == More(keep, Keep(owners, zone, msg, answers.value[i..]))
    {
      var rr := answers.value[i];
      ghost var rest := answers.value[i..];
      assert rest[1..] == answers.value[i + 1..];
      assert Shaped(msg, rr);
      if Foreign(owners, zone, rr) {
        var data := ExpandRdata(msg, rr.kind, rr.start, rr.end);
        if data.None? { return None; }
        var k := Kept(WireName(rr.labels), rr.kind, rr.ttl, data.value);
        ghost var more := Keep(owners, zone, msg, rest[1..]);
        assert more.Some? ==> keep + ([k] + more.value) == keep + [k] + more.value;
        keep := keep + [k];
      }
      i := i + 1;
    }
    assert keep + [] == keep;
    r := Some(keep);
  }

  function More(done: seq<Kept>, rest: Option<seq<Kept>>): Option<seq<Kept>> {
    match rest
    case None => None
    case Some(ks) => Some(done + ks)
  }

  // ---- a packet of nothing but carried records

  function B16(n: nat): (b: Octets)
    requires n < 0x1_0000
    ensures |b| == 2
  {
    [(n / 256) as byte, (n % 256) as byte]
  }

  function RecordOctets(k: Kept): Octets
    requires Fits(k)
  {
    k.name + B16(k.kind) + B16(1) + B16(k.ttl / 0x1_0000) + B16(k.ttl % 0x1_0000) + B16(|k.data|) + k.data
  }

  predicate Fits(k: Kept) { k.kind < 0x1_0000 && k.ttl < 0x1_0000_0000 && |k.data| < 0x1_0000 }

  function Body(ks: seq<Kept>): Octets
    requires forall k :: k in ks ==> Fits(k)
  {
    if ks == [] then [] else RecordOctets(ks[0]) + Body(ks[1..])
  }

  /** A response that holds these answers and nothing else. */
  function Packet(ks: seq<Kept>): Octets
    requires |ks| < 0x1_0000 && forall k :: k in ks ==> Fits(k)
  {
    [0, 0, 132, 0, 0, 0] + B16(|ks|) + [0, 0, 0, 0] + Body(ks)
  }

  lemma B16Reads(msg: Octets, pos: nat, n: nat)
    requires n < 0x1_0000 && At(msg, pos, B16(n))
    ensures U16(msg, pos) == n
  {
    assert msg[pos] == msg[pos..pos + 2][0] && msg[pos + 1] == msg[pos..pos + 2][1];
  }

  lemma RecordOctetsAt(msg: Octets, pos: nat, k: Kept)
    requires Fits(k) && At(msg, pos, RecordOctets(k))
    ensures At(msg, pos, k.name) && At(msg, pos + |k.name| + 10, k.data)
    ensures |RecordOctets(k)| == |k.name| + 10 + |k.data|
    ensures var e := pos + |k.name|;
      && U16(msg, e) == k.kind && U16(msg, e + 2) == 1 && U32(msg, e + 4) == k.ttl && U16(msg, e + 8) == |k.data|
  {
    hide U16, B16;
    var a := k.name;
    var b := a + B16(k.kind);
    var c := b + B16(1);
    var d := c + B16(k.ttl / 0x1_0000);
    var e := d + B16(k.ttl % 0x1_0000);
    var f := e + B16(|k.data|);
    AtSplits(msg, pos, f, k.data);
    AtSplits(msg, pos, e, B16(|k.data|));
    AtSplits(msg, pos, d, B16(k.ttl % 0x1_0000));
    AtSplits(msg, pos, c, B16(k.ttl / 0x1_0000));
    AtSplits(msg, pos, b, B16(1));
    AtSplits(msg, pos, a, B16(k.kind));
    B16Reads(msg, pos + |a|, k.kind);
    B16Reads(msg, pos + |b|, 1);
    B16Reads(msg, pos + |c|, k.ttl / 0x1_0000);
    B16Reads(msg, pos + |d|, k.ttl % 0x1_0000);
    B16Reads(msg, pos + |e|, |k.data|);
  }

  /** One carried record, written into any packet, is read there and kept again just as it was. */
  lemma KeptReads(owners: set<Octets>, zone: Octets, msg: Octets, r: Record, other: Octets, pos: nat)
    requires Shaped(msg, r) && Foreign(owners, zone, r) && KeptOf(msg, r).Some?
    requires Fits(KeptOf(msg, r).value) && At(other, pos, RecordOctets(KeptOf(msg, r).value))
    ensures RecordAt(other, pos).Some?
    ensures var n := RecordAt(other, pos).value; var k := KeptOf(msg, r).value;
      && n.end == pos + |RecordOctets(k)| && Shaped(other, n) && Foreign(owners, zone, n) && KeptOf(other, n) == Some(k)
  {
    hide NameAt, WireName, U16, U32, Expanded, RecordOctets;
    var k := KeptOf(msg, r).value;
    RecordOctetsAt(other, pos, k);
    WireNameReads(other, pos, pos, r.labels);
    ExpandedStays(msg, r.kind, r.start, r.end, other, pos + |k.name| + 10);
  }

  lemma {:induction false} BodyReads(owners: set<Octets>, zone: Octets, msg: Octets, rs: seq<Record>, other: Octets, pos: nat)
    requires AllShaped(msg, rs)
    requires Keep(owners, zone, msg, rs).Some?
    requires var ks := Keep(owners, zone, msg, rs).value; (forall k :: k in ks ==> Fits(k)) && At(other, pos, Body(ks))
    ensures var ks := Keep(owners, zone, msg, rs).value;
      && Records(other, pos, |ks|).Some?
      && var f := Records(other, pos, |ks|).value;
      && AllShaped(other, f.records) && |f.records| == |ks|
      && f.end == pos + |Body(ks)| && Keep(owners, zone, other, f.records) == Some(ks)
    decreases |rs|
  {
    hide RecordOctets, RecordAt, At, Foreign, KeptOf, Fits;
    if rs != [] {
      if !Foreign(owners, zone, rs[0]) {
        BodyReads(owners, zone, msg, rs[1..], other, pos);
      } else {
        var k := KeptOf(msg, rs[0]).value;
        var ks := Keep(owners, zone, msg, rs[1..]).value;
        var all := Keep(owners, zone, msg, rs).value;
        assert all[0] == k && all[1..] == ks && k in all;
        assert Body(all) == RecordOctets(k) + Body(ks);
        AtSplits(other, pos, RecordOctets(k), Body(ks));
        KeptReads(owners, zone, msg, rs[0], other, pos);
        var n := RecordAt(other, pos).value;
        BodyReads(owners, zone, msg, rs[1..], other, n.end);
        var f := Records(other, n.end, |ks|).value;
        var records := [n] + f.records;
        assert records[0] == n && records[1..] == f.records;
        assert Records(other, pos, |all|) == Some(Found(records, f.end));
      }
    }
  }

  /** What one packet carries into the next, the next carries on unchanged. */
  lemma CarriedStays(owners: set<Octets>, zone: Octets, msg: Octets)
    requires Carried(owners, zone, msg).Some?
    requires var ks := Carried(owners, zone, msg).value; |ks| < 0x1_0000 && forall k :: k in ks ==> |k.data| < 0x1_0000
    ensures forall k :: k in Carried(owners, zone, msg).value ==> Fits(k)
    ensures Carried(owners, zone, Packet(Carried(owners, zone, msg).value)) == Carried(owners, zone, msg)
  {
    hide RecordOctets, Body, Keep, Records, Answers;
    AnswersAreShaped(msg);
    var rs := Answers(msg).value;
    var ks := Carried(owners, zone, msg).value;
    KeptFits(owners, zone, msg, rs);
    var p := Packet(ks);
    assert p[12..] == Body(ks);
    BodyReads(owners, zone, msg, rs, p, 12);
    PacketAnswers(ks);
  }

  /** A packet's answers are the records read from its body. */
  lemma PacketAnswers(ks: seq<Kept>)
    requires |ks| < 0x1_0000 && forall k :: k in ks ==> Fits(k)
    requires var f := Records(Packet(ks), 12, |ks|); f.Some? && |f.value.records| == |ks| && f.value.end == |Packet(ks)|
    ensures Answers(Packet(ks)) == Some(Records(Packet(ks), 12, |ks|).value.records)
  {
    hide Body, Records;
    var p := Packet(ks);
    assert p[6..8] == B16(|ks|);
    B16Reads(p, 6, |ks|);
    var f := Records(p, 12, |ks|).value;
    assert f.records[..|ks|] == f.records;
  }

  lemma {:induction false} KeptFits(owners: set<Octets>, zone: Octets, msg: Octets, rs: seq<Record>)
    requires AllShaped(msg, rs) && Keep(owners, zone, msg, rs).Some?
    requires forall k :: k in Keep(owners, zone, msg, rs).value ==> |k.data| < 0x1_0000
    ensures forall k :: k in Keep(owners, zone, msg, rs).value ==> Fits(k)
    decreases |rs|
  {
    if rs != [] {
      assert Shaped(msg, rs[0]);
      var all := Keep(owners, zone, msg, rs).value;
      var ks := Keep(owners, zone, msg, rs[1..]).value;
      assert forall k :: k in ks ==> k in all;
      KeptFits(owners, zone, msg, rs[1..]);
      assert all == ks || (all == [all[0]] + ks && KeptOf(msg, rs[0]) == Some(all[0]) && all[0] in all);
    }
  }
}
