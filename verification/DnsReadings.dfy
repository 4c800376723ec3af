/**
 * What the DNS reader and the publisher of `pkarr.ts` make of a message, said without their loops: how a name is spelled,
 * where each question and record lies, what the data of each type is written out to, and which answers are carried.
 */
module DnsReadings {
  import opened Bytes
  import opened Prelude
  import opened DnsNames
  import opened DnsPackets

  // ---- names

  /** Labels, each behind its length, with nothing after them. */
  function Run(ls: seq<Octets>): Octets
    requires Labels(ls)
  {
    if ls == [] then [] else [|ls[0]| as byte] + ls[0] + Run(ls[1..])
  }

  /** Where a pointer at `q` aims. */
  function Aim(msg: Octets, q: nat): nat
    requires q + 1 < |msg| && msg[q] >= 192
  {
    (msg[q] as nat - 192) * 256 + msg[q + 1] as nat
  }

  lemma NameStep(msg: Octets, pos: nat, segment: nat, ls: seq<Octets>)
    requires ls != [] && Labels(ls) && At(msg, pos, Run(ls))
    ensures At(msg, pos + 1 + |ls[0]|, Run(ls[1..]))
    ensures NameAt(msg, pos, segment) ==
      match NameAt(msg, pos + 1 + |ls[0]|, segment)
      case None => None
      case Some(n) => Some(Name([ls[0]] + n.labels, n.end))
  {
    var len := |ls[0]|;
    var head := [len as byte];
    AtSplits(msg, pos, head + ls[0], Run(ls[1..]));
    AtSplits(msg, pos, head, ls[0]);
    assert msg[pos] as nat == len by { assert msg[pos] == msg[pos..pos + 1][0]; }
  }

  /** How a name that has reached `q` in its segment with these labels must read: it ends at a zero octet, goes on where a
      pointer before its segment aims, or is malformed; only a label whole in the message leaves it open. */
  predicate Reads(msg: Octets, q: nat, segment: nat, ls: seq<Octets>, r: Option<Name>) {
    if q >= |msg| then r == None
    else if msg[q] == 0 then r == Some(Name(ls, q + 1))
    else if msg[q] < 64 then q + 1 + msg[q] as nat > |msg| ==> r == None
    else if msg[q] < 192 || q + 1 == |msg| || Aim(msg, q) >= segment then r == None
    else
      match NameAt(msg, Aim(msg, q), Aim(msg, q))
      case None => r == None
      case Some(n) => r == Some(Name(ls + n.labels, q + 2))
  }

  lemma ReadsFrom(msg: Octets, q: nat, segment: nat)
    ensures Reads(msg, q, segment, [], NameAt(msg, q, segment))
  {
    assert forall n: Name :: [] + n.labels == n.labels;
  }

  lemma ReadsAfter(msg: Octets, q: nat, segment: nat, l: Octets, ls: seq<Octets>, r: Option<Name>)
    requires Reads(msg, q, segment, ls, r)
    ensures Reads(msg, q, segment, [l] + ls, if r.None? then None else Some(Name([l] + r.value.labels, r.value.end)))
  {
    hide NameAt;
    assert forall n: Name :: [l] + (ls + n.labels) == [l] + ls + n.labels;
  }

  /** Whatever labels stand at `pos`, the name there reads as they and what comes after them say. */
  lemma {:induction false} NameSpelled(msg: Octets, pos: nat, segment: nat, ls: seq<Octets>)
    requires Labels(ls) && At(msg, pos, Run(ls))
    ensures Reads(msg, pos + |Run(ls)|, segment, ls, NameAt(msg, pos, segment))
    decreases |ls|
  {
    hide NameAt, Reads, At;
    if ls == [] {
      ReadsFrom(msg, pos, segment);
    } else {
      var next := pos + 1 + |ls[0]|;
      NameStep(msg, pos, segment, ls);
      NameSpelled(msg, next, segment, ls[1..]);
      ReadsAfter(msg, next + |Run(ls[1..])|, segment, ls[0], ls[1..], NameAt(msg, next, segment));
      assert [ls[0]] + ls[1..] == ls;
    }
  }

  // ---- sections

  /** A question at `p` and the next thing at `q`. */
  predicate AsksTo(msg: Octets, p: nat, q: nat) {
    var n := NameAt(msg, p, p);
    n.Some? && q == n.value.end + 4 <= |msg|
  }

  /** A record at `p` and the next thing at `q`. */
  predicate RecordTo(msg: Octets, p: nat, q: nat) {
    var n := NameAt(msg, p, p);
    && n.Some? && n.value.end + 10 <= |msg|
    && q == n.value.end + 10 + U16(msg, n.value.end + 8) <= |msg|
  }

  /** `at` says where `asked` questions and then `held` records begin, and last where they end. */
  predicate Laid(msg: Octets, at: seq<nat>, asked: nat, held: nat) {
    && |at| == asked + held + 1
    && (forall i :: 0 <= i < asked ==> AsksTo(msg, at[i], at[i + 1]))
    && (forall i :: asked <= i < asked + held ==> RecordTo(msg, at[i], at[i + 1]))
  }

  /** Header, questions and the records of three sections, end to end and filling the message. */
  predicate Whole(msg: Octets, at: seq<nat>) {
    && |msg| >= 12
    && Laid(msg, at, U16(msg, 4), U16(msg, 6) + U16(msg, 8) + U16(msg, 10))
    && at[0] == 12 && at[|at| - 1] == |msg|
  }

  /** `r` is what the record at `p` says. */
  predicate SaidAt(msg: Octets, p: nat, r: Record) {
    var n := NameAt(msg, p, p);
    && n.Some? && n.value.end + 10 <= |msg|
    && var e := n.value.end;
    && r == Record(n.value.labels, U16(msg, e), U16(msg, e + 2), U16(msg, e + 4) * 0x1_0000 + U16(msg, e + 6),
                   e + 10, e + 10 + U16(msg, e + 8))
  }

  /** The records read are those laid out, in order. */
  predicate SaidIn(msg: Octets, at: seq<nat>, rs: seq<Record>) {
    |rs| < |at| && forall i :: 0 <= i < |rs| ==> SaidAt(msg, at[i], rs[i])
  }

  lemma {:induction false} RecordsLaid(msg: Octets, pos: nat, n: nat) returns (at: seq<nat>)
    requires Records(msg, pos, n).Some?
    ensures Laid(msg, at, 0, n) && at[0] == pos && at[n] == Records(msg, pos, n).value.end
    decreases n
  {
    hide NameAt, U16, U32;
    if n == 0 {
      at := [pos];
    } else {
      var next := RecordAt(msg, pos).value.end;
      assert RecordTo(msg, pos, next);
      var rest := RecordsLaid(msg, next, n - 1);
      at := [pos] + rest;
      forall i | 0 <= i < n ensures RecordTo(msg, at[i], at[i + 1]) {
        if i > 0 { assert RecordTo(msg, rest[i - 1], rest[i]); }
      }
    }
  }

  lemma {:induction false} LaidRecords(msg: Octets, at: seq<nat>, n: nat)
    requires Laid(msg, at, 0, n)
    ensures Records(msg, at[0], n).Some?
    ensures var f := Records(msg, at[0], n).value; f.end == at[n] && |f.records| == n && SaidIn(msg, at, f.records)
    decreases n
  {
    hide NameAt, U16;
    if n > 0 {
      assert RecordTo(msg, at[0], at[1]);
      var rest := at[1..];
      forall i | 0 <= i < n - 1 ensures RecordTo(msg, rest[i], rest[i + 1]) { assert RecordTo(msg, at[i + 1], at[i + 2]); }
      LaidRecords(msg, rest, n - 1);
      var r := RecordAt(msg, at[0]).value;
      assert SaidAt(msg, at[0], r);
      var records := Records(msg, at[0], n).value.records;
      forall i | 0 <= i < n ensures SaidAt(msg, at[i], records[i]) {
        if i > 0 { assert SaidAt(msg, rest[i - 1], records[1..][i - 1]); }
      }
    }
  }

  lemma {:induction false} QuestionsLaid(msg: Octets, pos: nat, n: nat) returns (at: seq<nat>)
    requires Questions(msg, pos, n).Some?
    ensures Laid(msg, at, n, 0) && at[0] == pos && at[n] == Questions(msg, pos, n).value
    decreases n
  {
    hide NameAt;
    if n == 0 {
      at := [pos];
    } else {
      var next := NameAt(msg, pos, pos).value.end + 4;
      var rest := QuestionsLaid(msg, next, n - 1);
      at := [pos] + rest;
      forall i | 0 <= i < n ensures AsksTo(msg, at[i], at[i + 1]) {
        if i > 0 { assert AsksTo(msg, rest[i - 1], rest[i]); }
      }
    }
  }

  lemma {:induction false} LaidQuestions(msg: Octets, at: seq<nat>, n: nat)
    requires Laid(msg, at, n, 0)
    ensures Questions(msg, at[0], n) == Some(at[n])
    decreases n
  {
    hide NameAt;
    if n > 0 {
      assert AsksTo(msg, at[0], at[1]);
      var rest := at[1..];
      forall i | 0 <= i < n - 1 ensures AsksTo(msg, rest[i], rest[i + 1]) { assert AsksTo(msg, at[i + 1], at[i + 2]); }
      LaidQuestions(msg, rest, n - 1);
    }
  }

  lemma LaidParts(msg: Octets, at: seq<nat>, asked: nat, held: nat)
    requires Laid(msg, at, asked, held)
    ensures Laid(msg, at[..asked + 1], asked, 0) && Laid(msg, at[asked..], 0, held)
  {
    hide AsksTo, RecordTo;
    var a, b := at[..asked + 1], at[asked..];
    forall i | 0 <= i < asked ensures AsksTo(msg, a[i], a[i + 1]) { assert AsksTo(msg, at[i], at[i + 1]); }
    forall i | 0 <= i < held ensures RecordTo(msg, b[i], b[i + 1]) {
      assert RecordTo(msg, at[asked + i], at[asked + i + 1]);
    }
  }

  lemma LaidJoins(msg: Octets, a: seq<nat>, b: seq<nat>, asked: nat, held: nat) returns (at: seq<nat>)
    requires Laid(msg, a, asked, 0) && Laid(msg, b, 0, held) && a[asked] == b[0]
    ensures Laid(msg, at, asked, held) && at[0] == a[0] && at[asked + held] == b[held]
  {
    hide AsksTo, RecordTo;
    at := a[..asked] + b;
    forall i | 0 <= i < asked ensures AsksTo(msg, at[i], at[i + 1]) { assert AsksTo(msg, a[i], a[i + 1]); }
    forall i | asked <= i < asked + held ensures RecordTo(msg, at[i], at[i + 1]) {
      assert RecordTo(msg, b[i - asked], b[i - asked + 1]);
    }
  }

  /** A message whose questions and records fill it is read, and its answers are the first records, each as it stands. */
  lemma WholeIsRead(msg: Octets, at: seq<nat>)
    requires Whole(msg, at)
    ensures Answers(msg).Some? && |Answers(msg).value| == U16(msg, 6)
    ensures SaidIn(msg, at[U16(msg, 4)..], Answers(msg).value)
  {
    hide AsksTo, RecordTo, SaidAt, Records, Questions, U16;
    var asked, held := U16(msg, 4), U16(msg, 6) + U16(msg, 8) + U16(msg, 10);
    LaidParts(msg, at, asked, held);
    LaidQuestions(msg, at[..asked + 1], asked);
    var tail := at[asked..];
    LaidRecords(msg, tail, held);
    var rs := Records(msg, tail[0], held).value.records;
    forall i | 0 <= i < U16(msg, 6) ensures SaidAt(msg, tail[i], rs[..U16(msg, 6)][i]) {
      assert SaidAt(msg, tail[i], rs[i]);
    }
  }

  /** A message is read exactly when some layout of its questions and records fills it. */
  lemma ReadExactlyWhole(msg: Octets)
    ensures Answers(msg).Some? <==> exists at :: Whole(msg, at)
    ensures forall at :: Whole(msg, at) ==> |Answers(msg).value| == U16(msg, 6) && SaidIn(msg, at[U16(msg, 4)..], Answers(msg).value)
  {
    hide Laid, Records, Questions, U16, SaidIn;
    if Answers(msg).Some? {
      var asked, held := U16(msg, 4), U16(msg, 6) + U16(msg, 8) + U16(msg, 10);
      var a := QuestionsLaid(msg, 12, asked);
      var b := RecordsLaid(msg, Questions(msg, 12, asked).value, held);
      var at := LaidJoins(msg, a, b, asked, held);
      assert |at| == asked + held + 1 by { LaidSize(msg, at, asked, held); }
      assert Whole(msg, at);
    }
    forall at | Whole(msg, at)
      ensures Answers(msg).Some? && |Answers(msg).value| == U16(msg, 6) && U16(msg, 4) < |at|
      ensures SaidIn(msg, at[U16(msg, 4)..], Answers(msg).value)
    {
      LaidSize(msg, at, U16(msg, 4), U16(msg, 6) + U16(msg, 8) + U16(msg, 10));
      WholeIsRead(msg, at);
    }
  }

  lemma LaidSize(msg: Octets, at: seq<nat>, asked: nat, held: nat)
    requires Laid(msg, at, asked, held)
    ensures |at| == asked + held + 1
  {
  }

  // ---- data

  /** A name fills `p` to `q`. */
  predicate Named(msg: Octets, p: nat, q: nat) {
    var n := NameAt(msg, p, p);
    n.Some? && n.value.end == q
  }

  /** The name at `p` in full. */
  function InFull(msg: Octets, p: nat): Octets
    requires NameAt(msg, p, p).Some?
  {
    NameIsShaped(msg, p, p);
    WireName(NameAt(msg, p, p).value.labels)
  }

  /** Two names fill `p` to `q` and are written out one after the other as `o`. */
  predicate TwoInFull(msg: Octets, p: nat, q: nat, o: Octets) {
    var n := NameAt(msg, p, p);
    n.Some? && Named(msg, n.value.end, q) && o == InFull(msg, p) + InFull(msg, n.value.end)
  }

  /** The data of each type of section 4 of RFC 3597 with its names written out, and of any other type as it stands. */
  predicate WrittenOut(msg: Octets, kind: nat, p: nat, q: nat, data: Octets)
    requires p <= q <= |msg|
  {
    match kind
    case 2 | 3 | 4 | 5 | 7 | 8 | 9 | 12 => Named(msg, p, q) && data == InFull(msg, p)
    case 6 => p + 20 <= q && |data| >= 20 && data[|data| - 20..] == msg[q - 20..q] && TwoInFull(msg, p, q - 20, data[..|data| - 20])
    case 14 => TwoInFull(msg, p, q, data)
    case 15 => p + 2 <= q && Named(msg, p + 2, q) && data == msg[p..p + 2] + InFull(msg, p + 2)
    case _ => data == msg[p..q]
  }

  lemma OneField(f: Field)
    requires DnsNames.Named(f)
    ensures WireFields([f]) == WireField(f)
  {
    assert [f][1..] == [];
    assert WireField(f) + [] == WireField(f);
  }

  lemma TwoFields(f: Field, g: Field)
    requires DnsNames.Named(f) && DnsNames.Named(g)
    ensures WireFields([f, g]) == WireField(f) + WireField(g)
  {
    assert [f, g][1..] == [g];
    OneField(g);
  }

  lemma ThreeFields(f: Field, g: Field, h: Field)
    requires DnsNames.Named(f) && DnsNames.Named(g) && DnsNames.Named(h)
    ensures WireFields([f, g, h]) == WireField(f) + WireField(g) + WireField(h)
  {
    assert [f, g, h][1..] == [g, h];
    TwoFields(g, h);
  }

  lemma NameFirst(msg: Octets, rest: seq<Part>, p: nat, q: nat)
    requires q <= |msg|
    ensures Fields(msg, [NamePart] + rest, p, q) ==
      match NameAt(msg, p, p)
      case None => None
      case Some(n) => if n.end > q then None else Before(NameField(n.labels), Fields(msg, rest, n.end, q))
  {
    assert ([NamePart] + rest)[1..] == rest;
  }

  lemma FixedFirst(msg: Octets, size: nat, rest: seq<Part>, p: nat, q: nat)
    requires q <= |msg|
    ensures Fields(msg, [FixedPart(size)] + rest, p, q) ==
      if p + size > q then None else Before(FixedField(msg[p..p + size]), Fields(msg, rest, p + size, q))
  {
    assert ([FixedPart(size)] + rest)[1..] == rest;
  }

  lemma JoinsTwo(f: Field, g: Field)
    ensures Before(f, Some([g])) == Some([f, g])
  {
    assert [f] + [g] == [f, g];
  }

  lemma FieldsOfOne(msg: Octets, p: nat, q: nat)
    requires q <= |msg|
    ensures Fields(msg, [NamePart], p, q) == if Named(msg, p, q) then Some([NameField(NameAt(msg, p, p).value.labels)]) else None
  {
    hide NameAt;
    assert [NamePart] + [] == [NamePart];
    NameFirst(msg, [], p, q);
    if Named(msg, p, q) { assert Before(NameField(NameAt(msg, p, p).value.labels), Some([])).value == [NameField(NameAt(msg, p, p).value.labels)]; }
  }

  lemma FieldsOfTwo(msg: Octets, p: nat, q: nat)
    requires q <= |msg|
    ensures var n := NameAt(msg, p, p);
      Fields(msg, [NamePart, NamePart], p, q) ==
      if n.Some? && Named(msg, n.value.end, q)
      then Some([NameField(n.value.labels), NameField(NameAt(msg, n.value.end, n.value.end).value.labels)]) else None
  {
    hide NameAt, Fields;
    assert [NamePart] + [NamePart] == [NamePart, NamePart];
    NameFirst(msg, [NamePart], p, q);
    var n := NameAt(msg, p, p);
    if n.Some? {
      FieldsOfOne(msg, n.value.end, q);
      if Named(msg, n.value.end, q) {
        NameIsShaped(msg, n.value.end, n.value.end);
        JoinsTwo(NameField(n.value.labels), NameField(NameAt(msg, n.value.end, n.value.end).value.labels));
      }
    }
  }

  lemma FieldsOfThree(msg: Octets, p: nat, q: nat)
    requires q <= |msg|
    ensures var n := NameAt(msg, p, p);
      Fields(msg, [NamePart, NamePart, FixedPart(20)], p, q) ==
      if p + 20 <= q && n.Some? && Named(msg, n.value.end, q - 20)
      then Some([NameField(n.value.labels), NameField(NameAt(msg, n.value.end, n.value.end).value.labels), FixedField(msg[q - 20..q])])
      else None
  {
    hide NameAt, Fields;
    assert [NamePart] + [NamePart, FixedPart(20)] == [NamePart, NamePart, FixedPart(20)];
    assert [NamePart] + [FixedPart(20)] == [NamePart, FixedPart(20)];
    NameFirst(msg, [NamePart, FixedPart(20)], p, q);
    var n := NameAt(msg, p, p);
    if n.Some? {
      NameIsShaped(msg, p, p);
      NameFirst(msg, [FixedPart(20)], n.value.end, q);
      var m := NameAt(msg, n.value.end, n.value.end);
      if m.Some? {
        NameIsShaped(msg, n.value.end, n.value.end);
        FieldsOfTwenty(msg, m.value.end, q);
        if m.value.end + 20 == q {
          var f, g, h := NameField(n.value.labels), NameField(m.value.labels), FixedField(msg[m.value.end..q]);
          JoinsTwo(g, h);
          assert [f] + [g, h] == [f, g, h];
        }
      }
    }
  }

  lemma FieldsOfTwenty(msg: Octets, p: nat, q: nat)
    requires q <= |msg|
    ensures Fields(msg, [FixedPart(20)], p, q) == if p + 20 == q then Some([FixedField(msg[p..q])]) else None
  {
    assert [FixedPart(20)] + [] == [FixedPart(20)];
    FixedFirst(msg, 20, [], p, q);
    if p + 20 == q { assert Before(FixedField(msg[p..q]), Some([])).value == [FixedField(msg[p..q])]; }
  }

  /** The data handed on is what the type's data is written out to, and is missing exactly when there is none. */
  lemma ExpandedIs(msg: Octets, kind: nat, p: nat, q: nat, data: Octets)
    requires p <= q <= |msg|
    ensures Expanded(msg, kind, p, q) == Some(data) <==> WrittenOut(msg, kind, p, q, data)
  {
    hide NameAt, WireFields, WireName, Fields;
    match Layout(kind)
    case None =>
    case Some(layout) =>
      var fs := Fields(msg, layout, p, q);
      if fs.Some? { FieldsAreWritable(msg, layout, p, q); }
      if kind == 6 {
        FieldsOfThree(msg, p, q);
        if fs.Some? { ThreeFields(fs.value[0], fs.value[1], fs.value[2]); }
        if p + 20 <= q { EndsApart(data, msg[q - 20..q]); }
      } else if kind == 14 {
        FieldsOfTwo(msg, p, q);
        if fs.Some? { TwoFields(fs.value[0], fs.value[1]); }
      } else if kind == 15 {
        assert [FixedPart(2)] + [NamePart] == layout;
        FixedFirst(msg, 2, [NamePart], p, q);
        if p + 2 <= q {
          FieldsOfOne(msg, p + 2, q);
          if Named(msg, p + 2, q) { JoinsTwo(FixedField(msg[p..p + 2]), NameField(NameAt(msg, p + 2, p + 2).value.labels)); }
        }
        if fs.Some? { TwoFields(fs.value[0], fs.value[1]); }
      } else {
        FieldsOfOne(msg, p, q);
        if fs.Some? { OneField(fs.value[0]); }
      }
  }

  /** Octets end with `tail` exactly when they are something followed by it. */
  lemma EndsApart(data: Octets, tail: Octets)
    ensures forall a: Octets :: data == a + tail <==> |data| >= |tail| && data[|data| - |tail|..] == tail && data[..|data| - |tail|] == a
  {
    if |data| >= |tail| { assert data == data[..|data| - |tail|] + data[|data| - |tail|..]; }
  }

  // ---- carrying

  /** `s` is `l` with the capital letters A to Z made small and every other octet kept. */
  predicate Small(s: Octets, l: Octets) {
    |s| == |l| && forall i :: 0 <= i < |l| ==> s[i] == if 'A' as nat <= l[i] as nat <= 'Z' as nat then l[i] + 32 else l[i]
  }

  lemma {:induction false} LowerIsSmall(l: Octets)
    ensures Small(Lower(l), l)
  {
    if l != [] { LowerIsSmall(l[1..]); }
  }

  /** The same letters, whatever their case, and otherwise the same octets. */
  predicate Alike(a: Octets, b: Octets) {
    && |a| == |b|
    && forall i :: 0 <= i < |a| ==>
      || a[i] == b[i]
      || ('A' as nat <= a[i] as nat <= 'Z' as nat && b[i] as nat == a[i] as nat + 32)
      || ('A' as nat <= b[i] as nat <= 'Z' as nat && a[i] as nat == b[i] as nat + 32)
  }

  lemma LowersAlike(a: Octets, b: Octets)
    ensures Lower(a) == Lower(b) <==> Alike(a, b)
  {
    LowerIsSmall(a);
    LowerIsSmall(b);
    if Lower(a) == Lower(b) {
      forall i | 0 <= i < |a|
        ensures || a[i] == b[i]
                || ('A' as nat <= a[i] as nat <= 'Z' as nat && b[i] as nat == a[i] as nat + 32)
                || ('A' as nat <= b[i] as nat <= 'Z' as nat && a[i] as nat == b[i] as nat + 32)
      {
        assert Lower(a)[i] == Lower(b)[i];
      }
    }
  }

  /** An IN answer whose owner is not one the publisher writes itself, directly under the zone and in any case. */
  predicate Carries(owners: set<Octets>, zone: Octets, r: Record) {
    && r.class_ == 1
    && !(|r.labels| == 2 && Alike(r.labels[1], zone) && exists o :: o in owners && Small(o, r.labels[0]))
  }

  lemma CarriesForeign(owners: set<Octets>, zone: Octets, r: Record)
    ensures Carries(owners, zone, r) <==> Foreign(owners, zone, r)
  {
    if |r.labels| == 2 {
      LowerIsSmall(r.labels[0]);
      LowersAlike(r.labels[1], zone);
      forall o | o in owners && Small(o, r.labels[0]) ensures o == Lower(r.labels[0]) {}
    }
  }

  /** `k` is the record `r`, its names written out. */
  predicate KeptFrom(msg: Octets, r: Record, k: Kept)
    requires Shaped(msg, r)
  {
    k.name == WireName(r.labels) && k.kind == r.kind && k.ttl == r.ttl && WrittenOut(msg, r.kind, r.start, r.end, k.data)
  }

  /** The places of the answers that are carried, from `from` on and in message order. */
  predicate Chosen(owners: set<Octets>, zone: Octets, rs: seq<Record>, from: nat, order: seq<nat>) {
    && (forall j :: 0 <= j < |order| ==> from <= order[j] < |rs|)
    && (forall i, j :: 0 <= i < j < |order| ==> order[i] < order[j])
    && (forall i :: from <= i < |rs| ==> (i in order <==> Carries(owners, zone, rs[i])))
  }

  predicate KeptIn(msg: Octets, rs: seq<Record>, order: seq<nat>, ks: seq<Kept>)
    requires AllShaped(msg, rs)
  {
    && |ks| == |order|
    && forall j :: 0 <= j < |ks| ==> order[j] < |rs| && KeptFrom(msg, rs[order[j]], ks[j])
  }

  /** Some octets are what the data of `r` is written out to. */
  ghost predicate Legible(msg: Octets, r: Record)
    requires Shaped(msg, r)
  {
    exists data :: WrittenOut(msg, r.kind, r.start, r.end, data)
  }

  lemma KeptIsFrom(msg: Octets, r: Record)
    requires Shaped(msg, r)
    ensures KeptOf(msg, r).Some? <==> Legible(msg, r)
    ensures KeptOf(msg, r).Some? ==> KeptFrom(msg, r, KeptOf(msg, r).value)
  {
    hide Expanded, WrittenOut, WireName;
    var e := Expanded(msg, r.kind, r.start, r.end);
    if e.Some? { ExpandedIs(msg, r.kind, r.start, r.end, e.value); }
    forall data | WrittenOut(msg, r.kind, r.start, r.end, data) ensures e.Some? {
      ExpandedIs(msg, r.kind, r.start, r.end, data);
    }
  }

  lemma NothingKept(msg: Octets, rs: seq<Record>)
    requires AllShaped(msg, rs)
    ensures KeptIn(msg, rs, [], [])
  {
  }

  lemma KeptIsNext(msg: Octets, rs: seq<Record>, from: nat, order: seq<nat>, ks: seq<Kept>)
    requires AllShaped(msg, rs) && from < |rs| && KeptIn(msg, rs, order, ks) && KeptOf(msg, rs[from]).Some?
    ensures KeptIn(msg, rs, [from] + order, [KeptOf(msg, rs[from]).value] + ks)
  {
    hide KeptOf, KeptFrom;
    KeptIsFrom(msg, rs[from]);
    var o, all := [from] + order, [KeptOf(msg, rs[from]).value] + ks;
    forall j | 0 <= j < |all| ensures o[j] < |rs| && KeptFrom(msg, rs[o[j]], all[j]) {
      if j > 0 { assert all[j] == ks[j - 1] && o[j] == order[j - 1]; }
    }
  }

  lemma {:induction false} KeepExactly(owners: set<Octets>, zone: Octets, msg: Octets, rs: seq<Record>, from: nat) returns (order: seq<nat>)
    requires AllShaped(msg, rs) && from <= |rs|
    ensures Chosen(owners, zone, rs, from, order)
    ensures Keep(owners, zone, msg, rs[from..]).Some? <==> forall i :: i in order ==> Legible(msg, rs[i])
    ensures Keep(owners, zone, msg, rs[from..]).Some? ==> KeptIn(msg, rs, order, Keep(owners, zone, msg, rs[from..]).value)
    decreases |rs| - from
  {
    hide KeptOf, Carries, KeptFrom, KeptIn, Legible, Foreign, Shaped;
    if from == |rs| {
      order := [];
      assert rs[from..] == [];
      assert KeptIn(msg, rs, [], []) by { NothingKept(msg, rs); }
    } else {
      var r := rs[from];
      assert rs[from..][0] == r && rs[from..][1..] == rs[from + 1..];
      var rest := KeepExactly(owners, zone, msg, rs, from + 1);
      CarriesForeign(owners, zone, r);
      if Carries(owners, zone, r) {
        KeptIsFrom(msg, r);
        order := [from] + rest;
        assert forall i :: i in order <==> i == from || i in rest;
        var all := Keep(owners, zone, msg, rs[from..]);
        if all.Some? { KeptIsNext(msg, rs, from, rest, Keep(owners, zone, msg, rs[from + 1..]).value); }
      } else {
        order := rest;
      }
    }
  }

  /** What is carried is each foreign IN answer in message order, written out; nothing is when one of them is malformed. */
  lemma CarriedExactly(owners: set<Octets>, zone: Octets, msg: Octets) returns (order: seq<nat>)
    requires Answers(msg).Some?
    ensures AllShaped(msg, Answers(msg).value) && Chosen(owners, zone, Answers(msg).value, 0, order)
    ensures Carried(owners, zone, msg).Some? <==> forall i :: i in order ==> Legible(msg, Answers(msg).value[i])
    ensures Carried(owners, zone, msg).Some? ==> KeptIn(msg, Answers(msg).value, order, Carried(owners, zone, msg).value)
  {
    hide Answers;
    AnswersAreShaped(msg);
    var rs := Answers(msg).value;
    assert rs[0..] == rs;
    order := KeepExactly(owners, zone, msg, rs, 0);
  }
}
