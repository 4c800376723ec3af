/**
 * The DNS reader of `pkarr.ts`: domain names with their backward pointers, the answer records of a message, the
 * expansion of the names inside record data, and the records a publisher carries into its next packet.
 */
module DnsNames {
  import opened Bytes
  import opened Prelude

  type Octets = seq<byte>

  datatype Name = Name(labels: seq<Octets>, end: nat)

  // ---- reading a name

  /** The name at `pos`, in a segment that began at `segment`: pointers aim strictly before the segment they are in. */
  function NameAt(msg: Octets, pos: nat, segment: nat): Option<Name>
    decreases segment, |msg| - pos
  {
    if pos >= |msg| then None
    else
      var len := msg[pos] as nat;
      if len == 0 then Some(Name([], pos + 1))
      else if len >= 192 then
        if pos + 1 >= |msg| then None
        else
          var target := (len - 192) * 256 + msg[pos + 1] as nat;
          if target >= segment then None
          else
            match NameAt(msg, target, target)
            case None => None
            case Some(n) => Some(Name(n.labels, pos + 2))
      else if len > 63 || pos + 1 + len > |msg| then None
      else
        match NameAt(msg, pos + 1 + len, segment)
        case None => None
        case Some(n) => Some(Name([msg[pos + 1..pos + 1 + len]] + n.labels, n.end))
  }

  /** What a reader that already holds `labels`, and perhaps the end, makes of the name it finds next. */
  function Continued(labels: seq<Octets>, end: int, rest: Option<Name>): Option<Name> {
    match rest
    case None => None
    case Some(n) => Some(Name(labels + n.labels, if end < 0 then n.end else end))
  }

  lemma ContinuedStep(labels: seq<Octets>, end: int, word: Octets, rest: Option<Name>)
    ensures rest.Some? ==>
      Continued(labels, end, Some(Name([word] + rest.value.labels, rest.value.end))) == Continued(labels + [word], end, rest)
  {
    if rest.Some? { assert labels + ([word] + rest.value.labels) == labels + [word] + rest.value.labels; }
  }

  method ReadName(msg: Octets, start: nat) returns (r: Option<Name>)
    ensures r == NameAt(msg, start, start)
  {
    var labels: seq<Octets> := [];
    var segment: nat, pos: nat, end: int := start, start, -1;
    assert forall n: Name :: [] + n.labels == n.labels;
    while true
      invariant NameAt(msg, start, start) == Continued(labels, end, NameAt(msg, pos, segment))
      decreases segment, |msg| - pos
    {
      if pos >= |msg| { return None; }
      var len := msg[pos] as nat;
      if len == 0 {
        if end < 0 { end := pos + 1; }
        assert labels + [] == labels;
        return Some(Name(labels, end));
      }
      if len >= 192 {
        if pos + 1 >= |msg| { return None; }
        var target := (len - 192) * 256 + msg[pos + 1] as nat;
        if target >= segment { return None; }
        if end < 0 { end := pos + 2; }
        segment, pos := target, target;
      } else {
        if len > 63 || pos + 1 + len > |msg| { return None; }
        var word := msg[pos + 1..pos + 1 + len];
        ContinuedStep(labels, end, word, NameAt(msg, pos + 1 + len, segment));
        labels := labels + [word];
        pos := pos + 1 + len;
      }
    }
  }

  predicate Label(l: Octets) { 1 <= |l| <= 63 }

  predicate Labels(ls: seq<Octets>) { forall i :: 0 <= i < |ls| ==> Label(ls[i]) }

  /** A name that reads has labels of 1 to 63 octets and ends inside the message, past where it began. */
  lemma {:induction false} NameIsShaped(msg: Octets, pos: nat, segment: nat)
    requires NameAt(msg, pos, segment).Some?
    ensures Labels(NameAt(msg, pos, segment).value.labels)
    ensures pos < NameAt(msg, pos, segment).value.end <= |msg|
    decreases segment, |msg| - pos
  {
    var len := msg[pos] as nat;
    if len >= 192 {
      var target := (len - 192) * 256 + msg[pos + 1] as nat;
      NameIsShaped(msg, target, target);
    } else if len > 0 {
      NameIsShaped(msg, pos + 1 + len, segment);
    }
  }

  // ---- writing a name

  predicate At(msg: Octets, pos: nat, s: Octets) {
    pos + |s| <= |msg| && msg[pos..pos + |s|] == s
  }

  lemma AtSplits(msg: Octets, pos: nat, a: Octets, b: Octets)
    ensures At(msg, pos, a + b) <==> At(msg, pos, a) && At(msg, pos + |a|, b)
  {
    if pos + |a| + |b| <= |msg| {
      assert msg[pos..pos + |a + b|] == msg[pos..pos + |a|] + msg[pos + |a|..pos + |a| + |b|];
      assert msg[pos..pos + |a + b|] == a + b ==> msg[pos..pos + |a|] == (a + b)[..|a|] == a;
      assert msg[pos..pos + |a + b|] == a + b ==> msg[pos + |a|..pos + |a| + |b|] == (a + b)[|a|..] == b;
    }
  }

  /** Labels in wire form: each behind its length, then a zero. */
  function WireName(ls: seq<Octets>): Octets
    requires Labels(ls)
  {
    if ls == [] then [0] else [|ls[0]| as byte] + ls[0] + WireName(ls[1..])
  }

  /** What is written where nothing is shortened reads back as the same labels, wherever it stands. */
  lemma {:induction false} WireNameReads(msg: Octets, pos: nat, segment: nat, ls: seq<Octets>)
    requires Labels(ls) && At(msg, pos, WireName(ls))
    ensures NameAt(msg, pos, segment) == Some(Name(ls, pos + |WireName(ls)|))
    decreases |ls|
  {
    if ls == [] {
      assert msg[pos] == msg[pos..pos + 1][0];
    } else {
      var len := |ls[0]|;
      var head := [len as byte];
      AtSplits(msg, pos, head + ls[0], WireName(ls[1..]));
      AtSplits(msg, pos, head, ls[0]);
      assert msg[pos..pos + 1] == head && msg[pos + 1..pos + 1 + len] == ls[0];
      assert msg[pos] as nat == len by { assert msg[pos] == msg[pos..pos + 1][0]; }
      WireNameReads(msg, pos + 1 + len, segment, ls[1..]);
      assert [ls[0]] + ls[1..] == ls;
    }
  }

  // ---- names inside record data

  datatype Part = NamePart | FixedPart(size: nat)

  datatype Field = NameField(labels: seq<Octets>) | FixedField(octets: Octets)

  /** The types whose data may hold compressed names: NS, MD, MF, CNAME, SOA, MB, MG, MR, PTR, MINFO and MX. */
  function Layout(kind: nat): Option<seq<Part>> {
    if kind in {2, 3, 4, 5, 7, 8, 9, 12} then Some([NamePart])
    else if kind == 6 then Some([NamePart, NamePart, FixedPart(20)])
    else if kind == 14 then Some([NamePart, NamePart])
    else if kind == 15 then Some([FixedPart(2), NamePart])
    else None
  }

  /** The fields of a layout between `pos` and `end`, which they must fill exactly. */
  function Fields(msg: Octets, layout: seq<Part>, pos: nat, end: nat): Option<seq<Field>>
    requires end <= |msg|
  {
    if layout == [] then if pos == end then Some([]) else None
    else
      match layout[0]
      case NamePart =>
        (match NameAt(msg, pos, pos)
         case None => None
         case Some(n) =>
           if n.end > end then None else Before(NameField(n.labels), Fields(msg, layout[1..], n.end, end)))
      case FixedPart(size) =>
        if pos + size > end then None
        else Before(FixedField(msg[pos..pos + size]), Fields(msg, layout[1..], pos + size, end))
  }

  function Before(f: Field, rest: Option<seq<Field>>): Option<seq<Field>> {
    match rest
    case None => None
    case Some(fs) => Some([f] + fs)
  }

  predicate Named(f: Field) { f.NameField? ==> Labels(f.labels) }

  predicate Writable(fs: seq<Field>) { forall i :: 0 <= i < |fs| ==> Named(fs[i]) }

  function WireField(f: Field): Octets
    requires Named(f)
  {
    match f
    case NameField(ls) => WireName(ls)
    case FixedField(o) => o
  }

  function WireFields(fs: seq<Field>): Octets
    requires Writable(fs)
  {
    if fs == [] then [] else WireField(fs[0]) + WireFields(fs[1..])
  }

  lemma {:induction false} FieldsAreWritable(msg: Octets, layout: seq<Part>, pos: nat, end: nat)
    requires end <= |msg| && Fields(msg, layout, pos, end).Some?
    ensures Writable(Fields(msg, layout, pos, end).value)
    decreases |layout|
  {
    if layout != [] {
      match layout[0]
      case NamePart =>
        NameIsShaped(msg, pos, pos);
        FieldsAreWritable(msg, layout[1..], NameAt(msg, pos, pos).value.end, end);
      case FixedPart(size) =>
        FieldsAreWritable(msg, layout[1..], pos + size, end);
    }
  }

  /** The data between `pos` and `end` with every name in it written out; data without names is left alone. */
  function Expanded(msg: Octets, kind: nat, pos: nat, end: nat): Option<Octets>
    requires pos <= end <= |msg|
  {
    match Layout(kind)
    case None => Some(msg[pos..end])
    case Some(layout) =>
      match Fields(msg, layout, pos, end)
      case None => None
      case Some(fs) => FieldsAreWritable(msg, layout, pos, end); Some(WireFields(fs))
  }

  lemma {:induction false} WireFieldsEnd(fs: seq<Field>, f: Field)
    requires Writable(fs) && Named(f)
    ensures Writable(fs + [f]) && WireFields(fs + [f]) == WireFields(fs) + WireField(f)
    decreases |fs|
  {
    hide WireField;
    if fs == [] {
      assert fs + [f] == [f];
    } else {
      WireFieldsEnd(fs[1..], f);
      assert (fs + [f])[0] == fs[0] && (fs + [f])[1..] == fs[1..] + [f];
      assert WireField(fs[0]) + (WireFields(fs[1..]) + WireField(f)) == WireField(fs[0]) + WireFields(fs[1..]) + WireField(f);
    }
  }

  /** What an expander that holds `done` and has read up to `pos` makes of the rest of the layout. */
  function Joined(done: seq<Field>, rest: Option<seq<Field>>): Option<seq<Field>> {
    match rest
    case None => None
    case Some(fs) => Some(done + fs)
  }

  lemma JoinedStep(done: seq<Field>, f: Field, rest: Option<seq<Field>>)
    ensures Joined(done, Before(f, rest)) == Joined(done + [f], rest)
  {
    if rest.Some? { assert done + ([f] + rest.value) == done + [f] + rest.value; }
  }

  method ExpandRdata(msg: Octets, kind: nat, start: nat, end: nat) returns (r: Option<Octets>)
    requires start <= end <= |msg|
    ensures r == Expanded(msg, kind, start, end)
  {
    var layout := Layout(kind);
    if layout.None? { return Some(msg[start..end]); }
    var parts, pos, i := [], start, 0;
    ghost var done: seq<Field> := [];
    assert WireFields(done) == [];
    hide NameAt, WireName, WireFields;
    ghost var whole := Fields(msg, layout.value, start, end);
    assert layout.value[0..] == layout.value;
    assert whole.Some? ==> [] + whole.value == whole.value;
    while i < |layout.value|
      invariant 0 <= i <= |layout.value|
      invariant Writable(done) && parts == WireFields(done)
      invariant whole == Joined(done, Fields(msg, layout.value[i..], pos, end))
    {
      ghost var rest := layout.value[i..];
      assert rest[1..] == layout.value[i + 1..];
      match layout.value[i] {
        case NamePart =>
          var n := ReadName(msg, pos);
          if n.None? || n.value.end > end { return None; }
          NameIsShaped(msg, pos, pos);
          var f := NameField(n.value.labels);
          WireFieldsEnd(done, f);
          JoinedStep(done, f, Fields(msg, rest[1..], n.value.end, end));
          done := done + [f];
          parts := parts + WireName(n.value.labels);
          pos := n.value.end;
        case FixedPart(size) =>
          if pos + size > end { return None; }
          var f := FixedField(msg[pos..pos + size]);
          WireFieldsEnd(done, f);
          JoinedStep(done, f, Fields(msg, rest[1..], pos + size, end));
          done := done + [f];
          parts := parts + msg[pos..pos + size];
          pos := pos + size;
      }
      i := i + 1;
    }
    if pos != end { return None; }
    assert done + [] == done;
    r := Some(parts);
  }

  lemma FirstFieldAt(msg: Octets, pos: nat, fs: seq<Field>)
    requires fs != [] && Writable(fs) && At(msg, pos, WireFields(fs))
    ensures Named(fs[0]) && Writable(fs[1..]) && |WireFields(fs)| == |WireField(fs[0])| + |WireFields(fs[1..])|
    ensures At(msg, pos, WireField(fs[0])) && At(msg, pos + |WireField(fs[0])|, WireFields(fs[1..]))
    ensures pos + |WireFields(fs)| <= |msg|
  {
    hide WireField;
    AtSplits(msg, pos, WireField(fs[0]), WireFields(fs[1..]));
  }

  lemma NoFields(msg: Octets, other: Octets, pos: nat, end: nat, at: nat)
    requires end <= |msg| && Fields(msg, [], pos, end).Some? && Writable(Fields(msg, [], pos, end).value)
    requires At(other, at, WireFields(Fields(msg, [], pos, end).value))
    ensures Fields(msg, [], pos, end) == Some([]) && WireFields([]) == [] && at <= |other| && Fields(other, [], at, at) == Some([])
  {
  }

  lemma Rejoins(fs: seq<Field>)
    requires fs != []
    ensures Before(fs[0], Some(fs[1..])) == Some(fs)
  {
    assert [fs[0]] + fs[1..] == fs;
  }

  /** The first field of a layout, of what size it is, and the rest. */
  lemma FieldsFirst(msg: Octets, layout: seq<Part>, pos: nat, end: nat) returns (next: nat)
    requires end <= |msg| && layout != [] && Fields(msg, layout, pos, end).Some?
    ensures var fs := Fields(msg, layout, pos, end).value;
      && fs != [] && Fields(msg, layout[1..], next, end) == Some(fs[1..])
      && match layout[0]
         case NamePart => (var n := NameAt(msg, pos, pos); n.Some? && fs[0] == NameField(n.value.labels))
         case FixedPart(size) => fs[0].FixedField? && |fs[0].octets| == size
  {
    hide NameAt;
    match layout[0] {
      case NamePart =>
        next := NameAt(msg, pos, pos).value.end;
        var rest := Fields(msg, layout[1..], next, end).value;
        assert ([NameField(NameAt(msg, pos, pos).value.labels)] + rest)[1..] == rest;
      case FixedPart(size) =>
        next := pos + size;
        var rest := Fields(msg, layout[1..], next, end).value;
        assert ([FixedField(msg[pos..pos + size])] + rest)[1..] == rest;
    }
  }

  /** A field written where the rest of the layout reads is read there. */
  lemma FieldReads(other: Octets, layout: seq<Part>, f: Field, at: nat, end: nat)
    requires layout != [] && Named(f) && At(other, at, WireField(f)) && at + |WireField(f)| <= end <= |other|
    requires match layout[0] case NamePart => f.NameField? case FixedPart(size) => f.FixedField? && |f.octets| == size
    ensures Fields(other, layout, at, end) == Before(f, Fields(other, layout[1..], at + |WireField(f)|, end))
  {
    hide NameAt, WireName;
    if f.NameField? { WireNameReads(other, at, at, f.labels); }
  }

  /** Expanded data, put anywhere in any message, holds the same names and the same fixed octets. */
  lemma {:induction false} FieldsReadAgain(msg: Octets, layout: seq<Part>, pos: nat, end: nat, other: Octets, at: nat)
    requires end <= |msg| && Fields(msg, layout, pos, end).Some?
    requires Writable(Fields(msg, layout, pos, end).value)
    requires At(other, at, WireFields(Fields(msg, layout, pos, end).value))
    ensures Fields(other, layout, at, at + |WireFields(Fields(msg, layout, pos, end).value)|) == Fields(msg, layout, pos, end)
    decreases |layout|
  {
    hide *;
    if layout == [] {
      NoFields(msg, other, pos, end, at);
    } else {
      var next := FieldsFirst(msg, layout, pos, end);
      var fs := Fields(msg, layout, pos, end).value;
      FirstFieldAt(other, at, fs);
      FieldReads(other, layout, fs[0], at, at + |WireFields(fs)|);
      FieldsReadAgain(msg, layout[1..], next, end, other, at + |WireField(fs[0])|);
      Rejoins(fs);
    }
  }

  /** Expanding what was expanded changes nothing. */
  lemma ExpandedStays(msg: Octets, kind: nat, pos: nat, end: nat, other: Octets, at: nat)
    requires pos <= end <= |msg| && Expanded(msg, kind, pos, end).Some?
    requires At(other, at, Expanded(msg, kind, pos, end).value)
    ensures Expanded(other, kind, at, at + |Expanded(msg, kind, pos, end).value|) == Expanded(msg, kind, pos, end)
  {
    match Layout(kind)
    case None =>
    case Some(layout) =>
      FieldsAreWritable(msg, layout, pos, end);
      FieldsReadAgain(msg, layout, pos, end, other, at);
  }
}
