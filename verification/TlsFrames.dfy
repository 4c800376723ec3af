/**
 * The TLS framing of `tsm.ts`: a stream is cut into whole BER sequences, the same ones however the stream arrived.
 */
module TlsFrames {
  import opened Bytes
  import opened Prelude

  type Octets = seq<byte>

  const MAX_MESSAGE := 65536

  /** What the front of a stream holds: too little to tell, something that cannot be framed, or a whole message. */
  datatype Front = Wait | Refuse | Whole(size: nat)

  /** The front of a stream whose tag and length octets ask for `total` octets. */
  function Sized(s: Octets, total: nat): Front {
    if total > MAX_MESSAGE then Refuse else if |s| < total then Wait else Whole(total)
  }

  function FrontOf(s: Octets): (f: Front)
    ensures f.Whole? ==> 2 <= f.size <= |s| && f.size <= MAX_MESSAGE
  {
    if |s| < 2 then Wait
    else if s[0] != 0x30 then Refuse
    else if s[1] < 0x80 then Sized(s, 2 + s[1] as nat)
    else
      var n := s[1] as nat % 128;
      if n < 1 || n > 4 then Refuse
      else if |s| < 2 + n then Wait
      else Sized(s, 2 + n + FromBytes(s[2..2 + n]))
  }

  datatype Framing = Framing(messages: seq<Octets>, pending: Octets, close: bool)

  function Frames(s: Octets): Framing
    decreases |s|
  {
    match FrontOf(s)
    case Wait => Framing([], s, false)
    case Refuse => Framing([], s, true)
    case Whole(k) => var f := Frames(s[k..]); Framing([s[..k]] + f.messages, f.pending, f.close)
  }

  /** The length octets as the source adds them up, most significant first. */
  method LengthOf(s: Octets, at: nat, n: nat) returns (len: nat)
    requires at + n <= |s|
    ensures len == FromBytes(s[at..at + n])
  {
    len := 0;
    var i := 0;
    while i < n
      invariant 0 <= i <= n
      invariant len == FromBytes(s[at..at + i])
    {
      assert s[at..at + i + 1][..i] == s[at..at + i];
      len := len * 256 + s[at + i] as nat;
      i := i + 1;
    }
  }

  /** Steps 1 to 6: what stands at `p`. */
  method FrontAt(stream: Octets, p: nat) returns (f: Front)
    requires p <= |stream|
    ensures f == FrontOf(stream[p..])
  {
    ghost var rest := stream[p..];
    var left := |stream| - p;
    if left < 2 { return Wait; }
    assert stream[p] == rest[0] && stream[p + 1] == rest[1];
    if stream[p] != 0x30 { return Refuse; }
    var header: nat, len: nat := 2, stream[p + 1] as nat;
    if stream[p + 1] >= 0x80 {
      var n := stream[p + 1] as nat % 128;
      if n < 1 || n > 4 { return Refuse; }
      if left < 2 + n { return Wait; }
      header := 2 + n;
      len := LengthOf(stream, p + 2, n);
      assert rest[2..2 + n] == stream[p + 2..p + 2 + n];
    }
    var total := header + len;
    if total > MAX_MESSAGE { return Refuse; }
    if left < total { return Wait; }
    f := Whole(total);
  }

  method TlsFrames(stream: Octets) returns (r: Framing)
    ensures r == Frames(stream)
  {
    hide FrontOf;
    var messages: seq<Octets>, p := [], 0;
    assert stream[0..] == stream;
    assert [] + Frames(stream).messages == Frames(stream).messages;
    while true
      invariant 0 <= p <= |stream|
      invariant Frames(stream) == After(messages, Frames(stream[p..]))
      decreases |stream| - p
    {
      ghost var rest := stream[p..];
      assert messages + [] == messages;
      var front := FrontAt(stream, p);
      match front {
        case Wait => return Framing(messages, stream[p..], false);
        case Refuse => return Framing(messages, stream[p..], true);
        case Whole(total) =>
          assert rest[..total] == stream[p..p + total] && rest[total..] == stream[p + total..];
          AfterStep(messages, rest[..total], Frames(rest[total..]));
          messages := messages + [stream[p..p + total]];
          p := p + total;
      }
    }
  }

  /** What a framer that has already cut off `done` makes of the framing of the rest. */
  function After(done: seq<Octets>, f: Framing): Framing {
    Framing(done + f.messages, f.pending, f.close)
  }

  lemma AfterStep(done: seq<Octets>, m: Octets, f: Framing)
    ensures After(done, After([m], f)) == After(done + [m], f)
  {
    assert done + ([m] + f.messages) == done + [m] + f.messages;
  }

  function Joined(ms: seq<Octets>): Octets {
    if ms == [] then [] else ms[0] + Joined(ms[1..])
  }

  /** One whole message, neither more nor less: the framer cuts it off in one piece. */
  predicate Message(m: Octets) { FrontOf(m) == Whole(|m|) }

  /** The messages and what is pending are the stream, and a stream that goes on has no more to give yet. */
  lemma {:induction false} NothingLost(s: Octets)
    ensures Joined(Frames(s).messages) + Frames(s).pending == s
    ensures forall m :: m in Frames(s).messages ==> Message(m)
    ensures FrontOf(Frames(s).pending) == if Frames(s).close then Refuse else Wait
    decreases |s|
  {
    hide FrontOf;
    var front := FrontOf(s);
    if front.Whole? {
      var rest := Frames(s[front.size..]);
      NothingLost(s[front.size..]);
      var messages := Frames(s).messages;
      assert messages[0] == s[..front.size] && messages[1..] == rest.messages;
      assert s == s[..front.size] + s[front.size..];
      assert Joined(messages) + rest.pending == s[..front.size] + (Joined(rest.messages) + rest.pending);
      WholeIsMessage(s);
    }
  }

  lemma WholeIsMessage(s: Octets)
    requires FrontOf(s).Whole?
    ensures Message(s[..FrontOf(s).size])
  {
    var k := FrontOf(s).size;
    var m := s[..k];
    if s[1] >= 0x80 {
      var n := s[1] as nat % 128;
      assert m[2..2 + n] == s[2..2 + n];
    }
  }

  /** Once the front of a stream is decided, more octets behind it do not change it. */
  lemma FrontIsSettled(s: Octets, more: Octets)
    requires !FrontOf(s).Wait?
    ensures FrontOf(s + more) == FrontOf(s)
  {
    if s[0] == 0x30 && s[1] >= 0x80 {
      var n := s[1] as nat % 128;
      if 1 <= n <= 4 { assert (s + more)[2..2 + n] == s[2..2 + n]; }
    }
  }

  /**
   * However a stream is cut into two arrivals, the messages are those of the first arrival and then those of what
   * it left pending with the second, and the close decision is the same.
   */
  lemma {:induction false} ArrivalsDoNotMatter(a: Octets, b: Octets)
    ensures !Frames(a).close ==> Frames(a + b) == After(Frames(a).messages, Frames(Frames(a).pending + b))
    ensures Frames(a).close ==> Frames(a + b) == Framing(Frames(a).messages, Frames(a).pending + b, true)
    decreases |a|
  {
    hide FrontOf;
    var front := FrontOf(a);
    match front
    case Wait => assert [] + Frames(a + b).messages == Frames(a + b).messages;
    case Refuse => FrontIsSettled(a, b);
    case Whole(k) =>
      FrontIsSettled(a, b);
      assert (a + b)[..k] == a[..k] && (a + b)[k..] == a[k..] + b;
      ArrivalsDoNotMatter(a[k..], b);
      var rest := Frames(a[k..]);
      assert [a[..k]] + (rest.messages + Frames(rest.pending + b).messages) ==
        Frames(a).messages + Frames(rest.pending + b).messages;
  }

  /** The frames of a whole series of arrivals, each taken with what was pending before it, until one closes. */
  function Arrivals(pending: Octets, chunks: seq<Octets>): Framing
    decreases |chunks|
  {
    if chunks == [] then Frames(pending)
    else
      var f := Frames(pending + chunks[0]);
      if f.close then f else After(f.messages, Arrivals(f.pending, chunks[1..]))
  }

  /** Any chopping of a stream gives the messages and the close decision of the stream taken whole. */
  lemma {:induction false} ChoppingDoesNotMatter(pending: Octets, chunks: seq<Octets>)
    requires FrontOf(pending).Wait?
    ensures Arrivals(pending, chunks).messages == Frames(pending + Joined(chunks)).messages
    ensures Arrivals(pending, chunks).close == Frames(pending + Joined(chunks)).close
    ensures !Arrivals(pending, chunks).close ==> Arrivals(pending, chunks).pending == Frames(pending + Joined(chunks)).pending
    decreases |chunks|
  {
    if chunks == [] {
      assert pending + Joined(chunks) == pending;
    } else {
      var first := pending + chunks[0];
      assert pending + Joined(chunks) == first + Joined(chunks[1..]);
      ArrivalsDoNotMatter(first, Joined(chunks[1..]));
      NothingLost(first);
      if !Frames(first).close { ChoppingDoesNotMatter(Frames(first).pending, chunks[1..]); }
    }
  }

  /** One datagram record: its one message, or nothing when it does not hold exactly one. */
  function DtlsRecord(record: Octets): Option<Octets> {
    var f := Frames(record);
    if |f.messages| == 1 && f.pending == [] && !f.close then Some(f.messages[0]) else None
  }

  /** A record is accepted exactly when it is one whole message, and then it is that message. */
  lemma RecordIsItsMessage(record: Octets)
    ensures DtlsRecord(record) == if Message(record) then Some(record) else None
  {
    var f := Frames(record);
    NothingLost(record);
    if |f.messages| == 1 && f.pending == [] {
      assert Joined(f.messages) == f.messages[0] && f.messages[0] in f.messages;
    }
    assert record[..|record|] == record && record[|record|..] == [];
  }
}
