/**
 * How often one number of a signature group signs a message, in the collector of `syslog-sign.ts`: when a block signs a
 * held message under a number that another hash already waits for, and only then, the number can sign twice.
 */
module SignedOnce {
  import opened Prelude
  import opened Bytes
  import opened SignedSyslog

  /** No hash waits under a number that is authenticated. */
  ghost predicate NoStaleWait(c: Collector) {
    forall i :: 0 <= i < |c.waiting| ==> !IsAuthenticated(c, c.waiting[i].group, c.waiting[i].number)
  }

  /** A hash signs a held message while another hash waits under its number. */
  predicate SignsPastWait(o: Outside, c: Collector, alg: Algorithm, g: GroupKey, number: nat, digest: Octets) {
    !IsAuthenticated(c, g, number) && AlreadyWaits(c.waiting, g, number) && FindHeld(o, c.held, alg, digest).Some?
  }

  lemma AuthenticatedMeans(c: Collector, g: GroupKey, number: nat, x: GroupKey, n: nat)
    ensures IsAuthenticated(Authenticated(c, g, number), x, n) <==>
              IsAuthenticated(c, x, n) || (x == g && n == number && g.session in c.sessions && g.id in c.sessions[g.session].groups)
  {
  }

  lemma SignOneFreshExactly(o: Outside, c: Collector, signer: Signer, alg: Algorithm, g: GroupKey, number: nat, digest: Octets)
    requires HasGroup(c.sessions, g) && NoStaleWait(c)
    ensures NoStaleWait(SignOne(o, c, signer, alg, g, number, digest).c) <==> !SignsPastWait(o, c, alg, g, number, digest)
  {
    hide Authenticated, IsAuthenticated;
    var r := SignOne(o, c, signer, alg, g, number, digest);
    var k := FindHeld(o, c.held, alg, digest);
    if !IsAuthenticated(c, g, number) && k.Some? {
      var d := c.(held := Cut(c.held, k.value));
      AuthenticatedKeeps(d, g, number);
      SessionsAuthenticate(c, d);
      forall i | 0 <= i < |c.waiting|
        ensures IsAuthenticated(r.c, c.waiting[i].group, c.waiting[i].number) <==> c.waiting[i].group == g && c.waiting[i].number == number
      {
        AuthenticatedMeans(d, g, number, c.waiting[i].group, c.waiting[i].number);
      }
    } else {
      SessionsAuthenticate(c, r.c);
    }
  }

  lemma SessionsAuthenticate(c: Collector, d: Collector)
    requires forall s :: s in c.sessions || s in d.sessions ==> s in c.sessions && s in d.sessions && c.sessions[s].groups.Keys <= d.sessions[s].groups.Keys
    requires forall s, id :: s in c.sessions && id in d.sessions[s].groups ==>
               d.sessions[s].groups[id].auth == if id in c.sessions[s].groups then c.sessions[s].groups[id].auth else {}
    ensures forall g, n :: IsAuthenticated(d, g, n) <==> IsAuthenticated(c, g, n)
  {
  }

  /** What waits in vain goes on doing so through a block. */
  lemma SignOneStaysStale(o: Outside, c: Collector, signer: Signer, alg: Algorithm, g: GroupKey, number: nat, digest: Octets)
    requires !NoStaleWait(c)
    ensures !NoStaleWait(SignOne(o, c, signer, alg, g, number, digest).c)
  {
    hide Authenticated, IsAuthenticated;
    var r := SignOne(o, c, signer, alg, g, number, digest);
    var i :| 0 <= i < |c.waiting| && IsAuthenticated(c, c.waiting[i].group, c.waiting[i].number);
    var w := c.waiting[i];
    var k := FindHeld(o, c.held, alg, digest);
    if !IsAuthenticated(c, g, number) && k.Some? {
      var d := c.(held := Cut(c.held, k.value));
      AuthenticatedKeeps(d, g, number);
      SessionsAuthenticate(c, d);
      AuthenticatedMeans(d, g, number, w.group, w.number);
    } else {
      SessionsAuthenticate(c, r.c);
    }
    assert r.c.waiting[i] == w;
  }

  /** No hash of a block signs past a wait. */
  predicate EachFresh(o: Outside, c: Collector, signer: Signer, alg: Algorithm, g: GroupKey, fmn: nat, digests: seq<Octets>) {
    digests == [] ||
    (var n := |digests| - 1;
     && EachFresh(o, c, signer, alg, g, fmn, digests[..n])
     && !SignsPastWait(o, SignEach(o, c, signer, alg, g, fmn, digests[..n]).c, alg, g, fmn + n, digests[n]))
  }

  lemma {:induction false} SignEachFreshExactly(o: Outside, c: Collector, signer: Signer, alg: Algorithm, g: GroupKey, fmn: nat, digests: seq<Octets>)
    requires CollectorOk(o, c) && HasGroup(c.sessions, g) && NoStaleWait(c)
    ensures NoStaleWait(SignEach(o, c, signer, alg, g, fmn, digests).c) <==> EachFresh(o, c, signer, alg, g, fmn, digests)
  {
    hide CollectorOk, SignOne, SignsPastWait, NoStaleWait, Deposited, Messages;
    if digests != [] {
      var n := |digests| - 1;
      SignEachFreshExactly(o, c, signer, alg, g, fmn, digests[..n]);
      SignEachKeeps(o, c, signer, alg, g, fmn, digests[..n]);
      var d := SignEach(o, c, signer, alg, g, fmn, digests[..n]).c;
      if NoStaleWait(d) {
        SignOneFreshExactly(o, d, signer, alg, g, fmn + n, digests[n]);
      } else {
        SignOneStaysStale(o, d, signer, alg, g, fmn + n, digests[n]);
      }
    }
  }

  // ---- blocks

  /** A block that passes every check before it is taken up. */
  predicate Passes(c: Collector, b: Block) {
    && ReadsAsBlock(b) && b.h.alg.Some? && b.h.signer.Some? && b.h.verified
    && !(b.h.session.rsid > 0 && (b.h.session.host, b.h.session.app) in c.highest
         && b.h.session.rsid < c.highest[(b.h.session.host, b.h.session.app)])
  }

  predicate TakesUp(c: Collector, b: Block) {
    Passes(c, b) && b.Signature? && b.h.session in c.sessions && c.sessions[b.h.session].payload.Some?
  }

  lemma PassesMeans(c: Collector, b: Block)
    requires Passes(c, b)
    ensures (b.Certificate? || b.Signature?) && b.h.alg.Some? && b.h.signer.Some?
    ensures TakesUp(c, b) ==> b.Signature?
  {
  }

  /** The group of a block is known to reach as far as the block does. */
  function Opened(c: Collector, b: Block): Collector
    requires TakesUp(c, b)
  {
    var s := c.sessions[b.h.session];
    var q := if b.id in s.groups then s.groups[b.id] else Group({}, 0);
    c.(sessions := c.sessions[b.h.session := s.(groups := s.groups[b.id := q.(covered := MaxOf(q.covered, b.fmn + |b.digests| - 1))])])
  }

  function SignedBlock(o: Outside, c: Collector, b: Block): Result
    requires TakesUp(c, b)
  {
    SignEach(o, Opened(c, b), b.h.signer.value, b.h.alg.value, GroupKey(b.h.session, b.id), b.fmn, b.digests)
  }

  lemma TakenUp(o: Outside, c: Collector, b: Block)
    requires TakesUp(c, b)
    ensures var r := OnBlock(o, c, b);
            && r.c == SignedBlock(o, c, b).c
            && (r.emit == SignedBlock(o, c, b).emit || (r.emit != [] && r.emit[0].Gap? && r.emit == [r.emit[0]] + SignedBlock(o, c, b).emit))
  {
    hide SignEach;
    assert [] + SignedBlock(o, c, b).emit == SignedBlock(o, c, b).emit;
  }

  lemma OpenedKeeps(o: Outside, c: Collector, b: Block)
    requires CollectorOk(o, c) && TakesUp(c, b)
    ensures var d := Opened(c, b);
            && CollectorOk(o, d) && HasGroup(d.sessions, GroupKey(b.h.session, b.id)) && d.waiting == c.waiting && d.held == c.held
            && forall g, n :: IsAuthenticated(d, g, n) <==> IsAuthenticated(c, g, n)
  {
    hide Clean, OneEach;
    SessionsAuthenticate(c, Opened(c, b));
  }

  /** Everything else leaves the sessions others wait in alone. */
  lemma PassedOver(o: Outside, c: Collector, b: Block)
    requires !TakesUp(c, b) && !(Passes(c, b) && b.Certificate?)
    ensures var r := OnBlock(o, c, b); r.c == c && |r.emit| == 1 && r.emit[0].Refused?
  {
  }

  lemma CertificateTaken(o: Outside, c: Collector, b: Block)
    requires Passes(c, b) && b.Certificate?
    ensures OnBlock(o, c, b) == OnCertificate(o, c, b.h.signer.value, b.h.session, b.tpbl, b.frag)
  {
    hide OnCertificate;
  }

  /** A session no fragments completed has no groups. */
  ghost predicate Unformed(c: Collector) {
    forall s :: s in c.sessions && c.sessions[s].payload.None? ==> c.sessions[s].groups == map[]
  }

  /** A certificate that ends the session it belongs to. */
  predicate Ends(c: Collector, ev: Event, key: SessionKey) {
    && ev.Receive? && ev.a.ABlock? && Passes(c, ev.a.b) && ev.a.b.Certificate? && ev.a.b.h.session == key
    && key in c.sessions && c.sessions[key].payload.Some? && !Repeats(c.sessions[key].payload.value, ev.a.b.tpbl, ev.a.b.frag)
  }

  lemma CertificateElsewhere(o: Outside, c: Collector, signer: Signer, key: SessionKey, tpbl: nat, f: Fragment)
    requires CollectorOk(o, c)
    ensures var r := OnCertificate(o, c, signer, key, tpbl, f);
            && (forall s :: s in r.c.sessions <==> s in c.sessions || s == key)
            && (forall s :: s in c.sessions && s != key ==> r.c.sessions[s] == c.sessions[s])
            && (forall w :: w in r.c.waiting ==> w in c.waiting)
            && (key in c.sessions && c.sessions[key].payload.Some? && Repeats(c.sessions[key].payload.value, tpbl, f) ==> r.c == c)
            && (!(key in c.sessions && c.sessions[key].payload.Some? && Repeats(c.sessions[key].payload.value, tpbl, f)) ==>
                  forall w :: w in r.c.waiting ==> w.group.session != key)
  {
    hide Repeats, NotOf;
    CertificateAside(o, c, signer, key, tpbl, f);
    NotOfKeeps(o, c.held, c.waiting, key);
    if key !in c.sessions || c.sessions[key].payload.None? { NoneWaits(o, c, key); }
    if key in c.sessions {
      assert c.sessions[key := c.sessions[key]] == c.sessions;
      if c.sessions[key].payload.Some? && Repeats(c.sessions[key].payload.value, tpbl, f) { RepeatedSame(o, c, signer, key, tpbl, f); }
    }
    hide OnCertificate;
  }

  lemma RepeatedSame(o: Outside, c: Collector, signer: Signer, key: SessionKey, tpbl: nat, f: Fragment)
    requires key in c.sessions && c.sessions[key].payload.Some? && Repeats(c.sessions[key].payload.value, tpbl, f)
    ensures OnCertificate(o, c, signer, key, tpbl, f).c == c
  {
    hide Repeats;
    assert c.sessions[key := c.sessions[key]] == c.sessions;
  }

  lemma CertificateForms(o: Outside, c: Collector, signer: Signer, key: SessionKey, tpbl: nat, f: Fragment)
    requires Unformed(c)
    ensures Unformed(OnCertificate(o, c, signer, key, tpbl, f).c)
  {
    hide Repeats, Conflict, Complete, Assembled, NotOf, Placed;
  }

  lemma CertificateFresh(o: Outside, c: Collector, signer: Signer, key: SessionKey, tpbl: nat, f: Fragment)
    requires CollectorOk(o, c) && NoStaleWait(c)
    ensures NoStaleWait(OnCertificate(o, c, signer, key, tpbl, f).c)
  {
    hide OnCertificate, Repeats, CollectorOk;
    CertificateElsewhere(o, c, signer, key, tpbl, f);
    var d := OnCertificate(o, c, signer, key, tpbl, f).c;
    forall i | 0 <= i < |d.waiting| ensures !IsAuthenticated(d, d.waiting[i].group, d.waiting[i].number) {
      var w := d.waiting[i];
      assert w in d.waiting;
      var j :| 0 <= j < |c.waiting| && c.waiting[j] == w;
    }
  }

  // ---- every event

  /** The event is a block one of whose hashes signs a held message while another hash waits under its number. */
  ghost predicate Doubles(o: Outside, c: Collector, ev: Event) {
    && ev.Receive? && ev.a.ABlock? && TakesUp(c, ev.a.b)
    && !EachFresh(o, Opened(c, ev.a.b), ev.a.b.h.signer.value, ev.a.b.h.alg.value, GroupKey(ev.a.b.h.session, ev.a.b.id), ev.a.b.fmn, ev.a.b.digests)
  }

  lemma OursFresh(o: Outside, c: Collector, msg: Octets)
    requires OneEach(c.waiting) && NoStaleWait(c)
    ensures NoStaleWait(OnOurs(o, c, msg).c)
  {
    hide Authenticated, IsAuthenticated;
    var r := OnOurs(o, c, msg);
    var i := FindWaiting(o, c.waiting, msg);
    if i.Some? {
      var w := c.waiting[i.value];
      var d := c.(waiting := Cut(c.waiting, i.value));
      AuthenticatedKeeps(d, w.group, w.number);
      SessionsAuthenticate(c, d);
      forall j | 0 <= j < |d.waiting| ensures !IsAuthenticated(r.c, d.waiting[j].group, d.waiting[j].number) {
        var k := if j < i.value then j else j + 1;
        assert d.waiting[j] == c.waiting[k];
        AuthenticatedMeans(d, w.group, w.number, d.waiting[j].group, d.waiting[j].number);
      }
    } else {
      SessionsAuthenticate(c, r.c);
    }
  }

  lemma AdvanceFresh(c: Collector, seconds: nat, listing: seq<(GroupKey, nat)>)
    requires NoStaleWait(c)
    ensures NoStaleWait(OnAdvance(c, seconds, listing).c)
  {
    hide IsAuthenticated, Ranges, KeptWaiting, KeptHeld, DueHeld;
    var d := OnAdvance(c, seconds, listing).c;
    KeptWaitingIn(c.waiting, c.now + seconds);
    SessionsAuthenticate(c, d);
    forall i | 0 <= i < |d.waiting| ensures !IsAuthenticated(d, d.waiting[i].group, d.waiting[i].number) {
      assert d.waiting[i] in d.waiting;
      var j :| 0 <= j < |c.waiting| && c.waiting[j] == d.waiting[i];
    }
  }

  /** From waits that are all in earnest, an event leaves one in vain exactly if it is a block that signs past a wait. */
  lemma StepFreshExactly(o: Outside, c: Collector, ev: Event)
    requires CollectorOk(o, c) && NoStaleWait(c)
    ensures NoStaleWait(Step(o, c, ev).c) <==> !Doubles(o, c, ev)
  {
    hide CollectorOk, NoStaleWait, OnOurs, OnBlock, OnAdvance, EachFresh, TakesUp, Passes, Opened;
    match ev
    case Advance(seconds, lost) => AdvanceFresh(c, seconds, lost);
    case Receive(a) =>
      match a {
        case Foreign(msg) =>
        case Ours(msg) => EachWaitsOnce(o, c); OursFresh(o, c, msg);
        case ABlock(b) =>
          if TakesUp(c, b) { BlockFreshExactly(o, c, b); }
          else if Passes(c, b) && b.Certificate? {
            PassesMeans(c, b);
            CertificateTaken(o, c, b);
            CertificateFresh(o, c, b.h.signer.value, b.h.session, b.tpbl, b.frag);
          } else { PassedOver(o, c, b); }
      }
  }

  lemma EachWaitsOnce(o: Outside, c: Collector)
    requires CollectorOk(o, c)
    ensures OneEach(c.waiting)
  {
  }

  lemma BlockFreshExactly(o: Outside, c: Collector, b: Block)
    requires CollectorOk(o, c) && NoStaleWait(c) && TakesUp(c, b)
    ensures NoStaleWait(OnBlock(o, c, b).c) <==> !Doubles(o, c, Receive(ABlock(b)))
  {
    hide CollectorOk, IsAuthenticated, OnBlock, EachFresh, SignEach, HasGroup, Opened;
    TakenUp(o, c, b);
    OpenedKeeps(o, c, b);
    SignEachFreshExactly(o, Opened(c, b), b.h.signer.value, b.h.alg.value, GroupKey(b.h.session, b.id), b.fmn, b.digests);
  }

  // ---- how often a number signs

  predicate Signs(e: Emission, g: GroupKey, n: nat) {
    e.Deposit? && e.signed.Some? && e.signed.value.group == g && e.signed.value.number == n
  }

  function SignedFor(emit: seq<Emission>, g: GroupKey, n: nat): nat {
    if emit == [] then 0 else SignedFor(emit[..|emit| - 1], g, n) + if Signs(emit[|emit| - 1], g, n) then 1 else 0
  }

  lemma {:induction false} SignedForAppend(a: seq<Emission>, b: seq<Emission>, g: GroupKey, n: nat)
    ensures SignedFor(a + b, g, n) == SignedFor(a, g, n) + SignedFor(b, g, n)
  {
    if b == [] {
      assert a + b == a;
    } else {
      assert (a + b)[..|a + b| - 1] == a + b[..|b| - 1];
      SignedForAppend(a, b[..|b| - 1], g, n);
    }
  }

  lemma SignedForOne(e: Emission, g: GroupKey, n: nat)
    ensures SignedFor([e], g, n) == (if Signs(e, g, n) then 1 else 0) && SignedFor([], g, n) == 0
  {
    assert [e][..0] == [];
  }

  lemma {:induction false} NoneSigns(emit: seq<Emission>, g: GroupKey, n: nat)
    requires forall e :: e in emit ==> !Signs(e, g, n)
    ensures SignedFor(emit, g, n) == 0
  {
    if emit != [] {
      assert emit[|emit| - 1] in emit;
      NoneSigns(emit[..|emit| - 1], g, n);
    }
  }

  /** `k` deposits were signed by number `n` of `g`: at most one, and then the number is authenticated. */
  ghost predicate AtMostOne(c: Collector, k: nat, g: GroupKey, n: nat) {
    k <= 1 && (k == 1 ==> IsAuthenticated(c, g, n))
  }

  lemma OursOnce(o: Outside, c: Collector, msg: Octets, k: nat, g: GroupKey, n: nat)
    requires CollectorOk(o, c) && NoStaleWait(c) && AtMostOne(c, k, g, n)
    ensures var r := OnOurs(o, c, msg); AtMostOne(r.c, k + SignedFor(r.emit, g, n), g, n)
  {
    hide Authenticated, SignedFor, Clean, OneEach;
    var r := OnOurs(o, c, msg);
    var i := FindWaiting(o, c.waiting, msg);
    SignedForOne(Deposit(msg, None), g, n);
    if i.Some? {
      var w := c.waiting[i.value];
      SignedForOne(r.emit[0], g, n);
      assert HasGroup(c.sessions, w.group);
      AuthenticatedMeans(c.(waiting := Cut(c.waiting, i.value)), w.group, w.number, g, n);
    }
  }

  lemma SignOneOnce(o: Outside, c: Collector, signer: Signer, alg: Algorithm, x: GroupKey, number: nat, digest: Octets, k: nat, g: GroupKey, n: nat)
    requires HasGroup(c.sessions, x) && AtMostOne(c, k, g, n)
    ensures var r := SignOne(o, c, signer, alg, x, number, digest); AtMostOne(r.c, k + SignedFor(r.emit, g, n), g, n)
  {
    hide Authenticated, SignedFor;
    var r := SignOne(o, c, signer, alg, x, number, digest);
    var h := FindHeld(o, c.held, alg, digest);
    SignedForOne(Refused(""), g, n);
    if !IsAuthenticated(c, x, number) && h.Some? {
      SignedForOne(r.emit[0], g, n);
      AuthenticatedMeans(c.(held := Cut(c.held, h.value)), x, number, g, n);
    }
  }

  lemma {:induction false} SignEachOnce(o: Outside, c: Collector, signer: Signer, alg: Algorithm, x: GroupKey, fmn: nat, digests: seq<Octets>,
                                        k: nat, g: GroupKey, n: nat)
    requires CollectorOk(o, c) && HasGroup(c.sessions, x) && AtMostOne(c, k, g, n)
    ensures var r := SignEach(o, c, signer, alg, x, fmn, digests); AtMostOne(r.c, k + SignedFor(r.emit, g, n), g, n)
  {
    hide CollectorOk, SignOne, AtMostOne, SignedFor, Deposited, Messages;
    if digests == [] {
      SignedForOne(Refused(""), g, n);
    } else {
      var m := |digests| - 1;
      SignEachOnce(o, c, signer, alg, x, fmn, digests[..m], k, g, n);
      SignEachKeeps(o, c, signer, alg, x, fmn, digests[..m]);
      var r := SignEach(o, c, signer, alg, x, fmn, digests[..m]);
      SignOneOnce(o, r.c, signer, alg, x, fmn + m, digests[m], k + SignedFor(r.emit, g, n), g, n);
      SignedForAppend(r.emit, SignOne(o, r.c, signer, alg, x, fmn + m, digests[m]).emit, g, n);
    }
  }

  lemma BlockOnce(o: Outside, c: Collector, b: Block, k: nat, g: GroupKey, n: nat)
    requires CollectorOk(o, c) && TakesUp(c, b) && AtMostOne(c, k, g, n)
    ensures var r := OnBlock(o, c, b); AtMostOne(r.c, k + SignedFor(r.emit, g, n), g, n)
  {
    hide CollectorOk, IsAuthenticated, OnBlock, SignEach, HasGroup, Opened, SignedFor, Passes, ReadsAsBlock;
    PassesMeans(c, b);
    TakenUp(o, c, b);
    OpenedKeeps(o, c, b);
    SignEachOnce(o, Opened(c, b), b.h.signer.value, b.h.alg.value, GroupKey(b.h.session, b.id), b.fmn, b.digests, k, g, n);
    var r := OnBlock(o, c, b);
    if r.emit != SignedBlock(o, c, b).emit {
      SignedForOne(r.emit[0], g, n);
      SignedForAppend([r.emit[0]], SignedBlock(o, c, b).emit, g, n);
    }
  }

  lemma CertificateOnce(o: Outside, c: Collector, b: Block, k: nat, g: GroupKey, n: nat)
    requires CollectorOk(o, c) && Unformed(c) && Passes(c, b) && b.Certificate? && AtMostOne(c, k, g, n)
    ensures var r := OnBlock(o, c, b);
            && SignedFor(r.emit, g, n) == 0
            && AtMostOne(r.c, if Ends(c, Receive(ABlock(b)), g.session) then 0 else k, g, n)
  {
    hide OnCertificate, OnBlock, Repeats, CollectorOk, SignedFor, Passes;
    PassesMeans(c, b);
    CertificateTaken(o, c, b);
    CertificateAside(o, c, b.h.signer.value, b.h.session, b.tpbl, b.frag);
    CertificateElsewhere(o, c, b.h.signer.value, b.h.session, b.tpbl, b.frag);
    var r := OnBlock(o, c, b);
    SignedForOne(Refused(""), g, n);
    if r.emit != [] { SignedForOne(r.emit[0], g, n); assert r.emit == [r.emit[0]]; }
  }

  lemma AdvanceOnce(c: Collector, seconds: nat, lost: seq<(GroupKey, nat)>, k: nat, g: GroupKey, n: nat)
    requires AtMostOne(c, k, g, n)
    ensures var r := OnAdvance(c, seconds, lost); SignedFor(r.emit, g, n) == 0 && AtMostOne(r.c, k, g, n)
  {
    hide KeptWaiting, KeptHeld, DueHeld, Ranges, SignedFor;
    DueUnsigned(c.held, c.now + seconds);
    RangesSay(lost);
    NoneSigns(OnAdvance(c, seconds, lost).emit, g, n);
  }

  /** Unless it ends the session, an event adds no second deposit to one that a number signed. */
  lemma StepOnce(o: Outside, c: Collector, ev: Event, k: nat, g: GroupKey, n: nat)
    requires CollectorOk(o, c) && NoStaleWait(c) && Unformed(c) && AtMostOne(c, k, g, n)
    ensures var r := Step(o, c, ev); AtMostOne(r.c, (if Ends(c, ev, g.session) then 0 else k) + SignedFor(r.emit, g, n), g, n)
  {
    hide CollectorOk, NoStaleWait, Unformed, OnOurs, OnBlock, OnAdvance, TakesUp, Passes, Repeats, SignedFor, IsAuthenticated;
    match ev
    case Advance(seconds, lost) => AdvanceOnce(c, seconds, lost, k, g, n);
    case Receive(a) =>
      match a {
        case Foreign(msg) => SignedForOne(Deposit(msg, None), g, n);
        case Ours(msg) => OursOnce(o, c, msg, k, g, n);
        case ABlock(b) =>
          if TakesUp(c, b) { NoCertificate(c, b); BlockOnce(o, c, b, k, g, n); }
          else if Passes(c, b) && b.Certificate? { CertificateOnce(o, c, b, k, g, n); }
          else { PassedOver(o, c, b); var r := OnBlock(o, c, b); SignedForOne(r.emit[0], g, n); assert r.emit == [r.emit[0]]; }
      }
  }

  lemma NoCertificate(c: Collector, b: Block)
    requires TakesUp(c, b)
    ensures b.Signature?
  {
  }

  lemma StepForms(o: Outside, c: Collector, ev: Event)
    requires CollectorOk(o, c) && Unformed(c)
    ensures Unformed(Step(o, c, ev).c)
  {
    hide CollectorOk, OnCertificate, OnBlock, TakesUp, Passes, SignEach, Ranges, KeptWaiting, KeptHeld, DueHeld;
    match ev
    case Advance(seconds, lost) =>
    case Receive(a) =>
      match a {
        case Foreign(msg) =>
        case Ours(msg) =>
        case ABlock(b) =>
          if TakesUp(c, b) {
            TakenUp(o, c, b);
            SignedForms(o, c, b);
          } else if Passes(c, b) && b.Certificate? {
            PassesMeans(c, b);
            CertificateTaken(o, c, b);
            CertificateForms(o, c, b.h.signer.value, b.h.session, b.tpbl, b.frag);
          } else { PassedOver(o, c, b); }
      }
  }

  lemma SignedForms(o: Outside, c: Collector, b: Block)
    requires TakesUp(c, b) && Unformed(c)
    ensures Unformed(SignedBlock(o, c, b).c)
  {
    hide SignEach;
    assert Unformed(Opened(c, b));
    SignEachForms(o, Opened(c, b), b.h.signer.value, b.h.alg.value, GroupKey(b.h.session, b.id), b.fmn, b.digests);
  }

  lemma {:induction false} SignEachForms(o: Outside, c: Collector, signer: Signer, alg: Algorithm, x: GroupKey, fmn: nat, digests: seq<Octets>)
    requires Unformed(c)
    ensures Unformed(SignEach(o, c, signer, alg, x, fmn, digests).c)
  {
    if digests != [] { SignEachForms(o, c, signer, alg, x, fmn, digests[..|digests| - 1]); }
  }

  // ---- every run

  /** The deposits that number `n` of `g` signed since its session last ended. */
  function SignedSince(o: Outside, c: Collector, evs: seq<Event>, g: GroupKey, n: nat): nat {
    if evs == [] then 0
    else
      var front, ev := evs[..|evs| - 1], evs[|evs| - 1];
      var d := Run(o, c, front).c;
      (if Ends(d, ev, g.session) then 0 else SignedSince(o, c, front, g, n)) + SignedFor(Step(o, d, ev).emit, g, n)
  }

  ghost predicate NeverDoubles(o: Outside, c: Collector, evs: seq<Event>) {
    forall i :: 0 <= i < |evs| ==> !Doubles(o, Run(o, c, evs[..i]).c, evs[i])
  }

  ghost predicate Fresh(c: Collector) {
    c.held == [] && c.waiting == [] && c.sessions == map[]
  }

  /** Up to every point of a run, the waits are in earnest. */
  ghost predicate StaysFresh(o: Outside, c: Collector, evs: seq<Event>) {
    forall i :: 0 <= i <= |evs| ==> NoStaleWait(Run(o, c, evs[..i]).c)
  }

  lemma StaysFreshNext(o: Outside, c: Collector, front: seq<Event>, ev: Event)
    ensures StaysFresh(o, c, front + [ev]) <==> StaysFresh(o, c, front) && NoStaleWait(Run(o, c, front + [ev]).c)
    ensures NeverDoubles(o, c, front + [ev]) <==> NeverDoubles(o, c, front) && !Doubles(o, Run(o, c, front).c, ev)
  {
    hide Run, NoStaleWait, Doubles;
    var evs, n := front + [ev], |front|;
    assert forall i :: 0 <= i <= n ==> evs[..i] == front[..i];
    assert evs[..n + 1] == evs && evs[..n] == front && evs[n] == ev && front[..n] == front;
    assert forall i :: 0 <= i < n ==> evs[i] == front[i];
    if NeverDoubles(o, c, evs) {
      forall i | 0 <= i < n ensures !Doubles(o, Run(o, c, front[..i]).c, front[i]) { assert !Doubles(o, Run(o, c, evs[..i]).c, evs[i]); }
      assert !Doubles(o, Run(o, c, evs[..n]).c, evs[n]);
    }
    if StaysFresh(o, c, evs) {
      forall i | 0 <= i <= n ensures NoStaleWait(Run(o, c, front[..i]).c) { assert NoStaleWait(Run(o, c, evs[..i]).c); }
      assert NoStaleWait(Run(o, c, evs[..n + 1]).c);
    }
  }

  /** A run keeps every wait in earnest exactly if none of its blocks signs past a wait. */
  lemma {:induction false} RunFreshExactly(o: Outside, c: Collector, evs: seq<Event>)
    requires Fresh(c)
    ensures StaysFresh(o, c, evs) <==> NeverDoubles(o, c, evs)
  {
    hide Step, NoStaleWait, Doubles, CollectorOk, Deposited, Messages, BroughtIn;
    if evs == [] {
      FreshStarts(c);
    } else {
      hide StaysFresh, NeverDoubles;
      var front, ev := evs[..|evs| - 1], evs[|evs| - 1];
      assert evs == front + [ev];
      RunFreshExactly(o, c, front);
      NothingLostOrRepeated(o, c, front);
      StaysFreshNext(o, c, front, ev);
      if StaysFresh(o, c, front) {
        EndsFresh(o, c, front);
        StepFreshExactly(o, Run(o, c, front).c, ev);
      }
    }
  }

  lemma EndsFresh(o: Outside, c: Collector, evs: seq<Event>)
    requires StaysFresh(o, c, evs)
    ensures NoStaleWait(Run(o, c, evs).c)
  {
    hide Run, NoStaleWait;
    assert evs[..|evs|] == evs;
  }

  lemma FreshStarts(c: Collector)
    requires Fresh(c)
    ensures NoStaleWait(c) && Unformed(c)
  {
  }

  /** In a run none of whose blocks signs past a wait, a number of a group signs at most one message until its session ends. */
  lemma {:induction false} NumberSignsOnce(o: Outside, c: Collector, evs: seq<Event>, g: GroupKey, n: nat)
    requires Fresh(c) && NeverDoubles(o, c, evs)
    ensures Unformed(Run(o, c, evs).c) && AtMostOne(Run(o, c, evs).c, SignedSince(o, c, evs, g, n), g, n)
  {
    hide Step, NoStaleWait, NeverDoubles, StaysFresh, Doubles, Unformed, AtMostOne, CollectorOk, Deposited, Messages, BroughtIn, SignedFor, Ends;
    if evs == [] {
      FreshStarts(c);
      ZeroIsOne(c, g, n);
    } else {
      var m := |evs| - 1;
      assert evs == evs[..m] + [evs[m]];
      StaysFreshNext(o, c, evs[..m], evs[m]);
      NumberSignsOnce(o, c, evs[..m], g, n);
      NothingLostOrRepeated(o, c, evs[..m]);
      RunFreshExactly(o, c, evs[..m]);
      EndsFresh(o, c, evs[..m]);
      var d := Run(o, c, evs[..m]).c;
      StepOnce(o, d, evs[m], SignedSince(o, c, evs[..m], g, n), g, n);
      StepForms(o, d, evs[m]);
    }
  }

  lemma ZeroIsOne(c: Collector, g: GroupKey, n: nat)
    ensures AtMostOne(c, 0, g, n)
  {
  }

  // ---- a number that signs again

  lemma SignOneNotAgain(o: Outside, c: Collector, signer: Signer, alg: Algorithm, x: GroupKey, number: nat, digest: Octets, g: GroupKey, n: nat)
    requires IsAuthenticated(c, g, n)
    ensures var r := SignOne(o, c, signer, alg, x, number, digest); SignedFor(r.emit, g, n) == 0 && IsAuthenticated(r.c, g, n)
  {
    hide Authenticated, SignedFor;
    var r := SignOne(o, c, signer, alg, x, number, digest);
    var h := FindHeld(o, c.held, alg, digest);
    SignedForOne(Refused(""), g, n);
    if !IsAuthenticated(c, x, number) && h.Some? {
      SignedForOne(r.emit[0], g, n);
      AuthenticatedMeans(c.(held := Cut(c.held, h.value)), x, number, g, n);
    }
  }

  lemma {:induction false} SignEachNotAgain(o: Outside, c: Collector, signer: Signer, alg: Algorithm, x: GroupKey, fmn: nat, digests: seq<Octets>,
                                            g: GroupKey, n: nat)
    requires IsAuthenticated(c, g, n)
    ensures var r := SignEach(o, c, signer, alg, x, fmn, digests); SignedFor(r.emit, g, n) == 0 && IsAuthenticated(r.c, g, n)
  {
    hide SignOne, IsAuthenticated, SignedFor;
    if digests == [] {
      SignedForOne(Refused(""), g, n);
    } else {
      var m := |digests| - 1;
      SignEachNotAgain(o, c, signer, alg, x, fmn, digests[..m], g, n);
      var r := SignEach(o, c, signer, alg, x, fmn, digests[..m]);
      SignOneNotAgain(o, r.c, signer, alg, x, fmn + m, digests[m], g, n);
      SignedForAppend(r.emit, SignOne(o, r.c, signer, alg, x, fmn + m, digests[m]).emit, g, n);
    }
  }

  lemma BlockNotAgain(o: Outside, c: Collector, b: Block, g: GroupKey, n: nat)
    requires CollectorOk(o, c) && IsAuthenticated(c, g, n)
    ensures SignedFor(OnBlock(o, c, b).emit, g, n) == 0
  {
    hide CollectorOk, IsAuthenticated, OnBlock, OnCertificate, SignEach, HasGroup, Opened, SignedFor, Passes, ReadsAsBlock, Repeats;
    var r := OnBlock(o, c, b);
    SignedForOne(Refused(""), g, n);
    if TakesUp(c, b) {
      PassesMeans(c, b);
      TakenUp(o, c, b);
      OpenedKeeps(o, c, b);
      SignEachNotAgain(o, Opened(c, b), b.h.signer.value, b.h.alg.value, GroupKey(b.h.session, b.id), b.fmn, b.digests, g, n);
      if r.emit != SignedBlock(o, c, b).emit {
        SignedForOne(r.emit[0], g, n);
        SignedForAppend([r.emit[0]], SignedBlock(o, c, b).emit, g, n);
      }
    } else {
      if Passes(c, b) && b.Certificate? {
        PassesMeans(c, b);
        CertificateTaken(o, c, b);
        CertificateAside(o, c, b.h.signer.value, b.h.session, b.tpbl, b.frag);
      } else {
        PassedOver(o, c, b);
      }
      if r.emit != [] {
        SignedForOne(r.emit[0], g, n);
        assert r.emit == [r.emit[0]];
      }
    }
  }

  /** A message whose earliest match waits under number `n` of `g`. */
  predicate MeetsWait(o: Outside, c: Collector, ev: Event, g: GroupKey, n: nat) {
    && ev.Receive? && ev.a.Ours?
    && var i := FindWaiting(o, c.waiting, ev.a.msg); i.Some? && c.waiting[i.value].group == g && c.waiting[i.value].number == n
  }

  /** An authenticated number signs again exactly when a message comes whose earliest match waits under it; then it signs once. */
  lemma StepSignsAgainExactly(o: Outside, c: Collector, ev: Event, g: GroupKey, n: nat)
    requires CollectorOk(o, c) && IsAuthenticated(c, g, n)
    ensures SignedFor(Step(o, c, ev).emit, g, n) == if MeetsWait(o, c, ev, g, n) then 1 else 0
  {
    hide CollectorOk, IsAuthenticated, OnBlock, SignedFor, KeptWaiting, KeptHeld, DueHeld, Ranges, Authenticated;
    var r := Step(o, c, ev);
    SignedForOne(Refused(""), g, n);
    match ev
    case Advance(seconds, lost) =>
      DueUnsigned(c.held, c.now + seconds);
      RangesSay(lost);
      NoneSigns(r.emit, g, n);
    case Receive(a) =>
      match a {
        case Foreign(msg) => SignedForOne(Deposit(msg, None), g, n);
        case Ours(msg) => if r.emit != [] { SignedForOne(r.emit[0], g, n); assert r.emit == [r.emit[0]]; }
        case ABlock(b) => BlockNotAgain(o, c, b, g, n);
      }
  }

  // ---- a number that signs two messages

  /**
   * A signer and the session of its blocks, a payload that the payload rules take, a group, and two messages that the
   * digest tells apart.
   */
  datatype Pair = Pair(o: Outside, signer: Signer, alg: Algorithm, key: SessionKey, id: GroupId, payload: Octets, m: Octets, n: Octets,
                       now: int, holdS: int)

  ghost predicate Fit(x: Pair) {
    && x.payload != [] && x.o.payloadFault(x.signer, x.payload) == None && x.o.digest(x.alg, x.m) != x.o.digest(x.alg, x.n)
  }

  function HashOf(x: Pair, msg: Octets): Octets { x.o.digest(x.alg, msg) }

  function Group0(x: Pair): GroupKey { GroupKey(x.key, x.id) }

  function Head(x: Pair): Header { Header(x.key, Some(x.alg), Some(x.signer), true) }

  function Listing(x: Pair, msg: Octets): Event { Receive(ABlock(Signature(Head(x), x.id, 1, [HashOf(x, msg)]))) }

  function Opening(x: Pair): Event { Receive(ABlock(Certificate(Head(x), |x.payload|, Fragment(1, x.payload)))) }

  function Empty(x: Pair): Collector { Collector(x.now, x.holdS, [], [], map[], map[]) }

  /** The session opens, a block lists one hash as number 1, the other message comes, and a second block lists its hash as number 1. */
  function TwoListings(x: Pair): seq<Event> {
    [Opening(x), Listing(x, x.m), Receive(Ours(x.n)), Listing(x, x.n), Receive(Ours(x.m))]
  }

  function Filled(x: Pair, auth: set<nat>): Session {
    Session(Some(x.payload), map[x.id := Group(auth, 1)], None, [])
  }

  function Open(x: Pair, held: seq<Held>, waiting: seq<Waiting>, auth: set<nat>): Collector {
    Collector(x.now, x.holdS, held, waiting, map[x.key := Filled(x, auth)], map[(x.key.host, x.key.app) := x.key.rsid])
  }

  function Wait(x: Pair): Waiting {
    Waiting(Group0(x), 1, x.alg, HashOf(x, x.m), x.now + x.holdS, x.signer.gaps, x.signer.key)
  }

  function HeldOne(x: Pair): Held { Held(x.n, x.now + x.holdS) }

  function SignedOne(x: Pair, msg: Octets): Emission { Deposit(msg, Some(Signed(Group0(x), 1, x.signer.key))) }

  lemma OneOnly<K, V>(k: K, v: V, w: V)
    ensures map[k := v][k := w] == map[k := w] && map[][k := w] == map[k := w]
  {
  }

  /** One fragment that is the whole payload completes it. */
  lemma WholeFragment(payload: Octets)
    requires payload != []
    ensures var f := Fragment(1, payload);
            AllPlaced([f], |payload|) && Complete([f], |payload|) && Assembled([f], |payload|) == payload
  {
    var f := Fragment(1, payload);
    forall position | 1 <= position <= |payload| ensures Covers([f], position) { assert Has([f][0], position); }
    assert Placed(f, |payload|);
    assert [f][..0] == [];
    assert |Assembled([], |payload|)| == |payload|;
  }

  function Opened0(x: Pair): Collector {
    Collector(x.now, x.holdS, [], [], map[x.key := Session(Some(x.payload), map[], None, [])], map[(x.key.host, x.key.app) := x.key.rsid])
  }

  lemma Opens(x: Pair)
    requires Fit(x)
    ensures Step(x.o, Empty(x), Opening(x)) == Result(Opened0(x), [Established(x.key, x.signer.key)])
  {
    hide Complete, Assembled, AllPlaced;
    WholeFragment(x.payload);
    var f := Fragment(1, x.payload);
    assert [] + [f] == [f];
    OneOnly(x.key, NewSession(), NewSession());
    OneOnly(x.key, NewSession(), Session(Some(x.payload), map[], None, []));
    OneOnly((x.key.host, x.key.app), 0, x.key.rsid);
  }

  lemma EachOfOne(x: Pair, c: Collector, digest: Octets)
    ensures SignEach(x.o, c, x.signer, x.alg, Group0(x), 1, [digest]) == SignOne(x.o, c, x.signer, x.alg, Group0(x), 1, digest)
  {
    hide SignOne;
    assert [digest][..0] == [];
    assert SignEach(x.o, c, x.signer, x.alg, Group0(x), 1, []) == Result(c, []);
    var s := SignOne(x.o, c, x.signer, x.alg, Group0(x), 1, digest);
    assert [] + s.emit == s.emit;
  }

  /** A block for number 1 alone is what its one hash does. */
  lemma ListingSigns(x: Pair, c: Collector, d: Collector, msg: Octets)
    requires c.highest == map[(x.key.host, x.key.app) := x.key.rsid] && TakesUp(c, Listing(x, msg).a.b) && d == Opened(c, Listing(x, msg).a.b)
    requires x.id in c.sessions[x.key].groups ==> c.sessions[x.key].groups[x.id].covered > 0
    ensures Step(x.o, c, Listing(x, msg)) == SignOne(x.o, d, x.signer, x.alg, Group0(x), 1, HashOf(x, msg))
  {
    hide SignOne, SignEach;
    EachOfOne(x, d, HashOf(x, msg));
    var r := SignEach(x.o, d, x.signer, x.alg, Group0(x), 1, [HashOf(x, msg)]);
    assert [] + r.emit == r.emit;
  }

  lemma ListsFirst(x: Pair)
    requires Fit(x)
    ensures Step(x.o, Opened0(x), Listing(x, x.m)) == Result(Open(x, [], [Wait(x)], {}), [])
  {
    var q := Group({}, 1);
    OneOnly(x.key, Session(Some(x.payload), map[], None, []), Filled(x, {}));
    OneOnly(x.id, q, q);
    assert Opened(Opened0(x), Listing(x, x.m).a.b) == Open(x, [], [], {});
    ListingSigns(x, Opened0(x), Open(x, [], [], {}), x.m);
    assert [] + [Wait(x)] == [Wait(x)];
  }

  lemma HoldsSecond(x: Pair)
    requires Fit(x)
    ensures Step(x.o, Open(x, [], [Wait(x)], {}), Receive(Ours(x.n))) == Result(Open(x, [HeldOne(x)], [Wait(x)], {}), [])
  {
    assert [Wait(x)][0] == Wait(x);
    assert [] + [HeldOne(x)] == [HeldOne(x)];
  }

  lemma OpenedStays(x: Pair, held: seq<Held>, waiting: seq<Waiting>, msg: Octets)
    ensures TakesUp(Open(x, held, waiting, {}), Listing(x, msg).a.b)
    ensures Opened(Open(x, held, waiting, {}), Listing(x, msg).a.b) == Open(x, held, waiting, {})
  {
    OneOnly(x.key, Filled(x, {}), Filled(x, {}));
    OneOnly(x.id, Group({}, 1), Group({}, 1));
  }

  lemma AuthenticatesOne(x: Pair, held: seq<Held>, waiting: seq<Waiting>)
    ensures Authenticated(Open(x, held, waiting, {}), Group0(x), 1) == Open(x, held, waiting, {1})
    ensures Authenticated(Open(x, held, waiting, {1}), Group0(x), 1) == Open(x, held, waiting, {1})
  {
    assert {} + {1} == {1} && {1} + {1} == {1};
    OneOnly(x.key, Filled(x, {}), Filled(x, {1}));
    OneOnly(x.key, Filled(x, {1}), Filled(x, {1}));
    OneOnly(x.id, Group({}, 1), Group({1}, 1));
    OneOnly(x.id, Group({1}, 1), Group({1}, 1));
  }

  lemma ListsSecond(x: Pair)
    requires Fit(x)
    ensures var c := Open(x, [HeldOne(x)], [Wait(x)], {});
            && Step(x.o, c, Listing(x, x.n)) == Result(Open(x, [], [Wait(x)], {1}), [SignedOne(x, x.n)])
            && Doubles(x.o, c, Listing(x, x.n))
  {
    var c := Open(x, [HeldOne(x)], [Wait(x)], {});
    OpenedStays(x, [HeldOne(x)], [Wait(x)], x.n);
    ListingSigns(x, c, c, x.n);
    assert c.waiting[0] == Wait(x) && c.held[0] == HeldOne(x);
    assert Cut(c.held, 0) == [];
    AuthenticatesOne(x, [], [Wait(x)]);
    var h := HashOf(x, x.n);
    assert [h][..0] == [];
    assert SignEach(x.o, c, x.signer, x.alg, Group0(x), 1, []) == Result(c, []);
    assert SignsPastWait(x.o, c, x.alg, Group0(x), 1, h);
  }

  lemma SignsFirst(x: Pair)
    ensures Step(x.o, Open(x, [], [Wait(x)], {1}), Receive(Ours(x.m))) == Result(Open(x, [], [], {1}), [SignedOne(x, x.m)])
  {
    var c := Open(x, [], [Wait(x)], {1});
    assert Matches(x.o, c.waiting[0], x.m);
    assert Cut(c.waiting, 0) == [];
    AuthenticatesOne(x, [], []);
  }

  lemma RunNext(o: Outside, c: Collector, front: seq<Event>, ev: Event)
    ensures var r := Run(o, c, front); var s := Step(o, r.c, ev); Run(o, c, front + [ev]) == Result(s.c, r.emit + s.emit)
  {
    hide Step;
    assert (front + [ev])[..|front|] == front;
  }

  /**
   * Whatever the digest, the signer and the payload, two messages with different hashes are deposited as number 1 of one
   * group within one session; the fourth event is the block that does it.
   */
  lemma NumberSignsTwice(x: Pair)
    requires Fit(x)
    ensures Fresh(Empty(x))
    ensures Run(x.o, Empty(x), TwoListings(x)).emit == [Established(x.key, x.signer.key), SignedOne(x, x.n), SignedOne(x, x.m)]
    ensures Doubles(x.o, Run(x.o, Empty(x), TwoListings(x)[..3]).c, TwoListings(x)[3])
    ensures !NoStaleWait(Run(x.o, Empty(x), TwoListings(x)[..4]).c)
  {
    hide Step, Doubles, Open, NoStaleWait, Fit, Opening, Listing;
    var o, c, q := x.o, Empty(x), TwoListings(x);
    assert Run(o, c, []) == Result(c, []);
    Opens(x);
    RunNext(o, c, [], q[0]);
    ListsFirst(x);
    RunNext(o, c, [q[0]], q[1]);
    HoldsSecond(x);
    RunNext(o, c, [q[0], q[1]], q[2]);
    ListsSecond(x);
    RunNext(o, c, [q[0], q[1], q[2]], q[3]);
    SignsFirst(x);
    RunNext(o, c, [q[0], q[1], q[2], q[3]], q[4]);
    assert [] + [q[0]] == [q[0]] && [q[0]] + [q[1]] == [q[0], q[1]] && [q[0], q[1]] + [q[2]] == [q[0], q[1], q[2]];
    assert [q[0], q[1], q[2]] + [q[3]] == [q[0], q[1], q[2], q[3]] && [q[0], q[1], q[2], q[3]] + [q[4]] == q;
    assert q[..3] == [q[0], q[1], q[2]] && q[..4] == [q[0], q[1], q[2], q[3]];
    WaitsInVain(x);
  }

  lemma WaitsInVain(x: Pair)
    ensures !NoStaleWait(Open(x, [], [Wait(x)], {1}))
  {
    var c := Open(x, [], [Wait(x)], {1});
    assert IsAuthenticated(c, c.waiting[0].group, c.waiting[0].number);
  }
}
