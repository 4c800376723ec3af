/**
 * The `SyslogSignCollector` object of `syslog-sign.ts`: its lists, sessions and clock updated in place, each method
 * against the function of `SignedSyslog` that says what it does to the collector as a value.
 */
module SyslogCollector {
  import opened Prelude
  import opened Bytes
  import opened SignedSyslog

  /** Copies fragments into a buffer and marks what they cover. */
  method Assemble(frags: seq<Fragment>, tpbl: nat) returns (payload: Octets, complete: bool)
    requires AllPlaced(frags, tpbl)
    ensures payload == Assembled(frags, tpbl) && complete == Complete(frags, tpbl)
  {
    var buffer := new byte[tpbl](_ => 0);
    var cover := new bool[tpbl](_ => false);
    assert buffer[..] == Assembled(frags[..0], tpbl);
    for i := 0 to |frags|
      invariant AllPlaced(frags[..i], tpbl) && buffer[..] == Assembled(frags[..i], tpbl)
      invariant forall p :: 0 <= p < tpbl ==> (cover[p] <==> CoversIndex(frags[..i], p))
    {
      assert frags[..i + 1][..i] == frags[..i];
      assert Placed(frags[i], tpbl);
      Lay(buffer, cover, frags[i]);
      forall p | 0 <= p < tpbl ensures cover[p] <==> CoversIndex(frags[..i + 1], p) {
        assert CoversIndex(frags[..i], p) <==> Covers(frags[..i], p + 1);
        CoversMore(frags, i, p + 1);
      }
    }
    assert frags[..|frags|] == frags;
    payload := buffer[..];
    complete := forall p :: 0 <= p < tpbl ==> cover[p];
    CompleteFrom0(frags, tpbl);
  }

  predicate CoversIndex(frags: seq<Fragment>, p: nat) { Covers(frags, p + 1) }

  lemma CompleteFrom0(frags: seq<Fragment>, tpbl: nat)
    ensures Complete(frags, tpbl) <==> forall p :: 0 <= p < tpbl ==> CoversIndex(frags, p)
  {
    if forall p :: 0 <= p < tpbl ==> CoversIndex(frags, p) {
      forall q | 1 <= q <= tpbl ensures Covers(frags, q) { assert CoversIndex(frags, q - 1); }
    }
  }

  lemma CoversMore(frags: seq<Fragment>, i: nat, p: nat)
    requires i < |frags|
    ensures Covers(frags[..i + 1], p) <==> Covers(frags[..i], p) || Has(frags[i], p)
  {
    var a, b := frags[..i], frags[..i + 1];
    if Covers(a, p) {
      var j :| 0 <= j < |a| && Has(a[j], p);
      assert Has(b[j], p);
    }
    if Has(frags[i], p) { assert Has(b[i], p); }
    if Covers(b, p) {
      var j :| 0 <= j < |b| && Has(b[j], p);
      if j < i { assert Has(a[j], p); }
    }
  }

  /** One fragment laid over a buffer. */
  method Lay(buffer: array<byte>, cover: array<bool>, f: Fragment)
    requires Placed(f, buffer.Length) && cover.Length == buffer.Length
    modifies buffer, cover
    ensures buffer[..] == old(buffer[..])[..f.index - 1] + f.octets + old(buffer[..])[f.index - 1 + |f.octets|..]
    ensures forall p :: 0 <= p < cover.Length ==> (cover[p] <==> old(cover[p]) || Has(f, p + 1))
  {
    var at := f.index - 1;
    for k := 0 to |f.octets|
      invariant buffer[..] == old(buffer[..])[..at] + f.octets[..k] + old(buffer[..])[at + k..]
      invariant forall p :: 0 <= p < cover.Length ==> (cover[p] <==> old(cover[p]) || at <= p < at + k)
    {
      buffer[at + k] := f.octets[k];
      cover[at + k] := true;
    }
  }

  predicate AgreeAt(f: Fragment, g: Fragment, j: nat) {
    Has(f, j) && Has(g, j) ==> f.octets[j - f.index] == g.octets[j - g.index]
  }

  /** Whether two fragments place different octets somewhere, looked for where they overlap. */
  method Clash(f: Fragment, g: Fragment) returns (clash: bool)
    ensures clash == Conflict(f, g)
  {
    var lo := if f.index < g.index then g.index else f.index;
    var hi := if f.index + |f.octets| < g.index + |g.octets| then f.index + |f.octets| else g.index + |g.octets|;
    var k := lo;
    while k < hi
      invariant lo <= k
      invariant forall j: nat :: j < k && j < hi ==> AgreeAt(f, g, j)
    {
      if f.octets[k - f.index] != g.octets[k - g.index] {
        assert Has(g, k);
        return true;
      }
      k := k + 1;
    }
    forall j: nat ensures AgreeAt(f, g, j) { }
    assert forall j :: f.index <= j < f.index + |f.octets| && Has(g, j) ==> AgreeAt(f, g, j);
    return false;
  }

  class SyslogCollector {
    const o: Outside
    const holdS: int
    var now: int
    var held: seq<Held>
    var waiting: seq<Waiting>
    var sessions: map<SessionKey, Session>
    var highest: map<(string, Option<string>), nat>
    var emit: seq<Emission>

    ghost function View(): Collector
      reads this
    {
      Collector(now, holdS, held, waiting, sessions, highest)
    }

    /** The collector and what was emitted since, as one result. */
    twostate predicate Became(r: Result)
      reads this
    {
      View() == r.c && emit == old(emit) + r.emit
    }

    constructor (o: Outside, now: int, holdS: int)
      ensures View() == Collector(now, holdS, [], [], map[], map[]) && emit == [] && this.o == o
    {
      this.o, this.now, this.holdS := o, now, holdS;
      held, waiting, sessions, highest, emit := [], [], map[], map[], [];
    }

    method Say(e: Emission)
      modifies this`emit
      ensures emit == old(emit) + [e]
    {
      emit := emit + [e];
    }

    // ---- matching

    method EarliestWaiting(msg: Octets) returns (i: Option<nat>)
      ensures i == FindWaiting(o, waiting, msg)
    {
      for k := 0 to |waiting|
        invariant FindWaiting(o, waiting[..k], msg).None?
      {
        assert waiting[..k + 1][..k] == waiting[..k];
        if o.digest(waiting[k].alg, msg) == waiting[k].digest {
          FindWaitingFirst(waiting, msg, k);
          return Some(k);
        }
      }
      assert waiting[..|waiting|] == waiting;
      return None;
    }

    lemma FindWaitingFirst(ws: seq<Waiting>, msg: Octets, k: nat)
      requires k < |ws| && Matches(o, ws[k], msg) && FindWaiting(o, ws[..k], msg).None?
      ensures FindWaiting(o, ws, msg) == Some(k)
    {
      assert forall j :: 0 <= j < k ==> ws[..k][j] == ws[j];
    }

    method EarliestHeld(alg: Algorithm, digest: Octets) returns (i: Option<nat>)
      ensures i == FindHeld(o, held, alg, digest)
    {
      for k := 0 to |held|
        invariant FindHeld(o, held[..k], alg, digest).None?
      {
        assert held[..k + 1][..k] == held[..k];
        if o.digest(alg, held[k].msg) == digest {
          FindHeldFirst(held, alg, digest, k);
          return Some(k);
        }
      }
      assert held[..|held|] == held;
      return None;
    }

    lemma FindHeldFirst(hs: seq<Held>, alg: Algorithm, digest: Octets, k: nat)
      requires k < |hs| && o.digest(alg, hs[k].msg) == digest && FindHeld(o, hs[..k], alg, digest).None?
      ensures FindHeld(o, hs, alg, digest) == Some(k)
    {
      assert forall j :: 0 <= j < k ==> hs[..k][j] == hs[j];
    }

    /** The number joins its group's authenticated ones. */
    method Authenticate(g: GroupKey, number: nat)
      modifies this`sessions
      ensures View() == Authenticated(old(View()), g, number)
    {
      if g.session in sessions && g.id in sessions[g.session].groups {
        var s := sessions[g.session];
        var q := s.groups[g.id];
        sessions := sessions[g.session := s.(groups := s.groups[g.id := q.(auth := q.auth + {number})])];
      }
    }

    method RecvOurs(msg: Octets)
      modifies this
      ensures Became(OnOurs(o, old(View()), msg))
    {
      hide FindWaiting, Authenticated;
      var i := EarliestWaiting(msg);
      if i.Some? {
        FindWaitingInRange(msg);
        var w := waiting[i.value];
        waiting := waiting[..i.value] + waiting[i.value + 1..];
        Authenticate(w.group, w.number);
        Say(Deposit(msg, Some(Signed(w.group, w.number, w.key))));
      } else {
        held := held + [Held(msg, now + holdS)];
      }
    }

    lemma FindWaitingInRange(msg: Octets)
      ensures var i := FindWaiting(o, waiting, msg); i.Some? ==> i.value < |waiting|
    {
    }

    method SignHash(signer: Signer, alg: Algorithm, g: GroupKey, number: nat, digest: Octets)
      modifies this`held, this`waiting, this`sessions, this`emit
      ensures Became(SignOne(o, old(View()), signer, alg, g, number, digest))
    {
      hide FindHeld, Authenticated;
      if IsAuthenticatedNow(g, number) { return; }
      var k := EarliestHeld(alg, digest);
      if k.Some? {
        FindHeldInRange(alg, digest);
        var msg := held[k.value].msg;
        held := held[..k.value] + held[k.value + 1..];
        Authenticate(g, number);
        Say(Deposit(msg, Some(Signed(g, number, signer.key))));
      } else if !AlreadyWaits(waiting, g, number) {
        waiting := waiting + [Waiting(g, number, alg, digest, now + holdS, signer.gaps, signer.key)];
      }
    }

    predicate IsAuthenticatedNow(g: GroupKey, number: nat)
      reads this
      ensures IsAuthenticatedNow(g, number) == IsAuthenticated(View(), g, number)
    {
      g.session in sessions && g.id in sessions[g.session].groups && number in sessions[g.session].groups[g.id].auth
    }

    lemma FindHeldInRange(alg: Algorithm, digest: Octets)
      ensures var i := FindHeld(o, held, alg, digest); i.Some? ==> i.value < |held|
    {
    }

    ghost function Then(r: Result, s: Result): Result { Result(s.c, r.emit + s.emit) }

    lemma SignNext(c: Collector, signer: Signer, alg: Algorithm, g: GroupKey, fmn: nat, digests: seq<Octets>, i: nat)
      requires i < |digests|
      ensures var r := SignEach(o, c, signer, alg, g, fmn, digests[..i]);
        SignEach(o, c, signer, alg, g, fmn, digests[..i + 1]) == Then(r, SignOne(o, r.c, signer, alg, g, fmn + i, digests[i]))
    {
      hide SignOne;
      assert digests[..i + 1][..i] == digests[..i];
    }

    lemma NoneSigned(c: Collector, signer: Signer, alg: Algorithm, g: GroupKey, fmn: nat)
      ensures SignEach(o, c, signer, alg, g, fmn, []) == Result(c, [])
    {
    }

    method SignHashes(signer: Signer, alg: Algorithm, g: GroupKey, fmn: nat, digests: seq<Octets>)
      modifies this`held, this`waiting, this`sessions, this`emit
      ensures Became(SignEach(o, old(View()), signer, alg, g, fmn, digests))
    {
      hide SignOne, SignEach;
      ghost var c := View();
      ghost var r := Result(c, []);
      NoneSigned(c, signer, alg, g, fmn);
      for i := 0 to |digests|
        invariant Became(r) && r == SignEach(o, c, signer, alg, g, fmn, digests[..i])
      {
        SignNext(c, signer, alg, g, fmn, digests, i);
        SignHash(signer, alg, g, fmn + i, digests[i]);
        r := Then(r, SignOne(o, r.c, signer, alg, g, fmn + i, digests[i]));
      }
      assert digests[..|digests|] == digests;
    }

    method RecvSignature(signer: Signer, alg: Algorithm, key: SessionKey, id: GroupId, fmn: nat, digests: seq<Octets>)
      requires digests != []
      modifies this
      ensures Became(OnSignature(o, old(View()), signer, alg, key, id, fmn, digests))
    {
      hide SignEach;
      if key !in sessions || sessions[key].payload.None? {
        Say(Refused("no-session"));
        return;
      }
      var s := sessions[key];
      var q := if id in s.groups then s.groups[id] else Group({}, 0);
      if signer.gaps && q.covered > 0 && fmn > q.covered + 1 { Say(Gap(GroupKey(key, id), q.covered + 1, fmn - 1)); }
      sessions := sessions[key := s.(groups := s.groups[id := q.(covered := MaxOf(q.covered, fmn + |digests| - 1))])];
      SignHashes(signer, alg, GroupKey(key, id), fmn, digests);
    }

    // ---- certificates

    /** An established session ends: its groups go, and so do the hashes waiting in them. */
    method EndSession(key: SessionKey)
      modifies this`sessions, this`waiting
      ensures View() == Ended(old(View()), key)
    {
      sessions := sessions[key := NewSession()];
      var all, kept := waiting, [];
      for i := 0 to |all|
        invariant kept == NotOf(all[..i], key)
      {
        assert all[..i + 1][..i] == all[..i];
        if all[i].group.session != key { kept := kept + [all[i]]; }
      }
      assert all[..|all|] == all;
      waiting := kept;
    }

    method Clashes(frags: seq<Fragment>, f: Fragment) returns (clash: bool)
      ensures clash == exists i :: 0 <= i < |frags| && Conflict(frags[i], f)
    {
      for i := 0 to |frags|
        invariant forall j :: 0 <= j < i ==> !Conflict(frags[j], f)
      {
        clash := Clash(frags[i], f);
        if clash { return; }
      }
      return false;
    }

    /** A complete payload establishes its session, or is refused and its fragments dropped. */
    method Establish(signer: Signer, key: SessionKey, s: Session, payload: Octets)
      modifies this`sessions, this`highest, this`emit
      ensures Became(SignedSyslog.Establish(o, old(View()), signer, key, s, payload))
    {
      var done := s.(tpbl := None, frags := []);
      var fault := o.payloadFault(signer, payload);
      if fault.Some? {
        sessions := sessions[key := done];
        Say(Refused(fault.value));
        return;
      }
      sessions := sessions[key := done.(payload := Some(payload), groups := map[])];
      var top := (key.host, key.app);
      highest := highest[top := MaxOf(if top in highest then highest[top] else 0, key.rsid)];
      Say(SignedSyslog.Established(key, signer.key));
    }

    method AddFragment(signer: Signer, key: SessionKey, tpbl: nat, f: Fragment)
      requires key in sessions
      modifies this`sessions, this`highest, this`emit
      ensures Became(SignedSyslog.AddFragment(o, old(View()), signer, key, tpbl, f))
    {
      hide SignedSyslog.Establish, Conflict, Complete, Assembled;
      var s := sessions[key];
      if s.tpbl.Some? && s.tpbl.value != tpbl {
        Say(Refused("fragment-mismatch"));
        return;
      }
      var clash := Clashes(s.frags, f);
      if clash {
        Say(Refused("fragment-mismatch"));
        return;
      }
      var frags := s.frags + [f];
      if AllPlaced(frags, tpbl) {
        var payload, complete := Assemble(frags, tpbl);
        if complete {
          Establish(signer, key, s, payload);
          return;
        }
      }
      sessions := sessions[key := s.(tpbl := Some(tpbl), frags := frags)];
    }

    method RecvCertificate(signer: Signer, key: SessionKey, tpbl: nat, f: Fragment)
      modifies this
      ensures Became(OnCertificate(o, old(View()), signer, key, tpbl, f))
    {
      hide SignedSyslog.AddFragment, Repeats, NotOf;
      if key !in sessions { sessions := sessions[key := NewSession()]; }
      var s := sessions[key];
      assert sessions == old(sessions)[key := s];
      if s.payload.Some? && Repeats(s.payload.value, tpbl, f) { return; }
      if s.payload.Some? { EndSession(key); }
      AddFragment(signer, key, tpbl, f);
    }

    // ---- receiving

    /** A block is checked in one fixed order before its own rules apply. */
    method RecvBlock(b: Block)
      modifies this
      ensures Became(OnBlock(o, old(View()), b))
    {
      hide OnCertificate, OnSignature;
      if !ReadsAsBlock(b) {
        Say(Refused("malformed-block"));
        return;
      }
      var h := b.h;
      if h.alg.None? {
        Say(Refused("unsupported-version"));
        return;
      }
      if h.signer.None? {
        Say(Refused("unknown-signer"));
        return;
      }
      if !h.verified {
        Say(Refused("bad-signature"));
        return;
      }
      var top := (h.session.host, h.session.app);
      if h.session.rsid > 0 && top in highest && h.session.rsid < highest[top] {
        Say(Refused("old-session"));
        return;
      }
      if b.Certificate? {
        RecvCertificate(h.signer.value, h.session, b.tpbl, b.frag);
      } else {
        RecvSignature(h.signer.value, h.alg.value, h.session, b.id, b.fmn, b.digests);
      }
    }

    method Recv(a: Arrival)
      modifies this
      ensures Became(OnReceive(o, old(View()), a))
    {
      hide OnOurs, OnBlock;
      match a
      case Foreign(msg) => Say(Deposit(msg, None));
      case Ours(msg) => RecvOurs(msg);
      case ABlock(b) => RecvBlock(b);
    }

    // ---- the clock

    method ReleaseHeld()
      modifies this`held, this`emit
      ensures held == KeptHeld(old(held), now) && emit == old(emit) + DueHeld(old(held), now)
    {
      var all, keep := held, [];
      for i := 0 to |all|
        invariant keep == KeptHeld(all[..i], now) && emit == old(emit) + DueHeld(all[..i], now)
      {
        assert all[..i + 1][..i] == all[..i];
        if all[i].due <= now { Say(Deposit(all[i].msg, None)); } else { keep := keep + [all[i]]; }
      }
      assert all[..|all|] == all;
      held := keep;
    }

    /** Hashes due are dropped; those whose signer wants gaps are lost. */
    method DropWaiting() returns (lost: set<(GroupKey, nat)>)
      modifies this`waiting
      ensures waiting == KeptWaiting(old(waiting), now) && lost == Lost(old(waiting), now)
    {
      var all, keep: seq<Waiting> := waiting, [];
      lost := {};
      for i := 0 to |all|
        invariant keep == KeptWaiting(all[..i], now)
        invariant forall x :: x in lost ==> x in Lost(all, now)
        invariant forall j :: 0 <= j < i && all[j].due <= now && all[j].gaps ==> (all[j].group, all[j].number) in lost
      {
        assert all[..i + 1][..i] == all[..i];
        if now < all[i].due {
          keep := keep + [all[i]];
        } else if all[i].gaps {
          assert (all[i].group, all[i].number) in Lost(all, now);
          lost := lost + {(all[i].group, all[i].number)};
        }
      }
      assert all[..|all|] == all;
      waiting := keep;
    }

    /** Runs of consecutive numbers in one group are told as one gap each. */
    method TellGaps(listing: seq<(GroupKey, nat)>)
      modifies this`emit
      ensures emit == old(emit) + Ranges(listing)
    {
      var run: Option<Emission> := None;
      ghost var told: seq<Emission> := [];
      for i := 0 to |listing|
        invariant run.Some? ==> run.value.Gap?
        invariant run.None? <==> i == 0
        invariant emit == old(emit) + told && Ranges(listing[..i]) == told + Flushed(run)
      {
        assert listing[..i + 1][..i] == listing[..i];
        var (g, n) := listing[i];
        if run.Some? && run.value.group == g && n == run.value.last + 1 {
          run := Some(run.value.(last := n));
        } else {
          emit := emit + Flushed(run);
          told := told + Flushed(run);
          run := Some(Gap(g, n, n));
        }
      }
      assert listing[..|listing|] == listing;
      emit := emit + Flushed(run);
    }

    static function Flushed(run: Option<Emission>): seq<Emission> {
      match run case Some(e) => [e] case None => []
    }

    /** `advance`: what is due is deposited unsigned, then what is lost is told as gaps, in order. */
    method Elapse(seconds: nat) returns (ghost listing: seq<(GroupKey, nat)>)
      modifies this
      ensures Became(OnAdvance(old(View()), seconds, listing))
      ensures forall x :: x in listing <==> x in Lost(old(waiting), now)
      ensures AllProper(Lost(old(waiting), now)) ==> Listing(listing, Lost(old(waiting), now))
    {
      hide KeptHeld, KeptWaiting, DueHeld, Ranges, Lost, Earlier;
      now := now + seconds;
      ReleaseHeld();
      var lost := DropWaiting();
      var sorted := SortLost(lost);
      TellGaps(sorted);
      listing := sorted;
    }

    // ---- runs

    /** One trace event and what it emits; `ran` is the event with the list of lost numbers it came to. */
    method Step(ev: Input) returns (out: seq<Emission>, ghost ran: Event)
      modifies this
      ensures Result(View(), out) == SignedSyslog.Step(o, old(View()), ran) && Realizes(ev, ran)
    {
      hide OnReceive, OnAdvance;
      emit := [];
      match ev {
        case Got(a) =>
          Recv(a);
          ran := Receive(a);
        case Waited(seconds) =>
          ghost var listing := Elapse(seconds);
          ran := Advance(seconds, listing);
      }
      out := emit;
    }

    /**
     * Every run of the object is a run of the value. From an empty collector no held message has a hash that is waited
     * for, every message received is held or was deposited once, and what was deposited as signed was listed by a verified
     * block.
     */
    method Play(evs: seq<Input>) returns (out: seq<Emission>, ghost ran: seq<Event>)
      modifies this
      ensures |ran| == |evs| && forall i :: 0 <= i < |evs| ==> Realizes(evs[i], ran[i])
      ensures Result(View(), out) == Run(o, old(View()), ran)
      ensures old(held == [] && waiting == []) ==>
                && CollectorOk(o, View()) && BroughtIn(ran) == Messages(held) + Deposited(out) && Vouched(o, ListedIn(ran), out)
    {
      hide SignedSyslog.Step, CollectorOk, BroughtIn, Messages, Deposited, Vouched, ListedIn;
      out, ran := [], [];
      for i := 0 to |evs|
        invariant |ran| == i && forall j :: 0 <= j < i ==> Realizes(evs[j], ran[j])
        invariant Result(View(), out) == Run(o, old(View()), ran)
      {
        ghost var e;
        var one;
        one, e := Step(evs[i]);
        assert (ran + [e])[..i] == ran;
        out, ran := out + one, ran + [e];
      }
      if old(held == [] && waiting == []) {
        NothingLostOrRepeated(o, old(View()), ran);
        SignedMeansListed(o, old(View()), ran);
      }
    }
  }

  datatype Input = Got(a: Arrival) | Waited(seconds: nat)

  ghost predicate Realizes(ev: Input, ran: Event) {
    match ev
    case Got(a) => ran == Receive(a)
    case Waited(seconds) => ran.Advance? && ran.seconds == seconds
  }

  // ---- the order of lost numbers

  /** Names of applications and processes, when given, are not empty. */
  predicate Proper(x: (GroupKey, nat)) { x.0.session.app != Some("") && x.0.session.procid != Some("") }

  predicate AllProper(s: set<(GroupKey, nat)>) { forall x :: x in s ==> Proper(x) }

  lemma EarlierTotal(a: (GroupKey, nat), b: (GroupKey, nat))
    requires Proper(a) && Proper(b)
    ensures a == b || Earlier(a, b) || Earlier(b, a)
  {
    hide Less;
    var s, t := a.0.session, b.0.session;
    LessTotal(s.host, t.host);
    LessTotal(AppText(s), AppText(t));
    LessTotal(ProcidText(s), ProcidText(t));
  }

  lemma EarlierTransitive(a: (GroupKey, nat), b: (GroupKey, nat), c: (GroupKey, nat))
    requires Earlier(a, b) && Earlier(b, c)
    ensures Earlier(a, c)
  {
    hide Less, AppText, ProcidText;
    var s, t, u := a.0.session, b.0.session, c.0.session;
    TextTransitive(s.host, t.host, u.host);
    TextTransitive(AppText(s), AppText(t), AppText(u));
    TextTransitive(ProcidText(s), ProcidText(t), ProcidText(u));
  }

  lemma TextTransitive(a: string, b: string, c: string)
    ensures Less(a, b) && Less(b, c) ==> Less(a, c)
    ensures Less(a, b) && Less(b, a) ==> false
    ensures !Less(a, a) && !Less(b, b) && !Less(c, c)
  {
    if Less(a, b) && Less(b, c) { LessTransitive(a, b, c); }
    LessTotal(a, b);
    LessTotal(a, a);
    LessTotal(b, b);
    LessTotal(c, c);
  }

  method FirstLost(s: set<(GroupKey, nat)>) returns (m: (GroupKey, nat))
    requires s != {}
    ensures m in s && (AllProper(s) ==> forall x :: x in s && x != m ==> Earlier(m, x))
  {
    hide Earlier, Proper;
    m :| m in s;
    var scan := s - {m};
    while scan != {}
      invariant m in s && scan <= s && m !in scan
      invariant AllProper(s) ==> forall y :: y in s && y !in scan && y != m ==> Earlier(m, y)
      decreases scan
    {
      var y :| y in scan;
      var later := Earlier(m, y);
      if !later {
        if AllProper(s) {
          EarlierTotal(m, y);
          forall z | z in s && z !in scan - {y} && z != y ensures Earlier(y, z) {
            if z != m { EarlierTransitive(y, m, z); }
          }
        }
        m := y;
      }
      scan := scan - {y};
    }
  }

  method SortLost(s: set<(GroupKey, nat)>) returns (q: seq<(GroupKey, nat)>)
    ensures forall x :: x in q <==> x in s
    ensures AllProper(s) ==> Listing(q, s)
  {
    hide Earlier, Proper;
    q := [];
    var left := s;
    while left != {}
      invariant left <= s
      invariant forall x :: x in s <==> x in left || x in q
      invariant AllProper(s) ==> forall i, j :: 0 <= i < j < |q| ==> Earlier(q[i], q[j])
      invariant AllProper(s) ==> forall x, y :: x in q && y in left ==> Earlier(x, y)
      decreases left
    {
      var m := FirstLost(left);
      q := q + [m];
      left := left - {m};
    }
  }
}
