/**
 * Two endpoints that call each other, over FIFO links: however their invites cross, and whatever either end asks of the
 * two calls meanwhile, the ends come to agree about both calls and at most one of them is left. `x` places the call with
 * the smaller id and `y` the other.
 */
module Glare {
  import opened Prelude
  import opened TimerTable
  import opened Calls
  import opened CallWords
  import opened Endpoints

  /** `p` runs from `x` to `y` and `q` back. */
  datatype Pair = Pair(x: Endpoint, y: Endpoint, p: seq<Message>, q: seq<Message>)

  /** The two call ids, each end's device and the identity it is called by. */
  datatype Names = Names(small: string, large: string, xDevice: string, yDevice: string, xName: string, yName: string)

  datatype Event =
    | Places(atX: bool)
    | Asks(atX: bool, id: string, v: Verb)
    | Hears(atX: bool)

  function End(n: Pair, a: bool): Endpoint { if a then n.x else n.y }

  /** What an end has sent and the other has not heard. */
  function Going(n: Pair, a: bool): seq<Message> { if a then n.p else n.q }

  function Own(w: Names, a: bool): string { if a then w.small else w.large }

  function Device(w: Names, a: bool): string { if a then w.xDevice else w.yDevice }

  function Called(w: Names, a: bool): string { if a then w.xName else w.yName }

  function At(e: Endpoint, id: string): Option<Session> {
    if id in e.sessions then Some(e.sessions[id]) else None
  }

  function Posts(from: string, emit: seq<Emit>): seq<Message> {
    if emit == [] then []
    else
      var e := emit[|emit| - 1];
      Posts(from, emit[..|emit| - 1])
      + if e.OfCall? && e.op.Send? then [Message(from, if e.op.body.Invite? then e.op.session else "", e.op.session, e.op.body)] else []
  }

  ghost function Hear(e: Endpoint, m: Message): Result {
    if m.body.Invite? then OnInvite(e, m) else OnMessage(e, m)
  }

  /** One end has become `e` and sent `posts`, perhaps on hearing the first message on its way there. */
  function After(n: Pair, a: bool, heard: bool, e: Endpoint, posts: seq<Message>): Pair
    requires heard ==> Going(n, !a) != []
  {
    if a then Pair(e, n.y, n.p + posts, if heard then n.q[1..] else n.q)
    else Pair(n.x, e, if heard then n.p[1..] else n.p, n.q + posts)
  }

  ghost function Step(w: Names, n: Pair, ev: Event): Pair {
    match ev
    case Places(a) =>
      var r := OnPlaceCall(End(n, a), Own(w, a), Called(w, !a));
      After(n, a, false, r.e, Posts(Device(w, a), r.emit))
    case Asks(a, id, v) =>
      var r := OnLocal(End(n, a), id, v);
      After(n, a, false, r.e, Posts(Device(w, a), r.emit))
    case Hears(a) =>
      if Going(n, !a) == [] then n
      else
        var r := Hear(End(n, a), Going(n, !a)[0]);
        After(n, a, true, r.e, Posts(Device(w, a), r.emit))
  }

  // ---- one call, seen from its two ends

  datatype Stage = Absent | Calling | Rung | Talking | Over

  function StageOf(o: Option<Session>): Stage {
    if o.None? then Absent
    else
      match o.value.phase
      case INVITING => Calling case PROCEEDING => Calling
      case OFFERED => Rung case ALERTING => Rung
      case ACTIVE => Talking case ENDED => Over
  }

  function StageAt(n: Pair, a: bool, id: string): Stage { StageOf(At(End(n, a), id)) }

  /** `Elsewhere` is the cancel for the callee's other devices. */
  datatype Kind = Offer | Cancelled | Elsewhere | Farewell | Ring | Refusal | Answering | Invalid | Other

  function KindOf(b: Body): Kind {
    match b
    case Invite(_, expires) => if expires.None? then Offer else Other
    case Progress(status, _, _) => if status == Ringing then Ring else Other
    case Answer(_, ref) => if ref.None? then Answering else Other
    case Reject(_, ref) => if ref.None? then Refusal else Other
    case Cancel(reason) => if EffectiveReason(reason) == ELSEWHERE then Elsewhere else Cancelled
    case Bye(_) => Farewell
    case Error(reason, _) => if reason == "session.invalid-state" then Invalid else Other
    case Update(_, _) => Other
    case Info(_) => Other
  }

  /** What a link carries about one call. */
  function Said(ms: seq<Message>, id: string): seq<Kind> {
    if ms == [] then []
    else Said(ms[..|ms| - 1], id) + if ms[|ms| - 1].session == id then [KindOf(ms[|ms| - 1].body)] else []
  }

  predicate Rings(ks: seq<Kind>) { forall k :: k in ks ==> k == Ring }

  predicate RingsThen(ks: seq<Kind>, tail: seq<Kind>) {
    |ks| >= |tail| && Rings(ks[..|ks| - |tail|]) && ks[|ks| - |tail|..] == tail
  }

  predicate FromInitiator(ks: seq<Kind>) { forall k :: k in ks ==> k == Cancelled || k == Elsewhere || k == Farewell }

  predicate FromResponder(ks: seq<Kind>) {
    forall k :: k in ks ==> k == Ring || k == Refusal || k == Answering || k == Farewell || k == Invalid
  }

  /** Where a call can be: its initiator, its responder, and what is on its way from each. */
  predicate CallFits(i: Stage, r: Stage, there: seq<Kind>, back: seq<Kind>) {
    match (i, r)
    case (Absent, Absent) => there == [] && back == []
    case (Calling, Absent) => there == [Offer] && back == []
    case (Calling, Rung) => there == [] && Rings(back)
    case (Calling, Talking) => there == [] && RingsThen(back, [Answering])
    case (Calling, Over) => there == [] && (RingsThen(back, [Refusal]) || RingsThen(back, [Answering, Farewell]))
    case (Talking, Talking) =>
      (there == [] && back == []) || (there == [Elsewhere] && back == []) || (there == [] && back == [Invalid])
    case (Talking, Over) =>
      (there == [] || there == [Elsewhere]) && (back == [Farewell] || back == [Invalid, Farewell])
    case (Over, Absent) => there == [Offer, Cancelled] && back == []
    case (Over, Rung) => there == [Cancelled] && Rings(back)
    case (Over, Talking) =>
      || (there == [Cancelled] && RingsThen(back, [Answering]))
      || ((there == [Cancelled, Farewell] || there == [Farewell] || there == [Elsewhere, Farewell]) && back == [])
      || (there == [Farewell] && back == [Invalid])
    case (Over, Over) => FromInitiator(there) && FromResponder(back)
    case _ => false
  }

  predicate InitiatorDoes(i: Stage, j: Stage, said: seq<Kind>) {
    || (j == i && said == [])
    || (i == Absent && j == Calling && said == [Offer])
    || (i == Calling && j == Over && said == [Cancelled])
    || (i == Talking && j == Over && said == [Farewell])
  }

  predicate ResponderDoes(r: Stage, s: Stage, said: seq<Kind>) {
    || (s == r && said == [])
    || (r == Rung && s == Rung && said == [Ring])
    || (r == Rung && s == Talking && said == [Answering])
    || (r == Rung && s == Over && said == [Refusal])
    || (r == Talking && s == Over && said == [Farewell])
  }

  predicate InitiatorHears(i: Stage, k: Kind, j: Stage, said: seq<Kind>) {
    match i
    case Calling =>
      || (k == Ring && j == Calling && said == [])
      || (k == Refusal && j == Over && said == [])
      || (k == Answering && j == Talking && (said == [] || said == [Elsewhere]))
    case Talking => said == [] && ((k == Invalid && j == Talking) || (k == Farewell && j == Over))
    case Over => j == Over && said == if k == Answering then [Farewell] else []
    case _ => false
  }

  predicate ResponderHears(r: Stage, k: Kind, s: Stage, said: seq<Kind>) {
    match r
    case Absent => k == Offer && ((s == Rung && said == []) || (s == Over && said == [Refusal]))
    case Rung => k == Cancelled && s == Over && said == []
    case Talking =>
      || (k == Elsewhere && s == Talking && said == [Invalid])
      || ((k == Cancelled || k == Farewell) && s == Over && said == [])
    case Over => s == Over && said == []
    case _ => false
  }

  predicate ForInitiator(i: Stage, k: Kind) {
    match i
    case Calling => k == Ring || k == Refusal || k == Answering
    case Talking => k == Invalid || k == Farewell
    case Over => k == Ring || k == Refusal || k == Answering || k == Farewell || k == Invalid
    case _ => false
  }

  predicate ForResponder(r: Stage, k: Kind) {
    match r
    case Absent => k == Offer
    case Rung => k == Cancelled
    case Talking => k == Elsewhere || k == Cancelled || k == Farewell
    case Over => k == Cancelled || k == Elsewhere || k == Farewell
    case _ => false
  }

  lemma RingsHead(ks: seq<Kind>, tail: seq<Kind>)
    requires RingsThen(ks, tail) && ks != [] && tail != [] && tail[0] != Ring
    ensures if ks[0] == Ring then RingsThen(ks[1..], tail) else ks == tail
  {
    var n := |ks| - |tail|;
    assert ks[n..] == tail;
    if n > 0 {
      assert ks[0] == ks[..n][0] && ks[0] in ks[..n];
      assert ks[1..][..n - 1] == ks[..n][1..] && ks[1..][n - 1..] == ks[n..];
      assert forall k :: k in ks[..n][1..] ==> k in ks[..n];
    } else {
      assert ks[0..] == ks;
    }
  }

  lemma RingsMore(ks: seq<Kind>, tail: seq<Kind>, k: Kind)
    requires RingsThen(ks, tail)
    ensures RingsThen(ks + [k], tail + [k])
  {
    assert (ks + [k])[..|ks| - |tail|] == ks[..|ks| - |tail|];
  }

  lemma RingsAll(ks: seq<Kind>, tail: seq<Kind>)
    requires RingsThen(ks, tail)
    ensures ks == ks[..|ks| - |tail|] + tail
    ensures forall k :: k in ks ==> k == Ring || k in tail
  {
    var head := ks[..|ks| - |tail|];
    assert ks == head + tail;
    assert forall k :: k in ks ==> k in head || k in tail;
  }

  lemma BackFits(i: Stage, r: Stage, there: seq<Kind>, back: seq<Kind>)
    requires CallFits(i, r, there, back)
    ensures FromResponder(back)
    ensures Answering in back ==> r == Talking || r == Over
    ensures Refusal in back || Farewell in back ==> r == Over
  {
    hide RingsThen;
    if RingsThen(back, [Answering]) {
      RingsAll(back, [Answering]);
    } else if RingsThen(back, [Refusal]) {
      RingsAll(back, [Refusal]);
    } else if RingsThen(back, [Answering, Farewell]) {
      RingsAll(back, [Answering, Farewell]);
    }
  }

  lemma InitiatorDoesFits(i: Stage, r: Stage, there: seq<Kind>, back: seq<Kind>, j: Stage, said: seq<Kind>)
    requires CallFits(i, r, there, back) && InitiatorDoes(i, j, said)
    ensures CallFits(j, r, there + said, back)
  {
    BackFits(i, r, there, back);
    assert there + [] == there;
  }

  lemma ResponderDoesFits(i: Stage, r: Stage, there: seq<Kind>, back: seq<Kind>, s: Stage, said: seq<Kind>)
    requires CallFits(i, r, there, back) && ResponderDoes(r, s, said)
    ensures CallFits(i, s, there, back + said)
  {
    hide RingsThen, Rings;
    assert back + [] == back;
    if said == [] {
    } else if r == Rung {
      RungSays(back, said[0]);
      if i == Over && s == Over { BackFits(i, r, there, back); }
    } else {
      assert [Answering] + [Farewell] == [Answering, Farewell];
      if RingsThen(back, [Answering]) { RingsMore(back, [Answering], Farewell); }
      if i == Over { BackFits(i, r, there, back); }
    }
  }

  lemma RungSays(back: seq<Kind>, k: Kind)
    requires Rings(back)
    ensures RingsThen(back + [k], [k]) && (k == Ring ==> Rings(back + [k]))
  {
    assert back[..|back| - 0] == back && back[|back|..] == [];
    RingsMore(back, [], k);
    assert [] + [k] == [k];
  }

  lemma CallingHearsFits(r: Stage, there: seq<Kind>, back: seq<Kind>, j: Stage, said: seq<Kind>)
    requires CallFits(Calling, r, there, back) && back != [] && InitiatorHears(Calling, back[0], j, said)
    ensures CallFits(j, r, there + said, back[1..])
  {
    hide RingsThen;
    assert there + said == said && there + [] == there;
    if r == Rung {
      assert back[0] in back;
      assert forall k :: k in back[1..] ==> k in back;
    } else if r == Talking {
      RingsHead(back, [Answering]);
    } else if RingsThen(back, [Refusal]) {
      RingsHead(back, [Refusal]);
    } else {
      RingsHead(back, [Answering, Farewell]);
    }
  }

  lemma InitiatorHearsFits(i: Stage, r: Stage, there: seq<Kind>, back: seq<Kind>, j: Stage, said: seq<Kind>)
    requires CallFits(i, r, there, back) && back != [] && InitiatorHears(i, back[0], j, said)
    ensures CallFits(j, r, there + said, back[1..])
  {
    hide RingsThen;
    assert there + [] == there;
    if i == Calling {
      CallingHearsFits(r, there, back, j, said);
    } else if i == Over {
      assert forall k :: k in back[1..] ==> k in back;
      if r == Talking && RingsThen(back, [Answering]) { RingsHead(back, [Answering]); }
      if r == Rung { assert back[0] in back; }
    }
  }

  lemma ResponderHearsFits(i: Stage, r: Stage, there: seq<Kind>, back: seq<Kind>, s: Stage, said: seq<Kind>)
    requires CallFits(i, r, there, back) && there != [] && ResponderHears(r, there[0], s, said)
    ensures CallFits(i, s, there[1..], back + said)
  {
    hide RingsThen;
    assert back + [] == back;
    if r == Absent {
      RungSays(back, Refusal);
    } else if r == Talking {
      if i == Over && RingsThen(back, [Answering]) { BackFits(i, r, there, back); }
    } else if r == Over {
      assert forall k :: k in there[1..] ==> k in there;
    }
  }

  lemma InitiatorExpects(i: Stage, r: Stage, there: seq<Kind>, back: seq<Kind>)
    requires CallFits(i, r, there, back) && back != []
    ensures ForInitiator(i, back[0])
  {
    BackFits(i, r, there, back);
    assert back[0] in back;
    if RingsThen(back, [Answering]) { RingsHead(back, [Answering]); }
    if RingsThen(back, [Refusal]) { RingsHead(back, [Refusal]); }
    if RingsThen(back, [Answering, Farewell]) { RingsHead(back, [Answering, Farewell]); }
  }

  lemma ResponderExpects(i: Stage, r: Stage, there: seq<Kind>, back: seq<Kind>)
    requires CallFits(i, r, there, back) && there != []
    ensures ForResponder(r, there[0])
  {
    assert there[0] in there;
  }

  // ---- what the links carry

  lemma {:induction false} SaidAppend(a: seq<Message>, b: seq<Message>, id: string)
    ensures Said(a + b, id) == Said(a, id) + Said(b, id)
  {
    if b == [] {
      assert a + b == a;
    } else {
      assert (a + b)[..|a + b| - 1] == a + b[..|b| - 1];
      SaidAppend(a, b[..|b| - 1], id);
    }
  }

  lemma SaidOne(m: Message, id: string)
    ensures Said([m], id) == if m.session == id then [KindOf(m.body)] else []
    ensures Said([], id) == []
  {
    assert [m][..0] == [];
  }

  lemma SaidHead(ms: seq<Message>, id: string)
    requires ms != []
    ensures Said(ms, id) == (if ms[0].session == id then [KindOf(ms[0].body)] else []) + Said(ms[1..], id)
  {
    assert ms == [ms[0]] + ms[1..];
    SaidAppend([ms[0]], ms[1..], id);
    SaidOne(ms[0], id);
  }

  lemma {:induction false} InSaid(ms: seq<Message>, id: string, m: Message)
    requires m in ms && m.session == id
    ensures KindOf(m.body) in Said(ms, id)
  {
    if ms[|ms| - 1] != m { InSaid(ms[..|ms| - 1], id, m); }
  }

  /** At most one message, about `id` and from `from`. */
  ghost predicate PostedAs(posts: seq<Message>, from: string, id: string, ks: seq<Kind>) {
    && |posts| == |ks| <= 1
    && forall i :: 0 <= i < |posts| ==> posts[i].from == from && posts[i].session == id && KindOf(posts[i].body) == ks[i]
  }

  lemma PostedSays(link: seq<Message>, posts: seq<Message>, from: string, id: string, ks: seq<Kind>, other: string)
    requires PostedAs(posts, from, id, ks) && other != id
    ensures Said(link + posts, id) == Said(link, id) + ks && Said(link + posts, other) == Said(link, other)
  {
    hide Said, KindOf;
    if posts == [] {
      assert link + posts == link && Said(link, id) + ks == Said(link, id);
    } else {
      assert posts == [posts[0]] && ks == [ks[0]];
      SaidAppend(link, posts, id);
      SaidAppend(link, posts, other);
      SaidOne(posts[0], id);
      SaidOne(posts[0], other);
      assert Said(link, other) + [] == Said(link, other);
    }
  }

  lemma {:induction false} PostsAppend(from: string, a: seq<Emit>, b: seq<Emit>)
    ensures Posts(from, a + b) == Posts(from, a) + Posts(from, b)
  {
    if b == [] {
      assert a + b == a;
    } else {
      assert (a + b)[..|a + b| - 1] == a + b[..|b| - 1];
      PostsAppend(from, a, b[..|b| - 1]);
    }
  }

  lemma {:induction false} PostsNone(from: string, emit: seq<Emit>)
    requires forall e :: e in emit ==> !(e.OfCall? && e.op.Send?)
    ensures Posts(from, emit) == []
  {
    if emit != [] {
      assert emit[|emit| - 1] in emit;
      PostsNone(from, emit[..|emit| - 1]);
    }
  }

  lemma PostsOne(from: string, e: Emit)
    ensures Posts(from, [e])
         == if e.OfCall? && e.op.Send? then [Message(from, if e.op.body.Invite? then e.op.session else "", e.op.session, e.op.body)] else []
  {
    assert [e][..0] == [];
  }

  /** Operations that say nothing, or one thing about the call `id`. */
  predicate Speaks(ops: seq<Op>, id: string, ks: seq<Kind>) {
    && |Spoken(ops)| == |ks| <= 1
    && forall i :: 0 <= i < |ks| ==> var op := Spoken(ops)[i]; op.Send? && op.session == id && KindOf(op.body) == ks[i]
  }

  lemma HushedSpeaks(ops: seq<Op>, id: string)
    requires Hushed(ops)
    ensures Speaks(ops, id, [])
  {
    LacksOf(Words, ops);
  }

  lemma SpeaksOnce(before: seq<Op>, op: Op, after: seq<Op>, id: string)
    requires op.Send? && op.session == id && Hushed(before) && Hushed(after)
    ensures Speaks(before + [op] + after, id, [KindOf(op.body)])
  {
    hide Hushed, KindOf;
    SpokenOnce(before, op, after);
  }

  lemma {:induction false} SpokenPosts(from: string, ops: seq<Op>)
    ensures var posts := Posts(from, CallEmits(ops));
            && |posts| == |Spoken(ops)|
            && forall i :: 0 <= i < |posts| ==>
                 var op := Spoken(ops)[i];
                 op.Send? && posts[i].from == from && posts[i].session == op.session && posts[i].body == op.body
  {
    if ops != [] {
      SpokenPosts(from, ops[..|ops| - 1]);
      assert CallEmits(ops)[..|ops| - 1] == CallEmits(ops[..|ops| - 1]);
    }
  }

  lemma SpeaksPosts(from: string, ops: seq<Op>, id: string, ks: seq<Kind>)
    requires Speaks(ops, id, ks)
    ensures PostedAs(Posts(from, CallEmits(ops)), from, id, ks)
  {
    hide KindOf, Posts, Spoken;
    SpokenPosts(from, ops);
  }

  // ---- what a session does of itself, and on hearing the other end

  /** The call an end placed. */
  predicate Ours(s: Session) { s.role == Initiator && s.phase != OFFERED && s.phase != ALERTING }

  /** The call it was offered, in which the other end has so far said nothing but how it ends. */
  predicate Theirs(s: Session) {
    && s.role == Responder && s.inviteExpires.None? && s.phase != INVITING && s.phase != PROCEEDING
    && (s.phase == ENDED || !s.initiatorSpoke)
  }

  /** Ringing, answering, declining, cancelling and hanging up; what is said inside the call is not in question. */
  predicate Controls(v: Verb) {
    v.CancelCall? || v.HangUp? || v.Alert? || v.AutoReject? || v.Accept? || v.Decline?
  }

  predicate EndsCall(v: Verb) { v.CancelCall? || v.HangUp? || v.AutoReject? || v.Decline? }

  lemma OursAsks(cx: Context, now: int, id: string, s: Session, run: set<Name>, v: Verb) returns (said: seq<Kind>)
    requires Ours(s) && Controls(v)
    ensures var o := Requested(cx, now, id, s, run, v);
            && InitiatorDoes(StageOf(Some(s)), StageOf(Some(o.s)), said) && Speaks(o.ops, id, said)
            && Ours(o.s) && o.s.to == s.to && (s.phase != ENDED && o.s.phase == ENDED ==> EndsCall(v))
  {
    hide Speaks;
    var o := Requested(cx, now, id, s, run, v);
    if v.CancelCall? && Pending(s) {
      said := [Cancelled];
      SpeaksOnce(StopAll(run), Send(s.to, id, Cancel("user.cancelled")), EndOps(s.(endedBy := ByCancel), None), id);
    } else if v.HangUp? && s.phase == ACTIVE {
      said := [Farewell];
      SpeaksOnce([], Send(PeerOf(s), id, Bye(Or(v.byeReason, "user.hangup"))), EndOps(s, None), id);
      assert o.ops == [] + [Send(PeerOf(s), id, Bye(Or(v.byeReason, "user.hangup")))] + EndOps(s, None);
    } else {
      said := [];
      HushedSpeaks(o.ops, id);
    }
  }

  lemma TheirsRings(cx: Context, now: int, id: string, s: Session, run: set<Name>, v: Verb) returns (said: seq<Kind>)
    requires Theirs(s) && (v.Alert? || v.Accept?)
    ensures var o := Requested(cx, now, id, s, run, v);
            && ResponderDoes(StageOf(Some(s)), StageOf(Some(o.s)), said) && Speaks(o.ops, id, said)
            && Theirs(o.s) && (o.s.phase == ENDED ==> s.phase == ENDED)
  {
    hide Speaks;
    var o := Requested(cx, now, id, s, run, v);
    if v.Alert? && s.phase == OFFERED {
      said := [Ring];
      SpeaksOnce([], o.ops[0], [o.ops[1]], id);
      assert o.ops == [] + [o.ops[0]] + [o.ops[1]];
    } else if v.Accept? && s.phase == ALERTING {
      said := [Answering];
      var answer := Send(s.to, id, Answer(v.answeredBy, None));
      SpeaksOnce(StopIf(run, TRingLocal), answer, [MediaStart], id);
      assert o.ops == StopIf(run, TRingLocal) + [answer] + [MediaStart];
    } else {
      said := [];
      HushedSpeaks(o.ops, id);
    }
  }

  lemma TheirsEnds(cx: Context, now: int, id: string, s: Session, run: set<Name>, v: Verb) returns (said: seq<Kind>)
    requires Theirs(s) && EndsCall(v)
    ensures var o := Requested(cx, now, id, s, run, v);
            ResponderDoes(StageOf(Some(s)), StageOf(Some(o.s)), said) && Speaks(o.ops, id, said) && Theirs(o.s)
  {
    hide Speaks;
    var o := Requested(cx, now, id, s, run, v);
    if v.HangUp? && s.phase == ACTIVE {
      said := [Farewell];
      SpeaksOnce([], o.ops[0], EndOps(s, None), id);
      assert o.ops == [] + [o.ops[0]] + EndOps(s, None);
    } else if v.AutoReject? && s.phase == OFFERED {
      said := [Refusal];
      SpeaksOnce([], o.ops[0], EndOps(s, None), id);
      assert o.ops == [] + [o.ops[0]] + EndOps(s, None);
    } else if v.Decline? && s.phase == ALERTING {
      said := [Refusal];
      SpeaksOnce(StopIf(run, TRingLocal), Send(s.to, id, Reject(Or(v.declined, "user.declined"), None)), EndOps(s, None), id);
    } else {
      said := [];
      HushedSpeaks(o.ops, id);
    }
  }

  /** Our attempt hears the first answer. */
  lemma OursAnswered(cx: Context, id: string, s: Session, run: set<Name>, m: Message) returns (said: seq<Kind>)
    requires Ours(s) && Pending(s) && KindOf(m.body) == Answering
    ensures var o := Received(cx, id, s, run, m);
            && InitiatorHears(Calling, Answering, StageOf(Some(o.s)), said) && Speaks(o.ops, id, said) && Ours(o.s) && o.s.to == s.to
  {
    hide EffectiveReason, EffectiveAnsweredBy, Speaks, StopAll;
    var o := Received(cx, id, s, run, m);
    StopsHushed(run);
    var before := StopAll(run) + [MediaStart, Ui("answered", EffectiveAnsweredBy(m.body.answeredBy))];
    if m.from != s.to {
      ElsewhereStands();
      said := [Elsewhere];
      var cancel := Send(s.to, id, Cancel(ELSEWHERE));
      SpeaksOnce(before, cancel, [], id);
      assert o.ops == before + [cancel] + [];
    } else {
      said := [];
      assert o.ops == before;
      HushedSpeaks(o.ops, id);
    }
  }

  lemma OursRings(cx: Context, id: string, s: Session, run: set<Name>, m: Message)
    requires Ours(s) && Pending(s) && KindOf(m.body) == Ring
    ensures var o := Received(cx, id, s, run, m);
            StageOf(Some(o.s)) == Calling && Hushed(o.ops) && Ours(o.s) && o.s.to == s.to
  {
    hide Clamp;
  }

  lemma OursHears(cx: Context, id: string, s: Session, run: set<Name>, m: Message) returns (said: seq<Kind>)
    requires Ours(s) && ForInitiator(StageOf(Some(s)), KindOf(m.body))
    ensures var o := Received(cx, id, s, run, m);
            && InitiatorHears(StageOf(Some(s)), KindOf(m.body), StageOf(Some(o.s)), said) && Speaks(o.ops, id, said)
            && Ours(o.s) && o.s.to == s.to
  {
    hide EffectiveReason, EffectiveAnsweredBy, OnProgress, Speaks, StopAll;
    var o := Received(cx, id, s, run, m);
    if Pending(s) && m.body.Answer? {
      said := OursAnswered(cx, id, s, run, m);
    } else if m.body.Answer? {
      said := [Farewell];
      SpeaksOnce([], o.ops[0], [], id);
      assert o.ops == [] + [o.ops[0]] + [];
    } else {
      said := [];
      if Pending(s) && m.body.Progress? { OursRings(cx, id, s, run, m); } else { StopsHushed(run); }
      HushedSpeaks(o.ops, id);
    }
  }

  lemma TheirsHears(cx: Context, id: string, s: Session, run: set<Name>, m: Message) returns (said: seq<Kind>)
    requires Theirs(s) && ForResponder(StageOf(Some(s)), KindOf(m.body)) && StageOf(Some(s)) != Absent && m.session == id
    ensures var o := Received(cx, id, s, run, m);
            && ResponderHears(StageOf(Some(s)), KindOf(m.body), StageOf(Some(o.s)), said) && Speaks(o.ops, id, said) && Theirs(o.s)
  {
    hide EffectiveReason, EffectiveAnsweredBy, Speaks;
    var o := Received(cx, id, s, run, m);
    if s.phase == ACTIVE && KindOf(m.body) == Elsewhere {
      said := [Invalid];
      SpeaksOnce([], InvalidState(m), [], id);
      assert o.ops == [] + [InvalidState(m)] + [];
    } else {
      said := [];
      HushedSpeaks(o.ops, id);
    }
  }

  // ---- what every step keeps

  /** The end knows the other's device by the identity it calls; its sessions and what it sends are about the two calls. */
  ghost predicate Sound(w: Names, n: Pair, a: bool) {
    var e := End(n, a);
    && !e.cx.firstContactRequired && IdentityOf(e.cx, Device(w, !a)) == IdentityOf(e.cx, Called(w, !a))
    && e.sessions.Keys <= {w.small, w.large}
    && (Own(w, a) in e.sessions ==> Ours(e.sessions[Own(w, a)]) && e.sessions[Own(w, a)].to == Called(w, !a))
    && (Own(w, !a) in e.sessions ==> Theirs(e.sessions[Own(w, !a)]))
    && forall m :: m in Going(n, a) ==> m.from == Device(w, a) && m.session in {w.small, w.large}
  }

  /** The call that `o` placed. */
  predicate Fits(w: Names, n: Pair, o: bool) {
    var id := Own(w, o);
    CallFits(StageAt(n, o, id), StageAt(n, !o, id), Said(Going(n, o), id), Said(Going(n, !o), id))
  }

  predicate Live(s: Stage) { s == Rung || s == Talking }

  /** Once both ends have taken up the other's call, one of the two has been given up by the end that placed it. */
  predicate NotBoth(w: Names, n: Pair) {
    Live(StageAt(n, true, w.large)) && Live(StageAt(n, false, w.small)) ==>
      StageAt(n, true, w.small) == Over || StageAt(n, false, w.large) == Over
  }

  /** No invite of `b` comes after its answer to the other's call, while it is in that call. */
  ghost predicate InTurn(w: Names, n: Pair, b: bool) {
    var c, link := Own(w, !b), Going(n, b);
    || StageAt(n, b, c) == Over
    || ((forall i, j :: 0 <= i < j < |link| && link[i].session == c && KindOf(link[i].body) == Answering ==> KindOf(link[j].body) != Offer)
        && (StageAt(n, !b, c) == Talking ==> forall m :: m in link ==> KindOf(m.body) != Offer))
  }

  ghost predicate GlareOk(w: Names, n: Pair) {
    && Less(w.small, w.large) && w.small != w.large
    && Sound(w, n, true) && Sound(w, n, false) && Fits(w, n, true) && Fits(w, n, false)
    && NotBoth(w, n) && InTurn(w, n, true) && InTurn(w, n, false)
  }

  /** One end moves one call: it sends at most one message about it, perhaps on hearing one about it. */
  ghost predicate Turned(w: Names, n: Pair, n': Pair, a: bool, id: string, heard: bool, posts: seq<Message>, said: seq<Kind>) {
    var e, f := End(n, a), End(n', a);
    && (heard ==> Going(n, !a) != [] && Going(n, !a)[0].session == id)
    && n' == After(n, a, heard, f, posts) && f.cx == e.cx
    && id in {w.small, w.large} && id in f.sessions && f.sessions == e.sessions[id := f.sessions[id]]
    && PostedAs(posts, Device(w, a), id, said)
    && (if id == Own(w, a) then Ours(f.sessions[id]) && f.sessions[id].to == Called(w, !a) else Theirs(f.sessions[id]))
  }

  /** The move is one the call allows. */
  predicate Lawful(w: Names, n: Pair, n': Pair, a: bool, id: string, heard: bool, said: seq<Kind>)
    requires heard ==> Going(n, !a) != []
  {
    var s, t := StageAt(n, a, id), StageAt(n', a, id);
    if id == Own(w, a) then
      if heard then InitiatorHears(s, KindOf(Going(n, !a)[0].body), t, said) else InitiatorDoes(s, t, said)
    else
      if heard then ResponderHears(s, KindOf(Going(n, !a)[0].body), t, said) else ResponderDoes(s, t, said)
  }

  lemma TurnFits(w: Names, n: Pair, n': Pair, a: bool, id: string, heard: bool, posts: seq<Message>, said: seq<Kind>, o: bool)
    requires w.small != w.large && Fits(w, n, o)
    requires Turned(w, n, n', a, id, heard, posts, said) && Lawful(w, n, n', a, id, heard, said)
    ensures Fits(w, n', o)
  {
    hide CallFits, Said, KindOf, InitiatorHears, InitiatorDoes, ResponderHears, ResponderDoes, PostedAs, Ours, Theirs, StageOf;
    var c := Own(w, o);
    if c == id {
      PostedSays(Going(n, a), posts, Device(w, a), id, said, Own(w, !o));
      if heard { SaidHead(Going(n, !a), id); }
      var i, r, there, back := StageAt(n, o, c), StageAt(n, !o, c), Said(Going(n, o), c), Said(Going(n, !o), c);
      var t := StageAt(n', a, id);
      if a == o {
        if heard { InitiatorHearsFits(i, r, there, back, t, said); } else { InitiatorDoesFits(i, r, there, back, t, said); }
      } else {
        if heard { ResponderHearsFits(i, r, there, back, t, said); } else { ResponderDoesFits(i, r, there, back, t, said); }
      }
    } else {
      PostedSays(Going(n, a), posts, Device(w, a), id, said, c);
      if heard {
        SaidHead(Going(n, !a), c);
        assert [] + Said(Going(n', !a), c) == Said(Going(n', !a), c);
      }
    }
  }

  lemma TurnSound(w: Names, n: Pair, n': Pair, a: bool, id: string, heard: bool, posts: seq<Message>, said: seq<Kind>)
    requires w.small != w.large && Sound(w, n, a) && Sound(w, n, !a) && Turned(w, n, n', a, id, heard, posts, said)
    ensures Sound(w, n', a) && Sound(w, n', !a)
  {
    hide Ours, Theirs, KindOf;
    assert forall m :: m in posts ==> m.from == Device(w, a) && m.session == id;
    var rest, link := Going(n', !a), Going(n, !a);
    assert forall m :: m in rest ==> m in link;
  }

  /** An answer is on its way only from an end that has been in the call. */
  lemma AnswerSaid(w: Names, n: Pair, b: bool, m: Message)
    requires Fits(w, n, !b) && m in Going(n, b) && m.session == Own(w, !b) && KindOf(m.body) == Answering
    ensures var r := StageAt(n, b, Own(w, !b)); r == Talking || r == Over
  {
    hide CallFits, Said;
    var c := Own(w, !b);
    InSaid(Going(n, b), c, m);
    BackFits(StageAt(n, !b, c), StageAt(n, b, c), Said(Going(n, !b), c), Said(Going(n, b), c));
  }

  lemma TalkingAlone(w: Names, n: Pair, b: bool)
    requires Fits(w, n, !b) && StageAt(n, !b, Own(w, !b)) == Talking
    ensures var r := StageAt(n, b, Own(w, !b)); r == Talking || r == Over
  {
  }

  lemma SpeakerInTurn(w: Names, n: Pair, n': Pair, a: bool, id: string, heard: bool, posts: seq<Message>, said: seq<Kind>)
    requires w.small != w.large && Fits(w, n, !a) && InTurn(w, n, a)
    requires Turned(w, n, n', a, id, heard, posts, said)
    requires Over == StageAt(n, a, Own(w, !a)) ==> Over == StageAt(n', a, Own(w, !a))
    requires Offer in said ==> StageAt(n, a, Own(w, !a)) != Talking
    ensures InTurn(w, n', a)
  {
    hide Fits, KindOf, StageOf, Ours, Theirs;
    var c := Own(w, !a);
    if StageAt(n', a, c) != Over {
      var link, more := Going(n, a), Going(n', a);
      assert more == link + posts && StageAt(n', !a, c) == StageAt(n, !a, c);
      forall i, j | 0 <= i < j < |more| && more[i].session == c && KindOf(more[i].body) == Answering
        ensures KindOf(more[j].body) != Offer
      {
        if j >= |link| && KindOf(more[j].body) == Offer {
          assert said[0] == Offer && more[i] == link[i];
          AnswerSaid(w, n, a, link[i]);
        }
      }
      if StageAt(n, !a, c) == Talking { TalkingAlone(w, n, a); }
    }
  }

  lemma HearerInTurn(w: Names, n: Pair, n': Pair, a: bool, id: string, heard: bool, posts: seq<Message>, said: seq<Kind>)
    requires w.small != w.large && InTurn(w, n, !a)
    requires Turned(w, n, n', a, id, heard, posts, said) && Lawful(w, n, n', a, id, heard, said)
    ensures InTurn(w, n', !a)
  {
    hide KindOf, StageOf, Ours, Theirs;
    var c := Own(w, a);
    var link, rest := Going(n, !a), Going(n', !a);
    assert StageAt(n', !a, c) == StageAt(n, !a, c);
    if StageAt(n, !a, c) != Over {
      assert forall m :: m in rest ==> m in link;
      if StageAt(n', a, c) == Talking && StageAt(n, a, c) != Talking {
        forall m | m in rest ensures KindOf(m.body) != Offer {
          var j :| 0 <= j < |rest| && rest[j] == m;
          assert link[j + 1] == m && link[0].session == c && KindOf(link[0].body) == Answering;
        }
      }
    }
  }

  /** A move by which an end takes up the other's call only while no more than one of the two is kept. */
  predicate TakesUpFairly(w: Names, n: Pair, n': Pair, a: bool) {
    var own, c := Own(w, a), Own(w, !a);
    StageAt(n, a, c) == Absent && Live(StageAt(n', a, c)) && Live(StageAt(n, !a, own)) ==>
      StageAt(n, a, own) == Over || StageAt(n, !a, c) == Over
  }

  lemma TurnNotBoth(w: Names, n: Pair, n': Pair, a: bool, id: string, heard: bool, posts: seq<Message>, said: seq<Kind>)
    requires w.small != w.large && NotBoth(w, n) && TakesUpFairly(w, n, n', a)
    requires Turned(w, n, n', a, id, heard, posts, said) && Lawful(w, n, n', a, id, heard, said)
    ensures NotBoth(w, n')
  {
    hide KindOf, StageOf, Ours, Theirs;
    var own, c := Own(w, a), Own(w, !a);
    assert StageAt(n', !a, own) == StageAt(n, !a, own) && StageAt(n', !a, c) == StageAt(n, !a, c);
    assert id == c ==> StageAt(n', a, own) == StageAt(n, a, own);
    assert id == own ==> StageAt(n', a, c) == StageAt(n, a, c);
    assert StageAt(n, a, own) == Over ==> StageAt(n', a, own) == Over;
    assert Live(StageAt(n', a, c)) ==> StageAt(n, a, c) == Absent || Live(StageAt(n, a, c));
  }

  lemma TurnKeeps(w: Names, n: Pair, n': Pair, a: bool, id: string, heard: bool, posts: seq<Message>, said: seq<Kind>)
    requires GlareOk(w, n) && Turned(w, n, n', a, id, heard, posts, said) && Lawful(w, n, n', a, id, heard, said)
    requires TakesUpFairly(w, n, n', a) && (Offer in said ==> StageAt(n, a, Own(w, !a)) != Talking)
    ensures GlareOk(w, n')
  {
    hide Turned, Lawful, Fits, Sound, InTurn, NotBoth, TakesUpFairly, StageOf;
    TurnFits(w, n, n', a, id, heard, posts, said, true);
    TurnFits(w, n, n', a, id, heard, posts, said, false);
    TurnSound(w, n, n', a, id, heard, posts, said);
    TurnNotBoth(w, n, n', a, id, heard, posts, said);
    OverStays(w, n, n', a, id, heard, posts, said, Own(w, !a));
    SpeakerInTurn(w, n, n', a, id, heard, posts, said);
    HearerInTurn(w, n, n', a, id, heard, posts, said);
  }

  lemma OverStays(w: Names, n: Pair, n': Pair, a: bool, id: string, heard: bool, posts: seq<Message>, said: seq<Kind>, c: string)
    requires Turned(w, n, n', a, id, heard, posts, said) && Lawful(w, n, n', a, id, heard, said)
    ensures StageAt(n, a, c) == Over ==> StageAt(n', a, c) == Over
  {
    hide KindOf, StageOf, Ours, Theirs;
  }

  // ---- the smaller call stands unless one of its ends gives it up

  predicate Unended(w: Names, n: Pair) {
    StageAt(n, true, w.small) != Over && StageAt(n, false, w.small) != Over
  }

  predicate GivesUp(ev: Event, id: string) { ev.Asks? && ev.id == id && EndsCall(ev.v) }

  lemma ThereFits(i: Stage, r: Stage, there: seq<Kind>, back: seq<Kind>)
    requires CallFits(i, r, there, back) && (Cancelled in there || Farewell in there)
    ensures i == Over
  {
  }

  lemma TurnSpares(w: Names, n: Pair, n': Pair, a: bool, id: string, heard: bool, posts: seq<Message>, said: seq<Kind>)
    requires GlareOk(w, n) && Turned(w, n, n', a, id, heard, posts, said) && Lawful(w, n, n', a, id, heard, said) && Unended(w, n)
    requires id == w.small && !(heard && KindOf(Going(n, !a)[0].body) != Offer) ==> StageAt(n', a, id) != Over
    ensures Unended(w, n')
  {
    hide KindOf, StageOf, Ours, Theirs, Sound, InTurn, NotBoth, CallFits, Said, Less, PostedAs;
    var c := w.small;
    if id == c && heard {
      var i, r, there, back := StageAt(n, true, c), StageAt(n, false, c), Said(n.p, c), Said(n.q, c);
      assert CallFits(i, r, there, back) by { assert Fits(w, n, true); }
      SaidHead(Going(n, !a), c);
      BackFits(i, r, there, back);
      if Cancelled in there || Farewell in there { ThereFits(i, r, there, back); }
    }
  }

  lemma QuietlyFair(w: Names, n: Pair, n': Pair, a: bool, id: string, heard: bool, posts: seq<Message>, said: seq<Kind>)
    requires Turned(w, n, n', a, id, heard, posts, said) && Lawful(w, n, n', a, id, heard, said)
    requires id == Own(w, a) || !heard || KindOf(Going(n, !a)[0].body) != Offer
    ensures TakesUpFairly(w, n, n', a)
  {
    hide KindOf, StageOf, Ours, Theirs, PostedAs;
  }

  /** What an event must not spoil. */
  ghost predicate Keeps(w: Names, n: Pair, ev: Event) {
    GlareOk(w, Step(w, n, ev)) && (Unended(w, n) && !GivesUp(ev, w.small) ==> Unended(w, Step(w, n, ev)))
  }

  lemma NothingNew(n: Pair, a: bool)
    ensures After(n, a, false, End(n, a), []) == n
  {
    assert n.p + [] == n.p && n.q + [] == n.q;
  }

  lemma PlacesKeeps(w: Names, n: Pair, a: bool)
    requires GlareOk(w, n) && StageAt(n, a, Own(w, !a)) != Talking
    ensures Keeps(w, n, Places(a))
  {
    hide Posts, Less, InTurn, NotBoth, Fits, PostedAs, Speaks;
    var e, id, to := End(n, a), Own(w, a), Called(w, !a);
    var r := OnPlaceCall(e, id, to);
    var n' := Step(w, n, Places(a));
    if id in e.sessions {
      PostsNone(Device(w, a), r.emit);
      NothingNew(n, a);
    } else {
      var ops := PlaceOps(e.cx, id, to);
      SpeaksOnce([], ops[0], [ops[1]], id);
      assert ops == [] + [ops[0]] + [ops[1]];
      SpeaksPosts(Device(w, a), ops, id, [Offer]);
      var posts := Posts(Device(w, a), r.emit);
      assert Turned(w, n, n', a, id, false, posts, [Offer]);
      QuietlyFair(w, n, n', a, id, false, posts, [Offer]);
      TurnKeeps(w, n, n', a, id, false, posts, [Offer]);
      if Unended(w, n) { TurnSpares(w, n, n', a, id, false, posts, [Offer]); }
    }
  }

  lemma AsksKeeps(w: Names, n: Pair, a: bool, id: string, v: Verb)
    requires GlareOk(w, n) && Controls(v)
    ensures Keeps(w, n, Asks(a, id, v))
  {
    hide KindOf, Posts, Less, InTurn, NotBoth, Fits, PostedAs, Speaks, Requested, ApplyOps, InitiatorDoes, ResponderDoes;
    var e := End(n, a);
    var r := OnLocal(e, id, v);
    var n' := Step(w, n, Asks(a, id, v));
    if id !in e.sessions {
      PostsNone(Device(w, a), r.emit);
      NothingNew(n, a);
    } else {
      var s, run := e.sessions[id], RunningOf(e.timers, id);
      var o := Requested(e.cx, e.timers.now, id, s, run, v);
      var said := AskedSays(w, n, a, id, v);
      SpeaksPosts(Device(w, a), o.ops, id, said);
      var posts := Posts(Device(w, a), r.emit);
      assert Turned(w, n, n', a, id, false, posts, said);
      QuietlyFair(w, n, n', a, id, false, posts, said);
      TurnKeeps(w, n, n', a, id, false, posts, said);
      if Unended(w, n) && !GivesUp(Asks(a, id, v), w.small) { TurnSpares(w, n, n', a, id, false, posts, said); }
    }
  }

  lemma AskedSays(w: Names, n: Pair, a: bool, id: string, v: Verb) returns (said: seq<Kind>)
    requires w.small != w.large && Sound(w, n, a) && Controls(v) && id in End(n, a).sessions
    ensures var e := End(n, a);
            var s, o := e.sessions[id], Requested(e.cx, e.timers.now, id, e.sessions[id], RunningOf(e.timers, id), v);
            && Speaks(o.ops, id, said) && Offer !in said
            && (s.phase != ENDED && o.s.phase == ENDED ==> EndsCall(v))
            && (if id == Own(w, a) then InitiatorDoes(StageOf(Some(s)), StageOf(Some(o.s)), said) && Ours(o.s) && o.s.to == s.to
                else ResponderDoes(StageOf(Some(s)), StageOf(Some(o.s)), said) && Theirs(o.s))
  {
    hide Speaks, Requested;
    var e := End(n, a);
    var s, run := e.sessions[id], RunningOf(e.timers, id);
    if id == Own(w, a) { said := OursAsks(e.cx, e.timers.now, id, s, run, v); }
    else if EndsCall(v) { said := TheirsEnds(e.cx, e.timers.now, id, s, run, v); }
    else { said := TheirsRings(e.cx, e.timers.now, id, s, run, v); }
  }

  // ---- hearing

  /** What comes first on a link is what its call lets come. */
  lemma HeadExpected(w: Names, n: Pair, a: bool)
    requires GlareOk(w, n) && Going(n, !a) != []
    ensures var m := Going(n, !a)[0];
            && m.session in {w.small, w.large} && m.from == Device(w, !a)
            && if m.session == Own(w, a) then ForInitiator(StageAt(n, a, m.session), KindOf(m.body))
               else ForResponder(StageAt(n, a, m.session), KindOf(m.body))
  {
    hide KindOf, StageOf, Ours, Theirs, InTurn, NotBoth, CallFits, Said, Less;
    var m := Going(n, !a)[0];
    assert m in Going(n, !a) && Sound(w, n, !a);
    SaidHead(Going(n, !a), m.session);
    var o := m.session == w.small;
    var c := Own(w, o);
    assert Fits(w, n, o);
    var i, r, there, back := StageAt(n, o, c), StageAt(n, !o, c), Said(Going(n, o), c), Said(Going(n, !o), c);
    if a == o { InitiatorExpects(i, r, there, back); } else { ResponderExpects(i, r, there, back); }
  }

  lemma HearsQuietly(w: Names, n: Pair, a: bool)
    requires GlareOk(w, n) && Going(n, !a) != [] && KindOf(Going(n, !a)[0].body) != Offer
    ensures Keeps(w, n, Hears(a))
  {
    hide Posts, Less, InTurn, NotBoth, Fits, PostedAs, Speaks, Received, ApplyOps, InitiatorHears, ResponderHears;
    HeadExpected(w, n, a);
    var e, m := End(n, a), Going(n, !a)[0];
    var id, n' := m.session, Step(w, n, Hears(a));
    assert id in e.sessions && !m.body.Invite?;
    var o := Received(e.cx, id, e.sessions[id], RunningOf(e.timers, id), m);
    var said := HeardSays(w, n, a);
    SpeaksPosts(Device(w, a), o.ops, id, said);
    var posts := Posts(Device(w, a), Hear(e, m).emit);
    assert Turned(w, n, n', a, id, true, posts, said);
    QuietlyFair(w, n, n', a, id, true, posts, said);
    TurnKeeps(w, n, n', a, id, true, posts, said);
    if Unended(w, n) { TurnSpares(w, n, n', a, id, true, posts, said); }
  }

  lemma HeardSays(w: Names, n: Pair, a: bool) returns (said: seq<Kind>)
    requires GlareOk(w, n) && Going(n, !a) != [] && KindOf(Going(n, !a)[0].body) != Offer
    requires var m := Going(n, !a)[0];
             && m.session in End(n, a).sessions && !m.body.Invite?
             && if m.session == Own(w, a) then ForInitiator(StageAt(n, a, m.session), KindOf(m.body))
                else m.session == Own(w, !a) && ForResponder(StageAt(n, a, m.session), KindOf(m.body))
    ensures var e, m := End(n, a), Going(n, !a)[0];
            var s, o := e.sessions[m.session], Received(e.cx, m.session, e.sessions[m.session], RunningOf(e.timers, m.session), m);
            && Speaks(o.ops, m.session, said) && Offer !in said
            && (if m.session == Own(w, a)
                then InitiatorHears(StageOf(Some(s)), KindOf(m.body), StageOf(Some(o.s)), said) && Ours(o.s) && o.s.to == s.to
                else ResponderHears(StageOf(Some(s)), KindOf(m.body), StageOf(Some(o.s)), said) && Theirs(o.s))
  {
    hide Speaks, Received, KindOf, Fits, InTurn, NotBoth;
    var e, m := End(n, a), Going(n, !a)[0];
    var id := m.session;
    var s, run := e.sessions[id], RunningOf(e.timers, id);
    assert Sound(w, n, a);
    if id == Own(w, a) { said := OursHears(e.cx, id, s, run, m); } else { said := TheirsHears(e.cx, id, s, run, m); }
  }

  // ---- hearing an invite

  /** The other call is the only one this end may have placed to the inviter. */
  lemma RivalsAre(w: Names, n: Pair, a: bool)
    requires Sound(w, n, a) && Own(w, !a) !in End(n, a).sessions
    ensures Rivals(End(n, a), IdentityOf(End(n, a).cx, Device(w, !a))) == if StageAt(n, a, Own(w, a)) == Calling then {Own(w, a)} else {}
  {
  }

  /** An invite that reaches this end is for a call it does not hold, and is not held against one under way. */
  ghost predicate Invited(w: Names, n: Pair, a: bool) {
    && Going(n, !a) != [] && KindOf(Going(n, !a)[0].body) == Offer && Going(n, !a)[0].session == Own(w, !a)
    && Going(n, !a)[0].from == Device(w, !a) && Own(w, !a) !in End(n, a).sessions
  }

  lemma OfferedFairly(w: Names, n: Pair, a: bool)
    requires GlareOk(w, n) && Invited(w, n, a) && StageAt(n, a, Own(w, a)) != Calling && Live(StageAt(n, !a, Own(w, a)))
    ensures StageAt(n, a, Own(w, a)) == Over
  {
    hide KindOf, StageOf, Sound, NotBoth, Said, Less;
    assert Fits(w, n, a) && InTurn(w, n, !a);
    assert Going(n, !a)[0] in Going(n, !a);
  }

  lemma OfferedKeeps(w: Names, n: Pair, a: bool)
    requires GlareOk(w, n) && Invited(w, n, a) && StageAt(n, a, Own(w, a)) != Calling
    ensures Keeps(w, n, Hears(a))
  {
    hide Posts, Less, InTurn, NotBoth, Fits;
    var e, m := End(n, a), Going(n, !a)[0];
    var id, n' := m.session, Step(w, n, Hears(a));
    assert Sound(w, n, a);
    RivalsAre(w, n, a);
    var r := Hear(e, m);
    PostsOne(Device(w, a), OfCall(Ui("offered", "")));
    assert r == Result(Offered(e, m, None), [OfCall(Ui("offered", ""))]);
    assert PostedAs([], Device(w, a), id, []);
    assert Turned(w, n, n', a, id, true, [], []);
    if Live(StageAt(n, !a, Own(w, a))) { OfferedFairly(w, n, a); }
    TurnKeeps(w, n, n', a, id, true, [], []);
    if Unended(w, n) { TurnSpares(w, n, n', a, id, true, [], []); }
  }

  /** Ours is the smaller and still outstanding: theirs is refused. */
  lemma RefusedKeeps(w: Names, n: Pair)
    requires GlareOk(w, n) && Invited(w, n, true) && StageAt(n, true, w.small) == Calling
    ensures Keeps(w, n, Hears(true))
  {
    hide Posts, InTurn, NotBoth, Fits, PostedAs, Speaks;
    var e, m := n.x, n.q[0];
    var id, n' := m.session, Step(w, n, Hears(true));
    assert Sound(w, n, true);
    RivalsAre(w, n, true);
    assert Least({w.small}) == w.small;
    var refusal := Send(m.from, id, Reject("session.glare", None));
    var r := Hear(e, m);
    assert r.emit == CallEmits([refusal]) && r.e.sessions == e.sessions[id := NewOffer(ENDED, m.from, None)];
    SpeaksOnce([], refusal, [], id);
    assert [] + [refusal] + [] == [refusal];
    SpeaksPosts(w.xDevice, [refusal], id, [Refusal]);
    var posts := Posts(w.xDevice, r.emit);
    assert Turned(w, n, n', true, id, true, posts, [Refusal]);
    TurnKeeps(w, n, n', true, id, true, posts, [Refusal]);
    if Unended(w, n) { TurnSpares(w, n, n', true, id, true, posts, [Refusal]); }
  }

  /** The net after `y` has withdrawn its own call and before it has taken up the other. */
  function Withdrew(w: Names, n: Pair): Pair
    requires w.large in n.y.sessions
  {
    var o := Withdrawn(n.y, w.large);
    After(n, false, false, Take(n.y, w.large, o), Posts(w.yDevice, CallEmits(o.ops)))
  }

  lemma WithdrawnSays(e: Endpoint, id: string)
    requires id in e.sessions && Ours(e.sessions[id]) && Pending(e.sessions[id])
    ensures var s, o := e.sessions[id], Withdrawn(e, id);
            Speaks(o.ops, id, [Cancelled]) && Ours(o.s) && o.s.to == s.to && o.s.phase == ENDED
  {
    hide Speaks, StopAll;
    var s, run, o := e.sessions[id], RunningOf(e.timers, id), Withdrawn(e, id);
    var cancel := Send(s.to, id, Cancel("session.glare"));
    var ends := EndOps(s.(endedBy := ByCancel), Some("session.glare"));
    StopsHushed(run);
    SpeaksOnce(StopAll(run), cancel, ends, id);
    assert o.ops == StopAll(run) + [cancel] + ends;
    assert KindOf(cancel.body) == Cancelled;
  }

  lemma WithdrewKeeps(w: Names, n: Pair)
    requires GlareOk(w, n) && StageAt(n, false, w.large) == Calling
    ensures var n' := Withdrew(w, n);
            GlareOk(w, n') && (Unended(w, n) ==> Unended(w, n')) && StageAt(n', false, w.large) == Over
            && n'.p == n.p && n'.y.sessions.Keys == n.y.sessions.Keys && n'.x == n.x
  {
    hide Posts, Less, InTurn, NotBoth, Fits, PostedAs, Speaks, ApplyOps, Withdrawn, KindOf;
    var id, n' := w.large, Withdrew(w, n);
    assert Sound(w, n, false);
    var o := Withdrawn(n.y, id);
    WithdrawnSays(n.y, id);
    SpeaksPosts(w.yDevice, o.ops, id, [Cancelled]);
    var posts := Posts(w.yDevice, CallEmits(o.ops));
    assert Turned(w, n, n', false, id, false, posts, [Cancelled]);
    QuietlyFair(w, n, n', false, id, false, posts, [Cancelled]);
    TurnKeeps(w, n, n', false, id, false, posts, [Cancelled]);
    if Unended(w, n) { TurnSpares(w, n, n', false, id, false, posts, [Cancelled]); }
  }

  /** Theirs is the smaller: ours is withdrawn, and then theirs is offered as it would be had we not called. */
  lemma YieldIsTwo(w: Names, n: Pair)
    requires GlareOk(w, n) && Invited(w, n, false) && StageAt(n, false, w.large) == Calling
    ensures Step(w, n, Hears(false)) == Step(w, Withdrew(w, n), Hears(false))
  {
    hide Posts, InTurn, NotBoth, Fits, PostedAs, ApplyOps, Withdrawn;
    var m, v := n.p[0], Withdrew(w, n);
    assert m.body.Invite? && m.body.expiresAt.None?;
    assert Sound(w, n, false);
    WithdrewKeeps(w, n);
    assert Sound(w, v, false);
    RivalsAre(w, n, false);
    RivalsAre(w, v, false);
    assert Least({w.large}) == w.large;
    LessTotal(w.small, w.large);
    SortedOne(w.large);
    assert [w.large][..0] == [];
    assert WithdrawEach(n.y, []) == Result(n.y, []);
    var said := CallEmits(Withdrawn(n.y, w.large).ops);
    assert WithdrawEach(n.y, [w.large]) == Result(v.y, [] + said);
    assert [] + said == said;
    PostsAppend(w.yDevice, said, [OfCall(Ui("offered", ""))]);
    PostsOne(w.yDevice, OfCall(Ui("offered", "")));
    assert v.q + [] == v.q && Posts(w.yDevice, said) + [] == Posts(w.yDevice, said);
  }

  lemma InvitedKeeps(w: Names, n: Pair, a: bool)
    requires GlareOk(w, n) && Invited(w, n, a)
    ensures Keeps(w, n, Hears(a))
  {
    hide Step, GlareOk, KindOf;
    if StageAt(n, a, Own(w, a)) != Calling {
      OfferedKeeps(w, n, a);
    } else if a {
      RefusedKeeps(w, n);
    } else {
      WithdrewKeeps(w, n);
      YieldIsTwo(w, n);
      OfferedKeeps(w, Withdrew(w, n), false);
    }
  }

  lemma HearsKeeps(w: Names, n: Pair, a: bool)
    requires GlareOk(w, n)
    ensures Keeps(w, n, Hears(a))
  {
    hide KindOf, InTurn, NotBoth, Fits, Less;
    if Going(n, !a) != [] {
      HeadExpected(w, n, a);
      if KindOf(Going(n, !a)[0].body) == Offer { InvitedKeeps(w, n, a); } else { HearsQuietly(w, n, a); }
    }
  }

  // ---- every run

  /** An end does not place its own call while it is in the other. */
  predicate Enabled(w: Names, n: Pair, ev: Event) {
    match ev
    case Places(a) => StageAt(n, a, Own(w, !a)) != Talking
    case Asks(_, _, v) => Controls(v)
    case Hears(_) => true
  }

  ghost predicate Legal(w: Names, n: Pair, evs: seq<Event>)
    decreases |evs|
  {
    evs == [] || (Enabled(w, n, evs[0]) && Legal(w, Step(w, n, evs[0]), evs[1..]))
  }

  ghost function Run(w: Names, n: Pair, evs: seq<Event>): Pair
    decreases |evs|
  {
    if evs == [] then n else Run(w, Step(w, n, evs[0]), evs[1..])
  }

  predicate GivenUp(evs: seq<Event>, id: string) { exists ev :: ev in evs && GivesUp(ev, id) }

  lemma StepKeeps(w: Names, n: Pair, ev: Event)
    requires GlareOk(w, n) && Enabled(w, n, ev)
    ensures Keeps(w, n, ev)
  {
    hide GlareOk, Keeps;
    match ev
    case Places(a) => PlacesKeeps(w, n, a);
    case Asks(a, id, v) => AsksKeeps(w, n, a, id, v);
    case Hears(a) => HearsKeeps(w, n, a);
  }

  lemma {:induction false} RunKeeps(w: Names, n: Pair, evs: seq<Event>)
    requires GlareOk(w, n) && Legal(w, n, evs)
    ensures GlareOk(w, Run(w, n, evs)) && (Unended(w, n) && !GivenUp(evs, w.small) ==> Unended(w, Run(w, n, evs)))
    decreases |evs|
  {
    hide GlareOk, Unended, GivesUp, Step, Enabled;
    if evs != [] {
      assert evs[0] in evs && forall ev :: ev in evs[1..] ==> ev in evs;
      StepKeeps(w, n, evs[0]);
      RunKeeps(w, Step(w, n, evs[0]), evs[1..]);
    }
  }

  /** Two ends with no call between them, each knowing the other's device by the identity it calls. */
  predicate Fresh(w: Names, n: Pair) {
    && Less(w.small, w.large) && n.x.sessions == map[] && n.y.sessions == map[] && n.p == [] && n.q == []
    && !n.x.cx.firstContactRequired && !n.y.cx.firstContactRequired
    && IdentityOf(n.x.cx, w.yDevice) == IdentityOf(n.x.cx, w.yName)
    && IdentityOf(n.y.cx, w.xDevice) == IdentityOf(n.y.cx, w.xName)
  }

  /** Both ends say the same of a call: none, calling and ringing, in the call, or over. */
  predicate Agreed(n: Pair, o: bool, id: string) {
    var i, r := StageAt(n, o, id), StageAt(n, !o, id);
    (i == Calling && r == Rung) || (i == r && i != Calling && i != Rung)
  }

  predicate OverAtBoth(n: Pair, id: string) { StageAt(n, true, id) == Over && StageAt(n, false, id) == Over }

  lemma Settled(w: Names, n: Pair, o: bool)
    requires GlareOk(w, n) && n.p == [] && n.q == []
    ensures Agreed(n, o, Own(w, o))
  {
    hide Sound, InTurn, NotBoth, StageOf, KindOf, Less;
    assert Fits(w, n, o);
    assert Said([], Own(w, o)) == [];
  }

  lemma FreshOk(w: Names, n: Pair)
    requires Fresh(w, n)
    ensures GlareOk(w, n) && Unended(w, n)
  {
    LessTotal(w.small, w.large);
    assert Said([], w.small) == [] && Said([], w.large) == [];
  }

  /**
   * However two calls cross, and whatever either end asks of them meanwhile, once every message has arrived both ends say
   * the same of each call and at most one of the two is left. The smaller id's call is over only if one of its ends
   * cancelled, declined or hung it up; so unless it was given up, the larger one is over at both ends.
   */
  lemma SmallerCallIsLeft(w: Names, n: Pair, evs: seq<Event>)
    requires Fresh(w, n) && Legal(w, n, evs) && Run(w, n, evs).p == [] && Run(w, n, evs).q == []
    ensures var e := Run(w, n, evs);
            && Agreed(e, true, w.small) && Agreed(e, false, w.large)
            && (StageAt(e, true, w.small) != Absent && StageAt(e, false, w.large) != Absent ==>
                  OverAtBoth(e, w.small) || OverAtBoth(e, w.large))
            && (OverAtBoth(e, w.small) ==> GivenUp(evs, w.small))
  {
    hide Sound, Fits, InTurn, StageOf, Less, Fresh;
    FreshOk(w, n);
    RunKeeps(w, n, evs);
    var e := Run(w, n, evs);
    Settled(w, e, true);
    Settled(w, e, false);
    assert NotBoth(w, e);
  }
}
