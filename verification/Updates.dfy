/**
 * Renegotiation between the two ends of a session in progress, over FIFO links: which updates each end applies,
 * whatever the interleaving and however the glare falls.
 */
module Updates {
  import opened Prelude
  import opened TimerTable
  import opened Calls
  import opened ForkedCall

  /**
   * One end: its session, the update it was about while it was still in the session, what is on its way to it, what
   * came after it had left, and the ids of the updates it applied, in order.
   */
  datatype Side = Side(s: Session, about: Outstanding, link: seq<Body>, left: seq<Body>, applied: seq<string>)

  /** The two ends and every update id used so far. */
  datatype Duo = Duo(x: Side, y: Side, used: set<string>)

  datatype Move =
    | Does(cx: Context, now: int, id: string, v: Verb)
    | Hears(cx: Context, id: string)

  datatype Event = ByX(m: Move) | ByY(m: Move)

  function Mirror(d: Duo): Duo { Duo(d.y, d.x, d.used) }

  function After(x: Side, o: Outcome, ref: string): Side {
    x.(s := o.s, about := if o.s.phase == ACTIVE then o.s.outstanding else x.about,
       applied := if ApplyUpdate in o.ops then x.applied + [ref] else x.applied)
  }

  predicate MayDo(d: Duo, m: Move) {
    match m
    case Does(_, _, _, v) => v.SendUpdate? ==> v.uid !in d.used
    case Hears(_, _) => d.x.link != []
  }

  function RefOf(v: Verb): string {
    if v.AnswerUpdate? then v.inReplyTo else ""
  }

  function RefIn(b: Body): string {
    if b.Answer? then Or(b.inReplyTo, "") else ""
  }

  /** The first end moves; ids of updates are used once. */
  function Moved(d: Duo, m: Move): Duo
    requires MayDo(d, m)
  {
    match m
    case Does(cx, now, id, v) =>
      var o := Requested(cx, now, id, d.x.s, {}, v);
      Duo(After(d.x, o, RefOf(v)), d.y.(link := d.y.link + Bodies(Sends(o.ops))),
          if v.SendUpdate? then d.used + {v.uid} else d.used)
    case Hears(cx, id) =>
      var b := d.x.link[0];
      var rest := d.x.(link := d.x.link[1..]);
      if d.x.s.phase == ENDED || b.Invite? then Duo(rest.(left := d.x.left + [b]), d.y, d.used)
      else
        var o := Received(cx, id, d.x.s, {}, Message("", "", id, b));
        Duo(After(rest, o, RefIn(b)), d.y.(link := d.y.link + Bodies(Sends(o.ops))), d.used)
  }

  predicate Enabled(d: Duo, ev: Event) {
    match ev case ByX(m) => MayDo(d, m) case ByY(m) => MayDo(Mirror(d), m)
  }

  function Step(d: Duo, ev: Event): Duo
    requires Enabled(d, ev)
  {
    match ev case ByX(m) => Moved(d, m) case ByY(m) => Mirror(Moved(Mirror(d), m))
  }

  // ---- updates and replies in flight

  datatype Token = Offer(id: string) | Reply(id: string, ok: bool)

  function TokenOf(b: Body): seq<Token> {
    match b
    case Update(uid, _) => [Offer(uid)]
    case Answer(_, ref) => if ref.Some? then [Reply(ref.value, true)] else []
    case Reject(_, ref) => if ref.Some? then [Reply(ref.value, false)] else []
    case _ => []
  }

  function Tokens(q: seq<Body>): seq<Token> {
    if q == [] then [] else Tokens(q[..|q| - 1]) + TokenOf(q[|q| - 1])
  }

  /** A reply matters only to the end whose update it answers. */
  predicate Matters(t: Token, about: Outstanding) {
    t.Reply? ==> about == Outbound(t.id)
  }

  function Live(ts: seq<Token>, about: Outstanding): seq<Token> {
    if ts == [] then []
    else Live(ts[..|ts| - 1], about) + if Matters(ts[|ts| - 1], about) then [ts[|ts| - 1]] else []
  }

  function To(x: Side): seq<Token> {
    Live(Tokens(x.left + x.link), x.about)
  }

  /** Where an end stands: what it is about, what matters to it of what is on its way, and what it applied. */
  datatype Stand = Stand(about: Outstanding, to: seq<Token>, applied: seq<string>)

  function StandOf(x: Side): Stand { Stand(x.about, To(x), x.applied) }

  /** Between the two ends, where the far one may have replied: it has applied what the reply says. */
  predicate Ahead(far: Stand, near: Stand, ok: bool, u: string) {
    far.applied == if ok then near.applied + [u] else near.applied
  }

  predicate Same(x: Stand, y: Stand) { x.applied == y.applied }

  predicate Idle(x: Stand, y: Stand) {
    x == Stand(NoUpdate, [], x.applied) && y == Stand(NoUpdate, [], x.applied)
  }

  /** The first end has offered `u` and the other has nothing of its own. */
  predicate Offering(x: Stand, y: Stand, u: string) {
    && x.about == Outbound(u)
    && (|| (y.about == NoUpdate && x.to == [] && y.to == [Offer(u)] && Same(x, y))
        || (y.about == Inbound(u) && x.to == [] && y.to == [] && Same(x, y)))
  }

  /** ... or has replied to it, and perhaps offered `v` since. */
  predicate Replied(x: Stand, y: Stand, u: string, ok: bool) {
    && x.about == Outbound(u) && y.to == [] && Ahead(y, x, ok, u)
    && (|| (y.about == NoUpdate && x.to == [Reply(u, ok)])
        || (y.about.Outbound? && y.about.id != u && x.to == [Reply(u, ok), Offer(y.about.id)]))
  }

  /** Both have offered, and neither offer, or only the losing one, has arrived. */
  predicate Crossing(x: Stand, y: Stand, u: string, v: string) {
    && x.about == Outbound(u) && y.about == Outbound(v) && u != v && Same(x, y)
    && (|| (x.to == [Offer(v)] && y.to == [Offer(u)])
        || (Less(u, v) && x.to == [] && y.to == [Offer(u), Reply(v, false)]))
  }

  /** The other end gave its own offer `v` up for `u`, and `v` is still on its way. */
  predicate Yielding(x: Stand, y: Stand, u: string, v: string) {
    x.about == Outbound(u) && y.about == Inbound(u) && Less(u, v) && x.to == [Offer(v)] && y.to == [] && Same(x, y)
  }

  predicate Yielded(x: Stand, y: Stand, u: string, v: string, ok: bool) {
    && x.about == Outbound(u) && Less(u, v) && y.to == [] && Ahead(y, x, ok, u)
    && (|| (y.about == NoUpdate && x.to == [Offer(v), Reply(u, ok)])
        || (y.about.Outbound? && y.about.id != u && y.about.id != v && x.to == [Offer(v), Reply(u, ok), Offer(y.about.id)]))
  }

  ghost predicate Leads(x: Stand, y: Stand) {
    || Idle(x, y)
    || (exists u :: Offering(x, y, u))
    || (exists u, ok :: Replied(x, y, u, ok))
    || (exists u, v :: Crossing(x, y, u, v))
    || (exists u, v :: Yielding(x, y, u, v))
    || (exists u, v, ok :: Yielded(x, y, u, v, ok))
  }

  ghost predicate Fits(x: Stand, y: Stand) {
    Leads(x, y) || Leads(y, x)
  }

  predicate InSession(b: Body) { ForActive(b) || b.Error? }

  ghost predicate SideOk(x: Side, used: set<string>) {
    && SessionOk(x.s) && (x.s.phase == ACTIVE || x.s.phase == ENDED)
    && (x.s.phase == ACTIVE ==> x.s.outstanding == x.about && x.left == [])
    && (x.about.Outbound? || x.about.Inbound? ==> x.about.id in used)
    && (forall b :: b in x.link ==> InSession(b))
    && (forall t :: t in Tokens(x.left + x.link) ==> t.id in used)
  }

  ghost predicate DuoOk(d: Duo) {
    SideOk(d.x, d.used) && SideOk(d.y, d.used) && Fits(StandOf(d.x), StandOf(d.y))
  }

  // ---- tokens

  lemma {:induction false} TokensAppend(a: seq<Body>, b: seq<Body>)
    ensures Tokens(a + b) == Tokens(a) + Tokens(b)
  {
    hide TokenOf;
    if b == [] {
      assert a + b == a;
    } else {
      assert (a + b)[..|a + b| - 1] == a + b[..|b| - 1];
      TokensAppend(a, b[..|b| - 1]);
    }
  }

  lemma TokensOne(b: Body)
    ensures Tokens([b]) == TokenOf(b)
  {
    assert [b][..0] == [];
  }

  lemma {:induction false} LiveAppend(a: seq<Token>, b: seq<Token>, about: Outstanding)
    ensures Live(a + b, about) == Live(a, about) + Live(b, about)
  {
    if b == [] {
      assert a + b == a;
    } else {
      assert (a + b)[..|a + b| - 1] == a + b[..|b| - 1];
      LiveAppend(a, b[..|b| - 1], about);
    }
  }

  lemma LiveOne(t: Token, about: Outstanding)
    ensures Live([t], about) == if Matters(t, about) then [t] else []
    ensures Live([], about) == []
  {
    assert [t][..0] == [];
  }

  /** Replies that stop mattering are erased; none that did not matter starts to. */
  lemma {:induction false} Relive(ts: seq<Token>, before: Outstanding, after: Outstanding)
    requires after.Outbound? && after != before ==> forall t :: t in ts ==> t.id != after.id
    ensures Live(ts, after) == Live(Live(ts, before), after)
  {
    if ts != [] {
      var front, last := ts[..|ts| - 1], ts[|ts| - 1];
      assert ts == front + [last];
      Relive(front, before, after);
      LiveOne(last, before);
      LiveOne(last, after);
      LiveAppend(Live(front, before), Live([last], before), after);
      LiveAppend(front, [last], before);
    }
  }

  // ---- one move, as the two stands see it

  ghost predicate Unused(u: string, x: Stand) {
    && (x.about.Outbound? || x.about.Inbound? ==> x.about.id != u)
    && (forall t :: t in x.to ==> t.id != u)
  }

  lemma OfferFits(x: Stand, y: Stand, u: string)
    requires Fits(x, y) && x.about == NoUpdate && Unused(u, x) && Unused(u, y)
    ensures Fits(x.(about := Outbound(u)), y.(to := y.to + [Offer(u)]))
  {
    var x', y' := x.(about := Outbound(u)), y.(to := y.to + [Offer(u)]);
    if Idle(x, y) {
      assert Offering(x', y', u);
    } else if w :| Offering(y, x, w) {
      assert Crossing(x', y', u, w);
    } else if w, ok :| Replied(y, x, w, ok) {
      assert Replied(y', x', w, ok);
    } else {
      var w, v, ok :| Yielded(y, x, w, v, ok);
      assert v == y.to[0].id;
      assert Yielded(y', x', w, v, ok);
    }
  }

  lemma ReplyFits(x: Stand, y: Stand, u: string, ok: bool)
    requires Fits(x, y) && x.about == Inbound(u)
    ensures y.about == Outbound(u)
    ensures Fits(x.(about := NoUpdate, applied := if ok then x.applied + [u] else x.applied), y.(to := y.to + [Reply(u, ok)]))
  {
    var x', y' := x.(about := NoUpdate, applied := if ok then x.applied + [u] else x.applied), y.(to := y.to + [Reply(u, ok)]);
    if w :| Offering(y, x, w) {
      assert Replied(y', x', u, ok);
    } else {
      var w, v :| Yielding(y, x, w, v);
      assert Yielded(y', x', u, v, ok);
    }
  }

  lemma TakeOfferFits(x: Stand, y: Stand, v: string, rest: seq<Token>)
    requires Fits(x, y) && x.to == [Offer(v)] + rest
    ensures !x.about.Inbound? && rest == x.to[1..]
    ensures x.about == NoUpdate ==> Fits(x.(about := Inbound(v), to := rest), y)
    ensures x.about.Outbound? && !Less(x.about.id, v) ==> Fits(x.(about := Inbound(v), to := []), y) && forall t :: t in rest ==> t.Reply?
    ensures x.about.Outbound? && Less(x.about.id, v) ==>
              Fits(x.(to := rest), if y.about == Outbound(v) then y.(to := y.to + [Reply(v, false)]) else y)
  {
    assert rest == x.to[1..];
    assert x.to[0] == Offer(v);
    if x.about == NoUpdate {
      var w :| Offering(y, x, w);
      assert Offering(y, x.(about := Inbound(v), to := rest), w);
    } else if w, u :| Crossing(x, y, w, u) {
      CrossedOffer(x, y, w, u, rest);
    } else if w, u :| Crossing(y, x, w, u) {
      CrossedBack(x, y, w, u, rest);
    } else if w, u :| Yielding(x, y, w, u) {
      assert Offering(x.(to := rest), y, w);
    } else {
      var w, u, ok :| Yielded(x, y, w, u, ok);
      assert Replied(x.(to := rest), y, w, ok);
    }
  }

  lemma CrossedOffer(x: Stand, y: Stand, u: string, v: string, rest: seq<Token>)
    requires Crossing(x, y, u, v) && x.to == [Offer(v)] + rest
    ensures !Less(u, v) ==> Fits(x.(about := Inbound(v), to := []), y)
    ensures Less(u, v) ==> Fits(x.(to := rest), y.(to := y.to + [Reply(v, false)]))
  {
    assert rest == x.to[1..];
    LessTotal(u, v);
    if Less(u, v) {
      assert Crossing(x.(to := rest), y.(to := y.to + [Reply(v, false)]), u, v);
    } else {
      assert Yielding(y, x.(about := Inbound(v), to := []), v, u);
    }
  }

  /** The losing offer has already been rejected; the winning one arrives now. */
  lemma CrossedBack(x: Stand, y: Stand, u: string, v: string, rest: seq<Token>)
    requires Crossing(y, x, u, v) && x.to == [Offer(u)] + rest
    ensures x.about == Outbound(v)
    ensures !Less(v, u) ==> Fits(x.(about := Inbound(u), to := []), y)
    ensures Less(v, u) ==> Fits(x.(to := rest), y.(to := y.to + [Reply(u, false)]))
  {
    assert rest == x.to[1..];
    LessTotal(u, v);
    if x.to == [Offer(u)] {
      assert Crossing(x, y, v, u);
      CrossedOffer(x, y, v, u, rest);
    } else {
      assert Offering(y, x.(about := Inbound(u), to := []), u);
    }
  }

  lemma TakeReplyFits(x: Stand, y: Stand, u: string, ok: bool, rest: seq<Token>)
    requires Fits(x, y) && x.about == Outbound(u) && x.to == [Reply(u, ok)] + rest
    ensures Fits(x.(about := NoUpdate, to := rest, applied := if ok then x.applied + [u] else x.applied), y)
    ensures forall t :: t in rest ==> t.Offer?
  {
    assert rest == x.to[1..];
    assert x.to[0] == Reply(u, ok);
    var w, k :| Replied(x, y, w, k);
    assert w == u && k == ok;
    var x' := x.(about := NoUpdate, to := rest, applied := if ok then x.applied + [u] else x.applied);
    if y.about == NoUpdate {
      assert rest == [];
      assert Idle(x', y);
    } else {
      assert rest == [Offer(y.about.id)];
      assert Offering(y, x', y.about.id);
    }
  }

  // ---- the moves themselves

  function OpsTokens(ops: seq<Op>): seq<Token> {
    Tokens(Bodies(Sends(ops)))
  }

  lemma OpsTokensAppend(a: seq<Op>, b: seq<Op>)
    ensures OpsTokens(a + b) == OpsTokens(a) + OpsTokens(b)
  {
    SendsAppend(a, b);
    assert Bodies(Sends(a) + Sends(b)) == Bodies(Sends(a)) + Bodies(Sends(b));
    TokensAppend(Bodies(Sends(a)), Bodies(Sends(b)));
  }

  lemma OpsTokensOne(op: Op)
    ensures OpsTokens([op]) == if op.Send? then TokenOf(op.body) else []
  {
    SendsOne(op);
    if op.Send? {
      assert Bodies([Mail(op.to, op.body)]) == [op.body];
      TokensOne(op.body);
    }
  }

  predicate NoTokens(ops: seq<Op>) {
    forall op :: op in ops && op.Send? ==> TokenOf(op.body) == []
  }

  lemma {:induction false} NoTokensSent(ops: seq<Op>)
    requires NoTokens(ops)
    ensures OpsTokens(ops) == []
  {
    if ops != [] {
      var front, last := ops[..|ops| - 1], ops[|ops| - 1];
      NoTokensSent(front);
      OpsTokensAppend(front, [last]);
      OpsTokensOne(last);
      assert ops == front + [last];
    }
  }

  predicate SaysInSession(ops: seq<Op>) {
    forall op :: op in ops && op.Send? ==> InSession(op.body)
  }

  lemma {:induction false} LiveMatters(ts: seq<Token>, about: Outstanding)
    ensures forall t :: t in Live(ts, about) ==> Matters(t, about) && t in ts
  {
    if ts != [] { LiveMatters(ts[..|ts| - 1], about); }
  }

  lemma {:induction false} LiveOffers(ts: seq<Token>, about: Outstanding)
    requires forall t :: t in ts ==> t.Offer?
    ensures Live(ts, about) == ts
  {
    if ts != [] {
      LiveOffers(ts[..|ts| - 1], about);
      assert ts[|ts| - 1] in ts;
      assert ts == ts[..|ts| - 1] + [ts[|ts| - 1]];
    }
  }

  lemma {:induction false} LiveReplies(ts: seq<Token>, about: Outstanding)
    requires !about.Outbound? && forall t :: t in ts ==> t.Reply?
    ensures Live(ts, about) == []
  {
    if ts != [] { LiveReplies(ts[..|ts| - 1], about); }
  }

  /** What an end that is about something else now makes of the same tokens, when only offers mattered to it. */
  lemma Refocus(ts: seq<Token>, before: Outstanding, after: Outstanding)
    requires forall t :: t in Live(ts, before) ==> t.Offer?
    requires after.Outbound? && after != before ==> forall t :: t in ts ==> t.id != after.id
    ensures Live(ts, after) == Live(ts, before)
  {
    Relive(ts, before, after);
    LiveOffers(Live(ts, before), after);
  }

  lemma NotOutbound(ts: seq<Token>, about: Outstanding)
    requires !about.Outbound?
    ensures forall t :: t in Live(ts, about) ==> t.Offer?
  {
    LiveMatters(ts, about);
  }

  /** The other end's link gains what was sent. */
  lemma Gains(y: Side, ops: seq<Op>, used: set<string>, used': set<string>)
    requires SideOk(y, used) && used <= used' && SaysInSession(ops) && forall t :: t in OpsTokens(ops) ==> t.id in used'
    ensures var y' := y.(link := y.link + Bodies(Sends(ops)));
            SideOk(y', used') && To(y') == To(y) + Live(OpsTokens(ops), y.about)
  {
    hide Live, Tokens, SessionOk, InSession, Sends;
    var said := Bodies(Sends(ops));
    assert y.left + (y.link + said) == (y.left + y.link) + said;
    TokensAppend(y.left + y.link, said);
    LiveAppend(Tokens(y.left + y.link), Tokens(said), y.about);
    SendsKinds(ops);
    forall b | b in said ensures InSession(b) {
      var i :| 0 <= i < |said| && said[i] == b;
      assert Sends(ops)[i] in Sends(ops);
    }
  }

  /** A request that neither offers nor answers an update. */
  predicate Elsewise(v: Verb, s: Session) {
    match v
    case SendUpdate(_, _) => s.phase != ACTIVE || s.outstanding != NoUpdate
    case AnswerUpdate(ref, _) => s.outstanding != Inbound(ref)
    case RejectUpdate(ref, _) => s.outstanding != Inbound(ref)
    case _ => true
  }

  lemma ElsewiseSays(cx: Context, now: int, id: string, s: Session, v: Verb)
    requires SessionOk(s) && (s.phase == ACTIVE || s.phase == ENDED) && Elsewise(v, s)
    ensures var o := Requested(cx, now, id, s, {}, v);
            && NoTokens(o.ops) && SaysInSession(o.ops) && ApplyUpdate !in o.ops && SessionOk(o.s)
            && (o.s.phase == ENDED || (o.s == s))
  {
  }

  lemma DoesKeeps(d: Duo, cx: Context, now: int, id: string, v: Verb)
    requires DuoOk(d) && MayDo(d, Does(cx, now, id, v))
    ensures DuoOk(Moved(d, Does(cx, now, id, v)))
  {
    hide Tokens, Live, Fits, Sends, SessionOk, Requested, InSession;
    var x, s := d.x, d.x.s;
    var o := Requested(cx, now, id, s, {}, v);
    var d' := Moved(d, Does(cx, now, id, v));
    if Elsewise(v, s) {
      ElsewiseSays(cx, now, id, s, v);
      NoTokensSent(o.ops);
      Gains(d.y, o.ops, d.used, d'.used);
      assert To(d.y) + Live([], d.y.about) == To(d.y) by { LiveOne(Offer(""), d.y.about); }
      assert StandOf(d'.y) == StandOf(d.y) && StandOf(d'.x) == StandOf(d.x);
      SideGrows(d'.x, d.used, d'.used);
    } else if v.SendUpdate? {
      SendKeeps(d, cx, now, id, v);
    } else {
      AnswerKeeps(d, cx, now, id, v);
    }
  }

  lemma SideGrows(x: Side, used: set<string>, used': set<string>)
    requires SideOk(x, used) && used <= used'
    ensures SideOk(x, used')
  {
  }

  lemma SendOps(cx: Context, now: int, id: string, s: Session, v: Verb)
    requires SessionOk(s) && s.phase == ACTIVE && v.SendUpdate? && s.outstanding == NoUpdate
    ensures var o := Requested(cx, now, id, s, {}, v);
            && o.s == s.(outstanding := Outbound(v.uid)) && SessionOk(o.s) && ApplyUpdate !in o.ops
            && SaysInSession(o.ops) && OpsTokens(o.ops) == [Offer(v.uid)]
  {
    OpsTokensOne(Requested(cx, now, id, s, {}, v).ops[0]);
  }

  lemma UnusedBy(x: Side, used: set<string>, u: string)
    requires SideOk(x, used) && u !in used
    ensures Unused(u, StandOf(x))
  {
    LiveMatters(Tokens(x.left + x.link), x.about);
  }

  lemma SendKeeps(d: Duo, cx: Context, now: int, id: string, v: Verb)
    requires DuoOk(d) && v.SendUpdate? && v.uid !in d.used && d.x.s.phase == ACTIVE && d.x.s.outstanding == NoUpdate
    ensures DuoOk(Moved(d, Does(cx, now, id, v)))
  {
    hide Tokens, Live, Fits, Sends, SessionOk, Requested, InSession, Unused;
    var x, y, u := d.x, d.y, v.uid;
    var o := Requested(cx, now, id, x.s, {}, v);
    var d' := Moved(d, Does(cx, now, id, v));
    SendOps(cx, now, id, x.s, v);
    Gains(y, o.ops, d.used, d'.used);
    LiveOne(Offer(u), y.about);
    var ts := Tokens(x.left + x.link);
    NotOutbound(ts, NoUpdate);
    Refocus(ts, NoUpdate, Outbound(u));
    UnusedBy(x, d.used, u);
    UnusedBy(y, d.used, u);
    OfferFits(StandOf(x), StandOf(y), u);
    assert StandOf(d'.x) == StandOf(x).(about := Outbound(u));
    assert StandOf(d'.y) == StandOf(y).(to := To(y) + [Offer(u)]);
  }

  lemma AnswerOps(cx: Context, now: int, id: string, s: Session, v: Verb)
    requires SessionOk(s) && (v.AnswerUpdate? || v.RejectUpdate?) && s.outstanding == Inbound(v.inReplyTo)
    ensures var o := Requested(cx, now, id, s, {}, v);
            && o.s == s.(outstanding := NoUpdate) && SessionOk(o.s) && s.phase == ACTIVE
            && (ApplyUpdate in o.ops <==> v.AnswerUpdate?)
            && SaysInSession(o.ops) && OpsTokens(o.ops) == [Reply(v.inReplyTo, v.AnswerUpdate?)]
  {
    var ops := Requested(cx, now, id, s, {}, v).ops;
    OpsTokensOne(ops[0]);
    if v.AnswerUpdate? {
      OpsTokensOne(ops[1]);
      OpsTokensAppend([ops[0]], [ops[1]]);
      assert ops == [ops[0]] + [ops[1]];
      assert ops[1] == ApplyUpdate;
    }
  }

  lemma AnswerKeeps(d: Duo, cx: Context, now: int, id: string, v: Verb)
    requires DuoOk(d) && (v.AnswerUpdate? || v.RejectUpdate?) && d.x.s.outstanding == Inbound(v.inReplyTo)
    ensures DuoOk(Moved(d, Does(cx, now, id, v)))
  {
    hide Tokens, Live, Fits, Sends, SessionOk, Requested, InSession;
    var x, y, u, ok := d.x, d.y, v.inReplyTo, v.AnswerUpdate?;
    var o := Requested(cx, now, id, x.s, {}, v);
    var d' := Moved(d, Does(cx, now, id, v));
    AnswerOps(cx, now, id, x.s, v);
    Gains(y, o.ops, d.used, d.used);
    LiveOne(Reply(u, ok), y.about);
    var ts := Tokens(x.left + x.link);
    NotOutbound(ts, x.about);
    Refocus(ts, x.about, NoUpdate);
    ReplyFits(StandOf(x), StandOf(y), u, ok);
    assert StandOf(d'.x) == StandOf(x).(about := NoUpdate, applied := if ok then x.applied + [u] else x.applied);
    assert StandOf(d'.y) == StandOf(y).(to := To(y) + [Reply(u, ok)]);
  }

  // ---- what an end hears

  function Spoken(s: Session): Session {
    if s.role == Responder then s.(initiatorSpoke := true) else s
  }

  function TakenUp(id: string, s: Session, b: Body): Outcome
    requires ForActive(b)
  {
    OnActive(id, Spoken(s), Message("", "", id, b))
  }

  lemma HeardActive(cx: Context, id: string, s: Session, b: Body)
    requires SessionOk(s) && s.phase == ACTIVE && InSession(b) && !b.Invite?
    ensures Received(cx, id, s, {}, Message("", "", id, b))
         == if b.Error? then Outcome(s, [Ui("error", b.reason)]) else TakenUp(id, s, b)
  {
  }

  /** Taking the head of its own link: the tokens it stands for are those of the head, then the rest. */
  lemma HeadTokens(x: Side, used: set<string>)
    requires SideOk(x, used) && x.link != []
    ensures x.s.phase == ACTIVE ==> Tokens(x.left + x.link) == TokenOf(x.link[0]) + Tokens(x.link[1..])
    ensures (x.left + [x.link[0]]) + x.link[1..] == x.left + x.link
    ensures InSession(x.link[0]) && forall b :: b in x.link[1..] ==> InSession(b)
  {
    if x.s.phase == ACTIVE {
      assert x.left + x.link == [x.link[0]] + x.link[1..];
      TokensAppend([x.link[0]], x.link[1..]);
      TokensOne(x.link[0]);
    }
    assert x.link[0] in x.link;
  }

  /** A body that bears on no update, or a reply to an update we are no longer about. */
  predicate Beside(b: Body, about: Outstanding) {
    match b
    case Update(_, _) => false
    case Answer(_, ref) => about != Outbound(Or(ref, ""))
    case Reject(_, ref) => about != Outbound(Or(ref, ""))
    case _ => true
  }

  lemma BesideOps(cx: Context, id: string, s: Session, b: Body)
    requires SessionOk(s) && s.phase == ACTIVE && InSession(b) && Beside(b, s.outstanding)
    ensures var o := Received(cx, id, s, {}, Message("", "", id, b));
            && SessionOk(o.s) && NoTokens(o.ops) && SaysInSession(o.ops) && ApplyUpdate !in o.ops
            && (o.s.phase == ENDED || (o.s.phase == ACTIVE && o.s.outstanding == s.outstanding))
            && !SaysPending(o.ops)
    ensures forall t :: t in TokenOf(b) ==> !Matters(t, s.outstanding)
  {
    hide EffectiveReason;
    HeardActive(cx, id, s, b);
  }

  /** The refusal of a second update while one is pending here. */
  predicate SaysPending(ops: seq<Op>) {
    exists op :: op in ops && op.Send? && op.body.Error? && op.body.reason == "session.update-pending"
  }

  lemma {:induction false} Unmattering(ts: seq<Token>, about: Outstanding)
    requires forall t :: t in ts ==> !Matters(t, about)
    ensures Live(ts, about) == []
  {
    if ts != [] {
      assert ts[|ts| - 1] in ts;
      Unmattering(ts[..|ts| - 1], about);
    }
  }

  lemma BesideKeeps(d: Duo, cx: Context, id: string)
    requires DuoOk(d) && d.x.link != [] && d.x.s.phase == ACTIVE && Beside(d.x.link[0], d.x.about)
    ensures DuoOk(Moved(d, Hears(cx, id)))
  {
    hide Tokens, Live, Fits, Sends, SessionOk, Received, InSession, TokenOf, Matters, ForActive, OnActive;
    var x, y, b := d.x, d.y, d.x.link[0];
    var rest := x.link[1..];
    HeadTokens(x, d.used);
    if b.Invite? { InviteNot(b); }
    var o := Received(cx, id, x.s, {}, Message("", "", id, b));
    BesideOps(cx, id, x.s, b);
    NoTokensSent(o.ops);
    Gains(y, o.ops, d.used, d.used);
    LiveOne(Offer(""), y.about);
    assert To(y) + [] == To(y);
    Unmattering(TokenOf(b), x.about);
    LiveAppend(TokenOf(b), Tokens(rest), x.about);
    assert [] + rest == rest && [] + Live(Tokens(rest), x.about) == Live(Tokens(rest), x.about);
    var d' := Moved(d, Hears(cx, id));
    assert StandOf(d'.x) == StandOf(x) && StandOf(d'.y) == StandOf(y);
  }

  lemma InviteNot(b: Body)
    requires InSession(b)
    ensures !b.Invite?
  {
  }

  lemma ReplyOps(cx: Context, id: string, s: Session, b: Body)
    requires SessionOk(s) && s.phase == ACTIVE && InSession(b) && (b.Answer? || b.Reject?) && s.outstanding == Outbound(Or(b.inReplyTo, ""))
    ensures var o := Received(cx, id, s, {}, Message("", "", id, b));
            && SessionOk(o.s) && o.s.phase == ACTIVE && o.s.outstanding == NoUpdate && NoTokens(o.ops) && SaysInSession(o.ops)
            && (ApplyUpdate in o.ops <==> b.Answer?) && !SaysPending(o.ops)
    ensures TokenOf(b) == [Reply(s.outstanding.id, b.Answer?)]
  {
    hide EffectiveReason;
    HeardActive(cx, id, s, b);
    var o := Received(cx, id, s, {}, Message("", "", id, b));
    assert o.ops[0] in o.ops;
  }

  lemma ReplyKeeps(d: Duo, cx: Context, id: string)
    requires DuoOk(d) && d.x.link != [] && d.x.s.phase == ACTIVE
    requires var b := d.x.link[0]; (b.Answer? || b.Reject?) && d.x.about == Outbound(Or(b.inReplyTo, ""))
    ensures DuoOk(Moved(d, Hears(cx, id)))
  {
    hide Tokens, Live, Fits, Sends, SessionOk, Received, InSession, TokenOf, ForActive, OnActive;
    var x, y, b := d.x, d.y, d.x.link[0];
    var rest, u, ok := x.link[1..], x.about.id, b.Answer?;
    HeadTokens(x, d.used);
    var o := Received(cx, id, x.s, {}, Message("", "", id, b));
    ReplyOps(cx, id, x.s, b);
    NoTokensSent(o.ops);
    Gains(y, o.ops, d.used, d.used);
    LiveOne(Offer(""), y.about);
    assert To(y) + [] == To(y);
    LiveOne(Reply(u, ok), x.about);
    LiveAppend(TokenOf(b), Tokens(rest), x.about);
    TakeReplyFits(StandOf(x), StandOf(y), u, ok, Live(Tokens(rest), x.about));
    Refocus(Tokens(rest), x.about, NoUpdate);
    assert [] + rest == rest;
    var d' := Moved(d, Hears(cx, id));
    assert StandOf(d'.y) == StandOf(y);
    assert StandOf(d'.x) == Stand(NoUpdate, Live(Tokens(rest), x.about), if ok then x.applied + [u] else x.applied);
  }

  lemma OfferOps(cx: Context, id: string, s: Session, b: Body)
    requires SessionOk(s) && s.phase == ACTIVE && b.Update? && !s.outstanding.Inbound?
    ensures var o := Received(cx, id, s, {}, Message("", "", id, b));
            var loses := s.outstanding.Outbound? && Less(s.outstanding.id, b.uid);
            && SessionOk(o.s) && o.s.phase == ACTIVE && SaysInSession(o.ops) && ApplyUpdate !in o.ops && !SaysPending(o.ops)
            && o.s.outstanding == (if loses then s.outstanding else Inbound(b.uid))
            && OpsTokens(o.ops) == (if loses then [Reply(b.uid, false)] else [])
  {
    hide Less, EffectiveAnsweredBy, Sends;
    HeardActive(cx, id, s, b);
    var o := Received(cx, id, s, {}, Message("", "", id, b));
    if s.outstanding.Outbound? && Less(s.outstanding.id, b.uid) {
      OpsTokensOne(o.ops[0]);
      assert o.ops == [o.ops[0]];
    } else {
      NoTokensSent(o.ops);
    }
  }

  lemma OfferKeeps(d: Duo, cx: Context, id: string)
    requires DuoOk(d) && d.x.link != [] && d.x.s.phase == ACTIVE && d.x.link[0].Update?
    ensures DuoOk(Moved(d, Hears(cx, id))) && !d.x.about.Inbound?
  {
    hide Tokens, Live, Fits, Sends, SessionOk, Received, InSession, Less;
    var x, y, b := d.x, d.y, d.x.link[0];
    var rest, v := x.link[1..], b.uid;
    HeadTokens(x, d.used);
    LiveOne(Offer(v), x.about);
    LiveAppend(TokenOf(b), Tokens(rest), x.about);
    TakeOfferFits(StandOf(x), StandOf(y), v, Live(Tokens(rest), x.about));
    var o := Received(cx, id, x.s, {}, Message("", "", id, b));
    OfferOps(cx, id, x.s, b);
    assert Offer(v) in Tokens(x.left + x.link);
    Gains(y, o.ops, d.used, d.used);
    LiveOne(Reply(v, false), y.about);
    assert To(y) + [] == To(y) && [] + rest == rest;
    var d' := Moved(d, Hears(cx, id));
    if x.about == NoUpdate {
      NotOutbound(Tokens(rest), x.about);
      Refocus(Tokens(rest), NoUpdate, Inbound(v));
    } else if !Less(x.about.id, v) {
      Relive(Tokens(rest), x.about, Inbound(v));
      LiveReplies(Live(Tokens(rest), x.about), Inbound(v));
    }
    assert StandOf(d'.x) == Stand(o.s.outstanding, Live(Tokens(rest), o.s.outstanding), x.applied);
  }

  /** A second update never arrives while one is being considered. */
  lemma HearsKeeps(d: Duo, cx: Context, id: string)
    requires DuoOk(d) && d.x.link != []
    ensures DuoOk(Moved(d, Hears(cx, id)))
    ensures d.x.s.phase == ACTIVE ==> !SaysPending(Received(cx, id, d.x.s, {}, Message("", "", id, d.x.link[0])).ops)
    ensures d.x.link[0].Update? && d.x.s.phase == ACTIVE ==> !d.x.s.outstanding.Inbound?
    ensures !d.x.link[0].Invite?
  {
    hide Tokens, Live, Fits, Sends, SessionOk, Received, Less, SaysPending;
    var x, b := d.x, d.x.link[0];
    HeadTokens(x, d.used);
    InviteNot(b);
    if x.s.phase == ENDED {
      var d' := Moved(d, Hears(cx, id));
      assert StandOf(d'.x) == StandOf(x);
    } else if b.Update? {
      OfferKeeps(d, cx, id);
      OfferOps(cx, id, x.s, b);
    } else if (b.Answer? || b.Reject?) && x.about == Outbound(Or(b.inReplyTo, "")) {
      ReplyKeeps(d, cx, id);
      ReplyOps(cx, id, x.s, b);
    } else {
      BesideKeeps(d, cx, id);
      BesideOps(cx, id, x.s, b);
    }
  }

  lemma EveryMoveKeeps(d: Duo, ev: Event)
    requires DuoOk(d) && Enabled(d, ev)
    ensures DuoOk(Step(d, ev))
  {
    hide SideOk, Fits, Moved;
    var e := if ev.ByX? then d else Mirror(d);
    FitsMirror(d);
    match ev.m
    case Does(cx, now, id, v) => DoesKeeps(e, cx, now, id, v); FitsMirror(Moved(e, ev.m));
    case Hears(cx, id) => HearsKeeps(e, cx, id); FitsMirror(Moved(e, ev.m));
  }

  lemma FitsMirror(d: Duo)
    ensures Fits(StandOf(d.x), StandOf(d.y)) == Fits(StandOf(Mirror(d).x), StandOf(Mirror(d).y))
  {
  }

  // ---- every run

  /** The session has just been entered by both ends and nothing is on its way. */
  ghost predicate Entered(d: Duo) {
    && SessionOk(d.x.s) && SessionOk(d.y.s) && d.x.s.phase == ACTIVE && d.y.s.phase == ACTIVE
    && d.x == Side(d.x.s.(outstanding := NoUpdate), NoUpdate, [], [], []) && d.y == Side(d.y.s.(outstanding := NoUpdate), NoUpdate, [], [], [])
  }

  predicate Legal(d: Duo, evs: seq<Event>)
    decreases |evs|
  {
    evs == [] || (Enabled(d, evs[0]) && Legal(Step(d, evs[0]), evs[1..]))
  }

  function Run(d: Duo, evs: seq<Event>): Duo
    requires Legal(d, evs)
    decreases |evs|
  {
    if evs == [] then d else Run(Step(d, evs[0]), evs[1..])
  }

  lemma {:induction false} RunKeeps(d: Duo, evs: seq<Event>)
    requires DuoOk(d) && Legal(d, evs)
    ensures DuoOk(Run(d, evs))
    decreases |evs|
  {
    hide DuoOk, Step;
    if evs != [] {
      EveryMoveKeeps(d, evs[0]);
      RunKeeps(Step(d, evs[0]), evs[1..]);
    }
  }

  lemma EnteredOk(d: Duo)
    requires Entered(d)
    ensures DuoOk(d)
  {
    assert [] + d.x.link == [] && [] + d.y.link == [];
    LiveOne(Offer(""), NoUpdate);
    assert Idle(StandOf(d.x), StandOf(d.y));
  }

  ghost predicate OneMore(longer: seq<string>, shorter: seq<string>) {
    exists u :: longer == shorter + [u]
  }

  /**
   * At every point the two ends have applied the same updates in the same order, give or take one the other end has
   * yet to hear of; and once both links are empty and both ends are still in the session, exactly the same.
   */
  lemma AppliedAgree(d: Duo, evs: seq<Event>)
    requires Entered(d) && Legal(d, evs)
    ensures var e := Run(d, evs);
            && (e.x.applied == e.y.applied || OneMore(e.x.applied, e.y.applied) || OneMore(e.y.applied, e.x.applied))
            && (e.x.link == [] && e.y.link == [] && e.x.s.phase == ACTIVE && e.y.s.phase == ACTIVE ==>
                  e.x.applied == e.y.applied
                  && (e.x.s.outstanding == e.y.s.outstanding == NoUpdate
                      || (e.x.s.outstanding.Outbound? && e.y.s.outstanding == Inbound(e.x.s.outstanding.id))
                      || (e.y.s.outstanding.Outbound? && e.x.s.outstanding == Inbound(e.y.s.outstanding.id))))
  {
    EnteredOk(d);
    RunKeeps(d, evs);
    var e := Run(d, evs);
    FitsApplied(StandOf(e.x), StandOf(e.y));
    if e.x.link == [] && e.y.link == [] && e.x.s.phase == ACTIVE && e.y.s.phase == ACTIVE {
      assert e.x.left + e.x.link == [] && e.y.left + e.y.link == [];
      LiveOne(Offer(""), e.x.about);
      LiveOne(Offer(""), e.y.about);
      FitsDrained(StandOf(e.x), StandOf(e.y));
    }
  }

  /** In no run does either end, still in the session, meet an update while it is considering another. */
  lemma SecondUpdateNeverPending(d: Duo, evs: seq<Event>)
    requires Entered(d) && Legal(d, evs)
    ensures var e := Run(d, evs);
            && (e.x.link != [] && e.x.link[0].Update? && e.x.s.phase == ACTIVE ==> !e.x.s.outstanding.Inbound?)
            && (e.y.link != [] && e.y.link[0].Update? && e.y.s.phase == ACTIVE ==> !e.y.s.outstanding.Inbound?)
  {
    EnteredOk(d);
    RunKeeps(d, evs);
    var e := Run(d, evs);
    FitsMirror(e);
    var cx := Context("", map[], None, None, None, false, {});
    if e.x.link != [] { HearsKeeps(e, cx, ""); }
    if e.y.link != [] { HearsKeeps(Mirror(e), cx, ""); }
  }

  lemma FitsApplied(x: Stand, y: Stand)
    requires Fits(x, y)
    ensures x.applied == y.applied || OneMore(x.applied, y.applied) || OneMore(y.applied, x.applied)
  {
  }

  lemma FitsDrained(x: Stand, y: Stand)
    requires Fits(x, y) && x.to == [] && y.to == []
    ensures x.applied == y.applied
    ensures x.about == y.about == NoUpdate || (x.about.Outbound? && y.about == Inbound(x.about.id))
         || (y.about.Outbound? && x.about == Inbound(y.about.id))
  {
  }
}
