/** One endpoint of `endpoint.ts`: its sessions, its timers and its presence keys, event by event. */
module Endpoints {
  import opened Prelude
  import opened TimerTable
  import opened Calls
  import PresenceKeys

  datatype Endpoint = Endpoint(cx: Context, sessions: map<string, Session>, timers: Table, keys: PresenceKeys.Keys)

  datatype Emit = OfCall(op: Op) | OfKeys(kop: PresenceKeys.KeyOp)

  datatype Result = Result(e: Endpoint, emit: seq<Emit>)

  function CallEmits(ops: seq<Op>): (r: seq<Emit>) {
    seq(|ops|, i requires 0 <= i < |ops| => OfCall(ops[i]))
  }

  function KeyEmits(ops: seq<PresenceKeys.KeyOp>): (r: seq<Emit>) {
    seq(|ops|, i requires 0 <= i < |ops| => OfKeys(ops[i]))
  }

  function IdentityOf(cx: Context, did: string): string {
    if did in cx.identities then cx.identities[did] else did
  }

  /** The names running for one session. */
  function RunningOf(t: Table, id: string): set<Name> {
    set n | n in {TEstablish, TRing, TQueue, TRingLocal} && Running(t, n, id)
  }

  /** The timer operations among `ops`, applied to the table. */
  function ApplyOps(t: Table, id: string, ops: seq<Op>): Table {
    if ops == [] then t
    else
      var before := ApplyOps(t, id, ops[..|ops| - 1]);
      match ops[|ops| - 1]
      case StartTimer(n, secs) => Started(before, n, id, secs)
      case StopTimer(n) => Stopped(before, n, id)
      case _ => before
  }

  /** One session's outcome, taken up by the endpoint. */
  function Take(e: Endpoint, id: string, o: Outcome): Endpoint {
    e.(sessions := e.sessions[id := o.s], timers := ApplyOps(e.timers, id, o.ops))
  }

  // ---- local requests

  function OnLocal(e: Endpoint, id: string, v: Verb): Result {
    if id !in e.sessions then Result(e, [OfCall(Refused("unknown-session"))])
    else
      var o := Requested(e.cx, e.timers.now, id, e.sessions[id], RunningOf(e.timers, id), v);
      Result(Take(e, id, o), CallEmits(o.ops))
  }

  function PlaceOps(cx: Context, id: string, to: string): seq<Op> {
    [Send(to, id, Invite(to, None)), StartTimer(TEstablish, Or(cx.tEstablish, T_ESTABLISH))]
  }

  /** A session id is used once: a session held, live or ended, is never overwritten. */
  function OnPlaceCall(e: Endpoint, id: string, to: string): Result {
    if id in e.sessions then Result(e, [OfCall(Refused("invalid-state"))])
    else
      var o := Outcome(NewAttempt(to), PlaceOps(e.cx, id, to));
      Result(Take(e, id, o), CallEmits(o.ops))
  }

  // ---- received messages

  /** A live grant with `dsip.invite` issued to the inviting identity, or the allow list. */
  predicate Admitted(e: Endpoint, from: string) {
    var identity := IdentityOf(e.cx, from);
    || identity in e.cx.allow
    || exists id :: id in e.keys.grants && e.keys.grants[id].grantee == identity
                 && e.timers.now < e.keys.grants[id].validUntil && "dsip.invite" in e.keys.grants[id].scope
  }

  /** Our own live attempts to the inviting identity. */
  function Rivals(e: Endpoint, inviter: string): set<string> {
    set id | id in e.sessions && OwnAttempt(e.sessions[id]) && IdentityOf(e.cx, e.sessions[id].to) == inviter
  }

  function Withdrawn(e: Endpoint, id: string): Outcome
    requires id in e.sessions
  {
    Yielded(id, e.sessions[id], RunningOf(e.timers, id))
  }

  function WithdrawEach(e: Endpoint, ids: seq<string>): Result {
    if ids == [] then Result(e, [])
    else
      var r := WithdrawEach(e, ids[..|ids| - 1]);
      var id := ids[|ids| - 1];
      if id !in r.e.sessions then r
      else Result(Take(r.e, id, Withdrawn(r.e, id)), r.emit + CallEmits(Withdrawn(r.e, id).ops))
  }

  function Declined(e: Endpoint, m: Message, expires: Option<int>, reason: string): Result {
    Result(e.(sessions := e.sessions[m.session := NewOffer(ENDED, m.from, expires)]),
           [OfCall(Send(m.from, m.session, Reject(reason, None)))])
  }

  function Offered(e: Endpoint, m: Message, expires: Option<int>): Endpoint {
    e.(sessions := e.sessions[m.session := NewOffer(OFFERED, m.from, expires)])
  }

  predicate Expired(e: Endpoint, m: Message)
    requires m.body.Invite?
  {
    m.body.expiresAt.Some? && m.body.expiresAt.value <= e.timers.now
  }

  /** An invite under an id this endpoint already uses for its own live attempt. */
  predicate ReusesOwn(e: Endpoint, id: string) {
    id in e.sessions && OwnAttempt(e.sessions[id])
  }

  /** Glare with our own outstanding invites to the sender goes to the smallest id; without any, the call is offered. */
  ghost function Contended(e: Endpoint, m: Message): Result
    requires m.body.Invite?
  {
    var id := m.session;
    var expires := m.body.expiresAt;
    var rivals := Rivals(e, IdentityOf(e.cx, m.from));
    if rivals == {} then Result(Offered(e, m, expires), [OfCall(Ui("offered", ""))])
    else if Less(Least(rivals), id) then Declined(e, m, expires, "session.glare")
    else
      var w := WithdrawEach(e, Sorted(rivals));
      if Least(rivals) == id then
        Result(w.e, w.emit + [OfCall(Send(m.from, id, Reject("session.glare", None))), OfCall(Ui("glare_retry", ""))])
      else Result(Offered(w.e, m, expires), w.emit + [OfCall(Ui("offered", ""))])
  }

  /** An invite: one for a session held, one past its time or not admitted is refused. */
  ghost function OnInvite(e: Endpoint, m: Message): Result
    requires m.body.Invite?
  {
    var id := m.session;
    var expires := m.body.expiresAt;
    if id in e.sessions && !OwnAttempt(e.sessions[id]) then
      Result(e, [OfCall(if e.sessions[id].phase == ENDED then Drop("ended-session") else InvalidState(m))])
    else if Expired(e, m) then Declined(e, m, expires, "session.expired")
    else if e.cx.firstContactRequired && !Admitted(e, m.from) then Declined(e, m, expires, "policy.first-contact-required")
    else Contended(e, m)
  }

  /** Every message but an invite. */
  function OnMessage(e: Endpoint, m: Message): Result
    requires !m.body.Invite?
  {
    if m.session !in e.sessions then
      Result(e, [OfCall(if m.body.Error? then Ui("error", m.body.reason)
                        else Send(m.from, m.session, Error("session.unknown-session", m.id)))])
    else
      var o := Received(e.cx, m.session, e.sessions[m.session], RunningOf(e.timers, m.session), m);
      Result(Take(e, m.session, o), CallEmits(o.ops))
  }

  // ---- what every endpoint keeps

  ghost predicate SessionFits(e: Endpoint, id: string) {
    id in e.sessions && SessionOk(e.sessions[id]) && TimersFit(e.sessions[id], RunningOf(e.timers, id))
  }

  /** Every session has its shape and exactly its timer, and every timer its session. */
  ghost predicate CallsOk(e: Endpoint) {
    && WellFormed(e.timers)
    && (forall id :: id in e.sessions ==> SessionFits(e, id))
    && (forall k :: k in e.timers.running ==> k.session in e.sessions)
  }

  /** Sessions are never dropped and move only forward. */
  ghost predicate AllForward(e: Endpoint, f: Endpoint) {
    forall id :: id in e.sessions ==> id in f.sessions && Forward(e.sessions[id], f.sessions[id])
  }

  lemma AnyName(n: Name)
    ensures n in {TEstablish, TRing, TQueue, TRingLocal}
  {
    match n case TEstablish => case TRing => case TQueue => case TRingLocal =>
  }

  lemma StartedRunning(t: Table, n: Name, id: string, secs: int)
    ensures RunningOf(Started(t, n, id, secs), id) == RunningOf(t, id) + {n}
  {
    AnyName(n);
  }

  lemma StoppedRunning(t: Table, n: Name, id: string)
    ensures RunningOf(Stopped(t, n, id), id) == RunningOf(t, id) - {n}
  {
  }

  lemma {:induction false} ApplyOpsEffect(t: Table, id: string, ops: seq<Op>)
    requires WellFormed(t)
    ensures var u := ApplyOps(t, id, ops);
            && WellFormed(u) && u.now == t.now
            && RunningOf(u, id) == RunAfter(RunningOf(t, id), ops)
            && (forall k: Key :: k.session != id ==> (k in u.running <==> k in t.running))
            && (forall k :: k in u.running && k.session != id ==> u.running[k] == t.running[k])
  {
    if ops != [] {
      ApplyOpsEffect(t, id, ops[..|ops| - 1]);
      var before := ApplyOps(t, id, ops[..|ops| - 1]);
      match ops[|ops| - 1]
      case StartTimer(n, secs) => StartedRunning(before, n, id, secs);
      case StopTimer(n) => StoppedRunning(before, n, id);
      case _ =>
    }
  }

  lemma OtherRuns(t: Table, u: Table, id: string, other: string)
    requires other != id
    requires forall k: Key :: k.session != id ==> (k in u.running <==> k in t.running)
    ensures RunningOf(u, other) == RunningOf(t, other)
  {
    forall n: Name ensures Running(u, n, other) == Running(t, n, other) {
      assert Key(n, other) in u.running <==> Key(n, other) in t.running;
    }
  }

  /** Taking up an outcome that keeps its session keeps the endpoint. */
  lemma TakeKeeps(e: Endpoint, id: string, o: Outcome)
    requires CallsOk(e)
    requires SessionOk(o.s) && TimersFit(o.s, RunAfter(RunningOf(e.timers, id), o.ops))
    ensures CallsOk(Take(e, id, o)) && Take(e, id, o).timers.now == e.timers.now
  {
    var f := Take(e, id, o);
    ApplyOpsEffect(e.timers, id, o.ops);
    forall x | x in f.sessions ensures SessionFits(f, x) {
      if x != id {
        OtherRuns(e.timers, f.timers, id, x);
        assert SessionFits(e, x);
      }
    }
  }

  lemma NoneRunning(e: Endpoint, id: string)
    requires CallsOk(e) && id !in e.sessions
    ensures RunningOf(e.timers, id) == {}
  {
    assert forall k: Key :: k.session == id ==> k !in e.timers.running;
  }

  lemma LocalKeeps(e: Endpoint, id: string, v: Verb)
    requires CallsOk(e)
    ensures CallsOk(OnLocal(e, id, v).e) && AllForward(e, OnLocal(e, id, v).e)
    ensures OnLocal(e, id, v).e.keys == e.keys && OnLocal(e, id, v).e.timers.now == e.timers.now
  {
    if id in e.sessions {
      assert SessionFits(e, id);
      hide CallsOk, Requested, RunningOf, RunAfter, SessionOk, TimersFit, ApplyOps;
      RequestedKeeps(e.cx, e.timers.now, id, e.sessions[id], RunningOf(e.timers, id), v);
      TakeKeeps(e, id, Requested(e.cx, e.timers.now, id, e.sessions[id], RunningOf(e.timers, id), v));
    }
  }

  lemma PlaceCallKeeps(e: Endpoint, id: string, to: string)
    requires CallsOk(e)
    ensures CallsOk(OnPlaceCall(e, id, to).e) && AllForward(e, OnPlaceCall(e, id, to).e)
    ensures OnPlaceCall(e, id, to).e.keys == e.keys && OnPlaceCall(e, id, to).e.timers.now == e.timers.now
  {
    if id !in e.sessions {
      NoneRunning(e, id);
      var ops := PlaceOps(e.cx, id, to);
      var run: set<Name> := {};
      assert ops == [ops[0]] + [ops[1]];
      OneRun(run, ops[0]);
      StartRuns(run, [ops[0]], TEstablish, Or(e.cx.tEstablish, T_ESTABLISH));
      TakeKeeps(e, id, Outcome(NewAttempt(to), ops));
    }
  }

  lemma MessageKeeps(e: Endpoint, m: Message)
    requires CallsOk(e) && !m.body.Invite?
    ensures CallsOk(OnMessage(e, m).e) && AllForward(e, OnMessage(e, m).e)
    ensures OnMessage(e, m).e.keys == e.keys && OnMessage(e, m).e.timers.now == e.timers.now
  {
    var id := m.session;
    if id in e.sessions {
      assert SessionFits(e, id);
      ReceivedKeeps(e.cx, id, e.sessions[id], RunningOf(e.timers, id), m);
      TakeKeeps(e, id, Received(e.cx, id, e.sessions[id], RunningOf(e.timers, id), m));
    }
  }

  lemma WithdrawnKeeps(e: Endpoint, id: string)
    requires CallsOk(e) && ReusesOwn(e, id)
    ensures var f := Take(e, id, Withdrawn(e, id));
            CallsOk(f) && Forward(e.sessions[id], f.sessions[id]) && f.sessions[id].phase == ENDED
            && f.timers.now == e.timers.now
  {
    assert SessionFits(e, id);
    var s := e.sessions[id];
    var run := RunningOf(e.timers, id);
    StopAllRuns(run);
    var cancel := [Send(s.to, id, Cancel("session.glare"))];
    QuietRuns(run, StopAll(run), cancel);
    FinishKeeps(s, s.(endedBy := ByCancel), run, StopAll(run) + cancel, Some("session.glare"));
    TakeKeeps(e, id, Withdrawn(e, id));
  }

  ghost predicate Distinct(ids: seq<string>) {
    forall i, j :: 0 <= i < j < |ids| ==> ids[i] != ids[j]
  }

  /** `f` is `e` with exactly the sessions `ids` withdrawn. */
  ghost predicate WithdrawnFrom(e: Endpoint, f: Endpoint, ids: seq<string>) {
    && CallsOk(f) && f.cx == e.cx && f.keys == e.keys && f.timers.now == e.timers.now
    && f.sessions.Keys == e.sessions.Keys
    && (forall id :: id in e.sessions && id !in ids ==> f.sessions[id] == e.sessions[id])
    && (forall id :: id in e.sessions && id in ids ==> f.sessions[id].phase == ENDED && Forward(e.sessions[id], f.sessions[id]))
  }

  lemma TakeWithdrawn(e: Endpoint, id: string)
    requires id in e.sessions
    ensures var f := Take(e, id, Withdrawn(e, id));
            && f.cx == e.cx && f.keys == e.keys && f.sessions.Keys == e.sessions.Keys
            && (forall x :: x in e.sessions && x != id ==> f.sessions[x] == e.sessions[x])
  {
    hide Withdrawn;
  }

  lemma {:induction false} WithdrawEachKeeps(e: Endpoint, ids: seq<string>)
    requires CallsOk(e) && Distinct(ids)
    requires forall id :: id in ids ==> ReusesOwn(e, id)
    ensures WithdrawnFrom(e, WithdrawEach(e, ids).e, ids)
  {
    hide CallsOk, Withdrawn, CallEmits, Take, Forward;
    if ids != [] {
      var front, id := ids[..|ids| - 1], ids[|ids| - 1];
      assert ids == front + [id];
      WithdrawEachKeeps(e, front);
      var r := WithdrawEach(e, front).e;
      assert id !in front;
      assert ReusesOwn(e, id);
      assert ReusesOwn(r, id);
      WithdrawnKeeps(r, id);
      TakeWithdrawn(r, id);
    }
  }

  lemma SortedDistinct(s: set<string>)
    ensures Distinct(Sorted(s))
  {
    if s != {} {
      SortedDistinct(s - {Least(s)});
    }
  }

  lemma DeclinedKeeps(e: Endpoint, m: Message, expires: Option<int>, reason: string)
    requires CallsOk(e)
    requires RunningOf(e.timers, m.session) == {}
    ensures CallsOk(Declined(e, m, expires, reason).e) && CallsOk(Offered(e, m, expires))
  {
    var o := Outcome(NewOffer(ENDED, m.from, expires), []);
    TakeKeeps(e, m.session, o);
    TakeKeeps(e, m.session, Outcome(NewOffer(OFFERED, m.from, expires), []));
  }

  /** A session put in place of one whose timer still runs does not fit. */
  lemma OverwriteBreaks(e: Endpoint, f: Endpoint, id: string)
    requires SessionFits(e, id) && OwnAttempt(e.sessions[id])
    requires id in f.sessions && f.sessions[id].phase in {ENDED, OFFERED} && RunningOf(f.timers, id) == RunningOf(e.timers, id)
    ensures !CallsOk(f)
  {
    assert !SessionFits(f, id);
  }

  /** Our own attempt under the invite's id is itself the smallest rival, so it is withdrawn, not overwritten. */
  ghost predicate SameIdGlare(e: Endpoint, m: Message)
    requires m.body.Invite?
  {
    && !Expired(e, m)
    && (e.cx.firstContactRequired ==> Admitted(e, m.from))
    && m.session in Rivals(e, IdentityOf(e.cx, m.from))
    && Least(Rivals(e, IdentityOf(e.cx, m.from))) == m.session
  }

  /** The invite is refused, or offered with no rival: the session under its id is replaced. */
  ghost predicate PlainlyReplaced(e: Endpoint, m: Message)
    requires m.body.Invite?
  {
    var rivals := Rivals(e, IdentityOf(e.cx, m.from));
    || Expired(e, m) || (e.cx.firstContactRequired && !Admitted(e, m.from))
    || rivals == {} || Less(Least(rivals), m.session)
  }

  lemma PlainInvite(e: Endpoint, m: Message)
    requires CallsOk(e) && m.body.Invite? && (m.session in e.sessions ==> OwnAttempt(e.sessions[m.session]))
    requires PlainlyReplaced(e, m)
    ensures CallsOk(OnInvite(e, m).e) <==> !ReusesOwn(e, m.session)
    ensures !ReusesOwn(e, m.session) ==> AllForward(e, OnInvite(e, m).e)
  {
    var f := OnInvite(e, m).e;
    if ReusesOwn(e, m.session) {
      assert SessionFits(e, m.session);
      OverwriteBreaks(e, f, m.session);
    } else {
      NoneRunning(e, m.session);
      DeclinedKeeps(e, m, m.body.expiresAt, "session.expired");
      DeclinedKeeps(e, m, m.body.expiresAt, "policy.first-contact-required");
      DeclinedKeeps(e, m, m.body.expiresAt, "session.glare");
    }
  }

  lemma GlareInvite(e: Endpoint, m: Message)
    requires CallsOk(e) && m.body.Invite? && (m.session in e.sessions ==> OwnAttempt(e.sessions[m.session]))
    requires !PlainlyReplaced(e, m)
    ensures CallsOk(OnInvite(e, m).e) <==> !ReusesOwn(e, m.session) || SameIdGlare(e, m)
    ensures !ReusesOwn(e, m.session) || SameIdGlare(e, m) ==> AllForward(e, OnInvite(e, m).e)
  {
    var id := m.session;
    var rivals := Rivals(e, IdentityOf(e.cx, m.from));
    SortedDistinct(rivals);
    WithdrawEachKeeps(e, Sorted(rivals));
    var w := WithdrawEach(e, Sorted(rivals)).e;
    if Least(rivals) != id {
      LessTotal(Least(rivals), id);
      assert id !in rivals;
      if ReusesOwn(e, id) {
        assert SessionFits(w, id);
        OverwriteBreaks(w, Offered(w, m, m.body.expiresAt), id);
      } else {
        NoneRunning(w, id);
        DeclinedKeeps(w, m, m.body.expiresAt, "");
      }
    }
  }

  /**
   * An invite keeps the endpoint exactly when it does not reuse the id of a live attempt of ours, or is met as
   * glare under that very id.
   */
  lemma InviteKeepsExactly(e: Endpoint, m: Message)
    requires CallsOk(e) && m.body.Invite?
    ensures CallsOk(OnInvite(e, m).e) <==> !ReusesOwn(e, m.session) || SameIdGlare(e, m)
    ensures !ReusesOwn(e, m.session) || SameIdGlare(e, m) ==> AllForward(e, OnInvite(e, m).e)
  {
    var rivals := Rivals(e, IdentityOf(e.cx, m.from));
    if m.session in e.sessions && !OwnAttempt(e.sessions[m.session]) {
    } else if PlainlyReplaced(e, m) {
      if rivals != {} { LessTotal(Least(rivals), m.session); }
      PlainInvite(e, m);
    } else {
      GlareInvite(e, m);
    }
  }

  lemma InviteSame(e: Endpoint, m: Message)
    requires CallsOk(e) && m.body.Invite?
    ensures OnInvite(e, m).e.keys == e.keys && OnInvite(e, m).e.timers.now == e.timers.now
  {
    var rivals := Rivals(e, IdentityOf(e.cx, m.from));
    SortedDistinct(rivals);
    WithdrawEachKeeps(e, Sorted(rivals)) by { hide CallsOk; }
    hide CallsOk, WithdrawEach, Rivals, Admitted;
  }
}
