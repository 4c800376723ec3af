/**
 * The gateway's table of informs (`InformTable` of `device-events.ts`): a retransmitted inform deposits no second
 * event until the first is refused or its answer is forgotten.
 */
module Informs {
  import opened Prelude

  const ANSWERED_FOR := 300

  datatype Key = Key(source: string, requestId: int)

  datatype Status = Pending | Answered(until: int)

  datatype Event = Inform(key: Key) | Accepted(key: Key) | Refused(key: Key) | Advance(seconds: nat)

  datatype Emission = Deposit(key: Key) | Respond(key: Key)

  datatype Table = Table(now: int, informs: map<Key, Status>)

  datatype Result = Result(t: Table, emit: seq<Emission>)

  predicate Lapsed(s: Status, now: int) { s.Answered? && s.until <= now }

  function Step(t: Table, ev: Event): Result {
    match ev
    case Inform(k) =>
      if k !in t.informs then Result(t.(informs := t.informs[k := Pending]), [Deposit(k)])
      else if t.informs[k].Answered? then Result(t, [Respond(k)])
      else Result(t, [])
    case Accepted(k) =>
      if k in t.informs && t.informs[k].Pending? then
        Result(t.(informs := t.informs[k := Answered(t.now + ANSWERED_FOR)]), [Respond(k)])
      else Result(t, [])
    case Refused(k) =>
      if k in t.informs && t.informs[k].Pending? then Result(t.(informs := t.informs - {k}), []) else Result(t, [])
    case Advance(s) =>
      var now := t.now + s;
      Result(Table(now, map k | k in t.informs && !Lapsed(t.informs[k], now) :: t.informs[k]), [])
  }

  class InformTable {
    var now: int
    var informs: map<Key, Status>

    ghost function View(): Table
      reads this
    {
      Table(now, informs)
    }

    constructor (now: int)
      ensures View() == Table(now, map[])
    {
      this.now, informs := now, map[];
    }

    method Forget()
      modifies this`informs
      ensures informs == map k | k in old(informs) && !Lapsed(old(informs)[k], now) :: old(informs)[k]
    {
      var todo := informs.Keys;
      while todo != {}
        invariant todo <= informs.Keys <= old(informs).Keys
        invariant forall k :: k in informs ==> informs[k] == old(informs)[k]
        invariant forall k :: k in old(informs) && k !in todo ==> (k in informs <==> !Lapsed(old(informs)[k], now))
        decreases todo
      {
        var k :| k in todo;
        if Lapsed(informs[k], now) { informs := informs - {k}; }
        todo := todo - {k};
      }
    }

    method Take(ev: Event) returns (emit: seq<Emission>)
      modifies this
      ensures Result(View(), emit) == Step(old(View()), ev)
    {
      emit := [];
      match ev {
        case Inform(k) =>
          if k !in informs {
            informs := informs[k := Pending];
            emit := [Deposit(k)];
          } else if informs[k].Answered? {
            emit := [Respond(k)];
          }
        case Accepted(k) =>
          if k in informs && informs[k].Pending? {
            informs := informs[k := Answered(now + ANSWERED_FOR)];
            emit := [Respond(k)];
          }
        case Refused(k) =>
          if k in informs && informs[k].Pending? { informs := informs - {k}; }
        case Advance(seconds) =>
          now := now + seconds;
          Forget();
      }
    }
  }

  // ---- runs

  /** The gateway's answer: the event could not be stored. */
  predicate Refuses(t: Table, ev: Event, k: Key) { ev == Refused(k) && k in t.informs && t.informs[k].Pending? }

  /** The clock passes the end of an answer's time. */
  predicate Lapses(t: Table, ev: Event, k: Key) { ev.Advance? && k in t.informs && Lapsed(t.informs[k], t.now + ev.seconds) }

  datatype Tally = Tally(t: Table, deposits: nat, refusals: nat, lapses: nat)

  /** A run of the table, the deposits it made for one inform, and the events that end one: refusals of it and lapses of its answer. */
  function Run(start: int, evs: seq<Event>, k: Key): Tally {
    if evs == [] then Tally(Table(start, map[]), 0, 0, 0)
    else
      var r, ev := Run(start, evs[..|evs| - 1], k), evs[|evs| - 1];
      var s := Step(r.t, ev);
      Tally(s.t, r.deposits + (if Deposit(k) in s.emit then 1 else 0),
            r.refusals + (if Refuses(r.t, ev, k) then 1 else 0), r.lapses + (if Lapses(r.t, ev, k) then 1 else 0))
  }

  /** An inform is gone after an event exactly if that refuses it while pending or passes the end of its answer's time. */
  lemma GoneExactly(t: Table, ev: Event, k: Key)
    requires k in t.informs
    ensures k !in Step(t, ev).t.informs <==> Refuses(t, ev, k) || Lapses(t, ev, k)
    ensures Deposit(k) !in Step(t, ev).emit
  {
  }

  /** And it is there exactly if its event was deposited. */
  lemma ComesExactly(t: Table, ev: Event, k: Key)
    requires k !in t.informs
    ensures k in Step(t, ev).t.informs <==> Deposit(k) in Step(t, ev).emit
  {
  }

  /**
   * In every run an inform's deposits are exactly its refusals, the lapses of its answers, and the one still held: a
   * retransmission deposits nothing until one of those two has ended the inform before it.
   */
  lemma {:induction false} EveryDepositAccounted(start: int, evs: seq<Event>, k: Key)
    ensures var r := Run(start, evs, k);
      r.deposits == r.refusals + r.lapses + if k in r.t.informs then 1 else 0
  {
    hide Step;
    if evs != [] {
      var front, ev := evs[..|evs| - 1], evs[|evs| - 1];
      EveryDepositAccounted(start, front, k);
      var t := Run(start, front, k).t;
      if k in t.informs { GoneExactly(t, ev, k); } else { ComesExactly(t, ev, k); }
    }
  }

  /** When the inform that is held was last accepted. */
  function AcceptedAt(start: int, evs: seq<Event>, k: Key): Option<int> {
    if evs == [] then None
    else
      var t := Run(start, evs[..|evs| - 1], k).t;
      if evs[|evs| - 1] == Accepted(k) && k in t.informs && t.informs[k].Pending? then Some(t.now)
      else AcceptedAt(start, evs[..|evs| - 1], k)
  }

  /** In every run an answer is repeated for 300 seconds from its acceptance and no longer. */
  lemma {:induction false} AnswersInTime(start: int, evs: seq<Event>, k: Key)
    ensures var t := Run(start, evs, k).t;
      k in t.informs && t.informs[k].Answered? ==>
        && AcceptedAt(start, evs, k) == Some(t.informs[k].until - ANSWERED_FOR)
        && t.now < t.informs[k].until
  {
    if evs != [] { AnswersInTime(start, evs[..|evs| - 1], k); }
  }
}
