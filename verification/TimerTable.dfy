/** The named per-session timers of `timers.ts`: the table as a value, and the class that keeps it. */
module TimerTable {
  import opened Prelude

  datatype Name = TEstablish | TRing | TQueue | TRingLocal

  datatype Key = Key(name: Name, session: string)

  datatype Entry = Entry(deadline: int, order: nat)

  /** What the clock knows: at most one running timer per name and session. */
  datatype Table = Table(running: map<Key, Entry>, order: nat, now: int)

  function Started(t: Table, name: Name, session: string, seconds: int): Table {
    t.(running := t.running[Key(name, session) := Entry(t.now + seconds, t.order)], order := t.order + 1)
  }

  function Stopped(t: Table, name: Name, session: string): Table {
    t.(running := t.running - {Key(name, session)})
  }

  predicate Running(t: Table, name: Name, session: string) {
    Key(name, session) in t.running
  }

  /** Start orders are distinct, so "earliest deadline, then start order" names one timer. */
  ghost predicate WellFormed(t: Table) {
    && (forall k :: k in t.running ==> t.running[k].order < t.order)
    && (forall k, l :: k in t.running && l in t.running && t.running[k].order == t.running[l].order ==> k == l)
  }

  predicate Before(a: Entry, b: Entry) {
    a.deadline < b.deadline || (a.deadline == b.deadline && a.order < b.order)
  }

  /** `k` is what fires next among the timers due by now. */
  ghost predicate FiresFirst(t: Table, k: Key) {
    && k in t.running
    && t.running[k].deadline <= t.now
    && forall l :: l in t.running && l != k && t.running[l].deadline <= t.now ==> Before(t.running[k], t.running[l])
  }

  ghost predicate AnyDue(t: Table) {
    exists k :: k in t.running && t.running[k].deadline <= t.now
  }

  lemma FiresFirstUnique(t: Table, k: Key, l: Key)
    requires FiresFirst(t, k) && FiresFirst(t, l)
    ensures k == l
  {
  }

  lemma {:induction false} FirstOf(t: Table, due: set<Key>) returns (k: Key)
    requires WellFormed(t) && due != {} && due <= t.running.Keys
    ensures k in due && forall l :: l in due && l != k ==> Before(t.running[k], t.running[l])
    decreases |due|
  {
    var x :| x in due;
    var rest := due - {x};
    k := x;
    assert forall l :: l in due && l != x ==> l in rest;
    if rest != {} {
      var m := FirstOf(t, rest);
      assert t.running[x].order != t.running[m].order;
      if Before(t.running[m], t.running[x]) {
        k := m;
        forall l | l in due && l != m ensures Before(t.running[m], t.running[l]) { assert l == x || l in rest; }
      } else {
        forall l | l in due && l != x ensures Before(t.running[x], t.running[l]) {
          assert l in rest && (l == m || Before(t.running[m], t.running[l]));
        }
      }
    }
  }

  ghost function FirstDue(t: Table): (k: Key)
    requires WellFormed(t) && AnyDue(t)
    ensures FiresFirst(t, k)
  {
    assert exists k :: FiresFirst(t, k) by {
      var due := set k | k in t.running && t.running[k].deadline <= t.now;
      var d :| d in t.running && t.running[d].deadline <= t.now;
      assert d in due;
      var k := FirstOf(t, due);
      assert FiresFirst(t, k);
    }
    var k :| FiresFirst(t, k); k
  }

  datatype Timer = Timer(name: Name, session: string, deadline: int, order: nat) {
    function KeyOf(): Key { Key(name, session) }
    function EntryOf(): Entry { Entry(deadline, order) }
  }

  /** The list of timers read as the table. */
  function Entries(ts: seq<Timer>): map<Key, Entry> {
    if ts == [] then map[]
    else Entries(ts[..|ts| - 1])[ts[|ts| - 1].KeyOf() := ts[|ts| - 1].EntryOf()]
  }

  predicate NoRepeats(ts: seq<Timer>) {
    ts != [] ==> NoRepeats(ts[..|ts| - 1]) && ts[|ts| - 1].KeyOf() !in Entries(ts[..|ts| - 1])
  }

  lemma {:induction false} ListedIsRunning(ts: seq<Timer>, i: nat)
    requires NoRepeats(ts) && i < |ts|
    ensures ts[i].KeyOf() in Entries(ts) && Entries(ts)[ts[i].KeyOf()] == ts[i].EntryOf()
  {
    if i < |ts| - 1 {
      ListedIsRunning(ts[..|ts| - 1], i);
    }
  }

  lemma {:induction false} RunningIsListed(ts: seq<Timer>, k: Key) returns (i: nat)
    requires k in Entries(ts)
    ensures i < |ts| && ts[i].KeyOf() == k && ts[i].EntryOf() == Entries(ts)[k]
  {
    i := |ts| - 1;
    if ts[i].KeyOf() != k {
      i := RunningIsListed(ts[..|ts| - 1], k);
    }
  }

  /** The list without one key's timer: the `filter` of `stop`. */
  function Without(ts: seq<Timer>, k: Key): seq<Timer> {
    if ts == [] then []
    else Without(ts[..|ts| - 1], k) + if ts[|ts| - 1].KeyOf() == k then [] else [ts[|ts| - 1]]
  }

  lemma {:induction false} WithoutEntries(ts: seq<Timer>, k: Key)
    requires NoRepeats(ts)
    ensures NoRepeats(Without(ts, k))
    ensures Entries(Without(ts, k)) == Entries(ts) - {k}
  {
    if ts != [] {
      var front, t := ts[..|ts| - 1], ts[|ts| - 1];
      WithoutEntries(front, k);
      var rest := Without(front, k);
      if t.KeyOf() == k {
        assert Without(ts, k) == rest;
      } else {
        assert (rest + [t])[..|rest|] == rest;
      }
    }
  }

  class Timers {
    var timers: seq<Timer>
    var order: nat
    var now: int

    ghost predicate Valid()
      reads this
    {
      NoRepeats(timers) && WellFormed(Contents())
    }

    ghost function Contents(): Table
      reads this
    {
      Table(Entries(timers), order, now)
    }

    constructor (now: int)
      ensures Valid() && Contents() == Table(map[], 0, now)
    {
      this.timers := [];
      this.order := 0;
      this.now := now;
    }

    method Stop(name: Name, session: string) returns (was: bool)
      requires Valid()
      modifies this
      ensures Valid() && Contents() == Stopped(old(Contents()), name, session)
      ensures was == Running(old(Contents()), name, session)
    {
      var ts := timers;
      var kept := [];
      was := false;
      for i := 0 to |ts|
        invariant kept == Without(ts[..i], Key(name, session))
        invariant was == (Key(name, session) in Entries(ts[..i]))
      {
        assert ts[..i + 1][..i] == ts[..i];
        if ts[i].KeyOf() == Key(name, session) {
          was := true;
        } else {
          kept := kept + [ts[i]];
        }
      }
      assert ts[..|ts|] == ts;
      WithoutEntries(ts, Key(name, session));
      timers := kept;
    }

    method Start(name: Name, session: string, seconds: int)
      requires Valid()
      modifies this
      ensures Valid() && Contents() == Started(old(Contents()), name, session, seconds)
    {
      var _ := Stop(name, session);
      var t := Timer(name, session, now + seconds, order);
      assert (timers + [t])[..|timers|] == timers;
      timers, order := timers + [t], order + 1;
    }

    method IsRunning(name: Name, session: string) returns (r: bool)
      requires Valid()
      ensures r == Running(Contents(), name, session)
    {
      var ts := timers;
      r := false;
      for i := 0 to |ts|
        invariant r == (Key(name, session) in Entries(ts[..i]))
      {
        assert ts[..i + 1][..i] == ts[..i];
        if ts[i].KeyOf() == Key(name, session) {
          r := true;
        }
      }
      assert ts[..|ts|] == ts;
    }

    /** The timer that fires next, taken out of the table. */
    method TakeDue() returns (due: Option<Timer>)
      requires Valid()
      modifies this
      ensures Valid()
      ensures due.None? ==> !AnyDue(old(Contents())) && Contents() == old(Contents())
      ensures due.Some? ==> AnyDue(old(Contents())) && FirstDue(old(Contents())) == due.value.KeyOf()
      ensures due.Some? ==> Contents() == Stopped(old(Contents()), due.value.name, due.value.session)
    {
      var ts, now := timers, now;
      var at := 0;
      due := None;
      for i := 0 to |ts|
        invariant unchanged(this)
        invariant due.None? ==> forall j :: 0 <= j < i ==> now < ts[j].deadline
        invariant due.Some? ==> at < i && due.value == ts[at] && ts[at].deadline <= now
        invariant due.Some? ==> forall j :: 0 <= j < i && j != at && ts[j].deadline <= now ==>
                                  Before(ts[at].EntryOf(), ts[j].EntryOf())
      {
        if ts[i].deadline <= now {
          if due.Some? {
            DistinctEntries(ts, at, i);
          }
          if due.None? || Before(ts[i].EntryOf(), ts[at].EntryOf()) {
            due, at := Some(ts[i]), i;
          }
        }
      }
      if due.None? {
        forall k | k in Contents().running ensures now < Contents().running[k].deadline {
          var i := RunningIsListed(ts, k);
        }
      } else {
        FirstListed(Contents(), ts, at);
        var _ := Stop(due.value.name, due.value.session);
      }
    }
  }

  lemma {:induction false} KeysDiffer(ts: seq<Timer>, i: nat, j: nat)
    requires NoRepeats(ts) && i < j < |ts|
    ensures ts[i].KeyOf() != ts[j].KeyOf()
  {
    var front := ts[..|ts| - 1];
    if j == |ts| - 1 {
      ListedIsRunning(front, i);
    } else {
      KeysDiffer(front, i, j);
    }
  }

  lemma DistinctEntries(ts: seq<Timer>, i: nat, j: nat)
    requires NoRepeats(ts) && i < |ts| && j < |ts| && i != j
    requires forall k, l :: k in Entries(ts) && l in Entries(ts) && Entries(ts)[k].order == Entries(ts)[l].order ==> k == l
    ensures Before(ts[i].EntryOf(), ts[j].EntryOf()) || Before(ts[j].EntryOf(), ts[i].EntryOf())
  {
    ListedIsRunning(ts, i);
    ListedIsRunning(ts, j);
    KeysDiffer(ts, if i < j then i else j, if i < j then j else i);
  }

  lemma FirstListed(t: Table, ts: seq<Timer>, at: nat)
    requires WellFormed(t) && t.running == Entries(ts) && NoRepeats(ts)
    requires at < |ts| && ts[at].deadline <= t.now
    requires forall j :: 0 <= j < |ts| && j != at && ts[j].deadline <= t.now ==> Before(ts[at].EntryOf(), ts[j].EntryOf())
    ensures AnyDue(t) && FirstDue(t) == ts[at].KeyOf()
  {
    var k := ts[at].KeyOf();
    ListedIsRunning(ts, at);
    forall l | l in t.running && l != k && t.running[l].deadline <= t.now ensures Before(t.running[k], t.running[l]) {
      var j := RunningIsListed(ts, l);
    }
    FiresFirstUnique(t, k, FirstDue(t));
  }
}
