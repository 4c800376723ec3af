/** Sorting a finite set by a strict total order: the sorted list exists and is unique. */
module Orders {

  ghost predicate Total<T(!new)>(before: (T, T) -> bool, s: set<T>) {
    && (forall a, b :: a in s && b in s && a != b ==> before(a, b) != before(b, a))
    && (forall a, b, c :: a in s && b in s && c in s && before(a, b) && before(b, c) ==> before(a, c))
    && (forall a :: a in s ==> !before(a, a))
  }

  ghost predicate IsFirst<T(!new)>(before: (T, T) -> bool, s: set<T>, m: T) {
    m in s && forall x :: x in s && x != m ==> before(m, x)
  }

  lemma {:induction false} FirstExists<T(!new)>(before: (T, T) -> bool, s: set<T>)
    requires s != {} && Total(before, s)
    ensures exists m :: IsFirst(before, s, m)
    decreases |s|
  {
    var x :| x in s;
    var rest := s - {x};
    if rest == {} {
      assert s == {x};
      assert IsFirst(before, s, x);
    } else {
      FirstExists(before, rest);
      var m :| IsFirst(before, rest, m);
      if before(m, x) {
        assert IsFirst(before, s, m);
      } else {
        assert IsFirst(before, s, x);
      }
    }
  }

  ghost function First<T(!new)>(before: (T, T) -> bool, s: set<T>): (m: T)
    requires s != {} && Total(before, s)
    ensures IsFirst(before, s, m)
  {
    FirstExists(before, s);
    var m :| IsFirst(before, s, m); m
  }

  ghost function InOrder<T(!new)>(before: (T, T) -> bool, s: set<T>): (q: seq<T>)
    requires Total(before, s)
    ensures |q| == |s| && forall x :: x in q <==> x in s
    decreases |s|
  {
    if s == {} then [] else [First(before, s)] + InOrder(before, s - {First(before, s)})
  }

  ghost predicate Ascending<T(!new)>(before: (T, T) -> bool, q: seq<T>) {
    forall i, j :: 0 <= i < j < |q| ==> before(q[i], q[j])
  }

  /** Whatever order the elements are met in, a sorted list of them is this one. */
  lemma {:induction false} OrderIsUnique<T(!new)>(before: (T, T) -> bool, s: set<T>, q: seq<T>)
    requires Total(before, s) && Ascending(before, q) && forall x :: x in q <==> x in s
    ensures q == InOrder(before, s)
    decreases |q|
  {
    if q == [] {
      assert s == {};
    } else {
      var f, tail := q[0], q[1..];
      assert q == [f] + tail;
      assert f in q;
      assert IsFirst(before, s, f) by {
        forall x | x in s && x != f ensures before(f, x) { assert x in q; }
      }
      assert f == First(before, s);
      forall x ensures x in tail <==> x in s - {f} {
        assert x in q <==> x == f || x in tail;
      }
      OrderIsUnique(before, s - {f}, tail);
    }
  }

  lemma {:induction false} InOrderAscends<T(!new)>(before: (T, T) -> bool, s: set<T>)
    requires Total(before, s)
    ensures Ascending(before, InOrder(before, s))
    decreases |s|
  {
    if s != {} {
      var m := First(before, s);
      InOrderAscends(before, s - {m});
      var rest := InOrder(before, s - {m});
      forall i, j | 0 <= i < j < |rest| + 1 ensures before(([m] + rest)[i], ([m] + rest)[j]) {
        if i == 0 { assert rest[j - 1] in rest; }
      }
    }
  }
}
