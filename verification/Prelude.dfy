/** Shared vocabulary: optional values, the code-unit order on strings, and sorted key lists. */
module Prelude {

  datatype Option<+T> = None | Some(value: T)

  function Or<T>(o: Option<T>, default: T): T {
    match o case Some(v) => v case None => default
  }

  /** JavaScript's `<` on strings: code unit by code unit, a proper prefix first. */
  predicate Less(a: string, b: string) {
    if b == "" then false
    else if a == "" then true
    else if a[0] != b[0] then a[0] < b[0]
    else Less(a[1..], b[1..])
  }

  /** One string is before another exactly if it is a proper prefix or has the smaller unit where they first differ. */
  lemma {:induction false} LessIs(a: string, b: string)
    ensures Less(a, b) <==> a < b || exists k :: 0 <= k < |a| && k < |b| && a[..k] == b[..k] && a[k] < b[k]
  {
    if a != "" && b != "" {
      if a[0] == b[0] {
        LessIs(a[1..], b[1..]);
        assert a == [a[0]] + a[1..] && b == [b[0]] + b[1..];
        if k :| 0 <= k < |a[1..]| && k < |b[1..]| && a[1..][..k] == b[1..][..k] && a[1..][k] < b[1..][k] {
          assert a[..k + 1] == [a[0]] + a[1..][..k] && b[..k + 1] == [b[0]] + b[1..][..k];
          assert a[k + 1] < b[k + 1];
        }
        if k :| 0 <= k < |a| && k < |b| && a[..k] == b[..k] && a[k] < b[k] {
          assert k > 0;
          assert a[1..][..k - 1] == a[..k][1..] && b[1..][..k - 1] == b[..k][1..];
          assert a[1..][k - 1] < b[1..][k - 1];
        }
      } else {
        assert a[..0] == b[..0];
        forall k | 0 < k < |a| && k < |b| ensures a[..k] != b[..k] { assert a[..k][0] == a[0] && b[..k][0] == b[0]; }
      }
    } else {
      assert a == "" && b != "" ==> a < b;
    }
  }

  lemma {:induction false} LessTotal(a: string, b: string)
    ensures a == b || Less(a, b) || Less(b, a)
    ensures !(Less(a, b) && Less(b, a))
    ensures Less(a, b) ==> a != b
  {
    if a != "" && b != "" && a[0] == b[0] {
      LessTotal(a[1..], b[1..]);
      assert a == [a[0]] + a[1..] && b == [b[0]] + b[1..];
    }
  }

  lemma {:induction false} LessTransitive(a: string, b: string, c: string)
    requires Less(a, b) && Less(b, c)
    ensures Less(a, c)
  {
    if a != "" && a[0] == b[0] && b[0] == c[0] {
      LessTransitive(a[1..], b[1..], c[1..]);
    }
  }

  ghost predicate IsLeast(m: string, s: set<string>) {
    m in s && forall x :: x in s && x != m ==> Less(m, x)
  }

  lemma {:induction false} LeastExists(s: set<string>)
    requires s != {}
    ensures exists m :: IsLeast(m, s)
    decreases |s|
  {
    var x :| x in s;
    var rest := s - {x};
    if rest == {} {
      assert s == {x};
      assert IsLeast(x, s);
    } else {
      LeastExists(rest);
      var m :| IsLeast(m, rest);
      LessTotal(m, x);
      if Less(m, x) {
        assert IsLeast(m, s);
      } else {
        forall y | y in s && y != x ensures Less(x, y) {
          if y != m { LessTransitive(x, m, y); }
        }
        assert IsLeast(x, s);
      }
    }
  }

  lemma LeastUnique(s: set<string>, a: string, b: string)
    requires IsLeast(a, s) && IsLeast(b, s)
    ensures a == b
  {
    LessTotal(a, b);
  }

  ghost function Least(s: set<string>): (m: string)
    requires s != {}
    ensures IsLeast(m, s)
  {
    LeastExists(s);
    var m :| IsLeast(m, s); m
  }

  /** The elements of `s` in code-unit order. */
  ghost function Sorted(s: set<string>): (r: seq<string>)
    ensures |r| == |s|
    ensures forall x :: x in r <==> x in s
    decreases |s|
  {
    if s == {} then [] else [Least(s)] + Sorted(s - {Least(s)})
  }

  lemma SortedFirst(s: set<string>)
    ensures Sorted(s) == [] <==> s == {}
    ensures s != {} ==> Sorted(s)[0] == Least(s)
  {
  }

  lemma {:induction false} SortedAscends(s: set<string>)
    ensures forall i, j :: 0 <= i < j < |Sorted(s)| ==> Less(Sorted(s)[i], Sorted(s)[j])
    decreases |s|
  {
    hide Less;
    if s != {} {
      var m, rest := Least(s), Sorted(s - {Least(s)});
      SortedAscends(s - {m});
      assert Sorted(s) == [m] + rest;
      forall i, j | 0 <= i < j < |Sorted(s)| ensures Less(Sorted(s)[i], Sorted(s)[j]) {
        assert Sorted(s)[j] == rest[j - 1];
        assert rest[j - 1] in s - {m};
        if i > 0 { assert Sorted(s)[i] == rest[i - 1]; }
      }
    }
  }

  lemma SortedOne(id: string)
    ensures Sorted({id}) == [id] && Least({id}) == id
  {
    assert {id} - {id} == {};
    assert Sorted({id}) == [Least({id})] + Sorted({id} - {Least({id})});
  }

  method FindLeast(s: set<string>) returns (m: string)
    requires s != {}
    ensures m == Least(s)
  {
    m :| m in s;
    var scan := s - {m};
    while scan != {}
      invariant m in s && scan <= s && m !in scan
      invariant forall y :: y in s && y !in scan && y != m ==> Less(m, y)
      decreases scan
    {
      hide Less;
      var y :| y in scan;
      LessTotal(m, y);
      var less := Less(m, y);
      if !less {
        forall z | z in s && z !in scan - {y} && z != y ensures Less(y, z) {
          if z != m { LessTransitive(y, m, z); }
        }
        m := y;
      }
      scan := scan - {y};
    }
    assert IsLeast(m, s);
    LeastUnique(s, m, Least(s));
  }

  /** Sorts a key set, as `[...keys].sort()` does. */
  method SortKeys(s: set<string>) returns (r: seq<string>)
    ensures r == Sorted(s)
  {
    r := [];
    var left := s;
    while left != {}
      invariant left <= s
      invariant r + Sorted(left) == Sorted(s)
      decreases left
    {
      var m := FindLeast(left);
      assert Sorted(left) == [m] + Sorted(left - {m});
      assert r + Sorted(left) == (r + [m]) + Sorted(left - {m});
      r := r + [m];
      left := left - {m};
    }
    assert r + [] == r;
  }
}
