/**
 * Canonical JSON as `webvh.ts` writes it (section 3.2 of RFC 8785, restricted to integers): two values have one
 * canonical form only when they are the same value.
 */
module Canonical {
  import Orders
  import opened Prelude

  /** A UTF-16 code unit. */
  newtype unit = x: int | 0 <= x < 0x10000

  type Text = seq<unit>

  datatype Json =
    | Null
    | Bool(b: bool)
    | Int(n: int)
    | Str(s: Text)
    | Arr(items: seq<Json>)
    | Obj(members: map<Text, Json>)

  // ---- the order of member names: by code unit, a proper prefix first

  predicate Before(a: Text, b: Text) {
    if b == [] then false
    else if a == [] then true
    else if a[0] != b[0] then a[0] < b[0]
    else Before(a[1..], b[1..])
  }

  lemma {:induction false} BeforeTotal(a: Text, b: Text)
    ensures a == b || Before(a, b) || Before(b, a)
    ensures !(Before(a, b) && Before(b, a)) && (a == b ==> !Before(a, b))
  {
    if a != [] && b != [] && a[0] == b[0] {
      BeforeTotal(a[1..], b[1..]);
      assert a == [a[0]] + a[1..] && b == [b[0]] + b[1..];
    }
  }

  lemma {:induction false} BeforeTransitive(a: Text, b: Text, c: Text)
    requires Before(a, b) && Before(b, c)
    ensures Before(a, c)
  {
    if a != [] && a[0] == b[0] && b[0] == c[0] { BeforeTransitive(a[1..], b[1..], c[1..]); }
  }

  /** One name is before another exactly if it is a proper prefix or has the smaller unit where they first differ. */
  lemma {:induction false} BeforeIs(a: Text, b: Text)
    ensures Before(a, b) <==> a < b || exists k :: 0 <= k < |a| && k < |b| && a[..k] == b[..k] && a[k] < b[k]
  {
    if a != [] && b != [] {
      if a[0] == b[0] {
        BeforeIs(a[1..], b[1..]);
        assert a == [a[0]] + a[1..] && b == [b[0]] + b[1..];
        if k :| 0 <= k < |a[1..]| && k < |b[1..]| && a[1..][..k] == b[1..][..k] && a[1..][k] < b[1..][k] {
          assert a[..k + 1] == [a[0]] + a[1..][..k] && b[..k + 1] == [b[0]] + b[1..][..k];
          assert a[k + 1] < b[k + 1];
        }
        if k :| 0 <= k < |a| && k < |b| && a[..k] == b[..k] && a[k] < b[k] {
          assert k > 0;
          assert a[1..][..k - 1] == a[..k][1..] && b[1..][..k - 1] == b[..k][1..];
          assert a[1..][k - 1] < b[1..][k - 1];
        }
      } else {
        assert a[..0] == b[..0];
        forall k | 0 < k < |a| && k < |b| ensures a[..k] != b[..k] { assert a[..k][0] == a[0] && b[..k][0] == b[0]; }
      }
    } else {
      assert a == [] && b != [] ==> a < b;
    }
  }

  lemma NamesTotal(names: set<Text>)
    ensures Orders.Total(Before, names)
  {
    forall a, b | a in names && b in names ensures a != b ==> Before(a, b) != Before(b, a)
                                           ensures !Before(a, a)
    {
      BeforeTotal(a, b);
      BeforeTotal(a, a);
    }
    forall a, b, c | a in names && b in names && c in names && Before(a, b) && Before(b, c) ensures Before(a, c) {
      BeforeTransitive(a, b, c);
    }
  }

  ghost function Names(m: map<Text, Json>): (r: seq<Text>)
    ensures forall k :: k in r <==> k in m
  {
    NamesTotal(m.Keys);
    Orders.InOrder(Before, m.Keys)
  }

  /** Each name is written once, ahead of every name it is a prefix of and of every name with a larger unit where they
      first differ (section 3.2.3 of RFC 8785). */
  lemma NamesAscend(m: map<Text, Json>, i: nat, j: nat)
    requires i < j < |Names(m)|
    ensures var a, b := Names(m)[i], Names(m)[j];
      a < b || exists k :: 0 <= k < |a| && k < |b| && a[..k] == b[..k] && a[k] < b[k]
  {
    NamesTotal(m.Keys);
    Orders.InOrderAscends(Before, m.Keys);
    BeforeIs(Names(m)[i], Names(m)[j]);
  }

  // ---- writing

  const QUOTE: unit := 34
  const BACKSLASH: unit := 92
  const COMMA: unit := 44
  const COLON: unit := 58
  const MINUS: unit := 45

  function HexDigit(n: int): unit
    requires 0 <= n < 16
  {
    if n < 10 then (48 + n) as unit else (87 + n) as unit
  }

  /** Only `"`, `\` and the control characters are escaped, the latter by their short form where they have one. */
  function Escape(c: unit): Text {
    if c == QUOTE then [BACKSLASH, QUOTE]
    else if c == BACKSLASH then [BACKSLASH, BACKSLASH]
    else if c == 8 then [BACKSLASH, 98]
    else if c == 9 then [BACKSLASH, 116]
    else if c == 10 then [BACKSLASH, 110]
    else if c == 12 then [BACKSLASH, 102]
    else if c == 13 then [BACKSLASH, 114]
    else if c < 32 then [BACKSLASH, 117, 48, 48, HexDigit(c as int / 16), HexDigit(c as int % 16)]
    else [c]
  }

  function EscapeAll(s: Text): Text {
    if s == [] then [] else Escape(s[0]) + EscapeAll(s[1..])
  }

  function Quoted(s: Text): Text {
    [QUOTE] + EscapeAll(s) + [QUOTE]
  }

  function Digits(n: nat): (r: Text)
    ensures r != [] && forall i :: 0 <= i < |r| ==> IsDigit(r[i])
  {
    if n < 10 then [(48 + n) as unit] else Digits(n / 10) + [(48 + n % 10) as unit]
  }

  predicate IsDigit(c: unit) { 48 <= c < 58 }

  function Number(n: int): Text {
    if n < 0 then [MINUS] + Digits(-n) else Digits(n)
  }

  const NULL_TEXT: Text := [110, 117, 108, 108]
  const TRUE_TEXT: Text := [116, 114, 117, 101]
  const FALSE_TEXT: Text := [102, 97, 108, 115, 101]

  ghost function Jcs(v: Json): Text
    decreases v, 1, 0
  {
    match v
    case Null => NULL_TEXT
    case Bool(b) => if b then TRUE_TEXT else FALSE_TEXT
    case Int(n) => Number(n)
    case Str(s) => Quoted(s)
    case Arr(items) => [91] + Items(v, 0)
    case Obj(m) => [123] + Members(v, Names(m), 0)
  }

  /** The items of an array from the `i`-th on, and the closing bracket. */
  ghost function Items(v: Json, i: nat): (r: Text)
    requires v.Arr? && i <= |v.items|
    ensures r != []
    decreases v, 0, |v.items| - i
  {
    if i == |v.items| then [93]
    else (if i == 0 then [] else [COMMA]) + Jcs(v.items[i]) + Items(v, i + 1)
  }

  /** The members of an object from the `i`-th name on, and the closing brace. */
  ghost function Members(v: Json, names: seq<Text>, i: nat): (r: Text)
    requires v.Obj? && i <= |names| && forall k :: k in names ==> k in v.members
    ensures r != []
    decreases v, 0, |names| - i
  {
    if i == |names| then [125]
    else (if i == 0 then [] else [COMMA]) + Quoted(names[i]) + [COLON] + Jcs(v.members[names[i]]) + Members(v, names, i + 1)
  }

  // ---- reading back is unambiguous

  datatype Piece = Piece(text: Text, rest: Text)

  function HexValue(c: unit): int {
    if IsDigit(c) then c as int - 48
    else if 97 <= c < 103 then c as int - 87
    else if 65 <= c < 71 then c as int - 55
    else -1
  }

  /** The unit that an escape stands for, as section 7 of RFC 8259 reads it, and what follows. */
  function ReadEscape(t: Text): (r: Piece)
    ensures r.text != [] ==> |r.rest| < |t|
  {
    var none := Piece([], []);
    if t == [] then none
    else
      match t[0]
      case 34 => Piece([34], t[1..])
      case 92 => Piece([92], t[1..])
      case 47 => Piece([47], t[1..])
      case 98 => Piece([8], t[1..])
      case 102 => Piece([12], t[1..])
      case 110 => Piece([10], t[1..])
      case 114 => Piece([13], t[1..])
      case 116 => Piece([9], t[1..])
      case 117 =>
        if |t| < 5 || HexValue(t[1]) < 0 || HexValue(t[2]) < 0 || HexValue(t[3]) < 0 || HexValue(t[4]) < 0 then none
        else Piece([(((HexValue(t[1]) * 16 + HexValue(t[2])) * 16 + HexValue(t[3])) * 16 + HexValue(t[4])) as unit], t[5..])
      case _ => none
  }

  /** A string read up to its closing quotation mark, `None` if it is not well formed (section 7 of RFC 8259). */
  function ReadString(t: Text): Option<Piece>
    decreases |t|
  {
    if t == [] || t[0] < 32 then None
    else if t[0] == QUOTE then Some(Piece([], t[1..]))
    else
      var p := if t[0] == BACKSLASH then ReadEscape(t[1..]) else Piece([t[0]], t[1..]);
      if p.text == [] then None
      else
        match ReadString(p.rest)
        case None => None
        case Some(q) => Some(Piece(p.text + q.text, q.rest))
  }

  /** A string written is a string that any reader of JSON reads back. */
  lemma {:induction false} StringReads(s: Text, r: Text)
    ensures ReadString(EscapeAll(s) + [QUOTE] + r) == Some(Piece(s, r))
  {
    var t := EscapeAll(s) + [QUOTE] + r;
    if s == [] {
      assert t[1..] == r;
    } else {
      hide ReadEscape, Escape;
      var e, rest := Escape(s[0]), EscapeAll(s[1..]) + [QUOTE] + r;
      StringReads(s[1..], r);
      assert t == e + rest;
      EscapeReads(s[0], rest);
      assert [s[0]] + s[1..] == s;
    }
  }

  lemma EscapeReads(c: unit, rest: Text)
    ensures var t := Escape(c) + rest;
      && t[0] != QUOTE && t[0] >= 32
      && (if t[0] == BACKSLASH then ReadEscape(t[1..]) else Piece([t[0]], t[1..])) == Piece([c], rest)
  {
    var e := Escape(c);
    var t := e + rest;
    assert t[0] == e[0];
    if |e| == 1 {
      assert t[1..] == rest;
    } else if |e| == 2 {
      assert t[1..][0] == e[1] && t[1..][1..] == rest;
    } else {
      var u := t[1..];
      assert u[0] == 117 && u[1] == 48 && u[2] == 48 && u[3] == e[4] && u[4] == e[5] && u[5..] == rest;
      assert HexValue(e[4]) == c as int / 16 && HexValue(e[5]) == c as int % 16;
    }
  }

  lemma EscapedUnique(s: Text, t: Text, r: Text, q: Text)
    requires EscapeAll(s) + [QUOTE] + r == EscapeAll(t) + [QUOTE] + q
    ensures s == t && r == q
  {
    StringReads(s, r);
    StringReads(t, q);
  }

  lemma QuotedUnique(s: Text, t: Text, r: Text, q: Text)
    requires Quoted(s) + r == Quoted(t) + q
    ensures s == t && r == q
  {
    var x := Quoted(s) + r;
    assert x[1..] == EscapeAll(s) + [QUOTE] + r && x[1..] == EscapeAll(t) + [QUOTE] + q by {
      assert (Quoted(t) + q)[1..] == EscapeAll(t) + [QUOTE] + q;
    }
    EscapedUnique(s, t, r, q);
  }

  function ValueOf(d: Text): nat
    requires forall i :: 0 <= i < |d| ==> IsDigit(d[i])
  {
    if d == [] then 0
    else
      assert IsDigit(d[|d| - 1]);
      ValueOf(d[..|d| - 1]) * 10 + (d[|d| - 1] as int - 48)
  }

  lemma {:induction false} DigitsSpell(n: nat)
    ensures ValueOf(Digits(n)) == n
  {
    if n < 10 {
      assert Digits(n)[..0] == [];
    } else {
      DigitsSpell(n / 10);
      assert Digits(n)[..|Digits(n)| - 1] == Digits(n / 10);
    }
  }

  /** Where a value may end. */
  predicate Stops(r: Text) {
    r == [] || r[0] == COMMA || r[0] == 93 || r[0] == 125
  }

  /** How many digits a text starts with. */
  function Run(x: Text): nat {
    if x == [] || !IsDigit(x[0]) then 0 else 1 + Run(x[1..])
  }

  lemma {:induction false} RunIs(d: Text, r: Text)
    requires Stops(r) && forall i :: 0 <= i < |d| ==> IsDigit(d[i])
    ensures Run(d + r) == |d|
  {
    if d == [] {
      assert d + r == r;
    } else {
      assert (d + r)[1..] == d[1..] + r;
      RunIs(d[1..], r);
    }
  }

  lemma DigitsUnique(n: nat, m: nat, r: Text, q: Text)
    requires Digits(n) + r == Digits(m) + q && Stops(r) && Stops(q)
    ensures n == m && r == q
  {
    hide Digits;
    var d, e := Digits(n), Digits(m);
    var x := d + r;
    RunIs(d, r);
    RunIs(e, q);
    assert d == x[..|d|] && e == x[..|e|];
    DigitsSpell(n);
    DigitsSpell(m);
    assert r == x[|d|..] && q == x[|e|..];
  }

  lemma DropLead(l: Text, a: Text, b: Text)
    requires l + a == l + b
    ensures a == b
  {
    assert a == (l + a)[|l|..] && b == (l + b)[|l|..];
  }

  lemma Assoc(a: Text, b: Text, c: Text)
    ensures a + b + c == a + (b + c)
  {
  }

  lemma NumberSign(n: int, r: Text)
    ensures (Number(n) + r)[0] == MINUS <==> n < 0
  {
  }

  lemma NumberUnique(n: int, m: int, r: Text, q: Text)
    requires Number(n) + r == Number(m) + q && Stops(r) && Stops(q)
    ensures n == m && r == q
  {
    NumberSign(n, r);
    NumberSign(m, q);
    hide Digits, Stops;
    if n < 0 {
      Assoc([MINUS], Digits(-n), r);
      Assoc([MINUS], Digits(-m), q);
      DropLead([MINUS], Digits(-n) + r, Digits(-m) + q);
      DigitsUnique(-n, -m, r, q);
    } else {
      DigitsUnique(n, m, r, q);
    }
  }

  /** The kind of a value shows in its first unit. */
  predicate Begins(v: Json, c: unit) {
    match v
    case Null => c == 110
    case Bool(b) => c == if b then 116 else 102
    case Int(_) => c == MINUS || IsDigit(c)
    case Str(_) => c == QUOTE
    case Arr(_) => c == 91
    case Obj(_) => c == 123
  }

  lemma FirstUnit(v: Json)
    ensures Jcs(v) != [] && Begins(v, Jcs(v)[0])
  {
  }

  lemma SameKind(v: Json, w: Json, r: Text, q: Text)
    requires Jcs(v) + r == Jcs(w) + q
    ensures v.Null? == w.Null? && v.Int? == w.Int? && v.Str? == w.Str? && v.Arr? == w.Arr? && v.Obj? == w.Obj?
    ensures v.Bool? ==> v == w
  {
    FirstUnit(v);
    FirstUnit(w);
    assert (Jcs(v) + r)[0] == Jcs(v)[0] == Jcs(w)[0];
  }

  lemma Opening(v: Json, w: Json, r: Text, q: Text)
    requires Jcs(v) + r == Jcs(w) + q
    ensures v.Arr? && w.Arr? ==> Items(v, 0) + r == Items(w, 0) + q
    ensures v.Obj? && w.Obj? ==> Members(v, Names(v.members), 0) + r == Members(w, Names(w.members), 0) + q
  {
    hide Items, Members, Names;
    if v.Arr? && w.Arr? {
      Assoc([91], Items(v, 0), r);
      Assoc([91], Items(w, 0), q);
      DropLead([91], Items(v, 0) + r, Items(w, 0) + q);
    } else if v.Obj? && w.Obj? {
      var a, b := Members(v, Names(v.members), 0), Members(w, Names(w.members), 0);
      Assoc([123], a, r);
      Assoc([123], b, q);
      DropLead([123], a + r, b + q);
    }
  }

  lemma SimpleUnique(v: Json, w: Json, r: Text, q: Text)
    requires Jcs(v) + r == Jcs(w) + q && Stops(r) && Stops(q) && !v.Arr? && !v.Obj?
    ensures v == w && r == q
  {
    SameKind(v, w, r, q);
    hide Stops, Number, Quoted;
    match v
    case Null => DropLead(NULL_TEXT, r, q);
    case Bool(b) => DropLead(Jcs(v), r, q);
    case Int(n) => NumberUnique(n, w.n, r, q);
    case Str(s) => QuotedUnique(s, w.s, r, q);
  }

  /** Two values whose forms agree up to where each may end are one value. */
  lemma {:induction false} JcsUnique(v: Json, w: Json, r: Text, q: Text)
    requires Jcs(v) + r == Jcs(w) + q && Stops(r) && Stops(q)
    ensures v == w && r == q
    decreases v, 1, 0
  {
    hide Jcs, Items, Members, Stops, Names;
    SameKind(v, w, r, q);
    if v.Arr? {
      Opening(v, w, r, q);
      ItemsUnique(v, w, 0, r, q);
    } else if v.Obj? {
      Opening(v, w, r, q);
      MembersUnique(v, w, Names(v.members), Names(w.members), 0, r, q);
      MapsSame(v.members, w.members);
    } else {
      SimpleUnique(v, w, r, q);
    }
  }

  lemma MapsSame(m: map<Text, Json>, n: map<Text, Json>)
    requires Names(m) == Names(n) && forall j :: 0 <= j < |Names(m)| && Names(m)[j] in m && Names(m)[j] in n ==> m[Names(m)[j]] == n[Names(m)[j]]
    ensures m == n
  {
    hide Names;
    forall k ensures k in m <==> k in n { assert k in Names(m) <==> k in Names(n); }
    forall k | k in m ensures m[k] == n[k] {
      assert k in Names(m);
      var j :| 0 <= j < |Names(m)| && Names(m)[j] == k;
    }
  }

  lemma ItemsOpen(v: Json, i: nat, r: Text)
    requires v.Arr? && i < |v.items|
    ensures Items(v, i) + r == (if i == 0 then [] else [COMMA]) + (Jcs(v.items[i]) + (Items(v, i + 1) + r))
  {
    hide Jcs;
    var lead: Text := if i == 0 then [] else [COMMA];
    Assoc(lead + Jcs(v.items[i]), Items(v, i + 1), r);
    Assoc(lead, Jcs(v.items[i]), Items(v, i + 1) + r);
  }

  lemma {:induction false} ItemsUnique(v: Json, w: Json, i: nat, r: Text, q: Text)
    requires v.Arr? && w.Arr? && i <= |v.items| && i <= |w.items| && v.items[..i] == w.items[..i]
    requires Items(v, i) + r == Items(w, i) + q
    ensures v == w && r == q
    decreases v, 0, |v.items| - i
  {
    hide Jcs, Stops;
    ItemsBegin(v, i, r);
    ItemsBegin(w, i, q);
    if i == |v.items| {
      DropLead([93], r, q);
      assert v.items == v.items[..i] && w.items == w.items[..i];
    } else {
      hide Items;
      var lead: Text := if i == 0 then [] else [COMMA];
      var a, b := v.items[i], w.items[i];
      var r', q' := Items(v, i + 1) + r, Items(w, i + 1) + q;
      ItemsOpen(v, i, r);
      ItemsOpen(w, i, q);
      DropLead(lead, Jcs(a) + r', Jcs(b) + q');
      ItemsStop(v, i + 1, r);
      ItemsStop(w, i + 1, q);
      JcsUnique(a, b, r', q');
      assert v.items[..i + 1] == v.items[..i] + [a] && w.items[..i + 1] == w.items[..i] + [b];
      ItemsUnique(v, w, i + 1, r, q);
    }
  }

  /** The rest of an array starts with its closing bracket exactly when no item is left. */
  lemma ItemsBegin(v: Json, i: nat, r: Text)
    requires v.Arr? && i <= |v.items|
    ensures (Items(v, i) + r)[0] == 93 <==> i == |v.items|
  {
    if i < |v.items| { FirstUnit(v.items[i]); }
  }

  lemma ItemsStop(v: Json, i: nat, r: Text)
    requires v.Arr? && 0 < i <= |v.items|
    ensures Stops(Items(v, i) + r)
  {
  }

  lemma MembersBegin(v: Json, names: seq<Text>, i: nat, r: Text)
    requires v.Obj? && i <= |names| && forall k :: k in names ==> k in v.members
    ensures (Members(v, names, i) + r)[0] == 125 <==> i == |names|
  {
    hide Jcs;
  }

  lemma MembersStop(v: Json, names: seq<Text>, i: nat, r: Text)
    requires v.Obj? && 0 < i <= |names| && forall k :: k in names ==> k in v.members
    ensures Stops(Members(v, names, i) + r)
  {
    hide Jcs;
  }

  lemma MembersOpen(v: Json, names: seq<Text>, i: nat, r: Text)
    requires v.Obj? && i < |names| && forall k :: k in names ==> k in v.members
    ensures Members(v, names, i) + r
         == (if i == 0 then [] else [COMMA])
            + (Quoted(names[i]) + ([COLON] + (Jcs(v.members[names[i]]) + (Members(v, names, i + 1) + r))))
  {
    hide Jcs, Quoted;
    var lead: Text := if i == 0 then [] else [COMMA];
    var k, a, t := Quoted(names[i]), Jcs(v.members[names[i]]), Members(v, names, i + 1);
    assert Members(v, names, i) == lead + k + [COLON] + a + t;
    Assoc(lead + k + [COLON] + a, t, r);
    Assoc(lead + k + [COLON], a, t + r);
    Assoc(lead + k, [COLON], a + (t + r));
    Assoc(lead, k, [COLON] + (a + (t + r)));
  }

  lemma {:induction false} MembersUnique(v: Json, w: Json, names: seq<Text>, others: seq<Text>, i: nat, r: Text, q: Text)
    requires v.Obj? && w.Obj? && i <= |names| && i <= |others| && names[..i] == others[..i]
    requires (forall k :: k in names ==> k in v.members) && (forall k :: k in others ==> k in w.members)
    requires forall j :: 0 <= j < i && names[j] in w.members ==> v.members[names[j]] == w.members[names[j]]
    requires Members(v, names, i) + r == Members(w, others, i) + q
    ensures names == others && r == q && forall j :: 0 <= j < |names| ==> v.members[names[j]] == w.members[names[j]]
    decreases v, 0, |names| - i
  {
    hide Jcs, Stops, Quoted;
    MembersBegin(v, names, i, r);
    MembersBegin(w, others, i, q);
    if i == |names| {
      DropLead([125], r, q);
      assert names == names[..i] && others == others[..i];
    } else {
      hide Members;
      var lead: Text := if i == 0 then [] else [COMMA];
      var k, l := names[i], others[i];
      var a, b := v.members[k], w.members[l];
      var r', q' := Members(v, names, i + 1) + r, Members(w, others, i + 1) + q;
      MembersOpen(v, names, i, r);
      MembersOpen(w, others, i, q);
      DropLead(lead, Quoted(k) + ([COLON] + (Jcs(a) + r')), Quoted(l) + ([COLON] + (Jcs(b) + q')));
      QuotedUnique(k, l, [COLON] + (Jcs(a) + r'), [COLON] + (Jcs(b) + q'));
      DropLead([COLON], Jcs(a) + r', Jcs(b) + q');
      MembersStop(v, names, i + 1, r);
      MembersStop(w, others, i + 1, q);
      JcsUnique(a, b, r', q');
      assert names[..i + 1] == names[..i] + [k] && others[..i + 1] == others[..i] + [l];
      MembersUnique(v, w, names, others, i + 1, r, q);
    }
  }

  /** Canonical JSON is injective. */
  lemma JcsInjective(v: Json, w: Json)
    requires Jcs(v) == Jcs(w)
    ensures v == w
  {
    assert Jcs(v) + [] == Jcs(v) && Jcs(w) + [] == Jcs(w);
    JcsUnique(v, w, [], []);
  }
}
