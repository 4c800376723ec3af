/**
 * The z-base-32 names of `pkarr.ts`: a key's name and a name's key determine each other, since a name whose padding
 * bits are not zero is refused.
 */
module ZBase32 {
  import opened Bytes
  import opened Powers
  import opened Prelude

  type Octets = seq<byte>

  const ALPHABET := "ybndrfg8ejkmcpqxot1uwisza345h769"

  // ---- digits of 5 bits

  predicate AreDigits(ds: seq<nat>) { forall i :: 0 <= i < |ds| ==> ds[i] < 32 }

  function Value(ds: seq<nat>): nat {
    if ds == [] then 0 else Value(ds[..|ds| - 1]) * 32 + ds[|ds| - 1]
  }

  lemma ValueMore(ds: seq<nat>, d: nat)
    ensures Value(ds + [d]) == Value(ds) * 32 + d
  {
    assert (ds + [d])[..|ds|] == ds;
  }

  lemma {:induction false} ValueBound(ds: seq<nat>)
    requires AreDigits(ds)
    ensures Value(ds) < Two(5 * |ds|)
    decreases |ds|
  {
    if ds != [] {
      ValueBound(ds[..|ds| - 1]);
      TwoAdds(5 * (|ds| - 1), 5);
      TwoSmall();
    }
  }

  lemma {:induction false} ValueUnique(a: seq<nat>, b: seq<nat>)
    requires AreDigits(a) && AreDigits(b) && |a| == |b| && Value(a) == Value(b)
    ensures a == b
    decreases |a|
  {
    if a != [] {
      var x, y := a[..|a| - 1], b[..|b| - 1];
      assert Value(a) % 32 == a[|a| - 1] && Value(b) % 32 == b[|b| - 1];
      ValueUnique(x, y);
      assert a == x + [a[|a| - 1]] && b == y + [b[|b| - 1]];
    }
  }

  lemma FromBytesMore(b: Octets, x: byte)
    ensures FromBytes(b + [x]) == FromBytes(b) * 256 + x as nat
  {
    assert (b + [x])[..|b|] == b;
  }

  lemma SameOctets(p: nat, c: nat, q: nat, d: nat)
    requires c < 256 && d < 256 && p * 256 + c == q * 256 + d
    ensures p == q && c == d
  {
  }

  lemma {:induction false} FromBytesUnique(a: Octets, b: Octets)
    requires |a| == |b| && FromBytes(a) == FromBytes(b)
    ensures a == b
    decreases |a|
  {
    if a != [] {
      var x, y := a[..|a| - 1], b[..|b| - 1];
      var c, d := a[|a| - 1], b[|b| - 1];
      assert a == x + [c] && b == y + [d];
      SameOctets(FromBytes(x), c as nat, FromBytes(y), d as nat);
      FromBytesUnique(x, y);
    }
  }

  /** `n` octets of a number, most significant first. */
  function Padded(v: nat, n: nat): (b: Octets)
    ensures |b| == n
  {
    if n == 0 then [] else Padded(v / 256, n - 1) + [(v % 256) as byte]
  }

  lemma {:induction false} PaddedSpells(v: nat, n: nat)
    requires v < Two(8 * n)
    ensures FromBytes(Padded(v, n)) == v
    decreases n
  {
    if n > 0 {
      TwoAdds(8 * (n - 1), 8);
      TwoSmall();
      PaddedSpells(v / 256, n - 1);
      FromBytesMore(Padded(v / 256, n - 1), (v % 256) as byte);
    }
  }

  // ---- writing

  /** As many digits as the octets' bits fill, the last one's spare bits zero. */
  ghost predicate Spells(ds: seq<nat>, b: Octets) {
    && AreDigits(ds)
    && exists spare: nat :: spare < 5 && 5 * |ds| == 8 * |b| + spare && Value(ds) == FromBytes(b) * Two(spare)
  }

  /** Taking the top five of `bits` bits out of an accumulator. */
  lemma TopDigit(acc: nat, bits: nat, whole: nat, value: nat)
    requires bits >= 5 && whole == value * Two(bits) + acc % Two(bits)
    ensures var d := acc / Two(bits - 5) % 32; whole == (value * 32 + d) * Two(bits - 5) + acc % Two(bits - 5)
  {
    var t := Two(bits - 5);
    TwoAdds(bits - 5, 5);
    TwoSmall();
    DivMod(acc, t);
    var d := acc / t % 32;
    assert acc % (t * 32) == d * t + acc % t;
    assert value * (t * 32) + (d * t + acc % t) == (value * 32 + d) * t + acc % t by { Distribute(value, d, t); }
  }

  lemma DivMod(acc: nat, t: nat)
    requires t > 0
    ensures acc % (t * 32) == acc / t % 32 * t + acc % t
  {
    var q, r := acc / t, acc % t;
    var h, d := q / 32, q % 32;
    assert acc == q * t + r && q == h * 32 + d;
    Distribute(h, d, t);
    assert acc == h * (t * 32) + (d * t + r);
    DigitFits(d, t, r);
    RemainderIs(acc, h, t * 32, d * t + r);
  }

  lemma Distribute(h: nat, d: nat, t: nat)
    ensures (h * 32 + d) * t == h * (t * 32) + d * t
  {
  }

  lemma DigitFits(d: nat, t: nat, r: nat)
    requires d < 32 && r < t
    ensures d * t + r < t * 32
  {
    assert d * t <= 31 * t;
  }

  lemma AtLeastOnce(k: int, m: nat)
    ensures k >= 1 ==> k * m >= m
  {
    if k >= 1 { assert k * m == m + (k - 1) * m && (k - 1) * m >= 0; }
  }

  /** A number leaves one remainder. */
  lemma OneRemainder(q: nat, s: nat, h: nat, r: nat, m: nat)
    requires s < m && r < m && q * m + s == h * m + r
    ensures s == r
  {
    assert (h - q) * m == s - r && (q - h) * m == r - s;
    AtLeastOnce(h - q, m);
    AtLeastOnce(q - h, m);
  }

  lemma RemainderIs(n: nat, h: nat, m: nat, r: nat)
    requires m > 0 && n == h * m + r && r < m
    ensures n % m == r
  {
    var q, s := n / m, n % m;
    assert n == q * m + s;
    OneRemainder(q, s, h, r, m);
  }

  lemma ShiftIn(value: nat, acc: nat, bits: nat, x: nat, whole: nat)
    requires acc < Two(bits) && x < 256 && whole == value * Two(bits) + acc
    ensures acc * 256 + x < Two(bits + 8) && whole * 256 + x == value * Two(bits + 8) + (acc * 256 + x)
  {
    TwoAdds(bits, 8);
    TwoSmall();
    assert (value * Two(bits) + acc) * 256 + x == value * (Two(bits) * 256) + (acc * 256 + x);
  }

  lemma PadOut(acc: nat, bits: nat, value: nat, whole: nat)
    requires bits < 5 && acc < Two(bits) && whole == value * Two(bits) + acc
    ensures acc * Two(5 - bits) < 32 && value * 32 + acc * Two(5 - bits) == whole * Two(5 - bits)
  {
    TwoAdds(bits, 5 - bits);
    TwoSmall();
    var a, b := Two(bits), Two(5 - bits);
    assert a * b == 32;
    assert acc * b < a * b;
    assert (value * a + acc) * b == value * (a * b) + acc * b;
  }

  /** The text shows these digits. */
  ghost predicate Shows(text: string, ds: seq<nat>) {
    AreDigits(ds) && |text| == |ds| && forall i :: 0 <= i < |text| ==> text[i] == ALPHABET[ds[i]]
  }

  /** The text is the name of these octets. */
  ghost predicate Names(text: string, b: Octets) {
    exists ds :: Shows(text, ds) && Spells(ds, b)
  }

  /** The characters an accumulator of `bits` bits is good for, and the bits left over. */
  method Drain(before: string, ghost said: seq<nat>, start: nat, width: nat, ghost whole: nat)
      returns (text: string, ghost ds: seq<nat>, acc: nat, bits: nat)
    requires Shows(before, said) && whole == Value(said) * Two(width) + start && start < Two(width)
    ensures Shows(text, ds) && bits < 5 && 5 * |ds| + bits == 5 * |said| + width
    ensures acc < Two(bits) && whole == Value(ds) * Two(bits) + acc
  {
    hide Two, Value;
    text, ds, acc, bits := before, said, start, width;
    assert acc % Two(bits) == acc;
    while bits >= 5
      invariant Shows(text, ds) && 5 * |ds| + bits == 5 * |said| + width
      invariant whole == Value(ds) * Two(bits) + acc % Two(bits)
    {
      var d := acc / Two(bits - 5) % 32;
      TopDigit(acc, bits, whole, Value(ds));
      ValueMore(ds, d);
      text, ds, bits := text + [ALPHABET[d]], ds + [d], bits - 5;
    }
    acc := acc % Two(bits);
  }

  method Encode(b: Octets) returns (text: string)
    ensures Names(text, b)
  {
    hide Value, FromBytes, Spells;
    text := "";
    ghost var ds: seq<nat> := [];
    var acc: nat, bits: nat := 0, 0;
    assert Value([]) == 0 && FromBytes(b[..0]) == 0 by { NothingSpelt(); }
    for i := 0 to |b|
      invariant Shows(text, ds) && bits < 5 && acc < Two(bits) && 5 * |ds| + bits == 8 * i
      invariant FromBytes(b[..i]) == Value(ds) * Two(bits) + acc
    {
      hide Two;
      assert b[..i + 1] == b[..i] + [b[i]];
      FromBytesMore(b[..i], b[i]);
      ShiftIn(Value(ds), acc, bits, b[i] as nat, FromBytes(b[..i]));
      text, ds, acc, bits := Drain(text, ds, acc * 256 + b[i] as nat, bits + 8, FromBytes(b[..i + 1]));
    }
    assert b[..|b|] == b;
    if bits > 0 {
      PadOut(acc, bits, Value(ds), FromBytes(b));
      ValueMore(ds, acc * Two(5 - bits));
      text, ds := text + [ALPHABET[acc * Two(5 - bits)]], ds + [acc * Two(5 - bits)];
      SpellsWith(ds, b, 5 - bits);
    } else {
      assert Two(0) == 1;
      SpellsWith(ds, b, 0);
    }
  }

  lemma NothingSpelt()
    ensures Value([]) == 0 && FromBytes([]) == 0
  {
  }

  lemma SpellsWith(ds: seq<nat>, b: Octets, spare: nat)
    requires AreDigits(ds) && spare < 5 && 5 * |ds| == 8 * |b| + spare && Value(ds) == FromBytes(b) * Two(spare)
    ensures Spells(ds, b)
  {
  }

  // ---- reading

  datatype Reading = Malformed | NonCanonical | Key(octets: Octets)

  /** What 52 digits read as. */
  function Read(ds: seq<nat>): Reading {
    if |ds| != 52 || !AreDigits(ds) then Malformed
    else if Value(ds) % 16 != 0 then NonCanonical
    else Key(Padded(Value(ds) / 16, 32))
  }

  /** The place of a character in the alphabet, or -1. */
  function Place(c: char): (i: int)
    ensures -1 <= i < 32 && (i >= 0 ==> ALPHABET[i] == c)
    ensures i == -1 ==> c !in ALPHABET
  {
    PlaceFrom(c, 0)
  }

  function PlaceFrom(c: char, k: nat): (i: int)
    requires k <= 32 && forall j :: 0 <= j < k ==> ALPHABET[j] != c
    ensures -1 <= i < 32 && (i >= 0 ==> ALPHABET[i] == c) && (i == -1 ==> c !in ALPHABET)
    decreases 32 - k
  {
    if k == 32 then -1 else if ALPHABET[k] == c then k else PlaceFrom(c, k + 1)
  }

  /** The digits a text shows. */
  function Digits(text: string): (ds: seq<nat>)
    requires forall i :: 0 <= i < |text| ==> text[i] in ALPHABET
    ensures Shows(text, ds)
  {
    seq(|text|, i requires 0 <= i < |text| => Place(text[i]))
  }

  function ReadText(text: string): Reading {
    if |text| != 52 || exists i :: 0 <= i < |text| && text[i] !in ALPHABET then Malformed else Read(Digits(text))
  }

  method Decode(text: string) returns (r: Reading)
    ensures r == ReadText(text)
  {
    if |text| != 52 { return Malformed; }
    var acc: nat := 0;
    ghost var ds: seq<nat> := [];
    for i := 0 to |text|
      invariant |ds| == i && AreDigits(ds) && acc == Value(ds) && forall j :: 0 <= j < i ==> text[j] == ALPHABET[ds[j]]
    {
      var v := Place(text[i]);
      if v < 0 { return Malformed; }
      ValueMore(ds, v);
      acc := acc * 32 + v;
      ds := ds + [v];
    }
    assert forall i :: 0 <= i < |text| ==> text[i] == ALPHABET[ds[i]] && text[i] in ALPHABET;
    ShownOnce(text, ds, Digits(text));
    r := if acc % 16 != 0 then NonCanonical else Key(Padded(acc / 16, 32));
  }

  /** No character of the alphabet occurs twice. */
  lemma OnePlace(i: nat, j: nat)
    requires i < 32 && j < 32 && ALPHABET[i] == ALPHABET[j]
    ensures i == j
  {
    hide *;
    if i < 16 { LowPlace(i, j); }
    if j < 16 { LowPlace(j, i); }
    if 16 <= i && 16 <= j { HighPlaces(i, j); }
  }

  lemma LowPlace(i: nat, j: nat)
    requires i < 16 && j < 32 && ALPHABET[i] == ALPHABET[j]
    ensures i == j
  {
  }

  lemma HighPlaces(i: nat, j: nat)
    requires 16 <= i < 32 && 16 <= j < 32 && ALPHABET[i] == ALPHABET[j]
    ensures i == j
  {
  }

  lemma ShownOnce(text: string, ds: seq<nat>, es: seq<nat>)
    requires Shows(text, ds) && Shows(text, es)
    ensures ds == es
  {
    forall i | 0 <= i < |ds| ensures ds[i] == es[i] { OnePlace(ds[i], es[i]); }
  }

  // ---- one key, one name

  /** A key's name reads back as the key. */
  lemma NameReads(b: Octets, ds: seq<nat>)
    requires |b| == 32 && Spells(ds, b)
    ensures Read(ds) == Key(b)
  {
    hide Spells, Two, Value, FromBytes, Padded;
    KeyValue(ds, b);
    FromBytesBound(b);
    PaddedSpells(FromBytes(b), 32);
    FromBytesUnique(Padded(FromBytes(b), 32), b);
  }

  /** A key's 256 bits and four spare ones fill 52 digits. */
  lemma KeyValue(ds: seq<nat>, b: Octets)
    requires |b| == 32 && Spells(ds, b)
    ensures AreDigits(ds) && |ds| == 52 && Value(ds) == FromBytes(b) * 16
  {
    hide Value, FromBytes;
    var spare: nat :| spare < 5 && 5 * |ds| == 8 * |b| + spare && Value(ds) == FromBytes(b) * Two(spare);
    assert spare == 4;
    TwoSmall();
  }

  lemma {:induction false} FromBytesBound(b: Octets)
    ensures FromBytes(b) < Two(8 * |b|)
  {
    if b != [] {
      FromBytesBound(b[..|b| - 1]);
      TwoAdds(8 * (|b| - 1), 8);
      TwoSmall();
    }
  }

  /** A name that reads is the name of the key it reads as, so no two names read as one key. */
  lemma ReadNames(ds: seq<nat>, other: seq<nat>)
    requires Read(ds).Key? && Spells(other, Read(ds).octets)
    ensures other == ds
  {
    var b := Read(ds).octets;
    var v := Value(ds) / 16;
    ValueBound(ds);
    TwoAdds(256, 4);
    TwoSmall();
    PaddedSpells(v, 32);
    var spare: nat :| spare < 5 && 5 * |other| == 8 * |b| + spare && Value(other) == FromBytes(b) * Two(spare);
    assert spare == 4 && Value(other) == v * 16;
    ValueUnique(ds, other);
  }

  /** The text written for a key reads as the key. */
  lemma TextReads(text: string, b: Octets)
    requires |b| == 32 && Names(text, b)
    ensures ReadText(text) == Key(b)
  {
    hide Spells, Read;
    var ds :| Shows(text, ds) && Spells(ds, b);
    KeyValue(ds, b);
    assert forall i :: 0 <= i < |text| ==> text[i] in ALPHABET;
    ShownOnce(text, ds, Digits(text));
    NameReads(b, ds);
  }

  /** Of all texts only the one written for a key reads as it. */
  lemma OneTextPerKey(text: string, b: Octets)
    requires |b| == 32
    ensures ReadText(text) == Key(b) <==> Names(text, b)
  {
    hide Spells, Read;
    if Names(text, b) { TextReads(text, b); }
    if ReadText(text) == Key(b) {
      var ds := Digits(text);
      var other := Spelling(b);
      ReadNames(ds, other);
    }
  }

  /** The digits of a key. */
  lemma Spelling(b: Octets) returns (ds: seq<nat>)
    requires |b| == 32
    ensures Spells(ds, b)
  {
    TwoSmall();
    FromBytesBound(b);
    TwoAdds(256, 4);
    ds := DigitsOf(FromBytes(b) * 16, 52);
    assert Spells(ds, b);
  }

  lemma {:induction false} DigitsOf(v: nat, n: nat) returns (ds: seq<nat>)
    requires v < Two(5 * n)
    ensures AreDigits(ds) && |ds| == n && Value(ds) == v
    decreases n
  {
    if n == 0 {
      ds := [];
    } else {
      TwoAdds(5 * (n - 1), 5);
      TwoSmall();
      ds := DigitsOf(v / 32, n - 1);
      ValueMore(ds, v % 32);
      ds := ds + [v % 32];
    }
  }
}
