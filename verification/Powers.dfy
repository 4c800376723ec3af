/** Powers of two. */
module Powers {

  function Two(k: nat): (r: nat)
    ensures r > 0
  {
    if k == 0 then 1 else 2 * Two(k - 1)
  }

  lemma TwoNext(k: nat)
    ensures Two(k + 1) == 2 * Two(k) && Two(0) == 1
  {
  }

  lemma {:induction false} TwoGrows(a: nat, b: nat)
    requires a < b
    ensures Two(a) < Two(b)
  {
    if a < b - 1 { TwoGrows(a, b - 1); }
  }

  lemma {:induction false} TwoAdds(a: nat, b: nat)
    ensures Two(a + b) == Two(a) * Two(b)
    decreases b
  {
    if b > 0 { TwoAdds(a, b - 1); }
  }

  lemma TwoSmall()
    ensures Two(3) == 8 && Two(4) == 16 && Two(5) == 32 && Two(8) == 256
  {
    assert Two(2) == 4;
    assert Two(6) == 64;
  }
}
