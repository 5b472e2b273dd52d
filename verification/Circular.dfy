/** Positions in a circular buffer: where the k-th element ever stored ends up. */
module Circular {
  import opened Numbers

  /** `k % cap`, by repeated subtraction (see PosIsRemainder). */
  function Pos(k: nat, cap: nat): (p: nat)
    requires cap > 0
    ensures p < cap
  {
    if k < cap then k else Pos(k - cap, cap)
  }

  lemma {:induction false} PosAdd(k: nat, i: nat, cap: nat)
    requires i < cap
    ensures Pos(k + i, cap) == if Pos(k, cap) + i < cap then Pos(k, cap) + i else Pos(k, cap) + i - cap
  {
    if k >= cap { PosAdd(k - cap, i, cap); }
  }

  /** Elements less than one lap apart never share a position. */
  lemma PosInjective(a: nat, b: nat, cap: nat)
    requires 0 < cap && a < b < a + cap
    ensures Pos(a, cap) != Pos(b, cap)
  {
    PosAdd(a, b - a, cap);
  }

  lemma SmallRemainder(x: nat, cap: nat)
    requires 0 < cap && x < 2 * cap
    ensures x % cap == if x < cap then x else x - cap
  {
    if x >= cap {
      var q, r := x / cap, x % cap;
      assert x == q * cap + r;
      if q >= 2 { AtLeastOnce(q - 1, cap); }
    }
  }

  lemma {:induction false} PosIsRemainder(k: nat, cap: nat)
    requires 0 < cap
    ensures Pos(k, cap) == k % cap
  {
    if k < cap {
      SmallRemainder(k, cap);
    } else {
      PosIsRemainder(k - cap, cap);
      LapRemainder(k, cap);
    }
  }

  lemma LapRemainder(k: nat, cap: nat)
    requires 0 < cap <= k
    ensures (k - cap) % cap == k % cap
  {
    var q, r := (k - cap) / cap, (k - cap) % cap;
    var q', r' := k / cap, k % cap;
    assert k - cap == q * cap + r && k == q' * cap + r';
    var d := q' - q - 1;
    assert d * cap == r - r';
    if d >= 1 { AtLeastOnce(d, cap); }
    if d <= -1 { AtLeastOnce(-d, cap); }
  }
}
