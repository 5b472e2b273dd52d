/** Division facts, proved once and used by name: the solver does not find them on its own. */
module Numbers {

  lemma AtLeastOnce(d: int, interval: nat)
    requires d >= 1
    ensures d * interval >= interval
  {
    assert (d - 1) * interval >= 0;
  }

  lemma Multiple(k: nat, interval: nat)
    requires interval > 0
    ensures (k * interval) % interval == 0
  {
    var t := k * interval;
    var q, r := t / interval, t % interval;
    assert r == (k - q) * interval;
    if k - q >= 1 { AtLeastOnce(k - q, interval); }
    if q - k >= 1 { AtLeastOnce(q - k, interval); }
  }

  lemma RoundedUp(t: nat, interval: nat)
    requires interval > 0 && t % interval != 0
    ensures (t + interval - t % interval) % interval == 0
  {
    var k := t / interval;
    assert t + interval - t % interval == (k + 1) * interval;
    Multiple(k + 1, interval);
  }

  /** The first multiple of `interval` that is not before `t`. */
  function AlignUp(t: nat, interval: nat): (r: nat)
    requires interval > 0
    ensures t <= r < t + interval && r % interval == 0
  {
    if t % interval == 0 then t
    else
      RoundedUp(t, interval);
      t + interval - t % interval
  }

  /** Two multiples of `interval` that are less than `interval` apart are equal. */
  lemma AlignedNeighbours(a: nat, b: nat, interval: nat)
    requires interval > 0 && a % interval == 0 && b % interval == 0 && a <= b < a + interval
    ensures a == b
  {
    var i, j := a / interval, b / interval;
    assert a == i * interval && b == j * interval;
    assert b - a == (j - i) * interval;
    if i < j { AtLeastOnce(j - i, interval); }
    if j < i { AtLeastOnce(i - j, interval); }
  }

  lemma AlignedSum(a: nat, b: nat, interval: nat)
    requires interval > 0 && a % interval == 0 && b % interval == 0
    ensures (a + b) % interval == 0
  {
    var i, j := a / interval, b / interval;
    assert a + b == (i + j) * interval;
    Multiple(i + j, interval);
  }
}
