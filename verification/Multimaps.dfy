/** Multimaps as the simulator uses them: lists in the order of a key, where a new element goes behind all elements
    whose key is the same or smaller. */
module Multimaps {

  function Insert<T>(key: T -> nat, q: seq<T>, x: T): (r: seq<T>)
    ensures |r| == |q| + 1
  {
    if q == [] || key(x) < key(q[0]) then [x] + q else [q[0]] + Insert(key, q[1..], x)
  }

  ghost predicate Sorted<T>(key: T -> nat, q: seq<T>) {
    forall i, j :: 0 <= i < j < |q| ==> key(q[i]) <= key(q[j])
  }

  /** An insertion adds its element and nothing else. */
  lemma {:induction false} InsertAdds<T>(key: T -> nat, q: seq<T>, x: T)
    ensures multiset(Insert(key, q, x)) == multiset(q) + multiset{x}
  {
    if q != [] && key(q[0]) <= key(x) {
      InsertAdds(key, q[1..], x);
      assert q == [q[0]] + q[1..];
    }
  }

  /** It goes behind everything whose key is not larger, also behind equal keys, and before the rest. */
  lemma {:induction false} InsertPlace<T>(key: T -> nat, q: seq<T>, x: T) returns (k: nat)
    ensures k <= |q| && Insert(key, q, x) == q[..k] + [x] + q[k..]
    ensures forall i :: 0 <= i < k ==> key(q[i]) <= key(x)
    ensures Sorted(key, q) ==> forall i :: k <= i < |q| ==> key(x) < key(q[i])
  {
    if q == [] || key(x) < key(q[0]) {
      k := 0;
    } else {
      var j := InsertPlace(key, q[1..], x);
      k := j + 1;
      assert q[..k] == [q[0]] + q[1..][..j] && q[k..] == q[1..][j..];
    }
  }

  lemma InsertMembers<T>(key: T -> nat, q: seq<T>, x: T)
    ensures forall y :: y in Insert(key, q, x) <==> y in q || y == x
  {
    InsertAdds(key, q, x);
    var r := Insert(key, q, x);
    forall y ensures y in r <==> y in q || y == x { assert y in r <==> y in multiset(r); }
  }

  lemma {:induction false} InsertSorts<T>(key: T -> nat, q: seq<T>, x: T)
    requires Sorted(key, q)
    ensures Sorted(key, Insert(key, q, x))
  {
    if q != [] && key(q[0]) <= key(x) {
      InsertSorts(key, q[1..], x);
      var r := Insert(key, q[1..], x);
      assert r[0] == x || r[0] == q[1];
      assert Insert(key, q, x) == [q[0]] + r;
      forall k | 0 <= k < |r| ensures key(q[0]) <= key(r[k]) {
        assert key(r[0]) <= key(r[k]);
      }
    }
  }
}
