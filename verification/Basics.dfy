/** What several machines share. */
module Basics {

  datatype Option<+T> = None | Some(value: T)

  /** A list without its i-th element. */
  function Without<T>(s: seq<T>, i: nat): (r: seq<T>)
    requires i < |s|
    ensures |r| == |s| - 1
  {
    s[..i] + s[i+1..]
  }

  ghost predicate Distinct<T>(s: seq<T>) {
    forall i, j :: 0 <= i < j < |s| ==> s[i] != s[j]
  }

  lemma WithoutKeeps<T>(s: seq<T>, i: nat)
    requires Distinct(s) && i < |s|
    ensures Distinct(Without(s, i)) && forall x :: x in Without(s, i) <==> x in s && x != s[i]
  {
    var w := Without(s, i);
    forall x | x in s && x != s[i] ensures x in w {
      var k :| 0 <= k < |s| && s[k] == x;
      assert w[if k < i then k else k - 1] == x;
    }
  }

  function Max(a: nat, b: nat): nat { if a < b then b else a }
}
