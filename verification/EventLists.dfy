/** Multimaps, as every component of the simulator keeps them: from a key, mostly the time at which an event
    is due, to what was added under it, in the order in which it was added. */
module EventLists {

  type Events<T> = map<nat, seq<T>>

  function At<T>(q: Events<T>, time: nat): seq<T> {
    if time in q then q[time] else []
  }

  function Add<T>(q: Events<T>, time: nat, x: T): (r: Events<T>)
    ensures r.Keys == q.Keys + {time}
    ensures At(r, time) == At(q, time) + [x]
    ensures forall t :: t != time ==> At(r, t) == At(q, t)
  {
    q[time := At(q, time) + [x]]
  }

  function Erase<T>(q: Events<T>, time: nat): (r: Events<T>)
    ensures r.Keys == q.Keys - {time}
    ensures forall t :: At(r, t) == if t == time then [] else At(q, t)
  {
    q - {time}
  }

  /** Every key has at least one event. */
  ghost predicate Proper<T>(q: Events<T>) {
    forall t :: t in q ==> q[t] != []
  }

  /** Everything that was added, under whatever key. */
  ghost function Pending<T>(q: Events<T>): multiset<T>
    decreases |q|
  {
    if q == map[] then multiset{}
    else
      var t :| t in q;
      multiset(q[t]) + Pending(q - {t})
  }

  /** The order in which keys are taken does not matter. */
  lemma {:induction false} PendingAt<T>(q: Events<T>, t: nat)
    requires t in q
    ensures Pending(q) == multiset(q[t]) + Pending(q - {t})
    decreases |q|
  {
    var k :| k in q && Pending(q) == multiset(q[k]) + Pending(q - {k});
    if k != t {
      PendingAt(q - {k}, t);
      PendingAt(q - {t}, k);
      assert q - {k} - {t} == q - {t} - {k};
    }
  }

  lemma PendingErased<T>(q: Events<T>, t: nat)
    ensures Pending(q) == multiset(At(q, t)) + Pending(Erase(q, t))
  {
    if t in q {
      PendingAt(q, t);
    } else {
      assert Erase(q, t) == q;
    }
  }

  lemma PendingAdded<T>(q: Events<T>, t: nat, x: T)
    ensures Pending(Add(q, t, x)) == Pending(q) + multiset{x}
  {
    PendingErased(q, t);
    PendingErased(Add(q, t, x), t);
    assert Erase(Add(q, t, x), t) == Erase(q, t);
  }

  /** A queue together with the events that have not been moved to it yet. */
  ghost function Waiting<T>(q: seq<T>, later: Events<T>): multiset<T> {
    multiset(q) + Pending(later)
  }

  /** Moving the events that are due to the queue loses none. */
  lemma DueQueued<T>(q: seq<T>, later: Events<T>, now: nat)
    ensures Waiting(q + At(later, now), Erase(later, now)) == Waiting(q, later)
  {
    PendingErased(later, now);
  }

  lemma FirstTaken<T>(q: seq<T>, later: Events<T>)
    requires q != []
    ensures Waiting(q, later) == Waiting(q[1..], later) + multiset{q[0]}
  {
    assert q == [q[0]] + q[1..];
  }

  lemma WaitingAdded<T>(q: seq<T>, later: Events<T>, t: nat, x: T)
    ensures Waiting(q, Add(later, t, x)) == Waiting(q, later) + multiset{x}
  {
    PendingAdded(later, t, x);
  }
}
