/** The crossbar: every call scans all ports from the one with top priority, clockwise or counter-clockwise
    by turns, and lets each send up to two messages to destinations that have received none in this call. */
module Crossbar {
  import opened Circular
  import opened Numbers
  import opened Multimaps

  /** Priorities are those of the source: replies 0, coherence requests 1, requests 2. */
  datatype Msg = Msg(id: nat, prio: nat, dest: nat)

  datatype Sending = Sending(port: nat, msg: Msg)

  datatype Arrival = Arrival(port: nat, msg: Msg)

  type Queue = seq<Msg>

  /** Queues are ordered by priority. */
  function Prio(m: Msg): nat { m.prio }

  // ---------------------------------------------------------------- one port

  /** The port's part of a call: what it keeps, what it sends, and the destinations taken after it. */
  datatype Visit = Visit(rest: Queue, out: seq<Msg>, taken: set<nat>)

  /** The first message if its destination is free, and then the next one if that one's is too. */
  function VisitPort(q: Queue, taken: set<nat>): Visit {
    if q == [] then Visit(q, [], taken)
    else if q[0].dest !in taken then
      var t1 := taken + {q[0].dest};
      if |q| > 1 && q[1].dest !in t1 then Visit(q[2..], q[..2], t1 + {q[1].dest})
      else Visit(q[1..], q[..1], t1)
    else if |q| > 1 && q[1].dest !in taken then Visit([q[0]] + q[2..], [q[1]], taken + {q[1].dest})
    else Visit(q, [], taken)
  }

  /** Nothing goes to a destination that is taken, and the order of what stays is kept. */
  lemma VisitRespects(q: Queue, taken: set<nat>)
    ensures
      var v := VisitPort(q, taken);
      && (Sorted(Prio, q) ==> Sorted(Prio, v.rest))
      && (forall k :: 0 <= k < |v.out| ==> v.out[k].dest !in taken && v.out[k].dest in v.taken)
      && (forall j, k :: 0 <= j < k < |v.out| ==> v.out[j].dest != v.out[k].dest)
      && taken <= v.taken
  {
  }

  /** Nothing is lost or copied. */
  lemma VisitConserves(q: Queue, taken: set<nat>)
    ensures multiset(VisitPort(q, taken).rest) + multiset(VisitPort(q, taken).out) == multiset(q)
  {
    var v := VisitPort(q, taken);
    if q == [] || v.out == [] {
    } else if q[0].dest !in taken {
      assert q == v.out + v.rest;
    } else {
      assert q == ([q[0]] + [q[1]]) + q[2..];
    }
  }

  // ---------------------------------------------------------------- one scan

  /** The port visited in turn i. */
  function Order(n: nat, top: nat, clockwise: bool, i: nat): (p: nat)
    requires top < n && i < n
    ensures p < n
  {
    if clockwise then (if top + i < n then top + i else top + i - n)
    else (if i <= top then top - i else n + top - i)
  }

  /** The turn of a port: both scans visit every port exactly once. */
  function TurnOf(n: nat, top: nat, clockwise: bool, p: nat): nat
    requires top < n && p < n
  {
    if clockwise then (if top <= p then p - top else n - top + p)
    else (if p <= top then top - p else n + top - p)
  }

  lemma EachOnce(n: nat, top: nat, clockwise: bool, p: nat, i: nat)
    requires top < n && p < n && i < n
    ensures TurnOf(n, top, clockwise, p) < n
    ensures Order(n, top, clockwise, i) == p <==> i == TurnOf(n, top, clockwise, p)
  {
  }

  datatype Scan = Scan(queues: seq<Queue>, out: seq<Sending>, taken: set<nat>)

  function FromPort(p: nat, msgs: seq<Msg>): (r: seq<Sending>)
    ensures |r| == |msgs|
  {
    seq(|msgs|, k requires 0 <= k < |msgs| => Sending(p, msgs[k]))
  }

  function After(queues: seq<Queue>, top: nat, clockwise: bool, turns: nat): (s: Scan)
    requires top < |queues| && turns <= |queues|
    ensures |s.queues| == |queues|
  {
    if turns == 0 then Scan(queues, [], {})
    else
      Turn(After(queues, top, clockwise, turns - 1), Order(|queues|, top, clockwise, turns - 1))
  }

  function Turn(s: Scan, p: nat): Scan
    requires p < |s.queues|
  {
    var v := VisitPort(s.queues[p], s.taken);
    Scan(s.queues[p := v.rest], s.out + FromPort(p, v.out), v.taken)
  }

  /** No destination number receives two messages in one call. */
  ghost predicate DistinctDests(out: seq<Sending>) {
    forall j, k :: 0 <= j < k < |out| ==> out[j].msg.dest != out[k].msg.dest
  }

  lemma {:induction false} NoDestinationTwice(queues: seq<Queue>, top: nat, clockwise: bool, turns: nat)
    requires top < |queues| && turns <= |queues|
    ensures
      var s := After(queues, top, clockwise, turns);
      DistinctDests(s.out) && forall k :: 0 <= k < |s.out| ==> s.out[k].msg.dest in s.taken
  {
    if turns > 0 {
      NoDestinationTwice(queues, top, clockwise, turns - 1);
      var s := After(queues, top, clockwise, turns - 1);
      var p := Order(|queues|, top, clockwise, turns - 1);
      VisitRespects(s.queues[p], s.taken);
    }
  }

  /** How often a message has left a port. */
  function Sent(out: seq<Sending>, p: nat, m: Msg): nat {
    if out == [] then 0 else Sent(out[..|out|-1], p, m) + if out[|out|-1] == Sending(p, m) then 1 else 0
  }

  lemma {:induction false} SentInAll(a: seq<Sending>, b: seq<Sending>, p: nat, m: Msg)
    ensures Sent(a + b, p, m) == Sent(a, p, m) + Sent(b, p, m)
  {
    if b == [] {
      assert a + b == a;
    } else {
      SentInAll(a, b[..|b|-1], p, m);
      assert (a + b)[..|a+b|-1] == a + b[..|b|-1];
    }
  }

  lemma {:induction false} SentFromPort(p: nat, msgs: seq<Msg>, p': nat, m: Msg)
    ensures Sent(FromPort(p, msgs), p', m) == if p == p' then multiset(msgs)[m] else 0
  {
    if msgs != [] {
      var n := |msgs| - 1;
      SentFromPort(p, msgs[..n], p', m);
      assert FromPort(p, msgs)[..n] == FromPort(p, msgs[..n]);
      assert msgs == msgs[..n] + [msgs[n]];
    }
  }

  /** A scan loses and copies nothing, at any port. */
  lemma {:induction false} ScanConserves(queues: seq<Queue>, top: nat, clockwise: bool, turns: nat, p: nat, m: Msg)
    requires top < |queues| && turns <= |queues| && p < |queues|
    ensures
      var s := After(queues, top, clockwise, turns);
      multiset(s.queues[p])[m] + Sent(s.out, p, m) == multiset(queues[p])[m]
  {
    hide Turn;
    if turns > 0 {
      ScanConserves(queues, top, clockwise, turns - 1, p, m);
      TurnConserves(After(queues, top, clockwise, turns - 1), Order(|queues|, top, clockwise, turns - 1), p, m);
    }
  }

  lemma TurnConserves(s: Scan, p: nat, p': nat, m: Msg)
    requires p < |s.queues| && p' < |s.queues|
    ensures
      var s' := Turn(s, p);
      multiset(s'.queues[p'])[m] + Sent(s'.out, p', m) == multiset(s.queues[p'])[m] + Sent(s.out, p', m)
  {
    hide VisitPort, FromPort, Sent;
    var v := VisitPort(s.queues[p], s.taken);
    VisitConserves(s.queues[p], s.taken);
    SentInAll(s.out, FromPort(p, v.out), p', m);
    SentFromPort(p, v.out, p', m);
  }

  /** A port is untouched until its turn. */
  lemma {:induction false} UntouchedBefore(queues: seq<Queue>, top: nat, clockwise: bool, turns: nat, p: nat)
    requires top < |queues| && p < |queues| && turns <= TurnOf(|queues|, top, clockwise, p)
    ensures turns <= |queues| && After(queues, top, clockwise, turns).queues[p] == queues[p]
  {
    EachOnce(|queues|, top, clockwise, p, 0);
    if turns > 0 {
      UntouchedBefore(queues, top, clockwise, turns - 1, p);
      EachOnce(|queues|, top, clockwise, p, turns - 1);
    }
  }

  /** After a port's turn its queue is what its one visit left. */
  lemma {:induction false} VisitedOnce(queues: seq<Queue>, top: nat, clockwise: bool, turns: nat, p: nat)
    requires top < |queues| && p < |queues| && TurnOf(|queues|, top, clockwise, p) < turns <= |queues|
    ensures
      var t := TurnOf(|queues|, top, clockwise, p);
      After(queues, top, clockwise, turns).queues[p] ==
        VisitPort(queues[p], After(queues, top, clockwise, t).taken).rest
    decreases turns
  {
    var t := TurnOf(|queues|, top, clockwise, p);
    EachOnce(|queues|, top, clockwise, p, turns - 1);
    if turns - 1 == t {
      UntouchedBefore(queues, top, clockwise, t, p);
    } else {
      VisitedOnce(queues, top, clockwise, turns - 1, p);
    }
  }

  lemma {:induction false} OutGrows(queues: seq<Queue>, top: nat, clockwise: bool, a: nat, b: nat)
    requires top < |queues| && a <= b <= |queues|
    ensures After(queues, top, clockwise, a).out <= After(queues, top, clockwise, b).out
    decreases b
  {
    if a < b { OutGrows(queues, top, clockwise, a, b - 1); }
  }

  /** The port with top priority always sends its first message. */
  lemma TopSends(queues: seq<Queue>, top: nat, clockwise: bool)
    requires top < |queues| && queues[top] != []
    ensures
      var s := After(queues, top, clockwise, |queues|);
      Sending(top, queues[top][0]) in s.out
  {
    var first := After(queues, top, clockwise, 1);
    var none := After(queues, top, clockwise, 0);
    assert Order(|queues|, top, clockwise, 0) == top;
    assert first.out == FromPort(top, VisitPort(queues[top], {}).out);
    assert first.out[0] == Sending(top, queues[top][0]);
    OutGrows(queues, top, clockwise, 1, |queues|);
  }

  /** A destination is taken because a port of an earlier turn has sent to it. */
  lemma {:induction false} TakenBy(queues: seq<Queue>, top: nat, clockwise: bool, turns: nat, d: nat) returns (j: nat)
    requires top < |queues| && turns <= |queues| && d in After(queues, top, clockwise, turns).taken
    ensures
      var out := After(queues, top, clockwise, turns).out;
      && j < |out| && out[j].msg.dest == d
      && out[j].port < |queues| && TurnOf(|queues|, top, clockwise, out[j].port) < turns
  {
    var before, p := After(queues, top, clockwise, turns - 1), Order(|queues|, top, clockwise, turns - 1);
    var v := VisitPort(before.queues[p], before.taken);
    if d in before.taken {
      j := TakenBy(queues, top, clockwise, turns - 1, d);
    } else {
      var k :| 0 <= k < |v.out| && v.out[k].dest == d;
      j := |before.out| + k;
      EachOnce(|queues|, top, clockwise, p, turns - 1);
    }
  }

  /** Why a message is not sent: its destination got one from a port of an earlier turn, or the message in front. */
  ghost predicate Overtaken(queues: seq<Queue>, top: nat, clockwise: bool, p: nat, k: nat, x: Sending)
    requires top < |queues| && p < |queues| && k < |queues[p]|
  {
    && x.msg.dest == queues[p][k].dest
    && (if x.port == p then k == 1 && x.msg == queues[p][0]
        else x.port < |queues| && TurnOf(|queues|, top, clockwise, x.port) < TurnOf(|queues|, top, clockwise, p))
  }

  /** A port's visit, seen by one of its first two messages. */
  lemma VisitReaches(q: Queue, taken: set<nat>, k: nat)
    requires k < 2 && k < |q| && q[k].dest !in taken
    ensures
      var out := VisitPort(q, taken).out;
      || (exists i :: 0 <= i < |out| && out[i] == q[k])
      || (k == 1 && out != [] && out[0] == q[0] && q[0].dest == q[1].dest)
  {
    var out := VisitPort(q, taken).out;
    assert out != [];
    assert out[|out|-1] == q[k] || out[0] == q[k] || (k == 1 && q[0].dest == q[1].dest);
  }

  /** The port's turn splits the scan. */
  lemma AtItsTurn(queues: seq<Queue>, top: nat, clockwise: bool, p: nat) returns (t: nat, before: Scan)
    requires top < |queues| && p < |queues|
    ensures t == TurnOf(|queues|, top, clockwise, p) && t < |queues| && before == After(queues, top, clockwise, t)
    ensures
      before.out + FromPort(p, VisitPort(queues[p], before.taken).out) <= After(queues, top, clockwise, |queues|).out
  {
    t := TurnOf(|queues|, top, clockwise, p);
    EachOnce(|queues|, top, clockwise, p, 0);
    EachOnce(|queues|, top, clockwise, p, t);
    UntouchedBefore(queues, top, clockwise, t, p);
    before := After(queues, top, clockwise, t);
    OutGrows(queues, top, clockwise, t + 1, |queues|);
  }

  /** No slot is wasted: each of the first two messages of every port is sent, unless its destination receives another
      message in this call, from a port whose turn is earlier or from the same port's first. */
  lemma NothingIsHeldBack(queues: seq<Queue>, top: nat, clockwise: bool, p: nat, k: nat)
    requires top < |queues| && p < |queues| && k < 2 && k < |queues[p]|
    ensures
      var out := After(queues, top, clockwise, |queues|).out;
      || Sending(p, queues[p][k]) in out
      || exists j :: 0 <= j < |out| && Overtaken(queues, top, clockwise, p, k, out[j])
  {
    hide TurnOf, Order, VisitPort, After;
    var t, before := AtItsTurn(queues, top, clockwise, p);
    var more := VisitPort(queues[p], before.taken).out;
    var out := After(queues, top, clockwise, |queues|).out;
    if queues[p][k].dest in before.taken {
      var j := TakenBy(queues, top, clockwise, t, queues[p][k].dest);
      assert out[j] == (before.out + FromPort(p, more))[j] == before.out[j];
      assert Overtaken(queues, top, clockwise, p, k, out[j]);
    } else {
      VisitReaches(queues[p], before.taken, k);
      if i: nat :| i < |more| && more[i] == queues[p][k] {
        assert out[|before.out| + i] == (before.out + FromPort(p, more))[|before.out| + i] == Sending(p, more[i]);
      } else {
        assert out[|before.out|] == (before.out + FromPort(p, more))[|before.out|] == Sending(p, more[0]);
        assert Overtaken(queues, top, clockwise, p, k, out[|before.out|]);
      }
    }
  }

  lemma VisitLeavesRest(q: Queue, taken: set<nat>)
    requires |q| >= 2
    ensures var r := VisitPort(q, taken).rest; |q| <= |r| + 2 && r[|r| + 2 - |q|..] == q[2..]
  {
    var r, n := VisitPort(q, taken).rest, |q| - 2;
    assert r == [q[0], q[1]] + q[2..] || r == [q[0]] + q[2..] || r == [q[1]] + q[2..] || r == q[2..] by {
      assert q == [q[0], q[1]] + q[2..] && q[1..] == [q[1]] + q[2..];
    }
  }

  /** And no more than the first two are considered: the messages behind them stay as they are. */
  lemma OthersWait(queues: seq<Queue>, top: nat, clockwise: bool, p: nat)
    requires top < |queues| && p < |queues| && |queues[p]| >= 2
    ensures
      var q, r := queues[p], After(queues, top, clockwise, |queues|).queues[p];
      |q| <= |r| + 2 && r[|r| + 2 - |q|..] == q[2..]
  {
    hide TurnOf, After, VisitPort;
    EachOnce(|queues|, top, clockwise, p, 0);
    VisitedOnce(queues, top, clockwise, |queues|, p);
    VisitLeavesRest(queues[p], After(queues, top, clockwise, TurnOf(|queues|, top, clockwise, p)).taken);
  }

  // ---------------------------------------------------------------- order

  /** The messages of one priority for one destination, in order: those of a queue, those that came to a port, and
      those that left it. */
  function OfFlow(q: seq<Msg>, prio: nat, dest: nat): seq<Msg> {
    if q == [] then []
    else
      var m := q[|q|-1];
      OfFlow(q[..|q|-1], prio, dest) + if m.prio == prio && m.dest == dest then [m] else []
  }

  function CameFor(due: seq<Arrival>, p: nat, prio: nat, dest: nat): seq<Msg> {
    if due == [] then []
    else
      var a := due[|due|-1];
      CameFor(due[..|due|-1], p, prio, dest) + if a.port == p then OfFlow([a.msg], prio, dest) else []
  }

  function LeftFor(out: seq<Sending>, p: nat, prio: nat, dest: nat): seq<Msg> {
    if out == [] then []
    else
      var s := out[|out|-1];
      LeftFor(out[..|out|-1], p, prio, dest) + if s.port == p then OfFlow([s.msg], prio, dest) else []
  }

  lemma {:induction false} FlowOfAll(a: seq<Msg>, b: seq<Msg>, prio: nat, dest: nat)
    ensures OfFlow(a + b, prio, dest) == OfFlow(a, prio, dest) + OfFlow(b, prio, dest)
  {
    if b == [] {
      assert a + b == a;
    } else {
      FlowOfAll(a, b[..|b|-1], prio, dest);
      assert (a + b)[..|a+b|-1] == a + b[..|b|-1];
    }
  }

  lemma {:induction false} CameForAll(a: seq<Arrival>, b: seq<Arrival>, p: nat, prio: nat, dest: nat)
    ensures CameFor(a + b, p, prio, dest) == CameFor(a, p, prio, dest) + CameFor(b, p, prio, dest)
  {
    hide OfFlow;
    if b == [] {
      assert a + b == a;
    } else {
      CameForAll(a, b[..|b|-1], p, prio, dest);
      assert (a + b)[..|a+b|-1] == a + b[..|b|-1];
    }
  }

  lemma {:induction false} LeftForAll(a: seq<Sending>, b: seq<Sending>, p: nat, prio: nat, dest: nat)
    ensures LeftFor(a + b, p, prio, dest) == LeftFor(a, p, prio, dest) + LeftFor(b, p, prio, dest)
  {
    hide OfFlow;
    if b == [] {
      assert a + b == a;
    } else {
      LeftForAll(a, b[..|b|-1], p, prio, dest);
      assert (a + b)[..|a+b|-1] == a + b[..|b|-1];
    }
  }

  lemma {:induction false} LeftFromPort(p: nat, msgs: seq<Msg>, p': nat, prio: nat, dest: nat)
    ensures LeftFor(FromPort(p, msgs), p', prio, dest) == if p == p' then OfFlow(msgs, prio, dest) else []
  {
    if msgs != [] {
      var n := |msgs| - 1;
      LeftFromPort(p, msgs[..n], p', prio, dest);
      assert FromPort(p, msgs)[..n] == FromPort(p, msgs[..n]);
      FlowOfAll(msgs[..n], [msgs[n]], prio, dest);
      assert msgs == msgs[..n] + [msgs[n]];
    }
  }

  lemma {:induction false} NoneOfFlow(q: seq<Msg>, prio: nat, dest: nat)
    requires forall m :: m in q ==> m.prio != prio || m.dest != dest
    ensures OfFlow(q, prio, dest) == []
  {
    if q != [] { NoneOfFlow(q[..|q|-1], prio, dest); }
  }

  lemma FlowPastLater(a: seq<Msg>, m: Msg, b: seq<Msg>, prio: nat, dest: nat)
    requires forall x :: x in b ==> x.prio != m.prio
    ensures OfFlow(a + [m] + b, prio, dest) == OfFlow(a + b, prio, dest) + OfFlow([m], prio, dest)
  {
    FlowOfAll(a + [m], b, prio, dest);
    FlowOfAll(a, [m], prio, dest);
    FlowOfAll(a, b, prio, dest);
    if m.prio == prio { NoneOfFlow(b, prio, dest); } else { NoneOfFlow([m], prio, dest); }
  }

  /** A message that arrives goes behind those of its flow. */
  lemma InsertInOrder(q: Queue, m: Msg, prio: nat, dest: nat)
    requires Sorted(Prio, q)
    ensures OfFlow(Insert(Prio, q, m), prio, dest) == OfFlow(q, prio, dest) + OfFlow([m], prio, dest)
  {
    hide OfFlow, Insert;
    var k := InsertPlace(Prio, q, m);
    forall x | x in q[k..] ensures x.prio != m.prio {
      var i :| 0 <= i < |q| - k && q[k..][i] == x;
      assert Prio(m) < Prio(q[k + i]);
    }
    FlowPastLater(q[..k], m, q[k..], prio, dest);
    assert q == q[..k] + q[k..];
  }

  /** A message may be overtaken by the next one, but not on the way to the same destination. */
  lemma VisitInOrder(q: Queue, taken: set<nat>, prio: nat, dest: nat)
    ensures
      var v := VisitPort(q, taken);
      OfFlow(q, prio, dest) == OfFlow(v.out, prio, dest) + OfFlow(v.rest, prio, dest)
  {
    var v := VisitPort(q, taken);
    if q == [] || v.out == [] || q[0].dest !in taken {
      FlowOfAll(v.out, v.rest, prio, dest);
      assert q == v.out + v.rest;
    } else {
      FlowOfAll([q[0]], [q[1]], prio, dest);
      FlowOfAll([q[0]] + [q[1]], q[2..], prio, dest);
      FlowOfAll([q[0]], q[2..], prio, dest);
      assert q == [q[0]] + [q[1]] + q[2..];
      if q[1].dest == dest { NoneOfFlow([q[0]], prio, dest); } else { NoneOfFlow([q[1]], prio, dest); }
    }
  }

  lemma TurnInOrder(s: Scan, p: nat, p': nat, prio: nat, dest: nat)
    requires p < |s.queues| && p' < |s.queues|
    ensures
      var s' := Turn(s, p);
      LeftFor(s'.out, p', prio, dest) + OfFlow(s'.queues[p'], prio, dest) ==
      LeftFor(s.out, p', prio, dest) + OfFlow(s.queues[p'], prio, dest)
  {
    hide VisitPort, FromPort, LeftFor, OfFlow;
    var v := VisitPort(s.queues[p], s.taken);
    VisitInOrder(s.queues[p], s.taken, prio, dest);
    LeftForAll(s.out, FromPort(p, v.out), p', prio, dest);
    LeftFromPort(p, v.out, p', prio, dest);
  }

  lemma {:induction false} ScanInOrder(queues: seq<Queue>, top: nat, clockwise: bool, turns: nat, p: nat, prio: nat,
                                       dest: nat)
    requires top < |queues| && turns <= |queues| && p < |queues|
    ensures
      var s := After(queues, top, clockwise, turns);
      LeftFor(s.out, p, prio, dest) + OfFlow(s.queues[p], prio, dest) == OfFlow(queues[p], prio, dest)
  {
    hide Turn;
    if turns > 0 {
      ScanInOrder(queues, top, clockwise, turns - 1, p, prio, dest);
      var before, at := After(queues, top, clockwise, turns - 1), Order(|queues|, top, clockwise, turns - 1);
      TurnInOrder(before, at, p, prio, dest);
    }
  }

  // ---------------------------------------------------------------- runs

  datatype Xbar = Xbar(queues: seq<Queue>, clockwise: bool, top: nat)

  function Enqueue(queues: seq<Queue>, due: seq<Arrival>): (r: seq<Queue>)
    requires forall k :: 0 <= k < |due| ==> due[k].port < |queues|
    ensures |r| == |queues|
  {
    if due == [] then queues
    else
      var r := Enqueue(queues, due[..|due|-1]);
      var a := due[|due|-1];
      r[a.port := Insert(Prio, r[a.port], a.msg)]
  }

  ghost predicate Fits(x: Xbar, due: seq<Arrival>) {
    x.top < |x.queues| && forall k :: 0 <= k < |due| ==> due[k].port < |x.queues|
  }

  /** How often a message has come to a port. */
  function Arrived(due: seq<Arrival>, p: nat, m: Msg): nat {
    if due == [] then 0 else Arrived(due[..|due|-1], p, m) + if due[|due|-1] == Arrival(p, m) then 1 else 0
  }

  lemma {:induction false} ArrivedInAll(a: seq<Arrival>, b: seq<Arrival>, p: nat, m: Msg)
    ensures Arrived(a + b, p, m) == Arrived(a, p, m) + Arrived(b, p, m)
  {
    if b == [] {
      assert a + b == a;
    } else {
      ArrivedInAll(a, b[..|b|-1], p, m);
      assert (a + b)[..|a+b|-1] == a + b[..|b|-1];
    }
  }

  lemma {:induction false} EnqueueAdds(queues: seq<Queue>, due: seq<Arrival>, p: nat, m: Msg)
    requires (forall k :: 0 <= k < |due| ==> due[k].port < |queues|) && p < |queues|
    ensures multiset(Enqueue(queues, due)[p])[m] == multiset(queues[p])[m] + Arrived(due, p, m)
  {
    if due != [] {
      var most, a := due[..|due|-1], due[|due|-1];
      EnqueueAdds(queues, most, p, m);
      InsertAdds(Prio, Enqueue(queues, most)[a.port], a.msg);
    }
  }

  /** One call: arrivals are queued, the ports are scanned, and every second call the top moves on. */
  ghost function Scanned(x: Xbar, due: seq<Arrival>): Scan
    requires Fits(x, due)
  {
    After(Enqueue(x.queues, due), x.top, x.clockwise, |x.queues|)
  }

  ghost function Next(x: Xbar, due: seq<Arrival>): Xbar
    requires Fits(x, due)
  {
    Xbar(Scanned(x, due).queues, !x.clockwise,
         if x.clockwise then x.top else if x.top + 1 == |x.queues| then 0 else x.top + 1)
  }

  ghost predicate Run(states: seq<Xbar>, due: seq<seq<Arrival>>) {
    && |states| == |due| + 1
    && forall k :: 0 <= k < |due| ==> Fits(states[k], due[k]) && states[k+1] == Next(states[k], due[k])
  }

  /** One call: what was queued at a port and what came are what it still holds and what it sent. */
  lemma CallConserves(x: Xbar, due: seq<Arrival>, p: nat, m: Msg)
    requires Fits(x, due) && p < |x.queues|
    ensures multiset(Next(x, due).queues[p])[m] + Sent(Scanned(x, due).out, p, m)
         == multiset(x.queues[p])[m] + Arrived(due, p, m)
  {
    hide Sent, Arrived, Turn;
    EnqueueAdds(x.queues, due, p, m);
    ScanConserves(Enqueue(x.queues, due), x.top, x.clockwise, |x.queues|, p, m);
  }

  /** All that came, and all that was sent, in the first k calls. */
  ghost function Inputs(due: seq<seq<Arrival>>, k: nat): seq<Arrival>
    requires k <= |due|
  {
    if k == 0 then [] else Inputs(due, k - 1) + due[k-1]
  }

  ghost function Outputs(states: seq<Xbar>, due: seq<seq<Arrival>>, k: nat): seq<Sending>
    requires Run(states, due) && k <= |due|
  {
    if k == 0 then [] else Outputs(states, due, k - 1) + Scanned(states[k-1], due[k-1]).out
  }

  /** Every run that starts empty: at every port, each message that came is queued or was sent from there, once for each
      time it came. */
  lemma {:induction false} RunConserves(states: seq<Xbar>, due: seq<seq<Arrival>>, k: nat, p: nat, m: Msg)
    requires Run(states, due) && k <= |due| && p < |states[0].queues|
    requires forall q :: 0 <= q < |states[0].queues| ==> states[0].queues[q] == []
    ensures |states[k].queues| == |states[0].queues|
    ensures Arrived(Inputs(due, k), p, m) == multiset(states[k].queues[p])[m] + Sent(Outputs(states, due, k), p, m)
  {
    hide Enqueue, After, Turn;
    if k > 0 {
      RunConserves(states, due, k - 1, p, m);
      var x, d := states[k-1], due[k-1];
      assert Fits(x, d) && states[(k-1)+1] == Next(x, d);
      CallConserves(x, d, p, m);
      ArrivedInAll(Inputs(due, k - 1), d, p, m);
      SentInAll(Outputs(states, due, k - 1), Scanned(x, d).out, p, m);
    }
  }

  lemma {:induction false} EnqueueSorts(queues: seq<Queue>, due: seq<Arrival>, p: nat)
    requires (forall k :: 0 <= k < |due| ==> due[k].port < |queues|) && p < |queues| && Sorted(Prio, queues[p])
    ensures Sorted(Prio, Enqueue(queues, due)[p])
  {
    if due != [] {
      EnqueueSorts(queues, due[..|due|-1], p);
      var r := Enqueue(queues, due[..|due|-1]);
      if due[|due|-1].port == p { InsertSorts(Prio, r[p], due[|due|-1].msg); }
    }
  }

  lemma {:induction false} EnqueueInOrder(queues: seq<Queue>, due: seq<Arrival>, p: nat, prio: nat, dest: nat)
    requires (forall k :: 0 <= k < |due| ==> due[k].port < |queues|) && p < |queues| && Sorted(Prio, queues[p])
    ensures OfFlow(Enqueue(queues, due)[p], prio, dest) == OfFlow(queues[p], prio, dest) + CameFor(due, p, prio, dest)
  {
    hide OfFlow;
    if due != [] {
      var most, a := due[..|due|-1], due[|due|-1];
      EnqueueInOrder(queues, most, p, prio, dest);
      EnqueueSorts(queues, most, p);
      if a.port == p { InsertInOrder(Enqueue(queues, most)[p], a.msg, prio, dest); }
    }
  }

  lemma Regroup<T>(a: seq<T>, b: seq<T>, c: seq<T>, d: seq<T>, e: seq<T>)
    requires b + c == d + e
    ensures (a + b) + c == (a + d) + e
  {
    assert (a + b) + c == a + (b + c) && (a + d) + e == a + (d + e);
  }

  /** One call, flow by flow: what was queued and then what came is what left and then what is still queued. */
  lemma CallInOrder(x: Xbar, due: seq<Arrival>, p: nat, prio: nat, dest: nat)
    requires Fits(x, due) && p < |x.queues| && Sorted(Prio, x.queues[p])
    ensures OfFlow(x.queues[p], prio, dest) + CameFor(due, p, prio, dest) ==
      LeftFor(Scanned(x, due).out, p, prio, dest) + OfFlow(Next(x, due).queues[p], prio, dest)
  {
    hide OfFlow, CameFor, LeftFor, Turn;
    EnqueueInOrder(x.queues, due, p, prio, dest);
    ScanInOrder(Enqueue(x.queues, due), x.top, x.clockwise, |x.queues|, p, prio, dest);
  }

  lemma CallKeepsSorted(x: Xbar, due: seq<Arrival>, p: nat)
    requires Fits(x, due) && p < |x.queues| && Sorted(Prio, x.queues[p])
    ensures Sorted(Prio, Next(x, due).queues[p])
  {
    EnqueueSorts(x.queues, due, p);
    EachOnce(|x.queues|, x.top, x.clockwise, p, 0);
    VisitedOnce(Enqueue(x.queues, due), x.top, x.clockwise, |x.queues|, p);
    var qs, turn := Enqueue(x.queues, due), TurnOf(|x.queues|, x.top, x.clockwise, p);
    VisitRespects(qs[p], After(qs, x.top, x.clockwise, turn).taken);
  }

  /** In every run that starts empty, the messages of one priority from one port to one destination leave in the order
      in which they came: what came is what left and then what is still queued. */
  lemma {:induction false} RunInOrder(states: seq<Xbar>, due: seq<seq<Arrival>>, k: nat, p: nat, prio: nat, dest: nat)
    requires Run(states, due) && k <= |due| && p < |states[0].queues|
    requires forall q :: 0 <= q < |states[0].queues| ==> states[0].queues[q] == []
    ensures |states[k].queues| == |states[0].queues| && Sorted(Prio, states[k].queues[p])
    ensures CameFor(Inputs(due, k), p, prio, dest) ==
      LeftFor(Outputs(states, due, k), p, prio, dest) + OfFlow(states[k].queues[p], prio, dest)
  {
    hide Enqueue, After, Turn;
    if k > 0 {
      RunInOrder(states, due, k - 1, p, prio, dest);
      var x, d := states[k-1], due[k-1];
      assert Fits(x, d) && states[(k-1)+1] == Next(x, d);
      CallKeepsSorted(x, d, p);
      CallInOrder(x, d, p, prio, dest);
      CameForAll(Inputs(due, k - 1), d, p, prio, dest);
      LeftForAll(Outputs(states, due, k - 1), Scanned(x, d).out, p, prio, dest);
      Regroup(LeftFor(Outputs(states, due, k - 1), p, prio, dest), OfFlow(x.queues[p], prio, dest),
              CameFor(d, p, prio, dest), LeftFor(Scanned(x, d).out, p, prio, dest),
              OfFlow(Next(x, d).queues[p], prio, dest));
    }
  }

  /** Where the scan order stands in its cycle of two calls per port. */
  function Phase(x: Xbar): nat { 2 * x.top + if x.clockwise then 0 else 1 }

  lemma {:induction false} PhaseAfter(states: seq<Xbar>, due: seq<seq<Arrival>>, k: nat)
    requires Run(states, due) && k < |due| && k < 2 * |states[0].queues| && states[0].top < |states[0].queues|
    ensures |states[k].queues| == |states[0].queues|
    ensures
      var cycle := 2 * |states[0].queues|;
      Phase(states[k]) == if Phase(states[0]) + k < cycle then Phase(states[0]) + k else Phase(states[0]) + k - cycle
  {
    if k > 0 {
      PhaseAfter(states, due, k - 1);
      assert Fits(states[k-1], due[k-1]) && states[(k-1)+1] == Next(states[k-1], due[k-1]);
    }
  }

  /** Any 2n consecutive calls, where n is the number of ports, scan from every port in both directions, once each. */
  lemma EveryOrderOnce(states: seq<Xbar>, due: seq<seq<Arrival>>, p: nat, clockwise: bool) returns (k: nat)
    requires Run(states, due) && |due| >= 2 * |states[0].queues| && p < |states[0].queues|
    requires states[0].top < |states[0].queues|
    ensures k < 2 * |states[0].queues|
    ensures forall j :: 0 <= j < 2 * |states[0].queues| ==>
      (states[j].top == p && states[j].clockwise == clockwise <==> j == k)
  {
    var cycle, start := 2 * |states[0].queues|, Phase(states[0]);
    var at := 2 * p + if clockwise then 0 else 1;
    k := if start <= at then at - start else cycle - start + at;
    forall j | 0 <= j < cycle ensures states[j].top == p && states[j].clockwise == clockwise <==> j == k {
      PhaseAfter(states, due, j);
    }
  }

  /** Bounded fairness: of any 2n consecutive calls a port that has something to send in each sends its first message,
      one of highest priority, in at least two. */
  lemma Fair(states: seq<Xbar>, due: seq<seq<Arrival>>, p: nat) returns (k: nat, l: nat)
    requires Run(states, due) && |due| >= 2 * |states[0].queues| && p < |states[0].queues|
    requires forall j :: 0 <= j < |due| ==>
      p < |states[j].queues| && Fits(states[j], due[j]) && Enqueue(states[j].queues, due[j])[p] != []
    ensures k != l
    ensures forall j :: j in {k, l} ==>
      && j < 2 * |states[0].queues| && Fits(states[j], due[j]) && p < |states[j].queues|
      && Sending(p, Enqueue(states[j].queues, due[j])[p][0]) in Scanned(states[j], due[j]).out
  {
    assert Fits(states[0], due[0]);
    k := EveryOrderOnce(states, due, p, true);
    l := EveryOrderOnce(states, due, p, false);
    assert states[k].clockwise && !states[l].clockwise;
    forall j | j in {k, l}
      ensures Fits(states[j], due[j]) && p < |states[j].queues|
      ensures Sending(p, Enqueue(states[j].queues, due[j])[p][0]) in Scanned(states[j], due[j]).out
    {
      assert Fits(states[j], due[j]);
      assert states[j].top == p;
      TopSends(Enqueue(states[j].queues, due[j]), p, states[j].clockwise);
    }
  }

  /** The first message of a port is one of highest priority, in every state of a run that starts empty. */
  lemma {:induction false} QueuesStaySorted(states: seq<Xbar>, due: seq<seq<Arrival>>, k: nat, p: nat)
    requires Run(states, due) && k < |states| && p < |states[0].queues|
    requires forall q :: 0 <= q < |states[0].queues| ==> states[0].queues[q] == []
    ensures |states[k].queues| == |states[0].queues| && Sorted(Prio, states[k].queues[p])
  {
    if k > 0 {
      QueuesStaySorted(states, due, k - 1, p);
      var x, d := states[k-1], due[k-1];
      assert Fits(x, d) && states[(k-1)+1] == Next(x, d);
      CallKeepsSorted(x, d, p);
    }
  }

  // ---------------------------------------------------------------- as the simulator runs it

  class CrossbarUnit {
    const ports: nat
    var queues: seq<Queue>
    var sent: seq<bool>         // already_sent
    var clockwise: bool
    var top: nat                // top_priority
    var outbox: seq<Sending>

    /** All that ever came. */
    ghost var arrived: seq<Arrival>

    ghost predicate Shape()
      reads this`queues, this`sent, this`top
    {
      && ports > 0 && |queues| == ports && |sent| == ports && top < ports
      && forall p, k :: 0 <= p < ports && 0 <= k < |queues[p]| ==> queues[p][k].dest < ports
    }

    /** Whatever came to a port is queued there or was sent from there, flow by flow in the same order. */
    ghost predicate Valid()
      reads this
    {
      && Shape() && InOrder()
      && forall p, m :: 0 <= p < ports ==> Arrived(arrived, p, m) == multiset(queues[p])[m] + Sent(outbox, p, m)
    }

    ghost predicate InOrder()
      requires Shape()
      reads this
    {
      && (forall p :: 0 <= p < ports ==> Sorted(Prio, queues[p]))
      && forall p, prio, dest :: 0 <= p < ports ==>
           CameFor(arrived, p, prio, dest) == LeftFor(outbox, p, prio, dest) + OfFlow(queues[p], prio, dest)
    }

    ghost function State(): Xbar
      reads this`queues, this`clockwise, this`top
    {
      Xbar(queues, clockwise, top)
    }

    ghost predicate Taken(taken: set<nat>)
      reads this`sent
    {
      (forall d :: d in taken ==> d < |sent|) && forall d :: 0 <= d < |sent| ==> (sent[d] <==> d in taken)
    }

    constructor (ports: nat)
      requires ports > 0
      ensures Valid() && this.ports == ports && outbox == [] && arrived == []
      ensures forall p :: 0 <= p < ports ==> queues[p] == []
    {
      this.ports := ports;
      queues, sent := seq(ports, _ => []), seq(ports, _ => false);
      clockwise, top, outbox, arrived := true, 0, [], [];
    }

    method Queue(a: Arrival)
      requires Shape() && a.port < ports && a.msg.dest < ports
      modifies this`queues
      ensures Shape() && queues == old(queues)[a.port := Insert(Prio, old(queues)[a.port], a.msg)]
    {
      InsertMembers(Prio, queues[a.port], a.msg);
      var r := Insert(Prio, queues[a.port], a.msg);
      forall k | 0 <= k < |r| ensures r[k].dest < ports { assert r[k] in r; }
      queues := queues[a.port := r];
    }

    method Send(p: nat, m: Msg)
      requires m.dest < |sent|
      modifies this`sent, this`outbox
      ensures sent == old(sent)[m.dest := true] && outbox == old(outbox) + [Sending(p, m)]
    {
      sent := sent[m.dest := true];
      outbox := outbox + [Sending(p, m)];
    }

    /** What one port sends, and what it keeps. */
    method Serve(p: nat, ghost taken: set<nat>)
      requires Shape() && p < ports && Taken(taken)
      modifies this`queues, this`sent, this`outbox
      ensures Shape()
      ensures
        var v := VisitPort(old(queues)[p], taken);
        queues == old(queues)[p := v.rest] && Taken(v.taken) && outbox == old(outbox) + FromPort(p, v.out)
    {
      var q := queues[p];
      if q == [] { return; }
      if !sent[q[0].dest] {
        Send(p, q[0]);
        if |q| > 1 && !sent[q[1].dest] {
          Send(p, q[1]);
          queues := queues[p := q[2..]];
        } else {
          queues := queues[p := q[1..]];
        }
      } else if |q| > 1 && !sent[q[1].dest] {
        Send(p, q[1]);
        queues := queues[p := [q[0]] + q[2..]];
      }
    }

    /** The scan has got as far as s. */
    ghost predicate At(s: Scan, base: seq<Sending>)
      reads this`queues, this`sent, this`top, this`outbox
    {
      Shape() && queues == s.queues && Taken(s.taken) && outbox == base + s.out
    }

    /** One port's turn. */
    method TakeTurn(p: nat, ghost s: Scan, ghost base: seq<Sending>) returns (ghost s': Scan)
      requires At(s, base) && p < ports
      modifies this`queues, this`sent, this`outbox
      ensures s' == Turn(s, p) && At(s', base)
    {
      s' := Turn(s, p);
      Serve(p, s.taken);
      ghost var more := FromPort(p, VisitPort(s.queues[p], s.taken).out);
      assert base + (s.out + more) == (base + s.out) + more;
    }

    /** The scan of all ports. */
    method ScanPorts()
      requires Shape()
      modifies this`queues, this`sent, this`outbox
      ensures At(After(old(queues), top, clockwise, ports), old(outbox))
    {
      hide Turn, Order;
      sent := seq(ports, _ => false);
      ghost var s := After(queues, top, clockwise, 0);
      for i := 0 to ports
        invariant s == After(old(queues), top, clockwise, i) && At(s, old(outbox))
      {
        var p := PortOfTurn(ports, top, clockwise, i);
        s := TakeTurn(p, s, old(outbox));
      }
    }

    /** One call.  It is made again while some queue is not empty. */
    method ProcessEvent(replies: seq<Arrival>, coherence: seq<Arrival>, requests: seq<Arrival>) returns (again: bool)
      requires Valid()
      requires forall a :: a in replies + coherence + requests ==> a.port < ports && a.msg.dest < ports
      modifies this
      ensures Valid() && arrived == old(arrived) + replies + coherence + requests
      ensures
        var due := replies + coherence + requests;
        && Fits(old(State()), due) && State() == Next(old(State()), due)
        && outbox == old(outbox) + Scanned(old(State()), due).out
      ensures again <==> exists p :: 0 <= p < ports && queues[p] != []
    {
      hide CrossbarUnit.Taken, Sent, Arrived, CameFor, LeftFor, OfFlow, After, Enqueue;
      var due := replies + coherence + requests;
      ghost var out := Pass(due);
      forall p, m | 0 <= p < ports
        ensures Arrived(old(arrived) + due, p, m) == multiset(queues[p])[m] + Sent(old(outbox) + out, p, m)
      {
        CallConserves(old(State()), due, p, m);
        ArrivedInAll(old(arrived), due, p, m);
        SentInAll(old(outbox), out, p, m);
      }
      forall p | 0 <= p < ports ensures Sorted(Prio, queues[p]) { CallKeepsSorted(old(State()), due, p); }
      forall p, prio, dest | 0 <= p < ports
        ensures CameFor(old(arrived) + due, p, prio, dest) ==
          LeftFor(old(outbox) + out, p, prio, dest) + OfFlow(queues[p], prio, dest)
      {
        CallInOrder(old(State()), due, p, prio, dest);
        CameForAll(old(arrived), due, p, prio, dest);
        LeftForAll(old(outbox), out, p, prio, dest);
        Regroup(LeftFor(old(outbox), p, prio, dest), OfFlow(old(queues)[p], prio, dest), CameFor(due, p, prio, dest),
                LeftFor(out, p, prio, dest), OfFlow(queues[p], prio, dest));
      }
      arrived := arrived + due;
      assert old(arrived) + due == old(arrived) + replies + coherence + requests;
      again := AnyLeft();
    }

    /** Arrivals, the scan, and the change of the scan's order. */
    method Pass(due: seq<Arrival>) returns (ghost out: seq<Sending>)
      requires Shape() && forall a :: a in due ==> a.port < ports && a.msg.dest < ports
      modifies this`queues, this`sent, this`outbox, this`clockwise, this`top
      ensures Shape() && Fits(old(State()), due) && State() == Next(old(State()), due)
      ensures out == Scanned(old(State()), due).out && outbox == old(outbox) + out
    {
      Take(due);
      ScanPorts();
      if clockwise {
        clockwise := false;
      } else {
        clockwise := true;
        SmallRemainder(top + 1, ports);
        top := (top + 1) % ports;
      }
      out := Scanned(old(State()), due).out;
    }

    method AnyLeft() returns (any: bool)
      requires Shape()
      ensures any <==> exists p :: 0 <= p < ports && queues[p] != []
    {
      for i := 0 to ports
        invariant forall p :: 0 <= p < i ==> queues[p] == []
      {
        if queues[i] != [] { return true; }
      }
      return false;
    }

    method Take(due: seq<Arrival>)
      requires Shape() && forall a :: a in due ==> a.port < ports && a.msg.dest < ports
      modifies this`queues
      ensures Shape() && queues == Enqueue(old(queues), due)
    {
      var k := 0;
      while k < |due|
        invariant 0 <= k <= |due| && Shape() && queues == Enqueue(old(queues), due[..k])
      {
        assert due[..k+1][..k] == due[..k];
        assert due[k] in due;
        Queue(due[k]);
        k := k + 1;
      }
      assert due[..k] == due;
    }
  }

  /** The remainder the code takes is the port of this turn, both ways round. */
  method PortOfTurn(n: nat, top: nat, clockwise: bool, i: nat) returns (p: nat)
    requires top < n && i < n
    ensures p == Order(n, top, clockwise, i)
  {
    if clockwise {
      LapRemainder(top + n + i, n);
      SmallRemainder(top + i, n);
      p := (top + n + i) % n;
    } else {
      SmallRemainder(top + n - i, n);
      p := (top + n - i) % n;
    }
  }
}
