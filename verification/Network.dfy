/** The mesh and the ring as the simulator runs them: every call visits every router and lets each of its
    queues move its first packet once, if that is due and no earlier queue of the router has taken the same
    output.  A token that moves on with every call decides which queue goes first. */
module Network {
  import opened Basics
  import opened Multimaps
  import opened Routing
  import opened PacketQueues
  import opened Circular
  import opened Numbers

  // ---------------------------------------------------------------- one move

  /** The queues after the first packet of port p has moved: on to the next router, or out. */
  function Moved(t: Topology, qs: Queues, p: Port, arrival: nat): Queues
    requires At(qs, p) != [] && On(t, p.node) && On(t, At(qs, p)[0].packet.dest)
  {
    var x := At(qs, p)[0].packet;
    match Route(t, p.node, x.dest)
    case Some(h) =>
      var qs1 := Put(qs, Port(p.cls, h.to, h.into), Entry(arrival, x));
      if At(qs1, p) != [] then Take(qs1, p) else qs1
    case None => Take(qs, p)
  }

  /** The output the first packet of port p needs. */
  function Output(t: Topology, qs: Queues, p: Port): nat
    requires At(qs, p) != [] && On(t, p.node) && On(t, At(qs, p)[0].packet.dest)
  {
    var x := At(qs, p)[0].packet;
    match Route(t, p.node, x.dest)
    case Some(h) => h.out
    case None => x.port
  }

  function Leaves(t: Topology, qs: Queues, p: Port): multiset<Packet>
    requires At(qs, p) != [] && On(t, p.node) && On(t, At(qs, p)[0].packet.dest)
  {
    var x := At(qs, p)[0].packet;
    if Route(t, p.node, x.dest).None? then multiset{x} else multiset{}
  }

  predicate EnoughPorts(t: Topology, radix: nat) { if t.Mesh? then radix == 6 else radix >= 2 }

  lemma OutputInRange(t: Topology, radix: nat, due: nat, qs: Queues, p: Port)
    requires AllLegal(t, radix, due, qs) && At(qs, p) != [] && EnoughPorts(t, radix)
    ensures On(t, p.node) && p.cls < 3 && p.dir < radix && On(t, At(qs, p)[0].packet.dest) && Output(t, qs, p) < radix
  {
    assert Legal(t, radix, due, p, qs[p]);
  }

  lemma ForwardTotal(t: Topology, qs: Queues, p: Port, h: Hop, arrival: nat)
    requires At(qs, p) != [] && On(t, p.node) && On(t, At(qs, p)[0].packet.dest)
    requires Route(t, p.node, At(qs, p)[0].packet.dest) == Some(h)
    ensures Total(t, Moved(t, qs, p, arrival)).packets == Total(t, qs).packets
    ensures Total(t, Moved(t, qs, p, arrival)).hops == Total(t, qs).hops - 1
  {
    var x := At(qs, p)[0].packet;
    var p', e := Port(p.cls, h.to, h.into), Entry(arrival, x);
    HopShortens(t, p.node, x.dest);
    HopIsLink(t, p.node, x.dest);
    assert p' != p;
    var qs1 := Put(qs, p', e);
    assert At(qs1, p) == At(qs, p);
    PutAdds(t, qs, p', e);
    TakeRemoves(t, qs1, p);
    OneHopLess(One(t, h.to, x), One(t, p.node, x), Total(t, qs), Total(t, qs1), Total(t, Moved(t, qs, p, arrival)));
  }

  lemma OneHopLess(there: Sum, here: Sum, before: Sum, mid: Sum, after: Sum)
    requires there.packets == here.packets && there.hops == here.hops - 1
    requires mid == Plus(there, before) && mid == Plus(here, after)
    ensures after.packets == before.packets && after.hops == before.hops - 1
  {
    assert after.packets == mid.packets - here.packets;
    assert before.packets == mid.packets - there.packets;
  }

  /** A move takes one off the hops still to be made, and neither loses nor copies a packet. */
  lemma MoveTotal(t: Topology, qs: Queues, p: Port, arrival: nat)
    requires At(qs, p) != [] && On(t, p.node) && On(t, At(qs, p)[0].packet.dest)
    ensures Total(t, qs).hops > 0 && Total(t, Moved(t, qs, p, arrival)).hops == Total(t, qs).hops - 1
    ensures Total(t, Moved(t, qs, p, arrival)).packets + Leaves(t, qs, p) == Total(t, qs).packets
  {
    var x := At(qs, p)[0].packet;
    HopShortens(t, p.node, x.dest);
    if Route(t, p.node, x.dest).Some? {
      ForwardTotal(t, qs, p, Route(t, p.node, x.dest).value, arrival);
    } else {
      TakeRemoves(t, qs, p);
    }
  }

  lemma MoveLegal(t: Topology, radix: nat, due: nat, qs: Queues, p: Port, arrival: nat)
    requires AllLegal(t, radix, due, qs) && At(qs, p) != [] && EnoughPorts(t, radix)
    requires On(t, p.node) && On(t, At(qs, p)[0].packet.dest)
    ensures AllLegal(t, radix, Max(due, arrival), Moved(t, qs, p, arrival))
  {
    OutputInRange(t, radix, due, qs, p);
    var x := At(qs, p)[0].packet;
    var due' := Max(due, arrival);
    if Route(t, p.node, x.dest).Some? {
      var h := Route(t, p.node, x.dest).value;
      HopShortens(t, p.node, x.dest);
      assert x.port < radix by { assert Legal(t, radix, due, p, qs[p]); }
      PutLegal(t, radix, due, due', qs, Port(p.cls, h.to, h.into), Entry(arrival, x));
      var qs1 := Put(qs, Port(p.cls, h.to, h.into), Entry(arrival, x));
      if At(qs1, p) != [] { TakeLegal(t, radix, due', due', qs1, p); }
    } else {
      TakeLegal(t, radix, due, due', qs, p);
    }
  }

  // ---------------------------------------------------------------- the way of a packet

  /** What so many hops take. */
  function Lag(hop: nat, hops: nat): nat { hop * hops }

  lemma LagAdds(hop: nat, hops: nat)
    ensures Lag(hop, hops + 1) == Lag(hop, hops) + hop
  {
    assert hop * (hops + 1) == hop * hops + hop;
  }

  /** A queued packet is in a queue of the class it entered with, is not due before its hops so far could have been
      made, and does not go back where it came from. */
  ghost predicate OnTheWay(t: Topology, hop: nat, p: Port, e: Entry) {
    var start := e.packet.start;
    && start.port.cls == p.cls && On(t, p.node) && On(t, start.port.node) && On(t, e.packet.dest)
    && var whole, left := Distance(t, start.port.node, e.packet.dest), Distance(t, p.node, e.packet.dest);
    && left <= whole && e.time >= start.time + Lag(hop, whole - left)
    && var h := Route(t, p.node, e.packet.dest);
    h.Some? ==> h.value.out != p.dir
  }

  ghost predicate AllOnTheWay(t: Topology, hop: nat, qs: Queues) {
    forall p, k :: p in qs && 0 <= k < |qs[p]| ==> OnTheWay(t, hop, p, qs[p][k])
  }

  lemma FirstOnTheWay(t: Topology, hop: nat, qs: Queues, p: Port)
    requires AllOnTheWay(t, hop, qs) && p in qs && qs[p] != []
    ensures OnTheWay(t, hop, p, qs[p][0])
  {
  }

  /** A packet is handed over at its destination, with its class, and no earlier than its hops and the last step out
      of the network take. */
  ghost predicate Arrived(t: Topology, hop: nat, d: Delivery) {
    var start := d.packet.start;
    && !d.packet.dummy && d.cls == start.port.cls && d.node == d.packet.dest
    && On(t, start.port.node) && On(t, d.packet.dest)
    && d.time >= start.time + Lag(hop, Distance(t, start.port.node, d.packet.dest) + 1)
  }

  lemma MoveStaysOnTheWay(t: Topology, hop: nat, qs: Queues, p: Port, now: nat)
    requires AllOnTheWay(t, hop, qs) && HeadReady(qs, p, now) && On(t, p.node) && On(t, At(qs, p)[0].packet.dest)
    ensures AllOnTheWay(t, hop, Moved(t, qs, p, now + hop))
  {
    var x, e := At(qs, p)[0].packet, Entry(now + hop, At(qs, p)[0].packet);
    assert OnTheWay(t, hop, p, qs[p][0]);
    HopShortens(t, p.node, x.dest);
    if Route(t, p.node, x.dest).Some? {
      var h := Route(t, p.node, x.dest).value;
      var p' := Port(p.cls, h.to, h.into);
      NeverReverses(t, p.node, x.dest);
      LagAdds(hop, Distance(t, x.start.port.node, x.dest) - Distance(t, p.node, x.dest));
      assert OnTheWay(t, hop, p', e);
      PutStaysOnTheWay(t, hop, qs, p', e);
    }
  }

  lemma PutStaysOnTheWay(t: Topology, hop: nat, qs: Queues, p: Port, e: Entry)
    requires AllOnTheWay(t, hop, qs) && OnTheWay(t, hop, p, e)
    ensures AllOnTheWay(t, hop, Put(qs, p, e))
  {
    var r := Insert(Due, At(qs, p), e);
    InsertMembers(Due, At(qs, p), e);
    forall k | 0 <= k < |r| ensures OnTheWay(t, hop, p, r[k]) {
      assert r[k] in r;
    }
  }

  lemma HomeHasArrived(t: Topology, hop: nat, p: Port, e: Entry, now: nat)
    requires OnTheWay(t, hop, p, e) && e.time <= now && p.node == e.packet.dest && !e.packet.dummy
    ensures Arrived(t, hop, Delivery(now + hop, p.cls, p.node, e.packet))
  {
    HopShortens(t, p.node, e.packet.dest);
    LagAdds(hop, Distance(t, e.packet.start.port.node, e.packet.dest));
  }

  // ---------------------------------------------------------------- what is handed over

  /** The packets that were handed over. */
  ghost function Handed(ds: seq<Delivery>): multiset<Packet> {
    if ds == [] then multiset{} else Handed(ds[..|ds|-1]) + multiset{ds[|ds|-1].packet}
  }

  lemma HandedOneMore(ds: seq<Delivery>, d: Delivery)
    ensures Handed(ds + [d]) == Handed(ds) + multiset{d.packet}
  {
    assert (ds + [d])[..|ds|] == ds;
  }

  /** Everything that left was handed over, once for each time it left, but for the dummies. */
  ghost predicate HandedOver(ds: seq<Delivery>, gone: multiset<Packet>) {
    forall x: Packet :: Handed(ds)[x] == if x.dummy then 0 else gone[x]
  }

  /** What is handed over from now on. */
  ghost predicate Since(before: seq<Delivery>, after: seq<Delivery>, time: nat) {
    && |before| <= |after| && after[..|before|] == before
    && forall k :: |before| <= k < |after| ==> after[k].time == time
  }

  lemma SinceThen(a: seq<Delivery>, b: seq<Delivery>, c: seq<Delivery>, time: nat)
    requires Since(a, b, time) && Since(b, c, time)
    ensures Since(a, c, time)
  {
    assert c[..|a|] == c[..|b|][..|a|];
  }

  // ---------------------------------------------------------------- the moves of a call

  /** One packet has moved, by one output. */
  datatype Move = Move(port: Port, out: nat, packet: Packet)

  ghost predicate Uses(made: seq<Move>, n: Node, out: nat) {
    exists k :: 0 <= k < |made| && made[k].port.node == n && made[k].out == out
  }

  /** No output of a router is used twice. */
  ghost predicate OnceEach(made: seq<Move>) {
    forall i, j :: 0 <= i < j < |made| ==> !(made[i].port.node == made[j].port.node && made[i].out == made[j].out)
  }

  ghost predicate NoneAt(made: seq<Move>, n: Node) {
    forall k :: 0 <= k < |made| ==> made[k].port.node != n
  }

  /** The marks of a router are the outputs it has used. */
  ghost predicate Marked(made: seq<Move>, n: Node, sent: seq<bool>) {
    forall out :: 0 <= out < |sent| ==> (sent[out] <==> Uses(made, n, out))
  }

  lemma MarkOne(made: seq<Move>, n: Node, sent: seq<bool>, m: Move)
    requires OnceEach(made) && Marked(made, n, sent) && m.port.node == n && m.out < |sent| && !sent[m.out]
    ensures OnceEach(made + [m]) && Marked(made + [m], n, sent[m.out := true])
    ensures forall a :: a != n && NoneAt(made, a) ==> NoneAt(made + [m], a)
  {
    var made' := made + [m];
    assert !Uses(made, n, m.out);
    forall out | 0 <= out < |sent| ensures sent[m.out := true][out] <==> Uses(made', n, out) {
      if Uses(made, n, out) {
        var k :| 0 <= k < |made| && made[k].port.node == n && made[k].out == out;
        assert made'[k] == made[k];
      }
      if out == m.out { assert made'[|made|] == m; }
    }
  }

  ghost predicate HasMoved(made: seq<Move>, p: Port, x: Packet) {
    exists k :: 0 <= k < |made| && made[k].port == p && made[k].packet == x
  }

  lemma MovedBefore(made: seq<Move>, made': seq<Move>, p: Port, x: Packet)
    requires made <= made' && HasMoved(made, p, x)
    ensures HasMoved(made', p, x)
  {
    var k :| 0 <= k < |made| && made[k].port == p && made[k].packet == x;
    assert made'[k] == made[k];
  }

  /** The first packet of a queue, if it is due, is still the first, or has moved. */
  ghost predicate FirstOrMoved(before: Queues, after: Queues, made: seq<Move>, p: Port, now: nat) {
    HeadReady(before, p, now) ==>
      || (HeadReady(after, p, now) && At(after, p)[0] == At(before, p)[0])
      || HasMoved(made, p, At(before, p)[0].packet)
  }

  ghost predicate InTurn(before: Queues, after: Queues, made: seq<Move>, now: nat) {
    forall p: Port :: FirstOrMoved(before, after, made, p, now)
  }

  lemma InTurnThen(a: Queues, b: Queues, c: Queues, made: seq<Move>, made': seq<Move>, now: nat)
    requires InTurn(a, b, made, now) && InTurn(b, c, made', now) && made <= made'
    ensures InTurn(a, c, made', now)
  {
    forall p: Port ensures FirstOrMoved(a, c, made', p, now) {
      assert FirstOrMoved(a, b, made, p, now) && FirstOrMoved(b, c, made', p, now);
      if HeadReady(a, p, now) && HasMoved(made, p, At(a, p)[0].packet) {
        MovedBefore(made, made', p, At(a, p)[0].packet);
      }
    }
  }

  /** An arrival goes behind what is due. */
  lemma MoveInTurn(t: Topology, qs: Queues, p: Port, now: nat, hop: nat, made: seq<Move>, out: nat)
    requires HeadReady(qs, p, now) && On(t, p.node) && On(t, At(qs, p)[0].packet.dest)
    ensures InTurn(qs, Moved(t, qs, p, now + hop), made + [Move(p, out, At(qs, p)[0].packet)], now)
  {
    var x := At(qs, p)[0].packet;
    var made' := made + [Move(p, out, x)];
    assert HasMoved(made', p, x) by { assert made'[|made|] == Move(p, out, x); }
    HopShortens(t, p.node, x.dest);
    if Route(t, p.node, x.dest).Some? {
      HopIsLink(t, p.node, x.dest);
    }
  }

  /** The first reply of the queue that has the token, if it is due, has moved. */
  ghost predicate TokenServed(before: Queues, made: seq<Move>, n: Node, token: nat, now: nat) {
    HeadReady(before, Port(0, n, token), now) ==>
      HasMoved(made, Port(0, n, token), At(before, Port(0, n, token))[0].packet)
  }

  lemma TokensStay(before: Queues, made: seq<Move>, made': seq<Move>, token: nat, now: nat)
    requires made <= made'
    ensures forall n :: TokenServed(before, made, n, token, now) ==> TokenServed(before, made', n, token, now)
  {
    forall n | TokenServed(before, made, n, token, now) ensures TokenServed(before, made', n, token, now) {
      var p := Port(0, n, token);
      if HeadReady(before, p, now) { MovedBefore(made, made', p, At(before, p)[0].packet); }
    }
  }

  lemma TokenServedBefore(before: Queues, between: Queues, made: seq<Move>, made': seq<Move>, n: Node, token: nat,
                          now: nat)
    requires InTurn(before, between, made, now) && made <= made' && TokenServed(between, made', n, token, now)
    ensures TokenServed(before, made', n, token, now)
  {
    var p := Port(0, n, token);
    assert FirstOrMoved(before, between, made, p, now);
    if HeadReady(before, p, now) && HasMoved(made, p, At(before, p)[0].packet) {
      MovedBefore(made, made', p, At(before, p)[0].packet);
    }
  }

  // ---------------------------------------------------------------- the network

  /** The books: what is queued is what is counted, and with what has left it is all that came. */
  ghost predicate Balanced(all: Sum, count: int, injected: multiset<Packet>, gone: multiset<Packet>) {
    count == |all.packets| && injected == all.packets + gone
  }

  lemma OneIn(before: Sum, after: Sum, x: Packet, count: int, injected: multiset<Packet>, gone: multiset<Packet>)
    requires Balanced(before, count, injected, gone) && after.packets == multiset{x} + before.packets
    ensures Balanced(after, count + 1, injected + multiset{x}, gone)
  {
  }

  lemma OneOut(before: Sum, after: Sum, x: Packet, count: int, injected: multiset<Packet>, gone: multiset<Packet>)
    requires Balanced(before, count, injected, gone) && after.packets + multiset{x} == before.packets
    ensures Balanced(after, count - 1, injected, gone + multiset{x})
  {
    assert |before.packets| == |after.packets| + 1;
    assert injected == after.packets + (gone + multiset{x});
  }

  /** Counting from the token visits each queue of a router once: queue d in turn `Turn(d)`. */
  lemma Turned(token: nat, radix: nat, k: nat)
    requires token < radix && k < radix
    ensures
      var d := (k + token) % radix;
      Turn(token, radix, d) == k && forall e :: 0 <= e < radix && Turn(token, radix, e) == k ==> e == d
  {
    SmallRemainder(k + token, radix);
  }

  function Turn(token: nat, radix: nat, d: nat): nat
    requires token < radix && d < radix
  {
    if token <= d then d - token else radix - token + d
  }

  /** The books of the network, as values: what is queued, how many, the hops these have to make, the latest
      due time, what came and what left. */
  datatype Books = Books(qs: Queues, count: int, hops: int, due: nat,
                         injected: multiset<Packet>, gone: multiset<Packet>, delivered: seq<Delivery>)

  ghost predicate Kept(t: Topology, radix: nat, hop: nat, b: Books) {
    && AllLegal(t, radix, b.due, b.qs) && Balanced(Total(t, b.qs), b.count, b.injected, b.gone)
    && b.hops == Total(t, b.qs).hops
    && AllOnTheWay(t, hop, b.qs)
    && AllArrived(t, hop, b.delivered) && HandedOver(b.delivered, b.gone)
  }

  ghost predicate AllArrived(t: Topology, hop: nat, ds: seq<Delivery>) {
    forall k :: 0 <= k < |ds| ==> Arrived(t, hop, ds[k])
  }

  ghost function AfterMove(t: Topology, hop: nat, b: Books, p: Port, now: nat): Books
    requires At(b.qs, p) != [] && On(t, p.node) && On(t, At(b.qs, p)[0].packet.dest)
  {
    var x := At(b.qs, p)[0].packet;
    var b' := b.(qs := Moved(t, b.qs, p, now + hop), hops := b.hops - 1, due := Max(b.due, now + hop));
    if p.node != x.dest then b'
    else b'.(count := b.count - 1, gone := b.gone + multiset{x},
             delivered := b.delivered + if x.dummy then [] else [Delivery(now + hop, p.cls, p.node, x)])
  }

  lemma OneHandedOver(ds: seq<Delivery>, gone: multiset<Packet>, d: Delivery)
    requires HandedOver(ds, gone)
    ensures d.packet.dummy ==> HandedOver(ds, gone + multiset{d.packet})
    ensures !d.packet.dummy ==> HandedOver(ds + [d], gone + multiset{d.packet})
  {
    HandedOneMore(ds, d);
  }

  lemma MoveKeepsBooks(t: Topology, radix: nat, hop: nat, b: Books, p: Port, now: nat)
    requires Kept(t, radix, hop, b) && EnoughPorts(t, radix) && HeadReady(b.qs, p, now)
    requires On(t, p.node) && On(t, At(b.qs, p)[0].packet.dest)
    ensures Kept(t, radix, hop, AfterMove(t, hop, b, p, now))
  {
    hide Moved, AllLegal, AllOnTheWay, Total, HandedOver, Arrived, Distance, Route, On;
    var x := At(b.qs, p)[0].packet;
    HopShortens(t, p.node, x.dest);
    MoveTotal(t, b.qs, p, now + hop);
    MoveLegal(t, radix, b.due, b.qs, p, now + hop);
    MoveStaysOnTheWay(t, hop, b.qs, p, now);
    if p.node == x.dest {
      OneOut(Total(t, b.qs), Total(t, Moved(t, b.qs, p, now + hop)), x, b.count, b.injected, b.gone);
      OneHandedOver(b.delivered, b.gone, Delivery(now + hop, p.cls, p.node, x));
      if x.dummy {
        assert b.delivered + [] == b.delivered;
      } else {
        FirstOnTheWay(t, hop, b.qs, p);
        HomeHasArrived(t, hop, p, b.qs[p][0], now);
      }
    }
  }

  lemma EntersOnTheWay(t: Topology, hop: nat, p: Port, e: Entry)
    requires On(t, p.node) && On(t, e.packet.dest) && Sides(t) <= p.dir && e.packet.start == Start(p, e.time)
    ensures OnTheWay(t, hop, p, e)
  {
    if p.node != e.packet.dest { HopIsSided(t, p.node, e.packet.dest); }
  }

  ghost function AfterPut(t: Topology, b: Books, p: Port, e: Entry): Books {
    b.(qs := Put(b.qs, p, e), count := b.count + 1, hops := b.hops + One(t, p.node, e.packet).hops,
       due := Max(b.due, e.time), injected := b.injected + multiset{e.packet})
  }

  lemma PutKeepsBooks(t: Topology, radix: nat, hop: nat, b: Books, p: Port, e: Entry)
    requires Kept(t, radix, hop, b) && p.cls < 3 && On(t, p.node) && p.dir < radix && On(t, e.packet.dest)
    requires Sides(t) <= p.dir && e.packet.port < radix && e.packet.start == Start(p, e.time)
    ensures Kept(t, radix, hop, AfterPut(t, b, p, e))
  {
    hide AllLegal, Total, HandedOver, Arrived, Balanced, AllOnTheWay;
    PutAdds(t, b.qs, p, e);
    PutLegal(t, radix, b.due, Max(b.due, e.time), b.qs, p, e);
    OneIn(Total(t, b.qs), Total(t, Put(b.qs, p, e)), e.packet, b.count, b.injected, b.gone);
    EntersOnTheWay(t, hop, p, e);
    PutStaysOnTheWay(t, hop, b.qs, p, e);
  }

  method Aligned(time: nat, interval: nat) returns (at: nat)
    requires interval > 0
    ensures at == AlignUp(time, interval)
  {
    at := time;
    if at % interval != 0 {
      at := at + interval - at % interval;
    }
  }

  ghost predicate SomeReady(qs: Queues, now: nat) {
    exists p: Port :: HeadReady(qs, p, now)
  }

  ghost predicate Free(sent: seq<bool>) {
    forall d :: 0 <= d < |sent| ==> !sent[d]
  }

  class Net {
    const t: Topology
    const radix: nat        // queues and outputs of a router
    const hop: nat          // sw_to_sw_t
    const interval: nat

    var qs: Queues
    var count: int          // num_req_in_mesh, num_req_in_ring
    var token: nat
    var sent: seq<bool>     // already_sent, for the router at hand
    var delivered: seq<Delivery>

    /** All packets ever injected, and those that have left. */
    ghost var injected: multiset<Packet>
    ghost var gone: multiset<Packet>
    /** The moves of the present or the last call. */
    ghost var made: seq<Move>
    /** The hops still to be made in all, and a time after which nothing is due. */
    ghost var hops: int
    ghost var due: nat

    ghost predicate Valid()
      reads this`qs, this`count, this`hops, this`due, this`injected, this`gone, this`delivered,
            this`token, this`sent
    {
      && EnoughPorts(t, radix) && interval > 0 && token < radix && |sent| == radix
      && Kept(t, radix, hop, Ledger())
    }

    constructor (t: Topology, radix: nat, hop: nat, interval: nat)
      requires EnoughPorts(t, radix) && interval > 0
      ensures Valid() && qs == map[] && count == 0 && injected == multiset{} && delivered == []
    {
      this.t, this.radix, this.hop, this.interval := t, radix, hop, interval;
      qs, count, token, sent, delivered := map[], 0, 0, seq(radix, _ => false), [];
      injected, gone, due, hops, made := multiset{}, multiset{}, 0, 0, [];
    }

    /** Where a component can put a message: a local queue of a router. */
    predicate Local(p: Port) { p.cls < 3 && On(t, p.node) && Sides(t) <= p.dir < radix }

    /** A message as it enters. */
    function Entering(time: nat, p: Port, x: Packet): Packet
      requires interval > 0
    {
      x.(start := Start(p, AlignUp(time, interval)))
    }

    /** A message enters at its router. */
    method AddEvent(time: nat, p: Port, x: Packet)
      requires Valid() && Local(p) && On(t, x.dest) && x.port < radix
      modifies this`qs, this`count, this`injected, this`due, this`hops
      ensures Valid() && qs == Put(old(qs), p, Entry(AlignUp(time, interval), Entering(time, p, x)))
      ensures count == old(count) + 1 && injected == old(injected) + multiset{Entering(time, p, x)}
    {
      var at := Aligned(time, interval);
      var e := Entry(at, x.(start := Start(p, at)));
      PutKeepsBooks(t, radix, hop, Ledger(), p, e);
      Enter(p, e);
    }

    method Enter(p: Port, e: Entry)
      modifies this`qs, this`count, this`injected, this`due, this`hops
      ensures Ledger() == AfterPut(t, old(Ledger()), p, e)
    {
      qs, count := Put(qs, p, e), count + 1;
      injected, due, hops := injected + multiset{e.packet}, Max(due, e.time), hops + One(t, p.node, e.packet).hops;
    }

    /** A message of several flits: all but the last are dummies. */
    method AddFlits(time: nat, p: Port, x: Packet, flits: nat)
      requires Valid() && Local(p) && On(t, x.dest) && x.port < radix && flits >= 1
      modifies this`qs, this`count, this`injected, this`due, this`hops
      ensures Valid() && count == old(count) + flits
      ensures
        var whole := Entering(time, p, x);
        injected == old(injected) + multiset{whole} + multiset{}[whole.(dummy := true) := flits - 1]
    {
      hide Kept;
      ghost var flit := Entering(time, p, x).(dummy := true);
      for i := 0 to flits - 1
        invariant Valid() && count == old(count) + i
        invariant injected == old(injected) + multiset{}[flit := i]
      {
        AddEvent(time, p, x.(dummy := true));
      }
      AddEvent(time, p, x);
    }

    ghost function Ledger(): Books
      reads this`qs, this`count, this`hops, this`due, this`injected, this`gone, this`delivered
    {
      Books(qs, count, hops, due, injected, gone, delivered)
    }

    /** Moves the first packet of a queue. */
    method MoveFirst(p: Port, now: nat)
      requires At(qs, p) != [] && On(t, p.node) && On(t, At(qs, p)[0].packet.dest)
      modifies this`qs, this`count, this`delivered, this`gone, this`due, this`hops
      ensures Ledger() == AfterMove(t, hop, old(Ledger()), p, now)
    {
      var x := At(qs, p)[0].packet;
      HopShortens(t, p.node, x.dest);
      if Route(t, p.node, x.dest).None? { Deliver(p, x, now); }
      qs := Moved(t, qs, p, now + hop);
      due, hops := Max(due, now + hop), hops - 1;
    }

    method Advance(p: Port, now: nat)
      requires Kept(t, radix, hop, Ledger()) && EnoughPorts(t, radix)
      requires HeadReady(qs, p, now) && On(t, p.node) && On(t, At(qs, p)[0].packet.dest)
      modifies this`qs, this`count, this`delivered, this`gone, this`due, this`hops
      ensures Kept(t, radix, hop, Ledger()) && Since(old(delivered), delivered, now + hop)
      ensures hops == old(hops) - 1 && due == Max(old(due), now + hop) && qs == Moved(t, old(qs), p, now + hop)
    {
      hide Moved, Kept, On, Route;
      MoveKeepsBooks(t, radix, hop, Ledger(), p, now);
      MoveFirst(p, now);
    }

    /** A packet that is at home leaves; dummies are dropped. */
    method Deliver(p: Port, x: Packet, now: nat)
      modifies this`count, this`delivered, this`gone
      ensures count == old(count) - 1 && gone == old(gone) + multiset{x}
      ensures delivered == old(delivered) + if x.dummy then [] else [Delivery(now + hop, p.cls, p.node, x)]
    {
      if !x.dummy { delivered := delivered + [Delivery(now + hop, p.cls, p.node, x)]; }
      count := count - 1;
      gone := gone + multiset{x};
    }

    /** What a visit to some queues must keep, and what it may assume afterwards. */
    twostate predicate Progress(moves: nat, now: nat)
      reads this
    {
      && Valid() && hops + moves == old(hops)
      && due <= Max(old(due), now + hop) && token == old(token) && injected == old(injected)
      && Since(old(delivered), delivered, now + hop)
      && (moves == 0 ==> Ledger() == old(Ledger()))
      && (moves > 0 ==> SomeReady(old(qs), now))
    }

    /** How a visit to the router at n adds to the moves of the call. */
    twostate predicate Turns(n: Node, now: nat)
      reads this
    {
      && old(made) <= made && InTurn(old(qs), qs, made, now)
      && OnceEach(made) && Marked(made, n, sent)
      && forall a :: a != n && NoneAt(old(made), a) ==> NoneAt(made, a)
    }

    ghost predicate Quiet(cls: nat, node: Node, now: nat)
      reads this`qs
    {
      forall d :: 0 <= d < radix ==> !HeadReady(qs, Port(cls, node, d), now)
    }

    /** Lets one queue of one router move its first packet, if that is due and its output is free. */
    method ProcessQueue(p: Port, now: nat) returns (moves: nat)
      requires Valid() && OnceEach(made) && Marked(made, p.node, sent)
      modifies this`qs, this`count, this`sent, this`delivered, this`gone, this`due, this`hops, this`made
      ensures Progress(moves, now) && Turns(p.node, now)
      ensures moves == 0 ==> sent == old(sent) && (Free(sent) ==> !HeadReady(qs, p, now))
      ensures Leads(old(qs), made, p, old(sent), now)
    {
      hide Kept, InTurn, Moved, OnceEach, Marked, NoneAt, Route, On;
      if At(qs, p) == [] || At(qs, p)[0].time > now {
        StayInTurn(now);
        return 0;
      }
      RangeOf(p);
      var out := Output(t, qs, p);
      if sent[out] {
        StayInTurn(now);
        return 0;
      }
      assert SomeReady(qs, now) by { assert HeadReady(qs, p, now); }
      ghost var m := Move(p, out, At(qs, p)[0].packet);
      MarkOne(made, p.node, sent, m);
      MoveInTurn(t, qs, p, now, hop, made, out);
      made := made + [m];
      assert HasMoved(made, p, m.packet) by { assert made[|made|-1] == m; }
      sent := sent[out := true];
      Advance(p, now);
      return 1;
    }

    lemma RangeOf(p: Port)
      requires Valid() && At(qs, p) != []
      ensures On(t, p.node) && On(t, At(qs, p)[0].packet.dest) && Output(t, qs, p) < radix
    {
      hide AllOnTheWay, AllArrived, HandedOver, Balanced, Total;
      OutputInRange(t, radix, due, qs, p);
    }

    lemma StayInTurn(now: nat)
      ensures InTurn(qs, qs, made, now) && Since(delivered, delivered, now + hop)
    {
    }

    /** One class of queues of one router, starting at the token. */
    method ProcessClass(cls: nat, node: Node, now: nat) returns (moves: nat)
      requires Valid() && OnceEach(made) && Marked(made, node, sent)
      modifies this`qs, this`count, this`sent, this`delivered, this`gone, this`due, this`hops, this`made
      ensures Progress(moves, now) && Turns(node, now)
      ensures moves == 0 ==> sent == old(sent) && (Free(sent) ==> Quiet(cls, node, now))
      ensures Leads(old(qs), made, Port(cls, node, token), old(sent), now)
    {
      hide Kept, SomeReady, InTurn, OnceEach, Marked, NoneAt, Since, HasMoved;
      moves := 0;
      ghost var lead := made;
      StayInTurn(now);
      for k := 0 to radix
        invariant Progress(moves, now) && Turns(node, now)
        invariant (k == 0 ==> moves == 0) && (moves == 0 ==> sent == old(sent))
        invariant moves == 0 && Free(sent) ==>
          forall d :: 0 <= d < radix && Turn(token, radix, d) < k ==> !HeadReady(qs, Port(cls, node, d), now)
        invariant k > 0 ==> lead <= made && Leads(old(qs), lead, Port(cls, node, token), old(sent), now)
      {
        Turned(token, radix, k);
        assert Turn(token, radix, token) == 0;
        ghost var ds, qs1, made1 := delivered, qs, made;
        var m := ProcessQueue(Port(cls, node, (k + token) % radix), now);
        if k == 0 { lead := made; }
        SinceThen(old(delivered), ds, delivered, now + hop);
        InTurnThen(old(qs), qs1, qs, made1, made, now);
        moves := moves + m;
      }
      LeadsStill(old(qs), lead, made, Port(cls, node, token), old(sent), now);
    }

    /** With all outputs free, the first packet of queue p moves if it is due. */
    ghost predicate Leads(before: Queues, made: seq<Move>, p: Port, sent: seq<bool>, now: nat) {
      HeadReady(before, p, now) && Free(sent) ==> HasMoved(made, p, At(before, p)[0].packet)
    }

    lemma LeadsStill(before: Queues, made: seq<Move>, made': seq<Move>, p: Port, sent: seq<bool>, now: nat)
      requires Leads(before, made, p, sent, now) && made <= made'
      ensures Leads(before, made', p, sent, now)
    {
      if HeadReady(before, p, now) && Free(sent) { MovedBefore(made, made', p, At(before, p)[0].packet); }
    }

    /** One router: replies first, then coherence requests, then requests. */
    method ProcessRouter(node: Node, now: nat) returns (moves: nat)
      requires Valid() && OnceEach(made) && NoneAt(made, node)
      modifies this`qs, this`count, this`sent, this`delivered, this`gone, this`due, this`hops, this`made
      ensures Progress(moves, now) && Turns(node, now)
      ensures moves == 0 ==> Quiet(0, node, now) && Quiet(1, node, now) && Quiet(2, node, now)
      ensures TokenServed(old(qs), made, node, token, now)
    {
      hide Kept, SomeReady, Net.Quiet, InTurn, OnceEach, Since, HasMoved;
      sent := seq(radix, _ => false);
      assert Marked(made, node, sent);
      var replies := ProcessClass(0, node, now);
      ghost var ds1, qs1, made1 := delivered, qs, made;
      var coherence := ProcessClass(1, node, now);
      ghost var ds2, qs2, made2 := delivered, qs, made;
      var requests := ProcessClass(2, node, now);
      SinceThen(old(delivered), ds1, ds2, now + hop);
      SinceThen(old(delivered), ds2, delivered, now + hop);
      InTurnThen(old(qs), qs1, qs2, made1, made2, now);
      InTurnThen(old(qs), qs2, qs, made2, made, now);
      LeadsStill(old(qs), made1, made, Port(0, node, token), seq(radix, _ => false), now);
      moves := replies + coherence + requests;
    }

    ghost predicate RouterQuiet(node: Node, now: nat)
      reads this`qs
    {
      Quiet(0, node, now) && Quiet(1, node, now) && Quiet(2, node, now)
    }

    method ProcessRow(i: nat, now: nat) returns (moves: nat)
      requires Valid() && OnceEach(made) && forall j :: 0 <= j < Cols(t) ==> NoneAt(made, Node(i, j))
      modifies this`qs, this`count, this`sent, this`delivered, this`gone, this`due, this`hops, this`made
      ensures Progress(moves, now)
      ensures old(made) <= made && InTurn(old(qs), qs, made, now) && OnceEach(made)
      ensures forall a: Node :: a.row != i && NoneAt(old(made), a) ==> NoneAt(made, a)
      ensures moves == 0 ==> forall j :: 0 <= j < Cols(t) ==> RouterQuiet(Node(i, j), now)
      ensures forall j :: 0 <= j < Cols(t) ==> TokenServed(old(qs), made, Node(i, j), token, now)
    {
      hide Kept, Net.Quiet, SomeReady, InTurn, OnceEach, Marked, NoneAt, Since, TokenServed;
      moves := 0;
      StayInTurn(now);
      for j := 0 to Cols(t)
        invariant Progress(moves, now)
        invariant old(made) <= made && InTurn(old(qs), qs, made, now) && OnceEach(made)
        invariant forall a: Node :: a.row != i && NoneAt(old(made), a) ==> NoneAt(made, a)
        invariant forall j' :: j <= j' < Cols(t) ==> NoneAt(made, Node(i, j'))
        invariant moves == 0 ==> forall j' :: 0 <= j' < j ==> RouterQuiet(Node(i, j'), now)
        invariant forall j' :: 0 <= j' < j ==> TokenServed(old(qs), made, Node(i, j'), token, now)
      {
        ghost var ds, qs1, made1 := delivered, qs, made;
        var m := ProcessRouter(Node(i, j), now);
        SinceThen(old(delivered), ds, delivered, now + hop);
        TokensStay(old(qs), made1, made, token, now);
        TokenServedBefore(old(qs), qs1, made1, made, Node(i, j), token, now);
        InTurnThen(old(qs), qs1, qs, made1, made, now);
        moves := moves + m;
      }
    }

    method ProcessRouters(now: nat) returns (moves: nat)
      requires Valid() && made == []
      modifies this`qs, this`count, this`sent, this`delivered, this`gone, this`due, this`hops, this`made
      ensures Progress(moves, now) && OnceEach(made) && InTurn(old(qs), qs, made, now)
      ensures moves == 0 ==> forall i, j :: 0 <= i < Rows(t) && 0 <= j < Cols(t) ==> RouterQuiet(Node(i, j), now)
      ensures forall n :: On(t, n) ==> TokenServed(old(qs), made, n, token, now)
    {
      hide Kept, Net.Quiet, SomeReady, Net.RouterQuiet, InTurn, Marked, Since, TokenServed;
      moves := 0;
      StayInTurn(now);
      for i := 0 to Rows(t)
        invariant Progress(moves, now)
        invariant InTurn(old(qs), qs, made, now) && OnceEach(made)
        invariant forall a: Node :: i <= a.row ==> NoneAt(made, a)
        invariant moves == 0 ==> forall i', j :: 0 <= i' < i && 0 <= j < Cols(t) ==> RouterQuiet(Node(i', j), now)
        invariant forall n: Node :: n.row < i && n.col < Cols(t) ==> TokenServed(old(qs), made, n, token, now)
      {
        ghost var ds, qs1, made1 := delivered, qs, made;
        var m := ProcessRow(i, now);
        SinceThen(old(delivered), ds, delivered, now + hop);
        TokensStay(old(qs), made1, made, token, now);
        forall j | 0 <= j < Cols(t) ensures TokenServed(old(qs), made, Node(i, j), token, now) {
          TokenServedBefore(old(qs), qs1, made1, made, Node(i, j), token, now);
        }
        InTurnThen(old(qs), qs1, qs, made1, made, now);
        moves := moves + m;
      }
    }

    lemma AllQuiet(now: nat)
      requires Valid()
      requires forall i, j :: 0 <= i < Rows(t) && 0 <= j < Cols(t) ==> RouterQuiet(Node(i, j), now)
      ensures !SomeReady(qs, now)
    {
      hide AllOnTheWay, AllArrived, HandedOver, Balanced, Total;
      forall p: Port ensures !HeadReady(qs, p, now) {
        if At(qs, p) != [] {
          OutputInRange(t, radix, due, qs, p);
          assert RouterQuiet(Node(p.node.row, p.node.col), now);
          assert p == Port(p.cls, p.node, p.dir);
        }
      }
    }

    /** One call: every move takes one off the hops still to be made, and something moves exactly if some
        packet is due.  What is handed over is seen one hop later.  The network asks to be called again while
        it holds packets. */
    method ProcessEvent(now: nat) returns (moves: nat, again: bool)
      requires Valid()
      modifies this`qs, this`count, this`sent, this`delivered, this`gone, this`due, this`hops, this`token, this`made
      ensures Valid() && injected == old(injected)
      ensures OnceEach(made) && InTurn(old(qs), qs, made, now)
      ensures forall n :: On(t, n) ==> TokenServed(old(qs), made, n, old(token), now)
      ensures hops + moves == old(hops)
      ensures moves > 0 <==> SomeReady(old(qs), now)
      ensures moves == 0 ==> Ledger() == old(Ledger())
      ensures due <= Max(old(due), now + hop) && Since(old(delivered), delivered, now + hop)
      ensures again == (count > 0) && token == (old(token) + 1) % radix
    {
      hide Kept, SomeReady, Since, InTurn, TokenServed;
      made := [];
      moves := ProcessRouters(now);
      if moves == 0 { AllQuiet(now); }
      again := count > 0;
      token := (token + 1) % radix;
    }

    /** Once everything is due, a network that holds a packet has one that can move. */
    lemma EverythingDue(now: nat)
      requires Valid() && count > 0 && due <= now
      ensures SomeReady(qs, now)
    {
      var p := SomewhereQueued(t, qs);
      assert Legal(t, radix, due, p, qs[p]);
      assert HeadReady(qs, p, now);
    }

    lemma NothingNegative()
      requires Valid()
      ensures hops >= 0 && count >= 0
    {
    }

    /** Once nothing is counted, everything that came has left and, unless it is a dummy, was handed over. */
    lemma AllHandedOver()
      requires Valid() && count == 0
      ensures gone == injected
      ensures forall x: Packet :: Handed(delivered)[x] == if x.dummy then 0 else injected[x]
    {
      hide AllOnTheWay, AllArrived, AllLegal;
      assert Total(t, qs).packets == multiset{};
    }

    /** The calls the event kernel makes when nothing new enters: they come to an end, and then every packet
        that ever entered has left.  `span` calls reach the time at which everything is due. */
    method Drain(start: nat, span: nat) returns (end: nat)
      requires Valid() && due <= start + span * interval && hop <= span * interval
      modifies this`qs, this`count, this`sent, this`delivered, this`gone, this`due, this`hops, this`token,
               this`made
      ensures Valid() && count == 0 && gone == injected == old(injected)
      ensures forall x: Packet :: Handed(delivered)[x] == if x.dummy then 0 else old(injected)[x]
    {
      hide Kept, SomeReady, Since, HandedOver, InTurn, OnceEach, TokenServed;
      end := start;
      NothingNegative();
      ghost var left: nat := span;      // calls without a move before something must move
      while count > 0
        invariant Valid() && injected == old(injected) && hops >= 0 && count >= 0
        invariant left <= span && due <= end + left * interval
        decreases hops, left
      {
        if left == 0 { EverythingDue(end); }
        ghost var before := due;
        var moves, again := ProcessEvent(end);
        NothingNegative();
        NextBound(before, due, end, left, span, interval, hop, moves > 0);
        left := if moves > 0 then span else left - 1;
        end := end + interval;
      }
      AllHandedOver();
    }
  }

  /** A call moves the clock on by one interval, and what a move makes due is at most one hop away. */
  lemma NextBound(before: nat, due: nat, now: nat, left: nat, span: nat, interval: nat, hop: nat, moved: bool)
    requires before <= now + left * interval && left <= span && hop <= span * interval
    requires due <= Max(before, now + hop) && (!moved ==> due == before && left > 0)
    ensures due <= now + interval + (if moved then span else left - 1) * interval
  {
    Scaled(left, span, interval);
    if !moved { assert left * interval == (left - 1) * interval + interval; }
  }

  lemma Scaled(a: nat, b: nat, k: nat)
    requires a <= b
    ensures a * k <= b * k
  {
    assert (b - a) * k >= 0;
  }
}
