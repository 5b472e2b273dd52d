/** The queues of all routers of a network, and what they hold in sum. */
module PacketQueues {
  import opened Multimaps
  import opened Routing

  /** One queue: of replies, coherence requests or requests, at one input of one router. */
  datatype Port = Port(cls: nat, node: Node, dir: nat)

  /** Where and when a packet enters the network. */
  datatype Start = Start(port: Port, time: nat)

  /** Dummies are the extra flits of a long message. */
  datatype Packet = Packet(id: nat, dest: Node, port: nat, dummy: bool, start: Start)

  datatype Entry = Entry(time: nat, packet: Packet)

  /** What a router hands over to a component beside it, at the time at which that is to see it. */
  datatype Delivery = Delivery(time: nat, cls: nat, node: Node, packet: Packet)

  type Queues = map<Port, seq<Entry>>

  function At(qs: Queues, p: Port): seq<Entry> { if p in qs then qs[p] else [] }

  /** Each queue is ordered by the time at which its packets are due. */
  function Due(e: Entry): nat { e.time }

  // ---------------------------------------------------------------- what is held in sum

  /** The packets, and the hops they still have to make, delivery counted as one. */
  datatype Sum = Sum(packets: multiset<Packet>, hops: nat)

  const ZERO := Sum(multiset{}, 0)

  function Plus(a: Sum, b: Sum): Sum { Sum(a.packets + b.packets, a.hops + b.hops) }

  ghost function One(t: Topology, n: Node, x: Packet): Sum {
    Sum(multiset{x}, 1 + if On(t, n) && On(t, x.dest) then Distance(t, n, x.dest) else 0)
  }

  ghost function Held(t: Topology, n: Node, q: seq<Entry>): Sum {
    if q == [] then ZERO else Plus(One(t, n, q[0].packet), Held(t, n, q[1..]))
  }

  ghost function Total(t: Topology, qs: Queues): Sum {
    if qs == map[] then ZERO else Plus(Held(t, Any(qs).node, qs[Any(qs)]), Total(t, qs - {Any(qs)}))
  }

  ghost function Any(qs: Queues): (p: Port)
    requires qs != map[]
    ensures p in qs
  {
    var p :| p in qs; p
  }

  lemma PlusZero(a: Sum)
    ensures Plus(ZERO, a) == a
  {
    assert multiset{} + a.packets == a.packets;
  }

  lemma PlusSwap(a: Sum, b: Sum, c: Sum)
    ensures Plus(a, Plus(b, c)) == Plus(b, Plus(a, c))
    ensures Plus(a, Plus(b, c)) == Plus(Plus(a, b), c)
  {
  }

  lemma {:induction false} HeldInsert(t: Topology, n: Node, q: seq<Entry>, e: Entry)
    ensures Held(t, n, Insert(Due, q, e)) == Plus(One(t, n, e.packet), Held(t, n, q))
  {
    var r := Insert(Due, q, e);
    if q == [] || e.time < q[0].time {
      assert r[1..] == q;
    } else {
      assert r[1..] == Insert(Due, q[1..], e);
      HeldInsert(t, n, q[1..], e);
      PlusSwap(One(t, n, q[0].packet), One(t, n, e.packet), Held(t, n, q[1..]));
    }
  }

  /** Any queue can be taken out of the sum first. */
  lemma {:induction false} TotalSplit(t: Topology, qs: Queues, p: Port)
    requires p in qs
    ensures Total(t, qs) == Plus(Held(t, p.node, qs[p]), Total(t, qs - {p}))
    decreases |qs|
  {
    var p0 := Any(qs);
    if p != p0 {
      var a, b := Held(t, p.node, qs[p]), Held(t, p0.node, qs[p0]);
      var rest := qs - {p0} - {p};
      assert rest == qs - {p} - {p0};
      TotalSplit(t, qs - {p0}, p);
      TotalSplit(t, qs - {p}, p0);
      SplitTwice(a, b, Total(t, rest), Total(t, qs), Total(t, qs - {p0}), Total(t, qs - {p}));
    }
  }

  lemma SplitTwice(a: Sum, b: Sum, rest: Sum, all: Sum, withoutB: Sum, withoutA: Sum)
    requires all == Plus(b, withoutB) && withoutB == Plus(a, rest) && withoutA == Plus(b, rest)
    ensures all == Plus(a, withoutA)
  {
    PlusSwap(a, b, rest);
  }

  lemma TotalWith(t: Topology, qs: Queues, p: Port)
    ensures Total(t, qs) == Plus(Held(t, p.node, At(qs, p)), Total(t, qs - {p}))
  {
    if p in qs {
      TotalSplit(t, qs, p);
    } else {
      assert qs - {p} == qs;
      PlusZero(Total(t, qs));
    }
  }

  lemma TotalUpdate(t: Topology, qs: Queues, p: Port, q: seq<Entry>)
    ensures Total(t, qs[p := q]) == Plus(Held(t, p.node, q), Total(t, qs - {p}))
  {
    TotalSplit(t, qs[p := q], p);
    assert qs[p := q] - {p} == qs - {p};
  }

  /** Putting a packet in a queue, and taking the first one out. */
  function Put(qs: Queues, p: Port, e: Entry): Queues { qs[p := Insert(Due, At(qs, p), e)] }

  function Take(qs: Queues, p: Port): Queues
    requires At(qs, p) != []
  {
    qs[p := At(qs, p)[1..]]
  }

  lemma PutAdds(t: Topology, qs: Queues, p: Port, e: Entry)
    ensures Total(t, Put(qs, p, e)) == Plus(One(t, p.node, e.packet), Total(t, qs))
  {
    TotalWith(t, qs, p);
    TotalUpdate(t, qs, p, Insert(Due, At(qs, p), e));
    HeldInsert(t, p.node, At(qs, p), e);
    PlusSwap(One(t, p.node, e.packet), Held(t, p.node, At(qs, p)), Total(t, qs - {p}));
  }

  lemma TakeRemoves(t: Topology, qs: Queues, p: Port)
    requires At(qs, p) != []
    ensures Total(t, qs) == Plus(One(t, p.node, At(qs, p)[0].packet), Total(t, Take(qs, p)))
  {
    TotalWith(t, qs, p);
    TotalUpdate(t, qs, p, At(qs, p)[1..]);
    PlusSwap(One(t, p.node, At(qs, p)[0].packet), Held(t, p.node, At(qs, p)[1..]), Total(t, qs - {p}));
  }

  /** Whatever is held is held in some queue. */
  lemma {:induction false} SomewhereQueued(t: Topology, qs: Queues) returns (p: Port)
    requires Total(t, qs).packets != multiset{}
    ensures At(qs, p) != []
    decreases |qs|
  {
    p := Any(qs);
    if qs[p] == [] {
      PlusZero(Total(t, qs - {p}));
      p := SomewhereQueued(t, qs - {p});
    }
  }

  // ---------------------------------------------------------------- legal queues

  /** Entries of a queue stay on the network, name an output, and are due by `due`. */
  ghost predicate Legal(t: Topology, radix: nat, due: nat, p: Port, q: seq<Entry>) {
    && Sorted(Due, q)
    && (q != [] ==> p.cls < 3 && On(t, p.node) && p.dir < radix)
    && forall k :: 0 <= k < |q| ==> On(t, q[k].packet.dest) && q[k].packet.port < radix && q[k].time <= due
  }

  ghost predicate AllLegal(t: Topology, radix: nat, due: nat, qs: Queues) {
    forall p :: p in qs ==> Legal(t, radix, due, p, qs[p])
  }

  predicate HeadReady(qs: Queues, p: Port, now: nat) { At(qs, p) != [] && At(qs, p)[0].time <= now }

  lemma PutLegal(t: Topology, radix: nat, due: nat, due': nat, qs: Queues, p: Port, e: Entry)
    requires AllLegal(t, radix, due, qs) && p.cls < 3 && On(t, p.node) && p.dir < radix
    requires On(t, e.packet.dest) && e.packet.port < radix && due <= due' && e.time <= due'
    ensures AllLegal(t, radix, due', Put(qs, p, e))
  {
    InsertSorts(Due, At(qs, p), e);
    InsertMembers(Due, At(qs, p), e);
    var r := Insert(Due, At(qs, p), e);
    forall k | 0 <= k < |r| ensures On(t, r[k].packet.dest) && r[k].packet.port < radix && r[k].time <= due' {
      assert r[k] in r;
    }
  }

  lemma TakeLegal(t: Topology, radix: nat, due: nat, due': nat, qs: Queues, p: Port)
    requires AllLegal(t, radix, due, qs) && At(qs, p) != [] && due <= due'
    ensures AllLegal(t, radix, due', Take(qs, p))
  {
  }
}
