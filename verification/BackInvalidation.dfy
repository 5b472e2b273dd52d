/** Active requests and the copies they must not overtake.

    An active request whose line some cache holds is parked until every copy has been invalidated, and is offloaded
    then.  What follows holds of every run that does not abort, whatever caches evict and when: the requests that are
    lost are exactly those parked in a line whose last listed sharer evicts it. */
module BackInvalidation {
  import opened Basics
  import opened Coherence
  import opened CoherenceProtocol

  /** Active requests are parked nowhere but in TrToI, and a line in TrToI waits for every sharer it lists. */
  ghost predicate Held(oe: Option<Entry>, flight: multiset<Flight>) {
    oe.Some? ==>
      && (oe.value.state.TrToI? <==> Parked(oe.value, Active))
      && (oe.value.state.TrToI? ==>
            oe.value.sharers != {} && forall c :: c in oe.value.sharers ==> InvalProbe(c) in flight)
  }

  ghost predicate NoActiveRead(flight: multiset<Flight>) {
    forall r: Req :: r.kind.Active? ==> MemoryRead(r) !in flight
  }

  ghost predicate ActiveInv(s: Line) {
    Held(s.entry, s.flight) && NoActiveRead(s.flight)
  }

  /** The eviction by the last listed sharer of a line that is being back-invalidated. */
  predicate Drops(s: Line, l: Label) {
    l.Receive? && l.m.Evict? && s.entry.Some? && s.entry.value.state.TrToI? && s.entry.value.sharers == {l.m.c}
  }

  /** It takes r away. */
  predicate DropsIt(s: Line, l: Label, r: Req) {
    Drops(s, l) && s.entry.value.pending == Some(r)
  }

  // ---------------------------------------------------------------- one step

  lemma AckHolds(e: Entry, flight: multiset<Flight>, c: Cache, data: bool)
    requires Held(Some(e), flight) && InvalProbe(c) in flight && OnInvalAck(e, c, data).Done?
    ensures
      var o := OnInvalAck(e, c, data);
      Held(o.entry, flight - multiset{InvalProbe(c)} + o.launched) && NoActiveRead(o.launched)
  {
    var o := OnInvalAck(e, c, data);
    var after := flight - multiset{InvalProbe(c)} + o.launched;
    if o.entry.Some? && o.entry.value.state.TrToI? {
      forall x | x in o.entry.value.sharers ensures InvalProbe(x) in after {
        assert x in e.sharers && x != c;
      }
    }
  }

  lemma EvictHolds(e: Entry, flight: multiset<Flight>, c: Cache)
    requires Held(Some(e), flight) && OnEvict(e, c).Done?
    ensures Held(OnEvict(e, c).entry, flight) && OnEvict(e, c).launched == NOTHING
  {
  }

  /** No other reply is accepted in TrToI without leaving the entry as it is, or touches an active request. */
  lemma OthersHold(oe: Option<Entry>, flight: multiset<Flight>, m: Reply)
    requires Held(oe, flight) && OnReply(oe, m).Done? && !m.Evict? && !m.InvalAck?
    ensures
      var o := OnReply(oe, m);
      && o.launched == NOTHING
      && (o.entry.Some? ==> (o.entry.value.state.TrToI? <==> Parked(o.entry.value, Active)))
      && (o.entry.Some? && o.entry.value.state.TrToI? ==> o.entry == oe)
  {
  }

  lemma ReplyHolds(s: Line, m: Reply)
    requires ActiveInv(s) && Enabled(s, Receive(m)) && !Aborts(s, Receive(m))
    ensures ActiveInv(Next(s, Receive(m)))
  {
    var o := OnReply(s.entry, m);
    var after := s.flight - Answered(m) + o.launched;
    if s.entry.Some? && m.Evict? {
      EvictHolds(s.entry.value, s.flight, m.c);
      assert after == s.flight;
    } else if s.entry.Some? && m.InvalAck? {
      AckHolds(s.entry.value, s.flight, m.c, m.data);
    } else if !m.Evict? && !m.InvalAck? {
      OthersHold(s.entry, s.flight, m);
      forall c: Cache ensures InvalProbe(c) in s.flight ==> InvalProbe(c) in after {}
    }
  }

  lemma RequestHolds(oe: Option<Entry>, flight: multiset<Flight>, r: Req)
    requires Held(oe, flight) && OnRequest(oe, r).Done?
    ensures
      var o := OnRequest(oe, r);
      Held(o.entry, flight + o.launched) && NoActiveRead(o.launched)
  {
    var o := OnRequest(oe, r);
    if r.kind.Active? && oe.Some? && !Transient(oe.value.state) {
      var e := oe.value;
      forall c | c in e.sharers ensures InvalProbe(c) in flight + o.launched {
        assert InvalProbe(c) in Invalidations(e.sharers);
      }
    }
  }

  lemma StepHolds(s: Line, l: Label)
    requires ActiveInv(s) && Enabled(s, l) && !Aborts(s, l)
    ensures ActiveInv(Next(s, l))
  {
    match l
    case Deliver(_) =>
    case Handle(r) =>
      RequestHolds(s.entry, s.flight, r);
      assert s.flight - multiset{} == s.flight;
    case Receive(m) => ReplyHolds(s, m);
  }

  lemma EvictMoves(e: Entry, c: Cache, r: Req)
    requires e.state.TrToI? <==> Parked(e, Active)
    requires OnEvict(e, c).Done? && r.kind.Active? && (e.state.TrToI? ==> e.sharers != {})
    ensures Places(OnEvict(e, c), r) == if e.state.TrToI? && e.sharers == {c} then 0 else InSlot(Some(e), r)
  {
    if e.state.TrToI? && e.sharers - {c} == {} {
      assert forall x :: x in e.sharers ==> x == c || x in e.sharers - {c};
    }
  }

  lemma AckMoves(e: Entry, c: Cache, data: bool, r: Req)
    requires OnInvalAck(e, c, data).Done? && r.kind.Active?
    ensures Places(OnInvalAck(e, c, data), r) == InSlot(Some(e), r)
  {
  }

  lemma OthersMove(oe: Option<Entry>, m: Reply, r: Req)
    requires oe.Some? ==> (oe.value.state.TrToI? <==> Parked(oe.value, Active))
    requires OnReply(oe, m).Done? && r.kind.Active? && !m.Evict? && !m.InvalAck? && m != MemoryData(r)
    ensures Places(OnReply(oe, m), r) == InSlot(oe, r)
  {
  }

  /** A reply moves a parked active request on, unless it takes the last sharer away. */
  lemma ReplyMoves(s: Line, m: Reply, r: Req)
    requires ActiveInv(s) && Enabled(s, Receive(m)) && !Aborts(s, Receive(m)) && r.kind.Active?
    ensures m != MemoryData(r)
    ensures Places(OnReply(s.entry, m), r) == if DropsIt(s, Receive(m), r) then 0 else InSlot(s.entry, r)
  {
    assert MemoryRead(r) !in s.flight;
    if s.entry.Some? && m.Evict? {
      EvictMoves(s.entry.value, m.c, r);
    } else if s.entry.Some? && m.InvalAck? {
      AckMoves(s.entry.value, m.c, m.data, r);
    } else if !m.Evict? && !m.InvalAck? {
      OthersMove(s.entry, m, r);
    }
  }

  lemma RequestMoves(s: Line, q: Req, r: Req)
    requires ActiveInv(s) && OnRequest(s.entry, q).Done? && r.kind.Active?
    ensures
      var o := OnRequest(s.entry, q);
      Places(o, r) + (if o.retry && q == r then 1 else 0) == InSlot(s.entry, r) + (if q == r then 1 else 0)
  {
  }

  /** In every state that a run can reach, an active request is at exactly one place after every step, but for the
      eviction by the last listed sharer. */
  lemma StepMoves(s: Line, l: Label, r: Req)
    requires ActiveInv(s) && Enabled(s, l) && !Aborts(s, l) && r.kind.Active?
    ensures Copies(Next(s, l), r) + (if DropsIt(s, l, r) then 1 else 0)
         == Copies(s, r) + (if l == Deliver(r) then 1 else 0)
  {
    if !l.Deliver? {
      StepCopies(s, l, r);
      match l {
        case Handle(q) => RequestMoves(s, q, r);
        case Receive(m) => ReplyMoves(s, m, r);
      }
    }
  }

  // ---------------------------------------------------------------- whole runs

  /** How often a run loses r. */
  ghost function Dropped(s: Line, ls: seq<Label>, r: Req): nat
    requires Completes(s, ls)
    decreases |ls|
  {
    if ls == [] then 0 else (if DropsIt(s, ls[0], r) then 1 else 0) + Dropped(Next(s, ls[0]), ls[1..], r)
  }

  /** Some step of the run is such an eviction. */
  ghost predicate LastSharerEvicts(s: Line, ls: seq<Label>)
    requires Completes(s, ls)
    decreases |ls|
  {
    ls != [] && (Drops(s, ls[0]) || LastSharerEvicts(Next(s, ls[0]), ls[1..]))
  }

  lemma {:induction false} RunMoves(s: Line, ls: seq<Label>, r: Req)
    requires Completes(s, ls) && ActiveInv(s) && r.kind.Active?
    ensures ActiveInv(Final(s, ls))
    ensures Copies(Final(s, ls), r) + Dropped(s, ls, r) + s.delivered[r]
         == Copies(s, r) + Final(s, ls).delivered[r]
    decreases |ls|
  {
    if ls != [] {
      StepHolds(s, ls[0]);
      StepMoves(s, ls[0], r);
      RunMoves(Next(s, ls[0]), ls[1..], r);
    }
  }

  lemma {:induction false} DroppedMeansEvicted(s: Line, ls: seq<Label>)
    requires Completes(s, ls) && ActiveInv(s)
    ensures LastSharerEvicts(s, ls) <==> exists r: Req :: r.kind.Active? && Dropped(s, ls, r) > 0
    decreases |ls|
  {
    if ls != [] {
      StepHolds(s, ls[0]);
      var s' := Next(s, ls[0]);
      DroppedMeansEvicted(s', ls[1..]);
      if Drops(s, ls[0]) {
        assert Dropped(s, ls, s.entry.value.pending.value) > 0;
      } else if LastSharerEvicts(s', ls[1..]) {
        var r: Req :| r.kind.Active? && Dropped(s', ls[1..], r) > 0;
        assert Dropped(s, ls, r) > 0;
      } else {
        forall r: Req | r.kind.Active? ensures Dropped(s, ls, r) == 0 {
          assert Dropped(s', ls[1..], r) == 0;
        }
      }
    }
  }

  /** In every run that does not abort, whatever was evicted, an active request that was not dropped is waiting, parked
      or offloaded, once for each time it was delivered. */
  lemma ActiveAccounted(ls: seq<Label>, r: Req)
    requires Completes(INITIAL, ls) && r.kind.Active?
    ensures
      var s := Final(INITIAL, ls);
      s.queued[r] + InSlot(s.entry, r) + CountAnswers(s.answers, r) + Dropped(INITIAL, ls, r) == s.delivered[r]
  {
    RunMoves(INITIAL, ls, r);
  }

  /** What is parked still has an invalidation to wait for. */
  lemma ParkedAwaits(s: Line)
    requires ActiveInv(s) && s.entry.Some? && Parked(s.entry.value, Active)
    ensures s.flight != multiset{}
  {
    assert InvalProbe(First(s.entry.value.sharers)) in s.flight;
  }

  /** Once a run is quiet, every active request has left exactly as often as it was delivered, if and only if no line
      was evicted by its last listed sharer while it was being back-invalidated. */
  lemma LeavesExactlyOnce(ls: seq<Label>)
    requires Completes(INITIAL, ls)
    requires Final(INITIAL, ls).queued == multiset{} && Final(INITIAL, ls).flight == multiset{}
    ensures
      (forall r: Req :: r.kind.Active? ==>
         CountAnswers(Final(INITIAL, ls).answers, r) == Final(INITIAL, ls).delivered[r])
      <==> !LastSharerEvicts(INITIAL, ls)
  {
    var s := Final(INITIAL, ls);
    DroppedMeansEvicted(INITIAL, ls);
    forall r: Req | r.kind.Active?
      ensures CountAnswers(s.answers, r) + Dropped(INITIAL, ls, r) == s.delivered[r]
    {
      RunMoves(INITIAL, ls, r);
      assert InSlot(s.entry, r) == 0 by { if InSlot(s.entry, r) == 1 { ParkedAwaits(s); } }
    }
  }
}
