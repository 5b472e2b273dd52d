/** Runs of one line that end badly, step by step. */
module CoherenceRuns {
  import opened Basics
  import opened Coherence
  import opened CoherenceProtocol
  import opened DirtyLines
  import opened Holders

  const READER := Req(0, Read, 1)
  const AGAIN := Req(1, Read, 1)
  const WRITER := Req(2, Write, 2)
  const RIVAL := Req(3, Write, 3)
  const UPDATE := Req(4, Active, 3)

  const FILLED := [Answer(READER, Fill)]

  /** Some run that does not abort leads there. */
  ghost predicate Reached(s: Line) {
    exists ls :: Completes(INITIAL, ls) && Final(INITIAL, ls) == s
  }

  lemma ReachedNext(s: Line, l: Label)
    requires Reached(s) && Enabled(s, l) && !Aborts(s, l)
    ensures Reached(Next(s, l))
  {
    var ls :| Completes(INITIAL, ls) && Final(INITIAL, ls) == s;
    Then(INITIAL, ls, l);
  }

  lemma ReachedInitial()
    ensures Reached(INITIAL)
  {
    assert Completes(INITIAL, []) && Final(INITIAL, []) == INITIAL;
  }

  /** A request is delivered, and handled at once. */
  lemma Ask(s: Line, r: Req, flight: multiset<Flight>) returns (s': Line)
    requires Reached(s) && s.queued == multiset{} && OnRequest(s.entry, r).Done?
    requires OnRequest(s.entry, r).answer.None? && !OnRequest(s.entry, r).retry
    requires flight == s.flight + OnRequest(s.entry, r).launched
    ensures Reached(s')
    ensures s' == Line(OnRequest(s.entry, r).entry, flight, multiset{}, s.delivered + multiset{r}, s.answers)
  {
    ReachedNext(s, Deliver(r));
    var mid := Next(s, Deliver(r));
    ReachedNext(mid, Handle(r));
    s' := Next(mid, Handle(r));
    assert mid.queued - multiset{r} == multiset{};
    assert s.flight - multiset{} == s.flight;
  }

  /** A reply is handled. */
  lemma Hear(s: Line, m: Reply, flight: multiset<Flight>) returns (s': Line)
    requires Reached(s) && Answered(m) <= s.flight && OnReply(s.entry, m).Done?
    requires flight == s.flight - Answered(m) + OnReply(s.entry, m).launched
    ensures Reached(s')
    ensures
      var o := OnReply(s.entry, m);
      s' == s.(entry := o.entry, flight := flight,
               answers := if o.answer.Some? then s.answers + [o.answer.value] else s.answers)
  {
    ReachedNext(s, Receive(m));
    s' := Next(s, Receive(m));
  }

  lemma SoleSharer(state: State, c: Cache, r: Req)
    requires r.from != c && !r.kind.Read? && (state.Exclusive? || state.Modified?)
    ensures
      OnRequest(Some(Entry(state, {c}, None, false)), r)
      == Done(Some(Entry(if r.kind.Active? then TrToI else TrToM, {c}, Some(r), false)),
              multiset{InvalProbe(c)}, None, false, false)
  {
    assert Invalidations({c}) == multiset{InvalProbe(c)};
  }

  // ---------------------------------------------------------------- evictions on the way from memory

  lemma ReadFromMemory() returns (s: Line)
    ensures Reached(s) && s == Line(Some(Entry(TrToE, {1}, None, false)), multiset{MemoryRead(READER)}, multiset{},
                                    multiset{READER}, [])
  {
    ReachedInitial();
    s := Ask(INITIAL, READER, multiset{MemoryRead(READER)});
  }

  /** The line is evicted on its way from memory, and asked for again. */
  lemma ReadTwice() returns (s: Line)
    ensures Reached(s) && s.entry == Some(Entry(TrToE, {1}, None, false)) && s.queued == multiset{} && s.answers == []
    ensures s.flight == multiset{MemoryRead(READER), MemoryRead(AGAIN)}
  {
    s := ReadFromMemory();
    s := Hear(s, Evict(1), multiset{MemoryRead(READER)});
    s := Ask(s, AGAIN, multiset{MemoryRead(READER), MemoryRead(AGAIN)});
  }

  /** The first reply completes the second request. */
  lemma FilledTooEarly() returns (s: Line)
    ensures Reached(s) && s.entry == Some(Entry(Exclusive, {1}, None, false)) && s.queued == multiset{}
    ensures s.flight == multiset{MemoryRead(AGAIN)}
  {
    s := ReadTwice();
    s := Hear(s, MemoryData(READER), multiset{MemoryRead(AGAIN)});
  }

  /** A write is parked behind it, and the second reply overtakes it. */
  lemma WriteOvertaken() returns (s: Line)
    ensures Reached(s) && s.entry == Some(Entry(Modified, {1}, Some(WRITER), false))
    ensures s.flight == multiset{InvalProbe(1)}
  {
    s := FilledTooEarly();
    SoleSharer(Exclusive, 1, WRITER);
    s := Ask(s, WRITER, multiset{MemoryRead(AGAIN), InvalProbe(1)});
    s := Hear(s, MemoryData(AGAIN), multiset{InvalProbe(1)});
  }

  /** Evicting a line that is still on its way from memory, then asking for it again, lets the first reply complete the
      second request; the reply to the second request then overtakes a write that is waiting for an invalidation, whose
      acknowledgement finds the entry in a state in which the directory aborts. */
  lemma UntimelyEvictionAborts() returns (s: Line)
    ensures Reached(s) && Enabled(s, Receive(InvalAck(1, true))) && Aborts(s, Receive(InvalAck(1, true)))
  {
    s := WriteOvertaken();
  }

  // ---------------------------------------------------------------- evictions in front of an offload

  lemma ReadDone() returns (s: Line)
    ensures Reached(s) && s == Line(Some(Entry(Exclusive, {1}, None, false)), multiset{}, multiset{},
                                    multiset{READER}, FILLED)
  {
    s := ReadFromMemory();
    s := Hear(s, MemoryData(READER), multiset{});
  }

  lemma UpdateParked() returns (s: Line)
    ensures Reached(s) && s == Line(Some(Entry(TrToI, {1}, Some(UPDATE), false)), multiset{InvalProbe(1)}, multiset{},
                                    multiset{READER, UPDATE}, FILLED)
  {
    s := ReadDone();
    SoleSharer(Exclusive, 1, UPDATE);
    s := Ask(s, UPDATE, multiset{InvalProbe(1)});
  }

  lemma UpdateForgotten() returns (s: Line)
    ensures Reached(s) && s == Line(None, multiset{}, multiset{}, multiset{READER, UPDATE}, FILLED)
  {
    s := UpdateParked();
    s := Hear(s, Evict(1), multiset{InvalProbe(1)});
    s := Hear(s, InvalAck(1, true), multiset{});
  }

  /** Evicting a line that is being back-invalidated erases the entry together with the active request parked in it:
      the request is never offloaded. */
  lemma UntimelyEvictionLosesUpdate() returns (s: Line)
    ensures Reached(s) && s.queued == multiset{} && s.flight == multiset{}
    ensures s.delivered[UPDATE] == 1 && CountAnswers(s.answers, UPDATE) == 0
  {
    s := UpdateForgotten();
    CountAppend([], Answer(READER, Fill), UPDATE);
    assert [] + [Answer(READER, Fill)] == FILLED;
  }

  // ---------------------------------------------------------------- dirty lines

  lemma Written() returns (s: Line)
    ensures Reached(s) && s.entry == Some(Entry(Modified, {2}, None, false))
    ensures s.flight == multiset{} && s.queued == multiset{}
  {
    ReachedInitial();
    s := Ask(INITIAL, WRITER, multiset{MemoryRead(WRITER)});
    s := Hear(s, MemoryData(WRITER), multiset{});
  }

  /** A cache writes a line; an active request of another core back-invalidates it, the owner sends the line along with
      its acknowledgement, and the request is offloaded: memory has not been written. */
  lemma OffloadLosesDirtyLine() returns (s: Line)
    ensures Reached(s)
    ensures
      var ack := Receive(InvalAck(2, true));
      && Enabled(s, ack) && !Aborts(s, ack) && Loses(s, true, ack) && !Result(s, ack).writeBack
      && Result(s, ack).answer == Some(Answer(UPDATE, Offload)) && Next(s, ack).entry.None?
  {
    s := Written();
    SoleSharer(Modified, 2, UPDATE);
    s := Ask(s, UPDATE, multiset{InvalProbe(2)});
  }

  lemma WriteBehindEviction() returns (s: Line)
    ensures Reached(s) && s.entry == Some(Entry(TrToM, {2}, Some(RIVAL), false)) && s.flight == multiset{InvalProbe(2)}
  {
    s := Written();
    SoleSharer(Modified, 2, RIVAL);
    s := Ask(s, RIVAL, multiset{InvalProbe(2)});
  }

  /** A cache writes a line and evicts it; the eviction arrives after the request of another writer and is dropped.  The
      other writer is then served from memory, which has not been written. */
  lemma EvictionLosesDirtyLine() returns (s: Line)
    ensures Reached(s)
    ensures
      var gone := Receive(Evict(2));
      Enabled(s, gone) && !Aborts(s, gone) && !Untimely(s, gone) && Loses(s, true, gone) && Next(s, gone) == s
    ensures
      OnReply(s.entry, InvalAck(2, false))
      == Done(Some(Entry(TrToM, {3}, None, false)), multiset{MemoryRead(RIVAL)}, None, false, false)
  {
    s := WriteBehindEviction();
    assert s.flight - multiset{} + NOTHING == s.flight;
    assert {2} - {2} == {};
  }

  // ---------------------------------------------------------------- upgrades

  const UPGRADER := Req(5, Write, 1)

  /** A step in front of a run. */
  lemma Before(s: Line, h: History, l: Label, s': Line, h': History, ls: seq<Label>)
    requires Enabled(s, l) && !Aborts(s, l) && !Untimely(s, l) && s' == Next(s, l) && h' == After(s, h, l)
    requires Permitted(s', ls, true) && Completes(s', ls) && !AllConfirmed(s', h', ls)
    ensures Permitted(s, [l] + ls, true) && Completes(s, [l] + ls) && !AllConfirmed(s, h, [l] + ls)
  {
    assert ([l] + ls)[1..] == ls;
  }

  const GRANTED := Line(Some(Entry(TrToM, {1}, None, false)), multiset{UpgradeGrant(1)}, multiset{},
                        multiset{READER, UPGRADER}, [Answer(READER, Fill), Answer(UPGRADER, Grant)])

  lemma AcknowledgedAfterEviction() returns (ls: seq<Label>)
    ensures Permitted(GRANTED, ls, true) && Completes(GRANTED, ls)
    ensures !AllConfirmed(GRANTED, History({1}, false), ls)
  {
    var done := Receive(UpgradeDone(1));
    var none: seq<Label> := [];
    assert Permitted(Next(GRANTED, done), none, true) && Completes(Next(GRANTED, done), none);
    assert [done][1..] == none;
    assert Permitted(GRANTED, [done], true) && Completes(GRANTED, [done]);
    AfterIs(GRANTED, History({1}, false), Receive(Evict(1)));
    assert GRANTED.flight - multiset{} + NOTHING == GRANTED.flight;
    Before(GRANTED, History({1}, false), Receive(Evict(1)), GRANTED, NO_HOLDERS, [done]);
    ls := [Receive(Evict(1))] + [done];
  }

  /** A request is delivered and handled at once, in front of a run. */
  lemma Asked(s: Line, h: History, r: Req, s': Line, h': History, ls: seq<Label>)
    returns (more: seq<Label>)
    requires s.queued == multiset{} && OnRequest(s.entry, r).Done? && !OnRequest(s.entry, r).retry && !h.brought
    requires
      var o := OnRequest(s.entry, r);
      && s'.entry == o.entry && s'.flight == s.flight + o.launched && s'.queued == multiset{}
      && s'.delivered == s.delivered + multiset{r}
      && s'.answers == (if o.answer.Some? then s.answers + [o.answer.value] else s.answers)
      && h' == History(h.holders + GivenBy(o.answer), false)
    requires Permitted(s', ls, true) && Completes(s', ls) && !AllConfirmed(s', h', ls)
    ensures Permitted(s, more, true) && Completes(s, more) && !AllConfirmed(s, h, more)
  {
    hide Permitted, Completes, AllConfirmed;
    var mid := Next(s, Deliver(r));
    AfterIs(s, h, Deliver(r));
    AfterIs(mid, h, Handle(r));
    assert mid.queued - multiset{r} == multiset{};
    assert s.flight - multiset{} == s.flight;
    assert Next(mid, Handle(r)) == s';
    Before(mid, h, Handle(r), s', h', ls);
    more := [Handle(r)] + ls;
    Before(s, h, Deliver(r), mid, h, more);
    more := [Deliver(r)] + more;
  }

  const FILLED_LINE := Line(Some(Entry(Exclusive, {1}, None, false)), multiset{}, multiset{}, multiset{READER}, FILLED)

  const FETCHED_LINE := Line(Some(Entry(TrToE, {1}, None, false)), multiset{MemoryRead(READER)}, multiset{},
                             multiset{READER}, [])

  lemma GrantedThenEvicted() returns (ls: seq<Label>)
    ensures Permitted(FILLED_LINE, ls, true) && Completes(FILLED_LINE, ls)
    ensures !AllConfirmed(FILLED_LINE, History({1}, false), ls)
  {
    hide Permitted, Completes, AllConfirmed;
    ls := AcknowledgedAfterEviction();
    assert GRANTED.flight == FILLED_LINE.flight + OnRequest(FILLED_LINE.entry, UPGRADER).launched;
    ls := Asked(FILLED_LINE, History({1}, false), UPGRADER, GRANTED, History({1}, false), ls);
  }

  lemma FilledThenEvicted() returns (ls: seq<Label>)
    ensures Permitted(FETCHED_LINE, ls, true) && Completes(FETCHED_LINE, ls)
    ensures !AllConfirmed(FETCHED_LINE, NO_HOLDERS, ls)
  {
    hide Permitted, Completes, AllConfirmed;
    ls := GrantedThenEvicted();
    var l := Receive(MemoryData(READER));
    AfterIs(FETCHED_LINE, NO_HOLDERS, l);
    assert Next(FETCHED_LINE, l) == FILLED_LINE;
    Before(FETCHED_LINE, NO_HOLDERS, l, FILLED_LINE, History({1}, false), ls);
    ls := [l] + ls;
  }

  /** A cache is granted a write, evicts the line all the same, and then acknowledges the grant: the directory, which
      drops the eviction, lists it as the owner of a line that nobody holds. */
  lemma UnconfirmedUpgradeListed() returns (ls: seq<Label>)
    ensures Permitted(INITIAL, ls, true) && Completes(INITIAL, ls) && !AlwaysAgree(INITIAL, NO_HOLDERS, ls)
  {
    hide Permitted, Completes, AllConfirmed, AlwaysAgree;
    ls := FilledThenEvicted();
    assert FETCHED_LINE.flight == INITIAL.flight + OnRequest(INITIAL.entry, READER).launched;
    ls := Asked(INITIAL, NO_HOLDERS, READER, FETCHED_LINE, NO_HOLDERS, ls);
    SharersAreHolders(ls);
  }
}
