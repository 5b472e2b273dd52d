/** One cache line together with the messages in flight for it, and what every run of the
    directory keeps.

    The environment is free: requests arrive at any time, waiting requests and outstanding replies
    are handled in any order, and caches evict at any time.  The only thing asked of it in `Enabled`
    is that a reply answers a message that is in flight, once. */
module CoherenceProtocol {
  import opened Basics
  import opened Coherence

  /** `delivered` and `answers` are history: every request ever delivered, every answer ever sent. */
  datatype Line = Line(
    entry: Option<Entry>,
    flight: multiset<Flight>,
    queued: multiset<Req>,
    delivered: multiset<Req>,
    answers: seq<Answer>)

  const INITIAL := Line(None, multiset{}, multiset{}, multiset{}, [])

  datatype Label = Deliver(r: Req) | Handle(r: Req) | Receive(m: Reply)

  /** The message in flight that a reply answers; evictions answer nothing. */
  function Answered(m: Reply): multiset<Flight> {
    match m
    case Evict(_) => multiset{}
    case UpgradeDone(c) => multiset{UpgradeGrant(c)}
    case UpgradeLost(c) => multiset{UpgradeGrant(c)}
    case InvalAck(c, _) => multiset{InvalProbe(c)}
    case ShareAck(c, _) => multiset{ShareProbe(c)}
    case DirtyAck(c, _) => multiset{DirtyProbe(c)}
    case MemoryData(r) => multiset{MemoryRead(r)}
  }

  ghost predicate Enabled(s: Line, l: Label) {
    match l
    case Deliver(_) => true
    case Handle(r) => r in s.queued
    case Receive(m) => Answered(m) <= s.flight
  }

  ghost function Result(s: Line, l: Label): Outcome
    requires !l.Deliver?
  {
    match l
    case Handle(r) => OnRequest(s.entry, r)
    case Receive(m) => OnReply(s.entry, m)
  }

  ghost predicate Aborts(s: Line, l: Label) {
    !l.Deliver? && Result(s, l).Failed?
  }

  ghost function Next(s: Line, l: Label): Line
    requires Enabled(s, l) && !Aborts(s, l)
  {
    if l.Deliver? then s.(queued := s.queued + multiset{l.r}, delivered := s.delivered + multiset{l.r})
    else
      var o := Result(s, l);
      var taken := if l.Receive? then Answered(l.m) else multiset{};
      Line(o.entry,
           s.flight - taken + o.launched,
           if l.Handle? && !o.retry then s.queued - multiset{l.r} else s.queued,
           s.delivered,
           if o.answer.Some? then s.answers + [o.answer.value] else s.answers)
  }

  // ---------------------------------------------------------------- the invariant

  ghost predicate Stable(e: Entry, flight: multiset<Flight>) {
    e.pending.None? && !e.gotLine && flight == multiset{}
  }

  ghost predicate AwaitsInvalidations(e: Entry, flight: multiset<Flight>) {
    e.sharers != {} && flight == Invalidations(e.sharers)
  }

  ghost predicate AwaitsMemory(e: Entry, flight: multiset<Flight>, kind: Kind) {
    exists r: Req :: r.kind == kind && e.sharers == {r.from} && flight == multiset{MemoryRead(r)}
  }

  ghost predicate AwaitsUpgrade(e: Entry, flight: multiset<Flight>) {
    exists c: Cache :: e.sharers == {c} && flight == multiset{UpgradeGrant(c)}
  }

  ghost predicate AwaitsShare(flight: multiset<Flight>) {
    exists c: Cache :: flight == multiset{ShareProbe(c)}
  }

  ghost predicate AwaitsDirty(flight: multiset<Flight>) {
    exists c: Cache :: flight == multiset{DirtyProbe(c)}
  }

  ghost predicate Parked(e: Entry, kind: Kind) {
    e.pending.Some? && e.pending.value.kind == kind
  }

  /** What an entry in each state is waiting for, message by message. */
  ghost predicate EntryOk(e: Entry, flight: multiset<Flight>) {
    match e.state
    case Exclusive => |e.sharers| == 1 && Stable(e, flight)
    case Modified => |e.sharers| == 1 && Stable(e, flight)
    case Shared => e.sharers != {} && Stable(e, flight)
    case TrToE => e.pending.None? && !e.gotLine && AwaitsMemory(e, flight, Read)
    case TrToS => Parked(e, Read) && !e.gotLine && AwaitsShare(flight)
    case MToS => Parked(e, Read) && !e.gotLine && |e.sharers| <= 1 && AwaitsDirty(flight)
    case TrToM =>
      if e.pending.Some? then Parked(e, Write) && AwaitsInvalidations(e, flight)
      else !e.gotLine && (AwaitsMemory(e, flight, Write) || AwaitsUpgrade(e, flight))
    case TrToI => Parked(e, Active) && AwaitsInvalidations(e, flight)
  }

  ghost predicate Consistent(oe: Option<Entry>, flight: multiset<Flight>) {
    match oe
    case None => flight == multiset{}
    case Some(e) => EntryOk(e, flight)
  }

  ghost predicate Inv(s: Line) {
    Consistent(s.entry, s.flight)
  }

  /** The eviction that the protocol does not survive: one sent by a cache the entry still lists
      while the line is on its way from memory, or while it is being back-invalidated. */
  predicate Untimely(s: Line, l: Label) {
    l.Receive? && l.m.Evict? && s.entry.Some?
    && (s.entry.value.state.TrToE? || s.entry.value.state.TrToI?)
    && l.m.c in s.entry.value.sharers
  }

  /** The outcome leaves the line consistent once `taken` is no longer in flight. */
  ghost predicate Keeps(o: Outcome, flight: multiset<Flight>, taken: multiset<Flight>) {
    o.Done? && Consistent(o.entry, flight - taken + o.launched)
  }

  // ---------------------------------------------------------------- one step

  lemma RemoveInvalidation(sharers: set<Cache>, c: Cache)
    requires c in sharers
    ensures Invalidations(sharers) - multiset{InvalProbe(c)} == Invalidations(sharers - {c})
  {
    assert forall x :: x in sharers - {c} <==> x in sharers && x != c;
  }

  lemma SizeOne(s: set<Cache>, c: Cache)
    requires |s| == 1 && c in s
    ensures s == {c}
  {
    var rest := s - {c};
    assert |rest| == 0;
    assert s == rest + {c};
  }

  lemma EvictByStranger(e: Entry, flight: multiset<Flight>, c: Cache)
    requires EntryOk(e, flight) && c !in e.sharers
    ensures Keeps(OnEvict(e, c), flight, multiset{})
  {
    assert flight - multiset{} + NOTHING == flight;
    assert e.sharers - {c} == e.sharers;
    assert OnEvict(e, c).entry == Some(e) || e.sharers == {};
  }

  lemma EvictWhileStable(e: Entry, flight: multiset<Flight>, c: Cache)
    requires EntryOk(e, flight) && c in e.sharers && !Transient(e.state)
    ensures Keeps(OnEvict(e, c), flight, multiset{})
  {
    assert flight - multiset{} + NOTHING == multiset{};
    if |e.sharers| == 1 { SizeOne(e.sharers, c); }
  }

  lemma EvictWhileProbing(e: Entry, flight: multiset<Flight>, c: Cache)
    requires EntryOk(e, flight) && c in e.sharers && (e.state.TrToS? || e.state.MToS? || e.state.TrToM?)
    ensures Keeps(OnEvict(e, c), flight, multiset{})
  {
    assert flight - multiset{} + NOTHING == flight;
    if e.state.MToS? { SizeOne(e.sharers, c); }
  }

  lemma EvictWhileFetching(e: Entry, flight: multiset<Flight>, c: Cache)
    requires EntryOk(e, flight) && c in e.sharers && (e.state.TrToE? || e.state.TrToI?)
    ensures !Keeps(OnEvict(e, c), flight, multiset{})
  {
    assert flight - multiset{} + NOTHING == flight;
    if e.state.TrToI? {
      assert InvalProbe(c) in flight;
      assert InvalProbe(c) !in Invalidations(e.sharers - {c});
    } else {
      assert flight != multiset{};
    }
  }

  lemma EvictKeeps(e: Entry, flight: multiset<Flight>, c: Cache)
    requires EntryOk(e, flight)
    ensures Keeps(OnEvict(e, c), flight, multiset{})
       <==> !(c in e.sharers && (e.state.TrToE? || e.state.TrToI?))
  {
    if c !in e.sharers {
      EvictByStranger(e, flight, c);
    } else if !Transient(e.state) {
      EvictWhileStable(e, flight, c);
    } else if e.state.TrToE? || e.state.TrToI? {
      EvictWhileFetching(e, flight, c);
    } else {
      EvictWhileProbing(e, flight, c);
    }
  }

  lemma OnlyAwaited(e: Entry, flight: multiset<Flight>, c: Cache)
    requires EntryOk(e, flight) && InvalProbe(c) in flight
    ensures c in e.sharers && AwaitsInvalidations(e, flight)
    ensures (e.state.TrToM? && Parked(e, Write)) || (e.state.TrToI? && Parked(e, Active))
    ensures flight - multiset{InvalProbe(c)} == Invalidations(e.sharers - {c})
  {
    assert AwaitsInvalidations(e, flight);
    assert InvalProbe(c) in Invalidations(e.sharers);
    RemoveInvalidation(e.sharers, c);
  }

  lemma InvalAckKeeps(e: Entry, flight: multiset<Flight>, c: Cache, data: bool)
    requires EntryOk(e, flight) && InvalProbe(c) in flight
    ensures Keeps(OnInvalAck(e, c, data), flight, multiset{InvalProbe(c)})
  {
    OnlyAwaited(e, flight, c);
    var left := Invalidations(e.sharers - {c});
    assert left + NOTHING == left;
    if e.sharers - {c} == {} {
      assert left == multiset{};
      assert left + multiset{MemoryRead(e.pending.value)} == multiset{MemoryRead(e.pending.value)};
    }
  }

  lemma ShareAckKeeps(e: Entry, flight: multiset<Flight>, f: Flight, data: bool, dirty: bool)
    requires EntryOk(e, flight) && f in flight && (f.ShareProbe? || f.DirtyProbe?)
    ensures Keeps(OnShared(Some(e), data, dirty), flight, multiset{f})
  {
    assert flight == multiset{f};
    assert flight - multiset{f} + NOTHING == multiset{};
  }

  lemma UpgradeKeeps(e: Entry, flight: multiset<Flight>, c: Cache)
    requires EntryOk(e, flight) && UpgradeGrant(c) in flight
    ensures Keeps(OnReply(Some(e), UpgradeDone(c)), flight, multiset{UpgradeGrant(c)})
    ensures Keeps(OnReply(Some(e), UpgradeLost(c)), flight, multiset{UpgradeGrant(c)})
    ensures
      var done := OnReply(Some(e), UpgradeDone(c)).entry;
      done.Some? && done.value.state.Modified? && done.value.sharers == {c} && done.value.pending.None?
    ensures OnReply(Some(e), UpgradeLost(c)).entry.None?
  {
    assert e.state.TrToM? && flight == multiset{UpgradeGrant(c)};
    assert flight - multiset{UpgradeGrant(c)} + NOTHING == multiset{};
  }

  lemma MemoryDataKeeps(e: Entry, flight: multiset<Flight>, r: Req)
    requires EntryOk(e, flight) && MemoryRead(r) in flight
    ensures Keeps(OnReply(Some(e), MemoryData(r)), flight, multiset{MemoryRead(r)})
  {
    assert flight == multiset{MemoryRead(r)};
    assert flight - multiset{MemoryRead(r)} + NOTHING == multiset{};
  }

  lemma ReplyKeeps(s: Line, m: Reply)
    requires Inv(s) && Enabled(s, Receive(m))
    ensures Keeps(OnReply(s.entry, m), s.flight, Answered(m)) <==> !Untimely(s, Receive(m))
  {
    match s.entry
    case None => assert m.Evict?;
    case Some(e) =>
      match m {
        case Evict(c) => EvictKeeps(e, s.flight, c);
        case InvalAck(c, data) => InvalAckKeeps(e, s.flight, c, data);
        case ShareAck(c, data) => ShareAckKeeps(e, s.flight, ShareProbe(c), data, false);
        case DirtyAck(c, data) => ShareAckKeeps(e, s.flight, DirtyProbe(c), data, true);
        case UpgradeDone(c) => UpgradeKeeps(e, s.flight, c);
        case UpgradeLost(c) => UpgradeKeeps(e, s.flight, c);
        case MemoryData(r) => MemoryDataKeeps(e, s.flight, r);
      }
  }

  lemma ReadKeeps(e: Entry, r: Req)
    requires EntryOk(e, multiset{}) && !Transient(e.state) && r.kind.Read?
    ensures Keeps(OnRead(e, r), multiset{}, multiset{})
  {
    var o := OnRead(e, r);
    assert o.Done?;
    assert multiset{} - multiset{} + o.launched == o.launched;
  }

  lemma WriteKeeps(e: Entry, r: Req)
    requires EntryOk(e, multiset{}) && !Transient(e.state) && r.kind.Write?
    ensures Keeps(OnWrite(e, r), multiset{}, multiset{})
  {
    var o := OnWrite(e, r);
    assert o.Done?;
    assert multiset{} - multiset{} + o.launched == o.launched;
    if e.state.Exclusive? && r.from in e.sharers { SizeOne(e.sharers, r.from); }
  }

  lemma RequestKeeps(oe: Option<Entry>, flight: multiset<Flight>, r: Req)
    requires Consistent(oe, flight)
    ensures Keeps(OnRequest(oe, r), flight, multiset{})
  {
    if oe.None? {
      var o := OnRequest(oe, r);
      assert flight - multiset{} + o.launched == o.launched;
    } else if Transient(oe.value.state) {
      assert flight - multiset{} + NOTHING == flight;
    } else {
      assert flight == multiset{};
      var e := oe.value;
      match r.kind {
        case Read => ReadKeeps(e, r);
        case Write => WriteKeeps(e, r);
        case Active => assert multiset{} - multiset{} + Invalidations(e.sharers) == Invalidations(e.sharers);
      }
    }
  }

  /** From a consistent line, a step aborts or breaks consistency exactly when it is an untimely
      eviction. */
  lemma StepKeepsInvariant(s: Line, l: Label)
    requires Inv(s) && Enabled(s, l)
    ensures (!Aborts(s, l) && Inv(Next(s, l))) <==> !Untimely(s, l)
  {
    match l
    case Deliver(_) =>
    case Handle(r) =>
      RequestKeeps(s.entry, s.flight, r);
    case Receive(m) =>
      ReplyKeeps(s, m);
  }

  // ---------------------------------------------------------------- where a request is

  function CountAnswers(answers: seq<Answer>, r: Req): nat {
    if answers == [] then 0
    else CountAnswers(answers[..|answers|-1], r) + (if answers[|answers|-1].r == r then 1 else 0)
  }

  function InSlot(oe: Option<Entry>, r: Req): nat {
    if oe.Some? && oe.value.pending == Some(r) then 1 else 0
  }

  /** How many copies of a request exist: waiting in the queues, parked in the entry, travelling to
      and from memory, or answered. */
  function Copies(s: Line, r: Req): nat {
    s.queued[r] + InSlot(s.entry, r) + s.flight[MemoryRead(r)] + CountAnswers(s.answers, r)
  }

  function IsAnswer(o: Option<Answer>, r: Req): nat {
    if o.Some? && o.value.r == r then 1 else 0
  }

  lemma CountAppend(answers: seq<Answer>, a: Answer, r: Req)
    ensures CountAnswers(answers + [a], r) == CountAnswers(answers, r) + (if a.r == r then 1 else 0)
  {
    assert (answers + [a])[..|answers|] == answers;
  }

  /** Where an outcome leaves a request that was in the slot, came back from memory or is being handled. */
  ghost function Places(o: Outcome, r: Req): nat
    requires o.Done?
  {
    InSlot(o.entry, r) + o.launched[MemoryRead(r)] + IsAnswer(o.answer, r)
  }

  lemma TakenReads(m: Reply, r: Req)
    ensures Answered(m)[MemoryRead(r)] == if m == MemoryData(r) then 1 else 0
  {
  }

  lemma AnswerCopies(answers: seq<Answer>, a: Option<Answer>, r: Req)
    ensures CountAnswers(if a.Some? then answers + [a.value] else answers, r) ==
      CountAnswers(answers, r) + IsAnswer(a, r)
  {
    if a.Some? { CountAppend(answers, a.value, r); }
  }

  /** What a handler does to the places is all that a step does to the copies. */
  lemma StepCopies(s: Line, l: Label, r: Req)
    requires Enabled(s, l) && !Aborts(s, l) && !l.Deliver?
    ensures
      var o := Result(s, l);
      Copies(Next(s, l), r) + InSlot(s.entry, r)
        + (if l == Handle(r) && !o.retry then 1 else 0) + (if l == Receive(MemoryData(r)) then 1 else 0)
      == Copies(s, r) + Places(o, r)
  {
    var o := Result(s, l);
    AnswerCopies(s.answers, o.answer, r);
    if l.Receive? { TakenReads(l.m, r); }
  }

  /** Whatever the entry, a reply never multiplies a request. */
  lemma ReplyCopies(oe: Option<Entry>, m: Reply, r: Req)
    requires OnReply(oe, m).Done?
    ensures
      var o := OnReply(oe, m);
      Places(o, r) <= InSlot(oe, r) + (if m == MemoryData(r) then 1 else 0)
  {
  }

  lemma NoReadLaunched(sharers: set<Cache>, r: Req)
    ensures Invalidations(sharers)[MemoryRead(r)] == 0
  {
  }

  lemma ReadPlaces(e: Entry, q: Req, r: Req)
    requires OnRead(e, q).Done?
    ensures Places(OnRead(e, q), r) <= InSlot(Some(e), r) + (if q == r then 1 else 0)
    ensures e.pending.None? ==> Places(OnRead(e, q), r) == if q == r then 1 else 0
  {
  }

  lemma WritePlaces(e: Entry, q: Req, r: Req)
    requires OnWrite(e, q).Done?
    ensures Places(OnWrite(e, q), r) <= InSlot(Some(e), r) + (if q == r then 1 else 0)
    ensures e.pending.None? ==> Places(OnWrite(e, q), r) == if q == r then 1 else 0
  {
    NoReadLaunched(e.sharers, r);
  }

  lemma ActivePlaces(e: Entry, q: Req, r: Req)
    requires OnActive(e, q).Done?
    ensures Places(OnActive(e, q), r) == if q == r then 1 else 0
  {
    NoReadLaunched(e.sharers, r);
  }

  lemma RequestCopies(oe: Option<Entry>, q: Req, r: Req)
    requires OnRequest(oe, q).Done?
    ensures
      var o := OnRequest(oe, q);
      Places(o, r) + (if o.retry && q == r then 1 else 0) <= InSlot(oe, r) + (if q == r then 1 else 0)
    ensures
      var o := OnRequest(oe, q);
      (oe.Some? && !Transient(oe.value.state) ==> oe.value.pending.None?) ==>
        Places(o, r) + (if o.retry && q == r then 1 else 0) == InSlot(oe, r) + (if q == r then 1 else 0)
  {
    if oe.Some? && !Transient(oe.value.state) {
      match q.kind {
        case Read => ReadPlaces(oe.value, q, r);
        case Write => WritePlaces(oe.value, q, r);
        case Active => ActivePlaces(oe.value, q, r);
      }
    }
  }

  /** The situations in which handling a message could drop or overwrite a parked request. */
  predicate SlotBusy(oe: Option<Entry>, m: Reply) {
    oe.Some? && oe.value.pending.Some?
    && match m
       case Evict(_) => !oe.value.state.TrToS? && !oe.value.state.TrToM? && !oe.value.state.MToS?
       case UpgradeDone(_) => true
       case UpgradeLost(_) => true
       case _ => false
  }

  lemma SlotFreeWhenNeeded(s: Line, m: Reply)
    requires Inv(s) && Enabled(s, Receive(m)) && SlotBusy(s.entry, m)
    ensures m.Evict? && s.entry.value.state.TrToI?
  {
  }

  /** Unless the slot is busy, a reply loses nothing. */
  lemma ReplyExact(oe: Option<Entry>, m: Reply, r: Req)
    requires OnReply(oe, m).Done? && !SlotBusy(oe, m)
    ensures
      var o := OnReply(oe, m);
      Places(o, r) == InSlot(oe, r) + (if m == MemoryData(r) then 1 else 0)
  {
  }

  /** `pending` is never overwritten: on a consistent line a request is parked only in a free slot, and handling it
      leaves every request in exactly one place. */
  lemma RequestExact(oe: Option<Entry>, flight: multiset<Flight>, q: Req, r: Req)
    requires Consistent(oe, flight) && OnRequest(oe, q).Done?
    ensures
      var o := OnRequest(oe, q);
      Places(o, r) + (if o.retry && q == r then 1 else 0) == InSlot(oe, r) + (if q == r then 1 else 0)
    ensures oe.Some? && OnRequest(oe, q).entry != oe ==> oe.value.pending.None?
  {
    RequestCopies(oe, q, r);
  }

  /** In any state, consistent or not, a step creates no copy of a request that it did not deliver. */
  lemma StepNeverDuplicates(s: Line, l: Label, r: Req)
    requires Enabled(s, l) && !Aborts(s, l)
    ensures Copies(Next(s, l), r) <= Copies(s, r) + (if l == Deliver(r) then 1 else 0)
  {
    if !l.Deliver? {
      StepCopies(s, l, r);
      match l {
        case Handle(q) => RequestCopies(s.entry, q, r);
        case Receive(m) => ReplyCopies(s.entry, m, r);
      }
    }
  }

  /** A bystander's eviction in TrToI leaves the parked request alone. */
  lemma UntimelyWhenParked(s: Line, m: Reply)
    requires Inv(s) && m.Evict? && s.entry.Some? && s.entry.value.state.TrToI? && !Untimely(s, Receive(m))
    ensures OnReply(s.entry, m) == Quiet(s.entry)
  {
    assert s.entry.value.sharers - {m.c} == s.entry.value.sharers;
  }

  /** A timely reply leaves every request in exactly one place. */
  lemma ReplyConserves(s: Line, m: Reply, r: Req)
    requires Inv(s) && Enabled(s, Receive(m)) && !Aborts(s, Receive(m)) && !Untimely(s, Receive(m))
    ensures Places(OnReply(s.entry, m), r) == InSlot(s.entry, r) + (if m == MemoryData(r) then 1 else 0)
  {
    if SlotBusy(s.entry, m) {
      SlotFreeWhenNeeded(s, m);
      UntimelyWhenParked(s, m);
    } else {
      ReplyExact(s.entry, m, r);
    }
  }

  /** On a consistent line, a timely step moves every request it touches to exactly one other place. */
  lemma StepConserves(s: Line, l: Label, r: Req)
    requires Inv(s) && Enabled(s, l) && !Aborts(s, l) && !Untimely(s, l)
    ensures Copies(Next(s, l), r) == Copies(s, r) + (if l == Deliver(r) then 1 else 0)
  {
    if !l.Deliver? {
      StepCopies(s, l, r);
      match l {
        case Handle(q) => RequestExact(s.entry, s.flight, q, r);
        case Receive(m) => ReplyConserves(s, m, r);
      }
    }
  }

  // ---------------------------------------------------------------- whole runs

  /** The environment may perform `ls` from `s`: every reply answers a message in flight and, where
      `timely` is asked for, no eviction is untimely.  Nothing is asked after an abort. */
  ghost predicate Permitted(s: Line, ls: seq<Label>, timely: bool)
    decreases |ls|
  {
    ls == []
    || (Enabled(s, ls[0]) && (timely ==> !Untimely(s, ls[0]))
        && (Aborts(s, ls[0]) || Permitted(Next(s, ls[0]), ls[1..], timely)))
  }

  ghost predicate Completes(s: Line, ls: seq<Label>)
    decreases |ls|
  {
    ls == []
    || (Enabled(s, ls[0]) && !Aborts(s, ls[0]) && Completes(Next(s, ls[0]), ls[1..]))
  }

  ghost function Final(s: Line, ls: seq<Label>): Line
    requires Completes(s, ls)
    decreases |ls|
  {
    if ls == [] then s else Final(Next(s, ls[0]), ls[1..])
  }

  /** One more step at the end of a run. */
  lemma {:induction false} Then(s: Line, ls: seq<Label>, l: Label)
    requires Completes(s, ls) && Enabled(Final(s, ls), l) && !Aborts(Final(s, ls), l)
    ensures Completes(s, ls + [l]) && Final(s, ls + [l]) == Next(Final(s, ls), l)
    decreases |ls|
  {
    var more := ls + [l];
    if ls == [] {
      assert more[1..] == [];
    } else {
      assert more[0] == ls[0] && more[1..] == ls[1..] + [l];
      Then(Next(s, ls[0]), ls[1..], l);
    }
  }

  lemma {:induction false} RunFrom(s: Line, ls: seq<Label>)
    requires Inv(s) && (forall r: Req :: Copies(s, r) == s.delivered[r])
    requires Permitted(s, ls, true)
    ensures Completes(s, ls) && Inv(Final(s, ls))
    ensures forall r: Req :: Copies(Final(s, ls), r) == Final(s, ls).delivered[r]
    decreases |ls|
  {
    if ls != [] {
      StepKeepsInvariant(s, ls[0]);
      var s' := Next(s, ls[0]);
      forall r: Req ensures Copies(s', r) == s'.delivered[r] {
        StepConserves(s, ls[0], r);
      }
      RunFrom(s', ls[1..]);
    }
  }

  /** Every run without untimely evictions reaches no `ASSERTX(0)`, keeps the entry and the messages
      in flight consistent, and has every delivered request in exactly one place. */
  lemma RunIsSafe(ls: seq<Label>)
    requires Permitted(INITIAL, ls, true)
    ensures Completes(INITIAL, ls) && Inv(Final(INITIAL, ls))
    ensures forall r: Req :: Copies(Final(INITIAL, ls), r) == Final(INITIAL, ls).delivered[r]
  {
    RunFrom(INITIAL, ls);
  }

  /** Once such a run has no message in flight and no waiting request, every request has been
      answered exactly as often as it was delivered. */
  lemma QuiescentRunAnswersAll(ls: seq<Label>)
    requires Permitted(INITIAL, ls, true) && Completes(INITIAL, ls)
    requires Final(INITIAL, ls).queued == multiset{} && Final(INITIAL, ls).flight == multiset{}
    ensures forall r: Req ::
              CountAnswers(Final(INITIAL, ls).answers, r) == Final(INITIAL, ls).delivered[r]
  {
    RunIsSafe(ls);
    var s := Final(INITIAL, ls);
    forall r: Req ensures CountAnswers(s.answers, r) == s.delivered[r] {
      assert Copies(s, r) == s.delivered[r];
      assert s.entry.Some? ==> s.entry.value.pending.None? by { Idle(s); }
    }
  }

  lemma TransientAwaits(e: Entry, flight: multiset<Flight>)
    requires EntryOk(e, flight) && Transient(e.state)
    ensures flight != multiset{}
  {
    if AwaitsInvalidations(e, flight) {
      assert flight[InvalProbe(First(e.sharers))] == 1;
    }
  }

  lemma Idle(s: Line)
    requires Inv(s) && s.flight == multiset{}
    ensures s.entry.Some? ==> !Transient(s.entry.value.state) && s.entry.value.pending.None?
  {
    if s.entry.Some? && Transient(s.entry.value.state) {
      TransientAwaits(s.entry.value, s.flight);
    }
  }

  /** In every run, timely or not, no request is answered more often than it was delivered. */
  lemma {:induction false} NeverAnsweredTwice(s: Line, ls: seq<Label>, r: Req)
    requires Completes(s, ls) && Copies(s, r) <= s.delivered[r]
    ensures Copies(Final(s, ls), r) <= Final(s, ls).delivered[r]
    ensures CountAnswers(Final(s, ls).answers, r) <= Final(s, ls).delivered[r]
    decreases |ls|
  {
    if ls != [] {
      StepNeverDuplicates(s, ls[0], r);
      NeverAnsweredTwice(Next(s, ls[0]), ls[1..], r);
    }
  }

  lemma ReplyOffloads(oe: Option<Entry>, m: Reply)
    requires OnReply(oe, m).Done?
    ensures
      var o := OnReply(oe, m);
      o.answer.Some? && o.answer.value.how.Offload? ==> o.entry.None? && o.answer.value.r.kind.Active?
  {
  }

  lemma RequestOffloads(oe: Option<Entry>, r: Req)
    requires OnRequest(oe, r).Done?
    ensures
      var o := OnRequest(oe, r);
      o.answer.Some? && o.answer.value.how.Offload? ==> o.entry.None? && r.kind.Active? && o.answer.value.r == r
  {
  }

  /** In every state, an active request leaves for the memory network only from a line that the
      directory no longer lists. */
  lemma OffloadLeavesNoSharer(s: Line, l: Label)
    requires Enabled(s, l) && !Aborts(s, l) && !l.Deliver?
    requires Result(s, l).answer.Some? && Result(s, l).answer.value.how.Offload?
    ensures Next(s, l).entry.None?
    ensures Result(s, l).answer.value.r.kind.Active?
  {
    match l
    case Handle(r) => RequestOffloads(s.entry, r);
    case Receive(m) => ReplyOffloads(s.entry, m);
  }

  // ---------------------------------------------------------------- progress

  /** An invalidation or probe may still turn into a memory read, a memory read into nothing. */
  ghost function Weight(flight: multiset<Flight>): nat {
    if forall f :: f in flight ==> f.MemoryRead? then |flight| else 2 * |flight|
  }

  function ReplyTo(f: Flight): (m: Reply)
    ensures !m.Evict? && Answered(m) == multiset{f}
  {
    match f
    case MemoryRead(r) => MemoryData(r)
    case ShareProbe(c) => ShareAck(c, true)
    case DirtyProbe(c) => DirtyAck(c, true)
    case InvalProbe(c) => InvalAck(c, true)
    case UpgradeGrant(c) => UpgradeDone(c)
  }

  /** A transient entry always has a reply outstanding, so no parked request waits for nothing. */
  lemma NoDeadlock(s: Line)
    requires Inv(s) && s.entry.Some? && Transient(s.entry.value.state)
    ensures exists m: Reply :: !m.Evict? && Enabled(s, Receive(m))
  {
    TransientAwaits(s.entry.value, s.flight);
    var f :| f in s.flight;
    assert Enabled(s, Receive(ReplyTo(f)));
  }

  lemma ReplyLaunches(oe: Option<Entry>, m: Reply)
    requires OnReply(oe, m).Done?
    ensures
      var o := OnReply(oe, m);
      o.launched == multiset{}
      || (m.InvalAck? && oe.Some? && oe.value.sharers - {m.c} == {} && oe.value.pending.Some?
          && o.launched == multiset{MemoryRead(oe.value.pending.value)})
  {
  }

  lemma Lighter(flight: multiset<Flight>, f: Flight, launched: multiset<Flight>)
    requires f in flight
    requires launched == multiset{}
             || (flight == multiset{f} && !f.MemoryRead? && exists r: Req :: launched == multiset{MemoryRead(r)})
    ensures Weight(flight - multiset{f} + launched) < Weight(flight)
  {
    var after := flight - multiset{f} + launched;
    if launched != multiset{} {
      assert after == launched;
    } else {
      assert after == flight - multiset{f};
      assert |after| == |flight| - 1;
    }
  }

  lemma OnlyLastLaunches(s: Line, m: Reply)
    requires Inv(s) && Enabled(s, Receive(m)) && !m.Evict? && OnReply(s.entry, m).Done?
    requires OnReply(s.entry, m).launched != multiset{}
    ensures m.InvalAck? && s.flight == multiset{InvalProbe(m.c)}
    ensures exists r: Req :: OnReply(s.entry, m).launched == multiset{MemoryRead(r)}
  {
    ReplyLaunches(s.entry, m);
    OnlyAwaited(s.entry.value, s.flight, m.c);
    var f := InvalProbe(m.c);
    assert s.flight == s.flight - multiset{f} + multiset{f};
  }

  /** Every reply that is not an eviction brings the outstanding work down. */
  lemma ReplyMakesProgress(s: Line, m: Reply)
    requires Inv(s) && Enabled(s, Receive(m)) && !m.Evict?
    ensures !Aborts(s, Receive(m))
    ensures Next(s, Receive(m)).queued == s.queued
    ensures Weight(Next(s, Receive(m)).flight) < Weight(s.flight)
  {
    StepKeepsInvariant(s, Receive(m));
    var f :| f in Answered(m);
    assert Answered(m) == multiset{f} && f in s.flight;
    if OnReply(s.entry, m).launched != multiset{} { OnlyLastLaunches(s, m); }
    Lighter(s.flight, f, OnReply(s.entry, m).launched);
  }
}
