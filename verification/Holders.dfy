/** Who has the line.

    The history of a line says which caches hold it: a cache that is given the line by an answer holds it until it says
    that it no longer does.  The history looks only at messages, not at the entry.  The theorems say that the sharers a
    stable entry lists are exactly the holders, and what the directory therefore asks of whom. */
module Holders {
  import opened Basics
  import opened Coherence
  import opened CoherenceProtocol

  /** `brought`: the line has come with an acknowledgement since the line was last stable. */
  datatype History = History(holders: set<Cache>, brought: bool)

  const NO_HOLDERS := History({}, false)

  /** The cache that gives the line up, or says that it is without it. */
  function Leaving(l: Label): set<Cache> {
    if !l.Receive? then {}
    else
      match l.m
      case Evict(c) => {c}
      case UpgradeLost(c) => {c}
      case InvalAck(c, _) => {c}
      case _ => {}
  }

  /** The caches that these answers give the line, or the right to keep it. */
  function Given(answers: seq<Answer>): set<Cache> {
    set a | a in answers && (a.how.Fill? || a.how.Grant?) :: a.r.from
  }

  ghost function News(s: Line, l: Label): seq<Answer>
    requires Enabled(s, l) && !Aborts(s, l)
  {
    Next(s, l).answers[|s.answers|..]
  }

  predicate InTransit(oe: Option<Entry>) { oe.Some? && Transient(oe.value.state) }

  predicate CarriesLine(l: Label) {
    l.Receive?
    && match l.m
       case InvalAck(_, data) => data
       case ShareAck(_, data) => data
       case DirtyAck(_, data) => data
       case MemoryData(_) => true
       case _ => false
  }

  ghost function After(s: Line, h: History, l: Label): History
    requires Enabled(s, l) && !Aborts(s, l)
  {
    History(h.holders - Leaving(l) + Given(News(s, l)),
            InTransit(Next(s, l).entry) && (h.brought || (CarriesLine(l) && l.m.InvalAck?)))
  }

  /** A stable line lists exactly its holders, and a line that is not listed has none. */
  ghost predicate Agree(s: Line, h: History) {
    match s.entry
    case None => h.holders == {}
    case Some(e) => Transient(e.state) || e.sharers == h.holders
  }

  ghost predicate Granted(flight: multiset<Flight>) {
    exists c :: UpgradeGrant(c) in flight
  }

  /** The same for lines in transit.  While a write waits for acknowledgements or an upgrade, evictions are dropped and
      the entry may still list a cache that has gone; a line on its way from memory is held by nobody. */
  ghost predicate ListedAt(oe: Option<Entry>, granted: bool, h: History) {
    match oe
    case None => h == NO_HOLDERS
    case Some(e) =>
      && (match e.state
          case TrToE => h.holders == {}
          case TrToM => h.holders <= e.sharers && (e.pending.None? && !granted ==> h.holders == {})
          case _ => h.holders == e.sharers)
      && (h.brought <==> e.gotLine && e.pending.Some?)
  }

  ghost predicate Listed(s: Line, h: History) {
    ListedAt(s.entry, Granted(s.flight), h)
  }

  /** Only a cache that still holds the line acknowledges its upgrade. */
  predicate Confirmed(h: History, l: Label) {
    l.Receive? && l.m.UpgradeDone? ==> l.m.c in h.holders
  }

  // ---------------------------------------------------------------- one step

  function GivenBy(a: Option<Answer>): set<Cache> {
    if a.Some? && (a.value.how.Fill? || a.value.how.Grant?) then {a.value.r.from} else {}
  }

  /** The history after a message was handled with outcome o. */
  ghost function AfterOutcome(h: History, l: Label, o: Outcome): History
    requires o.Done?
  {
    History(h.holders - Leaving(l) + GivenBy(o.answer),
            InTransit(o.entry) && (h.brought || (CarriesLine(l) && l.m.InvalAck?)))
  }

  lemma NewsIs(s: Line, l: Label)
    requires Enabled(s, l) && !Aborts(s, l)
    ensures News(s, l) == if l.Deliver? || Result(s, l).answer.None? then [] else [Result(s, l).answer.value]
  {
  }

  lemma GivenIs(a: Option<Answer>)
    ensures Given(if a.None? then [] else [a.value]) == GivenBy(a)
  {
    var news := if a.None? then [] else [a.value];
    if a.Some? {
      assert a.value in news && forall x :: x in news ==> x == a.value;
    } else {
      assert forall x :: x !in news;
    }
  }

  lemma AfterIs(s: Line, h: History, l: Label)
    requires Enabled(s, l) && !Aborts(s, l)
    ensures !l.Deliver? ==> After(s, h, l) == AfterOutcome(h, l, Result(s, l))
    ensures l.Deliver? ==> After(s, h, l).holders == h.holders && Next(s, l).entry == s.entry
  {
    NewsIs(s, l);
    if l.Deliver? { GivenIs(None); } else { GivenIs(Result(s, l).answer); }
  }

  lemma ReadListed(e: Entry, h: History, r: Req, granted: bool)
    requires EntryOk(e, multiset{}) && !Transient(e.state) && r.kind.Read? && ListedAt(Some(e), false, h)
    ensures
      var o := OnRead(e, r);
      o.Done? && ListedAt(o.entry, granted, AfterOutcome(h, Handle(r), o))
  {
  }

  lemma WriteListed(e: Entry, h: History, r: Req, granted: bool)
    requires EntryOk(e, multiset{}) && !Transient(e.state) && r.kind.Write? && ListedAt(Some(e), false, h)
    requires OnWrite(e, r).Done? && (UpgradeGrant(r.from) in OnWrite(e, r).launched ==> granted)
    ensures ListedAt(OnWrite(e, r).entry, granted, AfterOutcome(h, Handle(r), OnWrite(e, r)))
  {
  }

  lemma ActiveListed(e: Entry, h: History, r: Req, granted: bool)
    requires EntryOk(e, multiset{}) && !Transient(e.state) && r.kind.Active? && ListedAt(Some(e), false, h)
    ensures
      var o := OnActive(e, r);
      o.Done? && ListedAt(o.entry, granted, AfterOutcome(h, Handle(r), o))
  {
  }

  lemma NotGranted(flight: multiset<Flight>)
    requires flight == multiset{}
    ensures !Granted(flight)
  {
  }

  lemma GrantedMore(flight: multiset<Flight>, launched: multiset<Flight>, c: Cache)
    requires Granted(flight) || UpgradeGrant(c) in launched
    ensures Granted(flight + launched)
  {
    if Granted(flight) {
      var d :| UpgradeGrant(d) in flight;
      assert UpgradeGrant(d) in flight + launched;
    } else {
      assert UpgradeGrant(c) in flight + launched;
    }
  }

  lemma StableFlight(e: Entry, flight: multiset<Flight>)
    requires EntryOk(e, flight) && !Transient(e.state)
    ensures flight == multiset{}
  {
  }

  lemma HandleListed(s: Line, h: History, r: Req)
    requires Inv(s) && Listed(s, h) && OnRequest(s.entry, r).Done?
    ensures
      var o := OnRequest(s.entry, r);
      ListedAt(o.entry, Granted(s.flight + o.launched), AfterOutcome(h, Handle(r), o))
  {
    hide Granted, OnRead, OnWrite, OnActive, EntryOk;
    var o := OnRequest(s.entry, r);
    var granted := Granted(s.flight + o.launched);
    if Granted(s.flight) || UpgradeGrant(r.from) in o.launched { GrantedMore(s.flight, o.launched, r.from); }
    if s.entry.Some? && !Transient(s.entry.value.state) {
      var e := s.entry.value;
      StableFlight(e, s.flight);
      NotGranted(s.flight);
      match r.kind {
        case Read => ReadListed(e, h, r, granted);
        case Write => WriteListed(e, h, r, granted);
        case Active => ActiveListed(e, h, r, granted);
      }
    }
  }

  lemma StrangerEvicts(e: Entry, flight: multiset<Flight>, c: Cache)
    requires EntryOk(e, flight) && c !in e.sharers
    ensures OnEvict(e, c) == Quiet(Some(e))
  {
    assert e.sharers - {c} == e.sharers;
  }

  lemma SharerEvicts(e: Entry, flight: multiset<Flight>, c: Cache)
    requires EntryOk(e, flight) && c in e.sharers && !e.state.TrToE? && !e.state.TrToI?
    ensures
      var o := OnEvict(e, c);
      && o.Done? && o.answer.None?
      && match o.entry
         case None => e.sharers == {c} && !e.state.TrToM?
         case Some(e') => e' == if e.state.TrToM? then e else e.(sharers := e.sharers - {c})
  {
    if |e.sharers| == 1 { SizeOne(e.sharers, c); }
  }

  lemma EvictListed(e: Entry, flight: multiset<Flight>, h: History, c: Cache, granted: bool)
    requires EntryOk(e, flight) && ListedAt(Some(e), granted, h)
    requires !(c in e.sharers && (e.state.TrToE? || e.state.TrToI?))
    ensures
      var o := OnEvict(e, c);
      o.Done? && ListedAt(o.entry, granted, AfterOutcome(h, Receive(Evict(c)), o))
  {
    hide OnEvict;
    if c !in e.sharers {
      StrangerEvicts(e, flight, c);
      assert h.holders - {c} == h.holders;
    } else {
      SharerEvicts(e, flight, c);
    }
  }

  lemma InvalAckDoes(e: Entry, flight: multiset<Flight>, c: Cache, data: bool)
    requires EntryOk(e, flight) && InvalProbe(c) in flight
    ensures c in e.sharers && e.pending.Some? && (e.state.TrToM? || e.state.TrToI?)
    ensures e.pending.value.kind == if e.state.TrToI? then Active else Write
    ensures
      var o := OnInvalAck(e, c, data);
      var rest, r, got := e.sharers - {c}, e.pending.value, data || e.gotLine;
      && o.Done? && !o.retry
      && if rest != {} then o == Quiet(Some(e.(sharers := rest, gotLine := got)))
         else if e.state.TrToI? then o.entry.None? && o.answer == Some(Answer(r, Offload)) && o.launched == NOTHING
         else && o.entry.Some? && o.entry.value.sharers == {r.from} && o.entry.value.pending.None?
              && !o.entry.value.gotLine && o.entry.value.state == (if got then Modified else TrToM)
              && o.answer == (if got then Some(Answer(r, Fill)) else None)
              && o.launched == if got then NOTHING else multiset{MemoryRead(r)}
  {
    OnlyAwaited(e, flight, c);
  }

  lemma InvalAckListed(e: Entry, flight: multiset<Flight>, h: History, c: Cache, data: bool, granted: bool)
    requires EntryOk(e, flight) && InvalProbe(c) in flight && ListedAt(Some(e), false, h)
    ensures
      var o := OnInvalAck(e, c, data);
      o.Done? && ListedAt(o.entry, granted, AfterOutcome(h, Receive(InvalAck(c, data)), o))
  {
    hide OnInvalAck, EntryOk;
    InvalAckDoes(e, flight, c, data);
    if e.sharers - {c} == {} { assert h.holders - {c} == {}; }
  }

  lemma UpgradeFinds(e: Entry, flight: multiset<Flight>, c: Cache)
    requires EntryOk(e, flight) && UpgradeGrant(c) in flight
    ensures e.state.TrToM? && e.sharers == {c} && e.pending.None? && !e.gotLine
  {
  }

  lemma UpgradeListed(e: Entry, flight: multiset<Flight>, h: History, c: Cache, granted: bool)
    requires EntryOk(e, flight) && UpgradeGrant(c) in flight && ListedAt(Some(e), true, h)
    ensures e.state.TrToM? && e.sharers == {c}
    ensures
      var o := OnReply(Some(e), UpgradeDone(c));
      && o.Done? && o.entry.Some? && !Transient(o.entry.value.state) && c in o.entry.value.sharers
      && (c in h.holders ==> ListedAt(o.entry, granted, AfterOutcome(h, Receive(UpgradeDone(c)), o)))
    ensures
      var o := OnReply(Some(e), UpgradeLost(c));
      o.Done? && ListedAt(o.entry, granted, AfterOutcome(h, Receive(UpgradeLost(c)), o))
  {
    hide EntryOk;
    UpgradeFinds(e, flight, c);
  }

  lemma MemoryDataListed(e: Entry, flight: multiset<Flight>, h: History, r: Req, granted: bool)
    requires EntryOk(e, flight) && MemoryRead(r) in flight && ListedAt(Some(e), Granted(flight), h)
    ensures
      var o := OnReply(Some(e), MemoryData(r));
      o.Done? && ListedAt(o.entry, granted, AfterOutcome(h, Receive(MemoryData(r)), o))
  {
    assert flight == multiset{MemoryRead(r)};
    assert !Granted(flight);
  }

  lemma ProbeFinds(e: Entry, flight: multiset<Flight>, f: Flight)
    requires EntryOk(e, flight) && f in flight && (f.ShareProbe? || f.DirtyProbe?)
    ensures (e.state.TrToS? || e.state.MToS?) && Parked(e, Read) && !e.gotLine
  {
  }

  lemma ShareAckListed(e: Entry, flight: multiset<Flight>, h: History, m: Reply, granted: bool)
    requires EntryOk(e, flight) && ListedAt(Some(e), false, h) && (m.ShareAck? || m.DirtyAck?)
    requires (if m.ShareAck? then ShareProbe(m.c) else DirtyProbe(m.c)) in flight
    ensures
      var o := OnReply(Some(e), m);
      o.Done? && ListedAt(o.entry, granted, AfterOutcome(h, Receive(m), o))
  {
    hide EntryOk;
    ProbeFinds(e, flight, if m.ShareAck? then ShareProbe(m.c) else DirtyProbe(m.c));
  }

  lemma OneKind(e: Entry, flight: multiset<Flight>, f: Flight)
    requires EntryOk(e, flight) && f in flight && !f.UpgradeGrant?
    ensures !Granted(flight)
  {
    forall c ensures UpgradeGrant(c) !in flight {
    }
  }

  lemma ReplyListed(s: Line, h: History, m: Reply, granted: bool)
    requires Inv(s) && Listed(s, h) && Enabled(s, Receive(m)) && !Untimely(s, Receive(m))
    requires m.Evict? ==> granted == Granted(s.flight)
    ensures
      var o := OnReply(s.entry, m);
      o.Done? && (Confirmed(h, Receive(m)) ==> ListedAt(o.entry, granted, AfterOutcome(h, Receive(m), o)))
  {
    hide EntryOk, OnShared, OnInvalAck, OnEvict;
    if s.entry.Some? {
      hide ListedAt;
      var e := s.entry.value;
      match m {
        case Evict(c) => EvictListed(e, s.flight, h, c, granted);
        case InvalAck(c, data) =>
          OneKind(e, s.flight, InvalProbe(c));
          InvalAckListed(e, s.flight, h, c, data, granted);
        case UpgradeDone(c) =>
          assert Granted(s.flight);
          UpgradeListed(e, s.flight, h, c, granted);
        case UpgradeLost(c) =>
          assert Granted(s.flight);
          UpgradeListed(e, s.flight, h, c, granted);
        case MemoryData(r) => MemoryDataListed(e, s.flight, h, r, granted);
        case ShareAck(c, _) =>
          OneKind(e, s.flight, ShareProbe(c));
          ShareAckListed(e, s.flight, h, m, granted);
        case DirtyAck(c, _) =>
          OneKind(e, s.flight, DirtyProbe(c));
          ShareAckListed(e, s.flight, h, m, granted);
      }
    }
  }

  lemma Unconfirmed(s: Line, h: History, c: Cache)
    requires Inv(s) && Listed(s, h) && Enabled(s, Receive(UpgradeDone(c))) && !Aborts(s, Receive(UpgradeDone(c)))
    requires c !in h.holders
    ensures !Agree(Next(s, Receive(UpgradeDone(c))), After(s, h, Receive(UpgradeDone(c))))
  {
    var l := Receive(UpgradeDone(c));
    assert Granted(s.flight) && s.entry.Some?;
    UpgradeListed(s.entry.value, s.flight, h, c, true);
    AfterIs(s, h, l);
  }

  /** From a line that lists its holders, a timely step leads to one that does if and only if it is not the
      acknowledgement of an upgrade by a cache that has given the line up. */
  lemma StepListed(s: Line, h: History, l: Label)
    requires Inv(s) && Listed(s, h) && Enabled(s, l) && !Untimely(s, l)
    ensures !Aborts(s, l)
    ensures Confirmed(h, l) ==> Listed(Next(s, l), After(s, h, l))
    ensures Agree(Next(s, l), After(s, h, l)) ==> Confirmed(h, l)
  {
    hide ListedAt, After, AfterOutcome, Agree, OnReply, OnRequest, Consistent;
    StepKeepsInvariant(s, l);
    AfterIs(s, h, l);
    match l
    case Deliver(_) =>
      DeliverListed(s, h, l);
    case Handle(r) =>
      HandleListed(s, h, r);
      assert s.flight - multiset{} + OnRequest(s.entry, r).launched == s.flight + OnRequest(s.entry, r).launched;
    case Receive(m) =>
      if m.Evict? { EvictLeavesFlight(s, m.c); }
      ReplyListed(s, h, m, Granted(Next(s, l).flight));
      if !Confirmed(h, l) { Unconfirmed(s, h, m.c); }
  }

  lemma DeliverListed(s: Line, h: History, l: Label)
    requires Inv(s) && Listed(s, h) && l.Deliver?
    ensures Listed(Next(s, l), After(s, h, l))
  {
    AfterIs(s, h, l);
  }

  lemma EvictLeavesFlight(s: Line, c: Cache)
    requires Inv(s) && OnReply(s.entry, Evict(c)).Done?
    ensures Next(s, Receive(Evict(c))).flight == s.flight
  {
    assert s.flight - multiset{} + NOTHING == s.flight;
  }

  // ---------------------------------------------------------------- whole runs

  /** In every state of the run, a stable line lists exactly its holders. */
  ghost predicate AlwaysAgree(s: Line, h: History, ls: seq<Label>)
    requires Completes(s, ls)
    decreases |ls|
  {
    Agree(s, h) && (ls == [] || AlwaysAgree(Next(s, ls[0]), After(s, h, ls[0]), ls[1..]))
  }

  /** No cache acknowledges an upgrade after it has given the line up. */
  ghost predicate AllConfirmed(s: Line, h: History, ls: seq<Label>)
    requires Completes(s, ls)
    decreases |ls|
  {
    ls == [] || (Confirmed(h, ls[0]) && AllConfirmed(Next(s, ls[0]), After(s, h, ls[0]), ls[1..]))
  }

  lemma {:induction false} RunAgrees(s: Line, h: History, ls: seq<Label>)
    requires Inv(s) && Listed(s, h) && Completes(s, ls) && Permitted(s, ls, true)
    ensures AlwaysAgree(s, h, ls) <==> AllConfirmed(s, h, ls)
    decreases |ls|
  {
    if ls != [] {
      StepKeepsInvariant(s, ls[0]);
      StepListed(s, h, ls[0]);
      var s', h' := Next(s, ls[0]), After(s, h, ls[0]);
      if Confirmed(h, ls[0]) {
        RunAgrees(s', h', ls[1..]);
      } else if AlwaysAgree(s', h', ls[1..]) {
        AgreesAtFirst(s', h', ls[1..]);
      }
    }
  }

  lemma AgreesAtFirst(s: Line, h: History, ls: seq<Label>)
    requires Completes(s, ls) && AlwaysAgree(s, h, ls)
    ensures Agree(s, h)
  {
  }

  /** In every timely run, the sharers of the line are exactly its holders whenever it is stable, if and only if no
      cache acknowledges an upgrade after it has given the line up. */
  lemma SharersAreHolders(ls: seq<Label>)
    requires Permitted(INITIAL, ls, true)
    ensures Completes(INITIAL, ls)
    ensures AlwaysAgree(INITIAL, NO_HOLDERS, ls) <==> AllConfirmed(INITIAL, NO_HOLDERS, ls)
  {
    RunIsSafe(ls);
    RunAgrees(INITIAL, NO_HOLDERS, ls);
  }

  // ---------------------------------------------------------------- what follows for one step

  ghost function SharersOf(oe: Option<Entry>): set<Cache> {
    if oe.Some? then oe.value.sharers else {}
  }

  ghost predicate ListsTheAnswered(o: Outcome) {
    o.Done? && GivenBy(o.answer) <= SharersOf(o.entry)
  }

  /** The list of an outcome has c on it, which was not there. */
  ghost predicate Adds(oe: Option<Entry>, o: Outcome, c: Cache) {
    o.Done? && c in SharersOf(o.entry) && c !in SharersOf(oe)
  }

  /** It has been given the line, or memory has been asked for it on its behalf. */
  ghost predicate Served(o: Outcome, c: Cache)
    requires o.Done?
  {
    if o.answer.Some? then o.answer.value.r.from == c && o.answer.value.how.Fill?
    else exists r: Req :: r.from == c && MemoryRead(r) in o.launched
  }

  lemma RequestLists(oe: Option<Entry>, r: Req, c: Cache)
    requires OnRequest(oe, r).Done?
    ensures ListsTheAnswered(OnRequest(oe, r))
    ensures Adds(oe, OnRequest(oe, r), c) ==> Served(OnRequest(oe, r), c)
  {
    var o := OnRequest(oe, r);
    if Adds(oe, o, c) { assert r.from == c && MemoryRead(r) in o.launched; }
  }

  lemma InvalAckLists(e: Entry, flight: multiset<Flight>, a: Cache, data: bool, c: Cache)
    requires EntryOk(e, flight) && InvalProbe(a) in flight
    ensures ListsTheAnswered(OnInvalAck(e, a, data))
    ensures Adds(Some(e), OnInvalAck(e, a, data), c) ==> Served(OnInvalAck(e, a, data), c)
  {
    hide OnInvalAck, EntryOk;
    InvalAckDoes(e, flight, a, data);
    var o := OnInvalAck(e, a, data);
    if Adds(Some(e), o, c) && o.answer.None? { assert MemoryRead(e.pending.value) in o.launched; }
  }

  lemma ReplyLists(s: Line, m: Reply, c: Cache)
    requires Inv(s) && Enabled(s, Receive(m)) && OnReply(s.entry, m).Done?
    ensures ListsTheAnswered(OnReply(s.entry, m))
    ensures Adds(s.entry, OnReply(s.entry, m), c) ==> Served(OnReply(s.entry, m), c)
  {
    hide OnInvalAck, EntryOk, OnEvict;
    match m
    case InvalAck(a, data) => InvalAckLists(s.entry.value, s.flight, a, data, c);
    case MemoryData(r) => MemoryGoesTo(s, r);
    case Evict(a) =>
      if s.entry.Some? { EvictDropsOnly(s.entry.value, a); }
    case _ =>
  }

  lemma MemoryGoesTo(s: Line, r: Req)
    requires Inv(s) && MemoryRead(r) in s.flight
    ensures s.entry.Some? && s.entry.value.sharers == {r.from} && s.entry.value.pending.None?
    ensures s.entry.value.state == if r.kind.Read? then TrToE else TrToM
    ensures !r.kind.Active?
  {
    assert s.flight == multiset{MemoryRead(r)};
  }

  /** Whoever is given the line is listed afterwards.  Nobody else is added to the list but a cache on whose behalf
      memory is asked for the line; a refused cache is not. */
  lemma OnlyServedAreListed(s: Line, l: Label, c: Cache)
    requires Inv(s) && Enabled(s, l) && !Aborts(s, l) && !l.Deliver?
    ensures GivenBy(Result(s, l).answer) <= SharersOf(Next(s, l).entry)
    ensures c in SharersOf(Next(s, l).entry) && c !in SharersOf(s.entry) ==> Served(Result(s, l), c)
  {
    hide OnRequest, OnReply, EntryOk;
    match l
    case Handle(r) => RequestLists(s.entry, r, c);
    case Receive(m) => ReplyLists(s, m, c);
  }

  lemma EvictDropsOnly(e: Entry, c: Cache)
    requires OnEvict(e, c).Done?
    ensures SharersOf(OnEvict(e, c).entry) <= e.sharers && OnEvict(e, c).answer.None?
  {
  }

  /** What the handling of a request sends to caches goes to holders only: a probe for a read to one that is not the
      reader, a grant to the writer; and if anybody is invalidated, then every holder is. */
  ghost predicate RightAddressees(holders: set<Cache>, r: Req, launched: multiset<Flight>) {
    && (forall f :: f in launched ==>
          match f
          case MemoryRead(q) => q == r && holders == {}
          case ShareProbe(c) => c in holders && c != r.from && r.kind.Read?
          case DirtyProbe(c) => holders == {c} && c != r.from && r.kind.Read?
          case UpgradeGrant(c) => holders == {c} && c == r.from && r.kind.Write?
          case InvalProbe(c) => c in holders && !r.kind.Read?)
    && ((exists c :: InvalProbe(c) in launched) ==> forall c :: c in holders ==> InvalProbe(c) in launched)
  }

  lemma StableAddressees(e: Entry, r: Req)
    requires EntryOk(e, multiset{}) && !Transient(e.state)
    ensures
      var o := OnRequest(Some(e), r);
      o.Done? && RightAddressees(e.sharers, r, o.launched)
  {
    if !e.state.Shared? {
      var c :| c in e.sharers;
      SizeOne(e.sharers, c);
    }
  }

  lemma ProbesGoToHolders(s: Line, h: History, r: Req)
    requires Inv(s) && Listed(s, h) && Enabled(s, Handle(r))
    ensures !Aborts(s, Handle(r)) && RightAddressees(h.holders, r, Result(s, Handle(r)).launched)
  {
    StepKeepsInvariant(s, Handle(r));
    if s.entry.Some? && !Transient(s.entry.value.state) {
      StableFlight(s.entry.value, s.flight);
      StableAddressees(s.entry.value, r);
    }
  }

  /** Which requests are answered at once, and how: refused while the line is in transit (an active request is put back
      instead) or when the reader, or the writer of a modified line, already holds it; a write by the holder of an
      exclusive line is granted; an active request for a line that nobody holds is offloaded. */
  lemma AnsweredAtOnce(s: Line, h: History, r: Req)
    requires Inv(s) && Listed(s, h) && Enabled(s, Handle(r))
    ensures
      var o := Result(s, Handle(r));
      var stable := s.entry.Some? && !Transient(s.entry.value.state);
      && o.Done?
      && (o.retry <==> r.kind.Active? && InTransit(s.entry))
      && (o.answer == Some(Answer(r, Nack)) <==>
            || (!r.kind.Active? && InTransit(s.entry))
            || (stable && r.from in h.holders && (r.kind.Read? || (r.kind.Write? && s.entry.value.state.Modified?))))
      && (o.answer == Some(Answer(r, Grant)) <==>
            stable && r.from in h.holders && r.kind.Write? && s.entry.value.state.Exclusive?)
      && (o.answer == Some(Answer(r, Offload)) <==> r.kind.Active? && s.entry.None?)
      && (o.answer.Some? ==> o.answer.value.r == r && !o.answer.value.how.Fill?)
  {
    StepKeepsInvariant(s, Handle(r));
  }

  /** The line is there: it comes with the message, or, for a write that was waiting for acknowledgements, has come with
      an earlier one. */
  predicate LineIsThere(h: History, l: Label) {
    CarriesLine(l) || (l.Receive? && l.m.InvalAck? && h.brought)
  }

  /** What becomes of a request that is answered by message m: it is filled only when the line is there.  A read that
      was parked is filled if it is, and refused if not; a parked write is filled by the last acknowledgement if it is,
      and goes to memory if not. */
  ghost predicate FilledIfThere(oe: Option<Entry>, m: Reply, o: Outcome, there: bool) {
    && o.Done?
    && (o.answer.Some? && o.answer.value.how.Fill? ==> there)
    && (m.MemoryData? ==> o.answer == Some(Answer(m.r, Fill)))
    && (m.ShareAck? || m.DirtyAck? ==>
          && oe.Some? && oe.value.pending.Some?
          && o.answer == Some(Answer(oe.value.pending.value, if there then Fill else Nack)))
    && (m.InvalAck? ==> oe.Some? && oe.value.pending.Some?)
    && (m.InvalAck? && oe.value.state.TrToM? && oe.value.sharers == {m.c} ==>
          && o.answer == (if there then Some(Answer(oe.value.pending.value, Fill)) else None)
          && o.launched == if there then NOTHING else multiset{MemoryRead(oe.value.pending.value)})
  }

  lemma FilledByAck(e: Entry, flight: multiset<Flight>, c: Cache, data: bool)
    requires EntryOk(e, flight) && InvalProbe(c) in flight
    ensures FilledIfThere(Some(e), InvalAck(c, data), OnInvalAck(e, c, data), data || e.gotLine)
  {
    hide OnInvalAck, EntryOk;
    InvalAckDoes(e, flight, c, data);
  }

  lemma FilledByProbe(e: Entry, flight: multiset<Flight>, m: Reply)
    requires EntryOk(e, flight) && (m.ShareAck? || m.DirtyAck?)
    requires (if m.ShareAck? then ShareProbe(m.c) else DirtyProbe(m.c)) in flight
    ensures FilledIfThere(Some(e), m, OnReply(Some(e), m), m.data)
  {
    hide EntryOk;
    ProbeFinds(e, flight, if m.ShareAck? then ShareProbe(m.c) else DirtyProbe(m.c));
  }

  /** In every timely step, a request is filled if and only if the line is there. */
  lemma FilledWithLine(s: Line, h: History, m: Reply)
    requires Inv(s) && Listed(s, h) && Enabled(s, Receive(m)) && !Untimely(s, Receive(m))
    ensures FilledIfThere(s.entry, m, OnReply(s.entry, m), LineIsThere(h, Receive(m)))
  {
    hide OnInvalAck, OnEvict, EntryOk;
    StepKeepsInvariant(s, Receive(m));
    match m
    case InvalAck(c, data) => FilledByAck(s.entry.value, s.flight, c, data);
    case ShareAck(c, _) => FilledByProbe(s.entry.value, s.flight, m);
    case DirtyAck(c, _) => FilledByProbe(s.entry.value, s.flight, m);
    case Evict(c) =>
      if s.entry.Some? { EvictDropsOnly(s.entry.value, c); }
    case _ =>
  }

  /** The state of the line after a request was filled: a write leaves it modified, a read from memory exclusive, and a
      read from another cache shared. */
  lemma StateAfterFill(s: Line, m: Reply, r: Req)
    requires Inv(s) && Enabled(s, Receive(m)) && OnReply(s.entry, m).Done?
    requires OnReply(s.entry, m).answer == Some(Answer(r, Fill))
    ensures
      var e := OnReply(s.entry, m).entry;
      && e.Some? && !r.kind.Active?
      && match e.value.state
         case Modified => r.kind.Write?
         case Exclusive => r.kind.Read? && m.MemoryData?
         case Shared => r.kind.Read? && !m.MemoryData?
         case _ => false
  {
    hide OnInvalAck, OnEvict, EntryOk;
    match m
    case InvalAck(c, data) => InvalAckDoes(s.entry.value, s.flight, c, data);
    case MemoryData(q) => MemoryGoesTo(s, q);
    case ShareAck(c, _) => ProbeFinds(s.entry.value, s.flight, ShareProbe(c));
    case DirtyAck(c, _) => ProbeFinds(s.entry.value, s.flight, DirtyProbe(c));
    case Evict(c) =>
      if s.entry.Some? { EvictDropsOnly(s.entry.value, c); }
    case _ =>
  }
}
