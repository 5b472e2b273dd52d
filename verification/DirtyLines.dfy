/** Where the newest data of a line is.

    A line is dirty while the copy of its owner is newer than memory: from the moment it becomes modified until it is
    written to memory.  The directory hands that copy on, from owner to owner and to memory, and the theorems say
    exactly when it loses it: whenever an active request back-invalidates a modified line, and whenever the owner evicts
    a line that has already been asked for by another writer. */
module DirtyLines {
  import opened Basics
  import opened Coherence
  import opened CoherenceProtocol

  /** `d` says whether the line is dirty.  A dirty line lists its owner and nobody else. */
  ghost predicate DirtyInv(oe: Option<Entry>, d: bool) {
    && (d ==> oe.Some? && |oe.value.sharers| == 1
              && (oe.value.state.Modified? || oe.value.state.MToS? || oe.value.state.TrToI?
                  || (oe.value.state.TrToM? && oe.value.pending.Some?)))
    && (oe.Some? && oe.value.state.Modified? ==> d)
    && (oe.Some? && oe.value.state.MToS? ==> (d <==> oe.value.sharers != {}))
  }

  /** The owner answers with the line as long as it has it. */
  predicate Honest(d: bool, l: Label) {
    l.Receive? ==>
      match l.m
      case InvalAck(_, data) => d ==> data
      case DirtyAck(_, data) => d == data
      case _ => true
  }

  /** A listed cache gives its copy up. */
  predicate GivesUp(e: Entry, l: Label) {
    l.Receive? && (l.m.Evict? || l.m.InvalAck?) && l.m.c in e.sharers
  }

  /** After the step the newest data is in memory, still with its owner, or with the next one. */
  predicate Survives(e: Entry, l: Label, o: Outcome)
    requires o.Done?
  {
    || o.writeBack
    || (o.entry.Some? && o.entry.value.sharers >= e.sharers && !GivesUp(e, l))
    || (l.Receive? && l.m.InvalAck? && l.m.data && o.answer.Some? && o.answer.value.how.Fill?)
  }

  ghost predicate Loses(s: Line, d: bool, l: Label)
    requires !Aborts(s, l)
  {
    d && !l.Deliver? && !(s.entry.Some? && Survives(s.entry.value, l, Result(s, l)))
  }

  predicate IsModified(oe: Option<Entry>) {
    oe.Some? && oe.value.state.Modified?
  }

  ghost predicate DirtyAfter(s: Line, d: bool, l: Label)
    requires !Aborts(s, l)
  {
    if l.Deliver? then d
    else IsModified(Result(s, l).entry) || (d && !Result(s, l).writeBack && !Loses(s, d, l))
  }

  // ---------------------------------------------------------------- one step

  /** The steps that lose the newest data of a dirty line: its owner evicts it although it is already being
      invalidated, or the invalidation was in front of an offload. */
  predicate Careless(e: Entry, l: Label) {
    GivesUp(e, l) && (e.state.TrToI? || (e.state.TrToM? && l.m.Evict?))
  }

  lemma EvictDirty(e: Entry, c: Cache)
    requires DirtyInv(Some(e), true)
    ensures
      var o := OnEvict(e, c);
      && o.Done? && (o.writeBack <==> c in e.sharers && (e.state.Modified? || e.state.MToS?))
      && (Survives(e, Receive(Evict(c)), o) <==> !Careless(e, Receive(Evict(c))))
      && (c in e.sharers && !Careless(e, Receive(Evict(c))) ==> DirtyInv(o.entry, false))
      && (c !in e.sharers ==> o.entry == Some(e))
  {
    if c in e.sharers { SizeOne(e.sharers, c); } else { assert e.sharers - {c} == e.sharers; }
  }

  lemma InvalidateDirty(e: Entry, flight: multiset<Flight>, c: Cache)
    requires EntryOk(e, flight) && InvalProbe(c) in flight && DirtyInv(Some(e), true)
    ensures c in e.sharers && (e.state.TrToI? || e.state.TrToM?)
    ensures
      var o := OnInvalAck(e, c, true);
      && o.Done? && !o.writeBack
      && (if e.state.TrToI? then o.entry.None? && o.answer.value.how.Offload?
          else IsModified(o.entry) && o.answer.value.how.Fill?)
      && (Survives(e, Receive(InvalAck(c, true)), o) <==> e.state.TrToM?)
  {
    assert flight == Invalidations(e.sharers);
    SizeOne(e.sharers, c);
  }

  lemma DirtyGetsDirtyAck(s: Line, m: Reply)
    requires Inv(s) && Enabled(s, Receive(m)) && DirtyInv(s.entry, true) && Honest(true, Receive(m))
    requires !m.Evict? && !m.InvalAck?
    ensures s.entry.value.state.MToS? && m.DirtyAck? && m.data
    ensures var o := OnReply(s.entry, m); o.Done? && o.writeBack && o.entry.Some? && o.entry.value.state.Shared?
  {
  }

  lemma ReplyToDirty(s: Line, m: Reply)
    requires Inv(s) && Enabled(s, Receive(m)) && DirtyInv(s.entry, true) && Honest(true, Receive(m))
    ensures !Aborts(s, Receive(m))
    ensures Survives(s.entry.value, Receive(m), OnReply(s.entry, m)) <==> !Careless(s.entry.value, Receive(m))
  {
    match m
    case Evict(c) => EvictDirty(s.entry.value, c);
    case InvalAck(c, _) => InvalidateDirty(s.entry.value, s.flight, c);
    case _ => DirtyGetsDirtyAck(s, m);
  }

  /** A request that finds the line modified asks the owner for it, or is refused. */
  lemma RequestToModified(e: Entry, r: Req)
    requires e.state.Modified? && |e.sharers| == 1 && e.pending.None?
    ensures
      var o := OnRequest(Some(e), r);
      o.Done? && !o.writeBack && o.entry.Some? && o.entry.value.sharers == e.sharers
      && match o.entry.value.state
         case Modified => true
         case MToS => r.kind.Read?
         case TrToM => r.kind.Write? && o.entry.value.pending.Some?
         case TrToI => r.kind.Active?
         case _ => false
    ensures r.kind.Active? ==> OnRequest(Some(e), r).entry.value.state.TrToI?
  {
  }

  lemma RequestToDirty(e: Entry, flight: multiset<Flight>, r: Req)
    requires EntryOk(e, flight) && DirtyInv(Some(e), true)
    ensures
      var o := OnRequest(Some(e), r);
      o.Done? && !o.writeBack && o.entry.Some? && o.entry.value.sharers == e.sharers && DirtyInv(o.entry, true)
      && (o.entry.value.state.TrToI? <==> e.state.TrToI? || (e.state.Modified? && r.kind.Active?))
  {
    if e.state.Modified? { RequestToModified(e, r); }
  }

  /** From a consistent line, a step loses the newest data exactly if it is one of those. */
  lemma LossExact(s: Line, l: Label)
    requires Inv(s) && Enabled(s, l) && DirtyInv(s.entry, true) && Honest(true, l)
    ensures !Aborts(s, l)
    ensures Loses(s, true, l) <==> Careless(s.entry.value, l)
  {
    match l
    case Deliver(_) =>
    case Handle(r) => RequestToDirty(s.entry.value, s.flight, r);
    case Receive(m) => ReplyToDirty(s, m);
  }

  /** Only requests put a line in MToS or TrToI. */
  lemma RepliesNeverProbe(oe: Option<Entry>, m: Reply)
    requires OnReply(oe, m).Done?
    ensures
      var o := OnReply(oe, m);
      o.entry.Some? && (o.entry.value.state.MToS? || o.entry.value.state.TrToI?) ==>
        oe.Some? && oe.value.state == o.entry.value.state
        && (o.entry.value.state.MToS? ==> o.entry.value.sharers <= oe.value.sharers)
  {
  }

  lemma WhatWritesMemory(oe: Option<Entry>, m: Reply)
    requires OnReply(oe, m).Done? && OnReply(oe, m).writeBack
    ensures oe.Some?
    ensures (m.Evict? && m.c in oe.value.sharers && (oe.value.state.Modified? || oe.value.state.MToS?)) ||
      (m.DirtyAck? && m.data)
  {
  }

  /** What a timely reply makes of a line that is not dirty. */
  lemma ReplyToClean(s: Line, m: Reply)
    requires Inv(s) && Enabled(s, Receive(m)) && !Untimely(s, Receive(m))
    requires DirtyInv(s.entry, false) && Honest(false, Receive(m))
    ensures
      var o := OnReply(s.entry, m);
      o.Done? && !o.writeBack && DirtyInv(o.entry, IsModified(o.entry))
  {
    ReplyKeeps(s, m);
    var o := OnReply(s.entry, m);
    RepliesNeverProbe(s.entry, m);
    if o.writeBack { WhatWritesMemory(s.entry, m); }
    if IsModified(o.entry) { OneOwner(o.entry, s.flight - Answered(m) + o.launched); }
  }

  lemma OneOwner(oe: Option<Entry>, flight: multiset<Flight>)
    requires Consistent(oe, flight) && IsModified(oe)
    ensures |oe.value.sharers| == 1
  {
  }

  lemma RequestToClean(oe: Option<Entry>, flight: multiset<Flight>, r: Req)
    requires Consistent(oe, flight) && DirtyInv(oe, false)
    ensures
      var o := OnRequest(oe, r);
      o.Done? && !o.writeBack && DirtyInv(o.entry, false)
  {
    RequestKeeps(oe, flight, r);
  }

  lemma InvalidatedDirtyKeeps(s: Line, c: Cache)
    requires Inv(s) && InvalProbe(c) in s.flight && DirtyInv(s.entry, true)
    ensures
      var o := OnReply(s.entry, InvalAck(c, true));
      o.Done? && !o.writeBack && DirtyInv(o.entry, IsModified(o.entry))
  {
    InvalidateDirty(s.entry.value, s.flight, c);
    InvalAckKeeps(s.entry.value, s.flight, c, true);
  }

  lemma DirtyReplyKeeps(s: Line, m: Reply)
    requires Inv(s) && Enabled(s, Receive(m)) && !Untimely(s, Receive(m))
    requires DirtyInv(s.entry, true) && Honest(true, Receive(m))
    ensures !Aborts(s, Receive(m)) && DirtyInv(OnReply(s.entry, m).entry, DirtyAfter(s, true, Receive(m)))
    ensures OnReply(s.entry, m).writeBack ==> !DirtyAfter(s, true, Receive(m))
  {
    match m
    case Evict(c) => EvictDirty(s.entry.value, c);
    case InvalAck(c, _) =>
      InvalidateDirty(s.entry.value, s.flight, c);
      InvalidatedDirtyKeeps(s, c);
    case _ => DirtyGetsDirtyAck(s, m);
  }

  /** Every timely step keeps track of the newest data.  Memory is written only when the line is dirty, the line is
      clean afterwards, and a line stops being dirty only by being written or by a step that loses it. */
  lemma DirtyStep(s: Line, d: bool, l: Label)
    requires Inv(s) && Enabled(s, l) && !Untimely(s, l) && DirtyInv(s.entry, d) && Honest(d, l)
    ensures !Aborts(s, l) && DirtyInv(Next(s, l).entry, DirtyAfter(s, d, l))
    ensures !l.Deliver? && Result(s, l).writeBack ==> d && !DirtyAfter(s, d, l)
    ensures d && !DirtyAfter(s, d, l) ==> !l.Deliver? && (Result(s, l).writeBack || Loses(s, d, l))
  {
    match l
    case Deliver(_) =>
    case Handle(r) =>
      if d { RequestToDirty(s.entry.value, s.flight, r); } else { RequestToClean(s.entry, s.flight, r); }
    case Receive(m) =>
      if d { DirtyReplyKeeps(s, m); } else { ReplyToClean(s, m); }
  }

  // ---------------------------------------------------------------- whole runs

  /** No eviction is untimely, and owners answer with the line as long as they have it.  Nothing is asked after an
      abort. */
  ghost predicate Truthful(s: Line, d: bool, ls: seq<Label>)
    decreases |ls|
  {
    ls == []
    || (Enabled(s, ls[0]) && !Untimely(s, ls[0]) && Honest(d, ls[0])
        && (Aborts(s, ls[0]) || Truthful(Next(s, ls[0]), DirtyAfter(s, d, ls[0]), ls[1..])))
  }

  ghost function Losses(s: Line, d: bool, ls: seq<Label>): nat
    requires Completes(s, ls)
    decreases |ls|
  {
    if ls == [] then 0
    else (if Loses(s, d, ls[0]) then 1 else 0) + Losses(Next(s, ls[0]), DirtyAfter(s, d, ls[0]), ls[1..])
  }

  /** An active request finds the line modified, or the owner evicts it while another writer waits for it. */
  predicate Exposes(s: Line, d: bool, l: Label) {
    s.entry.Some?
    && match l
       case Deliver(_) => false
       case Handle(r) => r.kind.Active? && s.entry.value.state.Modified?
       case Receive(m) => d && s.entry.value.state.TrToM? && m.Evict? && m.c in s.entry.value.sharers
  }

  ghost function Exposures(s: Line, d: bool, ls: seq<Label>): nat
    requires Completes(s, ls)
    decreases |ls|
  {
    if ls == [] then 0
    else (if Exposes(s, d, ls[0]) then 1 else 0) + Exposures(Next(s, ls[0]), DirtyAfter(s, d, ls[0]), ls[1..])
  }

  /** A dirty line that is being back-invalidated. */
  function InDanger(oe: Option<Entry>, d: bool): nat {
    if d && oe.Some? && oe.value.state.TrToI? then 1 else 0
  }

  lemma StaysInDanger(s: Line, m: Reply)
    requires Inv(s) && Enabled(s, Receive(m)) && DirtyInv(s.entry, true) && Honest(true, Receive(m))
    requires s.entry.value.state.TrToI? && !Careless(s.entry.value, Receive(m))
    ensures m.Evict? && OnReply(s.entry, m) == Quiet(s.entry)
  {
    match m
    case Evict(c) => assert s.entry.value.sharers - {c} == s.entry.value.sharers;
    case InvalAck(c, _) => InvalidateDirty(s.entry.value, s.flight, c);
    case _ => DirtyGetsDirtyAck(s, m);
  }

  lemma ReplyBalance(s: Line, d: bool, m: Reply)
    requires Inv(s) && Enabled(s, Receive(m)) && !Aborts(s, Receive(m)) && DirtyInv(s.entry, d) && Honest(d, Receive(m))
    requires !Untimely(s, Receive(m))
    ensures (if Loses(s, d, Receive(m)) then 1 else 0)
            + InDanger(OnReply(s.entry, m).entry, DirtyAfter(s, d, Receive(m)))
         == InDanger(s.entry, d) + (if Exposes(s, d, Receive(m)) then 1 else 0)
  {
    RepliesNeverProbe(s.entry, m);
    if d {
      ReplyToDirty(s, m);
      if s.entry.value.state.TrToI? && !Careless(s.entry.value, Receive(m)) { StaysInDanger(s, m); }
    }
  }

  /** A step loses data or puts it in danger exactly when it exposes it, and what is in danger stays there until it is
      lost. */
  lemma StepBalance(s: Line, d: bool, l: Label)
    requires Inv(s) && Enabled(s, l) && !Aborts(s, l) && !Untimely(s, l) && DirtyInv(s.entry, d) && Honest(d, l)
    ensures (if Loses(s, d, l) then 1 else 0) + InDanger(Next(s, l).entry, DirtyAfter(s, d, l))
         == InDanger(s.entry, d) + (if Exposes(s, d, l) then 1 else 0)
  {
    match l
    case Deliver(_) =>
    case Handle(r) =>
      if d { RequestToDirty(s.entry.value, s.flight, r); } else { RequestToClean(s.entry, s.flight, r); }
    case Receive(m) => ReplyBalance(s, d, m);
  }

  lemma {:induction false} RunBalance(s: Line, d: bool, ls: seq<Label>) returns (d': bool)
    requires Inv(s) && DirtyInv(s.entry, d) && Truthful(s, d, ls)
    ensures Completes(s, ls) && Inv(Final(s, ls)) && DirtyInv(Final(s, ls).entry, d')
    ensures Losses(s, d, ls) + InDanger(Final(s, ls).entry, d') == InDanger(s.entry, d) + Exposures(s, d, ls)
    decreases |ls|
  {
    d' := d;
    if ls != [] {
      StepKeepsInvariant(s, ls[0]);
      DirtyStep(s, d, ls[0]);
      StepBalance(s, d, ls[0]);
      d' := RunBalance(Next(s, ls[0]), DirtyAfter(s, d, ls[0]), ls[1..]);
    }
  }

  /** When a run is quiet, the newest data of the line has been lost exactly as often as it was exposed.  In particular
      it was never lost if and only if no active request found the line modified and no owner evicted it while another
      writer was waiting for it. */
  lemma LostAsOftenAsExposed(ls: seq<Label>)
    requires Truthful(INITIAL, false, ls) && Completes(INITIAL, ls) && Final(INITIAL, ls).flight == multiset{}
    ensures Losses(INITIAL, false, ls) == Exposures(INITIAL, false, ls)
  {
    var d := RunBalance(INITIAL, false, ls);
    Idle(Final(INITIAL, ls));
  }
}
