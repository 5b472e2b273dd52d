/** The directory as the simulator runs it: a table of entries, two event lists, two queues, and one
    message handled per call.  Each handler is proved against `Coherence`; the calls are proved to find a
    message whenever the event kernel makes them, and to extend the run of the line they touch. */
module DirectoryUnit {
  import opened Basics
  import opened Coherence
  import opened CoherenceProtocol
  import opened DirectoryRuns
  import opened EventLists
  import opened Numbers

  class Directory {
    const interval: nat
    const slowdown: nat         // spinning_slowdown: an active request retries after that many intervals
    const caches: set<Cache>    // every L2 of the machine
    const limitless: bool
    const threshold: nat

    var dir: map<nat, Entry>
    var reqEvents: Events<For<Req>>
    var repEvents: Events<For<Reply>>
    var reqQ: seq<For<Req>>
    var repQ: seq<For<Reply>>

    /** The times at which the event kernel holds this directory, and the time of its last call. */
    var wake: set<nat>
    var lastRun: nat

    /** What has happened to each line so far. */
    ghost var lines: map<nat, History>

    ghost predicate Busy()
      reads this`reqQ, this`repQ
    {
      reqQ != [] || repQ != []
    }

    ghost function View(): Snapshot
      reads this`dir, this`reqQ, this`repQ, this`reqEvents, this`repEvents, this`lines
    {
      Snapshot(dir, reqQ, reqEvents, repQ, repEvents, lines)
    }

    /** Whoever is listed or has a request here is an L2 of the machine. */
    ghost predicate Listed()
      reads this`dir, this`reqQ, this`reqEvents
    {
      AllKnown(dir, caches) && FromCaches(reqQ, reqEvents, caches)
    }

    ghost predicate Valid()
      reads this`dir, this`reqQ, this`repQ, this`reqEvents, this`repEvents, this`wake, this`lastRun
    {
      Scheduled() && Listed()
    }

    ghost predicate Scheduled()
      reads this`reqQ, this`repQ, this`reqEvents, this`repEvents, this`wake, this`lastRun
    {
      && interval > 0 && slowdown > 0
      && lastRun % interval == 0
      && Proper(reqEvents) && Proper(repEvents)
      && reqEvents.Keys <= wake && repEvents.Keys <= wake
      && (Busy() ==> lastRun + interval in wake)
      && (forall t :: t in wake ==> t >= lastRun && t % interval == 0)
      && (forall t :: t in wake ==> t in reqEvents || t in repEvents || (t == lastRun + interval && Busy()))
    }

    constructor (interval: nat, slowdown: nat, caches: set<Cache>, limitless: bool, threshold: nat)
      requires interval > 0 && slowdown > 0
      ensures Valid() && View() == EMPTY && Coherent(View())
      ensures this.interval == interval && this.slowdown == slowdown && this.caches == caches
      ensures this.limitless == limitless && this.threshold == threshold
    {
      this.interval, this.slowdown, this.caches := interval, slowdown, caches;
      this.limitless, this.threshold := limitless, threshold;
      dir, reqEvents, repEvents, reqQ, repQ := map[], map[], map[], [], [];
      wake, lastRun, lines := {}, 0, map[];
      new;
      EmptyIsCoherent();
    }

    /** Puts a request on the list of those that are due later. */
    method Enqueue(time: nat, x: For<Req>)
      requires Scheduled() && time >= lastRun
      modifies this`reqEvents, this`wake
      ensures Scheduled()
      ensures reqEvents == Add(old(reqEvents), AlignUp(time, interval), x)
      ensures wake == old(wake) + {AlignUp(time, interval)}
    {
      var t := time;
      if t % interval != 0 {
        RoundedUp(t, interval);
        t := t + interval - t % interval;
      }
      wake := wake + {t};
      reqEvents := Add(reqEvents, t, x);
    }

    method EnqueueReply(time: nat, x: For<Reply>)
      requires Scheduled() && time >= lastRun
      modifies this`repEvents, this`wake
      ensures Scheduled()
      ensures repEvents == Add(old(repEvents), AlignUp(time, interval), x)
      ensures wake == old(wake) + {AlignUp(time, interval)}
    {
      var t := time;
      if t % interval != 0 {
        RoundedUp(t, interval);
        t := t + interval - t % interval;
      }
      wake := wake + {t};
      repEvents := Add(repEvents, t, x);
    }

    /** A request arrives from an L2. */
    method AddReqEvent(time: nat, x: For<Req>)
      requires Valid() && time >= lastRun && x.body.from in caches
      modifies this`reqEvents, this`wake, this`lines
      ensures Valid() && wake == old(wake) + {AlignUp(time, interval)}
      ensures Asked(old(View()), View(), AlignUp(time, interval), x)
      ensures Coherent(old(View())) ==> Coherent(View())
    {
      hide Coherent, Tracked, FromCaches, Moved;
      AddedFromCaches(reqQ, reqEvents, caches, AlignUp(time, interval), x);
      Enqueue(time, x);
      lines := Moved(lines, x.line, Deliver(x.body));
      AskKeepsCoherent(old(View()), View(), AlignUp(time, interval), x);
    }

    /** A reply arrives. */
    method AddRepEvent(time: nat, x: For<Reply>)
      requires Valid() && time >= lastRun
      modifies this`repEvents, this`wake
      ensures Valid() && wake == old(wake) + {AlignUp(time, interval)}
      ensures Told(old(View()), View(), AlignUp(time, interval), x)
      ensures Coherent(old(View())) && Matching(old(View()), x) ==> Coherent(View())
    {
      EnqueueReply(time, x);
      if Matching(old(View()), x) {
        TellKeepsCoherent(old(View()), View(), AlignUp(time, interval), x);
      }
    }

    // -------------------------------------------------------------- one message per call

    /** Pops the oldest reply, queueing whatever else is due. */
    method TakeReply(now: nat) returns (x: Option<For<Reply>>)
      modifies this`repEvents, this`repQ
      ensures repEvents == Erase(old(repEvents), now)
      ensures
        var all := old(repQ) + At(old(repEvents), now);
        if all == [] then x.None? && repQ == [] else x == Some(all[0]) && repQ == all[1..]
    {
      hide Erase;
      var due := At(repEvents, now);
      ghost var all := repQ + due;
      var i := 0;
      x := None;
      if repQ != [] {
        x := Some(repQ[0]);
        repQ := repQ[1..];
      } else if due != [] {
        x := Some(due[0]);
        i := 1;
      }
      while i < |due|
        invariant 0 <= i <= |due|
        invariant repEvents == old(repEvents)
        invariant repQ + due[i..] == if all == [] then [] else all[1..]
      {
        repQ := repQ + [due[i]];
        i := i + 1;
      }
      repEvents := Erase(repEvents, now);
    }

    /** Queues the requests that are due. */
    method QueueRequests(now: nat)
      modifies this`reqEvents, this`reqQ
      ensures reqEvents == Erase(old(reqEvents), now)
      ensures reqQ == old(reqQ) + At(old(reqEvents), now)
    {
      var due := At(reqEvents, now);
      var i := 0;
      while i < |due|
        invariant 0 <= i <= |due|
        invariant reqEvents == old(reqEvents)
        invariant reqQ == old(reqQ) + due[..i]
      {
        reqQ := reqQ + [due[i]];
        i := i + 1;
      }
      reqEvents := Erase(reqEvents, now);
    }

    /** A call made at a scheduled time finds something to do. */
    lemma SomethingToDo(now: nat)
      requires Scheduled() && now in wake
      ensures Busy() || At(repEvents, now) != [] || At(reqEvents, now) != []
    {
    }

    /** Picks the message of this call: replies before requests, each in order of arrival. */
    method Choose(now: nat) returns (w: Work)
      requires Busy() || At(repEvents, now) != [] || At(reqEvents, now) != []
      modifies this`repEvents, this`repQ, this`reqEvents, this`reqQ
      ensures repEvents == Erase(old(repEvents), now) && reqEvents == Erase(old(reqEvents), now)
      ensures Picked(old(repQ) + At(old(repEvents), now), old(reqQ) + At(old(reqEvents), now), w, repQ, reqQ)
    {
      var reply := TakeReply(now);
      QueueRequests(now);
      if reply.Some? {
        w := ReplyWork(reply.value);
      } else {
        assert reqQ != [];  // where the simulator aborts if a call finds nothing to do
        w := RequestWork(reqQ[0]);
        reqQ := reqQ[1..];
      }
    }

    /** After a call at `now` nothing older is scheduled. */
    lemma NothingBefore(now: nat)
      requires Scheduled() && now in wake && forall t :: t in wake ==> now <= t
      ensures now == lastRun || !Busy() || now == lastRun + interval
      ensures now % interval == 0 && now >= lastRun
    {
      if now > lastRun && Busy() && now < lastRun + interval { AlignedNeighbours(lastRun, now, interval); }
    }

    /** Takes the message of this call, and schedules the next call if there is more to do. */
    method Take(now: nat) returns (w: Work)
      requires Scheduled() && now in wake && forall t :: t in wake ==> now <= t
      modifies this`repEvents, this`repQ, this`reqEvents, this`reqQ, this`wake, this`lastRun
      ensures Scheduled() && lastRun == now
      ensures repEvents == Erase(old(repEvents), now) && reqEvents == Erase(old(reqEvents), now)
      ensures Picked(old(repQ) + At(old(repEvents), now), old(reqQ) + At(old(reqEvents), now), w, repQ, reqQ)
    {
      SomethingToDo(now);
      NothingBefore(now);
      w := Choose(now);
      AlignedSum(now, interval, interval);
      wake := wake - {now};
      lastRun := now;
      if reqQ != [] || repQ != [] {
        wake := wake + {now + interval};
      }
    }

    // -------------------------------------------------------------- replies

    method Evicted(line: nat, c: Cache) returns (o: Outcome)
      modifies this`dir
      ensures o == OnReply(Find(old(dir), line), Evict(c)) && Handled(old(dir), dir, line, o)
    {
      if line !in dir { return Quiet(None); }
      var e := dir[line];
      if e.state.Modified? || e.state.MToS? {
        if |e.sharers| > 1 { return Failed; }
        if c !in e.sharers { return Quiet(Some(e)); }
        if e.state.Modified? {
          dir := dir - {line};
        } else {
          dir := dir[line := e.(sharers := e.sharers - {c})];
        }
        return Done(Find(dir, line), NOTHING, None, false, true);
      } else if e.state.TrToS? {
        dir := dir[line := e.(sharers := e.sharers - {c})];
      } else if !e.state.TrToM? {
        dir := dir[line := e.(sharers := e.sharers - {c})];
        if dir[line].sharers == {} { dir := dir - {line}; }
      }
      return Quiet(Find(dir, line));
    }

    method Upgraded(line: nat, c: Cache, lost: bool) returns (o: Outcome)
      modifies this`dir
      ensures o == OnReply(Find(old(dir), line), if lost then UpgradeLost(c) else UpgradeDone(c))
      ensures Handled(old(dir), dir, line, o)
    {
      if line !in dir { return Quiet(None); }
      var e := dir[line];
      if !e.state.TrToM? { return Failed; }
      if lost {
        dir := dir - {line};
      } else {
        dir := dir[line := e.(state := Modified, pending := None)];
      }
      return Quiet(Find(dir, line));
    }

    method Invalidated(line: nat, c: Cache, data: bool) returns (o: Outcome)
      modifies this`dir
      ensures o == OnReply(Find(old(dir), line), InvalAck(c, data)) && Handled(old(dir), dir, line, o)
    {
      if line !in dir { return Quiet(None); }
      var e := dir[line];
      if !e.state.TrToM? && !e.state.TrToI? { return Failed; }
      e := e.(gotLine := data || e.gotLine, sharers := e.sharers - {c});
      if e.pending.None? { return Failed; }
      var r := e.pending.value;
      var launched, answer := NOTHING, None;
      if e.sharers == {} {
        if r.kind.Active? {
          dir := dir - {line};
          return Done(None, NOTHING, Some(Answer(r, Offload)), false, false);
        }
        e := e.(sharers := {r.from});
        if e.gotLine {
          answer := Some(Answer(r, Fill));
          e := e.(state := Modified, gotLine := false);
        } else {
          launched := multiset{MemoryRead(r)};
        }
        e := e.(pending := None);
      }
      dir := dir[line := e];
      return Done(Some(e), launched, answer, false, false);
    }

    method ShareReturned(line: nat, data: bool, dirty: bool) returns (o: Outcome)
      modifies this`dir
      ensures o == OnShared(Find(old(dir), line), data, dirty) && Handled(old(dir), dir, line, o)
    {
      if line !in dir || !(dir[line].state.TrToS? || dir[line].state.MToS?) || dir[line].pending.None? {
        return Failed;
      }
      var e := dir[line].(state := Shared);
      var r := e.pending.value;
      e := e.(pending := None);
      if !data {
        if e.sharers == {} {
          dir := dir - {line};
        } else {
          dir := dir[line := e];
        }
        return Done(Find(dir, line), NOTHING, Some(Answer(r, Nack)), false, false);
      }
      e := e.(sharers := e.sharers + {r.from});
      dir := dir[line := e];
      return Done(Some(e), NOTHING, Some(Answer(r, Fill)), false, dirty);
    }

    method Filled(line: nat, r: Req) returns (o: Outcome)
      modifies this`dir
      ensures o == OnReply(Find(old(dir), line), MemoryData(r)) && Handled(old(dir), dir, line, o)
    {
      if line in dir {
        if dir[line].state.TrToE? {
          dir := dir[line := dir[line].(state := Exclusive)];
        } else if dir[line].state.TrToM? {
          dir := dir[line := dir[line].(state := Modified)];
        }
      }
      return Done(Find(dir, line), NOTHING, Some(Answer(r, Fill)), false, false);
    }

    method HandleReply(line: nat, m: Reply) returns (o: Outcome)
      modifies this`dir
      ensures o == OnReply(Find(old(dir), line), m) && Handled(old(dir), dir, line, o)
    {
      match m
      case Evict(c) => o := Evicted(line, c);
      case UpgradeDone(c) => o := Upgraded(line, c, false);
      case UpgradeLost(c) => o := Upgraded(line, c, true);
      case InvalAck(c, data) => o := Invalidated(line, c, data);
      case ShareAck(c, data) => o := ShareReturned(line, data, false);
      case DirtyAck(c, data) => o := ShareReturned(line, data, true);
      case MemoryData(r) => o := Filled(line, r);
    }

    // -------------------------------------------------------------- requests

    /** Invalidates every sharer, in the broadcast form when there are many. */
    method SendInvalidations(sharers: set<Cache>) returns (launched: multiset<Flight>)
      requires limitless ==> sharers <= caches
      ensures launched == Invalidations(sharers)
    {
      launched := multiset{};
      var todo := if limitless && threshold < |sharers| then caches else sharers;
      ghost var done := {};
      assert launched == Invalidations(done);
      while todo != {}
        invariant launched == Invalidations(done)
        invariant done !! todo && done <= sharers <= done + todo
        decreases |todo|
      {
        var c :| c in todo;
        todo := todo - {c};
        if c in sharers {  // the others are sent `et_nop`
          AddInvalidation(done, c);
          launched := launched + multiset{InvalProbe(c)};
          done := done + {c};
        }
      }
      assert done == sharers;
    }

    method FirstSharer(sharers: set<Cache>) returns (c: Cache)
      requires sharers != {}
      ensures c == First(sharers)
    {
      ghost var least := LeastOf(sharers);
      c :| c in sharers && forall x :: x in sharers ==> c <= x;
    }

    method Park(line: nat, e: Entry, launched: multiset<Flight>) returns (o: Outcome)
      requires line in dir
      modifies this`dir
      ensures o == Done(Some(e), launched, None, false, false) && Handled(old(dir), dir, line, o)
    {
      dir := dir[line := e];
      return Done(Some(e), launched, None, false, false);
    }

    method ReadRequested(line: nat, r: Req) returns (o: Outcome)
      requires line in dir && !Transient(dir[line].state)
      modifies this`dir
      ensures o == OnRead(old(dir)[line], r) && Handled(old(dir), dir, line, o)
    {
      var e := dir[line];
      if r.from in e.sharers { return Reject(Some(e), r); }
      if e.sharers == {} { return Failed; }
      var c := FirstSharer(e.sharers);
      if !e.state.Shared? && |e.sharers| != 1 { return Failed; }
      if e.state.Modified? {
        o := Park(line, e.(state := MToS, pending := Some(r)), multiset{DirtyProbe(c)});
      } else {
        o := Park(line, e.(state := TrToS, pending := Some(r)), multiset{ShareProbe(c)});
      }
    }

    method WriteRequested(line: nat, r: Req) returns (o: Outcome)
      requires line in dir && !Transient(dir[line].state) && (limitless ==> dir[line].sharers <= caches)
      modifies this`dir
      ensures o == OnWrite(old(dir)[line], r) && Handled(old(dir), dir, line, o)
    {
      var e := dir[line];
      match e.state
      case Exclusive =>
        if |e.sharers| != 1 { return Failed; }
        if r.from in e.sharers {
          dir := dir[line := e.(state := TrToM)];
          return Done(Some(dir[line]), multiset{UpgradeGrant(r.from)}, Some(Answer(r, Grant)), false, false);
        }
        var probes := SendInvalidations(e.sharers);
        o := Park(line, e.(state := TrToM, pending := Some(r), gotLine := false), probes);
      case Shared =>
        if e.sharers == {} { return Failed; }
        var probes := SendInvalidations(e.sharers);
        o := Park(line, e.(state := TrToM, pending := Some(r)), probes);
      case Modified =>
        if e.pending.Some? || |e.sharers| != 1 { return Failed; }
        if r.from in e.sharers { return Reject(Some(e), r); }
        var probes := SendInvalidations(e.sharers);
        o := Park(line, e.(state := TrToM, pending := Some(r)), probes);
    }

    method ActiveRequested(line: nat, r: Req) returns (o: Outcome)
      requires line in dir && !Transient(dir[line].state) && (limitless ==> dir[line].sharers <= caches)
      modifies this`dir
      ensures o == OnActive(old(dir)[line], r) && Handled(old(dir), dir, line, o)
    {
      var e := dir[line];
      if e.state.Shared? {
        if e.sharers == {} { return Failed; }
      } else if (e.state.Modified? && e.pending.Some?) || |e.sharers| != 1 {
        return Failed;
      }
      var probes := SendInvalidations(e.sharers);
      o := Park(line, e.(state := TrToI, pending := Some(r)), probes);
    }

    method HandleRequest(line: nat, r: Req) returns (o: Outcome)
      requires limitless && line in dir ==> dir[line].sharers <= caches
      modifies this`dir
      ensures o == OnRequest(Find(old(dir), line), r) && Handled(old(dir), dir, line, o)
    {
      if line !in dir {
        if r.kind.Active? { return Done(None, NOTHING, Some(Answer(r, Offload)), false, false); }
        dir := dir[line := Entry(if r.kind.Read? then TrToE else TrToM, {r.from}, None, false)];
        return Done(Some(dir[line]), multiset{MemoryRead(r)}, None, false, false);
      }
      var e := dir[line];
      if Transient(e.state) {
        if r.kind.Active? { return Done(Some(e), NOTHING, None, true, false); }
        return Reject(Some(e), r);
      }
      match r.kind
      case Read => o := ReadRequested(line, r);
      case Write => o := WriteRequested(line, r);
      case Active => o := ActiveRequested(line, r);
    }

    // -------------------------------------------------------------- one call

    /** Handles the message of this call. */
    method Dispatch(w: Work) returns (o: Outcome)
      requires AllKnown(dir, caches) && (w.RequestWork? ==> w.req.body.from in caches)
      modifies this`dir
      ensures AllKnown(dir, caches) && o == OutcomeOf(old(dir), w) && Handled(old(dir), dir, LineIn(w), o)
    {
      match w {
        case ReplyWork(x) => o := HandleReply(x.line, x.body);
        case RequestWork(x) => o := HandleRequest(x.line, x.body);
      }
      CallKnown(old(dir), dir, w, o, caches);
    }

    /** An active request that has to wait is tried again after `slowdown` intervals. */
    method Retry(w: Work, o: Outcome, now: nat)
      requires Scheduled() && now >= lastRun
      modifies this`reqEvents, this`wake
      ensures Scheduled()
      ensures reqEvents == if w.RequestWork? && o.Done? && o.retry
                           then Add(old(reqEvents), AlignUp(now + slowdown * interval, interval), w.req)
                           else old(reqEvents)
    {
      if w.RequestWork? && o.Done? && o.retry {
        Enqueue(now + slowdown * interval, w.req);
      }
    }

    /** Takes a message and handles it. */
    method TakeAndHandle(now: nat) returns (w: Work, o: Outcome)
      requires Valid() && now in wake && forall t :: t in wake ==> now <= t
      modifies this`dir, this`repEvents, this`repQ, this`reqEvents, this`reqQ, this`wake, this`lastRun
      ensures Scheduled() && Listed() && lastRun == now && (w.RequestWork? ==> w.req.body.from in caches)
      ensures repEvents == Erase(old(repEvents), now) && reqEvents == Erase(old(reqEvents), now)
      ensures Picked(old(repQ) + At(old(repEvents), now), old(reqQ) + At(old(reqEvents), now), w, repQ, reqQ)
      ensures o == OutcomeOf(old(dir), w) && Handled(old(dir), dir, LineIn(w), o)
    {
      w := Take(now);
      PickedFromCaches(old(reqQ), old(reqEvents), caches, now, old(repQ) + At(old(repEvents), now), w, repQ, reqQ);
      o := Dispatch(w);
    }

    /** One call of the event kernel: it takes the first message, handles it, and schedules what is left to do. */
    method Serve(now: nat) returns (w: Work, o: Outcome)
      requires Valid() && now in wake && forall t :: t in wake ==> now <= t
      modifies this
      ensures Valid() && lastRun == now
      ensures Called(old(View()), View(), now, AlignUp(now + slowdown * interval, interval), w, o)
    {
      hide OutcomeOf, Handled, Follow, Picked, FromCaches, AllKnown, AlignUp, Erase;
      w, o := TakeAndHandle(now);
      if w.RequestWork? {
        AddedFromCaches(reqQ, reqEvents, caches, AlignUp(now + slowdown * interval, interval), w.req);
      }
      Retry(w, o, now);
      lines := Follow(lines, w);
    }

    /** The same, with what it means for the lines: while all of them are consistent, the call neither aborts nor leaves
        one inconsistent, exactly if the message is no untimely eviction. */
    method ProcessEvent(now: nat) returns (w: Work, o: Outcome)
      requires Valid() && now in wake && forall t :: t in wake ==> now <= t
      modifies this
      ensures Valid() && lastRun == now
      ensures Called(old(View()), View(), now, AlignUp(now + slowdown * interval, interval), w, o)
      ensures Coherent(old(View())) ==> ((o.Done? && Coherent(View())) <==> !UntimelyWork(old(lines), w))
    {
      hide Called, Coherent, UntimelyWork, Directory.Scheduled, Directory.Listed;
      w, o := Serve(now);
      if Coherent(old(View())) {
        CallKeepsCoherent(old(View()), View(), now, AlignUp(now + slowdown * interval, interval), w, o);
      }
    }
  }

  lemma AddInvalidation(sharers: set<Cache>, c: Cache)
    requires c !in sharers
    ensures Invalidations(sharers + {c}) == Invalidations(sharers) + multiset{InvalProbe(c)}
  {
  }
}
