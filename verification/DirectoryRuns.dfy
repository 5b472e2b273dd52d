/** The directory's table and its waiting messages, line by line as runs of `CoherenceProtocol`. */
module DirectoryRuns {
  import opened Basics
  import opened Coherence
  import opened CoherenceProtocol
  import opened EventLists

  datatype For<T> = For(line: nat, body: T)

  datatype Work = ReplyWork(rep: For<Reply>) | RequestWork(req: For<Req>)

  function LineIn(w: Work): nat {
    match w
    case ReplyWork(x) => x.line
    case RequestWork(x) => x.line
  }

  /** The step of its line that handling a message is. */
  function StepOf(w: Work): (l: Label)
    ensures !l.Deliver?
  {
    match w
    case ReplyWork(x) => Receive(x.body)
    case RequestWork(x) => Handle(x.body)
  }

  function Find(dir: map<nat, Entry>, line: nat): Option<Entry> {
    if line in dir then Some(dir[line]) else None
  }

  /** Only the entry of `line` differs, and it is now `e`. */
  ghost predicate Stored(before: map<nat, Entry>, after: map<nat, Entry>, line: nat, e: Option<Entry>) {
    Find(after, line) == e && forall x :: x != line ==> Find(after, x) == Find(before, x)
  }

  ghost predicate Handled(before: map<nat, Entry>, after: map<nat, Entry>, line: nat, o: Outcome) {
    Stored(before, after, line, if o.Done? then o.entry else Find(before, line))
  }

  // ---------------------------------------------------------------- the run of every line

  /** What has happened to a line so far, and where it has led. */
  datatype History = History(run: seq<Label>, line: Line)

  ghost predicate OfRun(h: History) {
    Completes(INITIAL, h.run) && Final(INITIAL, h.run) == h.line
  }

  function HistoryOf(lines: map<nat, History>, x: nat): History {
    if x in lines then lines[x] else History([], INITIAL)
  }

  ghost function Extended(h: History, l: Label): History
    requires Enabled(h.line, l) && !Aborts(h.line, l)
  {
    History(h.run + [l], Next(h.line, l))
  }

  /** The histories after a step of line x. */
  ghost function Moved(lines: map<nat, History>, x: nat, l: Label): map<nat, History>
    requires Enabled(HistoryOf(lines, x).line, l) && !Aborts(HistoryOf(lines, x).line, l)
  {
    lines[x := Extended(HistoryOf(lines, x), l)]
  }

  lemma ExtendedOfRun(h: History, l: Label)
    requires OfRun(h) && Enabled(h.line, l) && !Aborts(h.line, l)
    ensures OfRun(Extended(h, l))
  {
    Then(INITIAL, h.run, l);
  }

  /** How many of the replies that wait for line x answer f. */
  function Answering(replies: multiset<For<Reply>>, x: nat, f: Flight): nat {
    match f
    case MemoryRead(r) => replies[For(x, MemoryData(r))]
    case ShareProbe(c) => replies[For(x, ShareAck(c, true))] + replies[For(x, ShareAck(c, false))]
    case DirtyProbe(c) => replies[For(x, DirtyAck(c, true))] + replies[For(x, DirtyAck(c, false))]
    case InvalProbe(c) => replies[For(x, InvalAck(c, true))] + replies[For(x, InvalAck(c, false))]
    case UpgradeGrant(c) => replies[For(x, UpgradeDone(c))] + replies[For(x, UpgradeLost(c))]
  }

  /** A reply more is an answer more to the message it answers, and to no other. */
  lemma OneMoreAnswer(replies: multiset<For<Reply>>, x: nat, m: Reply, y: nat, f: Flight)
    ensures Answering(replies + multiset{For(x, m)}, y, f)
         == Answering(replies, y, f) + if x == y then Answered(m)[f] else 0
  {
    if x == y {
      match f
      case MemoryRead(r) =>
      case ShareProbe(c) =>
      case DirtyProbe(c) =>
      case InvalProbe(c) =>
      case UpgradeGrant(c) =>
    }
  }

  /** The directory's entry, the requests and the replies that wait for one line are those of its run. */
  ghost predicate TracksLine(h: History, e: Option<Entry>, requests: multiset<For<Req>>,
                             replies: multiset<For<Reply>>, x: nat) {
    && OfRun(h) && h.line.entry == e
    && (forall r: Req :: h.line.queued[r] == requests[For(x, r)])
    && (forall f: Flight :: Answering(replies, x, f) <= h.line.flight[f])
  }

  ghost predicate Tracks(lines: map<nat, History>, dir: map<nat, Entry>, requests: multiset<For<Req>>,
                         replies: multiset<For<Reply>>) {
    forall x: nat {:trigger TracksLine(HistoryOf(lines, x), Find(dir, x), requests, replies, x)} ::
      TracksLine(HistoryOf(lines, x), Find(dir, x), requests, replies, x)
  }

  ghost predicate AllConsistent(lines: map<nat, History>) {
    forall x: nat {:trigger Inv(HistoryOf(lines, x).line)} :: Inv(HistoryOf(lines, x).line)
  }

  /** One line has a new history, the others are as they were. */
  lemma OneLineMoved(lines: map<nat, History>, x: nat, h: History, dir: map<nat, Entry>,
                     requests: multiset<For<Req>>, replies: multiset<For<Reply>>)
    requires TracksLine(h, Find(dir, x), requests, replies, x)
    requires forall y: nat :: y != x ==> TracksLine(HistoryOf(lines, y), Find(dir, y), requests, replies, y)
    ensures Tracks(lines[x := h], dir, requests, replies)
  {
    forall y: nat ensures TracksLine(HistoryOf(lines[x := h], y), Find(dir, y), requests, replies, y) {
      assert HistoryOf(lines[x := h], y) == if y == x then h else HistoryOf(lines, y);
    }
  }

  lemma NothingTracked()
    ensures Tracks(map[], map[], multiset{}, multiset{}) && AllConsistent(map[])
  {
  }

  lemma OtherLine(h: History, e: Option<Entry>, requests: multiset<For<Req>>, requests': multiset<For<Req>>,
                  replies: multiset<For<Reply>>, y: nat)
    requires TracksLine(h, e, requests, replies, y)
    requires forall r: Req :: requests'[For(y, r)] == requests[For(y, r)]
    ensures TracksLine(h, e, requests', replies, y)
  {
  }

  lemma LineDelivered(h: History, e: Option<Entry>, requests: multiset<For<Req>>, replies: multiset<For<Reply>>,
                      x: nat, r: Req)
    requires TracksLine(h, e, requests, replies, x)
    ensures TracksLine(Extended(h, Deliver(r)), e, requests + multiset{For(x, r)}, replies, x)
  {
    ExtendedOfRun(h, Deliver(r));
    var queued := Next(h.line, Deliver(r)).queued;
    forall q: Req ensures queued[q] == (requests + multiset{For(x, r)})[For(x, q)] {
      assert h.line.queued[q] == requests[For(x, q)];
    }
  }

  lemma LineHandled(h: History, e: Option<Entry>, requests: multiset<For<Req>>, replies: multiset<For<Reply>>, x: nat,
                    r: Req)
    requires TracksLine(h, e, requests + multiset{For(x, r)}, replies, x) && OnRequest(e, r).Done?
    ensures Enabled(h.line, Handle(r)) && !Aborts(h.line, Handle(r))
    ensures TracksLine(Extended(h, Handle(r)), OnRequest(e, r).entry,
                       if OnRequest(e, r).retry then requests + multiset{For(x, r)} else requests, replies, x)
  {
    var before := requests + multiset{For(x, r)};
    assert h.line.queued[r] == before[For(x, r)];
    ExtendedOfRun(h, Handle(r));
    var s := Next(h.line, Handle(r));
    var after := if OnRequest(e, r).retry then before else requests;
    forall q: Req ensures s.queued[q] == after[For(x, q)] {
      assert h.line.queued[q] == before[For(x, q)];
    }
    forall f: Flight ensures Answering(replies, x, f) <= s.flight[f] {
      assert Answering(replies, x, f) <= h.line.flight[f];
    }
  }

  /** A request arrives. */
  lemma RequestArrives(lines: map<nat, History>, dir: map<nat, Entry>, requests: multiset<For<Req>>,
                       replies: multiset<For<Reply>>, x: nat, r: Req)
    requires Tracks(lines, dir, requests, replies)
    ensures Tracks(Moved(lines, x, Deliver(r)), dir, requests + multiset{For(x, r)}, replies)
  {
    var after := requests + multiset{For(x, r)};
    assert TracksLine(HistoryOf(lines, x), Find(dir, x), requests, replies, x);
    LineDelivered(HistoryOf(lines, x), Find(dir, x), requests, replies, x, r);
    forall y: nat | y != x ensures TracksLine(HistoryOf(lines, y), Find(dir, y), after, replies, y) {
      assert TracksLine(HistoryOf(lines, y), Find(dir, y), requests, replies, y);
      OtherLine(HistoryOf(lines, y), Find(dir, y), requests, after, replies, y);
    }
    OneLineMoved(lines, x, Extended(HistoryOf(lines, x), Deliver(r)), dir, after, replies);
  }

  /** A reply arrives that answers something no waiting reply answers yet. */
  lemma ReplyArrives(lines: map<nat, History>, dir: map<nat, Entry>, requests: multiset<For<Req>>,
                     replies: multiset<For<Reply>>, x: nat, m: Reply)
    requires Tracks(lines, dir, requests, replies)
    requires forall f :: f in Answered(m) ==> Answering(replies, x, f) < HistoryOf(lines, x).line.flight[f]
    ensures Tracks(lines, dir, requests, replies + multiset{For(x, m)})
  {
    forall y: nat ensures TracksLine(HistoryOf(lines, y), Find(dir, y), requests, replies + multiset{For(x, m)}, y) {
      assert TracksLine(HistoryOf(lines, y), Find(dir, y), requests, replies, y);
      forall f: Flight ensures Answering(replies + multiset{For(x, m)}, y, f) <= HistoryOf(lines, y).line.flight[f] {
        OneMoreAnswer(replies, x, m, y, f);
        assert Answered(m)[f] <= 1;
      }
    }
  }

  /** A waiting reply answers a message that is in flight. */
  lemma WaitingIsEnabled(lines: map<nat, History>, dir: map<nat, Entry>, requests: multiset<For<Req>>,
                         replies: multiset<For<Reply>>, x: nat, m: Reply)
    requires Tracks(lines, dir, requests, replies + multiset{For(x, m)})
    ensures Enabled(HistoryOf(lines, x).line, Receive(m)) && HistoryOf(lines, x).line.entry == Find(dir, x)
  {
    var s := HistoryOf(lines, x).line;
    assert TracksLine(HistoryOf(lines, x), Find(dir, x), requests, replies + multiset{For(x, m)}, x);
    forall f: Flight ensures Answered(m)[f] <= s.flight[f] {
      OneMoreAnswer(replies, x, m, x, f);
    }
  }

  lemma FewerReplies(h: History, e: Option<Entry>, requests: multiset<For<Req>>, replies: multiset<For<Reply>>,
                     x: nat, m: Reply, y: nat)
    requires TracksLine(h, e, requests, replies + multiset{For(x, m)}, y)
    ensures TracksLine(h, e, requests, replies, y)
  {
    forall f: Flight ensures Answering(replies, y, f) <= h.line.flight[f] {
      OneMoreAnswer(replies, x, m, y, f);
    }
  }

  lemma LineReceived(h: History, e: Option<Entry>, requests: multiset<For<Req>>, replies: multiset<For<Reply>>,
                     x: nat, m: Reply)
    requires TracksLine(h, e, requests, replies + multiset{For(x, m)}, x) && OnReply(e, m).Done?
    requires Enabled(h.line, Receive(m))
    ensures TracksLine(Extended(h, Receive(m)), OnReply(e, m).entry, requests, replies, x)
  {
    ExtendedOfRun(h, Receive(m));
    var s := Next(h.line, Receive(m));
    forall f: Flight ensures Answering(replies, x, f) <= s.flight[f] {
      OneMoreAnswer(replies, x, m, x, f);
    }
  }

  /** A reply is handled. */
  lemma ReplyTracked(lines: map<nat, History>, dir: map<nat, Entry>, dir': map<nat, Entry>,
                     requests: multiset<For<Req>>, replies: multiset<For<Reply>>, x: nat, m: Reply)
    requires Tracks(lines, dir, requests, replies + multiset{For(x, m)}) && OnReply(Find(dir, x), m).Done?
    requires Handled(dir, dir', x, OnReply(Find(dir, x), m))
    ensures Enabled(HistoryOf(lines, x).line, Receive(m)) && !Aborts(HistoryOf(lines, x).line, Receive(m))
    ensures Tracks(Moved(lines, x, Receive(m)), dir', requests, replies)
  {
    WaitingIsEnabled(lines, dir, requests, replies, x, m);
    forall y: nat | y != x ensures TracksLine(HistoryOf(lines, y), Find(dir', y), requests, replies, y) {
      assert TracksLine(HistoryOf(lines, y), Find(dir, y), requests, replies + multiset{For(x, m)}, y);
      FewerReplies(HistoryOf(lines, y), Find(dir, y), requests, replies, x, m, y);
    }
    assert TracksLine(HistoryOf(lines, x), Find(dir, x), requests, replies + multiset{For(x, m)}, x);
    LineReceived(HistoryOf(lines, x), Find(dir, x), requests, replies, x, m);
    OneLineMoved(lines, x, Extended(HistoryOf(lines, x), Receive(m)), dir', requests, replies);
  }

  /** A request is handled, and goes back to the queue if it has to be retried. */
  lemma RequestTracked(lines: map<nat, History>, dir: map<nat, Entry>, dir': map<nat, Entry>,
                       requests: multiset<For<Req>>, replies: multiset<For<Reply>>, x: nat, r: Req)
    requires Tracks(lines, dir, requests + multiset{For(x, r)}, replies) && OnRequest(Find(dir, x), r).Done?
    requires Handled(dir, dir', x, OnRequest(Find(dir, x), r))
    ensures Enabled(HistoryOf(lines, x).line, Handle(r)) && !Aborts(HistoryOf(lines, x).line, Handle(r))
    ensures Tracks(Moved(lines, x, Handle(r)), dir',
                   if OnRequest(Find(dir, x), r).retry then requests + multiset{For(x, r)} else requests, replies)
  {
    var before := requests + multiset{For(x, r)};
    var after := if OnRequest(Find(dir, x), r).retry then before else requests;
    assert TracksLine(HistoryOf(lines, x), Find(dir, x), before, replies, x);
    LineHandled(HistoryOf(lines, x), Find(dir, x), requests, replies, x, r);
    forall y: nat | y != x ensures TracksLine(HistoryOf(lines, y), Find(dir', y), after, replies, y) {
      assert TracksLine(HistoryOf(lines, y), Find(dir, y), before, replies, y);
      OtherLine(HistoryOf(lines, y), Find(dir, y), before, after, replies, y);
    }
    OneLineMoved(lines, x, Extended(HistoryOf(lines, x), Handle(r)), dir', after, replies);
  }

  /** A step of one line keeps every line consistent exactly if it is timely. */
  lemma StepConsistent(lines: map<nat, History>, x: nat, l: Label)
    requires AllConsistent(lines) && Enabled(HistoryOf(lines, x).line, l)
    ensures (!Aborts(HistoryOf(lines, x).line, l) && AllConsistent(Moved(lines, x, l)))
       <==> !Untimely(HistoryOf(lines, x).line, l)
  {
    var s := HistoryOf(lines, x).line;
    StepKeepsInvariant(s, l);
    if !Aborts(s, l) {
      var lines' := Moved(lines, x, l);
      assert HistoryOf(lines', x).line == Next(s, l);
      if Inv(Next(s, l)) {
        forall y: nat ensures Inv(HistoryOf(lines', y).line) {
          assert Inv(HistoryOf(lines, y).line);
        }
      }
    }
  }

  /** A waiting request can be handled. */
  lemma RequestIsEnabled(lines: map<nat, History>, dir: map<nat, Entry>, requests: multiset<For<Req>>,
                         replies: multiset<For<Reply>>, x: nat, r: Req)
    requires Tracks(lines, dir, requests + multiset{For(x, r)}, replies)
    ensures Enabled(HistoryOf(lines, x).line, Handle(r)) && HistoryOf(lines, x).line.entry == Find(dir, x)
  {
    var before := requests + multiset{For(x, r)};
    assert TracksLine(HistoryOf(lines, x), Find(dir, x), before, replies, x);
    assert HistoryOf(lines, x).line.queued[r] == before[For(x, r)];
  }

  // ---------------------------------------------------------------- one call of the directory

  ghost function OutcomeOf(dir: map<nat, Entry>, w: Work): Outcome {
    match w
    case ReplyWork(x) => OnReply(Find(dir, x.line), x.body)
    case RequestWork(x) => OnRequest(Find(dir, x.line), x.body)
  }

  /** The message is taken off the waiting ones, unless it is a request that has to be retried. */
  ghost predicate Consumed(requests: multiset<For<Req>>, replies: multiset<For<Reply>>,
                           requests': multiset<For<Req>>, replies': multiset<For<Reply>>, w: Work, o: Outcome)
  {
    match w
    case ReplyWork(x) => replies == replies' + multiset{x} && requests' == requests
    case RequestWork(x) =>
      && replies' == replies && x in requests
      && requests' == if o.Done? && o.retry then requests else requests - multiset{x}
  }

  /** The histories after w has been handled. */
  ghost function Follow(lines: map<nat, History>, w: Work): map<nat, History> {
    var s := HistoryOf(lines, LineIn(w)).line;
    if Enabled(s, StepOf(w)) && !Aborts(s, StepOf(w)) then Moved(lines, LineIn(w), StepOf(w)) else lines
  }

  /** Handling w with outcome o is a step of its line. */
  ghost predicate IsStep(lines: map<nat, History>, w: Work, o: Outcome) {
    var s := HistoryOf(lines, LineIn(w)).line;
    Enabled(s, StepOf(w)) && o == Result(s, StepOf(w))
  }

  lemma CallTracked(lines: map<nat, History>, dir: map<nat, Entry>, dir': map<nat, Entry>,
                    requests: multiset<For<Req>>, replies: multiset<For<Reply>>,
                    requests': multiset<For<Req>>, replies': multiset<For<Reply>>, w: Work, o: Outcome)
    requires Tracks(lines, dir, requests, replies) && Consumed(requests, replies, requests', replies', w, o)
    requires o == OutcomeOf(dir, w) && Handled(dir, dir', LineIn(w), o)
    ensures IsStep(lines, w, o)
    ensures o.Done? ==> Tracks(Follow(lines, w), dir', requests', replies')
  {
    match w
    case ReplyWork(x) =>
      WaitingIsEnabled(lines, dir, requests, replies', x.line, x.body);
      if o.Done? { ReplyTracked(lines, dir, dir', requests, replies', x.line, x.body); }
    case RequestWork(x) =>
      var rest := requests - multiset{x};
      assert requests == rest + multiset{x};
      RequestIsEnabled(lines, dir, rest, replies, x.line, x.body);
      if o.Done? { RequestTracked(lines, dir, dir', rest, replies, x.line, x.body); }
  }

  /** While all lines are consistent, a call neither aborts nor leaves a line inconsistent, exactly if its message is no
      untimely eviction. */
  lemma CallConsistent(lines: map<nat, History>, w: Work, o: Outcome)
    requires AllConsistent(lines) && IsStep(lines, w, o)
    ensures (o.Done? && AllConsistent(Follow(lines, w))) <==> !Untimely(HistoryOf(lines, LineIn(w)).line, StepOf(w))
  {
    StepConsistent(lines, LineIn(w), StepOf(w));
  }

  // ---------------------------------------------------------------- who is listed

  /** Only L2 caches of the machine are listed, or have a request parked. */
  ghost predicate Known(e: Entry, caches: set<Cache>) {
    e.sharers <= caches && (e.pending.Some? ==> e.pending.value.from in caches)
  }

  lemma ReplyKnown(oe: Option<Entry>, m: Reply, caches: set<Cache>)
    requires (oe.Some? ==> Known(oe.value, caches)) && OnReply(oe, m).Done?
    ensures OnReply(oe, m).entry.Some? ==> Known(OnReply(oe, m).entry.value, caches)
  {
  }

  lemma RequestKnown(oe: Option<Entry>, r: Req, caches: set<Cache>)
    requires (oe.Some? ==> Known(oe.value, caches)) && r.from in caches && OnRequest(oe, r).Done?
    ensures OnRequest(oe, r).entry.Some? ==> Known(OnRequest(oe, r).entry.value, caches)
  {
  }

  ghost predicate AllKnown(dir: map<nat, Entry>, caches: set<Cache>) {
    forall x :: x in dir ==> Known(dir[x], caches)
  }

  lemma HandledKnown(dir: map<nat, Entry>, dir': map<nat, Entry>, line: nat, o: Outcome, caches: set<Cache>)
    requires AllKnown(dir, caches) && Handled(dir, dir', line, o)
    requires o.Done? && o.entry.Some? ==> Known(o.entry.value, caches)
    ensures AllKnown(dir', caches)
  {
    forall x | x in dir' ensures Known(dir'[x], caches) {
      assert Find(dir', x) == Some(dir'[x]);
      if x != line { assert Find(dir, x) == Some(dir'[x]); }
    }
  }

  lemma CallKnown(dir: map<nat, Entry>, dir': map<nat, Entry>, w: Work, o: Outcome, caches: set<Cache>)
    requires AllKnown(dir, caches) && o == OutcomeOf(dir, w) && Handled(dir, dir', LineIn(w), o)
    requires w.RequestWork? ==> w.req.body.from in caches
    ensures AllKnown(dir', caches)
  {
    if o.Done? {
      match w
      case ReplyWork(x) => ReplyKnown(Find(dir, x.line), x.body, caches);
      case RequestWork(x) => RequestKnown(Find(dir, x.line), x.body, caches);
    }
    HandledKnown(dir, dir', LineIn(w), o, caches);
  }

  // ---------------------------------------------------------------- the whole directory

  /** The directory between two calls: its table, its queues, and what has happened to each line. */
  datatype Snapshot = Snapshot(
    dir: map<nat, Entry>,
    reqQ: seq<For<Req>>, reqEvents: Events<For<Req>>,
    repQ: seq<For<Reply>>, repEvents: Events<For<Reply>>,
    lines: map<nat, History>)

  /** Table and queues are where the runs of the lines have led. */
  ghost predicate Tracked(s: Snapshot) {
    Tracks(s.lines, s.dir, Waiting(s.reqQ, s.reqEvents), Waiting(s.repQ, s.repEvents))
  }

  /** And every line is consistent with its messages in flight. */
  ghost predicate Coherent(s: Snapshot) {
    Tracked(s) && AllConsistent(s.lines)
  }

  /** A request arrives from an L2. */
  ghost predicate Asked(s: Snapshot, s': Snapshot, time: nat, x: For<Req>) {
    s' == s.(reqEvents := Add(s.reqEvents, time, x), lines := Moved(s.lines, x.line, Deliver(x.body)))
  }

  /** A reply arrives. */
  ghost predicate Told(s: Snapshot, s': Snapshot, time: nat, x: For<Reply>) {
    s' == s.(repEvents := Add(s.repEvents, time, x))
  }

  /** A reply answers a message that is in flight and that no waiting reply answers. */
  ghost predicate Matching(s: Snapshot, x: For<Reply>) {
    forall f :: f in Answered(x.body) ==>
      Answering(Waiting(s.repQ, s.repEvents), x.line, f) < HistoryOf(s.lines, x.line).line.flight[f]
  }

  /** Of the messages that are due, the first reply is taken, or the first request if there is none; the others stay. */
  predicate Picked(replies: seq<For<Reply>>, requests: seq<For<Req>>, w: Work, repQ: seq<For<Reply>>,
                   reqQ: seq<For<Req>>) {
    if replies != [] then w == ReplyWork(replies[0]) && repQ == replies[1..] && reqQ == requests
    else requests != [] && w == RequestWork(requests[0]) && repQ == [] && reqQ == requests[1..]
  }

  /** One call: a message is taken in order of arrival, replies before requests; it is handled, which changes its line
      only; and a request that has to be retried is due again at `again`. */
  ghost predicate Called(s: Snapshot, s': Snapshot, now: nat, again: nat, w: Work, o: Outcome) {
    && Picked(s.repQ + At(s.repEvents, now), s.reqQ + At(s.reqEvents, now), w, s'.repQ, s'.reqQ)
    && o == OutcomeOf(s.dir, w) && Handled(s.dir, s'.dir, LineIn(w), o)
    && s'.repEvents == Erase(s.repEvents, now)
    && s'.reqEvents == (if w.RequestWork? && o.Done? && o.retry then Add(Erase(s.reqEvents, now), again, w.req)
                        else Erase(s.reqEvents, now))
    && s'.lines == Follow(s.lines, w)
  }

  lemma CallConsumes(s: Snapshot, s': Snapshot, now: nat, again: nat, w: Work, o: Outcome)
    requires Called(s, s', now, again, w, o)
    ensures Consumed(Waiting(s.reqQ, s.reqEvents), Waiting(s.repQ, s.repEvents),
                     Waiting(s'.reqQ, s'.reqEvents), Waiting(s'.repQ, s'.repEvents), w, o)
  {
    DueQueued(s.repQ, s.repEvents, now);
    DueQueued(s.reqQ, s.reqEvents, now);
    if w.ReplyWork? {
      FirstTaken(s.repQ + At(s.repEvents, now), s'.repEvents);
    } else {
      FirstTaken(s.reqQ + At(s.reqEvents, now), Erase(s.reqEvents, now));
      if o.Done? && o.retry { WaitingAdded(s'.reqQ, Erase(s.reqEvents, now), again, w.req); }
    }
  }

  /** The message that a call handles is a step of the run of its line. */
  lemma CallFollows(s: Snapshot, s': Snapshot, now: nat, again: nat, w: Work, o: Outcome)
    requires Tracked(s) && Called(s, s', now, again, w, o)
    ensures IsStep(s.lines, w, o) && (o.Done? ==> Tracked(s'))
  {
    CallConsumes(s, s', now, again, w, o);
    CallTracked(s.lines, s.dir, s'.dir, Waiting(s.reqQ, s.reqEvents), Waiting(s.repQ, s.repEvents),
                Waiting(s'.reqQ, s'.reqEvents), Waiting(s'.repQ, s'.repEvents), w, o);
  }

  predicate UntimelyWork(lines: map<nat, History>, w: Work) {
    Untimely(HistoryOf(lines, LineIn(w)).line, StepOf(w))
  }

  /** While all lines are consistent, a call neither aborts nor leaves a line inconsistent, exactly if its message is no
      untimely eviction. */
  lemma CallKeepsCoherent(s: Snapshot, s': Snapshot, now: nat, again: nat, w: Work, o: Outcome)
    requires Coherent(s) && Called(s, s', now, again, w, o)
    ensures (o.Done? && Coherent(s')) <==> !UntimelyWork(s.lines, w)
  {
    CallFollows(s, s', now, again, w, o);
    CallConsistent(s.lines, w, o);
  }

  lemma AskKeepsCoherent(s: Snapshot, s': Snapshot, time: nat, x: For<Req>)
    requires Asked(s, s', time, x)
    ensures Tracked(s) ==> Tracked(s')
    ensures Coherent(s) ==> Coherent(s')
  {
    WaitingAdded(s.reqQ, s.reqEvents, time, x);
    if Tracked(s) {
      RequestArrives(s.lines, s.dir, Waiting(s.reqQ, s.reqEvents), Waiting(s.repQ, s.repEvents), x.line, x.body);
    }
    if Coherent(s) { StepConsistent(s.lines, x.line, Deliver(x.body)); }
  }

  lemma TellKeepsCoherent(s: Snapshot, s': Snapshot, time: nat, x: For<Reply>)
    requires Told(s, s', time, x) && Matching(s, x)
    ensures Tracked(s) ==> Tracked(s')
    ensures Coherent(s) ==> Coherent(s')
  {
    WaitingAdded(s.repQ, s.repEvents, time, x);
    if Tracked(s) {
      ReplyArrives(s.lines, s.dir, Waiting(s.reqQ, s.reqEvents), Waiting(s.repQ, s.repEvents), x.line, x.body);
    }
  }

  // ---------------------------------------------------------------- runs of the whole directory

  const EMPTY := Snapshot(map[], [], map[], [], map[], map[])

  datatype Event =
    | Ask(req: For<Req>, time: nat)
    | Tell(rep: For<Reply>, time: nat)
    | Call(now: nat, again: nat, w: Work, o: Outcome)

  /** What happens between two states: messages arrive, each reply answering something once, or a call is made, in which
      no eviction is untimely. */
  ghost predicate Happens(s: Snapshot, s': Snapshot, e: Event) {
    match e
    case Ask(x, time) => Asked(s, s', time, x)
    case Tell(x, time) => Told(s, s', time, x) && Matching(s, x)
    case Call(now, again, w, o) => Called(s, s', now, again, w, o) && !UntimelyWork(s.lines, w)
  }

  ghost predicate DirectoryRun(states: seq<Snapshot>, events: seq<Event>) {
    && |states| == |events| + 1 && states[0] == EMPTY
    && forall i :: 0 <= i < |events| ==> Happens(states[i], states[i+1], events[i])
  }

  lemma EventKeepsCoherent(s: Snapshot, s': Snapshot, e: Event)
    requires Coherent(s) && Happens(s, s', e)
    ensures Coherent(s') && (e.Call? ==> e.o.Done?)
  {
    match e
    case Ask(x, time) => AskKeepsCoherent(s, s', time, x);
    case Tell(x, time) => TellKeepsCoherent(s, s', time, x);
    case Call(now, again, w, o) => CallKeepsCoherent(s, s', now, again, w, o);
  }

  lemma EmptyIsCoherent()
    ensures Coherent(EMPTY)
  {
    NothingTracked();
    assert Waiting(EMPTY.reqQ, EMPTY.reqEvents) == multiset{} && Waiting(EMPTY.repQ, EMPTY.repEvents) == multiset{};
  }

  /** Whatever messages arrive, and for any number of lines: every line stays consistent with its messages in flight. */
  lemma {:induction false} DirectoryIsSafe(states: seq<Snapshot>, events: seq<Event>, i: nat)
    requires DirectoryRun(states, events) && i < |states|
    ensures Coherent(states[i])
  {
    hide Coherent, Happens;
    if i == 0 {
      EmptyIsCoherent();
    } else {
      DirectoryIsSafe(states, events, i - 1);
      assert Happens(states[i-1], states[i], events[i-1]);
      EventKeepsCoherent(states[i-1], states[i], events[i-1]);
    }
  }

  /** No call of such a run aborts. */
  lemma NoCallAborts(states: seq<Snapshot>, events: seq<Event>, i: nat)
    requires DirectoryRun(states, events) && i < |events| && events[i].Call?
    ensures events[i].o.Done?
  {
    hide Coherent, Happens;
    DirectoryIsSafe(states, events, i);
    assert Happens(states[i], states[i+1], events[i]);
    EventKeepsCoherent(states[i], states[i+1], events[i]);
  }

  // ---------------------------------------------------------------- what the queues hold

  /** Every waiting request comes from an L2 of the machine. */
  ghost predicate FromCaches(reqQ: seq<For<Req>>, reqEvents: Events<For<Req>>, caches: set<Cache>) {
    && (forall i :: 0 <= i < |reqQ| ==> reqQ[i].body.from in caches)
    && (forall t, i :: t in reqEvents && 0 <= i < |reqEvents[t]| ==> reqEvents[t][i].body.from in caches)
  }

  lemma AddedFromCaches(reqQ: seq<For<Req>>, reqEvents: Events<For<Req>>, caches: set<Cache>, t: nat, x: For<Req>)
    requires FromCaches(reqQ, reqEvents, caches) && x.body.from in caches
    ensures FromCaches(reqQ, Add(reqEvents, t, x), caches)
  {
  }

  lemma PickedFromCaches(reqQ: seq<For<Req>>, reqEvents: Events<For<Req>>, caches: set<Cache>, now: nat,
                         replies: seq<For<Reply>>, w: Work, repQ': seq<For<Reply>>, reqQ': seq<For<Req>>)
    requires FromCaches(reqQ, reqEvents, caches)
    requires Picked(replies, reqQ + At(reqEvents, now), w, repQ', reqQ')
    ensures FromCaches(reqQ', Erase(reqEvents, now), caches)
    ensures w.RequestWork? ==> w.req.body.from in caches
  {
    var all := reqQ + At(reqEvents, now);
    assert forall i :: 0 <= i < |all| ==> all[i].body.from in caches;
  }
}
