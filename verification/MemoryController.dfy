/** The memory controller as the simulator runs it: fields updated in place, loops over the request
    list, and data-bus tables from which past slots are dropped.  Every call is one `Tick` of `Dram`, and the controller
    keeps the ghost run of these ticks, so that every theorem about runs is one about the controller. */
module MemoryControllerUnit {
  import opened Basics
  import opened Dram
  import opened EventLists
  import opened Numbers
  import opened DramScheduling
  import DramTiming

  /** Two bus tables hold the same slots from a time on. */
  ghost predicate Agree(a: map<nat, Dir>, b: map<nat, Dir>, from: nat) {
    forall t :: t >= from ==> (t in a <==> t in b) && (t in a && t in b ==> a[t] == b[t])
  }

  ghost predicate AgreeSets(a: set<nat>, b: set<nat>, from: nat) {
    forall t :: t >= from ==> (t in a <==> t in b)
  }

  ghost predicate SameFrom(a: Mc, b: Mc, from: nat) {
    && a == b.(bus := a.bus, rdBus := a.rdBus, wrBus := a.wrBus)
    && Agree(a.bus, b.bus, from) && AgreeSets(a.rdBus, b.rdBus, from) && AgreeSets(a.wrBus, b.wrBus, from)
  }

  lemma LaterAgrees(a: Mc, b: Mc, from: nat, later: nat)
    requires SameFrom(a, b, from) && from <= later
    ensures SameFrom(a, b, later)
  {
  }

  lemma ColumnAgrees(c: Config, a: Mc, b: Mc, rank: nat, dir: Dir, now: nat)
    requires SameFrom(a, b, now) && rank < |a.ranks|
    ensures ColumnAllowed(c, a, rank, dir, now) == ColumnAllowed(c, b, rank, dir, now)
  {
    BusAgrees(c, a, b, dir, now);
    TurnaroundAgrees(c, a, b, Wr, c.wrbub, now);
    TurnaroundAgrees(c, a, b, Rd, c.rwbub, now);
  }

  lemma BusAgrees(c: Config, a: Mc, b: Mc, dir: Dir, now: nat)
    requires SameFrom(a, b, now)
    ensures BusFree(c, a, dir, now) == BusFree(c, b, dir, now)
  {
  }

  lemma TurnaroundAgrees(c: Config, a: Mc, b: Mc, other: Dir, bubble: nat, now: nat)
    requires SameFrom(a, b, now)
    ensures Turnaround(c, a, other, bubble, now) == Turnaround(c, b, other, bubble, now)
  {
  }

  lemma {:induction false} BurstAgrees(c: Config, a: map<nat, Dir>, b: map<nat, Dir>, dir: Dir, now: nat, n: nat)
    requires Agree(a, b, now)
    ensures Agree(BurstInto(c, a, dir, now, n), BurstInto(c, b, dir, now, n), now)
  {
    if n > 0 { BurstAgrees(c, a, b, dir, now, n - 1); }
  }

  /** Issuing a command, with and without the dropped slots, gives states that agree again. */
  lemma IssueAgrees(c: Config, a: Mc, b: Mc, cmd: Cmd)
    requires SameFrom(a, b, cmd.time) && cmd.place in a.banks && cmd.place.rank < |a.ranks|
    ensures SameFrom(Issue(c, a, cmd), Issue(c, b, cmd), cmd.time)
  {
    if cmd.Col? { BurstAgrees(c, a.bus, b.bus, cmd.dir, cmd.time, c.bl); }
  }

  lemma ServiceAgrees(c: Config, a: Mc, b: Mc, i: nat, now: nat)
    requires SameFrom(a, b, now) && i < |a.queue| && WellFormed(a) && WellFormed(b)
    ensures SameFrom(Service(c, a, i, now), Service(c, b, i, now), now)
  {
    assert Known(a, a.queue[i]);
    assert Reused(c, a, i) == Reused(c, b, i);
    IssueAgrees(c, a, b, Command(c, a, i, now));
  }

  // ---------------------------------------------------------------- the loops

  method Record(c: Config, bus: map<nat, Dir>, dir: Dir, now: nat) returns (r: map<nat, Dir>, slots: set<nat>)
    ensures r == BurstInto(c, bus, dir, now, c.bl) && slots == Slots(c, now, c.bl)
  {
    r, slots := bus, {};
    for j := 0 to c.bl
      invariant r == BurstInto(c, bus, dir, now, j) && slots == Slots(c, now, j)
    {
      var t := Slot(c, now, j);
      if t !in r { r := r[t := dir]; }
      slots := slots + {t};
    }
  }

  method FindReuse(c: Config, mc: Mc, i: nat) returns (found: bool)
    requires i < |mc.queue|
    ensures found == Reused(c, mc, i)
  {
    found := false;
    var k := i + 1;
    while k < |mc.queue| && k < c.window
      invariant i < k && (k <= Reach(c, mc) || k == i + 1)
      invariant forall j :: i < j < k && j < Reach(c, mc) ==>
        mc.queue[j].place != mc.queue[i].place || mc.queue[j].page != mc.queue[i].page
    {
      if mc.queue[k].place == mc.queue[i].place && mc.queue[k].page == mc.queue[i].page {
        found := true;
        return;
      }
      k := k + 1;
    }
  }

  method FindRival(c: Config, mc: Mc, i: nat) returns (found: bool)
    requires i < |mc.queue| && WellFormed(mc)
    ensures found == RowWanted(c, mc, i)
  {
    found := false;
    var p := mc.queue[i].place;
    assert Known(mc, mc.queue[i]);
    var k := 0;
    while k < |mc.queue| && k < c.window
      invariant 0 <= k && (k <= Rivals(c, mc, i) || (k == 0 && Rivals(c, mc, i) < 0))
      invariant forall j :: 0 <= j < k && j != i ==> mc.queue[j].place != p || mc.queue[j].page != mc.banks[p].page
    {
      if i <= mc.batchLast && k > mc.batchLast { return; }
      if k != i && mc.queue[k].place == p && mc.queue[k].page == mc.banks[p].page {
        found := true;
        return;
      }
      k := k + 1;
    }
  }

  method BusIsFree(c: Config, mc: Mc, dir: Dir, now: nat) returns (free: bool)
    ensures free == BusFree(c, mc, dir, now)
  {
    var lo, hi := now + c.cl, now + c.cl + c.bl * c.interval;
    if !c.fullDuplex {
      free := forall t :: t in mc.bus ==> !(lo <= t < hi);
    } else if dir.Rd? {
      free := forall t :: t in mc.rdBus ==> !(lo <= t < hi);
    } else {
      free := forall t :: t in mc.wrBus ==> !(lo <= t < hi);
    }
  }

  method MustTurn(c: Config, mc: Mc, other: Dir, bubble: nat, now: nat) returns (turn: bool)
    ensures turn == Turnaround(c, mc, other, bubble, now)
  {
    var lo := now + c.cl;
    turn := !c.fullDuplex && lo >= bubble &&
      exists t :: t in mc.bus && now <= t && lo - bubble <= t < lo && mc.bus[t] == other;
  }

  /** The scan's progress: the requests before i have been looked at and c is the best of them. */
  ghost predicate Leading(c: Config, mc: Mc, i: nat, best: int, now: nat)
    requires WellFormed(mc)
  {
    if best < 0 then forall j :: j < i ==> !Serviceable(c, mc, j, now)
    else
      && best < i && Serviceable(c, mc, best, now)
      && (best <= mc.batchLast ==>
            forall j :: Serviceable(c, mc, j, now) && j < i && j <= mc.batchLast && j != best ==>
              Better(c, mc, best, j, now))
      && (best > mc.batchLast ==> best == i - 1 && forall j :: Serviceable(c, mc, j, now) ==> best <= j)
  }

  /** Does the scan take request i over its best so far? */
  function Takes(s: Status, count: int, best: int, hit: bool, fewest: int): bool {
    match s
    case Blocked => false
    case Miss => !hit && (count < fewest || (count == fewest && best == -1))
    case Hit => !hit || count < fewest
  }

  lemma Advance(c: Config, mc: Mc, i: nat, best: int, hit: bool, fewest: int, now: nat)
    requires BatchInv(c, mc) && i < Reach(c, mc) && Leading(c, mc, i, best, now) && best >= -1
    requires best >= 0 ==> i <= mc.batchLast
    requires hit == (best >= 0 && StatusOf(c, mc, best, now).Hit?)
    requires fewest == if best >= 0 then mc.counts[mc.queue[best].thread] else |mc.queue| + 1
    ensures Known(mc, mc.queue[i])
    ensures
      var takes := Takes(StatusOf(c, mc, i, now), mc.counts[mc.queue[i].thread], best, hit, fewest);
      Leading(c, mc, i + 1, if takes then i else best, now)
  {
    assert Known(mc, mc.queue[i]);
    var s := StatusOf(c, mc, i, now);
    var takes := Takes(s, mc.counts[mc.queue[i].thread], best, hit, fewest);
    assert Serviceable(c, mc, i, now) <==> !s.Blocked?;
    if best < 0 {
      assert mc.counts[mc.queue[i].thread] < fewest;
    } else if takes {
      Overtakes(c, mc, i, best, now);
    } else if !s.Blocked? {
      assert Better(c, mc, best, i, now);
    }
  }

  lemma Overtakes(c: Config, mc: Mc, i: nat, best: nat, now: nat)
    requires WellFormed(mc) && best < i <= mc.batchLast && i < Reach(c, mc)
    requires Leading(c, mc, i, best, now) && Better(c, mc, i, best, now) && Serviceable(c, mc, i, now)
    ensures forall j :: Serviceable(c, mc, j, now) && j < i + 1 && j <= mc.batchLast && j != i ==>
      Better(c, mc, i, j, now)
  {
    forall j | Serviceable(c, mc, j, now) && j < i ensures Better(c, mc, i, j, now) {
      if j != best { assert Better(c, mc, best, j, now); }
    }
  }

  /** One tick took the controller from one state to the other. */
  ghost predicate Ticked(c: Config, before: Mc, last: nat, t: Tick, after: Mc) {
    Enabled(c, before, last, t) && after == Next(c, before, last, t)
  }

  ghost predicate SameShape(a: Mc, b: Mc) {
    a.banks.Keys == b.banks.Keys && |a.ranks| == |b.ranks| && |a.counts| == |b.counts|
  }

  lemma AdmitDue(c: Config, mc: Mc, due: seq<Req>)
    requires BatchInv(c, mc) && Acceptable(mc, due)
    ensures BatchInv(c, Admit(c, mc, due)) && SameShape(Admit(c, mc, due), mc)
  {
    AdmitKeepsBatch(c, mc, due);
    AdmitIsWellFormed(c, mc, due);
  }

  lemma TickedKeeps(c: Config, before: Mc, last: nat, t: Tick, after: Mc)
    requires BatchInv(c, before) && Ticked(c, before, last, t, after)
    ensures BatchInv(c, after) && SameShape(after, before)
  {
    AdmitDue(c, before, t.due);
    TickKeepsBatch(c, before, last, t);
    if t.pick >= 0 { ServiceShape(c, Admit(c, before, t.due), t.pick, t.now); }
  }

  lemma ServiceShape(c: Config, mc: Mc, i: nat, now: nat)
    requires WellFormed(mc) && i < |mc.queue|
    ensures SameShape(Service(c, mc, i, now), mc)
  {
    assert Known(mc, mc.queue[i]);
  }

  lemma StillAcceptable(a: Mc, b: Mc, due: seq<Req>)
    requires SameShape(b, a) && Acceptable(a, due)
    ensures Acceptable(b, due)
  {
    forall k | 0 <= k < |due| ensures Known(b, due[k]) { assert Known(a, due[k]); }
  }

  lemma AddAcceptable(mc: Mc, events: Events<Req>, t: nat, r: Req)
    requires Proper(events) && Known(mc, r) && forall u :: u in events ==> Acceptable(mc, events[u])
    ensures
      var events' := Add(events, t, r);
      Proper(events') && events'.Keys == events.Keys + {t} && forall u :: u in events' ==> Acceptable(mc, events'[u])
  {
  }

  lemma DueAcceptable(mc: Mc, events: Events<Req>, now: nat)
    requires forall u :: u in events ==> Acceptable(mc, events[u])
    ensures Acceptable(mc, At(events, now))
  {
  }

  /** What is left after the requests of one time have been taken is still acceptable. */
  lemma ErasedAcceptable(mc: Mc, mc': Mc, events: Events<Req>, now: nat)
    requires Proper(events) && SameShape(mc', mc) && forall t :: t in events ==> Acceptable(mc, events[t])
    ensures
      var events' := Erase(events, now);
      Proper(events') && events'.Keys <= events.Keys - {now} && forall t :: t in events' ==> Acceptable(mc', events'[t])
  {
    var events' := Erase(events, now);
    forall t | t in events' ensures Acceptable(mc', events'[t]) { StillAcceptable(mc, mc', events[t]); }
  }

  // ---------------------------------------------------------------- every request is served once

  /** The requests that leave with a tick: the one whose column command is issued, if any. */
  ghost function Gone(c: Config, mc: Mc, last: nat, t: Tick): seq<Req>
    requires Enabled(c, mc, last, t)
  {
    if t.pick < 0 || !Issued(c, mc, last, t)[0].Col? then [] else [Admit(c, mc, t.due).queue[t.pick]]
  }

  lemma WithoutTakes(q: seq<Req>, i: nat, later: Events<Req>)
    requires i < |q|
    ensures Waiting(Without(q, i), later) + multiset{q[i]} == Waiting(q, later)
  {
    assert q == q[..i] + [q[i]] + q[i+1..];
  }

  lemma ServiceQueue(c: Config, mc: Mc, i: nat, now: nat)
    requires WellFormed(mc) && i < |mc.queue|
    ensures Service(c, mc, i, now).queue == if Command(c, mc, i, now).Col? then Without(mc.queue, i) else mc.queue
  {
    assert Known(mc, mc.queue[i]);
  }

  /** What waits before a tick waits after it, or has left with it. */
  lemma TickAccounts(c: Config, mc: Mc, last: nat, t: Tick, events: Events<Req>)
    requires WellFormed(mc) && Enabled(c, mc, last, t) && t.due == At(events, t.now)
    ensures Waiting(Next(c, mc, last, t).queue, Erase(events, t.now)) + multiset(Gone(c, mc, last, t))
         == Waiting(mc.queue, events)
  {
    hide StatusOf, Waiting, Admit, Service, Command, Erase, At;
    DueQueued(mc.queue, events, t.now);
    AdmitIsWellFormed(c, mc, t.due);
    var mc1 := Admit(c, mc, t.due);
    if t.pick >= 0 {
      ServiceQueue(c, mc1, t.pick, t.now);
      WithoutTakes(mc1.queue, t.pick, Erase(events, t.now));
    }
  }

  /** The column commands of a log. */
  function Columns(log: seq<Cmd>): seq<Cmd> {
    if log == [] then []
    else Columns(log[..|log|-1]) + if log[|log|-1].Col? then [log[|log|-1]] else []
  }

  lemma ColumnsMore(log: seq<Cmd>, cmd: Cmd)
    ensures Columns(log + [cmd]) == Columns(log) + if cmd.Col? then [cmd] else []
  {
    assert (log + [cmd])[..|log|] == log;
  }

  /** The column commands are those of the requests that left, in order, to their rows and in their directions. */
  ghost predicate ServedBy(cols: seq<Cmd>, served: seq<Req>) {
    && |cols| == |served|
    && forall k :: 0 <= k < |cols| ==>
         && cols[k].Col? && cols[k].place == served[k].place && cols[k].page == served[k].page
         && cols[k].dir == if served[k].op.Read? then Rd else Wr
  }

  /** Every request that left is answered, but for the plain writes, a fixed time after its column command. */
  function Replied(cols: seq<Cmd>, served: seq<Req>, delay: nat): seq<(nat, Req)>
    requires |cols| == |served|
  {
    if cols == [] then []
    else
      var n := |cols| - 1;
      Replied(cols[..n], served[..n], delay) +
      if served[n].op.Write? then [] else [(cols[n].time + delay, served[n])]
  }

  lemma RepliedMore(cols: seq<Cmd>, served: seq<Req>, delay: nat, cmd: Cmd, r: Req)
    requires ServedBy(cols, served) && cmd.Col? && cmd.place == r.place && cmd.page == r.page
    requires cmd.dir == if r.op.Read? then Rd else Wr
    ensures ServedBy(cols + [cmd], served + [r])
    ensures Replied(cols + [cmd], served + [r], delay) ==
      Replied(cols, served, delay) + if r.op.Write? then [] else [(cmd.time + delay, r)]
  {
    assert (cols + [cmd])[..|cols|] == cols && (served + [r])[..|served|] == served;
  }

  lemma RunLength(c: Config, states: seq<Mc>, ticks: seq<Tick>)
    requires Run(c, states, ticks)
    ensures |states| == |ticks| + 1
  {
  }

  /** The log of a run does not change when the run goes on. */
  lemma {:induction false} LogStays(c: Config, states: seq<Mc>, ticks: seq<Tick>, states': seq<Mc>, ticks': seq<Tick>,
                                    n: nat)
    requires Run(c, states, ticks) && Run(c, states', ticks') && states <= states' && ticks <= ticks' && n <= |ticks|
    ensures Log(c, states', ticks', n) == Log(c, states, ticks, n)
  {
    hide Run, StepAt;
    RunLength(c, states, ticks);
    RunLength(c, states', ticks');
    if n > 0 {
      LogStays(c, states, ticks, states', ticks', n - 1);
      assert Clock(ticks', n - 1) == Clock(ticks, n - 1);
      assert states'[n-1] == states[n-1] && ticks'[n-1] == ticks[n-1];
    }
  }

  /** One more tick of a run: its command, and the request that leaves with it. */
  lemma LogMore(c: Config, states: seq<Mc>, ticks: seq<Tick>, t: Tick, s: Mc)
    requires Run(c, states, ticks) && Run(c, states + [s], ticks + [t])
    requires Enabled(c, states[|ticks|], Clock(ticks, |ticks|), t)
    ensures Log(c, states + [s], ticks + [t], |ticks| + 1) ==
      Log(c, states, ticks, |ticks|) + Issued(c, states[|ticks|], Clock(ticks, |ticks|), t)
  {
    hide Run, StepAt, Enabled;
    LogStays(c, states, ticks, states + [s], ticks + [t], |ticks|);
    assert Clock(ticks + [t], |ticks|) == Clock(ticks, |ticks|);
    RunLength(c, states, ticks);
    assert (states + [s])[|ticks|] == states[|ticks|] && (ticks + [t])[|ticks|] == t;
  }

  /** What is known of the requests that have left, after n ticks. */
  ghost predicate Served(c: Config, log: seq<Cmd>, served: seq<Req>, replies: seq<(nat, Req)>, delay: nat) {
    ServedBy(Columns(log), served) && replies == Replied(Columns(log), served, delay)
  }

  lemma TickServes(c: Config, mc: Mc, last: nat, t: Tick, log: seq<Cmd>, served: seq<Req>, replies: seq<(nat, Req)>,
                   more: seq<(nat, Req)>, delay: nat)
    requires WellFormed(mc) && Enabled(c, mc, last, t) && Served(c, log, served, replies, delay)
    requires
      var r := Gone(c, mc, last, t);
      more == if r == [] || r[0].op.Write? then [] else [(t.now + delay, r[0])]
    ensures Served(c, log + Issued(c, mc, last, t), served + Gone(c, mc, last, t), replies + more, delay)
  {
    hide StatusOf, Replied, ServedBy, Columns;
    if t.pick < 0 {
      assert log + [] == log && served + [] == served && replies + [] == replies;
    } else {
      var mc1 := Admit(c, mc, t.due);
      var cmd := Command(c, mc1, t.pick, t.now);
      assert Known(mc1, mc1.queue[t.pick]);
      ColumnsMore(log, cmd);
      if cmd.Col? {
        RepliedMore(Columns(log), served, delay, cmd, mc1.queue[t.pick]);
      } else {
        assert Columns(log) + [] == Columns(log) && served + [] == served && replies + [] == replies;
      }
    }
  }

  class MemoryController {
    const c: Config
    const toDirectory: nat

    var queue: seq<Req>                    // req_l
    var batchLast: int                     // curr_batch_last
    var counts: seq<int>                   // num_req_from_a_th
    var banks: map<Place, Bank>
    var ranks: seq<Rank>
    var lastReadRank: nat
    var lastReadTime: nat
    var bus: map<nat, Dir>                 // dp_status
    var rdBus: set<nat>
    var wrBus: set<nat>
    var events: Events<Req>                // req_event
    var replies: seq<(nat, Req)>           // sent to the directory, with the time they are due there
    var wake: set<nat>
    var lastRun: nat

    /** The bus tables without anything dropped. */
    ghost var full: (map<nat, Dir>, set<nat>, set<nat>)

    /** The run behind this controller. */
    ghost var states: seq<Mc>
    ghost var ticks: seq<Tick>

    /** All requests that ever came, and those that have left, in order. */
    ghost var accepted: multiset<Req>
    ghost var served: seq<Req>

    /** The state as it is stored, and as `Dram` has it. */
    function Stored(): Mc
      reads this`queue, this`batchLast, this`counts, this`banks, this`ranks, this`lastReadRank, this`lastReadTime,
            this`bus, this`rdBus, this`wrBus
    {
      Mc(queue, batchLast, counts, banks, ranks, lastReadRank, lastReadTime, bus, rdBus, wrBus)
    }

    ghost function State(): Mc
      reads this`queue, this`batchLast, this`counts, this`banks, this`ranks, this`lastReadRank, this`lastReadTime,
            this`full
    {
      Mc(queue, batchLast, counts, banks, ranks, lastReadRank, lastReadTime, full.0, full.1, full.2)
    }

    /** What waits is acceptable, and the event kernel holds the controller for it. */
    ghost predicate Scheduled()
      reads this`events, this`wake, this`lastRun, this`full, this`queue, this`batchLast, this`counts,
            this`banks, this`ranks, this`lastReadRank, this`lastReadTime
    {
      && c.interval > 0 && Proper(events) && (forall t :: t in events ==> Acceptable(State(), events[t]))
      && lastRun % c.interval == 0 && (forall t :: t in wake ==> lastRun <= t && t % c.interval == 0)
      && events.Keys <= wake && (queue != [] ==> lastRun + c.interval in wake)
    }

    /** The last state of the run is the present one, up to the slots that were dropped. */
    ghost predicate Followed()
      reads this`states, this`ticks, this`lastRun, this`queue, this`batchLast, this`counts,
            this`banks, this`ranks, this`lastReadRank, this`lastReadTime, this`bus, this`rdBus, this`wrBus, this`full
    {
      && Run(c, states, ticks) && states[|ticks|] == State() && Clock(ticks, |ticks|) == lastRun
      && SameFrom(Stored(), State(), lastRun)
    }

    /** Every request that came waits or has left once, with its column command and its answer. */
    ghost predicate Accounted()
      reads this`queue, this`events, this`accepted, this`served, this`states, this`ticks, this`replies
    {
      && accepted == Waiting(queue, events) + multiset(served)
      && Run(c, states, ticks) && Served(c, Log(c, states, ticks, |ticks|), served, replies, toDirectory)
    }

    ghost predicate Valid()
      reads this
    {
      Scheduled() && Followed() && Accounted()
    }

    /** All commands this controller has issued. */
    ghost function Commands(): seq<Cmd>
      requires Valid()
      reads this
    {
      Log(c, states, ticks, |ticks|)
    }

    /** They respect the timing rules, and every column found its row open. */
    lemma EveryCommandWasTimely()
      requires Valid() && DramTiming.Sane(c)
      ensures DramTiming.Timely(c, Commands()) && DramTiming.RowsRespected(Commands())
    {
      DramTiming.EveryRunIsTimely(c, states, ticks);
    }

    /** At any time between two calls: the batch is a prefix of the window with exact counts, and a closed-row policy
        has a row open only for a request of the window. */
    lemma AlwaysInOrder()
      requires Valid()
      ensures BatchInv(c, State()) && RowsInUse(c, State())
    {
      RunKeepsBatch(c, states, ticks, |ticks|);
      NoRowIsStranded(c, states, ticks, |ticks|);
    }

    constructor (c: Config, ranks: nat, banks: nat, threads: nat, toDirectory: nat)
      requires c.interval > 0
      ensures Valid() && Initial(State()) && ticks == [] && this.c == c && replies == [] && events == map[]
      ensures accepted == multiset{}
    {
      this.c, this.toDirectory := c, toDirectory;
      queue, batchLast, counts := [], -1, seq(threads, _ => 0);
      this.banks := map k: nat, b: nat | k < ranks && b < banks :: Place(k, b) := Bank(0, 0, Idle, 0);
      this.ranks := seq(ranks, _ => Rank(0, 0, 0));
      lastReadRank, lastReadTime, bus, rdBus, wrBus := 0, 0, map[], {}, {};
      events, replies, wake, lastRun, full := map[], [], {}, 0, (map[], {}, {});
      ticks, accepted, served := [], multiset{}, [];
      new;
      states := [State()];
    }

    method AddReqEvent(time: nat, r: Req)
      requires Valid() && time >= lastRun && Known(State(), r)
      modifies this`events, this`wake, this`accepted
      ensures Valid() && events == Add(old(events), AlignUp(time, c.interval), r)
      ensures accepted == old(accepted) + multiset{r}
      ensures wake == old(wake) + {AlignUp(time, c.interval)}
    {
      hide Run, SameFrom, Served, Waiting, Log, Acceptable, Known, Clock;
      var t := time;
      if t % c.interval != 0 {
        RoundedUp(t, c.interval);
        t := t + c.interval - t % c.interval;
      }
      WaitFor(t, r);
      WaitingAdded(queue, old(events), t, r);
      accepted := accepted + multiset{r};
    }

    method WaitFor(t: nat, r: Req)
      requires Scheduled() && t >= lastRun && t % c.interval == 0 && Known(State(), r)
      modifies this`events, this`wake
      ensures Scheduled() && events == Add(old(events), t, r) && wake == old(wake) + {t}
    {
      AddAcceptable(State(), events, t, r);
      wake := wake + {t};
      events := Add(events, t, r);
    }

    /** Takes in the requests that are due and forms a batch if there is none. */
    method PreProcess(now: nat)
      requires Acceptable(State(), At(events, now))
      modifies this`queue, this`counts, this`batchLast, this`events
      ensures State() == Admit(c, old(State()), At(old(events), now)) && events == Erase(old(events), now)
      ensures SameFrom(old(Stored()), old(State()), now) ==> SameFrom(Stored(), State(), now)
    {
      var due := At(events, now);
      var i := 0;
      while i < |due|
        invariant 0 <= i <= |due| && |counts| == |old(counts)| && events == old(events) && batchLast == old(batchLast)
        invariant State() == ArriveAll(c, old(State()), due[..i])
      {
        assert due[..i+1][..i] == due[..i];
        assert Known(old(State()), due[i]);
        if c.parBs {
          counts := counts[due[i].thread := counts[due[i].thread] + 1];
        }
        queue := queue + [due[i]];
        i := i + 1;
      }
      assert due[..i] == due;
      if c.parBs && batchLast == -1 && |queue| > 0 {
        batchLast := |queue| - 1;
        if batchLast > c.window - 1 { batchLast := c.window - 1; }
      }
      events := Erase(events, now);
    }

    /** Drops the slots that have passed. */
    method Trim(dir: Dir, now: nat)
      requires SameFrom(Stored(), State(), now)
      modifies this`bus, this`rdBus, this`wrBus
      ensures SameFrom(Stored(), State(), now)
    {
      bus := map t | t in bus && t >= now :: bus[t];
      if dir.Rd? {
        rdBus := set t | t in rdBus && t >= now;
      } else {
        wrBus := set t | t in wrBus && t >= now;
      }
    }

    /** May this rank start a burst now? */
    method MayStart(rank: nat, dir: Dir, now: nat) returns (ok: bool)
      requires rank < |ranks| && SameFrom(Stored(), State(), now)
      modifies this`bus, this`rdBus, this`wrBus
      ensures SameFrom(Stored(), State(), now)
      ensures ok == ColumnAllowed(c, State(), rank, dir, now)
    {
      Trim(dir, now);
      ColumnAgrees(c, Stored(), State(), rank, dir, now);
      ok := BusIsFree(c, Stored(), dir, now);
      if !ok { return; }
      var turn := MustTurn(c, Stored(), if dir.Rd? then Wr else Rd, if dir.Rd? then c.wrbub else c.rwbub, now);
      if turn { return false; }
      if dir.Rd? {
        ok := !(c.wtr > 0 && ranks[rank].lastWrite + c.wtr > now)
              && !(lastReadRank != rank && now < c.rrbub + lastReadTime);
      } else {
        ok := !(ranks[rank].lastRead + c.rwbub > now);
      }
    }

    /** What request i may do now. */
    method Classify(i: nat, now: nat) returns (s: Status)
      requires i < |queue| && WellFormed(State()) && SameFrom(Stored(), State(), now)
      modifies this`bus, this`rdBus, this`wrBus
      ensures SameFrom(Stored(), State(), now)
      ensures s == StatusOf(c, State(), i, now)
    {
      var r := queue[i];
      assert Known(State(), r);
      var b := banks[r.place];
      var rank := ranks[r.place.rank];
      if b.time > now { return Blocked; }
      match b.action {
        case Precharge => return if rank.lastActivate + c.rr <= now then Miss else Blocked;
        case Idle => return if rank.lastActivate + c.rr <= now then Miss else Blocked;
        case Activate => if b.time + c.rcd > now { return Blocked; }
        case Column(_) =>
      }
      if b.time + c.bbl > now { return Blocked; }
      if b.page != r.page {
        if !c.open { return Blocked; }
        assert WellFormed(Stored());
        var rival := FindRival(c, Stored(), i);
        assert RowWanted(c, Stored(), i) == RowWanted(c, State(), i);
        return if !rival && rank.lastActivate + c.rr <= now then Miss else Blocked;
      }
      var ok := MayStart(r.place.rank, DirOf(r.op), now);
      return if ok then Hit else Blocked;
    }

    /** The request to serve, or -1. */
    method Scan(now: nat) returns (best: int)
      requires BatchInv(c, State()) && SameFrom(Stored(), State(), now)
      modifies this`bus, this`rdBus, this`wrBus
      ensures SameFrom(Stored(), State(), now)
      ensures -1 <= best && IsPick(c, State(), best, now)
    {
      best := -1;
      var hit, fewest := false, |queue| + 1;
      ghost var mc := State();
      var i := 0;
      while i < |queue|
        invariant 0 <= i <= Reach(c, mc) && best >= -1 && State() == mc && SameFrom(Stored(), State(), now)
        invariant Leading(c, mc, i, best, now)
        invariant hit == (best >= 0 && StatusOf(c, mc, best, now).Hit?)
        invariant fewest == if best >= 0 then mc.counts[mc.queue[best].thread] else |mc.queue| + 1
        decreases |queue| - i
      {
        if best >= 0 && i != 0 && i > batchLast { break; }
        if i >= c.window { break; }
        var s := Classify(i, now);
        Advance(c, mc, i, best, hit, fewest, now);
        if Takes(s, counts[queue[i].thread], best, hit, fewest) {
          best, hit, fewest := i, s.Hit?, counts[queue[i].thread];
        }
        i := i + 1;
      }
    }

    /** The time at which a precharge that starts as early as it may is done. */
    method CloseTime(b: Bank, now: nat) returns (t: nat)
      ensures t == Closed(c, b, now)
    {
      if now - b.lastActivate >= c.ras {
        t := c.rp + now;
      } else {
        t := c.rp + c.ras + b.lastActivate;
      }
    }

    /** The bank after a column command: left open, or closed unless a later request uses the row. */
    method Settle(i: nat, dir: Dir, now: nat) returns (closes: bool)
      requires i < |queue| && WellFormed(Stored())
      modifies this`banks
      ensures closes == (!c.open && !Reused(c, old(Stored()), i))
      ensures
        var p := queue[i].place;
        banks == old(banks)[p := BankAfter(c, old(banks[p]), Col(now, p, queue[i].page, dir, closes))]
    {
      var p := queue[i].place;
      assert Known(Stored(), queue[i]);
      var b := banks[p];
      closes := false;
      if c.open {
        banks := banks[p := b.(time := now, action := Column(dir))];
      } else {
        var t := CloseTime(b, now);
        var reused := FindReuse(c, Stored(), i);
        if reused {
          banks := banks[p := b.(time := t - c.rp, action := Column(dir))];
        } else {
          banks := banks[p := b.(time := t, action := Precharge)];
          closes := true;
        }
      }
    }

    /** The burst of a column command. */
    method Transfer(p: Place, dir: Dir, now: nat)
      requires p.rank < |ranks|
      modifies this`bus, this`rdBus, this`wrBus, this`ranks, this`lastReadRank, this`lastReadTime
      ensures bus == BurstInto(c, old(bus), dir, now, c.bl)
      ensures rdBus == old(rdBus) + if dir.Rd? then Slots(c, now, c.bl) else {}
      ensures wrBus == old(wrBus) + if dir.Wr? then Slots(c, now, c.bl) else {}
      ensures ranks == old(ranks)[p.rank := RankAfter(c, old(ranks[p.rank]), Col(now, p, 0, dir, false))]
      ensures lastReadRank == if dir.Rd? then p.rank else old(lastReadRank)
      ensures lastReadTime == if dir.Rd? then now else old(lastReadTime)
    {
      var slots;
      bus, slots := Record(c, bus, dir, now);
      var end := now + c.cl + c.bl * c.interval;
      if dir.Rd? {
        rdBus := rdBus + slots;
        ranks := ranks[p.rank := ranks[p.rank].(lastRead := end)];
        lastReadRank, lastReadTime := p.rank, now;
      } else {
        wrBus := wrBus + slots;
        ranks := ranks[p.rank := ranks[p.rank].(lastWrite := end)];
      }
    }

    /** The request leaves the list and the batch. */
    method Leave(i: nat)
      requires i < |queue| && queue[i].thread < |counts|
      modifies this`queue, this`counts, this`batchLast
      ensures Stored() == Retire(c, old(Stored()), i)
    {
      if c.parBs {
        counts := counts[queue[i].thread := counts[queue[i].thread] - 1];
        if batchLast == i {
          if i == 0 {
            batchLast := |queue| - 2;
            if batchLast > c.window - 1 { batchLast := c.window - 1; }
          } else {
            batchLast := batchLast - 1;
          }
        } else if batchLast > i {
          batchLast := batchLast - 1;
        }
      }
      queue := Without(queue, i);
    }

    /** The column command of a row hit: its burst, and what becomes of the row. */
    method IssueColumn(i: nat, now: nat)
      requires i < |queue| && WellFormed(Stored())
      requires IsOpen(banks[queue[i].place]) && banks[queue[i].place].page == queue[i].page
      modifies this`banks, this`bus, this`rdBus, this`wrBus, this`ranks, this`lastReadRank, this`lastReadTime
      ensures Command(c, old(Stored()), i, now).Col?
      ensures Stored() == Issue(c, old(Stored()), Command(c, old(Stored()), i, now))
    {
      var r := queue[i];
      assert Known(Stored(), r);
      var closes := Settle(i, DirOf(r.op), now);
      Transfer(r.place, DirOf(r.op), now);
      ghost var cmd := Command(c, old(Stored()), i, now);
      assert cmd == Col(now, r.place, r.page, DirOf(r.op), closes);
      ghost var was := old(ranks[r.place.rank]);
      assert RankAfter(c, was, Col(now, r.place, 0, DirOf(r.op), false)) == RankAfter(c, was, cmd);
    }

    /** A row hit: reads and combined requests are answered, and the request leaves. */
    method Access(i: nat, now: nat)
      requires i < |queue| && WellFormed(Stored())
      requires IsOpen(banks[queue[i].place]) && banks[queue[i].place].page == queue[i].page
      modifies this`queue, this`counts, this`batchLast, this`replies
      modifies this`banks, this`bus, this`rdBus, this`wrBus, this`ranks, this`lastReadRank, this`lastReadTime
      ensures Stored() == Service(c, old(Stored()), i, now)
      ensures replies == old(replies) + if old(queue[i]).op.Write? then [] else [(now + toDirectory, old(queue[i]))]
    {
      assert Known(Stored(), queue[i]);
      IssueColumn(i, now);
      if !queue[i].op.Write? { replies := replies + [(now + toDirectory, queue[i])]; }
      Leave(i);
    }

    /** Issues the command of request i. */
    method Serve(i: nat, now: nat)
      requires i < |queue| && WellFormed(State()) && SameFrom(Stored(), State(), now) && Serviceable(c, State(), i, now)
      modifies this`queue, this`counts, this`batchLast, this`replies, this`full
      modifies this`banks, this`bus, this`rdBus, this`wrBus, this`ranks, this`lastReadRank, this`lastReadTime
      ensures State() == Service(c, old(State()), i, now) && SameFrom(Stored(), State(), now)
      ensures replies == old(replies) + Answers(c, old(State()), i, now)
    {
      var r := queue[i];
      assert Known(State(), r);
      assert WellFormed(Stored()) by {
        forall k | 0 <= k < |queue| ensures Known(Stored(), queue[k]) { assert Known(State(), queue[k]); }
      }
      var b := banks[r.place];
      if b.action.Precharge? || b.action.Idle? {
        banks := banks[r.place := Bank(now, r.page, Activate, now)];
        ranks := ranks[r.place.rank := ranks[r.place.rank].(lastActivate := now)];
      } else if b.page != r.page {
        if c.open {
          var t := CloseTime(b, now);
          banks := banks[r.place := b.(time := t, action := Precharge)];
        }
      } else {
        Access(i, now);
      }
      ServiceAgrees(c, old(Stored()), old(State()), i, now);
      ghost var after := Service(c, old(State()), i, now);
      full := (after.bus, after.rdBus, after.wrBus);
    }

    /** What serving request i sends to the directory. */
    ghost function Answers(c: Config, mc: Mc, i: nat, now: nat): seq<(nat, Req)>
      requires i < |mc.queue| && WellFormed(mc)
    {
      if Command(c, mc, i, now).Col? && !mc.queue[i].op.Write? then [(now + toDirectory, mc.queue[i])] else []
    }

    /** Where a controller may be called: at the next time the event kernel holds it. */
    ghost predicate Callable(now: nat)
      reads this
    {
      now in wake && forall t :: t in wake ==> now <= t
    }

    /** The tick itself. */
    method Schedule(now: nat) returns (pick: int)
      requires c.interval > 0 && lastRun <= now && now % c.interval == 0
      requires BatchInv(c, State()) && Acceptable(State(), At(events, now)) && SameFrom(Stored(), State(), now)
      modifies this`queue, this`counts, this`batchLast, this`replies, this`full, this`events
      modifies this`banks, this`bus, this`rdBus, this`wrBus, this`ranks, this`lastReadRank, this`lastReadTime
      ensures Ticked(c, old(State()), lastRun, Tick(now, At(old(events), now), pick), State())
      ensures SameFrom(Stored(), State(), now) && events == Erase(old(events), now)
      ensures replies == old(replies) +
        if pick < 0 then [] else Answers(c, Admit(c, old(State()), At(old(events), now)), pick, now)
    {
      hide SameFrom, Counted, Service, StatusOf, Better, Admit, Erase, At;
      AdmitDue(c, State(), At(events, now));
      PreProcess(now);
      pick := Scan(now);
      if pick >= 0 {
        Serve(pick, now);
      }
    }

    /** Appends one tick to the ghost run, once the fields are those of its result. */
    ghost method Follow(before: Mc, last: nat, t: Tick)
      requires Run(c, states, ticks) && states[|ticks|] == before && Clock(ticks, |ticks|) == last
      requires Ticked(c, before, last, t, State())
      modifies this`states, this`ticks
      ensures Run(c, states, ticks) && states == old(states) + [State()] && ticks == old(ticks) + [t]
    {
      RunExtends(c, states, ticks, t);
      states, ticks := states + [State()], ticks + [t];
    }

    /** The tick, entered into the run. */
    method Step(now: nat) returns (pick: int)
      requires c.interval > 0 && lastRun <= now && now % c.interval == 0
      requires Followed() && Acceptable(State(), At(events, now))
      modifies this`queue, this`counts, this`batchLast, this`replies, this`full, this`events, this`states, this`ticks
      modifies this`banks, this`bus, this`rdBus, this`wrBus, this`ranks, this`lastReadRank, this`lastReadTime
      ensures Ticked(c, old(State()), lastRun, Tick(now, At(old(events), now), pick), State())
      ensures Run(c, states, ticks) && states == old(states) + [State()]
      ensures ticks == old(ticks) + [Tick(now, At(old(events), now), pick)]
      ensures SameShape(State(), old(State())) && SameFrom(Stored(), State(), now) && events == Erase(old(events), now)
      ensures replies == old(replies) +
        if pick < 0 then [] else Answers(c, Admit(c, old(State()), At(old(events), now)), pick, now)
    {
      hide SameFrom, Ticked, Admit, StepAt, Initial, Acceptable, At, Erase;
      RunKeepsBatch(c, states, ticks, |ticks|);
      LaterAgrees(Stored(), State(), lastRun, now);
      ghost var due := At(events, now);
      pick := Schedule(now);
      TickedKeeps(c, old(State()), lastRun, Tick(now, due, pick), State());
      Follow(old(State()), lastRun, Tick(now, due, pick));
    }

    /** One call of the event kernel: one tick of the scheduler, and the controller is called again
        while requests wait. */
    method ProcessEvent(now: nat) returns (pick: int)
      requires Valid() && Callable(now)
      modifies this
      ensures Valid() && lastRun == now && events == Erase(old(events), now)
      ensures Ticked(c, old(State()), old(lastRun), Tick(now, At(old(events), now), pick), State())
      ensures ticks == old(ticks) + [Tick(now, At(old(events), now), pick)] && states == old(states) + [State()]
      ensures replies == old(replies) +
        if pick < 0 then [] else Answers(c, Admit(c, old(State()), At(old(events), now)), pick, now)
      ensures wake == old(wake) - {now} + if queue != [] then {now + c.interval} else {}
      ensures accepted == old(accepted) && old(served) <= served
    {
      hide SameFrom, Ticked, Admit, StepAt, Initial, Acceptable, At, Erase, Proper, Run, Log;
      hide MemoryController.Accounted;
      DueAcceptable(State(), events, now);
      pick := AccountedStep(now);
      ErasedAcceptable(old(State()), State(), old(events), now);
      Reschedule(now);
    }

    /** The tick, with the request that leaves. */
    method AccountedStep(now: nat) returns (pick: int)
      requires c.interval > 0 && lastRun <= now && now % c.interval == 0
      requires Followed() && Accounted() && Acceptable(State(), At(events, now))
      modifies this`queue, this`counts, this`batchLast, this`replies, this`full, this`events, this`states, this`ticks
      modifies this`banks, this`bus, this`rdBus, this`wrBus, this`ranks, this`lastReadRank, this`lastReadTime
      modifies this`served
      ensures Ticked(c, old(State()), lastRun, Tick(now, At(old(events), now), pick), State())
      ensures Run(c, states, ticks) && states == old(states) + [State()]
      ensures ticks == old(ticks) + [Tick(now, At(old(events), now), pick)]
      ensures states[|ticks|] == State() && Clock(ticks, |ticks|) == now
      ensures SameShape(State(), old(State())) && SameFrom(Stored(), State(), now) && events == Erase(old(events), now)
      ensures replies == old(replies) +
        if pick < 0 then [] else Answers(c, Admit(c, old(State()), At(old(events), now)), pick, now)
      ensures Accounted() && old(served) <= served
    {
      hide SameFrom, Ticked, Admit, StepAt, Initial, Acceptable, At, Erase, Served, Issued, Gone, Waiting, Log, Counted;
      ghost var due := At(events, now);
      pick := Step(now);
      RunLength(c, old(states), old(ticks));
      RunKeepsBatch(c, old(states), old(ticks), |old(ticks)|);
      AdmitIsWellFormed(c, old(State()), due);
      Account(old(State()), old(states), old(ticks), old(events), old(replies), Tick(now, due, pick));
    }

    /** Enters the request that left, if any, once the tick is part of the run. */
    ghost method Account(before: Mc, states0: seq<Mc>, ticks0: seq<Tick>, events0: Events<Req>,
                         replies0: seq<(nat, Req)>, t: Tick)
      requires Run(c, states0, ticks0) && states0[|ticks0|] == before && t.due == At(events0, t.now)
      requires Ticked(c, before, Clock(ticks0, |ticks0|), t, State()) && events == Erase(events0, t.now)
      requires Run(c, states, ticks) && states == states0 + [State()] && ticks == ticks0 + [t]
      requires accepted == Waiting(before.queue, events0) + multiset(served)
      requires Served(c, Log(c, states0, ticks0, |ticks0|), served, replies0, toDirectory)
      requires WellFormed(before) && WellFormed(Admit(c, before, t.due))
      requires replies == replies0 + if t.pick < 0 then [] else Answers(c, Admit(c, before, t.due), t.pick, t.now)
      modifies this`served
      ensures Accounted() && old(served) <= served
    {
      hide Run, Served, Waiting, StatusOf, Log, Admit, Next, Erase, At, WellFormed, IsPick;
      var last := Clock(ticks0, |ticks0|);
      var log, gone, more := Log(c, states0, ticks0, |ticks0|), Gone(c, before, last, t), replies[|replies0|..];
      LogMore(c, states0, ticks0, t, State());
      TickAccounts(c, before, last, t, events0);
      TickServes(c, before, last, t, log, served, replies0, more, toDirectory);
      served := served + gone;
    }

    method Reschedule(now: nat)
      requires c.interval > 0 && now in wake && forall t :: t in wake ==> now <= t && t % c.interval == 0
      modifies this`wake, this`lastRun
      ensures lastRun == now && wake == old(wake) - {now} + if queue != [] then {now + c.interval} else {}
      ensures forall t :: t in wake ==> lastRun <= t && t % c.interval == 0
    {
      AlignedSum(now, c.interval, c.interval);
      wake := wake - {now};
      lastRun := now;
      if queue != [] {
        wake := wake + {now + c.interval};
      }
    }
  }
}
