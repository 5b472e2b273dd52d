/** The turn-around bubbles of the shared data bus.  The scheduler looks for a burst of the other direction in a table
    from which the slots before the present time have been dropped, so by itself this check holds a bubble only up to
    tCL.  Other checks may hold a longer one: tRTW and tWTR within a rank, tBBL within a bank.  The theorems say exactly
    which bubbles the runs of a controller keep, for any number of ranks, banks and threads. */
module DramBubbles {
  import opened Basics
  import opened Dram
  import opened DramTiming
  import opened DramScheduling
  import opened Numbers

  // ---------------------------------------------------------------- what is promised

  /** What a controller is built from. */
  datatype Shape = Shape(places: set<Place>, ranks: nat, threads: nat)

  ghost predicate Built(mc: Mc, m: Shape) {
    mc.banks.Keys == m.places && |mc.ranks| == m.ranks && |mc.counts| == m.threads
  }

  /** A bank that requests can name. */
  predicate Usable(m: Shape, p: Place) { p in m.places && p.rank < m.ranks }

  ghost predicate OneRank(m: Shape) {
    forall p, q :: Usable(m, p) && Usable(m, q) ==> p.rank == q.rank
  }

  ghost predicate OneBank(m: Shape) {
    forall p, q :: Usable(m, p) && Usable(m, q) ==> p == q
  }

  function Burst(c: Config): nat { c.bl * c.interval }

  function Other(dir: Dir): Dir { if dir.Rd? then Wr else Rd }

  /** After every burst in the direction `first` the bubble passes before a burst in the other direction. */
  ghost predicate LeavesBubble(c: Config, log: seq<Cmd>, first: Dir, bubble: nat) {
    forall i, j ::
      0 <= i < j < |log| && log[i].Col? && log[j].Col? && log[i].dir == first && log[j].dir == Other(first) ==>
        log[i].time + Burst(c) + bubble <= log[j].time
  }

  /** Every run of such a controller keeps the bubble. */
  ghost predicate Keeps(c: Config, m: Shape, first: Dir, bubble: nat) {
    forall states, ticks :: Run(c, states, ticks) && Built(states[0], m) ==>
      LeavesBubble(c, Log(c, states, ticks, |ticks|), first, bubble)
  }

  /** The bubble between a write and a read is no longer than tCL, or within the only rank the tWTR check keeps it, or
      within the only bank the tBBL check does; times count in whole intervals. */
  ghost predicate WriteBubbleCovered(c: Config, m: Shape) {
    || c.wrbub <= c.cl
    || (OneRank(m) && c.wtr > 0 && c.wrbub < c.cl + c.wtr + c.interval)
    || (OneBank(m) && Burst(c) + c.wrbub < c.bbl + c.interval)
  }

  /** The bubble between a read and a write is no longer than tCL, or there is only one rank: tRTW is as long. */
  ghost predicate ReadBubbleCovered(c: Config, m: Shape) {
    c.rwbub <= c.cl || OneRank(m)
  }

  // ---------------------------------------------------------------- bubbles that are kept

  lemma {:induction false} ShapeStays(c: Config, states: seq<Mc>, ticks: seq<Tick>, m: Shape, n: nat)
    requires Run(c, states, ticks) && Built(states[0], m) && n <= |ticks|
    ensures Built(states[n], m) && WellFormed(states[n])
  {
    RunKeepsBatch(c, states, ticks, n);
    if n > 0 {
      ShapeStays(c, states, ticks, m, n - 1);
      assert StepAt(c, states, ticks, n - 1);
      StepBuilt(c, states[n-1], Clock(ticks, n - 1), ticks[n-1], m);
    }
  }

  lemma StepBuilt(c: Config, mc: Mc, last: nat, t: Tick, m: Shape)
    requires Enabled(c, mc, last, t) && Built(mc, m) && WellFormed(mc)
    ensures Built(Next(c, mc, last, t), m)
  {
    hide IsPick, Issue, Retire;
    AdmitIsWellFormed(c, mc, t.due);
    ArrivalsQueue(c, mc, t.due);
    var mc1 := Admit(c, mc, t.due);
    if t.pick >= 0 {
      assert 0 <= t.pick < |mc1.queue| by { Picked(c, mc1, t.pick, t.now); }
      ServiceBuilt(c, mc1, t.pick, t.now, m);
    }
  }

  lemma Picked(c: Config, mc: Mc, pick: int, now: nat)
    requires WellFormed(mc) && IsPick(c, mc, pick, now) && pick >= 0
    ensures pick < |mc.queue|
  {
    assert Serviceable(c, mc, pick, now);
  }

  lemma ServiceBuilt(c: Config, mc: Mc, i: nat, now: nat, m: Shape)
    requires WellFormed(mc) && i < |mc.queue| && Built(mc, m)
    ensures Built(Service(c, mc, i, now), m)
  {
    hide Reused, BurstInto, Slots, BankAfter, RankAfter;
    assert Known(mc, mc.queue[i]);
  }

  /** In every run the commands go to usable banks and are issued at whole intervals, and keep their distance. */
  lemma CommandsApart(c: Config, states: seq<Mc>, ticks: seq<Tick>, m: Shape, i: nat, j: nat)
    requires Sane(c) && Run(c, states, ticks) && Built(states[0], m)
    requires i < j < |Log(c, states, ticks, |ticks|)|
    ensures
      var log := Log(c, states, ticks, |ticks|);
      && Apart(c, log[i], log[j]) && Usable(m, log[i].place) && Usable(m, log[j].place)
      && log[i].time % c.interval == 0 && log[j].time % c.interval == 0
  {
    hide Timely, Apart, Past, RowsRespected, Log, StepAt;
    var log := Log(c, states, ticks, |ticks|);
    EveryRunIsTimely(c, states, ticks);
    RunInvariant(c, states, ticks, |ticks|);
    ShapeStays(c, states, ticks, m, |ticks|);
    TimelyAt(c, log, i, j);
    var n := |ticks|;
    assert Remembered(c, states[n], log[i], Clock(ticks, n)) && Remembered(c, states[n], log[j], Clock(ticks, n));
  }

  lemma TimelyAt(c: Config, log: seq<Cmd>, i: nat, j: nat)
    requires Timely(c, log) && i < j < |log|
    ensures Apart(c, log[i], log[j])
  {
  }

  /** A distance that is a multiple of the interval and exceeds `need` by less than one interval. */
  lemma RoundsUp(from: nat, to: nat, need: nat, bubble: nat, interval: nat)
    requires interval > 0 && from % interval == 0 && to % interval == 0 && bubble % interval == 0
    requires from + need <= to && bubble < need + interval
    ensures from + bubble <= to
  {
    AlignedSum(from, bubble, interval);
    if to < from + bubble { AlignedGap(to, from + bubble, interval); }
  }

  lemma BurstsWhole(c: Config, a: nat)
    requires c.interval > 0 && a % c.interval == 0
    ensures (a + Burst(c)) % c.interval == 0 && Burst(c) % c.interval == 0
  {
    Multiple(c.bl, c.interval);
    AlignedSum(a, Burst(c), c.interval);
  }

  lemma WriteBubbleKept(c: Config, m: Shape, a: Cmd, b: Cmd)
    requires Sane(c) && !c.fullDuplex && c.bl > 0 && WriteBubbleCovered(c, m) && Apart(c, a, b)
    requires Usable(m, a.place) && Usable(m, b.place) && a.time % c.interval == 0 && b.time % c.interval == 0
    requires a.Col? && b.Col? && a.dir.Wr? && b.dir.Rd?
    ensures a.time + Burst(c) + c.wrbub <= b.time
  {
    BurstsWhole(c, a.time);
    if c.wrbub <= c.cl {
    } else if OneRank(m) && c.wtr > 0 && c.wrbub < c.cl + c.wtr + c.interval {
      RoundsUp(a.time + Burst(c), b.time, c.cl + c.wtr, c.wrbub, c.interval);
    } else {
      AlignedSum(Burst(c), c.wrbub, c.interval);
      RoundsUp(a.time, b.time, c.bbl, Burst(c) + c.wrbub, c.interval);
    }
  }

  /** Whatever the row policy, a covered bubble is kept in every run. */
  lemma CoveredIsKept(c: Config, m: Shape)
    requires Sane(c) && !c.fullDuplex && c.bl > 0
    ensures WriteBubbleCovered(c, m) ==> Keeps(c, m, Wr, c.wrbub)
    ensures ReadBubbleCovered(c, m) ==> Keeps(c, m, Rd, c.rwbub)
  {
    hide Log, StepAt, WriteBubbleCovered, ReadBubbleCovered;
    forall states, ticks | Run(c, states, ticks) && Built(states[0], m)
      ensures WriteBubbleCovered(c, m) ==> LeavesBubble(c, Log(c, states, ticks, |ticks|), Wr, c.wrbub)
      ensures ReadBubbleCovered(c, m) ==> LeavesBubble(c, Log(c, states, ticks, |ticks|), Rd, c.rwbub)
    {
      CoveredIn(c, m, states, ticks);
    }
  }

  lemma CoveredIn(c: Config, m: Shape, states: seq<Mc>, ticks: seq<Tick>)
    requires Sane(c) && !c.fullDuplex && c.bl > 0 && Run(c, states, ticks) && Built(states[0], m)
    ensures WriteBubbleCovered(c, m) ==> LeavesBubble(c, Log(c, states, ticks, |ticks|), Wr, c.wrbub)
    ensures ReadBubbleCovered(c, m) ==> LeavesBubble(c, Log(c, states, ticks, |ticks|), Rd, c.rwbub)
  {
    hide Log, Run, WriteBubbleCovered, Apart;
    var log := Log(c, states, ticks, |ticks|);
    forall i, j | 0 <= i < j < |log| && log[i].Col? && log[j].Col?
      ensures WriteBubbleCovered(c, m) && log[i].dir.Wr? && log[j].dir.Rd? ==>
        log[i].time + Burst(c) + c.wrbub <= log[j].time
      ensures ReadBubbleCovered(c, m) && log[i].dir.Rd? && log[j].dir.Wr? ==>
        log[i].time + Burst(c) + c.rwbub <= log[j].time
    {
      CommandsApart(c, states, ticks, m, i, j);
      if log[i].dir.Rd? {
        ReadBubbleKept(c, m, log[i], log[j]);
      } else if WriteBubbleCovered(c, m) && log[j].dir.Rd? {
        WriteBubbleKept(c, m, log[i], log[j]);
      }
    }
  }

  lemma ReadBubbleKept(c: Config, m: Shape, a: Cmd, b: Cmd)
    requires Apart(c, a, b) && !c.fullDuplex && c.bl > 0 && Usable(m, a.place) && Usable(m, b.place)
    requires a.Col? && b.Col? && a.dir.Rd?
    ensures ReadBubbleCovered(c, m) && b.dir.Wr? ==> a.time + Burst(c) + c.rwbub <= b.time
  {
  }

  // ---------------------------------------------------------------- runs, one request at a time

  datatype Trace = Trace(states: seq<Mc>, ticks: seq<Tick>)

  /** The controller is called at different times, and after one interval if a request is left. */
  ghost predicate Prompt(c: Config, r: Trace) {
    && |r.states| == |r.ticks| + 1
    && forall n :: 0 < n < |r.ticks| ==>
        && r.ticks[n-1].now < r.ticks[n].now
        && (r.states[n].queue != [] ==> r.ticks[n].now == r.ticks[n-1].now + c.interval)
  }

  /** A run that the event kernel can make of a controller of this shape. */
  ghost predicate Going(c: Config, m: Shape, r: Trace) {
    Run(c, r.states, r.ticks) && Built(r.states[0], m) && Prompt(c, r)
  }

  /** The controller may be called next at this time. */
  ghost predicate MayCall(c: Config, r: Trace, now: nat)
    requires |r.states| == |r.ticks| + 1 && c.interval > 0
  {
    && Time(r) < now && now % c.interval == 0
    && (End(r).queue != [] && r.ticks != [] ==> now == Time(r) + c.interval)
  }

  ghost function End(r: Trace): Mc
    requires |r.states| == |r.ticks| + 1
  {
    r.states[|r.ticks|]
  }

  function Time(r: Trace): nat { Clock(r.ticks, |r.ticks|) }

  ghost function Commands(c: Config, r: Trace): seq<Cmd>
    requires Run(c, r.states, r.ticks)
  {
    Log(c, r.states, r.ticks, |r.ticks|)
  }

  lemma {:induction false} LogPrefix(c: Config, a: Trace, b: Trace, n: nat)
    requires Run(c, a.states, a.ticks) && Run(c, b.states, b.ticks) && n <= |a.ticks|
    requires a.states <= b.states && a.ticks <= b.ticks
    ensures Log(c, a.states, a.ticks, n) == Log(c, b.states, b.ticks, n)
  {
    hide Issued, Enabled;
    if n > 0 {
      LogPrefix(c, a, b, n - 1);
      assert Clock(a.ticks, n - 1) == Clock(b.ticks, n - 1);
    }
  }

  lemma Calls(c: Config, m: Shape, r: Trace, t: Tick) returns (r': Trace)
    requires Sane(c) && Going(c, m, r) && MayCall(c, r, t.now) && Enabled(c, End(r), Time(r), t)
    ensures Going(c, m, r') && Time(r') == t.now && End(r') == Next(c, End(r), Time(r), t)
    ensures r'.ticks != [] && Commands(c, r') == Commands(c, r) + Issued(c, End(r), Time(r), t)
  {
    hide Next, Enabled, Issued, StepAt, Initial, Built;
    RunExtends(c, r.states, r.ticks, t);
    r' := Trace(r.states + [Next(c, End(r), Time(r), t)], r.ticks + [t]);
    LogPrefix(c, r, r', |r.ticks|);
  }

  /** A lone serviceable request is served. */
  lemma Serves(c: Config, m: Shape, r: Trace, due: seq<Req>, now: nat) returns (r': Trace)
    requires Sane(c) && Going(c, m, r) && MayCall(c, r, now) && Acceptable(End(r), due)
    requires |End(r).queue + due| == 1 && WellFormed(Admit(c, End(r), due))
    requires Serviceable(c, Admit(c, End(r), due), 0, now)
    ensures Going(c, m, r') && Time(r') == now && End(r') == Service(c, Admit(c, End(r), due), 0, now)
    ensures r'.ticks != [] && Commands(c, r') == Commands(c, r) + [Command(c, Admit(c, End(r), due), 0, now)]
  {
    hide Service, Command, StatusOf, StepAt, Initial, Built, Prompt;
    RunKeepsBatch(c, r.states, r.ticks, |r.ticks|);
    AdmitIsWellFormed(c, End(r), due);
    r' := Calls(c, m, r, Tick(now, due, 0));
  }

  /** A lone blocked request waits. */
  lemma Waits(c: Config, m: Shape, r: Trace, now: nat) returns (r': Trace)
    requires Sane(c) && Going(c, m, r) && MayCall(c, r, now) && WellFormed(Admit(c, End(r), []))
    requires |End(r).queue| == 1 && StatusOf(c, Admit(c, End(r), []), 0, now).Blocked?
    ensures Going(c, m, r') && Time(r') == now && End(r') == Admit(c, End(r), [])
    ensures r'.ticks != [] && Commands(c, r') == Commands(c, r)
  {
    hide StatusOf, StepAt, Initial, Built, Prompt;
    RunKeepsBatch(c, r.states, r.ticks, |r.ticks|);
    AdmitIsWellFormed(c, End(r), []);
    r' := Calls(c, m, r, Tick(now, [], -1));
  }

  // ---------------------------------------------------------------- after a long wait

  /** A time span after which nothing that was issued holds anything back. */
  function Wait(c: Config): nat {
    c.rcd + c.rr + c.rp + c.cl + Burst(c) + c.bbl + c.ras + c.wtr + c.rwbub + c.rrbub + 1
  }

  /** No bank is busy much longer, and no slot lies beyond the burst that started last. */
  ghost predicate Settles(c: Config, mc: Mc, now: nat) {
    && (forall p :: p in mc.banks ==> mc.banks[p].time <= now + c.ras + c.rp)
    && (forall t :: t in mc.bus || t in mc.rdBus || t in mc.wrBus ==> t + c.interval <= now + c.cl + Burst(c))
  }

  lemma {:induction false} SlotsBound(c: Config, now: nat, n: nat, t: nat)
    requires n <= c.bl && t in Slots(c, now, n)
    ensures t + c.interval <= now + c.cl + Burst(c)
  {
    if t in Slots(c, now, n - 1) {
      SlotsBound(c, now, n - 1, t);
    } else {
      LessOften(n, c.bl, c.interval);
      assert n * c.interval == (n - 1) * c.interval + c.interval;
    }
  }

  lemma {:induction false} BurstIsSlots(c: Config, bus: map<nat, Dir>, dir: Dir, now: nat, n: nat, t: nat)
    requires t in BurstInto(c, bus, dir, now, n)
    ensures t in bus || t in Slots(c, now, n)
  {
    if n > 0 && t in BurstInto(c, bus, dir, now, n - 1) { BurstIsSlots(c, bus, dir, now, n - 1, t); }
  }

  lemma IssueSettles(c: Config, mc: Mc, cmd: Cmd)
    requires Settles(c, mc, cmd.time) && Past(c, mc, cmd.time) && cmd.place in mc.banks && cmd.place.rank < |mc.ranks|
    ensures Settles(c, Issue(c, mc, cmd), cmd.time)
  {
    hide BurstInto, Slots;
    var mc', now := Issue(c, mc, cmd), cmd.time;
    forall t | t in mc'.bus || t in mc'.rdBus || t in mc'.wrBus ensures t + c.interval <= now + c.cl + Burst(c) {
      if t in mc'.bus && cmd.Col? { BurstIsSlots(c, mc.bus, cmd.dir, now, c.bl, t); }
      if cmd.Col? && t in Slots(c, now, c.bl) { SlotsBound(c, now, c.bl, t); }
    }
  }

  lemma StepSettles(c: Config, mc: Mc, last: nat, t: Tick)
    requires Enabled(c, mc, last, t) && WellFormed(mc) && Settles(c, mc, last) && Past(c, mc, last)
    ensures Settles(c, Next(c, mc, last, t), t.now)
  {
    hide Issue, Command;
    AdmitIsWellFormed(c, mc, t.due);
    var mc1 := Admit(c, mc, t.due);
    if t.pick >= 0 {
      var cmd := Command(c, mc1, t.pick, t.now);
      CommandFits(c, mc1, t.pick, t.now);
      IssueSettles(c, mc1, cmd);
    }
  }

  lemma CommandFits(c: Config, mc: Mc, i: nat, now: nat)
    requires i < |mc.queue| && WellFormed(mc)
    ensures
      var cmd := Command(c, mc, i, now);
      cmd.time == now && cmd.place == mc.queue[i].place && cmd.place in mc.banks && cmd.place.rank < |mc.ranks|
  {
    assert Known(mc, mc.queue[i]);
  }

  lemma {:induction false} RunSettles(c: Config, states: seq<Mc>, ticks: seq<Tick>, n: nat)
    requires Sane(c) && Run(c, states, ticks) && n <= |ticks|
    ensures Settles(c, states[n], Clock(ticks, n)) && Past(c, states[n], Clock(ticks, n))
  {
    hide Settles, Timely, RowsRespected, Remembered, Enabled, Next;
    RunInvariant(c, states, ticks, n);
    if n == 0 {
      InitialSettles(c, states[0]);
    } else {
      RunSettles(c, states, ticks, n - 1);
      assert StepAt(c, states, ticks, n - 1);
      RunKeepsBatch(c, states, ticks, n - 1);
      StepSettles(c, states[n-1], Clock(ticks, n - 1), ticks[n-1]);
    }
  }

  lemma InitialSettles(c: Config, mc: Mc)
    requires Initial(mc)
    ensures Settles(c, mc, 0)
  {
  }

  lemma LaterIsQuiet(c: Config, mc: Mc, last: nat, now: nat)
    requires Sane(c) && Past(c, mc, last) && Settles(c, mc, last) && last + Wait(c) <= now
    ensures Quiet(c, mc, now)
  {
  }

  /** The first call after a long wait. */
  function Later(c: Config, last: nat): (now: nat)
    requires c.interval > 0
    ensures now % c.interval == 0 && last + Wait(c) <= now
  {
    AlignUp(last + Wait(c), c.interval)
  }

  // ---------------------------------------------------------------- one access

  /** What the theorem is about: an open-row controller with a shared bus. */
  ghost predicate Plain(c: Config) {
    Sane(c) && c.open && !c.fullDuplex && c.bl > 0 && c.window > 0
  }

  /** The last thing that happened is a burst of bank p, and everything else is long past. */
  ghost predicate JustAccessed(c: Config, mc: Mc, p: Place, dir: Dir, now: nat) {
    && p.rank < |mc.ranks|
    && (forall t :: t in mc.bus ==> t + c.interval <= now + c.cl + Burst(c))
    && (forall k :: 0 <= k < |mc.ranks| && k != p.rank ==>
          mc.ranks[k].lastWrite + c.wtr <= now && mc.ranks[k].lastRead + c.rwbub <= now)
    && (dir.Wr? ==> mc.lastReadTime + c.rrbub <= now && mc.ranks[p.rank].lastWrite == now + c.cl + Burst(c))
  }

  lemma RunFacts(c: Config, m: Shape, r: Trace)
    requires Sane(c) && Going(c, m, r)
    ensures Built(End(r), m) && WellFormed(End(r)) && BatchInv(c, End(r))
    ensures Past(c, End(r), Time(r)) && Settles(c, End(r), Time(r))
  {
    ShapeStays(c, r.states, r.ticks, m, |r.ticks|);
    RunKeepsBatch(c, r.states, r.ticks, |r.ticks|);
    RunSettles(c, r.states, r.ticks, |r.ticks|);
  }

  /** No burst holds another one back. */
  ghost predicate BusQuiet(c: Config, mc: Mc, now: nat) {
    && (forall k :: 0 <= k < |mc.ranks| ==>
          mc.ranks[k].lastWrite + c.wtr <= now && mc.ranks[k].lastRead + c.rwbub <= now)
    && mc.lastReadTime + c.rrbub <= now && (forall t :: t in mc.bus ==> t < now)
  }

  /** The row of the one waiting request x was opened at `since`. */
  ghost predicate Opened(c: Config, mc: Mc, x: Req, since: nat) {
    && mc.queue == [x] && WellFormed(mc) && BusQuiet(c, mc, since)
    && x.place in mc.banks && mc.banks[x.place] == Bank(since, x.page, Activate, since)
  }

  /** A request for a bank that was never used opens its row. */
  lemma Opens(c: Config, m: Shape, r: Trace, x: Req, now: nat) returns (r': Trace)
    requires Plain(c) && Going(c, m, r) && End(r).queue == [] && Usable(m, x.place) && x.thread < m.threads
    requires x.place in End(r).banks && End(r).banks[x.place].action.Idle?
    requires Time(r) + Wait(c) <= now && now % c.interval == 0
    ensures Going(c, m, r') && Time(r') == now && Opened(c, End(r'), x, now) && r'.ticks != []
    ensures End(r').banks == End(r).banks[x.place := Bank(now, x.page, Activate, now)]
    ensures Commands(c, r') == Commands(c, r) + [Act(now, x.place, x.page)]
  {
    hide StepAt, Initial, Prompt, Quiet, Opened, Admit, Service, Command, Serviceable;
    RunFacts(c, m, r);
    var s := End(r);
    Arrives(c, s, x);
    LaterIsQuiet(c, s, Time(r), now);
    LoneMiss(c, s, Admit(c, s, [x]), x, now);
    r' := Serves(c, m, r, [x], now);
  }

  /** What an idle controller makes of a new request. */
  lemma Arrives(c: Config, s: Mc, x: Req)
    requires s.queue == [] && Known(s, x) && WellFormed(s)
    ensures Acceptable(s, [x]) && WellFormed(Admit(c, s, [x]))
    ensures
      var mc := Admit(c, s, [x]);
      mc.queue == [x] && mc == s.(queue := [x], counts := mc.counts, batchLast := mc.batchLast)
  {
    AdmitIsWellFormed(c, s, [x]);
  }

  lemma LoneMiss(c: Config, s: Mc, mc: Mc, x: Req, now: nat)
    requires Plain(c) && Quiet(c, s, now) && mc == s.(queue := [x], counts := mc.counts, batchLast := mc.batchLast)
    requires WellFormed(mc) && x.place in mc.banks && mc.banks[x.place].action.Idle?
    ensures Serviceable(c, mc, 0, now) && Command(c, mc, 0, now) == Act(now, x.place, x.page)
    ensures
      var mc' := Service(c, mc, 0, now);
      Opened(c, mc', x, now) && mc'.banks == mc.banks[x.place := Bank(now, x.page, Activate, now)]
  {
    assert Known(mc, mc.queue[0]);
    assert StatusOf(c, mc, 0, now).Miss?;
    ServiceIsWellFormed(c, mc, 0, now);
  }

  lemma CallWithNothing(c: Config, mc: Mc)
    ensures var mc' := Admit(c, mc, []); mc' == mc.(batchLast := mc'.batchLast)
  {
  }

  /** The calls at which the row is not ready yet. */
  lemma {:induction false} RowGetsReady(c: Config, m: Shape, r: Trace, x: Req, since: nat, calls: nat)
    returns (r': Trace)
    requires Plain(c) && Going(c, m, r) && Opened(c, End(r), x, since) && r.ticks != []
    requires since <= Time(r) && Time(r) % c.interval == 0
    requires Time(r) + calls * c.interval < since + Max(c.rcd, c.bbl) || calls == 0
    ensures Going(c, m, r') && Opened(c, End(r'), x, since) && r'.ticks != [] && End(r').banks == End(r).banks
    ensures Time(r') == Time(r) + calls * c.interval && Time(r') % c.interval == 0
    ensures Commands(c, r') == Commands(c, r)
    decreases calls
  {
    hide StepAt, Initial, Prompt, BusQuiet;
    r' := r;
    if calls > 0 {
      var now := Time(r) + c.interval;
      NextMultiple(Time(r), c.interval, calls);
      CallWithNothing(c, End(r));
      assert Known(End(r), End(r).queue[0]);
      var mid := Waits(c, m, r, now);
      assert Opened(c, End(mid), x, since) by { SameBursts(c, End(r), End(mid), since); }
      r' := RowGetsReady(c, m, mid, x, since, calls - 1);
    }
  }

  lemma SameBursts(c: Config, a: Mc, b: Mc, now: nat)
    requires BusQuiet(c, a, now) && b == a.(batchLast := b.batchLast)
    ensures BusQuiet(c, b, now)
  {
  }

  lemma NextMultiple(from: nat, interval: nat, calls: nat)
    requires interval > 0 && from % interval == 0 && calls > 0
    ensures (from + interval) % interval == 0 && from + interval <= from + calls * interval
    ensures from + interval + (calls - 1) * interval == from + calls * interval
  {
    Multiple(1, interval);
    AlignedSum(from, interval, interval);
    AtLeastOnce(calls, interval);
  }

  /** The request is served as soon as its row is ready, and the row stays open. */
  lemma Accesses(c: Config, m: Shape, r: Trace, x: Req, since: nat) returns (r': Trace)
    requires Plain(c) && Going(c, m, r) && Opened(c, End(r), x, since) && r.ticks != [] && since == Time(r)
    requires since % c.interval == 0 && Usable(m, x.place)
    ensures Going(c, m, r') && End(r').queue == [] && Time(r') % c.interval == 0 && since <= Time(r')
    ensures End(r').banks == End(r).banks[x.place := Bank(Time(r'), x.page, Column(DirOf(x.op)), since)]
    ensures Commands(c, r') == Commands(c, r) + [Col(Time(r'), x.place, x.page, DirOf(x.op), false)]
    ensures JustAccessed(c, End(r'), x.place, DirOf(x.op), Time(r'))
  {
    hide Run, Prompt;
    var calls := CallsUntil(Max(c.rcd, c.bbl), c.interval);
    var mid := RowGetsReady(c, m, r, x, since, calls);
    NextMultiple(Time(mid), c.interval, 1);
    r' := RowHit(c, m, mid, x, since, Time(mid) + c.interval);
  }

  /** How often the controller is called before `need` has passed, not counting the call at which it has. */
  lemma CallsUntil(need: nat, interval: nat) returns (calls: nat)
    requires interval > 0
    ensures calls == 0 || calls * interval < need
    ensures need <= calls * interval + interval
  {
    calls := if need == 0 then 0 else (need - 1) / interval;
    assert need > 0 ==> need - 1 == calls * interval + (need - 1) % interval;
  }

  lemma RowHit(c: Config, m: Shape, r: Trace, x: Req, since: nat, now: nat) returns (r': Trace)
    requires Plain(c) && Going(c, m, r) && Opened(c, End(r), x, since) && MayCall(c, r, now) && Usable(m, x.place)
    requires since + c.rcd <= now && since + c.bbl <= now
    ensures Going(c, m, r') && Time(r') == now && End(r').queue == []
    ensures End(r').banks == End(r).banks[x.place := Bank(now, x.page, Column(DirOf(x.op)), since)]
    ensures Commands(c, r') == Commands(c, r) + [Col(now, x.place, x.page, DirOf(x.op), false)]
    ensures JustAccessed(c, End(r'), x.place, DirOf(x.op), now)
  {
    hide StepAt, Initial, Prompt, BusQuiet, JustAccessed;
    RunFacts(c, m, r);
    var mc := Admit(c, End(r), []);
    CallWithNothing(c, End(r));
    SameBursts(c, End(r), mc, since);
    LoneHit(c, mc, x, since, now);
    r' := Serves(c, m, r, [], now);
    RunFacts(c, m, r');
    BurstDone(c, mc, since, now, End(r'));
  }

  lemma LoneHit(c: Config, mc: Mc, x: Req, since: nat, now: nat)
    requires Plain(c) && Opened(c, mc, x, since) && since + c.rcd <= now && since + c.bbl <= now
    ensures Serviceable(c, mc, 0, now) && Command(c, mc, 0, now) == Col(now, x.place, x.page, DirOf(x.op), false)
    ensures
      var mc' := Service(c, mc, 0, now);
      mc'.queue == [] && mc'.banks == mc.banks[x.place := Bank(now, x.page, Column(DirOf(x.op)), since)]
  {
    assert Known(mc, mc.queue[0]);
    assert ColumnAllowed(c, mc, x.place.rank, DirOf(x.op), now);
  }

  lemma BurstDone(c: Config, mc: Mc, since: nat, now: nat, after: Mc)
    requires Plain(c) && WellFormed(mc) && |mc.queue| == 1 && BusQuiet(c, mc, since) && since <= now
    requires after == Service(c, mc, 0, now) && Command(c, mc, 0, now).Col? && Settles(c, after, now)
    ensures JustAccessed(c, after, mc.queue[0].place, DirOf(mc.queue[0].op), now)
  {
    hide BurstInto, Slots;
    assert Known(mc, mc.queue[0]);
  }

  // ---------------------------------------------------------------- bubbles that are not kept

  /** How soon after a burst of bank p the checks let bank q, its row open, take the bus in the other direction. */
  ghost predicate Clears(c: Config, p: Place, q: Place, dir: Dir, gap: nat)
    requires c.interval > 0
  {
    && gap % c.interval == 0 && Burst(c) <= gap && c.cl + Burst(c) < gap + c.interval
    && (p.rank == q.rank ==> dir.Wr? && (c.wtr == 0 || c.cl + Burst(c) + c.wtr <= gap))
    && (p == q ==> c.bbl <= gap)
  }

  lemma MayTurn(c: Config, mc: Mc, p: Place, q: Place, dir: Dir, at: nat, gap: nat)
    requires Plain(c) && JustAccessed(c, mc, p, dir, at) && Clears(c, p, q, dir, gap) && q.rank < |mc.ranks|
    ensures ColumnAllowed(c, mc, q.rank, Other(dir), at + gap)
  {
  }

  lemma Turns(c: Config, m: Shape, r: Trace, p: Place, y: Req, gap: nat) returns (r': Trace)
    requires Plain(c) && Going(c, m, r) && End(r).queue == [] && Usable(m, y.place) && y.thread < m.threads
    requires Time(r) % c.interval == 0 && JustAccessed(c, End(r), p, Other(DirOf(y.op)), Time(r))
    requires Clears(c, p, y.place, Other(DirOf(y.op)), gap) && y.place in End(r).banks
    requires
      var b := End(r).banks[y.place];
      b.action.Column? && b.page == y.page && b.time + c.bbl <= Time(r) + gap && b.time <= Time(r)
    ensures Going(c, m, r')
    ensures Commands(c, r') == Commands(c, r) + [Col(Time(r) + gap, y.place, y.page, DirOf(y.op), false)]
  {
    hide StepAt, Initial, Prompt, Admit, Service, Command, Serviceable, JustAccessed;
    RunFacts(c, m, r);
    var s, now := End(r), Time(r) + gap;
    Arrives(c, s, y);
    MayTurn(c, s, p, y.place, Other(DirOf(y.op)), Time(r), gap);
    LoneTurn(c, s, Admit(c, s, [y]), y, now);
    AlignedSum(Time(r), gap, c.interval);
    GapPositive(c, gap);
    r' := Serves(c, m, r, [y], now);
  }

  lemma LoneTurn(c: Config, s: Mc, mc: Mc, y: Req, now: nat)
    requires Plain(c) && mc == s.(queue := [y], counts := mc.counts, batchLast := mc.batchLast) && WellFormed(mc)
    requires y.place.rank < |s.ranks| && ColumnAllowed(c, s, y.place.rank, DirOf(y.op), now) && y.place in s.banks
    requires var b := s.banks[y.place]; b.action.Column? && b.page == y.page && b.time + c.bbl <= now
    ensures Serviceable(c, mc, 0, now) && Command(c, mc, 0, now) == Col(now, y.place, y.page, DirOf(y.op), false)
  {
    SameBuses(c, s, mc, y.place.rank, DirOf(y.op), now);
    assert StatusOf(c, mc, 0, now).Hit?;
  }

  lemma GapPositive(c: Config, gap: nat)
    requires c.interval > 0 && c.bl > 0 && Burst(c) <= gap
    ensures gap > 0
  {
    AtLeastOnce(c.bl, c.interval);
  }

  lemma SameBuses(c: Config, a: Mc, b: Mc, rank: nat, dir: Dir, now: nat)
    requires rank < |a.ranks| && b == a.(queue := b.queue, counts := b.counts, batchLast := b.batchLast)
    ensures ColumnAllowed(c, b, rank, dir, now) == ColumnAllowed(c, a, rank, dir, now)
  {
  }

  function OpOf(dir: Dir): (op: Op)
    ensures DirOf(op) == dir
  {
    if dir.Rd? then Read else Write
  }

  /** A first access to a bank. */
  lemma FirstAccess(c: Config, m: Shape, r: Trace, p: Place, dir: Dir) returns (r': Trace, log: seq<Cmd>)
    requires Plain(c) && Going(c, m, r) && End(r).queue == [] && Usable(m, p) && 0 < m.threads
    requires p in End(r).banks && End(r).banks[p].action.Idle?
    ensures Going(c, m, r') && End(r').queue == [] && JustAccessed(c, End(r'), p, dir, Time(r'))
    ensures Time(r') % c.interval == 0 && Time(r) + Wait(c) <= Time(r')
    ensures p in End(r').banks && End(r').banks == End(r).banks[p := End(r').banks[p]]
    ensures var b := End(r').banks[p]; b.time == Time(r') && b.page == 0 && b.action.Column?
    ensures Commands(c, r') == log + [Col(Time(r'), p, 0, dir, false)]
  {
    hide Run, Prompt, Opened, JustAccessed;
    var x := Req(0, 0, p, 0, OpOf(dir));
    var mid := Opens(c, m, r, x, Later(c, Time(r)));
    log := Commands(c, mid);
    r' := Accesses(c, m, mid, x, Time(mid));
  }

  lemma Start(c: Config, m: Shape) returns (r: Trace)
    ensures Going(c, m, r) && End(r).queue == []
    ensures forall p :: p in m.places ==> p in End(r).banks && End(r).banks[p].action.Idle?
  {
    var banks := map p | p in m.places :: Bank(0, 0, Idle, 0);
    var mc := Mc([], -1, seq(m.threads, _ => 0), banks, seq(m.ranks, _ => Rank(0, 0, 0)), 0, 0, map[], {}, {});
    r := Trace([mc], []);
  }

  /** A run that ends with a burst of bank p and, `gap` later, one of bank q in the other direction.  Before them bank q
      has been accessed once, so that its row is open. */
  lemma LongBubbleIgnored(c: Config, m: Shape, p: Place, q: Place, dir: Dir, gap: nat)
    returns (r: Trace, log: seq<Cmd>, at: nat)
    requires Plain(c) && 0 < m.threads && Usable(m, p) && Usable(m, q) && Clears(c, p, q, dir, gap)
    ensures Going(c, m, r)
    ensures Commands(c, r) == log + [Col(at, p, 0, dir, false), Col(at + gap, q, 0, Other(dir), false)]
  {
    hide Run, JustAccessed, AlignUp;
    r, log := PairReady(c, m, p, q, dir);
    at := Time(r);
    r := Turns(c, m, r, p, Req(0, 0, q, 0, OpOf(Other(dir))), gap);
  }

  /** The burst of bank p is issued when the row of bank q is open and quiet. */
  lemma PairReady(c: Config, m: Shape, p: Place, q: Place, dir: Dir) returns (r: Trace, log: seq<Cmd>)
    requires Plain(c) && 0 < m.threads && Usable(m, p) && Usable(m, q)
    ensures Going(c, m, r) && End(r).queue == [] && JustAccessed(c, End(r), p, dir, Time(r))
    ensures Time(r) % c.interval == 0
    ensures Commands(c, r) == log + [Col(Time(r), p, 0, dir, false)] && q in End(r).banks
    ensures
      var b := End(r).banks[q];
      && b.action.Column? && b.page == 0
      && (if p == q then b.time == Time(r) else b.time + c.bbl <= Time(r))
  {
    hide JustAccessed, Run;
    r := Start(c, m);
    if p != q { r, log := FirstAccess(c, m, r, q, Other(dir)); }
    r, log := FirstAccess(c, m, r, p, dir);
  }

  /** Such a run breaks the rule if the bubble reaches beyond the gap. */
  lemma NotKept(c: Config, m: Shape, p: Place, q: Place, dir: Dir, gap: nat, bubble: nat)
    requires Plain(c) && 0 < m.threads && Usable(m, p) && Usable(m, q) && Clears(c, p, q, dir, gap)
    requires gap < Burst(c) + bubble
    ensures !Keeps(c, m, dir, bubble)
  {
    hide Usable, StepAt;
    var r, log, at := LongBubbleIgnored(c, m, p, q, dir, gap);
    var all, n := Commands(c, r), |log|;
    assert all[n] == Col(at, p, 0, dir, false) && all[n+1] == Col(at + gap, q, 0, Other(dir), false);
    assert !LeavesBubble(c, all, dir, bubble);
    assert Run(c, r.states, r.ticks) && Built(r.states[0], m);
  }

  /** The first whole interval at which the slots of a burst that started at 0 have all been dropped. */
  lemma Dropped(c: Config) returns (gap: nat)
    requires c.interval > 0 && c.bl > 0
    ensures gap % c.interval == 0 && Burst(c) <= gap <= Burst(c) + c.cl && c.cl + Burst(c) < gap + c.interval
  {
    var whole := c.cl / c.interval;
    Multiple(c.bl, c.interval);
    Multiple(whole, c.interval);
    AlignedSum(Burst(c), whole * c.interval, c.interval);
    assert c.cl == whole * c.interval + c.cl % c.interval;
    gap := Burst(c) + whole * c.interval;
  }

  // ---------------------------------------------------------------- exactly which bubbles are kept

  /** For every open-row controller on a shared bus, whatever its ranks, banks, threads and times: its runs keep the
      bubble between a write and a read if and only if that bubble is covered. */
  lemma WriteBubbleExact(c: Config, m: Shape, p: Place)
    requires Plain(c) && 0 < m.threads && Usable(m, p)
    ensures Keeps(c, m, Wr, c.wrbub) <==> WriteBubbleCovered(c, m)
  {
    hide Keeps, Usable;
    CoveredIsKept(c, m);
    if !WriteBubbleCovered(c, m) {
      var a, b, gap := WriteOvertaken(c, m, p);
      NotKept(c, m, a, b, Wr, gap, c.wrbub);
    }
  }

  lemma WriteOvertaken(c: Config, m: Shape, p: Place) returns (a: Place, b: Place, gap: nat)
    requires Plain(c) && Usable(m, p) && !WriteBubbleCovered(c, m)
    ensures Usable(m, a) && Usable(m, b) && Clears(c, a, b, Wr, gap) && gap < Burst(c) + c.wrbub
  {
    gap := Dropped(c);
    if !OneRank(m) {
      a, b :| Usable(m, a) && Usable(m, b) && a.rank != b.rank;
    } else {
      if c.wtr > 0 { gap := Longer(c, gap, c.cl + Burst(c) + c.wtr); }
      a, b := p, p;
      if !OneBank(m) {
        a, b :| Usable(m, a) && Usable(m, b) && a != b;
      } else {
        gap := Longer(c, gap, c.bbl);
      }
    }
  }

  /** The first whole interval that is not before either time. */
  lemma Longer(c: Config, gap: nat, need: nat) returns (longer: nat)
    requires c.interval > 0 && gap % c.interval == 0
    ensures longer % c.interval == 0 && gap <= longer && need <= longer
    ensures longer == gap || longer < need + c.interval
  {
    longer := if need <= gap then gap else AlignUp(need, c.interval);
  }

  /** The same for the bubble between a read and a write. */
  lemma ReadBubbleExact(c: Config, m: Shape)
    requires Plain(c) && 0 < m.threads
    ensures Keeps(c, m, Rd, c.rwbub) <==> ReadBubbleCovered(c, m)
  {
    hide Keeps;
    CoveredIsKept(c, m);
    if !ReadBubbleCovered(c, m) {
      var a, b :| Usable(m, a) && Usable(m, b) && a.rank != b.rank;
      var gap := Dropped(c);
      NotKept(c, m, a, b, Rd, gap, c.rwbub);
    }
  }
}
