/** The DRAM command scheduler of one memory controller, on values: what each queued request may do
    now, which request is chosen, and what issuing its command changes. */
module Dram {

  import opened Basics

  datatype Op = Read | Write | WriteThenRead      // a WriteThenRead (et_s_rd_wr) is a write that is answered

  datatype Place = Place(rank: nat, bank: nat)

  datatype Req = Req(id: nat, thread: nat, place: Place, page: nat, op: Op)

  datatype Dir = Rd | Wr

  datatype Action = Activate | Column(dir: Dir) | Precharge | Idle

  datatype Bank = Bank(time: nat, page: nat, action: Action, lastActivate: nat)

  /** lastRead and lastWrite are the ends of the last bursts of the rank. */
  datatype Rank = Rank(lastActivate: nat, lastWrite: nat, lastRead: nat)

  /** Times are in ticks (the source's cycle counts multiplied by the processing interval), except the
      burst length `bl`, which counts intervals. */
  datatype Config = Config(
    interval: nat, rcd: nat, rr: nat, rp: nat, cl: nat, bl: nat, bbl: nat, ras: nat,
    wrbub: nat, rwbub: nat, rrbub: nat, wtr: nat,
    window: nat, open: bool, parBs: bool, fullDuplex: bool)

  datatype Mc = Mc(
    queue: seq<Req>, batchLast: int, counts: seq<int>,
    banks: map<Place, Bank>, ranks: seq<Rank>, lastReadRank: nat, lastReadTime: nat,
    bus: map<nat, Dir>, rdBus: set<nat>, wrBus: set<nat>)

  datatype Status = Blocked | Miss | Hit

  function Min(a: int, b: int): int { if a < b then a else b }

  function DirOf(op: Op): Dir { if op.Read? then Rd else Wr }

  predicate IsOpen(b: Bank) { b.action.Activate? || b.action.Column? }

  predicate Known(mc: Mc, r: Req) {
    r.place in mc.banks && r.place.rank < |mc.ranks| && r.thread < |mc.counts|
  }

  predicate WellFormed(mc: Mc) {
    forall k :: 0 <= k < |mc.queue| ==> Known(mc, mc.queue[k])
  }

  // ---------------------------------------------------------------- what a request may do now

  /** No slot of the burst that would start now is taken. */
  ghost predicate BusFree(c: Config, mc: Mc, dir: Dir, now: nat) {
    var lo, hi := now + c.cl, now + c.cl + c.bl * c.interval;
    if !c.fullDuplex then forall t :: t in mc.bus ==> !(lo <= t < hi)
    else if dir.Rd? then forall t :: t in mc.rdBus ==> !(lo <= t < hi)
    else forall t :: t in mc.wrBus ==> !(lo <= t < hi)
  }

  /** A slot of the other direction lies less than the turn-around bubble before the burst.  Slots
      before now have been dropped, and a bubble that would start before time zero is not checked. */
  ghost predicate Turnaround(c: Config, mc: Mc, other: Dir, bubble: nat, now: nat) {
    && !c.fullDuplex && now + c.cl >= bubble
    && exists t :: t in mc.bus && now <= t && now + c.cl - bubble <= t < now + c.cl && mc.bus[t] == other
  }

  /** May a rank start a burst in this direction now? */
  ghost predicate ColumnAllowed(c: Config, mc: Mc, rank: nat, dir: Dir, now: nat)
    requires rank < |mc.ranks|
  {
    BusFree(c, mc, dir, now) &&
    match dir
    case Rd =>
      && !Turnaround(c, mc, Wr, c.wrbub, now)
      && !(c.wtr > 0 && mc.ranks[rank].lastWrite + c.wtr > now)
      && !(mc.lastReadRank != rank && now < c.rrbub + mc.lastReadTime)
    case Wr =>
      && !Turnaround(c, mc, Rd, c.rwbub, now)
      && !(mc.ranks[rank].lastRead + c.rwbub > now)
  }

  /** Another request that competes with request i wants the row that is open in its bank. */
  predicate RowWanted(c: Config, mc: Mc, i: nat)
    requires i < |mc.queue| && WellFormed(mc)
  {
    var p := mc.queue[i].place;
    exists k :: 0 <= k < Rivals(c, mc, i) && k != i && mc.queue[k].place == p && mc.queue[k].page == mc.banks[p].page
  }

  function Rivals(c: Config, mc: Mc, i: nat): (n: int)
    ensures n <= |mc.queue|
  {
    var n := Min(|mc.queue|, c.window);
    if i <= mc.batchLast then Min(n, mc.batchLast + 1) else n
  }

  ghost function StatusOf(c: Config, mc: Mc, i: nat, now: nat): Status
    requires i < |mc.queue| && WellFormed(mc)
  {
    var r := mc.queue[i];
    var b := mc.banks[r.place];
    var mayActivate := mc.ranks[r.place.rank].lastActivate + c.rr <= now;
    if b.time > now then Blocked
    else if b.action.Precharge? || b.action.Idle? then
      if mayActivate then Miss else Blocked
    else if b.action.Activate? && b.time + c.rcd > now then Blocked
    else if b.time + c.bbl > now then Blocked
    else if b.page != r.page then
      if c.open && mayActivate && !RowWanted(c, mc, i) then Miss else Blocked
    else if ColumnAllowed(c, mc, r.place.rank, DirOf(r.op), now) then Hit else Blocked
  }

  // ---------------------------------------------------------------- which request is chosen

  /** Row hits first, then threads with fewer queued requests, then the older request. */
  ghost predicate Better(c: Config, mc: Mc, i: nat, j: nat, now: nat)
    requires i < |mc.queue| && j < |mc.queue| && WellFormed(mc)
  {
    var (si, sj) := (StatusOf(c, mc, i, now), StatusOf(c, mc, j, now));
    var (ni, nj) := (mc.counts[mc.queue[i].thread], mc.counts[mc.queue[j].thread]);
    if si != sj then si.Hit? else if ni != nj then ni < nj else i < j
  }

  function Reach(c: Config, mc: Mc): nat { Min(|mc.queue|, c.window) }

  ghost predicate Serviceable(c: Config, mc: Mc, i: int, now: nat)
    requires WellFormed(mc)
  {
    0 <= i < Reach(c, mc) && !StatusOf(c, mc, i, now).Blocked?
  }

  /** The choice: the best serviceable member of the batch; if the batch has none, the oldest
      serviceable request of the window; none only if nothing in the window is serviceable. */
  ghost predicate IsPick(c: Config, mc: Mc, pick: int, now: nat)
    requires WellFormed(mc)
  {
    if pick < 0 then forall j :: !Serviceable(c, mc, j, now)
    else
      && Serviceable(c, mc, pick, now)
      && (pick <= mc.batchLast ==>
            forall j :: Serviceable(c, mc, j, now) && j <= mc.batchLast && j != pick ==> Better(c, mc, pick, j, now))
      && (pick > mc.batchLast ==> forall j :: Serviceable(c, mc, j, now) ==> pick <= j)
  }

  // ---------------------------------------------------------------- what issuing a command changes

  datatype Cmd =
    | Act(time: nat, place: Place, page: nat)
    | Col(time: nat, place: Place, page: nat, dir: Dir, closes: bool)    // closes: the row is then precharged
    | Pre(time: nat, place: Place)

  /** When a bank that starts to precharge as early as it may is done. */
  function Closed(c: Config, b: Bank, now: nat): nat {
    c.rp + Max(now, c.ras + b.lastActivate)
  }

  /** A later request of the window wants the row that request i uses. */
  predicate Reused(c: Config, mc: Mc, i: nat)
    requires i < |mc.queue|
  {
    exists k :: i < k < Reach(c, mc) && mc.queue[k].place == mc.queue[i].place && mc.queue[k].page == mc.queue[i].page
  }

  function Command(c: Config, mc: Mc, i: nat, now: nat): Cmd
    requires i < |mc.queue| && WellFormed(mc)
  {
    var r := mc.queue[i];
    var b := mc.banks[r.place];
    if b.action.Precharge? || b.action.Idle? then Act(now, r.place, r.page)
    else if b.page != r.page then Pre(now, r.place)
    else Col(now, r.place, r.page, DirOf(r.op), !c.open && !Reused(c, mc, i))
  }

  function BankAfter(c: Config, b: Bank, cmd: Cmd): Bank {
    match cmd
    case Act(now, _, page) => Bank(now, page, Activate, now)
    case Pre(now, _) => b.(time := Closed(c, b, now), action := Precharge)
    case Col(now, _, _, dir, closes) =>
      if c.open then b.(time := now, action := Column(dir))
      else if closes then b.(time := Closed(c, b, now), action := Precharge)
      else b.(time := Closed(c, b, now) - c.rp, action := Column(dir))
  }

  function RankAfter(c: Config, k: Rank, cmd: Cmd): Rank {
    match cmd
    case Act(now, _, _) => k.(lastActivate := now)
    case Pre(_, _) => k
    case Col(now, _, _, dir, _) =>
      var end := now + c.cl + c.bl * c.interval;
      if dir.Rd? then k.(lastRead := end) else k.(lastWrite := end)
  }

  /** Slot j of a burst whose command is issued now. */
  function Slot(c: Config, now: nat, j: nat): nat { now + c.cl + j * c.interval }

  function BurstInto(c: Config, bus: map<nat, Dir>, dir: Dir, now: nat, n: nat): map<nat, Dir> {
    if n == 0 then bus
    else
      var m := BurstInto(c, bus, dir, now, n - 1);
      if Slot(c, now, n - 1) in m then m else m[Slot(c, now, n - 1) := dir]
  }

  function Slots(c: Config, now: nat, n: nat): set<nat> {
    if n == 0 then {} else Slots(c, now, n - 1) + {Slot(c, now, n - 1)}
  }

  /** The end of the batch after request i has left. */
  function BatchAfter(c: Config, mc: Mc, i: nat): int {
    if !c.parBs || mc.batchLast < i then mc.batchLast
    else if mc.batchLast == i == 0 then Min(|mc.queue| - 2, c.window - 1)
    else mc.batchLast - 1
  }

  /** The hardware side of a command: banks, ranks and buses. */
  function Issue(c: Config, mc: Mc, cmd: Cmd): Mc
    requires cmd.place in mc.banks && cmd.place.rank < |mc.ranks|
  {
    var p := cmd.place;
    var mc1 := mc.(banks := mc.banks[p := BankAfter(c, mc.banks[p], cmd)],
                   ranks := mc.ranks[p.rank := RankAfter(c, mc.ranks[p.rank], cmd)]);
    if !cmd.Col? then mc1
    else
      var now := cmd.time;
      var mc2 := mc1.(bus := BurstInto(c, mc.bus, cmd.dir, now, c.bl));
      if cmd.dir.Rd? then mc2.(rdBus := mc.rdBus + Slots(c, now, c.bl), lastReadRank := p.rank, lastReadTime := now)
      else mc2.(wrBus := mc.wrBus + Slots(c, now, c.bl))
  }

  /** The queue side: a request whose column command is issued leaves. */
  function Retire(c: Config, mc: Mc, i: nat): Mc
    requires i < |mc.queue| && mc.queue[i].thread < |mc.counts|
  {
    var t := mc.queue[i].thread;
    mc.(queue := Without(mc.queue, i), batchLast := BatchAfter(c, mc, i),
        counts := if c.parBs then mc.counts[t := mc.counts[t] - 1] else mc.counts)
  }

  function Service(c: Config, mc: Mc, i: nat, now: nat): Mc
    requires i < |mc.queue| && WellFormed(mc)
  {
    var cmd := Command(c, mc, i, now);
    var mc' := Issue(c, mc, cmd);
    if cmd.Col? then Retire(c, mc', i) else mc'
  }

  // ---------------------------------------------------------------- arrivals

  function Arrive(c: Config, mc: Mc, r: Req): Mc
    requires r.thread < |mc.counts|
  {
    mc.(queue := mc.queue + [r],
        counts := if c.parBs then mc.counts[r.thread := mc.counts[r.thread] + 1] else mc.counts)
  }

  /** A new batch is formed when there is none. */
  function FormBatch(c: Config, mc: Mc): Mc {
    if c.parBs && mc.batchLast == -1 && |mc.queue| > 0 then mc.(batchLast := Min(|mc.queue| - 1, c.window - 1)) else mc
  }

  function ArriveAll(c: Config, mc: Mc, due: seq<Req>): (r: Mc)
    requires forall k :: 0 <= k < |due| ==> due[k].thread < |mc.counts|
    ensures |r.counts| == |mc.counts|
    decreases |due|
  {
    if due == [] then mc
    else Arrive(c, ArriveAll(c, mc, due[..|due|-1]), due[|due|-1])
  }

  // ---------------------------------------------------------------- one call, and runs

  /** One call of the controller: the requests that have become due, and the request that is served. */
  datatype Tick = Tick(now: nat, due: seq<Req>, pick: int)

  ghost predicate Acceptable(mc: Mc, due: seq<Req>) {
    forall k :: 0 <= k < |due| ==> Known(mc, due[k])
  }

  function Admit(c: Config, mc: Mc, due: seq<Req>): Mc
    requires forall k :: 0 <= k < |due| ==> due[k].thread < |mc.counts|
  {
    FormBatch(c, ArriveAll(c, mc, due))
  }

  ghost predicate Enabled(c: Config, mc: Mc, last: nat, t: Tick) {
    && c.interval > 0 && last <= t.now && t.now % c.interval == 0 && Acceptable(mc, t.due)
    && WellFormed(Admit(c, mc, t.due)) && IsPick(c, Admit(c, mc, t.due), t.pick, t.now)
  }

  ghost function Next(c: Config, mc: Mc, last: nat, t: Tick): Mc
    requires Enabled(c, mc, last, t)
  {
    var mc1 := Admit(c, mc, t.due);
    if t.pick < 0 then mc1 else Service(c, mc1, t.pick, t.now)
  }

  ghost function Issued(c: Config, mc: Mc, last: nat, t: Tick): seq<Cmd>
    requires Enabled(c, mc, last, t)
  {
    if t.pick < 0 then [] else [Command(c, Admit(c, mc, t.due), t.pick, t.now)]
  }

  ghost predicate Initial(mc: Mc) {
    && mc.queue == [] && mc.batchLast == -1 && (forall t :: 0 <= t < |mc.counts| ==> mc.counts[t] == 0)
    && (forall p :: p in mc.banks ==> mc.banks[p] == Bank(0, 0, Idle, 0))
    && (forall k :: 0 <= k < |mc.ranks| ==> mc.ranks[k] == Rank(0, 0, 0))
    && mc.lastReadRank == 0 && mc.lastReadTime == 0 && mc.bus == map[] && mc.rdBus == {} && mc.wrBus == {}
  }

  function Clock(ticks: seq<Tick>, n: nat): nat
    requires n <= |ticks|
  {
    if n == 0 then 0 else ticks[n-1].now
  }

  ghost predicate StepAt(c: Config, states: seq<Mc>, ticks: seq<Tick>, n: nat)
    requires n < |ticks| && |states| == |ticks| + 1
  {
    Enabled(c, states[n], Clock(ticks, n), ticks[n]) && states[n+1] == Next(c, states[n], Clock(ticks, n), ticks[n])
  }

  ghost predicate Run(c: Config, states: seq<Mc>, ticks: seq<Tick>) {
    && |states| == |ticks| + 1 && Initial(states[0])
    && forall n {:trigger StepAt(c, states, ticks, n)} :: 0 <= n < |ticks| ==> StepAt(c, states, ticks, n)
  }

  lemma RunExtends(c: Config, states: seq<Mc>, ticks: seq<Tick>, t: Tick)
    requires Run(c, states, ticks) && Enabled(c, states[|ticks|], Clock(ticks, |ticks|), t)
    ensures Run(c, states + [Next(c, states[|ticks|], Clock(ticks, |ticks|), t)], ticks + [t])
  {
    hide Enabled, Next;
    var states', ticks' := states + [Next(c, states[|ticks|], Clock(ticks, |ticks|), t)], ticks + [t];
    forall n | 0 <= n < |ticks'| ensures StepAt(c, states', ticks', n) {
      assert Clock(ticks', n) == Clock(ticks, n);
      if n < |ticks| { assert StepAt(c, states, ticks, n); }
    }
  }

  /** All commands of the first n calls. */
  ghost function Log(c: Config, states: seq<Mc>, ticks: seq<Tick>, n: nat): seq<Cmd>
    requires Run(c, states, ticks) && n <= |ticks|
  {
    if n == 0 then []
    else
      assert StepAt(c, states, ticks, n - 1);
      Log(c, states, ticks, n - 1) + Issued(c, states[n-1], Clock(ticks, n - 1), ticks[n-1])
  }

  lemma {:induction false} ArrivalsQueue(c: Config, mc: Mc, due: seq<Req>)
    requires forall k :: 0 <= k < |due| ==> due[k].thread < |mc.counts|
    ensures
      var mc' := ArriveAll(c, mc, due);
      mc' == mc.(queue := mc.queue + due, counts := mc'.counts)
  {
    if due != [] { ArrivalsQueue(c, mc, due[..|due|-1]); }
  }

  lemma AdmitIsWellFormed(c: Config, mc: Mc, due: seq<Req>)
    requires WellFormed(mc) && Acceptable(mc, due)
    ensures WellFormed(Admit(c, mc, due))
    ensures
      var mc' := Admit(c, mc, due);
      mc' == mc.(queue := mc.queue + due, counts := mc'.counts, batchLast := mc'.batchLast)
  {
    ArrivalsQueue(c, mc, due);
  }

  lemma ServiceIsWellFormed(c: Config, mc: Mc, i: nat, now: nat)
    requires WellFormed(mc) && i < |mc.queue|
    ensures WellFormed(Service(c, mc, i, now))
  {
    var cmd := Command(c, mc, i, now);
    var mc' := Service(c, mc, i, now);
    assert Known(mc, mc.queue[i]);
    forall k | 0 <= k < |mc'.queue| ensures Known(mc', mc'.queue[k]) {
      assert Known(mc, mc.queue[if !cmd.Col? || k < i then k else k + 1]);
    }
  }
}
