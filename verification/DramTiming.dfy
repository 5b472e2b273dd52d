/** Over every run of the scheduler the commands it issues respect the DRAM timing rules. */
module DramTiming {
  import opened Basics
  import opened Dram
  import opened Numbers

  // ---------------------------------------------------------------- the rules

  /** What must lie between two commands, a issued before b. */
  ghost predicate Apart(c: Config, a: Cmd, b: Cmd) {
    && a.time <= b.time
    && (a.Act? && b.Act? && a.place == b.place ==> a.time + c.ras + c.rp <= b.time)
    && (a.Act? && b.Act? && a.place.rank == b.place.rank ==> a.time + c.rr <= b.time)
    && (a.Act? && b.Col? && a.place == b.place ==> a.time + c.rcd <= b.time)
    && (a.Col? && b.Act? && a.place == b.place ==> a.time + c.rp <= b.time)
    && (a.Pre? && b.Act? && a.place == b.place ==> a.time + c.rp <= b.time)
    && (a.Col? && b.Col? && a.place == b.place ==> a.time + c.bbl <= b.time)
    && (a.Col? && b.Col? ==> BurstsApart(c, a, b))
  }

  /** Bursts that share a bus do not overlap, and a change of direction or of rank leaves the bubble.  Which bubbles a
      controller keeps in all is the subject of `DramBubbles`. */
  ghost predicate BurstsApart(c: Config, a: Cmd, b: Cmd)
    requires a.Col? && b.Col?
  {
    var burst := c.bl * c.interval;
    && (!c.fullDuplex || a.dir == b.dir ==> a.time + burst <= b.time)
    && (!c.fullDuplex && c.bl > 0 && a.dir.Wr? && b.dir.Rd? && c.wrbub <= c.cl ==> a.time + burst + c.wrbub <= b.time)
    && (!c.fullDuplex && c.bl > 0 && a.dir.Rd? && b.dir.Wr? && c.rwbub <= c.cl ==> a.time + burst + c.rwbub <= b.time)
    && (a.place.rank == b.place.rank && a.dir.Wr? && b.dir.Rd? && c.wtr > 0 ==> a.time + c.cl + burst + c.wtr <= b.time)
    && (a.place.rank == b.place.rank && a.dir.Rd? && b.dir.Wr? ==> a.time + c.cl + burst + c.rwbub <= b.time)
    && (a.place.rank != b.place.rank && a.dir.Rd? && b.dir.Rd? ==> a.time + c.rrbub <= b.time)
  }

  ghost predicate Timely(c: Config, log: seq<Cmd>) {
    forall i, j :: 0 <= i < j < |log| ==> Apart(c, log[i], log[j])
  }

  /** The row that is open in a bank after the commands of `log`. */
  function OpenRow(log: seq<Cmd>, p: Place): Option<nat> {
    if log == [] then None
    else
      var cmd := log[|log|-1];
      if cmd.place != p then OpenRow(log[..|log|-1], p)
      else match cmd
        case Act(_, _, page) => Some(page)
        case Pre(_, _) => None
        case Col(_, _, page, _, closes) => if closes then None else OpenRow(log[..|log|-1], p)
  }

  /** A row is activated only in a bank without an open row, and columns are accessed and rows closed
      only where that row is open. */
  ghost predicate RowRule(log: seq<Cmd>, cmd: Cmd) {
    match cmd
    case Act(_, p, _) => OpenRow(log, p).None?
    case Pre(_, p) => OpenRow(log, p).Some?
    case Col(_, p, page, _, _) => OpenRow(log, p) == Some(page)
  }

  ghost predicate RowsRespected(log: seq<Cmd>) {
    forall j :: 0 <= j < |log| ==> RowRule(log[..j], log[j])
  }

  // ---------------------------------------------------------------- what the controller remembers

  ghost predicate Sane(c: Config) {
    c.interval > 0 && c.wrbub % c.interval == 0 && c.rwbub % c.interval == 0
  }

  ghost predicate BankOk(c: Config, b: Bank, now: nat) {
    match b.action
    case Idle => true
    case Activate => b.time == b.lastActivate
    case Column(_) => b.lastActivate + c.rcd <= now
    case Precharge => b.lastActivate + c.ras + c.rp <= b.time
  }

  /** What the controller's state still knows of a command it issued. */
  ghost predicate Remembered(c: Config, mc: Mc, a: Cmd, now: nat)
    requires c.interval > 0
  {
    && a.time <= now && a.time % c.interval == 0
    && a.place in mc.banks && a.place.rank < |mc.ranks|
    && BankRemembers(c, mc.banks[a.place], a)
    && (a.Act? ==> a.time <= mc.ranks[a.place.rank].lastActivate)
    && (a.Col? ==> BurstRemembered(c, mc, a))
  }

  ghost predicate BankRemembers(c: Config, b: Bank, a: Cmd) {
    && (a.Act? ==> a.time <= b.lastActivate && !b.action.Idle?)
    && (!a.Act? && b.action.Precharge? ==> a.time + c.rp <= b.time)
    && (!a.Act? ==> a.time <= b.time && !b.action.Idle?)
  }

  ghost predicate BurstRemembered(c: Config, mc: Mc, a: Cmd)
    requires a.Col? && a.place.rank < |mc.ranks|
  {
    var end := a.time + c.cl + c.bl * c.interval;
    && (a.dir.Rd? ==> end <= mc.ranks[a.place.rank].lastRead)
    && (a.dir.Wr? ==> end <= mc.ranks[a.place.rank].lastWrite)
    && (a.dir.Rd? ==> a.time <= mc.lastReadTime)
    && (a.dir.Rd? && a.place.rank != mc.lastReadRank ==> a.time + c.rrbub <= mc.lastReadTime)
    && (forall j :: 0 <= j < c.bl ==> SlotTaken(c, mc, a, j))
  }

  ghost predicate SlotTaken(c: Config, mc: Mc, a: Cmd, j: nat)
    requires a.Col?
  {
    var t := Slot(c, a.time, j);
    && (!c.fullDuplex ==> t in mc.bus && mc.bus[t] == a.dir)
    && (a.dir.Rd? ==> t in mc.rdBus)
    && (a.dir.Wr? ==> t in mc.wrBus)
  }

  /** Nothing the controller remembers lies after now. */
  ghost predicate Past(c: Config, mc: Mc, now: nat) {
    var end := now + c.cl + c.bl * c.interval;
    && (forall p :: p in mc.banks ==> mc.banks[p].lastActivate <= now)
    && (forall k :: 0 <= k < |mc.ranks| ==>
          mc.ranks[k].lastActivate <= now && mc.ranks[k].lastRead <= end && mc.ranks[k].lastWrite <= end)
    && mc.lastReadTime <= now
  }

  ghost predicate Inv(c: Config, mc: Mc, log: seq<Cmd>, now: nat)
    requires c.interval > 0
  {
    && WellFormed(mc) && Past(c, mc, now)
    && (forall k :: 0 <= k < |log| ==> Remembered(c, mc, log[k], now))
    && (forall p :: p in mc.banks ==> BankOk(c, mc.banks[p], now))
    && (forall p :: p in mc.banks ==> OpenRow(log, p) == if IsOpen(mc.banks[p]) then Some(mc.banks[p].page) else None)
    && Timely(c, log) && RowsRespected(log)
  }

  // ---------------------------------------------------------------- the bus

  /** A slot of an aligned burst that reaches past an aligned time starts at or after that time. */
  lemma SlotAt(c: Config, from: nat, t: nat)
    requires c.interval > 0 && from % c.interval == 0 && t % c.interval == 0
    requires from <= t < from + c.bl * c.interval
    ensures exists j :: 0 <= j < c.bl && from + j * c.interval == t
  {
    var j := t / c.interval - from / c.interval;
    assert t == (t / c.interval) * c.interval && from == (from / c.interval) * c.interval;
    assert from + j * c.interval == t;
    if j < 0 { LessOften(j, -1, c.interval); }
    if j >= c.bl { LessOften(c.bl, j, c.interval); }
  }

  lemma LessOften(a: int, b: int, m: nat)
    requires a <= b
    ensures a * m <= b * m
  {
    assert (b - a) * m >= 0;
  }

  /** A burst that shares the bus and has not ended blocks the bus. */
  lemma BusyBus(c: Config, mc: Mc, a: Cmd, dir: Dir, now: nat)
    requires Sane(c) && a.Col? && a.time <= now && a.time % c.interval == 0 && now % c.interval == 0
    requires forall j :: 0 <= j < c.bl ==> SlotTaken(c, mc, a, j)
    requires !c.fullDuplex || a.dir == dir
    requires now < a.time + c.bl * c.interval
    ensures !BusFree(c, mc, dir, now)
  {
    SlotAt(c, a.time, now);
    var j :| 0 <= j < c.bl && a.time + j * c.interval == now;
    assert SlotTaken(c, mc, a, j) && Slot(c, a.time, j) == now + c.cl;
    AtLeastOnce(c.bl, c.interval);
  }

  /** A burst of the other direction that ended inside the bubble forbids the turn-around. */
  lemma BubbleKept(c: Config, mc: Mc, a: Cmd, bubble: nat, now: nat)
    requires Sane(c) && a.Col? && a.time % c.interval == 0 && now % c.interval == 0 && bubble % c.interval == 0
    requires !c.fullDuplex && c.bl > 0 && bubble <= c.cl
    requires SlotTaken(c, mc, a, c.bl - 1)
    requires a.time + c.bl * c.interval <= now < a.time + c.bl * c.interval + bubble
    ensures Turnaround(c, mc, a.dir, bubble, now)
  {
    var end := a.time + c.bl * c.interval;
    var t := Slot(c, a.time, c.bl - 1);
    assert t == end + c.cl - c.interval;
    Multiple(c.bl, c.interval);
    AlignedSum(a.time, c.bl * c.interval, c.interval);
    AlignedSum(end, bubble, c.interval);
    AlignedGap(now, end + bubble, c.interval);
    assert now + c.cl - bubble <= t < now + c.cl;
    assert t in mc.bus && mc.bus[t] == a.dir;
  }

  lemma AlignedGap(a: nat, b: nat, m: nat)
    requires m > 0 && a % m == 0 && b % m == 0 && a < b
    ensures a + m <= b
  {
    if b < a + m { AlignedNeighbours(a, b, m); }
  }

  // ---------------------------------------------------------------- a ready command keeps its distance

  /** The command of a serviceable request, in terms of the state alone. */
  ghost predicate Legal(c: Config, mc: Mc, cmd: Cmd) {
    && cmd.place in mc.banks && cmd.place.rank < |mc.ranks|
    && mc.banks[cmd.place].time <= cmd.time
    && match cmd
       case Act(now, p, _) => !IsOpen(mc.banks[p]) && mc.ranks[p.rank].lastActivate + c.rr <= now
       case Pre(now, p) => c.open && IsOpen(mc.banks[p]) && Settled(c, mc.banks[p], now)
       case Col(now, p, page, dir, closes) =>
         && IsOpen(mc.banks[p]) && Settled(c, mc.banks[p], now) && mc.banks[p].page == page && (c.open ==> !closes)
         && mc.banks[p].time + c.bbl <= now
         && ColumnAllowed(c, mc, p.rank, dir, now)
  }

  predicate Settled(c: Config, b: Bank, now: nat) {
    b.action.Activate? ==> b.time + c.rcd <= now
  }

  lemma ServiceableIsLegal(c: Config, mc: Mc, i: nat, now: nat)
    requires WellFormed(mc) && Serviceable(c, mc, i, now)
    ensures Legal(c, mc, Command(c, mc, i, now))
  {
    var r := mc.queue[i];
    assert Known(mc, r);
  }

  lemma RowsApart(c: Config, mc: Mc, a: Cmd, b: Cmd)
    requires Sane(c) && Remembered(c, mc, a, b.time) && Legal(c, mc, b) && BankOk(c, mc.banks[b.place], b.time)
    ensures a.Act? && b.Act? && a.place == b.place ==> a.time + c.ras + c.rp <= b.time
    ensures a.Act? && b.Act? && a.place.rank == b.place.rank ==> a.time + c.rr <= b.time
    ensures a.Act? && b.Col? && a.place == b.place ==> a.time + c.rcd <= b.time
    ensures !a.Act? && b.Act? && a.place == b.place ==> a.time + c.rp <= b.time
    ensures a.Col? && b.Col? && a.place == b.place ==> a.time + c.bbl <= b.time
  {
  }

  lemma SharedBusApart(c: Config, mc: Mc, a: Cmd, b: Cmd)
    requires Sane(c) && a.Col? && b.Col? && Remembered(c, mc, a, b.time) && b.time % c.interval == 0
    requires b.place.rank < |mc.ranks| && ColumnAllowed(c, mc, b.place.rank, b.dir, b.time)
    requires !c.fullDuplex || a.dir == b.dir
    ensures a.time + c.bl * c.interval <= b.time
    ensures !c.fullDuplex && c.bl > 0 && a.dir.Wr? && b.dir.Rd? && c.wrbub <= c.cl ==>
      a.time + c.bl * c.interval + c.wrbub <= b.time
    ensures !c.fullDuplex && c.bl > 0 && a.dir.Rd? && b.dir.Wr? && c.rwbub <= c.cl ==>
      a.time + c.bl * c.interval + c.rwbub <= b.time
  {
    var now := b.time;
    var end := a.time + c.bl * c.interval;
    if now < end { BusyBus(c, mc, a, b.dir, now); }
    if !c.fullDuplex && c.bl > 0 && a.dir != b.dir {
      var bubble := if a.dir.Wr? then c.wrbub else c.rwbub;
      assert SlotTaken(c, mc, a, c.bl - 1);
      if bubble <= c.cl && now < end + bubble { BubbleKept(c, mc, a, bubble, now); }
    }
  }

  lemma RankApart(c: Config, mc: Mc, a: Cmd, b: Cmd)
    requires Sane(c) && a.Col? && b.Col? && Remembered(c, mc, a, b.time)
    requires b.place.rank < |mc.ranks| && ColumnAllowed(c, mc, b.place.rank, b.dir, b.time)
    ensures a.place.rank == b.place.rank && a.dir.Wr? && b.dir.Rd? && c.wtr > 0 ==>
      a.time + c.cl + c.bl * c.interval + c.wtr <= b.time
    ensures a.place.rank == b.place.rank && a.dir.Rd? && b.dir.Wr? ==>
      a.time + c.cl + c.bl * c.interval + c.rwbub <= b.time
    ensures mc.lastReadTime <= b.time && a.place.rank != b.place.rank && a.dir.Rd? && b.dir.Rd? ==>
      a.time + c.rrbub <= b.time
  {
    assert BurstRemembered(c, mc, a);
  }

  lemma LegalBurstsApart(c: Config, mc: Mc, a: Cmd, b: Cmd)
    requires Sane(c) && a.Col? && b.Col? && Remembered(c, mc, a, b.time) && b.time % c.interval == 0
    requires b.place.rank < |mc.ranks| && ColumnAllowed(c, mc, b.place.rank, b.dir, b.time) && mc.lastReadTime <= b.time
    ensures BurstsApart(c, a, b)
  {
    RankApart(c, mc, a, b);
    if !c.fullDuplex || a.dir == b.dir { SharedBusApart(c, mc, a, b); }
  }

  /** A legal command keeps its distance from every command before it. */
  lemma LegalIsApart(c: Config, mc: Mc, a: Cmd, b: Cmd)
    requires Sane(c) && Remembered(c, mc, a, b.time) && Legal(c, mc, b) && BankOk(c, mc.banks[b.place], b.time)
    requires b.time % c.interval == 0 && mc.lastReadTime <= b.time
    ensures Apart(c, a, b)
  {
    RowsApart(c, mc, a, b);
    if a.Col? && b.Col? { LegalBurstsApart(c, mc, a, b); }
  }

  // ---------------------------------------------------------------- and is remembered

  lemma {:induction false} BurstKeepsBus(c: Config, bus: map<nat, Dir>, dir: Dir, now: nat, n: nat, t: nat)
    requires t in bus
    ensures t in BurstInto(c, bus, dir, now, n) && BurstInto(c, bus, dir, now, n)[t] == bus[t]
  {
    if n > 0 { BurstKeepsBus(c, bus, dir, now, n - 1, t); }
  }

  lemma SlotInBurst(c: Config, now: nat, j: nat)
    requires j < c.bl && c.interval > 0
    ensures now + c.cl <= Slot(c, now, j) < now + c.cl + c.bl * c.interval
  {
    LessOften(j + 1, c.bl, c.interval);
    assert (j + 1) * c.interval == j * c.interval + c.interval;
  }

  /** The slots of a new burst were free, so each is recorded with its own direction. */
  lemma {:induction false} BurstRecorded(c: Config, bus: map<nat, Dir>, dir: Dir, now: nat, n: nat, j: nat)
    requires j < n <= c.bl && c.interval > 0
    requires forall t :: t in bus ==> !(now + c.cl <= t < now + c.cl + c.bl * c.interval)
    ensures Slot(c, now, j) in BurstInto(c, bus, dir, now, n) && BurstInto(c, bus, dir, now, n)[Slot(c, now, j)] == dir
  {
    if j < n - 1 {
      BurstRecorded(c, bus, dir, now, n - 1, j);
    } else {
      SlotInBurst(c, now, j);
      BurstOnlyAdds(c, bus, dir, now, n - 1, Slot(c, now, j));
    }
  }

  lemma {:induction false} BurstOnlyAdds(c: Config, bus: map<nat, Dir>, dir: Dir, now: nat, n: nat, t: nat)
    ensures t in BurstInto(c, bus, dir, now, n) && t !in bus ==> BurstInto(c, bus, dir, now, n)[t] == dir
  {
    if n > 0 { BurstOnlyAdds(c, bus, dir, now, n - 1, t); }
  }

  lemma {:induction false} SlotIn(c: Config, now: nat, n: nat, j: nat)
    requires j < n
    ensures Slot(c, now, j) in Slots(c, now, n)
  {
    if j < n - 1 { SlotIn(c, now, n - 1, j); }
  }

  lemma SlotStaysTaken(c: Config, mc: Mc, a: Cmd, cmd: Cmd, j: nat)
    requires a.Col? && cmd.place in mc.banks && cmd.place.rank < |mc.ranks| && SlotTaken(c, mc, a, j)
    ensures SlotTaken(c, Issue(c, mc, cmd), a, j)
  {
    if !c.fullDuplex && cmd.Col? { BurstKeepsBus(c, mc.bus, cmd.dir, cmd.time, c.bl, Slot(c, a.time, j)); }
  }

  lemma OwnSlotsTaken(c: Config, mc: Mc, cmd: Cmd, j: nat)
    requires Sane(c) && Legal(c, mc, cmd) && cmd.Col? && j < c.bl
    ensures SlotTaken(c, Issue(c, mc, cmd), cmd, j)
  {
    SlotIn(c, cmd.time, c.bl, j);
    if !c.fullDuplex { BurstRecorded(c, mc.bus, cmd.dir, cmd.time, c.bl, j); }
  }

  lemma BankAfterOk(c: Config, b: Bank, cmd: Cmd)
    requires BankOk(c, b, cmd.time)
    requires cmd.Col? ==> IsOpen(b) && Settled(c, b, cmd.time)
    requires cmd.Pre? ==> IsOpen(b)
    ensures BankOk(c, BankAfter(c, b, cmd), cmd.time)
  {
  }

  lemma BankStillRemembers(c: Config, b: Bank, a: Cmd, cmd: Cmd)
    requires BankRemembers(c, b, a) && a.time <= cmd.time && (a.Act? ==> b.lastActivate <= cmd.time)
    requires cmd.Act? ==> !IsOpen(b)
    ensures BankRemembers(c, BankAfter(c, b, cmd), a)
  {
  }

  lemma StillRemembered(c: Config, mc: Mc, a: Cmd, cmd: Cmd)
    requires Sane(c) && Remembered(c, mc, a, cmd.time) && Legal(c, mc, cmd)
    requires BankOk(c, mc.banks[cmd.place], cmd.time) && Past(c, mc, cmd.time) && Apart(c, a, cmd)
    ensures Remembered(c, Issue(c, mc, cmd), a, cmd.time)
  {
    if a.place == cmd.place { BankStillRemembers(c, mc.banks[cmd.place], a, cmd); }
    if a.Col? {
      forall j | 0 <= j < c.bl ensures SlotTaken(c, Issue(c, mc, cmd), a, j) {
        SlotStaysTaken(c, mc, a, cmd, j);
      }
    }
  }

  lemma IsRemembered(c: Config, mc: Mc, cmd: Cmd)
    requires Sane(c) && Legal(c, mc, cmd) && cmd.time % c.interval == 0
    ensures Remembered(c, Issue(c, mc, cmd), cmd, cmd.time)
  {
    if cmd.Col? {
      forall j | 0 <= j < c.bl ensures SlotTaken(c, Issue(c, mc, cmd), cmd, j) {
        OwnSlotsTaken(c, mc, cmd, j);
      }
    }
  }

  // ---------------------------------------------------------------- one command

  lemma TimelyExtends(c: Config, log: seq<Cmd>, cmd: Cmd)
    requires Timely(c, log) && forall k :: 0 <= k < |log| ==> Apart(c, log[k], cmd)
    ensures Timely(c, log + [cmd])
  {
  }

  lemma RowsExtend(log: seq<Cmd>, cmd: Cmd)
    requires RowsRespected(log) && RowRule(log, cmd)
    ensures RowsRespected(log + [cmd])
  {
    var log' := log + [cmd];
    forall j | 0 <= j < |log'| ensures RowRule(log'[..j], log'[j]) {
      assert log'[..j] == log[..j];
      assert log[..|log|] == log;
    }
  }

  lemma OpenRowAfter(log: seq<Cmd>, cmd: Cmd, p: Place)
    ensures OpenRow(log + [cmd], p) ==
      if cmd.place != p then OpenRow(log, p)
      else match cmd
        case Act(_, _, page) => Some(page)
        case Pre(_, _) => None
        case Col(_, _, page, _, closes) => if closes then None else OpenRow(log, p)
  {
    assert (log + [cmd])[..|log|] == log;
  }

  lemma RowsFollow(c: Config, mc: Mc, log: seq<Cmd>, cmd: Cmd, p: Place)
    requires Legal(c, mc, cmd) && p in mc.banks
    requires OpenRow(log, p) == if IsOpen(mc.banks[p]) then Some(mc.banks[p].page) else None
    ensures
      var b := Issue(c, mc, cmd).banks[p];
      OpenRow(log + [cmd], p) == if IsOpen(b) then Some(b.page) else None
  {
    OpenRowAfter(log, cmd, p);
  }

  lemma PastAfter(c: Config, mc: Mc, cmd: Cmd)
    requires Past(c, mc, cmd.time) && Legal(c, mc, cmd)
    ensures Past(c, Issue(c, mc, cmd), cmd.time)
  {
  }

  /** One legal command keeps everything the controller remembers, and all the rules. */
  lemma IssueKeeps(c: Config, mc: Mc, log: seq<Cmd>, cmd: Cmd)
    requires Sane(c) && Inv(c, mc, log, cmd.time) && Legal(c, mc, cmd) && cmd.time % c.interval == 0
    ensures Inv(c, Issue(c, mc, cmd), log + [cmd], cmd.time)
  {
    var mc', log' := Issue(c, mc, cmd), log + [cmd];
    PastAfter(c, mc, cmd);
    forall k | 0 <= k < |log| ensures Apart(c, log[k], cmd) && Remembered(c, mc', log[k], cmd.time) {
      LegalIsApart(c, mc, log[k], cmd);
      StillRemembered(c, mc, log[k], cmd);
    }
    IsRemembered(c, mc, cmd);
    TimelyExtends(c, log, cmd);
    RowsExtend(log, cmd);
    BankAfterOk(c, mc.banks[cmd.place], cmd);
    forall p | p in mc'.banks
      ensures OpenRow(log', p) == if IsOpen(mc'.banks[p]) then Some(mc'.banks[p].page) else None
    {
      RowsFollow(c, mc, log, cmd, p);
    }
    forall k | 0 <= k < |mc'.queue| ensures Known(mc', mc'.queue[k]) {
      assert Known(mc, mc.queue[k]);
    }
  }

  /** Only banks, ranks and buses matter to the rules. */
  lemma QueueIrrelevant(c: Config, mc: Mc, mc': Mc, log: seq<Cmd>, now: nat, now': nat)
    requires c.interval > 0 && Inv(c, mc, log, now) && WellFormed(mc') && now <= now'
    requires mc'.banks == mc.banks && mc'.ranks == mc.ranks && mc'.bus == mc.bus && mc'.rdBus == mc.rdBus &&
      mc'.wrBus == mc.wrBus
    requires mc'.lastReadRank == mc.lastReadRank && mc'.lastReadTime == mc.lastReadTime
    ensures Inv(c, mc', log, now')
  {
    forall k | 0 <= k < |log| ensures Remembered(c, mc', log[k], now') {
      var a := log[k];
      assert Remembered(c, mc, a, now);
      if a.Col? {
        forall j | 0 <= j < c.bl ensures SlotTaken(c, mc', a, j) { assert SlotTaken(c, mc, a, j); }
      }
    }
    assert forall p :: p in mc.banks ==> BankOk(c, mc.banks[p], now');
  }

  // ---------------------------------------------------------------- every run

  lemma ServiceKeeps(c: Config, mc: Mc, log: seq<Cmd>, i: nat, now: nat)
    requires Sane(c) && now % c.interval == 0 && Inv(c, mc, log, now) && Serviceable(c, mc, i, now)
    ensures Inv(c, Service(c, mc, i, now), log + [Command(c, mc, i, now)], now)
  {
    var cmd := Command(c, mc, i, now);
    ServiceableIsLegal(c, mc, i, now);
    IssueKeeps(c, mc, log, cmd);
    var mc1 := Issue(c, mc, cmd);
    if cmd.Col? {
      var mc2 := Retire(c, mc1, i);
      forall k | 0 <= k < |mc2.queue| ensures Known(mc2, mc2.queue[k]) {
        assert Known(mc1, mc1.queue[if k < i then k else k + 1]);
      }
      QueueIrrelevant(c, mc1, mc2, log + [cmd], now, now);
    }
  }

  lemma TickKeeps(c: Config, mc: Mc, log: seq<Cmd>, last: nat, t: Tick)
    requires Sane(c) && Inv(c, mc, log, last) && Enabled(c, mc, last, t)
    ensures Inv(c, Next(c, mc, last, t), log + Issued(c, mc, last, t), t.now)
  {
    var mc1 := Admit(c, mc, t.due);
    AdmitIsWellFormed(c, mc, t.due);
    QueueIrrelevant(c, mc, mc1, log, last, t.now);
    if t.pick >= 0 {
      ServiceKeeps(c, mc1, log, t.pick, t.now);
    } else {
      assert log + [] == log;
    }
  }

  lemma InitialInvariant(c: Config, mc: Mc)
    requires c.interval > 0 && Initial(mc)
    ensures Inv(c, mc, [], 0)
  {
  }

  lemma {:induction false} RunInvariant(c: Config, states: seq<Mc>, ticks: seq<Tick>, n: nat)
    requires Sane(c) && Run(c, states, ticks) && n <= |ticks|
    ensures Inv(c, states[n], Log(c, states, ticks, n), Clock(ticks, n))
  {
    hide Inv, Initial, Issued, Next, Enabled;
    if n == 0 {
      InitialInvariant(c, states[0]);
    } else {
      RunInvariant(c, states, ticks, n - 1);
      assert StepAt(c, states, ticks, n - 1);
      TickKeeps(c, states[n-1], Log(c, states, ticks, n - 1), Clock(ticks, n - 1), ticks[n-1]);
    }
  }

  /** In every run: activates of a bank are tRAS + tRP apart and those of a rank tRR apart, an activate comes tRP after
      every precharge and every column of its bank, columns wait tRCD, those of a bank are tBBL apart, bursts never
      overlap on a bus and leave the bubbles that are no longer than tCL, and every column finds its row open. */
  lemma EveryRunIsTimely(c: Config, states: seq<Mc>, ticks: seq<Tick>)
    requires Sane(c) && Run(c, states, ticks)
    ensures Timely(c, Log(c, states, ticks, |ticks|)) && RowsRespected(Log(c, states, ticks, |ticks|))
  {
    RunInvariant(c, states, ticks, |ticks|);
  }
}
