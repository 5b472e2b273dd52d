/** The converse of the timing rules: over every run, a request of the window that is not served has a reason to wait,
    which can be read off the commands issued so far. */
module DramWaits {
  import opened Basics
  import opened Dram
  import opened DramTiming
  import opened DramScheduling

  // ---------------------------------------------------------------- the reasons

  /** How long command b of a bank waits for the earlier command a of that bank.  Under the closed-row policies a row
      that is kept for another access counts as used until tRAS after its activation. */
  function Gap(c: Config, a: Cmd, b: Cmd): nat {
    match b
    case Act(_, _, _) => if a.Act? then c.ras + c.rp else c.rp
    case _ =>
      if !a.Act? then c.bbl
      else if c.open then Max(c.rcd, c.bbl)
      else Max(c.rcd, c.ras + c.bbl)
  }

  /** Burst b would disturb the earlier burst a: they overlap on a shared bus, or the bubble is not over. */
  ghost predicate Disturbs(c: Config, a: Cmd, b: Cmd)
    requires a.Col? && b.Col?
  {
    var end := a.time + c.bl * c.interval;
    || ((!c.fullDuplex || a.dir == b.dir) && b.time < end)
    || (!c.fullDuplex && a.dir.Wr? && b.dir.Rd? && b.time < end + c.wrbub)
    || (!c.fullDuplex && a.dir.Rd? && b.dir.Wr? && b.time < end + c.rwbub)
    || (a.place.rank == b.place.rank && a.dir.Wr? && b.dir.Rd? && c.wtr > 0 && b.time < end + c.cl + c.wtr)
    || (a.place.rank == b.place.rank && a.dir.Rd? && b.dir.Wr? && b.time < end + c.cl + c.rwbub)
    || (a.place.rank != b.place.rank && a.dir.Rd? && b.dir.Rd? && b.time < a.time + c.rrbub)
  }

  /** The earlier command a is a reason not to issue b yet. */
  ghost predicate TooSoon(c: Config, a: Cmd, b: Cmd) {
    || (a.place == b.place && b.time < a.time + Gap(c, a, b))
    || (a.place.rank == b.place.rank && a.Act? && !b.Col? && b.time < a.time + c.rr)
    || (a.Col? && b.Col? && Disturbs(c, a, b))
  }

  /** Time zero counts as the end of an activation, a read and a write of every rank, so some first commands wait. */
  ghost predicate StartUp(c: Config, b: Cmd) {
    match b
    case Col(now, p, _, dir, _) =>
      if dir.Rd? then now < c.wtr || (p.rank != 0 && now < c.rrbub) else now < c.rwbub
    case _ => b.time < c.rr
  }

  /** The bank holds another row, which the policy keeps: under the open policy because a competing request wants it,
      under the others because whoever wanted it closes it. */
  ghost predicate RowKept(c: Config, mc: Mc, i: nat)
    requires i < |mc.queue| && WellFormed(mc)
  {
    var b := mc.banks[mc.queue[i].place];
    IsOpen(b) && b.page != mc.queue[i].page && (c.open ==> WantedByRival(c, mc, i, mc.queue[i].place, b.page))
  }

  ghost predicate MustWait(c: Config, mc: Mc, log: seq<Cmd>, i: nat, now: nat)
    requires i < |mc.queue| && WellFormed(mc)
  {
    || RowKept(c, mc, i)
    || StartUp(c, Command(c, mc, i, now))
    || exists a :: a in log && TooSoon(c, a, Command(c, mc, i, now))
  }

  // ---------------------------------------------------------------- where the controller's times come from

  ghost predicate Activated(log: seq<Cmd>, p: Place, t: nat) {
    exists a :: a in log && a.Act? && a.place == p && a.time == t
  }

  ghost predicate Used(log: seq<Cmd>, p: Place, t: int) {
    exists a :: a in log && !a.Act? && a.place == p && a.time == t
  }

  ghost predicate Accessed(c: Config, log: seq<Cmd>, rank: nat, dir: Dir, end: nat) {
    exists a :: a in log && a.Col? && a.place.rank == rank && a.dir == dir && a.time + c.cl + c.bl * c.interval == end
  }

  ghost predicate Filled(c: Config, log: seq<Cmd>, dir: Dir, t: nat) {
    exists a, j: nat :: a in log && a.Col? && a.dir == dir && j < c.bl && t == Slot(c, a.time, j)
  }

  ghost predicate BankTraced(c: Config, log: seq<Cmd>, p: Place, b: Bank) {
    if b.action.Idle? then b.time == 0
    else
      && Activated(log, p, b.lastActivate)
      && (b.action.Activate? ==> b.time == b.lastActivate)
      && (b.action.Column? ==> Used(log, p, b.time) || (!c.open && b.time == c.ras + b.lastActivate))
      && (b.action.Precharge? ==> Used(log, p, b.time - c.rp) || b.time == c.ras + b.lastActivate + c.rp)
  }

  ghost predicate RankTraced(c: Config, log: seq<Cmd>, rank: nat, k: Rank) {
    && (k.lastActivate == 0 || exists p: Place :: p.rank == rank && Activated(log, p, k.lastActivate))
    && (k.lastRead == 0 || Accessed(c, log, rank, Rd, k.lastRead))
    && (k.lastWrite == 0 || Accessed(c, log, rank, Wr, k.lastWrite))
  }

  ghost predicate LastReadTraced(log: seq<Cmd>, rank: nat, t: nat) {
    || (rank == 0 && t == 0)
    || exists a :: a in log && a.Col? && a.dir.Rd? && a.place.rank == rank && a.time == t
  }

  ghost predicate AllFilled(c: Config, log: seq<Cmd>, bus: map<nat, Dir>) {
    forall t :: t in bus ==> Filled(c, log, bus[t], t)
  }

  ghost predicate BusTraced(c: Config, mc: Mc, log: seq<Cmd>) {
    && AllFilled(c, log, mc.bus)
    && (forall t :: t in mc.rdBus ==> Filled(c, log, Rd, t))
    && (forall t :: t in mc.wrBus ==> Filled(c, log, Wr, t))
  }

  ghost predicate Traced(c: Config, mc: Mc, log: seq<Cmd>) {
    && (forall p :: p in mc.banks ==> BankTraced(c, log, p, mc.banks[p]))
    && (forall k :: 0 <= k < |mc.ranks| ==> RankTraced(c, log, k, mc.ranks[k]))
    && LastReadTraced(log, mc.lastReadRank, mc.lastReadTime)
    && BusTraced(c, mc, log)
  }

  // ---------------------------------------------------------------- a request that is blocked has a reason

  lemma BankWaits(c: Config, log: seq<Cmd>, b: Bank, cmd: Cmd)
    requires BankTraced(c, log, cmd.place, b) && (cmd.Act? <==> !IsOpen(b))
    requires
      || b.time > cmd.time
      || (b.action.Activate? && b.time + c.rcd > cmd.time)
      || (IsOpen(b) && b.time + c.bbl > cmd.time)
    ensures exists a :: a in log && TooSoon(c, a, cmd)
  {
    var act :| act in log && act.Act? && act.place == cmd.place && act.time == b.lastActivate;
    var from := if cmd.Act? then b.time - c.rp else b.time;
    if Used(log, cmd.place, from) {
      var use :| use in log && !use.Act? && use.place == cmd.place && use.time == from;
      assert b.action.Activate? || TooSoon(c, use, cmd);
    }
    assert TooSoon(c, act, cmd) || Used(log, cmd.place, from);
  }

  lemma RankWaits(c: Config, log: seq<Cmd>, k: Rank, cmd: Cmd)
    requires RankTraced(c, log, cmd.place.rank, k) && !cmd.Col? && k.lastActivate + c.rr > cmd.time
    ensures StartUp(c, cmd) || exists a :: a in log && TooSoon(c, a, cmd)
  {
    if k.lastActivate > 0 {
      var p: Place :| p.rank == cmd.place.rank && Activated(log, p, k.lastActivate);
      var a :| a in log && a.Act? && a.place == p && a.time == k.lastActivate;
      assert TooSoon(c, a, cmd);
    }
  }

  /** A slot that is taken less than `bubble` before the burst, or in it, belongs to a burst that reaches that far. */
  lemma SlotReaches(c: Config, log: seq<Cmd>, dir: Dir, t: nat, bubble: nat, now: nat) returns (a: Cmd)
    requires c.interval > 0 && Filled(c, log, dir, t) && now + c.cl <= t + bubble
    ensures a in log && a.Col? && a.dir == dir && now < a.time + c.bl * c.interval + bubble
  {
    var x, j: nat :| x in log && x.Col? && x.dir == dir && j < c.bl && t == Slot(c, x.time, j);
    a := x;
    LessOften(j + 1, c.bl, c.interval);
    assert (j + 1) * c.interval == j * c.interval + c.interval;
  }

  lemma BusWaits(c: Config, mc: Mc, log: seq<Cmd>, cmd: Cmd)
    requires c.interval > 0 && BusTraced(c, mc, log) && cmd.Col? && !BusFree(c, mc, cmd.dir, cmd.time)
    ensures exists a :: a in log && TooSoon(c, a, cmd)
  {
    var now := cmd.time;
    var lo, hi := now + c.cl, now + c.cl + c.bl * c.interval;
    var a: Cmd;
    if !c.fullDuplex {
      var t :| t in mc.bus && lo <= t < hi;
      a := SlotReaches(c, log, mc.bus[t], t, 0, now);
    } else if cmd.dir.Rd? {
      var t :| t in mc.rdBus && lo <= t < hi;
      a := SlotReaches(c, log, Rd, t, 0, now);
    } else {
      var t :| t in mc.wrBus && lo <= t < hi;
      a := SlotReaches(c, log, Wr, t, 0, now);
    }
    assert TooSoon(c, a, cmd);
  }

  lemma TurnaroundWaits(c: Config, mc: Mc, log: seq<Cmd>, cmd: Cmd)
    requires c.interval > 0 && BusTraced(c, mc, log) && cmd.Col?
    requires Turnaround(c, mc, if cmd.dir.Rd? then Wr else Rd, if cmd.dir.Rd? then c.wrbub else c.rwbub, cmd.time)
    ensures exists a :: a in log && TooSoon(c, a, cmd)
  {
    var bubble := if cmd.dir.Rd? then c.wrbub else c.rwbub;
    var t :| t in mc.bus && cmd.time + c.cl - bubble <= t && mc.bus[t] == (if cmd.dir.Rd? then Wr else Rd);
    var a := SlotReaches(c, log, mc.bus[t], t, bubble, cmd.time);
    assert TooSoon(c, a, cmd);
  }

  lemma SameRankWaits(c: Config, log: seq<Cmd>, k: Rank, cmd: Cmd)
    requires RankTraced(c, log, cmd.place.rank, k) && cmd.Col?
    requires if cmd.dir.Rd? then c.wtr > 0 && k.lastWrite + c.wtr > cmd.time else k.lastRead + c.rwbub > cmd.time
    ensures StartUp(c, cmd) || exists a :: a in log && TooSoon(c, a, cmd)
  {
    if !StartUp(c, cmd) {
      var (dir, end) := if cmd.dir.Rd? then (Wr, k.lastWrite) else (Rd, k.lastRead);
      var a :| a in log && a.Col? && a.place.rank == cmd.place.rank && a.dir == dir &&
        a.time + c.cl + c.bl * c.interval == end;
      assert TooSoon(c, a, cmd);
    }
  }

  lemma ColumnWaits(c: Config, mc: Mc, log: seq<Cmd>, cmd: Cmd)
    requires c.interval > 0 && Traced(c, mc, log) && cmd.Col? && cmd.place.rank < |mc.ranks|
    requires !ColumnAllowed(c, mc, cmd.place.rank, cmd.dir, cmd.time)
    ensures StartUp(c, cmd) || exists a :: a in log && TooSoon(c, a, cmd)
  {
    var now, k := cmd.time, mc.ranks[cmd.place.rank];
    if !BusFree(c, mc, cmd.dir, now) {
      BusWaits(c, mc, log, cmd);
    } else if Turnaround(c, mc, if cmd.dir.Rd? then Wr else Rd, if cmd.dir.Rd? then c.wrbub else c.rwbub, now) {
      TurnaroundWaits(c, mc, log, cmd);
    } else if if cmd.dir.Rd? then c.wtr > 0 && k.lastWrite + c.wtr > now else k.lastRead + c.rwbub > now {
      SameRankWaits(c, log, k, cmd);
    } else if !(mc.lastReadRank == 0 && mc.lastReadTime == 0) {
      var a :| a in log && a.Col? && a.dir.Rd? && a.place.rank == mc.lastReadRank && a.time == mc.lastReadTime;
      assert TooSoon(c, a, cmd);
    }
  }

  lemma BlockedMustWait(c: Config, mc: Mc, log: seq<Cmd>, i: nat, now: nat)
    requires c.interval > 0 && WellFormed(mc) && Traced(c, mc, log) && i < |mc.queue|
    requires StatusOf(c, mc, i, now).Blocked?
    ensures MustWait(c, mc, log, i, now)
  {
    var r, cmd := mc.queue[i], Command(c, mc, i, now);
    assert Known(mc, r);
    var b := mc.banks[r.place];
    RowWantedByRival(c, mc, i);
    if !RowKept(c, mc, i) {
      if b.time > now || (b.action.Activate? && b.time + c.rcd > now) || (IsOpen(b) && b.time + c.bbl > now) {
        BankWaits(c, log, b, cmd);
      } else if !cmd.Col? {
        RankWaits(c, log, mc.ranks[r.place.rank], cmd);
      } else {
        ColumnWaits(c, mc, log, cmd);
      }
    }
  }

  // ---------------------------------------------------------------- every command is traced

  lemma BankTracedAfter(c: Config, log: seq<Cmd>, b: Bank, cmd: Cmd)
    requires BankTraced(c, log, cmd.place, b) && (cmd.Act? <==> !IsOpen(b)) && (cmd.Col? && c.open ==> !cmd.closes)
    ensures BankTraced(c, log + [cmd], cmd.place, BankAfter(c, b, cmd))
  {
    assert cmd in log + [cmd];
  }

  lemma BankStaysTraced(c: Config, log: seq<Cmd>, cmd: Cmd, p: Place, b: Bank)
    requires BankTraced(c, log, p, b)
    ensures BankTraced(c, log + [cmd], p, b)
  {
  }

  lemma RankStaysTraced(c: Config, log: seq<Cmd>, cmd: Cmd, rank: nat, k: Rank)
    requires RankTraced(c, log, rank, k)
    ensures RankTraced(c, log + [cmd], rank, k)
  {
    if k.lastActivate > 0 {
      var p: Place :| p.rank == rank && Activated(log, p, k.lastActivate);
      assert Activated(log + [cmd], p, k.lastActivate);
    }
  }

  lemma RankTracedAfter(c: Config, log: seq<Cmd>, k: Rank, cmd: Cmd)
    requires RankTraced(c, log, cmd.place.rank, k)
    ensures RankTraced(c, log + [cmd], cmd.place.rank, RankAfter(c, k, cmd))
  {
    RankStaysTraced(c, log, cmd, cmd.place.rank, k);
    assert cmd in log + [cmd];
    if cmd.Act? { assert Activated(log + [cmd], cmd.place, cmd.time); }
  }

  lemma StaysFilled(c: Config, log: seq<Cmd>, cmd: Cmd, dir: Dir, t: nat)
    requires Filled(c, log, dir, t)
    ensures Filled(c, log + [cmd], dir, t)
  {
    var a, j: nat :| a in log && a.Col? && a.dir == dir && j < c.bl && t == Slot(c, a.time, j);
    assert a in log + [cmd];
  }

  lemma SlotTraced(c: Config, log: seq<Cmd>, bus: map<nat, Dir>, cmd: Cmd, n: nat)
    requires cmd in log && cmd.Col? && n < c.bl && AllFilled(c, log, bus)
    ensures AllFilled(c, log, bus[Slot(c, cmd.time, n) := cmd.dir])
  {
    assert Filled(c, log, cmd.dir, Slot(c, cmd.time, n));
  }

  lemma {:induction false} BurstTraced(c: Config, log: seq<Cmd>, bus: map<nat, Dir>, cmd: Cmd, n: nat)
    requires cmd in log && cmd.Col? && n <= c.bl && AllFilled(c, log, bus)
    ensures AllFilled(c, log, BurstInto(c, bus, cmd.dir, cmd.time, n))
  {
    if n > 0 {
      BurstTraced(c, log, bus, cmd, n - 1);
      SlotTraced(c, log, BurstInto(c, bus, cmd.dir, cmd.time, n - 1), cmd, n - 1);
    }
  }

  lemma {:induction false} SlotsTraced(c: Config, log: seq<Cmd>, cmd: Cmd, n: nat)
    requires cmd in log && cmd.Col? && n <= c.bl
    ensures forall t :: t in Slots(c, cmd.time, n) ==> Filled(c, log, cmd.dir, t)
  {
    if n > 0 {
      SlotsTraced(c, log, cmd, n - 1);
      assert Filled(c, log, cmd.dir, Slot(c, cmd.time, n - 1));
    }
  }

  lemma BusTracedAfter(c: Config, mc: Mc, log: seq<Cmd>, cmd: Cmd)
    requires BusTraced(c, mc, log) && cmd.place in mc.banks && cmd.place.rank < |mc.ranks|
    ensures BusTraced(c, Issue(c, mc, cmd), log + [cmd])
  {
    var log' := log + [cmd];
    forall t | t in mc.bus ensures Filled(c, log', mc.bus[t], t) { StaysFilled(c, log, cmd, mc.bus[t], t); }
    forall t | t in mc.rdBus ensures Filled(c, log', Rd, t) { StaysFilled(c, log, cmd, Rd, t); }
    forall t | t in mc.wrBus ensures Filled(c, log', Wr, t) { StaysFilled(c, log, cmd, Wr, t); }
    if cmd.Col? {
      BurstTraced(c, log', mc.bus, cmd, c.bl);
      SlotsTraced(c, log', cmd, c.bl);
    }
  }

  lemma IssueTraced(c: Config, mc: Mc, log: seq<Cmd>, cmd: Cmd)
    requires Traced(c, mc, log) && Legal(c, mc, cmd)
    ensures Traced(c, Issue(c, mc, cmd), log + [cmd])
  {
    var mc', log' := Issue(c, mc, cmd), log + [cmd];
    forall p | p in mc'.banks ensures BankTraced(c, log', p, mc'.banks[p]) {
      if p == cmd.place {
        BankTracedAfter(c, log, mc.banks[p], cmd);
      } else {
        BankStaysTraced(c, log, cmd, p, mc.banks[p]);
      }
    }
    forall k | 0 <= k < |mc'.ranks| ensures RankTraced(c, log', k, mc'.ranks[k]) {
      if k == cmd.place.rank {
        RankTracedAfter(c, log, mc.ranks[k], cmd);
      } else {
        RankStaysTraced(c, log, cmd, k, mc.ranks[k]);
      }
    }
    BusTracedAfter(c, mc, log, cmd);
    assert cmd in log';
  }

  lemma TickTraced(c: Config, mc: Mc, log: seq<Cmd>, last: nat, t: Tick)
    requires Traced(c, mc, log) && WellFormed(mc) && Enabled(c, mc, last, t)
    ensures Traced(c, Next(c, mc, last, t), log + Issued(c, mc, last, t))
  {
    var mc1 := Admit(c, mc, t.due);
    AdmitIsWellFormed(c, mc, t.due);
    assert Traced(c, mc1, log);
    if t.pick >= 0 {
      ServiceableIsLegal(c, mc1, t.pick, t.now);
      IssueTraced(c, mc1, log, Command(c, mc1, t.pick, t.now));
    } else {
      assert log + [] == log;
    }
  }

  lemma {:induction false} RunTraced(c: Config, states: seq<Mc>, ticks: seq<Tick>, n: nat)
    requires Run(c, states, ticks) && n <= |ticks|
    ensures WellFormed(states[n]) && Traced(c, states[n], Log(c, states, ticks, n))
  {
    RunKeepsBatch(c, states, ticks, n);
    if n > 0 {
      RunTraced(c, states, ticks, n - 1);
      assert StepAt(c, states, ticks, n - 1);
      TickTraced(c, states[n-1], Log(c, states, ticks, n - 1), Clock(ticks, n - 1), ticks[n-1]);
    }
  }

  /** At every call of every run: a request of the window that may not be served is kept from it by another row of its
      bank, by a command that was issued too short a time ago, or by the start of the simulation. */
  lemma EveryWaitHasReason(c: Config, states: seq<Mc>, ticks: seq<Tick>, n: nat, i: nat)
    requires Run(c, states, ticks) && n < |ticks|
    requires
      assert StepAt(c, states, ticks, n);
      i < Reach(c, Admit(c, states[n], ticks[n].due))
    ensures
      var mc := Admit(c, states[n], ticks[n].due);
      Serviceable(c, mc, i, ticks[n].now) || MustWait(c, mc, Log(c, states, ticks, n), i, ticks[n].now)
  {
    RunTraced(c, states, ticks, n);
    AdmitIsWellFormed(c, states[n], ticks[n].due);
    var mc := Admit(c, states[n], ticks[n].due);
    assert StepAt(c, states, ticks, n) && Traced(c, mc, Log(c, states, ticks, n));
    if !Serviceable(c, mc, i, ticks[n].now) {
      BlockedMustWait(c, mc, Log(c, states, ticks, n), i, ticks[n].now);
    }
  }
}
