/** What the scheduling and the row policies promise over every run: which request is served, and when a row is
    closed. */
module DramPolicies {
  import opened Basics
  import opened Dram
  import opened DramTiming
  import opened DramScheduling

  /** Call n of a run as the controller sees it: the queue with what has arrived, and all commands so far. */
  ghost predicate Call(c: Config, states: seq<Mc>, ticks: seq<Tick>, n: nat, mc: Mc, log: seq<Cmd>) {
    && Sane(c) && Run(c, states, ticks) && n < |ticks|
    && StepAt(c, states, ticks, n) && mc == Admit(c, states[n], ticks[n].due)
    && log == Log(c, states, ticks, n)
  }

  lemma CallKnows(c: Config, states: seq<Mc>, ticks: seq<Tick>, n: nat, mc: Mc, log: seq<Cmd>)
    requires Call(c, states, ticks, n, mc, log)
    ensures WellFormed(mc) && BatchInv(c, mc) && IsPick(c, mc, ticks[n].pick, ticks[n].now)
    ensures forall p :: p in mc.banks ==>
      OpenRow(log, p) == if IsOpen(mc.banks[p]) then Some(mc.banks[p].page) else None
  {
    RunKeepsBatch(c, states, ticks, n);
    AdmitKeepsBatch(c, states[n], ticks[n].due);
    AdmitIsWellFormed(c, states[n], ticks[n].due);
    RunInvariant(c, states, ticks, n);
  }

  // ---------------------------------------------------------------- which request is served

  /** Request i would use the row that is open in its bank; otherwise it needs an activate or a precharge first. */
  ghost predicate RowHit(mc: Mc, log: seq<Cmd>, i: nat)
    requires i < |mc.queue|
  {
    OpenRow(log, mc.queue[i].place) == Some(mc.queue[i].page)
  }

  /** How many requests the thread of request i has in the queue. */
  function Load(mc: Mc, i: nat): nat
    requires i < |mc.queue|
  {
    CountOf(mc.queue, mc.queue[i].thread)
  }

  lemma HitIs(c: Config, mc: Mc, log: seq<Cmd>, i: nat, now: nat)
    requires WellFormed(mc) && Serviceable(c, mc, i, now)
    requires OpenRow(log, mc.queue[i].place) ==
      var b := mc.banks[mc.queue[i].place];
      if IsOpen(b) then Some(b.page) else None
    ensures StatusOf(c, mc, i, now).Hit? <==> RowHit(mc, log, i)
  {
    assert Known(mc, mc.queue[i]);
  }

  /** While the batch can make progress, one of its members is served: one that finds its row open if there is any,
      among those one of a thread with the fewest requests in the queue, and among those the oldest.  Without a batch,
      and while the batch is stuck, the oldest request of the window that can make progress is served. */
  lemma ServesTheBest(c: Config, states: seq<Mc>, ticks: seq<Tick>, n: nat, mc: Mc, log: seq<Cmd>, j: nat)
    requires Call(c, states, ticks, n, mc, log) && WellFormed(mc) && Serviceable(c, mc, j, ticks[n].now)
    ensures
      var i := ticks[n].pick;
      && 0 <= i < |mc.queue|
      && (j <= mc.batchLast ==>
            && i <= mc.batchLast
            && (RowHit(mc, log, j) ==> RowHit(mc, log, i))
            && (RowHit(mc, log, j) == RowHit(mc, log, i) && c.parBs ==> Load(mc, i) <= Load(mc, j))
            && (RowHit(mc, log, j) == RowHit(mc, log, i) && Load(mc, i) == Load(mc, j) ==> i <= j))
      && (i > mc.batchLast ==> i <= j)
  {
    hide StatusOf, OpenRow, Run;
    var i, now := ticks[n].pick, ticks[n].now;
    CallKnows(c, states, ticks, n, mc, log);
    assert Serviceable(c, mc, i, now);
    assert Known(mc, mc.queue[i]) && Known(mc, mc.queue[j]);
    HitIs(c, mc, log, i, now);
    HitIs(c, mc, log, j, now);
  }

  // ---------------------------------------------------------------- when a row is closed

  /** The command of a call is that of the request it serves. */
  lemma ServedCommand(c: Config, states: seq<Mc>, ticks: seq<Tick>, n: nat, mc: Mc, log: seq<Cmd>)
    requires Call(c, states, ticks, n, mc, log) && ticks[n].pick >= 0
    ensures WellFormed(mc) && Serviceable(c, mc, ticks[n].pick, ticks[n].now)
    ensures Log(c, states, ticks, n + 1) == log + [Command(c, mc, ticks[n].pick, ticks[n].now)]
  {
    CallKnows(c, states, ticks, n, mc, log);
  }

  /** A row is closed by a precharge only under the open policy, for a request that needs another row of its bank, and
      only while no competing request wants the open one. */
  lemma WantedRowsStayOpen(c: Config, states: seq<Mc>, ticks: seq<Tick>, n: nat, mc: Mc, log: seq<Cmd>)
    requires Call(c, states, ticks, n, mc, log) && 0 <= ticks[n].pick < |mc.queue| && WellFormed(mc)
    requires Command(c, mc, ticks[n].pick, ticks[n].now).Pre?
    ensures
      var i := ticks[n].pick;
      var p := mc.queue[i].place;
      && c.open
      && OpenRow(log, p).Some? && OpenRow(log, p) != Some(mc.queue[i].page)
      && !WantedByRival(c, mc, i, p, OpenRow(log, p).value)
  {
    CallKnows(c, states, ticks, n, mc, log);
    ServedCommand(c, states, ticks, n, mc, log);
    RowWantedByRival(c, mc, ticks[n].pick);
  }

  /** A later request of the window wants the same row. */
  ghost predicate WantedLater(c: Config, mc: Mc, i: nat)
    requires i < |mc.queue|
  {
    exists k :: i < k < |mc.queue| && k < c.window && mc.queue[k].place == mc.queue[i].place &&
      mc.queue[k].page == mc.queue[i].page
  }

  /** After an access the row stays open under the open policy; under the others it stays open if and only if a later
      request of the window wants it. */
  lemma KeptForLater(c: Config, states: seq<Mc>, ticks: seq<Tick>, n: nat, mc: Mc, log: seq<Cmd>)
    requires Call(c, states, ticks, n, mc, log) && 0 <= ticks[n].pick < |mc.queue| && WellFormed(mc)
    requires Command(c, mc, ticks[n].pick, ticks[n].now).Col?
    ensures
      var i := ticks[n].pick;
      var r := mc.queue[i];
      OpenRow(Log(c, states, ticks, n + 1), r.place) == if c.open || WantedLater(c, mc, i) then Some(r.page) else None
  {
    hide Run, StepAt;
    var i := ticks[n].pick;
    var cmd := Command(c, mc, i, ticks[n].now);
    CallKnows(c, states, ticks, n, mc, log);
    ServedCommand(c, states, ticks, n, mc, log);
    OpenRowAfter(log, cmd, mc.queue[i].place);
    assert Reused(c, mc, i) <==> WantedLater(c, mc, i);
  }
}
