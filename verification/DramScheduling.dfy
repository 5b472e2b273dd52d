/** Over every run of the scheduler: the batch of parallelism-aware scheduling only shrinks until it is
    served, the closed-row policies never strand an open row, and the controller never stalls. */
module DramScheduling {
  import opened Basics
  import opened Dram

  // ---------------------------------------------------------------- the choice

  /** The scan has one possible outcome. */
  lemma PickIsUnique(c: Config, mc: Mc, a: int, b: int, now: nat)
    requires WellFormed(mc) && a >= -1 && b >= -1 && IsPick(c, mc, a, now) && IsPick(c, mc, b, now)
    ensures a == b
  {
    assert a >= 0 ==> Serviceable(c, mc, a, now);
    assert b >= 0 ==> Serviceable(c, mc, b, now);
  }

  /** A request outside the batch is served only if no member of the batch can make progress. */
  lemma BatchFirst(c: Config, mc: Mc, pick: int, j: nat, now: nat)
    requires WellFormed(mc) && IsPick(c, mc, pick, now) && pick > mc.batchLast
    requires j <= mc.batchLast && j < Reach(c, mc)
    ensures StatusOf(c, mc, j, now).Blocked?
  {
    if !StatusOf(c, mc, j, now).Blocked? { assert Serviceable(c, mc, j, now); }
  }

  /** Requests that compete with request i: those of the window, but for a member of the batch only other members. */
  predicate Competes(c: Config, mc: Mc, i: nat, k: nat) {
    k < |mc.queue| && k < c.window && k != i && (i <= mc.batchLast ==> k <= mc.batchLast)
  }

  ghost predicate WantedByRival(c: Config, mc: Mc, i: nat, p: Place, page: nat) {
    exists k: nat :: Competes(c, mc, i, k) && mc.queue[k].place == p && mc.queue[k].page == page
  }

  lemma RowWantedByRival(c: Config, mc: Mc, i: nat)
    requires i < |mc.queue| && WellFormed(mc)
    ensures
      var p := mc.queue[i].place;
      RowWanted(c, mc, i) <==> WantedByRival(c, mc, i, p, mc.banks[p].page)
  {
    var p := mc.queue[i].place;
    var page := mc.banks[p].page;
    if WantedByRival(c, mc, i, p, page) {
      var k: nat :| Competes(c, mc, i, k) && mc.queue[k].place == p && mc.queue[k].page == page;
      assert k < Rivals(c, mc, i);
    }
    if RowWanted(c, mc, i) {
      var k :| 0 <= k < Rivals(c, mc, i) && k != i && mc.queue[k].place == p && mc.queue[k].page == page;
      assert Competes(c, mc, i, k);
    }
  }

  // ---------------------------------------------------------------- batches

  function CountOf(q: seq<Req>, t: nat): (n: nat)
    ensures n <= |q|
  {
    if q == [] then 0 else CountOf(q[..|q|-1], t) + if q[|q|-1].thread == t then 1 else 0
  }

  lemma {:induction false} CountWithout(q: seq<Req>, i: nat, t: nat)
    requires i < |q|
    ensures CountOf(Without(q, i), t) == CountOf(q, t) - if q[i].thread == t then 1 else 0
  {
    var n := |q| - 1;
    if i == n {
      assert Without(q, i) == q[..n];
    } else {
      var w := Without(q, i);
      assert w[..n-1] == Without(q[..n], i);
      CountWithout(q[..n], i, t);
    }
  }

  ghost predicate Counted(c: Config, mc: Mc) {
    forall t :: 0 <= t < |mc.counts| ==> mc.counts[t] == if c.parBs then CountOf(mc.queue, t) else 0
  }

  /** The batch is a prefix of the window, and the per-thread counts are exact. */
  ghost predicate BatchInv(c: Config, mc: Mc) {
    && WellFormed(mc) && Counted(c, mc)
    && -1 <= mc.batchLast < Reach(c, mc)
    && (!c.parBs ==> mc.batchLast == -1)
  }

  function Batch(mc: Mc): seq<Req>
    requires -1 <= mc.batchLast < |mc.queue|
  {
    mc.queue[..mc.batchLast + 1]
  }

  lemma ArriveCounts(c: Config, mc: Mc, r: Req)
    requires Counted(c, mc) && r.thread < |mc.counts|
    ensures Counted(c, Arrive(c, mc, r))
  {
    assert (mc.queue + [r])[..|mc.queue|] == mc.queue;
  }

  lemma {:induction false} ArrivalsCount(c: Config, mc: Mc, due: seq<Req>)
    requires Counted(c, mc) && forall k :: 0 <= k < |due| ==> due[k].thread < |mc.counts|
    ensures Counted(c, ArriveAll(c, mc, due))
  {
    if due != [] {
      ArrivalsCount(c, mc, due[..|due|-1]);
      ArriveCounts(c, ArriveAll(c, mc, due[..|due|-1]), due[|due|-1]);
    }
  }

  lemma BatchFormed(c: Config, mc: Mc)
    requires -1 <= mc.batchLast < Reach(c, mc) && (!c.parBs ==> mc.batchLast == -1)
    ensures
      var mc' := FormBatch(c, mc);
      && -1 <= mc'.batchLast < Reach(c, mc') && (!c.parBs ==> mc'.batchLast == -1)
      && (mc.batchLast >= 0 ==> Batch(mc') == Batch(mc))
      && (c.parBs && mc.batchLast == -1 ==> Batch(mc') == mc'.queue[..Reach(c, mc')])
  {
  }

  lemma AdmitKeepsBatch(c: Config, mc: Mc, due: seq<Req>)
    requires BatchInv(c, mc) && Acceptable(mc, due)
    ensures
      var mc' := Admit(c, mc, due);
      && BatchInv(c, mc')
      && (mc.batchLast >= 0 ==> Batch(mc') == Batch(mc))
      && (c.parBs && mc.batchLast == -1 ==> Batch(mc') == mc'.queue[..Reach(c, mc')])
  {
    var mc1 := ArriveAll(c, mc, due);
    ArrivalsCount(c, mc, due);
    ArrivalsQueue(c, mc, due);
    assert mc1.batchLast == mc.batchLast && Batch(mc1) == Batch(mc);
    BatchFormed(c, mc1);
    AdmitIsWellFormed(c, mc, due);
    assert Counted(c, FormBatch(c, mc1));
  }

  lemma RetireCounts(c: Config, mc: Mc, i: nat)
    requires Counted(c, mc) && i < |mc.queue| && mc.queue[i].thread < |mc.counts|
    ensures Counted(c, Retire(c, mc, i))
  {
    forall t | 0 <= t < |mc.counts|
      ensures CountOf(Without(mc.queue, i), t) == CountOf(mc.queue, t) - if mc.queue[i].thread == t then 1 else 0
    {
      CountWithout(mc.queue, i, t);
    }
  }

  /** What serving request i does to the batch. */
  ghost predicate BatchShrinks(c: Config, mc: Mc, mc': Mc, i: nat)
    requires i < |mc.queue| && -1 <= mc.batchLast < |mc.queue| && -1 <= mc'.batchLast < |mc'.queue|
  {
    if i > mc.batchLast then Batch(mc') == Batch(mc)
    else if mc.batchLast == 0 then Batch(mc') == mc'.queue[..Reach(c, mc')]
    else Batch(mc') == Without(Batch(mc), i)
  }

  lemma RetireShrinks(c: Config, mc: Mc, i: nat)
    requires i < |mc.queue| && mc.queue[i].thread < |mc.counts| && i < Reach(c, mc)
    requires -1 <= mc.batchLast < Reach(c, mc) && (!c.parBs ==> mc.batchLast == -1)
    ensures
      var mc' := Retire(c, mc, i);
      && -1 <= mc'.batchLast < Reach(c, mc') && (!c.parBs ==> mc'.batchLast == -1)
      && BatchShrinks(c, mc, mc', i)
  {
    var mc' := Retire(c, mc, i);
    if i > mc.batchLast {
      assert Batch(mc') == Batch(mc);
    } else if mc.batchLast == 0 {
      assert mc'.batchLast + 1 == Reach(c, mc');
    } else {
      assert Batch(mc') == Without(Batch(mc), i);
    }
  }

  /** A command alone leaves the queue, the counts and the batch as they are. */
  lemma IssueKeepsBatch(c: Config, mc: Mc, cmd: Cmd)
    requires -1 <= mc.batchLast < Reach(c, mc) && Counted(c, mc)
    requires cmd.place in mc.banks && cmd.place.rank < |mc.ranks|
    ensures
      var mc' := Issue(c, mc, cmd);
      && mc'.queue == mc.queue && mc'.batchLast == mc.batchLast && mc'.counts == mc.counts
      && Counted(c, mc') && Batch(mc') == Batch(mc)
  {
  }

  lemma ServiceKeepsBatch(c: Config, mc: Mc, i: nat, now: nat)
    requires BatchInv(c, mc) && i < Reach(c, mc)
    ensures
      var mc' := Service(c, mc, i, now);
      && BatchInv(c, mc')
      && if Command(c, mc, i, now).Col? then BatchShrinks(c, mc, mc', i) else Batch(mc') == Batch(mc)
  {
    hide Counted, Reused, Issue, Retire;
    var cmd := Command(c, mc, i, now);
    assert Known(mc, mc.queue[i]);
    var mc1 := Issue(c, mc, cmd);
    IssueKeepsBatch(c, mc, cmd);
    ServiceIsWellFormed(c, mc, i, now);
    if cmd.Col? {
      RetireCounts(c, mc1, i);
      RetireShrinks(c, mc1, i);
    }
  }

  /** Between two calls a batch keeps its members, loses the one that was served, or was down to that
      one, and then the next batch is all the window holds. */
  lemma TickKeepsBatch(c: Config, mc: Mc, last: nat, t: Tick)
    requires BatchInv(c, mc) && Enabled(c, mc, last, t)
    ensures BatchInv(c, Next(c, mc, last, t))
    ensures
      var mc' := Next(c, mc, last, t);
      mc.batchLast >= 0 ==>
        || Batch(mc') == Batch(mc)
        || (mc.batchLast > 0 && 0 <= t.pick <= mc.batchLast && Batch(mc') == Without(Batch(mc), t.pick))
        || (mc.batchLast == 0 == t.pick && Batch(mc') == mc'.queue[..Reach(c, mc')])
  {
    AdmitKeepsBatch(c, mc, t.due);
    if t.pick >= 0 { ServiceKeepsBatch(c, Admit(c, mc, t.due), t.pick, t.now); }
  }

  lemma {:induction false} RunKeepsBatch(c: Config, states: seq<Mc>, ticks: seq<Tick>, n: nat)
    requires Run(c, states, ticks) && n <= |ticks|
    ensures BatchInv(c, states[n])
  {
    if n > 0 {
      RunKeepsBatch(c, states, ticks, n - 1);
      assert StepAt(c, states, ticks, n - 1);
      TickKeepsBatch(c, states[n-1], Clock(ticks, n - 1), ticks[n-1]);
    }
  }

  // ---------------------------------------------------------------- open rows

  ghost predicate Wanted(c: Config, mc: Mc, p: Place, page: nat) {
    exists k :: 0 <= k < Reach(c, mc) && mc.queue[k].place == p && mc.queue[k].page == page
  }

  /** Closed and predictive policies: a row is open only for a request of the window. */
  ghost predicate RowsInUse(c: Config, mc: Mc) {
    !c.open ==> forall p :: p in mc.banks && IsOpen(mc.banks[p]) ==> Wanted(c, mc, p, mc.banks[p].page)
  }

  lemma WantedAfterRetire(c: Config, mc: Mc, i: nat, p: Place, page: nat)
    requires i < Reach(c, mc) && mc.queue[i].thread < |mc.counts| && Wanted(c, mc, p, page)
    requires mc.queue[i].place != p || (Reused(c, mc, i) && mc.queue[i].page == page)
    ensures Wanted(c, Retire(c, mc, i), p, page)
  {
    var mc' := Retire(c, mc, i);
    var k :| 0 <= k < Reach(c, mc) && k != i && mc.queue[k].place == p && mc.queue[k].page == page;
    var k' := if k < i then k else k - 1;
    assert mc'.queue[k'] == mc.queue[k];
  }

  lemma ServiceKeepsRows(c: Config, mc: Mc, i: nat, now: nat)
    requires WellFormed(mc) && RowsInUse(c, mc) && Serviceable(c, mc, i, now)
    ensures RowsInUse(c, Service(c, mc, i, now))
  {
    var cmd := Command(c, mc, i, now);
    assert Known(mc, mc.queue[i]);
    var mc1 := Issue(c, mc, cmd);
    var mc' := Service(c, mc, i, now);
    if !c.open {
      forall p | p in mc'.banks && IsOpen(mc'.banks[p]) ensures Wanted(c, mc', p, mc'.banks[p].page) {
        if p != cmd.place {
          assert Wanted(c, mc, p, mc.banks[p].page);
          if cmd.Col? { WantedAfterRetire(c, mc1, i, p, mc.banks[p].page); }
        } else if cmd.Col? {
          assert Wanted(c, mc1, p, mc.queue[i].page);
          WantedAfterRetire(c, mc1, i, p, mc.queue[i].page);
        } else {
          assert mc'.queue[i] == mc.queue[i];
        }
      }
    }
  }

  lemma AdmitKeepsRows(c: Config, mc: Mc, due: seq<Req>)
    requires WellFormed(mc) && RowsInUse(c, mc) && Acceptable(mc, due)
    ensures RowsInUse(c, Admit(c, mc, due))
  {
    AdmitIsWellFormed(c, mc, due);
    var mc' := Admit(c, mc, due);
    if !c.open {
      forall p | p in mc.banks && IsOpen(mc.banks[p]) ensures Wanted(c, mc', p, mc.banks[p].page) {
        var k :| 0 <= k < Reach(c, mc) && mc.queue[k].place == p && mc.queue[k].page == mc.banks[p].page;
        assert mc'.queue[k] == mc.queue[k];
      }
    }
  }

  /** In every reachable state, no open row is stranded. */
  lemma {:induction false} NoRowIsStranded(c: Config, states: seq<Mc>, ticks: seq<Tick>, n: nat)
    requires Run(c, states, ticks) && n <= |ticks|
    ensures WellFormed(states[n]) && RowsInUse(c, states[n])
  {
    RunKeepsBatch(c, states, ticks, n);
    if n > 0 {
      NoRowIsStranded(c, states, ticks, n - 1);
      assert StepAt(c, states, ticks, n - 1);
      var mc, t := states[n-1], ticks[n-1];
      AdmitKeepsRows(c, mc, t.due);
      if t.pick >= 0 { ServiceKeepsRows(c, Admit(c, mc, t.due), t.pick, t.now); }
    }
  }

  // ---------------------------------------------------------------- no stall

  /** Every waiting time has passed. */
  ghost predicate Quiet(c: Config, mc: Mc, now: nat) {
    && (forall p :: p in mc.banks ==> mc.banks[p].time + c.rcd <= now && mc.banks[p].time + c.bbl <= now)
    && (forall k :: 0 <= k < |mc.ranks| ==>
          && mc.ranks[k].lastActivate + c.rr <= now
          && mc.ranks[k].lastWrite + c.wtr <= now && mc.ranks[k].lastRead + c.rwbub <= now)
    && mc.lastReadTime + c.rrbub <= now
    && (forall t :: t in mc.bus ==> t < now)
    && (forall t :: t in mc.rdBus ==> t < now) && (forall t :: t in mc.wrBus ==> t < now)
  }

  lemma RowHitIsServiceable(c: Config, mc: Mc, k: nat, now: nat)
    requires WellFormed(mc) && Quiet(c, mc, now) && k < Reach(c, mc)
    requires IsOpen(mc.banks[mc.queue[k].place]) && mc.banks[mc.queue[k].place].page == mc.queue[k].page
    ensures Serviceable(c, mc, k, now)
  {
    assert Known(mc, mc.queue[k]);
  }

  /** Once every waiting time has passed, a non-empty queue always has a request to serve, under every
      row policy. */
  lemma NeverStalls(c: Config, mc: Mc, now: nat)
    requires WellFormed(mc) && RowsInUse(c, mc) && Quiet(c, mc, now)
    requires mc.queue != [] && c.window > 0
    ensures exists k :: Serviceable(c, mc, k, now)
  {
    var r := mc.queue[0];
    assert Known(mc, r);
    var b := mc.banks[r.place];
    if IsOpen(b) && b.page == r.page {
      RowHitIsServiceable(c, mc, 0, now);
    } else if IsOpen(b) && c.open && RowWanted(c, mc, 0) {
      var k :| 0 <= k < Rivals(c, mc, 0) && k != 0 && mc.queue[k].place == r.place && mc.queue[k].page == b.page;
      RowHitIsServiceable(c, mc, k, now);
    } else if IsOpen(b) && !c.open {
      var k :| 0 <= k < Reach(c, mc) && mc.queue[k].place == r.place && mc.queue[k].page == b.page;
      RowHitIsServiceable(c, mc, k, now);
    } else {
      assert Serviceable(c, mc, 0, now);
    }
  }

  /** Hence in every run with a request waiting, a quiet call issues a command. */
  lemma QuietCallIssues(c: Config, states: seq<Mc>, ticks: seq<Tick>, n: nat)
    requires Run(c, states, ticks) && n < |ticks| && c.window > 0
    requires
      assert StepAt(c, states, ticks, n);
      var mc := Admit(c, states[n], ticks[n].due);
      mc.queue != [] && Quiet(c, mc, ticks[n].now)
    ensures ticks[n].pick >= 0 && |Issued(c, states[n], Clock(ticks, n), ticks[n])| == 1
  {
    NoRowIsStranded(c, states, ticks, n);
    var mc := Admit(c, states[n], ticks[n].due);
    AdmitIsWellFormed(c, states[n], ticks[n].due);
    AdmitKeepsRows(c, states[n], ticks[n].due);
    NeverStalls(c, mc, ticks[n].now);
  }
}
