/** How the circular array of the reorder buffer stands for the log: entry k lives at position
    `k % cap`, and a dependency is the position of the entry it names, or -1.  Everything here is
    about values, so that the core's methods can use it step by step. */
module RobSlots {
  import opened ReorderBuffer
  import opened Circular

  datatype SlotState = InIssued | InExecuting | InCompleted | Invalid

  datatype Slot = Slot(state: SlotState, ready: nat, addr: nat, isRead: bool, miss: bool, kind: Kind,
                       dst: set<nat>, memDep: int, instrDep: int, branchDep: int, regDeps: seq<int>)

  function PhaseOf(p: Phase): SlotState {
    match p
    case Issued => InIssued
    case Executing => InExecuting
    case Completed => InCompleted
  }

  function Names(c: Slot): set<int> {
    ({c.memDep, c.instrDep, c.branchDep} + set x | x in c.regDeps) - {-1}
  }

  function Positions(waits: set<nat>, cap: nat): set<int>
    requires cap > 0
  {
    set d | d in waits :: Pos(d, cap) as int
  }

  ghost predicate Linked(c: Slot, u: Uop, cap: nat)
    requires cap > 0
  {
    && c.state == PhaseOf(u.phase) && c.ready == u.ready && c.addr == u.addr
    && c.isRead == u.isRead && c.miss == u.miss && c.kind == u.kind && c.dst == u.dst
    && Names(c) == Positions(u.waits, cap)
  }

  ghost predicate Mirror(slots: seq<Slot>, head: nat, log: seq<Uop>) {
    && 0 < |slots| && head <= |log| <= head + |slots|
    && forall k :: head <= k < |log| ==> Linked(slots[Pos(k, |slots|)], log[k], |slots|)
  }

  ghost predicate WaitsLive(head: nat, log: seq<Uop>) {
    forall k :: head <= k < |log| ==> forall d :: d in log[k].waits ==> head <= d < k
  }

  /** Storing at the position of entry k touches no other live entry. */
  lemma StoreMirror(slots: seq<Slot>, head: nat, log: seq<Uop>, k: nat, c: Slot, u: Uop)
    requires Mirror(slots, head, log) && head <= k < |log| && Linked(c, u, |slots|)
    ensures Mirror(slots[Pos(k, |slots|) := c], head, log[k := u])
  {
    var cap := |slots|;
    var slots', log' := slots[Pos(k, cap) := c], log[k := u];
    forall x | head <= x < |log'| ensures Linked(slots'[Pos(x, cap)], log'[x], cap) {
      if x < k { PosInjective(x, k, cap); }
      if x > k { PosInjective(k, x, cap); }
    }
  }

  lemma PushMirror(slots: seq<Slot>, head: nat, log: seq<Uop>, c: Slot, u: Uop)
    requires Mirror(slots, head, log) && |log| < head + |slots| && Linked(c, u, |slots|)
    ensures Mirror(slots[Pos(|log|, |slots|) := c], head, log + [u])
  {
    var cap := |slots|;
    var slots', log' := slots[Pos(|log|, cap) := c], log + [u];
    forall x | head <= x < |log'| ensures Linked(slots'[Pos(x, cap)], log'[x], cap) {
      if x < |log| { PosInjective(x, |log|, cap); }
    }
  }

  lemma PopMirror(slots: seq<Slot>, head: nat, log: seq<Uop>, c: Slot)
    requires Mirror(slots, head, log) && head < |log|
    ensures Mirror(slots[Pos(head, |slots|) := c], head + 1, log)
  {
    var cap := |slots|;
    var slots' := slots[Pos(head, cap) := c];
    forall x | head + 1 <= x < |log| ensures Linked(slots'[Pos(x, cap)], log[x], cap) {
      PosInjective(head, x, cap);
    }
  }

  /** A position names at most one live entry, however often the buffer has wrapped around. */
  lemma NameIsUnique(a: nat, b: nat, head: nat, cap: nat)
    requires 0 < cap && head <= a < head + cap && head <= b < head + cap && Pos(a, cap) == Pos(b, cap)
    ensures a == b
  {
    if a < b { PosInjective(a, b, cap); }
    if b < a { PosInjective(b, a, cap); }
  }

  lemma PositionsWithout(waits: set<nat>, d: nat, head: nat, cap: nat)
    requires 0 < cap && head <= d < head + cap && forall x :: x in waits ==> head <= x < head + cap
    ensures Positions(waits - {d}, cap) == Positions(waits, cap) - {Pos(d, cap) as int}
  {
    forall x | x in waits && Pos(x, cap) == Pos(d, cap) ensures x == d {
      NameIsUnique(x, d, head, cap);
    }
  }

  lemma PositionsUnion(a: set<nat>, b: set<nat>, cap: nat)
    requires cap > 0
    ensures Positions(a + b, cap) == Positions(a, cap) + Positions(b, cap)
  {
  }

  lemma NothingNamed(c: Slot, u: Uop, cap: nat)
    requires cap > 0 && Linked(c, u, cap)
    ensures Names(c) == {} <==> u.waits == {}
  {
    if u.waits != {} {
      var d :| d in u.waits;
      assert Pos(d, cap) as int in Positions(u.waits, cap);
    }
  }

  /** Clears every field that names position p. */
  function Clear(x: int, p: int): int { if x == p then -1 else x }

  function ClearName(c: Slot, p: int): (r: Slot)
  {
    c.(memDep := Clear(c.memDep, p), instrDep := Clear(c.instrDep, p), branchDep := Clear(c.branchDep, p),
       regDeps := seq(|c.regDeps|, i requires 0 <= i < |c.regDeps| => Clear(c.regDeps[i], p)))
  }

  lemma ClearedNames(c: Slot, p: int)
    requires p != -1
    ensures Names(ClearName(c, p)) == Names(c) - {p}
  {
    var r := ClearName(c, p);
    forall x ensures x in Names(r) <==> x in Names(c) && x != p {
      if x in c.regDeps && x != p {
        var i :| 0 <= i < |c.regDeps| && c.regDeps[i] == x;
        assert r.regDeps[i] == x;
      }
      if x in r.regDeps && x != -1 {
        var i :| 0 <= i < |r.regDeps| && r.regDeps[i] == x;
        assert c.regDeps[i] == x;
      }
    }
  }

  /** The positions of the accesses that have not come back. */
  ghost function Travelling(head: nat, log: seq<Uop>, cap: nat): set<nat>
    requires cap > 0
  {
    set k | head <= k < |log| && log[k].phase.Executing? :: Pos(k, cap)
  }

  lemma PushWaitsLive(head: nat, log: seq<Uop>, u: Uop)
    requires WaitsLive(head, log) && forall d :: d in u.waits ==> head <= d < |log|
    ensures WaitsLive(head, log + [u])
  {
  }

  lemma PushTravelling(head: nat, log: seq<Uop>, u: Uop, cap: nat)
    requires cap > 0 && head <= |log| && !u.phase.Executing?
    ensures Travelling(head, log + [u], cap) == Travelling(head, log, cap)
  {
    var log' := log + [u];
    forall k | head <= k < |log'| && log'[k].phase.Executing? ensures k < |log| && log[k] == log'[k] { }
    forall k | head <= k < |log| ensures log'[k] == log[k] { }
  }

  lemma StoreWaitsLive(head: nat, log: seq<Uop>, k: nat, u: Uop)
    requires WaitsLive(head, log) && head <= k < |log| && u.waits <= log[k].waits
    ensures WaitsLive(head, log[k := u])
  {
    var log' := log[k := u];
    forall x | head <= x < |log| ensures log'[x].waits <= log[x].waits { }
  }

  /** Entry k starts, or stops, travelling; or neither. */
  lemma StoreTravelling(head: nat, log: seq<Uop>, k: nat, u: Uop, cap: nat)
    requires 0 < cap && head <= k < |log| <= head + cap
    ensures Travelling(head, log[k := u], cap) ==
            if u.phase.Executing? then Travelling(head, log, cap) + {Pos(k, cap)}
            else Travelling(head, log, cap) - {Pos(k, cap)}
  {
    var log' := log[k := u];
    var p := Pos(k, cap);
    forall x | head <= x < |log| && x != k ensures Pos(x, cap) != p && log'[x] == log[x] {
      if Pos(x, cap) == p { NameIsUnique(x, k, head, cap); }
    }
    forall q ensures q in Travelling(head, log', cap) <==>
      if u.phase.Executing? then q in Travelling(head, log, cap) || q == p
      else q in Travelling(head, log, cap) && q != p
    {
      if q in Travelling(head, log', cap) {
        var x :| head <= x < |log'| && log'[x].phase.Executing? && q == Pos(x, cap);
        if x != k { assert log[x].phase.Executing?; }
      }
      if q in Travelling(head, log, cap) && q != p {
        var x :| head <= x < |log| && log[x].phase.Executing? && q == Pos(x, cap);
        assert log'[x].phase.Executing?;
      }
      if q == p && u.phase.Executing? { assert log'[k].phase.Executing?; }
    }
  }

  lemma PopTravelling(head: nat, log: seq<Uop>, cap: nat)
    requires cap > 0 && head < |log| && !log[head].phase.Executing?
    ensures Travelling(head + 1, log, cap) == Travelling(head, log, cap)
  {
    forall k | head <= k < |log| && log[k].phase.Executing? ensures head + 1 <= k { }
  }

  /** Entry k no longer waits for entry d. */
  function WaitsLess(u: Uop, d: nat): Uop {
    if u.phase.Issued? then u.(waits := u.waits - {d}) else u
  }

  lemma ClearedSlot(c: Slot, u: Uop, d: nat, head: nat, cap: nat)
    requires 0 < cap && Linked(c, u, cap) && u.phase.Issued? && head <= d < head + cap
    requires forall x :: x in u.waits ==> head <= x < head + cap
    ensures Linked(ClearName(c, Pos(d, cap)), WaitsLess(u, d), cap)
  {
    ClearedNames(c, Pos(d, cap));
    PositionsWithout(u.waits, d, head, cap);
  }

  /** Releasing one more finishing entry, entry by entry. */
  ghost predicate Released(log: seq<Uop>, log': seq<Uop>, d: nat, upto: nat) {
    |log'| == |log|
    && forall k :: 0 <= k < |log| ==> log'[k] == if d < k < upto then WaitsLess(log[k], d) else log[k]
  }

  lemma ReleasedNext(log0: seq<Uop>, log: seq<Uop>, log': seq<Uop>, head: nat, d: nat, now: nat)
    requires head <= d < |log0| && WaitsLive(head, log0)
    requires log == ReleaseUpTo(log0, head, d, now)
    requires log0[d].phase.Completed? && log0[d].ready == now && Released(log, log', d, |log|)
    ensures log' == ReleaseUpTo(log0, head, d + 1, now)
  {
    var next := ReleaseUpTo(log0, head, d + 1, now);
    assert Finishing(log0, head, d + 1, now) == Finishing(log0, head, d, now) + {d};
    forall k | 0 <= k < |log0| ensures log'[k] == next[k] {
      if head <= k && log0[k].phase.Issued? {
        assert k <= d ==> d !in log0[k].waits;
        assert next[k].waits == log[k].waits - {d};
      }
    }
  }

  lemma NotFinishing(log0: seq<Uop>, head: nat, d: nat, now: nat)
    requires head <= d < |log0| && !(log0[d].phase.Completed? && log0[d].ready == now)
    ensures ReleaseUpTo(log0, head, d + 1, now) == ReleaseUpTo(log0, head, d, now)
  {
    assert Finishing(log0, head, d + 1, now) == Finishing(log0, head, d, now);
  }

  lemma ReleasedExtends(log0: seq<Uop>, log: seq<Uop>, d: nat, k: nat)
    requires d < k < |log| && Released(log0, log, d, k)
    ensures Released(log0, log[k := WaitsLess(log[k], d)], d, k + 1)
  {
  }

  lemma ReleaseKeepsState(log0: seq<Uop>, head: nat, upto: nat, now: nat, k: nat)
    requires upto <= |log0| && k < |log0|
    ensures
      var u := ReleaseUpTo(log0, head, upto, now)[k];
      u.phase == log0[k].phase && u.ready == log0[k].ready
  {
  }

  lemma NothingReleased(log: seq<Uop>, head: nat, now: nat)
    requires head <= |log|
    ensures ReleaseUpTo(log, head, head, now) == log
  {
    var r := ReleaseUpTo(log, head, head, now);
    assert Finishing(log, head, head, now) == {};
    forall k | 0 <= k < |log| ensures r[k] == log[k] {
      assert log[k].waits - {} == log[k].waits;
    }
  }

  lemma PopWaitsLive(head: nat, log: seq<Uop>)
    requires WaitsLive(head, log) && forall k :: head < k < |log| ==> head !in log[k].waits
    ensures WaitsLive(head + 1, log)
  {
  }
}
