/** The out-of-order core: fetched instructions enter a circular reorder buffer, start when nothing
    they name is left, wake up their dependants at their ready time, and leave in order.

    The core keeps a ghost run of `ReorderBuffer`; `Valid` says that the array mirrors the last state
    of that run.  So whatever sequence of calls and replies the core goes through, there is a run of
    the log machine behind it, and every theorem about those runs applies to the array. */
module OutOfOrderCore {
  import opened ReorderBuffer
  import opened RobSlots
  import opened Circular
  import opened Numbers

  /** A fetched instruction; `inCache` says whether its line has come back from the instruction cache, and `ready` when
      it can be issued then. */
  datatype Fetched = Fetched(ready: nat, inCache: bool, raddr: nat, raddr2: nat, waddr: nat,
                             src: seq<nat>, dst: set<nat>, kind: Kind, miss: bool)

  function Present(a: nat): seq<nat> { if a == 0 then [] else [a] }

  function Accesses(f: Fetched): (r: seq<nat>)
    ensures 1 <= |r| <= 3
    ensures r == [0] || forall a :: a in r ==> a != 0
  {
    var all := Present(f.raddr) + Present(f.raddr2) + Present(f.waddr);
    if all == [] then [0] else all
  }

  function Decode(f: Fetched): (i: Instr)
    ensures WellFormed(i)
  {
    Instr(Accesses(f), |Present(f.raddr) + Present(f.raddr2)|, Regs(f.src), f.dst, f.kind, f.miss)
  }

  /** Access x of a decoded instruction is one of its read addresses, or its write address. */
  lemma DecodedAccess(f: Fetched, x: nat)
    requires x < |Decode(f).accesses| && Decode(f).accesses[x] != 0
    ensures
      var i := Decode(f);
      if x < i.loads then i.accesses[x] in {f.raddr, f.raddr2} else i.accesses[x] == f.waddr
  {
    hide Regs;
    var r := Present(f.raddr) + Present(f.raddr2);
    assert x < |r| ==> r[x] in {f.raddr, f.raddr2};
  }

  /** A decoded instruction accesses each of its addresses once, and keeps its kind. */
  lemma DecodeExact(f: Fetched, a: nat)
    requires a != 0
    ensures
      var i := Decode(f);
      && multiset(i.accesses)[a] == multiset{f.raddr, f.raddr2, f.waddr}[a]
      && (0 in i.accesses ==> i.accesses == [0] && i.loads == 0)
      && i.kind == f.kind && i.miss == f.miss && i.dst == f.dst && (forall r :: r in i.src <==> r in f.src)
  {
    var all := Present(f.raddr) + Present(f.raddr2) + Present(f.waddr);
    assert multiset(all) == multiset(Present(f.raddr)) + multiset(Present(f.raddr2)) + multiset(Present(f.waddr));
  }

  /** Execution units in use, or available, in one call. */
  datatype Units = Units(alu: nat, ldst: nat, ld: nat, st: nat, sse: nat)

  /** What the scan does at one entry, and whether it ends there. */
  datatype Decision = Decision(acts: seq<Action>, stop: bool, used: Units, flags: set<nat>)

  class O3Core {
    const interval: nat
    const penalty: nat  // branch_miss_penalty
    const lockT: nat
    const unlockT: nat
    const barrierT: nat
    const sseT: nat
    const rob: array<Slot>

    var robHead: nat
    var robSize: nat
    var now: nat
    var wake: set<nat>      // the times at which the event kernel holds this core
    var inFlight: set<nat>  // the `rob_entry` of every access that has not come back

    ghost var log: seq<Uop>
    ghost var head: nat
    ghost var stage: Stage
    ghost var states: seq<Rob>
    ghost var actions: seq<Action>

    ghost function Model(): Rob
      reads this`log, this`head, this`now, this`wake, this`stage
    {
      Rob(log, head, now, wake, stage)
    }

    ghost predicate Placed()
      reads this`robHead, this`robSize, this`log, this`head, rob
    {
      && rob.Length > 4 && interval > 0
      && Mirror(rob[..], head, log)
      && robHead == Pos(head, rob.Length) && robSize == |log| - head
    }

    /** The array mirrors the log, and the accesses under way are exactly those of executing entries. */
    ghost predicate Shape()
      reads this`robHead, this`robSize, this`inFlight, this`log, this`head, rob
    {
      && Placed() && WaitsLive(head, log)
      && inFlight == Travelling(head, log, rob.Length)
    }

    ghost predicate Valid()
      reads this, rob
    {
      Shape() && Run(states, actions) && states[|actions|] == Model()
    }

    constructor (interval: nat, penalty: nat, lockT: nat, unlockT: nat, barrierT: nat, sseT: nat, robMax: nat)
      requires interval > 0 && robMax > 4
      ensures Valid() && fresh(rob) && rob.Length == robMax && log == [] && stage.Idle? && wake == {}
    {
      this.interval, this.penalty, this.lockT := interval, penalty, lockT;
      this.unlockT, this.barrierT, this.sseT := unlockT, barrierT, sseT;
      rob := new Slot[robMax](_ => Slot(Invalid, 0, 0, false, false, Plain, {}, -1, -1, -1, []));
      robHead, robSize, now, wake, inFlight := 0, 0, 0, {}, {};
      log, head, stage := [], 0, Idle;
      states, actions := [EMPTY], [];
    }

    /** The position of the i-th entry after `robHead`. */
    static method Position(robHead: nat, i: nat, cap: nat, ghost head: nat) returns (p: nat)
      requires i < cap && robHead == Pos(head, cap)
      ensures p == Pos(head + i, cap)
    {
      SmallRemainder(robHead + i, cap);
      PosAdd(head, i, cap);
      p := (robHead + i) % cap;
    }

    /** Appends one action to the ghost run, once the fields are those of its result. */
    ghost method Record(a: Action)
      requires Shape() && Run(states, actions) && Enabled(states[|actions|], a)
      requires Model() == Next(states[|actions|], a)
      modifies this`states, this`actions
      ensures Valid() && actions == old(actions) + [a]
      ensures states == old(states) + [Model()]
    {
      RunExtends(states, actions, a);
      states, actions := states + [Model()], actions + [a];
    }

    /** Every start this core has ever performed found its dependencies finished. */
    lemma EveryStartWasInOrder(n: nat)
      requires Valid() && n < |actions| && (actions[n].Compute? || actions[n].Access?)
      ensures MayStart(states[n], actions[n].k) && InOrder(states[n].log, actions[n].k, states[n].now)
    {
      ExecutionRespectsDependencies(states, actions, n);
    }

    // -------------------------------------------------------------- issue

    /** The position of the youngest unfinished match among the first n entries, or -1. */
    static method Search(slots: seq<Slot>, robHead: nat, n: nat, now: nat, q: Query, ghost head: nat,
                         ghost log: seq<Uop>)
      returns (dep: int)
      requires Mirror(slots, head, log) && robHead == Pos(head, |slots|) && head + n <= |log|
      ensures Finds(dep, Youngest(log, head, head + n, now, q), |slots|)
    {
      hide Linked;
      var j := n;
      while j > 0
        invariant 0 <= j <= n
        invariant Youngest(log, head, head + n, now, q) == Youngest(log, head, head + j, now, q)
      {
        var p := Position(robHead, j - 1, |slots|, head);
        var c := slots[p];
        SlotDecides(slots, head, log, head + j - 1, q, now);
        YoungestStep(log, head, head + j, now, q);
        if !(c.state.InCompleted? && c.ready <= now) && SlotMatches(c, q) {
          return p;
        }
        j := j - 1;
      }
      return -1;
    }

    /** One search per source register; register 0 is none. */
    static method SearchRegisters(slots: seq<Slot>, robHead: nat, n: nat, now: nat, src: seq<nat>,
                                  ghost head: nat, ghost log: seq<Uop>) returns (deps: seq<int>)
      requires Mirror(slots, head, log) && robHead == Pos(head, |slots|) && head + n <= |log|
      ensures Named(deps) == Positions(Sources(log, head, head + n, now, Regs(src)), |slots|)
    {
      deps := [];
      var i := 0;
      NoSources(log, head, head + n, now, |slots|);
      assert src[..0] == [];
      while i < |src|
        invariant 0 <= i <= |src|
        invariant Named(deps) == Positions(Sources(log, head, head + n, now, Regs(src[..i])), |slots|)
      {
        var dep := -1;
        if src[i] != 0 {
          dep := Search(slots, robHead, n, now, Writes(src[i]), head, log);
        }
        ExtendSources(log, head, head + n, now, src, i, |slots|, deps, dep);
        deps := deps + [dep];
        i := i + 1;
      }
      assert src[..i] == src;
    }

    /** Fills the next slot with access j of an instruction that began at entry `start`. */
    method Push(i: Instr, j: nat, ghost start: nat, isRead: bool, kind: Kind,
                instrDep: int, branchDep: int, regDeps: seq<int>)
      requires Shape() && robSize < rob.Length
      requires head <= start && start + j == |log| && j < |i.accesses| && isRead == (j < i.loads) && kind == i.kind
      requires instrDep == if j == 0 then -1 else Pos(|log| - 1, rob.Length)
      requires Only(branchDep) == Positions(Youngest(log, head, start, now, Miss), rob.Length)
      requires Named(regDeps) == Positions(Sources(log, head, start, now, i.src), rob.Length)
      modifies this`robSize, this`log, rob
      ensures log == old(log) + [NewUop(old(log), head, start, now, interval, i, j)]
      ensures robSize == old(robSize) + 1 && Shape()
    {
      hide WaitsLive, Travelling, Youngest, Sources, Linked;
      var a := i.accesses[j];
      var memDep := -1;
      if a != 0 {
        memDep := Search(rob[..], robHead, robSize, now, Touches(a / WORD), head, log);
        FoundPosition(memDep, Youngest(log, head, |log|, now, Touches(a / WORD)), rob.Length);
      }
      ghost var u := NewUop(log, head, start, now, interval, i, j);
      var c := Slot(InIssued, now + interval, a, isRead, i.miss, kind, i.dst, memDep, instrDep, branchDep, regDeps);
      NewSlotLinked(log, head, start, now, interval, i, j, c, rob.Length);
      NewUopLive(log, head, start, now, interval, i, j);
      Append(c, u);
    }

    /** Stores a new slot behind the youngest entry. */
    method Append(c: Slot, ghost u: Uop)
      requires Shape() && robSize < rob.Length && Linked(c, u, rob.Length)
      requires !u.phase.Executing? && forall d :: d in u.waits ==> head <= d < |log|
      modifies this`robSize, this`log, rob
      ensures log == old(log) + [u] && robSize == old(robSize) + 1 && Shape()
    {
      var p := Position(robHead, robSize, rob.Length, head);
      PushMirror(rob[..], head, log, c, u);
      PushWaitsLive(head, log, u);
      PushTravelling(head, log, u, rob.Length);
      rob[p] := c;
      assert rob[..] == old(rob[..])[p := c];
      log := log + [u];
      robSize := robSize + 1;
    }

    /** The next access of an instruction; also returns the position that the following one names. */
    method PushNext(i: Instr, j: nat, ghost start: nat, isRead: bool, kind: Kind,
                    instrDep: int, branchDep: int, regDeps: seq<int>) returns (next: int)
      requires Shape() && robSize < rob.Length
      requires head <= start && start + j == |log| && j < |i.accesses| && isRead == (j < i.loads) && kind == i.kind
      requires instrDep == if j == 0 then -1 else Pos(|log| - 1, rob.Length)
      requires Only(branchDep) == Positions(Youngest(log, head, start, now, Miss), rob.Length)
      requires Named(regDeps) == Positions(Sources(log, head, start, now, i.src), rob.Length)
      modifies this`robSize, this`log, rob
      ensures Shape() && robSize == old(robSize) + 1 && |log| == |old(log)| + 1
      ensures IssueFrom(log, head, start, now, interval, i, j + 1) ==
        IssueFrom(old(log), head, start, now, interval, i, j)
      ensures next == Pos(|log| - 1, rob.Length)
      ensures Youngest(log, head, start, now, Miss) == Youngest(old(log), head, start, now, Miss)
      ensures Sources(log, head, start, now, i.src) == Sources(old(log), head, start, now, i.src)
    {
      hide WaitsLive, Travelling, Mirror, Youngest, Sources, Named, Only, Positions;
      ghost var before := log;
      Push(i, j, start, isRead, kind, instrDep, branchDep, regDeps);
      next := Position(robHead, robSize - 1, rob.Length, head);
      AfterPush(before, head, start, now, interval, i, j);
    }

    /** Reads first, then the write; one entry without an address if there is neither. */
    method PushAccesses(f: Fetched, i: Instr, branchDep: int, regDeps: seq<int>)
      requires Shape() && robSize + 3 < rob.Length && i == Decode(f)
      requires Only(branchDep) == Positions(Youngest(log, head, |log|, now, Miss), rob.Length)
      requires Named(regDeps) == Positions(Sources(log, head, |log|, now, i.src), rob.Length)
      modifies this`robSize, this`log, rob
      ensures Shape() && log == IssueFrom(old(log), head, |old(log)|, now, interval, i, 0)
    {
      hide WaitsLive, Travelling, Mirror, Sources, Named, Only, Positions;
      ghost var start := |log|;
      var numReads := |Present(f.raddr) + Present(f.raddr2)|;
      var j, instrDep := 0, -1;
      while j < |i.accesses|
        invariant 0 <= j <= |i.accesses| && |log| == start + j && robSize == old(robSize) + j && Shape()
        invariant instrDep == if j == 0 then -1 else Pos(|log| - 1, rob.Length)
        invariant Only(branchDep) == Positions(Youngest(log, head, start, now, Miss), rob.Length)
        invariant Named(regDeps) == Positions(Sources(log, head, start, now, i.src), rob.Length)
        invariant IssueFrom(log, head, start, now, interval, i, j) ==
          IssueFrom(old(log), head, start, now, interval, i, 0)
      {
        instrDep := PushNext(i, j, start, j < numReads, f.kind, instrDep, branchDep, regDeps);
        j := j + 1;
      }
    }

    method PushAll(f: Fetched, i: Instr)
      requires Shape() && robSize + 3 < rob.Length && i == Decode(f)
      modifies this`robSize, this`log, rob
      ensures Shape() && log == IssueFrom(old(log), head, |old(log)|, now, interval, i, 0)
    {
      hide WaitsLive, Travelling, Linked;
      var branchDep := Search(rob[..], robHead, robSize, now, Miss, head, log);
      FoundPosition(branchDep, Youngest(log, head, |log|, now, Miss), rob.Length);
      var regDeps := SearchRegisters(rob[..], robHead, robSize, now, f.src, head, log);
      PushAccesses(f, i, branchDep, regDeps);
    }

    /** Moves one fetched instruction into the buffer. */
    method IssueOne(f: Fetched)
      requires Valid() && stage.Front? && robSize + 3 < rob.Length
      modifies this`robSize, this`log, this`wake, this`states, this`actions, rob
      ensures Valid() && actions == old(actions) + [Issue(Decode(f), interval)]
    {
      PushAll(f, Decode(f));
      wake := wake + {now + interval};
      Record(Issue(Decode(f), interval));
    }

    // -------------------------------------------------------------- execute

    /** Overwrites the slot of entry k; it may wait for less than before. */
    method Store(p: nat, c: Slot, ghost k: nat, ghost u: Uop)
      requires Placed() && WaitsLive(head, log) && head <= k < |log| && p == Pos(k, rob.Length)
      requires Linked(c, u, rob.Length) && u.waits <= log[k].waits
      modifies this`log, rob
      ensures Placed() && WaitsLive(head, log) && log == old(log)[k := u]
      ensures OthersKept(old(rob[..]), rob[..], p)
    {
      StoreMirror(rob[..], head, log, k, c, u);
      StoreWaitsLive(head, log, k, u);
      rob[p] := c;
      assert rob[..] == old(rob[..])[p := c];
      log := log[k := u];
    }

    method Look(i: nat) returns (p: nat, c: Slot)
      requires Placed() && i < robSize
      ensures p == Pos(head + i, rob.Length) && c == rob[p] && Linked(c, log[head + i], rob.Length)
    {
      p := Position(robHead, i, rob.Length, head);
      c := rob[p];
      assert c == rob[..][p];
    }

    ghost predicate Ready(i: nat)
      reads this`robSize, this`log, this`head, this`now, this`wake, this`stage
    {
      i < robSize && MayStart(Model(), head + i)
    }

    method SetCompleted(i: nat, latency: nat)
      requires Shape() && i < robSize && log[head + i].phase.Issued?
      modifies this`wake, this`log, rob
      ensures Shape() && wake == old(wake) + {now + latency}
      ensures log == old(log)[head + i := old(log)[head + i].(phase := Completed, ready := now + latency)]
      ensures OthersKept(old(rob[..]), rob[..], Pos(head + i, rob.Length))
    {
      hide WaitsLive, OthersKept, Travelling, Positions;
      var p, c := Look(i);
      ghost var u := log[head + i].(phase := Completed, ready := now + latency);
      StoreTravelling(head, log, head + i, u, rob.Length);
      NotTravelling(head, log, head + i, rob.Length);
      Store(p, c.(state := InCompleted, ready := now + latency), head + i, u);
      wake := wake + {now + latency};
    }

    method SetExecuting(i: nat)
      requires Shape() && i < robSize && log[head + i].phase.Issued?
      modifies this`inFlight, this`log, rob
      ensures Shape() && log == old(log)[head + i := old(log)[head + i].(phase := Executing)]
      ensures OthersKept(old(rob[..]), rob[..], Pos(head + i, rob.Length))
    {
      hide WaitsLive, OthersKept, Travelling;
      var p, c := Look(i);
      ghost var u := log[head + i].(phase := Executing);
      StoreTravelling(head, log, head + i, u, rob.Length);
      inFlight := inFlight + {p};
      Store(p, c.(state := InExecuting), head + i, u);
    }

    /** The i-th oldest entry is done at once, or after a fixed latency. */
    method Complete(i: nat, latency: nat)
      requires Valid() && Ready(i)
      modifies this`wake, this`log, this`states, this`actions, rob
      ensures Valid() && actions == old(actions) + [Compute(head + i, latency)]
      ensures OthersKept(old(rob[..]), rob[..], Pos(head + i, rob.Length))
    {
      hide WaitsLive, Mirror, Travelling;
      SetCompleted(i, latency);
      Record(Compute(head + i, latency));
    }

    /** The access of the i-th oldest entry leaves for the data cache or its TLB. */
    method Send(i: nat)
      requires Valid() && Ready(i) && log[head + i].addr != 0
      modifies this`inFlight, this`log, this`states, this`actions, rob
      ensures Valid() && actions == old(actions) + [Access(head + i)]
      ensures OthersKept(old(rob[..]), rob[..], Pos(head + i, rob.Length))
    {
      hide WaitsLive, Travelling, Mirror, StepAt;
      SetExecuting(i);
      Record(Access(head + i));
    }

    method WakeAt(t: nat)
      requires Valid() && now <= t
      modifies this`wake, this`states, this`actions
      ensures Valid() && actions == old(actions) + [Schedule(t)] && wake == old(wake) + {t}
    {
      wake := wake + {t};
      Record(Schedule(t));
    }

    method SetReplied(p: nat, ghost k: nat, call: nat, ready: nat)
      requires Shape() && head <= k < |log| && p == Pos(k, rob.Length)
      modifies this`now, this`wake, this`inFlight, this`log, rob
      ensures Shape() && now == call && wake == old(wake) + {ready} && inFlight == old(inFlight) - {p}
      ensures log == old(log)[k := old(log)[k].(phase := Completed, ready := ready)]
    {
      ghost var u := log[k].(phase := Completed, ready := ready);
      StoreTravelling(head, log, k, u, rob.Length);
      assert rob[p] == rob[..][p];
      Store(p, rob[p].(state := InCompleted, ready := ready), k, u);
      inFlight := inFlight - {p};
      now := call;
      wake := wake + {ready};
    }

    /** A memory reply carries the position it was sent with; the entry there is the one that sent it.  The reply is
        announced at time `call` for the time t, which may lie after the next call of this core. */
    method AddRepEvent(p: nat, call: nat, t: nat) returns (ghost k: nat)
      requires Valid() && stage.Idle? && p in inFlight
      requires now <= call <= t && forall w :: w in wake ==> call <= w
      modifies this`now, this`wake, this`inFlight, this`log, this`states, this`actions, rob
      ensures Valid() && now == call && inFlight == old(inFlight) - {p}
      ensures head <= k < |old(log)| && Pos(k, rob.Length) == p && old(log)[k].phase.Executing?
      ensures
        var aligned := AlignUp(t, interval);
        var ready := aligned + if old(log)[k].miss then penalty else 0;
        && log == old(log)[k := old(log)[k].(phase := Completed, ready := ready)]
        && wake == old(wake) + {ready, aligned}
        && actions == old(actions) + [Reply(k, call, ready - call), Schedule(aligned)]
      ensures Awake()
    {
      hide Run, Travelling, WaitsLive, Mirror, AlignUp;
      k := Sender(head, log, rob.Length, p);
      var miss := Missed(p, k);
      var aligned := AlignUp(t, interval);
      var ready := aligned + if miss then penalty else 0;
      Replied(p, k, call, ready);
      WakeAt(aligned);
      assert actions == old(actions) + [Reply(k, call, ready - call), Schedule(aligned)];
    }

    method Missed(p: nat, ghost k: nat) returns (miss: bool)
      requires Placed() && head <= k < |log| && p == Pos(k, rob.Length)
      ensures miss == log[k].miss
    {
      assert rob[p] == rob[..][p];
      return rob[p].miss;
    }

    /** Entry k is done at time `ready`. */
    method Replied(p: nat, ghost k: nat, call: nat, ready: nat)
      requires Valid() && stage.Idle? && head <= k < |log| && p == Pos(k, rob.Length) && log[k].phase.Executing?
      requires now <= call <= ready && forall w :: w in wake ==> call <= w
      modifies this`now, this`wake, this`inFlight, this`log, this`states, this`actions, rob
      ensures Valid() && now == call && inFlight == old(inFlight) - {p} && wake == old(wake) + {ready}
      ensures log == old(log)[k := old(log)[k].(phase := Completed, ready := ready)]
      ensures actions == old(actions) + [Reply(k, call, ready - call)]
    {
      SetReplied(p, k, call, ready);
      Record(Reply(k, call, ready - call));
    }

    function Latency(c: Slot): nat {
      match c.kind
      case Lock => lockT
      case Unlock => unlockT
      case Barrier => barrierT
      case X87 => sseT
      case _ => if c.miss then penalty + interval else interval
    }

    /** What the scan does at the i-th oldest entry: notify and waitfor act only from the head and otherwise
        end the scan; an entry that names nothing starts if a unit is free; an in-order core goes no further
        than the first entry that cannot start. */
    function Decide(c: Slot, i: nat, h: nat, t: nat, used: Units, flags: set<nat>, limit: Units,
                    inOrder: bool): Decision {
      if c.state.InIssued? && c.ready <= t && (c.kind.Notify? || c.kind.WaitFor?) then
        if i == 0 && c.kind.Notify? then Decision([Compute(h, barrierT)], false, used, flags + {c.kind.flag})
        else if i == 0 && c.kind.flag in flags then Decision([Compute(h, interval)], false, used, flags - {c.kind.flag})
        else Decision([Schedule(t + interval)], true, used, flags)
      else if c.state.InIssued? && c.ready <= t && Names(c) == {} then
        if UnitFree(c, used, limit) then
          Decision([if c.addr == 0 then Compute(h + i, Latency(c)) else Access(h + i)], false, Taking(c, used), flags)
        else Decision([], false, used, flags)
      else if inOrder then Decision([Schedule(t + interval)], true, used, flags)
      else Decision([], false, used, flags)
    }

    /** The whole scan, from the i-th oldest entry on. */
    function Plan(cs: seq<Slot>, i: nat, h: nat, t: nat, used: Units, flags: set<nat>, limit: Units,
                  inOrder: bool): seq<Action>
      requires i <= |cs|
      decreases |cs| - i
    {
      if i == |cs| then []
      else
        var d := Decide(cs[i], i, h, t, used, flags, limit, inOrder);
        d.acts + if d.stop then [] else Plan(cs, i + 1, h, t, d.used, d.flags, limit, inOrder)
    }

    /** A scan never uses more units of any kind than there are, whatever the buffer holds; what it uses is counted from
        the actions it performs. */
    lemma {:induction false} UnitsRespected(cs: seq<Slot>, i: nat, h: nat, t: nat, used: Units, flags: set<nat>,
                                            limit: Units, inOrder: bool)
      requires i <= |cs| && Within(used, limit)
      ensures Within(Plus(used, Usage(Plan(cs, i, h, t, used, flags, limit, inOrder), cs, h)), limit)
      decreases |cs| - i
    {
      hide O3Core.Decide, Use;
      if i < |cs| {
        UnitsTaken(cs, i, h, t, used, flags, limit, inOrder);
        var d := Decide(cs[i], i, h, t, used, flags, limit, inOrder);
        if d.stop {
          UsageInAll(d.acts, [], cs, h);
        } else {
          UnitsRespected(cs, i + 1, h, t, d.used, d.flags, limit, inOrder);
          UsageInAll(d.acts, Plan(cs, i + 1, h, t, d.used, d.flags, limit, inOrder), cs, h);
        }
      }
    }

    lemma UnitsTaken(cs: seq<Slot>, i: nat, h: nat, t: nat, used: Units, flags: set<nat>, limit: Units, inOrder: bool)
      requires i < |cs| && Within(used, limit)
      ensures
        var d := Decide(cs[i], i, h, t, used, flags, limit, inOrder);
        d.used == Plus(used, Usage(d.acts, cs, h)) && Within(d.used, limit)
    {
      hide Usage;
      var d := Decide(cs[i], i, h, t, used, flags, limit, inOrder);
      UsageOfFew(d.acts, cs, h);
      if d.acts != [] { assert Use(d.acts[0], cs, h) == if d.used == used then NO_UNITS else Taking(cs[i], NO_UNITS); }
    }

    // -------------------------------------------------------------- what the scan of any buffer does

    /** The entry may start, if there is a unit for it. */
    predicate Waiting(c: Slot, t: nat) {
      c.state.InIssued? && c.ready <= t && !c.kind.Notify? && !c.kind.WaitFor? && Names(c) == {}
    }

    /** A notify, or a waitfor whose flag is set, at the head of the buffer. */
    predicate Migrates(c: Slot, i: nat, t: nat, flags: set<nat>) {
      i == 0 && c.state.InIssued? && c.ready <= t && (c.kind.Notify? || (c.kind.WaitFor? && c.kind.flag in flags))
    }

    /** The scan ends here: at any other notify or waitfor, and for an in-order core at whatever may not start. */
    predicate Blocks(c: Slot, i: nat, t: nat, flags: set<nat>, inOrder: bool) {
      if c.state.InIssued? && c.ready <= t && (c.kind.Notify? || c.kind.WaitFor?) then !Migrates(c, i, t, flags)
      else inOrder && !Waiting(c, t)
    }

    /** The action starts entry k: an access leaves for memory; whatever else starts is done after the time its kind
        takes. */
    predicate Starts(c: Slot, k: nat, a: Action) {
      if c.addr != 0 then a == Access(k)
      else
        && a.Compute? && a.k == k
        && (c.kind.Lock? ==> a.latency == lockT) && (c.kind.Unlock? ==> a.latency == unlockT)
        && (c.kind.Barrier? ==> a.latency == barrierT) && (c.kind.X87? ==> a.latency == sseT)
        && (c.kind.Plain? ==> a.latency == if c.miss then penalty + interval else interval)
    }

    predicate StartsMigration(c: Slot, k: nat, a: Action) {
      a == Compute(k, if c.kind.Notify? then barrierT else interval)
    }

    /** What the code decides at one entry. */
    lemma DecideIs(c: Slot, i: nat, h: nat, t: nat, used: Units, flags: set<nat>, limit: Units, inOrder: bool)
      ensures
        var d := Decide(c, i, h, t, used, flags, limit, inOrder);
        && d.stop == Blocks(c, i, t, flags, inOrder)
        && (d.stop ==> d.acts == [Schedule(t + interval)])
        && (!d.stop && Waiting(c, t) ==>
              if NoUnitLeft(c, used, limit) then d.acts == [] else |d.acts| == 1 && Starts(c, h + i, d.acts[0]))
        && (!d.stop && !Waiting(c, t) ==>
              if Migrates(c, i, t, flags) then |d.acts| == 1 && StartsMigration(c, h + i, d.acts[0]) else d.acts == [])
        && d.flags == if i == 0 then FlagsAfter([c], t, flags) else flags
    {
    }

    /** A notify at the head sets its flag, a waitfor there clears it; nothing else changes a flag. */
    function FlagsAfter(cs: seq<Slot>, t: nat, flags: set<nat>): set<nat> {
      if cs == [] || !Migrates(cs[0], 0, t, flags) then flags
      else if cs[0].kind.Notify? then flags + {cs[0].kind.flag}
      else flags - {cs[0].kind.flag}
    }

    lemma FlagsDecided(cs: seq<Slot>, i: nat, h: nat, t: nat, used: Units, flags: set<nat>, limit: Units, inOrder: bool)
      requires i < |cs|
      ensures
        Decide(cs[i], i, h, t, used, flags, limit, inOrder).flags == if i == 0 then FlagsAfter(cs, t, flags) else flags
    {
      DecideIs(cs[i], i, h, t, used, flags, limit, inOrder);
    }

    ghost predicate Begun(acts: seq<Action>, c: Slot, k: nat) {
      exists n :: 0 <= n < |acts| && Starts(c, k, acts[n])
    }

    /** The units the entry needs were used up by older ones; their use is counted from the actions. */
    ghost predicate Starved(acts: seq<Action>, cs: seq<Slot>, i: nat, h: nat, limit: Units)
      requires i < |cs|
    {
      exists n :: 0 <= n <= |acts| && OnlyOlder(acts[..n], h + i) && NoUnitLeft(cs[i], Usage(acts[..n], cs, h), limit)
    }

    /** The action is one the scan may perform before it reaches its end at entry b. */
    ghost predicate Rightful(a: Action, cs: seq<Slot>, b: nat, h: nat, t: nat, flags: set<nat>) {
      exists i :: 0 <= i < |cs| && i < b
        && ((Waiting(cs[i], t) && Starts(cs[i], h + i, a))
            || (Migrates(cs[i], i, t, flags) && StartsMigration(cs[i], h + i, a)))
    }

    /** A scan that has got as far as entry i. */
    ghost predicate DoneUpTo(acts: seq<Action>, cs: seq<Slot>, i: nat, h: nat, t: nat, flags: set<nat>, limit: Units,
                             inOrder: bool)
      requires i <= |cs|
    {
      && (forall j :: 0 <= j < i ==> !Blocks(cs[j], j, t, flags, inOrder))
      && (forall j :: 0 <= j < i && Waiting(cs[j], t) ==> Begun(acts, cs[j], h + j) || Starved(acts, cs, j, h, limit))
      && (forall n :: 0 <= n < |acts| ==> Rightful(acts[n], cs, i, h, t, flags))
    }

    lemma MoreDone(acts: seq<Action>, more: seq<Action>, cs: seq<Slot>, i: nat, h: nat, t: nat, flags: set<nat>,
                   limit: Units, inOrder: bool)
      requires i < |cs| && DoneUpTo(acts, cs, i, h, t, flags, limit, inOrder) && !Blocks(cs[i], i, t, flags, inOrder)
      requires Waiting(cs[i], t) ==> Begun(acts + more, cs[i], h + i) || Starved(acts + more, cs, i, h, limit)
      requires forall n :: 0 <= n < |more| ==> Rightful(more[n], cs, i + 1, h, t, flags)
      ensures DoneUpTo(acts + more, cs, i + 1, h, t, flags, limit, inOrder)
    {
      var all := acts + more;
      forall j | 0 <= j < i && Waiting(cs[j], t) ensures Begun(all, cs[j], h + j) || Starved(all, cs, j, h, limit) {
        if Begun(acts, cs[j], h + j) {
          var n :| 0 <= n < |acts| && Starts(cs[j], h + j, acts[n]);
          assert all[n] == acts[n];
        } else {
          var n :| 0 <= n <= |acts| && OnlyOlder(acts[..n], h + j) && NoUnitLeft(cs[j], Usage(acts[..n], cs, h), limit);
          assert all[..n] == acts[..n];
        }
      }
      forall n | 0 <= n < |all| ensures Rightful(all[n], cs, i + 1, h, t, flags) {
        if n < |acts| { assert Rightful(acts[n], cs, i, h, t, flags); } else { assert all[n] == more[n - |acts|]; }
      }
    }

    /** One entry's turn, for a scan that has done all before it. */
    lemma TurnDone(acts: seq<Action>, cs: seq<Slot>, i: nat, h: nat, t: nat, flags: set<nat>, flags0: set<nat>,
                   limit: Units, inOrder: bool)
      requires i < |cs| && DoneUpTo(acts, cs, i, h, t, flags0, limit, inOrder) && OnlyOlder(acts, h + i)
      requires i == 0 ==> flags == flags0
      ensures
        var d := Decide(cs[i], i, h, t, Usage(acts, cs, h), flags, limit, inOrder);
        && d.stop == Blocks(cs[i], i, t, flags0, inOrder)
        && (d.stop ==> d.acts == [Schedule(t + interval)])
        && (!d.stop ==> DoneUpTo(acts + d.acts, cs, i + 1, h, t, flags0, limit, inOrder)
                        && OnlyOlder(acts + d.acts, h + i + 1))
    {
      hide O3Core.Decide, Usage, O3Core.DoneUpTo;
      var d := Decide(cs[i], i, h, t, Usage(acts, cs, h), flags, limit, inOrder);
      DecideIs(cs[i], i, h, t, Usage(acts, cs, h), flags, limit, inOrder);
      if !d.stop {
        var all := acts + d.acts;
        if Waiting(cs[i], t) {
          if d.acts == [] {
            assert all[..|acts|] == acts;
          } else {
            assert all[|acts|] == d.acts[0];
          }
        }
        forall n | 0 <= n < |d.acts| ensures Rightful(d.acts[n], cs, i + 1, h, t, flags0) {
          assert (Waiting(cs[i], t) && Starts(cs[i], h + i, d.acts[n]))
              || (Migrates(cs[i], i, t, flags0) && StartsMigration(cs[i], h + i, d.acts[n]));
        }
        MoreDone(acts, d.acts, cs, i, h, t, flags0, limit, inOrder);
      }
    }

    lemma {:induction false} ScanFrom(acts: seq<Action>, cs: seq<Slot>, i: nat, h: nat, t: nat, flags: set<nat>,
                                      flags0: set<nat>, limit: Units, inOrder: bool)
      returns (b: nat, begun: seq<Action>)
      requires i <= |cs| && DoneUpTo(acts, cs, i, h, t, flags0, limit, inOrder) && OnlyOlder(acts, h + i)
      requires Within(Usage(acts, cs, h), limit) && (i == 0 ==> flags == flags0)
      ensures i <= b <= |cs| && DoneUpTo(begun, cs, b, h, t, flags0, limit, inOrder)
      ensures b < |cs| ==> Blocks(cs[b], b, t, flags0, inOrder)
      ensures acts + Plan(cs, i, h, t, Usage(acts, cs, h), flags, limit, inOrder)
           == begun + if b < |cs| then [Schedule(t + interval)] else []
      decreases |cs| - i
    {
      hide O3Core.Decide, Usage, O3Core.DoneUpTo, O3Core.Blocks, OnlyOlder;
      if i == |cs| {
        b, begun := i, acts;
        assert acts + [] == acts;
      } else {
        var used := Usage(acts, cs, h);
        var d := Decide(cs[i], i, h, t, used, flags, limit, inOrder);
        TurnDone(acts, cs, i, h, t, flags, flags0, limit, inOrder);
        UnitsTaken(cs, i, h, t, used, flags, limit, inOrder);
        UsageInAll(acts, d.acts, cs, h);
        PlanFrom(acts, cs, i, h, t, used, flags, limit, inOrder);
        if d.stop {
          b, begun := i, acts;
          assert (acts + d.acts) + [] == acts + d.acts;
        } else {
          b, begun := ScanFrom(acts + d.acts, cs, i + 1, h, t, d.flags, flags0, limit, inOrder);
        }
      }
    }

    /** What a scan does, whatever the buffer holds.  It ends before the first entry that blocks it, and then asks for
        another call; up to there, every entry that may start has started, or the units it needs were used up by older
        entries; and nothing else happens. */
    lemma ScanExact(cs: seq<Slot>, h: nat, t: nat, flags: set<nat>, limit: Units, inOrder: bool)
      returns (b: nat, begun: seq<Action>)
      ensures b <= |cs| && DoneUpTo(begun, cs, b, h, t, flags, limit, inOrder)
      ensures b < |cs| ==> Blocks(cs[b], b, t, flags, inOrder)
      ensures Plan(cs, 0, h, t, NO_UNITS, flags, limit, inOrder)
           == begun + if b < |cs| then [Schedule(t + interval)] else []
    {
      assert Usage([], cs, h) == NO_UNITS;
      b, begun := ScanFrom([], cs, 0, h, t, flags, flags, limit, inOrder);
    }

    /** If there is a unit of each kind, a scan begins with the head of the buffer if that may start. */
    lemma HeadGoesFirst(cs: seq<Slot>, h: nat, t: nat, flags: set<nat>, limit: Units, inOrder: bool)
      requires cs != [] && Ample(limit) && (Waiting(cs[0], t) || Migrates(cs[0], 0, t, flags))
      ensures
        var plan := Plan(cs, 0, h, t, NO_UNITS, flags, limit, inOrder);
        plan != [] && if Waiting(cs[0], t) then Starts(cs[0], h, plan[0]) else StartsMigration(cs[0], h, plan[0])
    {
      hide O3Core.Decide;
      DecideIs(cs[0], 0, h, t, NO_UNITS, flags, limit, inOrder);
    }

    /** Every action of a plan starts an entry or asks for another call. */
    lemma PlanActs(cs: seq<Slot>, h: nat, t: nat, flags: set<nat>, limit: Units, inOrder: bool)
      ensures
        var plan := Plan(cs, 0, h, t, NO_UNITS, flags, limit, inOrder);
        Internal(plan) && (plan != [] ==> Rousing(plan))
    {
      var b, begun := ScanExact(cs, h, t, flags, limit, inOrder);
      var plan := Plan(cs, 0, h, t, NO_UNITS, flags, limit, inOrder);
      forall n | 0 <= n < |plan| ensures Rouses(plan[n]) && !plan[n].Call? && !plan[n].Reply? {
        if n < |begun| { assert Rightful(begun[n], cs, b, h, t, flags); }
      }
      assert plan != [] ==> Rouses(plan[0]);
    }

    lemma NobodyStarves(cs: seq<Slot>, i: nat, h: nat, limit: Units)
      requires i < |cs| && Ample(limit)
      ensures !Begun([], cs[i], h + i) && !Starved([], cs, i, h, limit)
    {
      var none: seq<Action> := [];
      assert none[..0] == none && Usage(none, cs, h) == NO_UNITS;
    }

    /** A scan that does nothing finds nothing that may start. */
    lemma NothingWaits(cs: seq<Slot>, h: nat, t: nat, flags: set<nat>, limit: Units, inOrder: bool, i: nat)
      requires i < |cs| && Ample(limit) && Plan(cs, 0, h, t, NO_UNITS, flags, limit, inOrder) == []
      requires cs[i].state.InIssued? && cs[i].ready <= t
      ensures Names(cs[i]) != {} && !cs[i].kind.Notify? && !cs[i].kind.WaitFor?
    {
      var b, begun := ScanExact(cs, h, t, flags, limit, inOrder);
      assert b == |cs| && begun == [];
      assert !Blocks(cs[i], i, t, flags, inOrder);
      NobodyStarves(cs, i, h, limit);
      if Migrates(cs[i], i, t, flags) { HeadGoesFirst(cs, h, t, flags, limit, inOrder); }
    }

    /** The plan, one entry unfolded. */
    lemma PlanFrom(before: seq<Action>, cs: seq<Slot>, i: nat, h: nat, t: nat, used: Units, flags: set<nat>,
                   limit: Units, inOrder: bool)
      requires i < |cs|
      ensures
        var d := Decide(cs[i], i, h, t, used, flags, limit, inOrder);
        (before + d.acts) + (if d.stop then [] else Plan(cs, i + 1, h, t, d.used, d.flags, limit, inOrder))
        == before + Plan(cs, i, h, t, used, flags, limit, inOrder)
    {
      var d := Decide(cs[i], i, h, t, used, flags, limit, inOrder);
      var rest := if d.stop then [] else Plan(cs, i + 1, h, t, d.used, d.flags, limit, inOrder);
      assert (before + d.acts) + rest == before + (d.acts + rest);
    }

    /** Notify and waitfor act only from the head of the buffer. */
    method TryMigration(i: nat, c: Slot, flags: set<nat>, ghost d: Decision, ghost used: Units, ghost limit: Units,
                        ghost inOrder: bool)
      returns (stop: bool, flags': set<nat>)
      requires Valid() && i < robSize && stage.Front? && Linked(c, log[head + i], rob.Length)
      requires c.state.InIssued? && c.ready <= now && (c.kind.Notify? || c.kind.WaitFor?)
      requires d == Decide(c, i, head, now, used, flags, limit, inOrder)
      modifies this`wake, this`log, this`states, this`actions, rob
      ensures Valid() && actions == old(actions) + d.acts && stop == d.stop && flags' == d.flags && used == d.used
      ensures OthersKept(old(rob[..]), rob[..], Pos(head + i, rob.Length))
    {
      hide WaitsLive, Travelling, Mirror, StepAt;
      if i == 0 && c.kind.Notify? {
        Complete(0, barrierT);
        return false, flags + {c.kind.flag};
      } else if i == 0 && c.kind.flag in flags {
        Complete(0, interval);
        return false, flags - {c.kind.flag};
      } else {
        WakeAt(now + interval);
        return true, flags;
      }
    }

    /** An entry that names nothing starts if a unit is free. */
    method TryStart(i: nat, c: Slot, used: Units, limit: Units) returns (used': Units)
      requires Valid() && i < robSize && stage.Front? && Linked(c, log[head + i], rob.Length)
      requires c.state.InIssued? && c.ready <= now && Names(c) == {}
      modifies this`wake, this`inFlight, this`log, this`states, this`actions, rob
      ensures Valid() && used' == if UnitFree(c, used, limit) then Taking(c, used) else used
      ensures actions == old(actions) +
        if !UnitFree(c, used, limit) then []
        else [if c.addr == 0 then Compute(head + i, Latency(c)) else Access(head + i)]
      ensures OthersKept(old(rob[..]), rob[..], Pos(head + i, rob.Length))
    {
      hide StepAt, WaitsLive, Mirror;
      NothingNamed(c, log[head + i], rob.Length);
      if !UnitFree(c, used, limit) { return used; }
      used' := Taking(c, used);
      if c.addr == 0 {
        Complete(i, Latency(c));
      } else {
        Send(i);
      }
    }

    method StartTurn(i: nat, c: Slot, used: Units, limit: Units, ghost d: Decision, ghost flags: set<nat>,
                     ghost inOrder: bool)
      returns (used': Units)
      requires Valid() && i < robSize && stage.Front? && Linked(c, log[head + i], rob.Length)
      requires c.state.InIssued? && c.ready <= now && Names(c) == {} && !c.kind.Notify? && !c.kind.WaitFor?
      requires d == Decide(c, i, head, now, used, flags, limit, inOrder)
      modifies this`wake, this`inFlight, this`log, this`states, this`actions, rob
      ensures Valid() && actions == old(actions) + d.acts && !d.stop && used' == d.used && flags == d.flags
      ensures OthersKept(old(rob[..]), rob[..], Pos(head + i, rob.Length))
    {
      used' := TryStart(i, c, used, limit);
    }

    /** One entry's turn in the scan. */
    method Consider(i: nat, c: Slot, used: Units, flags: set<nat>, limit: Units, inOrder: bool, ghost d: Decision)
      returns (stop: bool, used': Units, flags': set<nat>)
      requires Valid() && i < robSize && stage.Front? && Linked(c, log[head + i], rob.Length)
      requires d == Decide(c, i, head, now, used, flags, limit, inOrder)
      modifies this`wake, this`inFlight, this`log, this`states, this`actions, rob
      ensures Valid() && actions == old(actions) + d.acts && stop == d.stop && used' == d.used && flags' == d.flags
      ensures OthersKept(old(rob[..]), rob[..], Pos(head + i, rob.Length))
    {
      hide WaitsLive, Travelling, Mirror, StepAt;
      stop, used', flags' := false, used, flags;
      if c.state.InIssued? && c.ready <= now && (c.kind.Notify? || c.kind.WaitFor?) {
        stop, flags' := TryMigration(i, c, flags, d, used, limit, inOrder);
      } else if c.state.InIssued? && c.ready <= now && Names(c) == {} {
        used' := StartTurn(i, c, used, limit, d, flags, inOrder);
      } else if inOrder {
        WakeAt(now + interval);
        stop := true;
      }
    }

    /** A scan of the entries `cs`, from the i-th oldest on, still has `rest` to do. */
    ghost predicate StillToDo(cs: seq<Slot>, i: nat, stop: bool, used: Units, flags: set<nat>, limit: Units,
                              inOrder: bool, rest: seq<Action>)
      reads this`head, this`now
    {
      i <= |cs| && rest == if stop then [] else Plan(cs, i, head, now, used, flags, limit, inOrder)
    }

    /** The turn of the i-th oldest entry, for a scan that has followed its plan so far. */
    method ConsiderNext(i: nat, used: Units, flags: set<nat>, limit: Units, inOrder: bool, ghost cs: seq<Slot>,
                        ghost rest: seq<Action>)
      returns (stop: bool, used': Units, flags': set<nat>, ghost rest': seq<Action>)
      requires Valid() && i < robSize == |cs| && stage.Front? && Window(rob[..], head, robSize)[i..] == cs[i..]
      requires StillToDo(cs, i, false, used, flags, limit, inOrder, rest)
      modifies this`wake, this`inFlight, this`log, this`states, this`actions, rob
      ensures Valid() && Window(rob[..], head, robSize)[i+1..] == cs[i+1..]
      ensures StillToDo(cs, i + 1, stop, used', flags', limit, inOrder, rest') && actions + rest' == old(actions) + rest
      ensures flags' == if i == 0 then FlagsAfter(cs, now, flags) else flags
    {
      hide WaitsLive, Travelling, StepAt, O3Core.Decide, O3Core.FlagsAfter;
      assert Window(rob[..], head, robSize)[i..][0] == cs[i..][0];
      var p, c := Look(i);
      PlanFrom(actions, cs, i, head, now, used, flags, limit, inOrder);
      ghost var d := Decide(c, i, head, now, used, flags, limit, inOrder);
      FlagsDecided(cs, i, head, now, used, flags, limit, inOrder);
      stop, used', flags' := Consider(i, c, used, flags, limit, inOrder, d);
      LaterKept(old(rob[..]), rob[..], head, robSize, i);
      assert old(Window(rob[..], head, robSize))[i..][1..] == cs[i..][1..];
      rest' := if stop then [] else Plan(cs, i + 1, head, now, used', flags', limit, inOrder);
    }

    /** Scans the buffer from the oldest entry, starting what may start. */
    method Execute(limit: Units, inOrder: bool, flags: set<nat>) returns (flags': set<nat>)
      requires Valid() && stage.Front?
      modifies this`wake, this`inFlight, this`log, this`states, this`actions, rob
      ensures Valid()
      ensures
        var cs := old(Window(rob[..], head, robSize));
        && actions == old(actions) + Plan(cs, 0, head, now, NO_UNITS, flags, limit, inOrder)
        && flags' == FlagsAfter(cs, now, flags)
    {
      ghost var cs := Window(rob[..], head, robSize);
      ghost var rest := Plan(cs, 0, head, now, NO_UNITS, flags, limit, inOrder);
      ghost var goal := actions + rest;
      flags' := Scan(limit, inOrder, flags, cs, rest, goal);
    }

    method Scan(limit: Units, inOrder: bool, flags: set<nat>, ghost cs: seq<Slot>, ghost plan: seq<Action>,
                ghost goal: seq<Action>)
      returns (flags': set<nat>)
      requires Valid() && stage.Front? && cs == Window(rob[..], head, robSize) && goal == actions + plan
      requires StillToDo(cs, 0, false, NO_UNITS, flags, limit, inOrder, plan)
      modifies this`wake, this`inFlight, this`log, this`states, this`actions, rob
      ensures Valid() && actions == goal && flags' == FlagsAfter(cs, now, flags)
    {
      hide WaitsLive, Travelling, Mirror, StepAt, O3Core.FlagsAfter, O3Core.Decide;
      var i, stop, used := 0, false, NO_UNITS;
      ghost var rest := plan;
      flags' := flags;
      while i < robSize && !stop
        invariant 0 <= i <= robSize && Valid() && Window(rob[..], head, robSize)[i..] == cs[i..]
        invariant StillToDo(cs, i, stop, used, flags', limit, inOrder, rest) && actions + rest == goal
        invariant (stop ==> i > 0) && flags' == if i == 0 then flags else FlagsAfter(cs, now, flags)
        decreases robSize - i
      {
        stop, used, flags', rest := ConsiderNext(i, used, flags', limit, inOrder, cs, rest);
        i := i + 1;
      }
      assert rest == [];
      if i == 0 { NoFlags(cs, now, flags); }
    }

    lemma NoFlags(cs: seq<Slot>, t: nat, flags: set<nat>)
      requires cs == []
      ensures FlagsAfter(cs, t, flags) == flags
    {
    }

    // -------------------------------------------------------------- wake up, commit

    /** The i-th oldest entry finishes now: younger entries stop naming its position. */
    method ReleaseOne(i: nat)
      requires Shape() && i < robSize
      modifies this`log, rob
      ensures Shape() && Released(old(log), log, head + i, |log|)
    {
      hide WaitsLive, Travelling, Mirror;
      var p, _ := Look(i);
      var j := i + 1;
      while j < robSize
        invariant i < j <= robSize && Shape() && Released(old(log), log, head + i, head + j)
      {
        ReleasedExtends(old(log), log, head + i, head + j);
        ClearDeps(j, p, head + i);
        j := j + 1;
      }
    }

    method ClearDeps(j: nat, p: nat, ghost d: nat)
      requires Shape() && j < robSize && head <= d < head + j && p == Pos(d, rob.Length)
      modifies this`log, rob
      ensures Shape() && log == old(log)[head + j := WaitsLess(old(log)[head + j], d)]
    {
      hide Travelling;
      var q, c := Look(j);
      ghost var u := WaitsLess(log[head + j], d);
      StoreTravelling(head, log, head + j, u, rob.Length);
      if c.state.InIssued? {
        ClearedSlot(c, log[head + j], d, head, rob.Length);
        NotTravelling(head, log, head + j, rob.Length);
        Store(q, ClearName(c, p), head + j, u);
      }
    }

    method FinishesNow(i: nat) returns (b: bool)
      requires Placed() && i < robSize
      ensures b == (log[head + i].phase.Completed? && log[head + i].ready == now)
    {
      var p, c := Look(i);
      return c.state.InCompleted? && c.ready == now;
    }

    method WakeFrom(i: nat, ghost log0: seq<Uop>) returns (finishes: bool)
      requires Shape() && i < robSize && |log0| == |log| && WaitsLive(head, log0)
      requires log == ReleaseUpTo(log0, head, head + i, now)
      modifies this`log, rob
      ensures Shape() && |log| == |log0| && log == ReleaseUpTo(log0, head, head + i + 1, now)
      ensures finishes == (log0[head + i].phase.Completed? && log0[head + i].ready == now)
    {
      hide WaitsLive, Travelling, Linked, ReleaseUpTo;
      ReleaseKeepsState(log0, head, head + i, now, head + i);
      finishes := FinishesNow(i);
      if finishes {
        ReleaseStep(i, log0);
      } else {
        NotFinishing(log0, head, head + i, now);
      }
    }

    method ReleaseStep(i: nat, ghost log0: seq<Uop>)
      requires Shape() && i < robSize && |log0| == |log| && WaitsLive(head, log0)
      requires log == ReleaseUpTo(log0, head, head + i, now)
      requires log0[head + i].phase.Completed? && log0[head + i].ready == now
      modifies this`log, rob
      ensures Shape() && |log| == |log0| && log == ReleaseUpTo(log0, head, head + i + 1, now)
    {
      ghost var before := log;
      ReleaseOne(i);
      ReleasedNext(log0, before, log, head, head + i, now);
    }

    /** The entries before the i-th oldest have been looked at. */
    ghost predicate WokenUpTo(i: nat, log0: seq<Uop>, any: bool)
      reads this`log, this`head, this`now
    {
      && |log| == |log0| && head + i <= |log0| && WaitsLive(head, log0)
      && log == ReleaseUpTo(log0, head, head + i, now) && any == (Finishing(log0, head, head + i, now) != {})
    }

    method WakeNext(i: nat, any: bool, ghost log0: seq<Uop>) returns (any': bool)
      requires Shape() && i < robSize && WokenUpTo(i, log0, any)
      modifies this`log, rob
      ensures Shape() && WokenUpTo(i + 1, log0, any')
    {
      FinishingGrows(log0, head, head + i, now);
      var finishes := WakeFrom(i, log0);
      any' := any || finishes;
    }

    /** Every entry that finishes now releases the younger ones that name it. */
    method WakeDependants() returns (any: bool)
      requires Shape()
      modifies this`log, rob
      ensures Shape() && log == ReleaseAll(old(log), head, now)
      ensures any == (Finishing(old(log), head, |old(log)|, now) != {})
    {
      hide WaitsLive, Travelling, Mirror, ReleaseUpTo;
      ghost var log0 := log;
      var i := 0;
      any := false;
      NothingReleased(log, head, now);
      while i < robSize
        invariant 0 <= i <= robSize && Shape() && WokenUpTo(i, log0, any)
      {
        any := WakeNext(i, any, log0);
        i := i + 1;
      }
    }

    method Pop()
      requires Shape() && robSize > 0 && log[head].phase.Completed?
      requires forall k :: head < k < |log| ==> head !in log[k].waits
      modifies this`robHead, this`robSize, this`head, rob
      ensures Shape() && head == old(head) + 1
    {
      hide Linked, WaitsLive, Travelling, Mirror;
      var p, c := Look(0);
      PopMirror(rob[..], head, log, c.(state := Invalid));
      PopTravelling(head, log, rob.Length);
      PopWaitsLive(head, log);
      var next := NextHead();
      rob[p] := c.(state := Invalid);
      assert rob[..] == old(rob[..])[p := c.(state := Invalid)];
      robHead := next;
      robSize := robSize - 1;
      head := head + 1;
    }

    method NextHead() returns (p: nat)
      requires Placed()
      ensures p == Pos(head + 1, rob.Length)
    {
      p := Position(robHead, 1, rob.Length, head);
    }

    /** In-order commit: the finished entries at the head leave, up to `width` of them. */
    method CommitSome(width: nat)
      requires Valid() && stage.Back?
      modifies this`robHead, this`robSize, this`head, this`states, this`actions, rob
      ensures Valid() && old(head) <= head <= old(head) + width
      ensures forall k :: old(head) <= k < head ==> k < |log| && Done(log[k], now)
      ensures head < old(head) + width ==> head == |log| || !Done(log[head], now)
      ensures actions == old(actions) + Commits(head - old(head))
    {
      hide WaitsLive, Travelling, Mirror, StepAt;
      var i := 0;
      while i < width && robSize > 0
        invariant Valid() && stage.Back? && old(head) <= head <= old(head) + i && i <= width
        invariant forall k :: old(head) <= k < head ==> k < |log| && Done(log[k], now)
        invariant head < old(head) + i ==> head < |log| && !Done(log[head], now)
        invariant actions == old(actions) + Commits(head - old(head))
        decreases width - i
      {
        AppendAssoc(old(actions), Commits(head - old(head)), Commit);
        var left := CommitHead();
        i := i + 1;
      }
    }

    method HeadDone() returns (b: bool)
      requires Placed() && robSize > 0
      ensures b == Done(log[head], now)
    {
      var p, c := Look(0);
      return c.state.InCompleted? && c.ready <= now;
    }

    /** The head leaves if it is finished. */
    method CommitHead() returns (left: bool)
      requires Valid() && stage.Back? && robSize > 0
      modifies this`robHead, this`robSize, this`head, this`states, this`actions, rob
      ensures Valid() && left == Done(log[old(head)], now)
      ensures head == old(head) + (if left then 1 else 0) && actions == old(actions) + if left then [Commit] else []
    {
      left := HeadDone();
      if left {
        NobodyWaits(states, actions);
        Pop();
        Record(Commit);
      }
    }

    // -------------------------------------------------------------- one call

    /** Issues from the front of the fetch queue: as many instructions as are ready, up to `width`, while there
        is room for a whole one. */
    method IssueSome(queue: seq<Fetched>, width: nat) returns (n: nat)
      requires Valid() && stage.Front?
      modifies this`robSize, this`log, this`wake, this`states, this`actions, rob
      ensures Valid() && n <= |queue| && n <= width && actions == old(actions) + Issues(queue[..n], interval)
      ensures forall k :: 0 <= k < n ==> Arrived(queue[k], now)
      ensures n == width || n == |queue| || robSize + 3 >= rob.Length || !Arrived(queue[n], now)
    {
      hide O3Core.Valid, Decode;
      n := 0;
      var i := 0;
      while i < width && n < |queue| && robSize + 3 < rob.Length
        invariant Valid() && n <= |queue| && n <= i <= width && actions == old(actions) + Issues(queue[..n], interval)
        invariant forall k :: 0 <= k < n ==> Arrived(queue[k], now)
        invariant n < i ==> n < |queue| && !Arrived(queue[n], now)
        decreases width - i
      {
        var issued := IssueNext(queue[n]);
        IssuesGrow(old(actions), queue, n, interval);
        n, i := if issued then n + 1 else n, i + 1;
      }
    }

    method IssueNext(f: Fetched) returns (issued: bool)
      requires Valid() && stage.Front? && robSize + 3 < rob.Length
      modifies this`robSize, this`log, this`wake, this`states, this`actions, rob
      ensures Valid() && issued == Arrived(f, now)
      ensures actions == old(actions) + if issued then [Issue(Decode(f), interval)] else []
    {
      issued := f.inCache && f.ready <= now;
      if issued { IssueOne(f); }
    }

    method Enter(t: nat)
      requires Valid() && stage.Idle? && t in wake && now <= t && forall w :: w in wake ==> t <= w
      modifies this`now, this`wake, this`stage, this`states, this`actions
      ensures Valid() && stage.Front? && now == t && actions == old(actions) + [Call(t)]
    {
      now, wake, stage := t, wake - {t}, Front;
      Record(Call(t));
    }

    /** Whoever waited for an entry that finishes now is released, and may start one interval later. */
    method WakeAll() returns (any: bool)
      requires Valid() && stage.Front?
      modifies this`stage, this`log, this`wake, this`states, this`actions, rob
      ensures Valid() && stage.Back?
      ensures any == (Finishing(old(log), head, |old(log)|, now) != {})
      ensures actions == old(actions) + [WakeUp] + if any then [Schedule(now + interval)] else []
    {
      any := Release();
      if any { WakeAt(now + interval); }
    }

    method Release() returns (any: bool)
      requires Valid() && stage.Front?
      modifies this`stage, this`log, this`states, this`actions, rob
      ensures Valid() && stage.Back? && actions == old(actions) + [WakeUp]
      ensures any == (Finishing(old(log), head, |old(log)|, now) != {})
    {
      any := WakeDependants();
      stage := Back;
      Record(WakeUp);
    }

    method Leave()
      requires Valid() && stage.Back?
      modifies this`stage, this`states, this`actions
      ensures Valid() && stage.Idle? && actions == old(actions) + [Return]
    {
      stage := Idle;
      Record(Return);
    }

    /** A finished entry left at the head brings the core back one interval later. */
    method ComeBack() returns (more: bool)
      requires Valid() && stage.Back?
      modifies this`wake, this`states, this`actions
      ensures Valid() && more == (head < |log| && Done(log[head], now))
      ensures actions == old(actions) + if more then [Schedule(now + interval)] else []
    {
      more := false;
      if robSize > 0 { more := HeadDone(); }
      if more { WakeAt(now + interval); }
    }

    /** The second half of a call: wake up, commit, and say whether to come back. */
    method Finish(commitWidth: nat) returns (any: bool, more: bool)
      requires Valid() && stage.Front?
      modifies this`stage, this`log, this`wake, this`robHead, this`robSize, this`head, this`states, this`actions, rob
      ensures Valid() && stage.Idle? && old(head) <= head <= old(head) + commitWidth
      ensures actions == old(actions) + Ending(now, any, head - old(head), more)
      ensures any == (Finishing(old(log), old(head), |old(log)|, now) != {})
      ensures more == (head < |log| && Done(log[head], now))
    {
      hide O3Core.Valid, O3Core.Ending, Finishing;
      ghost var a0 := actions;
      any := WakeAll();
      ghost var a1 := actions;
      CommitSome(commitWidth);
      ghost var a2 := actions;
      more := ComeBack();
      Leave();
      EndingIs(now, a0, a1, a2, actions, any, head - old(head), more);
    }

    function Ending(t: nat, any: bool, commits: nat, more: bool): seq<Action> {
      [WakeUp] + (if any then [Schedule(t + interval)] else []) + Commits(commits)
      + (if more then [Schedule(t + interval)] else []) + [Return]
    }

    lemma EndingIs(t: nat, a0: seq<Action>, a1: seq<Action>, a2: seq<Action>, a3: seq<Action>, any: bool,
                   commits: nat, more: bool)
      requires a1 == a0 + [WakeUp] + if any then [Schedule(t + interval)] else []
      requires a2 == a1 + Commits(commits)
      requires a3 == a2 + (if more then [Schedule(t + interval)] else []) + [Return]
      ensures a3 == a0 + Ending(t, any, commits, more)
    {
      var x: seq<Action>, y: seq<Action> :=
        if any then [Schedule(t + interval)] else [], if more then [Schedule(t + interval)] else [];
      var c := Commits(commits);
      assert a3 == a0 + [WakeUp] + x + c + y + [Return];
      assert a0 + [WakeUp] + x + c + y + [Return] == a0 + ([WakeUp] + x + c + y + [Return]);
    }

    /** The first half of a call: issue, then execute.  `cs` is the buffer as the scan finds it. */
    method Begin(t: nat, queue: seq<Fetched>, issueWidth: nat, limit: Units, inOrder: bool, flags: set<nat>)
      returns (n: nat, flags': set<nat>, ghost issued: seq<Action>, ghost cs: seq<Slot>)
      requires Valid() && stage.Idle? && t in wake && now <= t && forall w :: w in wake ==> t <= w
      modifies this`now, this`stage, this`robSize, this`log, this`wake, this`inFlight, this`states, this`actions, rob
      ensures Valid() && stage.Front? && now == t && n <= |queue| && n <= issueWidth
      ensures issued == old(actions) + [Call(t)] + Issues(queue[..n], interval)
      ensures actions == issued + Plan(cs, 0, head, t, NO_UNITS, flags, limit, inOrder)
      ensures flags' == FlagsAfter(cs, t, flags)
      ensures |issued| < |states| && Scanned(cs, states[|issued|], rob.Length)
      ensures states[|issued|].head == head && states[|issued|].now == t
    {
      hide WaitsLive, Travelling, Linked, StepAt, O3Core.Plan, Issues, Window, Youngest;
      Enter(t);
      n := IssueSome(queue, issueWidth);
      issued, cs := actions, Window(rob[..], head, robSize);
      ghost var before := states;
      ScannedNow(rob[..], head, log, robSize, states[|issued|]);
      flags' := Execute(limit, inOrder, flags);
      SameStates(before, issued, states, actions, |issued|);
    }

    /** What a call without effect leaves behind has nothing to do with entries that may start or leave. */
    lemma NothingLeft(cs: seq<Slot>, flags: set<nat>, limit: Units, inOrder: bool, s1: Rob, s2: Rob, cap: nat)
      requires Ample(limit) && Scanned(cs, s1, cap)
      requires Plan(cs, 0, s1.head, s1.now, NO_UNITS, flags, limit, inOrder) == []
      requires Inv(s2) && s2.log == s1.log && s2.now == s1.now && s1.head <= s2.head < |s2.log|
      requires !Done(s2.log[s2.head], s2.now)
      ensures !Asleep(s2)
    {
      var k := s2.head;
      var u, i := s2.log[k], k - s1.head;
      HeadNeverWaits(s2);
      assert Linked(cs[i], u, cap);
      NothingNamed(cs[i], u, cap);
      if u.phase.Issued? && u.ready <= s2.now {
        NothingWaits(cs, s1.head, s1.now, flags, limit, inOrder, i);
      }
    }

    /** The actions of a call, from the first that is issued on. */
    function Doings(fs: seq<Fetched>, cs: seq<Slot>, h: nat, t: nat, flags: set<nat>, limit: Units, inOrder: bool,
                    any: bool, commits: nat, more: bool): seq<Action> {
      Issues(fs, interval) + Plan(cs, 0, h, t, NO_UNITS, flags, limit, inOrder) + Ending(t, any, commits, more)
    }

    /** None of them calls the core or is a reply; and one of them wakes it, unless it issues and plans nothing, nothing
        finishes, and no finished entry is left at the head. */
    lemma DoingsWake(fs: seq<Fetched>, cs: seq<Slot>, h: nat, t: nat, flags: set<nat>, limit: Units, inOrder: bool,
                     any: bool, commits: nat, more: bool)
      ensures
        var acts := Doings(fs, cs, h, t, flags, limit, inOrder, any, commits, more);
        var nothing := fs == [] && Plan(cs, 0, h, t, NO_UNITS, flags, limit, inOrder) == [] && !any && !more;
        && Internal(acts) && (if nothing then acts == [WakeUp] + Commits(commits) + [Return] else Rousing(acts))
    {
      hide O3Core.Plan, Internal, Rousing, O3Core.Ending, Issues, Commits;
      var plan := Plan(cs, 0, h, t, NO_UNITS, flags, limit, inOrder);
      PlanActs(cs, h, t, flags, limit, inOrder);
      IssuesActs(fs, interval);
      EndingActs(t, any, commits, more);
      var c := Ending(t, any, commits, more);
      InternalBoth(Issues(fs, interval), plan);
      InternalBoth(Issues(fs, interval) + plan, c);
      if fs == [] && plan == [] { assert [] + [] + c == c; }
    }

    lemma EndingActs(t: nat, any: bool, commits: nat, more: bool)
      ensures
        var c := Ending(t, any, commits, more);
        Internal(c) && if any || more then Rousing(c) else c == [WakeUp] + Commits(commits) + [Return]
    {
      hide Commits;
      CommitsAre(commits);
      var x: seq<Action>, y: seq<Action> :=
        if any then [Schedule(t + interval)] else [], if more then [Schedule(t + interval)] else [];
      assert any ==> Rouses(x[0]);
      assert more ==> Rouses(y[0]);
      InternalBoth([WakeUp], x);
      InternalBoth([WakeUp] + x, Commits(commits));
      InternalBoth([WakeUp] + x + Commits(commits), y);
      InternalBoth([WakeUp] + x + Commits(commits) + y, [Return]);
    }

    /** When a call is over and entries are left, the core is scheduled again or waits for a reply. */
    lemma NeverAsleep(states: seq<Rob>, actions: seq<Action>, p: nat, fs: seq<Fetched>, cs: seq<Slot>, t: nat,
                      flags: set<nat>, limit: Units, inOrder: bool, any: bool, commits: nat, more: bool, cap: nat)
      requires Run(states, actions) && Ample(limit) && p + |fs| < |states| && p <= |actions|
      requires
        var s1 := states[p + |fs|];
        && Scanned(cs, s1, cap) && s1.now == t
        && actions[p..] == Doings(fs, cs, s1.head, t, flags, limit, inOrder, any, commits, more)
      requires
        var plan := Plan(cs, 0, states[p + |fs|].head, t, NO_UNITS, flags, limit, inOrder);
        && p + |fs| + |plan| < |states|
        && var s2 := states[p + |fs| + |plan|];
        any == (Finishing(s2.log, s2.head, |s2.log|, s2.now) != {})
      requires var s := states[|actions|]; more == (s.head < |s.log| && Done(s.log[s.head], s.now))
      ensures states[|actions|].head < |states[|actions|].log| ==> !Asleep(states[|actions|])
    {
      hide O3Core.Plan, O3Core.Doings, Scanned, Finishing;
      var s1, q := states[p + |fs|], |actions|;
      var plan := Plan(cs, 0, s1.head, t, NO_UNITS, flags, limit, inOrder);
      DoingsWake(fs, cs, s1.head, t, flags, limit, inOrder, any, commits, more);
      var acts := Doings(fs, cs, s1.head, t, flags, limit, inOrder, any, commits, more);
      if !(fs == [] && plan == [] && !any && !more) {
        var n :| 0 <= n < |acts| && Rouses(acts[n]);
        assert actions[p + n] == acts[n] && StepAt(states, actions, p + n);
        ActionWakes(states[p + n], actions[p + n]);
        forall x | p + n + 1 <= x < q ensures !actions[x].Call? && !actions[x].Reply? {
          assert actions[x] == acts[x - p];
        }
        StaysAwakeUntil(states, actions, p + n + 1, q);
      } else if states[q].head < |states[q].log| {
        assert actions[p] == acts[0] == WakeUp && StepAt(states, actions, p);
        ReleasesNothing(s1.log, s1.head, s1.now);
        CommitsAre(commits);
        forall x | p + 1 <= x < q - 1 ensures actions[x].Commit? {
          assert actions[x] == acts[x - p] == Commits(commits)[x - p - 1];
        }
        CommitsOnly(states, actions, p + 1, q - 1);
        assert actions[q - 1] == acts[|acts| - 1] == Return && StepAt(states, actions, q - 1);
        RunInvariant(states, actions, q);
        NothingLeft(cs, flags, limit, inOrder, s1, states[q], cap);
      }
    }

    /** A whole call: issue, execute, wake up, commit, in that order.  The scan follows the plan for the entries `cs`
        that are live after the last instruction has been issued. */
    method Turn(t: nat, queue: seq<Fetched>, issueWidth: nat, commitWidth: nat, limit: Units, inOrder: bool,
                flags: set<nat>)
      returns (n: nat, flags': set<nat>, any: bool, more: bool, ghost issued: seq<Action>, ghost cs: seq<Slot>)
      requires Valid() && stage.Idle? && t in wake && now <= t && forall w :: w in wake ==> t <= w
      modifies this, rob
      ensures Valid() && stage.Idle? && now == t && n <= |queue| && n <= issueWidth
      ensures old(head) <= head <= old(head) + commitWidth
      ensures issued == old(actions) + [Call(t)] + Issues(queue[..n], interval)
      ensures actions == issued + Plan(cs, 0, old(head), t, NO_UNITS, flags, limit, inOrder)
                         + Ending(t, any, head - old(head), more)
      ensures flags' == FlagsAfter(cs, t, flags)
      ensures |issued| < |states| && Scanned(cs, states[|issued|], rob.Length)
      ensures Ample(limit) ==> Awake()
      ensures Ample(limit) && HeadMayStart(cs, t, flags) ==>
        |issued| < |actions| && StartsHead(cs, old(head), actions[|issued|])
    {
      hide O3Core.Shape, StepAt, O3Core.Plan, Issues, Scanned, O3Core.Ending, Finishing;
      hide O3Core.Awake, O3Core.HeadMayStart;
      hide O3Core.StartsHead;
      n, flags', issued, cs := Begin(t, queue, issueWidth, limit, inOrder, flags);
      ghost var before, done := states, actions;
      any, more := Finish(commitWidth);
      SameStates(before, done, states, actions, |issued|);
      SameStates(before, done, states, actions, |done|);
      if Ample(limit) {
        IssuesActs(queue[..n], interval);
        assert issued[|old(actions)| + 1..] == Issues(queue[..n], interval);
        LeftAwake(|old(actions)| + 1, issued, queue[..n], cs, t, flags, limit, inOrder, any, head - old(head), more);
        if HeadMayStart(cs, t, flags) {
          HeadStarted(issued, cs, t, flags, limit, inOrder, any, head - old(head), more);
        }
      }
    }

    /** If entries are left, the core is scheduled for a call or waits for a reply, which will schedule one. */
    ghost predicate Awake()
      reads this`head, this`log, this`wake, this`inFlight
    {
      head < |log| ==> wake != {} || inFlight != {}
    }

    lemma AwakeIs()
      requires Valid() && (head < |log| ==> !Asleep(Model()))
      ensures Awake()
    {
      if head < |log| && wake == {} {
        var k :| head <= k < |log| && log[k].phase.Executing?;
        assert Pos(k, rob.Length) in Travelling(head, log, rob.Length);
      }
    }

    lemma LeftAwake(p: nat, issued: seq<Action>, fs: seq<Fetched>, cs: seq<Slot>, t: nat, flags: set<nat>, limit: Units,
                    inOrder: bool, any: bool, commits: nat, more: bool)
      requires Valid() && Ample(limit) && p + |fs| == |issued| < |states| && Scanned(cs, states[|issued|], rob.Length)
      requires states[|issued|].now == t
      requires p <= |issued| && issued[p..] == Issues(fs, interval)
      requires
        var h := states[|issued|].head;
        var plan := Plan(cs, 0, h, t, NO_UNITS, flags, limit, inOrder);
        && actions == issued + plan + Ending(t, any, commits, more)
        && |issued| + |plan| < |states|
        && var s2 := states[|issued| + |plan|];
        any == (Finishing(s2.log, s2.head, |s2.log|, s2.now) != {})
      requires more == (head < |log| && Done(log[head], now))
      ensures Awake()
    {
      hide O3Core.Plan, Issues, Scanned, O3Core.Ending, Finishing, O3Core.Shape;
      var h := states[|issued|].head;
      var plan := Plan(cs, 0, h, t, NO_UNITS, flags, limit, inOrder);
      assert actions[p..] == Issues(fs, interval) + plan + Ending(t, any, commits, more);
      NeverAsleep(states, actions, p, fs, cs, t, flags, limit, inOrder, any, commits, more, rob.Length);
      AwakeIs();
    }

    /** The oldest entry is issued and ready, and if it is a waitfor, its flag is set. */
    predicate HeadMayStart(cs: seq<Slot>, t: nat, flags: set<nat>) {
      cs != [] && cs[0].state.InIssued? && cs[0].ready <= t && (cs[0].kind.WaitFor? ==> cs[0].kind.flag in flags)
    }

    predicate StartsHead(cs: seq<Slot>, h: nat, a: Action) {
      && cs != []
      && if cs[0].kind.Notify? || cs[0].kind.WaitFor? then StartsMigration(cs[0], h, a) else Starts(cs[0], h, a)
    }

    lemma HeadStarted(issued: seq<Action>, cs: seq<Slot>, t: nat, flags: set<nat>, limit: Units, inOrder: bool,
                      any: bool, commits: nat, more: bool)
      requires Valid() && Ample(limit) && |issued| < |states| && Scanned(cs, states[|issued|], rob.Length)
      requires HeadMayStart(cs, t, flags)
      requires
        var h := states[|issued|].head;
        actions == issued + Plan(cs, 0, h, t, NO_UNITS, flags, limit, inOrder) + Ending(t, any, commits, more)
      ensures |issued| < |actions| && StartsHead(cs, states[|issued|].head, actions[|issued|])
    {
      hide O3Core.Plan, O3Core.Ending;
      var s := states[|issued|];
      RunInvariant(states, actions, |issued|);
      HeadNeverWaits(s);
      NothingNamed(cs[0], s.log[s.head], rob.Length);
      HeadGoesFirst(cs, s.head, t, flags, limit, inOrder);
    }

    /** One call of the event kernel, at the earliest time this core is scheduled for.  With too few fetched
        instructions the core asks for more and is called again at the same time. */
    method ProcessEvent(t: nat, active: bool, queue: seq<Fetched>, queueMax: nat, issueWidth: nat, commitWidth: nat,
                        limit: Units, inOrder: bool, flags: set<nat>)
      returns (waits: bool, n: nat, flags': set<nat>)
      requires Valid() && stage.Idle? && t in wake && now <= t && forall w :: w in wake ==> t <= w
      modifies this, rob
      ensures Valid() && stage.Idle? && waits == (|queue| <= queueMax / 2 && active)
      ensures waits ==> actions == old(actions) && t in wake && n == 0
      ensures waits || Ample(limit) ==> Awake()
      ensures !waits ==> now == t && n <= |queue| && old(actions) + [Call(t)] + Issues(queue[..n], interval) <= actions
    {
      waits := |queue| <= queueMax / 2 && active;
      if waits { return true, 0, flags; }
      var any, more;
      ghost var issued, cs;
      n, flags', any, more, issued, cs := Turn(t, queue, issueWidth, commitWidth, limit, inOrder, flags);
      assert issued <= actions;
    }
  }

  lemma AppendAssoc(a: seq<Action>, b: seq<Action>, x: Action)
    ensures (a + b) + [x] == a + (b + [x])
  {
  }

  lemma FinishingGrows(log: seq<Uop>, head: nat, d: nat, now: nat)
    requires head <= d < |log|
    ensures Finishing(log, head, d + 1, now) ==
      Finishing(log, head, d, now) + if log[d].phase.Completed? && log[d].ready == now then {d} else {}
  {
  }

  /** Some kind of unit that the entry needs is used up. */
  predicate NoUnitLeft(c: Slot, used: Units, limit: Units) {
    if c.addr == 0 then used.alu >= limit.alu || (c.kind.X87? && used.sse >= limit.sse)
    else used.ldst >= limit.ldst || if c.isRead then used.ld >= limit.ld else used.st >= limit.st
  }

  /** All actions start entries older than k. */
  ghost predicate OnlyOlder(acts: seq<Action>, k: nat) {
    forall n :: 0 <= n < |acts| ==> (acts[n].Compute? || acts[n].Access?) && acts[n].k < k
  }

  predicate Ample(limit: Units) {
    limit.alu >= 1 && limit.ldst >= 1 && limit.ld >= 1 && limit.st >= 1 && limit.sse >= 1
  }

  predicate Within(used: Units, limit: Units) {
    && used.alu <= limit.alu && used.ldst <= limit.ldst && used.ld <= limit.ld
    && used.st <= limit.st && used.sse <= limit.sse
  }

  function Plus(a: Units, b: Units): Units {
    Units(a.alu + b.alu, a.ldst + b.ldst, a.ld + b.ld, a.st + b.st, a.sse + b.sse)
  }

  /** The units an action of a scan of `cs` uses, where cs[0] is entry h: an access uses a load/store unit and a load or
      a store port, and whatever else starts, except notify and waitfor, an ALU. */
  function Use(a: Action, cs: seq<Slot>, h: nat): Units {
    if !(a.Access? || a.Compute?) || !(h <= a.k < h + |cs|) then NO_UNITS
    else
      var c := cs[a.k - h];
      if a.Access? then (if c.isRead then Units(0, 1, 1, 0, 0) else Units(0, 1, 0, 1, 0))
      else if c.kind.Notify? || c.kind.WaitFor? then NO_UNITS
      else Units(1, 0, 0, 0, if c.kind.X87? then 1 else 0)
  }

  function Usage(acts: seq<Action>, cs: seq<Slot>, h: nat): Units {
    if acts == [] then NO_UNITS else Plus(Use(acts[0], cs, h), Usage(acts[1..], cs, h))
  }

  lemma UsageOfFew(acts: seq<Action>, cs: seq<Slot>, h: nat)
    requires |acts| <= 1
    ensures Usage(acts, cs, h) == if acts == [] then NO_UNITS else Use(acts[0], cs, h)
  {
    hide Use;
    if acts != [] { assert acts[1..] == []; }
  }

  lemma PlusLaws(a: Units, b: Units, c: Units)
    ensures Plus(Plus(a, b), c) == Plus(a, Plus(b, c)) && Plus(NO_UNITS, a) == a
  {
  }

  lemma {:induction false} UsageInAll(a: seq<Action>, b: seq<Action>, cs: seq<Slot>, h: nat)
    ensures Usage(a + b, cs, h) == Plus(Usage(a, cs, h), Usage(b, cs, h))
  {
    hide Use, Plus;
    if a == [] {
      assert a + b == b;
      PlusLaws(Usage(b, cs, h), NO_UNITS, NO_UNITS);
    } else {
      assert (a + b)[1..] == a[1..] + b;
      UsageInAll(a[1..], b, cs, h);
      PlusLaws(Use(a[0], cs, h), Usage(a[1..], cs, h), Usage(b, cs, h));
    }
  }

  predicate Arrived(f: Fetched, now: nat) { f.inCache && f.ready <= now }

  /** The instructions as the reorder buffer receives them. */
  function Issues(fs: seq<Fetched>, interval: nat): seq<Action> {
    if fs == [] then [] else Issues(fs[..|fs|-1], interval) + [Issue(Decode(fs[|fs|-1]), interval)]
  }

  lemma IssuesGrow(before: seq<Action>, queue: seq<Fetched>, n: nat, interval: nat)
    requires n < |queue|
    ensures before + Issues(queue[..n+1], interval)
         == (before + Issues(queue[..n], interval)) + [Issue(Decode(queue[n]), interval)]
  {
    assert queue[..n+1][..n] == queue[..n];
  }

  /** `cs` are the slots of the live entries of s, oldest first. */
  ghost predicate Scanned(cs: seq<Slot>, s: Rob, cap: nat) {
    0 < cap && s.head + |cs| == |s.log| && forall i :: 0 <= i < |cs| ==> Linked(cs[i], s.log[s.head + i], cap)
  }

  lemma ScannedNow(slots: seq<Slot>, head: nat, log: seq<Uop>, n: nat, s: Rob)
    requires Mirror(slots, head, log) && n == |log| - head && s.log == log && s.head == head
    ensures Scanned(Window(slots, head, n), s, |slots|)
  {
  }

  /** The action schedules a call of the core, or makes somebody reply to it. */
  predicate Rouses(a: Action) { a.Issue? || a.Compute? || a.Access? || a.Schedule? }

  lemma {:induction false} IssuesActs(fs: seq<Fetched>, interval: nat)
    ensures |Issues(fs, interval)| == |fs| && forall n :: 0 <= n < |fs| ==> Issues(fs, interval)[n].Issue?
    ensures Internal(Issues(fs, interval)) && (fs != [] ==> Rousing(Issues(fs, interval)))
  {
    if fs != [] {
      IssuesActs(fs[..|fs|-1], interval);
      assert Rouses(Issues(fs, interval)[|fs|-1]);
    }
  }

  ghost predicate Rousing(acts: seq<Action>) {
    exists n :: 0 <= n < |acts| && Rouses(acts[n])
  }

  /** Neither calls of the core nor replies to it. */
  ghost predicate Internal(acts: seq<Action>) {
    forall n :: 0 <= n < |acts| ==> !acts[n].Call? && !acts[n].Reply?
  }

  lemma InternalBoth(a: seq<Action>, b: seq<Action>)
    requires Internal(a) && Internal(b)
    ensures Internal(a + b) && (Rousing(a) || Rousing(b) ==> Rousing(a + b))
  {
    if Rousing(a) {
      var n :| 0 <= n < |a| && Rouses(a[n]);
      assert (a + b)[n] == a[n];
    } else if Rousing(b) {
      var n :| 0 <= n < |b| && Rouses(b[n]);
      assert (a + b)[|a| + n] == b[n];
    }
  }

  lemma {:induction false} CommitsAre(n: nat)
    ensures |Commits(n)| == n && forall x :: 0 <= x < n ==> Commits(n)[x].Commit?
  {
    if n > 0 { CommitsAre(n - 1); }
  }

  function Commits(n: nat): seq<Action> {
    if n == 0 then [] else Commits(n - 1) + [Commit]
  }

  const NO_UNITS := Units(0, 0, 0, 0, 0)

  predicate UnitFree(c: Slot, used: Units, limit: Units) {
    if c.addr == 0 then used.alu < limit.alu && (!c.kind.X87? || used.sse < limit.sse)
    else used.ldst < limit.ldst && if c.isRead then used.ld < limit.ld else used.st < limit.st
  }

  function Taking(c: Slot, used: Units): Units {
    if c.addr == 0 then used.(alu := used.alu + 1, sse := used.sse + if c.kind.X87? then 1 else 0)
    else if c.isRead then used.(ldst := used.ldst + 1, ld := used.ld + 1)
    else used.(ldst := used.ldst + 1, st := used.st + 1)
  }

  /** The live entries, oldest first. */
  ghost function Window(slots: seq<Slot>, head: nat, n: nat): (w: seq<Slot>)
    requires |slots| > 0
    ensures |w| == n && forall i :: 0 <= i < n ==> w[i] == slots[Pos(head + i, |slots|)]
  {
    seq(n, i requires 0 <= i < n => slots[Pos(head + i, |slots|)])
  }

  /** Entries behind the i-th oldest do not notice what happens to its slot. */
  lemma LaterKept(before: seq<Slot>, after: seq<Slot>, head: nat, n: nat, i: nat)
    requires 0 < |before| && i < n <= |before| && OthersKept(before, after, Pos(head + i, |before|))
    ensures Window(after, head, n)[i+1..] == Window(before, head, n)[i..][1..]
  {
    var w, w' := Window(before, head, n), Window(after, head, n);
    forall j | i < j < n ensures w'[j] == w[j] { PosInjective(head + i, head + j, |before|); }
  }

  /** Only the slot at position p may differ. */
  ghost predicate OthersKept(before: seq<Slot>, after: seq<Slot>, p: nat) {
    |before| == |after| && forall q :: 0 <= q < |before| && q != p ==> after[q] == before[q]
  }

  /** When the head may commit, no entry names it. */
  lemma NobodyWaits(states: seq<Rob>, actions: seq<Action>)
    requires Run(states, actions)
    requires var s := states[|actions|]; s.stage.Back? && s.head < |s.log| && Done(s.log[s.head], s.now)
    ensures
      var s := states[|actions|];
      forall k :: s.head < k < |s.log| ==> s.head !in s.log[k].waits
  {
    RunInvariant(states, actions, |actions|);
    var s := states[|actions|];
    forall k | s.head < k < |s.log| ensures s.head !in s.log[k].waits {
      assert Notified(s, k);
    }
  }

  lemma Sender(head: nat, log: seq<Uop>, cap: nat, p: nat) returns (k: nat)
    requires cap > 0 && p in Travelling(head, log, cap)
    ensures head <= k < |log| && log[k].phase.Executing? && p == Pos(k, cap)
  {
    k :| head <= k < |log| && log[k].phase.Executing? && p == Pos(k, cap);
  }

  lemma YoungestOfPrefix(log: seq<Uop>, log': seq<Uop>, head: nat, k: nat, now: nat, q: Query)
    requires head <= k <= |log| <= |log'| && log == log'[..|log|]
    ensures Youngest(log', head, k, now, q) == Youngest(log, head, k, now, q)
    decreases k - head
  {
    if k > head {
      assert log'[k-1] == log[k-1];
      YoungestOfPrefix(log, log', head, k - 1, now, q);
    }
  }

  lemma SourcesOfPrefix(log: seq<Uop>, log': seq<Uop>, head: nat, k: nat, now: nat, src: set<nat>)
    requires head <= k <= |log| <= |log'| && log == log'[..|log|]
    ensures Sources(log', head, k, now, src) == Sources(log, head, k, now, src)
  {
    forall reg | reg in src
      ensures Youngest(log', head, k, now, Writes(reg)) == Youngest(log, head, k, now, Writes(reg))
    {
      YoungestOfPrefix(log, log', head, k, now, Writes(reg));
    }
  }

  lemma AfterPush(log: seq<Uop>, head: nat, start: nat, now: nat, interval: nat, i: Instr, j: nat)
    requires head <= start && start + j == |log| && j < |i.accesses|
    ensures
      var log' := log + [NewUop(log, head, start, now, interval, i, j)];
      && IssueFrom(log', head, start, now, interval, i, j + 1) == IssueFrom(log, head, start, now, interval, i, j)
      && Youngest(log', head, start, now, Miss) == Youngest(log, head, start, now, Miss)
      && Sources(log', head, start, now, i.src) == Sources(log, head, start, now, i.src)
  {
    var log' := log + [NewUop(log, head, start, now, interval, i, j)];
    YoungestOfPrefix(log, log', head, start, now, Miss);
    SourcesOfPrefix(log, log', head, start, now, i.src);
  }

  lemma NotTravelling(head: nat, log: seq<Uop>, k: nat, cap: nat)
    requires 0 < cap && head <= k < |log| <= head + cap && !log[k].phase.Executing?
    ensures Pos(k, cap) !in Travelling(head, log, cap)
  {
    forall x | head <= x < |log| && log[x].phase.Executing? ensures Pos(x, cap) != Pos(k, cap) {
      if Pos(x, cap) == Pos(k, cap) { NameIsUnique(x, k, head, cap); }
    }
  }

  function Regs(src: seq<nat>): set<nat> { set r | r in src }

  function Named(deps: seq<int>): set<int> { (set x | x in deps) - {-1} }

  lemma YoungestStep(log: seq<Uop>, head: nat, k: nat, now: nat, q: Query)
    requires head < k <= |log|
    ensures Youngest(log, head, k, now, q) ==
            if Matches(log[k-1], q) && !Done(log[k-1], now) then {k - 1} else Youngest(log, head, k - 1, now, q)
  {
  }

  lemma SlotDecides(slots: seq<Slot>, head: nat, log: seq<Uop>, k: nat, q: Query, now: nat)
    requires Mirror(slots, head, log) && head <= k < |log|
    ensures
      var c := slots[Pos(k, |slots|)];
      SlotMatches(c, q) == Matches(log[k], q) && (c.state.InCompleted? && c.ready <= now) == Done(log[k], now)
  {
    assert Linked(slots[Pos(k, |slots|)], log[k], |slots|);
  }

  lemma PositionOfOne(k: nat, cap: nat)
    requires cap > 0
    ensures Positions({k}, cap) == {Pos(k, cap) as int} == Only(Pos(k, cap))
  {
  }

  ghost predicate Finds(dep: int, found: set<nat>, cap: nat)
    requires cap > 0
  {
    if dep == -1 then found == {} else exists d :: found == {d} && dep == Pos(d, cap)
  }

  lemma FoundPosition(dep: int, found: set<nat>, cap: nat)
    requires cap > 0 && Finds(dep, found, cap)
    ensures Only(dep) == Positions(found, cap)
  {
    if dep != -1 {
      var d :| found == {d} && dep == Pos(d, cap);
      PositionOfOne(d, cap);
    }
  }

  lemma NoSources(log: seq<Uop>, head: nat, k: nat, now: nat, cap: nat)
    requires head <= k <= |log| && cap > 0
    ensures Positions(Sources(log, head, k, now, Regs([])), cap) == {}
  {
  }

  function Only(x: int): set<int> { {x} - {-1} }

  lemma AppendedName(deps: seq<int>, dep: int)
    ensures Named(deps + [dep]) == Named(deps) + Only(dep)
  {
  }

  lemma MoreSources(log: seq<Uop>, head: nat, k: nat, now: nat, src: seq<nat>, i: nat, cap: nat)
    requires head <= k <= |log| && i < |src| && cap > 0
    ensures Positions(Sources(log, head, k, now, Regs(src[..i+1])), cap)
         == Positions(Sources(log, head, k, now, Regs(src[..i])), cap)
            + if src[i] == 0 then {} else Positions(Youngest(log, head, k, now, Writes(src[i])), cap)
  {
    assert src[..i+1] == src[..i] + [src[i]];
    var more := if src[i] == 0 then {} else Youngest(log, head, k, now, Writes(src[i]));
    assert Sources(log, head, k, now, Regs(src[..i+1]))
        == Sources(log, head, k, now, Regs(src[..i])) + more;
    PositionsUnion(Sources(log, head, k, now, Regs(src[..i])), more, cap);
  }

  lemma ExtendSources(log: seq<Uop>, head: nat, k: nat, now: nat, src: seq<nat>, i: nat, cap: nat, deps: seq<int>,
                      dep: int)
    requires head <= k <= |log| && i < |src| && cap > 0
    requires Named(deps) == Positions(Sources(log, head, k, now, Regs(src[..i])), cap)
    requires if src[i] == 0 then dep == -1 else Finds(dep, Youngest(log, head, k, now, Writes(src[i])), cap)
    ensures Named(deps + [dep]) == Positions(Sources(log, head, k, now, Regs(src[..i+1])), cap)
  {
    if src[i] != 0 { FoundPosition(dep, Youngest(log, head, k, now, Writes(src[i])), cap); }
    AppendedName(deps, dep);
    MoreSources(log, head, k, now, src, i, cap);
  }

  lemma NewSlotLinked(log: seq<Uop>, head: nat, start: nat, now: nat, interval: nat, i: Instr, j: nat, c: Slot,
                      cap: nat)
    requires head <= start && start + j == |log| && j < |i.accesses| && cap > 0
    requires c.state.InIssued? && c.ready == now + interval && c.addr == i.accesses[j] && c.miss == i.miss
    requires c.dst == i.dst && c.kind == i.kind && c.isRead == (j < i.loads)
    requires c.instrDep == if j == 0 then -1 else Pos(|log| - 1, cap)
    requires Only(c.branchDep) == Positions(Youngest(log, head, start, now, Miss), cap)
    requires Only(c.memDep) == Positions(MemorySource(log, head, now, i.accesses[j]), cap)
    requires Named(c.regDeps) == Positions(Sources(log, head, start, now, i.src), cap)
    ensures Linked(c, NewUop(log, head, start, now, interval, i, j), cap)
  {
    if j > 0 { PositionOfOne(|log| - 1, cap); }
    var a, b := Previous(|log|, j), Youngest(log, head, start, now, Miss);
    var r, m := Sources(log, head, start, now, i.src), MemorySource(log, head, now, i.accesses[j]);
    PositionsUnion(a, b, cap);
    PositionsUnion(a + b, r, cap);
    PositionsUnion(a + b + r, m, cap);
    assert Names(c) == Only(c.instrDep) + Only(c.branchDep) + Named(c.regDeps) + Only(c.memDep);
  }

  predicate SlotMatches(c: Slot, q: Query) {
    match q
    case Miss => c.miss
    case Writes(r) => r in c.dst
    case Touches(w) => c.addr / WORD == w
  }
}
