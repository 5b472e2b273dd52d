/** The out-of-order core's reorder buffer, without the circular array.

    The buffer is described by everything ever put into it, in program order: entry k of `log` is the
    k-th micro-operation issued, and names are positions in the log.  Entries before `head` have been
    committed.  A micro-operation waits for the entries in `waits`, which stand for the memory,
    instruction, branch and register dependencies recorded at issue. */
module ReorderBuffer {

  datatype Phase = Issued | Executing | Completed

  datatype Kind = Plain | Lock | Unlock | Barrier | X87 | Notify(flag: nat) | WaitFor(flag: nat)

  /** `addr` is 0 for an operation without a memory access; `src` and `dst` are register numbers, 0
      meaning none. */
  datatype Uop = Uop(phase: Phase, ready: nat, addr: nat, isRead: bool, miss: bool, kind: Kind,
                     src: set<nat>, dst: set<nat>, waits: set<nat>)

  datatype Query = Miss | Writes(reg: nat) | Touches(word: nat)

  const WORD := 8  // bytes per word: word_log is 3

  predicate Matches(u: Uop, q: Query) {
    match q
    case Miss => u.miss
    case Writes(r) => r in u.dst
    case Touches(w) => u.addr / WORD == w
  }

  predicate Done(u: Uop, now: nat) {
    u.phase.Completed? && u.ready <= now
  }

  /** Between calls, while a call issues and executes, and after it has woken up dependants. */
  datatype Stage = Idle | Front | Back

  datatype Rob = Rob(log: seq<Uop>, head: nat, now: nat, wake: set<nat>, stage: Stage)

  // ---------------------------------------------------------------- issuing

  /** The youngest unfinished entry in [head, k) that matches. */
  function Youngest(log: seq<Uop>, head: nat, k: nat, now: nat, q: Query): set<nat>
    requires head <= k <= |log|
    decreases k - head
  {
    if k == head then {}
    else if Matches(log[k-1], q) && !Done(log[k-1], now) then {k-1}
    else Youngest(log, head, k - 1, now, q)
  }

  lemma {:induction false} YoungestIs(log: seq<Uop>, head: nat, k: nat, now: nat, q: Query)
    requires head <= k <= |log|
    ensures
      var r := Youngest(log, head, k, now, q);
      && (r == {} ==> forall m :: head <= m < k && Matches(log[m], q) ==> Done(log[m], now))
      && (forall d :: d in r ==>
           head <= d < k && Matches(log[d], q) && !Done(log[d], now) && r == {d}
           && forall m :: d < m < k && Matches(log[m], q) ==> Done(log[m], now))
    decreases k - head
  {
    if k > head { YoungestIs(log, head, k - 1, now, q); }
  }

  function Sources(log: seq<Uop>, head: nat, k: nat, now: nat, src: set<nat>): (r: set<nat>)
    requires head <= k <= |log|
  {
    set reg, d | reg in src && reg != 0 && d in Youngest(log, head, k, now, Writes(reg)) :: d
  }

  /** An instruction as it leaves the fetch queue: its accesses in order (first `loads` reads, then the
      write; [0] for an instruction without any), its registers, its kind, and whether its branch was
      mispredicted. */
  datatype Instr = Instr(accesses: seq<nat>, loads: nat, src: set<nat>, dst: set<nat>, kind: Kind, miss: bool)

  predicate WellFormed(i: Instr) {
    1 <= |i.accesses| <= 3
    && (i.accesses == [0] || forall a :: a in i.accesses ==> a != 0)
  }

  /** The micro-operation for access `j`, placed after the log; `start` is where the instruction
      begins.  Branch and register dependencies look at older instructions only, the memory
      dependency also at the instruction's own accesses, and each access follows the previous one. */
  function NewUop(log: seq<Uop>, head: nat, start: nat, now: nat, interval: nat, i: Instr, j: nat): Uop
    requires head <= start && start + j == |log| && j < |i.accesses|
  {
    var a := i.accesses[j];
    Uop(Issued, now + interval, a, j < i.loads, i.miss, i.kind, i.src, i.dst,
        Previous(|log|, j)
        + Youngest(log, head, start, now, Miss)
        + Sources(log, head, start, now, i.src)
        + MemorySource(log, head, now, a))
  }

  function Previous(k: nat, j: nat): set<nat>
    requires j <= k
  {
    if j == 0 then {} else {k - 1}
  }

  function MemorySource(log: seq<Uop>, head: nat, now: nat, a: nat): set<nat>
    requires head <= |log|
  {
    if a == 0 then {} else Youngest(log, head, |log|, now, Touches(a / WORD))
  }

  function IssueFrom(log: seq<Uop>, head: nat, start: nat, now: nat, interval: nat, i: Instr, j: nat): (r: seq<Uop>)
    requires head <= start && start + j == |log| && j <= |i.accesses|
    ensures |r| == |log| + |i.accesses| - j
    decreases |i.accesses| - j
  {
    if j == |i.accesses| then log
    else IssueFrom(log + [NewUop(log, head, start, now, interval, i, j)], head, start, now, interval, i, j + 1)
  }

  /** An entry as issuing access x of an instruction leaves it. */
  predicate IssuedFor(u: Uop, i: Instr, x: nat, ready: nat)
    requires x < |i.accesses|
  {
    && u.phase.Issued? && u.ready == ready && u.addr == i.accesses[x] && (u.isRead <==> x < i.loads)
    && u.miss == i.miss && u.kind == i.kind && u.src == i.src && u.dst == i.dst
  }

  /** Issuing appends one entry per access, in order, and leaves the others alone. */
  lemma {:induction false} IssueAppends(log: seq<Uop>, head: nat, start: nat, now: nat, interval: nat, i: Instr, j: nat)
    requires head <= start && start + j == |log| && j <= |i.accesses|
    ensures
      var r := IssueFrom(log, head, start, now, interval, i, j);
      log <= r && forall k :: |log| <= k < |r| ==> IssuedFor(r[k], i, k - start, now + interval)
    decreases |i.accesses| - j
  {
    if j < |i.accesses| {
      var u := NewUop(log, head, start, now, interval, i, j);
      var r := IssueFrom(log, head, start, now, interval, i, j);
      IssueAppends(log + [u], head, start, now, interval, i, j + 1);
      assert r[start + j] == (log + [u])[start + j] == u;
      assert IssuedFor(u, i, j, now + interval);
    }
  }

  // ---------------------------------------------------------------- the other actions

  /** The live entries before `upto` whose ready time is now. */
  function Finishing(log: seq<Uop>, head: nat, upto: nat, now: nat): set<nat>
    requires upto <= |log|
  {
    set d | head <= d < upto && log[d].phase.Completed? && log[d].ready == now
  }

  /** Live issued entries stop waiting for the entries that finish now. */
  function ReleaseUpTo(log: seq<Uop>, head: nat, upto: nat, now: nat): (r: seq<Uop>)
    requires upto <= |log|
    ensures |r| == |log|
  {
    seq(|log|, k requires 0 <= k < |log| =>
      if head <= k && log[k].phase.Issued? then log[k].(waits := log[k].waits - Finishing(log, head, upto, now))
      else log[k])
  }

  function ReleaseAll(log: seq<Uop>, head: nat, now: nat): (r: seq<Uop>)
    ensures |r| == |log|
  {
    ReleaseUpTo(log, head, |log|, now)
  }

  datatype Action =
    | Call(t: nat)                       // the event kernel calls the core
    | Issue(i: Instr, interval: nat)
    | Compute(k: nat, latency: nat)      // no memory access, or a notify/waitfor at the head
    | Access(k: nat)                     // the access leaves for the data cache
    | WakeUp
    | Commit
    | Return
    | Reply(k: nat, t: nat, delay: nat)  // the access of entry k comes back
    | Schedule(t: nat)

  predicate MayStart(s: Rob, k: nat) {
    s.stage.Front? && s.head <= k < |s.log| && s.log[k].phase.Issued? && s.log[k].ready <= s.now
    && (s.log[k].waits == {} || k == s.head)
  }

  predicate Enabled(s: Rob, a: Action) {
    match a
    case Call(t) => s.stage.Idle? && t in s.wake && s.now <= t && forall w :: w in s.wake ==> t <= w
    case Issue(i, interval) => s.stage.Front? && WellFormed(i) && s.head <= |s.log|
    case Compute(k, _) => MayStart(s, k)
    case Access(k) => MayStart(s, k) && s.log[k].addr != 0
    case WakeUp => s.stage.Front?
    case Commit => s.stage.Back? && s.head < |s.log| && Done(s.log[s.head], s.now)
    case Return => s.stage.Back?
    case Reply(k, t, _) =>
      s.stage.Idle? && k < |s.log| && s.log[k].phase.Executing? && s.now <= t && forall w :: w in s.wake ==> t <= w
    case Schedule(t) => s.now <= t
  }

  function Next(s: Rob, a: Action): Rob
    requires Enabled(s, a)
  {
    match a
    case Call(t) => s.(stage := Front, now := t, wake := s.wake - {t})
    case Issue(i, interval) =>
      s.(log := IssueFrom(s.log, s.head, |s.log|, s.now, interval, i, 0), wake := s.wake + {s.now + interval})
    case Compute(k, latency) =>
      s.(log := s.log[k := s.log[k].(phase := Completed, ready := s.now + latency)], wake := s.wake + {s.now + latency})
    case Access(k) => s.(log := s.log[k := s.log[k].(phase := Executing)])
    case WakeUp => s.(stage := Back, log := ReleaseAll(s.log, s.head, s.now))
    case Commit => s.(head := s.head + 1)
    case Return => s.(stage := Idle)
    case Reply(k, t, delay) =>
      s.(now := t, log := s.log[k := s.log[k].(phase := Completed, ready := t + delay)], wake := s.wake + {t + delay})
    case Schedule(t) => s.(wake := s.wake + {t})
  }

  // ---------------------------------------------------------------- the invariant

  ghost predicate Blocked(log: seq<Uop>, k: nat, m: nat, q: Query)
    requires k < |log|
  {
    exists d :: d in log[k].waits && m <= d < k && Matches(log[d], q)
  }

  /** Whatever older entry matches `q` and is unfinished, entry k still waits for it or for a younger
      match. */
  ghost predicate Guarded(log: seq<Uop>, k: nat, q: Query, now: nat)
    requires k < |log|
  {
    forall m :: 0 <= m < k && Matches(log[m], q) && !Done(log[m], now) ==>
      log[k].phase.Issued? && Blocked(log, k, m, q)
  }

  predicate LastWriter(log: seq<Uop>, k: nat, m: nat, reg: nat)
    requires m < k <= |log|
  {
    reg in log[m].dst && forall x :: m < x < k ==> reg !in log[x].dst
  }

  lemma SameWriters(log: seq<Uop>, log': seq<Uop>, k: nat, m: nat, reg: nat)
    requires m < k <= |log| && k <= |log'| && forall x :: 0 <= x < k ==> log'[x].dst == log[x].dst
    ensures LastWriter(log', k, m, reg) == LastWriter(log, k, m, reg)
  {
    assert log'[m].dst == log[m].dst;
    if LastWriter(log', k, m, reg) {
      forall x | m < x < k ensures reg !in log[x].dst { assert reg !in log'[x].dst; }
    }
  }

  ghost predicate RegistersGuarded(log: seq<Uop>, k: nat, now: nat)
    requires k < |log|
  {
    forall reg, m :: reg in log[k].src && reg != 0 && 0 <= m < k && LastWriter(log, k, m, reg) && !Done(log[m], now) ==>
      log[k].phase.Issued? && m in log[k].waits
  }

  ghost predicate EntryOk(s: Rob, k: nat)
    requires k < |s.log|
  {
    && (forall d :: d in s.log[k].waits ==> s.head <= d < k)
    && (!s.log[k].phase.Issued? ==> s.log[k].waits == {})
    && Guarded(s.log, k, Miss, s.now)
    && (s.log[k].addr / WORD != 0 ==> Guarded(s.log, k, Touches(s.log[k].addr / WORD), s.now))
    && RegistersGuarded(s.log, k, s.now)
  }

  /** A completed entry that something still waits for will be announced by a call at exactly its
      ready time. */
  ghost predicate Announced(s: Rob, d: nat)
    requires d < |s.log|
  {
    s.log[d].phase.Completed? ==>
      match s.stage
      case Idle => s.log[d].ready in s.wake
      case Front => s.log[d].ready in s.wake || s.log[d].ready == s.now
      case Back => s.log[d].ready in s.wake && s.log[d].ready > s.now
  }

  ghost predicate Notified(s: Rob, k: nat)
    requires k < |s.log|
  {
    forall d :: d in s.log[k].waits ==> d < |s.log| && Announced(s, d)
  }

  ghost predicate Inv(s: Rob) {
    && s.head <= |s.log|
    && (forall k :: 0 <= k < s.head ==> Done(s.log[k], s.now))
    && (forall k :: 0 <= k < |s.log| ==> EntryOk(s, k))
    && (forall k :: 0 <= k < |s.log| && !s.log[k].phase.Executing? && s.log[k].ready > s.now ==>
          s.log[k].ready in s.wake)
    && (forall k :: 0 <= k < |s.log| ==> Notified(s, k))
    && (forall w :: w in s.wake ==> s.now <= w)
  }

  const EMPTY := Rob([], 0, 0, {}, Idle)

  /** What a starting entry may rely on: every older access to its word, every older mispredicted
      branch and the latest older writer of each source register are finished. */
  ghost predicate InOrder(log: seq<Uop>, k: nat, now: nat)
    requires k < |log|
  {
    && (forall m :: 0 <= m < k && log[m].miss ==> Done(log[m], now))
    && (log[k].addr / WORD != 0 ==>
          forall m :: 0 <= m < k && log[m].addr / WORD == log[k].addr / WORD ==> Done(log[m], now))
    && (forall reg, m :: reg in log[k].src && reg != 0 && 0 <= m < k && LastWriter(log, k, m, reg) ==>
          Done(log[m], now))
  }

  lemma HeadNeverWaits(s: Rob)
    requires Inv(s) && s.head < |s.log|
    ensures s.log[s.head].waits == {}
  {
    assert EntryOk(s, s.head);
  }

  lemma StartsInOrder(s: Rob, k: nat)
    requires Inv(s) && MayStart(s, k)
    ensures InOrder(s.log, k, s.now)
  {
    assert EntryOk(s, k);
    if k == s.head { HeadNeverWaits(s); }
    assert s.log[k].waits == {};
    forall m | 0 <= m < k && s.log[m].miss ensures Done(s.log[m], s.now) {
      assert Matches(s.log[m], Miss);
    }
    if s.log[k].addr / WORD != 0 {
      forall m | 0 <= m < k && s.log[m].addr / WORD == s.log[k].addr / WORD ensures Done(s.log[m], s.now) {
        assert Matches(s.log[m], Touches(s.log[k].addr / WORD));
      }
    }
  }

  // ---------------------------------------------------------------- every action keeps it

  /** A state in which entries only got further: same names, same waits, more of them finished. */
  ghost predicate Further(log: seq<Uop>, log': seq<Uop>, now: nat, now': nat) {
    && |log| == |log'|
    && forall k :: 0 <= k < |log| ==>
         && log'[k].addr == log[k].addr && log'[k].miss == log[k].miss
         && log'[k].src == log[k].src && log'[k].dst == log[k].dst
         && (Done(log[k], now) ==> Done(log'[k], now'))
  }

  /** Entry k keeps its guards when others get further and it neither starts nor stops waiting. */
  lemma GuardsKept(log: seq<Uop>, log': seq<Uop>, now: nat, now': nat, k: nat, q: Query)
    requires Further(log, log', now, now') && k < |log|
    requires log'[k].phase == log[k].phase && log'[k].waits == log[k].waits
    requires Guarded(log, k, q, now)
    ensures Guarded(log', k, q, now')
  {
    forall m | 0 <= m < k && Matches(log'[m], q) && !Done(log'[m], now')
      ensures log'[k].phase.Issued? && Blocked(log', k, m, q)
    {
      assert Matches(log[m], q) && !Done(log[m], now);
      var d :| d in log[k].waits && m <= d < k && Matches(log[d], q);
      assert Matches(log'[d], q);
    }
  }

  lemma RegistersKept(log: seq<Uop>, log': seq<Uop>, now: nat, now': nat, k: nat)
    requires Further(log, log', now, now') && k < |log|
    requires log'[k].phase == log[k].phase && log'[k].waits == log[k].waits
    requires RegistersGuarded(log, k, now)
    ensures RegistersGuarded(log', k, now')
  {
    forall reg, m | reg in log'[k].src && reg != 0 && 0 <= m < k && LastWriter(log', k, m, reg) && !Done(log'[m], now')
      ensures log'[k].phase.Issued? && m in log'[k].waits
    {
      assert LastWriter(log, k, m, reg);
    }
  }

  lemma EntryKept(s: Rob, s': Rob, k: nat)
    requires k < |s.log| && EntryOk(s, k) && s'.head == s.head
    requires Further(s.log, s'.log, s.now, s'.now)
    requires s'.log[k].phase == s.log[k].phase && s'.log[k].waits == s.log[k].waits
    ensures EntryOk(s', k)
  {
    GuardsKept(s.log, s'.log, s.now, s'.now, k, Miss);
    if s.log[k].addr / WORD != 0 {
      GuardsKept(s.log, s'.log, s.now, s'.now, k, Touches(s.log[k].addr / WORD));
    }
    RegistersKept(s.log, s'.log, s.now, s'.now, k);
  }

  /** An entry that waits for nothing may start. */
  lemma EntryStarts(s: Rob, s': Rob, k: nat)
    requires k < |s.log| && EntryOk(s, k) && s'.head == s.head && s.log[k].waits == {}
    requires Further(s.log, s'.log, s.now, s'.now) && s'.log[k].waits == {}
    ensures EntryOk(s', k)
  {
    forall q, m | Guarded(s.log, k, q, s.now) && 0 <= m < k && Matches(s'.log[m], q)
      ensures Done(s'.log[m], s'.now)
    {
      assert Matches(s.log[m], q);
    }
    forall reg, m | reg in s'.log[k].src && reg != 0 && 0 <= m < k && LastWriter(s'.log, k, m, reg)
      ensures Done(s'.log[m], s'.now)
    {
      assert LastWriter(s.log, k, m, reg);
    }
  }

  lemma CallKeeps(s: Rob, t: nat)
    requires Inv(s) && Enabled(s, Call(t))
    ensures Inv(Next(s, Call(t)))
  {
    var s' := Next(s, Call(t));
    forall k | 0 <= k < |s'.log| ensures EntryOk(s', k) { EntryKept(s, s', k); }
    forall k | 0 <= k < |s'.log| ensures Notified(s', k) { assert Notified(s, k); }
  }

  lemma StartKeeps(s: Rob, a: Action, k: nat)
    requires Inv(s) && Enabled(s, a) && (a == Access(k) || (a.Compute? && a.k == k))
    ensures Inv(Next(s, a))
  {
    var s' := Next(s, a);
    if k == s.head { HeadNeverWaits(s); }
    forall x | 0 <= x < |s'.log| ensures EntryOk(s', x) {
      if x == k { EntryStarts(s, s', k); } else { EntryKept(s, s', x); }
    }
    forall x | 0 <= x < |s'.log| ensures Notified(s', x) { assert Notified(s, x); }
  }

  lemma ReplyKeeps(s: Rob, k: nat, t: nat, delay: nat)
    requires Inv(s) && Enabled(s, Reply(k, t, delay))
    ensures Inv(Next(s, Reply(k, t, delay)))
  {
    var s' := Next(s, Reply(k, t, delay));
    assert EntryOk(s, k);
    forall x | 0 <= x < |s'.log| ensures EntryOk(s', x) {
      if x == k { EntryStarts(s, s', k); } else { EntryKept(s, s', x); }
    }
    forall x | 0 <= x < |s'.log| ensures Notified(s', x) { assert Notified(s, x); }
  }

  lemma CommitKeeps(s: Rob)
    requires Inv(s) && Enabled(s, Commit)
    ensures Inv(Next(s, Commit))
  {
    var s' := Next(s, Commit);
    forall x | 0 <= x < |s'.log| ensures EntryOk(s', x) {
      assert EntryOk(s, x) && Notified(s, x);
    }
    forall x | 0 <= x < |s'.log| ensures Notified(s', x) { assert Notified(s, x); }
  }

  lemma ReleaseKeepsGuard(s: Rob, k: nat, q: Query)
    requires Inv(s) && k < |s.log| && Guarded(s.log, k, q, s.now) && !q.Writes? && q != Touches(0)
    ensures Guarded(ReleaseAll(s.log, s.head, s.now), k, q, s.now)
  {
    var log' := ReleaseAll(s.log, s.head, s.now);
    forall m | 0 <= m < k && Matches(log'[m], q) && !Done(log'[m], s.now)
      ensures log'[k].phase.Issued? && Blocked(log', k, m, q)
    {
      assert Matches(s.log[m], q) && !Done(s.log[m], s.now);
      var d :| d in s.log[k].waits && m <= d < k && Matches(s.log[d], q);
      assert EntryOk(s, d);
      assert d !in Finishing(s.log, s.head, |s.log|, s.now);
      assert d in log'[k].waits && Matches(log'[d], q);
    }
  }

  lemma WakeUpKeeps(s: Rob)
    requires Inv(s) && Enabled(s, WakeUp)
    ensures Inv(Next(s, WakeUp))
  {
    var s' := Next(s, WakeUp);
    forall k | 0 <= k < |s'.log| ensures EntryOk(s', k) {
      assert EntryOk(s, k);
      ReleaseKeepsGuard(s, k, Miss);
      if s.log[k].addr / WORD != 0 { ReleaseKeepsGuard(s, k, Touches(s.log[k].addr / WORD)); }
      forall reg, m |
        && reg in s'.log[k].src && reg != 0 && 0 <= m < k
        && LastWriter(s'.log, k, m, reg) && !Done(s'.log[m], s.now)
        ensures s'.log[k].phase.Issued? && m in s'.log[k].waits
      {
        SameWriters(s.log, s'.log, k, m, reg);
      }
    }
    forall k | 0 <= k < |s'.log| ensures Notified(s', k) {
      assert Notified(s, k) && EntryOk(s, k);
    }
  }

  // ---------------------------------------------------------------- issuing keeps it

  /** The entries from `start` on are the accesses of instruction `i` issued so far. */
  ghost predicate Siblings(log: seq<Uop>, start: nat, i: Instr) {
    forall k :: start <= k < |log| ==> log[k].phase.Issued? && log[k].miss == i.miss && log[k].dst == i.dst
  }

  lemma NewUopBranches(s: Rob, start: nat, interval: nat, i: Instr, j: nat)
    requires Inv(s) && s.head <= start && start + j == |s.log| && j < |i.accesses| && Siblings(s.log, start, i)
    ensures
      var k := |s.log|;
      Guarded(s.log + [NewUop(s.log, s.head, start, s.now, interval, i, j)], k, Miss, s.now)
  {
    var k := |s.log|;
    var u := NewUop(s.log, s.head, start, s.now, interval, i, j);
    var log' := s.log + [u];
    forall m | 0 <= m < k && Matches(log'[m], Miss) && !Done(log'[m], s.now) ensures Blocked(log', k, m, Miss) {
      if j > 0 && i.miss {
        assert k - 1 in Previous(k, j) && k - 1 in u.waits && Matches(log'[k-1], Miss);
      } else {
        assert m < start;
        var y := Youngest(s.log, s.head, start, s.now, Miss);
        YoungestIs(s.log, s.head, start, s.now, Miss);
        assert y != {};
        var d :| d in y;
        assert d in u.waits && Matches(log'[d], Miss) && m <= d;
      }
    }
  }

  lemma NewUopMemory(s: Rob, start: nat, interval: nat, i: Instr, j: nat)
    requires Inv(s) && s.head <= start && start + j == |s.log| && j < |i.accesses| && i.accesses[j] / WORD != 0
    ensures
      var k := |s.log|;
      Guarded(s.log + [NewUop(s.log, s.head, start, s.now, interval, i, j)], k, Touches(i.accesses[j] / WORD), s.now)
  {
    var k := |s.log|;
    var u := NewUop(s.log, s.head, start, s.now, interval, i, j);
    var log' := s.log + [u];
    var q := Touches(i.accesses[j] / WORD);
    forall m | 0 <= m < k && Matches(log'[m], q) && !Done(log'[m], s.now) ensures Blocked(log', k, m, q) {
      assert Matches(s.log[m], q);
      var y := Youngest(s.log, s.head, k, s.now, q);
      YoungestIs(s.log, s.head, k, s.now, q);
      assert y != {} && y == MemorySource(s.log, s.head, s.now, i.accesses[j]);
      var d :| d in y;
      assert d in u.waits && Matches(log'[d], q) && m <= d;
    }
  }

  lemma NewUopRegisters(s: Rob, start: nat, interval: nat, i: Instr, j: nat)
    requires Inv(s) && s.head <= start && start + j == |s.log| && j < |i.accesses| && Siblings(s.log, start, i)
    ensures
      var k := |s.log|;
      RegistersGuarded(s.log + [NewUop(s.log, s.head, start, s.now, interval, i, j)], k, s.now)
  {
    var k := |s.log|;
    var u := NewUop(s.log, s.head, start, s.now, interval, i, j);
    var log' := s.log + [u];
    forall reg, m | reg in u.src && reg != 0 && 0 <= m < k && LastWriter(log', k, m, reg) && !Done(log'[m], s.now)
      ensures m in u.waits
    {
      if m >= start {
        assert reg in i.dst && log'[k-1].dst == i.dst;
        assert m in Previous(k, j);
      } else {
        var y := Youngest(s.log, s.head, start, s.now, Writes(reg));
        YoungestIs(s.log, s.head, start, s.now, Writes(reg));
        assert Matches(s.log[m], Writes(reg)) && m >= s.head;
        assert y != {};
        var d :| d in y;
        assert d >= m;
        assert log'[d] == s.log[d] && reg in log'[d].dst;
        assert m in Sources(s.log, s.head, start, s.now, i.src);
      }
    }
  }

  /** Entries already in the log do not notice that one is appended. */
  lemma EntryUndisturbed(s: Rob, u: Uop, k: nat)
    requires k < |s.log| && EntryOk(s, k)
    ensures EntryOk(s.(log := s.log + [u]), k)
  {
    var log' := s.log + [u];
    forall q, m | Guarded(s.log, k, q, s.now) && 0 <= m < k && Matches(log'[m], q) && !Done(log'[m], s.now)
      ensures log'[k].phase.Issued? && Blocked(log', k, m, q)
    {
      assert Matches(s.log[m], q);
      var d :| d in s.log[k].waits && m <= d < k && Matches(s.log[d], q);
      assert Matches(log'[d], q);
    }
    forall reg, m | reg in log'[k].src && reg != 0 && 0 <= m < k && LastWriter(log', k, m, reg) && !Done(log'[m], s.now)
      ensures log'[k].phase.Issued? && m in log'[k].waits
    {
      SameWriters(s.log, log', k, m, reg);
    }
  }

  /** Whatever a new entry waits for is live, older and, but for the instruction's own accesses, unfinished. */
  lemma NewUopLive(log: seq<Uop>, head: nat, start: nat, now: nat, interval: nat, i: Instr, j: nat)
    requires head <= start && start + j == |log| && j < |i.accesses|
    ensures forall d :: d in NewUop(log, head, start, now, interval, i, j).waits ==>
              head <= d < |log| && (d in Previous(|log|, j) || !Done(log[d], now))
  {
    forall d | d in NewUop(log, head, start, now, interval, i, j).waits
      ensures head <= d < |log| && (d in Previous(|log|, j) || !Done(log[d], now))
    {
      if d in MemorySource(log, head, now, i.accesses[j]) {
        YoungestIs(log, head, |log|, now, Touches(i.accesses[j] / WORD));
      } else if d in Sources(log, head, start, now, i.src) {
        var reg :| reg in i.src && d in Youngest(log, head, start, now, Writes(reg));
        YoungestIs(log, head, start, now, Writes(reg));
      } else if d in Youngest(log, head, start, now, Miss) {
        YoungestIs(log, head, start, now, Miss);
      } else {
        assert d in Previous(|log|, j);
      }
    }
  }

  lemma NewUopWaits(s: Rob, start: nat, interval: nat, i: Instr, j: nat)
    requires Inv(s) && s.head <= start && start + j == |s.log| && j < |i.accesses| && Siblings(s.log, start, i)
    ensures forall d :: d in NewUop(s.log, s.head, start, s.now, interval, i, j).waits ==>
              s.head <= d < |s.log| && !Done(s.log[d], s.now)
  {
    NewUopLive(s.log, s.head, start, s.now, interval, i, j);
  }

  lemma PushKeeps(s: Rob, start: nat, interval: nat, i: Instr, j: nat)
    requires Inv(s) && s.stage.Front?
    requires s.head <= start && start + j == |s.log| && j < |i.accesses| && Siblings(s.log, start, i)
    requires s.now + interval in s.wake
    ensures Inv(s.(log := s.log + [NewUop(s.log, s.head, start, s.now, interval, i, j)]))
  {
    var u := NewUop(s.log, s.head, start, s.now, interval, i, j);
    var s' := s.(log := s.log + [u]);
    var k := |s.log|;
    NewUopWaits(s, start, interval, i, j);
    forall x | 0 <= x < |s'.log| ensures EntryOk(s', x) && Notified(s', x) {
      if x < k {
        assert Notified(s, x);
        EntryUndisturbed(s, u, x);
      } else {
        NewUopBranches(s, start, interval, i, j);
        if u.addr / WORD != 0 { NewUopMemory(s, start, interval, i, j); }
        NewUopRegisters(s, start, interval, i, j);
      }
    }
  }

  lemma {:induction false} IssueKeeps(s: Rob, start: nat, interval: nat, i: Instr, j: nat)
    requires Inv(s) && s.stage.Front?
    requires s.head <= start && start + j == |s.log| && j <= |i.accesses| && Siblings(s.log, start, i)
    requires s.now + interval in s.wake
    ensures Inv(s.(log := IssueFrom(s.log, s.head, start, s.now, interval, i, j)))
    decreases |i.accesses| - j
  {
    if j < |i.accesses| {
      PushKeeps(s, start, interval, i, j);
      var s' := s.(log := s.log + [NewUop(s.log, s.head, start, s.now, interval, i, j)]);
      IssueKeeps(s', start, interval, i, j + 1);
    }
  }

  lemma ScheduleKeeps(s: Rob, t: nat)
    requires Inv(s) && s.now <= t
    ensures Inv(s.(wake := s.wake + {t}))
  {
    var s' := s.(wake := s.wake + {t});
    forall k | 0 <= k < |s'.log| ensures EntryOk(s', k) && Notified(s', k) {
      assert EntryOk(s, k) && Notified(s, k);
    }
  }

  lemma ReturnKeeps(s: Rob)
    requires Inv(s) && s.stage.Back?
    ensures Inv(s.(stage := Idle))
  {
    var s' := s.(stage := Idle);
    forall k | 0 <= k < |s'.log| ensures EntryOk(s', k) && Notified(s', k) {
      assert EntryOk(s, k) && Notified(s, k);
    }
  }

  lemma StepKeeps(s: Rob, a: Action)
    requires Inv(s) && Enabled(s, a)
    ensures Inv(Next(s, a))
  {
    match a
    case Call(t) => CallKeeps(s, t);
    case Issue(i, interval) =>
      ScheduleKeeps(s, s.now + interval);
      IssueKeeps(s.(wake := s.wake + {s.now + interval}), |s.log|, interval, i, 0);
    case Compute(k, _) => StartKeeps(s, a, k);
    case Access(k) => StartKeeps(s, a, k);
    case WakeUp => WakeUpKeeps(s);
    case Commit => CommitKeeps(s);
    case Return => ReturnKeeps(s);
    case Reply(k, t, delay) => ReplyKeeps(s, k, t, delay);
    case Schedule(t) => ScheduleKeeps(s, t);
  }

  // ---------------------------------------------------------------- whole runs

  ghost predicate StepAt(states: seq<Rob>, actions: seq<Action>, i: nat)
    requires |states| == |actions| + 1 && i < |actions|
  {
    Enabled(states[i], actions[i]) && states[i+1] == Next(states[i], actions[i])
  }

  ghost predicate Run(states: seq<Rob>, actions: seq<Action>) {
    && |states| == |actions| + 1 && states[0] == EMPTY
    && forall i {:trigger StepAt(states, actions, i)} :: 0 <= i < |actions| ==> StepAt(states, actions, i)
  }

  lemma RunExtends(states: seq<Rob>, actions: seq<Action>, a: Action)
    requires Run(states, actions) && Enabled(states[|actions|], a)
    ensures Run(states + [Next(states[|actions|], a)], actions + [a])
  {
    var states', actions' := states + [Next(states[|actions|], a)], actions + [a];
    forall i | 0 <= i < |actions'| ensures StepAt(states', actions', i) {
      if i < |actions| { assert StepAt(states, actions, i); }
    }
  }

  /** The actions determine the states. */
  lemma {:induction false} SameStates(states: seq<Rob>, actions: seq<Action>, states': seq<Rob>,
                                      actions': seq<Action>, n: nat)
    requires Run(states, actions) && Run(states', actions') && actions <= actions' && n < |states|
    ensures states'[n] == states[n]
  {
    if n > 0 {
      SameStates(states, actions, states', actions', n - 1);
      assert StepAt(states, actions, n - 1) && StepAt(states', actions', n - 1);
    }
  }

  lemma {:induction false} RunInvariant(states: seq<Rob>, actions: seq<Action>, n: nat)
    requires Run(states, actions) && n < |states|
    ensures Inv(states[n])
  {
    if n > 0 {
      RunInvariant(states, actions, n - 1);
      assert StepAt(states, actions, n - 1);
      StepKeeps(states[n-1], actions[n-1]);
    }
  }

  /** In every run, whenever an entry starts, everything it depends on has finished. */
  lemma ExecutionRespectsDependencies(states: seq<Rob>, actions: seq<Action>, n: nat)
    requires Run(states, actions) && n < |actions| && (actions[n].Compute? || actions[n].Access?)
    ensures MayStart(states[n], actions[n].k) && InOrder(states[n].log, actions[n].k, states[n].now)
  {
    RunInvariant(states, actions, n);
    assert StepAt(states, actions, n);
    StartsInOrder(states[n], actions[n].k);
  }

  /** In every run, a name that an entry waits for is a live, older entry that has not been announced
      as finished, and the head waits for nothing. */
  lemma NamesStayLive(states: seq<Rob>, actions: seq<Action>, n: nat, k: nat)
    requires Run(states, actions) && n < |states| && k < |states[n].log|
    ensures forall d :: d in states[n].log[k].waits ==>
              states[n].head <= d < k
              && (states[n].log[d].phase.Completed? ==> states[n].log[d].ready >= states[n].now)
    ensures k == states[n].head ==> states[n].log[k].waits == {}
  {
    RunInvariant(states, actions, n);
    assert EntryOk(states[n], k) && Notified(states[n], k);
    forall d | d in states[n].log[k].waits
      ensures states[n].log[d].phase.Completed? ==> states[n].log[d].ready >= states[n].now
    {
      assert Announced(states[n], d);
    }
  }

  // ---------------------------------------------------------------- being called again

  /** Nothing will ever call the core again: no call is scheduled, and no access is under way whose reply would schedule
      one. */
  ghost predicate Asleep(s: Rob) {
    s.wake == {} && forall k :: s.head <= k < |s.log| ==> !s.log[k].phase.Executing?
  }

  lemma ActionWakes(s: Rob, a: Action)
    requires Enabled(s, a) && (a.Issue? || a.Compute? || a.Access? || a.Schedule?)
    ensures !Asleep(Next(s, a))
  {
    if a.Access? { assert Next(s, a).log[a.k].phase.Executing?; }
    if a.Issue? { assert s.now + a.interval in Next(s, a).wake; }
  }

  lemma StaysAwake(s: Rob, a: Action)
    requires Enabled(s, a) && !Asleep(s) && !a.Call? && !a.Reply?
    ensures !Asleep(Next(s, a))
  {
    if s.wake == {} && (a.WakeUp? || a.Commit? || a.Return?) {
      var k :| s.head <= k < |s.log| && s.log[k].phase.Executing?;
      assert Next(s, a).log[k].phase.Executing?;
    } else if !a.WakeUp? && !a.Commit? && !a.Return? {
      ActionWakes(s, a);
    }
  }

  lemma {:induction false} StaysAwakeUntil(states: seq<Rob>, actions: seq<Action>, p: nat, q: nat)
    requires Run(states, actions) && p <= q <= |actions| && !Asleep(states[p])
    requires forall x :: p <= x < q ==> !actions[x].Call? && !actions[x].Reply?
    ensures !Asleep(states[q])
  {
    if p < q {
      StaysAwakeUntil(states, actions, p, q - 1);
      assert StepAt(states, actions, q - 1);
      StaysAwake(states[q-1], actions[q-1]);
    }
  }

  /** Committing moves the head and nothing else. */
  lemma {:induction false} CommitsOnly(states: seq<Rob>, actions: seq<Action>, p: nat, q: nat)
    requires Run(states, actions) && p <= q <= |actions| && forall x :: p <= x < q ==> actions[x].Commit?
    ensures states[q].log == states[p].log && states[q].now == states[p].now
    ensures states[q].head == states[p].head + (q - p)
  {
    if p < q {
      CommitsOnly(states, actions, p, q - 1);
      assert StepAt(states, actions, q - 1);
    }
  }

  // ---------------------------------------------------------------- the exception: word 0

  ghost predicate Reaches(s: Rob) {
    exists states, actions :: Run(states, actions) && states[|actions|] == s
  }

  lemma ReachesNext(s: Rob, a: Action, s': Rob)
    requires Reaches(s) && Enabled(s, a) && s' == Next(s, a)
    ensures Reaches(s')
  {
    var states, actions :| Run(states, actions) && states[|actions|] == s;
    RunExtends(states, actions, a);
    var states', actions' := states + [s'], actions + [a];
    assert Run(states', actions') && states'[|actions'|] == s';
  }

  function Simple(phase: Phase, ready: nat, addr: nat, waits: set<nat>): Uop {
    Uop(phase, ready, addr, addr != 0, false, Plain, {}, {}, waits)
  }

  function Load(a: nat): Instr { Instr([a], 1, {}, {}, Plain, false) }

  const NOOP := Instr([0], 0, {}, {}, Plain, false)

  function First(a: nat): Uop { Simple(Issued, 1, a, {}) }

  const SECOND := Simple(Issued, 1, 0, {})

  function Third(a: nat): Uop { Simple(Issued, 1, a, {1}) }

  lemma IssuedAlone(log: seq<Uop>, i: Instr, u: Uop)
    requires |i.accesses| == 1 && i.src == {} && i.dst == {} && !i.miss && i.kind.Plain?
    requires i.loads == (if i.accesses[0] == 0 then 0 else 1)
    requires
      var waits := Youngest(log, 0, |log|, 0, Miss) + MemorySource(log, 0, 0, i.accesses[0]);
      u == Simple(Issued, 1, i.accesses[0], waits)
    ensures IssueFrom(log, 0, |log|, 0, 1, i, 0) == log + [u]
  {
    assert Sources(log, 0, |log|, 0, i.src) == {};
    assert NewUop(log, 0, |log|, 0, 1, i, 0) == u;
  }

  lemma Push(log: seq<Uop>, i: Instr, u: Uop)
    requires Reaches(Rob(log, 0, 0, {1}, Front)) || (log == [] && Reaches(Rob(log, 0, 0, {}, Front)))
    requires WellFormed(i) && |i.accesses| == 1 && i.src == {} && i.dst == {} && !i.miss && i.kind.Plain?
    requires i.loads == (if i.accesses[0] == 0 then 0 else 1)
    requires
      var waits := Youngest(log, 0, |log|, 0, Miss) + MemorySource(log, 0, 0, i.accesses[0]);
      u == Simple(Issued, 1, i.accesses[0], waits)
    ensures Reaches(Rob(log + [u], 0, 0, {1}, Front))
  {
    IssuedAlone(log, i, u);
    var s := if Reaches(Rob(log, 0, 0, {1}, Front)) then Rob(log, 0, 0, {1}, Front) else Rob(log, 0, 0, {}, Front);
    assert s.wake + {s.now + 1} == {1};
    ReachesNext(s, Issue(i, 1), Rob(log + [u], 0, 0, {1}, Front));
  }

  lemma FirstIssued(a: nat)
    requires 0 < a < WORD
    ensures Reaches(Rob([First(a)], 0, 0, {1}, Front))
  {
    var start, nothing: seq<Action> := [EMPTY], [];
    assert Run(start, nothing) && start[|nothing|] == EMPTY;
    ReachesNext(EMPTY, Schedule(0), Rob([], 0, 0, {0}, Idle));
    ReachesNext(Rob([], 0, 0, {0}, Idle), Call(0), Rob([], 0, 0, {}, Front));
    Push([], Load(a), First(a));
    assert [] + [First(a)] == [First(a)];
  }

  lemma NoMisses(a: nat, k: nat)
    requires k <= 2
    ensures Youngest([First(a), SECOND][..k], 0, k, 0, Miss) == {}
  {
    if k > 0 { NoMisses(a, k - 1); }
    YoungestIs([First(a), SECOND][..k], 0, k, 0, Miss);
  }

  lemma ThreeIssued(a: nat)
    requires 0 < a < WORD
    ensures Reaches(Rob([First(a), SECOND, Third(a)], 0, 0, {1}, Front))
  {
    FirstIssued(a);
    NoMisses(a, 1);
    assert [First(a), SECOND][..1] == [First(a)];
    Push([First(a)], NOOP, SECOND);
    assert [First(a)] + [SECOND] == [First(a), SECOND];
    NoMisses(a, 2);
    assert [First(a), SECOND][..2] == [First(a), SECOND];
    Push([First(a), SECOND], Load(a), Third(a));
    assert [First(a), SECOND] + [Third(a)] == [First(a), SECOND, Third(a)];
  }

  lemma NextCall(log: seq<Uop>, t: nat)
    requires Reaches(Rob(log, 0, t, {t + 1}, Front)) && Finishing(log, 0, |log|, t) == {}
    ensures Reaches(Rob(log, 0, t + 1, {}, Front))
  {
    var s := Rob(log, 0, t, {t + 1}, Front);
    ReleasesNothing(log, 0, t);
    ReachesNext(s, WakeUp, s.(stage := Back));
    ReachesNext(s.(stage := Back), Return, s.(stage := Idle));
    ReachesNext(s.(stage := Idle), Call(t + 1), Rob(log, 0, t + 1, {}, Front));
  }

  lemma LoadUnderWay(a: nat)
    requires 0 < a < WORD
    ensures Reaches(Rob([First(a).(phase := Executing), Simple(Completed, 2, 0, {}), Third(a)], 0, 2, {}, Front))
  {
    ThreeIssued(a);
    var log := [First(a), SECOND, Third(a)];
    assert Finishing(log, 0, 3, 0) == {};
    NextCall(log, 0);
    var s1 := Rob(log, 0, 1, {}, Front);
    var s2 := s1.(log := [First(a).(phase := Executing), SECOND, Third(a)]);
    assert s1.log[0 := First(a).(phase := Executing)] == s2.log;
    ReachesNext(s1, Access(0), s2);
    var s3 := s2.(log := [First(a).(phase := Executing), Simple(Completed, 2, 0, {}), Third(a)], wake := {2});
    assert s2.log[1 := Simple(Completed, 2, 0, {})] == s3.log;
    ReachesNext(s2, Compute(1, 1), s3);
    assert Finishing(s3.log, 0, 3, 1) == {};
    NextCall(s3.log, 1);
  }

  lemma ReleasesNothing(log: seq<Uop>, head: nat, now: nat)
    requires Finishing(log, head, |log|, now) == {}
    ensures ReleaseAll(log, head, now) == log
  {
    var r := ReleaseAll(log, head, now);
    forall k | 0 <= k < |log| ensures r[k] == log[k] { assert log[k].waits - {} == log[k].waits; }
  }

  /** The memory rule fails for addresses 1 to 7: an operation without an access has address 0, which
      is in the same word, so a later access may end up waiting for it instead of for an older access
      that is still under way. */
  lemma WordZeroOvertaken(a: nat) returns (s: Rob)
    requires 0 < a < WORD
    ensures Reaches(s) && MayStart(s, 2) && s.log[2].addr == a
    ensures s.log[0].addr == a && !Done(s.log[0], s.now)
  {
    LoadUnderWay(a);
    var u0, u1, u2 := First(a).(phase := Executing), Simple(Completed, 2, 0, {}), First(a);
    var s1 := Rob([u0, u1, Third(a)], 0, 2, {}, Front);
    var s2 := Rob([u0, u1, u2], 0, 2, {}, Back);
    assert Finishing(s1.log, 0, 3, 2) == {1};
    var r := ReleaseAll(s1.log, 0, 2);
    assert r[0] == u0 && r[1] == u1 && r[2] == u2;
    assert r == s2.log;
    ReachesNext(s1, WakeUp, s2);
    ReachesNext(s2, Return, s2.(stage := Idle));
    ReachesNext(s2.(stage := Idle), Schedule(3), s2.(stage := Idle, wake := {3}));
    s := s2.(stage := Front, now := 3);
    ReachesNext(s2.(stage := Idle, wake := {3}), Call(3), s);
  }

  /** In every reachable state, an access to address a that may start finds every older access to its word
      finished. */
  ghost predicate MemoryOrdered(a: nat) {
    forall s: Rob, k: nat, m: nat ::
      && Reaches(s) && MayStart(s, k) && s.log[k].addr == a
      && m < k && s.log[m].addr != 0 && s.log[m].addr / WORD == a / WORD ==>
        Done(s.log[m], s.now)
  }

  lemma ReachableInOrder(s: Rob, k: nat)
    requires Reaches(s) && MayStart(s, k)
    ensures InOrder(s.log, k, s.now)
  {
    var states, actions :| Run(states, actions) && states[|actions|] == s;
    RunInvariant(states, actions, |actions|);
    StartsInOrder(s, k);
  }

  /** The memory rule holds for exactly the addresses outside word 0. */
  lemma MemoryRuleExact(a: nat)
    requires a != 0
    ensures MemoryOrdered(a) <==> a / WORD != 0
  {
    if a / WORD != 0 {
      forall s: Rob, k: nat, m: nat |
        && Reaches(s) && MayStart(s, k) && s.log[k].addr == a
        && m < k && s.log[m].addr != 0 && s.log[m].addr / WORD == a / WORD
        ensures Done(s.log[m], s.now)
      {
        ReachableInOrder(s, k);
      }
    } else {
      var s := WordZeroOvertaken(a);
      assert !Done(s.log[0], s.now);
    }
  }
}
