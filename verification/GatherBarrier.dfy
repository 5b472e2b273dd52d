/** The barrier that the memory-network controllers share for gathers.

    The threads of a flow each send one gather for it, to any controller.  The barrier counts
    arrivals; the last one makes it send one ACTIVE_GET per active tree of the flow (a controller
    without a waiting gather is given a dummy), and it then counts the trees that have not replied.
    The last reply answers every waiting gather and forgets the flow.  Flows do not share any state,
    so one flow is modelled, across all controllers. */
module GatherBarrier {

  import opened Basics

  datatype Gather = Gather(id: nat, thread: nat, dummy: bool)

  /** `<<nthreads, count>, per-controller counts>` of the flow. */
  datatype Barrier = Barrier(threads: nat, count: int, per: seq<int>)

  /** `gets` are the controllers whose ACTIVE_GET has not been answered; `arrived` and `answered` are
      history. */
  datatype Flow = Flow(
    barrier: Option<Barrier>,
    trees: seq<bool>,               // active_forests
    waiting: seq<seq<Gather>>,      // active_gather_event of each controller
    gets: set<nat>,
    arrived: multiset<Gather>,
    answered: multiset<Gather>)

  function Idle(n: nat): Flow {
    Flow(None, seq(n, _ => false), seq(n, _ => []), {}, multiset{}, multiset{})
  }

  function Active(trees: seq<bool>, upto: nat): (r: set<nat>)
    requires upto <= |trees|
  {
    set i | 0 <= i < upto && trees[i]
  }

  /** Gathers that came from threads, over all controllers. */
  function Real(waiting: seq<seq<Gather>>): multiset<Gather> {
    if waiting == [] then multiset{}
    else Real(waiting[..|waiting|-1]) + RealAt(waiting[|waiting|-1])
  }

  function RealAt(w: seq<Gather>): multiset<Gather> {
    if w == [] then multiset{}
    else RealAt(w[..|w|-1]) + if w[|w|-1].dummy then multiset{} else multiset{w[|w|-1]}
  }

  // ---------------------------------------------------------------- the operations

  const DUMMY := Gather(0, 0, true)

  /** Everyone has arrived: one ACTIVE_GET per active tree. */
  function Dispatch(s: Flow, b: Barrier): Flow
    requires |s.trees| == |s.waiting|
  {
    var n := |s.trees|;
    s.(barrier := Some(b.(count := |Active(s.trees, n)|,
                          per := seq(n, i requires 0 <= i < n => if s.trees[i] then 1 else 0))),
       waiting := seq(n, i requires 0 <= i < n => if s.trees[i] && s.waiting[i] == [] then [DUMMY] else s.waiting[i]),
       gets := Active(s.trees, n))
  }

  predicate Shaped(s: Flow) {
    |s.trees| == |s.waiting| && (s.barrier.Some? ==> |s.barrier.value.per| == |s.waiting|)
  }

  function Counted(s: Flow, c: nat, threads: nat): (b: Barrier)
    requires Shaped(s) && c < |s.waiting|
    ensures |b.per| == |s.waiting|
  {
    var b := if s.barrier.Some? then s.barrier.value else Barrier(threads, 0, seq(|s.waiting|, _ => 0));
    b.(count := b.count + 1, per := b.per[c := b.per[c] + 1])
  }

  /** One more gather waits. */
  function Joined(s: Flow, c: nat, g: Gather, b: Barrier): Flow
    requires c < |s.waiting|
  {
    s.(barrier := Some(b), waiting := s.waiting[c := s.waiting[c] + [g]], arrived := s.arrived + multiset{g})
  }

  function Arrive(s: Flow, c: nat, g: Gather, threads: nat): Flow
    requires Shaped(s) && c < |s.waiting|
  {
    var b := Counted(s, c, threads);
    var s' := Joined(s, c, g, b);
    if b.count == threads then Dispatch(s', b) else s'
  }

  function Update(s: Flow, c: nat): Flow
    requires c < |s.trees|
  {
    s.(trees := s.trees[c := true])
  }

  /** The last reply: all waiting gathers are answered and nothing is kept for the flow. */
  function Complete(s: Flow): Flow {
    Idle(|s.waiting|).(arrived := s.arrived, answered := s.answered + Real(s.waiting))
  }

  function Reply(s: Flow, c: nat): Flow
    requires s.barrier.Some? && c < |s.barrier.value.per|
  {
    var b := s.barrier.value;
    var b' := b.(count := b.count - b.per[c], per := b.per[c := -1]);
    var s' := s.(barrier := Some(b'), gets := s.gets - {c});
    if b'.count == 0 then Complete(s') else s'
  }

  // ---------------------------------------------------------------- the invariant

  /** The threads behind these gathers. */
  function Threads(m: multiset<Gather>): set<nat> {
    set g | g in m :: g.thread
  }

  /** No thread waits twice. */
  ghost predicate OneEach(m: multiset<Gather>, threads: nat) {
    |Threads(m)| == |m| && forall g :: g in m ==> g.thread < threads
  }

  ghost predicate Collecting(s: Flow, b: Barrier) {
    && |b.per| == |s.waiting| && 1 <= b.count < b.threads && |Real(s.waiting)| == b.count
    && (forall i :: 0 <= i < |s.waiting| ==> b.per[i] == |s.waiting[i]|)
    && NoDummies(s.waiting)
  }

  ghost predicate NoDummies(waiting: seq<seq<Gather>>) {
    forall i, k :: 0 <= i < |waiting| && 0 <= k < |waiting[i]| ==> !waiting[i][k].dummy
  }

  ghost predicate Draining(s: Flow, b: Barrier) {
    && |b.per| == |s.waiting| && |Real(s.waiting)| == b.threads && b.count == |s.gets|
    && (forall i :: i in s.gets ==> i < |b.per|)
    && (forall i :: 0 <= i < |b.per| ==> (b.per[i] == 1 <==> i in s.gets) && -1 <= b.per[i] <= 1)
    && (forall i :: 0 <= i < |b.per| && b.per[i] != 0 ==> s.waiting[i] != [])
  }

  ghost predicate BarrierOk(s: Flow) {
    match s.barrier
    case None => s.gets == {} && forall i :: 0 <= i < |s.waiting| ==> s.waiting[i] == []
    case Some(b) =>
      OneEach(Real(s.waiting), b.threads) && if s.gets == {} then Collecting(s, b) else Draining(s, b)
  }

  ghost predicate Inv(s: Flow) {
    |s.trees| == |s.waiting| && BarrierOk(s) && s.arrived == Real(s.waiting) + s.answered
  }

  datatype Label = ArriveL(c: nat, g: Gather, threads: nat) | UpdateL(c: nat) | ReplyL(c: nat)

  /** A thread has one gather outstanding per flow, all threads agree on their number, and an ACTIVE_GET is answered
      once. */
  ghost predicate Enabled(s: Flow, l: Label) {
    Shaped(s) &&
    match l
    case ArriveL(c, g, threads) =>
      c < |s.waiting| && !g.dummy && g.thread < threads && g.thread !in Threads(Real(s.waiting))
      && (s.barrier.Some? ==> threads == s.barrier.value.threads)
    case UpdateL(c) => c < |s.trees|
    case ReplyL(c) => c in s.gets && s.barrier.Some? && c < |s.waiting|
  }

  predicate Updated(trees: seq<bool>) {
    exists i :: 0 <= i < |trees| && trees[i]
  }

  /** This arrival completes the count. */
  ghost predicate Last(s: Flow, l: Label)
    requires Enabled(s, l)
  {
    l.ArriveL? && Counted(s, l.c, l.threads).count == l.threads
  }

  /** And when the last thread arrives some tree is active; earlier arrivals may come before the first update. */
  ghost predicate Permitted(s: Flow, l: Label) {
    Enabled(s, l) && (Last(s, l) ==> Updated(s.trees))
  }

  ghost function Next(s: Flow, l: Label): Flow
    requires Enabled(s, l)
  {
    match l
    case ArriveL(c, g, threads) => Arrive(s, c, g, threads)
    case UpdateL(c) => Update(s, c)
    case ReplyL(c) => Reply(s, c)
  }

  // ---------------------------------------------------------------- threads

  function Below(n: nat): (r: set<nat>)
    ensures |r| == n && forall x: nat :: x in r <==> x < n
  {
    if n == 0 then {} else Below(n - 1) + {n - 1}
  }

  /** Fewer gathers than threads: some thread is not waiting. */
  lemma SomeoneMissing(m: multiset<Gather>, threads: nat) returns (t: nat)
    requires OneEach(m, threads) && |m| < threads
    ensures t < threads && t !in Threads(m)
  {
    if Below(threads) <= Threads(m) { Smaller(Below(threads), Threads(m)); }
    t :| t in Below(threads) && t !in Threads(m);
  }

  lemma {:induction false} Smaller(a: set<nat>, b: set<nat>)
    requires a <= b
    ensures |a| <= |b| && (|a| == |b| ==> a == b)
  {
    if a != {} {
      var x :| x in a;
      Smaller(a - {x}, b - {x});
      assert a == a - {x} + {x} && b == b - {x} + {x};
    } else if |b| == 0 {
      assert b == {};
    }
  }

  /** As many gathers as threads: everyone is waiting. */
  lemma EveryoneWaits(m: multiset<Gather>, threads: nat, t: nat)
    requires OneEach(m, threads) && |m| == threads && t < threads
    ensures t in Threads(m)
  {
    assert Threads(m) <= Below(threads);
    Smaller(Threads(m), Below(threads));
  }

  lemma OneMoreEach(m: multiset<Gather>, g: Gather, threads: nat)
    requires OneEach(m, threads) && g.thread < threads && g.thread !in Threads(m)
    ensures OneEach(m + multiset{g}, threads)
  {
    var m' := m + multiset{g};
    assert Threads(m') == Threads(m) + {g.thread} by {
      forall x | x in Threads(m) + {g.thread} ensures x in Threads(m') {
        if x == g.thread { assert g in m'; } else { var h :| h in m && h.thread == x; assert h in m'; }
      }
    }
  }

  // ---------------------------------------------------------------- counting gathers

  lemma RealAtAppend(w: seq<Gather>, g: Gather)
    requires !g.dummy
    ensures RealAt(w + [g]) == RealAt(w) + multiset{g}
  {
    assert (w + [g])[..|w|] == w;
  }

  /** Replacing one controller's list changes the total by the difference of its real gathers. */
  lemma {:induction false} RealUpdate(waiting: seq<seq<Gather>>, c: nat, w: seq<Gather>, extra: multiset<Gather>)
    requires c < |waiting| && RealAt(w) == RealAt(waiting[c]) + extra
    ensures Real(waiting[c := w]) == Real(waiting) + extra
  {
    var n := |waiting|;
    var after := waiting[c := w];
    if c == n - 1 {
      assert after[..n-1] == waiting[..n-1];
    } else {
      RealUpdate(waiting[..n-1], c, w, extra);
      assert after[..n-1] == waiting[..n-1][c := w];
    }
  }

  lemma {:induction false} RealSame(waiting: seq<seq<Gather>>, waiting': seq<seq<Gather>>)
    requires |waiting| == |waiting'| && forall i :: 0 <= i < |waiting| ==> RealAt(waiting'[i]) == RealAt(waiting[i])
    ensures Real(waiting') == Real(waiting)
  {
    var n := |waiting|;
    if n > 0 { RealSame(waiting[..n-1], waiting'[..n-1]); }
  }

  lemma {:induction false} RealEmpty(waiting: seq<seq<Gather>>)
    requires forall i :: 0 <= i < |waiting| ==> waiting[i] == []
    ensures Real(waiting) == multiset{}
  {
    if waiting != [] { RealEmpty(waiting[..|waiting|-1]); }
  }

  lemma DummyIsNotReal()
    ensures RealAt([DUMMY]) == multiset{}
  {
    assert [DUMMY][..0] == [];
  }

  // ---------------------------------------------------------------- every operation keeps it

  /** Once the barrier is open nobody arrives: every thread is waiting already. */
  lemma NoArrivalWhileDraining(s: Flow, l: Label)
    requires Inv(s) && Enabled(s, l) && s.gets != {}
    ensures !l.ArriveL?
  {
    if l.ArriveL? { EveryoneWaits(Real(s.waiting), l.threads, l.g.thread); }
  }

  /** Before the barrier opens: one more arrival is counted, in total and at its controller. */
  lemma ArrivalCounted(s: Flow, c: nat, g: Gather, threads: nat)
    requires Inv(s) && Enabled(s, ArriveL(c, g, threads))
    ensures s.gets == {}
    ensures
      var w := s.waiting[c := s.waiting[c] + [g]];
      Real(w) == Real(s.waiting) + multiset{g} && OneEach(Real(w), threads)
      && |Real(w)| == Counted(s, c, threads).count <= threads
  {
    if s.gets != {} { NoArrivalWhileDraining(s, ArriveL(c, g, threads)); }
    RealAtAppend(s.waiting[c], g);
    RealUpdate(s.waiting, c, s.waiting[c] + [g], multiset{g});
    if s.barrier.None? { RealEmpty(s.waiting); }
    OneMoreEach(Real(s.waiting), g, threads);
  }

  /** Dispatching neither adds nor loses a real gather. */
  lemma DispatchKeepsReal(s: Flow, b: Barrier)
    requires |s.trees| == |s.waiting|
    ensures Real(Dispatch(s, b).waiting) == Real(s.waiting)
  {
    DummyIsNotReal();
    RealSame(s.waiting, Dispatch(s, b).waiting);
  }

  lemma DispatchDrains(s: Flow, b: Barrier)
    requires |s.trees| == |s.waiting| && |Real(s.waiting)| == b.threads && OneEach(Real(s.waiting), b.threads)
    requires Updated(s.trees)
    ensures Dispatch(s, b).gets != {} && BarrierOk(Dispatch(s, b))
  {
    hide Real, OneEach, Threads;
    DispatchKeepsReal(s, b);
    var i :| 0 <= i < |s.trees| && s.trees[i];
    assert i in Active(s.trees, |s.trees|);
  }

  lemma PerControllerCounted(s: Flow, c: nat, g: Gather, threads: nat)
    requires Inv(s) && c < |s.waiting| && s.gets == {} && !g.dummy
    ensures
      var w := s.waiting[c := s.waiting[c] + [g]];
      NoDummies(w) && forall i :: 0 <= i < |w| ==> Counted(s, c, threads).per[i] == |w[i]|
  {
  }

  lemma CollectsOneMore(s: Flow, c: nat, g: Gather, threads: nat)
    requires Inv(s) && Enabled(s, ArriveL(c, g, threads)) && Counted(s, c, threads).count < threads
    ensures Inv(Arrive(s, c, g, threads)) && Arrive(s, c, g, threads).gets == {}
  {
    ArrivalCounted(s, c, g, threads);
    PerControllerCounted(s, c, g, threads);
    var b := Counted(s, c, threads);
    assert Arrive(s, c, g, threads) == Joined(s, c, g, b) && b.threads == threads;
  }

  lemma LastOneArrives(s: Flow, c: nat, g: Gather, threads: nat)
    requires Inv(s) && Enabled(s, ArriveL(c, g, threads)) && Counted(s, c, threads).count == threads && Updated(s.trees)
    ensures Inv(Arrive(s, c, g, threads)) && Arrive(s, c, g, threads).gets == Active(s.trees, |s.trees|) != {}
  {
    hide Real, OneEach, Threads;
    ArrivalCounted(s, c, g, threads);
    var b := Counted(s, c, threads);
    DispatchDrains(Joined(s, c, g, b), b);
    DispatchKeepsReal(Joined(s, c, g, b), b);
  }

  lemma ArriveKeeps(s: Flow, c: nat, g: Gather, threads: nat)
    requires Inv(s) && Permitted(s, ArriveL(c, g, threads))
    ensures Inv(Arrive(s, c, g, threads))
  {
    ArrivalCounted(s, c, g, threads);
    if Counted(s, c, threads).count == threads {
      LastOneArrives(s, c, g, threads);
    } else {
      CollectsOneMore(s, c, g, threads);
    }
  }

  lemma LastFindsNoTree(s: Flow, c: nat, g: Gather, threads: nat)
    requires Inv(s) && Enabled(s, ArriveL(c, g, threads))
    requires Counted(s, c, threads).count == threads && !Updated(s.trees)
    ensures !Inv(Arrive(s, c, g, threads))
  {
    var s' := Arrive(s, c, g, threads);
    assert Active(s.trees, |s.trees|) == {};
    assert s'.gets == {} && s'.barrier.value.count == 0;
  }

  lemma LastReplyKeeps(s: Flow, c: nat)
    requires Inv(s) && Enabled(s, ReplyL(c)) && s.gets == {c}
    ensures Inv(Reply(s, c)) && Reply(s, c).barrier.None?
  {
    assert s.barrier.value.per[c] == 1 && s.barrier.value.count == 1;
    RealEmpty(Idle(|s.waiting|).waiting);
  }

  lemma OtherReplyKeeps(s: Flow, c: nat)
    requires Inv(s) && Enabled(s, ReplyL(c)) && s.gets != {c}
    ensures Inv(Reply(s, c)) && Reply(s, c).barrier.Some? && Reply(s, c).gets == s.gets - {c}
  {
    var rest := s.gets - {c};
    assert s.gets == rest + {c};
    assert rest != {} && |rest| == |s.gets| - 1;
    assert s.barrier.value.per[c] == 1;
  }

  lemma ReplyKeeps(s: Flow, c: nat)
    requires Inv(s) && Enabled(s, ReplyL(c))
    ensures Inv(Reply(s, c))
    ensures Reply(s, c).barrier.None? <==> s.gets == {c}
  {
    if s.gets == {c} { LastReplyKeeps(s, c); } else { OtherReplyKeeps(s, c); }
  }

  /** What the code asserts: a gather finds fewer than `nthreads` counted, a reply finds the barrier, on the last reply
      every controller has either answered or had nothing to answer, and only real gathers wait when the barrier
      opens. */
  lemma AssertionsHold(s: Flow, l: Label)
    requires Inv(s) && Enabled(s, l)
    ensures l.ArriveL? ==> (s.barrier.Some? ==> s.barrier.value.count < l.threads) && NoDummies(s.waiting)
    ensures l.ReplyL? && s.gets == {l.c} ==>
              forall i :: 0 <= i < |s.waiting| && i != l.c ==> -1 <= s.barrier.value.per[i] <= 0
  {
    if l.ArriveL? && s.gets != {} { NoArrivalWhileDraining(s, l); }
  }

  /** Every step keeps the invariant, if and only if it is not the last arrival for a flow without an active tree. */
  lemma StepKeeps(s: Flow, l: Label)
    requires Inv(s) && Enabled(s, l)
    ensures Inv(Next(s, l)) <==> Permitted(s, l)
  {
    match l
    case ArriveL(c, g, threads) =>
      if Permitted(s, l) { ArriveKeeps(s, c, g, threads); } else { LastFindsNoTree(s, c, g, threads); }
    case UpdateL(c) =>
    case ReplyL(c) => ReplyKeeps(s, c);
  }

  // ---------------------------------------------------------------- what threads see

  /** Gathers are answered by one step only: the reply of the last tree that was asked, when all threads have arrived.
      That step answers every waiting gather and leaves nothing behind. */
  lemma AnswersComeTogether(s: Flow, l: Label)
    requires Inv(s) && Permitted(s, l) && Next(s, l).answered != s.answered
    ensures l.ReplyL? && s.gets == {l.c} && |Real(s.waiting)| == s.barrier.value.threads
    ensures Next(s, l) == Idle(|s.waiting|).(arrived := s.arrived, answered := s.answered + Real(s.waiting))
  {
    assert l.ReplyL?;
    ReplyKeeps(s, l.c);
  }

  ghost predicate StepAt(states: seq<Flow>, labels: seq<Label>, i: nat)
    requires |states| == |labels| + 1 && i < |labels|
  {
    Permitted(states[i], labels[i]) && states[i+1] == Next(states[i], labels[i])
  }

  ghost predicate Run(states: seq<Flow>, labels: seq<Label>, n: nat) {
    && |states| == |labels| + 1 && states[0] == Idle(n)
    && forall i {:trigger StepAt(states, labels, i)} :: 0 <= i < |labels| ==> StepAt(states, labels, i)
  }

  /** In every run, for any number of threads, controllers and rounds. */
  lemma {:induction false} RunInvariant(states: seq<Flow>, labels: seq<Label>, n: nat, i: nat)
    requires Run(states, labels, n) && i < |states|
    ensures Inv(states[i]) && |states[i].trees| == n
  {
    if i == 0 {
      RealEmpty(Idle(n).waiting);
    } else {
      RunInvariant(states, labels, n, i - 1);
      assert StepAt(states, labels, i - 1);
      StepKeeps(states[i-1], labels[i-1]);
    }
  }

  /** Step i answers gathers. */
  ghost predicate AnswersAt(states: seq<Flow>, labels: seq<Label>, n: nat, i: nat) {
    Run(states, labels, n) && i < |labels| && states[i+1].answered != states[i].answered
  }

  /** In every run, whenever some gather is answered, all threads have arrived; the step answers all of them at once and
      resets the flow. */
  lemma NoEarlyAnswer(states: seq<Flow>, labels: seq<Label>, n: nat, i: nat)
    requires AnswersAt(states, labels, n, i)
    ensures labels[i].ReplyL? && states[i].gets == {labels[i].c} && states[i].barrier.Some?
    ensures |Real(states[i].waiting)| == states[i].barrier.value.threads
    ensures forall t: nat :: t < states[i].barrier.value.threads ==> t in Threads(Real(states[i].waiting))
    ensures states[i+1].answered == states[i].answered + Real(states[i].waiting) == states[i+1].arrived
    ensures states[i+1] == Idle(|states[i].waiting|).(arrived := states[i].arrived, answered := states[i+1].answered)
  {
    RunInvariant(states, labels, n, i);
    RunInvariant(states, labels, n, i + 1);
    assert StepAt(states, labels, i);
    AnswersComeTogether(states[i], labels[i]);
    RealEmpty(states[i+1].waiting);
    forall t: nat | t < states[i].barrier.value.threads ensures t in Threads(Real(states[i].waiting)) {
      EveryoneWaits(Real(states[i].waiting), states[i].barrier.value.threads, t);
    }
  }

  /** In every run a gather is answered at most as often as it arrived, and exactly as often once the
      flow has no barrier. */
  lemma AnsweredOnce(states: seq<Flow>, labels: seq<Label>, n: nat, i: nat)
    requires Run(states, labels, n) && i < |states|
    ensures states[i].answered <= states[i].arrived
    ensures states[i].barrier.None? ==> states[i].answered == states[i].arrived
  {
    RunInvariant(states, labels, n, i);
    if states[i].barrier.None? { RealEmpty(states[i].waiting); }
  }

  // ---------------------------------------------------------------- what trees do

  function RepliedIn(ls: seq<Label>): set<nat> {
    set l | l in ls && l.ReplyL? :: l.c
  }

  function UpdatedIn(ls: seq<Label>): set<nat> {
    set l | l in ls && l.UpdateL? :: l.c
  }

  lemma OneMoreLabel(ls: seq<Label>, l: Label)
    ensures RepliedIn(ls + [l]) == RepliedIn(ls) + if l.ReplyL? then {l.c} else {}
    ensures UpdatedIn(ls + [l]) == UpdatedIn(ls) + if l.UpdateL? then {l.c} else {}
  {
    forall x | x in ls + [l] ensures x in ls || x == l {}
    assert forall x :: x in ls ==> x in ls + [l];
    assert (ls + [l])[|ls|] == l;
  }

  function ActiveTrees(s: Flow): set<nat> {
    Active(s.trees, |s.trees|)
  }

  /** The barrier opens at step k and is not taken down before step m. */
  ghost predicate OpenBetween(states: seq<Flow>, labels: seq<Label>, n: nat, k: nat, m: nat) {
    && Run(states, labels, n) && k < m < |states|
    && labels[k].ArriveL? && states[k].gets == {}
    && forall j :: k < j <= m ==> states[j].gets != {}
  }

  lemma UpdateGrows(s: Flow, c: nat)
    requires c < |s.trees|
    ensures ActiveTrees(Update(s, c)) == ActiveTrees(s) + {c}
  {
  }

  /** One step while the barrier is open. */
  lemma OpenStep(s: Flow, l: Label)
    requires Inv(s) && Permitted(s, l) && s.gets != {} && Next(s, l).gets != {}
    ensures Next(s, l).gets == s.gets - if l.ReplyL? then {l.c} else {}
    ensures ActiveTrees(Next(s, l)) == ActiveTrees(s) + if l.UpdateL? then {l.c} else {}
  {
    NoArrivalWhileDraining(s, l);
    if l.UpdateL? { UpdateGrows(s, l.c); }
  }

  lemma Opening(s: Flow, l: Label)
    requires Inv(s) && Permitted(s, l) && s.gets == {} && Next(s, l).gets != {}
    ensures l.ArriveL? && Next(s, l).gets == ActiveTrees(Next(s, l))
  {
    ArrivalCounted(s, l.c, l.g, l.threads);
  }

  lemma StepWhileOpen(states: seq<Flow>, labels: seq<Label>, n: nat, i: nat)
    requires Run(states, labels, n) && i < |labels| && states[i].gets != {} && states[i+1].gets != {}
    ensures states[i+1].gets == states[i].gets - if labels[i].ReplyL? then {labels[i].c} else {}
    ensures labels[i].ReplyL? ==> labels[i].c in states[i].gets
    ensures ActiveTrees(states[i+1]) == ActiveTrees(states[i]) + if labels[i].UpdateL? then {labels[i].c} else {}
  {
    RunInvariant(states, labels, n, i);
    assert StepAt(states, labels, i);
    OpenStep(states[i], labels[i]);
  }

  lemma StepThatOpens(states: seq<Flow>, labels: seq<Label>, n: nat, i: nat)
    requires Run(states, labels, n) && i < |labels| && states[i].gets == {} && states[i+1].gets != {}
    ensures labels[i].ArriveL? && states[i+1].gets == ActiveTrees(states[i+1])
  {
    RunInvariant(states, labels, n, i);
    assert StepAt(states, labels, i);
    Opening(states[i], labels[i]);
  }

  /** While the barrier is open, the trees still expected are those that were active when it opened and have not
      replied, and the active trees are those and the ones updated since. */
  lemma {:induction false} SinceOpening(states: seq<Flow>, labels: seq<Label>, n: nat, k: nat, m: nat)
    requires OpenBetween(states, labels, n, k, m)
    ensures states[m].gets == ActiveTrees(states[k+1]) - RepliedIn(labels[k+1..m])
    ensures RepliedIn(labels[k+1..m]) <= ActiveTrees(states[k+1])
    ensures ActiveTrees(states[m]) == ActiveTrees(states[k+1]) + UpdatedIn(labels[k+1..m])
  {
    if m == k + 1 {
      assert labels[k+1..m] == [];
      StepThatOpens(states, labels, n, k);
    } else {
      assert OpenBetween(states, labels, n, k, m - 1);
      SinceOpening(states, labels, n, k, m - 1);
      StepWhileOpen(states, labels, n, m - 1);
      assert labels[k+1..m] == labels[k+1..m-1] + [labels[m-1]];
      OneMoreLabel(labels[k+1..m-1], labels[m-1]);
    }
  }

  /** The barrier that is open at step m was opened at some step before. */
  lemma {:induction false} WhenOpened(states: seq<Flow>, labels: seq<Label>, n: nat, m: nat) returns (k: nat)
    requires Run(states, labels, n) && m < |states| && states[m].gets != {}
    ensures OpenBetween(states, labels, n, k, m)
  {
    if states[m-1].gets == {} {
      StepThatOpens(states, labels, n, m - 1);
      k := m - 1;
    } else {
      k := WhenOpened(states, labels, n, m - 1);
    }
  }

  /** In every run, when gathers are answered, exactly the trees that were active when the barrier opened have replied
      since then.  That these are all the trees active by now holds if and only if no other tree was updated in
      between. */
  lemma TreesHaveReplied(states: seq<Flow>, labels: seq<Label>, n: nat, i: nat) returns (k: nat)
    requires AnswersAt(states, labels, n, i)
    ensures OpenBetween(states, labels, n, k, i)
    ensures RepliedIn(labels[k+1..i+1]) == ActiveTrees(states[k+1])
    ensures ActiveTrees(states[i]) <= RepliedIn(labels[k+1..i+1])
       <==> UpdatedIn(labels[k+1..i]) <= ActiveTrees(states[k+1])
  {
    NoEarlyAnswer(states, labels, n, i);
    k := WhenOpened(states, labels, n, i);
    SinceOpening(states, labels, n, k, i);
    assert labels[k+1..i+1] == labels[k+1..i] + [labels[i]];
    OneMoreLabel(labels[k+1..i], labels[i]);
  }

  const LONE := Gather(0, 0, false)

  /** A tree that becomes active while the barrier is open is forgotten without ever having been asked. */
  lemma LateTreeForgotten() returns (states: seq<Flow>, labels: seq<Label>)
    ensures AnswersAt(states, labels, 2, 3) && states[4].answered == multiset{LONE}
    ensures ActiveTrees(states[3]) == {0, 1} && RepliedIn(labels) == {0} && ActiveTrees(states[4]) == {}
  {
    hide RepliedIn, ActiveTrees, Dispatch, Complete, Joined;
    hide Run, Permitted, Arrive, Reply, ActiveTrees, RepliedIn;
    labels := [UpdateL(0), ArriveL(0, LONE, 1), UpdateL(1), ReplyL(0)];
    assert Permitted(Idle(2), UpdateL(0)) by { FirstUpdate(); }
    var s1 := Update(Idle(2), 0);
    var s2 := Arrive(s1, 0, LONE, 1);
    LoneGather(s1, s2);
    var s4 := LateReply(s2);
    states := [Idle(2), s1, s2, Update(s2, 1), s4];
    FourSteps(states, labels);
    OnlyReply(labels);
  }

  lemma FirstUpdate()
    ensures Permitted(Idle(2), UpdateL(0))
  {
  }

  lemma FourSteps(states: seq<Flow>, labels: seq<Label>)
    requires |states| == 5 && |labels| == 4 && states[0] == Idle(2)
    requires Permitted(states[0], labels[0]) && states[1] == Next(states[0], labels[0])
    requires Permitted(states[1], labels[1]) && states[2] == Next(states[1], labels[1])
    requires Permitted(states[2], labels[2]) && states[3] == Next(states[2], labels[2])
    requires Permitted(states[3], labels[3]) && states[4] == Next(states[3], labels[3])
    ensures Run(states, labels, 2)
  {
    hide Next, Enabled;
    assert StepAt(states, labels, 0) && StepAt(states, labels, 1);
    assert StepAt(states, labels, 2) && StepAt(states, labels, 3);
  }

  lemma OnlyReply(labels: seq<Label>)
    requires labels == [UpdateL(0), ArriveL(0, LONE, 1), UpdateL(1), ReplyL(0)]
    ensures RepliedIn(labels) == {0}
  {
    assert labels[3] == ReplyL(0);
  }

  lemma LateReply(s2: Flow) returns (s4: Flow)
    requires s2.gets == {0} && s2.trees == [true, false] && |s2.waiting| == 2 && s2.answered == multiset{}
    requires s2.barrier == Some(Barrier(1, 1, [1, 0])) && Real(s2.waiting) == multiset{LONE}
    ensures Permitted(s2, UpdateL(1)) && Permitted(Update(s2, 1), ReplyL(0)) && s4 == Reply(Update(s2, 1), 0)
    ensures s4.answered == multiset{LONE} && ActiveTrees(Update(s2, 1)) == {0, 1} && ActiveTrees(s4) == {}
  {
    s4 := Reply(Update(s2, 1), 0);
    assert Update(s2, 1).trees == [true, true];
    assert s4 == Complete(Update(s2, 1).(barrier := Some(Barrier(1, 0, [-1, 0])), gets := {}));
  }

  lemma LoneGather(s1: Flow, s2: Flow)
    requires s1 == Update(Idle(2), 0) && s2 == Arrive(s1, 0, LONE, 1)
    ensures Permitted(s1, ArriveL(0, LONE, 1)) && s2.gets == {0} && s2.trees == [true, false] && |s2.waiting| == 2
    ensures s2.barrier == Some(Barrier(1, 1, [1, 0])) && Real(s2.waiting) == multiset{LONE} && s2.answered == multiset{}
  {
    hide Counted, Real;
    var b := Barrier(1, 1, [1, 0]);
    MayArrive(s1);
    assert s1.trees == [true, false] && s1.waiting[0] == [];
    assert Active(s1.trees, 2) == {0};
    ArrivedAlone(s1);
    assert s1.waiting[0] + [LONE] == [LONE];
    assert s2 == Dispatch(Joined(s1, 0, LONE, b), b);
    assert s2.barrier.value.per == [1, 0];
    DispatchKeepsReal(Joined(s1, 0, LONE, b), b);
  }

  lemma MayArrive(s: Flow)
    requires s == Update(Idle(2), 0)
    ensures Permitted(s, ArriveL(0, LONE, 1))
  {
    RealEmpty(s.waiting);
    assert s.trees[0];
  }

  lemma ArrivedAlone(s: Flow)
    requires s == Update(Idle(2), 0)
    ensures Counted(s, 0, 1) == Barrier(1, 1, [1, 0])
    ensures Real(s.waiting[0 := [LONE]]) == multiset{LONE}
  {
    RealEmpty(s.waiting);
    RealAtAppend([], LONE);
    assert [] + [LONE] == [LONE];
    RealUpdate(s.waiting, 0, [LONE], multiset{LONE});
  }

  // ---------------------------------------------------------------- progress

  /** How many more arrivals and replies the barrier can take. */
  function Left(s: Flow): int {
    if s.barrier.None? then 0
    else if s.gets == {} then s.barrier.value.threads - s.barrier.value.count + |s.waiting|
    else |s.gets|
  }

  lemma ActiveFew(trees: seq<bool>, upto: nat)
    requires upto <= |trees|
    ensures |Active(trees, upto)| <= upto
  {
    assert Active(trees, upto) <= Below(upto);
    Smaller(Active(trees, upto), Below(upto));
  }

  /** While the barrier is up, every arrival and every reply brings it closer to being taken down; updates leave it
      where it is; and it is down when nothing is left. */
  lemma EveryStepCounts(s: Flow, l: Label)
    requires Inv(s) && Permitted(s, l) && s.barrier.Some?
    ensures 0 < Left(s)
    ensures if l.UpdateL? then Left(Next(s, l)) == Left(s) else 0 <= Left(Next(s, l)) < Left(s)
    ensures Left(Next(s, l)) == 0 <==> Next(s, l).barrier.None?
  {
    match l
    case ArriveL(c, g, threads) =>
      ArrivalCounted(s, c, g, threads);
      ActiveFew(s.trees, |s.trees|);
      if Counted(s, c, threads).count == threads {
        LastOneArrives(s, c, g, threads);
      }
    case UpdateL(c) =>
    case ReplyL(c) =>
      ReplyKeeps(s, c);
      assert |s.gets - {c}| == |s.gets| - 1;
  }

  /** Only one thread is missing, and no tree is active yet. */
  ghost predicate AwaitsUpdate(s: Flow) {
    s.barrier.Some? && s.gets == {} && s.barrier.value.count + 1 == s.barrier.value.threads && !Updated(s.trees)
  }

  /** And one of those steps is possible, unless the flow awaits its first update: a tree that was asked can reply, or a
      thread that is missing can arrive, at any controller. */
  lemma NoDeadlock(s: Flow, c: nat)
    requires Inv(s) && s.barrier.Some? && c < |s.waiting|
    ensures (exists l: Label :: !l.UpdateL? && Permitted(s, l) && (l.ArriveL? ==> l.c == c)) <==> !AwaitsUpdate(s)
    ensures Permitted(s, UpdateL(c)) && !AwaitsUpdate(Update(s, c))
  {
    assert Update(s, c).trees[c];
    if AwaitsUpdate(s) {
    } else if s.gets == {} {
      var t := SomeoneMissing(Real(s.waiting), s.barrier.value.threads);
      assert Permitted(s, ArriveL(c, Gather(0, t, false), s.barrier.value.threads));
    } else {
      var i :| i in s.gets;
      assert Permitted(s, ReplyL(i));
    }
  }

  function CountSteps(ls: seq<Label>): nat {
    if ls == [] then 0 else CountSteps(ls[..|ls|-1]) + if ls[|ls|-1].UpdateL? then 0 else 1
  }

  lemma LeftAt(states: seq<Flow>, labels: seq<Label>, n: nat, i: nat)
    requires Run(states, labels, n) && i < |states|
    ensures 0 <= Left(states[i]) && (Left(states[i]) == 0 <==> states[i].barrier.None?)
  {
    RunInvariant(states, labels, n, i);
  }

  lemma StepCountsAt(states: seq<Flow>, labels: seq<Label>, n: nat, i: nat)
    requires Run(states, labels, n) && i < |labels| && states[i].barrier.Some?
    ensures Left(states[i+1]) <= Left(states[i]) - if labels[i].UpdateL? then 0 else 1
    ensures 0 <= Left(states[i+1]) && (Left(states[i+1]) == 0 <==> states[i+1].barrier.None?)
  {
    RunInvariant(states, labels, n, i);
    assert StepAt(states, labels, i);
    EveryStepCounts(states[i], labels[i]);
  }

  /** Hence a barrier that is up is down again after at most `Left` arrivals and replies. */
  lemma {:induction false} BarrierComesDown(states: seq<Flow>, labels: seq<Label>, n: nat, i: nat, j: nat)
    requires Run(states, labels, n) && i <= j < |states|
    requires forall m :: i <= m < j ==> states[m].barrier.Some?
    ensures CountSteps(labels[i..j]) + Left(states[j]) <= Left(states[i])
    ensures 0 <= Left(states[j]) && (Left(states[j]) == 0 <==> states[j].barrier.None?)
  {
    if i == j {
      assert labels[i..j] == [];
      LeftAt(states, labels, n, i);
    } else {
      BarrierComesDown(states, labels, n, i, j - 1);
      StepCountsAt(states, labels, n, j - 1);
      assert labels[i..j][..j-1-i] == labels[i..j-1];
      assert labels[i..j][j-1-i] == labels[j-1];
    }
  }

  // ---------------------------------------------------------------- gathers without updates

  /** Everyone waits and nobody was asked. */
  ghost predicate Stuck(s: Flow) {
    && Shaped(s) && s.barrier.Some? && s.gets == {}
    && OneEach(Real(s.waiting), s.barrier.value.threads) && |Real(s.waiting)| == s.barrier.value.threads
  }

  lemma NobodyAsked(s: Flow, b: Barrier)
    requires |s.trees| == |s.waiting| && !Updated(s.trees)
    requires OneEach(Real(s.waiting), b.threads) && |Real(s.waiting)| == b.threads
    ensures Stuck(Dispatch(s, b))
  {
    DispatchKeepsReal(s, b);
    assert Active(s.trees, |s.trees|) == {};
  }

  /** The last arrival is stuck if and only if no tree is active. */
  lemma GatherWithoutUpdateHangs(s: Flow, c: nat, g: Gather, threads: nat)
    requires Inv(s) && Enabled(s, ArriveL(c, g, threads)) && Counted(s, c, threads).count == threads
    ensures Stuck(Arrive(s, c, g, threads)) <==> !Updated(s.trees)
  {
    if Updated(s.trees) {
      LastOneArrives(s, c, g, threads);
    } else {
      ArrivalCounted(s, c, g, threads);
      var b := Counted(s, c, threads);
      assert b.threads == threads;
      NobodyAsked(Joined(s, c, g, b), b);
    }
  }

  /** Whatever happens then, and even if the flow is updated later, no gather is ever answered. */
  lemma {:induction false} StuckForEver(states: seq<Flow>, labels: seq<Label>, i: nat)
    requires |states| == |labels| + 1 && Stuck(states[0]) && i < |states|
    requires forall j :: 0 <= j < |labels| ==>
      Enabled(states[j], labels[j]) && states[j+1] == Next(states[j], labels[j])
    ensures Stuck(states[i]) && states[i].waiting == states[0].waiting && states[i].answered == states[0].answered
  {
    if i > 0 {
      StuckForEver(states, labels, i - 1);
      var s, l := states[i-1], labels[i-1];
      if l.ArriveL? { EveryoneWaits(Real(s.waiting), l.threads, l.g.thread); }
      assert l.UpdateL?;
    }
  }
}
