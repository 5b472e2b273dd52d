/** The memory-network controllers as the simulator runs them: the barrier and forest maps they share,
    and each controller's own waiting gathers, outgoing transactions and responses.  Every call is
    proved to move its flow as `GatherBarrier` says and to leave all other flows alone. */
module HmcControllers {
  import opened Basics
  import opened EventLists
  import opened GatherBarrier

  /** History of a flow that no map holds. */
  datatype Tally = Tally(gets: set<nat>, arrived: multiset<Gather>, answered: multiset<Gather>)

  const NO_TALLY := Tally({}, multiset{}, multiset{})

  /** active_forests has four entries per flow, whatever the number of controllers. */
  const FOREST_SIZE := 4

  /** The waiting gathers of a flow, controller by controller. */
  function Rows(waiting: seq<Events<Gather>>, flow: nat): (r: seq<seq<Gather>>)
    ensures |r| == |waiting| && forall i :: 0 <= i < |r| ==> r[i] == At(waiting[i], flow)
  {
    seq(|waiting|, i requires 0 <= i < |waiting| => At(waiting[i], flow))
  }

  function Trees(forests: map<nat, seq<bool>>, flow: nat, n: nat): (r: seq<bool>)
    requires n <= FOREST_SIZE && (flow in forests ==> |forests[flow]| == FOREST_SIZE)
    ensures |r| == n
  {
    if flow in forests then forests[flow][..n] else seq(n, _ => false)
  }

  function RealOnes(w: seq<Gather>): seq<Gather> {
    if w == [] then []
    else RealOnes(w[..|w|-1]) + if w[|w|-1].dummy then [] else [w[|w|-1]]
  }

  lemma {:induction false} RealOnesCounted(w: seq<Gather>)
    ensures multiset(RealOnes(w)) == RealAt(w)
  {
    if w != [] { RealOnesCounted(w[..|w|-1]); }
  }

  lemma OneReal(g: Gather)
    ensures RealOnes([g]) == if g.dummy then [] else [g]
  {
    assert [g][..0] == [];
  }

  /** Real gathers stay in order. */
  lemma {:induction false} RealOnesInOrder(a: seq<Gather>, b: seq<Gather>)
    ensures RealOnes(a + b) == RealOnes(a) + RealOnes(b)
  {
    if b == [] {
      assert a + b == a;
    } else {
      RealOnesInOrder(a, b[..|b|-1]);
      assert (a + b)[..|a+b|-1] == a + b[..|b|-1];
    }
  }

  /** Each controller has given the responses it gave before, then its own. */
  ghost predicate RespondedWith(before: seq<seq<Gather>>, after: seq<seq<Gather>>, rows: seq<seq<Gather>>) {
    |before| == |after| == |rows| && forall i :: 0 <= i < |rows| ==> after[i] == before[i] + RealOnes(rows[i])
  }

  /** All responses, whichever controller gives them. */
  function Pile(responses: seq<seq<Gather>>): multiset<Gather> {
    if responses == [] then multiset{}
    else Pile(responses[..|responses|-1]) + multiset(responses[|responses|-1])
  }

  /** If every controller adds its real gathers, all real gathers are added. */
  lemma {:induction false} PileGrows(before: seq<seq<Gather>>, after: seq<seq<Gather>>, rows: seq<seq<Gather>>)
    requires RespondedWith(before, after, rows)
    ensures Pile(after) == Pile(before) + Real(rows)
  {
    var k := |rows|;
    if k > 0 {
      PileGrows(before[..k-1], after[..k-1], rows[..k-1]);
      RealOnesCounted(rows[k-1]);
    }
  }

  lemma ActiveGrows(trees: seq<bool>, i: nat)
    requires i < |trees|
    ensures |Active(trees, i + 1)| == |Active(trees, i)| + if trees[i] then 1 else 0
  {
    if trees[i] {
      assert Active(trees, i + 1) == Active(trees, i) + {i};
    } else {
      assert Active(trees, i + 1) == Active(trees, i);
    }
  }

  /** The two maps agree but for one key. */
  ghost predicate Apart<T>(m: map<nat, T>, m': map<nat, T>, key: nat) {
    forall k :: k != key ==> (k in m' <==> k in m) && (k in m ==> m'[k] == m[k])
  }

  /** What every flow but `flow` waits for is the same in both. */
  ghost predicate Elsewhere(before: seq<Events<Gather>>, after: seq<Events<Gather>>, flow: nat) {
    |before| == |after| && forall j, f :: 0 <= j < |before| && f != flow ==> At(after[j], f) == At(before[j], f)
  }

  lemma AddedElsewhere(waiting: seq<Events<Gather>>, c: nat, flow: nat, g: Gather)
    requires c < |waiting|
    ensures Elsewhere(waiting, waiting[c := Add(waiting[c], flow, g)], flow)
  {
  }

  lemma RowsElsewhere(before: seq<Events<Gather>>, after: seq<Events<Gather>>, flow: nat, f: nat)
    requires Elsewhere(before, after, flow) && f != flow
    ensures Rows(after, f) == Rows(before, f)
  {
  }

  function Projected(barrier: map<nat, Barrier>, forests: map<nat, seq<bool>>, waiting: seq<Events<Gather>>,
                     t: Tally, flow: nat): Flow
    requires |waiting| <= FOREST_SIZE && (flow in forests ==> |forests[flow]| == FOREST_SIZE)
  {
    Flow(if flow in barrier then Some(barrier[flow]) else None, Trees(forests, flow, |waiting|), Rows(waiting, flow),
         t.gets, t.arrived, t.answered)
  }

  /** The barrier, one controller's part of it done: what the opening loop has made of the flow. */
  ghost predicate Opened(before: seq<Events<Gather>>, after: seq<Events<Gather>>,
                         trees: seq<bool>, b: Barrier, flow: nat, i: nat)
  {
    && |before| == |after| == |trees| == |b.per| && i <= |trees|
    && b.count == |Active(trees, i)|
    && (forall j :: 0 <= j < i ==> b.per[j] == if trees[j] then 1 else 0)
    && (forall j :: 0 <= j < i ==>
          At(after[j], flow) == if trees[j] && At(before[j], flow) == [] then [DUMMY] else At(before[j], flow))
    && (forall j :: i <= j < |after| ==> after[j] == before[j])
  }

  lemma OpenedNone(waiting: seq<Events<Gather>>, trees: seq<bool>, b: Barrier, flow: nat)
    requires |waiting| == |trees| == |b.per| && b.count == 0
    ensures Opened(waiting, waiting, trees, b, flow, 0)
  {
    assert Active(trees, 0) == {};
  }

  lemma OpenedNext(before: seq<Events<Gather>>, after: seq<Events<Gather>>, after': seq<Events<Gather>>,
                   trees: seq<bool>, b: Barrier, flow: nat, i: nat)
    requires Opened(before, after, trees, b, flow, i) && i < |trees|
    requires after' == after[i := if trees[i] && At(after[i], flow) == [] then Add(after[i], flow, DUMMY) else after[i]]
    ensures
      var k := if trees[i] then 1 else 0;
      Opened(before, after', trees, b.(count := b.count + k, per := b.per[i := k]), flow, i + 1)
  {
    ActiveGrows(trees, i);
  }

  lemma OpenedAll(before: seq<Events<Gather>>, after: seq<Events<Gather>>, b: Barrier, b': Barrier,
                  trees: seq<bool>, flow: nat, s: Flow)
    requires Opened(before, after, trees, b', flow, |trees|) && b'.threads == b.threads
    requires s.trees == trees && s.waiting == Rows(before, flow)
    ensures
      Dispatch(s, b) == s.(barrier := Some(b'), waiting := Rows(after, flow), gets := Active(trees, |trees|))
  {
    var d := Dispatch(s, b);
    assert d.barrier.value.per == b'.per;
    assert d.waiting == Rows(after, flow);
  }

  /** The last reply, on the maps. */
  lemma FlowCompleted(barrier: map<nat, Barrier>, forests: map<nat, seq<bool>>, waiting: seq<Events<Gather>>,
                      waiting': seq<Events<Gather>>, t: Tally, flow: nat)
    requires |waiting| == |waiting'| <= FOREST_SIZE && (flow in forests ==> |forests[flow]| == FOREST_SIZE)
    requires forall i :: 0 <= i < |waiting'| ==> flow !in waiting'[i]
    ensures
      var s := Projected(barrier, forests, waiting, t, flow);
      Projected(barrier - {flow}, forests - {flow}, waiting', Tally({}, t.arrived, t.answered + Real(s.waiting)), flow)
      == Complete(s)
  {
    assert Rows(waiting', flow) == Idle(|waiting|).waiting;
  }

  /** One more gather, on the maps. */
  lemma FlowCounted(barrier: map<nat, Barrier>, barrier': map<nat, Barrier>, forests: map<nat, seq<bool>>,
                    waiting: seq<Events<Gather>>, t: Tally, flow: nat, c: nat, g: Gather, threads: nat)
    requires c < |waiting| <= FOREST_SIZE && (flow in forests ==> |forests[flow]| == FOREST_SIZE)
    requires flow in barrier ==> |barrier[flow].per| == |waiting|
    requires
      var b := if flow in barrier then barrier[flow] else Barrier(threads, 0, seq(|waiting|, _ => 0));
      barrier' == barrier[flow := b.(count := b.count + 1, per := b.per[c := b.per[c] + 1])]
    ensures
      var s := Projected(barrier, forests, waiting, t, flow);
      Projected(barrier', forests, waiting[c := Add(waiting[c], flow, g)], t.(arrived := t.arrived + multiset{g}), flow)
      == Joined(s, c, g, Counted(s, c, threads))
  {
    var waiting' := waiting[c := Add(waiting[c], flow, g)];
    assert Rows(waiting', flow) == Rows(waiting, flow)[c := Rows(waiting, flow)[c] + [g]];
  }

  class Controllers {
    const n: nat
    var barrier: map<nat, Barrier>
    var forests: map<nat, seq<bool>>
    var waiting: seq<Events<Gather>>   // active_gather_event, per controller
    var sent: seq<seq<nat>>                   // flows of the ACTIVE_GETs put in each tran_buf
    var responses: seq<seq<Gather>>           // resp_queue, per controller
    ghost var tallies: map<nat, Tally>

    /** Every flow is as its barrier requires. */
    ghost predicate Valid()
      reads this
    {
      Wired() && forall f: nat {:trigger Inv(View(f))} :: Inv(View(f))
    }

    ghost predicate Wired()
      reads this`barrier, this`forests, this`waiting, this`sent, this`responses
    {
      && n <= FOREST_SIZE && |waiting| == n && |sent| == n && |responses| == n
      && (forall f :: f in forests ==> |forests[f]| == FOREST_SIZE)
      && (forall f :: f in barrier ==> |barrier[f].per| == n)
    }

    ghost function TallyOf(flow: nat): Tally
      reads this`tallies
    {
      if flow in tallies then tallies[flow] else NO_TALLY
    }

    ghost function View(flow: nat): Flow
      requires Wired()
      reads this
    {
      Projected(barrier, forests, waiting, TallyOf(flow), flow)
    }

    /** Nothing but `flow` has changed. */
    twostate predicate Others(flow: nat)
      reads this
    {
      && Apart(old(barrier), barrier, flow) && Apart(old(forests), forests, flow) && Apart(old(tallies), tallies, flow)
      && Elsewhere(old(waiting), waiting, flow)
    }

    twostate lemma OtherViews(flow: nat)
      requires old(Wired()) && Wired() && Others(flow)
      ensures forall f :: f != flow ==> View(f) == old(View(f))
    {
      forall f | f != flow ensures View(f) == old(View(f)) {
        RowsElsewhere(old(waiting), waiting, flow, f);
      }
    }

    constructor (n: nat)
      requires n <= FOREST_SIZE
      ensures Valid() && this.n == n && forall f :: View(f) == Idle(n)
    {
      this.n := n;
      barrier, forests, tallies := map[], map[], map[];
      waiting, sent, responses := seq(n, _ => map[]), seq(n, _ => []), seq(n, _ => []);
      new;
      forall f: nat ensures View(f) == Idle(n) && Inv(View(f)) {
        assert Rows(waiting, f) == Idle(n).waiting;
        RealEmpty(Idle(n).waiting);
      }
    }

    /** Sets the controller's flag in the forest of the flow. */
    method MarkTree(c: nat, flow: nat)
      requires Wired() && c < n
      modifies this`forests
      ensures Wired() && View(flow) == Update(old(View(flow)), c)
      ensures forall f :: f != flow ==> View(f) == old(View(f))
    {
      if flow !in forests {
        forests := forests[flow := seq(FOREST_SIZE, _ => false)];
      }
      ghost var before := old(Trees(forests, flow, n));
      assert forests[flow][..n] == before;
      forests := forests[flow := forests[flow][c := true]];
      assert forests[flow][..n] == before[c := true];
    }

    /** One controller's part of opening the barrier: an ACTIVE_GET if its tree is active, for a gather
        that waits there or else for a dummy. */
    method DispatchOne(flow: nat, i: nat)
      requires Wired() && flow in barrier && flow in forests && i < n
      modifies this`barrier, this`waiting, this`sent
      ensures
        var b := old(barrier[flow]);
        var k := if forests[flow][i] then 1 else 0;
        Wired() && flow in barrier && barrier[flow] == b.(count := b.count + k, per := b.per[i := k])
      ensures Apart(old(barrier), barrier, flow) && Elsewhere(old(waiting), waiting, flow)
      ensures waiting == old(waiting)[i :=
          if forests[flow][i] && At(old(waiting[i]), flow) == [] then Add(old(waiting[i]), flow, DUMMY)
          else old(waiting[i])]
      ensures sent == if forests[flow][i] then old(sent)[i := old(sent[i]) + [flow]] else old(sent)
    {
      var b := barrier[flow];
      if forests[flow][i] {
        barrier := barrier[flow := b.(count := b.count + 1, per := b.per[i := 1])];
        if At(waiting[i], flow) == [] {
          waiting := waiting[i := Add(waiting[i], flow, DUMMY)];
        }
        sent := sent[i := sent[i] + [flow]];
      } else {
        barrier := barrier[flow := b.(per := b.per[i := 0])];
      }
    }

    /** Opens the barrier. */
    method DispatchAll(flow: nat)
      requires Wired() && flow in barrier && flow in forests
      modifies this`barrier, this`waiting, this`sent
      ensures Wired() && flow in barrier && barrier[flow].threads == old(barrier[flow].threads)
      ensures Apart(old(barrier), barrier, flow) && Elsewhere(old(waiting), waiting, flow)
      ensures Opened(old(waiting), waiting, forests[flow][..n], barrier[flow], flow, n)
      ensures forall i :: 0 <= i < n ==> sent[i] == old(sent[i]) + if forests[flow][i] then [flow] else []
    {
      hide Opened;
      ghost var trees := forests[flow][..n];
      barrier := barrier[flow := barrier[flow].(count := 0)];
      var i := 0;
      OpenedNone(waiting, trees, barrier[flow], flow);
      while i < n
        invariant 0 <= i <= n && Wired() && flow in barrier && barrier[flow].threads == old(barrier[flow].threads)
        invariant Apart(old(barrier), barrier, flow)
        invariant Elsewhere(old(waiting), waiting, flow)
        invariant Opened(old(waiting), waiting, trees, barrier[flow], flow, i)
        invariant forall j :: 0 <= j < n ==> sent[j] == old(sent[j]) + if j < i && forests[flow][j] then [flow] else []
      {
        ghost var w, b := waiting, barrier[flow];
        DispatchOne(flow, i);
        OpenedNext(old(waiting), w, waiting, trees, b, flow, i);
        i := i + 1;
      }
    }

    /** Opens the barrier, with its effect on the flow. */
    method Open(flow: nat)
      requires Wired() && flow in barrier && flow in forests
      modifies this`barrier, this`waiting, this`sent, this`tallies
      ensures Wired() && View(flow) == Dispatch(old(View(flow)), old(barrier[flow]))
      ensures forall f :: f != flow ==> View(f) == old(View(f))
      ensures forall i :: 0 <= i < n ==> sent[i] == old(sent[i]) + if forests[flow][i] then [flow] else []
    {
      DispatchAll(flow);
      OpenedAll(old(waiting), waiting, old(barrier[flow]), barrier[flow], forests[flow][..n], flow, old(View(flow)));
      tallies := tallies[flow := TallyOf(flow).(gets := Active(forests[flow][..n], n))];
      OtherViews(flow);
    }

    /** The barrier's part of it: a new barrier is made for the first gather. */
    method CountBarrier(c: nat, flow: nat, threads: nat)
      requires Wired() && c < n
      modifies this`barrier
      ensures Wired()
      ensures
        var b := if flow in old(barrier) then old(barrier)[flow] else Barrier(threads, 0, seq(n, _ => 0));
        barrier == old(barrier)[flow := b.(count := b.count + 1, per := b.per[c := b.per[c] + 1])]
    {
      if flow in barrier {
        var b := barrier[flow];
        barrier := barrier[flow := b.(count := b.count + 1, per := b.per[c := b.per[c] + 1])];
      } else {
        var per := seq(n, _ => 0);
        barrier := barrier[flow := Barrier(threads, 1, per[c := per[c] + 1])];
      }
    }

    /** Counts one gather at controller c. */
    method Count(c: nat, flow: nat, g: Gather, threads: nat)
      requires Wired() && c < n
      modifies this`barrier, this`waiting, this`tallies
      ensures Wired() && flow in barrier
      ensures View(flow) == Joined(old(View(flow)), c, g, Counted(old(View(flow)), c, threads))
      ensures forall f :: f != flow ==> View(f) == old(View(f))
    {
      hide Joined, Elsewhere;
      AddedElsewhere(waiting, c, flow, g);
      waiting := waiting[c := Add(waiting[c], flow, g)];
      CountBarrier(c, flow, threads);
      tallies := tallies[flow := TallyOf(flow).(arrived := TallyOf(flow).arrived + multiset{g})];
      FlowCounted(old(barrier), barrier, forests, old(waiting), old(TallyOf(flow)), flow, c, g, threads);
      OtherViews(flow);
    }

    /** Counts a gather, and opens the barrier if it is the last one. */
    method CountAndOpen(c: nat, flow: nat, g: Gather, threads: nat)
      requires Wired() && c < n
      requires flow in barrier ==> threads == barrier[flow].threads && barrier[flow].count < threads
      requires Counted(View(flow), c, threads).count == threads ==> flow in forests
      modifies this`barrier, this`waiting, this`sent, this`tallies
      ensures Wired() && View(flow) == Arrive(old(View(flow)), c, g, threads)
      ensures forall f :: f != flow ==> View(f) == old(View(f))
      ensures
        var opens := Counted(old(View(flow)), c, threads).count == threads;
        forall i :: 0 <= i < n ==> sent[i] == old(sent[i]) + if opens && forests[flow][i] then [flow] else []
    {
      Count(c, flow, g, threads);
      if barrier[flow].count == threads {
        Open(flow);
      }
    }

    /** Answers the gathers that wait at one controller and frees the dummies. */
    method Respond(i: nat, flow: nat)
      requires Wired() && i < n
      modifies this`waiting, this`responses
      ensures Wired() && waiting == old(waiting)[i := old(waiting[i]) - {flow}]
      ensures responses == old(responses)[i := old(responses[i]) + RealOnes(At(old(waiting[i]), flow))]
    {
      var w := At(waiting[i], flow);
      var k := 0;
      while k < |w|
        invariant 0 <= k <= |w| && |responses| == n && waiting == old(waiting)
        invariant responses[i] == old(responses[i]) + RealOnes(w[..k])
        invariant forall j :: 0 <= j < n && j != i ==> responses[j] == old(responses[j])
      {
        assert w[..k+1][..k] == w[..k];
        if !w[k].dummy {
          responses := responses[i := responses[i] + [w[k]]];
        }
        k := k + 1;
      }
      assert w[..k] == w;
      waiting := waiting[i := waiting[i] - {flow}];
    }

    method RespondAll(flow: nat)
      requires Wired()
      modifies this`waiting, this`responses
      ensures Wired() && Elsewhere(old(waiting), waiting, flow)
      ensures forall i :: 0 <= i < n ==> flow !in waiting[i]
      ensures RespondedWith(old(responses), responses, Rows(old(waiting), flow))
    {
      var i := 0;
      while i < n
        invariant 0 <= i <= n && Wired() && Elsewhere(old(waiting), waiting, flow)
        invariant forall j :: 0 <= j < i ==> flow !in waiting[j]
        invariant forall j :: i <= j < n ==> waiting[j] == old(waiting[j])
        invariant forall j :: 0 <= j < n ==>
          responses[j] == old(responses[j]) + if j < i then RealOnes(At(old(waiting[j]), flow)) else []
      {
        Respond(i, flow);
        i := i + 1;
      }
    }

    /** Drops what the shared maps hold for a flow. */
    method Forget(flow: nat, ghost gain: multiset<Gather>)
      requires Wired()
      modifies this`forests, this`barrier, this`tallies
      ensures Wired() && barrier == old(barrier) - {flow} && forests == old(forests) - {flow}
      ensures TallyOf(flow) == Tally({}, old(TallyOf(flow)).arrived, old(TallyOf(flow)).answered + gain)
      ensures Apart(old(tallies), tallies, flow)
    {
      forests := forests - {flow};
      barrier := barrier - {flow};
      tallies := tallies[flow := Tally({}, TallyOf(flow).arrived, TallyOf(flow).answered + gain)];
    }

    /** The last tree has replied: every gather of the flow is answered where it waits, and nothing is
        kept for the flow. */
    method CompleteAll(flow: nat)
      requires Wired()
      modifies this
      ensures Wired() && View(flow) == Complete(old(View(flow)))
      ensures forall f :: f != flow ==> View(f) == old(View(f))
      ensures flow !in barrier && flow !in forests && forall i :: 0 <= i < n ==> flow !in waiting[i]
      ensures RespondedWith(old(responses), responses, old(View(flow)).waiting)
    {
      RespondAll(flow);
      Forget(flow, Real(Rows(old(waiting), flow)));
      FlowCompleted(old(barrier), old(forests), old(waiting), waiting, old(TallyOf(flow)), flow);
      OtherViews(flow);
    }

    /** The reply is counted. */
    method Discount(c: nat, flow: nat)
      requires Wired() && c < n && flow in barrier
      modifies this`barrier, this`tallies
      ensures Wired() && flow in barrier
      ensures
        var s := old(View(flow));
        var b := old(barrier[flow]);
        View(flow) == s.(barrier := Some(b.(count := b.count - b.per[c], per := b.per[c := -1])), gets := s.gets - {c})
      ensures forall f :: f != flow ==> View(f) == old(View(f))
    {
      var b := barrier[flow];
      barrier := barrier[flow := b.(count := b.count - b.per[c], per := b.per[c := -1])];
      tallies := tallies[flow := TallyOf(flow).(gets := TallyOf(flow).gets - {c})];
    }

    /** Counts a reply, and completes the flow if it is the last one. */
    method DiscountAndClose(c: nat, flow: nat)
      requires Wired() && c < n && flow in barrier
      modifies this
      ensures Wired() && View(flow) == Reply(old(View(flow)), c)
      ensures forall f :: f != flow ==> View(f) == old(View(f))
      ensures flow in barrier ==> responses == old(responses)
      ensures flow !in barrier ==> flow !in forests && forall i :: 0 <= i < n ==> flow !in waiting[i]
      ensures flow !in barrier ==> RespondedWith(old(responses), responses, old(View(flow)).waiting)
    {
      Discount(c, flow);
      if barrier[flow].count == 0 {
        CompleteAll(flow);
      }
    }

    // -------------------------------------------------------------- the calls of the other components

    /** An update (ACTIVE_DOT, ACTIVE_ADD or ACTIVE_MULT) makes this controller's tree active. */
    method AddUpdate(c: nat, flow: nat)
      requires Valid() && c < n
      modifies this`forests
      ensures Valid() && View(flow) == Update(old(View(flow)), c)
      ensures forall f :: f != flow ==> View(f) == old(View(f))
    {
      MarkTree(c, flow);
      StepKeeps(old(View(flow)), UpdateL(c));
      OthersKeep(flow);
    }

    /** A gather arrives at controller c: a thread has one gather outstanding per flow, all name the same number of
        threads, and the last one finds an active tree. */
    method AddGather(c: nat, flow: nat, g: Gather, threads: nat)
      requires Valid() && Permitted(View(flow), ArriveL(c, g, threads))
      modifies this`barrier, this`waiting, this`sent, this`tallies
      ensures Valid() && View(flow) == Arrive(old(View(flow)), c, g, threads)
      ensures forall f :: f != flow ==> View(f) == old(View(f))
      ensures
        var opens := Counted(old(View(flow)), c, threads).count == threads;
        forall i :: 0 <= i < n ==> sent[i] == old(sent[i]) + if opens && View(flow).trees[i] then [flow] else []
    {
      assert Inv(View(flow));
      AssertionsHold(View(flow), ArriveL(c, g, threads));
      CountAndOpen(c, flow, g, threads);
      StepKeeps(old(View(flow)), ArriveL(c, g, threads));
      OthersKeep(flow);
    }

    /** An ACTIVE_GET of controller c has come back.  If it was the last one, every controller answers the real gathers
        that waited there for the flow, in their order, and nothing else; otherwise nobody answers.  What the
        controllers answer together is what becomes answered. */
    method AddReply(c: nat, flow: nat)
      requires Valid() && Permitted(View(flow), ReplyL(c))
      modifies this
      ensures Valid() && View(flow) == Reply(old(View(flow)), c)
      ensures forall f :: f != flow ==> View(f) == old(View(f))
      ensures Pile(responses) + old(View(flow)).answered == Pile(old(responses)) + View(flow).answered
      ensures
        if flow in barrier then responses == old(responses)
        else RespondedWith(old(responses), responses, old(View(flow)).waiting)
      ensures flow !in barrier ==> flow !in forests && forall i :: 0 <= i < n ==> flow !in waiting[i]
    {
      hide Inv, Pile, RespondedWith, Real;
      assert Inv(View(flow));
      DiscountAndClose(c, flow);
      if flow !in barrier { PileGrows(old(responses), responses, old(View(flow)).waiting); }
      StepKeeps(old(View(flow)), ReplyL(c));
      OthersKeep(flow);
    }

    twostate lemma OthersKeep(flow: nat)
      requires old(Valid()) && Wired() && Inv(View(flow)) && forall f: nat :: f != flow ==> View(f) == old(View(f))
      ensures Valid()
    {
      forall f: nat ensures Inv(View(f)) {
        if f != flow { assert old(Inv(View(f))); }
      }
    }
  }
}
