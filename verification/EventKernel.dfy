/** The global event queue: which component is called when.  What a called component does is a parameter: the
    events it adds while it runs. */
module EventKernel {

  type Comp = nat   // the order stands for the order in which a set of components is walked

  datatype Event = Event(time: nat, comp: Comp)

  datatype Kernel = Kernel(now: nat, pending: set<Event>)

  /** One call: whether the component is a core, and the events it adds. */
  datatype Call = Call(core: bool, adds: set<Event>)

  predicate Before(a: Event, b: Event) { a.time < b.time || (a.time == b.time && a.comp <= b.comp) }

  lemma Earliest(s: set<Event>) returns (e: Event)
    requires s != {}
    ensures e in s && forall x :: x in s ==> Before(e, x)
  {
    var y :| y in s;
    var t := s - {y};
    if t == {} {
      e := y;
      forall x | x in s ensures Before(e, x) { assert x in t || x == y; }
    } else {
      var z := Earliest(t);
      e := if Before(y, z) then y else z;
      forall x | x in s ensures Before(e, x) { assert x in t || x == y; }
    }
  }

  ghost function First(s: set<Event>): (e: Event)
    requires s != {}
    ensures e in s && forall x :: x in s ==> Before(e, x)
  {
    assert exists e :: e in s && forall x :: x in s ==> Before(e, x) by { var e := Earliest(s); }
    var e :| e in s && forall x :: x in s ==> Before(e, x);
    e
  }

  /** A core is taken off the queue before it runs, everything else afterwards. */
  ghost function Step(k: Kernel, c: Call): Kernel
    requires k.pending != {}
  {
    var e := First(k.pending);
    Kernel(e.time, if c.core then (k.pending - {e}) + c.adds else (k.pending + c.adds) - {e})
  }

  /** Components schedule no earlier than now. */
  ghost predicate Enabled(k: Kernel, c: Call) {
    k.pending != {} && forall a :: a in c.adds ==> a.time >= First(k.pending).time
  }

  /** Only cores may ask to be called again at the time at which they are running. */
  ghost predicate Polite(k: Kernel, c: Call)
    requires k.pending != {}
  {
    c.core || First(k.pending) !in c.adds
  }

  ghost predicate NothingLate(k: Kernel) {
    forall e :: e in k.pending ==> e.time >= k.now
  }

  /** Time does not go back, and what is left is still to come. */
  lemma StepKeeps(k: Kernel, c: Call)
    requires NothingLate(k) && Enabled(k, c)
    ensures Step(k, c).now >= k.now && NothingLate(Step(k, c))
  {
  }

  /** A call leaves exactly the other events and the new ones, unless a component other than a core asks for
      the very call that is being made: that event is lost. */
  lemma NothingLost(k: Kernel, c: Call)
    requires Enabled(k, c)
    ensures Step(k, c).pending == (k.pending - {First(k.pending)}) + c.adds <==> Polite(k, c)
    ensures !Polite(k, c) ==> First(k.pending) in c.adds && First(k.pending) !in Step(k, c).pending
  {
    var e := First(k.pending);
    if Polite(k, c) {
      assert Step(k, c).pending == (k.pending - {e}) + c.adds;
    } else {
      assert e in (k.pending - {e}) + c.adds && e !in Step(k, c).pending;
    }
  }

  /** While a component runs, the front of the queue stays the set it was taken from: the erase that follows
      finds it there. */
  lemma FrontStays(k: Kernel, c: Call)
    requires Enabled(k, c)
    ensures First(k.pending + c.adds).time == First(k.pending).time && First(k.pending) in k.pending + c.adds
  {
    var e, f := First(k.pending), First(k.pending + c.adds);
    assert e in k.pending + c.adds;
    assert Before(f, e);
  }

  ghost predicate Run(ks: seq<Kernel>, cs: seq<Call>) {
    && |ks| == |cs| + 1 && NothingLate(ks[0])
    && forall i :: 0 <= i < |cs| ==> Enabled(ks[i], cs[i]) && Polite(ks[i], cs[i]) && ks[i+1] == Step(ks[i], cs[i])
  }

  lemma {:induction false} TimeNeverGoesBack(ks: seq<Kernel>, cs: seq<Call>, i: nat, j: nat)
    requires Run(ks, cs) && i <= j < |ks|
    ensures NothingLate(ks[j]) && ks[i].now <= ks[j].now
    decreases j
  {
    if i < j {
      TimeNeverGoesBack(ks, cs, i, j - 1);
      StepKeeps(ks[j-1], cs[j-1]);
    } else if j > 0 {
      TimeNeverGoesBack(ks, cs, j - 1, j - 1);
      StepKeeps(ks[j-1], cs[j-1]);
    }
  }

  /** An event that is pending stays pending until it is served. */
  lemma {:induction false} ServedOrPending(ks: seq<Kernel>, cs: seq<Call>, e: Event, i: nat, j: nat)
    requires Run(ks, cs) && i <= j < |ks| && e in ks[i].pending
    ensures e in ks[j].pending || exists n :: i <= n < j && ks[n].pending != {} && First(ks[n].pending) == e
    decreases j
  {
    if i < j {
      ServedOrPending(ks, cs, e, i, j - 1);
      NothingLost(ks[j-1], cs[j-1]);
    }
  }

  /** Every event added in a run is served at exactly its time: by the moment the clock has passed it, a call
      was made for it, after it was added, and the clock then showed its time. */
  lemma ServedOnTime(ks: seq<Kernel>, cs: seq<Call>, e: Event, i: nat, j: nat) returns (n: nat)
    requires Run(ks, cs) && i < j < |ks| && e in cs[i].adds && ks[j].now > e.time
    ensures i < n < j && ks[n].pending != {} && First(ks[n].pending) == e && ks[n+1].now == e.time
  {
    NothingLost(ks[i], cs[i]);
    ServedOrPending(ks, cs, e, i + 1, j);
    TimeNeverGoesBack(ks, cs, j, j);
    assert e !in ks[j].pending;
    n :| i + 1 <= n < j && ks[n].pending != {} && First(ks[n].pending) == e;
    assert ks[n+1] == Step(ks[n], cs[n]);
  }

  // ---------------------------------------------------------------- as the simulator runs it

  class EventQueue {
    var queue: map<nat, set<Comp>>
    var now: nat

    ghost predicate Valid()
      reads this
    {
      forall t :: t in queue ==> queue[t] != {}
    }

    ghost function View(): (s: set<Event>)
      reads this
      ensures forall e :: e in s <==> e.time in queue && e.comp in queue[e.time]
    {
      set t, c | t in queue && c in queue[t] :: Event(t, c)
    }

    ghost function State(): Kernel
      reads this
    {
      Kernel(now, View())
    }

    constructor ()
      ensures Valid() && State() == Kernel(0, {})
    {
      queue, now := map[], 0;
    }

    method AddEvent(time: nat, c: Comp)
      requires Valid()
      modifies this`queue
      ensures Valid() && View() == old(View()) + {Event(time, c)}
    {
      queue := queue[time := (if time in queue then queue[time] else {}) + {c}];
    }

    method Remove(e: Event)
      requires Valid() && e in View()
      modifies this`queue
      ensures Valid() && View() == old(View()) - {e}
    {
      var rest := queue[e.time] - {e.comp};
      assert forall c :: c in queue[e.time] ==> c in rest || c == e.comp;
      if rest == {} {
        queue := queue - {e.time};
      } else {
        queue := queue[e.time := rest];
      }
    }

    method AddAll(adds: seq<Event>)
      requires Valid()
      modifies this`queue
      ensures Valid() && View() == old(View()) + (set e | e in adds)
    {
      var k := 0;
      while k < |adds|
        invariant 0 <= k <= |adds| && Valid() && View() == old(View()) + set e | e in adds[..k]
      {
        AddEvent(adds[k].time, adds[k].comp);
        k := k + 1;
      }
      assert adds[..k] == adds;
    }

    /** The component to call: the first of the earliest set. */
    method Head() returns (e: Event)
      requires Valid() && queue != map[]
      ensures View() != {} && e == First(View())
    {
      ghost var t0 :| t0 in queue;
      ghost var c0 :| c0 in queue[t0];
      assert Event(t0, c0) in View();
      ghost var f := Earliest(View());
      assert f.time in queue && forall u :: u in queue ==> f.time <= u by {
        forall u | u in queue ensures f.time <= u {
          var c :| c in queue[u];
          assert Before(f, Event(u, c));
        }
      }
      var t :| t in queue && forall u :: u in queue ==> t <= u;
      assert t == f.time;
      assert forall c :: c in queue[t] ==> f.comp <= c by {
        forall c | c in queue[t] ensures f.comp <= c { assert Before(f, Event(t, c)); }
      }
      var c :| c in queue[t] && forall d :: d in queue[t] ==> c <= d;
      e := Event(t, c);
    }

    /** One turn of the loop. */
    method Dispatch(core: bool, adds: seq<Event>)
      requires Valid() && queue != map[] && Enabled(State(), Call(core, set e | e in adds))
      modifies this
      ensures Valid() && old(View()) != {} && State() == Step(old(State()), Call(core, set e | e in adds))
    {
      var e := Head();
      now := e.time;
      if core {
        Remove(e);
        AddAll(adds);
      } else {
        FrontStays(State(), Call(core, set e | e in adds));
        AddAll(adds);
        assert First(View()).time == e.time;
        Remove(e);
      }
    }
  }
}
