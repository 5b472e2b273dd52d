/** Miss tracking of a cache: a table of miss-status registers and an index from line to register.  The pair
    behaves as one bounded map from lines to misses; every request that misses is held in it once or has
    been answered once. */
module Mshr {

  datatype Kind = Read | Write

  datatype Req = Req(id: nat, line: nat, kind: Kind)

  /** One miss: the request that was sent on, and the reads of the same line that wait with it. */
  datatype Miss = Miss(target: Req, readers: seq<Req>)

  /** One register.  A free one is as its constructor left it. */
  datatype Slot = Free | Busy(line: nat, kind: Kind, miss: Miss)

  datatype How = Nack | Fill

  datatype Answer = Answer(r: Req, how: How)

  datatype Fate = Joined | Refused | Sent

  /** How often a request is in a list, in a miss, in the registers, among the answers. */
  function Times(rs: seq<Req>, r: Req): nat {
    if rs == [] then 0 else Times(rs[..|rs|-1], r) + if rs[|rs|-1] == r then 1 else 0
  }

  function InMiss(m: Miss, r: Req): nat { Times(m.readers, r) + if m.target == r then 1 else 0 }

  function InSlot(s: Slot, r: Req): nat { if s.Free? then 0 else InMiss(s.miss, r) }

  function Held(slots: seq<Slot>, r: Req): nat {
    if slots == [] then 0 else Held(slots[..|slots|-1], r) + InSlot(slots[|slots|-1], r)
  }

  function Answered(answers: seq<Answer>, r: Req): nat {
    if answers == [] then 0 else Answered(answers[..|answers|-1], r) + if answers[|answers|-1].r == r then 1 else 0
  }

  // ---------------------------------------------------------------- the two views

  /** The index names exactly the busy registers, each by its own line. */
  ghost predicate Linked(slots: seq<Slot>, index: map<nat, nat>) {
    && (forall x :: x in index ==> index[x] < |slots| && slots[index[x]].Busy? && slots[index[x]].line == x)
    && (forall i :: 0 <= i < |slots| && slots[i].Busy? ==> slots[i].line in index && index[slots[i].line] == i)
  }

  /** Only reads are joined, to a read of the same line. */
  ghost predicate SlotOk(s: Slot) {
    s.Busy? ==>
      && s.miss.target.line == s.line && s.miss.target.kind == s.kind
      && (s.miss.readers != [] ==> s.kind.Read?)
      && forall k :: 0 <= k < |s.miss.readers| ==> s.miss.readers[k].line == s.line && s.miss.readers[k].kind.Read?
  }

  function Lines(slots: seq<Slot>): set<nat> {
    set i | 0 <= i < |slots| && slots[i].Busy? :: slots[i].line
  }

  lemma {:induction false} DistinctLines(slots: seq<Slot>)
    requires forall i :: 0 <= i < |slots| ==> slots[i].Busy?
    requires forall i, j :: 0 <= i < j < |slots| ==> slots[i].line != slots[j].line
    ensures |Lines(slots)| == |slots|
  {
    if slots != [] {
      var n := |slots| - 1;
      DistinctLines(slots[..n]);
      assert Lines(slots) == Lines(slots[..n]) + {slots[n].line};
      assert slots[n].line !in Lines(slots[..n]);
    }
  }

  lemma FullTable(slots: seq<Slot>, index: map<nat, nat>)
    requires Linked(slots, index) && forall i :: 0 <= i < |slots| ==> slots[i].Busy?
    ensures |index| == |slots|
  {
    DistinctLines(slots);
    assert Lines(slots) == index.Keys;
  }

  /** A table whose index is not full has a free register. */
  lemma RoomLeft(slots: seq<Slot>, index: map<nat, nat>)
    requires Linked(slots, index) && |index| != |slots|
    ensures exists i :: 0 <= i < |slots| && slots[i].Free?
  {
    if forall i :: 0 <= i < |slots| ==> slots[i].Busy? { FullTable(slots, index); }
  }

  // ---------------------------------------------------------------- conservation

  lemma {:induction false} HeldUpdate(slots: seq<Slot>, i: nat, s: Slot, r: Req)
    requires i < |slots|
    ensures Held(slots[i := s], r) == Held(slots, r) - InSlot(slots[i], r) + InSlot(s, r)
  {
    var n := |slots| - 1;
    if i == n {
      assert slots[i := s][..n] == slots[..n];
    } else {
      HeldUpdate(slots[..n], i, s, r);
      assert slots[i := s][..n] == slots[..n][i := s];
    }
  }

  lemma TimesMore(rs: seq<Req>, x: Req, r: Req)
    ensures Times(rs + [x], r) == Times(rs, r) + if x == r then 1 else 0
  {
    assert (rs + [x])[..|rs|] == rs;
  }

  lemma AnsweredMore(answers: seq<Answer>, a: Answer, r: Req)
    ensures Answered(answers + [a], r) == Answered(answers, r) + if a.r == r then 1 else 0
  {
    assert (answers + [a])[..|answers|] == answers;
  }

  /** The table and its index, with the requests that were sent on and not yet answered. */
  datatype Table = Table(slots: seq<Slot>, index: map<nat, nat>, inFlight: set<Req>)

  ghost predicate TableOk(t: Table) {
    && Linked(t.slots, t.index)
    && (forall i :: 0 <= i < |t.slots| ==> SlotOk(t.slots[i]))
    && (forall r :: r in t.inFlight ==> r.line in t.index && t.slots[t.index[r.line]].miss.target == r)
    && (forall x :: x in t.index ==> t.slots[t.index[x]].miss.target in t.inFlight)
  }

  ghost function ViewOf(t: Table): map<nat, Miss>
    requires Linked(t.slots, t.index)
  {
    map x | x in t.index :: t.slots[t.index[x]].miss
  }

  function AfterJoin(t: Table, r: Req): Table
    requires r.line in t.index && t.index[r.line] < |t.slots| && t.slots[t.index[r.line]].Busy?
  {
    var i := t.index[r.line];
    var b := t.slots[i];
    t.(slots := t.slots[i := b.(miss := b.miss.(readers := b.miss.readers + [r]))])
  }

  function AfterSend(t: Table, r: Req, i: nat): Table
    requires i < |t.slots|
  {
    Table(t.slots[i := Busy(r.line, r.kind, Miss(r, []))], t.index[r.line := i], t.inFlight + {r})
  }

  function AfterRelease(t: Table, r: Req): Table
    requires r.line in t.index && t.index[r.line] < |t.slots|
  {
    Table(t.slots[t.index[r.line] := Free], t.index - {r.line}, t.inFlight - {r})
  }

  /** The request waits with the miss of its line, behind the others. */
  ghost predicate JoinedTo(before: map<nat, Miss>, after: map<nat, Miss>, r: Req) {
    r.line in before && after == before[r.line := before[r.line].(readers := before[r.line].readers + [r])]
  }

  // ---------------------------------------------------------------- what each step keeps

  lemma JoinKeeps(t: Table, r: Req)
    requires TableOk(t) && r.line in t.index && r.kind.Read? && t.slots[t.index[r.line]].kind.Read?
    ensures TableOk(AfterJoin(t, r))
  {
    var t' := AfterJoin(t, r);
    assert SlotOk(t'.slots[t.index[r.line]]) by { assert SlotOk(t.slots[t.index[r.line]]); }
  }

  lemma JoinView(t: Table, r: Req)
    requires Linked(t.slots, t.index) && r.line in t.index
    requires var t' := AfterJoin(t, r); Linked(t'.slots, t'.index)
    ensures JoinedTo(ViewOf(t), ViewOf(AfterJoin(t, r)), r)
  {
    var t' := AfterJoin(t, r);
    forall x | x in t.index && x != r.line ensures t'.slots[t'.index[x]] == t.slots[t.index[x]] { }
  }

  lemma SendKeeps(t: Table, r: Req, i: nat)
    requires TableOk(t) && r.line !in t.index && i < |t.slots| && t.slots[i].Free?
    ensures TableOk(AfterSend(t, r, i))
  {
  }

  lemma SendView(t: Table, r: Req, i: nat)
    requires Linked(t.slots, t.index) && r.line !in t.index && i < |t.slots| && t.slots[i].Free?
    requires var t' := AfterSend(t, r, i); Linked(t'.slots, t'.index)
    ensures ViewOf(AfterSend(t, r, i)) == ViewOf(t)[r.line := Miss(r, [])]
  {
    var t' := AfterSend(t, r, i);
    forall x | x in t.index ensures t'.slots[t'.index[x]] == t.slots[t.index[x]] { }
  }

  lemma ReleaseKeeps(t: Table, r: Req)
    requires TableOk(t) && r in t.inFlight
    ensures TableOk(AfterRelease(t, r))
  {
  }

  lemma ReleaseView(t: Table, r: Req)
    requires Linked(t.slots, t.index) && r.line in t.index
    requires var t' := AfterRelease(t, r); Linked(t'.slots, t'.index)
    ensures ViewOf(AfterRelease(t, r)) == ViewOf(t) - {r.line}
  {
  }

  // ---------------------------------------------------------------- every request is answered once

  /** Every request that missed is held or has been answered, once for each time it missed. */
  ghost predicate Accounted(missed: multiset<Req>, slots: seq<Slot>, answers: seq<Answer>) {
    forall r: Req :: missed[r] == Held(slots, r) + Answered(answers, r)
  }

  /** Request x waits behind the others of register i. */
  function Behind(slots: seq<Slot>, i: nat, x: Req): seq<Slot>
    requires i < |slots| && slots[i].Busy?
  {
    slots[i := slots[i].(miss := slots[i].miss.(readers := slots[i].miss.readers + [x]))]
  }

  lemma JoinCounts(slots: seq<Slot>, i: nat, x: Req, r: Req)
    requires i < |slots| && slots[i].Busy?
    ensures Held(Behind(slots, i, x), r) == Held(slots, r) + if x == r then 1 else 0
  {
    hide Held, Times;
    HeldUpdate(slots, i, Behind(slots, i, x)[i], r);
    TimesMore(slots[i].miss.readers, x, r);
  }

  lemma JoinAccounted(missed: multiset<Req>, slots: seq<Slot>, answers: seq<Answer>, i: nat, x: Req)
    requires Accounted(missed, slots, answers) && i < |slots| && slots[i].Busy?
    ensures Accounted(missed + multiset{x}, Behind(slots, i, x), answers)
  {
    hide Held, Answered;
    forall r: Req ensures (missed + multiset{x})[r] == Held(Behind(slots, i, x), r) + Answered(answers, r) {
      JoinCounts(slots, i, x, r);
    }
  }

  lemma SendAccounted(missed: multiset<Req>, slots: seq<Slot>, answers: seq<Answer>, i: nat, x: Req)
    requires Accounted(missed, slots, answers) && i < |slots| && slots[i].Free?
    ensures Accounted(missed + multiset{x}, slots[i := Busy(x.line, x.kind, Miss(x, []))], answers)
  {
    hide Answered;
    var b := Busy(x.line, x.kind, Miss(x, []));
    forall r: Req ensures (missed + multiset{x})[r] == Held(slots[i := b], r) + Answered(answers, r) {
      HeldUpdate(slots, i, b, r);
    }
  }

  lemma RefuseAccounted(missed: multiset<Req>, slots: seq<Slot>, answers: seq<Answer>, x: Req)
    requires Accounted(missed, slots, answers)
    ensures Accounted(missed + multiset{x}, slots, answers + [Answer(x, Nack)])
  {
    hide Held;
    forall r: Req ensures (missed + multiset{x})[r] == Held(slots, r) + Answered(answers + [Answer(x, Nack)], r) {
      AnsweredMore(answers, Answer(x, Nack), r);
    }
  }

  /** The answers a miss gives when it is released: one per request it holds. */
  function Released(m: Miss, how: How): seq<Answer> {
    ToReaders(m.readers, how) + [Answer(m.target, how)]
  }

  function ToReaders(readers: seq<Req>, how: How): (a: seq<Answer>) {
    if readers == [] then [] else ToReaders(readers[..|readers|-1], how) + [Answer(readers[|readers|-1], how)]
  }

  lemma {:induction false} ReadersAlike(readers: seq<Req>, how: How)
    ensures |ToReaders(readers, how)| == |readers|
    ensures forall k :: 0 <= k < |readers| ==> ToReaders(readers, how)[k] == Answer(readers[k], how)
  {
    if readers != [] { ReadersAlike(readers[..|readers|-1], how); }
  }

  /** The readers are answered in the order they came and then the request that was sent on, all in the same way. */
  lemma ReleasedAlike(m: Miss, how: How)
    ensures
      var a := Released(m, how);
      && |a| == |m.readers| + 1 && a[|m.readers|] == Answer(m.target, how)
      && forall k :: 0 <= k < |m.readers| ==> a[k] == Answer(m.readers[k], how)
  {
    ReadersAlike(m.readers, how);
  }

  lemma {:induction false} AnsweredAll(answers: seq<Answer>, readers: seq<Req>, how: How, r: Req)
    ensures Answered(answers + ToReaders(readers, how), r) == Answered(answers, r) + Times(readers, r)
  {
    if readers == [] {
      assert answers + ToReaders(readers, how) == answers;
    } else {
      var n := |readers| - 1;
      var a := Answer(readers[n], how);
      var most := answers + ToReaders(readers[..n], how);
      AnsweredAll(answers, readers[..n], how, r);
      AnsweredMore(most, a, r);
      assert answers + ToReaders(readers, how) == most + [a];
    }
  }

  lemma ReleasedOnce(answers: seq<Answer>, m: Miss, how: How, r: Req)
    ensures Answered(answers + Released(m, how), r) == Answered(answers, r) + InMiss(m, r)
  {
    var most := answers + ToReaders(m.readers, how);
    AnsweredAll(answers, m.readers, how, r);
    assert answers + Released(m, how) == most + [Answer(m.target, how)];
    AnsweredMore(most, Answer(m.target, how), r);
  }

  lemma ReleaseAccounted(missed: multiset<Req>, slots: seq<Slot>, answers: seq<Answer>, i: nat, how: How)
    requires Accounted(missed, slots, answers) && i < |slots| && slots[i].Busy?
    ensures Accounted(missed, slots[i := Free], answers + Released(slots[i].miss, how))
  {
    hide Answered, Released, Times;
    var after := answers + Released(slots[i].miss, how);
    forall r: Req ensures missed[r] == Held(slots[i := Free], r) + Answered(after, r) {
      HeldUpdate(slots, i, Free, r);
      ReleasedOnce(answers, slots[i].miss, how, r);
    }
  }

  class MshrFile {
    const slots: array<Slot>
    var index: map<nat, nat>      // mshr_indices
    var answers: seq<Answer>
    var sent: seq<Req>

    /** All requests that missed, and those sent on and not yet answered. */
    ghost var missed: multiset<Req>
    ghost var inFlight: set<Req>

    ghost function Now(): Table
      reads this`index, this`inFlight, slots
    {
      Table(slots[..], index, inFlight)
    }

    ghost predicate Valid()
      reads this`index, this`inFlight, this`missed, this`answers, slots
    {
      TableOk(Now()) && Accounted(missed, slots[..], answers)
    }

    /** The table as a map from lines to misses. */
    ghost function View(): (v: map<nat, Miss>)
      requires Valid()
      reads this`index, this`inFlight, this`missed, this`answers, slots
    {
      ViewOf(Now())
    }

    constructor (n: nat)
      ensures Valid() && slots.Length == n && index == map[] && answers == [] && sent == [] && fresh(slots)
    {
      slots := new Slot[n](_ => Free);
      index, answers, sent, missed, inFlight := map[], [], [], multiset{}, {};
      new;
      forall r: Req ensures Held(slots[..], r) == 0 { AllFree(slots[..], r); }
    }

    /** The first free register. */
    method FindFree() returns (i: nat)
      requires Linked(slots[..], index) && |index| != slots.Length
      ensures i < slots.Length && slots[i].Free?
    {
      RoomLeft(slots[..], index);
      i := 0;
      while slots[i].Busy?
        invariant i < slots.Length && forall j :: 0 <= j < i ==> slots[j].Busy?
        decreases slots.Length - i
      {
        i := i + 1;
      }
    }

    /** A request misses: it joins a read of its line that is already on its way, is refused if the line is
        taken otherwise or the table is full, or is sent on in a register of its own. */
    method OnMiss(r: Req) returns (fate: Fate)
      requires Valid()
      modifies this, slots
      ensures Valid() && missed == old(missed) + multiset{r}
      ensures fate ==
        if r.line in old(View()) then
          if r.kind.Read? && old(View())[r.line].target.kind.Read? then Joined else Refused
        else if |old(index)| == slots.Length then Refused else Sent
      ensures fate.Joined? ==> JoinedTo(old(View()), View(), r)
      ensures fate.Sent? ==> View() == old(View())[r.line := Miss(r, [])]
      ensures fate.Refused? ==> View() == old(View())
      ensures answers == old(answers) + if fate.Refused? then [Answer(r, Nack)] else []
      ensures sent == old(sent) + if fate.Sent? then [r] else []
    {
      if r.line in index {
        var kind := slots[index[r.line]].kind;
        assert SlotOk(slots[..][index[r.line]]);
        if r.kind.Read? && kind.Read? {
          Join(r);
          return Joined;
        }
      } else if |index| != slots.Length {
        Send(r);
        return Sent;
      }
      Refuse(r);
      return Refused;
    }

    method Refuse(r: Req)
      requires Valid()
      modifies this`missed, this`answers
      ensures Valid() && missed == old(missed) + multiset{r} && View() == old(View())
      ensures answers == old(answers) + [Answer(r, Nack)]
    {
      RefuseAccounted(missed, slots[..], answers, r);
      answers, missed := answers + [Answer(r, Nack)], missed + multiset{r};
    }

    method Join(r: Req)
      requires Valid() && r.line in index && r.kind.Read? && slots[index[r.line]].kind.Read?
      modifies this`missed, slots
      ensures Valid() && missed == old(missed) + multiset{r}
      ensures JoinedTo(old(View()), View(), r)
    {
      hide SlotOk, Accounted;
      var i := index[r.line];
      JoinKeeps(Now(), r);
      JoinView(Now(), r);
      JoinAccounted(missed, slots[..], answers, i, r);
      var b := slots[i];
      slots[i] := b.(miss := b.miss.(readers := b.miss.readers + [r]));
      missed := missed + multiset{r};
      assert Now() == AfterJoin(old(Now()), r);
    }

    method Send(r: Req)
      requires Valid() && r.line !in index && |index| != slots.Length
      modifies this`missed, this`index, this`inFlight, this`sent, slots
      ensures Valid() && missed == old(missed) + multiset{r}
      ensures View() == old(View())[r.line := Miss(r, [])] && sent == old(sent) + [r]
    {
      hide SlotOk, ViewOf, Linked, Accounted;
      var i := FindFree();
      SendKeeps(Now(), r, i);
      SendView(Now(), r, i);
      SendAccounted(missed, slots[..], answers, i, r);
      index := index[r.line := i];
      slots[i] := Busy(r.line, r.kind, Miss(r, []));
      inFlight, missed := inFlight + {r}, missed + multiset{r};
      sent := sent + [r];
      assert Now() == AfterSend(old(Now()), r, i);
    }

    /** The reply to a request that was sent on: everything its register holds is answered. */
    method OnReply(r: Req, how: How)
      requires Valid() && r in inFlight
      modifies this, slots
      ensures Valid() && missed == old(missed) && inFlight == old(inFlight) - {r} && sent == old(sent)
      ensures r.line in old(View()) && old(View())[r.line].target == r && View() == old(View()) - {r.line}
      ensures answers == old(answers) + Released(old(View())[r.line], how)
      ensures r.kind.Write? ==> old(View())[r.line].readers == []
    {
      var i := index[r.line];
      var m := slots[i].miss;
      assert SlotOk(slots[..][i]);
      ReleaseKeeps(Now(), r);
      ReleaseView(Now(), r);
      ReleaseAccounted(missed, slots[..], answers, i, how);
      AnswerAll(m, how);
      slots[i] := Free;
      index := index - {r.line};
      inFlight := inFlight - {r};
      assert Now() == AfterRelease(old(Now()), r);
    }

    method AnswerAll(m: Miss, how: How)
      modifies this`answers
      ensures answers == old(answers) + Released(m, how)
    {
      var k := 0;
      while k < |m.readers|
        invariant 0 <= k <= |m.readers| && answers == old(answers) + ToReaders(m.readers[..k], how)
      {
        assert m.readers[..k+1][..k] == m.readers[..k];
        answers := answers + [Answer(m.readers[k], how)];
        k := k + 1;
      }
      assert m.readers[..k] == m.readers;
      answers := answers + [Answer(m.target, how)];
    }
  }

  lemma {:induction false} AllFree(slots: seq<Slot>, r: Req)
    requires forall i :: 0 <= i < |slots| ==> slots[i].Free?
    ensures Held(slots, r) == 0
  {
    if slots != [] { AllFree(slots[..|slots|-1], r); }
  }
}
