/** The first-level TLB: two maps, from pages to the time of their last use and back, that together behave as
    a list of pages in the order of their last use. */
module Tlb {
  import opened Basics
  import opened EventLists

  // ---------------------------------------------------------------- the simple thing

  /** A least-recently-used list, oldest page first. */
  function Remove(l: seq<nat>, page: nat): (r: seq<nat>)
    ensures |r| <= |l|
  {
    if l == [] then [] else if l[0] == page then Remove(l[1..], page) else [l[0]] + Remove(l[1..], page)
  }

  function Touch(l: seq<nat>, page: nat, capacity: nat): seq<nat> {
    if page in l then Remove(l, page) + [page]
    else (if |l| >= capacity && l != [] then l[1..] else l) + [page]
  }

  lemma {:induction false} RemoveMembers(l: seq<nat>, page: nat)
    ensures forall x :: x in Remove(l, page) <==> x in l && x != page
  {
    if l != [] {
      RemoveMembers(l[1..], page);
      assert l == [l[0]] + l[1..];
    }
  }

  // ---------------------------------------------------------------- what is in it, by the accesses alone

  /** The list after a history of accesses. */
  function After(h: seq<nat>, capacity: nat): seq<nat> {
    if h == [] then [] else Touch(After(h[..|h|-1], capacity), h[|h|-1], capacity)
  }

  /** The pages that were used since a page was last used. */
  function Since(h: seq<nat>, page: nat): set<nat> {
    if h == [] || h[|h|-1] == page then {} else Since(h[..|h|-1], page) + {h[|h|-1]}
  }

  function Members(l: seq<nat>): set<nat> { set x | x in l }

  /** Each page of the list was used before those behind it and after all others, of which there were enough to push it
      out if it is not in the list any more. */
  ghost predicate Stacked(h: seq<nat>, l: seq<nat>, capacity: nat) {
    && Distinct(l) && |l| <= capacity && (forall x :: x in l ==> x in h)
    && (forall i :: 0 <= i < |l| ==> Since(h, l[i]) == Members(l[i+1..]))
    && (forall x :: x in h && x !in l ==> |Since(h, x)| >= capacity)
  }

  lemma UsedMore(h: seq<nat>, page: nat, x: nat)
    ensures Since(h + [page], x) == if x == page then {} else Since(h, x) + {page}
  {
    assert (h + [page])[..|h|] == h;
  }

  lemma MembersCount(l: seq<nat>)
    requires Distinct(l)
    ensures |Members(l)| == |l|
  {
    SizeOfList(l, Members(l));
  }

  lemma {:induction false} RemovedAt(l: seq<nat>, page: nat) returns (i: nat)
    requires Distinct(l) && page in l
    ensures i < |l| && l[i] == page && Remove(l, page) == l[..i] + l[i+1..]
  {
    if l[0] == page {
      i := 0;
      NotThere(l[1..], page);
    } else {
      assert l == [l[0]] + l[1..];
      var j := RemovedAt(l[1..], page);
      i := j + 1;
    }
  }

  lemma {:induction false} NotThere(l: seq<nat>, page: nat)
    requires page !in l
    ensures Remove(l, page) == l
  {
    if l != [] { NotThere(l[1..], page); }
  }

  /** Behind each of these pages are the pages used since, up to the page that is used now. */
  ghost predicate InOrderBut(h: seq<nat>, rest: seq<nat>, page: nat) {
    forall i :: 0 <= i < |rest| ==> Since(h, rest[i]) + {page} == Members(rest[i+1..]) + {page}
  }

  lemma MovedLast(h: seq<nat>, rest: seq<nat>, page: nat, i: nat)
    requires InOrderBut(h, rest, page) && page !in rest && i <= |rest|
    ensures Since(h + [page], (rest + [page])[i]) == Members((rest + [page])[i+1..])
  {
    UsedMore(h, page, (rest + [page])[i]);
    if i < |rest| {
      assert (rest + [page])[i+1..] == rest[i+1..] + [page];
      MembersMore(rest[i+1..], page);
    }
  }

  lemma MembersMore(l: seq<nat>, page: nat)
    ensures Members(l + [page]) == Members(l) + {page}
  {
  }

  lemma PushedOut(h: seq<nat>, l: seq<nat>, rest: seq<nat>, page: nat, capacity: nat, x: nat)
    requires Stacked(h, l, capacity) && x in h && x !in rest && x != page
    requires x in l ==> |Since(h, x) + {page}| >= capacity
    ensures |Since(h + [page], x)| >= capacity
  {
    UsedMore(h, page, x);
    if x !in l { Fewer(Since(h, x), Since(h, x) + {page}); }
  }

  /** The page that is used goes to the end. */
  lemma StackedUse(h: seq<nat>, l: seq<nat>, rest: seq<nat>, page: nat, capacity: nat)
    requires Stacked(h, l, capacity) && Distinct(rest) && |rest| < capacity && page !in rest
    requires (forall x :: x in rest ==> x in l) && InOrderBut(h, rest, page)
    requires forall x :: x in l && x !in rest && x != page ==> |Since(h, x) + {page}| >= capacity
    ensures Stacked(h + [page], rest + [page], capacity)
  {
    hide Since, Members, InOrderBut;
    var h', l' := h + [page], rest + [page];
    forall i | 0 <= i < |l'| ensures Since(h', l'[i]) == Members(l'[i+1..]) { MovedLast(h, rest, page, i); }
    forall x | x in h' && x !in l' ensures |Since(h', x)| >= capacity { PushedOut(h, l, rest, page, capacity, x); }
  }

  lemma Fewer(a: set<nat>, b: set<nat>)
    requires a <= b
    ensures |a| <= |b|
  {
    assert b == a + (b - a);
  }

  lemma BehindWithout(l: seq<nat>, i: nat, j: nat)
    requires i < |l| && j < |l| - 1
    ensures
      var w := Without(l, i);
      w[j] == l[if j < i then j else j + 1]
      && Members(w[j+1..]) + {l[i]} == Members(l[(if j < i then j else j + 1)+1..]) + {l[i]}
  {
    var w := Without(l, i);
    if j < i {
      assert l[j+1..] == l[j+1..i] + [l[i]] + l[i+1..] && w[j+1..] == l[j+1..i] + l[i+1..];
    } else {
      assert w[j+1..] == l[j+2..];
    }
  }

  lemma StackedHit(h: seq<nat>, l: seq<nat>, page: nat, capacity: nat)
    requires Stacked(h, l, capacity) && page in l
    ensures Stacked(h + [page], Touch(l, page, capacity), capacity)
  {
    hide Since, Members;
    var i := RemovedAt(l, page);
    var rest := Without(l, i);
    forall j | 0 <= j < |rest| ensures Since(h, rest[j]) + {page} == Members(rest[j+1..]) + {page} {
      BehindWithout(l, i, j);
    }
    WithoutKeeps(l, i);
    StackedUse(h, l, rest, page, capacity);
  }

  lemma FirstPushedOut(h: seq<nat>, l: seq<nat>, page: nat, capacity: nat)
    requires Stacked(h, l, capacity) && page !in l && |l| >= capacity && l != []
    ensures |Since(h, l[0]) + {page}| >= capacity
  {
    hide Since;
    MembersCount(l[1..]);
    assert l == [l[0]] + l[1..];
    assert Since(h, l[0]) == Members(l[0+1..]);
  }

  lemma StackedMiss(h: seq<nat>, l: seq<nat>, page: nat, capacity: nat)
    requires capacity >= 1 && Stacked(h, l, capacity) && page !in l
    ensures Stacked(h + [page], Touch(l, page, capacity), capacity)
  {
    hide Since, Members;
    if |l| < capacity {
      StackedUse(h, l, l, page, capacity);
    } else {
      var rest := l[1..];
      FirstPushedOut(h, l, page, capacity);
      forall i | 0 <= i < |rest| ensures Since(h, rest[i]) + {page} == Members(rest[i+1..]) + {page} {
        assert rest[i] == l[i+1] && rest[i+1..] == l[i+1+1..];
      }
      assert l == [l[0]] + rest;
      StackedUse(h, l, rest, page, capacity);
    }
  }

  lemma {:induction false} AlwaysStacked(h: seq<nat>, capacity: nat)
    requires capacity >= 1
    ensures Stacked(h, After(h, capacity), capacity)
  {
    if h != [] {
      var most, page := h[..|h|-1], h[|h|-1];
      AlwaysStacked(most, capacity);
      assert h == most + [page];
      if page in After(most, capacity) {
        StackedHit(most, After(most, capacity), page, capacity);
      } else {
        StackedMiss(most, After(most, capacity), page, capacity);
      }
    }
  }

  /** After any accesses, a page is in the TLB if and only if it has been used, and fewer other pages than there are
      entries have been used since. */
  lemma PresentExactly(h: seq<nat>, capacity: nat, page: nat)
    requires capacity >= 1
    ensures page in After(h, capacity) <==> page in h && |Since(h, page)| < capacity
  {
    var l := After(h, capacity);
    AlwaysStacked(h, capacity);
    if page in l {
      var i :| 0 <= i < |l| && l[i] == page;
      MembersCount(l[i+1..]);
    }
  }

  // ---------------------------------------------------------------- the two maps

  /** `entries` and `lru` are inverse to each other, and the list is the pages in the order of their times. */
  ghost predicate Linked(entries: map<nat, nat>, lru: map<nat, nat>, l: seq<nat>) {
    && (forall p :: p in entries ==> entries[p] in lru && lru[entries[p]] == p)
    && (forall t :: t in lru ==> lru[t] in entries && entries[lru[t]] == t)
    && (forall p :: p in l <==> p in entries)
    && Ordered(entries, l)
  }

  ghost predicate Ordered(entries: map<nat, nat>, l: seq<nat>) {
    && (forall i :: 0 <= i < |l| ==> l[i] in entries)
    && forall i, j :: 0 <= i < j < |l| ==> entries[l[i]] < entries[l[j]]
  }

  lemma {:induction false} SizeOfList(l: seq<nat>, s: set<nat>)
    requires Distinct(l) && forall p :: p in l <==> p in s
    ensures |l| == |s|
  {
    if l == [] {
      assert s == {};
    } else {
      var rest := s - {l[0]};
      assert forall p :: p in l[1..] <==> p in rest by {
        forall p | p in rest ensures p in l[1..] { assert p in l && p != l[0]; }
      }
      SizeOfList(l[1..], rest);
    }
  }

  lemma {:induction false} SizeOfImage(m: map<nat, nat>, l: seq<nat>, s: set<nat>)
    requires Ordered(m, l) && forall t :: t in s <==> exists i :: 0 <= i < |l| && m[l[i]] == t
    ensures |s| == |l|
  {
    if l == [] {
      assert s == {};
    } else {
      var n := |l| - 1;
      var rest := s - {m[l[n]]};
      forall t ensures t in rest <==> exists i :: 0 <= i < n && m[l[..n][i]] == t {
        if t in rest {
          var i :| 0 <= i < |l| && m[l[i]] == t;
          assert l[..n][i] == l[i];
        }
        if i :| 0 <= i < n && m[l[..n][i]] == t {
          assert m[l[i]] == t;
        }
      }
      SizeOfImage(m, l[..n], rest);
    }
  }

  /** The two maps and the list have the same size. */
  lemma Sizes(entries: map<nat, nat>, lru: map<nat, nat>, l: seq<nat>)
    requires Linked(entries, lru, l)
    ensures |entries| == |l| && |lru| == |l|
  {
    SizeOfList(l, entries.Keys);
    forall t ensures t in lru.Keys <==> exists i :: 0 <= i < |l| && entries[l[i]] == t {
      if t in lru {
        var i :| 0 <= i < |l| && l[i] == lru[t];
        assert entries[l[i]] == t;
      }
    }
    SizeOfImage(entries, l, lru.Keys);
  }

  /** The smallest time belongs to the first page of the list. */
  lemma OldestFirst(entries: map<nat, nat>, lru: map<nat, nat>, l: seq<nat>)
    requires Linked(entries, lru, l) && l != []
    ensures entries[l[0]] in lru && lru[entries[l[0]]] == l[0] && forall t :: t in lru ==> entries[l[0]] <= t
  {
    forall t | t in lru ensures entries[l[0]] <= t {
      var i :| 0 <= i < |l| && l[i] == lru[t];
    }
  }

  lemma {:induction false} RemoveOrdered(entries: map<nat, nat>, l: seq<nat>, page: nat)
    requires Ordered(entries, l)
    ensures Ordered(entries, Remove(l, page))
  {
    if l != [] {
      RemoveOrdered(entries, l[1..], page);
      RemoveMembers(l[1..], page);
      var r := Remove(l[1..], page);
      forall k | 0 <= k < |r| ensures entries[l[0]] < entries[r[k]] {
        assert r[k] in r;
        var i :| 0 <= i < |l[1..]| && l[1..][i] == r[k];
        assert l[i+1] == r[k];
      }
    }
  }

  // ---------------------------------------------------------------- what each access keeps

  lemma DropKeeps(entries: map<nat, nat>, lru: map<nat, nat>, l: seq<nat>)
    requires Linked(entries, lru, l) && l != []
    ensures Linked(entries - {l[0]}, lru - {entries[l[0]]}, l[1..])
  {
    var e', r' := entries - {l[0]}, lru - {entries[l[0]]};
    forall p ensures p in l[1..] <==> p in e' {
      if p in l[1..] { var i :| 0 <= i < |l[1..]| && l[1..][i] == p; assert l[i+1] == p; }
      if p in e' { assert p in l && p != l[0]; }
    }
  }

  lemma AppendKeeps(entries: map<nat, nat>, lru: map<nat, nat>, l: seq<nat>, page: nat, now: nat)
    requires Linked(entries, lru, l) && page !in entries && forall t :: t in lru ==> t < now
    ensures Linked(entries[page := now], lru[now := page], l + [page])
  {
    var e', r' := entries[page := now], lru[now := page];
    forall i | 0 <= i < |l| ensures e'[l[i]] == entries[l[i]] && e'[l[i]] < now { }
  }

  lemma RenewKeeps(entries: map<nat, nat>, lru: map<nat, nat>, l: seq<nat>, page: nat)
    requires Linked(entries, lru, l) && page in entries
    ensures Linked(entries - {page}, lru - {entries[page]}, Remove(l, page))
  {
    RemoveMembers(l, page);
    RemoveOrdered(entries, l, page);
    var r := Remove(l, page);
    forall i | 0 <= i < |r| ensures r[i] in entries - {page} { assert r[i] in r; }
  }

  // ---------------------------------------------------------------- as the simulator runs it

  datatype Req = Req(id: nat, page: nat)

  datatype Reply = Reply(time: nat, r: Req)

  class Tlb {
    const capacity: nat     // num_entries
    const latency: nat      // l1_to_lsu_t
    const penalty: nat      // miss_penalty
    const interval: nat

    var entries: map<nat, nat>
    var lru: map<nat, nat>
    var reqEvents: Events<Req>
    var reqQ: seq<Req>
    var replies: seq<Reply>
    var last: nat           // one more than the time of the last access

    /** The pages in the order of their last use. */
    ghost var order: seq<nat>

    /** All accesses so far. */
    ghost var used: seq<nat>

    ghost predicate Valid()
      reads this`entries, this`lru, this`order, this`last, this`used
    {
      Kept() && order == After(used, capacity)
    }

    ghost predicate Kept()
      reads this`entries, this`lru, this`order, this`last
    {
      && capacity >= 1 && Linked(entries, lru, order) && |order| <= capacity
      && forall t :: t in lru ==> t < last
    }

    constructor (capacity: nat, latency: nat, penalty: nat, interval: nat)
      requires capacity >= 1
      ensures Valid() && used == [] && replies == [] && last == 0
    {
      this.capacity, this.latency, this.penalty, this.interval := capacity, latency, penalty, interval;
      entries, lru, reqEvents, reqQ, replies, last := map[], map[], map[], [], [], 0;
      order, used := [], [];
    }

    /** Makes room by forgetting the page whose time is smallest. */
    method Evict()
      requires Kept() && |lru| >= capacity
      modifies this`entries, this`lru, this`order
      ensures Linked(entries, lru, order) && old(order) != [] && order == old(order)[1..]
      ensures entries == old(entries) - {old(order)[0]} && lru.Keys <= old(lru.Keys)
    {
      hide Linked;
      Sizes(entries, lru, order);
      OldestFirst(entries, lru, order);
      var t :| t in lru && forall u :: u in lru ==> t <= u;
      DropKeeps(entries, lru, order);
      entries := entries - {lru[t]};
      lru := lru - {t};
      order := order[1..];
    }

    method Renew(page: nat, now: nat)
      requires Kept() && now >= last && page in entries
      modifies this`entries, this`lru, this`order, this`last
      ensures Kept() && last == now + 1 && page in entries && entries[page] == now
      ensures order == Remove(old(order), page) + [page]
    {
      RenewKeeps(entries, lru, order, page);
      AppendKeeps(entries - {page}, lru - {entries[page]}, Remove(order, page), page, now);
      SizeAfterHit(order, page);
      assert (entries - {page})[page := now] == entries[page := now];
      lru := lru - {entries[page]};
      entries := entries[page := now];
      lru := lru[now := page];
      order := Remove(order, page) + [page];
      last := now + 1;
    }

    method MakeRoom(page: nat)
      requires Kept() && page !in entries
      modifies this`entries, this`lru, this`order
      ensures Kept() && |order| < capacity && page !in entries
      ensures order == if |old(order)| >= capacity then old(order)[1..] else old(order)
    {
      hide Linked;
      Sizes(entries, lru, order);
      if |lru| >= capacity { Evict(); }
    }

    method Enter(page: nat, now: nat)
      requires Kept() && now >= last && page !in entries
      modifies this`entries, this`lru, this`order, this`last
      ensures Kept() && last == now + 1 && page in entries && entries[page] == now
      ensures order == (if |old(order)| >= capacity then old(order)[1..] else old(order)) + [page]
    {
      MakeRoom(page);
      AppendKeeps(entries, lru, order, page, now);
      entries := entries[page := now];
      lru := lru[now := page];
      order := order + [page];
      last := now + 1;
    }

    /** One access at a time later than all before: a hit renews the page, a miss brings it in, at the cost
        of the least recently used page if the TLB is full. */
    method Access(page: nat, now: nat) returns (hit: bool)
      requires Valid() && now >= last
      modifies this`entries, this`lru, this`order, this`last, this`used
      ensures Valid() && last == now + 1 && page in entries && entries[page] == now && used == old(used) + [page]
      ensures hit <==> page in old(used) && |Since(old(used), page)| < capacity
    {
      hide Linked, Since, Touch;
      PresentExactly(used, capacity, page);
      assert page in order <==> page in entries by { OrderIs(entries, lru, order); }
      TouchIs(order, page, capacity);
      assert (used + [page])[..|used|] == used;
      hit := page in entries;
      used := used + [page];
      if hit {
        Renew(page, now);
      } else {
        Enter(page, now);
      }
    }

    /** How long an access takes after these others: a hit is a page that has been used, with fewer other pages than
        there are entries used since. */
    function Delay(h: seq<nat>, page: nat): nat {
      latency + if page in h && |Since(h, page)| < capacity then 0 else penalty
    }

    /** Serves the first request of the queue. */
    method Serve(now: nat)
      requires Valid() && now >= last && reqQ != []
      modifies this`entries, this`lru, this`order, this`last, this`used, this`reqQ, this`replies
      ensures Valid() && reqQ == old(reqQ)[1..] && used == old(used) + [old(reqQ)[0].page]
      ensures replies == old(replies) + [Reply(now + Delay(old(used), old(reqQ)[0].page), old(reqQ)[0])]
    {
      hide Since, Tlb.Kept, After;
      var r := reqQ[0];
      reqQ := reqQ[1..];
      var hit := Access(r.page, now);
      replies := replies + [Reply(now + latency + if hit then 0 else penalty, r)];
    }

    method QueueDue(now: nat)
      modifies this`reqQ, this`reqEvents
      ensures reqEvents == Erase(old(reqEvents), now) && reqQ == old(reqQ) + At(old(reqEvents), now)
    {
      var due := At(reqEvents, now);
      var k := 0;
      while k < |due|
        invariant 0 <= k <= |due| && reqEvents == old(reqEvents) && reqQ == old(reqQ) + due[..k]
      {
        reqQ := reqQ + [due[k]];
        k := k + 1;
      }
      reqEvents := Erase(reqEvents, now);
    }

    /** One call: requests that are due are queued, the first one is served, and the TLB is called again while
        others wait. */
    method ProcessEvent(now: nat) returns (again: bool)
      requires Valid() && now >= last
      modifies this
      ensures Valid() && reqEvents == Erase(old(reqEvents), now) && again == (reqQ != [])
      ensures
        var all := old(reqQ) + At(old(reqEvents), now);
        if all == [] then reqQ == [] && used == old(used) && replies == old(replies)
        else
          && reqQ == all[1..] && used == old(used) + [all[0].page]
          && replies == old(replies) + [Reply(now + Delay(old(used), all[0].page), all[0])]
    {
      hide Since, Tlb.Kept, After, Tlb.Delay;
      QueueDue(now);
      if reqQ != [] { Serve(now); }
      again := reqQ != [];
    }
  }

  lemma OrderIs(entries: map<nat, nat>, lru: map<nat, nat>, l: seq<nat>)
    requires Linked(entries, lru, l)
    ensures forall p :: p in l <==> p in entries
  {
  }

  lemma TouchIs(l: seq<nat>, page: nat, capacity: nat)
    requires capacity >= 1
    ensures Touch(l, page, capacity) ==
      if page in l then Remove(l, page) + [page] else (if |l| >= capacity then l[1..] else l) + [page]
  {
  }

  /** A page that an access pushes out was the one used least recently, and the TLB was full. */
  lemma VictimIsOldest(l: seq<nat>, page: nat, capacity: nat, gone: nat)
    requires gone in l && gone !in Touch(l, page, capacity)
    ensures gone == l[0] && |l| >= capacity && page !in l
  {
    RemoveMembers(l, page);
    var rest := l[1..];
    assert l == [l[0]] + rest;
    assert gone == l[0] || gone in rest;
  }

  lemma SizeAfterHit(l: seq<nat>, page: nat)
    requires page in l
    ensures |Remove(l, page)| < |l|
  {
    if l[0] != page {
      assert l == [l[0]] + l[1..];
      SizeAfterHit(l[1..], page);
    }
  }
}
