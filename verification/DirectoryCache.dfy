/** The optional directory cache: sets of lines, most recently used first, in front of the directory.  A
    line outside its set must be loaded from memory before it can be used, and a line that is in transit,
    holds a request or is being loaded must not be pushed out. */
module DirectoryCache {
  import opened Basics
  import opened Coherence
  import opened DirectoryRuns
  import opened DirectoryUnit

  type Dir = map<nat, Entry>

  predicate Held(e: Entry) { Transient(e.state) || e.pending.Some? }

  /** What the victim search accepts. */
  predicate Evictable(dir: Dir, loading: set<nat>, x: nat) {
    x in dir && !Held(dir[x]) && x !in loading
  }

  /** A well-formed set: at most `ways` distinct lines, all its own and all in the directory. */
  ghost predicate SetOk(dir: Dir, sets: nat, ways: nat, index: nat, s: seq<nat>)
    requires sets > 0
  {
    && |s| <= ways && Distinct(s)
    && forall x :: x in s ==> x % sets == index && x in dir
  }

  ghost predicate Resident(cache: seq<seq<nat>>, x: nat)
    requires |cache| > 0
  {
    x in cache[x % |cache|]
  }

  /** Structure of the whole cache. */
  ghost predicate CacheOk(dir: Dir, loading: set<nat>, cache: seq<seq<nat>>, ways: nat) {
    && |cache| > 0 && loading <= dir.Keys
    && (forall k :: 0 <= k < |cache| ==> SetOk(dir, |cache|, ways, k, cache[k]))
    && (forall x :: x in dir && (Held(dir[x]) || x in loading) ==> Resident(cache, x))
  }

  // ---------------------------------------------------------------- what keeps the structure

  /** A line that stays where it is, or is moved to the front of its set. */
  lemma FrontKeeps(dir: Dir, sets: nat, ways: nat, index: nat, s: seq<nat>, i: nat)
    requires sets > 0 && SetOk(dir, sets, ways, index, s) && i < |s|
    ensures SetOk(dir, sets, ways, index, [s[i]] + Without(s, i))
    ensures forall x :: x in [s[i]] + Without(s, i) <==> x in s
  {
    WithoutKeeps(s, i);
    var front := [s[i]] + Without(s, i);
    assert forall x :: x in front <==> x == s[i] || x in Without(s, i);
    forall x | x in front ensures x % sets == index && x in dir { assert x in s; }
  }

  /** A new line takes the place of a victim, or of nothing while there is room. */
  lemma EnterKeeps(dir: Dir, dir': Dir, sets: nat, ways: nat, index: nat, s: seq<nat>, rest: seq<nat>, line: nat)
    requires sets > 0 && SetOk(dir, sets, ways, index, s) && line !in s && line % sets == index && line in dir'
    requires dir.Keys <= dir'.Keys
    requires (rest == s && |s| < ways) || exists i :: 0 <= i < |s| && rest == Without(s, i)
    ensures SetOk(dir', sets, ways, index, [line] + rest)
  {
    if exists i :: 0 <= i < |s| && rest == Without(s, i) {
      var i :| 0 <= i < |s| && rest == Without(s, i);
      WithoutKeeps(s, i);
    }
  }

  /** A reply never puts an idle line in transit, nor brings back a line that is gone. */
  lemma RepliesNeverHold(oe: Option<Entry>, m: Reply)
    requires oe.Some? ==> !Held(oe.value)
    ensures
      var o := OnReply(oe, m);
      o.Done? && o.entry.Some? ==> oe.Some? && !Held(o.entry.value)
  {
  }

  /** The directory changes in one line only, which stays put unless it leaves the directory. */
  lemma LineChanged(dir: Dir, dir': Dir, loading: set<nat>, cache: seq<seq<nat>>, ways: nat, line: nat)
    requires CacheOk(dir, loading, cache, ways)
    requires line in dir && line in dir' && forall x :: x != line ==> Find(dir', x) == Find(dir, x)
    requires Held(dir'[line]) ==> Resident(cache, line)
    ensures CacheOk(dir', loading, cache, ways)
  {
    SameElsewhere(dir, dir', line);
    forall x | x in dir' && (Held(dir'[x]) || x in loading) ensures Resident(cache, x) {
      if x != line { assert dir'[x] == dir[x]; }
    }
  }

  lemma SameElsewhere(dir: Dir, dir': Dir, line: nat)
    requires forall x :: x != line ==> Find(dir', x) == Find(dir, x)
    ensures forall x :: x != line ==> (x in dir' <==> x in dir) && (x in dir ==> dir'[x] == dir[x])
  {
    forall x | x != line ensures (x in dir' <==> x in dir) && (x in dir ==> dir'[x] == dir[x]) {
      assert Find(dir', x) == Find(dir, x);
    }
  }

  /** All sets but that of `line` stay as they are. */
  ghost predicate OthersStay(cache: seq<seq<nat>>, cache': seq<seq<nat>>, line: nat) {
    && 0 < |cache| == |cache'|
    && forall k :: 0 <= k < |cache| && k != line % |cache| ==> cache'[k] == cache[k]
  }

  /** The line is no longer in its set, whose other lines keep their order; all other sets stay. */
  ghost predicate TakenOut(cache: seq<seq<nat>>, cache': seq<seq<nat>>, line: nat) {
    && OthersStay(cache, cache', line)
    && var s, s' := cache[line % |cache|], cache'[line % |cache|];
       (line !in s && s' == s) || exists i :: 0 <= i < |s| && s[i] == line && s' == Without(s, i)
  }

  lemma LineGone(dir: Dir, dir': Dir, loading: set<nat>,
                 cache: seq<seq<nat>>, cache': seq<seq<nat>>, ways: nat, line: nat)
    requires CacheOk(dir, loading, cache, ways)
    requires line !in dir' && forall x :: x != line ==> Find(dir', x) == Find(dir, x)
    requires TakenOut(cache, cache', line)
    ensures CacheOk(dir', loading - {line}, cache', ways)
  {
    SameElsewhere(dir, dir', line);
    var index := line % |cache|;
    var s := cache[index];
    if line in s {
      var i :| 0 <= i < |s| && s[i] == line && cache'[index] == Without(s, i);
      WithoutKeeps(s, i);
    }
    forall k | 0 <= k < |cache| ensures SetOk(dir', |cache|, ways, k, cache'[k]) {
      assert SetOk(dir, |cache|, ways, k, cache[k]);
    }
  }

  /** What becomes of a set when `line` comes in: the line leads, and if there was no room, a victim is gone. */
  ghost predicate Entered(dir: Dir, loading: set<nat>, ways: nat, s: seq<nat>, s': seq<nat>, line: nat) {
    if |s| < ways then s' == [line] + s
    else exists i :: 0 <= i < |s| && Victim(dir, loading, s, i) && s' == [line] + Without(s, i)
  }

  /** The search for a victim starts at the front of the set and takes the first line that may go. */
  ghost predicate Victim(dir: Dir, loading: set<nat>, s: seq<nat>, i: nat)
    requires i < |s|
  {
    Evictable(dir, loading, s[i]) && forall j :: 0 <= j < i ==> !Evictable(dir, loading, s[j])
  }

  lemma LineEnters(dir: Dir, dir': Dir, loading: set<nat>, loading': set<nat>,
                   cache: seq<seq<nat>>, cache': seq<seq<nat>>, ways: nat, line: nat)
    requires CacheOk(dir, loading, cache, ways) && !Resident(cache, line)
    requires line in dir' && (forall x :: x != line ==> Find(dir', x) == Find(dir, x)) && loading' <= loading + {line}
    requires OthersStay(cache, cache', line)
    requires Entered(dir, loading, ways, cache[line % |cache|], cache'[line % |cache|], line)
    ensures CacheOk(dir', loading', cache', ways) && Resident(cache', line)
  {
    SameElsewhere(dir, dir', line);
    var index := line % |cache|;
    var s, s' := cache[index], cache'[index];
    EnteredOk(dir, dir', loading, |cache|, ways, index, s, s', line);
    forall x | x in dir' && (Held(dir'[x]) || x in loading') ensures Resident(cache', x) {
      if x != line { assert Resident(cache, x); }
    }
    forall k | 0 <= k < |cache| ensures SetOk(dir', |cache|, ways, k, cache'[k]) {
      assert SetOk(dir, |cache|, ways, k, cache[k]);
    }
  }

  lemma EnteredOk(dir: Dir, dir': Dir, loading: set<nat>, sets: nat, ways: nat, index: nat,
                  s: seq<nat>, s': seq<nat>, line: nat)
    requires sets > 0 && SetOk(dir, sets, ways, index, s) && line !in s && line % sets == index && line in dir'
    requires forall x :: x in dir ==> x in dir'
    requires Entered(dir, loading, ways, s, s', line)
    ensures SetOk(dir', sets, ways, index, s') && line in s'
    ensures forall x :: x in dir && (Held(dir[x]) || x in loading) && x in s ==> x in s'
  {
    var rest := s'[1..];
    EnterKeeps(dir, dir', sets, ways, index, s, rest, line);
    assert s' == [line] + rest;
    if |s| < ways && s' == [line] + s {
      assert rest == s;
    } else {
      var i :| 0 <= i < |s| && Victim(dir, loading, s, i) && s' == [line] + Without(s, i);
      WithoutKeeps(s, i);
    }
  }

  lemma LineTouched(dir: Dir, loading: set<nat>, loading': set<nat>,
                    cache: seq<seq<nat>>, cache': seq<seq<nat>>, ways: nat, line: nat, i: nat)
    requires CacheOk(dir, loading, cache, ways) && loading' <= loading
    requires i < |cache[line % |cache|]| && cache[line % |cache|][i] == line
    requires OthersStay(cache, cache', line)
    requires cache'[line % |cache|] == [line] + Without(cache[line % |cache|], i)
    ensures CacheOk(dir, loading', cache', ways) && Resident(cache', line)
  {
    var index := line % |cache|;
    FrontKeeps(dir, |cache|, ways, index, cache[index], i);
    forall k | 0 <= k < |cache| ensures SetOk(dir, |cache|, ways, k, cache'[k]) {
      assert SetOk(dir, |cache|, ways, k, cache[k]);
    }
    forall x | x in dir && (Held(dir[x]) || x in loading') ensures Resident(cache', x) {
      assert Resident(cache, x);
    }
  }

  // ---------------------------------------------------------------- recency

  /** When a line was last used, as a position in the list of all uses; -1 if never. */
  function LastUse(uses: seq<nat>, x: nat): (t: int)
    ensures -1 <= t < |uses|
  {
    if uses == [] then -1 else if uses[|uses|-1] == x then |uses| - 1 else LastUse(uses[..|uses|-1], x)
  }

  /** Every line of the set has been used, and those in front were used later. */
  ghost predicate ByRecency(s: seq<nat>, uses: seq<nat>) {
    && (forall i :: 0 <= i < |s| ==> LastUse(uses, s[i]) >= 0)
    && forall i, j :: 0 <= i < j < |s| ==> LastUse(uses, s[j]) < LastUse(uses, s[i])
  }

  lemma UsedNow(uses: seq<nat>, line: nat, x: nat)
    ensures LastUse(uses + [line], x) == if x == line then |uses| else LastUse(uses, x)
  {
    assert (uses + [line])[..|uses|] == uses;
  }

  lemma WithoutByRecency(s: seq<nat>, uses: seq<nat>, i: nat)
    requires ByRecency(s, uses) && i < |s|
    ensures ByRecency(Without(s, i), uses)
  {
    var w := Without(s, i);
    assert forall k :: 0 <= k < |w| ==> w[k] == s[if k < i then k else k + 1];
  }

  lemma StaysByRecency(s: seq<nat>, uses: seq<nat>, line: nat)
    requires ByRecency(s, uses) && line !in s
    ensures ByRecency(s, uses + [line]) && ByRecency([line] + s, uses + [line])
  {
    forall x ensures LastUse(uses + [line], x) == if x == line then |uses| else LastUse(uses, x) {
      UsedNow(uses, line, x);
    }
  }

  ghost predicate AllByRecency(cache: seq<seq<nat>>, uses: seq<nat>) {
    forall k :: 0 <= k < |cache| ==> ByRecency(cache[k], uses)
  }

  /** Using a line, which then leads its set, keeps all sets in order. */
  lemma UseKeepsOrder(dir: Dir, loading: set<nat>, cache: seq<seq<nat>>, ways: nat, uses: seq<nat>, line: nat,
                      rest: seq<nat>)
    requires CacheOk(dir, loading, cache, ways) && AllByRecency(cache, uses)
    requires ByRecency(rest, uses) && line !in rest
    ensures AllByRecency(cache[line % |cache| := [line] + rest], uses + [line])
  {
    var cache' := cache[line % |cache| := [line] + rest];
    StaysByRecency(rest, uses, line);
    forall k | 0 <= k < |cache'| ensures ByRecency(cache'[k], uses + [line]) {
      if k != line % |cache| {
        assert SetOk(dir, |cache|, ways, k, cache[k]);
        StaysByRecency(cache[k], uses, line);
      }
    }
  }

  /** The victim is the most recently used of the lines that may go.  It is the oldest of them, as the code's comments
      promise, if and only if it is the only one. */
  lemma VictimIsNewest(dir: Dir, loading: set<nat>, s: seq<nat>, uses: seq<nat>, v: nat)
    requires ByRecency(s, uses) && v < |s| && Victim(dir, loading, s, v)
    ensures forall x :: x in s && Evictable(dir, loading, x) ==> LastUse(uses, x) <= LastUse(uses, s[v])
    ensures
      (forall x :: x in s && Evictable(dir, loading, x) ==> LastUse(uses, s[v]) <= LastUse(uses, x)) <==>
      (forall x :: x in s && Evictable(dir, loading, x) ==> x == s[v])
  {
    forall x | x in s && Evictable(dir, loading, x)
      ensures LastUse(uses, x) <= LastUse(uses, s[v]) && (LastUse(uses, x) == LastUse(uses, s[v]) ==> x == s[v])
    {
      var i :| 0 <= i < |s| && s[i] == x;
      assert v <= i;
    }
  }

  // ---------------------------------------------------------------- the cached directory

  /** What came of a message: it was handled, is tried again after some intervals, was refused, started a load of the
      line from memory, or was dropped. */
  datatype Verdict = Handled(o: Outcome) | Later(intervals: nat) | Refused | Fetching | Dropped

  const AFTER_LOADING := 100

  const AFTER_FULL := 2

  /** No line of the set may be pushed out, and there is no room for another. */
  ghost predicate Blocked(dir: Dir, loading: set<nat>, ways: nat, s: seq<nat>) {
    |s| == ways && forall x :: x in s ==> !Evictable(dir, loading, x)
  }

  /** A message that was handled leaves the line as its outcome says, and all other lines as they were. */
  ghost predicate Stands(before: Dir, after: Dir, line: nat, v: Verdict) {
    v.Handled? ==> DirectoryRuns.Handled(before, after, line, v.o)
  }

  /** The line with this request in its pending slot. */
  function Parking(dir: Dir, line: nat, pending: Option<Req>): Dir
    requires line in dir
  {
    dir[line := dir[line].(pending := pending)]
  }

  /** The line has left the directory. */
  predicate Erased(v: Verdict) { v.Handled? && v.o.Done? && v.o.entry.None? }

  class CachedDirectory {
    const core: Directory
    const ways: nat
    const self: Cache       // the directory itself, as the sender of its own loads

    var cache: seq<seq<nat>>    // dir_cache
    var loading: set<nat>       // the lines with not_in_dc

    ghost var uses: seq<nat>    // all lines that were looked up or brought in, in order

    ghost predicate Valid()
      reads this, core
    {
      CacheOk(core.dir, loading, cache, ways) && AllByRecency(cache, uses)
    }

    constructor (core: Directory, sets: nat, ways: nat, self: Cache)
      requires core.dir == map[] && sets > 0
      ensures Valid() && this.core == core && this.ways == ways && uses == []
    {
      this.core, this.ways, this.self := core, ways, self;
      cache, loading, uses := seq(sets, _ => []), {}, [];
    }

    /** The position of a line in its set, or -1. */
    method Seek(line: nat) returns (at: int)
      requires Valid()
      ensures at == -1 ==> !Resident(cache, line)
      ensures at != -1 ==> 0 <= at < |cache[line % |cache|]| && cache[line % |cache|][at] == line
    {
      var s := cache[line % |cache|];
      for i := 0 to |s|
        invariant line !in s[..i]
      {
        if s[i] == line { return i; }
      }
      assert s[..|s|] == s;
      return -1;
    }

    /** Moves a line to the front of its set. */
    method Touch(line: nat, at: nat)
      requires Valid() && at < |cache[line % |cache|]| && cache[line % |cache|][at] == line
      modifies this`cache, this`uses
      ensures Valid() && Resident(cache, line) && OthersStay(old(cache), cache, line)
      ensures cache[line % |cache|] == [line] + Without(old(cache)[line % |cache|], at) && uses == old(uses) + [line]
    {
      ghost var before := cache;
      var index := line % |cache|;
      assert SetOk(core.dir, |cache|, ways, index, cache[index]);
      WithoutKeeps(cache[index], at);
      WithoutByRecency(cache[index], uses, at);
      UseKeepsOrder(core.dir, loading, cache, ways, uses, line, Without(cache[index], at));
      cache := cache[index := [line] + Without(cache[index], at)];
      uses := uses + [line];
      LineTouched(core.dir, loading, loading, before, cache, ways, line, at);
    }

    /** Brings a line in at the front of its set, pushing out the first line that may go. */
    method MakeRoom(line: nat) returns (ok: bool)
      requires Valid() && !Resident(cache, line)
      modifies this`cache, this`uses
      ensures OthersStay(old(cache), cache, line) && AllByRecency(cache, uses)
      ensures uses == old(uses) + if ok then [line] else []
      ensures ok ==> Entered(core.dir, loading, ways, old(cache)[line % |cache|], cache[line % |cache|], line)
      ensures !ok <==> old(Blocked(core.dir, loading, ways, cache[line % |cache|]))
      ensures !ok ==> cache == old(cache)
    {
      var index := line % |cache|;
      var s := cache[index];
      assert SetOk(core.dir, |cache|, ways, index, s);
      if |s| < ways {
        UseKeepsOrder(core.dir, loading, cache, ways, uses, line, s);
        cache := cache[index := [line] + s];
        uses := uses + [line];
        return true;
      }
      for i := 0 to |s|
        invariant cache == old(cache) && uses == old(uses)
        invariant forall j :: 0 <= j < i ==> !Evictable(core.dir, loading, s[j])
      {
        if Evictable(core.dir, loading, s[i]) {
          WithoutKeeps(s, i);
          WithoutByRecency(s, uses, i);
          UseKeepsOrder(core.dir, loading, cache, ways, uses, line, Without(s, i));
          cache := cache[index := [line] + Without(s, i)];
          uses := uses + [line];
          return true;
        }
      }
      return false;
    }

    /** Takes out a line that has left the directory. */
    method Remove(line: nat, ghost before: Dir)
      requires CacheOk(before, loading, cache, ways) && AllByRecency(cache, uses) && line !in core.dir
      requires forall x :: x != line ==> Find(core.dir, x) == Find(before, x)
      modifies this`cache, this`loading
      ensures Valid() && TakenOut(old(cache), cache, line) && loading == old(loading) - {line}
    {
      ghost var was := cache;
      var index := line % |cache|;
      var s := cache[index];
      for i := 0 to |s|
        invariant cache == was && loading == old(loading)
        invariant line !in s[..i]
      {
        if s[i] == line {
          WithoutByRecency(s, uses, i);
          cache := cache[index := Without(s, i)];
          loading := loading - {line};
          LineGone(before, core.dir, old(loading), was, cache, ways, line);
          return;
        }
      }
      assert s[..|s|] == s;
      loading := loading - {line};
      LineGone(before, core.dir, old(loading), was, cache, ways, line);
    }

    /** Hands a reply to the directory, and takes the line out if that erases it. */
    method Reply(line: nat, m: Reply) returns (v: Verdict)
      requires Valid()
      modifies this`cache, this`loading, core`dir
      ensures Valid()
      ensures v == Handled(OnReply(old(Find(core.dir, line)), m)) && Stands(old(core.dir), core.dir, line, v)
      ensures Erased(v) ==> TakenOut(old(cache), cache, line) && loading == old(loading) - {line}
      ensures !Erased(v) ==> cache == old(cache) && loading == old(loading)
    {
      ghost var before := core.dir;
      RepliesHoldOnlyResidents(before, loading, cache, ways, line, m);
      var o := core.HandleReply(line, m);
      v := Handled(o);
      if o.Done? && o.entry.None? {
        Remove(line, before);
      } else if line in core.dir {
        LineChanged(before, core.dir, loading, cache, ways, line);
      } else {
        SameElsewhere(before, core.dir, line);
        assert Find(core.dir, line) == Find(before, line);
        assert core.dir == before;
      }
    }

    /** An eviction, or (info) the directory's own load on behalf of one.  A line outside its set is brought
        in and its load is started, but the eviction itself is not held up. */
    method Evicted(line: nat, c: Cache, info: bool) returns (v: Verdict)
      requires Valid()
      modifies this`cache, this`loading, this`uses, core`dir
      ensures Valid()
      ensures uses == old(uses) + if line in old(core.dir) && v != Later(AFTER_FULL) then [line] else []
      ensures v.Later? || v.Dropped? ==> core.dir == old(core.dir)
      ensures v.Dropped? <==> line !in old(core.dir) || (info && old(Resident(cache, line)))
      ensures v == Later(AFTER_LOADING) <==>
        line in old(core.dir) && !info && old(Resident(cache, line)) && line in old(loading)
      ensures v == Later(AFTER_FULL) <==>
        && line in old(core.dir) && !old(Resident(cache, line))
        && old(Blocked(core.dir, loading, ways, cache[line % |cache|]))
      ensures v.Later? ==> v.intervals == AFTER_LOADING || v.intervals == AFTER_FULL
      ensures !v.Later? && !v.Dropped? ==>
        v == Handled(OnReply(old(Find(core.dir, line)), Evict(if info then self else c)))
      ensures OthersStay(old(cache), cache, line) && Stands(old(core.dir), core.dir, line, v)
      ensures loading ==
        if Erased(v) || (v.Dropped? && line in old(core.dir)) then old(loading) - {line}
        else if v.Handled? && !old(Resident(cache, line)) then old(loading) + {line}
        else old(loading)
    {
      if line !in core.dir { return Dropped; }
      var at := Seek(line);
      if at != -1 {
        Touch(line, at);
        if info {
          loading := loading - {line};
          return Dropped;
        }
        if line in loading { return Later(AFTER_LOADING); }
      } else {
        ghost var before := cache;
        var ok := MakeRoom(line);
        if !ok { return Later(AFTER_FULL); }
        LineEnters(core.dir, core.dir, loading, loading + {line}, before, cache, ways, line);
        loading := loading + {line};
      }
      v := Reply(line, Evict(if info then self else c));
    }

    /** A request, or (info) the directory's own load that a parked request waits for.  The parked request is
        then handled; it is an error if there is none, or if the line has lost its place. */
    method Request(line: nat, r: Req, info: bool) returns (v: Verdict)
      requires Valid() && r.kind != Active
      requires core.limitless && line in core.dir ==> core.dir[line].sharers <= core.caches
      modifies this`cache, this`loading, this`uses, core`dir
      ensures Valid()
      ensures uses == old(uses) + [line] || (uses == old(uses) && cache == old(cache) && core.dir == old(core.dir))
      ensures !info && !(line in old(core.dir) && old(Resident(cache, line))) ==>
        (v.Refused? <==> old(Blocked(core.dir, loading, ways, cache[line % |cache|])))
      ensures v.Fetching? <==>
        && line in old(core.dir) && !info && !old(Resident(cache, line))
        && !old(Blocked(core.dir, loading, ways, cache[line % |cache|]))
      ensures line in old(core.dir) && info && !(old(Resident(cache, line)) && old(core.dir)[line].pending.Some?) ==>
        v == Handled(Failed)
      ensures v.Fetching? || (line in old(core.dir) && old(Resident(cache, line))) ==> uses == old(uses) + [line]
      ensures v.Refused? ==> core.dir == old(core.dir)
      ensures v.Fetching? ==> Resident(cache, line) && core.dir == Parking(old(core.dir), line, Some(r))
      ensures !v.Fetching? ==>
        Stands(if info && line in old(core.dir) && old(Resident(cache, line)) then Parking(old(core.dir), line, None)
               else old(core.dir), core.dir, line, v)
      ensures loading ==
        if v.Fetching? then old(loading) + {line}
        else if info && line in old(core.dir) && old(Resident(cache, line)) && old(core.dir)[line].pending.Some?
        then old(loading) - {line}
        else old(loading)
      ensures line !in old(core.dir) && !v.Refused? ==>
        v == Handled(OnRequest(None, if info then Req(r.id, Write, self) else r))
      ensures line in old(core.dir) && old(Resident(cache, line)) && !info ==>
        v == if old(core.dir)[line].pending.Some? then Refused else Handled(OnRequest(Some(old(core.dir)[line]), r))
      ensures line in old(core.dir) && old(Resident(cache, line)) && info && old(core.dir)[line].pending.Some? ==>
        v == Handled(OnRequest(Some(old(core.dir)[line].(pending := None)), old(core.dir)[line].pending.value))
    {
      hide AllByRecency, Blocked, SetOk, OnRequest;
      if line !in core.dir {
        v := Allocate(line, if info then Req(r.id, Write, self) else r);
        return;
      }
      var at := Seek(line);
      if at == -1 {
        if info { return Handled(Failed); }
        v := Fetch(line, r);
        return;
      }
      v := Resume(line, at, r, info);
    }

    /** A request for a line that is in its set, or the end of its load. */
    method Resume(line: nat, at: nat, r: Req, info: bool) returns (v: Verdict)
      requires Valid() && line in core.dir && at < |cache[line % |cache|]| && cache[line % |cache|][at] == line
      requires core.limitless ==> core.dir[line].sharers <= core.caches
      modifies this`cache, this`loading, this`uses, core`dir
      ensures Valid() && uses == old(uses) + [line]
      ensures v.Refused? ==> core.dir == old(core.dir)
      ensures Stands(if info then Parking(old(core.dir), line, None) else old(core.dir), core.dir, line, v)
      ensures loading == old(loading) - if info && old(core.dir)[line].pending.Some? then {line} else {}
      ensures
        var e := old(core.dir)[line];
        v == if info then
               if e.pending.None? then Handled(Failed)
               else Handled(OnRequest(Some(e.(pending := None)), e.pending.value))
             else if e.pending.Some? then Refused
             else Handled(OnRequest(Some(e), r))
    {
      hide AllByRecency, Blocked, SetOk, OnRequest;
      Touch(line, at);
      var e := core.dir[line];
      if info {
        if e.pending.None? {
          assert Parking(core.dir, line, None) == core.dir;
          return Handled(Failed);
        }
        ghost var before := core.dir;
        core.dir := core.dir[line := e.(pending := None)];
        loading := loading - {line};
        LineChanged(before, core.dir, loading, cache, ways, line);
        v := Use(line, e.pending.value);
      } else if e.pending.Some? {
        return Refused;
      } else {
        v := Use(line, r);
      }
    }

    /** A line that is new to the directory. */
    method Allocate(line: nat, r: Req) returns (v: Verdict)
      requires Valid() && line !in core.dir && r.kind != Active
      modifies this`cache, this`loading, this`uses, core`dir
      ensures Valid()
      ensures uses == old(uses) + if v.Refused? then [] else [line]
      ensures v.Refused? <==> old(Blocked(core.dir, loading, ways, cache[line % |cache|]))
      ensures v.Refused? ==> core.dir == old(core.dir) && cache == old(cache)
      ensures !v.Refused? ==> v == Handled(OnRequest(None, r)) && Resident(cache, line)
      ensures Stands(old(core.dir), core.dir, line, v) && loading == old(loading)
    {
      ghost var before, was := cache, core.dir;
      assert !Resident(cache, line) by { assert SetOk(core.dir, |cache|, ways, line % |cache|, cache[line % |cache|]); }
      var ok := MakeRoom(line);
      if !ok { return Refused; }
      var o := core.HandleRequest(line, r);
      LineEnters(was, core.dir, loading, loading, before, cache, ways, line);
      return Handled(o);
    }

    /** A line that the directory knows but the cache does not: the request is parked until it is loaded. */
    method Fetch(line: nat, r: Req) returns (v: Verdict)
      requires Valid() && line in core.dir && !Resident(cache, line)
      modifies this`cache, this`loading, this`uses, core`dir
      ensures Valid()
      ensures v.Refused? || v.Fetching?
      ensures uses == old(uses) + if v.Refused? then [] else [line]
      ensures v.Refused? <==> old(Blocked(core.dir, loading, ways, cache[line % |cache|]))
      ensures v.Refused? ==> core.dir == old(core.dir) && cache == old(cache)
      ensures v.Fetching? ==> core.dir == Parking(old(core.dir), line, Some(r)) && old(core.dir)[line].pending.None?
      ensures v.Fetching? ==> Resident(cache, line)
      ensures loading == old(loading) + if v.Fetching? then {line} else {}
    {
      ghost var before, was := cache, core.dir;
      var ok := MakeRoom(line);
      if !ok { return Refused; }
      core.dir := core.dir[line := core.dir[line].(pending := Some(r))];
      LineEnters(was, core.dir, loading, loading + {line}, before, cache, ways, line);
      loading := loading + {line};
      return Fetching;
    }

    /** A request for a line that is in its set. */
    method Use(line: nat, r: Req) returns (v: Verdict)
      requires Valid() && line in core.dir && Resident(cache, line)
      requires core.limitless ==> core.dir[line].sharers <= core.caches
      modifies core`dir
      ensures Valid()
      ensures v == Handled(OnRequest(Some(old(core.dir)[line]), r)) && Stands(old(core.dir), core.dir, line, v)
    {
      ghost var before := core.dir;
      var o := core.HandleRequest(line, r);
      v := Handled(o);
      assert Find(core.dir, line).Some?;
      LineChanged(before, core.dir, loading, cache, ways, line);
    }
  }

  /** Whatever a reply leaves in transit was so before, and hence resident. */
  lemma RepliesHoldOnlyResidents(dir: Dir, loading: set<nat>, cache: seq<seq<nat>>, ways: nat,
                                 line: nat, m: Coherence.Reply)
    requires CacheOk(dir, loading, cache, ways)
    ensures
      var o := OnReply(Find(dir, line), m);
      o.Done? && o.entry.Some? ==> line in dir && (Held(o.entry.value) ==> Resident(cache, line))
  {
    if line !in dir || !Held(dir[line]) { RepliesNeverHold(Find(dir, line), m); }
  }
}
