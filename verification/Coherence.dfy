/** The per-line handlers of the coherence directory.

    A directory entry is the record kept for one cache line that some L2 holds or is waiting for.
    `OnReply` and `OnRequest` say what one incoming message does to that record and which messages
    leave the directory because of it.  Both follow the branches of the directory with its
    directory cache switched off; `Failed` stands for every place where the simulator aborts
    (`ASSERTX(0)`, or a dereference of an empty sharer set). */
module Coherence {

  import opened Basics

  type Cache = nat  // an L2 cache; the numeric order stands for the iteration order of `sharedl2`

  /** `Active` requests (updates to be offloaded to the memory network) exist only in the
      active-routing version of the directory. */
  datatype Kind = Read | Write | Active

  datatype Req = Req(id: nat, kind: Kind, from: Cache)

  datatype State =
    | Shared | Exclusive | Modified
    | TrToI | TrToS | TrToM | TrToE | MToS

  predicate Transient(s: State) {
    s.TrToI? || s.TrToS? || s.TrToM? || s.TrToE? || s.MToS?
  }

  datatype Entry = Entry(state: State, sharers: set<Cache>, pending: Option<Req>, gotLine: bool)

  /** Messages the directory has sent and that will be answered once. */
  datatype Flight =
    | MemoryRead(r: Req)    // et_e_rd to the memory controller
    | ShareProbe(c: Cache)  // et_e_to_s or et_s_to_s
    | DirtyProbe(c: Cache)  // et_dir_rd
    | InvalProbe(c: Cache)  // et_invalidate or et_invalidate_nd
    | UpgradeGrant(c: Cache)  // et_write_nd, acknowledged by et_e_to_m or et_e_to_i

  /** Messages that arrive on the reply side. */
  datatype Reply =
    | Evict(c: Cache)
    | UpgradeDone(c: Cache)            // et_e_to_m
    | UpgradeLost(c: Cache)            // et_e_to_i
    | InvalAck(c: Cache, data: bool)   // et_invalidate / et_invalidate_nd
    | ShareAck(c: Cache, data: bool)   // et_e_to_s, et_s_to_s / their _nd forms
    | DirtyAck(c: Cache, data: bool)   // et_dir_rd / et_dir_rd_nd
    | MemoryData(r: Req)               // et_e_rd coming back

  datatype How = Nack | Fill | Grant | Offload

  datatype Answer = Answer(r: Req, how: How)

  /** What handling one message does: the new entry (None once it is erased), the messages sent
      that will be answered, the request answered by this step if any, whether the request goes
      back to the request queue, and whether a dirty line is written to memory. */
  datatype Outcome =
    | Done(entry: Option<Entry>, launched: multiset<Flight>, answer: Option<Answer>,
           retry: bool, writeBack: bool)
    | Failed

  const NOTHING: multiset<Flight> := multiset{}

  function Quiet(e: Option<Entry>): Outcome {
    Done(e, NOTHING, None, false, false)
  }

  function Reject(e: Option<Entry>, r: Req): Outcome {
    Done(e, NOTHING, Some(Answer(r, Nack)), false, false)
  }

  /** One invalidation per sharer.  The limitless broadcast sends `et_nop` to every other L2 as
      well; an L2 drops `et_nop` without answering, so it is not a message in flight. */
  ghost function Invalidations(sharers: set<Cache>): multiset<Flight> {
    multiset(set c | c in sharers :: InvalProbe(c))
  }

  lemma LeastOf(s: set<Cache>) returns (m: Cache)
    requires s != {}
    ensures m in s && forall x :: x in s ==> m <= x
  {
    var y :| y in s;
    var t := s - {y};
    if t == {} {
      m := y;
      forall x | x in s ensures x == y { assert x in t || x == y; }
    } else {
      var k := LeastOf(t);
      m := if y <= k then y else k;
      forall x | x in s ensures m <= x { assert x in t || x == y; }
    }
  }

  /** The sharer that `sharedl2.begin()` points at. */
  ghost function First(s: set<Cache>): (m: Cache)
    requires s != {}
    ensures m in s && forall x :: x in s ==> m <= x
  {
    assert exists m :: m in s && forall x :: x in s ==> m <= x by { var k := LeastOf(s); }
    var m :| m in s && forall x :: x in s ==> m <= x;
    m
  }

  function Drop(e: Entry, c: Cache): Option<Entry> {
    var rest := e.sharers - {c};
    if rest == {} then None else Some(e.(sharers := rest))
  }

  ghost function OnEvict(e: Entry, c: Cache): Outcome {
    if e.state.Modified? || e.state.MToS? then
      if |e.sharers| > 1 then Failed
      else if c !in e.sharers then Quiet(Some(e))
      else
        Done(if e.state.Modified? then None else Some(e.(sharers := e.sharers - {c})),
             NOTHING, None, false, true)
    else if e.state.TrToS? then Quiet(Some(e.(sharers := e.sharers - {c})))
    else if e.state.TrToM? then Quiet(Some(e))
    else Quiet(Drop(e, c))
  }

  ghost function OnInvalAck(e: Entry, c: Cache, data: bool): Outcome {
    if !e.state.TrToM? && !e.state.TrToI? then Failed
    else if e.pending.None? then Failed
    else
      var got := data || e.gotLine;
      var rest := e.sharers - {c};
      var r := e.pending.value;
      if rest != {} then Quiet(Some(e.(sharers := rest, gotLine := got)))
      else if r.kind.Active? then Done(None, NOTHING, Some(Answer(r, Offload)), false, false)
      else if got then
        Done(Some(Entry(Modified, {r.from}, None, false)), NOTHING, Some(Answer(r, Fill)), false, false)
      else
        Done(Some(e.(sharers := {r.from}, pending := None)),
             multiset{MemoryRead(r)}, None, false, false)
  }

  /** The probe sent to share a line came back, with or without the line. */
  ghost function OnShared(oe: Option<Entry>, data: bool, dirty: bool): Outcome {
    if oe.None? || !(oe.value.state.TrToS? || oe.value.state.MToS?) || oe.value.pending.None? then Failed
    else
      var e := oe.value;
      var r := e.pending.value;
      if data then
        Done(Some(e.(state := Shared, sharers := e.sharers + {r.from}, pending := None)),
             NOTHING, Some(Answer(r, Fill)), false, dirty)
      else
        Done(if e.sharers == {} then None else Some(e.(state := Shared, pending := None)),
             NOTHING, Some(Answer(r, Nack)), false, false)
  }

  ghost function OnReply(oe: Option<Entry>, m: Reply): Outcome {
    match m
    case Evict(c) => if oe.None? then Quiet(None) else OnEvict(oe.value, c)
    case UpgradeLost(c) =>
      if oe.None? then Quiet(None) else if !oe.value.state.TrToM? then Failed else Quiet(None)
    case UpgradeDone(c) =>
      if oe.None? then Quiet(None)
      else if !oe.value.state.TrToM? then Failed
      else Quiet(Some(oe.value.(state := Modified, pending := None)))
    case InvalAck(c, data) => if oe.None? then Quiet(None) else OnInvalAck(oe.value, c, data)
    case ShareAck(c, data) => OnShared(oe, data, false)
    case DirtyAck(c, data) => OnShared(oe, data, true)
    case MemoryData(r) =>
      var e' :=
        if oe.Some? && oe.value.state.TrToE? then Some(oe.value.(state := Exclusive))
        else if oe.Some? && oe.value.state.TrToM? then Some(oe.value.(state := Modified))
        else oe;
      Done(e', NOTHING, Some(Answer(r, Fill)), false, false)
  }

  ghost function OnRead(e: Entry, r: Req): Outcome {
    if r.from in e.sharers then Reject(Some(e), r)
    else if e.sharers == {} then Failed
    else if e.state.Shared? then
      Done(Some(e.(state := TrToS, pending := Some(r))), multiset{ShareProbe(First(e.sharers))},
           None, false, false)
    else if |e.sharers| != 1 then Failed
    else if e.state.Exclusive? then
      Done(Some(e.(state := TrToS, pending := Some(r))), multiset{ShareProbe(First(e.sharers))},
           None, false, false)
    else
      Done(Some(e.(state := MToS, pending := Some(r))), multiset{DirtyProbe(First(e.sharers))},
           None, false, false)
  }

  ghost function OnWrite(e: Entry, r: Req): Outcome {
    match e.state
    case Exclusive =>
      if |e.sharers| != 1 then Failed
      else if r.from in e.sharers then
        Done(Some(e.(state := TrToM)), multiset{UpgradeGrant(r.from)}, Some(Answer(r, Grant)), false, false)
      else
        Done(Some(e.(state := TrToM, pending := Some(r), gotLine := false)),
             Invalidations(e.sharers), None, false, false)
    case Shared =>
      if e.sharers == {} then Failed
      else Done(Some(e.(state := TrToM, pending := Some(r))), Invalidations(e.sharers), None, false, false)
    case Modified =>
      if e.pending.Some? || |e.sharers| != 1 then Failed
      else if r.from in e.sharers then Reject(Some(e), r)
      else Done(Some(e.(state := TrToM, pending := Some(r))), Invalidations(e.sharers), None, false, false)
    case _ => Failed
  }

  /** Back-invalidation in front of an offload. */
  ghost function OnActive(e: Entry, r: Req): Outcome {
    if (e.state.Exclusive? && |e.sharers| == 1)
       || (e.state.Modified? && e.pending.None? && |e.sharers| == 1)
       || (e.state.Shared? && e.sharers != {})
    then Done(Some(e.(state := TrToI, pending := Some(r))), Invalidations(e.sharers), None, false, false)
    else Failed
  }

  ghost function OnRequest(oe: Option<Entry>, r: Req): Outcome {
    match oe
    case None =>
      if r.kind.Active? then Done(None, NOTHING, Some(Answer(r, Offload)), false, false)
      else
        Done(Some(Entry(if r.kind.Read? then TrToE else TrToM, {r.from}, None, false)),
             multiset{MemoryRead(r)}, None, false, false)
    case Some(e) =>
      if Transient(e.state) then
        if r.kind.Active? then Done(oe, NOTHING, None, true, false) else Reject(oe, r)
      else
        match r.kind
        case Read => OnRead(e, r)
        case Write => OnWrite(e, r)
        case Active => OnActive(e, r)
  }
}
