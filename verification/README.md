# A verified model of the McSimA+ simulator core

McSimA+ is an event-driven simulator of manycore processors; the active-routing version adds updates that are
offloaded to a network of memory cubes. Its core is a set of state machines that exchange messages under one
clock. This project models those machines in Dafny and proves what they keep over every run.

Each machine comes in two parts. A module of values and functions says what one step does and proves the run-level
theorems; a class with the simulator's own fields, queues and loops is proved against those functions, call by call.

| files | machine |
|---|---|
| `Coherence`, `CoherenceProtocol`, `BackInvalidation`, `DirtyLines`, `Holders`, `CoherenceRuns` | one line of the coherence directory, with the active-request paths |
| `DirectoryRuns`, `Directory` | the whole directory: all lines, its queues and its calls |
| `DirectoryCache` | the directory cache in front of it |
| `GatherBarrier`, `HmcControllers` | the gather barrier of the memory-network controllers |
| `ReorderBuffer`, `RobSlots`, `O3Core` | the out-of-order core and its circular reorder buffer |
| `Dram`, `DramTiming`, `DramWaits`, `DramBubbles`, `DramScheduling`, `DramPolicies`, `MemoryController` | the DRAM command scheduler |
| `Address` | how an address is split into controller, rank, bank and page |
| `Routing`, `PacketQueues`, `Network` | mesh and ring |
| `Crossbar` | the crossbar |
| `Mshr` | miss tracking in the caches |
| `Tlb` | the two-map LRU |
| `EventKernel`, `EventLists` | the global event queue, and the event lists of the components |
| `Basics`, `Numbers`, `Circular`, `Multimaps` | shared definitions, division facts, positions in a circular buffer, ordered lists |

Conventions. Time and counters are unbounded integers. A multimap keyed by time is a map from a time to the events
due then, in order of insertion (or, where the code takes the first element, a sequence kept in that order). What
another component does is a parameter: the reply it gives, the events it adds, the message that is due. Where the
code aborts, the functional model returns `Failed`, and the run theorems show that it is not reached; an assertion
of the code becomes a precondition of the method it guards, and an invariant shows that callers meet it. Classes that
stand for a run (the core, the memory controller, the directory) keep that run in ghost fields which `Valid()` ties to
the real ones, so the theorems about runs are theorems about the class.

Environment assumptions, with the predicates or methods that state them. A reply to the directory
answers a message that is in flight and not answered yet (`CoherenceProtocol.Enabled`, `DirectoryRuns.Matching`), and
where data is followed, an owner answers with the line as long as it has it (`DirtyLines.Honest`). A thread has one
gather outstanding per flow, all threads of a flow name the same number of them, a tree replies once for each ACTIVE_GET
(`GatherBarrier.Enabled`), and some tree is active when the last thread of a flow gathers (`GatherBarrier.Permitted`);
earlier gathers may come before the first update. A memory reply
reaches the core at a time no later than its next call and may announce any later time (`O3Core.AddRepEvent`). Bubbles
are whole intervals (`DramTiming.Sane`). Components schedule no earlier than now, and only cores reschedule themselves
at the current time; an active request that is retried comes back at least one interval later.

## What turned out to be false

* The directory does not survive an eviction by a cache it still lists while the line is on its way from memory
  (`cs_tr_to_e`), or while it is being back-invalidated for an offload (`cs_tr_to_i`). `StepKeepsInvariant` shows that
  these evictions are exactly the steps that break the invariant, and `Directory.ProcessEvent` says the same of the
  running directory; `UntimelyEvictionAborts` and `UntimelyEvictionLosesUpdate` are runs that reach the abort and lose
  the request.
* An active request can be lost, but only in one way: `LeavesExactlyOnce` shows that in a quiet run every active request
  has left exactly once per delivery if and only if no line was evicted by its last listed sharer while in `cs_tr_to_i`.
* The newest data of a line can be lost, in two ways: an active request back-invalidates a modified line and is
  offloaded without the line having been written, or the owner's eviction arrives while another writer is waiting
  (`cs_tr_to_m`) and is dropped. `LossExact` shows that these are the only steps that lose it, `LostAsOftenAsExposed` that
  over every quiet run it is lost exactly as often as one of the two begins; `OffloadLosesDirtyLine` and
  `EvictionLosesDirtyLine` are the runs.
* A stable line lists exactly the caches that hold it, in every timely run, if and only if no cache acknowledges an
  upgrade after it has given the line up (`SharersAreHolders`). The directory drops an eviction that comes between the
  grant and its acknowledgement; `UnconfirmedUpgradeListed` is a run that ends with a modified line whose listed owner
  no longer has it.
* The directory cache does not push out the oldest line, as its comments say: the search starts at the front, where the
  line used last is. `VictimIsNewest` shows that the victim is always the most recently used line that may go, and that
  it is the oldest of these if and only if it is the only one.
* Not every active tree has replied when a gather is answered: a tree that becomes active after the barrier opened is
  forgotten without having been asked (`LateTreeForgotten`). `TreesHaveReplied` shows that exactly the trees that were
  active at the opening have replied, and that these are all of them if and only if no other tree was updated since.
* The turn-around check does not keep a bubble longer than tCL, because the table of bus slots is trimmed at the present
  time before it is searched. Over runs other checks may still keep it. `WriteBubbleExact`: a controller keeps the bubble
  between a write and a read if and only if it is no longer than tCL, or all banks share one rank and tWTR > 0 with
  tCL + tWTR no shorter than the bubble, or there is a single bank and its tBBL is as long as burst and bubble.
  `ReadBubbleExact`: the bubble between a read and a write is kept if and only if it is no longer than tCL or there is one
  rank. Both hold for any number of ranks, banks and threads and any times, under the open-row policy;
  `LongBubbleIgnored` is the run that breaks every other bubble.
* The memory-order rule of the reorder buffer fails for addresses 1 to 7: an operation without an access has address
  0, which lies in the same 8-byte word. `WordZeroOvertaken` is the run, and `MemoryRuleExact` shows that the rule
  holds for exactly the other addresses.
* The kernel loses an event that a component other than a core adds for itself at the current time, and only that
  (`NothingLost`).
* A gather for a flow that was never updated opens the barrier without sending anything, if and only if no tree is
  active (`GatherWithoutUpdateHangs`), and then none of its gathers is ever answered (`StuckForEver`). The code reads past
  the end of an empty vector there, which these two lemmas treat as no active tree.

## Model

| member | source | states |
|---|---|---|
| CoherenceProtocol.StepKeepsInvariant | McSim/PTSDirectory.cc:239-915 | from a line whose entry matches its messages in flight, any step keeps it so and does not abort, if and only if it is not an untimely eviction |
| CoherenceProtocol.EvictKeeps | McSim/PTSDirectory.cc:257-404 | an eviction keeps entry and flight consistent exactly unless a listed sharer evicts in tr_to_e or tr_to_i |
| CoherenceProtocol.InvalAckKeeps | McSim/PTSDirectory.cc:437-479 | each invalidation acknowledgement takes one sharer and one message off; the last one fills the parked write or sends it to memory |
| CoherenceProtocol.ShareAckKeeps | McSim/PTSDirectory.cc:480-533 | the answer to the one probe of tr_to_s or m_to_s leaves a stable entry and nothing in flight |
| CoherenceProtocol.UpgradeKeeps | McSim/PTSDirectory.cc:406-436 | an upgrade acknowledgement finds tr_to_m and leaves a line that is modified and has its sender as only sharer, or none |
| CoherenceProtocol.MemoryDataKeeps | McSim/PTSDirectory.cc:534-553 | the line from memory finds the state that waits for it |
| CoherenceProtocol.RequestKeeps | McSim/PTSDirectory.cc:571-912 | a request finds a legal state and launches exactly the messages its new state waits for |
| CoherenceProtocol.StepConserves | McSim/PTSDirectory.cc:143-236 | a timely step moves every request it touches to exactly one other place: queue, pending slot, memory, answered |
| CoherenceProtocol.StepNeverDuplicates | McSim/PTSDirectory.cc:437-554 | in any state, consistent or not, no step copies a request |
| CoherenceProtocol.RequestExact | McSim/PTSDirectory.cc:729-912 | on a consistent line a request is parked only in a free pending slot, and handling it leaves every request in exactly one place |
| CoherenceProtocol.RunIsSafe | McSim/PTSDirectory.cc:239-915 | every run without untimely evictions reaches no abort, stays consistent, and has each delivered request in exactly one place |
| CoherenceProtocol.QuiescentRunAnswersAll | McSim/PTSDirectory.cc:437-554 | when such a run is quiet, every request of every kind has been answered as often as it was delivered |
| BackInvalidation.StepMoves | McSimART/PTSDirectory.cc:444-517 | in every state a run can reach, an active request is at exactly one place after every step, but for the eviction by the last listed sharer in tr_to_i |
| BackInvalidation.ActiveAccounted | McSimART/PTSDirectory.cc:444-517 | in every run that does not abort, whatever is evicted, an active request is waiting, parked, offloaded or was dropped by such an eviction, once per delivery |
| BackInvalidation.LeavesExactlyOnce | McSimART/PTSDirectory.cc:1039-1124 | in every quiet run, every active request has left exactly as often as it was delivered, if and only if no line was evicted by its last listed sharer in tr_to_i |
| CoherenceProtocol.NeverAnsweredTwice | McSim/PTSDirectory.cc:437-554 | in every run, timely or not, no request is answered more often than delivered |
| CoherenceProtocol.NoDeadlock | McSim/PTSDirectory.cc:571-910 | a line in transit always has a reply outstanding |
| CoherenceProtocol.ReplyMakesProgress | McSim/PTSDirectory.cc:437-554 | every reply lowers the outstanding work and never aborts |
| DirtyLines.LossExact | McSim/PTSDirectory.cc:357-479 | from a consistent dirty line, a step loses the newest data if and only if the owner gives it up in tr_to_i, or evicts it in tr_to_m |
| DirtyLines.DirtyStep | McSim/PTSDirectory.cc:357-533 | over every timely step, memory is written only while the line is dirty and leaves it clean, and a line stops being dirty only by being written or by losing its data |
| DirtyLines.LostAsOftenAsExposed | McSimART/PTSDirectory.cc:444-517 | in every quiet run of timely evictions, the newest data is lost exactly as often as an active request finds the line modified or the owner evicts it in front of another writer |
| CoherenceProtocol.OffloadLeavesNoSharer | McSimART/PTSDirectory.cc:444-517 | an active request leaves only from a line the directory no longer lists |
| Holders.SharersAreHolders | McSim/PTSDirectory.cc:239-915 | in every timely run, with a history of who was given the line and who gave it up that looks at messages only: the sharers of the stable line are exactly its holders, if and only if no cache acknowledges an upgrade after giving the line up |
| Holders.StepListed | McSim/PTSDirectory.cc:239-915 | from a line that lists its holders, a timely step leads to one that does, if and only if it is no such acknowledgement |
| Holders.OnlyServedAreListed | McSim/PTSDirectory.cc:437-630 | whoever is answered with the line, or with the right to keep it, is listed afterwards; nobody else is added but a cache for which memory is asked, so a refused cache never is |
| Holders.ProbesGoToHolders | McSim/PTSDirectory.cc:729-912 | a read probes a holder other than the reader, only the one holder of a line is granted a write, and if anybody is invalidated then every holder is and nobody else |
| Holders.AnsweredAtOnce | McSim/PTSDirectory.cc:571-912 | says exactly which requests are refused, granted, offloaded or put back at once, by who holds the line and whether it is in transit; none is filled at once |
| Holders.FilledWithLine | McSim/PTSDirectory.cc:437-553 | in every timely step a request is filled only when the line has come; a parked read is refused if it has not, and a parked write then goes to memory |
| Holders.StateAfterFill | McSim/PTSDirectory.cc:437-553 | a filled write leaves the line modified, a read from memory exclusive, a read from another cache shared |
| CoherenceRuns.UntimelyEvictionAborts | McSim/PTSDirectory.cc:392-404 | a run with an eviction in tr_to_e that reaches the abort at the invalidation acknowledgement |
| CoherenceRuns.UntimelyEvictionLosesUpdate | McSimART/PTSDirectory.cc:1039-1124 | a run with an eviction in tr_to_i after which an active request is never answered |
| CoherenceRuns.OffloadLosesDirtyLine | McSimART/PTSDirectory.cc:444-491 | a run in which a modified line is back-invalidated, its owner sends the data, and the request is offloaded with nothing written to memory |
| CoherenceRuns.EvictionLosesDirtyLine | McSim/PTSDirectory.cc:357-390 | a run in which the owner's eviction of a modified line is dropped because another writer waits, which is then served from memory |
| CoherenceRuns.UnconfirmedUpgradeListed | McSim/PTSDirectory.cc:406-436 | a run in which a cache is granted a write, evicts the line and then acknowledges the grant, and is listed as the owner of a line it no longer has |
| DirectoryRuns.CallKeepsCoherent | McSim/PTSDirectory.cc:179-925 | while all lines are consistent with the messages in flight, queued and scheduled, a call neither aborts nor leaves one inconsistent, if and only if its message is no untimely eviction |
| DirectoryRuns.DirectoryIsSafe | McSim/PTSDirectory.cc:143-925 | in every run of requests, replies and calls, for any number of lines, every line stays consistent |
| DirectoryRuns.NoCallAborts | McSim/PTSDirectory.cc:239-915 | and no call of such a run reaches an abort |
| DirectoryUnit.Directory.Take | McSim/PTSDirectory.cc:179-237 | a call always finds a message: replies before requests, each in order of arrival, and the rest is rescheduled |
| DirectoryUnit.Directory.AddReqEvent | McSim/PTSDirectory.cc:143-154 | the request is due at the next processing time, and the directory will be called then |
| DirectoryUnit.Directory.HandleReply | McSim/PTSDirectory.cc:239-555 | the reply handlers change only their line, as `Coherence.OnReply` says |
| DirectoryUnit.Directory.HandleRequest | McSim/PTSDirectory.cc:556-915 | the request handlers change only their line, as `Coherence.OnRequest` says |
| DirectoryUnit.Directory.SendInvalidations | McSim/PTSDirectory.cc:836-867 | one invalidation per sharer, broadcast or not |
| DirectoryUnit.Directory.ActiveRequested | McSimART/PTSDirectory.cc:1039-1124 | back-invalidation in front of an offload parks the request and invalidates every sharer |
| DirectoryUnit.Directory.ProcessEvent | McSim/PTSDirectory.cc:179-925 | one call takes one message, handles it, leaves all other lines alone and requeues a retried active request; if all lines were consistent it succeeds and keeps them so exactly if the message is no untimely eviction |
| DirectoryUnit.Directory.Serve | McSim/PTSDirectory.cc:179-925 | the call as a relation between the fields before and after it, from any valid state, with the sharers of every line among the known caches |
| DirectoryCache.RepliesNeverHold | McSim/PTSDirectory.cc:357-553 | no reply puts an idle line in transit or brings back a line that is gone |
| DirectoryCache.LineEnters | McSim/PTSDirectory.cc:298-346 | bringing a line in, at the cost of an idle line, keeps the sets well-formed and every busy line resident |
| DirectoryCache.LineGone | McSim/PTSDirectory.cc:928-944 | taking an erased line out keeps the structure |
| DirectoryCache.CachedDirectory.MakeRoom | McSim/PTSDirectory.cc:301-346 | if the set has room or a line that may go, the line leads the set, at the cost of the first such line only if there is no room; otherwise the set is full of lines in transit, pending or loading, and nothing changes; all other sets stay, and every set stays in the order of use |
| DirectoryCache.CachedDirectory.Evicted | McSim/PTSDirectory.cc:257-404 | says exactly when an eviction or its load is dropped, retried after 100 intervals because the line is loading, retried after 2 because its set is blocked, and otherwise handled; what it does to the line and to the lines that are loading; all other sets stay |
| DirectoryCache.CachedDirectory.Request | McSim/PTSDirectory.cc:571-728 | says exactly when a request is refused, fetches its line, fails or is handled, what it does to the line and to the lines that are loading; a refused request changes nothing in the directory |
| DirectoryCache.CachedDirectory.Allocate | McSim/PTSDirectory.cc:571-630 | a new line is resident before it goes into transit |
| DirectoryCache.CachedDirectory.Fetch | McSim/PTSDirectory.cc:672-726 | a request is refused exactly if its set is blocked; a parked request never overwrites another, and its line becomes resident and loading |
| DirectoryCache.CachedDirectory.Reply | McSim/PTSDirectory.cc:406-553 | the reply is handled by the directory, for its line only; an erased line leaves its set and is no longer loading, and all other sets stay; otherwise no set changes |
| DirectoryCache.CachedDirectory.Resume | McSim/PTSDirectory.cc:644-671 | a line that is used moves to the front; a load that comes back frees the parked request, which is then handled; any other request is refused while one is parked |
| DirectoryCache.CachedDirectory.Touch | McSim/PTSDirectory.cc:273-281 | the line that is used leads its set, the others keep their order, and every set stays in the order of last use over the whole history |
| DirectoryCache.VictimIsNewest | McSim/PTSDirectory.cc:301-334 | the victim is the most recently used line that may go, and the oldest of them if and only if it is the only one |
| GatherBarrier.StepKeeps | McSimART/PTSHMCController.cc:217-312 | every step keeps the count equal to the arrivals while collecting and to the unanswered trees while draining, per controller too, and each thread waiting at most once, if and only if it is not the last arrival for a flow without an active tree |
| GatherBarrier.NoArrivalWhileDraining | McSimART/PTSHMCController.cc:217-252 | with one gather outstanding per thread, nobody arrives while replies are expected |
| GatherBarrier.NoEarlyAnswer | McSimART/PTSHMCController.cc:394-477 | in every run gathers are answered only by the last asked tree's reply, when every thread is waiting; then all at once, and nothing is kept for the flow |
| GatherBarrier.TreesHaveReplied | McSimART/PTSHMCController.cc:241-477 | in every run, when gathers are answered, exactly the trees active at the opening have replied since; these are all the active trees if and only if no other tree was updated in between |
| GatherBarrier.LateTreeForgotten | McSimART/PTSHMCController.cc:314-477 | a run in which a tree that becomes active while the barrier is open is forgotten unasked |
| GatherBarrier.AnsweredOnce | McSimART/PTSHMCController.cc:394-477 | a gather is answered at most as often as it arrived, and exactly as often once the barrier is down |
| GatherBarrier.AssertionsHold | McSimART/PTSHMCController.cc:223-421 | the assertions on the count, on dummies and on the last reply hold |
| GatherBarrier.NoDeadlock | McSimART/PTSHMCController.cc:241-303 | while the barrier is up, a reply or the arrival of a missing thread is possible, if and only if the flow does not await its first update with one thread missing; an update then makes it possible |
| GatherBarrier.EveryStepCounts | McSimART/PTSHMCController.cc:217-477 | every arrival and every reply lowers the number of steps the barrier can still take, updates leave it, and at zero the barrier is down |
| GatherBarrier.BarrierComesDown | McSimART/PTSHMCController.cc:217-477 | hence over every run a barrier is down again after at most that many arrivals and replies |
| GatherBarrier.GatherWithoutUpdateHangs | McSimART/PTSHMCController.cc:247-252 | the last arrival leaves the flow stuck, all waiting and nobody asked, if and only if no tree is active |
| GatherBarrier.StuckForEver | McSimART/PTSHMCController.cc:217-477 | whatever follows, updates included, a stuck flow answers no gather |
| HmcControllers.Controllers.AddGather | McSimART/PTSHMCController.cc:217-312 | an arrival, also one before the flow's first update, moves its flow by `Arrive`, puts one ACTIVE_GET in the buffer of each active controller when it is the last, leaves all other flows alone, and keeps the barrier invariant of every flow |
| HmcControllers.Controllers.DispatchAll | McSimART/PTSHMCController.cc:246-303 | the loop over the controllers opens the barrier: one transaction per active tree, a dummy where no gather waits |
| HmcControllers.Controllers.AddUpdate | McSimART/PTSHMCController.cc:314-342 | an update makes its controller's tree active, leaves all other flows alone and keeps the barrier invariant of every flow |
| HmcControllers.Controllers.CompleteAll | McSimART/PTSHMCController.cc:414-475 | every controller answers exactly the real gathers that waited there, in their order; together this is what was waiting as a multiset, dummies are dropped, and no map keeps the flow |
| HmcControllers.Controllers.AddReply | McSimART/PTSHMCController.cc:394-477 | a reply moves its flow by `Reply`, leaves all other flows alone, and keeps the barrier invariant of every flow; if it was the last, every controller answers exactly the real gathers that waited there for the flow, in order, and otherwise nobody answers |
| HmcControllers.RealOnesInOrder | McSimART/PTSHMCController.cc:425-459 | dropping the dummies keeps the real gathers in the order in which they came |
| ReorderBuffer.StepKeeps | McSim/PTSO3Core.cc:264-628 | issue, start, reply, wake-up and commit keep the dependency invariant |
| ReorderBuffer.ExecutionRespectsDependencies | McSim/PTSO3Core.cc:483-586 | in every run, what starts finds the latest writer of each source, every older access to its word and every older mispredicted branch finished |
| ReorderBuffer.NamesStayLive | McSim/PTSO3Core.cc:588-628 | in every run, whatever an entry waits for is live, older and not yet announced; the head waits for nothing |
| ReorderBuffer.YoungestIs | McSim/PTSO3Core.cc:266-346 | the search finds the youngest unfinished match, and all younger matches are finished |
| ReorderBuffer.NewUopLive | McSim/PTSO3Core.cc:264-467 | the dependencies recorded at issue name live, older entries |
| ReorderBuffer.IssueAppends | McSim/PTSO3Core.cc:264-467 | issuing appends one entry per access, in order, each with its own address and direction and the kind, registers and misprediction of its instruction, ready one interval later, and leaves all others alone |
| ReorderBuffer.WakeUpKeeps | McSim/PTSO3Core.cc:588-614 | waking up at exactly the ready time misses no dependant |
| ReorderBuffer.WordZeroOvertaken | McSim/PTSO3Core.cc:264-467 | a run in which an access to word 0 starts before an older access to the same address |
| ReorderBuffer.MemoryRuleExact | McSim/PTSO3Core.cc:335-346 | over all reachable states, an access that may start finds every older access to its word finished, if and only if that is not word 0 |
| RobSlots.NameIsUnique | McSim/PTSO3Core.cc:588-613 | a slot index names at most one live entry, however often the buffer has wrapped around |
| RobSlots.ClearedSlot | McSim/PTSO3Core.cc:601-612 | clearing a slot index in all dependency fields removes exactly the entry it names |
| OutOfOrderCore.O3Core.EveryStartWasInOrder | McSim/PTSO3Core.cc:483-586 | every start the array-based core has ever performed found its dependencies finished |
| OutOfOrderCore.O3Core.Search | McSim/PTSO3Core.cc:266-346 | the backward scan over the circular array returns the position of the youngest unfinished match |
| OutOfOrderCore.O3Core.PushAccesses | McSim/PTSO3Core.cc:327-467 | an instruction enters as one entry per access, reads before the write, chained, each with its own direction and the kind of the instruction |
| OutOfOrderCore.O3Core.IssueSome | McSim/PTSO3Core.cc:243-473 | the first ready instructions of the queue, and exactly those, are issued in order, up to the width and while a whole one fits |
| OutOfOrderCore.O3Core.Execute | McSim/PTSO3Core.cc:475-586 | the in-place scan performs exactly the plan that the buffer, the units and the flags determine, and leaves the flags as notify and waitfor at the head change them |
| OutOfOrderCore.DecodeExact | McSim/PTSO3Core.cc:327-467 | a fetched instruction is issued with each of its addresses once, with none only as the single access 0, and with its own kind, registers and misprediction |
| OutOfOrderCore.O3Core.ScanExact | McSim/PTSO3Core.cc:475-586 | what a scan of any buffer does: it ends before the first entry that blocks it, a notify or waitfor that may not go on or, in order, one that may not start, and then asks for another call; up to there every entry that may start has started, with the time its kind takes, or the units it needs were used up by older ones; nothing else happens |
| OutOfOrderCore.O3Core.HeadGoesFirst | McSim/PTSO3Core.cc:475-566 | with a unit of each kind, a scan begins by starting the head if that may start |
| OutOfOrderCore.O3Core.HeadStarted | McSim/PTSO3Core.cc:475-566 | in every call of every run, a head that was issued and is ready is the first thing to start, since it waits for nobody |
| OutOfOrderCore.O3Core.NeverAsleep | McSim/PTSO3Core.cc:475-632 | with a unit of each kind, no call leaves entries behind without being scheduled again or waiting for a reply |
| OutOfOrderCore.O3Core.UnitsRespected | McSim/PTSO3Core.cc:519-566 | counted from its actions, no scan uses more ALUs, load/store units, load ports, store ports or SSE units than there are |
| OutOfOrderCore.O3Core.WakeDependants | McSim/PTSO3Core.cc:588-614 | the two nested loops release exactly the dependants of the entries that finish now |
| OutOfOrderCore.O3Core.CommitSome | McSim/PTSO3Core.cc:616-628 | finished entries leave from the head in order, up to the width, and no finished head is left before it is reached |
| OutOfOrderCore.O3Core.AddRepEvent | McSim/PTSO3Core.cc:742-778 | the slot index a reply carries names the entry that sent the access; that entry is ready at the aligned time of the reply, later by the penalty after a misprediction, and the reply may be announced ahead of pending calls |
| OutOfOrderCore.O3Core.Turn | McSim/PTSO3Core.cc:242-632 | a call issues the named instructions, executes the plan of the entries live then, wakes up and commits, in that order; with a unit of each kind, a head that may start is the first to start, and the core is never left asleep with entries in the buffer |
| OutOfOrderCore.O3Core.ProcessEvent | McSim/PTSO3Core.cc:183-205 | with too few fetched instructions nothing happens and the core is called again; otherwise the call begins by issuing from the front of the queue; either way the core is not left asleep |
| DramTiming.EveryRunIsTimely | McSim/PTSMemoryController.cc:403-684 | in every run activates of a bank are tRAS+tRP and those of a rank tRR apart, an activate comes tRP after every precharge and every column of its bank, columns wait tRCD, columns of a bank are tBBL apart, bursts never overlap on a bus and leave the turn-around bubbles that are no longer than tCL, and every column finds its row open |
| DramTiming.LegalIsApart | McSim/PTSMemoryController.cc:403-592 | a command that passes the scheduler's checks keeps its distance from every earlier command |
| DramTiming.BusyBus | McSim/PTSMemoryController.cc:484-543 | an unfinished burst makes the bus check fail, with aligned times |
| DramTiming.BubbleKept | McSim/PTSMemoryController.cc:502-556 | a burst of the other direction inside a bubble no longer than tCL makes the turn-around check fail |
| DramBubbles.WriteBubbleExact | McSim/PTSMemoryController.cc:484-556 | for every open-row controller on a shared bus, every run leaves the bubble between a write and a read if and only if it is no longer than tCL, or is kept by tWTR within the only rank or by tBBL within the only bank |
| DramBubbles.ReadBubbleExact | McSim/PTSMemoryController.cc:484-556 | likewise every run leaves the bubble between a read and a write if and only if it is no longer than tCL or there is only one rank |
| DramBubbles.CoveredIsKept | McSim/PTSMemoryController.cc:403-592 | under every row policy, every run leaves a bubble that meets these conditions |
| DramBubbles.LongBubbleIgnored | McSim/PTSMemoryController.cc:484-556 | for any such controller, a run in which a burst is followed in the other direction as soon as its slots are dropped and tWTR and tBBL allow, called at every interval while a request waits |
| DramTiming.IssueKeeps | McSim/PTSMemoryController.cc:613-761 | banks, ranks and buses remember every command issued |
| DramWaits.EveryWaitHasReason | McSim/PTSMemoryController.cc:376-592 | the converse: at every call of every run, a request of the window that may not be served is kept from it by another row that its bank must keep open, by an earlier command whose distance has not passed, or by the start of the simulation |
| DramWaits.RunTraced | McSim/PTSMemoryController.cc:613-761 | in every run, every time and bus slot the controller remembers is that of a command it issued |
| DramScheduling.RunKeepsBatch | McSim/PTSMemoryController.cc:704-720 | in every run -1 <= curr_batch_last < min(queue, window) and the per-thread counts are exact |
| DramScheduling.TickKeepsBatch | McSim/PTSMemoryController.cc:829-840 | a batch keeps its members, loses the one served, or was down to it, and then the next batch is the whole window |
| DramScheduling.BatchFirst | McSim/PTSMemoryController.cc:376-387 | a request outside the batch is served only if no member can make progress |
| DramScheduling.PickIsUnique | McSim/PTSMemoryController.cc:376-592 | the choice is determined: row hit first, then fewest requests of the thread, then age |
| DramPolicies.ServesTheBest | McSim/PTSMemoryController.cc:376-592 | at every call of every run, while the batch can make progress one of its members is served: one whose row is open if there is any, among those one of a thread with the fewest queued requests, among those the oldest; otherwise the oldest that can make progress |
| DramPolicies.WantedRowsStayOpen | McSim/PTSMemoryController.cc:433-481 | in every run a row is precharged on a miss only under the open policy, and only while no competing request wants it |
| DramPolicies.KeptForLater | McSim/PTSMemoryController.cc:680-703 | in every run, after an access the row stays open under the open policy, and under the others if and only if a later request of the window wants it |
| DramScheduling.NoRowIsStranded | McSim/PTSMemoryController.cc:616-703 | under closed and predictive policy every open row is wanted by a request of the window, in every reachable state |
| DramScheduling.NeverStalls | McSim/PTSMemoryController.cc:388-592 | once all waiting times have passed, a non-empty queue has a request to serve, under every row policy |
| DramScheduling.QuietCallIssues | McSim/PTSMemoryController.cc:358-819 | hence in every run a quiet call with a waiting request issues a command |
| MemoryControllerUnit.MemoryController.Scan | McSim/PTSMemoryController.cc:368-592 | the scan with its running best, its two break conditions and its row-hit override returns the specified choice |
| MemoryControllerUnit.FindRival | McSim/PTSMemoryController.cc:441-466 | the inner loop decides whether another competing request wants the open row |
| MemoryControllerUnit.FindReuse | McSim/PTSMemoryController.cc:686-702 | the inner loop decides whether a later request of the window uses the row |
| MemoryControllerUnit.Record | McSim/PTSMemoryController.cc:664-669 | the burst loop fills exactly the slots of the burst, without overwriting |
| MemoryControllerUnit.MemoryController.MayStart | McSim/PTSMemoryController.cc:483-574 | the bus, bubble and rank checks, on tables from which past slots were dropped, decide as on the full tables |
| MemoryControllerUnit.MemoryController.Serve | McSim/PTSMemoryController.cc:594-811 | the chosen command changes banks, ranks, buses and queue as `Dram.Service` says, and answers reads |
| MemoryControllerUnit.MemoryController.Leave | McSim/PTSMemoryController.cc:704-720 | a served request leaves the list, the counts and the batch |
| MemoryControllerUnit.MemoryController.PreProcess | McSim/PTSMemoryController.cc:823-842 | due requests join the list and the counts, and a batch is formed if there is none |
| MemoryControllerUnit.MemoryController.ProcessEvent | McSim/PTSMemoryController.cc:358-820 | one call is one tick of the scheduler, entered into the controller's run, and the controller is called again while requests wait; every request that ever came waits or has left once, and those that left match the column commands in order, each answered a fixed time after its own unless it is a plain write |
| MemoryControllerUnit.TickAccounts | McSim/PTSMemoryController.cc:358-820 | what waits before a call waits after it or has left with it |
| MemoryControllerUnit.TickServes | McSim/PTSMemoryController.cc:594-761 | with every call the requests that left still match the column commands in order, row and direction, and the answers match them |
| MemoryControllerUnit.MemoryController.EveryCommandWasTimely | McSim/PTSMemoryController.cc:358-820 | all commands this controller has ever issued respect the timing rules and find their rows open |
| MemoryControllerUnit.MemoryController.AlwaysInOrder | McSim/PTSMemoryController.cc:358-820 | between any two calls the batch is a prefix of the window with exact counts, and a closed-row policy has no row open in vain |
| MemoryControllerUnit.MemoryController.AddReqEvent | McSim/PTSMemoryController.cc:212-252 | the request is due at the next processing time, and the controller will be called then; it counts as one more that came |
| Address.AddressesDiffer | McSim/PTSMemoryController.cc:140-149 | different addresses differ in controller, rank, bank, page or offset, for disjoint power-of-two fields above the page offset and below the exclusive-or base |
| Address.SortedIsProper | McSim/PTSMemoryController.cc:140-149 | the order in which the three fields are cut is right if and only if they are disjoint and lie between the page offset and the exclusive-or base, whichever base is the highest |
| Address.DecompositionIsInjective | McSim/PTSMemoryController.cc:280-289 | the three field values, the page number and the offset determine the address |
| Address.RawFromValue | McSim/PTSMemoryController.h:204-209 | the exclusive or can be undone once the higher bits are known |
| Address.RowsSpread | McSim/PTSMemoryController.h:204-209 | addresses that agree in a field go to the same rank, bank or controller if and only if the bits mixed in agree too; with those bits zero the field decides alone |
| Address.Uncut | McSim/PTSMemoryController.cc:284-286 | what is left after cutting a field out, and the field, are the whole address |
| Routing.HopShortens | McSim/PTSXbar.cc:707-746 | every hop stays on the network and shortens the shortest way by exactly one; only a packet at home stays |
| Routing.NeverReverses | McSim/PTSXbar.cc:1170-1193 | a packet never turns back: not on the ring, and on the mesh columns come before rows |
| Routing.HopIsSided | McSim/PTSXbar.cc:707-746 | a hop leaves by a side of the router that has a link and enters the next one from the opposite side |
| Routing.WayIsShortest | McSim/PTSXbar.cc:707-746 | no walk over the links is shorter than the way taken |
| Network.MoveTotal | McSim/PTSXbar.cc:707-821 | a move takes one off the hops still to be made and neither loses nor copies a packet |
| Network.MoveKeepsBooks | McSim/PTSXbar.cc:707-821 | a move keeps all the books: packets in and out, what was handed over is exactly what left but for the dummies, every packet is on the way from where it entered and not back |
| Network.HomeHasArrived | McSim/PTSXbar.cc:765-812 | what is handed over is handed over at its destination, with its class, and not before all its hops can have been made |
| Network.MoveInTurn | McSim/PTSXbar.cc:591-746 | a packet that arrives goes behind those that are due: the first of any queue stays the first until it moves |
| Network.Net.MoveFirst | McSim/PTSXbar.cc:707-821 | the first packet of a queue goes to the queue its route names, one hop later, or leaves and is handed over there and then, one hop later, unless it is a dummy |
| Network.Net.ProcessQueue | McSim/PTSXbar.cc:591-746 | a queue moves its first packet only if it is due; if all outputs are free and nothing moves, nothing was due |
| Network.Net.ProcessEvent | McSim/PTSXbar.cc:548-587 | every move takes one off the hops to be made, something moves exactly if a packet is due, no output of a router is used twice, the first packet of a queue, once due, stays first or has moved, a due reply in the queue with the token has moved, whatever is handed over is stamped one hop after now, and the count is the packets queued |
| Network.Net.AddEvent | McSim/PTSXbar.cc:399-419 | a message is queued at its router, due at the next processing time, counted, and stamped with where and when it entered |
| Network.Net.AddFlits | McSim/PTSXbar.cc:524-544 | a long message enters as that many counted packets, all but one of them dummies |
| Network.Net.Drain | McSim/PTSXbar.cc:580-586 | if nothing new enters, the calls come to an end with every packet that ever entered handed over once, but for the dummies |
| Multimaps.InsertPlace | McSim/PTSXbar.cc:415-419 | a packet or message goes behind all whose key is the same or smaller and before all whose key is larger |
| Crossbar.EachOnce | McSim/PTSXbar.cc:246-250 | both scan directions visit every port exactly once |
| Crossbar.NoDestinationTwice | McSim/PTSXbar.cc:241-299 | no destination number receives two messages in one call |
| Crossbar.VisitedOnce | McSim/PTSXbar.cc:246-299 | after its one turn a port's queue is what that visit left |
| Crossbar.VisitConserves | McSim/PTSXbar.cc:252-298 | a visit loses and copies nothing |
| Crossbar.NothingIsHeldBack | McSim/PTSXbar.cc:246-299 | no slot is wasted: each of the first two messages of every port is sent, unless its destination receives another one in this call, from a port of an earlier turn or from the same port's first |
| Crossbar.OthersWait | McSim/PTSXbar.cc:246-299 | the messages behind the first two of a port stay as they are |
| Crossbar.CallConserves | McSim/PTSXbar.cc:194-319 | one call: at every port, what was queued and what came are what is still queued and what was sent |
| Crossbar.RunConserves | McSim/PTSXbar.cc:194-319 | in every run, at every port, each message that came is queued or was sent from there, once for each time it came |
| Crossbar.RunInOrder | McSim/PTSXbar.cc:194-319 | in every run, the messages of one priority from one port to one destination leave in the order in which they came |
| Crossbar.TopSends | McSim/PTSXbar.cc:241-271 | the port with top priority always sends its first message |
| Crossbar.EveryOrderOnce | McSim/PTSXbar.cc:300-308 | any 2n consecutive calls scan from every port in both directions, once each |
| Crossbar.Fair | McSim/PTSXbar.cc:241-308 | of any 2n consecutive calls, a port that has something to send in each sends its first message in at least two |
| Crossbar.QueuesStaySorted | McSim/PTSXbar.cc:200-234 | the first message of a queue is one of highest priority, in every run |
| Crossbar.CrossbarUnit.ProcessEvent | McSim/PTSXbar.cc:194-319 | one call queues the arrivals, scans, moves the priority on, and is repeated while a queue is not empty; what came to a port is always queued there or sent from there, and within a priority and a destination in the order in which it came |
| Mshr.RoomLeft | McSim/PTSCache.cc:655-673 | a table whose index is not full has a free register |
| Mshr.MshrFile.FindFree | McSim/PTSCache.cc:668-673 | the search for a free register succeeds |
| Mshr.MshrFile.OnMiss | McSim/PTSCache.cc:632-683 | the table behaves as a bounded map from lines to misses: only reads join reads, others are refused, new lines are sent on |
| Mshr.MshrFile.OnReply | McSim/PTSCache.cc:368-386 | a reply finds its register, and every request held there is answered exactly once |
| Mshr.MshrFile.AnswerAll | McSim/PTSCache.cc:1362-1400 | the release loop answers each held request once |
| Mshr.ReleasedAlike | McSim/PTSCache.cc:368-386 | the readers are answered in the order they came and then the request that was sent on, all in the same way |
| Mshr.ReleaseAccounted | McSim/PTSCache.cc:1617-1643 | every request that missed is held or answered, once for each time it missed, across a release |
| Mshr.SendAccounted | McSim/PTSCache.cc:2142-2150 | the same across an allocation |
| Tlb.Tlb.Access | McSim/PTSTLB.cc:107-144 | an access hits if and only if its page has been used and fewer other pages than there are entries have been used since; the two maps behave as one least-recently-used list |
| Tlb.PresentExactly | McSim/PTSTLB.cc:107-144 | after any accesses a page is in the TLB if and only if it has been used and fewer other pages than there are entries have been used since |
| Tlb.VictimIsOldest | McSim/PTSTLB.cc:124-129 | a page pushed out was the least recently used, and the TLB was full |
| Tlb.Sizes | McSim/PTSTLB.cc:124-143 | the two maps and the list always have the same size |
| Tlb.Tlb.ProcessEvent | McSim/PTSTLB.cc:87-152 | one access per call, in order of arrival, answered with the miss penalty exactly if the page has not been used or as many other pages as there are entries have been used since |
| EventKernel.ServedOnTime | McSim/PTSComponent.cc:189-258 | every event added in a run is served at exactly its time |
| EventKernel.TimeNeverGoesBack | McSim/PTSComponent.cc:196-201 | the clock never decreases, and nothing that is pending is late |
| EventKernel.NothingLost | McSim/PTSComponent.cc:211-252 | a call leaves exactly the other events and the new ones, if and only if no component but a core asks for the call that is being made |
| EventKernel.FrontStays | McSim/PTSComponent.cc:244-252 | while a component runs, the front of the queue stays the set it was taken from |
| EventKernel.EventQueue.AddEvent | McSim/PTSComponent.cc:180-185 | the event is pending, and all others still are |
| EventKernel.EventQueue.Dispatch | McSim/PTSComponent.cc:196-253 | one turn of the loop calls the first component of the earliest set, and takes a core off before it runs and others after |

## Left out

- Coherence across L1, L2 and directory as a whole: it depends on relative latencies, and several L2-to-L1 sends are marked as buggy in the code.
- Limitless broadcast: the `et_nop` messages it adds are dropped by the caches and are not modelled as messages in flight.
- The directory cache together with the coherence invariant: with the cache on, its structure and the handling of each message are proved, not the consistency of the lines with their messages in flight.
- Where an active request is offloaded to, and the routing schemes behind it; the naive scheme, in which only the first controller takes part, is not modelled.
- The mult-twin rendezvous and the pending-update bookkeeping of the memory-network controllers, and the memory network itself.
- Instruction fetch: the fetch queue, the instruction cache and its TLB, and the branch predictor are inputs of the core; statistics and the limit on consecutive nacks are not modelled.
- DramBubbles.WriteBubbleExact: states the exact condition for the open-row policy; for the closed-row policies CoveredIsKept states that a covered bubble is kept, and a row that closes behind its request rules out the run that breaks the others.
- DramBubbles.ReadBubbleExact: the same.
- MemoryControllerUnit.MemoryController.AddReqEvent: does not model the two fixed-latency modes, which bypass the scheduler.
- Address.AddressesDiffer: does not model the variant in which agile rows have another number of banks.
- The scheduler's requests carry their rank, bank and page; that these come from the address is the subject of `Address`.
- Network: the destination of a packet, which the code recomputes at every hop from the same fields, is a field of the packet; handing over to caches and directories appends to a list of deliveries.
- L1 and L2 tag arrays, prefetching, and the upgrade path that changes a line's state before its miss is accepted.
- DirtyLines.LostAsOftenAsExposed: does not cover runs with untimely evictions, after which the entry no longer says who owns the line; the steps are covered by LossExact.
- Tlb.Tlb.ProcessEvent: does not model more than one access per tick, where two accesses collide on the time key.
- EventKernel: does not model which hardware thread a core's return value resumes, nor what happens when the queue is empty.
- `which_l2`, the small in-order cores, statistics, displays, parameter parsing, processes and sockets: plumbing, or easy beside the rest.
