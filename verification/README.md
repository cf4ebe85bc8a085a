# Verified models of the xrpld acquisition and ledger core

Dafny models of six parts of the repository, with proofs about them. Each model
follows the code branch by branch; the proofs say what every run, every
interleaving or every input keeps.

- **The session plan** (`Identity`, `Arith`, `PlanModel`, `PlanLemmas`,
  `PlanFeed`, `Frontier`, `Work`, `PlanTurn`, `SessionPlan`, `PlanRuns`). `SessionPlan` is the
  single-owner state machine of one acquisition. Its network frontier and its
  outstanding work are values whose invariants are their types. The tree engine
  is an oracle that may answer anything, except that one read batch has distinct
  hashes. It keeps its own transcript of what it gave out and was told, and the
  plan's record is proved equal to it. `PlanRuns.Run` takes any sequence of calls.
- **The admission gate** (`AdmissionGate`). Every atomic operation is a step of
  its own; any number of threads interleave in any order.
- **The copy-on-write trie** (`CowTrie`). Insertion against a plain map, and the
  shape as a function of the contents.
- **The skip list, the close-time ladder and state batches** (`SkipList`,
  `CloseTime`, `Ledger`, `StateBatch`). Chains of ledgers grown from any genesis
  sequence; batches under owner ids from a shared counter.
- **The path-set codec** (`PathSet`). Printer and parser with loops, each proved
  equal to a recursive definition, and both round trips.
- **The service phase and the shadow coordinator** (`Phase`, `ShadowModel`,
  `ShadowSession`, `ShadowBook`, `ShadowSpec`, `Shadow`). `ShadowSpec` gives the
  state after each call as a function, `Shadow` the object that computes it. Every
  sequence of events and effects.

`dafny verify dfyconfig.toml` checks the project.

Integers are unbounded except where width matters: identities and gate counters
are 64-bit and wrap, sequences and close times are 32-bit, bytes are bytes.

## What the proofs show about the code

- A plan re-reading retained needs (`reprobe_network_batch`) counts each new
  request twice against the read cap, so with room for k reads it issues
  ceil(k/2), if as many needs are eligible: `Works.Reprobe` has the exact number.
- An engine step that ends `Invalid` while it has nodes to persist is answered
  with the write. The invalid result is reported if and only if nothing was
  drained with it or no ledger sequence is known
  (`SessionPlans.SessionPlan.AdvanceAndAct`).
- Nodes drained from the engine reach a batch, all of them and in order, over any
  calls of which no turn is reported invalid. A turn that finds no ledger sequence
  is the only way to lose them (`PlanRuns.Run`).
- A timeout failure marks the plan cancelled without clearing it. Reads and
  writes already in flight are still accepted (`PlanRuns.TimedOutPlanStillReads`)
  until `cancel` or `terminalize` revokes them, so "nothing is accepted
  afterwards" is stated from those two.
- A deferral by the gate does not mean the packet could not fit. An attempt is
  deferred although the leases leave room exactly when the holds of half-finished
  operations take that room away (`AdmissionGate.SpuriousExactly`), which can
  happen with nobody in between (`AdmissionGate.SpuriousDeferral`). With nothing
  half-finished the gate is exact (`AdmissionGate.QuiescentIsExact`), and under any
  interleaving a deferral means that at some moment of the attempt leases and
  half-finished operations left no room (`AdmissionGate.DeferredForLackOfRoom`).
- A ledger asked for an ancestor two to 256 back before its own skip-list update
  fails an assertion whenever a short list exists, and only then
  (`SkipLists.StaleIndexFails`). A genesis ledger answers its parent's sequence
  with its own parent field.
- Reading past the end of a serialized path set yields zeros and does not move
  the cursor, so a truncated input can be accepted
  (`PathSets.TruncatedIsAccepted`). `PathSets.Clean` is the exact condition under
  which an accepted input prints back.
- Path elements compare equal when only the asset or issuer bits of their tags
  differ, although they print differently (`PathSets.SameIsNotPrinted`).
- A terminal mirrored session can change: a name adopted from production can be
  minted again later, and then replaces its session
  (`ShadowSpec.CollisionReplaces` gives the calls). An event changes a terminal
  session exactly if it mints its name (`ShadowSpec.TerminalChangesExactly`), and
  over any run it stays what it was exactly if no later call gives its name out
  (`ShadowSpec.TerminalForeverExactly`). If adopted ids are never ahead of the
  counter, no terminal session changes but by a later adoption of its own name
  (`ShadowSpec.WithoutCollisionsTerminalsAreFinal`).

Where a comment is looser than the code it describes, the model follows the code.

## Model

| member | source | states |
|---|---|---|
| Identity.IdCounter.NextId | xrpld/acquisition/src/id.rs:117-128 | the n-th mint yields the n-th nonzero 64-bit identity |
| Identity.IdsCollideExactly | xrpld/acquisition/src/id.rs:117-128 | two mints give one identity if and only if they are a whole number of laps of 2^64 - 1 apart |
| PlanRuns.Run | xrpld/acquisition/src/plan.rs:697-1814 | after any sequence of calls: each minted operation is live, settled once or revoked; nothing revoked and nothing on a closed plan is ever acted on; every read the engines asked for is in flight, waiting, applied by an ordinary read of its own or given up, and without a suspension, cancellation or terminalization among the calls none is given up or revoked; every need they asked for is either queued or known to be gone; every node they gave out is in the batches or lost, and if no turn came back invalid all of them are in the batches in order; they were told of exactly the accepted batches unless one was released under a write, which takes a release call; all by the engines' own transcript; queues are consistent; peer batches taken with no clear in between share no need and repeat none; the engine advanced only from a quiet plan; Durable was earned by accept then fence of the last, fenced batch |
| SessionPlans.SessionPlan.RunTurn | xrpld/acquisition/src/plan.rs:1117-1370 | a cancelled, persisting or reading plan does nothing; otherwise a waiting read round goes first, exactly its oldest reads up to the cap; then a waiting network backlog, exactly as much as the window has room for; then up to four passes, view by view: each feeds the engine exactly the oldest four packets; a need that an attached node of them names is in no queue at the end unless the turn announced it since; progress is noted if and only if some node was useful; a ready pass with an attachment is followed by another; each pass is answered as its engine step demands. No read is given up, and nodes drained meanwhile are the batch returned, or are lost with an invalid result |
| PlanTurns.TurnLaws | xrpld/acquisition/src/plan.rs:1176-1370 | the four laws of packets, progress, named needs and further passes, for every sequence of passes a turn can make |
| PlanFeeds.FeedNodesExactly | xrpld/acquisition/src/plan.rs:1558-1615 | the nodes of a packet count exactly up to the first that is malformed, zero or invalid: a need is resolved if and only if a reached, attached node carries its id and hash, and the packet is useful if and only if a reached node is |
| PlanFeeds.FeedAllExactly | xrpld/acquisition/src/plan.rs:1181-1189 | the same for packets fed one after the other |
| SessionPlans.SessionPlan.AdvanceEngine | xrpld/acquisition/src/plan.rs:1234-1262 | callable only with no reads in flight or waiting, no network backlog, no pending write and no cancellation; records that guard; the outcome, drained nodes and sequence are the ones the engine gives, and the plan owes exactly them to its record |
| SessionPlans.SessionPlan.AdvanceAndAct | xrpld/acquisition/src/plan.rs:1234-1370 | each pass of the engine is answered in full: drained nodes leave in one batch and what was announced with them waits whole, a lone outcome is acted on, and an invalid step is reported if and only if nothing was drained with it or no sequence is known |
| SessionPlans.SessionPlan.PersistIncremental | xrpld/acquisition/src/plan.rs:1289-1343 | an incremental write defers the announced reads and needs whole and in order; without a ledger sequence the drained nodes are lost |
| SessionPlans.SessionPlan.CompleteTree | xrpld/acquisition/src/plan.rs:1777-1814 | completion emits one fenced batch holding the remaining drained nodes, or reports an invalid plan when no sequence is known |
| SessionPlans.SessionPlan.OnRead | xrpld/acquisition/src/plan.rs:1376-1442 | a read is consumed if and only if its exact operation is in flight, at most once; it takes exactly that read off its table, and a recovery read that attached retires its need; a stale one changes nothing |
| SessionPlans.SessionPlan.OnWrite | xrpld/acquisition/src/plan.rs:1448-1501 | a write is acted on only as the exact pending operation; acceptance leads to the fence or back to idle and tells the engine once, failure fails the plan, cancellation leaves it idle |
| SessionPlans.SessionPlan.OnDurability | xrpld/acquisition/src/plan.rs:1506-1532 | a fence is acted on only as the exact pending fence, and only a passed one makes the plan durable |
| SessionPlans.SessionPlan.OnTimeout | xrpld/acquisition/src/plan.rs:1539-1553 | progress resets nothing and costs nothing; the budget is spent one by one and failing cancels the plan |
| PlanRuns.TimedOutPlanStillReads | xrpld/acquisition/src/plan.rs:1539-1553 | a plan whose timeout budget is spent fails and is cancelled, and still consumes a read in flight |
| SessionPlans.SessionPlan.TakeNextNormalNetworkBatch | xrpld/acquisition/src/plan.rs:942-968 | a longest one-kind prefix of the unemitted needs within the bound, none emitted before; exactly it leaves the queue and exactly its hashes become recent |
| PlanRuns.TakeAll | xrpld/acquisition/src/plan.rs:942-968 | with nothing in between, repeated calls with any positive bound return the whole unemitted queue, each need once and in order |
| SessionPlans.SessionPlan.NextTimeoutRecoveryBatch | xrpld/acquisition/src/plan.rs:1050-1063 | the next window of the retained frontier, cursor moved past it |
| SessionPlans.SessionPlan.BeginTimeoutScan | xrpld/acquisition/src/plan.rs:815-840 | opens one timeout lane and one lane per added peer and clears the recent set |
| SessionPlans.SessionPlan.FinishNetworkLane | xrpld/acquisition/src/plan.rs:770-803 | drops the finished lane and discards every need not yet requested |
| SessionPlans.SessionPlan.SuspendForDormancy | xrpld/acquisition/src/plan.rs:974-980 | revokes every read in flight |
| SessionPlans.SessionPlan.Cancel | xrpld/acquisition/src/plan.rs:989-1005 | closes the plan: every live operation is revoked and every queue empty |
| Works.CancelGivesUpAll | xrpld/acquisition/src/plan.rs:989-1005 | what a cancellation gives up is exactly what was in flight or waiting, and every live operation is revoked |
| SessionPlans.SessionPlan.TerminalizeRetainingEngine | xrpld/acquisition/src/plan.rs:1009-1024 | the same, keeping the engine |
| SessionPlans.SessionPlan.PushPacket | xrpld/acquisition/src/plan.rs:432-444 | accepted exactly when both totals stay in budget |
| SessionPlans.PopOneKind | xrpld/acquisition/src/plan.rs:942-968 | the popped prefix is of one kind and as long as the bound, the queue and the kind allow |
| SessionPlans.Queue | xrpld/acquisition/src/plan.rs:1668-1681 | the loop that queues announced needs computes the duplicate-free extension |
| Works.DrainBacklog | xrpld/acquisition/src/plan.rs:1133-1159 | the oldest waiting reads go in flight, one request each, up to the cap, and the rest keeps its order |
| Works.AdmitAnnounced | xrpld/acquisition/src/plan.rs:1746-1772 | an announced round is split in order into requests in flight and backlog |
| Works.DeferAnnounced | xrpld/acquisition/src/plan.rs:1621-1639 | an announced round waits whole behind an incremental write |
| Works.Reprobe | xrpld/acquisition/src/plan.rs:1070-1112 | the first eligible needs (not under recovery, first of their hash), exactly as many as fit when each counts twice against the cap, get one recovery read each, in order; the count is stated short of a full lap of the id counter |
| Frontiers.Dispatched | xrpld/acquisition/src/plan.rs:1687-1701 | moving a backlog prefix into the window keeps the frontier consistent and loses nothing |
| Frontiers.Announced | xrpld/acquisition/src/plan.rs:1668-1681 | exactly the announced needs neither retained nor recently sent become backlog, and no longer count as gone |
| Frontiers.Retired | xrpld/acquisition/src/plan.rs:1706-1742 | exactly the resolved needs leave all three queues, and the rest keeps its order |
| Frontiers.TailDiscarded | xrpld/acquisition/src/plan.rs:787-803 | exactly the unrequested needs leave and count as gone, what was requested stays retained |
| Frontiers.EpochReset | xrpld/acquisition/src/plan.rs:849-855 | empties the queues but keeps the memory of what was sent |
| Frontiers.EmissionIsUnique | xrpld/acquisition/src/plan.rs:942-968 | a need taken now was not taken since the last clear and no announcement queues it again |
| PlanModel.RotationCoversFrontier | xrpld/acquisition/src/plan.rs:1050-1063 | on an unchanged frontier of n needs, from any cursor, every need is in one of the next ceil(n/12) recovery batches |
| PlanRuns.RotateThrough | xrpld/acquisition/src/plan.rs:1050-1063 | ceil(n/12) calls for a recovery batch return every one of the n retained needs |
| PlanModel.RotationNeverRepeats | xrpld/acquisition/src/plan.rs:1050-1063 | one recovery batch holds no need twice |
| PlanModel.CursorClosedForm | xrpld/acquisition/src/plan.rs:1050-1063 | after r rounds the cursor has advanced r windows modulo the frontier |
| AdmissionGate.EveryRunIsBalanced | xrpld/acquisition/src/ingress.rs:411-472 | in every interleaving each counter is the sum held by leases and half-finished operations, and within budget |
| AdmissionGate.NoUnderflow | xrpld/acquisition/src/ingress.rs:411-443 | no pending subtraction of a release or a rollback exceeds its counter |
| AdmissionGate.DrainedGateIsEmpty | xrpld/acquisition/src/ingress.rs:411-472 | once every attempt is deferred or released both counters are zero |
| AdmissionGate.ReleasedOnce | xrpld/acquisition/src/ingress.rs:167-216 | whatever steps follow, a lease that started to release never holds more again, so it releases once |
| AdmissionGate.LeaseGivesBack | xrpld/acquisition/src/ingress.rs:167-216 | in every reachable gate a settled or dropped lease is released by its next two steps, whatever others do before and between: the first gives back exactly its packets, the second exactly its bytes |
| AdmissionGate.LeaseCellDecidesOnce | xrpld/acquisition/src/ingress.rs:167-216 | of consuming and dropping an open lease the first wins and the other changes nothing; only a consumed lease settles, to what dropping it would have come to |
| AdmissionGate.LeaseIdsAreDistinct | xrpld/acquisition/src/ingress.rs:411-437 | before the id counter can wrap no two live leases share an id |
| AdmissionGate.SoloIsExact | xrpld/acquisition/src/ingress.rs:411-472 | an undisturbed attempt is admitted if and only if both amounts fit the counters, and a refusal leaves no trace |
| AdmissionGate.SpuriousExactly | xrpld/acquisition/src/ingress.rs:411-472 | in every reachable gate an undisturbed attempt is deferred although the leases leave room if and only if what half-finished operations hold takes it away, and admitted if and only if the leases leave room and it does not |
| AdmissionGate.QuiescentIsExact | xrpld/acquisition/src/ingress.rs:411-472 | in every reachable gate with nothing half-finished an attempt is admitted if and only if the leases leave room |
| AdmissionGate.RefusedOnLastLoad | xrpld/acquisition/src/ingress.rs:458-472 | under any interleaving a slot is refused if and only if the value it last loaded leaves no room for its amount |
| AdmissionGate.LoadsAreReal | xrpld/acquisition/src/ingress.rs:458-472 | that value was the counter's at a moment of the run when the attempt, with the same amount, was under way |
| AdmissionGate.DeferredForLackOfRoom | xrpld/acquisition/src/ingress.rs:411-472 | whatever the interleaving, for every deferred attempt there was a moment of it when leases and half-finished operations together left no room for its bytes or its packets |
| AdmissionGate.SpuriousDeferral | xrpld/acquisition/src/ingress.rs:411-437 | an interleaving that defers an attempt, undisturbed, although no lease is left and the budget is large enough |
| CowTrie.InsertAtUpdates | xrpl/shamap/src/cow_shamap.rs:63-126 | below any node insertion keeps the shape rule and changes exactly the entry of its key |
| CowTrie.InsertAt | xrpl/shamap/src/cow_shamap.rs:63-126 | recursion stays within 64 nibbles and an inner node stays inner |
| CowTrie.LeafDiverges | xrpl/shamap/src/cow_shamap.rs:88-122 | two different keys that agree so far have a nibble left to differ in |
| CowTrie.InsertIsUpdate | xrpl/shamap/src/cow_shamap.rs:58-61 | the contents after insertion are the old contents with the key set |
| CowTrie.SameEntriesSameNode | xrpl/shamap/src/cow_shamap.rs:63-126 | two shaped nodes at one depth with the same entries are equal |
| CowTrie.ContentsDecideTheTrie | xrpl/shamap/src/cow_shamap.rs:63-126 | equal contents mean equal tries |
| CowTrie.Built | xrpl/shamap/src/cow_shamap.rs:58-126 | any history of insertions yields a trie holding the insertions folded in order |
| CowTrie.HistoryIsForgotten | xrpl/shamap/src/cow_shamap.rs:58-126 | histories that fold to one map build one trie |
| CowTrie.OrderDoesNotMatter | xrpl/shamap/src/cow_shamap.rs:58-126 | the same distinct keys in any order build the same trie |
| CowTrie.OffPathIsShared | xrpl/shamap/src/cow_shamap.rs:63-126 | every node off the inserted key's path is the old one |
| CowTrie.CowMap.Put | xrpl/shamap/src/cow_shamap.rs:56-61 | updates the contents in place and shares everything off the path |
| CowTrie.Diverge | xrpl/shamap/src/cow_shamap.rs:48-61 | a fork and its origin take different insertions without seeing each other's |
| SkipLists.UpdateKeepsIndex | xrpld/ledger/src/lib.rs:2561-2663 | updating an exact index of the ancestors gives an exact index including the parent, and no length assertion fails |
| SkipLists.AnswersAreExact | xrpld/ledger/src/lib.rs:2434-2559 | on an indexed ledger no assertion fails; exactly itself, the last 256 ancestors and every multiple of 256 back to genesis are found, each with its true hash |
| SkipLists.StaleIndexFails | xrpld/ledger/src/lib.rs:2434-2559 | before its own update a ledger fails the sequence assertion if and only if a short list exists and the ancestor is two to 256 back |
| SkipLists.LongListAnswers | xrpld/ledger/src/lib.rs:2511-2552 | a long list answers exactly for the multiples of 256 on the chain |
| Ledgers.Ledger.UpdateSkipList | xrpld/ledger/src/lib.rs:2561-2663 | a freshly derived ledger becomes fully indexed |
| Ledgers.GrowChain | xrpld/ledger/src/lib.rs:757-792 | every chain from any genesis, with any verdict on each ledger: its resolution follows the ladder through the verdicts, also where the sequence wraps; short of the wrap no update fails and every sequence is answered as walking the chain does |
| CloseTime.Agreeing | xrpld/ledger/src/lib.rs:3202-3230 | closed form: one rung finer per multiple of eight passed, also across sequence wrap |
| CloseTime.Disagreeing | xrpld/ledger/src/lib.rs:3202-3230 | closed form: one rung coarser per ledger |
| CloseTime.LadderEnds | xrpld/ledger/src/lib.rs:271-275 | 40 agreeing ledgers reach 10 seconds from any rung and 5 disagreeing ones reach 120 |
| CloseTime.RecentVerdictsDecide | xrpld/ledger/src/lib.rs:3202-3230 | whatever the verdicts before, a chain ending in 40 agreeing ledgers is at 10 seconds and one ending in 5 disagreeing ones at 120 |
| CloseTime.LadderBoundsAreTight | xrpld/ledger/src/lib.rs:3202-3230 | 39 and 4 do not suffice, and a value off the ladder never moves |
| CloseTime.RoundingIsNearest | xrpld/ledger/src/lib.rs:3232-3240 | absent overflow the result is a multiple of the resolution at most half a step away |
| CloseTime.RoundsExactlyIf | xrpld/ledger/src/lib.rs:3232-3240 | rounding overflows if and only if half a step does not fit 32 bits; zero and a zero resolution are left alone |
| CloseTime.RoundingIsIdempotent | xrpld/ledger/src/lib.rs:3232-3240 | rounding twice is rounding once |
| CloseTime.RoundingIsMonotone | xrpld/ledger/src/lib.rs:3232-3240 | later times never round earlier |
| StateBatches.IdsIncrease | xrpld/ledger/src/lib.rs:3061-3081 | in any interleaving a later batch has a greater owner id if and only if, at the earlier one, the counter is below the top and the root below the top but one; an id is above its root's if and only if the root is below the top |
| StateBatches.StateMap.ApplyBatch | xrpld/ledger/src/lib.rs:3046-3135 | all or nothing: it succeeds if and only if each insertion finds its key absent and each update and deletion finds it present, judged by the last earlier operation on the key or else the initial state; then untouched keys are as before and every other is as its last operation says; otherwise nothing changes and the first operation that does not fit is reported |
| StateBatches.AppliesExactly | xrpld/ledger/src/lib.rs:3092-3117 | the same of every prefix of a batch |
| StateBatches.IdIsLeast | xrpld/ledger/src/lib.rs:3061-3081 | an owner id is the least that is not zero, not below the counter and above its root, short of saturation |
| StateBatches.ApplyConcat | xrpld/ledger/src/lib.rs:3092-3117 | a joined batch is its halves in turn |
| StateBatches.RefusalIsFirstFailure | xrpld/ledger/src/lib.rs:3092-3117 | a refusal names the key of the first operation that does not apply to what precedes it |
| PathSets.Print | xrpl/protocol/src/st_path_set.rs:508-547 | the printing loops produce the recursive form |
| PathSets.Parse | xrpl/protocol/src/st_path_set.rs:377-438 | the parsing loop produces the recursive form, every rejection included |
| PathSets.InferredElements | xrpl/protocol/src/st_path_set.rs:103-137 | the elements whose tag follows from their values are exactly those `inferred` returns |
| PathSets.PrintThenParse | xrpl/protocol/src/st_path_set.rs:377-438 | anywhere in any input, printed content reads back and stops right behind itself if and only if the format can carry it |
| PathSets.RoundTrip | xrpl/protocol/src/st_path_set.rs:508-547 | a set followed by any bytes round-trips if and only if it is non-empty, its paths are non-empty and every element is inferred with a non-zero tag |
| PathSets.ParseThenPrint | xrpl/protocol/src/st_path_set.rs:377-438 | what is accepted from any position prints as the bytes consumed if and only if they are clean |
| PathSets.Reprint | xrpl/protocol/src/st_path_set.rs:377-438 | an accepted set prints as the consumed bytes if and only if every announced field was present, announced accounts and issuers were non-zero and the terminator was there |
| PathSets.TruncatedIsAccepted | xrpl/protocol/src/st_path_set.rs:377-438 | the one byte 0x10 is accepted as an XRP element, is not clean and does not print back |
| PathSets.CutShortIsReread | xrpl/protocol/src/st_path_set.rs:377-438 | a currency cut short reads as zeros and its bytes are read again as whatever follows |
| PathSets.SameIsNotPrinted | xrpl/protocol/src/st_path_set.rs:254-264 | equal elements print alike if and only if their tags are the same; inferred ones if and only if both or neither show their asset |
| PathSets.ForcedXrpPrintsLonger | xrpl/protocol/src/st_path_set.rs:103-137 | a forced XRP element equals the unforced one and prints 20 bytes more |
| PathSets.AssembleAdd | xrpl/protocol/src/st_path_set.rs:440-450 | appends if and only if no equal path is there, so repeats never arise |
| Phases.FullIsEarned | xrpld/acquisition/src/phase.rs:147-196 | reaching Full needs, since the last Disconnected, availability, then install or reconcile, then contiguity |
| Phases.FactsDecide | xrpld/acquisition/src/phase.rs:147-196 | what every fact does to every phase it meets in any run, and that it does nothing otherwise |
| Phases.DisconnectedExactly | xrpld/acquisition/src/phase.rs:147-196 | the service is disconnected if and only if, short of a shutdown, every availability was followed by a loss of peers or quorum |
| Phases.StoppingExactly | xrpld/acquisition/src/phase.rs:147-196 | it is stopping if and only if a shutdown was requested |
| Phases.FullLastsExactly | xrpld/acquisition/src/phase.rs:147-196 | a Full phase lasts, with its ledgers, exactly as long as no loss, shutdown, target, divergence, view change or block arrives |
| Phases.InstalledBy | xrpld/acquisition/src/phase.rs:147-196 | Tracking and Full follow an install or reconcile of the same connected stretch |
| Phases.AnchorHolds | xrpld/acquisition/src/phase.rs:147-196 | while Syncing lasts the anchor hash is constant and a known sequence is never lost |
| Phases.StoppingAbsorbs | xrpld/acquisition/src/phase.rs:147-196 | nothing leaves Stopping |
| Shadow.ShadowRunner.Record | xrpld/acquisition/src/shadow.rs:567-707 | after every event the state is the one the event determines; installs, rotations, sweeps and shutdowns cancelled exactly the sessions that qualify, a session's own event moved it alone, a demand refined the first session that serves it, and no other session changed; a terminal session tracked before and after changed if and only if the event minted its name; a latched owner is tracked, live and on the recovery target, one exists while peers are usable, the anchor moved only from a hopeless hash to the latest viable target, and the result is exactly what was logged |
| ShadowSpec.RecordedSessions | xrpld/acquisition/src/shadow.rs:567-707 | every session before and after every event, in every state: cancelled on install if for that ledger and Active, Dormant or Persisting; on rotation if live and of an older generation; on sweep if eligible, idle and not scanning; on shutdown if live; untouched otherwise, up to names given out and the evictions that make room for them |
| ShadowSpec.DemandMintsExactly | xrpld/acquisition/src/shadow.rs:806-860 | a demand mints, and which name, if and only if peers are usable and no live session is for that target or could still be told its sequence |
| ShadowSpec.PromotesExactly | xrpld/acquisition/src/shadow.rs:1500-1523 | the anchor moves, to the latest target, if and only if it has no session left with hope and that one, of another hash, has |
| ShadowSessions.OutcomeExactly | xrpld/acquisition/src/shadow.rs:1102-1332 | a session completes if and only if a clean beginning of its events was written, fenced and acknowledged in that order; otherwise its first failed or cancelled write or failed fence decides, and without one it is exactly as far as it was written and fenced |
| ShadowSessions.ExpiryFiresExactly | xrpld/acquisition/src/shadow.rs:1363-1460 | an armed expiry makes its session sweepable if and only if that very timer fires |
| ShadowSessions.OtherFields | xrpld/acquisition/src/shadow.rs:980-1460 | packets count and reads stir the scan only while the session is active, a write that moves it settles the scan, and target, reason and names never move |
| Shadow.ShadowRunner.Derive | xrpld/acquisition/src/shadow.rs:567-707 | the phase, usability, targets and mirror after each kind of event, before reconciliation |
| Shadow.ShadowRunner.ReconcileOwner | xrpld/acquisition/src/shadow.rs:934-978 | a live owner is kept and nothing changes; otherwise the candidate takes over and the live session with the lowest id owns it, minted if need be |
| Shadow.ShadowRunner.PromoteAnchor | xrpld/acquisition/src/shadow.rs:1500-1523 | promotes exactly when the anchor is not viable and the latest, different target is |
| Shadow.ShadowRunner.DeriveAcquire | xrpld/acquisition/src/shadow.rs:781-884 | rejected without peers; otherwise claims the first reusable session or a new one |
| Shadow.ShadowRunner.DeriveSession | xrpld/acquisition/src/shadow.rs:980-1460 | an event moves only the session it names, as its phase allows, and is logged with that verdict |
| Shadow.ShadowRunner.DeriveInstall | xrpld/acquisition/src/shadow.rs:1567-1700 | installs per phase, cancels the undelivered sessions of that hash and logs each, in name order |
| Shadow.ShadowRunner.DeriveRotation | xrpld/acquisition/src/shadow.rs:1759-1815 | cancels exactly the live sessions of older generations |
| Shadow.ShadowRunner.DeriveShutdown | xrpld/acquisition/src/shadow.rs:1909-1959 | afterwards every mirrored session is terminal |
| Shadow.ShadowRunner.CompareReference | xrpld/acquisition/src/shadow.rs:1961-2009 | matches exactly when target, outcome and phase agree with the mirror |
| Shadow.Run | xrpld/acquisition/src/shadow.rs:485-707 | after any calls the state is the one they determine; a session terminal at any point stayed what it was from there on if and only if no later call gave its name out, which none does but an adoption of that name while adopted ids are never ahead of the counter; outcomes agree with phases, Complete sessions were written, fenced and acknowledged in that order, the mirror is bounded; the log is exactly what the calls returned, the three counters sum to it, the buffer is the latest of it since the last drain call and so is what each drain returned |
| ShadowSpec.EventsKeepTheAnchor | xrpld/acquisition/src/shadow.rs:2015-2033 | no event but a startup seed moves a syncing anchor to another hash |
| ShadowModel.OnEventOk | xrpld/acquisition/src/shadow.rs:1102-1332 | whatever an event does to its session, outcome and phase agree and no stage is skipped or undone |
| ShadowModel.MirrorStep | xrpld/acquisition/src/shadow.rs:980-1460 | and the rest of the mirror stands still |
| ShadowModel.Pushed | xrpld/acquisition/src/shadow.rs:2066-2100 | the buffer stays the latest of all observations and the counters their tally |
| ShadowModel.CountsSum | xrpld/acquisition/src/shadow.rs:2066-2100 | every observation is in exactly one counter |
| ShadowModel.CountIsPlaces | xrpld/acquisition/src/shadow.rs:2066-2100 | each counter is the number of observations of its kinds: matches, stale events, and all others |
| ShadowModel.First | xrpld/acquisition/src/shadow.rs:941-978 | the search in map order, its reverse, or by lowest id, finds the first |
| ShadowModel.MakeRoom | xrpld/acquisition/src/shadow.rs:2047-2063 | evicts the oldest names, and only until one more fits |
| ShadowModel.RoomEvictsOldest | xrpld/acquisition/src/shadow.rs:2047-2063 | what leaves a full mirror is the lowest id of the oldest run, and nothing else |
| ShadowModel.CancelledOk | xrpld/acquisition/src/shadow.rs:1462-1498 | cancelling any set of live sessions keeps the mirror sound |
| ShadowSpec.TerminalChangesExactly | xrpld/acquisition/src/shadow.rs:567-707 | an event changes a terminal session tracked before and after if and only if its name is the one the state before lets the event mint: for its demand, with usable peers and no reusable session, or for a recovery target it leaves without owner and live session |
| ShadowSpec.RecordedKeeps | xrpld/acquisition/src/shadow.rs:567-707 | the same for all names at once; a minted name is live and no other name is new |
| ShadowSpec.TerminalForeverExactly | xrpld/acquisition/src/shadow.rs:485-707 | from any point of any run, through evictions and adoptions, a terminal session stays what it is if and only if no later call gives its name out |
| ShadowSpec.DrawnNamesStayFinal | xrpld/acquisition/src/shadow.rs:2047-2063 | before the counter wraps, a terminal session whose name is of another run or has an id already drawn never changes again if no later call adopts that name |
| ShadowSpec.WithoutCollisionsTerminalsAreFinal | xrpld/acquisition/src/shadow.rs:485-707 | in every run whose adopted ids are never ahead of the counter, every terminal session stays what it is until its own name is adopted again |
| ShadowSpec.CollisionReplaces | xrpld/acquisition/src/shadow.rs:2047-2063 | acquire, adopt the production name with the next id, fail it, acquire again: the run that replaces a failed session by a new one, for every epoch, bound and target |
| ShadowBook.AcquiredKeeps | xrpld/acquisition/src/shadow.rs:781-884 | a demand changes a terminal session exactly if it mints its name, and ends no live one |
| ShadowBook.AdoptedKeeps | xrpld/acquisition/src/shadow.rs:541-561 | an adoption changes no terminal session and gives out only the production name, to a live session |
| ShadowBook.Claim | xrpld/acquisition/src/shadow.rs:806-860 | the first reusable session in name order, refined to the target, or a freshly named one |
| ShadowBook.Adopt | xrpld/acquisition/src/shadow.rs:541-561 | the last live session of that hash takes the production name, unless the name is tracked or there is none; no other session changes |
| ShadowBook.AdoptsNewest | xrpld/acquisition/src/shadow.rs:541-561 | the session renamed is the live one of that hash with the highest id of the newest run, and only its name changes |
| ShadowBook.MintedIsNew | xrpld/acquisition/src/shadow.rs:806-860 | a minted session is active, for the demanded target and reason, with nothing queued, armed or eligible and its scan under way |

## Left out

- `runner.rs`: the production coordinator is not part of this model.
- StateBatches.StateMap.ApplyBatch: the tree below it is a map; traversal failures, node types and write-back are not modelled, and the owner id, whose part is to keep detached nodes apart, does not affect the result.
- `LedgerTreePlanEngine`, node hashing and (de)serialisation of nodes: the engine is an oracle.
- Plan: peer sampling is an oracle argument, the saturating additions of the mailbox at the top of 64 bits, the two kinds of persisted node and the read-only queries are not modelled.
- Frontiers.Announced: modelled for an empty backlog, which is the only state in which the engine is advanced.
- Gate: routing snapshots, peer identities and packet payloads are not modelled; a lease routed to a wrong session is a discarded lease.
- AdmissionGate.Run: memory ordering is not modelled; each counter and each lease cell is one atomic location of its own, and nothing relates two of them.
- CowTrie.InsertAt: reference counts are not modelled; sharing is stated as equality of subtrees.
- Ledgers.Ledger.FromPrevious: close times, fees, rules and the maps other than the skip lists are not modelled; the placeholder hash of a derived ledger is an argument; node-store errors while reading the lists are left out.
- Ledgers.GrowChain: what a ledger answers once the sequence has wrapped to zero is not described.
- CloseTime.RoundCloseTime: an addition past 32 bits is an `Overflow` result rather than a panic or a wrap.
- PathSets: JSON forms, the element hash (a function of the compared fields) and `from_optionals` are left out.
- Shadow.ShadowRunner.Record: observations do not carry the event tag; a mirror bound of zero with the shadow enabled panics on its first mint and is excluded by the constructor; the 64-bit observation counters do not wrap.
- Shadow.ShadowRunner.ObserveStarted: adoption renames a session but not the latched owner, so the latch is stated after events, not after effects.
- Snapshots, labels, tracing, metrics, RPC, configuration and storage: plumbing.
