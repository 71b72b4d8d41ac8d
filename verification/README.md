# Verified model of the KIMP arbitrage bot

The bot buys a coin on a Korean exchange while it shorts the same coin on a foreign one, whenever the Korean
price is low enough to pay all fees, and unwinds both legs when the premium has turned. This project models its
concurrent core and its trading core in Dafny and proves what they keep.

* **Queues and their clients.** `MpmcQueue` and `SpscQueue` are step systems: one program counter per thread,
  one step per shared-memory access. A schedule is any sequence of threads, so a statement about all schedules
  is about every sequentially consistent interleaving. `WriterHandoff` (with `WriterWire` and `WriterDrains`),
  `LifecycleExecutor` (with `SlotClaims`, `ExecutorTasks` and `ExecutorShutdown`) and `LatencyProbe` (with
  `EventConservation`, `EventSpill`, `PublishEnds`, `ExporterDrains` and `PendingCounter`) embed these queues,
  "claimed but not published" included. Besides what every run keeps, the modules say when each operation succeeds
  and that calls, writers, publishers and the exporter come to an end when they run alone. Positions are unbounded
  and capacities arbitrary; `RingIndex` connects the cell of a position with the masking of the source.
* **The hedge lifecycle.** `SpotRelay` is the entry/exit loop as a function of the quotes and of the venues'
  answers; `OrderManager` is the object that runs it in place, proved equal to it; `RelayDecision` says when it
  trades and what it asks for; `HedgeDrift`, `HedgePnl`, `HaltReport`, `PositionFile`, `ExitProfit`, `ExposureCap`,
  `CriticalStop` and `LotSize` state what every run keeps. Every submitted order is recorded with what was asked,
  what the venue answered, what it really executed and at what price, and what the loop books for it.
* **The entry decision.** `RelayMetrics`, `PairChoice`, `AtomicBitset`, `EntrySelection` and `EntryCache`.
* **Transfer routes and best quotes.** `ChainNames`, `TransferRoutes`, `BestQuotes`.

`RealAlgebra`, `Bits`, `Counting`, `Listing`, `Options` and `TradingConfig` hold what the others share.

## Assumptions

* Atomic operations are sequentially consistent; prices and quantities are real numbers.
* What a venue executed, and at what price, are values of their own that the bot never reads. The drift and profit
  laws assume of every submitted order that it was reported truly: a positive reported fill is what was executed,
  the acknowledged size was executed when no fill is reported, an order that is not filled executed nothing; a
  positive reported average is the price paid, and the quote was paid when none is reported. How far an order that
  the loop never queries (a rollback, a retried sell) executed something else than was booked is the term `Unseen` of
  the drift bound; it is zero when such orders execute what is asked.
* Calls that update or fire the entry cache are serialised: the check and the store of `signal_fired` are two
  operations. Lifecycles may overlap; `CriticalStop` interleaves their iterations.
* The list of iterations given to a lifecycle ends where the loop sees a shutdown request.
* The bid side of a Bithumb book is ordered from the highest price.

## Where the code does not do what one would expect

* The queue's static assertion admits one cell, but with one cell items are overwritten: the bound holds
  exactly from two cells on (`MpmcQueue.BoundedIffTwoCells`).
* A failed write gives up the writer role without looking at the queue again
  (`WriterHandoff.FailedWriteStrandsMessage`); `WriterHandoff.NothingStranded` says exactly when a message stays,
  and `WriterWire.WireInTicketOrder` what became of each popped one.
* A client that has expired when its sender takes the writer role gives it up again and leaves its message in the
  queue (`WriterHandoff.ExpiredSendAbandons`).
* An enqueue that is undecided while the executor is stopped can be accepted and never handled; stopping drains
  the executor exactly when there is none (`ExecutorShutdown.StopDrainsIff`).
* A retried exit is booked without a look at its fill and does not complete the cycle; if it took out more than
  was held, the remaining negative costs can turn a later exit into a loss (`ExitProfit.RetriedOvershootLoses`);
  `ExitProfit.RunGains` gives the exact condition for the discount.
* The position file can be stale. A retried exit does not update it (`PositionFile.RetriedSaleFileIsStale`), and a
  completed cycle that closed more than was held clears it while the loop goes on with a negative holding
  (`PositionFile.OverClosedFileIsStale`); a later entry that leaves that holding at or below zero is saved without
  its costs. `PositionFile.FileIsCurrentIff` says exactly when a restart has the loop's ledger.
* A critical stop in an exit whose correction failed, or whose sell was never filled, saves the position without the
  profit of the legs that it did close (`HaltReport.FailedCorrectionForgets`); `HaltReport.HaltSettledIff` says
  exactly when the saved profit accounts for all the money.
* The suppression that a critical stop sets is lifted by the loop guard; it is the running flag that makes the
  stop permanent (`OrderManager.OrderManager.RunTask`).
* A comment calls the floor of the exit threshold 0.10 %; the constant, and the model, say 0.25 %.
* Only the most profitable pair of venues is put to the gate, which can hide one that passes; the exact
  condition is `PairChoice.QualifiesIffDeep`.

## Model

| member | source | states |
|---|---|---|
| `RingIndex.SlotIsMask` | kimp_arb_cpp/include/kimp/memory/ring_buffer.hpp:226-229 | for every power-of-two capacity the cell of a position is the position masked with capacity - 1 |
| `RingIndex.SlotWindow` | kimp_arb_cpp/include/kimp/memory/ring_buffer.hpp:254-256 | within one lap different positions use different cells |
| `MpmcQueue.NextInv` | kimp_arb_cpp/include/kimp/memory/ring_buffer.hpp:250-336 | every load, compare-and-swap (spurious failures included), data access and sequence store of every thread keeps the cell and ticket invariant |
| `MpmcQueue.ExclusiveCell` | kimp_arb_cpp/include/kimp/memory/ring_buffer.hpp:272-274 | no two threads hold one cell between their compare-and-swap and their sequence store |
| `MpmcQueue.StepRefinesFifo` | kimp_arb_cpp/include/kimp/memory/ring_buffer.hpp:250-329 | the winning compare-and-swaps append to and remove from a FIFO of at most `Capacity` items; no other step changes its contents |
| `MpmcQueue.PushRefusal` | kimp_arb_cpp/include/kimp/memory/ring_buffer.hpp:254-266 | `try_push` gives up exactly when its ticket is still next and the ticket one lap earlier is untaken or still being popped |
| `MpmcQueue.PopRefusal` | kimp_arb_cpp/include/kimp/memory/ring_buffer.hpp:308-320 | `try_pop` reports empty exactly when its ticket is still the head and the head has no published item |
| `MpmcQueue.ProbeAnswer` | kimp_arb_cpp/include/kimp/memory/ring_buffer.hpp:331-336 | `empty()` answers true exactly in that state, also when the head is claimed but not published |
| `MpmcQueue.Delivery` | kimp_arb_cpp/include/kimp/memory/ring_buffer.hpp:250-329 | on every run of any number of threads dequeue_pos <= enqueue_pos <= dequeue_pos + Capacity, no ticket is handed over twice, each hand-over carries the item pushed under that ticket, and a ticket that was taken and not handed over is in the hands of a pop |
| `MpmcQueue.HandOversDistinct` | kimp_arb_cpp/include/kimp/memory/ring_buffer.hpp:304-329 | the tickets that a run hands to callers of `try_pop` are pairwise different, and are exactly the recorded ones |
| `MpmcQueue.HandOverIsNew` | kimp_arb_cpp/include/kimp/memory/ring_buffer.hpp:326-328 | a step hands over a ticket that was never handed over before, or none |
| `MpmcQueue.StepFrame` | kimp_arb_cpp/include/kimp/memory/ring_buffer.hpp:250-336 | what a step inside a call may change for the other threads, as the clients of the queue need it |
| `MpmcQueue.PushesOwnItem` | kimp_arb_cpp/include/kimp/memory/ring_buffer.hpp:250-275 | a push in progress keeps its item, and the ticket it claims is for that item |
| `MpmcQueue.FailedSwapRetries` | kimp_arb_cpp/include/kimp/memory/ring_buffer.hpp:256-270 | a compare-and-swap that fails, spuriously or not, changes nothing but sends its caller back to the sequence load at the present position |
| `MpmcQueue.CallsEndAlone` | kimp_arb_cpp/include/kimp/memory/ring_buffer.hpp:250-336 | no call waits for another thread: from every state of the invariant, whatever calls are in progress, a call that runs alone returns within seven steps |
| `MpmcQueue.CapacityOneOverwrites` | kimp_arb_cpp/include/kimp/memory/ring_buffer.hpp:226-275 | with one cell, which the static assertion admits, a second push overwrites an unread item |
| `MpmcQueue.BoundedIffTwoCells` | kimp_arb_cpp/include/kimp/memory/ring_buffer.hpp:226-329 | the queue bound holds on every run if and only if there are at least two cells |
| `SpscQueue.NextInv` | kimp_arb_cpp/include/kimp/memory/ring_buffer.hpp:71-164 | every step of either side keeps cached_tail <= tail <= cached_head <= head <= cached_tail + Capacity - 1 and the contents of the unread cells |
| `SpscQueue.StepRefinesFifo` | kimp_arb_cpp/include/kimp/memory/ring_buffer.hpp:71-164 | the index stores append to and remove from a FIFO of at most Capacity - 1 items, and the removed item is the one returned |
| `SpscQueue.Refusals` | kimp_arb_cpp/include/kimp/memory/ring_buffer.hpp:71-164 | a push is refused exactly when Capacity - 1 items are held at its tail load, a pop exactly when none is at its head load |
| `SpscQueue.StaleIndexNeverRefuses` | kimp_arb_cpp/include/kimp/memory/ring_buffer.hpp:71-164 | a call reloads exactly when the queue looks full or empty from its cached index, and otherwise goes on at once; only a reload refuses |
| `SpscQueue.DisjointAccess` | kimp_arb_cpp/include/kimp/memory/ring_buffer.hpp:71-164 | the producer never writes an unread cell, and the consumer takes exactly the oldest unread item out of its cell |
| `SpscQueue.PushAlone` | kimp_arb_cpp/include/kimp/memory/ring_buffer.hpp:71-110 | from every state of the invariant a push that runs alone is over within five steps: it is refused exactly when Capacity - 1 items are held, and otherwise appends its item, however stale the cached tail |
| `SpscQueue.PopAlone` | kimp_arb_cpp/include/kimp/memory/ring_buffer.hpp:120-164 | the same for a pop: nothing exactly when the queue is empty, otherwise the oldest item |
| `SpscQueue.Delivery` | kimp_arb_cpp/include/kimp/memory/ring_buffer.hpp:71-164 | on every run the items popped are, in order, the first items pushed |
| `WriterHandoff.NextInv` | kimp_arb_cpp/src/network/websocket_client.cpp:105-126 | every step of every sender, drainer and completion handler keeps the hand-off invariant |
| `WriterHandoff.OneWriter` | kimp_arb_cpp/src/network/websocket_client.cpp:292-332 | on every run, failed writes included, `is_writing_` is set exactly while one agent has the writer role, so two writes are never in flight |
| `WriterHandoff.FoundEmpty` | kimp_arb_cpp/src/network/websocket_client.cpp:294-302 | when the re-check says empty, the queue is empty or the head's push is in progress and its sender still has its exchange ahead |
| `WriterHandoff.NothingStranded` | kimp_arb_cpp/src/network/websocket_client.cpp:105-126 | on every run, failures included, with everybody at rest the queue is empty if and only if the role was not last given up by a failure with messages left; without failures messages go out in ticket order and all are out at rest |
| `WriterHandoff.ExchangeRepairs` | kimp_arb_cpp/src/network/websocket_client.cpp:117-126 | the next exchange takes an abandoned role up again and starts a pop |
| `WriterHandoff.ExpiredSendAbandons` | kimp_arb_cpp/src/network/websocket_client.cpp:117-126 | a sender whose client has expired gives the role up again without a look at the queue, so the queue is abandoned exactly if it holds anything |
| `WriterHandoff.FailedWriteStrandsMessage` | kimp_arb_cpp/src/network/websocket_client.cpp:319-332 | a run on which a failed write leaves an accepted message in the queue with everybody at rest |
| `WriterWire.WireInTicketOrder` | kimp_arb_cpp/src/network/websocket_client.cpp:292-332 | on every run, failures included, the wire is a subsequence of the pushed messages in ticket order, each ticket at most once; every popped ticket is on the wire, or cleared because the client had expired, or in the writer's hands, and only one of these; at rest with nothing abandoned every accepted message is on the wire or cleared |
| `WriterWire.StepHand` | kimp_arb_cpp/src/network/websocket_client.cpp:292-332 | the writer has at most one ticket in hand, the one just before the head; only starting or clearing its write disposes of it |
| `WriterWire.EveryMoveHasReason` | kimp_arb_cpp/src/network/websocket_client.cpp:105-126 | on every run an agent tries for the role only after its own push was accepted or after it saw a message in the queue, writes what it popped, and gives the role up only after a pop that found nothing, or a failure |
| `WriterDrains.WriterRests` | kimp_arb_cpp/src/network/websocket_client.cpp:292-332 | from every reachable state, an agent that has the role, or is on its way to a free role, comes to rest when it runs alone without failures, and then no message is published at the head of the queue |
| `LifecycleExecutor.NextInv` | kimp_arb_cpp/include/kimp/execution/lifecycle_executor.hpp:93-163 | every step of callers, workers and stop keeps the executor invariant |
| `LifecycleExecutor.SlotConservation` | kimp_arb_cpp/src/main.cpp:881-900 | on every run `g_active_loops` is the number of claimers, queued and running tasks and stays in 0 .. MAX_POSITIONS |
| `SlotClaims.ClaimOutcome` | kimp_arb_cpp/src/main.cpp:881-893 | at its compare-and-swap a claimer takes a slot exactly when its loaded value is current and fewer than MAX_POSITIONS slots are in use, gives up exactly when it loaded MAX_POSITIONS, and otherwise loads the present number |
| `SlotClaims.ClaimsAlone` | kimp_arb_cpp/src/main.cpp:881-893 | a claim that runs alone succeeds exactly when a slot is free |
| `SlotClaims.RefusedWhenFull` | kimp_arb_cpp/src/main.cpp:881-893 | on every run a claim is refused only if all MAX_POSITIONS slots were in use when it last loaded the counter |
| `SlotClaims.AdmittedAlone` | kimp_arb_cpp/include/kimp/execution/lifecycle_executor.hpp:93-114 | a caller that runs alone while the executor runs, a slot is free and the next cell is free gets its task queued and counted and keeps its slot; with the executor stopped it gives the slot back |
| `ExecutorTasks.TicketsCarryTasks` | kimp_arb_cpp/include/kimp/execution/lifecycle_executor.hpp:93-163 | on every run the queue holds under each ticket the task that the caller which took the ticket had claimed its slot for, and the worker that handles a ticket has popped exactly that task |
| `LifecycleExecutor.StopDrains` | kimp_arb_cpp/include/kimp/execution/lifecycle_executor.hpp:59-73 | if no enqueue was undecided when `running_` was cleared, every accepted task has been handled once all workers have left, and `pending_` is what callers about to return still owe |
| `LifecycleExecutor.HandledOnce` | kimp_arb_cpp/include/kimp/execution/lifecycle_executor.hpp:154-163 | a ticket is handled at most once |
| `ExecutorShutdown.StopDrainsIff` | kimp_arb_cpp/include/kimp/execution/lifecycle_executor.hpp:59-163 | from every reachable state, for any capacity and any number of agents and workers: stopping drains the executor on every continuation if and only if no enqueue is undecided when `running_` is cleared |
| `ExecutorShutdown.RacedTaskIsLost` | kimp_arb_cpp/include/kimp/execution/lifecycle_executor.hpp:93-114 | from every state with an undecided enqueue there is a continuation on which the workers leave first and the enqueue then reports success for a task that is not handled |
| `ExecutorShutdown.NobodyHandles` | kimp_arb_cpp/include/kimp/execution/lifecycle_executor.hpp:116-163 | with all workers gone nothing is handled any more, so such a task stays lost |
| `ExecutorShutdown.WorkerLeaves` | kimp_arb_cpp/include/kimp/execution/lifecycle_executor.hpp:116-163 | a worker that runs alone after the stop takes what is published and leaves, with the head unpublished |
| `LatencyProbe.NextInv` | kimp_arb_cpp/src/core/latency_probe.cpp:457-566 | every step of every producer and of the exporter keeps the probe's invariant |
| `LatencyProbe.OneProducerPerLane` | kimp_arb_cpp/src/core/latency_probe.cpp:502-538 | each producer queue has one producing thread, as the single-producer queue demands |
| `LatencyProbe.Conservation` | kimp_arb_cpp/src/core/latency_probe.cpp:457-500 | on every run what was exported from each queue is exactly what was taken from it, in order, and the counters of recorded, stored and dropped events balance |
| `EventConservation.EventsConserved` | kimp_arb_cpp/src/core/latency_probe.cpp:457-538 | on every run, as multisets of events: recorded = stored in the queues + dropped + in the hands of the threads |
| `EventConservation.ExitExportsAll` | kimp_arb_cpp/src/core/latency_probe.cpp:540-566 | when the exporter leaves with no publish in progress, as multisets of events: recorded = exported + dropped |
| `LatencyProbe.ExitIsClean` | kimp_arb_cpp/src/core/latency_probe.cpp:540-566 | when the exporter leaves with no publish in progress every queue is empty and every stored event has been written once and in order |
| `EventSpill.SpillsOnlyWhenRefused` | kimp_arb_cpp/src/core/latency_probe.cpp:457-538 | on every run a thread has no producer queue only if all were claimed, the queue of a thread that has one is seen by the exporter, an event goes to the overflow queue only from a thread without a queue or after its own queue refused it, and is dropped only after the overflow queue refused it too |
| `EventSpill.LeavesIff` | kimp_arb_cpp/src/core/latency_probe.cpp:540-566 | with every publish completed the exporter leaves at the head of its loop exactly when it was stopped and every queue is empty |
| `EventSpill.CollectsUntilFull` | kimp_arb_cpp/src/core/latency_probe.cpp:548-554 | a popped event goes into the batch, and the exporter goes on popping exactly until the batch is full |
| `EventSpill.BatchBounded` | kimp_arb_cpp/src/core/latency_probe.cpp:548-554 | on every run a batch never holds more than its limit |
| `PublishEnds.PublishEndsAlone` | kimp_arb_cpp/src/core/latency_probe.cpp:457-475 | from every state of the invariant a publish in progress that does not wait for the registration mutex is completed within twenty steps of its own thread |
| `ExporterDrains.StopExportsAll` | kimp_arb_cpp/src/core/latency_probe.cpp:540-566 | after any run, once every publish is completed and unless the exporter has left, a stop lets the exporter go on alone to its exit, and then every recorded event is written out once, queue by queue and in order, or was dropped |
| `PendingCounter.PendingBelowZero` | kimp_arb_cpp/src/core/latency_probe.cpp:457-475 | a run on which the pending counter is -1 |
| `Orders.Resolved` | kimp_arb_cpp/src/execution/order_manager.cpp:259-268 | the quantity and the price that the bot resolves from an order are what a venue that reports truly executed and was paid |
| `Orders.MatchIsRelative` | kimp_arb_cpp/src/execution/order_manager.cpp:270-276 | the quotient test is abs(l - r) <= 5e-5 * max(abs(l), abs(r)), also when both are zero |
| `HedgeDrift.StepAccounts` | kimp_arb_cpp/src/execution/order_manager.cpp:611-1222 | while fills are reported truly, each iteration either books what both venues really executed within its slack, or halts with a snapshot that is the tracked holding adjusted by what the failed split executed, clamped at 0 on exits |
| `HedgeDrift.RunDrift` | kimp_arb_cpp/src/execution/order_manager.cpp:500-1238 | at every loop head of every run the coins that both venues really hold are within 5e-5 times the quantity traded, plus what unqueried orders moved unseen, of the tracked holding and of each other; a halted run reports both within that bound, clamped at 0 exactly when it was an exit that failed |
| `HedgeDrift.ResumedDrift` | kimp_arb_cpp/src/execution/order_manager.cpp:432-437 | the same from a resumed position that passes the initial match test |
| `HedgeDrift.EntryCorrection` | kimp_arb_cpp/src/execution/order_manager.cpp:717-785 | a correction of unequal opening fills asks for exactly the difference: executed as asked, both venues moved exactly by what is booked |
| `HedgeDrift.ExitCorrection` | kimp_arb_cpp/src/execution/order_manager.cpp:992-1052 | the same for unequal closing fills |
| `RelayDecision.Decides` | kimp_arb_cpp/src/execution/order_manager.cpp:556-611 | an iteration opens with a short exactly when the quotes leave 600 won at the default fees, both best levels hold the order and the order is worth 1 USD and 5000 won; with a cover exactly when not, coins are held and the exit premium is at least 0.25 % and 0.34 % above the entry's; and otherwise does nothing |
| `RelayDecision.StepAsks` | kimp_arb_cpp/src/execution/order_manager.cpp:902-914 | the short asks for min(35 USD, what is left of the position size) at the bid; the cover for the whole holding while it is worth less than 50 USD at the ask and for exactly 35 USD worth otherwise |
| `RelayDecision.RunExact` | kimp_arb_cpp/src/execution/order_manager.cpp:500-1238 | over every run in which filled orders are acknowledged and executed as asked, corrections, rollbacks and retries included, both venues move exactly with the tracked holding, and a halt reports exactly what they hold |
| `HedgePnl.StepConserves` | kimp_arb_cpp/src/execution/order_manager.cpp:617-1198 | when an iteration moved both venues alike, the profit it books is the won really received plus the dollars really received at its rate plus the change in the carried costs, less only a rolled-back round trip and an overshoot written off at the reset |
| `HedgePnl.RunConserves` | kimp_arb_cpp/src/execution/order_manager.cpp:500-1238 | the same law over whole runs, across completed cycles |
| `HedgePnl.StepWithin` | kimp_arb_cpp/src/execution/order_manager.cpp:617-1198 | whatever its legs, an iteration departs from that law by at most the difference of its two legs times the sum of the prices at which it can go unbooked |
| `HedgePnl.RunConservesWithin` | kimp_arb_cpp/src/execution/order_manager.cpp:500-1238 | on every run that the tolerance admits, the booked profit differs from the won and converted dollars received, with the open position at cost and the same residues, by at most the drift bound (5e-5 of the traded quantity plus what unqueried orders moved unseen) times a cap on those prices |
| `HedgePnl.ConstantRate` | kimp_arb_cpp/src/execution/order_manager.cpp:500-1238 | at a constant rate the converted dollars of a run telescope |
| `HedgePnl.PartialExitKeepsAverages` | kimp_arb_cpp/src/execution/order_manager.cpp:1088-1091 | a proportional exit keeps both average entry prices |
| `HaltReport.HaltSettledIff` | kimp_arb_cpp/src/execution/order_manager.cpp:650-1222 | the profit that a critical stop saves, with both holdings at the cost at which they would be resumed, accounts for all the money that moved if and only if the stop was in an entry, or in an exit whose correction was filled or whose closed legs gained nothing; for stops in which no order moved anything unseen or took out more than was there |
| `HaltReport.ExitReported` | kimp_arb_cpp/src/execution/order_manager.cpp:992-1222 | a stop in an exit keeps both average prices and reports both holdings; it books the gain of what it closed exactly when the correction was filled, and nothing otherwise |
| `HaltReport.FailedCorrectionForgets` | kimp_arb_cpp/src/execution/order_manager.cpp:992-1012 | an exit that sold half a coin at a gain of 251.5 won and whose correction failed, saved without that gain |
| `HedgePnl.ResumeSaved` | kimp_arb_cpp/src/execution/order_manager.cpp:424-429 | a saved ledger resumes unchanged if and only if coins are held or no cost is carried |
| `HedgePnl.StepSavesLedger` | kimp_arb_cpp/src/execution/order_manager.cpp:852-865 | whatever an iteration saves while coins are held resumes as the ledger the loop goes on with |
| `HedgePnl.MismatchCarriesFills` | kimp_arb_cpp/src/execution/order_manager.cpp:796-805 | the file of a mismatched entry carries both unequal fills at cost |
| `PositionFile.MismatchResumes` | kimp_arb_cpp/src/execution/order_manager.cpp:432-437 | a lifecycle begins from such a file, with both fills at cost, if and only if the totals match within the tolerance, and refuses it otherwise |
| `PositionFile.StepKeepsFile` | kimp_arb_cpp/src/execution/order_manager.cpp:1107-1198 | from a current file and a holding that is not negative, the file is current after an iteration if and only if it was not a filled retry of the sell that took coins out and no completed cycle closed more than was held |
| `PositionFile.FileIsCurrentIff` | kimp_arb_cpp/src/execution/order_manager.cpp:500-1238 | at every loop head of every run that begins from the file, a restart from it has the loop's ledger if and only if since the last faithful save or clearing there was no such retried sale, no cycle closed beyond the holding, and no save of a holding at or below zero that carries costs |
| `PositionFile.RetriedSaleFileIsStale` | kimp_arb_cpp/src/execution/order_manager.cpp:1170-1198 | a run on which a retried sale leaves the file as it was, so that a restart would have another ledger |
| `PositionFile.OverClosedFileIsStale` | kimp_arb_cpp/src/execution/order_manager.cpp:1107-1160 | a run on which a completed cycle clears the file while the loop goes on at a holding of -2 |
| `ExitProfit.ExitGains` | kimp_arb_cpp/src/execution/order_manager.cpp:593-600 | with open shorts, an exit at the quotes gains exactly when exit_pm * cover > entry_pm * avg_foreign, and always when the entry premium is not positive |
| `ExitProfit.EntersAtDiscount` | kimp_arb_cpp/src/execution/order_manager.cpp:606-610 | the entry gate admits only prices below the foreign price in won |
| `ExitProfit.DiscountIsEntryPremium` | kimp_arb_cpp/src/execution/order_manager.cpp:445-456 | while coins are held, being carried below the shorts is a negative effective entry premium |
| `ExitProfit.ReduceKeepsDiscount` | kimp_arb_cpp/src/execution/order_manager.cpp:1187-1190 | taking coins out keeps the discount if and only if no more is taken out than is held, or nothing is carried |
| `ExitProfit.RunGains` | kimp_arb_cpp/src/execution/order_manager.cpp:593-1198 | at a constant rate, with fills at the quotes, the holding stays at a discount at every loop head if and only if no retried exit takes out more than is held, and then every exit split of the run gains |
| `ExitProfit.RetriedOvershootLoses` | kimp_arb_cpp/src/execution/order_manager.cpp:1170-1198 | a run at a constant rate, all fills at the quotes, from a discounted ledger, on which a retried exit overshoots and a later exit loses |
| `ExposureCap.RunCapped` | kimp_arb_cpp/src/execution/order_manager.cpp:570-576 | the open notional stays between 0 and the position size on every run in which shorts fill no more than asked and at no more than the bid |
| `OrderManager.OrderManager.CriticalStop` | kimp_arb_cpp/src/execution/order_manager.cpp:487-498 | a stop clears the running flag, suppresses entries and persists the snapshot if it is active |
| `OrderManager.OrderManager.RetrySell` | kimp_arb_cpp/src/execution/order_manager.cpp:1170-1198 | the retry loop submits sells up to and including the first filled one, at most five |
| `OrderManager.OrderManager.EntrySplit` | kimp_arb_cpp/src/execution/order_manager.cpp:611-900 | the entry branch, in place, does what the value model does: same orders, ledger, position file and stop |
| `OrderManager.OrderManager.ExitSplit` | kimp_arb_cpp/src/execution/order_manager.cpp:902-1222 | the same for the exit branch |
| `OrderManager.OrderManager.Execute` | kimp_arb_cpp/src/execution/order_manager.cpp:500-1256 | the whole lifecycle submits, books, saves, banks and returns what the run of the value model does, and submits nothing when the flag is already cleared |
| `OrderManager.OrderManager.RunTask` | kimp_arb_cpp/src/main.cpp:63-76 | the loop guard lifts the suppression even after a critical stop, yet no later task submits an order |
| `CriticalStop.StopIsTerminal` | kimp_arb_cpp/src/execution/order_manager.cpp:487-500 | with lifecycles running at the same time: after a stop the flag stays cleared, only iterations already in progress finish, each once, and with none in progress nothing is ever submitted again |
| `CriticalStop.HaltIsTerminal` | kimp_arb_cpp/src/execution/order_manager.cpp:487-500 | a halted iteration anywhere in a run clears the flag for good, and of everything that follows only the iterations in progress at that moment finish |
| `CriticalStop.ClearedIffHalted` | kimp_arb_cpp/src/execution/order_manager.cpp:487-500 | the flag stays set exactly until some iteration of some lifecycle halts |
| `CriticalStop.LoopRefines` | kimp_arb_cpp/src/execution/order_manager.cpp:500-1238 | however lifecycles interleave, each submits exactly the orders of a run of its own over the iterations that it ends, and has the ledger of that run |
| `CriticalStop.AloneRefines` | kimp_arb_cpp/src/execution/order_manager.cpp:500-1238 | a lifecycle that runs alone from a set flag runs all its iterations and clears the flag exactly if one halts |
| `LotSize.OpenedQtyCloses` | kimp_arb_cpp/src/exchange/bybit.cpp:586-652 | a positive opened quantity is a fixed point of close rounding |
| `LotSize.RoundDownBounds` | kimp_arb_cpp/src/exchange/bybit.cpp:603-609 | opening loses less than a step and gains less than two epsilons of one |
| `LotSize.CloseQtyBounds` | kimp_arb_cpp/src/exchange/bybit.cpp:629-652 | closing covers what was asked up to two epsilons of a step, and at most one step or the minimum quantity more than is held |
| `LotSize.RoundDownIff` | kimp_arb_cpp/src/exchange/bybit.cpp:603-609 | an opening is rounded to n steps exactly when it lies, raised by the epsilon, from n steps up to the next |
| `LotSize.RoundUpIff` | kimp_arb_cpp/src/exchange/bybit.cpp:640-646 | a closing is rounded to n steps exactly when it lies, lowered by the epsilon, above n - 1 steps and not above n |
| `LotSize.OpenQtyIff` | kimp_arb_cpp/src/exchange/bybit.cpp:586-627 | an opening vanishes exactly when nothing is asked, or what is left after rounding is nothing, below the minimum quantity or, at a known price, below the minimum notional |
| `LotSize.CloseQtyIs` | kimp_arb_cpp/src/exchange/bybit.cpp:629-652 | a closing is what is asked rounded up, and at least the minimum quantity |
| `LotSize.RollbackIsExact` | kimp_arb_cpp/src/exchange/bybit.cpp:586-652 | a short and its rollback that fill as acknowledged cancel exactly and leave nothing unseen |
| `LotSize.ExitOvershoot` | kimp_arb_cpp/src/execution/order_manager.cpp:908-934 | an exit whose cover fills as rounded never takes the holding below -max(step, min_qty), or below what a sell that fills more leaves |
| `LotSize.ExitTakesAtMostFills` | kimp_arb_cpp/src/execution/order_manager.cpp:1054-1091 | no exit split books more than the larger of its two first fills, whatever the correction filled |
| `LotSize.TooSmallMeansShrunk` | kimp_arb_cpp/src/execution/order_manager.cpp:458-466 | the rollback below 5000 KRW is reached only if the acknowledged short is smaller than what was asked |
| `RelayMetrics.GateMeansTarget` | kimp_arb_cpp/include/kimp/strategy/arbitrage_engine.hpp:786-839 | for nonnegative fees, passing the gate forces a negative entry premium and match_qty >= target_coin_qty, so exactly 35 USDT are priced |
| `RelayMetrics.ProfitAntitone` | kimp_arb_cpp/include/kimp/strategy/arbitrage_engine.hpp:816-836 | net profit is antitone in every fee, for all quotes |
| `RelayMetrics.FreeOfFees` | kimp_arb_cpp/include/kimp/strategy/arbitrage_engine.hpp:811-831 | without fees the net profit is what the largest executable size, at most 35 USDT, sells for less what it costs in won |
| `RelayMetrics.FeeSensitivity` | kimp_arb_cpp/include/kimp/strategy/arbitrage_engine.hpp:816-831 | raising the fees lowers the profit by exactly the rise of the Korean rate times the won paid, three times the rise of the foreign rate times the won received, and the coins withdrawn times the ask |
| `RelayMetrics.EdgesInPercent` | kimp_arb_cpp/include/kimp/strategy/arbitrage_engine.hpp:828-836 | net and gross edge are the profits in percent of what is laid out for them |
| `RelayMetrics.BooksReported` | kimp_arb_cpp/include/kimp/strategy/arbitrage_engine.hpp:800-809 | the matched size is the largest that both best levels hold, the target size is worth 35 USDT, and both top values are what the levels are worth |
| `RelayMetrics.GateIff` | kimp_arb_cpp/include/kimp/strategy/arbitrage_engine.hpp:786-839 | for nonnegative fees the gate is open if and only if everything is quoted, both best levels are worth 35 USDT and the net profit is at least 600 won |
| `RelayMetrics.AcceptsIff` | kimp_arb_cpp/src/execution/order_manager.cpp:573-611 | the executor's checks hold if and only if everything is quoted, the default fees leave 600 won and both best levels are worth the order |
| `RelayMetrics.PositiveProfitMeansPositiveEdge` | kimp_arb_cpp/include/kimp/strategy/arbitrage_engine.hpp:828-836 | net profit is positive exactly when the net edge is |
| `RelayMetrics.EngineImpliesExecutor` | kimp_arb_cpp/src/execution/order_manager.cpp:573-590 | what the engine qualifies for any venues and withdrawal fee passes the executor's profit, edge and depth checks on the same quotes, for every order size up to 35 USD; its minimum split size is a separate test |
| `PairChoice.BestPair` | kimp_arb_cpp/src/strategy/arbitrage_engine.cpp:563-598 | the chosen pair is usable and no usable pair beats it on net profit, then net edge; none is chosen exactly when none beats the sentinel |
| `PairChoice.PairProfit` | kimp_arb_cpp/src/strategy/arbitrage_engine.cpp:563-598 | what a pair earns: the largest executable size sold less 3 times 0.1 %, less its cost with 0.04 % or, at Upbit, 0.05 %, less the coins withdrawn at the ask |
| `PairChoice.QualifiesIffDeep` | kimp_arb_cpp/src/strategy/arbitrage_engine.cpp:604-632 | when some usable pair passes the gate, a pair is chosen, and, its withdrawal fee not being negative, the symbol qualifies if and only if the books of the chosen pair can fill the target |
| `PairChoice.ThinBookHidesPair` | kimp_arb_cpp/src/strategy/arbitrage_engine.cpp:604-632 | a thin book with the larger profit hides a pair that would pass the gate |
| `AtomicBitset.ChangedBit` | kimp_arb_cpp/include/kimp/memory/atomic_bitset.hpp:26-36 | setting or clearing by mask changes that bit of the word and no other |
| `AtomicBitset.Bitset.Set` | kimp_arb_cpp/include/kimp/memory/atomic_bitset.hpp:21-37 | exactly the given bit changes; an index out of range changes nothing |
| `AtomicBitset.Bitset.Test` | kimp_arb_cpp/include/kimp/memory/atomic_bitset.hpp:39-47 | membership, false out of range |
| `AtomicBitset.Bitset.CountSet` | kimp_arb_cpp/include/kimp/memory/atomic_bitset.hpp:55-71 | the number of set indices below the clamped limit |
| `AtomicBitset.Bitset.ForEachSet` | kimp_arb_cpp/include/kimp/memory/atomic_bitset.hpp:73-92 | visits exactly the listing of the set indices below the clamped limit |
| `Listing.ChosenMembers` | kimp_arb_cpp/include/kimp/memory/atomic_bitset.hpp:73-92 | that listing holds each set index below the limit and nothing else |
| `Listing.ChosenAscending` | kimp_arb_cpp/include/kimp/memory/atomic_bitset.hpp:73-92 | it is strictly ascending, so each index comes once |
| `Listing.ChosenCardinality` | kimp_arb_cpp/include/kimp/memory/atomic_bitset.hpp:55-71 | its length is the cardinality of the set |
| `EntrySelection.SortByPremium` | kimp_arb_cpp/include/kimp/strategy/entry_selection_bitmap.hpp:81-84 | a permutation in order of premium |
| `EntrySelection.Select` | kimp_arb_cpp/include/kimp/strategy/entry_selection_bitmap.hpp:26-96 | qualified partial positions first, then exactly min(free slots, fresh candidates) fresh ones, best first, none better left out, no duplicates, no dropped push, used slots never past max(max_positions, used) |
| `EntryCache.Cache.Update` | kimp_arb_cpp/src/strategy/arbitrage_engine.cpp:532-654 | keeps candidate bit = qualified and not fired, fired bit = fired, fired implies qualified, and fired = a fresh signal since the last disqualification |
| `EntryCache.Cache.Fire` | kimp_arb_cpp/src/strategy/arbitrage_engine.cpp:662-752 | signals exactly the selected symbols, so in serialised runs the two re-checks never skip one, and keeps the same invariant |
| `EntryCache.DisqualifiedBetween` | kimp_arb_cpp/src/strategy/arbitrage_engine.cpp:646-653 | between two fresh signals of one symbol there is an update at which it did not qualify |
| `ChainNames.AliasIsLookup` | kimp_arb_cpp/include/kimp/strategy/arbitrage_engine.hpp:158-186 | each of the 21 names of the alias table maps to its canonical name, and every other name to itself |
| `ChainNames.NormalizeIdempotent` | kimp_arb_cpp/include/kimp/strategy/arbitrage_engine.hpp:149-187 | normalising twice is normalising once, for every string |
| `ChainNames.CleanJoins` | kimp_arb_cpp/include/kimp/strategy/arbitrage_engine.hpp:149-157 | cleaning works character by character, so letters and digits keep their order |
| `ChainNames.CleanOne` | kimp_arb_cpp/include/kimp/strategy/arbitrage_engine.hpp:149-157 | a capital or a digit stays, a small letter becomes its capital, anything else goes |
| `ChainNames.CaseBlind` | kimp_arb_cpp/include/kimp/strategy/arbitrage_engine.hpp:149-187 | names that differ only in case have one normal form |
| `ChainNames.OtherCharacterBlind` | kimp_arb_cpp/include/kimp/strategy/arbitrage_engine.hpp:149-187 | so have names that differ in a character that is no letter or digit |
| `ChainNames.NormalizeChain` | kimp_arb_cpp/include/kimp/strategy/arbitrage_engine.hpp:149-187 | the character loop and table lookup compute that normal form |
| `TransferRoutes.FeeKeyInjective` | kimp_arb_cpp/include/kimp/strategy/arbitrage_engine.hpp:135-145 | keys determine both venues and the coin, whatever the coin name holds |
| `TransferRoutes.FeeKeyForm` | kimp_arb_cpp/include/kimp/strategy/arbitrage_engine.hpp:135-145 | the key is the digits of the Korean and the foreign venue and the coin, with colons between them |
| `TransferRoutes.DoubleNormalisation` | kimp_arb_cpp/include/kimp/strategy/arbitrage_engine.hpp:271-289 | names normalised before they are stored are stored like raw ones |
| `TransferRoutes.ComputeRoute` | kimp_arb_cpp/include/kimp/strategy/arbitrage_engine.hpp:419-473 | available exactly when withdrawals are not suspended and a network is shared below the sentinel; then the fee is the least over the shared networks, attained by the reported one; each side's openness as the data say |
| `TransferRoutes.AnswerUnique` | kimp_arb_cpp/include/kimp/strategy/arbitrage_engine.hpp:459-472 | that answer is unique |
| `TransferRoutes.PutChangesOne` | kimp_arb_cpp/include/kimp/strategy/arbitrage_engine.hpp:271-289 | storing under a venue and a coin changes that entry and no other |
| `TransferRoutes.PriceCache.SetWithdrawNetworkFees` | kimp_arb_cpp/include/kimp/strategy/arbitrage_engine.hpp:275-280 | stores the normalised fees under venue and coin |
| `TransferRoutes.PriceCache.SetForeignDepositNetworks` | kimp_arb_cpp/include/kimp/strategy/arbitrage_engine.hpp:283-289 | stores the normalised networks under venue and coin |
| `TransferRoutes.PriceCache.FinalizeWithdrawFees` | kimp_arb_cpp/include/kimp/strategy/arbitrage_engine.hpp:342-388 | afterwards every lookup, for every venue pair and coin, listed or not, agrees with the direct computation; exactly the venues and coins that the data mention have a record, and exactly the available routes a fee |
| `TransferRoutes.PriceCache.GetWithdrawFee` | kimp_arb_cpp/include/kimp/strategy/arbitrage_engine.hpp:313-320 | on a published snapshot: the least shared fee, or 0 without a route |
| `TransferRoutes.PriceCache.IsTransferRouteAvailable` | kimp_arb_cpp/include/kimp/strategy/arbitrage_engine.hpp:322-328 | on a published snapshot: whether a route is open |
| `BestQuotes.FoldBySymbol` | kimp_arb_cpp/src/exchange/bithumb.cpp:1212-1231 | each live book is the result of its own updates however they are interleaved; other books stay |
| `BestQuotes.LevelIsLastUpdate` | kimp_arb_cpp/src/exchange/bithumb.cpp:1220-1231 | after a message every level of every live book has the quantity of the last update of that symbol, side and price, is absent if that is not positive, and is as before if there is none |
| `BestQuotes.Feed.UpdateBest` | kimp_arb_cpp/src/exchange/bithumb.cpp:1319-1344 | a live symbol with an entry gets the best level of both sides, 0 for an empty side; every other entry stays |
| `BestQuotes.Feed.DepthMessage` | kimp_arb_cpp/src/exchange/bithumb.cpp:1206-1250 | after any message every level of every initialised book is what its last update says, the other books are unchanged, every touched symbol with an entry has the best level of its book, other quotes are unchanged, and exactly the touched initialised symbols are returned |
| `BestQuotes.BestUnique` | kimp_arb_cpp/src/exchange/bithumb.cpp:1330-1343 | a book has one pair of best quotes |

## Left out

- Memory orderings, cache lines, spinning, sleeping and waiting on condition variables.
- The concurrent components (queues, hand-off, executor, probe, overlapping lifecycles) are modelled on values, one step function per component, not as classes: a class method cannot be interrupted between two accesses.
- Wrap-around of ring positions and of the 64-bit counters.
- LatencyProbe.Conservation: covers one start/stop generation, and lets the exporter visit registered lanes in any order, which includes its round robin.
- ExporterDrains.StopExportsAll: shows one order of visits, non-empty queues first; round robin visits empty queues in between.
- LifecycleExecutor.SlotConservation: does not model the manual-confirmation mode or the suppression flag beside the counter.
- HedgeDrift.RunDrift: the timeout of the trading WebSocket followed by a REST order is not modelled; an order that timed out may have executed, which the assumption on reports excludes.
- ExitProfit.RunGains: exact for the discount over the run; whether one exit gains after an overshoot is decided by the condition of ExitProfit.ExitGains for that exit.
- EntryCache.Cache.Update: takes the outcome of the gate as an argument; quote freshness and the position tracker are not modelled.
- LotSize.RollbackIsExact: Bybit rounding only; OKX sizes closes by quote notional.
- ExposureCap.RunCapped: assumes shorts that fill no more than asked at no more than the bid; the source adds whatever was filled.
- BestQuotes.Feed.DepthMessage: starts from the parsed list of updates; both parsers run the same loop over it.
- The separate exit lifecycle (`execute_spot_relay_exit`), which repeats the same splits from a given position.
- Entry premium and time stamps of positions, trade logs, the position tracker and the connection pool.
- The vectorised premium code, which over the reals is the scalar formula.
- REST and WebSocket transport, authentication, JSON parsing, configuration, dashboard and console.
