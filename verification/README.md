# AlNiCo in Dafny

A model of the parts of AlNiCo where correctness is least obvious, with proofs of what they keep.

- **Transactional queue** (`Fifo`, `Ring`, `TransQueue`, `QueueObject`): the ring buffer whose pushes and pops are
  buffered in a transaction and installed at commit. Buffered calls are separate steps; locking, checking and installing
  are one step; a run is any interleaving of any number of transactions.
- **On-NIC scheduler** (`Weights`, `Scoring`, `Pipeline`, `Choices`, `Counters`, `Flow`, `Dispatch`, `Progress`,
  `Rings`, `Boot`, `SchedulerObject`): the five stages of the dataflow, joined by FIFO streams, as a state machine
  together with the clients' slots and the workers. Bitmap refreshes, weight reloads, posts and worker reads may fall
  between any two stages. `Choices` says which core every pick of every run dispatches, `Flow` follows a request to its
  doorbell and its count, `Progress` says that posts get through. `SchedulerObject` makes the start-up state and holds
  the stages as methods over arrays, each proved to be the step of the state machine.
- **TPC-C** (`Sums`, `Stock`, `Tpcc`, `TpccOrders`, `TpccLedger`, `TpccYtd`, `TpccRuns`, `TpccOnce`, `TpccStock`,
  `TpccEffects`, `TpccDraws`, `TpccLoad`, `TpccLoader`, `TpccRunner`, `TpccTheorems`, `NicKeys`): new-order, payment and
  delivery as atomic steps over maps of rows, row by row what each does and which ids it draws, the loading loops, and
  the transactions as they run with buffered writes.
- **Hash index on the heap** (`HashKeys`, `HashIndex`, `HashTable`, `IndexHeap`): one bucket's linked list, the table of
  buckets with a map as its specification, and the index whose lists, bucket versions and rows are those of the
  transactions' state machine after every step.
- **Hash index transactions** (`IndexCalls`, `IndexOcc`, `IndexInv`, `IndexSteps`, `IndexCallSteps`, `IndexInsertSteps`,
  `IndexLockSteps`, `IndexCheckSteps`, `IndexCommitSteps`, `IndexRuns`, `IndexMoves`, `IndexTheorems`, `IndexEffects`,
  `IndexSolo`, `IndexWitness`): a state machine in which every call, and at commit or abort every lock, check, install, cleanup and unlock of one item,
  is a step of its own. Elements carry the lock's owner, items the needs-unlock flag. `IndexInv` is the invariant, the
  `Steps` modules show that each step keeps it, `IndexTheorems` draws the conclusions, `IndexEffects` ties logs and
  committed rows to the calls that were made, and `IndexSolo` says when transactions get through.
- **Ordered index** (`Bytes`, `Scan`, `LastOrder`): byte order of keys, the range scanner and the last-order lookup built
  on it.

`Options` and `Division` hold what several modules share.

Conventions. Integers are unbounded; every width that matters is written out (8-bit counters and weights, the 16-bit
score, the 32-bit ring index and delivery sum, 32- and 64-bit packed keys). Random choices of the loader are
nondeterministic; which reads and checks of an attempt fail is a parameter of the attempt. Versions follow one contract: an install moves the version
of what it writes to a new value, and a check passes only when the version is the one observed and not locked by another
transaction. In the index the serial order of the theorems is the order in which transactions come to hold all their
locks. The model numbers these moments (a transaction's ticket, called its commit number below) and lets the number stand
for the versions it installs, of which only equality is ever asked. The source draws its own transaction number later, at
install, or just takes a version's next value; the order of those numbers is not claimed to be the serial one.

Where the code does not do what its comments or assertions suggest, the code is modelled and the exact condition proved:

- The room assertion in the queue's install computes `head - 1` in 32 bits before reducing it, which is wrong at head 0
  unless the ring size divides 2^32 (`Ring.FullTestExact`).
- The Gray-code walk stops at mask 127, so a group of eight features scores nothing once its eighth feature is held
  (`Scoring.EighthFeatureLost`; exact conditions in `Scoring.EntryExact` and `Scoring.ScoreExact`).
- With an odd client count the two poll lanes leave a slot unpolled (`Boot.SplitCovers`).
- Two lines of one new order that name the same stock row leave only the later sale (`TpccStock.SalesExact`).
- The index does not show a transaction its own updates and deletes, so it is not always answered as a plain map answers
  (`IndexWitness.OwnUpdateUnseen`), and an update of a row the transaction inserted itself is not installed
  (`IndexWitness.OwnUpdateDropped`). `IndexTheorems.Serializable` and `IndexTheorems.SerialExactly` say exactly when
  answers and rows are those of a plain map.

## Model

| member | source | states |
|---|---|---|
| TransQueue.Serializable | AlNiCo_Server/sto/datatype/Queue.hh:77-254 | for every interleaving of buffered calls, aborts and commits, the answers of the committed transactions and the final ring contents are those of a plain FIFO queue running the committed transactions one after another in commit order |
| TransQueue.OwnOperations | AlNiCo_Server/sto/datatype/Queue.hh:54-180 | any sequence of push, pop and front calls in one transaction is answered as a plain FIFO answers it, passes its checks if nobody else commits, and installs exactly that FIFO's contents |
| TransQueue.CommitInstalls | AlNiCo_Server/sto/datatype/Queue.hh:221-254 | a transaction whose log is faithful to the ring leaves the contents without its popped values and with its pending pushes appended, which is its log run on the contents |
| TransQueue.CommitKeepsOther | AlNiCo_Server/sto/datatype/Queue.hh:208-254 | a commit leaves every other transaction either faithful to the new contents or certain to fail its head or tail check |
| TransQueue.PopKeeps | AlNiCo_Server/sto/datatype/Queue.hh:77-129 | a pop keeps the delete-marked slots the oldest ones, records the head when it takes a shared value and the tail when it answers "empty" |
| TransQueue.FrontKeeps | AlNiCo_Server/sto/datatype/Queue.hh:131-180 | a front call keeps the invariant and records the head for a shared value, the tail for an own one or none |
| TransQueue.AnswersAreFifo | AlNiCo_Server/sto/datatype/Queue.hh:77-180 | as long as the transaction would pass its checks, front returns the first value of a plain queue that starts with the committed contents and saw all its calls, or nothing when that queue is empty, and pop says whether there was one |
| TransQueue.AnswersInRuns | AlNiCo_Server/sto/datatype/Queue.hh:54-180 | the same in every run, stated over the calls issued to the transaction, not over its own log |
| TransQueue.LogIsIssued | AlNiCo_Server/sto/datatype/Queue.hh:54-180 | in every run the log of an open transaction holds exactly the calls issued to it, in order |
| TransQueue.RoomExact | AlNiCo_Server/sto/datatype/Queue.hh:236-243 | a transaction that passes its checks has room if and only if the contents it would leave fit the ring |
| TransQueue.AloneCommits | AlNiCo_Server/sto/datatype/Queue.hh:54-254 | in any state, begin, any calls and commit with nobody in between leave the contents of a plain queue after those calls, unless these do not fit |
| TransQueue.AbortLeavesNothing | AlNiCo_Server/sto/datatype/Queue.hh:54-180 | begin, any calls and abort leave the system as it was |
| Fifo.OverlayIsFifo | AlNiCo_Server/sto/datatype/Queue.hh:54-180 | the overlay of taken shared values and own pending values answers as a FIFO queue does, both ways |
| Fifo.OverlaySurvivesPushes | AlNiCo_Server/sto/datatype/Queue.hh:95-122 | pushes committed by others change no answer of a transaction that never saw the tail |
| Ring.ContentsAfter | AlNiCo_Server/sto/datatype/Queue.hh:221-254 | moving the head k slots and storing p from the tail on, with wrap-around, gives the contents without the first k and with p appended |
| Ring.FullTestExact | AlNiCo_Server/sto/datatype/Queue.hh:236-243 | the 32-bit room test agrees with "full" for every tail if and only if the head is not 0 or the size divides 2^32 |
| Ring.FullTestMissesDefaultRing | AlNiCo_Server/sto/datatype/Queue.hh:236-243 | with the default size of 1000000 and head 0 the test misses the full ring and flags another |
| QueueObject.Queue.NontransPush | AlNiCo_Server/sto/datatype/Queue.hh:22-26 | appends one value to the contents |
| QueueObject.Queue.NontransPop | AlNiCo_Server/sto/datatype/Queue.hh:28-33 | removes and returns the oldest value |
| QueueObject.Queue.NontransClear | AlNiCo_Server/sto/datatype/Queue.hh:48-51 | empties the contents |
| QueueObject.Queue.TransPush | AlNiCo_Server/sto/datatype/Queue.hh:54-75 | the transaction's items after a buffered push, the ring untouched |
| QueueObject.Queue.TransPop | AlNiCo_Server/sto/datatype/Queue.hh:77-129 | the items after a buffered pop, with the walk over deleted slots; while the checks would pass the answer is a plain queue's that saw all calls so far |
| QueueObject.Queue.TransFront | AlNiCo_Server/sto/datatype/Queue.hh:131-180 | the items after a front call; while the checks would pass the answer is the first value of a plain queue that saw all calls so far, or none |
| QueueObject.Queue.InstallPops | AlNiCo_Server/sto/datatype/Queue.hh:221-231 | the head moves past every slot the transaction deleted, and the head version moves if there was one |
| QueueObject.Queue.InstallPushes | AlNiCo_Server/sto/datatype/Queue.hh:232-254 | the pending values go to the slots from the old tail on, in order, and the tail version moves if there was one |
| QueueObject.Queue.Commit | AlNiCo_Server/sto/datatype/Queue.hh:199-254 | installs exactly when both observed versions are unchanged, and changes nothing otherwise |
| Weights.EachMaskOnce | Innova2/scheduler/tx_scheduler.cpp:66-140 | every mask 1..127 is visited by exactly one step of the walk |
| Weights.GraySteps | Innova2/scheduler/tx_scheduler.cpp:66-140 | each step flips exactly one of the low seven bits |
| Weights.FlipChangesSum | Innova2/scheduler/tx_scheduler.cpp:66-140 | flipping a bit changes the direct sum by that bit's weight, up or down |
| Weights.InitWeight | Innova2/scheduler/tx_scheduler.cpp:45-148 | the loops leave every entry below 128 equal to the sum of the weights of its set bits modulo 256 and every other entry as it was |
| Weights.WalkStep | Innova2/scheduler/tx_scheduler.cpp:66-140 | one step of the walk fills one more mask of every group and keeps the running value |
| Scoring.EntryMeaning | Innova2/scheduler/tx_scheduler.cpp:252-261 | a group contributes the weight of its held features modulo 256, and 0 when its eighth feature is held |
| Scoring.EntryExact | Innova2/scheduler/tx_scheduler.cpp:61-140 | the contribution never exceeds the true weight, and is it if and only if that weight is below 256 and is 0 whenever the eighth feature is held |
| Scoring.EighthFeatureLost | Innova2/scheduler/tx_scheduler.cpp:61-140 | a group whose eighth feature weighs 5 and is the only one held contributes 0 |
| Scoring.ScoreExact | Innova2/scheduler/tx_scheduler.cpp:252-261 | the 64-term score never exceeds the true weight of the held features, and is it if and only if every group contributes exactly |
| Scoring.ScoreFits | Innova2/scheduler/tx_scheduler.cpp:252-261 | the 64-term score is at most 16320, so 16 bits hold it |
| Scoring.ScoreMeaning | Innova2/scheduler/tx_scheduler.cpp:150-280 | for any weights, partition and counters, the score against the bitmap they give is the weight of exactly the requested features that are pinned to the core, or shared and non-zero in its counters |
| Scoring.ChooseIsFirstBest | Innova2/scheduler/tx_scheduler.cpp:237-280 | the running choice is the lowest-numbered core of maximal score when some score is positive, and the hint otherwise; both ways |
| Scoring.ChooseCore | Innova2/scheduler/tx_scheduler.cpp:237-280 | the loops return that core |
| Scoring.RefreshBitmaps | Innova2/scheduler/tx_scheduler.cpp:150-173 | every used core's bitmap becomes the features credited to it, the spare rows stay |
| Pipeline.NextKeepsShape | Innova2/scheduler/no_dma.cpp:57-87 | every action keeps array sizes, slot ranges of both lanes, core numbers in range and table entries in 8 bits |
| Pipeline.ChosenCoreInRange | Innova2/scheduler/tx_scheduler.cpp:282-310 | a dispatched core number is below the number of cores |
| Pipeline.BootWorldIsBooted | Innova2/scheduler/utils.h:123-136 | the start-up state meets the conditions that the runs start from |
| Pipeline.PassIsRun | Innova2/scheduler/no_dma.cpp:57-87 | one pass of the dataflow is the run of the two polls, the pick, the doorbell and the count |
| Choices.UpperStaysZero | Innova2/scheduler/tx_scheduler.cpp:45-148 | in every run from start-up the table entries of masks from 128 on are 0 |
| Choices.TableSinceReload | Innova2/scheduler/tx_scheduler.cpp:45-148 | table and partition are those of the last reload that took effect, whatever happened since |
| Choices.MapsSinceRefresh | Innova2/scheduler/tx_scheduler.cpp:150-173 | the bitmaps are those of the partition and the counters in the state the last refresh saw, whatever happened since |
| Choices.PickDispatches | Innova2/scheduler/tx_scheduler.cpp:237-310 | in every run after a reload and a refresh a pick queues one doorbell and one update, both for the lowest-numbered core with the largest positive weight of requested features, by the last reload's weights and the partition and counters of the last refresh, or for the client's hint when no core has a positive weight |
| Choices.PickBeforeReload | Innova2/scheduler/tx_scheduler.cpp:237-310 | until weights are loaded every pick goes to the hint |
| Choices.PickBeforeRefresh | Innova2/scheduler/tx_scheduler.cpp:237-310 | until bitmaps are computed every pick goes to the hint |
| Counters.CountersAgreeWithHistory | Innova2/scheduler/tx_scheduler.cpp:193-235 | in every run each counter is its start value plus the number of slots whose last counted message has the feature and was dispatched to that core, never exceeds 193; the table of old cores holds the cores of the last counted messages; the next update carries the features last counted for its slot |
| Flow.CountedAtItsDoorbell | Innova2/scheduler/tx_scheduler.cpp:175-310 | in every run the n-th message counted for a slot has the features of the slot's n-th accepted request and the core of the slot's n-th doorbell |
| Flow.AllCounted | Innova2/scheduler/tx_scheduler.cpp:175-310 | when nothing of a slot is queued, all its requests have been counted, each at the core of its doorbell, and its old core is the last of these |
| Counters.CounterMoves | Innova2/scheduler/tx_scheduler.cpp:193-235 | one 8-bit decrement and increment moves the counter to the new count without wrapping |
| Dispatch.ExactlyOnce | Innova2/scheduler/tx_scheduler.cpp:282-391 | in every run posts are accepted once and in order per slot, accepted requests are those rung plus those queued, streams hold accepted requests, and depths 96 and 192 are never exceeded |
| Dispatch.PollDecides | Innova2/scheduler/tx_scheduler.cpp:325-391 | the toggle test holds exactly when the slot has a post not yet accepted, and then nothing of that slot is in flight |
| Dispatch.RepollDoesNothing | Innova2/scheduler/tx_scheduler.cpp:325-391 | polling a slot without a new post changes nothing but the poll position |
| Progress.PollPositions | Innova2/scheduler/tx_scheduler.cpp:325-391 | in every run each poll stage stands at its number of polls modulo the lane |
| Progress.PostIsAccepted | Innova2/scheduler/tx_scheduler.cpp:325-391 | in every run an open post of any slot has been accepted, with its request, once the stage of its lane has polled as often as the lane has slots, whatever else happens |
| Progress.PicksDrain | Innova2/scheduler/tx_scheduler.cpp:282-310 | without polls every pick brings both check streams one step closer to empty, selector flips included, in exactly the number of steps counted beforehand |
| Progress.AcceptedIsRung | Innova2/scheduler/tx_scheduler.cpp:175-310 | enough picks and then enough doorbells ring everything accepted |
| Progress.PostIsRung | Innova2/scheduler/tx_scheduler.cpp:175-391 | every post in every run has its doorbell after enough polls of its lane, then picks, then doorbells |
| Dispatch.DepthsHold | Innova2/scheduler/no_dma.cpp:57-87 | the check streams hold at most 96 and the doorbell stream at most 192 messages |
| Rings.DoorbellAddress | Innova2/scheduler/tx_scheduler.cpp:175-191 | in every run the k-th doorbell of a core is written at base + 4160 core + 64 + 16 (k modulo the ring length), in words |
| Rings.AddressesDiffer | Innova2/scheduler/no_dma.cpp:132-146 | entries of different cores, or different entries of one core, share no word |
| Rings.NeverOverrun | Innova2/scheduler/tx_scheduler.cpp:175-191 | with one open request per slot, in-order workers and rings no shorter than the slot count, every unread entry is intact in every run |
| Boot.RingMap | Innova2/scheduler/no_dma.cpp:132-146 | the loop computes the ring starts that the doorbells use |
| Boot.SplitCovers | Innova2/scheduler/no_dma.cpp:148-170 | the two lanes poll every client slot if and only if the client count is even |
| Boot.PlacesDiffer | Innova2/scheduler/no_dma.cpp:148-170 | different client slots get different lane positions |
| SchedulerObject.Scheduler.constructor | Innova2/scheduler/utils.h:123-136 | allocates the arrays and is in the start-up state of the runs |
| SchedulerObject.NewClusters | Innova2/scheduler/utils.h:123-136 | the loops leave one count per core, at the feature with the core's number |
| SchedulerObject.Scheduler.CheckMessage0 | Innova2/scheduler/tx_scheduler.cpp:325-359 | the first poll stage over its arrays is the state machine's poll of lane 0, about which Progress says which slot it is and that every post is met |
| SchedulerObject.Scheduler.CheckMessage1 | Innova2/scheduler/tx_scheduler.cpp:360-391 | the second poll stage is the poll of lane 1, in the same way |
| SchedulerObject.Scheduler.ComputeCoreId | Innova2/scheduler/tx_scheduler.cpp:282-310 | takes one message from the selected stream and queues its doorbell and its update, or flips the selector |
| SchedulerObject.Scheduler.Doorbell | Innova2/scheduler/tx_scheduler.cpp:175-191 | writes the slot number at the core's head entry and moves the head round |
| SchedulerObject.Scheduler.UpdateCluster | Innova2/scheduler/tx_scheduler.cpp:193-235 | the loops over features take the message's old features off its slot's old core, add the new ones to its new core and store that as the old core, which Counters.CountersAgreeWithHistory and Flow.CountedAtItsDoorbell tie to the dispatches |
| SchedulerObject.Scheduler.InitBitmap | Innova2/scheduler/tx_scheduler.cpp:150-173 | refreshes the bitmaps from the counters |
| SchedulerObject.Scheduler.ReloadWeights | Innova2/scheduler/tx_scheduler.cpp:45-148 | rebuilds the merged table in place and replaces the partition |
| SchedulerObject.Scheduler.Dataflow | Innova2/scheduler/no_dma.cpp:57-87 | one pass is the five stages in program order, which Pipeline.PassIsRun makes a run of the state machine |
| Stock.SalesInClosedForm | AlNiCo_Server/sto/benchmark/TPCC_commutators.hh:283-304 | from a quantity in 10..100, any sales of 1..10 keep it there and end at 10 + (q - 10 - total) modulo 91, with year-to-date, order and remote counts summed (clause 2.4.2.2 of TPC-C) |
| Stock.SalesCommute | AlNiCo_Server/sto/benchmark/TPCC_commutators.hh:283-304 | every permutation of the sales ends in the same row |
| Stock.StockRow.Operate | AlNiCo_Server/sto/benchmark/TPCC_commutators.hh:283-304 | the whole-row commutator makes one sale and touches no other column |
| Stock.StockHalf.Operate | AlNiCo_Server/sto/benchmark/TPCC_commutators.hh:319-336 | the split-row commutator makes the same sale |
| Stock.StockRow.ReadModifyWrite | AlNiCo_Server/sto/benchmark/TPCC_txns.hh:271-286 | the copy-and-replace form makes the same sale |
| TpccStock.SalesExact | AlNiCo_Server/sto/benchmark/TPCC_txns.hh:249-286 | a new order records every sale in every stock row if and only if no two of its lines name the same row |
| TpccStock.LastSaleWins | AlNiCo_Server/sto/benchmark/TPCC_txns.hh:249-286 | a stock row ends as the committed row with the last sale naming it, or untouched |
| TpccStock.RepeatLosesSale | AlNiCo_Server/sto/benchmark/TPCC_txns.hh:249-286 | an order with lines of 3 and 4 of one item leaves the row as if only the 4 had been sold |
| TpccEffects.DeliverExactly | AlNiCo_Server/sto/benchmark/TPCC_txns.hh:803-929 | a delivery gives up if and only if some proposed order has an order row but no new-order row; otherwise every proposed open order, and no other, loses its new-order row and gets the carrier, all its lines get the date, its customer gets the sum of its lines and one delivery, and nothing else changes |
| TpccEffects.DeliveryApplies | AlNiCo_Server/sto/benchmark/TPCC_txns.hh:774-937 | the same of the delivery step of a run, which changes nothing when it gives up |
| TpccEffects.PaymentApplies | AlNiCo_Server/sto/benchmark/TPCC_txns.hh:448-605 | a payment adds its amount to warehouse and district, takes it off the balance, adds it to the payments, counts one, writes one history row under an unused key, and changes nothing else |
| TpccEffects.NewOrderApplies | AlNiCo_Server/sto/benchmark/TPCC_txns.hh:162-309 | a new order appears under an unused id with its new-order and index rows and exactly one line per wanted item with its item, warehouse, quantity and truncated price, the named stock rows sell, the district row holds the id, and nothing else changes; with an item of image id 0 no row changes |
| TpccEffects.NewSales | AlNiCo_Server/sto/benchmark/TPCC_txns.hh:249-286 | every stock row an order names is the committed row after the last sale naming it, remote or not, and every other row stays |
| TpccDraws.CountersCountDraws | AlNiCo_Server/sto/benchmark/TPCC_structs.hh:52-75 | in every run each order-id counter and each history-key counter stands at its start plus the number of attempts that drew from it, aborted ones included |
| TpccDraws.OrderIdCountsDraws | AlNiCo_Server/sto/benchmark/TPCC_txns.hh:162-219 | in every run from the loaded database a new order adds exactly the order with id 3001 plus the draws before it from its counter |
| TpccDraws.AbortsOnlyDraw | AlNiCo_Server/sto/benchmark/TPCC_txns.hh:24-616 | an attempt that aborts after its draw changes nothing else |
| TpccTheorems.CustomerLedger | AlNiCo_Server/sto/benchmark/TPCC_txns.hh:542-605 | in every reachable state balance = delivered amounts - paid amounts, balance + year-to-date payment = delivered amounts, and the two counts count history rows and deliveries (clauses 3.3.2.10 and 3.3.2.12 of TPC-C) |
| TpccTheorems.OrdersCoherent | AlNiCo_Server/sto/benchmark/TPCC_txns.hh:194-309 | in every reachable state an order has carrier 0 iff its new-order row exists, has exactly the lines 1..count, and these are undelivered iff the carrier is 0 (clauses 3.3.2.5 to 3.3.2.7) |
| TpccTheorems.NoOrphans | AlNiCo_Server/sto/benchmark/TPCC_txns.hh:194-309 | no new-order row and no line stands without its order |
| TpccTheorems.DeliveredAtMostOnce | AlNiCo_Server/sto/benchmark/TPCC_txns.hh:803-904 | whatever order ids later delivery scans propose, a delivered order's row and lines never change again and its new-order row never returns |
| TpccTheorems.YtdBalances | AlNiCo_Server/sto/benchmark/TPCC_txns.hh:448-519 | in every reachable state a warehouse total is the sum of its ten districts', and both have grown since loading by exactly the history amounts recorded against them, remote customers included (clause 3.3.2.1) |
| TpccTheorems.IndexExact | AlNiCo_Server/sto/benchmark/TPCC_txns.hh:194-219 | in every reachable state the order-customer index holds (w, d, c, o) iff order (w, d, o) belongs to c |
| TpccTheorems.IdsNeverReused | AlNiCo_Server/sto/benchmark/TPCC_structs.hh:52-75 | an order that appears later in a district has a higher id than every order before it |
| TpccRuns.ApplyKeepsInv | AlNiCo_Server/sto/benchmark/TPCC_txns.hh:24-937 | every committed or aborted transaction keeps the coherence, ledger, totals and history-key conditions together |
| TpccOrders.NewOrderKeeps | AlNiCo_Server/sto/benchmark/TPCC_txns.hh:162-309 | a new order keeps orders, lines, index and stock range coherent |
| TpccOrders.DeliverOrderKeeps | AlNiCo_Server/sto/benchmark/TPCC_txns.hh:850-929 | delivering an open order keeps them coherent |
| TpccOrders.DeliverySumFits | AlNiCo_Server/sto/benchmark/TPCC_txns.hh:878-904 | every partial sum of an order's amounts stays within a signed 32-bit integer |
| TpccLedger.PaymentKeepsLedger | AlNiCo_Server/sto/benchmark/TPCC_txns.hh:542-605 | a payment moves balance, year-to-date payment and history together |
| TpccLedger.DeliverOrderKeepsLedger | AlNiCo_Server/sto/benchmark/TPCC_txns.hh:878-929 | a delivery credits exactly the amounts of the lines it marks |
| TpccLedger.LineSumIsSum | AlNiCo_Server/sto/benchmark/TPCC_txns.hh:878-904 | the accumulator of the line loop is the sum over the order's lines |
| TpccYtd.PaymentKeepsYtd | AlNiCo_Server/sto/benchmark/TPCC_txns.hh:448-519 | a payment keeps both year-to-date conditions |
| TpccOnce.RunFollows | AlNiCo_Server/sto/benchmark/TPCC_txns.hh:803-929 | over any run orders and lines stay, only an open order can change, and id counters only grow |
| TpccLoad.LoadedIsConsistent | AlNiCo_Server/sto/benchmark/TPCC_bench.hh:431-598 | the loaded database satisfies every condition the transactions keep |
| TpccLoader.Prepopulator.Load | AlNiCo_Server/sto/benchmark/TPCC_bench.hh:409-631 | the loading loops, for any number of warehouses, any random choices and any customer shuffle per warehouse and district, produce the loaded database, in which each order belongs to the customer its shuffle gives it |
| TpccLoader.OneOrderEach | AlNiCo_Server/sto/benchmark/TPCC_bench.hh:554-571 | every loaded customer has exactly one order |
| TpccLoader.Prepopulator.LoadStocks | AlNiCo_Server/sto/benchmark/TPCC_bench.hh:449-469 | one stock row per item with a quantity in 10..100 and zero counts |
| TpccLoader.Prepopulator.LoadDistricts | AlNiCo_Server/sto/benchmark/TPCC_bench.hh:471-486 | ten districts with their opening total |
| TpccLoader.Prepopulator.LoadCustomers | AlNiCo_Server/sto/benchmark/TPCC_bench.hh:490-530 | 3000 customers per district with the opening balance |
| TpccLoader.Prepopulator.LoadHistory | AlNiCo_Server/sto/benchmark/TPCC_bench.hh:534-552 | one history row of 1000 per customer, numbered in order |
| TpccLoader.Prepopulator.LoadOrder | AlNiCo_Server/sto/benchmark/TPCC_bench.hh:560-596 | one order of the given customer with its index row, its 5 to 15 lines, delivered on its entry date or open, and, from id 2101 on, its new-order row |
| TpccRunner.Runner.NewOrder | AlNiCo_Server/sto/benchmark/TPCC_txns.hh:24-341 | an attempt succeeds if and only if no read or check of it fails and no item has image id 0; then it is the atomic new order, and otherwise it has drawn an order id unless it failed before that, and nothing else |
| TpccRunner.Runner.BufferLines | AlNiCo_Server/sto/benchmark/TPCC_txns.hh:225-309 | the item loop gives up if and only if an item has image id 0 or its reads fail; otherwise it buffers one line per item and the surviving stock writes |
| TpccRunner.Runner.Payment | AlNiCo_Server/sto/benchmark/TPCC_txns.hh:344-616 | an attempt succeeds if and only if nothing of it fails; then it is the atomic payment, and otherwise it has drawn a history key unless it failed before that, and nothing else |
| TpccRunner.Runner.Delivery | AlNiCo_Server/sto/benchmark/TPCC_txns.hh:774-937 | an attempt over ten districts succeeds if and only if no read or check fails and no proposed order is stale; then every proposed open order is delivered as TpccEffects.DeliverExactly says, and otherwise nothing changes |
| TpccRunner.Runner.StageDistricts | AlNiCo_Server/sto/benchmark/TPCC_txns.hh:803-929 | the loop over the districts, which reads committed rows only and buffers its writes, stages exactly the delivery of the districts in turn, or gives up exactly when that does or a read fails |
| TpccRunner.Runner.DeliverDistrict | AlNiCo_Server/sto/benchmark/TPCC_txns.hh:803-929 | reading committed rows for one district agrees with reading them after the districts before it: it gives up exactly then, and otherwise stages that delivery |
| TpccRunner.Runner.DeliverLines | AlNiCo_Server/sto/benchmark/TPCC_txns.hh:878-904 | the line loop computes the sum in 32 bits and marks exactly the order's lines |
| NicKeys.DistrictKeysDiffer | AlNiCo_Server/sto/benchmark/TPCC_structs.hh:163-169 | over the declared ranges different districts have different keys |
| NicKeys.CustomerKeysDiffer | AlNiCo_Server/sto/benchmark/TPCC_structs.hh:170-176 | different customers have different keys |
| NicKeys.OrderKeysDiffer | AlNiCo_Server/sto/benchmark/TPCC_structs.hh:185-191 | different orders have different keys |
| NicKeys.OrderIndexKeysDiffer | AlNiCo_Server/sto/benchmark/TPCC_structs.hh:193-198 | different order-index entries have different keys |
| NicKeys.OrderLineKeysDiffer | AlNiCo_Server/sto/benchmark/TPCC_structs.hh:200-208 | different order lines have different keys |
| NicKeys.StockKeysDiffer | AlNiCo_Server/sto/benchmark/TPCC_structs.hh:210-216 | different stock rows have different keys |
| HashIndex.Bucket.Find | AlNiCo_Server/sto/benchmark/DB_uindex.hh:558-563 | returns the list's row for the key, and null exactly when there is none |
| HashIndex.Bucket.Insert | AlNiCo_Server/sto/benchmark/DB_uindex.hh:546-556 | a new invalid head and the next version, the rest of the list unchanged |
| HashIndex.Bucket.Unlink | AlNiCo_Server/sto/benchmark/DB_uindex.hh:506-522 | exactly the given element leaves, the others stay reachable in the same order, the version does not move |
| HashIndex.Bucket.Remove | AlNiCo_Server/sto/benchmark/DB_uindex.hh:524-544 | exactly the key's element leaves, or the answer is false and nothing changes |
| HashIndex.Bucket.NontransPut | AlNiCo_Server/sto/benchmark/DB_uindex.hh:369-382 | the key's row becomes the given one; only an overwrite moves the version |
| HashIndex.TableRefinesMap | AlNiCo_Server/sto/benchmark/DB_uindex.hh:361-563 | any sequence of inserts, overwrites and deletes keeps each key once and in its own bucket, and every lookup equals the lookup in a map after the same sequence |
| HashTable.Table.constructor | AlNiCo_Server/sto/benchmark/DB_uindex.hh:105-109 | the table starts with one empty list per bucket, all of it newly allocated |
| HashTable.Table.Find | AlNiCo_Server/sto/benchmark/DB_uindex.hh:558-563 | the walk through the key's list returns its element, and null exactly when a map that saw every operation since the start has no such key |
| HashTable.Table.Get | AlNiCo_Server/sto/benchmark/DB_uindex.hh:361-367 | a lookup through the heap lists answers as a map that saw every operation since the start |
| HashTable.Table.Insert | AlNiCo_Server/sto/benchmark/DB_uindex.hh:256-309 | answers whether the map has the key, puts a new key as a newly allocated invalid head into its own bucket's list, and leaves every other list intact |
| HashTable.Table.NontransPut | AlNiCo_Server/sto/benchmark/DB_uindex.hh:369-382 | the table becomes the one of a map after the same put, other lists intact; any element that is new is newly allocated |
| HashTable.Table.Remove | AlNiCo_Server/sto/benchmark/DB_uindex.hh:524-544 | answers whether the map had the key, and the table becomes the one of a map without it, other lists intact, nothing added |
| HashTable.Table.Unlink | AlNiCo_Server/sto/benchmark/DB_uindex.hh:506-522 | exactly the given element leaves its list and the bucket's version stays |
| HashTable.Table.ListsDisjoint | AlNiCo_Server/sto/benchmark/DB_uindex.hh:546-556 | the lists of different buckets share no element |
| HashTable.Table.CopyRow | AlNiCo_Server/sto/benchmark/DB_uindex.hh:584-588 | one element's row is replaced, as a map's is, and no version moves |
| HashTable.InsertThenRemove | AlNiCo_Server/sto/benchmark/DB_uindex.hh:256-544 | on a new table an inserted key is found with its row, and is gone after its removal |
| HashTable.Load | AlNiCo_Server/sto/benchmark/TPCC_bench.hh:409-598 | loading any rows one after another leaves the table of a map after the same puts |
| IndexHeap.Index.Call | AlNiCo_Server/sto/benchmark/DB_uindex.hh:145-358 | in every run the walk over the heap lists finds an element exactly when the state machine does, and the same one with the same row; for an absent key the new head is the state machine's new element and the bucket's version moves with it; the transaction's log takes over this call and the row returned |
| IndexHeap.Index.Clean | AlNiCo_Server/sto/benchmark/DB_uindex.hh:470-479 | in every run the element to unlink is in its list, so the walk for it never runs off the end, and the lists are again the state machine's |
| IndexHeap.Index.Install | AlNiCo_Server/sto/benchmark/DB_uindex.hh:411-444 | installing on the elements leaves the rows and valid flags of the state machine |
| IndexHeap.Index.Advance | AlNiCo_Server/sto/sto-core/Transaction.cc:305-472 | all other steps leave the lists, versions, rows and valid flags the state machine's |
| IndexHeap.Index.constructor | AlNiCo_Server/sto/benchmark/DB_uindex.hh:105-109 | a new index is the state machine's empty state |
| IndexHeap.WalkAgrees | AlNiCo_Server/sto/benchmark/DB_uindex.hh:558-563 | an element of the key in the bucket's list is the one the state machine finds, and there is none exactly when it finds none |
| IndexHeap.OwnInsertIsFound | AlNiCo_Server/sto/benchmark/DB_uindex.hh:285-309 | on the heap a transaction finds the row it has just inserted |
| IndexRuns.PerformKeeps | AlNiCo_Server/sto/benchmark/DB_uindex.hh:145-479 | every call and every lock, check, install, cleanup and unlock step keeps the invariant of elements, items, locks, commit numbers and history |
| IndexTheorems.Serializable | AlNiCo_Server/sto/sto-core/Transaction.cc:305-472 | in every run, in commit-number order, every committed transaction, whose log holds the calls it made (IndexEffects.LogIsIssued), was told the rows the earlier ones installed and its own inserts; it was answered call by call as by a plain map if and only if it makes no call on a key it deleted and no read of a key it changed; and then it leaves the map's rows if and only if it changes no row it inserted itself |
| IndexTheorems.SerialExactly | AlNiCo_Server/sto/benchmark/DB_uindex.hh:145-459 | all answers and rows of a run are those of one plain map running the committed transactions one after another if and only if every committed transaction meets that condition |
| IndexTheorems.RowsAreReplayed | AlNiCo_Server/sto/benchmark/DB_uindex.hh:411-459 | the live row of every key is the one the committed transactions leave in that order, unless an install of the key is still to come |
| IndexTheorems.OrderInTime | AlNiCo_Server/sto/sto-core/Transaction.cc:331-402 | a transaction that holds all its locks only after another has committed comes later in the serial order |
| IndexTheorems.RunRecorded | AlNiCo_Server/sto/sto-core/Transaction.cc:404-458 | the history is exactly the logs of the committed transactions, each under its own number |
| IndexEffects.CallIsLogged | AlNiCo_Server/sto/benchmark/DB_uindex.hh:145-358 | a call stops its transaction if and only if the element it finds is locked or someone else's insert; otherwise the log grows by exactly this call and the row found, except that a delete of an own insert changes nothing |
| IndexEffects.LogIsIssued | AlNiCo_Server/sto/benchmark/DB_uindex.hh:145-358 | in every run a transaction's log, which the serialization theorems speak of, holds exactly the calls it made, in order |
| IndexEffects.CommitEffect | AlNiCo_Server/sto/benchmark/DB_uindex.hh:411-459 | in every run a committed transaction leaves every key without a row if it deleted it, else with the row it inserted, else with its last update, else as it was |
| IndexEffects.DeleteTakesEffect | AlNiCo_Server/sto/benchmark/DB_uindex.hh:317-358 | a delete call that finds a row, followed by anything, leaves the key without a row once its transaction has committed |
| IndexWitness.DeleteCommits | AlNiCo_Server/sto/benchmark/DB_uindex.hh:317-444 | a run in which one transaction inserts a row and another deletes it and commits: the key has a row before and none after |
| IndexWitness.DeletedIsGone | AlNiCo_Server/sto/benchmark/DB_uindex.hh:470-522 | after the cleanup of that run a walk does not find the key |
| IndexSolo.AloneNeverAborts | AlNiCo_Server/sto/sto-core/Transaction.cc:305-472 | after any run, a transaction that begins while all others are over is never stopped by a call, a lock or a check, whatever calls it makes |
| IndexSolo.AloneCommits | AlNiCo_Server/sto/sto-core/Transaction.cc:305-472 | and from wherever it is its own steps take it to the end of its commit |
| IndexSolo.AbortEnds | AlNiCo_Server/sto/sto-core/Transaction.cc:226-277 | in every run a transaction that has not yet decided can abort, and then its own steps take it to the end, whatever others hold |
| IndexWitness.OwnUpdateUnseen | AlNiCo_Server/sto/benchmark/DB_uindex.hh:204-242 | a run in which a row 1 is updated to 2, selected again as 1, and the transaction commits |
| IndexWitness.OwnUpdateDropped | AlNiCo_Server/sto/benchmark/DB_uindex.hh:411-444 | a run in which a row inserted as 1 and updated to 2 by one transaction is committed as 1 |
| IndexCalls.AgreesExactly | AlNiCo_Server/sto/benchmark/DB_uindex.hh:204-358 | a transaction told committed rows and its own inserts agrees with a plain map if and only if it makes no call on a key it deleted and no read of a key it changed |
| IndexCalls.EndsExactly | AlNiCo_Server/sto/benchmark/DB_uindex.hh:411-459 | an agreeing transaction installs what the plain map ends with if and only if it changes no row it inserted itself |
| IndexTheorems.DeletedForever | AlNiCo_Server/sto/benchmark/DB_uindex.hh:411-423 | a deleted element, its lock included, is the same in every continuation, and is no key's row |
| IndexTheorems.StaleReadNeverCommits | AlNiCo_Server/sto/benchmark/DB_uindex.hh:396-409 | a transaction that read an element since changed or deleted never commits in any continuation, unless it had passed that check before |
| IndexTheorems.PhantomProtected | AlNiCo_Server/sto/benchmark/DB_uindex.hh:145-162 | a transaction that missed a key never commits in any continuation once another transaction inserts into that bucket, unless it had passed that check before |
| IndexTheorems.UnlinksItsOwn | AlNiCo_Server/sto/benchmark/DB_uindex.hh:470-479 | what a cleanup takes out of a list is linked, is no key's row, and is an element its transaction deleted and holds, or its own aborted insert |
| IndexTheorems.NothingLeftBehind | AlNiCo_Server/sto/sto-core/Transaction.cc:226-277 | a transaction that is over holds no lock in any list, and everything it had to unlink is out |
| IndexLockSteps.LockKeeps | AlNiCo_Server/sto/benchmark/DB_uindex.hh:385-394 | taking one lock, or stopping because it is taken, keeps the invariant |
| IndexLockSteps.CleanKeeps | AlNiCo_Server/sto/benchmark/DB_uindex.hh:470-479 | one cleanup keeps the invariant of every other transaction: nobody else needs the unlinked element |
| IndexLockSteps.UnlockKeeps | AlNiCo_Server/sto/benchmark/DB_uindex.hh:460-468 | one unlock keeps the invariant: it never opens a deleted element |
| IndexCheckSteps.RowSettles | AlNiCo_Server/sto/benchmark/DB_uindex.hh:396-409 | a passed row check means that the row read is the one committed below the transaction's number and that nobody else about to commit writes it |
| IndexCheckSteps.BucketSettles | AlNiCo_Server/sto/benchmark/DB_uindex.hh:396-409 | a passed bucket check means that nothing is committed under the missed key and that nobody else has an element for it |
| IndexCommitSteps.AllCheckedKeeps | AlNiCo_Server/sto/sto-core/Transaction.cc:404-421 | the decision to commit leaves every settled call of every other transaction true |
| IndexCommitSteps.InstallKeeps | AlNiCo_Server/sto/benchmark/DB_uindex.hh:411-459 | installing one item keeps rows, versions and history in agreement |
| IndexInsertSteps.InsertKeeps | AlNiCo_Server/sto/benchmark/DB_uindex.hh:285-309 | inserting a new element keeps the invariant: every other transaction's observation of the bucket is stale, the own one moves along |
| Bytes.KeyOrder | AlNiCo_Server/sto/benchmark/TPCC_structs.hh:518-586 | keys made of byte-swapped words compare bytewise as their tuples do and are equal only when the tuples are |
| Bytes.SwappedIsBigEndian | AlNiCo_Server/sto/benchmark/DB_structs.hh:170-181 | a swapped word lies in little-endian memory in big-endian order |
| Bytes.BswapTwice | AlNiCo_Server/sto/benchmark/DB_structs.hh:170-181 | swapping twice gives the word back |
| Scan.ShortcutSound | AlNiCo_Server/sto/benchmark/DB_oindex.hh:712-730 | a leaf check that leaves the flag false, forward or reverse and from any earlier flag, means that no key of the leaf is outside the boundary |
| Scan.SliceOrder | AlNiCo_Server/sto/benchmark/DB_oindex.hh:719-724 | a smaller zero-padded 8-byte slice means a smaller key |
| Scan.PlainFinds | AlNiCo_Server/sto/benchmark/DB_oindex.hh:741-762 | comparing every key finds the valid keys inside the boundary, in order, up to the limit |
| Scan.RangeScanner.Check | AlNiCo_Server/sto/benchmark/DB_oindex.hh:712-730 | the branches leave the flag whose soundness Scan.ShortcutSound states |
| Scan.RangeScanner.VisitLeaf | AlNiCo_Server/sto/benchmark/DB_oindex.hh:732-762 | visiting a leaf with the shortcut is visiting it with every key compared |
| Scan.RangeScanner.Scan | AlNiCo_Server/sto/benchmark/DB_oindex.hh:706-772 | a whole scan finds exactly the valid keys inside the boundary, in scan order, up to the limit |
| LastOrder.HighestOrderFound | AlNiCo_Server/sto/benchmark/TPCC_txns.hh:713-727 | the one-row reverse scan of the order-customer index yields the customer's highest order, and nothing when the customer has none |
| LastOrder.HighestOrderInRuns | AlNiCo_Server/sto/benchmark/TPCC_txns.hh:713-727 | the same in every state that new orders, payments and deliveries reach from the loaded database, as long as ids fit 64 bits |
| LastOrder.IndexOrder | AlNiCo_Server/sto/benchmark/TPCC_structs.hh:518-546 | index keys compare bytewise as (warehouse, district, customer, order) |
| LastOrder.Lookup | AlNiCo_Server/sto/benchmark/TPCC_txns.hh:713-727 | the lookup returns the highest order id, read back from the key, or 0 when there is none |

## Left out

- Queue: opacity of reads inside a transaction, and the lock phase as separate steps; locking, checking and installing are one step.
- QueueObject.Queue.NontransPush: requires room; the source asserts it.
- QueueObject.Queue.NontransPop: requires a non-empty ring; the source asserts it.
- Scheduler: `ip_id` other than 0, restarts that keep old features, HLS pragmas and timing, the byte layout of slot memory and of the feature words.
- Dispatch.DepthsHold: does not bound the update stream, because no rule of the protocol limits how far counting lags behind the doorbells.
- Rings.NeverOverrun: assumes in-order workers and clients that post again only after their doorbell and after the previous entry was read.
- SchedulerObject.Scheduler.Dataflow: one pass; the driver loop around it, which runs until the host stops it, is not modelled.
- Progress.PicksDrain: both check streams drain when no poll comes in between; while posts keep one of them filled, the pick stage stays with it and the other waits, as in the source.
- Boot.SplitCovers: about the index arithmetic of the slot split, not about DMA set-up.
- TpccTheorems.CustomerLedger: balances are unbounded integers; 64-bit overflow and the bad-credit text of a customer are not modelled.
- TpccRunner.Runner.Payment: the choice of a customer by last name is a parameter; the customer commutator appears as the same two updates, not as an object of its own.
- TpccRunner.Runner.Delivery: the order ids that the scans propose are parameters, and any value is allowed.
- TPC-C conditions 3.3.2.2 and 3.3.2.3, which the code does not intend: order ids come from a counter that aborted attempts also move, and the district row stores the id itself.
- Columns that no condition mentions: names, addresses, taxes, discounts, district info, and dates other than an order's entry and its lines' delivery.
- Order status and stock level except the last-order lookup; whether every order is eventually delivered; the column-split selectors of TPC-C rows.
- IndexTheorems.Serializable: rows have one version instead of one per column group; blind writes, overwriting inserts, concurrent non-transactional puts and read-my-writes (off in every parameter set) are not modelled; a delete of a transaction's own insert, which runs into an assertion at install, is left out.
- HashIndex.TableRefinesMap: about sequences of rows; `HashTable.Table` ties it to the lists on the heap.
- IndexHeap.Index.Call: each call, cleanup and install of one item is atomic, as in the state machine; walks that overlap a list change, locks and delete marks of elements stay in the state machine, and freeing an unlinked element is not modelled.
- Scan.RangeScanner.Scan: leaves, their order and their largest slices are given as the tree walk delivers them; a failed row observation, which aborts the scan, is not modelled.
- LastOrder.Lookup: the index does not change during the scan.
- Other concurrency controls (TicToc, Swiss, adaptive locks, MVCC), Masstree internals, RCU, kernel modules, DMA, RPC, memcached, profilers and the other benchmarks.
