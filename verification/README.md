# A model of the game server's concurrent core

This project models, in Dafny, the parts of the server that are hard to get right by reading one function at a
time, and proves what they guarantee together. Three connected components are covered.

**Actor runtime** (`Actor*.dfy`). Any number of actors, producers, workers and shards share one node pool. Every
atomic access of `Mailbox.h`, `Actor.cpp` and `ActorSystem.cpp` is one step: a push alone takes the size check, the
pool, `fetch_add`, the tail exchange and the store to `next`. `ActorModel` is the state machine, `ActorRuntime.Runtime`
the same program on fields that change in place, one method per access; each of them, the start of a post included,
keeps the object in a state some run of the machine reaches, so every theorem about reachable states holds of it. The
exchange order, the executed sequence, the holder of a bit and the place of a node are history: ghost fields there.
The invariant is split by what it talks about (`ActorTokens`, `ActorLoad`, `ActorNodes`, `ActorChains`,
`ActorConsumer`); `ActorProducers` and `ActorWorkers` show that each access keeps it, `ActorSafety` lifts it to runs,
and `ActorTheorems`, `ActorBackpressure`, `ActorScheduling` and `ActorServing` state what follows: order and wake-up,
full mailboxes, the ready queues and their bound, and what posts and workers do when left alone. The queue is only
right with a single consumer, and only the scheduling bit provides that consumer, so the two are proved together.

**Gacha engine** (`GachaPool.dfy`, `GachaHistory.dfy`, `GachaSystem.dfy`, `GachaConfig.dfy`, `HistoryLoader.dfy`).
Random values are arguments, so every statement holds for all of them: which values select which item, which pools
can fail, how long a run without a five-star can get, what a loaded history knows.

**Requests and persistence.** `GachaService.dfy` is the lock, charge, draw, refund, grant, replay machine of one
player over a Redis map whose calls may fail and whose keys may expire; `GachaServiceSafety.dfy` proves what all
requests keep, `GachaServiceFaults.dfy` that the bound on paid draws is tight for each kind of fault, and
`GachaServer.dfy` and `Wallet.dfy` are the objects. `HistoryPersistence.dfy` is the incremental save of a draw history:
snapshot, INSERT batches of 100, watermark, COMMIT, beside a game thread that goes on recording, for new players and
for histories read back at login. `SavePipeline.dfy` is the write-behind pipeline of one player object (dirty bits,
saving bit, queued save, transaction) interleaved with draw handlers. Currency and inventory are written whole; for the
history it contains the machine of `HistoryPersistence`. `SaveInvariant.dfy` and `SaveLedger.dfy` hold its invariant
(the second accounts for every charge until it is committed), `SaveSafety.dfy` and `SaveTheorems.dfy` what follows for
saves, `SaveValues.dfy` what follows for balance and items, `SaveFailures.dfy` the runs that forget, `SaveRuntime.dfy`
the object. `SaveQueue.dfy` is the sharded queue with its workers, and `SaveOrder.dfy` runs pipeline and queue
together.

A run is a sequence of events, each enabled where it happens; main results speak about every run. Interleaving is
sequentially consistent. `Wrappers.dfy`, `Runs.dfy` and `Counting.dfy` hold the few general definitions.

## What the code does not keep

Where a property that the code or its comments suggest is false, the code is modelled as it is, a lemma shows a
failing run or input, and another says exactly when the property holds or how far it fails.

- `src/game/actor/Actor.cpp:11` promises no silent drop. A full mailbox does lose the job: the retry hands over a
  moved-from function, and an empty one ends up in the queue (`FullMailboxLosesTask`, `EmptyFunctionIsEnqueued`). A
  queued parcel carries its job exactly when its post never met a full mailbox (`TaskSurvivesUnlessFull`).
- A schedule request that meets a ready queue of more than 10000 actors is dropped while the actor stays marked
  (`src/game/actor/ActorSystem.cpp:57-62`), for good (`DropsExactly`, `DroppedForGood`). With 10002 actors on one shard
  a run loses a wake-up so (`FullQueueLosesWakeup`); with at most 10001 actors none ever does, and the wake-up claims
  hold without exception (`NothingDropped`, `NoLostWakeupOfFew`, `QuiescentMeansAllDone`).
- `src/game/gacha/GachaPoolManager.cpp:110` gives UP items 80 percent of the five-stars and line 114 gives them 70
  percent of the four-stars. The weights are per item, so with a, u and s entries in the all, UP and standard groups
  this is so exactly when 2u = 2s + a, and 3u = 3s + a (`UpIsEightyPercentExactly`,
  `FourStarUpIsSeventyPercentExactly`).
- The bands of `src/game/gacha/PitySystem.cpp:35-41` overlap: four-stars have 4.5 percent, not 5.1, and from pity 75
  on none at all (`FourStarBand`).
- A COMMIT that fails after the watermark was raised loses the staged draws (`FailedCommitLosesDraw`). So does a
  watermark that passes draws already out of the ring, in a run without a failed statement (`OverflowLosesDraw`).
  Nothing else does (`NothingLostExactly`), and no later save repairs it (`LostDrawsStayLost`).
- Rows read back at login count as unpersisted, so the next successful save of the history inserts them a second time
  (`ReloadedRowsAreUnpersisted`, `ReloadAndSave`).
- The dirty bits are meant to cover every difference between memory and the database. In every run they do, with the
  outstanding save and the handlers still on their way to a mark, exactly as long as no step forgets a difference
  (`DirtyCoverExactly`), and the steps that forget are known before they happen (`ForgetsExactly`):
  - a failed statement, for a fetched component that is not marked again, not owed by a handler, and differs from the
    database, because the bits are not put back (`FailedSaveForgets`, `FailedSaveForgetsExactly`);
  - a refund, if a save has committed the balance since the charge and nothing else will have it written (`RefundRace`,
    `RefundForgetsExactly`);
  - a reply that does not serialize, if no save has committed the balance since the charge and nothing else will have
    it written (`UnserializedReplyForgets`, `UnserializedForgetsExactly`);
  - a successful COMMIT, if a refund or an unserialized reply came after it had read the balance (`CommitRace`), or if
    draws were lost before (`CommitForgetsExactly`).

  Without failed statements, charges given up and lost draws nothing is forgotten, and the player is saved whole
  (`CleanRunsForgetNothing`, `CleanRunsSaveAll`).
- Each time Redis is out of reach, a key expires, or a reply cannot be serialized or stored, a trace may be paid and
  drawn once more, and no more than once (`GrantsBounded`); each of the four does so as often as it happens
  (`BoundIsTight`).
- A failed connection acquire puts a batch back behind whatever is queued by then, also behind what is pushed while the
  worker waits for the connection. Over any run a shard keeps its order exactly when no failed batch is overtaken: its
  queue was empty when the acquire failed and nothing was pushed before the last task was back (`OrderKeptExactly`,
  with a failing run in `LatePushOvertakes`). A player object has at most one save outstanding (`OneSave`), and its own
  saves still run in order (`PlayerOrderKept`, and `SavesInOrder` for pipeline and queue together).

## Model

| member | source | states |
|---|---|---|
| ActorTheorems.TasksInExchangeOrder | include/game/actor/Mailbox.h:44-114 | In every reachable state the executed parcels of an actor, then the rest of the batch in hand, then the chain behind its head are exactly the parcels ever exchanged into its mailbox, in exchange order: none lost, doubled or reordered, whichever worker consumes and wherever producers stand between exchange and link |
| ActorTheorems.BitIsToken | src/game/actor/Actor.cpp:64-75 | The scheduled bit is set if and only if exactly one party answers for it: a producer between the won compare-exchange and the enqueue, one ready-queue entry over all shards, one worker before the clearing, or a dropped request |
| ActorTheorems.OneConsumer | src/game/actor/Actor.cpp:27-49 | Two workers are never both inside the mailbox or the batch of one actor |
| ActorTheorems.NoLostWakeup | src/game/actor/Actor.cpp:17-51 | A non-zero size whose request was not dropped always has somebody left to act on it: a token holder, a producer that saw the mailbox empty and has not tried to schedule, or a worker before its re-check |
| ActorTheorems.QuiescentMeansDone | src/game/actor/Actor.cpp:17-51 | When all threads rest, ready queues are empty and no request was dropped, the size is 0, the bit is clear and every parcel ever enqueued has been executed |
| ActorTheorems.RestingBitIsClear | src/game/actor/Actor.cpp:41-51 | At rest, with no dropped request, no bit is set, no size is positive and nobody consumes |
| ActorTheorems.SizeIsExact | include/game/actor/Mailbox.h:46-58 | approx_size_ is the number of reserved and not yet exchanged nodes, plus the chain behind the head, plus the nodes popped and not yet subtracted; it lies between 0 and 2047 + the number of producers |
| ActorTheorems.SubtractionIsCovered | include/game/actor/Mailbox.h:108-111 | What a consumer is about to subtract is at most the size, so fetch_sub never underflows |
| ActorTheorems.SpinIsServed | include/game/actor/Mailbox.h:79-86 | A spinning consumer either already has a next link to read, or there is a producer that has exchanged behind its head and whose next access ends the spin |
| ActorTheorems.NodeIsInOnePlace | include/game/actor/ObjectPool.h:24-75 | Every node ever created is in exactly one place (a thread cache, the global stack, a producer's hand, a worker's hand, one mailbox chain) and a node never created is in none |
| ActorTheorems.AcquireMissesChains | include/game/actor/ObjectPool.h:24-50 | Acquiring a node, with the null link written into it, changes the next link of no node in any mailbox chain |
| ActorTheorems.ReleaseMissesChains | include/game/actor/ObjectPool.h:53-75 | Releasing a node, with the link written into it on the global stack, changes the next link of no node in any mailbox chain |
| ActorTheorems.HistoryGrows | include/game/actor/Mailbox.h:57-61 | The exchange order and the executed sequence of every actor only grow, at their end, in every step of any thread |
| ActorTheorems.SplitOrder | include/game/actor/Mailbox.h:94-106 | The exchange order splits into executed parcels, the consumer's pending batch and the chain, given what the consumer knows of its head |
| ActorTheorems.TaskSurvivesUnlessFull | src/game/actor/Actor.cpp:11-15 | A parcel in the exchange order still carries the job it was posted with if and only if its post never met a full mailbox; otherwise it carries nothing |
| ActorTheorems.EachShardOnce | src/game/actor/ActorSystem.cpp:137-143 | A scan of n shards from any start comes to each of them at exactly one of its n turns |
| ActorTheorems.ScanFinds | src/game/actor/ActorSystem.cpp:139-151 | A finished scan has an actor if and only if some shard other than the thief's own had one |
| ActorBackpressure.PostFinishes | include/game/actor/Mailbox.h:44-64 | In any reachable state, a post that meets room and is left alone runs to its end, adds one to the size and its own parcel to the exchange order, and wakes the actor exactly if it found the mailbox empty and the bit clear; nothing else changes in bits and queues |
| ActorBackpressure.PostAdvances | include/game/actor/Mailbox.h:44-64 | Each access of a post with room brings it nearer its end and keeps size plus what is still to be added, and order plus what is still carried |
| ActorBackpressure.MailboxFills | include/game/actor/Mailbox.h:44-64 | One producer alone can fill a mailbox to any size up to 2048 through complete posts |
| ActorBackpressure.BatchFinishes | include/game/actor/Mailbox.h:67-114 | While no post is past its capacity check, a worker inside PopBatch of a non-empty actor gets to the end of its batch and lowers the size, whatever part of the chain it has reached |
| ActorBackpressure.FullMailboxLosesTask | src/game/actor/Actor.cpp:11-15 | From every initial state with a producer and an actor, a state is reachable in which a post to a mailbox of 2048 has lost its job |
| ActorBackpressure.EmptyFunctionIsEnqueued | src/game/actor/Actor.cpp:11-15 | From every initial state with a producer, an actor and a worker, a state is reachable in which place 2048 of the exchange order is a parcel without a job: the comment that nothing is dropped silently does not hold |
| ActorScheduling.DropsExactly | src/game/actor/ActorSystem.cpp:44-68 | A request to schedule an actor puts it at the end of the queue of its own shard, or is dropped if and only if that queue already holds more than 10000 actors; no other step of any thread drops it |
| ActorScheduling.QueuesAreFifo | src/game/actor/ActorSystem.cpp:44-85 | A step leaves a ready queue alone, appends one actor whose key belongs to this shard, or takes the front for a worker that looks there |
| ActorScheduling.QueuedAtHome | src/game/actor/ActorSystem.cpp:49-50 | In every reachable state an actor waits only in the queue of its key modulo the number of shards, whoever posted it and whoever stole it before |
| ActorScheduling.NothingDropped | src/game/actor/ActorSystem.cpp:55-62 | In every reachable state of a system with at most 10001 actors no request has been dropped |
| ActorScheduling.NoLostWakeupOfFew | src/game/actor/Actor.cpp:17-51 | There a positive size always has somebody left to act on it, without exception |
| ActorScheduling.QuiescentMeansAllDone | src/game/actor/Actor.cpp:17-51 | There, when all threads rest and the ready queues are empty, every actor has executed everything ever enqueued to it |
| ActorScheduling.FullQueueLosesWakeup | src/game/actor/ActorSystem.cpp:57-62 | With 10002 actors on one shard a state is reachable in which all threads rest, and the last actor has a job, is marked as scheduled and dropped |
| ActorScheduling.DroppedForGood | src/game/actor/ActorSystem.cpp:59-61 | Once dropped, an actor stays dropped and executes nothing more, whatever step follows |
| ActorServing.ChecksExactly | src/game/actor/Actor.cpp:11-15 | A post that meets a size of 2048 or more has lost its job and tries again, any other keeps it and goes on |
| ActorServing.BudgetExactly | src/game/actor/ActorSystem.cpp:110-118 | A worker that reads a size below 64, 128, 512, or more sets out with a limit of 64, 128, 256 or 512 |
| ActorServing.BatchesAreBounded | include/game/actor/Mailbox.h:67-113 | In every reachable state a batch in the making holds no more than its limit, and none more than 512 |
| ActorServing.BatchEndsExactly | include/game/actor/Mailbox.h:73-91 | A batch ends if and only if the limit is reached, or the head has no link and is the tail |
| ActorServing.ReadsLinks | include/game/actor/Mailbox.h:69-99 | A batch starts empty at head_ with the link read there; every parcel is taken from the linked node, whose own link is read next |
| ActorServing.RestsExactly | src/game/actor/Actor.cpp:44-51 | A worker that reads size 0 in the re-check is done and touches neither bit nor queue; any other tries for the bit again |
| ActorServing.SeeksExactly | src/game/actor/ActorSystem.cpp:78-86 | A worker takes the front of its own queue if there is one; else it turns thief if there is another shard, else it waits |
| ActorServing.WakesExactly | src/game/actor/ActorSystem.cpp:88-103 | A worker whose wait ends starts over with its own shard |
| ActorServing.ReusesExactly | include/game/actor/ObjectPool.h:24-50 | A node is created only if thread cache and stack are empty; else the newest of the cache, or else the top of the stack, is used again and nothing else moves |
| ActorServing.ReleasesExactly | include/game/actor/ObjectPool.h:53-75 | In every reachable state a cache has at most 64 nodes, and a released node goes to the stack if and only if it has 64 |
| ActorServing.PopFinishes | include/game/actor/Mailbox.h:67-114 | While no post is past its check, PopBatch ends with exactly as many parcels as the smaller of limit and size says, and subtracts exactly these |
| ActorServing.RunFinishes | src/game/actor/Actor.cpp:34-42 | A batch left alone is executed to its end, in order, and then the bit is cleared |
| ActorServing.ServeFinishes | src/game/actor/ActorSystem.cpp:107-121 | A worker that got a non-empty actor, with no post past its check and no other worker in between, executes exactly the next jobs in exchange order, as many as budget and size allow, and is free again; the actor is then unmarked if none is left, else at the end of its own queue or dropped |
| ActorSafety.RunsAreSafe | src/game/actor/ActorSystem.cpp:70-123 | The invariant of the runtime holds at the end of every run: any choice of threads, posts, steals and idle steps from any initial state |
| ActorSafety.ReachableIsSafe | src/game/actor/ActorSystem.cpp:70-123 | Every reachable state satisfies the invariant |
| ActorSafety.StepKeeps | src/game/actor/ActorSystem.cpp:70-152 | One access of any producer or worker keeps the whole invariant: token, sizes, wake-up, node places, chains, consumer knowledge, pool stack |
| ActorSafety.ReachableCloses | src/game/actor/ActorSystem.cpp:70-152 | Every enabled step of any thread leads from a reachable state to a reachable state |
| ActorSafety.InitialHolds | include/game/actor/Mailbox.h:25-30 | A system of fresh actors, each with its own dummy node, satisfies the invariant |
| ActorProducers.CheckSizeKeeps | include/game/actor/Mailbox.h:46-48 | The capacity check, with the count of producers that passed it, keeps the invariant |
| ActorProducers.AcquireKeeps | include/game/actor/Mailbox.h:50-52 | Taking a node and filling it keeps the invariant, chains and pool stack included |
| ActorProducers.ReserveKeeps | include/game/actor/Mailbox.h:54-55 | fetch_add keeps the invariant; only the producer that sees 0 takes over the wake-up |
| ActorProducers.ExchangeKeeps | include/game/actor/Mailbox.h:57-58 | The tail exchange appends to chain and exchange order although the chain is not linked yet |
| ActorProducers.LinkKeeps | include/game/actor/Mailbox.h:60-61 | The store to next links exactly the predecessor the exchange returned and keeps the invariant |
| ActorProducers.TryScheduleKeeps | src/game/actor/Actor.cpp:17-24 | The compare-exchange of a producer creates a token only if there is none |
| ActorProducers.EnqueueKeeps | src/game/actor/ActorSystem.cpp:44-68 | The push into a ready queue, or the drop, keeps the invariant and hands the token on; which of the two is DropsExactly |
| ActorWorkers.OpenKeeps | include/game/actor/Mailbox.h:69-71 | The first read of head_ and next keeps the invariant |
| ActorWorkers.TakeKeeps | include/game/actor/Mailbox.h:93-99 | Taking a parcel moves one parcel from chain to batch and the old head into the worker's hand |
| ActorWorkers.SpinKeeps | include/game/actor/Mailbox.h:79-86 | A failed or successful read while spinning keeps the invariant |
| ActorWorkers.FreeOldKeeps | include/game/actor/Mailbox.h:101-103 | Releasing the old head to cache or stack keeps the invariant |
| ActorWorkers.CloseKeeps | include/game/actor/Mailbox.h:106-111 | Writing head_ back and subtracting the count keeps the invariant |
| ActorWorkers.RunTaskKeeps | src/game/actor/Actor.cpp:34-39 | Executing the next parcel of the batch keeps the invariant |
| ActorWorkers.ClearKeeps | src/game/actor/Actor.cpp:41-42 | Clearing the bit ends the token and leaves a re-check owed |
| ActorWorkers.RecheckKeeps | src/game/actor/Actor.cpp:44-45 | The re-check keeps the wake-up promise |
| ActorWorkers.RetryKeeps | src/game/actor/Actor.cpp:47-47 | A won second compare-exchange makes the worker the token holder; a lost one means there is one already |
| ActorWorkers.RequeueKeeps | src/game/actor/Actor.cpp:49-49 | The requeue hands the token on |
| ActorWorkers.PopLocalKeeps | src/game/actor/ActorSystem.cpp:76-85 | A local pop passes the token from queue to worker |
| ActorWorkers.StealKeeps | src/game/actor/ActorSystem.cpp:125-152 | A stealing step at any victim passes the token from that queue to the thief, or moves on |
| ActorWorkers.WorkerStepKeeps | src/game/actor/ActorSystem.cpp:70-123 | Any step of any worker keeps the invariant |
| ActorRuntime.Runtime.constructor | include/game/actor/Mailbox.h:25-30 | A new runtime is an initial state, with the given actors, workers and producers |
| ActorRuntime.Runtime.Post | src/game/actor/Actor.cpp:4-15 | Starting a post, on the real fields, is the machine's step and leaves the object in a reachable state |
| ActorRuntime.Runtime.Produce | src/game/actor/Actor.cpp:4-25 | Any later access of a post (capacity check, node, fetch_add, exchange, link, compare-exchange, enqueue) is the machine's step on the real fields and leaves the object in a reachable state |
| ActorRuntime.Runtime.Work | src/game/actor/ActorSystem.cpp:70-123 | So is any access of a worker, from looking for an actor to the requeue |
| ActorRuntime.Runtime.PostAlone | src/game/actor/Actor.cpp:4-25 | A whole post with room and nothing in between: the size grows by one, the exchange order by the posted job; if the mailbox was empty and the bit clear, the bit is set and the actor appended to its queue, unless that holds more than 10000 |
| ActorRuntime.Runtime.TryPop | include/game/actor/ActorSystem.h:35-44 | Finds an actor exactly when the queue of that shard is not empty, and then hands its front and its token to the worker; else nothing changes |
| ActorRuntime.Runtime.TrySteal | src/game/actor/ActorSystem.cpp:125-152 | A whole scan with nothing in between: it finds an actor if and only if another shard has one, takes the front of the first such shard in scan order, and touches no other queue and never its own |
| GachaPools.ShareIsWeight | src/game/gacha/GachaPool.cpp:28-44 | The number of random values in 1..total that select entry i is exactly the weight of entry i, for weights that are not negative |
| GachaPools.SharesAreWeightsExactly | src/game/gacha/GachaPool.cpp:28-44 | Every entry gets exactly its weight if and only if no weight is negative |
| GachaPools.ScanStops | src/game/gacha/GachaPool.cpp:32-44 | For any weights and any r up to the total, the scan stops at the first entry whose cumulative weight reaches r, so the fall-through return is never taken |
| GachaPools.PickedBefore | src/game/gacha/GachaPool.cpp:32-42 | A random value selects one of the first k entries if and only if it is at most their cumulative weight |
| GachaPools.DrawnEntry | src/game/gacha/GachaPool.cpp:12-45 | For weights that are not negative, the draw returns the entry in whose stretch of the total the engine's answer lies |
| GachaPools.YieldIsWeight | src/game/gacha/GachaPool.cpp:28-44 | Of the answers in 1..total, the draw yields an item for exactly as many as its entries weigh together |
| GachaPools.DrawnRarity | src/game/gacha/GachaPool.cpp:12-45 | A draw succeeds exactly when the rarity is offered with a positive total, and the item has the rarity asked for |
| GachaPools.GachaPool.AddItem | src/game/gacha/GachaPool.cpp:5-10 | Appends the item under its rarity, touches no other rarity, and keeps the stored total equal to the sum of weights |
| GachaPools.GachaPool.DrawByRarity | src/game/gacha/GachaPool.cpp:12-45 | The loop over cumulative weights returns the entry whose stretch the answer hits, with the two errors of the code in its order |
| GachaPools.GachaPool.HasRarity | src/game/gacha/GachaPool.cpp:47-51 | True exactly when the rarity has an item |
| GachaDraws.HardPity | src/game/gacha/GachaSystem.cpp:51-83 | Over any sequence of single and ten draws on any pools that hold a five-star, failed ones included, from a counter of at most 89: the counter stays within 0..89 and every 90 consecutive recorded draws contain a five-star |
| GachaDraws.HardPityExactly | src/game/gacha/GachaSystem.cpp:51-83 | For a pool on which every draw succeeds, the 90-draw promise holds for all dice if and only if the pool offers a five-star |
| GachaDraws.OneDrawBounded | src/game/gacha/PitySystem.cpp:28-29 | A draw that succeeds at pity 89 or more yields a five-star when the pool offers one |
| GachaDraws.BoundedHasFives | src/game/player/GachaHistory.cpp:27-30 | A log on which the counter never passes 89 has a five-star in every window of 90 |
| GachaDraws.RollExactly | src/game/gacha/PitySystem.cpp:12-42 | For every pity and roll: a five-star if and only if pity is at least 89, or the roll is below 0.006, or below 0.006 + 0.06 for every draw above 74; three stars exactly for rolls from there and 0.051 on |
| GachaDraws.FiveStarExactly | src/game/gacha/GachaSystem.cpp:51-83 | On a pool that offers five-stars of positive weight a draw yields one if and only if pity and roll satisfy that condition, whatever the answer of the weighted draw |
| GachaDraws.DrawOneHits | src/game/gacha/GachaSystem.cpp:57-82 | A draw gives the entry of the reached rarity that the answer hits, and records that rarity |
| GachaDraws.NothingDrawableExactly | src/game/gacha/GachaSystem.cpp:60-69 | A draw fails for want of a rarity if and only if the pool offers none from three stars up to the rolled one |
| GachaDraws.EachDrawHasItsDice | src/game/gacha/GachaSystem.cpp:30-45 | Item i of a request is what random value i draws from the history that the draws before it left |
| GachaDraws.ItemsAreCounted | src/game/gacha/GachaSystem.cpp:30-45 | A request draws for all its random values, or stops at the first one whose draw fails |
| GachaDraws.PlayRecordsLog | src/game/gacha/GachaSystem.cpp:77-80 | After any requests the history is what recording the drawn rarities one by one gives: a failed draw leaves no trace in it, earlier draws of a failed ten-draw stay |
| GachaDraws.DrawableExactly | src/game/gacha/GachaSystem.cpp:59-77 | Every draw succeeds for every history and dice if and only if the pool offers three stars and each offered rarity has a positive total |
| GachaDraws.DrawableDraws | src/game/gacha/GachaSystem.cpp:59-69 | The rarity drawn is the rolled one or the next lower one offered |
| GachaDraws.DrawableDrawsAll | src/game/gacha/GachaSystem.cpp:38-44 | A request on such a pool returns exactly as many items as it asks for, each of a rarity the pool offers |
| GachaDraws.FourStarBand | src/game/gacha/PitySystem.cpp:35-41 | A roll gives four stars exactly below pity 75 and between 0.006 and 0.051: the soft pity removes four-stars altogether |
| GachaDraws.CertainExactly | src/game/gacha/PitySystem.cpp:24-42 | A five-star is certain for every roll if and only if pity is at least 89 |
| GachaDraws.PityOnlyHelps | src/game/gacha/PitySystem.cpp:12-22 | A roll that gives a five-star still does with a longer run |
| GachaDraws.Fallback | src/game/gacha/GachaSystem.cpp:60-64 | The rarity reached is the highest offered one not above the roll, or below three |
| GachaDraws.DrawOnceFromPool | src/game/gacha/GachaSystem.cpp:51-83 | The loop and the draw on the objects give the modelled draw: item and record on success, and an unchanged history on each failure |
| GachaDraws.DrawTen | src/game/gacha/GachaSystem.cpp:30-45 | Ten draws in order: all ten items, or the error of the first draw that fails, and the history keeps what was recorded before it |
| GachaConfigs.BuildTiered | src/game/gacha/GachaPoolManager.cpp:73-139 | The pool built from the groups holds, rarity by rarity and in order, exactly the configured items with weights 100, 800/200, 700/300, 100, and the three default three-stars exactly when an up/standard pool has none |
| GachaConfigs.BuildListed | src/game/gacha/GachaPoolManager.cpp:57-72 | A listed pool holds each listed item under its rarity, in list order |
| GachaConfigs.ListedCount | src/game/gacha/GachaPoolManager.cpp:57-72 | A listed pool offers every listed item under its rarity as often as it is listed, and nothing else |
| GachaConfigs.ListedInOrder | src/game/gacha/GachaPoolManager.cpp:57-72 | The order under a rarity is that of the list |
| GachaConfigs.AddRarityItems | src/game/gacha/GachaPoolManager.cpp:77-93 | Appends one item per id with the group weight to one rarity and leaves the others alone |
| GachaConfigs.TieredDrawsExactly | src/game/gacha/GachaPoolManager.cpp:104-139 | A tiered pool yields an item for every pity and roll if and only if it has the up/standard format or lists a three-star |
| GachaConfigs.UpPoolDrawsAll | src/game/gacha/GachaPoolManager.cpp:104-139 | A request on an up/standard pool returns exactly as many items as asked, ten for a ten-draw |
| GachaConfigs.UpShare | src/game/gacha/GachaPoolManager.cpp:95-112 | With a, u and s five-stars in the all, UP and standard groups, the draw yields an UP item for exactly the answers 100a + 1 to 100a + 800u of the 100a + 800u + 200s |
| GachaConfigs.UpIsEightyPercentExactly | src/game/gacha/GachaPoolManager.cpp:110-112 | The UP share of the five-stars is the commented 80 percent if and only if 2u = 2s + a |
| GachaConfigs.FourStarUpShare | src/game/gacha/GachaPoolManager.cpp:95-116 | The draw yields an UP four-star for exactly 700u of the 100a + 700u + 300s answers, those behind 100a |
| GachaConfigs.FourStarUpIsSeventyPercentExactly | src/game/gacha/GachaPoolManager.cpp:114-116 | The UP share of the four-stars is the commented 70 percent if and only if 3u = 3s + a |
| GachaConfigs.ThreeStarsAlike | src/game/gacha/GachaPoolManager.cpp:99-139 | Each three-star is drawn for exactly a hundred answers, in the order of the configuration; an up/standard pool without any has the three default ones |
| GachaHistories.RingIsNewest | src/game/player/GachaHistory.cpp:5-39 | From an empty history the ring is the newest 1000 draws of the whole log, numbered from 1, and the counter is the trailing run, as long as the numbers have not wrapped |
| GachaHistories.AfterIsSuffix | src/game/player/GachaHistory.cpp:41-54 | In a ring with consecutive numbers the unpersisted records are the suffix behind the watermark |
| GachaHistories.WrapHidesRecords | src/game/player/GachaHistory.cpp:16-18 | Once 2^32 - 1 draws are persisted and the number has wrapped, no later draw is ever found unpersisted |
| GachaHistories.GachaHistory.Record | src/game/player/GachaHistory.cpp:5-39 | Appends with the next number, drops the oldest above 1000, resets or raises the counter, and marks the owner |
| GachaHistories.GachaHistory.GetUnpersisted | src/game/player/GachaHistory.cpp:41-54 | The filter loop returns the records above the watermark in order |
| GachaHistories.GachaHistory.MarkPersisted | src/game/player/GachaHistory.cpp:56-62 | Only raises the watermark |
| HistoryLoading.LoadGachaHistory | src/database/player/PlayerLoader.cpp:170-196 | The newest 500 rows read backwards and replayed leave the history that recording the last 500 draws in order gives |
| HistoryLoading.LoadedPity | src/database/player/PlayerLoader.cpp:176-194 | The loaded counter is the smaller of 500 and the trailing run without a five-star of the whole table |
| HistoryLoading.LoadedPityExactly | src/database/player/PlayerLoader.cpp:176-194 | The loaded counter equals the true run if and only if that run is at most 500 |
| HistoryLoading.LoadedPityOfPlayedLog | src/database/player/PlayerLoader.cpp:176-194 | It is right, and at most 89, for every table that keeps the 90-draw promise |
| HistoryLoading.ReloadedRowsAreUnpersisted | src/database/player/PlayerLoader.cpp:190-194 | The unpersisted records of a loaded history are all the rows read back, numbered from 1 |
| HistoryLoading.ReloadAndSave | src/database/player/PlayerLoader.cpp:170-196 | A login and a successful save with no draw in between leave the table with the newest 500 rows a second time, in order, behind all it had; a failed one leaves it as it was |
| HistoryPersistence.NothingLostExactly | src/database/player/PlayerSaver.cpp:104-151 | After any interleaving of draws with saves whose statements may fail, from a new or a loaded history, committed rows, rows awaiting COMMIT and unpersisted records are together exactly the draws not loaded, in order, if and only if no COMMIT that staged such draws failed, no watermark passed such draws already out of the ring, and at most 1000 of them lie behind the watermark |
| HistoryPersistence.KeptExactly | src/game/player/GachaHistory.cpp:41-62 | In every state of the invariant and above any number: the same equality holds exactly when no draw below the watermark is missing and the ring holds those behind it |
| HistoryPersistence.BoundedRunsLoseNothing | src/database/player/PlayerSaver.cpp:104-151 | With at most 1000 unpersisted draws at any time and no failed COMMIT the equality holds over the whole log, loaded draws included: failed inserts roll back, and draws arriving between snapshot and watermark are not skipped |
| HistoryPersistence.CommittedOnce | src/database/player/PlayerSaver.cpp:41-59 | In every run, whatever fails, the rows this object commits are recorded draws in recording order and none of them twice |
| HistoryPersistence.OverflowLosesDraw | src/game/player/GachaHistory.cpp:20-25 | A run of 1001 draws and one save in which every statement succeeds, after which stored rows and unpersisted records are not the whole log |
| HistoryPersistence.RunKeeps | src/database/player/PlayerSaver.cpp:104-151 | The invariant holds after every run, and no draw above a given number and below the watermark is missing exactly when the run lost none |
| HistoryPersistence.FailedCommitLosesDraw | src/database/player/PlayerSaver.cpp:44-49 | A run with one failed COMMIT after which a recorded draw is neither stored nor unpersisted |
| HistoryPersistence.UnpersistedIsTail | src/game/player/GachaHistory.cpp:41-54 | What is unpersisted is the log behind the watermark as far as the ring still holds it |
| HistoryPersistence.HistorySaver.Record | src/game/player/GachaHistory.cpp:5-39 | A draw by the game thread is the draw step of the machine |
| HistoryPersistence.HistorySaver.StartTransaction | src/database/player/PlayerSaver.cpp:106-115 | Takes the snapshot of unpersisted records, or goes straight to COMMIT when there is none |
| HistoryPersistence.HistorySaver.InsertBatch | src/database/player/PlayerSaver.cpp:123-147 | Stages exactly the next 100 rows of the snapshot, or those that are left, or rolls everything back |
| HistoryPersistence.HistorySaver.Mark | src/database/player/PlayerSaver.cpp:148-148 | Raises the watermark to the last number of the snapshot |
| HistoryPersistence.HistorySaver.Commit | src/database/player/PlayerSaver.cpp:42-58 | Makes the staged rows permanent or drops them |
| HistoryPersistence.HistorySaver.InsertAll | src/database/player/PlayerSaver.cpp:122-147 | The batch loop stages every row of the snapshot once and in order, with one statement for every hundred begun, or none stays |
| HistoryPersistence.HistorySaver.Save | src/database/player/PlayerSaver.cpp:104-151 | An uninterrupted save stores every unpersisted record and leaves none, or stores nothing; the watermark moves only if every INSERT succeeded |
| SaveSafety.DirtyCoverExactly | src/game/player/PlayerManager.cpp:86-104 | Over every interleaving of draw handlers, savers and the worker, failures included, and for each component: in all states of a run a difference between memory and the committed database is marked dirty, or belongs to the outstanding save, or to a handler between change and mark, if and only if no step of the run is one of those that forget. For the history, agreement means that the table holds every draw of this object once and in order |
| SaveSafety.ForgetsExactly | src/game/player/PlayerManager.cpp:86-104 | In every state of the invariant, a step leaves a covered difference uncovered if and only if a condition on the state before it holds: the four cases of the section above, and no other step of any thread |
| SaveSafety.QuietMeansSaved | src/game/player/PlayerManager.cpp:81-105 | When no bit, save or half-done handler remains, the database agrees with memory on each component that no step of the run forgot; for the history, row by row |
| SaveSafety.CurrencyExactly | src/services/GachaService.cpp:93-137 | A balance that no bit, save or handler knows of agrees with the database exactly when the charges given up and not saved since cancel out |
| SaveSafety.DrawsExactly | src/database/player/PlayerSaver.cpp:104-151 | A history that nothing knows of is stored completely exactly when no draw below the watermark is missing and none lies behind it |
| SaveSafety.CommitForgetsExactly | src/database/player/PlayerSaver.cpp:41-51 | A successful COMMIT leaves a written component different from memory, with no mark or handler left, exactly if the balance was given up after it was read or draws were lost before; never for the inventory |
| SaveSafety.OneSave | include/game/player/Player.h:57-70 | saving_ is set exactly while one save is outstanding (in AsyncSavePlayer, queued, or with the worker), two never coexist, and at most one is queued |
| SaveSafety.RunKeeps | src/database/player/PlayerSaver.cpp:7-59 | Token, plan, staged values, the history's invariant and the ledger of charges hold after every run |
| SaveValues.NeverOverdrawn | src/game/player/Currency.cpp:3-16 | From a balance that is not negative, in every state of every run no balance is negative: in memory, in the open transaction, in the database |
| SaveValues.SpendsExactly | src/services/GachaService.cpp:93-100 | A handler that covers 160 or 1600 pays exactly that and has exactly one or ten draws to make; one that does not changes nothing |
| SaveValues.ChargeIsTheDraws | src/services/GachaService.cpp:93-119 | In every run the charge of a handler is 160 or 1600, and until it grants 160 for each draw made or still to be made |
| SaveValues.ValueIsConserved | src/services/GachaService.cpp:93-119 | Over every run, whatever saves fail: balance in memory, 160 for every item there and what handlers carry are constant together |
| SaveValues.InventoryIsTheDraws | src/services/GachaService.cpp:118-125 | Over every run the inventory in memory gains each item drawn and not refunded once, but for those still to be granted |
| SaveValues.MarksExactly | src/services/GachaService.cpp:118-137 | The bits a handler sets: the history after a record, the inventory after each grant and at the end, the balance only once the reply is made |
| SaveValues.RequestFinishes | src/services/GachaService.cpp:93-150 | A request left alone, wherever savers and worker stand, pays, records one or ten draws in order, grants each item once, sets all three bits and frees its handler |
| SaveTheorems.HistoryIsARun | src/database/player/PlayerSaver.cpp:36-51 | What handlers and worker do to the history in a run of the pipeline is a run of the incremental save |
| SaveTheorems.DrawsKeptExactly | src/database/player/PlayerSaver.cpp:104-151 | Over every run of the pipeline, stored rows, rows at the COMMIT and unpersisted records are together all draws of this object in order, if and only if the run lost none and the ring holds those behind the watermark |
| SaveTheorems.DrawsStoredOnce | src/database/player/PlayerSaver.cpp:104-151 | However saves fail, the rows are recorded draws in recording order, none twice |
| SaveTheorems.LostDrawsStayLost | src/database/player/PlayerSaver.cpp:148-148 | Once a draw below the watermark is missing, no step of any thread brings memory and database together again |
| SaveTheorems.CleanRunsForgetNothing | src/services/GachaService.cpp:93-137 | In runs where every statement succeeds, no charge is given up and the history's save loses no draw, no step forgets anything |
| SaveTheorems.CleanRunsSaveAll | src/game/player/PlayerManager.cpp:81-105 | After such a run, with nothing dirty, saving or half done, balance, items and draws are all in the database |
| SaveTheorems.RefundForgetsExactly | src/services/GachaService.cpp:109-118 | With no earlier change given up, a refund leaves the balance uncovered if and only if a transaction has committed it since the charge, and no bit, save or other handler will have it written |
| SaveTheorems.UnserializedForgetsExactly | src/services/GachaService.cpp:127-133 | With no earlier change given up, a reply that does not serialize leaves the charge uncovered if and only if no transaction has committed the balance since the charge, and nothing will have it written |
| SaveTheorems.FailedSaveForgetsExactly | src/database/task/SavePlayerTask.cpp:28-54 | A failed statement leaves a covered component uncovered if and only if its save had fetched it, it is not marked again, no handler owes it, and it differs from the database |
| SaveFailures.FailedSaveForgets | src/database/task/SavePlayerTask.cpp:28-54 | Every new player who can pay reaches, through one failed save, a state in which a recorded draw is known to no bit, save or handler |
| SaveFailures.RefundRace | src/services/GachaService.cpp:109-118 | Every new player who can pay reaches, through statements that succeed, a state at rest in which the balance is what it was and the database is short of one charge |
| SaveFailures.CommitRace | src/database/player/PlayerSaver.cpp:61-73 | The same with the refund inside the transaction, between the read of the balance and the COMMIT |
| SaveFailures.UnserializedReplyForgets | src/services/GachaService.cpp:127-133 | Every new player who can pay reaches, without any save, a state in which the charge is known to no bit, save or handler |
| SaveRuntime.Pipeline.constructor | src/database/player/PlayerLoader.cpp:170-196 | A player just loaded is an initial state of the machine |
| SaveRuntime.Pipeline.TryMarkSaving | include/game/player/Player.h:57-64 | The compare-exchange succeeds exactly when the bit was clear; it is the machine's step and keeps the invariant |
| SaveRuntime.Pipeline.FetchDirtyFlags | src/game/player/Player.cpp:37-42 | Takes all dirty bits, plus all components when forced, and clears them; so does the machine |
| SaveRuntime.Pipeline.Submit | src/game/player/PlayerManager.cpp:97-104 | Queues the save, or clears the bit when there is nothing to save, as the machine does |
| SaveRuntime.Pipeline.WriteNext | src/database/player/PlayerSaver.cpp:25-34 | Writes memory's balance or items into the transaction, or rolls back, as the machine does |
| SaveRuntime.Pipeline.ScanHistory | src/database/player/PlayerSaver.cpp:106-115 | Takes the snapshot of unpersisted draws on the history object, or finds none and goes on to COMMIT |
| SaveRuntime.Pipeline.InsertRows | src/database/player/PlayerSaver.cpp:123-147 | Stages the next at most 100 rows, or rolls the whole transaction back |
| SaveRuntime.Pipeline.AdvanceWatermark | src/database/player/PlayerSaver.cpp:148-148 | Raises the watermark of the history before the COMMIT |
| SaveRuntime.Pipeline.CommitTransaction | src/database/player/PlayerSaver.cpp:42-58 | Makes the fetched values and the staged rows permanent together, or nothing; the watermark stays raised either way |
| SaveRuntime.Pipeline.ClearSaving | include/game/player/Player.h:67-70 | Clears the saving bit after success and failure alike |
| SaveRuntime.Pipeline.Handle | src/services/GachaService.cpp:93-137 | One access of a draw handler, with the record on the history object, is one handler step, keeps the invariant and never overdraws; a charge takes exactly 160 or 1600 if the balance covers it and else changes nothing |
| SaveRuntime.Pipeline.AsyncSavePlayer | src/game/player/PlayerManager.cpp:81-105 | Uninterrupted: does nothing while a save is outstanding or nothing is to save, else takes every dirty bit and queues exactly one save |
| SaveRuntime.Pipeline.WriteValues | src/database/player/PlayerSaver.cpp:25-34 | Uninterrupted: the transaction has memory's value of each fetched component, or is rolled back at the first failure |
| SaveRuntime.Pipeline.WriteHistory | src/database/player/PlayerSaver.cpp:104-151 | Uninterrupted: every unpersisted draw is staged once and in order, whatever the number of batches, or none and the history is unchanged |
| SaveRuntime.Pipeline.Execute | src/database/task/SavePlayerTask.cpp:14-55 | Uninterrupted: on success the database has memory's balance and items, if fetched, and every unpersisted draw behind its rows; on failure it is unchanged, the bits stay cleared, and only a failed COMMIT may have moved the watermark; the saving bit is cleared either way |
| SaveQueues.NoTaskLost | src/database/worker/DBWorker.cpp:49-107 | Over any run, failed connection acquires included, the pushes of a shard are, as a multiset, exactly those executed, held by the worker and queued |
| SaveQueues.ExecutedOnce | src/database/queue/SaveQueue.cpp:21-35 | Over any run no save is executed twice, and none by a shard that is not its player's |
| SaveQueues.PopTakesExactly | src/database/queue/SaveQueue.cpp:65-88 | A pop takes the whole queue of a shard up to 32 tasks, from a longer one its first 32 |
| SaveQueues.BatchFinishes | src/database/worker/DBWorker.cpp:77-108 | A worker with a connection that is left alone executes the rest of its batch in order and then waits again |
| SaveQueues.RequeueFinishes | src/database/worker/DBWorker.cpp:62-75 | One without a connection puts the rest of its batch back behind what is queued, and then waits again |
| SaveQueues.OrderKeptExactly | src/database/worker/DBWorker.cpp:62-75 | Over any run, pushes during the wait for a connection and during the requeue included: a shard is in push order whenever its worker is not in the middle of putting a batch back, if and only if no failed batch is overtaken |
| SaveQueues.FirstInFirstOut | src/database/worker/DBWorker.cpp:49-107 | Up to the first overtaken batch a shard executes a prefix of its pushes in push order |
| SaveQueues.LatePushOvertakes | src/database/worker/DBWorker.cpp:61-71 | For every player a run with a single queued save whose acquire fails, and a second one pushed before it is back: the second will run first |
| SaveQueues.PlayerOrderKept | src/database/worker/DBWorker.cpp:62-75 | A player with at most one save open at a time has them executed in push order, however many acquires fail and whatever they do to the order of the shard |
| SaveQueues.RotationKeepsOrderExactly | src/database/worker/DBWorker.cpp:62-75 | For one failed round with no push in between: the order is kept if and only if at most one batch was queued |
| SaveQueues.SaveQueue.Push | src/database/queue/SaveQueue.cpp:21-35 | Appends to the shard of the player modulo 32 and touches no other |
| SaveQueues.SaveQueue.PushToShard | src/database/queue/SaveQueue.cpp:37-48 | Appends to the shard, or drops on an index out of range |
| SaveQueues.SaveQueue.PopBatch | src/database/queue/SaveQueue.cpp:65-88 | Removes the longest prefix of at most the batch size, in order, and touches no other shard; from a longer queue exactly the batch size |
| SaveQueues.DBWorker.RunOnce | src/database/worker/DBWorker.cpp:49-107 | One round executes the batch of at most 32 in order, or puts each task behind what is queued and what others push before it |
| SaveOrder.SavesInOrder | src/game/player/PlayerManager.cpp:86-104 | With the pipeline of a player and the sharded queue running together, and any other players pushing, the saves of the player object are executed in the order in which they were pushed |
| SaveOrder.RunKeeps | src/game/player/PlayerManager.cpp:86-104 | The queue's part of such a run is a run of the queue in which the player never has two saves open |
| GachaServiceSafety.GrantsBounded | src/services/GachaService.cpp:76-149 | Over any interleaving of any requests, with Redis failing and keys expiring at any time, the paid draws of a trace are at most one more than the faults it met |
| GachaServiceFaults.BoundIsTight | src/services/IdempotencyService.cpp:41-126 | For each kind of fault (no connection, expiry, a reply that does not serialize, a reply that is not stored) and every k, a run with k faults of this kind and no other in which all k + 1 requests of one trace are paid and drawn |
| GachaServiceSafety.OneDrawPerTrace | src/services/GachaService.cpp:76-149 | A trace without faults gets one paid draw, whatever the requests with it ask for |
| GachaServiceSafety.OneHolderPerTrace | src/services/IdempotencyService.cpp:57-86 | At most one request at a time holds the key of a trace without faults |
| GachaServiceSafety.ReplayIsSourced | src/services/IdempotencyService.cpp:79-85 | Every replayed reply is the reply of a paid draw of its trace |
| GachaServiceSafety.ReplayIsTheDraw | src/services/IdempotencyService.cpp:79-85 | Without faults of its trace, it is the reply of the only paid draw |
| GachaServiceSafety.RepliesAreHonest | src/services/GachaService.cpp:76-149 | Over every run: who is told of success has been granted as many items as asked for; who is told that the balance does not suffice or that the request is in progress, or gets a replay, has drawn nothing |
| GachaServiceSafety.ChargedExactly | src/services/GachaService.cpp:93-100 | A request is refused for its balance if and only if that does not cover 160 for each draw, and then nothing else changes; else exactly that is taken |
| GachaServiceSafety.FaultsExactly | src/services/IdempotencyService.cpp:41-126 | What counts as a fault of a trace, and nothing else does: its key expires, Redis is out of reach when it locks or stores, its reply does not serialize |
| GachaServiceSafety.Conservation | src/services/GachaService.cpp:93-119 | Currency plus 160 for every item owned plus what requests carry is constant over every run with any outcomes; the refund never wraps |
| GachaServiceSafety.ConservationWhenDone | src/services/GachaService.cpp:195-230 | Once no request carries anything, currency plus 160 for every item is what it was at the start |
| GachaServiceSafety.InventoryIsTheDraws | src/services/GachaService.cpp:223-230 | For every item id, the inventory has what it had plus the drawn pieces of every paid draw, each once, but for those still to be added |
| GachaServiceSafety.StepKeeps | src/services/GachaService.cpp:76-149 | Every step of every request, and every expiry, keeps the claims and holders of every trace within its faults |
| GachaServiceSafety.StepKeepsPayloads | src/services/IdempotencyService.cpp:92-108 | Every stored and every replayed payload stays that of a paid draw of its trace |
| GachaServices.EffectClaims | src/services/GachaService.cpp:93-149 | A step makes no more claims on its key, and frees it no more often, than the fault it counts allows |
| GachaServices.EffectHolds | src/services/IdempotencyService.cpp:57-126 | Neither does it make more holders and stored replies |
| GachaServices.EffectConserves | src/services/GachaService.cpp:93-119 | A step moves value between currency, request and inventory and neither makes nor loses any |
| GachaServers.GachaServer.Lock | src/services/IdempotencyService.cpp:41-68 | On the objects, refines SETNX: an empty trace and a missing connection let the request through, an unanswered command never does |
| GachaServers.GachaServer.Look | src/services/IdempotencyService.cpp:72-85 | On the objects, refines GET: only a stored reply is replayed, everything else is in progress |
| GachaServers.GachaServer.Spend | src/services/GachaService.cpp:93-100 | On the objects, refines the charge: the whole cost once, or the request is refused for its balance and the key is to be freed |
| GachaServers.GachaServer.Draw | src/services/GachaService.cpp:104-118 | On the objects, refines the draw: exactly the items asked for, or a refund is due |
| GachaServers.GachaServer.Refund | src/services/GachaService.cpp:114-117 | On the objects, refines the refund of exactly the charge |
| GachaServers.GachaServer.Grant | src/services/GachaService.cpp:224-230 | On the objects, refines the grant of the next item, one piece of it |
| GachaServers.GachaServer.Serialize | src/services/GachaService.cpp:126-133 | On the objects, refines serialization, whose failure keeps the items and frees the key |
| GachaServers.GachaServer.Expire | src/services/IdempotencyService.cpp:59-61 | On the objects, refines the expiry of a key, at any time and whoever holds it |
| GachaServers.GachaServer.CheckAndLock | src/services/IdempotencyService.cpp:36-90 | For every answer of Redis: who is let through, whether the key is taken, and whether everybody else is told in progress or replayed |
| GachaServers.GachaServer.SaveResult | src/services/IdempotencyService.cpp:92-108 | Replaces the key by the reply, or fails with or without having done so |
| GachaServers.GachaServer.Unlock | src/services/IdempotencyService.cpp:110-126 | Deletes the key, whoever holds it |
| GachaServers.GachaServer.Charge | src/services/GachaService.cpp:93-118 | Charges once and draws, or leaves the balance as it was; the refusal says whether the balance or the draw was the reason |
| GachaServers.GachaServer.AddItems | src/services/GachaService.cpp:223-230 | Each drawn item goes into the inventory once and in order |
| GachaServers.GachaServer.ReplyAndStore | src/services/GachaService.cpp:126-149 | Failure if the reply does not serialize, else success, and what the key then holds |
| GachaServers.GachaServer.PayAndDraw | src/services/GachaService.cpp:93-150 | From the charge on, whatever fails: the reply, the balance, the items and the key |
| GachaServers.GachaServer.Finish | src/services/GachaService.cpp:126-149 | Ends the request with success or, if the reply does not serialize, failure; the key holds the reply if that was stored, else it is freed if that succeeds |
| GachaServers.GachaServer.Handle | src/services/GachaService.cpp:48-150 | Uninterrupted, for every failure of Redis, draw and serialization: who is let through; the reply (success, insufficient balance exactly if it does not cover 160 for each draw, failure if the draw or the serialization fails, else in progress or the replay); balance, items and key |
| GachaServers.GachaServer.Take | src/services/GachaService.cpp:152-257 | Any one step of any request on the objects is the machine's step and keeps the invariant and the total |
| Wallets.Currency.Spend | src/game/player/Currency.cpp:3-16 | With other threads changing the balance before any compare-exchange and spurious failures: the amount is taken once, at an instant at which the balance covers it, and false means that at some instant it did not |
| Wallets.Currency.Add | src/game/player/Currency.cpp:18-21 | Adds modulo 2^64 |
| Wallets.Inventory.AddItem | src/game/player/Inventory.cpp:4-18 | Adds a positive count to one item and nothing else, and marks the owner; other counts are ignored |
| Wallets.Inventory.GetItemCount | src/game/player/Inventory.cpp:20-28 | The multiplicity of what was put in |

## Left out

- Weak memory orders: every interleaving is sequentially consistent. The wake-up claim relies on this between the
  release store at `src/game/actor/Actor.cpp:74` and the relaxed load at `include/game/actor/Mailbox.h:118`.
- The compare-exchange loops of the node pool: Acquire and Release are one step each, so the ABA case between
  `include/game/actor/ObjectPool.h:39` and line 40 is not captured.
- Actor::Stop, ActorSystem::Stop and the `running_` flag, destructors, worker shutdown and the null stop marker of
  DBWorker.
- Liveness: a worker that waits is woken and a spinning consumer ends its spin only under fair scheduling, which is
  not modelled; the claims say that somebody is always left to act, not when.
- ActorTheorems.NoLostWakeup: excludes actors whose schedule request was dropped; ActorScheduling says when that is.
- Mailbox sizes, weights, totals, counts and balances are unbounded integers, except sequence numbers (2^32), the
  balance on a refund (2^64) and the draws of a run in HistoryPersistence, which stay below the wrap.
- ActorRuntime.Runtime: maps and sequences stand for nodes and queues, so addresses and aliasing between C++ objects
  are not captured.
- Unsynchronised access of the database thread to the history deque and the inventory map: a snapshot, a watermark
  store and a read of the inventory are one step each.
- SaveSafety.DirtyCoverExactly: one player object; a relogin that replaces the object, the copy in Redis and LoadFrom
  are not part of this model, nor is the promise that logout always saves, which fails while a save is running.
- The inventory write is the value in memory at one instant, the snapshot of the history the ring at one instant; row
  formats, item ids of history rows (always 0) and upserts are left out. Rows stored before this player object was
  created are counted by `loaded` and never change.
- One trace used for a single and a ten draw shares a key, so the reply of one kind can answer the other; the
  at-most-once claims cover both kinds together, the message type of the reply is left out.
- Players other than the one whose requests are modelled: their keys never coincide.
- SaveOrder.SavesInOrder: the shard may go on while the pipeline's worker still runs a save, which the code excludes;
  the claim covers more runs than the code has.
- PlayerManager buckets and OnAutoSaveTick: they only choose for which players AsyncSavePlayer is called, at most
  100 a tick.
- LoadConfig outside one pool entry: reading YAML, item names, skipping empty pools, swapping the map, and the
  fallback of GetPool to another pool.
- The random engine's distribution, floating-point rounding of the probabilities (they are reals), and the debug-only
  re-entrancy guard of Record.
- Sockets, sessions, login, heartbeat, protobuf, logging, metrics, hiredis, MySQL and both connection pools.
  Serialization stands for itself: a stored reply is the sequence of drawn items and is never confused with `"P"`.
