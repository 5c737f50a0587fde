# Verified model of the hmdp back end and its vendored Vue core

This project models, in Dafny, the parts of the hmdp shop-review application where correctness depends on the order in which
things happen, and proves what they are relied on for.

**The seckill order protocol** (`Order*.dfy`). A purchase spans Redis (stock, qualification set, owner hash, reservation records,
recovery index, closed markers), MySQL (stock, orders, delivery rows, release rows) and RabbitMQ, which share no transaction.
`OrderModel` is one transition system: each Lua script and each committed group of statements is one step, the two Redis reads of
`isBound` inside the open MySQL transaction are two further steps, messages may be delivered any number of times, late or never,
and a crash is simply a schedule that stops performing the steps of one client. `OrderInvariant` describes every reservation by a
`View`; `OrderPreservation` proves that every step keeps every view good; `OrderScripts` says, without their bodies, when each
script and statement group gives which answer and what it changes; the theorem modules state what follows for all schedules. The service classes work on stores updated in place (`OrderStores`). Before every remote call an adversary, read from
a tape, runs any steps of other clients and then lets the call succeed, get lost, or lose its answer; the tape is arbitrary, so
the contracts hold under every interference, and the clauses for an empty tape say exactly what an undisturbed call does. A call
that returns `Err` threw an exception.

**The shop cache** (`ShopCache*.dfy`). Threads are program counters over shared memory, with fair striped read/write guards and
Redisson locks held exactly where the counters say so. The theorems cover all interleavings of queries, rebuild tasks and
updates, and when hot values fall due; the class runs the same methods in place, again with an adversary between any two accesses.

**The follow feed** (`Feed.dfy`), **likes and follows** (`Social*.dfy`), **order ids** (`OrderIds.dfy`) and the **sliding-window
limiter** (`RateLimit.dfy`) are the remaining pieces of the back end with a whole-run promise.

**Vue 2.5.16** (`VueDiff.dfy`, `VuePatch.dfy`, `VueScheduler.dfy`, `VueDeps.dfy`): the keyed child diff over arrays and a DOM
child list, the watcher queue, and the two-sided bookkeeping of watchers and deps.

Two places where the code does not do what one would expect, each with the exact condition:

* A feed page whose first entry has time zero counts one tie too many, because the loop starts from time zero as well. Following
  the cursor continues exactly behind a page if and only if the page does not start at time zero or was the last one
  (`Feed.NextExact`); `Feed.ZeroTimesAreSkipped` is a feed where an entry is lost. `saveBlog` writes the current time, so such a
  feed needs entries that something else has written.
* A watcher flush breaks off, and forgets everything still queued, exactly when a watcher asked for itself more than 100 times
  during its own runs (`VueScheduler.Scheduler.FlushSchedulerQueue`).

## Model

| member | source | states |
|---|---|---|
| OrderStores.Stores.SeckillLua | src/main/resources/seckill.lua:1-24 | the script in place: every refusal in its order with its code and no change, otherwise one unit, the qualification, the owner entry, the record and the index entry together |
| OrderStores.Stores.BindLua | src/main/resources/reservation_bind.lua:1-5 | binds only the current owner's recorded reservation |
| OrderStores.Stores.ReleaseLua | src/main/resources/reservation_release.lua:1-24 | gives a unit back only for the current owner and the expected binding, keeps the qualification on request, and always ends the record of a matching reservation |
| OrderStores.Stores.CompleteLua | src/main/resources/reservation_complete.lua:1-5 | ends the record of exactly this binding |
| OrderStores.Stores.DeferLua | src/main/resources/reservation_defer.lua:1-4 | re-scores an index entry and never creates one |
| OrderStores.Stores.CloseReleaseLua | src/main/resources/order_close_release.lua:1-18 | credits once per order, guarded by marker, stock range, owner generation and qualification |
| OrderStores.Stores.InsertOrder | src/main/java/com/hmdp/service/OrderTransactionService.java:46-60 | the writes of create succeed together or leave the tables as they were |
| OrderStores.Stores.CancelDelivery | src/main/java/com/hmdp/service/OrderTransactionService.java:65-82 | outcome and row written by cancel, with every refusal before the first write |
| OrderStores.Stores.UpdatePaid | src/main/java/com/hmdp/service/OrderLifecycleService.java:45-48 | the conditional update that pays |
| OrderStores.Stores.CloseOrder | src/main/java/com/hmdp/service/OrderLifecycleService.java:61-67 | closing, the stock row and the release row commit together or not at all |
| OrderStores.Stores.Disturb | README.md:32-41 | whatever other clients do between two calls, knowledge only grows and nobody acts for the calling thread |
| OrderStores.Stores.ValidInv | src/main/java/com/hmdp/service/OrderTransactionService.java:28-82 | stores reached by any schedule satisfy the protocol invariant |
| OrderScripts.ReserveAnswers | src/main/resources/seckill.lua:1-24 | each answer code holds on its own condition with all earlier ones failing, success exactly on sale, with stock left and to a new user; refusals change nothing, success changes one key of each structure |
| OrderScripts.SalesInWindow | src/main/resources/seckill.lua:13-16 | over any run every reservation was made by a request from the begin of its voucher's sale on and before the end |
| OrderScripts.ReleaseAnswers | src/main/resources/reservation_release.lua:1-24 | when each code is answered, and key by key what a matching reservation loses always and what goes back only for the current owner |
| OrderScripts.CloseReleaseAnswers | src/main/resources/order_close_release.lua:1-18 | when each code is answered, what the first call credits, and that any later one changes nothing |
| OrderScripts.RecordAnswers | src/main/resources/reservation_bind.lua:1-5 | binding, completing and deferring touch one entry each, and when |
| OrderScripts.CreateAnswers | src/main/java/com/hmdp/service/OrderTransactionService.java:45-60 | the writes of create succeed exactly with a unit, a payment period and a free place, take one unit and add one unpaid row that expires a payment period later |
| OrderScripts.CancelAnswers | src/main/java/com/hmdp/service/OrderTransactionService.java:28-82 | cancel answers CREATED exactly for an existing order and keeps the qualification exactly for a user with another order that is not closed; it refuses exactly what conflicts |
| OrderScripts.PayOrClose | src/main/java/com/hmdp/service/OrderLifecycleService.java:37-68 | a pending order is payable before its expiry and closable from then on, never both, and whoever read it before does nothing any more |
| OrderScripts.CloseWrites | sql/02_order_lifecycle.sql:22 | closing gives the unit back to MySQL and saves a release row for the same reservation that is due at once |
| OrderInvariant.InitInv | src/main/resources/seckill_preheat.lua:1-13 | freshly preheated vouchers satisfy the invariant |
| OrderPreservation.StepKeeps | src/main/java/com/hmdp/service/OrderTransactionService.java:28-82 | every step of every client keeps the invariant and leaves all other reservations untouched |
| OrderPreservation.ExecKeeps | src/main/java/com/hmdp/service/OrderTransactionService.java:28-82 | so does every schedule |
| OrderInvariant.ActiveHolds | src/main/java/com/hmdp/service/OrderTransactionService.java:45-60 | an order that is not closed pins its user's owner entry to its own reservation |
| OrderInvariant.RoomToLand | src/main/java/com/hmdp/service/OrderTransactionService.java:45-60 | a holder that has not landed finds a MySQL unit and a free unique-index slot |
| OrderConservation.Conservation | jmeter/reconcile.py:35-43 | in every reachable state MySQL stock plus active orders, and Redis stock plus owner entries, make up the units, and the stocks differ by exactly the unlanded reservations and the uncredited closed orders |
| OrderConservation.StocksAgreeAtRest | jmeter/reconcile.py:35-43 | the two stocks are equal exactly when nothing is in flight |
| OrderConservation.Qualification | jmeter/reconcile.py:32-41 | the qualification set is the sentinel plus one user per owner entry |
| OrderTheorems.BoundCanLand | src/main/java/com/hmdp/service/OrderTransactionService.java:45-60 | in every reachable state a bound, undecided reservation passes the stock guard and the unique key |
| OrderTheorems.CheckedCreateLands | src/main/java/com/hmdp/service/OrderTransactionService.java:41-62 | a transaction that has read both keys of isBound lands, whatever other clients did since |
| OrderTheorems.GenerationSafety | src/test/java/com/hmdp/OrderMessagingIT.java:231-259 | a step for one reservation, however late, leaves every other reservation of the same user as it was in all stores |
| OrderTheorems.StaleStepsAreHarmless | src/test/java/com/hmdp/OrderLifecycleIT.java:157-184 | nothing done for a reservation that no longer holds a unit moves a stock, a qualification, an owner entry or an order row |
| OrderTheorems.KeepQualificationIsNoop | src/main/java/com/hmdp/service/OrderCompensationService.java:20-27 | CANCELLED_KEEP_QUALIFICATION is only answered when the release that follows finds nothing to do |
| OrderTheorems.EverForward | src/main/java/com/hmdp/service/OrderTransactionService.java:28-82 | under duplicated, late, reordered and lost messages each reservation only moves forward: final delivery states, left statuses, given-back units and ended records stay |
| OrderTheorems.Fence | src/main/java/com/hmdp/service/OrderTransactionService.java:41-82 | the order row exists exactly when the delivery row says CREATED |
| OrderTheorems.CancelledNeverLands | src/main/java/com/hmdp/service/OrderTransactionService.java:76-77 | after a committed cancellation no schedule ever creates the order |
| OrderTheorems.CreatedStays | src/main/java/com/hmdp/service/OrderTransactionService.java:60-74 | a landed order stays landed for the same user and voucher |
| OrderTheorems.RedeliveryChangesNothing | src/main/java/com/hmdp/service/OrderTransactionService.java:42-44 | a message delivered again after the decision changes no store |
| OrderExactlyOnce.ExactlyOnce | src/main/java/com/hmdp/service/OrderStockReleaseService.java:25-35 | over any run an order leaves PENDING, MySQL gets the unit back, Redis gets it back for the close, and any unit of the reservation returns to Redis, each at most once, and the state shows whether it happened |
| OrderExactlyOnce.Lifecycle | src/main/java/com/hmdp/service/OrderLifecycleService.java:37-73 | the version counts departures from PENDING, a release row exists iff the order was closed, the marker is set iff Redis was credited, and completion implies the credit |
| OrderGrowth.StepGrows | src/main/java/com/hmdp/service/OrderTransactionService.java:28-82 | what a client learned from the stores stays true under any step of others |
| OrderServices.OrderReservationService.Reserve | src/main/java/com/hmdp/service/OrderReservationService.java:32-38 | SUCCESS means the reservation exists and was made while the sale was open, any other answer means it does not exist; undisturbed it is the script's answer |
| OrderServices.OrderReservationService.Bind | src/main/java/com/hmdp/service/OrderReservationService.java:40-44 | true means bound, whatever happened around the call; false to the thread that owns an unbound reservation means that it was taken back |
| OrderServices.BindLapses | src/main/resources/reservation_bind.lua:1-5 | in reachable states an order id not bound yet is refused exactly when record and owner entry of the reservation are gone |
| OrderServices.OrderTransactionService.IsBound | src/main/java/com/hmdp/service/OrderReservationService.java:46-51 | two separate reads inside the open transaction; true leaves the transaction in the phase from which it always lands |
| OrderServices.BoundIsGenuine | src/main/java/com/hmdp/service/OrderReservationService.java:46-51 | in reachable states no message passes both reads unless it is that of an existing reservation with the order id drawn for it |
| OrderServices.OrderReservationService.Release | src/main/java/com/hmdp/service/OrderReservationService.java:53-60 | with an order id only after a committed cancellation; a release that is not disturbed by a fault takes an unlanded reservation of its holder back, and alone it fails exactly when the script answers a negative code |
| OrderServices.OrderReservationService.Complete | src/main/java/com/hmdp/service/OrderReservationService.java:62-65 | performed for landed orders only, and exactly once undisturbed |
| OrderServices.OrderReservationService.OldestPending | src/main/java/com/hmdp/service/OrderReservationService.java:67-69 | the hundred oldest due entries in score order, nothing due and older left out |
| OrderServices.OrderReservationService.Overdue | src/main/java/com/hmdp/service/OrderReservationService.java:67-69 | what it returns is such a batch at that moment |
| OrderServices.OrderReservationService.Defer | src/main/java/com/hmdp/service/OrderReservationService.java:71-74 | exactly the defer step |
| OrderServices.OrderReservationService.Read | src/main/java/com/hmdp/service/OrderReservationService.java:76-85 | the message read back is that of an existing reservation; a missing record is an exception |
| OrderServices.OrderTransactionService.Create | src/main/java/com/hmdp/service/OrderTransactionService.java:40-62 | CREATED and CANCELLED are about committed rows under any interference; undisturbed a bound undecided order lands, a decided one is left alone, anything else throws and changes nothing |
| OrderServices.GenuineAccepted | src/main/java/com/hmdp/service/OrderTransactionService.java:28-38 | a message of this system never conflicts with the delivery row of its order |
| OrderServices.OrderTransactionService.Land | src/main/java/com/hmdp/service/OrderTransactionService.java:45-61 | from the locked row on: lands exactly when bound with a positive payment period, otherwise rolls back |
| OrderServices.OrderTransactionService.BoundCommits | src/main/java/com/hmdp/service/OrderTransactionService.java:45-60 | after both reads the writes succeed exactly when the payment period is positive |
| OrderServices.OrderTransactionService.Cancel | src/main/java/com/hmdp/service/OrderTransactionService.java:64-82 | CREATED is about a committed order, every other answer about a committed CANCELLED row; a row locked by another transaction is not touched |
| OrderFlows.OrderCompensationService.Cancel | src/main/java/com/hmdp/service/OrderCompensationService.java:14-31 | true means the order exists, false with an order id that it never will; if its two calls succeed, the state in which the cancellation ended decides between a landed order and a reservation taken back, whatever others do; undisturbed exactly the cancel step and the complete or release it calls for |
| OrderFlows.OrderListener.Create | src/main/java/com/hmdp/listener/OrderListener.java:20-33 | malformed or conflicting messages throw; acknowledged only when the order is decided; undisturbed a landed order leaves the index, a cancelled one is compensated, a failed landing changes nothing |
| OrderFlows.OrderListener.DeadLetter | src/main/java/com/hmdp/listener/OrderListener.java:35-40 | malformed or conflicting messages throw; acknowledged only when the order is decided; undisturbed it compensates and nothing else |
| OrderFlows.VoucherOrderService.BindAndPublish | src/main/java/com/hmdp/service/impl/VoucherOrderServiceImpl.java:36-39 | an accepted order was handed to the broker, a lapsed reservation has neither record nor owner entry any more; which call failed decides how far the message was filled; with only the publication lost the order is drawn and bound |
| OrderFlows.VoucherOrderService.Buy | src/main/java/com/hmdp/service/impl/VoucherOrderServiceImpl.java:35-53 | the try and the catch block by the fault of each call: what was drawn or bound before the failure is compensated, and the cancelling transaction decides what the buyer is told |
| OrderFlows.LostPublishUndone | src/main/java/com/hmdp/service/impl/VoucherOrderServiceImpl.java:40-52 | in every reachable state, undoing what was just reserved, numbered and bound leaves stock, users, owners, records and index as they were |
| OrderFlows.WorkerDraws | src/main/java/com/hmdp/service/impl/VoucherOrderServiceImpl.java:36 | the next id of the counter can be drawn for any reservation without one, if all ids in the stores came from the counter |
| OrderFlows.VoucherOrderService.SeckillVoucher | src/main/java/com/hmdp/service/impl/VoucherOrderServiceImpl.java:27-54 | a positive answer means the order is with the broker or landed even after ambiguous failures, a refusal reserved nothing, and nothing is reserved outside the sale; when drawing, binding or publishing fails and the compensation does not, the answer is the order id exactly if the order had landed when the cancellation ended, and otherwise the reservation is cancelled and taken back; undisturbed the script alone decides, and a lost publication leaves Redis as before the call |
| OrderRecovery.OrderReservationRecoveryTask.TryOne | src/main/java/com/hmdp/task/OrderReservationRecoveryTask.java:27-33 | reads and compensates one token; with nobody else at work, and whatever calls fail, success means that the token is off the index and all other entries are as before |
| OrderRecovery.OrderReservationRecoveryTask.Recover | src/main/java/com/hmdp/task/OrderReservationRecoveryTask.java:22-38 | each of the hundred oldest due tokens gets its turn unless the deferral of one failed as the last call; with nobody else at work, and whatever other calls fail, each is then off the index or put off to the clock of the pass, and every other entry is as before; undisturbed it is a pass of PassWorks |
| OrderRecovery.OrderReservationRecoveryTask.Run | src/main/java/com/hmdp/task/OrderReservationRecoveryTask.java:21-38 | undisturbed scheduled calls, with any steps of other clients between them, are a run of passes, each over the oldest entries of its own moment |
| OrderRecovery.RecoverOne | src/main/java/com/hmdp/service/OrderCompensationService.java:14-31 | undisturbed compensation of any recorded reservation whose own create transaction is not open succeeds and takes it off records and index |
| OrderRecovery.PassWorks | src/main/java/com/hmdp/task/OrderReservationRecoveryTask.java:22-38 | a pass over distinct recorded tokens, none with an open create transaction of its own, removes exactly them from the index and keeps the invariant |
| OrderRecovery.PassesShrink | src/main/java/com/hmdp/task/OrderReservationRecoveryTask.java:22-38 | whatever other clients do between the passes, each takes a hundred of the entries up to any score below which nothing comes to stand, or all of them; an entry they leave alone keeps its score until a pass takes it, and none above its cutoff is taken |
| OrderRecovery.CrashRecovers | src/main/java/com/hmdp/task/OrderReservationRecoveryTask.java:22-38 | after a crash at any point of any schedule, with other clients reserving and deferring at later times between the passes, one pass per hundred due entries leaves only later entries, none of them a due one the others left alone; whatever is off the index is landed or fully returned and every unit accounted for |
| OrderRecovery.LoneRecovery | src/main/java/com/hmdp/task/OrderReservationRecoveryTask.java:22-38 | with no other client at work every due reservation is landed or fully returned and the later entries are as before; with everything due the index is empty and the stocks differ by the uncredited closed orders alone |
| OrderRecovery.IndexComplete | src/main/java/com/hmdp/service/OrderReservationService.java:67-85 | the recovery index covers exactly the reservation records in every reachable state |
| OrderLifecycle.OrderLifecycleService.SimulatePay | src/main/java/com/hmdp/service/OrderLifecycleService.java:37-49 | success means the caller's own order is paid; undisturbed every answer and the paid row |
| OrderLifecycle.PayAnswers | src/main/java/com/hmdp/service/OrderLifecycleService.java:37-49 | each answer of a payment has its own condition, and somebody else's order is not found |
| OrderLifecycle.OrderLifecycleService.SelectExpired | src/main/java/com/hmdp/service/OrderLifecycleService.java:51-55 | the first hundred expired pending orders above the cursor, in id order, none skipped |
| OrderLifecycle.OrderLifecycleService.Close | src/main/java/com/hmdp/service/OrderLifecycleService.java:57-68 | true means closed with a saved release row; undisturbed true exactly for an expired pending order, and then the row is due at once |
| OrderLifecycle.OrderLifecycleService.CloseCannotFail | src/main/java/com/hmdp/service/OrderLifecycleService.java:61-66 | in reachable states the stock row exists and no release row does, so the conditional update alone decides |
| OrderLifecycle.CloseReleaseWorks | src/main/java/com/hmdp/service/OrderStockReleaseService.java:27-31 | in reachable states the close-release script never refuses a release row |
| OrderLifecycle.OrderStockReleaseService.Release | src/main/java/com/hmdp/service/OrderStockReleaseService.java:25-35 | a normal return means Redis has the unit and the row says so, however often it is retried |
| OrderLifecycle.OrderStockReleaseService.SelectPending | src/main/java/com/hmdp/mapper/OrderStockReleaseMapper.java:13-15 | the first hundred due uncompleted rows by retry time and order id |
| OrderLifecycle.OrderStockReleaseService.RetryPending | src/main/java/com/hmdp/service/OrderStockReleaseService.java:37-47 | undisturbed every row of that batch is credited in Redis and completed; with nobody else at work, and whatever calls fail, each row tried is credited and completed or put off by ten seconds, and the loop ends early only after a release and its deferral failed as the last two calls |
| OrderCloseTask.CloseTask.Scan | src/main/java/com/hmdp/task/OrderCloseTask.java:21-46 | under any failures and interference: the listing fails exactly when its call does; otherwise it is the lowest hundred above the cursor in the tables of some moment of the scan, all of them are logged as attempted, each attempt uses up a call of its own, and the cursor passes the batch whatever became of each or wraps on an empty one; undisturbed every listed order is closed |
| OrderCloseTask.CloseTask.Run | src/main/java/com/hmdp/task/OrderCloseTask.java:20-46 | under any failures and interference scheduled scans form the sweep of which NoStarvation speaks: read one after the other from tables the stores had, at the scheduled times, attempting exactly the logged orders, and with no more failed listings than calls that failed |
| OrderCloseTask.BatchOfScan | src/main/java/com/hmdp/service/OrderLifecycleService.java:51-55 | what a scan lists is the lowest hundred above the cursor, and the cursor moves to its last |
| OrderCloseTask.NoStarvation | src/main/java/com/hmdp/task/OrderCloseTask.java:21-46 | from any cursor, with any closings failing for ever and any orders joining or leaving, every order is attempted or no longer expired within one scan per hundred above the cursor and per scan that saw an arrival, one to wrap, and one per hundred below |
| ShopCacheModel.RoundTrip | src/main/java/com/hmdp/service/ShopCacheService.java:71-81 | what loadDatabase stores is read back as the entry it returns, for hot, plain and missing shops |
| ShopCacheExpiry.RebuildOnTime | src/main/java/com/hmdp/service/ShopCacheService.java:65-66 | in every run a query asks for a rebuild exactly when the shop is hot, hotMillis have passed since the very load its value comes from, and nobody asked before |
| ShopCacheExpiry.LocalDue | src/main/java/com/hmdp/service/ShopCacheService.java:105-110 | in every run a value in L1 was made by some load of this shop, and is due exactly hotMillis later if the shop is hot, else never |
| ShopCacheExpiry.RemoteDue | src/main/java/com/hmdp/service/ShopCacheService.java:104-109 | so is the value in Redis, which carries a time exactly for hot shops |
| ShopCacheInvariant.StepKeeps | src/main/java/com/hmdp/service/ShopCacheService.java:54-151 | every access of every thread keeps what threads may hold, what the levels hold, lock exclusion and the rebuilding marks |
| ShopCacheTheorems.CacheFreshness | src/main/java/com/hmdp/service/ShopCacheService.java:54-151 | in every interleaving L1 and L2 hold committed values at least as new as the last update whose invalidation completed |
| ShopCacheTheorems.QueryFreshness | src/main/java/com/hmdp/service/ShopCacheService.java:142-151 | a query that starts after an update completed never answers an older version, and reports a shop missing exactly when there is none |
| ShopCacheTheorems.SingleFlight | src/main/java/com/hmdp/service/ShopCacheService.java:83-95 | while the Redis entry lives, any number of concurrent misses of an id cause at most one database load |
| ShopCacheTheorems.ColdLoadsCount | src/main/java/com/hmdp/service/ShopCacheService.java:83-112 | exactly one load if the entry was not there before and is there after, none otherwise |
| ShopCacheTheorems.OneRebuild | src/main/java/com/hmdp/service/ShopCacheService.java:114-140 | at most one rebuild task per id is queued or running, and the mark says exactly whether there is one |
| ShopCacheTheorems.NoWaitCycle | src/main/java/com/hmdp/service/ShopCacheService.java:54-140 | no chain of waiting threads comes back to its start |
| ShopCacheTheorems.SomeoneMoves | src/main/java/com/hmdp/service/ShopCacheService.java:54-140 | whenever some thread is unfinished, some thread can go on |
| ShopCacheService.ShopCacheService.Query | src/main/java/com/hmdp/service/ShopCacheService.java:54-69 | fresh answers under any interference with all locks given back; alone, the first level that has the shop is served and the levels above it are filled |
| ShopCacheService.ColdQuery | src/main/java/com/hmdp/service/ShopCacheService.java:54-69 | alone, a miss of both levels answers the row and leaves it in both, an absent shop its mark in Redis; the next query answers the same, changes nothing else, and asks for a rebuild exactly from hotMillis on |
| ShopCacheService.WarmQuery | src/main/java/com/hmdp/service/ShopCacheService.java:54-81 | alone, a hit answers what the upper level says, leaves MySQL and Redis alone and fills L1 from Redis; a hot shop in the older format is rebuilt at once |
| ShopCacheService.ShopCacheService.LoadCold | src/main/java/com/hmdp/service/ShopCacheService.java:83-95 | under the Redisson lock: the re-read value is answered and nothing written, or else the row is loaded, and the lock is given back on every path |
| ShopCacheService.ShopCacheService.LoadDatabase | src/main/java/com/hmdp/service/ShopCacheService.java:97-112 | the row, or its absence, goes to Redis and L1 |
| ShopCacheService.ShopCacheService.RunTask | src/main/java/com/hmdp/service/ShopCacheService.java:117-135 | the task ends with its locks and mark given back; alone it copies an unexpired value or loads again |
| ShopCacheService.ShopCacheService.TaskRenews | src/main/java/com/hmdp/service/ShopCacheService.java:117-135 | alone, a task that finds a due value or none loads the row again, and no query asks for another rebuild before hotMillis are over; a renewed or absent value is copied instead |
| ShopCacheService.ShopCacheService.Hand | src/main/java/com/hmdp/service/ShopCacheService.java:114-140 | the queued task is there and the id marked, or the executor refused and the mark is gone, exactly as the call ends |
| ShopCacheService.ShopCacheService.InvalidateAfterCommit | src/main/java/com/hmdp/service/ShopCacheService.java:142-151 | on return L1 has no value; after a successful delete neither has Redis, and no older answer is possible from then on |
| ShopCacheService.ShopService.Update | src/main/java/com/hmdp/service/impl/ShopServiceImpl.java:53-65 | commits first, invalidates after, and refuses a shop that does not exist without any effect |
| Feed.QueryBlogOfFollow | src/main/java/com/hmdp/service/impl/BlogServiceImpl.java:128-168 | validation; the next cursor; and of the blogs of the page exactly those that exist, as often as they are there and in page order, for every feed and every cursor |
| Feed.Scan | src/main/java/com/hmdp/service/impl/BlogServiceImpl.java:141-156 | the loop ends with the page's ids, its last time and the number of its ties |
| Feed.PageIs | src/main/java/com/hmdp/service/impl/BlogServiceImpl.java:135-136 | a page is the next two visible entries behind the skipped ones, or what there is of them |
| Feed.VisibleCounts | src/main/java/com/hmdp/service/impl/BlogServiceImpl.java:135-136 | exactly the entries from time zero to the bound are visible, each as often as it is in the feed |
| Feed.ExistingListed | src/main/java/com/hmdp/service/impl/BlogServiceImpl.java:157-158 | the filtered list is the page without vanished blogs: same multiplicities, same order, nothing lost when all exist |
| Feed.NextPosition | src/main/java/com/hmdp/service/impl/BlogServiceImpl.java:141-167 | where the next cursor points, seen from the list the current one reads |
| Feed.NextExact | src/main/java/com/hmdp/service/impl/BlogServiceImpl.java:141-167 | reading continues exactly behind the page iff the page does not start at time zero or was the last |
| Feed.PagesPartition | src/main/java/com/hmdp/service/impl/BlogServiceImpl.java:128-168 | from offset zero the pages are exactly the entries at or below the start time, latest first, each once, with any ties and with publications above the cursor between requests |
| Feed.PublishedAbove | src/main/java/com/hmdp/service/impl/BlogServiceImpl.java:118-124 | publishing above a time leaves everything at or below it in place |
| Feed.ZeroTimesAreSkipped | src/main/java/com/hmdp/service/impl/BlogServiceImpl.java:143-156 | a feed with times zero whose last entry is never read |
| Feed.Feeds.Publish | src/main/java/com/hmdp/service/impl/BlogServiceImpl.java:114-124 | every follower, and nobody else, gets the blog once, in order, at the time read for that follower |
| Social.TransactMeaning | src/main/java/com/hmdp/service/SocialTransactionService.java:14-37 | a transaction sets one relation as asked, gives a new like the clock of its request and keeps the time of an existing one, moves the counter with the rows, and cannot fail while the counter covers the rows |
| Social.CountFollowsRows | src/main/java/com/hmdp/service/SocialTransactionService.java:20-26 | over all runs the counter minus the rows is constant, so the guarded decrement never fails |
| Social.StepSurplus | src/main/java/com/hmdp/service/SocialTransactionService.java:20-26 | one step keeps that difference and the time of every like that stays |
| Social.LikeTime | src/main/java/com/hmdp/service/SocialTransactionService.java:19-21 | over any run the time of each like is the clock of the request whose transaction made it, and stays |
| Social.ProjectionAgrees | src/main/java/com/hmdp/service/SocialProjectionService.java:34-58 | when nobody is at work and nothing crashed or failed to clean up, the snapshot is not ready or exactly the relation table |
| Social.ReadyExpires | src/main/java/com/hmdp/service/SocialProjectionService.java:34-58 | over any run a snapshot that readers would use has an expiry |
| Social.ChangeMeaning | src/main/resources/social_projection.lua:12-25 | the incremental change is refused exactly without a complete expiring snapshot; otherwise it sets or removes one member and leaves the others and the expiry |
| Social.TopFive | src/main/java/com/hmdp/service/impl/BlogServiceImpl.java:78-85 | the sentinel ranks first, so ranks 1 to 5 are the five earliest likes |
| Social.TopFiveLikedFirst | src/main/java/com/hmdp/service/impl/BlogServiceImpl.java:81-85 | over any run with a clock that does not go back, whoever is among the five liked before everybody left out, up to equal milliseconds |
| SocialService.SocialInteractionService.SetRow | src/main/java/com/hmdp/service/SocialTransactionService.java:14-37 | the statements of setLike and setFollow in place, which TransactMeaning describes |
| SocialService.SocialInteractionService.RunTransaction | src/main/java/com/hmdp/service/SocialTransactionService.java:14-37 | table and answer for each fate of the call: the change commits as a whole even if the answer is lost, is rolled back as a whole otherwise; a missing blog is an answer, any other failure an exception |
| SocialService.SocialInteractionService.RunChange | src/main/resources/social_projection.lua:12-25 | the incremental change, refused unless a complete expiring snapshot is there |
| SocialService.SocialInteractionService.Rebuild | src/main/java/com/hmdp/service/SocialProjectionService.java:34-44 | on success the snapshot is the table with the sentinel |
| SocialService.SocialInteractionService.ChangeSnapshot | src/main/java/com/hmdp/service/SocialProjectionService.java:46-58 | change, else rebuild, and after any failure no snapshot, unless the clean-up is lost too, which is recorded; otherwise what is ready is exact |
| SocialService.SocialInteractionService.Interact | src/main/java/com/hmdp/service/SocialInteractionService.java:28-33 | done means related as asked, and the snapshot is not ready or exact unless tainted; refused only for a missing blog; undisturbed answer, table and snapshot end exactly as specified |
| SocialService.SocialInteractionService.Like | src/main/java/com/hmdp/service/SocialInteractionService.java:25-34 | done means an existing blog related as asked; undisturbed exactly the row of the user changes, a new like carries the time of the request, and the counter moves along; refused for a bad id or, undisturbed always, a missing blog, and then nothing changed |
| SocialService.SocialInteractionService.Follow | src/main/java/com/hmdp/service/SocialInteractionService.java:36-46 | refused exactly for bad parameters, oneself, or an unknown user |
| SocialService.SocialInteractionService.Ensure | src/main/java/com/hmdp/service/SocialInteractionService.java:48-54 | a normal return means the snapshot is ready; undisturbed a missing one is rebuilt and only a key of the wrong type fails, which stays as it is |
| OrderIds.RedisIdWorker.NextId | src/main/java/com/hmdp/utils/RedisIdWorker.java:37-49 | the id packs the seconds and the day's counter, which this call incremented, as bits of a long |
| OrderIds.PackReadsBack | src/main/java/com/hmdp/utils/RedisIdWorker.java:47-48 | shift and or lose nothing exactly when both halves fit 32 bits, and the long is then positive exactly when the timestamp leaves the sign bit free and not both are zero |
| OrderIds.IdParts | src/main/java/com/hmdp/utils/RedisIdWorker.java:37-49 | within the ranges each id is a positive long that shows the seconds since the start of 2022 and its count |
| OrderIds.CountOfDay | src/main/java/com/hmdp/utils/RedisIdWorker.java:43-45 | the count in an id is the number of calls so far with its prefix on its day |
| OrderIds.IdsDistinct | src/main/java/com/hmdp/utils/RedisIdWorker.java:37-49 | ids of one prefix are positive and pairwise different over any calls, even if the clock steps back |
| OrderIds.NewIdUnused | src/main/java/com/hmdp/utils/RedisIdWorker.java:37-49 | as a number a new id is positive and differs from all drawn before with its prefix |
| RateLimit.SlidingWindowRateLimiter.Acquire | src/main/java/com/hmdp/service/SlidingWindowRateLimiter.java:18-24 | invalid configurations throw and change nothing; otherwise the script's answer, set and lifetime |
| RateLimit.ExpiryInvisible | src/main/resources/rate_limit.lua:9-17 | expiry of the key never changes an answer |
| RateLimit.EveryWindow | src/main/resources/rate_limit.lua:1-18 | with a clock that does not go back and a key that may be gone at any call a window after its last admission, no window of the configured length has more admissions than the limit |
| RateLimit.AdmittedExactly | src/main/resources/rate_limit.lua:8-18 | under the same assumptions a call is admitted exactly when fewer than limit admissions lie in the window that ends with it |
| RateLimit.RetryExact | src/main/resources/rate_limit.lua:11-14 | a lone retry is admitted exactly from the announced time on, and until then changes nothing |
| RateLimit.SecondsSuffice | src/main/java/com/hmdp/exception/RateLimitException.java:5-8 | the rounded seconds are enough, and no smaller whole number is |
| VueDiff.CreateKeyToOldIdx | frontend/js/vue.js:5457-5465 | every key in the range is mapped to a child with that key |
| VueDiff.FindIdxInOld | frontend/js/vue.js:5873-5878 | the first matching child before the end of the window, which itself was compared before |
| VueDiff.StillThere | frontend/js/vue.js:5827-5835 | with distinct keys the index never leads to a child that was taken |
| VueDiff.PickKeeps | frontend/js/vue.js:5834-5838 | moving a keyed child in front keeps order, distinctness and bookkeeping |
| VueDiff.FrontBackKeeps | frontend/js/vue.js:5816-5820 | so does moving the old start behind the old end |
| VueDiff.BackFrontKeeps | frontend/js/vue.js:5821-5825 | so does moving the old end before the old start |
| VuePatch.Locate | frontend/js/vue.js:5827-5834 | the candidate is inside the window and present; if it cannot be reused and has a key, nothing can |
| VuePatch.AddVnodes | frontend/js/vue.js:5720-5724 | the remaining new children get elements before the reference |
| VuePatch.RemoveVnodes | frontend/js/vue.js:5740-5752 | the remaining old elements leave the parent and nothing else does |
| VuePatch.UpdateChildren | frontend/js/vue.js:5783-5853 | ends with the parent showing exactly the new children's elements in order without repetition, each reused from an old child like it or made anew, and made anew only if no such old child was left; everything else leaves the parent |
| VuePatch.ReuseExactly | frontend/js/vue.js:5783-5853 | a keyed new child shows an old element iff both are alike in the sense of sameVnode, no two new children share an element |
| VuePatch.ReuseByFields | frontend/js/vue.js:5432-5455 | field by field: an old element is shown only for the same key, tag, comment flag, presence of data and, for inputs, the same type or two of the seven text types; for keyed children these equalities force the reuse |
| VueScheduler.Scheduler.QueueWatcher | frontend/js/vue.js:3050-3071 | a waiting watcher is not queued twice; otherwise it is appended, or spliced into the unrun tail, which stays strictly increasing and equal to what waits |
| VueScheduler.Scheduler.RunNext | frontend/js/vue.js:2976-2997 | one run with any requests keeps the tail, the marks and the counters right |
| VueScheduler.Scheduler.FlushSchedulerQueue | frontend/js/vue.js:2961-3011 | the spliced array behaves like a set from which the lowest id is taken until nothing waits, broken off exactly by a self-requesting watcher |
| VueScheduler.EveryoneRuns | frontend/js/vue.js:2961-2997 | unless the flush breaks off, whoever was queued or requested runs after that |
| VueScheduler.NoRunTwice | frontend/js/vue.js:3050-3053 | nobody runs twice without having been requested again |
| VueDeps.Dep.RemoveSub | frontend/js/vue.js:136-143 | takes one occurrence away, or changes nothing |
| VueDeps.Watcher.AddDep | frontend/js/vue.js:3162-3171 | the dep is known once and subscribed once, other watchers' subscriptions are untouched |
| VueDeps.Watcher.CleanupDeps | frontend/js/vue.js:3176-3194 | untouched deps lose the watcher, the new lists become current, the others' subscriptions are untouched |
| VueDeps.Watcher.Teardown | frontend/js/vue.js:3266-3282 | no dep has the watcher any more |
| VueDeps.Get | frontend/js/vue.js:3135-3157 | after an evaluation with any nested evaluations the deps are exactly those touched, and whoever was not evaluated is as before |
| VueDeps.SubscribedIffTouched | frontend/js/vue.js:3162-3194 | touched, known by id and subscribed exactly once are the same thing |

## Left out

- Spring, MyBatis, RabbitMQ, Redisson and Caffeine themselves: they are atomic steps, a bag of messages, locks and maps here; publisher confirms and returns become "delivered or not, acknowledged or not".
- Loss of Redis, MySQL or RabbitMQ data, vouchers that existed before the delivery table, and keys of the wrong type in the order scripts: the code does not repair them.
- Reads inside one MySQL transaction see the moment of its commit, except the two Redis reads of `isBound`, which are steps of their own; a transaction waiting for the delivery row of another one fails, as it does after the lock timeout.
- OrderServices.OrderTransactionService.Create: well-formed messages that name no reservation of the system; `BoundIsGenuine` says that none of them passes `isBound`, after which the source throws and rolls back, but the transaction that does so is not a step of the model.
- OrderServices.OrderTransactionService.Cancel: well-formed messages that name no reservation, for which the source writes a CANCELLED row of its own; nothing in the repository publishes such a message.
- OrderFlows.OrderCompensationService.Cancel: the same messages, which it passes on to that cancellation.
- OrderFlows.OrderListener.Create: the same messages, which it passes on to create.
- OrderFlows.OrderListener.DeadLetter: the same messages, which it passes on to the compensation.
- Reservation tokens are numbers that are never drawn twice; the random generator and the format check of the message are not modelled.
- The switches that disable the close task, and the scheduling of tasks in time.
- The query endpoint of orders, login, uploads, HTTP, logging, GEO search, shop types and comments.
- Clocks are parameters: sale windows, expiry and retry times compare whatever times the steps carry.
- Shop cache: several application instances, inserts of shops against cached absence, loss of a Redisson lock while its holder runs, and the sizes of the executor and its queue; expiry and eviction may happen at any moment instead.
- ShopCacheTheorems.CacheFreshness: after a failed Redis delete the update does not count as completed, because the old value lives until it expires.
- Feed: ties in a feed are in some fixed order; requests whose offset points beyond the ties of their time are answered as the code does, but no exactness is claimed for them.
- Social: a lock whose lease is lost while its holder runs; readers that look at a snapshot during a change; the number of seconds until expiry, which is a step that may happen at any time.
- Vue: async placeholders, `removeOnly`, transition hooks, the recursion of patchVnode into children, component instances and directives; an old and a new vnode list sharing one vnode object; keys that are names inherited by every JavaScript object, and keys of different types that print alike, such as 1 and "1", which collide in the index by key; the rest of the file.
- VueScheduler.Scheduler.FlushSchedulerQueue: runs after the end of the script request nothing, so no claim is made that real flushes end; the updated and activated hooks are left out.
- VueDeps: evaluation of a watcher that is already being evaluated or was torn down, and Vue's stack of targets, which the recursion stands for.
