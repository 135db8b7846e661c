# Flash-sale inventory: a verified model

A Dafny model of the inventory protocol of the flash-sale backend: the Redis Lua scripts, the Go
handlers that wrap them in Postgres writes (Reserve, Confirm, Release, expiry followed by waitlist
promotion), the two reconcilers, the waitlist and the token-bucket rate limiter.

`dafny verify dfyconfig.toml` checks the whole project.

## How it is organised

- `Counting.dfy`: `COUNT(*)` over finite maps. `Redis.dfy`: the keys, the sorted set and the scripts.
  `Postgres.dfy`: the tables, the CHECK and the UNIQUE constraint.
- `Protocol.dfy`: the interleaved system. Each Lua script, each SQL statement outside a transaction
  and each transaction is one step of one handler. A label names the handler, the step and how it
  went: rejected, applied but reported as an error, reply lost, crash. A reconcile of one sale is one
  step, with the outcome of each of its calls in the label. A run is any sequence of enabled labels, so
  a statement about runs is about every interleaving of these steps with every failure of each.
- `Ledger.dfy`, `Oversell.dfy`: the stock ledger, zero oversell, recovery. `Integrity.dfy`: what
  Postgres keeps. `Accounting.dfy`: the exact meaning of `reserved`. `Waitlist.dfy`: line order and
  fairness.
- `Legs.dfy`, `Capacity.dfy`, `Resale.dfy`: the most orders that any state can lead to, and from that
  exactly when a reconcile lets a sale be oversold. `Interrupted.dfy`: a reconciler whose calls are
  separate steps. `Hazards.dfy`: interleavings that show which hypotheses are needed, when the counters
  leave their bounds, and what failures cost.
- `Stores.dfy`, `Services.dfy`, `Reconcilers.dfy`: the stores, services and reconcilers as classes
  whose methods follow the Go and Lua code statement by statement. A handler method is proved equal,
  for every combination of failures, to `Handlers.Solo`, the handler running alone in the interleaved
  system; `Handlers.SoloIsARun` makes it one of the runs, so the theorems about runs cover the methods.
- `Outcomes.dfy`: what each handler answers and has written, written out for every outcome of its calls
  without the steps of the interleaved system. `Batches.dfy`, `Retries.dfy`, `MissingKeys.dfy`: expiry
  batches, idempotent retries, missing counters. `TokenBucket.dfy`: the rate limiter.

## What comes out

- **Zero oversell** holds in every interleaving although `reserved` may go below zero and `available`
  above the stock (`ReservedCanGoNegative`, in every sale that has stock): available + reserved +
  orders + confirms in flight + lost confirms = total is inductive, and confirm.lua's guard
  `reserved > 0` bounds the last three. `reserved` stays at or above zero exactly as long as
  release.lua is not executed where it is zero (`ReservedStaysExactly`), and `available` within the
  stock exactly as long as it is not executed with all stock on sale (`AvailableStaysExactly`). The
  header of confirm.lua announces a check that available + reserved stays within the total; the script
  makes none, and the ledger shows that without bad reconciles none is needed.
- Whatever the counters hold, `MostOrders` gives the largest number of orders that runs without
  reconciles can end with: live orders, plus the distinct unused keys of confirms between script and
  commit, plus `reserved` with whatever of `available` is positive.
- The guarantee stops at some reconciles, and `ReconcileOversellsExactly` says at which, however the
  reconcile's calls go. When both counters are written, orders can come to exceed the stock with no
  further reconcile if and only if a confirm whose key no order has yet was between its script and its
  commit, or active reservations plus live orders already exceeded the stock (`FullWriteResells`). When
  the second SET fails, `reserved` keeps its old value, and the condition compares that value, with the
  confirms that can still commit, to the active reservations (`HalfWriteResells`). A reconcile that
  does not get as far as `available` does nothing. Runs whose reconciles all avoid this keep the
  promise (`ZeroOversellExactlyGuarded`). The code looks for none of it, contrary to the zero-oversell
  promise of the repository's README, and every sale with stock can be oversold, by a reconcile that
  succeeds (`UnguardedReconcileOversells`) or by one that would have been safe had its second SET not
  failed (`HalfWriteOversells`). The ledger equation needs slightly more of a reconcile, exactly no
  confirm in flight at all (`ReconcileGuardIsExact`).
- A reconciler's calls are separate steps, and a Confirm that comes and goes between its counts and its
  SETs is seen by none of them (`UnseenConfirmOversells`); `PassRestoresExactly` says when such a pass
  restores the ledger.
- Compensating a failed Confirm with release.lua does not restore the unit: `reserved` falls by two
  and `available` rises by one, and a unit whose confirm changed no table is lost until a reconcile,
  compensated or not (`FailedConfirmLosesTheUnit`).
- The empty string is an idempotency key to the UNIQUE constraint, so after one keyless order every
  keyless Confirm fails and loses its unit (`UsedKeyNeverCommits`).
- A reservation insert that is applied but reported as failed leaves a row whose unit the compensation
  puts back on sale; `reserved` is short by exactly these (`OrderlyRunsCountExactly`).
- A reconciler that cannot read a counter takes it for zero, and misses a drift exactly when zero is
  what the counter ought to be (`PassMisses`).
- A promotion whose insert is rejected gives the unit back but drops the user from the line
  (`FailedPromotionDropsTheUser`). The code inserts a random item id although item_id references
  sale_items, so with that foreign key enforced every insert is rejected, and a batch of expiries takes
  its users off the line and reserves nothing for them (`RejectedBatchDrainsTheLine`).
- A joiner is last in line exactly when nobody waiting has the same second and a larger id
  (`JoinIsLastExactly`); TestWaitlistPosition in internal/queue/expiry_handler_test.go expects it always.
- The window bound of the token bucket, and the invisibility of its 60 s key expiry, hold when the
  capacity is at most 60 times the rate and, for whole capacities, only then (`WindowBoundExactly`,
  `ExpiryInvisibleExactly`); below a capacity of one both hold at every rate
  (`BelowOneNothingIsAllowed`). The default configuration, 10 and 2, meets the condition.

## Model

| member | source | states |
|---|---|---|
| Oversell.ZeroOversell | internal/reservation/service.go:165-248 | in every run from provisioned sales, with any failure, double release or guarded reconcile (one that changes no counter, or settles both with no confirm in flight and no overcommitment): the ledger equation, available >= 0, and orders never exceed total_stock |
| Oversell.ZeroOversellUnconditionally | README.md:14 | without reconciles, no run of any length, interleaving or failure pattern has more orders than stock |
| Oversell.SelfStabilising | internal/recovery/reconcile_startup.go:88-139 | from any counters, one guarded reconcile that gets its writes through starts a stretch in which every guarded run keeps the ledger and live orders within total_stock |
| Capacity.MostOrders | internal/reservation/service.go:139-251 | from any state, no reconcile-free run ends with more live orders than `Ceiling`, and one ends with exactly as many whenever something can be confirmed or reserved or confirm.lua can take nothing |
| Capacity.CeilingStep | internal/redis/scripts/confirm.lua:9-17 | no step other than a reconcile of the sale raises that ceiling |
| Resale.ReconcileOversellsExactly | internal/worker/reconciler.go:107-132 | from any counters, for every outcome of a reconcile's calls: if it leaves available as recomputed, a reconcile-free run with orders > total_stock then exists if and only if `Resells`; otherwise the state is unchanged |
| Resale.FullWriteResells | internal/worker/reconciler.go:117-132 | with both counters written, or found right, `Resells` is: a confirm with an unused key was between script and commit, or active + live orders > total_stock |
| Resale.HalfWriteResells | internal/worker/reconciler.go:127-132 | with only available written and live orders < total_stock, `Resells` is: unused keys in flight + max(reserved, -expected) > active; or, when overcommitted, unused keys + max(reserved, 0) > total_stock - live orders |
| Resale.GuardIsExactInEveryRun | internal/worker/reconciler.go:86-151 | hence at every point of every run from provisioned sales, earlier reconciles of every kind and outcome included |
| Resale.ZeroOversellExactlyGuarded | README.md:14 | every run whose reconciles of the sale do not resell, failing ones included, keeps orders within total_stock |
| Resale.ResaleOversells | internal/reservation/service.go:165-250 | after a reconcile that resells, some run reserves, confirms and commits past the stock, also where only a handler already under way can bring a row or a unit |
| Resale.ContainedStep | internal/reservation/service.go:174-250 | every step but a reconcile that resells keeps the sale contained: ceiling within the stock, or nothing left that a handler could confirm |
| Interrupted.PassRestoresExactly | internal/worker/reconciler.go:86-132 | with other handlers between the counts and the SETs, the ledger is restored if and only if what confirms had taken when the orders were counted, plus what they took since and did not lose, equals what was reserved net between the two SETs |
| Interrupted.PassOversellsExactly | internal/worker/reconciler.go:86-132 | after such a pass the sale can be oversold if and only if the ceiling exceeds the stock, given something to confirm or to reserve |
| Interrupted.UnseenConfirmOversells | internal/worker/reconciler.go:98-132 | in every provisioned sale of more than one unit, a pass with no confirm in flight at its order count nor at its SETs leads to more orders than stock |
| Oversell.ReconcileGuardIsExact | internal/worker/reconciler.go:107-132 | exact for the ledger equation: a reconcile that settles both counters balances its sale if and only if no confirm is in flight and active + live orders <= total; from a balanced state a reconcile keeps the balance, however its calls go, if and only if it is guarded |
| Oversell.SoloKeepsTheLedger | internal/reservation/service.go:39-294 | a handler run alone with any failures keeps every sale's ledger and the well-formedness of the stores |
| Ledger.BalancedStep | internal/redis/scripts/confirm.lua:9-17 | every enabled step keeps a sale's ledger, available >= 0 and orders + in flight + lost <= total |
| Ledger.RunMoves | internal/redis/scripts/release.lua:7-10 | of the three stock scripts only confirm.lua changes available + reserved, by one, and only when reserved > 0 |
| Ledger.CommitMoves | internal/reservation/service.go:174-250 | a confirm's unit becomes exactly one live order, or is still compensating or lost |
| Ledger.ReconcileBalances | internal/worker/reconciler.go:86-151 | a guarded reconcile balances its sale whatever the counters held and clears its lost units |
| Integrity.ConfirmedForever | migrations/001_initial_schema.sql:42-45 | over every run confirmed rows stay confirmed, orders are never changed or deleted, keys stay unique, every order's row is confirmed and every confirmed row has an order |
| Integrity.SetStatusOk | internal/reservation/service.go:270-274 | a status UPDATE that the CHECK lets through never touches a confirmed row and keeps every table invariant |
| Integrity.ConfirmTxOk | internal/reservation/service.go:174-250 | a committed confirm keeps every table invariant, UNIQUE keys included |
| Integrity.LateUpdateIsRefused | internal/queue/expiry_handler.go:158-162 | over every run, a release or expiry whose row was confirmed at any earlier point fails its UPDATE, whatever the database answers, and writes nothing |
| Integrity.ReplayReturnsTheOrder | internal/reservation/service.go:145-150 | in every later state of every run a Confirm with a committed order's key and a working lookup returns that order and writes nothing |
| Handlers.HandlersAreNeverStuck | internal/reservation/service.go:139-251 | every handler that has not ended can take its next step, however that step goes: the model's guards block no behaviour |
| Integrity.OtherSalesUndisturbed | internal/redis/client.go:112-133 | runs that only touch other sales leave a sale's counters, line, reservations and orders as they were |
| Postgres.LeavingTheCount | internal/worker/reconciler.go:88-92 | a reserved row that changes status leaves the first count if and only if its deadline is still to come |
| Postgres.EnteringTheCount | internal/worker/reconciler.go:98-102 | a new order enters the second count if and only if it is pending or paid |
| Postgres.HeldSplits | internal/worker/reconciler.go:88-92 | reserved rows are those counted and those overdue |
| Accounting.OrderlyRunsStayGood | internal/reservation/service.go:59-100 | with exclusive terminal operations and no failing confirm or release write, reserved = reserved rows + units held by handlers - confirms and releases between script and write - units given back although their insert was applied, in every reachable state |
| Accounting.OrderlyRunsCountExactly | internal/reservation/service.go:59-100 | the count, the lower bound of reserved and the overcommit bound, in every state of every orderly run from provisioned sales |
| Accounting.CacheAgreesAtRest | internal/worker/reconciler.go:107-115 | after any orderly run, at rest, a reconcile writes nothing if and only if as many rows are overdue as units were given back in error; both counters then equal the recomputation |
| Accounting.ExactStep | internal/reservation/service.go:165-197 | every orderly step keeps that count exact |
| Accounting.ExclusiveStep | internal/queue/expiry_handler.go:142-162 | past its status check a terminating handler's row stays reserved until its own write |
| Accounting.ReservedLowerBound | internal/redis/scripts/release.lua:7-8 | hence reserved is below zero by at most the units given back in error: never without them |
| Accounting.RefusalNeedsAPhantom | internal/reservation/service.go:161-172 | hence a Confirm that passed its status check gets -1 only after units were given back in error |
| Accounting.OvercommitBound | internal/queue/expiry_handler.go:153-162 | reserved rows + orders exceed total_stock by at most the releases and expiries between script and UPDATE and the units given back in error |
| Accounting.CacheIsRedundant | internal/worker/reconciler.go:107-150 | with no unit in a handler's hands a reconcile moves exactly the overdue rows' units less those given back in error back on sale, keeps the ledger, and writes nothing if and only if the two are equal |
| Accounting.UnheardInsertMakesAPhantom | internal/reservation/service.go:91-100 | an insert applied but reported as failed, once compensated, adds a row and takes a unit off reserved |
| Waitlist.PlaceOverRuns | internal/redis/scripts/waitlist_promote.lua:14-25 | over every run with later joins, a waiting user is promoted within its position or has moved up by at least every promotion made |
| Waitlist.PromotedByPosition | internal/redis/scripts/waitlist_join.lua:16-24 | after as many promotions as its position, a user who stayed has been promoted |
| Waitlist.PlaceAfterStep | internal/waitlist/service.go:54-88 | no step of the whole system moves a waiting user back, given later joins |
| Waitlist.JoinIsLastExactly | internal/redis/scripts/waitlist_join.lua:21-24 | a joiner is placed last if and only if (second, id) is past everyone's |
| Hazards.UnguardedReconcileOversells | internal/worker/reconciler.go:88-132 | from every provisioned sale with stock, a run with one reconcile during a confirm of an overdue row ends with more orders than stock |
| Hazards.HalfWriteOversells | internal/worker/reconciler.go:127-132 | from every provisioned sale with stock, a run reaches a state where a reconcile with all writes is safe and one whose second SET fails leads to more orders than stock |
| Hazards.ReservedCanGoNegative | internal/reservation/service.go:253-274 | in every provisioned sale with stock, two racing releases of one reservation reach reserved -1 and available above the stock |
| Hazards.ReservedStaysExactly | internal/redis/scripts/release.lua:7-8 | in every run, reserved stays >= 0 if and only if no step executes release.lua on the sale where reserved is 0 |
| Hazards.ReservedAfterStep | internal/redis/scripts/release.lua:7-10 | one step of any kind takes reserved below zero if and only if it is a release.lua execution at 0 |
| Hazards.AvailableStaysExactly | internal/redis/scripts/release.lua:7-8 | in every run, available stays <= total_stock if and only if no step executes release.lua on the sale where available is total_stock |
| Hazards.AvailableAfterStep | internal/redis/scripts/release.lua:7-10 | one step of any kind takes available past total_stock if and only if it is a release.lua execution at total_stock |
| Hazards.FailedConfirmLosesTheUnit | internal/reservation/service.go:174-250 | for every outcome of the transaction, the constraints and the compensation: every failure but that of Begin is compensated; the unit is lost if and only if no table changed; reserved ends at -2 and available at +1 if the compensation runs, -1 and unchanged otherwise |
| Hazards.UsedKeyNeverCommits | migrations/001_initial_schema.sql:58 | once an order has a key, in every later state of every run a Confirm with that key, "" included, commits nothing and loses its unit |
| Hazards.FailedPromotionDropsTheUser | internal/queue/expiry_handler.go:218-224 | the rollback of a promotion restores both counters but not the user's place |
| Handlers.SoloIsARun | internal/reservation/service.go:39-294 | a handler executed alone ends, and is one of the runs of the interleaved system |
| Handlers.AnyHandlerRuns | internal/queue/expiry_handler.go:120-184 | from every well-formed state any handler, an expiry included, can be started and run to its end, whatever its calls do |
| Handlers.LineMovesAndCrashes | internal/waitlist/service.go:32-88 | at any moment users may join and leave and a live handler may die |
| Outcomes.ReserveFromScript | internal/reservation/service.go:59-136 | the answer, the tables, the counters, the TTL keys and the idempotency keys after Reserve, for every outcome of script, insert, compensation and the two SETs: which error is answered, what is undone, and a key kept for 86400 s |
| Outcomes.ReserveDoes | internal/reservation/service.go:51-57 | a remembered key whose reservation still loads is answered with it and writes nothing; everything else goes on to the script |
| Outcomes.ConfirmFromScript | internal/reservation/service.go:165-250 | the answer, the tables and the counters after Confirm, for every outcome of script, transaction and compensation: each error by name, and available + 1, reserved - 2 after every compensated failure, a refused order INSERT included, but only reserved - 1 when Begin fails |
| Outcomes.ConfirmDoes | internal/reservation/service.go:139-163 | the order of the key if the lookup finds one; not found for a failed load or a missing row; not reserved for any other status; nothing written in the three cases |
| Outcomes.ReleaseDoes | internal/reservation/service.go:253-294 | the answer, the tables and the counters after Release for every outcome of its calls, each refusal by name and without writes |
| Outcomes.ExpiryDoes | internal/queue/expiry_handler.go:142-184 | likewise for expiry up to the promotion |
| Outcomes.PromotionDoes | internal/queue/expiry_handler.go:186-232 | likewise for the promotion: whose reservation, with which deadline, counters and line after every outcome, and the TTL key armed exactly when the insert is acknowledged and its SET goes through |
| Outcomes.HeadIsLeast | internal/redis/scripts/waitlist_promote.lua:14-20 | the user promoted is the waiting one with the least (second, id) |
| Batches.BatchQueue | internal/queue/expiry_handler.go:120-251 | n serial expiries take exactly the first min(n, length) users off the line, whatever the promotions' inserts and compensations do |
| Batches.BatchCounters | internal/queue/expiry_handler.go:153-224 | they raise available, and lower reserved, by n less the promotions that keep their unit: insert acknowledged, or failed and not compensated |
| Batches.BatchRow | internal/queue/expiry_handler.go:204-224 | the i-th row ends expired; the i-th user in line holds a new promoted reservation if and only if there is one and the insert was not rejected |
| Batches.RejectedBatchDrainsTheLine | internal/queue/expiry_handler.go:208-224 | when every insert is rejected and undone, n units are free again, no reservation is made and min(n, length) users have lost their place |
| Batches.BatchTtls | internal/queue/expiry_handler.go:226-230 | the TTL keys gained are exactly those of the promotions whose insert was acknowledged and whose SET went through |
| Batches.OtherRowsUntouched | internal/queue/expiry_handler.go:158-159 | no other row changes |
| Batches.BatchMovesEveryoneUp | internal/waitlist/service.go:54-72 | exactly the users beyond the batch still wait, each moved up by exactly the number of promotions |
| Batches.QueueIsRank | internal/redis/scripts/waitlist_promote.lua:14-20 | the order of popping is the order of ZRANK |
| Retries.RetryErasure | internal/reservation/service.go:51-57 | in serial failure-free runs, deleting every Reserve whose key was already answered and is still alive changes no store, and each deleted call had returned the original reservation |
| Retries.ServingRemembers | internal/reservation/service.go:308-339 | after every call Redis remembers, for 24 h, what clients have been told |
| Retries.SerialRetries | internal/reservation/service.go:51-57 | hence of every serial failure-free run whatever the stores held at first |
| Retries.AnsweredForADay | internal/reservation/service.go:335-339 | a keyed Reserve less than 86400 s after the one that made a reservation is answered with that reservation and writes nothing, whatever was served in between |
| MissingKeys.MissingEqualsZero | internal/worker/reconciler.go:112-115 | missing and zero counters answer alike to every sequence of reserve, release, confirm, join, leave, promote and reconcile, failing reconciles included |
| MissingKeys.DroppingZeroesIsInvisible | internal/redis/scripts/reserve.lua:7-10 | hence deleting the keys of zero counters changes no answer |
| Reconcilers.WholePass | internal/worker/reconciler.go:46-84 | after a pass in which nothing fails every sale with status active has available = total_stock - unexpired reserved rows - pending and paid orders, and reserved = those rows; every other sale's counters are untouched, corrections count the active sales that had drifted, and a second pass makes none |
| Reconcilers.PassFreesTheOverdue | internal/worker/reconciler.go:88-132 | when the counters once agreed and only time has passed, a pass moves exactly the units of the reservations fallen due since from reserved back to available |
| Reconcilers.OneDoesExactly | internal/worker/reconciler.go:86-151 | one sale, for every outcome of its calls, with both counts written out: what is read as zero, what is written first, and what is answered |
| Reconcilers.PassTallies | internal/recovery/reconcile_startup.go:43-73 | sales processed and corrections count exactly the sales that answer without an error and those corrected, whatever fails for others |
| Reconcilers.PassIsPerSale | internal/worker/reconciler.go:60-70 | whatever fails, each sale the pass reached is as if it alone had been reconciled |
| Reconcilers.PassIsARun | internal/worker/reconciler.go:57-76 | a pass, whatever fails in it, does to the stores what one run of the interleaved system does |
| Reconcilers.PassMisses | internal/worker/reconciler.go:112-115 | a sale whose counts and SETs succeed still differs after the pass if and only if it did before and the failed GETs hid it |
| Reconcilers.Reconciler.ReconcileAllSales | internal/worker/reconciler.go:46-84 | the loop over the active sales computes `Pass` and its corrections under any failure of the query, the rows and the calls; when none fails every active sale equals the recomputation |
| Reconcilers.Reconciler.ReconcileSingleSale | internal/worker/reconciler.go:86-151 | one sale: both counts, GETs whose errors read as zero, the comparison, and two SETs that may fail separately |
| Reconcilers.Reconciler.ReconcileOnStartup | internal/recovery/reconcile_startup.go:27-86 | the startup loop computes the same `Pass`, up to the first unreadable row or the end of what arrives, and succeeds exactly when it read every active sale |
| Reconcilers.Reconciler.CountReserved | internal/recovery/reconcile_startup.go:90-94 | counts exactly the rows of the sale in status reserved with expires_at > now |
| Reconcilers.Reconciler.CountOrders | internal/recovery/reconcile_startup.go:100-104 | counts exactly the pending and paid orders of the sale |
| Services.ReservationService.Reserve | internal/reservation/service.go:39-137 | stores and answer equal the handler alone in the interleaved system, for every combination of failures; the only row it can add is for this user and sale, due reservationTTL after now |
| Services.ReservationService.Confirm | internal/reservation/service.go:139-251 | likewise, with the transaction and its compensations |
| Services.ReservationService.Release | internal/reservation/service.go:253-294 | likewise |
| Services.ReservationService.CheckIdempotency | internal/reservation/service.go:308-333 | finds the remembered reservation whose row still loads, or nothing |
| Services.ReservationService.SetIdempotency | internal/reservation/service.go:335-339 | stores the key with its deadline, or changes nothing |
| Services.ReservationService.GetOrderByIdempotencyKey | internal/reservation/service.go:296-306 | finds the one order with the key |
| Services.ExpiryHandler.HandleExpiredReservation | internal/queue/expiry_handler.go:120-184 | stores and answer equal the expiry handler alone in the interleaved system, promotion included; the only row it can add is a promoted one, due reservationTTL after now |
| Services.ExpiryHandler.PromoteNextUser | internal/queue/expiry_handler.go:186-251 | likewise from the promotion on |
| Services.ExpiryHandler.CreatePromoted | internal/queue/expiry_handler.go:204-232 | likewise from the insert on |
| Services.WaitlistService.Join | internal/waitlist/service.go:32-52 | the position reported is the one GetPosition then gives; each refusal exactly when the script refuses; a failed call is an error that may have joined the user |
| Services.WaitlistService.GetPosition | internal/waitlist/service.go:54-72 | rank plus one, within the line's length; a failed ZRANK answers like an absent user, a failed ZCARD is an error |
| Services.WaitlistService.Leave | internal/waitlist/service.go:74-88 | removes exactly the user, or refuses; a failed call is an error that may have removed the user |
| Stores.RedisClient.EvalReserve | internal/redis/scripts/reserve.lua:7-16 | the script's commands compute `ReserveLua` |
| Stores.RedisClient.EvalRelease | internal/redis/scripts/release.lua:7-10 | the script's commands compute `ReleaseLua` |
| Stores.RedisClient.EvalConfirm | internal/redis/scripts/confirm.lua:9-17 | the script's commands compute `ConfirmLua` |
| Stores.RedisClient.EvalJoin | internal/redis/scripts/waitlist_join.lua:10-24 | the script's commands compute `JoinLua` |
| Stores.RedisClient.EvalPromote | internal/redis/scripts/waitlist_promote.lua:8-25 | the script's commands compute `PromoteLua`, popping the unique least member |
| TokenBucket.Limiter.Allow | internal/redis/scripts/token_bucket.lua:7-30 | one request computes `TakeExpiring` on the user's bucket and leaves every other user's alone |
| TokenBucket.WindowBound | internal/redis/scripts/token_bucket.lua:14-30 | every window of every run allows at most capacity + rate * duration, when capacity <= 60 * rate |
| TokenBucket.WindowBoundExactly | internal/redis/scripts/token_bucket.lua:27-28 | for whole capacities the bound holds of every run if and only if capacity <= 60 * rate |
| TokenBucket.RunLowersPotential | internal/redis/scripts/token_bucket.lua:19-27 | tokens - rate * last falls by at least one for every allowed call, on any clock |
| TokenBucket.LazyRefill | internal/redis/scripts/token_bucket.lua:19-27 | same answers and remaining counts as a bucket that ticks every millisecond |
| TokenBucket.ExpiryIsHidden | internal/redis/scripts/token_bucket.lua:14-28 | when capacity <= 60 * rate the expiring key gives the same replies in every run as one never deleted |
| TokenBucket.ExpiryInvisibleExactly | internal/redis/scripts/token_bucket.lua:28 | for whole capacities that holds if and only if capacity <= 60 * rate |
| TokenBucket.BelowOneNothingIsAllowed | internal/redis/scripts/token_bucket.lua:23-25 | for capacities below one both laws hold at every rate |

## Left out

- ZeroOversell: in runs a reconcile of one sale is one step, whatever its calls do, although the code counts, reads and sets in separate calls; passes with other handlers in between are treated in Interrupted, one pass at a time. The guard it assumes is not in the code; it is exact for the ledger equation, and the guard that is exact for the promise is the one of ReconcileOversellsExactly.
- MostOrders: that the ceiling is reached is stated where something can be confirmed or reserved, or confirm.lua can take nothing; elsewhere it depends on which handlers are under way, and ReconcileOversellsExactly settles that for what a reconcile leaves.
- HalfWriteResells: for a sale that is sold out the condition is the definition of Resells, which then also looks at the handlers under way.
- SelfStabilising: the handlers' history flags are assumed consistent (only a handler past its transaction has lost a unit), which every run from the start guarantees.
- OrderlyRunsStayGood: leaves out runs in which a confirm or release write fails, a confirm's or release's script reply is lost, or two of Confirm, Release and expiry hold one reservation.
- BatchRow: in a batch only the promotions' inserts, their compensations and the SETs of their TTL keys fail. Foreign keys are part of the nondeterministic failure.
- Services.WaitlistService.GetPosition: its two reads see one state of the line.
- ExpiryIsHidden: the limiter's clock and Redis's expiry clock are one clock, and a key is gone from the millisecond its 60 s are over.
- WindowBoundExactly: the converse is for whole capacities; for fractional ones from one up WindowBound gives the sufficient direction.
- ExpiryInvisibleExactly: likewise, with ExpiryIsHidden.
- LazyRefill: numbers are exact reals; the decimal text in which Redis stores tokens is not modelled.
- Retries.RetryErasure: runs are serial and failure-free; a lost reply or a failed SET of the key makes a retry a new reservation.
- Item ids, order amounts and timestamps other than expires_at and confirmed_at, which decide nothing.
- Row locks and isolation inside Confirm's transaction: it takes effect at its commit.
- Pub/sub delivery of expiry events: an expiry may start at any time, any number of times, or never; the TTL keys are recorded but trigger nothing.
- Creating sales and changing their status: sales are provisioned at the start and a reconcile may hit any of them.
- HTTP routing, middleware, configuration, tracing, metrics, audit log contents, event publishing and the websocket hub.
- The read replica and Redis persistence: the one Redis never forgets except where a counter is arbitrary before a reconcile.
