# InnoTaxi: a verified model

This project models the services of InnoTaxi, a taxi platform, and proves what
they promise their callers. `dafny verify dfyconfig.toml` checks all of it.

The services are modelled as transition systems over shared stores. A state
holds the stores and a record for every call in flight; an event is one
repository call, remote call or cache call, which may fail. `Run` says which
sequences of events are possible, with any number of calls interleaved. Beside
each machine stands a class in the form of the Go code (`WalletService`,
`OrderService`, `AuthService`): its methods take the same steps in the same
order, before each step anything else may happen, and a ghost trace shows that
what they do is a run of the machine. What the stores do with its calls is an
argument of a method (`Database`, `World`, `Store`), so its contract also says
that nothing fails while they work.

* **Wallet** (`Ledger`, `WalletMachine`, `WalletRefinement`, `WalletTheorems`,
  `RecentTransactions`, `TransactionTimes`, `WalletService`). Charge and Refund
  as Postgres transactions with row locks and pending writes, and the atomic
  ledger that they refine; the cached list of recent transactions; what a row
  says, and when it was created.
* **Orders** (`OrderTypes`, `OrderMachine`, `OrderMoney`, `OrderPlacement`,
  `OrderLifecycle`, `OrderDrivers`, `OrderIndex`, `OrderTrips`, `OrderRights`,
  `OrderService`, `Pricing`, `Search`, `OrderWitnesses`). The sagas over wallet,
  orders table, drivers and search index; money, statuses, drivers and the index;
  what is ordered and who may act on it; the price; the search query and its
  pages; runs in which the sagas fall short.
* **Sessions** (`SessionMachine`, `Sessions`, `SessionChains`, `SessionForks`,
  `SessionLineage`, `SessionTimes`, `AuthService`). Login, refresh, logout and
  validation over a key store with expiry; how long tokens last.
* **Statistics** (`Statistics`). The loops over grouped events, and what the
  numbers count.

## What is assumed

* Postgres isolation is READ COMMITTED (`BeginTxx(ctx, nil)`): a statement sees
  the latest committed data, and a blocked FOR UPDATE reads the row again. The
  unique key (wallet_id, reference_id, type) is as
  `services/wallet_service/repository/pg_repo/create_transaction.go:14-20`
  describes it. `created_at` of a row is the start of its transaction.
* A step that fails inside a transaction rolls it back at once: the deferred
  Abort is the same step. A call waiting for a lock waits, or ends in an error.
* Postgres refuses further statements after a unique violation. The machine
  lets the refetch that follows one succeed, which allows more runs; the branch
  is proved unreachable.
* Order ids and session ids are fresh UUIDs. Order ids are never references of
  other wallet callers. Wallets start at balance 0, rows in status created.
  Driver ids are not empty, and an empty comment arrives as none.
* A remote call or statement of an order or auth call takes effect and is
  acknowledged, takes effect and reports an error, or has no effect. A wallet
  request of order_service may besides be executed late, repeatedly or never,
  whatever its sender was told.
* A token is either one that the service signed and handed out, or does not
  verify. Nothing in a token says whether it is an access or a refresh token,
  as in the code, so Validate takes either while the access key is live.
* The wallet service, when a request reaches it, executes it and answers; every
  error of order_service that is not a refusal of its own is `Unavailable`.
* The mathematical library satisfies `Pricing.MathLibrary.Lawful`.
* The search engine answers with some ranking of what the query selects.
  `Search.Engine` leaves open how finely it stores dates and what it adds to an
  upper bound given in whole seconds.

## Where the code promises less

* A COMMIT that takes effect while Finish reports an error skips the
  invalidation: a cached list can be stale although every Invalidate succeeds
  (`UnacknowledgedCommitLeavesStaleCache`, and exactly when for one commit:
  `StaleExactlyWhen`). A list call that fetches before a commit and caches after
  its invalidation leaves a stale list although nothing failed
  (`LateWriteLeavesStaleCache`). Over all runs: `CurrentIffNothingSince`.
* An AssignDriver that takes effect while it reports an error leaves the row
  assigned, the driver released and the document behind, although every
  IndexOrder succeeded (`FinishedCallMirrors` says exactly when,
  `LostAssignmentLeavesStaleDocument` shows one).
* A Charge that takes effect but is reported as failed leaves a rider who paid
  for an order that is never stored, and no refund is ever asked for
  (`PaidButNotStored`: exactly then; `PaidForNothing` is such a run).
* A release that takes effect makes the driver of a still active order
  available until the status write (`ReleaseFreesActiveDriver`: exactly then),
  and another order can take him meanwhile (`TwoOrdersShareDriver`). Apart from
  that window active orders do not share drivers.
* Search bounds with fractions of a second are cut
  (`SelectsExactlyIffFaithful`), and pages are stable only without ties in
  `created_at` (`TiesBreakPages`).
* A login has one live session as long as no Refresh passes the session check
  while another is between its own check and DeleteRefreshSession. Whenever one
  does, both can go on to a live session (`OverlapForks`, `BrokenGuardForks`,
  `TwoLiveSessions`).

## Model

| member | source | states |
|---|---|---|
| Ledger.ApplyKeeps | services/wallet_service/service/charge.go:24-51 | One Charge or Refund run alone keeps wallet ids and transaction keys unique and every balance equal to credits minus debits; the book changes exactly when the answer is a newly created record, by one row and one wallet |
| Ledger.SerialKeeps | services/wallet_service/service/charge.go:24-51 | The same over any serial run of ledger operations |
| Ledger.SerialIdempotent | services/wallet_service/service/refund.go:29-34 | In any serial run, calls with one user, reference and type that are accepted all carry one record, and one call at most created it |
| Ledger.OpenKeeps | services/wallet_service/repository/pg_repo/create_wallet.go:14-31 | A new wallet with balance 0 keeps the balance equation |
| WalletRefinement.CallStepFrame | services/wallet_service/repository/pg_repo/get_wallet_for_update.go:15-35 | A step of one call leaves the records and row locks of every other call alone, and the committed tables unless it is COMMIT |
| WalletRefinement.CommitKeeps | services/wallet_service/repository/pg_repo/pg_atomic.go:22-24 | COMMIT of a prepared call keeps what every other call has checked under its own row lock |
| WalletRefinement.StepKeepsInv | services/wallet_service/repository/pg_repo/get_wallet_for_update.go:18-35 | In every step: a call past the lock holds it, the wallet it read is the committed one, and what it looked up and checked is still so |
| WalletRefinement.DecidingCallStep | services/wallet_service/service/charge.go:24-51 | The step at which a call is decided changes the committed tables and gives the call an outcome exactly as the atomic ledger does for its request |
| WalletRefinement.SilentCallStep | services/wallet_service/service/charge.go:24-51 | Every other step changes neither the committed tables nor any outcome |
| WalletRefinement.RunRefines | services/wallet_service/service/transactional_operation.go:13-24 | Main theorem: every interleaving of any number of calls, failing anywhere, has the tables and the answers of a serial run of the atomic ledger in commit order |
| WalletTheorems.BalancesMatchRows | services/wallet_service/service/charge.go:37-50 | In every reachable state each committed balance equals committed credits minus committed debits and is not negative, as long as the total ever credited fits int64 |
| WalletTheorems.InsertNeverLosesRace | services/wallet_service/repository/pg_repo/create_transaction.go:34-46 | No reachable call is in the lost-race branch; every insert about to happen neither waits nor violates the constraint, and yields a new row |
| WalletTheorems.EveryMoveHasItsRow | services/wallet_service/repository/pg_repo/update_balance.go:10-21 | A step that moves a committed balance appends in the same step exactly one row, of that wallet, whose signed amount is the move |
| WalletTheorems.RetriesAreReplays | services/wallet_service/service/charge.go:30-35 | Over concurrent calls and retries, also with other amounts: all accepted calls of one user, reference and type hold the same stored record, and at most one was told it is new |
| WalletTheorems.FailedCallLeavesNoTrace | services/wallet_service/service/transactional_operation.go:18-23 | A call is in the serial run if and only if it has an outcome; one that failed before its COMMIT took effect changed nothing |
| WalletTheorems.SerialOrderIsRealTime | services/wallet_service/repository/pg_repo/pg_atomic.go:18-24 | A call answered before another one arrived comes first in the serial run |
| WalletTheorems.PostedOnce | services/wallet_service/service/charge.go:24-51 | No call appears twice in a sound serial run |
| WalletTheorems.LockHoldersNeverWait | services/wallet_service/repository/pg_repo/get_wallet_for_update.go:15-35 | No deadlock: whoever holds a wallet lock is a call in its transaction whose next statement can be carried out at once, and the lock is free when that call ends |
| TransactionTimes.NewRowsBearTheirStart | services/wallet_service/repository/pg_repo/create_transaction.go:21-32 | In every interleaving the record of a call that was told it is new has the kind, amount and reference of the call, and was created at the moment of its BEGIN, of which there is only one |
| TransactionTimes.EveryRowHasItsCall | services/wallet_service/service/charge.go:37-50 | In every interleaving each committed row was posted by exactly one call, on the wallet of the user of that call |
| RecentTransactions.CachedListsWereReal | services/wallet_service/service/list_transactions.go:12-34 | In every interleaving every cached list and every list handed to a caller is the newest twenty of a prefix of the wallet table |
| RecentTransactions.CachedListWasNewest | services/wallet_service/repository/redis_repo/redis_repo.go:28-60 | Such a prefix is a table that some earlier state really had |
| RecentTransactions.RunKeepsListsOwn | services/wallet_service/service/list_transactions.go:12-16 | In every interleaving a list call works on the wallet of the user who asked |
| RecentTransactions.QuietCacheIsCurrent | services/wallet_service/service/charge.go:59-63 | With one call at a time, acknowledged commits and successful invalidations, a cached list is the newest twenty now |
| RecentTransactions.UnacknowledgedCommitLeavesStaleCache | services/wallet_service/service/charge.go:52-63 | Witness that successful invalidations alone are not enough: one call at a time, a COMMIT that took effect but reported an error, and a stale list |
| RecentTransactions.StaleExactlyWhen | services/wallet_service/service/refund.go:54-58 | After a commit of a new row an up-to-date cached list stays right if and only if the commit was acknowledged and the key deleted, or twenty rows at least as new hide the row |
| RecentTransactions.CurrentIffNothingSince | services/wallet_service/service/list_transactions.go:18-31 | In every interleaving, whatever failed: a cached list is the newest twenty rows now if and only if every row of its wallet committed after the list was fetched is hidden behind twenty rows at least as new |
| RecentTransactions.LateWriteLeavesStaleCache | services/wallet_service/service/list_transactions.go:24-31 | Witness that overlapping calls can leave a stale list with every step acknowledged: rows fetched, a refund committed and invalidated, then the list written |
| WalletService.WalletService.Start | services/wallet_service/repository/pg_repo/pg_atomic.go:18-20 | BEGIN: the transaction begins at the time of the database, or the call has failed because it is down |
| WalletService.WalletService.GetWalletForUpdate | services/wallet_service/repository/pg_repo/get_wallet_for_update.go:18-35 | A found wallet is the committed one of this user, and its lock, free before, is now held by this call; no such wallet rejects the call; an error fails it, and is given only if the database fails or another call holds the lock |
| WalletService.WalletService.FindTransactionByReference | services/wallet_service/repository/pg_repo/find_transaction_by_reference.go:14-30 | A found row is stored, has this wallet, reference and type, and makes the call a replay of it; missing means that no stored row has that key, and the call goes on if funds suffice and is rejected otherwise; an error exactly if the database fails |
| WalletService.WalletService.UpdateBalance | services/wallet_service/repository/pg_repo/update_balance.go:10-21 | Without an error the new balance is pending for this call; the committed tables are not touched; an error fails the call, exactly if the database does |
| WalletService.WalletService.CreateTransaction | services/wallet_service/repository/pg_repo/create_transaction.go:21-47 | The returned record has this wallet, reference and type; it is new, with this amount, the BEGIN time of the call as created_at, and pending, if and only if no stored row has that key, and is the stored row otherwise; no error while the database works |
| WalletService.WalletService.Finish | services/wallet_service/repository/pg_repo/pg_atomic.go:22-24 | COMMIT: the pending balance and row are in the tables exactly if it took effect, and an error is given exactly if it was not acknowledged; the row locks of the call are free |
| WalletService.WalletService.RollBack | services/wallet_service/repository/pg_repo/pg_atomic.go:26-30 | Abort drops the pending writes and exactly the row locks of this call, which has failed; the tables are not touched |
| WalletService.WalletService.Invalidate | services/wallet_service/repository/redis_repo/redis_repo.go:55-60 | The key of this wallet and no other is gone exactly if the deletion took effect; the call is answered either way |
| WalletService.WalletService.Charge | services/wallet_service/service/charge.go:15-66 | The response is the answer that the ledger refinement gives this call; a success is a stored debit of this user and reference; a new one was not stored before and bears the amount and the BEGIN time of the call; each refusal is given only for its reason, and an internal error only if the database fails or the wallet was locked by another call |
| WalletService.WalletService.Refund | services/wallet_service/service/refund.go:14-61 | The same for a credit, which is never refused for want of funds |
| WalletService.WalletService.CreateWallet | services/wallet_service/repository/pg_repo/create_wallet.go:14-31 | An error exactly if the user has a wallet or the INSERT is not acknowledged; a wallet with balance 0 exactly if it takes effect |
| WalletService.WalletService.SetRecent | services/wallet_service/repository/redis_repo/redis_repo.go:44-53 | The list is written under its wallet exactly if the cache takes it; the caller gets it either way |
| WalletService.WalletService.GetRecent | services/wallet_service/repository/redis_repo/redis_repo.go:28-42 | The cached list of this wallet exactly if the cache answers and has one; otherwise the call goes on to the table |
| WalletService.WalletService.SelectRecent | services/wallet_service/repository/pg_repo/list_recent_transactions.go:11-30 | The rows of the answer, which are the newest twenty of the wallet in the table; an error exactly if the database fails |
| WalletService.WalletService.ListRecentTransactions | services/wallet_service/service/list_transactions.go:12-34 | A returned list was the newest twenty rows of the wallet of this very user at some moment up to now; an error only if the database fails or the user had no wallet |
| OrderTypes.RoundTripIffNormal | services/order_service/entity/repository/order_document.go:28-84 | An order survives conversion to a document and back if and only if no optional field holds its zero value |
| OrderTypes.RoundTripNormalises | services/order_service/entity/repository/order_document.go:28-84 | The round trip is an idempotent normalisation with the same document |
| OrderLifecycle.ReachableOrdersRoundTrip | services/order_service/entity/repository/order_document.go:28-84 | In every interleaving every stored or returned order survives the round trip unchanged |
| OrderTrips.TripsNeverChange | services/order_service/repository/pg_repo/update_order_status.go:14-38 | In every interleaving an order keeps its rider, taxi type, start, destination, price and creation time from its INSERT on, and its driver once it has one |
| OrderTrips.StoredTripWasOrdered | services/order_service/repository/pg_repo/create_order.go:12-38 | In every interleaving each stored order is the trip that one CreateOrder asked for: its rider, taxi type, start, destination and price, and the time of its INSERT |
| OrderRights.GateOpensIffAllowed | services/order_service/service/cancel_order.go:18-25 | A call goes on with a row exactly if the row is of this rider or driver and in the right status; with the row of another it answers not found |
| OrderRights.OnlyTheEntitledAct | services/order_service/service/cancel_order.go:12-51 | In every interleaving a call to cancel, start, complete or rate writes a row, asks for a refund, frees a driver or returns an order only after reading a version of the row with which its caller may do this; what it writes is that row with this status or rating, the refund is the price to the rider, the driver is the one on the row |
| OrderRights.OrdersNameTheirActors | services/order_service/service/start_trip.go:11-36 | In every interleaving an order is cancelled and rated only at the word of its own rider, started and completed only at that of the driver on its row |
| OrderMoney.OrderPaidAtMostOnce | services/order_service/service/create_order.go:24-45 | In every interleaving, with wallet requests lost, late or repeated: at most one debit and one credit an order, each at its price and on its rider, no credit without the debit, and the net is 0 or minus the price |
| OrderMoney.CancelledWasRefunded | services/order_service/service/cancel_order.go:28-51 | An order whose row was ever cancelled has both its debit and its credit from then on, net 0 |
| OrderMoney.StoredOrderWasPaid | services/order_service/repository/pg_repo/create_order.go:12-38 | Every stored order has its debit, at the price and of the rider that the row shows |
| OrderMoney.PrefixGrows | services/order_service/service/create_order.go:24-32 | Bills, debits and credits are never lost along a run |
| OrderPlacement.PaidButNotStored | services/order_service/service/create_order.go:30-45 | In every interleaving, a debit without a stored order after CreateOrder is over: a refund was asked for if and only if the charge was not reported as failed |
| OrderPlacement.ErredStaysBlank | services/order_service/service/create_order.go:30-32 | Once the charge is reported as failed, the order is never stored and no refund is ever asked for, even if the charge took effect |
| OrderWitnesses.PaidForNothing | services/order_service/service/create_order.go:30-32 | Witness run of a charge that was made and reported as failed: every call is over, the rider is debited, there is no order and no refund request |
| OrderLifecycle.RatingIsWrittenOnce | services/order_service/repository/pg_repo/rate_order.go:14-42 | In every interleaving a rating is in 1..5 and, once set, neither it nor its comment changes |
| OrderLifecycle.StepFollowsEdge | services/order_service/repository/pg_repo/update_order_status.go:14-38 | When calls on one order do not overlap, a step changes its status by one edge of created, driver_assigned, in_progress, completed, or to cancelled from the first two |
| OrderLifecycle.StatusOnlyMovesForward | services/order_service/service/start_trip.go:19-29 | In such runs a later status is the same or strictly later, and completed and cancelled never change again |
| OrderLifecycle.RatedOrdersAreCompleted | services/order_service/service/rate_trip.go:12-33 | In such runs a rated order is completed and has a driver |
| OrderDrivers.ClaimsAreSeparated | services/driver_service/repository/repository.go:105-132 | In every interleaving two claims of one driver are separated by a write of available to that driver |
| OrderDrivers.ActiveOrdersHaveTheirOwnDrivers | services/order_service/service/create_order.go:68-92 | Calls on one order not overlapping, the status write after an effective release taking effect, AssignDriver errors meaning no effect, held drivers not setting themselves available: active orders have distinct drivers, none available, unless a release of theirs took effect and the status write after it is to come |
| OrderDrivers.ReleaseFreesActiveDriver | services/order_service/service/complete_trip.go:24-33 | In such runs every release leaves its order active with its driver, and he is available if and only if the release took effect |
| OrderWitnesses.TwoOrdersShareDriver | services/order_service/service/complete_trip.go:24-33 | Witness run under the same conditions in which another order takes the released driver before the status write: two active orders share him |
| OrderDrivers.StepKeepsHolds | services/order_service/service/complete_trip.go:24-33 | Each step keeps: a driver is held by one order at most, and a held driver is not available |
| OrderDrivers.NoDriverIsStranded | services/order_service/service/create_order.go:78-85 | With acknowledged claims and releases that take effect, and drivers not putting themselves on a trip, whoever is on a trip is held by an order: none is left behind by a compensation |
| OrderDrivers.BusyDriversHaveAnOrder | services/order_service/service/cancel_order.go:42-46 | In such runs, with nothing in flight, a driver on a trip is the driver of an active order |
| OrderIndex.DocumentsWereRows | services/order_service/repository/es_repo/index_order.go:14-38 | In every interleaving each indexed document shows, field by field, a version that its row really had |
| OrderIndex.ReturnedOrdersWereRows | services/order_service/service/create_order.go:47-60 | So is every order that a call returns |
| OrderIndex.MatchesIffIndexedLast | services/order_service/service/cancel_order.go:48-55 | Calls on one order not overlapping, its document matches its row if and only if its last write, to table or index, was to the index; otherwise the document shows an earlier stage |
| OrderIndex.FinishedCallMirrors | services/order_service/service/create_order.go:78-91 | After a finished call whose last IndexOrder took effect the document matches the row if and only if no AssignDriver of the call wrote the row and reported an error |
| OrderWitnesses.LostAssignmentLeavesStaleDocument | services/order_service/service/create_order.go:78-84 | Witness run in which AssignDriver writes the row but reports an error: a finished CreateOrder whose last IndexOrder took effect leaves a document behind its row |
| OrderIndex.CleanRunsMirror | services/order_service/service/complete_trip.go:30-37 | Calls on one order not overlapping and no acknowledgement lost, every order at rest has a document that matches its row |
| OrderService.OrderService.InsertOrder | services/order_service/repository/pg_repo/create_order.go:12-38 | Exactly if the INSERT takes effect the row is stored: the trip of the input at the billed price, created and without driver; the row is returned exactly if it is acknowledged, and otherwise a refund request for the bill is out |
| OrderService.OrderService.IndexOrder | services/order_service/repository/es_repo/index_order.go:14-38 | Exactly this document is overwritten, exactly if the call takes effect; the order call goes on either way |
| OrderService.OrderService.ClaimAvailableDriver | services/driver_service/repository/repository.go:110-132 | A found driver was available and of the type and is now on trip, nobody else changed; none found means none was available; an error exactly if the call is not acknowledged |
| OrderService.OrderService.AssignDriver | services/order_service/repository/pg_repo/assign_driver.go:14-39 | The stored row, which had no driver, gets this one and status driver_assigned and nothing else exactly if the UPDATE takes effect; it is returned exactly if that is acknowledged |
| OrderService.OrderService.ReleaseDriver | services/driver_service/repository/repository.go:77-89 | A registered driver is available exactly if the call takes effect, nobody else changes; the order call goes on either way |
| OrderService.OrderService.GetOrderByID | services/order_service/repository/pg_repo/get_order.go:14-34 | The stored row; the call goes on exactly if its caller may act on it, and a refund request over its price goes out exactly if it is about to refund; an error exactly if the database fails |
| OrderService.OrderService.UpdateOrderStatus | services/order_service/repository/pg_repo/update_order_status.go:14-38 | The stored row gets this status and nothing else, whatever the status was, exactly if the UPDATE takes effect; a returned row is that row; an error only if it is not acknowledged |
| OrderService.OrderService.RateOrder | services/order_service/repository/pg_repo/rate_order.go:14-42 | An unrated stored row gets this rating and comment and nothing else exactly if the UPDATE takes effect; a returned row is that row; no such row means already rated; an error only if it is not acknowledged |
| OrderService.OrderService.CreateDriver | services/driver_service/repository/repository.go:28-55 | An error exactly if the driver is registered or the insert is not acknowledged; a new driver is offline, and a registered one is never changed |
| OrderService.OrderService.UpdateStatusByUserID | services/driver_service/repository/repository.go:77-89 | An error exactly if there is no such driver or the update is not acknowledged; he has the status exactly if it takes effect, and no other driver changes |
| OrderService.OrderService.TryAssignDriver | services/order_service/service/create_order.go:68-92 | The order as it was, or assigned to a driver and the same trip; with nothing failing, as it was only if no driver of the type was available |
| OrderService.OrderService.CreateOrder | services/order_service/service/create_order.go:13-61 | Invalid taxi type and location are refused exactly then and change nothing; otherwise a fresh order is billed at the price of the trip; a returned order was stored, paid for, is the trip that was asked for, and is created or assigned; unavailable only if something fails or the wallet refuses |
| OrderService.OrderService.CancelOrder | services/order_service/service/cancel_order.go:12-58 | A returned order is this rider's, cancelled, was stored, and has its debit and credit in the ledger; not found only if the stored order, if any, is another rider's, not cancellable only if it is his and past driver_assigned, unavailable only if something fails |
| OrderService.OrderService.StartTrip | services/order_service/service/start_trip.go:11-36 | A returned order is this driver's, in progress, was stored and paid for; not found only if the stored order, if any, is not this driver's, not startable only if it is his and not in driver_assigned, unavailable only if something fails |
| OrderService.OrderService.CompleteTrip | services/order_service/service/complete_trip.go:11-40 | A returned order is this driver's, completed, was stored and paid for; not found only if the stored order, if any, is not this driver's, not completable only if it is his and not in progress, unavailable only if something fails |
| OrderService.OrderService.RateTrip | services/order_service/service/rate_trip.go:11-50 | Refused as invalid exactly outside 1..5; a returned order is this rider's and carries the rating and comment, and so does the stored row when the call returns; not found, not ratable and already rated only if the stored order, if any, is another rider's, his but not completed, or rated; unavailable only if something fails |
| Search.BuildSearchQuery | services/order_service/repository/es_repo/search_orders.go:18-57 | On every engine the built query selects exactly the documents of the filter with its dates cut to whole seconds; match_all exactly when nothing is set |
| Search.SelectsExactlyIffFaithful | services/order_service/repository/es_repo/search_orders.go:27-36 | The cut dates select what the filter asks for, for every document, if and only if the bounds are faithful, read off the filter; whole seconds on an engine that compares instants exactly |
| Search.SearchFindsRows | services/order_service/repository/es_repo/search_orders.go:18-57 | Over an index that mirrors the table, a ranking of what is found holds exactly the orders whose own rows the filter asks for, each as its row is, the newest row first |
| Search.RankingIsUnique | services/order_service/repository/es_repo/search_orders.go:53-56 | With no two matches equally new there is one ranking |
| Search.PagesConcatenate | services/order_service/repository/es_repo/search_orders.go:76-83 | Then consecutive pages, each from an answer of its own, are the match list from its start, with no gap or duplicate |
| Search.TiesBreakPages | services/order_service/repository/es_repo/search_orders.go:76-83 | With a tie two allowed answers exist between which a document is repeated and another lost |
| Search.SearchOrders | services/order_service/repository/es_repo/search_orders.go:70-107 | The requested page, converted in order, of a ranking of exactly the documents found, and their total number |
| Search.PageOf | services/order_service/service/search_orders.go:12-24 | A limit that is unset or negative becomes the default, one above 100 becomes 100, any other is kept; a negative offset becomes 0, any other is kept |
| Sessions.StepKeepsKeys | services/auth_service/service/token.go:20-62 | In every step the keys of a session are written only by the call that opened it, and a token is handed out only after both saves were acknowledged |
| Sessions.DeadStaysDead | services/auth_service/repository/redis_repo/redis_repo.go:30-68 | In every interleaving a handed-out session whose key is deleted or expired never has it live again |
| Sessions.RetiredForGood | services/auth_service/service/refresh.go:26-33 | Once Refresh has retired a session no later check of Validate or Refresh accepts a token carrying it |
| SessionTimes.TokensLastTheirLifetime | services/auth_service/service/token.go:22-43 | In every interleaving a token that was handed out was signed at one moment, parses up to one second before that moment plus its lifetime, and never from then on |
| SessionChains.OneLiveSessionPerLogin | services/auth_service/service/refresh.go:11-36 | With failures at any store call and calls overlapping, as long as none passes the check of a session that another is retiring: at most one session of the refreshes of a login has a live key |
| SessionForks.OverlapForks | services/auth_service/service/refresh.go:18-35 | The converse, token lifetimes being positive: whenever a call passes the check of a session that another is retiring, the run can go on, both refreshes succeeding, to two live sessions of one login |
| SessionForks.BrokenGuardForks | services/auth_service/service/refresh.go:18-35 | So every run that breaks the guard has a prefix from which two live sessions of one login are reached |
| SessionForks.TwoLiveSessions | services/auth_service/service/refresh.go:18-35 | Witness run: one login, two refreshes of its token that overlap, two live sessions |
| SessionLineage.AcceptedClaimsTraceToLogin | services/auth_service/service/validate.go:16-36 | Accepted claims: the token verified and was unexpired (section 4.1.4 of RFC 7519), the session of its jti (section 4.1.7) was live, the role held, and the session goes back through refreshes to a login whose credential check returned this user and these roles |
| AuthService.AuthService.SaveAccessSession | services/auth_service/repository/redis_repo/redis_repo.go:30-32 | The key is set with its time to live exactly if the call takes effect; an error exactly if it is not acknowledged |
| AuthService.AuthService.SaveRefreshSession | services/auth_service/repository/redis_repo/redis_repo.go:34-36 | The same for the refresh key; without an error the pair may be handed out |
| AuthService.AuthService.RefreshSessionExists | services/auth_service/repository/redis_repo/redis_repo.go:42-44 | Active exactly if the key is there and unexpired; an error exactly if the store is down |
| AuthService.AuthService.AccessSessionExists | services/auth_service/repository/redis_repo/redis_repo.go:38-40 | The same for the access key, with what Validate makes of it |
| AuthService.AuthService.DeleteAccessSession | services/auth_service/repository/redis_repo/redis_repo.go:46-48 | The key is gone exactly if the call takes effect; an error exactly if it is not acknowledged |
| AuthService.AuthService.DeleteRefreshSession | services/auth_service/repository/redis_repo/redis_repo.go:50-52 | The same for the refresh key |
| AuthService.AuthService.IssueTokenPair | services/auth_service/service/token.go:20-62 | Both tokens carry the same user, roles and sid and expire their own lifetime after the moment of the call, cut to the second; a pair is returned exactly if both saves are acknowledged |
| AuthService.AuthService.Login | services/auth_service/service/login.go:9-15 | A pair exactly if the credentials are good and both saves are acknowledged; it carries the user that the credential check answered and was signed while the call ran |
| AuthService.AuthService.Refresh | services/auth_service/service/refresh.go:11-36 | A returned pair carries the user of an unexpired token and was signed while the call ran, and the old session has no live key any more; invalid only if the token is bad or its session dead, an error only if the store fails |
| AuthService.AuthService.Logout | services/auth_service/service/logout.go:14-26 | Afterwards Validate refuses this access token and Refresh this refresh token; an error only if the store fails |
| AuthService.AuthService.ReadToken | services/auth_service/service/logout.go:28-50 | The sid exactly if the token verifies and is unexpired |
| AuthService.AuthService.Validate | services/auth_service/service/validate.go:16-36 | Accepted claims are the token's, live, of the required role, and go back to a login; invalid only if the token is bad or its session dead, forbidden only if the role is missing, an error only if the store is down |
| Pricing.HaversineInRange | services/order_service/service/pricing.go:33-34 | The haversine term is in 0..1 for all latitudes and longitudes |
| Pricing.DistanceIsGreatCircle | services/order_service/service/pricing.go:26-37 | The distance is the earth radius times the angle in 0..pi whose cosine is the inner product of the two points |
| Pricing.PriceFollowsDistance | services/order_service/service/pricing.go:12-52 | For every trip there is an angle in 0..pi between the two points of the sphere, and the price differs by at most a half from 200, 300 or 500 plus 15, 25 or 40 times 6371 times that angle |
| Pricing.PriceWithinBounds | services/order_service/service/pricing.go:39-52 | The price is positive, at least the base fare, at most base plus the rounded rate times pi times 6371, and fits int64 |
| Pricing.BetterTaxiCostsMore | services/order_service/service/pricing.go:13-21 | Economy costs at most comfort, comfort at most business, for the same trip |
| Pricing.BoundsAreReached | services/order_service/service/pricing.go:39-52 | Both bounds are exact: staying put costs the base fare, the antipode the maximum |
| Pricing.RoundIsNearest | services/order_service/service/pricing.go:44-44 | Rounding is to the nearest integer, halves away from zero |
| Statistics.GetOrderStats | services/analytic_service/repository/ch_repo/get_order_stats.go:29-47 | For any grouped rows both maps hold the sums of their columns, and the sum of either map is the total |
| Statistics.GetDailyOrderCounts | services/analytic_service/repository/ch_repo/get_daily_order_counts.go:26-42 | One result a row, in order, with its day and its count |
| Statistics.StatsCountOrders | services/analytic_service/repository/ch_repo/get_order_stats.go:16-21 | Each count is the number of distinct orders in the half-open range with that status or taxi type, the total the number of all of them |
| Statistics.RangeBounds | services/analytic_service/repository/ch_repo/get_order_stats.go:16-21 | An order is counted from the first instant of the range and not at its last; an empty range counts nobody |
| Statistics.DailyCountsAddUp | services/analytic_service/repository/ch_repo/get_daily_order_counts.go:12-18 | Each daily count is the number of orders of its day, and they add up to the same number of orders in the range |
| Statistics.DayHasMidnights | services/analytic_service/repository/ch_repo/get_daily_order_counts.go:12-18 | An order is of the day in whose 86,400,000 milliseconds it was created |
| Statistics.RedeliveryIffKnown | services/analytic_service/repository/ch_repo/insert_order_event.go:10-20 | Ingesting an event changes nothing a query reads if and only if its order is known with the same event, or a later ingested one hides it |
| Statistics.RedeliveriesAreInvisible | services/analytic_service/app/db/clickhouse/schema/create_order_events.sql:1-9 | With one event an order, any redelivery in any order at any times changes nothing a query reads |
| Statistics.GroupsCountMembers | services/analytic_service/repository/ch_repo/get_order_stats.go:33-42 | The counts of any selection of groups add up to the number of members selected, each counted once |
| Statistics.RangesTile | services/analytic_service/repository/ch_repo/get_order_stats.go:19-19 | Adjacent half-open ranges share no order and lose none |

## Left out

- WalletTheorems.BalancesMatchRows: the balance column is int64 and `Wrap64` models its wrap-around; the equation is stated while the total ever credited to the wallet fits, which is what the column can hold.
- OrderDrivers.ActiveOrdersHaveTheirOwnDrivers: says nothing of the moment between a release that took effect and the status write that follows, where `TwoOrdersShareDriver` refutes it.
- SessionChains.OneLiveSessionPerLogin: says nothing of runs that break the guard; each can go on, from the step that broke it, to two live sessions (`BrokenGuardForks`).
- HTTP, gRPC, nginx, JSON and protobuf: a remote call is its effect and its acknowledgement.
- Kafka consumers and producers: the two best-effort publishes of order_service change no store that it reads; redelivery is modelled where events are counted.
- The difference between a wallet that refuses a charge for want of funds and one that cannot be reached: both are `Unavailable` to the caller of CreateOrder.
- bcrypt, token cryptography and UUID generation, and their own errors.
- GetWallet, GetOrder, ListOrders, FindByUserID, FindByStatus, user profiles, roles and registration: single statements without a property across functions.
- Driver ratings and user registration events of analytic_service.
- UpdateTaxiTypeByUserID is an event of the order machine without a method in the class.
- Enum mappings, configuration, migrations, deployment, logging; the range check that refuses `from` after `to`.
- Floating-point rounding and NaN in prices; the model computes over reals.
- int64 overflow of statistics counts, which are numbers of stored rows.
- Errors while a result set is read: the loops of the statistics take the rows that a query answered.
- Redis time-to-live values below the resolution of its clock, and eviction before expiry; expiry of the transaction cache is an event that may happen at any time.
- Limits of the search engine itself on deep pages.
