# Verified model of the transaction verification service

The service polls pending deposit sessions and withdrawals, claims each one, checks it on
chain, and settles it against the user's USD balance. This project models that protocol in
Dafny and proves what it keeps, over every interleaving of its threads and every pattern of
failing calls. `dafny verify dfyconfig.toml` checks the whole project.

## How it is laid out

| file | part of the service |
|---|---|
| `Ledger.dfy` | the settlement protocol as a transition system: tables, workers with program counters, the withdrawal poller; one step is one database or chain call and how it came out |
| `Steps.dfy`, `Paths.dfy` | what one step changes and leaves unchanged; runs that take an item through the protocol, call by call |
| `Exclusion.dfy`, `Settlement.dfy`, `Reopening.dfy`, `Finished.dfy`, `Records.dfy`, `Credits.dfy`, `Conservation.dfy`, `Reservation.dfy`, `GivenBack.dfy`, `FailedOrDebited.dfy` | invariants over every run of the protocol, the exact conditions they hold under, and runs showing what happens otherwise |
| `RoundTrips.dfy` | one deposit or withdrawal from its opening to its end, and what that leaves of the balance |
| `Service.dfy` | the workers as written: a class over the tables, retry loops and settlement steps, other threads running between any two calls; each call is proved to be a step of `Ledger` |
| `Paging.dfy`, `SessionPoller.dfy`, `WithdrawalPoller.dfy` | the two paging loops over a pending set that shrinks while it is paged |
| `WorkerPool.dfy` | the semaphore worker pool |
| `Helius.dfy`, `PaymentMatch.dfy` | the chain client's scans, and the settlement's own scan compared with them |
| `Currency.dfy` | conversion to cents |
| `WsHub.dfy` | the WebSocket hub |
| `Wrappers.dfy`, `Numbers.dfy` | the option type, powers of two |

Every call's success, every chain answer, the clock, the order of map iteration and the choice
of thread are arbitrary. In methods they are nondeterministic assignments; in the protocol they
are part of the event.

## What is assumed

- The claim (read the status, write "processing", commit) is one atomic step. The code runs it in
  a transaction at the default isolation level with a plain SELECT, which does not by itself
  guarantee that (internal/application/verificationservice/verification_service_impl.go:267-292).
- A call that fails leaves the store as it was. Rows are never deleted, and a row's user, amounts
  and reservation do not change after it is opened.
- Other services may open sessions and withdrawals, approve, cancel pending ones, and set a
  non-empty hash. They write no other status.
- Session expiry and the start of a session's worker may happen at any time for any session: this
  covers snapshots of any age.
- A session is found paid only by a transfer that settles it, in a transaction with a signature, as the
  settlement's scan demands (`PaymentMatch.FindPayment`); the transfer's amount and the rate are not
  negative. Which transfer a withdrawal's check finds is arbitrary.
- Amounts and rates are exact reals, cents unbounded integers. A NULL balance amount counts as zero,
  as the code reads it.
- Each theorem's further hypotheses are a predicate on steps that the run obeys: `Undisturbed`,
  `NoResetOfSettled`, `NoLateFailure`, `ClientAnswers`, `Allowed`. Runs given as counterexamples obey
  `NothingFails` but for the calls named.

## Where the code and expectation part

- The guards against a second transaction for an item never fire, because the row mapping drops the
  two item ids (internal/repositories/transactionrepo/transaction_repo_impl.go:245-263), and no
  constraint in db/schema/schema.sql backs them. The model lets them fire or not; no theorem relies
  on them. So one failing completed-status write is enough to credit a session twice
  (`Settlement.LateFailureSettlesTwice`), and to release a reservation that is no longer held
  (`Reservation.LateFailureLosesTheReservation`).
- Nothing in the store ties a transfer to one session. Two pending sessions can both be credited for one
  transfer exactly when they wait for the same kind of transfer to the same wallet, and then nothing
  need fail (`Records.OneTransferCreditsTwoExactlyIfAlike`). The schema gives each wallet one session
  (db/schema/schema.sql:252) but leaves `deposit_sessions.wallet_address` free
  (db/schema/schema.sql:231); with a wallet for each session, a transfer credits at most one.
- A reservation takes its cents out of the amount, and the settlement takes the withdrawal's cents out
  of what is left, before it gives the reservation back. A verified withdrawal therefore completes only
  on a balance that covers both (`Reservation.CompletesExactlyIfCoveredTwice`).
- A row that a worker leaves by an early exit, a duplicate or a failed reset stays as it is for good: no run
  brings it back to pending (`Finished.PendingAgainExactlyIfReset`).
- The poller's expiry write has no guard on the status: a session that it read before it was paid ends up
  expired although it was credited (`RoundTrips.CreditedSessionMayExpire`).
- A withdrawal that is marked failed while its release fails keeps its reservation for good
  (`GivenBack.MarkedIsHeldExactlyIfItsReleaseFails`).
- The withdrawal poller may miss eligible rows whenever they do not fit one page
  (`WithdrawalPoller.CollectsAllExactlyIfOnePage`).
- `BankersRound` is banker's rounding except at negative half-way values just above an odd integer,
  where it is a cent and a half off.
- The two payment scans agree on all signed payments exactly when the required amount is a whole
  number of the token's smallest unit.
- An unregister the hub takes before the matching register is lost, and the dead connection stays; it
  has been closed exactly when its user had another connection by then.

## Model

| member | source | states |
|---|---|---|
| `Exclusion.OneWorkerPerItem` | internal/application/verificationservice/verification_service_impl.go:266-294 | in every state of every run at most one worker is past the claim of an item, and that item is not claimable, whatever fails and despite unguarded expiry writes |
| `Settlement.SettledAtMostOnce` | internal/application/verificationservice/verification_service_impl.go:354-368 | over every run in which no reset puts back an item with a balance write, whatever fails, every item's balance write happens at most once |
| `Settlement.OnlyResetsReopen` | internal/application/verificationservice/verification_service_impl.go:354-368 | that condition is exact: in every run, it holds if and only if in no state a settled item is claimable or on its way to be settled |
| `Settlement.SettledAtMostOnceWithoutLateFailure` | internal/application/verificationservice/verification_service_impl.go:713-753 | it holds, and so does at most once, if no call fails between the balance write and the completed status |
| `Reopening.SettledAgainExactlyIfOpen` | internal/application/verificationservice/verification_service_impl.go:266-294 | in every state of every run, some run on from there without late failures writes a session or withdrawal to the balance, for the first time or again, if and only if it is claimable, or has a worker that has yet to write or is to put it back |
| `Reopening.CancelledIsNotSettled` | db/queries/queries.sql:171-178 | an item cancelled while no worker may settle it or put it back is not written to the balance in any run on without late failures |
| `Finished.PendingAgainExactlyIfReset` | internal/application/verificationservice/verification_service_impl.go:340-413 | in every run, whatever fails, once a worker's last call on an item it had claimed is made, some run on makes the item pending again if and only if that call was a successful reset |
| `Finished.FinishedForGood` | internal/application/verificationservice/verification_service_impl.go:354-413 | and otherwise, in every run on, its status stays but for a late expiry or mark by the pollers, no worker claims it, and it is not written to a balance again |
| `Finished.LeavingIsForGood` | internal/application/verificationservice/verification_service_impl.go:300-329 | an early exit changes nothing in the store, and leaves the row like that in every run on |
| `Settlement.LateFailureSettlesTwice` | internal/application/verificationservice/verification_service_impl.go:354-368 | from any quiet state, a run in which one call fails, the completed-status write of a session, and the reset succeeds, writes that session to the balance twice |
| `Records.EveryWriteHasItsRecord` | internal/application/verificationservice/verification_service_impl.go:709-753 | in every run each balance write has an earlier transaction record of its own for the same item and cents, and every item completed in the run has such a write |
| `Records.UniqueRecordsMeanUniqueWrites` | internal/application/verificationservice/verification_service_impl.go:823-872 | if the store keeps at most one record of an item, the item is written to the balance at most once, whatever fails |
| `Records.UniqueSignaturesMeanOneCredit` | internal/application/verificationservice/verification_service_impl.go:659-667 | in every run in which the store refuses a second record with a signature, each transaction is behind at most one balance write of any item, whatever fails |
| `PaymentMatch.OneTransferPaysBothExactlyIfAlike` | internal/application/verificationservice/verification_service_impl.go:619-657 | some transfer settles both of two sessions if and only if they wait for the same kind of transfer to the same wallet, whatever their amounts and decimals |
| `Records.OneTransferCreditsOnlyAlike` | internal/application/verificationservice/verification_service_impl.go:619-657 | in every run, whatever fails, two sessions credited for one transfer wait for the same kind of transfer to the same wallet; so with a wallet for each session, each transfer credits at most one |
| `Records.OneTransferCreditsTwoExactlyIfAlike` | internal/repositories/transactionrepo/transaction_repo_impl.go:238-263 | for two pending sessions, some run, and then some run in which nothing fails, credits both for one transfer if and only if they are alike in that way |
| `Credits.WritesAreWorthTheirPayment` | internal/application/verificationservice/verification_service_impl.go:669-736 | in every run, whatever fails, each balance write is a step of a worker of its item, and an earlier step of that worker is a check that found the transfer of the write's record; for a session the units are the transfer's amount times that check's rate, and the cents the nearest to it with ties to even; for a withdrawal both are the row's own |
| `RoundTrips.OpenedAndPaidIsCredited` | internal/application/verificationservice/verification_service_impl.go:709-753 | for any transfer that settles it, a session opened anywhere can be taken to completed with nothing failing, and the balance then has what was written for it on top, and is otherwise as it was |
| `RoundTrips.CreditedSessionMayExpire` | internal/application/verificationservice/verification_service_impl.go:118-127 | and one expiry write more leaves the credited session expired |
| `Conservation.TotalsAreConserved` | internal/application/verificationservice/verification_service_impl.go:713-735 | in every run with undisturbed read-to-write windows, amount plus reserved is the opening total plus deposits written minus withdrawals written, units likewise, and nothing is negative |
| `Conservation.BalancesStayNonNegative` | db/queries/queries.sql:132-163 | amount, units and reserved stay non-negative in every run, with no hypothesis on overlap or failure |
| `Conservation.TotalsAddUpExactlyIfNothingIsOverwritten` | db/queries/queries.sql:149-155 | in every run, totals and units are the opening plus what was written, in all its states, if and only if every balance write overwrites the cents and units its worker read |
| `Conservation.OverlappingWindowsLoseADeposit` | internal/application/verificationservice/verification_service_impl.go:713-735 | two workers that both read before either writes lose the first deposit, with nothing failing: both are written, and the total gains the second only |
| `Conservation.DriftIsBounded` | internal/application/verificationservice/verification_service_impl.go:718-735 | in every run whose balance writes overwrite what was read, the gap between 100 times the units and the cents grows by at most one half per deposit plus each withdrawal's own difference |
| `Reservation.ReservationsAddUp` | internal/application/verificationservice/verification_service_impl.go:576-604 | reserved cents are the sum over the withdrawals whose release step has not run, and every release step finds its guard true |
| `Reservation.ReservationsAddUpExactlyIfReleasesAreHarmless` | db/queries/queries.sql:132-163 | over every run with effective reservations, whatever fails, reserved cents are the sum over the withdrawals still held in all its states if and only if every release is of a held withdrawal, or of nothing, or finds its guard false |
| `Reservation.ReleaseIsRightExactlyIfHarmless` | db/queries/queries.sql:157-163 | a single release keeps that sum under the same condition exactly, and moves its own money if and only if its withdrawal is still held |
| `Reservation.ReleaseTakesEffect` | db/queries/queries.sql:157-163 | a release moves exactly its own reservation back to the amount, in every state the invariants allow, so it is never a silent no-op |
| `GivenBack.SettledIsGivenBack` | internal/application/verificationservice/verification_service_impl.go:860-872 | in every run, whatever fails, a withdrawal that a worker has settled is no longer held |
| `GivenBack.MarkedIsHeldExactlyIfItsReleaseFails` | internal/application/verificationservice/verification_service_impl.go:576-604 | in every run with the client's answers and effective reservations, a withdrawal the poller has marked failed, with its release not still to come, is held if and only if the release call for it failed in the run |
| `GivenBack.MarkedIsGivenBack` | internal/application/verificationservice/verification_service_impl.go:182-200 | so if the poller's writes succeed, every withdrawal it has marked failed and is done with has had its reservation given back |
| `GivenBack.ReleasedIsNotReleasedAgain` | internal/application/verificationservice/verification_service_impl.go:576-604 | in every run, whatever fails, no step of a worker or of the poller releases the reservation of a withdrawal whose row says that it is released |
| `RoundTrips.AbandonedIsGivenBack` | internal/application/verificationservice/verification_service_impl.go:576-604 | from any state with the poller idle, a pending withdrawal without a hash can be taken, with nothing failing, to a failed row, its cents back in the amount, no longer reserved and no longer held, with the poller idle again |
| `RoundTrips.OpenedAndAbandonedIsUndone` | db/queries/queries.sql:132-163 | opening a withdrawal, with or without review, and abandoning it leaves all balances and what is held as they were |
| `RoundTrips.OpenedAndVerifiedIsDebited` | internal/application/verificationservice/verification_service_impl.go:823-872 | opening a withdrawal that the balance covers twice and verifying it leaves the balance less its cents and units once, the reserved cents and what is held as they were, and the row completed |
| `Reservation.LateFailureLosesTheReservation` | internal/application/verificationservice/verification_service_impl.go:860-872 | from any opening state, a run in which one call fails, a withdrawal's completed-status write, reaches a second release of it: reserved falls short of what is held by that amount if the user's other withdrawals hold enough, and otherwise the release is a silent no-op |
| `Reservation.CompletesExactlyIfCoveredTwice` | internal/application/verificationservice/verification_service_impl.go:831-866 | a verified withdrawal with an effective reservation can complete, with nothing failing and nobody else touching the balance, if and only if the balance it was opened on covered its reservation and its cents both, and its units |
| `FailedOrDebited.NeverDebitedAndFailed` | internal/application/verificationservice/verification_service_impl.go:182-200 | with the client's answers no item is both written to a balance and marked failed, and no worker ever reaches the marking branch, whatever fails |
| `FailedOrDebited.OnlyAbandonedAreMarked` | internal/application/verificationservice/verification_service_impl.go:182-200 | in every run with the client's answers, an item marked failed was read before in that run, by the poller, as a pending withdrawal without a hash, and then taken up two polling intervals or more after it was created |
| `FailedOrDebited.TakenUpExactlyIfAbandoned` | internal/application/verificationservice/verification_service_impl.go:182-190 | the protocol's poller may take a withdrawal up exactly if the paging loop of `WithdrawalPoller` fails such a row at that time |
| `FailedOrDebited.StoredHashesStay` | db/queries/queries.sql:171-178 | a stored transaction hash is never erased, in any run |
| `Service.Service.RetryDeposit` | internal/application/verificationservice/verification_service_impl.go:340-413 | under preemption by any other threads: the answers of this worker's checks since are, but for the last, neither verified nor final errors, and the last is one of those unless there were retries + 1; the time slept is the sum of the back-off after each transient error but the last attempt's; the row is left completed or pending except on duplicates and failed resets, and reset unless the last check found the payment; every call is a protocol step |
| `Service.SleepIsBounded` | internal/application/verificationservice/verification_service_impl.go:393-396 | for any answers, the time slept is at most (2^retries - 1) times the base, and exactly that over the checks made if all of them were transient errors |
| `Service.Service.Settle` | internal/application/verificationservice/verification_service_impl.go:709-753 | record, read, write, release and complete are exactly the protocol's steps from recording on, and end settled, duplicate or to be reset |
| `Service.Service.WriteBalance` | internal/application/verificationservice/verification_service_impl.go:827-847 | on success the row holds the balance read plus or less the item's cents and units, neither negative, and the log the write; it fails only on a negative result or a failing call |
| `Service.Service.VerifySolanaSession` | internal/application/verificationservice/verification_service_impl.go:266-413 | a session worker's whole run extends the history by protocol steps and ends in one of its six exits, with the final status in the row, the checks made exactly those of a full retry loop, or none if it left before, and the time slept what they call for |
| `Service.Service.RetryWithdrawal` | internal/application/verificationservice/verification_service_impl.go:489-556 | the same for a withdrawal, and it is marked failed if and only if the last of its checks, which is then the one after all the retries, came out neither verified nor as an error |
| `Service.Service.VerifySolanaWithdrawal` | internal/application/verificationservice/verification_service_impl.go:415-556 | a withdrawal worker's run extends the history by protocol steps, ends with the final status in the row and no longer held if settled, makes the checks of a full retry loop or none, and marks failed only on such a last check, or without a hash |
| `Service.Service.MarkWithdrawalFailed` | internal/application/verificationservice/verification_service_impl.go:558-613 | status, release and second status write are the protocol's marking steps, each of which may fail; unless the first does, the row is left failed, whatever other threads do, and its reservation has been given back unless that call came out as an error |
| `Service.Service.Keeps` | internal/application/verificationservice/verification_service_impl.go:224-264 | in every state the code can reach: one worker per item, a record behind every balance write, no settled withdrawal still held, no negative balance |
| `SessionPoller.Poller.ProcessPendingSessions` | internal/application/verificationservice/verification_service_impl.go:87-133 | a completed poll dispatches exactly the rows before some cut, grouped by chain in order, every row from the cut on being timed out by its end; every expiry write is of a row timed out when it is made, and the rows that leave are those whose write succeeded; with no failed load or write and no time passing, at least half of the stale rows go |
| `SessionPoller.LiveSessionsAreDispatchedOnce` | db/queries/queries.sql:101-105 | every session still live when the poll ends, off the PDM chains, is in its own chain's group exactly once and in no other |
| `SessionPoller.OnlyBitcoinIsLeftAlone` | internal/application/verificationservice/verification_service_impl.go:958-960 | of the rows before the cut, those of the two bitcoin chains are in no group and those of every other chain all in its group, newest first |
| `SessionPoller.Poller.RunPolls` | internal/application/verificationservice/verification_service_impl.go:65-85 | over any number of polls the same holds of every expiry write and every row that leaves; with no failed load or write and no time passing, n polls leave at most one in 2^n of the stale sessions, and no stale row pending once 2^n exceeds their number |
| `WithdrawalPoller.Poller.ProcessPendingWithdrawals` | internal/application/verificationservice/verification_service_impl.go:153-204 | no row is collected twice; every marking write is of a hash-less row two intervals old when it is made, and the rows failed are those whose write succeeded; no more eligible rows are skipped than rows were failed, and none if none was or all rows fit one page; with no failed load or write and no time passing, exactly the rows of `CollectedFrom` are collected, in order |
| `WithdrawalPoller.OnlyBitcoinIsNotEligible` | internal/application/verificationservice/verification_service_impl.go:182-204 | eligible are the rows with a hash, but for the two bitcoin chains' |
| `WithdrawalPoller.FailedRowsHideTheNext` | db/queries/queries.sql:165-169 | for every page size and list, each row failed in the first page hides one of the rows that follow it from such a poll |
| `WithdrawalPoller.CollectsAllExactlyIfOnePage` | internal/application/verificationservice/verification_service_impl.go:153-204 | for every page size and number of rows, such a poll collects the eligible rows of every list of that many if and only if one page holds them |
| `WithdrawalPoller.CollectsAllExactlyIfNonePassed` | internal/application/verificationservice/verification_service_impl.go:153-204 | for every list, such a poll collects all its eligible rows if and only if none lies in a stretch that the paging passes over |
| `WorkerPool.NeverMoreThanCapacity` | internal/application/verificationservice/verification_service_impl.go:224-243 | in every reachable state no more workers are about than the capacity, and no item runs more often than it is listed |
| `WorkerPool.SlotsMayAllRun` | internal/application/verificationservice/verification_service_impl.go:224-243 | and as many workers as there are slots do run at once in some run, if there are as many items |
| `WorkerPool.ReturnsWithEverythingRun` | internal/application/verificationservice/verification_service_impl.go:245-264 | when the pool returns, every item has run exactly once and no worker is left, after exactly 4 steps per item plus the capacity plus one |
| `WorkerPool.StuckExactlyWithoutSlots` | internal/application/verificationservice/verification_service_impl.go:225-242 | a reachable unreturned state is stuck if and only if there are items and no slots; runs are bounded |
| `WorkerPool.Pool.Process` | internal/application/verificationservice/verification_service_impl.go:224-243 | the main thread's two loops, with workers moving in between, return with every item run once and no worker left |
| `Helius.VerifyDeposit` | internal/infrastructure/rpc/helius.go:151-242 | verified exactly when there is no error, and exactly when some transfer of some TRANSFER transaction pays the required smallest units; each error exactly when its cause is there and no earlier one |
| `Helius.VerifyWithdrawal` | internal/infrastructure/rpc/helius.go:244-377 | verified exactly when there is no error, and exactly when the looked-up transaction is a transfer that pays the amount; each error exactly when its cause is there and no earlier one |
| `PaymentMatch.NativeUnitsAgree` | internal/infrastructure/rpc/helius.go:86-97 | on every cluster a native transfer is worth the same to a deposit, with the client's decimals, as to a withdrawal, with its own literal |
| `PaymentMatch.CheckBothWays` | internal/infrastructure/rpc/helius.go:177-352 | one fetched transaction is verified for a deposit of n lamports if and only if it is verified for a withdrawal of n billionths of a SOL |
| `PaymentMatch.NativeAmountAsked` | internal/application/verificationservice/verification_service_impl.go:331-338 | for a session in SOL the client is asked for the whole lamports of the required amount |
| `PaymentMatch.LeastTokenAmount` | internal/infrastructure/rpc/helius.go:86-97 | the least token amount that the client takes is the required number of millionths on the main cluster and of billionths on the test cluster; there is none on any other |
| `PaymentMatch.MintIsTheConfiguredOne` | internal/infrastructure/rpc/helius.go:65-84 | the mint that transfers are compared with is the one configured for the token on its cluster, and there is none if none is |
| `PaymentMatch.FindPayment` | internal/application/verificationservice/verification_service_impl.go:616-657 | finds the first settling transfer of the first settling transaction with a signature, when there is one; fails for want of a mint exactly when a transfer needs one |
| `PaymentMatch.SettlementImpliesClient` | internal/application/verificationservice/verification_service_impl.go:333-338 | what the settlement scan accepts, the client scan accepts |
| `PaymentMatch.ScansAgreeExactlyOnWholeUnits` | internal/infrastructure/rpc/helius.go:177-230 | the scans agree on every signed list of transactions if and only if the required amount is a whole number of smallest units |
| `PaymentMatch.VerifyThenMatch` | internal/application/verificationservice/verification_service_impl.go:343-354 | run one after the other, the settlement matches only what the client verified, and matches whatever it verified on whole units |
| `Currency.CryptoToUSDCentsIsNearestEven` | pkg/currency/utils.go:32-35 | for non-negative amounts and rates the result is the one integer nearest in cents with ties to even (roundTiesToEven, section 4.3.1 of IEEE 754-2019), within one half and non-negative |
| `Currency.CryptoToUSDCentsMonotone` | pkg/currency/utils.go:32-35 | more crypto never converts to fewer cents |
| `Currency.BankersRoundIsTiesToEven` | pkg/currency/utils.go:15-29 | over all values, ties to even exactly off the negative odd ties, where the result is a cent and a half away; -0.025 gives -4 |
| `WsHub.WsHub.Broadcast` | internal/server/websocket/ws_hub.go:71-161 | each target of a message is written to exactly once and nothing else is, and the pairs left are those whose write succeeded |
| `WsHub.MessagesAreForTheirUser` | internal/server/websocket/ws_hub.go:166-197 | each of the three messages the service builds has as targets exactly the registered pairs of the user it is about; without a user, the balance message has all of them and the other two none |
| `WsHub.WsHub.Register` | internal/server/websocket/ws_hub.go:48-56 | the nested map goes on holding the pairs the events prescribe, with no user left empty |
| `WsHub.WsHub.Unregister` | internal/server/websocket/ws_hub.go:58-69 | the same after an unregister, and the connection is closed exactly when its user is known |
| `WsHub.WsHub.Run` | internal/server/websocket/ws_hub.go:45-164 | after any sequence of requests the nested map equals the set of pairs driven by the same events |
| `WsHub.RegisteredExactlyIfLastRegistered` | internal/server/websocket/ws_hub.go:48-69 | a pair is registered if and only if some register of it is later than every unregister and failed write of it |
| `WsHub.LeavingTheRegistryCloses` | internal/server/websocket/ws_hub.go:108-153 | a connection whose pair was registered once and no longer is has been closed |
| `WsHub.EarlyUnregisterIsLost` | internal/server/websocket/ws_hub.go:58-69 | after any history, an unregister taken before its register leaves the pair registered, its connection having been closed if and only if its user had one registered by then |

## Left out

- HTTP, JSON, SQL driver, logging and configuration: replaced by arbitrary outcomes.
- Error text: `isTransientError` classifies by substrings; the model takes the classification of each
  error as arbitrary, which covers any classification.
- The claim's isolation level: the claim is one step by assumption, so the model does not show two
  workers claiming one row at once.
- Ethereum, Tron and PDM processing, the webhook, authentication and handlers: stubs or thin wrappers.
- Dispatch of the grouped rows to the processors: the groups are what the pollers return.
- The withdrawal poller appears twice: with its paging and clock in `WithdrawalPoller`, and with its
  interleaving with workers in `Ledger`, where a page is any set of pending rows.
- Arrivals during a poll: the paging theorems are for a pending set that only the poll changes.
- NULL or unstable `created_at` order, floating-point rounding, decimal formatting, 64-bit overflow.
- Balance-log inserts, whose failures are only logged, and session metadata and error messages.
- Channel buffering in the hub: requests are taken in any order, one at a time.
- The exchange-rate client, and the choice of from-address in a record.
