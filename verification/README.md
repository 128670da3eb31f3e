# Senpay wallet: a Dafny model of its ledger, and proofs about it

Senpay keeps every rupiah twice: as a mutable `balance_snapshot` per user, and as a projection of the
append-only `tx_log`. Transfers, top-ups, bank webhooks, withdrawals, reversals and callbacks all have to keep the
two in step through retries, rollbacks, duplicate deliveries and concurrent requests. This project models those
code paths and proves what they keep, over every run.

## How the model is laid out

| part | files |
|---|---|
| arithmetic, 64-bit money, sums | `Arithmetic`, `Money`, `Sums`, `Wrappers`, `Errors` |
| fees and promo codes | `Fees` |
| the log and its projections; the tables and their SQL statements | `Ledger`, `Tables` |
| the database transactions, and what each changes | `Transactions`, `TransactionEffects` |
| the wallet as a transition system, its invariant, and the main results | `WalletSystem`, `WalletInvariant`, `TableShape`, `WalletSafety`, `Conservation`, `WalletTheorems`, `WalletHistory`, `BalanceVersions` |
| the services as classes | `Saga`, `Idempotency`, `TransferService`, `BankService` |
| what their callers can rely on: when a request goes through, what it leaves, and what the next one meets | `TransferOutcome`, `BankOutcome`, `Reversal`, `Repeats` |
| concurrent requests and idempotency keys | `Requests`, `RequestSafety`, `RequestLog`, `RequestTiming`, `RequestRaces`, `RequestReplies`, `SoloSteps`, `SoloTransfer`, `SoloBank` |
| paging | `Base64Url`, `Cursor`, `Pagination`, `Paging` |
| rate limiting, refresh tokens, spending statistics, migrations | `RateLimit`, `RateLimitExact`, `TokenStore`, `Nudge`, `Migrations` |

`WalletSystem.Step` has one step per database transaction and one for every read or write the services make outside a
transaction (the VA look-up, the callback's look-up, `UpdateStatus`); steps interleave freely. A transaction is all or
nothing, and a failed COMMIT means "not committed". A reverse or commit transaction holds the lock on its log row from its
status update on: `System.open` lists the withdrawals whose transaction is open. A reversal updates the balance row before
that; the model takes both statements together, which loses no behaviour because they commit together. `System.torn` lists those whose record
was updated by a transaction that then failed to commit.

The service classes execute the statements one by one, with a fault possible at each of them and with
everybody else's steps in between; their contracts equate the new wallet with a run of the transition system, so that
every result about runs applies to them. `Requests` splits a request further, into single Redis commands; `SoloTransfer`
and `SoloBank` show that a request there, interrupted by webhooks and callbacks only, does what the three service methods
`Transfer`, `RequestTopup` and `RequestWithdraw` do, and `Requests.WalletOfPlay` that the wallet inside is a wallet of the
transition system.

64-bit arithmetic is modelled explicitly (`Money.Wrap64`). Results without a bound on the amounts are stated in that wrapping
arithmetic; exact ones carry the bound of `WalletTheorems.Bounded`, which `WalletTheorems.NoOverflowIff` shows to be the weakest.

## Where the code is not what one would expect

- The verified fee is not monotone: it dips where the divide-first branch starts (`Fees.FeeDips`). `Fees.MonotoneIff` says
  for which configurations it is monotone, and `Fees.NearlyMonotone` bounds the dip. A rate above 100 percent, which the
  loader accepts, can overflow the divide-first branch, and only such a rate can (`Fees.OverflowFreeIffRateAtMost100`); the
  fee then wraps around and, for any realistic minimum, is not monotone (`Fees.NotMonotoneAbove100`).
- Two requests with one key can both take effect when the key disappears while it is relied on, and there are four ways:
  the marker expires while its request works, the completed marker expires, the second delete that follows an exhausted
  transfer's compensation (the conflict error carries a code, so the marker is deleted again), and the delete of a failed
  transfer whose key with ":cached" appended is another request's key. `RequestRaces.AtMostOneIffNoGap`: for any set of these
  four, every run that loses keys in those ways only is safe if and only if the set is empty. Expiry of a marker that
  nobody relies on, such as one left behind by a bank error, is harmless, and the key can be used again.
  `RequestTiming.TimelyAtMostOnce` puts this on the clock: requests that give their marker up within 30 seconds and repeats
  within a day are safe, provided that the "completed" marker is not lost; a lost one leaves the 30-second marker in place.
- A repeated request is answered from a cache that transfers and top-ups share: a transfer under a top-up's key gets the
  top-up's response (`RequestReplies.TransferGetsTopupReply`).
- The `Retry-After` header can be too short, and so can the duration: a client that waits as told is always let through
  if and only if the rate is at least one per second (`RateLimit.HeaderSufficesIff`); the default is 100.
- A plain error, such as a failed optimistic lock, leaves the in-flight marker until it expires, although the comment at
  `internal/transfer/service.go:219` says that everything is compensated; so does a bank error of a withdrawal. The model
  follows the code.
- `updateTxLogStatus` has no status guard, so a reversal can turn a withdrawal that a callback has committed to failed
  (`WalletHistory.CallbackCanBeOverturned`). `WalletHistory.LogStep` says exactly which step changes a settled
  status. No route calls the callback.
- A webhook credits the stored VA amount; the callback's own status and amount and the VA's expiry are not looked at.
- The comment on `cleanupLoop` says that entries are removed only when the store stops; the code sweeps, and the sweep is
  what makes the delay condition of `TokenStore.SingleUseIffPrompt` necessary.
- `TrendDetection` says that four values suffice; no list shorter than five is ever flagged. No list shorter than six
  ever has an anomaly (`Nudge.FlaggableFromSixOn`).
- A migration without a down file can break the prefix property of the applied versions
  (`Migrations.PrefixIffWellPaired` gives the exact condition).

## Model

| member | source | states |
|---|---|---|
| Money.SafeAdd | internal/types/money.go:29-41 | overflow is reported exactly when the exact sum leaves 64 bits; otherwise the sum is exact |
| Money.SafeSub | internal/types/money.go:45-54 | fails exactly when the exact difference is negative or above 64 bits |
| Money.WrapAdd | internal/bank/service.go:1021 | unchecked 64-bit additions may be done step by step or at the end, with the same result |
| Fees.Gcd64 | internal/fee/config.go:179-184 | the loop computes the gcd |
| Fees.GcdIsGreatest | internal/fee/config.go:179-184 | every common divisor divides it |
| Fees.LowestTerms | internal/fee/config.go:173-176 | the reduced numerator and denominator have no common factor left |
| Fees.CalcVerifiedFee | internal/fee/config.go:141-169 | the method with its overflow-avoiding branch computes the specification fee |
| Fees.FastBranchIsExact | internal/fee/config.go:158-164 | below the threshold nothing overflows and the fee is max(min, floor(amount * p / 10^6)) |
| Fees.DivideFirstLoses | internal/fee/config.go:158-161 | at rates up to 100 percent nothing overflows above it either, and at most num - 1 sen are lost against the exact fee |
| Fees.OverflowFreeIffRateAtMost100 | internal/fee/config.go:158-161 | no amount overflows the divide-first branch if and only if the rate is at most 100 percent |
| Fees.OrderedOnOneSide | internal/fee/config.go:158-164 | two amounts on the same side of the threshold are charged in their order |
| Fees.MonotoneIff | internal/fee/config.go:141-169 | for every configuration that is loaded. Up to 100 percent the fee is monotone if and only if no amount reaches the divide-first branch, or the minimum covers the fee at the threshold, or the fee does not fall from the threshold to the next sen; above, if and only if the minimum covers every wrapped product but the last |
| Fees.NotMonotoneAbove100 | internal/fee/config.go:158-161 | above 100 percent the fee is not monotone, unless the minimum is within the numerator of 2^63 |
| Fees.NearlyMonotone | internal/fee/config.go:141-169 | at rates up to 100 percent, for a <= b, fee(a) <= fee(b) + num - 1 |
| Fees.FeeDips | internal/fee/config.go:158 | a concrete amount at which one sen more costs two sen less |
| Fees.CalcFee | internal/fee/core.go:24-38 | an amount is refused exactly when it is not positive; a verified user pays the verified fee, unknown levels the flat fee like basic ones; a valid configuration gives a positive fee |
| Fees.ChargeInFull | internal/fee/config.go:141-169 | what a verified user pays, from the configured percentage alone: the exact share of the amount, rounded down, up to the threshold; the wrapped product of quotient and numerator above it; never less than the minimum |
| Fees.FeeBounded | internal/fee/core.go:24-38 | at rates up to 100 percent the fee is at most the amount plus both configured constants |
| Fees.RoomyIff | internal/transfer/service.go:295-327 | no charge up to an amount overflows if and only if that amount, and the threshold if it is smaller, fit with their fees |
| Fees.RoomyUpTo100 | internal/transfer/service.go:295-327 | at rates up to 100 percent it is enough that twice the amount and both constants fit |
| Fees.CalcFees | internal/fee/core.go:46-60 | overflow is reported exactly when the fees before the first refused amount exceed 64 bits, else that refusal or the exact total |
| Fees.ApplyDiscount | internal/fee/promo_service.go:104-117 | the discounted fee lies between 0 and the fee; free from 100 percent on, unchanged at 0, and otherwise fee and discount add up |
| Fees.DiscountedFee | internal/fee/promo_service.go:111-116 | without floating-point error the fee that remains is fee * (100 - percentage) / 100, rounded up to whole sen |
| Fees.ApplyPromoCode | internal/fee/promo_service.go:47-89 | applied exactly for a well-formed listed code inside the window; a warning exactly for any other non-empty code, with the fee unchanged |
| Fees.PromoMeaning | internal/fee/promo_service.go:47-102 | applied if and only if the code is a listed word of letters, digits and hyphens and the time lies between start and end, both included |
| Ledger.ProjectBalances | internal/projection/core.go:25-45 | the loop computes the projection of the log, in wrapping arithmetic |
| Ledger.OneMoreEntry | internal/projection/core.go:25-45 | a committed entry counts for its receiver and against its sender, every other not at all; a pending withdrawal is held back from its user |
| Ledger.WalletAgreesWithProjection | internal/wallet/handler.go:79-101 | the wallet's two-sum aggregate over the rows in any order is the same projection, or an error when it does not fit |
| Ledger.SpendableIsProjectionLessPending | internal/projection/core.go:25-45 | what a user can spend is the projection less the user's pending withdrawals |
| Tables.RowAfterSetStatus | internal/bank/service.go:731-742 | a status update changes that row's status and no other row |
| Tables.RowAfterAppend | internal/bank/service.go:936-957 | an insert adds its row and keeps all others |
| Transactions.QuoteFee | internal/transfer/service.go:295-312 | the effective fee is at most the fee; it is positive or a promo code was applied, so every transfer has a fee entry |
| Transactions.QuoteMeaning | internal/transfer/service.go:303-312 | a code is applied exactly when it was not refused up front and is well formed, listed and inside the window; then the discounted fee is charged, otherwise the whole one |
| TransferOutcome.TransferDecided | internal/transfer/service.go:243-372 | a transfer commits if and only if the receiver is found and another user, the amount is positive, the balance covers amount and amount plus fee, and both ids are free; which refusal every other one gets |
| TransferOutcome.TransferPays | internal/transfer/service.go:314-336 | the sender is debited amount and fee, the receiver credited the amount, and nobody else's balance moves |
| TransferOutcome.TransferRecords | internal/transfer/service.go:338-390 | both entries field by field, the receipt, and every other table unchanged |
| TransferOutcome.TransferReply | internal/transfer/service.go:183-229 | after attempts that only stumbled over transient faults, the request replies fresh if and only if the transfer is covered and its ids are free on the wallet it meets; otherwise the code of the refusal |
| TransferOutcome.ValidRequests | internal/transfer/service.go:129-144 | key, phone and an amount of at least 1000 sen; the code of every other request |
| TransferOutcome.WarnedUpFront | internal/transfer/service.go:173-181 | when a promo code is refused before the first attempt |
| BalanceVersions.SameVersionSameRow | internal/transfer/service.go:421-446 | over any run of all code paths, a balance row whose version is the same has not been touched |
| BalanceVersions.StepVersions | internal/bank/service.go:996-1035 | every step that changes a balance row raises its version |
| TransactionEffects.TransferEffect | internal/transfer/service.go:233-391 | a committed transfer: sender less amount and fee, receiver plus amount, nobody else touched, one transfer entry, a fee entry exactly when a fee is due or a code was applied |
| TransactionEffects.TopupEffect | internal/bank/service.go:172-230 | one pending entry and one active VA row, both fresh, and no money moved |
| TransactionEffects.WebhookEffect | internal/bank/service.go:883-920 | commits only with a pending entry and an active VA; credits the amount that was read; VA paid, entry committed |
| TransactionEffects.ReserveEffect | internal/bank/service.go:410-495 | the balance covers the amount, which moves into a pending entry and a pending record |
| TransactionEffects.FinishEffect | internal/bank/service.go:583-606 | the entry gets the status; only a reversal returns the money; a commit needs a pending entry |
| WalletInvariant.TransferInStep | internal/transfer/service.go:314-372 | a transfer moves snapshots and log by the same amounts, for every user |
| WalletInvariant.WebhookInStep | internal/bank/service.go:892-914 | so does a webhook |
| WalletInvariant.ReserveInStep | internal/bank/service.go:441-487 | so does a reservation |
| WalletInvariant.FinishInStep | internal/bank/service.go:598-606 | so does a commit or a reversal, also of an entry that a callback has committed |
| WalletSafety.OpenFinishSucceeds | internal/bank/service.go:598-615 | the statements of a begun reverse or commit still succeed when it commits, whatever happened meanwhile |
| WalletSafety.ViewStep | internal/bank/service.go:566-661 | every step moves the one withdrawal it works on as a fixed automaton says, and no other |
| WalletSafety.InvKept | internal/bank/service.go:353-661 | every step of every code path keeps the whole invariant |
| WalletSafety.ReachableInv | internal/bank/service.go:353-661 | the invariant holds in every reachable state |
| WalletTheorems.SnapshotAgrees | internal/projection/core.go:25-45 | in every reachable state, for every user: snapshot = projection - pending withdrawals, in 64-bit arithmetic |
| WalletTheorems.NoOverflowEver | internal/transfer/service.go:315-327 | while every amount up to the committed top-ups fits 64 bits together with its fee: no balance is negative, each equals projection - pending exactly, and no unchecked operation of the next step overflows |
| WalletTheorems.NoOverflowIff | internal/transfer/service.go:295-327 | that condition is also needed: over all runs that top up no more than a total, every operation of every step is exact if and only if every charge up to the total fits |
| WalletTheorems.StepExact | internal/bank/service.go:436-443 | from any sound state, every 64-bit operation a step executes stays in range, the product for the fee and the credit of a beginning reversal included |
| WalletTheorems.StepTopups | internal/bank/service.go:979-993 | no step takes a committed top-up back |
| WalletTheorems.WalletConserves | internal/bank/service.go:996-1035 | all snapshots + pending + committed withdrawals + committed fees = committed top-ups, exactly, in every run within the bound |
| WalletTheorems.WalletConservesWrapped | internal/bank/service.go:996-1035 | the same in 64-bit arithmetic in every run without any bound |
| Conservation.MoneyIsConserved | internal/projection/core.go:25-45 | over any well-formed log the users' spendable amounts are top-ups less fees, payouts and reservations |
| Conservation.TwoUsersWithinTopups | internal/transfer/service.go:326-327 | two users together never hold more than the top-ups |
| WalletHistory.CreditedAtMostOnce | internal/bank/service.go:855-931 | over any run, any number of deliveries for one VA credit exactly as often as the VA turns from unpaid to paid: at most once |
| WalletHistory.DeliveryCreditsStoredAmount | internal/bank/service.go:862-920 | a delivery credits if and only if the VA is still active at commit; the stored user gets the stored amount, nobody else's balance moves |
| WalletHistory.VAFollowsEntry | internal/bank/service.go:1038-1052 | in every reachable state a VA has a log id, is active exactly while its entry is pending and paid exactly when it is committed |
| WalletHistory.RecordFollowsLog | internal/bank/service.go:608-617 | record and log entry agree outside an open finish and a failed COMMIT after UpdateStatus; a finished entry never has a pending record |
| WalletHistory.FinishedRecordsMatch | internal/bank/service.go:629-661 | over the routed endpoints a finished entry and its record always show the same status |
| WalletHistory.LogStep | internal/bank/service.go:731-742 | every step only appends and changes statuses; a settled status changes if and only if a reversal overturns a callback |
| WalletHistory.LogOnlyGrows | internal/transfer/service.go:338-371 | over any run the earlier log is a prefix of the later one, with ids, parties and amounts unchanged |
| WalletHistory.EntriesSettleOnce | internal/bank/service.go:979-993 | over the routed endpoints each entry changes its status at most once, away from pending |
| WalletHistory.CallbackCanBeOverturned | internal/bank/service.go:749-800 | with callbacks, committed to failed is reachable after any successful reservation |
| Saga.SagaCoordinator.Execute | internal/saga/coordinator.go:56-93 | the retry loop returns what the recursive specification Retry says |
| Saga.RetryOutcome | internal/saga/coordinator.go:56-93 | at most maxRetries calls, none after a success, a permanent error or a cancellation; compensation exactly once if and only if all calls were transient and uncancelled; which error the caller sees |
| Saga.FirstConclusive | internal/saga/coordinator.go:59-73 | the first call that is not worth retrying is the last one and decides state and error |
| Saga.Exhausted | internal/saga/coordinator.go:87-92 | when every call is worth retrying, all are made, compensated once, and reported as a conflict |
| Saga.CutShort | internal/saga/coordinator.go:79-84 | a wait that is cut short ends the execution with the cancellation; it lasts until then, and the earlier ones in full |
| Saga.TransientMeaning | internal/saga/coordinator.go:113-139 | retried are exactly SQLSTATE 40001, 40P01, and errors whose text mentions "connect" |
| Saga.WaitsDouble | internal/saga/coordinator.go:77-84 | before the n-th retry the waits have added up to exactly backoff * (2^n - 1) |
| Saga.WaitBound | internal/saga/coordinator.go:77-84 | all waits together last at most backoff * (2^(maxRetries - 1) - 1) |
| Saga.SagaCoordinator.constructor | internal/saga/coordinator.go:30-35 | three retries, 100 milliseconds |
| Saga.DefaultWait | internal/saga/coordinator.go:30-35 | with these settings an execution waits at most 300 milliseconds in all |
| Idempotency.RedisCache.SetIfNotExist | internal/idempotency/redis.go:26-32 | writes value and lifetime exactly when the key is absent and the command arrives, whether or not its answer does |
| Idempotency.RedisCache.Get | internal/idempotency/redis.go:36-45 | the stored value, absence, or an error |
| Idempotency.RedisCache.Set | internal/idempotency/redis.go:49-55 | overwrites value and lifetime, unless the command is lost; a lost answer changes nothing |
| Idempotency.RedisCache.Delete | internal/idempotency/redis.go:59-65 | removes that key only, unless the command is lost |
| Idempotency.RedisCache.Acquire | internal/transfer/service.go:146-171 | the check and the marker: who is admitted, what everybody else is told, and the marker that stays when only the answer is lost |
| Repeats.AdmitMeaning | internal/transfer/service.go:146-171 | a request is admitted if and only if its key is not in the cache and Redis answers; it gets a cached response if and only if the key is completed and the response is there |
| Repeats.NextTransfer | internal/transfer/service.go:206-229 | after a success the next request with the key gets the same response; after a refusal it is admitted; after an error without a code it is told that one is in flight |
| Repeats.NextTopup | internal/bank/service.go:141-271 | likewise after a top-up, where every refusal frees the key |
| Repeats.NextWithdrawal | internal/bank/service.go:397-563 | likewise after a withdrawal, where the bank's refusal leaves the key in flight |
| TransferService.Service.ExecuteTransfer | internal/transfer/service.go:233-391 | with a fault at any statement: the whole transfer commits, or the database is as it was and the error is that fault or the refusal |
| TransferService.Service.Transfer | internal/transfer/service.go:129-230 | the wallet, the reply and both cache keys after a request, for every pattern of attempts, faults and lost Redis commands |
| TransferService.OneAttemptTakesEffect | internal/transfer/service.go:183-221 | through any pattern of attempts with everybody else's steps in between: success means that exactly the last attempt took effect, an error that none did |
| BankService.Service.RequestTopup | internal/bank/service.go:106-271 | the created top-up and cached response, or an unchanged database, a released marker and the error |
| BankService.Service.Reserve | internal/bank/service.go:410-495 | the reserve transaction is the reserve step, or nothing with its error, for a fault at any statement |
| BankService.Service.RequestWithdraw | internal/bank/service.go:353-563 | for every bank answer and fault: which steps ran, the reply, and whether the marker is completed, released or left behind |
| BankService.Service.ReverseWithdraw | internal/bank/service.go:566-626 | is the run begin - record - commit with status timeout or failed, cut where the fault strikes |
| BankService.Service.CommitWithdraw | internal/bank/service.go:629-661 | is the run begin - record - commit with status committed; fails exactly on a fault or when the entry is not pending |
| BankService.Service.ProcessWebhook | internal/bank/service.go:855-931 | look-up outside the transaction, then the webhook step; the reply in every case |
| BankService.Service.CommitVA | internal/bank/service.go:883-920 | the webhook transaction, statement by statement, is the webhook step or nothing |
| BankService.Service.ProcessWithdrawCallback | internal/bank/service.go:749-800 | only a record read as pending is committed; the reply in every case |
| BankService.RunKeeps | internal/bank/service.go:507-535 | while the bank is asked nobody else changes the reserved row's user, amount, key or entry |
| BankOutcome.TopupReply | internal/bank/service.go:141-271 | a top-up goes through if and only if the level allows the amount, nothing fails, and id and VA number are new; the code of every refusal; the entry and the VA, field by field |
| BankOutcome.AsksBankIff | internal/bank/service.go:397-495 | the bank is asked if and only if the level allows the amount, nothing fails, the balance covers it and both ids are free; the code of every refusal |
| BankOutcome.ReplyAfterBank | internal/bank/service.go:519-562 | a withdrawal replies fresh if and only if the bank confirms, nothing fails and the entry is still pending; the bank's own code on its refusal, with the marker left in place |
| BankOutcome.WebhookReply | internal/bank/service.go:861-931 | a delivery succeeds if and only if the VA is active when it is read and when it is committed; the code in every other case |
| BankOutcome.WebhookPaysOrNot | internal/bank/service.go:883-920 | answered without an error it has paid the VA, committed its entry and credited its user; with an error it has done nothing |
| BankOutcome.CallbackReply | internal/bank/service.go:755-799 | which callbacks do nothing, which commit, and what each is answered |
| Reversal.RefusalReturnsTheMoney | internal/bank/service.go:566-626 | whatever everybody else does while the bank is asked: a refusal adds exactly the reserved amount to the user's balance, moves nobody else's, and shows in log and record |
| Reversal.FreshReplyMeansPaidOut | internal/bank/service.go:538-557 | a fresh reply means that log and record are committed and the reserved amount stays debited |
| Reversal.BankRefusalMeansReversed | internal/bank/service.go:521-536 | when the request reports the bank's refusal and no fault struck, the reversal has taken place: a bank timeout ends as timeout in log and record, every other refusal as failed |
| Reversal.FaultMovesNothing | internal/bank/service.go:608-625 | a reversal or commit that meets a fault moves no money and settles no entry; at most the record shows the status too early |
| Reversal.ReversalUndoesReserve | internal/bank/service.go:566-626 | when nobody else acts between reservation and refusal, every user's balance is exactly what it was before |
| Requests.WalletOfPlay | internal/transfer/service.go:129-230 | the wallet reached by any interleaving of requests is one reached by a run of the transition system |
| RequestSafety.AtMostOneExecution | internal/transfer/service.go:146-229 | over any interleaving of any number of requests: as long as no key disappears while a request holds its marker or after one took effect, at most one request takes effect per key |
| RequestSafety.PlainRunsAreAllowed | internal/transfer/service.go:196-217 | that is so when only keys that nobody relies on expire, no key ends in ":cached" and no transfer exhausts its retries |
| RequestTiming.TimelyAtMostOnce | internal/idempotency/redis.go:67-73 | with lifetimes of 30 seconds and a day, and keys that may expire from then on: at most one request takes effect per key when markers are given up within 30 seconds, repeats acquire within a day, no "completed" marker is lost, no key ends in ":cached" and no transfer exhausts its retries |
| RequestLog.AtMostOneEntryPerKey | internal/bank/service.go:116-139 | under the same condition the routed system's log shows at most one transfer, top-up or committed withdrawal per key |
| RequestLog.PlayOk | internal/bank/service.go:367-389 | in every reachable world the effective log entries of a key are exactly the executions counted, and no two requests work on the same withdrawal |
| RequestRaces.MarkerExpiryAllowsTwo | internal/idempotency/redis.go:68-74 | with a marker that expires too early alone, two top-ups with one key go through |
| RequestRaces.ResultExpiryAllowsTwo | internal/idempotency/redis.go:68-74 | and with the expiry of a completed marker alone |
| RequestRaces.SecondDeleteAllowsTwo | internal/transfer/service.go:196-217 | and with the second delete after retry exhaustion alone |
| RequestRaces.SuffixDeleteAllowsTwo | internal/transfer/service.go:214 | and with the delete of a key in the cache suffix alone |
| RequestRaces.AtMostOneIffNoGap | internal/transfer/service.go:146-229 | for any set of these four: at most one request per key takes effect in every run from the empty database that loses keys in those ways only, if and only if the set is empty |
| RequestRaces.AtMostOneEntryIffNoGap | internal/transfer/service.go:338-371 | the same equivalence for the effective entries in the log of the routed system |
| RequestReplies.PlayHonest | internal/transfer/service.go:498-520 | in every run, whatever expires or is deleted, a cached response is one that a request has answered with, and a completed marker means that a request with that key took effect |
| RequestReplies.PlayTruthful | internal/bank/service.go:548-556 | in every routed run a request that took effect answers with a response of its kind that names its own effective log entry |
| RequestReplies.RepeatedReply | internal/transfer/service.go:477-496 | a repeated request gets the response of a request with the same cache key; it names the effective entry under the repeated key if and only if both use the same suffix, and is of the repeated request's kind if and only if both are |
| RequestReplies.RepeatsTheExecution | internal/bank/service.go:1056-1091 | if both use the same suffix and no key disappears while it is relied on, the reply is that of the one request that took effect under the key |
| RequestReplies.TransferGetsTopupReply | internal/transfer/service.go:477-496 | a run in which a transfer is answered with a top-up's response |
| SoloSteps.NotAdmitted | internal/transfer/service.go:146-171 | a request of the concurrent system that is not admitted ends with the reply and the cache of the idempotency check |
| SoloTransfer.SoloRequest | internal/transfer/service.go:129-230 | an admitted transfer of the concurrent system, interrupted by steps outside requests only, ends with the wallet, cache and reply of Service.Transfer, and counts as executed exactly on success |
| SoloBank.SoloTopup | internal/bank/service.go:106-271 | likewise a top-up and RequestTopup |
| SoloBank.SoloWithdraw | internal/bank/service.go:353-563 | likewise a withdrawal and RequestWithdraw, for every bank answer and fault |
| Base64Url.RoundTrip | internal/ledger/postgres.go:134-144 | decoding inverts encoding for every byte sequence (section 5 of RFC 4648, unpadded) |
| Base64Url.EncodeAt | internal/ledger/postgres.go:134-137 | every character is the one that the alphabet of section 5 of RFC 4648 gives for its six bits, without padding |
| Base64Url.DecodeDefined | internal/ledger/postgres.go:140-144 | text is decoded if and only if it has only characters of the alphabet and line breaks, and none left over |
| Cursor.ParsePositionDefined | internal/ledger/postgres.go:145-156 | a position is a number and a UUID around the first comma |
| Cursor.ParseFormat | internal/ledger/postgres.go:149-152 | parsing inverts decimal formatting for every 64-bit number |
| Cursor.DecimalFromTheRight | internal/ledger/postgres.go:134-136 | numbers are written in decimal digits, units last |
| Cursor.HexFromTheRight | internal/ledger/postgres.go:135 | UUIDs in lower-case hexadecimal digits, most significant first |
| Cursor.ParseUuidText | internal/ledger/postgres.go:153-156 | parsing inverts the text form of every UUID (section 4 of RFC 9562) |
| Cursor.ParseUuidForms | internal/ledger/postgres.go:153-156 | so it does for the other forms that are accepted: plain digits, the URN form, and the text between any two characters |
| Cursor.CursorRoundTrip | internal/ledger/postgres.go:134-158 | decodeCursor inverts encodeCursor for every 64-bit time and UUID |
| Cursor.CursorsDiffer | internal/ledger/postgres.go:134-137 | different positions have different cursors, none of them empty |
| Pagination.PostgresTxLogStore.QueryByUserID | internal/ledger/postgres.go:59-131 | the row loop with look-ahead and truncation computes the specification page; an invalid cursor is an error |
| Pagination.PostgresTxLogStore.Append | internal/ledger/postgres.go:31-56 | appends unless the id is taken |
| Pagination.Clamp | internal/ledger/postgres.go:60-65 | exactly the limits between 1 and 100 are kept; no limit or a negative one becomes 20, a larger one 100 |
| Pagination.RowsOk | internal/ledger/postgres.go:72-97 | the rows are exactly the user's rows after the cursor, strictly descending in (created_at, id) |
| Pagination.RowsInFull | internal/ledger/postgres.go:72-97 | the same with the query's conditions and order written out |
| Pagination.DescendingUnique | internal/ledger/postgres.go:72-97 | that order leaves only one possible list |
| Paging.CursorContinues | internal/ledger/postgres.go:120-128 | the cursor text a page returns asks for exactly the rows after it; it is empty exactly on the last page |
| Paging.FixedLogPages | internal/ledger/postgres.go:59-131 | on a fixed log the pages together list each of the user's entries exactly once, newest first, and end after the number of pages needed |
| Paging.PagesNeededIsCeiling | internal/ledger/postgres.go:120-128 | that number is ceil(n / limit), or one when there are no entries |
| Paging.NoDuplicates | internal/ledger/postgres.go:82-97 | on a log that grows between pages no entry is listed twice |
| Paging.NothingMissed | internal/ledger/postgres.go:82-97 | and when the last page is reached nothing that was there at the first one is missing |
| RateLimit.TokenBucket.Allow | internal/gateway/rate_limit.go:33-59 | new token count and decision of one request, for any rate |
| RateLimit.WindowBound | internal/gateway/rate_limit.go:33-59 | in any window of any run at most burst + rate * length requests are allowed |
| RateLimitExact.PassesIffAffordable | internal/gateway/rate_limit.go:33-59 | a request passes if and only if with it no window that ends with it exceeds burst + rate * length: the limiter refuses nothing that the bound allows |
| RateLimitExact.RefusedOnlyWhenSpent | internal/gateway/rate_limit.go:45-58 | a refused request is one too many for a window that begins at an earlier request, or at itself |
| RateLimitExact.IdleBucketAllowsBurst | internal/gateway/rate_limit.go:38-43 | at the start, and after a pause of burst / rate, burst requests at one instant all pass |
| RateLimit.SpacedNeverRefused | internal/gateway/rate_limit.go:38-49 | with burst >= 1, requests at least 1/rate apart are never refused |
| RateLimit.RetryAfterSufficesIff | internal/gateway/rate_limit.go:52-58 | over all runs on a nanosecond clock: a refused client that waits for the returned duration is always allowed if and only if a token takes at most a second or a whole number of nanoseconds |
| RateLimit.WaitIsLeast | internal/gateway/rate_limit.go:52-58 | a wait of more than a second is no longer than needed: a nanosecond earlier the request is refused |
| RateLimit.HeaderSufficesIff | internal/gateway/middleware.go:195-197 | waiting for the whole seconds in the header is always enough if and only if a token takes at most a second |
| RateLimit.RateLimiter.Allow | internal/gateway/rate_limit.go:81-91 | one key's bucket is created full and updated; all others stay as they are |
| RateLimit.KeysAreIsolated | internal/gateway/rate_limit.go:81-91 | other keys' traffic changes neither a key's bucket nor its decisions |
| RateLimit.KeyWindowBound | internal/gateway/rate_limit.go:81-91 | the window bound per key, whatever all other keys do |
| TokenStore.TokenStore.MarkUsed | internal/auth/token_store.go:32-41 | reports prior use exactly, and marks otherwise |
| TokenStore.TokenStore.Sweep | internal/auth/token_store.go:70-79 | keeps exactly the entries that are not older than 8 days |
| TokenStore.FirstUseAccepted | internal/auth/handler.go:253-281 | whatever other tokens do, a token presented for the first time is accepted if and only if it has not expired |
| TokenStore.Handler.Refresh | internal/auth/handler.go:253-281 | succeeds exactly for a token that was unexpired when validated and unknown when marked |
| TokenStore.SecondAcceptanceIsSlow | internal/auth/token_store.go:72-78 | a second acceptance needs at least a day and 2 ns between validation and marking |
| TokenStore.SingleUseIffPrompt | internal/auth/handler.go:253-281 | tokens are single-use in every run if and only if that delay stays below a day and 2 ns |
| Nudge.TrendDetection | internal/senpai/nudge.go:162-204 | the moving-average loop with its resetting counter equals the closed form on the last five values |
| Nudge.ComputeStats | internal/senpai/nudge.go:68-86 | the two loops compute mean and variance, the total in wrapping arithmetic |
| Nudge.MeanMeaning | internal/senpai/nudge.go:72-76 | the mean times the count is the sum of the values, in 64 bits |
| Nudge.VarianceMeaning | internal/senpai/nudge.go:78-83 | the variance times n - 1 is the sum of the squared deviations from that mean |
| Nudge.SquaresExpand | internal/senpai/nudge.go:78-82 | which is the sum of the squares, less twice the mean times the sum, plus n times the squared mean |
| Nudge.OrderDoesNotMatter | internal/senpai/nudge.go:68-86 | reordering the values changes neither |
| Nudge.AboveIsTwoDeviations | internal/senpai/nudge.go:228-232 | the squared test used here is the comparison with mean + 2 * stddev |
| Nudge.AnomalyFlagging | internal/senpai/nudge.go:218-244 | flags the first anomalous value of the list, and none exactly when there is none |
| Nudge.AnomaliesAreFew | internal/senpai/nudge.go:228-241 | fewer than (n - 1)/4 values lie above the threshold |
| Nudge.FlaggableFromSixOn | internal/senpai/nudge.go:218-244 | lists of length n can be flagged if and only if n >= 6 |
| Migrations.Runner.Up | internal/store/migrations/migrate.go:101-157 | fails if and only if a fault strikes the table or a migration that is looked up or applied, and stops there: exactly those before it were dealt with |
| Migrations.Runner.Down | internal/store/migrations/migrate.go:160-207 | likewise in reverse; without the table the first look-up fails |
| Migrations.PrefixIffWellPaired | internal/store/migrations/migrate.go:101-207 | the applied versions are a prefix of the sorted numbers after every run of stopped calls if and only if missing files are arranged this way |
| Migrations.CompleteFilesKeepPrefix | internal/store/migrations/migrate.go:101-207 | in particular when every migration has both files |
| Migrations.ScriptsAlternate | internal/store/migrations/migrate.go:118-153 | each migration's up and down scripts strictly alternate, up first, and a version is recorded exactly when its last script was up |
| Migrations.RepeatedCallsRunNothing | internal/store/migrations/migrate.go:118-131 | after a completed Up another runs nothing, and after a completed Down another Down |

## Left out

- HTTP handlers, JSON encoding, logging, NATS events, configuration files, the TUI and the LLM adapters: no invariant to keep.
- bcrypt, request signing, JWT signatures and the choice of random VA numbers: a token is taken as validly signed; VA numbers
  and ids are parameters, and the unique index on `va_number` and the primary keys are enforced by the tables.
- The bank adapters: the bank is an answer (success, failure, error code, nothing). After a failure between the reservation and
  the answer the bank may have paid; what the bank did is not part of this model.
- PostgreSQL itself: transactions are atomic at commit; locks appear only as the lock on a withdrawal's log row. Ambiguous
  commits, foreign keys, and the deadlocks that opposite transfers can run into are not modelled.
- The columns category, currency, failure_reason, committed_at, reversed_at, paid_at and expires_at, and the width of the INT
  column version.
- The BI limits and the minimum transfer are checked in the services but do not restrict the steps of the transition system, which allow any positive amount.
- Time in Redis: the services' cache records lifetimes, and expiry is a step of `Requests` that may come at any moment; only
  `RequestTiming` uses how long keys live. Restarts, which empty the token store and the buckets, and clock skew are left out.
- RequestReplies.RepeatedReply: a cached response is a value, not JSON; decoding one of another kind fills only the fields
  that happen to have the same names.
- WalletTheorems.NoOverflowEver: a webhook transaction that fails at COMMIT is no step, because it leaves no trace; the
  addition it executes is the one that the committing step executes in the same state, and that one is covered.
- Floating point: rates are integers, buckets and statistics are exact reals, and the discount of a promo code is whatever
  non-negative amount the floating-point computation returns.
- RateLimit.TokenBucket.Allow: what Go's conversion to a duration yields for a wait beyond 64 bits, or with a rate of zero, is a
  parameter, because it depends on the platform.
- Saga.SagaCoordinator.Execute: waits are exact numbers, because 64-bit durations overflow only for retry counts that no constructor sets; a missing compensation is not modelled, because the one caller passes one.
- Paging.FixedLogPages: created_at is within the 64 bits of a cursor, because UnixNano is undefined outside them.
- BankService.Service.RequestWithdraw: a finish that meets another one's lock either comes later, after more steps of others, or its
  first statement fails; ProcessWithdrawCallback does the same. That one waits and then goes on is a step of `Requests`.
- Velocity and exhaustion nudges, number formatting, enum parsers, phone validation, `IsUsed`, and the PostgreSQL idempotency store, which no
  service uses: single-branch members.
