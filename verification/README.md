# Airflex verification

A Dafny model of the money-moving and delivery code of Airflex, a peer-to-peer airtime and data
market: the two Soroban contracts, the seller's offline order queue, the server's background job
queue and its Redis reply reader, the OTP rate limiter, and the naira/stroop conversion. Check it
with `dafny verify dfyconfig.toml`.

## How the model is laid out

* `Sums.dfy`, `Decimal.dfy` - totals and filters over sequences; decimal text.
* `TokenLedger.dfy` - token contracts as the list of transfers they have made. A balance is a total
  over that list, and each transfer says which trade and fill it was for.
* `EscrowSpec.dfy` - the escrow contract as a state machine, one function a call, errors and host
  traps included. `EscrowInvariant.dfy` - what every call keeps. `EscrowRules.dfy` - exactly when
  each call succeeds, what it leaves behind, and what its errors say. `EscrowRuns.dfy` - theorems over
  whole runs. `EscrowHistory.dfy` - what the state says, told from the calls that succeeded before.
  `EscrowLeftovers.dfy` - trades that stay part filled with nothing held.
  `EscrowContract.dfy` - the contract as a class over its storage entries, with its loops over fill
  ids, proved to make exactly the state machine's steps.
* `MarketSpec.dfy`, `MarketInvariant.dfy`, `MarketRules.dfy`, `MarketRuns.dfy`, `MarketHistory.dfy`,
  `MarketContract.dfy` - the same for the marketplace. Its state keeps every listing ever made; `MarketReplaced.dfy` says which of them an id
  stands for and what is lost when ids are given out twice. `MarketOverflow.dfy` - a run to a sale
  that cannot be released.
* `OfflineQueue.dfy`, `OfflineDelivery.dfy`, `OrderQueue.dfy` - the offline queue as steps between
  awaits, with a server and a network; exactly-once delivery; the module's own code as a class.
  `OfflineRules.dfy` - what each step does to the orders a reader sees.
  `OfflineReuse.dfy` - when a key may be used for a second order. `OfflineExamples.dfy` - runs with
  surprising ends.
* `JobQueue.dfy`, `JobQueueService.dfy` - the in-process job queue as a lane of jobs; a job's
  permitted life as an automaton defined apart from the queue; the service's code as a class.
  `JobHistory.dfy` - where the jobs in a lane come from, and how each step moves them.
* `RespParser.dfy` - the Redis reply reader and its class.
* `OtpLimiter.dfy`, `OtpProtocol.dfy` - the limiter's decision and its transaction; concurrent
  transactions with advisory locks.
* `Units.dfy` - the conversions, over any rounding of the IEEE 754 kind.

In the contract models a run (`Run`) is any list of calls in ledger-time order by any parties, with
the reply to each and the states between, starting from an uninitialised contract. Calls by
outsiders to the token contracts, gifts to the contract included, are calls of the run too. The
other machines' runs are any interleaving of their steps.

## Assumptions

* Tokens move exact amounts and do not call back. The contracts' own addresses sign nothing, so
  they are no seller, no buyer and no sender of outside transfers.
* Whoever a call names as caller has authorised it; calls without a caller are the admin's.
* Ledger time is positive, does not go back, and stays clear of the end of u64; id counters stay
  below 2^64. i128 amounts are bounded in the model: the escrow's arithmetic is proved never to
  leave i128, and the marketplace's volume counter traps as the source does.
* Storage entries do not expire.
* Job ids are fresh. Nobody but the queue module writes to its storage key.

## Findings

* `contracts/readme.md` lines 229-243 let a buyer refund themselves 24 hours after the trade was
  locked and say the trade becomes `Cancelled`. The code tests `expires_at` and leaves the trade
  `Open` or `PartiallyFilled` (contracts/escrow/src/lib.rs lines 825, 860-866;
  `EscrowRules.RefundLeaves`). The model follows the code.
* The comment at contracts/escrow/src/lib.rs lines 848-854 says `checked_sub` turns a refund larger than
  `filled_amount` into an error. `checked_sub` on i128 does so only below the least i128. The branch
  is unreachable either way (`EscrowContract.Contract.RefundFills`).
* After expiry a trade can stay `PartiallyFilled` with nothing held: exactly when some of its total but
  not all of it was released, no fill is active and it was not cancelled. No refund is needed to get
  there (`EscrowLeftovers.LeftoverIff`, `EscrowLeftovers.PartReleaseStays`). It strands no money, it
  cannot be closed as expired, and only the admin's cancel ends it (`EscrowLeftovers.OnlyAdminEndsLeftover`).
* Marketplace listings can be made before `initialize`, which sets the listing counter back to zero
  (contracts/marketplace/src/lib.rs lines 256-258); the ids given out after it overwrite the earlier entries.
  An overwritten sale's price stays in the contract and is never settled, and an overwritten active
  listing keeps its place in its seller's index. `MarketReplaced.LateInitializeStrands` is such a run,
  and `MarketReplaced.InitializeSafeIff` the exact condition: nothing is ever replaced if and only if
  the listing count is zero when `initialize` succeeds. Over all runs the promises hold for every
  listing ever made, and over the stored ones exactly when no overwritten listing was sold
  (custody), active (index) or settled (reputation).
* A marketplace release is aborted when the seller's recorded volume would pass i128, whatever the
  escrowed balance; a refund is not (`MarketRuns.SettlementSucceedsIff`, reached in
  `MarketOverflow.ReleaseCanTrap`).
* An answer whose body is the JSON value null makes the offline queue's reading of it throw. A refusal
  with status 400 and that body is then retried automatically, although lines 274-276 of
  frontend/app/offline/orderQueue.ts say a rejected order waits for an explicit Retry
  (`OfflineDelivery.RetriedAutomaticallyIff`, `OfflineExamples.NullBodyIsRetried`). After a 2xx with
  it, the order is reported both as sent and as failed (`OfflineDelivery.AnswerReports`,
  `OfflineExamples.NullBodyContradicts`).
* An order enqueued with an empty idempotency key, or with a number that is NaN or infinite, is stored and
  returned to the caller, but `isQueuedOrder` (lines 84-94 of frontend/app/offline/orderQueue.ts) drops it at
  every later read and the next save erases it: it is never sent (`OfflineExamples.EmptyKeyIsLost`). An
  enqueued order is there at the next read if and only if its key is not empty and its numbers are
  finite (`OfflineDelivery.EnqueuedIsReadIff`), and the delivery theorems are about exactly those
  orders (`OfflineDelivery.QueuedIff`).
* The offline queue tells orders apart by key only. A key used again after a discard can have its
  second order removed by the answer to the first one's request (`OfflineExamples.ReusedKeyLosesOrder`).
  `OfflineReuse.ReuseSafeIff` is the exact condition: the queued order is safe in every continuation if
  and only if it is listed already, or no other request of its key has been sent or waits in a
  running flush's remaining snapshot.
* Obeying the OTP limiter's Retry-After is not enough. The refused attempt is charged too, so when
  the oldest row alone leaves the window the next attempt is refused again
  (`OtpLimiter.WaitingForTheOldestIsTooShort`, `OtpLimiter.ObeyingRetryAfterFails`).
* A Redis reply nobody queued a command for, such as the one to AUTH, is not skipped as the comment
  at server/src/jobs/queue.ts line 206 says: whatever the reply, it settles the first waiting command and
  shifts the rest (`RespParser.UnqueuedReplyShifts`). With no command waiting it stays in the buffer and
  does so later. A line is skipped if and only if it starts with none of `+`, `:`, `$` and `-`
  (`RespParser.LineSkippedIff`).
* How the Redis reader cuts its input can matter, but only after a bulk length so negative that it
  points before the header, as in "$-9\r\n" (`RespParser.ChunkingIndependentIff`,
  `RespParser.NegativeHeaderBackwardIff`, `RespParser.BackwardExample`).

## Model

| member | source | states |
|---|---|---|
| EscrowRuns.RunKeepsInv | contracts/escrow/src/lib.rs:224-1025 | every state of every run satisfies the whole invariant: ledger agreement, exact status, one active fill per buyer, custody, pause bookkeeping |
| EscrowInvariant.StepKeepsInv | contracts/escrow/src/lib.rs:224-1025 | every call, whatever it replies and whoever makes it, keeps that invariant |
| EscrowRuns.CustodyConserved | contracts/escrow/src/lib.rs:523-556 | for every token the contract's balance is its donations plus all active fills of all trades, less emergency withdrawals |
| EscrowRuns.Solvent | contracts/escrow/src/lib.rs:816-838 | with nothing withdrawn from a token, the contract can cover all held fills of any of its trades at once |
| EscrowRuns.AdminCancelSettles | contracts/escrow/src/lib.rs:781-873 | on a trade that holds funds the admin's cancel succeeds if and only if the money is there (always, absent withdrawals), refunds every held fill, changes no other, and cancels |
| EscrowRuns.SelfRefundSettlesOneFill | contracts/escrow/src/lib.rs:816-842 | after expiry a buyer's own call succeeds, settles exactly one fill and makes exactly one transfer, of that fill's amount |
| EscrowRuns.PayoutsNeverTrap | contracts/escrow/src/lib.rs:608-613 | no release or refund is aborted for lack of funds unless an emergency withdrawal was made |
| EscrowInvariant.HeldStatus | contracts/escrow/src/lib.rs:882-901 | funds are held only by stored trades that are part filled, locked or disputed, so nothing removed or finished holds any |
| EscrowRuns.EachFillPaidOnce | contracts/escrow/src/lib.rs:604-647 | the transfers out of the contract for a fill are none while held, then exactly one, of its amount, to the seller if released and to its buyer if refunded |
| EscrowRuns.SellerReceivesTotal | contracts/escrow/src/lib.rs:620-647 | what the seller was paid for a trade is what is filled and not held, never above the total, and exactly the total once completed |
| EscrowRuns.CapacityNeverRecycled | contracts/escrow/src/lib.rs:491-516 | the sum of all fills ever made on a trade, refunded ones included, never exceeds its total |
| EscrowRuns.NoDepositAfterRefund | contracts/escrow/src/lib.rs:491-516 | once a refund on a trade has succeeded, every later deposit on it fails |
| EscrowRuns.StepGrows | contracts/escrow/src/lib.rs:860-960 | one call keeps a trade's terms, its settled fills and its terminal status, and moves the status only along the contract's graph, where only the admin's refund and a close lead to cancelled |
| EscrowRuns.RunGrows | contracts/escrow/src/lib.rs:478-960 | the same over any stretch of a run, with the dispute window only moving later |
| EscrowRuns.PausedSince | contracts/escrow/src/lib.rs:264-307 | a paused contract was paused by one call at the recorded time and at every moment since |
| EscrowRuns.EmergencyNeedsLongPause | contracts/escrow/src/lib.rs:980-1023 | a successful emergency withdrawal comes at least 72 hours into an unbroken pause, in which no listing, deposit, release, refund or dispute succeeded |
| EscrowRuns.TimelockCoversEveryDeposit | contracts/escrow/src/lib.rs:558-562 | a successful release by timelock comes at least 24 hours after every deposit on the trade |
| EscrowRuns.RunExists | contracts/escrow/src/lib.rs:224-1025 | every ordered list of calls has a run, so the theorems about runs speak of all of them |
| EscrowInvariant.DepositedOk | contracts/escrow/src/lib.rs:526-566 | a taken deposit keeps the trade well formed and raises what it holds by the amount |
| EscrowInvariant.PaidOk | contracts/escrow/src/lib.rs:615-647 | a release keeps the trade well formed, and completes it exactly when the whole total has then been released |
| EscrowInvariant.ReturnedOk | contracts/escrow/src/lib.rs:855-866 | after a refund, by admin or buyer, the status again says exactly what the fills do |
| EscrowInvariant.AfterRefundSums | contracts/escrow/src/lib.rs:816-842 | the refund loop moves exactly its total from held to refunded and leaves released and ever-deposited totals alone |
| EscrowRules.DepositAcceptedIff | contracts/escrow/src/lib.rs:472-524 | a deposit is taken exactly when the trade is offered and unexpired, the buyer is neither seller nor admin and holds no fill, the amount fits in what is not taken by unrefunded fills, and the buyer can pay |
| EscrowRules.ReleaseAcceptedIff | contracts/escrow/src/lib.rs:582-613 | the admin can release exactly the held fills of undisputed trades whose money is there |
| EscrowRules.TimelockAcceptedIff | contracts/escrow/src/lib.rs:675-718 | a release by timelock works exactly when the admin's release would, the caller is seller or admin, and the window has closed |
| EscrowRules.SelfRefundAcceptedIff | contracts/escrow/src/lib.rs:781-858 | a non-admin refund works exactly for holders of a fill after expiry whose money is there |
| EscrowRules.DisputeAcceptedIff | contracts/escrow/src/lib.rs:916-960 | a dispute can be raised exactly on a fully filled, undisputed trade with something held, by its seller or anyone who bought into it |
| EscrowRules.CloseAcceptedIff | contracts/escrow/src/lib.rs:882-901 | an expired listing can be closed exactly when all its fills were refunded |
| EscrowLeftovers.LeftoverIff | contracts/escrow/src/lib.rs:620-640 | a well-formed trade is part filled with nothing held exactly when nothing is held, it was not cancelled, and some but not all of its total was released |
| EscrowLeftovers.OnlyAdminEndsLeftover | contracts/escrow/src/lib.rs:781-901 | once such a trade has expired, the only call that changes it is the admin's cancel on an unpaused contract, which always works and moves no money |
| EscrowLeftovers.PartReleaseStays | contracts/escrow/src/lib.rs:620-640 | a run that ends in such a trade without any refund, and a close of it that fails |
| EscrowRules.DepositMovesBalances | contracts/escrow/src/lib.rs:523-524 | a deposit's effect on every balance of every token |
| EscrowRules.ReleaseMovesBalances | contracts/escrow/src/lib.rs:608-613 | a release's effect on every balance of every token |
| EscrowRules.RefundMovesBalances | contracts/escrow/src/lib.rs:816-842 | a refund gives every address exactly its own refundable fills, out of the contract, and touches nothing else |
| EscrowRules.FailureChangesNothing | contracts/escrow/src/lib.rs:478-524 | a failed or aborted call changes nothing but the time |
| EscrowRules.OthersUntouched | contracts/escrow/src/lib.rs:314-960 | a trade changes only by a successful call about it |
| EscrowRules.CreateAcceptedIff | contracts/escrow/src/lib.rs:314-377 | a listing is taken exactly when token and category are allowed, the total is positive and it ends within 30 days; it is then open under the next id with exactly the given terms |
| EscrowRules.DepositLeaves | contracts/escrow/src/lib.rs:526-566 | a deposit adds one held fill of that buyer and amount, starts the 24 hours anew, and locks the trade exactly when it fills it |
| EscrowRules.ReleaseLeaves | contracts/escrow/src/lib.rs:615-647 | a release marks its one fill and completes the trade exactly when the whole total has been released |
| EscrowRules.RefundLeaves | contracts/escrow/src/lib.rs:855-866 | a refund by anyone but the admin leaves the trade open exactly when every fill is refunded, part filled otherwise, and never cancelled; the admin's always cancels |
| EscrowRules.CloseAfterLastRefund | contracts/escrow/src/lib.rs:860-901 | after the last kept fill was refunded to its buyer, the listing can be closed by anyone |
| EscrowRules.AdminCancelAcceptedIff | contracts/escrow/src/lib.rs:781-858 | the admin can cancel exactly the trades not cancelled with some fill kept and not everything released, whose held fills are covered |
| EscrowRules.DisputeLeaves | contracts/escrow/src/lib.rs:960-963 | a dispute makes the trade disputed and changes neither fills nor money |
| EscrowRules.CloseLeaves | contracts/escrow/src/lib.rs:896-899 | closing removes the entry, cancels the trade and moves no money |
| EscrowRules.UnpauseAcceptedIff | contracts/escrow/src/lib.rs:287-308 | a pause can be lifted exactly 300 seconds or more after it began |
| EscrowRules.EmergencyAcceptedIff | contracts/escrow/src/lib.rs:980-1014 | money can be withdrawn exactly in a pause at least 72 hours old, up to what the contract holds |
| EscrowRules.EmergencyMovesBalances | contracts/escrow/src/lib.rs:1014-1016 | a withdrawal's effect on every balance of every token |
| EscrowRules.SettingsAcceptedIff | contracts/escrow/src/lib.rs:224-457 | settings are changed exactly when there is an admin, initialisation exactly when there is none |
| EscrowRules.ErrorsAreTrue | contracts/escrow/src/lib.rs:224-1023 | no call answers with an error that is not so, and a pause answers all calls it stops alike |
| EscrowRules.TrapsAreTrue | contracts/escrow/src/lib.rs:523-838 | a call is aborted only because its payer cannot cover the transfer |
| EscrowHistory.TokenHistory | contracts/escrow/src/lib.rs:244-413 | a token is allowed exactly if the last successful call about it allowed it |
| EscrowHistory.CategoryHistory | contracts/escrow/src/lib.rs:249-443 | the same for a category |
| EscrowHistory.AdminHistory | contracts/escrow/src/lib.rs:224-457 | the admin is the one last named by a successful initialisation or transfer |
| EscrowHistory.PauseHistory | contracts/escrow/src/lib.rs:264-308 | the contract is paused exactly if the last successful call of the two was a pause |
| EscrowHistory.PauseLasts | contracts/escrow/src/lib.rs:287-308 | a pause lasts at least 300 seconds in every run |
| EscrowHistory.StatusHistory | contracts/escrow/src/lib.rs:526-960 | in every run a trade is cancelled exactly if it was closed or refunded by the admin, disputed exactly if a dispute has not been followed by a refund, gone exactly if closed, and otherwise has the status its fills make |
| EscrowHistory.DisputeFreezesReleases | contracts/escrow/src/lib.rs:582-960 | between a dispute on a trade and the next successful refund of it every release of it fails |
| EscrowHistory.TradeWasPosted | contracts/escrow/src/lib.rs:314-377 | every trade has exactly the terms of the create that was given its id |
| EscrowHistory.FillWasDeposited | contracts/escrow/src/lib.rs:526-566 | every fill has exactly the buyer and amount of one deposit, and the window closes 24 hours after the last of them |
| EscrowContract.Contract.constructor | contracts/escrow/src/lib.rs:21-32 | a contract with empty storage is the state runs start from |
| EscrowContract.Contract.Initialize | contracts/escrow/src/lib.rs:224-258 | makes the model's step, the reset of the trade counter changing nothing since no trade can come before it; an error leaves every storage entry as it was |
| EscrowContract.Contract.Pause | contracts/escrow/src/lib.rs:264-283 | the same; pausing again does not move the start of the pause |
| EscrowContract.Contract.Unpause | contracts/escrow/src/lib.rs:287-308 | the same, with the cooldown |
| EscrowContract.Contract.CreateListing | contracts/escrow/src/lib.rs:314-377 | makes the model's step; an error leaves every storage entry as it was |
| EscrowContract.Contract.AddAllowedToken | contracts/escrow/src/lib.rs:388-398 | makes the model's step |
| EscrowContract.Contract.RemoveAllowedToken | contracts/escrow/src/lib.rs:403-413 | makes the model's step |
| EscrowContract.Contract.AddCategory | contracts/escrow/src/lib.rs:417-428 | makes the model's step |
| EscrowContract.Contract.RemoveCategory | contracts/escrow/src/lib.rs:432-443 | makes the model's step |
| EscrowContract.Contract.TransferAdmin | contracts/escrow/src/lib.rs:448-457 | makes the model's step |
| EscrowContract.Contract.HasActiveFill | contracts/escrow/src/lib.rs:189-209 | the scan over fill ids finds an active fill of the buyer exactly when there is one |
| EscrowContract.Contract.DepositToEscrow | contracts/escrow/src/lib.rs:472-575 | over the storage entries makes exactly the model's step, keeps fill ids dense, stays within i128, and changes nothing on an error |
| EscrowContract.Contract.AllSettled | contracts/escrow/src/lib.rs:622-640 | the early-exit scan is true exactly when no fill is held |
| EscrowContract.Contract.ReleaseFill | contracts/escrow/src/lib.rs:596-647 | the payment both release calls make is the model's, entry by entry |
| EscrowContract.Contract.ReleasePayment | contracts/escrow/src/lib.rs:582-659 | makes exactly the model's step; an error changes nothing |
| EscrowContract.Contract.ReleaseByTimelock | contracts/escrow/src/lib.rs:675-775 | makes exactly the model's step; an error changes nothing |
| EscrowContract.Contract.RefundLoop | contracts/escrow/src/lib.rs:806-846 | the fill-by-fill loop stops early exactly on the caller's time lock or an uncovered transfer, having changed nothing in the first case, and otherwise has refunded exactly the refundable fills |
| EscrowContract.Contract.RefundFills | contracts/escrow/src/lib.rs:806-873 | loop, late authorisation check, checked subtraction and status together make the model's refund; both error returns leave storage unchanged, and the subtraction cannot fail |
| EscrowContract.Contract.CancelAndRefund | contracts/escrow/src/lib.rs:781-873 | makes exactly the model's step; an error changes nothing |
| EscrowContract.Contract.CloseExpiredListing | contracts/escrow/src/lib.rs:882-901 | makes exactly the model's step; an error changes nothing |
| EscrowContract.Contract.FlagDispute | contracts/escrow/src/lib.rs:916-961 | makes exactly the model's step, the party found by a scan; an error changes nothing |
| EscrowContract.Contract.EmergencyWithdraw | contracts/escrow/src/lib.rs:980-1023 | makes exactly the model's step; an error changes nothing |
| MarketRuns.RunKeepsInv | contracts/marketplace/src/lib.rs:250-835 | every state of every run satisfies the marketplace invariant and the earnings ledger |
| MarketInvariant.StepKeepsInv | contracts/marketplace/src/lib.rs:250-835 | every call keeps custody, the index, the reputation records and each listing's transfer history |
| MarketRuns.CustodyConserved | contracts/marketplace/src/lib.rs:428-436 | for every token the balance is donations plus the prices of all sold listings ever made, overwritten ones included, less emergency withdrawals |
| MarketRuns.IndexExact | contracts/marketplace/src/lib.rs:196-233 | the stored count is the number of the seller's active listings, overwritten ones included, present exactly when there is one, at most ten, so neither saturating step ever saturates |
| MarketRuns.ReputationAgrees | contracts/marketplace/src/lib.rs:168-192 | completed and disputed count the seller's listings, overwritten ones included, that were paid out to the seller and to the buyer, together all that found a buyer and are no longer sold, and the volume is exactly what the contract has paid the seller for them |
| MarketRuns.ListingPaidOnce | contracts/marketplace/src/lib.rs:428-587 | all transfers ever made for a listing, overwritten or not: the buyer paid in its price, and it was paid out at most once, to the seller or back to that buyer |
| MarketRuns.SettlementSucceedsIff | contracts/marketplace/src/lib.rs:453-592 | exactly when a sold listing can be released, when it can be refunded, and when a dispute over it can be resolved for whom |
| MarketRuns.Solvent | contracts/marketplace/src/lib.rs:465-472 | with nothing withdrawn from its token, the price of any sold listing is there |
| MarketRuns.StepKeepsListing | contracts/marketplace/src/lib.rs:602-651 | a call leaves price and buyer alone once a listing is sold, and everything once it is released or cancelled |
| MarketRuns.RunKeepsListing | contracts/marketplace/src/lib.rs:401-651 | the same over any stretch of a run, for every listing ever made |
| MarketRuns.EmergencyNeedsLongPause | contracts/marketplace/src/lib.rs:661-706 | a successful emergency withdrawal comes at least 72 hours into an unbroken pause in which nothing was listed, sold, settled or taken down |
| MarketReplaced.IdsNameStored | contracts/marketplace/src/lib.rs:352-379 | ids stand for exactly the listings not overwritten, one each |
| MarketReplaced.CustodyOfStoredIff | contracts/marketplace/src/lib.rs:256-258 | custody counts the stored listings alone exactly when no overwritten listing was sold for the token; otherwise the balance is higher by their prices |
| MarketReplaced.IndexOfStoredIff | contracts/marketplace/src/lib.rs:256-258 | a seller's count is that of the stored listings alone exactly when no overwritten listing of the seller was active |
| MarketReplaced.ReputationOfStoredIff | contracts/marketplace/src/lib.rs:256-258 | a seller's record is that of the stored listings alone exactly when no overwritten listing of the seller was settled |
| MarketReplaced.RunKeepsIdIff | contracts/marketplace/src/lib.rs:352-379 | over any stretch of a run an id goes on standing for the same listing exactly when that listing is not overwritten |
| MarketReplaced.StrandedForGood | contracts/marketplace/src/lib.rs:453-592 | once a sold listing is overwritten its price is never paid out |
| MarketReplaced.OverwritesIff | contracts/marketplace/src/lib.rs:352-379 | a call overwrites a listing exactly when it is a successful create and the id after the listing count is in use |
| MarketReplaced.OverwrittenIff | contracts/marketplace/src/lib.rs:250-379 | a run has overwritten a listing exactly when some listing was made before a successful `initialize` and another after it |
| MarketReplaced.InitializeSafeIff | contracts/marketplace/src/lib.rs:250-262 | every stored listing keeps its id and its terms in all runs after `initialize` if and only if the listing count is zero when it succeeds |
| MarketReplaced.PromptInitialize | contracts/marketplace/src/lib.rs:250-262 | in every run without a late `initialize`, custody, index and reputation are those of the stored listings |
| MarketReplaced.LateInitializeStrands | contracts/marketplace/src/lib.rs:250-379 | a run in which ids are given out twice, a buyer's price is stranded and a seller's place stays taken |
| MarketOverflow.ReleaseCanTrap | contracts/marketplace/src/lib.rs:183-183 | a run to a funded sale whose release is aborted and whose refund goes through |
| MarketInvariant.IndexTakesDown | contracts/marketplace/src/lib.rs:216-233 | taking a listing down frees one place of its seller and leaves every other seller's count right |
| MarketInvariant.RatingSettles | contracts/marketplace/src/lib.rs:168-192 | a settled sale is counted once, for its seller only |
| MarketRules.OthersUntouched | contracts/marketplace/src/lib.rs:326-834 | a listing changes only by a successful call about it |
| MarketRules.CreateAcceptedIff | contracts/marketplace/src/lib.rs:326-391 | a listing is taken exactly when price and quantity are positive, it ends in the future and the seller has fewer than ten active ones; it is then offered under the next id with exactly the given terms |
| MarketRules.DepositAcceptedIff | contracts/marketplace/src/lib.rs:401-443 | a deposit is taken exactly when the listing is active and unexpired, the buyer is not its seller and can pay; the listing is then sold to that buyer for one transfer of the price |
| MarketRules.DepositMovesBalances | contracts/marketplace/src/lib.rs:424-426 | a deposit's effect on every balance of every token |
| MarketRules.ReleaseAcceptedIff | contracts/marketplace/src/lib.rs:453-490 | exactly when the admin can release, and that the listing is then released and its price paid to the seller |
| MarketRules.RefundAcceptedIff | contracts/marketplace/src/lib.rs:499-537 | exactly when the admin can refund, and that the listing is then cancelled and its price paid to its buyer |
| MarketRules.ResolveAcceptedIff | contracts/marketplace/src/lib.rs:546-592 | exactly when a dispute can be resolved, and that the listing is then cancelled and its price paid to the recipient |
| MarketRules.SettlementMovesBalances | contracts/marketplace/src/lib.rs:465-570 | a settlement's effect on every balance of every token |
| MarketRules.UpdateAcceptedIff | contracts/marketplace/src/lib.rs:602-651 | exactly the seller can change an active offer, which then has the given price and end |
| MarketRules.TakeDownAcceptedIff | contracts/marketplace/src/lib.rs:772-834 | exactly the seller can cancel an active offer, and anyone close it once expired; no money moves |
| MarketRules.SettingsAcceptedIff | contracts/marketplace/src/lib.rs:250-317 | the admin's calls succeed exactly when there is an admin, initialisation exactly when there is none |
| MarketRules.EmergencyAcceptedIff | contracts/marketplace/src/lib.rs:661-698 | money can be withdrawn exactly in a pause at least 72 hours old, up to what the contract holds |
| MarketRules.EmergencyMovesBalances | contracts/marketplace/src/lib.rs:698-698 | a withdrawal's effect on every balance of every token |
| MarketRules.FailureChangesNothing | contracts/marketplace/src/lib.rs:326-834 | a failed or aborted call changes nothing but the time |
| MarketRules.ErrorsAreTrue | contracts/marketplace/src/lib.rs:250-834 | no call answers with an error that is not so, and a pause answers all calls about listings alike |
| MarketRules.TrapsAreTrue | contracts/marketplace/src/lib.rs:180-586 | a call is aborted only for lack of funds or of room in the seller's record |
| MarketHistory.AdminHistory | contracts/marketplace/src/lib.rs:250-317 | the admin is the one last named by a successful initialisation or transfer |
| MarketHistory.PauseHistory | contracts/marketplace/src/lib.rs:270-303 | the contract is paused exactly if the last successful call of the two was a pause |
| MarketHistory.SoldHistory | contracts/marketplace/src/lib.rs:401-592 | a listing is sold exactly if a deposit on it has not been followed by a settlement |
| MarketHistory.ReleasedHistory | contracts/marketplace/src/lib.rs:453-490 | a listing is released exactly if a release of it succeeded |
| MarketHistory.CancelledHistory | contracts/marketplace/src/lib.rs:499-834 | a listing is cancelled exactly if it was refunded, resolved, cancelled or closed |
| MarketHistory.PaidHistory | contracts/marketplace/src/lib.rs:453-592 | a listing's seller was paid exactly if it was released or a dispute over it resolved in the seller's favour |
| MarketHistory.BuyerHistory | contracts/marketplace/src/lib.rs:428-429 | a listing's buyer is the one who deposited on it |
| MarketHistory.ListingWasPosted | contracts/marketplace/src/lib.rs:326-391 | every listing was posted by one create, which fixed all but its price and its end |
| MarketHistory.PriceIsLastSet | contracts/marketplace/src/lib.rs:602-651 | a listing's price and end are those of its last successful update, or else of its create |
| MarketContract.Contract.IncrementActiveListingCount | contracts/marketplace/src/lib.rs:203-214 | the saturating increment on the stored map |
| MarketContract.Contract.DecrementActiveListingCount | contracts/marketplace/src/lib.rs:216-233 | the saturating decrement, dropping the entry at zero |
| MarketContract.Contract.UpdateReputation | contracts/marketplace/src/lib.rs:168-192 | counts the trade, or fails where a counter or the volume would overflow |
| MarketContract.Contract.PayOutPrice | contracts/marketplace/src/lib.rs:465-480 | the transfer succeeds exactly when the price is there, and the entry is then written back with its new status |
| MarketContract.Contract.Initialize | contracts/marketplace/src/lib.rs:250-262 | makes the model's step: the counter goes to zero and every listing entry stays; an error changes nothing |
| MarketContract.Contract.Pause | contracts/marketplace/src/lib.rs:270-289 | makes the model's step |
| MarketContract.Contract.Unpause | contracts/marketplace/src/lib.rs:293-303 | makes the model's step |
| MarketContract.Contract.TransferAdmin | contracts/marketplace/src/lib.rs:308-317 | makes the model's step |
| MarketContract.Contract.CreateListing | contracts/marketplace/src/lib.rs:326-391 | makes the model's step over storage, index included, writing over any entry stored under the id; an error changes nothing |
| MarketContract.Contract.DepositToEscrow | contracts/marketplace/src/lib.rs:401-443 | makes the model's step over storage, index included; an error changes nothing |
| MarketContract.Contract.Settle | contracts/marketplace/src/lib.rs:465-485 | transfer, write-back and rating together are the model's payment, rolled back whole when the rating overflows |
| MarketContract.Contract.ReleasePayment | contracts/marketplace/src/lib.rs:453-490 | makes exactly the model's step; an error changes nothing |
| MarketContract.Contract.CancelAndRefund | contracts/marketplace/src/lib.rs:499-537 | makes exactly the model's step; an error changes nothing |
| MarketContract.Contract.ResolveDispute | contracts/marketplace/src/lib.rs:546-592 | makes exactly the model's step; an error changes nothing |
| MarketContract.Contract.UpdateListing | contracts/marketplace/src/lib.rs:602-651 | makes exactly the model's step; an error changes nothing |
| MarketContract.Contract.CancelListing | contracts/marketplace/src/lib.rs:772-800 | makes exactly the model's step; an error changes nothing |
| MarketContract.Contract.CloseExpiredListing | contracts/marketplace/src/lib.rs:807-834 | makes exactly the model's step; an error changes nothing |
| MarketContract.Contract.EmergencyWithdraw | contracts/marketplace/src/lib.rs:661-706 | makes exactly the model's step; an error changes nothing |
| OfflineDelivery.RunKeepsInv | frontend/app/offline/orderQueue.ts:101-298 | every interleaving keeps the queue's invariant |
| OfflineDelivery.AtMostOneListing | frontend/app/offline/orderQueue.ts:236-257 | each idempotency key has at most one listing, and only for a payload queued under it |
| OfflineDelivery.ListingIsAsQueued | frontend/app/offline/orderQueue.ts:244-248 | a key queued with one payload is listed with that payload |
| OfflineDelivery.NoOrderLost | frontend/app/offline/orderQueue.ts:159-188 | every key ever queued with a readable order can still be read from the queue, was discarded, or has a listing; for a key queued with one payload only, it is that order itself that is queued or listed |
| OfflineDelivery.EnqueuedIsReadIff | frontend/app/offline/orderQueue.ts:82-123 | an order just enqueued is there at the next read exactly when its key is not empty and its numbers are finite |
| OfflineDelivery.QueuedIff | frontend/app/offline/orderQueue.ts:159-178 | in every run, what counts as queued is exactly what was enqueued readable under a key not in the queue then |
| OfflineDelivery.SentWasReadable | frontend/app/offline/orderQueue.ts:221-249 | nothing is ever sent or listed but what was enqueued readable |
| OfflineDelivery.LeavesOnlyWhenDone | frontend/app/offline/orderQueue.ts:180-257 | a key that can be read from the queue leaves it exactly by a discard or a 2xx answer to a request for that key, so orders queued during a flush survive it; for a key queued with one payload only the request and the listing are that order's |
| OfflineDelivery.OneFlushAtATime | frontend/app/offline/orderQueue.ts:204-215 | the promise chain lets at most one flush run at a time |
| OfflineDelivery.NothingLeftSyncing | frontend/app/offline/orderQueue.ts:109-118 | with no request out nothing this page sent is left syncing, and a reader sees syncing only for a request that is out |
| OfflineDelivery.RetriedAutomaticallyIff | frontend/app/offline/orderQueue.ts:269-294 | a failed order counts one more attempt and is sent again automatically exactly after a network error, a 5xx, 429 or 408, or a refusal whose body is null |
| OfflineDelivery.AnswerReports | frontend/app/offline/orderQueue.ts:251-295 | an order is reported once: as sent exactly after a 2xx, as failed exactly after a refusal, a network error or a 2xx with a null body, and not at all after a 401, which stops the flush; other reports stay |
| OfflineDelivery.FlushEnds | frontend/app/offline/orderQueue.ts:226-231 | a flush ends exactly when its snapshot is worked through or the session is gone; not stopped, it has reported every order of its snapshot |
| OfflineDelivery.TakeSendsNext | frontend/app/offline/orderQueue.ts:233-249 | otherwise it sends the next order of its snapshot, as it was then |
| OfflineDelivery.SentKeysAreListed | frontend/app/offline/orderQueue.ts:251-257 | in every run each key reported as sent has a listing |
| OfflineDelivery.RunKeepsReports | frontend/app/offline/orderQueue.ts:217-298 | in every reachable state a flush under way has reported exactly the orders it is done with |
| OfflineRules.OthersUntouched | frontend/app/offline/orderQueue.ts:159-295 | no step but a reload changes what is shown of orders it is not about |
| OfflineRules.ShownIff | frontend/app/offline/orderQueue.ts:101-123 | a reader sees each readable stored order as it is, except that one left syncing which the page is not sending is shown as pending |
| OfflineRules.ReloadRevives | frontend/app/offline/orderQueue.ts:96-100 | an order left syncing is sent by the next automatic flush after the page is opened again |
| OfflineRules.EnqueueShows | frontend/app/offline/orderQueue.ts:159-178 | a readable order just enqueued is shown as given, pending and never tried, and the next automatic flush sends it |
| OfflineRules.TakeShows | frontend/app/offline/orderQueue.ts:233-234 | while its request is out an order is shown as syncing and is otherwise as before |
| OfflineRules.UnauthorizedShows | frontend/app/offline/orderQueue.ts:260-267 | after a 401 the order waits as before with no attempt counted, and the next automatic flush sends it |
| OfflineRules.FailedShows | frontend/app/offline/orderQueue.ts:269-290 | after a failed attempt the order is failed, with one attempt more, and otherwise as before |
| OfflineRules.SignedOutStops | frontend/app/offline/orderQueue.ts:227-231 | without a session a flush with orders left stops, says so, and changes nothing else |
| OfflineRules.FlushJoinsIff | frontend/app/offline/orderQueue.ts:204-215 | a call joins exactly when a flush is current and no key is given, and is chained behind it otherwise |
| OfflineRules.RunCurrentIsLive | frontend/app/offline/orderQueue.ts:209-213 | in every run nobody joins a flush that has settled |
| OfflineRules.DiscardedIff | frontend/app/offline/orderQueue.ts:180-182 | what counts as discarded is exactly what was discarded |
| OfflineExamples.NullBodyIsRetried | frontend/app/offline/orderQueue.ts:269-290 | a run in which a 400 is retried automatically if and only if its body is null |
| OfflineExamples.NullBodyContradicts | frontend/app/offline/orderQueue.ts:251-291 | a run in which an accepted order is reported both as sent and as failed |
| OfflineExamples.ReusedKeyLosesOrder | frontend/app/offline/orderQueue.ts:180-257 | a run in which a key used for two orders loses the second one |
| OfflineExamples.EmptyKeyIsLost | frontend/app/offline/orderQueue.ts:159-178 | a run in which an order with an empty key is stored, never read, and erased by the next save |
| OfflineReuse.ReuseSafeIff | frontend/app/offline/orderQueue.ts:204-257 | in every reachable state with an order queued: over all continuations without another enqueue of its key it leaves only by a discard or with its own listing, if and only if it is listed already or no other request of its key has been sent or waits in a running flush's remaining snapshot |
| OfflineReuse.OnePayloadIsSafe | frontend/app/offline/orderQueue.ts:159-178 | that condition holds when the key was never queued with another payload |
| OfflineDelivery.FlushesOldestFirst | frontend/app/offline/orderQueue.ts:221-226 | a flush works through exactly the wanted orders, oldest first, one a key; an empty `onlyKey` counts as none |
| OfflineQueue.LoadKeeps | frontend/app/offline/orderQueue.ts:82-123 | reading back gives exactly the readable orders, revived, oldest first, with keys still unique |
| OrderQueue.Queue.LoadQueue | frontend/app/offline/orderQueue.ts:82-123 | the queue read is the model's, holds readable orders only, and is oldest first |
| OrderQueue.Queue.EnqueueOrder | frontend/app/offline/orderQueue.ts:159-178 | makes the model's step and answers with an order of that key, which can be read back exactly when it is readable |
| OrderQueue.Queue.RemoveOrder | frontend/app/offline/orderQueue.ts:180-182 | keeps exactly the other keys |
| OrderQueue.Queue.UpdateOrder | frontend/app/offline/orderQueue.ts:184-188 | patches exactly the order of that key |
| OrderQueue.Queue.FlushQueue | frontend/app/offline/orderQueue.ts:204-215 | makes the model's step: joins when no key, or an empty one, is given, and chains otherwise |
| OrderQueue.Queue.StartFlush | frontend/app/offline/orderQueue.ts:217-224 | makes the model's step |
| OrderQueue.Queue.NextOrder | frontend/app/offline/orderQueue.ts:226-249 | makes the model's step, an empty token being no session; a request is only ever one the model has sent |
| OrderQueue.Queue.OnAnswer | frontend/app/offline/orderQueue.ts:251-295 | makes the model's step for every kind of answer |
| OrderQueue.Queue.FinishFlush | frontend/app/offline/orderQueue.ts:210-212 | makes the model's step |
| JobQueue.RunKeepsInv | server/src/jobs/queue.ts:304-460 | every interleaving keeps the lane's invariant |
| JobQueue.JobConserved | server/src/jobs/queue.ts:345-449 | every job ever enqueued, and no other, is in exactly one place; its life breaks no rule, it runs at most three times, is dead exactly after three failures, and never fails its way out of success |
| JobQueue.RetriesBackOffInRuns | server/src/jobs/queue.ts:363-421 | after a failed attempt the job's next event is a start, at least four fifths of the capped back-off later |
| JobQueue.LedgersAgree | server/src/jobs/queue.ts:402-460 | starts are completed plus failed plus active; the dead list is the newest hundred deaths; the failure notes give id, data and reason of the newest hundred deaths noted so far, and the rest are being noted in order |
| JobQueue.BackoffRange | server/src/jobs/queue.ts:474-479 | the delay lies between 80% and 120% of the capped base for every random number |
| JobQueue.LifeTallies | server/src/jobs/queue.ts:394-449 | what a permitted life says about the number of starts and failures |
| JobHistory.JobsCarryData | server/src/jobs/queue.ts:304-460 | every job in the lane, through every put-back, retry and death, carries the data it was enqueued with |
| JobHistory.EnqueuedOnce | server/src/jobs/queue.ts:304-313 | an id is enqueued once, so that data is the only one |
| JobHistory.EnqueueComesFirst | server/src/jobs/queue.ts:304-392 | a job's history begins with its enqueue, due after its delay, and its first start is not before that |
| JobHistory.DeadWasFailed | server/src/jobs/queue.ts:407-460 | a dead job had run three times and carries the reason of its last failure |
| JobHistory.NotesAreOfTheDead | server/src/jobs/queue.ts:433-440 | each failure note has the id, data and last reason of a job that was enqueued and died |
| JobHistory.CountersCount | server/src/jobs/queue.ts:402-409 | completed counts the successes and failed the failures |
| JobHistory.PollTakesFirst | server/src/jobs/queue.ts:376-383 | jobs are taken from the front of the list |
| JobHistory.StartedIff | server/src/jobs/queue.ts:354-400 | a job in hand is started exactly when it is due, with one attempt more, and goes to the end unchanged otherwise |
| JobHistory.EnqueuedLast | server/src/jobs/queue.ts:304-328 | a job is enqueued at the end of the list with its data, due after its delay |
| JobHistory.CappedDelayDoubles | server/src/jobs/queue.ts:474-479 | the capped base is two seconds at first, doubles with every attempt and never passes thirty |
| JobHistory.FailureRetriesOrKills | server/src/jobs/queue.ts:407-449 | a failed job is retried after two seconds the first time and four the second, give or take a fifth, and dies the third time |
| JobQueueService.QueueService.EnqueueJob | server/src/jobs/queue.ts:304-328 | makes the lane's step and keeps the invariant |
| JobQueueService.QueueService.DequeueJob | server/src/jobs/queue.ts:376-383 | makes the lane's step and keeps the invariant |
| JobQueueService.QueueService.HandleJob | server/src/jobs/queue.ts:354-400 | makes the lane's step: not due goes back, due starts |
| JobQueueService.QueueService.JobSucceeded | server/src/jobs/queue.ts:402-406 | makes the lane's step and keeps the invariant |
| JobQueueService.QueueService.JobFailed | server/src/jobs/queue.ts:407-449 | makes the lane's step: a retry or the dead-letter list |
| JobQueueService.QueueService.NoteDeadJob | server/src/jobs/queue.ts:431-440 | makes the lane's step: the failure notes gain the oldest death not yet noted and keep the newest hundred |
| JobQueueService.QueueService.MoveToDead | server/src/jobs/queue.ts:451-460 | push and shift keep the newest hundred |
| RespParser.ChunkingIndependentIff | server/src/jobs/queue.ts:142-212 | reading the text so far before or after what follows arrives is all one, for every continuation, if and only if no reply reached has a length pointing before its header |
| RespParser.NegativeHeaderBackwardIff | server/src/jobs/queue.ts:181-198 | a bulk header announcing minus n characters points before itself exactly from n = 6 on |
| RespParser.BulkHeaderIs | server/src/jobs/queue.ts:181-198 | what a bulk header does for any length written in it: null, a value cut from what follows, waiting for more, or, for a length that is no number, an empty value with the header left in the buffer |
| RespParser.BackwardExample | server/src/jobs/queue.ts:181-198 | after each such header there is a continuation that is settled differently depending on where the stream is cut |
| RespParser.AnyChunking | server/src/jobs/queue.ts:142-212 | any split of a stream into chunks settles the same commands with the same values and leaves the same buffer |
| RespParser.RepliesInOrder | server/src/jobs/queue.ts:164-212 | the k-th well-formed reply settles the k-th waiting command with what it means, and nothing is left over |
| RespParser.RepliesInOrderAnyChunking | server/src/jobs/queue.ts:142-212 | the same however the stream is cut |
| RespParser.UnqueuedReplyShifts | server/src/jobs/queue.ts:133-138 | any well-formed reply without a command settles the first waiting command and shifts all later ones; with none waiting it stays in the buffer and does the same to commands sent later |
| RespParser.LineSkippedIff | server/src/jobs/queue.ts:205-210 | a line is skipped, so that what follows is read as if it were not there, exactly when it starts with none of the four characters that begin a reply |
| RespParser.HeadStays | server/src/jobs/queue.ts:166-210 | what follows a complete reply does not change how it is read |
| RespParser.MinimalRedisClient.FlushBuffer | server/src/jobs/queue.ts:164-212 | the loop over buffer and queue computes the reading function |
| RespParser.MinimalRedisClient.FlushOne | server/src/jobs/queue.ts:166-210 | one turn of that loop takes exactly the reply at the head of the buffer, or stops when it is not all there |
| RespParser.MinimalRedisClient.OnData | server/src/jobs/queue.ts:142-145 | appends and flushes |
| RespParser.MinimalRedisClient.OnError | server/src/jobs/queue.ts:147-153 | drains every waiting command with null, in order |
| RespParser.MinimalRedisClient.Send | server/src/jobs/queue.ts:214-222 | queues the command, or answers null at once when not connected |
| OtpProtocol.WindowLimit | server/src/middleware/rateLimitOtp.ts:67-123 | in every interleaving, every window of the configured length holds at most `limit` allowed attempts per identifier and per address, though timestamps and commits are out of order |
| OtpProtocol.NoDeadlock | server/src/middleware/rateLimitOtp.ts:67-72 | while a transaction is unfinished some transaction can move on |
| OtpProtocol.WaitChainsAreShort | server/src/middleware/rateLimitOtp.ts:69-72 | whoever is waited for by a waiter waits for nobody, so waiting has no cycle |
| OtpProtocol.CheckAlone | server/src/middleware/rateLimitOtp.ts:65-95 | a transaction run without interference leaves no locks and adds exactly the row of the serial attempt |
| OtpProtocol.ActKeepsInv | server/src/middleware/rateLimitOtp.ts:65-95 | every step keeps: locks are exactly those taken, counts stay current until commit, allowed rows were within the limit |
| OtpLimiter.IdentifierLocksFirst | server/src/middleware/rateLimitOtp.ts:69-69 | sorting always puts the identifier's lock first |
| OtpLimiter.AllowedIffNeitherRefuses | server/src/middleware/rateLimitOtp.ts:119-120 | an attempt is allowed exactly when neither budget refuses it |
| OtpLimiter.AnswerIs | server/src/middleware/rateLimitOtp.ts:74-123 | the attempt is recorded whatever the answer; `remaining` is what the fuller budget has left; Retry-After is the largest time a refusing budget asks for, or the window when none refuses |
| OtpLimiter.RetryAfterIsLeast | server/src/middleware/rateLimitOtp.ts:104-110 | a budget asks for the least whole number of seconds, and at least one, after which its oldest row has left the window |
| OtpLimiter.RefusedUntilOldestLeaves | server/src/middleware/rateLimitOtp.ts:79-93 | once refused, any later attempt is refused while the oldest counted row is in its window, whatever else was recorded |
| OtpLimiter.EarlyRetryIsRefused | server/src/middleware/rateLimitOtp.ts:104-117 | an attempt before Retry-After has run down, less its last second, is refused |
| OtpLimiter.RetryRefusedIff | server/src/middleware/rateLimitOtp.ts:53-56 | with nothing else recorded a retry is refused exactly when too few counted rows have left the window |
| OtpLimiter.WaitingForTheOldestIsTooShort | server/src/middleware/rateLimitOtp.ts:104-117 | waiting until the oldest row alone leaves ends in another refusal |
| OtpLimiter.ObeyingRetryAfterFails | server/src/middleware/rateLimitOtp.ts:104-117 | a concrete caller who obeys Retry-After and is refused |
| OtpLimiter.RemainingPredictsNext | server/src/middleware/rateLimitOtp.ts:121-121 | with `remaining` positive the same caller's next attempt is allowed whenever it is made, and with none remaining it is refused unless rows have left the window |
| OtpLimiter.Database.CheckOtpRateLimit | server/src/middleware/rateLimitOtp.ts:57-130 | the transaction takes both locks in sorted order, leaves none, adds one row and gives the model's answer |
| Units.StroopsRoundTrip | packages/shared/units.js:11-15 | stroops to units and back is exact for every amount up to 2^50, however written, under any IEEE-style rounding |
| Units.KoboAreExact | packages/shared/units.js:42-57 | an amount in kobo, rounded to a number, becomes exactly 10,000 stroops a kobo |
| Units.MathRoundIs | packages/shared/units.js:56-56 | rounding is to the nearest integer, halves upwards |
| Units.ToStroopsIs | packages/shared/units.js:50-57 | a conversion fails exactly on an amount or product that is not finite, and is the rounded product otherwise |
| Units.ValueAcceptedIff | packages/shared/units.js:71-104 | integers and whole numbers are read as themselves; negative ones are out of range |
| Units.ScaledBack | packages/shared/units.js:118-120 | the two rounding errors together stay under a half |
| Units.TextAcceptedIff | packages/shared/units.js:84-91 | text stands for n exactly when, trimmed, it is digits worth n with at most a zero scale |
| Units.PrintedAmountReadsBack | packages/shared/units.js:84-91 | printed amounts, plain or with any zero scale, read back |
| Decimal.PrintReads | packages/shared/units.js:91-91 | decimal printing is inverted by reading |

## Left out

- Signature checks, storage rent, event topics and read-only views of both contracts: host mechanics, or they only read.
- `EscrowContract.Contract`: u64 overflow of id counters is assumed away; the two release calls' common part, written twice in the source, is one method.
- `JobQueueService.QueueService`: one queue name at a time; the poll loop's round over names, the Redis-backed mode and switching between modes are not modelled, nor are `stats.waiting` and `stats.delayed`.
- `RespParser.Reply`: lengths count characters, so bulk strings with multi-byte text are not covered; connecting and the close event are left out.
- `OtpProtocol.Run`: lock keys stand for their hashes, taken to be collision-free; the middleware's fail-open on a database error is not part of the bound.
- `OfflineQueue.LoadKeeps`: entries the module did not write itself are not modelled, so of the reader's filter only the tests its own orders can fail remain, and the defaults for missing fields never apply.
- `OrderQueue.Queue.LoadQueue`: the same.
- `OrderQueue.Queue`: several tabs at once, failed or corrupt local storage, error texts and the list of created trades are not modelled. A discard while a flush runs does not stop an order already in its snapshot.
- `Units.Rounding`: the error bound is assumed for zero and for magnitudes from 10^-9 to 2^53, which covers every value the round trip computes; beyond them any result, infinity included, is allowed.
- The web pages, HTTP routes, KYC limiter, telemetry, authentication and payment-provider calls: user interface, input and output, or foreign code.
