# Subscription billing: a verified model

The service charges users of an ERC-20 token on a billing calendar. A puller contract may move what
a user approved, and only to one treasury. A scheduler pulls what is due, a submitter bids the fee
up until the transaction mines, a hosted checkout turns a signed message and a direct transfer into
a subscription, and Redis holds the state behind optimistic transactions and one lock with a time
to live.

The model has four layers.

* **The charge engine.** `Engine` is a step system over the chain (the operator's nonces, the
  broadcast transactions, the token and the contract) and the persisted subscriptions, with every
  fault the code can meet as a step of its own: a lost broadcast, a failed replacement, a "nonce too
  low", a crash between steps, an API edit under a charge. `Clean` is the condition a caller can
  check before each step. `Engine.SafeIffClean` proves that a step keeps the books right exactly
  when it is clean, `EngineRuns` lifts this to whole runs, and `EngineRuns.UncleanBreaksExactlyOnce`
  shows that every other step does lose or double a pull. `EngineRecords` says what the steps write on
  a record, and who is not charged. `Submitter` and `Scheduler` are the code
  itself, as classes that change records and maps in place; each method is proved to be a run of
  engine steps, so the theorems about runs are theorems about them; `Outcomes` reads off the books what
  the node's answers bring about.
* **The checkout.** `Sessions` has the commands of one Redis client at the granularity of WATCH, GET
  and EXEC, `SessionRuns` any number of clients interleaved at will, with the in-memory store as the
  specification, and `SessionStores` both stores as classes. `Checkout` is the ladder of checks in
  its order, and `PaymentRuns` the conservation law over the whole checkout.
* **Indexes, lock and text.** `SubStore` (status sets and due index against a linear scan),
  `TickLock` (mutual exclusion of ticks), `Challenge` (the signed message and its parser), `Text`.
* **Arithmetic.** `Calendar`, `Billing` (due dates and dunning over runs), `Proration`, `Coverage`,
  `Token` and `Sums`.

Instants are integers of nanoseconds since 1970 in UTC; months are counted through the years of the
proleptic Gregorian calendar (section 5.7 and Appendix C of RFC 3339). Amounts are 256-bit words,
with the unchecked arithmetic of the token written out modulo 2^256. The fee cap follows EIP-1559,
and transferFrom and approve follow EIP-20.

## Where the code and its comments differ

The model follows the code.

* `backend/internal/store/store.go:40-43` lists "Feb 28/29, Mar 31"; once the day is cut it stays
  cut, as `backend/internal/store/period_test.go:57-61` says (`Calendar.RepeatClosedForm`).
* Clamped addition keeps the order of dates but not of instants: two due times in order can swap
  (`Calendar.ClampedStepSwapsInstants` says exactly when, `Calendar.SwapWitness` that they do).
* `backend/internal/scheduler/scheduler.go:404-405` says the in-flight hash is cleared either way;
  without a receipt it stays. And a resumed stashed charge is booked as a renewal (line 427): the due
  date moves on as if the price had been paid, while the stash stays and is pulled again
  (`EngineTraces.ResumedStashIsOwedAgain` for every such resumption, `EngineTraces.StashPulledTwice`
  for a run from a fresh start that takes one stashed unit twice). Exactly-once holds of a
  resumption exactly when what was in flight is a renewal (`Engine.SafeIffClean`, case Resolve),
  which the record shows by having no stash unless a change of plan stashed one under the flight
  (`EngineTraces.ResumeCleanIff`, `EngineTraces.LabelledIffStable`).
* A regular renewal can be pulled twice by an ordinary fee bump (`backend/internal/chain/submit.go:145-147`
  looks only for the last hash): when an earlier offer mines, no receipt is found, the charge counts
  as failed, and the next attempt pulls again with neither pull in the books
  (`EngineTraces.RenewalPulledTwice`; the exact condition is `Engine.SafeIffClean`, case NonceTooLow).
* A tick releases its lock in its own context (`backend/internal/scheduler/scheduler.go:140-144`), so
  once that has ended the lock stays until its time to live (`Scheduler.Scheduler.Tick`).
* The exact schedule survives failures only by coincidence: `Billing.ScheduleKeptIff` says exactly
  when, and `Billing.MonthPlanMayLoseOrKeep` shows both cases.
* An upgrade can cost more than the rise in price when the last charge lies in the future of the
  clock (`Proration.DiffWithinRiseIff` is the exact condition); no run of the service gets there
  (`EngineTraces.UpgradesCostWithinTheRise`).
* `backend/internal/scheduler/scheduler.go:556-562` counts a nonce or gas-market mishap as the operator's,
  but the submitter reports a used nonce and an underpriced first offer in words of its own
  (`backend/internal/chain/submit.go:193-196`) that the patterns do not hold, so both count against the
  user (`Submitter.RefusedOfferBlamesUser`).
* A cancelled user who subscribes again to the same plan keeps the retries used, so after a dunning
  cancellation the first failure cancels again (`Proration.SamePlanAgain`); one who subscribes to
  another plan keeps the due date the cancellation set, a hundred years on
  (`EngineRecords.CancelledThenOtherPlan`).
* `backend/internal/api/sessions.go:289` promises a replay for the same transfer, but compares the stored,
  normalised hash with the text as sent: a hash sent without its prefix completes a session, and the
  same request again is refused as a different payment (`Checkout.RetryIsReplayedIff`).
* `backend/internal/store/sessions.go:50-54` has the store check the session's time to live; neither
  store does, only the handler, so nothing is claimed about it at the commit.
* The sweep releases a hash a pending session might hold (`backend/internal/store/redis.go:314-319`);
  no reachable pending session holds one (`SessionRuns.EveryRunIsSound`).
* A consumed hash is the one answer of the Redis store the in-memory store might not give at that
  moment: it does exactly when the session is still pending then (`SessionRuns.CompletionRefines`).
* `backend/internal/dunning/dunning.go:3-9` takes the next time from the chain; the scheduler adds
  the plan's period to the due time.

## Model

| member | source | states |
|---|---|---|
| EngineRuns.ExactlyOnceCharging | backend/internal/scheduler/scheduler.go:286-341 | In every clean run, every pull that mines for a user is booked once, in order and as what it was sent for; at most the latest is unbooked, and only while a transaction is in flight. |
| Ticks.TickChargesExactlyOnce | backend/internal/scheduler/scheduler.go:128-176 | Of the tick itself: from sound books, whatever the node answers, a tick whose booking steps are clean leaves every pull of every user booked exactly once, or in flight. |
| Ticks.TickIsClean | backend/internal/scheduler/scheduler.go:156-175 | Such a tick is one clean run of the engine. |
| Ticks.TickIsARun | backend/internal/scheduler/scheduler.go:156-175 | Any tick is one run of the engine: the quiet steps and booking steps of its subscriptions, in order. |
| Ticks.EndingsThatNeedCare | backend/internal/scheduler/scheduler.go:406-428 | Only a resumption, a failed replacement, a "nonce too low" and a missing plan can be unclean endings. |
| EngineTraces.BookedOncePerNonce | backend/internal/scheduler/scheduler.go:430-465 | In clean runs no mined pull is in the books twice. |
| EngineRecords.RecordShowsLastCharge | backend/internal/scheduler/scheduler.go:430-447 | In every clean run the last charge a record shows is a successful pull of that user on the chain, at the block it shows, and the latest in the books. |
| EngineRecords.CancelledIsNeverPulled | backend/internal/scheduler/scheduler.go:590-594 | In every run, faults included, a cancelled user with nothing in flight stays cancelled and is never pulled from, until the user subscribes or checks out. |
| EngineRecords.PaidPeriodIsNotPulled | backend/internal/api/sessions.go:457-468 | No run pulls from a user who has just checked out before one period has passed; from then on the subscription is due. |
| EngineRecords.DueDateStays | backend/internal/scheduler/scheduler.go:286-535 | Only a renewal booked, a failure, a cancellation, or a subscription made or taken up again moves a due date; no offer, bump, settled stash or change of plan does. |
| EngineRecords.SettlingKeepsDueDate | backend/internal/scheduler/scheduler.go:383-390 | A step that books a settled stash leaves that user's due date, status, plan and retries, and clears the stash. |
| EngineRecords.SettlementPaysTheStash | backend/internal/scheduler/scheduler.go:364-390 | A settlement is booked only for a mined pull of exactly the stash it clears, as long as what is in flight matches the stash on record. |
| EngineRecords.MatchedIffStable | backend/internal/api/api.go:359-372 | It keeps matching exactly when no change of plan puts another difference in the place of a stash in flight. |
| EngineRecords.CancelledFarOff | backend/internal/scheduler/scheduler.go:590-594 | Whatever step cancels a subscription puts its due date a hundred years on, on the same day at the same time. |
| EngineRecords.CancelledThenOtherPlan | backend/internal/api/api.go:358-374 | A cancelled user who subscribes to another plan is active, with no renewal due for a hundred years. |
| EngineTraces.StashPulledTwice | backend/internal/scheduler/scheduler.go:427-427 | A run from a fresh start with one unclean step, a resumed stash: one stashed unit is pulled twice. |
| EngineTraces.RenewalPulledTwice | backend/internal/chain/submit.go:139-148 | A run from a fresh start in which a fee bump makes two renewals mine with none in the books: the first offer mines, and the lookup asks for the second. |
| EngineTraces.ResumedStashIsOwedAgain | backend/internal/scheduler/scheduler.go:427-447 | Whenever a stash is resumed, a renewal is booked and the stash is still owed and can be sent again. |
| EngineTraces.ResumeCleanIff | backend/internal/scheduler/scheduler.go:406-428 | Read off the record: resuming is clean exactly without a stash, as long as records tell what is in flight. |
| EngineTraces.LabelledIffStable | backend/internal/api/api.go:359-372 | They keep telling it exactly when no change of plan stashes a first difference under a renewal in flight. |
| EngineRuns.UncleanBreaksExactlyOnce | backend/internal/scheduler/scheduler.go:404-428 | Partner: a step outside the condition makes the books wrong at once, or as soon as a transaction that is next in line mines. |
| Engine.SafeIffClean | backend/internal/scheduler/scheduler.go:286-428 | Over every step of chain, submitter, scheduler and API: the accounting invariant survives if and only if the step meets the condition checked before it. |
| Engine.ForgetIff | backend/internal/scheduler/scheduler.go:406-411 | Clearing what is in flight without booking is right exactly when that nonce is used and did not pull. |
| Engine.BookIff | backend/internal/scheduler/scheduler.go:427-465 | Booking a receipt is right exactly when it succeeded and is booked as what it was sent for. |
| Engine.MineKeepsSafe | backend/internal/chain/submit.go:56-91 | Whatever takes the next nonce, every user stays accounted for. |
| Engine.OfferKeepsSafe | backend/internal/chain/submit.go:84-90 | Broadcasting at the nonce in flight, recorded or not, keeps everyone accounted for. |
| Engine.OthersUntouched | backend/internal/scheduler/scheduler.go:336-341 | A step for one user changes no other user's record and books nothing for them. |
| Engine.BookingStep | backend/internal/scheduler/scheduler.go:430-465 | A clean step that books anything books the successful receipt of what was in flight, as what it was sent for. |
| EngineRuns.CleanRunIsSafe | backend/internal/scheduler/scheduler.go:128-176 | The accounting invariant holds after every clean run. |
| EngineRuns.PricesKeptIffStable | backend/internal/api/api.go:333-374 | A renewal in flight stays at its plan's current price across a step exactly when the step does not change the price under it. |
| EngineRuns.RenewalPaysThePrice | backend/internal/scheduler/scheduler.go:430-447 | One step of it: the due date moves by one period only for a pull that mined successfully for exactly the plan's price. |
| EngineTraces.RenewalsArePaidOnce | backend/internal/scheduler/scheduler.go:320-447 | Over whole runs: behind every renewal in the books is a step that booked it at the plan's price and moved the due date by one period, and before it a step that mined its pull and moved exactly that price from the user to the treasury; no two entries share such a paying step. |
| EngineTraces.StableRunIsPriced | backend/internal/api/api.go:333-374 | In every clean run without price changes under a renewal in flight, books and prices stay right. |
| EngineTraces.UpgradesCostWithinTheRise | backend/internal/api/api.go:379-404 | In every run, faults included, an upgrade costs between nothing and the rise in price, since the last charge is never in the future. |
| EngineRuns.MiningMovesTheAmount | contracts/src/Subscriptions.sol:74-77 | A pull that mines moves its amount from the user to the treasury, or nothing; from the treasury itself it moves nothing. |
| EngineRuns.NeverOverBilledOnChain | backend/internal/scheduler/scheduler.go:286-341 | In clean runs left to the scheduler, once n pulls of a user have mined the n-th billing date has come, whatever the ticks, bumps, failures and crashes. |
| EngineRuns.StepOnSchedule | backend/internal/scheduler/scheduler.go:430-606 | Every step keeps the next due date no earlier than the count of bookings allows. |
| Submitter.Client.SubmitAndWait | backend/internal/chain/submit.go:33-152 | Everything broadcast is on the returned list, one fee ladder; offers and result are what the turns made of the quoted offer, each turn on what it saw, in a time and on a chain that only go on, the last one begun within the budget; nothing is out exactly when the quote or the first send refused; the engine can book the end. |
| Submitter.Client.BidUntilMined | backend/internal/chain/submit.go:100-151 | The loop ends by the clock; bid and result are the fold of its turns over what each saw, ended by the last turn or by the spent budget; memory and store both hold the last offer. |
| Submitter.Client.Bump | backend/internal/chain/submit.go:115-149 | Given the answers: stuck after five bumps, unchanged while the fees suffice or cannot be read, else the doubled tip on the newest base fee at the same nonce; an underpriced replacement doubles again, and nothing but an accepted one changes the world. |
| Submitter.Client.Await | backend/internal/chain/submit.go:101-113 | A receipt that is there and heard ends the submission, else the end of the context does, and a timeout does not. |
| Submitter.Client.Send | backend/internal/chain/submit.go:56-91 | Accepted exactly when the call answers, the nonce is unused and the price suffices; it broadcasts and persists the hash in one step, and any other answer changes nothing. |
| Submitter.Client.FirstOffer | backend/internal/chain/submit.go:38-98 | The one quoted transaction is out and recorded exactly when the quote came, its nonce is unused and it is accepted; otherwise nothing is broadcast. |
| Submitter.Client.Attempt | backend/internal/chain/submit.go:100-150 | One turn: what the answers make of the bid, with at most one broadcast. |
| Submitter.TurnKeepsBidding | backend/internal/chain/submit.go:129-142 | A turn keeps the ladder: one nonce, at least doubled tips, at most six offers, none past 2^9 first tips even with underpriced doublings; it adds at most one offer, and is stuck only after five bumps. |
| Submitter.BidsExactlyWhenBehind | backend/internal/chain/submit.go:115-171 | From the node's readings: in a silent turn with bumps left, an offer is added exactly when the cap is below the base fee or the tip below the suggestion; without a suggestion the cap decides, without the head none is added. |
| Submitter.BidsDouble | backend/internal/chain/submit.go:123-144 | The offer added is the same pull at the same nonce with twice the tip, paid in full until the base fee has more than doubled; a refused one leaves four times the tip. |
| Submitter.FirstOfferPaysFullTip | backend/internal/chain/submit.go:184-190 | The first offer pays its full tip exactly while the base fee is at most twice the one quoted. |
| Submitter.ReplacementBlamed | backend/internal/scheduler/scheduler.go:503-535 | A failed replacement counts against the retries exactly when it was the user's trouble, only waits five minutes when it was ours, and books nothing when the context ended. |
| Submitter.RefusalBlamed | backend/internal/scheduler/scheduler.go:503-535 | So does trouble before the first offer is out. |
| Submitter.RefusedOfferBlamesUser | backend/internal/chain/submit.go:93-98 | A first offer at a used nonce or called underpriced counts against the user. |
| Submitter.BumpKeepsBidding | backend/internal/chain/submit.go:126-144 | A bump, accepted, refused or bid up again, stays within the ladder. |
| Submitter.StuckAtTheCap | backend/internal/chain/submit.go:115-151 | A submission is stuck only when its budget is spent, or when five turns have bumped and one more has timed out; every turn took time. |
| Submitter.BidsKeepBidding | backend/internal/chain/submit.go:100-150 | Over all turns the ladder is kept, and bumps are at most turns. |
| Submitter.TurnConcludes | backend/internal/chain/submit.go:93-150 | The turn that ends a submission names the engine step that books it. |
| Submitter.OneOfferMines | backend/internal/chain/submit.go:38-91 | At most one offer of a submission ever has a receipt. |
| Submitter.ConclusionBooks | backend/internal/scheduler/scheduler.go:320-331 | Each way a submission ends is an engine step that books or fails the subscription just so. |
| Submitter.BackgroundUndisturbed | backend/internal/scheduler/scheduler.go:286-331 | Whatever happens in the background leaves busy users, plans in use and past blocks alone. |
| Scheduler.Scheduler.Tick | backend/internal/scheduler/scheduler.go:128-176 | With the lock free, the earliest due records up to the batch are charged in turn, each as its answers determine; the tick stops early only when the context has ended or a beat sent by then has signalled the loss, and before no subscription it processed was that so; the lock is left as the heartbeat left it, or released unless the context has ended. With the lock held nothing happens. |
| Scheduler.Scheduler.Charge | backend/internal/scheduler/scheduler.go:156-175 | Each record is still the persisted one when its turn comes; no subscription is processed after a beat that signals the loss or the end of the context, and the loop stops early only for those; the lock is as all beats up to now leave it. |
| Scheduler.Scheduler.HeartbeatLock | backend/internal/scheduler/scheduler.go:182-200 | The renewals sent at their own times up to now, until the first that fails or finds the lock gone. |
| Scheduler.Scheduler.ProcessOne | backend/internal/scheduler/scheduler.go:286-332 | Branch by branch, given the answers: resolved, skipped, cancelled without a plan or price, stash settled, or price pulled; quiet steps and at most that one booking step, nothing else broadcast, other users left alone. |
| Scheduler.Scheduler.PullAndBook | backend/internal/scheduler/scheduler.go:320-341 | The amount is submitted; a receipt ends in the booking for its purpose, a failure in the failed record, and a stuck or interrupted submission in neither. |
| Scheduler.Scheduler.Book | backend/internal/scheduler/scheduler.go:320-331 | A receipt becomes the booked record and a failure the failed one, as the engine step says. |
| Scheduler.Scheduler.PullPending | backend/internal/scheduler/scheduler.go:364-402 | A stash that is no positive amount is dropped and nothing else happens; any other is pulled and settled, leaving the due date. |
| Scheduler.Scheduler.ResolveInFlight | backend/internal/scheduler/scheduler.go:406-428 | Without a plan what is in flight is cleared; a heard success is booked as a renewal, a heard revert goes to dunning, and with no receipt heard it stays. |
| Scheduler.Scheduler.MarkCharged | backend/internal/scheduler/scheduler.go:430-447 | The whole record after a charge: one period on from the due time (from now if never set), active, no failures, nothing in flight. |
| Scheduler.Scheduler.HandleFailure | backend/internal/scheduler/scheduler.go:503-535 | The whole record after an operator-side failure, a retry, or the failure that cancels. |
| Scheduler.Scheduler.MarkCancelled | backend/internal/scheduler/scheduler.go:590-598 | The whole record after cancellation. |
| Scheduler.Scheduler.Settle | backend/internal/scheduler/scheduler.go:383-390 | The whole record after a stash is pulled. |
| Scheduler.HeldStays | backend/internal/scheduler/scheduler.go:156-175 | Processing one subscription leaves the rest of the batch as it was read. |
| Outcomes.HeardReceiptIsBooked | backend/internal/scheduler/scheduler.go:404-428 | What is in flight is charged when its success is heard, counted as the user's failure when its revert is, and left as it is otherwise. |
| Outcomes.PromptRenewalIsCharged | backend/internal/scheduler/scheduler.go:320-341 | A due subscription on an active plan is asked for the plan's price; when that is accepted and mines at once, it is in the books and the period is paid. |
| Outcomes.PromptStashIsSettled | backend/internal/scheduler/scheduler.go:364-390 | One with a stash is asked for just the stash; when that mines at once, the stash is cleared and the due date stays. |
| SessionRuns.EveryRunIsSound | backend/internal/store/redis.go:205-334 | In every interleaving of any number of clients: a hash belongs to the one session completed with it, others hold none, the expiring index is exactly the pending sessions with their times, every answer is still true, attempts are at most two for a session that existed and three at all, and retries never run out. |
| SessionRuns.RunRefines | backend/internal/store/redis.go:205-334 | Every run of any number of clients leaves exactly what the in-memory store holds after the run's creations and successful EXECs performed one at a time, each of which takes effect there. |
| SessionRuns.EachExpiryCountedOnce | backend/internal/store/redis.go:275-334 | The expired sessions are as many as the sweeps counted: each was counted once. |
| SessionRuns.CompletionRefines | backend/internal/store/memory.go:113-136 | Each command of a completion leaves the in-memory store alone or is its CompleteSession, answer included; a consumed hash is its answer too exactly when the session is still pending. |
| SessionRuns.SweepRefines | backend/internal/store/memory.go:138-157 | Each command of a sweep leaves the in-memory store alone or expires one overdue session there, and counts it. |
| SessionRuns.SweepClears | backend/internal/store/redis.go:264-334 | After a sweep below its count limit no session overdue at its start is pending, even one it lost to another client. |
| SessionRuns.SettledForGood | backend/internal/store/sessions.go:14-16 | A completed or expired session is never written again. |
| SessionRuns.OneSessionPerHash | backend/internal/store/redis.go:227-250 | No hash ever completes two sessions. |
| SessionRuns.CallsEnd | backend/internal/store/redis.go:210-261 | A completion ends within 12 of its own commands and a sweep within 4 for each session of its range, whatever the others do. |
| SessionRuns.StepKeepsSound | backend/internal/store/redis.go:205-334 | Every step of every client keeps the invariant of the server and of all clients. |
| SessionRuns.WholeSecondsExpire | backend/internal/store/redis.go:265-269 | Comparing whole seconds sweeps a session less than a second early at most. |
| Sessions.CommandKeeps | backend/internal/store/redis.go:205-334 | Every command keeps the indexes, its own client in order, and what the others rely on. |
| Sessions.OthersStayOk | backend/internal/store/redis.go:205-261 | What a client knows survives others' writes: a clean watch means the session and hash are as read, a dirty one that the call is decided. |
| Sessions.CommitKeepsConsistent | backend/internal/store/redis.go:243-250 | The commit keeps hash ownership and the expiring index. |
| Sessions.CommitEvolves | backend/internal/store/redis.go:243-250 | The commit writes a pending session and an unreserved hash, and nothing else. |
| Sessions.ExpireKeeps | backend/internal/store/redis.go:303-319 | An expiry keeps hash ownership and the index, and writes only its session. |
| Sessions.DroppingKeeps | backend/internal/store/redis.go:293-301 | Dropping a settled session from the index changes nothing. |
| SessionStores.RedisStore.CompleteSession | backend/internal/store/redis.go:205-262 | The retry loop, with others' commands between any two of its own: a run of the step system, a true answer at return, at most two attempts for a session that existed. |
| SessionStores.RedisStore.Examine | backend/internal/store/redis.go:212-232 | Watch, then the two reads, and the refusals they give. |
| SessionStores.RedisStore.TryCommit | backend/internal/store/redis.go:234-259 | The transaction commits, or nothing happens when a watched key was written. |
| SessionStores.RedisStore.ExpireSessionsBefore | backend/internal/store/redis.go:264-334 | No session of the range is pending at return; the count is that of the sessions this sweep expired. |
| SessionStores.RedisStore.SweepOne | backend/internal/store/redis.go:277-324 | One session read and expired, or dropped from the index, under its own watch. |
| SessionStores.RedisStore.CreateSession | backend/internal/store/redis.go:169-184 | A new pending session enters the expiring index in the same transaction. |
| SessionStores.RedisStore.ZRangeByScore | backend/internal/store/redis.go:265-269 | The range is exact below the count and distinct at it. |
| SessionStores.MemoryStore.CompleteSession | backend/internal/store/memory.go:113-136 | The atomic completion: new contents and answer. |
| SessionStores.MemoryStore.ExpireSessionsBefore | backend/internal/store/memory.go:138-157 | Every overdue pending session expires, the hashes they own are released, and the count is their number. |
| SessionStores.ExpireOneMore | backend/internal/store/memory.go:142-155 | Expiring in any order gives the same contents: one more session changes just its own entry and its own hash. |
| PaymentRuns.PaymentsAreConserved | backend/internal/api/sessions.go:354-455 | Over every run of handlers, sweepers, mining and price changes, the completed sessions' prices sum to no more than direct transfers to the treasury paid in. |
| PaymentRuns.EachSessionHasItsOwnPayment | backend/internal/api/sessions.go:374-415 | Each completed session is backed by a mined, successful transfer of a price its plan had, from its wallet to the treasury, with its event unless an operator completed it; no two by one transfer. |
| PaymentRuns.StepKeeps | backend/internal/api/sessions.go:437-455 | Every step keeps purchases backed and the sum balanced. |
| PaymentRuns.CommitKeepsBalance | backend/internal/store/redis.go:227-250 | A commit adds its price and its own, unused transfer. |
| Payments.OneKeyPerHash | backend/internal/api/sessions.go:717-732 | After normalising, two texts are one key exactly when they name the same 32 bytes; the result is canonical. |
| Payments.OneKeyPerSpelling | backend/internal/api/sessions.go:717-723 | Every spelling of a hash, in either case, with or without prefix and with white space around it, is normalised to its one key. |
| Payments.NormalizedAsItIs | backend/internal/api/sessions.go:717-723 | Normalising is only lower-casing exactly for such a text. |
| Payments.EveryHashHasAKey | backend/internal/api/sessions.go:726-732 | Every 32-byte hash has its canonical text. |
| Payments.NormalizedIsLower | backend/internal/api/sessions.go:717-723 | The store's own lower-casing changes nothing in a normalised hash. |
| Payments.AddressTextNamesIt | backend/internal/api/sessions.go:440-442 | A wallet's text names one address. |
| Payments.DecodeTransferLog | backend/internal/chain/tx.go:138-166 | The first event of the token with the expected value, or none exists. |
| Checkout.SessionApi.CompleteSession | backend/internal/api/sessions.go:265-492 | A success means: pending and in time when read, a fresh challenge signed for this session, plan, contract and chain, the price paid and backed and renewals covered, the session completed for that wallet and hash, and a subscription one period on. A refusal by the store is still true; any other means that a call upstream failed or the request was not entitled; a replay is of the same payment. |
| Checkout.RetryIsReplayedIff | backend/internal/api/sessions.go:289-307 | Repeating a request that completed a session is answered as a replay exactly when its hash text had the prefix and no white space around it. |
| Checkout.SessionApi.Admit | backend/internal/api/sessions.go:265-435 | The handler up to its commit: admitted only if entitled; refused only if not, or for a failed call upstream; a replay only for the same payment. |
| Checkout.SessionApi.ForceCompleteSession | backend/internal/api/sessions.go:537-622 | The operator's completion, for any hash text: the payer is the sender of the transfer the text leads to, which pays the price, and a canonical text backs it; refused only when that is not so, the hash is taken, the session is settled, or a call upstream failed. |
| Checkout.SessionApi.Commit | backend/internal/api/sessions.go:437-478 | After a commit the session, the hash and the subscription all name the payer; otherwise no subscription changed. |
| Checkout.Verify | backend/internal/api/sessions.go:309-435 | The ladder accepts only the entitled and, short of failed calls upstream, refuses only others. |
| Checkout.CheckSignature | backend/internal/api/sessions.go:314-352 | Accepts exactly a recovered signer whose challenge matches on every field and is fresh. |
| Checkout.PrintedIsAccepted | backend/internal/api/sessions.go:314-352 | The printed challenge of a session is accepted exactly for its own wallet, session, plan, contract, chain and prefix, from its issue until it is stale. |
| Checkout.SignedForOneThing | backend/internal/api/sessions.go:314-352 | One message is accepted for no second session, plan or wallet. |
| Checkout.CheckTransfer | backend/internal/api/sessions.go:366-415 | Accepts only a confirmed payment; each refusal names the first thing wrong. |
| Checkout.CheckCall | backend/internal/api/sessions.go:380-400 | Accepts exactly a successful transfer of the price to the treasury; each refusal names the first thing wrong. |
| Checkout.FaultsAreFaults | backend/internal/api/sessions.go:366-415 | No refusal is given to a transfer that pays. |
| Checkout.CheckAllowance | backend/internal/api/sessions.go:417-435 | The allowance covers the renewals after the first period, and a named approval is one. |
| Checkout.TargetIsPullable | backend/internal/api/sessions.go:421-429 | The allowance test is the contract's own: with a finite allowance and balance to spare, it passes exactly when every renewal but the first period's can be pulled. |
| Checkout.EntitledIsRenewable | backend/internal/api/sessions.go:405-429 | So a completed checkout can be renewed, and its transfer has the confirmations asked for. |
| Checkout.EvidenceIsSpecific | backend/internal/api/sessions.go:376-410 | A transfer is evidence for one wallet and one price, an approval for one wallet, and neither when reverted. |
| Checkout.ConfirmedIff | backend/internal/chain/tx.go:60-66 | A transaction has n confirmations exactly when its block and n - 1 more are there. |
| Checkout.CheckApproval | backend/internal/api/sessions.go:494-523 | A named approval is a successful approve() of the contract by the signer on the token. |
| Checkout.EntitledIsBacked | backend/internal/api/sessions.go:354-442 | Whoever passes the ladder is backed by the chain in the sense of the conservation law. |
| Checkout.EntitledMayCheckOut | backend/internal/api/sessions.go:354-442 | Its call to the store is a checkout step of the conservation law's books. |
| Checkout.RecoverableMayCheckOut | backend/internal/api/sessions.go:565-600 | So is the operator's, for a canonical hash text. |
| Payments.HexToHashOfHash | backend/internal/api/sessions.go:564-565 | On a hash text the handlers ask the chain for the 32 bytes it names. |
| SubStore.RedisStore.UpsertSubscription | backend/internal/store/redis.go:94-124 | One status set per user, and the due index is exactly the billable users at their scores, after every upsert. |
| SubStore.UpsertKeepsIndexes | backend/internal/store/redis.go:94-124 | The index invariant survives the pipelined writes. |
| SubStore.RedisStore.DueBefore | backend/internal/store/redis.go:336-356 | The records scored up to now, in score order, all of them or the first of them up to the limit. |
| SubStore.MemoryStore.DueBefore | backend/internal/store/memory.go:159-179 | The due records, earliest first, all of them or the earliest up to the limit. |
| SubStore.DueAgreement | backend/internal/store/redis.go:94-124 | The two stores agree on a record exactly when a stash is not judged before 1970 and the due time is not later in the current second. |
| SubStore.SameDueSet | backend/internal/store/memory.go:159-179 | On whole seconds from 1970 on, unlimited queries find the same records in both stores. |
| SubStore.StashesComeFirst | backend/internal/store/redis.go:109-119 | In any list the Redis query returns, no due time after the first second of 1970 comes before a stash. |
| Scheduler.RedisListMayBeCharged | backend/internal/store/redis.go:336-356 | On whole-second times from 1970 on, the Redis store's list may be charged as the in-memory one: due, held records of different users. |
| TickLock.MutualExclusion | backend/internal/scheduler/scheduler.go:128-200 | With any number of instances, while running ticks renew in time no two ticks run together. |
| TickLock.ExclusiveIffTimely | backend/internal/store/redislock.go:20-52 | A step keeps ticks exclusive exactly when it lets no running tick's time to live pass. |
| TickLock.SecondTickIff | backend/internal/scheduler/lock.go:13-19 | Another instance gets in beside a running tick exactly once that tick's deadline has passed. |
| TickLock.DeadHolderExpires | backend/internal/scheduler/lock.go:19-19 | A silent holder blocks nobody a time to live after its last renewal. |
| TickLock.NothingAfterLoss | backend/internal/scheduler/scheduler.go:161-175 | After the loss signal a tick processes nothing more. |
| TickLock.LossIff | backend/internal/scheduler/scheduler.go:182-200 | The loss signal of a freshly held lock is real and complete: it comes exactly when a beat sent by now did not reach the server, was not answered, or came a time to live after the one before. |
| TickLock.PromptBeatsHold | backend/internal/scheduler/scheduler.go:48-54 | With every beat prompt and the next still to come, the tick holds the lock now. |
| TickLock.OnlyTheHolderActs | backend/internal/store/redislock.go:24-52 | A renewal or release by a non-holder changes nothing, nor does acquiring a held lock. |
| TickLock.RedisLocker.Acquire | backend/internal/store/redislock.go:20-22 | Succeeds exactly when nobody holds the key now. |
| TickLock.RedisLocker.Renew | backend/internal/store/redislock.go:24-40 | Extends exactly when the caller holds the key now. |
| TickLock.RedisLocker.Release | backend/internal/store/redislock.go:42-52 | Deletes exactly when the caller holds the key now. |
| Challenges.RoundTrip | backend/internal/api/signature.go:33-99 | A challenge is read back from its text exactly when the text can carry it: no newlines, no empty names, a 64-bit chain id, a whole second of a four-digit year. |
| Challenges.PrintIsInjective | backend/internal/api/signature.go:30-41 | On those, two messages are equal exactly for the same challenge up to address case. |
| Challenges.AcceptedLinesAreTheSixFields | backend/internal/api/signature.go:56-85 | An accepted message has each key on exactly one of its six lines, with a value, though the loop allows repeats. |
| Challenges.OrderDoesNotMatter | backend/internal/api/signature.go:68-82 | Reordering the six lines changes nothing. |
| Challenges.ParseChallenge | backend/internal/api/signature.go:47-99 | The loop that writes the fields computes the parse, and the first bad line decides the error. |
| Challenges.TimeRoundTrip | backend/internal/api/signature.go:40-94 | A printed time is read back exactly when it is a whole second of a four-digit year. |
| Challenges.IntRoundTrip | backend/internal/api/signature.go:39-89 | A printed integer is read back exactly when it fits 64 bits. |
| Challenges.PrintedText | backend/internal/api/signature.go:33-41 | The signed text, line by line. |
| Challenges.LeapDayText | backend/internal/api/signature.go:40-40 | One second of a leap day in its text. |
| Challenges.FractionReads | backend/internal/api/signature.go:91-94 | A fraction of up to nine digits after the seconds is read as so many nanoseconds. |
| Challenges.PlusSign | backend/internal/api/signature.go:86-89 | A leading plus sign is accepted. |
| Challenges.LinesOfJoined | backend/internal/api/signature.go:48-48 | Splitting undoes joining for lines without newlines. |
| Challenges.RowReadsBack | backend/internal/api/signature.go:69-73 | A line is cut at its first separator, so values may hold more of them. |
| Challenges.ParsedFieldsAreOneLine | backend/internal/api/signature.go:47-99 | No accepted field holds a newline. |
| Calendar.RepeatClosedForm | backend/internal/store/store.go:58-68 | After k steps of c months: k·c months on, and the day is the least of the first day and the last days of all months landed on. |
| Calendar.ClampedStep | backend/internal/store/store.go:58-68 | A step lands on the clamped date at the same second and drops the nanoseconds. |
| Calendar.ClampedStepSpan | backend/internal/store/store.go:55-68 | An n-month step spans 28n to 31n days. |
| Calendar.ClampedStepMonotone | backend/internal/store/store.go:55-68 | A step keeps the order of dates. |
| Calendar.ClampedStepsCompose | backend/internal/store/store.go:55-68 | Stepping a then b lands in the month of a + b, never on a later day, and on the same day exactly when the first cut does not show. |
| Calendar.ClampedStepSwapsInstants | backend/internal/store/store.go:58-68 | Instants in order swap exactly when they land on one date and the earlier has the later time of day. |
| Calendar.SwapWitness | backend/internal/store/store.go:58-68 | Jan 30 23:00 and Jan 31 01:00 do swap. |
| Calendar.AddPeriodsDates | backend/internal/store/store.go:44-53 | Repeated month and year periods are the repeated clamped steps. |
| Calendar.AddPeriodMonotone | backend/internal/store/store.go:44-53 | Adding a period keeps the order of dates for every plan. |
| Calendar.AddPeriodAdvances | backend/internal/store/store.go:44-53 | A period of at least one unit moves strictly forward. |
| Calendar.AddPeriodDate | backend/internal/store/store.go:44-68 | Month and year periods land on the clamped date, day periods so many days on at the same time of day. |
| Calendar.CalendarIsGregorian | backend/internal/store/store.go:55-68 | The months' lengths and the leap-year rule are the Gregorian calendar's: every month starts where the closed formula for it says, before and after 1970. |
| Calendar.RolledStep | backend/internal/scheduler/scheduler.go:592-592 | The month addition of the far due date lets a day past the month's end roll into the next month, at the same time of day. |
| Billing.NeverOverBilled | backend/internal/scheduler/scheduler.go:430-535 | In every run of late ticks and failures the k-th charge falls on or after the k-th billing date. |
| Billing.NextDueNotEarly | backend/internal/scheduler/scheduler.go:430-535 | After k charges a billable subscription is not due before the k-th billing date. |
| Billing.NoDriftWithoutFailure | backend/internal/scheduler/scheduler.go:430-440 | Without failures the due time is exactly k periods from the first. |
| Billing.ScheduleKeptIff | backend/internal/scheduler/scheduler.go:430-535 | After any failures and a charge, the exact schedule is kept if and only if the retry time and the due time it replaced share their next due time: one instant on day plans, one clamped date at one second of the day on month and year plans. |
| Billing.DayPlanLosesSchedule | backend/internal/scheduler/scheduler.go:503-518 | On a day plan an operator-side failure always loses it. |
| Billing.MonthPlanMayLoseOrKeep | backend/internal/scheduler/scheduler.go:503-518 | On a monthly plan one retry loses it and another keeps it by coincidence. |
| Billing.FailuresDelay | backend/internal/scheduler/scheduler.go:503-535 | Failures only delay the due time, and an operator-side one always does. |
| Calendar.AddPeriodAgreesIff | backend/internal/store/store.go:44-68 | Two times have one next due time exactly when they are one instant (days), or land on one clamped date at one second of the day (months and years). |
| Billing.DunningCounts | backend/internal/scheduler/scheduler.go:430-535 | In every run from a clean active record, with f the user-side failures since the last charge: f retries are used; the subscription is active exactly when f is zero, so a charge wipes the slate, and cancelled exactly when f is one more than the delays. |
| Billing.RetriesWait | backend/internal/scheduler/scheduler.go:519-535 | In every run, after f failures since the last charge the next attempt is at least the first f delays after the first of them. |
| Billing.CancellationWaits | backend/internal/scheduler/scheduler.go:519-535 | In every run nobody is cancelled before all delays have passed since the first failure after the last charge. |
| Billing.PromptRetries | backend/internal/scheduler/scheduler.go:503-535 | The delays are exact: of attempts made when they are due, the next is the sum of the delays used, and five minutes for each operator-side failure, after the due time. |
| Billing.RecordsLastCharge | backend/internal/scheduler/scheduler.go:430-447 | Every run leaves the user, the plan and the stash alone and nothing in flight, and the record shows the transaction, block and time of its last charge. |
| Billing.Policy.NextRetry | backend/internal/dunning/dunning.go:20-25 | A retry exists exactly for failures one to the number of delays, and is not in the past; Billing.PromptRetries has the times. |
| Proration.UpgradesNeverOvercharge | backend/internal/scheduler/scheduler.go:364-388 | Over any climb of plans in one cycle, with stashes pulled or overwritten, what is pulled pro rata is at most the rise in price. |
| Proration.CycleKeepsDueDate | backend/internal/scheduler/scheduler.go:364-388 | No climb of plans and no settlement in a cycle moves the due date, the status or the retries used. |
| Proration.ChargedWhen | backend/internal/api/api.go:379-399 | A difference is charged exactly for a rise in price between two known prices, with the last charge known and before the due time, and now before the due time. |
| Proration.ShareOfTheRise | backend/internal/api/api.go:390-403 | It is the rise's share of the time left in the cycle, cut to whole units, and the whole rise at the moment of the charge. |
| Proration.SamePlanAgain | backend/internal/api/api.go:349-356 | A request for the same plan changes nothing unless cancelled; a cancelled one is active and due at the start, and its first user-side failure cancels it again exactly when its retries were used up. |
| Proration.OtherPlanKeepsDueDate | backend/internal/api/api.go:358-374 | A request for another plan keeps the due date and the last charge, and uses no retries. |
| Proration.DiffWithinDifference | backend/internal/api/api.go:379-404 | With the last charge in the past, the difference charged lies between zero and the rise in price. |
| Proration.DiffWithinRiseIff | backend/internal/api/api.go:379-404 | The difference stays within the rise p exactly when p times what remains beyond the cycle is less than the cycle. |
| Proration.FutureChargeOvercharges | backend/internal/api/api.go:379-404 | A last charge in the future can overcharge: one unit's rise costs two. |
| Proration.DiffShrinks | backend/internal/api/api.go:379-404 | Waiting never makes an upgrade dearer. |
| Proration.SplitLosesAtMostOne | backend/internal/api/api.go:379-404 | Two upgrades at one instant cost at most one unit less than one. |
| Api.ApplyPlan | backend/internal/api/api.go:333-374 | The record changed in place, or the new one: reactivation, the stashed difference, and what is reset. |
| Coverage.RequiredCovers | backend/internal/api/api.go:409-426 | Approving what is asked lets the pending charge and n regular pulls through for every n; one more goes through only if the approval was the maximum or the plan is free, and then it does. |
| Coverage.RecommendedOutlastsWarning | backend/internal/api/api.go:413-426 | The recommended approval is for twelve periods or six times the warning's threshold; after it the warning fires exactly from the twelfth pull on, or from the first after five thresholds' worth. |
| Coverage.AllPulledIff | contracts/test/MockERC20.sol:35-47 | A series of pulls goes through exactly when the token is not frozen, the allowance covers the total or is the maximum, and the balance can pay. |
| Coverage.WarningIsExact | backend/internal/scheduler/scheduler.go:484-492 | The warning fires exactly when fewer further pulls than the threshold would succeed. |
| Coverage.RemainingIsExact | backend/internal/scheduler/scheduler.go:484-501 | The reported number of periods is exactly the number of pulls left. |
| Coverage.UnlimitedIsNotLow | backend/internal/scheduler/scheduler.go:484-492 | A maximal allowance is warned about only for a threshold past 256 bits. |
| Token.MockERC20.TransferFrom | contracts/test/MockERC20.sol:35-47 | The unchecked block computes the exact transfer; false and revert change nothing. |
| Token.MockERC20.Mint | contracts/test/MockERC20.sol:23-27 | Checked addition: succeeds exactly below 2^256, else nothing changes. |
| Token.MockERC20.Approve | contracts/test/MockERC20.sol:29-33 | One allowance is set. |
| Token.UncheckedIsExact | contracts/test/MockERC20.sol:40-44 | Under conservation no unchecked operation wraps, a transfer to oneself included. |
| Token.RunConserves | contracts/test/MockERC20.sol:23-47 | In every run from deployment the balances sum to the supply, below 2^256, and the treasury never changes. |
| Token.TransferMoves | contracts/test/MockERC20.sol:35-47 | What a transfer does to every balance and allowance. |
| Token.MintAndApproveMove | contracts/test/MockERC20.sol:23-33 | A mint credits one account, an approval sets one allowance, and nothing else moves. |
| Token.AllowanceIsABudget | contracts/src/Subscriptions.sol:74-77 | Pulled since the last approval plus what is left is what was approved, unless it was the maximum, which never runs down. |
| Token.AllowanceStep | contracts/src/Subscriptions.sol:74-77 | Only the user's approval and the contract's pull touch the contract's allowance. |
| Token.Subscriptions.Pull | contracts/src/Subscriptions.sol:74-77 | Succeeds exactly for the operator on a transferable amount, and pays only the treasury. |
| Token.Subscriptions.SetOperator | contracts/src/Subscriptions.sol:68-71 | Only the owner rotates the operator. |
| Token.Subscriptions.TransferOwnership | contracts/src/Subscriptions.sol:61-65 | Only the owner hands over, and never to the zero address. |
| Token.Subscriptions.Deploy | contracts/src/Subscriptions.sol:49-59 | Deployment reverts exactly on a zero argument. |
| Token.HaltedRunPullsNothing | contracts/src/Subscriptions.sol:67-77 | From the rotation to the zero operator until the next rotation, every run is the same as without its pulls. |

## Left out

- HTTP routing, authentication, JSON, typed error texts, webhooks and their payloads, the gas-low warning, configuration, HTML and the indexer: no state the properties depend on.
- RPC, ABI packing, keccak and key recovery: transactions arrive as records with their call decoded, and the recovered signer is a function of message and signature. A transaction record stands for its own hash.
- The classes of RPC error texts: whether a call fails, and whether on the operator's side, the user's, or by the end of the context, is a parameter at every call.
- Redis wire protocol and process scheduling: commands are atomic steps in any order; the clock never goes back. An upsert of a subscription, status sets and index included, is one transaction as in the code.
- A failed write to the subscription store: the broadcast and its record are one step, and the fault between them is the engine step Lost.
- API edits of a user whose charge is being processed, and of a plan in use by the batch: the methods of the scheduler take both as left alone until they return; in the engine they are steps like any other.
- Fields LastError, CreatedAt, UpdatedAt, SuccessURL and Metadata: written and shown, never decided on.
- Subscriber addresses in the subscription store are numbers; their text form is modelled where the checkout compares it. Letter case is ASCII.
- Time zones, leap seconds and years past what 64-bit durations of nanoseconds carry; differences of instants in proration do saturate.
- Plan prices that are negative or past 256 bits, in the scheduler's methods: the plan endpoint accepts any base-10 integer (`backend/internal/api/api.go:234`), and what the ABI packing makes of such an amount is not part of this model.
- A heartbeat of a tick that has already ended: renewals by anyone at any time are steps of the lock, but which goroutine sends them is not modelled.
- Checkout.RecoverableMayCheckOut: for canonical hash texts only; the handler forwards any text, and the conservation law says nothing of sessions an operator completes with another one. A plan price that does not parse is an upstream failure there, where the handler would panic.
- TickLock.MutualExclusion: says nothing of a tick that goes on past its deadline before its next check between subscriptions; ExclusiveIffTimely and SecondTickIff give the exact condition.
- SubStore.SameDueSet: is about unlimited queries; with a limit the two stores cut in their own orders.
- Scheduler.Scheduler.Tick: other instances' hold on the lock while this one's tick runs past its time to live; `TickLock` has all instances together.
- Submitter.Client.Elapse: stands for everything outside the process; callers know only its contract.
